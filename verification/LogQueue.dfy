/** The manager's log queue: one appending thread, the flusher thread and the destructor, as interleaved atomic
    steps over the pending list, the batch in flight and the lines of the file. */
module LogQueue {
  import opened Wrappers

  /** Where the owning thread stands in `append` or in the destructor. */
  datatype Owner =
    | OIdle
    | OLock(slice: string)
    | OPush(slice: string)
    | OUnlock(slice: string)
    | OWake(slice: string)
    | OCount(slice: string)
    | DTest
    | DWake
    | DQuit
    | DLastWake
    | DJoin
    | DClose
    | ODone

  /** Where the flusher thread stands in `LoopFlush` and `flush`. */
  datatype Flusher = FTop | FEmpty | FClear | FWait | FLock | FSwap | FUnlock | FWrite | FExit

  /** `good` is the stream's state, `lines` the lines the file already held when it was opened for appending,
      `history` every slice put in the pending list and `lost` every line written to a failed stream, in order. */
  datatype State = State(
    logs: seq<string>, count: nat, swap: bool, wake: bool, quit: bool, batch: seq<string>, file: seq<string>,
    good: bool, owner: Owner, flusher: Flusher, lines: seq<string>, history: seq<string>, lost: seq<string>)

  datatype Request = Append(slice: string) | Destroy
  datatype Event = Own(r: Request) | Flush

  function LinesIn(found: Option<seq<string>>): seq<string> {
    match found
    case None => []
    case Some(lines) => lines
  }

  /** The constructor, given the file it finds.  A file that is not there is opened once to create it and, open as
      it is, once more; the second `open` fails, so the stream has failed, while `is_open` holds. */
  function Init(found: Option<seq<string>>): State {
    State([], 0, false, false, false, [], LinesIn(found), found.Some?, OIdle, FTop, LinesIn(found), [], [])
  }

  /** Writing to the stream: a failed one takes nothing. */
  function Written(s: State, more: seq<string>): State {
    if s.good then s.(file := s.file + more) else s.(lost := s.lost + more)
  }

  /** A lock already taken, an unset wake-up flag and a flusher still running leave the waiting thread in place. */
  function OwnerStep(s: State, r: Request): State {
    match s.owner
    case OIdle => s.(owner := if r.Append? then OLock(r.slice) else DTest)
    case OLock(x) => if s.swap then s else s.(swap := true, owner := OPush(x))
    case OPush(x) => s.(logs := s.logs + [x], history := s.history + [x], owner := OUnlock(x))
    case OUnlock(x) => s.(swap := false, owner := OWake(x))
    case OWake(x) => s.(wake := true, owner := OCount(x))
    case OCount(x) => s.(count := s.count + 1, owner := OIdle)
    case DTest => s.(owner := if s.logs == [] then DQuit else DWake)
    case DWake => s.(wake := true, owner := DTest)
    case DQuit => s.(quit := true, owner := DLastWake)
    case DLastWake => s.(wake := true, owner := DJoin)
    case DJoin => if s.flusher.FExit? then s.(owner := DClose) else s
    case DClose => s.(owner := ODone)
    case ODone => s
  }

  function FlusherStep(s: State): State {
    match s.flusher
    case FTop => s.(flusher := if s.quit then FExit else FEmpty)
    case FEmpty => s.(flusher := if s.logs == [] then FClear else FLock)
    case FClear => s.(wake := false, flusher := FWait)
    case FWait => if s.wake then s.(flusher := FTop) else s
    case FLock => if s.swap then s else s.(swap := true, flusher := FSwap)
    case FSwap => s.(logs := [], batch := s.logs, flusher := FUnlock)
    case FUnlock => s.(swap := false, flusher := FWrite)
    case FWrite =>
      if s.batch == [] then s.(flusher := FTop)
      else Written(s, [s.batch[0]]).(batch := s.batch[1..])
    case FExit => s
  }

  function Step(s: State, e: Event): State {
    match e
    case Own(r) => OwnerStep(s, r)
    case Flush => FlusherStep(s)
  }

  function Run(s: State, events: seq<Event>): State
    decreases |events|
  {
    if events == [] then s else Run(Step(s, events[0]), events[1..])
  }

  predicate Pushed(o: Owner) { o.OUnlock? || o.OWake? || o.OCount? }

  predicate Closing(o: Owner) { o.DQuit? || o.DLastWake? || o.DJoin? || o.DClose? || o.ODone? }

  /** File, lost lines, batch in flight and pending list are, in this order, the old lines and everything appended;
      a good stream loses nothing, and a failed one leaves its file empty. */
  ghost predicate Conserved(s: State) {
    && s.lines + s.history == s.file + s.lost + s.batch + s.logs
    && (s.good ==> s.lost == [])
    && (!s.good ==> s.lines == [] && s.file == [])
  }

  /** Mutual exclusion, the counter, and what each stage of the shut-down has achieved. */
  ghost predicate Control(s: State) {
    && !((s.owner.OPush? || s.owner.OUnlock?) && (s.flusher.FSwap? || s.flusher.FUnlock?))
    && (s.swap <==> s.owner.OPush? || s.owner.OUnlock? || s.flusher.FSwap? || s.flusher.FUnlock?)
    && (s.batch != [] ==> s.flusher.FUnlock? || s.flusher.FWrite?)
    && |s.history| == s.count + (if Pushed(s.owner) then 1 else 0)
    && (Pushed(s.owner) ==> s.history[s.count] == s.owner.slice)
    && (Closing(s.owner) ==> s.logs == [])
    && (s.quit <==> Closing(s.owner) && !s.owner.DQuit?)
    && (s.flusher.FExit? ==> s.quit)
    && (s.owner.DClose? || s.owner.ODone? ==> s.flusher.FExit?)
  }

  ghost predicate Inv(s: State) { Conserved(s) && Control(s) }

  lemma PushConserves(s: State, x: string)
    requires Conserved(s)
    ensures Conserved(s.(logs := s.logs + [x], history := s.history + [x]))
  {
    assert s.lines + (s.history + [x]) == s.lines + s.history + [x];
    assert s.file + s.lost + s.batch + (s.logs + [x]) == s.file + s.lost + s.batch + s.logs + [x];
  }

  lemma FlusherConserves(s: State)
    requires Conserved(s) && (s.flusher.FSwap? ==> s.batch == [])
    ensures Conserved(FlusherStep(s))
  {
    hide Written;
    if s.flusher.FSwap? {
      assert s.file + s.lost + [] + s.logs == s.file + s.lost + s.logs + [];
    } else if s.flusher.FWrite? {
      hide Conserved;
      WriteConserves(s);
    }
  }

  lemma WriteConserves(s: State)
    requires Conserved(s)
    ensures Conserved(s.(flusher := FTop))
    ensures s.batch != [] ==> Conserved(Written(s, [s.batch[0]]).(batch := s.batch[1..]))
  {
    assert Conserved(s.(flusher := FTop));
    hide Conserved, Written;
    if s.batch != [] {
      assert [s.batch[0]] + s.batch[1..] == s.batch;
      WrittenConserves(s, [s.batch[0]], s.batch[1..]);
    }
  }

  lemma WrittenConserves(s: State, more: seq<string>, rest: seq<string>)
    requires Conserved(s) && s.batch == more + rest
    ensures Conserved(Written(s, more).(batch := rest))
  {
    var w := s.file + s.lost;
    assert w + s.batch + s.logs == w + more + rest + s.logs;
    if s.good {
      assert w == s.file && s.file + more + [] == s.file + more;
    } else {
      assert [] + s.lost == s.lost && [] + (s.lost + more) == s.lost + more;
    }
  }

  lemma OwnerConserves(s: State, r: Request)
    requires Conserved(s)
    ensures Conserved(OwnerStep(s, r))
  {
    if s.owner.OPush? {
      PushConserves(s, s.owner.slice);
      hide Conserved;
      assert Conserved(s.(logs := s.logs + [s.owner.slice], history := s.history + [s.owner.slice]));
    }
  }

  lemma StepConserves(s: State, e: Event)
    requires Conserved(s) && (s.flusher.FSwap? ==> s.batch == [])
    ensures Conserved(Step(s, e))
  {
    hide OwnerStep, FlusherStep, Conserved;
    match e
    case Own(r) => OwnerConserves(s, r);
    case Flush => FlusherConserves(s);
  }

  predicate Appending(o: Owner) { o.OIdle? || o.OLock? || o.OPush? || o.OUnlock? || o.OWake? || o.OCount? }

  lemma AppendControls(s: State, r: Request)
    requires Control(s) && Appending(s.owner)
    ensures Control(OwnerStep(s, r)) && s.history <= OwnerStep(s, r).history
  {}

  lemma DestructorControls(s: State, r: Request)
    requires Control(s) && !Appending(s.owner)
    ensures Control(OwnerStep(s, r)) && s.history == OwnerStep(s, r).history
  {}

  lemma FlusherControls(s: State)
    requires Control(s)
    ensures Control(FlusherStep(s)) && FlusherStep(s).history == s.history
  {
    hide Written;
    WrittenLeaves(s, if s.batch == [] then [] else [s.batch[0]]);
  }

  lemma WrittenLeaves(s: State, more: seq<string>)
    ensures Written(s, more) == s.(file := Written(s, more).file, lost := Written(s, more).lost)
    ensures s.file <= Written(s, more).file
  {}

  lemma OwnerLeavesFile(s: State, r: Request)
    ensures var t := OwnerStep(s, r);
            t.lines == s.lines && t.good == s.good && t.file == s.file
  {}

  lemma FlusherGrowsFile(s: State)
    ensures var t := FlusherStep(s);
            t.lines == s.lines && t.good == s.good && s.file <= t.file
  {
    hide Written;
    if s.flusher.FWrite? && s.batch != [] {
      WrittenLeaves(s, [s.batch[0]]);
    }
  }

  lemma FileGrows(s: State, e: Event)
    ensures var t := Step(s, e);
            t.lines == s.lines && t.good == s.good && s.file <= t.file
  {
    hide OwnerStep, FlusherStep;
    match e
    case Own(r) => OwnerLeavesFile(s, r);
    case Flush => FlusherGrowsFile(s);
  }

  lemma {:induction false} StepKeeps(s: State, e: Event)
    requires Inv(s)
    ensures var t := Step(s, e);
            Inv(t) && s.history <= t.history && t.lines == s.lines && t.good == s.good
  {
    StepConserves(s, e);
    FileGrows(s, e);
    match e
    case Own(r) =>
      if Appending(s.owner) {
        AppendControls(s, r);
      } else {
        DestructorControls(s, r);
      }
    case Flush => FlusherControls(s);
  }

  /** Every interleaving keeps file ++ lost ++ batch ++ pending equal to everything appended.  Once the destructor
      has returned the file holds all of it, behind its old lines, exactly when the file was there to be opened or
      nothing was appended: a file the constructor had to create stays empty. */
  lemma {:induction false} NothingIsLostIff(s: State, events: seq<Event>)
    requires Inv(s)
    ensures var t := Run(s, events);
            && Inv(t) && s.history <= t.history && t.lines == s.lines && t.good == s.good
            && t.lines + t.history == t.file + t.lost + t.batch + t.logs
            && (t.owner.ODone? ==>
                  && t.flusher.FExit? && t.file == (if t.good then t.lines + t.history else [])
                  && (t.file == t.lines + t.history <==> t.good || t.history == []))
    decreases |events|
  {
    if events == [] {
      if s.owner.ODone? {
        assert s.file + s.lost + [] + [] == s.file + s.lost;
      }
    } else {
      StepKeeps(s, events[0]);
      hide Step, Inv;
      NothingIsLostIff(Step(s, events[0]), events[1..]);
    }
  }

  lemma InitIsValid(found: Option<seq<string>>)
    ensures Inv(Init(found))
  {
    var lines := LinesIn(found);
    assert lines + [] == lines + [] + [] + [];
  }

  /** A crash at any instant leaves a prefix of what was appended, behind the lines the file held before: none of it
      when the constructor had to create the file. */
  lemma FileIsAlwaysAPrefix(found: Option<seq<string>>, events: seq<Event>)
    ensures var lines, t := LinesIn(found), Run(Init(found), events);
            && |lines| <= |t.file| && t.file[..|lines|] == lines && t.file[|lines|..] <= t.history
            && (found.None? ==> t.file == [])
  {
    InitIsValid(found);
    NothingIsLostIff(Init(found), events);
    var lines, t := LinesIn(found), Run(Init(found), events);
    StartsWithOldLines(Init(found), events);
    assert t.file + (t.lost + t.batch + t.logs) == t.file + t.lost + t.batch + t.logs;
    SplitBehind(lines, t.history, t.file, t.lost + t.batch + t.logs);
  }

  lemma SplitBehind(a: seq<string>, h: seq<string>, f: seq<string>, rest: seq<string>)
    requires a + h == f + rest && a <= f
    ensures f[|a|..] <= h
  {
    assert h == (a + h)[|a|..] == (f + rest)[|a|..] == f[|a|..] + rest;
  }

  lemma {:induction false} StartsWithOldLines(s: State, events: seq<Event>)
    requires s.lines <= s.file
    ensures Run(s, events).lines == s.lines && s.lines <= Run(s, events).file
    decreases |events|
  {
    if events != [] {
      FileGrows(s, events[0]);
      hide Step;
      StartsWithOldLines(Step(s, events[0]), events[1..]);
    }
  }

  /** The n-th call of `append` returns n, and its slice is the n-th slice appended: whenever the file is long
      enough, line n counted behind the lines it held before.  Once the destructor has returned it is long enough
      exactly when it was there to be opened. */
  lemma AppendReturnsItsLine(found: Option<seq<string>>, before: seq<Event>, r: Request, after: seq<Event>)
    requires Run(Init(found), before).owner.OCount?
    ensures var s := Run(Init(found), before);
            var n := Step(s, Own(r)).count;
            var t, at := Run(Step(s, Own(r)), after), |LinesIn(found)| + n;
            && n == |s.history| && n > 0
            && (t.owner.ODone? ==> (|t.file| >= at <==> found.Some?))
            && (|t.file| >= at ==> t.file[at - 1] == s.owner.slice)
  {
    assert Init(found).lines == LinesIn(found) && Init(found).good == found.Some?;
    hide *;
    InitIsValid(found);
    NothingIsLostIff(Init(found), before);
    var s := Run(Init(found), before);
    CountIsNumber(s, r);
    LineAt(Step(s, Own(r)), after);
  }

  lemma CountIsNumber(s: State, r: Request)
    requires Inv(s) && s.owner.OCount?
    ensures var t := Step(s, Own(r));
            && Inv(t) && t.lines == s.lines && t.good == s.good && t.history == s.history
            && t.count == |s.history| > 0 && s.history[|s.history| - 1] == s.owner.slice
  {
    StepKeeps(s, Own(r));
    hide Conserved;
  }

  lemma LineAt(s: State, events: seq<Event>)
    requires Inv(s) && s.history != []
    ensures var t, at := Run(s, events), |s.lines| + |s.history|;
            && (t.owner.ODone? ==> (|t.file| >= at <==> s.good))
            && (|t.file| >= at ==> t.file[at - 1] == s.history[|s.history| - 1])
  {
    NothingIsLostIff(s, events);
    var t := Run(s, events);
    hide *;
    NthLine(t.lines, s.history, t.history, t.file, t.lost, t.batch, t.logs);
  }

  lemma NthLine(lines: seq<string>, h: seq<string>, more: seq<string>, file: seq<string>, lost: seq<string>,
                batch: seq<string>, logs: seq<string>)
    requires h != [] && h <= more && lines + more == file + lost + batch + logs
    ensures |file| >= |lines| + |h| ==> file[|lines| + |h| - 1] == h[|h| - 1]
  {
    assert (lines + more)[|lines| + |h| - 1] == h[|h| - 1];
  }

  // ---------------------------------------------------------------- one thread at a time

  function Repeat(e: Event, n: nat): seq<Event> { seq(n, _ => e) }

  lemma RunOnce(s: State, e: Event, n: nat)
    requires n > 0
    ensures Run(s, Repeat(e, n)) == Run(Step(s, e), Repeat(e, n - 1))
  {
    assert Repeat(e, n)[1..] == Repeat(e, n - 1);
  }

  /** Six steps of the appending thread from rest are one `append`. */
  lemma AppendAlone(s: State, slice: string)
    requires s.owner == OIdle && !s.swap
    ensures Run(s, Repeat(Own(Append(slice)), 6)) ==
            s.(logs := s.logs + [slice], history := s.history + [slice], wake := true, count := s.count + 1)
  {
    hide Run, Repeat;
    var e := Own(Append(slice));
    RunOnce(s, e, 6);
    var s1 := s.(owner := OLock(slice));
    RunOnce(s1, e, 5);
    var s2 := s1.(swap := true, owner := OPush(slice));
    RunOnce(s2, e, 4);
    var s3 := s2.(logs := s.logs + [slice], history := s.history + [slice], owner := OUnlock(slice));
    RunOnce(s3, e, 3);
    var s4 := s3.(swap := false, owner := OWake(slice));
    RunOnce(s4, e, 2);
    var s5 := s4.(wake := true, owner := OCount(slice));
    RunOnce(s5, e, 1);
    NoSteps(s5.(count := s.count + 1, owner := OIdle), e);
  }

  lemma NoSteps(s: State, e: Event)
    ensures Run(s, Repeat(e, 0)) == s
  {}

  /** How many steps one `flush` takes: two when nothing is pending, else four, one for each line, and one. */
  function FlushSteps(logs: seq<string>): nat { if logs == [] then 2 else |logs| + 5 }

  lemma WrittenNothing(s: State)
    ensures Written(s, []) == s
  {
    assert s.file + [] == s.file && s.lost + [] == s.lost;
  }

  lemma WrittenTwice(s: State, a: seq<string>, b: seq<string>)
    ensures Written(Written(s, a).(batch := b), b).(batch := []) == Written(s, a + b).(batch := [])
  {
    assert s.file + a + b == s.file + (a + b) && s.lost + a + b == s.lost + (a + b);
  }

  lemma {:induction false} WriteAlone(s: State)
    requires s.flusher == FWrite
    ensures Run(s, Repeat(Flush, |s.batch| + 1)) == Written(s, s.batch).(batch := [], flusher := FTop)
    decreases |s.batch|
  {
    RunOnce(s, Flush, |s.batch| + 1);
    if s.batch == [] {
      NoSteps(s.(flusher := FTop), Flush);
      WrittenNothing(s);
    } else {
      hide Run, Repeat;
      WriteAlone(Written(s, [s.batch[0]]).(batch := s.batch[1..]));
      WrittenTwice(s, [s.batch[0]], s.batch[1..]);
      assert [s.batch[0]] + s.batch[1..] == s.batch;
    }
  }

  /** The flusher's steps from the start of `flush` are one flush: everything pending goes to the stream, or, with
      nothing pending, the flusher goes to sleep. */
  lemma FlushAlone(s: State)
    requires s.flusher == FEmpty && !s.swap && s.batch == []
    ensures Run(s, Repeat(Flush, FlushSteps(s.logs))) ==
            if s.logs == [] then s.(wake := false, flusher := FWait)
            else Written(s, s.logs).(logs := [], flusher := FTop)
  {
    hide Run, Repeat, OwnerStep, Written;
    RunOnce(s, Flush, FlushSteps(s.logs));
    if s.logs == [] {
      RunOnce(s.(flusher := FClear), Flush, 1);
      NoSteps(s.(wake := false, flusher := FWait), Flush);
    } else {
      TakeAlone(s.(flusher := FLock));
      WrittenOnce(s);
    }
  }

  lemma WrittenOnce(s: State)
    requires s.batch == []
    ensures Written(s.(flusher := FLock), s.logs).(logs := [], flusher := FTop) ==
            Written(s, s.logs).(logs := [], flusher := FTop)
    ensures Written(s.(logs := [], batch := s.logs, flusher := FWrite), s.logs).(batch := [], flusher := FTop) ==
            Written(s, s.logs).(logs := [], flusher := FTop)
  {}

  lemma TakeAlone(s: State)
    requires s.flusher == FLock && !s.swap && s.batch == []
    ensures Run(s, Repeat(Flush, |s.logs| + 4)) == Written(s, s.logs).(logs := [], flusher := FTop)
  {
    var taken, n := s.(logs := [], batch := s.logs, flusher := FWrite), |s.logs|;
    hide Run, Repeat, OwnerStep, Written;
    WrittenOnce(s);
    RunOnce(s, Flush, n + 4);
    RunOnce(s.(swap := true, flusher := FSwap), Flush, n + 3);
    RunOnce(s.(swap := true, logs := [], batch := s.logs, flusher := FUnlock), Flush, n + 2);
    WriteAlone(taken);
  }

  /** After a flush the file holds everything, or nothing when it had to be created. */
  lemma FlushLeaves(s: State)
    requires Inv(s) && s.flusher == FEmpty && !s.swap && s.batch == []
    ensures var t := Run(s, Repeat(Flush, FlushSteps(s.logs)));
            && Inv(t) && t.history == s.history && t.logs == []
            && t.file == if t.good then t.lines + t.history else []
  {
    NothingIsLostIff(s, Repeat(Flush, FlushSteps(s.logs)));
    FlushAlone(s);
    hide Run, Repeat, Control;
    var t := Run(s, Repeat(Flush, FlushSteps(s.logs)));
    assert t.file + t.lost + [] + [] == t.file + t.lost;
    assert t.file + [] == t.file;
  }

  lemma {:induction false} RunSplit(s: State, a: seq<Event>, b: seq<Event>)
    ensures Run(s, a + b) == Run(Run(s, a), b)
    decreases |a|
  {
    if a == [] {
      assert a + b == b;
    } else {
      assert (a + b)[0] == a[0] && (a + b)[1..] == a[1..] + b;
      RunSplit(Step(s, a[0]), a[1..], b);
    }
  }

  /** One slice appended, flushed, and the queue destroyed. */
  function OneAppend(slice: string): seq<Event> {
    Repeat(Own(Append(slice)), 6) + Repeat(Flush, 7) + Repeat(Own(Destroy), 4) + Repeat(Flush, 1)
    + Repeat(Own(Destroy), 2)
  }

  /** The destructor with nothing pending, up to its wait for the flusher. */
  lemma QuitAlone(s: State)
    requires s.owner == OIdle && s.logs == []
    ensures Run(s, Repeat(Own(Destroy), 4)) == s.(wake := true, quit := true, owner := DJoin)
  {
    hide Run, Repeat, FlusherStep;
    var e := Own(Destroy);
    RunOnce(s, e, 4);
    RunOnce(s.(owner := DTest), e, 3);
    RunOnce(s.(owner := DQuit), e, 2);
    RunOnce(s.(quit := true, owner := DLastWake), e, 1);
    NoSteps(s.(wake := true, quit := true, owner := DJoin), e);
  }

  lemma JoinAlone(s: State)
    requires s.owner == DJoin && s.flusher == FTop && s.quit
    ensures Run(Run(s, Repeat(Flush, 1)), Repeat(Own(Destroy), 2)) == s.(owner := ODone, flusher := FExit)
  {
    hide Run, Repeat;
    var t, e := s.(flusher := FExit), Own(Destroy);
    RunOnce(s, Flush, 1);
    NoSteps(t, Flush);
    RunOnce(t, e, 2);
    RunOnce(t.(owner := DClose), e, 1);
    NoSteps(t.(owner := ODone), e);
  }

  lemma DestroyAlone(s: State)
    requires s.owner == OIdle && s.flusher == FTop && s.logs == []
    ensures var t := Run(Run(s, Repeat(Own(Destroy), 4)), Repeat(Flush, 1));
            Run(t, Repeat(Own(Destroy), 2)) == s.(wake := true, quit := true, owner := ODone, flusher := FExit)
  {
    hide Run, Repeat;
    QuitAlone(s);
    JoinAlone(s.(wake := true, quit := true, owner := DJoin));
  }

  lemma FlushOne(s: State)
    requires s.flusher == FTop && !s.quit && !s.swap && s.batch == [] && |s.logs| == 1
    ensures Run(s, Repeat(Flush, 7)) == Written(s, s.logs).(logs := [])
  {
    var t := s.(flusher := FEmpty);
    assert Written(t, t.logs).(logs := [], flusher := FTop) == Written(s, s.logs).(logs := []);
    assert FlusherStep(s) == t;
    hide Run, Repeat, Written, FlusherStep;
    RunOnce(s, Flush, 7);
    FlushAlone(t);
  }

  lemma OneLineLost(s: State, slice: string)
    requires !s.good && s.owner == OIdle && s.flusher == FTop && !s.swap && !s.quit && s.batch == [] && s.logs == []
    ensures Run(Run(s, Repeat(Own(Append(slice)), 6)), Repeat(Flush, 7)) ==
            s.(history := s.history + [slice], lost := s.lost + [slice], wake := true, count := s.count + 1)
  {
    AppendAlone(s, slice);
    hide Run, Repeat, OwnerStep, FlusherStep;
    var t := s.(logs := [slice], history := s.history + [slice], wake := true, count := s.count + 1);
    assert s.logs + [slice] == [slice];
    FlushOne(t);
  }

  /** The run in which the promise fails: the file was not there, and the only line appended never reaches it. */
  lemma CreatedFileStaysEmpty(slice: string)
    ensures var t := Run(Init(None), OneAppend(slice));
            t.owner.ODone? && t.history == [slice] && t.lost == [slice] && t.file == []
  {
    hide Run, Repeat, OwnerStep, FlusherStep;
    RunFive(Init(None), Repeat(Own(Append(slice)), 6), Repeat(Flush, 7), Repeat(Own(Destroy), 4), Repeat(Flush, 1),
            Repeat(Own(Destroy), 2));
    OneLineLost(Init(None), slice);
    assert Init(None).history + [slice] == [slice] && Init(None).lost + [slice] == [slice];
    DestroyAlone(Init(None).(history := [slice], lost := [slice], wake := true, count := 1));
  }

  lemma RunFive(s: State, a: seq<Event>, b: seq<Event>, c: seq<Event>, d: seq<Event>, e: seq<Event>)
    ensures Run(s, a + b + c + d + e) == Run(Run(Run(Run(Run(s, a), b), c), d), e)
  {
    hide Run;
    RunSplit(s, a + b + c + d, e);
    RunSplit(s, a + b + c, d);
    RunSplit(s, a + b, c);
    RunSplit(s, a, b);
  }

  // ---------------------------------------------------------------- wake-ups that are lost

  /** The flusher has found the list empty and is about to clear the flag, or sleeps with the flag cleared. */
  predicate Drowsy(s: State) { s.flusher.FClear? || (s.flusher.FWait? && !s.wake) }

  /** Some schedule takes the state to one where the destructor has returned. */
  ghost predicate Returns(s: State) { exists events :: Run(s, events).owner.ODone? }

  lemma ReturnsNext(s: State, e: Event)
    requires Returns(Step(s, e))
    ensures Returns(s)
  {
    var events :| Run(Step(s, e), events).owner.ODone?;
    assert ([e] + events)[1..] == events && Run(s, [e] + events) == Run(Step(s, e), events);
  }

  lemma ReturnsFromExit(s: State)
    requires s.owner.DJoin? && s.flusher.FExit?
    ensures Returns(s)
  {
    var t := s.(owner := ODone);
    assert Run(t, []).owner.ODone?;
    ReturnsNext(s.(owner := DClose), Own(Destroy));
    ReturnsNext(s, Own(Destroy));
  }

  lemma ReturnsFromTop(s: State)
    requires s.owner.DJoin? && s.flusher.FTop? && s.quit
    ensures Returns(s)
  {
    ReturnsFromExit(s.(flusher := FExit));
    hide Returns, Run;
    ReturnsNext(s, Flush);
  }

  lemma {:induction false} ReturnsFromWrite(s: State)
    requires s.owner.DJoin? && s.flusher.FWrite? && s.quit
    ensures Returns(s)
    decreases |s.batch|
  {
    hide Returns, Run;
    if s.batch == [] {
      ReturnsFromTop(s.(flusher := FTop));
    } else {
      var t := FlusherStep(s);
      WrittenLeaves(s, [s.batch[0]]);
      hide Written;
      ReturnsFromWrite(t);
    }
    ReturnsNext(s, Flush);
  }

  lemma ReturnsFromSwap(s: State)
    requires s.owner.DJoin? && s.quit && (s.flusher.FUnlock? || s.flusher.FSwap? || (s.flusher.FLock? && !s.swap))
    ensures Returns(s)
  {
    hide Returns, Run, Written, OwnerStep;
    var u := if s.flusher.FLock? then s.(swap := true, flusher := FSwap) else s;
    var v := if u.flusher.FSwap? then u.(logs := [], batch := u.logs, flusher := FUnlock) else u;
    ReturnsFromWrite(v.(swap := false, flusher := FWrite));
    ReturnsNext(v, Flush);
    if u.flusher.FSwap? {
      ReturnsNext(u, Flush);
    }
    if s.flusher.FLock? {
      ReturnsNext(s, Flush);
    }
  }

  /** Where the destructor waits for a flusher that will not look at `quit` again. */
  predicate Hung(s: State) { s.owner.DJoin? && s.logs == [] && (s.flusher.FEmpty? || Drowsy(s)) }

  lemma HungStays(s: State, e: Event)
    requires Hung(s)
    ensures Hung(Step(s, e))
  {}

  lemma {:induction false} HungForGood(s: State, events: seq<Event>)
    requires Hung(s)
    ensures Hung(Run(s, events))
    decreases |events|
  {
    if events != [] {
      HungStays(s, events[0]);
      hide Step, Hung;
      HungForGood(Step(s, events[0]), events[1..]);
    }
  }

  /** The destructor has raised `quit`, woken the flusher and waits for it.  There is a schedule in which it returns
      exactly when the flusher was not between its test of `quit` and its sleep, nor asleep with the flag cleared
      after the wake-up; if it was, no schedule ever gets it out. */
  lemma {:induction false} DestructorReturnsIff(s: State)
    requires Inv(s) && s.owner.DJoin?
    ensures Returns(s) <==> !(s.flusher.FEmpty? || Drowsy(s))
  {
    assert s.logs == [] && s.quit && (s.flusher.FLock? ==> !s.swap);
    if s.flusher.FEmpty? || Drowsy(s) {
      forall events ensures !Run(s, events).owner.ODone? {
        HungForGood(s, events);
      }
    } else {
      hide Run, Inv, OwnerStep;
      match s.flusher
      case FTop => ReturnsFromTop(s);
      case FWait =>
        ReturnsFromTop(s.(flusher := FTop));
        hide Returns;
        ReturnsNext(s, Flush);
      case FWrite => ReturnsFromWrite(s);
      case FExit => ReturnsFromExit(s);
      case _ => ReturnsFromSwap(s);
    }
  }

  /** How far the flusher is from having taken the pending lines. */
  function Rank(f: Flusher): nat {
    match f
    case FClear => 9
    case FWait => 8
    case FUnlock => 7
    case FWrite => 6
    case FTop => 5
    case FEmpty => 4
    case FLock => 3
    case FSwap => 2
    case FExit => 0
  }

  lemma {:induction false} ReturnsFromTest(s: State)
    requires Inv(s) && s.owner.DTest? && s.logs == []
    ensures Returns(s)
    decreases if s.flusher.FEmpty? then 2 else if s.flusher.FClear? then 1 else 0
  {
    if s.flusher.FEmpty? || s.flusher.FClear? {
      StepKeeps(s, Flush);
      hide Inv, Returns;
      ReturnsFromTest(FlusherStep(s));
      ReturnsNext(s, Flush);
    } else {
      var s1 := s.(owner := DQuit);
      var s2 := s1.(quit := true, owner := DLastWake);
      var s3 := s2.(wake := true, owner := DJoin);
      StepKeeps(s, Own(Destroy));
      StepKeeps(s1, Own(Destroy));
      StepKeeps(s2, Own(Destroy));
      hide Inv, Returns, FlusherStep;
      DestructorReturnsIff(s3);
      ReturnsNext(s2, Own(Destroy));
      ReturnsNext(s1, Own(Destroy));
      ReturnsNext(s, Own(Destroy));
    }
  }

  /** The destructor wakes the flusher for as long as lines are pending: from its first test there is always a
      schedule in which it returns, wherever the flusher stands. */
  lemma {:induction false} DestructorCanReturn(s: State)
    requires Inv(s) && s.owner.DTest?
    ensures Returns(s)
    decreases if s.logs == [] then 0 else 1, Rank(s.flusher), |s.batch|
  {
    assert !s.flusher.FExit? && (s.flusher.FLock? ==> !s.swap);
    if s.logs == [] {
      ReturnsFromTest(s);
    } else if s.flusher.FWait? && !s.wake {
      var t := s.(wake := true);
      StepKeeps(s, Own(Destroy));
      StepKeeps(s.(owner := DWake), Own(Destroy));
      StepKeeps(t, Flush);
      hide Inv, Returns;
      DestructorCanReturn(t.(flusher := FTop));
      ReturnsNext(t, Flush);
      ReturnsNext(s.(owner := DWake), Own(Destroy));
      ReturnsNext(s, Own(Destroy));
    } else {
      StepKeeps(s, Flush);
      FlusherAdvances(s);
      hide Inv, Returns, FlusherStep, OwnerStep;
      DestructorCanReturn(FlusherStep(s));
      ReturnsNext(s, Flush);
    }
  }

  lemma FlusherAdvances(s: State)
    requires s.logs != [] && !s.quit && (s.flusher.FLock? ==> !s.swap) && (s.flusher.FWait? ==> s.wake)
    requires !s.flusher.FExit?
    ensures var t := FlusherStep(s);
            && t.owner == s.owner
            && (Rank(t.flusher) < Rank(s.flusher) || t.logs == [] ||
                (Rank(t.flusher) == Rank(s.flusher) && |t.batch| < |s.batch|))
  {}

  /** Such a run: a new queue is destroyed while its flusher, at the start of its loop, has just read `quit`. */
  lemma DestructorCanHang(found: Option<seq<string>>)
    ensures var s := Run(Init(found), [Flush] + Repeat(Own(Destroy), 4)); Inv(s) && s.owner.DJoin? && !Returns(s)
  {
    var events := [Flush] + Repeat(Own(Destroy), 4);
    var s := Init(found).(flusher := FEmpty);
    assert events[1..] == Repeat(Own(Destroy), 4) && Run(Init(found), events) == Run(s, events[1..]);
    QuitAlone(s);
    InitIsValid(found);
    hide Run, Repeat;
    NothingIsLostIff(Init(found), events);
    DestructorReturnsIff(Run(Init(found), events));
  }

  /** The flusher alone gets everything that is pending to the stream. */
  ghost predicate Flushes(s: State) {
    exists n: nat :: var t := Run(s, Repeat(Flush, n)); t.logs == [] && t.batch == []
  }

  lemma FlushesNext(s: State)
    requires Flushes(FlusherStep(s))
    ensures Flushes(s)
  {
    var n: nat :| var t := Run(FlusherStep(s), Repeat(Flush, n)); t.logs == [] && t.batch == [];
    RunOnce(s, Flush, n + 1);
    assert Run(s, Repeat(Flush, n + 1)) == Run(FlusherStep(s), Repeat(Flush, n));
  }

  lemma FlushesFromEmpty(s: State)
    requires s.flusher == FEmpty && !s.swap && s.batch == [] && s.logs != []
    ensures Flushes(s)
  {
    FlushAlone(s);
    var t := Run(s, Repeat(Flush, FlushSteps(s.logs)));
    hide Run, Repeat, FlushSteps;
    assert t.logs == [] && t.batch == [];
  }

  lemma FlushesFromTop(s: State)
    requires s.flusher == FTop && !s.quit && !s.swap && s.batch == [] && s.logs != []
    ensures Flushes(s)
  {
    FlushesFromEmpty(s.(flusher := FEmpty));
    hide Flushes;
    FlushesNext(s);
  }

  lemma {:induction false} FlushesFromWrite(s: State)
    requires s.flusher == FWrite && !s.quit && !s.swap && s.logs != []
    ensures Flushes(s)
    decreases |s.batch|
  {
    hide Flushes;
    if s.batch == [] {
      FlushesFromTop(s.(flusher := FTop));
    } else {
      WrittenLeaves(s, [s.batch[0]]);
      var t := FlusherStep(s);
      hide Written;
      FlushesFromWrite(t);
    }
    FlushesNext(s);
  }

  lemma FlushesFromLock(s: State)
    requires s.flusher == FLock && !s.swap && s.batch == []
    ensures Flushes(s)
  {
    TakeAlone(s);
    var t := Run(s, Repeat(Flush, |s.logs| + 4));
    hide Run, Repeat;
    assert t.logs == [] && t.batch == [];
  }

  lemma {:induction false} SleepsOn(s: State, n: nat)
    requires s.flusher.FWait? && !s.wake
    ensures Run(s, Repeat(Flush, n)) == s
    decreases n
  {
    if n > 0 {
      RunOnce(s, Flush, n);
      SleepsOn(s, n - 1);
    } else {
      NoSteps(s, Flush);
    }
  }

  lemma {:induction false} FlushesFromBatch(s: State)
    requires s.flusher == FWrite
    ensures s.logs == [] ==> Flushes(s)
  {
    WriteAlone(s);
    var t := Run(s, Repeat(Flush, |s.batch| + 1));
    WrittenLeaves(s, s.batch);
    hide Run, Repeat, Written;
    assert t.batch == [] && t.logs == s.logs;
  }

  lemma FlushesFromTaken(s: State)
    requires (s.flusher.FSwap? || s.flusher.FUnlock?) && !s.quit && s.logs != []
    ensures Flushes(s)
  {
    hide Flushes, Run, Written, OwnerStep;
    if s.flusher.FUnlock? {
      FlushesFromWrite(s.(swap := false, flusher := FWrite));
    } else {
      var t := s.(logs := [], batch := s.logs, flusher := FUnlock);
      FlushesFromBatch(t.(swap := false, flusher := FWrite));
      FlushesNext(t);
    }
    FlushesNext(s);
  }

  /** A slice is appended and `append` has returned.  Without another call the flusher gets it to the stream exactly
      when it was not about to clear the flag, or asleep with the flag cleared, behind the back of the wake-up. */
  lemma {:induction false} PendingIsFlushedIff(s: State)
    requires Inv(s) && s.owner.OIdle? && s.logs != []
    ensures Flushes(s) <==> !Drowsy(s)
  {
    assert !s.quit && (s.flusher.FSwap? || s.flusher.FUnlock? <==> s.swap) && !s.flusher.FExit?;
    if Drowsy(s) {
      forall n: nat ensures Run(s, Repeat(Flush, n)).logs != [] {
        DrowsySleeps(s, n);
      }
    } else {
      hide Inv, Flushes, Run, Repeat, Written;
      match s.flusher
      case FTop => FlushesFromTop(s);
      case FEmpty => FlushesFromEmpty(s);
      case FWait =>
        FlushesFromTop(s.(flusher := FTop));
        FlushesNext(s);
      case FLock => FlushesFromLock(s);
      case FWrite => FlushesFromWrite(s);
      case _ => FlushesFromTaken(s);
    }
  }

  lemma DrowsySleeps(s: State, n: nat)
    requires Drowsy(s)
    ensures Run(s, Repeat(Flush, n)).logs == s.logs
  {
    if n == 0 {
      NoSteps(s, Flush);
    } else if s.flusher.FClear? {
      RunOnce(s, Flush, n);
      SleepsOn(s.(wake := false, flusher := FWait), n - 1);
    } else {
      SleepsOn(s, n);
    }
  }

  /** The queue object, its two methods run without interference: each run of a method is a run of the machine. */
  class Queue {
    var logs: seq<string>
    var count: nat
    var file: seq<string>
    var wake: bool
    const good: bool
    ghost const lines: seq<string>
    ghost var history: seq<string>
    ghost var lost: seq<string>

    /** The machine between two calls, the flusher standing where `flusher` says. */
    ghost function AsState(flusher: Flusher): State
      reads this
    {
      State(logs, count, false, wake, false, [], file, good, OIdle, flusher, lines, history, lost)
    }

    ghost predicate Valid()
      reads this
    {
      Inv(AsState(FEmpty))
    }

    constructor (found: Option<seq<string>>)
      ensures Valid() && AsState(FTop) == Init(found)
    {
      InitIsValid(found);
      logs, count, file, wake, good := [], 0, LinesIn(found), false, found.Some?;
      lines, history, lost := LinesIn(found), [], [];
    }

    method Append(slice: string) returns (n: nat)
      requires Valid()
      modifies this
      ensures Valid() && history == old(history) + [slice] && file == old(file)
      ensures n == |history|
      ensures AsState(FEmpty) == Run(old(AsState(FEmpty)), Repeat(Own(Request.Append(slice)), 6))
    {
      AppendAlone(AsState(FEmpty), slice);
      NothingIsLostIff(AsState(FEmpty), Repeat(Own(Request.Append(slice)), 6));
      logs := logs + [slice];
      history := history + [slice];
      wake := true;
      count := count + 1;
      return count;
    }

    /** The loop over the batch. */
    method WriteAll(batch: seq<string>)
      modifies this`file, this`lost
      ensures file == old(file) + (if good then batch else [])
      ensures lost == old(lost) + (if good then [] else batch)
    {
      assert batch[..|batch|] == batch;
      for i := 0 to |batch|
        invariant file == old(file) + (if good then batch[..i] else [])
        invariant lost == old(lost) + (if good then [] else batch[..i])
      {
        if good {
          file := file + [batch[i]];
        } else {
          lost := lost + [batch[i]];
        }
        assert batch[..i + 1] == batch[..i] + [batch[i]];
      }
    }

    method FlushOnce() returns (worked: bool)
      requires Valid()
      modifies this
      ensures Valid() && history == old(history) && count == old(count)
      ensures worked <==> old(logs) != []
      ensures file == (if good then lines + history else []) && logs == []
      ensures AsState(if worked then FTop else FWait) == Run(old(AsState(FEmpty)), Repeat(Flush, FlushSteps(old(logs))))
    {
      FlushAlone(AsState(FEmpty));
      FlushLeaves(AsState(FEmpty));
      hide Run, Repeat, Inv, OwnerStep, FlusherStep;
      if logs == [] {
        wake := false;
        return false;
      }
      var batch := logs;
      logs := [];
      WriteAll(batch);
      return true;
    }
  }
}
