/** `recover`, run whenever the manager starts, and what the files on disk are worth afterwards. */
module Recovery {
  import opened Wrappers
  import Streams
  import opened PodDescriptor
  import opened ManagerLog
  import opened Manager
  import opened CrashRecovery
  import opened Snapshot

  // ---------------------------------------------------------------- the files

  /** What the next start finds: the line number and table of the snapshot (0 and the empty table when there is
      none) and the lines of `manager.log`. */
  datatype Disk = Disk(line: int, table: Table, log: seq<string>)

  /** `if (++l <= cur_line) continue`: the first line that is replayed. */
  function First(line: int, lines: nat): (k: nat)
    ensures k <= lines
  {
    if line < 0 then 0 else if line > lines then lines else line
  }

  /** Of the lines numbered from 1 on, those that are replayed are exactly those behind `line`. */
  lemma FirstIsBehind(line: int, lines: nat, number: int)
    requires 1 <= number <= lines
    ensures number - 1 >= First(line, lines) <==> number > line
  {}

  function Boot(d: Disk, workers: seq<WorkerId>): Result<Table, Exception> {
    Replay(d.log[First(d.line, |d.log|)..], d.table, workers)
  }

  /** The snapshot's table is up to date with the first k lines, its line number may lag behind k. */
  ghost predicate Covers(d: Disk, base: Table, k: nat, workers: seq<WorkerId>) {
    && First(d.line, |d.log|) <= k <= |d.log|
    && Yields(d.log[..k], base, d.table, workers)
    && Replay(d.log, base, workers).Ok?
  }

  lemma {:induction false} ReplayRespects(lines: seq<string>, t1: Table, t2: Table, workers: seq<WorkerId>)
    requires Same(t1, t2) && Replay(lines, t1, workers).Ok?
    ensures Replay(lines, t2, workers).Ok?
    ensures Same(Replay(lines, t1, workers).value, Replay(lines, t2, workers).value)
    decreases |lines|
  {
    hide EffectOf;
    if lines != [] {
      var effect := EffectOf(lines[0], workers);
      ReplayRespects(lines[1..], Apply(effect, t1), Apply(effect, t2), workers);
    }
  }

  /** Starting from a snapshot whose line number lags behind its table is starting from the whole log. */
  lemma BootIsReplay(d: Disk, base: Table, k: nat, workers: seq<WorkerId>)
    requires Covers(d, base, k, workers)
    ensures Boot(d, workers).Ok? && Same(Boot(d, workers).value, Replay(d.log, base, workers).value)
  {
    hide EffectOf, Apply, Replay, Same;
    var j := First(d.line, |d.log|);
    RestartAnywhere(d.log, base, workers, j, k);
    var at := Replay(d.log[..k], base, workers).value;
    ReplayRespects(d.log[j..], at, d.table, workers);
    SameBack(Replay(d.log, base, workers).value, Boot(d, workers).value);
  }

  // ---------------------------------------------------------------- creating every pod again

  /** The loop of `recover` over the table: every pod is sent to its worker again. */
  function Recreated(s: State, order: seq<string>, replies: seq<seq<Reply>>): State
    requires |order| == |replies| && forall i :: 0 <= i < |order| ==> Bindable(s, order[i]) && Script(replies[i])
    decreases |order|
  {
    if order == [] then s
    else
      var t := RecreatedOne(s, order[0], replies[0]);
      OneKeepsBindings(s, order[0], replies[0]);
      Recreated(t, order[1..], replies[1..])
  }

  function RecreatedOne(s: State, alias: string, replies: seq<Reply>): State
    requires Bindable(s, alias) && Script(replies)
  {
    AnswersKeepBinding(Append(s, CreateStart(alias)), alias, replies);
    var t := Created(s, alias, replies);
    if Succeeds(Last(replies)) then t
    else t.(pods := t.pods[alias := t.pods[alias].(alive := false)], down := t.down + [alias])
  }

  lemma OneIsSame(s: State, alias: string, replies: seq<Reply>) returns (q: Pod)
    requires Bindable(s, alias) && Script(replies)
    ensures var t := RecreatedOne(s, alias, replies);
            && Same(t.pods, s.pods) && Core(q) == Core(s.pods[alias]) && q.worker.Some?
            && t.log == s.log +
               [CreateStart(alias), if Succeeds(Last(replies)) then CreateEnd(q) else CreateFail(alias)]
  {
    hide CreateStart, CreateEnd, CreateFail;
    var begun := Append(s, CreateStart(alias));
    q := AnswersCommit(begun, alias, replies);
    var last := if Succeeds(Last(replies)) then CreateEnd(q) else CreateFail(alias);
    assert begun.log + [last] == s.log + [CreateStart(alias), last];
  }

  lemma OneKeepsBindings(s: State, alias: string, replies: seq<Reply>)
    requires Bindable(s, alias) && Script(replies)
    ensures forall a :: Bindable(s, a) ==> Bindable(RecreatedOne(s, alias, replies), a)
  {
    var q := OneIsSame(s, alias, replies);
    var t := RecreatedOne(s, alias, replies);
    forall a | Bindable(s, a) ensures Bindable(t, a) {
      assert Core(t.pods[a]) == Core(s.pods[a]);
    }
  }

  /** A table recovery can have read: every pod printable, though it may be on no worker. */
  ghost predicate Readable(pods: Table) {
    forall a :: a in pods ==>
      pods[a].alias == a && Streams.IsWord(a) && (pods[a].worker.Some? ==> Storable(pods[a]))
  }

  lemma ReadableAt(pods: Table, a: string)
    requires Readable(pods) && a in pods
    ensures pods[a].alias == a && Streams.IsWord(a) && (pods[a].worker.Some? ==> Storable(pods[a]))
  {}

  lemma SameReadable(t1: Table, t2: Table)
    requires Same(t1, t2) && Readable(t2)
    ensures Readable(t1)
  {
    hide Storable, Streams.IsWord;
    forall a | a in t1 ensures t1[a].alias == a && Streams.IsWord(a) && (t1[a].worker.Some? ==> Storable(t1[a])) {
      SameStorable(t1[a], t2[a]);
      assert Core(t1[a]).worker == Core(t2[a]).worker && Core(t1[a]).alias == Core(t2[a]).alias;
    }
  }

  /** What a replay of a run's log gives is readable. */
  lemma SeenReadable(pods: Table, workers: seq<WorkerId>)
    requires Sound(pods)
    ensures Readable(Seen(pods, workers))
  {
    hide Streams.IsWord;
    forall a | a in pods
      ensures var q := SeenPod(pods[a], workers);
              q.alias == a && Streams.IsWord(a) && (q.worker.Some? ==> Storable(q))
    {
      SoundAt(pods, a);
      assert Storable(pods[a]);
    }
  }

  /** A line that changes no table with these pods. */
  ghost predicate Inert(line: string, pods: Table, workers: seq<WorkerId>) {
    !EffectOf(line, workers).Throw? && forall t :: Same(t, pods) ==> Apply(EffectOf(line, workers), t) == t
  }

  ghost predicate AllInert(lines: seq<string>, pods: Table, workers: seq<WorkerId>) {
    forall l :: l in lines ==> Inert(l, pods, workers)
  }

  lemma {:induction false} InertReplay(lines: seq<string>, pods: Table, t: Table, workers: seq<WorkerId>)
    requires AllInert(lines, pods, workers) && Same(t, pods)
    ensures Replay(lines, t, workers) == Ok(t)
    decreases |lines|
  {
    hide EffectOf, Apply, Same;
    if lines != [] {
      assert lines[0] in lines;
      InertReplay(lines[1..], pods, t, workers);
    }
  }

  lemma OneIsInert(s: State, alias: string, replies: seq<Reply>, workers: seq<WorkerId>) returns (lines: seq<string>)
    requires Readable(s.pods) && Bindable(s, alias) && Script(replies)
    ensures var t := RecreatedOne(s, alias, replies);
            && t.log == s.log + lines && Same(t.pods, s.pods) && AllInert(lines, s.pods, workers)
  {
    hide Storable, Replay, EffectOf, CreateStart, CreateEnd, CreateFail, RecreatedOne, Same;
    var q := OneIsSame(s, alias, replies);
    lines := [CreateStart(alias), if Succeeds(Last(replies)) then CreateEnd(q) else CreateFail(alias)];
    LinesAreInert(s.pods, alias, q, Succeeds(Last(replies)), workers);
  }

  lemma LinesAreInert(pods: Table, alias: string, q: Pod, success: bool, workers: seq<WorkerId>)
    requires Readable(pods) && alias in pods && Core(q) == Core(pods[alias]) && q.worker.Some?
    ensures Inert(CreateStart(alias), pods, workers)
    ensures Inert(if success then CreateEnd(q) else CreateFail(alias), pods, workers)
  {
    hide WellFormed, EffectOf, CreateStart, CreateEnd, CreateFail, Reread;
    ReadableAt(pods, alias);
    assert Core(q).alias == Core(pods[alias]).alias && Core(q).worker == Core(pods[alias]).worker;
    StartLinesDoNothing(alias, workers);
    CreateFailIsRead(alias, workers);
    SameStorable(q, pods[alias]);
    StorableIsReread(q, workers);
    CreateEndIsReadIff(q, workers);
  }

  /** Recovery changes no more of the table than what pods are alive, and every line it appends is inert. */
  lemma {:induction false} RecreateChangesNothing(s: State, order: seq<string>, replies: seq<seq<Reply>>,
                                                  workers: seq<WorkerId>)
    returns (lines: seq<string>)
    requires |order| == |replies| && forall i :: 0 <= i < |order| ==> Bindable(s, order[i]) && Script(replies[i])
    requires Readable(s.pods)
    ensures var t := Recreated(s, order, replies);
            && t.log == s.log + lines && Same(t.pods, s.pods) && Readable(t.pods)
            && AllInert(lines, s.pods, workers)
    decreases |order|
  {
    hide RecreatedOne, Core, Storable, EffectOf, Apply;
    if order == [] {
      lines := [];
      assert s.log + [] == s.log;
    } else {
      var t := RecreatedOne(s, order[0], replies[0]);
      OneKeepsBindings(s, order[0], replies[0]);
      var first := OneIsInert(s, order[0], replies[0], workers);
      SameReadable(t.pods, s.pods);
      var rest := RecreateChangesNothing(t, order[1..], replies[1..], workers);
      lines := first + rest;
      assert s.log + first + rest == s.log + lines;
      InertMore(first, rest, s.pods, t.pods, workers);
      SameTrans(Recreated(t, order[1..], replies[1..]).pods, t.pods, s.pods);
    }
  }

  lemma InertMore(a: seq<string>, b: seq<string>, pods: Table, later: Table, workers: seq<WorkerId>)
    requires AllInert(a, pods, workers) && AllInert(b, later, workers) && Same(later, pods)
    ensures AllInert(a + b, pods, workers)
  {
    hide EffectOf, Apply;
    forall l | l in a + b ensures Inert(l, pods, workers) {
      if l !in a {
        assert Inert(l, later, workers);
      }
    }
  }

  /** The two lines of every pod, and the pods whose create failed. */
  function RecreatedLines(pods: Table, order: seq<string>, replies: seq<seq<Reply>>): seq<string>
    requires |order| == |replies|
    requires forall i :: 0 <= i < |order| ==> order[i] in pods && pods[order[i]].worker.Some? && Script(replies[i])
  {
    if order == [] then []
    else
      assert Script(replies[0]);
      [CreateStart(order[0]),
       if Succeeds(Last(replies[0])) then CreateEnd(pods[order[0]]) else CreateFail(order[0])]
      + RecreatedLines(pods, order[1..], replies[1..])
  }

  function NotCreated(order: seq<string>, replies: seq<seq<Reply>>): seq<string>
    requires |order| == |replies| && forall i :: 0 <= i < |order| ==> Script(replies[i])
  {
    if order == [] then []
    else
      assert Script(replies[0]);
      (if Succeeds(Last(replies[0])) then [] else [order[0]]) + NotCreated(order[1..], replies[1..])
  }

  ghost predicate NothingBound(s: State) { forall w :: BoundTo(s, w) == [] }

  lemma {:induction false} OneVerdict(s: State, alias: string, replies: seq<Reply>)
    requires Bindable(s, alias) && Script(replies) && NothingBound(s) && s.pods[alias].alias == alias
    ensures var t, ok := RecreatedOne(s, alias, replies), Succeeds(Last(replies));
            && t.pods == s.pods[alias := s.pods[alias].(alive := ok)] && NothingBound(t) && t.up == s.up
            && t.down == s.down + (if ok then [] else [alias])
            && t.log == s.log + [CreateStart(alias), if ok then CreateEnd(s.pods[alias]) else CreateFail(alias)]
  {
    hide CreateStart, CreateEnd, CreateFail;
    var begun, info, w := Append(s, CreateStart(alias)), s.pods[alias], s.pods[alias].worker.value;
    var table := s.pods - {alias};
    assert BoundTo(begun, w) == BoundTo(s, w) == [];
    assert s.pods == table[alias := info];
    ForkEnds(begun, table, info, w, replies);
    AnswersKeepBinding(begun, alias, replies);
    var u := ForkAnswers(begun, alias, replies);
    assert MarkDead(table, []) == table;
    forall v ensures BoundTo(RecreatedOne(s, alias, replies), v) == [] {
      assert BoundTo(begun, v) == BoundTo(s, v) == [];
    }
    var last := if Succeeds(Last(replies)) then CreateEnd(info) else CreateFail(alias);
    assert begun.log + [last] == s.log + [CreateStart(alias), last] && s.down + [] == s.down;
    hide ForkAnswers, MarkDead;
  }

  /** What recovery leaves, its workers' lists empty: every pod is alive exactly when its create succeeded, whatever
      it was before, those that failed are noted in the order of the map, and two lines are logged for each. */
  lemma {:induction false} RecreatedVerdict(s: State, order: seq<string>, replies: seq<seq<Reply>>)
    requires |order| == |replies| && forall i :: 0 <= i < |order| ==> Bindable(s, order[i]) && Script(replies[i])
    requires NothingBound(s) && forall i, j :: 0 <= i < j < |order| ==> order[i] != order[j]
    requires forall a :: a in s.pods ==> s.pods[a].alias == a
    ensures var t := Recreated(s, order, replies);
            && t.pods.Keys == s.pods.Keys
            && (forall i :: 0 <= i < |order| ==>
                  t.pods[order[i]] == s.pods[order[i]].(alive := Succeeds(Last(replies[i]))))
            && (forall a :: a in s.pods && a !in order ==> t.pods[a] == s.pods[a])
            && NothingBound(t) && t.up == s.up
            && t.down == s.down + NotCreated(order, replies)
            && t.log == s.log + RecreatedLines(s.pods, order, replies)
    decreases |order|
  {
    hide RecreatedOne, NothingBound, CreateStart, CreateEnd, CreateFail;
    if order != [] {
      var t, ok := RecreatedOne(s, order[0], replies[0]), Succeeds(Last(replies[0]));
      OneKeepsBindings(s, order[0], replies[0]);
      OneVerdict(s, order[0], replies[0]);
      RecreatedVerdict(t, order[1..], replies[1..]);
      forall a | a in order[1..] ensures t.pods[a] == s.pods[a] {}
      SameLines(s.pods, t.pods, order[1..], replies[1..]);
      var u := Recreated(t, order[1..], replies[1..]);
      assert order[0] !in order[1..] && u == Recreated(s, order, replies);
      forall i | 0 <= i < |order| ensures u.pods[order[i]] == s.pods[order[i]].(alive := Succeeds(Last(replies[i]))) {
        if i > 0 {
          assert order[i] == order[1..][i - 1] && replies[i] == replies[1..][i - 1];
        }
      }
      RecreatedSums(s.log, [CreateStart(order[0]), if ok then CreateEnd(s.pods[order[0]]) else CreateFail(order[0])],
                    RecreatedLines(s.pods, order[1..], replies[1..]));
      RecreatedSums(s.down, if ok then [] else [order[0]], NotCreated(order[1..], replies[1..]));
    }
  }

  lemma RecreatedSums(a: seq<string>, b: seq<string>, c: seq<string>)
    ensures a + b + c == a + (b + c)
  {}

  lemma {:induction false} SameLines(t1: Table, t2: Table, order: seq<string>, replies: seq<seq<Reply>>)
    requires |order| == |replies|
    requires forall i :: 0 <= i < |order| ==> order[i] in t1 && t1[order[i]].worker.Some? && Script(replies[i])
    requires forall i :: 0 <= i < |order| ==> order[i] in t2 && t2[order[i]] == t1[order[i]]
    ensures RecreatedLines(t1, order, replies) == RecreatedLines(t2, order, replies)
  {
    hide CreateStart, CreateEnd, CreateFail;
    if order != [] {
      SameLines(t1, t2, order[1..], replies[1..]);
    }
  }

  // ---------------------------------------------------------------- crashing while recovering, and afterwards

  lemma InertYields(log: seq<string>, lines: seq<string>, base: Table, pods: Table, to: Table, workers: seq<WorkerId>)
    requires Yields(log, base, pods, workers) && AllInert(lines, pods, workers) && Same(to, pods)
    ensures Yields(log + lines, base, to, workers)
  {
    hide EffectOf, Apply, Inert, AllInert;
    var t := Replay(log, base, workers).value;
    InertReplay(lines, pods, t, workers);
    hide Replay;
    ReplaySplit(log, lines, base, workers);
    SameBack(to, pods);
    SameTrans(t, pods, to);
  }

  ghost predicate Finds(d: Disk, pods: Table, workers: seq<WorkerId>) {
    Boot(d, workers).Ok? && Same(Boot(d, workers).value, pods)
  }

  /** What a start finds, is what the manager it replaces had: `d` is covered, and `pods` is the table its lines
      give. */
  lemma BootFinds(d: Disk, base: Table, k: nat, pods: Table, workers: seq<WorkerId>)
    requires Covers(d, base, k, workers) && Yields(d.log, base, pods, workers)
    ensures Finds(d, pods, workers)
  {
    hide Replay, Same, Covers;
    BootIsReplay(d, base, k, workers);
    SameTrans(Boot(d, workers).value, Replay(d.log, base, workers).value, pods);
  }

  /** Inert lines behind the log, under the old snapshot or a new one with the same pods, whatever its number. */
  lemma InertFinds(d: Disk, base: Table, k: nat, pods: Table, lines: seq<string>, to: Table, line: int,
                   workers: seq<WorkerId>)
    requires Covers(d, base, k, workers) && Yields(d.log, base, pods, workers)
    requires AllInert(lines, pods, workers) && Same(to, pods)
    ensures Finds(Disk(d.line, d.table, d.log + lines), pods, workers)
    ensures Finds(Disk(line, to, d.log + lines), pods, workers)
  {
    hide EffectOf, Apply, Inert, AllInert, Same, Finds;
    var file := d.log + lines;
    SameRefl(pods);
    InertYields(d.log, lines, base, pods, pods, workers);
    InertYields(d.log, lines, base, pods, to, workers);
    assert file[..k] == d.log[..k] && file[..|file|] == file;
    if d.line <= |d.log| {
      BootFinds(Disk(d.line, d.table, file), base, k, pods, workers);
    } else {
      // The snapshot's table is that of the whole old log, and its line number beyond it.
      assert d.log[..k] == d.log;
      YieldsIffSame(d.log, base, pods, d.table, workers);
      InertYields(d.log, lines, base, pods, d.table, workers);
      BootFinds(Disk(d.line, d.table, file), base, |file|, pods, workers);
    }
    BootFinds(Disk(line, to, file), base, |file|, pods, workers);
  }

  /** The manager starts from `d`, recovers to `t`, and dies during recovery, at any instant: before the new
      snapshot is in place, after it and before the log is removed, or after that.  `m` of the lines it appended
      have reached the file; `line` is whatever number the new snapshot holds.  The next start finds the table this
      one found. */
  lemma {:induction false} RecoveryIsCrashSafe(d: Disk, base: Table, k: nat, order: seq<string>,
                                               replies: seq<seq<Reply>>, workers: seq<WorkerId>, s: State, m: nat,
                                               line: int)
    requires Covers(d, base, k, workers) && Yields(d.log, base, s.pods, workers) && Readable(s.pods)
    requires |order| == |replies| && forall i :: 0 <= i < |order| ==> Bindable(s, order[i]) && Script(replies[i])
    requires s.log == [] && m <= |Recreated(s, order, replies).log|
    ensures var t := Recreated(s, order, replies);
            var file := d.log + t.log[..m];
            && Finds(Disk(d.line, d.table, file), s.pods, workers)
            && Finds(Disk(line, t.pods, file), s.pods, workers)
            && Boot(Disk(line, t.pods, []), workers) == Ok(t.pods) && Same(t.pods, s.pods)
  {
    hide EffectOf, Apply, Inert, Same, Recreated, Readable, Covers, Finds, Yields;
    var lines := RecreateChangesNothing(s, order, replies, workers);
    var t := Recreated(s, order, replies);
    assert t.log == lines;
    InertFinds(d, base, k, s.pods, lines[..m], t.pods, line, workers);
  }

  // ---------------------------------------------------------------- pods that come back on no worker

  /** How many pods the loop creates again before it meets one without a worker, whose null pointer it follows. */
  function Bound(pods: Table, order: seq<string>): (n: nat)
    ensures n <= |order|
    ensures forall i :: 0 <= i < n ==> order[i] in pods && pods[order[i]].worker.Some?
    ensures n < |order| ==> order[n] !in pods || pods[order[n]].worker.None?
  {
    if order == [] || order[0] !in pods || pods[order[0]].worker.None? then 0
    else
      assert forall i :: 0 < i < |order| ==> order[1..][i - 1] == order[i];
      1 + Bound(pods, order[1..])
  }

  lemma BoundIff(pods: Table, order: seq<string>)
    requires Enumerates(order, pods)
    ensures Bound(pods, order) == |order| <==> !exists a :: a in pods && pods[a].worker.None?
  {
    if a :| a in pods && pods[a].worker.None? {
      var i :| 0 <= i < |order| && order[i] == a;
    }
  }

  lemma SameWorker(t1: Table, t2: Table, a: string)
    requires Same(t1, t2) && a in t2
    ensures a in t1 && t1[a].worker == t2[a].worker
  {
    assert Core(t1[a]).worker == t1[a].worker && Core(t2[a]).worker == t2[a].worker;
  }

  /** The whole loop: all pods, or those up to one without a worker, of which only the start is logged. */
  function Restarted(s: State, order: seq<string>, replies: seq<seq<Reply>>): State
    requires |order| == |replies| && forall i :: 0 <= i < |order| ==> Script(replies[i])
  {
    var n := Bound(s.pods, order);
    var t := Recreated(s, order[..n], replies[..n]);
    if n == |order| then t else Append(t, CreateStart(order[n]))
  }

  /** Recovery reaches its end exactly when the snapshot lists the worker of every pod the log committed. */
  lemma EndsIffKnown(found: Table, pods: Table, order: seq<string>, workers: seq<WorkerId>)
    requires Same(found, Seen(pods, workers)) && Sound(pods) && Enumerates(order, found)
    ensures Bound(found, order) == |order| <==> Known(pods, workers)
  {
    hide Bound, Sound, Core, SeenPod;
    BoundIff(found, order);
    assert found.Keys == Seen(pods, workers).Keys == pods.Keys;
    hide Same, Seen, Enumerates;
    forall a | a in pods
      ensures pods[a].worker.Some? && (found[a].worker.Some? <==> pods[a].worker.value in workers)
    {
      FoundWorker(found, pods, a, workers);
    }
  }

  lemma FoundWorker(found: Table, pods: Table, a: string, workers: seq<WorkerId>)
    requires Same(found, Seen(pods, workers)) && Sound(pods) && a in pods
    ensures a in found && pods[a].worker.Some? && (found[a].worker.Some? <==> pods[a].worker.value in workers)
  {
    SoundAt(pods, a);
    SameWorker(found, Seen(pods, workers), a);
  }

  /** For every run, and a crash after any number of its lines, behind a log that may hold lines of earlier runs: the
      next start, whatever part of that log its snapshot covers, reaches the end of recovery exactly when the snapshot
      lists the worker of every pod committed.  A worker connected since `recover` wrote that snapshot is not listed. */
  lemma {:induction false} StartEndsIff(s: State, ops: seq<Op>, linking: Reading, lines: seq<string>, base: Table,
                                        workers: seq<WorkerId>, p: nat, d: Disk, k: nat, order: seq<string>)
    requires Sound(s.pods) && Legal(s, ops, linking) && Replay(lines, base, workers).Ok?
    requires Recovers(s.log, Replay(lines, base, workers).value, s.pods, workers)
    requires |s.log| <= p <= |Run(s, ops, linking).log|
    requires d.log == lines + Run(s, ops, linking).log[..p] && Covers(d, base, k, workers)
    ensures Boot(d, workers).Ok? && Readable(Boot(d, workers).value)
    ensures Enumerates(order, Boot(d, workers).value) ==>
              (Bound(Boot(d, workers).value, order) == |order| <==>
               Known(CommittedAt(s, ops, linking, p).pods, workers))
  {
    hide Run, Legal, CommittedAt, Replay, Same, Seen, Known, Sound, Enumerates, Bound, Readable, Covers, Boot, Yields;
    CrashBehind(s, ops, linking, lines, base, workers, p);
    var committed := CommittedAt(s, ops, linking, p).pods;
    BootFinds(d, base, k, Seen(committed, workers), workers);
    var found := Boot(d, workers).value;
    SeenReadable(committed, workers);
    SameReadable(found, Seen(committed, workers));
    if Enumerates(order, found) {
      EndsIffKnown(found, committed, order, workers);
    }
  }

  lemma RestartedIsInert(s: State, order: seq<string>, replies: seq<seq<Reply>>, workers: seq<WorkerId>)
    returns (lines: seq<string>)
    requires |order| == |replies| && forall i :: 0 <= i < |order| ==> Script(replies[i])
    requires Readable(s.pods) && forall a :: a in order ==> a in s.pods
    ensures var t := Restarted(s, order, replies);
            t.log == s.log + lines && Same(t.pods, s.pods) && AllInert(lines, s.pods, workers)
  {
    hide EffectOf, Same, Readable, CreateStart;
    var n := Bound(s.pods, order);
    lines := RecreateChangesNothing(s, order[..n], replies[..n], workers);
    if n < |order| {
      var last := [CreateStart(order[n])];
      ReadableAt(s.pods, order[n]);
      StartLinesDoNothing(order[n], workers);
      assert s.log + lines + last == s.log + (lines + last);
      lines := lines + last;
    }
  }

  /** Once a start has met a pod without a worker, so does every other: it leaves files in which the next start,
      which walks the map in any order, finds the same pods. */
  lemma {:induction false} NoStartEndsAgain(d: Disk, base: Table, k: nat, order: seq<string>, replies: seq<seq<Reply>>,
                                            workers: seq<WorkerId>, s: State, m: nat, next: seq<string>)
    requires Covers(d, base, k, workers) && Yields(d.log, base, s.pods, workers) && Readable(s.pods)
    requires |order| == |replies| && forall i :: 0 <= i < |order| ==> Script(replies[i])
    requires Enumerates(order, s.pods) && Bound(s.pods, order) < |order|
    requires s.log == [] && m <= |Restarted(s, order, replies).log|
    ensures var later := Disk(d.line, d.table, d.log + Restarted(s, order, replies).log[..m]);
            && Finds(later, s.pods, workers)
            && (Enumerates(next, Boot(later, workers).value) ==> Bound(Boot(later, workers).value, next) < |next|)
  {
    hide EffectOf, Apply, Inert, Core, Restarted, Readable, Covers, Yields, Bound, Boot;
    var lines := RestartedIsInert(s, order, replies, workers);
    assert Restarted(s, order, replies).log == lines;
    InertFinds(d, base, k, s.pods, lines[..m], s.pods, 0, workers);
    var later := Disk(d.line, d.table, d.log + lines[..m]);
    var found := Boot(later, workers).value;
    if Enumerates(next, found) {
      UnboundAnyOrder(s.pods, order, found, next);
    }
  }

  lemma UnboundAnyOrder(pods: Table, order: seq<string>, found: Table, next: seq<string>)
    requires Enumerates(order, pods) && Bound(pods, order) < |order|
    requires Same(found, pods) && Enumerates(next, found)
    ensures Bound(found, next) < |next|
  {
    var a := order[Bound(pods, order)];
    assert a in pods && pods[a].worker.None? && Core(found[a]).worker == Core(pods[a]).worker;
    var i :| 0 <= i < |next| && next[i] == a;
  }

  // ---------------------------------------------------------------- were the log kept

  /** Were the log kept, as the comments intend, the manager could die at any later instant too: whatever it has
      done since, and however far the log got (`p` lines of this run), the next start finds the pods committed by
      then, although the snapshot's line number counts only this run's lines; those on workers the snapshot does
      not list on none. */
  lemma {:induction false} KeptLogRecovers(log: seq<string>, base: Table, found: Table, t: State, line: int,
                                           ops: seq<Op>, linking: Reading, workers: seq<WorkerId>, p: nat)
    requires Yields(log, base, found, workers) && AllInert(t.log, found, workers) && Same(t.pods, found)
    requires Sound(t.pods) && Known(t.pods, workers)
    requires Legal(t, ops, linking) && line <= |log| + |t.log|
    requires |t.log| <= p <= |Run(t, ops, linking).log|
    ensures var d := Disk(line, t.pods, log + Run(t, ops, linking).log[..p]);
            var committed := CommittedAt(t, ops, linking, p).pods;
            && Finds(d, Seen(committed, workers), workers)
            && (Finds(d, committed, workers) <==> Known(committed, workers))
  {
    hide EffectOf, Apply, Inert, AllInert, Same, Sound, Legal, Run, CommittedAt, Replay, Known, Seen, Boot;
    InertYields(log, t.log, base, found, t.pods, workers);
    // The run's log lies behind the old one.
    assert Recovers(t.log, Replay(log, base, workers).value, t.pods, workers) by {
      YieldsBehind(log, t.log, base, t.pods, workers);
      WholeIsSeen(t.log, Replay(log, base, workers).value, t.pods, workers);
    }
    CrashBehind(t, ops, linking, log, base, workers, p);
    LogGrows(t, ops, linking);
    var all, committed := Run(t, ops, linking).log, CommittedAt(t, ops, linking, p).pods;
    var d := Disk(line, t.pods, log + all[..p]);
    assert d.log[..|log| + |t.log|] == log + t.log;
    BootFinds(d, base, |log| + |t.log|, Seen(committed, workers), workers);
    FindsIffKnown(d, committed, workers);
  }

  lemma WholeIsSeen(lines: seq<string>, base: Table, pods: Table, workers: seq<WorkerId>)
    requires Yields(lines, base, pods, workers) && Sound(pods) && Known(pods, workers)
    ensures Recovers(lines, base, pods, workers)
  {
    SeenWholeIff(pods, workers);
    hide *;
    SameBack(Seen(pods, workers), pods);
    YieldsTrans(lines, base, pods, Seen(pods, workers), workers);
  }

  lemma YieldsTrans(lines: seq<string>, base: Table, pods: Table, to: Table, workers: seq<WorkerId>)
    requires Yields(lines, base, pods, workers) && Same(pods, to)
    ensures Yields(lines, base, to, workers)
  {
    hide Replay, Core;
  }

  lemma FindsIffKnown(d: Disk, pods: Table, workers: seq<WorkerId>)
    requires Finds(d, Seen(pods, workers), workers) && Sound(pods)
    ensures Finds(d, pods, workers) <==> Known(pods, workers)
  {
    SeenWholeIff(pods, workers);
    hide Boot, Same, Seen, Sound, Known;
    var found := Boot(d, workers).value;
    if Same(found, pods) {
      SameBack(found, Seen(pods, workers));
      SameTrans(Seen(pods, workers), found, pods);
    }
    if Same(Seen(pods, workers), pods) {
      SameTrans(found, Seen(pods, workers), pods);
    }
  }

  // ---------------------------------------------------------------- as written the log is removed

  /** What a call changes in the table, told from its arguments and outcomes alone. */
  predicate Changes(s: State, op: Op)
    requires Callable(s, op)
  {
    match op
    case Select(_, chosen, replies) => chosen.Some? && Succeeds(Last(replies))
    case Create(wd, pod, replies) => wd.Some? && pod.alias !in s.pods && Succeeds(Last(replies))
    case Stop(alias, reply) => alias in s.pods && s.pods[alias].alive && (Succeeds(reply) || IsManagerDown(reply))
    case Check(_, _) => false
  }

  /** The alias a call is about. */
  function Touched(op: Op): Option<string> {
    match op
    case Select(pod, _, _) => Some(pod.alias)
    case Create(_, pod, _) => Some(pod.alias)
    case Stop(alias, _) => Some(alias)
    case Check(_, _) => None
  }

  predicate ChangesAlias(t: State, op: Op, a: string)
    requires Callable(t, op)
  {
    Changes(t, op) && Touched(op) == Some(a)
  }

  /** What recovery would restore of an alias. */
  function CoreAt(pods: Table, a: string): Option<Pod> { if a in pods then Some(Core(pods[a])) else None }

  /** What a call that changes the table leaves of its alias, told from its arguments alone. */
  function Leaves(op: Op): Option<Pod> {
    match op
    case Select(pod, chosen, _) => Some(Core(pod.(worker := chosen)))
    case Create(wd, pod, _) => Some(Core(pod.(worker := wd)))
    case Stop(_, _) => None
    case Check(_, _) => None
  }

  /** A call changes its alias, when it changes anything, and no other. */
  lemma CoreAfter(t: State, op: Op, linking: Reading, a: string)
    requires Sound(t.pods) && Allowed(t, op) && Callable(t, op)
    ensures CoreAt(Perform(t, op, linking).pods, a) ==
            if ChangesAlias(t, op, a) then Leaves(op) else CoreAt(t.pods, a)
  {
    hide Sound, Allowed, Perform, ChangesAlias, Leaves, CoreAt;
    match op
    case Select(pod, chosen, replies) => SelectCore(t, pod, chosen, replies, linking, a);
    case Create(wd, pod, replies) => CreateCore(t, wd, pod, replies, linking, a);
    case Stop(alias, reply) => StopCore(t, alias, reply, linking, a);
    case Check(w, report) => CheckCore(t, w, report, linking, a);
  }

  lemma SameCore(t1: Table, t2: Table, a: string)
    requires Same(t1, t2)
    ensures CoreAt(t1, a) == CoreAt(t2, a)
  {
    hide Core;
  }

  lemma SelectCore(t: State, pod: Pod, chosen: Option<WorkerId>, replies: seq<Reply>, linking: Reading, a: string)
    requires Allowed(t, Select(pod, chosen, replies))
    ensures var op := Select(pod, chosen, replies);
            && Callable(t, op)
            && CoreAt(Perform(t, op, linking).pods, a) ==
               if ChangesAlias(t, op, a) then Leaves(op) else CoreAt(t.pods, a)
  {
    hide Storable;
    assert t.pods - {pod.alias} == t.pods;
    if chosen.Some? {
      assert Core(Target(t, pod, chosen.value)) == Core(pod.(worker := chosen));
      hide Target, Selected, Same, Core;
      var q := SelectOutcome(t, pod, chosen.value, replies);
      SameCore(Selected(t, pod, chosen, replies).pods,
               if Succeeds(Last(replies)) then t.pods[pod.alias := Target(t, pod, chosen.value)]
               else t.pods - {pod.alias}, a);
    }
  }

  lemma CreateCore(t: State, wd: Option<WorkerId>, pod: Pod, replies: seq<Reply>, linking: Reading, a: string)
    requires Callable(t, Create(wd, pod, replies))
    ensures var op := Create(wd, pod, replies);
            CoreAt(Perform(t, op, linking).pods, a) ==
            if ChangesAlias(t, op, a) then Leaves(op) else CoreAt(t.pods, a)
  {
    if wd.Some? && pod.alias !in t.pods {
      var begun := CreatePodBegin(t, pod, wd.value);
      assert begun.pods == t.pods[pod.alias := begun.pods[pod.alias]] && begun.pods - {pod.alias} == t.pods;
      assert Core(begun.pods[pod.alias]) == Core(pod.(worker := wd));
      hide CreatePodBegin, CreatePodAnswers, Core, Same;
      var q := CreatePodCommits(begun, pod.alias, replies, linking);
      SameCore(CreatePodAnswers(begun, pod.alias, replies, linking).pods,
               if Succeeds(Last(replies)) then begun.pods else t.pods, a);
    }
  }

  lemma StopCore(t: State, alias: string, reply: Reply, linking: Reading, a: string)
    requires Callable(t, Stop(alias, reply))
    ensures var op := Stop(alias, reply);
            CoreAt(Perform(t, op, linking).pods, a) ==
            if ChangesAlias(t, op, a) then Leaves(op) else CoreAt(t.pods, a)
  {
    if alias in t.pods && t.pods[alias].alive {
      StopOutcome(t, alias, reply);
      hide StopAnswer, StopBegin, Core, Same;
      SameCore(StopAnswer(StopBegin(t, alias), alias, reply).pods,
               if IsManagerDown(reply) || Succeeds(reply) then t.pods - {alias} else t.pods, a);
    } else if alias in t.pods {
      assert StopBegin(t, alias).pods == t.pods;
    }
  }

  lemma CheckCore(t: State, w: WorkerId, report: Report, linking: Reading, a: string)
    requires Sound(t.pods)
    ensures var op := Check(w, report);
            CoreAt(Perform(t, op, linking).pods, a) ==
            if ChangesAlias(t, op, a) then Leaves(op) else CoreAt(t.pods, a)
  {
    hide CheckAnswer, Core, Sound, Same;
    CheckAppends(t, w, report, []);
    if w in t.up {
      SameCore(t.pods, CheckAnswer(t, w, report).pods, a);
    }
  }

  /** What the last call of a run that changed an alias left of it; nothing when none did. */
  ghost function LastLeft(t: State, ops: seq<Op>, linking: Reading, a: string): Option<Option<Pod>>
    requires Legal(t, ops, linking)
    decreases |ops|
  {
    if ops == [] then None
    else
      var later := LastLeft(Perform(t, ops[0], linking), ops[1..], linking, a);
      if later.Some? then later else if ChangesAlias(t, ops[0], a) then Some(Leaves(ops[0])) else None
  }

  /** After a run an alias is as the last call that changed it left it. */
  lemma {:induction false} CoreAfterRun(t: State, ops: seq<Op>, linking: Reading, a: string)
    requires Sound(t.pods) && Legal(t, ops, linking)
    ensures var left := LastLeft(t, ops, linking, a);
            CoreAt(Run(t, ops, linking).pods, a) == if left.Some? then left.value else CoreAt(t.pods, a)
    decreases |ops|
  {
    hide Sound, Perform, Allowed, Callable, ChangesAlias, Appended, Leaves, CoreAt;
    if ops != [] {
      var lines := CallAppends(t, ops[0], linking, []);
      CoreAfter(t, ops[0], linking, a);
      CoreAfterRun(Perform(t, ops[0], linking), ops[1..], linking, a);
    }
  }

  lemma SameIffCores(t1: Table, t2: Table)
    ensures Same(t1, t2) <==> forall a :: CoreAt(t1, a) == CoreAt(t2, a)
  {
    hide Core;
    if forall a :: CoreAt(t1, a) == CoreAt(t2, a) {
      forall a ensures a in t1 <==> a in t2 {
        assert CoreAt(t1, a) == CoreAt(t2, a);
      }
      forall a | a in t1 ensures Core(t1[a]) == Core(t2[a]) {
        assert CoreAt(t1, a) == CoreAt(t2, a);
      }
    }
  }

  /** As written, `recover` removes the log while the logger goes on with the file it has open, and a log the logger
      had to create takes no line: the next start finds the snapshot and nothing else.  After any run that is right
      exactly when every alias that was changed is back: last stopped, and not in the snapshot, or last created as
      the snapshot has it. */
  lemma {:induction false} RemovedLogForgetsIff(t: State, line: int, ops: seq<Op>, linking: Reading,
                                                workers: seq<WorkerId>)
    requires Sound(t.pods) && Legal(t, ops, linking)
    ensures Finds(Disk(line, t.pods, []), Run(t, ops, linking).pods, workers) <==>
            forall a :: LastLeft(t, ops, linking, a).Some? ==>
              LastLeft(t, ops, linking, a).value == CoreAt(t.pods, a)
  {
    assert Boot(Disk(line, t.pods, []), workers) == Ok(t.pods);
    hide Boot, LastLeft, Sound, Legal, Run, CoreAt, Same;
    var after := Run(t, ops, linking).pods;
    SameIffCores(t.pods, after);
    forall a
      ensures CoreAt(t.pods, a) == CoreAt(after, a) <==>
              (LastLeft(t, ops, linking, a).Some? ==> LastLeft(t, ops, linking, a).value == CoreAt(t.pods, a))
    {
      CoreAfterRun(t, ops, linking, a);
    }
  }

  // ---------------------------------------------------------------- one start after another

  /** What the snapshot file, if there is one, loads. */
  function LoadedFrom(snapshot: Option<string>): Result<Loaded, Exception> {
    match snapshot
    case None => Ok(Loaded(0, [], map[]))
    case Some(text) => Load(text)
  }

  /** The table and line number recovery goes on with: snapshot, then log. */
  function BootFrom(snapshot: Option<string>, lines: seq<string>): Result<Loaded, Exception> {
    match LoadedFrom(snapshot)
    case Err(e) => Err(e)
    case Ok(l) =>
      match Boot(Disk(l.curLine, l.pods, lines), Ids(l.peers))
      case Err(e) => Err(e)
      case Ok(table) => Ok(l.(pods := table))
  }

  /** The workers as they are after reconnecting. */
  function Reached(peers: seq<Peer>, up: set<WorkerId>): (r: seq<Peer>)
    ensures |r| == |peers|
  {
    if peers == [] then [] else [peers[0].(alive := peers[0].id in up)] + Reached(peers[1..], up)
  }

  lemma {:induction false} ReachedAre(peers: seq<Peer>, up: set<WorkerId>)
    ensures Ids(Reached(peers, up)) == Ids(peers)
    ensures forall i :: 0 <= i < |peers| ==>
              Reached(peers, up)[i].id == peers[i].id && (Reached(peers, up)[i].alive <==> peers[i].id in up)
  {
    if peers != [] {
      ReachedAre(peers[1..], up);
    }
  }

  function SnapshotText(curLine: int, peers: seq<Peer>, rpcTimes: seq<int>, pods: seq<Pod>): string
    requires |peers| == |rpcTimes| && forall i :: 0 <= i < |pods| ==> pods[i].worker.Some?
  {
    Streams.Terminate(Lines(curLine, peers, rpcTimes, pods), '\n')
  }

  lemma {:induction false} ListedAreBound(s: State, order: seq<string>)
    requires forall i :: 0 <= i < |order| ==> Bindable(s, order[i])
    ensures forall a :: a in order ==> a in s.pods
    ensures forall i :: 0 <= i < |Listed(order, s.pods)| ==> Listed(order, s.pods)[i].worker.Some?
  {
    if order != [] {
      ListedAreBound(s, order[1..]);
    }
  }

  lemma {:induction false} RecreatedKeepsBindings(s: State, order: seq<string>, replies: seq<seq<Reply>>)
    requires |order| == |replies| && forall i :: 0 <= i < |order| ==> Bindable(s, order[i]) && Script(replies[i])
    ensures forall a :: Bindable(s, a) ==> Bindable(Recreated(s, order, replies), a)
    decreases |order|
  {
    if order != [] {
      hide RecreatedOne;
      OneKeepsBindings(s, order[0], replies[0]);
      RecreatedKeepsBindings(RecreatedOne(s, order[0], replies[0]), order[1..], replies[1..]);
    }
  }

  /** What a start meets: the log's lines, the workers reconnection reaches, the order the map is walked in, the
      answers to each create, and the time of each worker's last RPC. */
  datatype Start = Start(lines: seq<string>, up: set<WorkerId>, order: seq<string>, replies: seq<seq<Reply>>,
                         rpcTimes: seq<int>)

  ghost predicate Fits(snapshot: Option<string>, start: Start) {
    && |start.order| == |start.replies| && (forall i :: 0 <= i < |start.order| ==> Script(start.replies[i]))
    && var b := BootFrom(snapshot, start.lines);
    && (b.Ok? ==> |start.rpcTimes| == |b.value.peers| && Enumerates(start.order, b.value.pods))
  }

  /** The new snapshot, when every pod has its worker. */
  ghost function NewText(b: Loaded, start: Start): string
    requires |start.order| == |start.replies| && forall i :: 0 <= i < |start.order| ==> Script(start.replies[i])
    requires |start.rpcTimes| == |b.peers| && Bound(b.pods, start.order) == |start.order|
  {
    var s := State(b.pods, map[], start.up, [], []);
    RecreatedKeepsBindings(s, start.order, start.replies);
    var t := Recreated(s, start.order, start.replies);
    ListedAreBound(t, start.order);
    SnapshotText(if start.order == [] then b.curLine else |t.log|, Reached(b.peers, start.up), start.rpcTimes,
                 Listed(start.order, t.pods))
  }

  /** The snapshot file after a start: the new one, or the one it found when it did not reach its end. */
  ghost function SnapshotAfter(snapshot: Option<string>, start: Start): Option<string>
    requires Fits(snapshot, start)
  {
    match BootFrom(snapshot, start.lines)
    case Err(_) => snapshot
    case Ok(b) => if Bound(b.pods, start.order) < |start.order| then snapshot else Some(NewText(b, start))
  }

  /** What a start that reaches its end writes is read back by the next one: the number of lines logged, the same
      workers, each alive exactly when it was reached, and every pod, alive exactly when its create succeeded. */
  lemma {:induction false} NewTextLoads(b: Loaded, start: Start)
    requires |start.order| == |start.replies| && forall i :: 0 <= i < |start.order| ==> Script(start.replies[i])
    requires |start.rpcTimes| == |b.peers| && Enumerates(start.order, b.pods)
    requires Bound(b.pods, start.order) == |start.order|
    requires forall i :: 0 <= i < |b.peers| ==> Printable(b.peers[i])
    requires forall a :: a in b.pods ==> b.pods[a].alias == a && Holdable(b.pods[a], Ids(b.peers))
    requires Streams.INT_MIN <= b.curLine <= Streams.INT_MAX && 2 * |start.order| <= Streams.INT_MAX
    ensures var loaded := Load(NewText(b, start));
            && loaded.Ok? && loaded.value.pods.Keys == b.pods.Keys
            && loaded.value.curLine == (if start.order == [] then b.curLine else 2 * |start.order|)
            && loaded.value.peers == Reached(b.peers, start.up)
            && forall i :: 0 <= i < |start.order| ==>
                 var a, ok := start.order[i], Succeeds(Last(start.replies[i]));
                 loaded.value.pods[a] == b.pods[a].(alive := ok, docker := b.pods[a].exe)
  {
    assert Streams.INT_MIN <= 0;
    hide *;
    var s, peers := State(b.pods, map[], start.up, [], []), Reached(b.peers, start.up);
    NoneBound(s);
    ReachedPrint(b.peers, start.up);
    var t := NewTextIs(b, start);
    RecreatedHolds(s, start.order, start.replies, Ids(b.peers));
    SnapshotRoundTrip(if start.order == [] then b.curLine else |t.log|, peers, start.rpcTimes, start.order, t.pods);
    RestoredAre(t.pods);
  }

  lemma NoneBound(s: State)
    requires s.bound == map[]
    ensures NothingBound(s)
  {}

  lemma ReachedPrint(peers: seq<Peer>, up: set<WorkerId>)
    requires forall i :: 0 <= i < |peers| ==> Printable(peers[i])
    ensures Ids(Reached(peers, up)) == Ids(peers)
    ensures forall i :: 0 <= i < |Reached(peers, up)| ==> Printable(Reached(peers, up)[i])
  {
    ReachedAre(peers, up);
  }

  lemma NewTextIs(b: Loaded, start: Start) returns (t: State)
    requires |start.order| == |start.replies| && forall i :: 0 <= i < |start.order| ==> Script(start.replies[i])
    requires |start.rpcTimes| == |b.peers| && Bound(b.pods, start.order) == |start.order|
    ensures var s := State(b.pods, map[], start.up, [], []);
            && (forall i :: 0 <= i < |start.order| ==> Bindable(s, start.order[i]))
            && t == Recreated(s, start.order, start.replies)
            && (forall a :: a in start.order ==> a in t.pods)
            && (forall i :: 0 <= i < |Listed(start.order, t.pods)| ==> Listed(start.order, t.pods)[i].worker.Some?)
            && NewText(b, start) ==
               Streams.Terminate(Lines(if start.order == [] then b.curLine else |t.log|, Reached(b.peers, start.up),
                                       start.rpcTimes, Listed(start.order, t.pods)), '\n')
  {
    var s := State(b.pods, map[], start.up, [], []);
    t := Recreated(s, start.order, start.replies);
    hide Recreated, Script, Lines, Streams.Terminate, Bound, Listed, Reached;
    RecreatedKeepsBindings(s, start.order, start.replies);
    ListedAreBound(t, start.order);
  }

  lemma RestoredAre(table: Table)
    ensures Restored(table).Keys == table.Keys
    ensures forall a :: a in table ==> Restored(table)[a] == table[a].(docker := table[a].exe)
  {}

  lemma {:induction false} RecreatedHolds(s: State, order: seq<string>, replies: seq<seq<Reply>>,
                                          workers: seq<WorkerId>)
    requires |order| == |replies| && forall i :: 0 <= i < |order| ==> Bindable(s, order[i]) && Script(replies[i])
    requires NothingBound(s) && Enumerates(order, s.pods) && s.log == []
    requires forall a :: a in s.pods ==> s.pods[a].alias == a && Holdable(s.pods[a], workers)
    ensures var t := Recreated(s, order, replies);
            && Enumerates(order, t.pods) && |t.log| == 2 * |order| && t.pods.Keys == s.pods.Keys
            && (forall a :: a in t.pods ==> t.pods[a].alias == a && Holdable(t.pods[a], workers))
            && forall i :: 0 <= i < |order| ==>
                 t.pods[order[i]] == s.pods[order[i]].(alive := Succeeds(Last(replies[i])))
  {
    assert forall i, j :: 0 <= i < j < |order| ==> order[i] != order[j];
    assert forall i :: 0 <= i < |order| ==> replies[i] != [] by {
      forall i | 0 <= i < |order| ensures replies[i] != [] {
        assert Script(replies[i]);
      }
    }
    hide *;
    RecreatedVerdict(s, order, replies);
    LinesCount(s.pods, order, replies);
    HeldAfter(s.pods, Recreated(s, order, replies).pods, order, replies, workers);
  }

  lemma {:induction false} HeldAfter(t1: Table, t2: Table, order: seq<string>, replies: seq<seq<Reply>>,
                                     workers: seq<WorkerId>)
    requires |order| == |replies| && Enumerates(order, t1) && t2.Keys == t1.Keys
    requires forall i :: 0 <= i < |order| ==> replies[i] != []
    requires forall i :: 0 <= i < |order| ==>
               order[i] in t1 && t2[order[i]] == t1[order[i]].(alive := Succeeds(Last(replies[i])))
    requires forall a :: a in t1 ==> t1[a].alias == a && Holdable(t1[a], workers)
    ensures Enumerates(order, t2) && forall a :: a in t2 ==> t2[a].alias == a && Holdable(t2[a], workers)
  {
    hide Holdable, Succeeds;
    forall a | a in t2 ensures t2[a].alias == a && Holdable(t2[a], workers) {
      var i :| 0 <= i < |order| && order[i] == a;
      HoldableDead(t1[a], Succeeds(Last(replies[i])), workers);
    }
  }

  lemma HoldableDead(pod: Pod, ok: bool, workers: seq<WorkerId>)
    requires Holdable(pod, workers)
    ensures Holdable(pod.(alive := ok), workers)
  {}

  lemma {:induction false} LinesCount(pods: Table, order: seq<string>, replies: seq<seq<Reply>>)
    requires |order| == |replies|
    requires forall i :: 0 <= i < |order| ==> order[i] in pods && pods[order[i]].worker.Some? && Script(replies[i])
    ensures |RecreatedLines(pods, order, replies)| == 2 * |order|
  {
    hide CreateStart, CreateEnd, CreateFail;
    if order != [] {
      LinesCount(pods, order[1..], replies[1..]);
    }
  }

  const NoSnapshot := Loaded(0, [], map[])

  ghost predicate AllUnbound(pods: Table) { forall a :: a in pods ==> pods[a].worker.None? }

  lemma InsertedUnbound(line: string)
    ensures EffectOf(line, []).Insert? ==> EffectOf(line, []).pod.worker.None?
  {
    hide Decode, Streams.ReadWord, LineAddress;
    var (word, st) := Streams.ReadWord(Streams.Stream(line, true), "");
    var text := RestOfLine(word, st);
    if Decode(text, EMPTY, []).Ok? {
      DecodeBindsFirst(text, []);
    }
  }

  lemma {:induction false} ReplayUnbound(lines: seq<string>, table: Table)
    requires AllUnbound(table) && Replay(lines, table, []).Ok?
    ensures AllUnbound(Replay(lines, table, []).value)
    decreases |lines|
  {
    hide EffectOf;
    if lines != [] {
      InsertedUnbound(lines[0]);
      ReplayUnbound(lines[1..], Apply(EffectOf(lines[0], []), table));
    }
  }

  /** A start whose snapshot lists no worker reaches its end only with an empty table, and writes such a snapshot. */
  lemma EndsEmpty(snapshot: Option<string>, start: Start)
    requires LoadedFrom(snapshot) == Ok(NoSnapshot) && Fits(snapshot, start)
    ensures var b := BootFrom(snapshot, start.lines);
            b.Ok? && Bound(b.value.pods, start.order) == |start.order| ==> b.value.pods == map[]
    ensures LoadedFrom(SnapshotAfter(snapshot, start)) == Ok(NoSnapshot)
  {
    hide Load, Replay, SnapshotText, EffectOf;
    var b := BootFrom(snapshot, start.lines);
    if b.Ok? {
      ReplayUnbound(start.lines[First(0, |start.lines|)..], map[]);
      BoundIff(b.value.pods, start.order);
      if Bound(b.value.pods, start.order) == |start.order| {
        assert b.value == NoSnapshot;
        NoOrderIff(start.order, b.value.pods);
        EmptyRoundTrip();
      }
    }
  }

  lemma NoOrderIff(order: seq<string>, table: Table)
    requires Enumerates(order, table)
    ensures order == [] <==> table == map[]
  {
    if order != [] {
      assert order[0] in order;
    }
  }

  lemma EmptyRoundTrip()
    ensures Load(SnapshotText(0, [], [], [])) == Ok(NoSnapshot)
  {
    hide Load, Lines, Streams.Terminate;
    SnapshotRoundTrip(0, [], [], [], map[]);
    assert Restored(map[]) == map[];
  }

  /** The snapshot file after a series of starts, each meeting what it meets. */
  ghost function SnapshotAfterAll(snapshot: Option<string>, starts: seq<Start>): Option<string>
    requires AllFit(snapshot, starts)
    decreases |starts|
  {
    if starts == [] then snapshot else SnapshotAfterAll(SnapshotAfter(snapshot, starts[0]), starts[1..])
  }

  ghost predicate AllFit(snapshot: Option<string>, starts: seq<Start>)
    decreases |starts|
  {
    starts == [] || (Fits(snapshot, starts[0]) && AllFit(SnapshotAfter(snapshot, starts[0]), starts[1..]))
  }

  /** The snapshot is written by `recover` alone, before any worker is connected.  So from a first start without one,
      whatever logs the later starts find: every snapshot lists no worker and no pod, and a start whose log has any
      pod in it follows a null pointer. */
  lemma {:induction false} NothingIsEverRestored(starts: seq<Start>, k: nat)
    requires AllFit(None, starts) && k < |starts|
    ensures AllFit(None, starts[..k]) && AllFit(None, starts[..k + 1])
    ensures var snapshot := SnapshotAfterAll(None, starts[..k]);
            var b := BootFrom(snapshot, starts[k].lines);
            && Fits(snapshot, starts[k])
            && SnapshotAfterAll(None, starts[..k + 1]) == SnapshotAfter(snapshot, starts[k])
            && LoadedFrom(SnapshotAfter(snapshot, starts[k])) == Ok(NoSnapshot)
            && (b.Ok? ==> (Bound(b.value.pods, starts[k].order) == |starts[k].order| <==> b.value.pods == map[]))
  {
    assert LoadedFrom(None) == Ok(NoSnapshot);
    hide Fits, SnapshotAfter, LoadedFrom, BootFrom;
    StillNothing(None, starts, k);
  }

  lemma {:induction false} StillNothing(first: Option<string>, starts: seq<Start>, k: nat)
    requires LoadedFrom(first) == Ok(NoSnapshot) && AllFit(first, starts) && k < |starts|
    ensures AllFit(first, starts[..k]) && AllFit(first, starts[..k + 1])
    ensures var snapshot := SnapshotAfterAll(first, starts[..k]);
            var b := BootFrom(snapshot, starts[k].lines);
            && Fits(snapshot, starts[k])
            && SnapshotAfterAll(first, starts[..k + 1]) == SnapshotAfter(snapshot, starts[k])
            && LoadedFrom(SnapshotAfter(snapshot, starts[k])) == Ok(NoSnapshot)
            && (b.Ok? ==> (Bound(b.value.pods, starts[k].order) == |starts[k].order| <==> b.value.pods == map[]))
    decreases k
  {
    hide Fits, SnapshotAfter, LoadedFrom, BootFrom;
    EndsEmpty(first, starts[0]);
    if k == 0 {
      EmptyEnds(first, starts[0]);
      assert starts[..0] == [] && starts[..1] == [starts[0]] && starts[..1][1..] == [];
    } else {
      var rest := starts[1..];
      StillNothing(SnapshotAfter(first, starts[0]), rest, k - 1);
      assert starts[..k][1..] == rest[..k - 1] && starts[..k + 1][1..] == rest[..k];
      assert rest[k - 1] == starts[k];
    }
  }

  lemma EmptyEnds(snapshot: Option<string>, start: Start)
    requires Fits(snapshot, start)
    ensures var b := BootFrom(snapshot, start.lines);
            b.Ok? && b.value.pods == map[] ==> Bound(b.value.pods, start.order) == |start.order|
  {
    var b := BootFrom(snapshot, start.lines);
    hide BootFrom;
    if b.Ok? {
      NoOrderIff(start.order, b.value.pods);
    }
  }

  // ---------------------------------------------------------------- the method

  /** The loop over the log. */
  method ReplayLog(m: Manager, lines: seq<string>, curLine: int, workers: seq<WorkerId>)
    returns (thrown: Option<Exception>)
    modifies m
    ensures var r := Boot(Disk(curLine, old(m.pods), lines), workers);
            && thrown == (if r.Ok? then None else Some(r.error))
            && (r.Ok? ==> m.AsState() == old(m.AsState()).(pods := r.value))
            && m.curLine == old(m.curLine)
  {
    hide EffectOf, Apply;
    thrown := None;
    var l := 0;
    while l < |lines|
      invariant l <= |lines| && thrown.None?
      invariant m.AsState() == old(m.AsState()).(pods := m.pods) && m.curLine == old(m.curLine)
      invariant Boot(Disk(curLine, old(m.pods), lines), workers) ==
                Replay(lines[if l < First(curLine, |lines|) then First(curLine, |lines|) else l..], m.pods, workers)
    {
      l := l + 1;
      if l <= curLine {
        continue;
      }
      assert lines[l - 1..][1..] == lines[l..];
      thrown := m.ParseLogLine(lines[l - 1], workers);
      if thrown.Some? {
        return;
      }
    }
  }

  method RecreatePod(m: Manager, alias: string, replies: seq<Reply>)
    requires Bindable(m.AsState(), alias) && Script(replies)
    modifies m
    ensures m.AsState() == RecreatedOne(old(m.AsState()), alias, replies) && m.curLine == |m.log|
  {
    AnswersKeepBinding(Append(m.AsState(), CreateStart(alias)), alias, replies);
    var ok := m.CreateService(alias, replies);
    if !ok {
      m.pods := m.pods[alias := m.pods[alias].(alive := false)];
      m.downServices := m.downServices + [alias];
    }
  }

  /** The loop over the table, up to a pod without a worker. */
  method RecreatePods(m: Manager, order: seq<string>, replies: seq<seq<Reply>>) returns (ended: bool)
    requires |order| == |replies| && forall i :: 0 <= i < |order| ==> Script(replies[i])
    requires forall a :: a in order ==> a in m.pods
    modifies m
    ensures m.AsState() == Restarted(old(m.AsState()), order, replies)
    ensures ended <==> Bound(old(m.pods), order) == |order|
    ensures m.curLine == if order == [] then old(m.curLine) else |m.log|
  {
    hide RecreatedOne, Script, Same;
    ghost var start := m.AsState();
    ghost var n := Bound(start.pods, order);
    SameRefl(start.pods);
    var i := 0;
    while i < |order|
      invariant i <= n && Same(m.pods, start.pods)
      invariant forall k :: i <= k < n ==> Bindable(m.AsState(), order[k])
      invariant Recreated(m.AsState(), order[i..n], replies[i..n]) == Recreated(start, order[..n], replies[..n])
      invariant m.curLine == if i == 0 then old(m.curLine) else |m.log|
    {
      SameWorker(m.pods, start.pods, order[i]);
      if m.pods[order[i]].worker.None? {
        m.log := m.log + [CreateStart(order[i])];
        m.curLine := |m.log|;
        return false;
      }
      OneKeepsBindings(m.AsState(), order[i], replies[i]);
      ghost var q := OneIsSame(m.AsState(), order[i], replies[i]);
      SameTrans(RecreatedOne(m.AsState(), order[i], replies[i]).pods, m.pods, start.pods);
      assert order[i..n][1..] == order[i + 1..n] && replies[i..n][1..] == replies[i + 1..n];
      RecreatePod(m, order[i], replies[i]);
      i := i + 1;
    }
    return true;
  }

  /** What ends `recover` before its end: an exception, or the null worker of a pod it follows. */
  datatype Failure = Thrown(e: Exception) | NullWorker

  /** `recover` on a new manager: the files' contents come in, the new snapshot's text goes out.  A pod on a worker
      the snapshot does not list has a null worker, which `createService` follows. */
  method Recover(m: Manager, snapshot: Option<string>, start: Start) returns (r: Result<string, Failure>)
    requires m.AsState() == State(map[], map[], {}, [], []) && Fits(snapshot, start)
    modifies m
    ensures match BootFrom(snapshot, start.lines)
            case Err(e) => r == Err(Thrown(e))
            case Ok(b) =>
              && m.AsState() == Restarted(State(b.pods, map[], start.up, [], []), start.order, start.replies)
              && (r == Err(NullWorker) <==> exists a :: a in b.pods && b.pods[a].worker.None?)
              && (r != Err(NullWorker) ==> r == Ok(NewText(b, start)) && m.curLine == 0)
    ensures SnapshotAfter(snapshot, start) == if r.Ok? then Some(r.value) else snapshot
  {
    var order, replies := start.order, start.replies;
    var loaded := Loaded(0, [], map[]);
    if snapshot.Some? {
      var l := LoadSnapshot(snapshot.value);
      if l.Err? {
        return Err(Thrown(l.error));
      }
      loaded := l.value;
    }
    m.curLine, m.pods := loaded.curLine, loaded.pods;
    var thrown := ReplayLog(m, start.lines, loaded.curLine, Ids(loaded.peers));
    if thrown.Some? {
      return Err(Thrown(thrown.value));
    }
    m.up := start.up;
    ghost var begun := m.AsState();
    BoundIff(begun.pods, order);
    var ended := RecreatePods(m, order, replies);
    if !ended {
      return Err(NullWorker);
    }
    assert order[..|order|] == order && replies[..|order|] == replies;
    RecreatedKeepsBindings(begun, order, replies);
    ListedAreBound(m.AsState(), order);
    var text := Print(m.curLine, Reached(loaded.peers, start.up), start.rpcTimes, Listed(order, m.pods));
    m.curLine := 0;
    return Ok(text);
  }
}
