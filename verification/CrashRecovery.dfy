/** Crash recovery: what replaying any prefix of the write-ahead log gives back, for every run of the manager and
    every outcome of its remote calls. */
module CrashRecovery {
  import opened Wrappers
  import opened PodDescriptor
  import opened ManagerLog
  import opened Manager
  import LogQueue
  import Streams

  /** The calls that touch the table, each with the outcome of its remote calls. */
  datatype Op =
    | Select(pod: Pod, chosen: Option<WorkerId>, replies: seq<Reply>)
    | Create(wd: Option<WorkerId>, pod: Pod, replies: seq<Reply>)
    | Stop(alias: string, reply: Reply)
    | Check(w: WorkerId, report: Report)

  /** What the manager's methods ask of their callers. */
  predicate Callable(s: State, op: Op) {
    match op
    case Select(_, _, replies) => Script(replies)
    case Create(_, _, replies) => Script(replies)
    case Stop(alias, _) => alias in s.pods ==> s.pods[alias].worker.Some?
    case Check(_, _) => true
  }

  /** What the manager's methods do, by their contracts. */
  function Perform(s: State, op: Op, linking: Reading): State
    requires Callable(s, op)
  {
    match op
    case Select(pod, chosen, replies) => Selected(s, pod, chosen, replies)
    case Create(wd, pod, replies) =>
      if wd.None? || pod.alias in s.pods then s
      else CreatePodAnswers(CreatePodBegin(s, pod, wd.value), pod.alias, replies, linking)
    case Stop(alias, reply) =>
      if alias !in s.pods then s
      else if !s.pods[alias].alive then StopBegin(s, alias)
      else StopAnswer(StopBegin(s, alias), alias, reply)
    case Check(w, report) => if w in s.up then CheckAnswer(s, w, report) else s
  }

  /** A pod the log can hold: printable, on a worker, and not called "Fail". */
  predicate Storable(pod: Pod) {
    WellFormed(pod) && pod.alias != "Fail"
  }

  /** Fresh aliases for `selectWorkerToCreatePod`; `createPod` turns down a taken one itself. */
  predicate Allowed(s: State, op: Op) {
    match op
    case Select(pod, chosen, replies) =>
      Script(replies) && pod.alias !in s.pods && (chosen.Some? ==> Storable(pod.(worker := chosen)))
    case Create(wd, pod, replies) => Script(replies) && (wd.Some? ==> Storable(pod.(worker := wd)))
    case Stop(_, _) => true
    case Check(_, _) => true
  }

  ghost predicate Sound(pods: Table) {
    forall a :: a in pods ==> pods[a].alias == a && Storable(pods[a])
  }

  /** What recovery restores of a pod: service, alias, type, port, worker, parameters and restart budget. */
  function Core(pod: Pod): Pod { pod.(alive := false, docker := []) }

  ghost predicate Same(t1: Table, t2: Table) {
    t1.Keys == t2.Keys && forall a :: a in t1 ==> Core(t1[a]) == Core(t2[a])
  }

  /** A pod as a recovery that lists `workers` reads it back: on a worker it does not list it is on none. */
  function SeenPod(pod: Pod, workers: seq<WorkerId>): Pod {
    if pod.worker.None? then pod else pod.(worker := FindWorker(workers, pod.worker.value))
  }

  function Seen(pods: Table, workers: seq<WorkerId>): Table { map a | a in pods :: SeenPod(pods[a], workers) }

  ghost predicate Known(pods: Table, workers: seq<WorkerId>) {
    forall a :: a in pods ==> pods[a].worker.Some? && pods[a].worker.value in workers
  }

  lemma SeenSame(t1: Table, t2: Table, workers: seq<WorkerId>)
    requires Same(t1, t2)
    ensures Same(Seen(t1, workers), Seen(t2, workers))
  {
    forall a | a in t1 ensures Core(SeenPod(t1[a], workers)) == Core(SeenPod(t2[a], workers)) {
      assert Core(t1[a]).worker == Core(t2[a]).worker;
    }
  }

  /** Recovery restores a table as it was exactly when it lists the worker of every pod. */
  lemma SeenWholeIff(pods: Table, workers: seq<WorkerId>)
    requires Sound(pods)
    ensures Same(Seen(pods, workers), pods) <==> Known(pods, workers)
  {
    hide Streams.IsWord;
    assert forall a :: a in pods ==> Storable(pods[a]);
    if Same(Seen(pods, workers), pods) {
      forall a | a in pods ensures pods[a].worker.value in workers {
        assert Core(Seen(pods, workers)[a]) == Core(pods[a]);
      }
    }
  }

  // ---------------------------------------------------------------- what one call commits

  /** The line `line`, replayed on a table up to date with what is seen of `from`, brings it up to date with what is
      seen of `to`. */
  ghost predicate Commits(line: string, from: Table, to: Table, workers: seq<WorkerId>) {
    && !EffectOf(line, workers).Throw?
    && forall t :: Same(t, Seen(from, workers)) ==> Same(Apply(EffectOf(line, workers), t), Seen(to, workers))
  }

  lemma NothingCommits(line: string, from: Table, to: Table, workers: seq<WorkerId>)
    requires EffectOf(line, workers) == Nothing && Same(from, to)
    ensures Commits(line, from, to, workers)
  {
    SeenSame(from, to, workers);
    hide EffectOf, Core, Seen;
  }

  lemma CreateEndCommits(q: Pod, from: Table, to: Table, workers: seq<WorkerId>)
    requires Storable(q) && q.alias !in from
    requires Same(from[q.alias := q], to)
    ensures Commits(CreateEnd(q), from, to, workers)
  {
    StorableIsReread(q, workers);
    var line, put := CreateEnd(q), Reread(q, workers);
    assert EffectOf(line, workers) == Insert(put) by {
      CreateEndIsReadIff(q, workers);
    }
    hide EffectOf, WellFormed, CreateEnd, Reread, Core, SeenPod, Same, Seen;
    forall t | Same(t, Seen(from, workers)) ensures Same(Apply(EffectOf(line, workers), t), Seen(to, workers)) {
      InsertSame(q, put, from, to, t, workers);
    }
  }

  lemma InsertSame(q: Pod, put: Pod, from: Table, to: Table, t: Table, workers: seq<WorkerId>)
    requires q.alias !in from && put.alias == q.alias && Core(put) == Core(SeenPod(q, workers))
    requires Same(from[q.alias := q], to) && Same(t, Seen(from, workers))
    ensures Same(Apply(Insert(put), t), Seen(to, workers))
  {
    hide Core, SeenPod;
    SeenSame(from[q.alias := q], to, workers);
    SeenMore(q, from, workers);
    hide Seen;
    assert Same(t[q.alias := put], Seen(from, workers)[q.alias := SeenPod(q, workers)]);
    SameTrans(t[q.alias := put], Seen(from[q.alias := q], workers), Seen(to, workers));
  }

  lemma SeenMore(q: Pod, from: Table, workers: seq<WorkerId>)
    ensures Seen(from[q.alias := q], workers) == Seen(from, workers)[q.alias := SeenPod(q, workers)]
    ensures Seen(from, workers).Keys == from.Keys
  {}

  lemma StorableIsReread(q: Pod, workers: seq<WorkerId>)
    requires Storable(q)
    ensures q.worker.Some? && Core(Reread(q, workers)) == Core(SeenPod(q, workers))
    ensures Reread(q, workers).alias == q.alias
  {}

  lemma StopEndCommits(alias: string, from: Table, to: Table, workers: seq<WorkerId>)
    requires Streams.IsWord(alias) && Same(from - {alias}, to)
    ensures Commits(StopEnd(alias, true), from, to, workers)
  {
    SeenSame(from - {alias}, to, workers);
    assert Seen(from - {alias}, workers) == Seen(from, workers) - {alias};
    hide EffectOf, StopEnd, Core, Seen;
    StopEndIsRead(alias, true, workers);
  }

  lemma MarkDeadSame(pods: Table, aliases: seq<string>)
    ensures Same(MarkDead(pods, aliases), pods)
  {}

  lemma SameStorable(p: Pod, q: Pod)
    requires Core(p) == Core(q)
    ensures Storable(p) <==> Storable(q)
  {
    hide Streams.IsWord;
  }

  lemma SameSound(t1: Table, t2: Table)
    requires Same(t1, t2) && Sound(t2)
    ensures Sound(t1)
  {
    hide Storable;
    forall a | a in t1 ensures t1[a].alias == a && Storable(t1[a]) {
      SameStorable(t1[a], t2[a]);
    }
  }

  /** The answers to the FORK call of `createService` append one line: success with the pod as it stands, or
      failure; they leave the rest of every pod alone. */
  lemma {:induction false} AnswersCommit(s: State, alias: string, replies: seq<Reply>) returns (q: Pod)
    requires Bindable(s, alias) && Script(replies)
    ensures var t := ForkAnswers(s, alias, replies);
            && Same(t.pods, s.pods) && Bindable(t, alias) && Core(q) == Core(s.pods[alias]) && q.worker.Some?
            && t.log == s.log + [if Succeeds(Last(replies)) then CreateEnd(q) else CreateFail(alias)]
    decreases |replies|
  {
    hide CreateEnd, CreateFail;
    q := s.pods[alias];
    if |replies| > 1 {
      assert IsManagerDown(replies[0]);
      MarkDeadSame(s.pods, BoundTo(s, s.pods[alias].worker.value));
      q := AnswersCommit(ForkAnswer(s, alias, replies[0]), alias, replies[1..]);
    } else {
      assert ForkAnswers(s, alias, replies) == ForkAnswer(s, alias, replies[0]) by { assert replies[1..] == []; }
    }
  }

  /** The same for `createPod`, which keeps its entry alive and erases it on failure. */
  lemma {:induction false} CreatePodCommits(s: State, alias: string, replies: seq<Reply>, linking: Reading)
    returns (q: Pod)
    requires Bindable(s, alias) && Script(replies)
    ensures var t := CreatePodAnswers(s, alias, replies, linking);
            && Same(t.pods, if Succeeds(Last(replies)) then s.pods else s.pods - {alias})
            && Core(q) == Core(s.pods[alias]) && q.worker.Some?
            && t.log == s.log + [if Succeeds(Last(replies)) then CreateEnd(q) else CreateFail(alias)]
    decreases |replies|
  {
    hide CreateEnd, CreateFail;
    var w := s.pods[alias].worker.value;
    q := s.pods[alias].(alive := true);
    if |replies| > 1 {
      assert IsManagerDown(replies[0]);
      MarkDeadSame(s.pods, BoundTo(s, w));
      q := CreatePodCommits(AllDown(s, w), alias, replies[1..], linking);
    } else {
      assert CreatePodAnswers(s, alias, replies, linking) == CreatePodAnswer(s, alias, replies[0], linking);
    }
  }

  lemma ReportSame(s: State, services: seq<(string, int)>)
    ensures Same(ReportDown(s, services).pods, s.pods) && ReportDown(s, services).log == s.log
  {
    ReportKills(s, services);
    hide ReportDown;
  }

  /** `lines` is what a call appended: nothing, or a line that does nothing and the line that commits. */
  ghost predicate Appended(lines: seq<string>, from: Table, to: Table, workers: seq<WorkerId>) {
    || (lines == [] && Same(from, to))
    || (|lines| == 2 && EffectOf(lines[0], workers) == Nothing && Commits(lines[1], from, to, workers))
  }

  lemma SelectAppends(s: State, pod: Pod, chosen: Option<WorkerId>, replies: seq<Reply>, workers: seq<WorkerId>)
    returns (lines: seq<string>)
    requires Sound(s.pods) && Allowed(s, Select(pod, chosen, replies))
    ensures var t := Selected(s, pod, chosen, replies);
            t.log == s.log + lines && Sound(t.pods) && Appended(lines, s.pods, t.pods, workers)
  {
    hide EffectOf, CreateEnd, CreateFail, CreateStart, WellFormed, Streams.IsWord;
    if chosen.None? {
      assert s.pods - {pod.alias} == s.pods;
      lines := [];
    } else {
      lines := ChosenAppends(s, pod, chosen.value, replies, workers);
    }
  }

  lemma ChosenAppends(s: State, pod: Pod, w: WorkerId, replies: seq<Reply>, workers: seq<WorkerId>)
    returns (lines: seq<string>)
    requires Sound(s.pods) && Script(replies) && pod.alias !in s.pods
    requires Storable(pod.(worker := Some(w)))
    ensures var t := Selected(s, pod, Some(w), replies);
            t.log == s.log + lines && Sound(t.pods) && Appended(lines, s.pods, t.pods, workers)
  {
    hide EffectOf, CreateEnd, CreateFail, CreateStart, Storable, Sound, Commits, Core;
    var bound, ok, t := Target(s, pod, w), Succeeds(Last(replies)), Selected(s, pod, Some(w), replies);
    assert bound.alias == pod.alias && s.pods - {pod.alias} == s.pods;
    TargetStorable(s, pod, w);
    hide Selected, Same, Target;
    var q := SelectOutcome(s, pod, w, replies);
    CreateLines(bound, q, s.pods, t.pods, ok, workers);
    lines := [CreateStart(pod.alias), if ok then CreateEnd(q) else CreateFail(pod.alias)];
  }

  /** The entry `selectWorkerToCreatePod` works on, bound to the chosen worker. */
  function Target(s: State, pod: Pod, w: WorkerId): Pod {
    (if pod.alias in s.pods then s.pods[pod.alias] else pod.(alive := false)).(worker := Some(w))
  }

  lemma TargetStorable(s: State, pod: Pod, w: WorkerId)
    requires pod.alias !in s.pods && Storable(pod.(worker := Some(w)))
    ensures Storable(Target(s, pod, w))
  {
    SameStorable(Target(s, pod, w), pod.(worker := Some(w)));
  }

  lemma SelectOutcome(s: State, pod: Pod, w: WorkerId, replies: seq<Reply>) returns (q: Pod)
    requires Script(replies)
    ensures var t, a, ok := Selected(s, pod, Some(w), replies), pod.alias, Succeeds(Last(replies));
            && Core(q) == Core(Target(s, pod, w)) && q.worker.Some?
            && Same(t.pods, if ok then s.pods[a := Target(s, pod, w)] else s.pods - {a})
            && t.log == s.log + [CreateStart(a), if ok then CreateEnd(q) else CreateFail(a)]
  {
    hide CreateEnd, CreateFail, CreateStart;
    var begun := Append(SelectBegin(s, pod, w), CreateStart(pod.alias));
    assert begun.pods == s.pods[pod.alias := Target(s, pod, w)];
    hide SelectBegin, Core, Target;
    q := AnswersCommit(begun, pod.alias, replies);
    var last := if Succeeds(Last(replies)) then CreateEnd(q) else CreateFail(pod.alias);
    assert begun.log + [last] == s.log + [CreateStart(pod.alias), last];
  }

  lemma SameSwap(pod: Pod, q: Pod, from: Table, to: Table)
    requires Core(q) == Core(pod) && Same(to, from[pod.alias := pod])
    ensures q.alias == pod.alias && Same(from[q.alias := q], to)
  {}

  lemma SoundMore(pod: Pod, from: Table)
    requires Storable(pod) && Sound(from)
    ensures Sound(from[pod.alias := pod])
  {
    hide Storable;
  }

  /** What the two lines of a create do, whichever call wrote them. */
  lemma CreateLines(pod: Pod, q: Pod, from: Table, to: Table, success: bool, workers: seq<WorkerId>)
    requires Storable(pod) && Core(q) == Core(pod) && q.worker.Some? && pod.alias !in from
    requires Sound(from)
    requires Same(to, if success then from[pod.alias := pod] else from)
    ensures EffectOf(CreateStart(pod.alias), workers) == Nothing
    ensures Commits(if success then CreateEnd(q) else CreateFail(pod.alias), from, to, workers)
    ensures Sound(to)
  {
    assert Streams.IsWord(pod.alias);
    StartLinesDoNothing(pod.alias, workers);
    SameStorable(q, pod);
    hide *;
    if success {
      SameSwap(pod, q, from, to);
      SoundMore(pod, from);
      CreateEndCommits(q, from, to, workers);
      SameSound(to, from[pod.alias := pod]);
    } else {
      CreateFailIsRead(pod.alias, workers);
      SameBack(to, from);
      NothingCommits(CreateFail(pod.alias), from, to, workers);
      SameSound(to, from);
    }
  }

  lemma SameBack(t1: Table, t2: Table)
    requires Same(t1, t2)
    ensures Same(t2, t1)
  {}

  lemma CreateAppends(s: State, pod: Pod, w: WorkerId, replies: seq<Reply>, linking: Reading, workers: seq<WorkerId>)
    returns (lines: seq<string>)
    requires Sound(s.pods) && Script(replies) && pod.alias !in s.pods
    requires Storable(pod.(worker := Some(w)))
    ensures var t := CreatePodAnswers(CreatePodBegin(s, pod, w), pod.alias, replies, linking);
            t.log == s.log + lines && Sound(t.pods) && Appended(lines, s.pods, t.pods, workers)
  {
    hide EffectOf, CreateEnd, CreateFail, CreateStart, WellFormed, Streams.IsWord, Storable, Sound, Commits;
    var info := pod.(alive := true, worker := Some(w));
    var begun := CreatePodBegin(s, pod, w);
    SameStorable(info, pod.(worker := Some(w)));
    var q := CreatePodCommits(begun, pod.alias, replies, linking);
    var ok, t := Succeeds(Last(replies)), CreatePodAnswers(begun, pod.alias, replies, linking);
    var last := if ok then CreateEnd(q) else CreateFail(pod.alias);
    assert begun.pods - {pod.alias} == s.pods;
    CreateLines(info, q, s.pods, t.pods, ok, workers);
    lines := [CreateStart(pod.alias), last];
    assert begun.log + [last] == s.log + lines;
  }

  lemma SoundLess(from: Table, alias: string)
    requires Sound(from)
    ensures Sound(from - {alias})
  {
    hide Storable;
  }

  lemma StopLines(alias: string, from: Table, to: Table, success: bool, workers: seq<WorkerId>)
    requires Streams.IsWord(alias) && Sound(from) && Same(to, if success then from - {alias} else from)
    ensures EffectOf(StopStart(alias), workers) == Nothing
    ensures Commits(StopEnd(alias, success), from, to, workers)
    ensures Sound(to)
  {
    hide *;
    StartLinesDoNothing(alias, workers);
    SameBack(to, if success then from - {alias} else from);
    if success {
      StopEndCommits(alias, from, to, workers);
      SoundLess(from, alias);
      SameSound(to, from - {alias});
    } else {
      StopEndIsRead(alias, false, workers);
      NothingCommits(StopEnd(alias, false), from, to, workers);
      SameSound(to, from);
    }
  }

  /** The answer to SHUTDOWN: the pod is gone, or dead and still there; "Manager Down" counts as gone. */
  lemma StopOutcome(s: State, alias: string, reply: Reply)
    requires alias in s.pods && s.pods[alias].worker.Some? && s.pods[alias].alive
    ensures var t := StopAnswer(StopBegin(s, alias), alias, reply);
            var success := IsManagerDown(reply) || Succeeds(reply);
            && Same(t.pods, if success then s.pods - {alias} else s.pods)
            && t.log == s.log + [StopStart(alias)] + [StopEnd(alias, success)]
  {
    hide StopStart, StopEnd, RemoveFirst, BoundTo;
    var begun, w := StopBegin(s, alias), s.pods[alias].worker.value;
    if IsManagerDown(reply) {
      MarkDeadSame(s.pods, BoundTo(begun, w));
    }
  }

  lemma SoundAt(pods: Table, alias: string)
    requires Sound(pods) && alias in pods
    ensures Streams.IsWord(alias) && pods[alias].worker.Some?
  {
    assert Storable(pods[alias]);
    hide Streams.IsWord;
  }

  lemma StopAppends(s: State, alias: string, reply: Reply, workers: seq<WorkerId>) returns (lines: seq<string>)
    requires Sound(s.pods) && alias in s.pods && s.pods[alias].worker.Some? && s.pods[alias].alive
    ensures var t := StopAnswer(StopBegin(s, alias), alias, reply);
            t.log == s.log + lines && Sound(t.pods) && Appended(lines, s.pods, t.pods, workers)
  {
    hide WellFormed;
    SoundAt(s.pods, alias);
    StopOutcome(s, alias, reply);
    hide StopAnswer, StopBegin, EffectOf, StopStart, StopEnd, Streams.IsWord, Storable, Sound, Commits, Same;
    var success := IsManagerDown(reply) || Succeeds(reply);
    StopLines(alias, s.pods, StopAnswer(StopBegin(s, alias), alias, reply).pods, success, workers);
    lines := [StopStart(alias), StopEnd(alias, success)];
    assert s.log + [StopStart(alias)] + [StopEnd(alias, success)] == s.log + lines;
  }

  lemma CheckAppends(s: State, w: WorkerId, report: Report, workers: seq<WorkerId>)
    requires Sound(s.pods)
    ensures var t := CheckAnswer(s, w, report);
            t.log == s.log && Sound(t.pods) && Same(s.pods, t.pods)
  {
    hide Storable, Core, Sound;
    var t := CheckAnswer(s, w, report);
    MarkDeadSame(s.pods, BoundTo(s, w));
    if report.Exits? {
      ReportSame(s, report.services);
    }
    SameSound(t.pods, s.pods);
    SameBack(t.pods, s.pods);
  }

  /** One call appends nothing that matters, or two lines of which the second commits. */
  lemma CallAppends(s: State, op: Op, linking: Reading, workers: seq<WorkerId>) returns (lines: seq<string>)
    requires Sound(s.pods) && Allowed(s, op)
    ensures Callable(s, op)
    ensures var t := Perform(s, op, linking);
            t.log == s.log + lines && Sound(t.pods) && Appended(lines, s.pods, t.pods, workers)
  {
    hide Selected, CreatePodAnswers, CreatePodBegin, StopAnswer, CheckAnswer, Commits, EffectOf, Core;
    lines := [];
    match op
    case Select(pod, chosen, replies) => lines := SelectAppends(s, pod, chosen, replies, workers);
    case Create(wd, pod, replies) =>
      if wd.Some? && pod.alias !in s.pods {
        lines := CreateAppends(s, pod, wd.value, replies, linking, workers);
      }
    case Stop(alias, reply) =>
      if alias in s.pods && s.pods[alias].alive {
        lines := StopAppends(s, alias, reply, workers);
      }
    case Check(w, report) =>
      if w in s.up {
        CheckAppends(s, w, report, workers);
      }
  }

  // ---------------------------------------------------------------- whole runs

  /** A run of calls, each allowed where it is made. */
  ghost predicate Legal(s: State, ops: seq<Op>, linking: Reading)
    decreases |ops|
  {
    || ops == []
    || (Allowed(s, ops[0]) && Callable(s, ops[0])
           && Legal(Perform(s, ops[0], linking), ops[1..], linking))
  }

  function Run(s: State, ops: seq<Op>, linking: Reading): State
    requires Legal(s, ops, linking)
    decreases |ops|
  {
    if ops == [] then s else Run(Perform(s, ops[0], linking), ops[1..], linking)
  }

  /** Where the run stood when line `p` had been logged and line `p + 1` had not: after the last call whose lines
      are all among the first `p`. */
  ghost function CommittedAt(s: State, ops: seq<Op>, linking: Reading, p: nat): State
    requires Legal(s, ops, linking)
    decreases |ops|
  {
    if ops == [] || |Perform(s, ops[0], linking).log| > p then s
    else CommittedAt(Perform(s, ops[0], linking), ops[1..], linking, p)
  }

  /** What replaying gives is, up to liveness and container parameters, the table `pods`. */
  ghost predicate Yields(lines: seq<string>, base: Table, pods: Table, workers: seq<WorkerId>) {
    Replay(lines, base, workers).Ok? && Same(Replay(lines, base, workers).value, pods)
  }

  /** It gives every pod of `pods`, though on no worker where `workers` does not list the pod's. */
  ghost predicate Recovers(lines: seq<string>, base: Table, pods: Table, workers: seq<WorkerId>) {
    Yields(lines, base, Seen(pods, workers), workers)
  }

  lemma SameRefl(t: Table)
    ensures Same(t, t)
  {}

  lemma SameTrans(t1: Table, t2: Table, t3: Table)
    requires Same(t1, t2) && Same(t2, t3)
    ensures Same(t1, t3)
  {}

  /** Replaying what a call appended brings the table up to date; replaying only a part of it changes nothing. */
  lemma RecoversMore(log: seq<string>, lines: seq<string>, base: Table, from: Table, to: Table, workers: seq<WorkerId>)
    requires Recovers(log, base, from, workers) && Appended(lines, from, to, workers)
    ensures Recovers(log + lines, base, to, workers)
    ensures forall k: nat :: k < |lines| ==> Recovers(log + lines[..k], base, from, workers)
  {
    hide EffectOf, Replay, Same, Seen;
    ReplaySplit(log, lines, base, workers);
    var t := Replay(log, base, workers).value;
    if lines == [] {
      assert log + lines == log;
      SeenSame(from, to, workers);
      SameTrans(t, Seen(from, workers), Seen(to, workers));
    } else {
      assert lines == [lines[0]] + [lines[1]];
      ReplaySplit([lines[0]], [lines[1]], t, workers);
      ReplayOne(lines[0], t, workers);
      ReplayOne(lines[1], t, workers);
      assert Apply(EffectOf(lines[0], workers), t) == t;
      assert log + lines[..0] == log && lines[..1] == [lines[0]];
      ReplaySplit(log, [lines[0]], base, workers);
    }
  }

  lemma {:induction false} LogGrows(s: State, ops: seq<Op>, linking: Reading)
    requires Sound(s.pods) && Legal(s, ops, linking)
    ensures s.log <= Run(s, ops, linking).log
    decreases |ops|
  {
    if ops != [] {
      hide Perform, Sound, Allowed, Appended, Callable;
      var lines := CallAppends(s, ops[0], linking, []);
      LogGrows(Perform(s, ops[0], linking), ops[1..], linking);
    }
  }

  lemma YieldsIffSame(log: seq<string>, base: Table, from: Table, to: Table, workers: seq<WorkerId>)
    requires Yields(log, base, from, workers)
    ensures Yields(log, base, to, workers) <==> Same(to, from)
  {
    hide Replay;
  }

  /** What was recovered is what there was exactly when recovery lists the worker of every pod. */
  lemma WholeIffKnown(log: seq<string>, base: Table, pods: Table, workers: seq<WorkerId>)
    requires Recovers(log, base, pods, workers) && Sound(pods)
    ensures Yields(log, base, pods, workers) <==> Known(pods, workers)
  {
    SeenWholeIff(pods, workers);
    hide Yields, Same, Sound, Known, Seen;
    YieldsIffSame(log, base, Seen(pods, workers), pods, workers);
    if Same(Seen(pods, workers), pods) {
      SameBack(Seen(pods, workers), pods);
    }
    if Same(pods, Seen(pods, workers)) {
      SameBack(pods, Seen(pods, workers));
    }
  }

  /** The crash theorem.  For every run of creates, stops and checks with any outcomes of their remote calls, and
      a crash after any number of log lines: replaying those lines gives exactly the pods committed there, a pod on
      a worker that recovery does not list coming back on none, so everything is as it was exactly when all their
      workers are listed.  A create that had not logged its end, or had logged a failure, leaves no trace. */
  lemma {:induction false} CrashAnywhere(s: State, ops: seq<Op>, linking: Reading, base: Table, workers: seq<WorkerId>,
                                         p: nat)
    requires Sound(s.pods) && Legal(s, ops, linking) && Recovers(s.log, base, s.pods, workers)
    requires |s.log| <= p <= |Run(s, ops, linking).log|
    ensures var lines, committed := Run(s, ops, linking).log[..p], CommittedAt(s, ops, linking, p).pods;
            && Sound(committed) && Recovers(lines, base, committed, workers)
            && (Yields(lines, base, committed, workers) <==> Known(committed, workers))
    decreases |ops|
  {
    hide Perform, Sound, Allowed, Callable, Recovers, Yields, Known, Same, Commits, EffectOf, Storable;
    if ops == [] {
      assert s.log[..p] == s.log;
      WholeIffKnown(s.log, base, s.pods, workers);
    } else {
      var lines := CallAppends(s, ops[0], linking, workers);
      var t := Perform(s, ops[0], linking);
      RecoversMore(s.log, lines, base, s.pods, t.pods, workers);
      LogGrows(t, ops[1..], linking);
      var log := Run(s, ops, linking).log;
      if |t.log| > p {
        assert log[..p] == t.log[..p] == s.log + lines[..p - |s.log|];
        WholeIffKnown(log[..p], base, s.pods, workers);
      } else {
        CrashAnywhere(t, ops[1..], linking, base, workers, p);
      }
    }
  }

  /** From an empty manager and an empty log. */
  lemma CrashFromEmpty(up: set<WorkerId>, ops: seq<Op>, linking: Reading, workers: seq<WorkerId>, p: nat)
    requires Legal(State(map[], map[], up, [], []), ops, linking)
    requires p <= |Run(State(map[], map[], up, [], []), ops, linking).log|
    ensures var s := State(map[], map[], up, [], []);
            var lines, committed := Run(s, ops, linking).log[..p], CommittedAt(s, ops, linking, p).pods;
            && Recovers(lines, map[], committed, workers)
            && (Yields(lines, map[], committed, workers) <==> Known(committed, workers))
  {
    assert Seen(map[], workers) == map[];
    CrashAnywhere(State(map[], map[], up, [], []), ops, linking, map[], workers, p);
  }

  /** Replaying behind lines that were replayed before. */
  lemma YieldsBehind(lines: seq<string>, more: seq<string>, base: Table, pods: Table, workers: seq<WorkerId>)
    requires Replay(lines, base, workers).Ok?
    ensures Yields(lines + more, base, pods, workers) <==>
            Yields(more, Replay(lines, base, workers).value, pods, workers)
  {
    hide Replay, Same;
    ReplaySplit(lines, more, base, workers);
  }

  /** The crash theorem for a manager that was started from a log of `lines` and appends behind them. */
  lemma {:induction false} CrashBehind(s: State, ops: seq<Op>, linking: Reading, lines: seq<string>, base: Table,
                                       workers: seq<WorkerId>, p: nat)
    requires Sound(s.pods) && Legal(s, ops, linking) && Replay(lines, base, workers).Ok?
    requires Recovers(s.log, Replay(lines, base, workers).value, s.pods, workers)
    requires |s.log| <= p <= |Run(s, ops, linking).log|
    ensures var file, committed := lines + Run(s, ops, linking).log[..p], CommittedAt(s, ops, linking, p).pods;
            && Sound(committed) && Recovers(file, base, committed, workers)
            && (Yields(file, base, committed, workers) <==> Known(committed, workers))
  {
    hide Run, Legal, CommittedAt, Replay, Yields, Known, Same, Seen, Sound;
    var at, committed := Replay(lines, base, workers).value, CommittedAt(s, ops, linking, p).pods;
    CrashAnywhere(s, ops, linking, at, workers, p);
    YieldsBehind(lines, Run(s, ops, linking).log[..p], base, committed, workers);
    YieldsBehind(lines, Run(s, ops, linking).log[..p], base, Seen(committed, workers), workers);
  }

  /** With the log queue in between: whatever instant the process dies at, the lines that reached the file recover
      the pods committed by then.  `events` interleaves the appending thread, the flusher and the destructor in any
      way that has appended some first part of the run's lines behind those the log held, which gave `s.pods`.  Of
      a log that was not there nothing reaches the file: it recovers what this start had found. */
  lemma {:induction false} CrashAtAnyInstant(s: State, ops: seq<Op>, linking: Reading, found: Option<seq<string>>,
                                             base: Table, workers: seq<WorkerId>, events: seq<LogQueue.Event>)
    requires Sound(s.pods) && Legal(s, ops, linking)
    requires s.log == [] && Recovers(LogQueue.LinesIn(found), base, s.pods, workers)
    requires LogQueue.Run(LogQueue.Init(found), events).history <= Run(s, ops, linking).log
    ensures var held, file := |LogQueue.LinesIn(found)|, LogQueue.Run(LogQueue.Init(found), events).file;
            && |file| >= held && (found.None? ==> file == [])
            && var committed := CommittedAt(s, ops, linking, |file| - held).pods;
            && Recovers(file, base, committed, workers)
            && (Yields(file, base, committed, workers) <==> Known(committed, workers))
  {
    hide *;
    var lines, queue := LogQueue.LinesIn(found), LogQueue.Run(LogQueue.Init(found), events);
    LogQueue.FileIsAlwaysAPrefix(found, events);
    var p := PrefixBehind(lines, queue.file, queue.history, Run(s, ops, linking).log);
    StartsAt(lines, base, s.pods, workers);
    CrashBehind(s, ops, linking, lines, base, workers, p);
  }

  lemma PrefixBehind(lines: seq<string>, file: seq<string>, history: seq<string>, log: seq<string>) returns (p: nat)
    requires |lines| <= |file| && file[..|lines|] == lines && file[|lines|..] <= history <= log
    ensures p == |file| - |lines| && p <= |log| && file == lines + log[..p]
  {
    p := |file| - |lines|;
    assert file == file[..|lines|] + file[|lines|..] && file[|lines|..] == log[..p];
  }

  lemma StartsAt(lines: seq<string>, base: Table, pods: Table, workers: seq<WorkerId>)
    requires Recovers(lines, base, pods, workers)
    ensures Replay(lines, base, workers).Ok? && Recovers([], Replay(lines, base, workers).value, pods, workers)
  {
    hide Same, Seen;
  }

  // ---------------------------------------------------------------- where the promise fails

  lemma TwoLinesAppended(log: seq<string>, a: string, b: string, base: Table, from: Table, to: Table,
                         workers: seq<WorkerId>)
    requires Recovers(log, base, from, workers) && EffectOf(a, workers) == Nothing && Commits(b, from, to, workers)
    ensures Recovers(log + [a, b], base, to, workers)
  {
    hide EffectOf, Recovers, Commits, Same;
    RecoversMore(log, [a, b], base, from, to, workers);
  }

  lemma KnownMore(pod: Pod, from: Table, to: Table, workers: seq<WorkerId>)
    requires pod.alias !in from && pod.worker.Some? && Same(to, from[pod.alias := pod])
    ensures Known(to, workers) <==> pod.worker.value in workers && Known(from, workers)
  {
    assert forall a :: a in from ==> Core(to[a]).worker == from[a].worker;
    assert Core(to[pod.alias]).worker == pod.worker;
    if Known(to, workers) {
      forall a | a in from ensures from[a].worker.Some? && from[a].worker.value in workers {
        assert a in to;
      }
    }
  }

  lemma MissingIsMissed(a: string, from: Table, to: Table, workers: seq<WorkerId>)
    requires a !in from && a in to
    ensures !Same(to, Seen(from, workers)) && !Same(Seen(to, workers), Seen(from, workers))
  {}

  /** The two lines of a success, and what a recovery makes of them. */
  lemma CreatedRecoversIff(log: seq<string>, pod: Pod, q: Pod, from: Table, to: Table, base: Table,
                           workers: seq<WorkerId>)
    requires Sound(from) && Recovers(log, base, from, workers)
    requires WellFormed(pod) && pod.alias !in from && Core(q) == Core(pod) && q.worker.Some?
    requires Same(to, from[pod.alias := pod])
    ensures var more := log + [CreateStart(pod.alias), CreateEnd(q)];
            && (Recovers(more, base, to, workers) <==> pod.alias != "Fail")
            && (Yields(more, base, to, workers) <==>
                pod.alias != "Fail" && pod.worker.value in workers && Known(from, workers))
  {
    var more := log + [CreateStart(pod.alias), CreateEnd(q)];
    KnownMore(pod, from, to, workers);
    assert pod.alias != "Fail" ==> Storable(pod);
    assert pod.alias in to;
    MissingIsMissed(pod.alias, from, to, workers);
    hide *;
    if pod.alias != "Fail" {
      CreateLines(pod, q, from, to, true, workers);
      TwoLinesAppended(log, CreateStart(pod.alias), CreateEnd(q), base, from, to, workers);
      WholeIffKnown(more, base, to, workers);
    } else {
      FailIsNotRead(pod, q, workers);
      SameRefl(from);
      NothingCommits(CreateEnd(q), from, from, workers);
      TwoLinesAppended(log, CreateStart(pod.alias), CreateEnd(q), base, from, from, workers);
      RecoversIffSame(more, base, from, to, workers);
    }
  }

  lemma RecoversIffSame(log: seq<string>, base: Table, from: Table, to: Table, workers: seq<WorkerId>)
    requires Recovers(log, base, from, workers)
    ensures Yields(log, base, to, workers) <==> Same(to, Seen(from, workers))
    ensures Recovers(log, base, to, workers) <==> Same(Seen(to, workers), Seen(from, workers))
  {
    hide Yields, Same, Seen;
    YieldsIffSame(log, base, Seen(from, workers), to, workers);
    YieldsIffSame(log, base, Seen(from, workers), Seen(to, workers), workers);
  }

  /** A pod the scheduler placed and that was created is read back after a crash exactly when it is not called
      "Fail", and the whole table is as it was exactly when, besides, the snapshot lists its worker and those of the
      others. */
  lemma {:induction false} SelectRecoversIff(s: State, pod: Pod, w: WorkerId, replies: seq<Reply>, base: Table,
                                             workers: seq<WorkerId>)
    requires Sound(s.pods) && Recovers(s.log, base, s.pods, workers)
    requires Script(replies) && Succeeds(Last(replies)) && pod.alias !in s.pods
    requires WellFormed(pod.(worker := Some(w)))
    ensures var t := Selected(s, pod, Some(w), replies);
            && (Recovers(t.log, base, t.pods, workers) <==> pod.alias != "Fail")
            && (Yields(t.log, base, t.pods, workers) <==>
                pod.alias != "Fail" && w in workers && Known(s.pods, workers))
  {
    var bound := pod.(alive := false, worker := Some(w));
    assert Target(s, pod, w) == bound && WellFormed(bound);
    var t := Selected(s, pod, Some(w), replies);
    hide *;
    var q := SelectOutcome(s, pod, w, replies);
    CreatedRecoversIff(s.log, bound, q, s.pods, t.pods, base, workers);
  }

  /** The same for a pod `createPod` created. */
  lemma CreateRecoversIff(s: State, pod: Pod, w: WorkerId, replies: seq<Reply>, linking: Reading, base: Table,
                          workers: seq<WorkerId>)
    requires Sound(s.pods) && Recovers(s.log, base, s.pods, workers)
    requires Script(replies) && Succeeds(Last(replies)) && pod.alias !in s.pods
    requires WellFormed(pod.(worker := Some(w)))
    ensures var t := CreatePodAnswers(CreatePodBegin(s, pod, w), pod.alias, replies, linking);
            && (Recovers(t.log, base, t.pods, workers) <==> pod.alias != "Fail")
            && (Yields(t.log, base, t.pods, workers) <==>
                pod.alias != "Fail" && w in workers && Known(s.pods, workers))
  {
    var begun, bound := CreatePodBegin(s, pod, w), pod.(alive := true, worker := Some(w));
    CreateBegun(s, pod, w);
    hide *;
    var q := CreatePodCommits(begun, pod.alias, replies, linking);
    TwoBehind(s.log, CreateStart(pod.alias), CreateEnd(q));
    CreatedRecoversIff(s.log, bound, q, s.pods, CreatePodAnswers(begun, pod.alias, replies, linking).pods, base,
                       workers);
  }

  lemma TwoBehind(log: seq<string>, a: string, b: string)
    ensures log + [a] + [b] == log + [a, b]
  {}

  lemma CreateBegun(s: State, pod: Pod, w: WorkerId)
    requires WellFormed(pod.(worker := Some(w))) && pod.alias !in s.pods
    ensures var begun, bound := CreatePodBegin(s, pod, w), pod.(alive := true, worker := Some(w));
            && begun.pods == s.pods[pod.alias := bound] && begun.pods - {pod.alias} == s.pods
            && begun.log == s.log + [CreateStart(pod.alias)]
            && Bindable(begun, pod.alias) && WellFormed(bound) && bound.alias == pod.alias
  {
    hide Streams.IsWord, CreateStart;
  }

  lemma FailIsNotRead(pod: Pod, q: Pod, workers: seq<WorkerId>)
    requires WellFormed(pod) && Core(q) == Core(pod) && pod.alias == "Fail"
    ensures EffectOf(CreateStart(pod.alias), workers) == Nothing
    ensures q.worker.Some? && EffectOf(CreateEnd(q), workers) == Nothing
  {
    assert Streams.IsWord(pod.alias);
    assert WellFormed(q) && q.alias == "Fail";
    hide WellFormed, EffectOf, CreateStart, CreateEnd;
    StartLinesDoNothing(pod.alias, workers);
    CreateEndIsReadIff(q, workers);
  }

  /** Creating a taken alias through `selectWorkerToCreatePod` creates the old pod again, and takes it out of the
      table when that fails.  Log and table still agree exactly when it succeeds on the worker the pod was on, every
      pod's worker being listed. */
  lemma {:induction false} ReselectRecoversIff(s: State, pod: Pod, chosen: Option<WorkerId>, replies: seq<Reply>,
                                               base: Table, workers: seq<WorkerId>)
    requires Sound(s.pods) && Recovers(s.log, base, s.pods, workers)
    requires Script(replies) && pod.alias in s.pods
    requires chosen.Some? ==> WellFormed(s.pods[pod.alias].(worker := chosen))
    ensures var t := Selected(s, pod, chosen, replies);
            Yields(t.log, base, t.pods, workers) <==>
            && chosen.Some? && Succeeds(Last(replies)) && s.pods[pod.alias].worker == chosen
            && Known(s.pods, workers)
  {
    var t := Selected(s, pod, chosen, replies);
    if chosen.None? {
      assert t.pods == s.pods - {pod.alias} && t.log == s.log;
      hide *;
      RecoversIffSame(t.log, base, s.pods, t.pods, workers);
      LessIsMissed(s.pods, pod.alias, workers);
    } else {
      hide *;
      ReselectedIff(s, pod, chosen.value, replies, base, workers);
    }
  }

  lemma LessIsMissed(pods: Table, a: string, workers: seq<WorkerId>)
    requires a in pods
    ensures !Same(pods - {a}, Seen(pods, workers))
  {
    assert a in Seen(pods, workers);
  }

  lemma ReselectedIff(s: State, pod: Pod, w: WorkerId, replies: seq<Reply>, base: Table, workers: seq<WorkerId>)
    requires Sound(s.pods) && Recovers(s.log, base, s.pods, workers)
    requires Script(replies) && pod.alias in s.pods
    requires WellFormed(s.pods[pod.alias].(worker := Some(w)))
    ensures var t := Selected(s, pod, Some(w), replies);
            Yields(t.log, base, t.pods, workers) <==>
            Succeeds(Last(replies)) && s.pods[pod.alias].worker == Some(w) && Known(s.pods, workers)
  {
    var a, ok, bound := pod.alias, Succeeds(Last(replies)), s.pods[pod.alias].(worker := Some(w));
    var t := Selected(s, pod, Some(w), replies);
    assert Target(s, pod, w) == bound;
    hide *;
    StorableElsewhere(s.pods, a, w);
    var q := SelectOutcome(s, pod, w, replies);
    ReselectLines(s.pods, bound, q, ok, workers);
    var last := if ok then CreateEnd(q) else CreateFail(a);
    TwoLinesAppended(s.log, CreateStart(a), last, base, s.pods, s.pods, workers);
    DiffersIff(s.pods, t.pods, a, w, ok, workers);
    RecoversIffSame(t.log, base, s.pods, t.pods, workers);
  }

  lemma StorableElsewhere(pods: Table, a: string, w: WorkerId)
    requires Sound(pods) && a in pods && WellFormed(pods[a].(worker := Some(w)))
    ensures pods[a].(worker := Some(w)).alias == a && Storable(pods[a].(worker := Some(w)))
  {
    hide WellFormed;
    assert Storable(pods[a]);
  }

  lemma DiffersIff(pods: Table, to: Table, a: string, w: WorkerId, ok: bool, workers: seq<WorkerId>)
    requires Sound(pods) && a in pods
    requires Same(to, if ok then pods[a := pods[a].(worker := Some(w))] else pods - {a})
    ensures Same(to, Seen(pods, workers)) <==> ok && pods[a].worker == Some(w) && Known(pods, workers)
  {
    if !ok {
      assert a !in to && a in Seen(pods, workers);
    } else if pods[a].worker == Some(w) {
      assert pods[a := pods[a].(worker := Some(w))] == pods;
      hide *;
      SameIffKnown(to, pods, workers);
    } else {
      assert Core(pods[a].(worker := Some(w))).worker == Some(w);
      assert a in to && Core(to[a]).worker == Some(w);
      hide WellFormed;
      assert SeenPod(pods[a], workers).worker != Some(w);
      assert Core(Seen(pods, workers)[a]).worker != Some(w);
    }
  }

  lemma SameIffKnown(to: Table, pods: Table, workers: seq<WorkerId>)
    requires Sound(pods) && Same(to, pods)
    ensures Same(to, Seen(pods, workers)) <==> Known(pods, workers)
  {
    SeenWholeIff(pods, workers);
    hide *;
    SameBack(to, pods);
    if Same(to, Seen(pods, workers)) {
      SameTrans(pods, to, Seen(pods, workers));
      SameBack(pods, Seen(pods, workers));
    }
    if Same(Seen(pods, workers), pods) {
      SameBack(Seen(pods, workers), pods);
      SameTrans(to, pods, Seen(pods, workers));
    }
  }

  /** Creating again a pod the table holds: neither line changes a table with the same aliases. */
  lemma ReselectLines(pods: Table, pod: Pod, q: Pod, success: bool, workers: seq<WorkerId>)
    requires Storable(pod) && Core(q) == Core(pod) && q.worker.Some? && pod.alias in pods
    ensures EffectOf(CreateStart(pod.alias), workers) == Nothing
    ensures Commits(if success then CreateEnd(q) else CreateFail(pod.alias), pods, pods, workers)
  {
    assert Streams.IsWord(pod.alias);
    StartLinesDoNothing(pod.alias, workers);
    CreateFailIsRead(pod.alias, workers);
    SameStorable(q, pod);
    StorableIsReread(q, workers);
    assert Seen(pods, workers).Keys == pods.Keys;
    hide EffectOf, WellFormed, CreateEnd, CreateFail, CreateStart, Reread, Seen, SeenPod;
    CreateEndIsReadIff(q, workers);
  }
}
