/** Process exits at the worker: each is answered by one restart or one report, reports reach their owner once and in
    order, and no pod is started more often than its budget allows. */
module Exits {
  import opened Wrappers
  import opened Worker
  import opened Lease
  import opened Sublists

  // ---------------------------------------------------------------- one exit

  /** What one exit of a listed pod does: a restart with one less to go, or a report for a host process, and in
      any case the pod that exited is off the list. */
  lemma ExitIsAnsweredOnce(s: State, info: ExitInfo, start: Start, now: int)
    requires PidAt(s.pods, info.pid) < |s.pods|
    ensures var i, t := PidAt(s.pods, info.pid), HandleExit(s, info, start, now);
            var pod := s.pods[i];
            var again := pod.restart > 0 && (pod.typ == Docker || start.exe);
            && t.pods == Remove(s.pods, i) +
               (if again then [pod.(pid := start.pid, restart := pod.restart - 1)] else [])
            && t.downPods == s.downPods +
               (if pod.restart <= 0 && pod.typ == Host
                then [Exit(pod.alias, pod.manager, ExitNum(info.status))] else [])
            && |ExitLabels(s, info, start)| == 1
            && (ExitLabels(s, info, start)[0].Restarted? || ExitLabels(s, info, start)[0].Lost? <==> pod.restart > 0)
            && (ExitLabels(s, info, start)[0].Reported? <==> pod.restart <= 0 && pod.typ == Host)
  {
    assert Remove(s.pods, PidAt(s.pods, info.pid)) + [] == Remove(s.pods, PidAt(s.pods, info.pid));
    assert s.downPods + [] == s.downPods;
  }

  /** How a process ended: it returned an exit code, or a signal ended it. */
  datatype Death = Returned(code: int) | Killed(signal: int, core: bool)

  predicate Proper(d: Death) {
    match d
    case Returned(code) => 0 <= code <= 255
    case Killed(signal, _) => 1 <= signal <= 126
  }

  /** The status `wait` gives for it: the code in the second byte, or the signal in the low seven bits and the core
      bit above them. */
  function Status(d: Death): int {
    match d
    case Returned(code) => code * 256
    case Killed(signal, core) => signal + if core then 128 else 0
  }

  /** The number a manager is told for a pod of its that exited and is not started again: the exit code, or -1 for
      any signal.  It is 0 exactly for a process that returned 0. */
  lemma {:induction false} ReportTellsCode(s: State, d: Death, pid: int, start: Start, now: int)
    requires Proper(d)
    requires var i := PidAt(s.pods, pid); i < |s.pods| && s.pods[i].typ == Host && s.pods[i].restart <= 0
    ensures var pod, t := s.pods[PidAt(s.pods, pid)], HandleExit(s, ExitInfo(pid, Status(d)), start, now);
            var told := match d case Returned(code) => code case Killed(_, _) => -1;
            && t.downPods == s.downPods + [Exit(pod.alias, pod.manager, told)]
            && (told == 0 <==> d == Returned(0))
  {
    match d
    case Returned(code) =>
      assert code * 256 % 128 == 0 && code * 256 / 256 == code;
    case Killed(signal, core) =>
      assert (signal + if core then 128 else 0) % 128 == signal;
  }

  /** A process that is only stopped, which has 127 in the low bits of its status, and the status -1 of a pod that is
      taken for dead without having exited, are reported with 0. */
  lemma OtherStatusTellsNothing(s: State, status: int, pid: int, start: Start, now: int)
    requires status == -1 || status % 128 == 127
    requires var i := PidAt(s.pods, pid); i < |s.pods| && s.pods[i].typ == Host && s.pods[i].restart <= 0
    ensures var pod := s.pods[PidAt(s.pods, pid)];
            HandleExit(s, ExitInfo(pid, status), start, now).downPods ==
            s.downPods + [Exit(pod.alias, pod.manager, 0)]
  {}

  /** How many of the exits are of pods on the list. */
  function Known(pods: seq<Pod>, infos: seq<ExitInfo>): nat {
    if infos == [] then 0
    else (if PidAt(pods, infos[0].pid) < |pods| then 1 else 0) + Known(pods, infos[1..])
  }

  predicate Distinct(infos: seq<ExitInfo>) {
    forall i, j :: 0 <= i < j < |infos| ==> infos[i].pid != infos[j].pid
  }

  /** New pids are none of those waiting in the queue. */
  predicate StartsApart(infos: seq<ExitInfo>, starts: seq<Start>) {
    forall i, j :: 0 <= i < |infos| && 0 <= j < |starts| ==> infos[i].pid != starts[j].pid
  }

  lemma {:induction false} ListedAfter(s: State, info: ExitInfo, start: Start, now: int, pid: int)
    requires pid != info.pid && pid != start.pid
    ensures var t := HandleExit(s, info, start, now);
            PidAt(t.pods, pid) < |t.pods| <==> PidAt(s.pods, pid) < |s.pods|
  {
    hide PidAt;
    if PidAt(s.pods, info.pid) < |s.pods| {
      ListedAfterKnown(s, info, start, now, pid);
      hide HandleExit;
    }
  }

  lemma {:induction false} ListedAfterKnown(s: State, info: ExitInfo, start: Start, now: int, pid: int)
    requires PidAt(s.pods, info.pid) < |s.pods| && pid != info.pid && pid != start.pid
    ensures var t := HandleExit(s, info, start, now);
            PidAt(t.pods, pid) < |t.pods| <==> PidAt(s.pods, pid) < |s.pods|
  {
    hide *;
    var i, pod := PidAt(s.pods, info.pid), s.pods[PidAt(s.pods, info.pid)];
    ExitIsAnsweredOnce(s, info, start, now);
    if pod.restart > 0 && (pod.typ == Docker || start.exe) {
      ListedElsewhere(s.pods, i, [pod.(pid := start.pid, restart := pod.restart - 1)], pid);
    } else {
      ListedElsewhere(s.pods, i, [], pid);
    }
  }

  lemma {:induction false} ListedElsewhere(pods: seq<Pod>, i: nat, more: seq<Pod>, pid: int)
    requires i < |pods| && pods[i].pid != pid && forall k :: 0 <= k < |more| ==> more[k].pid != pid
    ensures PidAt(Remove(pods, i) + more, pid) < |Remove(pods, i) + more| <==> PidAt(pods, pid) < |pods|
  {
    var after, k := Remove(pods, i) + more, PidAt(pods, pid);
    if k < |pods| {
      assert after[if k < i then k else k - 1].pid == pid;
    }
    var j := PidAt(after, pid);
    if j < |after| {
      assert pods[if j < i then j else j + 1].pid == pid;
    }
  }

  lemma {:induction false} KnownAfter(s: State, info: ExitInfo, start: Start, now: int, infos: seq<ExitInfo>)
    requires UniquePids(s.pods)
    requires forall i :: 0 <= i < |infos| ==> infos[i].pid != info.pid && infos[i].pid != start.pid
    ensures Known(HandleExit(s, info, start, now).pods, infos) == Known(s.pods, infos)
    decreases |infos|
  {
    hide HandleExit;
    if infos != [] {
      ListedAfter(s, info, start, now, infos[0].pid);
      KnownAfter(s, info, start, now, infos[1..]);
    }
  }

  /** A pass over the queue does exactly one thing for every exit of a pod that was listed, and nothing else. */
  lemma {:induction false} EveryExitIsAnsweredOnce(s: State, infos: seq<ExitInfo>, starts: seq<Start>, now: int)
    requires Inv(s) && |infos| == |starts| && FreshStarts(s.pods, starts) && Distinct(infos)
    requires StartsApart(infos, starts)
    ensures |AllExitLabels(s, infos, starts, now)| == Known(s.pods, infos)
    decreases |infos|
  {
    hide Inv, HandleExit;
    if infos != [] {
      assert UniquePids(s.pods) by { UniqueOf(s); }
      HandleExitKeeps(s, infos[0], starts[0], now);
      EveryExitIsAnsweredOnce(HandleExit(s, infos[0], starts[0], now), infos[1..], starts[1..], now);
      KnownAfter(s, infos[0], starts[0], now, infos[1..]);
    }
  }

  lemma UniqueOf(s: State)
    requires Inv(s)
    ensures UniquePids(s.pods)
  {}

  // ---------------------------------------------------------------- reports reach their owner

  function ReportedTo(labels: seq<Label>, m: string): seq<Exit> {
    if labels == [] then []
    else (if labels[0].Reported? && labels[0].exit.manager == m then [labels[0].exit] else [])
         + ReportedTo(labels[1..], m)
  }

  function DeliveredTo(labels: seq<Label>, m: string): seq<Exit> {
    if labels == [] then []
    else (if labels[0].Delivered? && labels[0].manager == m then labels[0].exits else []) + DeliveredTo(labels[1..], m)
  }

  lemma {:induction false} LabelsAppend(a: seq<Label>, b: seq<Label>, m: string)
    ensures ReportedTo(a + b, m) == ReportedTo(a, m) + ReportedTo(b, m)
    ensures DeliveredTo(a + b, m) == DeliveredTo(a, m) + DeliveredTo(b, m)
  {
    if a == [] {
      assert a + b == b;
    } else {
      assert (a + b)[1..] == a[1..] + b;
      LabelsAppend(a[1..], b, m);
    }
  }

  lemma {:induction false} OfAppend(a: seq<Exit>, x: Exit, m: string)
    ensures Of(a + [x], m) == Of(a, m) + if x.manager == m then [x] else []
  {
    if a == [] {
      assert a + [x] == [x] && [x][1..] == [];
    } else {
      assert (a + [x])[1..] == a[1..] + [x];
      OfAppend(a[1..], x, m);
    }
  }

  function For(m: string): Exit -> bool { (x: Exit) => x.manager == m }

  function NotFor(m: string): Exit -> bool { (x: Exit) => x.manager != m }

  /** A manager's reports and those of the others, by their positions in the list. */
  lemma {:induction false} ReportsAre(exits: seq<Exit>, m: string)
    ensures Sublist(Of(exits, m), exits, For(m)) && Sublist(NotOf(exits, m), exits, NotFor(m))
  {
    hide Collects;
    if exits == [] {
      CollectsNone(For(m), Itself<Exit>());
      CollectsNone(NotFor(m), Itself<Exit>());
    } else {
      ReportsAre(exits[1..], m);
      CollectsMore(Of(exits[1..], m), exits, For(m), Itself());
      CollectsMore(NotOf(exits[1..], m), exits, NotFor(m), Itself());
    }
  }

  /** Collecting for one manager splits the list by owner and keeps the order of both parts. */
  lemma {:induction false} SplitByOwner(exits: seq<Exit>, manager: string, m: string)
    ensures Of(NotOf(exits, manager), m) == if m == manager then [] else Of(exits, m)
  {
    if exits != [] {
      SplitByOwner(exits[1..], manager, m);
      assert NotOf(exits, manager) ==
             (if exits[0].manager == manager then [] else [exits[0]]) + NotOf(exits[1..], manager);
      var head := if exits[0].manager == manager then [] else [exits[0]];
      var rest := NotOf(exits[1..], manager);
      hide NotOf;
      if head == [] {
        assert head + rest == rest && [] + Of(exits[1..], m) == Of(exits[1..], m);
      } else {
        assert (head + rest)[1..] == rest;
      }
    }
  }

  /** What a manager has coming: everything waiting for it, then everything reported for it, is everything
      delivered to it, then everything still waiting. */
  ghost predicate Accounted(before: seq<Exit>, labels: seq<Label>, after: seq<Exit>, m: string) {
    Of(before, m) + ReportedTo(labels, m) == DeliveredTo(labels, m) + Of(after, m)
  }

  lemma AccountedMore(a: seq<Exit>, l1: seq<Label>, b: seq<Exit>, l2: seq<Label>, c: seq<Exit>, m: string)
    requires Accounted(a, l1, b, m) && Accounted(b, l2, c, m)
    ensures Accounted(a, l1 + l2, c, m)
  {
    LabelsAppend(l1, l2, m);
    hide Of, ReportedTo, DeliveredTo;
    Regroup(Of(a, m), ReportedTo(l1, m), ReportedTo(l2, m));
    Regroup(DeliveredTo(l1, m), Of(b, m), ReportedTo(l2, m));
    Regroup(DeliveredTo(l1, m), DeliveredTo(l2, m), Of(c, m));
  }

  lemma Regroup(a: seq<Exit>, b: seq<Exit>, c: seq<Exit>)
    ensures a + b + c == a + (b + c)
  {}

  lemma NoReports(a: seq<Exit>, labels: seq<Label>, m: string)
    requires |labels| <= 1 && (labels != [] ==> !labels[0].Reported? && !labels[0].Delivered?)
    ensures Accounted(a, labels, a, m)
  {
    if labels != [] {
      assert labels == [labels[0]] && labels[1..] == [];
    }
    assert Of(a, m) + [] == [] + Of(a, m);
  }

  lemma OneLabelTo(l: Label, m: string)
    ensures ReportedTo([l], m) == if l.Reported? && l.exit.manager == m then [l.exit] else []
    ensures DeliveredTo([l], m) == if l.Delivered? && l.manager == m then l.exits else []
  {
    assert [l][1..] == [];
    assert (if l.Delivered? && l.manager == m then l.exits else []) + []
           == if l.Delivered? && l.manager == m then l.exits else [];
  }

  lemma OneReport(a: seq<Exit>, x: Exit, m: string)
    ensures Accounted(a, [Reported(x)], a + [x], m)
  {
    OfAppend(a, x, m);
    OneLabelTo(Reported(x), m);
    hide Of, ReportedTo, DeliveredTo;
    var part := if x.manager == m then [x] else [];
    assert [] + (Of(a, m) + part) == Of(a, m) + part;
  }

  lemma OneDelivery(a: seq<Exit>, manager: string, m: string)
    ensures Accounted(a, [Delivered(manager, Of(a, manager))], NotOf(a, manager), m)
  {
    SplitByOwner(a, manager, m);
    OneLabelTo(Delivered(manager, Of(a, manager)), m);
    hide Of, NotOf, ReportedTo, DeliveredTo;
    assert Of(a, m) + [] == Of(a, m) && [] + Of(a, m) == Of(a, m);
  }

  lemma ExitAccounted(s: State, info: ExitInfo, start: Start, now: int, m: string)
    ensures Accounted(s.downPods, ExitLabels(s, info, start), HandleExit(s, info, start, now).downPods, m)
  {
    hide Accounted;
    var labels := ExitLabels(s, info, start);
    if labels != [] && labels[0].Reported? {
      OneReport(s.downPods, labels[0].exit, m);
    } else {
      NoReports(s.downPods, labels, m);
    }
  }

  lemma {:induction false} ExitsAccounted(s: State, infos: seq<ExitInfo>, starts: seq<Start>, now: int, m: string)
    requires |infos| == |starts|
    ensures Accounted(s.downPods, AllExitLabels(s, infos, starts, now), HandleExits(s, infos, starts, now).downPods, m)
    decreases |infos|
  {
    hide HandleExit, ExitLabels, Accounted;
    if infos == [] {
      NoReports(s.downPods, [], m);
    } else {
      var t := HandleExit(s, infos[0], starts[0], now);
      ExitAccounted(s, infos[0], starts[0], now, m);
      ExitsAccounted(t, infos[1..], starts[1..], now, m);
      AccountedMore(s.downPods, ExitLabels(s, infos[0], starts[0]), t.downPods,
                    AllExitLabels(t, infos[1..], starts[1..], now),
                    HandleExits(t, infos[1..], starts[1..], now).downPods, m);
    }
  }

  lemma CheckAccounted(s: State, manager: string, guard: Reading, now: int, m: string)
    ensures Accounted(s.downPods, Labels(s, CheckCall(manager), guard, now), Check(s, manager, now).0.downPods, m)
  {
    hide Accounted;
    if Expired(s, manager) {
      NoReports(s.downPods, Labels(s, CheckCall(manager), guard, now), m);
    } else {
      OneDelivery(s.downPods, manager, m);
    }
  }

  lemma OthersLeaveReports(s: State, e: Event, guard: Reading, now: int)
    requires Possible(s, e) && !e.CheckCall? && !e.ExitTick?
    ensures Step(s, e, guard, now).downPods == s.downPods
    ensures var l := Labels(s, e, guard, now); |l| <= 1 && (l != [] ==> !l[0].Reported? && !l[0].Delivered?)
  {
    hide AliasReason, TurnedDown;
  }

  lemma {:induction false} ExitsLeaveQueue(s: State, infos: seq<ExitInfo>, starts: seq<Start>, now: int)
    requires |infos| == |starts|
    ensures HandleExits(s, infos, starts, now).infos == s.infos
    decreases |infos|
  {
    if infos != [] {
      assert HandleExit(s, infos[0], starts[0], now).infos == s.infos;
      hide HandleExit;
      ExitsLeaveQueue(HandleExit(s, infos[0], starts[0], now), infos[1..], starts[1..], now);
    }
  }

  /** Exits join the queue in order, the pass over them empties it, and nothing else touches it. */
  lemma {:induction false} QueueIsEmptied(s: State, e: Event, guard: Reading, now: int)
    requires Possible(s, e)
    ensures Step(s, e, guard, now).infos ==
            match e
            case ProcessExit(info) => s.infos + [info]
            case ExitTick(_) => []
            case _ => s.infos
  {
    if e.ExitTick? {
      ExitsLeaveQueue(s.(infos := []), s.infos, e.starts, now);
    }
    hide HandleExits, AliasReason, TurnedDown;
  }

  lemma StepAccounted(s: State, e: Event, guard: Reading, now: int, m: string)
    requires Possible(s, e)
    ensures Accounted(s.downPods, Labels(s, e, guard, now), Step(s, e, guard, now).downPods, m)
  {
    hide Accounted, Fork, Shutdown, Check, HandleExits, AllExitLabels;
    match e
    case CheckCall(manager) => CheckAccounted(s, manager, guard, now, m);
    case ExitTick(starts) => ExitsAccounted(s.(infos := []), s.infos, starts, now, m);
    case _ =>
      OthersLeaveReports(s, e, guard, now);
      NoReports(s.downPods, Labels(s, e, guard, now), m);
  }

  /** Over every run each manager is delivered exactly the reports made for it, once and in order; what is not
      delivered yet is still waiting. */
  lemma ReportsReachTheirOwner(s: State, run: seq<(Event, int)>, guard: Reading, m: string)
    requires Feasible(s, run, guard)
    ensures Of(s.downPods, m) + ReportedTo(Trace(s, run, guard), m) ==
            DeliveredTo(Trace(s, run, guard), m) + Of(Run(s, run, guard).downPods, m)
  {
    RunAccounted(s, run, guard, m);
  }

  lemma {:induction false} RunAccounted(s: State, run: seq<(Event, int)>, guard: Reading, m: string)
    requires Feasible(s, run, guard)
    ensures Accounted(s.downPods, Trace(s, run, guard), Run(s, run, guard).downPods, m)
    decreases |run|
  {
    hide Step, Labels, Accounted;
    if run == [] {
      NoReports(s.downPods, [], m);
    } else {
      var (e, now) := run[0];
      var t := Step(s, e, guard, now);
      StepAccounted(s, e, guard, now, m);
      RunAccounted(t, run[1..], guard, m);
      AccountedMore(s.downPods, Labels(s, e, guard, now), t.downPods, Trace(t, run[1..], guard),
                    Run(t, run[1..], guard).downPods, m);
    }
  }

  // ---------------------------------------------------------------- the restart budget

  function Budget(restart: int): nat { if restart > 0 then restart else 0 }

  /** The restarts of one alias: never more than what is left of the budget its last creation set. */
  predicate WithinBudget(labels: seq<Label>, alias: string, left: nat) {
    labels == [] ||
    match labels[0]
    case Forked(_, a, restart) => WithinBudget(labels[1..], alias, if a == alias then Budget(restart) else left)
    case Restarted(_, a, restart) =>
      if a == alias then left > 0 && restart == left - 1 && WithinBudget(labels[1..], alias, left - 1)
      else WithinBudget(labels[1..], alias, left)
    case _ => WithinBudget(labels[1..], alias, left)
  }

  function LeftAfter(labels: seq<Label>, alias: string, left: nat): nat {
    if labels == [] then left
    else
      LeftAfter(labels[1..], alias,
                if labels[0].Forked? && labels[0].alias == alias then Budget(labels[0].restart)
                else if labels[0].Restarted? && labels[0].alias == alias && left > 0 then left - 1
                else left)
  }

  function Restarts(labels: seq<Label>, alias: string): nat {
    if labels == [] then 0
    else (if labels[0].Restarted? && labels[0].alias == alias then 1 else 0) + Restarts(labels[1..], alias)
  }

  /** So with no creation in between an alias is restarted at most as often as is left, and a pod created with
      `restart` is started at most 1 + max(restart, 0) times. */
  lemma {:induction false} BudgetBoundsRestarts(labels: seq<Label>, alias: string, left: nat)
    requires WithinBudget(labels, alias, left)
    requires forall l :: l in labels ==> !(l.Forked? && l.alias == alias)
    ensures Restarts(labels, alias) <= left
    decreases |labels|
  {
    if labels != [] {
      assert labels[0] in labels;
      BudgetBoundsRestarts(labels[1..], alias,
                           if labels[0].Restarted? && labels[0].alias == alias then left - 1 else left);
    }
  }

  lemma {:induction false} BudgetAppend(a: seq<Label>, b: seq<Label>, alias: string, left: nat)
    requires WithinBudget(a, alias, left) && WithinBudget(b, alias, LeftAfter(a, alias, left))
    ensures WithinBudget(a + b, alias, left)
    ensures LeftAfter(a + b, alias, left) == LeftAfter(b, alias, LeftAfter(a, alias, left))
    decreases |a|
  {
    if a == [] {
      assert a + b == b;
    } else {
      assert (a + b)[1..] == a[1..] + b;
      BudgetAppend(a[1..], b, alias,
                   if a[0].Forked? && a[0].alias == alias then Budget(a[0].restart)
                   else if a[0].Restarted? && a[0].alias == alias && left > 0 then left - 1
                   else left);
    }
  }

  /** With the guard as documented no two pods share an alias. */
  ghost predicate UniqueAliases(pods: seq<Pod>) {
    forall i, j :: 0 <= i < j < |pods| ==> pods[i].alias != pods[j].alias
  }

  /** A listed pod of that alias has exactly `left` restarts to go. */
  ghost predicate Left(pods: seq<Pod>, alias: string, left: nat) {
    forall i :: 0 <= i < |pods| && pods[i].alias == alias ==> Budget(pods[i].restart) == left
  }

  ghost predicate Budgeted(s: State, alias: string, left: nat) { UniqueAliases(s.pods) && Left(s.pods, alias, left) }

  /** Taking a pod off the list, and putting one of its alias back with the budget given. */
  lemma {:induction false} RemoveBudgeted(pods: seq<Pod>, i: nat, more: seq<Pod>, alias: string, left: nat, next: nat)
    requires i < |pods| && UniqueAliases(pods) && Left(pods, alias, left)
    requires |more| <= 1 && (more != [] ==> more[0].alias == pods[i].alias)
    requires pods[i].alias != alias ==> next == left
    requires more != [] && more[0].alias == alias ==> Budget(more[0].restart) == next
    ensures UniqueAliases(Remove(pods, i) + more) && Left(Remove(pods, i) + more, alias, next)
  {}

  lemma NoLabelBudget(alias: string, left: nat, l: Label)
    ensures WithinBudget([], alias, left) && LeftAfter([], alias, left) == left
    ensures WithinBudget([l], alias, left) <==>
            !(l.Restarted? && l.alias == alias) || (left > 0 && l.restart == left - 1)
    ensures LeftAfter([l], alias, left) ==
            if l.Forked? && l.alias == alias then Budget(l.restart)
            else if l.Restarted? && l.alias == alias && left > 0 then left - 1 else left
  {
    assert [l][1..] == [];
  }

  lemma {:induction false} ExitBudget(s: State, info: ExitInfo, start: Start, now: int, alias: string, left: nat)
    requires Budgeted(s, alias, left)
    ensures var l := ExitLabels(s, info, start);
            WithinBudget(l, alias, left) && Budgeted(HandleExit(s, info, start, now), alias, LeftAfter(l, alias, left))
  {
    var i, l := PidAt(s.pods, info.pid), ExitLabels(s, info, start);
    if i < |s.pods| {
      NoLabelBudget(alias, left, l[0]);
      ExitIsAnsweredOnce(s, info, start, now);
      hide HandleExit, WithinBudget, LeftAfter, UniqueAliases, Left;
      var pod := s.pods[i];
      var again := pod.restart > 0 && (pod.typ == Docker || start.exe);
      RemoveBudgeted(s.pods, i, if again then [pod.(pid := start.pid, restart := pod.restart - 1)] else [], alias, left,
                     LeftAfter(l, alias, left));
    } else {
      NoLabelBudget(alias, left, SaidDown(alias));
    }
  }

  lemma {:induction false} ExitsBudget(s: State, infos: seq<ExitInfo>, starts: seq<Start>, now: int, alias: string,
                                       left: nat)
    requires Budgeted(s, alias, left) && |infos| == |starts|
    ensures var l := AllExitLabels(s, infos, starts, now);
            WithinBudget(l, alias, left)
            && Budgeted(HandleExits(s, infos, starts, now), alias, LeftAfter(l, alias, left))
    decreases |infos|
  {
    hide Budgeted, HandleExit, ExitLabels, WithinBudget, LeftAfter;
    if infos == [] {
      NoLabelBudget(alias, left, SaidDown(alias));
    } else {
      var t, l := HandleExit(s, infos[0], starts[0], now), ExitLabels(s, infos[0], starts[0]);
      ExitBudget(s, infos[0], starts[0], now, alias, left);
      ExitsBudget(t, infos[1..], starts[1..], now, alias, LeftAfter(l, alias, left));
      BudgetAppend(l, AllExitLabels(t, infos[1..], starts[1..], now), alias, left);
    }
  }

  lemma {:induction false} ForkBudget(s: State, input: ForkInput, now: int, alias: string, left: nat)
    requires Possible(s, ForkCall(input)) && Budgeted(s, alias, left)
    ensures var l := Labels(s, ForkCall(input), AsDocumented, now);
            WithinBudget(l, alias, left)
            && Budgeted(Fork(s, input, AsDocumented, now).0, alias, LeftAfter(l, alias, left))
  {
    var l := Labels(s, ForkCall(input), AsDocumented, now);
    NoLabelBudget(alias, left, if l == [] then SaidDown(alias) else l[0]);
    assert l == [] || l == [l[0]];
    hide WithinBudget, LeftAfter;
  }

  lemma {:induction false} StopBudget(s: State, alias: string, manager: string, typ: Kind, killed: bool, now: int,
                                      a: string, left: nat)
    requires Budgeted(s, a, left)
    ensures Budgeted(Shutdown(s, manager, alias, typ, killed, now).0, a, left)
  {
    var i := AliasAt(s.pods, alias);
    if i < |s.pods| {
      RemoveBudgeted(s.pods, i, [], a, left, left);
      assert Remove(s.pods, i) + [] == Remove(s.pods, i);
    }
    hide Left, UniqueAliases, Remove;
  }

  lemma {:induction false} StopAllBudgeted(pods: seq<Pod>, refs: seq<Ref>, alias: string, left: nat)
    requires UniqueAliases(pods) && Left(pods, alias, left)
    ensures UniqueAliases(StopAll(pods, refs)) && Left(StopAll(pods, refs), alias, left)
    decreases |refs|
  {
    hide UniqueAliases, Left;
    if refs != [] {
      var i := PidAt(pods, refs[0].pid);
      if i < |pods| {
        RemoveBudgeted(pods, i, [], alias, left, left);
        assert Remove(pods, i) + [] == Remove(pods, i);
      }
      StopAllBudgeted(StopByPid(pods, refs[0].pid), refs[1..], alias, left);
    }
  }

  lemma LeaseBudget(s: State, manager: string, alias: string, left: nat)
    requires Budgeted(s, alias, left) && manager in s.managers
    ensures Budgeted(Expire(s, manager), alias, left)
  {
    StopAllBudgeted(s.pods, s.managers[manager].pods, alias, left);
  }

  lemma {:induction false} OtherBudget(s: State, e: Event, now: int, alias: string, left: nat)
    requires Possible(s, e) && !e.ForkCall? && !e.ExitTick? && Budgeted(s, alias, left)
    ensures Budgeted(Step(s, e, AsDocumented, now), alias, left)
    ensures var l := Labels(s, e, AsDocumented, now); |l| <= 1 && (l != [] ==> !l[0].Forked? && !l[0].Restarted?)
  {
    if e.ShutdownCall? {
      StopBudget(s, e.alias, e.manager, e.typ, e.killed, now, alias, left);
      hide Shutdown, Budgeted;
    } else if e.LeaseTick? {
      var m := FirstUnused(s, e.order, e.limit, now);
      if m.Some? {
        LeaseBudget(s, m.value, alias, left);
      }
      hide Expire, Budgeted;
    } else {
      BudgetOfPods(s, Step(s, e, AsDocumented, now), alias, left);
      hide Budgeted;
    }
  }

  lemma {:induction false} StepBudget(s: State, e: Event, now: int, alias: string, left: nat)
    requires Possible(s, e) && Budgeted(s, alias, left)
    ensures var l := Labels(s, e, AsDocumented, now);
            WithinBudget(l, alias, left) && Budgeted(Step(s, e, AsDocumented, now), alias, LeftAfter(l, alias, left))
  {
    hide Budgeted, Fork, Shutdown, HandleExits, AllExitLabels, WithinBudget, LeftAfter;
    var l := Labels(s, e, AsDocumented, now);
    if e.ForkCall? {
      ForkBudget(s, e.input, now, alias, left);
    } else if e.ExitTick? {
      assert Budgeted(s.(infos := []), alias, left) by { BudgetOfPods(s, s.(infos := []), alias, left); }
      ExitsBudget(s.(infos := []), s.infos, e.starts, now, alias, left);
    } else {
      OtherBudget(s, e, now, alias, left);
      NoLabelBudget(alias, left, if l == [] then SaidDown(alias) else l[0]);
      assert l == [] || l == [l[0]];
    }
  }

  lemma BudgetOfPods(s: State, t: State, alias: string, left: nat)
    requires Budgeted(s, alias, left) && t.pods == s.pods
    ensures Budgeted(t, alias, left)
  {}

  /** Over every run, with the alias guard as documented, no alias is restarted beyond its budget. */
  lemma {:induction false} RestartsStayWithinBudget(s: State, run: seq<(Event, int)>, alias: string, left: nat)
    requires Feasible(s, run, AsDocumented) && Budgeted(s, alias, left)
    ensures WithinBudget(Trace(s, run, AsDocumented), alias, left)
    ensures Budgeted(Run(s, run, AsDocumented), alias, LeftAfter(Trace(s, run, AsDocumented), alias, left))
    decreases |run|
  {
    hide Budgeted, Step, Labels, WithinBudget, LeftAfter;
    if run == [] {
      NoLabelBudget(alias, left, SaidDown(alias));
    } else {
      var (e, now) := run[0];
      var t, l := Step(s, e, AsDocumented, now), Labels(s, e, AsDocumented, now);
      StepBudget(s, e, now, alias, left);
      RestartsStayWithinBudget(t, run[1..], alias, LeftAfter(l, alias, left));
      BudgetAppend(l, Trace(t, run[1..], AsDocumented), alias, left);
    }
  }

  /** A pod created with `restart` r is started at most 1 + max(r, 0) times: once by the create, and at most
      max(r, 0) times by any run that follows it, until its alias is created again. */
  lemma {:induction false} StartsPerCreate(s: State, input: ForkInput, now: int, run: seq<(Event, int)>)
    requires UniqueAliases(s.pods) && Possible(s, ForkCall(input))
    requires Feasible(Step(s, ForkCall(input), AsDocumented, now), run, AsDocumented)
    requires var created := Forked(input.pod.manager, input.pod.alias, input.pod.restart);
             Labels(s, ForkCall(input), AsDocumented, now) == [created]
    requires forall l :: l in Trace(Step(s, ForkCall(input), AsDocumented, now), run, AsDocumented) ==>
               !(l.Forked? && l.alias == input.pod.alias)
    ensures Restarts(Trace(Step(s, ForkCall(input), AsDocumented, now), run, AsDocumented), input.pod.alias)
            <= if input.pod.restart > 0 then input.pod.restart else 0
  {
    var e, alias := ForkCall(input), input.pod.alias;
    var t := Step(s, e, AsDocumented, now);
    NoneLeft(s, input, now);
    StepBudget(s, e, now, alias, 0);
    NoLabelBudget(alias, 0, Forked(input.pod.manager, alias, input.pod.restart));
    hide Step, Labels, Budgeted, Trace, Feasible, Possible, WithinBudget, LeftAfter, Restarts, UniqueAliases;
    RestartsStayWithinBudget(t, run, alias, Budget(input.pod.restart));
    BudgetBoundsRestarts(Trace(t, run, AsDocumented), alias, Budget(input.pod.restart));
  }

  /** A create is admitted only when no pod has its alias. */
  lemma {:induction false} NoneLeft(s: State, input: ForkInput, now: int)
    requires UniqueAliases(s.pods) && Possible(s, ForkCall(input))
    requires Labels(s, ForkCall(input), AsDocumented, now) != []
    ensures Budgeted(s, input.pod.alias, 0)
  {}

  /** Pods never come to share an alias. */
  lemma {:induction false} AliasesStayUnique(s: State, run: seq<(Event, int)>)
    requires UniqueAliases(s.pods) && Feasible(s, run, AsDocumented)
    ensures UniqueAliases(Run(s, run, AsDocumented).pods)
  {
    var alias := UnusedAlias(s.pods);
    RestartsStayWithinBudget(s, run, alias, 0);
    hide Run, Feasible;
  }

  lemma {:induction false} UnusedAlias(pods: seq<Pod>) returns (alias: string)
    ensures alias != "" && forall i :: 0 <= i < |pods| ==> |pods[i].alias| < |alias|
  {
    if pods == [] {
      alias := "a";
    } else {
      var longer := UnusedAlias(pods[1..]);
      alias := longer + pods[0].alias;
    }
  }

  // ---------------------------------------------------------------- the pass over the queue, as written

  /** As written the pass ends with a null entry that it follows as soon as a pod is listed, and a restart takes a
      lock its own thread holds. */
  datatype Pass = NullFollowed | Relocked | Done(s: State)

  function PassAsWritten(s: State, infos: seq<ExitInfo>, starts: seq<Start>, now: int): Pass
    requires |infos| == |starts|
    decreases |infos|
  {
    if infos == [] then if s.pods != [] then NullFollowed else Done(s)
    else
      var i := PidAt(s.pods, infos[0].pid);
      if i < |s.pods| && s.pods[i].restart > 0 && Started(s.pods[i], starts[0]) then Relocked
      else PassAsWritten(HandleExit(s, infos[0], starts[0], now), infos[1..], starts[1..], now)
  }

  /** Every listed pod has exited, and none of them is to be started again. */
  predicate Harmless(pods: seq<Pod>, infos: seq<ExitInfo>, starts: seq<Start>)
    requires |infos| == |starts|
  {
    forall p :: p in pods ==> Gone(p, infos, starts)
  }

  predicate Gone(pod: Pod, infos: seq<ExitInfo>, starts: seq<Start>)
    requires |infos| == |starts|
  {
    exists k :: 0 <= k < |infos| && infos[k].pid == pod.pid && !(pod.restart > 0 && Started(pod, starts[k]))
  }

  lemma RemoveMembers(pods: seq<Pod>, i: nat)
    requires UniquePids(pods) && i < |pods|
    ensures forall p :: p in Remove(pods, i) <==> p in pods && p.pid != pods[i].pid
  {
    forall p ensures p in Remove(pods, i) <==> p in pods && p.pid != pods[i].pid {
      if p in pods && p.pid != pods[i].pid {
        var k :| 0 <= k < |pods| && pods[k] == p;
        assert Remove(pods, i)[if k < i then k else k - 1] == p;
      }
    }
  }

  lemma {:induction false} HarmlessNext(pods: seq<Pod>, after: seq<Pod>, i: nat, infos: seq<ExitInfo>,
                                        starts: seq<Start>)
    requires |infos| == |starts| > 0 && UniquePids(pods) && Distinct(infos) && i == PidAt(pods, infos[0].pid)
    requires i < |pods| ==> !(pods[i].restart > 0 && Started(pods[i], starts[0]))
    requires after == if i < |pods| then Remove(pods, i) else pods
    ensures Harmless(pods, infos, starts) <==> Harmless(after, infos[1..], starts[1..])
  {
    var pid := infos[0].pid;
    assert i < |pods| ==> Gone(pods[i], infos, starts);
    if i < |pods| {
      RemoveMembers(pods, i);
    }
    assert forall p :: p in after <==> p in pods && p.pid != pid;
    assert forall p :: p in pods && p.pid == pid ==> i < |pods| && p == pods[i];
    hide Gone, Remove, UniquePids, Distinct, Started, PidAt;
    forall p | p in pods && p.pid != pid ensures Gone(p, infos, starts) <==> Gone(p, infos[1..], starts[1..]) {
      GoneLater(p, infos, starts);
    }
  }

  lemma GoneLater(p: Pod, infos: seq<ExitInfo>, starts: seq<Start>)
    requires |infos| == |starts| > 0 && p.pid != infos[0].pid
    ensures Gone(p, infos, starts) <==> Gone(p, infos[1..], starts[1..])
  {
    if Gone(p, infos, starts) {
      var k :| 0 <= k < |infos| && infos[k].pid == p.pid && !(p.restart > 0 && Started(p, starts[k]));
      assert infos[1..][k - 1] == infos[k] && starts[1..][k - 1] == starts[k];
    }
  }

  lemma {:induction false} ExitRemoves(s: State, info: ExitInfo, start: Start, now: int)
    requires UniquePids(s.pods)
    requires var i := PidAt(s.pods, info.pid); i < |s.pods| ==> !(s.pods[i].restart > 0 && Started(s.pods[i], start))
    ensures var i := PidAt(s.pods, info.pid);
            HandleExit(s, info, start, now).pods == if i < |s.pods| then Remove(s.pods, i) else s.pods
    ensures UniquePids(HandleExit(s, info, start, now).pods)
  {}

  lemma DistinctRest(infos: seq<ExitInfo>)
    requires infos != [] && Distinct(infos)
    ensures Distinct(infos[1..])
  {}

  /** As written, one periodic pass survives exactly when every listed pod is among the exits in the queue and none
      of them is started again; and then it does what is intended. */
  lemma {:induction false} PassSurvivesIff(s: State, infos: seq<ExitInfo>, starts: seq<Start>, now: int)
    requires UniquePids(s.pods) && |infos| == |starts| && Distinct(infos)
    ensures PassAsWritten(s, infos, starts, now).Done? <==> Harmless(s.pods, infos, starts)
    ensures PassAsWritten(s, infos, starts, now).Done? ==>
              PassAsWritten(s, infos, starts, now).s == HandleExits(s, infos, starts, now)
    decreases |infos|
  {
    if infos == [] {
      if s.pods != [] {
        assert s.pods[0] in s.pods && !Gone(s.pods[0], infos, starts);
      }
    } else {
      var i, t := PidAt(s.pods, infos[0].pid), HandleExit(s, infos[0], starts[0], now);
      if i < |s.pods| && s.pods[i].restart > 0 && Started(s.pods[i], starts[0]) {
        assert s.pods[i] in s.pods && !Gone(s.pods[i], infos, starts);
      } else {
        ExitRemoves(s, infos[0], starts[0], now);
        hide HandleExit, Gone, Started, Remove, UniquePids, Distinct, Harmless;
        HarmlessNext(s.pods, t.pods, i, infos, starts);
        assert Distinct(infos[1..]) by { DistinctRest(infos); }
        PassSurvivesIff(t, infos[1..], starts[1..], now);
      }
    }
  }
}
