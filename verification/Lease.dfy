/** The worker over whole runs: its index of pods by owner is always exact, and the lease it gives a manager ends and
    is answered for, once each, in turns. */
module Lease {
  import opened Wrappers
  import opened Worker
  import opened Sublists

  // ---------------------------------------------------------------- steps

  datatype Event =
    | ForkCall(input: ForkInput)
    | ShutdownCall(manager: string, alias: string, typ: Kind, killed: bool)
    | CheckCall(manager: string)
    | ProcessExit(info: ExitInfo)
    | ExitTick(starts: seq<Start>)
    | LeaseTick(order: seq<string>, limit: int)

  /** What a step did that the laws below speak of. */
  datatype Label =
    | Forked(manager: string, alias: string, restart: int)
    | Restarted(manager: string, alias: string, restart: int)
    | Lost(manager: string, alias: string)
    | Unreported(manager: string, alias: string)
    | Reported(exit: Exit)
    | Delivered(manager: string, exits: seq<Exit>)
    | LeaseEnded(manager: string)
    | SaidDown(manager: string)

  predicate FreshPid(pods: seq<Pod>, pid: int) { forall i :: 0 <= i < |pods| ==> pods[i].pid != pid }

  predicate FreshStarts(pods: seq<Pod>, starts: seq<Start>) {
    && (forall i :: 0 <= i < |starts| ==> FreshPid(pods, starts[i].pid))
    && (forall i, j :: 0 <= i < j < |starts| ==> starts[i].pid != starts[j].pid)
  }

  /** What the system may decide: a new process gets a pid no listed pod has.  A container's process that cannot be
      killed is left out: its pod is forgotten while its owner's descriptor goes on pointing at it. */
  predicate Possible(s: State, e: Event) {
    match e
    case ForkCall(input) => FreshPid(s.pods, input.start.pid)
    case ShutdownCall(manager, alias, typ, killed) => typ == Docker ==> StopResult(s, alias, manager, killed) != -1
    case ExitTick(starts) => |starts| == |s.infos| && FreshStarts(s.pods, starts)
    case _ => true
  }

  function Step(s: State, e: Event, guard: Reading, now: int): State
    requires Possible(s, e)
  {
    match e
    case ForkCall(input) => Fork(s, input, guard, now).0
    case ShutdownCall(manager, alias, typ, killed) => Shutdown(s, manager, alias, typ, killed, now).0
    case CheckCall(manager) => Check(s, manager, now).0
    case ProcessExit(info) => s.(infos := s.infos + [info])
    case ExitTick(starts) => CheckPods(s, starts, now)
    case LeaseTick(order, limit) => RemoveManagerNotUsed(s, order, limit, now)
  }

  function ExitLabels(s: State, info: ExitInfo, start: Start): seq<Label> {
    var i := PidAt(s.pods, info.pid);
    if i == |s.pods| then []
    else
      var pod := s.pods[i];
      if pod.restart > 0 then
        [if Started(pod, start) then Restarted(pod.manager, pod.alias, pod.restart - 1)
         else Lost(pod.manager, pod.alias)]
      else if pod.typ == Host then [Reported(Exit(pod.alias, pod.manager, ExitNum(info.status)))]
      else [Unreported(pod.manager, pod.alias)]
  }

  function AllExitLabels(s: State, infos: seq<ExitInfo>, starts: seq<Start>, now: int): seq<Label>
    requires |infos| == |starts|
    decreases |infos|
  {
    if infos == [] then []
    else ExitLabels(s, infos[0], starts[0])
         + AllExitLabels(HandleExit(s, infos[0], starts[0], now), infos[1..], starts[1..], now)
  }

  function Labels(s: State, e: Event, guard: Reading, now: int): seq<Label>
    requires Possible(s, e)
  {
    match e
    case ForkCall(input) =>
      if !Admitted(s, input, guard) then []
      else if Expired(s, input.pod.manager) then [SaidDown(input.pod.manager)]
      else if Started(input.pod, input.start) then [Forked(input.pod.manager, input.pod.alias, input.pod.restart)]
      else []
    case ShutdownCall(manager, _, _, _) => if Expired(s, manager) then [SaidDown(manager)] else []
    case CheckCall(manager) =>
      if Expired(s, manager) then [SaidDown(manager)] else [Delivered(manager, Of(s.downPods, manager))]
    case ProcessExit(_) => []
    case ExitTick(starts) => AllExitLabels(s.(infos := []), s.infos, starts, now)
    case LeaseTick(order, limit) =>
      var m := FirstUnused(s, order, limit, now);
      if limit < 0 || m.None? then [] else [LeaseEnded(m.value)]
  }

  // ---------------------------------------------------------------- the invariant

  ghost predicate UniquePids(pods: seq<Pod>) {
    forall i, j :: 0 <= i < j < |pods| ==> pods[i].pid != pods[j].pid
  }

  /** Every manager's descriptor lists exactly its pods, in the order they were started. */
  ghost predicate Indexed(s: State) { forall m :: IndexOf(s, m) == RefsOf(s.pods, m) }

  /** A lease has ended only for managers without pods. */
  ghost predicate Leased(s: State) {
    forall m :: m in s.managers ==>
      s.managers[m].status == 0 || (s.managers[m].status == -1 && s.managers[m].pods == [])
  }

  ghost predicate Inv(s: State) { UniquePids(s.pods) && Indexed(s) && Leased(s) }

  const EMPTY := State([], [], [], map[])

  lemma EmptyIsValid()
    ensures Inv(EMPTY)
  {}

  lemma {:induction false} RefsAppend(a: seq<Pod>, pod: Pod, m: string)
    ensures RefsOf(a + [pod], m) == RefsOf(a, m) + if pod.manager == m then [Ref(pod.pid, pod.typ)] else []
  {
    if a == [] {
      assert a + [pod] == [pod] && [pod][1..] == [];
    } else {
      assert (a + [pod])[1..] == a[1..] + [pod];
      RefsAppend(a[1..], pod, m);
      var head := if a[0].manager == m then [Ref(a[0].pid, a[0].typ)] else [];
      var last := if pod.manager == m then [Ref(pod.pid, pod.typ)] else [];
      assert RefsOf(a, m) == head + RefsOf(a[1..], m) && RefsOf(a + [pod], m) == head + RefsOf(a[1..] + [pod], m);
      hide RefsOf;
      assert head + (RefsOf(a[1..], m) + last) == head + RefsOf(a[1..], m) + last;
    }
  }

  lemma RefsHead(pods: seq<Pod>, m: string)
    requires pods != []
    ensures RefsOf(pods, m) ==
            if pods[0].manager == m then [Ref(pods[0].pid, pods[0].typ)] + RefsOf(pods[1..], m)
            else RefsOf(pods[1..], m)
  {
    assert [] + RefsOf(pods[1..], m) == RefsOf(pods[1..], m);
  }

  lemma OthersHead(pods: seq<Pod>, m: string)
    requires pods != []
    ensures Others(pods, m) == if pods[0].manager == m then Others(pods[1..], m) else [pods[0]] + Others(pods[1..], m)
  {
    assert [] + Others(pods[1..], m) == Others(pods[1..], m);
  }

  lemma DropHead(head: Ref, rest: seq<Ref>, pid: int)
    ensures DropRef([head] + rest, pid) == if head.pid == pid then rest else [head] + DropRef(rest, pid)
  {
    assert ([head] + rest)[1..] == rest;
  }

  lemma RemoveHead(pods: seq<Pod>, i: nat)
    requires 0 < i < |pods| && UniquePids(pods)
    ensures UniquePids(pods[1..]) && pods[0].pid != pods[i].pid && pods[1..][i - 1] == pods[i]
    ensures Remove(pods, i) != [] && Remove(pods, i)[0] == pods[0] && Remove(pods, i)[1..] == Remove(pods[1..], i - 1)
  {}

  lemma {:induction false} RefsRemove(pods: seq<Pod>, i: nat, m: string)
    requires UniquePids(pods) && i < |pods|
    ensures RefsOf(Remove(pods, i), m) ==
            if pods[i].manager == m then DropRef(RefsOf(pods, m), pods[i].pid) else RefsOf(pods, m)
  {
    assert i == 0 ==> Remove(pods, i) == pods[1..];
    hide *;
    RefsHead(pods, m);
    DropHead(Ref(pods[0].pid, pods[0].typ), RefsOf(pods[1..], m), pods[i].pid);
    if i > 0 {
      RemoveHead(pods, i);
      RefsHead(Remove(pods, i), m);
      RefsRemove(pods[1..], i - 1, m);
    }
  }

  lemma {:induction false} RefsOthers(pods: seq<Pod>, manager: string, m: string)
    ensures RefsOf(Others(pods, manager), m) == if m == manager then [] else RefsOf(pods, m)
  {
    if pods != [] {
      RefsOthers(pods[1..], manager, m);
      var head := if pods[0].manager == manager then [] else [pods[0]];
      if head == [] {
        assert head + Others(pods[1..], manager) == Others(pods[1..], manager);
      } else {
        assert (head + Others(pods[1..], manager))[1..] == Others(pods[1..], manager);
      }
    }
  }

  function OwnedBy(m: string): Pod -> bool { (p: Pod) => p.manager == m }

  function NotOwnedBy(m: string): Pod -> bool { (p: Pod) => p.manager != m }

  function AsRef(): Pod -> Ref { (p: Pod) => Ref(p.pid, p.typ) }

  /** A manager's pods and those of the others, by their positions in the list. */
  lemma {:induction false} OwnersAre(pods: seq<Pod>, m: string)
    ensures Collects(RefsOf(pods, m), pods, OwnedBy(m), AsRef())
    ensures Sublist(Others(pods, m), pods, NotOwnedBy(m))
  {
    hide Collects;
    if pods == [] {
      CollectsNone(OwnedBy(m), AsRef());
      CollectsNone(NotOwnedBy(m), Itself<Pod>());
    } else {
      OwnersAre(pods[1..], m);
      CollectsMore(RefsOf(pods[1..], m), pods, OwnedBy(m), AsRef());
      CollectsMore(Others(pods[1..], m), pods, NotOwnedBy(m), Itself());
    }
  }

  /** Which pids are free does not get less by dropping pods. */
  lemma {:induction false} OthersPids(pods: seq<Pod>, manager: string, pid: int)
    requires FreshPid(pods, pid)
    ensures FreshPid(Others(pods, manager), pid)
  {
    if pods != [] {
      OthersPids(pods[1..], manager, pid);
    }
  }

  lemma {:induction false} OthersUnique(pods: seq<Pod>, manager: string)
    requires UniquePids(pods)
    ensures UniquePids(Others(pods, manager))
  {
    if pods != [] {
      OthersUnique(pods[1..], manager);
      OthersPids(pods[1..], manager, pods[0].pid);
    }
  }

  lemma ManagerKeeps(s: State, m: string, now: int)
    requires Inv(s)
    ensures Inv(GetOrAddManager(s, m, now)) && Inv(ClearStatus(s, m)) && Inv(UpdateManagerTimestamp(s, m, now))
  {
    var t, u := GetOrAddManager(s, m, now), ClearStatus(s, m);
    assert forall k :: IndexOf(t, k) == IndexOf(s, k);
    assert forall k :: IndexOf(u, k) == IndexOf(s, k);
  }

  lemma RegisterKeeps(s: State, pod: Pod, now: int)
    requires Inv(s) && FreshPid(s.pods, pod.pid)
    ensures Inv(Register(s, pod, now))
  {
    var t := Register(s, pod, now);
    forall m ensures IndexOf(t, m) == RefsOf(t.pods, m) {
      RefsAppend(s.pods, pod, m);
      assert IndexOf(s, m) == RefsOf(s.pods, m);
    }
  }

  lemma DroppedIndex(s: State, i: nat, now: int, m: string)
    requires UniquePids(s.pods) && i < |s.pods| && IndexOf(s, m) == RefsOf(s.pods, m)
    ensures IndexOf(Dropped(s, i, now), m) == RefsOf(Dropped(s, i, now).pods, m)
  {
    hide UniquePids, RefsOf, DropRef;
    RefsRemove(s.pods, i, m);
  }

  lemma DropKeeps(s: State, i: nat, now: int)
    requires Inv(s) && i < |s.pods|
    ensures Inv(Dropped(s, i, now))
    ensures forall pid :: FreshPid(s.pods, pid) ==> FreshPid(Dropped(s, i, now).pods, pid)
  {
    var t, pod := Dropped(s, i, now), s.pods[i];
    assert UniquePids(t.pods) && Leased(t) by {
      assert DropRef([], pod.pid) == [];
    }
    hide Dropped, Leased, UniquePids;
    forall m ensures IndexOf(t, m) == RefsOf(t.pods, m) {
      assert IndexOf(s, m) == RefsOf(s.pods, m);
      DroppedIndex(s, i, now, m);
    }
  }

  /** Stopping a manager's pods one by one, behind pods that are none of them. */
  lemma {:induction false} StopAllBehind(pre: seq<Pod>, pods: seq<Pod>, manager: string)
    requires UniquePids(pre + pods)
    ensures StopAll(pre + pods, RefsOf(pods, manager)) == pre + Others(pods, manager)
    decreases |pods|
  {
    if pods == [] {
      assert pre + pods == pre + Others(pods, manager);
    } else {
      hide *;
      RefsHead(pods, manager);
      OthersHead(pods, manager);
      if pods[0].manager == manager {
        StopFirst(pre, pods);
        StopAllBehind(pre, pods[1..], manager);
        StopAllHead(pre + pods, Ref(pods[0].pid, pods[0].typ), RefsOf(pods[1..], manager));
      } else {
        MoveOver(pre, pods[0], pods[1..]);
        assert [pods[0]] + pods[1..] == pods;
        StopAllBehind(pre + [pods[0]], pods[1..], manager);
        MoveOver(pre, pods[0], Others(pods[1..], manager));
      }
    }
  }

  lemma MoveOver(pre: seq<Pod>, pod: Pod, rest: seq<Pod>)
    ensures pre + ([pod] + rest) == (pre + [pod]) + rest
  {}

  lemma StopAllHead(pods: seq<Pod>, head: Ref, rest: seq<Ref>)
    ensures StopAll(pods, [head] + rest) == StopAll(StopByPid(pods, head.pid), rest)
  {
    assert ([head] + rest)[1..] == rest;
    hide StopByPid;
  }

  lemma StopFirst(pre: seq<Pod>, pods: seq<Pod>)
    requires pods != [] && UniquePids(pre + pods)
    ensures StopByPid(pre + pods, pods[0].pid) == pre + pods[1..] && UniquePids(pre + pods[1..])
  {
    var all := pre + pods;
    FirstPid(all, pods[0].pid, |pre|);
    assert Remove(all, |pre|) == pre + pods[1..];
    UniqueRemove(all, |pre|);
  }

  lemma UniqueRemove(pods: seq<Pod>, i: nat)
    requires UniquePids(pods) && i < |pods|
    ensures UniquePids(Remove(pods, i))
  {}

  /** Although every stop leaves the descriptor pointing at a pod that is gone, ending a lease takes exactly the
      manager's pods away and leaves all others, in order. */
  lemma ExpiryTakesExactlyItsPods(s: State, manager: string)
    requires Inv(s) && manager in s.managers
    ensures Expire(s, manager).pods == Others(s.pods, manager) && RefsOf(Expire(s, manager).pods, manager) == []
  {
    assert IndexOf(s, manager) == RefsOf(s.pods, manager);
    assert [] + s.pods == s.pods && [] + Others(s.pods, manager) == Others(s.pods, manager);
    StopAllBehind([], s.pods, manager);
    RefsOthers(s.pods, manager, manager);
  }

  lemma ExpireKeeps(s: State, manager: string)
    requires Inv(s) && manager in s.managers
    ensures Inv(Expire(s, manager))
  {
    var t := Expire(s, manager);
    ExpiryTakesExactlyItsPods(s, manager);
    OthersUnique(s.pods, manager);
    hide StopAll, Others;
    forall m ensures IndexOf(t, m) == RefsOf(t.pods, m) {
      RefsOthers(s.pods, manager, m);
      assert IndexOf(s, m) == RefsOf(s.pods, m);
    }
  }

  lemma CreateKeeps(s: State, pod: Pod, start: Start, now: int)
    requires Inv(s) && FreshPid(s.pods, start.pid)
    ensures Inv(CreateProcess(s, pod, start, now))
  {
    if Started(pod, start) {
      RegisterKeeps(s, pod.(pid := start.pid), now);
    }
  }

  lemma HandleExitKeeps(s: State, info: ExitInfo, start: Start, now: int)
    requires Inv(s) && FreshPid(s.pods, start.pid)
    ensures Inv(HandleExit(s, info, start, now))
    ensures forall pid :: FreshPid(s.pods, pid) && pid != start.pid ==>
              FreshPid(HandleExit(s, info, start, now).pods, pid)
  {
    var i := PidAt(s.pods, info.pid);
    if i < |s.pods| {
      var pod, t := s.pods[i], Dropped(s, i, now);
      DropKeeps(s, i, now);
      CreateKeeps(t, pod.(restart := pod.restart - 1), start, now);
      OnlyPods(t, t.(downPods := t.downPods + [Exit(pod.alias, pod.manager, ExitNum(info.status))]));
      hide Inv, Dropped;
    }
  }

  /** The invariant is about pods and managers alone. */
  lemma OnlyPods(s: State, t: State)
    requires Inv(s) && t.pods == s.pods && t.managers == s.managers
    ensures Inv(t)
  {
    assert forall m :: IndexOf(t, m) == IndexOf(s, m);
  }

  lemma {:induction false} HandleExitsKeeps(s: State, infos: seq<ExitInfo>, starts: seq<Start>, now: int)
    requires Inv(s) && |infos| == |starts| && FreshStarts(s.pods, starts)
    ensures Inv(HandleExits(s, infos, starts, now))
    decreases |infos|
  {
    hide Inv, HandleExit;
    if infos != [] {
      HandleExitKeeps(s, infos[0], starts[0], now);
      HandleExitsKeeps(HandleExit(s, infos[0], starts[0], now), infos[1..], starts[1..], now);
    }
  }

  lemma StopKeeps(s: State, alias: string, manager: string, killed: bool, now: int)
    requires Inv(s)
    ensures Inv(StopPod(s, alias, manager, killed, now))
    ensures StopResult(s, alias, manager, killed) != -1 ==> Inv(StopDockerPod(s, alias, manager, killed, now))
  {
    var i := AliasAt(s.pods, alias);
    if i < |s.pods| {
      DropKeeps(s, i, now);
    }
  }

  /** The index is exact after every step. */
  lemma StepKeeps(s: State, e: Event, guard: Reading, now: int)
    requires Inv(s) && Possible(s, e)
    ensures Inv(Step(s, e, guard, now))
  {
    hide Inv, CreateProcess, StopPod, StopDockerPod, HandleExits, Expire, GetOrAddManager;
    match e
    case ForkCall(input) =>
      var t := ClearStatus(s, input.pod.manager);
      ManagerKeeps(s, input.pod.manager, now);
      CreateKeeps(t, input.pod, input.start, now);
    case ShutdownCall(manager, alias, typ, killed) =>
      ManagerKeeps(s, manager, now);
      StopKeeps(ClearStatus(s, manager), alias, manager, killed, now);
    case CheckCall(manager) =>
      ManagerKeeps(s, manager, now);
      var t := ClearStatus(s, manager);
      ManagerKeeps(t, manager, now);
      var u := UpdateManagerTimestamp(t, manager, now);
      OnlyPods(u, u.(downPods := NotOf(t.downPods, manager)));
    case ProcessExit(info) => OnlyPods(s, s.(infos := s.infos + [info]));
    case ExitTick(starts) =>
      OnlyPods(s, s.(infos := []));
      HandleExitsKeeps(s.(infos := []), s.infos, starts, now);
    case LeaseTick(order, limit) =>
      var m := FirstUnused(s, order, limit, now);
      if m.Some? {
        ExpireKeeps(s, m.value);
      }
  }

  /** Where a container's process cannot be killed the descriptor keeps a pointer to the pod that is gone. */
  lemma DockerStopIndexIff(s: State, alias: string, manager: string, killed: bool, now: int)
    requires Inv(s)
    ensures var i := AliasAt(s.pods, alias);
            Indexed(StopDockerPod(s, alias, manager, killed, now)) <==>
            killed || i == |s.pods| || s.pods[i].manager != manager
  {
    StopKeeps(s, alias, manager, killed, now);
    var i := AliasAt(s.pods, alias);
    if StopResult(s, alias, manager, killed) == -1 {
      var t := StopDockerPod(s, alias, manager, killed, now);
      RefsRemove(s.pods, i, manager);
      RefsAt(s.pods, i);
      DropShorter(RefsOf(s.pods, manager), s.pods[i].pid);
      assert IndexOf(s, manager) == RefsOf(s.pods, manager);
      assert IndexOf(t, manager) != RefsOf(t.pods, manager);
    }
  }

  lemma {:induction false} RefsAt(pods: seq<Pod>, i: nat)
    requires i < |pods|
    ensures Ref(pods[i].pid, pods[i].typ) in RefsOf(pods, pods[i].manager)
  {
    if i > 0 {
      RefsAt(pods[1..], i - 1);
    }
  }

  lemma {:induction false} DropShorter(refs: seq<Ref>, pid: int)
    requires exists r :: r in refs && r.pid == pid
    ensures |DropRef(refs, pid)| == |refs| - 1
  {
    if refs[0].pid != pid {
      DropShorter(refs[1..], pid);
    }
  }

  // ---------------------------------------------------------------- whole runs

  /** A run: events and the clock at each. */
  predicate Feasible(s: State, run: seq<(Event, int)>, guard: Reading)
    decreases |run|
  {
    || run == []
    || (Possible(s, run[0].0) && Feasible(Step(s, run[0].0, guard, run[0].1), run[1..], guard))
  }

  function Run(s: State, run: seq<(Event, int)>, guard: Reading): State
    requires Feasible(s, run, guard)
    decreases |run|
  {
    if run == [] then s else Run(Step(s, run[0].0, guard, run[0].1), run[1..], guard)
  }

  function Trace(s: State, run: seq<(Event, int)>, guard: Reading): seq<Label>
    requires Feasible(s, run, guard)
    decreases |run|
  {
    if run == [] then []
    else Labels(s, run[0].0, guard, run[0].1) + Trace(Step(s, run[0].0, guard, run[0].1), run[1..], guard)
  }

  /** After every step of every run the index is exact. */
  lemma {:induction false} IndexIsAlwaysExact(s: State, run: seq<(Event, int)>, guard: Reading)
    requires Inv(s) && Feasible(s, run, guard)
    ensures Inv(Run(s, run, guard))
    decreases |run|
  {
    hide Inv, Step;
    if run != [] {
      StepKeeps(s, run[0].0, guard, run[0].1);
      IndexIsAlwaysExact(Step(s, run[0].0, guard, run[0].1), run[1..], guard);
    }
  }

  /** One manager's lease: its end and the answer "Manager Down" take turns, and nothing is started for it between
      an end and the next answer. */
  predicate Turns(labels: seq<Label>, m: string, ended: bool) {
    labels == [] ||
    match labels[0]
    case LeaseEnded(k) => if k == m then !ended && Turns(labels[1..], m, true) else Turns(labels[1..], m, ended)
    case SaidDown(k) => if k == m then ended && Turns(labels[1..], m, false) else Turns(labels[1..], m, ended)
    case Forked(k, _, _) => !(k == m && ended) && Turns(labels[1..], m, ended)
    case Restarted(k, _, _) => !(k == m && ended) && Turns(labels[1..], m, ended)
    case _ => Turns(labels[1..], m, ended)
  }

  function EndedAfter(labels: seq<Label>, m: string, ended: bool): bool {
    if labels == [] then ended
    else
      EndedAfter(labels[1..], m,
                 if labels[0] == LeaseEnded(m) then true else if labels[0] == SaidDown(m) then false else ended)
  }

  lemma {:induction false} TurnsAppend(a: seq<Label>, b: seq<Label>, m: string, ended: bool)
    requires Turns(a, m, ended) && Turns(b, m, EndedAfter(a, m, ended))
    ensures Turns(a + b, m, ended) && EndedAfter(a + b, m, ended) == EndedAfter(b, m, EndedAfter(a, m, ended))
    decreases |a|
  {
    if a == [] {
      assert a + b == b;
    } else {
      assert (a + b)[1..] == a[1..] + b;
      TurnsAppend(a[1..], b, m,
                  if a[0] == LeaseEnded(m) then true else if a[0] == SaidDown(m) then false else ended);
    }
  }

  lemma OneLabel(l: Label, m: string, ended: bool)
    ensures Turns([l], m, ended) <==>
            !(l == LeaseEnded(m) && ended) && !(l == SaidDown(m) && !ended)
            && !(l.Forked? && l.manager == m && ended) && !(l.Restarted? && l.manager == m && ended)
    ensures EndedAfter([l], m, ended) == if l == LeaseEnded(m) then true else if l == SaidDown(m) then false else ended
  {
    assert [l][1..] == [];
  }

  /** A manager that owns a pod holds its lease. */
  lemma OwnerHoldsLease(s: State, i: nat)
    requires Inv(s) && i < |s.pods|
    ensures !Expired(s, s.pods[i].manager)
  {
    RefsAt(s.pods, i);
    assert IndexOf(s, s.pods[i].manager) == RefsOf(s.pods, s.pods[i].manager);
  }

  lemma ExitTurns(s: State, info: ExitInfo, start: Start, now: int, m: string)
    requires Inv(s)
    ensures var l, ended := ExitLabels(s, info, start), Expired(s, m);
            Turns(l, m, ended) && EndedAfter(l, m, ended) == Expired(HandleExit(s, info, start, now), m)
  {
    var i := PidAt(s.pods, info.pid);
    if i < |s.pods| {
      OwnerHoldsLease(s, i);
      OneLabel(ExitLabels(s, info, start)[0], m, Expired(s, m));
      hide Turns, EndedAfter, Inv;
    }
  }

  lemma {:induction false} ExitsTurns(s: State, infos: seq<ExitInfo>, starts: seq<Start>, now: int, m: string)
    requires Inv(s) && |infos| == |starts| && FreshStarts(s.pods, starts)
    ensures var l, ended := AllExitLabels(s, infos, starts, now), Expired(s, m);
            Turns(l, m, ended) && EndedAfter(l, m, ended) == Expired(HandleExits(s, infos, starts, now), m)
    decreases |infos|
  {
    hide Inv, HandleExit, ExitLabels, Expired, Turns, EndedAfter;
    if infos == [] {
      NoLabels(m, Expired(s, m));
    } else {
      HandleExitKeeps(s, infos[0], starts[0], now);
      ExitTurns(s, infos[0], starts[0], now, m);
      var t := HandleExit(s, infos[0], starts[0], now);
      ExitsTurns(t, infos[1..], starts[1..], now, m);
      TurnsAppend(ExitLabels(s, infos[0], starts[0]), AllExitLabels(t, infos[1..], starts[1..], now), m, Expired(s, m));
    }
  }

  lemma NoLabels(m: string, ended: bool)
    ensures Turns([], m, ended) && EndedAfter([], m, ended) == ended
  {}

  /** At most one thing happened, it was in turn, and the lease changed only with it. */
  ghost predicate OneThing(s: State, l: seq<Label>, t: State, m: string) {
    && |l| <= 1
    && (l != [] ==>
          && (l[0] == LeaseEnded(m) ==> !Expired(s, m))
          && (l[0] == SaidDown(m) ==> Expired(s, m))
          && (l[0].Forked? && l[0].manager == m ==> !Expired(s, m))
          && !l[0].Restarted?)
    && Expired(t, m) ==
       (if l == [LeaseEnded(m)] then true else if l == [SaidDown(m)] then false else Expired(s, m))
  }

  lemma ForkDoesOneThing(s: State, input: ForkInput, guard: Reading, now: int, m: string)
    requires Possible(s, ForkCall(input))
    ensures OneThing(s, Labels(s, ForkCall(input), guard, now), Fork(s, input, guard, now).0, m)
  {
    hide AliasReason, TurnedDown, CreatedPid;
  }

  lemma ShutdownDoesOneThing(s: State, manager: string, alias: string, typ: Kind, killed: bool, guard: Reading,
                             now: int, m: string)
    requires Possible(s, ShutdownCall(manager, alias, typ, killed))
    ensures OneThing(s, Labels(s, ShutdownCall(manager, alias, typ, killed), guard, now),
                     Shutdown(s, manager, alias, typ, killed, now).0, m)
  {
    var t := ClearStatus(s, manager);
    StopLease(t, alias, manager, killed, now, m);
    hide StopPod, StopDockerPod, StopResult;
  }

  lemma StopLease(s: State, alias: string, manager: string, killed: bool, now: int, m: string)
    requires !Expired(s, manager)
    ensures Expired(StopPod(s, alias, manager, killed, now), m) == Expired(s, m)
    ensures Expired(StopDockerPod(s, alias, manager, killed, now), m) == Expired(s, m)
  {}

  /** Any step but the one over exits does at most one thing. */
  lemma StepDoesOneThing(s: State, e: Event, guard: Reading, now: int, m: string)
    requires Possible(s, e) && !e.ExitTick?
    ensures OneThing(s, Labels(s, e, guard, now), Step(s, e, guard, now), m)
  {
    hide Fork, Shutdown;
    match e
    case ForkCall(input) => ForkDoesOneThing(s, input, guard, now, m);
    case ShutdownCall(manager, alias, typ, killed) =>
      ShutdownDoesOneThing(s, manager, alias, typ, killed, guard, now, m);
    case _ =>
  }

  lemma StepTurns(s: State, e: Event, guard: Reading, now: int, m: string)
    requires Inv(s) && Possible(s, e)
    ensures var l, ended := Labels(s, e, guard, now), Expired(s, m);
            Turns(l, m, ended) && EndedAfter(l, m, ended) == Expired(Step(s, e, guard, now), m)
  {
    if e.ExitTick? {
      OnlyPods(s, s.(infos := []));
      ExitsTurns(s.(infos := []), s.infos, e.starts, now, m);
    } else {
      StepDoesOneThing(s, e, guard, now, m);
      hide Turns, EndedAfter, Inv, Labels, Step, Expired;
      var l := Labels(s, e, guard, now);
      if l == [] {
        NoLabels(m, Expired(s, m));
      } else {
        assert l == [l[0]];
        OneLabel(l[0], m, Expired(s, m));
      }
    }
  }

  /** The lease protocol, for every run and either reading of the alias guard: ends of a manager's lease and
      "Manager Down" answers to it take turns, and no pod of it is started in between. */
  lemma {:induction false} LeaseTakesTurns(s: State, run: seq<(Event, int)>, guard: Reading, m: string)
    requires Inv(s) && Feasible(s, run, guard)
    ensures Turns(Trace(s, run, guard), m, Expired(s, m))
    ensures EndedAfter(Trace(s, run, guard), m, Expired(s, m)) == Expired(Run(s, run, guard), m)
    decreases |run|
  {
    hide Inv, Step, Labels, Expired, Turns, EndedAfter;
    if run == [] {
      NoLabels(m, Expired(s, m));
    } else {
      var (e, now) := run[0];
      StepKeeps(s, e, guard, now);
      StepTurns(s, e, guard, now, m);
      var t := Step(s, e, guard, now);
      LeaseTakesTurns(t, run[1..], guard, m);
      TurnsAppend(Labels(s, e, guard, now), Trace(t, run[1..], guard), m, Expired(s, m));
    }
  }

  /** The label says what the manager is told: these three answers, and no other, are "Manager Down". */
  lemma SaidDownIff(s: State, input: ForkInput, alias: string, typ: Kind, killed: bool, guard: Reading, now: int)
    requires FreshPid(s.pods, input.start.pid) && Possible(s, ShutdownCall(input.pod.manager, alias, typ, killed))
    ensures var m := input.pod.manager;
            && (Fork(s, input, guard, now).1 == Echo(true, MANAGER_DOWN) <==>
                SaidDown(m) in Labels(s, ForkCall(input), guard, now))
            && (Shutdown(s, m, alias, typ, killed, now).1 == Echo(true, MANAGER_DOWN) <==>
                SaidDown(m) in Labels(s, ShutdownCall(m, alias, typ, killed), guard, now))
            && (Check(s, m, now).1 == AllDown <==> SaidDown(m) in Labels(s, CheckCall(m), guard, now))
  {
    assert MANAGER_DOWN[0] == 'M';
    assert SERV_NOT_FOUND[0] == SAME_SERV[0] == SAME_ALIAS[0] == 'S' && SERV_NO_EXE[0] == 'E';
    assert PORT_UNAVAILABLE[0] == 'P' && ALIAS_NOT_FOUND[0] == 'A' && KILL_ERROR[0] == 'K' && USR_ERROR[0] == 'U';
    assert SUCCESS[0] == 'O';
  }

  /** The other labels say what is so, too: what a check is answered is what is counted as delivered, and a create
      counted as such is one that put its pod on the list. */
  lemma {:induction false} LabelsAreSo(s: State, input: ForkInput, manager: string, exits: seq<Exit>, guard: Reading,
                                       now: int)
    requires FreshPid(s.pods, input.start.pid)
    ensures Check(s, manager, now).1 == Exits(exits) <==>
            Labels(s, CheckCall(manager), guard, now) == [Delivered(manager, exits)]
    ensures Fork(s, input, guard, now).0.pods == s.pods + [input.pod.(pid := input.start.pid)] <==>
            Labels(s, ForkCall(input), guard, now) == [Forked(input.pod.manager, input.pod.alias, input.pod.restart)]
  {
    hide AliasReason, TurnedDown;
    assert |s.pods + [input.pod.(pid := input.start.pid)]| != |s.pods|;
  }

  /** A process is started exactly when the service is there, the alias passes the guard - it is free as documented,
      taken as written -, the port is free, the lease has not ended and a host pod's executable is there.  A call
      turned down before the lease is looked at changes nothing, so it does not use up the answer "Manager Down". */
  lemma {:induction false} ForkStartsIff(s: State, input: ForkInput, guard: Reading, now: int)
    ensures var (t, echo) := Fork(s, input, guard, now);
            && (t.pods == s.pods + [input.pod.(pid := input.start.pid)] <==>
                && input.exists_ && input.portFree && (input.pod.typ == Docker || input.start.exe)
                && ((exists p :: p in s.pods && p.alias == input.pod.alias) <==> guard == AsWritten)
                && !(input.pod.manager in s.managers && s.managers[input.pod.manager].status != 0))
            && (!(t.pods == s.pods + [input.pod.(pid := input.start.pid)]) ==> t.pods == s.pods && echo.fail)
            && (echo.fail && echo.text != MANAGER_DOWN && echo.text != SERV_NO_EXE && input.start.pid > 0 ==> t == s)
  {
    var i := AliasAt(s.pods, input.pod.alias);
    assert i < |s.pods| ==> s.pods[i] in s.pods;
    assert |s.pods + [input.pod.(pid := input.start.pid)]| != |s.pods|;
    assert MANAGER_DOWN[0] == 'M' && SERV_NO_EXE[0] == 'E';
  }

  /** The reason a create is turned down for, first reason first: no such service; an alias the guard turns down, where
      the text says, as documented, whether the first pod of that alias is the caller's own or another manager's, and
      as written nothing; the port; the lease; the executable.  A create that starts a process and is answered with
      success has no text as documented; as written it carries what the guard found. */
  lemma {:induction false} ForkTellsWhy(s: State, input: ForkInput, guard: Reading, now: int, i: nat)
    requires i <= |s.pods| && (i < |s.pods| ==> s.pods[i].alias == input.pod.alias)
    requires forall k :: 0 <= k < i ==> s.pods[k].alias != input.pod.alias
    ensures var echo, taken, m := Fork(s, input, guard, now).1, i < |s.pods|, input.pod.manager;
            var whose := if !taken then "" else if s.pods[i].manager == m then "SAME SERV" else "SAME ALIAS";
            var ended := m in s.managers && s.managers[m].status != 0;
            echo ==
            if !input.exists_ then Echo(true, "SERV NOT FOUND")
            else if taken <==> guard == AsDocumented then Echo(true, if guard == AsDocumented then whose else "")
            else if !input.portFree then Echo(true, "Port Unavailable")
            else if ended then Echo(true, "Manager Down")
            else if input.pod.typ == Host && !input.start.exe then Echo(true, "EXEC NOT EXIT")
            else Echo(input.start.pid <= 0, if guard == AsDocumented then "" else whose)
  {
    FirstAlias(s.pods, input.pod.alias, i);
  }

  /** The answer to a stop: the lease, then the alias, its owner, the kill. */
  lemma {:induction false} ShutdownTellsWhy(s: State, manager: string, alias: string, typ: Kind, killed: bool, now: int,
                                            i: nat)
    requires i <= |s.pods| && (i < |s.pods| ==> s.pods[i].alias == alias)
    requires forall k :: 0 <= k < i ==> s.pods[k].alias != alias
    ensures Shutdown(s, manager, alias, typ, killed, now).1 ==
            if manager in s.managers && s.managers[manager].status != 0 then Echo(true, "Manager Down")
            else if i == |s.pods| then Echo(true, "ALIAS_NOT_FOUND")
            else if s.pods[i].manager != manager then Echo(true, "USR_ERROR")
            else if killed then Echo(false, "OK") else Echo(true, "KILL_ERROR")
  {
    FirstAlias(s.pods, alias, i);
  }

  /** A stop of the first pod of that alias succeeds exactly when it is the caller's, its process is killed and the
      caller's lease has not ended.  Exactly that pod leaves the list then; a container's leaves it even when the
      process is not killed. */
  lemma {:induction false} ShutdownStopsIff(s: State, manager: string, alias: string, typ: Kind, killed: bool, now: int)
    ensures var i, (t, echo) := AliasAt(s.pods, alias), Shutdown(s, manager, alias, typ, killed, now);
            var mine := i < |s.pods| && s.pods[i].manager == manager && !Expired(s, manager);
            && (!echo.fail <==> mine && killed)
            && t.pods == (if mine && (killed || typ == Docker) then s.pods[..i] + s.pods[i + 1..] else s.pods)
            && t.downPods == s.downPods && t.infos == s.infos
  {}

  // ---------------------------------------------------------------- the alias guard, as written

  lemma {:induction false} NoExitsHandled(s: State, infos: seq<ExitInfo>, starts: seq<Start>, now: int)
    requires s.pods == [] && |infos| == |starts|
    ensures HandleExits(s, infos, starts, now) == s && AllExitLabels(s, infos, starts, now) == []
    decreases |infos|
  {
    if infos != [] {
      NoExitsHandled(s, infos[1..], starts[1..], now);
    }
  }

  /** As written, a worker that runs nothing never starts anything: only taken aliases get past the guard. */
  lemma {:induction false} AsWrittenStartsNothing(s: State, run: seq<(Event, int)>)
    requires s.pods == [] && Feasible(s, run, AsWritten)
    ensures Run(s, run, AsWritten).pods == []
    ensures forall l :: l in Trace(s, run, AsWritten) ==> !l.Forked? && !l.Restarted?
    decreases |run|
  {
    if run != [] {
      var (e, now) := run[0];
      NothingStarted(s, e, now);
      hide Step, Labels;
      AsWrittenStartsNothing(Step(s, e, AsWritten, now), run[1..]);
    }
  }

  lemma {:induction false} NothingToStop(refs: seq<Ref>)
    ensures StopAll([], refs) == []
  {
    if refs != [] {
      NothingToStop(refs[1..]);
    }
  }

  lemma NothingStarted(s: State, e: Event, now: int)
    requires s.pods == [] && Possible(s, e)
    ensures Step(s, e, AsWritten, now).pods == []
    ensures forall l :: l in Labels(s, e, AsWritten, now) ==> !l.Forked? && !l.Restarted?
  {
    match e
    case ForkCall(input) =>
      assert TurnedDown(s, input.pod, AsWritten);
    case LeaseTick(order, limit) =>
      var m := FirstUnused(s, order, limit, now);
      if m.Some? {
        NothingToStop(s.managers[m.value].pods);
      }
    case ExitTick(starts) => NoExitsHandled(s.(infos := []), s.infos, starts, now);
    case _ =>
  }
}
