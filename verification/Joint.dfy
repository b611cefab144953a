/** A manager and one of its workers, step by step: requests, replies that may get lost, process exits, restarts and
    leases that end.  What the manager believes to be alive is, or is known not to be. */
module Joint {
  import opened Wrappers
  import D = PodDescriptor
  import G = ManagerLog
  import M = Manager
  import W = Worker
  import L = Lease
  import X = Exits

  /** The worker's address, the manager's name, and which readings of the source apply. */
  datatype Setup = Setup(w: D.WorkerId, me: string, linking: Reading, guard: Reading)

  /** `select` tells `selectWorkerToCreatePod` from `createPod`. */
  datatype Request = Fork(pod: W.Pod, select: bool) | Shutdown(alias: string) | Check
  datatype Reply = Echoed(echo: M.Reply) | Reported(report: M.Report)

  /** The manager's thread waits for each call: nothing sent, a request not served yet, or its reply on the way. */
  datatype Phase = Idle | Calling(req: Request) | Replied(req: Request, reply: Reply)

  /** `live` are the processes the worker has started and that have not been seen to exit: every exit is assumed to
      reach the queue. */
  datatype State = State(m: M.State, k: W.State, live: set<int>, phase: Phase)

  datatype Event =
    | SelectPod(pod: D.Pod)
    | CreatePod(pod: D.Pod)
    | StopPod(alias: string)
    | CheckPods
    | Serve(found: bool, portFree: bool, start: W.Start, killed: bool, now: int)
    | Receive
    | Lose
    | WorkerStep(e: L.Event, now: int)
    | Elsewhere(m: M.State)

  // ---------------------------------------------------------------- steps

  /** What is sent for a pod: the manager never sets the port. */
  function Sent(pod: D.Pod, me: string): W.Pod { W.Pod(0, W.Host, pod.service, pod.alias, me, 0, pod.restart) }

  function Listed(exits: seq<W.Exit>): seq<(string, int)> {
    if exits == [] then [] else [(exits[0].alias, exits[0].exitNum)] + Listed(exits[1..])
  }

  function ToReply(echo: W.Echo): Reply { Echoed(M.Echo(echo.fail, echo.text)) }

  /** The worker's answer to a request, and its state afterwards. */
  function Served(k: W.State, req: Request, e: Event, setup: Setup): (W.State, Reply)
    requires e.Serve?
  {
    match req
    case Fork(pod, _) =>
      var (t, echo) := W.Fork(k, W.ForkInput(pod, e.found, e.portFree, e.start), setup.guard, e.now);
      (t, ToReply(echo))
    case Shutdown(alias) =>
      var (t, echo) := W.Shutdown(k, setup.me, alias, W.Host, e.killed, e.now);
      (t, ToReply(echo))
    case Check =>
      var (t, checked) := W.Check(k, setup.me, e.now);
      (t, Reported(M.Exits(if checked.AllDown? then [("*", 0)] else Listed(checked.exits))))
  }

  /** The processes a step of the worker starts. */
  function Spawned(k: W.State, req: Request, e: Event, setup: Setup): set<int>
    requires e.Serve?
  {
    if req.Fork? && W.Admitted(k, W.ForkInput(req.pod, e.found, e.portFree, e.start), setup.guard)
       && !W.Expired(k, req.pod.manager) && W.Started(req.pod, e.start)
    then {e.start.pid} else {}
  }

  function Respawned(k: W.State, infos: seq<W.ExitInfo>, starts: seq<W.Start>, now: int): set<int>
    requires |infos| == |starts|
    decreases |infos|
  {
    if infos == [] then {}
    else
      var i := W.PidAt(k.pods, infos[0].pid);
      (if i < |k.pods| && k.pods[i].restart > 0 && W.Started(k.pods[i], starts[0]) then {starts[0].pid} else {})
      + Respawned(W.HandleExit(k, infos[0], starts[0], now), infos[1..], starts[1..], now)
  }

  /** What the manager does with the answer to a call; `Lost` and `Unreachable` stand for none. */
  function Answered(m: M.State, req: Request, reply: Reply, setup: Setup): M.State
    requires reply.Echoed? <==> !req.Check?
    requires req.Fork? ==> M.Bindable(m, req.pod.alias)
    requires req.Shutdown? ==> M.Bindable(m, req.alias)
  {
    match req
    case Fork(pod, true) =>
      M.AnswerKeepsBinding(m, pod.alias, reply.echo);
      var t := M.ForkAnswer(m, pod.alias, reply.echo);
      if M.Succeeds(reply.echo) || M.IsManagerDown(reply.echo) then t else M.EraseEntry(t, pod.alias)
    case Fork(pod, false) => M.CreatePodAnswer(m, pod.alias, reply.echo, setup.linking)
    case Shutdown(alias) => M.StopAnswer(m, alias, reply.echo)
    case Check => M.CheckAnswer(m, setup.w, reply.report)
  }

  function NoAnswer(req: Request): Reply { if req.Check? then Reported(M.Unreachable) else Echoed(M.Lost) }

  /** "Manager Down" is the one answer after which the same request is sent again. */
  predicate Retried(req: Request, reply: Reply) { req.Fork? && reply.Echoed? && M.IsManagerDown(reply.echo) }

  predicate WellPhased(j: State) {
    match j.phase
    case Idle => true
    case Calling(req) => WellRequested(j.m, req)
    case Replied(req, reply) => WellRequested(j.m, req) && (reply.Echoed? <==> !req.Check?)
  }

  predicate WellRequested(m: M.State, req: Request) {
    match req
    case Fork(pod, _) => M.Bindable(m, pod.alias)
    case Shutdown(alias) => M.Bindable(m, alias)
    case Check => true
  }

  predicate Enabled(j: State, e: Event, setup: Setup) {
    match e
    case SelectPod(pod) => j.phase.Idle? && pod.alias !in j.m.pods
    case CreatePod(pod) => j.phase.Idle? && pod.alias !in j.m.pods
    case StopPod(alias) => j.phase.Idle? && alias in j.m.pods && j.m.pods[alias].worker == Some(setup.w)
    case CheckPods => j.phase.Idle? && setup.w in j.m.up
    case Serve(_, _, start, _, _) => j.phase.Calling? && FreshStart(j, start)
    case Receive => j.phase.Replied? && WellPhased(j)
    case Lose => !j.phase.Idle? && WellPhased(j)
    case WorkerStep(e', _) => WorkerMay(j, e', setup)
    case Elsewhere(m) => j.phase.Idle? && LeavesAlone(j.m, m, setup.w)
  }

  /** A new process has a pid no listed pod, no live process and no unread exit has. */
  predicate FreshStart(j: State, start: W.Start) {
    && start.pid > 0 && start.pid !in j.live && L.FreshPid(j.k.pods, start.pid)
    && forall i :: 0 <= i < |j.k.infos| ==> j.k.infos[i].pid != start.pid
  }

  /** Everything the worker does apart from serving this manager: exits, periodic passes, other managers' calls. */
  predicate WorkerMay(j: State, e: L.Event, setup: Setup) {
    && L.Possible(j.k, e)
    && match e
       case ForkCall(input) => input.pod.manager != setup.me && FreshStart(j, input.start)
       case ShutdownCall(manager, _, _, _) => manager != setup.me
       case CheckCall(manager) => manager != setup.me
       case ProcessExit(info) => info.pid in j.live
       case ExitTick(starts) =>
           (forall i :: 0 <= i < |starts| ==> FreshStart(j, starts[i])) && X.StartsApart(j.k.infos, starts)
       case LeaseTick(_, _) => true
  }

  /** What calls to other workers may do to the manager: nothing to this worker's list, and nothing to the pods on
      it but finding them dead. */
  predicate LeavesAlone(m: M.State, t: M.State, w: D.WorkerId) {
    && M.BoundTo(t, w) == M.BoundTo(m, w)
    && forall a :: a in M.BoundTo(m, w) && a in m.pods ==>
         a in t.pods && t.pods[a].worker == m.pods[a].worker && (t.pods[a].alive ==> m.pods[a].alive)
  }

  function Next(j: State, e: Event, setup: Setup): State
    requires Enabled(j, e, setup)
  {
    match e
    case SelectPod(pod) =>
      j.(m := M.Append(M.SelectBegin(j.m, pod, setup.w), G.CreateStart(pod.alias)),
         phase := Calling(Fork(Sent(pod, setup.me), true)))
    case CreatePod(pod) =>
      j.(m := M.CreatePodBegin(j.m, pod, setup.w), phase := Calling(Fork(Sent(pod, setup.me), false)))
    case StopPod(alias) =>
      j.(m := M.StopBegin(j.m, alias), phase := if j.m.pods[alias].alive then Calling(Shutdown(alias)) else Idle)
    case CheckPods => j.(phase := Calling(Check))
    case Serve(_, _, _, _, _) =>
      var req := j.phase.req;
      j.(k := Served(j.k, req, e, setup).0, live := j.live + Spawned(j.k, req, e, setup),
         phase := Replied(req, Served(j.k, req, e, setup).1))
    case Receive =>
      var req, reply := j.phase.req, j.phase.reply;
      j.(m := Answered(j.m, req, reply, setup), phase := if Retried(req, reply) then Calling(req) else Idle)
    case Lose => j.(m := Answered(j.m, j.phase.req, NoAnswer(j.phase.req), setup), phase := Idle)
    case WorkerStep(e', now) => j.(k := L.Step(j.k, e', setup.guard, now), live := LiveAfter(j, e', setup, now))
    case Elsewhere(m) => j.(m := m)
  }

  function LiveAfter(j: State, e: L.Event, setup: Setup, now: int): set<int>
    requires L.Possible(j.k, e)
  {
    match e
    case ForkCall(input) =>
      if L.Labels(j.k, e, setup.guard, now) != [] && !W.Expired(j.k, input.pod.manager)
        then j.live + {input.start.pid} else j.live
    case ProcessExit(info) => j.live - {info.pid}
    case ExitTick(starts) => j.live + Respawned(j.k.(infos := []), j.k.infos, starts, now)
    case _ => j.live
  }

  // ---------------------------------------------------------------- what is believed, and what is so

  /** The worker has a pod of that alias and owner on its list; it runs, or its exit is waiting to be read. */
  ghost predicate Recorded(k: W.State, me: string, a: string) {
    exists p :: p in k.pods && p.alias == a && p.manager == me
  }

  ghost predicate ReportWaits(k: W.State, me: string, a: string) {
    exists x :: x in k.downPods && x.alias == a && x.manager == me
  }

  ghost predicate Covered(k: W.State, me: string, a: string) {
    Recorded(k, me, a) || ReportWaits(k, me, a) || W.Expired(k, me)
  }

  /** The reply on its way makes the manager mark the pod dead. */
  predicate Tells(reply: Reply, a: string) {
    match reply
    case Echoed(echo) => M.IsManagerDown(echo)
    case Reported(Unreachable) => true
    case Reported(Exits(services)) =>
      services != [] && (services[0].0 == "*" || exists i :: 0 <= i < |services| && services[i].0 == a)
  }

  predicate Believed(m: M.State, w: D.WorkerId, a: string) {
    a in M.BoundTo(m, w) && a in m.pods && m.pods[a].alive
  }

  /** The claim: every pod on the worker's list that the manager holds alive is on the worker's own list, or its
      exit waits to be reported, or the worker holds the manager's lease as ended; or the news is on its way. */
  ghost predicate Claim(j: State, setup: Setup) {
    forall a :: Believed(j.m, setup.w, a) ==>
      Covered(j.k, setup.me, a) || (j.phase.Replied? && Tells(j.phase.reply, a))
  }

  // ---------------------------------------------------------------- the invariant

  ghost predicate Distinct(list: seq<string>) { forall i, j :: 0 <= i < j < |list| ==> list[i] != list[j] }

  ghost predicate ListSound(m: M.State, w: D.WorkerId) {
    Distinct(M.BoundTo(m, w)) && forall a :: a in M.BoundTo(m, w) ==> a in m.pods
  }

  /** What is known while a request is out. */
  ghost predicate RequestSound(m: M.State, req: Request, setup: Setup) {
    match req
    case Fork(pod, select) =>
      && pod.manager == setup.me && pod.typ == W.Host
      && pod.alias in m.pods && m.pods[pod.alias].worker == Some(setup.w)
      && (if select then !m.pods[pod.alias].alive else pod.alias !in M.BoundTo(m, setup.w))
    case Shutdown(alias) =>
      alias in m.pods && m.pods[alias].worker == Some(setup.w) && alias !in M.BoundTo(m, setup.w)
    case Check => true
  }

  ghost predicate PhaseSound(j: State, setup: Setup) {
    match j.phase
    case Idle => true
    case Calling(req) => RequestSound(j.m, req, setup)
    case Replied(req, reply) =>
      && RequestSound(j.m, req, setup) && (reply.Echoed? <==> !req.Check?)
      && (req.Fork? && M.Succeeds(reply.echo) ==> Covered(j.k, setup.me, req.pod.alias))
  }

  ghost predicate MineAreHost(k: W.State, me: string) {
    forall p :: p in k.pods && p.manager == me ==> p.typ == W.Host
  }

  ghost predicate Unread(infos: seq<W.ExitInfo>, pid: int) { exists x :: x in infos && x.pid == pid }

  /** A listed pod's process is alive, or its exit is in the queue. */
  ghost predicate Tracked(j: State) {
    forall p :: p in j.k.pods ==> p.pid in j.live || Unread(j.k.infos, p.pid)
  }

  ghost predicate Inv(j: State, setup: Setup) {
    && L.Inv(j.k) && MineAreHost(j.k, setup.me) && Tracked(j)
    && ListSound(j.m, setup.w) && PhaseSound(j, setup)
    && Claim(j, setup)
  }

  // ---------------------------------------------------------------- the manager's side

  lemma {:induction false} RemoveFirstKeeps(list: seq<string>, alias: string)
    requires Distinct(list)
    ensures Distinct(M.RemoveFirst(list, alias))
    ensures forall a :: a in M.RemoveFirst(list, alias) <==> a in list && a != alias
  {
    if list != [] {
      RemoveFirstKeeps(list[1..], alias);
      var rest := M.RemoveFirst(list[1..], alias);
      assert list[0] !in list[1..];
      assert list[0] !in rest;
    }
  }

  /** What an answer may leave believed: what was believed before and is not told dead, and a pod just created. */
  ghost predicate Follows(m: M.State, req: Request, reply: Reply, t: M.State, setup: Setup) {
    && ListSound(t, setup.w)
    && forall a :: Believed(t, setup.w, a) ==>
         || (Believed(m, setup.w, a) && !Tells(reply, a))
         || (req.Fork? && a == req.pod.alias && reply.Echoed? && M.Succeeds(reply.echo))
  }

  lemma ForkFollows(m: M.State, req: Request, reply: Reply, setup: Setup)
    requires ListSound(m, setup.w) && RequestSound(m, req, setup) && req.Fork? && reply.Echoed?
    ensures var t := Answered(m, req, reply, setup);
            Follows(m, req, reply, t, setup) && (M.IsManagerDown(reply.echo) ==> RequestSound(t, req, setup))
  {
    hide G.CreateFail, G.CreateEnd, M.RemoveFirst, Distinct;
    RemoveFirstKeeps(M.BoundTo(m, setup.w), req.pod.alias);
    if M.IsManagerDown(reply.echo) {
      assert Distinct([]) by { NoneDistinct(); }
    } else {
      DistinctMore(M.BoundTo(m, setup.w), req.pod.alias);
    }
  }

  lemma NoneDistinct()
    ensures Distinct([])
  {}

  lemma DistinctMore(list: seq<string>, alias: string)
    requires Distinct(list)
    ensures alias !in list ==> Distinct(list + [alias])
  {}

  lemma ShutdownFollows(m: M.State, req: Request, reply: Reply, setup: Setup)
    requires ListSound(m, setup.w) && RequestSound(m, req, setup) && req.Shutdown? && reply.Echoed?
    ensures Follows(m, req, reply, Answered(m, req, reply, setup), setup)
  {
    hide G.StopEnd, M.RemoveFirst, Distinct;
    RemoveFirstKeeps(M.BoundTo(m, setup.w), req.alias);
    NoneDistinct();
    RemoveFirstKeeps([], req.alias);
    DistinctMore(M.BoundTo(m, setup.w), req.alias);
  }

  lemma CheckFollows(m: M.State, reply: Reply, setup: Setup)
    requires ListSound(m, setup.w) && reply.Reported?
    ensures Follows(m, Check, reply, Answered(m, Check, reply, setup), setup)
  {
    if reply.report.Exits? {
      M.ReportKills(m, reply.report.services);
    }
    hide M.ReportDown, Distinct;
  }

  lemma AnswerFollows(m: M.State, req: Request, reply: Reply, setup: Setup)
    requires ListSound(m, setup.w) && RequestSound(m, req, setup) && (reply.Echoed? <==> !req.Check?)
    ensures var t := Answered(m, req, reply, setup);
            Follows(m, req, reply, t, setup) && (Retried(req, reply) ==> RequestSound(t, req, setup))
  {
    hide Follows, ListSound, RequestSound, Answered;
    match req
    case Fork(_, _) => ForkFollows(m, req, reply, setup);
    case Shutdown(_) => ShutdownFollows(m, req, reply, setup);
    case Check => CheckFollows(m, reply, setup);
  }

  // ---------------------------------------------------------------- the worker's side

  /** What a step of the worker must leave alone for the claim to stand. */
  ghost predicate Keeps(k: W.State, t: W.State, me: string) {
    && MineAreHost(t, me)
    && forall a :: Covered(k, me, a) ==> Covered(t, me, a)
  }

  lemma KeepsRefl(k: W.State, me: string)
    requires MineAreHost(k, me)
    ensures Keeps(k, k, me)
  {}

  lemma KeepsTrans(k: W.State, t: W.State, u: W.State, me: string)
    requires Keeps(k, t, me) && Keeps(t, u, me)
    ensures Keeps(k, u, me)
  {}

  /** An exit of one of the manager's pods that is to be restarted finds its executable. */
  predicate RestartWorks(k: W.State, info: W.ExitInfo, start: W.Start, me: string) {
    var i := W.PidAt(k.pods, info.pid);
    i < |k.pods| && k.pods[i].manager == me && k.pods[i].restart > 0 ==> start.exe
  }

  predicate RestartsWork(k: W.State, infos: seq<W.ExitInfo>, starts: seq<W.Start>, me: string, now: int)
    requires |infos| == |starts|
    decreases |infos|
  {
    infos == [] ||
    (RestartWorks(k, infos[0], starts[0], me)
     && RestartsWork(W.HandleExit(k, infos[0], starts[0], now), infos[1..], starts[1..], me, now))
  }

  lemma RemoveMember(pods: seq<W.Pod>, i: nat, p: W.Pod)
    requires i < |pods|
    ensures p in W.Remove(pods, i) ==> p in pods
    ensures p in pods && p != pods[i] ==> p in W.Remove(pods, i)
  {
    if p in pods && p != pods[i] {
      var k :| 0 <= k < |pods| && pods[k] == p;
      assert W.Remove(pods, i)[if k < i then k else k - 1] == p;
    }
  }

  /** Handling an exit changes nobody's lease. */
  lemma {:induction false} ExitLease(k: W.State, info: W.ExitInfo, start: W.Start, now: int, m: string)
    requires L.Inv(k)
    ensures W.Expired(W.HandleExit(k, info, start, now), m) == W.Expired(k, m)
  {
    hide L.Inv, W.PidAt;
    var i := W.PidAt(k.pods, info.pid);
    if i < |k.pods| {
      L.OwnerHoldsLease(k, i);
      var pod, t := k.pods[i], W.Dropped(k, i, now);
      DroppedLease(k, i, now, m);
      hide W.Dropped;
      CreatedLease(t, pod.(restart := pod.restart - 1), start, now, m);
      hide W.CreateProcess;
    }
  }

  lemma DroppedLease(k: W.State, i: nat, now: int, m: string)
    requires i < |k.pods| && !W.Expired(k, k.pods[i].manager)
    ensures W.Expired(W.Dropped(k, i, now), m) == W.Expired(k, m)
  {}

  lemma CreatedLease(k: W.State, pod: W.Pod, start: W.Start, now: int, m: string)
    requires !W.Expired(k, pod.manager)
    ensures W.Expired(W.CreateProcess(k, pod, start, now), m) == W.Expired(k, m)
  {}

  lemma {:induction false} ExitKeepsCover(k: W.State, info: W.ExitInfo, start: W.Start, now: int, me: string, a: string)
    requires MineAreHost(k, me) && RestartWorks(k, info, start, me) && W.PidAt(k.pods, info.pid) < |k.pods|
    requires Recorded(k, me, a)
    ensures var t := W.HandleExit(k, info, start, now); Recorded(t, me, a) || ReportWaits(t, me, a)
  {
    var i := W.PidAt(k.pods, info.pid);
    var pod := k.pods[i];
    X.ExitIsAnsweredOnce(k, info, start, now);
    var t := W.HandleExit(k, info, start, now);
    hide W.HandleExit, L.ExitLabels;
    var p :| p in k.pods && p.alias == a && p.manager == me;
    if p != pod {
      RemoveMember(k.pods, i, p);
      assert p in t.pods;
    } else if pod.restart > 0 {
      assert pod.(pid := start.pid, restart := pod.restart - 1) in t.pods;
    } else {
      assert pod.typ == W.Host;
      assert W.Exit(pod.alias, pod.manager, W.ExitNum(info.status)) in t.downPods;
    }
  }

  lemma {:induction false} ExitKeepsHost(k: W.State, info: W.ExitInfo, start: W.Start, now: int, me: string)
    requires MineAreHost(k, me)
    ensures var t := W.HandleExit(k, info, start, now);
            MineAreHost(t, me) && forall x :: x in k.downPods ==> x in t.downPods
  {
    var i := W.PidAt(k.pods, info.pid);
    if i < |k.pods| {
      X.ExitIsAnsweredOnce(k, info, start, now);
      var t := W.HandleExit(k, info, start, now);
      hide W.HandleExit, L.ExitLabels, W.Remove;
      forall p | p in t.pods && p.manager == me ensures p.typ == W.Host {
        RemoveMember(k.pods, i, p);
        assert k.pods[i] in k.pods;
      }
    }
  }

  lemma {:induction false} ExitKeeps(k: W.State, info: W.ExitInfo, start: W.Start, now: int, me: string)
    requires L.Inv(k) && MineAreHost(k, me) && RestartWorks(k, info, start, me)
    ensures Keeps(k, W.HandleExit(k, info, start, now), me)
  {
    var t := W.HandleExit(k, info, start, now);
    ExitKeepsHost(k, info, start, now, me);
    ExitLease(k, info, start, now, me);
    if W.PidAt(k.pods, info.pid) < |k.pods| {
      hide W.HandleExit, L.Inv, MineAreHost, RestartWorks;
      forall a | Recorded(k, me, a) ensures Recorded(t, me, a) || ReportWaits(t, me, a) {
        ExitKeepsCover(k, info, start, now, me, a);
      }
      hide Recorded;
    }
  }

  lemma {:induction false} ExitsKeep(k: W.State, infos: seq<W.ExitInfo>, starts: seq<W.Start>, now: int, me: string)
    requires L.Inv(k) && MineAreHost(k, me) && |infos| == |starts| && L.FreshStarts(k.pods, starts)
    requires RestartsWork(k, infos, starts, me, now)
    ensures Keeps(k, W.HandleExits(k, infos, starts, now), me)
    decreases |infos|
  {
    hide L.Inv, W.HandleExit, RestartWorks, Covered;
    if infos == [] {
      KeepsRefl(k, me);
    } else {
      var t := W.HandleExit(k, infos[0], starts[0], now);
      L.HandleExitKeeps(k, infos[0], starts[0], now);
      ExitKeeps(k, infos[0], starts[0], now, me);
      ExitsKeep(t, infos[1..], starts[1..], now, me);
      KeepsTrans(k, t, W.HandleExits(t, infos[1..], starts[1..], now), me);
    }
  }

  /** A step that drops only pods and reports of others, and leaves this manager's lease alone. */
  lemma DropsOthers(k: W.State, t: W.State, me: string)
    requires MineAreHost(k, me)
    requires forall p :: p in k.pods && p.manager == me ==> p in t.pods
    requires forall p :: p in t.pods && p.manager == me ==> p in k.pods
    requires forall x :: x in k.downPods && x.manager == me ==> x in t.downPods
    requires W.Expired(k, me) ==> W.Expired(t, me)
    ensures Keeps(k, t, me)
  {}

  lemma {:induction false} OthersMembers(pods: seq<W.Pod>, manager: string, p: W.Pod)
    ensures p in W.Others(pods, manager) <==> p in pods && p.manager != manager
  {
    if pods != [] {
      OthersMembers(pods[1..], manager, p);
    }
  }

  lemma {:induction false} NotOfMembers(exits: seq<W.Exit>, manager: string, x: W.Exit)
    ensures x in W.NotOf(exits, manager) <==> x in exits && x.manager != manager
    ensures x in W.Of(exits, manager) <==> x in exits && x.manager == manager
  {
    if exits != [] {
      NotOfMembers(exits[1..], manager, x);
    }
  }

  /** The end of anyone's lease, this manager's included. */
  lemma LeaseKeeps(k: W.State, manager: string, me: string)
    requires L.Inv(k) && MineAreHost(k, me) && manager in k.managers
    ensures Keeps(k, W.Expire(k, manager), me)
  {
    var t := W.Expire(k, manager);
    L.ExpiryTakesExactlyItsPods(k, manager);
    hide W.StopAll, W.Others, L.Inv;
    forall p ensures p in t.pods <==> p in k.pods && p.manager != manager {
      OthersMembers(k.pods, manager, p);
    }
    if manager != me {
      DropsOthers(k, t, me);
    }
  }

  lemma OtherForkKeeps(k: W.State, input: W.ForkInput, guard: Reading, now: int, me: string)
    requires MineAreHost(k, me) && input.pod.manager != me
    ensures Keeps(k, W.Fork(k, input, guard, now).0, me)
  {
    hide W.TurnedDown, W.AliasReason, W.CreatedPid;
    DropsOthers(k, W.Fork(k, input, guard, now).0, me);
  }

  lemma OtherShutdownKeeps(k: W.State, manager: string, alias: string, typ: W.Kind, killed: bool, now: int, me: string)
    requires MineAreHost(k, me) && manager != me
    ensures Keeps(k, W.Shutdown(k, manager, alias, typ, killed, now).0, me)
  {
    var i, t := W.AliasAt(k.pods, alias), W.Shutdown(k, manager, alias, typ, killed, now).0;
    if i < |k.pods| && k.pods[i].manager == manager {
      forall p ensures p in W.Remove(k.pods, i) ==> p in k.pods
               ensures p in k.pods && p.manager == me ==> p in W.Remove(k.pods, i) {
        RemoveMember(k.pods, i, p);
      }
    }
    hide W.Remove, W.DropRef, W.ShutdownText;
    DropsOthers(k, t, me);
  }

  lemma OtherCheckKeeps(k: W.State, manager: string, now: int, me: string)
    requires MineAreHost(k, me) && manager != me
    ensures Keeps(k, W.Check(k, manager, now).0, me)
  {
    var t := W.Check(k, manager, now).0;
    forall x ensures x in W.NotOf(k.downPods, manager) <==> x in k.downPods && x.manager != manager {
      NotOfMembers(k.downPods, manager, x);
    }
    hide W.NotOf, W.Of;
    DropsOthers(k, t, me);
  }

  lemma {:induction false} WorkerKeeps(j: State, e: L.Event, setup: Setup, now: int)
    requires L.Inv(j.k) && MineAreHost(j.k, setup.me) && WorkerMay(j, e, setup)
    requires e.ExitTick? ==> RestartsWork(j.k.(infos := []), j.k.infos, e.starts, setup.me, now)
    ensures Keeps(j.k, L.Step(j.k, e, setup.guard, now), setup.me)
  {
    hide L.Inv, MineAreHost, Keeps, W.Fork, W.Shutdown, W.Check, W.HandleExits, W.Expire, RestartsWork, L.FreshPid;
    match e
    case ForkCall(input) => OtherForkKeeps(j.k, input, setup.guard, now, setup.me);
    case ShutdownCall(manager, alias, typ, killed) =>
      OtherShutdownKeeps(j.k, manager, alias, typ, killed, now, setup.me);
    case CheckCall(manager) => OtherCheckKeeps(j.k, manager, now, setup.me);
    case ProcessExit(info) => QueueKeeps(j.k, j.k.infos + [info], setup.me);
    case ExitTick(starts) =>
      QueueKeeps(j.k, [], setup.me);
      L.OnlyPods(j.k, j.k.(infos := []));
      assert MineAreHost(j.k.(infos := []), setup.me) by { QueueHost(j.k, [], setup.me); }
      ExitsKeep(j.k.(infos := []), j.k.infos, starts, now, setup.me);
      KeepsTrans(j.k, j.k.(infos := []), L.Step(j.k, e, setup.guard, now), setup.me);
    case LeaseTick(order, limit) =>
      var m := W.FirstUnused(j.k, order, limit, now);
      KeepsRefl(j.k, setup.me);
      if m.Some? {
        LeaseKeeps(j.k, m.value, setup.me);
      }
  }

  lemma QueueHost(k: W.State, infos: seq<W.ExitInfo>, me: string)
    requires MineAreHost(k, me)
    ensures MineAreHost(k.(infos := infos), me)
  {}

  lemma QueueKeeps(k: W.State, infos: seq<W.ExitInfo>, me: string)
    requires MineAreHost(k, me)
    ensures Keeps(k, k.(infos := infos), me)
  {
    DropsOthers(k, k.(infos := infos), me);
  }

  // ---------------------------------------------------------------- serving

  /** What serving a request does to the cover: it stands, or the reply tells. */
  ghost predicate ServesWell(k: W.State, req: Request, t: W.State, reply: Reply, me: string) {
    && MineAreHost(t, me)
    && (reply.Echoed? <==> !req.Check?)
    && (forall a :: Covered(k, me, a) && !(req.Shutdown? && a == req.alias) ==> Covered(t, me, a) || Tells(reply, a))
    && (req.Fork? && M.Succeeds(reply.echo) ==> Covered(t, me, req.pod.alias))
  }

  lemma ForkServes(k: W.State, req: Request, e: Event, setup: Setup)
    requires MineAreHost(k, setup.me) && req.Fork? && e.Serve? && e.start.pid > 0
    requires req.pod.manager == setup.me && req.pod.typ == W.Host
    ensures ServesWell(k, req, Served(k, req, e, setup).0, Served(k, req, e, setup).1, setup.me)
  {
    hide W.TurnedDown, W.AliasReason;
    var t := Served(k, req, e, setup).0;
    assert forall p :: p in k.pods ==> p in t.pods;
    if t.pods != k.pods {
      assert t.pods == k.pods + [req.pod.(pid := e.start.pid)];
      assert req.pod.(pid := e.start.pid) in t.pods;
    }
  }

  lemma ShutdownServes(k: W.State, req: Request, e: Event, setup: Setup)
    requires MineAreHost(k, setup.me) && req.Shutdown? && e.Serve?
    ensures ServesWell(k, req, Served(k, req, e, setup).0, Served(k, req, e, setup).1, setup.me)
  {
    var i, t := W.AliasAt(k.pods, req.alias), Served(k, req, e, setup).0;
    if i < |k.pods| {
      forall p ensures p in W.Remove(k.pods, i) ==> p in k.pods
               ensures p in k.pods && p.alias != req.alias ==> p in W.Remove(k.pods, i) {
        RemoveMember(k.pods, i, p);
      }
    }
    hide W.Remove, W.DropRef, W.ShutdownText;
  }

  lemma {:induction false} ListedMember(exits: seq<W.Exit>, x: W.Exit)
    requires x in exits
    ensures exists i :: 0 <= i < |Listed(exits)| && Listed(exits)[i].0 == x.alias
  {
    if exits[0] == x {
      assert Listed(exits)[0].0 == x.alias;
    } else {
      ListedMember(exits[1..], x);
      var i :| 0 <= i < |Listed(exits[1..])| && Listed(exits[1..])[i].0 == x.alias;
      assert Listed(exits)[i + 1].0 == x.alias;
    }
  }

  lemma CheckServes(k: W.State, e: Event, setup: Setup)
    requires MineAreHost(k, setup.me) && e.Serve?
    ensures ServesWell(k, Check, Served(k, Check, e, setup).0, Served(k, Check, e, setup).1, setup.me)
  {
    var (t, reply) := Served(k, Check, e, setup);
    forall a | ReportWaits(k, setup.me, a) ensures Tells(reply, a) {
      var x :| x in k.downPods && x.alias == a && x.manager == setup.me;
      NotOfMembers(k.downPods, setup.me, x);
      ListedMember(W.Of(k.downPods, setup.me), x);
      hide W.Of, W.NotOf, Listed;
    }
    hide Tells, ReportWaits;
  }

  lemma RequestServes(k: W.State, req: Request, e: Event, setup: Setup)
    requires MineAreHost(k, setup.me) && e.Serve? && e.start.pid > 0
    requires req.Fork? ==> req.pod.manager == setup.me && req.pod.typ == W.Host
    ensures ServesWell(k, req, Served(k, req, e, setup).0, Served(k, req, e, setup).1, setup.me)
  {
    hide ServesWell, Served, MineAreHost;
    match req
    case Fork(_, _) => ForkServes(k, req, e, setup);
    case Shutdown(_) => ShutdownServes(k, req, e, setup);
    case Check => CheckServes(k, e, setup);
  }

  lemma ServedKeepsIndex(k: W.State, req: Request, e: Event, setup: Setup)
    requires L.Inv(k) && e.Serve? && L.FreshPid(k.pods, e.start.pid)
    ensures L.Inv(Served(k, req, e, setup).0)
  {
    hide L.Inv, L.FreshPid;
    match req
    case Fork(pod, _) =>
      L.StepKeeps(k, L.ForkCall(W.ForkInput(pod, e.found, e.portFree, e.start)), setup.guard, e.now);
    case Shutdown(alias) => L.StepKeeps(k, L.ShutdownCall(setup.me, alias, W.Host, e.killed), setup.guard, e.now);
    case Check => L.StepKeeps(k, L.CheckCall(setup.me), setup.guard, e.now);
  }

  // ---------------------------------------------------------------- processes

  ghost predicate TrackedBy(pods: seq<W.Pod>, live: set<int>, infos: seq<W.ExitInfo>) {
    forall p :: p in pods ==> p.pid in live || Unread(infos, p.pid)
  }

  lemma {:induction false} ExitTracked(k: W.State, infos: seq<W.ExitInfo>, start: W.Start, now: int, live: set<int>)
    requires L.UniquePids(k.pods) && infos != [] && TrackedBy(k.pods, live, infos)
    ensures var i := W.PidAt(k.pods, infos[0].pid);
            var more := if i < |k.pods| && k.pods[i].restart > 0 && W.Started(k.pods[i], start)
                        then {start.pid} else {};
            TrackedBy(W.HandleExit(k, infos[0], start, now).pods, live + more, infos[1..])
  {
    var i := W.PidAt(k.pods, infos[0].pid);
    var t := W.HandleExit(k, infos[0], start, now);
    if i < |k.pods| {
      X.ExitIsAnsweredOnce(k, infos[0], start, now);
      X.RemoveMembers(k.pods, i);
    }
    hide W.HandleExit, W.Remove, L.UniquePids, L.ExitLabels;
    forall p | p in k.pods && p.pid != infos[0].pid ensures p.pid in live || Unread(infos[1..], p.pid) {
      if p.pid !in live {
        var x :| x in infos && x.pid == p.pid;
        assert x in infos[1..];
      }
    }
  }

  lemma {:induction false} ExitsTracked(k: W.State, infos: seq<W.ExitInfo>, starts: seq<W.Start>, now: int,
                                        live: set<int>)
    requires L.Inv(k) && |infos| == |starts| && L.FreshStarts(k.pods, starts) && TrackedBy(k.pods, live, infos)
    ensures TrackedBy(W.HandleExits(k, infos, starts, now).pods, live + Respawned(k, infos, starts, now), [])
    decreases |infos|
  {
    hide L.Inv, W.HandleExit, TrackedBy;
    if infos == [] {
      assert live + {} == live;
    } else {
      X.UniqueOf(k);
      ExitTracked(k, infos, starts[0], now, live);
      L.HandleExitKeeps(k, infos[0], starts[0], now);
      var t, i := W.HandleExit(k, infos[0], starts[0], now), W.PidAt(k.pods, infos[0].pid);
      var more := if i < |k.pods| && k.pods[i].restart > 0 && W.Started(k.pods[i], starts[0])
                  then {starts[0].pid} else {};
      ExitsTracked(t, infos[1..], starts[1..], now, live + more);
      assert live + more + Respawned(t, infos[1..], starts[1..], now) == live + Respawned(k, infos, starts, now);
    }
  }

  /** Dropping pods, spawning the process of a new one, and exits that join the queue. */
  lemma TrackedLess(pods: seq<W.Pod>, t: seq<W.Pod>, live: set<int>, infos: seq<W.ExitInfo>)
    requires TrackedBy(pods, live, infos) && forall p :: p in t ==> p in pods
    ensures TrackedBy(t, live, infos)
  {}

  lemma ForkTracked(k: W.State, input: W.ForkInput, guard: Reading, now: int, live: set<int>)
    requires TrackedBy(k.pods, live, k.infos)
    ensures var spawned := if W.Admitted(k, input, guard) && !W.Expired(k, input.pod.manager)
                              && W.Started(input.pod, input.start)
                           then {input.start.pid} else {};
            var t := W.Fork(k, input, guard, now).0;
            TrackedBy(t.pods, live + spawned, t.infos)
  {
    hide W.TurnedDown, W.AliasReason;
  }

  lemma ShutdownTracked(k: W.State, manager: string, alias: string, typ: W.Kind, killed: bool, now: int, live: set<int>)
    requires TrackedBy(k.pods, live, k.infos)
    ensures var t := W.Shutdown(k, manager, alias, typ, killed, now).0; TrackedBy(t.pods, live, t.infos)
  {
    var i, t := W.AliasAt(k.pods, alias), W.Shutdown(k, manager, alias, typ, killed, now).0;
    if i < |k.pods| {
      forall p ensures p in W.Remove(k.pods, i) ==> p in k.pods {
        RemoveMember(k.pods, i, p);
      }
    }
    hide W.Remove, W.DropRef, W.ShutdownText, TrackedBy;
    TrackedLess(k.pods, t.pods, live, k.infos);
  }

  lemma ExitQueued(pods: seq<W.Pod>, live: set<int>, infos: seq<W.ExitInfo>, info: W.ExitInfo)
    requires TrackedBy(pods, live, infos)
    ensures TrackedBy(pods, live - {info.pid}, infos + [info])
  {
    forall p | p in pods ensures p.pid in live - {info.pid} || Unread(infos + [info], p.pid) {
      if p.pid == info.pid {
        assert info in infos + [info];
      } else if p.pid !in live {
        var x :| x in infos && x.pid == p.pid;
        assert x in infos + [info];
      }
    }
  }

  lemma WorkerTracked(j: State, e: L.Event, setup: Setup, now: int)
    requires L.Inv(j.k) && Tracked(j) && WorkerMay(j, e, setup)
    ensures var t := L.Step(j.k, e, setup.guard, now); TrackedBy(t.pods, LiveAfter(j, e, setup, now), t.infos)
  {
    assert TrackedBy(j.k.pods, j.live, j.k.infos);
    hide TrackedBy, Tracked, L.Inv, W.Fork, W.Shutdown, W.HandleExits, W.StopAll, L.FreshPid, FreshStart;
    match e
    case ForkCall(input) => ForkTracked(j.k, input, setup.guard, now, j.live);
    case ShutdownCall(manager, alias, typ, killed) => ShutdownTracked(j.k, manager, alias, typ, killed, now, j.live);
    case CheckCall(manager) =>
    case ProcessExit(info) => ExitQueued(j.k.pods, j.live, j.k.infos, info);
    case ExitTick(starts) =>
      L.OnlyPods(j.k, j.k.(infos := []));
      ExitsTracked(j.k.(infos := []), j.k.infos, starts, now, j.live);
      X.ExitsLeaveQueue(j.k.(infos := []), j.k.infos, starts, now);
    case LeaseTick(order, limit) =>
      var m := W.FirstUnused(j.k, order, limit, now);
      if m.Some? {
        L.ExpiryTakesExactlyItsPods(j.k, m.value);
        forall p ensures p in W.Others(j.k.pods, m.value) ==> p in j.k.pods {
          OthersMembers(j.k.pods, m.value, p);
        }
        hide W.Others;
        TrackedLess(j.k.pods, W.Expire(j.k, m.value).pods, j.live, j.k.infos);
      }
  }

  // ---------------------------------------------------------------- every step

  /** What the claim needs of the world: an answer "Manager Down" is not lost, and restarts find their executable. */
  predicate Benign(j: State, e: Event, setup: Setup)
    requires Enabled(j, e, setup)
  {
    match e
    case Lose => j.phase.Replied? && j.phase.reply.Echoed? ==> !M.IsManagerDown(j.phase.reply.echo)
    case WorkerStep(ExitTick(starts), now) => RestartsWork(j.k.(infos := []), j.k.infos, starts, setup.me, now)
    case _ => true
  }

  lemma BeginKeeps(j: State, e: Event, setup: Setup)
    requires Inv(j, setup) && Enabled(j, e, setup)
    requires e.SelectPod? || e.CreatePod? || e.StopPod? || e.CheckPods? || e.Elsewhere?
    ensures Inv(Next(j, e, setup), setup)
  {
    var t := Next(j, e, setup);
    BeginFollows(j, e, setup);
    hide Enabled, L.Inv, MineAreHost, Tracked, ListSound, RequestSound, Covered, Tells, Believed, LeavesAlone;
    assert t.k == j.k && t.live == j.live;
    assert Tracked(t) by { SameTracked(j, t); }
  }

  lemma SameTracked(j: State, t: State)
    requires Tracked(j) && t.k == j.k && t.live == j.live
    ensures Tracked(t)
  {}

  /** Before a call nothing new is believed, and the request is what `RequestSound` says. */
  lemma BeginFollows(j: State, e: Event, setup: Setup)
    requires ListSound(j.m, setup.w) && Enabled(j, e, setup)
    requires e.SelectPod? || e.CreatePod? || e.StopPod? || e.CheckPods? || e.Elsewhere?
    ensures var t := Next(j, e, setup);
            && t.k == j.k && t.live == j.live && !t.phase.Replied? && j.phase.Idle?
            && ListSound(t.m, setup.w)
            && (t.phase.Calling? ==> RequestSound(t.m, t.phase.req, setup))
            && forall a :: Believed(t.m, setup.w, a) ==> Believed(j.m, setup.w, a)
  {
    hide G.CreateStart, G.StopStart, M.RemoveFirst, Distinct;
    var list := M.BoundTo(j.m, setup.w);
    match e
    case SelectPod(pod) => DistinctMore(list, pod.alias);
    case StopPod(alias) =>
      RemoveFirstKeeps(list, alias);
      DistinctMore(M.RemoveFirst(list, alias), alias);
    case _ =>
  }

  lemma ServeKeeps(j: State, e: Event, setup: Setup)
    requires Inv(j, setup) && Enabled(j, e, setup) && e.Serve?
    ensures Inv(Next(j, e, setup), setup)
  {
    var t, req := Next(j, e, setup), j.phase.req;
    RequestServes(j.k, req, e, setup);
    ServedKeepsIndex(j.k, req, e, setup);
    ServedTracked(j, e, setup);
    if req.Shutdown? {
      NotBelieved(j.m, req, setup);
    }
    hide L.Inv, MineAreHost, Tracked, ListSound, RequestSound, Covered, Tells, Believed, Served, Spawned;
  }

  lemma NotBelieved(m: M.State, req: Request, setup: Setup)
    requires RequestSound(m, req, setup) && req.Shutdown?
    ensures !Believed(m, setup.w, req.alias)
  {}

  lemma ServedTracked(j: State, e: Event, setup: Setup)
    requires Tracked(j) && Enabled(j, e, setup) && e.Serve?
    ensures Tracked(Next(j, e, setup))
  {
    var t, req := Next(j, e, setup), j.phase.req;
    assert TrackedBy(j.k.pods, j.live, j.k.infos);
    hide TrackedBy, W.Fork, W.Shutdown;
    match req
    case Fork(pod, _) =>
      ForkTracked(j.k, W.ForkInput(pod, e.found, e.portFree, e.start), setup.guard, e.now, j.live);
    case Shutdown(alias) =>
      ShutdownTracked(j.k, setup.me, alias, W.Host, e.killed, e.now, j.live);
      assert j.live + {} == j.live;
    case Check =>
      assert j.live + {} == j.live;
      assert TrackedBy(t.k.pods, t.live, t.k.infos);
  }

  lemma TrackedIs(j: State)
    ensures Tracked(j) <==> TrackedBy(j.k.pods, j.live, j.k.infos)
  {}

  lemma AnswerKeeps(j: State, e: Event, setup: Setup)
    requires Inv(j, setup) && Enabled(j, e, setup) && (e.Receive? || e.Lose?) && Benign(j, e, setup)
    ensures Inv(Next(j, e, setup), setup)
  {
    var t, req := Next(j, e, setup), j.phase.req;
    var reply := if e.Receive? then j.phase.reply else NoAnswer(req);
    AnswerFollows(j.m, req, reply, setup);
    if e.Lose? {
      LostTells(j, setup);
    }
    hide L.Inv, MineAreHost, Tracked, ListSound, RequestSound, Covered, Believed, Answered, Tells, Enabled, Benign;
    assert t.k == j.k && t.live == j.live;
    assert Tracked(t) by { SameTracked(j, t); }
  }

  /** A reply that may be lost tells nothing that losing it does not tell. */
  lemma LostTells(j: State, setup: Setup)
    requires PhaseSound(j, setup) && !j.phase.Idle?
    requires j.phase.Replied? && j.phase.reply.Echoed? ==> !M.IsManagerDown(j.phase.reply.echo)
    ensures forall a :: j.phase.Replied? && Tells(j.phase.reply, a) ==> Tells(NoAnswer(j.phase.req), a)
  {}

  lemma WorkerStepKeeps(j: State, e: Event, setup: Setup)
    requires Inv(j, setup) && Enabled(j, e, setup) && e.WorkerStep? && Benign(j, e, setup)
    ensures Inv(Next(j, e, setup), setup)
  {
    var t := Next(j, e, setup);
    WorkerKeeps(j, e.e, setup, e.now);
    WorkerTracked(j, e.e, setup, e.now);
    TrackedIs(t);
    L.StepKeeps(j.k, e.e, setup.guard, e.now);
    hide L.Inv, L.Step, LiveAfter, MineAreHost, Tracked, ListSound, RequestSound, Covered, Tells, Believed, WorkerMay;
    hide Benign;
  }

  lemma StepKeeps(j: State, e: Event, setup: Setup)
    requires Inv(j, setup) && Enabled(j, e, setup) && Benign(j, e, setup)
    ensures Inv(Next(j, e, setup), setup)
  {
    hide Inv, Next, Enabled, Benign;
    match e
    case Serve(_, _, _, _, _) => ServeKeeps(j, e, setup);
    case Receive => AnswerKeeps(j, e, setup);
    case Lose => AnswerKeeps(j, e, setup);
    case WorkerStep(_, _) => WorkerStepKeeps(j, e, setup);
    case _ => BeginKeeps(j, e, setup);
  }

  // ---------------------------------------------------------------- every run

  predicate Feasible(j: State, run: seq<Event>, setup: Setup)
    decreases |run|
  {
    run == [] ||
    (Enabled(j, run[0], setup) && Benign(j, run[0], setup) && Feasible(Next(j, run[0], setup), run[1..], setup))
  }

  function Run(j: State, run: seq<Event>, setup: Setup): State
    requires Feasible(j, run, setup)
    decreases |run|
  {
    if run == [] then j else Run(Next(j, run[0], setup), run[1..], setup)
  }

  lemma {:induction false} RunKeeps(j: State, run: seq<Event>, setup: Setup)
    requires Inv(j, setup) && Feasible(j, run, setup)
    ensures Inv(Run(j, run, setup), setup)
    decreases |run|
  {
    hide Inv, Next, Enabled, Benign;
    if run != [] {
      StepKeeps(j, run[0], setup);
      RunKeeps(Next(j, run[0], setup), run[1..], setup);
    }
  }

  /** The worker runs a process for the alias and owner, or the exit of that process is still in its queue. */
  ghost predicate RunsOrExitQueued(j: State, me: string, a: string) {
    exists p :: p in j.k.pods && p.alias == a && p.manager == me && (p.pid in j.live || Unread(j.k.infos, p.pid))
  }

  function Start(up: set<D.WorkerId>): State {
    State(M.State(map[], map[], up, [], []), L.EMPTY, {}, Idle)
  }

  /** Joint safety.  Over every run of creates, stops, checks, process exits, restarts that find their executable,
      leases that end, other managers' calls and lost replies other than "Manager Down", whichever way the doubtful
      lines are read: whenever the manager's thread is
      idle, every pod on the worker's list that it holds alive runs at that worker under that alias and owner, or
      its exit is queued there, or its report waits, or the worker holds the manager's lease as ended. */
  lemma {:induction false} WhatIsBelievedIsSo(up: set<D.WorkerId>, run: seq<Event>, setup: Setup, a: string)
    requires Feasible(Start(up), run, setup)
    requires var j := Run(Start(up), run, setup); j.phase.Idle? && Believed(j.m, setup.w, a)
    ensures var j := Run(Start(up), run, setup);
            RunsOrExitQueued(j, setup.me, a) || ReportWaits(j.k, setup.me, a) || W.Expired(j.k, setup.me)
  {
    StartIsSound(up, setup);
    RunKeeps(Start(up), run, setup);
    var j := Run(Start(up), run, setup);
    hide Run, Feasible, L.Inv;
    if Recorded(j.k, setup.me, a) {
      var p :| p in j.k.pods && p.alias == a && p.manager == setup.me;
      assert RunsOrExitQueued(j, setup.me, a);
    }
  }

  lemma StartIsSound(up: set<D.WorkerId>, setup: Setup)
    ensures Inv(Start(up), setup)
  {
    L.EmptyIsValid();
    NoneDistinct();
  }

  // ---------------------------------------------------------------- where the claim fails

  /** A lost "Manager Down": what was believed stays believed, the reply tells no more. */
  lemma {:induction false} LostDownIff(j: State, setup: Setup)
    requires Inv(j, setup) && Enabled(j, Lose, setup) && j.phase.Replied? && j.phase.reply.Echoed?
    requires M.IsManagerDown(j.phase.reply.echo)
    ensures Claim(Next(j, Lose, setup), setup) <==>
            forall a :: Believed(j.m, setup.w, a) ==> Covered(j.k, setup.me, a)
  {
    var t := Next(j, Lose, setup);
    AnswerFollows(j.m, j.phase.req, NoAnswer(j.phase.req), setup);
    LostStaysBelieved(j, setup);
    hide L.Inv, Answered, ListSound, RequestSound, Covered, Believed, Tells, Enabled;
  }

  lemma LostStaysBelieved(j: State, setup: Setup)
    requires ListSound(j.m, setup.w) && PhaseSound(j, setup) && Enabled(j, Lose, setup) && !j.phase.req.Check?
    ensures forall a :: Believed(j.m, setup.w, a) ==> Believed(Next(j, Lose, setup).m, setup.w, a)
    ensures forall a :: !Tells(NoAnswer(j.phase.req), a)
  {
    hide G.CreateFail, G.StopEnd, M.RemoveFirst, Distinct;
    if j.phase.req.Fork? {
      RemoveFirstKeeps(M.BoundTo(j.m, setup.w), j.phase.req.pod.alias);
    }
  }

  lemma {:induction false} NoRefsNoPods(pods: seq<W.Pod>, me: string)
    requires W.RefsOf(pods, me) == []
    ensures forall p :: p in pods ==> p.manager != me
  {
    if pods != [] {
      NoRefsNoPods(pods[1..], me);
    }
  }

  /** A manager whose lease has ended has nothing at the worker but reports. */
  lemma EndedHasOnlyReports(k: W.State, me: string, a: string)
    requires L.Inv(k) && W.Expired(k, me)
    ensures Covered(W.ClearStatus(k, me), me, a) <==> ReportWaits(k, me, a)
  {
    assert W.IndexOf(k, me) == W.RefsOf(k.pods, me);
    NoRefsNoPods(k.pods, me);
    hide L.Inv;
  }

  /** A lost "Manager Down" is the exception: the worker has dropped the manager's pods and tells it so once.  Told
      from the state before the request is served: when the lease has ended, and the request is a stop or a create
      that gets past the guards, and the reply is lost, the claim stands exactly when every pod still listed and
      held alive already waits to be reported. */
  lemma {:induction false} LostDownAtOnceIff(j: State, e: Event, setup: Setup)
    requires Inv(j, setup) && Enabled(j, e, setup) && e.Serve? && W.Expired(j.k, setup.me)
    requires var req := j.phase.req;
             || req.Shutdown?
             || (req.Fork? && W.Admitted(j.k, W.ForkInput(req.pod, e.found, e.portFree, e.start), setup.guard))
    ensures var t := Next(j, e, setup);
            && Enabled(t, Lose, setup)
            && (Claim(Next(t, Lose, setup), setup) <==>
                forall a :: Believed(j.m, setup.w, a) ==> ReportWaits(j.k, setup.me, a))
  {
    var t := Next(j, e, setup);
    ServeKeeps(j, e, setup);
    assert t.m == j.m && t.k == W.ClearStatus(j.k, setup.me) && M.IsManagerDown(t.phase.reply.echo);
    forall a ensures Covered(t.k, setup.me, a) <==> ReportWaits(j.k, setup.me, a) {
      EndedHasOnlyReports(j.k, setup.me, a);
    }
    assert Enabled(t, Lose, setup) by { SoundIsWell(t, setup); }
    LostDownIff(t, setup);
    hide L.Inv, Covered, Believed, ReportWaits, Next, Enabled, Claim;
  }

  lemma SoundIsWell(j: State, setup: Setup)
    requires PhaseSound(j, setup) && !j.phase.Idle?
    ensures Enabled(j, Lose, setup)
  {}

  // ---------------------------------------------------------------- a run that ends in a false belief

  lemma {:induction false} RunAppend(j: State, a: seq<Event>, b: seq<Event>, setup: Setup)
    requires Feasible(j, a, setup) && Feasible(Run(j, a, setup), b, setup)
    ensures Feasible(j, a + b, setup) && Run(j, a + b, setup) == Run(Run(j, a, setup), b, setup)
    decreases |a|
  {
    hide Next, Enabled, Benign;
    if a == [] {
      assert a + b == b;
    } else {
      assert (a + b)[1..] == a[1..] + b;
      RunAppend(Next(j, a[0], setup), a[1..], b, setup);
    }
  }

  lemma RunOne(j: State, e: Event, setup: Setup)
    requires Enabled(j, e, setup) && Benign(j, e, setup)
    ensures Feasible(j, [e], setup) && Run(j, [e], setup) == Next(j, e, setup)
  {
    hide Next, Enabled, Benign;
    assert [e][1..] == [];
  }

  lemma RunThree(j: State, e1: Event, e2: Event, e3: Event, setup: Setup)
    requires Enabled(j, e1, setup) && Benign(j, e1, setup)
    requires Enabled(Next(j, e1, setup), e2, setup) && Benign(Next(j, e1, setup), e2, setup)
    requires var t := Next(Next(j, e1, setup), e2, setup); Enabled(t, e3, setup) && Benign(t, e3, setup)
    ensures Feasible(j, [e1, e2, e3], setup)
    ensures Run(j, [e1, e2, e3], setup) == Next(Next(Next(j, e1, setup), e2, setup), e3, setup)
  {
    hide Next, Enabled, Benign;
    var run := [e1, e2, e3];
    assert run[1..] == [e2, e3] && [e2, e3][1..] == [e3];
    RunOne(Next(Next(j, e1, setup), e2, setup), e3, setup);
  }

  lemma FreeAlias(pods: seq<W.Pod>, alias: string)
    requires forall p :: p in pods ==> p.alias != alias
    ensures W.AliasAt(pods, alias) == |pods|
  {
    assert forall k :: 0 <= k < |pods| ==> pods[k] in pods;
  }

  /** The three steps of a create that is served and answered. */
  function Create(pod: D.Pod, start: W.Start, now: int): seq<Event> {
    [SelectPod(pod), Serve(true, true, start, true, now), Receive]
  }

  /** The manager's side of such a create. */
  lemma {:induction false} CreateSelects(m: M.State, pod: D.Pod, setup: Setup)
    requires pod.alias !in m.pods
    ensures var begun := M.Append(M.SelectBegin(m, pod, setup.w), G.CreateStart(pod.alias));
            var t := Answered(begun, Fork(Sent(pod, setup.me), true), Echoed(M.Echo(false, "")), setup);
            && M.Bindable(begun, pod.alias)
            && M.BoundTo(t, setup.w) == M.BoundTo(m, setup.w) + [pod.alias]
            && t.pods.Keys == m.pods.Keys + {pod.alias}
            && (forall a :: a in m.pods ==> t.pods[a] == m.pods[a])
            && t.pods[pod.alias].alive && t.pods[pod.alias].worker == Some(setup.w)
  {
    hide G.CreateStart, G.CreateEnd, G.CreateFail;
    assert M.Bindable(M.Append(M.SelectBegin(m, pod, setup.w), G.CreateStart(pod.alias)), pod.alias);
  }

  /** The worker's side. */
  lemma {:induction false} CreateStarts(k: W.State, sent: W.Pod, e: Event, setup: Setup)
    requires e.Serve? && e.found && e.portFree && e.start.exe && e.start.pid > 0 && setup.guard == AsDocumented
    requires !W.Expired(k, sent.manager) && forall p :: p in k.pods ==> p.alias != sent.alias
    ensures var (t, reply) := Served(k, Fork(sent, true), e, setup);
            && reply == Echoed(M.Echo(false, "")) && Spawned(k, Fork(sent, true), e, setup) == {e.start.pid}
            && t.pods == k.pods + [sent.(pid := e.start.pid)] && t.downPods == k.downPods && t.infos == k.infos
            && sent.manager in t.managers
            && t.managers[sent.manager].timestamp == e.now && t.managers[sent.manager].status == 0
  {
    FreeAlias(k.pods, sent.alias);
  }

  /** What such a create leaves, as far as the example needs it. */
  ghost predicate Created(j: State, pod: D.Pod, start: W.Start, now: int, t: State, setup: Setup) {
    && t.phase == Idle && t.live == j.live + {start.pid}
    && t.k.pods == j.k.pods + [Sent(pod, setup.me).(pid := start.pid)]
    && t.k.downPods == j.k.downPods && t.k.infos == j.k.infos
    && setup.me in t.k.managers && t.k.managers[setup.me].timestamp == now && t.k.managers[setup.me].status == 0
    && M.BoundTo(t.m, setup.w) == M.BoundTo(j.m, setup.w) + [pod.alias]
    && t.m.pods.Keys == j.m.pods.Keys + {pod.alias}
    && (forall a :: a in j.m.pods ==> t.m.pods[a] == j.m.pods[a])
    && t.m.pods[pod.alias].alive && t.m.pods[pod.alias].worker == Some(setup.w)
  }

  lemma {:induction false} CreateWorks(j: State, pod: D.Pod, start: W.Start, now: int, setup: Setup)
    requires j.phase.Idle? && pod.alias !in j.m.pods && setup.guard == AsDocumented
    requires FreshStart(j, start) && start.exe && !W.Expired(j.k, setup.me)
    requires forall p :: p in j.k.pods ==> p.alias != pod.alias
    ensures Feasible(j, Create(pod, start, now), setup)
    ensures Created(j, pod, start, now, Run(j, Create(pod, start, now), setup), setup)
  {
    hide Answered, Served, Spawned, M.SelectBegin, M.BoundTo, W.Expired;
    var e1, e2 := SelectPod(pod), Serve(true, true, start, true, now);
    var req := Fork(Sent(pod, setup.me), true);
    CreateSelects(j.m, pod, setup);
    CreateStarts(j.k, req.pod, e2, setup);
    var j1 := Next(j, e1, setup);
    assert Enabled(j1, e2, setup) && Benign(j1, e2, setup) && j1.phase == Calling(req);
    var j2 := Next(j1, e2, setup);
    assert j2.m == j1.m && j2.phase == Replied(req, Echoed(M.Echo(false, "")));
    assert Enabled(j2, Receive, setup) && Benign(j2, Receive, setup);
    hide Enabled, Benign, M.Bindable;
    RunThree(j, e1, e2, Receive, setup);
  }

  function Plain(alias: string): D.Pod { D.Pod("s", alias, D.Host, true, None, [], [], 0, 0) }

  function TwoCreates(): seq<Event> {
    Create(Plain("a"), W.Start(true, 1), 0) + Create(Plain("b"), W.Start(true, 2), 0) }

  /** Where the two creates lead. */
  ghost predicate TwoRun(j: State, setup: Setup) {
    && j.phase.Idle? && FreshStart(j, W.Start(true, 3)) && j.k.downPods == []
    && setup.me in j.k.managers && j.k.managers[setup.me].timestamp == 0 && j.k.managers[setup.me].status == 0
    && Believed(j.m, setup.w, "a") && "b" in j.m.pods
    && j.m.pods["b"].worker == Some(setup.w) && j.m.pods["b"].alive
  }

  /** Where the first one leads. */
  ghost predicate OneRun(j: State, setup: Setup) {
    && j.phase.Idle? && j.live == {1} && j.k.infos == [] && j.k.downPods == []
    && j.k.pods == [Sent(Plain("a"), setup.me).(pid := 1)]
    && setup.me in j.k.managers && j.k.managers[setup.me].status == 0
    && j.m.pods.Keys == {"a"} && Believed(j.m, setup.w, "a")
  }

  lemma {:induction false} FirstIsCreated(up: set<D.WorkerId>, setup: Setup)
    requires setup.guard == AsDocumented
    ensures Feasible(Start(up), Create(Plain("a"), W.Start(true, 1), 0), setup)
    ensures OneRun(Run(Start(up), Create(Plain("a"), W.Start(true, 1), 0), setup), setup)
  {
    CreateWorks(Start(up), Plain("a"), W.Start(true, 1), 0, setup);
    hide Run, Feasible, Create;
  }

  lemma {:induction false} SecondIsCreated(j: State, setup: Setup)
    requires setup.guard == AsDocumented && OneRun(j, setup)
    ensures Feasible(j, Create(Plain("b"), W.Start(true, 2), 0), setup)
    ensures TwoRun(Run(j, Create(Plain("b"), W.Start(true, 2), 0), setup), setup)
  {
    assert "a"[0] != "b"[0];
    CreateWorks(j, Plain("b"), W.Start(true, 2), 0, setup);
    var t := Run(j, Create(Plain("b"), W.Start(true, 2), 0), setup);
    hide Run, Feasible, Create;
    assert "a" in M.BoundTo(j.m, setup.w) && "a" in j.m.pods;
    assert "a" in M.BoundTo(t.m, setup.w);
    hide M.BoundTo;
  }

  lemma {:induction false} TwoAreCreated(up: set<D.WorkerId>, setup: Setup)
    requires setup.guard == AsDocumented
    ensures Feasible(Start(up), TwoCreates(), setup) && TwoRun(Run(Start(up), TwoCreates(), setup), setup)
  {
    var a, b := Create(Plain("a"), W.Start(true, 1), 0), Create(Plain("b"), W.Start(true, 2), 0);
    assert TwoCreates() == a + b;
    hide *;
    FirstIsCreated(up, setup);
    SecondIsCreated(Run(Start(up), a, setup), setup);
    RunAppend(Start(up), a, b, setup);
  }

  /** The silence ends the lease, and takes the manager's pods. */
  lemma {:induction false} SilenceAtWorker(k: W.State, setup: Setup, pid: int)
    requires L.Inv(k) && setup.me in k.managers && L.FreshPid(k.pods, pid)
    requires k.managers[setup.me].timestamp == 0 && k.managers[setup.me].status == 0
    ensures L.Step(k, L.LeaseTick([setup.me], 10), setup.guard, 11) == W.Expire(k, setup.me)
    ensures var t := W.Expire(k, setup.me);
            L.FreshPid(t.pods, pid) && t.infos == k.infos && t.downPods == k.downPods && W.Expired(t, setup.me)
  {
    L.ExpiryTakesExactlyItsPods(k, setup.me);
    L.OthersPids(k.pods, setup.me, pid);
    hide W.Others, W.StopAll, L.Inv, L.FreshPid;
  }

  lemma {:induction false} SilenceEnds(j: State, setup: Setup)
    requires Inv(j, setup) && TwoRun(j, setup)
    ensures var e := WorkerStep(L.LeaseTick([setup.me], 10), 11);
            && Enabled(j, e, setup) && Benign(j, e, setup)
            && Next(j, e, setup) == j.(k := W.Expire(j.k, setup.me))
            && FreshStart(Next(j, e, setup), W.Start(true, 3)) && W.Expired(W.Expire(j.k, setup.me), setup.me)
  {
    SilenceAtWorker(j.k, setup, 3);
    hide W.Expire, L.Step, L.Inv, Claim, Tracked, ListSound, PhaseSound, MineAreHost, Believed, L.FreshPid, W.Expired;
  }

  lemma {:induction false} StopGoesOut(j: State, setup: Setup)
    requires j.phase.Idle? && ListSound(j.m, setup.w) && Believed(j.m, setup.w, "a")
    requires "b" in j.m.pods && j.m.pods["b"].worker == Some(setup.w) && j.m.pods["b"].alive
    ensures var e := StopPod("b");
            && Enabled(j, e, setup) && Benign(j, e, setup)
            && Next(j, e, setup) == j.(m := M.StopBegin(j.m, "b"), phase := Calling(Shutdown("b")))
            && Believed(M.StopBegin(j.m, "b"), setup.w, "a")
  {
    assert "a"[0] != "b"[0];
    StopKeepsOther(j.m, "b", "a", setup.w);
    hide M.StopBegin, Believed, ListSound;
  }

  function SilenceAndStop(me: string): seq<Event> {
    [WorkerStep(L.LeaseTick([me], 10), 11), StopPod("b"), Serve(true, true, W.Start(true, 3), true, 11)]
  }

  lemma {:induction false} SilenceThenStop(j: State, setup: Setup)
    requires Inv(j, setup) && TwoRun(j, setup)
    ensures Feasible(j, SilenceAndStop(setup.me), setup)
    ensures var t := Run(j, SilenceAndStop(setup.me), setup);
            Enabled(t, Lose, setup) && !Claim(Next(t, Lose, setup), setup)
  {
    var e1, e2 := WorkerStep(L.LeaseTick([setup.me], 10), 11), StopPod("b");
    var e3 := Serve(true, true, W.Start(true, 3), true, 11);
    SilenceEnds(j, setup);
    StepKeeps(j, e1, setup);
    var j1 := j.(k := W.Expire(j.k, setup.me));
    StopGoesOut(j1, setup);
    StepKeeps(j1, e2, setup);
    var j2 := j1.(m := M.StopBegin(j.m, "b"), phase := Calling(Shutdown("b")));
    assert !ReportWaits(j2.k, setup.me, "a");
    assert FreshStart(j2, e3.start) && Enabled(j2, e3, setup) && Benign(j2, e3, setup);
    hide Inv, Next, Enabled, Benign, Believed, Claim, ReportWaits, Run, Feasible, W.Expire, M.StopBegin, FreshStart;
    LostDownAtOnceIff(j2, e3, setup);
    RunThree(j, e1, e2, e3, setup);
  }

  /** A run from an empty manager and an empty worker that ends in a false belief: "a" and "b" are created, the
      manager stays silent until its lease ends, the stop of "b" is answered "Manager Down", and the answer is lost.
      The manager goes on holding "a" alive although nothing at the worker knows of it. */
  lemma {:induction false} LostDownRun(up: set<D.WorkerId>, setup: Setup) returns (run: seq<Event>)
    requires setup.guard == AsDocumented
    ensures Feasible(Start(up), run, setup) && forall e :: e in run ==> !e.Elsewhere?
    ensures var j := Run(Start(up), run, setup); Enabled(j, Lose, setup) && !Claim(Next(j, Lose, setup), setup)
  {
    NoElsewhere(setup.me);
    hide *;
    TwoAreCreated(up, setup);
    StartIsSound(up, setup);
    RunKeeps(Start(up), TwoCreates(), setup);
    SilenceThenStop(Run(Start(up), TwoCreates(), setup), setup);
    run := TwoCreates() + SilenceAndStop(setup.me);
    RunAppend(Start(up), TwoCreates(), SilenceAndStop(setup.me), setup);
  }

  lemma NoElsewhere(me: string)
    ensures forall e :: e in TwoCreates() + SilenceAndStop(me) ==> !e.Elsewhere?
  {}

  lemma {:induction false} StopKeepsOther(m: M.State, alias: string, other: string, w: D.WorkerId)
    requires M.Bindable(m, alias) && m.pods[alias].worker == Some(w) && m.pods[alias].alive
    requires ListSound(m, w) && Believed(m, w, other) && other != alias
    ensures Believed(M.StopBegin(m, alias), w, other)
  {
    RemoveFirstKeeps(M.BoundTo(m, w), alias);
    hide M.RemoveFirst, G.StopStart;
  }

  /** A restart that finds no executable loses the pod without a report: with one pod an alias, a restart keeps the
      claim for its alias exactly when the executable is there or an earlier report of that alias still waits. */
  lemma {:induction false} FailedRestartIff(k: W.State, info: W.ExitInfo, start: W.Start, now: int)
    requires L.Inv(k) && X.UniqueAliases(k.pods)
    requires var i := W.PidAt(k.pods, info.pid); i < |k.pods| && k.pods[i].restart > 0 && k.pods[i].typ == W.Host
    ensures var pod := k.pods[W.PidAt(k.pods, info.pid)];
            Covered(W.HandleExit(k, info, start, now), pod.manager, pod.alias) <==>
            start.exe || ReportWaits(k, pod.manager, pod.alias)
  {
    var i := W.PidAt(k.pods, info.pid);
    var pod, t := k.pods[i], W.HandleExit(k, info, start, now);
    L.OwnerHoldsLease(k, i);
    ExitLease(k, info, start, now, pod.manager);
    X.ExitIsAnsweredOnce(k, info, start, now);
    AliasIsGone(k.pods, i);
    hide W.HandleExit, L.Inv, L.ExitLabels, W.Remove, X.UniqueAliases, W.Expired;
    assert t.downPods == k.downPods;
    if start.exe {
      assert pod.(pid := start.pid, restart := pod.restart - 1) in t.pods;
    } else {
      assert t.pods == W.Remove(k.pods, i);
    }
  }

  lemma AliasIsGone(pods: seq<W.Pod>, i: nat)
    requires i < |pods| && X.UniqueAliases(pods)
    ensures forall p :: p in W.Remove(pods, i) ==> p.alias != pods[i].alias
  {
    var t := W.Remove(pods, i);
    forall p | p in t ensures p.alias != pods[i].alias {
      var n :| 0 <= n < |t| && t[n] == p;
      assert p == pods[if n < i then n else n + 1];
    }
  }

  // ---------------------------------------------------------------- an exit, from the worker to the manager

  lemma {:induction false} ListedAppend(exits: seq<W.Exit>, x: W.Exit)
    ensures Listed(exits + [x]) == Listed(exits) + [(x.alias, x.exitNum)]
  {
    if exits == [] {
      assert exits + [x] == [x] && [x][1..] == [];
    } else {
      assert (exits + [x])[1..] == exits[1..] + [x];
      ListedAppend(exits[1..], x);
    }
  }

  lemma {:induction false} FailedAppend(services: seq<(string, int)>, x: (string, int), known: set<string>)
    ensures M.Failed(services + [x], known) ==
            M.Failed(services, known) + if x.0 in known && x.1 != 0 then [x.0] else []
  {
    if services == [] {
      assert services + [x] == [x] && [x][1..] == [];
    } else {
      assert (services + [x])[1..] == services[1..] + [x];
      FailedAppend(services[1..], x, known);
    }
  }

  /** The worker's half: the report is the last of the answer. */
  lemma {:induction false} ExitIsReported(k: W.State, d: X.Death, pid: int, start: W.Start, now: int, e: Event,
                                          setup: Setup)
    requires L.Inv(k) && X.Proper(d) && e.Serve?
    requires var i := W.PidAt(k.pods, pid);
             i < |k.pods| && k.pods[i].typ == W.Host && k.pods[i].restart <= 0 && k.pods[i].manager == setup.me
    ensures var a, t := k.pods[W.PidAt(k.pods, pid)].alias, W.HandleExit(k, W.ExitInfo(pid, X.Status(d)), start, now);
            var told := if d.Returned? then d.code else -1;
            && (told == 0 <==> d == X.Returned(0))
            && Served(t, Check, e, setup).1 ==
               Reported(M.Exits(Listed(W.Of(k.downPods, setup.me)) + [(a, told)]))
  {
    var i, info := W.PidAt(k.pods, pid), W.ExitInfo(pid, X.Status(d));
    var pod, t := k.pods[i], W.HandleExit(k, info, start, now);
    var x := W.Exit(pod.alias, pod.manager, if d.Returned? then d.code else -1);
    X.ReportTellsCode(k, d, pid, start, now);
    ExitLease(k, info, start, now, setup.me);
    L.OwnerHoldsLease(k, i);
    hide W.HandleExit, L.Inv, X.Status, W.Of, Listed;
    X.OfAppend(k.downPods, x, setup.me);
    ListedAppend(W.Of(k.downPods, setup.me), x);
  }

  /** From a process that ended to the manager's books: a pod of the manager's that is not started again has exited,
      and the manager's next CHECK is answered.  The manager holds the pod dead, and notes it as down, behind those
      reported before it, exactly when its process did not return 0.  The answer must not begin with the alias "*",
      which the manager reads as the end of everything. */
  lemma {:induction false} ExitIsNoted(k: W.State, m: M.State, d: X.Death, pid: int, start: W.Start, now: int,
                                       e: Event, setup: Setup)
    requires L.Inv(k) && X.Proper(d) && e.Serve?
    requires var i := W.PidAt(k.pods, pid);
             && i < |k.pods| && k.pods[i].typ == W.Host && k.pods[i].restart <= 0 && k.pods[i].manager == setup.me
             && k.pods[i].alias in m.pods
             && (if W.Of(k.downPods, setup.me) == [] then k.pods[i].alias
                 else W.Of(k.downPods, setup.me)[0].alias) != "*"
    ensures var a, t := k.pods[W.PidAt(k.pods, pid)].alias, W.HandleExit(k, W.ExitInfo(pid, X.Status(d)), start, now);
            var after := Answered(m, Check, Served(t, Check, e, setup).1, setup);
            && a in after.pods && !after.pods[a].alive
            && after.down == m.down + M.Failed(Listed(W.Of(k.downPods, setup.me)), m.pods.Keys) +
                             if d == X.Returned(0) then [] else [a]
  {
    var before, a := Listed(W.Of(k.downPods, setup.me)), k.pods[W.PidAt(k.pods, pid)].alias;
    var last := (a, if d.Returned? then d.code else -1);
    FirstListed(W.Of(k.downPods, setup.me));
    hide *;
    ExitIsReported(k, d, pid, start, now, e, setup);
    FailedAppend(before, last, m.pods.Keys);
    LastListed(before, last);
    CheckBooks(m, before + [last], setup);
    RegroupDown(m.down, M.Failed(before, m.pods.Keys), if d == X.Returned(0) then [] else [a]);
  }

  lemma LastListed(services: seq<(string, int)>, last: (string, int))
    ensures var all := services + [last];
            && all[|services|] == last && all[0] == if services == [] then last else services[0]
  {}

  lemma RegroupDown(a: seq<string>, b: seq<string>, c: seq<string>)
    ensures a + (b + c) == a + b + c
  {}

  lemma FirstListed(exits: seq<W.Exit>)
    ensures Listed(exits) == [] <==> exits == []
    ensures exits != [] ==> Listed(exits)[0].0 == exits[0].alias
  {}

  lemma CheckBooks(m: M.State, services: seq<(string, int)>, setup: Setup)
    requires services != [] && services[0].0 != "*"
    ensures var t := Answered(m, Check, Reported(M.Exits(services)), setup);
            && t.pods.Keys == m.pods.Keys && t.down == m.down + M.Failed(services, m.pods.Keys)
            && forall i :: 0 <= i < |services| && services[i].0 in m.pods ==> !t.pods[services[i].0].alive
  {
    M.ReportNotesFailures(m, services);
    M.ReportKills(m, services);
    hide M.ReportDown;
  }

  // ---------------------------------------------------------------- the steps are the methods

  /** Answers one after the other, until one that does not repeat the call. */
  function AnswerAll(m: M.State, req: Request, replies: seq<M.Reply>, setup: Setup): M.State
    requires req.Fork? && M.Bindable(m, req.pod.alias) && M.Script(replies)
    decreases |replies|
  {
    var t := Answered(m, req, Echoed(replies[0]), setup);
    if |replies| == 1 then t else AnswerAll(t, req, replies[1..], setup)
  }

  lemma {:induction false} SelectAnswers(m: M.State, req: Request, replies: seq<M.Reply>, setup: Setup)
    requires req.Fork? && req.select && M.Bindable(m, req.pod.alias) && M.Script(replies)
    ensures var u := M.ForkAnswers(m, req.pod.alias, replies);
            && M.Bindable(u, req.pod.alias)
            && AnswerAll(m, req, replies, setup) ==
               if M.Succeeds(M.Last(replies)) then u else M.EraseEntry(u, req.pod.alias)
    decreases |replies|
  {
    hide G.CreateFail, G.CreateEnd, M.EraseEntry, M.AllDown;
    M.AnswersKeepBinding(m, req.pod.alias, replies);
    M.AnswerKeepsBinding(m, req.pod.alias, replies[0]);
    var t := M.ForkAnswer(m, req.pod.alias, replies[0]);
    if |replies| > 1 {
      assert M.IsManagerDown(replies[0]);
      SelectAnswers(t, req, replies[1..], setup);
    } else {
      assert M.ForkAnswers(m, req.pod.alias, replies) == t by { assert replies[1..] == []; }
    }
  }

  /** The steps of a create are, together, what the manager's methods are proved to do. */
  lemma StepsAreTheMethods(m: M.State, pod: D.Pod, replies: seq<M.Reply>, setup: Setup)
    requires M.Script(replies) && pod.alias !in m.pods
    ensures var begun := M.Append(M.SelectBegin(m, pod, setup.w), G.CreateStart(pod.alias));
            && M.Bindable(begun, pod.alias)
            && AnswerAll(begun, Fork(Sent(pod, setup.me), true), replies, setup) ==
               M.Selected(m, pod, Some(setup.w), replies)
    ensures var begun := M.CreatePodBegin(m, pod, setup.w);
            && M.Bindable(begun, pod.alias)
            && AnswerAll(begun, Fork(Sent(pod, setup.me), false), replies, setup) ==
               M.CreatePodAnswers(begun, pod.alias, replies, setup.linking)
  {
    hide G.CreateStart, M.EraseEntry, M.ForkAnswers, M.CreatePodAnswers, AnswerAll;
    var begun := M.Append(M.SelectBegin(m, pod, setup.w), G.CreateStart(pod.alias));
    SelectAnswers(begun, Fork(Sent(pod, setup.me), true), replies, setup);
    CreateAnswers(M.CreatePodBegin(m, pod, setup.w), Fork(Sent(pod, setup.me), false), replies, setup);
  }

  lemma {:induction false} CreateAnswers(m: M.State, req: Request, replies: seq<M.Reply>, setup: Setup)
    requires req.Fork? && !req.select && M.Bindable(m, req.pod.alias) && M.Script(replies)
    ensures AnswerAll(m, req, replies, setup) == M.CreatePodAnswers(m, req.pod.alias, replies, setup.linking)
    decreases |replies|
  {
    if |replies| > 1 {
      assert M.IsManagerDown(replies[0]);
      CreateAnswers(Answered(m, req, Echoed(replies[0]), setup), req, replies[1..], setup);
    }
  }

  /** A pod `selectWorkerToCreatePod` creates is on its worker's list exactly when the first answer was not
      "Manager Down": the retry empties the list the new pod had already been put on, and nothing puts it back. */
  lemma CreatedIsListedIff(m: M.State, pod: D.Pod, replies: seq<M.Reply>, w: D.WorkerId)
    requires M.Script(replies) && M.Succeeds(M.Last(replies)) && pod.alias !in m.pods
    ensures pod.alias in M.BoundTo(M.Selected(m, pod, Some(w), replies), w) <==> |replies| == 1
  {
    hide G.CreateStart, G.CreateEnd, G.CreateFail, M.EraseEntry;
    var begun := M.Append(M.SelectBegin(m, pod, w), G.CreateStart(pod.alias));
    assert M.BoundTo(begun, w) == M.BoundTo(m, w) + [pod.alias];
    assert begun.pods[pod.alias].worker == Some(w);
    ListAfterAnswers(begun, pod.alias, replies, w);
    M.AnswersKeepBinding(begun, pod.alias, replies);
    hide M.SelectBegin, M.ForkAnswers;
  }

  lemma {:induction false} ListAfterAnswers(m: M.State, alias: string, replies: seq<M.Reply>, w: D.WorkerId)
    requires M.Bindable(m, alias) && m.pods[alias].worker == Some(w) && M.Script(replies)
    ensures M.BoundTo(M.ForkAnswers(m, alias, replies), w) == if |replies| == 1 then M.BoundTo(m, w) else []
    decreases |replies|
  {
    hide G.CreateEnd, G.CreateFail;
    M.AnswerKeepsBinding(m, alias, replies[0]);
    if |replies| > 1 {
      assert M.IsManagerDown(replies[0]);
      ListAfterAnswers(M.ForkAnswer(m, alias, replies[0]), alias, replies[1..], w);
    } else {
      assert replies[1..] == [];
    }
  }

  /** A pod `createPod` creates is on that list exactly under the documented reading: as written the list gets the
      address of a local descriptor, which its destructor takes off again. */
  lemma CreatePodIsListedIff(m: M.State, pod: D.Pod, replies: seq<M.Reply>, setup: Setup)
    requires M.Script(replies) && M.Succeeds(M.Last(replies)) && pod.alias !in M.BoundTo(m, setup.w)
    ensures pod.alias in M.BoundTo(
                  M.CreatePodAnswers(M.CreatePodBegin(m, pod, setup.w), pod.alias, replies, setup.linking), setup.w)
            <==> setup.linking == AsDocumented
  {
    hide G.CreateStart, G.CreateEnd, G.CreateFail;
    var begun := M.CreatePodBegin(m, pod, setup.w);
    ListAfterCreatePod(begun, pod.alias, replies, setup);
  }

  lemma {:induction false} ListAfterCreatePod(m: M.State, alias: string, replies: seq<M.Reply>, setup: Setup)
    requires M.Bindable(m, alias) && m.pods[alias].worker == Some(setup.w) && M.Script(replies)
    requires M.Succeeds(M.Last(replies))
    requires alias !in M.BoundTo(m, setup.w)
    ensures alias in M.BoundTo(M.CreatePodAnswers(m, alias, replies, setup.linking), setup.w)
            <==> setup.linking == AsDocumented
    decreases |replies|
  {
    hide G.CreateEnd, G.CreateFail;
    if |replies| > 1 {
      assert M.IsManagerDown(replies[0]);
      ListAfterCreatePod(M.CreatePodAnswer(m, alias, replies[0], setup.linking), alias, replies[1..], setup);
    }
  }

  /** Calls to another worker are what `Elsewhere` allows: they leave this worker's list and the pods on it alone,
      except that some are found dead. */
  lemma CallsElsewhere(m: M.State, req: Request, reply: Reply, other: Setup, w: D.WorkerId)
    requires other.w != w && RequestSound(m, req, other) && (reply.Echoed? <==> !req.Check?)
    requires req.Fork? ==> req.pod.alias !in M.BoundTo(m, w)
    requires req.Shutdown? ==> req.alias !in M.BoundTo(m, w)
    ensures LeavesAlone(m, Answered(m, req, reply, other), w)
  {
    hide G.CreateEnd, G.CreateFail, G.StopEnd, M.RemoveFirst;
    if req.Check? {
      CheckElsewhere(m, reply, other, w);
      hide M.CheckAnswer, LeavesAlone;
    }
  }

  lemma CheckElsewhere(m: M.State, reply: Reply, other: Setup, w: D.WorkerId)
    requires reply.Reported?
    ensures LeavesAlone(m, M.CheckAnswer(m, other.w, reply.report), w)
  {
    if reply.report.Exits? {
      M.ReportKills(m, reply.report.services);
    }
    hide M.ReportDown;
  }

  lemma BeginsElsewhere(m: M.State, pod: D.Pod, other: D.WorkerId, w: D.WorkerId)
    requires other != w && pod.alias !in M.BoundTo(m, w)
    ensures pod.alias !in m.pods ==>
              LeavesAlone(m, M.SelectBegin(m, pod, other), w) && LeavesAlone(m, M.CreatePodBegin(m, pod, other), w)
    ensures pod.alias in m.pods && m.pods[pod.alias].worker == Some(other) ==>
              LeavesAlone(m, M.StopBegin(m, pod.alias), w)
  {
    hide M.RemoveFirst;
  }
}
