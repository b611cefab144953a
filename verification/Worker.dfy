/** The worker: the processes it runs for its managers, the exits it has to report, and the lease it gives every
    manager.  The functions are the specification, the class below performs them statement by statement. */
module Worker {
  import opened Wrappers

  datatype Kind = Host | Docker

  /** What the bookkeeping uses of a pod; `pid` is the process the pod runs in. */
  datatype Pod = Pod(pid: int, typ: Kind, service: string, alias: string, manager: string, port: int, restart: int)

  /** A pointer into the pod list, as far as it is ever followed. */
  datatype Ref = Ref(pid: int, typ: Kind)

  datatype Descriptor = Descriptor(timestamp: int, status: int, pods: seq<Ref>)

  /** A pod that is down, and a process the kernel has reported dead. */
  datatype Exit = Exit(alias: string, manager: string, exitNum: int)
  datatype ExitInfo = ExitInfo(pid: int, status: int)

  datatype State = State(pods: seq<Pod>, downPods: seq<Exit>, infos: seq<ExitInfo>, managers: map<string, Descriptor>)

  datatype Echo = Echo(fail: bool, text: string)

  const MANAGER_DOWN := "Manager Down"
  const SERV_NOT_FOUND := "SERV NOT FOUND"
  const SERV_NO_EXE := "EXEC NOT EXIT"
  const SAME_SERV := "SAME SERV"
  const SAME_ALIAS := "SAME ALIAS"
  const PORT_UNAVAILABLE := "Port Unavailable"
  const ALIAS_NOT_FOUND := "ALIAS_NOT_FOUND"
  const KILL_ERROR := "KILL_ERROR"
  const USR_ERROR := "USR_ERROR"
  const SUCCESS := "OK"

  /** What the system decides when a process is to be started: whether the executable is there, and the pid. */
  datatype Start = Start(exe: bool, pid: int)

  // ---------------------------------------------------------------- lists

  function Remove<T>(s: seq<T>, i: nat): seq<T>
    requires i < |s|
  {
    s[..i] + s[i + 1..]
  }

  /** The first pod with that pid, and with that alias. */
  function PidAt(pods: seq<Pod>, pid: int): (i: nat)
    ensures i <= |pods| && (i < |pods| ==> pods[i].pid == pid) && forall k :: 0 <= k < i ==> pods[k].pid != pid
  {
    if pods == [] || pods[0].pid == pid then 0 else 1 + PidAt(pods[1..], pid)
  }

  function AliasAt(pods: seq<Pod>, alias: string): (i: nat)
    ensures i <= |pods| && (i < |pods| ==> pods[i].alias == alias) && forall k :: 0 <= k < i ==> pods[k].alias != alias
  {
    if pods == [] || pods[0].alias == alias then 0 else 1 + AliasAt(pods[1..], alias)
  }

  /** `deletePodInManagerDescriptor` on the list. */
  function DropRef(refs: seq<Ref>, pid: int): seq<Ref> {
    if refs == [] then []
    else if refs[0].pid == pid then refs[1..]
    else [refs[0]] + DropRef(refs[1..], pid)
  }

  /** The pods a manager owns, as its descriptor should list them, and the pods of the others. */
  function RefsOf(pods: seq<Pod>, manager: string): seq<Ref> {
    if pods == [] then []
    else (if pods[0].manager == manager then [Ref(pods[0].pid, pods[0].typ)] else []) + RefsOf(pods[1..], manager)
  }

  function Others(pods: seq<Pod>, manager: string): seq<Pod> {
    if pods == [] then []
    else (if pods[0].manager == manager then [] else [pods[0]]) + Others(pods[1..], manager)
  }

  /** The exits of one manager, and of the others, in order. */
  function Of(exits: seq<Exit>, manager: string): seq<Exit> {
    if exits == [] then []
    else (if exits[0].manager == manager then [exits[0]] else []) + Of(exits[1..], manager)
  }

  function NotOf(exits: seq<Exit>, manager: string): seq<Exit> {
    if exits == [] then []
    else (if exits[0].manager == manager then [] else [exits[0]]) + NotOf(exits[1..], manager)
  }

  // ---------------------------------------------------------------- managers

  function IndexOf(s: State, manager: string): seq<Ref> {
    if manager in s.managers then s.managers[manager].pods else []
  }

  predicate Expired(s: State, manager: string) { manager in s.managers && s.managers[manager].status != 0 }

  function GetOrAddManager(s: State, manager: string, now: int): State {
    s.(managers := s.managers[manager := Descriptor(now, 0, IndexOf(s, manager))])
  }

  function UpdateManagerTimestamp(s: State, manager: string, now: int): State {
    if manager in s.managers then GetOrAddManager(s, manager, now) else s
  }

  /** `isManagerDown` answers `Expired` and clears the status. */
  function ClearStatus(s: State, manager: string): State {
    if manager in s.managers then s.(managers := s.managers[manager := s.managers[manager].(status := 0)]) else s
  }

  function DeleteInIndex(s: State, manager: string, pid: int, now: int): State {
    var t := GetOrAddManager(s, manager, now);
    t.(managers := t.managers[manager := t.managers[manager].(pods := DropRef(IndexOf(s, manager), pid))])
  }

  /** Pod `i` taken off the list and off its owner's descriptor. */
  function Dropped(s: State, i: nat, now: int): State
    requires i < |s.pods|
  {
    DeleteInIndex(s, s.pods[i].manager, s.pods[i].pid, now).(pods := Remove(s.pods, i))
  }

  // ---------------------------------------------------------------- starting and stopping

  /** The list and the owner's descriptor take the new pod at their ends. */
  function Register(s: State, pod: Pod, now: int): State {
    var t := GetOrAddManager(s, pod.manager, now);
    t.(pods := s.pods + [pod],
       managers := t.managers[pod.manager := t.managers[pod.manager].(
            pods := IndexOf(s, pod.manager) + [Ref(pod.pid, pod.typ)])])
  }

  /** `createProcess`: only a host pod needs an executable.  A failing `fork` is pid -1, and is registered. */
  predicate Started(pod: Pod, start: Start) { pod.typ == Docker || start.exe }

  function CreateProcess(s: State, pod: Pod, start: Start, now: int): State {
    if Started(pod, start) then Register(s, pod.(pid := start.pid), now) else s
  }

  function CreatedPid(pod: Pod, start: Start): int { if Started(pod, start) then start.pid else -1 }

  /** `stopPod(alias, manager)`: -2 not found, 1 another manager's, -1 not killed, 0 stopped. */
  function StopResult(s: State, alias: string, manager: string, killed: bool): int {
    var i := AliasAt(s.pods, alias);
    if i == |s.pods| then -2
    else if s.pods[i].manager != manager then 1
    else if killed then 0 else -1
  }

  function StopPod(s: State, alias: string, manager: string, killed: bool, now: int): State {
    if StopResult(s, alias, manager, killed) != 0 then s else Dropped(s, AliasAt(s.pods, alias), now)
  }

  /** `stopDockerPod(alias, manager)` forgets the pod before it knows whether the kill worked. */
  function StopDockerPod(s: State, alias: string, manager: string, killed: bool, now: int): State {
    var r := StopResult(s, alias, manager, killed);
    if r == 0 then StopPod(s, alias, manager, true, now)
    else if r == -1 then s.(pods := Remove(s.pods, AliasAt(s.pods, alias)))
    else s
  }

  // ---------------------------------------------------------------- exits

  /** The exit number of a report: -1 for a signal, the exit code otherwise. */
  function ExitNum(status: int): int {
    if status == -1 then 0
    else if 1 <= status % 128 <= 126 then -1
    else if status % 128 == 0 then status / 256
    else 0
  }

  /** One process exit taken from the queue. */
  function HandleExit(s: State, info: ExitInfo, start: Start, now: int): State {
    var i := PidAt(s.pods, info.pid);
    if i == |s.pods| then s
    else
      var pod := s.pods[i];
      var t := Dropped(s, i, now);
      if pod.restart > 0 then CreateProcess(t, pod.(restart := pod.restart - 1), start, now)
      else if pod.typ == Host then t.(downPods := t.downPods + [Exit(pod.alias, pod.manager, ExitNum(info.status))])
      else t
  }

  function HandleExits(s: State, infos: seq<ExitInfo>, starts: seq<Start>, now: int): State
    requires |infos| == |starts|
    decreases |infos|
  {
    if infos == [] then s else HandleExits(HandleExit(s, infos[0], starts[0], now), infos[1..], starts[1..], now)
  }

  /** `checkIfPodsRunning`, as intended. */
  function CheckPods(s: State, starts: seq<Start>, now: int): State
    requires |s.infos| == |starts|
  {
    HandleExits(s.(infos := []), s.infos, starts, now)
  }

  /** Stopping pods by pid, one after the other. */
  function StopByPid(pods: seq<Pod>, pid: int): seq<Pod> {
    var i := PidAt(pods, pid);
    if i < |pods| then Remove(pods, i) else pods
  }

  function StopAll(pods: seq<Pod>, refs: seq<Ref>): seq<Pod>
    decreases |refs|
  {
    if refs == [] then pods else StopAll(StopByPid(pods, refs[0].pid), refs[1..])
  }

  /** `removeManagerNotUsed` on the manager it finds: it stops what the descriptor lists, the descriptor itself is
      cleared afterwards. */
  function Expire(s: State, manager: string): State
    requires manager in s.managers
  {
    s.(pods := StopAll(s.pods, s.managers[manager].pods),
       managers := s.managers[manager := s.managers[manager].(status := -1, pods := [])])
  }

  predicate Unused(s: State, manager: string, limit: int, now: int) {
    manager in s.managers && s.managers[manager].status == 0 && now - s.managers[manager].timestamp > limit
  }

  /** The first unused manager in the order of the map. */
  function FirstUnused(s: State, order: seq<string>, limit: int, now: int): (r: Option<string>)
    ensures r.Some? ==> r.value in order && Unused(s, r.value, limit, now)
    ensures r.None? ==> forall m :: m in order ==> !Unused(s, m, limit, now)
  {
    if order == [] then None
    else if Unused(s, order[0], limit, now) then Some(order[0])
    else FirstUnused(s, order[1..], limit, now)
  }

  function RemoveManagerNotUsed(s: State, order: seq<string>, limit: int, now: int): State {
    var m := FirstUnused(s, order, limit, now);
    if limit < 0 || m.None? then s else Expire(s, m.value)
  }

  // ---------------------------------------------------------------- the calls managers make

  /** `exists` and `portFree` are what the worker finds on disk and on the network. */
  datatype ForkInput = ForkInput(pod: Pod, exists_: bool, portFree: bool, start: Start)

  /** `checkIfAliasOK`. */
  function AliasReason(s: State, manager: string, alias: string): Option<string> {
    var i := AliasAt(s.pods, alias);
    if i == |s.pods| then None
    else Some(if s.pods[i].manager == manager then SAME_SERV else SAME_ALIAS)
  }

  /** As written, the guard turns down the aliases that are free. */
  predicate TurnedDown(s: State, pod: Pod, guard: Reading) {
    AliasReason(s, pod.manager, pod.alias).None? <==> guard == AsWritten
  }

  /** Only then is the manager's lease looked at, and only then a process started. */
  predicate Admitted(s: State, input: ForkInput, guard: Reading) {
    input.exists_ && !TurnedDown(s, input.pod, guard) && input.portFree
  }

  function Fork(s: State, input: ForkInput, guard: Reading, now: int): (State, Echo) {
    if !input.exists_ then (s, Echo(true, SERV_NOT_FOUND))
    else if TurnedDown(s, input.pod, guard) then
      (s, Echo(true, if guard == AsWritten then "" else AliasReason(s, input.pod.manager, input.pod.alias).value))
    else if !input.portFree then (s, Echo(true, PORT_UNAVAILABLE))
    else if Expired(s, input.pod.manager) then (ClearStatus(s, input.pod.manager), Echo(true, MANAGER_DOWN))
    else
      var t := ClearStatus(s, input.pod.manager);
      var pid := CreatedPid(input.pod, input.start);
      // As written, the guard has left its reason behind.
      var text := if guard == AsWritten then AliasReason(s, input.pod.manager, input.pod.alias).value else "";
      (CreateProcess(t, input.pod, input.start, now),
       Echo(pid <= 0, if Started(input.pod, input.start) then text else SERV_NO_EXE))
  }

  function ShutdownText(result: int): string {
    if result == -2 then ALIAS_NOT_FOUND
    else if result == -1 then KILL_ERROR
    else if result == 0 then SUCCESS
    else USR_ERROR
  }

  function Shutdown(s: State, manager: string, alias: string, typ: Kind, killed: bool, now: int): (State, Echo) {
    var t := ClearStatus(s, manager);
    if Expired(s, manager) then (t, Echo(true, MANAGER_DOWN))
    else
      var r := StopResult(t, alias, manager, killed);
      (if typ == Host then StopPod(t, alias, manager, killed, now) else StopDockerPod(t, alias, manager, killed, now),
       Echo(r != 0, ShutdownText(r)))
  }

  datatype Checked = AllDown | Exits(exits: seq<Exit>)

  function Check(s: State, manager: string, now: int): (State, Checked) {
    var t := ClearStatus(s, manager);
    if Expired(s, manager) then (t, AllDown)
    else (UpdateManagerTimestamp(t, manager, now).(downPods := NotOf(t.downPods, manager)),
          Exits(Of(t.downPods, manager)))
  }

  // ---------------------------------------------------------------- the object

  lemma {:induction false} DropRefSplit(refs: seq<Ref>, pid: int, i: nat)
    requires i < |refs| && refs[i].pid == pid && forall k :: 0 <= k < i ==> refs[k].pid != pid
    ensures DropRef(refs, pid) == refs[..i] + refs[i + 1..]
  {
    if i > 0 {
      DropRefSplit(refs[1..], pid, i - 1);
      assert [refs[0]] + (refs[1..][..i - 1] + refs[1..][i..]) == refs[..i] + refs[i + 1..];
    }
  }

  lemma {:induction false} DropRefAbsent(refs: seq<Ref>, pid: int)
    requires forall k :: 0 <= k < |refs| ==> refs[k].pid != pid
    ensures DropRef(refs, pid) == refs
  {
    if refs != [] {
      DropRefAbsent(refs[1..], pid);
    }
  }

  lemma {:induction false} FirstPid(pods: seq<Pod>, pid: int, i: nat)
    requires i <= |pods| && (i < |pods| ==> pods[i].pid == pid) && forall k :: 0 <= k < i ==> pods[k].pid != pid
    ensures PidAt(pods, pid) == i
  {
    var j := PidAt(pods, pid);
  }

  lemma {:induction false} FirstAlias(pods: seq<Pod>, alias: string, i: nat)
    requires i <= |pods| && (i < |pods| ==> pods[i].alias == alias) && forall k :: 0 <= k < i ==> pods[k].alias != alias
    ensures AliasAt(pods, alias) == i
  {
    var j := AliasAt(pods, alias);
  }

  class WorkerNode {
    var pods: seq<Pod>
    var downPods: seq<Exit>
    var infos: seq<ExitInfo>
    var managers: map<string, Descriptor>

    constructor ()
      ensures AsState() == State([], [], [], map[])
    {
      pods, downPods, infos, managers := [], [], [], map[];
    }

    function AsState(): State
      reads this
    {
      State(pods, downPods, infos, managers)
    }

    method GetOrAdd(manager: string, now: int)
      modifies this
      ensures AsState() == GetOrAddManager(old(AsState()), manager, now)
    {
      if manager !in managers {
        managers := managers[manager := Descriptor(now, 0, [])];
        return;
      }
      managers := managers[manager := managers[manager].(timestamp := now)];
      managers := managers[manager := managers[manager].(status := 0)];
    }

    method UpdateTimestamp(manager: string, now: int)
      modifies this
      ensures AsState() == UpdateManagerTimestamp(old(AsState()), manager, now)
    {
      if manager !in managers {
        return;
      }
      managers := managers[manager := managers[manager].(timestamp := now, status := 0)];
    }

    method IsManagerDown(manager: string) returns (down: bool)
      modifies this
      ensures down == Expired(old(AsState()), manager) && AsState() == ClearStatus(old(AsState()), manager)
    {
      if manager !in managers {
        return false;
      }
      down := managers[manager].status != 0;
      managers := managers[manager := managers[manager].(status := 0)];
    }

    method DeletePodInManagerDescriptor(manager: string, pid: int)
      requires manager in managers
      modifies this
      ensures AsState() == old(AsState()).(
                managers := old(managers)[manager := old(managers[manager]).(
                  pods := DropRef(old(managers[manager].pods), pid))])
    {
      var refs := managers[manager].pods;
      var i := 0;
      while i < |refs|
        invariant i <= |refs| && forall k :: 0 <= k < i ==> refs[k].pid != pid
        invariant AsState() == old(AsState())
      {
        if refs[i].pid == pid {
          DropRefSplit(refs, pid, i);
          managers := managers[manager := managers[manager].(pods := refs[..i] + refs[i + 1..])];
          return;
        }
        i := i + 1;
      }
      DropRefAbsent(refs, pid);
      assert managers[manager].(pods := refs) == managers[manager];
    }

    method RunProcess(pod: Pod, start: Start, now: int) returns (pid: int, error: Option<string>)
      modifies this
      ensures AsState() == CreateProcess(old(AsState()), pod, start, now) && pid == CreatedPid(pod, start)
      ensures error == if Started(pod, start) then None else Some(SERV_NO_EXE)
    {
      if pod.typ == Host && !start.exe {
        return -1, Some(SERV_NO_EXE);
      }
      var running := pod.(pid := start.pid);
      pods := pods + [running];
      GetOrAdd(pod.manager, now);
      managers := managers[pod.manager := managers[pod.manager].(
        pods := managers[pod.manager].pods + [Ref(running.pid, running.typ)])];
      return start.pid, None;
    }

    method FindPid(pid: int) returns (i: nat)
      ensures i == PidAt(pods, pid)
    {
      i := 0;
      while i < |pods| && pods[i].pid != pid
        invariant i <= |pods| && forall k :: 0 <= k < i ==> pods[k].pid != pid
      {
        i := i + 1;
      }
      FirstPid(pods, pid, i);
    }

    method FindAlias(alias: string) returns (i: nat)
      ensures i == AliasAt(pods, alias)
    {
      i := 0;
      while i < |pods| && pods[i].alias != alias
        invariant i <= |pods| && forall k :: 0 <= k < i ==> pods[k].alias != alias
      {
        i := i + 1;
      }
      FirstAlias(pods, alias, i);
    }

    /** `stopHostPod(pid)` and `stopDockerPod(pid)`: the list forgets the pod, its owner's descriptor does not. */
    method StopListed(pid: int)
      modifies this
      ensures AsState() == old(AsState()).(pods := StopByPid(old(pods), pid))
    {
      var i := FindPid(pid);
      if i < |pods| {
        pods := Remove(pods, i);
      }
    }

    method StopHost(alias: string, manager: string, killed: bool, now: int) returns (res: int)
      modifies this
      ensures AsState() == StopPod(old(AsState()), alias, manager, killed, now)
      ensures res == StopResult(old(AsState()), alias, manager, killed)
    {
      var i := FindAlias(alias);
      if i == |pods| {
        return -2;
      }
      if pods[i].manager != manager {
        return 1;
      }
      if !killed {
        return -1;
      }
      GetOrAdd(manager, now);
      DeletePodInManagerDescriptor(manager, pods[i].pid);
      pods := Remove(pods, i);
      return 0;
    }

    method StopDocker(alias: string, manager: string, killed: bool, now: int) returns (res: int)
      modifies this
      ensures AsState() == StopDockerPod(old(AsState()), alias, manager, killed, now)
      ensures res == StopResult(old(AsState()), alias, manager, killed)
    {
      var i := FindAlias(alias);
      if i == |pods| {
        return -2;
      }
      if pods[i].manager != manager {
        return 1;
      }
      var pod := pods[i];
      pods := Remove(pods, i);
      if !killed {
        return -1;
      }
      GetOrAdd(manager, now);
      DeletePodInManagerDescriptor(manager, pod.pid);
      return 0;
    }

    method CheckIfAliasOK(manager: string, alias: string) returns (ok: bool, reason: string)
      ensures ok <==> AliasReason(AsState(), manager, alias).None?
      ensures !ok ==> AliasReason(AsState(), manager, alias) == Some(reason)
      ensures ok ==> reason == ""
    {
      var i := FindAlias(alias);
      if i < |pods| {
        return false, if pods[i].manager == manager then SAME_SERV else SAME_ALIAS;
      }
      return true, "";
    }

    method ExitOne(info: ExitInfo, start: Start, now: int)
      modifies this
      ensures AsState() == HandleExit(old(AsState()), info, start, now)
    {
      var i := FindPid(info.pid);
      if i == |pods| {
        return;
      }
      var pod := pods[i];
      GetOrAdd(pod.manager, now);
      DeletePodInManagerDescriptor(pod.manager, info.pid);
      pods := Remove(pods, i);
      if pod.restart > 0 {
        var pid, error := RunProcess(pod.(restart := pod.restart - 1), start, now);
      } else if pod.typ == Host {
        downPods := downPods + [Exit(pod.alias, pod.manager, ExitNum(info.status))];
      }
    }

    method CheckIfPodsRunning(starts: seq<Start>, now: int)
      requires |infos| == |starts|
      modifies this
      ensures AsState() == CheckPods(old(AsState()), starts, now)
    {
      var errorInfos := infos;
      infos := [];
      ghost var begun := AsState();
      var i := 0;
      while i < |errorInfos|
        invariant i <= |errorInfos|
        invariant HandleExits(AsState(), errorInfos[i..], starts[i..], now) ==
                  HandleExits(begun, errorInfos, starts, now)
      {
        assert errorInfos[i..][1..] == errorInfos[i + 1..] && starts[i..][1..] == starts[i + 1..];
        ExitOne(errorInfos[i], starts[i], now);
        i := i + 1;
      }
    }

    method CollectExitInformation(manager: string, now: int) returns (exits: seq<Exit>)
      modifies this
      ensures AsState() ==
              UpdateManagerTimestamp(old(AsState()), manager, now).(downPods := NotOf(old(downPods), manager))
      ensures exits == Of(old(downPods), manager)
    {
      UpdateTimestamp(manager, now);
      ghost var updated := AsState();
      exits := [];
      var i := 0;
      while i < |downPods|
        invariant 0 <= i <= |downPods| && AsState() == updated.(downPods := downPods)
        invariant exits + Of(downPods[i..], manager) == Of(old(downPods), manager)
        invariant downPods[..i] + NotOf(downPods[i..], manager) == NotOf(old(downPods), manager)
        decreases |downPods| - i
      {
        CollectNext(downPods, exits, i, manager);
        if downPods[i].manager == manager {
          exits := exits + [downPods[i]];
          downPods := Remove(downPods, i);
        } else {
          i := i + 1;
        }
      }
      assert downPods[..i] + [] == downPods && exits + [] == exits;
    }

    method ExpireOne(manager: string)
      requires manager in managers
      modifies this
      ensures AsState() == Expire(old(AsState()), manager)
    {
      var refs := managers[manager].pods;
      var i := 0;
      while i < |refs|
        invariant i <= |refs| && AsState() == old(AsState()).(pods := pods)
        invariant StopAll(pods, refs[i..]) == StopAll(old(pods), refs)
      {
        assert refs[i..][1..] == refs[i + 1..];
        StopListed(refs[i].pid);
        i := i + 1;
      }
      managers := managers[manager := managers[manager].(pods := [])];
      managers := managers[manager := managers[manager].(status := -1)];
    }

    /** At most one manager a call, the first in the order of the map. */
    method RemoveUnused(order: seq<string>, limit: int, now: int)
      requires forall m :: m in order ==> m in managers
      modifies this
      ensures AsState() == RemoveManagerNotUsed(old(AsState()), order, limit, now)
    {
      if limit < 0 {
        return;
      }
      var i := 0;
      while i < |order|
        invariant i <= |order| && AsState() == old(AsState())
        invariant FirstUnused(AsState(), order, limit, now) == FirstUnused(AsState(), order[i..], limit, now)
      {
        assert order[i..][1..] == order[i + 1..] && order[i] in order;
        var md := managers[order[i]];
        if md.status == 0 && now - md.timestamp > limit {
          ExpireOne(order[i]);
          return;
        }
        i := i + 1;
      }
    }

    // -------------------------------------------------------------- the calls managers make

    method ForkRpc(input: ForkInput, guard: Reading, now: int) returns (response: Echo)
      modifies this
      ensures (AsState(), response) == Fork(old(AsState()), input, guard, now)
    {
      if !input.exists_ {
        return Echo(true, SERV_NOT_FOUND);
      }
      var ok, text := CheckIfAliasOK(input.pod.manager, input.pod.alias);
      if ok == (guard == AsWritten) {
        return Echo(true, text);
      }
      if !input.portFree {
        return Echo(true, PORT_UNAVAILABLE);
      }
      var down := IsManagerDown(input.pod.manager);
      if down {
        return Echo(true, MANAGER_DOWN);
      }
      var pid, error := RunProcess(input.pod, input.start, now);
      if error.Some? {
        text := error.value;
      }
      return Echo(pid <= 0, text);
    }

    method ShutdownRpc(manager: string, alias: string, typ: Kind, killed: bool, now: int) returns (response: Echo)
      modifies this
      ensures (AsState(), response) == Shutdown(old(AsState()), manager, alias, typ, killed, now)
    {
      var down := IsManagerDown(manager);
      if down {
        return Echo(true, MANAGER_DOWN);
      }
      var res;
      if typ == Host {
        res := StopHost(alias, manager, killed, now);
      } else {
        res := StopDocker(alias, manager, killed, now);
      }
      return Echo(res != 0, ShutdownText(res));
    }

    method CheckRpc(manager: string, now: int) returns (response: Checked)
      modifies this
      ensures (AsState(), response) == Check(old(AsState()), manager, now)
    {
      var down := IsManagerDown(manager);
      if down {
        return AllDown;
      }
      var exits := CollectExitInformation(manager, now);
      return Exits(exits);
    }
  }

  lemma CollectNext(down: seq<Exit>, exits: seq<Exit>, i: nat, manager: string)
    requires i < |down|
    ensures down[i].manager == manager ==>
              && exits + Of(down[i..], manager) == exits + [down[i]] + Of(Remove(down, i)[i..], manager)
              && down[..i] + NotOf(down[i..], manager) == Remove(down, i)[..i] + NotOf(Remove(down, i)[i..], manager)
    ensures down[i].manager != manager ==>
              && Of(down[i..], manager) == Of(down[i + 1..], manager)
              && down[..i] + NotOf(down[i..], manager) == down[..i + 1] + NotOf(down[i + 1..], manager)
  {
    assert down[i..][1..] == down[i + 1..] == Remove(down, i)[i..] && Remove(down, i)[..i] == down[..i];
    assert down[..i + 1] == down[..i] + [down[i]];
  }
}
