/** Services that own a group of pods, and the two queues that retry what failed: starting missing pods and
    stopping pods that would not stop.  Creating or stopping a pod is an oracle, one answer an attempt. */
module ServiceRetry {
  import opened Wrappers
  import opened Sublists

  datatype ServiceStatus = Prepare | Ready | Hung | Close

  const SIZE_T := 0x1_0000_0000_0000_0000

  /** `num_ - pods_.size()`: an `int` minus a `size_t` is an unsigned 64-bit subtraction. */
  function UnsignedSub(num: int, size: nat): nat { (num - size) % SIZE_T }

  // ---------------------------------------------------------------- restart arithmetic

  /** The guard of the restart loop, `i` an `int`. */
  predicate GuardHolds(num: int, size: nat, i: int) { i < UnsignedSub(num, size) }

  /** No `int` ends the loop exactly when the service already holds more pods than it wants: the bound has wrapped
      round to a huge number then. */
  lemma {:induction false} GuardWrapsIff(num: int, size: nat)
    requires 0 <= num < 0x8000_0000 && size < 0x8000_0000_0000_0000
    ensures (forall i {:trigger GuardHolds(num, size, i)} :: 0 <= i < 0x8000_0000 ==> GuardHolds(num, size, i))
            <==> size > num
  {
    if size <= num {
      assert !GuardHolds(num, size, num - size);
    } else {
      assert UnsignedSub(num, size) == num - size + SIZE_T;
    }
  }

  /** The pods after the restart loop: attempt `i` adds its pod when it succeeds, and the bound shrinks with it. */
  function Restarted(pods: seq<string>, num: int, i: nat, oracle: nat -> Option<string>): (after: seq<string>)
    ensures pods <= after
    decreases num - |pods| - i
  {
    if i < num - |pods| then
      Restarted(pods + (if oracle(i).Some? then [oracle(i).value] else []), num, i + 1, oracle)
    else pods
  }

  lemma RestartNext(pods: seq<string>, num: int, i: nat, oracle: nat -> Option<string>)
    requires |pods| <= num < SIZE_T && i < UnsignedSub(num, |pods|)
    ensures i < num - |pods|
    ensures var next := if oracle(i).Some? then pods + [oracle(i).value] else pods;
            |next| <= num && Restarted(pods, num, i, oracle) == Restarted(next, num, i + 1, oracle)
  {
    assert pods + [] == pods;
  }

  lemma RestartDone(pods: seq<string>, num: int, i: nat, oracle: nat -> Option<string>)
    requires |pods| <= num < SIZE_T && i >= UnsignedSub(num, |pods|)
    ensures Restarted(pods, num, i, oracle) == pods
  {}

  /** How many attempts that loop makes. */
  function Attempts(pods: seq<string>, num: int, i: nat, oracle: nat -> Option<string>): nat
    decreases num - |pods| - i
  {
    if i < num - |pods| then
      1 + Attempts(pods + (if oracle(i).Some? then [oracle(i).value] else []), num, i + 1, oracle)
    else 0
  }

  /** The loop never overshoots, keeps the pods it had, and attempts plus successes end at the deficit or one past
      it; so with attempts that all fail it tries the whole deficit, with attempts that all succeed half of it. */
  lemma {:induction false} RestartBudget(pods: seq<string>, num: int, i: nat, oracle: nat -> Option<string>)
    requires i <= num - |pods|
    ensures var after, n := Restarted(pods, num, i, oracle), Attempts(pods, num, i, oracle);
            && |after| <= num
            && num - |pods| - i <= n + (|after| - |pods|) <= num - |pods| - i + (if i < num - |pods| then 1 else 0)
    decreases num - |pods| - i
  {
    if i < num - |pods| {
      var next := pods + if oracle(i).Some? then [oracle(i).value] else [];
      if i + 1 <= num - |next| {
        RestartBudget(next, num, i + 1, oracle);
      }
    }
  }

  /** The attempts from number `i` on. */
  function From(i: nat, n: nat): seq<nat>
    decreases n
  {
    if n == 0 then [] else [i] + From(i + 1, n - 1)
  }

  function Gives(oracle: nat -> Option<string>): nat -> bool { (i: nat) => oracle(i).Some? }

  function Given(oracle: nat -> Option<string>): nat -> string {
    (i: nat) => if oracle(i).Some? then oracle(i).value else ""
  }

  lemma BehindBoth(pods: seq<string>, head: seq<string>, after: seq<string>)
    requires pods + head <= after
    ensures after[|pods|..] == head + after[|pods + head|..] && after[..|pods|] == pods
  {}

  /** The pods that join are those of the attempts that succeeded, in order, behind the pods there were. */
  lemma {:induction false} RestartAddsSuccesses(pods: seq<string>, num: int, i: nat, oracle: nat -> Option<string>)
    ensures var after := Restarted(pods, num, i, oracle);
            && after[..|pods|] == pods
            && Collects(after[|pods|..], From(i, Attempts(pods, num, i, oracle)), Gives(oracle), Given(oracle))
    decreases num - |pods| - i
  {
    hide Collects;
    if i < num - |pods| {
      var head := if oracle(i).Some? then [oracle(i).value] else [];
      var n, after := Attempts(pods, num, i, oracle), Restarted(pods, num, i, oracle);
      assert after == Restarted(pods + head, num, i + 1, oracle) && n == 1 + Attempts(pods + head, num, i + 1, oracle);
      RestartAddsSuccesses(pods + head, num, i + 1, oracle);
      var rest := after[|pods + head|..];
      assert From(i, n) == [i] + From(i + 1, n - 1) && From(i, n)[1..] == From(i + 1, n - 1);
      assert head == if Gives(oracle)(i) then [Given(oracle)(i)] else [];
      hide From, Gives, Given, Restarted, Attempts;
      CollectsMore(rest, From(i, n), Gives(oracle), Given(oracle));
      BehindBoth(pods, head, after);
    } else {
      assert pods[|pods|..] == [];
      CollectsNone(Gives(oracle), Given(oracle));
    }
  }

  ghost predicate AllSucceed(oracle: nat -> Option<string>) { forall i: nat :: oracle(i).Some? }

  lemma {:induction false} HalfIsStarted(pods: seq<string>, num: int, i: nat, oracle: nat -> Option<string>)
    requires i <= num - |pods| && AllSucceed(oracle)
    ensures |Restarted(pods, num, i, oracle)| == |pods| + (num - |pods| - i + 1) / 2
    decreases num - |pods| - i
  {
    if i < num - |pods| {
      var next := pods + [oracle(i).value];
      if i + 1 <= num - |next| {
        HalfIsStarted(next, num, i + 1, oracle);
      }
    }
  }

  /** Half, rounded up. */
  function HalfUp(d: nat): nat { (d + 1) / 2 }

  /** Binary digits of the deficit. */
  function BitLength(n: nat): nat { if n == 0 then 0 else 1 + BitLength(n / 2) }

  function DeficitAfter(d: nat, calls: nat): nat
    decreases calls
  {
    if calls == 0 then d else DeficitAfter(d - HalfUp(d), calls - 1)
  }

  /** When creations succeed, exactly bit-length(deficit) calls make a service ready: it is not ready earlier. */
  lemma {:induction false} ReadyAfterBitLengthCalls(d: nat, calls: nat)
    ensures DeficitAfter(d, calls) == 0 <==> calls >= BitLength(d)
    decreases calls
  {
    if calls > 0 {
      assert d - (d + 1) / 2 == d / 2;
      ReadyAfterBitLengthCalls(d / 2, calls - 1);
    }
  }

  /** The pods after some calls of the restart loop. */
  function AfterCalls(pods: seq<string>, num: int, oracle: nat -> Option<string>, calls: nat): seq<string>
    decreases calls
  {
    if calls == 0 then pods else AfterCalls(Restarted(pods, num, 0, oracle), num, oracle, calls - 1)
  }

  /** So a service all of whose creations succeed is complete after `calls` calls exactly when they are at least the
      binary digits of what was missing. */
  lemma {:induction false} CompleteAfterIff(pods: seq<string>, num: int, oracle: nat -> Option<string>, calls: nat)
    requires |pods| <= num && AllSucceed(oracle)
    ensures |AfterCalls(pods, num, oracle, calls)| <= num
    ensures num - |AfterCalls(pods, num, oracle, calls)| == DeficitAfter(num - |pods|, calls)
    ensures |AfterCalls(pods, num, oracle, calls)| == num <==> calls >= BitLength(num - |pods|)
    decreases calls
  {
    hide Restarted, BitLength, AllSucceed;
    if calls > 0 {
      HalfIsStarted(pods, num, 0, oracle);
      CompleteAfterIff(Restarted(pods, num, 0, oracle), num, oracle, calls - 1);
    }
    ReadyAfterBitLengthCalls(num - |pods|, calls);
  }

  /** The pods a stop pass leaves: those whose stop failed, in order. */
  function Unstopped(pods: seq<string>, oracle: string -> bool): seq<string> {
    if pods == [] then []
    else (if oracle(pods[0]) then [] else [pods[0]]) + Unstopped(pods[1..], oracle)
  }

  function Fails(oracle: string -> bool): string -> bool { (pod: string) => !oracle(pod) }

  /** It leaves exactly the pods whose stop failed, each as often as before, in order. */
  lemma {:induction false} UnstoppedFailed(pods: seq<string>, oracle: string -> bool)
    ensures Sublist(Unstopped(pods, oracle), pods, Fails(oracle))
    ensures forall p :: multiset(Unstopped(pods, oracle))[p] == if oracle(p) then 0 else multiset(pods)[p]
  {
    hide Collects;
    UnstoppedIsSublist(pods, oracle);
    forall p ensures multiset(Unstopped(pods, oracle))[p] == if oracle(p) then 0 else multiset(pods)[p] {
      SublistCounts(Unstopped(pods, oracle), pods, Fails(oracle), p);
    }
  }

  lemma {:induction false} UnstoppedIsSublist(pods: seq<string>, oracle: string -> bool)
    ensures Sublist(Unstopped(pods, oracle), pods, Fails(oracle))
  {
    hide Collects;
    if pods == [] {
      CollectsNone(Fails(oracle), Itself<string>());
    } else {
      UnstoppedIsSublist(pods[1..], oracle);
      CollectsMore(Unstopped(pods[1..], oracle), pods, Fails(oracle), Itself());
    }
  }

  lemma StopNext(pods: seq<string>, k: nat, oracle: string -> bool)
    requires k < |pods|
    ensures var kept := pods[..k] + pods[k + 1..];
            pods[..k] + Unstopped(pods[k..], oracle) ==
            if oracle(pods[k]) then kept[..k] + Unstopped(kept[k..], oracle)
            else pods[..k + 1] + Unstopped(pods[k + 1..], oracle)
  {
    var kept := pods[..k] + pods[k + 1..];
    assert pods[k..][1..] == pods[k + 1..] == kept[k..] && kept[..k] == pods[..k];
    assert pods[..k + 1] == pods[..k] + [pods[k]];
  }

  class ServiceDescriptor {
    const token: string
    const num: int
    var pods: seq<string>
    var status: ServiceStatus

    constructor (token: string, pods: seq<string>, num: int)
      ensures this.token == token && this.num == num && this.pods == pods
      ensures status == if |pods| == num then Ready else Prepare
    {
      this.token, this.num, this.pods := token, num, pods;
      status := if |pods| == num then Ready else Prepare;
    }

    ghost predicate Valid()
      reads this
    {
      |pods| <= num < 0x8000_0000
    }

    function Deficit(): nat
      requires Valid()
      reads this
    {
      num - |pods|
    }

    method RestartFailedPods(oracle: nat -> Option<string>) returns (started: int)
      requires Valid()
      modifies this
      ensures Valid() && pods == Restarted(old(pods), num, 0, oracle)
      ensures started == |pods| - |old(pods)| == old(Deficit()) - Deficit() >= 0
      ensures AllSucceed(oracle) ==> started == HalfUp(old(Deficit()))
      ensures status == if old(Deficit()) != 0 && Deficit() == 0 then Ready else old(status)
    {
      RestartBudget(pods, num, 0, oracle);
      if |pods| == num {
        return 0;
      }
      if AllSucceed(oracle) {
        HalfIsStarted(pods, num, 0, oracle);
      }
      var size := |pods|;
      hide Restarted, AllSucceed, UnsignedSub;
      var i := 0;
      while i < UnsignedSub(num, |pods|)
        invariant 0 <= i && Valid()
        invariant Restarted(pods, num, i, oracle) == Restarted(old(pods), num, 0, oracle)
        invariant status == old(status)
        decreases num - |pods| - i
      {
        RestartNext(pods, num, i, oracle);
        var res := oracle(i);
        if res.Some? {
          pods := pods + [res.value];
        }
        i := i + 1;
      }
      RestartDone(pods, num, i, oracle);
      if num == |pods| {
        status := Ready;
      }
      return |pods| - size;
    }

    method StopPodsInService(oracle: string -> bool)
      modifies this
      ensures pods == Unstopped(old(pods), oracle)
      ensures status == if pods == [] then Close else Hung
    {
      var k := 0;
      while k < |pods|
        invariant 0 <= k <= |pods|
        invariant pods[..k] + Unstopped(pods[k..], oracle) == Unstopped(old(pods), oracle)
        decreases |pods| - k
      {
        StopNext(pods, k, oracle);
        if oracle(pods[k]) {
          pods := pods[..k] + pods[k + 1..];
        } else {
          k := k + 1;
        }
      }
      assert pods[..k] == pods;
      status := if pods == [] then Close else Hung;
    }
  }

  // ---------------------------------------------------------------- retry queue

  /** One tick on the waiting list of (token, deficit): the first is retried, `started` pods come up, and it
      leaves if it is ready, or else goes to the back. */
  function Tick(list: seq<(string, nat)>, started: nat): seq<(string, nat)> {
    if list == [] then []
    else if started >= list[0].1 then list[1..]
    else list[1..] + [(list[0].0, list[0].1 - started)]
  }

  function Ticks(list: seq<(string, nat)>, started: seq<nat>): seq<(string, nat)>
    decreases |started|
  {
    if started == [] then list else Ticks(Tick(list, started[0]), started[1..])
  }

  /** Whatever the creations do, the service p places from the front is the one tried after exactly p ticks, so
      every waiting service is tried within the length of the list. */
  lemma {:induction false} EveryServiceIsTried(list: seq<(string, nat)>, p: nat, started: seq<nat>)
    requires p < |list| && |started| == p
    ensures Ticks(list, started) != [] && Ticks(list, started)[0] == list[p]
    decreases p
  {
    if p > 0 {
      assert Tick(list, started[0])[p - 1] == list[p];
      EveryServiceIsTried(Tick(list, started[0]), p - 1, started[1..]);
    }
  }

  lemma TickOfFront(token: string, deficit: nat, others: seq<(string, nat)>, started: nat)
    requires started <= deficit
    ensures Tick([(token, deficit)] + others, started) ==
            if started == deficit then others else others + [(token, deficit - started)]
  {}

  /** Ticks in which every creation succeeds. */
  function FairTicks(list: seq<(string, nat)>, n: nat): seq<(string, nat)>
    decreases n
  {
    if n == 0 then list
    else if list == [] then []
    else FairTicks(Tick(list, HalfUp(list[0].1)), n - 1)
  }

  /** The measure: digits of all deficits together. */
  function Work(list: seq<(string, nat)>): nat {
    if list == [] then 0 else BitLength(list[0].1) + Work(list[1..])
  }

  lemma {:induction false} WorkAppend(a: seq<(string, nat)>, b: seq<(string, nat)>)
    ensures Work(a + b) == Work(a) + Work(b)
  {
    if a == [] {
      assert a + b == b;
    } else {
      assert (a + b)[1..] == a[1..] + b;
      WorkAppend(a[1..], b);
    }
  }

  predicate Waiting(list: seq<(string, nat)>) { forall i :: 0 <= i < |list| ==> list[i].1 > 0 }

  lemma OneDigitLess(d: nat)
    requires d > 0
    ensures HalfUp(d) <= d && BitLength(d - HalfUp(d)) == BitLength(d) - 1 && (HalfUp(d) == d <==> d == 1)
  {
    assert d - HalfUp(d) == d / 2;
  }

  lemma {:induction false} TickDoesOneUnit(list: seq<(string, nat)>)
    requires list != [] && Waiting(list)
    ensures Work(Tick(list, HalfUp(list[0].1))) == Work(list) - 1
    ensures Waiting(Tick(list, HalfUp(list[0].1)))
  {
    var d := list[0].1;
    OneDigitLess(d);
    hide HalfUp;
    if d == 1 {
      assert BitLength(0) == 0;
    } else {
      var back := [(list[0].0, d - HalfUp(d))];
      WorkAppend(list[1..], back);
      assert back[1..] == [];
      hide BitLength;
    }
  }

  /** With creations that succeed the queue drains after exactly the digits of all deficits together. */
  lemma {:induction false} QueueDrains(list: seq<(string, nat)>, n: nat)
    requires Waiting(list)
    ensures FairTicks(list, n) == [] <==> n >= Work(list)
    decreases n
  {
    if n > 0 && list != [] {
      TickDoesOneUnit(list);
      QueueDrains(Tick(list, HalfUp(list[0].1)), n - 1);
    } else if list != [] {
      assert BitLength(list[0].1) > 0;
    }
  }

  lemma {:induction false} BitLengthMonotone(a: nat, b: nat)
    requires a <= b
    ensures BitLength(a) <= BitLength(b)
    decreases a
  {
    if a > 0 {
      BitLengthMonotone(a / 2, b / 2);
    }
  }

  /** So n services with deficits up to `most` are all ready within n times bit-length(most) ticks. */
  lemma {:induction false} ReadyWithin(list: seq<(string, nat)>, most: nat)
    requires Waiting(list) && forall i :: 0 <= i < |list| ==> list[i].1 <= most
    ensures Work(list) <= |list| * BitLength(most)
    ensures FairTicks(list, |list| * BitLength(most)) == []
  {
    forall i | 0 <= i < |list| ensures BitLength(list[i].1) <= BitLength(most) {
      BitLengthMonotone(list[i].1, most);
    }
    WorkBound(list, BitLength(most));
    QueueDrains(list, |list| * BitLength(most));
  }

  lemma {:induction false} WorkBound(list: seq<(string, nat)>, bits: nat)
    requires forall i :: 0 <= i < |list| ==> BitLength(list[i].1) <= bits
    ensures Work(list) <= |list| * bits
  {
    if list != [] {
      WorkBound(list[1..], bits);
      OneMore(|list| - 1, bits);
    }
  }

  lemma OneMore(n: nat, bits: nat)
    ensures (n + 1) * bits == n * bits + bits
  {}

  // ---------------------------------------------------------------- the two queues

  /** The services there are, and those waiting to be started or stopped, by token. */
  datatype Queues = Queues(known: set<string>, starting: seq<string>, ending: seq<string>)

  /** `createService`, `deleteService`, and the two halves of the periodic tick, with what came of them. */
  datatype Event =
    | Create(token: string, complete: bool)
    | Delete(token: string, closed: bool)
    | StartTick(ready: bool)
    | EndTick(closed: bool)

  function Other(token: string): string -> bool { (t: string) => t != token }

  function Forget(q: Queues, token: string): Queues {
    Queues(q.known - {token}, Chosen(q.starting, Other(token)), Chosen(q.ending, Other(token)))
  }

  function Step(q: Queues, e: Event): Queues {
    match e
    case Create(token, complete) =>
      q.(known := q.known + {token}, starting := q.starting + if complete then [] else [token])
    case Delete(token, closed) =>
      if token !in q.known then q else if closed then Forget(q, token) else q.(ending := q.ending + [token])
    case StartTick(ready) =>
      if q.starting == [] then q
      else q.(starting := q.starting[1..] + if ready then [] else [q.starting[0]])
    case EndTick(closed) =>
      if q.ending == [] then q
      else if closed then Forget(q, q.ending[0])
      else q.(ending := q.ending[1..] + [q.ending[0]])
  }

  /** The service a step starts or stops pods of. */
  function Tried(q: Queues, e: Event): Option<string> {
    match e
    case Create(_, _) => None
    case Delete(token, _) => if token in q.known then Some(token) else None
    case StartTick(_) => if q.starting == [] then None else Some(q.starting[0])
    case EndTick(_) => if q.ending == [] then None else Some(q.ending[0])
  }

  /** It closes that service. */
  predicate Closes(q: Queues, e: Event) { (e.Delete? || e.EndTick?) && e.closed && Tried(q, e).Some? }

  function Run(q: Queues, run: seq<Event>): Queues
    decreases |run|
  {
    if run == [] then q else Run(Step(q, run[0]), run[1..])
  }

  /** The lists hold pointers into the map; every one of them points at a service that is there. */
  ghost predicate Pointing(q: Queues) {
    && (forall t :: t in q.starting ==> t in q.known)
    && (forall t :: t in q.ending ==> t in q.known)
  }

  lemma {:induction false} ForgetForgets(q: Queues, token: string)
    ensures var t := Forget(q, token);
            && (forall x :: x in t.known <==> x in q.known && x != token)
            && (forall x :: x in t.starting <==> x in q.starting && x != token)
            && (forall x :: x in t.ending <==> x in q.ending && x != token)
  {
    ChosenIsSublist(q.starting, Other(token));
    ChosenIsSublist(q.ending, Other(token));
    hide Sublist, Chosen;
    forall x
      ensures x in Chosen(q.starting, Other(token)) <==> x in q.starting && x != token
      ensures x in Chosen(q.ending, Other(token)) <==> x in q.ending && x != token
    {
      SublistCounts(Chosen(q.starting, Other(token)), q.starting, Other(token), x);
      SublistCounts(Chosen(q.ending, Other(token)), q.ending, Other(token), x);
    }
  }

  lemma StepPoints(q: Queues, e: Event)
    requires Pointing(q)
    ensures Pointing(Step(q, e))
  {
    if Closes(q, e) {
      ForgetForgets(q, Tried(q, e).value);
    }
    hide Forget;
  }

  /** No list ever keeps a pointer to a service that was removed. */
  lemma {:induction false} ListsAlwaysPoint(q: Queues, run: seq<Event>)
    requires Pointing(q)
    ensures Pointing(Run(q, run))
    decreases |run|
  {
    hide Step, Pointing;
    if run != [] {
      StepPoints(q, run[0]);
      ListsAlwaysPoint(Step(q, run[0]), run[1..]);
    }
  }

  ghost predicate Absent(q: Queues, token: string) {
    token !in q.known && token !in q.starting && token !in q.ending
  }

  lemma StaysAbsent(q: Queues, e: Event, token: string)
    requires Absent(q, token) && !(e.Create? && e.token == token)
    ensures Absent(Step(q, e), token) && Tried(q, e) != Some(token)
  {
    if Closes(q, e) {
      ForgetForgets(q, Tried(q, e).value);
    }
    hide Forget;
  }

  lemma {:induction false} AbsentIsNeverTried(q: Queues, run: seq<Event>, token: string, k: nat)
    requires Absent(q, token) && k < |run| && forall i :: 0 <= i <= k ==> run[i] != Create(token, true)
    requires forall i :: 0 <= i <= k ==> run[i] != Create(token, false)
    ensures Tried(Run(q, run[..k]), run[k]) != Some(token)
    decreases k
  {
    hide Step, Absent, Tried;
    StaysAbsent(q, run[0], token);
    if k > 0 {
      AbsentIsNeverTried(Step(q, run[0]), run[1..], token, k - 1);
      assert run[..k][1..] == run[1..][..k - 1] && run[1..][k - 1] == run[k];
    } else {
      assert run[..0] == [];
    }
  }

  /** Once a service is closed, no later step starts or stops pods of it, until one of its name is created. */
  lemma {:induction false} ClosedIsNeverTried(q: Queues, e: Event, run: seq<Event>, token: string, k: nat)
    requires Closes(q, e) && Tried(q, e) == Some(token)
    requires k < |run| && forall i :: 0 <= i <= k ==> !(run[i].Create? && run[i].token == token)
    ensures Absent(Step(q, e), token)
    ensures Tried(Run(Step(q, e), run[..k]), run[k]) != Some(token)
  {
    ForgetForgets(q, token);
    assert Absent(Step(q, e), token);
    AbsentIsNeverTried(Step(q, e), run, token, k);
  }

  function Times(list: seq<string>, x: string): nat { multiset(list)[x] }

  /** What a step may do to the books of a service: a create makes it known, and waiting unless it is complete; a
      tick that makes it ready ends its waiting, a stop that fails puts it on the other list, and closing it, and
      nothing else, takes it out of everything. */
  ghost predicate Books(q: Queues, e: Event, x: string, t: Queues) {
    var mine, gone := Tried(q, e) == Some(x), Closes(q, e) && Tried(q, e) == Some(x);
    && (x in t.known <==> (x in q.known && !gone) || (e.Create? && e.token == x))
    && Times(t.starting, x) ==
       (if gone then 0
        else Times(q.starting, x) + (if e == Create(x, false) then 1 else 0)
             - (if mine && e == StartTick(true) then 1 else 0))
    && Times(t.ending, x) ==
       (if gone then 0 else Times(q.ending, x) + (if mine && e == Delete(x, false) then 1 else 0))
  }

  /** So no step touches a service but the one it creates or tries. */
  lemma {:induction false} StepBooks(q: Queues, e: Event, x: string)
    ensures Books(q, e, x, Step(q, e))
  {
    hide *;
    match e
    case Create(token, complete) => CreateBooks(q, token, complete, x);
    case Delete(token, closed) => DeleteBooks(q, token, closed, x);
    case StartTick(ready) => StartBooks(q, ready, x);
    case EndTick(closed) => EndBooks(q, closed, x);
  }

  lemma CreateBooks(q: Queues, token: string, complete: bool, x: string)
    ensures Books(q, Create(token, complete), x, Step(q, Create(token, complete)))
  {
    MoreCounts(q.starting, token, x);
    hide Times, Forget;
  }

  lemma DeleteBooks(q: Queues, token: string, closed: bool, x: string)
    ensures Books(q, Delete(token, closed), x, Step(q, Delete(token, closed)))
  {
    MoreCounts(q.ending, token, x);
    ForgetBooks(q, token, x);
    hide Times, Forget;
  }

  lemma StartBooks(q: Queues, ready: bool, x: string)
    ensures Books(q, StartTick(ready), x, Step(q, StartTick(ready)))
  {
    if q.starting != [] {
      FrontCounts(q.starting, x);
    }
    hide Times, Forget;
  }

  lemma EndBooks(q: Queues, closed: bool, x: string)
    ensures Books(q, EndTick(closed), x, Step(q, EndTick(closed)))
  {
    if q.ending != [] {
      FrontCounts(q.ending, x);
      ForgetBooks(q, q.ending[0], x);
    }
    hide Times, Forget;
  }

  lemma MoreCounts(list: seq<string>, token: string, x: string)
    ensures Times(list + [token], x) == Times(list, x) + if token == x then 1 else 0
    ensures list + [] == list
  {}

  lemma ForgetBooks(q: Queues, token: string, x: string)
    ensures var t := Forget(q, token);
            && (x in t.known <==> x in q.known && x != token)
            && Times(t.starting, x) == (if x == token then 0 else Times(q.starting, x))
            && Times(t.ending, x) == (if x == token then 0 else Times(q.ending, x))
  {
    ChosenCounts(q.starting, Other(token), x);
    ChosenCounts(q.ending, Other(token), x);
  }

  lemma FrontCounts(list: seq<string>, x: string)
    requires list != []
    ensures Times(list, x) == (if list[0] == x then 1 else 0) + Times(list[1..], x)
    ensures Times(list[1..] + [list[0]], x) == Times(list, x)
    ensures Times(list[1..] + [], x) == Times(list[1..], x)
  {
    assert list == [list[0]] + list[1..];
  }

  class ServiceManager {
    var services: map<string, ServiceDescriptor>
    var startList: seq<ServiceDescriptor>
    var endList: seq<ServiceDescriptor>

    constructor ()
      ensures services == map[] && startList == [] && endList == []
    {
      services, startList, endList := map[], [], [];
    }

    ghost function AsQueues(): Queues
      reads this
    {
      Queues(services.Keys, Tokens(startList), Tokens(endList))
    }

    /** Every service is filed under its token. */
    ghost predicate Keyed()
      reads this
    {
      forall t :: t in services ==> services[t].token == t
    }

    /** Every waiting service is short of pods and not yet ready, and the list holds no service twice. */
    ghost predicate Valid()
      reads this, set s | s in startList
    {
      AllShort(startList) && Distinct(startList)
    }

    /** The pass over the first waiting service leaves the others as they are. */
    method RetryFront(oracle: nat -> Option<string>) returns (serv: ServiceDescriptor)
      requires Valid() && startList != []
      modifies startList[0]
      ensures serv == startList[0] && serv.Valid()
      ensures serv.pods == Restarted(old(startList[0].pods), serv.num, 0, oracle)
      ensures |serv.pods| - |old(startList[0].pods)| == old(startList[0].Deficit()) - serv.Deficit() >= 0
      ensures AllSucceed(oracle) ==> |serv.pods| - |old(startList[0].pods)| == HalfUp(old(startList[0].Deficit()))
      ensures serv.status == Ready <==> serv.Deficit() == 0
      ensures AllShort(startList[1..]) && Waits(startList[1..]) == old(Waits(startList[1..]))
    {
      hide Restarted, AllSucceed;
      serv := startList[0];
      var started := serv.RestartFailedPods(oracle);
    }

    /** A ready service leaves the list, any other goes to its back. */
    method Rotate(serv: ServiceDescriptor)
      requires startList != [] && serv == startList[0] && serv.Valid()
      requires (serv.status == Ready <==> serv.Deficit() == 0)
      requires AllShort(startList[1..]) && Distinct(startList)
      modifies this
      ensures services == old(services) && endList == old(endList)
      ensures AsQueues() == Step(old(AsQueues()), StartTick(|serv.pods| == serv.num))
      ensures AllShort(startList) && Distinct(startList)
      ensures Waits(startList) ==
              old(Waits(startList[1..])) + if serv.Deficit() == 0 then [] else [(serv.token, serv.Deficit())]
    {
      hide Waits, AllShort, Distinct;
      ghost var rest := startList[1..];
      RotatedQueues(AsQueues(), startList);
      hide Step, Tokens;
      RotateDistinct(startList);
      WaitsAppend(rest, serv);
      if serv.status == Ready {
        startList := startList[1..];
      } else {
        startList := startList + [startList[0]];
        startList := startList[1..];
        assert startList == rest + [serv];
      }
    }

    method StartFailedPod(oracle: nat -> Option<string>)
      requires Valid()
      modifies this, if startList == [] then {} else {startList[0]}
      ensures Valid()
      ensures services == old(services) && endList == old(endList)
      ensures old(startList) == [] ==> startList == []
      ensures old(startList) != [] ==>
                var front := old(startList)[0];
                && front.pods == Restarted(old(startList[0].pods), front.num, 0, oracle)
                && Waits(startList) == Tick(old(Waits(startList)), |front.pods| - |old(startList[0].pods)|)
                && (AllSucceed(oracle) ==>
                      |front.pods| - |old(startList[0].pods)| == HalfUp(old(startList[0].Deficit())))
                && AsQueues() == Step(old(AsQueues()), StartTick(|front.pods| == front.num))
    {
      if startList == [] {
        return;
      }
      assert AllShort(startList) && Distinct(startList);
      hide *;
      FrontWaits(startList);
      ghost var others, deficit := Waits(startList[1..]), startList[0].Deficit();
      var serv := RetryFront(oracle);
      TickOfFront(serv.token, deficit, others, deficit - serv.Deficit());
      Rotate(serv);
      ValidAgain();
    }

    lemma ValidAgain()
      requires AllShort(startList) && Distinct(startList)
      ensures Valid()
    {}

    method ShutdownFailedPod(oracle: string -> bool)
      modifies this, set s | s in endList
      ensures old(endList) == [] ==> endList == [] && startList == old(startList) && services == old(services)
      ensures old(endList) != [] ==>
                var front := old(endList)[0];
                && front.pods == Unstopped(old(endList[0].pods), oracle)
                && (front.pods != [] ==>
                      endList == old(endList)[1..] + [front] && startList == old(startList)
                      && services == old(services))
                && (front.pods == [] ==>
                      && services == old(services) - {front.token}
                      && startList == Without(old(startList), front.token)
                      && endList == Without(old(endList), front.token))
                && AsQueues() == Step(old(AsQueues()), EndTick(front.pods == []))
    {
      if endList == [] {
        return;
      }
      var serv := endList[0];
      ghost var queues := AsQueues();
      RotatedQueues(queues, endList);
      TokensRotate(endList);
      assert Step(queues, EndTick(true)) == Forget(queues, serv.token);
      hide Step, Forget, Without, Tokens, Sublist, Unstopped;
      serv.StopPodsInService(oracle);
      if serv.status == Close {
        RemoveService(serv);
      } else {
        endList := endList + [endList[0]];
        endList := endList[1..];
        assert endList == old(endList)[1..] + [serv];
      }
    }

    /** The loops of the source go on with an iterator they have just erased; this is what they are for. */
    method RemoveService(sd: ServiceDescriptor)
      modifies this
      ensures services == old(services) - {sd.token}
      ensures startList == Without(old(startList), sd.token)
      ensures endList == Without(old(endList), sd.token)
      ensures AsQueues() == Forget(old(AsQueues()), sd.token)
      ensures OthersStay(old(startList), sd.token, startList) && OthersStay(old(endList), sd.token, endList)
    {
      WithoutKeeps(startList, sd.token);
      WithoutKeeps(endList, sd.token);
      ForgottenQueues(services, startList, endList, sd.token);
      hide *;
      services := services - {sd.token};
      startList := RemoveToken(startList, sd.token);
      endList := RemoveToken(endList, sd.token);
    }

    /** The end of `createService`: `pods` are those that could be created, without any there is no service. */
    method CreateService(token: string, pods: seq<string>, num: int) returns (ok: bool)
      requires Keyed()
      modifies this
      ensures Keyed() && (ok <==> pods != [])
      ensures !ok ==> AsQueues() == old(AsQueues())
      ensures ok ==> AsQueues() == Step(old(AsQueues()), Event.Create(token, |pods| >= num))
    {
      if pods == [] {
        return false;
      }
      var sd := new ServiceDescriptor(token, pods, num);
      if token !in services {
        services := services[token := sd];
      }
      if |pods| < num {
        TokensAppend(startList, services[token]);
        startList := startList + [services[token]];
      }
      return true;
    }

    method DeleteService(token: string, oracle: string -> bool) returns (ok: bool)
      requires Keyed()
      modifies this, if token in services then {services[token]} else {}
      ensures Keyed() && (ok <==> token in old(services))
      ensures !ok ==> AsQueues() == old(AsQueues())
      ensures ok ==>
                var sd := old(services)[token];
                && sd.pods == Unstopped(old(services[token].pods), oracle)
                && AsQueues() == Step(old(AsQueues()), Event.Delete(token, sd.pods == []))
    {
      if token !in services {
        return false;
      }
      var sd := services[token];
      sd.StopPodsInService(oracle);
      if sd.status != Close {
        TokensAppend(endList, sd);
        endList := endList + [sd];
      } else {
        RemoveService(sd);
      }
      return true;
    }
  }

  ghost predicate AllShort(list: seq<ServiceDescriptor>)
    reads set s | s in list
  {
    list == [] || (list[0].Valid() && list[0].Deficit() > 0 && list[0].status != Ready && AllShort(list[1..]))
  }

  ghost predicate Distinct(list: seq<ServiceDescriptor>) {
    list == [] || (list[0] !in list[1..] && Distinct(list[1..]))
  }

  lemma FrontWaits(list: seq<ServiceDescriptor>)
    requires list != [] && AllShort(list) && Distinct(list)
    ensures AllShort(list[1..]) && list[0].Valid() && Distinct(list[1..])
    ensures Waits(list) == [(list[0].token, list[0].Deficit())] + Waits(list[1..])
  {}

  lemma {:induction false} RotateDistinct(list: seq<ServiceDescriptor>)
    requires list != [] && Distinct(list)
    ensures Distinct(list[1..]) && Distinct(list[1..] + [list[0]])
  {
    DistinctAppend(list[1..], list[0]);
  }

  lemma {:induction false} DistinctAppend(list: seq<ServiceDescriptor>, s: ServiceDescriptor)
    requires Distinct(list) && s !in list
    ensures Distinct(list + [s])
  {
    if list == [] {
      assert (list + [s])[1..] == [];
    } else {
      assert (list + [s])[1..] == list[1..] + [s];
      DistinctAppend(list[1..], s);
    }
  }

  /** The waiting list as the retry laws see it. */
  ghost function Waits(list: seq<ServiceDescriptor>): seq<(string, nat)>
    requires AllShort(list)
    reads set s | s in list
  {
    if list == [] then [] else [(list[0].token, list[0].Deficit())] + Waits(list[1..])
  }

  lemma {:induction false} WaitsAppend(list: seq<ServiceDescriptor>, s: ServiceDescriptor)
    requires AllShort(list) && s.Valid() && (s.Deficit() > 0 ==> s.status != Ready)
    ensures s.Deficit() > 0 ==> AllShort(list + [s]) && Waits(list + [s]) == Waits(list) + [(s.token, s.Deficit())]
  {
    if list == [] {
      assert list + [s] == [s];
      assert [s][1..] == [];
    } else {
      assert (list + [s])[1..] == list[1..] + [s];
      WaitsAppend(list[1..], s);
    }
  }

  function Without(list: seq<ServiceDescriptor>, token: string): seq<ServiceDescriptor> {
    if list == [] then []
    else (if list[0].token == token then [] else [list[0]]) + Without(list[1..], token)
  }

  function NotNamed(token: string): ServiceDescriptor -> bool { (s: ServiceDescriptor) => s.token != token }

  function Often(list: seq<ServiceDescriptor>, s: ServiceDescriptor): nat { multiset(list)[s] }

  /** What a removal leaves of a list: the services of other tokens and no others, as often as before, in order. */
  ghost predicate OthersStay(before: seq<ServiceDescriptor>, token: string, after: seq<ServiceDescriptor>) {
    && (forall s: ServiceDescriptor :: s in after ==> s in before && s.token != token)
    && (forall s: ServiceDescriptor :: s in before && s.token != token ==>
          s in after && Often(after, s) == Often(before, s))
    && Sublist(after, before, NotNamed(token))
  }

  lemma {:induction false} WithoutKeeps(list: seq<ServiceDescriptor>, token: string)
    ensures OthersStay(list, token, Without(list, token))
  {
    WithoutIsSublist(list, token);
    hide Sublist, Without;
    var after := Without(list, token);
    forall s: ServiceDescriptor | s in after ensures s in list && s.token != token {
      SublistCounts<ServiceDescriptor>(after, list, NotNamed(token), s);
    }
    forall s: ServiceDescriptor | s in list && s.token != token
      ensures s in after && Often(after, s) == Often(list, s)
    {
      SublistCounts<ServiceDescriptor>(after, list, NotNamed(token), s);
    }
  }

  /** The front leaves its list or goes to the back. */
  lemma RotatedQueues(q: Queues, list: seq<ServiceDescriptor>)
    requires list != []
    ensures q.starting == Tokens(list) ==>
              && Step(q, StartTick(true)) == q.(starting := Tokens(list[1..] + []))
              && Step(q, StartTick(false)) == q.(starting := Tokens(list[1..] + [list[0]]))
    ensures q.ending == Tokens(list) ==> Step(q, EndTick(false)) == q.(ending := Tokens(list[1..] + [list[0]]))
  {
    TokensRotate(list);
    assert list[1..] + [] == list[1..] && Tokens(list[1..]) + [] == Tokens(list[1..]);
  }

  lemma ForgottenQueues(services: map<string, ServiceDescriptor>, starting: seq<ServiceDescriptor>,
                        ending: seq<ServiceDescriptor>, token: string)
    ensures Queues((services - {token}).Keys, Tokens(Without(starting, token)), Tokens(Without(ending, token))) ==
            Forget(Queues(services.Keys, Tokens(starting), Tokens(ending)), token)
  {
    TokensWithout(starting, token);
    TokensWithout(ending, token);
  }

  lemma {:induction false} WithoutIsSublist(list: seq<ServiceDescriptor>, token: string)
    ensures Sublist(Without(list, token), list, NotNamed(token))
  {
    hide Collects;
    if list == [] {
      CollectsNone(NotNamed(token), Itself<ServiceDescriptor>());
    } else {
      WithoutIsSublist(list[1..], token);
      CollectsMore(Without(list[1..], token), list, NotNamed(token), Itself());
    }
  }

  function Tokens(list: seq<ServiceDescriptor>): seq<string> {
    if list == [] then [] else [list[0].token] + Tokens(list[1..])
  }

  lemma {:induction false} TokensAppend(list: seq<ServiceDescriptor>, s: ServiceDescriptor)
    ensures Tokens(list + [s]) == Tokens(list) + [s.token]
  {
    if list == [] {
      assert list + [s] == [s] && [s][1..] == [];
    } else {
      assert (list + [s])[1..] == list[1..] + [s];
      TokensAppend(list[1..], s);
    }
  }

  lemma TokensRotate(list: seq<ServiceDescriptor>)
    requires list != []
    ensures Tokens(list) == [list[0].token] + Tokens(list[1..])
    ensures Tokens(list[1..] + [list[0]]) == Tokens(list[1..]) + [list[0].token]
  {
    TokensAppend(list[1..], list[0]);
  }

  lemma {:induction false} TokensWithout(list: seq<ServiceDescriptor>, token: string)
    ensures Tokens(Without(list, token)) == Chosen(Tokens(list), Other(token))
  {
    if list != [] {
      TokensWithout(list[1..], token);
      var rest := Without(list[1..], token);
      assert Tokens(list)[1..] == Tokens(list[1..]);
      if list[0].token == token {
        assert [] + rest == rest;
      } else {
        assert ([list[0]] + rest)[1..] == rest;
      }
    }
  }

  method RemoveToken(list: seq<ServiceDescriptor>, token: string) returns (r: seq<ServiceDescriptor>)
    ensures r == Without(list, token)
  {
    r := [];
    var i := 0;
    while i < |list|
      invariant i <= |list|
      invariant Without(list, token) == r + Without(list[i..], token)
    {
      ghost var before := r;
      assert list[i..][1..] == list[i + 1..];
      if list[i].token != token {
        r := r + [list[i]];
        assert before + ([list[i]] + Without(list[i + 1..], token)) == r + Without(list[i + 1..], token);
      } else {
        assert before + ([] + Without(list[i + 1..], token)) == r + Without(list[i + 1..], token);
      }
      i := i + 1;
    }
    assert r + [] == r;
  }
}
