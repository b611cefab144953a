/** `RoundRobin::getBestWorker`, whose loop never moves on from the first worker. */
module Scheduler {
  /** What the loop looks at: whether the worker is alive, and the ports of the pods on it. */
  datatype Candidate = Candidate(alive: bool, ports: seq<int>)

  const INT_RANGE := 0x1_0000_0000

  /** `last.fetch_add(1)` on an `int`. */
  function Bumped(last: int): int { if last == INT_RANGE / 2 - 1 then -(INT_RANGE / 2) else last + 1 }

  /** It wraps round from the last `int` to the first. */
  lemma BumpedWraps(last: int)
    requires -0x8000_0000 <= last <= 0x7fff_ffff
    ensures -0x8000_0000 <= Bumped(last) <= 0x7fff_ffff && Bumped(last) % 0x1_0000_0000 == (last + 1) % 0x1_0000_0000
  {}

  /** The C++ remainder takes the sign of its first operand. */
  function Rem(a: int, n: int): int
    requires n > 0
  {
    if a >= 0 then a % n else -((-a) % n)
  }

  lemma RemIsOneIff(last: int, n: int)
    requires n > 0
    ensures Rem(last, n) == 1 <==> last > 0 && last % n == 1
  {}

  predicate PortAvailable(c: Candidate, port: int) { forall k :: 0 <= k < |c.ports| ==> c.ports[k] != port }

  /** One iteration from loop variable `i`: whether it returns, and the value the next one starts with. */
  function Iteration(c: Candidate, port: int, i: int): (bool, int) {
    (i - 1 == 0 && c.alive && PortAvailable(c, port), i - 1 + 1)
  }

  predicate ReturnsWithin(c: Candidate, port: int, i: int, n: nat)
    decreases n
  {
    n > 0 && (Iteration(c, port, i).0 || ReturnsWithin(c, port, Iteration(c, port, i).1, n - 1))
  }

  predicate Picks(workers: seq<Candidate>, port: int, last: int) {
    workers != [] && Rem(last, |workers|) == 1 && workers[0].alive && PortAvailable(workers[0], port)
  }

  lemma {:induction false} StuckOrFirst(c: Candidate, port: int, i: int, n: nat)
    ensures ReturnsWithin(c, port, i, n) <==> n > 0 && i == 1 && c.alive && PortAvailable(c, port)
    decreases n
  {
    if n > 0 {
      StuckOrFirst(c, port, i, n - 1);
    }
  }

  /** The loop ever returns exactly when the counter is positive and 1 modulo the number of workers, and the first
      worker is alive with none of its pods on the port; so never with a single worker. */
  lemma ReturnsIff(workers: seq<Candidate>, port: int, last: int)
    requires workers != []
    ensures (exists n: nat :: ReturnsWithin(workers[0], port, Rem(last, |workers|), n)) <==>
            && last > 0 && last % |workers| == 1 && workers[0].alive
            && forall k :: 0 <= k < |workers[0].ports| ==> workers[0].ports[k] != port
    ensures (exists n: nat :: ReturnsWithin(workers[0], port, Rem(last, |workers|), n)) <==> Picks(workers, port, last)
    ensures |workers| == 1 ==> !Picks(workers, port, last)
  {
    var i := Rem(last, |workers|);
    RemIsOneIff(last, |workers|);
    StuckOrFirst(workers[0], port, i, 1);
    forall n: nat | ReturnsWithin(workers[0], port, i, n) ensures Picks(workers, port, last) {
      StuckOrFirst(workers[0], port, i, n);
    }
  }

  /** So the first call of a new scheduler, whose counter is 0, never returns, whatever the workers. */
  lemma FirstCallNeverReturns(workers: seq<Candidate>, port: int, n: nat)
    requires workers != []
    ensures !ReturnsWithin(workers[0], port, Rem(0, |workers|), n)
  {
    ReturnsIff(workers, port, 0);
  }

  class RoundRobin {
    var last: int

    constructor ()
      ensures last == 0
    {
      last := 0;
    }

    method IsPortAvailable(c: Candidate, port: int) returns (free: bool)
      ensures free == PortAvailable(c, port)
    {
      for k := 0 to |c.ports|
        invariant forall j :: 0 <= j < k ==> c.ports[j] != port
      {
        if c.ports[k] == port {
          return false;
        }
      }
      return true;
    }

    /** Called where it returns: the worker it gives is alive and has the port free. */
    method GetBestWorker(workers: seq<Candidate>, port: int) returns (chosen: nat)
      requires Picks(workers, port, last)
      modifies this
      ensures chosen < |workers| && workers[chosen].alive && PortAvailable(workers[chosen], port)
      ensures chosen == 0 && last == Bumped(old(last))
    {
      var i := Rem(last, |workers|);
      last := Bumped(last);
      var it, returned := 0, false;
      while it != |workers| && !returned
        invariant it == 0 && i == 1 && last == Bumped(old(last))
        decreases !returned
      {
        i := i - 1;
        var free := IsPortAvailable(workers[it], port);
        returned := i == 0 && workers[it].alive && free;
        i := i + 1;
      }
      return it;
    }
  }
}
