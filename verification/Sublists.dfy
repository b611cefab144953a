/** What a loop that filters a list is for, told from the positions of the list. */
module Sublists {

  predicate Rising(at: seq<nat>) { forall i, j :: 0 <= i < j < |at| ==> at[i] < at[j] }

  /** `at` are, in increasing order, exactly the positions of `list` whose entries are wanted; `r` holds what is made
      of them. */
  ghost predicate Picks<T, U>(at: seq<nat>, r: seq<U>, list: seq<T>, wanted: T -> bool, made: T -> U) {
    && |at| == |r|
    && Rising(at)
    && (forall i :: 0 <= i < |at| ==> at[i] < |list| && wanted(list[at[i]]) && r[i] == made(list[at[i]]))
    && (forall k: nat :: k < |list| && wanted(list[k]) ==> k in at)
  }

  /** What is made of the wanted entries, in their order, once for each position. */
  ghost predicate Collects<T, U>(r: seq<U>, list: seq<T>, wanted: T -> bool, made: T -> U) {
    exists at: seq<nat> :: Picks(at, r, list, wanted, made)
  }

  function Itself<T>(): T -> T { (x: T) => x }

  /** The wanted entries themselves. */
  ghost predicate Sublist<T>(r: seq<T>, list: seq<T>, wanted: T -> bool) { Collects(r, list, wanted, Itself()) }

  lemma CollectsNone<T, U>(wanted: T -> bool, made: T -> U)
    ensures Collects([], [], wanted, made)
  {
    assert Picks([], [], [], wanted, made);
  }

  function Shifted(at: seq<nat>): seq<nat> { seq(|at|, i requires 0 <= i < |at| => at[i] + 1) }

  lemma PicksSkip<T, U>(at: seq<nat>, r: seq<U>, list: seq<T>, wanted: T -> bool, made: T -> U)
    requires list != [] && !wanted(list[0]) && Picks(at, r, list[1..], wanted, made)
    ensures Picks(Shifted(at), r, list, wanted, made)
  {
    var all := Shifted(at);
    forall k: nat | k < |list| && wanted(list[k]) ensures k in all {
      assert list[1..][k - 1] == list[k];
      var i :| 0 <= i < |at| && at[i] == k - 1;
      assert all[i] == k;
    }
  }

  lemma ShiftRises(at: seq<nat>)
    requires Rising(at)
    ensures Rising(Shifted(at)) && Rising([0] + Shifted(at))
  {
    assert forall i :: 0 < i < |at| + 1 ==> ([0] + Shifted(at))[i] == at[i - 1] + 1;
  }

  lemma PicksTake<T, U>(at: seq<nat>, r: seq<U>, list: seq<T>, wanted: T -> bool, made: T -> U)
    requires list != [] && wanted(list[0]) && Picks(at, r, list[1..], wanted, made)
    ensures Picks([0] + Shifted(at), [made(list[0])] + r, list, wanted, made)
  {
    var all, more := [0] + Shifted(at), [made(list[0])] + r;
    ShiftRises(at);
    hide Rising;
    forall i | 0 <= i < |all| ensures all[i] < |list| && wanted(list[all[i]]) && more[i] == made(list[all[i]]) {
      if i > 0 {
        assert all[i] == at[i - 1] + 1 && more[i] == r[i - 1] && list[1..][at[i - 1]] == list[all[i]];
      }
    }
    TakesAll(at, r, list, wanted, made);
  }

  lemma TakesAll<T, U>(at: seq<nat>, r: seq<U>, list: seq<T>, wanted: T -> bool, made: T -> U)
    requires list != [] && Picks(at, r, list[1..], wanted, made)
    ensures forall k: nat :: k < |list| && wanted(list[k]) ==> k in [0] + Shifted(at)
  {
    forall k: nat | k < |list| && wanted(list[k]) ensures k in [0] + Shifted(at) {
      if k > 0 {
        assert list[1..][k - 1] == list[k];
        var i :| 0 <= i < |at| && at[i] == k - 1;
        assert Shifted(at)[i] == k;
      }
    }
  }

  lemma CollectsMore<T, U>(r: seq<U>, list: seq<T>, wanted: T -> bool, made: T -> U)
    requires list != [] && Collects(r, list[1..], wanted, made)
    ensures Collects((if wanted(list[0]) then [made(list[0])] else []) + r, list, wanted, made)
  {
    hide Picks;
    var at :| Picks(at, r, list[1..], wanted, made);
    if wanted(list[0]) {
      PicksTake(at, r, list, wanted, made);
    } else {
      PicksSkip(at, r, list, wanted, made);
      assert [] + r == r;
    }
  }

  /** The positions determine the result. */
  lemma {:induction false} CollectsOnce<T, U>(r: seq<U>, q: seq<U>, list: seq<T>, wanted: T -> bool, made: T -> U)
    requires Collects(r, list, wanted, made) && Collects(q, list, wanted, made)
    ensures r == q
  {
    var at :| Picks(at, r, list, wanted, made);
    var bt :| Picks(bt, q, list, wanted, made);
    forall k ensures k in at <==> k in bt {}
    SameOrder(at, bt);
  }

  lemma {:induction false} SameOrder(at: seq<nat>, bt: seq<nat>)
    requires Rising(at) && Rising(bt)
    requires forall k :: k in at <==> k in bt
    ensures at == bt
  {
    assert bt != [] ==> bt[0] in at;
    if at != [] {
      assert at[0] in bt && (bt != [] ==> bt[0] in at);
      assert at[0] == bt[0];
      forall k ensures k in at[1..] <==> k in bt[1..] {
        assert k in at[1..] <==> k in at && k != at[0];
        assert k in bt[1..] <==> k in bt && k != bt[0];
      }
      SameOrder(at[1..], bt[1..]);
      assert at == [at[0]] + at[1..] && bt == [bt[0]] + bt[1..];
    }
  }

  /** Membership and numbers of a sublist. */
  lemma {:induction false} SublistCounts<T>(r: seq<T>, list: seq<T>, wanted: T -> bool, x: T)
    requires Sublist(r, list, wanted)
    ensures multiset(r)[x] == if wanted(x) then multiset(list)[x] else 0
    ensures x in r <==> x in list && wanted(x)
    decreases |list|
  {
    var kept := Chosen(list, wanted);
    ChosenIsSublist(list, wanted);
    ChosenCounts(list, wanted, x);
    CollectsOnce(r, kept, list, wanted, Itself());
    assert x in list <==> x in multiset(list);
    assert x in r <==> x in multiset(r);
  }

  function Chosen<T>(list: seq<T>, wanted: T -> bool): seq<T> {
    if list == [] then [] else (if wanted(list[0]) then [list[0]] else []) + Chosen(list[1..], wanted)
  }

  lemma {:induction false} ChosenIsSublist<T>(list: seq<T>, wanted: T -> bool)
    ensures Sublist(Chosen(list, wanted), list, wanted)
  {
    hide Collects;
    if list == [] {
      CollectsNone(wanted, Itself<T>());
    } else {
      ChosenIsSublist(list[1..], wanted);
      CollectsMore(Chosen(list[1..], wanted), list, wanted, Itself());
    }
  }

  lemma {:induction false} ChosenCounts<T>(list: seq<T>, wanted: T -> bool, x: T)
    ensures multiset(Chosen(list, wanted))[x] == if wanted(x) then multiset(list)[x] else 0
  {
    if list != [] {
      ChosenCounts(list[1..], wanted, x);
      assert list == [list[0]] + list[1..];
    }
  }
}
