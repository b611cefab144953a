/** When a lease ends, told from the steps of a run and the clock at each. */
module LeaseTime {
  import opened Wrappers
  import opened Worker
  import opened Lease

  /** One of the queued exits is of a pod that the manager owns when its turn comes. */
  predicate OwnsExit(s: State, infos: seq<ExitInfo>, starts: seq<Start>, now: int, m: string)
    requires |infos| == |starts|
    decreases |infos|
  {
    && infos != []
    && var i := PidAt(s.pods, infos[0].pid);
    || (i < |s.pods| && s.pods[i].manager == m)
    || OwnsExit(HandleExit(s, infos[0], starts[0], now), infos[1..], starts[1..], now, m)
  }

  /** The steps that renew a manager's lease: a create that starts a process, a check once the worker knows it, a stop
      of its pod, and the exit of one; none of the calls does while its lease has ended. */
  predicate Renews(s: State, e: Event, guard: Reading, now: int, m: string, known: bool)
    requires Possible(s, e)
  {
    match e
    case ForkCall(input) =>
      input.pod.manager == m && !Expired(s, m) && Admitted(s, input, guard) && Started(input.pod, input.start)
    case ShutdownCall(manager, alias, _, killed) =>
      manager == m && !Expired(s, m) && StopResult(s, alias, manager, killed) == 0
    case CheckCall(manager) => manager == m && !Expired(s, m) && known
    case ProcessExit(_) => false
    case ExitTick(starts) => OwnsExit(s.(infos := []), s.infos, starts, now, m)
    case LeaseTick(_, _) => false
  }

  /** The clock at the last step of a run that renewed the lease. */
  function LastRenewal(s: State, run: seq<(Event, int)>, guard: Reading, m: string, last: Option<int>): Option<int>
    requires Feasible(s, run, guard)
    decreases |run|
  {
    if run == [] then last
    else
      var (e, now) := run[0];
      LastRenewal(Step(s, e, guard, now), run[1..], guard, m,
                  if Renews(s, e, guard, now, m, last.Some?) then Some(now) else last)
  }

  // ---------------------------------------------------------------- the descriptor keeps that time

  ghost predicate Dated(s: State, m: string, last: Option<int>) {
    (m in s.managers <==> last.Some?) && (last.Some? ==> s.managers[m].timestamp == last.value)
  }

  lemma ExitDates(s: State, info: ExitInfo, start: Start, now: int, m: string, last: Option<int>)
    requires Dated(s, m, last)
    ensures var i := PidAt(s.pods, info.pid);
            Dated(HandleExit(s, info, start, now), m,
                  if i < |s.pods| && s.pods[i].manager == m then Some(now) else last)
  {}

  lemma {:induction false} ExitsDate(s: State, infos: seq<ExitInfo>, starts: seq<Start>, now: int, m: string,
                                     last: Option<int>)
    requires Dated(s, m, last) && |infos| == |starts|
    ensures Dated(HandleExits(s, infos, starts, now), m, if OwnsExit(s, infos, starts, now, m) then Some(now) else last)
    decreases |infos|
  {
    hide HandleExit, Dated;
    if infos != [] {
      var i := PidAt(s.pods, infos[0].pid);
      ExitDates(s, infos[0], starts[0], now, m, last);
      ExitsDate(HandleExit(s, infos[0], starts[0], now), infos[1..], starts[1..], now, m,
                if i < |s.pods| && s.pods[i].manager == m then Some(now) else last);
    }
  }

  lemma ForkDates(s: State, input: ForkInput, guard: Reading, now: int, m: string, last: Option<int>)
    requires Dated(s, m, last) && Possible(s, ForkCall(input))
    ensures Dated(Fork(s, input, guard, now).0, m,
                  if Renews(s, ForkCall(input), guard, now, m, last.Some?) then Some(now) else last)
  {
    hide TurnedDown, AliasReason;
  }

  lemma ShutdownDates(s: State, manager: string, alias: string, typ: Kind, killed: bool, guard: Reading, now: int,
                      m: string, last: Option<int>)
    requires Dated(s, m, last) && Possible(s, ShutdownCall(manager, alias, typ, killed))
    ensures Dated(Shutdown(s, manager, alias, typ, killed, now).0, m,
                  if Renews(s, ShutdownCall(manager, alias, typ, killed), guard, now, m, last.Some?)
                  then Some(now) else last)
  {
    hide ShutdownText, DropRef, Remove;
  }

  lemma {:induction false} StepDates(s: State, e: Event, guard: Reading, now: int, m: string, last: Option<int>)
    requires Dated(s, m, last) && Possible(s, e)
    ensures Dated(Step(s, e, guard, now), m, if Renews(s, e, guard, now, m, last.Some?) then Some(now) else last)
  {
    hide Fork, Shutdown, HandleExits, StopAll, OwnsExit;
    match e
    case ForkCall(input) => ForkDates(s, input, guard, now, m, last);
    case ShutdownCall(manager, alias, typ, killed) =>
      ShutdownDates(s, manager, alias, typ, killed, guard, now, m, last);
    case ExitTick(starts) => ExitsDate(s.(infos := []), s.infos, starts, now, m, last);
    case _ =>
  }

  lemma {:induction false} RunDates(s: State, run: seq<(Event, int)>, guard: Reading, m: string, last: Option<int>)
    requires Feasible(s, run, guard) && Dated(s, m, last)
    ensures Dated(Run(s, run, guard), m, LastRenewal(s, run, guard, m, last))
    decreases |run|
  {
    hide Step, Renews, Dated;
    if run != [] {
      var (e, now) := run[0];
      StepDates(s, e, guard, now, m, last);
      RunDates(Step(s, e, guard, now), run[1..], guard, m,
               if Renews(s, e, guard, now, m, last.Some?) then Some(now) else last);
    }
  }

  // ---------------------------------------------------------------- what ends a lease

  lemma {:induction false} ExitsEndNothing(s: State, infos: seq<ExitInfo>, starts: seq<Start>, now: int)
    requires |infos| == |starts|
    ensures forall l :: l in AllExitLabels(s, infos, starts, now) ==> !l.LeaseEnded?
    decreases |infos|
  {
    hide HandleExit;
    if infos != [] {
      ExitsEndNothing(HandleExit(s, infos[0], starts[0], now), infos[1..], starts[1..], now);
    }
  }

  lemma {:induction false} NotEndedAfter(labels: seq<Label>, m: string)
    requires forall l :: l in labels ==> !l.LeaseEnded?
    ensures !EndedAfter(labels, m, false)
  {
    if labels != [] {
      assert labels[0] in labels;
      NotEndedAfter(labels[1..], m);
    }
  }

  /** No step but the periodic pass over the managers ends a lease. */
  lemma {:induction false} OnlyPassEnds(s: State, e: Event, guard: Reading, now: int, m: string)
    requires Inv(s) && Possible(s, e) && !e.LeaseTick?
    ensures Expired(Step(s, e, guard, now), m) ==> Expired(s, m)
  {
    var labels := Labels(s, e, guard, now);
    if e.ExitTick? {
      ExitsEndNothing(s.(infos := []), s.infos, e.starts, now);
    }
    assert forall l :: l in labels ==> !l.LeaseEnded?;
    StepTurns(s, e, guard, now, m);
    hide Step, Labels, Expired, Turns, Inv, EndedAfter;
    NotEndedAfter(labels, m);
  }

  /** Its lease has not ended, and the last step that renewed it lies more than `limit` back. */
  ghost predicate Silent(run: seq<(Event, int)>, guard: Reading, m: string, limit: int, now: int)
    requires Feasible(EMPTY, run, guard)
  {
    var last := LastRenewal(EMPTY, run, guard, m, None);
    !Expired(Run(EMPTY, run, guard), m) && last.Some? && now - last.value > limit
  }

  lemma {:induction false} SilentIsUnused(run: seq<(Event, int)>, guard: Reading, m: string, limit: int, now: int)
    requires Feasible(EMPTY, run, guard)
    ensures Silent(run, guard, m, limit, now) <==> Unused(Run(EMPTY, run, guard), m, limit, now)
  {
    RunDates(EMPTY, run, guard, m, None);
    hide Run, Feasible, LastRenewal;
  }

  lemma {:induction false} FirstIs(s: State, order: seq<string>, limit: int, now: int, k: nat)
    requires k < |order| && Unused(s, order[k], limit, now)
    requires forall i :: 0 <= i < k ==> !Unused(s, order[i], limit, now)
    ensures FirstUnused(s, order, limit, now) == Some(order[k])
  {
    hide Unused;
    if k > 0 {
      FirstIs(s, order[1..], limit, now, k - 1);
    }
  }

  /** A lease ends by silence alone: over every run, when a step at time `now` ends the lease of m, it is the periodic
      pass, and the last step that renewed that lease lies more than the pass's limit back. */
  lemma {:induction false} LeaseEndsBySilence(run: seq<(Event, int)>, e: Event, guard: Reading, now: int, m: string)
    requires Feasible(EMPTY, run, guard) && Possible(Run(EMPTY, run, guard), e)
    requires !Expired(Run(EMPTY, run, guard), m) && Expired(Step(Run(EMPTY, run, guard), e, guard, now), m)
    ensures e.LeaseTick? && e.limit >= 0 && m in e.order
    ensures var last := LastRenewal(EMPTY, run, guard, m, None); last.Some? && now - last.value > e.limit
  {
    var s := Run(EMPTY, run, guard);
    EmptyIsValid();
    IndexIsAlwaysExact(EMPTY, run, guard);
    RunDates(EMPTY, run, guard, m, None);
    hide Run, Feasible, LastRenewal, Inv;
    if !e.LeaseTick? {
      OnlyPassEnds(s, e, guard, now, m);
    } else {
      var first := FirstUnused(s, e.order, e.limit, now);
      hide StopAll, FirstUnused;
    }
  }

  /** And the pass ends exactly one: it takes the first manager in map order that has been silent that long, with
      exactly its pods; without one, or with a negative limit, it does nothing. */
  lemma {:induction false} PassEndsFirstSilent(run: seq<(Event, int)>, order: seq<string>, limit: int, guard: Reading,
                                               now: int, m: string)
    requires Feasible(EMPTY, run, guard)
    ensures var s := Run(EMPTY, run, guard);
            var t := Step(s, LeaseTick(order, limit), guard, now);
            && (!Expired(s, m) && Expired(t, m) <==>
                limit >= 0 && exists k :: 0 <= k < |order| && order[k] == m && Silent(run, guard, m, limit, now)
                                          && forall i :: 0 <= i < k ==> !Silent(run, guard, order[i], limit, now))
            && (!Expired(s, m) && Expired(t, m) ==>
                  t.pods == Others(s.pods, m) && forall x :: x != m ==> Expired(t, x) == Expired(s, x))
            && ((limit < 0 || forall i :: 0 <= i < |order| ==> !Silent(run, guard, order[i], limit, now)) ==> t == s)
            && t.downPods == s.downPods && t.infos == s.infos
  {
    var s := Run(EMPTY, run, guard);
    EmptyIsValid();
    IndexIsAlwaysExact(EMPTY, run, guard);
    forall x ensures Silent(run, guard, x, limit, now) <==> Unused(s, x, limit, now) {
      SilentIsUnused(run, guard, x, limit, now);
    }
    hide Run, Feasible, Silent;
    PassTakesFirst(s, order, limit, guard, now, m);
    hide Inv, Step, Unused, Expired;
  }

  lemma {:induction false} PassTakesFirst(s: State, order: seq<string>, limit: int, guard: Reading, now: int, m: string)
    requires Inv(s)
    ensures var t := Step(s, LeaseTick(order, limit), guard, now);
            && (!Expired(s, m) && Expired(t, m) <==>
                limit >= 0 && exists k :: 0 <= k < |order| && order[k] == m && Unused(s, m, limit, now)
                                          && forall i :: 0 <= i < k ==> !Unused(s, order[i], limit, now))
            && (!Expired(s, m) && Expired(t, m) ==>
                  t.pods == Others(s.pods, m) && forall x :: x != m ==> Expired(t, x) == Expired(s, x))
            && ((limit < 0 || forall i :: 0 <= i < |order| ==> !Unused(s, order[i], limit, now)) ==> t == s)
            && t.downPods == s.downPods && t.infos == s.infos
  {
    var first := FirstUnused(s, order, limit, now);
    if first.Some? {
      var k := FirstAt(s, order, limit, now);
      ExpiryTakesExactlyItsPods(s, first.value);
      if exists j :: 0 <= j < |order| && order[j] == m && Unused(s, m, limit, now)
                     && forall i :: 0 <= i < j ==> !Unused(s, order[i], limit, now) {
        var j :| 0 <= j < |order| && order[j] == m && Unused(s, m, limit, now)
                 && forall i :: 0 <= i < j ==> !Unused(s, order[i], limit, now);
        FirstIs(s, order, limit, now, j);
      }
    }
    hide FirstUnused, StopAll, Others, Inv;
  }

  lemma {:induction false} FirstAt(s: State, order: seq<string>, limit: int, now: int) returns (k: nat)
    requires FirstUnused(s, order, limit, now).Some?
    ensures k < |order| && order[k] == FirstUnused(s, order, limit, now).value && Unused(s, order[k], limit, now)
    ensures forall i :: 0 <= i < k ==> !Unused(s, order[i], limit, now)
  {
    hide Unused;
    if Unused(s, order[0], limit, now) {
      k := 0;
    } else {
      k := FirstAt(s, order[1..], limit, now);
      k := k + 1;
    }
  }
}
