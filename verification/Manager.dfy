/** The manager: its pod table, the pods listed at each worker, the list of pods that went down, and the log.
    The functions say what each remote call's outcome does; the class below performs them statement by statement. */
module Manager {
  import opened Wrappers
  import opened PodDescriptor
  import opened ManagerLog
  import opened Sublists
  import Streams

  /** `bound` is `pods` of each worker descriptor, entries standing for pointers into the table; `up` the workers
      whose `alive` flag is set; `down` is `down_services`; `log` every line handed to the logger. */
  datatype State = State(
    pods: Table, bound: map<WorkerId, seq<string>>, up: set<WorkerId>, down: seq<string>, log: seq<string>)

  /** The outcome of a FORK or SHUTDOWN call: no answer, or the answer's `fail` flag and text. */
  datatype Reply = Lost | Echo(fail: bool, text: string)

  /** The outcome of a CHECK call: no answer, or (alias, exit number) of every pod reported down. */
  datatype Report = Unreachable | Exits(services: seq<(string, int)>)

  const MANAGER_DOWN := "Manager Down"

  predicate IsManagerDown(reply: Reply) { reply.Echo? && reply.fail && reply.text == MANAGER_DOWN }

  predicate Succeeds(reply: Reply) { reply.Echo? && !reply.fail }

  // ---------------------------------------------------------------- specification

  function BoundTo(s: State, w: WorkerId): seq<string> { if w in s.bound then s.bound[w] else [] }

  /** The loop of `removePodDescriptor`. */
  function RemoveFirst<T(==)>(list: seq<T>, x: T): seq<T> {
    if list == [] then []
    else if list[0] == x then list[1..]
    else [list[0]] + RemoveFirst(list[1..], x)
  }

  /** A pointer on a worker's list while `createPod` runs: to an entry of the table, or to the descriptor `info` that
      is a local of the call. */
  datatype Address = Entry(alias: string) | Local

  function Entries(list: seq<string>): seq<Address> {
    if list == [] then [] else [Entry(list[0])] + Entries(list[1..])
  }

  function Aliases(list: seq<Address>): seq<string>
    requires Local !in list
  {
    if list == [] then [] else [list[0].alias] + Aliases(list[1..])
  }

  lemma {:induction false} EntriesBack(list: seq<string>)
    ensures Local !in Entries(list) && Aliases(Entries(list)) == list
  {
    if list != [] {
      EntriesBack(list[1..]);
    }
  }

  /** The destructor of `info` removes the first pointer to it: behind entries of the table that is the one pushed. */
  lemma {:induction false} DestructorRemoves(list: seq<string>, pushed: Address)
    ensures RemoveFirst(Entries(list) + [pushed], Local) == Entries(list) + if pushed == Local then [] else [pushed]
  {
    if list == [] {
      assert [pushed][1..] == [];
    } else {
      assert (Entries(list) + [pushed])[1..] == Entries(list[1..]) + [pushed];
      DestructorRemoves(list[1..], pushed);
      var rest := if pushed == Local then [] else [pushed];
      assert [Entry(list[0])] + (Entries(list[1..]) + rest) == [Entry(list[0])] + Entries(list[1..]) + rest;
    }
  }

  lemma {:induction false} EntriesAppend(list: seq<string>, alias: string)
    ensures Entries(list) + [Entry(alias)] == Entries(list + [alias])
  {
    if list == [] {
      assert [alias][1..] == [];
    } else {
      assert (list + [alias])[1..] == list[1..] + [alias];
      EntriesAppend(list[1..], alias);
    }
  }

  /** The worker's list after a `createPod` that succeeded: `&info` is pushed, as written, or the entry's address, as
      documented; then the call returns and `info` is destroyed. */
  function ListAfterReturn(list: seq<string>, alias: string, linking: Reading): (r: seq<string>)
    ensures r == if linking == AsWritten then list else list + [alias]
  {
    var pushed := if linking == AsWritten then Local else Entry(alias);
    DestructorRemoves(list, pushed);
    EntriesBack(list);
    EntriesAppend(list, alias);
    EntriesBack(list + [alias]);
    assert Entries(list) + [] == Entries(list);
    Aliases(RemoveFirst(Entries(list) + [pushed], Local))
  }

  /** `removePodDescriptor`. */
  function Unlink(s: State, w: WorkerId, alias: string): State {
    s.(bound := s.bound[w := RemoveFirst(BoundTo(s, w), alias)])
  }

  function Link(s: State, w: WorkerId, alias: string): State {
    s.(bound := s.bound[w := BoundTo(s, w) + [alias]])
  }

  function MarkDead(pods: Table, aliases: seq<string>): Table {
    map a | a in pods :: if a in aliases then pods[a].(alive := false) else pods[a]
  }

  /** The worker has forgotten this manager: every pod listed there is dead, and the list is emptied. */
  function AllDown(s: State, w: WorkerId): State {
    s.(pods := MarkDead(s.pods, BoundTo(s, w)), down := s.down + BoundTo(s, w), bound := s.bound[w := []])
  }

  /** Erasing a table entry runs its destructor, which unlinks it from its worker. */
  function EraseEntry(s: State, alias: string): State
    requires alias in s.pods
  {
    var w := s.pods[alias].worker;
    var t := s.(pods := s.pods - {alias});
    if w.Some? then Unlink(t, w.value, alias) else t
  }

  function Append(s: State, line: string): State { s.(log := s.log + [line]) }

  predicate Bindable(s: State, alias: string) { alias in s.pods && s.pods[alias].worker.Some? }

  /** One answer to the FORK call of `createService`. */
  function ForkAnswer(s: State, alias: string, reply: Reply): State
    requires Bindable(s, alias)
  {
    if IsManagerDown(reply) then AllDown(s, s.pods[alias].worker.value)
    else if !Succeeds(reply) then Append(s, CreateFail(alias))
    else
      var t := Append(s, CreateEnd(s.pods[alias]));
      t.(pods := t.pods[alias := t.pods[alias].(alive := true)])
  }

  /** `createService` on a pod of the table: it is retried for as long as the answer is "Manager Down". */
  function Created(s: State, alias: string, replies: seq<Reply>): State
    requires Bindable(s, alias)
  {
    ForkAnswers(Append(s, CreateStart(alias)), alias, replies)
  }

  function ForkAnswers(s: State, alias: string, replies: seq<Reply>): State
    requires Bindable(s, alias)
    decreases |replies|
  {
    if replies == [] then s
    else
      AnswerKeepsBinding(s, alias, replies[0]);
      ForkAnswers(ForkAnswer(s, alias, replies[0]), alias, replies[1..])
  }

  lemma AnswerKeepsBinding(s: State, alias: string, reply: Reply)
    requires Bindable(s, alias)
    ensures Bindable(ForkAnswer(s, alias, reply), alias)
    ensures ForkAnswer(s, alias, reply).pods[alias].worker == s.pods[alias].worker
  {}

  /** The answers one call consumes: "Manager Down" any number of times, then one that is not. */
  predicate Script(replies: seq<Reply>) {
    && replies != [] && !IsManagerDown(replies[|replies| - 1])
    && forall i :: 0 <= i < |replies| - 1 ==> IsManagerDown(replies[i])
  }

  function Last(replies: seq<Reply>): Reply
    requires replies != []
  {
    replies[|replies| - 1]
  }

  /** The first lines of `selectWorkerToCreatePod`: the entry, new unless the alias is taken, bound to the worker
      the scheduler chose. */
  function SelectBegin(s: State, pod: Pod, chosen: WorkerId): State {
    var pods := if pod.alias in s.pods then s.pods else s.pods[pod.alias := pod.(alive := false, worker := None)];
    Link(s.(pods := pods[pod.alias := pods[pod.alias].(worker := Some(chosen))]), chosen, pod.alias)
  }

  function Selected(s: State, pod: Pod, chosen: Option<WorkerId>, replies: seq<Reply>): State
    requires replies != []
  {
    if chosen.None? then s.(pods := s.pods - {pod.alias})
    else
      var t := SelectBegin(s, pod, chosen.value);
      AnswersKeepBinding(Append(t, CreateStart(pod.alias)), pod.alias, replies);
      var u := Created(t, pod.alias, replies);
      if Succeeds(Last(replies)) then u else EraseEntry(u, pod.alias)
  }

  lemma {:induction false} AnswersKeepBinding(s: State, alias: string, replies: seq<Reply>)
    requires Bindable(s, alias)
    ensures Bindable(ForkAnswers(s, alias, replies), alias)
    ensures ForkAnswers(s, alias, replies).pods[alias].worker == s.pods[alias].worker
    decreases |replies|
  {
    if replies != [] {
      AnswerKeepsBinding(s, alias, replies[0]);
      AnswersKeepBinding(ForkAnswer(s, alias, replies[0]), alias, replies[1..]);
    }
  }

  /** `createPod`: the entry is alive from the start and not listed at the worker while the call is out. */
  function CreatePodBegin(s: State, pod: Pod, w: WorkerId): State {
    Append(s.(pods := s.pods[pod.alias := pod.(alive := true, worker := Some(w))]), CreateStart(pod.alias))
  }

  /** One answer to the FORK call of `createPod`. */
  function CreatePodAnswer(s: State, alias: string, reply: Reply, linking: Reading): State
    requires Bindable(s, alias)
  {
    var w := s.pods[alias].worker.value;
    if IsManagerDown(reply) then AllDown(s, w)
    else if !Succeeds(reply) then EraseEntry(Append(s, CreateFail(alias)), alias)
    else
      var t := Append(s, CreateEnd(s.pods[alias].(alive := true)));
      t.(bound := t.bound[w := ListAfterReturn(BoundTo(t, w), alias, linking)])
  }

  function CreatePodAnswers(s: State, alias: string, replies: seq<Reply>, linking: Reading): State
    requires Bindable(s, alias) && Script(replies)
    decreases |replies|
  {
    var t := CreatePodAnswer(s, alias, replies[0], linking);
    if |replies| == 1 then t else CreatePodAnswers(t, alias, replies[1..], linking)
  }

  lemma DownAnswer(s: State, alias: string, replies: seq<Reply>, linking: Reading)
    requires Bindable(s, alias) && Script(replies) && IsManagerDown(replies[0])
    ensures var t := AllDown(s, s.pods[alias].worker.value);
            && Bindable(t, alias) && t.pods[alias].(alive := true) == s.pods[alias].(alive := true)
            && Script(replies[1..])
            && CreatePodAnswers(s, alias, replies, linking) == CreatePodAnswers(t, alias, replies[1..], linking)
  {}

  lemma LastAnswer(s: State, alias: string, replies: seq<Reply>, linking: Reading)
    requires Bindable(s, alias) && Script(replies) && !IsManagerDown(replies[0])
    ensures CreatePodAnswers(s, alias, replies, linking) == CreatePodAnswer(s, alias, replies[0], linking)
    ensures Last(replies) == replies[0]
  {}

  lemma ListIsAliases(list: seq<string>, alias: string, linking: Reading)
    ensures var left := RemoveFirst(Entries(list) + [if linking == AsWritten then Local else Entry(alias)], Local);
            Local !in left && ListAfterReturn(list, alias, linking) == Aliases(left)
  {
    DestructorRemoves(list, if linking == AsWritten then Local else Entry(alias));
    EntriesBack(list);
  }

  /** `stopPod` up to the SHUTDOWN call, which is made only for a live pod. */
  function StopBegin(s: State, alias: string): State
    requires Bindable(s, alias)
  {
    var w := s.pods[alias].worker.value;
    var t := Unlink(s, w, alias);
    if s.pods[alias].alive then Append(t, StopStart(alias)) else Link(t, w, alias)
  }

  /** The answer to that call.  "Manager Down" counts as a success: the worker has killed the pod already. */
  function StopAnswer(s: State, alias: string, reply: Reply): State
    requires Bindable(s, alias)
  {
    var w := s.pods[alias].worker.value;
    if IsManagerDown(reply) then EraseEntry(Append(AllDown(s, w), StopEnd(alias, true)), alias)
    else if Succeeds(reply) then EraseEntry(Append(s, StopEnd(alias, true)), alias)
    else
      var t := Append(s, StopEnd(alias, false));
      Link(t.(pods := t.pods[alias := t.pods[alias].(alive := false)]), w, alias)
  }

  function ReportDown(s: State, services: seq<(string, int)>): State
    decreases |services|
  {
    if services == [] then s
    else
      var (alias, exit) := services[0];
      if alias !in s.pods then ReportDown(s, services[1..])
      else
        var t := s.(pods := s.pods[alias := s.pods[alias].(alive := false)]);
        ReportDown(if exit != 0 then t.(down := t.down + [alias]) else t, services[1..])
  }

  /** The answer to the CHECK call.  The alias "*" says that all pods are gone. */
  function CheckAnswer(s: State, w: WorkerId, report: Report): State {
    match report
    case Unreachable =>
      s.(pods := MarkDead(s.pods, BoundTo(s, w)), down := s.down + BoundTo(s, w), up := s.up - {w})
    case Exits(services) =>
      if services == [] then s
      else if services[0].0 == "*" then s.(pods := MarkDead(s.pods, BoundTo(s, w)))
      else ReportDown(s, services)
  }

  // ---------------------------------------------------------------- what the answers amount to

  /** A stop that was sent for a pod listed at most once: the pod is gone exactly when the answer is a success or
      "Manager Down"; otherwise it is dead and on its worker's list again, behind the others.  Other pods change only
      by "Manager Down". */
  lemma StopVerdict(s: State, alias: string, reply: Reply)
    requires Bindable(s, alias) && s.pods[alias].alive
    requires alias !in RemoveFirst(BoundTo(s, s.pods[alias].worker.value), alias)
    ensures var t, w := StopAnswer(StopBegin(s, alias), alias, reply), s.pods[alias].worker.value;
            var gone, others := Succeeds(reply) || IsManagerDown(reply), RemoveFirst(BoundTo(s, w), alias);
            && (alias in t.pods <==> !gone)
            && (!gone ==> t.pods == s.pods[alias := s.pods[alias].(alive := false)]
                          && BoundTo(t, w) == others + [alias])
            && (Succeeds(reply) ==> t.pods == s.pods - {alias} && BoundTo(t, w) == others)
            && (IsManagerDown(reply) ==> BoundTo(t, w) == [] && t.down == s.down + others)
            && (IsManagerDown(reply) ==> t.pods.Keys == s.pods.Keys - {alias} && forall a :: a in t.pods ==>
                  t.pods[a] == if a in others then s.pods[a].(alive := false) else s.pods[a])
  {
    hide StopStart, StopEnd;
    RemoveFirstAbsent(RemoveFirst(BoundTo(s, s.pods[alias].worker.value), alias), alias);
  }

  /** What a stop leaves alone, and what it logs: other workers' lists, the workers up, and, but for "Manager Down",
      the pods noted as down.  A dead pod is put behind the others of its list, and nothing is sent or logged. */
  lemma StopLeaves(s: State, alias: string, reply: Reply)
    requires Bindable(s, alias)
    ensures var begun, w := StopBegin(s, alias), s.pods[alias].worker.value;
            var t := StopAnswer(begun, alias, reply);
            var gone := Succeeds(reply) || IsManagerDown(reply);
            && begun.pods == s.pods && begun.down == s.down && begun.up == s.up
            && (forall v :: v != w ==> BoundTo(begun, v) == BoundTo(s, v) && BoundTo(t, v) == BoundTo(s, v))
            && (!s.pods[alias].alive ==>
                  begun.log == s.log && BoundTo(begun, w) == RemoveFirst(BoundTo(s, w), alias) + [alias])
            && (s.pods[alias].alive ==>
                  && begun.log == s.log + [StopStart(alias)]
                  && t.log == s.log + [StopStart(alias), StopEnd(alias, gone)]
                  && t.up == s.up && (!IsManagerDown(reply) ==> t.down == s.down))
  {
    hide StopStart, StopEnd, RemoveFirst;
  }

  /** The pods a report notes as down: those the table has whose exit number is not 0, in order. */
  function Failed(services: seq<(string, int)>, known: set<string>): seq<string> {
    if services == [] then []
    else (if services[0].0 in known && services[0].1 != 0 then [services[0].0] else []) + Failed(services[1..], known)
  }

  lemma {:induction false} ReportNotesFailures(s: State, services: seq<(string, int)>)
    ensures ReportDown(s, services).down == s.down + Failed(services, s.pods.Keys)
    ensures ReportDown(s, services).pods.Keys == s.pods.Keys
    decreases |services|
  {
    if services != [] {
      var (alias, exit) := services[0];
      var rest, head := Failed(services[1..], s.pods.Keys), if alias in s.pods && exit != 0 then [alias] else [];
      var t := if alias in s.pods then s.(pods := s.pods[alias := s.pods[alias].(alive := false)]) else s;
      var u := t.(down := t.down + head);
      assert t.down + [] == t.down && u.pods.Keys == s.pods.Keys;
      assert ReportDown(s, services) == ReportDown(u, services[1..]) && Failed(services, s.pods.Keys) == head + rest;
      hide ReportDown, Failed;
      ReportNotesFailures(u, services[1..]);
      DownMore(s.down, head, rest);
    }
  }

  lemma DownMore(a: seq<string>, b: seq<string>, c: seq<string>)
    ensures a + b + c == a + (b + c)
  {}

  /** Whether the answer to a CHECK call says that a pod is dead. */
  predicate Names(s: State, w: WorkerId, report: Report, a: string) {
    match report
    case Unreachable => a in BoundTo(s, w)
    case Exits(services) =>
      && services != []
      && if services[0].0 == "*" then a in BoundTo(s, w) else exists i :: 0 <= i < |services| && services[i].0 == a
  }

  lemma {:induction false} ReportKills(s: State, services: seq<(string, int)>)
    ensures var t := ReportDown(s, services);
            && t.pods.Keys == s.pods.Keys && t.bound == s.bound && t.up == s.up && t.log == s.log
            && forall a :: a in s.pods ==>
                 t.pods[a] ==
                 s.pods[a].(alive := s.pods[a].alive && forall i :: 0 <= i < |services| ==> services[i].0 != a)
    decreases |services|
  {
    if services != [] {
      var (alias, exit) := services[0];
      assert forall i {:trigger services[i]} :: 1 <= i < |services| ==> services[i] == services[1..][i - 1];
      if alias !in s.pods {
        ReportKills(s, services[1..]);
      } else {
        var t := s.(pods := s.pods[alias := s.pods[alias].(alive := false)]);
        ReportKills(if exit != 0 then t.(down := t.down + [alias]) else t, services[1..]);
      }
    }
  }

  /** What a CHECK call changes: a pod is alive afterwards exactly when it was and the answer does not name it - no
      answer and "*" name the pods on the worker's list -, and nothing else of any pod changes.  No answer takes
      exactly that worker from those up and notes its list, a report notes the pods that failed, "*" notes none. */
  lemma {:induction false} CheckVerdict(s: State, w: WorkerId, report: Report)
    ensures var t := CheckAnswer(s, w, report);
            && t.pods.Keys == s.pods.Keys && t.bound == s.bound && t.log == s.log
            && (forall a :: a in s.pods ==>
                  t.pods[a] == s.pods[a].(alive := s.pods[a].alive && !Names(s, w, report, a)))
            && t.up == (if report.Unreachable? then s.up - {w} else s.up)
            && (report.Unreachable? ==> t.down == s.down + BoundTo(s, w))
            && (report.Exits? ==> t.down == s.down +
                                  if report.services != [] && report.services[0].0 != "*"
                                  then Failed(report.services, s.pods.Keys) else [])
  {
    if report.Exits? {
      assert s.down + [] == s.down;
      ReportKills(s, report.services);
      ReportNotesFailures(s, report.services);
    }
    hide ReportDown, Failed;
  }

  /** The list of a report that is noted, by its positions. */
  lemma {:induction false} FailedAre(services: seq<(string, int)>, known: set<string>)
    ensures Collects(Failed(services, known), services, FailedIn(known), AliasOf())
  {
    hide Collects;
    if services == [] {
      CollectsNone(FailedIn(known), AliasOf());
    } else {
      FailedAre(services[1..], known);
      CollectsMore(Failed(services[1..], known), services, FailedIn(known), AliasOf());
    }
  }

  function FailedIn(known: set<string>): ((string, int)) -> bool { (x: (string, int)) => x.0 in known && x.1 != 0 }

  function AliasOf(): ((string, int)) -> string { (x: (string, int)) => x.0 }

  /** The pods a create leaves alone, except that a "Manager Down" finds those of the worker's list dead. */
  function Bystanders(table: Table, list: seq<string>, retried: bool): Table {
    if retried then MarkDead(table, list) else table
  }

  /** `t` is what the answers to a `createPod` leave of `s`, whose table is `table` and the new pod. */
  ghost predicate Ends(s: State, table: Table, info: Pod, w: WorkerId, retried: bool, ok: bool, linking: Reading,
                       t: State) {
    && t.pods == (if ok then Bystanders(table, BoundTo(s, w), retried)[info.alias := info]
                  else Bystanders(table, BoundTo(s, w), retried))
    && BoundTo(t, w) == (if retried then [] else BoundTo(s, w)) +
                        (if ok && linking == AsDocumented then [info.alias] else [])
    && (forall v :: v != w ==> BoundTo(t, v) == BoundTo(s, v))
    && t.down == s.down + (if retried then BoundTo(s, w) else [])
    && t.up == s.up
    && info.worker.Some?
    && t.log == s.log + [if ok then CreateEnd(info) else CreateFail(info.alias)]
  }

  lemma LastEnds(s: State, table: Table, info: Pod, w: WorkerId, reply: Reply, linking: Reading)
    requires s.pods == table[info.alias := info] && info.alias !in table && info.worker == Some(w) && info.alive
    requires !IsManagerDown(reply) && info.alias !in BoundTo(s, w)
    ensures Ends(s, table, info, w, false, Succeeds(reply), linking, CreatePodAnswer(s, info.alias, reply, linking))
  {
    hide CreateEnd, CreateFail, RemoveFirst;
    RemoveFirstAbsent(BoundTo(s, w), info.alias);
    assert s.pods - {info.alias} == table && s.pods[info.alias] == info;
    assert s.down + [] == s.down && BoundTo(s, w) + [] == BoundTo(s, w);
    assert info.(alive := true) == info;
  }

  lemma DownEnds(s: State, table: Table, info: Pod, w: WorkerId, retried: bool, ok: bool, linking: Reading, t: State)
    requires s.pods == table[info.alias := info] && info.alias !in table && info.alias !in BoundTo(s, w)
    requires Ends(AllDown(s, w), MarkDead(table, BoundTo(s, w)), info, w, retried, ok, linking, t)
    ensures AllDown(s, w).pods == MarkDead(table, BoundTo(s, w))[info.alias := info]
    ensures Ends(s, table, info, w, true, ok, linking, t)
  {
    hide CreateEnd, CreateFail;
    assert MarkDead(MarkDead(table, BoundTo(s, w)), []) == MarkDead(table, BoundTo(s, w));
    assert s.down + BoundTo(s, w) + [] == s.down + BoundTo(s, w);
  }

  lemma AllDownTable(s: State, table: Table, info: Pod, w: WorkerId)
    requires s.pods == table[info.alias := info] && info.alias !in table && info.alias !in BoundTo(s, w)
    ensures AllDown(s, w).pods == MarkDead(table, BoundTo(s, w))[info.alias := info] && BoundTo(AllDown(s, w), w) == []
    ensures info.alias !in MarkDead(table, BoundTo(s, w))
  {}

  lemma {:induction false} AnswersEnd(s: State, table: Table, info: Pod, w: WorkerId, replies: seq<Reply>,
                                      linking: Reading)
    requires s.pods == table[info.alias := info] && info.alias !in table && info.worker == Some(w) && info.alive
    requires Script(replies) && info.alias !in BoundTo(s, w)
    ensures Ends(s, table, info, w, |replies| > 1, Succeeds(Last(replies)), linking,
                 CreatePodAnswers(s, info.alias, replies, linking))
    decreases |replies|
  {
    hide Ends, AllDown, MarkDead, CreatePodAnswer;
    if |replies| > 1 {
      DownAnswer(s, info.alias, replies, linking);
      AllDownTable(s, table, info, w);
      AnswersEnd(AllDown(s, w), MarkDead(table, BoundTo(s, w)), info, w, replies[1..], linking);
      DownEnds(s, table, info, w, |replies| > 2, Succeeds(Last(replies)), linking,
               CreatePodAnswers(s, info.alias, replies, linking));
    } else {
      LastAnswer(s, info.alias, replies, linking);
      LastEnds(s, table, info, w, replies[0], linking);
    }
  }

  /** What `createPod` leaves, its alias free: on success the table as it was, the pods on the worker's list dead
      if a "Manager Down" came first, and the new pod, alive; on failure the same without it.  A stop that follows a
      success is sent. */
  lemma {:induction false} CreateVerdict(s: State, pod: Pod, w: WorkerId, replies: seq<Reply>, linking: Reading)
    requires Script(replies) && pod.alias !in s.pods && pod.alias !in BoundTo(s, w)
    ensures var t := CreatePodAnswers(CreatePodBegin(s, pod, w), pod.alias, replies, linking);
            var ok, retried := Succeeds(Last(replies)), |replies| > 1;
            var info, others := pod.(alive := true, worker := Some(w)), Bystanders(s.pods, BoundTo(s, w), retried);
            && t.pods == (if ok then others[pod.alias := info] else others)
            && BoundTo(t, w) == (if retried then [] else BoundTo(s, w)) +
                                (if ok && linking == AsDocumented then [pod.alias] else [])
            && (forall v :: v != w ==> BoundTo(t, v) == BoundTo(s, v))
            && t.down == s.down + (if retried then BoundTo(s, w) else []) && t.up == s.up
            && t.log == s.log + [CreateStart(pod.alias), if ok then CreateEnd(info) else CreateFail(pod.alias)]
            && (ok ==> StopBegin(t, pod.alias).log == t.log + [StopStart(pod.alias)])
  {
    var begun, info := CreatePodBegin(s, pod, w), pod.(alive := true, worker := Some(w));
    assert pod.alias !in Bystanders(s.pods, BoundTo(s, w), |replies| > 1);
    AnswersEnd(begun, s.pods, info, w, replies, linking);
    hide CreatePodAnswers, CreateEnd, CreateFail, CreateStart, StopStart, RemoveFirst, Bystanders;
  }

  /** The entry `selectWorkerToCreatePod` works on: the one the table holds under that alias, or a new one, dead. */
  function Candidate(s: State, pod: Pod): Pod {
    if pod.alias in s.pods then s.pods[pod.alias] else pod.(alive := false)
  }

  /** The same for `selectWorkerToCreatePod`.  Its entry is listed from the start, so a "Manager Down" finds it dead
      with the others, notes it, and leaves it off the list; the success that follows makes it alive again.  A taken
      alias is created again from the old entry, which a failure takes away.  Without a worker nothing is sent, and
      only a taken alias is changed: it is gone. */
  lemma {:induction false} SelectVerdict(s: State, pod: Pod, w: WorkerId, replies: seq<Reply>)
    requires Script(replies) && (pod.alias in s.pods ==> s.pods[pod.alias].alias == pod.alias)
    ensures var t := Selected(s, pod, Some(w), replies);
            var ok, retried, list := Succeeds(Last(replies)), |replies| > 1, BoundTo(s, w) + [pod.alias];
            var info, others := Candidate(s, pod).(worker := Some(w)), Bystanders(s.pods - {pod.alias}, list, retried);
            && t.pods == (if ok then others[pod.alias := info.(alive := true)] else others)
            && BoundTo(t, w) == (if retried then [] else if ok then list else RemoveFirst(list, pod.alias))
            && (forall v :: v != w ==> BoundTo(t, v) == BoundTo(s, v))
            && t.down == s.down + (if retried then list else []) && t.up == s.up
            && t.log == s.log + [CreateStart(pod.alias),
                                 if ok then CreateEnd(Kept(info, list, retried)) else CreateFail(pod.alias)]
            && (ok ==> StopBegin(t, pod.alias).log == t.log + [StopStart(pod.alias)])
    ensures Selected(s, pod, None, replies) == s.(pods := s.pods - {pod.alias})
  {
    var begun, info := Append(SelectBegin(s, pod, w), CreateStart(pod.alias)), Candidate(s, pod).(worker := Some(w));
    var ok, retried, list := Succeeds(Last(replies)), |replies| > 1, BoundTo(s, w) + [pod.alias];
    SelectBegun(s, pod, w);
    hide SelectBegin, Candidate;
    ForkEnds(begun, s.pods - {pod.alias}, info, w, replies);
    var u := ForkAnswers(begun, pod.alias, replies);
    hide ForkAnswers, CreateEnd, CreateFail, CreateStart, StopStart, RemoveFirst, MarkDead, EraseEntry;
    if !ok {
      EraseLast(u, Bystanders(s.pods - {pod.alias}, list, retried), Kept(info, list, retried), w);
      RemoveFirstAbsent([], pod.alias);
    }
    hide Bystanders;
  }

  lemma SelectBegun(s: State, pod: Pod, w: WorkerId)
    requires pod.alias in s.pods ==> s.pods[pod.alias].alias == pod.alias
    ensures var begun := Append(SelectBegin(s, pod, w), CreateStart(pod.alias));
            var info := Candidate(s, pod).(worker := Some(w));
            && begun.pods == (s.pods - {pod.alias})[pod.alias := info] && info.alias == pod.alias
            && BoundTo(begun, w) == BoundTo(s, w) + [pod.alias]
            && (forall v :: v != w ==> BoundTo(begun, v) == BoundTo(s, v))
            && begun.up == s.up && begun.down == s.down && begun.log == s.log + [CreateStart(pod.alias)]
            && Bindable(begun, pod.alias)
  {
    hide CreateStart;
  }

  lemma EraseLast(s: State, table: Table, info: Pod, w: WorkerId)
    requires s.pods == table[info.alias := info] && info.alias !in table && info.worker == Some(w)
    ensures var t := EraseEntry(s, info.alias);
            && t.pods == table && BoundTo(t, w) == RemoveFirst(BoundTo(s, w), info.alias)
            && (forall v :: v != w ==> BoundTo(t, v) == BoundTo(s, v))
            && t.up == s.up && t.down == s.down && t.log == s.log
  {
    hide RemoveFirst;
    assert s.pods - {info.alias} == table;
  }

  /** An entry of the table as a "Manager Down" leaves it. */
  function Kept(info: Pod, list: seq<string>, retried: bool): Pod {
    if retried && info.alias in list then info.(alive := false) else info
  }

  /** `t` is what the answers to `createService` leave of `s`, whose table is `table` and the entry. */
  ghost predicate Serviced(s: State, table: Table, info: Pod, w: WorkerId, retried: bool, ok: bool, t: State) {
    var kept := Kept(info, BoundTo(s, w), retried);
    && t.pods == Bystanders(table, BoundTo(s, w), retried)[info.alias := if ok then kept.(alive := true) else kept]
    && BoundTo(t, w) == (if retried then [] else BoundTo(s, w))
    && (forall v :: v != w ==> BoundTo(t, v) == BoundTo(s, v))
    && t.down == s.down + (if retried then BoundTo(s, w) else []) && t.up == s.up
    && info.worker.Some?
    && t.log == s.log + [if ok then CreateEnd(kept) else CreateFail(info.alias)]
  }

  lemma LastServiced(s: State, table: Table, info: Pod, w: WorkerId, reply: Reply)
    requires s.pods == table[info.alias := info] && info.alias !in table && info.worker == Some(w)
    requires !IsManagerDown(reply)
    ensures Serviced(s, table, info, w, false, Succeeds(reply), ForkAnswer(s, info.alias, reply))
  {
    hide CreateEnd, CreateFail;
    assert s.down + [] == s.down;
  }

  lemma DownServiced(s: State, table: Table, info: Pod, w: WorkerId, retried: bool, ok: bool, t: State)
    requires s.pods == table[info.alias := info] && info.alias !in table
    requires Serviced(AllDown(s, w), MarkDead(table, BoundTo(s, w)), Kept(info, BoundTo(s, w), true), w, retried, ok, t)
    ensures Serviced(s, table, info, w, true, ok, t)
  {
    hide CreateEnd, CreateFail;
    assert MarkDead(MarkDead(table, BoundTo(s, w)), []) == MarkDead(table, BoundTo(s, w));
    assert s.down + BoundTo(s, w) + [] == s.down + BoundTo(s, w);
  }

  lemma AllDownKept(s: State, table: Table, info: Pod, w: WorkerId)
    requires s.pods == table[info.alias := info] && info.alias !in table
    ensures AllDown(s, w).pods == MarkDead(table, BoundTo(s, w))[info.alias := Kept(info, BoundTo(s, w), true)]
    ensures info.alias !in MarkDead(table, BoundTo(s, w)) && Kept(info, BoundTo(s, w), true).alias == info.alias
    ensures Kept(info, BoundTo(s, w), true).worker == info.worker
  {}

  /** The answers to `createService`: the entry is alive after a success, otherwise as it was, unless a "Manager
      Down" found it on the list. */
  lemma {:induction false} ForkEnds(s: State, table: Table, info: Pod, w: WorkerId, replies: seq<Reply>)
    requires s.pods == table[info.alias := info] && info.alias !in table && info.worker == Some(w)
    requires Script(replies)
    ensures Serviced(s, table, info, w, |replies| > 1, Succeeds(Last(replies)), ForkAnswers(s, info.alias, replies))
    decreases |replies|
  {
    hide Serviced, AllDown, MarkDead, Kept;
    AnswerKeepsBinding(s, info.alias, replies[0]);
    if |replies| > 1 {
      assert IsManagerDown(replies[0]);
      AllDownKept(s, table, info, w);
      ForkEnds(AllDown(s, w), MarkDead(table, BoundTo(s, w)), Kept(info, BoundTo(s, w), true), w, replies[1..]);
      DownServiced(s, table, info, w, |replies| > 2, Succeeds(Last(replies)), ForkAnswers(s, info.alias, replies));
    } else {
      LastServiced(s, table, info, w, replies[0]);
      assert ForkAnswers(s, info.alias, replies) == ForkAnswer(s, info.alias, replies[0]) by {
        assert replies[1..] == [];
      }
    }
  }

  // ---------------------------------------------------------------- the object

  lemma {:induction false} RemoveFirstSplit(list: seq<string>, alias: string, i: nat)
    requires i < |list| && list[i] == alias && alias !in list[..i]
    ensures RemoveFirst(list, alias) == list[..i] + list[i + 1..]
  {
    if i > 0 {
      assert list[0] in list[..i];
      assert list[1..][..i - 1] == list[..i][1..];
      RemoveFirstSplit(list[1..], alias, i - 1);
      assert list[..i] == [list[0]] + list[1..][..i - 1];
      assert [list[0]] + (list[1..][..i - 1] + list[i + 1..]) == list[..i] + list[i + 1..];
    }
  }

  lemma {:induction false} RemoveFirstAbsent(list: seq<string>, alias: string)
    requires alias !in list
    ensures RemoveFirst(list, alias) == list
  {
    if list != [] {
      RemoveFirstAbsent(list[1..], alias);
    }
  }

  class Manager {
    const linking: Reading
    var pods: Table
    var bound: map<WorkerId, seq<string>>
    var up: set<WorkerId>
    var downServices: seq<string>
    var log: seq<string>
    var curLine: int

    constructor (linking: Reading)
      ensures AsState() == State(map[], map[], {}, [], []) && curLine == 0 && this.linking == linking
    {
      this.linking := linking;
      pods, bound, up, downServices, log, curLine := map[], map[], {}, [], [], 0;
    }

    function AsState(): State
      reads this
    {
      State(pods, bound, up, downServices, log)
    }

    function Pods(w: WorkerId): seq<string>
      reads this
    {
      if w in bound then bound[w] else []
    }

    /** `cur_line = logger->append(line)`. */
    method WriteLog(line: string)
      modifies this
      ensures AsState() == Append(old(AsState()), line) && curLine == |log|
    {
      log := log + [line];
      curLine := |log|;
    }

    method RemovePodDescriptor(w: WorkerId, alias: string)
      modifies this
      ensures AsState() == Unlink(old(AsState()), w, alias) && curLine == old(curLine)
    {
      var list := Pods(w);
      var i := 0;
      while i < |list|
        invariant i <= |list| && alias !in list[..i]
        invariant AsState() == old(AsState()) && curLine == old(curLine)
      {
        if list[i] == alias {
          RemoveFirstSplit(list, alias, i);
          bound := bound[w := list[..i] + list[i + 1..]];
          return;
        }
        i := i + 1;
      }
      assert list[..i] == list;
      RemoveFirstAbsent(list, alias);
      bound := bound[w := list];
    }

    /** The loop over `wd->pods` that marks every pod dead and, when asked to, notes it as down. */
    method MarkPods(w: WorkerId, note: bool)
      modifies this
      ensures AsState() == old(AsState()).(pods := MarkDead(old(pods), old(Pods(w))),
                                           down := old(downServices) + if note then old(Pods(w)) else [])
      ensures curLine == old(curLine)
    {
      var list := Pods(w);
      assert list[..|list|] == list;
      for i := 0 to |list|
        invariant pods == MarkDead(old(pods), list[..i])
        invariant downServices == old(downServices) + if note then list[..i] else []
        invariant AsState() == old(AsState()).(pods := pods, down := downServices) && curLine == old(curLine)
      {
        assert list[..i + 1] == list[..i] + [list[i]];
        if list[i] in pods {
          pods := pods[list[i] := pods[list[i]].(alive := false)];
        }
        if note {
          downServices := downServices + [list[i]];
        }
      }
    }

    method ManagerDown(w: WorkerId)
      modifies this
      ensures AsState() == AllDown(old(AsState()), w) && curLine == old(curLine)
    {
      MarkPods(w, true);
      bound := bound[w := []];
    }

    method ErasePod(alias: string)
      requires alias in pods
      modifies this
      ensures AsState() == EraseEntry(old(AsState()), alias) && log == old(log) && curLine == old(curLine)
    {
      var w := pods[alias].worker;
      pods := pods - {alias};
      if w.Some? {
        RemovePodDescriptor(w.value, alias);
      }
    }

    method CreateService(alias: string, replies: seq<Reply>) returns (ok: bool)
      requires Bindable(AsState(), alias) && Script(replies)
      modifies this
      ensures AsState() == Created(old(AsState()), alias, replies)
      ensures ok <==> Succeeds(Last(replies))
      ensures curLine == |log|
    {
      WriteLog(CreateStart(alias));
      var w := pods[alias].worker.value;
      var i := 0;
      ghost var began := AsState();
      while IsManagerDown(replies[i])
        invariant i < |replies| && Bindable(AsState(), alias) && pods[alias].worker == Some(w) && curLine == |log|
        invariant ForkAnswers(AsState(), alias, replies[i..]) == ForkAnswers(began, alias, replies)
        decreases |replies| - i
      {
        AnswerKeepsBinding(AsState(), alias, replies[i]);
        assert replies[i..][1..] == replies[i + 1..];
        ManagerDown(w);
        i := i + 1;
      }
      assert i == |replies| - 1 && replies[i..] == [Last(replies)];
      assert replies[i..][1..] == [];
      if !Succeeds(replies[i]) {
        WriteLog(CreateFail(alias));
        return false;
      }
      WriteLog(CreateEnd(pods[alias]));
      pods := pods[alias := pods[alias].(alive := true)];
      return true;
    }

    /** `chosen` is the scheduler's answer. */
    method SelectWorkerToCreatePod(pod: Pod, chosen: Option<WorkerId>, replies: seq<Reply>) returns (ok: bool)
      requires Script(replies)
      modifies this
      ensures AsState() == Selected(old(AsState()), pod, chosen, replies)
      ensures ok <==> chosen.Some? && Succeeds(Last(replies))
      ensures curLine == if chosen.Some? then |log| else old(curLine)
    {
      if pod.alias !in pods {
        pods := pods[pod.alias := pod.(alive := false, worker := None)];
      }
      if chosen.None? {
        pods := pods - {pod.alias};
        return false;
      }
      pods := pods[pod.alias := pods[pod.alias].(worker := chosen)];
      bound := bound[chosen.value := Pods(chosen.value) + [pod.alias]];
      ghost var began := AsState();
      AnswersKeepBinding(Append(began, CreateStart(pod.alias)), pod.alias, replies);
      ok := CreateService(pod.alias, replies);
      if !ok {
        ErasePod(pod.alias);
      }
    }

    method CreatePod(wd: Option<WorkerId>, pod: Pod, replies: seq<Reply>) returns (ok: bool)
      requires Script(replies)
      modifies this
      ensures wd.None? || pod.alias in old(pods) ==> AsState() == old(AsState()) && !ok
      ensures wd.Some? && pod.alias !in old(pods) ==>
                && AsState() ==
                   CreatePodAnswers(CreatePodBegin(old(AsState()), pod, wd.value), pod.alias, replies, linking)
                && (ok <==> Succeeds(Last(replies)))
      ensures curLine == if wd.None? || pod.alias in old(pods) then old(curLine) else |log|
    {
      hide CreateFail, CreateEnd, CreateStart, RemoveFirst;
      hide CreatePodAnswers, AllDown, EraseEntry, MarkDead;
      if wd.None? || pod.alias in pods {
        return false;
      }
      var w, alias := wd.value, pod.alias;
      var info := pod.(alive := true, worker := wd);
      pods := pods[alias := info];
      WriteLog(CreateStart(alias));
      var i := 0;
      ghost var began := AsState();
      while IsManagerDown(replies[i])
        invariant i < |replies| && Bindable(AsState(), alias) && pods[alias].(alive := true) == info
        invariant Script(replies[i..]) && Last(replies[i..]) == Last(replies)
        invariant CreatePodAnswers(AsState(), alias, replies[i..], linking) ==
                  CreatePodAnswers(began, alias, replies, linking)
        decreases |replies| - i
      {
        assert replies[i..][1..] == replies[i + 1..];
        DownAnswer(AsState(), alias, replies[i..], linking);
        ManagerDown(w);
        i := i + 1;
      }
      LastAnswer(AsState(), alias, replies[i..], linking);
      if !Succeeds(replies[i]) {
        WriteLog(CreateFail(alias));
        ErasePod(alias);
        return false;
      }
      WriteLog(CreateEnd(info));
      var pointers := Entries(Pods(w));
      pointers := pointers + [if linking == AsWritten then Local else Entry(alias)];
      ok := true;
      // The scope of `info` ends here.
      ListIsAliases(Pods(w), alias, linking);
      pointers := RemoveFirst(pointers, Local);
      bound := bound[w := Aliases(pointers)];
    }

    method StopPod(alias: string, reply: Reply) returns (ok: bool)
      requires alias in pods ==> pods[alias].worker.Some?
      modifies this
      ensures alias !in old(pods) ==> AsState() == old(AsState()) && !ok
      ensures alias in old(pods) && !old(pods)[alias].alive ==> AsState() == StopBegin(old(AsState()), alias) && !ok
      ensures alias in old(pods) && old(pods)[alias].alive ==>
                && AsState() == StopAnswer(StopBegin(old(AsState()), alias), alias, reply)
                && (ok <==> Succeeds(reply) || IsManagerDown(reply))
      ensures curLine == if alias in old(pods) && old(pods)[alias].alive then |log| else old(curLine)
    {
      if alias !in pods {
        return false;
      }
      var w := pods[alias].worker.value;
      RemovePodDescriptor(w, alias);
      if !pods[alias].alive {
        bound := bound[w := Pods(w) + [alias]];
        return false;
      }
      WriteLog(StopStart(alias));
      if IsManagerDown(reply) {
        ManagerDown(w);
      } else if !Succeeds(reply) {
        WriteLog(StopEnd(alias, false));
        pods := pods[alias := pods[alias].(alive := false)];
        bound := bound[w := Pods(w) + [alias]];
        return false;
      }
      WriteLog(StopEnd(alias, true));
      ErasePod(alias);
      return true;
    }

    method CheckServices(w: WorkerId, report: Report)
      modifies this
      ensures AsState() == if w in old(up) then CheckAnswer(old(AsState()), w, report) else old(AsState())
    {
      if w !in up {
        return;
      }
      if report.Unreachable? {
        up := up - {w};
        MarkPods(w, true);
        return;
      }
      if |report.services| == 0 {
        return;
      }
      if report.services[0].0 == "*" {
        MarkPods(w, false);
        assert downServices == old(downServices);
        return;
      }
      var i := 0;
      while i < |report.services|
        invariant i <= |report.services|
        invariant ReportDown(AsState(), report.services[i..]) == ReportDown(old(AsState()), report.services)
      {
        assert report.services[i..][1..] == report.services[i + 1..];
        var alias := report.services[i].0;
        if alias in pods {
          pods := pods[alias := pods[alias].(alive := false)];
          if report.services[i].1 != 0 {
            downServices := downServices + [alias];
          }
        }
        i := i + 1;
      }
    }

    method ParseLogLine(line: string, workers: seq<WorkerId>) returns (thrown: Option<Exception>)
      modifies this
      ensures var effect := EffectOf(line, workers);
              && AsState() == old(AsState()).(pods := Apply(effect, old(pods))) && curLine == old(curLine)
              && thrown == if effect.Throw? then Some(effect.e) else None
    {
      hide Streams.ReadWord, Decode, RestOfLine;
      var word, st := NextWord(Streams.Stream(line, true), "");
      if word == "CSS" || word == "DSS" {
        return None;
      }
      if word == "DSE" {
        var alias, result;
        alias, st := NextWord(st, "");
        result, st := NextWord(st, "");
        if result == "Success" {
          pods := pods - {alias};
        }
      } else if word == "CSE" {
        var text := RestOfLine(word, st);
        var service, result, sub;
        service, sub := NextWord(Streams.Stream(text, true), "");
        result, sub := NextWord(sub, "");
        if result == "Fail" {
          return None;
        }
        var info := SnapshotToServiceInfo(text, EMPTY, workers);
        if info.Err? {
          return Some(info.error);
        }
        if info.value.alias !in pods {
          pods := pods[info.value.alias := info.value];
        }
      }
      return None;
    }
  }
}
