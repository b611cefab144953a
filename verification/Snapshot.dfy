/** The snapshot file: line number, workers and pods, printed and read back. */
module Snapshot {
  import opened Wrappers
  import opened Streams
  import opened PodDescriptor
  import opened ManagerLog

  /** A worker as the reader restores it; the time of its last call is printed and never read. */
  datatype Peer = Peer(id: WorkerId, alive: bool)

  const WORKERS_END := "WorkerDescriptorEND"
  const PODS_END := "ServiceDescriptorEND"

  // ---------------------------------------------------------------- printing

  function PeerFields(peer: Peer, rpcTime: int): seq<string> {
    [peer.id.ip, ToString(peer.id.port), FlagText(peer.alive), ToString(rpcTime)]
  }

  lemma PeerShape(peer: Peer, rpcTime: int)
    ensures Join(PeerFields(peer, rpcTime)) ==
            peer.id.ip + " " + ToString(peer.id.port) + " " + (if peer.alive then "1" else "0") + " "
            + ToString(rpcTime)
  {
    var w := PeerFields(peer, rpcTime);
    assert Join(w[..1]) == w[0] && w[..4] == w;
    hide ToString, Join;
    JoinPrefix(w, 1);
    JoinPrefix(w, 2);
    JoinPrefix(w, 3);
  }

  function PeerLines(peers: seq<Peer>, rpcTimes: seq<int>): seq<string>
    requires |peers| == |rpcTimes|
  {
    if peers == [] then [] else [Join(PeerFields(peers[0], rpcTimes[0]))] + PeerLines(peers[1..], rpcTimes[1..])
  }

  function PodLines(pods: seq<Pod>): seq<string>
    requires forall i :: 0 <= i < |pods| ==> pods[i].worker.Some?
  {
    if pods == [] then [] else [ToSnapshot(pods[0])] + PodLines(pods[1..])
  }

  function Lines(curLine: int, peers: seq<Peer>, rpcTimes: seq<int>, pods: seq<Pod>): seq<string>
    requires |peers| == |rpcTimes| && forall i :: 0 <= i < |pods| ==> pods[i].worker.Some?
  {
    [ToString(curLine)] + (PeerLines(peers, rpcTimes) + ([WORKERS_END] + (PodLines(pods) + [PODS_END])))
  }

  lemma {:induction false} TerminateAppend(a: seq<string>, b: seq<string>, delim: char)
    ensures Terminate(a + b, delim) == Terminate(a, delim) + Terminate(b, delim)
  {
    if a == [] {
      assert a + b == b;
    } else {
      assert (a + b)[1..] == a[1..] + b;
      TerminateAppend(a[1..], b, delim);
      Regrouped(a[0] + [delim], Terminate(a[1..], delim), Terminate(b, delim));
    }
  }

  lemma Regrouped(a: string, b: string, c: string)
    ensures a + (b + c) == a + b + c
  {}

  /** `os << line << std::endl`. */
  method PrintLine(os: string, line: string, ghost lines: seq<string>) returns (out: string)
    requires os == Terminate(lines, '\n')
    ensures out == Terminate(lines + [line], '\n')
  {
    out := os + line + "\n";
    TerminateAppend(lines, [line], '\n');
    assert Terminate([line], '\n') == line + "\n" by { assert [line][1..] == []; }
    Regrouped(os, line, "\n");
  }

  lemma EmptyText()
    ensures Terminate([], '\n') == ""
  {}

  method PrintPeers(os: string, peers: seq<Peer>, rpcTimes: seq<int>, ghost lines: seq<string>) returns (out: string)
    requires |peers| == |rpcTimes| && os == Terminate(lines, '\n')
    ensures out == Terminate(lines + PeerLines(peers, rpcTimes), '\n')
  {
    hide Terminate, Join, PeerFields;
    out := os;
    ghost var done := lines;
    var i := 0;
    while i < |peers|
      invariant i <= |peers| && out == Terminate(done, '\n')
      invariant done + PeerLines(peers[i..], rpcTimes[i..]) == lines + PeerLines(peers, rpcTimes)
    {
      var line := Join(PeerFields(peers[i], rpcTimes[i]));
      assert peers[i..][1..] == peers[i + 1..] && rpcTimes[i..][1..] == rpcTimes[i + 1..];
      assert done + ([line] + PeerLines(peers[i + 1..], rpcTimes[i + 1..]))
             == done + [line] + PeerLines(peers[i + 1..], rpcTimes[i + 1..]);
      out := PrintLine(out, line, done);
      done := done + [line];
      i := i + 1;
    }
    assert done + [] == done;
  }

  method PrintPods(os: string, pods: seq<Pod>, ghost lines: seq<string>) returns (out: string)
    requires (forall i :: 0 <= i < |pods| ==> pods[i].worker.Some?) && os == Terminate(lines, '\n')
    ensures out == Terminate(lines + PodLines(pods), '\n')
  {
    hide Terminate, ToSnapshot;
    out := os;
    ghost var done := lines;
    var i := 0;
    while i < |pods|
      invariant i <= |pods| && out == Terminate(done, '\n')
      invariant done + PodLines(pods[i..]) == lines + PodLines(pods)
    {
      var line := ToSnapshotMessage(pods[i]);
      assert pods[i..][1..] == pods[i + 1..];
      assert done + ([line] + PodLines(pods[i + 1..])) == done + [line] + PodLines(pods[i + 1..]);
      out := PrintLine(out, line, done);
      done := done + [line];
      i := i + 1;
    }
    assert done + [] == done;
  }

  /** The writer thread of `snapshot`, on the copies it was given; `pods` in the order of the map. */
  method Print(curLine: int, peers: seq<Peer>, rpcTimes: seq<int>, pods: seq<Pod>) returns (os: string)
    requires |peers| == |rpcTimes| && forall i :: 0 <= i < |pods| ==> pods[i].worker.Some?
    ensures os == Terminate(Lines(curLine, peers, rpcTimes, pods), '\n')
  {
    hide Terminate, PeerLines, PodLines, ToString, ToSnapshot;
    ghost var lines: seq<string> := [];
    assert "" == Terminate([], '\n') by { EmptyText(); }
    os := PrintLine("", ToString(curLine), lines);
    lines := lines + [ToString(curLine)];
    os := PrintPeers(os, peers, rpcTimes, lines);
    lines := lines + PeerLines(peers, rpcTimes);
    os := PrintLine(os, WORKERS_END, lines);
    lines := lines + [WORKERS_END];
    os := PrintPods(os, pods, lines);
    lines := lines + PodLines(pods);
    os := PrintLine(os, PODS_END, lines);
    assert [] + [ToString(curLine)] == [ToString(curLine)];
    assert lines + [PODS_END] == Lines(curLine, peers, rpcTimes, pods);
  }

  // ---------------------------------------------------------------- reading

  /** `std::stoi`. */
  function ToInt(s: string): Result<int, Exception> {
    var (value, n, digits) := ScanInt(SkipSpace(s));
    if !digits then Err(InvalidArgument)
    else if INT_MIN <= value <= INT_MAX then Ok(value)
    else Err(OutOfRange)
  }

  /** `ss >> ip >> port >> alive`; the source leaves a port or flag it cannot read uninitialised. */
  function ReadPeer(line: string): Peer {
    var (ip, s1) := ReadWord(Stream(line, true), "");
    var (port, s2) := ReadInt(s1, 0);
    Peer(WorkerId(ip, port), ReadBool(s2, false).0)
  }

  /** How many lines a `while (getline && line != sentinel)` loop keeps. */
  function CountTo(lines: seq<string>, sentinel: string): (n: nat)
    ensures n <= |lines| && sentinel !in lines[..n] && (n < |lines| ==> lines[n] == sentinel)
  {
    if lines == [] || lines[0] == sentinel then 0 else 1 + CountTo(lines[1..], sentinel)
  }

  function Behind(lines: seq<string>, sentinel: string): seq<string> {
    var n := CountTo(lines, sentinel);
    if n == |lines| then [] else lines[n + 1..]
  }

  function ReadPeers(lines: seq<string>): seq<Peer> {
    if lines == [] then [] else [ReadPeer(lines[0])] + ReadPeers(lines[1..])
  }

  function Ids(peers: seq<Peer>): seq<WorkerId> {
    if peers == [] then [] else [peers[0].id] + Ids(peers[1..])
  }

  function Emplace(table: Table, pod: Pod): Table {
    if pod.alias in table then table else table[pod.alias := pod]
  }

  function ReadPods(lines: seq<string>, table: Table, workers: seq<WorkerId>): Result<Table, Exception>
    decreases |lines|
  {
    if lines == [] then Ok(table)
    else match Decode(lines[0], EMPTY, workers)
         case Err(e) => Err(e)
         case Ok(pod) => ReadPods(lines[1..], Emplace(table, pod), workers)
  }

  datatype Loaded = Loaded(curLine: int, peers: seq<Peer>, pods: Table)

  /** The first part of `recover`: what a snapshot text is read as. */
  function Load(text: string): Result<Loaded, Exception> {
    var lines := SplitOn(text, '\n');
    match ToInt(if lines == [] then "" else lines[0])
    case Err(e) => Err(e)
    case Ok(curLine) =>
      var rest := lines[1..];
      var peers := PeersOf(rest);
      match PodsOf(Behind(rest, WORKERS_END), map[], Ids(peers))
      case Err(e) => Err(e)
      case Ok(pods) => Ok(Loaded(curLine, peers, pods))
  }

  method ToPeer(line: string) returns (peer: Peer)
    ensures peer == ReadPeer(line)
  {
    var ip, port, alive;
    var st := Stream(line, true);
    ip, st := NextWord(st, "");
    port, st := NextInt(st, 0);
    alive, st := NextBool(st, false);
    peer := Peer(WorkerId(ip, port), alive);
  }

  /** The workers, and the pods, on the lines before the end mark. */
  function PeersOf(lines: seq<string>): seq<Peer> { ReadPeers(lines[..CountTo(lines, WORKERS_END)]) }

  function PodsOf(lines: seq<string>, table: Table, workers: seq<WorkerId>): Result<Table, Exception> {
    ReadPods(lines[..CountTo(lines, PODS_END)], table, workers)
  }

  lemma CountNext(lines: seq<string>, sentinel: string)
    requires lines != [] && lines[0] != sentinel
    ensures var n := CountTo(lines[1..], sentinel);
            CountTo(lines, sentinel) == 1 + n && lines[..1 + n] != [] && lines[..1 + n][1..] == lines[1..][..n]
    ensures Behind(lines, sentinel) == Behind(lines[1..], sentinel)
  {}

  lemma PeersNext(lines: seq<string>)
    requires lines != [] && lines[0] != WORKERS_END
    ensures PeersOf(lines) == [ReadPeer(lines[0])] + PeersOf(lines[1..])
    ensures Behind(lines, WORKERS_END) == Behind(lines[1..], WORKERS_END)
  {
    hide ReadPeer;
    CountNext(lines, WORKERS_END);
  }

  lemma PodsNext(lines: seq<string>, table: Table, workers: seq<WorkerId>)
    requires lines != [] && lines[0] != PODS_END
    ensures PodsOf(lines, table, workers) ==
            match Decode(lines[0], EMPTY, workers)
            case Err(e) => Err(e)
            case Ok(pod) => PodsOf(lines[1..], Emplace(table, pod), workers)
  {
    hide Decode;
    CountNext(lines, PODS_END);
  }

  lemma AtEnd(lines: seq<string>, sentinel: string)
    requires lines == [] || lines[0] == sentinel
    ensures CountTo(lines, sentinel) == 0 && lines[..0] == []
    ensures Behind(lines, sentinel) == if lines == [] then [] else lines[1..]
  {}

  /** The loop that reads workers, from line `from` on; `next` is where the following `getline` stands. */
  method LoadPeers(lines: seq<string>, from: nat) returns (peers: seq<Peer>, next: nat)
    requires from <= |lines|
    ensures peers == PeersOf(lines[from..])
    ensures next <= |lines| && lines[next..] == Behind(lines[from..], WORKERS_END)
  {
    hide ReadPeer, CountTo, Behind;
    peers, next := [], from;
    while next < |lines| && lines[next] != WORKERS_END
      invariant from <= next <= |lines|
      invariant peers + PeersOf(lines[next..]) == PeersOf(lines[from..])
      invariant Behind(lines[next..], WORKERS_END) == Behind(lines[from..], WORKERS_END)
    {
      PeersNext(lines[next..]);
      assert lines[next..][1..] == lines[next + 1..];
      var peer := ToPeer(lines[next]);
      assert peers + ([peer] + PeersOf(lines[next + 1..])) == peers + [peer] + PeersOf(lines[next + 1..]);
      peers := peers + [peer];
      next := next + 1;
    }
    AtEnd(lines[next..], WORKERS_END);
    assert peers + [] == peers;
    if next < |lines| {
      assert lines[next..][1..] == lines[next + 1..];
      next := next + 1;
    }
  }

  /** The loop that reads pods. */
  method LoadPods(lines: seq<string>, from: nat, workers: seq<WorkerId>) returns (r: Result<Table, Exception>)
    requires from <= |lines|
    ensures r == PodsOf(lines[from..], map[], workers)
  {
    hide Decode, CountTo;
    var pods: Table, next := map[], from;
    while next < |lines| && lines[next] != PODS_END
      invariant from <= next <= |lines|
      invariant PodsOf(lines[next..], pods, workers) == PodsOf(lines[from..], map[], workers)
    {
      PodsNext(lines[next..], pods, workers);
      assert lines[next..][1..] == lines[next + 1..];
      var info := SnapshotToServiceInfo(lines[next], EMPTY, workers);
      if info.Err? {
        return Err(info.error);
      }
      if info.value.alias !in pods {
        pods := pods[info.value.alias := info.value];
      }
      next := next + 1;
    }
    AtEnd(lines[next..], PODS_END);
    return Ok(pods);
  }

  method LoadSnapshot(text: string) returns (r: Result<Loaded, Exception>)
    ensures r == Load(text)
  {
    hide ToInt, PodsOf, PeersOf, Behind;
    var lines := SplitOn(text, '\n');
    var curLine := ToInt(if lines == [] then "" else lines[0]);
    if curLine.Err? {
      return Err(curLine.error);
    }
    NumberNeedsText(lines);
    var peers, next := LoadPeers(lines, 1);
    var pods := LoadPods(lines, next, Ids(peers));
    if pods.Err? {
      return Err(pods.error);
    }
    return Ok(Loaded(curLine.value, peers, pods.value));
  }

  lemma NumberNeedsText(lines: seq<string>)
    requires ToInt(if lines == [] then "" else lines[0]).Ok?
    ensures lines != []
  {}

  // ---------------------------------------------------------------- round trip

  /** No blank, so never a line that holds several words. */
  lemma {:induction false} JoinHasBlank(words: seq<string>)
    requires |words| > 1
    ensures ' ' in Join(words)
  {
    assert Join(words)[|words[0]|] == ' ';
  }

  lemma WordsAreNoSentinel(words: seq<string>)
    requires |words| > 1
    ensures Join(words) != WORKERS_END && Join(words) != PODS_END
  {
    JoinHasBlank(words);
    assert ' ' !in WORKERS_END && ' ' !in PODS_END;
  }

  lemma WordsHaveNoLineEnd(words: seq<string>)
    requires AllWords(words)
    ensures '\n' !in Join(words)
  {
    NoLineEnd(words, true);
    if words != [] {
      assert Before(words, true) == Join(words);
    }
  }

  lemma {:induction false} CountBefore(a: seq<string>, sentinel: string, b: seq<string>)
    requires sentinel !in a
    ensures CountTo(a + ([sentinel] + b), sentinel) == |a| && Behind(a + ([sentinel] + b), sentinel) == b
    ensures (a + ([sentinel] + b))[..|a|] == a
  {
    var s := a + ([sentinel] + b);
    if a == [] {
      assert s == [sentinel] + b;
    } else {
      assert s[1..] == a[1..] + ([sentinel] + b);
      CountBefore(a[1..], sentinel, b);
    }
  }

  predicate Printable(peer: Peer) { IsWord(peer.id.ip) && INT_MIN <= peer.id.port <= INT_MAX }

  lemma PeerLineRoundTrip(peer: Peer, rpcTime: int)
    requires Printable(peer)
    ensures ReadPeer(Join(PeerFields(peer, rpcTime))) == peer
    ensures '\n' !in Join(PeerFields(peer, rpcTime)) && Join(PeerFields(peer, rpcTime)) != WORKERS_END
  {
    var w := PeerFields(peer, rpcTime);
    ToStringIsWord(peer.id.port);
    ToStringIsWord(rpcTime);
    FlagIsNumber(peer.alive);
    ToStringIsWord(if peer.alive then 1 else 0);
    assert AllWords(w);
    hide IsWord, ToString, FlagText, ReadWord, ReadInt, ReadBool, AllWords;
    WordsAreNoSentinel(w);
    WordsHaveNoLineEnd(w);
    assert w[0..] == w && Before(w, true) == Join(w);
    hide Join, Before;
    WordAt(w, 0, true, "");
    IntAt(w, 1, 0, peer.id.port);
    BoolAt(w, 2, false, peer.alive);
  }

  lemma {:induction false} PeersRoundTrip(peers: seq<Peer>, rpcTimes: seq<int>)
    requires |peers| == |rpcTimes| && forall i :: 0 <= i < |peers| ==> Printable(peers[i])
    ensures ReadPeers(PeerLines(peers, rpcTimes)) == peers
    ensures forall l :: l in PeerLines(peers, rpcTimes) ==> '\n' !in l && l != WORKERS_END
  {
    hide Printable, ReadPeer, Join, PeerFields;
    if peers != [] {
      PeerLineRoundTrip(peers[0], rpcTimes[0]);
      PeersRoundTrip(peers[1..], rpcTimes[1..]);
    }
  }

  /** A pod the snapshot can hold, on one of the printed workers. */
  predicate Holdable(pod: Pod, workers: seq<WorkerId>) { WellFormed(pod) && pod.worker.value in workers }

  lemma PodLineIsClean(pod: Pod, workers: seq<WorkerId>)
    requires Holdable(pod, workers)
    ensures pod.worker.Some? && Decode(ToSnapshot(pod), EMPTY, workers) == Ok(pod.(docker := pod.exe))
    ensures '\n' !in ToSnapshot(pod) && ToSnapshot(pod) != PODS_END
  {
    PrintedPodIsWords(pod);
    var w := Fields(pod);
    assert |w| == 10 && ToSnapshot(pod) == Join(w);
    assert Reread(pod, workers) == pod.(docker := pod.exe);
    hide *;
    WordsAreNoSentinel(w);
    WordsHaveNoLineEnd(w);
    PodLineRoundTrip(pod, true, EMPTY, workers);
    assert "" + ToSnapshot(pod) == ToSnapshot(pod);
  }

  /** The pods of a table in some order. */
  function Listed(order: seq<string>, table: Table): seq<Pod>
    requires forall a :: a in order ==> a in table
  {
    if order == [] then [] else [table[order[0]]] + Listed(order[1..], table)
  }

  ghost predicate Enumerates(order: seq<string>, table: Table) {
    && (forall a :: a in order <==> a in table)
    && (forall i, j :: 0 <= i < j < |order| ==> order[i] != order[j])
  }

  /** What comes back of a table: the container's parameters are the executable's, the rest is as it was. */
  function Restored(table: Table): Table { map a | a in table :: table[a].(docker := table[a].exe) }

  /** The table the reader builds, pod by pod. */
  function Adding(done: Table, order: seq<string>, table: Table): Table
    requires forall a :: a in order ==> a in table
    decreases |order|
  {
    if order == [] then done
    else Adding(done[order[0] := table[order[0]].(docker := table[order[0]].exe)], order[1..], table)
  }

  lemma {:induction false} AddingAt(done: Table, order: seq<string>, table: Table, a: string)
    requires forall a :: a in order ==> a in table
    requires forall i, j :: 0 <= i < j < |order| ==> order[i] != order[j]
    ensures a in Adding(done, order, table) <==> a in done || a in order
    ensures a in order ==> Adding(done, order, table)[a] == table[a].(docker := table[a].exe)
    ensures a in done && a !in order ==> Adding(done, order, table)[a] == done[a]
    decreases |order|
  {
    if order != [] {
      AddingAt(done[order[0] := table[order[0]].(docker := table[order[0]].exe)], order[1..], table, a);
    }
  }

  lemma AddingAll(order: seq<string>, table: Table)
    requires Enumerates(order, table)
    ensures Adding(map[], order, table) == Restored(table)
  {
    forall a ensures a in Adding(map[], order, table) <==> a in table
             ensures a in table ==> Adding(map[], order, table)[a] == Restored(table)[a] {
      AddingAt(map[], order, table, a);
    }
  }

  lemma {:induction false} PodsRoundTrip(order: seq<string>, table: Table, workers: seq<WorkerId>, done: Table)
    requires forall a :: a in order ==> a in table
    requires forall a :: a in table ==> table[a].alias == a && Holdable(table[a], workers)
    requires forall i, j :: 0 <= i < j < |order| ==> order[i] != order[j]
    requires forall a :: a in order ==> a !in done
    ensures forall i :: 0 <= i < |Listed(order, table)| ==> Listed(order, table)[i].worker.Some?
    ensures var lines := PodLines(Listed(order, table));
            && (forall l :: l in lines ==> '\n' !in l && l != PODS_END)
            && ReadPods(lines, done, workers) == Ok(Adding(done, order, table))
    decreases |order|
  {
    hide Holdable, Decode, ToSnapshot;
    if order != [] {
      var pod := table[order[0]];
      PodLineIsClean(pod, workers);
      PodsRoundTrip(order[1..], table, workers, done[order[0] := pod.(docker := pod.exe)]);
    }
  }

  lemma NumberRoundTrip(n: int)
    requires INT_MIN <= n <= INT_MAX
    ensures ToInt(ToString(n)) == Ok(n) && '\n' !in ToString(n)
  {
    ToStringIsWord(n);
    SkipLead("", ToString(n));
    assert "" + ToString(n) == ToString(n) && ToString(n) + "" == ToString(n);
    ScanPrinted(n, "");
  }

  /** The snapshot round trip: any line number, any workers, any bound pods in any order, through both end marks.
      Every pod is on the worker it was on. */
  lemma {:induction false} SnapshotRoundTrip(curLine: int, peers: seq<Peer>, rpcTimes: seq<int>, order: seq<string>,
                                             table: Table)
    requires INT_MIN <= curLine <= INT_MAX
    requires |peers| == |rpcTimes| && forall i :: 0 <= i < |peers| ==> Printable(peers[i])
    requires Enumerates(order, table)
    requires forall a :: a in table ==> table[a].alias == a && Holdable(table[a], Ids(peers))
    ensures forall i :: 0 <= i < |Listed(order, table)| ==> Listed(order, table)[i].worker.Some?
    ensures Load(Terminate(Lines(curLine, peers, rpcTimes, Listed(order, table)), '\n')) ==
            Ok(Loaded(curLine, peers, Restored(table)))
  {
    hide Holdable, Printable, Decode, ToSnapshot, ToString, ToInt, ReadPeers, ReadPods, PeerLines, Terminate, SplitOn;
    NumberRoundTrip(curLine);
    PeersRoundTrip(peers, rpcTimes);
    PodsRoundTrip(order, table, Ids(peers), map[]);
    AddingAll(order, table);
    var a, b := PeerLines(peers, rpcTimes), PodLines(Listed(order, table));
    LinesRoundTrip(curLine, a, b, Lines(curLine, peers, rpcTimes, Listed(order, table)));
  }

  lemma LinesRoundTrip(curLine: int, a: seq<string>, b: seq<string>, lines: seq<string>)
    requires lines == [ToString(curLine)] + (a + ([WORKERS_END] + (b + [PODS_END])))
    requires ToInt(ToString(curLine)) == Ok(curLine) && '\n' !in ToString(curLine)
    requires forall l :: l in a ==> '\n' !in l && l != WORKERS_END
    requires forall l :: l in b ==> '\n' !in l && l != PODS_END
    ensures Load(Terminate(lines, '\n')) ==
            match ReadPods(b, map[], Ids(ReadPeers(a)))
            case Err(e) => Err(e)
            case Ok(pods) => Ok(Loaded(curLine, ReadPeers(a), pods))
  {
    hide ToString, ToInt, ReadPeers, ReadPods, Terminate, SplitOn, CountTo;
    assert '\n' !in WORKERS_END && '\n' !in PODS_END;
    SplitTerminated(lines, '\n');
    assert lines[1..] == a + ([WORKERS_END] + (b + [PODS_END]));
    CountBefore(a, WORKERS_END, b + [PODS_END]);
    assert b + ([PODS_END] + []) == b + [PODS_END];
    CountBefore(b, PODS_END, []);
  }
}
