/** The manager's view of a pod, the line it is printed as in snapshots and in the log, and the reader of that
    line. */
module PodDescriptor {
  import opened Wrappers
  import opened Streams

  datatype ServiceType = Host | Docker

  datatype WorkerId = WorkerId(ip: string, port: int)

  /** `worker` stands for the pointer `wd_`. */
  datatype Pod = Pod(
    service: string, alias: string, typ: ServiceType, alive: bool, worker: Option<WorkerId>,
    exe: seq<string>, docker: seq<string>, port: int, restart: int)

  /** A default-constructed descriptor; the source leaves the numbers uninitialised. */
  const EMPTY := Pod("", "", Host, false, None, [], [], 0, 0)

  // ---------------------------------------------------------------- printing

  function Braced(params: seq<string>): string { "{" + Terminate(params, ',') + "}" }

  function TypeText(typ: ServiceType): string { if typ == Host then "host" else "docker" }

  /** The words of the line.  The executable's parameters are printed twice, the container's never. */
  function Fields(pod: Pod): seq<string>
    requires pod.worker.Some?
  {
    [pod.service, pod.alias, TypeText(pod.typ), ToString(pod.port), FlagText(pod.alive), pod.worker.value.ip,
     ToString(pod.worker.value.port), Braced(pod.exe), Braced(pod.exe), ToString(pod.restart)]
  }

  function ToSnapshot(pod: Pod): string
    requires pod.worker.Some?
  {
    Join(Fields(pod))
  }

  /** The literal shape of the line; in braces, each parameter has a comma behind it. */
  lemma LineShape(pod: Pod, param: string, rest: seq<string>)
    requires pod.worker.Some?
    ensures Braced([]) == "{}" && Braced([param] + rest) == "{" + param + "," + Braced(rest)[1..]
    ensures ToSnapshot(pod) ==
            pod.service + " " + pod.alias + " " + (if pod.typ == Host then "host" else "docker") + " "
            + ToString(pod.port) + " " + (if pod.alive then "1" else "0") + " " + pod.worker.value.ip + " "
            + ToString(pod.worker.value.port) + " " + Braced(pod.exe) + " " + Braced(pod.exe) + " "
            + ToString(pod.restart)
  {
    assert ([param] + rest)[1..] == rest;
    hide ToString, Braced, Join;
    JoinTen(Fields(pod));
  }

  method AppendParams(text: string, params: seq<string>) returns (out: string)
    ensures out == text + Terminate(params, ',')
  {
    out := text;
    var i := 0;
    while i < |params|
      invariant i <= |params| && out + Terminate(params[i..], ',') == text + Terminate(params, ',')
    {
      assert params[i..][1..] == params[i + 1..];
      ghost var rest := Terminate(params[i + 1..], ',');
      assert out + (params[i] + [','] + rest) == out + params[i] + "," + rest;
      out := out + params[i];
      out := out + ",";
      i := i + 1;
    }
    assert out + "" == out;
  }

  lemma {:induction false} JoinSnoc(words: seq<string>, last: string)
    requires words != []
    ensures Join(words + [last]) == Join(words) + " " + last
  {
    if |words| == 1 {
      assert (words + [last])[1..] == [last];
    } else {
      assert (words + [last])[1..] == words[1..] + [last];
      JoinSnoc(words[1..], last);
      JoinShift(words[0], Join(words[1..]), last);
    }
  }

  lemma JoinShift(a: string, b: string, last: string)
    ensures a + " " + (b + " " + last) == a + " " + b + " " + last
  {}

  lemma JoinPrefix(w: seq<string>, k: nat)
    requires 0 < k < |w|
    ensures Join(w[..k + 1]) == Join(w[..k]) + " " + w[k]
  {
    JoinSnoc(w[..k], w[k]);
    assert w[..k + 1] == w[..k] + [w[k]];
  }

  lemma JoinTen(w: seq<string>)
    requires |w| == 10
    ensures Join(w) == w[0] + " " + w[1] + " " + w[2] + " " + w[3] + " " + w[4] + " " + w[5] + " " + w[6]
                       + " " + w[7] + " " + w[8] + " " + w[9]
  {
    assert Join(w[..1]) == w[0];
    JoinPrefix(w, 1);
    JoinPrefix(w, 2);
    JoinPrefix(w, 3);
    JoinPrefix(w, 4);
    JoinPrefix(w, 5);
    JoinPrefix(w, 6);
    JoinPrefix(w, 7);
    JoinPrefix(w, 8);
    JoinPrefix(w, 9);
    assert w[..10] == w;
  }

  method ToSnapshotMessage(pod: Pod) returns (snapshot: string)
    requires pod.worker.Some?
    ensures snapshot == ToSnapshot(pod)
  {
    var front := pod.service + " " + pod.alias + " " + (if pod.typ == Host then "host " else "docker ")
               + ToString(pod.port) + " " + FlagText(pod.alive) + " " + pod.worker.value.ip
               + " " + ToString(pod.worker.value.port);
    snapshot := AppendParams(front + " {", pod.exe);
    snapshot := AppendParams(snapshot + "} {", pod.exe);
    snapshot := snapshot + "} ";
    snapshot := snapshot + ToString(pod.restart);
    PrintedInPieces(pod, front);
  }

  lemma PrintedInPieces(pod: Pod, front: string)
    requires pod.worker.Some?
    requires front == pod.service + " " + pod.alias + " " + (if pod.typ == Host then "host " else "docker ")
                      + ToString(pod.port) + " " + FlagText(pod.alive) + " " + pod.worker.value.ip
                      + " " + ToString(pod.worker.value.port)
    ensures front + " {" + Terminate(pod.exe, ',') + "} {" + Terminate(pod.exe, ',') + "} " + ToString(pod.restart)
            == ToSnapshot(pod)
  {
    JoinTen(Fields(pod));
    FrontIs(pod.service, pod.alias, pod.typ, ToString(pod.port), FlagText(pod.alive), pod.worker.value.ip,
            ToString(pod.worker.value.port));
    BackIs(front, Terminate(pod.exe, ','), ToString(pod.restart));
  }

  lemma FrontIs(a: string, b: string, typ: ServiceType, d: string, e: string, f: string, g: string)
    ensures a + " " + b + " " + (if typ == Host then "host " else "docker ") + d + " " + e + " " + f + " " + g
            == a + " " + b + " " + TypeText(typ) + " " + d + " " + e + " " + f + " " + g
  {
    assert (if typ == Host then "host " else "docker ") == TypeText(typ) + " ";
  }

  lemma BackIs(front: string, p: string, r: string)
    ensures front + " {" + p + "} {" + p + "} " + r
            == front + " " + ("{" + p + "}") + " " + ("{" + p + "}") + " " + r
  {
    assert " {" == " " + "{" && "} {" == "}" + " " + "{" && "} " == "}" + " ";
  }

  // ---------------------------------------------------------------- reading

  /** `substr` on an empty string throws, and so does `stoi` on a text that is not a number, or not an `int`. */
  datatype Exception = OutOfRange | InvalidArgument

  /** The place in the list of the descriptor with that address, past the end when there is none. */
  function DescriptorAt(workers: seq<WorkerId>, id: WorkerId): (k: nat)
    ensures k <= |workers| && id !in workers[..k] && (k < |workers| ==> workers[k] == id)
  {
    if workers == [] || workers[0] == id then 0 else 1 + DescriptorAt(workers[1..], id)
  }

  /** `findWorkerDescriptor(ip, port)`. */
  function FindWorker(workers: seq<WorkerId>, id: WorkerId): (wd: Option<WorkerId>)
    ensures wd == if id in workers then Some(id) else None
  {
    var k := DescriptorAt(workers, id);
    if k < |workers| then Some(workers[k]) else None
  }

  lemma FirstDescriptor(workers: seq<WorkerId>, id: WorkerId, k: nat)
    requires k <= |workers| && id !in workers[..k] && (k < |workers| ==> workers[k] == id)
    ensures DescriptorAt(workers, id) == k
  {
    assert DescriptorAt(workers, id) >= k;
  }

  /** Returns the place of the descriptor, which stands for the pointer. */
  method FindWorkerDescriptor(workers: seq<WorkerId>, ip: string, port: int) returns (k: nat)
    ensures k == DescriptorAt(workers, WorkerId(ip, port))
  {
    k := 0;
    while k < |workers|
      invariant k <= |workers| && WorkerId(ip, port) !in workers[..k]
    {
      if workers[k].ip == ip && workers[k].port == port {
        break;
      }
      k := k + 1;
    }
    FirstDescriptor(workers, WorkerId(ip, port), k);
  }

  /** The text between the braces: `params.substr(1, params.size() - 2)`. */
  function Inner(params: string): Result<string, Exception> {
    if params == "" then Err(OutOfRange)
    else if |params| == 1 then Ok("")
    else Ok(params[1..|params| - 1])
  }

  /** What the variable `params` holds after the loop that cut `inner` at the commas. */
  function LeftOver(inner: string): string {
    if inner == "" || inner[|inner| - 1] == ',' then "" else SplitOn(inner, ',')[|SplitOn(inner, ',')| - 1]
  }

  /** `snapshotToServiceInfo` reads the names and the type, */
  function DecodeNames(line: string, info: Pod): (Pod, Stream) {
    var (service, s1) := ReadWord(Stream(line, true), info.service);
    var (alias, s2) := ReadWord(s1, info.alias);
    var (typ, s3) := ReadWord(s2, "");
    (info.(service := service, alias := alias, typ := if typ == "host" then Host else Docker), s3)
  }

  /** then port and liveness, */
  function DecodePort(pod: Pod, st: Stream): (Pod, Stream) {
    var (port, s4) := ReadInt(st, pod.port);
    var (alive, s5) := ReadBool(s4, pod.alive);
    (pod.(port := port, alive := alive), s5)
  }

  function ReadAddress(st: Stream): (WorkerId, Stream) {
    var (ip, s6) := ReadWord(st, "");
    var (wport, s7) := ReadInt(s6, 0);
    (WorkerId(ip, wport), s7)
  }

  /** then the worker's address, */
  function DecodeWorker(pod: Pod, st: Stream, workers: seq<WorkerId>): (Pod, Stream) {
    var (id, s7) := ReadAddress(st);
    (pod.(worker := FindWorker(workers, id)), s7)
  }

  /** then the two parameter lists and the restart budget. */
  function DecodeBack(pod: Pod, st: Stream): Result<Pod, Exception> {
    var (exe, s8) := ReadWord(st, "");
    match Inner(exe)
    case Err(e) => Err(e)
    case Ok(inner) =>
      var (docker, s9) := ReadWord(s8, LeftOver(inner));
      match Inner(docker)
      case Err(e) => Err(e)
      case Ok(inner') =>
        Ok(pod.(exe := pod.exe + SplitOn(inner, ','), docker := pod.docker + SplitOn(inner', ','),
                restart := ReadInt(s9, pod.restart).0))
  }

  /** `snapshotToServiceInfo`. */
  function Decode(line: string, info: Pod, workers: seq<WorkerId>): Result<Pod, Exception> {
    var (named, s3) := DecodeNames(line, info);
    var (ported, s5) := DecodePort(named, s3);
    var (placed, s7) := DecodeWorker(ported, s5, workers);
    DecodeBack(placed, s7)
  }

  /** Cutting off the first piece leaves the same text behind the last comma. */
  lemma LeftOverNext(s: string)
    requires s != ""
    ensures var n := LengthTo(s, ',');
            && (n == |s| ==> LeftOver(s) == s)
            && (n == |s| - 1 ==> LeftOver(s) == "")
            && (n < |s| - 1 ==> LeftOver(s) == LeftOver(s[n + 1..]))
  {
    var n := LengthTo(s, ',');
    if n == |s| {
      assert s[..n] == s;
      LeftOverOf(s, [], s);
      assert SplitOn(s, ',') == [] + [s];
    } else if n < |s| - 1 {
      var rest := s[n + 1..];
      SplitNotEmpty(rest);
      LeftOverBehind(s, n, SplitOn(rest, ','));
    }
  }

  lemma SplitNotEmpty(s: string)
    requires s != ""
    ensures SplitOn(s, ',') != []
  {}

  lemma LeftOverOf(s: string, front: seq<string>, last: string)
    requires s != "" && s[|s| - 1] != ',' && SplitOn(s, ',') == front + [last]
    ensures LeftOver(s) == last
  {
    hide SplitOn;
  }

  lemma LeftOverBehind(s: string, n: nat, pieces: seq<string>)
    requires n < |s| - 1 && pieces != [] && pieces == SplitOn(s[n + 1..], ',')
    requires SplitOn(s, ',') == [s[..n]] + pieces
    ensures LeftOver(s) == LeftOver(s[n + 1..])
  {
    hide SplitOn;
    assert s[n + 1..][|s[n + 1..]| - 1] == s[|s| - 1];
  }

  lemma SplitNext(s: string, out: seq<string>)
    requires s != ""
    ensures var n := LengthTo(s, ',');
            out + SplitOn(s, ',') == out + [s[..n]] + SplitOn(if n == |s| then "" else s[n + 1..], ',')
  {
    hide LengthTo, Span;
    var n := LengthTo(s, ',');
    var tail := SplitOn(if n == |s| then "" else s[n + 1..], ',');
    assert out + ([s[..n]] + tail) == out + [s[..n]] + tail;
  }

  /** The loop that cuts `inner` at the commas. */
  method CutParams(inner: string, params: seq<string>) returns (out: seq<string>, piece: string)
    ensures out == params + SplitOn(inner, ',') && piece == LeftOver(inner)
  {
    out := params;
    piece := "";
    var rest := inner;
    while rest != ""
      invariant out + SplitOn(rest, ',') == params + SplitOn(inner, ',')
      invariant rest != "" ==> LeftOver(rest) == LeftOver(inner)
      invariant rest == "" ==> piece == LeftOver(inner)
      decreases |rest|
    {
      LeftOverNext(rest);
      SplitNext(rest, out);
      var n := LengthTo(rest, ',');
      out := out + [rest[..n]];
      piece := if n == |rest| then rest else "";
      rest := if n == |rest| then "" else rest[n + 1..];
    }
    assert out + [] == out;
  }

  method NextWord(st: Stream, before: string) returns (word: string, next: Stream)
    ensures (word, next) == ReadWord(st, before)
  {
    var r := ReadWord(st, before);
    return r.0, r.1;
  }

  method NextInt(st: Stream, before: int) returns (number: int, next: Stream)
    ensures (number, next) == ReadInt(st, before)
  {
    var r := ReadInt(st, before);
    return r.0, r.1;
  }

  method NextBool(st: Stream, before: bool) returns (flag: bool, next: Stream)
    ensures (flag, next) == ReadBool(st, before)
  {
    var r := ReadBool(st, before);
    return r.0, r.1;
  }

  method ReadNames(line: string, info: Pod) returns (pod: Pod, st: Stream)
    ensures (pod, st) == DecodeNames(line, info)
  {
    pod := info;
    st := Stream(line, true);
    var word;
    word, st := NextWord(st, pod.service);
    pod := pod.(service := word);
    word, st := NextWord(st, pod.alias);
    pod := pod.(alias := word);
    word, st := NextWord(st, "");
    pod := pod.(typ := if word == "host" then Host else Docker);
  }

  method ReadPort(info: Pod, from: Stream) returns (pod: Pod, st: Stream)
    ensures (pod, st) == DecodePort(info, from)
  {
    pod, st := info, from;
    var number, flag;
    number, st := NextInt(st, pod.port);
    pod := pod.(port := number);
    flag, st := NextBool(st, pod.alive);
    pod := pod.(alive := flag);
  }

  method ReadWorker(info: Pod, from: Stream, workers: seq<WorkerId>) returns (pod: Pod, st: Stream)
    ensures (pod, st) == DecodeWorker(info, from, workers)
  {
    pod, st := info, from;
    var ip, port;
    ip, st := NextWord(st, "");
    port, st := NextInt(st, 0);
    var k := FindWorkerDescriptor(workers, ip, port);
    pod := pod.(worker := if k < |workers| then Some(workers[k]) else None);
  }

  method SnapshotToServiceInfo(line: string, info: Pod, workers: seq<WorkerId>) returns (r: Result<Pod, Exception>)
    ensures r == Decode(line, info, workers)
  {
    var pod, st := ReadNames(line, info);
    pod, st := ReadPort(pod, st);
    pod, st := ReadWorker(pod, st, workers);
    var word, params;
    word, st := NextWord(st, "");
    if word == "" {
      return Err(OutOfRange);
    }
    params, word := CutParams(if |word| == 1 then "" else word[1..|word| - 1], pod.exe);
    pod := pod.(exe := params);
    word, st := NextWord(st, word);
    if word == "" {
      return Err(OutOfRange);
    }
    params, word := CutParams(if |word| == 1 then "" else word[1..|word| - 1], pod.docker);
    pod := pod.(docker := params);
    pod := pod.(restart := ReadInt(st, pod.restart).0);
    return Ok(pod);
  }

  // ---------------------------------------------------------------- round trip

  /** Names are words, parameters hold neither white space nor a comma and may be empty, numbers fit an `int`. */
  predicate WellFormed(pod: Pod) {
    && IsWord(pod.service) && IsWord(pod.alias)
    && pod.worker.Some? && IsWord(pod.worker.value.ip)
    && INT_MIN <= pod.port <= INT_MAX && INT_MIN <= pod.restart <= INT_MAX
    && INT_MIN <= pod.worker.value.port <= INT_MAX
    && (forall p :: p in pod.exe ==> ',' !in p && forall i :: 0 <= i < |p| ==> !IsSpace(p[i]))
  }

  /** What the reader makes of a printed pod: everything printed comes back, the container's parameters are the
      executable's. */
  function Reread(pod: Pod, workers: seq<WorkerId>): Pod
    requires pod.worker.Some?
  {
    pod.(docker := pod.exe, worker := FindWorker(workers, pod.worker.value))
  }

  lemma {:induction false} TerminatedHasNoSpace(params: seq<string>)
    requires forall p :: p in params ==> forall i :: 0 <= i < |p| ==> !IsSpace(p[i])
    ensures forall i :: 0 <= i < |Terminate(params, ',')| ==> !IsSpace(Terminate(params, ',')[i])
  {
    if params != [] {
      TerminatedHasNoSpace(params[1..]);
    }
  }

  lemma BracedIsWord(params: seq<string>)
    requires forall p :: p in params ==> forall i :: 0 <= i < |p| ==> !IsSpace(p[i])
    ensures IsWord(Braced(params))
  {
    TerminatedHasNoSpace(params);
  }

  lemma BracedInner(params: seq<string>)
    requires forall p :: p in params ==> ',' !in p
    ensures Inner(Braced(params)).Ok? && SplitOn(Inner(Braced(params)).value, ',') == params
  {
    var t := Terminate(params, ',');
    var b := Braced(params);
    assert |b| == |t| + 2;
    assert b[1..|b| - 1] == t;
    SplitTerminated(params, ',');
  }

  lemma WordAt(w: seq<string>, k: nat, first: bool, before: string)
    requires k < |w| && IsWord(w[k])
    ensures ReadWord(Stream(Before(w[k..], first), true), before) == (w[k], Stream(Before(w[k + 1..], false), true))
  {
    hide *;
    ReadFirstWord(w[k..], first, before);
    assert w[k..][1..] == w[k + 1..];
  }

  lemma IntAt(w: seq<string>, k: nat, before: int, n: int)
    requires k < |w| && w[k] == ToString(n) && INT_MIN <= n <= INT_MAX
    ensures ReadInt(Stream(Before(w[k..], false), true), before) == (n, Stream(Before(w[k + 1..], false), true))
  {
    hide *;
    ReadFirstInt(w[k..], false, before, n);
    assert w[k..][1..] == w[k + 1..];
  }

  lemma BoolAt(w: seq<string>, k: nat, before: bool, flag: bool)
    requires k < |w| && w[k] == FlagText(flag)
    ensures ReadBool(Stream(Before(w[k..], false), true), before) == (flag, Stream(Before(w[k + 1..], false), true))
  {
    hide *;
    ReadFirstBool(w[k..], false, before, flag);
    assert w[k..][1..] == w[k + 1..];
  }

  lemma NamesOfReads(line: string, info: Pod, s1: Stream, s2: Stream, s3: Stream, service: string, alias: string,
                     typ: string)
    requires ReadWord(Stream(line, true), info.service) == (service, s1)
    requires ReadWord(s1, info.alias) == (alias, s2) && ReadWord(s2, "") == (typ, s3)
    ensures DecodeNames(line, info) ==
            (info.(service := service, alias := alias, typ := if typ == "host" then Host else Docker), s3)
  {}

  /** Two words in a row: the stream between them does not matter to anyone. */
  lemma TwoWordsAt(w: seq<string>, k: nat, first: bool, a: string, b: string) returns (between: Stream)
    requires k + 1 < |w| && IsWord(w[k]) && IsWord(w[k + 1])
    ensures ReadWord(Stream(Before(w[k..], first), true), a) == (w[k], between)
    ensures ReadWord(between, b) == (w[k + 1], Stream(Before(w[k + 2..], false), true))
  {
    hide ReadWord;
    hide *;
    WordAt(w, k, first, a);
    WordAt(w, k + 1, false, b);
    between := Stream(Before(w[k + 1..], false), true);
  }

  lemma NamesOfWords(w: seq<string>, first: bool, info: Pod)
    requires |w| == 10 && IsWord(w[0]) && IsWord(w[1]) && IsWord(w[2])
    ensures DecodeNames(Before(w, first), info) ==
            (info.(service := w[0], alias := w[1], typ := if w[2] == "host" then Host else Docker),
             Stream(Before(w[3..], false), true))
  {
    hide *;
    assert w[0..] == w;
    var s1 := TwoWordsAt(w, 0, first, info.service, info.alias);
    var s2 := Stream(Before(w[2..], false), true);
    WordAt(w, 2, false, "");
    NamesOfReads(Before(w, first), info, s1, s2, Stream(Before(w[3..], false), true), w[0], w[1], w[2]);
  }

  lemma PortOfWords(w: seq<string>, port: int, alive: bool, info: Pod)
    requires |w| == 10 && w[3] == ToString(port) && w[4] == FlagText(alive) && INT_MIN <= port <= INT_MAX
    ensures DecodePort(info, Stream(Before(w[3..], false), true)) ==
            (info.(port := port, alive := alive), Stream(Before(w[5..], false), true))
  {
    hide ReadInt, ReadBool, Before, Join, ToString, FlagText;
    IntAt(w, 3, info.port, port);
    BoolAt(w, 4, info.alive, alive);
  }

  lemma WorkerOfWords(w: seq<string>, wport: int, info: Pod, workers: seq<WorkerId>)
    requires |w| == 10 && IsWord(w[5]) && w[6] == ToString(wport) && INT_MIN <= wport <= INT_MAX
    ensures DecodeWorker(info, Stream(Before(w[5..], false), true), workers) ==
            (info.(worker := FindWorker(workers, WorkerId(w[5], wport))), Stream(Before(w[7..], false), true))
  {
    hide ReadInt, ReadWord, Before, Join, ToString, IsWord;
    WordAt(w, 5, false, "");
    IntAt(w, 6, 0, wport);
  }

  lemma BackOfReads(info: Pod, s7: Stream, s8: Stream, s9: Stream, braced: string, params: seq<string>, restart: int)
    requires Inner(braced).Ok? && SplitOn(Inner(braced).value, ',') == params
    requires ReadWord(s7, "") == (braced, s8) && ReadWord(s8, LeftOver(Inner(braced).value)) == (braced, s9)
    requires ReadInt(s9, info.restart).0 == restart && info.exe == [] && info.docker == []
    ensures DecodeBack(info, s7) == Ok(info.(exe := params, docker := params, restart := restart))
  {
    hide ReadInt, ReadWord, SplitOn, LeftOver;
    assert [] + params == params;
  }

  lemma BackOfWords(w: seq<string>, params: seq<string>, restart: int, info: Pod)
    requires |w| == 10 && IsWord(w[7]) && w[7] == w[8] && w[9] == ToString(restart)
    requires INT_MIN <= restart <= INT_MAX && info.exe == [] && info.docker == []
    requires Inner(w[7]).Ok? && SplitOn(Inner(w[7]).value, ',') == params
    ensures DecodeBack(info, Stream(Before(w[7..], false), true)) ==
            Ok(info.(exe := params, docker := params, restart := restart))
  {
    hide *;
    WordAt(w, 7, false, "");
    WordAt(w, 8, false, LeftOver(Inner(w[7]).value));
    IntAt(w, 9, info.restart, restart);
    BackOfReads(info, Stream(Before(w[7..], false), true), Stream(Before(w[8..], false), true),
                Stream(Before(w[9..], false), true), w[7], params, restart);
  }

  lemma FieldsAreWords(pod: Pod)
    requires WellFormed(pod)
    ensures var w := Fields(pod);
            && IsWord(w[0]) && IsWord(w[1]) && IsWord(w[2]) && IsWord(w[5]) && IsWord(w[7])
            && Inner(w[7]).Ok? && SplitOn(Inner(w[7]).value, ',') == pod.exe
  {
    BracedIsWord(pod.exe);
    BracedInner(pod.exe);
    TypeReadsBack(pod.typ);
  }

  lemma TypeReadsBack(typ: ServiceType)
    ensures IsWord(TypeText(typ)) && (if TypeText(typ) == "host" then Host else Docker) == typ
  {
    assert "docker"[0] != "host"[0];
  }

  /** Decoding a printed pod, behind a blank or not, returns every printed field. */
  lemma {:induction false} PodLineRoundTrip(pod: Pod, first: bool, info: Pod, workers: seq<WorkerId>)
    requires WellFormed(pod) && info.exe == [] && info.docker == []
    ensures Decode((if first then "" else " ") + ToSnapshot(pod), info, workers) == Ok(Reread(pod, workers))
  {
    hide DecodeNames, DecodePort, DecodeWorker, DecodeBack, IsWord, TypeText, ToString, FlagText, Braced, SplitOn;
    hide Inner, Join;
    FieldsAreWords(pod);
    TypeReadsBack(pod.typ);
    var w := Fields(pod);
    NamesOfWords(w, first, info);
    var named := info.(service := pod.service, alias := pod.alias, typ := pod.typ);
    PortOfWords(w, pod.port, pod.alive, named);
    var ported := named.(port := pod.port, alive := pod.alive);
    WorkerOfWords(w, pod.worker.value.port, ported, workers);
    var placed := ported.(worker := FindWorker(workers, pod.worker.value));
    BackOfWords(w, pod.exe, pod.restart, placed);
  }

  /** The whole pod comes back exactly when its worker is known and its two parameter lists agree; and printing
      what was read prints the same line again. */
  lemma {:induction false} PodComesBackIff(pod: Pod, workers: seq<WorkerId>)
    requires WellFormed(pod)
    ensures Decode(ToSnapshot(pod), EMPTY, workers) == Ok(pod) <==> pod.worker.value in workers && pod.docker == pod.exe
    ensures pod.worker.value in workers ==>
              Reread(pod, workers).worker == pod.worker && ToSnapshot(Reread(pod, workers)) == ToSnapshot(pod)
  {
    PodLineRoundTrip(pod, true, EMPTY, workers);
    assert "" + ToSnapshot(pod) == ToSnapshot(pod);
  }

  /** The worker's address as the reader takes it from a line. */
  function LineAddress(line: string): WorkerId {
    var (named, s3) := DecodeNames(line, EMPTY);
    ReadAddress(DecodePort(named, s3).1).0
  }

  /** Whatever line is decoded: the pod is bound to the first descriptor with the address on the line. */
  lemma DecodeBindsFirst(line: string, workers: seq<WorkerId>)
    requires Decode(line, EMPTY, workers).Ok?
    ensures var k := DescriptorAt(workers, LineAddress(line));
            Decode(line, EMPTY, workers).value.worker == if k < |workers| then Some(workers[k]) else None
  {
    hide DecodeNames, DecodePort, ReadAddress, Inner, LeftOver, SplitOn, ReadWord, ReadInt, DescriptorAt;
  }

  lemma PrintedAddress(pod: Pod)
    requires WellFormed(pod)
    ensures LineAddress(ToSnapshot(pod)) == pod.worker.value
  {
    hide DecodeNames, DecodePort, ReadWord, ReadInt, IsWord, TypeText, ToString, FlagText, Braced, SplitOn, Inner, Join;
    FieldsAreWords(pod);
    TypeReadsBack(pod.typ);
    var w := Fields(pod);
    assert Before(w, true) == ToSnapshot(pod) by { assert "" + Join(w) == Join(w); }
    NamesOfWords(w, true, EMPTY);
    PortOfWords(w, pod.port, pod.alive, EMPTY.(service := pod.service, alias := pod.alias, typ := pod.typ));
    WordAt(w, 5, false, "");
    IntAt(w, 6, 0, pod.worker.value.port);
  }

  /** A printed pod of the k-th worker is bound to that very descriptor again exactly when no earlier descriptor has
      the same address. */
  lemma {:induction false} SameDescriptorIff(pod: Pod, workers: seq<WorkerId>, k: nat)
    requires WellFormed(pod) && k < |workers| && pod.worker.value == workers[k]
    ensures var line := ToSnapshot(pod);
            var j := DescriptorAt(workers, LineAddress(line));
            && Decode(line, EMPTY, workers).Ok? && j < |workers|
            && Decode(line, EMPTY, workers).value.worker == Some(workers[j])
            && (j == k <==> workers[k] !in workers[..k])
  {
    assert pod.worker.Some?;
    hide Decode, LineAddress, WellFormed, ToSnapshot, Reread;
    PodLineRoundTrip(pod, true, EMPTY, workers);
    assert "" + ToSnapshot(pod) == ToSnapshot(pod);
    DecodeBindsFirst(ToSnapshot(pod), workers);
    PrintedAddress(pod);
    var j := DescriptorAt(workers, workers[k]);
    assert j <= k;
    if j < k {
      assert workers[j] in workers[..k];
    }
  }
}
