/** HTTP messages: the printer and the parser of both directions.  The request form is that of section 3 of
    RFC 7230; the response form, with a blank line before the headers, is the repository's own. */
module HttpParser {
  import opened Wrappers
  import opened Text

  type ParamMap = map<string, string>

  const CRLF: string := "\r\n"
  const BLANK: string := "\r\n\r\n"

  datatype Parsed = Parsed(requests: seq<string>, head: ParamMap, body: string)

  // ---------------------------------------------------------------- splitString

  /** `emplace`: an entry already there is kept. */
  function Emplace(m: ParamMap, key: string, value: string): ParamMap {
    if key in m then m else m[key := value]
  }

  /** The value of `nn` that ends the loop of `splitString`: `npos + 2`, which wraps to 1. */
  const SENTINEL: nat := U64(NPOS + 2)

  /** The next `nn` of that loop, in `size_t` arithmetic. */
  function SplitNext(s: string, nn: nat): nat
    requires |s| <= MAX_SIZE
  {
    var n := Find(s, ":", nn);
    U64(Find(s, CRLF, U64(n + 1)) + 2)
  }

  /** The loop variable k iterations after `nn`, were the loop never left. */
  function SplitIter(s: string, nn: nat, k: nat): nat
    requires |s| <= MAX_SIZE
    decreases k
  {
    if k == 0 then nn else SplitIter(s, SplitNext(s, nn), k - 1)
  }

  /** A colon at or behind `nn` that no line end follows. */
  predicate LastColon(s: string, nn: nat, j: nat)
    requires |s| <= MAX_SIZE
  {
    nn <= j < |s| && s[j] == ':' && Find(s, CRLF, j + 1) == NPOS
  }

  /** From `nn` the loop comes to its end. */
  predicate Ends(s: string, nn: nat)
    requires |s| <= MAX_SIZE
  {
    || (nn == 0 && Find(s, CRLF, 0) == NPOS)
    || exists j: nat :: j < |s| && LastColon(s, nn, j)
  }

  lemma ColonAhead(s: string, nn: nat, j: nat)
    requires |s| <= MAX_SIZE && nn <= j < |s| && s[j] == ':'
    ensures nn <= Find(s, ":", nn) <= j
  {
    AtChar(s, ':', j);
  }

  lemma LineEndBefore(s: string, n: nat, j: nat)
    requires |s| <= MAX_SIZE && n <= j && LastColon(s, n, j)
    ensures Find(s, CRLF, n + 1) != NPOS ==> n < Find(s, CRLF, n + 1) && Find(s, CRLF, n + 1) + 2 <= j
  {
    var e := Find(s, CRLF, n + 1);
    if e != NPOS {
      assert s[e..e + 2] == CRLF && s[e] == '\r' && s[e + 1] == '\n';
      assert e < j + 1;
    }
  }

  lemma SplitProgress(s: string, nn: nat)
    requires |s| <= MAX_SIZE && nn <= |s| && Ends(s, nn)
    ensures SplitNext(s, nn) == SENTINEL || (nn < SplitNext(s, nn) <= |s| && Ends(s, SplitNext(s, nn)))
  {
    var n := Find(s, ":", nn);
    if Find(s, CRLF, 0) == NPOS {
      assert forall i: nat :: !At(s, CRLF, i);
    } else {
      var j: nat :| j < |s| && LastColon(s, nn, j);
      ColonAhead(s, nn, j);
      assert LastColon(s, n, j);
      LineEndBefore(s, n, j);
      var e := Find(s, CRLF, n + 1);
      if e != NPOS {
        assert LastColon(s, e + 2, j);
      }
    }
  }

  /** The entry an iteration adds. */
  function SplitEntry(s: string, nn: nat): (string, string)
    requires |s| <= MAX_SIZE && nn <= |s| && Ends(s, nn)
  {
    var n := Find(s, ":", nn);
    var e := Find(s, CRLF, U64(n + 1));
    (Substr(s, nn, U64(n - nn)), Substr(s, U64(n + 1), U64(e - n - 1)))
  }

  /** The map `splitString` returns when its loop stands at `nn` with `m` filled; `None` when it never returns. */
  function SplitFrom(s: string, nn: nat, m: ParamMap): Option<ParamMap>
    requires |s| <= MAX_SIZE
    decreases if nn == SENTINEL then 0 else 1 + |s| - nn
  {
    if nn == SENTINEL then Some(m)
    else if nn > |s| || !Ends(s, nn) then None
    else
      SplitProgress(s, nn);
      SplitFrom(s, SplitNext(s, nn), Emplace(m, SplitEntry(s, nn).0, SplitEntry(s, nn).1))
  }

  lemma {:induction false} IterEnds(s: string, nn: nat) returns (k: nat)
    requires |s| <= MAX_SIZE && nn <= |s| && Ends(s, nn)
    ensures SplitIter(s, nn, k) == SENTINEL
    decreases |s| - nn
  {
    SplitProgress(s, nn);
    k := 0;
    if SplitNext(s, nn) != SENTINEL {
      k := IterEnds(s, SplitNext(s, nn));
    }
    k := k + 1;
  }

  lemma NextIsNotSentinel(s: string, nn: nat)
    requires |s| <= MAX_SIZE && !Ends(s, 0)
    ensures SplitNext(s, nn) != SENTINEL
  {
    var n := Find(s, ":", nn);
    if n != NPOS {
      AtChar(s, ':', n);
      assert !LastColon(s, 0, n);
    }
  }

  lemma {:induction false} NeverSentinel(s: string, nn: nat, k: nat)
    requires |s| <= MAX_SIZE && !Ends(s, 0) && nn != SENTINEL
    ensures SplitIter(s, nn, k) != SENTINEL
    decreases k
  {
    if k > 0 {
      NextIsNotSentinel(s, nn);
      NeverSentinel(s, SplitNext(s, nn), k - 1);
    }
  }

  /** The loop of `splitString` ends exactly when no line end lies behind the last colon, or there is no line end
      at all: a block whose last line has no colon is walked for ever. */
  lemma SplitTerminatesIff(s: string)
    requires |s| <= MAX_SIZE
    ensures Ends(s, 0) <==> exists k :: SplitIter(s, 0, k) == SENTINEL
  {
    if Ends(s, 0) {
      var k := IterEnds(s, 0);
    } else {
      forall k ensures SplitIter(s, 0, k) != SENTINEL {
        NeverSentinel(s, 0, k);
      }
    }
  }

  /** The body of the loop. */
  method SplitOne(inStr: string, nn: nat) returns (key: string, value: string, next: nat)
    requires |inStr| <= MAX_SIZE && nn <= |inStr| && Ends(inStr, nn)
    ensures (key, value) == SplitEntry(inStr, nn) && next == SplitNext(inStr, nn)
  {
    hide Find, Substr;
    var n: int := Find(inStr, ":", nn);
    key := Substr(inStr, nn, U64(n - nn));
    var e: int := Find(inStr, CRLF, U64(n + 1));
    value := Substr(inStr, U64(n + 1), U64(e - n - 1));
    next := U64(e + 2);
  }

  method SplitString(inStr: string, outPairs: ParamMap) returns (pairs: ParamMap)
    requires |inStr| <= MAX_SIZE && SplitFrom(inStr, 0, outPairs).Some?
    ensures SplitFrom(inStr, 0, outPairs) == Some(pairs)
  {
    pairs := outPairs;
    var nn := 0;
    while nn != U64(NPOS + 2)
      invariant SplitFrom(inStr, nn, pairs) == SplitFrom(inStr, 0, outPairs)
      decreases if nn == SENTINEL then 0 else 1 + |inStr| - nn
    {
      SplitProgress(inStr, nn);
      var key, value, next := SplitOne(inStr, nn);
      pairs := Emplace(pairs, key, value);
      nn := next;
    }
  }

  // ---------------------------------------------------------------- header blocks

  /** Header lines joined by line ends. */
  function Block(pairs: seq<(string, string)>): string {
    if pairs == [] then ""
    else pairs[0].0 + ":" + pairs[0].1 + if |pairs| == 1 then "" else CRLF + Block(pairs[1..])
  }

  function FirstWins(m: ParamMap, pairs: seq<(string, string)>): ParamMap
    decreases |pairs|
  {
    if pairs == [] then m else FirstWins(Emplace(m, pairs[0].0, pairs[0].1), pairs[1..])
  }

  predicate Clean(s: string) { |s| <= MAX_SIZE && Find(s, CRLF, 0) == NPOS }

  /** Keys hold no colon and no line end, values no line end. */
  predicate WellFormed(pairs: seq<(string, string)>) {
    forall i :: 0 <= i < |pairs| ==> ':' !in pairs[i].0 && Clean(pairs[i].0) && Clean(pairs[i].1)
  }

  lemma AtCrlf(s: string, i: nat)
    ensures At(s, CRLF, i) <==> i + 1 < |s| && s[i] == '\r' && s[i + 1] == '\n'
  {
    assert CRLF[0] == '\r' && CRLF[1] == '\n';
    if i + 1 < |s| {
      assert s[i + 0] == s[i];
    }
  }

  lemma AtBlank(s: string, i: nat)
    ensures At(s, BLANK, i) <==> At(s, CRLF, i) && At(s, CRLF, i + 2)
  {
    AtCrlf(s, i);
    AtCrlf(s, i + 2);
    assert BLANK[0] == '\r' && BLANK[1] == '\n' && BLANK[2] == '\r' && BLANK[3] == '\n';
    if i + 3 < |s| {
      assert s[i + 0] == s[i] && s[i + 2 + 0] == s[i + 2] && s[i + 2 + 1] == s[i + 3];
    }
  }

  /** The first line end of clean text followed by a line end is that one. */
  lemma CleanThenCrlf(x: string, y: string)
    requires Clean(x) && |x + CRLF + y| <= MAX_SIZE
    ensures forall i: nat :: i < |x| ==> !At(x + CRLF + y, CRLF, i)
    ensures At(x + CRLF + y, CRLF, |x|)
    ensures Find(x + CRLF + y, CRLF, 0) == |x|
  {
    var s := x + CRLF + y;
    forall i: nat | i < |x| ensures !At(s, CRLF, i) {
      AtCrlf(s, i);
      AtCrlf(x, i);
    }
    AtCrlf(s, |x|);
    FindIs(s, CRLF, 0, |x|);
  }

  lemma CleanLine(key: string, value: string)
    requires Clean(key) && Clean(value) && |key + ":" + value| <= MAX_SIZE
    ensures Clean(key + ":" + value)
  {
    var s := key + ":" + value;
    forall i: nat ensures !At(s, CRLF, i) {
      AtCrlf(s, i);
      AtCrlf(key, i);
      if i > |key| {
        AtCrlf(value, i - |key| - 1);
      }
    }
  }

  /** One iteration on a line `key:value` that starts at |pre| and is the last one or ends in a line end. */
  lemma SplitLine(s: string, pre: string, key: string, value: string, rest: string)
    requires s == pre + key + ":" + value + rest && |s| <= MAX_SIZE
    requires ':' !in key && Clean(value) && (rest == "" || CRLF <= rest)
    ensures Find(s, ":", |pre|) == |pre| + |key|
    ensures Find(s, CRLF, |pre| + |key| + 1) == if rest == "" then NPOS else |pre| + |key| + 1 + |value|
  {
    FindChar(s, ':', |pre|, |pre| + |key|);
    assert s == (pre + key + ":") + (value + rest);
    FindShift(pre + key + ":", value + rest, CRLF, 0);
    if rest == "" {
      assert value + rest == value;
    } else {
      assert value + rest == value + CRLF + rest[2..];
      CleanThenCrlf(value, rest[2..]);
    }
  }

  lemma SplitLineNext(s: string, pre: string, key: string, value: string, rest: string)
    requires s == pre + key + ":" + value + rest && |s| <= MAX_SIZE
    requires ':' !in key && Clean(value) && (rest == "" || CRLF <= rest)
    ensures SplitNext(s, |pre|) == if rest == "" then SENTINEL else |pre| + |key| + |value| + 3
    ensures Ends(s, |pre|) ==> SplitEntry(s, |pre|) == (key, value)
  {
    SplitLine(s, pre, key, value, rest);
    CutLine(s, pre, key, value, rest);
    var n := |pre| + |key|;
    assert U64(n - |pre|) == |key| && U64(n + 1) == n + 1;
  }

  lemma CutLine(s: string, pre: string, key: string, value: string, rest: string)
    requires s == pre + key + ":" + value + rest && |s| <= MAX_SIZE
    ensures Substr(s, |pre|, |key|) == key
    ensures Substr(s, |pre| + |key| + 1, |value|) == value
    ensures rest == "" ==> Substr(s, |pre| + |key| + 1, U64(NPOS - (|pre| + |key|) - 1)) == value
  {
    var n := |pre| + |key|;
    assert s[|pre|..n] == key;
    assert s[n + 1..n + 1 + |value|] == value;
    if rest == "" {
      assert s[n + 1..] == value;
    }
  }

  /** The first line of a block behind `pre`, and what is left behind it. */
  lemma FirstLine(s: string, pre: string, pairs: seq<(string, string)>) returns (rest: string, next: string)
    requires pairs != [] && s == pre + Block(pairs)
    ensures s == pre + pairs[0].0 + ":" + pairs[0].1 + rest
    ensures |pairs| == 1 ==> rest == ""
    ensures |pairs| > 1 ==> CRLF <= rest && s == next + Block(pairs[1..])
    ensures |pairs| > 1 ==> |next| == |pre| + |pairs[0].0| + |pairs[0].1| + 3
  {
    rest := if |pairs| == 1 then "" else CRLF + Block(pairs[1..]);
    next := pre + pairs[0].0 + ":" + pairs[0].1 + CRLF;
  }

  lemma {:induction false} BlockEnds(s: string, pre: string, pairs: seq<(string, string)>)
    requires pairs != [] && WellFormed(pairs) && s == pre + Block(pairs) && |s| <= MAX_SIZE
    ensures Ends(s, |pre|)
    decreases |pairs|
  {
    var rest, next := FirstLine(s, pre, pairs);
    if |pairs| == 1 {
      SplitLine(s, pre, pairs[0].0, pairs[0].1, rest);
      assert LastColon(s, |pre|, |pre| + |pairs[0].0|);
    } else {
      BlockEnds(s, next, pairs[1..]);
      var j: nat :| j < |s| && LastColon(s, |next|, j);
      assert LastColon(s, |pre|, j);
    }
  }

  lemma SplitStep(s: string, nn: nat, m: ParamMap, key: string, value: string, next: nat)
    requires |s| <= MAX_SIZE && nn != SENTINEL && nn <= |s| && Ends(s, nn)
    requires SplitEntry(s, nn) == (key, value) && SplitNext(s, nn) == next
    ensures SplitFrom(s, nn, m) == SplitFrom(s, next, Emplace(m, key, value))
    ensures next == SENTINEL ==> SplitFrom(s, nn, m) == Some(Emplace(m, key, value))
  {}

  /** `splitString` on header lines returns, for every key, the first value given for it. */
  lemma {:induction false} SplitOfBlock(s: string, pre: string, pairs: seq<(string, string)>, m: ParamMap)
    requires pairs != [] && WellFormed(pairs) && s == pre + Block(pairs) && |s| <= MAX_SIZE && |pre| != SENTINEL
    ensures SplitFrom(s, |pre|, m) == Some(FirstWins(m, pairs))
    decreases |pairs|
  {
    var (key, value) := pairs[0];
    BlockEnds(s, pre, pairs);
    var rest, next := FirstLine(s, pre, pairs);
    SplitLineNext(s, pre, key, value, rest);
    if |pairs| == 1 {
      SplitStep(s, |pre|, m, key, value, SENTINEL);
    } else {
      SplitStep(s, |pre|, m, key, value, |next|);
      SplitOfBlock(s, next, pairs[1..], Emplace(m, key, value));
    }
  }

  /** The first value given for a key. */
  function Lookup(pairs: seq<(string, string)>, key: string): Option<string> {
    if pairs == [] then None
    else if pairs[0].0 == key then Some(pairs[0].1)
    else Lookup(pairs[1..], key)
  }

  lemma {:induction false} FirstWinsMeaning(m: ParamMap, pairs: seq<(string, string)>, key: string)
    ensures key in FirstWins(m, pairs) <==> key in m || Lookup(pairs, key).Some?
    ensures key in m ==> FirstWins(m, pairs)[key] == m[key]
    ensures key !in m && Lookup(pairs, key).Some? ==> FirstWins(m, pairs)[key] == Lookup(pairs, key).value
    decreases |pairs|
  {
    if pairs != [] {
      FirstWinsMeaning(Emplace(m, pairs[0].0, pairs[0].1), pairs[1..], key);
    }
  }

  /** In front of clean text and its line end no blank line starts, nor inside it. */
  lemma NoBlankInLine(line: string, rest: string)
    requires Clean(line) && |line + CRLF + rest| <= MAX_SIZE
    ensures forall i: nat :: i < |line| ==> !At(line + CRLF + rest, BLANK, i)
  {
    CleanThenCrlf(line, rest);
    forall i: nat | i < |line| ensures !At(line + CRLF + rest, BLANK, i) {
      AtBlank(line + CRLF + rest, i);
    }
  }

  /** A line in front of text that holds no blank line before `m` and does not start with a line end. */
  lemma NoBlankInMore(line: string, rest: string, m: nat)
    requires Clean(line) && |line + CRLF + rest| <= MAX_SIZE
    requires !At(rest, CRLF, 0) && forall i: nat :: i < m ==> !At(rest, BLANK, i)
    ensures forall i: nat :: i < |line| + 2 + m ==> !At(line + CRLF + rest, BLANK, i)
  {
    var s, k := line + CRLF + rest, |line| + 2;
    NoBlankInLine(line, rest);
    forall i: nat | |line| <= i < k + m ensures !At(s, BLANK, i) {
      AtBlank(s, i);
      AtCrlf(s, i);
      AtCrlf(s, i + 2);
      if i == |line| {
        AtCrlf(rest, 0);
      } else if i >= k {
        AtBlank(rest, i - k);
        AtCrlf(rest, i - k);
        AtCrlf(rest, i - k + 2);
      }
    }
  }

  /** No blank line starts inside a header block that a blank line follows, and the block does not start with a
      line end. */
  lemma {:induction false} BlankOnlyBehind(pairs: seq<(string, string)>, tail: string)
    requires pairs != [] && WellFormed(pairs) && |Block(pairs) + BLANK + tail| <= MAX_SIZE
    ensures forall i: nat :: i < |Block(pairs)| ==> !At(Block(pairs) + BLANK + tail, BLANK, i)
    ensures !At(Block(pairs) + BLANK + tail, CRLF, 0)
    decreases |pairs|
  {
    var line := pairs[0].0 + ":" + pairs[0].1;
    assert |line| <= |Block(pairs)|;
    CleanLine(pairs[0].0, pairs[0].1);
    var rest := if |pairs| == 1 then CRLF + tail else Block(pairs[1..]) + BLANK + tail;
    assert Block(pairs) + BLANK + tail == line + CRLF + rest;
    CleanThenCrlf(line, rest);
    assert !At(line + CRLF + rest, CRLF, 0);
    if |pairs| == 1 {
      NoBlankInLine(line, rest);
    } else {
      BlankOnlyBehind(pairs[1..], tail);
      NoBlankInMore(line, rest, |Block(pairs[1..])|);
    }
  }

  // ---------------------------------------------------------------- the messages

  /** `moveNext`: one past the next `symbol`; `None` where the source would read past the end. */
  function After(s: string, pos: nat, symbol: char): (r: Option<nat>)
    requires |s| <= MAX_SIZE
    ensures r.Some? ==> pos < r.value <= |s|
  {
    if Find(s, [symbol], pos) == NPOS then None else Some(Find(s, [symbol], pos) + 1)
  }

  method MoveNext(inStr: string, pos: nat, symbol: char) returns (next: nat)
    requires |inStr| <= MAX_SIZE && After(inStr, pos, symbol).Some?
    ensures After(inStr, pos, symbol) == Some(next)
  {
    ghost var k := Find(inStr, [symbol], pos);
    AtChar(inStr, symbol, k);
    next := pos;
    while inStr[next] != symbol
      invariant pos <= next <= k
      decreases k - next
    {
      next := next + 1;
    }
    AtChar(inStr, symbol, next);
    next := next + 1;
  }

  /** Method, URL and version of a request line; `None` where the source would read past its end. */
  function HeaderUri(line: string): Option<seq<string>>
    requires |line| <= MAX_SIZE
  {
    var cur := if Find(line, "GET", 0) != NPOS then 3 else 4;
    match After(line, cur, '/')
    case None => None
    case Some(p1) =>
      match After(line, p1, ' ')
      case None => None
      case Some(p2) =>
        match After(line, p2, '/')
        case None => None
        case Some(p3) => Some([line[..cur], line[p1..p2 - 1], line[p3..]])
  }

  method ParseHeaderUri(inStr: string) returns (requests: seq<string>)
    requires |inStr| <= MAX_SIZE && HeaderUri(inStr).Some?
    ensures HeaderUri(inStr) == Some(requests)
  {
    var pos := 0;
    var getPos := Find(inStr, "GET", 0);
    if getPos != NPOS {
      pos := pos + 3;
    } else {
      pos := pos + 4;
    }
    requests := [Substr(inStr, 0, pos)];
    pos := MoveNext(inStr, pos, '/');
    var urlBegin := pos;
    pos := MoveNext(inStr, pos, ' ');
    var urlEnd := pos - 1;
    requests := requests + [Substr(inStr, urlBegin, urlEnd - urlBegin)];
    pos := MoveNext(inStr, pos, '/');
    requests := requests + [Substr(inStr, pos, |inStr| - pos)];
    assert inStr[pos..|inStr|] == inStr[pos..];
    assert requests == HeaderUri(inStr).value;
  }

  /** The headers between two positions; `None` where the source throws or never returns. */
  function HeadAt(s: string, from: nat, to: nat): Option<ParamMap>
    requires |s| <= MAX_SIZE && to < SIZE_T
  {
    if from > |s| then None else SplitFrom(Between(s, from, to), 0, map[])
  }

  /** The body behind the blank line at `nn`: up to the next blank line. */
  function BodyAt(s: string, nn: nat): Option<string>
    requires |s| <= MAX_SIZE && nn < SIZE_T
  {
    if U64(nn + 4) > |s| then None else Some(Between(s, U64(nn + 4), Find(s, BLANK, U64(nn + 4))))
  }

  method BodyOf(inStr: string, nn: nat) returns (body: string)
    requires |inStr| <= MAX_SIZE && nn < SIZE_T && BodyAt(inStr, nn).Some?
    ensures BodyAt(inStr, nn) == Some(body)
  {
    var nnn := Find(inStr, BLANK, U64(nn + 4));
    body := Between(inStr, U64(nn + 4), nnn);
  }

  method HeadOf(inStr: string, from: nat, to: nat) returns (head: ParamMap)
    requires |inStr| <= MAX_SIZE && to < SIZE_T && HeadAt(inStr, from, to).Some?
    ensures HeadAt(inStr, from, to) == Some(head)
  {
    head := SplitString(Between(inStr, from, to), map[]);
  }

  function Assemble(requests: Option<seq<string>>, head: Option<ParamMap>, body: Option<string>): Option<Parsed> {
    if requests.Some? && head.Some? && body.Some? then Some(Parsed(requests.value, head.value, body.value)) else None
  }

  predicate IsPost(requests: seq<string>) { |requests| > 0 && requests[0] == "POST" }

  function RequestBody(s: string, requests: Option<seq<string>>, nn: nat): Option<string>
    requires |s| <= MAX_SIZE && nn < SIZE_T
  {
    if requests.Some? && IsPost(requests.value) then BodyAt(s, nn) else Some("")
  }

  method RequestBodyOf(inStr: string, requests: seq<string>, nn: nat) returns (body: string)
    requires |inStr| <= MAX_SIZE && nn < SIZE_T && RequestBody(inStr, Some(requests), nn).Some?
    ensures RequestBody(inStr, Some(requests), nn) == Some(body)
  {
    body := "";
    if IsPost(requests) {
      body := BodyOf(inStr, nn);
    }
  }

  /** What `parserReqMessage` makes of a message; `None` where it throws, reads past the end or never returns. */
  function ParseRequest(s: string): Option<Parsed>
    requires |s| <= MAX_SIZE
  {
    var n := Find(s, CRLF, 0);
    var nn := Find(s, BLANK, U64(n + 1));
    var requests := HeaderUri(Substr(s, 0, n));
    Assemble(requests, HeadAt(s, U64(n + 2), nn), RequestBody(s, requests, nn))
  }

  method ParserReqMessage(inStr: string) returns (requests: seq<string>, head: ParamMap, body: string)
    requires |inStr| <= MAX_SIZE && ParseRequest(inStr).Some?
    ensures ParseRequest(inStr) == Some(Parsed(requests, head, body))
  {
    hide Find, HeadAt, BodyAt, HeaderUri, Substr;
    var n := Find(inStr, CRLF, 0);
    requests := ParseHeaderUri(Substr(inStr, 0, n));
    var nn := Find(inStr, BLANK, U64(n + 1));
    head := HeadOf(inStr, U64(n + 2), nn);
    body := RequestBodyOf(inStr, requests, nn);
  }

  /** Version, status and reason of a status line; nothing when it has no slash. */
  function StatusLine(line: string): Option<seq<string>>
    requires |line| <= MAX_SIZE
  {
    var n := Find(line, "/", 0);
    if n == NPOS then Some([])
    else
      var nn := Find(line, " ", n + 1);
      var nnn := Find(line, " ", U64(nn + 1));
      if U64(nn + 1) > |line| || U64(nnn + 1) > |line| then None
      else Some([Between(line, n + 1, nn), Between(line, U64(nn + 1), nnn), Between(line, U64(nnn + 1), |line|)])
  }

  /** No status line makes it throw, and it finds nothing exactly where there is no slash. */
  lemma StatusLineNeverThrows(line: string)
    requires |line| <= MAX_SIZE
    ensures StatusLine(line).Some? && (StatusLine(line) == Some([]) <==> '/' !in line)
  {
    var n := Find(line, "/", 0);
    if n == NPOS {
      forall i: nat | i < |line| ensures line[i] != '/' {
        assert !At(line, "/", i);
      }
    } else {
      assert At(line, "/", n) && "/"[0] == '/' && line[n + 0] == "/"[0];
    }
  }

  /** A header block that would start at the very end of the text is empty and read as such. */
  lemma HeadAtEnd(s: string, to: nat)
    requires |s| <= MAX_SIZE && to < SIZE_T
    ensures HeadAt(s, |s|, to) == SplitFrom("", 0, map[])
  {
    assert Between(s, |s|, to) == "";
  }

  method ParseResHeadline(inStr: string) returns (ok: bool, requests: seq<string>)
    requires |inStr| <= MAX_SIZE && StatusLine(inStr).Some?
    ensures StatusLine(inStr) == Some(requests)
    ensures ok <==> Find(inStr, "/", 0) != NPOS
  {
    hide Find, Between;
    var n := Find(inStr, "/", 0);
    if n == NPOS {
      return false, [];
    }
    var nn := Find(inStr, " ", n + 1);
    requests := [Between(inStr, n + 1, nn)];
    var nnn := Find(inStr, " ", U64(nn + 1));
    requests := requests + [Between(inStr, U64(nn + 1), nnn)];
    requests := requests + [Between(inStr, U64(nnn + 1), |inStr|)];
    assert requests == StatusLine(inStr).value;
    ok := true;
  }

  /** What `parserResMessage` makes of a message; `None` where it throws or never returns. */
  function ParseResponse(s: string): Option<Parsed>
    requires |s| <= MAX_SIZE
  {
    var n := Find(s, BLANK, 0);
    var nn := Find(s, BLANK, U64(n + 1));
    Assemble(StatusLine(Substr(s, 0, n)), HeadAt(s, U64(n + 4), nn), BodyAt(s, nn))
  }

  method ParserResMessage(inStr: string) returns (requests: seq<string>, head: ParamMap, body: string)
    requires |inStr| <= MAX_SIZE && ParseResponse(inStr).Some?
    ensures ParseResponse(inStr) == Some(Parsed(requests, head, body))
  {
    hide Find, HeadAt, BodyAt, StatusLine, Substr;
    var n := Find(inStr, BLANK, 0);
    var ok;
    ok, requests := ParseResHeadline(Substr(inStr, 0, n));
    var nn := Find(inStr, BLANK, U64(n + 1));
    head := HeadOf(inStr, U64(n + 4), nn);
    body := BodyOf(inStr, nn);
  }

  // ---------------------------------------------------------------- the printers

  /** The headers in the order the hash map is walked. */
  function Pairs(order: seq<string>, head: ParamMap): seq<(string, string)>
    requires forall k :: k in order ==> k in head
  {
    if order == [] then [] else [(order[0], head[order[0]])] + Pairs(order[1..], head)
  }

  ghost predicate Enumerates(order: seq<string>, head: ParamMap) {
    && (forall k :: k in order <==> k in head)
    && (forall i, j :: 0 <= i < j < |order| ==> order[i] != order[j])
  }

  function HeadText(pairs: seq<(string, string)>): string {
    if pairs == [] then "" else pairs[0].0 + ":" + pairs[0].1 + CRLF + HeadText(pairs[1..])
  }

  function Tail(body: string): string { if body == "" then "" else body + BLANK }

  function RequestLine(requests: seq<string>): string
    requires |requests| == 3
  {
    requests[0] + " /" + requests[1] + " HTTP/" + requests[2]
  }

  function ResponseLine(requests: seq<string>): string
    requires |requests| == 3
  {
    "HTTP/" + requests[0] + " " + requests[1] + " " + requests[2]
  }

  method PrintHead(outStr: string, order: seq<string>, head: ParamMap) returns (out: string)
    requires Enumerates(order, head)
    ensures out == outStr + HeadText(Pairs(order, head))
  {
    out := outStr;
    var i := 0;
    while i < |order|
      invariant i <= |order| && out + HeadText(Pairs(order[i..], head)) == outStr + HeadText(Pairs(order, head))
    {
      ghost var rest := HeadText(Pairs(order[i + 1..], head));
      assert order[i..][1..] == order[i + 1..];
      var line := order[i] + ":" + head[order[i]] + CRLF;
      assert out + (line + rest) == out + line + rest;
      out := out + line;
      i := i + 1;
    }
    assert out + "" == out;
  }

  function PrintRequest(requests: seq<string>, pairs: seq<(string, string)>, body: string): string
    requires |requests| == 3
  {
    RequestLine(requests) + CRLF + HeadText(pairs) + CRLF + Tail(body)
  }

  function PrintResponse(requests: seq<string>, pairs: seq<(string, string)>, body: string): string
    requires |requests| == 3
  {
    ResponseLine(requests) + BLANK + HeadText(pairs) + CRLF + Tail(body)
  }

  method PrintTail(outStr: string, body: string) returns (out: string)
    ensures out == outStr + CRLF + Tail(body)
  {
    out := outStr + CRLF;
    if body != "" {
      out := out + body;
      out := out + BLANK;
    }
  }

  method GetReqMessage(outStr: string, requests: seq<string>, head: ParamMap, order: seq<string>, body: string)
    returns (ok: bool, out: string)
    requires Enumerates(order, head)
    ensures ok <==> |requests| == 3
    ensures out == outStr + if ok then PrintRequest(requests, Pairs(order, head), body) else ""
  {
    hide RequestLine, HeadText, Tail, Pairs;
    if |requests| != 3 {
      return false, outStr + "";
    }
    out := outStr + RequestLine(requests) + CRLF;
    out := PrintHead(out, order, head);
    out := PrintTail(out, body);
    ok := true;
    assert out == outStr + PrintRequest(requests, Pairs(order, head), body);
  }

  method GetResMessage(outStr: string, requests: seq<string>, head: ParamMap, order: seq<string>, body: string)
    returns (ok: bool, out: string)
    requires Enumerates(order, head)
    ensures ok <==> |requests| == 3
    ensures out == outStr + if ok then PrintResponse(requests, Pairs(order, head), body) else ""
  {
    hide ResponseLine, HeadText, Tail, Pairs;
    if |requests| != 3 {
      return false, outStr + "";
    }
    out := outStr + ResponseLine(requests) + BLANK;
    out := PrintHead(out, order, head);
    out := PrintTail(out, body);
    ok := true;
    assert out == outStr + PrintResponse(requests, Pairs(order, head), body);
  }

  /** The header lines, the first of them and those behind it. */
  lemma HeadShape(key: string, value: string, rest: seq<(string, string)>)
    ensures HeadText([]) == "" && HeadText([(key, value)] + rest) == key + ":" + value + "\r\n" + HeadText(rest)
  {
    assert ([(key, value)] + rest)[1..] == rest;
  }

  /** The literal shape of what is printed: a request puts the headers on the lines behind its own, a response leaves
      a line free before them; a blank line follows, and a body has one behind it. */
  lemma PrintedShape(a: string, b: string, c: string, pairs: seq<(string, string)>, body: string)
    ensures var tail := if body == "" then "\r\n" else "\r\n" + body + "\r\n\r\n";
            && PrintRequest([a, b, c], pairs, body) == a + " /" + b + " HTTP/" + c + "\r\n" + HeadText(pairs) + tail
            && PrintResponse([a, b, c], pairs, body) ==
               "HTTP/" + a + " " + b + " " + c + "\r\n\r\n" + HeadText(pairs) + tail
  {
    hide HeadText;
    var head := HeadText(pairs);
    if body == "" {
      assert "\r\n" + "" == "\r\n";
    } else {
      assert "\r\n" + (body + "\r\n\r\n") == "\r\n" + body + "\r\n\r\n";
    }
    Behind(RequestLine([a, b, c]) + CRLF + head, CRLF, Tail(body));
    Behind(ResponseLine([a, b, c]) + BLANK + head, CRLF, Tail(body));
  }

  lemma Behind(a: string, b: string, c: string)
    ensures a + b + c == a + (b + c)
  {}

  // ---------------------------------------------------------------- round trips

  lemma {:induction false} HeadTextIsBlock(pairs: seq<(string, string)>)
    requires pairs != []
    ensures HeadText(pairs) == Block(pairs) + CRLF
    decreases |pairs|
  {
    if |pairs| > 1 {
      HeadTextIsBlock(pairs[1..]);
    }
  }

  /** Printing a map in any order and keeping the first value of each key gives the map back. */
  lemma {:induction false} PairsRebuild(order: seq<string>, head: ParamMap, m: ParamMap)
    requires (forall k :: k in order ==> k in head) && (forall k :: k in m ==> k in head && m[k] == head[k])
    requires forall i, j :: 0 <= i < j < |order| ==> order[i] != order[j]
    requires forall k :: k in head ==> k in m || k in order
    ensures FirstWins(m, Pairs(order, head)) == head
    decreases |order|
  {
    if order == [] {
      assert m == head;
    } else {
      PairsRebuild(order[1..], head, Emplace(m, order[0], head[order[0]]));
    }
  }

  /** What the parser takes for the body: the text before the first blank line, its own trailer included. */
  function BodyBack(body: string): string
    requires |body + BLANK| <= MAX_SIZE
  {
    Substr(body, 0, Find(body + BLANK, BLANK, 0))
  }

  /** The body comes back exactly when its own trailer is the first blank line. */
  predicate BodyClean(body: string) {
    body == "" || (|body + BLANK| <= MAX_SIZE && Find(body + BLANK, BLANK, 0) == |body|)
  }

  lemma BodyBackIff(body: string)
    requires |body + BLANK| <= MAX_SIZE
    ensures BodyBack(body) == body <==> BodyClean(body)
  {
    FindInPrefix(body, BLANK, "");
    var e := Find(body + BLANK, BLANK, 0);
    assert e == |body| ==> body[0..e] == body;
  }

  lemma BodyIsFound(s: string, before: string, body: string, nn: nat)
    requires s == before + Tail(body) && |s| <= MAX_SIZE && |body + BLANK| <= MAX_SIZE && |before| == nn + 4
    ensures BodyAt(s, nn) == Some(BodyBack(body))
  {
    FindShift(before, Tail(body), BLANK, 0);
    FindInPrefix(body, BLANK, "");
    var e := Find(body + BLANK, BLANK, 0);
    if body == "" {
      assert forall i: nat :: !At("", BLANK, i);
      assert s[nn + 4..] == "";
    } else {
      assert s[nn + 4..nn + 4 + e] == body[0..e];
    }
  }

  /** The blank line behind the headers is the first one from where the headers start. */
  lemma HeadEnds(s: string, before: string, pairs: seq<(string, string)>, tail: string)
    requires s == before + (Block(pairs) + BLANK + tail) && |s| <= MAX_SIZE
    requires pairs != [] && WellFormed(pairs)
    ensures Find(s, BLANK, |before|) == |before| + |Block(pairs)|
    ensures !At(s, CRLF, |before|)
  {
    var rest := Block(pairs) + BLANK + tail;
    BlankOnlyBehind(pairs, tail);
    assert rest[|Block(pairs)|..|Block(pairs)| + 4] == BLANK;
    FindIs(rest, BLANK, 0, |Block(pairs)|);
    FindShift(before, rest, BLANK, 0);
    AtCrlf(s, |before|);
    AtCrlf(rest, 0);
  }

  lemma HeadComesBack(s: string, before: string, block: string, pairs: seq<(string, string)>, tail: string)
    requires s == before + (block + (BLANK + tail)) && |s| <= MAX_SIZE && block == Block(pairs)
    requires pairs != [] && WellFormed(pairs)
    ensures HeadAt(s, |before|, |before| + |block|) == Some(FirstWins(map[], pairs))
  {
    CutMiddle(s, before, block, BLANK + tail);
    assert block == "" + Block(pairs);
    SplitOfBlock(block, "", pairs, map[]);
  }

  lemma CutMiddle(s: string, before: string, block: string, rest: string)
    requires s == before + (block + rest) && |s| <= MAX_SIZE
    ensures Between(s, |before|, |before| + |block|) == block
  {
    assert s[|before|..|before| + |block|] == block;
  }

  /** Both directions: the line end, or blank line, in front of the headers does not hide where they end. */
  lemma HeadEndsFrom(s: string, line: string, sep: string, pairs: seq<(string, string)>, tail: string)
    requires s == line + sep + (Block(pairs) + BLANK + tail) && |s| <= MAX_SIZE
    requires pairs != [] && WellFormed(pairs) && (sep == CRLF || sep == BLANK)
    ensures Find(s, BLANK, |line| + 1) == |line| + |sep| + |Block(pairs)|
  {
    HeadEnds(s, line + sep, pairs, tail);
    var k := |line| + |sep|;
    forall i: nat | |line| + 1 <= i < k ensures !At(s, BLANK, i) {
      AtBlank(s, i);
      AtCrlf(s, i);
      assert s[i] == sep[i - |line|];
    }
    FindIs(s, BLANK, |line| + 1, k + |Block(pairs)|);
  }

  lemma PostLineParses(requests: seq<string>)
    requires |requests| == 3 && requests[0] == "POST" && ' ' !in requests[1] && |RequestLine(requests)| <= MAX_SIZE
    ensures var line := RequestLine(requests);
            HeaderUri(line) == Some([if Find(line, "GET", 0) == NPOS then "POST" else "POS", requests[1], requests[2]])
  {
    var line, u := RequestLine(requests), |requests[1]|;
    var cur := if Find(line, "GET", 0) != NPOS then 3 else 4;
    FindChar(line, '/', cur, 5);
    FindChar(line, ' ', 6, 6 + u);
    FindChar(line, '/', 7 + u, 11 + u);
    assert line[..cur] == if cur == 3 then "POS" else "POST";
    assert line[6..6 + u] == requests[1];
    assert line[12 + u..] == requests[2];
  }

  lemma GetLineParses(requests: seq<string>)
    requires |requests| == 3 && requests[0] == "GET" && ' ' !in requests[1] && |RequestLine(requests)| <= MAX_SIZE
    ensures HeaderUri(RequestLine(requests)) == Some(requests)
  {
    var line, u := RequestLine(requests), |requests[1]|;
    assert line[0..3] == "GET";
    assert At(line, "GET", 0);
    FindChar(line, '/', 3, 4);
    FindChar(line, ' ', 5, 5 + u);
    FindChar(line, '/', 6 + u, 10 + u);
    assert line[..3] == requests[0];
    assert line[5..5 + u] == requests[1];
    assert line[11 + u..] == requests[2];
    assert [line[..3], line[5..5 + u], line[11 + u..]] == requests;
  }

  /** A printed message, grouped the ways the lemmas above need it. */
  lemma Regroup(line: string, sep: string, block: string, tail: string)
    ensures line + sep + (block + CRLF) + CRLF + tail == line + sep + (block + BLANK + tail)
    ensures line + sep + (block + BLANK + tail) == (line + sep) + (block + (BLANK + tail))
    ensures line + sep + (block + BLANK + tail) == (line + sep + block + BLANK) + tail
    ensures line + sep + (block + BLANK + tail) == line + sep + (block + (BLANK + tail))
  {
    assert CRLF + CRLF == BLANK;
  }

  /** The header block of a printed message is found where its parser looks for it, and so is the body. */
  lemma HeadIsFound(s: string, line: string, sep: string, block: string, pairs: seq<(string, string)>, tail: string)
    requires s == line + sep + (block + BLANK + tail) && |s| <= MAX_SIZE && (sep == CRLF || sep == BLANK)
    requires pairs != [] && WellFormed(pairs) && block == Block(pairs)
    ensures Find(s, BLANK, |line| + 1) == |line| + |sep| + |block|
    ensures HeadAt(s, |line| + |sep|, |line| + |sep| + |block|) == Some(FirstWins(map[], pairs))
  {
    hide *;
    Regroup(line, sep, block, tail);
    HeadEndsFrom(s, line, sep, pairs, tail);
    HeadComesBack(s, line + sep, block, pairs, tail);
  }

  lemma TailIsFound(s: string, line: string, sep: string, block: string, body: string)
    requires s == line + sep + (block + BLANK + Tail(body)) && |s| <= MAX_SIZE && |body + BLANK| <= MAX_SIZE
    ensures BodyAt(s, |line| + |sep| + |block|) == Some(BodyBack(body))
  {
    assert |BLANK| == 4;
    hide *;
    Regroup(line, sep, block, Tail(body));
    BodyIsFound(s, line + sep + block + BLANK, body, |line| + |sep| + |block|);
  }

  lemma RequestCut(s: string, line: string, rest: string)
    requires s == line + CRLF + rest && |s| <= MAX_SIZE && Clean(line)
    ensures var nn := Find(s, BLANK, |line| + 1);
            ParseRequest(s) == Assemble(HeaderUri(line), HeadAt(s, |line| + 2, nn), RequestBody(s, HeaderUri(line), nn))
  {
    CleanThenCrlf(line, rest);
    assert Substr(s, 0, |line|) == line;
  }

  lemma ResponseCut(s: string, line: string, rest: string)
    requires s == line + BLANK + rest && |s| <= MAX_SIZE && Find(line + BLANK, BLANK, 0) == |line|
    ensures var nn := Find(s, BLANK, |line| + 1);
            ParseResponse(s) == Assemble(StatusLine(line), HeadAt(s, |line| + 4, nn), BodyAt(s, nn))
  {
    FindInPrefix(line, BLANK, rest);
    assert Substr(s, 0, |line|) == line;
  }

  lemma RequestTextIsCut(requests: seq<string>, pairs: seq<(string, string)>, body: string)
    requires |requests| == 3 && pairs != []
    ensures PrintRequest(requests, pairs, body) == RequestLine(requests) + CRLF + (Block(pairs) + BLANK + Tail(body))
    ensures PrintResponse(requests, pairs, body) == ResponseLine(requests) + BLANK + (Block(pairs) + BLANK + Tail(body))
  {
    HeadTextIsBlock(pairs);
    Regroup(RequestLine(requests), CRLF, Block(pairs), Tail(body));
    Regroup(ResponseLine(requests), BLANK, Block(pairs), Tail(body));
  }

  /** A printed request, any request line: what parsing it amounts to. */
  lemma RequestParses(s: string, line: string, pairs: seq<(string, string)>, body: string)
    requires s == line + CRLF + (Block(pairs) + BLANK + Tail(body)) && |s| <= MAX_SIZE && |body + BLANK| <= MAX_SIZE
    requires pairs != [] && WellFormed(pairs) && Clean(line) && HeaderUri(line).Some?
    ensures var requests := HeaderUri(line).value;
            ParseRequest(s) ==
            Some(Parsed(requests, FirstWins(map[], pairs), if IsPost(requests) then BodyBack(body) else ""))
  {
    hide Find, HeadAt, BodyAt, HeaderUri, BodyBack, FirstWins, Block, WellFormed, Clean, Tail;
    HeadIsFound(s, line, CRLF, Block(pairs), pairs, Tail(body));
    TailIsFound(s, line, CRLF, Block(pairs), body);
    RequestCut(s, line, Block(pairs) + BLANK + Tail(body));
  }

  /** What the parser makes of a POST line: a "GET" anywhere in it costs the method its last letter. */
  function VerbBack(requests: seq<string>): string
    requires |requests| == 3 && |RequestLine(requests)| <= MAX_SIZE
  {
    if Find(RequestLine(requests), "GET", 0) == NPOS then "POST" else "POS"
  }

  /** Requests: with headers that are there and well formed, a URL without space and a line without line end, the
      printed message always parses and headers, URL and version come back. */
  lemma RequestRoundTrip(requests: seq<string>, pairs: seq<(string, string)>, body: string)
    requires |requests| == 3 && requests[0] == "POST" && ' ' !in requests[1]
    requires pairs != [] && WellFormed(pairs) && Clean(RequestLine(requests))
    requires |PrintRequest(requests, pairs, body)| <= MAX_SIZE && |body + BLANK| <= MAX_SIZE
    ensures var verb := VerbBack(requests);
            ParseRequest(PrintRequest(requests, pairs, body)) ==
            Some(Parsed([verb, requests[1], requests[2]], FirstWins(map[], pairs),
                        if verb == "POST" then BodyBack(body) else ""))
  {
    RequestTextIsCut(requests, pairs, body);
    PostLineParses(requests);
    RequestParses(PrintRequest(requests, pairs, body), RequestLine(requests), pairs, body);
  }

  /** So the whole request comes back exactly when its line does not contain "GET" and its body no earlier blank
      line. */
  lemma {:induction false} RequestComesBackIff(requests: seq<string>, pairs: seq<(string, string)>, body: string)
    requires |requests| == 3 && requests[0] == "POST" && ' ' !in requests[1]
    requires pairs != [] && WellFormed(pairs) && Clean(RequestLine(requests))
    requires |PrintRequest(requests, pairs, body)| <= MAX_SIZE && |body + BLANK| <= MAX_SIZE
    ensures (ParseRequest(PrintRequest(requests, pairs, body)) ==
             Some(Parsed(requests, FirstWins(map[], pairs), body))) <==>
            Find(RequestLine(requests), "GET", 0) == NPOS && BodyClean(body)
  {
    RequestRoundTrip(requests, pairs, body);
    BodyBackIff(body);
    SameThree(VerbBack(requests), requests);
  }

  lemma SameThree(verb: string, requests: seq<string>)
    requires |requests| == 3
    ensures [verb, requests[1], requests[2]] == requests <==> verb == requests[0]
  {}

  /** A GET request comes back with its headers; its body is never read. */
  lemma GetRequestRoundTrip(requests: seq<string>, pairs: seq<(string, string)>, body: string)
    requires |requests| == 3 && requests[0] == "GET" && ' ' !in requests[1]
    requires pairs != [] && WellFormed(pairs) && Clean(RequestLine(requests))
    requires |PrintRequest(requests, pairs, body)| <= MAX_SIZE && |body + BLANK| <= MAX_SIZE
    ensures ParseRequest(PrintRequest(requests, pairs, body)) == Some(Parsed(requests, FirstWins(map[], pairs), ""))
  {
    RequestTextIsCut(requests, pairs, body);
    GetLineParses(requests);
    RequestParses(PrintRequest(requests, pairs, body), RequestLine(requests), pairs, body);
  }

  lemma StatusLineParses(requests: seq<string>)
    requires |requests| == 3 && ' ' !in requests[0] && ' ' !in requests[1] && |ResponseLine(requests)| <= MAX_SIZE
    ensures StatusLine(ResponseLine(requests)) == Some(requests)
  {
    var line, v, t := ResponseLine(requests), |requests[0]|, |requests[1]|;
    FindChar(line, '/', 0, 4);
    FindChar(line, ' ', 5, 5 + v);
    FindChar(line, ' ', 6 + v, 6 + v + t);
    StatusCut(requests);
    ThreeOf(Between(line, 5, 5 + v), Between(line, 6 + v, 6 + v + t), Between(line, 7 + v + t, |line|), requests);
  }

  lemma StatusCut(requests: seq<string>)
    requires |requests| == 3 && |ResponseLine(requests)| <= MAX_SIZE
    ensures var line, v, t := ResponseLine(requests), |requests[0]|, |requests[1]|;
            && Between(line, 5, 5 + v) == requests[0]
            && Between(line, 6 + v, 6 + v + t) == requests[1]
            && Between(line, 7 + v + t, |line|) == requests[2]
  {
    var line, v, t := ResponseLine(requests), |requests[0]|, |requests[1]|;
    assert line[5..5 + v] == requests[0];
    assert line[6 + v..6 + v + t] == requests[1];
    assert line[7 + v + t..|line|] == requests[2];
  }

  lemma ThreeOf(a: string, b: string, c: string, requests: seq<string>)
    requires |requests| == 3 && a == requests[0] && b == requests[1] && c == requests[2]
    ensures [a, b, c] == requests
  {}

  lemma ResponseParses(s: string, line: string, pairs: seq<(string, string)>, body: string)
    requires s == line + BLANK + (Block(pairs) + BLANK + Tail(body)) && |s| <= MAX_SIZE && |body + BLANK| <= MAX_SIZE
    requires pairs != [] && WellFormed(pairs) && Find(line + BLANK, BLANK, 0) == |line| && StatusLine(line).Some?
    ensures ParseResponse(s) == Some(Parsed(StatusLine(line).value, FirstWins(map[], pairs), BodyBack(body)))
  {
    hide Find, HeadAt, BodyAt, StatusLine, BodyBack, FirstWins, Block, WellFormed, Tail;
    HeadIsFound(s, line, BLANK, Block(pairs), pairs, Tail(body));
    TailIsFound(s, line, BLANK, Block(pairs), body);
    ResponseCut(s, line, Block(pairs) + BLANK + Tail(body));
  }

  /** Responses: the same, with a reason phrase that may hold spaces.  The body again is back exactly when it is
      clean (BodyBackIff). */
  lemma ResponseRoundTrip(requests: seq<string>, pairs: seq<(string, string)>, body: string)
    requires |requests| == 3 && ' ' !in requests[0] && ' ' !in requests[1]
    requires pairs != [] && WellFormed(pairs)
    requires |PrintResponse(requests, pairs, body)| <= MAX_SIZE && |body + BLANK| <= MAX_SIZE
    requires Find(ResponseLine(requests) + BLANK, BLANK, 0) == |ResponseLine(requests)|
    ensures ParseResponse(PrintResponse(requests, pairs, body)) ==
            Some(Parsed(requests, FirstWins(map[], pairs), BodyBack(body)))
  {
    RequestTextIsCut(requests, pairs, body);
    StatusLineParses(requests);
    ResponseParses(PrintResponse(requests, pairs, body), ResponseLine(requests), pairs, body);
  }

  /** Whatever order the hash map is walked in, the parsed headers are the map that was printed. */
  lemma HeadersComeBack(order: seq<string>, head: ParamMap)
    requires Enumerates(order, head)
    ensures FirstWins(map[], Pairs(order, head)) == head
  {
    PairsRebuild(order, head, map[]);
  }

  // ---------------------------------------------------------------- messages without headers

  /** The specification of the header loop returns exactly where the loop ends. */
  lemma {:induction false} SplitFromIff(s: string, nn: nat, m: ParamMap)
    requires |s| <= MAX_SIZE && nn <= |s| && nn != SENTINEL
    ensures SplitFrom(s, nn, m).Some? <==> Ends(s, nn)
    decreases |s| - nn
  {
    if Ends(s, nn) {
      SplitProgress(s, nn);
      var next, m' := SplitNext(s, nn), Emplace(m, SplitEntry(s, nn).0, SplitEntry(s, nn).1);
      if next != SENTINEL {
        SplitFromIff(s, next, m');
      }
    }
  }

  /** Some colon of `b` has no line end behind it. */
  ghost predicate EndsInColon(b: string)
    requires |b| <= MAX_SIZE
  {
    exists j: nat :: j < |b| && LastColon(b, 0, j)
  }

  lemma EndsBehindCrlf(b: string)
    requires |CRLF + b| <= MAX_SIZE
    ensures Ends(CRLF + b, 0) <==> EndsInColon(b)
  {
    var h := CRLF + b;
    AtCrlf(h, 0);
    assert Find(h, CRLF, 0) != NPOS;
    forall j: nat | j < |b| ensures LastColon(b, 0, j) <==> LastColon(h, 0, j + 2) {
      FindShift(CRLF, b, CRLF, j + 1);
    }
    if Ends(h, 0) {
      var j: nat :| j < |h| && LastColon(h, 0, j);
      assert j >= 2 && h[j] == b[j - 2] && LastColon(h, 0, (j - 2) + 2);
      assert LastColon(b, 0, j - 2);
    }
    if EndsInColon(b) {
      var j: nat :| j < |b| && LastColon(b, 0, j);
      assert LastColon(h, 0, j + 2);
    }
  }

  /** Two line ends in a row make a blank line, and it matters what follows them. */
  lemma BlankPlaces(s: string, line: string, rest: string)
    requires s == line + CRLF + (CRLF + rest)
    ensures !At(s, BLANK, |line| + 1) && !At(s, BLANK, |line| + 3)
    ensures At(s, BLANK, |line| + 2) <==> At(rest, CRLF, 0)
  {
    var k := |line|;
    assert s[k + 1] == CRLF[1] && s[k + 2] == CRLF[0] && s[k + 3] == CRLF[1];
    assert |rest| > 1 ==> s[k + 4] == rest[0] && s[k + 5] == rest[1];
    hide At;
    AtBlank(s, k + 1);
    AtBlank(s, k + 2);
    AtBlank(s, k + 3);
    AtCrlf(s, k + 1);
    AtCrlf(s, k + 2);
    AtCrlf(s, k + 3);
    AtCrlf(s, k + 4);
    AtCrlf(rest, 0);
  }

  lemma CrlfBeforeBlank(body: string)
    ensures At(body + BLANK, CRLF, 0) <==> body == "" || CRLF <= body
  {
    AtCrlf(body + BLANK, 0);
    assert BLANK[0] == CRLF[0] && BLANK[1] == CRLF[1];
    if |body| == 1 {
      assert (body + BLANK)[1] == BLANK[0];
    } else if |body| > 1 {
      assert (body + BLANK)[0] == body[0] && (body + BLANK)[1] == body[1];
      assert CRLF <= body <==> body[..2] == CRLF;
    }
  }

  lemma FindThreeOn(s: string, from: nat)
    requires |s| <= MAX_SIZE && !At(s, BLANK, from) && !At(s, BLANK, from + 1) && !At(s, BLANK, from + 2)
    ensures Find(s, BLANK, from) == Find(s, BLANK, from + 3)
  {
    hide At;
    var n := Find(s, BLANK, from + 3);
    if n != NPOS {
      FindIs(s, BLANK, from, n);
    }
  }

  lemma FindBehind(s: string, front: string, body: string)
    requires s == front + (body + BLANK) && |s| <= MAX_SIZE
    ensures Find(body + BLANK, BLANK, 0) <= |body|
    ensures Find(s, BLANK, |front|) == |front| + Find(body + BLANK, BLANK, 0)
  {
    hide Find, At;
    FindInPrefix(body, BLANK, "");
    assert body + BLANK + "" == body + BLANK;
    FindShift(front, body + BLANK, BLANK, 0);
  }

  /** Where the parser takes the headers of a request without any to end. */
  lemma HeaderlessEnd(s: string, line: string, body: string)
    requires s == line + CRLF + (CRLF + (body + BLANK)) && |s| <= MAX_SIZE && body != ""
    ensures Find(s, BLANK, |line| + 1) ==
            if CRLF <= body then |line| + 2 else |line| + 4 + Find(body + BLANK, BLANK, 0)
    ensures Find(body + BLANK, BLANK, 0) <= |body|
  {
    var k := |line|;
    BlankPlaces(s, line, body + BLANK);
    CrlfBeforeBlank(body);
    assert s == (line + CRLF + CRLF) + (body + BLANK) && |line + CRLF + CRLF| == k + 4;
    hide At, Find;
    FindBehind(s, line + CRLF + CRLF, body);
    if CRLF <= body {
      assert forall i: nat {:trigger At(s, BLANK, i)} :: k + 1 <= i < k + 2 ==> i == k + 1;
      FindIs(s, BLANK, k + 1, k + 2);
    } else {
      FindThreeOn(s, k + 1);
    }
  }

  lemma HeaderlessHead(s: string, line: string, body: string)
    requires s == line + CRLF + (CRLF + (body + BLANK)) && |s| <= MAX_SIZE && body != ""
    ensures var nn := Find(s, BLANK, |line| + 1);
            && Between(s, |line| + 2, nn) == (if CRLF <= body then "" else CRLF + BodyBack(body))
            && BodyAt(s, nn).Some?
  {
    HeaderlessEnd(s, line, body);
    var k, e := |line|, Find(body + BLANK, BLANK, 0);
    assert |s| == k + 4 + |body| + 4;
    CutHead(s, line, body, e);
    hide Find;
  }

  lemma CutHead(s: string, line: string, body: string, e: nat)
    requires s == line + CRLF + (CRLF + (body + BLANK)) && e <= |body|
    ensures s[|line| + 2..|line| + 2] == "" && s[|line| + 2..|line| + 4 + e] == CRLF + body[0..e]
  {}

  lemma NothingEnds()
    ensures Ends("", 0)
  {
    assert forall i: nat :: !At("", CRLF, i);
  }

  /** A request printed without any header is parsed exactly when its body starts with a line end, or the text of the
      body up to its first blank line has a colon no line end follows: that text is then taken for headers.  With any
      other body, and with none, the header loop never ends. */
  lemma {:induction false} HeaderlessRequestIff(requests: seq<string>, body: string)
    requires |requests| == 3 && Clean(RequestLine(requests)) && HeaderUri(RequestLine(requests)).Some?
    requires |PrintRequest(requests, [], body)| <= MAX_SIZE && |body + BLANK| <= MAX_SIZE
    ensures ParseRequest(PrintRequest(requests, [], body)).Some? <==>
            body != "" && (CRLF <= body || EndsInColon(BodyBack(body)))
  {
    var s, line := PrintRequest(requests, [], body), RequestLine(requests);
    if body == "" {
      assert s == line + CRLF + CRLF;
      BodilessRequest(s, line);
    } else {
      assert s == line + CRLF + (CRLF + (body + BLANK));
      HeaderlessParses(s, line, body);
    }
  }

  lemma BodilessRequest(s: string, line: string)
    requires s == line + CRLF + CRLF && |s| <= MAX_SIZE && Clean(line)
    ensures ParseRequest(s) == None
  {
    RequestCut(s, line, CRLF);
    forall i: nat | |line| + 1 <= i ensures !At(s, BLANK, i) {}
    assert Find(s, BLANK, |line| + 1) == NPOS;
    assert s[|line| + 2..] == CRLF;
    assert Between(s, |line| + 2, NPOS) == CRLF;
    assert CRLF + "" == CRLF;
    EndsBehindCrlf("");
    SplitFromIff(CRLF, 0, map[]);
  }

  lemma HeaderlessParses(s: string, line: string, body: string)
    requires s == line + CRLF + (CRLF + (body + BLANK)) && |s| <= MAX_SIZE && Clean(line)
    requires body != "" && HeaderUri(line).Some?
    ensures ParseRequest(s).Some? <==> CRLF <= body || EndsInColon(BodyBack(body))
  {
    hide Find, Ends, EndsInColon, SplitFrom, HeaderUri, BodyAt, Clean, BodyBack, ParseRequest;
    RequestCut(s, line, CRLF + (body + BLANK));
    HeaderlessHead(s, line, body);
    var head := if CRLF <= body then "" else CRLF + BodyBack(body);
    SplitFromIff(head, 0, map[]);
    if CRLF <= body {
      NothingEnds();
    } else {
      EndsBehindCrlf(BodyBack(body));
    }
  }

  lemma NoColonLast(body: string)
    requires |CRLF + Tail(body)| <= MAX_SIZE
    ensures !Ends(CRLF + Tail(body), 0)
  {
    var b := Tail(body);
    EndsBehindCrlf(b);
    forall j: nat | j < |b| && b[j] == ':' ensures !LastColon(b, 0, j) {
      assert j < |body|;
      AtCrlf(b, |b| - 2);
      assert At(b, CRLF, |b| - 2);
    }
  }

  /** A response printed without any header is never parsed: the extra blank line makes the parser take all the rest
      for headers, and the line end it ends in sends the header loop round for ever. */
  lemma {:induction false} HeaderlessResponseNeverReturns(requests: seq<string>, body: string)
    requires |requests| == 3 && |PrintResponse(requests, [], body)| <= MAX_SIZE
    requires Find(ResponseLine(requests) + BLANK, BLANK, 0) == |ResponseLine(requests)|
    ensures ParseResponse(PrintResponse(requests, [], body)) == None
    ensures forall k :: SplitIter(CRLF + Tail(body), 0, k) != SENTINEL
  {
    var s, line, rest := PrintResponse(requests, [], body), ResponseLine(requests), CRLF + Tail(body);
    assert s == line + BLANK + rest;
    HeaderlessResponseHead(s, line, rest);
    hide Find, Tail, ParseResponse, StatusLine, BodyAt, SplitFrom, Ends;
    ResponseCut(s, line, rest);
    NoColonLast(body);
    SplitFromIff(rest, 0, map[]);
    SplitTerminatesIff(rest);
  }

  lemma HeaderlessResponseHead(s: string, line: string, rest: string)
    requires s == line + BLANK + rest && CRLF <= rest && |s| <= MAX_SIZE
    ensures Find(s, BLANK, |line| + 1) == |line| + 2
    ensures Between(s, |line| + 4, |line| + 2) == rest
  {
    var k := |line|;
    assert rest[0] == CRLF[0] && rest[1] == CRLF[1];
    assert s[k + 1] == BLANK[1] && s[k + 2] == BLANK[2] && s[k + 3] == BLANK[3]
           && s[k + 4] == rest[0] && s[k + 5] == rest[1];
    AtBlank(s, k + 1);
    AtCrlf(s, k + 1);
    AtBlank(s, k + 2);
    AtCrlf(s, k + 2);
    AtCrlf(s, k + 4);
    FindIs(s, BLANK, k + 1, k + 2);
    assert s[k + 4..] == rest;
  }
}
