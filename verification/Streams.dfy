/** Reading text the way `std::stringstream` does, and printing numbers the way `std::to_string` does. */
module Streams {

  // ---------------------------------------------------------------- printing

  const INT_MIN := -0x8000_0000
  const INT_MAX := 0x7FFF_FFFF

  predicate IsDigit(c: char) { '0' <= c <= '9' }

  function DigitOf(d: nat): (c: char)
    requires d < 10
    ensures IsDigit(c) && ValueOf(c) == d
  {
    ('0' as int + d) as char
  }

  function ValueOf(c: char): (d: nat)
    requires IsDigit(c)
    ensures d < 10
  {
    c as int - '0' as int
  }

  function Digits(n: nat): (s: string)
    ensures |s| > 0 && forall i :: 0 <= i < |s| ==> IsDigit(s[i])
  {
    (if n < 10 then "" else Digits(n / 10)) + [DigitOf(n % 10)]
  }

  /** `std::to_string` of an `int`. */
  function ToString(n: int): string {
    if n < 0 then "-" + Digits(-n) else Digits(n)
  }

  /** Every item followed by the delimiter: lines by line ends, parameters by commas. */
  function Terminate(items: seq<string>, delim: char): string {
    if items == [] then "" else items[0] + [delim] + Terminate(items[1..], delim)
  }

  // ---------------------------------------------------------------- reading

  /** What is left to read, and whether no extraction has failed yet. */
  datatype Stream = Stream(rest: string, ok: bool)

  predicate IsSpace(c: char) { c == ' ' || '\t' <= c <= '\r' }

  /** The kinds of character a scan runs over. */
  datatype Kind = Space | Solid | Digit | Not(delim: char)

  predicate Is(kind: Kind, c: char) {
    match kind
    case Space => IsSpace(c)
    case Solid => !IsSpace(c)
    case Digit => IsDigit(c)
    case Not(delim) => c != delim
  }

  /** `n` is where a scan over characters of one kind stops. */
  predicate Stops(s: string, kind: Kind, n: nat) {
    n <= |s| && (forall i :: 0 <= i < n ==> Is(kind, s[i])) && (n < |s| ==> !Is(kind, s[n]))
  }

  lemma {:induction false} SomeStop(s: string, kind: Kind, k: nat) returns (n: nat)
    requires k <= |s| && forall i :: 0 <= i < k ==> Is(kind, s[i])
    ensures Stops(s, kind, n)
    decreases |s| - k
  {
    if k < |s| && Is(kind, s[k]) {
      n := SomeStop(s, kind, k + 1);
    } else {
      n := k;
    }
  }

  /** Length of the longest prefix of one kind. */
  function Span(s: string, kind: Kind): (n: nat)
    ensures Stops(s, kind, n)
  {
    assert exists n: nat :: n <= |s| && Stops(s, kind, n) by {
      var n := SomeStop(s, kind, 0);
    }
    var n: nat :| n <= |s| && Stops(s, kind, n);
    n
  }

  lemma SpanIs(s: string, kind: Kind, n: nat)
    requires Stops(s, kind, n)
    ensures Span(s, kind) == n
  {
    var m := Span(s, kind);
    assert forall i :: 0 <= i < |s| && i < n ==> Is(kind, s[i]);
    assert forall i :: 0 <= i < |s| && i < m ==> Is(kind, s[i]);
  }

  function SkipSpace(s: string): string { s[Span(s, Space)..] }

  /** `stream >> word`: a failed extraction leaves the variable, here `before`, as it was. */
  function ReadWord(st: Stream, before: string): (string, Stream) {
    var s := SkipSpace(st.rest);
    if !st.ok || s == "" then (before, Stream(if st.ok then "" else st.rest, false))
    else (s[..Span(s, Solid)], Stream(s[Span(s, Solid)..], true))
  }

  function NatValue(s: string): nat
    requires forall i :: 0 <= i < |s| ==> IsDigit(s[i])
  {
    if s == "" then 0 else 10 * NatValue(s[..|s| - 1]) + ValueOf(s[|s| - 1])
  }

  /** Optional sign and digits: the value, the length, and whether there was a digit at all. */
  function ScanInt(s: string): (r: (int, nat, bool))
    ensures r.1 <= |s|
  {
    var sign := if s != "" && (s[0] == '-' || s[0] == '+') then 1 else 0;
    var n := Span(s[sign..], Digit);
    var value: int := NatValue(s[sign..][..n]);
    (if sign == 1 && s[0] == '-' then -value else value, sign + n, n > 0)
  }

  /** `stream >> number` for an `int`: no digits read as 0 and fail, too large a value is clamped and fails. */
  function ReadInt(st: Stream, before: int): (int, Stream) {
    var s := SkipSpace(st.rest);
    if !st.ok || s == "" then (before, Stream(if st.ok then "" else st.rest, false))
    else
      var (value, n, digits) := ScanInt(s);
      if !digits then (0, Stream(s[n..], false))
      else if value > INT_MAX then (INT_MAX, Stream(s[n..], false))
      else if value < INT_MIN then (INT_MIN, Stream(s[n..], false))
      else (value, Stream(s[n..], true))
  }

  /** `stream >> flag`: only 0 and 1 succeed. */
  function ReadBool(st: Stream, before: bool): (bool, Stream) {
    var s := SkipSpace(st.rest);
    if !st.ok || s == "" then (before, Stream(if st.ok then "" else st.rest, false))
    else
      var (value, n, digits) := ScanInt(s);
      (digits && value != 0, Stream(s[n..], digits && (value == 0 || value == 1)))
  }

  /** The white space and the digits of the "C" locale. */
  lemma ClassesAre(c: char)
    ensures IsSpace(c) <==> c in [' ', '\t', '\n', '\U{0B}', '\U{0C}', '\r']
    ensures IsDigit(c) <==> c in "0123456789"
  {}

  /** On a stream that has failed, or with only white space left, every extraction fails and leaves its variable. */
  lemma NothingIsRead(st: Stream, word: string, number: int, flag: bool)
    requires !st.ok || forall i :: 0 <= i < |st.rest| ==> IsSpace(st.rest[i])
    ensures ReadWord(st, word).0 == word && !ReadWord(st, word).1.ok
    ensures ReadInt(st, number).0 == number && !ReadInt(st, number).1.ok
    ensures ReadBool(st, flag).0 == flag && !ReadBool(st, flag).1.ok
  {
    if st.ok {
      SpanIs(st.rest, Space, |st.rest|);
    }
  }

  /** A number that cannot be read: 0 without digits, the nearest `int` when it is too large or too small; in each
      case the stream fails. */
  lemma NumberOrFailure(st: Stream, before: int, flag: bool)
    requires st.ok && SkipSpace(st.rest) != ""
    ensures var (value, n, digits) := ScanInt(SkipSpace(st.rest));
            var (number, after) := ReadInt(st, before);
            && (after.ok <==> digits && -2147483648 <= value <= 2147483647)
            && number == (if !digits then 0
                          else if value > 2147483647 then 2147483647
                          else if value < -2147483648 then -2147483648 else value)
            && (ReadBool(st, flag).1.ok <==> digits && value in {0, 1})
            && (ReadBool(st, flag).0 <==> digits && value != 0)
            && (!digits ==> n <= 1)
  {
    hide NatValue;
  }

  /** Length of the text before the first `delim`. */
  function LengthTo(s: string, delim: char): (n: nat)
    ensures n <= |s| && (forall i :: 0 <= i < n ==> s[i] != delim) && (n < |s| ==> s[n] == delim)
  {
    Span(s, Not(delim))
  }

  /** The pieces a `while (std::getline(stream, piece, delim))` loop sees. */
  function SplitOn(s: string, delim: char): seq<string>
    decreases |s|
  {
    if s == "" then []
    else
      var n := LengthTo(s, delim);
      [s[..n]] + if n == |s| then [] else SplitOn(s[n + 1..], delim)
  }

  // ---------------------------------------------------------------- reading back what was printed

  predicate IsWord(s: string) { s != "" && forall i :: 0 <= i < |s| ==> !IsSpace(s[i]) }

  lemma {:induction false} SplitTerminated(items: seq<string>, delim: char)
    requires forall i :: 0 <= i < |items| ==> delim !in items[i]
    ensures SplitOn(Terminate(items, delim), delim) == items
  {
    if items != [] {
      var s, rest := Terminate(items, delim), Terminate(items[1..], delim);
      assert s == items[0] + ([delim] + rest);
      SpanIs(s, Not(delim), |items[0]|);
      assert s[..|items[0]|] == items[0];
      assert s[|items[0]| + 1..] == rest;
      SplitTerminated(items[1..], delim);
    }
  }

  /** Words separated by single blanks. */
  function Join(words: seq<string>): string {
    if words == [] then ""
    else if |words| == 1 then words[0]
    else words[0] + " " + Join(words[1..])
  }

  /** What a stream still holds when it stands before `words`: their text, behind a blank unless at the start. */
  function Before(words: seq<string>, first: bool): string {
    if words == [] then "" else (if first then "" else " ") + Join(words)
  }

  /** In front of words, skipping white space reaches the first of them. */
  lemma SkipToWord(words: seq<string>, first: bool) returns (rest: string)
    requires words != [] && IsWord(words[0])
    ensures SkipSpace(Before(words, first)) == words[0] + rest
    ensures rest == Before(words[1..], false) && (rest == "" || IsSpace(rest[0]))
  {
    rest := Before(words[1..], false);
    assert Join(words) == words[0] + rest;
    SkipLead(if first then "" else " ", words[0] + rest);
  }

  lemma SkipLead(lead: string, text: string)
    requires (lead == "" || lead == " ") && text != "" && !IsSpace(text[0])
    ensures SkipSpace(lead + text) == text
  {
    SpanIs(lead + text, Space, |lead|);
  }

  lemma CutWord(word: string, rest: string)
    requires IsWord(word) && (rest == "" || IsSpace(rest[0]))
    ensures Span(word + rest, Solid) == |word|
    ensures (word + rest)[..|word|] == word && (word + rest)[|word|..] == rest
  {
    SpanIs(word + rest, Solid, |word|);
  }

  lemma WordIsNotEmpty(word: string)
    requires IsWord(word)
    ensures word != "" && forall rest: string :: word + rest != ""
  {
    forall rest: string ensures word + rest != "" {
      assert |word + rest| > 0;
    }
  }

  lemma ReadFirstWord(words: seq<string>, first: bool, before: string)
    requires words != [] && IsWord(words[0])
    ensures ReadWord(Stream(Before(words, first), true), before) == (words[0], Stream(Before(words[1..], false), true))
  {
    hide Join, Before, Span, IsWord, SkipSpace;
    var rest := SkipToWord(words, first);
    CutWord(words[0], rest);
    WordIsNotEmpty(words[0]);
  }

  lemma {:induction false} NatValueDigits(n: nat)
    ensures NatValue(Digits(n)) == n
  {
    var s := Digits(n);
    assert s[..|s| - 1] == if n < 10 then "" else Digits(n / 10);
    if n >= 10 {
      NatValueDigits(n / 10);
    }
  }

  lemma ToStringIsWord(n: int)
    ensures IsWord(ToString(n))
  {}

  lemma CutDigits(digits: string, rest: string)
    requires digits != "" && (forall i :: 0 <= i < |digits| ==> IsDigit(digits[i]))
    requires rest == "" || IsSpace(rest[0])
    ensures Span(digits + rest, Digit) == |digits| && (digits + rest)[..|digits|] == digits
    ensures digits[0] != '-' && digits[0] != '+'
  {
    SpanIs(digits + rest, Digit, |digits|);
  }

  /** `k` is 1 behind a sign and 0 without one. */
  lemma ScanCut(s: string, k: nat, digits: string, rest: string)
    requires s != "" && k == (if s[0] == '-' || s[0] == '+' then 1 else 0) && s[k..] == digits + rest
    requires digits != "" && (forall i :: 0 <= i < |digits| ==> IsDigit(digits[i]))
    requires rest == "" || IsSpace(rest[0])
    ensures ScanInt(s) ==
            (if k == 1 && s[0] == '-' then -(NatValue(digits) as int) else NatValue(digits), k + |digits|, true)
  {
    CutDigits(digits, rest);
    hide Span, NatValue;
  }

  lemma ScanSigned(sign: string, digits: string, rest: string)
    requires (sign == "" || sign == "-") && digits != "" && (forall i :: 0 <= i < |digits| ==> IsDigit(digits[i]))
    requires rest == "" || IsSpace(rest[0])
    ensures ScanInt(sign + digits + rest) ==
            (if sign == "-" then -(NatValue(digits) as int) else NatValue(digits), |sign + digits|, true)
  {
    var s := sign + digits + rest;
    assert s[|sign|..] == digits + rest;
    assert s[0] == if sign == "-" then '-' else digits[0];
    hide ScanInt, NatValue;
    ScanCut(s, |sign|, digits, rest);
  }

  /** Reading back a printed number that white space or the end follows. */
  lemma ScanPrinted(n: int, rest: string)
    requires rest == "" || IsSpace(rest[0])
    ensures ScanInt(ToString(n) + rest) == (n, |ToString(n)|, true)
  {
    var abs := if n < 0 then -n else n;
    NatValueDigits(abs);
    ScanSigned(if n < 0 then "-" else "", Digits(abs), rest);
    assert ToString(n) == (if n < 0 then "-" else "") + Digits(abs);
  }

  lemma ReadFirstInt(words: seq<string>, first: bool, before: int, n: int)
    requires words != [] && words[0] == ToString(n) && INT_MIN <= n <= INT_MAX
    ensures ReadInt(Stream(Before(words, first), true), before) == (n, Stream(Before(words[1..], false), true))
  {
    ToStringIsWord(n);
    WordIsNotEmpty(words[0]);
    hide Join, Before, Span, IsWord, SkipSpace, ScanInt, ToString;
    var rest := SkipToWord(words, first);
    ScanPrinted(n, rest);
    assert (words[0] + rest)[|words[0]|..] == rest;
  }

  function FlagText(flag: bool): string { if flag then "1" else "0" }

  lemma FlagIsNumber(flag: bool)
    ensures FlagText(flag) == ToString(if flag then 1 else 0)
  {}

  lemma ReadFirstBool(words: seq<string>, first: bool, before: bool, flag: bool)
    requires words != [] && words[0] == FlagText(flag)
    ensures ReadBool(Stream(Before(words, first), true), before) == (flag, Stream(Before(words[1..], false), true))
  {
    FlagIsNumber(flag);
    ToStringIsWord(if flag then 1 else 0);
    WordIsNotEmpty(words[0]);
    hide Join, Before, Span, IsWord, SkipSpace, ScanInt, ToString, FlagText;
    var rest := SkipToWord(words, first);
    ScanPrinted(if flag then 1 else 0, rest);
    assert (words[0] + rest)[|words[0]|..] == rest;
  }
}
