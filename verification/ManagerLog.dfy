/** The write-ahead log: the lines the manager appends, what replaying a line does to the pod table, and the laws of
    replay. */
module ManagerLog {
  import opened Wrappers
  import opened Streams
  import opened PodDescriptor

  /** `std::map<Alias, PodDescriptor>`. */
  type Table = map<string, Pod>

  // ---------------------------------------------------------------- the lines

  function CreateStart(alias: string): string { "CSS " + alias }
  function CreateFail(alias: string): string { "CSE " + alias + " Fail" }
  function CreateEnd(pod: Pod): string
    requires pod.worker.Some?
  {
    "CSE " + ToSnapshot(pod)
  }
  function StopStart(alias: string): string { "DSS " + alias }
  function StopEnd(alias: string, success: bool): string { "DSE " + alias + (if success then " Success" else " Fail") }

  /** Their literal shape. */
  lemma LineShapes(pod: Pod)
    requires pod.worker.Some? && pod.alias == "a"
    ensures CreateStart("a") == "CSS a" && StopStart("a") == "DSS a" && CreateFail("a") == "CSE a Fail"
    ensures StopEnd("a", true) == "DSE a Success" && StopEnd("a", false) == "DSE a Fail"
    ensures CreateEnd(pod) == "CSE " + ToSnapshot(pod)
  {}

  // ---------------------------------------------------------------- replaying one line

  datatype Effect = Nothing | Insert(pod: Pod) | Erase(alias: string) | Throw(e: Exception)

  /** What `std::getline` leaves in `word` after the first word of a line has been read. */
  function RestOfLine(word: string, st: Stream): string {
    if st.rest == "" then word else st.rest[..LengthTo(st.rest, '\n')]
  }

  function EndEffect(text: string, workers: seq<WorkerId>): Effect {
    var (alias, s1) := ReadWord(Stream(text, true), "");
    if ReadWord(s1, "").0 == "Fail" then Nothing
    else match Decode(text, EMPTY, workers)
         case Ok(pod) => Insert(pod)
         case Err(e) => Throw(e)
  }

  function StopEffect(st: Stream): Effect {
    var (alias, s1) := ReadWord(st, "");
    if ReadWord(s1, "").0 == "Success" then Erase(alias) else Nothing
  }

  /** The effect of a log line on the table, whatever the table is. */
  function EffectOf(line: string, workers: seq<WorkerId>): Effect {
    var (word, st) := ReadWord(Stream(line, true), "");
    if word == "CSS" || word == "DSS" then Nothing
    else if word == "DSE" then StopEffect(st)
    else if word == "CSE" then EndEffect(RestOfLine(word, st), workers)
    else Nothing
  }

  /** Replay inserts without overwriting and erases. */
  function Apply(effect: Effect, table: Table): Table {
    match effect
    case Insert(pod) => if pod.alias in table then table else table[pod.alias := pod]
    case Erase(alias) => table - {alias}
    case _ => table
  }

  function Replay(lines: seq<string>, table: Table, workers: seq<WorkerId>): Result<Table, Exception>
    decreases |lines|
  {
    if lines == [] then Ok(table)
    else
      var effect := EffectOf(lines[0], workers);
      if effect.Throw? then Err(effect.e) else Replay(lines[1..], Apply(effect, table), workers)
  }

  // ---------------------------------------------------------------- every printed line is read as what it is

  lemma {:induction false} NoLineEnd(words: seq<string>, first: bool)
    requires AllWords(words)
    ensures forall i :: 0 <= i < |Before(words, first)| ==> Before(words, first)[i] != '\n'
  {
    if words != [] {
      assert IsWord(words[0]);
      if |words| > 1 {
        NoLineEnd(words[1..], true);
        assert Before(words[1..], true) == Join(words[1..]);
      }
    }
  }

  predicate AllWords(words: seq<string>) { forall i :: 0 <= i < |words| ==> IsWord(words[i]) }

  /** A line is taken apart into its first word and the rest. */
  lemma FirstWord(head: string, f: seq<string>)
    requires IsWord(head) && f != [] && AllWords(f)
    ensures ReadWord(Stream(Join([head] + f), true), "") == (head, Stream(Before(f, false), true))
    ensures RestOfLine(head, Stream(Before(f, false), true)) == Before(f, false)
  {
    hide ReadWord, RestOfLine, Join, IsWord, AllWords;
    var w := [head] + f;
    assert w[0..] == w && w[1..] == f;
    assert Before(w, true) == Join(w);
    WordAt(w, 0, true, "");
    RestIsWhole(head, f);
  }

  lemma RestIsWhole(head: string, f: seq<string>)
    requires f != [] && AllWords(f)
    ensures RestOfLine(head, Stream(Before(f, false), true)) == Before(f, false)
  {
    var rest := Before(f, false);
    NoLineEnd(f, false);
    SpanIs(rest, Not('\n'), |rest|);
    assert rest[..|rest|] == rest;
  }

  lemma TwoWords(f: seq<string>)
    requires |f| > 1 && IsWord(f[0]) && IsWord(f[1])
    ensures var r := ReadWord(Stream(Before(f, false), true), "");
            r.0 == f[0] && ReadWord(r.1, "").0 == f[1]
  {
    hide ReadWord, Before, Join, IsWord;
    assert f[0..] == f;
    WordAt(f, 0, false, "");
    WordAt(f, 1, false, "");
  }

  lemma {:induction false} StartLinesDoNothing(alias: string, workers: seq<WorkerId>)
    requires IsWord(alias)
    ensures EffectOf(CreateStart(alias), workers) == Nothing && EffectOf(StopStart(alias), workers) == Nothing
  {
    JoinTwo("CSS", alias);
    JoinTwo("DSS", alias);
    assert IsWord("CSS") && IsWord("DSS") && AllWords([alias]);
    assert CreateStart(alias) == "CSS" + " " + alias && StopStart(alias) == "DSS" + " " + alias;
    hide ReadWord, Join, IsWord, AllWords, Before, EndEffect, StopEffect, RestOfLine;
    FirstWord("CSS", [alias]);
    FirstWord("DSS", [alias]);
  }

  lemma JoinTwo(a: string, b: string)
    ensures Join([a] + [b]) == a + " " + b
  {
    assert ([a] + [b])[1..] == [b];
  }

  lemma JoinThree(a: string, b: string, c: string)
    ensures Join([a] + [b, c]) == a + " " + b + " " + c
  {
    assert ([a] + [b, c])[1..] == [b, c] && [b, c][1..] == [c];
    assert Join([b, c]) == b + " " + c;
    JoinShift(a, b, c);
  }

  lemma StopEndText(alias: string, success: bool)
    ensures StopEnd(alias, success) == Join(["DSE"] + [alias, if success then "Success" else "Fail"])
  {
    JoinThree("DSE", alias, if success then "Success" else "Fail");
    assert "DSE " == "DSE" + " ";
    if success {
      assert " Success" == " " + "Success";
    } else {
      assert " Fail" == " " + "Fail";
    }
  }

  lemma StopLine(f: seq<string>, workers: seq<WorkerId>)
    requires |f| == 2 && AllWords(f)
    ensures EffectOf(Join(["DSE"] + f), workers) == if f[1] == "Success" then Erase(f[0]) else Nothing
  {
    assert IsWord("DSE") && IsWord(f[0]) && IsWord(f[1]);
    hide ReadWord, Before, Join, IsWord, AllWords, EndEffect, RestOfLine;
    FirstWord("DSE", f);
    TwoWords(f);
    assert "DSE"[0] != "CSS"[0] && "DSE"[2] != "DSS"[2];
  }

  lemma {:induction false} StopEndIsRead(alias: string, success: bool, workers: seq<WorkerId>)
    requires IsWord(alias)
    ensures EffectOf(StopEnd(alias, success), workers) == if success then Erase(alias) else Nothing
  {
    hide EffectOf, StopEnd, Join;
    StopEndText(alias, success);
    StopLine([alias, if success then "Success" else "Fail"], workers);
    assert "Fail"[0] != "Success"[0];
  }

  lemma {:induction false} CreateFailIsRead(alias: string, workers: seq<WorkerId>)
    requires IsWord(alias)
    ensures EffectOf(CreateFail(alias), workers) == Nothing
  {
    var f := [alias, "Fail"];
    JoinThree("CSE", alias, "Fail");
    assert CreateFail(alias) == Join(["CSE"] + f) by { assert "CSE " == "CSE" + " " && " Fail" == " " + "Fail"; }
    assert AllWords(f);
    FirstWord("CSE", f);
    TwoWords(f);
  }

  lemma TenWords(w: seq<string>)
    requires |w| == 10 && IsWord(w[0]) && IsWord(w[1]) && IsWord(w[2]) && IsWord(w[3]) && IsWord(w[4])
    requires IsWord(w[5]) && IsWord(w[6]) && IsWord(w[7]) && IsWord(w[8]) && IsWord(w[9])
    ensures AllWords(w)
  {
    hide IsWord;
  }

  lemma PrintedPodIsWords(pod: Pod)
    requires WellFormed(pod)
    ensures AllWords(Fields(pod))
  {
    hide IsWord, ToString, FlagText, TypeText, Braced, Inner, SplitOn, AllWords;
    FieldsAreWords(pod);
    ToStringIsWord(pod.port);
    ToStringIsWord(pod.restart);
    ToStringIsWord(pod.worker.value.port);
    FlagIsNumber(pod.alive);
    ToStringIsWord(if pod.alive then 1 else 0);
    TenWords(Fields(pod));
  }

  lemma CseLine(line: string, st: Stream, workers: seq<WorkerId>)
    requires ReadWord(Stream(line, true), "") == ("CSE", st)
    ensures EffectOf(line, workers) == EndEffect(RestOfLine("CSE", st), workers)
  {
    hide ReadWord, RestOfLine, EndEffect, StopEffect;
    assert "CSE"[0] != "DSS"[0] && "CSE"[2] != "CSS"[2];
  }

  lemma CreateEndText(pod: Pod)
    requires WellFormed(pod)
    ensures Join(["CSE"] + Fields(pod)) == CreateEnd(pod)
    ensures Before(Fields(pod), false) == " " + ToSnapshot(pod)
  {
    hide IsWord, ToString, FlagText, TypeText, Braced;
    assert (["CSE"] + Fields(pod))[1..] == Fields(pod);
    assert "CSE " == "CSE" + " ";
  }

  lemma CseOfWords(f: seq<string>, line: string, workers: seq<WorkerId>)
    requires f != [] && AllWords(f) && line == Join(["CSE"] + f)
    ensures EffectOf(line, workers) == EndEffect(Before(f, false), workers)
  {
    assert IsWord("CSE");
    hide *;
    FirstWord("CSE", f);
    CseLine(line, Stream(Before(f, false), true), workers);
  }

  lemma EndOfWords(f: seq<string>, pod: Pod, workers: seq<WorkerId>)
    requires |f| > 1 && IsWord(f[0]) && IsWord(f[1]) && Decode(Before(f, false), EMPTY, workers) == Ok(pod)
    ensures EndEffect(Before(f, false), workers) == if f[1] == "Fail" then Nothing else Insert(pod)
  {
    hide ReadWord, Before, Join, IsWord, Decode;
    TwoWords(f);
  }

  /** A create-success line puts the printed pod back exactly when its alias is not "Fail": success and failure
      are told apart by the second word alone. */
  lemma {:induction false} CreateEndIsReadIff(pod: Pod, workers: seq<WorkerId>)
    requires WellFormed(pod)
    ensures EffectOf(CreateEnd(pod), workers) == if pod.alias == "Fail" then Nothing else Insert(Reread(pod, workers))
  {
    hide Reread, EffectOf, EndEffect, Decode, Before, Join, CreateEnd;
    PrintedPodIsWords(pod);
    CreateEndText(pod);
    CseOfWords(Fields(pod), CreateEnd(pod), workers);
    PodLineRoundTrip(pod, false, EMPTY, workers);
    EndOfWords(Fields(pod), Reread(pod, workers), workers);
  }

  /** Decoding is unambiguous: every printed form of line is read back as its own effect exactly when the alias is
      not "Fail". */
  lemma {:induction false} LinesAreReadIff(pod: Pod, workers: seq<WorkerId>)
    requires WellFormed(pod)
    ensures && EffectOf(CreateStart(pod.alias), workers) == EffectOf(StopStart(pod.alias), workers) == Nothing
            && EffectOf(CreateFail(pod.alias), workers) == EffectOf(StopEnd(pod.alias, false), workers) == Nothing
            && EffectOf(StopEnd(pod.alias, true), workers) == Erase(pod.alias)
            && EffectOf(CreateEnd(pod), workers) == Insert(Reread(pod, workers))
            <==> pod.alias != "Fail"
  {
    assert IsWord(pod.alias);
    hide EffectOf, CreateStart, CreateFail, CreateEnd, StopStart, StopEnd, Reread, WellFormed, IsWord;
    StartLinesDoNothing(pod.alias, workers);
    CreateFailIsRead(pod.alias, workers);
    StopEndIsRead(pod.alias, false, workers);
    StopEndIsRead(pod.alias, true, workers);
    CreateEndIsReadIff(pod, workers);
  }

  // ---------------------------------------------------------------- where replay restarts does not matter

  /** Replay seen from one alias: what it holds before and after. */
  function At(table: Table, alias: string): Option<Pod> {
    if alias in table then Some(table[alias]) else None
  }

  /** What lines do to one alias: `erased`, and what is left there if nothing was there before. */
  datatype Summary = Summary(erased: bool, filled: Option<Pod>)

  function Act(sum: Summary, before: Option<Pod>): Option<Pod> {
    if sum.erased || before.None? then sum.filled else before
  }

  function Then(sum: Summary, effect: Effect, alias: string): Summary {
    match effect
    case Insert(pod) =>
      if pod.alias == alias && sum.filled.None? then sum.(filled := Some(pod)) else sum
    case Erase(a) => if a == alias then Summary(true, None) else sum
    case _ => sum
  }

  function Summarize(lines: seq<string>, alias: string, workers: seq<WorkerId>): Summary
    decreases |lines|
  {
    if lines == [] then Summary(false, None)
    else Then(Summarize(lines[..|lines| - 1], alias, workers), EffectOf(lines[|lines| - 1], workers), alias)
  }

  lemma {:induction false} ReplaySplit(a: seq<string>, b: seq<string>, table: Table, workers: seq<WorkerId>)
    ensures Replay(a + b, table, workers) ==
            match Replay(a, table, workers) case Ok(t) => Replay(b, t, workers) case Err(e) => Err(e)
    decreases |a|
  {
    hide EffectOf, Apply;
    if a == [] {
      assert a + b == b;
    } else {
      assert (a + b)[1..] == a[1..] + b;
      var effect := EffectOf(a[0], workers);
      if !effect.Throw? {
        ReplaySplit(a[1..], b, Apply(effect, table), workers);
      }
    }
  }

  lemma ThenIsApply(sum: Summary, effect: Effect, alias: string, before: Option<Pod>, table: Table)
    requires At(table, alias) == Act(sum, before)
    ensures At(Apply(effect, table), alias) == Act(Then(sum, effect, alias), before)
  {}

  lemma SummarizeLast(lines: seq<string>, alias: string, workers: seq<WorkerId>)
    requires lines != []
    ensures var k := |lines| - 1;
            Summarize(lines, alias, workers) ==
            Then(Summarize(lines[..k], alias, workers), EffectOf(lines[k], workers), alias)
  {
    hide EffectOf, Then;
  }

  lemma {:induction false} SummaryIsReplay(lines: seq<string>, table: Table, workers: seq<WorkerId>, alias: string)
    requires Replay(lines, table, workers).Ok?
    ensures At(Replay(lines, table, workers).value, alias) == Act(Summarize(lines, alias, workers), At(table, alias))
    decreases |lines|
  {
    if lines != [] {
      SummarizeLast(lines, alias, workers);
      hide *;
      var k := |lines| - 1;
      assert lines == lines[..k] + [lines[k]];
      ReplaySplit(lines[..k], [lines[k]], table, workers);
      SummaryIsReplay(lines[..k], table, workers, alias);
      var t := Replay(lines[..k], table, workers).value;
      ReplayOne(lines[k], t, workers);
      ThenIsApply(Summarize(lines[..k], alias, workers), EffectOf(lines[k], workers), alias, At(table, alias), t);
    }
  }

  lemma ReplayOne(line: string, table: Table, workers: seq<WorkerId>)
    ensures Replay([line], table, workers) ==
            var effect := EffectOf(line, workers); if effect.Throw? then Err(effect.e) else Ok(Apply(effect, table))
  {
    hide EffectOf, Apply;
    assert [line][1..] == [];
  }

  /** No line throws for one table and not for another. */
  lemma {:induction false} ThrowsAlike(lines: seq<string>, t1: Table, t2: Table, workers: seq<WorkerId>)
    requires Replay(lines, t1, workers).Ok?
    ensures Replay(lines, t2, workers).Ok?
    decreases |lines|
  {
    hide EffectOf, Apply;
    if lines != [] {
      var effect := EffectOf(lines[0], workers);
      ThrowsAlike(lines[1..], Apply(effect, t1), Apply(effect, t2), workers);
    }
  }

  /** Replaying lines twice is replaying them once. */
  lemma {:induction false} ReplayTwice(lines: seq<string>, table: Table, workers: seq<WorkerId>)
    requires Replay(lines, table, workers).Ok?
    ensures Replay(lines, Replay(lines, table, workers).value, workers) == Replay(lines, table, workers)
  {
    hide EffectOf, Apply, Summarize, Replay;
    var once := Replay(lines, table, workers).value;
    ThrowsAlike(lines, table, once, workers);
    var twice := Replay(lines, once, workers).value;
    forall alias ensures At(twice, alias) == At(once, alias) {
      SummaryIsReplay(lines, table, workers, alias);
      SummaryIsReplay(lines, once, workers, alias);
    }
    SameTable(twice, once);
  }

  lemma SameTable(t1: Table, t2: Table)
    requires forall alias :: At(t1, alias) == At(t2, alias)
    ensures t1 == t2
  {
    forall alias ensures alias in t1 <==> alias in t2 {
      assert At(t1, alias) == At(t2, alias);
    }
    forall alias | alias in t1 ensures t1[alias] == t2[alias] {
      assert At(t1, alias) == At(t2, alias);
    }
  }

  /** A snapshot taken after line k may be replayed from any earlier line j: the result is that of the whole log. */
  lemma RestartAnywhere(log: seq<string>, table: Table, workers: seq<WorkerId>, j: nat, k: nat)
    requires j <= k <= |log| && Replay(log[..k], table, workers).Ok?
    ensures Replay(log[j..], Replay(log[..k], table, workers).value, workers) == Replay(log, table, workers)
  {
    hide EffectOf, Apply, Replay;
    var covered := log[j..k];
    var at := Replay(log[..k], table, workers).value;
    assert log[..k] == log[..j] + covered;
    ReplaySplit(log[..j], covered, table, workers);
    ReplayTwice(covered, Replay(log[..j], table, workers).value, workers);
    assert log[j..] == covered + log[k..];
    ReplaySplit(covered, log[k..], at, workers);
    assert log == log[..k] + log[k..];
    ReplaySplit(log[..k], log[k..], table, workers);
  }
}
