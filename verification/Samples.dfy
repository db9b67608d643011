/** Scenarios that meet the premises of the end-to-end results: neither is vacuous. */
module Samples {
  import opened Basics
  import opened Json
  import opened Text
  import opened Models
  import opened Printer
  import opened Trace
  import opened Decisions
  import opened ReferenceMemory
  import opened Retrievals
  import opened SharedCounter
  import opened Asks
  import opened PolicyRefinement
  import opened Runs
  import opened Ranking
  import Confidentiality
  import RisiCRun
  import RisiCRecovery
  import RisiCEndToEnd
  import RisiCAcceptance
  import RisiCBundleReplay
  import Retained
  import Budget
  import Craf
  import CrafRun
  import CrafEndToEnd
  import CrafBundleReplay
  import CrafReplayability

  // ----- texts that avoid a letter -----

  predicate Avoids(s: string, c: char) {
    forall i | 0 <= i < |s| :: s[i] != c
  }

  /** No string or name of the value holds the letter, and the value holds no float. */
  predicate LetterFree(v: Json, c: char) {
    match v
    case Float(_) => false
    case Str(s) => Avoids(s, c)
    case Arr(items) => forall i | 0 <= i < |items| :: LetterFree(items[i], c)
    case Obj(fields) => forall k | k in fields :: Avoids(k, c) && LetterFree(fields[k], c)
    case _ => true
  }

  /** A letter the printer never writes of its own accord. */
  predicate Unwritten(c: char) {
    c == 'z' || c == 'w'
  }

  lemma {:induction false} EscapeAvoids(s: string, c: char)
    requires Avoids(s, c) && Unwritten(c)
    ensures Avoids(Escape(s), c)
  {
    if s != [] {
      EscapeAvoids(s[1..], c);
      EscapeCharAvoids(s[0], c);
    }
  }

  lemma EscapeCharAvoids(d: char, c: char)
    requires d != c && Unwritten(c)
    ensures Avoids(EscapeChar(d), c)
  {
  }

  lemma QuoteAvoids(s: string, c: char)
    requires Avoids(s, c) && Unwritten(c)
    ensures Avoids(Quote(s), c)
  {
    EscapeAvoids(s, c);
  }

  lemma {:induction false} PrintAvoids(v: Json, repr: FloatText, c: char)
    requires LetterFree(v, c) && Unwritten(c)
    ensures Avoids(Print(v, repr), c)
    decreases v, 1, 0
  {
    hide Quote, SortedStrings, PrintMember, PrintMembers, PrintTail, StrictlySorted;
    match v
    case Str(s) => QuoteAvoids(s, c);
    case Arr(items) =>
      if items != [] {
        PrintAvoids(items[0], repr, c);
        TailAvoids(items[1..], repr, c);
      }
    case Obj(fields) =>
      var names := SortedStrings(fields.Keys);
      if names != [] {
        assert names[0] in names && forall n <- names[1..] :: n in names;
        MemberAvoids(fields, names[0], repr, c);
        MembersAvoid(fields, names[1..], repr, c);
      }
    case _ =>
  }

  lemma {:induction false} TailAvoids(items: seq<Json>, repr: FloatText, c: char)
    requires Unwritten(c) && forall i | 0 <= i < |items| :: LetterFree(items[i], c)
    ensures Avoids(PrintTail(items, repr), c)
    decreases items, 0, 0
  {
    if items != [] {
      PrintAvoids(items[0], repr, c);
      TailAvoids(items[1..], repr, c);
    }
  }

  lemma {:induction false} MemberAvoids(fields: Fields, name: string, repr: FloatText, c: char)
    requires name in fields && Unwritten(c) && Avoids(name, c) && LetterFree(fields[name], c)
    ensures Avoids(PrintMember(fields, name, repr), c)
    decreases Obj(fields), 0, 0
  {
    hide Quote;
    QuoteAvoids(name, c);
    PrintAvoids(fields[name], repr, c);
  }

  lemma {:induction false} MembersAvoid(fields: Fields, names: seq<string>, repr: FloatText, c: char)
    requires Unwritten(c) && (forall n <- names :: n in fields)
    requires forall k | k in fields :: Avoids(k, c) && LetterFree(fields[k], c)
    ensures Avoids(PrintMembers(fields, names, repr), c)
    decreases Obj(fields), 0, |names| + 1
  {
    hide PrintMember;
    if names != [] {
      assert names[0] in names && forall n <- names[1..] :: n in names;
      MemberAvoids(fields, names[0], repr, c);
      MembersAvoid(fields, names[1..], repr, c);
    }
  }

  lemma {:induction false} AvoidedIsAbsent(text: string, c: char)
    requires Avoids(text, c)
    ensures !Contains(text, [c])
  {
    assert [c][0] == c && (text != [] ==> text[0] != c);
    assert !([c] <= text);
    if text != [] {
      AvoidedIsAbsent(text[1..], c);
    }
  }

  // ----- one-letter memories and queries -----

  /** A memory of one token, visible to one principal. */
  function Note(id: char, content: char, reader: char, criticality: Option<string>): MemoryRecord
    requires Letter(id) && Letter(content) && Letter(reader)
  {
    RawMemory([id], "w", "t", "o", "f", [content], [[reader]], 0, 0, None, criticality, CURRENT, map[])
  }

  predicate Letter(c: char) {
    'a' <= c <= 'z'
  }

  function Ask1(reader: char, text: char): RetrievalQuery
    requires Letter(reader) && Letter(text)
  {
    RawQuery([reader], "t", [text], 1)
  }

  lemma OneToken(p: Platform, c: char)
    requires Letter(c)
    ensures Tokens(p.casefold([c])) == {[c]}
  {
    assert LowerAscii([c]);
    assert [c][1..] == [] && "" + [c] == [c];
    assert TokensFrom([], [c]) == {[c]};
  }

  /** A one-letter query is matched exactly by the current notes of its tenant, reader and letter. */
  lemma NoteMatches(p: Platform, reader: char, text: char, time: nat, id: char, content: char, other: char, criticality: Option<string>)
    requires Letter(reader) && Letter(text) && Letter(id) && Letter(content) && Letter(other)
    ensures Matches(p, Ask1(reader, text), time, Note(id, content, other, criticality)) <==> reader == other && text == content
  {
    hide Tokens;
    OneToken(p, text);
    OneToken(p, content);
    var x, y: set<string> := {[text]}, {[content]};
    assert [text][0] == text && [content][0] == content && [reader][0] == reader && [other][0] == other;
    if text == content {
      assert x * y == x && |x| == 1;
    } else {
      assert [text] != [content];
      assert x * y == {};
    }
    var m, q := Note(id, content, other, criticality), Ask1(reader, text);
    assert q.principalId in m.accessPolicy <==> reader == other;
  }

  /** The first hit of a query belongs to a memory that matches it. */
  lemma FirstHitMatches(p: Platform, s: StateSnapshot, q: RetrievalQuery, k: nat) returns (i: nat)
    requires q.topK == 1 && k < |s.sourceMemories| && Matches(p, q, s.logicalTime, s.sourceMemories[k])
    ensures i < |s.sourceMemories| && Matches(p, q, s.logicalTime, s.sourceMemories[i])
    ensures HitsOf(PlainHits(p, s, q)) == [s.sourceMemories[i].memoryId]
    ensures forall j | 0 <= j < |s.sourceMemories| && Matches(p, q, s.logicalTime, s.sourceMemories[j]) ::
              s.sourceMemories[j].memoryId in Ids(PlainRanking(p, s, q))
  {
    hide PlainRanking, Matches;
    RankingListsMatches(p, s, q);
    var ranking := PlainRanking(p, s, q);
    var n :| 0 <= n < |Ids(ranking)| && Ids(ranking)[n] == s.sourceMemories[k].memoryId;
    assert ranking[0] in ranking;
    i :| 0 <= i < |MemoryIds(s.sourceMemories)| && MemoryIds(s.sourceMemories)[i] == ranking[0].memoryId;
    assert Ids(ranking)[0] == s.sourceMemories[i].memoryId;
    assert Top(ranking, 1) == [RetrievalHit(ranking[0].memoryId, 1, ranking[0].score)];
  }

  // ----- who may see a memory -----

  /** A memory of one token, with what its authorization depends on left open. */
  function Variation(state: MemoryState, tenant: char, reader: char, from: nat, until: Option<nat>): MemoryRecord
    requires Letter(tenant) && Letter(reader) && (until.Some? ==> until.value > from)
  {
    RawMemory("m", "w", [tenant], "o", "f", "d", [[reader]], 0, from,
              match until case None => None case Some(t) => Some(t), None, state, map[])
  }

  /** A snapshot of one memory, at time one, under pure-read. */
  function OneMemory(m: MemoryRecord): StateSnapshot
    requires m.scenarioId == "w"
  {
    PureReadNamed();
    RawSnapshot(1, RawEpisode("w", "e", 0), 1, 0, [m], map[], map[], map[], PureReadPolicy(1), map[])
  }

  lemma OneMemoryMatches(p: Platform, m: MemoryRecord)
    requires m.content == "d"
    ensures Matches(p, Ask1('d', 'd'), 1, m) <==> Authorized(Ask1('d', 'd'), 1, m)
  {
    hide Tokens, Authorized;
    OneToken(p, 'd');
    assert ['d'] == "d";
    var x: set<string> := {"d"};
    assert x * x == x && |x| == 1;
  }

  lemma OneMemoryRanking(p: Platform, m: MemoryRecord)
    requires m.content == "d" && m.scenarioId == "w"
    ensures HitsOf(PlainHits(p, OneMemory(m), Ask1('d', 'd'))) == if Authorized(Ask1('d', 'd'), 1, m) then [m.memoryId] else []
  {
    hide Matches, Authorized, PlainRanking;
    OneMemoryMatches(p, m);
    var s, q := OneMemory(m), Ask1('d', 'd');
    RankingListsMatches(p, s, q);
    var ranking := PlainRanking(p, s, q);
    assert MemoryIds(s.sourceMemories) == [m.memoryId] && s.sourceMemories[0] == m;
    assert forall i | 0 <= i < |ranking| :: ranking[i] in ranking && Ids(ranking)[i] == m.memoryId;
    assert |ranking| > 0 ==> Ids(ranking)[0] == m.memoryId && m.memoryId in Ids(ranking);
    if Authorized(q, 1, m) {
      var i := FirstHitMatches(p, s, q, 0);
      assert i == 0;
    }
  }

  /** What its one retrieval returns: the memory, if its reader is authorized to it. */
  lemma OneMemoryRetrieved(p: Platform, m: MemoryRecord)
    requires m.content == "d" && m.scenarioId == "w"
    ensures var outcome := Retrieval(p, Fresh(OneMemory(m)), Ask1('d', 'd')).outcome;
            outcome.Ok? && HitIds(outcome.value) == if Authorized(Ask1('d', 'd'), 1, m) then [m.memoryId] else []
  {
    hide Retrieval, AnswerFor, PlainHits, Authorized, PureReadPolicy;
    OneMemoryPolicy(m);
    OneMemoryRanking(p, m);
    PureReadRetrieval(p, Fresh(OneMemory(m)), Ask1('d', 'd'));
    PlainAnswer(p, OneMemory(m), Ask1('d', 'd'));
  }

  lemma OneMemoryPolicy(m: MemoryRecord)
    requires m.scenarioId == "w"
    ensures OneMemory(m).policy.name == "pure-read" && WithinTopK(OneMemory(m), Ask1('d', 'd'))
    ensures SuppressedIds(OneMemory(m).derivedState) == Ok({})
  {
    hide NonBlank;
  }

  /** Whether a memory is returned to the reader of its one-letter content, at time one. */
  predicate Shown(p: Platform, m: MemoryRecord)
    requires m.scenarioId == "w"
  {
    hide Retrieval;
    var outcome := Retrieval(p, Fresh(OneMemory(m)), Ask1('d', 'd')).outcome;
    outcome.Ok? && m.memoryId in HitIds(outcome.value)
  }

  lemma ShownIffAuthorized(p: Platform, m: MemoryRecord)
    requires m.content == "d" && m.scenarioId == "w"
    ensures Shown(p, m) <==> Authorized(Ask1('d', 'd'), 1, m)
  {
    hide Retrieval, Authorized, OneMemory;
    OneMemoryRetrieved(p, m);
  }

  /**
   A query for its token, by reader d of tenant t at time one, is shown the memory exactly when every
   condition holds: dropping or loosening any one of them would show a memory that the source does not.
   */
  lemma EachConditionRefuses(p: Platform, state: MemoryState, tenant: char, reader: char, from: nat, until: Option<nat>)
    requires Letter(tenant) && Letter(reader) && (until.Some? ==> until.value > from)
    ensures Shown(p, Variation(state, tenant, reader, from, until)) <==>
            state == CURRENT && tenant == 't' && reader == 'd' && from <= 1 && (until.None? || 1 < until.value)
  {
    hide Shown, NonBlank;
    var m := Variation(state, tenant, reader, from, until);
    assert [tenant][0] == tenant && "t"[0] == 't' && [reader][0] == reader && ['d'][0] == 'd';
    assert m.accessPolicy[0] == [reader];
    ShownIffAuthorized(p, m);
  }

  // ----- a RISI-C scenario -----

  const LABEL := Some("protected-recall")

  /** The signal of a hidden event, quoting the canary's token if it leaks. */
  function HiddenSignal(leak: bool): MemoryRecord {
    RawMemory("h", "w", "t", "o", "f", if leak then "c w" else "c", ["o"], 0, 0, None, None, CURRENT, map[])
  }

  function RisiCMemories(leak: bool): seq<MemoryRecord> {
    [Note('z', 'z', 'v', None), Note('s', 'b', 'v', None), Note('n', 'c', 'o', None), HiddenSignal(leak), Note('m', 'd', 'd', LABEL)]
  }

  function Facts2(): Fields {
    map["class" := Str("c"), "region" := Str("r")]
  }

  /** Which of the variants: whether the decision retrieval is counted too, the action taken is safe, and the hidden signal leaks. */
  datatype Case = Case(recount: bool, safe: bool, leak: bool)

  function SafeOracle(c: Case): DecisionOracle {
    RawDecisionOracle("o", "e", [if c.safe then "go" else "stop"])
  }

  lemma RisiCIds(leak: bool)
    ensures MemoryIds(RisiCMemories(leak)) == ["z", "s", "n", "h", "m"]
  {
    hide NonBlank;
  }

  lemma FiveDistinct()
    ensures Distinct(["z", "s", "n", "h", "m"])
  {
    var ids := ["z", "s", "n", "h", "m"];
    forall i, j | 0 <= i < j < 5 ensures ids[i] != ids[j] {
      assert ids[i][0] == ['z', 's', 'n', 'h', 'm'][i] && ids[j][0] == ['z', 's', 'n', 'h', 'm'][j];
    }
  }

  lemma RisiCWorldIsValid(c: Case)
    ensures RawScenario(RawEpisode("w", "e", 0), 0, RisiCMemories(c.leak), Facts2(), [RawMemoryOracle("m", true, true, 0, None, map[])],
                        SafeOracle(c)).Valid()
  {
    hide Distinct;
    RisiCIds(c.leak);
    FiveDistinct();
  }

  function RisiCWorld(c: Case): Scenario {
    RisiCWorldIsValid(c);
    RawScenario(RawEpisode("w", "e", 0), 0, RisiCMemories(c.leak), Facts2(), [RawMemoryOracle("m", true, true, 0, None, map[])],
                SafeOracle(c))
  }

  function RegionQuery(c: Case): RetrievalQuery {
    if c.recount then Ask1('v', 'z') else Ask1('d', 'd')
  }

  function RisiCSample(c: Case): RisiCRun.Plan {
    RisiCRun.Plan(RisiCWorld(c), RawRegion(RegionQuery(c), "class", "region", "k", "r", "m", "stop", "go", ["x"]),
                  Confidentiality.RawOracle("z", "w", "s", "v", "o", "n", "h", RisiCRecovery.COUNTER_PATH, 1, 0.5, 0.0),
                  Ask1('v', 'z'), Ask1('v', 'b'), Ask1('o', 'c'), "", "")
  }

  lemma RisiCStartIs(c: Case)
    ensures RisiCRun.Start(RisiCSample(c)).sourceMemories == RisiCMemories(c.leak) && RisiCRun.Start(RisiCSample(c)).logicalTime == 0
  {
    hide Note, NonBlank;
    RisiCRecovery.StartsWithMemories(RisiCSample(c));
  }

  /** The token in the hidden signal's content changes nothing about which of the scenario's queries match it. */
  lemma HiddenSignalMatches(p: Platform, leak: bool, reader: char, text: char)
    requires Letter(reader) && Letter(text) && text != 'w'
    ensures Matches(p, Ask1(reader, text), 0, HiddenSignal(leak)) <==> reader == 'o' && text == 'c'
  {
    hide Tokens;
    OneToken(p, text);
    OneToken(p, 'c');
    LeakTokens(p);
    assert ['c'] == "c" && [text][0] == text && "c"[0] == 'c' && "w"[0] == 'w' && [reader][0] == reader && "o"[0] == 'o';
    var x: set<string> := {[text]};
    if text == 'c' {
      assert [text] == "c";
      assert x * {"c"} == x && x * {"c", "w"} == x && |x| == 1;
    } else {
      assert [text] != "c" && [text] != "w";
      assert x * {"c"} == {} && x * {"c", "w"} == {};
    }
    assert [reader] in HiddenSignal(leak).accessPolicy <==> reader == 'o';
  }

  lemma LeakTokens(p: Platform)
    ensures Tokens(p.casefold("c w")) == {"c", "w"}
  {
    var text := "c w";
    assert LowerAscii(text);
    assert p.casefold(text) == text;
    assert "" + ['c'] == "c" && "" + ['w'] == "w";
    assert text[1..] == " w" && " w"[1..] == "w" && "w"[1..] == "";
    assert TokensFrom("", "w") == {"w"};
    assert TokensFrom("w", "") == {"w"};
    assert TokensFrom(" w", "c") == {"c"} + {"w"};
    assert TokensFrom(text, "") == {"c", "w"};
  }

  /** Which of the five memories a one-letter query matches. */
  lemma RisiCMatches(p: Platform, leak: bool, reader: char, text: char, i: nat)
    requires Letter(reader) && Letter(text) && text != 'w' && i < 5
    ensures Matches(p, Ask1(reader, text), 0, RisiCMemories(leak)[i]) <==> RisiCHit(reader, text, i)
  {
    hide Matches, Note, HiddenSignal, Ask1;
    NoteMatches(p, reader, text, 0, 'z', 'z', 'v', None);
    NoteMatches(p, reader, text, 0, 's', 'b', 'v', None);
    NoteMatches(p, reader, text, 0, 'n', 'c', 'o', None);
    HiddenSignalMatches(p, leak, reader, text);
    NoteMatches(p, reader, text, 0, 'm', 'd', 'd', LABEL);
  }

  predicate RisiCHit(reader: char, text: char, i: nat) {
    (i == 0 && reader == 'v' && text == 'z') || (i == 1 && reader == 'v' && text == 'b')
    || ((i == 2 || i == 3) && reader == 'o' && text == 'c') || (i == 4 && reader == 'd' && text == 'd')
  }

  function RisiCId(i: nat): string
    requires i < 5
  {
    ["z", "s", "n", "h", "m"][i]
  }

  /** What a one-letter query returns: the first hit is of a memory it matches, and every such memory is a candidate. */
  lemma RisiCQuery(p: Platform, c: Case, reader: char, text: char, k: nat) returns (i: nat)
    requires Letter(reader) && Letter(text) && text != 'w' && k < 5 && RisiCHit(reader, text, k)
    ensures i < 5 && RisiCHit(reader, text, i)
    ensures RisiCRecovery.PlainIds(p, RisiCSample(c), Ask1(reader, text)) == [RisiCId(i)]
    ensures forall j | 0 <= j < 5 && RisiCHit(reader, text, j) ::
              RisiCId(j) in Ids(PlainRanking(p, RisiCRun.Start(RisiCSample(c)), Ask1(reader, text)))
  {
    hide RisiCRun.Start, Matches, PlainRanking, PlainHits, Note, HitsOf, RisiCSample, RisiCMemories, RisiCHit;
    RisiCStartIs(c);
    RisiCFive(c.leak);
    forall j | 0 <= j < 5 ensures Matches(p, Ask1(reader, text), 0, RisiCMemories(c.leak)[j]) <==> RisiCHit(reader, text, j) {
      RisiCMatches(p, c.leak, reader, text, j);
    }
    i := FirstHitMatches(p, RisiCRun.Start(RisiCSample(c)), Ask1(reader, text), k);
  }

  lemma RisiCFive(leak: bool)
    ensures |RisiCMemories(leak)| == 5 && forall i | 0 <= i < 5 :: RisiCMemories(leak)[i].memoryId == RisiCId(i)
  {
    hide NonBlank;
    RisiCIds(leak);
    forall i | 0 <= i < 5 ensures RisiCMemories(leak)[i].memoryId == RisiCId(i) {
      assert MemoryIds(RisiCMemories(leak))[i] == RisiCMemories(leak)[i].memoryId;
    }
  }

  lemma RisiCIsolates(p: Platform, c: Case)
    ensures RisiCRecovery.Isolates(p, RisiCSample(c))
  {
    hide RisiCRun.Start, PlainRanking, RisiCRecovery.PlainIds, NonBlank;
    var x := RisiCQuery(p, c, 'v', 'z', 0);
    var y := RisiCQuery(p, c, 'v', 'b', 1);
    var z := RisiCQuery(p, c, 'o', 'c', 2);
    assert x == 0 && y == 1 && (z == 2 || z == 3);
    assert RisiCHit('o', 'c', 2) && RisiCHit('o', 'c', 3);
    assert RisiCId(2) == "n" && RisiCId(3) == "h";
  }

  lemma RisiCKnows(leak: bool)
    ensures "z" in ById(RisiCMemories(leak)) && "n" in ById(RisiCMemories(leak)) && "h" in ById(RisiCMemories(leak))
  {
    hide NonBlank, Note, HiddenSignal, RisiCMemories, ById;
    RisiCIds(leak);
    var ids := MemoryIds(RisiCMemories(leak));
    assert ids[0] in ids && ids[2] in ids && ids[3] in ids;
    ByIdHolds(RisiCMemories(leak), "z");
    ByIdHolds(RisiCMemories(leak), "n");
    ByIdHolds(RisiCMemories(leak), "h");
  }

  lemma RisiCPolicyAccepted(c: Case)
    ensures PolicyAccepted(RisiCRun.SharedCounterPolicy(RisiCSample(c)), RisiCRecovery.Memories(RisiCSample(c)).Keys)
  {
    hide NonBlank, RisiCMemories, ById;
    RisiCKnows(c.leak);
    DistinctLetters();
  }

  lemma DistinctLetters()
    ensures "z" != "n" && "z" != "h" && "n" != "h" && "v" != "o" && "z" != "s"
  {
    assert "z"[0] == 'z' && "n"[0] == 'n' && "h"[0] == 'h' && "v"[0] == 'v' && "o"[0] == 'o' && "s"[0] == 's';
  }

  lemma RisiCDecidable(c: Case)
    ensures RisiCRecovery.Decidable(RisiCSample(c))
  {
    hide NonBlank;
    var plan := RisiCSample(c);
    RisiCStartIs(c);
    assert plan.scenario.memoryOracles[1..] == [];
    assert Critical(plan.scenario.memoryOracles) == [plan.scenario.memoryOracles[0]];
    RisiCFinds(c.leak);
  }

  lemma RisiCFinds(leak: bool)
    ensures FindMemory(RisiCMemories(leak), "m") == Some(Note('m', 'd', 'd', LABEL))
    ensures FindMemory(RisiCMemories(leak), "n") == Some(Note('n', 'c', 'o', None))
    ensures FindMemory(RisiCMemories(leak), "h") == Some(HiddenSignal(leak))
  {
    hide NonBlank;
    var memories := RisiCMemories(leak);
    RisiCWorldIsValid(Case(false, true, leak));
    FoundAt(memories, 4);
    FoundAt(memories, 2);
    FoundAt(memories, 3);
  }

  /** What the observer is shown of a signal. */
  function SignalContent(c: Case, signal: char): string {
    if signal == 'h' && c.leak then "c w" else "c"
  }

  function SampleView(c: Case, signal: char): Confidentiality.ObserverView
    requires signal == 'n' || signal == 'h'
  {
    Confidentiality.RawView("o", [Confidentiality.RawExchange(0, Ask1('o', 'c'), [[signal]], [SignalContent(c, signal)],
                                                              map["result_count" := Int(1)])])
  }

  lemma RisiCSignalView(c: Case, signal: char)
    requires signal == 'n' || signal == 'h'
    ensures RisiCRecovery.SignalView(RisiCSample(c), [signal]) == Ok(SampleView(c, signal))
  {
    hide NonBlank, FindMemory;
    RisiCFinds(c.leak);
    var memories := RisiCMemories(c.leak);
    assert RisiCRun.Found(memories, [[signal]]);
    assert ['n'] == "n" && ['h'] == "h";
    assert RisiCRun.Contents(memories, [[signal]]).value == [SignalContent(c, signal)];
  }

  lemma QueryLetterFree(q: RetrievalQuery, c: char)
    requires Unwritten(c) && Avoids(q.principalId, c) && Avoids(q.tenantId, c) && Avoids(q.text, c)
    ensures LetterFree(QueryToJson(q), c)
  {
    assert QueryToJson(q).fields.Keys == {"principal_id", "tenant_id", "text", "top_k"};
    assert Avoids("principal_id", c) && Avoids("tenant_id", c) && Avoids("text", c) && Avoids("top_k", c);
  }

  lemma StringsLetterFree(xs: seq<string>, c: char)
    requires forall i | 0 <= i < |xs| :: Avoids(xs[i], c)
    ensures LetterFree(Strings(xs), c)
  {
  }

  lemma ExchangeLetterFree(e: Confidentiality.ObserverExchange, c: char)
    requires Unwritten(c) && LetterFree(QueryToJson(e.query), c) && LetterFree(Strings(e.responseIds), c)
    requires LetterFree(Strings(e.responseContents), c) && LetterFree(Obj(e.metadata), c)
    ensures LetterFree(Confidentiality.ExchangeToJson(e), c)
  {
    hide QueryToJson, Strings;
    var f := Confidentiality.ExchangeToJson(e).fields;
    assert f.Keys == {"query_index", "query", "response_memory_ids", "response_contents", "metadata"};
    assert Avoids("query_index", c) && Avoids("query", c) && Avoids("response_memory_ids", c);
    assert Avoids("response_contents", c) && Avoids("metadata", c);
  }

  lemma ViewLetterFree(view: Confidentiality.ObserverView, c: char)
    requires Unwritten(c) && Avoids(view.principalId, c)
    requires forall i | 0 <= i < |view.exchanges| :: LetterFree(Confidentiality.ExchangeToJson(view.exchanges[i]), c)
    ensures LetterFree(Confidentiality.ViewToJson(view), c)
  {
    hide Confidentiality.ExchangeToJson;
    var f := Confidentiality.ViewToJson(view).fields;
    assert f.Keys == {"principal_id", "exchanges"};
    assert Avoids("principal_id", c) && Avoids("exchanges", c);
  }

  /** A view of one letter of content shows neither the identifier nor the token. */
  lemma SampleViewAvoids(c: Case, signal: char, avoided: char, repr: FloatText)
    requires (signal == 'n' || signal == 'h') && SignalContent(c, signal) == "c" && Unwritten(avoided)
    ensures !Contains(Print(Confidentiality.ViewToJson(SampleView(c, signal)), repr), [avoided])
  {
    hide QueryToJson, Strings, Confidentiality.ExchangeToJson, Confidentiality.ViewToJson, Print, NonBlank, Contains;
    var view := SampleView(c, signal);
    var e := view.exchanges[0];
    QueryLetterFree(e.query, avoided);
    StringsLetterFree(e.responseIds, avoided);
    StringsLetterFree(e.responseContents, avoided);
    assert Avoids("result_count", avoided);
    ExchangeLetterFree(e, avoided);
    ViewLetterFree(view, avoided);
    PrintAvoids(Confidentiality.ViewToJson(view), repr, avoided);
    AvoidedIsAbsent(Print(Confidentiality.ViewToJson(view), repr), avoided);
  }

  lemma SampleViewHushed(c: Case, signal: char, repr: FloatText)
    requires (signal == 'n' || signal == 'h') && SignalContent(c, signal) == "c"
    ensures !Confidentiality.Discloses(SampleView(c, signal), RisiCSample(c).oracle, repr)
  {
    hide SampleView, Confidentiality.ViewToJson, Print, NonBlank, Contains;
    SampleViewAvoids(c, signal, 'z', repr);
    SampleViewAvoids(c, signal, 'w', repr);
    assert "z" == ['z'] && "w" == ['w'];
  }

  /** The leaking view shows the token, which differs from the identifier. */
  lemma SampleViewLeaks(c: Case, repr: FloatText)
    requires c.leak
    ensures Confidentiality.Discloses(SampleView(c, 'h'), RisiCSample(c).oracle, repr)
    ensures !Contains(SignalContent(c, 'h'), RisiCSample(c).oracle.canaryMemoryId)
  {
    hide Confidentiality.ViewToJson, Print, NonBlank, Confidentiality.HoldsText;
    var view := SampleView(c, 'h');
    assert "w" == ['w'] && "z" == ['z'] && "c w"[1..] == " w" && " w"[1..] == "w";
    assert "w" <= "w";
    AvoidedIsAbsent("c w", 'z');
    Confidentiality.ContentsHold(view, 0, 0, "w");
    Confidentiality.PrintHolds(Confidentiality.ViewToJson(view), repr, "w");
  }

  lemma RisiCHushed(c: Case, repr: FloatText)
    ensures RisiCRecovery.Hushed(RisiCSample(c), repr) <==> !c.leak
  {
    hide Confidentiality.Discloses, RisiCRecovery.SignalView, NonBlank, Note, SampleView;
    RisiCSignalView(c, 'n');
    RisiCSignalView(c, 'h');
    SampleViewHushed(c, 'n', repr);
    if c.leak {
      SampleViewLeaks(c, repr);
    } else {
      SampleViewHushed(c, 'h', repr);
    }
    assert "n" == ['n'] && "h" == ['h'];
  }

  lemma DecisionRecounts(p: Platform, c: Case)
    ensures RisiCRecovery.CountsAgain(p, RisiCSample(c)) <==> c.recount
  {
    hide NonBlank, RisiCRecovery.PlainIds, RisiCWorld;
    var i := RisiCQuery(p, c, 'v', 'z', 0);
    assert i == 0 && RisiCId(0) == "z" && "z" in [RisiCId(0)];
    assert ['d'][0] != "v"[0];
  }

  /**
   The premises of the RISI-C result are met, on every platform, by a five-memory scenario, whether or not
   its decision retrieval is counted as well, the action it takes is safe, and its hidden signal leaks.
   */
  lemma RisiCPremisesMet(p: Platform, repr: FloatText, c: Case)
    ensures RisiCRecovery.Agrees(RisiCSample(c)) && RisiCRecovery.Isolates(p, RisiCSample(c))
    ensures RisiCRecovery.Decidable(RisiCSample(c)) && (RisiCRecovery.Hushed(RisiCSample(c), repr) <==> !c.leak)
    ensures RisiCRecovery.CountsAgain(p, RisiCSample(c)) <==> c.recount
  {
    hide RisiCRecovery.Isolates, RisiCRecovery.Decidable, RisiCRecovery.Hushed, PolicyAccepted, NonBlank, RisiCRun.SharedCounterPolicy,
         RisiCRecovery.PlainIds, RisiCRecovery.CountsAgain;
    RisiCPolicyAccepted(c);
    RisiCIsolates(p, c);
    RisiCDecidable(c);
    RisiCHushed(c, repr);
    DecisionRecounts(p, c);
  }

  const SAMPLE_LIMITS: Budget.Limits := Budget.Amounts(4, 12, 20, 1, 1, 1)

  /**
   So its execution completes within 4 episodes, 12 retrievals and 20 steps, and is recovered unless the
   hidden signal's content holds the canary's token, which makes the vulnerable pair a direct disclosure,
   or the decision retrieval is counted, which confounds it.
   */
  lemma RisiCSampleRecovered(p: Platform, repr: FloatText, c: Case)
    ensures var outcome := RisiCRun.Executed(p, repr, RisiCSample(c), Budget.Opened(SAMPLE_LIMITS));
            && outcome.Ok? && |outcome.value.comparison.pairs| == 2
            && (outcome.value.comparison.result == Confidentiality.CONTROLLED_MECHANISM_RECOVERED <==> !c.leak && !c.recount)
            && outcome.value.comparison.pairs[0].classification ==
               (if c.leak then Confidentiality.DIRECT_DISCLOSURE
                else if c.recount then Confidentiality.CONFOUNDED else Confidentiality.RISI_C)
  {
    hide RisiCRecovery.Agrees, RisiCRecovery.Isolates, RisiCRecovery.Decidable, RisiCRecovery.Hushed, RisiCRecovery.CountsAgain,
         RisiCRun.Executed, RisiCSample;
    RisiCPremisesMet(p, repr, c);
    Budget.WithinLimitsUnfolds(Budget.Plus(Budget.Opened(SAMPLE_LIMITS), 4, 12, 20));
    RisiCEndToEnd.MechanismRecoveredIff(p, repr, RisiCSample(c), Budget.Opened(SAMPLE_LIMITS));
  }

  lemma SampleIsUnrestricted(c: Case)
    ensures RisiCBundleReplay.Unrestricted(RisiCSample(c))
    ensures RisiCSample(c).region.actionIfAllowed in RisiCSample(c).scenario.decisionOracle.safeActions <==> c.safe
  {
    hide NonBlank;
    assert "c"[0] != "k"[0] && "go"[0] != "stop"[0];
    assert SafeOracle(c).safeActions[0] == if c.safe then "go" else "stop";
  }

  /** And its bundle replays to its own result if the action taken is safe, and is refused if it is not, recovered or not. */
  lemma RisiCSampleReplays(p: Platform, repr: FloatText, c: Case)
    ensures var plan, outcome := RisiCSample(c), RisiCRun.Executed(p, repr, RisiCSample(c), Budget.Opened(SAMPLE_LIMITS));
            && outcome.Ok? && RisiCBundleReplay.Shaped(outcome.value)
            && RisiCBundleReplay.ReplayBundle(p, repr, plan.scenario.episode.scenarioId, plan.scenario.decisionOracle.safeActions,
                                              RisiCBundleReplay.BundleOf(p, plan, outcome.value))
               == if c.safe then Ok(outcome.value.comparison.result) else Err(Retained.UnsafeDecision)
  {
    hide RisiCRun.Executed, RisiCSample, RisiCBundleReplay.ReplayBundle, RisiCBundleReplay.BundleOf, RisiCBundleReplay.Unrestricted;
    RisiCSampleRecovered(p, repr, c);
    SampleIsUnrestricted(c);
    RisiCBundleReplay.UnrestrictedReplaysIff(p, repr, RisiCSample(c), Budget.Opened(SAMPLE_LIMITS));
  }

  /** With the opposite verdict written into it, the sample's bundle is refused, whatever comparison goes with it. */
  lemma WrongSampleVerdictIsRefused(p: Platform, repr: FloatText, c: Case, comparison: Json)
    ensures var outcome := RisiCRun.Executed(p, repr, RisiCSample(c), Budget.Opened(SAMPLE_LIMITS));
            && outcome.Ok?
            && RisiCAcceptance.Refuses(p, repr, RisiCSample(c), outcome.value, comparison,
                                       if c.leak || c.recount then "controlled_mechanism_recovered" else "comparison_failed")
  {
    hide RisiCRun.Executed, RisiCSample, RisiCAcceptance.Refuses, PyEq, RisiCBundleReplay.AllSafe, RisiCBundleReplay.ReplayBundle,
         RisiCBundleReplay.BundleOf, Confidentiality.ComparisonToJson;
    RisiCSampleRecovered(p, repr, c);
    RisiCSampleReplays(p, repr, c);
    var opposite := if c.leak || c.recount then "controlled_mechanism_recovered" else "comparison_failed";
    assert "controlled_mechanism_recovered"[2] == 'n' && "comparison_failed"[2] == 'm';
    RisiCAcceptance.WrongVerdictIsRefused(p, repr, RisiCSample(c), Budget.Opened(SAMPLE_LIMITS), comparison, opposite);
  }

  // ----- a CRAF scenario -----

  /** A memory whose content quotes the identifier of another. */
  const QUOTING: MemoryRecord := RawMemory("q", "w", "t", "o", "f", "d [m]", ["d"], 0, 0, None, None, CURRENT, map[])

  function CrafMemories(quoting: bool): seq<MemoryRecord> {
    [Note('m', 'd', 'd', LABEL), Note('g', 'a', 'i', None)] + if quoting then [QUOTING] else []
  }

  const CRAF_ORACLE: MemoryOracle :=
    RawMemoryOracle("m", true, true, 0, None, map["environment" := Str("prod"), "minimum_approvals" := Int(2)])
  const CRAF_FACTS: Fields := map["approvals" := Int(0), "target_environment" := Str("prod")]
  const CRAF_SAFE: DecisionOracle := RawDecisionOracle("o", "e", ["stop"])

  lemma CrafIdsAre(quoting: bool)
    ensures MemoryIds(CrafMemories(quoting)) == ["m", "g"] + if quoting then ["q"] else []
    ensures "m" != "g" && "m" != "q" && "g" != "q"
    ensures Distinct(MemoryIds(CrafMemories(quoting)))
  {
    var ids := MemoryIds(CrafMemories(quoting));
    assert ids[0][0] == 'm' && ids[1][0] == 'g' && (quoting ==> ids[2][0] == 'q');
    assert "m"[0] == 'm' && "g"[0] == 'g' && "q"[0] == 'q';
  }

  lemma CrafWorldIsValid(quoting: bool)
    ensures RawScenario(RawEpisode("w", "e", 0), 0, CrafMemories(quoting), CRAF_FACTS, [CRAF_ORACLE], CRAF_SAFE).Valid()
  {
    CrafIdsAre(quoting);
  }

  function CrafWorld(quoting: bool): Scenario {
    CrafWorldIsValid(quoting);
    RawScenario(RawEpisode("w", "e", 0), 0, CrafMemories(quoting), CRAF_FACTS, [CRAF_ORACLE], CRAF_SAFE)
  }

  /** The decision query, with room for every memory. */
  const CRAF_QUERY: RetrievalQuery := RawQuery("d", "t", "d", 3)

  function CrafSample(quoting: bool): CrafRun.CrafPlan {
    CrafRun.CrafPlan(CrafWorld(quoting), RawApproval(CRAF_QUERY, "approvals", 2, "m", "stop", "go"), Ask1('i', 'a'), "g", "", "")
  }

  lemma CrafStartIs(quoting: bool)
    ensures CrafRun.CrafStart(CrafSample(quoting)).sourceMemories == CrafMemories(quoting)
    ensures CrafRun.CrafStart(CrafSample(quoting)).logicalTime == 0
  {
    hide Note, NonBlank;
    CrafEndToEnd.CrafStartsWith(CrafSample(quoting));
  }

  // ----- what its queries match -----

  lemma QuotingTokens(p: Platform)
    ensures Tokens(p.casefold(QUOTING.content)) == {"d", "m"}
  {
    var text := "d [m]";
    assert LowerAscii(text);
    assert p.casefold(text) == text;
    assert "" + ['d'] == "d" && "" + ['m'] == "m";
    assert text[1..] == " [m]" && " [m]"[1..] == "[m]" && "[m]"[1..] == "m]" && "m]"[1..] == "]" && "]"[1..] == "";
    assert TokensFrom("", "") == {};
    assert TokensFrom("]", "m") == {"m"};
    assert TokensFrom("m]", "") == {"m"};
    assert TokensFrom("[m]", "") == {"m"};
    assert TokensFrom(" [m]", "d") == {"d"} + {"m"};
    assert TokensFrom(text, "") == {"d", "m"};
  }

  /** The quoting memory is matched by the decision query, and hidden from the interaction's reader. */
  lemma QuotingMatches(p: Platform)
    ensures Matches(p, CRAF_QUERY, 0, QUOTING) && !Matches(p, Ask1('i', 'a'), 0, QUOTING)
  {
    hide Tokens;
    QuotingTokens(p);
    OneToken(p, 'd');
    assert ['d'] == "d";
    var x: set<string> := {"d"};
    assert x * {"d", "m"} == x && |x| == 1;
    assert ['i'][0] != "d"[0];
    assert CRAF_QUERY.principalId == QUOTING.accessPolicy[0];
  }

  /** Of the decision query's matches, and the interaction's. */
  lemma CrafMatches(p: Platform, quoting: bool)
    ensures var ms := CrafMemories(quoting);
            && |ms| == (if quoting then 3 else 2)
            && Matches(p, CRAF_QUERY, 0, ms[0]) && !Matches(p, CRAF_QUERY, 0, ms[1])
            && !Matches(p, Ask1('i', 'a'), 0, ms[0]) && Matches(p, Ask1('i', 'a'), 0, ms[1])
            && (quoting ==> ms[2] == QUOTING && Matches(p, CRAF_QUERY, 0, ms[2]) && !Matches(p, Ask1('i', 'a'), 0, ms[2]))
  {
    hide Matches, Note;
    NoteMatches(p, 'd', 'd', 0, 'm', 'd', 'd', LABEL);
    NoteMatches(p, 'd', 'd', 0, 'g', 'a', 'i', None);
    NoteMatches(p, 'i', 'a', 0, 'm', 'd', 'd', LABEL);
    NoteMatches(p, 'i', 'a', 0, 'g', 'a', 'i', None);
    QuotingMatches(p);
    RoomMakesNoMatch(p, Note('m', 'd', 'd', LABEL));
    RoomMakesNoMatch(p, Note('g', 'a', 'i', None));
  }

  lemma RoomMakesNoMatch(p: Platform, m: MemoryRecord)
    ensures Matches(p, CRAF_QUERY, 0, m) <==> Matches(p, Ask1('d', 'd'), 0, m)
  {
    hide Tokens;
    assert ['d'] == "d";
  }

  lemma CrafTriggerQuery(p: Platform, quoting: bool)
    ensures CrafEndToEnd.CrafPlainIds(p, CrafSample(quoting), Ask1('i', 'a')) == ["g"]
  {
    hide CrafRun.CrafStart, Matches, PlainRanking, PlainHits, Note, HitsOf, CrafSample;
    CrafStartIs(quoting);
    CrafIdsAre(quoting);
    CrafMatches(p, quoting);
    var i := FirstHitMatches(p, CrafRun.CrafStart(CrafSample(quoting)), Ask1('i', 'a'), 1);
    assert i == 1 && MemoryIds(CrafMemories(quoting))[1] == CrafMemories(quoting)[1].memoryId;
  }

  lemma {:induction false} ScoredFit(p: Platform, memories: seq<MemoryRecord>, q: RetrievalQuery, time: int)
    ensures |ScoreAll(p, memories, q, time)| <= |memories|
  {
    hide Score, IsRetrievable;
    if memories != [] {
      ScoredFit(p, Front(memories), q, time);
    }
  }

  /** The decision query lists the required memory, and the quoting one if there is one, and has room for them. */
  lemma CrafDecisionRanking(p: Platform, quoting: bool)
    ensures var ranking := PlainRanking(p, CrafRun.CrafStart(CrafSample(quoting)), CRAF_QUERY);
            && |ranking| <= 3 && "m" in Ids(ranking)
            && (forall i | 0 <= i < |ranking| :: ranking[i].memoryId == "m" || (quoting && ranking[i].memoryId == "q"))
            && (quoting ==> "q" in Ids(ranking))
  {
    hide CrafRun.CrafStart, Matches, ScoreAll, Sorted, CrafSample, CrafMemories;
    var s := CrafRun.CrafStart(CrafSample(quoting));
    var ms := CrafMemories(quoting);
    CrafStartIs(quoting);
    CrafIdsAre(quoting);
    CrafMatches(p, quoting);
    ScoredFit(p, ms, CRAF_QUERY, 0);
    SortedIds(None, ScoreAll(p, ms, CRAF_QUERY, 0));
    RankingListsMatches(p, s, CRAF_QUERY);
    assert forall i | 0 <= i < |ms| :: MemoryIds(ms)[i] == ms[i].memoryId;
    var ranking := PlainRanking(p, s, CRAF_QUERY);
    forall i | 0 <= i < |ranking| ensures ranking[i].memoryId == "m" || (quoting && ranking[i].memoryId == "q") {
      assert ranking[i] in ranking && Ids(ranking)[i] == ranking[i].memoryId;
    }
  }

  lemma {:induction false} WithoutHolds(xs: seq<Scored>, removed: set<string>)
    ensures |Without(xs, removed)| <= |xs|
    ensures forall id | id in Ids(xs) && id !in removed :: id in Ids(Without(xs, removed))
  {
    if xs != [] {
      WithoutHolds(xs[1..], removed);
      assert Ids(xs) == [xs[0].memoryId] + Ids(xs[1..]);
      if xs[0].memoryId !in removed {
        assert Ids(Without(xs, removed)) == [xs[0].memoryId] + Ids(Without(xs[1..], removed));
      }
    }
  }

  lemma TopHolds(xs: seq<Scored>, k: nat)
    requires |xs| <= k
    ensures |Top(xs, k)| == |xs| && forall i | 0 <= i < |xs| :: Top(xs, k)[i].memoryId == xs[i].memoryId
  {
  }

  lemma {:induction false} WithoutAll(xs: seq<Scored>, id: string)
    requires forall i | 0 <= i < |xs| :: xs[i].memoryId == id
    ensures Without(xs, {id}) == []
  {
    if xs != [] {
      WithoutAll(xs[1..], id);
    }
  }

  lemma CrafRecalls(p: Platform, quoting: bool)
    ensures "m" in CrafEndToEnd.CrafPlainIds(p, CrafSample(quoting), CRAF_QUERY)
  {
    hide CrafRun.CrafStart, PlainRanking, CrafSample, Top;
    CrafDecisionRanking(p, quoting);
    var ranking := PlainRanking(p, CrafRun.CrafStart(CrafSample(quoting)), CRAF_QUERY);
    TopHolds(ranking, 3);
    var i :| 0 <= i < |Ids(ranking)| && Ids(ranking)[i] == "m";
    assert CrafEndToEnd.CrafPlainIds(p, CrafSample(quoting), CRAF_QUERY)[i] == "m";
  }

  // ----- its premises -----

  lemma CrafKnows(quoting: bool)
    ensures "m" in ById(CrafMemories(quoting)) && "g" in ById(CrafMemories(quoting)) && "m" != "g"
  {
    hide NonBlank, Note, ById;
    CrafIdsAre(quoting);
    var ids := MemoryIds(CrafMemories(quoting));
    assert ids[0] in ids && ids[1] in ids;
    ByIdHolds(CrafMemories(quoting), "m");
    ByIdHolds(CrafMemories(quoting), "g");
  }

  lemma CrafVulnerableAccepted(quoting: bool)
    ensures PolicyAccepted(CrafRun.CrafPolicy(CrafSample(quoting), Craf.VULNERABLE), ById(CrafMemories(quoting)).Keys)
  {
    hide NonBlank, Note, ById, PureReadAccepted, SharedCounterAccepted, CrafMemories;
    CrafKnows(quoting);
  }

  lemma CrafProtectedAccepted(quoting: bool)
    ensures PolicyAccepted(CrafRun.CrafPolicy(CrafSample(quoting), Craf.PROTECTED), ById(CrafMemories(quoting)).Keys)
  {
    hide NonBlank, Note, ById, PureReadAccepted, SharedCounterAccepted, CrafMemories;
    CrafKnows(quoting);
  }

  lemma CrafScorable(quoting: bool)
    ensures CrafEndToEnd.Scorable(CrafSample(quoting)) && CriticalOracle(CrafWorld(quoting)) == Ok(CRAF_ORACLE)
  {
    hide NonBlank;
    CrafStartIs(quoting);
    CrafIdsAre(quoting);
    assert [CRAF_ORACLE][1..] == [] && Critical([CRAF_ORACLE]) == [CRAF_ORACLE];
    FoundAt(CrafMemories(quoting), 0);
  }

  lemma OnlyStopIsSafe(quoting: bool)
    ensures CrafEndToEnd.OnlyBlockingIsSafe(CrafSample(quoting))
  {
    hide NonBlank;
    assert "stop"[0] == 's' && "go"[0] == 'g';
    assert CRAF_SAFE.safeActions[0] == "stop";
  }

  lemma CrafTriggers(p: Platform, quoting: bool)
    ensures CrafEndToEnd.Triggers(p, CrafSample(quoting))
  {
    hide NonBlank, PolicyAccepted, CrafEndToEnd.CrafPlainIds, CrafRun.CrafPolicy, Note, CrafMemories, ById;
    CrafVulnerableAccepted(quoting);
    CrafProtectedAccepted(quoting);
    CrafTriggerQuery(p, quoting);
  }

  /** The premises of the CRAF result are met, on every platform, by a two-memory scenario it applies to, and with a third that quotes. */
  lemma CrafPremisesMet(p: Platform, quoting: bool)
    ensures CrafEndToEnd.Triggers(p, CrafSample(quoting)) && CrafEndToEnd.Scorable(CrafSample(quoting))
    ensures CrafEndToEnd.OnlyBlockingIsSafe(CrafSample(quoting)) && CrafEndToEnd.Applies(p, CrafSample(quoting))
  {
    hide NonBlank, CrafEndToEnd.Triggers, CrafEndToEnd.CrafPlainIds, CriticalOracle, CrafEndToEnd.Scorable,
         CrafEndToEnd.OnlyBlockingIsSafe, Note, CrafMemories;
    CrafTriggers(p, quoting);
    CrafRecalls(p, quoting);
    CrafScorable(quoting);
    OnlyStopIsSafe(quoting);
  }

  const CRAF_LIMITS: Budget.Limits := Budget.Amounts(3, 6, 12, 1, 1, 1)

  /** So the execution completes within 3 episodes, 6 retrievals and 12 steps, and is recovered. */
  lemma CrafSampleRecovered(p: Platform, quoting: bool)
    ensures var outcome := CrafRun.CrafExecuted(p, CrafSample(quoting), Budget.Opened(CRAF_LIMITS));
            outcome.Ok? && outcome.value.comparison.result == Craf.CONTROLLED_MECHANISM_RECOVERED
  {
    hide CrafEndToEnd.Triggers, CrafEndToEnd.Scorable, CrafEndToEnd.OnlyBlockingIsSafe, CrafEndToEnd.Applies, CrafRun.CrafExecuted,
         CrafSample;
    CrafPremisesMet(p, quoting);
    Budget.WithinLimitsUnfolds(Budget.Plus(Budget.Opened(CRAF_LIMITS), 3, 6, 12));
    CrafEndToEnd.CrafRecoveredIff(p, CrafSample(quoting), Budget.Opened(CRAF_LIMITS));
  }

  // ----- and its replay -----

  /** Once eclipsed, the arm is left with the quoting memory alone, or with nothing. */
  lemma EclipsedHits(p: Platform, quoting: bool)
    ensures var hits := CrafEndToEnd.ArmHits(p, CrafSample(quoting), Craf.VULNERABLE, true, CRAF_QUERY);
            if quoting then exists i :: 0 <= i < |hits| && hits[i].memoryId == "q" else hits == []
  {
    hide CrafRun.CrafStart, PlainRanking, Top, CrafWorld;
    CrafDecisionRanking(p, quoting);
    CrafIdsAre(quoting);
    var ranking := PlainRanking(p, CrafRun.CrafStart(CrafSample(quoting)), CRAF_QUERY);
    var kept := Without(ranking, {"m"});
    var hits := CrafEndToEnd.ArmHits(p, CrafSample(quoting), Craf.VULNERABLE, true, CRAF_QUERY);
    assert hits == Top(kept, 3);
    WithoutHolds(ranking, {"m"});
    TopHolds(kept, 3);
    if quoting {
      assert "q" in Ids(kept);
      var i :| 0 <= i < |Ids(kept)| && Ids(kept)[i] == "q";
      assert hits[i].memoryId == "q";
    } else {
      WithoutAll(ranking, "m");
      assert |kept| == 0 && hits == [];
    }
  }

  lemma QuotingQuotes(hit: RetrievalHit)
    requires hit.memoryId == "q"
    ensures "q" in ById(CrafMemories(true)) && Craf.Quotes(ById(CrafMemories(true)), hit, "m")
  {
    hide Contains, ById, NonBlank;
    CrafIdsAre(true);
    ByIdAt(CrafMemories(true), 2);
    assert CrafMemories(true)[2] == QUOTING;
    var line := ContextLine(ById(CrafMemories(true)), hit);
    assert line == "[q] d " + "[m]" + "";
    Craf.ContainsAt("[q] d ", "[m]", "");
    assert "[" + "m" + "]" == "[m]";
  }

  lemma VulnerableUnambiguous(p: Platform, quoting: bool)
    ensures CrafReplayability.QuotedAmong(CrafSample(quoting),
                                          CrafEndToEnd.ArmHits(p, CrafSample(quoting), Craf.VULNERABLE, true, CRAF_QUERY))
            <==> quoting
  {
    hide CrafEndToEnd.ArmHits, Craf.Quotes, ById;
    var hits := CrafEndToEnd.ArmHits(p, CrafSample(quoting), Craf.VULNERABLE, true, CRAF_QUERY);
    EclipsedHits(p, quoting);
    if quoting {
      var i :| 0 <= i < |hits| && hits[i].memoryId == "q";
      QuotingQuotes(hits[i]);
    }
  }

  lemma ControlUnambiguous(p: Platform, quoting: bool)
    ensures CrafReplayability.Unambiguous(p, CrafSample(quoting), Craf.CONTROL)
  {
    hide CrafReplayability.QuotedAmong, CrafEndToEnd.CrafPlainIds, CrafEndToEnd.ArmHits, CrafEndToEnd.RecalledIn;
    CrafRecalls(p, quoting);
    CrafEndToEnd.VulnerableForgets(p, CrafSample(quoting));
  }

  /**
   The bundle of the plain scenario replays to its recovered result. With a memory whose content quotes the
   critical identifier the execution is recovered all the same, and its own bundle is refused.
   */
  lemma QuotedSampleIsRefused(p: Platform, quoting: bool)
    ensures var outcome := CrafRun.CrafExecuted(p, CrafSample(quoting), Budget.Opened(CRAF_LIMITS));
            && outcome.Ok? && outcome.value.comparison.result == Craf.CONTROLLED_MECHANISM_RECOVERED && |outcome.value.arms| == 3
            && (quoting ==>
                  CrafBundleReplay.ReplayCrafBundle(p, CrafBundleReplay.CrafBundleOf(CrafSample(quoting), outcome.value)) ==
                  Err(Retained.Mislocalized))
            && (!quoting ==>
                  CrafBundleReplay.ReplayCrafBundle(p, CrafBundleReplay.CrafBundleOf(CrafSample(quoting), outcome.value)) ==
                  Ok(("controlled_mechanism_recovered", CrafBundleReplay.CrafReplaysOf(outcome.value.arms))))
  {
    hide CrafEndToEnd.Triggers, CrafEndToEnd.Scorable, CrafEndToEnd.OnlyBlockingIsSafe, CrafEndToEnd.Applies, CrafRun.CrafExecuted,
         CrafWorld, CrafReplayability.Unambiguous, CrafReplayability.QuotedAmong, CrafEndToEnd.ArmHits,
         CrafBundleReplay.ReplayCrafBundle, CrafBundleReplay.CrafBundleOf, CrafBundleReplay.CrafReplaysOf;
    CrafSampleRecovered(p, quoting);
    CrafPremisesMet(p, quoting);
    Budget.WithinLimitsUnfolds(Budget.Plus(Budget.Opened(CRAF_LIMITS), 3, 6, 12));
    assert '\n' !in "m";
    CrafReplayability.PlannedCrafReplaysIff(p, CrafSample(quoting), Budget.Opened(CRAF_LIMITS));
    VulnerableUnambiguous(p, quoting);
    ControlUnambiguous(p, quoting);
  }
}
