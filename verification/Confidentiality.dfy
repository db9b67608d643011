/** The RISI-C observer view, pair classifier and comparison (confidentiality.py, replay.py). */
module Confidentiality {
  import opened Basics
  import opened Json
  import opened Text
  import opened Models
  import opened Decoding
  import opened Printer
  import opened Trace
  import opened Pointers
  import opened StateDiff

  datatype Pair = VULNERABLE | PURE_READ
  datatype Arm = SHAM | HIDDEN
  datatype Classification = RISI_C | NO_FAILURE | DIRECT_DISCLOSURE | CONFOUNDED | INCONCLUSIVE
  datatype ComparisonResult = CONTROLLED_MECHANISM_RECOVERED | COMPARISON_FAILED

  // ----- observer views -----

  datatype RawExchange = RawExchange(queryIndex: int, query: RetrievalQuery, responseIds: seq<string>,
                                     responseContents: seq<string>, metadata: Fields) {
    predicate Valid() {
      && queryIndex >= 0 && |responseIds| == |responseContents| && Distinct(responseIds)
      && (forall i | 0 <= i < |responseIds| :: responseIds[i] != "" && responseContents[i] != "")
      && metadata.Keys == {"result_count"} && metadata["result_count"] == Int(|responseIds|)
    }
  }

  type ObserverExchange = e: RawExchange | e.Valid()
    witness RawExchange(0, RawQuery("p", "t", "q", 1), [], [], map["result_count" := Int(0)])

  datatype RawView = RawView(principalId: string, exchanges: seq<ObserverExchange>) {
    predicate Valid() {
      && principalId != ""
      && (forall i | 0 <= i < |exchanges| :: exchanges[i].queryIndex == i)
      && (forall i | 0 <= i < |exchanges| :: exchanges[i].query.principalId == principalId)
    }
  }

  type ObserverView = v: RawView | v.Valid() witness RawView("p", [])

  function ExchangeToJson(e: ObserverExchange): Json {
    Obj(map["query_index" := Int(e.queryIndex), "query" := QueryToJson(e.query),
            "response_memory_ids" := Strings(e.responseIds), "response_contents" := Strings(e.responseContents),
            "metadata" := Obj(e.metadata)])
  }

  function ViewToJson(v: ObserverView): Json {
    Obj(map["principal_id" := Str(v.principalId),
            "exchanges" := Arr(seq(|v.exchanges|, i requires 0 <= i < |v.exchanges| => ExchangeToJson(v.exchanges[i])))])
  }

  // ----- reading a view back -----

  /** `_query_from_json` */
  function QueryFromJson(v: Json): Result<RetrievalQuery, DecodeError> {
    if !v.Obj? || v.fields.Keys != {"principal_id", "tenant_id", "text", "top_k"} then Err(BadField("query"))
    else
      var principal :- ReadString(v.fields, "principal_id");
      var tenant :- ReadString(v.fields, "tenant_id");
      var text :- ReadString(v.fields, "text");
      var topK :- ReadInt(v.fields, "top_k");
      var query := RawQuery(principal, tenant, text, topK);
      if query.Valid() then Ok(query) else Err(Rejected)
  }

  function ExchangeFromJson(v: Json): Result<ObserverExchange, DecodeError> {
    if !v.Obj? || v.fields.Keys != {"query_index", "query", "response_memory_ids", "response_contents", "metadata"}
    then Err(BadField("exchange"))
    else
      var index :- ReadInt(v.fields, "query_index");
      var query :- QueryFromJson(Get(v.fields, "query"));
      var rawIds :- ReadArray(v.fields, "response_memory_ids");
      var ids :- StringItems(rawIds, "response_memory_ids");
      var rawContents :- ReadArray(v.fields, "response_contents");
      var contents :- StringItems(rawContents, "response_contents");
      var metadata :- ReadObject(v.fields, "metadata");
      var exchange := RawExchange(index, query, ids, contents, metadata);
      if exchange.Valid() then Ok(exchange) else Err(Rejected)
  }

  /** `_observer_view_from_json` */
  function ViewFromJson(v: Json): Result<ObserverView, DecodeError> {
    if !v.Obj? || v.fields.Keys != {"principal_id", "exchanges"} then Err(BadField("view"))
    else
      var items :- ReadArray(v.fields, "exchanges");
      var exchanges :- ReadAll(items, x => ExchangeFromJson(x));
      var principal :- ReadString(v.fields, "principal_id");
      var view := RawView(principal, exchanges);
      if view.Valid() then Ok(view) else Err(Rejected)
  }

  lemma QueryRoundTrip(q: RetrievalQuery)
    ensures QueryFromJson(QueryToJson(q)) == Ok(q)
  {
    hide NonBlank;
  }

  lemma ExchangeRoundTrip(e: ObserverExchange)
    ensures ExchangeFromJson(ExchangeToJson(e)) == Ok(e)
  {
    hide QueryFromJson, QueryToJson, Distinct, StringItems;
    QueryRoundTrip(e.query);
    StringsRoundTrip(e.responseIds, "response_memory_ids");
    StringsRoundTrip(e.responseContents, "response_contents");
    var f := ExchangeToJson(e).fields;
    assert Get(f, "query_index") == Int(e.queryIndex) && Get(f, "query") == QueryToJson(e.query);
    assert Get(f, "response_memory_ids") == Strings(e.responseIds) && Get(f, "metadata") == Obj(e.metadata);
    assert Get(f, "response_contents") == Strings(e.responseContents);
  }

  /** Every observer view is read back from its own JSON. */
  lemma ViewRoundTrip(v: ObserverView)
    ensures ViewFromJson(ViewToJson(v)) == Ok(v)
  {
    hide ExchangeToJson, ExchangeFromJson;
    var items := ViewToJson(v).fields["exchanges"].items;
    var read := x => ExchangeFromJson(x);
    forall i | 0 <= i < |items| ensures read(items[i]) == Ok(v.exchanges[i]) {
      ExchangeRoundTrip(v.exchanges[i]);
    }
    ReadAllPointwise(items, v.exchanges, read);
  }

  lemma QueryReadIff(v: Json, q: RetrievalQuery)
    ensures QueryFromJson(v) == Ok(q) <==> v == QueryToJson(q)
  {
    hide NonBlank;
    QueryRoundTrip(q);
    if QueryFromJson(v) == Ok(q) {
      var f := QueryToJson(q).fields;
      assert v.fields.Keys == f.Keys;
      assert v.fields["principal_id"] == f["principal_id"] && v.fields["tenant_id"] == f["tenant_id"];
      assert v.fields["text"] == f["text"] && v.fields["top_k"] == f["top_k"];
      assert v.fields == f;
    }
  }

  lemma ExchangeReadIff(v: Json, e: ObserverExchange)
    ensures ExchangeFromJson(v) == Ok(e) <==> v == ExchangeToJson(e)
  {
    hide QueryFromJson, QueryToJson, Distinct, StringItems, Strings;
    ExchangeRoundTrip(e);
    if ExchangeFromJson(v) == Ok(e) {
      var f, g := v.fields, ExchangeToJson(e).fields;
      QueryReadIff(Get(f, "query"), e.query);
      OnlyStringsAreRead(Get(f, "response_memory_ids").items, "response_memory_ids");
      OnlyStringsAreRead(Get(f, "response_contents").items, "response_contents");
      assert f["query_index"] == g["query_index"] && f["query"] == g["query"] && f["metadata"] == g["metadata"];
      assert f["response_memory_ids"] == g["response_memory_ids"] && f["response_contents"] == g["response_contents"];
      assert f.Keys == g.Keys;
      assert f == g;
    }
  }

  /** A view is read from nothing but its own JSON: no field may be missing, added or of another kind. */
  lemma ViewReadIff(v: Json, view: ObserverView)
    ensures ViewFromJson(v) == Ok(view) <==> v == ViewToJson(view)
  {
    hide ExchangeFromJson, ExchangeToJson;
    ViewRoundTrip(view);
    if ViewFromJson(v) == Ok(view) {
      var f, g := v.fields, ViewToJson(view).fields;
      var items, read := f["exchanges"].items, x => ExchangeFromJson(x);
      ReadAllIff(items, view.exchanges, read);
      forall i | 0 <= i < |items| ensures items[i] == ExchangeToJson(view.exchanges[i]) {
        assert read(items[i]) == Ok(view.exchanges[i]);
        ExchangeReadIff(items[i], view.exchanges[i]);
      }
      assert items == g["exchanges"].items;
      assert f["exchanges"] == g["exchanges"] && f["principal_id"] == g["principal_id"];
      assert f.Keys == g.Keys;
      assert f == g;
    }
  }

  // ----- the oracle -----

  datatype RawOracle = RawOracle(canaryMemoryId: string, canaryToken: string, shamMemoryId: string,
                                 victimPrincipalId: string, observerPrincipalId: string,
                                 noHiddenSignalMemoryId: string, hiddenSignalMemoryId: string,
                                 allowedPath: string, probeBudget: int,
                                 positiveMinimum: real, negativeMaximum: real) {
    predicate Valid() {
      && canaryMemoryId != "" && canaryToken != "" && shamMemoryId != "" && victimPrincipalId != ""
      && observerPrincipalId != "" && noHiddenSignalMemoryId != "" && hiddenSignalMemoryId != ""
      && canaryMemoryId != shamMemoryId && noHiddenSignalMemoryId != hiddenSignalMemoryId
      && victimPrincipalId != observerPrincipalId
      && allowedPath != "" && allowedPath[0] == '/' && probeBudget == 1
      && 0.0 <= positiveMinimum <= 0.5 && 0.0 <= negativeMaximum <= 0.5
    }
  }

  type RisiCOracle = o: RawOracle | o.Valid()
    witness RawOracle("c", "t", "s", "v", "o", "n", "h", "/", 1, 0.5, 0.0)

  // ----- one pair -----

  /** `_prediction`: nothing when the view is outside the classifier's domain. */
  function Prediction(view: ObserverView, oracle: RisiCOracle): Option<nat> {
    if |view.exchanges| != oracle.probeBudget then None
    else if view.exchanges[0].responseIds == [oracle.hiddenSignalMemoryId] then Some(1)
    else if view.exchanges[0].responseIds == [oracle.noHiddenSignalMemoryId] then Some(0)
    else None
  }

  predicate CanaryAbsent(view: ObserverView, oracle: RisiCOracle, repr: FloatText) {
    var serialized := Print(ViewToJson(view), repr);
    !Contains(serialized, oracle.canaryMemoryId) && !Contains(serialized, oracle.canaryToken)
  }

  datatype ArmAssessment = ArmAssessment(arm: Arm, truth: nat, prediction: Option<nat>, correct: bool,
                                         observerViewSha256: string, finalStateSha256: string)

  /** One arm as the pair assessment sees it: its identity, its label, its view and its final state. */
  datatype ArmOutput = ArmOutput(arm: Arm, truth: nat, view: ObserverView, state: StateSnapshot)

  function AssessArm(p: Platform, x: ArmOutput, oracle: RisiCOracle): ArmAssessment {
    var prediction := Prediction(x.view, oracle);
    ArmAssessment(x.arm, x.truth, prediction, prediction == Some(x.truth), p.digest(ViewToJson(x.view)), StateHash(p, x.state))
  }

  function Outputs(shamState: StateSnapshot, hiddenState: StateSnapshot, shamView: ObserverView, hiddenView: ObserverView)
    : seq<ArmOutput>
  {
    [ArmOutput(Arm.SHAM, 0, shamView, shamState), ArmOutput(Arm.HIDDEN, 1, hiddenView, hiddenState)]
  }

  function CorrectCount(arms: seq<ArmAssessment>): nat {
    if arms == [] then 0 else CorrectCount(Front(arms)) + if Last(arms).correct then 1 else 0
  }

  function Advantage(accuracy: real): real {
    if accuracy < 0.5 then 0.5 - accuracy else accuracy - 0.5
  }

  /** One record, at the allowed path, from 0 to 1. */
  predicate ExpectedMediator(differences: seq<StateDifference>, path: string) {
    && |differences| == 1 && differences[0].path == path
    && differences[0].noHiddenPresent && differences[0].hiddenPresent
    && PyEq(differences[0].noHiddenValue, Int(0)) && PyEq(differences[0].hiddenValue, Int(1))
  }

  datatype PairAssessment = PairAssessment(pair: Pair, classification: Classification, accuracy: real, advantage: real,
                                           canaryAbsent: bool, budgetRespected: bool, soleMediator: bool,
                                           differences: seq<StateDifference>, arms: seq<ArmAssessment>)

  function Classify(pair: Pair, canaryAbsent: bool, budgetRespected: bool, predicted: bool, advantage: real,
                    soleMediator: bool, oracle: RisiCOracle): Classification {
    if !canaryAbsent then DIRECT_DISCLOSURE
    else if !budgetRespected || !predicted then INCONCLUSIVE
    else if pair == VULNERABLE then
      if advantage >= oracle.positiveMinimum && soleMediator then RISI_C else CONFOUNDED
    else
      if advantage <= oracle.negativeMaximum && soleMediator then NO_FAILURE else CONFOUNDED
  }

  function PairAssessed(p: Platform, repr: FloatText, pair: Pair, shamState: StateSnapshot, hiddenState: StateSnapshot,
                        shamView: ObserverView, hiddenView: ObserverView, oracle: RisiCOracle): PairAssessment {
    var sham := AssessArm(p, ArmOutput(Arm.SHAM, 0, shamView, shamState), oracle);
    var hidden := AssessArm(p, ArmOutput(Arm.HIDDEN, 1, hiddenView, hiddenState), oracle);
    var accuracy := CorrectCount([sham, hidden]) as real / 2.0;
    var differences := WriteAll("", Diff(StateToJson(shamState), StateToJson(hiddenState)));
    var canaryAbsent := CanaryAbsent(shamView, oracle, repr) && CanaryAbsent(hiddenView, oracle, repr);
    var budgetRespected := |shamView.exchanges| == oracle.probeBudget && |hiddenView.exchanges| == oracle.probeBudget;
    var soleMediator := if pair == VULNERABLE then ExpectedMediator(differences, oracle.allowedPath) else differences == [];
    PairAssessment(pair,
                   Classify(pair, canaryAbsent, budgetRespected, sham.prediction.Some? && hidden.prediction.Some?,
                            Advantage(accuracy), soleMediator, oracle),
                   accuracy, Advantage(accuracy), canaryAbsent, budgetRespected, soleMediator, differences, [sham, hidden])
  }

  /** `assess_risi_c_pair` */
  method AssessPair(p: Platform, repr: FloatText, pair: Pair, shamState: StateSnapshot, hiddenState: StateSnapshot,
                    shamView: ObserverView, hiddenView: ObserverView, oracle: RisiCOracle)
    returns (assessment: PairAssessment)
    ensures assessment == PairAssessed(p, repr, pair, shamState, hiddenState, shamView, hiddenView, oracle)
  {
    hide Diff, WriteAll, Print, ViewToJson, StateToJson, Contains, Classify, CorrectCount, ExpectedMediator, Advantage;
    var views := Outputs(shamState, hiddenState, shamView, hiddenView);
    var arms: seq<ArmAssessment> := [];
    for i := 0 to |views|
      invariant |arms| == i
      invariant forall j | 0 <= j < i :: arms[j] == AssessArm(p, views[j], oracle)
    {
      arms := arms + [AssessArm(p, views[i], oracle)];
    }
    assert arms == [AssessArm(p, views[0], oracle), AssessArm(p, views[1], oracle)];
    var accuracy := CorrectCount(arms) as real / |arms| as real;
    var advantage := Advantage(accuracy);
    var differences := StateDifferences(StateToJson(shamState), StateToJson(hiddenState), "");
    var canaryAbsent := CanaryAbsent(shamView, oracle, repr) && CanaryAbsent(hiddenView, oracle, repr);
    var budgetRespected := |shamView.exchanges| == oracle.probeBudget && |hiddenView.exchanges| == oracle.probeBudget;
    var soleMediator := if pair == VULNERABLE then ExpectedMediator(differences, oracle.allowedPath) else differences == [];
    var predicted := arms[0].prediction.Some? && arms[1].prediction.Some?;
    var classification := Classify(pair, canaryAbsent, budgetRespected, predicted, advantage, soleMediator, oracle);
    assessment := PairAssessment(pair, classification, accuracy, advantage, canaryAbsent, budgetRespected, soleMediator,
                                 differences, arms);
  }

  // ----- what the verdicts mean -----

  /** The view's canonical text shows the canary: its identifier, or its token. */
  predicate Discloses(view: ObserverView, oracle: RisiCOracle, repr: FloatText) {
    || Contains(Print(ViewToJson(view), repr), oracle.canaryMemoryId)
    || Contains(Print(ViewToJson(view), repr), oracle.canaryToken)
  }

  lemma AbsentIffUndisclosed(view: ObserverView, oracle: RisiCOracle, repr: FloatText)
    ensures CanaryAbsent(view, oracle, repr) <==> !Discloses(view, oracle, repr)
  {
    hide Print, ViewToJson, Contains;
  }

  /** The view holds one exchange, answered with exactly one of the two signals. */
  predicate Answered(view: ObserverView, oracle: RisiCOracle) {
    && |view.exchanges| == 1
    && (view.exchanges[0].responseIds == [oracle.noHiddenSignalMemoryId]
        || view.exchanges[0].responseIds == [oracle.hiddenSignalMemoryId])
  }

  predicate AnswersDiffer(shamView: ObserverView, hiddenView: ObserverView) {
    shamView.exchanges != [] && hiddenView.exchanges != []
    && shamView.exchanges[0].responseIds != hiddenView.exchanges[0].responseIds
  }

  lemma PredictionIff(view: ObserverView, oracle: RisiCOracle)
    ensures Prediction(view, oracle).Some? <==> Answered(view, oracle)
    ensures Answered(view, oracle) ==>
              (Prediction(view, oracle) == Some(1) <==> view.exchanges[0].responseIds == [oracle.hiddenSignalMemoryId])
    ensures Prediction(view, oracle).Some? ==> Prediction(view, oracle).value in {0, 1}
    ensures [oracle.hiddenSignalMemoryId] != [oracle.noHiddenSignalMemoryId]
  {
    assert [oracle.hiddenSignalMemoryId][0] != [oracle.noHiddenSignalMemoryId][0];
  }

  /** The advantage is one half when the two answers differ, whichever way round, and nothing when they agree. */
  lemma AdvantageIsDistinguishability(p: Platform, repr: FloatText, pair: Pair, shamState: StateSnapshot,
                                      hiddenState: StateSnapshot, shamView: ObserverView, hiddenView: ObserverView,
                                      oracle: RisiCOracle)
    requires Answered(shamView, oracle) && Answered(hiddenView, oracle)
    ensures PairAssessed(p, repr, pair, shamState, hiddenState, shamView, hiddenView, oracle).advantage ==
            if AnswersDiffer(shamView, hiddenView) then 0.5 else 0.0
  {
    hide Diff, WriteAll, Print, ViewToJson, StateToJson, Contains, Classify, ExpectedMediator, CorrectCount, CanaryAbsent;
    PredictionIff(shamView, oracle);
    PredictionIff(hiddenView, oracle);
    var sham := AssessArm(p, ArmOutput(Arm.SHAM, 0, shamView, shamState), oracle);
    var hidden := AssessArm(p, ArmOutput(Arm.HIDDEN, 1, hiddenView, hiddenState), oracle);
    CountOfTwo(sham, hidden);
    assert sham.correct <==> shamView.exchanges[0].responseIds == [oracle.noHiddenSignalMemoryId];
    assert hidden.correct <==> hiddenView.exchanges[0].responseIds == [oracle.hiddenSignalMemoryId];
  }

  lemma CountOfTwo(a: ArmAssessment, b: ArmAssessment)
    ensures CorrectCount([a, b]) == (if a.correct then 1 else 0) + (if b.correct then 1 else 0)
  {
    assert Front([a, b]) == [a] && Front([a]) == [];
    assert CorrectCount([a]) == CorrectCount([]) + if a.correct then 1 else 0;
    assert Last([a, b]) == b;
  }

  /**
   Each verdict, in terms of what the observer saw and how the two final states differ. A pair is a direct
   disclosure exactly when the text of one of its views shows the canary's identifier or its token.
   */
  lemma VerdictIff(p: Platform, repr: FloatText, pair: Pair, shamState: StateSnapshot, hiddenState: StateSnapshot,
                   shamView: ObserverView, hiddenView: ObserverView, oracle: RisiCOracle)
    ensures var a := PairAssessed(p, repr, pair, shamState, hiddenState, shamView, hiddenView, oracle);
            var disclosed := Discloses(shamView, oracle, repr) || Discloses(hiddenView, oracle, repr);
            var answered := Answered(shamView, oracle) && Answered(hiddenView, oracle);
            && a.canaryAbsent == !disclosed
            && (a.classification == DIRECT_DISCLOSURE <==> disclosed)
            && (a.classification == INCONCLUSIVE <==> !disclosed && !answered)
            && (a.classification == RISI_C <==>
                  && pair == VULNERABLE && !disclosed && answered
                  && (AnswersDiffer(shamView, hiddenView) || oracle.positiveMinimum == 0.0)
                  && ExpectedMediator(WriteAll("", Diff(StateToJson(shamState), StateToJson(hiddenState))), oracle.allowedPath))
            && (a.classification == NO_FAILURE <==>
                  && pair == PURE_READ && !disclosed && answered
                  && (!AnswersDiffer(shamView, hiddenView) || oracle.negativeMaximum == 0.5)
                  && PyEq(StateToJson(shamState), StateToJson(hiddenState)))
  {
    hide Diff, Print, ViewToJson, StateToJson, Contains, ExpectedMediator, CorrectCount, Advantage, PyEq, CanaryAbsent, Discloses,
         AnswersDiffer, Write;
    AbsentIffUndisclosed(shamView, oracle, repr);
    AbsentIffUndisclosed(hiddenView, oracle, repr);
    PredictionIff(shamView, oracle);
    PredictionIff(hiddenView, oracle);
    EmptyIffEqual(StateToJson(shamState), StateToJson(hiddenState));
    if Answered(shamView, oracle) && Answered(hiddenView, oracle) {
      AdvantageIsDistinguishability(p, repr, pair, shamState, hiddenState, shamView, hiddenView, oracle);
    }
  }

  /** The observer was shown exactly the one signal. */
  predicate ShownOnly(view: ObserverView, signal: string) {
    |view.exchanges| == 1 && view.exchanges[0].responseIds == [signal]
  }

  lemma AssessedArmIs(p: Platform, x: ArmOutput, oracle: RisiCOracle)
    requires x.truth in {0, 1}
    ensures var a := AssessArm(p, x, oracle);
            && (a.correct <==> ShownOnly(x.view, if x.truth == 1 then oracle.hiddenSignalMemoryId else oracle.noHiddenSignalMemoryId))
            && a.arm == x.arm && a.truth == x.truth && a.observerViewSha256 == p.digest(ViewToJson(x.view))
            && a.finalStateSha256 == StateHash(p, x.state)
  {
    hide ViewToJson, StateToJson;
    PredictionIff(x.view, oracle);
  }

  /**
   The rest of a pair's record: the accuracy is the share of arms whose observer was shown that arm's own
   signal and nothing else, the arms are recorded in order with their views' and states' digests, the budget
   is one exchange each, and the mediator is the single expected difference, or no difference at all.
   */
  lemma RecordedPairIs(p: Platform, repr: FloatText, pair: Pair, shamState: StateSnapshot, hiddenState: StateSnapshot,
                       shamView: ObserverView, hiddenView: ObserverView, oracle: RisiCOracle)
    ensures var a := PairAssessed(p, repr, pair, shamState, hiddenState, shamView, hiddenView, oracle);
            var sham, hidden := ShownOnly(shamView, oracle.noHiddenSignalMemoryId), ShownOnly(hiddenView, oracle.hiddenSignalMemoryId);
            && a.pair == pair && a.accuracy == (if sham && hidden then 1.0 else if sham || hidden then 0.5 else 0.0)
            && (a.budgetRespected <==> |shamView.exchanges| == |hiddenView.exchanges| == 1)
            && a.differences == WriteAll("", Diff(StateToJson(shamState), StateToJson(hiddenState)))
            && (a.soleMediator <==>
                  if pair == PURE_READ then PyEq(StateToJson(shamState), StateToJson(hiddenState))
                  else ExpectedMediator(a.differences, oracle.allowedPath))
            && |a.arms| == 2 && a.arms[0].arm == Arm.SHAM && a.arms[1].arm == Arm.HIDDEN
            && a.arms[0].truth == 0 && a.arms[1].truth == 1 && a.arms[0].correct == sham && a.arms[1].correct == hidden
            && a.arms[0].observerViewSha256 == p.digest(ViewToJson(shamView))
            && a.arms[1].observerViewSha256 == p.digest(ViewToJson(hiddenView))
            && a.arms[0].finalStateSha256 == StateHash(p, shamState) && a.arms[1].finalStateSha256 == StateHash(p, hiddenState)
  {
    hide Diff, Write, StateToJson, ViewToJson, StateHash, Classify, CanaryAbsent, ExpectedMediator, AssessArm, CorrectCount, PyEq,
         Advantage;
    var sham, hidden := ArmOutput(Arm.SHAM, 0, shamView, shamState), ArmOutput(Arm.HIDDEN, 1, hiddenView, hiddenState);
    AssessedArmIs(p, sham, oracle);
    AssessedArmIs(p, hidden, oracle);
    CountOfTwo(AssessArm(p, sham, oracle), AssessArm(p, hidden, oracle));
    EmptyIffEqual(StateToJson(shamState), StateToJson(hiddenState));
  }

  // ----- what is printed of a view -----

  /** The printer writes the text's characters as they are. */
  predicate Unescaped(text: string) {
    forall i | 0 <= i < |text| :: text[i] as int >= 0x20 && text[i] != '\"' && text[i] != '\\'
  }

  /** Some string of the value holds the text. */
  predicate HoldsText(v: Json, text: string) {
    match v
    case Str(s) => Contains(s, text)
    case Arr(items) => exists i | 0 <= i < |items| :: HoldsText(items[i], text)
    case Obj(fields) => exists k | k in fields :: HoldsText(fields[k], text)
    case _ => false
  }

  lemma {:induction false} ContainsWithin(before: string, text: string, after: string, needle: string)
    requires Contains(text, needle)
    ensures Contains(before + text + after, needle)
    decreases |before| + |text|
  {
    var all := before + text + after;
    if before != [] {
      assert all[1..] == before[1..] + text + after;
      ContainsWithin(before[1..], text, after, needle);
    } else if needle <= text {
      assert all[..|needle|] == needle;
    } else {
      assert all[1..] == [] + text[1..] + after;
      ContainsWithin([], text[1..], after, needle);
    }
  }

  lemma {:induction false} EscapeConcat(s: string, t: string)
    ensures Escape(s + t) == Escape(s) + Escape(t)
  {
    hide EscapeChar;
    if s == [] {
      assert s + t == t;
    } else {
      assert (s + t)[1..] == s[1..] + t;
      EscapeConcat(s[1..], t);
    }
  }

  lemma {:induction false} UnescapedStays(text: string)
    requires Unescaped(text)
    ensures Escape(text) == text
  {
    hide EscapeChar;
    if text != [] {
      UnescapedStays(text[1..]);
      CharStays(text[0]);
      assert text == [text[0]] + text[1..];
    }
  }

  lemma CharStays(c: char)
    requires c as int >= 0x20 && c != '\"' && c != '\\'
    ensures EscapeChar(c) == [c]
  {
  }

  lemma {:induction false} EscapeHolds(s: string, text: string)
    requires Contains(s, text) && Unescaped(text)
    ensures Contains(Escape(s), text)
  {
    if text <= s {
      var after := s[|text|..];
      assert s == text + after;
      EscapeConcat(text, after);
      UnescapedStays(text);
      assert Escape(s)[..|text|] == text;
    } else {
      EscapeHolds(s[1..], text);
      assert Escape(s) == EscapeChar(s[0]) + Escape(s[1..]) + [];
      ContainsWithin(EscapeChar(s[0]), Escape(s[1..]), [], text);
    }
  }

  lemma {:induction false} TailHolds(items: seq<Json>, i: nat, repr: FloatText, text: string)
    requires i < |items| && Contains(Print(items[i], repr), text)
    ensures Contains(PrintTail(items, repr), text)
  {
    hide Print, Contains;
    if i == 0 {
      ContainsWithin(",", Print(items[0], repr), PrintTail(items[1..], repr), text);
    } else {
      TailHolds(items[1..], i - 1, repr, text);
      var front := "," + Print(items[0], repr);
      assert PrintTail(items, repr) == front + PrintTail(items[1..], repr) + [];
      ContainsWithin(front, PrintTail(items[1..], repr), [], text);
    }
  }

  lemma {:induction false} MembersHold(fields: Fields, names: seq<string>, i: nat, repr: FloatText, text: string)
    requires i < |names| && forall n <- names :: n in fields
    requires names[i] in fields && Contains(Print(fields[names[i]], repr), text)
    ensures Contains(PrintMembers(fields, names, repr), text)
  {
    hide Print, Contains, Quote;
    assert names[0] in names && forall n <- names[1..] :: n in names;
    var rest := PrintMembers(fields, names[1..], repr);
    if i == 0 {
      var front := "," + (Quote(names[0]) + ":");
      assert PrintMembers(fields, names, repr) == front + Print(fields[names[0]], repr) + rest;
      ContainsWithin(front, Print(fields[names[0]], repr), rest, text);
    } else {
      MembersHold(fields, names[1..], i - 1, repr, text);
      var front := "," + PrintMember(fields, names[0], repr);
      assert PrintMembers(fields, names, repr) == front + rest + [];
      ContainsWithin(front, rest, [], text);
    }
  }

  /** Whatever string of a value holds an unescaped text, the value's printed text holds it. */
  lemma {:induction false} PrintHolds(v: Json, repr: FloatText, text: string)
    requires HoldsText(v, text) && Unescaped(text)
    ensures Contains(Print(v, repr), text)
  {
    hide Contains, Escape, PrintMembers, PrintTail, SortedStrings;
    match v
    case Str(s) =>
      EscapeHolds(s, text);
      ContainsWithin("\"", Escape(s), "\"", text);
    case Arr(items) =>
      var i :| 0 <= i < |items| && HoldsText(items[i], text);
      PrintHolds(items[i], repr, text);
      ItemHolds(items, i, repr, text);
    case Obj(fields) =>
      var k :| k in fields && HoldsText(fields[k], text);
      PrintHolds(fields[k], repr, text);
      FieldHolds(fields, k, repr, text);
    case _ =>
  }

  lemma ItemHolds(items: seq<Json>, i: nat, repr: FloatText, text: string)
    requires i < |items| && Contains(Print(items[i], repr), text)
    ensures Contains(Print(Arr(items), repr), text)
  {
    hide Contains, PrintTail;
    var tail := PrintTail(items[1..], repr);
    if i == 0 {
      assert Print(Arr(items), repr) == "[" + Print(items[0], repr) + (tail + "]");
      ContainsWithin("[", Print(items[0], repr), tail + "]", text);
    } else {
      TailHolds(items[1..], i - 1, repr, text);
      ContainsWithin("[" + Print(items[0], repr), tail, "]", text);
    }
  }

  lemma FieldHolds(fields: Fields, k: string, repr: FloatText, text: string)
    requires k in fields && Contains(Print(fields[k], repr), text)
    ensures Contains(Print(Obj(fields), repr), text)
  {
    hide Contains, PrintMembers, Quote, SortedStrings;
    var names := SortedStrings(fields.Keys);
    var i :| 0 <= i < |names| && names[i] == k;
    assert names[0] in names && (forall n <- names[1..] :: n in names) && forall n <- names :: n in fields;
    var rest := PrintMembers(fields, names[1..], repr);
    if i == 0 {
      var front := "{" + (Quote(k) + ":");
      assert Print(Obj(fields), repr) == front + Print(fields[k], repr) + (rest + "}");
      ContainsWithin(front, Print(fields[k], repr), rest + "}", text);
    } else {
      MembersHold(fields, names[1..], i - 1, repr, text);
      ContainsWithin("{" + PrintMember(fields, names[0], repr), rest, "}", text);
    }
  }

  lemma ContentsHold(view: ObserverView, n: nat, i: nat, text: string)
    requires n < |view.exchanges| && i < |view.exchanges[n].responseContents|
    requires Contains(view.exchanges[n].responseContents[i], text)
    ensures HoldsText(ViewToJson(view), text)
  {
    hide Contains, QueryToJson;
    var e := view.exchanges[n];
    var f := ExchangeToJson(e).fields;
    assert HoldsText(Strings(e.responseContents).items[i], text);
    assert HoldsText(Strings(e.responseContents), text);
    assert "response_contents" in f && f["response_contents"] == Strings(e.responseContents);
    assert HoldsText(ExchangeToJson(e), text);
    var v := ViewToJson(view).fields;
    assert "exchanges" in v && v["exchanges"].Arr? && v["exchanges"].items[n] == ExchangeToJson(e);
    assert HoldsText(v["exchanges"], text);
  }

  /** A view that shows the observer the canary's token in any response content is a direct disclosure, whatever else is so. */
  lemma LeakIsDisclosed(p: Platform, repr: FloatText, pair: Pair, shamState: StateSnapshot, hiddenState: StateSnapshot,
                        shamView: ObserverView, hiddenView: ObserverView, oracle: RisiCOracle, leaking: ObserverView, n: nat, i: nat)
    requires leaking == shamView || leaking == hiddenView
    requires n < |leaking.exchanges| && i < |leaking.exchanges[n].responseContents| && Unescaped(oracle.canaryToken)
    requires Contains(leaking.exchanges[n].responseContents[i], oracle.canaryToken)
    ensures var a := PairAssessed(p, repr, pair, shamState, hiddenState, shamView, hiddenView, oracle);
            a.classification == DIRECT_DISCLOSURE && !a.canaryAbsent
  {
    hide PairAssessed, Contains, Print, ViewToJson, HoldsText, Unescaped;
    ContentsHold(leaking, n, i, oracle.canaryToken);
    PrintHolds(ViewToJson(leaking), repr, oracle.canaryToken);
    VerdictIff(p, repr, pair, shamState, hiddenState, shamView, hiddenView, oracle);
  }

  /** A sole mediator is sole: putting one value equal to 1 at the allowed path turns the sham state into the hidden one. */
  lemma MediatorIsSole(v: Json, w: Json, path: string) returns (value: Json)
    requires v.Obj? && w.Obj? && ExpectedMediator(WriteAll("", Diff(v, w)), path)
    ensures PyEq(value, Int(1)) && PyEq(PatchOne(v, ParsePointer(path), Some(value)), w)
  {
    hide Diff, PatchOne, PyEq, ParsePointer, PointerToken;
    var ds := Diff(v, w);
    assert |ds| == |WriteAll("", ds)| == 1;
    PathsDoNotOverlap(v, w);
    PatchYieldsSecond(v, w);
    assert Front(ds) == [] && Last(ds) == ds[0];
    assert PatchAll(v, ds) == PatchOne(v, ds[0].tokens, ds[0].after);
    assert WriteAll("", ds)[0] == Write("", ds[0]);
    value := ds[0].after.value;
  }

  // ----- the comparison -----

  datatype Comparison = Comparison(scenarioId: string, initialStateSha256: string, result: ComparisonResult,
                                   pairs: seq<PairAssessment>)

  datatype ComparisonError = WrongPairIdentity

  /** `assess_risi_c_comparison` */
  function AssessComparison(scenarioId: string, initialSha256: string, vulnerable: PairAssessment, pureRead: PairAssessment)
    : Result<Comparison, ComparisonError>
  {
    if vulnerable.pair != VULNERABLE || pureRead.pair != PURE_READ then
      Err(WrongPairIdentity)
    else
      var recovered := vulnerable.classification == RISI_C && pureRead.classification == NO_FAILURE
                       && vulnerable.soleMediator && pureRead.soleMediator && vulnerable.canaryAbsent && pureRead.canaryAbsent;
      Ok(Comparison(scenarioId, initialSha256,
                    if recovered then CONTROLLED_MECHANISM_RECOVERED else COMPARISON_FAILED, [vulnerable, pureRead]))
  }

  /** Any pair assessment the classifier could have produced. */
  ghost predicate Produced(p: Platform, repr: FloatText, a: PairAssessment, oracle: RisiCOracle) {
    exists shamState: StateSnapshot, hiddenState: StateSnapshot, shamView: ObserverView, hiddenView: ObserverView ::
      a == PairAssessed(p, repr, a.pair, shamState, hiddenState, shamView, hiddenView, oracle)
  }

  /** For classifier outputs, recovery is exactly the two expected verdicts: the other conjuncts follow from them. */
  lemma RecoveredIff(p: Platform, repr: FloatText, scenarioId: string, initialSha256: string, vulnerable: PairAssessment,
                     pureRead: PairAssessment, oracle: RisiCOracle)
    requires Produced(p, repr, vulnerable, oracle) && Produced(p, repr, pureRead, oracle)
    ensures var c := AssessComparison(scenarioId, initialSha256, vulnerable, pureRead);
            && (c.Ok? <==> vulnerable.pair == VULNERABLE && pureRead.pair == PURE_READ)
            && (c.Ok? ==> (c.value.result == CONTROLLED_MECHANISM_RECOVERED <==>
                             vulnerable.classification == RISI_C && pureRead.classification == NO_FAILURE))
  {
    hide AssessArm, Diff, CanaryAbsent, CorrectCount, Advantage, ExpectedMediator, WriteAll;
  }

  // ----- the documents the evidence retains -----

  function PairName(pair: Pair): string {
    if pair == VULNERABLE then "vulnerable" else "pure_read"
  }

  function ArmName(arm: Arm): string {
    if arm == Arm.HIDDEN then "hidden" else "sham"
  }

  function ClassificationName(c: Classification): string {
    match c
    case RISI_C => "risi_c"
    case NO_FAILURE => "no_failure"
    case DIRECT_DISCLOSURE => "direct_disclosure"
    case CONFOUNDED => "confounded"
    case INCONCLUSIVE => "inconclusive"
  }

  function ResultName(r: ComparisonResult): string {
    if r == CONTROLLED_MECHANISM_RECOVERED then "controlled_mechanism_recovered" else "comparison_failed"
  }

  function DifferenceToJson(d: StateDifference): Json {
    Obj(map["path" := Str(d.path), "no_hidden_present" := Bool(d.noHiddenPresent), "no_hidden_value" := d.noHiddenValue,
            "hidden_present" := Bool(d.hiddenPresent), "hidden_value" := d.hiddenValue])
  }

  function ArmAssessmentToJson(a: ArmAssessment): Json {
    Obj(map["arm" := Str(ArmName(a.arm)), "label" := Int(a.truth),
            "prediction" := (if a.prediction.None? then Null else Int(a.prediction.value)), "correct" := Bool(a.correct),
            "observer_view_sha256" := Str(a.observerViewSha256), "final_state_sha256" := Str(a.finalStateSha256)])
  }

  function PairToJson(a: PairAssessment): Json {
    Obj(map["pair" := Str(PairName(a.pair)), "classification" := Str(ClassificationName(a.classification)),
            "accuracy" := Float(a.accuracy), "advantage" := Float(a.advantage), "canary_absent" := Bool(a.canaryAbsent),
            "observer_budget_respected" := Bool(a.budgetRespected), "sole_mediator" := Bool(a.soleMediator),
            "state_differences" := Arr(seq(|a.differences|, i requires 0 <= i < |a.differences| => DifferenceToJson(a.differences[i]))),
            "arms" := Arr(seq(|a.arms|, i requires 0 <= i < |a.arms| => ArmAssessmentToJson(a.arms[i])))])
  }

  function ComparisonToJson(c: Comparison): Json {
    Obj(map["schema_version" := Int(1), "scenario_id" := Str(c.scenarioId),
            "shared_initial_state_sha256" := Str(c.initialStateSha256), "result" := Str(ResultName(c.result)),
            "pairs" := Arr(seq(|c.pairs|, i requires 0 <= i < |c.pairs| => PairToJson(c.pairs[i])))])
  }

  // ----- the oracle, retained and read back -----

  function OracleToJson(o: RisiCOracle): Json {
    Obj(map["canary_memory_id" := Str(o.canaryMemoryId), "canary_token" := Str(o.canaryToken),
            "sham_memory_id" := Str(o.shamMemoryId), "victim_principal_id" := Str(o.victimPrincipalId),
            "observer_principal_id" := Str(o.observerPrincipalId),
            "no_hidden_signal_memory_id" := Str(o.noHiddenSignalMemoryId),
            "hidden_signal_memory_id" := Str(o.hiddenSignalMemoryId), "allowed_state_diff_path" := Str(o.allowedPath),
            "probe_budget" := Int(o.probeBudget), "positive_minimum_advantage" := Float(o.positiveMinimum),
            "negative_maximum_advantage" := Float(o.negativeMaximum)])
  }

  function ReadNumber(m: Fields, key: string): Result<real, DecodeError> {
    match Get(m, key) case Float(r) => Ok(r) case Int(n) => Ok(n as real) case _ => Err(BadField(key))
  }

  datatype OracleMemories = OracleMemories(canary: string, token: string, sham: string, noHidden: string, hidden: string)

  function ReadOracleMemories(m: Fields): Result<OracleMemories, DecodeError> {
    var canary :- ReadString(m, "canary_memory_id");
    var token :- ReadString(m, "canary_token");
    var sham :- ReadString(m, "sham_memory_id");
    var noHidden :- ReadString(m, "no_hidden_signal_memory_id");
    var hidden :- ReadString(m, "hidden_signal_memory_id");
    Ok(OracleMemories(canary, token, sham, noHidden, hidden))
  }

  /** `_risi_c_oracle_from_json` */
  function OracleFromJson(v: Json): Result<RisiCOracle, DecodeError> {
    if !v.Obj? then Err(BadField("risi_c_oracle"))
    else
      var memories :- ReadOracleMemories(v.fields);
      var victim :- ReadString(v.fields, "victim_principal_id");
      var observer :- ReadString(v.fields, "observer_principal_id");
      var path :- ReadString(v.fields, "allowed_state_diff_path");
      var budget :- ReadInt(v.fields, "probe_budget");
      var positive :- ReadNumber(v.fields, "positive_minimum_advantage");
      var negative :- ReadNumber(v.fields, "negative_maximum_advantage");
      var oracle := RawOracle(memories.canary, memories.token, memories.sham, victim, observer, memories.noHidden, memories.hidden,
                              path, budget, positive, negative);
      if oracle.Valid() then Ok(oracle) else Err(Rejected)
  }

  lemma OracleMemoriesRead(o: RisiCOracle)
    ensures ReadOracleMemories(OracleToJson(o).fields) ==
            Ok(OracleMemories(o.canaryMemoryId, o.canaryToken, o.shamMemoryId, o.noHiddenSignalMemoryId, o.hiddenSignalMemoryId))
  {
  }

  /** Every oracle is read back from its own JSON. */
  lemma OracleRoundTrip(o: RisiCOracle)
    ensures OracleFromJson(OracleToJson(o)) == Ok(o)
  {
    hide ReadOracleMemories;
    OracleMemoriesRead(o);
    var f := OracleToJson(o).fields;
    assert Get(f, "victim_principal_id") == Str(o.victimPrincipalId) && Get(f, "observer_principal_id") == Str(o.observerPrincipalId);
    assert Get(f, "allowed_state_diff_path") == Str(o.allowedPath) && Get(f, "probe_budget") == Int(o.probeBudget);
    assert Get(f, "positive_minimum_advantage") == Float(o.positiveMinimum);
    assert Get(f, "negative_maximum_advantage") == Float(o.negativeMaximum);
  }
}
