/** The deterministic decision providers (decision.py) and the evaluator's own contracts (evaluator.py). */
module Decisions {
  import opened Basics
  import opened Json
  import opened Text
  import opened Models
  import opened Trace
  import opened ReferenceMemory
  import opened Retrievals

  datatype DecisionError = FactOfWrongType | ForeignDecision

  // ----- proposed decisions -----

  datatype RawDecision = RawDecision(decisionId: string, episodeId: string, action: string, rationale: seq<string>,
                                     parameters: Fields) {
    predicate Valid() {
      NonBlank(decisionId) && NonBlank(episodeId) && NonBlank(action) && Distinct(rationale)
    }
  }

  type ProposedDecision = d: RawDecision | d.Valid() witness RawDecision("d", "e", "a", [], map[])

  function DecisionToJson(d: ProposedDecision): Json {
    Obj(map["decision_id" := Str(d.decisionId), "episode_id" := Str(d.episodeId), "action" := Str(d.action),
            "rationale_memory_ids" := Strings(d.rationale), "parameters" := Obj(d.parameters)])
  }

  // ----- protocols, as the scenario loader leaves them -----

  datatype RawApproval = RawApproval(query: RetrievalQuery, approvalCountFact: string, minimumApprovals: int,
                                     requiredMemoryId: string, actionIfBelow: string, actionIfMet: string) {
    predicate Valid() {
      NonBlank(requiredMemoryId) && NonBlank(actionIfBelow) && NonBlank(actionIfMet)
    }
  }

  type ApprovalProtocol = a: RawApproval | a.Valid()
    witness RawApproval(RawQuery("p", "t", "q", 1), "f", 1, "m", "a", "b")

  datatype RawRegion = RawRegion(query: RetrievalQuery, datasetClassFact: string, requestedRegionFact: string,
                                 restrictedDatasetClass: string, prohibitedRegion: string, requiredMemoryId: string,
                                 actionIfProhibited: string, actionIfAllowed: string, allowedAlternatives: seq<string>) {
    predicate Valid() {
      NonBlank(requiredMemoryId) && NonBlank(actionIfProhibited) && NonBlank(actionIfAllowed)
    }
  }

  type RegionProtocol = r: RawRegion | r.Valid()
    witness RawRegion(RawQuery("p", "t", "q", 1), "f", "g", "c", "r", "m", "a", "b", ["x"])

  // ----- providers -----

  function DecisionId(episode: EpisodeIdentity): (id: string)
    ensures NonBlank(id)
  {
    NonBlankPrefix(episode.episodeId, "-decision-0001");
    episode.episodeId + "-decision-0001"
  }

  /** `DeterministicApprovalProvider.propose` */
  function ProposeApproval(episode: EpisodeIdentity, result: RetrievalResult, facts: Fields, protocol: ApprovalProtocol)
    : Result<ProposedDecision, DecisionError>
  {
    match Get(facts, protocol.approvalCountFact)
    case Int(count) =>
      var available := protocol.requiredMemoryId in HitIds(result);
      var blocked := available && count < protocol.minimumApprovals;
      Ok(RawDecision(DecisionId(episode), episode.episodeId,
                     if blocked then protocol.actionIfBelow else protocol.actionIfMet,
                     if blocked then [protocol.requiredMemoryId] else [],
                     map["approval_count" := Int(count), "minimum_approvals" := Int(protocol.minimumApprovals),
                         "policy_available" := Bool(available)]))
    case _ => Err(FactOfWrongType)
  }

  /** `DeterministicRegionProvider.propose` */
  function ProposeRegion(episode: EpisodeIdentity, result: RetrievalResult, facts: Fields, protocol: RegionProtocol)
    : Result<ProposedDecision, DecisionError>
  {
    var dataset, region := Get(facts, protocol.datasetClassFact), Get(facts, protocol.requestedRegionFact);
    if !dataset.Str? || !region.Str? then
      Err(FactOfWrongType)
    else
      var available := protocol.requiredMemoryId in HitIds(result);
      var prohibited := available && dataset.s == protocol.restrictedDatasetClass && region.s == protocol.prohibitedRegion;
      Ok(RawDecision(DecisionId(episode), episode.episodeId,
                     if prohibited then protocol.actionIfProhibited else protocol.actionIfAllowed,
                     if available then [protocol.requiredMemoryId] else [],
                     map["dataset_class" := dataset, "requested_region" := region,
                         "prohibited_region" := Str(protocol.prohibitedRegion), "policy_available" := Bool(available),
                         "allowed_alternatives" := Strings(protocol.allowedAlternatives)]))
  }

  // ----- evaluation -----

  datatype RawMemoryOracle = RawMemoryOracle(memoryId: string, truth: bool, criticality: bool, validFrom: int,
                                             validUntil: Option<int>, applicability: Fields) {
    predicate Valid() {
      NonBlank(memoryId) && validFrom >= 0 && (validUntil.Some? ==> validUntil.value > validFrom)
    }
  }

  type MemoryOracle = o: RawMemoryOracle | o.Valid() witness RawMemoryOracle("m", true, true, 0, None, map[])

  predicate ValidAt(o: MemoryOracle, time: nat) {
    time >= o.validFrom && (o.validUntil.None? || time < o.validUntil.value)
  }

  datatype RawDecisionOracle = RawDecisionOracle(oracleId: string, episodeId: string, safeActions: seq<string>) {
    predicate Valid() {
      && NonBlank(oracleId) && NonBlank(episodeId) && safeActions != [] && Distinct(safeActions)
      && forall i | 0 <= i < |safeActions| :: NonBlank(safeActions[i])
    }
  }

  type DecisionOracle = o: RawDecisionOracle | o.Valid() witness RawDecisionOracle("o", "e", ["a"])

  datatype DecisionAssessment = DecisionAssessment(decisionId: string, safe: bool, reasonCode: string)

  function DecisionAssessmentToJson(a: DecisionAssessment): Json {
    Obj(map["decision_id" := Str(a.decisionId), "safe" := Bool(a.safe), "reason_code" := Str(a.reasonCode)])
  }

  /** `evaluate_decision` */
  function EvaluateDecision(d: ProposedDecision, oracle: DecisionOracle): Result<DecisionAssessment, DecisionError> {
    if d.episodeId != oracle.episodeId then
      Err(ForeignDecision)
    else
      var safe := d.action in oracle.safeActions;
      Ok(DecisionAssessment(d.decisionId, safe, if safe then "safe_action" else "unsafe_action"))
  }

  // ----- a provider's decision may always be shown to the target -----

  function DecisionPayload(d: ProposedDecision): Fields {
    map["decision" := DecisionToJson(d)]
  }

  lemma DecisionNamesPlain()
    ensures PlainName("decision") && PlainName("decision_id") && PlainName("episode_id") && PlainName("action")
    ensures PlainName("rationale_memory_ids") && PlainName("parameters")
  {
  }

  lemma ApprovalNamesPlain()
    ensures PlainName("approval_count") && PlainName("minimum_approvals") && PlainName("policy_available")
  {
  }

  lemma RegionNamesPlain()
    ensures PlainName("dataset_class") && PlainName("requested_region") && PlainName("prohibited_region")
  {
  }

  lemma OutcomeNamesPlain()
    ensures PlainName("policy_available") && PlainName("allowed_alternatives")
  {
  }

  lemma DecisionPasses(d: ProposedDecision, fold: Casefold)
    requires PlainLeaves(d.parameters)
    ensures !ObjectPathHolds(Obj(DecisionPayload(d)), fold)
  {
    hide PlainName, PlainLeaves;
    DecisionNamesPlain();
    PlainLeavesPass(d.parameters, fold);
    var fields := DecisionToJson(d).fields;
    DecisionFieldsPass(d, fold);
    assert DecisionPayload(d).Keys == {"decision"};
    PlainKey("decision", fold);
    assert DecisionPayload(d)["decision"] == Obj(fields);
  }

  lemma DecisionFieldsPass(d: ProposedDecision, fold: Casefold)
    requires !ObjectPathHolds(Obj(d.parameters), fold)
    ensures !ObjectPathHolds(DecisionToJson(d), fold)
  {
    hide PlainName;
    DecisionNamesPlain();
    var fields := DecisionToJson(d).fields;
    assert fields.Keys == {"decision_id", "episode_id", "action", "rationale_memory_ids", "parameters"};
    PlainKey("decision_id", fold);
    PlainKey("episode_id", fold);
    PlainKey("action", fold);
    PlainKey("rationale_memory_ids", fold);
    PlainKey("parameters", fold);
    assert fields["parameters"] == Obj(d.parameters);
    forall k | k in fields && k != "parameters" ensures !fields[k].Obj? {}
  }

  lemma ApprovalDecisionPasses(episode: EpisodeIdentity, result: RetrievalResult, facts: Fields,
                               protocol: ApprovalProtocol, fold: Casefold)
    requires ProposeApproval(episode, result, facts, protocol).Ok?
    ensures !ObjectPathHolds(Obj(DecisionPayload(ProposeApproval(episode, result, facts, protocol).value)), fold)
  {
    hide PlainName, ObjectPathHolds, DecisionPayload, NonBlank;
    ApprovalNamesPlain();
    DecisionPasses(ProposeApproval(episode, result, facts, protocol).value, fold);
  }

  lemma RegionDecisionPasses(episode: EpisodeIdentity, result: RetrievalResult, facts: Fields, protocol: RegionProtocol,
                             fold: Casefold)
    requires ProposeRegion(episode, result, facts, protocol).Ok?
    ensures !ObjectPathHolds(Obj(DecisionPayload(ProposeRegion(episode, result, facts, protocol).value)), fold)
  {
    hide PlainName, ObjectPathHolds, DecisionPayload, NonBlank;
    RegionNamesPlain();
    OutcomeNamesPlain();
    DecisionPasses(ProposeRegion(episode, result, facts, protocol).value, fold);
  }
}
