/** Deterministic resource accounting (budget.py) and the charges the runner makes (runner.py). */
module Budget {
  import opened Basics
  import opened Json

  datatype Resource = EPISODES | RETRIEVAL_CALLS | LOGICAL_STEPS | INPUT_BYTES | MEMORY_RECORDS | ARTIFACT_BYTES

  datatype Amounts = Amounts(episodes: int, retrievalCalls: int, logicalSteps: int, inputBytes: int,
                             memoryRecords: int, artifactBytes: int)

  function Amount(a: Amounts, r: Resource): int {
    match r
    case EPISODES => a.episodes
    case RETRIEVAL_CALLS => a.retrievalCalls
    case LOGICAL_STEPS => a.logicalSteps
    case INPUT_BYTES => a.inputBytes
    case MEMORY_RECORDS => a.memoryRecords
    case ARTIFACT_BYTES => a.artifactBytes
  }

  function WithAmount(a: Amounts, r: Resource, n: int): Amounts {
    match r
    case EPISODES => a.(episodes := n)
    case RETRIEVAL_CALLS => a.(retrievalCalls := n)
    case LOGICAL_STEPS => a.(logicalSteps := n)
    case INPUT_BYTES => a.(inputBytes := n)
    case MEMORY_RECORDS => a.(memoryRecords := n)
    case ARTIFACT_BYTES => a.(artifactBytes := n)
  }

  /** `ExecutionLimits`: every ceiling is positive. */
  type Limits = a: Amounts | forall r :: Amount(a, r) > 0 witness Amounts(1, 1, 1, 1, 1, 1)

  /** `ResourceConsumption`: no amount is negative. */
  type Consumption = a: Amounts | forall r :: Amount(a, r) >= 0 witness Amounts(0, 0, 0, 0, 0, 0)

  datatype Ledger = Ledger(approved: Limits, consumed: Consumption)

  datatype BudgetError = NegativeRequest | Exhausted(resource: Resource, approved: int, consumed: int, requested: int)

  function Opened(limits: Limits): Ledger {
    Ledger(limits, Amounts(0, 0, 0, 0, 0, 0))
  }

  /** `BudgetLedger.consume` */
  function Consume(l: Ledger, r: Resource, amount: int): Result<Ledger, BudgetError> {
    var consumed, approved := Amount(l.consumed, r), Amount(l.approved, r);
    if amount < 0 then Err(NegativeRequest)
    else if consumed + amount > approved then Err(Exhausted(r, approved, consumed, amount))
    else Ok(Ledger(l.approved, WithAmount(l.consumed, r, consumed + amount)))
  }

  predicate WithinLimits(l: Ledger) {
    forall r :: Amount(l.consumed, r) <= Amount(l.approved, r)
  }

  // ----- whole runs of requests -----

  datatype Request = Request(resource: Resource, amount: int)

  /** The ledger a caller holds after a request, granted or refused. */
  function Requested(l: Ledger, q: Request): Ledger {
    match Consume(l, q.resource, q.amount) case Ok(next) => next case Err(_) => l
  }

  function RequestedAll(l: Ledger, qs: seq<Request>): Ledger {
    if qs == [] then l else Requested(RequestedAll(l, Front(qs)), Last(qs))
  }

  /** The sum of the amounts granted for one resource. */
  function Granted(l: Ledger, qs: seq<Request>, r: Resource): int {
    if qs == [] then 0
    else
      var q := Last(qs);
      Granted(l, Front(qs), r)
      + if q.resource == r && Consume(RequestedAll(l, Front(qs)), r, q.amount).Ok? then q.amount else 0
  }

  /** `_limit_reasons`: the resources requested beyond the profile's ceilings. */
  function LimitReasons(requested: Limits, ceilings: Limits): seq<Resource> {
    Exceeding(requested, ceilings, [EPISODES, RETRIEVAL_CALLS, LOGICAL_STEPS, INPUT_BYTES, MEMORY_RECORDS, ARTIFACT_BYTES])
  }

  function Exceeding(requested: Limits, ceilings: Limits, rs: seq<Resource>): seq<Resource> {
    if rs == [] then []
    else (if Amount(requested, rs[0]) > Amount(ceilings, rs[0]) then [rs[0]] else []) + Exceeding(requested, ceilings, rs[1..])
  }

  lemma {:induction false} NoneExceeding(requested: Limits, ceilings: Limits, rs: seq<Resource>)
    ensures Exceeding(requested, ceilings, rs) == [] <==>
            forall i | 0 <= i < |rs| :: Amount(requested, rs[i]) <= Amount(ceilings, rs[i])
  {
    if rs != [] {
      NoneExceeding(requested, ceilings, rs[1..]);
      assert forall i | 0 <= i < |rs[1..]| :: rs[1..][i] == rs[i + 1];
      assert forall i | 1 <= i < |rs| :: rs[i] == rs[1..][i - 1];
    }
  }

  /** A manifest passes the limit check exactly when no limit exceeds its ceiling. */
  lemma AuthorizedIffWithinCeilings(requested: Limits, ceilings: Limits)
    ensures LimitReasons(requested, ceilings) == [] <==> forall r :: Amount(requested, r) <= Amount(ceilings, r)
  {
    var rs := [EPISODES, RETRIEVAL_CALLS, LOGICAL_STEPS, INPUT_BYTES, MEMORY_RECORDS, ARTIFACT_BYTES];
    NoneExceeding(requested, ceilings, rs);
    assert forall r :: r in rs by {
      assert rs[0] == EPISODES && rs[1] == RETRIEVAL_CALLS && rs[2] == LOGICAL_STEPS && rs[3] == INPUT_BYTES;
      assert rs[4] == MEMORY_RECORDS && rs[5] == ARTIFACT_BYTES;
    }
  }

  /**
   Whatever is requested of an authorized run, in any order: consumption is exactly what was granted,
   and never leaves 0 <= consumed <= approved <= ceiling. A refused request adds nothing.
   */
  lemma {:induction false} LedgerConserves(limits: Limits, ceilings: Limits, qs: seq<Request>)
    requires LimitReasons(limits, ceilings) == []
    ensures var l := RequestedAll(Opened(limits), qs);
            && l.approved == limits
            && forall r :: && Amount(l.consumed, r) == Granted(Opened(limits), qs, r)
                           && 0 <= Amount(l.consumed, r) <= Amount(l.approved, r) <= Amount(ceilings, r)
  {
    hide LimitReasons;
    AuthorizedIffWithinCeilings(limits, ceilings);
    if qs != [] {
      LedgerConserves(limits, ceilings, Front(qs));
      ConsumeMovesOne(RequestedAll(Opened(limits), Front(qs)), Last(qs).resource, Last(qs).amount);
    }
  }

  /** A granted request adds its amount to its own resource and leaves the others; one is granted exactly when it fits. */
  lemma ConsumeMovesOne(l: Ledger, r: Resource, amount: int)
    ensures Consume(l, r, amount).Ok? <==> 0 <= amount <= Amount(l.approved, r) - Amount(l.consumed, r)
    ensures Consume(l, r, amount).Ok? ==>
              var next := Consume(l, r, amount).value;
              && next.approved == l.approved
              && forall q :: Amount(next.consumed, q) == Amount(l.consumed, q) + if q == r then amount else 0
  {
  }

  // ----- the runner's charges -----

  datatype Charge = EpisodeStart | RetrievalCall | DecisionMade

  /** `_consume_episode_start`, `_consume_retrieval`, `_consume_decision` */
  function Charged(l: Ledger, c: Charge): Result<Ledger, BudgetError> {
    match c
    case EpisodeStart => var l :- Consume(l, EPISODES, 1); Consume(l, LOGICAL_STEPS, 1)
    case RetrievalCall => var l :- Consume(l, RETRIEVAL_CALLS, 1); Consume(l, LOGICAL_STEPS, 1)
    case DecisionMade => Consume(l, LOGICAL_STEPS, 1)
  }

  /** A path through the runner: the first refused charge ends it. */
  function ChargedAll(l: Ledger, cs: seq<Charge>): Result<Ledger, BudgetError> {
    if cs == [] then Ok(l)
    else
      var l :- ChargedAll(l, Front(cs));
      Charged(l, Last(cs))
  }

  function Count(cs: seq<Charge>, c: Charge): nat {
    if cs == [] then 0 else Count(Front(cs), c) + if Last(cs) == c then 1 else 0
  }

  /** The ledger with the given numbers of episodes, retrievals and logical steps added. */
  function Plus(l: Ledger, episodes: nat, retrievals: nat, steps: nat): Ledger {
    l.(consumed := l.consumed.(episodes := l.consumed.episodes + episodes,
                               retrievalCalls := l.consumed.retrievalCalls + retrievals,
                               logicalSteps := l.consumed.logicalSteps + steps))
  }

  lemma ChargeAdds(l: Ledger, c: Charge)
    requires WithinLimits(l)
    ensures var next := Plus(l, if c == EpisodeStart then 1 else 0, if c == RetrievalCall then 1 else 0, 1);
            && (Charged(l, c).Ok? <==> WithinLimits(next))
            && (Charged(l, c).Ok? ==> Charged(l, c) == Ok(next))
  {
    var next := Plus(l, if c == EpisodeStart then 1 else 0, if c == RetrievalCall then 1 else 0, 1);
    assert Amount(next.consumed, LOGICAL_STEPS) == Amount(l.consumed, LOGICAL_STEPS) + 1;
    assert Amount(next.consumed, EPISODES) == Amount(l.consumed, EPISODES) + if c == EpisodeStart then 1 else 0;
    assert Amount(next.consumed, RETRIEVAL_CALLS) == Amount(l.consumed, RETRIEVAL_CALLS) + if c == RetrievalCall then 1 else 0;
  }

  /**
   A path of charges goes through exactly when its totals fit, and then adds exactly those totals: every
   charge is one logical step, so logical steps are episodes plus retrievals plus decisions.
   */
  lemma {:induction false} ChargesAddUp(l: Ledger, cs: seq<Charge>)
    requires WithinLimits(l)
    ensures |cs| == Count(cs, EpisodeStart) + Count(cs, RetrievalCall) + Count(cs, DecisionMade)
    ensures var next := Plus(l, Count(cs, EpisodeStart), Count(cs, RetrievalCall), |cs|);
            && (ChargedAll(l, cs).Ok? <==> WithinLimits(next))
            && (ChargedAll(l, cs).Ok? ==> ChargedAll(l, cs) == Ok(next))
  {
    hide Charged;
    if cs != [] {
      ChargesAddUp(l, Front(cs));
      var earlier := Plus(l, Count(Front(cs), EpisodeStart), Count(Front(cs), RetrievalCall), |cs| - 1);
      var next := Plus(l, Count(cs, EpisodeStart), Count(cs, RetrievalCall), |cs|);
      if WithinLimits(earlier) {
        ChargeAdds(earlier, Last(cs));
      } else {
        var r :| Amount(earlier.consumed, r) > Amount(l.approved, r);
        assert Amount(next.consumed, r) >= Amount(earlier.consumed, r);
      }
    }
  }

  // ----- the resource report -----

  datatype ResourceUse = ResourceUse(approved: Amounts, consumed: Amounts)

  datatype ReportError = InvalidFields | NotAnInteger | OutOfRange

  function AmountToJson(approved: int, consumed: int): Json {
    Obj(map["approved" := Int(approved), "consumed" := Int(consumed)])
  }

  function ReportJson(u: ResourceUse): Json {
    Obj(map[
      "episodes" := AmountToJson(u.approved.episodes, u.consumed.episodes),
      "retrieval_calls" := AmountToJson(u.approved.retrievalCalls, u.consumed.retrievalCalls),
      "logical_steps" := AmountToJson(u.approved.logicalSteps, u.consumed.logicalSteps),
      "input_bytes" := AmountToJson(u.approved.inputBytes, u.consumed.inputBytes),
      "memory_records" := AmountToJson(u.approved.memoryRecords, u.consumed.memoryRecords),
      "artifact_bytes" := AmountToJson(u.approved.artifactBytes, u.consumed.artifactBytes)])
  }

  /** `BudgetLedger.resource_use` */
  function Report(l: Ledger): ResourceUse {
    ResourceUse(l.approved, l.consumed)
  }

  /** One amount of the report: the pair, or why `BudgetAmount` refuses it. */
  function ReadAmount(fields: Fields, name: string): Result<(int, int), ReportError> {
    match Get(fields, name)
    case Obj(raw) =>
      if raw.Keys != {"approved", "consumed"} then Err(InvalidFields)
      else if !raw["approved"].Int? || !raw["consumed"].Int? then Err(NotAnInteger)
      else if raw["approved"].n <= 0 || !(0 <= raw["consumed"].n <= raw["approved"].n) then Err(OutOfRange)
      else Ok((raw["approved"].n, raw["consumed"].n))
    case _ => Err(InvalidFields)
  }

  /** `ResourceUse.from_json` */
  function ReadReport(v: Json): Result<ResourceUse, ReportError> {
    if !v.Obj? || v.fields.Keys != {"episodes", "retrieval_calls", "logical_steps", "input_bytes", "memory_records",
                                    "artifact_bytes"}
    then Err(InvalidFields)
    else
      var episodes :- ReadAmount(v.fields, "episodes");
      var retrievals :- ReadAmount(v.fields, "retrieval_calls");
      var steps :- ReadAmount(v.fields, "logical_steps");
      var inputs :- ReadAmount(v.fields, "input_bytes");
      var memories :- ReadAmount(v.fields, "memory_records");
      var artifacts :- ReadAmount(v.fields, "artifact_bytes");
      Ok(ResourceUse(Amounts(episodes.0, retrievals.0, steps.0, inputs.0, memories.0, artifacts.0),
                     Amounts(episodes.1, retrievals.1, steps.1, inputs.1, memories.1, artifacts.1)))
  }

  lemma AmountRoundTrip(fields: Fields, name: string, approved: int, consumed: int)
    requires Get(fields, name) == AmountToJson(approved, consumed)
    ensures ReadAmount(fields, name) ==
            if approved > 0 && 0 <= consumed <= approved then Ok((approved, consumed)) else Err(OutOfRange)
  {
  }

  /** The report of a ledger is read back exactly when the ledger is within its limits. */
  lemma ReportRoundTrip(l: Ledger)
    ensures ReadReport(ReportJson(Report(l))) == if WithinLimits(l) then Ok(Report(l)) else Err(OutOfRange)
  {
    hide ReadAmount, AmountToJson;
    var fields := ReportJson(Report(l)).fields;
    AmountRoundTrip(fields, "episodes", l.approved.episodes, l.consumed.episodes);
    AmountRoundTrip(fields, "retrieval_calls", l.approved.retrievalCalls, l.consumed.retrievalCalls);
    AmountRoundTrip(fields, "logical_steps", l.approved.logicalSteps, l.consumed.logicalSteps);
    AmountRoundTrip(fields, "input_bytes", l.approved.inputBytes, l.consumed.inputBytes);
    AmountRoundTrip(fields, "memory_records", l.approved.memoryRecords, l.consumed.memoryRecords);
    AmountRoundTrip(fields, "artifact_bytes", l.approved.artifactBytes, l.consumed.artifactBytes);
    WithinLimitsUnfolds(l);
  }

  lemma WithinLimitsUnfolds(l: Ledger)
    ensures WithinLimits(l) <==>
            && l.consumed.episodes <= l.approved.episodes && l.consumed.retrievalCalls <= l.approved.retrievalCalls
            && l.consumed.logicalSteps <= l.approved.logicalSteps && l.consumed.inputBytes <= l.approved.inputBytes
            && l.consumed.memoryRecords <= l.approved.memoryRecords && l.consumed.artifactBytes <= l.approved.artifactBytes
    ensures l.approved.episodes > 0 && l.approved.retrievalCalls > 0 && l.approved.logicalSteps > 0
    ensures l.approved.inputBytes > 0 && l.approved.memoryRecords > 0 && l.approved.artifactBytes > 0
    ensures l.consumed.episodes >= 0 && l.consumed.retrievalCalls >= 0 && l.consumed.logicalSteps >= 0
    ensures l.consumed.inputBytes >= 0 && l.consumed.memoryRecords >= 0 && l.consumed.artifactBytes >= 0
  {
    var a, c := l.approved, l.consumed;
    assert a.episodes == Amount(a, EPISODES) && c.episodes == Amount(c, EPISODES);
    assert a.retrievalCalls == Amount(a, RETRIEVAL_CALLS) && c.retrievalCalls == Amount(c, RETRIEVAL_CALLS);
    assert a.logicalSteps == Amount(a, LOGICAL_STEPS) && c.logicalSteps == Amount(c, LOGICAL_STEPS);
    assert a.inputBytes == Amount(a, INPUT_BYTES) && c.inputBytes == Amount(c, INPUT_BYTES);
    assert a.memoryRecords == Amount(a, MEMORY_RECORDS) && c.memoryRecords == Amount(c, MEMORY_RECORDS);
    assert a.artifactBytes == Amount(a, ARTIFACT_BYTES) && c.artifactBytes == Amount(c, ARTIFACT_BYTES);
  }
}
