/**
 Campaign execution against an external knowledge target (campaign.py). The target may answer or fail at
 any call; what it was asked is kept in a log.
 */
module Campaign {
  import opened Basics

  // ----- worlds -----

  datatype CampaignMemory = CampaignMemory(memoryId: string, content: string)

  datatype RawWorld = RawWorld(worldId: string, sources: seq<CampaignMemory>, benign: seq<CampaignMemory>,
                               targeted: seq<CampaignMemory>, targetQuery: string, nonTargetQuery: string) {
    predicate Valid() {
      |sources| == 2 && |benign| == 25 && |targeted| == 25
    }
  }

  const SOME_MEMORY := CampaignMemory("m", "c")

  type CampaignWorld = w: RawWorld | w.Valid()
    witness RawWorld("w", [SOME_MEMORY, SOME_MEMORY], seq(25, _ => SOME_MEMORY), seq(25, _ => SOME_MEMORY), "t", "n")

  datatype EvaluatorOracle = EvaluatorOracle(worldId: string, targetMemoryId: string, nonTargetMemoryId: string)

  // ----- the target -----

  datatype Hit = Hit(documentId: string, rank: int)

  datatype CampaignError =
    | Transport(code: string) | NoSegments | UnknownMemory | WrongOracle | CountMismatch | WrongGeometry | WrongInputCount
    | NotAuthorized | ValidationOnly

  /** What the target answers, call by call; a failed call gives its transport code. */
  datatype Target = Target(
    creates: nat -> Result<string, string>, stores: nat -> Result<(string, string), string>, indexes: nat -> Result<(), string>,
    segments: nat -> Result<seq<Option<string>>, string>, retrieves: nat -> Result<seq<Hit>, string>,
    inspects: nat -> Result<(), string>, deletes: nat -> Result<(), string>)

  datatype Event =
    | BaseCreated(name: string, created: Option<string>)
    | DocumentStored(dataset: string, memory: CampaignMemory, stored: bool)
    | IndexingAwaited(dataset: string, batch: string)
    | SegmentsRead(dataset: string, document: string)
    | Retrieved(dataset: string, query: string)
    | BaseInspected(dataset: string)
    | BaseDeleted(dataset: string)

  // ----- what a log says -----

  datatype Tracking = Closed | Open(dataset: string) | Broken

  /** The dataset in use: created, not yet deleted, and the only one every call since has named. */
  function Track(log: seq<Event>): Tracking {
    if log == [] then Closed
    else
      var before := Track(Front(log));
      match Last(log)
      case BaseCreated(_, None) => if before == Closed then Closed else Broken
      case BaseCreated(_, Some(dataset)) => if before == Closed then Open(dataset) else Broken
      case BaseDeleted(dataset) => if before == Open(dataset) then Closed else Broken
      case other => if before == Open(other.dataset) then before else Broken
  }

  /** The memories stored since the last dataset was created, in order. */
  function Stock(log: seq<Event>): seq<CampaignMemory> {
    if log == [] then []
    else
      match Last(log)
      case BaseCreated(_, _) => []
      case DocumentStored(_, memory, true) => Stock(Front(log)) + [memory]
      case _ => Stock(Front(log))
  }

  /** What the dataset held at each retrieval. */
  function Stocks(log: seq<Event>): seq<seq<CampaignMemory>> {
    if log == [] then []
    else Stocks(Front(log)) + if Last(log).Retrieved? then [Stock(Front(log))] else []
  }

  type Documents = map<string, string>

  /** The identifiers the target gave the memories stored since the last dataset was created. */
  function Catalogue(t: Target, log: seq<Event>): Documents {
    if log == [] then map[]
    else
      match Last(log)
      case BaseCreated(_, _) => map[]
      case DocumentStored(_, memory, true) =>
        (match t.stores(|log| - 1)
         case Ok((document, _)) => Catalogue(t, Front(log))[memory.memoryId := document]
         case Err(_) => Catalogue(t, Front(log)))
      case _ => Catalogue(t, Front(log))
  }

  /** A retrieval: what was asked, what the memories asked over are filed under, and what the target answered. */
  datatype Ask = Ask(query: string, filed: Documents, answer: Result<seq<Hit>, string>)

  /** The log's retrievals, in order. */
  function Asks(t: Target, log: seq<Event>): seq<Ask> {
    if log == [] then []
    else Asks(t, Front(log))
         + if Last(log).Retrieved? then [Ask(Last(log).query, Catalogue(t, Front(log)), t.retrieves(|log| - 1))] else []
  }

  function Creations(log: seq<Event>, dataset: string): nat {
    if log == [] then 0
    else Creations(Front(log), dataset)
         + if Last(log).BaseCreated? && Last(log).created == Some(dataset) then 1 else 0
  }

  function Deletions(log: seq<Event>, dataset: string): nat {
    if log == [] then 0
    else Deletions(Front(log), dataset) + if Last(log) == BaseDeleted(dataset) then 1 else 0
  }

  /** A log that tracks to closed deletes each dataset exactly as often as it was created; one still open lacks one deletion. */
  lemma {:induction false} TrackedIsBalanced(log: seq<Event>, dataset: string)
    requires Track(log) != Broken
    ensures Creations(log, dataset) == Deletions(log, dataset) + if Track(log) == Open(dataset) then 1 else 0
  {
    if log != [] {
      TrackedIsBalanced(Front(log), dataset);
    }
  }

  lemma {:induction false} PrefixIsTracked(log: seq<Event>, n: nat)
    requires Track(log) != Broken && n <= |log|
    ensures Track(log[..n]) != Broken
    decreases |log|
  {
    if n < |log| {
      assert Front(log)[..n] == log[..n];
      PrefixIsTracked(Front(log), n);
    } else {
      assert log[..n] == log;
    }
  }

  lemma Logged(log: seq<Event>, e: Event)
    ensures Front(log + [e]) == log && Last(log + [e]) == e
  {
  }

  /** A call that neither creates, deletes nor retrieves, on the dataset in use. */
  lemma LoggedCall(log: seq<Event>, e: Event, dataset: string)
    requires Track(log) == Open(dataset) && (e.DocumentStored? || e.IndexingAwaited? || e.SegmentsRead? || e.BaseInspected? || e.Retrieved?)
    requires e.dataset == dataset
    ensures Track(log + [e]) == Open(dataset)
    ensures Stock(log + [e]) == Stock(log) + (if e.DocumentStored? && e.stored then [e.memory] else [])
    ensures Stocks(log + [e]) == Stocks(log) + (if e.Retrieved? then [Stock(log)] else [])
  {
    Logged(log, e);
  }

  /** The same call, as the target answers it. */
  lemma LoggedAsk(t: Target, log: seq<Event>, e: Event)
    requires !e.BaseCreated? && !e.DocumentStored?
    ensures Catalogue(t, log + [e]) == Catalogue(t, log)
    ensures Asks(t, log + [e]) == Asks(t, log) + (if e.Retrieved? then [Ask(e.query, Catalogue(t, log), t.retrieves(|log|))] else [])
  {
    Logged(log, e);
  }

  lemma LoggedStore(t: Target, log: seq<Event>, dataset: string, memory: CampaignMemory, stored: bool)
    requires stored <==> t.stores(|log|).Ok?
    ensures var after := log + [DocumentStored(dataset, memory, stored)];
            && Asks(t, after) == Asks(t, log)
            && Catalogue(t, after) ==
               if stored then Catalogue(t, log)[memory.memoryId := t.stores(|log|).value.0] else Catalogue(t, log)
  {
    Logged(log, DocumentStored(dataset, memory, stored));
  }

  // ----- the adapter -----

  /** What a call returns for the target's answer. */
  function Answered<T>(answer: Result<T, string>): Result<T, CampaignError> {
    match answer case Ok(value) => Ok(value) case Err(code) => Err(Transport(code))
  }

  class ExternalAdapter {
    const target: Target
    var log: seq<Event>

    constructor (target: Target)
      ensures log == [] && this.target == target
    {
      this.target := target;
      log := [];
    }

    method CreateKnowledgeBase(name: string) returns (r: Result<string, CampaignError>)
      modifies this`log
      ensures log == old(log) + [BaseCreated(name, if r.Ok? then Some(r.value) else None)]
      ensures r == Answered(target.creates(|old(log)|))
    {
      var answer := target.creates(|log|);
      log := log + [BaseCreated(name, if answer.Ok? then Some(answer.value) else None)];
      return Answered(answer);
    }

    method CreateDocument(dataset: string, memory: CampaignMemory) returns (r: Result<(string, string), CampaignError>)
      modifies this`log
      ensures log == old(log) + [DocumentStored(dataset, memory, r.Ok?)]
      ensures r == Answered(target.stores(|old(log)|))
    {
      var answer := target.stores(|log|);
      log := log + [DocumentStored(dataset, memory, answer.Ok?)];
      return Answered(answer);
    }

    method WaitForIndexing(dataset: string, batch: string) returns (r: Result<(), CampaignError>)
      modifies this`log
      ensures log == old(log) + [IndexingAwaited(dataset, batch)]
      ensures r == Answered(target.indexes(|old(log)|))
    {
      var answer := target.indexes(|log|);
      log := log + [IndexingAwaited(dataset, batch)];
      return Answered(answer);
    }

    method InspectSegments(dataset: string, document: string) returns (r: Result<seq<Option<string>>, CampaignError>)
      modifies this`log
      ensures log == old(log) + [SegmentsRead(dataset, document)]
      ensures r == Answered(target.segments(|old(log)|))
    {
      var answer := target.segments(|log|);
      log := log + [SegmentsRead(dataset, document)];
      return Answered(answer);
    }

    method Retrieve(dataset: string, query: string) returns (r: Result<seq<Hit>, CampaignError>)
      modifies this`log
      ensures log == old(log) + [Retrieved(dataset, query)]
      ensures r == Answered(target.retrieves(|old(log)|))
    {
      var answer := target.retrieves(|log|);
      log := log + [Retrieved(dataset, query)];
      return Answered(answer);
    }

    method InspectKnowledgeBase(dataset: string) returns (r: Result<(), CampaignError>)
      modifies this`log
      ensures log == old(log) + [BaseInspected(dataset)]
      ensures r == Answered(target.inspects(|old(log)|))
    {
      var answer := target.inspects(|log|);
      log := log + [BaseInspected(dataset)];
      return Answered(answer);
    }

    method DeleteKnowledgeBase(dataset: string) returns (r: Result<(), CampaignError>)
      modifies this`log
      ensures log == old(log) + [BaseDeleted(dataset)]
      ensures r == Answered(target.deletes(|old(log)|))
    {
      var answer := target.deletes(|log|);
      log := log + [BaseDeleted(dataset)];
      return Answered(answer);
    }
  }

  // ----- ingestion -----

  function IdsOf(memories: seq<CampaignMemory>): set<string> {
    set i | 0 <= i < |memories| :: memories[i].memoryId
  }

  /** How far an ingestion has come: what is stored and filed beyond its start, on the one dataset, with nothing asked. */
  ghost predicate Ingested(t: Target, dataset: string, start: seq<Event>, log: seq<Event>, memories: seq<CampaignMemory>,
                           documents: Documents)
  {
    && start <= log && Track(log) == Open(dataset) && Stocks(log) == Stocks(start) && Asks(t, log) == Asks(t, start)
    && Stock(log) == Stock(start) + memories && Catalogue(t, log) == Catalogue(t, start) + documents
  }

  lemma NothingIngested(t: Target, dataset: string, log: seq<Event>)
    requires Track(log) == Open(dataset)
    ensures Ingested(t, dataset, log, log, [], map[])
  {
    assert Stock(log) + [] == Stock(log) && Catalogue(t, log) + map[] == Catalogue(t, log);
  }

  lemma IngestedStore(t: Target, dataset: string, start: seq<Event>, log: seq<Event>, memories: seq<CampaignMemory>,
                      documents: Documents, memory: CampaignMemory, stored: bool)
    requires Ingested(t, dataset, start, log, memories, documents) && (stored <==> t.stores(|log|).Ok?)
    ensures var after := log + [DocumentStored(dataset, memory, stored)];
            if stored then Ingested(t, dataset, start, after, memories + [memory],
                                    documents[memory.memoryId := t.stores(|log|).value.0])
            else Ingested(t, dataset, start, after, memories, documents)
  {
    hide Track, Stock, Stocks, Asks, Catalogue;
    LoggedCall(log, DocumentStored(dataset, memory, stored), dataset);
    LoggedStore(t, log, dataset, memory, stored);
    assert Stock(start) + memories + [memory] == Stock(start) + (memories + [memory]);
    assert Stock(start) + memories + [] == Stock(start) + memories;
  }

  lemma IngestedCheck(t: Target, dataset: string, start: seq<Event>, log: seq<Event>, memories: seq<CampaignMemory>,
                      documents: Documents, e: Event)
    requires Ingested(t, dataset, start, log, memories, documents) && (e.IndexingAwaited? || e.SegmentsRead?) && e.dataset == dataset
    ensures Ingested(t, dataset, start, log + [e], memories, documents)
  {
    hide Track, Stock, Stocks, Asks, Catalogue;
    LoggedCall(log, e, dataset);
    LoggedAsk(t, log, e);
  }

  /** `_ingest`: each memory is stored once, in order, read back, and filed under the identifier the target gave it. */
  method Ingest(adapter: ExternalAdapter, dataset: string, memories: seq<CampaignMemory>)
    returns (r: Result<Documents, CampaignError>)
    requires Track(adapter.log) == Open(dataset)
    modifies adapter`log
    ensures exists stored, filed :: Ingested(adapter.target, dataset, old(adapter.log), adapter.log, stored, filed)
    ensures r.Ok? ==>
              && Ingested(adapter.target, dataset, old(adapter.log), adapter.log, memories, r.value)
              && r.value.Keys == IdsOf(memories)
    ensures r.Err? ==> r.error.Transport? || r.error == NoSegments
  {
    hide Track, Stock, Stocks, Asks, Catalogue, Ingested;
    var documents: Documents := map[];
    ghost var start, t := adapter.log, adapter.target;
    NothingIngested(t, dataset, start);
    for i := 0 to |memories|
      invariant Ingested(t, dataset, start, adapter.log, memories[..i], documents)
      invariant documents.Keys == IdsOf(memories[..i])
    {
      var memory := memories[i];
      ghost var before := adapter.log;
      var stored := adapter.CreateDocument(dataset, memory);
      IngestedStore(t, dataset, start, before, memories[..i], documents, memory, stored.Ok?);
      if stored.Err? { return Err(stored.error); }
      ghost var filed := documents[memory.memoryId := stored.value.0];
      before := adapter.log;
      var indexed := adapter.WaitForIndexing(dataset, stored.value.1);
      IngestedCheck(t, dataset, start, before, memories[..i] + [memory], filed, Last(adapter.log));
      if indexed.Err? { return Err(indexed.error); }
      before := adapter.log;
      var segments := adapter.InspectSegments(dataset, stored.value.0);
      IngestedCheck(t, dataset, start, before, memories[..i] + [memory], filed, Last(adapter.log));
      if segments.Err? { return Err(segments.error); }
      if segments.value == [] { return Err(NoSegments); }
      if segments.value[0] != Some(memory.content) { return Err(Transport("source_mismatch")); }
      documents := documents[memory.memoryId := stored.value.0];
      assert memories[..i + 1] == memories[..i] + [memory];
      IdsExtend(memories[..i], memory);
    }
    assert memories[..|memories|] == memories;
    return Ok(documents);
  }

  lemma IdsExtend(memories: seq<CampaignMemory>, m: CampaignMemory)
    ensures IdsOf(memories + [m]) == IdsOf(memories) + {m.memoryId}
  {
    var all := memories + [m];
    assert all[|memories|] == m;
    forall id ensures id in IdsOf(all) <==> id in IdsOf(memories) + {m.memoryId} {
      if id in IdsOf(memories) {
        var i :| 0 <= i < |memories| && memories[i].memoryId == id;
        assert all[i].memoryId == id;
      }
    }
  }

  // ----- observation -----

  datatype Observation = Observation(worldId: string, condition: string, budget: nat, target: seq<Hit>, nonTarget: seq<Hit>)

  datatype Evaluation = Evaluation(worldId: string, condition: string, budget: nat, targetRank: Option<int>, nonTargetRank: Option<int>)

  /** The rank of the first hit on the expected document. */
  function RankOf(hits: seq<Hit>, document: string): Option<int> {
    if hits == [] then None else if hits[0].documentId == document then Some(hits[0].rank) else RankOf(hits[1..], document)
  }

  /** The rank is that of the first hit of the document, if there is one. */
  lemma {:induction false} RankIsOfFirstHit(hits: seq<Hit>, document: string)
    ensures var rank := RankOf(hits, document);
            && (rank.None? <==> forall i | 0 <= i < |hits| :: hits[i].documentId != document)
            && (rank.Some? ==> exists i | 0 <= i < |hits| ::
                                 && hits[i] == Hit(document, rank.value)
                                 && forall j | 0 <= j < i :: hits[j].documentId != document)
  {
    if hits != [] && hits[0].documentId != document {
      var rest := hits[1..];
      RankIsOfFirstHit(rest, document);
      assert hits == [hits[0]] + rest;
      if RankOf(rest, document).Some? {
        var i :| 0 <= i < |rest| && rest[i] == Hit(document, RankOf(rest, document).value)
                 && forall j | 0 <= j < i :: rest[j].documentId != document;
        assert hits[i + 1] == rest[i] && forall j | 0 < j < i + 1 :: hits[j] == rest[j - 1];
      }
    }
  }

  /** A checkpoint's record: both queries with the target's own answers, and the ranks of the expected documents in them. */
  predicate Observes(world: CampaignWorld, oracle: EvaluatorOracle, condition: string, budget: nat, o: Observation, e: Evaluation,
                     first: Ask, second: Ask)
  {
    && first.query == world.targetQuery && second.query == world.nonTargetQuery
    && first.answer == Ok(o.target) && second.answer == Ok(o.nonTarget) && first.filed == second.filed
    && oracle.targetMemoryId in first.filed && oracle.nonTargetMemoryId in first.filed
    && o.worldId == world.worldId && o.condition == condition && o.budget == budget
    && e == Evaluation(world.worldId, condition, budget, RankOf(o.target, first.filed[oracle.targetMemoryId]),
                       RankOf(o.nonTarget, first.filed[oracle.nonTargetMemoryId]))
  }

  /** `_observe` */
  method Observe(adapter: ExternalAdapter, world: CampaignWorld, oracle: EvaluatorOracle, dataset: string, condition: string,
                 budget: nat, documents: Documents)
    returns (r: Result<(Observation, Evaluation), CampaignError>)
    requires Track(adapter.log) == Open(dataset) && documents == Catalogue(adapter.target, adapter.log)
    modifies adapter`log
    ensures Track(adapter.log) == Open(dataset)
    ensures Stock(adapter.log) == Stock(old(adapter.log))
    ensures old(adapter.log) <= adapter.log && Catalogue(adapter.target, adapter.log) == documents
    ensures Asks(adapter.target, old(adapter.log)) <= Asks(adapter.target, adapter.log)
    ensures r.Ok? ==> Stocks(adapter.log) == Stocks(old(adapter.log)) + [Stock(old(adapter.log)), Stock(old(adapter.log))]
    ensures r.Ok? ==>
              && adapter.log == old(adapter.log) + [Retrieved(dataset, world.targetQuery), Retrieved(dataset, world.nonTargetQuery)]
              && adapter.target.retrieves(|old(adapter.log)|) == Ok(r.value.0.target)
              && adapter.target.retrieves(|old(adapter.log)| + 1) == Ok(r.value.0.nonTarget)
    ensures r.Ok? ==>
              var first := Ask(world.targetQuery, documents, Ok(r.value.0.target));
              var second := Ask(world.nonTargetQuery, documents, Ok(r.value.0.nonTarget));
              && Asks(adapter.target, adapter.log) == Asks(adapter.target, old(adapter.log)) + [first, second]
              && Observes(world, oracle, condition, budget, r.value.0, r.value.1, first, second)
    ensures r.Err? ==> r.error.Transport? || r.error == UnknownMemory
  {
    hide Track, Stock, Stocks, Asks, Catalogue;
    ghost var before := adapter.log;
    ghost var held := Stock(before);
    var target := adapter.Retrieve(dataset, world.targetQuery);
    LoggedCall(before, Last(adapter.log), dataset);
    LoggedAsk(adapter.target, before, Last(adapter.log));
    if target.Err? { return Err(target.error); }
    if oracle.targetMemoryId !in documents { return Err(UnknownMemory); }
    before := adapter.log;
    var nonTarget := adapter.Retrieve(dataset, world.nonTargetQuery);
    LoggedCall(before, Last(adapter.log), dataset);
    LoggedAsk(adapter.target, before, Last(adapter.log));
    if nonTarget.Err? { return Err(nonTarget.error); }
    if oracle.nonTargetMemoryId !in documents { return Err(UnknownMemory); }
    assert held + [] == held;
    assert Stocks(old(adapter.log)) + [held] + [held] == Stocks(old(adapter.log)) + [held, held];
    return Ok((Observation(world.worldId, condition, budget, target.value, nonTarget.value),
               Evaluation(world.worldId, condition, budget, RankOf(target.value, documents[oracle.targetMemoryId]),
                          RankOf(nonTarget.value, documents[oracle.nonTargetMemoryId]))));
  }

  // ----- one condition -----

  /** `pool[:budget]`, saturating as Python slices do. */
  function Taken(pool: seq<CampaignMemory>, budget: nat): seq<CampaignMemory> {
    if budget <= |pool| then pool[..budget] else pool
  }

  /** `pool[previous:budget]` */
  function Between(pool: seq<CampaignMemory>, previous: nat, budget: nat): seq<CampaignMemory> {
    var taken := Taken(pool, budget);
    if previous <= |taken| then taken[previous..] else []
  }

  predicate Rising(checkpoints: seq<nat>) {
    forall i, j | 0 <= i < j < |checkpoints| :: checkpoints[i] <= checkpoints[j]
  }

  /** What the dataset must hold at each checkpoint's two retrievals: the sources, then the pool up to the budget. */
  function ExpectedStocks(sources: seq<CampaignMemory>, pool: seq<CampaignMemory>, checkpoints: seq<nat>): seq<seq<CampaignMemory>> {
    if checkpoints == [] then []
    else
      var held := sources + Taken(pool, Last(checkpoints));
      ExpectedStocks(sources, pool, Front(checkpoints)) + [held, held]
  }

  lemma ExpectedExtends(sources: seq<CampaignMemory>, pool: seq<CampaignMemory>, checkpoints: seq<nat>, i: nat)
    requires i < |checkpoints|
    ensures var held := sources + Taken(pool, checkpoints[i]);
            ExpectedStocks(sources, pool, checkpoints[..i + 1]) == ExpectedStocks(sources, pool, checkpoints[..i]) + [held, held]
  {
    hide Taken;
    assert Front(checkpoints[..i + 1]) == checkpoints[..i] && Last(checkpoints[..i + 1]) == checkpoints[i];
  }

  lemma BetweenExtends(pool: seq<CampaignMemory>, previous: nat, budget: nat)
    requires previous <= budget
    ensures Taken(pool, previous) + Between(pool, previous, budget) == Taken(pool, budget)
  {
  }

  lemma LoggedCreate(log: seq<Event>, e: Event)
    requires Track(log) == Closed && e.BaseCreated?
    ensures Track(log + [e]) == (match e.created case Some(dataset) => Open(dataset) case None => Closed)
    ensures Stock(log + [e]) == [] && Stocks(log + [e]) == Stocks(log)
  {
    Logged(log, e);
  }

  lemma LoggedDelete(log: seq<Event>, dataset: string)
    requires Track(log) == Open(dataset)
    ensures Track(log + [BaseDeleted(dataset)]) == Closed && Stocks(log + [BaseDeleted(dataset)]) == Stocks(log)
  {
    Logged(log, BaseDeleted(dataset));
  }

  /** The records of a condition's checkpoints, against the retrievals made for them. */
  predicate ObservesAll(world: CampaignWorld, oracle: EvaluatorOracle, condition: string, checkpoints: seq<nat>, os: seq<Observation>,
                        es: seq<Evaluation>, asks: seq<Ask>)
  {
    && |os| == |es| == |checkpoints| && |asks| == 2 * |checkpoints|
    && forall i | 0 <= i < |checkpoints| ::
         Observes(world, oracle, condition, checkpoints[i], os[i], es[i], asks[2 * i], asks[2 * i + 1])
  }

  lemma ObservesOneMore(world: CampaignWorld, oracle: EvaluatorOracle, condition: string, checkpoints: seq<nat>, i: nat,
                        os: seq<Observation>, es: seq<Evaluation>, asks: seq<Ask>, o: Observation, e: Evaluation, first: Ask, second: Ask)
    requires i < |checkpoints| && ObservesAll(world, oracle, condition, checkpoints[..i], os, es, asks)
    requires Observes(world, oracle, condition, checkpoints[i], o, e, first, second)
    ensures ObservesAll(world, oracle, condition, checkpoints[..i + 1], os + [o], es + [e], asks + [first, second])
  {
    hide Observes;
    var all := asks + [first, second];
    forall j | 0 <= j < i + 1
      ensures Observes(world, oracle, condition, checkpoints[..i + 1][j], (os + [o])[j], (es + [e])[j], all[2 * j], all[2 * j + 1])
    {
      if j < i {
        assert checkpoints[..i][j] == checkpoints[..i + 1][j];
      }
    }
  }

  /** The retrievals a log has beyond an earlier one. */
  function Since(t: Target, earlier: seq<Event>, log: seq<Event>): seq<Ask> {
    var n := |Asks(t, earlier)|;
    if n <= |Asks(t, log)| then Asks(t, log)[n..] else []
  }

  /** The body of one condition, on its dataset. */
  method FillAndObserve(adapter: ExternalAdapter, world: CampaignWorld, oracle: EvaluatorOracle, dataset: string, condition: string,
                        pool: seq<CampaignMemory>, checkpoints: seq<nat>)
    returns (r: Result<(seq<Observation>, seq<Evaluation>), CampaignError>)
    requires Track(adapter.log) == Open(dataset) && Stock(adapter.log) == [] && Rising(checkpoints)
    requires Catalogue(adapter.target, adapter.log) == map[]
    modifies adapter`log
    ensures Track(adapter.log) == Open(dataset)
    ensures r.Ok? ==>
              && Stocks(adapter.log) == Stocks(old(adapter.log)) + ExpectedStocks(world.sources, pool, checkpoints)
              && ObservesAll(world, oracle, condition, checkpoints, r.value.0, r.value.1,
                          Since(adapter.target, old(adapter.log), adapter.log))
    ensures old(adapter.log) <= adapter.log && Asks(adapter.target, old(adapter.log)) <= Asks(adapter.target, adapter.log)
    ensures r.Err? ==> r.error.Transport? || r.error == UnknownMemory || r.error == NoSegments
  {
    hide Track, Stock, Stocks, Asks, Catalogue, Taken, Between, ExpectedStocks, IdsOf, Observes, ObservesAll;
    var documents :- Ingest(adapter, dataset, world.sources);
    var observations: seq<Observation>, evaluations: seq<Evaluation> := [], [];
    var previous := 0;
    ghost var start, asks: seq<Ask> := Asks(adapter.target, old(adapter.log)), [];
    assert map[] + documents == documents && start + asks == start;
    NothingObserved(world, oracle, condition, checkpoints);
    assert [] + world.sources == world.sources && world.sources + Taken(pool, 0) == world.sources by { NothingTaken(pool); }
    assert ExpectedStocks(world.sources, pool, checkpoints[..0]) == [] by { NothingExpected(world.sources, pool, checkpoints); }
    for i := 0 to |checkpoints|
      invariant Track(adapter.log) == Open(dataset)
      invariant |observations| == |evaluations| == i
      invariant old(adapter.log) <= adapter.log && Catalogue(adapter.target, adapter.log) == documents
      invariant Asks(adapter.target, adapter.log) == start + asks
      invariant ObservesAll(world, oracle, condition, checkpoints[..i], observations, evaluations, asks)
      invariant previous == (if i == 0 then 0 else checkpoints[i - 1])
      invariant Stock(adapter.log) == world.sources + Taken(pool, previous)
      invariant Stocks(adapter.log) == Stocks(old(adapter.log)) + ExpectedStocks(world.sources, pool, checkpoints[..i])
    {
      var budget := checkpoints[i];
      BetweenExtends(pool, previous, budget);
      var added :- Ingest(adapter, dataset, Between(pool, previous, budget));
      documents := documents + added;
      var observed :- Observe(adapter, world, oracle, dataset, condition, budget, documents);
      ghost var first := Ask(world.targetQuery, documents, Ok(observed.0.target));
      ghost var second := Ask(world.nonTargetQuery, documents, Ok(observed.0.nonTarget));
      ObservesOneMore(world, oracle, condition, checkpoints, i, observations, evaluations, asks, observed.0, observed.1, first, second);
      assert start + asks + [first, second] == start + (asks + [first, second]);
      asks := asks + [first, second];
      observations := observations + [observed.0];
      evaluations := evaluations + [observed.1];
      ExpectedExtends(world.sources, pool, checkpoints, i);
      previous := budget;
    }
    assert checkpoints[..|checkpoints|] == checkpoints;
    ghost var before := adapter.log;
    var inspected := adapter.InspectKnowledgeBase(dataset);
    LoggedCall(before, Last(adapter.log), dataset);
    LoggedAsk(adapter.target, before, Last(adapter.log));
    assert start + asks + [] == start + asks && (start + asks)[|start|..] == asks;
    if inspected.Err? { return Err(inspected.error); }
    return Ok((observations, evaluations));
  }

  lemma NothingObserved(world: CampaignWorld, oracle: EvaluatorOracle, condition: string, checkpoints: seq<nat>)
    ensures ObservesAll(world, oracle, condition, checkpoints[..0], [], [], [])
  {
  }

  lemma NothingExpected(sources: seq<CampaignMemory>, pool: seq<CampaignMemory>, checkpoints: seq<nat>)
    ensures ExpectedStocks(sources, pool, checkpoints[..0]) == []
  {
  }

  lemma NothingTaken(pool: seq<CampaignMemory>)
    ensures Taken(pool, 0) == []
  {
  }

  lemma ClosedKeeps(t: Target, log: seq<Event>, e: Event)
    requires e.BaseCreated? || e.BaseDeleted?
    ensures Asks(t, log + [e]) == Asks(t, log)
    ensures e.BaseCreated? ==> Catalogue(t, log + [e]) == map[]
  {
    Logged(log, e);
  }

  /**
   One condition: whatever happens in between, the dataset it creates, under the world's and the
   condition's names, is deleted once; a failing deletion decides the outcome.
   */
  method RunCondition(adapter: ExternalAdapter, world: CampaignWorld, oracle: EvaluatorOracle, condition: string,
                      pool: seq<CampaignMemory>, checkpoints: seq<nat>)
    returns (r: Result<(seq<Observation>, seq<Evaluation>), CampaignError>)
    requires Track(adapter.log) == Closed && Rising(checkpoints)
    modifies adapter`log
    ensures Track(adapter.log) == Closed && old(adapter.log) < adapter.log
    ensures var created := adapter.log[|old(adapter.log)|];
            created.BaseCreated? && created.name == world.worldId + "-" + condition
    ensures Asks(adapter.target, old(adapter.log)) <= Asks(adapter.target, adapter.log)
    ensures r.Ok? ==>
              && Stocks(adapter.log) == Stocks(old(adapter.log)) + ExpectedStocks(world.sources, pool, checkpoints)
              && ObservesAll(world, oracle, condition, checkpoints, r.value.0, r.value.1,
                             Since(adapter.target, old(adapter.log), adapter.log))
    ensures r.Err? ==> r.error.Transport? || r.error == UnknownMemory || r.error == NoSegments
  {
    hide Track, Stock, Stocks, Asks, Catalogue, ExpectedStocks, ObservesAll;
    ghost var before := adapter.log;
    var created := adapter.CreateKnowledgeBase(world.worldId + "-" + condition);
    LoggedCreate(before, Last(adapter.log));
    ClosedKeeps(adapter.target, before, Last(adapter.log));
    if created.Err? { return Err(created.error); }
    r := FillAndObserve(adapter, world, oracle, created.value, condition, pool, checkpoints);
    before := adapter.log;
    var deleted := adapter.DeleteKnowledgeBase(created.value);
    LoggedDelete(before, created.value);
    ClosedKeeps(adapter.target, before, Last(adapter.log));
    if deleted.Err? { return Err(deleted.error); }
  }

  // ----- one world -----

  const NO_BUDGETS: seq<nat> := [0]
  const BUDGETS: seq<nat> := [5, 10, 15, 20, 25]

  /** What the datasets hold at a world's retrievals: the sources alone, then either pool in steps of five. */
  function WorldStocks(world: CampaignWorld): seq<seq<CampaignMemory>> {
    ExpectedStocks(world.sources, [], NO_BUDGETS) + ExpectedStocks(world.sources, world.benign, BUDGETS)
    + ExpectedStocks(world.sources, world.targeted, BUDGETS)
  }

  lemma {:induction false} ExpectedCount(sources: seq<CampaignMemory>, pool: seq<CampaignMemory>, checkpoints: seq<nat>)
    ensures |ExpectedStocks(sources, pool, checkpoints)| == 2 * |checkpoints|
  {
    if checkpoints != [] {
      ExpectedCount(sources, pool, Front(checkpoints));
    }
  }

  /** Each dataset holds the two sources, then exactly the first memories of its pool, as many as the budget says. */
  lemma {:induction false} StocksByBudget(sources: seq<CampaignMemory>, pool: seq<CampaignMemory>, checkpoints: seq<nat>, i: nat)
    requires i < |checkpoints| && checkpoints[i] <= |pool|
    ensures |ExpectedStocks(sources, pool, checkpoints)| == 2 * |checkpoints|
    ensures ExpectedStocks(sources, pool, checkpoints)[2 * i] == sources + pool[..checkpoints[i]]
    ensures ExpectedStocks(sources, pool, checkpoints)[2 * i + 1] == sources + pool[..checkpoints[i]]
  {
    ExpectedCount(sources, pool, checkpoints);
    ExpectedCount(sources, pool, Front(checkpoints));
    if i < |checkpoints| - 1 {
      StocksByBudget(sources, pool, Front(checkpoints), i);
    }
  }

  lemma WorldRetrievals(world: CampaignWorld)
    ensures |WorldStocks(world)| == 22
  {
    ExpectedCount(world.sources, [], NO_BUDGETS);
    ExpectedCount(world.sources, world.benign, BUDGETS);
    ExpectedCount(world.sources, world.targeted, BUDGETS);
  }

  /** A world's eleven records, against its twenty-two retrievals: the baseline's, then either pool's. */
  predicate WorldObserved(world: CampaignWorld, oracle: EvaluatorOracle, os: seq<Observation>, es: seq<Evaluation>, asks: seq<Ask>) {
    && |os| == |es| == 11 && |asks| == 22
    && ObservesAll(world, oracle, "baseline", NO_BUDGETS, os[..1], es[..1], asks[..2])
    && ObservesAll(world, oracle, "benign", BUDGETS, os[1..6], es[1..6], asks[2..12])
    && ObservesAll(world, oracle, "targeted", BUDGETS, os[6..], es[6..], asks[12..])
  }

  lemma ThreeConditions(world: CampaignWorld, oracle: EvaluatorOracle, a: (seq<Observation>, seq<Evaluation>), x: seq<Ask>,
                        b: (seq<Observation>, seq<Evaluation>), y: seq<Ask>, c: (seq<Observation>, seq<Evaluation>), z: seq<Ask>)
    requires ObservesAll(world, oracle, "baseline", NO_BUDGETS, a.0, a.1, x)
    requires ObservesAll(world, oracle, "benign", BUDGETS, b.0, b.1, y)
    requires ObservesAll(world, oracle, "targeted", BUDGETS, c.0, c.1, z)
    ensures WorldObserved(world, oracle, a.0 + b.0 + c.0, a.1 + b.1 + c.1, x + y + z)
  {
    hide Observes;
    var os, es, asks := a.0 + b.0 + c.0, a.1 + b.1 + c.1, x + y + z;
    assert |a.0| == 1 && |b.0| == 5 && |c.0| == 5 && |x| == 2 && |y| == 10 && |z| == 10;
    assert os[..1] == a.0 && os[1..6] == b.0 && os[6..] == c.0;
    assert es[..1] == a.1 && es[1..6] == b.1 && es[6..] == c.1;
    assert asks[..2] == x && asks[2..12] == y && asks[12..] == z;
  }

  lemma SinceInTurn(t: Target, first: seq<Event>, second: seq<Event>, third: seq<Event>)
    requires Asks(t, first) <= Asks(t, second) <= Asks(t, third)
    ensures Since(t, first, third) == Since(t, first, second) + Since(t, second, third)
  {
    hide Asks;
  }

  /** `_run_world`: a completed world yields eleven records from twenty-two retrievals. */
  method RunWorld(adapter: ExternalAdapter, world: CampaignWorld, oracle: EvaluatorOracle)
    returns (r: Result<(seq<Observation>, seq<Evaluation>), CampaignError>)
    requires Track(adapter.log) == Closed
    modifies adapter`log
    ensures Track(adapter.log) == Closed
    ensures old(adapter.log) <= adapter.log && Asks(adapter.target, old(adapter.log)) <= Asks(adapter.target, adapter.log)
    ensures r.Ok? ==>
              && WorldObserved(world, oracle, r.value.0, r.value.1, Since(adapter.target, old(adapter.log), adapter.log))
              && Stocks(adapter.log) == Stocks(old(adapter.log)) + WorldStocks(world) && |WorldStocks(world)| == 22
    ensures oracle.worldId != world.worldId <==> r == Err(WrongOracle)
    ensures r == Err(WrongOracle) ==> adapter.log == old(adapter.log)
    ensures r.Err? ==> r.error.Transport? || r.error in {UnknownMemory, NoSegments, WrongOracle}
  {
    hide Track, Stock, Stocks, Asks, Catalogue, ExpectedStocks, ObservesAll, WorldObserved, Since;
    if oracle.worldId != world.worldId {
      return Err(WrongOracle);
    }
    WorldRetrievals(world);
    ghost var t, before := adapter.target, adapter.log;
    var baseline :- RunCondition(adapter, world, oracle, "baseline", [], NO_BUDGETS);
    ghost var after1 := adapter.log;
    var benign :- RunCondition(adapter, world, oracle, "benign", world.benign, BUDGETS);
    ghost var after2 := adapter.log;
    var targeted :- RunCondition(adapter, world, oracle, "targeted", world.targeted, BUDGETS);
    SinceInTurn(t, before, after1, after2);
    SinceInTurn(t, before, after2, adapter.log);
    ThreeConditions(world, oracle, baseline, Since(t, before, after1), benign, Since(t, after1, after2), targeted,
                    Since(t, after2, adapter.log));
    return Ok((baseline.0 + benign.0 + targeted.0, baseline.1 + benign.1 + targeted.1));
  }

  // ----- the campaign -----

  datatype Manifest = Manifest(worldCount: nat, observationsPerWorld: nat, totalObservations: nat, validationOnly: bool)

  const E1_WORLD_COUNT := 330
  const E1_OBSERVATIONS_PER_WORLD := 22
  const E1_TOTAL_OBSERVATIONS := 7260

  /** `validate_e1_geometry` does not raise. */
  predicate GeometryAccepted(m: Manifest) {
    m.validationOnly
    || (m.worldCount == E1_WORLD_COUNT && m.observationsPerWorld == E1_OBSERVATIONS_PER_WORLD
        && m.totalObservations == E1_TOTAL_OBSERVATIONS)
  }

  datatype Phase = RUNNING | COMPLETED | CANCELLED | FAILED

  datatype Checkpoint = Checkpoint(phase: Phase, nextWorldIndex: nat, observationCount: nat)

  datatype Deviation = Deviation(phase: Phase, code: string, observationCount: nat)

  /** What a caught exception is recorded as; the others escape unrecorded. */
  function DeviationFor(error: CampaignError, observations: nat): Option<Deviation> {
    match error
    case Transport(code) => Some(Deviation(if code == "cancelled" then CANCELLED else FAILED, code, 2 * observations))
    case NoSegments => None
    case UnknownMemory => None
    case _ => Some(Deviation(FAILED, "campaign_failed", 2 * observations))
  }

  /** The stocks of the first worlds' retrievals. */
  function CampaignStocks(worlds: seq<CampaignWorld>): seq<seq<CampaignMemory>> {
    if worlds == [] then [] else CampaignStocks(Front(worlds)) + WorldStocks(Last(worlds))
  }

  /** The retained checkpoints of the worlds begun so far: checkpoint i records twenty-two observations for each world before it. */
  predicate RunningCheckpoints(checkpoints: seq<Checkpoint>) {
    forall i | 0 <= i < |checkpoints| :: checkpoints[i] == Checkpoint(RUNNING, i, 22 * i)
  }

  /** The records of the first worlds, against their retrievals. */
  predicate WorldsObserved(worlds: seq<CampaignWorld>, oracles: seq<EvaluatorOracle>, os: seq<Observation>, es: seq<Evaluation>,
                           asks: seq<Ask>)
    requires |worlds| <= |oracles|
  {
    && |os| == |es| == 11 * |worlds| && |asks| == 22 * |worlds|
    && forall i | 0 <= i < |worlds| ::
         WorldObserved(worlds[i], oracles[i], os[11 * i..11 * i + 11], es[11 * i..11 * i + 11], asks[22 * i..22 * i + 22])
  }

  lemma NoWorldObserved(worlds: seq<CampaignWorld>, oracles: seq<EvaluatorOracle>)
    ensures WorldsObserved(worlds[..0], oracles, [], [], [])
  {
  }

  lemma OneMoreWorld(worlds: seq<CampaignWorld>, oracles: seq<EvaluatorOracle>, i: nat, os: seq<Observation>, es: seq<Evaluation>,
                     asks: seq<Ask>, o: seq<Observation>, e: seq<Evaluation>, more: seq<Ask>)
    requires i < |worlds| <= |oracles| && WorldsObserved(worlds[..i], oracles, os, es, asks)
    requires WorldObserved(worlds[i], oracles[i], o, e, more)
    ensures WorldsObserved(worlds[..i + 1], oracles, os + o, es + e, asks + more)
  {
    assert |o| == |e| == 11 && |more| == 22;
    hide WorldObserved;
    forall j | 0 <= j < i + 1
      ensures WorldObserved(worlds[..i + 1][j], oracles[j], (os + o)[11 * j..11 * j + 11], (es + e)[11 * j..11 * j + 11],
                            (asks + more)[22 * j..22 * j + 22])
    {
      if j < i {
        assert worlds[..i][j] == worlds[..i + 1][j];
        assert (os + o)[11 * j..11 * j + 11] == os[11 * j..11 * j + 11];
        assert (es + e)[11 * j..11 * j + 11] == es[11 * j..11 * j + 11];
        assert (asks + more)[22 * j..22 * j + 22] == asks[22 * j..22 * j + 22];
      } else {
        assert (os + o)[11 * j..11 * j + 11] == o && (es + e)[11 * j..11 * j + 11] == e && (asks + more)[22 * j..22 * j + 22] == more;
      }
    }
  }

  lemma NothingSince(t: Target, log: seq<Event>)
    ensures Since(t, log, log) == []
  {
    hide Asks;
  }

  lemma CountsOf(world: CampaignWorld, oracle: EvaluatorOracle, os: seq<Observation>, es: seq<Evaluation>, asks: seq<Ask>)
    requires WorldObserved(world, oracle, os, es, asks)
    ensures |os| == |es| == 11
  {
    hide ObservesAll;
  }

  /** The loop over the worlds. */
  method RunWorlds(adapter: ExternalAdapter, worlds: seq<CampaignWorld>, oracles: seq<EvaluatorOracle>, cancelRequested: nat -> bool)
    returns (error: Option<CampaignError>, observations: seq<Observation>, evaluations: seq<Evaluation>, checkpoints: seq<Checkpoint>)
    requires |worlds| == |oracles| && Track(adapter.log) == Closed
    modifies adapter`log
    ensures Track(adapter.log) == Closed && RunningCheckpoints(checkpoints)
    ensures exists done: nat :: && done <= |worlds| && |observations| == |evaluations| == 11 * done
                                && done <= |checkpoints| <= done + 1 && (error.None? ==> done == |worlds|)
    ensures error.None? ==> |checkpoints| == |worlds| && Stocks(adapter.log) == Stocks(old(adapter.log)) + CampaignStocks(worlds)
    ensures error.None? ==>
              WorldsObserved(worlds, oracles, observations, evaluations, Since(adapter.target, old(adapter.log), adapter.log))
    ensures error.Some? ==> error.value.Transport? || error.value in {UnknownMemory, NoSegments, WrongOracle}
  {
    hide Track, Stock, Stocks, Asks, Catalogue, WorldStocks, WorldObserved, WorldsObserved, Since;
    observations, evaluations, checkpoints := [], [], [];
    assert Stocks(adapter.log) + CampaignStocks([]) == Stocks(adapter.log);
    ghost var t, start := adapter.target, adapter.log;
    NoWorldObserved(worlds, oracles);
    NothingSince(t, start);
    for i := 0 to |worlds|
      invariant Track(adapter.log) == Closed && RunningCheckpoints(checkpoints) && |checkpoints| == i
      invariant |observations| == |evaluations| == 11 * i
      invariant Asks(t, start) <= Asks(t, adapter.log)
      invariant WorldsObserved(worlds[..i], oracles, observations, evaluations, Since(t, start, adapter.log))
      invariant Stocks(adapter.log) == Stocks(old(adapter.log)) + CampaignStocks(worlds[..i])
    {
      if cancelRequested(i) {
        return Some(Transport("cancelled")), observations, evaluations, checkpoints;
      }
      checkpoints := checkpoints + [Checkpoint(RUNNING, i, 2 * |observations|)];
      ghost var before := adapter.log;
      var ran := RunWorld(adapter, worlds[i], oracles[i]);
      if ran.Err? {
        return Some(ran.error), observations, evaluations, checkpoints;
      }
      SinceInTurn(t, start, before, adapter.log);
      OneMoreWorld(worlds, oracles, i, observations, evaluations, Since(t, start, before), ran.value.0, ran.value.1,
                   Since(t, before, adapter.log));
      CountsOf(worlds[i], oracles[i], ran.value.0, ran.value.1, Since(t, before, adapter.log));
      observations := observations + ran.value.0;
      evaluations := evaluations + ran.value.1;
      assert Front(worlds[..i + 1]) == worlds[..i] && Last(worlds[..i + 1]) == worlds[i];
    }
    assert worlds[..|worlds|] == worlds;
    return None, observations, evaluations, checkpoints;
  }

  /** What `execute` refuses before it touches the target. */
  predicate Refused(authorized: bool, manifest: Manifest, worldCount: nat, oracleCount: nat) {
    !authorized || manifest.validationOnly || !GeometryAccepted(manifest)
    || worldCount != manifest.worldCount || oracleCount != manifest.worldCount
  }

  datatype Conclusion = Conclusion(outcome: Result<nat, CampaignError>, checkpoints: seq<Checkpoint>, deviation: Option<Deviation>)

  /** `execute`, up to the evidence bundle a completed campaign writes. */
  method Execute(adapter: ExternalAdapter, authorized: bool, manifest: Manifest, worlds: seq<CampaignWorld>,
                 oracles: seq<EvaluatorOracle>, cancelRequested: nat -> bool)
    returns (c: Conclusion)
    requires Track(adapter.log) == Closed
    modifies adapter`log
    ensures Track(adapter.log) == Closed
    ensures c.outcome != Err(CountMismatch)
    ensures c.outcome.Ok? ==>
              && c.outcome.value == manifest.totalObservations == 22 * |worlds| == 7260
              && Stocks(adapter.log) == Stocks(old(adapter.log)) + CampaignStocks(worlds)
              && c.deviation.None? && |c.checkpoints| == |worlds| + 1 && RunningCheckpoints(Front(c.checkpoints))
              && Last(c.checkpoints) == Checkpoint(COMPLETED, |worlds|, 7260)
    ensures c.outcome.Err? ==> RunningCheckpoints(c.checkpoints)
    ensures Refused(authorized, manifest, |worlds|, |oracles|) <==>
              c.outcome.Err? && c.outcome.error in {NotAuthorized, ValidationOnly, WrongGeometry, WrongInputCount}
    ensures Refused(authorized, manifest, |worlds|, |oracles|) ==>
              adapter.log == old(adapter.log) && c.checkpoints == [] && c.deviation.None?
    ensures c.deviation.Some? <==> c.outcome.Err? && (c.outcome.error.Transport? || c.outcome.error == WrongOracle)
    ensures c.deviation.Some? ==>
              && c.deviation.value.code == (if c.outcome.error.Transport? then c.outcome.error.code else "campaign_failed")
              && c.deviation.value.phase == (if c.outcome.error == Transport("cancelled") then CANCELLED else FAILED)
              && c.deviation.value.observationCount in {22 * |c.checkpoints|, 22 * (|c.checkpoints| - 1)}
  {
    hide Track, Stock, Stocks, CampaignStocks;
    if !authorized { return Conclusion(Err(NotAuthorized), [], None); }
    if manifest.validationOnly { return Conclusion(Err(ValidationOnly), [], None); }
    if !GeometryAccepted(manifest) { return Conclusion(Err(WrongGeometry), [], None); }
    if |worlds| != manifest.worldCount || |oracles| != manifest.worldCount { return Conclusion(Err(WrongInputCount), [], None); }
    var error, observations, evaluations, checkpoints := RunWorlds(adapter, worlds, oracles, cancelRequested);
    if error.Some? {
      return Conclusion(Err(error.value), checkpoints, DeviationFor(error.value, |observations|));
    }
    var count := 2 * |observations|;
    if count != manifest.totalObservations {
      assert false;
    }
    assert Front(checkpoints + [Checkpoint(COMPLETED, |worlds|, count)]) == checkpoints;
    return Conclusion(Ok(count), checkpoints + [Checkpoint(COMPLETED, |worlds|, count)], None);
  }

  /** However the target behaves, each dataset a campaign creates gets exactly one deletion attempt, in step with its creation. */
  lemma EveryDatasetDeletedOnce(log: seq<Event>, n: nat, dataset: string)
    requires Track(log) == Closed && n <= |log|
    ensures Creations(log, dataset) == Deletions(log, dataset)
    ensures Deletions(log[..n], dataset) <= Creations(log[..n], dataset) <= Deletions(log[..n], dataset) + 1
  {
    TrackedIsBalanced(log, dataset);
    PrefixIsTracked(log, n);
    TrackedIsBalanced(log[..n], dataset);
  }
}
