/** What the reference ranking means (adapters/reference.py), said without its scores or its sort. */
module Ranking {
  import opened Basics
  import opened Json
  import opened Text
  import opened Models
  import opened Trace
  import opened ReferenceMemory
  import opened Retrievals
  import opened PolicyRefinement
  import opened Runs

  /** How many of the query's tokens the memory shares. */
  function Overlap(p: Platform, q: RetrievalQuery, m: MemoryRecord): nat {
    |Tokens(p.casefold(q.text)) * Tokens(p.casefold(m.content))|
  }

  /** Who may see a memory: it is current, of the query's tenant, lists the principal, and is valid at the time. */
  predicate Authorized(q: RetrievalQuery, time: int, m: MemoryRecord) {
    && m.state == CURRENT
    && m.tenantId == q.tenantId
    && q.principalId in m.accessPolicy
    && m.logicalValidFrom <= time
    && (m.logicalValidUntil.Some? ==> time < m.logicalValidUntil.value)
  }

  /** The memory may be shown to the querying principal now, and shares a token with the query. */
  predicate Matches(p: Platform, q: RetrievalQuery, time: int, m: MemoryRecord) {
    Authorized(q, time, m) && Overlap(p, q, m) > 0
  }

  lemma RetrievableIffAuthorized(q: RetrievalQuery, time: int, m: MemoryRecord)
    ensures IsRetrievable(m, q, time) <==> Authorized(q, time, m)
  {
  }

  /** More shared tokens first; ties by identifier. */
  predicate RanksBefore(p: Platform, q: RetrievalQuery, m: MemoryRecord, n: MemoryRecord) {
    Overlap(p, q, m) > Overlap(p, q, n) || (Overlap(p, q, m) == Overlap(p, q, n) && StrLess(m.memoryId, n.memoryId))
  }

  /** The score is the overlap over the number of query tokens, or zero when there is none. */
  lemma ScoreIsOverlap(p: Platform, q: RetrievalQuery, m: MemoryRecord)
    ensures var score, size := Score(p, q.text, m.content), |Tokens(p.casefold(q.text))|;
            && (score > 0.0 <==> Overlap(p, q, m) > 0)
            && (Overlap(p, q, m) > 0 ==> size > 0 && score * size as real == Overlap(p, q, m) as real)
  {
    hide Tokens;
    var x, y := Tokens(p.casefold(q.text)), Tokens(p.casefold(m.content));
    if x == {} || y == {} {
      assert x * y == {};
    } else {
      SizePositive(x);
      Ratio(|x * y|, |x|);
    }
  }

  lemma SizePositive(x: set<string>)
    requires x != {}
    ensures |x| > 0
  {
  }

  lemma Ratio(k: nat, n: nat)
    requires n > 0
    ensures (k as real / n as real) * n as real == k as real
    ensures k as real / n as real > 0.0 <==> k > 0
  {
    var r := k as real / n as real;
    assert r * n as real == k as real;
  }

  /** Each scored entry is a matching memory with its score, and every matching memory is scored. */
  lemma {:induction false} ScoredAreMatches(p: Platform, memories: seq<MemoryRecord>, q: RetrievalQuery, time: int, x: Scored)
    ensures x in ScoreAll(p, memories, q, time) <==>
            exists i :: 0 <= i < |memories| && Matches(p, q, time, memories[i])
                        && x == Scored(Score(p, q.text, memories[i].content), memories[i].memoryId)
  {
    hide Score, Overlap, IsRetrievable, Authorized;
    if memories != [] {
      var n := |memories| - 1;
      ScoredAreMatches(p, Front(memories), q, time, x);
      ScoreIsOverlap(p, q, memories[n]);
      RetrievableIffAuthorized(q, time, memories[n]);
      if x in ScoreAll(p, Front(memories), q, time) {
        var i :| 0 <= i < n && Matches(p, q, time, Front(memories)[i])
                 && x == Scored(Score(p, q.text, Front(memories)[i].content), Front(memories)[i].memoryId);
        assert Matches(p, q, time, memories[i]) && x == Scored(Score(p, q.text, memories[i].content), memories[i].memoryId);
      }
      if i :| 0 <= i < |memories| && Matches(p, q, time, memories[i])
              && x == Scored(Score(p, q.text, memories[i].content), memories[i].memoryId) {
        if i < n {
          assert Matches(p, q, time, Front(memories)[i]);
          assert x == Scored(Score(p, q.text, Front(memories)[i].content), Front(memories)[i].memoryId);
        } else {
          assert Matches(p, q, time, memories[n]);
        }
      }
      assert x in ScoreAll(p, memories, q, time) <==>
             x in ScoreAll(p, Front(memories), q, time)
             || (Matches(p, q, time, memories[n]) && x == Scored(Score(p, q.text, memories[n].content), memories[n].memoryId));
    }
  }

  predicate DistinctIds(xs: seq<Scored>) {
    forall i, j | 0 <= i < j < |xs| :: xs[i].memoryId != xs[j].memoryId
  }

  lemma {:induction false} ScoredIdsDistinct(p: Platform, memories: seq<MemoryRecord>, q: RetrievalQuery, time: int)
    requires Distinct(MemoryIds(memories))
    ensures DistinctIds(ScoreAll(p, memories, q, time))
  {
    hide Score, IsRetrievable, Matches, Overlap;
    if memories != [] {
      var n, front := |memories| - 1, ScoreAll(p, Front(memories), q, time);
      assert MemoryIds(Front(memories)) == MemoryIds(memories)[..n];
      ScoredIdsDistinct(p, Front(memories), q, time);
      forall k | 0 <= k < |front| ensures front[k].memoryId != memories[n].memoryId {
        ScoredAreMatches(p, Front(memories), q, time, front[k]);
        assert front[k] in front;
        var i :| 0 <= i < n && front[k] == Scored(Score(p, q.text, Front(memories)[i].content), Front(memories)[i].memoryId);
        assert MemoryIds(memories)[i] == memories[i].memoryId && MemoryIds(memories)[n] == memories[n].memoryId;
      }
    }
  }

  lemma CountsTwice(xs: seq<Scored>, i: nat, j: nat)
    requires i < j < |xs| && xs[i] == xs[j]
    ensures multiset(xs)[xs[i]] >= 2
  {
    var a, b := xs[..j], xs[j..];
    assert xs == a + b && a[i] == xs[i] && b[0] == xs[i];
    assert multiset(a)[xs[i]] >= 1 && multiset(b)[xs[i]] >= 1;
  }

  lemma {:induction false} CountsOnce(xs: seq<Scored>, x: Scored)
    requires DistinctIds(xs)
    ensures multiset(xs)[x] <= 1
  {
    if xs != [] {
      CountsOnce(Front(xs), x);
      assert xs == Front(xs) + [Last(xs)];
      assert forall y <- Front(xs) :: y != Last(xs);
    }
  }

  /** Sorting keeps identifiers distinct. */
  lemma SortedIdsDistinct(xs: seq<Scored>, ys: seq<Scored>)
    requires DistinctIds(xs) && multiset(ys) == multiset(xs)
    ensures DistinctIds(ys)
  {
    forall i, j | 0 <= i < j < |ys| ensures ys[i].memoryId != ys[j].memoryId {
      assert ys[i] in multiset(ys) && ys[j] in multiset(ys);
      var a :| 0 <= a < |xs| && xs[a] == ys[i];
      var b :| 0 <= b < |xs| && xs[b] == ys[j];
      if a == b {
        CountsTwice(ys, i, j);
        CountsOnce(xs, ys[i]);
      }
    }
  }

  lemma OverlapOrder(p: Platform, q: RetrievalQuery, m: MemoryRecord, n: MemoryRecord)
    requires Overlap(p, q, m) > 0 && Overlap(p, q, n) > 0 && m.memoryId != n.memoryId
    requires !Before(None, Scored(Score(p, q.text, n.content), n.memoryId), Scored(Score(p, q.text, m.content), m.memoryId))
    ensures RanksBefore(p, q, m, n)
  {
    hide Score, Overlap, Tokens, StrLess;
    ScoreIsOverlap(p, q, m);
    ScoreIsOverlap(p, q, n);
    SameOrder(Score(p, q.text, m.content), Score(p, q.text, n.content), |Tokens(p.casefold(q.text))| as real,
              Overlap(p, q, m), Overlap(p, q, n));
    StrLessTrichotomy(m.memoryId, n.memoryId);
  }

  lemma SameOrder(x: real, y: real, n: real, a: nat, b: nat)
    requires n > 0.0 && x * n == a as real && y * n == b as real
    ensures (x > y ==> a > b) && (x == y ==> a == b)
  {
    if x > y {
      assert (x - y) * n == x * n - y * n;
      assert (x - y) * n > 0.0;
    }
  }

  /** The order of two entries of the ranking, in terms of the memories they are of. */
  lemma EntriesInOrder(p: Platform, memories: seq<MemoryRecord>, q: RetrievalQuery, time: int, i: nat, j: nat, a: nat, b: nat)
    requires Distinct(MemoryIds(memories)) && a < |memories| && b < |memories|
    requires var ranking := Sorted(None, ScoreAll(p, memories, q, time));
             i < j < |ranking| && memories[a].memoryId == ranking[i].memoryId && memories[b].memoryId == ranking[j].memoryId
    ensures RanksBefore(p, q, memories[a], memories[b])
  {
    hide ScoreAll, Sorted, Score, Overlap, IsRetrievable, Before, RanksBefore;
    var scored := ScoreAll(p, memories, q, time);
    var ranking := Sorted(None, scored);
    SortedIsSorting(None, scored);
    ScoredIdsDistinct(p, memories, q, time);
    SortedIdsDistinct(scored, ranking);
    assert ranking[i] in multiset(ranking) && ranking[j] in multiset(ranking);
    ScoredIsOf(p, memories, q, time, ranking[i], a);
    ScoredIsOf(p, memories, q, time, ranking[j], b);
    OverlapOrder(p, q, memories[a], memories[b]);
  }

  /** The plain ranking lists exactly the memories that match the query, each once. */
  lemma RankingListsMatches(p: Platform, s: StateSnapshot, q: RetrievalQuery)
    ensures forall i | 0 <= i < |s.sourceMemories| ::
              Matches(p, q, s.logicalTime, s.sourceMemories[i]) <==> s.sourceMemories[i].memoryId in Ids(PlainRanking(p, s, q))
    ensures forall x <- PlainRanking(p, s, q) :: x.memoryId in MemoryIds(s.sourceMemories)
    ensures DistinctIds(PlainRanking(p, s, q))
  {
    hide ScoreAll, Sorted, Score, Overlap, IsRetrievable, Before, Matches, Distinct, Ids;
    var memories, time := s.sourceMemories, s.logicalTime;
    var ranking := Sorted(None, ScoreAll(p, memories, q, time));
    SortedIds(None, ScoreAll(p, memories, q, time));
    forall i | 0 <= i < |memories| ensures Matches(p, q, time, memories[i]) <==> memories[i].memoryId in Ids(ranking) {
      ListedIffMatches(p, memories, q, time, i);
    }
    RankedIdsKnown(p, memories, q, time);
  }

  /** And it lists them in order: those sharing more tokens first, ties by identifier. */
  lemma RankingIsByOverlap(p: Platform, s: StateSnapshot, q: RetrievalQuery, i: nat, j: nat, a: nat, b: nat)
    requires i < j < |PlainRanking(p, s, q)| && a < |s.sourceMemories| && b < |s.sourceMemories|
    requires s.sourceMemories[a].memoryId == PlainRanking(p, s, q)[i].memoryId
    requires s.sourceMemories[b].memoryId == PlainRanking(p, s, q)[j].memoryId
    ensures RanksBefore(p, q, s.sourceMemories[a], s.sourceMemories[b])
  {
    hide ScoreAll, Sorted, RanksBefore, Distinct;
    EntriesInOrder(p, s.sourceMemories, q, s.logicalTime, i, j, a, b);
  }

  lemma RankedIdsKnown(p: Platform, memories: seq<MemoryRecord>, q: RetrievalQuery, time: int)
    requires Distinct(MemoryIds(memories))
    ensures forall x <- Sorted(None, ScoreAll(p, memories, q, time)) :: x.memoryId in MemoryIds(memories)
    ensures DistinctIds(Sorted(None, ScoreAll(p, memories, q, time)))
  {
    hide ScoreAll, Sorted, Score, IsRetrievable, Before, Matches;
    var scored := ScoreAll(p, memories, q, time);
    var ranking := Sorted(None, scored);
    SortedIsSorting(None, scored);
    ScoredIdsDistinct(p, memories, q, time);
    SortedIdsDistinct(scored, ranking);
    forall x | x in ranking ensures x.memoryId in MemoryIds(memories) {
      assert x in multiset(ranking);
      ScoredAreMatches(p, memories, q, time, x);
      var i :| 0 <= i < |memories| && x == Scored(Score(p, q.text, memories[i].content), memories[i].memoryId);
      assert MemoryIds(memories)[i] == x.memoryId;
    }
  }

  lemma ListedIffMatches(p: Platform, memories: seq<MemoryRecord>, q: RetrievalQuery, time: int, i: nat)
    requires i < |memories| && Distinct(MemoryIds(memories))
    ensures Matches(p, q, time, memories[i]) <==> memories[i].memoryId in Ids(ScoreAll(p, memories, q, time))
  {
    hide ScoreAll, Score, Overlap, IsRetrievable;
    var scored := ScoreAll(p, memories, q, time);
    if Matches(p, q, time, memories[i]) {
      var x := Scored(Score(p, q.text, memories[i].content), memories[i].memoryId);
      ScoredAreMatches(p, memories, q, time, x);
      var k :| 0 <= k < |scored| && scored[k] == x;
      assert Ids(scored)[k] == memories[i].memoryId;
    }
    if memories[i].memoryId in Ids(scored) {
      var k :| 0 <= k < |scored| && scored[k].memoryId == memories[i].memoryId;
      assert scored[k] in scored;
      ScoredIsOf(p, memories, q, time, scored[k], i);
    }
  }

  /** With distinct identifiers, a scored entry is of the memory with its identifier. */
  lemma ScoredIsOf(p: Platform, memories: seq<MemoryRecord>, q: RetrievalQuery, time: int, x: Scored, a: nat)
    requires a < |memories| && Distinct(MemoryIds(memories)) && memories[a].memoryId == x.memoryId
    requires x in ScoreAll(p, memories, q, time)
    ensures Matches(p, q, time, memories[a]) && x == Scored(Score(p, q.text, memories[a].content), memories[a].memoryId)
  {
    hide ScoreAll, Score, Overlap, IsRetrievable;
    ScoredAreMatches(p, memories, q, time, x);
    var i :| 0 <= i < |memories| && Matches(p, q, time, memories[i])
             && x == Scored(Score(p, q.text, memories[i].content), memories[i].memoryId);
    assert MemoryIds(memories)[i] == memories[i].memoryId && MemoryIds(memories)[a] == memories[a].memoryId;
    assert i == a;
  }

  // ----- what any retrieval may return -----

  /** The probe's ranking, too, lists only scored memories. */
  lemma RankedAreScored(p: Platform, s: StateSnapshot, q: RetrievalQuery)
    requires Ranking(p, s, q).Ok?
    ensures forall x <- Ranking(p, s, q).value :: x in ScoreAll(p, s.sourceMemories, q, s.logicalTime)
  {
    hide ScoreAll, Sorted, Before, StrSetting, CounterOf;
    var scored := ScoreAll(p, s.sourceMemories, q, s.logicalTime);
    var plain := Sorted(None, scored);
    SortedAreOf(None, scored);
    forall preferred ensures forall x <- Sorted(preferred, plain) :: x in scored {
      SortedAreOf(preferred, plain);
    }
  }

  lemma SortedAreOf(preferred: Option<string>, xs: seq<Scored>)
    ensures forall x <- Sorted(preferred, xs) :: x in xs
  {
    hide Sorted, Before;
    SortedIsSorting(preferred, xs);
    forall x | x in Sorted(preferred, xs) ensures x in xs {
      assert x in multiset(Sorted(preferred, xs));
    }
  }

  lemma {:induction false} WithoutAreOf(xs: seq<Scored>, removed: set<string>)
    ensures forall x <- Without(xs, removed) :: x in xs && x.memoryId !in removed
  {
    if xs != [] {
      WithoutAreOf(xs[1..], removed);
    }
  }

  /** Why a hit on a memory may be returned at a time: every condition, spelled out. */
  predicate JustifiedBy(p: Platform, time: int, q: RetrievalQuery, hit: RetrievalHit, m: MemoryRecord) {
    && m.memoryId == hit.memoryId
    && m.state == CURRENT
    && m.tenantId == q.tenantId
    && q.principalId in m.accessPolicy
    && m.logicalValidFrom <= time
    && (m.logicalValidUntil.Some? ==> time < m.logicalValidUntil.value)
    && Overlap(p, q, m) > 0
    && hit.score * |Tokens(p.casefold(q.text))| as real == Overlap(p, q, m) as real
  }

  /** The hit is of one of the snapshot's memories, which justifies it. */
  predicate Justified(p: Platform, s: StateSnapshot, q: RetrievalQuery, hit: RetrievalHit) {
    exists m <- s.sourceMemories :: JustifiedBy(p, s.logicalTime, q, hit, m)
  }

  lemma MatchIsJustified(p: Platform, q: RetrievalQuery, time: int, m: MemoryRecord, rank: int)
    requires Matches(p, q, time, m)
    ensures JustifiedBy(p, time, q, RetrievalHit(m.memoryId, rank, Score(p, q.text, m.content)), m)
  {
    hide Score, Overlap, Tokens;
    ScoreIsOverlap(p, q, m);
  }

  lemma ScoredIsJustified(p: Platform, s: StateSnapshot, q: RetrievalQuery, x: Scored, rank: int)
    requires x in ScoreAll(p, s.sourceMemories, q, s.logicalTime)
    ensures Justified(p, s, q, RetrievalHit(x.memoryId, rank, x.score))
  {
    hide ScoreAll, Score, Matches, JustifiedBy;
    ScoredAreMatches(p, s.sourceMemories, q, s.logicalTime, x);
    var i :| 0 <= i < |s.sourceMemories| && Matches(p, q, s.logicalTime, s.sourceMemories[i])
             && x == Scored(Score(p, q.text, s.sourceMemories[i].content), s.sourceMemories[i].memoryId);
    MatchIsJustified(p, q, s.logicalTime, s.sourceMemories[i], rank);
  }

  lemma AnswersAreJustified(p: Platform, s: StateSnapshot, q: RetrievalQuery)
    requires AnswerFor(p, s, q).Ok?
    ensures WithinTopK(s, q)
    ensures var hits := AnswerFor(p, s, q).value.result.hits;
            |hits| <= q.topK && forall i | 0 <= i < |hits| :: hits[i].rank == i + 1 && Justified(p, s, q, hits[i])
  {
    hide Ranking, ScoreAll, SuppressedIds, ProtectedIds, Among, Justified, Without, WithinTopK;
    var scored := Ranking(p, s, q).value;
    var suppressed := SuppressedIds(s.derivedState).value;
    var removed := suppressed - ProtectedIds(s, scored, suppressed);
    var kept := Without(scored, removed);
    RankedAreScored(p, s, q);
    WithoutAreOf(scored, removed);
    var hits := Top(kept, q.topK);
    forall i | 0 <= i < |hits| ensures hits[i].rank == i + 1 && Justified(p, s, q, hits[i]) {
      assert kept[i] in kept;
      ScoredIsJustified(p, s, q, kept[i], i + 1);
    }
  }

  lemma OutcomeIsAnswer(p: Platform, a: AdapterState, q: RetrievalQuery)
    requires Retrieval(p, a, q).outcome.Ok?
    ensures AnswerFor(p, a.state, q).Ok? && Retrieval(p, a, q).outcome.value == AnswerFor(p, a.state, q).value.result
  {
    hide AnswerFor, Record, ReadSideUpdate, ReportSetChange, CompletedPayload;
  }

  /**
   Whatever was called before, under whatever policy: a retrieval that returns was within the policy's
   limit, returns no more hits than asked for, ranked from one, and every hit is of a source memory that is
   current, of the query's tenant, readable by its principal, valid now, and shares tokens with the query.
   */
  lemma EveryHitIsAuthorized(p: Platform, a: AdapterState, ops: seq<Op>, q: RetrievalQuery)
    requires Retrieval(p, Run(p, a, ops), q).outcome.Ok?
    ensures var s, hits := Run(p, a, ops).state, Retrieval(p, Run(p, a, ops), q).outcome.value.hits;
            && Get(s.policy.settings, "top_k").Int? && |hits| <= q.topK <= Get(s.policy.settings, "top_k").n
            && forall i | 0 <= i < |hits| :: hits[i].rank == i + 1 && Justified(p, s, q, hits[i])
  {
    hide Run, Retrieval, AnswerFor, Justified;
    OutcomeIsAnswer(p, Run(p, a, ops), q);
    AnswersAreJustified(p, Run(p, a, ops).state, q);
  }

  /** A query for more than the policy's limit raises, and moves nothing. */
  lemma TooManyIsRefused(p: Platform, a: AdapterState, q: RetrievalQuery)
    requires Get(a.state.policy.settings, "top_k").Int? && q.topK > Get(a.state.policy.settings, "top_k").n
    ensures Retrieval(p, a, q) == Step(a, Err(ValueError))
  {
    hide Ranking, Record, ReadSideUpdate, ReportSetChange;
  }

  // ----- what a token is -----

  predicate TokenLetter(c: char) {
    c as int in {48, 49, 50, 51, 52, 53, 54, 55, 56, 57} || 97 <= c as int <= 122
  }

  /** A stretch of lower-case ASCII letters and digits that neither neighbour extends. */
  predicate MaximalRun(text: string, i: nat, j: nat) {
    && i < j <= |text| && (forall k | i <= k < j :: TokenLetter(text[k]))
    && (i == 0 || !TokenLetter(text[i - 1])) && (j == |text| || !TokenLetter(text[j]))
  }

  ghost predicate RunFrom(text: string, b: nat, token: string) {
    exists i: nat, j: nat :: b <= i && MaximalRun(text, i, j) && token == text[i..j]
  }

  lemma LettersAre(c: char)
    ensures TokenLetter(c) <==> TokenChar(c)
  {
  }

  /** A run that begins where the reader's does, ends where a character breaks it. */
  lemma BrokenRun(text: string, b: nat, k: nat, i: nat, j: nat)
    requires b <= k < |text| && (forall n | b <= n < k :: TokenLetter(text[n])) && !TokenLetter(text[k])
    requires MaximalRun(text, i, j) && b <= i <= k
    ensures i == b && j == k
  {
    assert TokenLetter(text[i]);
    assert i < k;
    assert i == 0 || !TokenLetter(text[i - 1]);
    assert forall n | i <= n < j :: TokenLetter(text[n]);
    assert j <= k;
  }

  /** A run still being read at the end of the text ends there. */
  lemma LastRun(text: string, b: nat, token: string)
    requires b <= |text| && (forall n | b <= n < |text| :: TokenLetter(text[n])) && (b == 0 || !TokenLetter(text[b - 1]))
    ensures RunFrom(text, b, token) <==> b < |text| && token == text[b..]
  {
    if RunFrom(text, b, token) {
      var i: nat, j: nat :| b <= i && MaximalRun(text, i, j) && token == text[i..j];
      assert i == 0 || !TokenLetter(text[i - 1]);
      assert i == b;
      assert j == |text|;
      assert text[b..j] == text[b..];
    }
    if b < |text| {
      assert MaximalRun(text, b, |text|) && text[b..|text|] == text[b..];
    }
  }

  /** The scan from one position, with a run begun at another, finds the runs from there on. */
  lemma {:induction false} ScanFindsRuns(text: string, b: nat, k: nat, token: string)
    requires b <= k <= |text| && (forall n | b <= n < k :: TokenLetter(text[n])) && (b == 0 || !TokenLetter(text[b - 1]))
    ensures token in TokensFrom(text[k..], text[b..k]) <==> RunFrom(text, b, token)
    decreases |text| - k
  {
    hide RunFrom;
    var current := text[b..k];
    if k == |text| {
      assert text[k..] == [] && current == text[b..];
      LastRun(text, b, token);
    } else {
      LettersAre(text[k]);
      assert text[k..][0] == text[k] && text[k..][1..] == text[k + 1..];
      if TokenLetter(text[k]) {
        assert current + [text[k]] == text[b..k + 1];
        ScanFindsRuns(text, b, k + 1, token);
      } else {
        ScanFindsRuns(text, k + 1, k + 1, token);
        assert text[k + 1..k + 1] == "";
        RunSplits(text, b, k, token);
      }
    }
  }

  /** At a breaking character: the run that ends there, or one that begins later. */
  lemma RunSplits(text: string, b: nat, k: nat, token: string)
    requires b <= k < |text| && (forall n | b <= n < k :: TokenLetter(text[n])) && !TokenLetter(text[k])
    requires b == 0 || !TokenLetter(text[b - 1])
    ensures RunFrom(text, b, token) <==> (b < k && token == text[b..k]) || RunFrom(text, k + 1, token)
  {
    if RunFrom(text, b, token) {
      var i: nat, j: nat :| b <= i && MaximalRun(text, i, j) && token == text[i..j];
      if i <= k {
        BrokenRun(text, b, k, i, j);
      }
    }
    if b < k {
      assert MaximalRun(text, b, k);
    }
  }

  /** The tokens of a text are exactly its maximal runs of lower-case ASCII letters and digits. */
  lemma TokensAreRuns(text: string, token: string)
    ensures token in Tokens(text) <==> exists i: nat, j: nat :: MaximalRun(text, i, j) && token == text[i..j]
  {
    ScanFindsRuns(text, 0, 0, token);
    assert text[0..] == text && text[0..0] == "";
  }
}
