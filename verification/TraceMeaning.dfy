/** What acceptance by the trace verifier means, said of each event without running the verifier. */
module TraceMeaning {
  import opened Basics
  import opened Json
  import opened Bytes
  import opened Models
  import opened Trace

  /** One event is well formed, and follows the one before it. */
  predicate Follows(p: Platform, events: seq<TraceEvent>, i: nat)
    requires i < |events|
  {
    var e := events[i];
    && IsSha256(e.stateHashBefore) && IsSha256(e.stateHashAfter) && IsSha256(e.eventHash)
    && e.episodeId == events[0].episodeId && e.sequence == i
    && (forall j | 0 <= j < i :: events[j].eventId != e.eventId)
    && e.previousEventHash == (if i == 0 then None else Some(events[i - 1].eventHash))
    && (i > 0 ==> events[i - 1].logicalTime <= e.logicalTime && events[i - 1].stateHashAfter == e.stateHashBefore)
    && RequireVisibility(p, e.visibility, e.payload).Pass?
    && e.eventHash == p.digest(Material(e))
  }

  predicate Chained(p: Platform, events: seq<TraceEvent>) {
    forall i | 0 <= i < |events| :: Follows(p, events, i)
  }

  lemma CheckIffFollows(p: Platform, events: seq<TraceEvent>)
    requires events != []
    ensures CheckEvent(p, Last(events), events[0].episodeId, |events| - 1, Previous(Front(events)), EventIds(Front(events))).Pass?
            <==> Follows(p, events, |events| - 1)
  {
    hide IsSha256, RequireVisibility, EventMaterial;
    var i, e := |events| - 1, Last(events);
    assert e.eventId in EventIds(Front(events)) <==> exists j :: 0 <= j < i && events[j].eventId == e.eventId by {
      assert forall j | 0 <= j < i :: Front(events)[j] == events[j];
    }
    if i > 0 {
      assert Last(Front(events)) == events[i - 1];
    }
  }

  lemma FollowsInPrefix(p: Platform, events: seq<TraceEvent>, i: nat)
    requires i < |events| - 1
    ensures Follows(p, Front(events), i) <==> Follows(p, events, i)
  {
    hide IsSha256, RequireVisibility, Material;
    var front := Front(events);
    assert front[0] == events[0] && forall j | 0 <= j <= i :: front[j] == events[j];
  }

  /** The verifier accepts exactly the chained traces. */
  lemma {:induction false} AcceptedIffChained(p: Platform, events: seq<TraceEvent>)
    ensures Accepted(p, events) <==> Chained(p, events)
  {
    hide Follows, CheckEvent;
    if events != [] {
      var n := |events| - 1;
      AcceptedIffChained(p, Front(events));
      CheckIffFollows(p, events);
      forall i | 0 <= i < n ensures Follows(p, Front(events), i) <==> Follows(p, events, i) {
        FollowsInPrefix(p, events, i);
      }
      assert Chained(p, events) <==> (forall i | 0 <= i < n :: Follows(p, events, i)) && Follows(p, events, n);
    }
  }
}
