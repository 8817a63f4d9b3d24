/**
  The four table cases of distributor/distributor_test.go, stated as
  lemmas about `CalculateParts`: a fresh graph, raised scores, a conflicted
  account, and an unchanged graph.
 */
module Scenarios {
  import opened Wrap
  import opened Mlm
  import opened Calculate
  import PayoutProperties

  const Rec1Graph: seq<Recommender> := [Recommender("rec1", [Recommended("user1", 10), Recommended("user2", 20)])]

  function Fetch(conflict: map<string, seq<string>>): RecommendersFetchResult
  {
    RecommendersFetchResult(conflict, Rec1Graph, 30)
  }

  lemma Rec1Edges()
    ensures Edges(Rec1Graph) == [Edge("rec1", "user1", 10), Edge("rec1", "user2", 20)]
  {
    var ds := Rec1Graph[0].recommended;
    assert ds[..1] == [Recommended("user1", 10)];
    assert ds[..1][..0] == [];
    assert Rec1Graph[..0] == [];
  }

  /** Every edge-wise output over a two-edge graph, unfolded once per edge. */
  lemma TwoEdges(last: Baseline, conflict: map<string, seq<string>>, e1: Edge, e2: Edge)
    ensures var es := [e1, e2];
      && TotalUnits(last, conflict, es) == TotalUnits(last, conflict, [e1]) + (if Conflicted(conflict, e2) then 0 else Contribution(last, e2))
      && TotalUnits(last, conflict, [e1]) == (if Conflicted(conflict, e1) then 0 else Contribution(last, e1))
      && NewCount(last, conflict, es) == NewCount(last, conflict, [e1]) + (if !Conflicted(conflict, e2) && LastScore(last, e2).None? then 1 else 0)
      && NewCount(last, conflict, [e1]) == (if !Conflicted(conflict, e1) && LastScore(last, e1).None? then 1 else 0)
      && LevelUpCount(last, conflict, es) == LevelUpCount(last, conflict, [e1]) + (if !Conflicted(conflict, e2) && Delta(last, e2) > 0 then 1 else 0)
      && LevelUpCount(last, conflict, [e1]) == (if !Conflicted(conflict, e1) && Delta(last, e1) > 0 then 1 else 0)
      && Deltas(last, conflict, es) == Deltas(last, conflict, [e1]) + (if !Conflicted(conflict, e2) && Delta(last, e2) > 0 then [RecommendDelta(e2.recommender, e2.recommended, Delta(last, e2))] else [])
      && Deltas(last, conflict, [e1]) == (if !Conflicted(conflict, e1) && Delta(last, e1) > 0 then [RecommendDelta(e1.recommender, e1.recommended, Delta(last, e1))] else [])
  {
    assert [e1, e2][..1] == [e1];
    assert [e1][..0] == [];
  }

  /** New scores: every claim is new and levels up; the pool is split over 30 units. */
  lemma NewScores(last: Baseline)
    requires last == map[]
    ensures var r := CalculateParts(last, 100.0, Fetch(map[]), [], 0);
      && r.amountPerTag == 100.0 / 30.0
      && r.recommendedNewCount == 2 && r.recommendedLevelUpCount == 2
      && r.recommendDeltas == [RecommendDelta("rec1", "user1", 10), RecommendDelta("rec1", "user2", 20)]
  {
    PayoutProperties.PlanFields(last, 100.0, Fetch(map[]), [], 0);
    assert LastScore(last, Edge("rec1", "user1", 10)) == None;
    assert LastScore(last, Edge("rec1", "user2", 20)) == None;
    Rec1Edges();
    TwoEdges(last, map[], Edge("rec1", "user1", 10), Edge("rec1", "user2", 20));
    assert TotalUnits(last, map[], Edges(Rec1Graph)) == 30;
  }

  /** Raised scores: only the increases (5 and 10) count. */
  lemma RaisedScores(last: Baseline)
    requires last == map["rec1" := map["user1" := 5, "user2" := 10]]
    ensures var r := CalculateParts(last, 100.0, Fetch(map[]), [], 0);
      && r.amountPerTag == 100.0 / 15.0
      && r.recommendedNewCount == 0 && r.recommendedLevelUpCount == 2
      && r.recommendDeltas == [RecommendDelta("rec1", "user1", 5), RecommendDelta("rec1", "user2", 10)]
  {
    PayoutProperties.PlanFields(last, 100.0, Fetch(map[]), [], 0);
    assert LastScore(last, Edge("rec1", "user1", 10)) == Some(5);
    assert LastScore(last, Edge("rec1", "user2", 20)) == Some(10);
    Rec1Edges();
    TwoEdges(last, map[], Edge("rec1", "user1", 10), Edge("rec1", "user2", 20));
  }

  /** A conflicted account takes no part: only user2's 20 units count, and both claimants get a conflict row. */
  lemma ConflictIgnored(last: Baseline)
    requires last == map[]
    ensures var r := CalculateParts(last, 100.0, Fetch(map["user1" := ["rec1", "rec2"]]), ["user1"], 0);
      && r.amountPerTag == 100.0 / 20.0
      && r.recommendedNewCount == 1 && r.recommendedLevelUpCount == 1
      && r.recommendDeltas == [RecommendDelta("rec1", "user2", 20)]
      && r.conflicts == [ReportConflict("rec1", "user1"), ReportConflict("rec2", "user1")]
  {
    var conflict := map["user1" := ["rec1", "rec2"]];
    PayoutProperties.PlanFields(last, 100.0, Fetch(conflict), ["user1"], 0);
    Rec1Edges();
    TwoEdges(last, conflict, Edge("rec1", "user1", 10), Edge("rec1", "user2", 20));
    var cs := ["rec1", "rec2"];
    assert cs[..1] == ["rec1"];
    assert cs[..1][..0] == [];
    assert ["user1"][..0] == [];
  }

  /** Unchanged scores: nothing is owed, so nothing is paid. */
  lemma NothingChanged(last: Baseline)
    requires last == map["rec1" := map["user1" := 10, "user2" := 20]]
    ensures var r := CalculateParts(last, 100.0, Fetch(map[]), [], 0);
      && r.amountPerTag == 0.0
      && r.recommendedNewCount == 0 && r.recommendedLevelUpCount == 0
      && r.recommendDeltas == []
      && r.distributes == []
  {
    PayoutProperties.PlanFields(last, 100.0, Fetch(map[]), [], 0);
    assert LastScore(last, Edge("rec1", "user1", 10)) == Some(10);
    assert LastScore(last, Edge("rec1", "user2", 20)) == Some(20);
    Rec1Edges();
    TwoEdges(last, map[], Edge("rec1", "user1", 10), Edge("rec1", "user2", 20));
    PayoutProperties.StationaryPayouts(last, map[], Rec1Graph, 1, 0.0);
    assert Rec1Graph[..1] == Rec1Graph;
  }
}
