/**
  Properties of the payout calculation: payouts never exceed the pool,
  conflicted claims change nothing, the baseline rebuilt from a report's rows
  makes an unchanged graph pay nothing, and every conflict claimant gets a
  conflict row.
 */
module PayoutProperties {
  import opened Wrap
  import opened Mlm
  import opened Calculate

  // ---------------------------------------------------------------------
  // Sums.
  // ---------------------------------------------------------------------

  function SumAmounts(ps: seq<ReportDistribute>): real
  {
    if |ps| == 0 then 0.0 else SumAmounts(ps[..|ps| - 1]) + ps[|ps| - 1].amount
  }

  function SumDeltas(ds: seq<RecommendDelta>): int
  {
    if |ds| == 0 then 0 else SumDeltas(ds[..|ds| - 1]) + ds[|ds| - 1].delta
  }

  function SumPartCounts(last: Baseline, conflict: map<string, seq<string>>, recs: seq<Recommender>): int
  {
    if |recs| == 0 then 0 else SumPartCounts(last, conflict, recs[..|recs| - 1]) + PartCount(last, conflict, recs[|recs| - 1])
  }

  function SumParts(recs: seq<Recommender>, part: PartCounter): nat
  {
    if |recs| == 0 then 0 else SumParts(recs[..|recs| - 1], part) + part(recs[|recs| - 1])
  }

  function SumOwed(recs: seq<Recommender>, part: PartCounter, apt: real): real
  {
    if |recs| == 0 then 0.0 else SumOwed(recs[..|recs| - 1], part, apt) + Owed(part(recs[|recs| - 1]), apt)
  }

  predicate NonNegativeScores(es: seq<Edge>)
  {
    forall e :: e in es ==> e.mtlap >= 0
  }

  lemma {:induction false} UnitsAppend(last: Baseline, conflict: map<string, seq<string>>, a: seq<Edge>, b: seq<Edge>)
    ensures Units(last, conflict, a + b) == Units(last, conflict, a) + Units(last, conflict, b)
  {
    if |b| == 0 {
      assert a + b == a;
    } else {
      UnitsAppend(last, conflict, a, b[..|b| - 1]);
      assert (a + b)[..|a + b| - 1] == a + b[..|b| - 1];
    }
  }

  /** The recommenders' part counts add up to the deltas of all edges. */
  lemma {:induction false} PartCountsSumToUnits(last: Baseline, conflict: map<string, seq<string>>, recs: seq<Recommender>)
    ensures SumPartCounts(last, conflict, recs) == Units(last, conflict, Edges(recs))
  {
    if |recs| > 0 {
      var init := recs[..|recs| - 1];
      var r := recs[|recs| - 1];
      PartCountsSumToUnits(last, conflict, init);
      assert Edges(recs) == Edges(init) + EdgesOf(r.accountId, r.recommended);
      UnitsAppend(last, conflict, Edges(init), EdgesOf(r.accountId, r.recommended));
    }
  }

  /** With non-negative scores the two passes agree: first-pass total == second-pass units. */
  lemma {:induction false} UnitsEqualTotal(last: Baseline, conflict: map<string, seq<string>>, es: seq<Edge>)
    requires NonNegativeScores(es)
    ensures Units(last, conflict, es) == TotalUnits(last, conflict, es)
  {
    if |es| > 0 {
      assert forall e :: e in es[..|es| - 1] ==> e in es;
      assert es[|es| - 1] in es;
      UnitsEqualTotal(last, conflict, es[..|es| - 1]);
    }
  }

  /** The reported deltas add up to the units the pool is split over. */
  lemma {:induction false} DeltasSumToUnits(last: Baseline, conflict: map<string, seq<string>>, es: seq<Edge>)
    ensures SumDeltas(Deltas(last, conflict, es)) == Units(last, conflict, es)
  {
    if |es| > 0 {
      DeltasSumToUnits(last, conflict, es[..|es| - 1]);
      var e := es[|es| - 1];
      var rest := Deltas(last, conflict, es[..|es| - 1]);
      if !Conflicted(conflict, e) && Delta(last, e) > 0 {
        var d := RecommendDelta(e.recommender, e.recommended, Delta(last, e));
        assert (rest + [d])[..|rest|] == rest;
      }
    }
  }

  lemma {:induction false} OwedAdds(a: nat, b: nat, apt: real)
    ensures Owed(a + b, apt) == Owed(a, apt) + Owed(b, apt)
  {
    if b > 0 {
      OwedAdds(a, b - 1, apt);
    }
  }

  lemma {:induction false} OwedNonNegative(n: nat, apt: real)
    requires apt >= 0.0
    ensures Owed(n, apt) >= 0.0
  {
    if n > 0 {
      OwedNonNegative(n - 1, apt);
    }
  }

  /** What the recommenders are owed one by one adds up to what their summed units are owed. */
  lemma {:induction false} OwedIsLinear(recs: seq<Recommender>, part: PartCounter, apt: real)
    ensures SumOwed(recs, part, apt) == Owed(SumParts(recs, part), apt)
  {
    if |recs| > 0 {
      var init := recs[..|recs| - 1];
      OwedIsLinear(init, part, apt);
      OwedAdds(SumParts(init, part), part(recs[|recs| - 1]), apt);
    }
  }

  /** Truncation only ever lowers what is owed. */
  lemma {:induction false} PayoutsBelowOwed(recs: seq<Recommender>, part: PartCounter, apt: real)
    requires apt >= 0.0
    ensures SumAmounts(Payouts(recs, part, apt)) <= SumOwed(recs, part, apt)
  {
    if |recs| > 0 {
      var init := recs[..|recs| - 1];
      var r := recs[|recs| - 1];
      PayoutsBelowOwed(init, part, apt);
      var rest := Payouts(init, part, apt);
      var amount := Floor7(Owed(part(r), apt));
      OwedNonNegative(part(r), apt);
      if amount > 0.0 {
        var p := ReportDistribute(r.accountId, LabrAsset, amount);
        assert Payouts(recs, part, apt) == rest + [p];
        assert (rest + [p])[..|rest|] == rest;
      } else {
        assert Payouts(recs, part, apt) == rest;
      }
    }
  }

  lemma {:induction false} SumPartsIsSumPartCounts(last: Baseline, conflict: map<string, seq<string>>, recs: seq<Recommender>)
    ensures SumParts(recs, PartCounterOf(last, conflict)) == SumPartCounts(last, conflict, recs)
  {
    if |recs| > 0 {
      SumPartsIsSumPartCounts(last, conflict, recs[..|recs| - 1]);
    }
  }

  /** The fields of the plan, one component function each. */
  lemma PlanFields(last: Baseline, amount: real, recs: RecommendersFetchResult, order: seq<string>, now: int)
    requires EnumeratesKeys(order, recs.conflict)
    ensures var r := CalculateParts(last, amount, recs, order, now);
      var es := Edges(recs.recommenders);
      var apt := AmountPerTag(amount, TotalUnits(last, recs.conflict, es));
      && r.distributes == Payouts(recs.recommenders, PartCounterOf(last, recs.conflict), apt)
      && r.amountPerTag == apt
      && r.recommends == RecommendRows(recs.conflict, es)
      && r.recommendDeltas == Deltas(last, recs.conflict, es)
      && r.recommendedNewCount == NewCount(last, recs.conflict, es)
      && r.recommendedLevelUpCount == LevelUpCount(last, recs.conflict, es)
  {
  }

  /**
    With a non-negative pool and non-negative scores, the LABR paid out in one
    cycle never exceeds the pool.
   */
  lemma PayoutsWithinPool(last: Baseline, amount: real, recs: RecommendersFetchResult, order: seq<string>, now: int)
    requires EnumeratesKeys(order, recs.conflict)
    requires amount >= 0.0
    requires NonNegativeScores(Edges(recs.recommenders))
    ensures SumAmounts(CalculateParts(last, amount, recs, order, now).distributes) <= amount
  {
    var es := Edges(recs.recommenders);
    var total := TotalUnits(last, recs.conflict, es);
    var apt := AmountPerTag(amount, total);
    var part := PartCounterOf(last, recs.conflict);
    PlanFields(last, amount, recs, order, now);
    PayoutsBelowOwed(recs.recommenders, part, apt);
    OwedIsLinear(recs.recommenders, part, apt);
    SumPartsIsSumPartCounts(last, recs.conflict, recs.recommenders);
    PartCountsSumToUnits(last, recs.conflict, recs.recommenders);
    UnitsEqualTotal(last, recs.conflict, es);
    assert Owed(SumParts(recs.recommenders, part), apt) <= amount;
  }

  /**
    Each payout is the truncated share of a listed recommender, and every
    listed recommender whose truncated share is positive is paid.
   */
  lemma {:induction false} PayoutsCharacterized(recs: seq<Recommender>, part: PartCounter, apt: real)
    ensures forall p :: p in Payouts(recs, part, apt) ==>
      (exists r :: r in recs && p == ReportDistribute(r.accountId, LabrAsset, Floor7(Owed(part(r), apt))))
    ensures forall r :: r in recs && Floor7(Owed(part(r), apt)) > 0.0 ==>
      ReportDistribute(r.accountId, LabrAsset, Floor7(Owed(part(r), apt))) in Payouts(recs, part, apt)
  {
    if |recs| > 0 {
      var init := recs[..|recs| - 1];
      var r := recs[|recs| - 1];
      PayoutsCharacterized(init, part, apt);
      assert recs == init + [r];
    }
  }

  /** `RecommendDeltas` holds exactly the risen non-conflicted edges, each with its increase. */
  lemma {:induction false} DeltasCharacterized(last: Baseline, conflict: map<string, seq<string>>, es: seq<Edge>)
    ensures forall d :: d in Deltas(last, conflict, es) ==>
      (exists e :: e in es && !Conflicted(conflict, e) && Delta(last, e) > 0 && d == RecommendDelta(e.recommender, e.recommended, Delta(last, e)))
    ensures forall e :: e in es && !Conflicted(conflict, e) && Delta(last, e) > 0 ==>
      RecommendDelta(e.recommender, e.recommended, Delta(last, e)) in Deltas(last, conflict, es)
  {
    if |es| > 0 {
      var init := es[..|es| - 1];
      DeltasCharacterized(last, conflict, init);
      assert es == init + [es[|es| - 1]];
    }
  }

  /** `Recommends` holds exactly the non-conflicted edges, each with its current score. */
  lemma {:induction false} RecommendRowsCharacterized(conflict: map<string, seq<string>>, es: seq<Edge>)
    ensures forall row :: row in RecommendRows(conflict, es) ==>
      (exists e :: e in es && !Conflicted(conflict, e) && row == ReportRecommend(e.recommender, e.recommended, e.mtlap))
    ensures forall e :: e in es && !Conflicted(conflict, e) ==>
      ReportRecommend(e.recommender, e.recommended, e.mtlap) in RecommendRows(conflict, es)
  {
    if |es| > 0 {
      var init := es[..|es| - 1];
      RecommendRowsCharacterized(conflict, init);
      assert es == init + [es[|es| - 1]];
    }
  }

  // ---------------------------------------------------------------------
  // Conflicted claims take no part.
  // ---------------------------------------------------------------------

  function KeepUnconflicted(conflict: map<string, seq<string>>, ds: seq<Recommended>): seq<Recommended>
  {
    if |ds| == 0 then []
    else KeepUnconflicted(conflict, ds[..|ds| - 1]) + (if ds[|ds| - 1].accountId in conflict then [] else [ds[|ds| - 1]])
  }

  /** The graph with every claim on a conflicted account removed. */
  function StripConflicted(conflict: map<string, seq<string>>, recs: seq<Recommender>): (rs: seq<Recommender>)
    ensures |rs| == |recs|
    ensures forall i :: 0 <= i < |recs| ==> rs[i] == Recommender(recs[i].accountId, KeepUnconflicted(conflict, recs[i].recommended))
  {
    if |recs| == 0 then []
    else StripConflicted(conflict, recs[..|recs| - 1]) + [Recommender(recs[|recs| - 1].accountId, KeepUnconflicted(conflict, recs[|recs| - 1].recommended))]
  }

  function KeepEdges(conflict: map<string, seq<string>>, es: seq<Edge>): seq<Edge>
  {
    if |es| == 0 then []
    else KeepEdges(conflict, es[..|es| - 1]) + (if Conflicted(conflict, es[|es| - 1]) then [] else [es[|es| - 1]])
  }

  lemma {:induction false} KeepEdgesAppend(conflict: map<string, seq<string>>, a: seq<Edge>, b: seq<Edge>)
    ensures KeepEdges(conflict, a + b) == KeepEdges(conflict, a) + KeepEdges(conflict, b)
  {
    if |b| == 0 {
      assert a + b == a;
    } else {
      KeepEdgesAppend(conflict, a, b[..|b| - 1]);
      assert (a + b)[..|a + b| - 1] == a + b[..|b| - 1];
    }
  }

  lemma {:induction false} EdgesOfKeep(conflict: map<string, seq<string>>, id: string, ds: seq<Recommended>)
    ensures EdgesOf(id, KeepUnconflicted(conflict, ds)) == KeepEdges(conflict, EdgesOf(id, ds))
  {
    if |ds| > 0 {
      var init := ds[..|ds| - 1];
      var d := ds[|ds| - 1];
      EdgesOfKeep(conflict, id, init);
      assert EdgesOf(id, ds) == EdgesOf(id, init) + [Edge(id, d.accountId, d.mtlap)];
      if d.accountId !in conflict {
        var k := KeepUnconflicted(conflict, init);
        assert EdgesOf(id, k + [d]) == EdgesOf(id, k) + [Edge(id, d.accountId, d.mtlap)];
      }
    }
  }

  lemma {:induction false} EdgesOfStrip(conflict: map<string, seq<string>>, recs: seq<Recommender>)
    ensures Edges(StripConflicted(conflict, recs)) == KeepEdges(conflict, Edges(recs))
  {
    if |recs| > 0 {
      var init := recs[..|recs| - 1];
      var r := recs[|recs| - 1];
      EdgesOfStrip(conflict, init);
      var s := StripConflicted(conflict, init);
      var r' := Recommender(r.accountId, KeepUnconflicted(conflict, r.recommended));
      calc {
        Edges(StripConflicted(conflict, recs));
        { assert StripConflicted(conflict, recs) == s + [r']; }
        Edges(s + [r']);
        { EdgesSnoc(s, r'); }
        Edges(s) + EdgesOf(r.accountId, KeepUnconflicted(conflict, r.recommended));
        { EdgesOfKeep(conflict, r.accountId, r.recommended); }
        KeepEdges(conflict, Edges(init)) + KeepEdges(conflict, EdgesOf(r.accountId, r.recommended));
        { KeepEdgesAppend(conflict, Edges(init), EdgesOf(r.accountId, r.recommended)); }
        KeepEdges(conflict, Edges(init) + EdgesOf(r.accountId, r.recommended));
        KeepEdges(conflict, Edges(recs));
      }
    }
  }

  /** Every edge-wise output of the calculation ignores conflicted edges. */
  lemma EdgeOutputsIgnoreConflicted(last: Baseline, conflict: map<string, seq<string>>, es: seq<Edge>)
    ensures var k := KeepEdges(conflict, es);
      && TotalUnits(last, conflict, k) == TotalUnits(last, conflict, es)
      && Units(last, conflict, k) == Units(last, conflict, es)
      && RecommendRows(conflict, k) == RecommendRows(conflict, es)
      && Deltas(last, conflict, k) == Deltas(last, conflict, es)
      && NewCount(last, conflict, k) == NewCount(last, conflict, es)
      && LevelUpCount(last, conflict, k) == LevelUpCount(last, conflict, es)
  {
    TotalsIgnoreConflicted(last, conflict, es);
    UnitsIgnoreConflicted(last, conflict, es);
    RowsIgnoreConflicted(conflict, es);
    DeltasIgnoreConflicted(last, conflict, es);
    NewCountIgnoresConflicted(last, conflict, es);
    LevelUpIgnoresConflicted(last, conflict, es);
  }

  lemma {:induction false} KeepEdgesSnoc(conflict: map<string, seq<string>>, es: seq<Edge>)
    requires |es| > 0
    ensures var k := KeepEdges(conflict, es[..|es| - 1]); var e := es[|es| - 1];
      && (Conflicted(conflict, e) ==> KeepEdges(conflict, es) == k)
      && (!Conflicted(conflict, e) ==> KeepEdges(conflict, es) == k + [e])
  {
    var k := KeepEdges(conflict, es[..|es| - 1]);
    assert k + [] == k;
  }

  lemma {:induction false} TotalsIgnoreConflicted(last: Baseline, conflict: map<string, seq<string>>, es: seq<Edge>)
    ensures TotalUnits(last, conflict, KeepEdges(conflict, es)) == TotalUnits(last, conflict, es)
  {
    if |es| > 0 {
      var k := KeepEdges(conflict, es[..|es| - 1]);
      TotalsIgnoreConflicted(last, conflict, es[..|es| - 1]);
      KeepEdgesSnoc(conflict, es);
      assert (k + [es[|es| - 1]])[..|k|] == k;
    }
  }

  lemma {:induction false} UnitsIgnoreConflicted(last: Baseline, conflict: map<string, seq<string>>, es: seq<Edge>)
    ensures Units(last, conflict, KeepEdges(conflict, es)) == Units(last, conflict, es)
  {
    if |es| > 0 {
      var k := KeepEdges(conflict, es[..|es| - 1]);
      UnitsIgnoreConflicted(last, conflict, es[..|es| - 1]);
      KeepEdgesSnoc(conflict, es);
      assert (k + [es[|es| - 1]])[..|k|] == k;
    }
  }

  lemma {:induction false} RowsIgnoreConflicted(conflict: map<string, seq<string>>, es: seq<Edge>)
    ensures RecommendRows(conflict, KeepEdges(conflict, es)) == RecommendRows(conflict, es)
  {
    if |es| > 0 {
      var k := KeepEdges(conflict, es[..|es| - 1]);
      RowsIgnoreConflicted(conflict, es[..|es| - 1]);
      KeepEdgesSnoc(conflict, es);
      assert (k + [es[|es| - 1]])[..|k|] == k;
    }
  }

  lemma {:induction false} DeltasIgnoreConflicted(last: Baseline, conflict: map<string, seq<string>>, es: seq<Edge>)
    ensures Deltas(last, conflict, KeepEdges(conflict, es)) == Deltas(last, conflict, es)
  {
    if |es| > 0 {
      var k := KeepEdges(conflict, es[..|es| - 1]);
      var e := es[|es| - 1];
      DeltasIgnoreConflicted(last, conflict, es[..|es| - 1]);
      KeepEdgesSnoc(conflict, es);
      if !Conflicted(conflict, e) {
        DeltasSnoc(last, conflict, k, e);
      }
    }
  }

  lemma DeltasSnoc(last: Baseline, conflict: map<string, seq<string>>, es: seq<Edge>, e: Edge)
    ensures Deltas(last, conflict, es + [e]) == Deltas(last, conflict, es)
      + (if !Conflicted(conflict, e) && Delta(last, e) > 0 then [RecommendDelta(e.recommender, e.recommended, Delta(last, e))] else [])
  {
    assert (es + [e])[..|es|] == es;
  }

  lemma {:induction false} NewCountIgnoresConflicted(last: Baseline, conflict: map<string, seq<string>>, es: seq<Edge>)
    ensures NewCount(last, conflict, KeepEdges(conflict, es)) == NewCount(last, conflict, es)
  {
    if |es| > 0 {
      var k := KeepEdges(conflict, es[..|es| - 1]);
      NewCountIgnoresConflicted(last, conflict, es[..|es| - 1]);
      KeepEdgesSnoc(conflict, es);
      assert (k + [es[|es| - 1]])[..|k|] == k;
    }
  }

  lemma {:induction false} LevelUpIgnoresConflicted(last: Baseline, conflict: map<string, seq<string>>, es: seq<Edge>)
    ensures LevelUpCount(last, conflict, KeepEdges(conflict, es)) == LevelUpCount(last, conflict, es)
  {
    if |es| > 0 {
      var k := KeepEdges(conflict, es[..|es| - 1]);
      LevelUpIgnoresConflicted(last, conflict, es[..|es| - 1]);
      KeepEdgesSnoc(conflict, es);
      assert (k + [es[|es| - 1]])[..|k|] == k;
    }
  }

  /** Payouts over two rosters agree when their prefixes do and their last recommenders are owed the same. */
  lemma PayoutsSnocAgree(a: seq<Recommender>, b: seq<Recommender>, part: PartCounter, apt: real)
    requires |a| == |b| > 0
    requires Payouts(a[..|a| - 1], part, apt) == Payouts(b[..|b| - 1], part, apt)
    requires a[|a| - 1].accountId == b[|b| - 1].accountId && part(a[|a| - 1]) == part(b[|b| - 1])
    ensures Payouts(a, part, apt) == Payouts(b, part, apt)
  {
  }

  lemma {:induction false} PayoutsIgnoreConflicted(last: Baseline, conflict: map<string, seq<string>>, recs: seq<Recommender>, apt: real)
    ensures Payouts(StripConflicted(conflict, recs), PartCounterOf(last, conflict), apt) == Payouts(recs, PartCounterOf(last, conflict), apt)
  {
    if |recs| > 0 {
      var part := PartCounterOf(last, conflict);
      var init := recs[..|recs| - 1];
      var r := recs[|recs| - 1];
      PayoutsIgnoreConflicted(last, conflict, init, apt);
      var s := StripConflicted(conflict, recs);
      var r' := s[|s| - 1];
      assert s[..|s| - 1] == StripConflicted(conflict, init);
      assert r' == Recommender(r.accountId, KeepUnconflicted(conflict, r.recommended));
      EdgesOfKeep(conflict, r.accountId, r.recommended);
      UnitsIgnoreConflicted(last, conflict, EdgesOf(r.accountId, r.recommended));
      assert part(r') == part(r);
      PayoutsSnocAgree(s, recs, part, apt);
    }
  }

  /**
    Claims on conflicted accounts take no part in the calculation: removing
    them yields exactly the same plan.
   */
  lemma ConflictedClaimsIgnored(last: Baseline, amount: real, recs: RecommendersFetchResult, order: seq<string>, now: int)
    requires EnumeratesKeys(order, recs.conflict)
    ensures CalculateParts(last, amount, recs.(recommenders := StripConflicted(recs.conflict, recs.recommenders)), order, now)
         == CalculateParts(last, amount, recs, order, now)
  {
    EdgesOfStrip(recs.conflict, recs.recommenders);
    EdgeOutputsIgnoreConflicted(last, recs.conflict, Edges(recs.recommenders));
    PayoutsIgnoreConflicted(last, recs.conflict, recs.recommenders, AmountPerTag(amount, TotalUnits(last, recs.conflict, Edges(recs.recommenders))));
  }

  // ---------------------------------------------------------------------
  // The conflict rows.
  // ---------------------------------------------------------------------

  // ---------------------------------------------------------------------
  // The baseline and the next cycle.
  // ---------------------------------------------------------------------

  /** `getLastDistribute` keeps, for every pair, the score of its last row; pairs without rows are absent. */
  lemma {:induction false} BaselineLookup(rows: seq<ReportRecommend>, e: Edge)
    ensures LastScore(BaselineFromRows(rows), e) == LastRowScore(rows, e.recommender, e.recommended)
  {
    if |rows| > 0 {
      BaselineLookup(rows[..|rows| - 1], e);
    }
  }

  lemma LastRowScoreSnoc(rows: seq<ReportRecommend>, row: ReportRecommend, recommender: string, recommended: string)
    ensures LastRowScore(rows + [row], recommender, recommended) ==
      (if row.recommender == recommender && row.recommended == recommended then Some(row.recommendedMtlap)
       else LastRowScore(rows, recommender, recommended))
  {
    assert (rows + [row])[..|rows|] == rows;
  }

  /** Non-conflicted claims target pairwise distinct accounts (what the graph builder guarantees). */
  predicate UniqueUnconflicted(conflict: map<string, seq<string>>, es: seq<Edge>)
  {
    forall i, j :: 0 <= i < j < |es| && es[i].recommended == es[j].recommended ==> Conflicted(conflict, es[i])
  }

  lemma {:induction false} RowsRecordScores(conflict: map<string, seq<string>>, es: seq<Edge>, k: nat)
    requires UniqueUnconflicted(conflict, es)
    requires k < |es| && !Conflicted(conflict, es[k])
    ensures LastRowScore(RecommendRows(conflict, es), es[k].recommender, es[k].recommended) == Some(es[k].mtlap)
  {
    var init := es[..|es| - 1];
    var e := es[|es| - 1];
    var rows := RecommendRows(conflict, init);
    if k < |es| - 1 {
      assert init[k] == es[k];
      assert UniqueUnconflicted(conflict, init) by {
        forall i, j | 0 <= i < j < |init| && init[i].recommended == init[j].recommended
          ensures Conflicted(conflict, init[i])
        {
          assert es[i] == init[i] && es[j] == init[j];
        }
      }
      RowsRecordScores(conflict, init, k);
      assert e.recommended != es[k].recommended;
      if !Conflicted(conflict, e) {
        var row := ReportRecommend(e.recommender, e.recommended, e.mtlap);
        assert RecommendRows(conflict, es) == rows + [row];
        LastRowScoreSnoc(rows, row, es[k].recommender, es[k].recommended);
      } else {
        assert RecommendRows(conflict, es) == rows + [];
        assert rows + [] == rows;
      }
    } else {
      var row := ReportRecommend(e.recommender, e.recommended, e.mtlap);
      assert RecommendRows(conflict, es) == rows + [row];
      LastRowScoreSnoc(rows, row, e.recommender, e.recommended);
    }
  }

  /** When every non-conflicted edge sits at its baseline, nothing is owed and nothing is counted. */
  lemma {:induction false} Stationary(last: Baseline, conflict: map<string, seq<string>>, es: seq<Edge>)
    requires forall e :: e in es && !Conflicted(conflict, e) ==> LastScore(last, e) == Some(e.mtlap)
    ensures TotalUnits(last, conflict, es) == 0 && Units(last, conflict, es) == 0
    ensures Deltas(last, conflict, es) == [] && NewCount(last, conflict, es) == 0 && LevelUpCount(last, conflict, es) == 0
  {
    if |es| > 0 {
      assert forall e :: e in es[..|es| - 1] ==> e in es;
      assert es[|es| - 1] in es;
      Stationary(last, conflict, es[..|es| - 1]);
    }
  }

  lemma {:induction false} EdgeOfMember(recs: seq<Recommender>, i: nat, e: Edge)
    requires i < |recs| && e in EdgesOf(recs[i].accountId, recs[i].recommended)
    ensures e in Edges(recs)
  {
    var init := recs[..|recs| - 1];
    if i < |recs| - 1 {
      assert init[i] == recs[i];
      EdgeOfMember(init, i, e);
    }
  }

  lemma {:induction false} StationaryPayouts(last: Baseline, conflict: map<string, seq<string>>, recs: seq<Recommender>, prefix: nat, apt: real)
    requires prefix <= |recs|
    requires forall e :: e in Edges(recs) && !Conflicted(conflict, e) ==> LastScore(last, e) == Some(e.mtlap)
    ensures Payouts(recs[..prefix], PartCounterOf(last, conflict), apt) == []
  {
    if prefix > 0 {
      StationaryPayouts(last, conflict, recs, prefix - 1, apt);
      var r := recs[prefix - 1];
      forall e | e in EdgesOf(r.accountId, r.recommended)
        ensures e in Edges(recs)
      {
        EdgeOfMember(recs, prefix - 1, e);
      }
      Stationary(last, conflict, EdgesOf(r.accountId, r.recommended));
      var part := PartCounterOf(last, conflict);
      assert part(r) == 0;
      assert recs[..prefix][..prefix - 1] == recs[..prefix - 1];
      assert recs[..prefix][prefix - 1] == r;
    }
  }

  /**
    The incremental scheme pays each increase once: recomputing over the same
    graph against the baseline rebuilt from this cycle's `Recommends` rows
    finds no delta, no new or levelled-up claim and no payout, provided
    non-conflicted claims target distinct accounts.
   */
  lemma SecondRunPaysNothing(last: Baseline, amount: real, amount': real, recs: RecommendersFetchResult, order: seq<string>, now: int, now': int)
    requires EnumeratesKeys(order, recs.conflict)
    requires UniqueUnconflicted(recs.conflict, Edges(recs.recommenders))
    ensures var first := CalculateParts(last, amount, recs, order, now);
      var second := CalculateParts(BaselineFromRows(first.recommends), amount', recs, order, now');
      && second.distributes == []
      && second.recommendDeltas == []
      && second.amountPerTag == 0.0
      && second.recommendedNewCount == 0 && second.recommendedLevelUpCount == 0
      && second.recommends == first.recommends
  {
    var es := Edges(recs.recommenders);
    var rows := RecommendRows(recs.conflict, es);
    var b := BaselineFromRows(rows);
    forall e | e in es && !Conflicted(recs.conflict, e)
      ensures LastScore(b, e) == Some(e.mtlap)
    {
      var k :| 0 <= k < |es| && es[k] == e;
      RowsRecordScores(recs.conflict, es, k);
      BaselineLookup(rows, e);
    }
    Stationary(b, recs.conflict, es);
    PlanFields(last, amount, recs, order, now);
    PlanFields(b, amount', recs, order, now');
    StationaryPayouts(b, recs.conflict, recs.recommenders, |recs.recommenders|, AmountPerTag(amount', 0));
    assert recs.recommenders[..|recs.recommenders|] == recs.recommenders;
  }

  /** Against an empty baseline every non-conflicted claim is new, and every positive score levels up. */
  lemma {:induction false} EmptyBaselineAllNew(conflict: map<string, seq<string>>, es: seq<Edge>)
    ensures NewCount(map[], conflict, es) == |RecommendRows(conflict, es)|
    ensures forall e :: e in Deltas(map[], conflict, es) ==> (exists x :: x in es && x.recommended == e.recommended && x.mtlap == e.delta)
  {
    if |es| > 0 {
      EmptyBaselineAllNew(conflict, es[..|es| - 1]);
    }
  }
}
