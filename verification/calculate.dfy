/**
  The incremental payout calculation of distributor/distributor.go:
  `CalculateParts` and the baseline rebuild of `getLastDistribute`.

  Scores are whole MTLAP units; LABR amounts are exact reals (the Go code
  uses float64). An edge is one recommender->recommended claim; an edge whose
  recommended account is a key of the conflict map takes no part in the
  arithmetic.
 */
module Calculate {
  import opened Wrap
  import opened Mlm

  const LabrAsset: string := "LABR"

  /** 10^7: LABR has seven decimal digits. */
  const Precision: real := 10000000.0

  /** recommender -> recommended -> MTLAP score committed by the previous report. */
  type Baseline = map<string, map<string, int>>

  /** `lastDistribute[recommender][recommended]` with its `ok` flag. */
  function LastScore(last: Baseline, e: Edge): (r: Option<int>)
    ensures r.Some? <==> e.recommender in last && e.recommended in last[e.recommender]
  {
    if e.recommender in last && e.recommended in last[e.recommender] then Some(last[e.recommender][e.recommended]) else None
  }

  /** The Go zero value stands in for a missing baseline entry. */
  function LastOrZero(last: Baseline, e: Edge): int
  {
    LastScore(last, e).GetOr(0)
  }

  predicate Conflicted(conflict: map<string, seq<string>>, e: Edge)
  {
    e.recommended in conflict
  }

  /** First pass: the whole score of a new edge, the increase of a known one. */
  function Contribution(last: Baseline, e: Edge): int
  {
    match LastScore(last, e)
    case None => e.mtlap
    case Some(l) => if l < e.mtlap then e.mtlap - l else 0
  }

  /** Second pass: the increase over the baseline, a missing baseline counting as 0. */
  function Delta(last: Baseline, e: Edge): (d: int)
    ensures d >= 0
    ensures d > 0 <==> LastOrZero(last, e) < e.mtlap
  {
    if LastOrZero(last, e) < e.mtlap then e.mtlap - LastOrZero(last, e) else 0
  }

  /** `totalNewMTLAP`. */
  function TotalUnits(last: Baseline, conflict: map<string, seq<string>>, es: seq<Edge>): int
  {
    if |es| == 0 then 0
    else TotalUnits(last, conflict, es[..|es| - 1]) + (if Conflicted(conflict, es[|es| - 1]) then 0 else Contribution(last, es[|es| - 1]))
  }

  /** The sum of second-pass deltas of the non-conflicted edges: `partCount` over a run of edges. */
  function Units(last: Baseline, conflict: map<string, seq<string>>, es: seq<Edge>): (u: int)
    ensures u >= 0
  {
    if |es| == 0 then 0
    else Units(last, conflict, es[..|es| - 1]) + (if Conflicted(conflict, es[|es| - 1]) then 0 else Delta(last, es[|es| - 1]))
  }

  /**
    `float64(partCount) * AmountPerTag`: what `units` units are owed before
    truncation. It is written as repeated addition so that proofs about sums
    of payouts stay linear; OwedIsProduct shows it is the product.
   */
  function Owed(units: nat, apt: real): real
  {
    if units == 0 then 0.0 else Owed(units - 1, apt) + apt
  }

  lemma {:induction false} OwedIsProduct(units: nat, apt: real)
    ensures Owed(units, apt) == units as real * apt
  {
    if units > 0 {
      OwedIsProduct(units - 1, apt);
    }
  }

  /** `AmountPerTag`: the pool split over the total units, 0 when there are none. */
  function AmountPerTag(amount: real, total: int): (apt: real)
    ensures total > 0 ==> Owed(total, apt) == amount
    ensures total <= 0 ==> apt == 0.0
    ensures amount >= 0.0 ==> apt >= 0.0
  {
    if total > 0 then
      var apt := amount / total as real;
      OwedIsProduct(total, apt);
      apt
    else 0.0
  }

  /** `RecommendDeltas`: one row per non-conflicted edge whose score rose, in edge order. */
  function Deltas(last: Baseline, conflict: map<string, seq<string>>, es: seq<Edge>): (ds: seq<RecommendDelta>)
    ensures |ds| == LevelUpCount(last, conflict, es)
    ensures forall d :: d in ds ==> d.delta > 0 && d.recommended !in conflict
  {
    if |es| == 0 then []
    else
      var e := es[|es| - 1];
      var rest := Deltas(last, conflict, es[..|es| - 1]);
      if !Conflicted(conflict, e) && Delta(last, e) > 0 then rest + [RecommendDelta(e.recommender, e.recommended, Delta(last, e))]
      else rest
  }

  /** `RecommendedNewCount`: non-conflicted edges without a baseline entry. */
  function NewCount(last: Baseline, conflict: map<string, seq<string>>, es: seq<Edge>): (n: nat)
    ensures n <= |RecommendRows(conflict, es)|
  {
    if |es| == 0 then 0
    else NewCount(last, conflict, es[..|es| - 1]) + (if !Conflicted(conflict, es[|es| - 1]) && LastScore(last, es[|es| - 1]).None? then 1 else 0)
  }

  /** `RecommendedLevelUpCount`: non-conflicted edges whose score exceeds the baseline (0 when missing). */
  function LevelUpCount(last: Baseline, conflict: map<string, seq<string>>, es: seq<Edge>): (n: nat)
    ensures n <= |RecommendRows(conflict, es)|
  {
    if |es| == 0 then 0
    else LevelUpCount(last, conflict, es[..|es| - 1]) + (if !Conflicted(conflict, es[|es| - 1]) && Delta(last, es[|es| - 1]) > 0 then 1 else 0)
  }

  /** `Recommends`: one row per non-conflicted edge carrying its current score, whatever the delta. */
  function RecommendRows(conflict: map<string, seq<string>>, es: seq<Edge>): (rows: seq<ReportRecommend>)
    ensures |rows| <= |es|
    ensures forall row :: row in rows ==> row.recommended !in conflict
  {
    if |es| == 0 then []
    else
      var e := es[|es| - 1];
      RecommendRows(conflict, es[..|es| - 1]) + (if Conflicted(conflict, e) then [] else [ReportRecommend(e.recommender, e.recommended, e.mtlap)])
  }

  /** `partCount` of one recommender. */
  function PartCount(last: Baseline, conflict: map<string, seq<string>>, r: Recommender): nat
  {
    Units(last, conflict, EdgesOf(r.accountId, r.recommended))
  }

  /** True when `x` has at most seven decimal digits, so "%.7f" renders it exactly. */
  predicate SevenDecimals(x: real)
  {
    (x * Precision).Floor as real == x * Precision
  }

  /** `math.Floor(x*1e7)/1e7`: truncation to seven decimal digits. */
  function Floor7(x: real): (y: real)
    ensures y <= x < y + 1.0 / Precision
    ensures SevenDecimals(y)
    ensures x >= 0.0 ==> y >= 0.0
  {
    var f := (x * Precision).Floor;
    assert f as real / Precision * Precision == f as real;
    f as real / Precision
  }

  /** A recommender's unit count: `partCount` in `CalculateParts`. */
  type PartCounter = Recommender -> nat

  /**
    `Distributes`: one LABR payout per recommender whose truncated amount is
    positive, in recommender order.
   */
  function Payouts(recs: seq<Recommender>, part: PartCounter, apt: real): (ps: seq<ReportDistribute>)
    ensures |ps| <= |recs|
    ensures forall p :: p in ps ==> p.amount > 0.0 && p.asset == LabrAsset && SevenDecimals(p.amount)
  {
    if |recs| == 0 then []
    else
      var r := recs[|recs| - 1];
      var amount := Floor7(Owed(part(r), apt));
      Payouts(recs[..|recs| - 1], part, apt) + (if amount > 0.0 then [ReportDistribute(r.accountId, LabrAsset, amount)] else [])
  }

  /** The part counter of `CalculateParts`: the deltas of the recommender's non-conflicted edges. */
  function PartCounterOf(last: Baseline, conflict: map<string, seq<string>>): PartCounter
  {
    r => PartCount(last, conflict, r)
  }

  /** The `Conflicts` rows of one conflict entry. */
  function RowsFor(recommended: string, claimants: seq<string>): (rows: seq<ReportConflict>)
    ensures |rows| == |claimants|
  {
    if |claimants| == 0 then []
    else RowsFor(recommended, claimants[..|claimants| - 1]) + [ReportConflict(claimants[|claimants| - 1], recommended)]
  }

  /**
    `Conflicts`: the rows of every conflict entry. `order` is the order in which
    the Go runtime happens to iterate the conflict map.
   */
  function ConflictRows(conflict: map<string, seq<string>>, order: seq<string>): seq<ReportConflict>
  {
    if |order| == 0 then []
    else
      var k := order[|order| - 1];
      ConflictRows(conflict, order[..|order| - 1]) + (if k in conflict then RowsFor(k, conflict[k]) else [])
  }

  /** No entry repeats. */
  predicate Distinct(order: seq<string>)
  {
    forall i, j :: 0 <= i < j < |order| ==> order[i] != order[j]
  }

  lemma {:induction false} RowsForCount(k: string, claimants: seq<string>, c: string, x: string)
    ensures multiset(RowsFor(k, claimants))[ReportConflict(c, x)] == (if x == k then multiset(claimants)[c] else 0)
  {
    if |claimants| > 0 {
      var init := claimants[..|claimants| - 1];
      RowsForCount(k, init, c, x);
      assert claimants == init + [claimants[|claimants| - 1]];
    }
  }

  /**
    When `order` repeats no key, each conflict it lists gives its claimants
    one `Conflicts` row per claim, and no other rows exist.
   */
  lemma {:induction false} ConflictRowsCount(conflict: map<string, seq<string>>, order: seq<string>, c: string, x: string)
    requires Distinct(order)
    ensures multiset(ConflictRows(conflict, order))[ReportConflict(c, x)] ==
      (if x in order && x in conflict then multiset(conflict[x])[c] else 0)
  {
    if |order| > 0 {
      var init := order[..|order| - 1];
      var k := order[|order| - 1];
      assert Distinct(init);
      ConflictRowsCount(conflict, init, c, x);
      assert order == init + [k];
      assert x in order <==> x in init || x == k;
      if k in conflict {
        RowsForCount(k, conflict[k], c, x);
      }
    }
  }

  /**
    `order` is an iteration order of the map `conflict`: every key once, and
    nothing else.
   */
  predicate EnumeratesKeys(order: seq<string>, conflict: map<string, seq<string>>)
  {
    && Distinct(order)
    && (forall k :: k in order ==> k in conflict)
    && (forall k :: k in conflict ==> k in order)
  }

  /**
    `CalculateParts`. `now` stands for `time.Now()` and `order` for the
    iteration order of the conflict map, which visits every key once. Every
    claim listed in the conflict map gets its `Conflicts` row, and no other
    row exists.
   */
  function CalculateParts(last: Baseline, amount: real, recs: RecommendersFetchResult, order: seq<string>, now: int): (r: DistributeResult)
    requires EnumeratesKeys(order, recs.conflict)
    ensures forall c, x ::
      multiset(r.conflicts)[ReportConflict(c, x)] == (if x in recs.conflict then multiset(recs.conflict[x])[c] else 0)
    ensures r.amount == amount && r.createdAt == now
    ensures r.xdr == NoXdr && r.reportId == 0 && r.missingTrustlines == []
    ensures |r.recommendDeltas| == r.recommendedLevelUpCount
    ensures r.recommendedNewCount <= |r.recommends| && r.recommendedLevelUpCount <= |r.recommends|
    ensures forall d :: d in r.recommendDeltas ==> d.delta > 0 && d.recommended !in recs.conflict
    ensures forall row :: row in r.recommends ==> row.recommended !in recs.conflict
    ensures forall p :: p in r.distributes ==> p.amount > 0.0 && p.asset == LabrAsset && SevenDecimals(p.amount)
    ensures amount >= 0.0 ==> r.amountPerTag >= 0.0
  {
    var es := Edges(recs.recommenders);
    var total := TotalUnits(last, recs.conflict, es);
    var apt := AmountPerTag(amount, total);
    var conflicts := ConflictRows(recs.conflict, order);
    assert forall c, x ::
      multiset(conflicts)[ReportConflict(c, x)] == (if x in recs.conflict then multiset(recs.conflict[x])[c] else 0) by {
      forall c, x
        ensures multiset(conflicts)[ReportConflict(c, x)] == (if x in recs.conflict then multiset(recs.conflict[x])[c] else 0)
      {
        ConflictRowsCount(recs.conflict, order, c, x);
      }
    }
    DistributeResult(
      createdAt := now,
      xdr := NoXdr,
      conflicts := conflicts,
      recommends := RecommendRows(recs.conflict, es),
      distributes := Payouts(recs.recommenders, PartCounterOf(last, recs.conflict), apt),
      recommendDeltas := Deltas(last, recs.conflict, es),
      missingTrustlines := [],
      reportId := 0,
      amount := amount,
      amountPerTag := apt,
      recommendedNewCount := NewCount(last, recs.conflict, es),
      recommendedLevelUpCount := LevelUpCount(last, recs.conflict, es),
      sourceAddress := "")
  }

  /** `getLastDistribute`'s loop: rebuild the nested baseline from report rows, later rows overwriting earlier ones. */
  function BaselineFromRows(rows: seq<ReportRecommend>): Baseline
  {
    if |rows| == 0 then map[]
    else
      var m := BaselineFromRows(rows[..|rows| - 1]);
      var row := rows[|rows| - 1];
      var inner := if row.recommender in m then m[row.recommender] else map[];
      m[row.recommender := inner[row.recommended := row.recommendedMtlap]]
  }

  /** The score of the last row for the pair, searched from the end. */
  function LastRowScore(rows: seq<ReportRecommend>, recommender: string, recommended: string): Option<int>
  {
    if |rows| == 0 then None
    else if rows[|rows| - 1].recommender == recommender && rows[|rows| - 1].recommended == recommended then Some(rows[|rows| - 1].recommendedMtlap)
    else LastRowScore(rows[..|rows| - 1], recommender, recommended)
  }
}
