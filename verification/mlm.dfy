/**
  The shared data model of the payout program (mlm.go): the recommendation
  graph handed from the ledger reader to the calculator, the rows a report
  is made of, the payout plan, and the functional option that switches report
  persistence off.
 */
module Mlm {
  import opened Wrap

  /** An endorsed account with its MTLAP balance in whole units (Go int64, truncated). */
  datatype Recommended = Recommended(accountId: string, mtlap: int)

  /** An eligible endorser and every claim of it that resolved, in claim order. */
  datatype Recommender = Recommender(accountId: string, recommended: seq<Recommended>)

  /**
    The recommendation graph. `conflict` maps a recommended account to the
    recommenders that claimed it, in processing order.
   */
  datatype RecommendersFetchResult = RecommendersFetchResult(
    conflict: map<string, seq<string>>,
    recommenders: seq<Recommender>,
    totalRecommendedMtlap: int)

  datatype MissingTrustline = MissingTrustline(accountId: string, asset: string)

  /** Rows of a persisted report (the report_recommends, report_distributes and report_conflicts tables). */
  datatype ReportRecommend = ReportRecommend(recommender: string, recommended: string, recommendedMtlap: int)
  datatype ReportDistribute = ReportDistribute(recommender: string, asset: string, amount: real)
  datatype ReportConflict = ReportConflict(recommender: string, recommended: string)

  /** The increase of one recommender->recommended edge since the baseline. */
  datatype RecommendDelta = RecommendDelta(recommender: string, recommended: string, delta: int)

  /** One payment operation of the payout transaction. */
  datatype Payment = Payment(destination: string, amount: real, assetCode: string, assetIssuer: string)

  /**
    The transfer instructions of a cycle. The model keeps the envelope's
    payments instead of their XDR/Base64 text; `NoXdr` is Go's empty string.
   */
  datatype Xdr = NoXdr | Envelope(source: string, payments: seq<Payment>)

  /** The payout plan, together with what a persisted report adds to it. Time is an abstract stamp. */
  datatype DistributeResult = DistributeResult(
    createdAt: int,
    xdr: Xdr,
    conflicts: seq<ReportConflict>,
    recommends: seq<ReportRecommend>,
    distributes: seq<ReportDistribute>,
    recommendDeltas: seq<RecommendDelta>,
    missingTrustlines: seq<MissingTrustline>,
    reportId: int,
    amount: real,
    amountPerTag: real,
    recommendedNewCount: int,
    recommendedLevelUpCount: int,
    sourceAddress: string)

  datatype DistributeOptions = DistributeOptions(withoutReport: bool)

  /** Go's `func(*DistributeOptions)`: an option rewrites the options record. */
  type DistributeOption = DistributeOptions -> DistributeOptions

  /** The option used by dry runs: compute the plan, persist nothing. */
  function WithoutReport(): (opt: DistributeOption)
    ensures forall o :: opt(o).withoutReport
    ensures forall o :: opt(opt(o)) == opt(o)
  {
    (o: DistributeOptions) => o.(withoutReport := true)
  }

  /** Applies the options left to right to the zero record, as `Distribute` does. */
  function ApplyOptions(opts: seq<DistributeOption>): (o: DistributeOptions)
    ensures |opts| == 0 ==> !o.withoutReport
  {
    if |opts| == 0 then DistributeOptions(false)
    else opts[|opts| - 1](ApplyOptions(opts[..|opts| - 1]))
  }

  /** `n` copies of the same option. */
  function Repeat(opt: DistributeOption, n: nat): (s: seq<DistributeOption>)
    ensures |s| == n
  {
    if n == 0 then [] else Repeat(opt, n - 1) + [opt]
  }

  /** Passing `WithoutReport()` once or many times yields the same options record. */
  lemma {:induction false} WithoutReportRepeated(n: nat)
    requires n >= 1
    ensures ApplyOptions(Repeat(WithoutReport(), n)) == DistributeOptions(true)
  {
    var s := Repeat(WithoutReport(), n);
    assert s[..n - 1] == Repeat(WithoutReport(), n - 1);
    assert ApplyOptions(s) == s[n - 1](ApplyOptions(s[..n - 1]));
  }

  /** One recommender->recommended edge of the graph, with the recommended account's score. */
  datatype Edge = Edge(recommender: string, recommended: string, mtlap: int)

  /** The edges of one recommender, in claim order. */
  function EdgesOf(recommender: string, ds: seq<Recommended>): (es: seq<Edge>)
    ensures |es| == |ds|
    ensures forall i :: 0 <= i < |ds| ==> es[i] == Edge(recommender, ds[i].accountId, ds[i].mtlap)
  {
    if |ds| == 0 then [] else EdgesOf(recommender, ds[..|ds| - 1]) + [Edge(recommender, ds[|ds| - 1].accountId, ds[|ds| - 1].mtlap)]
  }

  /** All edges of the graph: recommender order, then claim order (the order of both loops of `CalculateParts`). */
  function Edges(recs: seq<Recommender>): seq<Edge>
  {
    if |recs| == 0 then []
    else Edges(recs[..|recs| - 1]) + EdgesOf(recs[|recs| - 1].accountId, recs[|recs| - 1].recommended)
  }

  lemma EdgesSnoc(recs: seq<Recommender>, r: Recommender)
    ensures Edges(recs + [r]) == Edges(recs) + EdgesOf(r.accountId, r.recommended)
  {
    assert (recs + [r])[..|recs|] == recs;
  }
}
