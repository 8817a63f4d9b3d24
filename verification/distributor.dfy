/**
  The distribution workflow of distributor/distributor.go: `Distribute` and
  the steps it chains (`getLastDistribute`, `getDistributeAmount`,
  `checkTrustlines`, `getXDR`, `createReport`).

  Every collaborator (the report lock, the report queries, the ledger, the
  Postgres transaction) is an input: a `World` records how each call turns
  out. A run returns its result, the report store afterwards, and the trace
  of steps it performed, lock and unlock included.
 */
module Distributor {
  import opened Wrap
  import opened Mlm
  import opened Stellar
  import opened Calculate
  import opened ReportStore

  datatype Failure =
    | LockFailed                      // LockReport
    | ReportsReadFailed               // GetReports / GetReportRecommends
    | BalanceFailed                   // the Balance call
    | BalanceUnparseable              // strconv.ParseFloat
    | NoBalance                       // ErrNoBalance
    | RecommendersFailed              // the Recommenders call
    | TrustlineFailed(account: string) // HasTrustline for one payee
    | NoDistributes                   // ErrNoDistributes
    | XdrFailed                       // AccountDetail, NewTransaction, Base64
    | ReportWriteFailed               // BeginTx, an insert, or Commit

  datatype Step = Lock | ReadBaseline | ReadBalance | FetchRecommenders | CheckTrustlines | BuildXdr | WriteReport | Unlock

  /** The stages `Distribute` runs under the lock, in their fixed order. */
  const Stages: seq<Step> := [ReadBaseline, ReadBalance, FetchRecommenders, CheckTrustlines, BuildXdr, WriteReport]

  /** The stage whose failure produces each error. */
  function StageOf(f: Failure): Step
  {
    match f
    case LockFailed => Lock
    case ReportsReadFailed => ReadBaseline
    case BalanceFailed => ReadBalance
    case BalanceUnparseable => ReadBalance
    case NoBalance => ReadBalance
    case RecommendersFailed => FetchRecommenders
    case TrustlineFailed(_) => CheckTrustlines
    case NoDistributes => BuildXdr
    case XdrFailed => BuildXdr
    case ReportWriteFailed => WriteReport
  }

  /** What the Balance call answers: an error, or a text that may or may not parse. */
  datatype BalanceAnswer = BalanceUnavailable | BalanceText(parsed: Option<real>)

  /**
    How the report transaction goes: whether it begins, the index of the
    first insert that fails (if any), and whether the commit succeeds.
   */
  datatype TxScript = TxScript(beginOk: bool, failAt: Option<nat>, commitOk: bool)

  /** The collaborators' answers for one run. `now` stands for the clock. */
  datatype World = World(
    lockOk: bool,
    reportsReadOk: bool,
    balance: BalanceAnswer,
    recommenders: Option<RecommendersFetchResult>,
    conflictOrder: seq<string>,
    hasTrustline: string -> Option<bool>,
    accountDetailOk: bool,
    tx: TxScript,
    now: int,
    address: string)

  datatype Run = Run(result: Result<DistributeResult, Failure>, store: Store, trace: seq<Step>)

  // ---------------------------------------------------------------------
  // The stages.
  // ---------------------------------------------------------------------

  /** `getLastDistribute`: the baseline rebuilt from the latest report's rows; empty without reports. */
  function GetLastDistribute(s: Store, readOk: bool): (r: Result<Baseline, Failure>)
    ensures !readOk <==> r == Failure(ReportsReadFailed)
    ensures readOk && |s.reports| == 0 ==> r == Success(map[])
    ensures readOk && |s.reports| > 0 ==> r == Success(BaselineFromRows(s.reports[|s.reports| - 1].recommends))
  {
    if !readOk then Failure(ReportsReadFailed)
    else match Latest(s)
      case None => Success(map[])
      case Some(rep) => Success(BaselineFromRows(rep.recommends))
  }

  /**
    `getDistributeAmount`: a third of the LABR balance. `bal / 3 * 1e7 / 1e7`
    multiplies and divides back without rounding, so the pool is exactly a third.
   */
  function GetDistributeAmount(b: BalanceAnswer): (r: Result<real, Failure>)
    ensures b.BalanceUnavailable? <==> r == Failure(BalanceFailed)
    ensures (b.BalanceText? && b.parsed.None?) <==> r == Failure(BalanceUnparseable)
    ensures b == BalanceText(Some(0.0)) <==> r == Failure(NoBalance)
    ensures r.Success? <==> b.BalanceText? && b.parsed.Some? && b.parsed.value != 0.0
    ensures r.Success? ==> r.value * 3.0 == b.parsed.value
  {
    match b
    case BalanceUnavailable => Failure(BalanceFailed)
    case BalanceText(None) => Failure(BalanceUnparseable)
    case BalanceText(Some(bal)) =>
      if bal == 0.0 then Failure(NoBalance) else Success(bal / 3.0 * 10000000.0 / 10000000.0)
  }

  /** `ds[i]` is the first payout whose trustline lookup failed. */
  predicate FirstUnknown(ds: seq<ReportDistribute>, has: string -> Option<bool>, i: int)
  {
    && 0 <= i < |ds|
    && has(ds[i].recommender).None?
    && (forall j :: 0 <= j < i ==> has(ds[j].recommender).Some?)
  }

  /**
    `checkTrustlines`: one lookup per payout in order. The first failed lookup
    aborts with that payee; otherwise the payees without a LABR trustline.
   */
  function CheckTrustlineList(ds: seq<ReportDistribute>, has: string -> Option<bool>): (r: Result<seq<MissingTrustline>, Failure>)
    ensures r.Success? <==> forall i :: 0 <= i < |ds| ==> has(ds[i].recommender).Some?
    ensures r.Failure? ==> exists i :: FirstUnknown(ds, has, i) && r.error == TrustlineFailed(ds[i].recommender)
    ensures r.Success? ==> forall m :: m in r.value <==>
      (m.asset == LabrAsset && exists d :: d in ds && d.recommender == m.accountId && has(d.recommender) == Some(false))
  {
    if |ds| == 0 then Success([])
    else
      var d := ds[0];
      match has(d.recommender)
      case None => Failure(TrustlineFailed(d.recommender))
      case Some(h) =>
        var rest := CheckTrustlineList(ds[1..], has);
        assert forall i :: 1 <= i < |ds| ==> ds[i] == ds[1..][i - 1];
        assert forall x :: x in ds <==> x == d || x in ds[1..];
        if rest.Failure? then
          var i :| FirstUnknown(ds[1..], has, i) && rest.error == TrustlineFailed(ds[1..][i].recommender);
          assert ds[i + 1] == ds[1..][i];
          assert FirstUnknown(ds, has, i + 1);
          rest
        else
          Success((if h then [] else [MissingTrustline(d.recommender, LabrAsset)]) + rest.value)
  }

  /** The payments of the envelope: one LABR payment per payout, in order. */
  function Payments(ds: seq<ReportDistribute>): (ps: seq<Payment>)
    ensures |ps| == |ds|
    ensures forall i :: 0 <= i < |ds| ==> ps[i] == Payment(ds[i].recommender, ds[i].amount, ds[i].asset, LabrIssuer)
  {
    if |ds| == 0 then [] else Payments(ds[..|ds| - 1]) + [Payment(ds[|ds| - 1].recommender, ds[|ds| - 1].amount, ds[|ds| - 1].asset, LabrIssuer)]
  }

  /** `getXDR`: no payouts is an error before the ledger is asked anything; else one envelope from the source account. */
  function GetXdr(ds: seq<ReportDistribute>, source: string, accountDetailOk: bool): (r: Result<Xdr, Failure>)
    ensures |ds| == 0 <==> r == Failure(NoDistributes)
    ensures |ds| > 0 && !accountDetailOk <==> r == Failure(XdrFailed)
    ensures r.Success? ==> (r.value.Envelope? && r.value.source == source && |r.value.payments| == |ds|
      && forall i :: 0 <= i < |ds| ==> r.value.payments[i] == Payment(ds[i].recommender, ds[i].amount, ds[i].asset, LabrIssuer))
  {
    if |ds| == 0 then Failure(NoDistributes)
    else if !accountDetailOk then Failure(XdrFailed)
    else Success(Envelope(source, Payments(ds)))
  }

  // ---------------------------------------------------------------------
  // The report transaction.
  // ---------------------------------------------------------------------

  /** One statement of the report transaction. */
  datatype Insert =
    | Header(xdr: Xdr)
    | RecommendRow(recommend: ReportRecommend)
    | DistributeRow(distribute: ReportDistribute)
    | ConflictRow(conflict: ReportConflict)

  function RecommendInserts(rows: seq<ReportRecommend>): (ins: seq<Insert>)
    ensures |ins| == |rows| && forall i :: 0 <= i < |rows| ==> ins[i] == RecommendRow(rows[i])
  {
    if |rows| == 0 then [] else RecommendInserts(rows[..|rows| - 1]) + [RecommendRow(rows[|rows| - 1])]
  }

  function DistributeInserts(rows: seq<ReportDistribute>): (ins: seq<Insert>)
    ensures |ins| == |rows| && forall i :: 0 <= i < |rows| ==> ins[i] == DistributeRow(rows[i])
  {
    if |rows| == 0 then [] else DistributeInserts(rows[..|rows| - 1]) + [DistributeRow(rows[|rows| - 1])]
  }

  function ConflictInserts(rows: seq<ReportConflict>): (ins: seq<Insert>)
    ensures |ins| == |rows| && forall i :: 0 <= i < |rows| ==> ins[i] == ConflictRow(rows[i])
  {
    if |rows| == 0 then [] else ConflictInserts(rows[..|rows| - 1]) + [ConflictRow(rows[|rows| - 1])]
  }

  /** The statements `createReport` issues: the header, then recommends, distributes and conflicts. */
  function ReportInserts(res: DistributeResult): (ins: seq<Insert>)
    ensures |ins| == 1 + |res.recommends| + |res.distributes| + |res.conflicts|
    ensures ins[0] == Header(res.xdr)
  {
    [Header(res.xdr)] + RecommendInserts(res.recommends) + DistributeInserts(res.distributes) + ConflictInserts(res.conflicts)
  }

  /** The report as the transaction has staged it so far. */
  function Stage(rep: Report, ins: seq<Insert>): Report
  {
    if |ins| == 0 then rep
    else
      var r := Stage(rep, ins[..|ins| - 1]);
      match ins[|ins| - 1]
      case Header(x) => r.(xdr := x)
      case RecommendRow(row) => r.(recommends := r.recommends + [row])
      case DistributeRow(row) => r.(distributes := r.distributes + [row])
      case ConflictRow(row) => r.(conflicts := r.conflicts + [row])
  }

  /**
    `createReport`. The header and rows are staged one statement at a time;
    a failed begin, a failed statement or a failed commit discards the staged
    report (the deferred rollback), and a commit publishes it whole.
   */
  function CreateReport(s: Store, res: DistributeResult, tx: TxScript, now: int): (out: (Result<int, Failure>, Store))
    ensures out.0.Success? <==> tx.beginOk && (tx.failAt.None? || tx.failAt.value >= |ReportInserts(res)|) && tx.commitOk
    ensures out.0.Failure? ==> out.0.error == ReportWriteFailed && out.1 == s
    ensures out.0.Success? ==> (out.0.value == s.nextId
      && out.1 == Append(s, res.xdr, now, res.recommends, res.distributes, res.conflicts))
  {
    var ins := ReportInserts(res);
    if !tx.beginOk then (Failure(ReportWriteFailed), s)
    else if tx.failAt.Some? && tx.failAt.value < |ins| then
      var _ := Stage(Report(s.nextId, NoXdr, now, [], [], [], None), ins[..tx.failAt.value]);
      (Failure(ReportWriteFailed), s)
    else if !tx.commitOk then (Failure(ReportWriteFailed), s)
    else
      var staged := Stage(Report(s.nextId, NoXdr, now, [], [], [], None), ins);
      StageReportInserts(s.nextId, now, res);
      (Success(s.nextId), Store(s.reports + [staged], s.nextId + 1))
  }

  lemma {:induction false} StageAppend(rep: Report, a: seq<Insert>, b: seq<Insert>)
    ensures Stage(rep, a + b) == Stage(Stage(rep, a), b)
  {
    if |b| == 0 {
      assert a + b == a;
    } else {
      StageAppend(rep, a, b[..|b| - 1]);
      assert (a + b)[..|a + b| - 1] == a + b[..|b| - 1];
    }
  }

  lemma {:induction false} StageRecommends(rep: Report, rows: seq<ReportRecommend>)
    ensures Stage(rep, RecommendInserts(rows)) == rep.(recommends := rep.recommends + rows)
  {
    if |rows| == 0 {
      assert rep.recommends + rows == rep.recommends;
    } else {
      var init := rows[..|rows| - 1];
      StageRecommends(rep, init);
      assert RecommendInserts(rows)[..|rows| - 1] == RecommendInserts(init);
      assert rep.recommends + init + [rows[|rows| - 1]] == rep.recommends + rows;
    }
  }

  lemma {:induction false} StageDistributes(rep: Report, rows: seq<ReportDistribute>)
    ensures Stage(rep, DistributeInserts(rows)) == rep.(distributes := rep.distributes + rows)
  {
    if |rows| == 0 {
      assert rep.distributes + rows == rep.distributes;
    } else {
      var init := rows[..|rows| - 1];
      StageDistributes(rep, init);
      assert DistributeInserts(rows)[..|rows| - 1] == DistributeInserts(init);
      assert rep.distributes + init + [rows[|rows| - 1]] == rep.distributes + rows;
    }
  }

  lemma {:induction false} StageConflicts(rep: Report, rows: seq<ReportConflict>)
    ensures Stage(rep, ConflictInserts(rows)) == rep.(conflicts := rep.conflicts + rows)
  {
    if |rows| == 0 {
      assert rep.conflicts + rows == rep.conflicts;
    } else {
      var init := rows[..|rows| - 1];
      StageConflicts(rep, init);
      assert ConflictInserts(rows)[..|rows| - 1] == ConflictInserts(init);
      assert rep.conflicts + init + [rows[|rows| - 1]] == rep.conflicts + rows;
    }
  }

  /** Replaying every statement of the transaction stages exactly the report of the result. */
  lemma StageReportInserts(id: int, now: int, res: DistributeResult)
    ensures Stage(Report(id, NoXdr, now, [], [], [], None), ReportInserts(res))
         == Report(id, res.xdr, now, res.recommends, res.distributes, res.conflicts, None)
  {
    var empty := Report(id, NoXdr, now, [], [], [], None);
    var h := [Header(res.xdr)];
    var r := RecommendInserts(res.recommends);
    var d := DistributeInserts(res.distributes);
    var c := ConflictInserts(res.conflicts);
    var withHeader := empty.(xdr := res.xdr);
    var withRecommends := withHeader.(recommends := res.recommends);
    var withDistributes := withRecommends.(distributes := res.distributes);
    calc {
      Stage(empty, ReportInserts(res));
      Stage(empty, h + r + d + c);
      { StageAppend(empty, h + r + d, c); }
      Stage(Stage(empty, h + r + d), c);
      { StageAppend(empty, h + r, d); }
      Stage(Stage(Stage(empty, h + r), d), c);
      { StageAppend(empty, h, r); }
      Stage(Stage(Stage(Stage(empty, h), r), d), c);
      { assert h[..0] == []; }
      Stage(Stage(Stage(withHeader, r), d), c);
      { StageRecommends(withHeader, res.recommends);
        assert [] + res.recommends == res.recommends; }
      Stage(Stage(withRecommends, d), c);
      { StageDistributes(withRecommends, res.distributes);
        assert [] + res.distributes == res.distributes; }
      Stage(withDistributes, c);
      { StageConflicts(withDistributes, res.conflicts);
        assert [] + res.conflicts == res.conflicts; }
      withDistributes.(conflicts := res.conflicts);
    }
  }

  // ---------------------------------------------------------------------
  // Distribute.
  // ---------------------------------------------------------------------

  /** The Go runtime iterates the fetched conflict map over each of its keys once. */
  predicate IteratesConflicts(w: World)
  {
    w.recommenders.Some? ==> EnumeratesKeys(w.conflictOrder, w.recommenders.value.conflict)
  }

  /**
    The first four stages: the baseline, the pool, the graph, the plan and
    its trustline check. The result is the plan, or the error of the stage
    that stopped the run.
   */
  function Prepare(w: World, s: Store): (r: Result<DistributeResult, Failure>)
    requires IteratesConflicts(w)
    ensures r.Failure? ==> StageOf(r.error) in {ReadBaseline, ReadBalance, FetchRecommenders, CheckTrustlines}
    ensures r.Success? ==> (w.reportsReadOk && w.recommenders.Some?
      && GetDistributeAmount(w.balance).Success? && r.value.sourceAddress == w.address)
  {
    match GetLastDistribute(s, w.reportsReadOk)
    case Failure(e) => Failure(e)
    case Success(last) =>
      match GetDistributeAmount(w.balance)
      case Failure(e) => Failure(e)
      case Success(amount) =>
        match w.recommenders
        case None => Failure(RecommendersFailed)
        case Some(recs) =>
          var plan := CalculateParts(last, amount, recs, w.conflictOrder, w.now).(sourceAddress := w.address);
          match CheckTrustlineList(plan.distributes, w.hasTrustline)
          case Failure(e) => Failure(e)
          case Success(missing) => Success(plan.(missingTrustlines := missing))
  }

  /** `s'` is `s` with the report of `res` appended under the next id, and `res` carries that id and an envelope. */
  predicate PublishedAs(s: Store, now: int, res: DistributeResult, s': Store)
  {
    && res.reportId == s.nextId
    && res.xdr.Envelope?
    && s' == Append(s, res.xdr, now, res.recommends, res.distributes, res.conflicts)
  }

  /** The last two stages in report mode: the envelope, then the report transaction. */
  function Publish(w: World, s: Store, plan: DistributeResult): (r: Run)
    ensures r.trace == Stages[..5] || r.trace == Stages
    ensures r.result.Failure? ==> StageOf(r.result.error) == r.trace[|r.trace| - 1]
    ensures r.result.Success? ==> r.trace == Stages
    ensures r.result.Failure? ==> r.store == s
    ensures r.result.Success? ==> PublishedAs(s, w.now, r.result.value, r.store)
  {
    match GetXdr(plan.distributes, w.address, w.accountDetailOk)
    case Failure(e) => Run(Failure(e), s, Stages[..5])
    case Success(xdr) =>
      var plan := plan.(xdr := xdr);
      var (created, s') := CreateReport(s, plan, w.tx, w.now);
      match created
      case Failure(e) => Run(Failure(e), s', Stages)
      case Success(id) => Run(Success(plan.(reportId := id)), s', Stages)
  }

  /** The position of a stage in `Stages`. */
  function StageIndex(st: Step): (i: nat)
    requires st in Stages
    ensures i < |Stages| && Stages[i] == st
  {
    match st
    case ReadBaseline => 0
    case ReadBalance => 1
    case FetchRecommenders => 2
    case CheckTrustlines => 3
    case BuildXdr => 4
    case WriteReport => 5
  }

  /** A non-empty prefix of the stages. */
  predicate StagePrefix(t: seq<Step>)
  {
    1 <= |t| <= |Stages| && t == Stages[..|t|]
  }

  /** The stages run while the lock is held: a prefix of `Stages` that stops at the failing stage. */
  function Locked(w: World, s: Store, opt: DistributeOptions): (r: Run)
    requires IteratesConflicts(w)
    ensures StagePrefix(r.trace)
    ensures r.result.Failure? ==> StageOf(r.result.error) == r.trace[|r.trace| - 1]
    ensures r.result.Success? ==> |r.trace| == (if opt.withoutReport then 4 else 6)
    ensures r.result.Failure? || opt.withoutReport ==> r.store == s
    ensures r.result.Success? && !opt.withoutReport ==> PublishedAs(s, w.now, r.result.value, r.store)
  {
    match Prepare(w, s)
    case Failure(e) =>
      var k := StageIndex(StageOf(e)) + 1;
      Run(Failure(e), s, Stages[..k])
    case Success(plan) =>
      if opt.withoutReport then Run(Success(plan), s, Stages[..4])
      else Publish(w, s, plan)
  }

  /**
    `Distribute`: apply the options to the zero record, take the report lock,
    run the stages, release the lock on every return (the deferred unlock).
    A failed lock returns at once: the unlock is deferred only once the lock
    is held.
   */
  function Distribute(w: World, s: Store, opts: seq<DistributeOption>): (r: Run)
    requires IteratesConflicts(w)
    ensures !w.lockOk <==> r.trace == []
    ensures !w.lockOk ==> r.result == Failure(LockFailed) && r.store == s
    ensures w.lockOk ==> (exists k :: 1 <= k <= |Stages| && r.trace == [Lock] + Stages[..k] + [Unlock])
  {
    var opt := ApplyOptions(opts);
    if !w.lockOk then Run(Failure(LockFailed), s, [])
    else
      var body := Locked(w, s, opt);
      Run(body.result, body.store, [Lock] + body.trace + [Unlock])
  }

  // ---------------------------------------------------------------------
  // Properties of Distribute.
  // ---------------------------------------------------------------------

  /** Whether the report lock is held after a trace. */
  function Held(trace: seq<Step>): bool
  {
    if |trace| == 0 then false
    else match trace[|trace| - 1]
      case Lock => true
      case Unlock => false
      case _ => Held(trace[..|trace| - 1])
  }

  lemma {:induction false} HeldThroughStages(k: nat)
    requires k <= |Stages|
    ensures Held([Lock] + Stages[..k])
  {
    if k > 0 {
      HeldThroughStages(k - 1);
      assert ([Lock] + Stages[..k])[..k] == [Lock] + Stages[..k - 1];
    }
  }

  /**
    The lock discipline: every stage runs while the lock is held, and the lock
    is released on every return.
   */
  lemma LockAlwaysReleased(w: World, s: Store, opts: seq<DistributeOption>)
    requires IteratesConflicts(w)
    ensures LockDiscipline(Distribute(w, s, opts).trace)
  {
    if w.lockOk {
      var k := |Locked(w, s, ApplyOptions(opts)).trace|;
      BracketedStages(k);
    }
  }

  /** The lock is released at the end of the trace and held during every stage. */
  predicate LockDiscipline(t: seq<Step>)
  {
    && !Held(t)
    && (forall i :: 0 <= i < |t| && t[i] in Stages ==> Held(t[..i]))
  }

  /** Any prefix of the stages between Lock and Unlock keeps the discipline. */
  lemma BracketedStages(k: nat)
    requires 1 <= k <= |Stages|
    ensures LockDiscipline([Lock] + Stages[..k] + [Unlock])
  {
    var t := [Lock] + Stages[..k] + [Unlock];
    forall i | 0 <= i < |t| && t[i] in Stages
      ensures Held(t[..i])
    {
      assert 1 <= i <= k;
      assert t[..i] == [Lock] + Stages[..i - 1];
      HeldThroughStages(i - 1);
    }
  }

  /**
    The error order is fixed: the stages run as a prefix of `Stages`, a
    failure comes from the last stage that ran, and success runs every stage
    the mode asks for.
   */
  lemma ErrorOrder(w: World, s: Store, opts: seq<DistributeOption>)
    requires IteratesConflicts(w)
    requires w.lockOk
    ensures var r := Distribute(w, s, opts);
      && (r.result.Failure? ==> StageOf(r.result.error) == r.trace[|r.trace| - 2])
      && (r.result.Success? ==> r.trace == [Lock] + (if ApplyOptions(opts).withoutReport then Stages[..4] else Stages) + [Unlock])
  {
  }

  /** A zero balance fails with ErrNoBalance, after the baseline read and before any ledger fetch. */
  lemma ZeroBalanceStopsEarly(w: World, s: Store, opts: seq<DistributeOption>)
    requires IteratesConflicts(w)
    requires w.lockOk && w.reportsReadOk && w.balance == BalanceText(Some(0.0))
    ensures var r := Distribute(w, s, opts);
      r.result == Failure(NoBalance) && r.trace == [Lock, ReadBaseline, ReadBalance, Unlock] && r.store == s
  {
    assert Stages[..2] == [ReadBaseline, ReadBalance];
  }

  /**
    A dry run (`WithoutReport` among the options) never touches the store and
    returns a plan without an envelope or a report id.
   */
  lemma DryRunWritesNothing(w: World, s: Store, opts: seq<DistributeOption>)
    requires IteratesConflicts(w)
    requires ApplyOptions(opts).withoutReport
    ensures var r := Distribute(w, s, opts);
      && r.store == s
      && (r.result.Success? ==> r.result.value.xdr == NoXdr && r.result.value.reportId == 0)
  {
  }

  /**
    A report is written all or nothing: a failed run or a dry run leaves the
    store as it was; a successful run in report mode appends one complete
    report holding the plan's rows under a fresh id, which the result
    carries, and that report is the pending one.
   */
  lemma ReportAllOrNothing(w: World, s: Store, opts: seq<DistributeOption>)
    requires IteratesConflicts(w)
    ensures var r := Distribute(w, s, opts);
      r.result.Failure? || ApplyOptions(opts).withoutReport ==> r.store == s
    ensures var r := Distribute(w, s, opts);
      r.result.Success? && !ApplyOptions(opts).withoutReport ==> (
        && PublishedAs(s, w.now, r.result.value, r.store)
        && (Valid(s) ==> Valid(r.store) && Pending(r.store).id == r.result.value.reportId))
  {
    var r := Distribute(w, s, opts);
    if r.result.Success? && !ApplyOptions(opts).withoutReport && Valid(s) {
      var v := r.result.value;
      AppendedIsPending(s, v.xdr, w.now, v.recommends, v.distributes, v.conflicts);
    }
  }
}
