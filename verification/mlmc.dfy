/**
  The commands of cmd/mlmc/main.go that drive a distribution: `report dry`,
  `report create` and `distribute` (resume a pending report or create a new
  one, submit it, record the hash, notify).

  The ledger submission, the hash update and the Telegram message are
  collaborator outcomes recorded in an `AppWorld`; the report store is the
  abstract value of the ReportStore module.
 */
module Mlmc {
  import opened Wrap
  import opened Mlm
  import opened ReportStore
  import opened Distributor

  /** The three row queries `buildResultFromReport` issues, in order. */
  datatype RowQuery = RecommendsQuery | DistributesQuery | ConflictsQuery

  datatype AppFailure =
    | LookupFailed                     // GetPendingReport, other than no rows
    | RebuildFailed(query: RowQuery)   // one of the row queries
    | DistributeFailed(cause: Failure) // Distributor.Distribute
    | SubmitFailed                     // SubmitXDR
    | SetHashFailed                    // SetReportHash
    | NotifyFailed                     // the Telegram message

  datatype AppStep =
    | LookupPending
    | RebuildFromReport(id: int)
    | RunDistribute(trace: seq<Step>)
    | Submit(xdr: Xdr)
    | SetReportHash(id: int, hash: string)
    | Notify

  /** How each collaborator answers during one command. */
  datatype AppWorld = AppWorld(
    pendingLookupOk: bool,
    recommendsReadOk: bool,
    distributesReadOk: bool,
    conflictsReadOk: bool,
    distribute: World,
    submit: Option<string>,   // the transaction hash, or None when submission fails
    setHashOk: bool,
    notifyTg: bool,           // the --notify-tg flag
    notifyOk: bool)

  datatype AppRun = AppRun(result: Result<DistributeResult, AppFailure>, store: Store, trace: seq<AppStep>)

  /** The Go zero value of `mlm.DistributeResult`. */
  const ZeroResult: DistributeResult := DistributeResult(0, NoXdr, [], [], [], [], [], 0, 0.0, 0.0, 0, 0, "")

  /**
    `buildResultFromReport`: the stored rows of the report, queried in the
    order recommends, distributes, conflicts; the first failed query aborts.
   */
  function BuildResultFromReport(rep: Report, aw: AppWorld): (r: Result<DistributeResult, AppFailure>)
    ensures r.Success? <==> aw.recommendsReadOk && aw.distributesReadOk && aw.conflictsReadOk
    ensures !aw.recommendsReadOk ==> r == Failure(RebuildFailed(RecommendsQuery))
    ensures aw.recommendsReadOk && !aw.distributesReadOk ==> r == Failure(RebuildFailed(DistributesQuery))
    ensures r.Success? ==> (
      && r.value.reportId == rep.id && r.value.xdr == rep.xdr && r.value.createdAt == rep.createdAt
      && r.value.recommends == rep.recommends && r.value.distributes == rep.distributes && r.value.conflicts == rep.conflicts
      && r.value.amount == 0.0 && r.value.amountPerTag == 0.0
      && r.value.recommendDeltas == [] && r.value.missingTrustlines == []
      && r.value.recommendedNewCount == 0 && r.value.recommendedLevelUpCount == 0)
  {
    if !aw.recommendsReadOk then Failure(RebuildFailed(RecommendsQuery))
    else if !aw.distributesReadOk then Failure(RebuildFailed(DistributesQuery))
    else if !aw.conflictsReadOk then Failure(RebuildFailed(ConflictsQuery))
    else Success(ZeroResult.(
      reportId := rep.id, xdr := rep.xdr, createdAt := rep.createdAt,
      recommends := rep.recommends, distributes := rep.distributes, conflicts := rep.conflicts))
  }

  /** The closing notification, when `--notify-tg` is set; its failure is the command's error. */
  function MaybeNotify(res: DistributeResult, s: Store, trace: seq<AppStep>, aw: AppWorld): (r: AppRun)
    ensures r.store == s
    ensures r.trace == trace + (if aw.notifyTg then [Notify] else [])
    ensures r.result == (if aw.notifyTg && !aw.notifyOk then Failure(NotifyFailed) else Success(res))
  {
    if !aw.notifyTg then AppRun(Success(res), s, trace)
    else if aw.notifyOk then AppRun(Success(res), s, trace + [Notify])
    else AppRun(Failure(NotifyFailed), s, trace + [Notify])
  }

  /** Whether a trace submits or records a hash. */
  predicate Settles(trace: seq<AppStep>)
  {
    exists i :: 0 <= i < |trace| && (trace[i].Submit? || trace[i].SetReportHash?)
  }

  /** What `report dry` and `report create` do with the outcome of `Distribute`: report the error, or notify. */
  function AfterRun(aw: AppWorld, run: Run): (r: AppRun)
    ensures r.store == run.store
    ensures !Settles(r.trace) && |r.trace| >= 1 && r.trace[0] == RunDistribute(run.trace)
    ensures r.result.Success? ==> run.result.Success? && r.result.value == run.result.value
    ensures run.result.Failure? ==> r.result == Failure(DistributeFailed(run.result.error))
  {
    match run.result
    case Failure(e) => AppRun(Failure(DistributeFailed(e)), run.store, [RunDistribute(run.trace)])
    case Success(res) => MaybeNotify(res, run.store, [RunDistribute(run.trace)], aw)
  }

  /** `report dry`: a plan without a report, then the optional notification; the store is untouched. */
  function ReportDry(aw: AppWorld, s: Store): (r: AppRun)
    requires IteratesConflicts(aw.distribute)
    ensures r.store == s && !Settles(r.trace)
    ensures r.result.Success? ==> r.result.value.reportId == 0 && r.result.value.xdr == NoXdr
  {
    DryRunWritesNothing(aw.distribute, s, [WithoutReport()]);
    AfterRun(aw, Distribute(aw.distribute, s, [WithoutReport()]))
  }

  /** `report create`: persist a report in report mode and never submit it. */
  function ReportCreate(aw: AppWorld, s: Store): (r: AppRun)
    requires IteratesConflicts(aw.distribute)
    ensures !Settles(r.trace)
    ensures r.result.Success? && Valid(s) ==> Pending(r.store).id == r.result.value.reportId
    ensures r.result.Failure? ==> r.store == s || r.result.error == NotifyFailed
  {
    ReportAllOrNothingFresh(aw.distribute, s);
    AfterRun(aw, Distribute(aw.distribute, s, []))
  }

  /** Without options a successful run has always persisted its report; a failed one has written nothing. */
  lemma ReportAllOrNothingFresh(w: World, s: Store)
    requires IteratesConflicts(w)
    ensures var r := Distribute(w, s, []);
      r.result.Success? ==> PublishedAs(s, w.now, r.result.value, r.store)
    ensures var r := Distribute(w, s, []);
      r.result.Failure? ==> r.store == s
    ensures var r := Distribute(w, s, []);
      r.result.Success? && Valid(s) ==> Pending(r.store).id == r.result.value.reportId
  {
    ReportAllOrNothing(w, s, []);
  }

  /**
    The first half of `distribute`: the pending report if there is one,
    otherwise `newRun`, the outcome of `Distribute` run with no options on the
    same store. `newRun` is consulted only when no report is pending.
   */
  function Obtain(aw: AppWorld, s: Store, newRun: Run): (r: AppRun)
    ensures r.trace == [LookupPending] || (|r.trace| == 2 && r.trace[0] == LookupPending && (r.trace[1].RebuildFromReport? || r.trace[1].RunDistribute?))
    ensures r.result.Success? ==> |r.trace| == 2
    ensures !aw.pendingLookupOk ==> r.trace == [LookupPending] && r.result == Failure(LookupFailed) && r.store == s
    ensures aw.pendingLookupOk && Pending(s).id != 0 ==> r.store == s && |r.trace| == 2 && r.trace[1] == RebuildFromReport(Pending(s).id)
    ensures aw.pendingLookupOk && Pending(s).id == 0 ==> (
      && r.store == newRun.store && |r.trace| == 2 && r.trace[1] == RunDistribute(newRun.trace)
      && (r.result.Success? <==> newRun.result.Success?)
      && (r.result.Success? ==> r.result.value == newRun.result.value))
  {
    if !aw.pendingLookupOk then AppRun(Failure(LookupFailed), s, [LookupPending])
    else
      var pending := Pending(s);
      if pending.id != 0 then
        AppRun(BuildResultFromReport(pending, aw), s, [LookupPending, RebuildFromReport(pending.id)])
      else
        var res := match newRun.result
          case Failure(e) => Failure(DistributeFailed(e))
          case Success(v) => Success(v);
        AppRun(res, newRun.store, [LookupPending, RunDistribute(newRun.trace)])
  }

  /** The second half of `distribute`: submit, then record the hash against the report id, then notify. */
  function Settle(aw: AppWorld, res: DistributeResult, s: Store, trace: seq<AppStep>): (r: AppRun)
    ensures aw.submit.None? ==> r.result == Failure(SubmitFailed) && r.store == s && r.trace == trace + [Submit(res.xdr)]
    ensures aw.submit.Some? && !aw.setHashOk ==> r.result == Failure(SetHashFailed) && r.store == s
    ensures aw.submit.Some? && aw.setHashOk ==> r.store == SetHash(s, res.reportId, aw.submit.value)
    ensures aw.submit.Some? ==> (
      r.trace == trace + [Submit(res.xdr), SetReportHash(res.reportId, aw.submit.value)]
        + (if aw.setHashOk && aw.notifyTg then [Notify] else []))
  {
    match aw.submit
    case None => AppRun(Failure(SubmitFailed), s, trace + [Submit(res.xdr)])
    case Some(hash) =>
      var recorded := trace + [Submit(res.xdr), SetReportHash(res.reportId, hash)];
      if !aw.setHashOk then AppRun(Failure(SetHashFailed), s, recorded)
      else MaybeNotify(res, SetHash(s, res.reportId, hash), recorded, aw)
  }

  /** `distribute`, given what a fresh `Distribute` run would return. */
  function Command(aw: AppWorld, s: Store, newRun: Run): (r: AppRun)
    ensures |r.trace| >= 1 && r.trace[0] == LookupPending
    ensures !aw.pendingLookupOk ==> r == AppRun(Failure(LookupFailed), s, [LookupPending])
  {
    var first := Obtain(aw, s, newRun);
    match first.result
    case Failure(e) => first
    case Success(res) => Settle(aw, res, first.store, first.trace)
  }

  /** `distribute`: a lookup error aborts; with no pending report `Distribute` runs in report mode. */
  function DistributeCmd(aw: AppWorld, s: Store): (r: AppRun)
    requires IteratesConflicts(aw.distribute)
    ensures !aw.pendingLookupOk ==> r == AppRun(Failure(LookupFailed), s, [LookupPending])
    ensures aw.pendingLookupOk && Pending(s).id == 0 ==> (
      && |r.trace| >= 2 && r.trace[1] == RunDistribute(Distribute(aw.distribute, s, []).trace)
      && !ApplyOptions([]).withoutReport)
  {
    var newRun := Distribute(aw.distribute, s, []);
    var r := Command(aw, s, newRun);
    CmdTrace(aw, s, newRun);
    r
  }

  // ---------------------------------------------------------------------
  // Properties of the commands.
  // ---------------------------------------------------------------------

  /** The trace of `distribute` after a successful first half: the lookup, how the result was obtained, then the settling steps. */
  lemma CmdTrace(aw: AppWorld, s: Store, newRun: Run)
    ensures var first := Obtain(aw, s, newRun);
      first.result.Failure? ==> Command(aw, s, newRun) == first
    ensures var first := Obtain(aw, s, newRun);
      first.result.Success? && aw.submit.None? ==>
        Command(aw, s, newRun).trace == [LookupPending, first.trace[1], Submit(first.result.value.xdr)]
    ensures var first := Obtain(aw, s, newRun);
      first.result.Success? && aw.submit.Some? ==>
        Command(aw, s, newRun).trace == [LookupPending, first.trace[1], Submit(first.result.value.xdr),
          SetReportHash(first.result.value.reportId, aw.submit.value)] + (if aw.setHashOk && aw.notifyTg then [Notify] else [])
  {
    var first := Obtain(aw, s, newRun);
    if first.result.Success? {
      assert first.trace == [LookupPending, first.trace[1]];
    }
  }

  /**
    A pending report is reused and never recomputed: its rows are read back,
    `Distribute` does not run, whatever it would return, and the pending
    report's own envelope is submitted.
   */
  lemma PendingReused(aw: AppWorld, s: Store, newRun: Run, other: Run)
    requires aw.pendingLookupOk && Pending(s).id != 0
    ensures var r := Command(aw, s, newRun);
      && r == Command(aw, s, other)
      && r.trace[1] == RebuildFromReport(Pending(s).id)
      && (forall i :: 0 <= i < |r.trace| ==> !r.trace[i].RunDistribute?)
      && (aw.recommendsReadOk && aw.distributesReadOk && aw.conflictsReadOk ==> r.trace[2] == Submit(Pending(s).xdr))
  {
    CmdTrace(aw, s, newRun);
    assert Obtain(aw, s, newRun) == Obtain(aw, s, other);
  }

  /** Whether each hash step of a trace directly follows a submit and records the hash `submit` returned. */
  predicate HashFollowsSubmit(t: seq<AppStep>, submit: Option<string>)
  {
    forall i :: 0 <= i < |t| && t[i].SetReportHash? ==> i >= 1 && t[i - 1].Submit? && submit == Some(t[i].hash)
  }

  /** Whether a notification in a trace is its last step and directly follows a hash step. */
  predicate NotifyIsLast(t: seq<AppStep>)
  {
    forall i :: 0 <= i < |t| && t[i] == Notify ==> i == |t| - 1 && i >= 1 && t[i - 1].SetReportHash?
  }

  /** Every trace `distribute` can produce keeps both orderings. */
  lemma CmdTraceShapes(t: seq<AppStep>, x: AppStep, xdr: Xdr, id: int, submit: Option<string>, tail: seq<AppStep>)
    requires !x.SetReportHash? && x != Notify
    requires tail == [] || tail == [Notify]
    requires || t == [LookupPending]
             || t == [LookupPending, x]
             || (submit.None? && t == [LookupPending, x, Submit(xdr)])
             || (submit.Some? && t == [LookupPending, x, Submit(xdr), SetReportHash(id, submit.value)] + tail)
    ensures HashFollowsSubmit(t, submit) && NotifyIsLast(t)
  {
  }

  /**
    The settling order of `distribute`: the hash is recorded only right after
    a successful submit, with the hash that submit returned; the notification,
    when sent, is the last step, follows the recorded hash, and is sent only
    once the hash update succeeded.
   */
  lemma SettleOrder(aw: AppWorld, s: Store, newRun: Run)
    ensures HashFollowsSubmit(Command(aw, s, newRun).trace, aw.submit)
    ensures NotifyIsLast(Command(aw, s, newRun).trace)
    ensures Notify in Command(aw, s, newRun).trace ==> aw.submit.Some? && aw.setHashOk && aw.notifyTg
  {
    var first := Obtain(aw, s, newRun);
    CmdTrace(aw, s, newRun);
    var tail: seq<AppStep> := if aw.setHashOk && aw.notifyTg then [Notify] else [];
    var x := if |first.trace| == 2 then first.trace[1] else LookupPending;
    var xdr := if first.result.Success? then first.result.value.xdr else NoXdr;
    var id := if first.result.Success? then first.result.value.reportId else 0;
    CmdTraceShapes(Command(aw, s, newRun).trace, x, xdr, id, aw.submit, tail);
  }

  /** With a pending report, `distribute` changes the store only by recording the hash of that report. */
  lemma StoreChangesOnlyByHash(aw: AppWorld, s: Store, newRun: Run)
    requires aw.pendingLookupOk && Pending(s).id != 0
    ensures var r := Command(aw, s, newRun);
      r.store == s || (aw.submit.Some? && aw.setHashOk && r.store == SetHash(s, Pending(s).id, aw.submit.value))
  {
  }

  /** A failed hash update after a successful submit leaves the submitted report pending. */
  lemma FailedHashLeavesPending(aw: AppWorld, s: Store, newRun: Run)
    requires aw.pendingLookupOk && Pending(s).id != 0 && aw.submit.Some? && !aw.setHashOk
    requires aw.recommendsReadOk && aw.distributesReadOk && aw.conflictsReadOk
    ensures var r := Command(aw, s, newRun);
      r.result == Failure(SetHashFailed) && Pending(r.store) == Pending(s)
  {
  }

  /**
    A failed submit after a new run leaves the new report pending, so the
    next `distribute` rebuilds that very report, with the same envelope,
    instead of computing a new plan.
   */
  lemma ResumeAfterFailedSubmit(aw: AppWorld, s: Store, aw2: AppWorld, newRun2: Run)
    requires IteratesConflicts(aw.distribute)
    requires Valid(s) && aw.pendingLookupOk && Pending(s).id == 0 && aw.submit.None?
    requires aw2.pendingLookupOk && aw2.recommendsReadOk && aw2.distributesReadOk && aw2.conflictsReadOk
    ensures var r, run := DistributeCmd(aw, s), Distribute(aw.distribute, s, []);
      run.result.Success? ==>
        && r.result == Failure(SubmitFailed)
        && Pending(r.store).id == run.result.value.reportId
        && (var again := Command(aw2, r.store, newRun2);
          && again.trace[1] == RebuildFromReport(run.result.value.reportId)
          && again.trace[2] == Submit(run.result.value.xdr)
          && (forall i :: 0 <= i < |again.trace| ==> !again.trace[i].RunDistribute?))
  {
    var run := Distribute(aw.distribute, s, []);
    if run.result.Success? {
      ReportAllOrNothingFresh(aw.distribute, s);
      CmdTrace(aw, s, run);
      var r := Command(aw, s, run);
      assert r == DistributeCmd(aw, s);
      assert r.store == run.store;
      AppendedIsPending(s, run.result.value.xdr, aw.distribute.now, run.result.value.recommends, run.result.value.distributes, run.result.value.conflicts);
      PendingReused(aw2, r.store, newRun2, newRun2);
    }
  }
}
