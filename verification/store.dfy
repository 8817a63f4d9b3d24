/**
  The report tables as an abstract value. Postgres, the generated queries and
  their SQL are not part of this model; what the workflow relies on is kept:
  reports get increasing positive ids, a report carries its recommend,
  distribute and conflict rows, and a report whose hash is unset is pending.
 */
module ReportStore {
  import opened Wrap
  import opened Mlm

  datatype Report = Report(
    id: int,
    xdr: Xdr,
    createdAt: int,
    recommends: seq<ReportRecommend>,
    distributes: seq<ReportDistribute>,
    conflicts: seq<ReportConflict>,
    hash: Option<string>)

  /** The Go zero value of `db.Report`: what `GetPendingReport` leaves behind on no rows. */
  const ZeroReport: Report := Report(0, NoXdr, 0, [], [], [], None)

  /** Reports in insertion order; `nextId` is the id the next insert receives. */
  datatype Store = Store(reports: seq<Report>, nextId: int)

  /** Ids are positive, strictly increasing in insertion order, and below `nextId`. */
  predicate Valid(s: Store)
  {
    && s.nextId >= 1
    && (forall i :: 0 <= i < |s.reports| ==> 1 <= s.reports[i].id < s.nextId)
    && (forall i, j :: 0 <= i < j < |s.reports| ==> s.reports[i].id < s.reports[j].id)
  }

  predicate IsPending(r: Report)
  {
    r.hash.None?
  }

  /** `GetReports(ctx, 1)`: the most recent report, if any. */
  function Latest(s: Store): (r: Option<Report>)
    ensures r.None? <==> |s.reports| == 0
    ensures r.Some? ==> r.value == s.reports[|s.reports| - 1]
  {
    if |s.reports| == 0 then None else Some(s.reports[|s.reports| - 1])
  }

  /** `GetPendingReport`: the most recent report without a hash, or the zero report on no rows. */
  function Pending(s: Store): (r: Report)
    ensures r == ZeroReport || (r in s.reports && IsPending(r))
    decreases |s.reports|
  {
    if |s.reports| == 0 then ZeroReport
    else if IsPending(s.reports[|s.reports| - 1]) then s.reports[|s.reports| - 1]
    else Pending(Store(s.reports[..|s.reports| - 1], s.nextId))
  }

  /** `CreateReport` and its row inserts, committed together: append a report with a fresh id. */
  function Append(s: Store, xdr: Xdr, createdAt: int, recommends: seq<ReportRecommend>, distributes: seq<ReportDistribute>, conflicts: seq<ReportConflict>): (s': Store)
    ensures s'.reports == s.reports + [Report(s.nextId, xdr, createdAt, recommends, distributes, conflicts, None)]
    ensures s'.nextId == s.nextId + 1
    ensures Valid(s) ==> Valid(s')
  {
    Store(s.reports + [Report(s.nextId, xdr, createdAt, recommends, distributes, conflicts, None)], s.nextId + 1)
  }

  /** `SetReportHash`: the report with that id gets the hash; no report has it, nothing changes. */
  function SetHash(s: Store, id: int, hash: string): (s': Store)
    ensures |s'.reports| == |s.reports| && s'.nextId == s.nextId
    ensures forall i :: 0 <= i < |s.reports| ==>
      s'.reports[i] == (if s.reports[i].id == id then s.reports[i].(hash := Some(hash)) else s.reports[i])
  {
    Store(SetHashIn(s.reports, id, hash), s.nextId)
  }

  function SetHashIn(rs: seq<Report>, id: int, hash: string): (rs': seq<Report>)
    ensures |rs'| == |rs|
    ensures forall i :: 0 <= i < |rs| ==> rs'[i] == (if rs[i].id == id then rs[i].(hash := Some(hash)) else rs[i])
  {
    if |rs| == 0 then []
    else SetHashIn(rs[..|rs| - 1], id, hash) + [if rs[|rs| - 1].id == id then rs[|rs| - 1].(hash := Some(hash)) else rs[|rs| - 1]]
  }

  // ---------------------------------------------------------------------
  // Properties.
  // ---------------------------------------------------------------------

  /** A freshly appended report is the pending one. */
  lemma AppendedIsPending(s: Store, xdr: Xdr, createdAt: int, recommends: seq<ReportRecommend>, distributes: seq<ReportDistribute>, conflicts: seq<ReportConflict>)
    requires Valid(s)
    ensures var s' := Append(s, xdr, createdAt, recommends, distributes, conflicts);
      Pending(s') == Report(s.nextId, xdr, createdAt, recommends, distributes, conflicts, None) && Pending(s').id != 0
  {
  }

  /** A pending report has a non-zero id, so `ID != 0` tells a found report from no rows. */
  lemma {:induction false} PendingIdNonZero(s: Store)
    requires Valid(s)
    ensures Pending(s).id != 0 <==> exists r :: r in s.reports && IsPending(r)
    decreases |s.reports|
  {
    if |s.reports| > 0 {
      var init := Store(s.reports[..|s.reports| - 1], s.nextId);
      assert Valid(init);
      PendingIdNonZero(init);
      assert forall r :: r in s.reports <==> r in init.reports || r == s.reports[|s.reports| - 1];
    }
  }

  /** Setting the hash of the pending report in a valid store settles exactly that report. */
  lemma {:induction false} SetHashSettles(s: Store, hash: string)
    requires Valid(s) && Pending(s).id != 0
    ensures var s' := SetHash(s, Pending(s).id, hash);
      && Valid(s')
      && (forall i :: 0 <= i < |s.reports| ==> s'.reports[i].id == s.reports[i].id)
      && (exists i :: 0 <= i < |s.reports| && s.reports[i] == Pending(s) && s'.reports[i].hash == Some(hash)
           && (forall j :: 0 <= j < |s.reports| && j != i ==> s'.reports[j] == s.reports[j]))
  {
    PendingIdNonZero(s);
    var p := Pending(s);
    var i :| 0 <= i < |s.reports| && s.reports[i] == p;
    forall j | 0 <= j < |s.reports| && j != i
      ensures s.reports[j].id != p.id
    {
      if j < i {
        assert s.reports[j].id < s.reports[i].id;
      } else {
        assert s.reports[i].id < s.reports[j].id;
      }
    }
  }
}
