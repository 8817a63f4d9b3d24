/**
  The graph builder and the payout calculation together: the graph that
  `accountsToResult` builds never lets two non-conflicted claims target the
  same account, so a cycle that reruns over an unchanged ledger, against the
  baseline its predecessor committed, pays nothing.
 */
module Cycle {
  import opened Mlm
  import opened Stellar
  import opened Calculate
  import opened PayoutProperties

  /** Two claims on one account always make it a conflict, so the non-conflicted claims target distinct accounts. */
  lemma BuiltGraphHasUniqueClaims(accs: seq<Account>, decode: Decoder)
    ensures var r := AccountsToResult(accs, decode);
      UniqueUnconflicted(r.conflict, Edges(r.recommenders))
  {
    var r := AccountsToResult(accs, decode);
    var es := Edges(r.recommenders);
    AccountsToResultMeaning(accs, decode);
    forall i, j | 0 <= i < j < |es| && es[i].recommended == es[j].recommended
      ensures Conflicted(r.conflict, es[i])
    {
      ConflictIffClaimedTwice(es, es[i].recommended);
    }
  }

  /**
    Rerunning the calculation over the same ledger against the baseline
    rebuilt from the first cycle's `Recommends` rows finds no increase and
    pays nothing, whatever the new pool.
   */
  lemma SameLedgerPaysOnce(accs: seq<Account>, decode: Decoder, last: Baseline, amount: real, amount': real, order: seq<string>, now: int, now': int)
    requires EnumeratesKeys(order, AccountsToResult(accs, decode).conflict)
    ensures var recs := AccountsToResult(accs, decode);
      var first := CalculateParts(last, amount, recs, order, now);
      var second := CalculateParts(BaselineFromRows(first.recommends), amount', recs, order, now');
      && second.distributes == []
      && second.recommendDeltas == []
      && second.recommendedLevelUpCount == 0
  {
    BuiltGraphHasUniqueClaims(accs, decode);
    SecondRunPaysNothing(last, amount, amount', AccountsToResult(accs, decode), order, now, now');
  }
}
