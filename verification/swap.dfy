/**
  The token swap of stellar/swap.go: which balances are swappable, the
  first-path price rule, and the per-token decision loop of `ExecuteSwaps`
  (price error, price above the threshold, swap error, or swap).

  Horizon answers (account balances, strict-send paths, the swap
  submission) are inputs; amounts are exact reals and `strconv.ParseFloat`
  is an abstract `parse`.
 */
module Swap {
  import opened Wrap
  import opened Stellar
  import opened Calculate

  datatype Token = Token(code: string, issuer: string)

  /** The tokens the account swaps to LABR. */
  const SwappableTokens: seq<Token> := [Token(EurmtlAsset, EurmtlIssuer)]

  datatype TokenBalance = TokenBalance(code: string, issuer: string, balance: real)

  datatype BalanceFailure = AccountDetailFailed

  /** Why `GetSwapPrice` fails: the path request, no path at all, or an unparseable amount. */
  datatype PriceFailure = PathsFailed | NoPath | AmountUnparseable

  // ---------------------------------------------------------------------
  // GetSwappableBalances.
  // ---------------------------------------------------------------------

  /** The balance of `t` when it is swappable: a non-empty credit balance that parses and is positive. */
  function Swappable(t: Token, credit: Token -> string, parse: string -> Option<real>): (r: Option<TokenBalance>)
    ensures r.Some? <==> credit(t) != "" && parse(credit(t)).Some? && parse(credit(t)).value > 0.0
    ensures r.Some? ==> r.value == TokenBalance(t.code, t.issuer, parse(credit(t)).value)
  {
    var text := credit(t);
    if text == "" then None
    else match parse(text)
      case None => None
      case Some(b) => if b > 0.0 then Some(TokenBalance(t.code, t.issuer, b)) else None
  }

  /** The loop of `GetSwappableBalances` over `tokens`. */
  function KeepSwappable(tokens: seq<Token>, credit: Token -> string, parse: string -> Option<real>): (bs: seq<TokenBalance>)
    ensures |bs| <= |tokens|
    ensures forall b :: b in bs <==> exists t :: t in tokens && Swappable(t, credit, parse) == Some(b)
  {
    if |tokens| == 0 then []
    else
      var init := tokens[..|tokens| - 1];
      var t := tokens[|tokens| - 1];
      var rest := KeepSwappable(init, credit, parse);
      assert forall x :: x in tokens <==> x in init || x == t;
      match Swappable(t, credit, parse)
      case None => rest
      case Some(b) => rest + [b]
  }

  /** Filtering keeps the order of the tokens: it distributes over concatenation. */
  lemma {:induction false} KeepSwappableAppend(a: seq<Token>, b: seq<Token>, credit: Token -> string, parse: string -> Option<real>)
    ensures KeepSwappable(a + b, credit, parse) == KeepSwappable(a, credit, parse) + KeepSwappable(b, credit, parse)
    decreases |b|
  {
    if |b| == 0 {
      assert a + b == a;
    } else {
      var init := b[..|b| - 1];
      var t := b[|b| - 1];
      var last := match Swappable(t, credit, parse) case None => [] case Some(x) => [x];
      KeepSwappableAppend(a, init, credit, parse);
      assert (a + b)[..|a + b| - 1] == a + init;
      assert (a + b)[|a + b| - 1] == t;
      assert KeepSwappable(b, credit, parse) == KeepSwappable(init, credit, parse) + last;
      assert KeepSwappable(a + b, credit, parse) == KeepSwappable(a + init, credit, parse) + last;
    }
  }

  /**
    `GetSwappableBalances`: the account detail, then the swappable tokens in
    the order of `SwappableTokens`. `detail` is None when the account
    request fails, else the credit balance text of each token.
   */
  function GetSwappableBalances(detail: Option<Token -> string>, parse: string -> Option<real>): (r: Result<seq<TokenBalance>, BalanceFailure>)
    ensures r.Failure? <==> detail.None?
    ensures r.Success? ==> forall b :: b in r.value <==>
      exists t :: t in SwappableTokens && Swappable(t, detail.value, parse) == Some(b)
  {
    match detail
    case None => Failure(AccountDetailFailed)
    case Some(credit) => Success(KeepSwappable(SwappableTokens, credit, parse))
  }

  // ---------------------------------------------------------------------
  // GetSwapPrice.
  // ---------------------------------------------------------------------

  /**
    `GetSwapPrice`: the destination amount of the first (best) path for one
    unit of the source asset. `paths` is None when the path request fails,
    else the destination amounts of the returned records.
   */
  function GetSwapPrice(paths: Option<seq<string>>, parse: string -> Option<real>): (r: Result<real, PriceFailure>)
    ensures paths.None? <==> r == Failure(PathsFailed)
    ensures paths == Some([]) <==> r == Failure(NoPath)
    ensures r.Success? <==> paths.Some? && |paths.value| > 0 && parse(paths.value[0]).Some?
    ensures r.Success? ==> r.value == parse(paths.value[0]).value
  {
    match paths
    case None => Failure(PathsFailed)
    case Some(records) =>
      if |records| == 0 then Failure(NoPath)
      else match parse(records[0])
        case None => Failure(AmountUnparseable)
        case Some(amount) => Success(amount)
  }

  /** Only the first record counts: records after it never change the price. */
  lemma FirstRecordRule(first: string, more: seq<string>, parse: string -> Option<real>)
    ensures GetSwapPrice(Some([first] + more), parse) == GetSwapPrice(Some([first]), parse)
  {
  }

  // ---------------------------------------------------------------------
  // The decision for one balance.
  // ---------------------------------------------------------------------

  /** A price in float64 terms: `1 / 0` is +Inf. */
  datatype Price = Finite(value: real) | Infinite

  /** `pricePerLABR := 1 / labrPerUnit`: source units per LABR. */
  function PricePerLabr(labrPerUnit: real): (p: Price)
    ensures p.Infinite? <==> labrPerUnit == 0.0
    ensures p.Finite? ==> p.value * labrPerUnit == 1.0
  {
    if labrPerUnit == 0.0 then Infinite else Finite(1.0 / labrPerUnit)
  }

  /** `pricePerLABR > priceThreshold`; +Inf exceeds every threshold. */
  predicate Exceeds(p: Price, threshold: real)
  {
    p.Infinite? || p.value > threshold
  }

  /** The slippage floor: 99% of the expected LABR. */
  function MinDestAmount(balance: real, labrPerUnit: real): (m: real)
    ensures balance * labrPerUnit >= 0.0 ==> m <= balance * labrPerUnit
    ensures balance * labrPerUnit >= 0.0 ==> m >= 0.0
    ensures m == balance * labrPerUnit - (balance * labrPerUnit) / 100.0
  {
    var expected := balance * labrPerUnit;
    expected * 0.99
  }

  /** What the swap submission returns: the transaction hash and the LABR amount. */
  datatype Receipt = Receipt(hash: string, amount: real)

  datatype SwapResult = SwapResult(fromAsset: string, fromAmount: real, toAsset: string, toAmount: real, txHash: string, pricePerLabr: Price)

  datatype PriceExceededAlert = PriceExceededAlert(fromAsset: string, fromAmount: real, pricePerLabr: Price, threshold: real)

  /** A per-token failure; `stage` is "get_price" or "swap". The error text is not modelled. */
  datatype SwapError = SwapError(asset: string, stage: string)

  datatype SwapSummary = SwapSummary(
    swaps: seq<SwapResult>,
    priceExceeded: seq<PriceExceededAlert>,
    errors: seq<SwapError>,
    totalFromEur: real,
    totalToLabr: real)

  /** How the loop ends for one balance. */
  datatype Outcome =
    | PriceError
    | Exceeded(alert: PriceExceededAlert)
    | SwapFailed
    | Swapped(result: SwapResult)

  /**
    The collaborators of the loop: the strict-send path amounts for one unit
    of a token, and the swap submission given the balance and the minimum
    destination amount (None when it fails).
   */
  datatype Market = Market(
    paths: Token -> Option<seq<string>>,
    parse: string -> Option<real>,
    swap: (TokenBalance, real) -> Option<Receipt>)

  function TokenOf(b: TokenBalance): Token
  {
    Token(b.code, b.issuer)
  }

  /** The quote for a balance was obtained and its price is within the threshold, so the swap is submitted. */
  predicate Submitted(b: TokenBalance, threshold: real, m: Market)
  {
    var q := GetSwapPrice(m.paths(TokenOf(b)), m.parse);
    q.Success? && !Exceeds(PricePerLabr(q.value), threshold)
  }

  /** What the swap submission answers for a submitted balance, given the quote's slippage floor. */
  function Submission(b: TokenBalance, threshold: real, m: Market): Option<Receipt>
    requires Submitted(b, threshold, m)
  {
    m.swap(b, MinDestAmount(b.balance, GetSwapPrice(m.paths(TokenOf(b)), m.parse).value))
  }

  /** The body of the loop of `ExecuteSwaps` for one balance. */
  function Decide(b: TokenBalance, threshold: real, m: Market): (o: Outcome)
    ensures o.PriceError? <==> GetSwapPrice(m.paths(TokenOf(b)), m.parse).Failure?
    ensures o.Exceeded? <==> (var q := GetSwapPrice(m.paths(TokenOf(b)), m.parse);
      q.Success? && Exceeds(PricePerLabr(q.value), threshold))
    ensures o.Exceeded? ==> o.alert == PriceExceededAlert(b.code, b.balance, o.alert.pricePerLabr, threshold)
    ensures o.Swapped? <==> Submitted(b, threshold, m) && Submission(b, threshold, m).Some?
    ensures o.SwapFailed? <==> Submitted(b, threshold, m) && Submission(b, threshold, m).None?
    ensures o.Swapped? ==> (var q := GetSwapPrice(m.paths(TokenOf(b)), m.parse);
      var receipt := Submission(b, threshold, m).value;
      o.result == SwapResult(b.code, b.balance, LabrAsset, receipt.amount, receipt.hash, PricePerLabr(q.value)))
  {
    match GetSwapPrice(m.paths(TokenOf(b)), m.parse)
    case Failure(_) => PriceError
    case Success(labrPerUnit) =>
      var price := PricePerLabr(labrPerUnit);
      if Exceeds(price, threshold) then Exceeded(PriceExceededAlert(b.code, b.balance, price, threshold))
      else match m.swap(b, MinDestAmount(b.balance, labrPerUnit))
        case None => SwapFailed
        case Some(receipt) => Swapped(SwapResult(b.code, b.balance, LabrAsset, receipt.amount, receipt.hash, price))
  }

  /** Records one outcome in the summary. A swap's `fromAmount` is the balance it spent (see `Decide`). */
  function Record(s: SwapSummary, b: TokenBalance, o: Outcome): SwapSummary
  {
    match o
    case PriceError => s.(errors := s.errors + [SwapError(b.code, "get_price")])
    case Exceeded(alert) => s.(priceExceeded := s.priceExceeded + [alert])
    case SwapFailed => s.(errors := s.errors + [SwapError(b.code, "swap")])
    case Swapped(r) => s.(swaps := s.swaps + [r], totalFromEur := s.totalFromEur + r.fromAmount, totalToLabr := s.totalToLabr + r.toAmount)
  }

  const EmptySummary: SwapSummary := SwapSummary([], [], [], 0.0, 0.0)

  function SumFrom(rs: seq<SwapResult>): real
  {
    if |rs| == 0 then 0.0 else SumFrom(rs[..|rs| - 1]) + rs[|rs| - 1].fromAmount
  }

  function SumTo(rs: seq<SwapResult>): real
  {
    if |rs| == 0 then 0.0 else SumTo(rs[..|rs| - 1]) + rs[|rs| - 1].toAmount
  }

  /**
    The summary after the loop over `bs`, each balance settled by `decide`:
    each balance ends in exactly one list, and the totals add up the swaps
    and nothing else.
   */
  function Tally(bs: seq<TokenBalance>, decide: TokenBalance -> Outcome): (s: SwapSummary)
    ensures |s.swaps| + |s.priceExceeded| + |s.errors| == |bs|
    ensures s.totalFromEur == SumFrom(s.swaps) && s.totalToLabr == SumTo(s.swaps)
    ensures forall e :: e in s.errors ==> e.stage == "get_price" || e.stage == "swap"
  {
    if |bs| == 0 then EmptySummary
    else
      var s := Tally(bs[..|bs| - 1], decide);
      var b := bs[|bs| - 1];
      var o := decide(b);
      var s' := Record(s, b, o);
      assert o.Swapped? ==> s'.swaps[..|s'.swaps| - 1] == s.swaps;
      s'
  }

  /** The summary `ExecuteSwaps` builds: the loop with `Decide` as its body. */
  function Summarize(bs: seq<TokenBalance>, threshold: real, m: Market): (s: SwapSummary)
    ensures |s.swaps| + |s.priceExceeded| + |s.errors| == |bs|
    ensures s.totalFromEur == SumFrom(s.swaps) && s.totalToLabr == SumTo(s.swaps)
  {
    Tally(bs, b => Decide(b, threshold, m))
  }

  /**
    `ExecuteSwaps`: the swappable balances, then one decision per balance.
    Only the balance enumeration can fail the whole call.
   */
  method ExecuteSwaps(detail: Option<Token -> string>, threshold: real, m: Market) returns (r: Result<SwapSummary, BalanceFailure>)
    ensures r.Failure? <==> detail.None?
    ensures r.Success? ==> (
      var bs := GetSwappableBalances(detail, m.parse).value;
      && r.value == Summarize(bs, threshold, m)
      && |r.value.swaps| + |r.value.priceExceeded| + |r.value.errors| == |bs|)
  {
    var balances := GetSwappableBalances(detail, m.parse);
    if balances.Failure? {
      return Failure(balances.error);
    }
    var bs := balances.value;
    var decide := b => Decide(b, threshold, m);
    var summary := EmptySummary;
    var i := 0;
    while i < |bs|
      invariant 0 <= i <= |bs|
      invariant summary == Tally(bs[..i], decide)
    {
      assert bs[..i + 1][..i] == bs[..i];
      summary := Record(summary, bs[i], Decide(bs[i], threshold, m));
      i := i + 1;
    }
    assert bs[..|bs|] == bs;
    return Success(summary);
  }

  // ---------------------------------------------------------------------
  // Properties of the loop.
  // ---------------------------------------------------------------------

  /** The balances of a non-empty list: those before the last, and the last. */
  lemma InSnoc(bs: seq<TokenBalance>, b: TokenBalance)
    requires |bs| > 0
    ensures b in bs <==> b in bs[..|bs| - 1] || b == bs[|bs| - 1]
  {
    assert bs == bs[..|bs| - 1] + [bs[|bs| - 1]];
  }

  lemma {:induction false} TallyAlerts(bs: seq<TokenBalance>, decide: TokenBalance -> Outcome, a: PriceExceededAlert)
    ensures a in Tally(bs, decide).priceExceeded <==> exists b :: b in bs && decide(b) == Exceeded(a)
  {
    if |bs| > 0 {
      var init, last := bs[..|bs| - 1], bs[|bs| - 1];
      TallyAlerts(init, decide, a);
      if a in Tally(init, decide).priceExceeded {
        var b :| b in init && decide(b) == Exceeded(a);
        InSnoc(bs, b);
      }
      if exists b :: b in bs && decide(b) == Exceeded(a) {
        var b :| b in bs && decide(b) == Exceeded(a);
        InSnoc(bs, b);
      }
      InSnoc(bs, last);
    }
  }

  lemma {:induction false} TallySwaps(bs: seq<TokenBalance>, decide: TokenBalance -> Outcome, r: SwapResult)
    ensures r in Tally(bs, decide).swaps <==> exists b :: b in bs && decide(b) == Swapped(r)
  {
    if |bs| > 0 {
      var init, last := bs[..|bs| - 1], bs[|bs| - 1];
      TallySwaps(init, decide, r);
      if r in Tally(init, decide).swaps {
        var b :| b in init && decide(b) == Swapped(r);
        InSnoc(bs, b);
      }
      if exists b :: b in bs && decide(b) == Swapped(r) {
        var b :| b in bs && decide(b) == Swapped(r);
        InSnoc(bs, b);
      }
      InSnoc(bs, last);
    }
  }

  lemma {:induction false} TallyPriceErrors(bs: seq<TokenBalance>, decide: TokenBalance -> Outcome, code: string)
    ensures SwapError(code, "get_price") in Tally(bs, decide).errors <==>
      exists b :: b in bs && b.code == code && decide(b).PriceError?
  {
    if |bs| > 0 {
      var init, last := bs[..|bs| - 1], bs[|bs| - 1];
      TallyPriceErrors(init, decide, code);
      if SwapError(code, "get_price") in Tally(init, decide).errors {
        var b :| b in init && b.code == code && decide(b).PriceError?;
        InSnoc(bs, b);
      }
      if exists b :: b in bs && b.code == code && decide(b).PriceError? {
        var b :| b in bs && b.code == code && decide(b).PriceError?;
        InSnoc(bs, b);
      }
      InSnoc(bs, last);
    }
  }

  lemma {:induction false} TallySwapErrors(bs: seq<TokenBalance>, decide: TokenBalance -> Outcome, code: string)
    ensures SwapError(code, "swap") in Tally(bs, decide).errors <==>
      exists b :: b in bs && b.code == code && decide(b).SwapFailed?
  {
    if |bs| > 0 {
      var init, last := bs[..|bs| - 1], bs[|bs| - 1];
      TallySwapErrors(init, decide, code);
      if SwapError(code, "swap") in Tally(init, decide).errors {
        var b :| b in init && b.code == code && decide(b).SwapFailed?;
        InSnoc(bs, b);
      }
      if exists b :: b in bs && b.code == code && decide(b).SwapFailed? {
        var b :| b in bs && b.code == code && decide(b).SwapFailed?;
        InSnoc(bs, b);
      }
      InSnoc(bs, last);
    }
  }

  /**
    A price alert is raised for exactly the balances whose price is strictly
    above the threshold (or infinite); each alert carries that balance and
    the threshold.
   */
  lemma AlertsExactlyExceeded(bs: seq<TokenBalance>, threshold: real, m: Market, a: PriceExceededAlert)
    ensures a in Summarize(bs, threshold, m).priceExceeded <==>
      exists b :: b in bs && Decide(b, threshold, m) == Exceeded(a)
  {
    TallyAlerts(bs, b => Decide(b, threshold, m), a);
  }

  /** The swap recorded for a balance whose submission went through. */
  predicate SwappedAs(b: TokenBalance, threshold: real, m: Market, r: SwapResult)
  {
    && Submitted(b, threshold, m)
    && Submission(b, threshold, m).Some?
    && r == SwapResult(b.code, b.balance, LabrAsset, Submission(b, threshold, m).value.amount,
      Submission(b, threshold, m).value.hash, PricePerLabr(GetSwapPrice(m.paths(TokenOf(b)), m.parse).value))
  }

  /**
    The summary lists a swap exactly for each balance whose price was within
    the threshold and whose submission succeeded, carrying that balance, the
    received LABR and the transaction hash.
   */
  lemma SwapsAreWithinThreshold(bs: seq<TokenBalance>, threshold: real, m: Market, r: SwapResult)
    ensures r in Summarize(bs, threshold, m).swaps <==> exists b :: b in bs && SwappedAs(b, threshold, m, r)
    ensures r in Summarize(bs, threshold, m).swaps ==> !Exceeds(r.pricePerLabr, threshold)
  {
    TallySwaps(bs, b => Decide(b, threshold, m), r);
    if r in Summarize(bs, threshold, m).swaps {
      var b :| b in bs && Decide(b, threshold, m) == Swapped(r);
      assert SwappedAs(b, threshold, m, r);
    }
    if exists b :: b in bs && SwappedAs(b, threshold, m, r) {
      var b :| b in bs && SwappedAs(b, threshold, m, r);
      assert Decide(b, threshold, m) == Swapped(r);
    }
  }

  /**
    An error is recorded for exactly the balances whose price lookup failed
    ("get_price") or whose submission, within the threshold, failed ("swap").
   */
  lemma ErrorsExactlyFailed(bs: seq<TokenBalance>, threshold: real, m: Market, code: string)
    ensures SwapError(code, "get_price") in Summarize(bs, threshold, m).errors <==>
      exists b :: b in bs && b.code == code && GetSwapPrice(m.paths(TokenOf(b)), m.parse).Failure?
    ensures SwapError(code, "swap") in Summarize(bs, threshold, m).errors <==>
      exists b :: b in bs && b.code == code && Submitted(b, threshold, m) && Submission(b, threshold, m).None?
  {
    TallyPriceErrors(bs, b => Decide(b, threshold, m), code);
    TallySwapErrors(bs, b => Decide(b, threshold, m), code);
    if exists b :: b in bs && b.code == code && GetSwapPrice(m.paths(TokenOf(b)), m.parse).Failure? {
      var b :| b in bs && b.code == code && GetSwapPrice(m.paths(TokenOf(b)), m.parse).Failure?;
      assert Decide(b, threshold, m).PriceError?;
    }
    if exists b :: b in bs && b.code == code && Submitted(b, threshold, m) && Submission(b, threshold, m).None? {
      var b :| b in bs && b.code == code && Submitted(b, threshold, m) && Submission(b, threshold, m).None?;
      assert Decide(b, threshold, m).SwapFailed?;
    }
  }

  /** A price equal to the threshold is not an alert: the swap is attempted. */
  lemma ThresholdIsInclusive(b: TokenBalance, m: Market, labrPerUnit: real)
    requires labrPerUnit != 0.0
    requires GetSwapPrice(m.paths(TokenOf(b)), m.parse) == Success(labrPerUnit)
    ensures !Decide(b, 1.0 / labrPerUnit, m).Exceeded?
    ensures Decide(b, 1.0 / labrPerUnit, m).SwapFailed? || Decide(b, 1.0 / labrPerUnit, m).Swapped?
  {
  }

  /** A zero quote means an infinite price, which always raises an alert and never swaps. */
  lemma ZeroQuoteAlerts(b: TokenBalance, threshold: real, m: Market)
    requires GetSwapPrice(m.paths(TokenOf(b)), m.parse) == Success(0.0)
    ensures Decide(b, threshold, m) == Exceeded(PriceExceededAlert(b.code, b.balance, Infinite, threshold))
  {
  }
}
