/**
  Building the recommendation graph from the MTLAP holders enumerated on the
  ledger (stellar/stellar.go, `accountsToResult` and its helpers).

  The Go code is one fold over the accounts that keeps two helper maps
  (`uniqueRecommendeds`, `lastRecommendedRecommenders`). `AccountsToResult`
  models that fold as written; `ConflictOf` is the declarative meaning of the
  conflict map (every account claimed at least twice, with all its claimants),
  and `AccountsToResultMeaning` proves the fold computes it.
 */
module Stellar {
  import opened Wrap
  import opened Mlm

  /** Data-entry key prefix of a recommendation claim. */
  const TagRecommend: string := "RecommendToMTLA"

  const EurmtlAsset: string := "EURMTL"
  const EurmtlIssuer: string := "GACKTN5DAZGWXRWB2WLM6OPBDHAMT6SJNGLJZPQMEZBUR4JUGBX2UK7V"
  const LabrIssuer: string := "GA7I6SGUHQ26ARNCD376WXV5WSE7VJRX6OEFNFCEGRLFGZWQIV73LABR"

  /** Minimum MTLAP balance of a recommender whose claims count. */
  const MinMtlapApplicableRecommender: real := 4.0

  datatype DataEntry = DataEntry(key: string, value: string)

  /**
    A ledger account as enumerated by the MTLAP holder query. `data` is the
    account's data map in the order the Go runtime iterates it; `mtlap` is the
    parsed MTLAP credit balance, `None` when the account has no such balance or
    the text does not parse.
   */
  datatype Account = Account(id: string, data: seq<DataEntry>, mtlap: Option<real>)

  /** Standard Base64 decoding (section 4 of RFC 4648), abstract: `None` on a decoding error. */
  type Decoder = string -> Option<string>

  /** `decodeBase64`: the decoded text, or the empty string when decoding fails. */
  function DecodeBase64(decode: Decoder, s: string): (r: string)
    ensures decode(s).None? ==> r == ""
    ensures decode(s).Some? ==> r == decode(s).value
  {
    decode(s).GetOr("")
  }

  /** Go's `int64(f)`: conversion truncates toward zero. */
  function Truncate(x: real): (n: int)
    ensures 0.0 <= x ==> 0 <= n && n as real <= x < n as real + 1.0
    ensures x < 0.0 ==> n <= 0 && n as real - 1.0 < x <= n as real
  {
    if x >= 0.0 then x.Floor else -((-x).Floor)
  }

  /** An unparseable or missing balance reads as 0, as `ParseFloat` returns 0 on error. */
  function BalanceOrZero(b: Option<real>): real
  {
    b.GetOr(0.0)
  }

  /** `getBalanceInt64` for MTLAP: the truncated balance, 0 when missing or unparseable. */
  function GetBalanceInt(a: Account): (n: int)
    ensures a.mtlap.None? ==> n == 0
    ensures a.mtlap.Some? && a.mtlap.value >= 0.0 ==> n as real <= a.mtlap.value < n as real + 1.0
  {
    Truncate(BalanceOrZero(a.mtlap))
  }

  /** `isRecommenderApplicable`: at least 4 MTLAP. */
  predicate IsRecommenderApplicable(a: Account)
  {
    BalanceOrZero(a.mtlap) >= MinMtlapApplicableRecommender
  }

  predicate IsRecommendKey(key: string)
  {
    TagRecommend <= key
  }

  /** The values of the data entries whose key starts with the recommendation tag, in iteration order. */
  function RecommendValues(data: seq<DataEntry>): (vs: seq<string>)
    ensures |vs| <= |data|
    ensures forall v :: v in vs ==> exists e :: e in data && IsRecommendKey(e.key) && e.value == v
    ensures forall e :: e in data && IsRecommendKey(e.key) ==> e.value in vs
    ensures |vs| == 0 <==> forall e :: e in data ==> !IsRecommendKey(e.key)
  {
    if |data| == 0 then []
    else
      var e := data[|data| - 1];
      var rest := RecommendValues(data[..|data| - 1]);
      assert forall x :: x in data <==> x in data[..|data| - 1] || x == e;
      if IsRecommendKey(e.key) then rest + [e.value] else rest
  }

  /** `accMap[id]`: `lo.Associate` keeps the last account with a given id. */
  function FindAccount(accs: seq<Account>, id: string): (r: Option<Account>)
    ensures r.Some? ==> r.value in accs && r.value.id == id
    ensures r.None? <==> forall a :: a in accs ==> a.id != id
  {
    if |accs| == 0 then None
    else if accs[|accs| - 1].id == id then Some(accs[|accs| - 1])
    else
      assert forall x :: x in accs <==> x in accs[..|accs| - 1] || x == accs[|accs| - 1];
      FindAccount(accs[..|accs| - 1], id)
  }

  /** The account a claim value points at, if its decoded text is the id of an input account. */
  function Resolve(accs: seq<Account>, decode: Decoder, v: string): (r: Option<Account>)
  {
    FindAccount(accs, DecodeBase64(decode, v))
  }

  /** The Go fold's state. */
  datatype Builder = Builder(
    conflict: map<string, seq<string>>,
    unique: set<string>,
    lastRecommender: map<string, string>,
    recommenders: seq<Recommender>,
    total: int)

  /** A Go map read: the zero value when the key is absent. */
  function Lookup(m: map<string, string>, k: string): string
  {
    if k in m then m[k] else ""
  }

  /** The bookkeeping of one resolved claim of `recommender` on `d` (stellar.go lines 143-161). */
  function Claim(b: Builder, recommender: string, d: Recommended): Builder
  {
    var t := d.accountId;
    var conflict :=
      if t in b.unique then
        var prior := if t in b.conflict then b.conflict[t] else [Lookup(b.lastRecommender, t)];
        b.conflict[t := prior + [recommender]]
      else b.conflict;
    Builder(conflict, b.unique + {t}, b.lastRecommender[t := recommender], b.recommenders, b.total + d.mtlap)
  }

  datatype Claimed = Claimed(builder: Builder, recommended: seq<Recommended>)

  /** The inner loop over one recommender's claim values. */
  function ProcessClaims(accs: seq<Account>, decode: Decoder, recommender: string, vals: seq<string>, b: Builder): Claimed
  {
    if |vals| == 0 then Claimed(b, [])
    else
      var c := ProcessClaims(accs, decode, recommender, vals[..|vals| - 1], b);
      match Resolve(accs, decode, vals[|vals| - 1])
      case None => c
      case Some(t) =>
        var d := Recommended(t.id, GetBalanceInt(t));
        Claimed(Claim(c.builder, recommender, d), c.recommended + [d])
  }

  /** One iteration of the outer loop: skip accounts without claims or below the MTLAP gate. */
  function ProcessAccount(accs: seq<Account>, decode: Decoder, b: Builder, a: Account): Builder
  {
    var vals := RecommendValues(a.data);
    if |vals| == 0 then b
    else if !IsRecommenderApplicable(a) then b
    else
      var c := ProcessClaims(accs, decode, a.id, vals, b);
      c.builder.(recommenders := c.builder.recommenders + [Recommender(a.id, c.recommended)])
  }

  function ProcessAccounts(accs: seq<Account>, decode: Decoder, prefix: seq<Account>): Builder
  {
    if |prefix| == 0 then Builder(map[], {}, map[], [], 0)
    else ProcessAccount(accs, decode, ProcessAccounts(accs, decode, prefix[..|prefix| - 1]), prefix[|prefix| - 1])
  }

  /** `accountsToResult`. */
  function AccountsToResult(accs: seq<Account>, decode: Decoder): RecommendersFetchResult
  {
    var b := ProcessAccounts(accs, decode, accs);
    RecommendersFetchResult(b.conflict, b.recommenders, b.total)
  }

  // ---------------------------------------------------------------------
  // The declarative meaning of the graph.
  // ---------------------------------------------------------------------

  /** The claims of one recommender that resolve, with their scores. */
  function ResolvedClaims(accs: seq<Account>, decode: Decoder, vals: seq<string>): (ds: seq<Recommended>)
    ensures |ds| <= |vals|
    ensures forall d :: d in ds ==>
      FindAccount(accs, d.accountId).Some? && d.mtlap == GetBalanceInt(FindAccount(accs, d.accountId).value)
  {
    if |vals| == 0 then []
    else
      var rest := ResolvedClaims(accs, decode, vals[..|vals| - 1]);
      match Resolve(accs, decode, vals[|vals| - 1])
      case None => rest
      case Some(t) => rest + [Recommended(t.id, GetBalanceInt(t))]
  }

  /**
    A recommender's resolved claims are exactly its claim values that decode
    to the id of an input account: each names the account its value decodes
    to, and every resolving value is kept with that account's score.
   */
  lemma {:induction false} ResolvedClaimsMeaning(accs: seq<Account>, decode: Decoder, vals: seq<string>)
    ensures forall d :: d in ResolvedClaims(accs, decode, vals) ==>
      exists v :: v in vals && Resolve(accs, decode, v).Some? && d.accountId == Resolve(accs, decode, v).value.id
    ensures forall v :: v in vals && Resolve(accs, decode, v).Some? ==>
      Recommended(Resolve(accs, decode, v).value.id, GetBalanceInt(Resolve(accs, decode, v).value)) in ResolvedClaims(accs, decode, vals)
  {
    if |vals| > 0 {
      var init := vals[..|vals| - 1];
      ResolvedClaimsMeaning(accs, decode, init);
      assert forall x :: x in vals <==> x in init || x == vals[|vals| - 1];
    }
  }

  /** An account whose claims are considered: it has at least one claim and passes the MTLAP gate. */
  predicate IsApplicable(a: Account)
  {
    |RecommendValues(a.data)| > 0 && IsRecommenderApplicable(a)
  }

  /** The recommenders: applicable accounts in input order, each with its resolved claims. */
  function ApplicableRecommenders(accs: seq<Account>, decode: Decoder, prefix: seq<Account>): seq<Recommender>
  {
    if |prefix| == 0 then []
    else
      var rest := ApplicableRecommenders(accs, decode, prefix[..|prefix| - 1]);
      var a := prefix[|prefix| - 1];
      if IsApplicable(a) then rest + [Recommender(a.id, ResolvedClaims(accs, decode, RecommendValues(a.data)))]
      else rest
  }

  /** The ids of the applicable accounts, in input order. */
  function ApplicableIds(prefix: seq<Account>): (ids: seq<string>)
    ensures forall id :: id in ids ==> exists a :: a in prefix && IsApplicable(a) && a.id == id
  {
    if |prefix| == 0 then []
    else ApplicableIds(prefix[..|prefix| - 1]) + (if IsApplicable(prefix[|prefix| - 1]) then [prefix[|prefix| - 1].id] else [])
  }

  function Ids(recs: seq<Recommender>): (ids: seq<string>)
    ensures |ids| == |recs|
    ensures forall i :: 0 <= i < |recs| ==> ids[i] == recs[i].accountId
  {
    if |recs| == 0 then [] else Ids(recs[..|recs| - 1]) + [recs[|recs| - 1].accountId]
  }

  /** Every recommender that claimed `x`, in processing order, repeats included. */
  function Claimants(es: seq<Edge>, x: string): seq<string>
  {
    if |es| == 0 then []
    else Claimants(es[..|es| - 1], x) + (if es[|es| - 1].recommended == x then [es[|es| - 1].recommender] else [])
  }

  /** The recommender of the last edge to `x`, or the empty string. */
  function LastClaimant(es: seq<Edge>, x: string): string
  {
    if |es| == 0 then ""
    else if es[|es| - 1].recommended == x then es[|es| - 1].recommender
    else LastClaimant(es[..|es| - 1], x)
  }

  /** The claimed accounts. */
  function Targets(es: seq<Edge>): (ts: set<string>)
    ensures forall i :: 0 <= i < |es| ==> es[i].recommended in ts
  {
    if |es| == 0 then {} else Targets(es[..|es| - 1]) + {es[|es| - 1].recommended}
  }

  /** The conflict map: each account claimed at least twice, with all its claimants. */
  function ConflictOf(es: seq<Edge>): (c: map<string, seq<string>>)
    ensures forall x :: x in c ==> |c[x]| >= 2 && c[x] == Claimants(es, x)
  {
    map x | x in Targets(es) && |Claimants(es, x)| >= 2 :: Claimants(es, x)
  }

  function SumMtlap(es: seq<Edge>): int
  {
    if |es| == 0 then 0 else SumMtlap(es[..|es| - 1]) + es[|es| - 1].mtlap
  }

  // ---------------------------------------------------------------------
  // The fold computes the declarative graph.
  // ---------------------------------------------------------------------

  lemma {:induction false} ClaimantsSnoc(es: seq<Edge>, e: Edge, x: string)
    ensures Claimants(es + [e], x) == Claimants(es, x) + (if e.recommended == x then [e.recommender] else [])
    ensures LastClaimant(es + [e], x) == (if e.recommended == x then e.recommender else LastClaimant(es, x))
    ensures Targets(es + [e]) == Targets(es) + {e.recommended}
    ensures SumMtlap(es + [e]) == SumMtlap(es) + e.mtlap
  {
    assert (es + [e])[..|es|] == es;
  }

  /** An account is a target exactly when it has a claimant; the last claimant ends the claimant list. */
  lemma {:induction false} ClaimantsOfTarget(es: seq<Edge>, x: string)
    ensures x in Targets(es) <==> |Claimants(es, x)| >= 1
    ensures |Claimants(es, x)| >= 1 ==> Claimants(es, x)[|Claimants(es, x)| - 1] == LastClaimant(es, x)
  {
    if |es| > 0 {
      ClaimantsOfTarget(es[..|es| - 1], x);
    }
  }

  /** The fold state after the edges `es` have been processed. */
  ghost predicate Tracks(b: Builder, es: seq<Edge>)
  {
    && b.unique == Targets(es)
    && (forall x :: x in b.unique ==> x in b.lastRecommender && b.lastRecommender[x] == LastClaimant(es, x))
    && b.conflict == ConflictOf(es)
    && b.total == SumMtlap(es)
  }

  lemma ClaimTracks(b: Builder, es: seq<Edge>, recommender: string, d: Recommended)
    requires Tracks(b, es)
    ensures Tracks(Claim(b, recommender, d), es + [Edge(recommender, d.accountId, d.mtlap)])
  {
    var e := Edge(recommender, d.accountId, d.mtlap);
    var es' := es + [e];
    var b' := Claim(b, recommender, d);
    var t := d.accountId;
    forall x
      ensures Claimants(es', x) == Claimants(es, x) + (if t == x then [recommender] else [])
      ensures LastClaimant(es', x) == (if t == x then recommender else LastClaimant(es, x))
    {
      ClaimantsSnoc(es, e, x);
    }
    ClaimantsSnoc(es, e, t);
    ClaimantsOfTarget(es, t);
    if t in b.unique && t !in b.conflict {
      assert |Claimants(es, t)| == 1;
      assert Claimants(es, t) == [LastClaimant(es, t)];
    }
    forall x
      ensures x in b'.conflict <==> x in ConflictOf(es')
      ensures x in b'.conflict ==> b'.conflict[x] == ConflictOf(es')[x]
    {
      if x != t {
        ClaimantsOfTarget(es, x);
      }
    }
    assert b'.conflict == ConflictOf(es');
  }

  lemma {:induction false} ProcessClaimsTracks(accs: seq<Account>, decode: Decoder, recommender: string, vals: seq<string>, b: Builder, es: seq<Edge>)
    requires Tracks(b, es)
    ensures var c := ProcessClaims(accs, decode, recommender, vals, b);
      && c.recommended == ResolvedClaims(accs, decode, vals)
      && c.builder.recommenders == b.recommenders
      && Tracks(c.builder, es + EdgesOf(recommender, c.recommended))
  {
    if |vals| == 0 {
      assert es + EdgesOf(recommender, []) == es;
    } else {
      var c := ProcessClaims(accs, decode, recommender, vals[..|vals| - 1], b);
      ProcessClaimsTracks(accs, decode, recommender, vals[..|vals| - 1], b, es);
      match Resolve(accs, decode, vals[|vals| - 1])
      case None =>
      case Some(t) =>
        var d := Recommended(t.id, GetBalanceInt(t));
        var e := Edge(recommender, d.accountId, d.mtlap);
        ClaimTracks(c.builder, es + EdgesOf(recommender, c.recommended), recommender, d);
        assert EdgesOf(recommender, c.recommended + [d]) == EdgesOf(recommender, c.recommended) + [e];
        assert es + EdgesOf(recommender, c.recommended + [d]) == (es + EdgesOf(recommender, c.recommended)) + [e];
    }
  }

  lemma {:induction false} ProcessAccountsTracks(accs: seq<Account>, decode: Decoder, prefix: seq<Account>)
    ensures var b := ProcessAccounts(accs, decode, prefix);
      && b.recommenders == ApplicableRecommenders(accs, decode, prefix)
      && Tracks(b, Edges(b.recommenders))
  {
    if |prefix| > 0 {
      var b := ProcessAccounts(accs, decode, prefix[..|prefix| - 1]);
      ProcessAccountsTracks(accs, decode, prefix[..|prefix| - 1]);
      var a := prefix[|prefix| - 1];
      var vals := RecommendValues(a.data);
      if |vals| > 0 && IsRecommenderApplicable(a) {
        ProcessClaimsTracks(accs, decode, a.id, vals, b, Edges(b.recommenders));
        var c := ProcessClaims(accs, decode, a.id, vals, b);
        EdgesSnoc(b.recommenders, Recommender(a.id, c.recommended));
      }
    }
  }

  /**
    What `accountsToResult` computes: the applicable accounts with their
    resolved claims; every account claimed at least twice as a conflict listing
    all its claimants in processing order; the total of all resolved scores.
   */
  lemma AccountsToResultMeaning(accs: seq<Account>, decode: Decoder)
    ensures var r := AccountsToResult(accs, decode);
      && r.recommenders == ApplicableRecommenders(accs, decode, accs)
      && r.conflict == ConflictOf(Edges(r.recommenders))
      && r.totalRecommendedMtlap == SumMtlap(Edges(r.recommenders))
  {
    ProcessAccountsTracks(accs, decode, accs);
  }

  // ---------------------------------------------------------------------
  // Properties of the graph.
  // ---------------------------------------------------------------------

  /**
    The recommenders are exactly the accounts with at least one claim that pass
    the MTLAP gate, in input order, whether or not any claim resolves.
   */
  lemma {:induction false} RecommendersAreApplicableAccounts(accs: seq<Account>, decode: Decoder, prefix: seq<Account>)
    ensures Ids(ApplicableRecommenders(accs, decode, prefix)) == ApplicableIds(prefix)
  {
    if |prefix| > 0 {
      RecommendersAreApplicableAccounts(accs, decode, prefix[..|prefix| - 1]);
    }
  }

  lemma RecommendValuesSnoc(data: seq<DataEntry>, e: DataEntry)
    ensures RecommendValues(data + [e]) == RecommendValues(data) + (if IsRecommendKey(e.key) then [e.value] else [])
  {
    assert (data + [e])[..|data|] == data;
  }

  /** Claims are collected entry by entry: the values of a split data map are the values of its parts, in order. */
  lemma {:induction false} RecommendValuesAppend(d1: seq<DataEntry>, d2: seq<DataEntry>)
    ensures RecommendValues(d1 + d2) == RecommendValues(d1) + RecommendValues(d2)
  {
    if |d2| == 0 {
      assert d1 + d2 == d1;
    } else {
      var init := d2[..|d2| - 1];
      var e := d2[|d2| - 1];
      var tail := if IsRecommendKey(e.key) then [e.value] else [];
      assert d2 == init + [e];
      assert d1 + d2 == (d1 + init) + [e];
      calc {
        RecommendValues(d1 + d2);
        { RecommendValuesSnoc(d1 + init, e); }
        RecommendValues(d1 + init) + tail;
        { RecommendValuesAppend(d1, init); }
        RecommendValues(d1) + RecommendValues(init) + tail;
        { RecommendValuesSnoc(init, e); }
        RecommendValues(d1) + RecommendValues(d2);
      }
    }
  }

  /** A resolving claim value of an account is among the edges of that account's own claims. */
  lemma ClaimIsEdge(accs: seq<Account>, decode: Decoder, a: Account, e: DataEntry, t: Account)
    requires e in a.data && IsRecommendKey(e.key)
    requires Resolve(accs, decode, e.value) == Some(t)
    ensures Edge(a.id, t.id, GetBalanceInt(t)) in EdgesOf(a.id, ResolvedClaims(accs, decode, RecommendValues(a.data)))
  {
    var ds := ResolvedClaims(accs, decode, RecommendValues(a.data));
    assert e.value in RecommendValues(a.data);
    ResolvedClaimsMeaning(accs, decode, RecommendValues(a.data));
    assert Recommended(t.id, GetBalanceInt(t)) in ds;
    var i :| 0 <= i < |ds| && ds[i] == Recommended(t.id, GetBalanceInt(t));
    assert EdgesOf(a.id, ds)[i] == Edge(a.id, t.id, GetBalanceInt(t));
  }

  /** Every applicable account appears among the recommenders with all its resolved claims. */
  lemma {:induction false} ApplicableIsRecommender(accs: seq<Account>, decode: Decoder, prefix: seq<Account>, a: Account)
    requires a in prefix && IsApplicable(a)
    ensures Recommender(a.id, ResolvedClaims(accs, decode, RecommendValues(a.data))) in ApplicableRecommenders(accs, decode, prefix)
  {
    var n := |prefix|;
    if a != prefix[n - 1] {
      var j :| 0 <= j < n && prefix[j] == a;
      assert prefix[..n - 1][j] == a;
      ApplicableIsRecommender(accs, decode, prefix[..n - 1], a);
    }
  }

  /** The edges of every listed recommender are among the edges of the list. */
  lemma {:induction false} RecommenderEdges(recs: seq<Recommender>, r: Recommender, x: Edge)
    requires r in recs && x in EdgesOf(r.accountId, r.recommended)
    ensures x in Edges(recs)
  {
    var n := |recs|;
    EdgesSnoc(recs[..n - 1], recs[n - 1]);
    assert recs == recs[..n - 1] + [recs[n - 1]];
    if r != recs[n - 1] {
      var j :| 0 <= j < n && recs[j] == r;
      assert recs[..n - 1][j] == r;
      RecommenderEdges(recs[..n - 1], r, x);
    }
  }

  /**
    Every claim of an applicable account whose value resolves becomes an edge
    of that account, scored by the claimed account's truncated balance,
    whether or not the claimed account ends up conflicted.
   */
  lemma ResolvedClaimsAreEdges(accs: seq<Account>, decode: Decoder, prefix: seq<Account>, a: Account, e: DataEntry, t: Account)
    requires a in prefix && IsApplicable(a)
    requires e in a.data && IsRecommendKey(e.key)
    requires Resolve(accs, decode, e.value) == Some(t)
    ensures Edge(a.id, t.id, GetBalanceInt(t)) in Edges(ApplicableRecommenders(accs, decode, prefix))
  {
    ClaimIsEdge(accs, decode, a, e, t);
    ApplicableIsRecommender(accs, decode, prefix, a);
    RecommenderEdges(ApplicableRecommenders(accs, decode, prefix),
      Recommender(a.id, ResolvedClaims(accs, decode, RecommendValues(a.data))), Edge(a.id, t.id, GetBalanceInt(t)));
  }

  /** `accountsToResult` lists every resolving claim of every eligible account that has claims. */
  lemma GraphKeepsResolvedClaims(accs: seq<Account>, decode: Decoder, a: Account, e: DataEntry, t: Account)
    requires a in accs && IsApplicable(a)
    requires e in a.data && IsRecommendKey(e.key)
    requires Resolve(accs, decode, e.value) == Some(t)
    ensures Edge(a.id, t.id, GetBalanceInt(t)) in Edges(AccountsToResult(accs, decode).recommenders)
  {
    AccountsToResultMeaning(accs, decode);
    ResolvedClaimsAreEdges(accs, decode, accs, a, e, t);
  }

  /**
    Every edge comes from an applicable recommender and points at an input
    account, scored by that account's truncated MTLAP balance.
   */
  lemma {:induction false} EdgesResolve(accs: seq<Account>, decode: Decoder, prefix: seq<Account>)
    ensures forall e :: e in Edges(ApplicableRecommenders(accs, decode, prefix)) ==>
      && e.recommender in ApplicableIds(prefix)
      && FindAccount(accs, e.recommended).Some?
      && e.mtlap == GetBalanceInt(FindAccount(accs, e.recommended).value)
  {
    if |prefix| > 0 {
      var rest := ApplicableRecommenders(accs, decode, prefix[..|prefix| - 1]);
      EdgesResolve(accs, decode, prefix[..|prefix| - 1]);
      var a := prefix[|prefix| - 1];
      if IsApplicable(a) {
        var r := Recommender(a.id, ResolvedClaims(accs, decode, RecommendValues(a.data)));
        EdgesSnoc(rest, r);
        forall e | e in EdgesOf(r.accountId, r.recommended)
          ensures e.recommender == a.id
          ensures exists d :: d in r.recommended && d.accountId == e.recommended && d.mtlap == e.mtlap
        {
          var i :| 0 <= i < |r.recommended| && EdgesOf(r.accountId, r.recommended)[i] == e;
          assert r.recommended[i] in r.recommended;
        }
      }
    }
  }

  /** Each claimant of `x` claimed `x` on some edge. */
  lemma {:induction false} ClaimantHasEdge(es: seq<Edge>, x: string, c: string)
    requires c in Claimants(es, x)
    ensures exists e :: e in es && e.recommender == c && e.recommended == x
  {
    var last := es[|es| - 1];
    if c in Claimants(es[..|es| - 1], x) {
      ClaimantHasEdge(es[..|es| - 1], x, c);
      var e :| e in es[..|es| - 1] && e.recommender == c && e.recommended == x;
      assert e in es;
    } else {
      assert last in es;
    }
  }

  /** A key of the conflict map is an account that two claims resolve to, and conversely. */
  lemma {:induction false} ConflictIffClaimedTwice(es: seq<Edge>, x: string)
    ensures x in ConflictOf(es) <==>
      exists i, j :: 0 <= i < j < |es| && es[i].recommended == x && es[j].recommended == x
  {
    ClaimantsOfTarget(es, x);
    if |es| > 0 {
      var init := es[..|es| - 1];
      var last := es[|es| - 1];
      ConflictIffClaimedTwice(init, x);
      ClaimantsOfTarget(init, x);
      assert Claimants(es, x) == Claimants(init, x) + (if last.recommended == x then [last.recommender] else []);
      if x in ConflictOf(es) {
        if |Claimants(init, x)| >= 2 {
          var i, j :| 0 <= i < j < |init| && init[i].recommended == x && init[j].recommended == x;
          assert es[i] == init[i] && es[j] == init[j];
        } else {
          assert last.recommended == x && |Claimants(init, x)| == 1;
          assert x in Targets(init);
          TargetHasEdge(init, x);
          var i :| 0 <= i < |init| && init[i].recommended == x;
          assert es[i] == init[i] && es[|es| - 1] == last;
        }
      }
      if exists i, j :: 0 <= i < j < |es| && es[i].recommended == x && es[j].recommended == x {
        var i, j :| 0 <= i < j < |es| && es[i].recommended == x && es[j].recommended == x;
        ClaimedTwice(es, x, i, j);
      }
    }
  }

  lemma {:induction false} ClaimedTwice(es: seq<Edge>, x: string, i: nat, j: nat)
    requires i < j < |es| && es[i].recommended == x && es[j].recommended == x
    ensures |Claimants(es, x)| >= 2
  {
    var init := es[..|es| - 1];
    assert Claimants(es, x) == Claimants(init, x) + (if es[|es| - 1].recommended == x then [es[|es| - 1].recommender] else []);
    if j < |es| - 1 {
      assert init[i] == es[i] && init[j] == es[j];
      ClaimedTwice(init, x, i, j);
    } else {
      assert init[i] == es[i];
      ClaimantsOfTarget(init, x);
    }
  }

  lemma {:induction false} TargetHasEdge(es: seq<Edge>, x: string)
    requires x in Targets(es)
    ensures exists i :: 0 <= i < |es| && es[i].recommended == x
  {
    if es[|es| - 1].recommended != x {
      TargetHasEdge(es[..|es| - 1], x);
      var i :| 0 <= i < |es| - 1 && es[..|es| - 1][i].recommended == x;
      assert es[i].recommended == x;
    }
  }

  /** The conflict list starts with the recommender of the first claim on the account. */
  lemma {:induction false} FirstClaimantFirst(es: seq<Edge>, x: string, i: nat)
    requires i < |es| && es[i].recommended == x
    requires forall j :: 0 <= j < i ==> es[j].recommended != x
    ensures |Claimants(es, x)| >= 1 && Claimants(es, x)[0] == es[i].recommender
  {
    if i == |es| - 1 {
      NoClaimants(es[..i], x);
    } else {
      FirstClaimantFirst(es[..|es| - 1], x, i);
    }
  }

  lemma {:induction false} NoClaimants(es: seq<Edge>, x: string)
    requires forall j :: 0 <= j < |es| ==> es[j].recommended != x
    ensures Claimants(es, x) == []
  {
    if |es| > 0 {
      NoClaimants(es[..|es| - 1], x);
    }
  }

  /**
    Claims of accounts that have no claim key or fail the MTLAP gate never
    reach the conflict map: every claimant listed is an applicable account.
   */
  lemma ConflictClaimantsAreApplicable(accs: seq<Account>, decode: Decoder)
    ensures var r := AccountsToResult(accs, decode);
      forall x, c :: x in r.conflict && c in r.conflict[x] ==>
        exists a :: a in accs && a.id == c && IsApplicable(a)
  {
    var r := AccountsToResult(accs, decode);
    AccountsToResultMeaning(accs, decode);
    EdgesResolve(accs, decode, accs);
    forall x, c | x in r.conflict && c in r.conflict[x]
      ensures exists a :: a in accs && a.id == c && IsApplicable(a)
    {
      ClaimantHasEdge(Edges(r.recommenders), x, c);
    }
  }
}
