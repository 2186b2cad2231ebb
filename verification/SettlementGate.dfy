/**
 The settlement funding gate
 (services/user-service/src/migrations/1718000000000-FreezeMultichainDomainContract.ts).

 Three tables and the constraints and triggers on them decide which deals can become funded.
 A nullable column is an `Option`; SQL equality is three-valued, so NULL never matches.
 */
module SettlementGate {
  import opened Outcomes
  import Decimal

  type Id = nat

  datatype Network = Ton | Polygon
  datatype Asset = TonUsdt | TonNative | PolygonUsdt
  datatype Mode = Native | LegacyTonToPolygon
  datatype FeeModel = Split5050 | BuyerPays | SellerPays

  datatype Deal = Deal(
    buyerId: Id,
    sellerId: Option<Id>,
    network: Option<Network>,
    chainId: Option<string>,
    asset: Option<Asset>,
    assetContract: Option<string>,
    mode: Option<Mode>,
    feeModel: FeeModel,
    termsVersion: int,
    termsHash: Option<string>,
    quoteId: Option<Id>,
    quoteVersion: Option<int>,
    quoteHash: Option<string>,
    fundedAt: Option<int>,
    paidAt: Option<int>)

  datatype Quote = Quote(
    dealId: Id,
    domainVersion: int,
    version: int,
    termsVersion: int,
    termsHash: string,
    feeModel: FeeModel,
    network: Network,
    chainId: string,
    asset: Asset,
    assetContract: Option<string>,
    decimals: int,
    amountAtomic: string,
    buyerFeeAtomic: string,
    sellerFeeAtomic: string,
    totalFundingAtomic: string,
    sellerReceivesAtomic: string,
    quotedAt: int,
    expiresAt: int,
    hash: string)

  datatype Confirmation = Confirmation(
    dealId: Id,
    quoteId: Id,
    party: string,
    userId: Id,
    domainVersion: int,
    termsVersion: int,
    termsHash: string,
    quoteVersion: int,
    quoteHash: string,
    network: Network,
    chainId: string,
    asset: Asset)

  // ---------- SQL ----------

  function SqlEquals<T(==)>(a: Option<T>, b: Option<T>): Option<bool> {
    if a.Some? && b.Some? then Some(a.value == b.value) else None
  }

  /** `WHERE a = b` */
  predicate Matches<T(==)>(a: T, b: Option<T>) {
    SqlEquals(Some(a), b) == Some(true)
  }

  /** `~ '^[0-9a-f]{64}$'` */
  predicate IsSha256(s: string) {
    |s| == 64 && forall i | 0 <= i < |s| :: Decimal.IsDigit(s[i]) || 'a' <= s[i] <= 'f'
  }

  /** `~ '^(0|[1-9][0-9]*)$'` in a varchar(78) */
  predicate IsAtomic(s: string) {
    Decimal.IsDigits(s) && |s| <= 78 && (s[0] == '0' ==> |s| == 1)
  }

  /** `~ '^[1-9][0-9]*$'` in a varchar(78) */
  predicate IsPositiveAtomic(s: string) {
    IsAtomic(s) && s[0] != '0'
  }

  /** `length(btrim(s)) > 0` in a varchar(64) */
  predicate IsChainId(s: string) {
    |s| <= 64 && exists i | 0 <= i < |s| :: s[i] != ' '
  }

  // ---------- Row checks ----------

  /** The amounts, and CHK_settlement_quote_conservation. */
  predicate AmountChecks(q: Quote) {
    && IsPositiveAtomic(q.amountAtomic)
    && IsAtomic(q.buyerFeeAtomic)
    && IsAtomic(q.sellerFeeAtomic)
    && IsPositiveAtomic(q.totalFundingAtomic)
    && IsAtomic(q.sellerReceivesAtomic)
    && Decimal.BigInt(q.totalFundingAtomic) == Decimal.BigInt(q.amountAtomic) + Decimal.BigInt(q.buyerFeeAtomic)
    && Decimal.BigInt(q.sellerReceivesAtomic) == Decimal.BigInt(q.amountAtomic) - Decimal.BigInt(q.sellerFeeAtomic)
    && Decimal.BigInt(q.sellerFeeAtomic) <= Decimal.BigInt(q.amountAtomic)
  }

  predicate QuoteChecks(q: Quote) {
    && q.domainVersion == 1
    && q.version > 0
    && q.termsVersion > 0
    && IsSha256(q.termsHash)
    && IsChainId(q.chainId)
    && (q.network.Ton? ==> q.asset in {TonUsdt, TonNative})
    && (q.network.Polygon? ==> q.asset == PolygonUsdt)
    && 0 <= q.decimals <= 18
    && q.expiresAt > q.quotedAt
    && IsSha256(q.hash)
    && (q.asset.TonNative? <==> q.assetContract.None?)
    && AmountChecks(q)
  }

  predicate ConfirmationChecks(c: Confirmation) {
    && c.party in {"buyer", "seller"}
    && c.domainVersion == 1
    && c.termsVersion > 0
    && IsSha256(c.termsHash)
    && c.quoteVersion > 0
    && IsSha256(c.quoteHash)
    && |c.chainId| <= 64
  }

  /** CHK_deal_settlement_quote_pointer: the three columns are NULL together. */
  predicate PointerCheck(d: Deal) {
    d.quoteId.Some? == d.quoteVersion.Some? == d.quoteHash.Some?
  }

  /** FK_deal_settlement_quote_pointer; a key with a NULL column references nothing. */
  predicate PointerKey(id: Id, d: Deal, quotes: map<Id, Quote>) {
    d.quoteId.Some? && d.quoteVersion.Some? && d.quoteHash.Some? ==>
      && d.quoteId.value in quotes
      && var q := quotes[d.quoteId.value];
      q.dealId == id && q.version == d.quoteVersion.value && q.hash == d.quoteHash.value && q.feeModel == d.feeModel
  }

  // ---------- The gate ----------

  predicate Funded(d: Deal) {
    d.fundedAt.Some? || d.paidAt.Some?
  }

  /** A deal the gate is about: funded, in native mode, on some settlement network. */
  predicate Gated(d: Deal) {
    d.network.Some? && d.mode == Some(Native) && Funded(d)
  }

  /** The eleven columns frozen while a deal is funded. */
  datatype Identity = Identity(
    network: Option<Network>,
    chainId: Option<string>,
    asset: Option<Asset>,
    assetContract: Option<string>,
    mode: Option<Mode>,
    feeModel: FeeModel,
    termsVersion: int,
    termsHash: Option<string>,
    quoteId: Option<Id>,
    quoteVersion: Option<int>,
    quoteHash: Option<string>)

  function IdentityOf(d: Deal): Identity {
    Identity(d.network, d.chainId, d.asset, d.assetContract, d.mode, d.feeModel,
             d.termsVersion, d.termsHash, d.quoteId, d.quoteVersion, d.quoteHash)
  }

  /** `c` confirms exactly the terms and quote of deal `id`. */
  predicate Confirms(c: Confirmation, id: Id, d: Identity, party: string) {
    && c.dealId == id
    && Matches(c.quoteId, d.quoteId)
    && c.party == party
    && c.termsVersion == d.termsVersion
    && Matches(c.termsHash, d.termsHash)
    && Matches(c.quoteVersion, d.quoteVersion)
    && Matches(c.quoteHash, d.quoteHash)
    && Matches(c.network, d.network)
    && Matches(c.chainId, d.chainId)
    && Matches(c.asset, d.asset)
  }

  predicate ConfirmedBy(confirmations: map<Id, Confirmation>, id: Id, d: Identity, party: string, user: Option<Id>) {
    exists c | c in confirmations :: Confirms(confirmations[c], id, d, party) && Matches(confirmations[c].userId, user)
  }

  /** In the columns themselves: `user`, as `party`, has confirmed terms, quote, network, chain and asset
      of the deal, none of which is NULL. */
  ghost predicate Agreed(c: Confirmation, id: Id, d: Deal, party: string, user: Option<Id>) {
    && c.dealId == id && c.party == party && user == Some(c.userId)
    && d.termsVersion == c.termsVersion && d.termsHash == Some(c.termsHash)
    && d.quoteId == Some(c.quoteId) && d.quoteVersion == Some(c.quoteVersion) && d.quoteHash == Some(c.quoteHash)
    && d.network == Some(c.network) && d.chainId == Some(c.chainId) && d.asset == Some(c.asset)
  }

  ghost predicate AgreedBy(confirmations: map<Id, Confirmation>, id: Id, d: Deal, party: string, user: Option<Id>) {
    exists c | c in confirmations :: Agreed(confirmations[c], id, d, party, user)
  }

  lemma AgreedByIff(confirmations: map<Id, Confirmation>, id: Id, d: Deal, party: string, user: Option<Id>)
    ensures AgreedBy(confirmations, id, d, party, user) <==> ConfirmedBy(confirmations, id, IdentityOf(d), party, user)
  {
    forall c | c in confirmations
      ensures Agreed(confirmations[c], id, d, party, user) <==>
              Confirms(confirmations[c], id, IdentityOf(d), party) && Matches(confirmations[c].userId, user)
    {
    }
  }

  /** Exactly one confirmation of the party names the deal's quote, it confirms everything, and it is
      `user`'s. */
  ghost predicate ConfirmedOnce(confirmations: map<Id, Confirmation>, id: Id, d: Deal, party: string, user: Option<Id>) {
    exists c | c in confirmations :: Agreed(confirmations[c], id, d, party, user) && OnlyOne(confirmations, c)
  }

  ghost predicate OnlyOne(confirmations: map<Id, Confirmation>, c: Id)
    requires c in confirmations
  {
    forall b | b in confirmations && confirmations[b].quoteId == confirmations[c].quoteId
      && confirmations[b].party == confirmations[c].party :: b == c
  }

  // ---------- What each statement is checked against ----------

  predicate DealAccepted(id: Id, d: Deal, deals: map<Id, Deal>, quotes: map<Id, Quote>) {
    id !in deals && PointerCheck(d) && PointerKey(id, d, quotes)
  }

  predicate QuoteAccepted(id: Id, q: Quote, deals: map<Id, Deal>, quotes: map<Id, Quote>) {
    && id !in quotes && q.dealId in deals && QuoteChecks(q)
    && forall p | p in quotes && quotes[p].dealId == q.dealId :: quotes[p].version != q.version && quotes[p].hash != q.hash
  }

  predicate ConfirmationAccepted(id: Id, c: Confirmation, deals: map<Id, Deal>, quotes: map<Id, Quote>, confirmations: map<Id, Confirmation>) {
    && id !in confirmations && c.dealId in deals && c.quoteId in quotes && ConfirmationChecks(c)
    && forall b | b in confirmations && confirmations[b].quoteId == c.quoteId :: confirmations[b].party != c.party
  }

  /** What the trigger lets through: nothing funded changes any of the eleven columns, nothing is funded
      natively without the exact confirmation of its buyer and of its seller. */
  ghost predicate GateAllows(id: Id, before: Deal, after: Deal, confirmations: map<Id, Confirmation>) {
    && (before.fundedAt.Some? || before.paidAt.Some? ==>
          && after.network == before.network && after.chainId == before.chainId && after.asset == before.asset
          && after.assetContract == before.assetContract && after.mode == before.mode && after.feeModel == before.feeModel
          && after.termsVersion == before.termsVersion && after.termsHash == before.termsHash
          && after.quoteId == before.quoteId && after.quoteVersion == before.quoteVersion && after.quoteHash == before.quoteHash)
    && (after.network.Some? && after.mode == Some(Native) && (after.fundedAt.Some? || after.paidAt.Some?)
        && before.fundedAt.None? && before.paidAt.None? ==>
          && after.quoteId.Some?
          && AgreedBy(confirmations, id, after, "buyer", Some(after.buyerId))
          && AgreedBy(confirmations, id, after, "seller", after.sellerId))
  }

  predicate Unreferenced(id: Id, quotes: map<Id, Quote>, confirmations: map<Id, Confirmation>) {
    && (forall q | q in quotes :: quotes[q].dealId != id)
    && (forall c | c in confirmations :: confirmations[c].dealId != id)
  }

  // ---------- The same checks, said of the columns ----------

  /** A pointer names no quote at all, or a quote of this deal with its version, hash and fee model. */
  ghost predicate PointsToOwn(id: Id, d: Deal, quotes: map<Id, Quote>) {
    if d.quoteId == None then d.quoteVersion == None && d.quoteHash == None
    else
      && d.quoteId.value in quotes
      && var q := quotes[d.quoteId.value];
         q.dealId == id && d.quoteVersion == Some(q.version) && d.quoteHash == Some(q.hash) && d.feeModel == q.feeModel
  }

  lemma PointsToOwnIff(id: Id, d: Deal, quotes: map<Id, Quote>)
    ensures PointerCheck(d) && PointerKey(id, d, quotes) <==> PointsToOwn(id, d, quotes)
  {
  }

  /** 64 hexadecimal digits. */
  ghost predicate IsHash(s: string) {
    |s| == 64 && forall c | c in s :: c in "0123456789abcdef"
  }

  /** The number `n`, printed in at most 78 digits. */
  ghost predicate Prints(s: string, n: nat) {
    |s| <= 78 && s == Decimal.ToString(n)
  }

  lemma HashIff(s: string)
    ensures IsSha256(s) <==> IsHash(s)
  {
    forall i | 0 <= i < |s|
      ensures s[i] in "0123456789abcdef" <==> Decimal.IsDigit(s[i]) || 'a' <= s[i] <= 'f'
    {
      HexDigit(s[i]);
    }
    if IsHash(s) {
      forall i | 0 <= i < |s|
        ensures Decimal.IsDigit(s[i]) || 'a' <= s[i] <= 'f'
      {
        assert s[i] in s;
      }
    }
  }

  lemma HexDigit(c: char)
    ensures c in "0123456789abcdef" <==> Decimal.IsDigit(c) || 'a' <= c <= 'f'
  {
    if Decimal.IsDigit(c) {
      assert c in ['0', '1', '2', '3', '4', '5', '6', '7', '8', '9'];
    }
  }

  lemma PrintsIff(s: string, n: nat)
    ensures IsAtomic(s) && Decimal.BigInt(s) == n <==> Prints(s, n)
    ensures IsPositiveAtomic(s) && Decimal.BigInt(s) == n <==> Prints(s, n) && n > 0
  {
    Decimal.BigIntToString(n);
    if IsAtomic(s) {
      Decimal.ToStringBigInt(s);
      if s[0] == '0' {
        assert s[..0] == [] && Decimal.BigInt(s[..0]) == 0;
      } else {
        Decimal.ToStringNoZero(s);
      }
    }
  }

  /** The row of a quote: its amounts are printed numbers, positive where they must be, which balance. */
  ghost predicate QuoteBalances(q: Quote, amount: nat, buyerFee: nat, sellerFee: nat) {
    && Prints(q.amountAtomic, amount) && Prints(q.buyerFeeAtomic, buyerFee) && Prints(q.sellerFeeAtomic, sellerFee)
    && 0 < amount && sellerFee <= amount
    && Prints(q.totalFundingAtomic, amount + buyerFee) && Prints(q.sellerReceivesAtomic, amount - sellerFee)
  }

  ghost predicate AmountsBalance(q: Quote) {
    exists amount: nat, buyerFee: nat, sellerFee: nat :: QuoteBalances(q, amount, buyerFee, sellerFee)
  }

  ghost predicate QuoteRowOk(q: Quote) {
    && q.domainVersion == 1 && 1 <= q.version && 1 <= q.termsVersion
    && IsHash(q.termsHash) && IsHash(q.hash)
    && |q.chainId| <= 64 && (exists c | c in q.chainId :: c != ' ')
    && (q.network, q.asset, q.assetContract.Some?) in {(Ton, TonUsdt, true), (Ton, TonNative, false), (Polygon, PolygonUsdt, true)}
    && 0 <= q.decimals < 19 && q.quotedAt < q.expiresAt
    && AmountsBalance(q)
  }

  ghost predicate ConfirmationRowOk(c: Confirmation) {
    && c.domainVersion == 1 && 1 <= c.termsVersion && 1 <= c.quoteVersion
    && (c.party == "buyer" || c.party == "seller")
    && IsHash(c.termsHash) && IsHash(c.quoteHash) && |c.chainId| < 65
  }

  lemma AmountsIff(q: Quote, amount: nat, buyerFee: nat, sellerFee: nat)
    ensures QuoteBalances(q, amount, buyerFee, sellerFee) <==>
            && IsPositiveAtomic(q.amountAtomic) && Decimal.BigInt(q.amountAtomic) == amount
            && IsAtomic(q.buyerFeeAtomic) && Decimal.BigInt(q.buyerFeeAtomic) == buyerFee
            && IsAtomic(q.sellerFeeAtomic) && Decimal.BigInt(q.sellerFeeAtomic) == sellerFee
            && IsPositiveAtomic(q.totalFundingAtomic) && Decimal.BigInt(q.totalFundingAtomic) == amount + buyerFee
            && IsAtomic(q.sellerReceivesAtomic) && Decimal.BigInt(q.sellerReceivesAtomic) == amount - sellerFee
  {
    PrintsIff(q.amountAtomic, amount);
    PrintsIff(q.buyerFeeAtomic, buyerFee);
    PrintsIff(q.sellerFeeAtomic, sellerFee);
    PrintsIff(q.totalFundingAtomic, amount + buyerFee);
    if sellerFee <= amount {
      PrintsIff(q.sellerReceivesAtomic, amount - sellerFee);
    }
  }

  lemma BalanceIff(q: Quote)
    ensures AmountChecks(q) <==> AmountsBalance(q)
  {
    if AmountChecks(q) {
      AmountsIff(q, Decimal.BigInt(q.amountAtomic), Decimal.BigInt(q.buyerFeeAtomic), Decimal.BigInt(q.sellerFeeAtomic));
    }
    if AmountsBalance(q) {
      var amount: nat, buyerFee: nat, sellerFee: nat :| QuoteBalances(q, amount, buyerFee, sellerFee);
      AmountsIff(q, amount, buyerFee, sellerFee);
    }
  }

  lemma QuoteRowIff(q: Quote)
    ensures QuoteChecks(q) <==> QuoteRowOk(q)
  {
    HashIff(q.termsHash);
    HashIff(q.hash);
    BalanceIff(q);
    if IsChainId(q.chainId) {
      var i :| 0 <= i < |q.chainId| && q.chainId[i] != ' ';
      assert q.chainId[i] in q.chainId;
    }
  }

  lemma ConfirmationRowIff(c: Confirmation)
    ensures ConfirmationChecks(c) <==> ConfirmationRowOk(c)
  {
    HashIff(c.termsHash);
    HashIff(c.quoteHash);
  }

  // ---------- The invariants ----------

  /** Every quote pointer is complete and names a quote of its own deal. */
  ghost predicate PointersOk(deals: map<Id, Deal>, quotes: map<Id, Quote>) {
    forall id | id in deals :: PointerCheck(deals[id]) && PointerKey(id, deals[id], quotes)
  }

  ghost predicate QuotesOk(deals: map<Id, Deal>, quotes: map<Id, Quote>) {
    && (forall q | q in quotes :: QuoteChecks(quotes[q]) && quotes[q].dealId in deals)
    && forall p, q | p in quotes && q in quotes && p != q && quotes[p].dealId == quotes[q].dealId ::
         quotes[p].version != quotes[q].version && quotes[p].hash != quotes[q].hash
  }

  ghost predicate ConfirmationsOk(deals: map<Id, Deal>, quotes: map<Id, Quote>, confirmations: map<Id, Confirmation>) {
    && (forall c | c in confirmations :: ConfirmationChecks(confirmations[c])
          && confirmations[c].dealId in deals && confirmations[c].quoteId in quotes)
    && forall b, c | b in confirmations && c in confirmations && b != c && confirmations[b].quoteId == confirmations[c].quoteId ::
         confirmations[b].party != confirmations[c].party
  }

  /** What a deal was when it became funded: its identity, the quote row it pointed to, its buyer and
      seller, and the confirmations that let it pass. */
  datatype Frozen = Frozen(
    identity: Identity, quote: Option<Quote>, buyerUser: Id, sellerUser: Option<Id>, buyer: Id, seller: Id)

  function QuoteOf(d: Deal, quotes: map<Id, Quote>): Option<Quote> {
    if d.quoteId.Some? && d.quoteId.value in quotes then Some(quotes[d.quoteId.value]) else None
  }

  /** The funding gate: whatever is funded natively was confirmed exactly by both parties, unless it
      was inserted funded, and then it has no quote that could be confirmed. */
  ghost predicate GateHolds(deals: map<Id, Deal>, confirmations: map<Id, Confirmation>, frozen: map<Id, Frozen>, ungated: set<Id>) {
    && (forall id | id in ungated :: id in deals && Funded(deals[id]) && deals[id].quoteId.None?)
    && forall id | id in deals && Gated(deals[id]) && id !in ungated ::
         id in frozen && Passed(id, deals[id], frozen[id], confirmations)
  }

  ghost predicate Passed(id: Id, d: Deal, f: Frozen, confirmations: map<Id, Confirmation>) {
    && f.buyer in confirmations && Agreed(confirmations[f.buyer], id, d, "buyer", Some(f.buyerUser))
    && f.seller in confirmations && Agreed(confirmations[f.seller], id, d, "seller", f.sellerUser)
  }

  ghost predicate HasColumns(d: Deal, i: Identity) {
    && d.network == i.network && d.chainId == i.chainId && d.asset == i.asset && d.assetContract == i.assetContract
    && d.mode == i.mode && d.feeModel == i.feeModel && d.termsVersion == i.termsVersion && d.termsHash == i.termsHash
    && d.quoteId == i.quoteId && d.quoteVersion == i.quoteVersion && d.quoteHash == i.quoteHash
  }

  /** Funded economics are those the deal had when it became funded. */
  ghost predicate FrozenHolds(deals: map<Id, Deal>, quotes: map<Id, Quote>, frozen: map<Id, Frozen>) {
    forall id | id in deals && Funded(deals[id]) ::
      id in frozen && HasColumns(deals[id], frozen[id].identity) && frozen[id].quote == QuoteOf(deals[id], quotes)
  }

  lemma AddConfirmation(deals: map<Id, Deal>, quotes: map<Id, Quote>, confirmations: map<Id, Confirmation>,
                        frozen: map<Id, Frozen>, ungated: set<Id>, id: Id, c: Confirmation)
    requires ConfirmationsOk(deals, quotes, confirmations) && GateHolds(deals, confirmations, frozen, ungated)
    requires ConfirmationAccepted(id, c, deals, quotes, confirmations)
    ensures ConfirmationsOk(deals, quotes, confirmations[id := c]) && GateHolds(deals, confirmations[id := c], frozen, ungated)
  {
    forall d | d in deals && Gated(deals[d]) && d !in ungated
      ensures Passed(d, deals[d], frozen[d], confirmations[id := c])
    {
    }
  }

  lemma QuoteKeepsPointers(deals: map<Id, Deal>, quotes: map<Id, Quote>, frozen: map<Id, Frozen>, id: Id, q: Quote)
    requires PointersOk(deals, quotes) && FrozenHolds(deals, quotes, frozen) && id !in quotes
    ensures PointersOk(deals, quotes[id := q]) && FrozenHolds(deals, quotes[id := q], frozen)
  {
    forall d | d in deals
      ensures PointerCheck(deals[d]) && PointerKey(d, deals[d], quotes[id := q])
      ensures QuoteOf(deals[d], quotes[id := q]) == QuoteOf(deals[d], quotes)
    {
      assert PointerCheck(deals[d]) && PointerKey(d, deals[d], quotes);
    }
  }

  lemma AddQuote(deals: map<Id, Deal>, quotes: map<Id, Quote>, confirmations: map<Id, Confirmation>,
                 frozen: map<Id, Frozen>, id: Id, q: Quote)
    requires PointersOk(deals, quotes) && QuotesOk(deals, quotes) && ConfirmationsOk(deals, quotes, confirmations)
    requires FrozenHolds(deals, quotes, frozen)
    requires QuoteAccepted(id, q, deals, quotes)
    ensures PointersOk(deals, quotes[id := q]) && QuotesOk(deals, quotes[id := q])
    ensures ConfirmationsOk(deals, quotes[id := q], confirmations) && FrozenHolds(deals, quotes[id := q], frozen)
  {
    QuoteKeepsPointers(deals, quotes, frozen, id, q);
  }

  lemma AddDeal(deals: map<Id, Deal>, quotes: map<Id, Quote>, confirmations: map<Id, Confirmation>, id: Id, d: Deal)
    requires PointersOk(deals, quotes) && QuotesOk(deals, quotes) && ConfirmationsOk(deals, quotes, confirmations)
    requires PointerCheck(d) && PointerKey(id, d, quotes)
    ensures PointersOk(deals[id := d], quotes) && QuotesOk(deals[id := d], quotes)
    ensures ConfirmationsOk(deals[id := d], quotes, confirmations)
  {
  }

  lemma RemoveDeal(deals: map<Id, Deal>, quotes: map<Id, Quote>, confirmations: map<Id, Confirmation>, id: Id)
    requires PointersOk(deals, quotes) && QuotesOk(deals, quotes) && ConfirmationsOk(deals, quotes, confirmations)
    requires Unreferenced(id, quotes, confirmations)
    ensures PointersOk(deals - {id}, quotes) && QuotesOk(deals - {id}, quotes)
    ensures ConfirmationsOk(deals - {id}, quotes, confirmations)
  {
    forall d | d in deals - {id}
      ensures PointerCheck(deals[d]) && PointerKey(d, deals[d], quotes)
    {
    }
  }

  function FrozenAt(d: Deal, quote: Option<Quote>, b: Id, c: Id): Frozen {
    Frozen(IdentityOf(d), quote, d.buyerId, d.sellerId, b, c)
  }

  /** The confirmations, by the deal's own buyer and seller, that let it pass the gate. */
  lemma Witnesses(id: Id, before: Deal, after: Deal, confirmations: map<Id, Confirmation>) returns (b: Id, c: Id)
    requires GateAllows(id, before, after, confirmations)
    ensures Gated(after) && !Funded(before) ==>
              Passed(id, after, FrozenAt(after, None, b, c), confirmations)
  {
    b, c := 0, 0;
    if Gated(after) && !Funded(before) {
      b :| b in confirmations && Agreed(confirmations[b], id, after, "buyer", Some(after.buyerId));
      c :| c in confirmations && Agreed(confirmations[c], id, after, "seller", after.sellerId);
    }
  }

  /** What is frozen after an update that the gate allowed. */
  ghost function Refrozen(frozen: map<Id, Frozen>, id: Id, before: Deal, f: Frozen): map<Id, Frozen> {
    if Funded(before) then frozen else frozen[id := f]
  }

  lemma UpdateKeepsGate(deals: map<Id, Deal>, confirmations: map<Id, Confirmation>, frozen: map<Id, Frozen>, ungated: set<Id>,
                        id: Id, after: Deal, f: Frozen)
    requires GateHolds(deals, confirmations, frozen, ungated) && id in deals
    requires Funded(deals[id]) ==> IdentityOf(after) == IdentityOf(deals[id])
    requires Gated(after) && !Funded(deals[id]) ==> Passed(id, after, f, confirmations)
    ensures GateHolds(deals[id := after], confirmations, Refrozen(frozen, id, deals[id], f),
                      if Funded(after) then ungated else ungated - {id})
  {
  }

  lemma UpdateKeepsFrozen(deals: map<Id, Deal>, quotes: map<Id, Quote>, frozen: map<Id, Frozen>, id: Id, after: Deal, f: Frozen)
    requires FrozenHolds(deals, quotes, frozen) && id in deals
    requires Funded(deals[id]) ==> HasColumns(deals[id], IdentityOf(after))
    requires HasColumns(after, f.identity) && f.quote == QuoteOf(after, quotes)
    ensures FrozenHolds(deals[id := after], quotes, Refrozen(frozen, id, deals[id], f))
  {
  }

  // ---------- What the gate is for ----------

  /** A funded native deal has exactly one confirmation of its quote by either party, for exactly its
      terms, quote, network, chain and asset, by those who were its buyer and seller when it became
      funded, if and only if it was not inserted funded. */
  lemma FundedDealIsConfirmed(deals: map<Id, Deal>, quotes: map<Id, Quote>, confirmations: map<Id, Confirmation>,
                              frozen: map<Id, Frozen>, ungated: set<Id>, id: Id)
    requires ConfirmationsOk(deals, quotes, confirmations) && GateHolds(deals, confirmations, frozen, ungated)
    requires FrozenHolds(deals, quotes, frozen)
    requires id in deals && Gated(deals[id])
    ensures id in frozen
    ensures ConfirmedOnce(confirmations, id, deals[id], "buyer", Some(frozen[id].buyerUser)) <==> id !in ungated
    ensures ConfirmedOnce(confirmations, id, deals[id], "seller", frozen[id].sellerUser) <==> id !in ungated
  {
    if id !in ungated {
      var f := frozen[id];
      assert Passed(id, deals[id], f, confirmations);
      assert OnlyOne(confirmations, f.buyer) && OnlyOne(confirmations, f.seller);
    }
  }

  /** The quote such a deal points to is the row both parties confirmed, the row it had when it was
      funded, and its amounts balance: what the buyer pays and the seller does not get is the fees. */
  lemma FundedEconomics(deals: map<Id, Deal>, quotes: map<Id, Quote>, confirmations: map<Id, Confirmation>,
                        frozen: map<Id, Frozen>, ungated: set<Id>, id: Id)
    requires PointersOk(deals, quotes) && QuotesOk(deals, quotes) && ConfirmationsOk(deals, quotes, confirmations)
    requires GateHolds(deals, confirmations, frozen, ungated) && FrozenHolds(deals, quotes, frozen)
    requires id in deals && Gated(deals[id]) && id !in ungated
    ensures deals[id].quoteId.Some? && deals[id].quoteId.value in quotes && id in frozen
    ensures frozen[id].buyer in confirmations && frozen[id].seller in confirmations
    ensures var q := quotes[deals[id].quoteId.value];
            && frozen[id].quote == Some(q)
            && confirmations[frozen[id].buyer].quoteHash == confirmations[frozen[id].seller].quoteHash == q.hash
            && confirmations[frozen[id].buyer].quoteVersion == confirmations[frozen[id].seller].quoteVersion == q.version
            && Decimal.BigInt(q.totalFundingAtomic) - Decimal.BigInt(q.sellerReceivesAtomic)
               == Decimal.BigInt(q.buyerFeeAtomic) + Decimal.BigInt(q.sellerFeeAtomic)
            && 0 <= Decimal.BigInt(q.sellerReceivesAtomic) <= Decimal.BigInt(q.totalFundingAtomic)
  {
    assert Passed(id, deals[id], frozen[id], confirmations);
    assert PointerCheck(deals[id]) && PointerKey(id, deals[id], quotes);
    assert QuoteChecks(quotes[deals[id].quoteId.value]);
  }

  /** The settlement terms a quote, a confirmation and a deal each carry. */
  datatype Terms = Terms(version: int, hash: string, network: Network, chainId: string, asset: Asset)

  function QuoteTerms(q: Quote): Terms {
    Terms(q.termsVersion, q.termsHash, q.network, q.chainId, q.asset)
  }

  function ConfirmedTerms(c: Confirmation): Terms {
    Terms(c.termsVersion, c.termsHash, c.network, c.chainId, c.asset)
  }

  predicate HasTerms(d: Deal, t: Terms) {
    d.termsVersion == t.version && d.termsHash == Some(t.hash) && d.network == Some(t.network)
    && d.chainId == Some(t.chainId) && d.asset == Some(t.asset)
  }

  /** The gate never compares a deal's terms with those of its quote: they agree exactly when the
      buyer's (equally, the seller's) confirmation copied the terms of the quote. */
  lemma TermsAgreeIff(deals: map<Id, Deal>, quotes: map<Id, Quote>, confirmations: map<Id, Confirmation>,
                      frozen: map<Id, Frozen>, ungated: set<Id>, id: Id)
    requires PointersOk(deals, quotes) && GateHolds(deals, confirmations, frozen, ungated)
    requires id in deals && Gated(deals[id]) && id !in ungated
    ensures id in frozen && frozen[id].buyer in confirmations && frozen[id].seller in confirmations
    ensures deals[id].quoteId.Some? && deals[id].quoteId.value in quotes
    ensures var q := quotes[deals[id].quoteId.value];
            && (HasTerms(deals[id], QuoteTerms(q)) <==> ConfirmedTerms(confirmations[frozen[id].buyer]) == QuoteTerms(q))
            && (HasTerms(deals[id], QuoteTerms(q)) <==> ConfirmedTerms(confirmations[frozen[id].seller]) == QuoteTerms(q))
  {
    assert Passed(id, deals[id], frozen[id], confirmations);
    assert PointerCheck(deals[id]) && PointerKey(id, deals[id], quotes);
  }

  /** The parties are not frozen: a funded deal's present buyer (seller) is one who confirmed if and
      only if they are the one it had when it became funded. */
  lemma PresentPartiesConfirmedIff(deals: map<Id, Deal>, quotes: map<Id, Quote>, confirmations: map<Id, Confirmation>,
                                   frozen: map<Id, Frozen>, ungated: set<Id>, id: Id)
    requires ConfirmationsOk(deals, quotes, confirmations) && GateHolds(deals, confirmations, frozen, ungated)
    requires id in deals && Gated(deals[id]) && id !in ungated
    ensures id in frozen
    ensures AgreedBy(confirmations, id, deals[id], "buyer", Some(deals[id].buyerId))
            <==> deals[id].buyerId == frozen[id].buyerUser
    ensures AgreedBy(confirmations, id, deals[id], "seller", deals[id].sellerId)
            <==> deals[id].sellerId == frozen[id].sellerUser
  {
    var f := frozen[id];
    assert Passed(id, deals[id], f, confirmations);
    assert OnlyOne(confirmations, f.buyer) && OnlyOne(confirmations, f.seller);
  }

  /** Every such deal can be given another buyer and seller by an update that every check lets
      through, and those then have not confirmed. */
  lemma PartiesMayChange(deals: map<Id, Deal>, quotes: map<Id, Quote>, confirmations: map<Id, Confirmation>,
                         frozen: map<Id, Frozen>, ungated: set<Id>, id: Id, b: Id, s: Option<Id>)
    requires PointersOk(deals, quotes) && ConfirmationsOk(deals, quotes, confirmations)
    requires GateHolds(deals, confirmations, frozen, ungated)
    requires id in deals && Gated(deals[id]) && id !in ungated && id in frozen
    requires b != frozen[id].buyerUser && s != frozen[id].sellerUser
    ensures var after := deals[id].(buyerId := b, sellerId := s);
            && GateAllows(id, deals[id], after, confirmations) && PointerCheck(after) && PointerKey(id, after, quotes)
            && Gated(after)
            && !AgreedBy(confirmations, id, after, "buyer", Some(b))
            && !AgreedBy(confirmations, id, after, "seller", s)
  {
    var after := deals[id].(buyerId := b, sellerId := s);
    assert IdentityOf(after) == IdentityOf(deals[id]);
    UpdateKeepsGate(deals, confirmations, frozen, ungated, id, after, frozen[id]);
    PresentPartiesConfirmedIff(deals[id := after], quotes, confirmations, frozen, ungated, id);
  }

  lemma PolygonQuote(hash: string) returns (q: Quote)
    requires IsSha256(hash)
    ensures QuoteChecks(q) && q.dealId == 0 && q.version == 1 && q.network == Polygon && q.feeModel == BuyerPays
  {
    q := Quote(0, 1, 1, 1, hash, BuyerPays, Polygon, "137", PolygonUsdt, Some("usdt"), 6, "1", "0", "0", "1", "1", 0, 1, hash);
    assert q.chainId[0] != ' ';
    assert Decimal.BigInt("1") == 1 && Decimal.BigInt("0") == 0;
  }

  /** A deal settled on TON, whose parties both confirmed TON, funded on a quote for Polygon. */
  lemma QuoteMayDisagree(hash: string) returns (before: Deal, after: Deal, q: Quote, b: Confirmation, s: Confirmation)
    requires IsSha256(hash)
    ensures QuoteChecks(q) && ConfirmationChecks(b) && ConfirmationChecks(s)
    ensures PointerCheck(after) && PointerKey(0, after, map[0 := q])
    ensures !Funded(before) && Gated(after) && GateAllows(0, before, after, map[0 := b, 1 := s])
    ensures after.network == Some(Ton) && q.network == Polygon
  {
    q := PolygonQuote(hash);
    b := Confirmation(0, 0, "buyer", 1, 1, 1, q.hash, 1, q.hash, Ton, "-239", TonNative);
    s := b.(party := "seller", userId := 2);
    before := Deal(1, Some(2), Some(Ton), Some(b.chainId), Some(TonNative), None, Some(Native), BuyerPays, 1, Some(q.hash),
                   Some(0), Some(1), Some(q.hash), None, None);
    after := before.(fundedAt := Some(1));
    var confirmations := map[0 := b, 1 := s];
    assert Agreed(confirmations[0], 0, after, "buyer", Some(1));
    assert Agreed(confirmations[1], 0, after, "seller", Some(2));
  }

  /** An inserted deal meets no gate, because the trigger is on UPDATE only: it is accepted exactly
      when it is new and names no quote, funded or not, since the quotes of a deal come after it. */
  lemma InsertMeetsNoGate(deals: map<Id, Deal>, quotes: map<Id, Quote>, id: Id, d: Deal)
    requires QuotesOk(deals, quotes)
    ensures DealAccepted(id, d, deals, quotes) <==>
            id !in deals && d.quoteId.None? && d.quoteVersion.None? && d.quoteHash.None?
  {
  }

  /** A deal that is funded although nobody can ever have confirmed anything for it. */
  lemma InsertedUnconfirmed() returns (d: Deal)
    ensures Gated(d) && forall id :: DealAccepted(id, d, map[], map[])
    ensures forall confirmations, id, party, user :: !ConfirmedOnce(confirmations, id, d, party, user)
  {
    d := Deal(1, Some(2), Some(Ton), Some("-239"), Some(TonNative), None, Some(Native), BuyerPays, 1, None,
              None, None, None, Some(1), None);
  }

  /** A statement; a rewrite is an UPDATE to another row or, with none, a DELETE. */
  datatype Statement =
    | InsertDeal(id: Id, deal: Deal)
    | UpdateDeal(id: Id, deal: Deal)
    | DeleteDeal(id: Id)
    | InsertQuote(id: Id, quote: Quote)
    | InsertConfirmation(id: Id, confirmation: Confirmation)
    | RewriteQuote(id: Id, to: Option<Quote>)
    | RewriteConfirmation(id: Id, row: Option<Confirmation>)

  /** Nothing stored before is gone or changed. */
  ghost predicate Retains<T(!new)>(before: map<Id, T>, after: map<Id, T>) {
    forall id | id in before :: id in after && after[id] == before[id]
  }

  class Database {
    var deals: map<Id, Deal>
    var quotes: map<Id, Quote>
    var confirmations: map<Id, Confirmation>
    /** For every funded deal, what it was when it became funded. */
    ghost var frozen: map<Id, Frozen>
    /** Deals inserted already funded, and funded ever since: no trigger looked at them. */
    ghost var ungated: set<Id>

    ghost predicate Valid()
      reads this
    {
      && PointersOk(deals, quotes)
      && QuotesOk(deals, quotes)
      && ConfirmationsOk(deals, quotes, confirmations)
      && GateHolds(deals, confirmations, frozen, ungated)
      && FrozenHolds(deals, quotes, frozen)
    }

    constructor ()
      ensures Valid()
      ensures deals == map[] && quotes == map[] && confirmations == map[]
    {
      deals, quotes, confirmations, frozen, ungated := map[], map[], map[], map[], {};
    }

    /** INSERT INTO deals: constraints only; the gate is a trigger on UPDATE. */
    method InsertDeal(id: Id, d: Deal) returns (ok: bool)
      requires Valid()
      modifies this
      ensures Valid() && quotes == old(quotes) && confirmations == old(confirmations)
      ensures ok <==> id !in old(deals) && PointsToOwn(id, d, quotes)
      ensures deals == if ok then old(deals)[id := d] else old(deals)
      ensures ungated == if ok && Funded(d) then old(ungated) + {id} else old(ungated)
    {
      ok := DealAccepted(id, d, deals, quotes);
      PointsToOwnIff(id, d, quotes);
      if ok {
        AddDeal(deals, quotes, confirmations, id, d);
        deals := deals[id := d];
        frozen := frozen[id := FrozenAt(d, QuoteOf(d, quotes), 0, 0)];
        ungated := if Funded(d) then ungated + {id} else ungated;
      }
    }

    /** INSERT INTO settlement_quotes. */
    method InsertQuote(id: Id, q: Quote) returns (ok: bool)
      requires Valid()
      modifies this`quotes
      ensures Valid()
      ensures ok <==>
              && id !in old(quotes) && q.dealId in deals && QuoteRowOk(q)
              && forall p | p in old(quotes) && old(quotes)[p].dealId == q.dealId ::
                   old(quotes)[p].version != q.version && old(quotes)[p].hash != q.hash
      ensures quotes == if ok then old(quotes)[id := q] else old(quotes)
    {
      ok := QuoteAccepted(id, q, deals, quotes);
      QuoteRowIff(q);
      if ok {
        AddQuote(deals, quotes, confirmations, frozen, id, q);
        quotes := quotes[id := q];
      }
    }

    /** INSERT INTO settlement_confirmations. */
    method InsertConfirmation(id: Id, c: Confirmation) returns (ok: bool)
      requires Valid()
      modifies this`confirmations
      ensures Valid()
      ensures ok <==>
              && id !in old(confirmations) && c.dealId in deals && c.quoteId in quotes && ConfirmationRowOk(c)
              && forall b | b in old(confirmations) && old(confirmations)[b].quoteId == c.quoteId :: old(confirmations)[b].party != c.party
      ensures confirmations == if ok then old(confirmations)[id := c] else old(confirmations)
    {
      ok := ConfirmationAccepted(id, c, deals, quotes, confirmations);
      ConfirmationRowIff(c);
      if ok {
        AddConfirmation(deals, quotes, confirmations, frozen, ungated, id, c);
        confirmations := confirmations[id := c];
      }
    }

    /** TRG_deal_multichain_settlement_gate: `enforce_deal_multichain_settlement_gate()`. */
    method Gate(id: Id, before: Deal, after: Deal) returns (ok: bool)
      ensures ok <==> GateAllows(id, before, after, confirmations)
    {
      if before.fundedAt.Some? || before.paidAt.Some? {
        if IdentityOf(after) != IdentityOf(before) {
          return false; // funded settlement identity is immutable
        }
      }
      if after.network.Some? && after.mode == Some(Native) && (after.fundedAt.Some? || after.paidAt.Some?)
         && before.fundedAt.None? && before.paidAt.None? {
        if after.quoteId.None? {
          return false; // authoritative settlement quote is required before funding
        }
        var buyerConfirmed := ConfirmedBy(confirmations, id, IdentityOf(after), "buyer", Some(after.buyerId));
        AgreedByIff(confirmations, id, after, "buyer", Some(after.buyerId));
        AgreedByIff(confirmations, id, after, "seller", after.sellerId);
        var sellerConfirmed := ConfirmedBy(confirmations, id, IdentityOf(after), "seller", after.sellerId);
        if !buyerConfirmed || !sellerConfirmed {
          return false; // both parties must confirm exact terms and quote before funding
        }
      }
      return true;
    }

    /** UPDATE deals ... WHERE id = `id`: the gate, then the constraints. */
    method UpdateDeal(id: Id, after: Deal) returns (ok: bool)
      requires Valid()
      modifies this
      ensures Valid() && quotes == old(quotes) && confirmations == old(confirmations)
      ensures id !in old(deals) ==> ok && deals == old(deals) && ungated == old(ungated)
      ensures id in old(deals) ==>
                (ok <==> GateAllows(id, old(deals)[id], after, confirmations) && PointsToOwn(id, after, quotes))
      ensures id in old(deals) ==> deals == if ok then old(deals)[id := after] else old(deals)
      // A deal that was inserted funded escapes the gate only as long as it stays funded.
      ensures id in old(deals) ==> ungated == if ok && !Funded(after) then old(ungated) - {id} else old(ungated)
      // While a deal is funded none of these eleven columns changes, and an update of any of them is refused.
      ensures id in old(deals) && Funded(old(deals)[id]) && ok ==>
                var d := old(deals)[id];
                && deals[id].network == d.network && deals[id].chainId == d.chainId
                && deals[id].asset == d.asset && deals[id].assetContract == d.assetContract
                && deals[id].mode == d.mode && deals[id].feeModel == d.feeModel
                && deals[id].termsVersion == d.termsVersion && deals[id].termsHash == d.termsHash
                && deals[id].quoteId == d.quoteId && deals[id].quoteVersion == d.quoteVersion && deals[id].quoteHash == d.quoteHash
      ensures id in old(deals) && (old(deals)[id].fundedAt.Some? || old(deals)[id].paidAt.Some?) ==>
                var d := old(deals)[id];
                (|| after.network != d.network || after.chainId != d.chainId || after.asset != d.asset
                 || after.assetContract != d.assetContract || after.mode != d.mode || after.feeModel != d.feeModel
                 || after.termsVersion != d.termsVersion || after.termsHash != d.termsHash || after.quoteId != d.quoteId
                 || after.quoteVersion != d.quoteVersion || after.quoteHash != d.quoteHash) ==> !ok
      // What is frozen is what the deal was when it became funded, for as long as it stays funded.
      ensures id in old(deals) && Funded(old(deals)[id]) ==> frozen == old(frozen)
      ensures id in old(deals) && ok && !Funded(old(deals)[id]) ==>
                id in frozen && frozen[id] == FrozenAt(after, QuoteOf(after, quotes), frozen[id].buyer, frozen[id].seller)
    {
      if id !in deals {
        return true;
      }
      var before := deals[id];
      ok := Gate(id, before, after);
      if !ok {
        return;
      }
      ok := PointerCheck(after) && PointerKey(id, after, quotes);
      PointsToOwnIff(id, after, quotes);
      if ok {
        ghost var b, c := Witnesses(id, before, after, confirmations);
        ghost var f := FrozenAt(after, QuoteOf(after, quotes), b, c);
        AddDeal(deals, quotes, confirmations, id, after);
        UpdateKeepsGate(deals, confirmations, frozen, ungated, id, after, f);
        UpdateKeepsFrozen(deals, quotes, frozen, id, after, f);
        deals := deals[id := after];
        frozen := Refrozen(frozen, id, before, f);
        ungated := if Funded(after) then ungated else ungated - {id};
      }
    }

    /** DELETE FROM deals: a deal that has quotes or confirmations is kept (ON DELETE RESTRICT). */
    method DeleteDeal(id: Id) returns (ok: bool)
      requires Valid()
      modifies this
      ensures Valid() && quotes == old(quotes) && confirmations == old(confirmations)
      ensures ok <==>
              || id !in old(deals)
              || (id !in (set q | q in quotes :: quotes[q].dealId) && id !in (set c | c in confirmations :: confirmations[c].dealId))
      ensures deals == if ok then old(deals) - {id} else old(deals)
    {
      if id !in deals {
        return true;
      }
      ok := Unreferenced(id, quotes, confirmations);
      if ok {
        RemoveDeal(deals, quotes, confirmations, id);
        deals := deals - {id};
        ungated := ungated - {id};
      }
    }

    /** A statement on the deals. */
    method ExecuteOnDeals(s: Statement) returns (ok: bool)
      requires Valid() && (s.InsertDeal? || s.UpdateDeal? || s.DeleteDeal?)
      modifies this
      ensures Valid() && quotes == old(quotes) && confirmations == old(confirmations)
      ensures !ok ==> deals == old(deals)
    {
      match s
      case InsertDeal(id, d) => ok := InsertDeal(id, d);
      case UpdateDeal(id, d) => ok := UpdateDeal(id, d);
      case DeleteDeal(id) => ok := DeleteDeal(id);
    }

    /** A statement on the quotes: the row trigger raises for every row a rewrite meets. */
    method ExecuteOnQuotes(s: Statement) returns (ok: bool)
      requires Valid() && (s.InsertQuote? || s.RewriteQuote?)
      modifies this`quotes
      ensures Valid() && Retains(old(quotes), quotes)
      ensures s.RewriteQuote? && s.id in old(quotes) ==> !ok
      ensures !ok ==> quotes == old(quotes)
    {
      match s
      case InsertQuote(id, q) => ok := InsertQuote(id, q);
      case RewriteQuote(id, _) => ok := id !in quotes;
    }

    method ExecuteOnConfirmations(s: Statement) returns (ok: bool)
      requires Valid() && (s.InsertConfirmation? || s.RewriteConfirmation?)
      modifies this`confirmations
      ensures Valid() && Retains(old(confirmations), confirmations)
      ensures s.RewriteConfirmation? && s.id in old(confirmations) ==> !ok
      ensures !ok ==> confirmations == old(confirmations)
    {
      match s
      case InsertConfirmation(id, c) => ok := InsertConfirmation(id, c);
      case RewriteConfirmation(id, _) => ok := id !in confirmations;
    }

    /** One statement, of any kind and on any table. */
    method Execute(s: Statement) returns (ok: bool)
      requires Valid()
      modifies this
      ensures Valid() && Retains(old(quotes), quotes) && Retains(old(confirmations), confirmations)
      ensures s.RewriteQuote? && s.id in old(quotes) ==> !ok
      ensures s.RewriteConfirmation? && s.id in old(confirmations) ==> !ok
      ensures !ok ==> deals == old(deals) && quotes == old(quotes) && confirmations == old(confirmations)
    {
      if s.InsertDeal? || s.UpdateDeal? || s.DeleteDeal? {
        ok := ExecuteOnDeals(s);
      } else if s.InsertQuote? || s.RewriteQuote? {
        ok := ExecuteOnQuotes(s);
      } else {
        ok := ExecuteOnConfirmations(s);
      }
    }

    /** Any number of statements. Every quote and confirmation ever stored is still there, unchanged;
        and exactly the native deals that were not inserted funded are funded on the one confirmation
        each of those who were their buyer and seller then. */
    method Operate(statements: seq<Statement>)
      requires Valid()
      modifies this
      ensures Valid() && Retains(old(quotes), quotes) && Retains(old(confirmations), confirmations)
      ensures forall id | id in deals && Gated(deals[id]) ::
                id in frozen
                && (ConfirmedOnce(confirmations, id, deals[id], "buyer", Some(frozen[id].buyerUser)) <==> id !in ungated)
                && (ConfirmedOnce(confirmations, id, deals[id], "seller", frozen[id].sellerUser) <==> id !in ungated)
    {
      for i := 0 to |statements|
        invariant Valid() && Retains(old(quotes), quotes) && Retains(old(confirmations), confirmations)
      {
        var ok := Execute(statements[i]);
      }
      forall id | id in deals && Gated(deals[id])
        ensures id in frozen
        ensures ConfirmedOnce(confirmations, id, deals[id], "buyer", Some(frozen[id].buyerUser)) <==> id !in ungated
        ensures ConfirmedOnce(confirmations, id, deals[id], "seller", frozen[id].sellerUser) <==> id !in ungated
      {
        FundedDealIsConfirmed(deals, quotes, confirmations, frozen, ungated, id);
      }
    }
  }
}
