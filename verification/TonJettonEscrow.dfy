/**
 The data cell and the message bodies of the Jetton escrow
 (contracts-ton/wrappers/TonJettonEscrow.ts), with the decoders that show what they commit to.
 */
module TonJettonEscrow {
  import opened Outcomes
  import opened TonCells

  const AWAITING_FUNDING := 0

  const SEAL_CANONICAL_JETTON_WALLET := 0x6a736561
  const TRANSFER_NOTIFICATION := 0x7362d09c
  const MARK_DELIVERED := 0x64656c76
  const RELEASE := 0x72656c73
  const REFUND_BUYER := 0x72656664
  const REFUND_AFTER_SELLER_TIMEOUT := 0x73746d6f
  const RELEASE_AFTER_BUYER_TIMEOUT := 0x62746d6f
  const OPEN_DISPUTE := 0x64737074
  const RESOLVE := 0x72736c76
  const RECONCILE_ATTEMPT := 0x72636e63
  const RETRY_FAILED_LEGS := 0x72747279
  const FINALIZE_SETTLEMENT := 0x666e6c7a

  datatype Config = Config(
    dealId: int,
    termsHash: int,
    quoteHash: int,
    fundingDeadline: int,
    deliveryDeadline: int,
    confirmationDeadline: int,
    expectedQueryId: int,
    forwardPayloadHash: int,
    buyer: Address,
    seller: Address,
    arbitrator: Address,
    treasury: Address,
    initializer: Address,
    reconciliation: Address,
    master: Address,
    walletCodeHash: int,
    buyerTotal: int,
    sellerPayout: int,
    platformFee: int,
    refundToBuyer: int,
    refundFee: int)

  // The limits of 64, 120 and 256 bits.
  const UINT64_LIMIT := 0x1_0000_0000_0000_0000
  const COINS_LIMIT := 0x1_000000_00000000_00000000_00000000
  const UINT256_LIMIT := 0x1_00000000_00000000_00000000_00000000_00000000_00000000_00000000_00000000

  // ---------- Validation ----------

  /** `assertUint(name, value, 1n << size, nonZero)` */
  predicate IsUint(value: int, size: nat, nonZero: bool) {
    0 <= value < Pow2(size) && (nonZero ==> value != 0)
  }

  predicate IsCoins(value: int) {
    IsUint(value, 120, false)
  }

  predicate Distinct(entries: seq<Address>) {
    forall left, right | 0 <= left < right < |entries| :: entries[left] != entries[right]
  }

  /** `assertDistinctAddresses`: an error names a pair that coincides. */
  method AssertDistinctAddresses(entries: seq<Address>) returns (clash: Option<(nat, nat)>)
    ensures clash.None? <==> Distinct(entries)
    ensures clash.Some? ==> clash.value.0 < clash.value.1 < |entries| && entries[clash.value.0] == entries[clash.value.1]
    // The pair reported is the first in the order of the loops.
    ensures clash.Some? ==> forall left, right | 0 <= left < right < |entries| && entries[left] == entries[right] ::
                              clash.value.0 < left || (clash.value.0 == left && clash.value.1 <= right)
  {
    var left := 0;
    while left < |entries|
      invariant 0 <= left <= |entries|
      invariant forall l, r | 0 <= l < left && l < r < |entries| :: entries[l] != entries[r]
    {
      var right := left + 1;
      while right < |entries|
        invariant left < right <= |entries|
        invariant forall r | left < r < right :: entries[left] != entries[r]
      {
        if entries[left] == entries[right] {
          return Some((left, right));
        }
        right := right + 1;
      }
      left := left + 1;
    }
    return None;
  }

  function Roles(c: Config): seq<Address> {
    [c.buyer, c.seller, c.arbitrator, c.treasury, c.initializer, c.reconciliation, c.master]
  }

  /** `validateTonJettonEscrowConfig` */
  predicate ValidConfig(c: Config) {
    && IsUint(c.dealId, 256, true)
    && IsUint(c.termsHash, 256, true)
    && IsUint(c.quoteHash, 256, true)
    && IsUint(c.fundingDeadline, 64, true)
    && IsUint(c.deliveryDeadline, 64, true)
    && IsUint(c.confirmationDeadline, 64, true)
    && c.fundingDeadline < c.deliveryDeadline < c.confirmationDeadline
    && IsUint(c.expectedQueryId, 64, true)
    && c.expectedQueryId >= 2
    && IsUint(c.forwardPayloadHash, 256, true)
    && IsUint(c.walletCodeHash, 256, true)
    && IsCoins(c.buyerTotal)
    && IsCoins(c.sellerPayout)
    && IsCoins(c.platformFee)
    && IsCoins(c.refundToBuyer)
    && IsCoins(c.refundFee)
    && c.buyerTotal != 0
    && c.sellerPayout + c.platformFee == c.buyerTotal
    && c.refundToBuyer + c.refundFee == c.buyerTotal
    && Distinct(Roles(c))
  }

  // ---------- The data cell ----------

  function RolesTail(c: Config): Builder {
    BeginCell.StoreAddress(c.arbitrator).StoreAddress(c.treasury)
  }

  function RolesBuilder(c: Config, tail: Cell): Builder {
    BeginCell.StoreAddress(c.buyer).StoreAddress(c.seller).StoreRef(tail)
  }

  function RolesCell(c: Config): Result<Cell> {
    var tail :- RolesTail(c).EndCell();
    RolesBuilder(c, tail).EndCell()
  }

  function AuthoritiesBuilder(c: Config): Builder {
    BeginCell.StoreAddress(c.initializer).StoreAddress(c.reconciliation)
  }

  function AuthoritiesCell(c: Config): Result<Cell> {
    AuthoritiesBuilder(c).EndCell()
  }

  function AssetBuilder(c: Config): Builder {
    BeginCell.StoreAddress(c.master).StoreUint(c.walletCodeHash, 256)
  }

  function AssetCell(c: Config): Result<Cell> {
    AssetBuilder(c).EndCell()
  }

  function EconomicsBuilder(c: Config): Builder {
    BeginCell
    .StoreCoins(c.buyerTotal)
    .StoreCoins(c.sellerPayout)
    .StoreCoins(c.platformFee)
    .StoreCoins(c.refundToBuyer)
    .StoreCoins(c.refundFee)
  }

  function EconomicsCell(c: Config): Result<Cell> {
    EconomicsBuilder(c).EndCell()
  }

  function FundingBuilder(c: Config, roles: Cell, authorities: Cell, asset: Cell, economics: Cell): Builder {
    BeginCell
    .StoreUint(c.expectedQueryId, 64)
    .StoreUint(c.forwardPayloadHash, 256)
    .StoreRef(roles).StoreRef(authorities).StoreRef(asset).StoreRef(economics)
  }

  function FundingCommitmentCell(c: Config): Result<Cell> {
    if !ValidConfig(c) then Err("invalid config")
    else
      var roles :- RolesCell(c);
      var authorities :- AuthoritiesCell(c);
      var asset :- AssetCell(c);
      var economics :- EconomicsCell(c);
      FundingBuilder(c, roles, authorities, asset, economics).EndCell()
  }

  function ConfigBuilder(c: Config, funding: Cell): Builder {
    BeginCell
    .StoreUint(c.dealId, 256)
    .StoreUint(c.termsHash, 256)
    .StoreUint(c.quoteHash, 256)
    .StoreUint(c.fundingDeadline, 64)
    .StoreUint(c.deliveryDeadline, 64)
    .StoreUint(c.confirmationDeadline, 64)
    .StoreRef(funding)
  }

  function ConfigCell(c: Config): Result<Cell> {
    var funding :- FundingCommitmentCell(c);
    ConfigBuilder(c, funding).EndCell()
  }

  function DataBuilder(config: Cell, empty: Cell): Builder {
    BeginCell
    .StoreUint(AWAITING_FUNDING, 8)
    .StoreUint(0, 8)
    .StoreCoins(0)
    .StoreUint(0, 64)
    .StoreRef(config).StoreRef(empty).StoreRef(empty)
  }

  function DataCell(c: Config): Result<Cell> {
    var config :- ConfigCell(c);
    var empty :- BeginCell.EndCell();
    DataBuilder(config, empty).EndCell()
  }

  // ---------- The decoder of the data cell ----------

  /** The fields of a cell that holds nothing else and has `refs` references. */
  function Parse(ks: Kinds, c: Cell, refs: nat): Option<Fields> {
    match LoadFields(ks, c.bits)
    case None => None
    case Some((fs, rest)) => if rest == [] && |c.refs| == refs then Some(fs) else None
  }

  const TwoAddresses := StartKinds.Address().Address()

  function DecodeAddresses(c: Cell, refs: nat): Option<(Address, Address)> {
    match Parse(TwoAddresses, c, refs)
    case Some(Then(Then(Start, Addr(a)), Addr(b))) => Some((a, b))
    case _ => None
  }

  function DecodeAsset(c: Cell): Option<(Address, int)> {
    match Parse(StartKinds.Address().Uint(256), c, 0)
    case Some(Then(Then(Start, Addr(a)), Uint(h, _))) => Some((a, h))
    case _ => None
  }

  datatype Economics = Economics(buyerTotal: int, sellerPayout: int, platformFee: int, refundToBuyer: int, refundFee: int)

  function DecodeEconomics(c: Cell): Option<Economics> {
    match Parse(StartKinds.Coins().Coins().Coins().Coins().Coins(), c, 0)
    case Some(Then(Then(Then(Then(Then(Start, Coins(t)), Coins(p)), Coins(f)), Coins(r)), Coins(g))) => Some(Economics(t, p, f, r, g))
    case _ => None
  }

  datatype Funding = Funding(
    queryId: int, payloadHash: int, buyer: Address, seller: Address, arbitrator: Address, treasury: Address,
    initializer: Address, reconciliation: Address, master: Address, walletCodeHash: int, economics: Economics)

  function DecodeFunding(c: Cell): Option<Funding> {
    match Parse(StartKinds.Uint(64).Uint(256), c, 4)
    case Some(Then(Then(Start, Uint(q, _)), Uint(h, _))) =>
      if |c.refs| != 4 || |c.refs[0].refs| != 1 then None
      else (
        match (DecodeAddresses(c.refs[0], 1), DecodeAddresses(c.refs[0].refs[0], 0), DecodeAddresses(c.refs[1], 0),
               DecodeAsset(c.refs[2]), DecodeEconomics(c.refs[3]))
        case (Some((buyer, seller)), Some((arbitrator, treasury)), Some((initializer, reconciliation)), Some((master, code)), Some(e)) =>
          Some(Funding(q, h, buyer, seller, arbitrator, treasury, initializer, reconciliation, master, code, e))
        case _ => None)
    case _ => None
  }

  function DecodeConfig(c: Cell): Option<Config> {
    match Parse(StartKinds.Uint(256).Uint(256).Uint(256).Uint(64).Uint(64).Uint(64), c, 1)
    case Some(Then(Then(Then(Then(Then(Then(Start, Uint(deal, _)), Uint(terms, _)), Uint(quote, _)), Uint(f, _)), Uint(d, _)), Uint(n, _))) =>
      if |c.refs| != 1 then None
      else (
        match DecodeFunding(c.refs[0])
        case None => None
        case Some(u) =>
          Some(Config(deal, terms, quote, f, d, n, u.queryId, u.payloadHash, u.buyer, u.seller, u.arbitrator, u.treasury,
                      u.initializer, u.reconciliation, u.master, u.walletCodeHash, u.economics.buyerTotal, u.economics.sellerPayout,
                      u.economics.platformFee, u.economics.refundToBuyer, u.economics.refundFee)))
    case _ => None
  }

  /** The configuration a freshly deployed escrow was given. */
  function DecodeData(c: Cell): Option<Config> {
    match Parse(StartKinds.Uint(8).Uint(8).Coins().Uint(64), c, 3)
    case Some(Then(Then(Then(Then(Start, Uint(status, _)), Uint(sealed', _)), Coins(funded)), Uint(query, _))) =>
      if |c.refs| == 3 && status == AWAITING_FUNDING && sealed' == 0 && funded == 0 && query == 0 then DecodeConfig(c.refs[0]) else None
    case _ => None
  }

  // ---------- Commitment ----------

  lemma ParseRoundTrip(b: Builder)
    requires FieldsOk(b.fields) && MaxBitsOf(KindsOf(b.fields)) <= MAX_BITS && |b.refs| <= MAX_REFS && b.tail == []
    ensures b.EndCell().Ok? && b.EndCell().value.refs == b.refs
    ensures Parse(KindsOf(b.fields), b.EndCell().value, |b.refs|) == Some(b.fields)
    ensures (forall r | r in b.refs :: Fits(r)) ==> Fits(b.EndCell().value)
  {
    CellRoundTrip(b);
  }

  lemma FundingPartsRoundTrip(c: Config)
    requires ValidConfig(c)
    ensures AuthoritiesCell(c).Ok? && Fits(AuthoritiesCell(c).value)
    ensures DecodeAddresses(AuthoritiesCell(c).value, 0) == Some((c.initializer, c.reconciliation))
    ensures AssetCell(c).Ok? && Fits(AssetCell(c).value) && DecodeAsset(AssetCell(c).value) == Some((c.master, c.walletCodeHash))
    ensures EconomicsCell(c).Ok? && Fits(EconomicsCell(c).value)
    ensures DecodeEconomics(EconomicsCell(c).value) ==
            Some(Economics(c.buyerTotal, c.sellerPayout, c.platformFee, c.refundToBuyer, c.refundFee))
  {
    ParseRoundTrip(AuthoritiesBuilder(c));
    ParseRoundTrip(AssetBuilder(c));
    ParseRoundTrip(EconomicsBuilder(c));
  }

  lemma RolesRoundTrip(c: Config)
    ensures RolesCell(c).Ok? && Fits(RolesCell(c).value) && |RolesCell(c).value.refs| == 1
    ensures DecodeAddresses(RolesCell(c).value, 1) == Some((c.buyer, c.seller))
    ensures DecodeAddresses(RolesCell(c).value.refs[0], 0) == Some((c.arbitrator, c.treasury))
  {
    ParseRoundTrip(RolesTail(c));
    ParseRoundTrip(RolesBuilder(c, RolesTail(c).EndCell().value));
  }

  lemma FundingAssembly(c: Config, roles: Cell, authorities: Cell, asset: Cell, economics: Cell)
    requires IsUint(c.expectedQueryId, 64, true) && IsUint(c.forwardPayloadHash, 256, true)
    requires Fits(roles) && Fits(authorities) && Fits(asset) && Fits(economics)
    ensures var r := FundingBuilder(c, roles, authorities, asset, economics).EndCell();
            && r.Ok? && Fits(r.value) && r.value.refs == [roles, authorities, asset, economics]
            && Parse(StartKinds.Uint(64).Uint(256), r.value, 4)
               == Some(Then(Then(Start, Uint(c.expectedQueryId, 64)), Uint(c.forwardPayloadHash, 256)))
  {
    var b := FundingBuilder(c, roles, authorities, asset, economics);
    assert b.refs == [roles, authorities, asset, economics];
    ParseRoundTrip(b);
  }

  lemma FundingRoundTrip(c: Config)
    requires ValidConfig(c)
    ensures FundingCommitmentCell(c).Ok? && Fits(FundingCommitmentCell(c).value)
    ensures DecodeFunding(FundingCommitmentCell(c).value) ==
            Some(Funding(c.expectedQueryId, c.forwardPayloadHash, c.buyer, c.seller, c.arbitrator, c.treasury,
                         c.initializer, c.reconciliation, c.master, c.walletCodeHash,
                         Economics(c.buyerTotal, c.sellerPayout, c.platformFee, c.refundToBuyer, c.refundFee)))
  {
    RolesRoundTrip(c);
    FundingPartsRoundTrip(c);
    FundingAssembly(c, RolesCell(c).value, AuthoritiesCell(c).value, AssetCell(c).value, EconomicsCell(c).value);
  }

  lemma ConfigAssembly(c: Config, funding: Cell)
    requires ValidConfig(c) && Fits(funding)
    ensures var r := ConfigBuilder(c, funding).EndCell();
            && r.Ok? && Fits(r.value) && r.value.refs == [funding]
            && Parse(StartKinds.Uint(256).Uint(256).Uint(256).Uint(64).Uint(64).Uint(64), r.value, 1)
               == Some(ConfigBuilder(c, funding).fields)
  {
    ParseRoundTrip(ConfigBuilder(c, funding));
  }

  lemma ConfigRoundTrip(c: Config)
    requires ValidConfig(c)
    ensures ConfigCell(c).Ok? && Fits(ConfigCell(c).value) && DecodeConfig(ConfigCell(c).value) == Some(c)
  {
    FundingRoundTrip(c);
    ConfigAssembly(c, FundingCommitmentCell(c).value);
  }

  lemma DataAssembly(config: Cell, empty: Cell)
    requires Fits(config) && Fits(empty)
    ensures var r := DataBuilder(config, empty).EndCell();
            && r.Ok? && Fits(r.value) && r.value.refs == [config, empty, empty]
            && Parse(StartKinds.Uint(8).Uint(8).Coins().Uint(64), r.value, 3) == Some(DataBuilder(config, empty).fields)
  {
    DataShape(config, empty);
    ParseRoundTrip(DataBuilder(config, empty));
  }

  lemma DataShape(config: Cell, empty: Cell)
    ensures var f := DataBuilder(config, empty).fields;
            var ks := StartKinds.Uint(8).Uint(8).Coins().Uint(64);
            && f == Then(Then(Then(Then(Start, Uint(AWAITING_FUNDING, 8)), Uint(0, 8)), Coins(0)), Uint(0, 64))
            && FieldsOk(f) && KindsOf(f) == ks && MaxBitsOf(ks) <= MAX_BITS
  {
    Pow2Eight();
  }

  /** Every accepted configuration fits, and every field of it can be read back. */
  lemma DataRoundTrip(c: Config)
    requires ValidConfig(c)
    ensures DataCell(c).Ok? && Fits(DataCell(c).value) && DecodeData(DataCell(c).value) == Some(c)
    // Status, seal flag, funded amount and last query are all zero, and two empty cells follow the config.
    ensures Parse(StartKinds.Uint(8).Uint(8).Coins().Uint(64), DataCell(c).value, 3) ==
            Some(Then(Then(Then(Then(Start, Uint(0, 8)), Uint(0, 8)), Coins(0)), Uint(0, 64)))
    ensures DataCell(c).value.refs[1..] == [Cell([], []), Cell([], [])]
  {
    ConfigRoundTrip(c);
    assert BeginCell.EndCell() == Ok(Cell([], []));
    DataAssembly(ConfigCell(c).value, Cell([], []));
  }

  /** A data cell exists exactly for the accepted configurations, and no two share one. */
  lemma DataCellCommits(c: Config, d: Config)
    ensures DataCell(c).Ok? <==> ValidConfig(c)
    ensures DataCell(c).Ok? && DataCell(c) == DataCell(d) ==> c == d
  {
    if ValidConfig(c) {
      DataRoundTrip(c);
    }
    if ValidConfig(d) {
      DataRoundTrip(d);
    }
  }

  // ---------- What is accepted, in numbers ----------

  lemma Limit64()
    ensures Pow2(32) == 0x1_0000_0000 && Pow2(64) == UINT64_LIMIT
  {
    Pow2ThirtyTwo();
    Pow2Add(32, 32);
  }

  lemma Limit120()
    ensures Pow2(120) == COINS_LIMIT
  {
    Limit64();
    Pow2Eight();
    Pow2Add(8, 8);
    Pow2Add(16, 8);
    Pow2Add(64, 32);
    Pow2Add(96, 24);
  }

  lemma Limit256()
    ensures Pow2(256) == UINT256_LIMIT
  {
    Limit64();
    Pow2Add(64, 64);
    Pow2Add(128, 128);
  }

  lemma Limits()
    ensures Pow2(32) == 0x1_0000_0000 && Pow2(64) == UINT64_LIMIT && Pow2(120) == COINS_LIMIT && Pow2(256) == UINT256_LIMIT
  {
    Limit64();
    Limit120();
    Limit256();
  }

  /** Numbers in range, deadlines that follow each other, payouts and refunds that each add up to what the
      buyer pays, and seven different addresses. */
  ghost predicate Acceptable(c: Config) {
    && 0 < c.dealId < UINT256_LIMIT && 0 < c.termsHash < UINT256_LIMIT && 0 < c.quoteHash < UINT256_LIMIT
    && 0 < c.fundingDeadline < c.deliveryDeadline < c.confirmationDeadline < UINT64_LIMIT
    && 2 <= c.expectedQueryId < UINT64_LIMIT
    && 0 < c.forwardPayloadHash < UINT256_LIMIT && 0 < c.walletCodeHash < UINT256_LIMIT
    && 0 < c.buyerTotal < COINS_LIMIT
    && 0 <= c.sellerPayout && 0 <= c.platformFee && c.sellerPayout + c.platformFee == c.buyerTotal
    && 0 <= c.refundToBuyer && 0 <= c.refundFee && c.refundToBuyer + c.refundFee == c.buyerTotal
    && c.buyer !in {c.seller, c.arbitrator, c.treasury, c.initializer, c.reconciliation, c.master}
    && c.seller !in {c.arbitrator, c.treasury, c.initializer, c.reconciliation, c.master}
    && c.arbitrator !in {c.treasury, c.initializer, c.reconciliation, c.master}
    && c.treasury !in {c.initializer, c.reconciliation, c.master}
    && c.initializer !in {c.reconciliation, c.master}
    && c.reconciliation != c.master
  }

  lemma ValidIffAcceptable(c: Config)
    ensures ValidConfig(c) <==> Acceptable(c)
  {
    Limits();
    RolesDiffer(c);
  }

  /** A data cell is built for exactly the acceptable configurations. */
  lemma ConfigAccepted(c: Config)
    ensures DataCell(c).Ok? <==> Acceptable(c)
  {
    ValidIffAcceptable(c);
    DataCellCommits(c, c);
  }

  lemma RolesDiffer(c: Config)
    ensures Distinct(Roles(c)) <==>
            && c.buyer !in {c.seller, c.arbitrator, c.treasury, c.initializer, c.reconciliation, c.master}
            && c.seller !in {c.arbitrator, c.treasury, c.initializer, c.reconciliation, c.master}
            && c.arbitrator !in {c.treasury, c.initializer, c.reconciliation, c.master}
            && c.treasury !in {c.initializer, c.reconciliation, c.master}
            && c.initializer !in {c.reconciliation, c.master}
            && c.reconciliation != c.master
  {
    var r := Roles(c);
    assert r[0] == c.buyer && r[1] == c.seller && r[2] == c.arbitrator && r[3] == c.treasury;
    assert r[4] == c.initializer && r[5] == c.reconciliation && r[6] == c.master;
  }

  // ---------- Message bodies ----------

  datatype WalletSeal = WalletSeal(queryId: int, wallet: Address, walletCodeHash: int, verificationEvidenceHash: int)

  datatype TransferNotification = TransferNotification(
    queryId: int, amount: int, sender: Address, forwardPayload: Cell, byReference: bool)

  datatype SettlementCommand = SettlementCommand(
    queryId: int, settlementId: int, buyerQueryId: int, sellerQueryId: int, treasuryQueryId: int)

  datatype Reconciliation = Reconciliation(
    queryId: int, settlementId: int, attempt: int, activeMask: int, confirmedMask: int, failedMask: int, evidenceHash: int)

  predicate ValidSeal(s: WalletSeal, config: Option<Config>) {
    && IsUint(s.queryId, 64, true)
    && IsUint(s.walletCodeHash, 256, true)
    && IsUint(s.verificationEvidenceHash, 256, true)
    && (config.Some? ==>
          && ValidConfig(config.value)
          && s.queryId < config.value.expectedQueryId
          && s.walletCodeHash == config.value.walletCodeHash
          && Distinct([s.wallet] + Roles(config.value)))
  }

  function SealBuilder(s: WalletSeal): Builder {
    BeginCell
    .StoreUint(SEAL_CANONICAL_JETTON_WALLET, 32)
    .StoreUint(s.queryId, 64)
    .StoreAddress(s.wallet)
    .StoreUint(s.walletCodeHash, 256)
    .StoreUint(s.verificationEvidenceHash, 256)
  }

  function SealBody(s: WalletSeal, config: Option<Config>): Result<Cell> {
    if ValidSeal(s, config) then SealBuilder(s).EndCell() else Err("invalid seal")
  }

  /** `hashOf` stands for the representation hash of a cell. */
  predicate ValidNotification(n: TransferNotification, config: Option<Config>, hashOf: Cell -> nat) {
    && IsUint(n.queryId, 64, true)
    && IsCoins(n.amount)
    && n.amount != 0
    && (config.Some? ==>
          && ValidConfig(config.value)
          && n.queryId == config.value.expectedQueryId
          && n.amount == config.value.buyerTotal
          && n.sender == config.value.buyer
          && hashOf(n.forwardPayload) == config.value.forwardPayloadHash)
  }

  function NotificationBuilder(n: TransferNotification): Builder {
    var head := BeginCell
                .StoreUint(TRANSFER_NOTIFICATION, 32)
                .StoreUint(n.queryId, 64)
                .StoreCoins(n.amount)
                .StoreAddress(n.sender);
    if n.byReference then head.StoreUint(1, 1).StoreRef(n.forwardPayload) else head.StoreUint(0, 1).StoreSlice(n.forwardPayload)
  }

  function NotificationBody(n: TransferNotification, config: Option<Config>, hashOf: Cell -> nat): Result<Cell> {
    if ValidNotification(n, config, hashOf) then NotificationBuilder(n).EndCell() else Err("invalid notification")
  }

  predicate ValidIdentity(queryId: int, settlementId: int) {
    IsUint(queryId, 64, true) && IsUint(settlementId, 256, true)
  }

  predicate ValidCommand(c: SettlementCommand) {
    && ValidIdentity(c.queryId, c.settlementId)
    && IsUint(c.buyerQueryId, 64, false)
    && IsUint(c.sellerQueryId, 64, false)
    && IsUint(c.treasuryQueryId, 64, false)
  }

  function QueryBuilder(opcode: int, queryId: int): Builder {
    BeginCell.StoreUint(opcode, 32).StoreUint(queryId, 64)
  }

  function QueryBody(opcode: int, queryId: int): Result<Cell> {
    if IsUint(queryId, 64, true) then QueryBuilder(opcode, queryId).EndCell() else Err("invalid queryId")
  }

  function CommandBuilder(opcode: int, c: SettlementCommand): Builder {
    BeginCell
    .StoreUint(opcode, 32)
    .StoreUint(c.queryId, 64)
    .StoreUint(c.settlementId, 256)
    .StoreUint(c.buyerQueryId, 64)
    .StoreUint(c.sellerQueryId, 64)
    .StoreUint(c.treasuryQueryId, 64)
  }

  function CommandBody(opcode: int, c: SettlementCommand): Result<Cell> {
    if ValidCommand(c) then CommandBuilder(opcode, c).EndCell() else Err("invalid command")
  }

  function ResolutionBuilder(c: SettlementCommand, buyerAward: int, sellerAward: int): Builder {
    BeginCell
    .StoreUint(RESOLVE, 32)
    .StoreUint(c.queryId, 64)
    .StoreUint(c.settlementId, 256)
    .StoreCoins(buyerAward)
    .StoreCoins(sellerAward)
    .StoreUint(c.buyerQueryId, 64)
    .StoreUint(c.sellerQueryId, 64)
    .StoreUint(c.treasuryQueryId, 64)
  }

  function ResolutionBody(c: SettlementCommand, buyerAward: int, sellerAward: int): Result<Cell> {
    if ValidCommand(c) && IsCoins(buyerAward) && IsCoins(sellerAward)
    then ResolutionBuilder(c, buyerAward, sellerAward).EndCell()
    else Err("invalid resolution")
  }

  /** The three mask checks, on the bits of numbers below 256. */
  predicate MasksClassify(active: bv8, confirmed: bv8, failed: bv8) {
    active & !7 == 0 && confirmed & failed == 0 && confirmed | failed == active
  }

  predicate ValidReconciliation(r: Reconciliation) {
    && ValidIdentity(r.queryId, r.settlementId)
    && IsUint(r.attempt, 32, false)
    && 0 <= r.activeMask < 256
    && 0 <= r.confirmedMask < 256
    && 0 <= r.failedMask < 256
    && IsUint(r.evidenceHash, 256, true)
    && MasksClassify(r.activeMask as bv8, r.confirmedMask as bv8, r.failedMask as bv8)
  }

  function ReconcileBuilder(r: Reconciliation): Builder {
    BeginCell
    .StoreUint(RECONCILE_ATTEMPT, 32)
    .StoreUint(r.queryId, 64)
    .StoreUint(r.settlementId, 256)
    .StoreUint(r.attempt, 32)
    .StoreUint(r.activeMask, 8)
    .StoreUint(r.confirmedMask, 8)
    .StoreUint(r.failedMask, 8)
    .StoreUint(r.evidenceHash, 256)
  }

  function ReconcileBody(r: Reconciliation): Result<Cell> {
    if ValidReconciliation(r) then ReconcileBuilder(r).EndCell() else Err("invalid reconciliation")
  }

  function RetryBuilder(c: SettlementCommand, previousAttempt: int): Builder {
    BeginCell
    .StoreUint(RETRY_FAILED_LEGS, 32)
    .StoreUint(c.queryId, 64)
    .StoreUint(c.settlementId, 256)
    .StoreUint(previousAttempt, 32)
    .StoreUint(c.buyerQueryId, 64)
    .StoreUint(c.sellerQueryId, 64)
    .StoreUint(c.treasuryQueryId, 64)
  }

  function RetryBody(c: SettlementCommand, previousAttempt: int): Result<Cell> {
    if ValidCommand(c) && IsUint(previousAttempt, 32, false) then RetryBuilder(c, previousAttempt).EndCell() else Err("invalid retry")
  }

  function FinalizeBuilder(queryId: int, settlementId: int, attempt: int, evidenceHash: int): Builder {
    BeginCell
    .StoreUint(FINALIZE_SETTLEMENT, 32)
    .StoreUint(queryId, 64)
    .StoreUint(settlementId, 256)
    .StoreUint(attempt, 32)
    .StoreUint(evidenceHash, 256)
  }

  function FinalizeBody(queryId: int, settlementId: int, attempt: int, evidenceHash: int): Result<Cell> {
    if ValidIdentity(queryId, settlementId) && IsUint(attempt, 32, false) && IsUint(evidenceHash, 256, true)
    then FinalizeBuilder(queryId, settlementId, attempt, evidenceHash).EndCell()
    else Err("invalid finalization")
  }

  // ---------- One decoder for all of them ----------

  datatype Message =
    | Seal(seal: WalletSeal)
    | Notification(notification: TransferNotification)
    | Query(opcode: int, queryId: int)
    | Command(opcode: int, command: SettlementCommand)
    | Resolution(command: SettlementCommand, buyerAward: int, sellerAward: int)
    | Reconcile(reconciliation: Reconciliation)
    | Retry(command: SettlementCommand, previousAttempt: int)
    | Finalize(queryId: int, settlementId: int, attempt: int, evidenceHash: int)

  /** What the sender methods send: each opcode with the body of its own shape. */
  function Encode(m: Message, config: Option<Config>, hashOf: Cell -> nat): Result<Cell> {
    match m
    case Seal(s) => SealBody(s, config)
    case Notification(n) => NotificationBody(n, config, hashOf)
    case Query(op, q) => QueryBody(op, q)
    case Command(op, c) => CommandBody(op, c)
    case Resolution(c, b, s) => ResolutionBody(c, b, s)
    case Reconcile(r) => ReconcileBody(r)
    case Retry(c, p) => RetryBody(c, p)
    case Finalize(q, s, a, e) => FinalizeBody(q, s, a, e)
  }

  function Opcode(m: Message): int {
    match m
    case Seal(_) => SEAL_CANONICAL_JETTON_WALLET
    case Notification(_) => TRANSFER_NOTIFICATION
    case Query(op, _) => op
    case Command(op, _) => op
    case Resolution(_, _, _) => RESOLVE
    case Reconcile(_) => RECONCILE_ATTEMPT
    case Retry(_, _) => RETRY_FAILED_LEGS
    case Finalize(_, _, _, _) => FINALIZE_SETTLEMENT
  }

  /** The opcodes the sender methods pass to the two bodies that take one. */
  predicate Sendable(m: Message) {
    && (m.Query? ==> m.opcode in {MARK_DELIVERED, OPEN_DISPUTE})
    && (m.Command? ==> m.opcode in {RELEASE, REFUND_BUYER, REFUND_AFTER_SELLER_TIMEOUT, RELEASE_AFTER_BUYER_TIMEOUT})
  }

  const QueryKinds := StartKinds.Uint(32).Uint(64)
  const CommandKinds := StartKinds.Uint(32).Uint(64).Uint(256).Uint(64).Uint(64).Uint(64)
  const ResolutionKinds := StartKinds.Uint(32).Uint(64).Uint(256).Coins().Coins().Uint(64).Uint(64).Uint(64)
  const ReconcileKinds := StartKinds.Uint(32).Uint(64).Uint(256).Uint(32).Uint(8).Uint(8).Uint(8).Uint(256)
  const RetryKinds := StartKinds.Uint(32).Uint(64).Uint(256).Uint(32).Uint(64).Uint(64).Uint(64)
  const FinalizeKinds := StartKinds.Uint(32).Uint(64).Uint(256).Uint(32).Uint(256)
  const SealKinds := StartKinds.Uint(32).Uint(64).Address().Uint(256).Uint(256)
  const NotificationKinds := StartKinds.Uint(32).Uint(64).Coins().Address().Uint(1)

  function DecodeOpcode(c: Cell): Option<int> {
    match LoadUint(32, c.bits)
    case None => None
    case Some((op, _)) => Some(op)
  }

  function DecodeSeal(c: Cell): Option<Message> {
    match Parse(SealKinds, c, 0)
    case Some(Then(Then(Then(Then(Then(Start, Uint(_, _)), Uint(q, _)), Addr(w)), Uint(h, _)), Uint(e, _))) =>
      Some(Seal(WalletSeal(q, w, h, e)))
    case _ => None
  }

  /** The payload is what follows inline, or the one reference. */
  function DecodeNotification(c: Cell): Option<Message> {
    match LoadFields(NotificationKinds, c.bits)
    case Some((Then(Then(Then(Then(Then(Start, Uint(_, _)), Uint(q, _)), Coins(a)), Addr(s)), Uint(flag, _)), rest)) =>
      if flag == 0 then Some(Notification(TransferNotification(q, a, s, Cell(rest, c.refs), false)))
      else if rest == [] && |c.refs| == 1 then Some(Notification(TransferNotification(q, a, s, c.refs[0], true)))
      else None
    case _ => None
  }

  function DecodeQuery(op: int, c: Cell): Option<Message> {
    match Parse(QueryKinds, c, 0)
    case Some(Then(Then(Start, Uint(_, _)), Uint(q, _))) => Some(Query(op, q))
    case _ => None
  }

  function DecodeCommand(op: int, c: Cell): Option<Message> {
    match Parse(CommandKinds, c, 0)
    case Some(Then(Then(Then(Then(Then(Then(Start, Uint(_, _)), Uint(q, _)), Uint(s, _)), Uint(b, _)), Uint(l, _)), Uint(t, _))) =>
      Some(Command(op, SettlementCommand(q, s, b, l, t)))
    case _ => None
  }

  function DecodeResolution(c: Cell): Option<Message> {
    match Parse(ResolutionKinds, c, 0)
    case Some(Then(Then(Then(Then(Then(Then(Then(Then(Start, Uint(_, _)), Uint(q, _)), Uint(s, _)), Coins(ba)), Coins(sa)),
                             Uint(b, _)), Uint(l, _)), Uint(t, _))) =>
      Some(Resolution(SettlementCommand(q, s, b, l, t), ba, sa))
    case _ => None
  }

  function DecodeReconcile(c: Cell): Option<Message> {
    match Parse(ReconcileKinds, c, 0)
    case Some(Then(Then(Then(Then(Then(Then(Then(Then(Start, Uint(_, _)), Uint(q, _)), Uint(s, _)), Uint(n, _)),
                                  Uint(a, _)), Uint(k, _)), Uint(f, _)), Uint(e, _))) =>
      Some(Reconcile(Reconciliation(q, s, n, a, k, f, e)))
    case _ => None
  }

  function DecodeRetry(c: Cell): Option<Message> {
    match Parse(RetryKinds, c, 0)
    case Some(Then(Then(Then(Then(Then(Then(Then(Start, Uint(_, _)), Uint(q, _)), Uint(s, _)), Uint(p, _)),
                             Uint(b, _)), Uint(l, _)), Uint(t, _))) =>
      Some(Retry(SettlementCommand(q, s, b, l, t), p))
    case _ => None
  }

  function DecodeFinalize(c: Cell): Option<Message> {
    match Parse(FinalizeKinds, c, 0)
    case Some(Then(Then(Then(Then(Then(Start, Uint(_, _)), Uint(q, _)), Uint(s, _)), Uint(n, _)), Uint(e, _))) =>
      Some(Finalize(q, s, n, e))
    case _ => None
  }

  /** A body is read by its first 32 bits alone. */
  function Decode(c: Cell): Option<Message> {
    match DecodeOpcode(c)
    case None => None
    case Some(op) =>
      if op == SEAL_CANONICAL_JETTON_WALLET then DecodeSeal(c)
      else if op == TRANSFER_NOTIFICATION then DecodeNotification(c)
      else if op in {MARK_DELIVERED, OPEN_DISPUTE} then DecodeQuery(op, c)
      else if op == RESOLVE then DecodeResolution(c)
      else if op == RECONCILE_ATTEMPT then DecodeReconcile(c)
      else if op == RETRY_FAILED_LEGS then DecodeRetry(c)
      else if op == FINALIZE_SETTLEMENT then DecodeFinalize(c)
      else DecodeCommand(op, c)
  }

  // ---------- What bodies say ----------

  /** A body of fields only, whose first field is the opcode. */
  lemma BodyRoundTrip(b: Builder)
    requires FieldsOk(b.fields) && MaxBitsOf(KindsOf(b.fields)) <= MAX_BITS && b.refs == [] && b.tail == []
    requires b.fields.Then? && First(b.fields).Uint? && First(b.fields).size == 32
    ensures b.EndCell().Ok? && Fits(b.EndCell().value)
    ensures Parse(KindsOf(b.fields), b.EndCell().value, 0) == Some(b.fields)
    ensures DecodeOpcode(b.EndCell().value) == Some(First(b.fields).value)
  {
    ParseRoundTrip(b);
    FirstFieldFirst(b.fields, b.tail);
  }

  lemma SealShape(s: WalletSeal, config: Option<Config>)
    requires ValidSeal(s, config)
    ensures var f := SealBuilder(s).fields;
            && FieldsOk(f) && KindsOf(f) == SealKinds && f.Then? && First(f) == Uint(SEAL_CANONICAL_JETTON_WALLET, 32) && MaxBitsOf(SealKinds) <= MAX_BITS
  {
    Pow2ThirtyTwo();
  }

  lemma SealRoundTrip(s: WalletSeal, config: Option<Config>)
    ensures SealBody(s, config).Ok? <==> ValidSeal(s, config)
    ensures ValidSeal(s, config) ==>
              var c := SealBody(s, config).value;
              Fits(c) && DecodeOpcode(c) == Some(SEAL_CANONICAL_JETTON_WALLET) && DecodeSeal(c) == Some(Seal(s))
  {
    if ValidSeal(s, config) {
      SealShape(s, config);
      BodyRoundTrip(SealBuilder(s));
    }
  }

  /** A seal is accepted exactly when its numbers are in range and, for a configuration, that is accepted,
      its query is still to come, the wallet code is the one pinned and the wallet is none of the roles. */
  lemma SealAccepted(s: WalletSeal, config: Option<Config>)
    ensures SealBody(s, config).Ok? <==>
            && 0 < s.queryId < UINT64_LIMIT && 0 < s.walletCodeHash < UINT256_LIMIT && 0 < s.verificationEvidenceHash < UINT256_LIMIT
            && (config != None ==>
                  var c := config.value;
                  && DataCell(c).Ok? && s.queryId < c.expectedQueryId && s.walletCodeHash == c.walletCodeHash
                  && s.wallet !in {c.buyer, c.seller, c.arbitrator, c.treasury, c.initializer, c.reconciliation, c.master})
  {
    Limits();
    SealRoundTrip(s, config);
    if config.Some? {
      var c := config.value;
      DataCellCommits(c, c);
      WalletDiffers(s.wallet, c);
    }
  }

  lemma DistinctCons(w: Address, r: seq<Address>)
    ensures Distinct([w] + r) <==> Distinct(r) && w !in r
  {
    var all := [w] + r;
    if Distinct(all) {
      forall i, j | 0 <= i < j < |r|
        ensures r[i] != r[j]
      {
        assert all[i + 1] != all[j + 1];
      }
      forall k | 0 <= k < |r|
        ensures r[k] != w
      {
        assert all[0] != all[k + 1];
      }
    }
  }

  lemma WalletDiffers(w: Address, c: Config)
    ensures Distinct([w] + Roles(c)) <==>
            Distinct(Roles(c)) && w !in {c.buyer, c.seller, c.arbitrator, c.treasury, c.initializer, c.reconciliation, c.master}
  {
    DistinctCons(w, Roles(c));
  }

  lemma QueryRoundTrip(op: int, q: int)
    ensures QueryBody(op, q).Ok? <==> IsUint(q, 64, true) && IsUint(op, 32, false)
    ensures QueryBody(op, q).Ok? ==>
              var c := QueryBody(op, q).value; Fits(c) && DecodeOpcode(c) == Some(op) && DecodeQuery(op, c) == Some(Query(op, q))
  {
    if IsUint(q, 64, true) && IsUint(op, 32, false) {
      BodyRoundTrip(QueryBuilder(op, q));
    }
  }

  lemma CommandRoundTrip(op: int, s: SettlementCommand)
    ensures CommandBody(op, s).Ok? <==> ValidCommand(s) && IsUint(op, 32, false)
    ensures CommandBody(op, s).Ok? ==>
              var c := CommandBody(op, s).value; Fits(c) && DecodeOpcode(c) == Some(op) && DecodeCommand(op, c) == Some(Command(op, s))
  {
    if ValidCommand(s) && IsUint(op, 32, false) {
      BodyRoundTrip(CommandBuilder(op, s));
    }
  }

  lemma ResolutionShape(s: SettlementCommand, ba: int, sa: int)
    requires ValidCommand(s) && IsCoins(ba) && IsCoins(sa)
    ensures var f := ResolutionBuilder(s, ba, sa).fields;
            && FieldsOk(f) && KindsOf(f) == ResolutionKinds && f.Then? && First(f) == Uint(RESOLVE, 32) && MaxBitsOf(ResolutionKinds) <= MAX_BITS
  {
    Pow2ThirtyTwo();
  }

  lemma ResolutionRoundTrip(s: SettlementCommand, ba: int, sa: int)
    ensures ResolutionBody(s, ba, sa).Ok? <==> ValidCommand(s) && IsCoins(ba) && IsCoins(sa)
    ensures ResolutionBody(s, ba, sa).Ok? ==>
              var c := ResolutionBody(s, ba, sa).value;
              Fits(c) && DecodeOpcode(c) == Some(RESOLVE) && DecodeResolution(c) == Some(Resolution(s, ba, sa))
  {
    if ValidCommand(s) && IsCoins(ba) && IsCoins(sa) {
      ResolutionShape(s, ba, sa);
      BodyRoundTrip(ResolutionBuilder(s, ba, sa));
    }
  }

  lemma ReconcileShape(r: Reconciliation)
    requires ValidReconciliation(r)
    ensures var f := ReconcileBuilder(r).fields;
            && FieldsOk(f) && KindsOf(f) == ReconcileKinds && f.Then? && First(f) == Uint(RECONCILE_ATTEMPT, 32) && MaxBitsOf(ReconcileKinds) <= MAX_BITS
  {
    Pow2ThirtyTwo();
    Pow2Eight();
  }

  lemma ReconcileRoundTrip(r: Reconciliation)
    ensures ReconcileBody(r).Ok? <==> ValidReconciliation(r)
    ensures ReconcileBody(r).Ok? ==>
              var c := ReconcileBody(r).value;
              Fits(c) && DecodeOpcode(c) == Some(RECONCILE_ATTEMPT) && DecodeReconcile(c) == Some(Reconcile(r))
  {
    if ValidReconciliation(r) {
      ReconcileShape(r);
      BodyRoundTrip(ReconcileBuilder(r));
    }
  }

  lemma RetryRoundTrip(s: SettlementCommand, p: int)
    ensures RetryBody(s, p).Ok? <==> ValidCommand(s) && IsUint(p, 32, false)
    ensures RetryBody(s, p).Ok? ==>
              var c := RetryBody(s, p).value;
              Fits(c) && DecodeOpcode(c) == Some(RETRY_FAILED_LEGS) && DecodeRetry(c) == Some(Retry(s, p))
  {
    if ValidCommand(s) && IsUint(p, 32, false) {
      Pow2ThirtyTwo();
      BodyRoundTrip(RetryBuilder(s, p));
    }
  }

  lemma FinalizeRoundTrip(q: int, s: int, n: int, e: int)
    ensures FinalizeBody(q, s, n, e).Ok? <==> ValidIdentity(q, s) && IsUint(n, 32, false) && IsUint(e, 256, true)
    ensures FinalizeBody(q, s, n, e).Ok? ==>
              var c := FinalizeBody(q, s, n, e).value;
              Fits(c) && DecodeOpcode(c) == Some(FINALIZE_SETTLEMENT) && DecodeFinalize(c) == Some(Finalize(q, s, n, e))
  {
    if ValidIdentity(q, s) && IsUint(n, 32, false) && IsUint(e, 256, true) {
      Pow2ThirtyTwo();
      BodyRoundTrip(FinalizeBuilder(q, s, n, e));
    }
  }

  /** Bodies with a query or a command are built exactly when the opcode fits, query and settlement are
      positive, and all numbers are in range. */
  lemma CommandAccepted(op: int, q: int, s: SettlementCommand)
    ensures QueryBody(op, q).Ok? <==> 0 <= op < 0x1_0000_0000 && 0 < q < UINT64_LIMIT
    ensures CommandBody(op, s).Ok? <==>
            && 0 <= op < 0x1_0000_0000 && 0 < s.queryId < UINT64_LIMIT && 0 < s.settlementId < UINT256_LIMIT
            && 0 <= s.buyerQueryId < UINT64_LIMIT && 0 <= s.sellerQueryId < UINT64_LIMIT && 0 <= s.treasuryQueryId < UINT64_LIMIT
  {
    Limit64();
    Limit256();
    QueryRoundTrip(op, q);
    CommandRoundTrip(op, s);
  }

  /** The other bodies need what a command needs, attempts below 2^32, awards below 2^120 and positive
      evidence. */
  lemma NumbersAccepted(s: SettlementCommand, q: int, id: int, n: int, e: int, ba: int, sa: int)
    ensures FinalizeBody(q, id, n, e).Ok? <==>
            0 < q < UINT64_LIMIT && 0 < id < UINT256_LIMIT && 0 <= n < 0x1_0000_0000 && 0 < e < UINT256_LIMIT
    ensures RetryBody(s, n).Ok? <==> CommandBody(0, s).Ok? && 0 <= n < 0x1_0000_0000
    ensures ResolutionBody(s, ba, sa).Ok? <==> CommandBody(0, s).Ok? && 0 <= ba < COINS_LIMIT && 0 <= sa < COINS_LIMIT
  {
    Limits();
    CommandRoundTrip(0, s);
    FinalizeRoundTrip(q, id, n, e);
    RetryRoundTrip(s, n);
    ResolutionRoundTrip(s, ba, sa);
  }

  predicate HasLeg(mask: bv8, leg: bv8) {
    mask & leg != 0
  }

  /** The leg, if active, is either confirmed or failed, and otherwise neither. */
  predicate LegClassified(active: bv8, confirmed: bv8, failed: bv8, leg: bv8) {
    && (HasLeg(active, leg) <==> HasLeg(confirmed, leg) || HasLeg(failed, leg))
    && !(HasLeg(confirmed, leg) && HasLeg(failed, leg))
  }

  /** The legs are those of buyer, seller and treasury; no mask may name another. */
  lemma MasksPartitionLegs(active: bv8, confirmed: bv8, failed: bv8)
    ensures MasksClassify(active, confirmed, failed) <==>
            && active < 8 && confirmed < 8 && failed < 8
            && LegClassified(active, confirmed, failed, 1)
            && LegClassified(active, confirmed, failed, 2)
            && LegClassified(active, confirmed, failed, 4)
  {
  }

  /** A reconciliation is accepted exactly when its numbers are in range and every active leg, of the three
      there are, is either confirmed or failed. */
  lemma ReconciliationAccepted(r: Reconciliation)
    ensures ReconcileBody(r).Ok? <==>
            && 0 < r.queryId < UINT64_LIMIT && 0 < r.settlementId < UINT256_LIMIT
            && 0 <= r.attempt < 0x1_0000_0000 && 0 < r.evidenceHash < UINT256_LIMIT
            && 0 <= r.activeMask < 8 && 0 <= r.confirmedMask < 8 && 0 <= r.failedMask < 8
            && var a, k, f := r.activeMask as bv8, r.confirmedMask as bv8, r.failedMask as bv8;
               LegClassified(a, k, f, 1) && LegClassified(a, k, f, 2) && LegClassified(a, k, f, 4)
  {
    Limits();
    ReconcileRoundTrip(r);
    if 0 <= r.activeMask < 256 && 0 <= r.confirmedMask < 256 && 0 <= r.failedMask < 256 {
      MasksPartitionLegs(r.activeMask as bv8, r.confirmedMask as bv8, r.failedMask as bv8);
      SmallMask(r.activeMask);
      SmallMask(r.confirmedMask);
      SmallMask(r.failedMask);
    }
  }

  lemma SmallMask(n: int)
    requires 0 <= n < 256
    ensures n as bv8 < 8 <==> n < 8
  {
    var b := n as bv8;
    assert b as int == n;
    assert b < 8 <==> b as int < 8;
  }

  /** The opcodes are the four letters of their names, the notification's that of TEP-74. */
  lemma OpcodesAreNames()
    ensures SEAL_CANONICAL_JETTON_WALLET == Letters("jsea") && MARK_DELIVERED == Letters("delv")
    ensures RELEASE == Letters("rels") && REFUND_BUYER == Letters("refd")
    ensures REFUND_AFTER_SELLER_TIMEOUT == Letters("stmo") && RELEASE_AFTER_BUYER_TIMEOUT == Letters("btmo")
    ensures OPEN_DISPUTE == Letters("dspt") && RESOLVE == Letters("rslv") && RECONCILE_ATTEMPT == Letters("rcnc")
    ensures RETRY_FAILED_LEGS == Letters("rtry") && FINALIZE_SETTLEMENT == Letters("fnlz") && TRANSFER_NOTIFICATION == 0x7362d09c
  {
  }

  function Letters(s: string): nat
    requires |s| == 4
  {
    s[0] as nat * 0x100_0000 + s[1] as nat * 0x1_0000 + s[2] as nat * 0x100 + s[3] as nat
  }

  /** The bits of a notification in front of its payload. */
  function HeadBits(n: TransferNotification): nat
    requires n.amount >= 0
  {
    32 + 64 + (4 + 8 * ByteLength(n.amount)) + 267 + 1
  }

  function NotificationFields(n: TransferNotification): Fields {
    var flag := if n.byReference then 1 else 0;
    Then(Then(Then(Then(Then(Start, Uint(TRANSFER_NOTIFICATION, 32)), Uint(n.queryId, 64)), Coins(n.amount)), Addr(n.sender)), Uint(flag, 1))
  }

  lemma NotificationShape(n: TransferNotification)
    requires IsUint(n.queryId, 64, true) && IsCoins(n.amount)
    ensures NotificationBuilder(n).fields == NotificationFields(n)
    ensures FieldsOk(NotificationFields(n)) && KindsOf(NotificationFields(n)) == NotificationKinds
    ensures First(NotificationFields(n)) == Uint(TRANSFER_NOTIFICATION, 32)
  {
    Pow2ThirtyTwo();
  }

  lemma NotificationSize(n: TransferNotification)
    requires n.amount >= 0 && FieldsOk(NotificationFields(n))
    ensures |Bits(NotificationFields(n))| == HeadBits(n)
  {
    BitsSize(NotificationFields(n));
    var head := NotificationFields(n).before;
    assert FieldsSize(head.before.before) == 96;
    assert FieldsSize(head) == 96 + (4 + 8 * ByteLength(n.amount)) + 267;
  }

  lemma NotificationHead(n: TransferNotification)
    requires IsUint(n.queryId, 64, true) && IsCoins(n.amount)
    ensures var b := NotificationBuilder(n);
            && FieldsOk(b.fields) && KindsOf(b.fields) == NotificationKinds && |Bits(b.fields)| == HeadBits(n)
            && First(b.fields) == Uint(TRANSFER_NOTIFICATION, 32)
  {
    NotificationShape(n);
    NotificationSize(n);
  }

  lemma NotificationParses(n: TransferNotification, config: Option<Config>, hashOf: Cell -> nat)
    requires NotificationBody(n, config, hashOf).Ok? && IsUint(n.queryId, 64, true) && IsCoins(n.amount)
    ensures var c := NotificationBody(n, config, hashOf).value;
            DecodeOpcode(c) == Some(TRANSFER_NOTIFICATION) && DecodeNotification(c) == Some(Notification(n))
  {
    NotificationHead(n);
    var b := NotificationBuilder(n);
    assert b.refs == if n.byReference then [n.forwardPayload] else n.forwardPayload.refs;
    assert b.tail == if n.byReference then [] else n.forwardPayload.bits;
    FirstFieldFirst(b.fields, b.tail);
    FieldsRoundTrip(b.fields, b.tail);
  }

  /** By reference the payload always fits; inline it fits exactly in what the head leaves. Either
      form is read back as the same payload. */
  lemma NotificationRoundTrip(n: TransferNotification, config: Option<Config>, hashOf: Cell -> nat)
    requires Fits(n.forwardPayload)
    ensures NotificationBody(n, config, hashOf).Ok? <==>
            ValidNotification(n, config, hashOf) && (n.byReference || HeadBits(n) + |n.forwardPayload.bits| <= MAX_BITS)
    ensures NotificationBody(n, config, hashOf).Ok? ==>
              var c := NotificationBody(n, config, hashOf).value;
              Fits(c) && DecodeOpcode(c) == Some(TRANSFER_NOTIFICATION) && DecodeNotification(c) == Some(Notification(n))
  {
    if ValidNotification(n, config, hashOf) {
      NotificationHead(n);
      ByteLengthBound(n.amount, 15);
      if NotificationBody(n, config, hashOf).Ok? {
        NotificationParses(n, config, hashOf);
      }
    }
  }

  /** A notification is accepted exactly when its numbers are positive and in range, its payload fits, and,
      for a configuration, that is accepted and query, amount, sender and payload are the ones expected. */
  lemma NotificationAccepted(n: TransferNotification, config: Option<Config>, hashOf: Cell -> nat)
    requires Fits(n.forwardPayload)
    ensures NotificationBody(n, config, hashOf).Ok? <==>
            && 0 < n.queryId < UINT64_LIMIT && 0 < n.amount < COINS_LIMIT
            && (n.byReference || HeadBits(n) + |n.forwardPayload.bits| <= 1023)
            && (config != None ==>
                  var c := config.value;
                  && DataCell(c).Ok? && n.queryId == c.expectedQueryId && n.amount == c.buyerTotal
                  && n.sender == c.buyer && hashOf(n.forwardPayload) == c.forwardPayloadHash)
  {
    Limits();
    NotificationRoundTrip(n, config, hashOf);
    if config.Some? {
      DataCellCommits(config.value, config.value);
    }
  }

  /** The decoder that belongs to the shape of `m`. */
  function DecodeAs(m: Message, c: Cell): Option<Message> {
    match m
    case Seal(_) => DecodeSeal(c)
    case Notification(_) => DecodeNotification(c)
    case Query(op, _) => DecodeQuery(op, c)
    case Command(op, _) => DecodeCommand(op, c)
    case Resolution(_, _, _) => DecodeResolution(c)
    case Reconcile(_) => DecodeReconcile(c)
    case Retry(_, _) => DecodeRetry(c)
    case Finalize(_, _, _, _) => DecodeFinalize(c)
  }

  lemma Dispatch(m: Message, c: Cell)
    requires Sendable(m) && DecodeOpcode(c) == Some(Opcode(m))
    ensures Decode(c) == DecodeAs(m, c)
  {
  }

  /** Whatever opcode a body is given is the first thing in it; the rest is its fields. */
  lemma BodySays(m: Message, config: Option<Config>, hashOf: Cell -> nat, c: Cell)
    requires m.Notification? ==> Fits(m.notification.forwardPayload)
    requires Encode(m, config, hashOf) == Ok(c)
    ensures Fits(c) && DecodeOpcode(c) == Some(Opcode(m)) && DecodeAs(m, c) == Some(m)
  {
    match m
    case Seal(s) => SealRoundTrip(s, config);
    case Notification(n) => NotificationRoundTrip(n, config, hashOf);
    case Query(op, q) => QueryRoundTrip(op, q);
    case Command(op, c) => CommandRoundTrip(op, c);
    case Resolution(c, b, s) => ResolutionRoundTrip(c, b, s);
    case Reconcile(r) => ReconcileRoundTrip(r);
    case Retry(c, p) => RetryRoundTrip(c, p);
    case Finalize(q, s, a, e) => FinalizeRoundTrip(q, s, a, e);
  }

  /** Every body the wrapper can send is read back whole: opcode, fields and payload. */
  lemma MessageRoundTrip(m: Message, config: Option<Config>, hashOf: Cell -> nat, c: Cell)
    requires Sendable(m) && (m.Notification? ==> Fits(m.notification.forwardPayload))
    requires Encode(m, config, hashOf) == Ok(c)
    ensures Fits(c) && Decode(c) == Some(m)
  {
    BodySays(m, config, hashOf, c);
    Dispatch(m, c);
  }

  /** Bodies with different opcodes, whichever are passed in, never coincide; nor do the bodies of
      any two different messages that are sent. */
  lemma BodiesDiffer(m: Message, n: Message, config: Option<Config>, config': Option<Config>, hashOf: Cell -> nat, c: Cell)
    requires m.Notification? ==> Fits(m.notification.forwardPayload)
    requires n.Notification? ==> Fits(n.notification.forwardPayload)
    requires Encode(m, config, hashOf) == Ok(c) == Encode(n, config', hashOf)
    ensures Opcode(m) == Opcode(n)
    ensures Sendable(m) && Sendable(n) ==> m == n
  {
    BodySays(m, config, hashOf, c);
    BodySays(n, config', hashOf, c);
    if Sendable(m) && Sendable(n) {
      Dispatch(m, c);
      Dispatch(n, c);
    }
  }
}
