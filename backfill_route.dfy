/** The admin backfill route (app/api/pearls/backfill/route.ts): one page
    per source per call, each source a cursor state machine in sync_cursors
    (no row, then in progress, then completed and skipped from then on).
    Sources are either the payout wallets on both chains or the configured
    pearl contracts. The Moralis pages and the price provider are oracles. */
module BackfillRoute {
  import opened Wrappers
  import opened Text
  import opened Config
  import opened Dates
  import opened Records
  import opened Ledger
  import opened Coingecko
  import Moralis

  /** An entry of PEARL_CONTRACTS. */
  datatype PearlContract = PearlContract(address: string, chain: Chain, name: string)

  /** What the route runs against: the configured wallet and contract
      lists, the two read-only tables, and the providers. */
  datatype Setup = Setup(
    pearlContracts: seq<PearlContract>,
    sellerWallets: seq<string>,
    payoutWalletList: seq<string>,
    contracts: map<ContractRef, string>,
    payoutWallets: map<string, string>,
    moralisKey: Option<string>,
    nftFetch: HttpRequest -> HttpOutcome<Moralis.Page<Moralis.NftTransferItem>>,
    nativeFetch: HttpRequest -> HttpOutcome<Moralis.Page<Moralis.NativeTransferItem>>,
    priceKey: Option<string>,
    priceFetch: HttpRequest -> HttpOutcome<Option<real>>)

  /** One entry of `results`. */
  datatype SourceResult = SourceResult(name: string, chain: string, processed: nat, hasMore: bool, completed: bool)

  /** A unit of work: a payout wallet on one chain, or one pearl contract. */
  datatype Source = PayoutSource(address: string, chain: Chain) | NftSource(contract: PearlContract)

  /** The JSON body: `contract_address`, and whether `backfill_payouts` is literally true. */
  datatype RequestBody = RequestBody(contractAddress: Option<string>, backfillPayouts: bool)

  datatype BackfillResponse = Unauthorized | Report(results: seq<SourceResult>, allCompleted: bool) | Failed {
    function Status(): int {
      match this
      case Unauthorized => 401
      case Failed => 500
      case Report(_, _) => 200
    }
  }

  // ---------------------------------------------------------------------------
  // Authorisation
  // ---------------------------------------------------------------------------

  /** `searchParams.get('secret') || request.headers.get('x-admin-secret')`. */
  function PresentedSecret(query: Option<string>, header: Option<string>): Option<string> {
    if query.Some? && query.value != "" then query else header
  }

  /** `secret !== process.env.BACKFILL_ADMIN_SECRET` fails: a missing value never equals a set one. */
  predicate Authorized(query: Option<string>, header: Option<string>, adminSecret: Option<string>) {
    adminSecret.Some? && PresentedSecret(query, header) == adminSecret
  }

  /** The query secret wins when it is non-empty, the header is used
      otherwise, and without a configured secret nothing is authorised. */
  lemma AuthorizedFacts(query: Option<string>, header: Option<string>, adminSecret: Option<string>)
    ensures adminSecret.None? ==> !Authorized(query, header, adminSecret)
    ensures query.Some? && query.value != "" ==>
      (Authorized(query, header, adminSecret) <==> adminSecret == Some(query.value))
    ensures (query.None? || query.value == "") ==>
      (Authorized(query, header, adminSecret) <==> adminSecret.Some? && header == adminSecret)
  {
  }

  // ---------------------------------------------------------------------------
  // Sources
  // ---------------------------------------------------------------------------

  /** sellerAddresses: the lower-cased SELLER_WALLETS. */
  function SellerAddresses(setup: Setup): set<string> {
    set w | w in setup.sellerWallets :: Lower(w)
  }

  /** The contracts to run: those whose lower-cased address is the target, or all without a target. */
  function Targets(contracts: seq<PearlContract>, target: Option<string>): (r: seq<PearlContract>)
    ensures target.None? || target.value == "" ==> r == contracts
    ensures forall c :: c in r <==> c in contracts && (target.None? || target.value == "" || Lower(c.address) == target.value)
  {
    if target.None? || target.value == "" then contracts
    else if contracts == [] then []
    else
      var rest := Targets(contracts[..|contracts| - 1], target);
      var c := contracts[|contracts| - 1];
      assert contracts == contracts[..|contracts| - 1] + [c];
      rest + (if Lower(c.address) == target.value then [c] else [])
  }

  /** Each payout wallet on polygon, then on base. */
  function PayoutSources(wallets: seq<string>): (r: seq<Source>)
    ensures |r| == 2 * |wallets|
  {
    if wallets == [] then []
    else PayoutSources(wallets[..|wallets| - 1]) + [PayoutSource(wallets[|wallets| - 1], Polygon), PayoutSource(wallets[|wallets| - 1], Base)]
  }

  function SourcesOf(body: RequestBody, setup: Setup): seq<Source> {
    if body.backfillPayouts then PayoutSources(setup.payoutWalletList)
    else
      var target := if body.contractAddress.Some? then Some(Lower(body.contractAddress.value)) else None;
      var targets := Targets(setup.pearlContracts, target);
      seq(|targets|, i requires 0 <= i < |targets| => NftSource(targets[i]))
  }

  // ---------------------------------------------------------------------------
  // Rows
  // ---------------------------------------------------------------------------

  /** The nft_transfers payload of a backfilled transfer. A purchase is a
      transfer from a seller wallet; only a purchase with a value that is
      neither empty nor '0' carries its (whole, unsplit) native value. */
  function NftRow(t: Moralis.NftTransferItem, contractId: string, chain: Chain, sellers: set<string>, price: Option<real>): (row: NftTransfer)
    ensures row.isPurchase <==> Lower(t.fromAddress) in sellers
    ensures row.nativeValue.Some? <==> row.isPurchase && t.value != "" && t.value != "0"
    ensures row.nativeValue.Some? ==> row.nativeValue.value == NativeAmount(DecimalValue(t.value))
    ensures row.nativeCurrency == if row.isPurchase then Some(NativeCurrency(chain)) else None
    ensures row.usdValue.Some? <==> row.nativeValue.Some? && price.Some?
    ensures row.fromAddress == Lower(t.fromAddress) && row.toAddress == Lower(t.toAddress)
    ensures row.tokenId == t.tokenId && row.timestamp == t.blockTimestamp.iso
    ensures row.quantity == if t.amount == "" then 1.0 else DecimalValue(t.amount) as real
    ensures NftKeyOf(row) == NftKey(t.transactionHash, t.logIndex) && row.contractId == contractId
  {
    var fromAddr := Lower(t.fromAddress);
    var isPurchase := fromAddr in sellers;
    var priced := isPurchase && t.value != "" && t.value != "0";
    var nativeValue := if priced then Some(NativeAmount(DecimalValue(t.value))) else None;
    NftTransfer(
      contractId, t.transactionHash, t.logIndex, t.blockNumber, fromAddr, Lower(t.toAddress), t.tokenId,
      if t.amount == "" then 1.0 else DecimalValue(t.amount) as real,
      isPurchase, nativeValue,
      if isPurchase then Some(NativeCurrency(chain)) else None,
      if nativeValue.Some? && price.Some? then Some(nativeValue.value * price.value) else None,
      false, t.blockTimestamp.iso)
  }

  /** A priced row's usd_value is its native value times the price. */
  lemma NftRowUsd(t: Moralis.NftTransferItem, contractId: string, chain: Chain, sellers: set<string>, price: Option<real>)
    ensures var row := NftRow(t, contractId, chain, sellers, price);
      row.usdValue.Some? ==> row.usdValue.value == row.nativeValue.value * price.value
  {
  }

  /** Whether the transfer's row asks for a price. */
  predicate Priced(t: Moralis.NftTransferItem, sellers: set<string>) {
    Lower(t.fromAddress) in sellers && t.value != "" && t.value != "0"
  }

  /** The payout_transfers payload of a backfilled native transfer. */
  function PayoutRow(tx: Moralis.NativeTransferItem, walletId: string, chain: Chain, price: Option<real>): (row: PayoutTransfer)
    ensures row.amount == NativeAmount(DecimalValue(tx.value)) && row.txHash == tx.hash
    ensures row.payoutWalletId == walletId && row.nativeCurrency == NativeCurrency(chain)
    ensures row.usdValue.Some? <==> price.Some?
    ensures row.toAddress == Lower(tx.toAddress)
  {
    var amount := NativeAmount(DecimalValue(tx.value));
    PayoutTransfer(walletId, Lower(tx.toAddress), amount, NativeCurrency(chain),
      if price.Some? then Some(amount * price.value) else None,
      tx.hash, tx.blockNumber, tx.blockTimestamp.iso)
  }

  /** A priced payout's usd_value is its amount times the price. */
  lemma PayoutRowUsd(tx: Moralis.NativeTransferItem, walletId: string, chain: Chain, price: Option<real>)
    ensures var row := PayoutRow(tx, walletId, chain, price);
      row.usdValue.Some? ==> row.usdValue.value == row.amount * price.value
  {
  }

  // ---------------------------------------------------------------------------
  // One page of a source
  // ---------------------------------------------------------------------------

  /** getTokenPrice of the chain's currency at a transfer's time. */
  function PriceAt(prices: map<PriceKey, real>, chain: Chain, at: Instant, setup: Setup): (Result<real, PriceError>, map<PriceKey, real>) {
    TokenPrice(prices, NativeCurrency(chain), at, setup.priceKey, setup.priceFetch)
  }

  /** The tables and the `processed` counter part-way through a page. */
  datatype Progress = Progress(state: LedgerState, processed: nat)

  /** What one NFT transfer writes: the price lookup of a priced purchase, then the row. */
  function NftWrite(s: LedgerState, t: Moralis.NftTransferItem, contractId: string, chain: Chain, setup: Setup): LedgerState {
    var sellers := SellerAddresses(setup);
    if Priced(t, sellers) then
      var priced := PriceAt(s.prices, chain, t.blockTimestamp, setup);
      var u := s.(prices := priced.1);
      u.(nfts := UpsertNft(u.nfts, NftRow(t, contractId, chain, sellers, PriceOf(priced.0))))
    else
      s.(nfts := UpsertNft(s.nfts, NftRow(t, contractId, chain, sellers, None)))
  }

  /** The loop over an NFT page: every transfer is written and counted. */
  function NftItems(s: LedgerState, items: seq<Moralis.NftTransferItem>, contractId: string, chain: Chain, setup: Setup): Progress {
    if items == [] then Progress(s, 0)
    else
      var p := NftItems(s, items[..|items| - 1], contractId, chain, setup);
      Progress(NftWrite(p.state, items[|items| - 1], contractId, chain, setup), p.processed + 1)
  }

  /** What one native transfer of positive value writes: the price lookup, then the row. */
  function PayoutWrite(s: LedgerState, tx: Moralis.NativeTransferItem, walletId: string, chain: Chain, setup: Setup): LedgerState {
    var priced := PriceAt(s.prices, chain, tx.blockTimestamp, setup);
    var u := s.(prices := priced.1);
    u.(payouts := UpsertPayout(u.payouts, PayoutRow(tx, walletId, chain, PriceOf(priced.0))))
  }

  /** The loop over a payout page: transfers of no value are skipped. */
  function PayoutItems(s: LedgerState, txs: seq<Moralis.NativeTransferItem>, walletId: string, chain: Chain, setup: Setup): Progress {
    if txs == [] then Progress(s, 0)
    else
      var p := PayoutItems(s, txs[..|txs| - 1], walletId, chain, setup);
      var tx := txs[|txs| - 1];
      if NativeAmount(DecimalValue(tx.value)) <= 0.0 then p
      else Progress(PayoutWrite(p.state, tx, walletId, chain, setup), p.processed + 1)
  }

  /** `!!data.cursor`. */
  predicate HasMore(cursor: Option<string>) {
    cursor.Some? && cursor.value != ""
  }

  /** The synthetic sync_cursors key of a payout source. */
  function PayoutCursorKey(address: string, chain: Chain): string {
    "payout_" + address + "_" + ChainName(chain)
  }

  /** One payout source: skip when completed, else fetch one page, write its
      positive transfers when the wallet has a payout_wallets row, and store
      the new cursor (last_block 0 on an empty page). */
  function RunPayoutSource(s: LedgerState, address: string, chain: Chain, setup: Setup): (Result<SourceResult, Moralis.MoralisError>, LedgerState) {
    var key := PayoutCursorKey(address, chain);
    var name := "payouts-" + ChainName(chain);
    if key in s.cursors && s.cursors[key].completed then
      (Ok(SourceResult(name, ChainName(chain), 0, false, true)), s)
    else
      var cursor := if key in s.cursors then s.cursors[key].cursor else None;
      match Moralis.GetNativeTransfers(address, ChainName(chain), cursor, None, setup.moralisKey, setup.nativeFetch)
      case Err(e) => (Err(e), s)
      case Ok(page) =>
        var (result, after) := PayoutPage(s, address, chain, page, setup);
        (Ok(result), after)
  }

  /** A fetched page of a payout wallet: its transfers written, then the cursor. */
  function PayoutPage(s: LedgerState, address: string, chain: Chain, page: Moralis.Page<Moralis.NativeTransferItem>, setup: Setup): (SourceResult, LedgerState) {
    var key := PayoutCursorKey(address, chain);
    var written :=
      if Lower(address) in setup.payoutWallets then PayoutItems(s, page.result, setup.payoutWallets[Lower(address)], chain, setup)
      else Progress(s, 0);
    var hasMore := HasMore(page.cursor);
    var lastBlock := if |page.result| > 0 then page.result[|page.result| - 1].blockNumber else 0;
    (SourceResult("payouts-" + ChainName(chain), ChainName(chain), written.processed, hasMore, !hasMore),
     written.state.(cursors := UpsertCursor(written.state.cursors, SyncCursor(key, page.cursor, lastBlock, !hasMore))))
  }

  /** One contract: not completed without its contracts row, skip when
      completed, else fetch one page, write every transfer and store the new
      cursor (an empty page keeps the previous last_block, default 0). */
  function RunNftSource(s: LedgerState, c: PearlContract, setup: Setup): (Result<SourceResult, Moralis.MoralisError>, LedgerState) {
    var ref := ContractRef(Lower(c.address), ChainName(c.chain));
    if ref !in setup.contracts then
      (Ok(SourceResult(c.name, ChainName(c.chain), 0, false, false)), s)
    else
      var id := setup.contracts[ref];
      if id in s.cursors && s.cursors[id].completed then
        (Ok(SourceResult(c.name, ChainName(c.chain), 0, false, true)), s)
      else
        var cursor := if id in s.cursors then s.cursors[id].cursor else None;
        match Moralis.GetErc1155Transfers(c.address, ChainName(c.chain), cursor, None, setup.moralisKey, setup.nftFetch)
        case Err(e) => (Err(e), s)
        case Ok(page) =>
          var written := NftItems(s, page.result, id, c.chain, setup);
          var hasMore := HasMore(page.cursor);
          var lastBlock :=
            if |page.result| > 0 then page.result[|page.result| - 1].blockNumber
            else if id in s.cursors then s.cursors[id].lastBlock else 0;
          (Ok(SourceResult(c.name, ChainName(c.chain), written.processed, hasMore, !hasMore)),
           written.state.(cursors := UpsertCursor(written.state.cursors, SyncCursor(id, page.cursor, lastBlock, !hasMore))))
  }

  function RunSource(s: LedgerState, src: Source, setup: Setup): (Result<SourceResult, Moralis.MoralisError>, LedgerState) {
    match src
    case PayoutSource(address, chain) => RunPayoutSource(s, address, chain, setup)
    case NftSource(c) => RunNftSource(s, c, setup)
  }

  /** The sources in order; a provider error stops the run, keeping what was written. */
  function RunSources(s: LedgerState, sources: seq<Source>, setup: Setup): (Result<seq<SourceResult>, Moralis.MoralisError>, LedgerState) {
    if sources == [] then (Ok([]), s)
    else
      var done := RunSources(s, sources[..|sources| - 1], setup);
      if done.0.Err? then done
      else
        var next := RunSource(done.1, sources[|sources| - 1], setup);
        if next.0.Err? then (Err(next.0.error), next.1) else (Ok(done.0.value + [next.0.value]), next.1)
  }

  /** `results.every((r) => r.completed)`. */
  predicate AllCompleted(results: seq<SourceResult>) {
    forall i :: 0 <= i < |results| ==> results[i].completed
  }

  /** POST: the response and the tables afterwards. `body` is None when the
      JSON body does not parse (it then reads as `{}`); `serviceConfigured`
      is whether the service-role client can be built. */
  function BackfillSpec(s: LedgerState, query: Option<string>, header: Option<string>, adminSecret: Option<string>,
                        body: Option<RequestBody>, serviceConfigured: bool, setup: Setup): (BackfillResponse, LedgerState)
  {
    if !Authorized(query, header, adminSecret) then (Unauthorized, s)
    else if !serviceConfigured then (Failed, s)
    else
      var run := RunSources(s, SourcesOf(body.GetOr(RequestBody(None, false)), setup), setup);
      if run.0.Err? then (Failed, run.1) else (Report(run.0.value, AllCompleted(run.0.value)), run.1)
  }

  /** A provider error ends the run: the later sources are never run and
      the response and tables are those at the failing source. */
  lemma {:induction false} RunSourcesStopsAtError(s: LedgerState, sources: seq<Source>, setup: Setup, k: nat)
    requires k <= |sources| && RunSources(s, sources[..k], setup).0.Err?
    ensures RunSources(s, sources, setup) == RunSources(s, sources[..k], setup)
    decreases |sources| - k
  {
    if k < |sources| {
      var next := sources[..k + 1];
      assert next[..k] == sources[..k];
      RunSourcesStopsAtError(s, sources, setup, k + 1);
    } else {
      assert sources[..k] == sources;
    }
  }

  // ---------------------------------------------------------------------------
  // Properties
  // ---------------------------------------------------------------------------

  /** The sync_cursors key a source reads and writes; none for a contract without its contracts row. */
  function CursorKeyOf(src: Source, setup: Setup): Option<string> {
    match src
    case PayoutSource(address, chain) => Some(PayoutCursorKey(address, chain))
    case NftSource(c) =>
      var ref := ContractRef(Lower(c.address), ChainName(c.chain));
      if ref in setup.contracts then Some(setup.contracts[ref]) else None
  }

  /** The `name` and `chain` a source reports. */
  function SourceName(src: Source): string {
    match src
    case PayoutSource(_, chain) => "payouts-" + ChainName(chain)
    case NftSource(c) => c.name
  }

  function SourceChain(src: Source): Chain {
    match src
    case PayoutSource(_, chain) => chain
    case NftSource(c) => c.chain
  }

  /** The setup with other provider keys and answers. */
  predicate SameConfiguration(setup: Setup, other: Setup) {
    setup.pearlContracts == other.pearlContracts && setup.sellerWallets == other.sellerWallets
    && setup.payoutWalletList == other.payoutWalletList && setup.contracts == other.contracts
    && setup.payoutWallets == other.payoutWallets
  }

  /** A source whose cursor is completed is reported completed with nothing
      processed, writes nothing, and asks no provider: its outcome is the
      same whatever the providers would answer. */
  lemma CompletedSourceSkipped(s: LedgerState, src: Source, setup: Setup, other: Setup)
    requires SameConfiguration(setup, other)
    requires CursorKeyOf(src, setup).Some?
    requires CursorKeyOf(src, setup).value in s.cursors && s.cursors[CursorKeyOf(src, setup).value].completed
    ensures RunSource(s, src, setup) == RunSource(s, src, other)
    ensures RunSource(s, src, setup) == (Ok(SourceResult(SourceName(src), ChainName(SourceChain(src)), 0, false, true)), s)
  {
  }

  /** A contract without its contracts row is reported not completed, with
      nothing fetched or written. */
  lemma MissingContractNotCompleted(s: LedgerState, c: PearlContract, setup: Setup, other: Setup)
    requires SameConfiguration(setup, other)
    requires CursorKeyOf(NftSource(c), setup).None?
    ensures RunSource(s, NftSource(c), setup) == RunSource(s, NftSource(c), other)
    ensures RunSource(s, NftSource(c), setup) == (Ok(SourceResult(c.name, ChainName(c.chain), 0, false, false)), s)
  {
  }

  /** The (tx_hash, log_index) keys of a page. */
  function NftKeysOf(items: seq<Moralis.NftTransferItem>): set<NftKey> {
    set t | t in items :: NftKey(t.transactionHash, t.logIndex)
  }

  lemma NftKeysSnoc(items: seq<Moralis.NftTransferItem>, t: Moralis.NftTransferItem)
    ensures NftKeysOf(items + [t]) == NftKeysOf(items) + {NftKey(t.transactionHash, t.logIndex)}
  {
    assert forall x :: x in items + [t] <==> x in items || x == t;
  }

  /** One NFT transfer: its row upserted, payouts and cursors untouched. */
  lemma NftWriteFacts(s: LedgerState, t: Moralis.NftTransferItem, contractId: string, chain: Chain, setup: Setup)
    ensures var r := NftWrite(s, t, contractId, chain, setup);
      && r.nfts.Keys == s.nfts.Keys + {NftKey(t.transactionHash, t.logIndex)}
      && r.payouts == s.payouts && r.cursors == s.cursors
  {
    var sellers := SellerAddresses(setup);
    var price := if Priced(t, sellers) then PriceOf(PriceAt(s.prices, chain, t.blockTimestamp, setup).0) else None;
    var row := NftRow(t, contractId, chain, sellers, price);
    assert NftWrite(s, t, contractId, chain, setup).nfts == UpsertNft(s.nfts, row);
    assert NftKeyOf(row) == NftKey(t.transactionHash, t.logIndex);
  }

  /** Every transfer of an NFT page is processed and leaves a row under its
      (tx_hash, log_index); no other row appears and sync_cursors is not touched. */
  lemma {:induction false} NftItemsRows(s: LedgerState, items: seq<Moralis.NftTransferItem>, contractId: string, chain: Chain, setup: Setup)
    ensures var r := NftItems(s, items, contractId, chain, setup);
      && r.processed == |items|
      && r.state.nfts.Keys == s.nfts.Keys + NftKeysOf(items)
      && r.state.payouts == s.payouts && r.state.cursors == s.cursors
  {
    if items != [] {
      var init := items[..|items| - 1];
      var t := items[|items| - 1];
      assert items == init + [t];
      NftKeysSnoc(init, t);
      NftItemsRows(s, init, contractId, chain, setup);
      NftWriteFacts(NftItems(s, init, contractId, chain, setup).state, t, contractId, chain, setup);
    }
  }

  /** A native transfer of positive value. */
  predicate Positive(tx: Moralis.NativeTransferItem) {
    DecimalValue(tx.value) > 0
  }

  /** The number of transfers of positive value. */
  function PositiveCount(txs: seq<Moralis.NativeTransferItem>): nat {
    if txs == [] then 0
    else PositiveCount(txs[..|txs| - 1]) + (if Positive(txs[|txs| - 1]) then 1 else 0)
  }

  /** The tx hashes of the transfers of positive value. */
  function PositiveHashes(txs: seq<Moralis.NativeTransferItem>): set<string> {
    if txs == [] then {}
    else
      var tx := txs[|txs| - 1];
      PositiveHashes(txs[..|txs| - 1]) + (if Positive(tx) then {tx.hash} else {})
  }

  /** Each of them is the hash of a positive transfer. */
  lemma {:induction false} PositiveHashesSound(txs: seq<Moralis.NativeTransferItem>, h: string)
    requires h in PositiveHashes(txs)
    ensures exists i :: 0 <= i < |txs| && Positive(txs[i]) && txs[i].hash == h
    decreases |txs|
  {
    var init, tx := txs[..|txs| - 1], txs[|txs| - 1];
    if h in PositiveHashes(init) {
      PositiveHashesSound(init, h);
      var i :| 0 <= i < |init| && Positive(init[i]) && init[i].hash == h;
      assert txs[i] == init[i];
    } else {
      assert Positive(tx) && tx.hash == h;
      assert txs[|txs| - 1] == tx;
    }
  }

  /** Every positive transfer's hash is among them. */
  lemma {:induction false} PositiveHashesComplete(txs: seq<Moralis.NativeTransferItem>, i: nat)
    requires i < |txs| && Positive(txs[i])
    ensures txs[i].hash in PositiveHashes(txs)
    decreases |txs|
  {
    if i < |txs| - 1 {
      var init := txs[..|txs| - 1];
      assert init[i] == txs[i];
      PositiveHashesComplete(init, i);
    }
  }

  /** One native transfer: its row upserted under its tx hash; nfts and cursors untouched. */
  lemma PayoutWriteFacts(s: LedgerState, tx: Moralis.NativeTransferItem, walletId: string, chain: Chain, setup: Setup)
    ensures var r := PayoutWrite(s, tx, walletId, chain, setup);
      && r.payouts.Keys == s.payouts.Keys + {tx.hash}
      && r.nfts == s.nfts && r.cursors == s.cursors
  {
  }

  /** A payout page processes exactly its transfers of positive value and
      leaves one row per tx_hash among them; no other row appears and
      sync_cursors is not touched. */
  lemma {:induction false} PayoutItemsRows(s: LedgerState, txs: seq<Moralis.NativeTransferItem>, walletId: string, chain: Chain, setup: Setup)
    ensures var r := PayoutItems(s, txs, walletId, chain, setup);
      && r.processed == PositiveCount(txs)
      && r.state.payouts.Keys == s.payouts.Keys + PositiveHashes(txs)
      && r.state.nfts == s.nfts && r.state.cursors == s.cursors
  {
    if txs != [] {
      var init := txs[..|txs| - 1];
      PayoutItemsRows(s, init, walletId, chain, setup);
      PayoutItemsLast(s, txs, walletId, chain, setup);
      var tx := txs[|txs| - 1];
      UnionAssoc(s.payouts.Keys, PositiveHashes(init), if Positive(tx) then {tx.hash} else {});
    }
  }

  /** The last transfer of a payout page, when positive, adds one to the
      count and its tx hash to the keys; otherwise it changes nothing. */
  lemma PayoutItemsLast(s: LedgerState, txs: seq<Moralis.NativeTransferItem>, walletId: string, chain: Chain, setup: Setup)
    requires txs != []
    ensures var p := PayoutItems(s, txs[..|txs| - 1], walletId, chain, setup);
      var r := PayoutItems(s, txs, walletId, chain, setup);
      var tx := txs[|txs| - 1];
      && (Positive(tx) ==>
            && r.processed == p.processed + 1
            && r.state.payouts.Keys == p.state.payouts.Keys + {tx.hash}
            && r.state.nfts == p.state.nfts && r.state.cursors == p.state.cursors)
      && (!Positive(tx) ==> r == p)
  {
    var p := PayoutItems(s, txs[..|txs| - 1], walletId, chain, setup);
    var tx := txs[|txs| - 1];
    assert NativeAmount(DecimalValue(tx.value)) > 0.0 <==> Positive(tx);
    if Positive(tx) {
      PayoutWriteFacts(p.state, tx, walletId, chain, setup);
    }
  }

  lemma UnionAssoc<T>(a: set<T>, b: set<T>, c: set<T>)
    ensures a + b + c == a + (b + c)
  {
  }

  /** A fetched NFT page: every transfer processed, the cursor stored with
      completed exactly when no next cursor came back, and last_block the
      page's last block, or the previous value (default 0) on an empty page. */
  lemma NftPageAdvances(s: LedgerState, c: PearlContract, setup: Setup, page: Moralis.Page<Moralis.NftTransferItem>)
    requires CursorKeyOf(NftSource(c), setup).Some?
    requires var id := CursorKeyOf(NftSource(c), setup).value; !(id in s.cursors && s.cursors[id].completed)
    requires var id := CursorKeyOf(NftSource(c), setup).value;
      Moralis.GetErc1155Transfers(c.address, ChainName(c.chain), if id in s.cursors then s.cursors[id].cursor else None,
                                  None, setup.moralisKey, setup.nftFetch) == Ok(page)
    ensures var id := CursorKeyOf(NftSource(c), setup).value;
      var out := RunSource(s, NftSource(c), setup);
      && out.0 == Ok(SourceResult(c.name, ChainName(c.chain), |page.result|, HasMore(page.cursor), !HasMore(page.cursor)))
      && out.1.cursors == s.cursors[id := SyncCursor(id, page.cursor,
           if |page.result| > 0 then page.result[|page.result| - 1].blockNumber
           else if id in s.cursors then s.cursors[id].lastBlock else 0,
           !HasMore(page.cursor))]
  {
    var id := CursorKeyOf(NftSource(c), setup).value;
    var written := NftItems(s, page.result, id, c.chain, setup);
    var lastBlock :=
      if |page.result| > 0 then page.result[|page.result| - 1].blockNumber
      else if id in s.cursors then s.cursors[id].lastBlock else 0;
    assert RunSource(s, NftSource(c), setup)
        == (Ok(SourceResult(c.name, ChainName(c.chain), written.processed, HasMore(page.cursor), !HasMore(page.cursor))),
            written.state.(cursors := UpsertCursor(written.state.cursors, SyncCursor(id, page.cursor, lastBlock, !HasMore(page.cursor)))));
    NftItemsRows(s, page.result, id, c.chain, setup);
  }

  /** A fetched payout page: the positive transfers processed when the wallet
      has its payout_wallets row (none otherwise), and the cursor stored with
      last_block the page's last block, or 0 on an empty page. */
  lemma PayoutPageAdvances(s: LedgerState, address: string, chain: Chain, setup: Setup, page: Moralis.Page<Moralis.NativeTransferItem>)
    requires var key := PayoutCursorKey(address, chain); !(key in s.cursors && s.cursors[key].completed)
    requires var key := PayoutCursorKey(address, chain);
      Moralis.GetNativeTransfers(address, ChainName(chain), if key in s.cursors then s.cursors[key].cursor else None,
                                 None, setup.moralisKey, setup.nativeFetch) == Ok(page)
    ensures var key := PayoutCursorKey(address, chain);
      var out := RunSource(s, PayoutSource(address, chain), setup);
      && out.0 == Ok(SourceResult("payouts-" + ChainName(chain), ChainName(chain),
                                  if Lower(address) in setup.payoutWallets then PositiveCount(page.result) else 0,
                                  HasMore(page.cursor), !HasMore(page.cursor)))
      && out.1.cursors == s.cursors[key := SyncCursor(key, page.cursor,
           if |page.result| > 0 then page.result[|page.result| - 1].blockNumber else 0, !HasMore(page.cursor))]
      && (Lower(address) !in setup.payoutWallets ==> out.1.payouts == s.payouts)
  {
    assert RunSource(s, PayoutSource(address, chain), setup) == RunPayoutSource(s, address, chain, setup);
    assert RunPayoutSource(s, address, chain, setup) == (Ok(PayoutPage(s, address, chain, page, setup).0), PayoutPage(s, address, chain, page, setup).1);
    PayoutPageResult(s, address, chain, page, setup);
    PayoutPageWrites(s, address, chain, page, setup);
  }

  /** What a fetched payout page reports: one processed transfer per
      positive transfer when the wallet has its payout_wallets row. */
  lemma PayoutPageResult(s: LedgerState, address: string, chain: Chain, page: Moralis.Page<Moralis.NativeTransferItem>, setup: Setup)
    ensures PayoutPage(s, address, chain, page, setup).0
         == SourceResult("payouts-" + ChainName(chain), ChainName(chain),
                         if Lower(address) in setup.payoutWallets then PositiveCount(page.result) else 0,
                         HasMore(page.cursor), !HasMore(page.cursor))
  {
    var wallet := Lower(address);
    if wallet in setup.payoutWallets {
      PayoutItemsRows(s, page.result, setup.payoutWallets[wallet], chain, setup);
    }
  }

  /** What a fetched payout page writes to sync_cursors, and that it writes
      no payout row without the wallet's payout_wallets row. */
  lemma PayoutPageWrites(s: LedgerState, address: string, chain: Chain, page: Moralis.Page<Moralis.NativeTransferItem>, setup: Setup)
    ensures var key := PayoutCursorKey(address, chain);
      var after := PayoutPage(s, address, chain, page, setup).1;
      && after.cursors == s.cursors[key := SyncCursor(key, page.cursor,
           if |page.result| > 0 then page.result[|page.result| - 1].blockNumber else 0, !HasMore(page.cursor))]
      && (Lower(address) !in setup.payoutWallets ==> after.payouts == s.payouts)
  {
    var wallet := Lower(address);
    var cursor := SyncCursor(PayoutCursorKey(address, chain), page.cursor,
      if |page.result| > 0 then page.result[|page.result| - 1].blockNumber else 0, !HasMore(page.cursor));
    if wallet in setup.payoutWallets {
      var written := PayoutItems(s, page.result, setup.payoutWallets[wallet], chain, setup);
      PayoutItemsRows(s, page.result, setup.payoutWallets[wallet], chain, setup);
      assert PayoutPage(s, address, chain, page, setup).1 == written.state.(cursors := UpsertCursor(written.state.cursors, cursor));
    } else {
      assert PayoutPage(s, address, chain, page, setup).1 == s.(cursors := UpsertCursor(s.cursors, cursor));
    }
  }

  /** A failed fetch writes nothing for that source. */
  lemma FetchErrorWritesNothing(s: LedgerState, src: Source, setup: Setup)
    ensures RunSource(s, src, setup).0.Err? ==> RunSource(s, src, setup).1 == s
  {
  }

  /** One source writes at most its own cursor, a completed cursor is never
      rewritten, and the reported completion is the stored one. */
  lemma RunSourceCursors(s: LedgerState, src: Source, setup: Setup)
    ensures var (r, u) := RunSource(s, src, setup);
      var key := CursorKeyOf(src, setup);
      && (forall k :: k in s.cursors && (key.None? || k != key.value) ==> k in u.cursors && u.cursors[k] == s.cursors[k])
      && (key.None? ==> u.cursors == s.cursors)
      && (key.Some? && key.value in s.cursors && s.cursors[key.value].completed ==> u.cursors == s.cursors)
      && (r.Ok? && key.Some? ==> key.value in u.cursors && u.cursors[key.value].completed == r.value.completed)
      && (r.Ok? ==> (r.value.completed ==> !r.value.hasMore))
  {
    match src
    case PayoutSource(address, chain) =>
      forall page: Moralis.Page<Moralis.NativeTransferItem> {
        PayoutPageWrites(s, address, chain, page, setup);
      }
    case NftSource(c) =>
      var ref := ContractRef(Lower(c.address), ChainName(c.chain));
      if ref in setup.contracts {
        forall page: Moralis.Page<Moralis.NftTransferItem> {
          NftItemsRows(s, page.result, setup.contracts[ref], c.chain, setup);
        }
      }
  }

  /** One result per source, in order, under the source's name and chain; a
      contract without its contracts row is never reported completed. */
  lemma {:induction false} RunSourcesResults(s: LedgerState, sources: seq<Source>, setup: Setup)
    ensures var r := RunSources(s, sources, setup).0;
      r.Ok? ==> |r.value| == |sources| && forall i :: 0 <= i < |sources| ==> Reports(r.value[i], sources[i], setup)
  {
    if sources != [] {
      var init := sources[..|sources| - 1];
      var src := sources[|sources| - 1];
      RunSourcesResults(s, init, setup);
      var done := RunSources(s, init, setup);
      if done.0.Ok? {
        var next := RunSource(done.1, src, setup);
        RunSourceResult(done.1, src, setup);
        if next.0.Ok? {
          assert RunSources(s, sources, setup).0 == Ok(done.0.value + [next.0.value]);
          ReportsSnoc(done.0.value, next.0.value, sources, setup);
        }
      }
    }
  }

  lemma ReportsSnoc(results: seq<SourceResult>, last: SourceResult, sources: seq<Source>, setup: Setup)
    requires sources != [] && |results| == |sources| - 1
    requires forall i :: 0 <= i < |results| ==> Reports(results[i], sources[..|sources| - 1][i], setup)
    requires Reports(last, sources[|sources| - 1], setup)
    ensures forall i :: 0 <= i < |sources| ==> Reports((results + [last])[i], sources[i], setup)
  {
    forall i | 0 <= i < |sources|
      ensures Reports((results + [last])[i], sources[i], setup)
    {
      if i < |results| {
        assert (results + [last])[i] == results[i] && sources[..|sources| - 1][i] == sources[i];
      }
    }
  }

  /** A result carries its source's name and chain, and a contract without
      its contracts row is not reported completed. */
  predicate Reports(result: SourceResult, src: Source, setup: Setup) {
    && result.name == SourceName(src)
    && result.chain == ChainName(SourceChain(src))
    && (CursorKeyOf(src, setup).None? ==> !result.completed)
  }

  /** The name, chain and completion a single source reports. */
  lemma RunSourceResult(s: LedgerState, src: Source, setup: Setup)
    ensures var r := RunSource(s, src, setup).0;
      r.Ok? ==> Reports(r.value, src, setup)
  {
  }

  /** Cursors completed before a run are exactly as they were after it. */
  lemma {:induction false} CompletedCursorsFrozen(s: LedgerState, sources: seq<Source>, setup: Setup, key: string)
    requires key in s.cursors && s.cursors[key].completed
    ensures var u := RunSources(s, sources, setup).1; key in u.cursors && u.cursors[key] == s.cursors[key]
  {
    if sources != [] {
      var init := sources[..|sources| - 1];
      CompletedCursorsFrozen(s, init, setup, key);
      var done := RunSources(s, init, setup);
      if done.0.Ok? {
        RunSourceCursors(done.1, sources[|sources| - 1], setup);
      }
    }
  }

  /** One result per source; with no source at all allCompleted is true,
      with a contract that has no contracts row it is false; a payout run
      reports two results per payout wallet; completed cursors survive. */
  lemma BackfillReport(s: LedgerState, query: Option<string>, header: Option<string>, adminSecret: Option<string>,
                       body: Option<RequestBody>, serviceConfigured: bool, setup: Setup)
    ensures var (resp, u) := BackfillSpec(s, query, header, adminSecret, body, serviceConfigured, setup);
      var sources := SourcesOf(body.GetOr(RequestBody(None, false)), setup);
      && (resp.Report? ==> |resp.results| == |sources|)
      && (resp.Report? && sources == [] ==> resp.allCompleted)
      && (resp.Report? && (exists i :: 0 <= i < |sources| && CursorKeyOf(sources[i], setup).None?) ==> !resp.allCompleted)
      && (resp.Report? && body.Some? && body.value.backfillPayouts ==> |resp.results| == 2 * |setup.payoutWalletList|)
      && (forall key :: key in s.cursors && s.cursors[key].completed ==> key in u.cursors && u.cursors[key] == s.cursors[key])
  {
    var sources := SourcesOf(body.GetOr(RequestBody(None, false)), setup);
    RunSourcesResults(s, sources, setup);
    forall key | key in s.cursors && s.cursors[key].completed {
      CompletedCursorsFrozen(s, sources, setup, key);
    }
  }

  /** An NFT run over a pearl contract that has no contracts row reports
      at least one result, and never allCompleted. */
  lemma MissingContractReport(s: LedgerState, query: Option<string>, header: Option<string>, adminSecret: Option<string>,
                              serviceConfigured: bool, setup: Setup, c: PearlContract)
    requires c in setup.pearlContracts && CursorKeyOf(NftSource(c), setup).None?
    ensures var resp := BackfillSpec(s, query, header, adminSecret, Some(RequestBody(None, false)), serviceConfigured, setup).0;
      resp.Report? ==> resp.results != [] && !resp.allCompleted
  {
    BackfillReport(s, query, header, adminSecret, Some(RequestBody(None, false)), serviceConfigured, setup);
    var sources := SourcesOf(RequestBody(None, false), setup);
    assert Targets(setup.pearlContracts, None) == setup.pearlContracts;
    var i :| 0 <= i < |setup.pearlContracts| && setup.pearlContracts[i] == c;
    assert sources[i] == NftSource(c);
  }

  /** An unauthorised or unconfigured request changes nothing. */
  lemma EarlyExits(s: LedgerState, query: Option<string>, header: Option<string>, adminSecret: Option<string>,
                   body: Option<RequestBody>, serviceConfigured: bool, setup: Setup)
    ensures !Authorized(query, header, adminSecret) ==>
      BackfillSpec(s, query, header, adminSecret, body, serviceConfigured, setup) == (Unauthorized, s)
    ensures Authorized(query, header, adminSecret) && !serviceConfigured ==>
      BackfillSpec(s, query, header, adminSecret, body, serviceConfigured, setup) == (Failed, s)
  {
  }

  // ---------------------------------------------------------------------------
  // The handler
  // ---------------------------------------------------------------------------

  /** POST. `setup` describes the database's reference tables. */
  method Backfill(db: Database, query: Option<string>, header: Option<string>, adminSecret: Option<string>,
                  body: Option<RequestBody>, serviceConfigured: bool, setup: Setup) returns (resp: BackfillResponse)
    requires setup.contracts == db.contracts && setup.payoutWallets == db.payoutWallets
    modifies db
    ensures (resp, db.State()) == BackfillSpec(old(db.State()), query, header, adminSecret, body, serviceConfigured, setup)
  {
    if !Authorized(query, header, adminSecret) {
      return Unauthorized;
    }
    if !serviceConfigured {
      return Failed;
    }
    var sources := SourcesOf(body.GetOr(RequestBody(None, false)), setup);
    var run := RunAll(db, sources, setup);
    if run.Err? {
      return Failed;
    }
    resp := Report(run.value, AllCompleted(run.value));
  }

  /** The source loop: the sources run in order and the first provider
      error ends it. */
  method RunAll(db: Database, sources: seq<Source>, setup: Setup) returns (run: Result<seq<SourceResult>, Moralis.MoralisError>)
    requires setup.contracts == db.contracts && setup.payoutWallets == db.payoutWallets
    modifies db
    ensures (run, db.State()) == RunSources(old(db.State()), sources, setup)
  {
    ghost var s0 := db.State();
    var results: seq<SourceResult> := [];
    for n := 0 to |sources|
      invariant RunSources(s0, sources[..n], setup) == (Ok(results), db.State())
    {
      assert sources[..n + 1][..n] == sources[..n];
      var r := RunOne(db, sources[n], setup);
      if r.Err? {
        RunSourcesStopsAtError(s0, sources, setup, n + 1);
        return Err(r.error);
      }
      results := results + [r.value];
    }
    assert sources[..|sources|] == sources;
    run := Ok(results);
  }

  /** One iteration of the source loop. */
  method RunOne(db: Database, src: Source, setup: Setup) returns (r: Result<SourceResult, Moralis.MoralisError>)
    requires setup.contracts == db.contracts && setup.payoutWallets == db.payoutWallets
    modifies db
    ensures (r, db.State()) == RunSource(old(db.State()), src, setup)
  {
    match src {
      case PayoutSource(address, chain) =>
        r := RunPayout(db, address, chain, setup);
      case NftSource(c) =>
        r := RunNft(db, c, setup);
    }
  }

  /** One payout wallet on one chain. */
  method RunPayout(db: Database, address: string, chain: Chain, setup: Setup) returns (r: Result<SourceResult, Moralis.MoralisError>)
    requires setup.payoutWallets == db.payoutWallets
    modifies db
    ensures (r, db.State()) == RunPayoutSource(old(db.State()), address, chain, setup)
  {
    var key := PayoutCursorKey(address, chain);
    var name := "payouts-" + ChainName(chain);
    var row := if key in db.cursors then Some(db.cursors[key]) else None;
    if row.Some? && row.value.completed {
      return Ok(SourceResult(name, ChainName(chain), 0, false, true));
    }
    var cursor := if row.Some? then row.value.cursor else None;
    var data := Moralis.GetNativeTransfers(address, ChainName(chain), cursor, None, setup.moralisKey, setup.nativeFetch);
    if data.Err? {
      return Err(data.error);
    }
    var result := StorePayoutPage(db, address, chain, data.value, setup);
    r := Ok(result);
  }

  /** What RunPayout does with a fetched page. */
  method StorePayoutPage(db: Database, address: string, chain: Chain, page: Moralis.Page<Moralis.NativeTransferItem>, setup: Setup) returns (result: SourceResult)
    requires setup.payoutWallets == db.payoutWallets
    modifies db
    ensures (result, db.State()) == PayoutPage(old(db.State()), address, chain, page, setup)
  {
    ghost var written :=
      if Lower(address) in setup.payoutWallets then PayoutItems(db.State(), page.result, setup.payoutWallets[Lower(address)], chain, setup)
      else Progress(db.State(), 0);
    var processed := 0;
    if Lower(address) in db.payoutWallets {
      processed := WritePayouts(db, page.result, db.payoutWallets[Lower(address)], chain, setup);
    }
    assert Progress(db.State(), processed) == written;
    var hasMore := HasMore(page.cursor);
    var lastBlock := if |page.result| > 0 then page.result[|page.result| - 1].blockNumber else 0;
    db.UpsertCursorRow(SyncCursor(PayoutCursorKey(address, chain), page.cursor, lastBlock, !hasMore));
    result := SourceResult("payouts-" + ChainName(chain), ChainName(chain), processed, hasMore, !hasMore);
  }

  /** The loop over a payout page. */
  method WritePayouts(db: Database, txs: seq<Moralis.NativeTransferItem>, walletId: string, chain: Chain, setup: Setup) returns (processed: nat)
    modifies db
    ensures Progress(db.State(), processed) == PayoutItems(old(db.State()), txs, walletId, chain, setup)
  {
    ghost var s0 := db.State();
    processed := 0;
    for n := 0 to |txs|
      invariant Progress(db.State(), processed) == PayoutItems(s0, txs[..n], walletId, chain, setup)
    {
      var tx := txs[n];
      assert txs[..n + 1][..n] == txs[..n];
      var amount := NativeAmount(DecimalValue(tx.value));
      if amount > 0.0 {
        WritePayout(db, tx, walletId, chain, setup);
        processed := processed + 1;
      }
    }
    assert txs[..|txs|] == txs;
  }

  /** One iteration of the payout loop that is not skipped. */
  method WritePayout(db: Database, tx: Moralis.NativeTransferItem, walletId: string, chain: Chain, setup: Setup)
    modifies db
    ensures db.State() == PayoutWrite(old(db.State()), tx, walletId, chain, setup)
  {
    var r := GetTokenPrice(db, NativeCurrency(chain), tx.blockTimestamp, setup.priceKey, setup.priceFetch);
    db.UpsertPayoutRow(PayoutRow(tx, walletId, chain, PriceOf(r)));
  }

  /** One pearl contract. */
  method RunNft(db: Database, c: PearlContract, setup: Setup) returns (r: Result<SourceResult, Moralis.MoralisError>)
    requires setup.contracts == db.contracts
    modifies db
    ensures (r, db.State()) == RunNftSource(old(db.State()), c, setup)
  {
    var ref := ContractRef(Lower(c.address), ChainName(c.chain));
    if ref !in db.contracts {
      return Ok(SourceResult(c.name, ChainName(c.chain), 0, false, false));
    }
    var id := db.contracts[ref];
    var row := if id in db.cursors then Some(db.cursors[id]) else None;
    if row.Some? && row.value.completed {
      return Ok(SourceResult(c.name, ChainName(c.chain), 0, false, true));
    }
    var cursor := if row.Some? then row.value.cursor else None;
    var data := Moralis.GetErc1155Transfers(c.address, ChainName(c.chain), cursor, None, setup.moralisKey, setup.nftFetch);
    if data.Err? {
      return Err(data.error);
    }
    var page := data.value;
    var processed := WriteNfts(db, page.result, id, c.chain, setup);
    var hasMore := HasMore(page.cursor);
    var lastBlock :=
      if |page.result| > 0 then page.result[|page.result| - 1].blockNumber
      else if row.Some? then row.value.lastBlock else 0;
    db.UpsertCursorRow(SyncCursor(id, page.cursor, lastBlock, !hasMore));
    r := Ok(SourceResult(c.name, ChainName(c.chain), processed, hasMore, !hasMore));
  }

  /** The loop over an NFT page. */
  method WriteNfts(db: Database, items: seq<Moralis.NftTransferItem>, contractId: string, chain: Chain, setup: Setup) returns (processed: nat)
    modifies db
    ensures Progress(db.State(), processed) == NftItems(old(db.State()), items, contractId, chain, setup)
  {
    ghost var s0 := db.State();
    processed := 0;
    for n := 0 to |items|
      invariant Progress(db.State(), processed) == NftItems(s0, items[..n], contractId, chain, setup)
    {
      assert items[..n + 1][..n] == items[..n];
      WriteNft(db, items[n], contractId, chain, setup);
      processed := processed + 1;
    }
    assert items[..|items|] == items;
  }

  /** One iteration of the NFT loop. The seller set is the same value the
      route builds once before the loop. */
  method WriteNft(db: Database, t: Moralis.NftTransferItem, contractId: string, chain: Chain, setup: Setup)
    modifies db
    ensures db.State() == NftWrite(old(db.State()), t, contractId, chain, setup)
  {
    var sellers := SellerAddresses(setup);
    var price: Option<real> := None;
    if Priced(t, sellers) {
      var r := GetTokenPrice(db, NativeCurrency(chain), t.blockTimestamp, setup.priceKey, setup.priceFetch);
      price := PriceOf(r);
    }
    db.UpsertNftRow(NftRow(t, contractId, chain, sellers, price));
  }
}
