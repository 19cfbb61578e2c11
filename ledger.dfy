/** The Supabase tables the ingestion routes write, each a map keyed by the
    columns its upserts conflict on, and the two read-only reference tables
    they look ids up in. */
module Ledger {
  import opened Wrappers
  import opened Config
  import opened Records

  /** The written tables at one moment. */
  datatype LedgerState = LedgerState(
    nfts: map<NftKey, NftTransfer>,
    payouts: map<string, PayoutTransfer>,
    cursors: map<string, SyncCursor>,
    prices: map<PriceKey, real>)

  /** The conflict key of `contracts` lookups: address and chain name. */
  datatype ContractRef = ContractRef(address: string, chain: string)

  /** An nft_transfers upsert on (tx_hash, log_index). No payload carries
      is_compounded, so an existing row keeps its flag and a new row starts
      with the column default, false; every other column comes from the payload. */
  function UpsertNft(nfts: map<NftKey, NftTransfer>, row: NftTransfer): map<NftKey, NftTransfer> {
    var key := NftKeyOf(row);
    nfts[key := row.(isCompounded := key in nfts && nfts[key].isCompounded)]
  }

  /** A payout_transfers upsert on tx_hash: the payload replaces the row. */
  function UpsertPayout(payouts: map<string, PayoutTransfer>, row: PayoutTransfer): map<string, PayoutTransfer> {
    payouts[row.txHash := row]
  }

  /** A sync_cursors upsert on contract_id. */
  function UpsertCursor(cursors: map<string, SyncCursor>, row: SyncCursor): map<string, SyncCursor> {
    cursors[row.contractId := row]
  }

  /** A price_cache upsert on (token, date). */
  function UpsertPrice(prices: map<PriceKey, real>, key: PriceKey, usdPrice: real): map<PriceKey, real> {
    prices[key := usdPrice]
  }

  /** Upserting the same payload again changes nothing. */
  lemma UpsertNftIdempotent(nfts: map<NftKey, NftTransfer>, row: NftTransfer)
    ensures UpsertNft(UpsertNft(nfts, row), row) == UpsertNft(nfts, row)
  {
    var once := UpsertNft(nfts, row);
    assert once[NftKeyOf(row)].isCompounded == (NftKeyOf(row) in nfts && nfts[NftKeyOf(row)].isCompounded);
  }

  /** An nft upsert touches only its own key, stores the payload's columns
      there and keeps that row's is_compounded flag. */
  lemma UpsertNftFrame(nfts: map<NftKey, NftTransfer>, row: NftTransfer)
    ensures var r := UpsertNft(nfts, row);
      && r.Keys == nfts.Keys + {NftKeyOf(row)}
      && (forall k :: k in nfts && k != NftKeyOf(row) ==> r[k] == nfts[k])
      && r[NftKeyOf(row)].(isCompounded := row.isCompounded) == row
      && (NftKeyOf(row) in nfts ==> r[NftKeyOf(row)].isCompounded == nfts[NftKeyOf(row)].isCompounded)
  {
  }

  /** Two payouts with one tx hash leave a single row: the later payload. */
  lemma PayoutsKeyedByTxHash(payouts: map<string, PayoutTransfer>, first: PayoutTransfer, second: PayoutTransfer)
    requires first.txHash == second.txHash
    ensures UpsertPayout(UpsertPayout(payouts, first), second) == UpsertPayout(payouts, second)
    ensures UpsertPayout(UpsertPayout(payouts, first), second)[second.txHash].toAddress == second.toAddress
  {
  }

  /** The tables, as objects the route handlers update in place. */
  class Database {
    var nfts: map<NftKey, NftTransfer>
    var payouts: map<string, PayoutTransfer>
    var cursors: map<string, SyncCursor>
    var prices: map<PriceKey, real>
    /** contracts: (address, chain) to contract id. */
    const contracts: map<ContractRef, string>
    /** payout_wallets: address as stored to wallet id. */
    const payoutWallets: map<string, string>

    constructor(contracts: map<ContractRef, string>, payoutWallets: map<string, string>, initial: LedgerState)
      ensures State() == initial
      ensures this.contracts == contracts && this.payoutWallets == payoutWallets
    {
      this.contracts := contracts;
      this.payoutWallets := payoutWallets;
      nfts := initial.nfts;
      payouts := initial.payouts;
      cursors := initial.cursors;
      prices := initial.prices;
    }

    function State(): LedgerState
      reads this
    {
      LedgerState(nfts, payouts, cursors, prices)
    }

    method UpsertNftRow(row: NftTransfer)
      modifies this
      ensures State() == old(State()).(nfts := UpsertNft(old(nfts), row))
    {
      nfts := UpsertNft(nfts, row);
    }

    method UpsertPayoutRow(row: PayoutTransfer)
      modifies this
      ensures State() == old(State()).(payouts := UpsertPayout(old(payouts), row))
    {
      payouts := UpsertPayout(payouts, row);
    }

    method UpsertCursorRow(row: SyncCursor)
      modifies this
      ensures State() == old(State()).(cursors := UpsertCursor(old(cursors), row))
    {
      cursors := UpsertCursor(cursors, row);
    }

    method UpsertPriceRow(key: PriceKey, usdPrice: real)
      modifies this
      ensures State() == old(State()).(prices := UpsertPrice(old(prices), key, usdPrice))
    {
      prices := UpsertPrice(prices, key, usdPrice);
    }

    /** `update({ is_compounded }).eq('id', …)`: sets one column of one row. */
    method SetCompounded(key: NftKey, value: bool)
      requires key in nfts
      modifies this
      ensures State() == old(State()).(nfts := old(nfts)[key := old(nfts)[key].(isCompounded := value)])
    {
      nfts := nfts[key := nfts[key].(isCompounded := value)];
    }
  }
}
