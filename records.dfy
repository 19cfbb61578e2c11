/** The rows of the tracker's tables (lib/pearls/types.ts). The generated
    `id` and `created_at` / `updated_at` columns are left out: a row is
    identified by the columns its upserts conflict on. */
module Records {
  import opened Wrappers
  import opened Config

  /** A row of `contracts`: a tracked ERC-1155 collection on one chain. */
  datatype Contract = Contract(id: string, chain: Chain, address: string, name: string, kind: ContractType)

  /** A row of `nft_transfers`. */
  datatype NftTransfer = NftTransfer(
    contractId: string,
    txHash: string,
    logIndex: int,
    blockNumber: int,
    fromAddress: string,
    toAddress: string,
    tokenId: string,
    quantity: real,
    isPurchase: bool,
    nativeValue: Option<real>,
    nativeCurrency: Option<string>,
    usdValue: Option<real>,
    isCompounded: bool,
    timestamp: string)

  /** The conflict key of `nft_transfers`: (tx_hash, log_index). */
  datatype NftKey = NftKey(txHash: string, logIndex: int)

  function NftKeyOf(t: NftTransfer): (k: NftKey)
    ensures k.txHash == t.txHash && k.logIndex == t.logIndex
  {
    NftKey(t.txHash, t.logIndex)
  }

  /** A row of `payout_transfers`: a native-token payout from a payout wallet.
      Its conflict key is tx_hash alone. */
  datatype PayoutTransfer = PayoutTransfer(
    payoutWalletId: string,
    toAddress: string,
    amount: real,
    nativeCurrency: string,
    usdValue: Option<real>,
    txHash: string,
    blockNumber: int,
    timestamp: string)

  /** A row of `sync_cursors`, keyed by contract_id (a contract id, or a
      synthetic key for a payout source). */
  datatype SyncCursor = SyncCursor(contractId: string, cursor: Option<string>, lastBlock: int, completed: bool)

  /** A row of `token_metadata`. */
  datatype TokenMetadata = TokenMetadata(contractId: string, tokenId: string, name: string, intrinsicValue: real, currency: string)

  /** The conflict key of `price_cache`: (token, date). */
  datatype PriceKey = PriceKey(token: string, date: string)

  /** The "contract_id:token_id" key the read side groups tokens by. */
  function TokenKey(contractId: string, tokenId: string): (k: string)
    ensures |k| == |contractId| + 1 + |tokenId|
    ensures k[..|contractId|] == contractId && k[|contractId|] == ':'
  {
    contractId + ":" + tokenId
  }

  /** The key is the contract id, one ':' and exactly the token id; for
      colon-free contract ids, two keys are equal only when both ids are. */
  lemma TokenKeyParts(contractId: string, tokenId: string, otherContract: string, otherToken: string)
    ensures TokenKey(contractId, tokenId)[|contractId| + 1..] == tokenId
    ensures ':' !in contractId && ':' !in otherContract && TokenKey(contractId, tokenId) == TokenKey(otherContract, otherToken)
      ==> contractId == otherContract && tokenId == otherToken
  {
    var k := TokenKey(contractId, tokenId);
    assert k[|contractId| + 1..] == tokenId;
    if ':' !in contractId && ':' !in otherContract && k == TokenKey(otherContract, otherToken) {
      assert k[|otherContract| + 1..] == otherToken;
    }
  }
}
