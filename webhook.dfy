/** The Moralis stream webhook (app/api/pearls/webhook/moralis/route.ts):
    HMAC check of the raw body, confirmed/chain filter, per-transaction
    transfer count, even split of a purchase's value, purchase
    classification, and upserts into nft_transfers and payout_transfers.
    The HMAC-SHA-256 computation, JSON.parse and the price provider are
    oracles passed in as functions. */
module Webhook {
  import opened Wrappers
  import opened Text
  import opened Config
  import opened Dates
  import opened Records
  import opened Ledger
  import opened Coingecko
  import Moralis
  import opened Sums
  import opened Seqs

  // ---------------------------------------------------------------------------
  // Signature
  // ---------------------------------------------------------------------------

  /** One byte of the HMAC digest. */
  type Byte = b: int | 0 <= b < 256

  /** A lower-case hex digit. */
  function HexDigit(d: nat): (c: char)
    requires d < 16
    ensures !('A' <= c <= 'Z')
  {
    if d < 10 then ('0' as int + d) as char else ('a' as int + d - 10) as char
  }

  /** A byte's high hex digit. */
  function High(b: Byte): (d: nat)
    ensures d < 16
  {
    b / 16
  }

  /** A byte's low hex digit. */
  function Low(b: Byte): (d: nat)
    ensures d < 16
  {
    b % 16
  }

  /** `b.toString(16).padStart(2, '0')`. */
  function HexByte(b: Byte): (h: string)
    ensures h == [HexDigit(High(b)), HexDigit(Low(b))]
  {
    var digits := if b < 16 then [HexDigit(b)] else [HexDigit(High(b)), HexDigit(Low(b))];
    var h := PadStart(digits, 2, '0');
    assert h[|h| - |digits|..] == digits;
    h
  }

  /** The two digits determine the byte. */
  lemma ByteDigits(b: Byte)
    ensures b == 16 * High(b) + Low(b)
  {
  }

  /** The digest as the route renders it: two lower-case hex digits per byte. */
  function Hex(bytes: seq<Byte>): (h: string)
    ensures |h| == 2 * |bytes|
  {
    if bytes == [] then [] else HexByte(bytes[0]) + Hex(bytes[1..])
  }

  predicate NoUpper(s: string) {
    forall i :: 0 <= i < |s| ==> !('A' <= s[i] <= 'Z')
  }

  /** No character of a rendering is an upper-case letter. */
  lemma {:induction false} HexNoUpper(bytes: seq<Byte>)
    ensures NoUpper(Hex(bytes))
  {
    if bytes != [] {
      HexNoUpper(bytes[1..]);
      HexByteNoUpper(bytes[0]);
      NoUpperConcat(HexByte(bytes[0]), Hex(bytes[1..]));
    }
  }

  lemma HexByteNoUpper(b: Byte)
    ensures NoUpper(HexByte(b))
  {
    var hi, lo := HexDigit(High(b)), HexDigit(Low(b));
    PairNoUpper(hi, lo);
  }

  lemma PairNoUpper(hi: char, lo: char)
    requires !('A' <= hi <= 'Z') && !('A' <= lo <= 'Z')
    ensures NoUpper([hi, lo])
  {
    var h := [hi, lo];
    assert h[0] == hi && h[1] == lo;
  }

  lemma NoUpperConcat(a: string, b: string)
    requires NoUpper(a) && NoUpper(b)
    ensures NoUpper(a + b)
  {
    forall i | 0 <= i < |a + b|
      ensures !('A' <= (a + b)[i] <= 'Z')
    {
      if i >= |a| {
        assert (a + b)[i] == b[i - |a|];
      }
    }
  }

  /** The rendering is already lower case, so `toLowerCase` leaves it alone. */
  lemma HexIsLower(bytes: seq<Byte>)
    ensures Lower(Hex(bytes)) == Hex(bytes)
  {
    HexNoUpper(bytes);
  }

  lemma HexDigitInjective(a: nat, b: nat)
    requires a < 16 && b < 16
    ensures HexDigit(a) == HexDigit(b) ==> a == b
  {
  }

  /** Different digests render differently. */
  lemma {:induction false} HexInjective(a: seq<Byte>, b: seq<Byte>)
    ensures Hex(a) == Hex(b) ==> a == b
  {
    if Hex(a) == Hex(b) && a != [] {
      HexHeadTail(a, b);
      HexInjective(a[1..], b[1..]);
      SameHeadTail(a, b);
    }
  }

  /** Equal renderings of non-empty digests agree on the first byte and on
      the rendering of the rest. */
  lemma HexHeadTail(a: seq<Byte>, b: seq<Byte>)
    requires Hex(a) == Hex(b) && a != []
    ensures b != [] && a[0] == b[0] && Hex(a[1..]) == Hex(b[1..])
  {
    assert |b| == |a|;
    HexSplit(a);
    HexSplit(b);
    HexByteInjective(a[0], b[0]);
  }

  lemma SameHeadTail(a: seq<Byte>, b: seq<Byte>)
    requires a != [] && b != [] && a[0] == b[0] && a[1..] == b[1..]
    ensures a == b
  {
    assert a == [a[0]] + a[1..];
    assert b == [b[0]] + b[1..];
  }

  /** The first two characters render the first byte, the rest the others. */
  lemma HexSplit(a: seq<Byte>)
    requires a != []
    ensures Hex(a)[..2] == HexByte(a[0]) && Hex(a)[2..] == Hex(a[1..])
  {
    assert Hex(a) == HexByte(a[0]) + Hex(a[1..]);
    ConcatSplit(HexByte(a[0]), Hex(a[1..]));
  }

  lemma HexByteInjective(x: Byte, y: Byte)
    requires HexByte(x) == HexByte(y)
    ensures x == y
  {
    ByteDigits(x);
    ByteDigits(y);
    assert HexByte(x)[0] == HexByte(y)[0] && HexByte(x)[1] == HexByte(y)[1];
    HexDigitInjective(High(x), High(y));
    HexDigitInjective(Low(x), Low(y));
  }

  /** JavaScript's `^` on two non-negative code units, bit by bit. */
  function Xor(a: nat, b: nat): nat
    decreases a + b
  {
    if a == 0 && b == 0 then 0
    else 2 * Xor(a / 2, b / 2) + (if a % 2 != b % 2 then 1 else 0)
  }

  /** JavaScript's `|` on two non-negative values, bit by bit. */
  function BitOr(a: nat, b: nat): nat
    decreases a + b
  {
    if a == 0 && b == 0 then 0
    else 2 * BitOr(a / 2, b / 2) + (if a % 2 == 1 || b % 2 == 1 then 1 else 0)
  }

  lemma {:induction false} XorZero(a: nat, b: nat)
    ensures Xor(a, b) == 0 <==> a == b
    decreases a + b
  {
    if !(a == 0 && b == 0) {
      XorZero(a / 2, b / 2);
    }
  }

  lemma {:induction false} BitOrZero(a: nat, b: nat)
    ensures BitOr(a, b) == 0 <==> a == 0 && b == 0
    decreases a + b
  {
    if !(a == 0 && b == 0) {
      BitOrZero(a / 2, b / 2);
    }
  }

  /** What verifySignature decides: a configured, non-empty secret, and the
      digest of the raw body under it, rendered in hex, equal to the
      lower-cased signature. `hmac` is HMAC-SHA-256 of RFC 2104. */
  predicate SignatureValid(body: string, signature: string, secret: Option<string>, hmac: (string, string) -> seq<Byte>) {
    secret.Some? && secret.value != "" && Hex(hmac(secret.value, body)) == Lower(signature)
  }

  /** verifySignature: the length test, then the XOR/OR scan over every
      code unit, true when no bit differed. */
  method VerifySignature(body: string, signature: string, secret: Option<string>, hmac: (string, string) -> seq<Byte>)
    returns (ok: bool)
    ensures ok == SignatureValid(body, signature, secret, hmac)
  {
    if secret.None? || secret.value == "" {
      return false;
    }
    var computed := Hex(hmac(secret.value, body));
    var target := Lower(signature);
    if |computed| != |target| {
      return false;
    }
    ok := ScanEqual(computed, target);
  }

  /** The comparison loop of verifySignature: OR together the XOR of every
      pair of code units, so every position is visited; zero means equal. */
  method ScanEqual(computed: string, target: string) returns (equal: bool)
    requires |computed| == |target|
    ensures equal <==> computed == target
  {
    var result: nat := 0;
    for i := 0 to |computed|
      invariant result == 0 <==> computed[..i] == target[..i]
    {
      var x := Xor(computed[i] as int, target[i] as int);
      XorZero(computed[i] as int, target[i] as int);
      BitOrZero(result, x);
      assert computed[..i + 1] == computed[..i] + [computed[i]];
      assert target[..i + 1] == target[..i] + [target[i]];
      result := BitOr(result, x);
    }
    assert computed[..|computed|] == computed && target[..|target|] == target;
    equal := result == 0;
  }

  /** Without a secret, or with a signature whose length is not that of the
      rendered digest, nothing is accepted; the signature's letter case does
      not matter; and the one accepted signature (up to case) is the digest's
      rendering. */
  lemma SignatureFacts(body: string, signature: string, secret: Option<string>, hmac: (string, string) -> seq<Byte>)
    ensures secret.None? || secret.value == "" ==> !SignatureValid(body, signature, secret, hmac)
    ensures secret.Some? && |signature| != 2 * |hmac(secret.value, body)| ==> !SignatureValid(body, signature, secret, hmac)
    ensures SignatureValid(body, signature, secret, hmac) <==> SignatureValid(body, Lower(signature), secret, hmac)
    ensures secret.Some? && secret.value != "" ==> SignatureValid(body, Hex(hmac(secret.value, body)), secret, hmac)
  {
    LowerIdempotent(signature);
    if secret.Some? {
      HexIsLower(hmac(secret.value, body));
    }
  }

  /** Two bodies are accepted under one signature only if their digests agree. */
  lemma SignatureBindsDigest(body: string, other: string, signature: string, secret: Option<string>, hmac: (string, string) -> seq<Byte>)
    requires SignatureValid(body, signature, secret, hmac) && SignatureValid(other, signature, secret, hmac)
    ensures hmac(secret.value, body) == hmac(secret.value, other)
  {
    HexInjective(hmac(secret.value, body), hmac(secret.value, other));
  }

  // ---------------------------------------------------------------------------
  // The stream body
  // ---------------------------------------------------------------------------

  /** One entry of `erc1155Transfers`, under its snake_case field names;
      absent fields are None. Numbers arrive as decimal strings. */
  datatype Erc1155Entry = Erc1155Entry(
    transactionHash: string,
    logIndex: Option<int>,
    fromAddress: string,
    toAddress: string,
    contractAddress: string,
    tokenId: Option<string>,
    amount: Option<DigitString>,
    value: Option<DigitString>)

  /** One entry of `nativeTransfers`. */
  datatype NativeEntry = NativeEntry(transactionHash: string, fromAddress: string, toAddress: string, value: DigitString)

  /** The parsed body: confirmation flag, chain id, the block, and the two transfer lists. */
  datatype StreamBody = StreamBody(
    confirmed: bool,
    chainId: string,
    blockNumber: int,
    blockTime: Instant,
    erc1155Transfers: seq<Erc1155Entry>,
    nativeTransfers: seq<NativeEntry>)

  /** The answer of the route. */
  datatype WebhookResponse = InvalidSignature | Skipped(reason: string) | Processed | InternalError {
    function Status(): int {
      match this
      case InvalidSignature => 401
      case InternalError => 500
      case _ => 200
    }
  }

  /** What one body is processed against: its chain and block, the read-only
      tables, and the price provider. */
  datatype Context = Context(
    chain: Chain,
    blockNumber: int,
    at: Instant,
    contracts: map<ContractRef, string>,
    payoutWallets: map<string, string>,
    apiKey: Option<string>,
    fetch: HttpRequest -> HttpOutcome<Option<real>>)

  // ---------------------------------------------------------------------------
  // Per-transaction count and the value split
  // ---------------------------------------------------------------------------

  /** How many entries carry the transaction hash. */
  function CountOf(entries: seq<Erc1155Entry>, h: string): nat {
    if entries == [] then 0
    else CountOf(entries[..|entries| - 1], h) + (if entries[|entries| - 1].transactionHash == h then 1 else 0)
  }

  /** `txTransferCount.get(txHash) ?? 1`. */
  function Divisor(all: seq<Erc1155Entry>, h: string): (n: nat)
    ensures n >= 1
  {
    if CountOf(all, h) == 0 then 1 else CountOf(all, h)
  }

  /** The pre-count loop: one increment per entry, keyed by transaction hash. */
  method CountPerTx(entries: seq<Erc1155Entry>) returns (counts: map<string, nat>)
    ensures forall h :: h in counts <==> CountOf(entries, h) > 0
    ensures forall h :: h in counts ==> counts[h] == CountOf(entries, h)
  {
    counts := map[];
    for n := 0 to |entries|
      invariant forall h :: h in counts <==> CountOf(entries[..n], h) > 0
      invariant forall h :: h in counts ==> counts[h] == CountOf(entries[..n], h)
    {
      var h := entries[n].transactionHash;
      assert entries[..n + 1][..n] == entries[..n];
      counts := counts[h := (if h in counts then counts[h] else 0) + 1];
    }
    assert entries[..|entries|] == entries;
  }

  /** `transfer.value ? Number(transfer.value) / 1e18 : 0`. */
  function TxValue(value: Option<DigitString>): (v: real)
    ensures v >= 0.0
    ensures v > 0.0 <==> value.Some? && DecimalValue(value.value) > 0
  {
    if value.None? || value.value == "" then 0.0 else NativeAmount(DecimalValue(value.value))
  }

  /** `Number(transfer.amount ?? 1)`: an absent amount is one, an empty one zero. */
  function Quantity(amount: Option<DigitString>): real {
    if amount.None? then 1.0 else DecimalValue(amount.value) as real
  }

  /** The native_value stored for an entry: its value split evenly over the
      entries of its transaction, for purchases only. */
  function NativeShare(e: Erc1155Entry, transfersInTx: nat): (v: Option<real>)
    requires transfersInTx >= 1
    ensures v.Some? <==> TxValue(e.value) > 0.0
    ensures v.Some? ==> v.value * transfersInTx as real == TxValue(e.value)
  {
    if TxValue(e.value) > 0.0 then Some(TxValue(e.value) / transfersInTx as real) else None
  }

  // ---------------------------------------------------------------------------
  // Rows
  // ---------------------------------------------------------------------------

  /** The contracts row of an entry: its lower-cased contract address on the body's chain. */
  function ContractOf(e: Erc1155Entry, ctx: Context): Option<string> {
    var ref := ContractRef(Lower(e.contractAddress), ChainName(ctx.chain));
    if ref in ctx.contracts then Some(ctx.contracts[ref]) else None
  }

  /** An entry prices its row exactly when its contract is known and it is a purchase. */
  predicate NftLooksUp(e: Erc1155Entry, ctx: Context) {
    ContractOf(e, ctx).Some? && TxValue(e.value) > 0.0
  }

  /** The nft_transfers payload of an entry; `price` is the USD price when
      the lookup succeeded. is_compounded is not part of the payload. */
  function NftRow(e: Erc1155Entry, contractId: string, transfersInTx: nat, price: Option<real>, ctx: Context): (row: NftTransfer)
    requires transfersInTx >= 1
    ensures row.isPurchase <==> e.value.Some? && DecimalValue(e.value.value) > 0
    ensures row.nativeCurrency == if row.isPurchase then Some(NativeCurrency(ctx.chain)) else None
    ensures row.nativeValue == NativeShare(e, transfersInTx)
    ensures row.usdValue.Some? <==> row.isPurchase && price.Some?
    ensures row.usdValue.Some? ==> row.usdValue.value == row.nativeValue.value * price.value
    ensures NftKeyOf(row) == NftKey(e.transactionHash, e.logIndex.GetOr(0))
    ensures row.contractId == contractId && row.timestamp == ctx.at.iso && row.blockNumber == ctx.blockNumber
    ensures row.fromAddress == Lower(e.fromAddress) && row.toAddress == Lower(e.toAddress)
    ensures row.tokenId == e.tokenId.GetOr("0") && row.quantity == Quantity(e.amount)
  {
    var isPurchase := TxValue(e.value) > 0.0;
    var nativeValue := NativeShare(e, transfersInTx);
    NftTransfer(
      contractId, e.transactionHash, e.logIndex.GetOr(0), ctx.blockNumber,
      Lower(e.fromAddress), Lower(e.toAddress), e.tokenId.GetOr("0"), Quantity(e.amount),
      isPurchase, nativeValue,
      if isPurchase then Some(NativeCurrency(ctx.chain)) else None,
      if isPurchase && price.Some? then Some(nativeValue.value * price.value) else None,
      false, ctx.at.iso)
  }

  /** The lower-cased addresses of payout_wallets (loadPayoutAddresses). */
  function PayoutAddresses(payoutWallets: map<string, string>): set<string> {
    set a | a in payoutWallets :: Lower(a)
  }

  /** The payout wallet a native transfer is from: the lower-cased sender
      must be among the lower-cased payout addresses, and then be stored
      exactly so. */
  function PayoutWalletOf(e: NativeEntry, ctx: Context): Option<string> {
    var from := Lower(e.fromAddress);
    if from !in PayoutAddresses(ctx.payoutWallets) then None
    else if from !in ctx.payoutWallets then None
    else Some(ctx.payoutWallets[from])
  }

  /** The payout_transfers payload of a native transfer from a payout wallet. */
  function PayoutRow(e: NativeEntry, walletId: string, price: Option<real>, ctx: Context): (row: PayoutTransfer)
    ensures row.amount == NativeAmount(DecimalValue(e.value))
    ensures row.nativeCurrency == NativeCurrency(ctx.chain)
    ensures row.usdValue.Some? <==> price.Some?
    ensures row.usdValue.Some? ==> row.usdValue.value == row.amount * price.value
    ensures row.txHash == e.transactionHash && row.payoutWalletId == walletId
    ensures row.toAddress == Lower(e.toAddress)
  {
    var amount := NativeAmount(DecimalValue(e.value));
    PayoutTransfer(walletId, Lower(e.toAddress), amount, NativeCurrency(ctx.chain),
      if price.Some? then Some(amount * price.value) else None,
      e.transactionHash, ctx.blockNumber, ctx.at.iso)
  }

  // ---------------------------------------------------------------------------
  // The pipeline, step by step
  // ---------------------------------------------------------------------------

  /** The block's price lookup: getTokenPrice of the chain's native currency at the block time. */
  function Lookup(prices: map<PriceKey, real>, ctx: Context): (Result<real, PriceError>, map<PriceKey, real>) {
    TokenPrice(prices, NativeCurrency(ctx.chain), ctx.at, ctx.apiKey, ctx.fetch)
  }

  /** One iteration of the erc1155Transfers loop. */
  function NftStep(s: LedgerState, e: Erc1155Entry, all: seq<Erc1155Entry>, ctx: Context): LedgerState {
    match ContractOf(e, ctx)
    case None => s
    case Some(id) =>
      if TxValue(e.value) > 0.0 then
        var (r, prices) := Lookup(s.prices, ctx);
        s.(nfts := UpsertNft(s.nfts, NftRow(e, id, Divisor(all, e.transactionHash), PriceOf(r), ctx)), prices := prices)
      else
        s.(nfts := UpsertNft(s.nfts, NftRow(e, id, Divisor(all, e.transactionHash), None, ctx)))
  }

  /** The erc1155Transfers loop over a prefix of the entries. */
  function ProcessNfts(s: LedgerState, es: seq<Erc1155Entry>, all: seq<Erc1155Entry>, ctx: Context): LedgerState {
    if es == [] then s
    else NftStep(ProcessNfts(s, es[..|es| - 1], all, ctx), es[|es| - 1], all, ctx)
  }

  /** One iteration of the nativeTransfers loop. */
  function NativeStep(s: LedgerState, e: NativeEntry, ctx: Context): LedgerState {
    match PayoutWalletOf(e, ctx)
    case None => s
    case Some(walletId) =>
      var (r, prices) := Lookup(s.prices, ctx);
      s.(payouts := UpsertPayout(s.payouts, PayoutRow(e, walletId, PriceOf(r), ctx)), prices := prices)
  }

  function ProcessNatives(s: LedgerState, es: seq<NativeEntry>, ctx: Context): LedgerState {
    if es == [] then s
    else NativeStep(ProcessNatives(s, es[..|es| - 1], ctx), es[|es| - 1], ctx)
  }

  /** The route: the response and the tables afterwards. `parse` is
      JSON.parse of the raw body (None when it throws). */
  function HandleSpec(s: LedgerState, contracts: map<ContractRef, string>, payoutWallets: map<string, string>,
                      rawBody: string, signature: Option<string>, secret: Option<string>,
                      hmac: (string, string) -> seq<Byte>, parse: string -> Option<StreamBody>,
                      apiKey: Option<string>, fetch: HttpRequest -> HttpOutcome<Option<real>>): (WebhookResponse, LedgerState)
  {
    if !SignatureValid(rawBody, signature.GetOr(""), secret, hmac) then (InvalidSignature, s)
    else match parse(rawBody)
      case None => (InternalError, s)
      case Some(body) =>
        if !body.confirmed then (Skipped("unconfirmed"), s)
        else match Moralis.ChainOfMoralisId(body.chainId)
          case None => (Skipped("unsupported chain"), s)
          case Some(chain) =>
            var ctx := Context(chain, body.blockNumber, body.blockTime, contracts, payoutWallets, apiKey, fetch);
            var afterNfts := ProcessNfts(s, body.erc1155Transfers, body.erc1155Transfers, ctx);
            (Processed, ProcessNatives(afterNfts, body.nativeTransfers, ctx))
  }

  // ---------------------------------------------------------------------------
  // The route handler
  // ---------------------------------------------------------------------------

  /** POST: verify, parse, filter, then the two loops against the tables. */
  method Handle(db: Database, rawBody: string, signature: Option<string>, secret: Option<string>,
                hmac: (string, string) -> seq<Byte>, parse: string -> Option<StreamBody>,
                apiKey: Option<string>, fetch: HttpRequest -> HttpOutcome<Option<real>>) returns (resp: WebhookResponse)
    modifies db
    ensures (resp, db.State()) == HandleSpec(old(db.State()), db.contracts, db.payoutWallets, rawBody, signature, secret, hmac, parse, apiKey, fetch)
  {
    var valid := VerifySignature(rawBody, signature.GetOr(""), secret, hmac);
    if !valid {
      return InvalidSignature;
    }
    var parsed := parse(rawBody);
    if parsed.None? {
      return InternalError;
    }
    var body := parsed.value;
    if !body.confirmed {
      return Skipped("unconfirmed");
    }
    var chain := Moralis.ChainOfMoralisId(body.chainId);
    if chain.None? {
      return Skipped("unsupported chain");
    }
    var ctx := Context(chain.value, body.blockNumber, body.blockTime, db.contracts, db.payoutWallets, apiKey, fetch);
    ProcessErc1155(db, body.erc1155Transfers, ctx);
    ProcessNativeTransfers(db, body.nativeTransfers, ctx);
    resp := Processed;
  }

  /** The erc1155Transfers block: pre-count, then one upsert per entry whose contract is known. */
  method ProcessErc1155(db: Database, entries: seq<Erc1155Entry>, ctx: Context)
    requires ctx.contracts == db.contracts
    modifies db
    ensures db.State() == ProcessNfts(old(db.State()), entries, entries, ctx)
  {
    var counts := CountPerTx(entries);
    ghost var s0 := db.State();
    for n := 0 to |entries|
      invariant db.State() == ProcessNfts(s0, entries[..n], entries, ctx)
    {
      assert entries[..n + 1][..n] == entries[..n];
      StoreEntry(db, entries[n], entries, counts, ctx);
    }
    assert entries[..|entries|] == entries;
  }

  /** One pass of that loop: the row of an entry whose contract is known,
      priced when the entry is a purchase. */
  method StoreEntry(db: Database, e: Erc1155Entry, all: seq<Erc1155Entry>, counts: map<string, nat>, ctx: Context)
    requires ctx.contracts == db.contracts
    requires forall h :: h in counts <==> CountOf(all, h) > 0
    requires forall h :: h in counts ==> counts[h] == CountOf(all, h)
    modifies db
    ensures db.State() == NftStep(old(db.State()), e, all, ctx)
  {
    var ref := ContractRef(Lower(e.contractAddress), ChainName(ctx.chain));
    if ref in db.contracts {
      var transfersInTx := if e.transactionHash in counts then counts[e.transactionHash] else 1;
      assert transfersInTx == Divisor(all, e.transactionHash);
      var price: Option<real> := None;
      if TxValue(e.value) > 0.0 {
        var r := GetTokenPrice(db, NativeCurrency(ctx.chain), ctx.at, ctx.apiKey, ctx.fetch);
        price := PriceOf(r);
      }
      db.UpsertNftRow(NftRow(e, db.contracts[ref], transfersInTx, price, ctx));
    }
  }

  /** The nativeTransfers block: one upsert per transfer sent by a payout wallet. */
  method ProcessNativeTransfers(db: Database, entries: seq<NativeEntry>, ctx: Context)
    requires ctx.payoutWallets == db.payoutWallets
    modifies db
    ensures db.State() == ProcessNatives(old(db.State()), entries, ctx)
  {
    var payoutAddresses := PayoutAddresses(db.payoutWallets);
    ghost var s0 := db.State();
    for n := 0 to |entries|
      invariant db.State() == ProcessNatives(s0, entries[..n], ctx)
    {
      var e := entries[n];
      assert entries[..n + 1][..n] == entries[..n];
      var from := Lower(e.fromAddress);
      if from in payoutAddresses && from in db.payoutWallets {
        var r := GetTokenPrice(db, NativeCurrency(ctx.chain), ctx.at, ctx.apiKey, ctx.fetch);
        db.UpsertPayoutRow(PayoutRow(e, db.payoutWallets[from], PriceOf(r), ctx));
      }
    }
    assert entries[..|entries|] == entries;
  }

  // ---------------------------------------------------------------------------
  // What the pipeline promises
  // ---------------------------------------------------------------------------

  /** A bad signature answers 401 before the body is parsed or a table is
      touched; an unparsable body answers 500; an unconfirmed body or an
      unknown chain answers 200 'skipped'. None of them writes. */
  lemma EarlyExits(s: LedgerState, contracts: map<ContractRef, string>, payoutWallets: map<string, string>,
                   rawBody: string, signature: Option<string>, secret: Option<string>,
                   hmac: (string, string) -> seq<Byte>, parse: string -> Option<StreamBody>,
                   apiKey: Option<string>, fetch: HttpRequest -> HttpOutcome<Option<real>>, otherParse: string -> Option<StreamBody>)
    ensures !SignatureValid(rawBody, signature.GetOr(""), secret, hmac) ==>
      HandleSpec(s, contracts, payoutWallets, rawBody, signature, secret, hmac, parse, apiKey, fetch) == (InvalidSignature, s) &&
      HandleSpec(s, contracts, payoutWallets, rawBody, signature, secret, hmac, otherParse, apiKey, fetch) == (InvalidSignature, s)
    ensures SignatureValid(rawBody, signature.GetOr(""), secret, hmac) && parse(rawBody).None? ==>
      HandleSpec(s, contracts, payoutWallets, rawBody, signature, secret, hmac, parse, apiKey, fetch) == (InternalError, s)
    ensures (SignatureValid(rawBody, signature.GetOr(""), secret, hmac) && parse(rawBody).Some?
             && (!parse(rawBody).value.confirmed || parse(rawBody).value.chainId !in {"0x89", "0x2105"})) ==>
      var (resp, after) := HandleSpec(s, contracts, payoutWallets, rawBody, signature, secret, hmac, parse, apiKey, fetch);
      resp.Skipped? && resp.Status() == 200 && after == s
  {
  }

  /** The native_values written for one transaction's entries, in entry order. */
  function SharesOf(es: seq<Erc1155Entry>, all: seq<Erc1155Entry>, h: string): real {
    if es == [] then 0.0
    else
      var e := es[|es| - 1];
      SharesOf(es[..|es| - 1], all, h) + (if e.transactionHash == h then NativeShare(e, Divisor(all, h)).GetOr(0.0) else 0.0)
  }

  lemma DivideThenMultiply(m: real, x: real, q: real)
    requires m > 0.0 && q == x / m
    ensures m * q == x
  {
  }

  /** Entries of the transaction that all store the share q add up to count times q. */
  lemma {:induction false} SharesCount(es: seq<Erc1155Entry>, all: seq<Erc1155Entry>, h: string, q: real)
    requires forall e :: e in es && e.transactionHash == h ==> NativeShare(e, Divisor(all, h)).GetOr(0.0) == q
    ensures SharesOf(es, all, h) == Times(CountOf(es, h), q)
  {
    if es != [] {
      var prefix := es[..|es| - 1];
      var e := es[|es| - 1];
      assert forall x :: x in prefix ==> x in es;
      SharesCount(prefix, all, h, q);
      if e.transactionHash == h {
        assert e in es;
      }
    }
  }

  /** The even split: when the N entries of one transaction each carry the
      transaction's value, their native_values add up to that value. The
      count is taken over all entries, before the contract filter. */
  lemma EvenSplit(all: seq<Erc1155Entry>, h: string, v: Option<DigitString>)
    requires CountOf(all, h) > 0
    requires forall e :: e in all && e.transactionHash == h ==> e.value == v
    requires v.Some? && DecimalValue(v.value) > 0
    ensures SharesOf(all, all, h) == TxValue(v)
  {
    var n := CountOf(all, h);
    var x := TxValue(v);
    var m := n as real;
    var q := x / m;
    assert Divisor(all, h) == n;
    forall e | e in all && e.transactionHash == h
      ensures NativeShare(e, Divisor(all, h)).GetOr(0.0) == q
    {
      assert e.value == v;
    }
    SharesCount(all, all, h, q);
    TimesShare(n, x);
  }

  /** n equal shares of x add back up to x. */
  lemma TimesShare(n: nat, x: real)
    requires n > 0
    ensures Times(n, x / n as real) == x
  {
    var q := x / n as real;
    TimesIsProduct(n, q);
    DivideThenMultiply(n as real, x, q);
  }

  // ---------------------------------------------------------------------------
  // One price per body
  // ---------------------------------------------------------------------------

  /** After one lookup the table is settled: asking again gives the same
      answer and writes nothing. */
  lemma PriceSettles(prices: map<PriceKey, real>, ctx: Context)
    ensures Lookup(Lookup(prices, ctx).1, ctx) == Lookup(prices, ctx)
  {
    var key := CacheKey(NativeCurrency(ctx.chain), ctx.at);
    var (r, after) := Lookup(prices, ctx);
    if key !in prices && CoinId(key.token).Some? && r.Ok? {
      assert after == prices[key := r.value];
    }
  }

  /** The rows the erc1155Transfers loop upserts, every purchase priced at `price`. */
  function NftRows(es: seq<Erc1155Entry>, all: seq<Erc1155Entry>, ctx: Context, price: Option<real>): seq<NftTransfer> {
    if es == [] then []
    else
      var e := es[|es| - 1];
      NftRows(es[..|es| - 1], all, ctx, price)
        + (if ContractOf(e, ctx).Some?
           then [NftRow(e, ContractOf(e, ctx).value, Divisor(all, e.transactionHash), if TxValue(e.value) > 0.0 then price else None, ctx)]
           else [])
  }

  /** Whether some entry asks for a price. */
  function AnyNftLookup(es: seq<Erc1155Entry>, ctx: Context): bool {
    if es == [] then false else AnyNftLookup(es[..|es| - 1], ctx) || NftLooksUp(es[|es| - 1], ctx)
  }

  function UpsertNfts(m: map<NftKey, NftTransfer>, rows: seq<NftTransfer>): map<NftKey, NftTransfer> {
    if rows == [] then m else UpsertNft(UpsertNfts(m, rows[..|rows| - 1]), rows[|rows| - 1])
  }

  /** The loop is its rows' upserts, with every lookup answering the first
      lookup's answer and the table settled once any lookup happened. */
  lemma {:induction false} NftsDecompose(s: LedgerState, es: seq<Erc1155Entry>, all: seq<Erc1155Entry>, ctx: Context,
                                         r: Result<real, PriceError>, settled: map<PriceKey, real>)
    requires Lookup(s.prices, ctx) == (r, settled) && Lookup(settled, ctx) == (r, settled)
    ensures ProcessNfts(s, es, all, ctx) ==
      s.(nfts := UpsertNfts(s.nfts, NftRows(es, all, ctx, PriceOf(r))),
         prices := if AnyNftLookup(es, ctx) then settled else s.prices)
  {
    if es != [] {
      var prefix := es[..|es| - 1];
      var e := es[|es| - 1];
      NftsDecompose(s, prefix, all, ctx, r, settled);
      var p := ProcessNfts(s, prefix, all, ctx);
      assert ProcessNfts(s, es, all, ctx) == NftStep(p, e, all, ctx);
      NftStepPriced(p, e, all, ctx, r, settled);
      var rows := NftRows(prefix, all, ctx, PriceOf(r));
      var extra := if ContractOf(e, ctx).Some?
        then [NftRow(e, ContractOf(e, ctx).value, Divisor(all, e.transactionHash), if TxValue(e.value) > 0.0 then PriceOf(r) else None, ctx)]
        else [];
      assert NftRows(es, all, ctx, PriceOf(r)) == rows + extra;
      assert AnyNftLookup(es, ctx) == (AnyNftLookup(prefix, ctx) || NftLooksUp(e, ctx));
      UpsertSnoc(s, p, NftStep(p, e, all, ctx), rows, extra, AnyNftLookup(prefix, ctx), NftLooksUp(e, ctx), settled);
    }
  }

  /** The shape of one more step of the loop: the previous state, one more
      upsert when there is a row, and the settled cache once any lookup has
      happened. */
  lemma UpsertSnoc(s: LedgerState, p: LedgerState, q: LedgerState, rows: seq<NftTransfer>, extra: seq<NftTransfer>,
                   anyBefore: bool, looks: bool, settled: map<PriceKey, real>)
    requires |extra| <= 1 && (looks ==> |extra| == 1)
    requires p == s.(nfts := UpsertNfts(s.nfts, rows), prices := if anyBefore then settled else s.prices)
    requires q == if extra == [] then p else p.(nfts := UpsertNft(p.nfts, extra[0]), prices := if looks then settled else p.prices)
    ensures q == s.(nfts := UpsertNfts(s.nfts, rows + extra), prices := if anyBefore || looks then settled else s.prices)
  {
    if extra == [] {
      assert rows + extra == rows;
    } else {
      assert (rows + extra)[..|rows|] == rows;
    }
  }

  /** One erc1155Transfers iteration when the lookup answers r and leaves
      the cache at `settled`. */
  lemma NftStepPriced(p: LedgerState, e: Erc1155Entry, all: seq<Erc1155Entry>, ctx: Context,
                      r: Result<real, PriceError>, settled: map<PriceKey, real>)
    requires Lookup(p.prices, ctx) == (r, settled)
    ensures ContractOf(e, ctx).None? ==> NftStep(p, e, all, ctx) == p
    ensures ContractOf(e, ctx).Some? ==>
      NftStep(p, e, all, ctx) ==
        p.(nfts := UpsertNft(p.nfts, NftRow(e, ContractOf(e, ctx).value, Divisor(all, e.transactionHash),
                                            if TxValue(e.value) > 0.0 then PriceOf(r) else None, ctx)),
           prices := if NftLooksUp(e, ctx) then settled else p.prices)
  {
  }

  /** The rows the nativeTransfers loop upserts, all priced at `price`. */
  function PayoutRows(es: seq<NativeEntry>, ctx: Context, price: Option<real>): seq<PayoutTransfer> {
    if es == [] then []
    else
      var e := es[|es| - 1];
      PayoutRows(es[..|es| - 1], ctx, price)
        + (if PayoutWalletOf(e, ctx).Some? then [PayoutRow(e, PayoutWalletOf(e, ctx).value, price, ctx)] else [])
  }

  function AnyPayout(es: seq<NativeEntry>, ctx: Context): bool {
    if es == [] then false else AnyPayout(es[..|es| - 1], ctx) || PayoutWalletOf(es[|es| - 1], ctx).Some?
  }

  function UpsertPayouts(m: map<string, PayoutTransfer>, rows: seq<PayoutTransfer>): map<string, PayoutTransfer> {
    if rows == [] then m else UpsertPayout(UpsertPayouts(m, rows[..|rows| - 1]), rows[|rows| - 1])
  }

  lemma {:induction false} NativesDecompose(s: LedgerState, es: seq<NativeEntry>, ctx: Context,
                                            r: Result<real, PriceError>, settled: map<PriceKey, real>)
    requires Lookup(s.prices, ctx) == (r, settled) && Lookup(settled, ctx) == (r, settled)
    ensures ProcessNatives(s, es, ctx) ==
      s.(payouts := UpsertPayouts(s.payouts, PayoutRows(es, ctx, PriceOf(r))),
         prices := if AnyPayout(es, ctx) then settled else s.prices)
  {
    if es != [] {
      var prefix := es[..|es| - 1];
      var e := es[|es| - 1];
      NativesDecompose(s, prefix, ctx, r, settled);
      var p := ProcessNatives(s, prefix, ctx);
      assert ProcessNatives(s, es, ctx) == NativeStep(p, e, ctx);
      var rows := PayoutRows(prefix, ctx, PriceOf(r));
      var extra := if PayoutWalletOf(e, ctx).Some? then [PayoutRow(e, PayoutWalletOf(e, ctx).value, PriceOf(r), ctx)] else [];
      assert PayoutRows(es, ctx, PriceOf(r)) == rows + extra;
      assert AnyPayout(es, ctx) == (AnyPayout(prefix, ctx) || PayoutWalletOf(e, ctx).Some?);
      PayoutSnoc(s, p, NativeStep(p, e, ctx), rows, extra, AnyPayout(prefix, ctx), settled);
    }
  }

  /** The payout counterpart of UpsertSnoc: every payout row looks the price up. */
  lemma PayoutSnoc(s: LedgerState, p: LedgerState, q: LedgerState, rows: seq<PayoutTransfer>, extra: seq<PayoutTransfer>,
                   anyBefore: bool, settled: map<PriceKey, real>)
    requires |extra| <= 1
    requires p == s.(payouts := UpsertPayouts(s.payouts, rows), prices := if anyBefore then settled else s.prices)
    requires q == if extra == [] then p else p.(payouts := UpsertPayout(p.payouts, extra[0]), prices := settled)
    ensures q == s.(payouts := UpsertPayouts(s.payouts, rows + extra), prices := if anyBefore || extra != [] then settled else s.prices)
  {
    if extra == [] {
      assert rows + extra == rows;
    } else {
      assert (rows + extra)[..|rows|] == rows;
    }
  }

  // ---------------------------------------------------------------------------
  // Replaying a body
  // ---------------------------------------------------------------------------

  function Get<K, V>(m: map<K, V>, k: K): Option<V> {
    if k in m then Some(m[k]) else None
  }

  lemma SameEntries<K, V>(a: map<K, V>, b: map<K, V>)
    requires forall k :: Get(a, k) == Get(b, k)
    ensures a == b
  {
    assert forall k :: k in a <==> k in b by {
      forall k ensures k in a <==> k in b {
        assert Get(a, k) == Get(b, k);
      }
    }
    forall k | k in a ensures a[k] == b[k] {
      assert Get(a, k) == Get(b, k);
    }
  }

  /** The last row of a list with the key. */
  function LastNft(rows: seq<NftTransfer>, k: NftKey): Option<NftTransfer> {
    if rows == [] then None
    else if NftKeyOf(rows[|rows| - 1]) == k then Some(rows[|rows| - 1])
    else LastNft(rows[..|rows| - 1], k)
  }

  /** After a list of upserts, a key holds the last payload with that key,
      carrying the is_compounded flag the table had before (false for a new
      row); untouched keys keep their rows. */
  lemma {:induction false} UpsertNftsAt(m: map<NftKey, NftTransfer>, rows: seq<NftTransfer>, k: NftKey)
    ensures Get(UpsertNfts(m, rows), k) ==
      match LastNft(rows, k)
      case None => Get(m, k)
      case Some(row) => Some(row.(isCompounded := k in m && m[k].isCompounded))
  {
    if rows != [] {
      UpsertNftsAt(m, rows[..|rows| - 1], k);
    }
  }

  /** Upserting the same list of rows twice is upserting it once. */
  lemma UpsertNftsTwice(m: map<NftKey, NftTransfer>, rows: seq<NftTransfer>)
    ensures UpsertNfts(UpsertNfts(m, rows), rows) == UpsertNfts(m, rows)
  {
    var once := UpsertNfts(m, rows);
    forall k ensures Get(UpsertNfts(once, rows), k) == Get(once, k) {
      UpsertNftsAt(m, rows, k);
      UpsertNftsAt(once, rows, k);
    }
    SameEntries(UpsertNfts(once, rows), once);
  }

  function LastPayout(rows: seq<PayoutTransfer>, k: string): Option<PayoutTransfer> {
    if rows == [] then None
    else if rows[|rows| - 1].txHash == k then Some(rows[|rows| - 1])
    else LastPayout(rows[..|rows| - 1], k)
  }

  /** After a list of payout upserts, a tx hash holds the last payload with that hash. */
  lemma {:induction false} UpsertPayoutsAt(m: map<string, PayoutTransfer>, rows: seq<PayoutTransfer>, k: string)
    ensures Get(UpsertPayouts(m, rows), k) == if LastPayout(rows, k).Some? then LastPayout(rows, k) else Get(m, k)
  {
    if rows != [] {
      UpsertPayoutsAt(m, rows[..|rows| - 1], k);
    }
  }

  lemma UpsertPayoutsTwice(m: map<string, PayoutTransfer>, rows: seq<PayoutTransfer>)
    ensures UpsertPayouts(UpsertPayouts(m, rows), rows) == UpsertPayouts(m, rows)
  {
    var once := UpsertPayouts(m, rows);
    forall k ensures Get(UpsertPayouts(once, rows), k) == Get(once, k) {
      UpsertPayoutsAt(m, rows, k);
      UpsertPayoutsAt(once, rows, k);
    }
    SameEntries(UpsertPayouts(once, rows), once);
  }

  /** Delivering the same body again (a webhook retry) to the same provider
      answers the same and leaves every table as after the first delivery:
      the price lookups of the second pass meet the settled cache, or the
      same provider answer. RedeliveryWithOtherProvider drops the same-answer
      assumption for a body whose price was cached. */
  lemma HandleIdempotent(s: LedgerState, contracts: map<ContractRef, string>, payoutWallets: map<string, string>,
                         rawBody: string, signature: Option<string>, secret: Option<string>,
                         hmac: (string, string) -> seq<Byte>, parse: string -> Option<StreamBody>,
                         apiKey: Option<string>, fetch: HttpRequest -> HttpOutcome<Option<real>>)
    ensures var (resp, after) := HandleSpec(s, contracts, payoutWallets, rawBody, signature, secret, hmac, parse, apiKey, fetch);
      HandleSpec(after, contracts, payoutWallets, rawBody, signature, secret, hmac, parse, apiKey, fetch) == (resp, after)
  {
    var (resp, after) := HandleSpec(s, contracts, payoutWallets, rawBody, signature, secret, hmac, parse, apiKey, fetch);
    if resp == Processed {
      var body := parse(rawBody).value;
      var chain := Moralis.ChainOfMoralisId(body.chainId).value;
      var ctx := Context(chain, body.blockNumber, body.blockTime, contracts, payoutWallets, apiKey, fetch);
      assert after == ProcessNatives(ProcessNfts(s, body.erc1155Transfers, body.erc1155Transfers, ctx), body.nativeTransfers, ctx);
      ReplayLoops(s, body.erc1155Transfers, body.nativeTransfers, ctx);
    }
  }

  /** Running both loops again over the same entries, from the state the
      first run left, changes nothing. */
  lemma ReplayLoops(s: LedgerState, es: seq<Erc1155Entry>, ns: seq<NativeEntry>, ctx: Context)
    ensures var after := ProcessNatives(ProcessNfts(s, es, es, ctx), ns, ctx);
      ProcessNatives(ProcessNfts(after, es, es, ctx), ns, ctx) == after
  {
    var (r, settled) := Lookup(s.prices, ctx);
    PriceSettles(s.prices, ctx);
    var rows := NftRows(es, es, ctx, PriceOf(r));
    var payoutRows := PayoutRows(ns, ctx, PriceOf(r));
    NftsDecompose(s, es, es, ctx, r, settled);
    var mid := ProcessNfts(s, es, es, ctx);
    NativesDecompose(mid, ns, ctx, r, settled);
    var after := ProcessNatives(mid, ns, ctx);
    NftsDecompose(after, es, es, ctx, r, settled);
    var mid2 := ProcessNfts(after, es, es, ctx);
    NativesDecompose(mid2, ns, ctx, r, settled);
    UpsertNftsTwice(s.nfts, rows);
    UpsertPayoutsTwice(s.payouts, payoutRows);
  }

  /** The price_cache key a processed body's lookups use: the chain's native
      currency on the block's UTC date. */
  function BlockPriceKey(rawBody: string, parse: string -> Option<StreamBody>): Option<PriceKey> {
    match parse(rawBody)
    case None => None
    case Some(body) =>
      match Moralis.ChainOfMoralisId(body.chainId)
      case None => None
      case Some(chain) => Some(CacheKey(NativeCurrency(chain), body.blockTime))
  }

  /** A redelivery may meet a provider that now answers differently (the
      first delivery's lookup was rate-limited, say), and another API key.
      Once the first delivery was not processed, or left the block's price in
      price_cache, the redelivery answers the same and changes nothing,
      whatever the provider now says. Without that cached price the
      redelivery asks the provider again, since a failed lookup caches
      nothing, and its rows may then gain a usd_value. */
  lemma RedeliveryWithOtherProvider(s: LedgerState, contracts: map<ContractRef, string>, payoutWallets: map<string, string>,
                                    rawBody: string, signature: Option<string>, secret: Option<string>,
                                    hmac: (string, string) -> seq<Byte>, parse: string -> Option<StreamBody>,
                                    apiKey: Option<string>, fetch: HttpRequest -> HttpOutcome<Option<real>>,
                                    laterKey: Option<string>, later: HttpRequest -> HttpOutcome<Option<real>>)
    ensures var (resp, after) := HandleSpec(s, contracts, payoutWallets, rawBody, signature, secret, hmac, parse, apiKey, fetch);
      (resp != Processed || (BlockPriceKey(rawBody, parse).Some? && BlockPriceKey(rawBody, parse).value in after.prices)) ==>
        HandleSpec(after, contracts, payoutWallets, rawBody, signature, secret, hmac, parse, laterKey, later) == (resp, after)
  {
    var (resp, after) := HandleSpec(s, contracts, payoutWallets, rawBody, signature, secret, hmac, parse, apiKey, fetch);
    if resp == Processed && BlockPriceKey(rawBody, parse).Some? && BlockPriceKey(rawBody, parse).value in after.prices {
      var body := parse(rawBody).value;
      var chain := Moralis.ChainOfMoralisId(body.chainId).value;
      var ctx := Context(chain, body.blockNumber, body.blockTime, contracts, payoutWallets, apiKey, fetch);
      var ctx2 := Context(chain, body.blockNumber, body.blockTime, contracts, payoutWallets, laterKey, later);
      assert after == ProcessNatives(ProcessNfts(s, body.erc1155Transfers, body.erc1155Transfers, ctx), body.nativeTransfers, ctx);
      ReplayWithOtherProvider(s, body.erc1155Transfers, body.nativeTransfers, ctx, ctx2);
    }
  }

  /** Both loops replayed against another provider, from the state the first
      run left, change nothing once the block's price is cached. */
  lemma ReplayWithOtherProvider(s: LedgerState, es: seq<Erc1155Entry>, ns: seq<NativeEntry>, ctx: Context, ctx2: Context)
    requires ctx2 == ctx.(apiKey := ctx2.apiKey, fetch := ctx2.fetch)
    requires CacheKey(NativeCurrency(ctx.chain), ctx.at) in ProcessNatives(ProcessNfts(s, es, es, ctx), ns, ctx).prices
    ensures var after := ProcessNatives(ProcessNfts(s, es, es, ctx), ns, ctx);
      ProcessNatives(ProcessNfts(after, es, es, ctx2), ns, ctx2) == after
  {
    var (r, settled) := Lookup(s.prices, ctx);
    PriceSettles(s.prices, ctx);
    NftsDecompose(s, es, es, ctx, r, settled);
    var mid := ProcessNfts(s, es, es, ctx);
    NativesDecompose(mid, ns, ctx, r, settled);
    var after := ProcessNatives(mid, ns, ctx);
    CachedPriceSettled(s.prices, after.prices, ctx, ctx2);
    NftsDecompose(after, es, es, ctx2, r, settled);
    var mid2 := ProcessNfts(after, es, es, ctx2);
    NativesDecompose(mid2, ns, ctx2, r, settled);
    var rows := NftRows(es, es, ctx, PriceOf(r));
    var payoutRows := PayoutRows(ns, ctx, PriceOf(r));
    NftRowsIgnoreProvider(es, es, ctx, ctx2, PriceOf(r));
    PayoutRowsIgnoreProvider(ns, ctx, ctx2, PriceOf(r));
    UpsertNftsTwice(s.nfts, rows);
    UpsertPayoutsTwice(s.payouts, payoutRows);
  }

  /** When the first lookup's key is in a table that is either the table
      before the lookup or the one after it, that table is the settled one,
      and any provider's lookup on it is a cache hit with the first answer. */
  lemma CachedPriceSettled(before: map<PriceKey, real>, now: map<PriceKey, real>, ctx: Context, ctx2: Context)
    requires ctx2 == ctx.(apiKey := ctx2.apiKey, fetch := ctx2.fetch)
    requires now == before || now == Lookup(before, ctx).1
    requires CacheKey(NativeCurrency(ctx.chain), ctx.at) in now
    ensures now == Lookup(before, ctx).1
    ensures Lookup(now, ctx2) == Lookup(before, ctx)
  {
  }

  lemma {:induction false} NftRowsIgnoreProvider(es: seq<Erc1155Entry>, all: seq<Erc1155Entry>, ctx: Context, ctx2: Context, price: Option<real>)
    requires ctx2 == ctx.(apiKey := ctx2.apiKey, fetch := ctx2.fetch)
    ensures NftRows(es, all, ctx2, price) == NftRows(es, all, ctx, price)
  {
    if es != [] {
      NftRowsIgnoreProvider(es[..|es| - 1], all, ctx, ctx2, price);
    }
  }

  lemma {:induction false} PayoutRowsIgnoreProvider(ns: seq<NativeEntry>, ctx: Context, ctx2: Context, price: Option<real>)
    requires ctx2 == ctx.(apiKey := ctx2.apiKey, fetch := ctx2.fetch)
    ensures PayoutRows(ns, ctx2, price) == PayoutRows(ns, ctx, price)
  {
    if ns != [] {
      var e := ns[|ns| - 1];
      PayoutRowsIgnoreProvider(ns[..|ns| - 1], ctx, ctx2, price);
      assert PayoutWalletOf(e, ctx2) == PayoutWalletOf(e, ctx);
      if PayoutWalletOf(e, ctx).Some? {
        assert PayoutRow(e, PayoutWalletOf(e, ctx).value, price, ctx2) == PayoutRow(e, PayoutWalletOf(e, ctx).value, price, ctx);
      }
    }
  }

  // ---------------------------------------------------------------------------
  // Filters
  // ---------------------------------------------------------------------------

  /** The entries whose contract is known. */
  function Known(es: seq<Erc1155Entry>, ctx: Context): seq<Erc1155Entry> {
    if es == [] then []
    else Known(es[..|es| - 1], ctx) + (if ContractOf(es[|es| - 1], ctx).Some? then [es[|es| - 1]] else [])
  }

  /** Entries whose contract is not in the contracts table change nothing:
      processing only the known ones, with the same pre-count, gives the
      same tables. */
  lemma {:induction false} UnknownContractsIgnored(s: LedgerState, es: seq<Erc1155Entry>, all: seq<Erc1155Entry>, ctx: Context)
    ensures ProcessNfts(s, es, all, ctx) == ProcessNfts(s, Known(es, ctx), all, ctx)
  {
    if es != [] {
      var prefix := es[..|es| - 1];
      var e := es[|es| - 1];
      UnknownContractsIgnored(s, prefix, all, ctx);
      var known := Known(prefix, ctx);
      if ContractOf(e, ctx).Some? {
        assert Known(es, ctx) == known + [e];
        assert (known + [e])[..|known|] == known;
      } else {
        assert Known(es, ctx) == known;
      }
    }
  }

  /** The two-stage payout filter is one lookup: a native transfer is
      written exactly when its lower-cased sender is a stored payout-wallet
      address. */
  lemma PayoutFilter(e: NativeEntry, ctx: Context)
    ensures PayoutWalletOf(e, ctx) ==
      if Lower(e.fromAddress) in ctx.payoutWallets then Some(ctx.payoutWallets[Lower(e.fromAddress)]) else None
  {
    var from := Lower(e.fromAddress);
    if from in ctx.payoutWallets {
      LowerIdempotent(e.fromAddress);
      assert Lower(from) == from;
      assert from in PayoutAddresses(ctx.payoutWallets);
    }
  }

  /** Payouts are keyed by tx hash alone: two payout transfers of one
      transaction leave one row, holding the later recipient. */
  lemma OneRowPerPayoutTx(s: LedgerState, first: NativeEntry, second: NativeEntry, ctx: Context)
    requires first.transactionHash == second.transactionHash
    requires Lower(first.fromAddress) in ctx.payoutWallets && Lower(second.fromAddress) in ctx.payoutWallets
    ensures var after := ProcessNatives(s, [first, second], ctx);
      && after.payouts.Keys == s.payouts.Keys + {first.transactionHash}
      && after.payouts[first.transactionHash].toAddress == Lower(second.toAddress)
      && after.payouts[first.transactionHash].payoutWalletId == ctx.payoutWallets[Lower(second.fromAddress)]
  {
    var once := ProcessNatives(s, [first], ctx);
    assert [first][..0] == [];
    assert ProcessNatives(s, [], ctx) == s;
    assert once == NativeStep(ProcessNatives(s, [first][..0], ctx), first, ctx);
    assert [first, second][..1] == [first];
    assert ProcessNatives(s, [first, second], ctx) == NativeStep(once, second, ctx);
    PayoutStep(s, first, ctx);
    PayoutStep(once, second, ctx);
  }

  /** One payout transfer from a payout wallet writes the payout row of its
      tx hash, priced by the block's lookup, and no other payout row; it
      leaves nft_transfers and sync_cursors alone. */
  lemma PayoutStep(s: LedgerState, e: NativeEntry, ctx: Context)
    requires Lower(e.fromAddress) in ctx.payoutWallets
    ensures var after := NativeStep(s, e, ctx);
      && after.payouts.Keys == s.payouts.Keys + {e.transactionHash}
      && after.payouts[e.transactionHash]
         == PayoutRow(e, ctx.payoutWallets[Lower(e.fromAddress)], PriceOf(Lookup(s.prices, ctx).0), ctx)
      && after.payouts[e.transactionHash].toAddress == Lower(e.toAddress)
      && after.payouts[e.transactionHash].payoutWalletId == ctx.payoutWallets[Lower(e.fromAddress)]
      && (forall h :: h in s.payouts && h != e.transactionHash ==> after.payouts[h] == s.payouts[h])
      && after.nfts == s.nfts && after.cursors == s.cursors
      && after.prices == Lookup(s.prices, ctx).1
  {
    PayoutFilter(e, ctx);
  }
}
