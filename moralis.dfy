/** The Moralis client of lib/pearls/moralis.ts: chain ids, headers, the
    query of the two paged transfer endpoints, error on a non-OK answer, and
    the synchronous webhook-signature placeholder. The HTTP call is an oracle
    from requests to outcomes. */
module Moralis {
  import opened Wrappers
  import opened Text
  import opened Config
  import opened Dates

  const MoralisBase: string := "https://deep-index.moralis.io/api/v2.2"

  datatype MoralisError = MissingApiKey | UnsupportedChain(chain: string) | ApiError(status: int) | NetworkError

  /** chainToMoralisId. */
  function ChainToMoralisId(chain: string): (r: Result<string, MoralisError>)
    ensures chain == "polygon" ==> r == Ok("0x89")
    ensures chain == "base" ==> r == Ok("0x2105")
    ensures chain != "polygon" && chain != "base" ==> r == Err(UnsupportedChain(chain))
  {
    match chain
    case "polygon" => Ok("0x89")
    case "base" => Ok("0x2105")
    case _ => Err(UnsupportedChain(chain))
  }

  /** The webhook's reading of a stream's chainId ('0x89' is Polygon, '0x2105' Base). */
  function ChainOfMoralisId(chainId: string): (c: Option<Chain>)
    ensures c.Some? <==> chainId == "0x89" || chainId == "0x2105"
  {
    if chainId == "0x89" then Some(Polygon)
    else if chainId == "0x2105" then Some(Base)
    else None
  }

  /** The two mappings are inverse: a chain's Moralis id reads back as the
      chain, and every id the webhook accepts is some chain's Moralis id. */
  lemma ChainIdRoundTrip(c: Chain, chainId: string)
    ensures ChainToMoralisId(ChainName(c)).Ok?
    ensures ChainOfMoralisId(ChainToMoralisId(ChainName(c)).value) == Some(c)
    ensures ChainOfMoralisId(chainId) == Some(c) ==> ChainToMoralisId(ChainName(c)) == Ok(chainId)
  {
  }

  /** getHeaders: throws when MORALIS_API_KEY is unset or empty. */
  function GetHeaders(apiKey: Option<string>): (r: Result<seq<(string, string)>, MoralisError>)
    ensures r.Err? <==> apiKey.None? || apiKey.value == ""
    ensures r.Ok? ==> ("X-API-Key", apiKey.value) in r.value && ("Accept", "application/json") in r.value
  {
    if apiKey.None? || apiKey.value == "" then Err(MissingApiKey)
    else Ok([("X-API-Key", apiKey.value), ("Accept", "application/json")])
  }

  // ---------------------------------------------------------------------------
  // Query parameters
  // ---------------------------------------------------------------------------

  /** `URLSearchParams.get`: the value of the first pair with the name. */
  function Lookup(params: seq<(string, string)>, name: string): Option<string> {
    if params == [] then None
    else if params[0].0 == name then Some(params[0].1)
    else Lookup(params[1..], name)
  }

  /** `URLSearchParams.set`: replaces the value of the first pair with the
      name and drops the others, or appends the pair when there is none. */
  function SetParam(params: seq<(string, string)>, name: string, value: string): (r: seq<(string, string)>)
  {
    if params == [] then [(name, value)]
    else if params[0].0 == name then [(name, value)] + RemoveParam(params[1..], name)
    else [params[0]] + SetParam(params[1..], name, value)
  }

  function RemoveParam(params: seq<(string, string)>, name: string): (r: seq<(string, string)>)
  {
    if params == [] then []
    else (if params[0].0 == name then [] else [params[0]]) + RemoveParam(params[1..], name)
  }

  lemma {:induction false} RemoveParamLookup(params: seq<(string, string)>, name: string, other: string)
    ensures Lookup(RemoveParam(params, name), other) == if other == name then None else Lookup(params, other)
  {
    if params != [] {
      RemoveParamLookup(params[1..], name, other);
      var rest := RemoveParam(params[1..], name);
      if params[0].0 == name {
        assert RemoveParam(params, name) == rest;
      } else {
        assert RemoveParam(params, name) == [params[0]] + rest;
        assert ([params[0]] + rest)[1..] == rest;
      }
    }
  }

  /** After `set`, the name reads back as the value and every other name
      reads as before. */
  lemma {:induction false} SetParamLookup(params: seq<(string, string)>, name: string, value: string, other: string)
    ensures Lookup(SetParam(params, name, value), other) == if other == name then Some(value) else Lookup(params, other)
  {
    if params != [] {
      var r := SetParam(params, name, value);
      if params[0].0 == name {
        RemoveParamLookup(params[1..], name, other);
        assert r[1..] == RemoveParam(params[1..], name);
      } else {
        SetParamLookup(params[1..], name, value, other);
        assert r[1..] == SetParam(params[1..], name, value);
      }
    }
  }

  function BaseQuery(chainId: string, decimalFormat: bool): seq<(string, string)> {
    if decimalFormat then [("chain", chainId), ("format", "decimal"), ("limit", "100")]
    else [("chain", chainId), ("limit", "100")]
  }

  /** The query the fetchers send: chain and limit '100' (and format
      'decimal' for the NFT endpoint), then `set` of cursor when it is truthy
      and of from_block when it is non-zero. */
  function Query(chainId: string, decimalFormat: bool, cursor: Option<string>, fromBlock: Option<int>): seq<(string, string)> {
    var base := BaseQuery(chainId, decimalFormat);
    var withCursor := if cursor.Some? && cursor.value != "" then SetParam(base, "cursor", cursor.value) else base;
    if fromBlock.Some? && fromBlock.value != 0 then SetParam(withCursor, "from_block", IntString(fromBlock.value)) else withCursor
  }

  /** The fetchers' `new URLSearchParams({...})` followed by the two conditional `set` calls. */
  method BuildQuery(chainId: string, decimalFormat: bool, cursor: Option<string>, fromBlock: Option<int>)
    returns (params: seq<(string, string)>)
    ensures params == Query(chainId, decimalFormat, cursor, fromBlock)
  {
    params := BaseQuery(chainId, decimalFormat);
    if cursor.Some? && cursor.value != "" {
      params := SetParam(params, "cursor", cursor.value);
    }
    if fromBlock.Some? && fromBlock.value != 0 {
      params := SetParam(params, "from_block", IntString(fromBlock.value));
    }
  }

  /** What each parameter of the query reads as: chain and limit '100'
      always, format 'decimal' exactly for the NFT endpoint, cursor exactly
      when it is truthy and from_block (in decimal) exactly when it is non-zero. */
  lemma QueryFacts(chainId: string, decimalFormat: bool, cursor: Option<string>, fromBlock: Option<int>)
    ensures var q := Query(chainId, decimalFormat, cursor, fromBlock);
      && Lookup(q, "chain") == Some(chainId)
      && Lookup(q, "limit") == Some("100")
      && Lookup(q, "format") == (if decimalFormat then Some("decimal") else None)
      && Lookup(q, "cursor") == (if cursor.Some? && cursor.value != "" then cursor else None)
      && Lookup(q, "from_block") == (if fromBlock.Some? && fromBlock.value != 0 then Some(IntString(fromBlock.value)) else None)
  {
    QueryLookup(chainId, decimalFormat, cursor, fromBlock, "chain");
    QueryLookup(chainId, decimalFormat, cursor, fromBlock, "limit");
    QueryLookup(chainId, decimalFormat, cursor, fromBlock, "format");
    QueryLookup(chainId, decimalFormat, cursor, fromBlock, "cursor");
    QueryLookup(chainId, decimalFormat, cursor, fromBlock, "from_block");
    BaseLookup(chainId, decimalFormat);
  }

  /** The base pairs read back as written; cursor and from_block are absent. */
  lemma BaseLookup(chainId: string, decimalFormat: bool)
    ensures var base := BaseQuery(chainId, decimalFormat);
      && Lookup(base, "chain") == Some(chainId)
      && Lookup(base, "limit") == Some("100")
      && Lookup(base, "format") == (if decimalFormat then Some("decimal") else None)
      && Lookup(base, "cursor") == None
      && Lookup(base, "from_block") == None
  {
    var base := BaseQuery(chainId, decimalFormat);
    assert "chain"[0] == 'c' && "limit"[0] == 'l' && "format"[0] == 'f' && "cursor"[0] == 'c' && "from_block"[0] == 'f';
    assert |"chain"| == 5 && |"cursor"| == 6 && |"format"| == 6 && |"from_block"| == 10;
    assert "format"[1] == 'o' && "from_block"[1] == 'r';
    var limitOnly := [("limit", "100")];
    assert limitOnly[1..] == [];
    assert Lookup(limitOnly, "format") == None && Lookup(limitOnly, "cursor") == None && Lookup(limitOnly, "from_block") == None;
    if decimalFormat {
      var rest := [("format", "decimal")] + limitOnly;
      assert rest[1..] == limitOnly;
      assert base[1..] == rest;
      assert Lookup(rest, "limit") == Some("100");
      assert Lookup(rest, "cursor") == None && Lookup(rest, "from_block") == None;
    } else {
      assert base[1..] == limitOnly;
    }
  }

  /** One name of the query, through the two conditional `set` calls. */
  lemma QueryLookup(chainId: string, decimalFormat: bool, cursor: Option<string>, fromBlock: Option<int>, n: string)
    ensures Lookup(Query(chainId, decimalFormat, cursor, fromBlock), n) ==
      if n == "from_block" && fromBlock.Some? && fromBlock.value != 0 then Some(IntString(fromBlock.value))
      else if n == "cursor" && cursor.Some? && cursor.value != "" then cursor
      else Lookup(BaseQuery(chainId, decimalFormat), n)
  {
    var base := BaseQuery(chainId, decimalFormat);
    var c := cursor.Some? && cursor.value != "";
    var cv := if c then cursor.value else "";
    var withCursor := if c then SetParam(base, "cursor", cv) else base;
    var f := fromBlock.Some? && fromBlock.value != 0;
    var fv := if f then IntString(fromBlock.value) else "";
    if f { SetParamLookup(withCursor, "from_block", fv, n); }
    if c { SetParamLookup(base, "cursor", cv, n); }
  }

  // ---------------------------------------------------------------------------
  // Pages
  // ---------------------------------------------------------------------------

  /** One entry of an NFT transfers page; numbers arrive as decimal strings. */
  datatype NftTransferItem = NftTransferItem(
    transactionHash: string,
    logIndex: int,
    blockNumber: int,
    blockTimestamp: Instant,
    fromAddress: string,
    toAddress: string,
    tokenId: string,
    amount: DigitString,
    value: DigitString)

  /** One entry of a native transfers page. */
  datatype NativeTransferItem = NativeTransferItem(
    hash: string,
    blockNumber: int,
    blockTimestamp: Instant,
    fromAddress: string,
    toAddress: string,
    value: DigitString)

  /** A page of results and the cursor of the next page (null on the last). */
  datatype Page<T> = Page(cursor: Option<string>, result: seq<T>)

  /** The request a fetcher sends once its chain id and headers are known. */
  function PageRequest(path: string, query: seq<(string, string)>, headers: seq<(string, string)>): HttpRequest {
    HttpRequest(MoralisBase + path, query, headers)
  }

  /** `res.ok` or throw with the status; no retry. */
  function ReadPage<T>(answer: HttpOutcome<Page<T>>): (r: Result<Page<T>, MoralisError>)
    ensures r.Ok? <==> answer.IsOk()
    ensures answer.Response? && !answer.IsOk() ==> r == Err(ApiError(answer.status))
  {
    if answer.NetworkFailure? then Err(NetworkError)
    else if !answer.IsOk() then Err(ApiError(answer.status))
    else Ok(answer.body)
  }

  /** A fetcher: resolve the chain id, build the query, read the headers
      (which throws before any request when the key is missing), then one request. */
  function FetchPage<T>(path: string, chain: string, decimalFormat: bool, cursor: Option<string>, fromBlock: Option<int>,
                        apiKey: Option<string>, fetch: HttpRequest -> HttpOutcome<Page<T>>): Result<Page<T>, MoralisError>
  {
    match ChainToMoralisId(chain)
    case Err(e) => Err(e)
    case Ok(chainId) =>
      match GetHeaders(apiKey)
      case Err(e) => Err(e)
      case Ok(headers) => ReadPage(fetch(PageRequest(path, Query(chainId, decimalFormat, cursor, fromBlock), headers)))
  }

  /** getErc1155Transfers. */
  function GetErc1155Transfers(contractAddress: string, chain: string, cursor: Option<string>, fromBlock: Option<int>,
                               apiKey: Option<string>, fetch: HttpRequest -> HttpOutcome<Page<NftTransferItem>>): Result<Page<NftTransferItem>, MoralisError>
  {
    FetchPage("/nft/" + contractAddress + "/transfers", chain, true, cursor, fromBlock, apiKey, fetch)
  }

  /** getNativeTransfers. */
  function GetNativeTransfers(walletAddress: string, chain: string, cursor: Option<string>, fromBlock: Option<int>,
                              apiKey: Option<string>, fetch: HttpRequest -> HttpOutcome<Page<NativeTransferItem>>): Result<Page<NativeTransferItem>, MoralisError>
  {
    FetchPage("/" + walletAddress, chain, false, cursor, fromBlock, apiKey, fetch)
  }

  /** The failure modes of a fetcher: an unsupported chain or a missing key
      fails without consulting the provider; otherwise the page is returned
      exactly when the answer is OK, and a non-OK answer fails with its status. */
  lemma FetchPageOutcome<T>(path: string, chain: string, decimalFormat: bool, cursor: Option<string>, fromBlock: Option<int>,
                            apiKey: Option<string>, fetch: HttpRequest -> HttpOutcome<Page<T>>, other: HttpRequest -> HttpOutcome<Page<T>>)
    ensures chain != "polygon" && chain != "base" ==>
      FetchPage(path, chain, decimalFormat, cursor, fromBlock, apiKey, fetch) == Err(UnsupportedChain(chain))
    ensures (chain == "polygon" || chain == "base") && (apiKey.None? || apiKey.value == "") ==>
      FetchPage(path, chain, decimalFormat, cursor, fromBlock, apiKey, fetch) == Err(MissingApiKey)
    ensures ChainToMoralisId(chain).Err? || GetHeaders(apiKey).Err? ==>
      FetchPage(path, chain, decimalFormat, cursor, fromBlock, apiKey, fetch) == FetchPage(path, chain, decimalFormat, cursor, fromBlock, apiKey, other)
    ensures ChainToMoralisId(chain).Ok? && GetHeaders(apiKey).Ok? ==>
      var answer := fetch(PageRequest(path, Query(ChainToMoralisId(chain).value, decimalFormat, cursor, fromBlock), GetHeaders(apiKey).value));
      && (FetchPage(path, chain, decimalFormat, cursor, fromBlock, apiKey, fetch).Ok? <==> answer.IsOk())
      && (answer.Response? && !answer.IsOk() ==> FetchPage(path, chain, decimalFormat, cursor, fromBlock, apiKey, fetch) == Err(ApiError(answer.status)))
  {
  }

  /** verifyWebhookSignature: false without a secret, otherwise true exactly
      when the signature is non-empty; the body is never looked at. */
  function VerifyWebhookSignature(body: string, signature: string, secret: Option<string>): (ok: bool)
    ensures ok <==> secret.Some? && secret.value != "" && signature != ""
  {
    if secret.None? || secret.value == "" then false
    else |signature| > 0 && |secret.value| > 0
  }

  /** The placeholder checks no digest: any two bodies get the same verdict. */
  lemma PlaceholderIgnoresBody(body: string, other: string, signature: string, secret: Option<string>)
    ensures VerifyWebhookSignature(body, signature, secret) == VerifyWebhookSignature(other, signature, secret)
  {
  }
}
