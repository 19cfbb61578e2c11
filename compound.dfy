/** The compound toggle (app/api/pearls/compound/route.ts): a guard chain
    ending in an update of one nft_transfers row's is_compounded flag. It is
    the only change a ledger row sees after its insertion. Session
    verification is an oracle; the row's generated id is represented by its
    (tx_hash, log_index) key, which identifies the same single row. */
module Compound {
  import opened Wrappers
  import opened Text
  import opened Records
  import opened Ledger

  /** What `verifySession` yields for a valid token. */
  datatype Session = Session(address: string)

  /** The JSON body's fields: `transferId` is None when transfer_id is
      missing or falsy, `isCompounded` is None when is_compounded is not a
      boolean. */
  datatype CompoundRequest = CompoundRequest(transferId: Option<NftKey>, isCompounded: Option<bool>)

  datatype CompoundResponse =
    | NotAuthenticated
    | InvalidSession
    | MissingFields
    | TransferNotFound
    | NotYourTransfer
    | NotPurchase
    | UpdateFailed
    | InternalError
    | Success(transferId: NftKey, isCompounded: bool)
  {
    function Status(): int {
      match this
      case NotAuthenticated => 401
      case InvalidSession => 401
      case MissingFields => 400
      case TransferNotFound => 404
      case NotYourTransfer => 403
      case NotPurchase => 400
      case UpdateFailed => 500
      case InternalError => 500
      case Success(_, _) => 200
    }
  }

  /** POST: the response and nft_transfers afterwards. `token` is the
      pearls-session cookie, `body` is None when the JSON does not parse,
      `serviceConfigured` is whether the service-role client can be built,
      and `updateFails` is whether Supabase reports an error on the update. */
  function CompoundSpec(nfts: map<NftKey, NftTransfer>, token: Option<string>, verify: string -> Option<Session>,
                        body: Option<CompoundRequest>, serviceConfigured: bool, updateFails: bool)
    : (CompoundResponse, map<NftKey, NftTransfer>)
  {
    if token.None? || token.value == "" then (NotAuthenticated, nfts)
    else if verify(token.value).None? then (InvalidSession, nfts)
    else if body.None? then (InternalError, nfts)
    else if body.value.transferId.None? || body.value.isCompounded.None? then (MissingFields, nfts)
    else if !serviceConfigured then (InternalError, nfts)
    else
      var key := body.value.transferId.value;
      var value := body.value.isCompounded.value;
      if key !in nfts then (TransferNotFound, nfts)
      else if nfts[key].toAddress != Lower(verify(token.value).value.address) then (NotYourTransfer, nfts)
      else if !nfts[key].isPurchase then (NotPurchase, nfts)
      else if updateFails then (UpdateFailed, nfts)
      else (Success(key, value), nfts[key := nfts[key].(isCompounded := value)])
  }

  /** Whether every guard before the update passes. */
  predicate Allowed(nfts: map<NftKey, NftTransfer>, token: Option<string>, verify: string -> Option<Session>,
                    body: Option<CompoundRequest>, serviceConfigured: bool)
  {
    && token.Some? && token.value != "" && verify(token.value).Some?
    && body.Some? && body.value.transferId.Some? && body.value.isCompounded.Some?
    && serviceConfigured
    && body.value.transferId.value in nfts
    && nfts[body.value.transferId.value].toAddress == Lower(verify(token.value).value.address)
    && nfts[body.value.transferId.value].isPurchase
  }

  /** POST, on the database. */
  method HandleCompound(db: Database, token: Option<string>, verify: string -> Option<Session>,
                        body: Option<CompoundRequest>, serviceConfigured: bool, updateFails: bool)
    returns (resp: CompoundResponse)
    modifies db
    ensures resp == CompoundSpec(old(db.nfts), token, verify, body, serviceConfigured, updateFails).0
    ensures db.State() == old(db.State()).(nfts := CompoundSpec(old(db.nfts), token, verify, body, serviceConfigured, updateFails).1)
  {
    if token.None? || token.value == "" {
      return NotAuthenticated;
    }
    var session := verify(token.value);
    if session.None? {
      return InvalidSession;
    }
    if body.None? {
      return InternalError;
    }
    if body.value.transferId.None? || body.value.isCompounded.None? {
      return MissingFields;
    }
    if !serviceConfigured {
      return InternalError;
    }
    var key := body.value.transferId.value;
    if key !in db.nfts {
      return TransferNotFound;
    }
    var transfer := db.nfts[key];
    if transfer.toAddress != Lower(session.value.address) {
      return NotYourTransfer;
    }
    if !transfer.isPurchase {
      return NotPurchase;
    }
    if updateFails {
      return UpdateFailed;
    }
    db.SetCompounded(key, body.value.isCompounded.value);
    resp := Success(key, body.value.isCompounded.value);
  }

  /** Without a session cookie, or with one that does not verify, the answer
      is 401 whatever nft_transfers holds: the table is not read. */
  lemma UnauthenticatedReadsNothing(nfts: map<NftKey, NftTransfer>, other: map<NftKey, NftTransfer>, token: Option<string>,
                                    verify: string -> Option<Session>, body: Option<CompoundRequest>, serviceConfigured: bool, updateFails: bool)
    requires token.None? || token.value == "" || verify(token.value).None?
    ensures CompoundSpec(nfts, token, verify, body, serviceConfigured, updateFails).0
         == CompoundSpec(other, token, verify, body, serviceConfigured, updateFails).0
    ensures CompoundSpec(nfts, token, verify, body, serviceConfigured, updateFails).0.Status() == 401
  {
  }

  /** Missing fields give 400 before the table is read. */
  lemma MissingFieldsBeforeLookup(nfts: map<NftKey, NftTransfer>, token: Option<string>, verify: string -> Option<Session>,
                                  body: Option<CompoundRequest>, serviceConfigured: bool, updateFails: bool)
    requires token.Some? && token.value != "" && verify(token.value).Some?
    requires body.Some? && (body.value.transferId.None? || body.value.isCompounded.None?)
    ensures CompoundSpec(nfts, token, verify, body, serviceConfigured, updateFails) == (MissingFields, nfts)
  {
  }

  /** Success exactly when every guard passes and the update reports no
      error; then the one requested row has its flag set to the requested
      value, echoed back, and every other row and column is unchanged.
      Every other outcome writes nothing. */
  lemma CompoundOutcome(nfts: map<NftKey, NftTransfer>, token: Option<string>, verify: string -> Option<Session>,
                        body: Option<CompoundRequest>, serviceConfigured: bool, updateFails: bool)
    ensures var (resp, after) := CompoundSpec(nfts, token, verify, body, serviceConfigured, updateFails);
      && (resp.Success? <==> Allowed(nfts, token, verify, body, serviceConfigured) && !updateFails)
      && (!resp.Success? ==> after == nfts)
      && (resp.Success? ==>
            var key := body.value.transferId.value;
            && resp == Success(key, body.value.isCompounded.value)
            && after.Keys == nfts.Keys
            && after[key].isCompounded == body.value.isCompounded.value
            && after[key].(isCompounded := nfts[key].isCompounded) == nfts[key]
            && (forall k :: k in nfts && k != key ==> after[k] == nfts[k]))
  {
  }

  /** The guards after the lookup apply in order: unknown row 404, another
      wallet's row 403, a non-purchase 400. */
  lemma GuardOrder(nfts: map<NftKey, NftTransfer>, token: Option<string>, verify: string -> Option<Session>,
                   key: NftKey, value: bool, updateFails: bool)
    requires token.Some? && token.value != "" && verify(token.value).Some?
    ensures var resp := CompoundSpec(nfts, token, verify, Some(CompoundRequest(Some(key), Some(value))), true, updateFails).0;
      && (key !in nfts ==> resp == TransferNotFound)
      && (key in nfts && nfts[key].toAddress != Lower(verify(token.value).value.address) ==> resp == NotYourTransfer)
      && (key in nfts && nfts[key].toAddress == Lower(verify(token.value).value.address) && !nfts[key].isPurchase ==> resp == NotPurchase)
  {
  }

  /** Repeating a request gives the same response and leaves the table as
      after the first. */
  lemma CompoundIdempotent(nfts: map<NftKey, NftTransfer>, token: Option<string>, verify: string -> Option<Session>,
                           body: Option<CompoundRequest>, serviceConfigured: bool, updateFails: bool)
    ensures var (resp, once) := CompoundSpec(nfts, token, verify, body, serviceConfigured, updateFails);
      CompoundSpec(once, token, verify, body, serviceConfigured, updateFails) == (resp, once)
  {
    var (resp, once) := CompoundSpec(nfts, token, verify, body, serviceConfigured, updateFails);
    CompoundOutcome(nfts, token, verify, body, serviceConfigured, updateFails);
    if resp.Success? {
      var key := body.value.transferId.value;
      var value := body.value.isCompounded.value;
      assert once[key].toAddress == nfts[key].toAddress && once[key].isPurchase;
      assert once[key := once[key].(isCompounded := value)] == once;
    }
  }
}
