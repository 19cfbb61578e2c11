/** buildTokenNameMap (lib/pearls/token-names.ts): a lookup from
    "contract_id:token_id" to the token's display name. */
module TokenNames {
  import opened Records
  import opened Seqs

  function MetaKey(tm: TokenMetadata): string {
    TokenKey(tm.contractId, tm.tokenId)
  }

  /** The keys of a list of metadata rows. */
  function KeysOf(metadata: seq<TokenMetadata>): set<string> {
    set tm | tm in metadata :: MetaKey(tm)
  }

  /** Row i is the last row carrying its key. */
  predicate LastWithKey(metadata: seq<TokenMetadata>, i: int)
    requires 0 <= i < |metadata|
  {
    forall j :: i < j < |metadata| ==> MetaKey(metadata[j]) != MetaKey(metadata[i])
  }

  /** Every key of the map is the key of the last row carrying it, and maps to that row's name. */
  predicate NamedByLast(names: map<string, string>, metadata: seq<TokenMetadata>) {
    forall k :: k in names ==>
      exists i :: 0 <= i < |metadata| && MetaKey(metadata[i]) == k && LastWithKey(metadata, i) && names[k] == metadata[i].name
  }

  /** buildTokenNameMap: one assignment per row, in order. The keys are
      exactly the rows' keys, and a key shared by several rows holds the
      name of the last of them. */
  method BuildTokenNameMap(metadata: seq<TokenMetadata>) returns (names: map<string, string>)
    ensures names.Keys == KeysOf(metadata)
    ensures NamedByLast(names, metadata)
    ensures forall i :: 0 <= i < |metadata| && LastWithKey(metadata, i) ==> names[MetaKey(metadata[i])] == metadata[i].name
    ensures metadata == [] ==> names == map[]
  {
    names := map[];
    var n := 0;
    while n < |metadata|
      invariant 0 <= n <= |metadata|
      invariant names.Keys == KeysOf(metadata[..n])
      invariant NamedByLast(names, metadata[..n])
    {
      var tm := metadata[n];
      AssignStep(names, metadata[..n], tm);
      PrefixSnoc(metadata, n);
      names := names[MetaKey(tm) := tm.name];
      n := n + 1;
    }
    assert metadata[..n] == metadata;
    forall i | 0 <= i < |metadata| && LastWithKey(metadata, i)
      ensures names[MetaKey(metadata[i])] == metadata[i].name
    {
      assert metadata[i] in metadata;
      LastIsUnique(names, metadata, i);
    }
  }

  /** Appending a row and assigning its key keeps the characterisation. */
  lemma AssignStep(names: map<string, string>, prefix: seq<TokenMetadata>, tm: TokenMetadata)
    requires names.Keys == KeysOf(prefix) && NamedByLast(names, prefix)
    ensures names[MetaKey(tm) := tm.name].Keys == KeysOf(prefix + [tm])
    ensures NamedByLast(names[MetaKey(tm) := tm.name], prefix + [tm])
  {
    var ext := prefix + [tm];
    var updated := names[MetaKey(tm) := tm.name];
    KeysSnoc(prefix, tm);
    forall k | k in updated
      ensures exists i :: 0 <= i < |ext| && MetaKey(ext[i]) == k && LastWithKey(ext, i) && updated[k] == ext[i].name
    {
      if k == MetaKey(tm) {
        assert MetaKey(ext[|prefix|]) == k && LastWithKey(ext, |prefix|);
      } else {
        var i :| 0 <= i < |prefix| && MetaKey(prefix[i]) == k && LastWithKey(prefix, i) && names[k] == prefix[i].name;
        assert ext[i] == prefix[i];
        LastWithKeySnoc(prefix, tm, i);
      }
    }
  }

  lemma KeysSnoc(prefix: seq<TokenMetadata>, tm: TokenMetadata)
    ensures KeysOf(prefix + [tm]) == KeysOf(prefix) + {MetaKey(tm)}
  {
    var ext := prefix + [tm];
    forall k | k in KeysOf(ext) ensures k in KeysOf(prefix) + {MetaKey(tm)} {
      var t :| t in ext && MetaKey(t) == k;
      if t != tm { assert t in prefix; }
    }
    forall k | k in KeysOf(prefix) ensures k in KeysOf(ext) {
      var t :| t in prefix && MetaKey(t) == k;
      assert t in ext;
    }
    assert tm == ext[|prefix|];
  }

  /** A row stays the last with its key when a row with another key is appended. */
  lemma LastWithKeySnoc(prefix: seq<TokenMetadata>, tm: TokenMetadata, i: int)
    requires 0 <= i < |prefix| && LastWithKey(prefix, i) && MetaKey(tm) != MetaKey(prefix[i])
    ensures LastWithKey(prefix + [tm], i)
  {
    var ext := prefix + [tm];
    forall j | i < j < |ext| ensures MetaKey(ext[j]) != MetaKey(ext[i]) {
      if j < |prefix| { assert ext[j] == prefix[j]; }
    }
  }

  /** Two rows that are each the last with their key, and share it, are the same row. */
  lemma LastIsUnique(names: map<string, string>, metadata: seq<TokenMetadata>, i: int)
    requires NamedByLast(names, metadata)
    requires 0 <= i < |metadata| && LastWithKey(metadata, i)
    requires MetaKey(metadata[i]) in names
    ensures names[MetaKey(metadata[i])] == metadata[i].name
  {
    var k := MetaKey(metadata[i]);
    var j :| 0 <= j < |metadata| && MetaKey(metadata[j]) == k && LastWithKey(metadata, j) && names[k] == metadata[j].name;
    assert i == j;
  }
}
