/** buildInventory (components/pearls/inventory-table.tsx:15-66): a wallet's
    current tokens from its received and sent transfer rows, with their
    metadata and contract types, ordered for display. */
module Inventory {
  import opened Wrappers
  import opened Text
  import opened Config
  import opened Records
  import TokenNames
  import opened Seqs

  /** A received or sent transfer row, reduced to what buildInventory reads. */
  datatype Movement = Movement(contractId: string, tokenId: string, quantity: real)

  datatype InventoryItem = InventoryItem(
    name: string,
    quantity: real,
    intrinsicValue: real,
    currency: string,
    totalNativeValue: real,
    isBooster: bool)

  function MoveKey(m: Movement): string {
    TokenKey(m.contractId, m.tokenId)
  }

  // ---------------------------------------------------------------------------
  // Specification of the three lookup maps
  // ---------------------------------------------------------------------------

  /** The summed quantity of the rows carrying key k. */
  function Total(rows: seq<Movement>, k: string): real {
    if rows == [] then 0.0
    else Total(rows[..|rows| - 1], k) + (if MoveKey(rows[|rows| - 1]) == k then rows[|rows| - 1].quantity else 0.0)
  }

  /** Net holding of key k: everything received minus everything sent. */
  function Net(received: seq<Movement>, sent: seq<Movement>, k: string): real {
    Total(received, k) - Total(sent, k)
  }

  predicate Distinct(keys: seq<string>) {
    forall i, j :: 0 <= i < j < |keys| ==> keys[i] != keys[j]
  }

  /** The keys of the rows in order of first appearance: the iteration order
      of a JavaScript Map filled by `set` calls. */
  function Order(rows: seq<Movement>): seq<string> {
    if rows == [] then []
    else
      var keys := Order(rows[..|rows| - 1]);
      var k := MoveKey(rows[|rows| - 1]);
      if k in keys then keys else keys + [k]
  }

  /** The order lists every key of the rows exactly once, and nothing else. */
  lemma {:induction false} OrderFacts(rows: seq<Movement>)
    ensures Distinct(Order(rows))
    ensures forall k :: k in Order(rows) <==> exists r :: r in rows && MoveKey(r) == k
  {
    if rows != [] {
      var init, last := rows[..|rows| - 1], rows[|rows| - 1];
      OrderFacts(init);
      assert rows == init + [last];
      assert forall r :: r in rows <==> r in init || r == last;
    }
  }

  /** The metadata row a key resolves to: the last row with that key. */
  function LastMeta(metadata: seq<TokenMetadata>, k: string): (r: Option<TokenMetadata>)
    ensures r.Some? ==> r.value in metadata && TokenNames.MetaKey(r.value) == k
  {
    if metadata == [] then None
    else if TokenNames.MetaKey(metadata[|metadata| - 1]) == k then Some(metadata[|metadata| - 1])
    else LastMeta(metadata[..|metadata| - 1], k)
  }

  /** The type a contract id resolves to: that of the last row with that id. */
  function TypeOf(contracts: seq<Contract>, id: string): (r: Option<ContractType>)
    ensures r.Some? ==> exists c :: c in contracts && c.id == id && c.kind == r.value
  {
    if contracts == [] then None
    else if contracts[|contracts| - 1].id == id then Some(contracts[|contracts| - 1].kind)
    else
      var r := TypeOf(contracts[..|contracts| - 1], id);
      assert forall c :: c in contracts[..|contracts| - 1] ==> c in contracts;
      r
  }

  /** `key.split(':')[0]`: the text before the first ':'. */
  function ContractIdOfKey(key: string): string {
    Split(key, ':')[0]
  }

  /** The object literal pushed for a key: the name, intrinsic value and
      currency of its metadata row, defaulting to the key itself, 0 and
      'POL'; a booster when its contract's type is 'booster'. */
  function MakeItem(key: string, qty: real, tm: Option<TokenMetadata>, kind: Option<ContractType>): (item: InventoryItem)
    ensures item.quantity == qty
    ensures item.totalNativeValue == qty * item.intrinsicValue
  {
    var intrinsic := if tm.Some? then tm.value.intrinsicValue else 0.0;
    InventoryItem(
      if tm.Some? then tm.value.name else key,
      qty,
      intrinsic,
      if tm.Some? then tm.value.currency else "POL",
      qty * intrinsic,
      kind == Some(Booster))
  }

  /** The item emitted for a key: its metadata is the last row with that key,
      its contract the one whose id is the key's prefix. */
  function ItemFor(key: string, qty: real, metadata: seq<TokenMetadata>, contracts: seq<Contract>): InventoryItem {
    MakeItem(key, qty, LastMeta(metadata, key), TypeOf(contracts, ContractIdOfKey(key)))
  }

  /** The keys of `order` whose net holding is positive, in order (PositiveFacts). */
  function Positive(order: seq<string>, received: seq<Movement>, sent: seq<Movement>): (keys: seq<string>)
    ensures |keys| <= |order|
  {
    if order == [] then []
    else
      var keys := Positive(order[..|order| - 1], received, sent);
      if Net(received, sent, order[|order| - 1]) > 0.0 then keys + [order[|order| - 1]] else keys
  }

  /** The positive keys are exactly the keys of `order` with a positive net
      holding, and distinct when `order` is. */
  lemma {:induction false} PositiveFacts(order: seq<string>, received: seq<Movement>, sent: seq<Movement>)
    ensures var keys := Positive(order, received, sent);
      && (forall k :: k in keys <==> k in order && Net(received, sent, k) > 0.0)
      && (Distinct(order) ==> Distinct(keys))
  {
    if order != [] {
      var init := order[..|order| - 1];
      var k := order[|order| - 1];
      PositiveFacts(init, received, sent);
      assert order == init + [k];
      assert forall x :: x in order <==> x in init || x == k;
    }
  }

  function ItemsFor(keys: seq<string>, received: seq<Movement>, sent: seq<Movement>,
                    metadata: seq<TokenMetadata>, contracts: seq<Contract>): (items: seq<InventoryItem>)
    ensures |items| == |keys|
  {
    seq(|keys|, i requires 0 <= i < |keys| => ItemFor(keys[i], Net(received, sent, keys[i]), metadata, contracts))
  }

  /** The items buildInventory pushes, before sorting: one per key with a
      positive net holding, in the order the keys first appear. */
  function Unsorted(received: seq<Movement>, sent: seq<Movement>,
                    metadata: seq<TokenMetadata>, contracts: seq<Contract>): seq<InventoryItem>
  {
    ItemsFor(Positive(Order(received + sent), received, sent), received, sent, metadata, contracts)
  }

  // ---------------------------------------------------------------------------
  // Display order
  // ---------------------------------------------------------------------------

  /** The sort comparator: pearls before boosters, POL before other
      currencies, then by total value descending. */
  function Compare(a: InventoryItem, b: InventoryItem): real {
    if a.isBooster != b.isBooster then (if a.isBooster then 1.0 else -1.0)
    else if a.currency != b.currency then (if a.currency == "POL" then -1.0 else 1.0)
    else b.totalNativeValue - a.totalNativeValue
  }

  function BoosterRank(a: InventoryItem): int {
    if a.isBooster then 1 else 0
  }

  function CurrencyRank(a: InventoryItem): int {
    if a.currency == "POL" then 0 else 1
  }

  /** a may come before b: the total preorder the comparator describes. */
  predicate InOrder(a: InventoryItem, b: InventoryItem) {
    || BoosterRank(a) < BoosterRank(b)
    || (BoosterRank(a) == BoosterRank(b) && CurrencyRank(a) < CurrencyRank(b))
    || (BoosterRank(a) == BoosterRank(b) && CurrencyRank(a) == CurrencyRank(b) && a.totalNativeValue >= b.totalNativeValue)
  }

  predicate Sorted(items: seq<InventoryItem>) {
    forall i, j :: 0 <= i < j < |items| ==> InOrder(items[i], items[j])
  }

  /** Inserts x before the first element it may precede. */
  function Insert(x: InventoryItem, items: seq<InventoryItem>): (r: seq<InventoryItem>)
    requires Sorted(items)
    ensures Sorted(r)
    ensures multiset(r) == multiset(items) + multiset{x}
    ensures r != [] && (r[0] == x || (items != [] && r[0] == items[0]))
  {
    if items == [] || InOrder(x, items[0]) then
      ConsSorted(x, items);
      [x] + items
    else
      SortedTail(items);
      var rest := Insert(x, items[1..]);
      assert items == [items[0]] + items[1..];
      assert InOrder(items[0], rest[0]);
      ConsSorted(items[0], rest);
      [items[0]] + rest
  }

  lemma SortedTail(items: seq<InventoryItem>)
    requires items != [] && Sorted(items)
    ensures Sorted(items[1..])
  {
    forall i, j | 0 <= i < j < |items| - 1 ensures InOrder(items[1..][i], items[1..][j]) {
      assert items[1..][i] == items[i + 1] && items[1..][j] == items[j + 1];
    }
  }

  /** An element that may precede the head of a sorted list keeps it sorted. */
  lemma ConsSorted(x: InventoryItem, items: seq<InventoryItem>)
    requires Sorted(items)
    requires items != [] ==> InOrder(x, items[0])
    ensures Sorted([x] + items)
  {
    var r := [x] + items;
    forall i, j | 0 <= i < j < |r| ensures InOrder(r[i], r[j]) {
      assert r[j] == items[j - 1];
      if i == 0 {
        if j > 1 {
          InOrderTransitive(x, items[0], items[j - 1]);
        }
      } else {
        assert r[i] == items[i - 1];
      }
    }
  }

  lemma InOrderTransitive(a: InventoryItem, b: InventoryItem, c: InventoryItem)
    requires InOrder(a, b) && InOrder(b, c)
    ensures InOrder(a, c)
  {
  }

  /** An insertion sort by the comparator's preorder. */
  function SortItems(items: seq<InventoryItem>): (r: seq<InventoryItem>)
    ensures Sorted(r)
    ensures multiset(r) == multiset(items)
  {
    if items == [] then []
    else
      assert items == [items[0]] + items[1..];
      Insert(items[0], SortItems(items[1..]))
  }

  /** The full result of buildInventory. */
  function InventoryOf(received: seq<Movement>, sent: seq<Movement>,
                       metadata: seq<TokenMetadata>, contracts: seq<Contract>): seq<InventoryItem>
  {
    SortItems(Unsorted(received, sent, metadata, contracts))
  }

  // ---------------------------------------------------------------------------
  // buildInventory
  // ---------------------------------------------------------------------------

  /** The `holdings` Map: first the received rows add, then the sent rows subtract. */
  method BuildHoldings(received: seq<Movement>, sent: seq<Movement>) returns (order: seq<string>, holdings: map<string, real>)
    ensures order == Order(received + sent)
    ensures holdings.Keys == set k | k in order
    ensures forall k :: k in holdings ==> holdings[k] == Net(received, sent, k)
  {
    order, holdings := AddReceived(received);
    order, holdings := SubtractSent(order, holdings, received, sent);
    assert Tallies(holdings, received, sent);
  }

  /** The first loop of the `holdings` Map: each received row adds its quantity. */
  method AddReceived(received: seq<Movement>) returns (order: seq<string>, holdings: map<string, real>)
    ensures order == Order(received)
    ensures holdings.Keys == set k | k in order
    ensures Tallies(holdings, received, [])
  {
    order := [];
    holdings := map[];
    var n := 0;
    ghost var done: seq<Movement> := [];
    while n < |received|
      invariant 0 <= n <= |received|
      invariant done == received[..n]
      invariant order == Order(done)
      invariant holdings.Keys == set k | k in order
      invariant Tallies(holdings, done, [])
    {
      var r := received[n];
      var key := MoveKey(r);
      ReceiveStep(holdings, order, done, r);
      holdings := holdings[key := (if key in holdings then holdings[key] else 0.0) + r.quantity];
      if key !in order {
        order := order + [key];
      }
      PrefixSnoc(received, n);
      done := done + [r];
      n := n + 1;
    }
    assert done == received;
  }

  /** The second loop of the `holdings` Map: each sent row subtracts its quantity. */
  method SubtractSent(order0: seq<string>, holdings0: map<string, real>, ghost received: seq<Movement>, sent: seq<Movement>)
    returns (order: seq<string>, holdings: map<string, real>)
    requires order0 == Order(received)
    requires holdings0.Keys == set k | k in order0
    requires Tallies(holdings0, received, [])
    ensures order == Order(received + sent)
    ensures holdings.Keys == set k | k in order
    ensures Tallies(holdings, received, sent)
  {
    order, holdings := order0, holdings0;
    var n := 0;
    ghost var done: seq<Movement> := [];
    assert received + done == received;
    while n < |sent|
      invariant 0 <= n <= |sent|
      invariant done == sent[..n]
      invariant order == Order(received + done)
      invariant holdings.Keys == set k | k in order
      invariant Tallies(holdings, received, done)
    {
      var s := sent[n];
      var key := MoveKey(s);
      SendStep(holdings, order, received, done, s);
      holdings := holdings[key := (if key in holdings then holdings[key] else 0.0) - s.quantity];
      if key !in order {
        order := order + [key];
      }
      PrefixSnoc(sent, n);
      done := done + [s];
      n := n + 1;
    }
    assert done == sent;
  }

  /** One pass of the first loop keeps the order, the key set and the tallies. */
  lemma ReceiveStep(holdings: map<string, real>, order: seq<string>, done: seq<Movement>, r: Movement)
    requires order == Order(done) && holdings.Keys == (set k | k in order) && Tallies(holdings, done, [])
    ensures var key := MoveKey(r);
      var h := holdings[key := (if key in holdings then holdings[key] else 0.0) + r.quantity];
      && Order(done + [r]) == (if key in order then order else order + [key])
      && h.Keys == (set k | k in Order(done + [r]))
      && Tallies(h, done + [r], [])
  {
    var key := MoveKey(r);
    KeysStep(holdings, done, r, (if key in holdings then holdings[key] else 0.0) + r.quantity);
    ReceiveTallies(holdings, done, r);
  }

  /** Adding a received row's quantity to its key keeps the tallies. */
  lemma ReceiveTallies(holdings: map<string, real>, done: seq<Movement>, r: Movement)
    requires Tallies(holdings, done, [])
    ensures var key := MoveKey(r);
      Tallies(holdings[key := (if key in holdings then holdings[key] else 0.0) + r.quantity], done + [r], [])
  {
    var key := MoveKey(r);
    var h := holdings[key := (if key in holdings then holdings[key] else 0.0) + r.quantity];
    AppendStep(done, r);
    forall k ensures (if k in h then h[k] else 0.0) == Total(done + [r], k) - Total([], k) {
      assert (if k in holdings then holdings[k] else 0.0) == Total(done, k) - Total([], k);
    }
  }

  /** One pass of the second loop keeps the order, the key set and the tallies. */
  lemma SendStep(holdings: map<string, real>, order: seq<string>, received: seq<Movement>, done: seq<Movement>, s: Movement)
    requires order == Order(received + done) && holdings.Keys == (set k | k in order) && Tallies(holdings, received, done)
    ensures var key := MoveKey(s);
      var h := holdings[key := (if key in holdings then holdings[key] else 0.0) - s.quantity];
      && Order(received + (done + [s])) == (if key in order then order else order + [key])
      && h.Keys == (set k | k in Order(received + (done + [s])))
      && Tallies(h, received, done + [s])
  {
    var key := MoveKey(s);
    SnocAfter(received, done, s);
    KeysStep(holdings, received + done, s, (if key in holdings then holdings[key] else 0.0) - s.quantity);
    SendTallies(holdings, received, done, s);
  }

  /** Subtracting a sent row's quantity from its key keeps the tallies. */
  lemma SendTallies(holdings: map<string, real>, received: seq<Movement>, done: seq<Movement>, s: Movement)
    requires Tallies(holdings, received, done)
    ensures var key := MoveKey(s);
      Tallies(holdings[key := (if key in holdings then holdings[key] else 0.0) - s.quantity], received, done + [s])
  {
    var key := MoveKey(s);
    var h := holdings[key := (if key in holdings then holdings[key] else 0.0) - s.quantity];
    AppendStep(done, s);
    forall k ensures (if k in h then h[k] else 0.0) == Total(received, k) - Total(done + [s], k) {
      assert (if k in holdings then holdings[k] else 0.0) == Total(received, k) - Total(done, k);
    }
  }

  /** Setting the key of one more row keeps the map's keys those of the order. */
  lemma KeysStep(holdings: map<string, real>, rows: seq<Movement>, r: Movement, v: real)
    requires holdings.Keys == (set k | k in Order(rows))
    ensures var key := MoveKey(r);
      && Order(rows + [r]) == (if key in Order(rows) then Order(rows) else Order(rows) + [key])
      && holdings[key := v].Keys == (set k | k in Order(rows + [r]))
  {
    AppendStep(rows, r);
    var key := MoveKey(r);
    var order := Order(rows);
    var next := if key in order then order else order + [key];
    assert forall k :: k in next <==> k in order || k == key;
    assert holdings[key := v].Keys == holdings.Keys + {key};
  }

  /** The map holds, for every key, the received total minus the sent total (0 when absent). */
  ghost predicate Tallies(holdings: map<string, real>, received: seq<Movement>, sent: seq<Movement>) {
    forall k :: (if k in holdings then holdings[k] else 0.0) == Total(received, k) - Total(sent, k)
  }

  /** One more row: its key joins the order if new, and its quantity joins its key's total. */
  lemma AppendStep(rows: seq<Movement>, r: Movement)
    ensures Order(rows + [r]) == if MoveKey(r) in Order(rows) then Order(rows) else Order(rows) + [MoveKey(r)]
    ensures forall k :: Total(rows + [r], k) == Total(rows, k) + (if MoveKey(r) == k then r.quantity else 0.0)
  {
    assert (rows + [r])[..|rows|] == rows;
  }

  /** The `metaMap` Map: each metadata row overwrites its key. */
  method BuildMetaMap(metadata: seq<TokenMetadata>) returns (metaMap: map<string, TokenMetadata>)
    ensures forall k :: (if k in metaMap then Some(metaMap[k]) else None) == LastMeta(metadata, k)
  {
    metaMap := map[];
    var n := 0;
    while n < |metadata|
      invariant 0 <= n <= |metadata|
      invariant forall k :: (if k in metaMap then Some(metaMap[k]) else None) == LastMeta(metadata[..n], k)
    {
      assert metadata[..n + 1][..n] == metadata[..n];
      metaMap := metaMap[TokenNames.MetaKey(metadata[n]) := metadata[n]];
      n := n + 1;
    }
    assert metadata[..n] == metadata;
  }

  /** The `contractTypeMap` Map: each contract row overwrites its id. */
  method BuildTypeMap(contracts: seq<Contract>) returns (types: map<string, ContractType>)
    ensures forall id :: (if id in types then Some(types[id]) else None) == TypeOf(contracts, id)
  {
    types := map[];
    var n := 0;
    while n < |contracts|
      invariant 0 <= n <= |contracts|
      invariant forall id :: (if id in types then Some(types[id]) else None) == TypeOf(contracts[..n], id)
    {
      assert contracts[..n + 1][..n] == contracts[..n];
      types := types[contracts[n].id := contracts[n].kind];
      n := n + 1;
    }
    assert contracts[..n] == contracts;
  }

  /** buildInventory: the items for every key with a positive net holding,
      in display order. */
  method BuildInventory(received: seq<Movement>, sent: seq<Movement>,
                        metadata: seq<TokenMetadata>, contracts: seq<Contract>) returns (items: seq<InventoryItem>)
    ensures items == InventoryOf(received, sent, metadata, contracts)
    ensures Sorted(items)
    ensures multiset(items) == multiset(Unsorted(received, sent, metadata, contracts))
  {
    var order, holdings := BuildHoldings(received, sent);
    var metaMap := BuildMetaMap(metadata);
    var types := BuildTypeMap(contracts);
    var unsorted := CollectItems(order, holdings, metaMap, types, received, sent, metadata, contracts);
    items := SortItems(unsorted);
  }

  /** The `items` loop: one pushed item per holding with a positive quantity,
      in the holdings' iteration order. */
  method CollectItems(order: seq<string>, holdings: map<string, real>,
                      metaMap: map<string, TokenMetadata>, types: map<string, ContractType>,
                      ghost received: seq<Movement>, ghost sent: seq<Movement>,
                      ghost metadata: seq<TokenMetadata>, ghost contracts: seq<Contract>) returns (unsorted: seq<InventoryItem>)
    requires holdings.Keys == set k | k in order
    requires forall k :: k in holdings ==> holdings[k] == Net(received, sent, k)
    requires forall k :: (if k in metaMap then Some(metaMap[k]) else None) == LastMeta(metadata, k)
    requires forall id :: (if id in types then Some(types[id]) else None) == TypeOf(contracts, id)
    ensures unsorted == ItemsFor(Positive(order, received, sent), received, sent, metadata, contracts)
  {
    unsorted := [];
    var n := 0;
    while n < |order|
      invariant 0 <= n <= |order|
      invariant unsorted == ItemsFor(Positive(order[..n], received, sent), received, sent, metadata, contracts)
    {
      unsorted := CollectOne(order, n, order[n], holdings, metaMap, types, unsorted, received, sent, metadata, contracts);
      n := n + 1;
    }
    assert order[..n] == order;
  }

  /** One pass of that loop, at the n-th key: the holding's item is pushed
      when its quantity is positive. */
  method CollectOne(ghost order: seq<string>, n: nat, key: string, holdings: map<string, real>,
                    metaMap: map<string, TokenMetadata>, types: map<string, ContractType>, unsorted: seq<InventoryItem>,
                    ghost received: seq<Movement>, ghost sent: seq<Movement>,
                    ghost metadata: seq<TokenMetadata>, ghost contracts: seq<Contract>) returns (next: seq<InventoryItem>)
    requires n < |order| && key == order[n]
    requires key in holdings && holdings[key] == Net(received, sent, key)
    requires (if key in metaMap then Some(metaMap[key]) else None) == LastMeta(metadata, key)
    requires (if ContractIdOfKey(key) in types then Some(types[ContractIdOfKey(key)]) else None)
          == TypeOf(contracts, ContractIdOfKey(key))
    requires unsorted == ItemsFor(Positive(order[..n], received, sent), received, sent, metadata, contracts)
    ensures next == ItemsFor(Positive(order[..n + 1], received, sent), received, sent, metadata, contracts)
  {
    ghost var emitted := Positive(order[..n], received, sent);
    PrefixSnoc(order, n);
    PositiveStep(order[..n], key, received, sent);
    next := unsorted;
    var qty := holdings[key];
    if qty > 0.0 {
      var item := LookupItem(key, qty, metaMap, types, metadata, contracts);
      ItemsForStep(emitted, key, received, sent, metadata, contracts);
      next := unsorted + [item];
    } else {
      assert emitted + [] == emitted;
    }
  }

  /** The body of that loop for one positive holding: the item built from
      the metadata and contract-type lookups. */
  method LookupItem(key: string, qty: real, metaMap: map<string, TokenMetadata>, types: map<string, ContractType>,
                    ghost metadata: seq<TokenMetadata>, ghost contracts: seq<Contract>) returns (item: InventoryItem)
    requires (if key in metaMap then Some(metaMap[key]) else None) == LastMeta(metadata, key)
    requires (if ContractIdOfKey(key) in types then Some(types[ContractIdOfKey(key)]) else None)
          == TypeOf(contracts, ContractIdOfKey(key))
    ensures item == ItemFor(key, qty, metadata, contracts)
  {
    var tm := if key in metaMap then Some(metaMap[key]) else None;
    var contractId := ContractIdOfKey(key);
    var kind := if contractId in types then Some(types[contractId]) else None;
    item := MakeItem(key, qty, tm, kind);
  }

  lemma PositiveStep(order: seq<string>, key: string, received: seq<Movement>, sent: seq<Movement>)
    ensures Positive(order + [key], received, sent)
      == Positive(order, received, sent) + (if Net(received, sent, key) > 0.0 then [key] else [])
  {
    assert (order + [key])[..|order|] == order;
  }

  lemma ItemsForStep(keys: seq<string>, key: string, received: seq<Movement>, sent: seq<Movement>,
                     metadata: seq<TokenMetadata>, contracts: seq<Contract>)
    ensures ItemsFor(keys + [key], received, sent, metadata, contracts)
      == ItemsFor(keys, received, sent, metadata, contracts) + [ItemFor(key, Net(received, sent, key), metadata, contracts)]
  {
  }

  // ---------------------------------------------------------------------------
  // What buildInventory promises
  // ---------------------------------------------------------------------------

  /** The emitted keys are distinct, and are exactly the keys of some received
      or sent row whose net holding is positive. */
  lemma EmittedKeys(received: seq<Movement>, sent: seq<Movement>)
    ensures var keys := Positive(Order(received + sent), received, sent);
      && Distinct(keys)
      && forall k :: k in keys <==> (exists r :: r in received + sent && MoveKey(r) == k) && Net(received, sent, k) > 0.0
  {
    OrderFacts(received + sent);
    PositiveFacts(Order(received + sent), received, sent);
  }

  /** Item i belongs to the i-th emitted key, and carries its positive net holding. */
  lemma UnsortedItems(received: seq<Movement>, sent: seq<Movement>, metadata: seq<TokenMetadata>, contracts: seq<Contract>, i: int)
    requires 0 <= i < |Positive(Order(received + sent), received, sent)|
    ensures var key := Positive(Order(received + sent), received, sent)[i];
      && Net(received, sent, key) > 0.0
      && Unsorted(received, sent, metadata, contracts)[i] == ItemFor(key, Net(received, sent, key), metadata, contracts)
  {
    var keys := Positive(Order(received + sent), received, sent);
    PositiveFacts(Order(received + sent), received, sent);
    assert keys[i] in keys;
  }

  /** The item for a key: its total is quantity times intrinsic value; with
      metadata it takes the name, intrinsic value and currency of the last
      row for the key, without it is named by the key, worth 0 and priced in
      POL; it is a booster exactly when the contract named by the key's
      prefix has type booster. */
  lemma ItemForFacts(key: string, qty: real, metadata: seq<TokenMetadata>, contracts: seq<Contract>)
    ensures var item := ItemFor(key, qty, metadata, contracts);
      var tm := LastMeta(metadata, key);
      && item.quantity == qty
      && item.totalNativeValue == qty * item.intrinsicValue
      && (tm.None? ==> item.name == key && item.intrinsicValue == 0.0 && item.currency == "POL")
      && (tm.Some? ==> item.name == tm.value.name && item.intrinsicValue == tm.value.intrinsicValue && item.currency == tm.value.currency)
      && (item.isBooster <==> TypeOf(contracts, ContractIdOfKey(key)) == Some(Booster))
  {
  }

  /** The metadata a key resolves to is the last row carrying that key, and
      there is none exactly when no row carries it. */
  lemma {:induction false} LastMetaIsLast(metadata: seq<TokenMetadata>, k: string)
    ensures LastMeta(metadata, k).None? <==> k !in TokenNames.KeysOf(metadata)
    ensures LastMeta(metadata, k).Some? ==>
      exists i :: 0 <= i < |metadata| && TokenNames.MetaKey(metadata[i]) == k
        && TokenNames.LastWithKey(metadata, i) && LastMeta(metadata, k) == Some(metadata[i])
  {
    if metadata != [] {
      var init, last := metadata[..|metadata| - 1], metadata[|metadata| - 1];
      assert metadata == init + [last];
      LastMetaIsLast(init, k);
      assert forall tm :: tm in metadata <==> tm in init || tm == last;
      if TokenNames.MetaKey(last) == k {
        assert TokenNames.LastWithKey(metadata, |metadata| - 1);
      } else if LastMeta(init, k).Some? {
        var i :| 0 <= i < |init| && TokenNames.MetaKey(init[i]) == k
          && TokenNames.LastWithKey(init, i) && LastMeta(init, k) == Some(init[i]);
        assert metadata[i] == init[i];
        assert TokenNames.LastWithKey(metadata, i);
      }
    }
  }

  /** A key's prefix before the first ':' is the contract id it was built
      from, for the colon-free ids the tables use. */
  lemma ContractIdOfTokenKey(contractId: string, tokenId: string)
    requires ':' !in contractId
    ensures ContractIdOfKey(TokenKey(contractId, tokenId)) == contractId
  {
    IndexOfAfter(contractId, ':', tokenId);
    assert TokenKey(contractId, tokenId) == contractId + [':'] + tokenId;
  }

  /** The comparator and the preorder agree whenever the two items' currencies
      are comparable (one is POL, or both are the same); for two different
      non-POL currencies the comparator is inconsistent and says "after" both ways. */
  lemma CompareAgrees(a: InventoryItem, b: InventoryItem)
    ensures a.currency == "POL" || b.currency == "POL" || a.currency == b.currency
      ==> (InOrder(a, b) <==> Compare(a, b) <= 0.0)
    ensures a.isBooster == b.isBooster && a.currency != "POL" && b.currency != "POL" && a.currency != b.currency
      ==> Compare(a, b) > 0.0 && Compare(b, a) > 0.0
  {
  }
}
