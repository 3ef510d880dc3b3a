/** The pre-checkout sync (server/api/sync-cart.post.ts): the cart items are
    grouped by product code, both price groups of each product are fetched,
    and every item is given its current price and stock. */
module SyncCart {
  import opened Js
  import opened Text
  import opened Grouping
  import opened MapBuild

  datatype CartItem = CartItem(productCode: string, color: string, size: string, price: string)

  datatype SizeInfo = SizeInfo(name: string, displayCode: string)

  /** The `result` of one price group's details: its colour display codes, its
      sizes, `prices.base.value` and the codes of its price flags. */
  datatype PgDetail = PgDetail(colorCodes: seq<string>, sizes: seq<SizeInfo>, baseValue: Option<int>, priceFlagCodes: seq<string>)

  datatype SyncResult = SyncResult(
    productCode: string,
    color: string,
    size: string,
    currentPrice: string,
    inStock: bool,
    isPromo: bool,
    priceChanged: bool,
    stockChanged: bool)

  // ---------------------------------------------------------------
  // Grouping by product code (lines 38-44)
  // ---------------------------------------------------------------

  type CodeEntry = Entry<string, (), CartItem>

  /** An item with an empty code is skipped (`if (!code) continue`). */
  function EntryOf(item: CartItem): (r: Option<CodeEntry>)
    ensures r.Some? <==> item.productCode != ""
    ensures r.Some? ==> r.value.key == item.productCode && r.value.item == item
  {
    if item.productCode == "" then None else Some(Entry(item.productCode, (), item))
  }

  function EntriesOf(items: seq<CartItem>): (os: seq<Option<CodeEntry>>)
    ensures |os| == |items|
    ensures forall i :: 0 <= i < |items| ==> os[i] == EntryOf(items[i])
  {
    seq(|items|, i requires 0 <= i < |items| => EntryOf(items[i]))
  }

  function CodeEntries(items: seq<CartItem>): seq<CodeEntry> {
    Present(EntriesOf(items))
  }

  // ---------------------------------------------------------------
  // One product (lines 52-161)
  // ---------------------------------------------------------------

  /** Lines 52-68: the price groups 00 and 01 that returned a result, in that
      order; a failed call is dropped. */
  function PgResults(code: string, detail: (string, string) -> Option<PgDetail>): seq<PgDetail> {
    (if detail(code, "00").Some? then [detail(code, "00").value] else [])
    + (if detail(code, "01").Some? then [detail(code, "01").value] else [])
  }

  function ColorRow(pg: PgDetail): (row: seq<(string, PgDetail)>)
    ensures |row| == |pg.colorCodes|
    ensures forall j :: 0 <= j < |row| ==> row[j] == (pg.colorCodes[j], pg)
  {
    seq(|pg.colorCodes|, j requires 0 <= j < |pg.colorCodes| => (pg.colorCodes[j], pg))
  }

  function SizeRow(pg: PgDetail): (row: seq<(string, string)>)
    ensures |row| == |pg.sizes|
    ensures forall j :: 0 <= j < |row| ==> row[j] == (pg.sizes[j].name, pg.sizes[j].displayCode)
  {
    seq(|pg.sizes|, j requires 0 <= j < |pg.sizes| => (pg.sizes[j].name, pg.sizes[j].displayCode))
  }

  /** Lines 101-106: colour code to price group, a later group winning. */
  function ColorToPg(pgs: seq<PgDetail>): map<string, PgDetail> {
    Assoc(Flatten(seq(|pgs|, i requires 0 <= i < |pgs| => ColorRow(pgs[i]))))
  }

  /** Lines 109-114: size name to size display code, a later group winning. */
  function SizeMap(pgs: seq<PgDetail>): map<string, string> {
    Assoc(Flatten(seq(|pgs|, i requires 0 <= i < |pgs| => SizeRow(pgs[i]))))
  }

  /** `item.color.split(' ')[0]`: "08" from "08 DARK GRAY". */
  function ColorCode(item: CartItem): string {
    BeforeChar(item.color, ' ')
  }

  /** Line 140: the colour's price group, else the first one. */
  function PgFor(colorToPg: map<string, PgDetail>, pgs: seq<PgDetail>, colorCode: string): PgDetail
    requires pgs != []
  {
    if colorCode in colorToPg then colorToPg[colorCode] else pgs[0]
  }

  /** Lines 119-133: a size missing from the size map is out of stock without
      a probe; otherwise the probe decides (a failed probe is `false`). */
  function ItemInStock(code: string, item: CartItem, sizeMap: map<string, string>, probe: (string, string, string) -> bool): bool {
    if item.size !in sizeMap || sizeMap[item.size] == "" then false
    else probe(code, ColorCode(item), sizeMap[item.size])
  }

  /** Line 143. */
  function CurrentPrice(pg: PgDetail, item: CartItem): string {
    if pg.baseValue.Some? && pg.baseValue.value != 0 then "¥" + IntToString(pg.baseValue.value) else item.price
  }

  /** Lines 139-160. */
  function ItemResult(code: string, item: CartItem, pg: PgDetail, inStock: bool): SyncResult {
    var price := CurrentPrice(pg, item);
    SyncResult(code, item.color, item.size, price, inStock, "limitedOffer" in pg.priceFlagCodes, price != item.price, !inStock)
  }

  /** Lines 85-96: no price group answered. */
  function FailedResult(code: string, item: CartItem): SyncResult {
    SyncResult(code, item.color, item.size, item.price, false, false, false, true)
  }

  function ItemRow(code: string, item: CartItem, pgs: seq<PgDetail>, colorToPg: map<string, PgDetail>,
                   sizeMap: map<string, string>, probe: (string, string, string) -> bool): SyncResult
  {
    if pgs == [] then FailedResult(code, item)
    else ItemResult(code, item, PgFor(colorToPg, pgs, ColorCode(item)), ItemInStock(code, item, sizeMap, probe))
  }

  /** The rows of one product: one per cart item, in order. */
  function CodeResults(code: string, cartItems: seq<CartItem>, pgs: seq<PgDetail>, probe: (string, string, string) -> bool): (rs: seq<SyncResult>)
    ensures |rs| == |cartItems|
    ensures forall i :: 0 <= i < |rs| ==>
      rs[i].productCode == code && rs[i].color == cartItems[i].color && rs[i].size == cartItems[i].size
      && rs[i].stockChanged == !rs[i].inStock
      && (rs[i].priceChanged <==> rs[i].currentPrice != cartItems[i].price)
    ensures pgs == [] ==> forall i :: 0 <= i < |rs| ==>
      !rs[i].inStock && rs[i].stockChanged && !rs[i].priceChanged && !rs[i].isPromo && rs[i].currentPrice == cartItems[i].price
  {
    var cm := ColorToPg(pgs);
    var sm := SizeMap(pgs);
    seq(|cartItems|, i requires 0 <= i < |cartItems| => ItemRow(code, cartItems[i], pgs, cm, sm, probe))
  }

  /** The rows of the groups, in group order. */
  function GroupResults(gs: seq<Group<string, (), CartItem>>, detail: (string, string) -> Option<PgDetail>,
                        probe: (string, string, string) -> bool): seq<SyncResult>
  {
    if gs == [] then []
    else
      var g := gs[|gs| - 1];
      GroupResults(gs[..|gs| - 1], detail, probe) + CodeResults(g.key, g.items, PgResults(g.key, detail), probe)
  }

  /** The handler's `results`. */
  function SyncResults(items: seq<CartItem>, detail: (string, string) -> Option<PgDetail>,
                       probe: (string, string, string) -> bool): seq<SyncResult>
  {
    GroupResults(GroupBy(CodeEntries(items)), detail, probe)
  }

  predicate HasChanges(rs: seq<SyncResult>) {
    exists i :: 0 <= i < |rs| && (rs[i].priceChanged || rs[i].stockChanged)
  }

  // ---------------------------------------------------------------
  // The handler
  // ---------------------------------------------------------------

  /** Lines 116-161 for one product. */
  method ProductRows(code: string, cartItems: seq<CartItem>, pgs: seq<PgDetail>, probe: (string, string, string) -> bool)
    returns (rows: seq<SyncResult>)
    ensures rows == CodeResults(code, cartItems, pgs, probe)
  {
    var cm := AssocRows(seq(|pgs|, i requires 0 <= i < |pgs| => ColorRow(pgs[i])));
    var sm := AssocRows(seq(|pgs|, i requires 0 <= i < |pgs| => SizeRow(pgs[i])));
    rows := [];
    var i := 0;
    while i < |cartItems|
      invariant 0 <= i <= |cartItems| && |rows| == i
      invariant forall m :: 0 <= m < i ==> rows[m] == ItemRow(code, cartItems[m], pgs, cm, sm, probe)
    {
      var item := cartItems[i];
      var row: SyncResult;
      if pgs == [] {
        row := FailedResult(code, item);
      } else {
        var inStock := ItemInStock(code, item, sm, probe);
        row := ItemResult(code, item, PgFor(cm, pgs, ColorCode(item)), inStock);
      }
      rows := rows + [row];
      i := i + 1;
    }
  }

  /** server/api/sync-cart.post.ts:23-171: the detail calls and the probes
      are the oracles `detail(code, priceGroup)` and
      `probe(code, colorCode, sizeCode)`. */
  method SyncCart(items: seq<CartItem>, detail: (string, string) -> Option<PgDetail>, probe: (string, string, string) -> bool)
    returns (results: seq<SyncResult>, hasChanges: bool)
    ensures results == SyncResults(items, detail, probe)
    ensures hasChanges <==> HasChanges(results)
  {
    if |items| == 0 {
      EmptyCart(detail, probe);
      return [], false;
    }
    var grouped := GroupPresent(EntriesOf(items));
    results := AllRows(grouped, detail, probe);
    hasChanges := AnyChange(results);
  }

  /** Lines 80-162: the rows of every product, in group order. */
  method AllRows(grouped: seq<Group<string, (), CartItem>>, detail: (string, string) -> Option<PgDetail>,
                 probe: (string, string, string) -> bool)
    returns (results: seq<SyncResult>)
    ensures results == GroupResults(grouped, detail, probe)
  {
    results := [];
    var g := 0;
    while g < |grouped|
      invariant 0 <= g <= |grouped|
      invariant results == GroupResults(grouped[..g], detail, probe)
    {
      assert grouped[..g + 1][..g] == grouped[..g];
      var rows := ProductRows(grouped[g].key, grouped[g].items, PgResults(grouped[g].key, detail), probe);
      results := results + rows;
      g := g + 1;
    }
    assert grouped[..g] == grouped;
  }

  /** Line 164. */
  method AnyChange(results: seq<SyncResult>) returns (hasChanges: bool)
    ensures hasChanges <==> HasChanges(results)
  {
    hasChanges := false;
    var k := 0;
    while k < |results|
      invariant 0 <= k <= |results|
      invariant hasChanges <==> exists m :: 0 <= m < k && (results[m].priceChanged || results[m].stockChanged)
    {
      if results[k].priceChanged || results[k].stockChanged {
        hasChanges := true;
      }
      k := k + 1;
    }
  }

  // ---------------------------------------------------------------
  // Properties
  // ---------------------------------------------------------------

  /** An empty cart gives no row and no change. */
  lemma EmptyCart(detail: (string, string) -> Option<PgDetail>, probe: (string, string, string) -> bool)
    ensures SyncResults([], detail, probe) == [] && !HasChanges([])
  {
    assert CodeEntries([]) == [];
  }

  /** The rows come product by product, in order of each code's first
      appearance, with the items of each code in cart order. */
  ghost function ByCode(es: seq<CodeEntry>, ks: seq<string>, detail: (string, string) -> Option<PgDetail>,
                        probe: (string, string, string) -> bool): seq<SyncResult>
  {
    if ks == [] then []
    else
      var k := ks[|ks| - 1];
      ByCode(es, ks[..|ks| - 1], detail, probe) + CodeResults(k, ItemsOf(es, k), PgResults(k, detail), probe)
  }

  lemma {:induction false} GroupResultsByCode(gs: seq<Group<string, (), CartItem>>, es: seq<CodeEntry>, n: nat,
                                              detail: (string, string) -> Option<PgDetail>, probe: (string, string, string) -> bool)
    requires Describes(gs, es) && n <= |gs|
    ensures GroupResults(gs[..n], detail, probe) == ByCode(es, KeysOf(es)[..n], detail, probe)
  {
    if n > 0 {
      GroupResultsByCode(gs, es, n - 1, detail, probe);
      var ks := KeysOf(es);
      assert gs[n - 1] == GroupOf(es, ks[n - 1]);
      GroupResultsSnoc(gs, n, detail, probe);
      ByCodeSnoc(es, ks, n, detail, probe);
    }
  }

  lemma GroupResultsSnoc(gs: seq<Group<string, (), CartItem>>, n: nat,
                         detail: (string, string) -> Option<PgDetail>, probe: (string, string, string) -> bool)
    requires 0 < n <= |gs|
    ensures var g := gs[n - 1];
      GroupResults(gs[..n], detail, probe)
        == GroupResults(gs[..n - 1], detail, probe) + CodeResults(g.key, g.items, PgResults(g.key, detail), probe)
  {
    assert gs[..n][..n - 1] == gs[..n - 1];
  }

  lemma ByCodeSnoc(es: seq<CodeEntry>, ks: seq<string>, n: nat,
                   detail: (string, string) -> Option<PgDetail>, probe: (string, string, string) -> bool)
    requires 0 < n <= |ks|
    ensures var k := ks[n - 1];
      ByCode(es, ks[..n], detail, probe)
        == ByCode(es, ks[..n - 1], detail, probe) + CodeResults(k, ItemsOf(es, k), PgResults(k, detail), probe)
  {
    assert ks[..n][..n - 1] == ks[..n - 1];
  }

  lemma SyncResultsByCode(items: seq<CartItem>, detail: (string, string) -> Option<PgDetail>, probe: (string, string, string) -> bool)
    ensures SyncResults(items, detail, probe) == ByCode(CodeEntries(items), KeysOf(CodeEntries(items)), detail, probe)
  {
    var es := CodeEntries(items);
    var gs := GroupBy(es);
    GroupByDescribed(es);
    GroupResultsByCode(gs, es, |gs|, detail, probe);
    assert gs[..|gs|] == gs;
    assert KeysOf(es)[..|gs|] == KeysOf(es);
  }

  /** Each product code is handled once. */
  lemma CodesDistinct(items: seq<CartItem>)
    ensures Distinct(KeysOf(CodeEntries(items)))
  {
    KeysOfDistinct(CodeEntries(items));
  }

  /** Every handled code is non-empty: items with an empty code give no row. */
  lemma CodesNonEmpty(items: seq<CartItem>, k: string)
    requires k in KeysOf(CodeEntries(items))
    ensures k != ""
  {
    var es := CodeEntries(items);
    KeysOfMembers(es, k);
    var i :| 0 <= i < |es| && es[i].key == k;
    PresentFrom(EntriesOf(items), i);
  }

  /** With both price groups, a colour listed by 01 takes 01's data, one only
      listed by 00 takes 00's, and any other colour takes the first group. */
  lemma ColourMerge(p0: PgDetail, p1: PgDetail, c: string)
    ensures c in p1.colorCodes ==> PgFor(ColorToPg([p0, p1]), [p0, p1], c) == p1
    ensures c !in p1.colorCodes && c in p0.colorCodes ==> PgFor(ColorToPg([p0, p1]), [p0, p1], c) == p0
    ensures c !in p1.colorCodes && c !in p0.colorCodes ==> PgFor(ColorToPg([p0, p1]), [p0, p1], c) == p0
  {
    var r0 := ColorRow(p0);
    var r1 := ColorRow(p1);
    ColorToPgTwo(p0, p1);
    RowKeys(p0, c);
    RowKeys(p1, c);
    if c in p1.colorCodes {
      AssocLater(r0, r1, c);
      AssocConst(r1, p1, c);
    } else {
      AssocEarlier(r0, r1, c);
      if c in p0.colorCodes {
        AssocConst(r0, p0, c);
      }
    }
  }

  lemma ColorToPgTwo(p0: PgDetail, p1: PgDetail)
    ensures ColorToPg([p0, p1]) == Assoc(ColorRow(p0) + ColorRow(p1))
  {
    assert seq(2, i requires 0 <= i < 2 => ColorRow([p0, p1][i])) == [ColorRow(p0), ColorRow(p1)];
    FlattenTwo(ColorRow(p0), ColorRow(p1));
  }

  lemma RowKeys(pg: PgDetail, c: string)
    ensures c in Assoc(ColorRow(pg)) <==> c in pg.colorCodes
  {
    AssocKeys(ColorRow(pg), c);
    if c in pg.colorCodes {
      var j :| 0 <= j < |pg.colorCodes| && pg.colorCodes[j] == c;
      assert ColorRow(pg)[j].0 == c;
    }
  }

  /** A size missing from the size map is out of stock whatever the probe
      would say: no probe is made for it. */
  lemma MissingSizeNoProbe(code: string, item: CartItem, sizeMap: map<string, string>,
                           probe1: (string, string, string) -> bool, probe2: (string, string, string) -> bool)
    requires item.size !in sizeMap
    ensures !ItemInStock(code, item, sizeMap, probe1)
    ensures ItemInStock(code, item, sizeMap, probe1) == ItemInStock(code, item, sizeMap, probe2)
  {
  }
}
