/** The quote calculator (server/utils/shippingConfig.ts): category labels,
    per-category weights, the EMS rate table, the service fee and the full
    quote over a cart. */
module Shipping {
  import opened Js
  import opened Text

  // ---------------------------------------------------------------
  // Categories and weights
  // ---------------------------------------------------------------

  /** `CATEGORY_MAP`: Uniqlo API class name to the shop's category (lines 14-33). */
  const CategoryMap: map<string, string> := map[
    "tops" := "上衣",
    "bottoms" := "褲子",
    "outerwear" := "外套",
    "innerwear" := "內衣",
    "homewear" := "居家服",
    "loungewear" := "居家服",
    "accessories" := "配件",
    "socks" := "配件",
    "shoes" := "鞋子",
    "bags" := "包包"
  ]

  const DefaultCategory: string := "其他"

  /** Every label `getCategoryLabel` can return, each once. */
  const AllLabels: seq<string> := ["上衣", "褲子", "外套", "內衣", "居家服", "配件", "鞋子", "包包", "其他"]

  /** `WEIGHT_PER_CATEGORY` in grams (lines 65-75). */
  const WeightTable: map<string, int> := map[
    "上衣" := 300,
    "褲子" := 400,
    "外套" := 600,
    "內衣" := 150,
    "居家服" := 350,
    "配件" := 100,
    "鞋子" := 700,
    "包包" := 500,
    "其他" := 350
  ]

  /** `getCategoryLabel` (lines 41-43): the lower-cased API class looked up in
      `CATEGORY_MAP`, `其他` when it is missing or unknown. */
  function CategoryLabel(apiCategory: Option<string>): (r: string)
    ensures r in AllLabels
    ensures apiCategory.Some? && Lower(apiCategory.value) in CategoryMap ==> r == CategoryMap[Lower(apiCategory.value)]
    ensures apiCategory.None? || Lower(apiCategory.value) !in CategoryMap ==> r == DefaultCategory
  {
    if apiCategory.Some? && Lower(apiCategory.value) in CategoryMap then CategoryMap[Lower(apiCategory.value)]
    else DefaultCategory
  }

  /** `WEIGHT_PER_CATEGORY[label] || WEIGHT_PER_CATEGORY['其他']` (line 162). */
  function Weight(cat: string): (w: int)
    ensures w > 0
    ensures cat !in WeightTable ==> w == 350
  {
    if cat in WeightTable && WeightTable[cat] != 0 then WeightTable[cat] else WeightTable[DefaultCategory]
  }

  lemma EveryLabelHasWeight()
    ensures forall l :: l in AllLabels ==> l in WeightTable
  {
  }

  // ---------------------------------------------------------------
  // EMS shipping
  // ---------------------------------------------------------------

  /** `EMS_RATES`: (maximum weight in grams, cost in yen), lines 78-90. */
  const EmsRates: seq<(int, int)> := [
    (500, 1450), (1000, 1900), (2000, 3150), (3000, 4400), (4000, 5400),
    (5000, 6400), (6000, 7400), (8000, 9200), (10000, 11000), (15000, 15500),
    (20000, 20000)
  ]

  /** The last bracket's cost, charged above the table (line 102). */
  const OverweightCost: int := 20000

  /** Brackets rise in weight and never fall in cost. */
  predicate SortedRates(rates: seq<(int, int)>) {
    forall i, j :: 0 <= i < j < |rates| ==> rates[i].0 < rates[j].0 && rates[i].1 <= rates[j].1
  }

  lemma RatesSorted()
    ensures |EmsRates| == 11 && EmsRates[10].1 == OverweightCost
    ensures SortedRates(EmsRates)
  {
  }

  /** The cost of the first bracket from `i` on whose maximum is at least `w`,
      or the last cost when there is none. */
  function FirstFit(rates: seq<(int, int)>, w: int, i: nat): (c: int)
    requires 0 < |rates| && i <= |rates|
    decreases |rates| - i
  {
    if i == |rates| then rates[|rates| - 1].1
    else if w <= rates[i].0 then rates[i].1
    else FirstFit(rates, w, i + 1)
  }

  /** `getEmsShipping` as a function of the weight. */
  function EmsShipping(w: int): int {
    FirstFit(EmsRates, w, 0)
  }

  /** `getEmsShipping` (lines 97-103): scans the table and returns the cost of
      the first bracket that holds the weight, or the last cost above it. */
  method GetEmsShipping(w: int) returns (cost: int)
    ensures cost == EmsShipping(w)
  {
    var i := 0;
    while i < |EmsRates|
      invariant 0 <= i <= |EmsRates|
      invariant FirstFit(EmsRates, w, i) == EmsShipping(w)
    {
      var (maxWeight, c) := EmsRates[i];
      if w <= maxWeight {
        return c;
      }
      i := i + 1;
    }
    return EmsRates[|EmsRates| - 1].1;
  }

  /** The result is the cost of the bracket that holds `w`, the first one
      whose maximum is at least `w`; above the table it is the last cost. */
  lemma {:induction false} FirstFitIsBracket(rates: seq<(int, int)>, w: int, i: nat)
    requires 0 < |rates| && i <= |rates|
    ensures (FirstFit(rates, w, i) == rates[|rates| - 1].1 && (forall j :: i <= j < |rates| ==> w > rates[j].0))
      || (exists k :: i <= k < |rates| && w <= rates[k].0 && FirstFit(rates, w, i) == rates[k].1
           && forall j :: i <= j < k ==> w > rates[j].0)
    decreases |rates| - i
  {
    if i < |rates| && w > rates[i].0 {
      FirstFitIsBracket(rates, w, i + 1);
    }
  }

  lemma EmsShippingIsBracket(w: int)
    ensures w > 20000 ==> EmsShipping(w) == OverweightCost
    ensures w <= 20000 ==> exists k :: (0 <= k < |EmsRates| && w <= EmsRates[k].0 && EmsShipping(w) == EmsRates[k].1
                                          && (k == 0 || w > EmsRates[k - 1].0))
  {
    RatesSorted();
    var rates := EmsRates;
    FirstFitIsBracket(rates, w, 0);
    if w <= 20000 {
      assert w <= rates[10].0;
      var k :| 0 <= k < |rates| && w <= rates[k].0 && EmsShipping(w) == rates[k].1
                && forall j :: 0 <= j < k ==> w > rates[j].0;
      assert k == 0 || w > rates[k - 1].0;
      assert 0 <= k < |EmsRates| && w <= EmsRates[k].0 && EmsShipping(w) == EmsRates[k].1
             && (k == 0 || w > EmsRates[k - 1].0);
    }
  }

  /** The fit from `i` on costs at least bracket `i` and at most the last. */
  lemma {:induction false} FirstFitBounds(rates: seq<(int, int)>, w: int, i: nat)
    requires 0 < |rates| && i <= |rates| && SortedRates(rates)
    ensures i < |rates| ==> rates[i].1 <= FirstFit(rates, w, i)
    ensures FirstFit(rates, w, i) <= rates[|rates| - 1].1
    decreases |rates| - i
  {
    if i < |rates| && w > rates[i].0 {
      FirstFitBounds(rates, w, i + 1);
    }
  }

  lemma {:induction false} FirstFitMonotone(rates: seq<(int, int)>, w1: int, w2: int, i: nat)
    requires 0 < |rates| && i <= |rates| && SortedRates(rates)
    requires w1 <= w2
    ensures FirstFit(rates, w1, i) <= FirstFit(rates, w2, i)
    decreases |rates| - i
  {
    if i < |rates| {
      if w1 <= rates[i].0 {
        FirstFitBounds(rates, w2, i);
      } else {
        FirstFitMonotone(rates, w1, w2, i + 1);
      }
    }
  }

  /** A heavier parcel never costs less. */
  lemma EmsShippingMonotone(w1: int, w2: int)
    requires w1 <= w2
    ensures EmsShipping(w1) <= EmsShipping(w2)
  {
    RatesSorted();
    FirstFitMonotone(EmsRates, w1, w2, 0);
  }

  /** Every result is a cost from the table, between the first and the last. */
  lemma {:induction false} EmsShippingInTable(w: int)
    ensures exists k :: 0 <= k < |EmsRates| && EmsShipping(w) == EmsRates[k].1
    ensures 1450 <= EmsShipping(w) <= 20000
  {
    RatesSorted();
    FirstFitIsBracket(EmsRates, w, 0);
    FirstFitBounds(EmsRates, w, 0);
  }

  // ---------------------------------------------------------------
  // Service fee
  // ---------------------------------------------------------------

  const MinServiceFee: int := 500

  /** `Math.round(s * 0.08)` for an integer `s`: 8s/100 is never exactly
      halfway between two integers, so rounding half up is `(4s + 25) div 50`. */
  function RoundEightPercent(s: int): (r: int)
    ensures -50 <= 8 * s - 100 * r < 50
  {
    (4 * s + 25) / 50
  }

  /** `getServiceFee` (lines 119-121). */
  function ServiceFee(subtotal: int): (f: int)
    ensures f >= MinServiceFee
    ensures f == MinServiceFee || -50 <= 8 * subtotal - 100 * f < 50
    ensures 8 * subtotal >= 100 * MinServiceFee + 50 ==> f > MinServiceFee
  {
    var r := RoundEightPercent(subtotal);
    if r > MinServiceFee then r else MinServiceFee
  }

  /** The fee never falls as the subtotal grows. */
  lemma ServiceFeeMonotone(s1: int, s2: int)
    requires s1 <= s2
    ensures ServiceFee(s1) <= ServiceFee(s2)
  {
  }

  // ---------------------------------------------------------------
  // The quote
  // ---------------------------------------------------------------

  /** `CartItemForQuote`. */
  datatype QuoteItem = QuoteItem(price: string, quantity: Option<int>, category: Option<string>)

  /** `item.quantity || 1`. */
  function Qty(item: QuoteItem): (q: int)
    ensures q != 0
    ensures item.quantity.Some? && item.quantity.value != 0 ==> q == item.quantity.value
  {
    if item.quantity.Some? && item.quantity.value != 0 then item.quantity.value else 1
  }

  function Label(item: QuoteItem): string {
    CategoryLabel(item.category)
  }

  /** Sum of price times quantity; the prices are `parseInt` of their digits. */
  function Subtotal(items: seq<QuoteItem>): int {
    if items == [] then 0
    else Subtotal(items[..|items| - 1]) + PriceValue(items[|items| - 1].price) * Qty(items[|items| - 1])
  }

  function TotalWeight(items: seq<QuoteItem>): int {
    if items == [] then 0
    else TotalWeight(items[..|items| - 1]) + Weight(Label(items[|items| - 1])) * Qty(items[|items| - 1])
  }

  function TotalQty(items: seq<QuoteItem>): int {
    if items == [] then 0 else TotalQty(items[..|items| - 1]) + Qty(items[|items| - 1])
  }

  /** The `categoryCounts` dictionary built item by item. */
  function Counts(items: seq<QuoteItem>): map<string, int> {
    if items == [] then map[]
    else
      var m := Counts(items[..|items| - 1]);
      var l := Label(items[|items| - 1]);
      m[l := (if l in m then m[l] else 0) + Qty(items[|items| - 1])]
  }

  /** The quantity of the items with label `l`. */
  function CountOf(items: seq<QuoteItem>, l: string): int {
    if items == [] then 0
    else CountOf(items[..|items| - 1], l) + (if Label(items[|items| - 1]) == l then Qty(items[|items| - 1]) else 0)
  }

  datatype Quote = Quote(subtotal: int, totalWeight: int, shippingFee: int, serviceFee: int,
                         total: int, categoryCounts: map<string, int>)

  /** `calculateQuote` as a function of the items. */
  function QuoteOf(items: seq<QuoteItem>): (q: Quote)
    ensures q.total == q.subtotal + q.shippingFee + q.serviceFee
    ensures q.serviceFee >= MinServiceFee
  {
    var s := Subtotal(items);
    var w := TotalWeight(items);
    Quote(s, w, EmsShipping(w), ServiceFee(s), s + EmsShipping(w) + ServiceFee(s), Counts(items))
  }

  /** One more item extends each running total by that item's share. */
  lemma QuoteStep(items: seq<QuoteItem>, i: nat)
    requires i < |items|
    ensures var item := items[i]; var cat := CategoryLabel(item.category);
      && Subtotal(items[..i + 1]) == Subtotal(items[..i]) + PriceValue(item.price) * Qty(item)
      && TotalWeight(items[..i + 1]) == TotalWeight(items[..i]) + Weight(cat) * Qty(item)
      && Counts(items[..i + 1]) == Counts(items[..i])[cat := (if cat in Counts(items[..i]) then Counts(items[..i])[cat] else 0) + Qty(item)]
  {
    assert items[..i + 1][..i] == items[..i];
  }

  /** `calculateQuote` (lines 151-180): one pass over the items accumulating
      the subtotal, the weight and the per-category counts. */
  method CalculateQuote(items: seq<QuoteItem>) returns (q: Quote)
    ensures q == QuoteOf(items)
  {
    var subtotal := 0;
    var totalWeight := 0;
    var categoryCounts: map<string, int> := map[];
    var i := 0;
    while i < |items|
      invariant 0 <= i <= |items|
      invariant subtotal == Subtotal(items[..i])
      invariant totalWeight == TotalWeight(items[..i])
      invariant categoryCounts == Counts(items[..i])
    {
      var item := items[i];
      QuoteStep(items, i);
      var priceVal := PriceValue(item.price);
      var qty := Qty(item);
      subtotal := subtotal + priceVal * qty;
      var cat := CategoryLabel(item.category);
      var weight := Weight(cat);
      totalWeight := totalWeight + weight * qty;
      categoryCounts := categoryCounts[cat := (if cat in categoryCounts then categoryCounts[cat] else 0) + qty];
      i := i + 1;
    }
    assert items[..i] == items;
    var shippingFee := GetEmsShipping(totalWeight);
    var serviceFee := ServiceFee(subtotal);
    q := Quote(subtotal, totalWeight, shippingFee, serviceFee, subtotal + shippingFee + serviceFee, categoryCounts);
  }

  /** The counts dictionary has a key for exactly the labels that occur, and
      each value is the total quantity of that label's items. */
  lemma {:induction false} CountsAgree(items: seq<QuoteItem>, l: string)
    ensures l in Counts(items) <==> HasLabel(items, l)
    ensures l in Counts(items) ==> Counts(items)[l] == CountOf(items, l)
    ensures l !in Counts(items) ==> CountOf(items, l) == 0
  {
    if items != [] {
      var init := items[..|items| - 1];
      CountsAgree(init, l);
      OccursSnoc(items, l);
    }
  }

  predicate HasLabel(items: seq<QuoteItem>, l: string) {
    exists i :: 0 <= i < |items| && Label(items[i]) == l
  }

  /** A label occurs in a non-empty list iff it occurs before the last item
      or is the last item's. */
  lemma OccursSnoc(items: seq<QuoteItem>, l: string)
    requires items != []
    ensures HasLabel(items, l) <==> HasLabel(items[..|items| - 1], l) || Label(items[|items| - 1]) == l
  {
    var init := items[..|items| - 1];
    if HasLabel(items, l) {
      var i :| 0 <= i < |items| && Label(items[i]) == l;
      if i < |init| {
        assert Label(init[i]) == l;
      }
    }
    if HasLabel(init, l) {
      var i :| 0 <= i < |init| && Label(init[i]) == l;
      assert Label(items[i]) == l;
    }
  }

  /** `SumOver(labels, m)`: the values of `m` at `labels`, 0 where absent. */
  function SumOver(labels: seq<string>, m: map<string, int>): int {
    if labels == [] then 0
    else (if labels[0] in m then m[labels[0]] else 0) + SumOver(labels[1..], m)
  }

  function SumCountOf(labels: seq<string>, items: seq<QuoteItem>): int {
    if labels == [] then 0 else CountOf(items, labels[0]) + SumCountOf(labels[1..], items)
  }

  /** Adding one item adds its quantity to the one label it has, if listed. */
  lemma {:induction false} SumCountOfSnoc(labels: seq<string>, items: seq<QuoteItem>)
    requires items != []
    requires forall i, j :: 0 <= i < j < |labels| ==> labels[i] != labels[j]
    ensures var last := items[|items| - 1];
      SumCountOf(labels, items) == SumCountOf(labels, items[..|items| - 1])
        + (if Label(last) in labels then Qty(last) else 0)
  {
    if labels != [] {
      assert forall i, j :: 0 <= i < j < |labels[1..]| ==> labels[1..][i] != labels[1..][j] by {
        forall i, j | 0 <= i < j < |labels[1..]| ensures labels[1..][i] != labels[1..][j] {
          assert labels[1..][i] == labels[i + 1] && labels[1..][j] == labels[j + 1];
        }
      }
      SumCountOfSnoc(labels[1..], items);
      var last := items[|items| - 1];
      if Label(last) == labels[0] {
        assert Label(last) !in labels[1..];
      }
      assert Label(last) in labels <==> Label(last) == labels[0] || Label(last) in labels[1..];
    }
  }

  lemma {:induction false} SumCountOfAll(items: seq<QuoteItem>)
    ensures SumCountOf(AllLabels, items) == TotalQty(items)
  {
    if items == [] {
      assert SumCountOf(AllLabels, items) == 0 by {
        var ls := AllLabels;
        assert CountOf(items, ls[0]) == 0;
        assert SumCountOf(ls[1..], items) == 0 by { ZeroCounts(ls[1..], items); }
      }
    } else {
      SumCountOfSnoc(AllLabels, items);
      SumCountOfAll(items[..|items| - 1]);
    }
  }

  lemma {:induction false} ZeroCounts(labels: seq<string>, items: seq<QuoteItem>)
    requires items == []
    ensures SumCountOf(labels, items) == 0
  {
    if labels != [] {
      ZeroCounts(labels[1..], items);
    }
  }

  lemma {:induction false} SumOverCounts(labels: seq<string>, items: seq<QuoteItem>)
    ensures SumOver(labels, Counts(items)) == SumCountOf(labels, items)
  {
    if labels != [] {
      CountsAgree(items, labels[0]);
      SumOverCounts(labels[1..], items);
    }
  }

  /** The category counts add up to the total quantity of the cart. */
  lemma CategoryCountsSumToQuantity(items: seq<QuoteItem>)
    ensures SumOver(AllLabels, QuoteOf(items).categoryCounts) == TotalQty(items)
    ensures forall l :: l in QuoteOf(items).categoryCounts ==> l in AllLabels
  {
    SumOverCounts(AllLabels, items);
    SumCountOfAll(items);
    forall l | l in Counts(items) ensures l in AllLabels {
      CountsAgree(items, l);
    }
  }

  /** An item without digits in its price adds nothing to the subtotal. */
  lemma PricelessItemFree(items: seq<QuoteItem>, item: QuoteItem)
    requires DigitsOf(item.price) == ""
    ensures Subtotal(items + [item]) == Subtotal(items)
  {
    assert (items + [item])[..|items|] == items;
  }

  /** The weight of a cart of positive quantities is positive, so the quote
      charges at least the first bracket. */
  lemma {:induction false} WeightPositive(items: seq<QuoteItem>)
    requires forall i :: 0 <= i < |items| ==> Qty(items[i]) > 0
    ensures TotalWeight(items) >= 0
    ensures items != [] ==> TotalWeight(items) > 0
  {
    if items != [] {
      var init := items[..|items| - 1];
      forall i | 0 <= i < |init| ensures Qty(init[i]) > 0 {
        assert init[i] == items[i];
      }
      WeightPositive(init);
      var last := items[|items| - 1];
      assert Qty(last) > 0;
      assert Weight(Label(last)) * Qty(last) > 0;
    }
  }
}
