/** `scrapeHyod` (server/utils/scrapeHyod.ts): title and price fallbacks and
    the three variant tiers (stock table, colour thumbnails, one placeholder).
    The selector results are passed in as already-extracted strings. */
module ScrapeHyod {
  import opened Js
  import opened Text
  import Urls
  import FilterRules
  import opened Products
  import opened Grouping

  /** One row of `#divMultiVariation table tbody tr`: the colour `<p>` text,
      the text of the last `td.pc`, the fourth cell's text, the first cell's
      image `src`, and whether `.addCart a` exists. */
  datatype HyodRow = HyodRow(colorText: string, pcText: string, td3Text: string, imgSrc: Option<string>, hasCartButton: bool)

  /** One `.variationImage li`: its `.subItemTitle` text and its image's `src`
      and `data-image`. */
  datatype HyodThumb = HyodThumb(titleText: string, src: Option<string>, dataImage: Option<string>)

  datatype HyodPage = HyodPage(
    productNameText: string,
    mainImageTitleText: string,
    h1Text: string,
    taxPriceText: string,
    sellText: string,
    itempropPriceText: string,
    zoomSrc: Option<string>,
    linkSrc: Option<string>,
    soldoutCount: nat,
    productPriceText: string,
    rows: seq<HyodRow>,
    thumbs: seq<HyodThumb>)

  const SingleStyle: string := "單一款式"
  const OneColor: string := "One Color"
  const SoldOut: string := "已售完"
  const SeeSite: string := "請前往官網選擇尺寸"
  const SeePrice: string := "價格請見官網"
  const OutOfStock: string := " (缺貨)"
  const InStock: string := "在庫"
  const RidingGear: string := "Riding Gear"

  // ---------------------------------------------------------------
  // `replace(/在庫.*/, '')`
  // ---------------------------------------------------------------

  /** The first line terminator at or after `j`, or the end. */
  function LineEnd(s: string, j: nat): (k: nat)
    requires j <= |s|
    ensures j <= k <= |s|
    ensures forall m :: j <= m < k ==> !IsLineTerminator(s[m])
    ensures k < |s| ==> IsLineTerminator(s[k])
    decreases |s| - j
  {
    if j == |s| || IsLineTerminator(s[j]) then j else LineEnd(s, j + 1)
  }

  /** `s.replace(/在庫.*\/, '')`: the first `在庫` and the rest of its line are
      removed (`.` stops at a line terminator). */
  function CutInStock(s: string): (r: string)
    ensures !Contains(s, InStock) ==> r == s
  {
    match IndexOf(s, InStock)
    case None => s
    case Some(i) => s[..i] + s[LineEnd(s, i + 2)..]
  }

  /** On a single line the cut keeps exactly the text before the first `在庫`. */
  lemma CutInStockOneLine(s: string)
    requires Contains(s, InStock)
    requires forall m :: 0 <= m < |s| ==> !IsLineTerminator(s[m])
    ensures StartsWith(s, CutInStock(s)) && OccursAt(s, InStock, |CutInStock(s)|)
    ensures forall j :: 0 <= j < |CutInStock(s)| ==> !OccursAt(s, InStock, j)
  {
    var i := IndexOf(s, InStock).value;
    var k := LineEnd(s, i + 2);
    assert k == |s|;
    assert CutInStock(s) == s[..i];
  }

  // ---------------------------------------------------------------
  // Title, price, main image, sold-out flag
  // ---------------------------------------------------------------

  /** Lines 13-15. */
  function Title(p: HyodPage): string {
    OrElse(Trim(p.productNameText), OrElse(Trim(p.mainImageTitleText), Trim(p.h1Text)))
  }

  /** Lines 18-22: the first non-empty price text, with `¥` put in front when
      it has none, or '價格請見官網'. */
  function Price(p: HyodPage): (r: string)
    ensures r != ""
  {
    var raw := OrElse(Trim(p.taxPriceText), OrElse(Trim(p.sellText), Trim(p.itempropPriceText)));
    if raw != "" && !Contains(raw, "¥") then "¥" + raw
    else if raw == "" then SeePrice
    else raw
  }

  lemma PriceHasYenOrNotice(p: HyodPage)
    ensures Contains(Price(p), "¥") || Price(p) == SeePrice
  {
    var r := Price(p);
    if r != SeePrice && !Contains(r, "¥") {
      var raw := OrElse(Trim(p.taxPriceText), OrElse(Trim(p.sellText), Trim(p.itempropPriceText)));
      ContainsPrefix("¥" + raw, "¥");
    }
  }

  /** Lines 25-26: `#zoomPicture` or `.main_image_link img`, through `fixUrl`
      when non-empty. */
  function MainImage(p: HyodPage, origin: string): Option<string> {
    var m := Or(p.zoomSrc, p.linkSrc);
    if Truthy(m) then Some(Urls.FixUrl(m, origin)) else m
  }

  /** Line 29. */
  predicate GlobalSoldOut(p: HyodPage) {
    p.soldoutCount > 0 || Contains(Upper(p.productPriceText), "SOLDOUT")
  }

  function FallbackSizes(p: HyodPage): seq<string> {
    if GlobalSoldOut(p) then [SoldOut] else [SeeSite]
  }

  // ---------------------------------------------------------------
  // Table tier (lines 36-86)
  // ---------------------------------------------------------------

  /** Lines 49-57: the `td.pc` text with the stock note cut and trimmed, or,
      when that is empty, the fourth cell's text with the note cut. */
  function RowSize(row: HyodRow): string {
    var pc := Trim(CutInStock(Trim(row.pcText)));
    if pc != "" then pc else CutInStock(Trim(row.td3Text))
  }

  /** Line 66. */
  function SizeLabel(row: HyodRow): (l: string)
    ensures row.hasCartButton ==> l == RowSize(row)
    ensures !row.hasCartButton ==> l == RowSize(row) + OutOfStock
  {
    if row.hasCartButton then RowSize(row) else RowSize(row) + OutOfStock
  }

  /** Lines 60-61 and 74: the row's image through `fixUrl`, else the main image. */
  function RowImage(row: HyodRow, mainImage: Option<string>, origin: string): Option<string> {
    var img := if Truthy(row.imgSrc) then Some(Urls.FixUrl(row.imgSrc, origin)) else row.imgSrc;
    Or(img, mainImage)
  }

  /** Line 68: a row counts only when both its colour and its size are
      non-empty. */
  predicate RowCounts(row: HyodRow) {
    Trim(row.colorText) != "" && RowSize(row) != ""
  }

  /** Lines 68-80: the colour, image and size label a counting row adds. */
  function RowEntry(row: HyodRow, mainImage: Option<string>, origin: string): (r: Option<Entry<string, Option<string>, string>>)
    ensures r.Some? <==> RowCounts(row)
  {
    if RowCounts(row) then Some(Entry(Trim(row.colorText), RowImage(row, mainImage, origin), SizeLabel(row))) else None
  }

  function RowEntries(rows: seq<HyodRow>, mainImage: Option<string>, origin: string): (os: seq<Option<Entry<string, Option<string>, string>>>)
    ensures |os| == |rows|
    ensures forall i :: 0 <= i < |rows| ==> os[i] == RowEntry(rows[i], mainImage, origin)
  {
    seq(|rows|, i requires 0 <= i < |rows| => RowEntry(rows[i], mainImage, origin))
  }

  /** The entries of the rows that count, in row order. */
  function TableEntries(rows: seq<HyodRow>, mainImage: Option<string>, origin: string): seq<Entry<string, Option<string>, string>> {
    Present(RowEntries(rows, mainImage, origin))
  }

  function ToVariant(g: Group<string, Option<string>, string>, price: string): Variant {
    Variant(g.key, g.first, price, g.items)
  }

  function ToVariants(gs: seq<Group<string, Option<string>, string>>, price: string): (vs: seq<Variant>)
    ensures |vs| == |gs|
    ensures forall i :: 0 <= i < |gs| ==> vs[i] == ToVariant(gs[i], price)
  {
    seq(|gs|, i requires 0 <= i < |gs| => ToVariant(gs[i], price))
  }

  // ---------------------------------------------------------------
  // Thumbnail tier (lines 90-113) and placeholder tier (lines 116-124)
  // ---------------------------------------------------------------

  /** Lines 95-110: the thumbnail's title (or 'One Color'), its own image
      through `fixUrl` (or the main image), and the page price and sizes. */
  function ThumbVariant(t: HyodThumb, price: string, sizes: seq<string>, mainImage: Option<string>, origin: string): Variant {
    var img := Or(t.src, t.dataImage);
    var image := if Truthy(img) then Some(Urls.FixUrl(img, origin)) else mainImage;
    Variant(OrElse(Trim(t.titleText), OneColor), image, price, sizes)
  }

  function ThumbVariants(thumbs: seq<HyodThumb>, price: string, sizes: seq<string>, mainImage: Option<string>, origin: string): (vs: seq<Variant>)
    ensures |vs| == |thumbs|
    ensures forall i :: 0 <= i < |vs| ==> vs[i] == ThumbVariant(thumbs[i], price, sizes, mainImage, origin)
  {
    seq(|thumbs|, i requires 0 <= i < |thumbs| => ThumbVariant(thumbs[i], price, sizes, mainImage, origin))
  }

  /** The variants the three tiers give, in order of preference. */
  function Variants(p: HyodPage, origin: string): seq<Variant> {
    var mainImage := MainImage(p, origin);
    var table := ToVariants(GroupBy(TableEntries(p.rows, mainImage, origin)), Price(p));
    if table != [] then table
    else if p.thumbs != [] then ThumbVariants(p.thumbs, Price(p), FallbackSizes(p), mainImage, origin)
    else [Variant(SingleStyle, mainImage, Price(p), FallbackSizes(p))]
  }

  /** `scrapeHyod` as a function: `None` when `new URL(url)` throws, which the
      caller says by passing no origin. */
  function HyodProduct(p: HyodPage, origin: Option<string>): Option<Product> {
    match origin
    case None => None
    case Some(o) => Some(Product(Title(p), Some(RidingGear), FilterRules.TagList([]), false, Variants(p, o)))
  }

  /** Lines 90-113: one variant per thumbnail, in order. */
  method ThumbList(thumbs: seq<HyodThumb>, price: string, sizes: seq<string>, mainImage: Option<string>, origin: string)
    returns (vs: seq<Variant>)
    ensures vs == ThumbVariants(thumbs, price, sizes, mainImage, origin)
  {
    vs := [];
    var j := 0;
    while j < |thumbs|
      invariant 0 <= j <= |thumbs|
      invariant vs == ThumbVariants(thumbs, price, sizes, mainImage, origin)[..j]
    {
      vs := vs + [ThumbVariant(thumbs[j], price, sizes, mainImage, origin)];
      j := j + 1;
    }
  }

  /** server/utils/scrapeHyod.ts:5-137: the stock table is read row by row
      into an insertion-ordered map of colours; the thumbnails are read only
      when it yields nothing, and a placeholder only when they yield nothing. */
  method ScrapeHyod(p: HyodPage, origin: Option<string>) returns (r: Option<Product>)
    ensures r == HyodProduct(p, origin)
  {
    if origin.None? {
      return None;
    }
    var o := origin.value;
    var price := Price(p);
    var mainImage := MainImage(p, o);
    var groups := GroupPresent(RowEntries(p.rows, mainImage, o));
    var variants := ToVariants(groups, price);
    if variants == [] {
      variants := ThumbList(p.thumbs, price, FallbackSizes(p), mainImage, o);
    }
    if variants == [] {
      variants := [Variant(SingleStyle, mainImage, price, FallbackSizes(p))];
    }
    return Some(Product(Title(p), Some(RidingGear), FilterRules.TagList([]), false, variants));
  }

  // ---------------------------------------------------------------
  // Properties
  // ---------------------------------------------------------------

  /** Whatever the page holds, a product has at least one variant. */
  lemma AtLeastOneVariant(p: HyodPage, origin: string)
    ensures |HyodProduct(p, Some(origin)).value.variants| >= 1
  {
  }

  /** The table tier yields a variant exactly when some row counts. */
  lemma TableEntriesEmpty(rows: seq<HyodRow>, mainImage: Option<string>, origin: string)
    ensures TableEntries(rows, mainImage, origin) == [] <==> forall i :: 0 <= i < |rows| ==> !RowCounts(rows[i])
  {
    PresentEmpty(RowEntries(rows, mainImage, origin));
  }

  lemma GroupByEmpty<K, F, S>(es: seq<Entry<K, F, S>>)
    ensures GroupBy(es) == [] <==> es == []
  {
    GroupByDescribed(es);
    if es != [] {
      KeysOfMembers(es, es[0].key);
    }
  }

  /** The thumbnails are read only when no table row counts, and the
      placeholder is used only when there is no thumbnail either. */
  lemma TierOrder(p: HyodPage, origin: string)
    ensures var vs := Variants(p, origin);
      ((exists i :: 0 <= i < |p.rows| && RowCounts(p.rows[i]))
         ==> |vs| == |KeysOf(TableEntries(p.rows, MainImage(p, origin), origin))|)
      && ((forall i :: 0 <= i < |p.rows| ==> !RowCounts(p.rows[i])) && p.thumbs != []
         ==> vs == ThumbVariants(p.thumbs, Price(p), FallbackSizes(p), MainImage(p, origin), origin))
      && ((forall i :: 0 <= i < |p.rows| ==> !RowCounts(p.rows[i])) && p.thumbs == []
         ==> vs == [Variant(SingleStyle, MainImage(p, origin), Price(p), FallbackSizes(p))])
  {
    var es := TableEntries(p.rows, MainImage(p, origin), origin);
    TableEntriesEmpty(p.rows, MainImage(p, origin), origin);
    GroupByEmpty(es);
    GroupByDescribed(es);
  }

  /** Each table variant is one colour, in order of first appearance: its
      image is the first such row's, its sizes are the labels of all its rows
      in row order, and the price is the page price. */
  lemma TableVariantsDescribed(p: HyodPage, origin: string, i: nat)
    requires i < |KeysOf(TableEntries(p.rows, MainImage(p, origin), origin))|
    ensures var es := TableEntries(p.rows, MainImage(p, origin), origin);
      var k := KeysOf(es)[i];
      |GroupBy(es)| == |KeysOf(es)|
      && ToVariants(GroupBy(es), Price(p))[i] == Variant(k, FirstOf(es, k), Price(p), ItemsOf(es, k))
  {
    var es := TableEntries(p.rows, MainImage(p, origin), origin);
    GroupByDescribed(es);
    assert GroupBy(es)[i] == GroupOf(es, KeysOf(es)[i]);
  }

  /** A row without a cart link is shown as out of stock. */
  lemma MissingCartMarked(row: HyodRow)
    requires !row.hasCartButton
    ensures SizeLabel(row) == RowSize(row) + " (缺貨)"
  {
  }

  /** The thumbnail and placeholder tiers say '已售完' on a sold-out page and
      point to the site otherwise. */
  lemma FallbackSizesBySoldOut(p: HyodPage)
    ensures GlobalSoldOut(p) ==> FallbackSizes(p) == ["已售完"]
    ensures !GlobalSoldOut(p) ==> FallbackSizes(p) == ["請前往官網選擇尺寸"]
  {
  }

  /** A page whose URL does not parse gives no product. */
  lemma BadUrlNull(p: HyodPage)
    ensures HyodProduct(p, None) == None
  {
  }
}
