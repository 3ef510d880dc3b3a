/** `scrapeShopify` (server/utils/scrapeShopify.ts): the product JSON of a
    Shopify store read into a product, with the 56design helmet rule and one
    variant per colour. */
module ScrapeShopify {
  import opened Js
  import opened Text
  import Urls
  import FilterRules
  import opened Products
  import opened Grouping

  /** `origin` and `pathname` of `new URL(url)`. */
  datatype UrlParts = UrlParts(origin: string, pathname: string)

  /** One entry of `data.variants`: its `option1`, `option2`, ... values, its
      availability, its price already formatted, and the `src` of its
      `featured_image` when it has one. */
  datatype ShopifyVariant = ShopifyVariant(values: seq<string>, available: bool, priceText: string, featuredImage: Option<string>)

  /** The fields of the product JSON that are read; `options` are the option
      names. */
  datatype ShopifyJson = ShopifyJson(
    title: Option<string>,
    featuredImage: Option<string>,
    typeField: Option<string>,
    productTypeField: Option<string>,
    tags: FilterRules.Tags,
    options: seq<string>,
    variants: seq<ShopifyVariant>)

  const SingleStyle: string := "單一款式"
  const FreeSize: string := "F"
  const OutOfStock: string := " (缺貨)"

  // ---------------------------------------------------------------
  // JSON URL (lines 9-11)
  // ---------------------------------------------------------------

  /** `.replace(/\/$/, '')`: one trailing slash removed. */
  function DropTrailingSlash(s: string): (r: string)
    ensures EndsWith(s, "/") ==> s == r + "/"
    ensures !EndsWith(s, "/") ==> r == s
  {
    if EndsWith(s, "/") then s[..|s| - 1] else s
  }

  function BaseUrl(u: UrlParts): string {
    DropTrailingSlash(u.origin + u.pathname)
  }

  function JsonUrl(u: UrlParts): (r: string)
    ensures EndsWith(r, ".js")
  {
    BaseUrl(u) + ".js"
  }

  /** The JSON URL is the origin and the path, without its trailing slash,
      followed by `.js`. */
  lemma JsonUrlShape(u: UrlParts)
    requires u.pathname != ""
    ensures StartsWith(JsonUrl(u), u.origin)
    ensures EndsWith(u.pathname, "/") ==> JsonUrl(u) == u.origin + u.pathname[..|u.pathname| - 1] + ".js"
    ensures !EndsWith(u.pathname, "/") ==> JsonUrl(u) == u.origin + u.pathname + ".js"
  {
    var s := u.origin + u.pathname;
    if EndsWith(u.pathname, "/") {
      assert s[|s| - 1..] == u.pathname[|u.pathname| - 1..];
      assert s[..|s| - 1] == u.origin + u.pathname[..|u.pathname| - 1];
    } else {
      assert s[|s| - 1..] == u.pathname[|u.pathname| - 1..];
    }
    assert JsonUrl(u)[..|u.origin|] == u.origin;
  }

  lemma JsonUrlExample()
    ensures JsonUrl(UrlParts("https://56design.com", "/products/rx-7x/")) == "https://56design.com/products/rx-7x.js"
  {
    JsonUrlShape(UrlParts("https://56design.com", "/products/rx-7x/"));
    assert "/products/rx-7x/"[..|"/products/rx-7x/"| - 1] == "/products/rx-7x";
  }

  // ---------------------------------------------------------------
  // Helmet classification (lines 22-47)
  // ---------------------------------------------------------------

  const ExcludeKeywords: seq<string> := [
    "tee", "t-shirt", "shirt", "hoodie", "jacket", "pants", "glove",
    "bag", "sack", "case", "cover", "holder", "key",
    "visor", "shield", "pad", "interior", "cheek",
    "sticker", "decal",
    "cap", "hat"]

  const HelmetKeywords: seq<string> := ["arai", "rx-7x", "vz-ram", "classic air", "rapide"]

  /** `keywords.some(k => titleLower.includes(k))`. */
  predicate AnyIn(titleLower: string, keywords: seq<string>) {
    exists k :: k in keywords && Contains(titleLower, k)
  }

  predicate IsExcluded(title: string) {
    AnyIn(Lower(title), ExcludeKeywords)
  }

  function IsHelmet(title: string): (r: bool)
    ensures r ==> !IsExcluded(title)
  {
    !IsExcluded(title) && AnyIn(Lower(title), HelmetKeywords)
  }

  /** Every exclusion keyword has one of these letters. */
  const ExcludeLetters: string := "tshjpgbckv"

  lemma ExcludeKeywordsHaveLetter()
    ensures forall k :: k in ExcludeKeywords ==> exists c :: c in k && c in ExcludeLetters
  {
    forall k | k in ExcludeKeywords
      ensures exists c :: c in k && c in ExcludeLetters
    {
      var c := if 't' in k then 't' else if 's' in k then 's' else if 'h' in k then 'h'
        else if 'j' in k then 'j' else if 'p' in k then 'p' else if 'g' in k then 'g'
        else if 'b' in k then 'b' else if 'c' in k then 'c' else if 'k' in k then 'k' else 'v';
      assert c in k;
    }
  }

  /** A title whose lower-cased form has none of those letters is never
      excluded. */
  lemma NotExcludedWithoutLetters(title: string)
    requires forall c :: c in ExcludeLetters ==> c !in Lower(title)
    ensures !IsExcluded(title)
  {
    if IsExcluded(title) {
      var k :| k in ExcludeKeywords && Contains(Lower(title), k);
      ExcludeKeywordsHaveLetter();
      var c :| c in k && c in ExcludeLetters;
      ContainsChar(Lower(title), k, c);
      assert false;
    }
  }

  /** "Arai RX-7X" is a helmet. */
  lemma RxSevenIsHelmet()
    ensures IsHelmet("Arai RX-7X")
  {
    var a := Lower("Arai RX-7X");
    assert a == "arai rx-7x";
    NotExcludedWithoutLetters("Arai RX-7X");
    assert "arai" in HelmetKeywords;
    ContainsWitness(a, "arai", 0);
  }

  /** "Arai T-shirt" is not a helmet, although it names Arai. */
  lemma ShirtIsNotHelmet()
    ensures !IsHelmet("Arai T-shirt")
  {
    var b := Lower("Arai T-shirt");
    assert b == "arai t-shirt";
    assert "shirt" in ExcludeKeywords;
    ContainsWitness(b, "shirt", 7);
  }

  // ---------------------------------------------------------------
  // Option matching (lines 55-68)
  // ---------------------------------------------------------------

  predicate IsColourName(name: string) {
    var n := Lower(name);
    Contains(n, "color") || Contains(n, "clr") || Contains(n, "色") || Contains(n, "カラー")
  }

  predicate IsSizeName(name: string) {
    var n := Lower(name);
    Contains(n, "size") || Contains(n, "サイズ")
  }

  /** `v[`option${index + 1}`]`. */
  function OptionValue(v: ShopifyVariant, i: nat): string {
    if i < |v.values| then v.values[i] else ""
  }

  /** Colour and size after the first `n` options. */
  function Picked(names: seq<string>, v: ShopifyVariant, n: nat): (string, string)
    requires n <= |names|
  {
    if n == 0 then (SingleStyle, FreeSize)
    else
      var (c, s) := Picked(names, v, n - 1);
      if IsColourName(names[n - 1]) then (OptionValue(v, n - 1), s)
      else if IsSizeName(names[n - 1]) then (c, OptionValue(v, n - 1))
      else (c, s)
  }

  /** The last of the first `n` options that `isColour` (or, when false, that
      names a size and not a colour). */
  function LastMatch(names: seq<string>, n: nat, isColour: bool): (r: Option<nat>)
    requires n <= |names|
    ensures r.Some? ==> r.value < n && Matches(names[r.value], isColour)
    ensures r.Some? ==> forall j :: r.value < j < n ==> !Matches(names[j], isColour)
    ensures r.None? ==> forall j :: 0 <= j < n ==> !Matches(names[j], isColour)
  {
    if n == 0 then None
    else if Matches(names[n - 1], isColour) then Some(n - 1)
    else LastMatch(names, n - 1, isColour)
  }

  predicate Matches(name: string, isColour: bool) {
    if isColour then IsColourName(name) else !IsColourName(name) && IsSizeName(name)
  }

  /** The colour is the value of the last colour option, the size that of the
      last size option that is not also a colour option; the defaults are
      '單一款式' and 'F'. */
  lemma {:induction false} PickedIsLastMatch(names: seq<string>, v: ShopifyVariant, n: nat)
    requires n <= |names|
    ensures Picked(names, v, n).0 == (match LastMatch(names, n, true) case Some(i) => OptionValue(v, i) case None => SingleStyle)
    ensures Picked(names, v, n).1 == (match LastMatch(names, n, false) case Some(i) => OptionValue(v, i) case None => FreeSize)
  {
    if n > 0 {
      PickedIsLastMatch(names, v, n - 1);
    }
  }

  /** The inner `data.options.forEach`. */
  method ReadOptions(names: seq<string>, v: ShopifyVariant) returns (color: string, size: string)
    ensures (color, size) == Picked(names, v, |names|)
  {
    color, size := SingleStyle, FreeSize;
    var i := 0;
    while i < |names|
      invariant 0 <= i <= |names|
      invariant (color, size) == Picked(names, v, i)
    {
      var val := OptionValue(v, i);
      if IsColourName(names[i]) {
        color := val;
      } else if IsSizeName(names[i]) {
        size := val;
      }
      i := i + 1;
    }
  }

  /** Line 68: a product with a single option takes its value as the colour
      when no option named a colour. */
  function Colour(names: seq<string>, v: ShopifyVariant): string {
    var c := Picked(names, v, |names|).0;
    if c == SingleStyle && |names| == 1 && OptionValue(v, 0) != "" then OptionValue(v, 0) else c
  }

  /** The colour is the last colour option's value; with exactly one option
      and none naming a colour, a non-empty `option1` is the colour. */
  lemma ColourRule(names: seq<string>, v: ShopifyVariant)
    ensures LastMatch(names, |names|, true).None? ==>
      Colour(names, v) == (if |names| == 1 && OptionValue(v, 0) != "" then OptionValue(v, 0) else SingleStyle)
    ensures LastMatch(names, |names|, true).Some? && OptionValue(v, LastMatch(names, |names|, true).value) != SingleStyle ==>
      Colour(names, v) == OptionValue(v, LastMatch(names, |names|, true).value)
  {
    PickedIsLastMatch(names, v, |names|);
  }

  /** Line 70. */
  function SizeLabel(size: string, available: bool): (l: string)
    ensures available ==> l == size
    ensures !available ==> l == size + " (缺貨)"
  {
    if available then size else size + OutOfStock
  }

  /** Lines 71-73: the colour's first variant fixes the image and the price. */
  function Look(v: ShopifyVariant, mainImage: Option<string>, origin: string): (string, string) {
    var img := if v.featuredImage.Some? then v.featuredImage else mainImage;
    (Urls.FixUrl(img, origin), "¥" + v.priceText)
  }

  function VariantEntry(names: seq<string>, v: ShopifyVariant, mainImage: Option<string>, origin: string): Entry<string, (string, string), string> {
    Entry(Colour(names, v), Look(v, mainImage, origin), SizeLabel(Picked(names, v, |names|).1, v.available))
  }

  function VariantEntries(names: seq<string>, vs: seq<ShopifyVariant>, mainImage: Option<string>, origin: string): (es: seq<Entry<string, (string, string), string>>)
    ensures |es| == |vs|
    ensures forall i :: 0 <= i < |vs| ==> es[i] == VariantEntry(names, vs[i], mainImage, origin)
  {
    seq(|vs|, i requires 0 <= i < |vs| => VariantEntry(names, vs[i], mainImage, origin))
  }

  function ToVariant(g: Group<string, (string, string), string>): Variant {
    Variant(g.key, Some(g.first.0), g.first.1, g.items)
  }

  function ToVariants(gs: seq<Group<string, (string, string), string>>): (vs: seq<Variant>)
    ensures |vs| == |gs|
    ensures forall i :: 0 <= i < |gs| ==> vs[i] == ToVariant(gs[i])
  {
    seq(|gs|, i requires 0 <= i < |gs| => ToVariant(gs[i]))
  }

  /** Lines 19-20. */
  function ProductType(d: ShopifyJson): string {
    OptOrElse(d.typeField, OptOrElse(d.productTypeField, ""))
  }

  function TagsOf(d: ShopifyJson): FilterRules.Tags {
    if d.tags.NoTags? then FilterRules.TagList([]) else d.tags
  }

  /** `scrapeShopify` as a function of the parsed URL (`None` when
      `new URL` throws) and of the JSON at the JSON URL (`None` when the fetch
      fails). A missing title makes `toLowerCase` throw, which also gives
      `null`. */
  function ShopifyProduct(url: Option<UrlParts>, fetch: string -> Option<ShopifyJson>): Option<Product> {
    if url.None? then None
    else
      var d := fetch(JsonUrl(url.value));
      if d.None? || d.value.title.None? then None
      else
        var j := d.value;
        var es := VariantEntries(j.options, j.variants, j.featuredImage, url.value.origin);
        Some(Product(j.title.value, Some(ProductType(j)), TagsOf(j), IsHelmet(j.title.value), ToVariants(GroupBy(es))))
  }

  /** server/utils/scrapeShopify.ts:5-94. */
  method ScrapeShopify(url: Option<UrlParts>, fetch: string -> Option<ShopifyJson>) returns (r: Option<Product>)
    ensures r == ShopifyProduct(url, fetch)
  {
    if url.None? {
      return None;
    }
    var u := url.value;
    var data := fetch(JsonUrl(u));
    if data.None? || data.value.title.None? {
      return None;
    }
    var d := data.value;
    var groups := GroupVariants(d.options, d.variants, d.featuredImage, u.origin);
    return Some(Product(d.title.value, Some(ProductType(d)), TagsOf(d), IsHelmet(d.title.value), ToVariants(groups)));
  }

  /** The outer `data.variants.forEach` filling `variantsMap`. */
  method GroupVariants(names: seq<string>, vs: seq<ShopifyVariant>, mainImage: Option<string>, origin: string)
    returns (groups: seq<Group<string, (string, string), string>>)
    ensures groups == GroupBy(VariantEntries(names, vs, mainImage, origin))
  {
    groups := [];
    var index: map<string, nat> := map[];
    ghost var es := VariantEntries(names, vs, mainImage, origin);
    var i := 0;
    while i < |vs|
      invariant 0 <= i <= |vs|
      invariant groups == GroupBy(es[..i])
      invariant Indexed(groups, index)
    {
      var v := vs[i];
      var color, size := ReadOptions(names, v);
      if color == SingleStyle && |names| == 1 && OptionValue(v, 0) != "" {
        color := OptionValue(v, 0);
      }
      var e := Entry(color, Look(v, mainImage, origin), SizeLabel(size, v.available));
      EntriesStep(es, i, e);
      GroupByAppend(es[..i], e);
      groups, index := AddEntry(groups, index, e);
      i := i + 1;
    }
    assert es[..i] == es;
  }

  lemma EntriesStep<E>(es: seq<E>, i: nat, e: E)
    requires i < |es| && e == es[i]
    ensures es[..i + 1] == es[..i] + [e]
  {
  }

  // ---------------------------------------------------------------
  // Properties
  // ---------------------------------------------------------------

  /** A URL that does not parse, a failed fetch, or a JSON without a title all
      give `null`. */
  lemma NullCases(url: Option<UrlParts>, fetch: string -> Option<ShopifyJson>)
    ensures url.None? ==> ShopifyProduct(url, fetch).None?
    ensures url.Some? && fetch(JsonUrl(url.value)).None? ==> ShopifyProduct(url, fetch).None?
    ensures url.Some? && fetch(JsonUrl(url.value)).Some? && fetch(JsonUrl(url.value)).value.title.None?
      ==> ShopifyProduct(url, fetch).None?
  {
  }

  /** The output has one variant per distinct colour, in order of first
      appearance; each takes the image and price of its colour's first variant
      and the size labels of all its variants, in order. */
  lemma VariantsByColour(names: seq<string>, vs: seq<ShopifyVariant>, mainImage: Option<string>, origin: string, i: nat)
    requires i < |KeysOf(VariantEntries(names, vs, mainImage, origin))|
    ensures var es := VariantEntries(names, vs, mainImage, origin);
      var k := KeysOf(es)[i];
      |ToVariants(GroupBy(es))| == |KeysOf(es)|
      && ToVariants(GroupBy(es))[i] == Variant(k, Some(FirstOf(es, k).0), FirstOf(es, k).1, ItemsOf(es, k))
  {
    var es := VariantEntries(names, vs, mainImage, origin);
    GroupByDescribed(es);
    assert GroupBy(es)[i] == GroupOf(es, KeysOf(es)[i]);
  }

  /** Colours are distinct across the output variants. */
  lemma ColoursDistinct(names: seq<string>, vs: seq<ShopifyVariant>, mainImage: Option<string>, origin: string)
    ensures var out := ToVariants(GroupBy(VariantEntries(names, vs, mainImage, origin)));
      forall a, b :: 0 <= a < b < |out| ==> out[a].color != out[b].color
  {
    var es := VariantEntries(names, vs, mainImage, origin);
    GroupByDescribed(es);
    DescribedKeys(GroupBy(es), es);
    KeysOfDistinct(es);
  }

  /** A Shopify product without variants has no output variant. */
  lemma NoVariantsNoOutput(names: seq<string>, mainImage: Option<string>, origin: string)
    ensures ToVariants(GroupBy(VariantEntries(names, [], mainImage, origin))) == []
  {
  }
}
