/** `scrapeGeneric` (server/utils/scrapeGeneric.ts): the OpenGraph fallback.
    The page's selector results are passed in as already-extracted strings. */
module ScrapeGeneric {
  import opened Js
  import opened Text
  import Urls
  import FilterRules
  import opened Products

  /** What the page gives: `og:title`, the `<title>` text, `og:image`,
      `og:price:amount` and the text of the first `.price`, `.money` and
      `.product-price` elements ("" when there is none). */
  datatype GenericPage = GenericPage(
    ogTitle: Option<string>,
    titleText: string,
    ogImage: Option<string>,
    ogPrice: Option<string>,
    priceText: string,
    moneyText: string,
    productPriceText: string)

  const SingleStyle: string := "單一款式"
  const ClickToSee: string := "請點擊查看"

  /** Lines 19-23: the first non-empty price source. `og:price:amount` is not
      trimmed before the test; the element texts are. */
  function RawPrice(p: GenericPage): string {
    OptOrElse(p.ogPrice, OrElse(Trim(p.priceText), OrElse(Trim(p.moneyText), OrElse(Trim(p.productPriceText), ClickToSee))))
  }

  /** Line 25: `price.replace(/\s+/g, ' ').trim()`. */
  function CleanPrice(s: string): (r: string)
    ensures IsTrimmed(r) && NoDoubleWs(r)
  {
    CollapseThenTrim(s);
    Trim(CollapseWs(s))
  }

  /** server/utils/scrapeGeneric.ts:8-39; `origin` is the page URL's origin,
      used by `fixUrl` for a root-relative image. */
  function ScrapeGeneric(p: GenericPage, origin: string): (r: Product)
    ensures |r.variants| == 1
    ensures r.variants[0].color == SingleStyle && r.variants[0].sizes == []
    ensures r.variants[0].image == Some(Urls.FixUrl(p.ogImage, origin))
    ensures IsTrimmed(r.variants[0].price) && NoDoubleWs(r.variants[0].price)
  {
    var title := OptOrElse(p.ogTitle, Trim(p.titleText));
    var image := Urls.FixUrl(p.ogImage, origin);
    var price := CleanPrice(RawPrice(p));
    Product(title, None, FilterRules.NoTags, false, [Variant(SingleStyle, Some(image), price, [])])
  }

  /** Line 12: `og:title` when present and non-empty, else the trimmed title. */
  lemma TitleFallback(p: GenericPage, origin: string)
    ensures Truthy(p.ogTitle) ==> ScrapeGeneric(p, origin).title == p.ogTitle.value
    ensures !Truthy(p.ogTitle) ==> ScrapeGeneric(p, origin).title == Trim(p.titleText)
  {
  }

  /** Without `og:image` the card gets the `fixUrl` placeholder. */
  lemma MissingImagePlaceholder(p: GenericPage, origin: string)
    requires !Truthy(p.ogImage)
    ensures ScrapeGeneric(p, origin).variants[0].image == Some(Urls.Placeholder)
  {
  }

  /** The price sources are tried in order; the first non-empty one wins. */
  lemma PriceOrder(p: GenericPage)
    ensures Truthy(p.ogPrice) ==> RawPrice(p) == p.ogPrice.value
    ensures !Truthy(p.ogPrice) && Trim(p.priceText) != "" ==> RawPrice(p) == Trim(p.priceText)
    ensures (!Truthy(p.ogPrice) && Trim(p.priceText) == "" && Trim(p.moneyText) != "")
              ==> RawPrice(p) == Trim(p.moneyText)
    ensures (!Truthy(p.ogPrice) && Trim(p.priceText) == "" && Trim(p.moneyText) == ""
             && Trim(p.productPriceText) != "") ==> RawPrice(p) == Trim(p.productPriceText)
  {
  }

  lemma ClickToSeeClean()
    ensures CleanPrice(ClickToSee) == ClickToSee
  {
    var s := ClickToSee;
    assert forall i :: 0 <= i < |s| ==> !IsWs(s[i]);
    CollapseWithoutWs(s);
    TrimOfTrimmed(s);
  }

  /** With no price anywhere the card says '請點擊查看'. */
  lemma NoPriceFallback(p: GenericPage, origin: string)
    requires !Truthy(p.ogPrice) && Trim(p.priceText) == "" && Trim(p.moneyText) == "" && Trim(p.productPriceText) == ""
    ensures ScrapeGeneric(p, origin).variants[0].price == ClickToSee
  {
    ClickToSeeClean();
  }

  lemma BlankCleansToEmpty()
    ensures CleanPrice(" ") == ""
  {
    assert CollapseWs(" ") == [' '] + CollapseWs(TrimStart(" "));
    assert TrimStart(" ") == TrimStart(" "[1..]);
    assert " "[1..] == [];
    assert Trim(" ") == "";
  }

  /** `og:price:amount` is taken before trimming, so a blank one hides the
      other sources and the card shows an empty price instead of '請點擊查看'. */
  lemma BlankOgPriceGivesEmptyPrice(p: GenericPage, origin: string)
    requires p.ogPrice == Some(" ")
    ensures ScrapeGeneric(p, origin).variants[0].price == ""
  {
    BlankCleansToEmpty();
  }
}
