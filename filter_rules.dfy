/** `checkProductRestriction` (server/utils/productFilterRules.ts): the verdict
    on whether a product may be ordered through the bot, from its title, its
    Shopify product type and tags, and its URL. */
module FilterRules {
  import opened Js
  import opened Text

  /** Title keywords that mark a product as restricted (lines 4-47); `ECSTAR`
      and `エクスター` are listed twice, as in the source. */
  const ProhibitedKeywords: seq<string> := [
    "ECSTAR", "エクスター",
    "ECSTAR", "エクスター",
    "M.MOWBRAY", "M.モゥブレィ", "モゥブレィ",
    "Yamalube", "ヤマルーブ",
    "Honda", "ホンダ純正オイル",
    "Kawasaki", "カワサキ純正オイル",
    "バッテリー", "電池", "Battery",
    "オイル", "Oil", "oil",
    "フルード", "Fluid", "Liquid",
    "ガソリン", "Fuel", "Gasoline",
    "クーラント", "Coolant", "冷却水",
    "アドブルー", "AdBlue",
    "防水スプレー", "Waterproof Spray",
    "グリス", "Grease", "グリース",
    "クリーナー", "Cleaner", "洗浄",
    "スプレー", "Spray",
    "ケミカル", "Chemical",
    "ワックス", "Wax", "コーティング", "Coating",
    "シャンプー", "Shampoo",
    "添加剤", "Additive",
    "セット", "Set", "Kit",
    "ペイント", "Paint", "塗料", "タッチペン",
    "パテ", "Putty",
    "接着剤", "Adhesive", "ボンド",
    "シーリング", "Sealing",
    "車両", "Vehicle",
    "タイヤ", "Tire",
    "ホイール", "Wheel",
    "エンジン", "Engine"
  ]

  /** Product types and tags that mark a product as restricted (lines 50-54). */
  const ProhibitedTypes: seq<string> := [
    "Oil", "Chemical", "Maintenance", "Liquid", "Battery", "Fluids",
    "Grease", "Lubricant", "Paint", "Repair",
    "オイル", "ケミカル", "メンテナンス", "グリス", "バッテリー"
  ]

  /** URL fragments of restricted collections (lines 57-62). */
  const ProhibitedUrls: seq<string> := [
    "collections/ecstar_oil_chemical",
    "collections/batteries",
    "collections/maintenance",
    "collections/chemicals"
  ]

  /** Title keywords that exempt a product from every other rule (lines 65-78). */
  const SafeKeywords: seq<string> := [
    "ステッカー", "Sticker", "デカール", "Decal",
    "キーホルダー", "Key Holder", "Keyring",
    "フィギュア", "Figure", "模型", "Model",
    "Tシャツ", "T-shirt", "Apparel", "Hoodie",
    "エンブレム", "Emblem",
    "キャップ", "Cap", "Hat",
    "グローブ", "Glove",
    "バッグ", "Bag", "Tote", "Wallet",
    "カバー", "Cover", "Case",
    "カップ", "Cup", "Mug", "Tumbler",
    "タオル", "Towel", "Handkerchief",
    "ペン", "Pen", "Stationery", "Notebook"
  ]

  const UrlReason: string := "網址列管"
  const TypeReason: string := "商品類型列管"
  const KeywordReason: string := "關鍵字列管"

  /** The `tags` argument: `undefined`, an array, or some other value, which
      `Array.isArray` refuses. */
  datatype Tags = NoTags | TagList(items: seq<string>) | NotAList

  datatype Verdict = Verdict(isRestricted: bool, reason: string)

  /** `keys.some(k => s.toLowerCase().includes(k.toLowerCase()))`. */
  predicate AnyCi(s: string, keys: seq<string>) {
    exists k :: k in keys && ContainsCi(s, k)
  }

  /** Line 89: case-sensitive `url.includes(badUrl)`. */
  predicate UrlHit(url: string) {
    exists p :: p in ProhibitedUrls && Contains(url, p)
  }

  /** Line 92. */
  predicate KeywordHit(title: string) {
    AnyCi(title, ProhibitedKeywords)
  }

  /** Lines 95-104: the product type counts only when it is non-empty, the
      tags only when they are an array. */
  predicate TypeHit(productType: Option<string>, tags: Tags) {
    (Truthy(productType) && AnyCi(productType.value, ProhibitedTypes))
    || (tags.TagList? && exists t :: t in tags.items && AnyCi(t, ProhibitedTypes))
  }

  /** Line 107. */
  predicate SafeHit(title: string) {
    AnyCi(title, SafeKeywords)
  }

  /** server/utils/productFilterRules.ts:81-120. */
  function CheckProductRestriction(title: string, productType: Option<string>, tags: Tags, url: string): (v: Verdict)
    ensures v.isRestricted <==> (UrlHit(url) || KeywordHit(title) || TypeHit(productType, tags)) && !SafeHit(title)
    ensures v.reason in {"", UrlReason, TypeReason, KeywordReason}
  {
    var restricted := (UrlHit(url) || KeywordHit(title) || TypeHit(productType, tags)) && !SafeHit(title);
    var reason :=
      if !restricted then ""
      else if UrlHit(url) then UrlReason
      else if TypeHit(productType, tags) then TypeReason
      else KeywordReason;
    Verdict(restricted, reason)
  }

  /** A title with a safe keyword is never restricted, whatever the URL, the
      type and the tags say. */
  lemma SafeTitleNeverRestricted(title: string, productType: Option<string>, tags: Tags, url: string, k: string)
    requires k in SafeKeywords && ContainsCi(title, k)
    ensures !CheckProductRestriction(title, productType, tags, url).isRestricted
    ensures CheckProductRestriction(title, productType, tags, url).reason == ""
  {
  }

  /** The reason is empty exactly when the product is not restricted. */
  lemma ReasonIffRestricted(title: string, productType: Option<string>, tags: Tags, url: string)
    ensures var v := CheckProductRestriction(title, productType, tags, url);
      v.reason == "" <==> !v.isRestricted
  {
    assert UrlReason[0] == '網' && TypeReason[0] == '商' && KeywordReason[0] == '關';
  }

  /** When several rules fire, the URL reason beats the type reason, which
      beats the keyword reason. */
  lemma ReasonPriority(title: string, productType: Option<string>, tags: Tags, url: string)
    requires CheckProductRestriction(title, productType, tags, url).isRestricted
    ensures var v := CheckProductRestriction(title, productType, tags, url);
      (UrlHit(url) ==> v.reason == UrlReason)
      && (!UrlHit(url) && TypeHit(productType, tags) ==> v.reason == TypeReason)
      && (!UrlHit(url) && !TypeHit(productType, tags) ==> v.reason == KeywordReason && KeywordHit(title))
  {
  }

  /** A prohibited title keyword, in any ASCII case, restricts a product that
      has no safe keyword. */
  lemma KeywordRestricts(title: string, productType: Option<string>, tags: Tags, url: string, k: string)
    requires k in ProhibitedKeywords && ContainsCi(title, k) && !SafeHit(title)
    ensures CheckProductRestriction(title, productType, tags, url).isRestricted
  {
  }

  /** Title matching ignores ASCII case: two titles that lower-case to the same
      string get the same verdict. */
  lemma TitleCaseIgnored(t1: string, t2: string, productType: Option<string>, tags: Tags, url: string)
    requires Lower(t1) == Lower(t2)
    ensures CheckProductRestriction(t1, productType, tags, url) == CheckProductRestriction(t2, productType, tags, url)
  {
  }

  /** An undefined or empty product type and tags that are missing or not an
      array contribute no hit. */
  lemma NoTypeNoTags(productType: Option<string>, tags: Tags)
    requires !Truthy(productType) && !tags.TagList?
    ensures !TypeHit(productType, tags)
  {
  }

  /** Each prohibited collection path starts with a lower-case `c`. */
  lemma UrlsStartWithC()
    ensures forall p :: p in ProhibitedUrls ==> p != [] && p[0] == 'c'
  {
  }

  /** URL matching is case-sensitive: a URL without a lower-case `c` never
      hits, so an upper-cased collection path is let through. */
  lemma {:induction false} UrlWithoutLowerCNeverHits(url: string)
    requires 'c' !in url
    ensures !UrlHit(url)
  {
    UrlsStartWithC();
    if UrlHit(url) {
      var p :| p in ProhibitedUrls && Contains(url, p);
      ContainsChar(url, p, p[0]);
      assert false;
    }
  }

  /** `collections/batteries` hits in lower case and is let through in upper
      case. */
  lemma UrlCaseSensitive()
    ensures UrlHit("collections/batteries")
    ensures !UrlHit("COLLECTIONS/BATTERIES")
  {
    var p := "collections/batteries";
    ContainsPrefix(p, p);
    assert p in ProhibitedUrls;
    UrlWithoutLowerCNeverHits("COLLECTIONS/BATTERIES");
  }
}
