/** The earlier webhook handler, server/api/webhook.ts: the same delivery
    channel plus an acknowledgement that never pushes, a buy postback that
    only inserts, gating on four shop domains, the choice among the Shopify,
    HYOD and OpenGraph scrapers, and the size-button priority rule. */
module WebhookLegacy {
  import opened Js
  import opened Text
  import opened Transport
  import opened CartStore
  import opened Commands
  import opened Products
  import FilterRules
  import ScrapeShopify
  import ScrapeHyod
  import ScrapeGeneric
  import LineImage

  const UnknownItem: string := "未知商品"
  const FreeSize: string := "F"
  const ZeroPrice: string := "¥0"

  // ---------------------------------------------------------------
  // The buy postback (lines 154-209)
  // ---------------------------------------------------------------

  datatype LegacyBuy = LegacyBuy(title: string, color: string, size: string, price: string, image: string)

  /** Lines 159-163: each field under its short or its long name, else a
      default. */
  function ReadLegacyBuy(data: seq<(string, string)>): LegacyBuy {
    LegacyBuy(
      OptOrElse(Or(Get(data, "t"), Get(data, "item")), UnknownItem),
      OptOrElse(Or(Get(data, "c"), Get(data, "color")), FreeSize),
      OptOrElse(Or(Get(data, "s"), Get(data, "size")), FreeSize),
      OptOrElse(Or(Get(data, "p"), Get(data, "price")), ZeroPrice),
      OptOrElse(Or(Get(data, "i"), Get(data, "img")), ""))
  }

  function LegacyKey(userId: string, b: LegacyBuy): Key {
    Key(userId, b.title, b.color, b.size)
  }

  /** Lines 185-192: the columns this handler writes. */
  function LegacyRow(userId: string, b: LegacyBuy): CartRow {
    CartRow(0, LegacyKey(userId, b), None, b.price, b.image, None, None, None, None)
  }

  /** The table after the postback: a row is added only when none has the
      key and the insert succeeds. */
  function LegacyRows(rows: seq<CartRow>, nextId: nat, err: Option<string>, userId: string, b: LegacyBuy): seq<CartRow> {
    if AnyMatch(rows, LegacyKey(userId, b)) || err.Some? then rows
    else rows + [LegacyRow(userId, b).(id := nextId)]
  }

  /** The id the table hands out next: one more only after an insert. */
  function LegacyNextId(rows: seq<CartRow>, nextId: nat, err: Option<string>, userId: string, b: LegacyBuy): nat {
    if !AnyMatch(rows, LegacyKey(userId, b)) && err.None? then nextId + 1 else nextId
  }

  function ItemLines(b: LegacyBuy): string {
    "\n\n商品：" + b.title + "\n顏色：" + b.color + "\n尺寸：" + b.size
  }

  const AlreadyHead: string := "ℹ️ 此商品已在購物車中！"
  const AlreadyTail: string := "\n\n🛒 點擊選單「查看購物車」即可查看。"
  const AddedHead: string := "✅ 已成功加入購物車！"
  const AddedTail: string := "\n\n🛒 點擊選單「查看購物車」即可查看所有商品。"
  const FailPrefix: string := "抱歉，加入失敗。原因："

  function LegacyReply(present: bool, err: Option<string>, b: LegacyBuy): string {
    if present then AlreadyHead + ItemLines(b) + AlreadyTail
    else if err.Some? then FailPrefix + err.value
    else AddedHead + ItemLines(b) + AddedTail
  }

  /** Lines 178-183: an existing row is left as it is, whatever the store
      would do with a write, and the reply says it is already in the cart. */
  lemma NeverIncrements(rows: seq<CartRow>, nextId: nat, err: Option<string>, userId: string, data: seq<(string, string)>)
    requires AnyMatch(rows, LegacyKey(userId, ReadLegacyBuy(data)))
    ensures LegacyRows(rows, nextId, err, userId, ReadLegacyBuy(data)) == rows
    ensures StartsWith(LegacyReply(true, err, ReadLegacyBuy(data)), AlreadyHead)
  {
    var b := ReadLegacyBuy(data);
    StartsWithConcat(AlreadyHead, ItemLines(b), AlreadyTail);
  }

  /** Lines 184-205: without a row, a successful insert adds exactly one,
      which is then the row found for the key; its quantity is left to the
      store. */
  lemma InsertsWhenAbsent(rows: seq<CartRow>, nextId: nat, userId: string, data: seq<(string, string)>)
    requires !AnyMatch(rows, LegacyKey(userId, ReadLegacyBuy(data)))
    ensures var b := ReadLegacyBuy(data);
      var after := LegacyRows(rows, nextId, None, userId, b);
      |after| == |rows| + 1 && after[..|rows|] == rows && after[|rows|].quantity == None
      && Single(after, LegacyKey(userId, b)) == Some(after[|rows|])
  {
    var b := ReadLegacyBuy(data);
    MatchingNonEmpty(rows, LegacyKey(userId, b));
    InsertFound(rows, LegacyRow(userId, b).(id := nextId));
  }

  /** Lines 167-192 against the table: look for the key with `limit(1)`, and
      insert only when nothing was found. */
  method AddIfAbsent(table: CartTable, userId: string, b: LegacyBuy) returns (present: bool, err: Option<string>)
    requires table.Valid()
    modifies table
    ensures table.Valid()
    ensures present == AnyMatch(old(table.rows), LegacyKey(userId, b))
    ensures present ==> err.None? && table.writes == old(table.writes)
    ensures !present ==> err == table.writeError(old(table.writes)) && table.writes == old(table.writes) + 1
    ensures table.rows == LegacyRows(old(table.rows), old(table.nextId), err, userId, b)
    ensures table.nextId == LegacyNextId(old(table.rows), old(table.nextId), err, userId, b)
  {
    present := AnyMatch(table.rows, LegacyKey(userId, b));
    err := None;
    if !present {
      err := table.Insert(LegacyRow(userId, b));
    }
  }

  method BuyPostback(ch: Channel, table: CartTable, userId: string, data: seq<(string, string)>) returns (ok: bool)
    requires table.Valid()
    modifies ch, ch.line, table
    ensures table.Valid()
    ensures var b := ReadLegacyBuy(data);
      var present := AnyMatch(old(table.rows), LegacyKey(userId, b));
      var err := if present then None else table.writeError(old(table.writes));
      table.rows == LegacyRows(old(table.rows), old(table.nextId), err, userId, b)
      && table.nextId == LegacyNextId(old(table.rows), old(table.nextId), err, userId, b)
      && table.writes == (if present then old(table.writes) else old(table.writes) + 1)
      && var n := |old(ch.line.log)|;
      var e := ReplyOrPush(old(ch.replyTokenUsed), ch.replyToken, ch.userId, Text(LegacyReply(present, err, b)),
                           ch.line.outcome(n), ch.line.outcome(n + 1));
      ch.line.log == old(ch.line.log) + e.sends && ok == e.ok
  {
    var b := ReadLegacyBuy(data);
    var present, err := AddIfAbsent(table, userId, b);
    ok := ch.SendReplyOrPush(Text(LegacyReply(present, err, b)));
  }

  // ---------------------------------------------------------------
  // Gating and scraper choice (lines 252-312)
  // ---------------------------------------------------------------

  /** Lines 252-258: the four shop domains. */
  predicate IsAllowed(t: string) {
    Contains(t, "uniqlo.com") || Contains(t, "gu-global.com") || Contains(t, "56-design.com") || Contains(t, "hyod-products.com")
  }

  /** Lines 263-275: a 56-design or autorimessa link without `/products/`,
      or a HYOD link without `/item/` or `ProductDetail`, is a category or
      home page. */
  predicate IsProductUrl(t: string) {
    !((Contains(t, "56-design.com") || Contains(t, "autorimessa.com")) && !Contains(t, "/products/"))
    && !(Contains(t, "hyod-products.com") && !Contains(t, "/item/") && !Contains(t, "ProductDetail"))
  }

  /** Lines 294-300. */
  predicate UsesShopify(t: string) {
    Contains(t, "56-design.com") || Contains(t, "/products/") || Contains(t, "autorimessa.com")
  }

  /** The page behind a link, as the HYOD and OpenGraph scrapers read it. */
  datatype Html = Html(hyod: ScrapeHyod.HyodPage, generic: ScrapeGeneric.GenericPage)

  /** What the network gives: `new URL` (`None` when it throws), the
      Shopify JSON at a URL and the HTML at a URL (`None` when the request
      fails). */
  datatype Web = Web(
    parse: string -> Option<ScrapeShopify.UrlParts>,
    json: string -> Option<ScrapeShopify.ShopifyJson>,
    html: string -> Option<Html>)

  function OriginOf(u: Option<ScrapeShopify.UrlParts>): Option<string> {
    if u.Some? then Some(u.value.origin) else None
  }

  /** `fixUrl` needs the page's origin only for a root-relative image. */
  predicate NeedsOrigin(image: Option<string>) {
    Truthy(image) && StartsWith(Trim(image.value), "/") && !StartsWith(Trim(image.value), "//")
  }

  /** `scrapeGeneric`, which throws when the image needs an origin the page
      URL cannot give. */
  function GenericOf(g: ScrapeGeneric.GenericPage, origin: Option<string>): Option<Product> {
    if origin.Some? then Some(ScrapeGeneric.ScrapeGeneric(g, origin.value))
    else if NeedsOrigin(g.ogImage) then None
    else Some(ScrapeGeneric.ScrapeGeneric(g, ""))
  }

  /** The page scrapers, run when the Shopify scraper gave nothing. */
  function FromPage(t: string, w: Web): Option<Product> {
    var h := w.html(t);
    if h.None? then None
    else if Contains(t, "hyod-products.com") then ScrapeHyod.HyodProduct(h.value.hyod, OriginOf(w.parse(t)))
    else GenericOf(h.value.generic, OriginOf(w.parse(t)))
  }

  /** Lines 292-312: `None` when no scraper gives a product or the page
      request fails. */
  function ScrapeLink(t: string, w: Web): Option<Product> {
    var shop := if UsesShopify(t) then ScrapeShopify.ShopifyProduct(w.parse(t), w.json) else None;
    if shop.Some? then shop else FromPage(t, w)
  }

  /** The Shopify scraper runs first for its links, and its product is used
      when it gives one; otherwise a HYOD link goes to the HYOD scraper and
      any other link to the OpenGraph one. */
  lemma ScraperOrder(t: string, w: Web)
    ensures UsesShopify(t) && ScrapeShopify.ShopifyProduct(w.parse(t), w.json).Some? ==>
      ScrapeLink(t, w) == ScrapeShopify.ShopifyProduct(w.parse(t), w.json)
    ensures (!UsesShopify(t) || ScrapeShopify.ShopifyProduct(w.parse(t), w.json).None?) && w.html(t).Some? ==>
      ScrapeLink(t, w) == (if Contains(t, "hyod-products.com") then ScrapeHyod.HyodProduct(w.html(t).value.hyod, OriginOf(w.parse(t)))
                           else GenericOf(w.html(t).value.generic, OriginOf(w.parse(t))))
  {
  }

  /** A link outside the four domains is ignored even when it names an
      autorimessa shop. */
  lemma AutorimessaAloneIgnored()
    ensures !IsAllowed("https://autorimessa.com/products/x")
  {
    var t := "https://autorimessa.com/products/x";
    NoChar(t, "hyod-products.com", 'y');
    NotContainedUniqlo(t);
    NotContainedGu(t);
    NotContained56(t);
  }

  lemma NotContainedUniqlo(t: string)
    requires t == "https://autorimessa.com/products/x"
    ensures !Contains(t, "uniqlo.com")
  {
    NoChar(t, "uniqlo.com", 'q');
  }

  lemma NotContainedGu(t: string)
    requires t == "https://autorimessa.com/products/x"
    ensures !Contains(t, "gu-global.com")
  {
    NoChar(t, "gu-global.com", 'g');
  }

  lemma NotContained56(t: string)
    requires t == "https://autorimessa.com/products/x"
    ensures !Contains(t, "56-design.com")
  {
    NoChar(t, "56-design.com", '5');
  }

  /** A text without some character of `p` does not contain `p`. */
  lemma NoChar(s: string, p: string, c: char)
    requires c in p && c !in s
    ensures !Contains(s, p)
  {
    if Contains(s, p) {
      ContainsChar(s, p, c);
    }
  }

  // ---------------------------------------------------------------
  // Cards and the size-button priority (lines 314-641)
  // ---------------------------------------------------------------

  const MaxCards: nat := 10
  const HelmetNotice: string := "此商品請務必點擊下方「專人報價回覆」，感謝你的配合。"
  const RestrictedNote: string := "⚠️ 此商品含有禁運成分，無法直接結帳。"
  const HelmetNote: string := "⚠️ 此商品請務必點擊下方「專人報價回覆」，感謝你的配合。"
  const ChooseOnSite: string := "請前往官網選擇尺寸"
  const SingleStyle: string := "單一款式"

  /** Line 345. */
  predicate IsSoldOut(size: string) {
    Contains(size, "缺貨") || Contains(size, "已售完")
  }

  function RestrictedQuote(title: string, color: string, size: string): string {
    "🙋‍♂️ 您好！我想詢問這款「特殊商品」的報價：\n\n商品：" + title + "\n顏色：" + color + "\n尺寸：" + size
    + "\n\n系統提示此商品可能含有禁運成分，請協助確認。"
  }

  /** Lines 437-441. */
  function LegacyData(title: string, v: Variant, size: string): seq<(string, string)> {
    [("action", "buy"), ("t", Prefix(title, 60)), ("c", Prefix(v.color, 20)), ("s", Prefix(size, 20)), ("p", Prefix(v.price, 20))]
  }

  /** Lines 344-471: helmet, then restricted, then sold out, then buy. */
  function SizeButton(title: string, v: Variant, size: string, helmet: bool, restricted: bool, link: string): Button {
    if helmet then Button(size, size + " | 需專人報價", MessageAction(HelmetNotice))
    else if restricted then Button(size, size + " | 需人工確認", MessageAction(RestrictedQuote(title, v.color, size)))
    else if IsSoldOut(size) then Button(size, "❌ 已售完", UriAction(link))
    else Button(size, size + " | 加入購物車", PostbackAction(LegacyData(title, v, size)))
  }

  function LegacyCard(title: string, v: Variant, helmet: bool, restricted: bool, link: string): Card {
    Card(LineImage.EnsureLineImageUrl(v.image), title, if v.color == SingleStyle then "ONE COLOR" else v.color, v.price,
         (if restricted then [RestrictedNote] else []) + (if helmet then [HelmetNote] else [])
         + (if |v.sizes| == 0 then [ChooseOnSite] else []),
         seq(|v.sizes|, i requires 0 <= i < |v.sizes| => SizeButton(title, v, v.sizes[i], helmet, restricted, link)),
         link)
  }

  /** `productType` and `tags` when the scraper gives them, else "" and
      no tags. */
  function TypeOf(p: Product): Option<string> {
    if p.productType.Some? then p.productType else Some("")
  }

  function TagsOf(p: Product): FilterRules.Tags {
    if p.tags.NoTags? then FilterRules.TagList([]) else p.tags
  }

  predicate Restricted(p: Product, link: string) {
    FilterRules.CheckProductRestriction(p.title, TypeOf(p), TagsOf(p), link).isRestricted
  }

  /** Lines 330-332. */
  predicate Helmet56(p: Product, link: string) {
    Contains(link, "56-design.com") && p.isHelmet
  }

  function LegacyCarousel(p: Product, link: string): Message {
    var vs := if |p.variants| <= MaxCards then p.variants else p.variants[..MaxCards];
    var helmet := Helmet56(p, link);
    var restricted := Restricted(p, link);
    Carousel("推薦商品：" + p.title, seq(|vs|, i requires 0 <= i < |vs| => LegacyCard(p.title, vs[i], helmet, restricted, link)))
  }

  /** The priority rule: a 56-design helmet asks for a quote; otherwise a
      restricted product asks for a manual check; otherwise a size labelled
      缺貨 or 已售完 links to the page; otherwise the button buys. */
  lemma ButtonPriority(title: string, v: Variant, size: string, helmet: bool, restricted: bool, link: string)
    ensures var a := SizeButton(title, v, size, helmet, restricted, link).action;
      (helmet ==> a == MessageAction(HelmetNotice))
      && (!helmet && restricted ==> a.MessageAction? && a.text == RestrictedQuote(title, v.color, size))
      && (!helmet && !restricted && IsSoldOut(size) ==> a == UriAction(link))
      && (!helmet && !restricted && !IsSoldOut(size) ==> a.PostbackAction?)
  {
  }

  /** A buy button's postback, read back by the buy handler: the title cut
      to 60 characters and colour, size and price to 20 each. */
  lemma LegacyDataRoundTrip(title: string, v: Variant, size: string)
    ensures var b := ReadLegacyBuy(LegacyData(title, v, size));
      b.title == OrElse(Prefix(title, 60), UnknownItem) && b.color == OrElse(Prefix(v.color, 20), FreeSize)
      && b.size == OrElse(Prefix(size, 20), FreeSize) && b.price == OrElse(Prefix(v.price, 20), ZeroPrice)
      && b.image == ""
  {
    var d := LegacyData(title, v, size);
    LegacyTexts(title, v, size);
    LegacyAbsent(title, v, size);
  }

  lemma LegacyTexts(title: string, v: Variant, size: string)
    ensures var d := LegacyData(title, v, size);
      Get(d, "t") == Some(Prefix(title, 60)) && Get(d, "c") == Some(Prefix(v.color, 20))
      && Get(d, "s") == Some(Prefix(size, 20)) && Get(d, "p") == Some(Prefix(v.price, 20))
  {
    var d := LegacyData(title, v, size);
    GetIndex(d, 1);
    GetIndex(d, 2);
    GetIndex(d, 3);
    GetIndex(d, 4);
  }

  lemma LegacyAbsent(title: string, v: Variant, size: string)
    ensures var d := LegacyData(title, v, size);
      Get(d, "item") == None && Get(d, "color") == None && Get(d, "size") == None
      && Get(d, "price") == None && Get(d, "i") == None && Get(d, "img") == None
  {
    var d := LegacyData(title, v, size);
    GetAbsent(d, "item");
    GetAbsent(d, "color");
    GetAbsent(d, "size");
    GetAbsent(d, "price");
    GetAbsent(d, "i");
    GetAbsent(d, "img");
  }

  lemma GetAbsent(data: seq<(string, string)>, key: string)
    requires forall i :: 0 <= i < |data| ==> data[i].0 != key
    ensures Get(data, key) == None
  {
    GetFound(data, key);
  }

  /** At most ten cards, one per variant in order; without a size a card
      shows the go-to-site text instead of buttons. */
  lemma CardsCapped(p: Product, link: string, i: nat)
    ensures var cards := LegacyCarousel(p, link).cards;
      |cards| == (if |p.variants| <= MaxCards then |p.variants| else MaxCards)
      && (i < |cards| ==>
            |cards[i].buttons| == |p.variants[i].sizes| && (|p.variants[i].sizes| == 0 ==> ChooseOnSite in cards[i].notes))
  {
    var vs := if |p.variants| <= MaxCards then p.variants else p.variants[..MaxCards];
    var cards := LegacyCarousel(p, link).cards;
    if i < |cards| {
      var c := LegacyCard(p.title, vs[i], Helmet56(p, link), Restricted(p, link), link);
      assert cards[i] == c;
      assert vs[i] == p.variants[i];
      if |vs[i].sizes| == 0 {
        assert c.notes[|c.notes| - 1] == ChooseOnSite;
      }
    }
  }

  /** Only a 56-design link can get the helmet buttons. */
  lemma HelmetOnlyOn56(p: Product, link: string)
    requires !Contains(link, "56-design.com")
    ensures !Helmet56(p, link)
  {
  }

  // ---------------------------------------------------------------
  // The product-link flow and one event
  // ---------------------------------------------------------------

  const CategoryHint: string := "💡 這是「分類頁」或「首頁」喔！請貼單一商品的網址～"
  const AckText: string := "收到網址，正在讀取商品資料，完成後會再傳結果給你 👀"

  function CarouselOf(p: Option<Product>, link: string): Option<Message> {
    if p.Some? then Some(LegacyCarousel(p.value, link)) else None
  }

  /** Lines 292-674 after the acknowledgement: the carousel by push, and one
      apology by push when there is no product or that push throws; the
      apology's own failure is swallowed. */
  function LinkSends(used: bool, userId: Option<string>, carousel: Option<Message>, out: nat -> SendOutcome, n: nat): seq<Send> {
    var apology := Text(Apology);
    if carousel.None? then PushOnly(used, userId, apology, out(n)).sends
    else
      var e := PushOnly(used, userId, carousel.value, out(n));
      if e.ok then e.sends else e.sends + PushOnly(used, userId, apology, out(n + |e.sends|)).sends
  }

  /** The whole flow for a product link: the acknowledgement by reply only
      (its failure rejects the event), then the pushes. */
  function LinkFlow(used: bool, token: Option<string>, userId: Option<string>, carousel: Option<Message>,
                    out: nat -> SendOutcome, n: nat): Effect {
    var a := ReplyOnlyIfPossible(used, token, Text(AckText), out(n));
    if !a.ok then a
    else Effect(a.sends + LinkSends(a.used, userId, carousel, out, n + |a.sends|), a.used, true)
  }

  /** The acknowledgement is the only reply of the flow, and the flow fails
      only when that reply fails with an error other than an invalid token. */
  lemma AckIsOnlyReply(used: bool, token: Option<string>, userId: Option<string>, carousel: Option<Message>,
                       out: nat -> SendOutcome, n: nat)
    ensures var e := LinkFlow(used, token, userId, carousel, out, n);
      Replies(e.sends) == (if CanReply(used, token) then 1 else 0)
      && (!e.ok <==> CanReply(used, token) && out(n).Failed? && !IsInvalidReplyTokenError(out(n).error))
  {
    var e := LinkFlow(used, token, userId, carousel, out, n);
    var a := ReplyOnlyIfPossible(used, token, Text(AckText), out(n));
    ReplyOnlyNeverPushes(used, token, Text(AckText), out(n));
    AckReplies(used, token, out(n));
    if a.ok {
      var rest := LinkSends(a.used, userId, carousel, out, n + |a.sends|);
      assert e.sends == a.sends + rest && e.ok;
      LinkSendsOnlyPush(a.used, userId, carousel, out, n + |a.sends|);
      RepliesAppend(a.sends, rest);
    } else {
      assert e == a;
    }
  }

  lemma AckReplies(used: bool, token: Option<string>, o: SendOutcome)
    ensures Replies(ReplyOnlyIfPossible(used, token, Text(AckText), o).sends) == (if CanReply(used, token) then 1 else 0)
  {
    var ss := ReplyOnlyIfPossible(used, token, Text(AckText), o).sends;
    if CanReply(used, token) {
      assert ss == [Reply(token.value, Text(AckText))];
      assert ss[..0] == [];
    } else {
      assert ss == [];
    }
  }

  /** After the acknowledgement nothing is replied: the result and the
      apology only ever go by push. */
  lemma LinkSendsOnlyPush(used: bool, userId: Option<string>, carousel: Option<Message>, out: nat -> SendOutcome, n: nat)
    ensures Replies(LinkSends(used, userId, carousel, out, n)) == 0
  {
    var ss := LinkSends(used, userId, carousel, out, n);
    assert forall i :: 0 <= i < |ss| ==> !IsReply(ss[i]);
    NoReplies(ss);
  }

  /** Lines 643-674: push the carousel, or the apology. */
  method PushResult(ch: Channel, carousel: Option<Message>)
    modifies ch.line
    ensures ch.line.log == old(ch.line.log) + LinkSends(ch.replyTokenUsed, ch.userId, carousel, ch.line.outcome, |old(ch.line.log)|)
  {
    var sent := false;
    if carousel.Some? {
      sent := ch.SendPushOnly(carousel.value);
    }
    if !sent {
      var _ := ch.SendPushOnly(Text(Apology));
    }
  }

  /** Lines 285-674, the product fetched beforehand. */
  method ProductLink(ch: Channel, carousel: Option<Message>) returns (ok: bool)
    modifies ch, ch.line
    ensures var e := LinkFlow(old(ch.replyTokenUsed), ch.replyToken, ch.userId, carousel, ch.line.outcome, |old(ch.line.log)|);
      ch.line.log == old(ch.line.log) + e.sends && ok == e.ok
  {
    ok := ch.SendReplyOnlyIfPossible(Text(AckText));
    if ok {
      PushResult(ch, carousel);
    }
  }

  /** Lines 292-312, calling the scrapers. */
  method Scrape(link: string, w: Web) returns (r: Option<Product>)
    ensures r == ScrapeLink(link, w)
  {
    r := None;
    if UsesShopify(link) {
      r := ScrapeShopify.ScrapeShopify(w.parse(link), w.json);
    }
    if r.None? {
      var h := w.html(link);
      if h.None? {
        return None;
      }
      if Contains(link, "hyod-products.com") {
        r := ScrapeHyod.ScrapeHyod(h.value.hyod, OriginOf(w.parse(link)));
      } else {
        r := GenericOf(h.value.generic, OriginOf(w.parse(link)));
      }
    }
  }

  /** Lines 154-209 on the world: at most one write, then one reply. */
  function LegacyBuyStep(ev: Event, userId: string, data: seq<(string, string)>, w: World,
                         out: nat -> SendOutcome, writeError: nat -> Option<string>): (World, bool)
  {
    var b := ReadLegacyBuy(data);
    var present := AnyMatch(w.rows, LegacyKey(userId, b));
    var err := if present then None else writeError(w.writes);
    var e := Say(ev, Text(LegacyReply(present, err, b)), out, |w.log|);
    (World(w.log + e.sends, LegacyRows(w.rows, w.nextId, err, userId, b), LegacyNextId(w.rows, w.nextId, err, userId, b),
           if present then w.writes else w.writes + 1), e.ok)
  }

  /** Lines 154-210: only a buy postback is acted on. */
  function PostbackStep(ev: Event, userId: string, data: seq<(string, string)>, w: World,
                        out: nat -> SendOutcome, writeError: nat -> Option<string>): (World, bool)
  {
    if Get(data, "action") == Some("buy") then LegacyBuyStep(ev, userId, data, w, out, writeError) else (w, true)
  }

  /** Lines 213-674 on the world, for the trimmed text `t`. */
  function TextStep(ev: Event, t: string, w: World, out: nat -> SendOutcome, web: Web, profile: string -> Option<string>): (World, bool) {
    if t == IdCommand then Sent(w, Say(ev, Text(IdText(ev.userId)), out, |w.log|))
    else if StartsWith(t, ServicePrefix) then Sent(w, ServiceEffect(false, ev.replyToken, ev.userId, t, profile, out, |w.log|))
    else if !IsAllowed(t) then (w, true)
    else if !IsProductUrl(t) then Sent(w, Say(ev, Text(CategoryHint), out, |w.log|))
    else LinkStep(ev.replyToken, ev.userId, t, w, out, web)
  }

  /** Lines 285-674: a product link on an allowed site runs the link flow on
      the scraped product. */
  function LinkStep(token: Option<string>, userId: Option<string>, t: string, w: World, out: nat -> SendOutcome, web: Web)
    : (World, bool)
  {
    Sent(w, LinkFlow(false, token, userId, CarouselOf(ScrapeLink(t, web), t), out, |w.log|))
  }

  /** Lines 71-675: what one event does to the world, and whether its
      promise resolves. A redelivery, a postback without a user id or with
      another action, another kind of event, and a text that is neither a
      command nor a link to an allowed shop change nothing. */
  function EventStep(ev: Event, w: World, out: nat -> SendOutcome, writeError: nat -> Option<string>,
                     web: Web, profile: string -> Option<string>): (World, bool)
  {
    if ev.isRedelivery then (w, true)
    else if ev.kind.PostbackEvent? && Truthy(ev.userId) then PostbackStep(ev, ev.userId.value, ev.kind.data, w, out, writeError)
    else if !ev.kind.TextEvent? then (w, true)
    else TextStep(ev, Trim(ev.kind.text), w, out, web, profile)
  }

  function Step(out: nat -> SendOutcome, writeError: nat -> Option<string>, web: Web, profile: string -> Option<string>)
    : (Event, World) -> (World, bool)
  {
    (ev, w) => EventStep(ev, w, out, writeError, web, profile)
  }

  /** A text leaves the table alone and only adds to the log. */
  lemma TextStepKeeps(ev: Event, t: string, w: World, out: nat -> SendOutcome, web: Web, profile: string -> Option<string>)
    ensures var s := TextStep(ev, t, w, out, web, profile).0;
      s.rows == w.rows && s.nextId == w.nextId && s.writes == w.writes
      && |w.log| <= |s.log| && s.log[..|w.log|] == w.log
  {
  }

  /** Only a buy postback touches the table. */
  lemma OnlyBuyWrites(ev: Event, w: World, out: nat -> SendOutcome, writeError: nat -> Option<string>,
                      web: Web, profile: string -> Option<string>)
    requires !IsBuy(ev)
    ensures var s := EventStep(ev, w, out, writeError, web, profile).0;
      s.rows == w.rows && s.nextId == w.nextId && s.writes == w.writes
  {
    if !ev.isRedelivery && !(ev.kind.PostbackEvent? && Truthy(ev.userId)) && ev.kind.TextEvent? {
      TextStepKeeps(ev, Trim(ev.kind.text), w, out, web, profile);
    }
  }

  /** An event only adds to the LINE log. */
  lemma EventAppends(ev: Event, w: World, out: nat -> SendOutcome, writeError: nat -> Option<string>,
                     web: Web, profile: string -> Option<string>)
    ensures var s := EventStep(ev, w, out, writeError, web, profile).0;
      |w.log| <= |s.log| && s.log[..|w.log|] == w.log
  {
    if !ev.isRedelivery && !(ev.kind.PostbackEvent? && Truthy(ev.userId)) && ev.kind.TextEvent? {
      TextStepKeeps(ev, Trim(ev.kind.text), w, out, web, profile);
    }
  }

  /** A buy postback only ever appends to the table, writes at most once,
      and afterwards the item is in the cart unless its insert failed. */
  lemma BuyStoresItem(ev: Event, w: World, out: nat -> SendOutcome, writeError: nat -> Option<string>,
                      web: Web, profile: string -> Option<string>)
    requires IsBuy(ev)
    ensures var s := EventStep(ev, w, out, writeError, web, profile).0;
      var k := LegacyKey(ev.userId.value, ReadLegacyBuy(ev.kind.data));
      |w.rows| <= |s.rows| && s.rows[..|w.rows|] == w.rows && s.writes <= w.writes + 1
      && (AnyMatch(w.rows, k) || writeError(w.writes).None? ==> AnyMatch(s.rows, k))
  {
    var b := ReadLegacyBuy(ev.kind.data);
    var k := LegacyKey(ev.userId.value, b);
    var s := EventStep(ev, w, out, writeError, web, profile).0;
    var err := if AnyMatch(w.rows, k) then None else writeError(w.writes);
    assert s.rows == LegacyRows(w.rows, w.nextId, err, ev.userId.value, b);
    if !AnyMatch(w.rows, k) && err.None? {
      MatchingAppend(w.rows, LegacyRow(ev.userId.value, b).(id := w.nextId), k);
    }
  }

  /** Without a buy postback in the batch the table is left alone. */
  lemma {:induction false} BatchOnlyBuysWrite(events: seq<Event>, w: World, out: nat -> SendOutcome,
                                              writeError: nat -> Option<string>, web: Web, profile: string -> Option<string>)
    requires forall i :: 0 <= i < |events| ==> !IsBuy(events[i])
    ensures var f := Runs(events, w, Step(out, writeError, web, profile)).0;
      f.rows == w.rows && f.nextId == w.nextId && f.writes == w.writes
  {
    if events != [] {
      var init := events[..|events| - 1];
      BatchOnlyBuysWrite(init, w, out, writeError, web, profile);
      OnlyBuyWrites(events[|events| - 1], Runs(init, w, Step(out, writeError, web, profile)).0, out, writeError, web, profile);
    }
  }

  /** The batch only adds to the LINE log. */
  lemma {:induction false} BatchAppends(events: seq<Event>, w: World, out: nat -> SendOutcome,
                                        writeError: nat -> Option<string>, web: Web, profile: string -> Option<string>)
    ensures var f := Runs(events, w, Step(out, writeError, web, profile)).0;
      |w.log| <= |f.log| && f.log[..|w.log|] == w.log
  {
    if events != [] {
      var init := events[..|events| - 1];
      BatchAppends(init, w, out, writeError, web, profile);
      var p := Runs(init, w, Step(out, writeError, web, profile)).0;
      EventAppends(events[|events| - 1], p, out, writeError, web, profile);
      var f := Runs(events, w, Step(out, writeError, web, profile)).0;
      assert f.log[..|p.log|] == p.log;
      assert f.log[..|w.log|] == p.log[..|w.log|];
    }
  }

  /** A redelivered event's promise always resolves. */
  lemma BatchRedeliveryResolves(events: seq<Event>, w: World, out: nat -> SendOutcome,
                                writeError: nat -> Option<string>, web: Web, profile: string -> Option<string>, i: nat)
    requires i < |events| && events[i].isRedelivery
    ensures Runs(events, w, Step(out, writeError, web, profile)).1[i]
  {
    RunsEach(events, w, Step(out, writeError, web, profile), i);
  }

  /** Lines 213-674, a text message on its own channel. */
  method HandleText(ev: Event, line: Line, table: CartTable, w: Web, profile: string -> Option<string>) returns (ok: bool)
    requires ev.kind.TextEvent?
    modifies line
    ensures (WorldOf(line, table), ok) == TextStep(ev, Trim(ev.kind.text), old(WorldOf(line, table)), line.outcome, w, profile)
  {
    var ch := new Channel(line, ev.userId, ev.replyToken);
    var userText := Trim(ev.kind.text);
    if userText == IdCommand {
      ok := ch.SendReplyOrPush(Text(IdText(ev.userId)));
      return;
    }
    if StartsWith(userText, ServicePrefix) {
      ok := CustomerService(ch, userText, profile);
      return;
    }
    if !IsAllowed(userText) {
      return true;
    }
    if !IsProductUrl(userText) {
      ok := ch.SendReplyOrPush(Text(CategoryHint));
      return;
    }
    ok := HandleLink(ch, userText, table, w);
  }

  /** Lines 285-674, on a fresh channel. */
  method HandleLink(ch: Channel, userText: string, table: CartTable, w: Web) returns (ok: bool)
    requires !ch.replyTokenUsed
    modifies ch, ch.line
    ensures (WorldOf(ch.line, table), ok)
      == LinkStep(ch.replyToken, ch.userId, userText, old(WorldOf(ch.line, table)), ch.line.outcome, w)
  {
    var product := Scrape(userText, w);
    ok := ProductLink(ch, CarouselOf(product, userText));
  }

  /** One event of the batch (lines 71-675); `ok` is false when the event's
      promise rejects. */
  method HandleEvent(ev: Event, line: Line, table: CartTable, w: Web, profile: string -> Option<string>) returns (ok: bool)
    requires table.Valid()
    modifies line, table
    ensures table.Valid()
    ensures (WorldOf(line, table), ok) == EventStep(ev, old(WorldOf(line, table)), line.outcome, table.writeError, w, profile)
  {
    if ev.isRedelivery {
      return true;
    }
    if ev.kind.PostbackEvent? && Truthy(ev.userId) {
      ok := HandlePostback(ev, ev.userId.value, line, table);
      return;
    }
    if !ev.kind.TextEvent? {
      return true;
    }
    ok := HandleText(ev, line, table, w, profile);
  }

  /** Lines 154-210, a postback on its own channel. */
  method HandlePostback(ev: Event, userId: string, line: Line, table: CartTable) returns (ok: bool)
    requires ev.kind.PostbackEvent? && table.Valid()
    modifies line, table
    ensures table.Valid()
    ensures (WorldOf(line, table), ok) == PostbackStep(ev, userId, ev.kind.data, old(WorldOf(line, table)), line.outcome, table.writeError)
  {
    ok := true;
    if Get(ev.kind.data, "action") == Some("buy") {
      var ch := new Channel(line, ev.userId, ev.replyToken);
      ok := BuyPostback(ch, table, userId, ev.kind.data);
    }
  }

  /** One more event of the batch, on the world the earlier ones left. */
  method RunNext(events: seq<Event>, i: nat, line: Line, table: CartTable, w: Web, profile: string -> Option<string>,
                 ghost w0: World, ghost rs: seq<bool>)
    returns (r: bool)
    requires i < |events| && table.Valid()
    requires Runs(events[..i], w0, Step(line.outcome, table.writeError, w, profile)) == (WorldOf(line, table), rs)
    modifies line, table
    ensures table.Valid()
    ensures Runs(events[..i + 1], w0, Step(line.outcome, table.writeError, w, profile)) == (WorldOf(line, table), rs + [r])
  {
    r := HandleEvent(events[i], line, table, w, profile);
    RunsSnoc(events, w0, Step(line.outcome, table.writeError, w, profile), i, (WorldOf(line, table), r));
  }

  /** Lines 70-677: every event runs, on the world the earlier ones left,
      and the batch fails when any event's promise rejects. */
  method HandleBatch(events: seq<Event>, line: Line, table: CartTable, w: Web, profile: string -> Option<string>)
    returns (results: seq<bool>, ok: bool)
    requires table.Valid()
    modifies line, table
    ensures table.Valid()
    ensures Runs(events, old(WorldOf(line, table)), Step(line.outcome, table.writeError, w, profile)) == (WorldOf(line, table), results)
    ensures ok <==> forall i :: 0 <= i < |results| ==> results[i]
  {
    ghost var w0 := WorldOf(line, table);
    results := [];
    ok := true;
    var i := 0;
    while i < |events|
      invariant 0 <= i <= |events|
      invariant table.Valid()
      invariant Runs(events[..i], w0, Step(line.outcome, table.writeError, w, profile)) == (WorldOf(line, table), results)
      invariant ok <==> forall j :: 0 <= j < |results| ==> results[j]
    {
      var r := RunNext(events, i, line, table, w, profile, w0, results);
      ghost var prev := results;
      results := results + [r];
      assert forall j :: 0 <= j < |prev| ==> results[j] == prev[j];
      assert results[|prev|] == r;
      ok := ok && r;
      i := i + 1;
    }
    assert events[..|events|] == events;
  }
}
