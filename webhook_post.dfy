/** The current webhook handler, server/api/webhook.post.ts: each event of a
    batch gets its own delivery channel; buy and soldout postbacks, the
    `查ID` and `🙋‍♂️` texts and Uniqlo/GU product links are handled, and
    everything else is ignored. */
module WebhookPost {
  import opened Js
  import opened Text
  import opened Transport
  import opened CartStore
  import opened Commands
  import ScrapeUniqlo
  import LineImage

  const UnknownItem: string := "未知商品"
  const FreeSize: string := "F"
  const ZeroPrice: string := "¥0"
  const DefaultPriceGroup: string := "00"
  const ImageHost: string := "https://image.uniqlo.com/"
  const PlainImageHost: string := "http://image.uniqlo.com/"
  const ProductPage: string := "https://www.uniqlo.com/jp/ja/products/"

  // ---------------------------------------------------------------
  // The buy postback (lines 146-244)
  // ---------------------------------------------------------------

  /** The fields a buy postback carries, after the defaults of lines
      147-159. */
  datatype BuyRequest = BuyRequest(
    title: string,
    color: string,
    size: string,
    price: string,
    code: string,
    category: string,
    image: string,
    productUrl: string,
    promoEnd: Option<string>)

  /** Line 157: the stored image is the Uniqlo image host followed by the
      path, or "" without a path. */
  function ItemImage(imgPath: string): string {
    if imgPath != "" then ImageHost + imgPath else ""
  }

  function ProductUrl(code: string, pg: string): (r: string)
    ensures StartsWith(r, ProductPage)
  {
    ProductPage + code + "/" + pg
  }

  function ReadBuy(data: seq<(string, string)>): BuyRequest {
    var code := OptOrElse(Get(data, "code"), "");
    BuyRequest(
      OptOrElse(Get(data, "t"), UnknownItem),
      OptOrElse(Get(data, "c"), FreeSize),
      OptOrElse(Get(data, "s"), FreeSize),
      OptOrElse(Get(data, "p"), ZeroPrice),
      code,
      OptOrElse(Get(data, "cat"), ""),
      ItemImage(OptOrElse(Get(data, "img"), "")),
      ProductUrl(code, OptOrElse(Get(data, "pg"), DefaultPriceGroup)),
      if Truthy(Get(data, "pd")) then Get(data, "pd") else None)
  }

  function KeyOf(userId: string, b: BuyRequest): Key {
    Key(userId, b.title, b.color, b.size)
  }

  /** `(existingItem.quantity || 1)`: a missing or zero quantity counts as
      one. */
  function QtyOr1(q: Option<int>): int {
    if q.Some? && q.value != 0 then q.value else 1
  }

  /** Lines 181-188: the new quantity, the refreshed page URL and, only when
      `pd` was given, the new promotion end. */
  function PatchFor(r: CartRow, b: BuyRequest): Patch {
    Patch(QtyOr1(r.quantity) + 1, b.productUrl, b.promoEnd)
  }

  /** Lines 192-206 (the id is the table's to assign). */
  function NewRow(userId: string, b: BuyRequest): CartRow {
    CartRow(0, KeyOf(userId, b), Some(1), b.price, b.image, Some(b.code), Some(b.category), Some(b.productUrl), b.promoEnd)
  }

  /** The table after the buy postback, given the error (if any) of the one
      write it makes. */
  function BuyRows(rows: seq<CartRow>, nextId: nat, err: Option<string>, userId: string, b: BuyRequest): seq<CartRow> {
    if err.Some? then rows
    else
      match Single(rows, KeyOf(userId, b))
      case Some(r) => Updated(rows, r.id, PatchFor(r, b))
      case None => rows + [NewRow(userId, b).(id := nextId)]
  }

  /** The id the table hands out next: one more only after an insert. */
  function BuyNextId(rows: seq<CartRow>, nextId: nat, err: Option<string>, userId: string, b: BuyRequest): nat {
    if err.None? && Single(rows, KeyOf(userId, b)).None? then nextId + 1 else nextId
  }

  // The reply texts.

  const FailPrefix: string := "抱歉，加入失敗。原因："
  const AddedHead: string := "✅ 已成功加入購物車！"
  const QtyPrefix: string := "（已累計 "
  const QtySuffix: string := " 件）"
  const ItemHead: string := "\n\n商品："
  const AddedTail: string := "\n\n🛒 點擊選單「查看購物車」即可查看所有商品。"
  const DeadlinePrefix: string := "\n\n⏰ 此商品為期間限定特價，台灣截止時間為 "
  const DeadlineSuffix: string := "。\n系統每日採購時間約為 22:00，請盡早提交訂單以確保特價。如遇價格變動或庫存完售，將另行通知。"
  const GenericWarning: string := "\n\n⚠️ 此商品目前為期間限定特價。系統非即時下單，每日採購時間約為 22:00。如遇價格變動或庫存完售，將另行通知。"
  const NotANumber: string := "NaN/NaN NaN:NaN"

  /** The largest `pd` whose deadline is still a valid JavaScript date
      (8.64e15 ms after the epoch, less the seven hours added). */
  const MaxPromoEnd: nat := 8639999974800

  function CountText(n: int): string {
    QtyPrefix + IntToString(n) + QtySuffix
  }

  /** Lines 217-219: the cumulative count, only when a row was found. */
  function QtyText(found: Option<CartRow>): string {
    if found.Some? then CountText(QtyOr1(found.value.quantity) + 1) else ""
  }

  /** `HH:MM` of the UTC clock `t` seconds after the epoch, zero-padded. */
  function Clock(t: nat): (r: string)
    ensures |r| == 5 && r[2] == ':'
  {
    Pad2((t / 3600) % 24) + ":" + Pad2((t / 60) % 60)
  }

  predicate IsNumeric(s: string) {
    s != "" && forall i :: 0 <= i < |s| ==> IsDigit(s[i])
  }

  /** Lines 227-233: `M/D HH:MM` of `pd` seconds plus seven hours, read in
      UTC. The month and day come from the calendar `monthDay`; a `pd` that
      is not a number, or is beyond the date range, gives `NaN` in every
      field. */
  function Deadline(pd: string, monthDay: nat -> string): string {
    if IsNumeric(pd) && ParseDigits(pd) <= MaxPromoEnd then
      var t := ParseDigits(pd) + 7 * 3600;
      monthDay(t) + " " + Clock(t)
    else NotANumber
  }

  /** Lines 221-239. */
  function PromoWarning(isPromo: bool, pd: Option<string>, monthDay: nat -> string): string {
    if !isPromo then ""
    else if Truthy(pd) then DeadlinePrefix + Deadline(pd.value, monthDay) + DeadlineSuffix
    else GenericWarning
  }

  function CodeText(code: string): string {
    if code != "" then "\n代號：" + code else ""
  }

  /** Line 242, after the count. */
  function AddedBody(b: BuyRequest, warning: string): string {
    ItemHead + (b.title + CodeText(b.code) + "\n顏色：" + b.color + "\n尺寸：" + b.size + AddedTail + warning)
  }

  /** Line 242. */
  function AddedText(found: Option<CartRow>, b: BuyRequest, warning: string): string {
    AddedHead + QtyText(found) + AddedBody(b, warning)
  }

  /** The one reply of a buy postback. */
  function BuyReply(rows: seq<CartRow>, err: Option<string>, userId: string, data: seq<(string, string)>, monthDay: nat -> string): string {
    var b := ReadBuy(data);
    if err.Some? then FailPrefix + err.value
    else AddedText(Single(rows, KeyOf(userId, b)), b, PromoWarning(Get(data, "pm") == Some("1"), Get(data, "pd"), monthDay))
  }

  /** Lines 179-189: when the row exists it is still the one row for its key
      afterwards, with quantity (old or 1) + 1 and the refreshed URL; its
      promotion end changes only when `pd` is non-empty; nothing is added. */
  lemma BuyIncrements(rows: seq<CartRow>, nextId: nat, userId: string, data: seq<(string, string)>)
    requires Single(rows, KeyOf(userId, ReadBuy(data))).Some?
    ensures var b := ReadBuy(data);
      var r := Single(rows, KeyOf(userId, b)).value;
      var after := BuyRows(rows, nextId, None, userId, b);
      |after| == |rows|
      && Single(after, KeyOf(userId, b)) == Some(r.(quantity := Some(QtyOr1(r.quantity) + 1),
           productUrl := Some(b.productUrl),
           promoEnd := if Truthy(Get(data, "pd")) then Get(data, "pd") else r.promoEnd))
  {
    var b := ReadBuy(data);
    var r := Single(rows, KeyOf(userId, b)).value;
    UpdateFoundRow(rows, KeyOf(userId, b), PatchFor(r, b));
  }

  /** Lines 190-208: without a row, exactly one row is added, with quantity
      1, and it becomes the row found for the key. */
  lemma BuyInsertsOnce(rows: seq<CartRow>, nextId: nat, userId: string, data: seq<(string, string)>)
    requires !HasKey(rows, KeyOf(userId, ReadBuy(data)))
    ensures var b := ReadBuy(data);
      var after := BuyRows(rows, nextId, None, userId, b);
      after[..|rows|] == rows && |after| == |rows| + 1
      && after[|rows|].quantity == Some(1) && after[|rows|].key == KeyOf(userId, b)
      && Single(after, KeyOf(userId, b)) == Some(after[|rows|])
  {
    var b := ReadBuy(data);
    MatchingNonEmpty(rows, KeyOf(userId, b));
    InsertFound(rows, NewRow(userId, b).(id := nextId));
  }

  /** A failed write leaves the table as it was and the reply gives the
      error message. */
  lemma BuyFailure(rows: seq<CartRow>, nextId: nat, msg: string, userId: string, data: seq<(string, string)>, monthDay: nat -> string)
    ensures BuyRows(rows, nextId, Some(msg), userId, ReadBuy(data)) == rows
    ensures BuyReply(rows, Some(msg), userId, data, monthDay) == FailPrefix + msg
  {
  }

  /** Lines 217-219: after an increment the reply shows the quantity the row
      now holds. */
  lemma ReplyShowsNewQuantity(rows: seq<CartRow>, nextId: nat, userId: string, data: seq<(string, string)>, monthDay: nat -> string)
    requires Single(rows, KeyOf(userId, ReadBuy(data))).Some?
    ensures var b := ReadBuy(data);
      var row := Single(BuyRows(rows, nextId, None, userId, b), KeyOf(userId, b));
      row.Some? && row.value.quantity.Some?
      && StartsWith(BuyReply(rows, None, userId, data, monthDay), AddedHead + CountText(row.value.quantity.value))
  {
    var b := ReadBuy(data);
    BuyIncrements(rows, nextId, userId, data);
    var w := PromoWarning(Get(data, "pm") == Some("1"), Get(data, "pd"), monthDay);
    StartsWithAppend(AddedHead + QtyText(Single(rows, KeyOf(userId, b))), AddedBody(b, w));
  }

  /** After an insert the reply shows no count. */
  lemma ReplyWithoutCount(rows: seq<CartRow>, userId: string, data: seq<(string, string)>, monthDay: nat -> string)
    requires !HasKey(rows, KeyOf(userId, ReadBuy(data)))
    ensures StartsWith(BuyReply(rows, None, userId, data, monthDay), AddedHead + ItemHead)
  {
    var b := ReadBuy(data);
    MatchingNonEmpty(rows, KeyOf(userId, b));
    var w := PromoWarning(Get(data, "pm") == Some("1"), Get(data, "pd"), monthDay);
    assert BuyReply(rows, None, userId, data, monthDay) == AddedHead + AddedBody(b, w);
    StartsWithConcat(AddedHead, ItemHead, b.title + CodeText(b.code) + "\n顏色：" + b.color + "\n尺寸：" + b.size + AddedTail + w);
  }

  lemma ClockUtcPlusSeven(n: nat)
    ensures ParseDigits(Clock(n + 7 * 3600)[..2]) == ((n % 86400) / 3600 + 7) % 24
    ensures ParseDigits(Clock(n + 7 * 3600)[3..]) == (n / 60) % 60
  {
    var t := n + 7 * 3600;
    var q, r := n / 86400, n % 86400;
    DivShift(n, 7, 3600);
    DivUnique(n, 3600, 24 * q + r / 3600, r % 3600);
    DivShift(r / 3600 + 7, q, 24);
    DivShift(n, 7 * 60, 60);
    DivShift(n / 60, 7, 60);
    assert Clock(t)[..2] == Pad2((t / 3600) % 24);
    assert Clock(t)[3..] == Pad2((t / 60) % 60);
  }

  /** A deadline a whole day later shows the same clock. */
  lemma ClockDaily(t: nat)
    ensures Clock(t + 86400) == Clock(t)
  {
    DivShift(t, 24, 3600);
    DivShift(t, 1440, 60);
    DivShift(t / 3600, 1, 24);
    DivShift(t / 60, 24, 60);
  }

  /** Lines 223-239: no promotion flag, no warning; the flag with an empty
      or missing `pd`, the generic warning; the flag with a numeric `pd`,
      the warning with the deadline. */
  lemma PromoWarningCases(pd: Option<string>, monthDay: nat -> string)
    ensures PromoWarning(false, pd, monthDay) == ""
    ensures !Truthy(pd) ==> PromoWarning(true, pd, monthDay) == GenericWarning
    ensures Truthy(pd) && IsNumeric(pd.value) && ParseDigits(pd.value) <= MaxPromoEnd ==>
      var t := ParseDigits(pd.value) + 7 * 3600;
      PromoWarning(true, pd, monthDay) == DeadlinePrefix + monthDay(t) + " " + Clock(t) + DeadlineSuffix
  {
  }

  // ---------------------------------------------------------------
  // The Uniqlo carousel (lines 328-459)
  // ---------------------------------------------------------------

  /** `.replace(/^https?:\/\/image\.uniqlo\.com\//, '').split('?')[0]`. */
  function ImgPath(image: string): (r: string)
    ensures '?' !in r
  {
    var rest :=
      if StartsWith(image, ImageHost) then image[|ImageHost|..]
      else if StartsWith(image, PlainImageHost) then image[|PlainImageHost|..]
      else image;
    BeforeChar(rest, '?')
  }

  const MaxButtons: nat := 7

  /** Line 338. The `priceGroup` and `promoEndTs` the template reads are not
      fields of what `scrapeUniqlo` returns, so they render as `undefined`
      and as "". */
  function BuyData(p: ScrapeUniqlo.UniqloProduct, v: ScrapeUniqlo.UniqloVariant, size: string): seq<(string, string)> {
    ItemData(p, v, size) + PromoData(p.isLimitedOffer)
  }

  function ItemData(p: ScrapeUniqlo.UniqloProduct, v: ScrapeUniqlo.UniqloVariant, size: string): seq<(string, string)> {
    [("action", "buy"), ("t", Prefix(p.title, 5)), ("c", v.color), ("s", size), ("p", v.price),
     ("code", p.rawCode), ("img", ImgPath(v.image)), ("cat", p.category), ("pg", "undefined")]
  }

  function PromoData(limited: bool): seq<(string, string)> {
    if limited then [("pm", "1"), ("pd", "")] else []
  }

  /** Lines 336-372: an in-stock size buys, an out-of-stock one only reports
      that it is sold out. */
  function SizeButton(p: ScrapeUniqlo.UniqloProduct, v: ScrapeUniqlo.UniqloVariant, s: ScrapeUniqlo.SizeStock): Button {
    if s.isStock then Button(s.name, "加入購物車 | " + s.name, PostbackAction(BuyData(p, v, s.name)))
    else Button(s.name, s.name + " 完售", PostbackAction([("action", "soldout"), ("s", s.name)]))
  }

  function PostCard(p: ScrapeUniqlo.UniqloProduct, v: ScrapeUniqlo.UniqloVariant, userText: string): Card {
    var buttons := seq(|v.sizes|, i requires 0 <= i < |v.sizes| => SizeButton(p, v, v.sizes[i]));
    Card(LineImage.EnsureLineImageUrlLenient(Some(v.image)), p.title, v.color, v.price, [],
         buttons[..if |buttons| < MaxButtons then |buttons| else MaxButtons], userText)
  }

  function PostCarousel(p: ScrapeUniqlo.UniqloProduct, userText: string): Message {
    Carousel("推薦商品：" + p.title, seq(|p.variants|, i requires 0 <= i < |p.variants| => PostCard(p, p.variants[i], userText)))
  }

  /** A card has the buttons of its variant's first (at most) seven sizes,
      in order; an in-stock size's button carries `action=buy` with that
      size, an out-of-stock size's button carries exactly
      `action=soldout&s=<size>`. */
  lemma CardButtons(p: ScrapeUniqlo.UniqloProduct, v: ScrapeUniqlo.UniqloVariant, userText: string, j: nat)
    ensures |PostCard(p, v, userText).buttons| == (if |v.sizes| < MaxButtons then |v.sizes| else MaxButtons)
    ensures j < |PostCard(p, v, userText).buttons| ==>
      var s := v.sizes[j];
      var a := PostCard(p, v, userText).buttons[j].action;
      a.PostbackAction?
      && (s.isStock ==> Get(a.data, "action") == Some("buy") && Get(a.data, "s") == Some(s.name))
      && (!s.isStock ==> a.data == [("action", "soldout"), ("s", s.name)])
  {
    if j < |PostCard(p, v, userText).buttons| {
      assert PostCard(p, v, userText).buttons[j] == SizeButton(p, v, v.sizes[j]);
      SizeButtonAction(p, v, v.sizes[j]);
    }
  }

  lemma SizeButtonAction(p: ScrapeUniqlo.UniqloProduct, v: ScrapeUniqlo.UniqloVariant, s: ScrapeUniqlo.SizeStock)
    ensures var a := SizeButton(p, v, s).action;
      a.PostbackAction?
      && (s.isStock ==> Get(a.data, "action") == Some("buy") && Get(a.data, "s") == Some(s.name))
      && (!s.isStock ==> a.data == [("action", "soldout"), ("s", s.name)])
  {
    if s.isStock {
      var d := BuyData(p, v, s.name);
      GetIndex(d, 0);
      GetIndex(d, 3);
    }
  }

  /** One card per variant, in order, each with at most seven buttons. */
  lemma CarouselCards(p: ScrapeUniqlo.UniqloProduct, userText: string, i: nat)
    requires i < |p.variants|
    ensures var cards := PostCarousel(p, userText).cards;
      |cards| == |p.variants| && |cards[i].buttons| <= MaxButtons && cards[i].color == p.variants[i].color
      && cards[i].link == userText
  {
  }

  /** What a buy button stores when pressed: the title's first five
      characters, the colour, size, price, code, image path and category;
      the page URL ends in `/undefined`, and there is never a promotion
      end. */
  lemma BuyButtonFields(p: ScrapeUniqlo.UniqloProduct, v: ScrapeUniqlo.UniqloVariant, size: string)
    ensures var b := ReadBuy(BuyData(p, v, size));
      b.title == OrElse(Prefix(p.title, 5), UnknownItem) && b.color == OrElse(v.color, FreeSize)
      && b.size == OrElse(size, FreeSize) && b.price == OrElse(v.price, ZeroPrice)
      && b.code == p.rawCode && b.category == p.category && b.image == ItemImage(ImgPath(v.image))
      && b.productUrl == ProductPage + p.rawCode + "/undefined"
      && b.promoEnd == None
  {
    var d := BuyData(p, v, size);
    ItemTexts(p, v, size);
    ItemPage(p, v, size);
    ReadBuyOf(d, Get(d, "t"), Get(d, "c"), Get(d, "s"), Get(d, "p"), Get(d, "code"), Get(d, "cat"), Get(d, "img"), Get(d, "pg"), Get(d, "pd"));
  }

  lemma ItemTexts(p: ScrapeUniqlo.UniqloProduct, v: ScrapeUniqlo.UniqloVariant, size: string)
    ensures var d := BuyData(p, v, size);
      Get(d, "t") == Some(Prefix(p.title, 5)) && Get(d, "c") == Some(v.color)
      && Get(d, "s") == Some(size) && Get(d, "p") == Some(v.price)
  {
    var a, b := ItemData(p, v, size), PromoData(p.isLimitedOffer);
    GetIndex(a, 1);
    GetAppend(a, b, "t");
    GetIndex(a, 2);
    GetAppend(a, b, "c");
    GetIndex(a, 3);
    GetAppend(a, b, "s");
    GetIndex(a, 4);
    GetAppend(a, b, "p");
  }

  lemma ItemPage(p: ScrapeUniqlo.UniqloProduct, v: ScrapeUniqlo.UniqloVariant, size: string)
    ensures var d := BuyData(p, v, size);
      Get(d, "code") == Some(p.rawCode) && Get(d, "img") == Some(ImgPath(v.image))
      && Get(d, "cat") == Some(p.category) && Get(d, "pg") == Some("undefined")
      && !Truthy(Get(d, "pd"))
  {
    var a, b := ItemData(p, v, size), PromoData(p.isLimitedOffer);
    GetIndex(a, 5);
    GetAppend(a, b, "code");
    GetIndex(a, 6);
    GetAppend(a, b, "img");
    GetIndex(a, 7);
    GetAppend(a, b, "cat");
    GetIndex(a, 8);
    GetAppend(a, b, "pg");
    if p.isLimitedOffer {
      GetIndex(a + b, 10);
    } else {
      assert a + b == a;
      assert forall i :: 0 <= i < |a| ==> a[i].0 != "pd";
      GetFound(a, "pd");
    }
  }

  /** `ReadBuy` from the values `get` returns. */
  lemma ReadBuyOf(data: seq<(string, string)>, t: Option<string>, c: Option<string>, s: Option<string>, p: Option<string>,
                  code: Option<string>, cat: Option<string>, img: Option<string>, pg: Option<string>, pd: Option<string>)
    requires Get(data, "t") == t && Get(data, "c") == c && Get(data, "s") == s && Get(data, "p") == p
    requires Get(data, "code") == code && Get(data, "cat") == cat && Get(data, "img") == img
    requires Get(data, "pg") == pg && Get(data, "pd") == pd
    ensures ReadBuy(data) == BuyRequest(OptOrElse(t, UnknownItem), OptOrElse(c, FreeSize), OptOrElse(s, FreeSize),
      OptOrElse(p, ZeroPrice), OptOrElse(code, ""), OptOrElse(cat, ""), ItemImage(OptOrElse(img, "")),
      ProductUrl(OptOrElse(code, ""), OptOrElse(pg, DefaultPriceGroup)), if Truthy(pd) then pd else None)
  {
  }

  /** A limited offer's button gets the generic warning, never a deadline;
      any other button gets no warning. */
  lemma BuyButtonWarning(p: ScrapeUniqlo.UniqloProduct, v: ScrapeUniqlo.UniqloVariant, size: string, monthDay: nat -> string)
    ensures var d := BuyData(p, v, size);
      PromoWarning(Get(d, "pm") == Some("1"), Get(d, "pd"), monthDay) == (if p.isLimitedOffer then GenericWarning else "")
  {
    var d := BuyData(p, v, size);
    if p.isLimitedOffer {
      GetIndex(d, 9);
      GetIndex(d, 10);
    } else {
      assert forall i :: 0 <= i < |d| ==> d[i].0 != "pm";
      GetFound(d, "pm");
    }
  }

  /** An image on the Uniqlo host without a query comes back whole from the
      stored path. */
  lemma ImageRoundTrip(path: string)
    requires path != "" && '?' !in path
    ensures ItemImage(ImgPath(ImageHost + path)) == ImageHost + path
  {
    assert (ImageHost + path)[|ImageHost|..] == path;
    BeforeCharAbsent(path, '?');
  }

  // ---------------------------------------------------------------
  // Texts
  // ---------------------------------------------------------------

  /** Lines 249-252. */
  function SoldoutText(data: seq<(string, string)>): string {
    "❌ 抱歉，尺寸 " + OptOrElse(Get(data, "s"), "") + " 目前無庫存，暫時無法下單唷！\n\n建議稍後再查看，或選擇其他有庫存的尺寸 🙏"
  }

  /** Lines 300-301. */
  predicate IsUniqlo(userText: string) {
    Contains(userText, "uniqlo.com") || Contains(userText, "gu-global.com")
  }

  /** Lines 320-491: the carousel through `sendReplyOrPush`, and one apology
      through it when there is no product or the carousel's send throws; the
      apology's own failure is swallowed. */
  function UrlSends(used: bool, token: Option<string>, userId: Option<string>, carousel: Option<Message>,
                    out: nat -> SendOutcome, n: nat): seq<Send>
  {
    var apology := Text(Apology);
    if carousel.None? then ReplyOrPush(used, token, userId, apology, out(n), out(n + 1)).sends
    else
      var e := ReplyOrPush(used, token, userId, carousel.value, out(n), out(n + 1));
      if e.ok then e.sends
      else e.sends + ReplyOrPush(e.used, token, userId, apology, out(n + |e.sends|), out(n + |e.sends| + 1)).sends
  }

  function CarouselOf(p: Option<ScrapeUniqlo.UniqloProduct>, userText: string): Option<Message> {
    if p.Some? then Some(PostCarousel(p.value, userText)) else None
  }

  /** With no product every send is the apology, and at most one reply is
      attempted. */
  lemma NoProductOneApology(used: bool, token: Option<string>, userId: Option<string>, out: nat -> SendOutcome, n: nat)
    ensures var ss := UrlSends(used, token, userId, None, out, n);
      (forall i :: 0 <= i < |ss| ==> ss[i].message == Text(Apology)) && Replies(ss) <= 1
  {
    ReplyOrPushReplies(used, token, userId, Text(Apology), out(n), out(n + 1));
  }

  /** As written: when the carousel's reply fails with an error other than
      an invalid token, the flag stays unset and the apology is replied with
      the same token. */
  lemma CarouselFailureRepliesTwice(token: string, userId: Option<string>, m: Message, err: ErrorInfo, out: nat -> SendOutcome, n: nat)
    requires token != "" && out(n) == Failed(err) && !IsInvalidReplyTokenError(err)
    ensures var ss := UrlSends(false, Some(token), userId, Some(m), out, n);
      |ss| >= 2 && ss[0] == Reply(token, m) && ss[1] == Reply(token, Text(Apology))
  {
  }

  // ---------------------------------------------------------------
  // One event and the batch
  // ---------------------------------------------------------------

  /** The collaborators an event can call besides LINE and the cart table:
      `getProfile` (`None` when it throws), the calendar used for the
      deadline's month and day, and the Uniqlo API as `scrapeUniqlo` sees
      it. */
  datatype Services = Services(
    profile: string -> Option<string>,
    monthDay: nat -> string,
    detail: (string, string) -> Option<ScrapeUniqlo.UniqloDetail>,
    stock: string -> Option<seq<string>>,
    probe: (string, string, string) -> bool)

  /** Lines 165-208: read the row for the key, then update it or insert a
      new one. */
  method AddToCart(table: CartTable, userId: string, b: BuyRequest) returns (found: Option<CartRow>, err: Option<string>)
    requires table.Valid()
    modifies table
    ensures table.Valid() && table.writes == old(table.writes) + 1
    ensures found == Single(old(table.rows), KeyOf(userId, b)) && err == table.writeError(old(table.writes))
    ensures table.rows == BuyRows(old(table.rows), old(table.nextId), err, userId, b)
    ensures table.nextId == BuyNextId(old(table.rows), old(table.nextId), err, userId, b)
  {
    found := Single(table.rows, KeyOf(userId, b));
    if found.Some? {
      err := table.Update(found.value.id, PatchFor(found.value, b));
    } else {
      err := table.Insert(NewRow(userId, b));
    }
  }

  /** Lines 146-244 against the table and the channel. */
  method BuyPostback(ch: Channel, table: CartTable, userId: string, data: seq<(string, string)>, monthDay: nat -> string)
    returns (ok: bool)
    requires table.Valid()
    modifies ch, ch.line, table
    ensures table.Valid()
    ensures var b := ReadBuy(data);
      var err := table.writeError(old(table.writes));
      table.rows == BuyRows(old(table.rows), old(table.nextId), err, userId, b)
      && table.nextId == BuyNextId(old(table.rows), old(table.nextId), err, userId, b)
      && table.writes == old(table.writes) + 1
      && var n := |old(ch.line.log)|;
      var e := ReplyOrPush(old(ch.replyTokenUsed), ch.replyToken, ch.userId,
                           Text(BuyReply(old(table.rows), err, userId, data, monthDay)),
                           ch.line.outcome(n), ch.line.outcome(n + 1));
      ch.line.log == old(ch.line.log) + e.sends && ch.replyTokenUsed == e.used && ok == e.ok
  {
    var b := ReadBuy(data);
    var found, err := AddToCart(table, userId, b);
    var text: string;
    if err.Some? {
      text := FailPrefix + err.value;
    } else {
      text := AddedText(found, b, PromoWarning(Get(data, "pm") == Some("1"), Get(data, "pd"), monthDay));
    }
    assert text == BuyReply(old(table.rows), err, userId, data, monthDay);
    ok := ch.SendReplyOrPush(Text(text));
  }

  /** Lines 320-492. */
  method ProductLink(ch: Channel, userText: string, product: Option<ScrapeUniqlo.UniqloProduct>)
    modifies ch, ch.line
    ensures ch.line.log == old(ch.line.log)
      + UrlSends(old(ch.replyTokenUsed), ch.replyToken, ch.userId, CarouselOf(product, userText), ch.line.outcome, |old(ch.line.log)|)
  {
    var sent := false;
    if product.Some? {
      sent := ch.SendReplyOrPush(PostCarousel(product.value, userText));
    }
    if !sent {
      var _ := ch.SendReplyOrPush(Text(Apology));
    }
  }

  /** Lines 146-244 on the world: one write, then one reply. */
  function BuyStep(ev: Event, userId: string, data: seq<(string, string)>, w: World,
                   out: nat -> SendOutcome, writeError: nat -> Option<string>, monthDay: nat -> string): (World, bool)
  {
    var b := ReadBuy(data);
    var err := writeError(w.writes);
    var e := Say(ev, Text(BuyReply(w.rows, err, userId, data, monthDay)), out, |w.log|);
    (World(w.log + e.sends, BuyRows(w.rows, w.nextId, err, userId, b), BuyNextId(w.rows, w.nextId, err, userId, b), w.writes + 1), e.ok)
  }

  /** Lines 139-263: a buy or a soldout postback; any other action is
      ignored. */
  function PostbackStep(ev: Event, userId: string, data: seq<(string, string)>, w: World,
                        out: nat -> SendOutcome, writeError: nat -> Option<string>, monthDay: nat -> string): (World, bool)
  {
    var action := Get(data, "action");
    if action == Some("buy") then BuyStep(ev, userId, data, w, out, writeError, monthDay)
    else if action == Some("soldout") then Sent(w, Say(ev, Text(SoldoutText(data)), out, |w.log|))
    else (w, true)
  }

  /** Lines 266-492 on the world, for the trimmed text `t`. */
  function TextStep(ev: Event, t: string, w: World, out: nat -> SendOutcome, sv: Services): (World, bool) {
    if t == IdCommand then Sent(w, Say(ev, Text(IdText(ev.userId)), out, |w.log|))
    else if StartsWith(t, ServicePrefix) then Sent(w, ServiceEffect(false, ev.replyToken, ev.userId, t, sv.profile, out, |w.log|))
    else if !IsUniqlo(t) then (w, true)
    else LinkStep(ev.replyToken, ev.userId, t, w, out, sv)
  }

  /** Lines 320-492: a Uniqlo or GU link gets the carousel flow for the
      scraped product, and the event always resolves. */
  function LinkStep(token: Option<string>, userId: Option<string>, t: string, w: World, out: nat -> SendOutcome, sv: Services)
    : (World, bool)
  {
    var product := ScrapeUniqlo.UniqloOf(t, sv.detail, sv.stock, sv.probe);
    (w.(log := w.log + UrlSends(false, token, userId, CarouselOf(product, t), out, |w.log|)), true)
  }

  /** Lines 59-493: what one event does to the world, and whether its
      promise resolves. A redelivery, a postback without a user id or with
      another action, another kind of event, and a text that is neither a
      command nor a Uniqlo/GU link change nothing. */
  function EventStep(ev: Event, w: World, out: nat -> SendOutcome, writeError: nat -> Option<string>, sv: Services): (World, bool) {
    if ev.isRedelivery then (w, true)
    else if ev.kind.PostbackEvent? && Truthy(ev.userId) then PostbackStep(ev, ev.userId.value, ev.kind.data, w, out, writeError, sv.monthDay)
    else if !ev.kind.TextEvent? then (w, true)
    else TextStep(ev, Trim(ev.kind.text), w, out, sv)
  }

  function Step(out: nat -> SendOutcome, writeError: nat -> Option<string>, sv: Services): (Event, World) -> (World, bool) {
    (ev, w) => EventStep(ev, w, out, writeError, sv)
  }

  /** Only a buy postback touches the table. */
  lemma OnlyBuyWrites(ev: Event, w: World, out: nat -> SendOutcome, writeError: nat -> Option<string>, sv: Services)
    requires !IsBuy(ev)
    ensures var s := EventStep(ev, w, out, writeError, sv).0;
      s.rows == w.rows && s.nextId == w.nextId && s.writes == w.writes
  {
    if !ev.isRedelivery && !(ev.kind.PostbackEvent? && Truthy(ev.userId)) && ev.kind.TextEvent? {
      TextStepKeeps(ev, Trim(ev.kind.text), w, out, sv);
    }
  }

  /** An event only adds to the LINE log. */
  lemma EventAppends(ev: Event, w: World, out: nat -> SendOutcome, writeError: nat -> Option<string>, sv: Services)
    ensures var s := EventStep(ev, w, out, writeError, sv).0;
      |w.log| <= |s.log| && s.log[..|w.log|] == w.log
  {
    if !ev.isRedelivery && !(ev.kind.PostbackEvent? && Truthy(ev.userId)) && ev.kind.TextEvent? {
      TextStepKeeps(ev, Trim(ev.kind.text), w, out, sv);
    }
  }

  /** A text leaves the table alone and only adds to the log. */
  lemma TextStepKeeps(ev: Event, t: string, w: World, out: nat -> SendOutcome, sv: Services)
    ensures var s := TextStep(ev, t, w, out, sv).0;
      s.rows == w.rows && s.nextId == w.nextId && s.writes == w.writes
      && |w.log| <= |s.log| && s.log[..|w.log|] == w.log
  {
  }

  /** A buy postback makes exactly one write, and after a successful one the
      cart holds a row for the item pressed. */
  lemma BuyStoresItem(ev: Event, w: World, out: nat -> SendOutcome, writeError: nat -> Option<string>, sv: Services)
    requires IsBuy(ev)
    ensures var s := EventStep(ev, w, out, writeError, sv).0;
      s.writes == w.writes + 1
      && (writeError(w.writes).None? ==> HasKey(s.rows, KeyOf(ev.userId.value, ReadBuy(ev.kind.data))))
  {
    var b := ReadBuy(ev.kind.data);
    var k := KeyOf(ev.userId.value, b);
    var s := EventStep(ev, w, out, writeError, sv).0;
    assert s.rows == BuyRows(w.rows, w.nextId, writeError(w.writes), ev.userId.value, b);
    if writeError(w.writes).None? {
      match Single(w.rows, k)
      case Some(r) =>
        SingleFound(w.rows, k);
        var i :| 0 <= i < |w.rows| && w.rows[i] == r;
        UpdatedKeepsKeys(w.rows, r.id, PatchFor(r, b));
        assert s.rows[i].key == k;
      case None =>
        assert s.rows[|w.rows|].key == k;
    }
  }

  /** Without a buy postback in the batch the table is left alone. */
  lemma {:induction false} BatchOnlyBuysWrite(events: seq<Event>, w: World, out: nat -> SendOutcome,
                                              writeError: nat -> Option<string>, sv: Services)
    requires forall i :: 0 <= i < |events| ==> !IsBuy(events[i])
    ensures var f := Runs(events, w, Step(out, writeError, sv)).0;
      f.rows == w.rows && f.nextId == w.nextId && f.writes == w.writes
  {
    if events != [] {
      var init := events[..|events| - 1];
      BatchOnlyBuysWrite(init, w, out, writeError, sv);
      OnlyBuyWrites(events[|events| - 1], Runs(init, w, Step(out, writeError, sv)).0, out, writeError, sv);
    }
  }

  /** The batch only adds to the LINE log. */
  lemma {:induction false} BatchAppends(events: seq<Event>, w: World, out: nat -> SendOutcome,
                                        writeError: nat -> Option<string>, sv: Services)
    ensures var f := Runs(events, w, Step(out, writeError, sv)).0;
      |w.log| <= |f.log| && f.log[..|w.log|] == w.log
  {
    if events != [] {
      var init := events[..|events| - 1];
      BatchAppends(init, w, out, writeError, sv);
      var p := Runs(init, w, Step(out, writeError, sv)).0;
      EventAppends(events[|events| - 1], p, out, writeError, sv);
      var f := Runs(events, w, Step(out, writeError, sv)).0;
      assert f.log[..|p.log|] == p.log;
      assert f.log[..|w.log|] == p.log[..|w.log|];
    }
  }

  /** A redelivered event's promise always resolves. */
  lemma BatchRedeliveryResolves(events: seq<Event>, w: World, out: nat -> SendOutcome,
                                writeError: nat -> Option<string>, sv: Services, i: nat)
    requires i < |events| && events[i].isRedelivery
    ensures Runs(events, w, Step(out, writeError, sv)).1[i]
  {
    RunsEach(events, w, Step(out, writeError, sv), i);
  }

  /** Lines 139-263, a postback on its own channel. */
  method HandlePostback(ev: Event, userId: string, line: Line, table: CartTable, monthDay: nat -> string) returns (ok: bool)
    requires ev.kind.PostbackEvent? && table.Valid()
    modifies line, table
    ensures table.Valid()
    ensures (WorldOf(line, table), ok)
      == PostbackStep(ev, userId, ev.kind.data, old(WorldOf(line, table)), line.outcome, table.writeError, monthDay)
  {
    var ch := new Channel(line, ev.userId, ev.replyToken);
    var data := ev.kind.data;
    var action := Get(data, "action");
    ok := true;
    if action == Some("buy") {
      ok := BuyPostback(ch, table, userId, data, monthDay);
    } else if action == Some("soldout") {
      ok := ch.SendReplyOrPush(Text(SoldoutText(data)));
    }
  }

  /** Lines 266-492, a text message on its own channel. */
  method HandleText(ev: Event, line: Line, table: CartTable, sv: Services) returns (ok: bool)
    requires ev.kind.TextEvent?
    modifies line
    ensures (WorldOf(line, table), ok) == TextStep(ev, Trim(ev.kind.text), old(WorldOf(line, table)), line.outcome, sv)
  {
    var ch := new Channel(line, ev.userId, ev.replyToken);
    var userText := Trim(ev.kind.text);
    if userText == IdCommand {
      ok := ch.SendReplyOrPush(Text(IdText(ev.userId)));
      return;
    }
    if StartsWith(userText, ServicePrefix) {
      ok := CustomerService(ch, userText, sv.profile);
      return;
    }
    if !IsUniqlo(userText) {
      return true;
    }
    ok := HandleLink(ch, userText, table, sv);
  }

  /** Lines 320-492, on a fresh channel. */
  method HandleLink(ch: Channel, userText: string, table: CartTable, sv: Services) returns (ok: bool)
    requires !ch.replyTokenUsed
    modifies ch, ch.line
    ensures (WorldOf(ch.line, table), ok)
      == LinkStep(ch.replyToken, ch.userId, userText, old(WorldOf(ch.line, table)), ch.line.outcome, sv)
  {
    var product := ScrapeUniqlo.ScrapeUniqlo(userText, sv.detail, sv.stock, sv.probe);
    ProductLink(ch, userText, product);
    ok := true;
  }

  /** One event of the batch (lines 59-493); `ok` is false when the event's
      promise rejects. */
  method HandleEvent(ev: Event, line: Line, table: CartTable, sv: Services) returns (ok: bool)
    requires table.Valid()
    modifies line, table
    ensures table.Valid()
    ensures (WorldOf(line, table), ok) == EventStep(ev, old(WorldOf(line, table)), line.outcome, table.writeError, sv)
  {
    if ev.isRedelivery {
      return true;
    }
    if ev.kind.PostbackEvent? && Truthy(ev.userId) {
      ok := HandlePostback(ev, ev.userId.value, line, table, sv.monthDay);
      return;
    }
    if !ev.kind.TextEvent? {
      return true;
    }
    ok := HandleText(ev, line, table, sv);
  }

  /** One more event of the batch, on the world the earlier ones left. */
  method RunNext(events: seq<Event>, i: nat, line: Line, table: CartTable, sv: Services, ghost w0: World, ghost rs: seq<bool>)
    returns (r: bool)
    requires i < |events| && table.Valid()
    requires Runs(events[..i], w0, Step(line.outcome, table.writeError, sv)) == (WorldOf(line, table), rs)
    modifies line, table
    ensures table.Valid()
    ensures Runs(events[..i + 1], w0, Step(line.outcome, table.writeError, sv)) == (WorldOf(line, table), rs + [r])
  {
    r := HandleEvent(events[i], line, table, sv);
    RunsSnoc(events, w0, Step(line.outcome, table.writeError, sv), i, (WorldOf(line, table), r));
  }

  /** `Promise.all` over the events, run one after another: every event
      runs on the world the earlier ones left, and the batch fails when any
      event's promise rejects. */
  method HandleBatch(events: seq<Event>, line: Line, table: CartTable, sv: Services) returns (results: seq<bool>, ok: bool)
    requires table.Valid()
    modifies line, table
    ensures table.Valid()
    ensures Runs(events, old(WorldOf(line, table)), Step(line.outcome, table.writeError, sv)) == (WorldOf(line, table), results)
    ensures ok <==> forall i :: 0 <= i < |results| ==> results[i]
  {
    ghost var w0 := WorldOf(line, table);
    results := [];
    ok := true;
    var i := 0;
    while i < |events|
      invariant 0 <= i <= |events|
      invariant table.Valid()
      invariant Runs(events[..i], w0, Step(line.outcome, table.writeError, sv)) == (WorldOf(line, table), results)
      invariant ok <==> forall j :: 0 <= j < |results| ==> results[j]
    {
      var r := RunNext(events, i, line, table, sv, w0, results);
      ghost var prev := results;
      results := results + [r];
      assert forall j :: 0 <= j < |prev| ==> results[j] == prev[j];
      assert results[|prev|] == r;
      ok := ok && r;
      i := i + 1;
    }
    assert events[..|events|] == events;
  }
}
