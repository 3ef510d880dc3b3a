# japan-shop-bot, modelled in Dafny

This project models the server side of a LINE shopping bot that lets
customers in Taiwan buy from Japanese shops. A customer pastes a product
link into the LINE chat. The bot scrapes the shop, answers with a carousel
of colour cards, and each card has one button per size. A button press
comes back as a postback that adds the size to the customer's cart, which
is a table of rows. Before checkout the cart is re-synchronised against the
shop's stock. A quote is computed from item categories, weights and the EMS
rate table. An order is stored, the cart is cleared, and the customer and
the shop owner are told by push messages.

The model follows the code module by module:

- `Urls` and `LineImage` (fix_url.dfy): `fixUrl` and the two versions of
  `ensureLineImageUrl`.
- `FilterRules`: `checkProductRestriction`, which decides whether a
  product may be shipped.
- `Shipping`: category labels, weights, the EMS table, the service fee and
  `calculateQuote`.
- `ScrapeShopify`, `ScrapeHyod`, `ScrapeGeneric`, `ScrapeUniqlo`: the four
  scrapers. Pages, JSON documents and HTTP answers are parameters.
- `Grouping` and `MapBuild`: the insertion-ordered `Map` loops and the
  nested `map.set` loops that the scrapers and the sync share. Each loop is
  proved against a reference definition.
- `SyncCart`: the pre-checkout sync.
- `Transport`: the LINE message channel. It holds the reply-token flag,
  `sendPushOnly`, `sendReplyOrPush`, `sendReplyOnlyIfPossible` and the
  invalid-token classifier. `Line` is a class whose log records every send
  attempted. An oracle gives the outcome of the k-th attempt.
- `CartStore`: the `cart_items` table, as a class whose methods insert,
  update and delete rows.
- `Commands`: the `查ID` and customer-service commands, shared by both
  webhooks.
- `WebhookPost`: the current webhook (server/api/webhook.post.ts).
- `WebhookLegacy`: the earlier webhook (server/api/webhook.ts).
- `SubmitOrder`: order submission.

State that the source changes in place is modelled as classes with
`modifies` clauses: the channel's reply flag, the LINE log and the tables.
Loops become methods, each proved equal to a specification function. The
properties are stated about those functions.

Each webhook is specified on a `World`: the LINE send log, the cart rows,
the next row id and the number of table writes. `EventStep` says what one
event does to the world and whether its promise resolves, and `Runs` folds
it over a batch, each event starting from the world the earlier ones left.
`HandleEvent` and `HandleBatch` are proved against these functions, and the
lemmas beside them state what a batch may and may not change.

The model follows the code where it departs from the obvious reading:

- A reply that fails with an error other than an invalid token leaves the
  reply flag unset. A later `sendReplyOrPush` in the same event therefore
  tries the same token again. See `Transport.SecondReplyAttempt` and
  `WebhookPost.CarouselFailureRepliesTwice`.
- The buy button of the current webhook sends `pg=undefined` and `pd=`,
  because `scrapeUniqlo` returns neither a price group nor a promotion end.
  The stored page URL therefore ends in `/undefined`, and a limited offer
  always gets the generic warning instead of a deadline. See
  `WebhookPost.BuyButtonFields` and `WebhookPost.BuyButtonWarning`.
- The earlier webhook never increments a quantity: an item already in the
  cart is only reported. See `WebhookLegacy.NeverIncrements`.
- In submit-order, a missing `totalJpy` throws while the messages are
  built. This happens after the order is inserted and the cart is cleared,
  so the answer is a 500 even though the order was stored.
- The `safeTitle` that the earlier webhook computes is never used.
- The earlier webhook has no handler for a `soldout` postback.
- `autorimessa.com` is tested in the product-page and Shopify rules of the
  earlier webhook, but it is not an allowed site, so such a link alone is
  ignored. See `WebhookLegacy.AutorimessaAloneIgnored`.
- The two `ensureLineImageUrl` functions differ. The one in webhook.ts
  (`LineImage.EnsureLineImageUrl`) accepts only HTTPS jpg/jpeg/png. The one
  in webhook.post.ts (`LineImage.EnsureLineImageUrlLenient`) only fills in
  a missing image and completes `//`.

## Model

| member | source | states |
|---|---|---|
| Urls.FixUrl | server/utils/fixUrl.ts:4-5 | A missing or empty reference gives the placeholder image |
| Urls.TrimmedBeforeChecks | server/utils/fixUrl.ts:7 | White space around a non-blank reference changes nothing, because the reference is trimmed before any test |
| Urls.ProtocolRelative | server/utils/fixUrl.ts:9-10 | A `//` reference gets exactly `https:` in front, ahead of the root-relative rule |
| Urls.RootRelative | server/utils/fixUrl.ts:13-16 | A `/path` reference is resolved against the page's origin |
| Urls.HttpUpgraded | server/utils/fixUrl.ts:19-21 | An `http:` reference becomes `https:` with the rest kept |
| Urls.PassThrough | server/utils/fixUrl.ts:23 | Any other non-blank reference comes back trimmed and otherwise unchanged |
| Urls.FixedPoint | server/utils/fixUrl.ts:4-23 | A trimmed https URL, or a trimmed string no rule touches, is left as it is |
| Urls.FixCleanShape | server/utils/fixUrl.ts:9-23 | For an https origin, the rules give a trimmed result that starts with `https:` or that no rule touches |
| Urls.FixUrlIdempotent | server/utils/fixUrl.ts:4-23 | Any non-empty result needs no further fixing: a second pass returns it unchanged |
| Urls.BlankIsNotIdempotent | server/utils/fixUrl.ts:5-7 | A blank reference becomes "", and a second pass turns that into the placeholder |
| LineImage.EnsureLineImageUrl | server/api/webhook.ts:22-43 | The result is the "No Image" placeholder, the "Product" placeholder, or an https URL whose path ends in jpg, jpeg or png; a missing image gives "No Image" |
| LineImage.RejectionsUseProductPlaceholder | server/api/webhook.ts:32-40 | A URL that is not https after normalising, or has an unsupported type, gives the "Product" placeholder |
| LineImage.AcceptedUnchanged | server/api/webhook.ts:38-42 | An accepted URL is returned normalised, with its query string kept |
| LineImage.ProtocolRelativeNormalized | server/api/webhook.ts:25-26 | `//host/...` is completed with `https:` before the checks |
| LineImage.HttpUpgradedNormalized | server/api/webhook.ts:27-29 | `http://` is upgraded to `https://` before the checks |
| LineImage.UnsupportedByLastLetter | server/api/webhook.ts:32-36 | A path whose lower-cased last letter is not `g` is refused |
| LineImage.WebpRefused | server/api/webhook.ts:32-40 | A WebP image is refused even over HTTPS |
| LineImage.AcceptedFixed | server/api/webhook.ts:22-43 | A trimmed https URL of a supported type is a fixed point |
| LineImage.PlaceholderAccepted | server/api/webhook.ts:32-42 | A placehold.co PNG URL with a query passes the check unchanged |
| LineImage.MissingImageAccepted | server/api/webhook.ts:23-42 | The "No Image" placeholder passes its own check |
| LineImage.ProductImageAccepted | server/api/webhook.ts:32-42 | The "Product" placeholder passes its own check |
| LineImage.NormalizeTrimmed | server/api/webhook.ts:25-29 | A normalised non-blank input is non-empty and trimmed |
| LineImage.EnsureLineImageUrlIdempotent | server/api/webhook.ts:22-43 | Feeding the result back in returns it unchanged |
| LineImage.EnsureLineImageUrlLenient | server/api/webhook.post.ts:25-30 | A missing image gives "No Image"; any other result is trimmed, never starts with `//`, and ends with the trimmed input |
| LineImage.LenientIdempotent | server/api/webhook.post.ts:25-30 | A non-empty lenient result passed back in comes out unchanged |
| LineImage.LenientAgreesOnAccepted | server/api/webhook.post.ts:25-30 | Where the strict version accepts a trimmed `https://` URL, the lenient version returns the same string |
| LineImage.LenientAcceptsWhatStrictRefuses | server/api/webhook.post.ts:25-30 | An http WebP URL passes the lenient version as it is, while the strict version refuses it |
| FilterRules.CheckProductRestriction | server/utils/productFilterRules.ts:81-119 | Restricted iff the URL, a title keyword, the type or a tag hits and no safe keyword is in the title; the reason is one of four fixed strings |
| FilterRules.SafeTitleNeverRestricted | server/utils/productFilterRules.ts:106-108 | A safe keyword in the title overrides every other rule and leaves the reason empty |
| FilterRules.ReasonIffRestricted | server/utils/productFilterRules.ts:110-118 | The reason is empty exactly when the product is not restricted |
| FilterRules.ReasonPriority | server/utils/productFilterRules.ts:112-117 | The URL reason beats the type reason, which beats the keyword reason |
| FilterRules.KeywordRestricts | server/utils/productFilterRules.ts:92 | A prohibited keyword, in any ASCII case, restricts a title without a safe keyword |
| FilterRules.TitleCaseIgnored | server/utils/productFilterRules.ts:92-107 | Titles equal up to ASCII case get the same verdict |
| FilterRules.NoTypeNoTags | server/utils/productFilterRules.ts:95-104 | An empty or missing type, and tags that are not an array, give no hit |
| FilterRules.UrlWithoutLowerCNeverHits | server/utils/productFilterRules.ts:89 | URL matching is case-sensitive: a URL without a lower-case `c` never hits |
| FilterRules.UrlCaseSensitive | server/utils/productFilterRules.ts:89 | `collections/batteries` hits, and its upper-case form does not |
| Shipping.CategoryLabel | server/utils/shippingConfig.ts:41-43 | The label of the lower-cased API class when it is mapped, else `其他`; always one of the known labels |
| Shipping.Weight | server/utils/shippingConfig.ts:162 | Every category weighs a positive amount; an unknown label weighs 350 g |
| Shipping.EveryLabelHasWeight | server/utils/shippingConfig.ts:14-75 | Every label the category map can give has its own weight |
| Shipping.RatesSorted | server/utils/shippingConfig.ts:78-90 | The EMS brackets rise in weight and never fall in cost; the last one is the overweight cost |
| Shipping.GetEmsShipping | server/utils/shippingConfig.ts:97-103 | The scanning loop returns the EMS cost of the weight |
| Shipping.FirstFitIsBracket | server/utils/shippingConfig.ts:97-103 | The cost is that of the first bracket whose maximum is at least the weight, or the last cost when none is |
| Shipping.EmsShippingIsBracket | server/utils/shippingConfig.ts:97-103 | Above 20 kg the overweight cost; otherwise the cost of the bracket that holds the weight |
| Shipping.EmsShippingMonotone | server/utils/shippingConfig.ts:78-103 | A heavier parcel never costs less |
| Shipping.EmsShippingInTable | server/utils/shippingConfig.ts:78-103 | Every cost is one from the table, between 1450 and 20000 yen |
| Shipping.RoundEightPercent | server/utils/shippingConfig.ts:120 | `Math.round(s * 0.08)`: the result is within half a yen of 8% of the subtotal |
| Shipping.ServiceFee | server/utils/shippingConfig.ts:119-121 | At least the minimum fee; either the minimum or 8% rounded; above the threshold it exceeds the minimum |
| Shipping.ServiceFeeMonotone | server/utils/shippingConfig.ts:119-121 | The fee never falls as the subtotal grows |
| Shipping.Qty | server/utils/shippingConfig.ts:158 | `quantity \|\| 1`: never zero, and a non-zero quantity is kept |
| Shipping.QuoteOf | server/utils/shippingConfig.ts:151-180 | The total is the subtotal plus shipping plus the service fee, and the fee is at least the minimum |
| Shipping.QuoteStep | server/utils/shippingConfig.ts:156-166 | One more item adds its share to the subtotal, the weight and its category count |
| Shipping.CalculateQuote | server/utils/shippingConfig.ts:151-180 | The loop computes exactly the quote of the items |
| Shipping.CountsAgree | server/utils/shippingConfig.ts:161-165 | The counts have a key for exactly the labels that occur, each holding that label's total quantity |
| Shipping.CategoryCountsSumToQuantity | server/utils/shippingConfig.ts:156-166 | The category counts add up to the cart's total quantity, and every key is a known label |
| Shipping.PricelessItemFree | server/utils/shippingConfig.ts:157-159 | An item whose price has no digits adds nothing to the subtotal |
| Shipping.WeightPositive | server/utils/shippingConfig.ts:161-163 | A non-empty cart of positive quantities has a positive weight |
| Grouping.FindKey | server/utils/scrapeHyod.ts:69 | The position found holds the key; when none is found no group has it |
| Grouping.KeysOfMembers | server/utils/scrapeHyod.ts:68-79 | The groups' keys are exactly the keys of the entries |
| Grouping.KeysOfDistinct | server/utils/scrapeHyod.ts:68-79 | No key has two groups |
| Grouping.GroupByDescribed | server/utils/scrapeHyod.ts:68-85 | One group per distinct key, in order of first appearance, holding the first entry's data and every item of its key in order |
| Grouping.AddEntry | server/utils/scrapeShopify.ts:75-79 | One `Map` step, with an index from key to position, does what the reference step does and keeps the index exact |
| Grouping.GroupPresent | server/api/sync-cart.post.ts:37-44 | The grouping loop that skips records without an entry equals the reference grouping of the present entries |
| Grouping.PresentEmpty | server/api/sync-cart.post.ts:37-44 | Nothing is grouped exactly when no record yields an entry |
| Grouping.PresentFrom | server/api/sync-cart.post.ts:37-44 | Every grouped entry comes from some record |
| MapBuild.AssocKeys | server/api/sync-cart.post.ts:101-114 | The map built by `set` has exactly the keys that were set |
| MapBuild.AssocLater | server/api/sync-cart.post.ts:101-114 | A key set again later takes the later value |
| MapBuild.AssocEarlier | server/api/sync-cart.post.ts:101-114 | A key not set later keeps its earlier value |
| MapBuild.AssocRows | server/api/sync-cart.post.ts:101-106 | The nested `set` loops give the map of all pairs in order |
| SyncCart.CodeResults | server/api/sync-cart.post.ts:83-160 | One row per cart item, in order, for its code, colour and size; stock changed iff out of stock; price changed iff the current price differs; with no price group every row is out of stock at the cart price |
| SyncCart.ProductRows | server/api/sync-cart.post.ts:116-161 | The per-item loop gives the product's rows |
| SyncCart.AllRows | server/api/sync-cart.post.ts:80-162 | The loop over products gives every product's rows in group order |
| SyncCart.SyncCart | server/api/sync-cart.post.ts:23-171 | The results are those of the grouped cart, and `hasChanges` holds iff some row changed |
| SyncCart.AnyChange | server/api/sync-cart.post.ts:164 | True iff some row's price or stock changed |
| SyncCart.EmptyCart | server/api/sync-cart.post.ts:27 | An empty cart gives no row and no change |
| SyncCart.SyncResultsByCode | server/api/sync-cart.post.ts:37-162 | The rows come product by product, in order of first appearance, with each code's items in cart order |
| SyncCart.CodesDistinct | server/api/sync-cart.post.ts:37-44 | Each product code is handled once |
| SyncCart.CodesNonEmpty | server/api/sync-cart.post.ts:40-41 | Items with an empty code give no row |
| SyncCart.ColourMerge | server/api/sync-cart.post.ts:101-140 | A colour listed by price group 01 takes 01's data; one listed only by 00 takes 00's; any other colour takes the first group |
| SyncCart.MissingSizeNoProbe | server/api/sync-cart.post.ts:119-133 | A size missing from the size map is out of stock whatever the probe says |
| ScrapeShopify.DropTrailingSlash | server/utils/scrapeShopify.ts:10 | One trailing slash is removed, and nothing else |
| ScrapeShopify.JsonUrl | server/utils/scrapeShopify.ts:9-11 | The JSON URL ends in `.js` |
| ScrapeShopify.JsonUrlShape | server/utils/scrapeShopify.ts:9-11 | The JSON URL is the origin and the path, without its trailing slash, then `.js` |
| ScrapeShopify.IsHelmet | server/utils/scrapeShopify.ts:22-47 | A title with an excluded word is never a helmet |
| ScrapeShopify.NotExcludedWithoutLetters | server/utils/scrapeShopify.ts:25-33 | A title without any letter of the excluded words is never excluded |
| ScrapeShopify.RxSevenIsHelmet | server/utils/scrapeShopify.ts:37-47 | "Arai RX-7X" is a helmet |
| ScrapeShopify.ShirtIsNotHelmet | server/utils/scrapeShopify.ts:25-47 | "Arai T-shirt" is not a helmet |
| ScrapeShopify.LastMatch | server/utils/scrapeShopify.ts:58-66 | The last matching option among the first n, or none when none matches |
| ScrapeShopify.PickedIsLastMatch | server/utils/scrapeShopify.ts:55-66 | The colour is the last colour option's value and the size the last size option's, with defaults 單一款式 and F |
| ScrapeShopify.ReadOptions | server/utils/scrapeShopify.ts:58-66 | The option loop picks exactly that colour and size |
| ScrapeShopify.ColourRule | server/utils/scrapeShopify.ts:58-68 | With one option and no colour option, a non-empty `option1` is the colour |
| ScrapeShopify.GroupVariants | server/utils/scrapeShopify.ts:52-80 | The variant loop groups the variants by colour, as the reference grouping does |
| ScrapeShopify.ScrapeShopify | server/utils/scrapeShopify.ts:5-93 | The scraper returns exactly the product the JSON describes, or null |
| ScrapeShopify.NullCases | server/utils/scrapeShopify.ts:90-93 | A URL that does not parse, a failed fetch, or a JSON without a title gives null |
| ScrapeShopify.VariantsByColour | server/utils/scrapeShopify.ts:52-87 | One variant per distinct colour, in order of first appearance, with the first variant's image and price and every size label in order |
| ScrapeShopify.ColoursDistinct | server/utils/scrapeShopify.ts:75-87 | No colour appears twice in the output |
| ScrapeShopify.NoVariantsNoOutput | server/utils/scrapeShopify.ts:52-87 | A product without variants has no output variant |
| ScrapeGeneric.CleanPrice | server/utils/scrapeGeneric.ts:25 | The cleaned price is trimmed and has no two white-space characters in a row |
| ScrapeGeneric.ScrapeGeneric | server/utils/scrapeGeneric.ts:8-38 | One variant, colour 單一款式, no sizes, the `fixUrl` image and a cleaned price |
| ScrapeGeneric.TitleFallback | server/utils/scrapeGeneric.ts:12 | `og:title` when non-empty, else the trimmed page title |
| ScrapeGeneric.MissingImagePlaceholder | server/utils/scrapeGeneric.ts:15-16 | Without `og:image` the card gets the placeholder |
| ScrapeGeneric.PriceOrder | server/utils/scrapeGeneric.ts:19-23 | The price sources are tried in order, and the first non-empty one wins |
| ScrapeGeneric.NoPriceFallback | server/utils/scrapeGeneric.ts:19-25 | With no price anywhere the card says 請點擊查看 |
| ScrapeGeneric.BlankOgPriceGivesEmptyPrice | server/utils/scrapeGeneric.ts:19-25 | A blank `og:price:amount` hides the other sources and leaves an empty price |
| ScrapeHyod.LineEnd | server/utils/scrapeHyod.ts:50-56 | The first line terminator at or after the position, or the end |
| ScrapeHyod.CutInStock | server/utils/scrapeHyod.ts:50-56 | Text without 在庫 is unchanged |
| ScrapeHyod.CutInStockOneLine | server/utils/scrapeHyod.ts:50-56 | On one line, the cut keeps exactly the text before the first 在庫 |
| ScrapeHyod.Price | server/utils/scrapeHyod.ts:18-22 | The price is never empty |
| ScrapeHyod.PriceHasYenOrNotice | server/utils/scrapeHyod.ts:18-22 | The price contains ¥ or is 價格請見官網 |
| ScrapeHyod.RowEntry | server/utils/scrapeHyod.ts:68-79 | A row yields an entry iff both its colour and its size are non-empty |
| ScrapeHyod.ThumbList | server/utils/scrapeHyod.ts:93-111 | The thumbnail loop gives one variant per thumbnail, in order |
| ScrapeHyod.ScrapeHyod | server/utils/scrapeHyod.ts:5-137 | The scraper returns exactly the product the three tiers describe, or null |
| ScrapeHyod.AtLeastOneVariant | server/utils/scrapeHyod.ts:115-124 | A product always has at least one variant |
| ScrapeHyod.TableEntriesEmpty | server/utils/scrapeHyod.ts:68-85 | The table gives a variant exactly when some row counts |
| ScrapeHyod.TierOrder | server/utils/scrapeHyod.ts:83-124 | Thumbnails are read only when no row counts, and the placeholder only when there is no thumbnail either |
| ScrapeHyod.TableVariantsDescribed | server/utils/scrapeHyod.ts:68-85 | One variant per colour, in order of first appearance, with the first row's image and every row's size label in order |
| ScrapeHyod.MissingCartMarked | server/utils/scrapeHyod.ts:65-66 | A row without a cart link shows as out of stock |
| ScrapeHyod.FallbackSizesBySoldOut | server/utils/scrapeHyod.ts:103-122 | The fallback tiers say 已售完 on a sold-out page and 請前往官網選擇尺寸 otherwise |
| ScrapeHyod.BadUrlNull | server/utils/scrapeHyod.ts:133-136 | A page URL that does not parse gives null |
| ScrapeUniqlo.DigitsEnd | server/utils/scrapeUniqlo.ts:6 | The end of a maximal run of digits |
| ScrapeUniqlo.FindMatch | server/utils/scrapeUniqlo.ts:6 | No match found means no position from there on matches |
| ScrapeUniqlo.MatchAtShape | server/utils/scrapeUniqlo.ts:6-9 | A match's code has the form E digits - digits, and its price group, when present, is digits |
| ScrapeUniqlo.ProductMatchShape | server/utils/scrapeUniqlo.ts:6-9 | The product code has that form and the price group is non-empty, 00 by default |
| ScrapeUniqlo.NoMatchWithoutPrefix | server/utils/scrapeUniqlo.ts:6-7 | A URL without `products/E` has no product code |
| ScrapeUniqlo.MatchWithoutPriceGroup | server/utils/scrapeUniqlo.ts:6-9 | `products/E480302-000` gives that code and price group 00 |
| ScrapeUniqlo.MatchWithPriceGroup | server/utils/scrapeUniqlo.ts:6-9 | `products/E480302-000/01` gives that code and price group 01 |
| ScrapeUniqlo.Price | server/utils/scrapeUniqlo.ts:35-36 | A non-zero base price is shown with ¥, and otherwise 請洽官網 |
| ScrapeUniqlo.Shown | server/utils/scrapeUniqlo.ts:71-76 | Exactly the choices not hidden are kept |
| ScrapeUniqlo.SizeUnion | server/utils/scrapeUniqlo.ts:57-63 | The union is the set of size codes the stock search returned |
| ScrapeUniqlo.ChecksMembers | server/utils/scrapeUniqlo.ts:89-96 | The probes are exactly the shown (colour, size) pairs whose size is in the union |
| ScrapeUniqlo.ChecksLength | server/utils/scrapeUniqlo.ts:89-96 | There are at most colours times sizes probes |
| ScrapeUniqlo.BuildChecks | server/utils/scrapeUniqlo.ts:87-96 | The nested loops build exactly those probes, colour-major |
| ScrapeUniqlo.RunProbes | server/utils/scrapeUniqlo.ts:101-111 | One result per probe, in order, each the probe's answer |
| ScrapeUniqlo.StockMapIff | server/utils/scrapeUniqlo.ts:114-121 | A pair is in stock iff some probe of that pair returned true |
| ScrapeUniqlo.BuildStock | server/utils/scrapeUniqlo.ts:114-121 | The loop builds exactly the per-colour stock map |
| ScrapeUniqlo.ScrapeUniqlo | server/utils/scrapeUniqlo.ts:3-179 | The scraper returns exactly the product the three answers describe, or null |
| ScrapeUniqlo.IsStockIff | server/utils/scrapeUniqlo.ts:87-143 | A size is in stock for a colour iff it is in the union and that pair's probe returned true |
| ScrapeUniqlo.NullCases | server/utils/scrapeUniqlo.ts:6-31 | A URL without a product code, or a failed details call, gives null |
| ScrapeUniqlo.FailedUnionNoProbes | server/utils/scrapeUniqlo.ts:89-96 | A failed stock search makes no probe, so every size is out of stock |
| ScrapeUniqlo.VariantShape | server/utils/scrapeUniqlo.ts:129-151 | Every variant has the product price, the colour `<code> <name>`, and every shown size in order |
| Transport.NoDataNotInvalid | server/api/webhook.ts:81-101 | An error without response data is not an invalid-token error |
| Transport.TopLevelMatch | server/api/webhook.ts:84-99 | The top-level message is matched without regard to case |
| Transport.JoinedDetailsMatch | server/api/webhook.ts:88-100 | Because the details are joined with spaces, the phrase is found across two details although neither holds it |
| Transport.GetFound | server/api/webhook.ts:155-156 | `get` finds a value iff some pair has the key, and that pair holds it |
| Transport.GetIndex | server/api/webhook.ts:155-156 | The first pair with a key wins |
| Transport.Line.Reply | server/api/webhook.ts:118 | A reply is logged and gets the next outcome |
| Transport.Line.Push | server/api/webhook.ts:108 | A push is logged and gets the next outcome |
| Transport.PushOnly | server/api/webhook.ts:104-109 | Never replies and never touches the flag; it succeeds only with a user id, as one push to that id |
| Transport.ReplyOrPushReplies | server/api/webhook.ts:111-131 | At most one reply, made iff a token exists and the flag is unset; the flag stays unset only after another error, which fails the call |
| Transport.ReplySuccess | server/api/webhook.ts:116-120 | A successful reply sets the flag and pushes nothing |
| Transport.InvalidTokenFallsBack | server/api/webhook.ts:121-130 | An invalid-token failure sets the flag and pushes the same message once |
| Transport.OtherErrorRethrown | server/api/webhook.ts:121-124 | Any other failure is rethrown, with no push and the flag unset |
| Transport.FlagSetOnlyPushes | server/api/webhook.ts:114-130 | Once the flag is set, a call only pushes |
| Transport.ReplyOnlyNeverPushes | server/api/webhook.ts:133-151 | `sendReplyOnlyIfPossible` never pushes, and it fails iff the reply fails with another error |
| Transport.SecondReplyAttempt | server/api/webhook.ts:111-131 | After another error, a second call in the same event replies again with the same token |
| Transport.Channel.SendPushOnly | server/api/webhook.ts:104-109 | The log grows by exactly the sends of `PushOnly` |
| Transport.Channel.SendReplyOrPush | server/api/webhook.ts:111-131 | The log and the flag change as `ReplyOrPush` says |
| Transport.Channel.SendReplyOnlyIfPossible | server/api/webhook.ts:133-151 | The log and the flag change as `ReplyOnlyIfPossible` says |
| CartStore.Matching | server/api/webhook.post.ts:166-175 | The rows with the key, all of them from the table |
| CartStore.MatchingNonEmpty | server/api/webhook.post.ts:166-175 | Some row matches iff some row has the key |
| CartStore.SingleFound | server/api/webhook.post.ts:166-175 | A row found by `maybeSingle` is a row of the table with that key |
| CartStore.DuplicateReadsAsNone | server/api/webhook.post.ts:166-175 | Two rows with one key make `maybeSingle` read as no row |
| CartStore.Updated | server/api/webhook.post.ts:181-188 | An update keeps the number of rows |
| CartStore.Deleted | server/api/submit-order.post.ts:70 | The rows left belong to other users and come from the table |
| CartStore.UpdatedKeepsKeys | server/api/webhook.post.ts:181-188 | An update keeps every row's id and key |
| CartStore.UpdateFoundRow | server/api/webhook.post.ts:179-189 | Updating the one row for a key keeps it the one row, now patched |
| CartStore.InsertFound | server/api/webhook.post.ts:190-208 | A row inserted for a new key is the row found for it |
| CartStore.DeletedExactly | server/api/submit-order.post.ts:70 | Every row of another user is kept |
| CartStore.DeletedIncreasing | server/api/submit-order.post.ts:70 | The delete keeps ids increasing, and every row left was a row before |
| CartStore.CartTable.Insert | server/api/webhook.post.ts:192-206 | A successful insert appends the row under the next id; a failed one changes nothing |
| CartStore.CartTable.Update | server/api/webhook.post.ts:181-188 | A successful update patches the row with that id; a failed one changes nothing |
| CartStore.CartTable.DeleteUser | server/api/submit-order.post.ts:70 | A successful delete removes the user's rows; a failed one changes nothing |
| Commands.UserName | server/api/webhook.ts:234-240 | Without a user id the name is 未知客戶 |
| Commands.CustomerService | server/api/webhook.ts:229-250 | The log, the reply flag and the result are those of `ServiceEffect`: the acknowledgement through `sendReplyOrPush` and, only when that returns, one push to the owner |
| Commands.OwnerToldAfterAck | server/api/webhook.post.ts:275-297 | When the command succeeds, the owner's push with the user's name and text is the last send and the acknowledgement comes right before it; when it fails, every send is the acknowledgement and the owner is never told |
| Commands.Runs | server/api/webhook.post.ts:58-495 | A batch gives exactly one result per event |
| Commands.RunsEach | server/api/webhook.post.ts:58-495 | The i-th result of a batch is the result of the i-th event run on the world the first i events left |
| WebhookPost.ProductUrl | server/api/webhook.post.ts:158 | The stored URL is on the Uniqlo product page |
| WebhookPost.BuyIncrements | server/api/webhook.post.ts:179-189 | An existing row stays the one row for its key, with quantity (old or 1) + 1, a refreshed URL, and a new promotion end only when `pd` is given |
| WebhookPost.BuyInsertsOnce | server/api/webhook.post.ts:190-208 | Without a row, exactly one row with quantity 1 is added and becomes the row for the key |
| WebhookPost.BuyFailure | server/api/webhook.post.ts:210-215 | A failed write leaves the table alone, and the reply gives the error |
| WebhookPost.ReplyShowsNewQuantity | server/api/webhook.post.ts:217-219 | After an increment, the reply shows the quantity the row now holds |
| WebhookPost.ReplyWithoutCount | server/api/webhook.post.ts:217-219 | After an insert, the reply shows no count |
| WebhookPost.Clock | server/api/webhook.post.ts:231-233 | `HH:MM`: five characters with a colon in the middle |
| WebhookPost.ClockUtcPlusSeven | server/api/webhook.post.ts:227-233 | The hour is the UTC hour plus seven, modulo 24, and the minute is the UTC minute |
| WebhookPost.ClockDaily | server/api/webhook.post.ts:227-233 | A deadline a whole day later shows the same clock |
| WebhookPost.PromoWarningCases | server/api/webhook.post.ts:221-239 | No flag, no warning; the flag without `pd`, the generic warning; the flag with a numeric `pd`, the deadline |
| WebhookPost.ImgPath | server/api/webhook.post.ts:332-334 | The stored image path has no query |
| WebhookPost.ImageRoundTrip | server/api/webhook.post.ts:332-334 | A query-less image on the Uniqlo host comes back whole from its stored path |
| WebhookPost.CardButtons | server/api/webhook.post.ts:336-372 | At most seven buttons, for the first sizes in order; an in-stock size buys that size; an out-of-stock one sends exactly `action=soldout&s=<size>` |
| WebhookPost.CarouselCards | server/api/webhook.post.ts:328-459 | One card per variant, in order, with at most seven buttons |
| WebhookPost.BuyButtonFields | server/api/webhook.post.ts:338 | A buy button reads back as the title's first five characters, the colour, size, price, code, image and category, with the URL ending in `/undefined` and no promotion end |
| WebhookPost.BuyButtonWarning | server/api/webhook.post.ts:221-239 | A limited offer's button gets the generic warning and never a deadline |
| WebhookPost.NoProductOneApology | server/api/webhook.post.ts:467-490 | With no product every send is the apology, and at most one reply is tried |
| WebhookPost.CarouselFailureRepliesTwice | server/api/webhook.post.ts:461-475 | When the carousel's reply fails with another error, the apology is replied with the same token |
| WebhookPost.AddToCart | server/api/webhook.post.ts:165-208 | One write: the row found for the key is updated, or a new row is inserted |
| WebhookPost.BuyPostback | server/api/webhook.post.ts:146-244 | The table changes as `BuyRows` says, and the one reply is sent through `sendReplyOrPush` |
| WebhookPost.ProductLink | server/api/webhook.post.ts:320-492 | The log grows by the carousel or apology sends |
| WebhookPost.HandlePostback | server/api/webhook.post.ts:142-256 | The new log, table and result are those of `PostbackStep`: a buy makes one write and one reply, a sold-out press one notice, any other action nothing |
| WebhookPost.HandleText | server/api/webhook.post.ts:259-492 | The new log and result are those of `TextStep`: `查ID` replies the user id, a `🙋‍♂️` message runs the customer-service command, non-Uniqlo text sends nothing, a Uniqlo link runs the carousel flow |
| WebhookPost.HandleLink | server/api/webhook.post.ts:320-492 | On a fresh channel, a Uniqlo or GU link appends the carousel or apology sends of `LinkStep` for the scraped product and always resolves |
| WebhookPost.HandleEvent | server/api/webhook.post.ts:59-493 | The new log, table and result are those of `EventStep`: a redelivery does nothing, a postback with a user id goes to `PostbackStep`, a non-text event does nothing, a text message goes to `TextStep` |
| WebhookPost.OnlyBuyWrites | server/api/webhook.post.ts:142-256 | An event that is not a buy postback leaves the rows, the next id and the write count alone |
| WebhookPost.EventAppends | server/api/webhook.post.ts:59-493 | An event only appends to the send log |
| WebhookPost.BuyStoresItem | server/api/webhook.post.ts:146-215 | A buy postback makes exactly one write, and when that write succeeds the table holds a row for the item's key |
| WebhookPost.RunNext | server/api/webhook.post.ts:59-493 | Running one more event extends the batch's run by that event's step on the world the earlier events left |
| WebhookPost.HandleBatch | server/api/webhook.post.ts:58-495 | Every event runs in order, each on the world the earlier ones left (`Runs` over `EventStep`); the batch succeeds iff every event's result is a success |
| WebhookPost.BatchOnlyBuysWrite | server/api/webhook.post.ts:58-495 | A batch without a buy postback leaves the table as it was |
| WebhookPost.BatchAppends | server/api/webhook.post.ts:58-495 | A batch only appends to the send log |
| WebhookPost.BatchRedeliveryResolves | server/api/webhook.post.ts:62-65 | A redelivered event's result is a success |
| WebhookLegacy.NeverIncrements | server/api/webhook.ts:177-183 | An existing row is left as it is, and the reply says it is already in the cart |
| WebhookLegacy.InsertsWhenAbsent | server/api/webhook.ts:184-205 | Without a row, a successful insert adds exactly one, which becomes the row for the key |
| WebhookLegacy.AddIfAbsent | server/api/webhook.ts:167-192 | Looks the key up and writes only when nothing was found |
| WebhookLegacy.BuyPostback | server/api/webhook.ts:158-207 | The table changes as `LegacyRows` says, and the one reply is sent through `sendReplyOrPush` |
| WebhookLegacy.ScraperOrder | server/api/webhook.ts:292-312 | The Shopify scraper runs first for its links; otherwise a HYOD link goes to the HYOD scraper and any other link to the OpenGraph one |
| WebhookLegacy.AutorimessaAloneIgnored | server/api/webhook.ts:252-260 | An autorimessa link is not an allowed site |
| WebhookLegacy.ButtonPriority | server/api/webhook.ts:344-471 | Helmet quote, then manual check for restricted products, then sold-out link, then buy |
| WebhookLegacy.LegacyDataRoundTrip | server/api/webhook.ts:437-441 | A buy button reads back as the title cut to 60 characters and the colour, size and price cut to 20, with no image |
| WebhookLegacy.CardsCapped | server/api/webhook.ts:334-471 | At most ten cards, one per variant in order, one button per size; a card without sizes shows the go-to-site note |
| WebhookLegacy.HelmetOnlyOn56 | server/api/webhook.ts:330-332 | Only a 56-design link gets the helmet buttons |
| WebhookLegacy.AckIsOnlyReply | server/api/webhook.ts:285-674 | The acknowledgement is the link flow's only reply; the flow fails iff that reply fails with another error |
| WebhookLegacy.LinkSendsOnlyPush | server/api/webhook.ts:643-672 | After the acknowledgement, the result and the apology go only by push |
| WebhookLegacy.PushResult | server/api/webhook.ts:643-674 | The log grows by the carousel push, and by the apology push when there is no product or that push fails |
| WebhookLegacy.ProductLink | server/api/webhook.ts:285-674 | The log, the flag and the outcome are those of `LinkFlow` |
| WebhookLegacy.Scrape | server/api/webhook.ts:290-312 | The product is the one `ScrapeLink` gives |
| WebhookLegacy.HandlePostback | server/api/webhook.ts:154-210 | The new log, table and result are those of `PostbackStep`: a buy runs `LegacyBuyStep` (at most one write, one reply), any other action does nothing |
| WebhookLegacy.HandleText | server/api/webhook.ts:212-674 | The new log and result are those of `TextStep`: `查ID` replies the user id, a `🙋‍♂️` message runs the customer-service command, text outside the allowed sites sends nothing, a category page gets the hint, a product link runs the link flow on the scraped product |
| WebhookLegacy.HandleLink | server/api/webhook.ts:285-674 | On a fresh channel, the new log and result are those of the link flow (`LinkStep`) on the product `ScrapeLink` gives |
| WebhookLegacy.HandleEvent | server/api/webhook.ts:71-675 | The new log, table and result are those of `EventStep`: a redelivery does nothing, a postback with a user id goes to `PostbackStep`, a non-text event does nothing, a text message goes to `TextStep` |
| WebhookLegacy.OnlyBuyWrites | server/api/webhook.ts:154-210 | An event that is not a buy postback leaves the rows, the next id and the write count alone |
| WebhookLegacy.EventAppends | server/api/webhook.ts:71-675 | An event only appends to the send log |
| WebhookLegacy.BuyStoresItem | server/api/webhook.ts:158-207 | A buy postback keeps every existing row, writes at most once, and afterwards the item's key has a row unless it had none and the insert failed |
| WebhookLegacy.RunNext | server/api/webhook.ts:71-675 | Running one more event extends the batch's run by that event's step on the world the earlier events left |
| WebhookLegacy.HandleBatch | server/api/webhook.ts:70-677 | Every event runs in order, each on the world the earlier ones left (`Runs` over `EventStep`); the batch succeeds iff every event's result is a success |
| WebhookLegacy.BatchOnlyBuysWrite | server/api/webhook.ts:70-677 | A batch without a buy postback leaves the table as it was |
| WebhookLegacy.BatchAppends | server/api/webhook.ts:70-677 | A batch only appends to the send log |
| WebhookLegacy.BatchRedeliveryResolves | server/api/webhook.ts:74-77 | A redelivered event's result is a success |
| SubmitOrder.OrderRowOf | server/api/submit-order.post.ts:47-60 | The stored row is pending under the user, with the LINE name defaulting to "" and the account number kept only when non-empty |
| SubmitOrder.OrderTable.Insert | server/api/submit-order.post.ts:47-67 | A successful insert appends the row under the next id and returns that id; a failed one changes nothing |
| SubmitOrder.ItemLineList | server/api/submit-order.post.ts:78-83 | One line per item |
| SubmitOrder.Notices | server/api/submit-order.post.ts:120-136 | The customer is pushed first, then the owner unless the customer is the owner; nothing is replied |
| SubmitOrder.Submit | server/api/submit-order.post.ts:8-139 | An incomplete form gives 400 and changes nothing; an insert error gives 500; otherwise the order is stored, the cart cleared unless the delete fails, and the notices pushed, or 500 when `totalJpy` is missing |
| SubmitOrder.LastFiveShown | server/api/submit-order.post.ts:107-118 | The account line is in the owner's message iff the payment is a bank transfer with an account number, and it shows that number |
| SubmitOrder.ItemLinesHead | server/api/submit-order.post.ts:78-83 | The item lines start with the number 1 |
| SubmitOrder.CustomerCount | server/api/submit-order.post.ts:86-96 | The summary line's count reads back as the number of items |
| SubmitOrder.AdminLinesNonEmpty | server/api/submit-order.post.ts:99-118 | The owner's message drops the empty lines and keeps the total and the order id |

## Left out

- I/O: the LINE SDK, Supabase, axios and `fetch` become oracle parameters (`Line.outcome`, `writeError`, `detail`, `stock`, `probe`, `Web`, `profile`). Their timing, retries and console logging are not modelled.
- Concurrency: `Promise.all` over events and over probes is run one after another. The interleaving of concurrent events on the shared tables is not modelled.
- Body parsing: the raw body, `JSON.parse` and the `'No Body'` answer are outside the model; a batch is a sequence of events.
- The LINE loading animation (webhook.post.ts:305-318) is a fire-and-forget call whose failure is swallowed, so it is left out.
- HTML and DOM: the cheerio selectors become fields of a page record. The card layout (colours, sizes, `displayText`, the hero link and the "回官方商品頁" button) is reduced to the card's image, texts, notes, buttons and link.
- URL parsing: `new URL` is a parameter that gives an origin and a path, or fails. Percent-encoding and `URLSearchParams` decoding are left out: postback data is a sequence of key and value pairs.
- Case folding covers ASCII only. Strings are sequences of code points, so `slice` differs from JavaScript only for characters outside the basic plane.
- `toLocaleString` is the `fmt` parameter. `Number()` forms other than plain digits give `NaN`. The calendar (month and day) of a deadline is the `monthDay` parameter.
- Floating point: `Math.round(s * 0.08)` is modelled on integers, which is exact for integer subtotals.
- `CATEGORY_MAP` keys inherited from `Object.prototype`, such as `constructor`, are not modelled.
- `goodsId` in scrapeUniqlo is not modelled: it is logged and returned but never read by a caller.
- Shopify option names, prices and images are strings from the JSON record. A missing `optionN` value reads as the empty string rather than `undefined`, and the price is the already formatted `(price / 100).toLocaleString()`.
- WebhookPost.AddToCart: the `maybeSingle` read at server/api/webhook.post.ts:166-175 cannot fail in the model. In the code its `fetchError` is ignored, so a failed read leaves `existingItem` null and a second row is inserted even when one exists. `WebhookPost.BuyPostback`, `WebhookPost.HandlePostback`, `WebhookPost.HandleEvent` and `WebhookPost.BuyStoresItem` describe only reads that succeed.
- WebhookLegacy.AddIfAbsent: the `.limit(1)` read at server/api/webhook.ts:168-175 cannot fail in the model; in the code a failed read would insert.
- Order items are kept as their rendered strings, and `totalJpy` is an optional integer.
- `safeTitle` in webhook.ts is never used, so it is not modelled.
- server/api/checkout.post.ts is not part of this model.
- Transport.PushOnly: only the success case is pinned to a single push; a failed push is logged and the call fails, which the body states but the contract leaves to the callers' lemmas.
- Shipping.Weight: states positivity and the default, not the table entry for each label.
