/** `scrapeUniqlo` (server/utils/scrapeUniqlo.ts): the product code from the
    URL, the product details, the stock union, one stock probe per (colour,
    size) pair whose size is in the union, and one variant per shown colour. */
module ScrapeUniqlo {
  import opened Js
  import opened Text

  // ---------------------------------------------------------------
  // `url.match(/products\/(E\d+-\d+)(?:\/(\d+))?/)` (lines 6-9)
  // ---------------------------------------------------------------

  /** The product code (`match[1]`) and the price group (`match[2]`). */
  datatype UrlMatch = UrlMatch(rawCode: string, priceGroup: Option<string>)

  /** The end of the run of digits starting at `j`. */
  function DigitsEnd(s: string, j: nat): (k: nat)
    requires j <= |s|
    ensures j <= k <= |s|
    ensures forall m :: j <= m < k ==> IsDigit(s[m])
    ensures k < |s| ==> !IsDigit(s[k])
    decreases |s| - j
  {
    if j == |s| || !IsDigit(s[j]) then j else DigitsEnd(s, j + 1)
  }

  /** The match starting at `i`, if one does. `\d+` is greedy and digits are
      never `-` or `/`, so the match at a position is unique. */
  function MatchAt(s: string, i: nat): Option<UrlMatch>
    requires i <= |s|
  {
    var a := i + 10;
    if !OccursAt(s, "products/E", i) then None
    else
      var b := DigitsEnd(s, a);
      if b == a || b == |s| || s[b] != '-' then None
      else
        var c := DigitsEnd(s, b + 1);
        if c == b + 1 then None
        else
          var d := if c < |s| && s[c] == '/' then DigitsEnd(s, c + 1) else c;
          Some(UrlMatch(s[i + 9..c], if d > c + 1 then Some(s[c + 1..d]) else None))
  }

  /** The leftmost match at or after `i`. */
  function FindMatch(s: string, i: nat): (r: Option<UrlMatch>)
    requires i <= |s|
    ensures r.None? ==> forall j :: i <= j <= |s| ==> MatchAt(s, j).None?
    decreases |s| - i
  {
    if MatchAt(s, i).Some? then MatchAt(s, i)
    else if i == |s| then None
    else FindMatch(s, i + 1)
  }

  function ProductMatch(url: string): Option<UrlMatch> {
    FindMatch(url, 0)
  }

  /** `match[2] || '00'`. */
  function PriceGroup(m: UrlMatch): string {
    match m.priceGroup
    case Some(g) => if g != "" then g else "00"
    case None => "00"
  }

  predicate AllDigits(s: string) {
    s != [] && forall m :: 0 <= m < |s| ==> IsDigit(s[m])
  }

  /** `E<digits>-<digits>`. */
  predicate IsProductCode(c: string) {
    |c| >= 4 && c[0] == 'E'
    && exists j :: 1 < j < |c| - 1 && c[j] == '-' && AllDigits(c[1..j]) && AllDigits(c[j + 1..])
  }

  /** A match's code has the product-code shape and its price group, when
      present, is a run of digits. */
  lemma MatchAtShape(s: string, i: nat)
    requires i <= |s| && MatchAt(s, i).Some?
    ensures IsProductCode(MatchAt(s, i).value.rawCode)
    ensures MatchAt(s, i).value.priceGroup.Some? ==> AllDigits(MatchAt(s, i).value.priceGroup.value)
  {
    var b := DigitsEnd(s, i + 10);
    var c := DigitsEnd(s, b + 1);
    var code := s[i + 9..c];
    var j := b - (i + 9);
    assert s[i + 9] == s[i..i + 10][9];
    assert code[0] == 'E';
    assert code[j] == '-';
    assert code[1..j] == s[i + 10..b];
    assert code[j + 1..] == s[b + 1..c];
    assert AllDigits(code[1..j]) && AllDigits(code[j + 1..]);
  }

  /** Read backwards: a maximal run of digits from `j` to `k`. */
  lemma {:induction false} DigitsEndIs(s: string, j: nat, k: nat)
    requires j <= k <= |s|
    requires forall m :: j <= m < k ==> IsDigit(s[m])
    requires k == |s| || !IsDigit(s[k])
    ensures DigitsEnd(s, j) == k
    decreases k - j
  {
    if j < k {
      DigitsEndIs(s, j + 1, k);
    }
  }

  lemma {:induction false} FindMatchAt(s: string, i: nat)
    requires i <= |s| && FindMatch(s, i).Some?
    ensures exists j :: i <= j <= |s| && MatchAt(s, j) == FindMatch(s, i)
    decreases |s| - i
  {
    if MatchAt(s, i).None? {
      FindMatchAt(s, i + 1);
    }
  }

  lemma ProductMatchShape(url: string)
    requires ProductMatch(url).Some?
    ensures IsProductCode(ProductMatch(url).value.rawCode)
    ensures PriceGroup(ProductMatch(url).value) != ""
    ensures ProductMatch(url).value.priceGroup.Some? ==> PriceGroup(ProductMatch(url).value) == ProductMatch(url).value.priceGroup.value
  {
    FindMatchAt(url, 0);
    var j :| 0 <= j <= |url| && MatchAt(url, j) == ProductMatch(url);
    MatchAtShape(url, j);
  }

  /** No match from `i` on: `FindMatch` finds none. */
  lemma {:induction false} FindMatchNone(s: string, i: nat)
    requires i <= |s|
    requires forall j :: i <= j <= |s| ==> MatchAt(s, j).None?
    ensures FindMatch(s, i).None?
    decreases |s| - i
  {
    if i < |s| {
      FindMatchNone(s, i + 1);
    }
  }

  lemma NotOccurs(s: string, p: string, j: nat)
    requires !Contains(s, p)
    ensures !OccursAt(s, p, j)
  {
  }

  /** A URL without `products/E` has no product code. */
  lemma NoMatchWithoutPrefix(url: string)
    requires !Contains(url, "products/E")
    ensures ProductMatch(url).None?
  {
    forall j | 0 <= j <= |url|
      ensures MatchAt(url, j).None?
    {
      NotOccurs(url, "products/E", j);
    }
    FindMatchNone(url, 0);
  }

  lemma MatchWithoutPriceGroup()
    ensures MatchAt("products/E480302-000", 0) == Some(UrlMatch("E480302-000", None))
    ensures PriceGroup(UrlMatch("E480302-000", None)) == "00"
  {
    var s := "products/E480302-000";
    assert s[..10] == "products/E";
    DigitsEndIs(s, 10, 16);
    DigitsEndIs(s, 17, 20);
    assert s[9..20] == "E480302-000";
  }

  lemma MatchWithPriceGroup()
    ensures MatchAt("products/E480302-000/01", 0) == Some(UrlMatch("E480302-000", Some("01")))
  {
    var s := "products/E480302-000/01";
    assert s[..10] == "products/E";
    DigitsEndIs(s, 10, 16);
    DigitsEndIs(s, 17, 20);
    DigitsEndIs(s, 21, 23);
    assert s[9..20] == "E480302-000";
    assert s[21..23] == "01";
  }

  // ---------------------------------------------------------------
  // Details (lines 30-76)
  // ---------------------------------------------------------------

  /** A colour or size of the details: its display code, its name, and whether
      `display.showFlag` is exactly `false`. */
  datatype Choice = Choice(displayCode: string, name: string, hidden: bool)

  /** `result` of the details call; absent fields are `None` or empty. */
  datatype UniqloDetail = UniqloDetail(
    name: Option<string>,
    baseValue: Option<int>,
    priceFlagCodes: seq<string>,
    className: Option<string>,
    mainImages: map<string, string>,
    colors: seq<Choice>,
    sizes: seq<Choice>)

  const NoPrice: string := "請洽官網"

  function Title(d: UniqloDetail): string {
    OptOrElse(d.name, "UNIQLO 商品")
  }

  /** Line 36: `baseVal ? `¥${baseVal}` : '請洽官網'` (0 is falsy). */
  function Price(d: UniqloDetail): (r: string)
    ensures d.baseValue.Some? && d.baseValue.value != 0 ==> StartsWith(r, "¥")
    ensures d.baseValue.None? || d.baseValue.value == 0 ==> r == NoPrice
  {
    if d.baseValue.Some? && d.baseValue.value != 0 then "¥" + IntToString(d.baseValue.value) else NoPrice
  }

  /** Lines 40-44. */
  predicate IsLimitedOffer(d: UniqloDetail) {
    "limitedOffer" in d.priceFlagCodes
  }

  function Category(d: UniqloDetail): string {
    OptOrElse(d.className, "unknown")
  }

  /** `filter(c => c.display?.showFlag !== false)`. */
  function Shown(cs: seq<Choice>): (r: seq<Choice>)
    ensures forall c :: c in r <==> c in cs && !c.hidden
    ensures |r| <= |cs|
  {
    if cs == [] then []
    else Shown(cs[..|cs| - 1]) + (if cs[|cs| - 1].hidden then [] else [cs[|cs| - 1]])
  }

  // ---------------------------------------------------------------
  // Stock union and probes (lines 57-111)
  // ---------------------------------------------------------------

  /** Lines 58-63: the size codes of the stock search's first item. */
  method SizeUnion(codes: seq<string>) returns (union: set<string>)
    ensures union == set c | c in codes
  {
    union := {};
    var i := 0;
    while i < |codes|
      invariant 0 <= i <= |codes|
      invariant union == set c | c in codes[..i]
    {
      assert codes[..i + 1] == codes[..i] + [codes[i]];
      union := union + {codes[i]};
      i := i + 1;
    }
    assert codes[..i] == codes;
  }

  /** The probes of one colour, in size order. */
  function RowChecks(colorCode: string, sizes: seq<Choice>, union: set<string>): seq<(string, string)> {
    if sizes == [] then []
    else
      var s := sizes[|sizes| - 1];
      RowChecks(colorCode, sizes[..|sizes| - 1], union) + (if s.displayCode in union then [(colorCode, s.displayCode)] else [])
  }

  /** Lines 87-96: the probes, colour-major. */
  function Checks(colors: seq<Choice>, sizes: seq<Choice>, union: set<string>): seq<(string, string)> {
    if colors == [] then []
    else Checks(colors[..|colors| - 1], sizes, union) + RowChecks(colors[|colors| - 1].displayCode, sizes, union)
  }

  lemma {:induction false} RowChecksMembers(colorCode: string, sizes: seq<Choice>, union: set<string>, p: (string, string))
    ensures p in RowChecks(colorCode, sizes, union)
      <==> p.0 == colorCode && p.1 in union && exists j :: 0 <= j < |sizes| && sizes[j].displayCode == p.1
  {
    if sizes != [] {
      var init := sizes[..|sizes| - 1];
      RowChecksMembers(colorCode, init, union, p);
      if exists j :: 0 <= j < |sizes| && sizes[j].displayCode == p.1 {
        var j :| 0 <= j < |sizes| && sizes[j].displayCode == p.1;
        if j < |init| {
          assert init[j] == sizes[j];
        }
      }
      if exists j :: 0 <= j < |init| && init[j].displayCode == p.1 {
        var j :| 0 <= j < |init| && init[j].displayCode == p.1;
        assert sizes[j] == init[j];
      }
    }
  }

  /** The probes are exactly the (colour, size) pairs of the shown lists
      whose size code is in the union. */
  lemma {:induction false} ChecksMembers(colors: seq<Choice>, sizes: seq<Choice>, union: set<string>, p: (string, string))
    ensures p in Checks(colors, sizes, union)
      <==> p.1 in union
           && (exists i :: 0 <= i < |colors| && colors[i].displayCode == p.0)
           && (exists j :: 0 <= j < |sizes| && sizes[j].displayCode == p.1)
  {
    if colors != [] {
      var init := colors[..|colors| - 1];
      var last := colors[|colors| - 1];
      ChecksMembers(init, sizes, union, p);
      RowChecksMembers(last.displayCode, sizes, union, p);
      if exists i :: 0 <= i < |colors| && colors[i].displayCode == p.0 {
        var i :| 0 <= i < |colors| && colors[i].displayCode == p.0;
        if i < |init| {
          assert init[i] == colors[i];
        }
      }
      if exists i :: 0 <= i < |init| && init[i].displayCode == p.0 {
        var i :| 0 <= i < |init| && init[i].displayCode == p.0;
        assert colors[i] == init[i];
      }
    }
  }

  lemma {:induction false} RowChecksLength(colorCode: string, sizes: seq<Choice>, union: set<string>)
    ensures |RowChecks(colorCode, sizes, union)| <= |sizes|
  {
    if sizes != [] {
      RowChecksLength(colorCode, sizes[..|sizes| - 1], union);
    }
  }

  /** There are at most |colours|·|sizes| probes. */
  lemma {:induction false} ChecksLength(colors: seq<Choice>, sizes: seq<Choice>, union: set<string>)
    ensures |Checks(colors, sizes, union)| <= |colors| * |sizes|
  {
    if colors != [] {
      ChecksLength(colors[..|colors| - 1], sizes, union);
      RowChecksLength(colors[|colors| - 1].displayCode, sizes, union);
      assert |colors| * |sizes| == (|colors| - 1) * |sizes| + |sizes|;
    }
  }

  /** The nested loops of lines 89-96. */
  method BuildChecks(colors: seq<Choice>, sizes: seq<Choice>, union: set<string>) returns (checks: seq<(string, string)>)
    ensures checks == Checks(colors, sizes, union)
  {
    checks := [];
    var i := 0;
    while i < |colors|
      invariant 0 <= i <= |colors|
      invariant checks == Checks(colors[..i], sizes, union)
    {
      assert colors[..i + 1][..i] == colors[..i];
      ghost var before := checks;
      var j := 0;
      while j < |sizes|
        invariant 0 <= j <= |sizes|
        invariant checks == before + RowChecks(colors[i].displayCode, sizes[..j], union)
      {
        assert sizes[..j + 1][..j] == sizes[..j];
        if sizes[j].displayCode in union {
          checks := checks + [(colors[i].displayCode, sizes[j].displayCode)];
        }
        j := j + 1;
      }
      assert sizes[..j] == sizes;
      i := i + 1;
    }
    assert colors[..i] == colors;
  }

  /** Lines 101-111: every probe, in order; a probe that throws is `false`. */
  method RunProbes(checks: seq<(string, string)>, probe: (string, string) -> bool) returns (results: seq<bool>)
    ensures |results| == |checks|
    ensures forall k :: 0 <= k < |checks| ==> results[k] == probe(checks[k].0, checks[k].1)
  {
    results := [];
    var k := 0;
    while k < |checks|
      invariant 0 <= k <= |checks| && |results| == k
      invariant forall m :: 0 <= m < k ==> results[m] == probe(checks[m].0, checks[m].1)
    {
      results := results + [probe(checks[k].0, checks[k].1)];
      k := k + 1;
    }
  }

  // ---------------------------------------------------------------
  // Per-colour stock (lines 114-121)
  // ---------------------------------------------------------------

  /** The map after the first `n` probes. */
  function StockMap(checks: seq<(string, string)>, results: seq<bool>, n: nat): map<string, set<string>>
    requires n <= |checks| == |results|
  {
    if n == 0 then map[]
    else
      var m := StockMap(checks, results, n - 1);
      if results[n - 1] then
        var (c, s) := checks[n - 1];
        m[c := (if c in m then m[c] else {}) + {s}]
      else m
  }

  /** `colorStockSet?.has(sizeCode) ?? false`. */
  predicate InStock(m: map<string, set<string>>, colorCode: string, sizeCode: string) {
    colorCode in m && sizeCode in m[colorCode]
  }

  /** A pair is in stock iff one of the probes was of that pair and returned
      true. */
  lemma {:induction false} StockMapIff(checks: seq<(string, string)>, results: seq<bool>, n: nat, c: string, s: string)
    requires n <= |checks| == |results|
    ensures InStock(StockMap(checks, results, n), c, s) <==> exists k :: 0 <= k < n && checks[k] == (c, s) && results[k]
  {
    if n > 0 {
      StockMapIff(checks, results, n - 1, c, s);
    }
  }

  method BuildStock(checks: seq<(string, string)>, results: seq<bool>) returns (m: map<string, set<string>>)
    requires |checks| == |results|
    ensures m == StockMap(checks, results, |checks|)
  {
    m := map[];
    var i := 0;
    while i < |checks|
      invariant 0 <= i <= |checks|
      invariant m == StockMap(checks, results, i)
    {
      if results[i] {
        var (c, s) := checks[i];
        if c !in m {
          m := m[c := {}];
        }
        m := m[c := m[c] + {s}];
      }
      i := i + 1;
    }
  }

  // ---------------------------------------------------------------
  // Variants (lines 129-151, 173)
  // ---------------------------------------------------------------

  datatype SizeStock = SizeStock(name: string, isStock: bool)

  datatype UniqloVariant = UniqloVariant(color: string, image: string, price: string, sizes: seq<SizeStock>)

  /** What `scrapeUniqlo` returns; the image-derived `goodsId` is not part of
      this model. */
  datatype UniqloProduct = UniqloProduct(title: string, rawCode: string, category: string, isLimitedOffer: bool, variants: seq<UniqloVariant>)

  function SizeList(colorCode: string, sizes: seq<Choice>, m: map<string, set<string>>): (r: seq<SizeStock>)
    ensures |r| == |sizes|
    ensures forall j :: 0 <= j < |sizes| ==> r[j] == SizeStock(sizes[j].name, InStock(m, colorCode, sizes[j].displayCode))
  {
    seq(|sizes|, j requires 0 <= j < |sizes| => SizeStock(sizes[j].name, InStock(m, colorCode, sizes[j].displayCode)))
  }

  function VariantOf(c: Choice, sizes: seq<Choice>, images: map<string, string>, price: string, m: map<string, set<string>>): UniqloVariant {
    UniqloVariant(c.displayCode + " " + c.name, if c.displayCode in images then images[c.displayCode] else "", price, SizeList(c.displayCode, sizes, m))
  }

  const MaxVariants: nat := 10

  /** `colors.map(...).slice(0, 10)`. */
  function Variants(colors: seq<Choice>, sizes: seq<Choice>, images: map<string, string>, price: string, m: map<string, set<string>>): (vs: seq<UniqloVariant>)
    ensures |vs| == if |colors| < MaxVariants then |colors| else MaxVariants
    ensures forall i :: 0 <= i < |vs| ==> vs[i] == VariantOf(colors[i], sizes, images, price, m)
  {
    var n := if |colors| < MaxVariants then |colors| else MaxVariants;
    seq(n, i requires 0 <= i < n => VariantOf(colors[i], sizes, images, price, m))
  }

  /** The stock search's size codes; a failed call counts as none. */
  function UnionCodes(stock: Option<seq<string>>): seq<string> {
    if stock.Some? then stock.value else []
  }

  /** `scrapeUniqlo` as a function of the URL and of three oracles: the
      details by (code, price group), the stock search's size codes by code,
      and the (colour, size) probe by code. */
  function UniqloOf(url: string, detail: (string, string) -> Option<UniqloDetail>,
                    stock: string -> Option<seq<string>>, probe: (string, string, string) -> bool): Option<UniqloProduct>
  {
    var mt := ProductMatch(url);
    if mt.None? then None
    else
      var code := mt.value.rawCode;
      var dt := detail(code, PriceGroup(mt.value));
      if dt.None? then None
      else
        var d := dt.value;
        var colors := Shown(d.colors);
        var sizes := Shown(d.sizes);
        var union := set c | c in UnionCodes(stock(code));
        var checks := Checks(colors, sizes, union);
        var results := seq(|checks|, k requires 0 <= k < |checks| => probe(code, checks[k].0, checks[k].1));
        var m := StockMap(checks, results, |checks|);
        Some(UniqloProduct(Title(d), code, Category(d), IsLimitedOffer(d), Variants(colors, sizes, d.mainImages, Price(d), m)))
  }

  /** server/utils/scrapeUniqlo.ts:3-179. */
  method ScrapeUniqlo(url: string, detail: (string, string) -> Option<UniqloDetail>,
                      stock: string -> Option<seq<string>>, probe: (string, string, string) -> bool)
    returns (r: Option<UniqloProduct>)
    ensures r == UniqloOf(url, detail, stock, probe)
  {
    var mt := ProductMatch(url);
    if mt.None? {
      return None;
    }
    var code := mt.value.rawCode;
    var dt := detail(code, PriceGroup(mt.value));
    if dt.None? {
      return None;
    }
    var d := dt.value;
    var union := SizeUnion(UnionCodes(stock(code)));
    var colors := Shown(d.colors);
    var sizes := Shown(d.sizes);
    var checks := BuildChecks(colors, sizes, union);
    var results := RunProbes(checks, (c, s) => probe(code, c, s));
    assert results == seq(|checks|, k requires 0 <= k < |checks| => probe(code, checks[k].0, checks[k].1));
    var m := BuildStock(checks, results);
    var variants := Variants(colors, sizes, d.mainImages, Price(d), m);
    return Some(UniqloProduct(Title(d), code, Category(d), IsLimitedOffer(d), variants));
  }

  // ---------------------------------------------------------------
  // Properties
  // ---------------------------------------------------------------

  /** A size is in stock for a colour iff its code is in the union and the
      probe of that (colour, size) pair returned true; a size outside the
      union is out of stock for every colour. */
  lemma IsStockIff(colors: seq<Choice>, sizes: seq<Choice>, union: set<string>, probe: (string, string) -> bool, i: nat, j: nat)
    requires i < |colors| && j < |sizes|
    ensures var checks := Checks(colors, sizes, union);
      var results := seq(|checks|, k requires 0 <= k < |checks| => probe(checks[k].0, checks[k].1));
      var stocked := InStock(StockMap(checks, results, |checks|), colors[i].displayCode, sizes[j].displayCode);
      stocked <==> sizes[j].displayCode in union && probe(colors[i].displayCode, sizes[j].displayCode)
  {
    var checks := Checks(colors, sizes, union);
    var results := seq(|checks|, k requires 0 <= k < |checks| => probe(checks[k].0, checks[k].1));
    var p := (colors[i].displayCode, sizes[j].displayCode);
    StockMapIff(checks, results, |checks|, p.0, p.1);
    ChecksMembers(colors, sizes, union, p);
    if p.1 in union && probe(p.0, p.1) {
      var k :| 0 <= k < |checks| && checks[k] == p;
      assert results[k];
    }
  }

  /** A failed details call gives `null`; a URL without a product code too. */
  lemma NullCases(url: string, detail: (string, string) -> Option<UniqloDetail>,
                  stock: string -> Option<seq<string>>, probe: (string, string, string) -> bool)
    ensures ProductMatch(url).None? ==> UniqloOf(url, detail, stock, probe).None?
    ensures ProductMatch(url).Some?
      && detail(ProductMatch(url).value.rawCode, PriceGroup(ProductMatch(url).value)).None?
      ==> UniqloOf(url, detail, stock, probe).None?
  {
  }

  /** A failed stock search leaves the union empty, so nothing is probed and
      every size is out of stock. */
  lemma FailedUnionNoProbes(colors: seq<Choice>, sizes: seq<Choice>)
    ensures Checks(colors, sizes, set c | c in UnionCodes(None)) == []
  {
    var union := set c | c in UnionCodes(None);
    assert union == {};
    if Checks(colors, sizes, union) != [] {
      var p := Checks(colors, sizes, union)[0];
      ChecksMembers(colors, sizes, union, p);
    }
  }

  /** Every variant carries the product price and lists every shown size, in
      order; the colour is '<displayCode> <name>'. */
  lemma VariantShape(colors: seq<Choice>, sizes: seq<Choice>, images: map<string, string>, price: string, m: map<string, set<string>>, i: nat)
    requires i < |Variants(colors, sizes, images, price, m)|
    ensures var v := Variants(colors, sizes, images, price, m)[i];
      v.price == price && v.color == colors[i].displayCode + " " + colors[i].name
      && |v.sizes| == |sizes| && forall j :: 0 <= j < |sizes| ==> v.sizes[j].name == sizes[j].name
  {
  }
}
