/** `fixUrl` (server/utils/fixUrl.ts): turns a scraped image reference into an
    absolute HTTPS URL. The origin of the page URL (`new URL(baseUrl).origin`)
    is passed in already computed. */
module Urls {
  import opened Js
  import opened Text

  const Placeholder: string := "https://placehold.co/600x400" + "?text=No+Image"

  function FixUrl(url: Option<string>, origin: string): (r: string)
    ensures !Truthy(url) ==> r == Placeholder
  {
    if !Truthy(url) then Placeholder else FixClean(Trim(url.value), origin)
  }

  /** The prefix rules, applied to the trimmed reference. */
  function FixClean(clean: string, origin: string): string {
    if StartsWith(clean, "//") then "https:" + clean
    else if StartsWith(clean, "/") then origin + clean
    else if StartsWith(clean, "http:") then ReplaceFirst(clean, "http:", "https:")
    else clean
  }

  /** An origin as `URL.origin` gives it for an https page. */
  predicate IsHttpsOrigin(origin: string) {
    StartsWith(origin, "https:") && IsTrimmed(origin)
  }

  /** The input is trimmed before any prefix test: padding it with white space
      changes nothing, as long as something other than white space is left. */
  lemma {:induction false} TrimmedBeforeChecks(s: string, origin: string)
    requires Trim(s) != ""
    ensures FixUrl(Some(s), origin) == FixUrl(Some(Trim(s)), origin)
  {
    TrimIdempotent(s);
  }

  /** A protocol-relative reference gets exactly `https:` in front; this test
      comes before the root-relative one, which `//` also passes. */
  lemma ProtocolRelative(s: string, origin: string)
    requires StartsWith(Trim(s), "//")
    ensures FixUrl(Some(s), origin) == "https:" + Trim(s)
  {
  }

  /** A root-relative reference is resolved against the page's origin. */
  lemma RootRelative(s: string, origin: string)
    requires StartsWith(Trim(s), "/") && !StartsWith(Trim(s), "//")
    ensures FixUrl(Some(s), origin) == origin + Trim(s)
  {
  }

  lemma {:induction false} HttpUpgradedClean(clean: string, origin: string)
    requires StartsWith(clean, "http:")
    ensures FixClean(clean, origin) == "https:" + clean[5..]
  {
    assert clean[0] == 'h';
    ReplaceFirstAtStart(clean, "http:", "https:");
  }

  /** `http:` is upgraded: the first `http:`, which is the prefix, becomes
      `https:` and the rest is kept. */
  lemma {:induction false} HttpUpgraded(s: string, origin: string)
    requires StartsWith(Trim(s), "http:")
    ensures FixUrl(Some(s), origin) == "https:" + Trim(s)[5..]
  {
    HttpUpgradedClean(Trim(s), origin);
  }

  /** Anything else, an https URL among them, comes back trimmed and otherwise
      unchanged. */
  lemma {:induction false} PassThrough(s: string, origin: string)
    requires Trim(s) != ""
    requires !StartsWith(Trim(s), "/") && !StartsWith(Trim(s), "http:")
    ensures FixUrl(Some(s), origin) == Trim(s)
  {
    NoSlashPrefix(Trim(s));
  }

  lemma NoSlashPrefix(r: string)
    requires r != [] && !StartsWith(r, "/")
    ensures !StartsWith(r, "//")
  {
    assert r[..1] == [r[0]];
  }

  /** A trimmed https URL, or a trimmed string that none of the rules touches,
      is left as it is. */
  lemma {:induction false} FixedPoint(r: string, origin: string)
    requires r != "" && IsTrimmed(r)
    requires StartsWith(r, "https:") || (!StartsWith(r, "/") && !StartsWith(r, "http:"))
    ensures FixUrl(Some(r), origin) == r
  {
    TrimOfTrimmed(r);
    if StartsWith(r, "https:") {
      assert r[0] == 'h' && r[4] == 's';
    } else {
      NoSlashPrefix(r);
    }
  }

  lemma PlaceholderIsHttps()
    ensures Placeholder != "" && IsTrimmed(Placeholder) && StartsWith(Placeholder, "https:")
  {
    assert Placeholder[0] == 'h' && Placeholder[|Placeholder| - 1] == 'e';
    assert Placeholder[..6] == "https:";
  }

  /** `prefix + rest` is a trimmed https URL when `prefix` is one and `rest`
      does not end in white space. */
  lemma {:induction false} HttpsConcat(prefix: string, rest: string)
    requires StartsWith(prefix, "https:") && IsTrimmed(prefix)
    requires rest != [] ==> !IsWs(rest[|rest| - 1])
    ensures StartsWith(prefix + rest, "https:") && IsTrimmed(prefix + rest)
  {
    var r := prefix + rest;
    assert r[..6] == prefix[..6];
    assert r[0] == prefix[0];
    assert r[|r| - 1] == if rest == [] then prefix[|prefix| - 1] else rest[|rest| - 1];
  }

  /** The result of the prefix rules on a non-empty trimmed reference is
      trimmed, and it starts with `https:` or is left untouched by them. */
  lemma {:induction false} FixCleanShape(clean: string, origin: string)
    requires IsHttpsOrigin(origin)
    requires clean != [] && IsTrimmed(clean)
    ensures var r := FixClean(clean, origin);
      r != [] && IsTrimmed(r)
      && (StartsWith(r, "https:") || (!StartsWith(r, "/") && !StartsWith(r, "http:")))
  {
    assert "https:"[..6] == "https:";
    if StartsWith(clean, "//") {
      HttpsConcat("https:", clean);
    } else if StartsWith(clean, "/") {
      HttpsConcat(origin, clean);
    } else if StartsWith(clean, "http:") {
      HttpUpgradedClean(clean, origin);
      assert clean[5..] != [] ==> clean[5..][|clean[5..]| - 1] == clean[|clean| - 1];
      HttpsConcat("https:", clean[5..]);
    }
  }

  /** What `fixUrl` returns needs no further fixing: applying it again to any
      non-empty result gives the same string. (A reference of white space only
      becomes "" and a second pass would give the placeholder.) */
  lemma {:induction false} FixUrlIdempotent(url: Option<string>, origin: string)
    requires IsHttpsOrigin(origin)
    requires FixUrl(url, origin) != ""
    ensures FixUrl(Some(FixUrl(url, origin)), origin) == FixUrl(url, origin)
  {
    var r := FixUrl(url, origin);
    if !Truthy(url) {
      PlaceholderIsHttps();
    } else {
      var clean := Trim(url.value);
      FixCleanShape(clean, origin);
    }
    FixedPoint(r, origin);
  }

  lemma BlankTrimsToEmpty()
    ensures Trim(" ") == ""
  {
    assert " "[1..] == [];
  }

  /** A white-space-only reference is the one input on which a second pass
      changes the result. */
  lemma BlankIsNotIdempotent(origin: string)
    ensures FixUrl(Some(" "), origin) == ""
    ensures FixUrl(Some(FixUrl(Some(" "), origin)), origin) == Placeholder
  {
    BlankTrimsToEmpty();
    assert FixClean("", origin) == "";
  }
}

/** `ensureLineImageUrl`, the last check on a card image before it goes into a
    Flex message. server/api/webhook.ts:22-43 has the strict version that only
    lets HTTPS jpg/jpeg/png through; server/api/webhook.post.ts:25-30 has the
    current webhook's version, which only trims and completes `//`. */
module LineImage {
  import opened Js
  import opened Text

  const PlaceholderPath: string := "https://placehold.co/600x600.png"
  const MissingImage: string := PlaceholderPath + "?" + "text=No+Image"
  const ProductImage: string := PlaceholderPath + "?" + "text=Product"

  /** `//host/...` becomes `https://host/...`. */
  function CompleteScheme(n: string): string {
    if StartsWith(n, "//") then "https:" + n else n
  }

  /** The first `http://` becomes `https://` when the string starts with it. */
  function UpgradeHttp(n: string): string {
    if StartsWith(n, "http://") then ReplaceFirst(n, "http://", "https://") else n
  }

  /** The rewriting done before the checks. */
  function Normalize(s: string): string {
    UpgradeHttp(CompleteScheme(Trim(s)))
  }

  /** The path part (before any `?`), lower-cased, ends in a LINE image type. */
  predicate IsSupportedImage(n: string) {
    var w := Lower(BeforeChar(n, '?'));
    EndsWith(w, ".jpg") || EndsWith(w, ".jpeg") || EndsWith(w, ".png")
  }

  /** The final check on the normalized URL. */
  function Accept(n: string): string {
    if !StartsWith(n, "https://") || !IsSupportedImage(n) then ProductImage else n
  }

  /** server/api/webhook.ts:22-43. */
  function EnsureLineImageUrl(url: Option<string>): (r: string)
    ensures r == MissingImage || r == ProductImage
            || (StartsWith(r, "https://") && IsSupportedImage(r))
    ensures !Truthy(url) ==> r == MissingImage
  {
    if !Truthy(url) then MissingImage else Accept(Normalize(url.value))
  }

  /** Everything that is refused comes back as the "Product" placeholder; the
      "No Image" one is kept for a missing image. */
  lemma RejectionsUseProductPlaceholder(s: string)
    requires s != ""
    requires !StartsWith(Normalize(s), "https://") || !IsSupportedImage(Normalize(s))
    ensures EnsureLineImageUrl(Some(s)) == ProductImage
  {
  }

  /** An accepted URL keeps everything it had, query string included. */
  lemma AcceptedUnchanged(s: string)
    requires s != ""
    requires StartsWith(Normalize(s), "https://") && IsSupportedImage(Normalize(s))
    ensures EnsureLineImageUrl(Some(s)) == Normalize(s)
  {
  }

  /** `//host/a.jpg` is completed with `https:` before the checks. */
  lemma {:induction false} ProtocolRelativeNormalized(s: string)
    requires StartsWith(Trim(s), "//")
    ensures Normalize(s) == "https:" + Trim(s)
  {
    var n1 := "https:" + Trim(s);
    assert n1[4] == 's';
  }

  lemma {:induction false} UpgradeAtStart(n: string)
    requires StartsWith(n, "http://")
    ensures UpgradeHttp(n) == "https://" + n[7..]
  {
    ReplaceFirstAtStart(n, "http://", "https://");
  }

  /** `http://host/a.png` is upgraded to `https://` before the checks. */
  lemma {:induction false} HttpUpgradedNormalized(s: string)
    requires StartsWith(Trim(s), "http://")
    ensures Normalize(s) == "https://" + Trim(s)[7..]
  {
    var n0 := Trim(s);
    assert n0[0] == 'h';
    assert CompleteScheme(n0) == n0;
    UpgradeAtStart(n0);
  }

  /** Every supported type ends in `g`, so a path part whose last letter is
      something else is refused. */
  lemma {:induction false} UnsupportedByLastLetter(n: string)
    requires var w := Lower(BeforeChar(n, '?')); w != [] && w[|w| - 1] != 'g'
    ensures !IsSupportedImage(n)
  {
  }

  lemma WebpNormalized()
    ensures Normalize("https://a/b.webp") == "https://a/b.webp"
  {
    var s := "https://a/b.webp";
    assert s[0] == 'h' && s[|s| - 1] == 'p';
    TrimOfTrimmed(s);
    assert s[..8] == "https://";
    HttpsUntouched(s);
  }

  lemma WebpPath()
    ensures BeforeChar("https://a/b.webp", '?') == "https://a/b.webp"
  {
    var s := "https://a/b.webp";
    assert '?' !in s;
    BeforeCharAbsent(s, '?');
  }

  /** A WebP image is refused even over HTTPS. */
  lemma WebpRefused()
    ensures EnsureLineImageUrl(Some("https://a/b.webp")) == ProductImage
  {
    var s := "https://a/b.webp";
    WebpNormalized();
    WebpPath();
    assert s[|s| - 1] == 'p';
    UnsupportedByLastLetter(s);
  }

  /** A trimmed `https://` string that passes the type check is a fixed point. */
  lemma {:induction false} AcceptedFixed(r: string)
    requires r != "" && IsTrimmed(r) && StartsWith(r, "https://") && IsSupportedImage(r)
    ensures EnsureLineImageUrl(Some(r)) == r
  {
    TrimOfTrimmed(r);
    assert r[0] == 'h' && r[4] == 's';
    assert Normalize(r) == r;
  }

  lemma {:induction false} PathIsPng()
    ensures '?' !in PlaceholderPath
    ensures EndsWith(Lower(PlaceholderPath), ".png")
  {
    LowerSlice(PlaceholderPath, |PlaceholderPath| - 4, |PlaceholderPath|);
    assert PlaceholderPath[|PlaceholderPath| - 4..] == ".png";
  }

  lemma {:induction false} PlaceholderAccepted(tail: string)
    requires '?' !in tail && tail != [] && !IsWs(tail[|tail| - 1])
    ensures EnsureLineImageUrl(Some(PlaceholderPath + "?" + tail)) == PlaceholderPath + "?" + tail
  {
    var r := PlaceholderPath + "?" + tail;
    PathIsPng();
    assert r == PlaceholderPath + ['?'] + tail;
    BeforeCharConcat(PlaceholderPath, tail, '?');
    assert r[0] == 'h' && r[|r| - 1] == tail[|tail| - 1];
    assert r[..8] == PlaceholderPath[..8] == "https://";
    AcceptedFixed(r);
  }

  lemma MissingImageAccepted()
    ensures EnsureLineImageUrl(Some(MissingImage)) == MissingImage
  {
    var t := "text=No+Image";
    assert t[|t| - 1] == 'e';
    assert '?' !in t;
    PlaceholderAccepted(t);
  }

  lemma ProductImageAccepted()
    ensures EnsureLineImageUrl(Some(ProductImage)) == ProductImage
  {
    var t := "text=Product";
    assert t[|t| - 1] == 't';
    assert '?' !in t;
    PlaceholderAccepted(t);
  }

  lemma {:induction false} CompleteSchemeTrimmed(n: string)
    requires n != "" && IsTrimmed(n)
    ensures CompleteScheme(n) != "" && IsTrimmed(CompleteScheme(n))
  {
    var n1 := CompleteScheme(n);
    assert n1[|n1| - 1] == n[|n| - 1];
    assert n1[0] == n[0] || n1[0] == 'h';
  }

  lemma {:induction false} UpgradeHttpTrimmed(n: string)
    requires n != "" && IsTrimmed(n)
    ensures UpgradeHttp(n) != "" && IsTrimmed(UpgradeHttp(n))
  {
    if StartsWith(n, "http://") {
      UpgradeAtStart(n);
      var n2 := "https://" + n[7..];
      assert n2[0] == 'h';
      assert n2[|n2| - 1] == if |n| == 7 then '/' else n[|n| - 1];
    }
  }

  /** A normalized non-empty string is trimmed. */
  lemma {:induction false} NormalizeTrimmed(s: string)
    requires Trim(s) != ""
    ensures Normalize(s) != "" && IsTrimmed(Normalize(s))
  {
    CompleteSchemeTrimmed(Trim(s));
    UpgradeHttpTrimmed(CompleteScheme(Trim(s)));
  }

  /** The checked URL is a fixed point: feeding the result back in returns it
      unchanged. */
  lemma {:induction false} EnsureLineImageUrlIdempotent(url: Option<string>)
    ensures EnsureLineImageUrl(Some(EnsureLineImageUrl(url))) == EnsureLineImageUrl(url)
  {
    var r := EnsureLineImageUrl(url);
    if r == MissingImage {
      MissingImageAccepted();
    } else if r == ProductImage {
      ProductImageAccepted();
    } else {
      NormalizeTrimmed(url.value);
      AcceptedFixed(r);
    }
  }

  /** server/api/webhook.post.ts:25-30: only a missing image is replaced, and
      only `//` is completed; nothing is checked. */
  function EnsureLineImageUrlLenient(url: Option<string>): (r: string)
    ensures !Truthy(url) ==> r == MissingImage
    ensures Truthy(url) ==> IsTrimmed(r) && !StartsWith(r, "//") && EndsWith(r, Trim(url.value))
  {
    if !Truthy(url) then MissingImage
    else
      var n := Trim(url.value);
      LenientShape(n);
      CompleteScheme(n)
  }

  lemma {:induction false} LenientShape(n: string)
    requires IsTrimmed(n)
    ensures var r := CompleteScheme(n);
      IsTrimmed(r) && !StartsWith(r, "//") && EndsWith(r, n)
  {
    if n != "" {
      CompleteSchemeTrimmed(n);
    }
    var r := CompleteScheme(n);
    if StartsWith(n, "//") {
      assert r[1] == 't';
      assert r[|r| - |n|..] == n;
    } else {
      assert r[|r| - |n|..] == n;
    }
  }

  /** Feeding the lenient result back in returns it unchanged. */
  lemma {:induction false} LenientIdempotent(url: Option<string>)
    ensures var r := EnsureLineImageUrlLenient(url);
      r != "" ==> EnsureLineImageUrlLenient(Some(r)) == r
  {
    var r := EnsureLineImageUrlLenient(url);
    if r != "" {
      if !Truthy(url) {
        MissingImageTrimmed();
      }
      TrimOfTrimmed(r);
    }
  }

  lemma MissingImageTrimmed()
    ensures IsTrimmed(MissingImage) && !StartsWith(MissingImage, "//")
  {
    var m := MissingImage;
    assert m[0] == 'h' && m[1] == 't' && m[|m| - 1] == 'e';
  }

  /** Where the strict version accepts a trimmed `https://` URL, the lenient
      one returns the same string. */
  lemma {:induction false} LenientAgreesOnAccepted(s: string)
    requires StartsWith(Trim(s), "https://") && IsSupportedImage(Trim(s))
    ensures EnsureLineImageUrlLenient(Some(s)) == EnsureLineImageUrl(Some(s)) == Trim(s)
  {
    var n := Trim(s);
    assert |s| >= |n| >= 8;
    HttpsUntouched(n);
    LenientKeepsScheme(s, n);
    StrictKeepsAccepted(s, n);
  }

  lemma LenientKeepsScheme(s: string, n: string)
    requires s != "" && n == Trim(s) && CompleteScheme(n) == n
    ensures EnsureLineImageUrlLenient(Some(s)) == n
  {
  }

  lemma StrictKeepsAccepted(s: string, n: string)
    requires s != "" && n == Trim(s) && CompleteScheme(n) == n && UpgradeHttp(n) == n
    requires StartsWith(n, "https://") && IsSupportedImage(n)
    ensures EnsureLineImageUrl(Some(s)) == n
  {
    assert Normalize(s) == n;
  }

  lemma HttpsUntouched(n: string)
    requires StartsWith(n, "https://")
    ensures CompleteScheme(n) == n && UpgradeHttp(n) == n
  {
    assert n[..8][1] == 't' && n[..8][4] == 's';
    assert !StartsWith(n, "//");
    assert n[..7][4] == 's';
  }

  /** The lenient version lets through what the strict one refuses: a WebP URL
      over plain HTTP comes back as it is. */
  lemma {:induction false} LenientAcceptsWhatStrictRefuses()
    ensures EnsureLineImageUrlLenient(Some("http://a/b.webp")) == "http://a/b.webp"
    ensures EnsureLineImageUrl(Some("http://a/b.webp")) == ProductImage
  {
    var s := "http://a/b.webp";
    var n := "https://a/b.webp";
    HttpWebpUpgraded();
    WebpNormalized();
    WebpRefused();
    assert s[0] == 'h' && n[0] == 'h';
    assert EnsureLineImageUrl(Some(s)) == Accept(n);
  }

  lemma HttpWebpUpgraded()
    ensures EnsureLineImageUrlLenient(Some("http://a/b.webp")) == "http://a/b.webp"
    ensures Normalize("http://a/b.webp") == "https://a/b.webp"
  {
    var s := "http://a/b.webp";
    assert s[0] == 'h' && s[1] == 't' && s[|s| - 1] == 'p';
    TrimOfTrimmed(s);
    assert CompleteScheme(s) == s;
    assert s[..7] == "http://";
    UpgradeAtStart(s);
    assert "https://" + s[7..] == "https://a/b.webp";
  }
}
