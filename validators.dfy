/** Input validation of backend/utils/validators.py. */
module Validators {

  import opened Options
  import opened Strings

  const TitleEmpty := "文章标题不能为空"
  const TitleTooLong := "文章标题不能超过64个字符"
  const ContentEmpty := "文章内容不能为空"
  const ContentTooShort := "文章内容至少需要100个字符"
  const ContentTooLong := "文章内容不能超过20000个字符"
  const CoverInvalid := "封面图URL格式不正确"
  const AppIdEmpty := "App ID不能为空"
  const AppIdMalformed := "App ID格式不正确"
  const AppSecretEmpty := "App Secret不能为空"
  const AppSecretWrongLength := "App Secret长度应为32位"

  const MaxTitleLength := 64
  const MinContentLength := 100
  const MaxContentLength := 20000
  const AppSecretLength := 32

  /** Python truthiness of an optional string (`None` is an absent key). */
  predicate Truthy(s: Option<string>) {
    s.Some? && s.value != ""
  }

  // ---------------------------------------------------------------------------
  // is_valid_image_url

  /** The character a letter of the pattern must fold to under Python's
      `re.IGNORECASE` on `str`: an ASCII capital matches its lower-case
      letter; `İ` (U+0130, whose simple lower case is `i`) and the dotless `ı`
      (U+0131) match `i`; the long `ſ` (U+017F) matches `s`.  No other
      character folds to a letter of the pattern (`h t p s j g e n i f w b`),
      and every other character is kept. */
  function Lower(c: char): char {
    if 'A' <= c <= 'Z' then (c as int + 32) as char
    else if c == '\U{130}' || c == '\U{131}' then 'i'
    else if c == '\U{17F}' then 's'
    else c
  }

  /** `s` equals the lower-case literal `lit` when case is ignored. */
  predicate SameIgnoringCase(s: string, lit: string) {
    |s| == |lit| && forall i :: 0 <= i < |s| ==> Lower(s[i]) == lit[i]
  }

  /** One of `jpg`, `jpeg`, `png`, `gif`, `webp`, in any case. */
  predicate IsImageExtension(ext: string) {
    SameIgnoringCase(ext, "jpg") || SameIgnoringCase(ext, "jpeg") || SameIgnoringCase(ext, "png")
    || SameIgnoringCase(ext, "gif") || SameIgnoringCase(ext, "webp")
  }

  /** `t` starts with an extension of length `k`, followed by nothing or by a `?` query. */
  predicate ExtThenQuery(t: string, k: nat) {
    k <= |t| && IsImageExtension(t[..k]) && (k == |t| || t[k] == '?')
  }

  /** The length of the scheme when `core` starts with `http://` or `https://` in any case, else 0. */
  function SchemeLength(core: string): (n: nat)
    ensures n == 0 || n == 4 || n == 5
    ensures n > 0 ==> |core| >= n + 3 && core[n..n + 3] == "://"
  {
    if |core| >= 7 && SameIgnoringCase(core[..7], "http://") then 4
    else if |core| >= 8 && SameIgnoringCase(core[..8], "https://") then 5
    else 0
  }

  /** Python's `$` also matches before one final newline. */
  function WithoutFinalNewline(url: string): string {
    if |url| > 0 && url[|url| - 1] == '\n' then url[..|url| - 1] else url
  }

  /** `re.match(r'^https?://.+\.(jpg|jpeg|png|gif|webp)(\?.*)?$', url, re.IGNORECASE)`:
      the `.` of the pattern matches anything but a newline, and every
      extension has 3 or 4 letters. */
  predicate IsValidImageUrl(url: string) {
    var core := WithoutFinalNewline(url);
    var n := SchemeLength(core);
    && '\n' !in core && n > 0
    && exists p | n + 3 < p < |core| :: core[p] == '.' && (ExtThenQuery(core[p + 1..], 3) || ExtThenQuery(core[p + 1..], 4))
  }

  /** The pieces of a URL the pattern describes. */
  predicate PatternPieces(scheme: string, body: string, ext: string, query: string, tail: string) {
    && (SameIgnoringCase(scheme, "http") || SameIgnoringCase(scheme, "https"))
    && |body| >= 1 && '\n' !in body
    && IsImageExtension(ext)
    && (query == "" || (query[0] == '?' && '\n' !in query))
    && (tail == "" || tail == "\n")
  }

  lemma {:induction false} SchemeMatches(scheme: string, lit: string)
    requires SameIgnoringCase(scheme, lit)
    ensures SameIgnoringCase(scheme + "://", lit + "://")
  {
  }

  /** A URL that starts with a scheme of the pattern and `://` has that scheme's length. */
  lemma {:induction false} SchemeOf(scheme: string, rest: string)
    requires SameIgnoringCase(scheme, "http") || SameIgnoringCase(scheme, "https")
    ensures SchemeLength(scheme + "://" + rest) == |scheme|
  {
    var core := scheme + "://" + rest;
    assert core[..|scheme| + 3] == scheme + "://";
    if SameIgnoringCase(scheme, "http") {
      SchemeMatches(scheme, "http");
    } else {
      SchemeMatches(scheme, "https");
      assert core[..7][4] == core[4];
      assert !SameIgnoringCase(core[..7], "http://");
    }
  }

  /** No newline occurs in the pieces nor after them. */
  lemma {:induction false} NoNewlineInPieces(scheme: string, body: string, ext: string, query: string)
    requires SameIgnoringCase(scheme, "http") || SameIgnoringCase(scheme, "https")
    requires '\n' !in body && IsImageExtension(ext) && '\n' !in query
    ensures '\n' !in scheme + "://" + body + "." + ext + query
    ensures |ext| >= 3 && ext[|ext| - 1] != '\n'
  {
  }

  /** The acceptance test with its witnesses given. */
  lemma {:induction false} AcceptedAt(url: string, core: string, p: nat, k: nat)
    requires WithoutFinalNewline(url) == core && '\n' !in core && SchemeLength(core) > 0
    requires SchemeLength(core) + 3 < p < |core| && core[p] == '.' && (k == 3 || k == 4) && ExtThenQuery(core[p + 1..], k)
    ensures IsValidImageUrl(url)
  {
  }

  lemma {:induction false} CoreOfPieces(scheme: string, body: string, ext: string, query: string, tail: string)
    requires PatternPieces(scheme, body, ext, query, tail)
    ensures var core := scheme + "://" + body + "." + ext + query;
      WithoutFinalNewline(core + tail) == core && '\n' !in core
  {
    var core := scheme + "://" + body + "." + ext + query;
    NoNewlineInPieces(scheme, body, ext, query);
    assert core[|core| - 1] != '\n' by {
      if query == "" { assert core[|core| - 1] == ext[|ext| - 1]; }
    }
    if tail == "\n" {
      assert (core + tail)[..|core + tail| - 1] == core;
    } else {
      assert core + tail == core;
    }
  }

  /** An extension of the pattern followed by an empty or `?` query. */
  lemma {:induction false} ExtensionThenQuery(ext: string, query: string)
    requires IsImageExtension(ext) && (query == "" || query[0] == '?')
    ensures (|ext| == 3 || |ext| == 4) && ExtThenQuery(ext + query, |ext|)
  {
    assert (ext + query)[..|ext|] == ext;
    if query != "" {
      assert (ext + query)[|ext|] == query[0];
    }
  }

  /** Where the dot before the extension sits in a URL built from the pieces. */
  lemma {:induction false} DotPosition(head: string, ext: string, query: string)
    ensures var core := head + "." + ext + query;
      core[|head|] == '.' && core[|head| + 1..] == ext + query
  {
    var core := head + "." + ext + query;
    assert core == head + ("." + (ext + query));
  }

  lemma {:induction false} Regroup(scheme: string, body: string, ext: string, query: string, tail: string)
    ensures var head := scheme + "://" + body;
      && scheme + "://" + (body + "." + ext + query) == head + "." + ext + query
      && scheme + "://" + body + "." + ext + query + tail == scheme + "://" + (body + "." + ext + query) + tail
  {
  }

  /** The URL without its tail: scheme, `://`, body, the dot at `p`, extension and query. */
  lemma {:induction false} CoreFacts(scheme: string, body: string, ext: string, query: string)
    requires SameIgnoringCase(scheme, "http") || SameIgnoringCase(scheme, "https")
    requires |body| >= 1 && IsImageExtension(ext) && (query == "" || query[0] == '?')
    ensures var core := scheme + "://" + body + "." + ext + query;
      var p := |scheme| + 3 + |body|;
      && SchemeLength(core) == |scheme| && SchemeLength(core) + 3 < p < |core| && core[p] == '.'
      && (|ext| == 3 || |ext| == 4) && ExtThenQuery(core[p + 1..], |ext|)
  {
    var head := scheme + "://" + body;
    Regroup(scheme, body, ext, query, "");
    SchemeOf(scheme, body + "." + ext + query);
    DotPosition(head, ext, query);
    ExtensionThenQuery(ext, query);
  }

  /** Every URL built from the pattern's pieces is accepted. */
  lemma {:induction false} AcceptsPattern(scheme: string, body: string, ext: string, query: string, tail: string)
    requires PatternPieces(scheme, body, ext, query, tail)
    ensures IsValidImageUrl(scheme + "://" + body + "." + ext + query + tail)
  {
    var core := scheme + "://" + body + "." + ext + query;
    CoreOfPieces(scheme, body, ext, query, tail);
    CoreFacts(scheme, body, ext, query);
    AcceptedAt(core + tail, core, |scheme| + 3 + |body|, |ext|);
  }

  lemma {:induction false} NoNewlineInSlice(s: string, i: nat, j: nat)
    requires i <= j <= |s| && '\n' !in s
    ensures '\n' !in s[i..j]
  {
  }

  lemma {:induction false} SplitAt(core: string, n: nat, p: nat, k: nat)
    requires n + 3 <= p < |core| && p + 1 + k <= |core| && core[n..n + 3] == "://" && core[p] == '.'
    ensures core == core[..n] + "://" + core[n + 3..p] + "." + core[p + 1..][..k] + core[p + 1..][k..]
  {
    assert core == core[..n] + core[n..n + 3] + core[n + 3..p] + [core[p]] + core[p + 1..];
    assert core[p + 1..] == core[p + 1..][..k] + core[p + 1..][k..];
  }

  /** The scheme at the start of an accepted URL. */
  lemma {:induction false} SchemeOfAccepted(core: string)
    requires SchemeLength(core) > 0
    ensures var n := SchemeLength(core);
      SameIgnoringCase(core[..n], if n == 4 then "http" else "https")
  {
    var n := SchemeLength(core);
    if n == 4 {
      assert forall i :: 0 <= i < 4 ==> core[..4][i] == core[..7][i];
    } else {
      assert forall i :: 0 <= i < 5 ==> core[..5][i] == core[..8][i];
    }
  }

  /** An accepted core string cut at its scheme, dot and extension. */
  lemma {:induction false} CorePieces(core: string, p: nat, k: nat)
    requires '\n' !in core && SchemeLength(core) > 0
    requires SchemeLength(core) + 3 < p < |core| && core[p] == '.' && (k == 3 || k == 4) && ExtThenQuery(core[p + 1..], k)
    ensures var n := SchemeLength(core);
      var t := core[p + 1..];
      && PatternPieces(core[..n], core[n + 3..p], t[..k], t[k..], "")
      && core == core[..n] + "://" + core[n + 3..p] + "." + t[..k] + t[k..]
  {
    var n := SchemeLength(core);
    SchemeOfAccepted(core);
    NoNewlineInSlice(core, n + 3, p);
    NoNewlineInSlice(core, p + 1 + k, |core|);
    assert core[p + 1..][k..] == core[p + 1 + k..];
    SplitAt(core, n, p, k);
  }

  /** The URL is its core followed by at most one final newline. */
  lemma {:induction false} CoreThenTail(url: string)
    ensures var core := WithoutFinalNewline(url);
      url == core + (if core == url then "" else "\n")
  {
  }

  /** Every accepted URL splits into the pattern's pieces. */
  lemma {:induction false} OnlyPattern(url: string) returns (scheme: string, body: string, ext: string, query: string, tail: string)
    requires IsValidImageUrl(url)
    ensures PatternPieces(scheme, body, ext, query, tail)
    ensures url == scheme + "://" + body + "." + ext + query + tail
  {
    var core := WithoutFinalNewline(url);
    var n := SchemeLength(core);
    var p :| n + 3 < p < |core| && core[p] == '.' && (ExtThenQuery(core[p + 1..], 3) || ExtThenQuery(core[p + 1..], 4));
    var k := if ExtThenQuery(core[p + 1..], 3) then 3 else 4;
    CorePieces(core, p, k);
    CoreThenTail(url);
    scheme := core[..n];
    body := core[n + 3..p];
    ext := core[p + 1..][..k];
    query := core[p + 1..][k..];
    tail := if core == url then "" else "\n";
  }

  /** The pattern needs `://` right after the scheme. */
  lemma RejectsMissingScheme()
    ensures !IsValidImageUrl("ftp://a.png") && !IsValidImageUrl("http:/a.png")
  {
    assert !SameIgnoringCase("ftp://a.png"[..7], "http://") by { assert "ftp://a.png"[..7][0] == 'f'; }
    assert !SameIgnoringCase("ftp://a.png"[..8], "https://") by { assert "ftp://a.png"[..8][0] == 'f'; }
    assert !SameIgnoringCase("http:/a.png"[..7], "http://") by { assert "http:/a.png"[..7][6] == 'a'; }
    assert !SameIgnoringCase("http:/a.png"[..8], "https://") by { assert "http:/a.png"[..8][4] == ':'; }
  }

  /** Case is ignored as Python does it: the dotless `ı` matches the `i` of
      `gif`, and the long `ſ` matches the `s` of `https`. */
  lemma FoldedLettersAccepted()
    ensures IsValidImageUrl("http://a.g\U{131}f") && IsValidImageUrl("http\U{17F}://a.png")
  {
    DotlessIAccepted();
    LongSAccepted();
  }

  /** The dotless `ı` of the extension matches the `i` of `gif`. */
  lemma DotlessIAccepted()
    ensures IsValidImageUrl("http://a.g\U{131}f")
  {
    var u := "http://a.g\U{131}f";
    assert SameIgnoringCase(u[..7], "http://");
    assert SameIgnoringCase(u[9..][..3], "gif");
    AcceptedAt(u, u, 8, 3);
  }

  /** The long `ſ` of the scheme matches the `s` of `https`. */
  lemma LongSAccepted()
    ensures IsValidImageUrl("http\U{17F}://a.png")
  {
    var v := "http\U{17F}://a.png";
    assert !SameIgnoringCase(v[..7], "http://") by { assert v[..7][4] != ':'; }
    assert SameIgnoringCase(v[..8], "https://");
    assert SameIgnoringCase(v[10..][..3], "png");
    AcceptedAt(v, v, 9, 3);
  }

  // ---------------------------------------------------------------------------
  // validate_article

  /** The keys of the article dictionary `validate_article` reads. */
  datatype ArticleInput = ArticleInput(title: Option<string>, content: Option<string>, coverImage: Option<string>)

  /** The check that produced an error: 0 title, 1 content, 2 cover image. */
  function ArticleCheck(message: string): int {
    if message == TitleEmpty || message == TitleTooLong then 0
    else if message == ContentEmpty || message == ContentTooShort || message == ContentTooLong then 1
    else 2
  }

  lemma ArticleChecks()
    ensures ArticleCheck(TitleEmpty) == 0 && ArticleCheck(TitleTooLong) == 0
    ensures ArticleCheck(ContentEmpty) == 1 && ArticleCheck(ContentTooShort) == 1 && ArticleCheck(ContentTooLong) == 1
    ensures ArticleCheck(CoverInvalid) == 2
  {
  }

  predicate ArticleAcceptable(a: ArticleInput) {
    && Truthy(a.title) && |a.title.value| <= MaxTitleLength
    && Truthy(a.content) && MinContentLength <= |a.content.value| <= MaxContentLength
    && (Truthy(a.coverImage) ==> IsValidImageUrl(a.coverImage.value))
  }

  /** The error the title check appends, if any. */
  function TitleErrors(a: ArticleInput): (r: seq<string>)
    ensures |r| <= 1 && forall i :: 0 <= i < |r| ==> ArticleCheck(r[i]) == 0
    ensures (TitleEmpty in r) <==> !Truthy(a.title)
    ensures (TitleTooLong in r) <==> Truthy(a.title) && |a.title.value| > MaxTitleLength
    ensures r == [] <==> Truthy(a.title) && |a.title.value| <= MaxTitleLength
  {
    ArticleChecks();
    if !Truthy(a.title) then [TitleEmpty]
    else if |a.title.value| > MaxTitleLength then [TitleTooLong]
    else []
  }

  /** The error the content check appends, if any. */
  function ContentErrors(a: ArticleInput): (r: seq<string>)
    ensures |r| <= 1 && forall i :: 0 <= i < |r| ==> ArticleCheck(r[i]) == 1
    ensures (ContentEmpty in r) <==> !Truthy(a.content)
    ensures (ContentTooShort in r) <==> Truthy(a.content) && |a.content.value| < MinContentLength
    ensures (ContentTooLong in r) <==> Truthy(a.content) && |a.content.value| > MaxContentLength
    ensures r == [] <==> Truthy(a.content) && MinContentLength <= |a.content.value| <= MaxContentLength
  {
    ArticleChecks();
    if !Truthy(a.content) then [ContentEmpty]
    else if |a.content.value| < MinContentLength then [ContentTooShort]
    else if |a.content.value| > MaxContentLength then [ContentTooLong]
    else []
  }

  /** The error the cover check appends, if any. */
  function CoverErrors(a: ArticleInput): (r: seq<string>)
    ensures |r| <= 1 && forall i :: 0 <= i < |r| ==> ArticleCheck(r[i]) == 2
    ensures (CoverInvalid in r) <==> Truthy(a.coverImage) && !IsValidImageUrl(a.coverImage.value)
    ensures r == [] <==> (Truthy(a.coverImage) ==> IsValidImageUrl(a.coverImage.value))
  {
    ArticleChecks();
    if Truthy(a.coverImage) && !IsValidImageUrl(a.coverImage.value) then [CoverInvalid] else []
  }

  /** The three checks' errors together: each message exactly when its
      condition holds, in check order, none when the article is acceptable. */
  lemma {:induction false} ArticleErrors(a: ArticleInput)
    ensures var errors := TitleErrors(a) + ContentErrors(a) + CoverErrors(a);
      && ((TitleEmpty in errors) <==> !Truthy(a.title))
      && ((TitleTooLong in errors) <==> Truthy(a.title) && |a.title.value| > MaxTitleLength)
      && ((ContentEmpty in errors) <==> !Truthy(a.content))
      && ((ContentTooShort in errors) <==> Truthy(a.content) && |a.content.value| < MinContentLength)
      && ((ContentTooLong in errors) <==> Truthy(a.content) && |a.content.value| > MaxContentLength)
      && ((CoverInvalid in errors) <==> Truthy(a.coverImage) && !IsValidImageUrl(a.coverImage.value))
      && (forall i, j :: 0 <= i < j < |errors| ==> ArticleCheck(errors[i]) < ArticleCheck(errors[j]))
      && |errors| <= 3
      && (errors == [] <==> ArticleAcceptable(a))
  {
    ArticleChecks();
    var t, c, v := TitleErrors(a), ContentErrors(a), CoverErrors(a);
    var errors := t + c + v;
    assert forall i :: 0 <= i < |errors| ==>
      ArticleCheck(errors[i]) == if i < |t| then 0 else if i < |t| + |c| then 1 else 2;
  }

  /** `validate_article`: at most one error per check, in the order title,
      content, cover; each message exactly when its condition holds. */
  method ValidateArticle(a: ArticleInput) returns (errors: seq<string>)
    ensures (TitleEmpty in errors) <==> !Truthy(a.title)
    ensures (TitleTooLong in errors) <==> Truthy(a.title) && |a.title.value| > MaxTitleLength
    ensures (ContentEmpty in errors) <==> !Truthy(a.content)
    ensures (ContentTooShort in errors) <==> Truthy(a.content) && |a.content.value| < MinContentLength
    ensures (ContentTooLong in errors) <==> Truthy(a.content) && |a.content.value| > MaxContentLength
    ensures (CoverInvalid in errors) <==> Truthy(a.coverImage) && !IsValidImageUrl(a.coverImage.value)
    ensures forall i, j :: 0 <= i < j < |errors| ==> ArticleCheck(errors[i]) < ArticleCheck(errors[j])
    ensures |errors| <= 3
    ensures errors == [] <==> ArticleAcceptable(a)
  {
    errors := [];
    if !Truthy(a.title) {
      errors := errors + [TitleEmpty];
    } else if |a.title.value| > MaxTitleLength {
      errors := errors + [TitleTooLong];
    }
    assert errors == TitleErrors(a);
    if !Truthy(a.content) {
      errors := errors + [ContentEmpty];
    } else if |a.content.value| < MinContentLength {
      errors := errors + [ContentTooShort];
    } else if |a.content.value| > MaxContentLength {
      errors := errors + [ContentTooLong];
    }
    assert errors == TitleErrors(a) + ContentErrors(a);
    if Truthy(a.coverImage) {
      if !IsValidImageUrl(a.coverImage.value) {
        errors := errors + [CoverInvalid];
      }
    }
    assert errors == TitleErrors(a) + ContentErrors(a) + CoverErrors(a);
    ArticleErrors(a);
  }

  // ---------------------------------------------------------------------------
  // validate_wechat_config

  datatype WeChatConfigInput = WeChatConfigInput(appId: Option<string>, appSecret: Option<string>)

  /** `validate_wechat_config`: at most one App ID error, then at most one App Secret error. */
  method ValidateWeChatConfig(c: WeChatConfigInput) returns (errors: seq<string>)
    ensures (AppIdEmpty in errors) <==> !Truthy(c.appId)
    ensures (AppIdMalformed in errors) <==> Truthy(c.appId) && !StartsWith(c.appId.value, "wx")
    ensures (AppSecretEmpty in errors) <==> !Truthy(c.appSecret)
    ensures (AppSecretWrongLength in errors) <==> Truthy(c.appSecret) && |c.appSecret.value| != AppSecretLength
    ensures |errors| <= 2
    ensures |errors| == 2 ==> errors[0] in {AppIdEmpty, AppIdMalformed} && errors[1] in {AppSecretEmpty, AppSecretWrongLength}
    ensures errors == [] <==>
      Truthy(c.appId) && StartsWith(c.appId.value, "wx") && Truthy(c.appSecret) && |c.appSecret.value| == AppSecretLength
  {
    errors := [];
    if !Truthy(c.appId) {
      errors := errors + [AppIdEmpty];
    } else if !StartsWith(c.appId.value, "wx") {
      errors := errors + [AppIdMalformed];
    }
    if !Truthy(c.appSecret) {
      errors := errors + [AppSecretEmpty];
    } else if |c.appSecret.value| != AppSecretLength {
      errors := errors + [AppSecretWrongLength];
    }
  }
}
