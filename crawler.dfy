/** The article crawler of backend/services/crawler.py.

    BeautifulSoup is replaced by what the crawler reads from the parsed page:
    the text of the heading, of the content container (`get_text()` after the
    script and style elements are removed), of the author and time elements,
    and the attributes of the images inside the container.  The HTTP fetch is
    a function from the URL to that page, or to a failure. */
module Crawler {

  import opened Options
  import opened Strings

  // ---------------------------------------------------------------------------
  // _extract_text

  /** The line boundaries of Python's `str.splitlines`. */
  predicate IsLineBreak(c: char) {
    c == '\n' || c == '\r' || c == '\U{0B}' || c == '\U{0C}' || c == '\U{1C}' || c == '\U{1D}' || c == '\U{1E}'
    || c == '\U{85}' || c == '\U{2028}' || c == '\U{2029}'
  }

  predicate NoBreak(s: string) {
    NoneOf(s, IsLineBreak)
  }

  /** No two consecutive ASCII spaces. */
  predicate NoDoubleSpace(s: string) {
    forall i :: 0 <= i < |s| - 1 ==> !(s[i] == ' ' && s[i + 1] == ' ')
  }

  /** The text cut at every line boundary.  This differs from `splitlines` only
      by an empty piece after a final boundary and between the two characters
      of `\r\n`; `ExtractText` drops empty pieces, so its result is the same. */
  function SplitLines(s: string): (r: seq<string>)
    ensures |r| >= 1
  {
    SplitWhere(s, IsLineBreak)
  }

  function StripAll(ps: seq<string>): (r: seq<string>)
    ensures |r| == |ps| && forall i :: 0 <= i < |ps| ==> r[i] == PyStrip(ps[i])
  {
    if |ps| == 0 then [] else [PyStrip(ps[0])] + StripAll(ps[1..])
  }

  /** `phrase.strip() for phrase in line.split("  ")` for one stripped line. */
  function Phrases(line: string): seq<string> {
    StripAll(Split(PyStrip(line), "  "))
  }

  function Chunks(lines: seq<string>): seq<string> {
    if |lines| == 0 then [] else Phrases(lines[0]) + Chunks(lines[1..])
  }

  /** `chunk for chunk in chunks if chunk` */
  function NonEmpty(cs: seq<string>): (r: seq<string>)
    ensures forall i :: 0 <= i < |r| ==> r[i] != ""
  {
    if |cs| == 0 then [] else (if cs[0] == "" then [] else [cs[0]]) + NonEmpty(cs[1..])
  }

  /** The pieces `_extract_text` joins with newlines. */
  function TextChunks(text: string): seq<string> {
    NonEmpty(Chunks(SplitLines(text)))
  }

  /** `_extract_text` on the container's text. */
  function ExtractText(text: string): string {
    Join(TextChunks(text), "\n")
  }

  // Facts about the pieces.

  lemma {:induction false} SplitHeadIsPrefix(s: string, sep: string)
    requires |sep| > 0
    ensures |Split(s, sep)[0]| <= |s| && Split(s, sep)[0] == s[..|Split(s, sep)[0]|]
    decreases |s|
  {
    if |s| >= |sep| && s[..|sep|] != sep {
      SplitHeadIsPrefix(s[1..], sep);
    }
  }

  /** Splitting on two spaces leaves pieces without two consecutive spaces,
      and without line boundaries when the input has none. */
  lemma {:induction false} SplitPiecesClean(s: string)
    requires NoBreak(s)
    ensures forall i :: 0 <= i < |Split(s, "  ")| ==> NoBreak(Split(s, "  ")[i]) && NoDoubleSpace(Split(s, "  ")[i])
    decreases |s|
  {
    if |s| < 2 {
    } else if s[..2] == "  " {
      SplitPiecesClean(s[2..]);
    } else {
      var t := Split(s[1..], "  ");
      SplitPiecesClean(s[1..]);
      SplitHeadIsPrefix(s[1..], "  ");
      var h := [s[0]] + t[0];
      assert NoDoubleSpace(h) by {
        if |t[0]| > 0 {
          assert t[0][0] == s[1];
          assert !(s[0] == ' ' && s[1] == ' ') by { assert s[..2] == [s[0], s[1]]; }
        }
        forall i | 1 <= i < |h| - 1 ensures !(h[i] == ' ' && h[i + 1] == ' ') {
          assert h[i] == t[0][i - 1] && h[i + 1] == t[0][i];
        }
      }
      assert Split(s, "  ") == [h] + t[1..];
    }
  }

  lemma {:induction false} SplitLinesNoBreak(s: string)
    ensures forall i :: 0 <= i < |SplitLines(s)| ==> NoBreak(SplitLines(s)[i])
  {
    SplitWherePieces(s, IsLineBreak);
  }

  /** A stripped piece is a slice of its source. */
  lemma {:induction false} StripIsSlice(s: string) returns (a: nat, b: nat)
    ensures a <= b <= |s| && PyStrip(s) == s[a..b]
  {
    var l := TrimLeft(s, IsPySpace);
    a := |s| - |l|;
    b := a + |TrimRight(l, IsPySpace)|;
  }

  /** What every chunk satisfies. */
  predicate Clean(c: string) {
    c != "" && !IsPySpace(c[0]) && !IsPySpace(c[|c| - 1]) && NoBreak(c) && NoDoubleSpace(c)
  }

  lemma {:induction false} StripClean(s: string)
    requires NoBreak(s) && NoDoubleSpace(s)
    ensures PyStrip(s) == "" || Clean(PyStrip(s))
  {
    var a, b := StripIsSlice(s);
    assert forall i :: 0 <= i < b - a ==> s[a..b][i] == s[a + i];
  }

  lemma {:induction false} PhrasesClean(line: string)
    requires NoBreak(line)
    ensures forall i :: 0 <= i < |Phrases(line)| ==> Phrases(line)[i] == "" || Clean(Phrases(line)[i])
  {
    var a, b := StripIsSlice(line);
    assert forall i :: 0 <= i < b - a ==> line[a..b][i] == line[a + i];
    SplitPiecesClean(PyStrip(line));
    forall i | 0 <= i < |Phrases(line)| ensures Phrases(line)[i] == "" || Clean(Phrases(line)[i]) {
      StripClean(Split(PyStrip(line), "  ")[i]);
    }
  }

  lemma {:induction false} ChunksClean(lines: seq<string>)
    requires forall i :: 0 <= i < |lines| ==> NoBreak(lines[i])
    ensures forall i :: 0 <= i < |Chunks(lines)| ==> Chunks(lines)[i] == "" || Clean(Chunks(lines)[i])
    decreases |lines|
  {
    if |lines| > 0 {
      PhrasesClean(lines[0]);
      ChunksClean(lines[1..]);
    }
  }

  lemma {:induction false} NonEmptyKeeps(cs: seq<string>)
    requires forall i :: 0 <= i < |cs| ==> cs[i] == "" || Clean(cs[i])
    ensures forall i :: 0 <= i < |NonEmpty(cs)| ==> Clean(NonEmpty(cs)[i])
    decreases |cs|
  {
    if |cs| > 0 {
      NonEmptyKeeps(cs[1..]);
    }
  }

  lemma {:induction false} TextChunksClean(text: string)
    ensures forall i :: 0 <= i < |TextChunks(text)| ==> Clean(TextChunks(text)[i])
  {
    SplitLinesNoBreak(text);
    ChunksClean(SplitLines(text));
    NonEmptyKeeps(Chunks(SplitLines(text)));
  }

  /** Every line of the extracted text is non-empty, has no surrounding
      whitespace and no two consecutive spaces. */
  lemma {:induction false} ExtractedLinesClean(text: string)
    requires ExtractText(text) != ""
    ensures forall i :: 0 <= i < |Split(ExtractText(text), "\n")| ==> Clean(Split(ExtractText(text), "\n")[i])
  {
    var cs := TextChunks(text);
    TextChunksClean(text);
    forall i | 0 <= i < |cs| ensures '\n' !in cs[i] {
      NoNewline(cs[i]);
    }
    SplitJoinChar(cs, '\n');
  }

  lemma {:induction false} NoNewline(s: string)
    requires Clean(s)
    ensures '\n' !in s
  {
  }

  // Whitespace erasure.

  /** The non-whitespace characters of the pieces, in order. */
  function EraseAll(ps: seq<string>): string {
    if |ps| == 0 then "" else Erase(ps[0], IsPySpace) + EraseAll(ps[1..])
  }

  lemma {:induction false} EraseAllAppend(a: seq<string>, b: seq<string>)
    ensures EraseAll(a + b) == EraseAll(a) + EraseAll(b)
    decreases |a|
  {
    if |a| > 0 {
      assert (a + b)[1..] == a[1..] + b;
      EraseAllAppend(a[1..], b);
    } else {
      assert a + b == b;
    }
  }

  lemma {:induction false} EraseSpaces(s: string)
    requires forall i :: 0 <= i < |s| ==> IsPySpace(s[i])
    ensures Erase(s, IsPySpace) == ""
    decreases |s|
  {
    if |s| > 0 {
      EraseSpaces(s[1..]);
    }
  }

  lemma {:induction false} EraseJoin(ps: seq<string>, sep: string)
    requires forall i :: 0 <= i < |sep| ==> IsPySpace(sep[i])
    ensures Erase(Join(ps, sep), IsPySpace) == EraseAll(ps)
    decreases |ps|
  {
    if |ps| > 1 {
      EraseJoin(ps[1..], sep);
      EraseAppend(ps[0] + sep, Join(ps[1..], sep), IsPySpace);
      EraseAppend(ps[0], sep, IsPySpace);
      EraseSpaces(sep);
    } else if |ps| == 1 {
      assert EraseAll(ps) == Erase(ps[0], IsPySpace) + EraseAll(ps[1..]);
    }
  }

  lemma {:induction false} EraseTrimLeft(s: string, ws: char -> bool)
    ensures Erase(TrimLeft(s, ws), ws) == Erase(s, ws)
    decreases |s|
  {
    if |s| > 0 && ws(s[0]) {
      EraseTrimLeft(s[1..], ws);
    }
  }

  lemma {:induction false} EraseTrimRight(s: string, ws: char -> bool)
    ensures Erase(TrimRight(s, ws), ws) == Erase(s, ws)
    decreases |s|
  {
    if |s| > 0 && ws(s[|s| - 1]) {
      var init := s[..|s| - 1];
      EraseTrimRight(init, ws);
      assert s == init + [s[|s| - 1]];
      EraseAppend(init, [s[|s| - 1]], ws);
      assert Erase([s[|s| - 1]], ws) == "" by {
        assert [s[|s| - 1]][1..] == [];
      }
    }
  }

  lemma {:induction false} EraseStrip(s: string)
    ensures Erase(PyStrip(s), IsPySpace) == Erase(s, IsPySpace)
  {
    EraseTrimLeft(s, IsPySpace);
    EraseTrimRight(TrimLeft(s, IsPySpace), IsPySpace);
  }

  lemma {:induction false} EraseStripAll(ps: seq<string>)
    ensures EraseAll(StripAll(ps)) == EraseAll(ps)
    decreases |ps|
  {
    if |ps| > 0 {
      EraseStrip(ps[0]);
      EraseStripAll(ps[1..]);
      assert StripAll(ps)[1..] == StripAll(ps[1..]);
    }
  }

  lemma {:induction false} ErasePhrases(line: string)
    ensures EraseAll(Phrases(line)) == Erase(line, IsPySpace)
  {
    var t := PyStrip(line);
    EraseStripAll(Split(t, "  "));
    EraseJoin(Split(t, "  "), "  ");
    JoinSplit(t, "  ");
    EraseStrip(line);
  }

  lemma {:induction false} EraseChunks(lines: seq<string>)
    ensures EraseAll(Chunks(lines)) == EraseAll(lines)
    decreases |lines|
  {
    if |lines| > 0 {
      EraseAllAppend(Phrases(lines[0]), Chunks(lines[1..]));
      ErasePhrases(lines[0]);
      EraseChunks(lines[1..]);
    }
  }

  lemma {:induction false} EraseNonEmpty(cs: seq<string>)
    ensures EraseAll(NonEmpty(cs)) == EraseAll(cs)
    decreases |cs|
  {
    if |cs| > 0 {
      EraseAllAppend(if cs[0] == "" then [] else [cs[0]], NonEmpty(cs[1..]));
      EraseNonEmpty(cs[1..]);
    }
  }

  lemma {:induction false} EraseSplitLines(s: string)
    ensures EraseAll(SplitLines(s)) == Erase(s, IsPySpace)
    decreases |s|
  {
    if |s| > 0 {
      EraseSplitLines(s[1..]);
      var t := SplitLines(s[1..]);
      if !IsLineBreak(s[0]) {
        EraseAppend([s[0]], t[0], IsPySpace);
        assert ([s[0]] + t[0])[1..] == t[0];
        assert ([[s[0]] + t[0]] + t[1..])[1..] == t[1..];
      } else {
        assert ([""] + t)[1..] == t;
      }
    }
  }

  /** Normalisation only removes and moves whitespace: deleting all whitespace
      from the input and from the output gives the same string. */
  lemma {:induction false} ExtractKeepsNonSpace(text: string)
    ensures Erase(ExtractText(text), IsPySpace) == Erase(text, IsPySpace)
  {
    EraseJoin(TextChunks(text), "\n");
    EraseNonEmpty(Chunks(SplitLines(text)));
    EraseChunks(SplitLines(text));
    EraseSplitLines(text);
  }

  // Idempotence.

  lemma {:induction false} SplitNoDoubleSpace(s: string)
    requires NoDoubleSpace(s)
    ensures Split(s, "  ") == [s]
    decreases |s|
  {
    if |s| >= 2 {
      assert s[..2] != "  " by { assert !(s[0] == ' ' && s[1] == ' '); }
      SplitNoDoubleSpace(s[1..]);
      assert s == [s[0]] + s[1..];
    }
  }

  lemma {:induction false} StripClean2(c: string)
    requires Clean(c)
    ensures PyStrip(c) == c
  {
  }

  lemma {:induction false} PhrasesOfClean(c: string)
    requires Clean(c)
    ensures Phrases(c) == [c]
  {
    StripClean2(c);
    SplitNoDoubleSpace(c);
  }

  lemma {:induction false} ChunksOfClean(cs: seq<string>)
    requires forall i :: 0 <= i < |cs| ==> Clean(cs[i])
    ensures Chunks(cs) == cs && NonEmpty(cs) == cs
  {
    ChunksOfCleanOnly(cs);
    NonEmptyOfClean(cs);
  }

  lemma {:induction false} ChunksOfCleanOnly(cs: seq<string>)
    requires forall i :: 0 <= i < |cs| ==> Clean(cs[i])
    ensures Chunks(cs) == cs
    decreases |cs|
  {
    if |cs| > 0 {
      calc {
        Chunks(cs);
        Phrases(cs[0]) + Chunks(cs[1..]);
        { PhrasesOfClean(cs[0]); ChunksOfCleanOnly(cs[1..]); }
        [cs[0]] + cs[1..];
        cs;
      }
    }
  }

  lemma {:induction false} NonEmptyOfClean(cs: seq<string>)
    requires forall i :: 0 <= i < |cs| ==> Clean(cs[i])
    ensures NonEmpty(cs) == cs
    decreases |cs|
  {
    if |cs| > 0 {
      assert cs[0] != "";
      calc {
        NonEmpty(cs);
        [cs[0]] + NonEmpty(cs[1..]);
        { NonEmptyOfClean(cs[1..]); }
        [cs[0]] + cs[1..];
        cs;
      }
    }
  }

  lemma ExtractEmpty()
    ensures ExtractText("") == ""
  {
    assert Split("", "  ") == [""];
    assert Phrases("") == [""];
    assert Chunks([""]) == [""];
  }

  lemma {:induction false} CleanNoBreak(cs: seq<string>)
    requires forall i :: 0 <= i < |cs| ==> Clean(cs[i])
    ensures forall i :: 0 <= i < |cs| ==> NoBreak(cs[i])
  {
  }

  /** Normalising already normalised text changes nothing. */
  lemma {:induction false} ExtractIdempotent(text: string)
    ensures ExtractText(ExtractText(text)) == ExtractText(text)
  {
    var cs := TextChunks(text);
    var out := Join(cs, "\n");
    assert ExtractText(text) == out;
    TextChunksClean(text);
    if |cs| == 0 {
      ExtractEmpty();
    } else {
      CleanNoBreak(cs);
      SplitWhereJoin(cs, '\n', IsLineBreak);
      ChunksOfClean(cs);
      calc {
        ExtractText(out);
        Join(NonEmpty(Chunks(SplitLines(out))), "\n");
        Join(NonEmpty(Chunks(cs)), "\n");
        out;
      }
    }
  }

  // ---------------------------------------------------------------------------
  // _extract_images, _extract_meta, crawl_wechat_article, crawl_multiple

  predicate Truthy(s: Option<string>) {
    s.Some? && s.value != ""
  }

  /** The `data-src` and `src` attributes of an `<img>`; `None` is absent. */
  datatype Img = Img(dataSrc: Option<string>, src: Option<string>)

  /** `img.get('data-src') or img.get('src')`, kept only when truthy. */
  function ImageUrl(img: Img): (r: Option<string>)
    ensures r.Some? <==> Truthy(img.dataSrc) || Truthy(img.src)
    ensures Truthy(img.dataSrc) ==> r == img.dataSrc
    ensures !Truthy(img.dataSrc) && Truthy(img.src) ==> r == img.src
  {
    if Truthy(img.dataSrc) then img.dataSrc else if Truthy(img.src) then img.src else None
  }

  /** The image URLs in document order. */
  function ImageUrls(imgs: seq<Img>): (r: seq<string>)
    ensures |r| <= |imgs|
    ensures forall i :: 0 <= i < |r| ==> r[i] != ""
  {
    if |imgs| == 0 then []
    else ImageUrls(imgs[..|imgs| - 1]) + (if ImageUrl(imgs[|imgs| - 1]).Some? then [ImageUrl(imgs[|imgs| - 1]).value] else [])
  }

  lemma {:induction false} ImageUrlsAppend(a: seq<Img>, b: seq<Img>)
    ensures ImageUrls(a + b) == ImageUrls(a) + ImageUrls(b)
    decreases |b|
  {
    if |b| == 0 {
      assert a + b == a;
    } else {
      assert (a + b)[..|a + b| - 1] == a + b[..|b| - 1];
      ImageUrlsAppend(a, b[..|b| - 1]);
    }
  }

  lemma {:induction false} ImageUrlsSingle(x: Img)
    ensures ImageUrls([x]) == if ImageUrl(x).Some? then [ImageUrl(x).value] else []
  {
    assert [x][..0] == [];
  }

  /** Images are kept in order: the URLs of a document are those of the
      images before `i`, then the URL of image `i` if it has one (its truthy
      `data-src`, else its truthy `src`), then those of the images after it. */
  lemma {:induction false} ImageOrder(imgs: seq<Img>, i: nat)
    requires i < |imgs|
    ensures ImageUrls(imgs) == ImageUrls(imgs[..i])
      + (if ImageUrl(imgs[i]).Some? then [ImageUrl(imgs[i]).value] else []) + ImageUrls(imgs[i + 1..])
  {
    var a, x, b := imgs[..i], [imgs[i]], imgs[i + 1..];
    calc {
      ImageUrls(imgs);
      { assert imgs == a + x + b; }
      ImageUrls(a + x + b);
      { ImageUrlsAppend(a + x, b); }
      ImageUrls(a + x) + ImageUrls(b);
      { ImageUrlsAppend(a, x); }
      ImageUrls(a) + ImageUrls(x) + ImageUrls(b);
      { ImageUrlsSingle(imgs[i]); }
      ImageUrls(a) + (if ImageUrl(imgs[i]).Some? then [ImageUrl(imgs[i]).value] else []) + ImageUrls(b);
    }
  }

  /** `_extract_images` */
  method ExtractImages(imgs: seq<Img>) returns (images: seq<string>)
    ensures images == ImageUrls(imgs)
  {
    images := [];
    for i := 0 to |imgs|
      invariant images == ImageUrls(imgs[..i])
    {
      assert imgs[..i + 1][..i] == imgs[..i];
      var src := if Truthy(imgs[i].dataSrc) then imgs[i].dataSrc else imgs[i].src;
      if Truthy(src) {
        images := images + [src.value];
      }
    }
    assert imgs[..|imgs|] == imgs;
  }

  /** The metadata of an article: the stripped text of the author and
      publish-time elements, with a key only for an element that exists. */
  function Meta(author: Option<string>, publishTime: Option<string>): (meta: map<string, string>)
    ensures "author" in meta <==> author.Some?
    ensures "publish_time" in meta <==> publishTime.Some?
    ensures author.Some? ==> meta["author"] == PyStrip(author.value)
    ensures publishTime.Some? ==> meta["publish_time"] == PyStrip(publishTime.value)
    ensures forall k :: k in meta ==> k == "author" || k == "publish_time"
  {
    var m := if author.Some? then map["author" := PyStrip(author.value)] else map[];
    if publishTime.Some? then m["publish_time" := PyStrip(publishTime.value)] else m
  }

  /** `_extract_meta` */
  method ExtractMeta(author: Option<string>, publishTime: Option<string>) returns (meta: map<string, string>)
    ensures meta == Meta(author, publishTime)
  {
    meta := map[];
    if author.Some? {
      meta := meta["author" := PyStrip(author.value)];
    }
    if publishTime.Some? {
      meta := meta["publish_time" := PyStrip(publishTime.value)];
    }
  }

  /** The container `<div class="rich_media_content">`. */
  datatype Content = Content(text: string, images: seq<Img>)

  /** What the crawler finds in a fetched page. */
  datatype Page = Page(title: Option<string>, content: Option<Content>, author: Option<string>, publishTime: Option<string>)

  /** The result of `session.get(url)`; `FetchFailed` is any exception. */
  datatype Fetch = Fetched(page: Page) | FetchFailed

  datatype CrawledArticle = CrawledArticle(title: string, content: string, images: seq<string>, sourceUrl: string,
                                           meta: map<string, string>)

  /** The article crawled from one fetch: nothing on a failed fetch or a page
      without the content container, an empty title when the heading is
      missing, and otherwise the normalised text, the image URLs and the
      metadata of the page. */
  function CrawledPage(url: string, fetch: Fetch): (r: Option<CrawledArticle>)
    ensures r.None? <==> fetch.FetchFailed? || fetch.page.content.None?
    ensures r.Some? ==>
      var p := fetch.page;
      && r.value.title == (if p.title.Some? then PyStrip(p.title.value) else "")
      && r.value.content == ExtractText(p.content.value.text)
      && r.value.images == ImageUrls(p.content.value.images)
      && r.value.sourceUrl == url
      && r.value.meta == Meta(p.author, p.publishTime)
  {
    if fetch.FetchFailed? || fetch.page.content.None? then None
    else
      var p := fetch.page;
      Some(CrawledArticle(if p.title.Some? then PyStrip(p.title.value) else "", ExtractText(p.content.value.text),
                          ImageUrls(p.content.value.images), url, Meta(p.author, p.publishTime)))
  }

  /** `crawl_wechat_article` */
  method CrawlWeChatArticle(url: string, fetch: Fetch) returns (article: Option<CrawledArticle>)
    ensures article == CrawledPage(url, fetch)
  {
    if fetch.FetchFailed? {
      return None;
    }
    var p := fetch.page;
    var title := if p.title.Some? then PyStrip(p.title.value) else "";
    if p.content.None? {
      return None;
    }
    var images := ExtractImages(p.content.value.images);
    var meta := ExtractMeta(p.author, p.publishTime);
    article := Some(CrawledArticle(title, ExtractText(p.content.value.text), images, url, meta));
  }

  /** The successfully crawled articles, in the order of their URLs. */
  function Crawled(urls: seq<string>, fetch: string -> Fetch): (r: seq<CrawledArticle>)
    ensures |r| <= |urls|
  {
    if |urls| == 0 then []
    else
      var last := urls[|urls| - 1];
      Crawled(urls[..|urls| - 1], fetch) + (if CrawledPage(last, fetch(last)).Some? then [CrawledPage(last, fetch(last)).value] else [])
  }

  /** `crawl_multiple`: the articles that could be crawled, in input order. */
  method CrawlMultiple(urls: seq<string>, fetch: string -> Fetch) returns (articles: seq<CrawledArticle>)
    ensures articles == Crawled(urls, fetch)
  {
    articles := [];
    for i := 0 to |urls|
      invariant articles == Crawled(urls[..i], fetch)
    {
      assert urls[..i + 1][..i] == urls[..i];
      var article := CrawlWeChatArticle(urls[i], fetch(urls[i]));
      if article.Some? {
        articles := articles + [article.value];
      }
    }
    assert urls[..|urls|] == urls;
  }

  /** Every crawled article comes from one of the URLs, and each URL yields at most one. */
  lemma {:induction false} CrawledFromUrls(urls: seq<string>, fetch: string -> Fetch)
    ensures forall i :: 0 <= i < |Crawled(urls, fetch)| ==> Crawled(urls, fetch)[i].sourceUrl in urls
    decreases |urls|
  {
    if |urls| > 0 {
      CrawledFromUrls(urls[..|urls| - 1], fetch);
    }
  }
}
