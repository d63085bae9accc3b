/** backend/services/image_service.py: the cover-image prompt and backend
    order, the collage layouts, image extraction from article HTML and the
    optimised-image path. Images are reduced to their dimensions; the remote
    generators, downloads and file writes are parameters. */
module ImageService {

  import opened Options
  import opened Strings
  import Crawler

  // ---------------------------------------------------------------------------
  // _create_image_prompt

  const StylePrompts: map<string, string> := map[
    "modern" := "modern, minimalist, clean design, professional",
    "tech" := "futuristic, technology, digital art, cyber",
    "nature" := "natural, organic, environmental, peaceful",
    "business" := "corporate, professional, elegant, sophisticated"]

  const DefaultStyle := "professional, high quality"
  const PromptOpening := "Create a cover image for article titled '"
  const PromptSuffix := ", high resolution, 16:9 aspect ratio"

  /** `style_prompts.get(style, "professional, high quality")` */
  function StyleAddon(style: string): (r: string)
    ensures style in StylePrompts ==> r == StylePrompts[style]
    ensures style !in StylePrompts ==> r == DefaultStyle
  {
    if style in StylePrompts then StylePrompts[style] else DefaultStyle
  }

  /** `_create_image_prompt` */
  function CreateImagePrompt(title: string, style: string): (r: string)
  {
    PromptOpening + title + "', " + StyleAddon(style) + PromptSuffix
  }

  /** The prompt quotes the title after the fixed opening, then names the
      style (or the default), and ends with the resolution suffix; so the
      title and the style addon can be read back from it. */
  lemma {:induction false} PromptLayout(title: string, style: string)
    ensures var r := CreateImagePrompt(title, style);
      var t := |PromptOpening| + |title|;
      && StartsWith(r, PromptOpening)
      && r[|PromptOpening|..t] == title
      && r[t..t + 3] == "', "
      && r[t + 3..|r| - |PromptSuffix|] == StyleAddon(style)
      && EndsWith(r, PromptSuffix)
  {
    var r := CreateImagePrompt(title, style);
    var t := |PromptOpening| + |title|;
    var a := StyleAddon(style);
    assert r == PromptOpening + title + "', " + a + PromptSuffix;
    assert r[..|PromptOpening|] == PromptOpening;
    assert r[|PromptOpening|..t] == title;
    assert r[t..t + 3] == "', ";
    assert r[t + 3..|r| - |PromptSuffix|] == a;
    assert r[|r| - |PromptSuffix|..] == PromptSuffix;
  }

  /** Two prompts for the same style are equal only for the same title. */
  lemma {:induction false} PromptDeterminesTitle(t1: string, t2: string, style: string)
    requires CreateImagePrompt(t1, style) == CreateImagePrompt(t2, style)
    ensures t1 == t2
  {
    var r := CreateImagePrompt(t1, style);
    assert |t1| == |t2|;
    PromptLayout(t1, style);
    PromptLayout(t2, style);
  }

  // ---------------------------------------------------------------------------
  // generate_cover_image

  /** `Config.DALLE_API_KEY` and `Config.STABLE_DIFFUSION_API`. */
  datatype ImageConfig = ImageConfig(dalleApiKey: Option<string>, stableDiffusionApi: Option<string>)

  datatype Backend = Dalle | StableDiffusion | Stock

  /** What each remote step yields: the saved file path, or `None` when the
      call fails or answers with another status. The generators receive the
      prompt; the stock search receives its query. */
  datatype Outcomes = Outcomes(
    dalle: string -> Option<string>,
    stableDiffusion: string -> Option<string>,
    stock: string -> Option<string>,
    defaultImage: Option<string>)

  function CoverBackend(cfg: ImageConfig): (b: Backend)
    ensures b == Dalle <==> Crawler.Truthy(cfg.dalleApiKey)
    ensures b == StableDiffusion <==> !Crawler.Truthy(cfg.dalleApiKey) && Crawler.Truthy(cfg.stableDiffusionApi)
  {
    if Crawler.Truthy(cfg.dalleApiKey) then Dalle
    else if Crawler.Truthy(cfg.stableDiffusionApi) then StableDiffusion
    else Stock
  }

  /** `_get_stock_image`: the search query is the first 50 characters of the
      title; when the search yields nothing, `_create_default_image`. */
  function StockImage(title: string, out: Outcomes): (r: Option<string>)
    ensures out.stock(SliceTo(title, 50)).Some? ==> r == out.stock(SliceTo(title, 50))
    ensures out.stock(SliceTo(title, 50)).None? ==> r == out.defaultImage
  {
    var found := out.stock(SliceTo(title, 50));
    if found.Some? then found else out.defaultImage
  }

  /** `generate_cover_image`: exactly one backend is asked, the first one
      configured in the order DALL-E, Stable Diffusion, stock images. */
  function GenerateCoverImage(cfg: ImageConfig, title: string, style: string, out: Outcomes): (r: Option<string>)
    ensures CoverBackend(cfg) == Dalle ==> r == out.dalle(CreateImagePrompt(title, style))
    ensures CoverBackend(cfg) == StableDiffusion ==> r == out.stableDiffusion(CreateImagePrompt(title, style))
    ensures CoverBackend(cfg) == Stock ==> r == StockImage(title, out)
  {
    var prompt := CreateImagePrompt(title, style);
    match CoverBackend(cfg)
    case Dalle => out.dalle(prompt)
    case StableDiffusion => out.stableDiffusion(prompt)
    case Stock => StockImage(title, out)
  }

  /** The backends not chosen are never consulted: outcomes that agree on the
      chosen backend give the same cover. */
  lemma {:induction false} CoverUsesOnlyChosenBackend(cfg: ImageConfig, title: string, style: string, o1: Outcomes, o2: Outcomes)
    requires CoverBackend(cfg) == Dalle ==> o1.dalle == o2.dalle
    requires CoverBackend(cfg) == StableDiffusion ==> o1.stableDiffusion == o2.stableDiffusion
    requires CoverBackend(cfg) == Stock ==> o1.stock == o2.stock && o1.defaultImage == o2.defaultImage
    ensures GenerateCoverImage(cfg, title, style, o1) == GenerateCoverImage(cfg, title, style, o2)
  {
  }

  // ---------------------------------------------------------------------------
  // extract_images_from_article

  /** `img.get('src') or img.get('data-src')`, kept when truthy. */
  function ArticleImageUrl(img: Crawler.Img): (r: Option<string>)
    ensures r.Some? <==> Crawler.Truthy(img.src) || Crawler.Truthy(img.dataSrc)
    ensures Crawler.Truthy(img.src) ==> r == img.src
    ensures !Crawler.Truthy(img.src) && Crawler.Truthy(img.dataSrc) ==> r == img.dataSrc
  {
    if Crawler.Truthy(img.src) then img.src else if Crawler.Truthy(img.dataSrc) then img.dataSrc else None
  }

  function ArticleImageUrls(imgs: seq<Crawler.Img>): (r: seq<string>)
    ensures |r| <= |imgs|
  {
    if |imgs| == 0 then []
    else
      var u := ArticleImageUrl(imgs[|imgs| - 1]);
      ArticleImageUrls(imgs[..|imgs| - 1]) + (if u.Some? then [u.value] else [])
  }

  /** `extract_images_from_article`, over the `<img>` elements in document order. */
  method ExtractImagesFromArticle(imgs: seq<Crawler.Img>) returns (images: seq<string>)
    ensures images == ArticleImageUrls(imgs)
  {
    images := [];
    for i := 0 to |imgs|
      invariant images == ArticleImageUrls(imgs[..i])
    {
      assert imgs[..i + 1][..i] == imgs[..i];
      var src := ArticleImageUrl(imgs[i]);
      if src.Some? {
        images := images + [src.value];
      }
    }
    assert imgs[..|imgs|] == imgs;
  }

  lemma {:induction false} ArticleImageUrlsAppend(a: seq<Crawler.Img>, b: seq<Crawler.Img>)
    ensures ArticleImageUrls(a + b) == ArticleImageUrls(a) + ArticleImageUrls(b)
    decreases |b|
  {
    if |b| == 0 {
      assert a + b == a;
    } else {
      var b' := b[..|b| - 1];
      assert (a + b)[..|a + b| - 1] == a + b';
      ArticleImageUrlsAppend(a, b');
    }
  }

  /** The urls keep document order, one per element with a truthy `src` or
      `data-src`, `src` preferred. */
  lemma {:induction false} ArticleImageOrder(imgs: seq<Crawler.Img>, i: nat)
    requires i < |imgs| && ArticleImageUrl(imgs[i]).Some?
    ensures var before := ArticleImageUrls(imgs[..i]);
      |before| < |ArticleImageUrls(imgs)| && ArticleImageUrls(imgs)[|before|] == ArticleImageUrl(imgs[i]).value
  {
    var a, x, b := imgs[..i], imgs[i..i + 1], imgs[i + 1..];
    assert imgs == a + x + b;
    ArticleImageUrlsAppend(a + x, b);
    ArticleImageUrlsAppend(a, x);
    assert x[..0] == [];
  }

  /** When an element carries both attributes with different values, the
      crawler and this service pick different urls. */
  lemma {:induction false} PreferenceDiffersFromCrawler(img: Crawler.Img)
    requires Crawler.Truthy(img.src) && Crawler.Truthy(img.dataSrc) && img.src != img.dataSrc
    ensures ArticleImageUrl(img) == img.src && Crawler.ImageUrl(img) == img.dataSrc
    ensures ArticleImageUrl(img) != Crawler.ImageUrl(img)
  {
  }

  // ---------------------------------------------------------------------------
  // optimize_image

  const OptimizedMark := "_optimized."

  /** `image_path.replace('.', '_optimized.')` */
  function OptimizedPath(path: string): (r: string)
    ensures |r| >= |path|
    ensures '.' !in path ==> r == path
  {
    if |path| == 0 then ""
    else if path[0] == '.' then OptimizedMark + OptimizedPath(path[1..])
    else [path[0]] + OptimizedPath(path[1..])
  }

  /** `OptimizedPath` is Python's `replace` for the one-character pattern. */
  lemma {:induction false} OptimizedPathIsReplace(path: string)
    ensures OptimizedPath(path) == Replace(path, ".", OptimizedMark)
    decreases |path|
  {
    if |path| > 0 {
      assert path[..1] == [path[0]];
      OptimizedPathIsReplace(path[1..]);
    }
  }

  /** Every dot of an optimised path closes an inserted mark. */
  lemma {:induction false} DotsClosesMark(path: string)
    ensures forall i :: 0 <= i < |OptimizedPath(path)| && OptimizedPath(path)[i] == '.' ==>
      i >= 10 && OptimizedPath(path)[i - 10..i + 1] == OptimizedMark
    decreases |path|
  {
    if |path| > 0 {
      DotsClosesMark(path[1..]);
      var rest := OptimizedPath(path[1..]);
      var r := OptimizedPath(path);
      var k := if path[0] == '.' then 11 else 1;
      assert r[k..] == rest;
      forall i | 0 <= i < |r| && r[i] == '.'
        ensures i >= 10 && r[i - 10..i + 1] == OptimizedMark
      {
        if i >= k {
          assert rest[i - k] == '.';
          assert r[i - 10..i + 1] == rest[i - k - 10..i - k + 1];
        } else {
          assert path[0] == '.' && i == 10;
        }
      }
    }
  }

  /** `OptimizedPath` loses nothing: turning each mark back into a dot gives
      the original path. */
  lemma {:induction false} OptimizedPathRestores(path: string)
    ensures Replace(OptimizedPath(path), OptimizedMark, ".") == path
    decreases |path|
  {
    var r := OptimizedPath(path);
    if |path| == 0 {
    } else if path[0] == '.' {
      assert r[..11] == OptimizedMark && r[11..] == OptimizedPath(path[1..]);
      OptimizedPathRestores(path[1..]);
    } else {
      var rest := OptimizedPath(path[1..]);
      assert r == [path[0]] + rest;
      OptimizedPathRestores(path[1..]);
      if |r| >= 11 {
        DotsClosesMark(path[1..]);
        assert rest[9] != '.';
        assert r[10] != '.';
        assert r[..11] != OptimizedMark;
        assert r[1..] == rest;
      } else {
        DotlessPath(path);
      }
    }
  }

  /** A short optimised path had no dot to rewrite. */
  lemma {:induction false} DotlessPath(path: string)
    requires |OptimizedPath(path)| < 11
    ensures OptimizedPath(path) == path
    ensures Replace(path, OptimizedMark, ".") == path
    decreases |path|
  {
    if |path| > 0 {
      DotlessPath(path[1..]);
    }
  }

  /** `optimize_image`: the rewritten path once the image is saved, the input
      path when opening or saving fails. */
  function OptimizeImage(path: string, saved: bool): (r: string)
    ensures saved ==> r == Replace(path, ".", OptimizedMark)
    ensures !saved ==> r == path
  {
    OptimizedPathIsReplace(path);
    if saved then OptimizedPath(path) else path
  }

  // ---------------------------------------------------------------------------
  // Collages

  /** An opened image, by its size in pixels. */
  datatype Picture = Picture(width: nat, height: nat)

  /** Where picture `source` (an index into the opened images) is pasted, and
      its size after resizing. */
  datatype Cell = Cell(source: nat, x: int, y: int, width: int, height: int)

  datatype Collage = Collage(width: int, height: int, cells: seq<Cell>)

  const CellWidth := 400
  const CellHeight := 300
  const MaxGridImages := 4
  const MaxStripImages := 5
  const StripHeight := 300
  const StripWidth := 600

  /** The pictures that open, in order; `open` stands for the download or
      `Image.open`, `None` when it raises. */
  function Opened(paths: seq<string>, open: string -> Option<Picture>): (r: seq<Picture>)
    ensures |r| <= |paths|
  {
    if |paths| == 0 then []
    else
      var p := open(paths[|paths| - 1]);
      Opened(paths[..|paths| - 1], open) + (if p.Some? then [p.value] else [])
  }

  method OpenPictures(paths: seq<string>, open: string -> Option<Picture>) returns (pictures: seq<Picture>)
    ensures pictures == Opened(paths, open)
  {
    pictures := [];
    for i := 0 to |paths|
      invariant pictures == Opened(paths[..i], open)
    {
      assert paths[..i + 1][..i] == paths[..i];
      var p := open(paths[i]);
      if p.Some? {
        pictures := pictures + [p.value];
      }
    }
    assert paths[..|paths|] == paths;
  }

  /** The grid of `_create_grid_collage` for `n` pictures: (columns, rows). */
  function GridShape(n: nat): (shape: (int, int))
    ensures n == 1 ==> shape == (1, 1)
    ensures n == 2 ==> shape == (2, 1)
    ensures 3 <= n <= 4 ==> shape == (2, 2)
    ensures shape.0 >= 1 && shape.1 >= 1
  {
    if n == 1 then (1, 1) else if n <= 2 then (2, 1) else if n <= 4 then (2, 2) else (3, 2)
  }

  /** Picture `i` goes to column `i % cols` of row `i / cols`. */
  function GridCell(i: nat, cols: int): Cell
    requires cols >= 1
  {
    Cell(i, (i % cols) * CellWidth, (i / cols) * CellHeight, CellWidth, CellHeight)
  }

  function GridCells(n: nat, cols: int): (cells: seq<Cell>)
    requires cols >= 1
    ensures |cells| == n && forall i :: 0 <= i < n ==> cells[i] == GridCell(i, cols)
  {
    seq(n, (i: int) requires 0 <= i => GridCell(i, cols))
  }

  /** The layout `_create_grid_collage` pastes for the opened pictures. */
  function GridCollage(pictures: seq<Picture>): Option<Collage>
  {
    if |pictures| == 0 then None
    else
      var shape := GridShape(|pictures|);
      Some(Collage(shape.0 * CellWidth, shape.1 * CellHeight, GridCells(|pictures|, shape.0)))
  }

  predicate Inside(c: Cell, width: int, height: int) {
    0 <= c.x && c.x + c.width <= width && 0 <= c.y && c.y + c.height <= height
  }

  predicate Apart(a: Cell, b: Cell) {
    a.x + a.width <= b.x || b.x + b.width <= a.x || a.y + a.height <= b.y || b.y + b.height <= a.y
  }

  /** The grid of up to four pictures: the shape by count, every cell inside
      the canvas and no two cells overlapping. */
  lemma {:induction false} GridCollageLayout(pictures: seq<Picture>)
    requires 1 <= |pictures| <= MaxGridImages
    ensures var c := GridCollage(pictures).value;
      && (c.width, c.height) == (GridShape(|pictures|).0 * CellWidth, GridShape(|pictures|).1 * CellHeight)
      && |c.cells| == |pictures|
      && (forall i :: 0 <= i < |c.cells| ==> c.cells[i].source == i && Inside(c.cells[i], c.width, c.height))
      && (forall i, j :: 0 <= i < j < |c.cells| ==> Apart(c.cells[i], c.cells[j]))
  {
    var n := |pictures|;
    var cols := GridShape(n).0;
    var c := GridCollage(pictures).value;
    forall i | 0 <= i < n
      ensures Inside(c.cells[i], c.width, c.height)
    {
      GridPosition(i, cols);
    }
    forall i, j | 0 <= i < j < n
      ensures Apart(c.cells[i], c.cells[j])
    {
      GridPosition(i, cols);
      GridPosition(j, cols);
    }
  }

  /** Row and column of each of the first four cells, for one or two columns. */
  lemma {:induction false} GridPosition(i: nat, cols: int)
    requires i < 4 && 1 <= cols <= 2 && (cols == 1 ==> i == 0)
    ensures cols == 1 ==> i % cols == 0 && i / cols == 0
    ensures cols == 2 ==> i % cols == (if i == 0 || i == 2 then 0 else 1) && i / cols == (if i < 2 then 0 else 1)
  {
  }

  /** `_create_grid_collage`: at most four images are opened; the opened ones
      are resized in place to 400 by 300 and pasted cell by cell. */
  method CreateGridCollage(paths: seq<string>, open: string -> Option<Picture>) returns (r: Option<Collage>)
    ensures r == GridCollage(Opened(SliceTo(paths, MaxGridImages), open))
    ensures r.Some? ==> 1 <= |r.value.cells| <= MaxGridImages
  {
    if |paths| == 0 {
      return None;
    }
    var pictures := OpenPictures(SliceTo(paths, MaxGridImages), open);
    if |pictures| == 0 {
      return None;
    }
    var n := |pictures|;
    var shape := GridShape(n);
    var cols, rows := shape.0, shape.1;
    var resized := new Picture[n](i requires 0 <= i < n => pictures[i]);
    for i := 0 to n
      invariant forall j :: 0 <= j < i ==> resized[j] == Picture(CellWidth, CellHeight)
    {
      resized[i] := Picture(CellWidth, CellHeight);
    }
    var cells: seq<Cell> := [];
    for i := 0 to n
      invariant |cells| == i && forall j :: 0 <= j < i ==> cells[j] == GridCell(j, cols)
    {
      var row := i / cols;
      var col := i % cols;
      cells := cells + [Cell(i, col * CellWidth, row * CellHeight, resized[i].width, resized[i].height)];
    }
    assert cells == GridCells(n, cols);
    r := Some(Collage(cols * CellWidth, rows * CellHeight, cells));
  }

  datatype Axis = Horizontal | Vertical

  /** A picture scaled to the strip's fixed height (horizontal) or width
      (vertical), rounding the other side down; `None` when the side divided
      by is zero. */
  function Scaled(p: Picture, axis: Axis): Option<Picture>
  {
    if axis == Horizontal then
      if p.height == 0 then None else Some(Picture(p.width * StripHeight / p.height, StripHeight))
    else
      if p.width == 0 then None else Some(Picture(StripWidth, p.height * StripWidth / p.width))
  }

  /** The side that varies along the strip. */
  function Along(p: Picture, axis: Axis): nat {
    if axis == Horizontal then p.width else p.height
  }

  /** Sum of the varying sides: the offset of the next picture. */
  function Extent(ps: seq<Picture>, axis: Axis): nat {
    if |ps| == 0 then 0 else Extent(ps[..|ps| - 1], axis) + Along(ps[|ps| - 1], axis)
  }

  predicate AllScale(ps: seq<Picture>, axis: Axis) {
    forall i :: 0 <= i < |ps| ==> Scaled(ps[i], axis).Some?
  }

  function ScaledAll(ps: seq<Picture>, axis: Axis): (r: seq<Picture>)
    requires AllScale(ps, axis)
    ensures |r| == |ps| && forall i :: 0 <= i < |ps| ==> r[i] == Scaled(ps[i], axis).value
  {
    seq(|ps|, i requires 0 <= i < |ps| => Scaled(ps[i], axis).value)
  }

  /** Picture `i` of a strip starts where the pictures before it end. */
  function StripCell(ps: seq<Picture>, i: nat, axis: Axis): Cell
    requires i < |ps|
  {
    var offset := Extent(ps[..i], axis);
    if axis == Horizontal then Cell(i, offset, 0, ps[i].width, ps[i].height)
    else Cell(i, 0, offset, ps[i].width, ps[i].height)
  }

  function StripCells(ps: seq<Picture>, axis: Axis): (cells: seq<Cell>)
    ensures |cells| == |ps| && forall i :: 0 <= i < |ps| ==> cells[i] == StripCell(ps, i, axis)
  {
    seq(|ps|, i requires 0 <= i < |ps| => StripCell(ps, i, axis))
  }

  /** The canvas of a strip whose varying side adds up to `total`. */
  function StripCanvas(total: nat, axis: Axis): (int, int) {
    if axis == Horizontal then (total, StripHeight) else (StripWidth, total)
  }

  /** The layout of `_create_horizontal_collage` / `_create_vertical_collage`
      for the opened pictures: `None` for none, or when a division by zero
      aborts the resize loop. */
  function StripCollage(pictures: seq<Picture>, axis: Axis): Option<Collage>
  {
    if |pictures| == 0 || !AllScale(pictures, axis) then None
    else
      var ps := ScaledAll(pictures, axis);
      var canvas := StripCanvas(Extent(ps, axis), axis);
      Some(Collage(canvas.0, canvas.1, StripCells(ps, axis)))
  }

  lemma {:induction false} ExtentPrefix(ps: seq<Picture>, i: nat, axis: Axis)
    requires i < |ps|
    ensures Extent(ps[..i], axis) + Along(ps[i], axis) <= Extent(ps, axis)
    decreases |ps|
  {
    assert ps[..|ps|][..i + 1][..i] == ps[..i];
    if i + 1 < |ps| {
      assert ps[..|ps| - 1][..i] == ps[..i];
      ExtentPrefix(ps[..|ps| - 1], i, axis);
    } else {
      assert ps[..|ps| - 1] == ps[..i];
    }
  }

  /** Every picture scaled for a strip has the strip's fixed side. */
  lemma {:induction false} ScaledFixedSide(p: Picture, axis: Axis)
    requires Scaled(p, axis).Some?
    ensures axis == Horizontal ==> Scaled(p, axis).value.height == StripHeight
    ensures axis == Vertical ==> Scaled(p, axis).value.width == StripWidth
  {
  }

  /** A strip lays its pictures end to end inside its canvas. */
  lemma {:induction false} StripCellsInside(ps: seq<Picture>, axis: Axis)
    requires forall i :: 0 <= i < |ps| ==> (if axis == Horizontal then ps[i].height == StripHeight else ps[i].width == StripWidth)
    ensures var canvas := StripCanvas(Extent(ps, axis), axis);
      forall i :: 0 <= i < |ps| ==> StripCell(ps, i, axis).source == i && Inside(StripCell(ps, i, axis), canvas.0, canvas.1)
  {
    forall i | 0 <= i < |ps|
      ensures Extent(ps[..i], axis) + Along(ps[i], axis) <= Extent(ps, axis)
    {
      ExtentPrefix(ps, i, axis);
    }
  }

  /** Each picture of a strip starts where the previous one ends. */
  lemma {:induction false} StripCellsAbut(ps: seq<Picture>, axis: Axis, i: nat)
    requires 0 < i < |ps|
    ensures var a, b := StripCell(ps, i - 1, axis), StripCell(ps, i, axis);
      if axis == Horizontal then b.x == a.x + a.width && b.y == a.y == 0
      else b.y == a.y + a.height && b.x == a.x == 0
  {
    assert ps[..i][..i - 1] == ps[..i - 1];
  }

  /** The strip collage of the opened pictures: one cell per picture, each
      with the strip's fixed side, all inside the canvas, end to end. */
  lemma {:induction false} StripCollageLayout(pictures: seq<Picture>, axis: Axis)
    requires StripCollage(pictures, axis).Some?
    ensures var c := StripCollage(pictures, axis).value;
      && |c.cells| == |pictures|
      && (forall i :: 0 <= i < |c.cells| ==> c.cells[i].source == i && Inside(c.cells[i], c.width, c.height))
      && (forall i :: 0 <= i < |c.cells| ==> if axis == Horizontal then c.cells[i].height == StripHeight else c.cells[i].width == StripWidth)
  {
    var ps := ScaledAll(pictures, axis);
    forall i | 0 <= i < |ps|
      ensures if axis == Horizontal then ps[i].height == StripHeight else ps[i].width == StripWidth
    {
      ScaledFixedSide(pictures[i], axis);
    }
    StripCellsInside(ps, axis);
  }

  /** The resize loop of the strip collages: each picture is replaced in place
      by its scaled copy while the varying sides are summed; a zero side
      raises, which stops the loop. */
  method ResizeForStrip(pictures: array<Picture>, axis: Axis) returns (ok: bool, total: nat)
    modifies pictures
    ensures ok <==> AllScale(old(pictures[..]), axis)
    ensures ok ==> pictures[..] == ScaledAll(old(pictures[..]), axis) && total == Extent(pictures[..], axis)
  {
    ghost var original := pictures[..];
    total := 0;
    for i := 0 to pictures.Length
      invariant AllScale(original[..i], axis)
      invariant forall j :: 0 <= j < i ==> pictures[j] == Scaled(original[j], axis).value
      invariant forall j :: i <= j < pictures.Length ==> pictures[j] == original[j]
      invariant total == Extent(pictures[..i], axis)
    {
      var s := Scaled(pictures[i], axis);
      if s.None? {
        assert !Scaled(original[i], axis).Some?;
        return false, total;
      }
      ghost var before := pictures[..i];
      pictures[i] := s.value;
      assert pictures[..i + 1] == before + [s.value];
      total := total + Along(s.value, axis);
    }
    assert original[..pictures.Length] == original;
    assert pictures[..] == pictures[..pictures.Length];
    ok := true;
  }

  /** The paste loop of the strip collages. */
  method PlaceStrip(ps: seq<Picture>, axis: Axis) returns (cells: seq<Cell>)
    ensures cells == StripCells(ps, axis)
  {
    cells := [];
    var offset := 0;
    for i := 0 to |ps|
      invariant |cells| == i && forall j :: 0 <= j < i ==> cells[j] == StripCell(ps, j, axis)
      invariant offset == Extent(ps[..i], axis)
    {
      assert ps[..i + 1][..i] == ps[..i];
      if axis == Horizontal {
        cells := cells + [Cell(i, offset, 0, ps[i].width, ps[i].height)];
      } else {
        cells := cells + [Cell(i, 0, offset, ps[i].width, ps[i].height)];
      }
      offset := offset + Along(ps[i], axis);
    }
  }

  /** `_create_horizontal_collage` and `_create_vertical_collage`: at most
      five images are opened, resized in place to the strip's fixed side and
      pasted one after another. */
  method CreateStripCollage(paths: seq<string>, open: string -> Option<Picture>, axis: Axis) returns (r: Option<Collage>)
    ensures r == StripCollage(Opened(SliceTo(paths, MaxStripImages), open), axis)
  {
    if |paths| == 0 {
      return None;
    }
    var pictures := OpenPictures(SliceTo(paths, MaxStripImages), open);
    if |pictures| == 0 {
      return None;
    }
    var resized := new Picture[|pictures|](i requires 0 <= i < |pictures| => pictures[i]);
    assert resized[..] == pictures;
    var ok, total := ResizeForStrip(resized, axis);
    if !ok {
      return None;
    }
    var cells := PlaceStrip(resized[..], axis);
    var canvas := StripCanvas(total, axis);
    r := Some(Collage(canvas.0, canvas.1, cells));
  }

  /** `create_image_collage`: `"grid"`, `"horizontal"`, and any other layout
      name gives the vertical strip. */
  method CreateImageCollage(paths: seq<string>, layout: string, open: string -> Option<Picture>) returns (r: Option<Collage>)
    ensures layout == "grid" ==> r == GridCollage(Opened(SliceTo(paths, MaxGridImages), open))
    ensures layout == "horizontal" ==> r == StripCollage(Opened(SliceTo(paths, MaxStripImages), open), Horizontal)
    ensures layout != "grid" && layout != "horizontal" ==> r == StripCollage(Opened(SliceTo(paths, MaxStripImages), open), Vertical)
  {
    if layout == "grid" {
      r := CreateGridCollage(paths, open);
    } else if layout == "horizontal" {
      r := CreateStripCollage(paths, open, Horizontal);
    } else {
      r := CreateStripCollage(paths, open, Vertical);
    }
  }
}
