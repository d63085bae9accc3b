/** The database rows of backend/models.py and `Article.to_dict`. */
module Models {

  import opened Options
  import opened Strings

  const DefaultArticleStatus := "draft"
  const DefaultScheduleStatus := "pending"
  /** `to_dict` keeps this many characters of a longer content, then appends `Ellipsis`. */
  const PreviewLength: nat := 200
  const Ellipsis := "..."

  /** A naive `datetime` (no time zone); `Valid` is the range Python enforces. */
  datatype DateTime = DateTime(year: nat, month: nat, day: nat, hour: nat, minute: nat, second: nat, microsecond: nat)
  {
    predicate Valid() {
      1 <= year <= 9999 && 1 <= month <= 12 && 1 <= day <= DaysInMonth(year, month)
      && 0 <= hour < 24 && 0 <= minute < 60 && 0 <= second < 60 && 0 <= microsecond < 1000000
    }

    /** `datetime.date()` */
    function Date(): (int, int, int) { (year, month, day) }
  }

  predicate IsLeapYear(y: int) {
    y % 4 == 0 && (y % 100 != 0 || y % 400 == 0)
  }

  function DaysInMonth(y: int, m: int): int {
    if m == 2 then (if IsLeapYear(y) then 29 else 28)
    else if m == 4 || m == 6 || m == 9 || m == 11 then 30
    else 31
  }

  /** Chronological order of date-times, the `<=` of Python `datetime`. */
  predicate LessEq(a: DateTime, b: DateTime) {
    if a.year != b.year then a.year < b.year
    else if a.month != b.month then a.month < b.month
    else if a.day != b.day then a.day < b.day
    else if a.hour != b.hour then a.hour < b.hour
    else if a.minute != b.minute then a.minute < b.minute
    else if a.second != b.second then a.second < b.second
    else a.microsecond <= b.microsecond
  }

  /** The last `width` decimal digits of `n`, zero-padded on the left. */
  function Digits(n: nat, width: nat): (r: string)
    ensures |r| == width
    ensures forall i :: 0 <= i < width ==> '0' <= r[i] <= '9'
  {
    if width == 0 then "" else Digits(n / 10, width - 1) + [('0' as int + n % 10) as char]
  }

  /** `datetime.isoformat()`: `YYYY-MM-DDTHH:MM:SS`, followed by `.ffffff` when
      the microsecond is not zero. */
  function IsoFormat(t: DateTime): (r: string)
    ensures |r| == (if t.microsecond == 0 then 19 else 26)
    ensures r[4] == '-' && r[7] == '-' && r[10] == 'T' && r[13] == ':' && r[16] == ':'
    ensures t.microsecond != 0 ==> r[19] == '.'
  {
    var base := Digits(t.year, 4) + "-" + Digits(t.month, 2) + "-" + Digits(t.day, 2)
      + "T" + Digits(t.hour, 2) + ":" + Digits(t.minute, 2) + ":" + Digits(t.second, 2);
    if t.microsecond == 0 then base else base + "." + Digits(t.microsecond, 6)
  }

  /** An `Article` row.  `title` is `None` only on an object that was never
      stored (the column is NOT NULL); `tags` is the JSON column. */
  datatype ArticleRow = ArticleRow(
    title: Option<string>,
    content: string,
    markdownContent: Option<string>,
    htmlContent: Option<string>,
    coverImage: Option<string>,
    sourceUrl: Option<string>,
    status: string,
    createdAt: Option<DateTime>,
    publishedAt: Option<DateTime>,
    tags: Option<seq<string>>)

  /** A `PublishSchedule` row; `articleId` is a nullable foreign key. */
  datatype ScheduleRow = ScheduleRow(id: int, articleId: Option<int>, scheduledTime: DateTime, status: string)

  /** The row stored for a new `Article`: an unset status takes the column default,
      and `created_at` is the insertion time. */
  function NewArticle(title: Option<string>, content: string, markdown: Option<string>, html: Option<string>,
                      status: Option<string>, tags: Option<seq<string>>, utcNow: DateTime): (a: ArticleRow)
    ensures status.None? ==> a.status == DefaultArticleStatus
    ensures status.Some? ==> a.status == status.value
    ensures a.title == title && a.content == content && a.htmlContent == html && a.tags == tags
    ensures a.createdAt == Some(utcNow) && a.publishedAt == None && a.coverImage == None
  {
    ArticleRow(title, content, markdown, html, None, None, status.GetOr(DefaultArticleStatus), Some(utcNow), None, tags)
  }

  /** The row stored for a new `PublishSchedule` with the column default when no status is given. */
  function NewSchedule(id: int, articleId: Option<int>, at: DateTime, status: Option<string>): (s: ScheduleRow)
    ensures status.None? ==> s.status == DefaultScheduleStatus
    ensures status.Some? ==> s.status == status.value
    ensures s.id == id && s.articleId == articleId && s.scheduledTime == at
  {
    ScheduleRow(id, articleId, at, status.GetOr(DefaultScheduleStatus))
  }

  /** The `content` entry of `to_dict`: a preview of at most 203 characters. */
  function Preview(content: string): (r: string)
    ensures |content| <= PreviewLength ==> r == content
    ensures |content| > PreviewLength ==> r == content[..PreviewLength] + Ellipsis
    ensures |r| <= PreviewLength + |Ellipsis|
    ensures StartsWith(r, SliceTo(content, PreviewLength))
  {
    if |content| > PreviewLength then content[..PreviewLength] + Ellipsis else content
  }

  /** An optional timestamp as `to_dict` renders it. */
  function IsoOrNone(t: Option<DateTime>): (r: Option<string>)
    ensures r.None? <==> t.None?
    ensures t.Some? ==> r == Some(IsoFormat(t.value))
  {
    if t.Some? then Some(IsoFormat(t.value)) else None
  }

  /** The dictionary of `Article.to_dict`. */
  datatype ArticleSummary = ArticleSummary(
    id: int,
    title: Option<string>,
    content: string,
    coverImage: Option<string>,
    status: string,
    createdAt: Option<string>,
    publishedAt: Option<string>,
    tags: Option<seq<string>>)

  function ToDict(id: int, a: ArticleRow): (d: ArticleSummary)
    ensures d.id == id && d.title == a.title && d.coverImage == a.coverImage && d.status == a.status && d.tags == a.tags
    ensures d.content == Preview(a.content)
    ensures d.createdAt == IsoOrNone(a.createdAt) && d.publishedAt == IsoOrNone(a.publishedAt)
  {
    ArticleSummary(id, a.title, Preview(a.content), a.coverImage, a.status,
                   IsoOrNone(a.createdAt), IsoOrNone(a.publishedAt), a.tags)
  }
}
