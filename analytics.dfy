/** The deterministic rules of backend/services/analytics_service.py: topic
    keywords, the performance prediction and its suggestions, the zero branch
    of the growth rate, the peak reading hours and the report recommendations.
    Every `random` draw is a parameter; database queries are left out. */
module Analytics {

  import opened Options
  import opened Strings

  // ---------------------------------------------------------------------------
  // _extract_keywords_for_topic

  /** `keyword_map` in its insertion order. */
  const KeywordMap: seq<(string, seq<string>)> := [
    ("AI", ["人工智能", "机器学习", "深度学习", "ChatGPT"]),
    ("投资", ["基金", "股票", "理财", "资产配置"]),
    ("健康", ["运动", "饮食", "睡眠", "养生"]),
    ("科技", ["创新", "数字化", "互联网", "技术"]),
    ("职场", ["工作", "职业发展", "技能", "管理"])]

  /** The index of the first entry whose key occurs in the topic, or `|table|`. */
  function FirstKey(table: seq<(string, seq<string>)>, topic: string): (j: nat)
    ensures j <= |table|
    ensures j < |table| ==> Contains(topic, table[j].0)
    ensures forall i :: 0 <= i < j ==> !Contains(topic, table[i].0)
    decreases |table|
  {
    if |table| == 0 then 0
    else if Contains(topic, table[0].0) then 0
    else
      var k := FirstKey(table[1..], topic);
      assert forall i :: 1 <= i < k + 1 ==> table[i] == table[1..][i - 1];
      k + 1
  }

  /** `_extract_keywords_for_topic`: the keywords of the first key in table
      order that is a substring of the topic, otherwise the topic alone. */
  function KeywordsForTopic(topic: string): (r: seq<string>)
    ensures forall j :: 0 <= j < |KeywordMap| ==>
      (Contains(topic, KeywordMap[j].0) && (forall i :: 0 <= i < j ==> !Contains(topic, KeywordMap[i].0))) ==> r == KeywordMap[j].1
    ensures (forall j :: 0 <= j < |KeywordMap| ==> !Contains(topic, KeywordMap[j].0)) ==> r == [topic]
  {
    var j := FirstKey(KeywordMap, topic);
    if j < |KeywordMap| then KeywordMap[j].1 else [topic]
  }

  // ---------------------------------------------------------------------------
  // predict_article_performance

  /** The entries of `article_data` the prediction reads; `None` is a missing
      key, which `.get` turns into `''` or `[]`. */
  datatype ArticleData = ArticleData(title: Option<string>, content: Option<string>, hasImages: bool, tags: Option<seq<string>>)

  function TitleLength(a: ArticleData): nat { |a.title.GetOr("")| }
  function ContentLength(a: ArticleData): nat { |a.content.GetOr("")| }
  function TagCount(a: ArticleData): nat { |a.tags.GetOr([])| }

  /** The random offsets of the four predicted counts. */
  datatype Offsets = Offsets(views: int, likes: int, comments: int, shares: int)

  datatype Prediction = Prediction(overallScore: int, views: int, likes: int, comments: int, shares: int, suggestions: seq<string>)

  /** The simplified scoring rule of `predict_article_performance`. */
  function BaseScore(a: ArticleData): (score: int)
    ensures 35 <= score <= 100
  {
    var t := TitleLength(a);
    var c := ContentLength(a);
    50
    + (if 10 <= t <= 30 then 10 else if t > 30 then -5 else 0)
    + (if 800 <= c <= 2000 then 15 else if c < 500 then -10 else if c > 3000 then -5 else 0)
    + (if a.hasImages then 10 else 0)
    + (if TagCount(a) > 0 then Min(TagCount(a) * 3, 15) else 0)
  }

  function Min(a: int, b: int): int { if a < b then a else b }
  function Max(a: int, b: int): int { if a > b then a else b }

  const ShortTitleSuggestion := "标题过短，建议扩展为10-30字"
  const LongTitleSuggestion := "标题过长，建议精简到30字以内"
  const ShortContentSuggestion := "内容过短，建议增加详细说明和案例"
  const LongContentSuggestion := "内容较长，建议分段或拆分为系列文章"
  const ImageSuggestion := "建议添加相关配图提升阅读体验"
  const TagSuggestion := "建议添加相关标签增加文章曝光度"
  const ScoreSuggestion := "整体评分偏低，建议优化标题和内容结构"

  function TitlePart(a: ArticleData): seq<string> {
    if TitleLength(a) < 10 then [ShortTitleSuggestion] else if TitleLength(a) > 30 then [LongTitleSuggestion] else []
  }
  function ContentPart(a: ArticleData): seq<string> {
    if ContentLength(a) < 500 then [ShortContentSuggestion] else if ContentLength(a) > 3000 then [LongContentSuggestion] else []
  }
  function ImagePart(a: ArticleData): seq<string> { if !a.hasImages then [ImageSuggestion] else [] }
  function TagPart(a: ArticleData): seq<string> { if TagCount(a) == 0 then [TagSuggestion] else [] }
  function ScorePart(score: int): seq<string> { if score < 60 then [ScoreSuggestion] else [] }

  /** The suggestions of `_get_improvement_suggestions` before the final `[:5]`. */
  function Suggestions(score: int, a: ArticleData): seq<string> {
    TitlePart(a) + ContentPart(a) + ImagePart(a) + TagPart(a) + ScorePart(score)
  }

  /** Each suggestion is made exactly when its condition holds, and there are
      at most five of them. */
  lemma {:induction false} SuggestionsMembers(score: int, a: ArticleData)
    ensures var r := Suggestions(score, a);
      && (ShortTitleSuggestion in r <==> TitleLength(a) < 10)
      && (LongTitleSuggestion in r <==> TitleLength(a) > 30)
      && (ShortContentSuggestion in r <==> ContentLength(a) < 500)
      && (LongContentSuggestion in r <==> ContentLength(a) > 3000)
      && (ImageSuggestion in r <==> !a.hasImages)
      && (TagSuggestion in r <==> TagCount(a) == 0)
      && (ScoreSuggestion in r <==> score < 60)
      && |r| <= 5
      && (r == [] <==> 10 <= TitleLength(a) <= 30 && 500 <= ContentLength(a) <= 3000 && a.hasImages
                       && TagCount(a) > 0 && score >= 60)
  {
    SuggestionsDistinct();
    var r := Suggestions(score, a);
    assert |r| == |TitlePart(a)| + |ContentPart(a)| + |ImagePart(a)| + |TagPart(a)| + |ScorePart(score)|;
    forall x
      ensures x in r <==> x in TitlePart(a) || x in ContentPart(a) || x in ImagePart(a) || x in TagPart(a) || x in ScorePart(score)
    {
    }
  }

  /** `_get_improvement_suggestions`: each suggestion exactly when its
      condition holds, in this order; there are never more than five, so the
      final `[:5]` drops nothing. */
  method ImprovementSuggestions(score: int, a: ArticleData) returns (suggestions: seq<string>)
    ensures suggestions == Suggestions(score, a) && |suggestions| <= 5
    ensures ShortTitleSuggestion in suggestions <==> TitleLength(a) < 10
    ensures LongTitleSuggestion in suggestions <==> TitleLength(a) > 30
    ensures ShortContentSuggestion in suggestions <==> ContentLength(a) < 500
    ensures LongContentSuggestion in suggestions <==> ContentLength(a) > 3000
    ensures ImageSuggestion in suggestions <==> !a.hasImages
    ensures TagSuggestion in suggestions <==> TagCount(a) == 0
    ensures ScoreSuggestion in suggestions <==> score < 60
  {
    suggestions := [];
    var titleLength := TitleLength(a);
    var contentLength := ContentLength(a);
    if titleLength < 10 {
      suggestions := suggestions + [ShortTitleSuggestion];
    } else if titleLength > 30 {
      suggestions := suggestions + [LongTitleSuggestion];
    }
    assert suggestions == TitlePart(a);
    if contentLength < 500 {
      suggestions := suggestions + [ShortContentSuggestion];
    } else if contentLength > 3000 {
      suggestions := suggestions + [LongContentSuggestion];
    }
    assert suggestions == TitlePart(a) + ContentPart(a);
    if !a.hasImages {
      suggestions := suggestions + [ImageSuggestion];
    }
    assert suggestions == TitlePart(a) + ContentPart(a) + ImagePart(a);
    if TagCount(a) == 0 {
      suggestions := suggestions + [TagSuggestion];
    }
    assert suggestions == TitlePart(a) + ContentPart(a) + ImagePart(a) + TagPart(a);
    if score < 60 {
      suggestions := suggestions + [ScoreSuggestion];
    }
    assert suggestions == Suggestions(score, a);
    SuggestionsMembers(score, a);
    suggestions := SliceTo(suggestions, 5);
  }

  /** The seven suggestions are pairwise different. */
  lemma SuggestionsDistinct()
    ensures ShortTitleSuggestion != LongTitleSuggestion
    ensures ShortContentSuggestion != LongContentSuggestion
    ensures ImageSuggestion != TagSuggestion
    ensures forall x, y :: x in [ShortTitleSuggestion, LongTitleSuggestion] && y in [ShortContentSuggestion, LongContentSuggestion, ImageSuggestion, TagSuggestion, ScoreSuggestion] ==> x != y
    ensures forall x, y :: x in [ShortContentSuggestion, LongContentSuggestion] && y in [ImageSuggestion, TagSuggestion, ScoreSuggestion] ==> x != y
    ensures forall x :: x in [ImageSuggestion, TagSuggestion] ==> x != ScoreSuggestion
  {
    assert ShortTitleSuggestion[3] != LongTitleSuggestion[3];
    assert ShortContentSuggestion[2] != LongContentSuggestion[2];
    assert ImageSuggestion[6] != TagSuggestion[6];
    assert ShortTitleSuggestion[0] == LongTitleSuggestion[0] == '标';
    assert ShortContentSuggestion[0] == LongContentSuggestion[0] == '内';
    assert ImageSuggestion[0] == TagSuggestion[0] == '建';
    assert ScoreSuggestion[0] == '整';
  }

  /** `predict_article_performance`: the base score, accumulated step by step,
      is already within `[0, 100]`, so the overall score is the score itself;
      the predicted counts respect their floors whatever the random offsets;
      the suggestions are those of `_get_improvement_suggestions` for that
      score and article. */
  method PredictArticlePerformance(a: ArticleData, offsets: Offsets) returns (p: Prediction)
    ensures p.overallScore == BaseScore(a) && 35 <= p.overallScore <= 100
    ensures p.views >= 100 && p.likes >= 10 && p.comments >= 2 && p.shares >= 5
    ensures p.views == Max(100, BaseScore(a) * 20 + offsets.views)
    ensures p.likes == Max(10, p.views / 15 + offsets.likes)
    ensures p.comments == Max(2, p.likes / 8 + offsets.comments)
    ensures p.shares == Max(5, p.likes / 5 + offsets.shares)
    ensures p.suggestions == Suggestions(BaseScore(a), a)
    ensures ScoreSuggestion in p.suggestions <==> p.overallScore < 60
  {
    var titleLength := TitleLength(a);
    var contentLength := ContentLength(a);
    var score := 50;
    if 10 <= titleLength <= 30 {
      score := score + 10;
    } else if titleLength > 30 {
      score := score - 5;
    }
    if 800 <= contentLength <= 2000 {
      score := score + 15;
    } else if contentLength < 500 {
      score := score - 10;
    } else if contentLength > 3000 {
      score := score - 5;
    }
    if a.hasImages {
      score := score + 10;
    }
    if TagCount(a) > 0 {
      score := score + Min(TagCount(a) * 3, 15);
    }
    assert score == BaseScore(a);
    var views := Max(100, score * 20 + offsets.views);
    var likes := Max(10, views / 15 + offsets.likes);
    var comments := Max(2, likes / 8 + offsets.comments);
    var shares := Max(5, likes / 5 + offsets.shares);
    var suggestions := ImprovementSuggestions(score, a);
    p := Prediction(Min(100, Max(0, score)), views, likes, comments, shares, suggestions);
  }

  // ---------------------------------------------------------------------------
  // _calculate_growth_rate

  /** `_calculate_growth_rate` when the previous period is zero. */
  function GrowthFromZero(current: int): (r: string)
    ensures current > 0 ==> r == "+100%"
    ensures current <= 0 ==> r == "0%"
  {
    if current > 0 then "+100%" else "0%"
  }

  // ---------------------------------------------------------------------------
  // _get_peak_reading_hours

  predicate StrictlyIncreasing(s: seq<int>) {
    forall i, j :: 0 <= i < j < |s| ==> s[i] < s[j]
  }

  /** `x` inserted into a strictly increasing sequence that does not hold it. */
  function InsertSorted(s: seq<int>, x: int): (r: seq<int>)
    requires StrictlyIncreasing(s) && x !in s
    ensures StrictlyIncreasing(r) && |r| == |s| + 1
    ensures forall y :: y in r <==> y in s || y == x
  {
    if |s| == 0 then [x]
    else if x < s[0] then [x] + s
    else
      var rest := InsertSorted(s[1..], x);
      assert forall y :: y in rest ==> y > s[0];
      var r := [s[0]] + rest;
      assert forall j :: 1 <= j < |r| ==> r[j] == rest[j - 1] && r[j] in rest;
      r
  }

  /** `sorted` on distinct integers. */
  function SortDistinct(s: seq<int>): (r: seq<int>)
    requires forall i, j :: 0 <= i < j < |s| ==> s[i] != s[j]
    ensures StrictlyIncreasing(r) && |r| == |s|
    ensures forall y :: y in r <==> y in s
  {
    if |s| == 0 then [] else InsertSorted(SortDistinct(s[..|s| - 1]), s[|s| - 1])
  }

  /** `_get_peak_reading_hours`, given the three `random.randint(0, 23)` draws:
      the distinct hours drawn, sorted. */
  method PeakReadingHours(draws: seq<int>) returns (hours: seq<int>)
    requires |draws| == 3 && forall i :: 0 <= i < 3 ==> 0 <= draws[i] <= 23
    ensures 1 <= |hours| <= 3 && StrictlyIncreasing(hours)
    ensures forall h :: h in hours <==> h in draws
    ensures forall i :: 0 <= i < |hours| ==> 0 <= hours[i] <= 23
  {
    var peak: seq<int> := [];
    for k := 0 to 3
      invariant |peak| <= k && (k > 0 ==> |peak| >= 1)
      invariant forall i, j :: 0 <= i < j < |peak| ==> peak[i] != peak[j]
      invariant forall h :: h in peak <==> h in draws[..k]
    {
      assert draws[..k + 1] == draws[..k] + [draws[k]];
      var hour := draws[k];
      if hour !in peak {
        peak := peak + [hour];
      }
    }
    assert draws[..3] == draws;
    hours := SortDistinct(peak);
    forall i | 0 <= i < |hours|
      ensures 0 <= hours[i] <= 23
    {
      assert hours[i] in draws;
    }
  }

  // ---------------------------------------------------------------------------
  // _generate_recommendations

  /** What the recommendations read of a published article. */
  datatype ArticleFacts = ArticleFacts(contentLength: nat, hasImages: bool, publishedHour: Option<int>)

  const NoArticlesRecommendation := "建议开始发布更多内容以获得数据洞察"
  const FrequencyRecommendation := "建议增加发布频率，保持与读者的互动"
  const ShortRecommendation := "文章内容偏短，建议增加深度和详细度"
  const LongRecommendation := "文章内容较长，建议适当精简或分段发布"
  const ImageRecommendation := "建议为更多文章添加配图，提升阅读体验"

  function HourRecommendation(hour: int): string {
    "当前主要在" + IntToString(hour) + "点发布，建议尝试黄金时段（8-22点）"
  }

  function TotalLength(articles: seq<ArticleFacts>): nat {
    if |articles| == 0 then 0 else TotalLength(articles[..|articles| - 1]) + articles[|articles| - 1].contentLength
  }

  function WithImages(articles: seq<ArticleFacts>): (n: nat)
    ensures n <= |articles|
  {
    if |articles| == 0 then 0 else WithImages(articles[..|articles| - 1]) + (if articles[|articles| - 1].hasImages then 1 else 0)
  }

  /** `[article.published_at.hour for article in articles if article.published_at]` */
  function PublishHours(articles: seq<ArticleFacts>): (hours: seq<int>)
    ensures |hours| <= |articles|
  {
    if |articles| == 0 then []
    else
      var last := articles[|articles| - 1];
      PublishHours(articles[..|articles| - 1]) + (if last.publishedHour.Some? then [last.publishedHour.value] else [])
  }

  function Count(s: seq<int>, x: int): nat {
    if |s| == 0 then 0 else Count(s[..|s| - 1], x) + (if s[|s| - 1] == x then 1 else 0)
  }

  /** The first position among `s[..k]` holding a value counted most often in `s`. */
  function MostCommonIndex(s: seq<int>, k: nat): (i: nat)
    requires 0 < k <= |s|
    ensures i < k
    ensures forall j :: 0 <= j < k ==> Count(s, s[j]) <= Count(s, s[i])
    ensures forall j :: 0 <= j < i ==> Count(s, s[j]) < Count(s, s[i])
  {
    if k == 1 then 0
    else
      var b := MostCommonIndex(s, k - 1);
      if Count(s, s[k - 1]) > Count(s, s[b]) then k - 1 else b
  }

  /** `Counter(hours).most_common(1)[0][0]`: a most frequent hour, the one
      seen first among those tied. */
  function MostCommon(s: seq<int>): (h: int)
    requires |s| > 0
    ensures h in s && forall x :: x in s ==> Count(s, x) <= Count(s, h)
    ensures forall j :: 0 <= j < |s| && Count(s, s[j]) == Count(s, h) ==> s[j] == h || exists k :: 0 <= k < j && s[k] == h
  {
    s[MostCommonIndex(s, |s|)]
  }

  /** Constraints of `_generate_recommendations` as conditions on `articles`.
      Averages are compared by cross-multiplication. */
  predicate FewArticles(articles: seq<ArticleFacts>) { |articles| < 3 }
  predicate ShortOnAverage(articles: seq<ArticleFacts>) { TotalLength(articles) < 500 * |articles| }
  predicate LongOnAverage(articles: seq<ArticleFacts>) { TotalLength(articles) > 3000 * |articles| }
  predicate FewImages(articles: seq<ArticleFacts>) { 2 * WithImages(articles) < |articles| }
  predicate OffHours(articles: seq<ArticleFacts>) {
    |PublishHours(articles)| > 0 && (MostCommon(PublishHours(articles)) < 8 || MostCommon(PublishHours(articles)) > 22)
  }

  function FrequencyPart(articles: seq<ArticleFacts>): seq<string> {
    if FewArticles(articles) then [FrequencyRecommendation] else []
  }
  function LengthPart(articles: seq<ArticleFacts>): seq<string> {
    if ShortOnAverage(articles) then [ShortRecommendation]
    else if LongOnAverage(articles) then [LongRecommendation]
    else []
  }
  function ImagesPart(articles: seq<ArticleFacts>): seq<string> {
    if FewImages(articles) then [ImageRecommendation] else []
  }
  function HourPart(articles: seq<ArticleFacts>): seq<string> {
    if OffHours(articles) then [HourRecommendation(MostCommon(PublishHours(articles)))] else []
  }

  /** The recommendations of `_generate_recommendations` for a non-empty list,
      before the final `[:5]`. */
  function Recommendations(articles: seq<ArticleFacts>): seq<string> {
    FrequencyPart(articles) + LengthPart(articles) + ImagesPart(articles) + HourPart(articles)
  }

  /** Each recommendation is made exactly when its condition holds; there are
      at most four, and never the message meant for an empty list. */
  lemma {:induction false} RecommendationsMembers(articles: seq<ArticleFacts>)
    ensures var r := Recommendations(articles);
      && (FrequencyRecommendation in r <==> FewArticles(articles))
      && (ShortRecommendation in r <==> ShortOnAverage(articles))
      && (LongRecommendation in r <==> LongOnAverage(articles))
      && (ImageRecommendation in r <==> FewImages(articles))
      && (|PublishHours(articles)| > 0 ==>
            (OffHours(articles) <==> HourRecommendation(MostCommon(PublishHours(articles))) in r))
      && NoArticlesRecommendation !in r
      && |r| <= 4
  {
    RecommendationsDistinct();
    var r := Recommendations(articles);
    if |PublishHours(articles)| > 0 {
      HourRecommendationDistinct(MostCommon(PublishHours(articles)));
    }
    assert ShortOnAverage(articles) ==> !LongOnAverage(articles);
    forall x
      ensures x in r <==> x in FrequencyPart(articles) || x in LengthPart(articles) || x in ImagesPart(articles) || x in HourPart(articles)
    {
    }
  }

  /** The fixed recommendations are pairwise different. */
  lemma RecommendationsDistinct()
    ensures forall x, y :: x in [NoArticlesRecommendation, FrequencyRecommendation, ImageRecommendation] && y in [ShortRecommendation, LongRecommendation] ==> x != y
    ensures NoArticlesRecommendation != FrequencyRecommendation && NoArticlesRecommendation != ImageRecommendation
    ensures FrequencyRecommendation != ImageRecommendation && ShortRecommendation != LongRecommendation
  {
    assert NoArticlesRecommendation[2] == '开' && FrequencyRecommendation[2] == '增' && ImageRecommendation[2] == '为';
    assert ShortRecommendation[0] == LongRecommendation[0] == '文';
    assert NoArticlesRecommendation[0] == '建' && FrequencyRecommendation[0] == '建' && ImageRecommendation[0] == '建';
    assert ShortRecommendation[4] != LongRecommendation[4];
  }

  /** Each of the four parts has at most one message. */
  lemma RecommendationsAtMostFour(articles: seq<ArticleFacts>)
    ensures |Recommendations(articles)| <= 4
  {
  }

  /** `_generate_recommendations` */
  method GenerateRecommendations(articles: seq<ArticleFacts>) returns (recommendations: seq<string>)
    ensures articles == [] ==> recommendations == [NoArticlesRecommendation]
    ensures articles != [] ==> recommendations == Recommendations(articles)
    ensures |recommendations| <= 5
  {
    recommendations := [];
    if |articles| == 0 {
      recommendations := recommendations + [NoArticlesRecommendation];
      return;
    }
    if |articles| < 3 {
      recommendations := recommendations + [FrequencyRecommendation];
    }
    assert recommendations == FrequencyPart(articles);
    var total := TotalLength(articles);
    var withImages := WithImages(articles);
    var hours := PublishHours(articles);
    if total < 500 * |articles| {
      recommendations := recommendations + [ShortRecommendation];
    } else if total > 3000 * |articles| {
      recommendations := recommendations + [LongRecommendation];
    }
    assert recommendations == FrequencyPart(articles) + LengthPart(articles);
    if 2 * withImages < |articles| {
      recommendations := recommendations + [ImageRecommendation];
    }
    assert recommendations == FrequencyPart(articles) + LengthPart(articles) + ImagesPart(articles);
    if |hours| > 0 {
      var hour := MostCommon(hours);
      if hour < 8 || hour > 22 {
        recommendations := recommendations + [HourRecommendation(hour)];
      }
    }
    assert recommendations == Recommendations(articles);
    RecommendationsAtMostFour(articles);
    recommendations := SliceTo(recommendations, 5);
  }

  /** The hour message never coincides with a fixed message. */
  lemma {:induction false} HourRecommendationDistinct(hour: int)
    ensures HourRecommendation(hour) != NoArticlesRecommendation && HourRecommendation(hour) != FrequencyRecommendation
    ensures HourRecommendation(hour) != ShortRecommendation && HourRecommendation(hour) != LongRecommendation
    ensures HourRecommendation(hour) != ImageRecommendation
  {
    var m := HourRecommendation(hour);
    assert m[0] == '当';
  }
}
