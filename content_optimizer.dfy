/** The deterministic text rewrites of backend/services/content_optimizer.py:
    sensitive-word masking, the engagement and reading-hint paragraphs, the
    sentence summary, the emoji pass and the per-platform adjustments with
    their score. */
module ContentOptimizer {

  import opened Options
  import opened Strings

  // ---------------------------------------------------------------------------
  // Sensitive words

  /** The words used when `data/sensitive_words.txt` does not exist. */
  const DefaultSensitiveWords: set<string> := {"违法", "诈骗", "赌博", "暴力", "血腥"}

  /** Opening the word file: its lines, a missing file, or any other failure. */
  datatype WordFile = Lines(lines: seq<string>) | FileNotFound | ReadFailed

  /** `load_sensitive_words`: the stripped non-blank lines, the default words,
      or no words at all.  No word is ever empty. */
  function LoadSensitiveWords(f: WordFile): (words: set<string>)
    ensures f.Lines? ==> forall w :: w in words <==> exists l :: l in f.lines && PyStrip(l) == w && w != ""
    ensures f.FileNotFound? ==> words == DefaultSensitiveWords
    ensures f.ReadFailed? ==> words == {}
    ensures forall w :: w in words ==> w != ""
  {
    match f
    case Lines(ls) => set l | l in ls && PyStrip(l) != "" :: PyStrip(l)
    case FileNotFound => DefaultSensitiveWords
    case ReadFailed => {}
  }

  /** `r` is `orig` with some characters turned into `'*'`. */
  predicate Masked(orig: string, r: string) {
    |r| == |orig| && forall i :: 0 <= i < |r| ==> r[i] == orig[i] || r[i] == '*'
  }

  lemma {:induction false} MaskedTrans(a: string, b: string, c: string)
    requires Masked(a, b) && Masked(b, c)
    ensures Masked(a, c)
  {
  }

  lemma {:induction false} ReplaceMasks(s: string, w: string)
    requires |w| > 0
    ensures Masked(s, Replace(s, w, Stars(|w|)))
    decreases |s|
  {
    if |s| >= |w| {
      if s[..|w|] == w {
        ReplaceMasks(s[|w|..], w);
      } else {
        ReplaceMasks(s[1..], w);
      }
    }
  }

  /** A word without `'*'` that does not occur in a string does not occur in
      any masking of it. */
  lemma {:induction false} MaskedKeepsAbsent(a: string, b: string, w: string)
    requires Masked(a, b) && '*' !in w && !Contains(a, w)
    ensures !Contains(b, w)
  {
    ContainsIff(a, w);
    ContainsIff(b, w);
    forall p | 0 <= p ensures !OccursAt(b, w, p) {
      if p + |w| <= |b| {
        assert !OccursAt(a, w, p);
        var k :| 0 <= k < |w| && a[p..p + |w|][k] != w[k];
        assert b[p + k] == a[p + k] || b[p + k] == '*';
        assert b[p..p + |w|][k] != w[k];
      }
    }
  }

  /** Masking every occurrence of a word without `'*'` leaves no occurrence. */
  lemma {:induction false} ReplaceRemoves(s: string, w: string)
    requires |w| > 0 && '*' !in w
    ensures !Contains(Replace(s, w, Stars(|w|)), w)
    decreases |s|
  {
    var r := Replace(s, w, Stars(|w|));
    ReplaceMasks(s, w);
    if |s| >= |w| {
      var skip := if s[..|w|] == w then |w| else 1;
      var rest := Replace(s[skip..], w, Stars(|w|));
      var head := if s[..|w|] == w then Stars(|w|) else [s[0]];
      if s[..|w|] == w {
        assert r == head + rest;
      } else {
        assert r == head + rest;
      }
      ReplaceRemoves(s[skip..], w);
      ContainsIff(rest, w);
      forall p | 0 <= p ensures !OccursAt(r, w, p) {
        if p + |w| > |r| {
        } else if p >= skip {
          assert r[p..p + |w|] == rest[p - skip..p - skip + |w|];
          assert !OccursAt(rest, w, p - skip);
        } else if s[..|w|] == w {
          assert r[p] == head[p] == '*';
          assert r[p..p + |w|][0] != w[0];
        } else {
          var k :| 0 <= k < |w| && s[k] != w[k];
          assert r[k] == s[k] || r[k] == '*';
          assert r[..|w|][k] != w[k];
        }
      }
    }
    ContainsIff(r, w);
  }

  /** One round of the loop in `filter_sensitive_words`.  An empty word is
      skipped: `content.replace('', '')` gives back `content`. */
  lemma {:induction false} MaskWordStep(content: string, out: string, w: string, done: set<string>)
    requires Masked(content, out) && '*' !in w
    requires forall v :: v in done && v != "" && '*' !in v ==> !Contains(out, v)
    ensures var next := if w != "" && Contains(out, w) then Replace(out, w, Stars(|w|)) else out;
      Masked(content, next) && forall v :: v in done + {w} && v != "" && '*' !in v ==> !Contains(next, v)
  {
    if w != "" && Contains(out, w) {
      var next := Replace(out, w, Stars(|w|));
      ReplaceMasks(out, w);
      ReplaceRemoves(out, w);
      forall v | v in done && v != "" && '*' !in v ensures !Contains(next, v) {
        MaskedKeepsAbsent(out, next, v);
      }
    }
  }

  /** Position `i` of `s` lies inside an occurrence of `w`. */
  ghost predicate InOccurrence(s: string, w: string, i: int) {
    exists p :: p <= i < p + |w| && OccursAt(s, w, p)
  }

  /** Position `i` of `content` lies inside an occurrence of a non-empty word of `words`. */
  ghost predicate Covered(content: string, words: set<string>, i: int) {
    exists w, p :: w in words && w != "" && p <= i < p + |w| && OccursAt(content, w, p)
  }

  /** No word contains `'*'`. */
  predicate StarFree(words: set<string>) {
    forall w :: w in words ==> '*' !in w
  }

  /** An occurrence in a suffix of `s` is an occurrence in `s`, shifted. */
  lemma {:induction false} InOccurrenceShift(s: string, w: string, d: int, i: int)
    requires 0 <= d <= |s| && InOccurrence(s[d..], w, i - d)
    ensures InOccurrence(s, w, i)
  {
    var q :| q <= i - d < q + |w| && OccursAt(s[d..], w, q);
    assert s[q + d..q + d + |w|] == s[d..][q..q + |w|];
    assert OccursAt(s, w, q + d);
  }

  /** Masking a word changes a character only inside an occurrence of the word. */
  lemma {:induction false} ReplaceChangesOnlyOccurrences(s: string, w: string, i: int)
    requires |w| > 0 && 0 <= i < |s|
    ensures i < |Replace(s, w, Stars(|w|))| && Replace(s, w, Stars(|w|))[i] != s[i] ==> InOccurrence(s, w, i)
    decreases |s|
  {
    if |s| >= |w| {
      var hit := s[..|w|] == w;
      var d := if hit then |w| else 1;
      var rest := s[d..];
      if hit && i < |w| {
        assert OccursAt(s, w, 0);
      } else if i >= d {
        ReplaceMasks(rest, w);
        assert Replace(s, w, Stars(|w|))[i] == Replace(rest, w, Stars(|w|))[i - d];
        ReplaceChangesOnlyOccurrences(rest, w, i - d);
        if Replace(rest, w, Stars(|w|))[i - d] != rest[i - d] {
          InOccurrenceShift(s, w, d, i);
        }
      }
    }
  }

  /** One round of the loop keeps every changed character inside an
      occurrence, in the original content, of a word visited so far. */
  lemma {:induction false} CoveredStep(content: string, out: string, w: string, done: set<string>)
    requires Masked(content, out) && '*' !in w && w != ""
    requires forall i :: 0 <= i < |out| && out[i] != content[i] ==> Covered(content, done, i)
    ensures var next := Replace(out, w, Stars(|w|));
      |next| == |content| && forall i :: 0 <= i < |next| && next[i] != content[i] ==> Covered(content, done + {w}, i)
  {
    var next := Replace(out, w, Stars(|w|));
    ReplaceMasks(out, w);
    forall i | 0 <= i < |next| && next[i] != content[i]
      ensures Covered(content, done + {w}, i)
    {
      if out[i] != content[i] {
        var v, p :| v in done && v != "" && p <= i < p + |v| && OccursAt(content, v, p);
        assert v in done + {w};
      } else {
        ReplaceChangesOnlyOccurrences(out, w, i);
        var p :| p <= i < p + |w| && OccursAt(out, w, p);
        forall k | 0 <= k < |w| ensures content[p + k] == w[k] {
          assert out[p + k] == w[k];
          assert out[p + k] != '*';
        }
        assert content[p..p + |w|] == w;
        assert OccursAt(content, w, p) && w in done + {w};
      }
    }
  }

  /** A position covered by the words visited so far stays covered. */
  lemma CoveredGrows(content: string, done: set<string>, w: string, i: int)
    requires Covered(content, done, i)
    ensures Covered(content, done + {w}, i)
  {
    var v, p :| v in done && v != "" && p <= i < p + |v| && OccursAt(content, v, p);
    assert v in done + {w};
  }

  /** One round of the loop in `filter_sensitive_words` keeps all three
      loop invariants, whatever word it visits. */
  lemma {:induction false} FilterStep(content: string, words: set<string>, out: string, w: string, done: set<string>)
    requires w in words && Masked(content, out)
    requires forall v :: v in done && v != "" && '*' !in v ==> !Contains(out, v)
    requires StarFree(words) ==> forall i :: 0 <= i < |out| && out[i] != content[i] ==> Covered(content, done, i)
    ensures var next := if w != "" && Contains(out, w) then Replace(out, w, Stars(|w|)) else out;
      Masked(content, next) && (forall v :: v in done + {w} && v != "" && '*' !in v ==> !Contains(next, v)) &&
      (StarFree(words) ==> forall i :: 0 <= i < |next| && next[i] != content[i] ==> Covered(content, done + {w}, i))
  {
    var replaced := w != "" && Contains(out, w);
    if '*' !in w {
      MaskWordStep(content, out, w, done);
    } else if replaced {
      ReplaceMasks(out, w);
      MaskedTrans(content, out, Replace(out, w, Stars(|w|)));
      forall v | v in done && v != "" && '*' !in v ensures !Contains(Replace(out, w, Stars(|w|)), v) {
        MaskedKeepsAbsent(out, Replace(out, w, Stars(|w|)), v);
      }
    }
    if StarFree(words) {
      if replaced {
        CoveredStep(content, out, w, done);
      } else {
        forall i | 0 <= i < |out| && out[i] != content[i] ensures Covered(content, done + {w}, i) {
          CoveredGrows(content, done, w, i);
        }
      }
    }
  }

  /** `filter_sensitive_words`: the words are visited in an unspecified order,
      as Python visits a set.  Every character either stays or becomes `'*'`,
      so the length is kept, and no non-empty word without `'*'` survives.
      When no word contains `'*'`, only characters inside an occurrence of a
      word in the original content are masked. */
  method FilterSensitiveWords(content: string, words: set<string>) returns (out: string)
    ensures Masked(content, out)
    ensures |out| == |content|
    ensures forall w :: w in words && w != "" && '*' !in w ==> !Contains(out, w)
    ensures StarFree(words) ==> forall i :: 0 <= i < |out| && out[i] != content[i] ==> Covered(content, words, i)
  {
    out := content;
    var rest := words;
    ghost var done: set<string> := {};
    while rest != {}
      invariant rest <= words && done == words - rest
      invariant Masked(content, out)
      invariant forall v :: v in done && v != "" && '*' !in v ==> !Contains(out, v)
      invariant StarFree(words) ==> forall i :: 0 <= i < |out| && out[i] != content[i] ==> Covered(content, done, i)
      decreases |rest|
    {
      var w :| w in rest;
      FilterStep(content, words, out, w, done);
      if w != "" && Contains(out, w) {
        out := Replace(out, w, Stars(|w|));
      }
      rest := rest - {w};
      done := done + {w};
    }
  }

  // ---------------------------------------------------------------------------
  // Paragraph rewrites

  const ParagraphBreak := "\n\n"
  const Intro := "👋 亲爱的读者，今天为您带来精彩内容！\n\n"
  const Outro := "\n\n💬 觉得文章有帮助吗？欢迎点赞、评论和分享！\n关注我们，获取更多优质内容～"
  /** `questions[0]`, the only question ever inserted. */
  const ThinkingQuestion := "\n\n🤔 思考：这个观点您认同吗？"
  /** `hints[0]`, the only hint ever inserted. */
  const ReadingHint := "\n\n💡 **小贴士**: 以下内容比较重要，建议仔细阅读。\n\n"

  /** `add_engagement_elements`: the intro and outro around the content, and
      with more than three paragraphs the question after the middle one. */
  method AddEngagementElements(content: string) returns (r: string)
    ensures StartsWith(r, Intro) && EndsWith(r, Outro)
    ensures var ps := Split(content, ParagraphBreak);
      |ps| <= 3 ==> r == Intro + content + Outro
    ensures var ps := Split(content, ParagraphBreak);
      |ps| > 3 ==> r == Intro + Join(ps[|ps| / 2 := ps[|ps| / 2] + ThinkingQuestion], ParagraphBreak) + Outro
  {
    var paragraphs := Split(content, ParagraphBreak);
    JoinSplit(content, ParagraphBreak);
    if |paragraphs| > 3 {
      var mid := |paragraphs| / 2;
      paragraphs := paragraphs[mid := paragraphs[mid] + ThinkingQuestion];
    }
    var body := Join(paragraphs, ParagraphBreak);
    r := Intro + body + Outro;
    assert r[..|Intro|] == Intro;
    assert r[|r| - |Outro|..] == Outro;
  }

  /** `_add_reading_hints`: with more than four paragraphs the hint becomes a
      new paragraph in front of the middle one; otherwise nothing changes. */
  method AddReadingHints(content: string) returns (r: string)
    ensures var ps := Split(content, ParagraphBreak);
      |ps| <= 4 ==> r == content
    ensures var ps := Split(content, ParagraphBreak);
      |ps| > 4 ==> r == Join(ps[..|ps| / 2] + [ReadingHint] + ps[|ps| / 2..], ParagraphBreak)
  {
    var paragraphs := Split(content, ParagraphBreak);
    JoinSplit(content, ParagraphBreak);
    if |paragraphs| > 4 {
      var mid := |paragraphs| / 2;
      paragraphs := paragraphs[..mid] + [ReadingHint] + paragraphs[mid..];
    }
    r := Join(paragraphs, ParagraphBreak);
  }

  // ---------------------------------------------------------------------------
  // Summary

  /** The end-of-sentence marks of `re.split(r'[。！？]', ...)`. */
  predicate IsSentenceEnd(c: char) {
    c == '。' || c == '！' || c == '？'
  }

  function Sentences(content: string): (r: seq<string>)
    ensures |r| >= 1
  {
    SplitWhere(content, IsSentenceEnd)
  }

  function TotalLength(ss: seq<string>): nat {
    if |ss| == 0 then 0 else |ss[0]| + TotalLength(ss[1..])
  }

  /** How many leading sentences `generate_summary` keeps: the longest prefix
      whose total length stays within `maxLength`. */
  function SummaryCount(ss: seq<string>, maxLength: int): (k: nat)
    ensures k <= |ss|
    ensures k > 0 ==> TotalLength(ss[..k]) <= maxLength
    ensures k < |ss| ==> TotalLength(ss[..k + 1]) > maxLength
    ensures |ss| > 0 ==> (k == 0 <==> |ss[0]| > maxLength)
    decreases |ss|
  {
    if |ss| == 0 || |ss[0]| > maxLength then
      assert |ss| > 0 ==> ss[..1][1..] == [] && TotalLength(ss[..1]) == |ss[0]|;
      0
    else
      var k := SummaryCount(ss[1..], maxLength - |ss[0]|);
      assert ss[..k + 1][1..] == ss[1..][..k];
      assert k + 1 < |ss| ==> ss[..k + 2][1..] == ss[1..][..k + 1];
      k + 1
  }

  const SentenceMark := "。"

  /** `generate_summary`: the kept sentences, each followed by `'。'`, or the
      first `maxLength` characters when not even the first sentence fits. */
  method GenerateSummary(content: string, maxLength: int) returns (summary: string)
    ensures var ss := Sentences(content); var k := SummaryCount(ss, maxLength);
      summary == if k > 0 then Join(ss[..k], SentenceMark) + SentenceMark else SliceTo(content, maxLength)
  {
    var sentences := Sentences(content);
    var taken: seq<string> := [];
    var current := 0;
    var i := 0;
    while i < |sentences|
      invariant 0 <= i <= |sentences| && taken == sentences[..i]
      invariant SummaryCount(sentences, maxLength) == i + SummaryCount(sentences[i..], maxLength - current)
    {
      assert sentences[i..][0] == sentences[i];
      if current + |sentences[i]| > maxLength {
        break;
      }
      assert sentences[i..][1..] == sentences[i + 1..];
      assert sentences[..i + 1] == taken + [sentences[i]];
      taken := taken + [sentences[i]];
      current := current + |sentences[i]|;
      i := i + 1;
    }
    assert i == SummaryCount(sentences, maxLength);
    summary := if |taken| > 0 then Join(taken, SentenceMark) + SentenceMark else SliceTo(content, maxLength);
  }

  // ---------------------------------------------------------------------------
  // Emojis

  /** `emoji_map` in its insertion order, which is the order Python visits it. */
  const EmojiTable: seq<(string, string)> := [
    ("重要", "\U{26A0}\U{FE0F}"), ("注意", "\U{26A0}\U{FE0F}"), ("提醒", "💡"), ("建议", "💡"),
    ("技巧", "💡"), ("方法", "🔧"), ("步骤", "📝"), ("总结", "📋"), ("结论", "✅"), ("成功", "✅"),
    ("失败", "❌"), ("问题", "❓"), ("疑问", "❓"), ("思考", "🤔"), ("分析", "📊"), ("数据", "📊"),
    ("趋势", "📈"), ("增长", "📈"), ("下降", "📉"), ("时间", "⏰"), ("金钱", "💰"), ("投资", "💰"),
    ("学习", "📚"), ("教育", "📚"), ("健康", "🏥"), ("运动", "🏃"), ("食物", "🍎"), ("科技", "💻"),
    ("未来", "🚀")]

  /** One entry of `_add_emojis`: when the keyword occurs and the emoji does
      not, the emoji and a space are inserted before the first occurrence. */
  function EmojiStep(s: string, keyword: string, emoji: string): (r: string)
    requires |keyword| > 0
    ensures !Contains(s, keyword) || Contains(s, emoji) ==> r == s
    ensures Contains(s, keyword) && !Contains(s, emoji) ==>
      r == s[..IndexOf(s, keyword)] + emoji + " " + s[IndexOf(s, keyword)..]
  {
    if Contains(s, keyword) && !Contains(s, emoji) then
      EmojiInsert(s, keyword, emoji);
      ReplaceFirst(s, keyword, emoji + " " + keyword)
    else s
  }

  /** Replacing the first keyword by emoji, space and keyword inserts the
      emoji and the space in front of it. */
  lemma {:induction false} EmojiInsert(s: string, keyword: string, emoji: string)
    requires |keyword| > 0 && Contains(s, keyword)
    ensures var i := IndexOf(s, keyword);
      ReplaceFirst(s, keyword, emoji + " " + keyword) == s[..i] + emoji + " " + s[i..]
  {
    var i := IndexOf(s, keyword);
    ReplaceFirstAt(s, keyword, emoji + " " + keyword);
    calc {
      ReplaceFirst(s, keyword, emoji + " " + keyword);
      s[..i] + (emoji + " " + keyword) + s[i + |keyword|..];
      s[..i] + emoji + " " + (keyword + s[i + |keyword|..]);
      { assert s[i..] == keyword + s[i + |keyword|..]; }
      s[..i] + emoji + " " + s[i..];
    }
  }

  /** The emoji pass over the table entries from `from` onwards. */
  function EmojiPass(s: string, table: seq<(string, string)>): (r: string)
    requires forall j :: 0 <= j < |table| ==> |table[j].0| > 0
    ensures |r| >= |s|
    decreases |table|
  {
    if |table| == 0 then s else EmojiPass(EmojiStep(s, table[0].0, table[0].1), table[1..])
  }

  /** Text that contains none of the keywords passes unchanged. */
  lemma {:induction false} EmojiPassUnchanged(s: string, table: seq<(string, string)>)
    requires forall j :: 0 <= j < |table| ==> |table[j].0| > 0 && !Contains(s, table[j].0)
    ensures EmojiPass(s, table) == s
    decreases |table|
  {
    if |table| > 0 {
      EmojiPassUnchanged(s, table[1..]);
    }
  }

  lemma EmojiKeywordsNonEmpty()
    ensures forall j :: 0 <= j < |EmojiTable| ==> |EmojiTable[j].0| == 2
  {
  }

  lemma {:induction false} EmojiPassOne(s: string, table: seq<(string, string)>, j: nat)
    requires j < |table| && forall i :: 0 <= i < |table| ==> |table[i].0| > 0
    ensures EmojiPass(s, table[j..]) == EmojiPass(EmojiStep(s, table[j].0, table[j].1), table[j + 1..])
  {
    assert table[j..][1..] == table[j + 1..];
  }

  /** `_add_emojis` */
  method AddEmojis(content: string) returns (r: string)
    ensures r == EmojiPass(content, EmojiTable)
    ensures |r| >= |content|
  {
    var table := EmojiTable;
    EmojiKeywordsNonEmpty();
    r := content;
    for j := 0 to |table|
      invariant EmojiPass(r, table[j..]) == EmojiPass(content, table)
    {
      var keyword := table[j].0;
      var emoji := table[j].1;
      EmojiPassOne(r, table, j);
      if Contains(r, keyword) && !Contains(r, emoji) {
        r := ReplaceFirst(r, keyword, emoji + " " + keyword);
      }
    }
    assert table[|table|..] == [];
  }

  // ---------------------------------------------------------------------------
  // Platforms

  /** The dictionary of `optimize_for_platform`; `score` is absent for an
      unknown platform. */
  datatype PlatformResult = PlatformResult(optimized: string, changes: seq<string>, score: Option<int>)

  /** `_calculate_platform_score` as one expression. */
  function PlatformScore(content: string, platform: string): (score: int)
    ensures 50 <= score <= 100
    ensures platform != "wechat" && platform != "weibo" && platform != "zhihu" ==> score == 50
  {
    var raw :=
      if platform == "wechat" then
        50 + (if Contains(content, "关注") then 10 else 0) + (if Contains(content, "点赞") then 10 else 0)
        + (if Contains(content, "评论") then 10 else 0) + (if 500 <= |content| <= 3000 then 20 else 0)
      else if platform == "weibo" then
        50 + (if Contains(content, "#") then 15 else 0) + (if |content| <= 2000 then 20 else 0)
        + (if Contains(content, "转发") then 10 else 0)
      else if platform == "zhihu" then
        50 + (if Contains(content, "数据") || Contains(content, "研究") then 15 else 0)
        + (if |content| >= 800 then 20 else 0)
        + (if Contains(content, "参考") || Contains(content, "来源") then 10 else 0)
      else 50;
    if raw < 100 then raw else 100
  }

  /** `_calculate_platform_score`, accumulating the score step by step. */
  method CalculatePlatformScore(content: string, platform: string) returns (score: int)
    ensures score == PlatformScore(content, platform)
    ensures 50 <= score <= 100
  {
    score := 50;
    if platform == "wechat" {
      if Contains(content, "关注") { score := score + 10; }
      if Contains(content, "点赞") { score := score + 10; }
      if Contains(content, "评论") { score := score + 10; }
      if 500 <= |content| <= 3000 { score := score + 20; }
    } else if platform == "weibo" {
      if Contains(content, "#") { score := score + 15; }
      if |content| <= 2000 { score := score + 20; }
      if Contains(content, "转发") { score := score + 10; }
    } else if platform == "zhihu" {
      if |content| >= 800 { score := score + 20; }
      if Contains(content, "数据") || Contains(content, "研究") { score := score + 15; }
      if Contains(content, "参考") || Contains(content, "来源") { score := score + 10; }
    }
    score := if score < 100 then score else 100;
  }

  const FollowPrompt := "\n\n🔔 觉得内容有用？别忘了点赞和关注我们！"
  const CommentPrompt := "\n\n💬 在评论区分享你的看法吧～"
  const ReadOriginal := "...\n\n👉 点击阅读原文查看完整内容"
  const WeChatMaxLength := 4000
  const WeChatKeptLength := 3500
  const FollowChange := "添加了关注引导"
  const CommentChange := "添加了评论互动"
  const ReadOriginalChange := "添加了阅读原文引导"

  /** `w` occurs in `s + t` when it occurs at index `i` of `t`. */
  lemma {:induction false} OccursAfter(s: string, t: string, w: string, i: nat)
    requires i + |w| <= |t| && t[i..i + |w|] == w
    ensures Contains(s + t, w)
  {
    assert (s + t)[|s| + i..|s| + i + |w|] == t[i..i + |w|];
    assert OccursAt(s + t, w, |s| + i);
    ContainsIff(s + t, w);
  }

  /** The first two steps of `_optimize_for_wechat`: the follow and comment
      prompts, each appended when its keyword is missing.  Afterwards both
      keywords occur and the original text is a prefix. */
  function WeChatAugmented(content: string): (a: string)
    ensures Contains(a, "关注") && Contains(a, "评论")
    ensures StartsWith(a, content)
    ensures Contains(content, "关注") && Contains(content, "评论") ==> a == content
  {
    var withFollow := if Contains(content, "关注") then content else content + FollowPrompt;
    OccursAfter(content, FollowPrompt, "关注", 17);
    ContainsAppend(CommentPrompt, withFollow, "关注");
    OccursAfter(withFollow, CommentPrompt, "评论", 5);
    if Contains(withFollow, "评论") then withFollow else withFollow + CommentPrompt
  }

  /** `_optimize_for_wechat`: the augmented text, cut to its first 3500
      characters and the read-original link when it exceeds 4000.  The result
      never exceeds 4000 characters, and text that already mentions both
      keywords and is short enough comes back unchanged with no changes. */
  function OptimizeForWeChat(content: string): (r: PlatformResult)
    ensures var a := WeChatAugmented(content);
      && (|a| > WeChatMaxLength ==> r.optimized == a[..WeChatKeptLength] + ReadOriginal)
      && (|a| <= WeChatMaxLength ==> r.optimized == a && Contains(r.optimized, "关注") && Contains(r.optimized, "评论"))
      && (ReadOriginalChange in r.changes <==> |a| > WeChatMaxLength)
    ensures |r.optimized| <= WeChatMaxLength
    ensures Contains(content, "关注") && Contains(content, "评论") && |content| <= WeChatMaxLength ==>
      r.optimized == content && r.changes == []
    ensures (FollowChange in r.changes <==> !Contains(content, "关注")) && |r.changes| <= 3
    ensures r.score == Some(PlatformScore(r.optimized, "wechat"))
  {
    var withFollow := if Contains(content, "关注") then content else content + FollowPrompt;
    var changes := (if Contains(content, "关注") then [] else [FollowChange])
      + (if Contains(withFollow, "评论") then [] else [CommentChange]);
    var a := WeChatAugmented(content);
    var optimized := if |a| > WeChatMaxLength then a[..WeChatKeptLength] + ReadOriginal else a;
    PlatformResult(optimized, changes + (if |a| > WeChatMaxLength then [ReadOriginalChange] else []),
                   Some(PlatformScore(optimized, "wechat")))
  }

  const WeiboMaxLength := 2000
  const WeiboKeptLength := 1900
  const ExpandText := "...展开全文"
  const WeiboLengthChange := "适配微博字数限制"
  const HashtagChange := "添加了话题标签"

  /** `#tag#` for each tag. */
  function Hashtags(tags: seq<string>): (r: seq<string>)
    ensures |r| == |tags| && forall i :: 0 <= i < |tags| ==> r[i] == "#" + tags[i] + "#"
  {
    if |tags| == 0 then [] else ["#" + tags[0] + "#"] + Hashtags(tags[1..])
  }

  /** `_optimize_for_weibo`, given what `generate_tags(content, 3)` returns:
      a text over 2000 characters is cut to 1900 and the expand marker, and the
      first two tags are appended as hashtags when there are any. */
  function OptimizeForWeibo(content: string, tags: seq<string>): (r: PlatformResult)
    ensures var cut := if |content| > WeiboMaxLength then content[..WeiboKeptLength] + ExpandText else content;
      && StartsWith(r.optimized, cut)
      && (|tags| == 0 ==> r.optimized == cut)
      && (|tags| > 0 ==> r.optimized == cut + ParagraphBreak + Join(Hashtags(SliceTo(tags, 2)), " "))
    ensures (WeiboLengthChange in r.changes <==> |content| > WeiboMaxLength)
    ensures (HashtagChange in r.changes <==> |tags| > 0)
    ensures r.score == Some(PlatformScore(r.optimized, "weibo"))
  {
    var cut := if |content| > WeiboMaxLength then content[..WeiboKeptLength] + ExpandText else content;
    var optimized := if |tags| > 0 then cut + ParagraphBreak + Join(Hashtags(SliceTo(tags, 2)), " ") else cut;
    assert optimized[..|cut|] == cut;
    var changes := (if |content| > WeiboMaxLength then [WeiboLengthChange] else [])
      + (if |tags| > 0 then [HashtagChange] else []);
    PlatformResult(optimized, changes, Some(PlatformScore(optimized, "weibo")))
  }

  const ZhihuMinLength := 800
  const ExtendedReading := "\n\n---\n\n**扩展阅读建议**：\n1. 深入了解相关理论\n2. 查看更多实践案例\n3. 关注行业最新动态"
  const DataPrompt := "\n\n📊 **相关数据**：建议补充权威数据支撑观点"
  const ExtendedChange := "添加了扩展阅读建议"
  const DataChange := "提醒添加数据支撑"

  /** `_optimize_for_zhihu`: the further-reading list for a text under 800
      characters, then the data reminder unless data or statistics are
      mentioned.  The original is always a prefix, and afterwards one of the
      two words always occurs. */
  function OptimizeForZhihu(content: string): (r: PlatformResult)
    ensures StartsWith(r.optimized, content)
    ensures Contains(r.optimized, "数据") || Contains(r.optimized, "统计")
    ensures |content| >= ZhihuMinLength && (Contains(content, "数据") || Contains(content, "统计")) ==>
      r.optimized == content && r.changes == []
    ensures (ExtendedChange in r.changes <==> |content| < ZhihuMinLength) && |r.changes| <= 2
    ensures r.score == Some(PlatformScore(r.optimized, "zhihu"))
  {
    var extended := if |content| < ZhihuMinLength then content + ExtendedReading else content;
    var mentions := Contains(extended, "数据") || Contains(extended, "统计");
    var optimized := if mentions then extended else extended + DataPrompt;
    OccursAfter(extended, DataPrompt, "数据", 8);
    assert optimized[..|content|] == content;
    var changes := (if |content| < ZhihuMinLength then [ExtendedChange] else [])
      + (if mentions then [] else [DataChange]);
    PlatformResult(optimized, changes, Some(PlatformScore(optimized, "zhihu")))
  }

  /** `optimize_for_platform`: the platform's own rewrite, and for an
      unknown platform the text itself with no changes and no score. */
  function OptimizeForPlatform(content: string, platform: string, weiboTags: seq<string>): (r: PlatformResult)
    ensures platform == "wechat" ==> r == OptimizeForWeChat(content)
    ensures platform == "weibo" ==> r == OptimizeForWeibo(content, weiboTags)
    ensures platform == "zhihu" ==> r == OptimizeForZhihu(content)
    ensures platform != "wechat" && platform != "weibo" && platform != "zhihu" ==> r == PlatformResult(content, [], None)
    ensures r.score.Some? ==> 50 <= r.score.value <= 100
  {
    if platform == "wechat" then OptimizeForWeChat(content)
    else if platform == "weibo" then OptimizeForWeibo(content, weiboTags)
    else if platform == "zhihu" then OptimizeForZhihu(content)
    else PlatformResult(content, [], None)
  }
}
