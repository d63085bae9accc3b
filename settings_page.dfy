/** frontend/src/pages/Settings.js: the crawl `sources` field, edited as one
    URL per line and saved as a list, and the App ID rule of the WeChat form. */
module SettingsPage {

  import opened Options
  import opened Strings
  import opened Lists
  import Validators

  const Newline := "\n"

  /** A line the save handler keeps: `url.trim()` is truthy. */
  predicate KeptLine(url: string) {
    Trim(url, IsJsSpace) != ""
  }

  /** Only spaces and line terminators. */
  predicate Blank(s: string) {
    forall i :: 0 <= i < |s| ==> IsJsSpace(s[i])
  }

  /** `trim()` empties exactly the blank strings. */
  lemma {:induction false} KeptLineIffNotBlank(s: string)
    ensures KeptLine(s) <==> !Blank(s)
  {
    var t := TrimLeft(s, IsJsSpace);
    if t == "" {
      assert Blank(s);
    } else {
      assert !IsJsSpace(t[0]) && t[0] == s[|s| - |t|];
      assert TrimRight(t, IsJsSpace) != "";
    }
  }

  /** `values.sources ? values.sources.split('\n').filter(url => url.trim()) : []` */
  function SavedSources(text: Option<string>): (r: seq<string>)
    ensures text.None? || text.value == "" ==> r == []
    ensures text.Some? && text.value != "" ==>
      r == Filter(Split(text.value, Newline), KeptLine)
  {
    if text.None? || text.value == "" then [] else Filter(Split(text.value, Newline), KeptLine)
  }

  /** The saved lines are the non-blank lines of the text, kept untrimmed;
      none of them is blank or holds a line break. */
  lemma {:induction false} SavedSourcesAreLines(text: string)
    ensures forall u :: u in SavedSources(Some(text)) <==> u in Split(text, Newline) && !Blank(u)
    ensures forall i :: 0 <= i < |SavedSources(Some(text))| ==> !Blank(SavedSources(Some(text))[i])
  {
    forall u {
      KeptLineIffNotBlank(u);
    }
    if text == "" {
      assert Split(text, Newline) == [""];
      assert Blank("");
    }
  }

  /** The saved lines come in the order of the text: saving `a + '\n' + b`
      saves the lines of `a`, then those of `b`. */
  lemma {:induction false} SavedSourcesInOrder(a: string, b: string)
    requires a != "" && b != "" && '\n' !in a
    ensures SavedSources(Some(a + Newline + b)) == SavedSources(Some(a)) + SavedSources(Some(b))
  {
    SplitAfterPiece(a, '\n', b);
    SplitNoSep(a, '\n');
    FilterAppend([a], Split(b, Newline), KeptLine);
  }

  /** `crawlConfig.sources?.join('\n') || ''` */
  function DisplayedSources(sources: Option<seq<string>>): (r: string)
    ensures sources.None? || sources.value == [] ==> r == ""
  {
    if sources.None? then "" else Join(sources.value, Newline)
  }

  /** A join starts with its first piece. */
  lemma {:induction false} JoinStartsWithFirst(parts: seq<string>, sep: string)
    requires |parts| >= 1
    ensures |Join(parts, sep)| >= |parts[0]| && Join(parts, sep)[..|parts[0]|] == parts[0]
  {
    if |parts| > 1 {
      assert Join(parts, sep) == parts[0] + sep + Join(parts[1..], sep);
    }
  }

  /** Showing the saved sources and saving the form unchanged gives back the
      same list, for sources that are non-blank and hold no line break. */
  lemma {:induction false} DisplayThenSave(sources: seq<string>)
    requires forall i :: 0 <= i < |sources| ==> !Blank(sources[i]) && '\n' !in sources[i]
    ensures SavedSources(Some(DisplayedSources(Some(sources)))) == sources
  {
    if |sources| > 0 {
      var text := Join(sources, Newline);
      JoinStartsWithFirst(sources, Newline);
      assert !Blank(sources[0]);
      assert text != "";
      SplitJoinChar(sources, '\n');
      forall i | 0 <= i < |sources| ensures KeptLine(sources[i]) {
        KeptLineIffNotBlank(sources[i]);
      }
      FilterAll(sources, KeptLine);
    }
  }

  /** Saving and showing again gives back the text when none of its lines
      is blank: every line is kept, and joining the lines restores the text. */
  lemma {:induction false} SaveThenDisplay(text: string)
    requires forall l :: l in Split(text, Newline) ==> !Blank(l)
    ensures DisplayedSources(Some(SavedSources(Some(text)))) == text
  {
    var lines := Split(text, Newline);
    forall i | 0 <= i < |lines| ensures KeptLine(lines[i]) {
      KeptLineIffNotBlank(lines[i]);
    }
    FilterAll(lines, KeptLine);
    JoinSplit(text, Newline);
  }

  // ---------------------------------------------------------------------------
  // The App ID field

  const AppIdRequired := "请输入App ID"
  const AppIdMalformed := "App ID格式不正确"

  predicate IsLowerHexDigit(c: char) {
    '0' <= c <= '9' || 'a' <= c <= 'f'
  }

  /** `[a-f0-9]{n}$`: exactly `n` more characters, all lower-case hex digits. */
  predicate HexRun(s: string, n: nat)
    decreases n
  {
    if n == 0 then s == "" else |s| > 0 && IsLowerHexDigit(s[0]) && HexRun(s[1..], n - 1)
  }

  /** `/^wx[a-f0-9]{16}$/.test(s)` */
  predicate MatchesAppIdPattern(s: string) {
    |s| >= 2 && s[0] == 'w' && s[1] == 'x' && HexRun(s[2..], 16)
  }

  lemma {:induction false} HexRunIff(s: string, n: nat)
    ensures HexRun(s, n) <==> |s| == n && forall i :: 0 <= i < |s| ==> IsLowerHexDigit(s[i])
    decreases n
  {
    if n > 0 && |s| > 0 {
      HexRunIff(s[1..], n - 1);
      assert forall i :: 1 <= i < |s| ==> s[i] == s[1..][i - 1];
    }
  }

  /** The pattern holds exactly of the 18-character strings `wx` followed by
      lower-case hex digits. */
  lemma {:induction false} AppIdPatternShape(s: string)
    ensures MatchesAppIdPattern(s) <==>
      |s| == 18 && StartsWith(s, "wx") && forall i :: 2 <= i < 18 ==> IsLowerHexDigit(s[i])
  {
    if |s| >= 2 {
      HexRunIff(s[2..], 16);
      assert forall i :: 2 <= i < |s| ==> s[i] == s[2..][i - 2];
    }
  }

  /** The form's App ID rules in order: `required`, then the pattern; the
      errors shown. */
  function AppIdErrors(appId: Option<string>): (r: seq<string>)
    ensures r == [] <==> appId.Some? && MatchesAppIdPattern(appId.value)
    ensures appId.None? || appId.value == "" ==> r == [AppIdRequired]
    ensures |r| <= 1
  {
    if appId.None? || appId.value == "" then [AppIdRequired]
    else if !MatchesAppIdPattern(appId.value) then [AppIdMalformed]
    else []
  }

  /** An App ID the form accepts also passes `validate_wechat_config`'s App ID
      checks (present and starting with `wx`); the converse fails, as `wx`
      alone shows. */
  lemma {:induction false} FormAppIdPassesBackend(appId: Option<string>)
    ensures AppIdErrors(appId) == [] ==> Validators.Truthy(appId) && StartsWith(appId.value, "wx")
    ensures Validators.Truthy(Some("wx")) && StartsWith("wx", "wx") && AppIdErrors(Some("wx")) == [AppIdMalformed]
  {
    if appId.Some? {
      AppIdPatternShape(appId.value);
    }
    AppIdPatternShape("wx");
  }
}
