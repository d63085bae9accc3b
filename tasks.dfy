/** The scheduled jobs of backend/tasks.py: the publish runner and the daily
    article generation.

    The database is a value: articles by id and the schedule rows in table
    order.  A run works on a copy; `db.session.commit()` makes the copy the new
    database, and an exception escaping the loop leaves the database as it was. */
module Tasks {

  import opened Options
  import opened Strings
  import opened Models
  import W = WeChatApi
  import L = LlmService

  const Approved := "approved"
  const PublishedStatus := "published"
  const Pending := "pending"
  const Completed := "completed"
  const Failed := "failed"

  datatype Db = Db(articles: map<int, ArticleRow>, schedules: seq<ScheduleRow>)

  /** The filter of the scheduler's query: due by `now` and still pending. */
  predicate Due(s: ScheduleRow, now: DateTime) {
    LessEq(s.scheduledTime, now) && s.status == Pending
  }

  /** The positions of the rows the query returns, in table order. */
  function DueIndices(ss: seq<ScheduleRow>, now: DateTime): (r: seq<nat>)
    ensures forall k :: 0 <= k < |r| ==> r[k] < |ss| && Due(ss[r[k]], now)
    ensures forall i :: 0 <= i < |ss| && Due(ss[i], now) ==> i in r
    ensures forall k, l :: 0 <= k < l < |r| ==> r[k] < r[l]
  {
    if |ss| == 0 then []
    else DueIndices(ss[..|ss| - 1], now) + (if Due(ss[|ss| - 1], now) then [|ss| - 1] else [])
  }

  /** Which dictionary the runner hands to `publish`: `ToDictOnly` is the code
      as written (`article.to_dict()`), `WithHtml` adds the `html_content` key
      that `publish` reads. */
  datatype PayloadKind = ToDictOnly | WithHtml

  function Payload(kind: PayloadKind, id: int, a: ArticleRow): (p: W.ArticleDict)
    ensures p.title == W.Present(a.title) && p.coverImage == a.coverImage
    ensures kind == ToDictOnly ==> p.htmlContent == W.Missing
    ensures kind == WithHtml ==> p.htmlContent == W.Present(a.htmlContent)
  {
    var d := ToDict(id, a);
    W.ArticleDict(W.Present(d.title), if kind == WithHtml then W.Present(a.htmlContent) else W.Missing,
                  d.coverImage, None, None, None)
  }

  /** The remote side of one run: for each schedule id, the three token
      lookups its `publish` may make (each with its own clock reading) and the
      replies to the cover upload, the staging call and the broadcast. */
  datatype Replies = Replies(calls: int -> W.PublishCalls, image: int -> W.MediaReply, news: int -> W.MediaReply,
                             send: int -> W.SendReply)

  /** The state after handling some schedules (the working copy of the
      database and the shared client's token cache), or an exception that
      ends the run. */
  datatype Run = Continue(db: Db, cache: W.TokenCache) | Aborted

  /** The article a schedule refers to exists. */
  predicate HasArticle(d: Db, s: ScheduleRow) {
    s.articleId.Some? && s.articleId.value in d.articles
  }

  /** The dictionary `publish` receives for the schedule at position `j`. */
  function PayloadAt(d: Db, j: nat, kind: PayloadKind): W.ArticleDict
    requires j < |d.schedules| && HasArticle(d, d.schedules[j])
  {
    var aid := d.schedules[j].articleId.value;
    Payload(kind, aid, d.articles[aid])
  }

  /** What `publish` does for the schedule at position `j` when the client
      holds the cache `c`. */
  function Outcome(d: Db, c: W.TokenCache, j: nat, r: Replies, kind: PayloadKind): W.PublishOutcome
    requires j < |d.schedules| && HasArticle(d, d.schedules[j])
  {
    var s := d.schedules[j];
    var p := PayloadAt(d, j, kind);
    W.PublishOutcomeFor(W.Checks(c, p, r.calls(s.id)), p, r.image(s.id), r.news(s.id), r.send(s.id))
  }

  /** The loop body for the schedule at position `j`, with the client holding
      the cache `c`.  A missing article (`schedule.article` is `None`) raises,
      as does a `KeyError` from `publish`. */
  function Step(d: Db, c: W.TokenCache, j: nat, now: DateTime, r: Replies, kind: PayloadKind): (run: Run)
    requires j < |d.schedules|
    ensures run.Continue? ==> run.db.articles.Keys == d.articles.Keys && |run.db.schedules| == |d.schedules|
    ensures !HasArticle(d, d.schedules[j]) ==> run == Aborted
    ensures HasArticle(d, d.schedules[j]) && d.articles[d.schedules[j].articleId.value].status != Approved ==>
      run == Continue(d, c)
    ensures HasArticle(d, d.schedules[j]) && d.articles[d.schedules[j].articleId.value].status == Approved ==>
      var s := d.schedules[j];
      var aid := s.articleId.value;
      var o := Outcome(d, c, j, r, kind);
      var c1 := W.CacheAfterPublish(c, PayloadAt(d, j, kind), r.calls(s.id), r.news(s.id));
      && (o.RaisedKeyError? ==> run == Aborted)
      && (o.Returned? && o.result.Success() ==>
            run == Continue(Db(d.articles[aid := d.articles[aid].(status := PublishedStatus, publishedAt := Some(now))],
                               d.schedules[j := s.(status := Completed)]), c1))
      && (o.Returned? && !o.result.Success() ==>
            run == Continue(Db(d.articles, d.schedules[j := s.(status := Failed)]), c1))
  {
    var s := d.schedules[j];
    if !HasArticle(d, s) then Aborted
    else
      var aid := s.articleId.value;
      var a := d.articles[aid];
      if a.status != Approved then Continue(d, c)
      else
        var c1 := W.CacheAfterPublish(c, PayloadAt(d, j, kind), r.calls(s.id), r.news(s.id));
        match Outcome(d, c, j, r, kind)
        case RaisedKeyError(_) => Aborted
        case Returned(res) =>
          if res.Success() then
            Continue(Db(d.articles[aid := a.(status := PublishedStatus, publishedAt := Some(now))], d.schedules[j := s.(status := Completed)]), c1)
          else
            Continue(Db(d.articles, d.schedules[j := s.(status := Failed)]), c1)
  }

  predicate IndicesIn(due: seq<nat>, n: nat) {
    forall k :: 0 <= k < |due| ==> due[k] < n
  }

  /** The loop over the schedules at positions `due`, threading the client's cache. */
  function RunFrom(d: Db, c: W.TokenCache, due: seq<nat>, now: DateTime, r: Replies, kind: PayloadKind): Run
    requires IndicesIn(due, |d.schedules|)
    decreases |due|
  {
    if |due| == 0 then Continue(d, c)
    else match Step(d, c, due[0], now, r, kind)
      case Aborted => Aborted
      case Continue(d1, c1) => RunFrom(d1, c1, due[1..], now, r, kind)
  }

  /** The database after `auto_publish_scheduled`; the client starts with no token. */
  function AutoPublish(db: Db, now: DateTime, r: Replies, kind: PayloadKind): Db {
    match RunFrom(db, W.EmptyCache, DueIndices(db.schedules, now), now, r, kind)
    case Continue(d, _) => d
    case Aborted => db
  }

  /** Every token lookup of the run happens at the instant `call.now` and
      would get the reply `call.reply`. */
  ghost predicate AtOneInstant(r: Replies, call: W.TokenCall) {
    forall id :: r.calls(id) == W.PublishCalls(call, call, call)
  }

  /** Under a lasting grant, a client with cache `c` that has sent `n` token
      requests has sent at most one, still holds a valid token if it sent one,
      and is untouched if it sent none. */
  predicate GrantKept(c: W.TokenCache, n: nat, call: W.TokenCall) {
    W.LastingGrant(call.reply) ==> n <= 1 && (n == 1 ==> W.CacheValid(c, call.now)) && (n == 0 ==> c == W.EmptyCache)
  }

  /** One pass of the loop body: the schedule at position `j` of the working copy `d`. */
  method HandleSchedule(wechat: W.WeChatClient, d: Db, j: nat, now: DateTime, r: Replies, kind: PayloadKind)
    returns (run: Run)
    requires j < |d.schedules|
    modifies wechat
    ensures run == Step(d, old(wechat.Cache()), j, now, r, kind)
    ensures run.Continue? ==> wechat.Cache() == run.cache
    ensures forall call :: AtOneInstant(r, call) && GrantKept(old(wechat.Cache()), old(wechat.tokenRequests), call) ==>
      GrantKept(wechat.Cache(), wechat.tokenRequests, call)
  {
    ghost var c0, n0 := wechat.Cache(), wechat.tokenRequests;
    var s := d.schedules[j];
    if s.articleId.None? || s.articleId.value !in d.articles {
      return Aborted;
    }
    var aid := s.articleId.value;
    var a := d.articles[aid];
    if a.status != Approved {
      return Continue(d, wechat.Cache());
    }
    var outcome, _ := wechat.Publish(Payload(kind, aid, a), r.calls(s.id), r.image(s.id), r.news(s.id), r.send(s.id));
    forall call | AtOneInstant(r, call) && GrantKept(c0, n0, call)
      ensures GrantKept(wechat.Cache(), wechat.tokenRequests, call)
    {
      assert r.calls(s.id) == W.PublishCalls(call, call, call);
      W.OneInstantPublishStep(c0, n0, Payload(kind, aid, a), call, r.news(s.id));
    }
    if outcome.RaisedKeyError? {
      return Aborted;
    }
    var cache := wechat.Cache();
    if outcome.result.Success() {
      run := Continue(Db(d.articles[aid := a.(status := PublishedStatus, publishedAt := Some(now))], d.schedules[j := s.(status := Completed)]), cache);
    } else {
      run := Continue(d.(schedules := d.schedules[j := s.(status := Failed)]), cache);
    }
  }

  /** `auto_publish_scheduled`: one client shared by the whole loop.  `now`
      is `datetime.now()` of the run.  When every token lookup happens at one
      instant with one lasting grant, the run sends at most one token request. */
  method AutoPublishScheduled(db: Db, now: DateTime, r: Replies, kind: PayloadKind)
    returns (after: Db, ghost tokenRequests: nat)
    ensures after == AutoPublish(db, now, r, kind)
    ensures forall call :: AtOneInstant(r, call) && W.LastingGrant(call.reply) ==> tokenRequests <= 1
  {
    var due := DueIndices(db.schedules, now);
    var wechat := new W.WeChatClient();
    var d := db;
    for k := 0 to |due|
      invariant |d.schedules| == |db.schedules|
      invariant RunFrom(db, W.EmptyCache, due, now, r, kind) == RunFrom(d, wechat.Cache(), due[k..], now, r, kind)
      invariant forall call :: AtOneInstant(r, call) ==> GrantKept(wechat.Cache(), wechat.tokenRequests, call)
    {
      assert due[k..][0] == due[k] && due[k..][1..] == due[k + 1..];
      var run := HandleSchedule(wechat, d, due[k], now, r, kind);
      if run.Aborted? {
        return db, wechat.tokenRequests;
      }
      d := run.db;
    }
    after := d;
    tokenRequests := wechat.tokenRequests;
  }

  // ---------------------------------------------------------------------------
  // Properties of the publish run

  /** What one step may do to a schedule row: leave it, or set its status to
      completed or failed. */
  predicate RowEvolved(before: ScheduleRow, after: ScheduleRow) {
    after == before || after == before.(status := Completed) || after == before.(status := Failed)
  }

  /** What a run may do to an article: leave it, or publish an approved one at `now`. */
  predicate ArticleEvolved(before: ArticleRow, after: ArticleRow, now: DateTime) {
    after == before || (before.status == Approved && after == before.(status := PublishedStatus, publishedAt := Some(now)))
  }

  /** The invariant a run keeps between the database it started from and the current one. */
  predicate Evolved(db: Db, d: Db, touched: seq<nat>, now: DateTime) {
    && |d.schedules| == |db.schedules|
    && d.articles.Keys == db.articles.Keys
    && (forall i :: 0 <= i < |db.schedules| && i !in touched ==> d.schedules[i] == db.schedules[i])
    && (forall i :: 0 <= i < |db.schedules| ==> RowEvolved(db.schedules[i], d.schedules[i]))
    && (forall a :: a in db.articles ==> ArticleEvolved(db.articles[a], d.articles[a], now))
    && (forall i :: 0 <= i < |db.schedules| && d.schedules[i].status == Completed && db.schedules[i].status != Completed ==>
          HasArticle(d, d.schedules[i]) && d.articles[d.schedules[i].articleId.value].status == PublishedStatus
          && d.articles[d.schedules[i].articleId.value].publishedAt == Some(now))
  }

  lemma {:induction false} EvolvedRefl(db: Db, now: DateTime)
    ensures Evolved(db, db, [], now)
  {
  }

  lemma {:induction false} EvolvedStep(db: Db, d: Db, c: W.TokenCache, touched: seq<nat>, j: nat, now: DateTime, r: Replies,
                                       kind: PayloadKind)
    requires Evolved(db, d, touched, now) && j < |d.schedules|
    requires Step(d, c, j, now, r, kind).Continue?
    ensures Evolved(db, Step(d, c, j, now, r, kind).db, touched + [j], now)
  {
    var d1 := Step(d, c, j, now, r, kind).db;
    var s := d.schedules[j];
    if d1 != d {
      var aid := s.articleId.value;
      assert d.articles[aid].status == Approved;
      forall i | 0 <= i < |db.schedules| && d1.schedules[i].status == Completed && db.schedules[i].status != Completed
        ensures HasArticle(d1, d1.schedules[i]) && d1.articles[d1.schedules[i].articleId.value].status == PublishedStatus
          && d1.articles[d1.schedules[i].articleId.value].publishedAt == Some(now)
      {
        if i != j {
          assert d1.schedules[i] == d.schedules[i];
          var b := d.schedules[i].articleId.value;
          assert d.articles[b].status == PublishedStatus;
          assert b != aid;
        }
      }
    }
  }

  lemma {:induction false} RunEvolves(db: Db, d: Db, c: W.TokenCache, touched: seq<nat>, due: seq<nat>, now: DateTime,
                                      r: Replies, kind: PayloadKind)
    requires Evolved(db, d, touched, now) && IndicesIn(due, |d.schedules|)
    requires RunFrom(d, c, due, now, r, kind).Continue?
    ensures Evolved(db, RunFrom(d, c, due, now, r, kind).db, touched + due, now)
    decreases |due|
  {
    if |due| == 0 {
      assert touched + due == touched;
    } else {
      var step := Step(d, c, due[0], now, r, kind);
      EvolvedStep(db, d, c, touched, due[0], now, r, kind);
      RunEvolves(db, step.db, step.cache, touched + [due[0]], due[1..], now, r, kind);
      assert touched + [due[0]] + due[1..] == touched + due;
    }
  }

  /** The run leaves every schedule that is not due unchanged, sets due ones
      only to completed or failed, changes articles only by publishing approved
      ones at the run's `now`, and completes a schedule only when its article
      is then published at `now`. */
  lemma {:induction false} AutoPublishRule(db: Db, now: DateTime, r: Replies, kind: PayloadKind)
    ensures var after := AutoPublish(db, now, r, kind);
      && |after.schedules| == |db.schedules| && after.articles.Keys == db.articles.Keys
      && (forall i :: 0 <= i < |db.schedules| && !Due(db.schedules[i], now) ==> after.schedules[i] == db.schedules[i])
      && (forall i :: 0 <= i < |db.schedules| ==> RowEvolved(db.schedules[i], after.schedules[i]))
      && (forall a :: a in db.articles ==> ArticleEvolved(db.articles[a], after.articles[a], now))
      && (forall i :: 0 <= i < |db.schedules| && after.schedules[i].status == Completed && db.schedules[i].status != Completed ==>
            HasArticle(after, after.schedules[i]) && after.articles[after.schedules[i].articleId.value].status == PublishedStatus
            && after.articles[after.schedules[i].articleId.value].publishedAt == Some(now))
  {
    var due := DueIndices(db.schedules, now);
    var run := RunFrom(db, W.EmptyCache, due, now, r, kind);
    EvolvedRefl(db, now);
    if run.Continue? {
      RunEvolves(db, db, W.EmptyCache, [], due, now, r, kind);
      assert [] + due == due;
    }
  }

  /** A schedule whose article is not approved when the run starts stays as it
      is, and so does the article: nothing makes an article approved. */
  lemma {:induction false} NotApprovedUntouched(d: Db, c: W.TokenCache, due: seq<nat>, now: DateTime, r: Replies,
                                                kind: PayloadKind, i: nat)
    requires IndicesIn(due, |d.schedules|) && i < |d.schedules| && HasArticle(d, d.schedules[i])
    requires d.articles[d.schedules[i].articleId.value].status != Approved
    requires RunFrom(d, c, due, now, r, kind).Continue?
    ensures var after := RunFrom(d, c, due, now, r, kind).db;
      |after.schedules| == |d.schedules| && after.articles.Keys == d.articles.Keys && after.schedules[i] == d.schedules[i]
      && after.articles[d.schedules[i].articleId.value] == d.articles[d.schedules[i].articleId.value]
    decreases |due|
  {
    if |due| > 0 {
      var step := Step(d, c, due[0], now, r, kind);
      assert step.db.schedules[i] == d.schedules[i];
      NotApprovedUntouched(step.db, step.cache, due[1..], now, r, kind, i);
    }
  }

  /** As written, `publish` receives `to_dict()`, which has no `html_content`:
      every approved article makes `publish` raise `KeyError`, so a run either
      finds nothing to publish or ends in the exception handler.  Either way no
      row changes. */
  lemma {:induction false} AsWrittenPublishesNothing(d: Db, c: W.TokenCache, due: seq<nat>, now: DateTime, r: Replies)
    requires IndicesIn(due, |d.schedules|)
    ensures RunFrom(d, c, due, now, r, ToDictOnly) == Aborted || RunFrom(d, c, due, now, r, ToDictOnly) == Continue(d, c)
    decreases |due|
  {
    if |due| > 0 {
      AsWrittenPublishesNothing(d, c, due[1..], now, r);
    }
  }

  lemma {:induction false} AsWrittenAutoPublishChangesNothing(db: Db, now: DateTime, r: Replies)
    ensures AutoPublish(db, now, r, ToDictOnly) == db
  {
    AsWrittenPublishesNothing(db, W.EmptyCache, DueIndices(db.schedules, now), now, r);
  }

  /** With `html_content` in the payload, an approved article is staged with its
      HTML as content, and a staging and a broadcast that both obtain a token
      and succeed complete its schedule. */
  lemma {:induction false} WithHtmlPublishes(d: Db, c: W.TokenCache, j: nat, now: DateTime, r: Replies)
    requires j < |d.schedules| && HasArticle(d, d.schedules[j])
    requires d.articles[d.schedules[j].articleId.value].status == Approved
    ensures var s := d.schedules[j];
      var a := d.articles[s.articleId.value];
      var p := Payload(WithHtml, s.articleId.value, a);
      var t := W.Checks(c, p, r.calls(s.id));
      var staged := W.StagedPackage(t.image, p, r.image(s.id));
      staged.Some? && staged.value.content == a.htmlContent
      && (W.StagingSucceeded(t.news, r.news(s.id)) && t.send && r.send(s.id).SendAnswered? && r.send(s.id).errcode == Some(0) ==>
            Step(d, c, j, now, r, WithHtml).Continue?
            && Step(d, c, j, now, r, WithHtml).db.schedules[j].status == Completed)
  {
  }


  // ---------------------------------------------------------------------------
  // Daily article generation

  /** `get_trending_topics` */
  const TrendingTopics: seq<string> := ["人工智能最新进展", "健康生活方式", "投资理财技巧"]

  /** At most this many topics are turned into articles per run. */
  const ArticlesPerRun: nat := 3

  function GenerateParamsFor(topic: string): L.GenerateParams {
    L.GenerateParams(Some(topic), None, Some("informative"), Some(1500))
  }

  /** The draft row saved for a generated article; `convert` is the Markdown renderer. */
  function DraftRow(a: L.ArticleDraft, convert: string -> string, utcNow: DateTime): ArticleRow {
    NewArticle(a.title, a.content, Some(a.content), Some(convert(a.content)), Some(DefaultArticleStatus), Some(a.keywords), utcNow)
  }

  /** The rows added to the session for the topics, in order; failed generations are skipped. */
  function Drafted(svc: L.Service, topics: seq<string>, convert: string -> string, utcNow: DateTime): (rows: seq<ArticleRow>)
    ensures |rows| <= |topics|
    ensures forall i :: 0 <= i < |rows| ==>
      rows[i].status == DefaultArticleStatus && rows[i].tags == Some([]) && rows[i].markdownContent == Some(rows[i].content)
  {
    if |topics| == 0 then []
    else
      var last := L.GenerateArticle(svc, GenerateParamsFor(topics[|topics| - 1]));
      Drafted(svc, topics[..|topics| - 1], convert, utcNow) + (if last.Some? then [DraftRow(last.value, convert, utcNow)] else [])
  }

  /** One more topic adds at most its own row. */
  lemma {:induction false} DraftedStep(svc: L.Service, topics: seq<string>, i: nat, convert: string -> string, utcNow: DateTime)
    requires i < |topics|
    ensures var draft := L.GenerateArticle(svc, GenerateParamsFor(topics[i]));
      Drafted(svc, topics[..i + 1], convert, utcNow)
        == Drafted(svc, topics[..i], convert, utcNow) + (if draft.Some? then [DraftRow(draft.value, convert, utcNow)] else [])
  {
    assert topics[..i + 1][..i] == topics[..i];
  }

  /** `commit` refuses a row without a title (`title` is NOT NULL). */
  predicate AllTitled(rows: seq<ArticleRow>) {
    forall i :: 0 <= i < |rows| ==> rows[i].title.Some?
  }

  lemma {:induction false} AllTitledStep(rows: seq<ArticleRow>, i: nat)
    requires i < |rows|
    ensures AllTitled(rows[..i + 1]) <==> AllTitled(rows[..i]) && rows[i].title.Some?
  {
    assert forall j :: 0 <= j < i ==> rows[..i + 1][j] == rows[..i][j];
  }

  /** `auto_generate_article`: the rows it commits (ids are assigned by the database). */
  method AutoGenerateArticle(svc: L.Service, convert: string -> string, utcNow: DateTime) returns (saved: seq<ArticleRow>)
    ensures var pending := Drafted(svc, SliceTo(TrendingTopics, ArticlesPerRun), convert, utcNow);
      saved == (if AllTitled(pending) then pending else [])
    ensures |saved| <= ArticlesPerRun
  {
    var topics := SliceTo(TrendingTopics, ArticlesPerRun);
    var pending: seq<ArticleRow> := [];
    for i := 0 to |topics|
      invariant pending == Drafted(svc, topics[..i], convert, utcNow)
    {
      DraftedStep(svc, topics, i, convert, utcNow);
      var draft := L.GenerateArticle(svc, GenerateParamsFor(topics[i]));
      if draft.Some? {
        var row := DraftRow(draft.value, convert, utcNow);
        pending := pending + [row];
      }
    }
    assert topics[..|topics|] == topics;
    var titled := true;
    for i := 0 to |pending|
      invariant titled == AllTitled(pending[..i])
    {
      AllTitledStep(pending, i);
      if pending[i].title.None? {
        titled := false;
      }
    }
    assert pending[..|pending|] == pending;
    saved := if titled then pending else [];
  }

  /** Without a configured LLM every draft has no title, so the commit fails and nothing is saved. */
  lemma {:induction false} NoBackendSavesNothing(topics: seq<string>, convert: string -> string, utcNow: DateTime)
    requires |topics| > 0
    ensures !AllTitled(Drafted(L.Service(None, None), topics, convert, utcNow))
  {
    L.GenerateWithoutBackend(GenerateParamsFor(topics[|topics| - 1]));
    var rows := Drafted(L.Service(None, None), topics, convert, utcNow);
    assert rows[|rows| - 1].title == None;
  }
}
