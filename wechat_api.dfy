/** The WeChat official-account publishing client (backend/services/wechat_api.py).

    The client caches one access token with an expiry time.  Publishing is a
    two-step protocol: an optional cover upload, then staging a news package
    (`material/add_news`), then broadcasting it (`message/mass/sendall`).
    Every HTTP exchange is replaced by the reply the server gives, passed in as
    a parameter; the clock reading `time.time()` is the parameter `now`, and
    each of the token lookups inside one `publish` has its own reading and
    reply (`TokenCall`).  Ghost counters record how many requests each
    endpoint received. */
module WeChatApi {

  import opened Options

  /** Seconds a token lives when the reply carries no `expires_in`. */
  const DefaultExpiresIn: int := 7200
  /** The token is refreshed this many seconds before the server's expiry. */
  const ExpiryMargin: int := 300

  const PublishedMessage := "发布成功"
  const TokenFailureMessage := "获取access_token失败"
  const StagingFailureMessage := "上传图文消息失败"
  const BroadcastFailurePrefix := "发布失败: "
  const UnknownError := "未知错误"
  const BroadcastExceptionPrefix := "发布异常: "

  /** Reply to `GET /token`. */
  datatype TokenReply =
    | TokenGranted(accessToken: string, expiresIn: Option<int>)  // the JSON has "access_token"
    | TokenRefused                                              // a JSON error object without it
    | TokenRequestFailed                                        // network error or a body that is not JSON

  /** Reply to `media/upload` and `material/add_news`. */
  datatype MediaReply =
    | MediaStored(mediaId: string)  // the JSON has "media_id"
    | MediaRefused                  // a JSON error object without it
    | MediaRequestFailed            // network error, unreadable file, or a body that is not JSON

  /** Reply to `message/mass/sendall`; absent JSON keys are `None`. */
  datatype SendReply =
    | SendAnswered(errcode: Option<int>, errmsg: Option<string>, msgId: Option<int>, msgDataId: Option<int>)
    | SendRequestFailed(error: string)

  /** The dictionary `{success, message, msg_id, msg_data_id}` returned by `send_all` and `publish`. */
  datatype PublishResult =
    | Published(msgId: Option<int>, msgDataId: Option<int>)
    | NotPublished(message: string)
  {
    predicate Success() { Published? }

    function Message(): string { if Published? then PublishedMessage else message }
  }

  /** What `publish` does: it returns a result, or it raises `KeyError` when
      the article dictionary lacks `title` or `html_content`. */
  datatype PublishOutcome = Returned(result: PublishResult) | RaisedKeyError(key: string)

  /** A key of a Python dictionary: absent, or present with a value. */
  datatype Field<T> = Missing | Present(value: T)

  /** The article dictionary handed to `publish`.  `title` and `html_content`
      are read with `article[...]`, so their absence matters; the others are read
      with `.get`, and `None` stands for an absent key. */
  datatype ArticleDict = ArticleDict(
    title: Field<Option<string>>,
    htmlContent: Field<Option<string>>,
    coverImage: Option<string>,
    author: Option<string>,
    digest: Option<string>,
    sourceUrl: Option<string>)

  /** The news article sent to `material/add_news`; a `None` title or content
      is sent as JSON `null`. */
  datatype NewsArticle = NewsArticle(
    title: Option<string>,
    author: string,
    digest: string,
    content: Option<string>,
    contentSourceUrl: string,
    thumbMediaId: string,
    showCoverPic: int,
    needOpenComment: int,
    onlyFansCanComment: int)

  /** Python truthiness of an optional string. */
  predicate Truthy(s: Option<string>) {
    s.Some? && s.value != ""
  }

  /** The cached credential: `self.access_token` and `self.token_expires_at`. */
  datatype TokenCache = TokenCache(accessToken: Option<string>, expiresAt: real)

  /** The state of a freshly constructed client. */
  const EmptyCache := TokenCache(None, 0.0)

  /** The cached token may be reused at time `now`. */
  predicate CacheValid(c: TokenCache, now: real) {
    Truthy(c.accessToken) && now < c.expiresAt
  }

  /** One call of `get_access_token`: the token it returns, whether it asked the
      server, and the cache afterwards. */
  datatype TokenLookup = TokenLookup(token: Option<string>, fetched: bool, cache: TokenCache)

  function AccessToken(c: TokenCache, now: real, reply: TokenReply): (r: TokenLookup)
    ensures r.fetched == !CacheValid(c, now)
    ensures !r.fetched ==> r.token == c.accessToken && r.cache == c
    ensures r.fetched && reply.TokenGranted? ==>
      r.token == Some(reply.accessToken)
      && r.cache == TokenCache(Some(reply.accessToken), now + reply.expiresIn.GetOr(DefaultExpiresIn) as real - ExpiryMargin as real)
    ensures r.fetched && !reply.TokenGranted? ==> r.token == None && r.cache == c
  {
    if CacheValid(c, now) then TokenLookup(c.accessToken, false, c)
    else match reply
      case TokenGranted(t, e) =>
        TokenLookup(Some(t), true, TokenCache(Some(t), now + e.GetOr(DefaultExpiresIn) as real - ExpiryMargin as real))
      case _ => TokenLookup(None, true, c)
  }

  /** The server's reply yields a usable token that stays valid at `now`. */
  predicate LastingGrant(reply: TokenReply) {
    reply.TokenGranted? && reply.accessToken != "" && reply.expiresIn.GetOr(DefaultExpiresIn) > ExpiryMargin
  }

  /** `get_access_token` yields a truthy token at `now`, from the cache or from the server. */
  predicate TokenObtainable(c: TokenCache, now: real, reply: TokenReply) {
    CacheValid(c, now) || (reply.TokenGranted? && reply.accessToken != "")
  }

  /** A token is returned truthy exactly when it is obtainable, and asking again
      at the same instant with the same server reply changes nothing more. */
  lemma {:induction false} AccessTokenRepeat(c: TokenCache, now: real, reply: TokenReply)
    ensures Truthy(AccessToken(c, now, reply).token) <==> TokenObtainable(c, now, reply)
    ensures var c1 := AccessToken(c, now, reply).cache;
      AccessToken(c1, now, reply).cache == c1
      && AccessToken(c1, now, reply).token == AccessToken(c, now, reply).token
      && (TokenObtainable(c1, now, reply) <==> TokenObtainable(c, now, reply))
  {
  }

  /** A token with the default lifetime fetched at `t` is reused 100 seconds
      later and fetched again 7000 seconds later, which is within 300 seconds
      of the server's 7200-second expiry. */
  lemma {:induction false} TokenReuseWindow(t: real, token: string, later: TokenReply)
    requires token != ""
    ensures var first := AccessToken(EmptyCache, t, TokenGranted(token, None));
      first.fetched && first.token == Some(token)
      && first.cache.expiresAt == t + 6900.0
      && !AccessToken(first.cache, t + 100.0, later).fetched
      && AccessToken(first.cache, t + 100.0, later).token == Some(token)
      && AccessToken(first.cache, t + 7000.0, later).fetched
  {
  }

  /** After a grant that outlives the margin, every later call at the same
      instant is answered from the cache. */
  lemma {:induction false} LastingGrantIsCached(c: TokenCache, now: real, reply: TokenReply, next: TokenReply)
    requires LastingGrant(reply)
    ensures var c1 := AccessToken(c, now, reply).cache;
      CacheValid(c1, now) && !AccessToken(c1, now, next).fetched
  {
  }

  /** How the cache `c` and the request count `n` may have moved from `c0`
      and `n0` through any number of `get_access_token` calls at the instant
      `now` with the same server reply: the cache is either untouched or the
      one a single call leaves; it is untouched when nothing was requested; a
      lasting grant is requested at most once and then stays valid; a valid
      cache is never refreshed. */
  predicate CacheStep(c0: TokenCache, n0: nat, c: TokenCache, n: nat, now: real, reply: TokenReply) {
    && n0 <= n
    && (c == c0 || c == AccessToken(c0, now, reply).cache)
    && (n == n0 ==> c == c0)
    && (LastingGrant(reply) ==> n <= n0 + 1)
    && (LastingGrant(reply) && n > n0 ==> CacheValid(c, now))
    && (CacheValid(c0, now) ==> CacheValid(c, now) && n == n0)
  }

  /** One call of `get_access_token` is such a step. */
  lemma {:induction false} CacheStepOne(c0: TokenCache, n0: nat, now: real, reply: TokenReply)
    ensures var r := AccessToken(c0, now, reply);
      CacheStep(c0, n0, r.cache, n0 + (if r.fetched then 1 else 0), now, reply)
  {
  }

  /** Two steps at the same instant with the same reply make one step. */
  lemma {:induction false} CacheStepCompose(c0: TokenCache, n0: nat, c1: TokenCache, n1: nat,
                                             c2: TokenCache, n2: nat, now: real, reply: TokenReply)
    requires CacheStep(c0, n0, c1, n1, now, reply) && CacheStep(c1, n1, c2, n2, now, reply)
    ensures CacheStep(c0, n0, c2, n2, now, reply)
  {
    AccessTokenRepeat(c0, now, reply);
  }

  /** The result mapping of `send_all` once a token was obtained. */
  function BroadcastResult(reply: SendReply): (r: PublishResult)
    ensures r.Success() <==> reply.SendAnswered? && reply.errcode == Some(0)
    ensures r.Success() ==> r.msgId == reply.msgId && r.msgDataId == reply.msgDataId && r.Message() == PublishedMessage
    ensures reply.SendAnswered? && reply.errcode != Some(0) ==>
      r.Message() == BroadcastFailurePrefix + reply.errmsg.GetOr(UnknownError)
    ensures reply.SendRequestFailed? ==> r.Message() == BroadcastExceptionPrefix + reply.error
  {
    match reply
    case SendAnswered(code, msg, id, dataId) =>
      if code == Some(0) then Published(id, dataId)
      else NotPublished(BroadcastFailurePrefix + msg.GetOr(UnknownError))
    case SendRequestFailed(e) => NotPublished(BroadcastExceptionPrefix + e)
  }

  /** One call of `get_access_token`: the clock reading `time.time()` at that
      call, and the reply the server gives if it is asked. */
  datatype TokenCall = TokenCall(now: real, reply: TokenReply)

  /** The three `get_access_token` calls `publish` may make, in order: inside
      the cover upload, inside `upload_news` and inside `send_all`. */
  datatype PublishCalls = PublishCalls(cover: TokenCall, stage: TokenCall, send: TokenCall)

  /** Whether each of those three calls yields a truthy token. */
  datatype TokenChecks = TokenChecks(image: bool, news: bool, send: bool)

  function Lookup(c: TokenCache, call: TokenCall): TokenLookup {
    AccessToken(c, call.now, call.reply)
  }

  predicate Obtainable(c: TokenCache, call: TokenCall) {
    TokenObtainable(c, call.now, call.reply)
  }

  /** The cache after the cover upload, which asks for a token only when
      `cover_image` is truthy. */
  function CacheAfterCover(c0: TokenCache, a: ArticleDict, calls: PublishCalls): TokenCache {
    if Truthy(a.coverImage) then Lookup(c0, calls.cover).cache else c0
  }

  /** The cache after the token lookup of `upload_news`. */
  function CacheAfterStaging(c0: TokenCache, a: ArticleDict, calls: PublishCalls): TokenCache {
    Lookup(CacheAfterCover(c0, a, calls), calls.stage).cache
  }

  /** The token checks of one `publish` call starting from the cache `c0`;
      each lookup sees the cache the previous one left. */
  function Checks(c0: TokenCache, a: ArticleDict, calls: PublishCalls): TokenChecks {
    TokenChecks(Obtainable(c0, calls.cover),
                Obtainable(CacheAfterCover(c0, a, calls), calls.stage),
                Obtainable(CacheAfterStaging(c0, a, calls), calls.send))
  }

  /** The cover's media id in `publish`, where `ok` says whether the cover
      upload obtained a token: the cover is uploaded only when `cover_image`
      is truthy. */
  function CoverMediaId(ok: bool, a: ArticleDict, imageReply: MediaReply): (m: Option<string>)
    ensures m.Some? <==> Truthy(a.coverImage) && ok && imageReply.MediaStored?
    ensures m.Some? ==> imageReply == MediaStored(m.value)
  {
    if Truthy(a.coverImage) && ok && imageReply.MediaStored? then Some(imageReply.mediaId) else None
  }

  /** The news article `publish` hands to `upload_news`, or `None` when a key
      it reads with `article[...]` is missing. */
  function StagedPackage(ok: bool, a: ArticleDict, imageReply: MediaReply): (p: Option<NewsArticle>)
    ensures p.Some? <==> a.title.Present? && a.htmlContent.Present?
    ensures p.Some? ==>
      && p.value.title == a.title.value && p.value.content == a.htmlContent.value
      && p.value.author == a.author.GetOr("") && p.value.digest == a.digest.GetOr("")
      && p.value.contentSourceUrl == a.sourceUrl.GetOr("")
      && p.value.showCoverPic == 1 && p.value.needOpenComment == 1 && p.value.onlyFansCanComment == 0
    ensures p.Some? && Truthy(CoverMediaId(ok, a, imageReply)) ==> p.value.thumbMediaId == imageReply.mediaId
    ensures p.Some? && !Truthy(CoverMediaId(ok, a, imageReply)) ==> p.value.thumbMediaId == ""
  {
    if a.title.Missing? || a.htmlContent.Missing? then None
    else
      var cover := CoverMediaId(ok, a, imageReply);
      Some(NewsArticle(a.title.value, a.author.GetOr(""), a.digest.GetOr(""), a.htmlContent.value,
                       a.sourceUrl.GetOr(""), if Truthy(cover) then cover.value else "", 1, 1, 0))
  }

  /** Staging succeeded: `upload_news` obtained a token and returned a truthy media id. */
  predicate StagingSucceeded(ok: bool, newsReply: MediaReply) {
    ok && newsReply.MediaStored? && newsReply.mediaId != ""
  }

  /** The second half of `publish`: `okNews` and `okSend` say whether the
      lookups of `upload_news` and `send_all` obtained a token. */
  function StageResult(okNews: bool, okSend: bool, newsReply: MediaReply, sendReply: SendReply): PublishResult {
    if !StagingSucceeded(okNews, newsReply) then NotPublished(StagingFailureMessage)
    else if okSend then BroadcastResult(sendReply)
    else NotPublished(TokenFailureMessage)
  }

  /** What `publish` does under the token checks `t`. */
  function PublishOutcomeFor(t: TokenChecks, a: ArticleDict, imageReply: MediaReply, newsReply: MediaReply,
                             sendReply: SendReply): (o: PublishOutcome)
    ensures a.title.Missing? ==> o == RaisedKeyError("title")
    ensures a.title.Present? && a.htmlContent.Missing? ==> o == RaisedKeyError("html_content")
    ensures o.RaisedKeyError? <==> StagedPackage(t.image, a, imageReply).None?
    ensures o.Returned? && !StagingSucceeded(t.news, newsReply) ==> o.result == NotPublished(StagingFailureMessage)
    ensures o.Returned? && StagingSucceeded(t.news, newsReply) && !t.send ==> o.result == NotPublished(TokenFailureMessage)
    ensures o.Returned? && StagingSucceeded(t.news, newsReply) && t.send ==> o.result == BroadcastResult(sendReply)
  {
    if StagedPackage(t.image, a, imageReply).None? then
      (if a.title.Missing? then RaisedKeyError("title") else RaisedKeyError("html_content"))
    else Returned(StageResult(t.news, t.send, newsReply, sendReply))
  }

  /** The cache `publish` leaves behind. */
  function CacheAfterPublish(c0: TokenCache, a: ArticleDict, calls: PublishCalls, newsReply: MediaReply): TokenCache {
    if a.title.Missing? || a.htmlContent.Missing? then CacheAfterCover(c0, a, calls)
    else if StagingSucceeded(Checks(c0, a, calls).news, newsReply) then Lookup(CacheAfterStaging(c0, a, calls), calls.send).cache
    else CacheAfterStaging(c0, a, calls)
  }

  /** Token requests one lookup sends: one when the cache cannot serve it. */
  function Fetches(c: TokenCache, call: TokenCall): nat {
    if Lookup(c, call).fetched then 1 else 0
  }

  /** Token requests one `publish` call sends, starting from the cache `c0`. */
  function PublishFetches(c0: TokenCache, a: ArticleDict, calls: PublishCalls, newsReply: MediaReply): nat {
    (if Truthy(a.coverImage) then Fetches(c0, calls.cover) else 0)
    + (if a.title.Missing? || a.htmlContent.Missing? then 0
       else Fetches(CacheAfterCover(c0, a, calls), calls.stage)
            + (if StagingSucceeded(Checks(c0, a, calls).news, newsReply)
               then Fetches(CacheAfterStaging(c0, a, calls), calls.send) else 0))
  }

  /** When all lookups of one `publish` happen at one instant with one reply,
      the cache and the request count move by one `CacheStep`: after a lasting
      grant no further request is sent. */
  lemma {:induction false} OneInstantPublishStep(c0: TokenCache, n0: nat, a: ArticleDict, call: TokenCall, newsReply: MediaReply)
    ensures var calls := PublishCalls(call, call, call);
      CacheStep(c0, n0, CacheAfterPublish(c0, a, calls, newsReply), n0 + PublishFetches(c0, a, calls, newsReply),
                call.now, call.reply)
  {
    var calls := PublishCalls(call, call, call);
    var c1 := CacheAfterCover(c0, a, calls);
    var n1 := n0 + (if Truthy(a.coverImage) then Fetches(c0, call) else 0);
    CacheStepOne(c0, n0, call.now, call.reply);
    assert CacheStep(c0, n0, c1, n1, call.now, call.reply);
    if a.title.Present? && a.htmlContent.Present? {
      var c2 := CacheAfterStaging(c0, a, calls);
      var n2 := n1 + Fetches(c1, call);
      CacheStepOne(c1, n1, call.now, call.reply);
      CacheStepCompose(c0, n0, c1, n1, c2, n2, call.now, call.reply);
      if StagingSucceeded(Checks(c0, a, calls).news, newsReply) {
        CacheStepOne(c2, n2, call.now, call.reply);
        CacheStepCompose(c0, n0, c2, n2, Lookup(c2, call).cache, n2 + Fetches(c2, call), call.now, call.reply);
      }
    }
  }

  /** The token checks, final cache and request count of `publish` put
      together from those of the cover upload and of the second half. */
  lemma {:induction false} PublishPieces(c0: TokenCache, a: ArticleDict, calls: PublishCalls, newsReply: MediaReply)
    ensures var c1 := CacheAfterCover(c0, a, calls);
      var t := Checks(c0, a, calls);
      && t.image == Obtainable(c0, calls.cover)
      && t.news == Obtainable(c1, calls.stage)
      && t.send == Obtainable(Lookup(c1, calls.stage).cache, calls.send)
      && (a.title.Missing? || a.htmlContent.Missing? ==>
            CacheAfterPublish(c0, a, calls, newsReply) == c1
            && PublishFetches(c0, a, calls, newsReply) == (if Truthy(a.coverImage) then Fetches(c0, calls.cover) else 0))
      && (a.title.Present? && a.htmlContent.Present? ==>
            CacheAfterPublish(c0, a, calls, newsReply)
              == (if StagingSucceeded(t.news, newsReply) then Lookup(Lookup(c1, calls.stage).cache, calls.send).cache
                  else Lookup(c1, calls.stage).cache)
            && PublishFetches(c0, a, calls, newsReply)
              == (if Truthy(a.coverImage) then Fetches(c0, calls.cover) else 0) + Fetches(c1, calls.stage)
                 + (if StagingSucceeded(t.news, newsReply) then Fetches(Lookup(c1, calls.stage).cache, calls.send) else 0))
  {
  }

  /** `publish` reports success only when staging obtained a token and a media
      id, the broadcast obtained a token, and the broadcast answered
      `errcode == 0`; it reports the token failure of `send_all` only when
      staging succeeded and the broadcast's own lookup then failed. */
  lemma {:induction false} PublishSuccessNeedsBoth(t: TokenChecks, a: ArticleDict, imageReply: MediaReply, newsReply: MediaReply,
                                sendReply: SendReply)
    ensures var o := PublishOutcomeFor(t, a, imageReply, newsReply, sendReply);
      && (o.Returned? && o.result.Success() ==>
            StagingSucceeded(t.news, newsReply) && t.send && sendReply.SendAnswered? && sendReply.errcode == Some(0))
      && (o.Returned? && o.result.Message() == TokenFailureMessage <==>
            StagedPackage(t.image, a, imageReply).Some? && StagingSucceeded(t.news, newsReply) && !t.send)
  {
    var o := PublishOutcomeFor(t, a, imageReply, newsReply, sendReply);
    if o.Returned? && StagingSucceeded(t.news, newsReply) && t.send {
      if o.result.Success() {
        assert o.result.Message()[1] != TokenFailureMessage[1];
      } else {
        assert o.result.Message()[0] != TokenFailureMessage[0];
      }
    }
    if o.Returned? && !StagingSucceeded(t.news, newsReply) {
      assert o.result.Message()[0] != TokenFailureMessage[0];
    }
  }

  /** When all three lookups happen at one instant with one server reply,
      the broadcast's lookup succeeds whenever staging's did, so `publish`
      never reports the token failure of `send_all`. */
  lemma {:induction false} OneInstantNoTokenFailure(c0: TokenCache, a: ArticleDict, call: TokenCall, imageReply: MediaReply,
                                                    newsReply: MediaReply, sendReply: SendReply)
    ensures var t := Checks(c0, a, PublishCalls(call, call, call));
      (t.news ==> t.send)
      && var o := PublishOutcomeFor(t, a, imageReply, newsReply, sendReply);
      (o.Returned? ==> o.result.Message() != TokenFailureMessage)
  {
    var calls := PublishCalls(call, call, call);
    AccessTokenRepeat(c0, call.now, call.reply);
    AccessTokenRepeat(CacheAfterCover(c0, a, calls), call.now, call.reply);
    PublishSuccessNeedsBoth(Checks(c0, a, calls), a, imageReply, newsReply, sendReply);
  }

  /** With a clock that moves on between the lookups, the broadcast's lookup
      can fail after staging succeeded: a token granted at time 0 for 400
      seconds is cached until time 100, and a refused request at time 200
      leaves `send_all` without a token. */
  lemma {:induction false} LateBroadcastLosesToken(sendReply: SendReply)
    ensures var a := ArticleDict(Present(Some("t")), Present(Some("<p>x</p>")), None, None, None, None);
      var calls := PublishCalls(TokenCall(0.0, TokenRefused), TokenCall(0.0, TokenGranted("tok", Some(400))),
                                TokenCall(200.0, TokenRefused));
      PublishOutcomeFor(Checks(EmptyCache, a, calls), a, MediaRefused, MediaStored("m"), sendReply)
        == Returned(NotPublished(TokenFailureMessage))
  {
  }

  class WeChatClient {
    var accessToken: Option<string>
    var tokenExpiresAt: real

    /** Requests sent to each endpoint so far. */
    ghost var tokenRequests: nat
    ghost var imageUploads: nat
    ghost var newsUploads: nat
    ghost var broadcasts: nat

    function Cache(): TokenCache
      reads this
    {
      TokenCache(accessToken, tokenExpiresAt)
    }

    predicate TokenValid(now: real)
      reads this
    {
      CacheValid(Cache(), now)
    }

    constructor ()
      ensures Cache() == EmptyCache
      ensures tokenRequests == 0 && imageUploads == 0 && newsUploads == 0 && broadcasts == 0
    {
      accessToken := None;
      tokenExpiresAt := 0.0;
      tokenRequests, imageUploads, newsUploads, broadcasts := 0, 0, 0, 0;
    }

    /** `get_access_token` */
    method GetAccessToken(now: real, reply: TokenReply) returns (token: Option<string>)
      modifies this
      ensures var r := AccessToken(old(Cache()), now, reply);
        token == r.token && Cache() == r.cache
        && tokenRequests == old(tokenRequests) + (if r.fetched then 1 else 0)
      ensures imageUploads == old(imageUploads) && newsUploads == old(newsUploads) && broadcasts == old(broadcasts)
    {
      if accessToken.Some? && accessToken.value != "" && now < tokenExpiresAt {
        return accessToken;
      }
      tokenRequests := tokenRequests + 1;
      match reply {
        case TokenGranted(t, e) =>
          accessToken := Some(t);
          tokenExpiresAt := now + e.GetOr(DefaultExpiresIn) as real - ExpiryMargin as real;
          token := accessToken;
        case _ =>
          token := None;
      }
    }

    /** `upload_image`: no upload is attempted without a token. */
    method UploadImage(now: real, tokenReply: TokenReply, reply: MediaReply) returns (mediaId: Option<string>)
      modifies this
      ensures var r := AccessToken(old(Cache()), now, tokenReply);
        Cache() == r.cache && tokenRequests == old(tokenRequests) + (if r.fetched then 1 else 0)
      ensures var ok := old(TokenObtainable(Cache(), now, tokenReply));
        imageUploads == old(imageUploads) + (if ok then 1 else 0)
        && mediaId == (if ok && reply.MediaStored? then Some(reply.mediaId) else None)
      ensures newsUploads == old(newsUploads) && broadcasts == old(broadcasts)
    {
      AccessTokenRepeat(Cache(), now, tokenReply);
      var token := GetAccessToken(now, tokenReply);
      if !Truthy(token) {
        return None;
      }
      imageUploads := imageUploads + 1;
      mediaId := if reply.MediaStored? then Some(reply.mediaId) else None;
    }

    /** `upload_news`: stages the news articles; nothing is sent without a token. */
    method UploadNews(articles: seq<NewsArticle>, now: real, tokenReply: TokenReply, reply: MediaReply)
      returns (mediaId: Option<string>)
      modifies this
      ensures var r := AccessToken(old(Cache()), now, tokenReply);
        Cache() == r.cache && tokenRequests == old(tokenRequests) + (if r.fetched then 1 else 0)
      ensures var ok := old(TokenObtainable(Cache(), now, tokenReply));
        newsUploads == old(newsUploads) + (if ok then 1 else 0)
        && mediaId == (if ok && reply.MediaStored? then Some(reply.mediaId) else None)
      ensures imageUploads == old(imageUploads) && broadcasts == old(broadcasts)
    {
      AccessTokenRepeat(Cache(), now, tokenReply);
      var token := GetAccessToken(now, tokenReply);
      if !Truthy(token) {
        return None;
      }
      newsUploads := newsUploads + 1;
      mediaId := if reply.MediaStored? then Some(reply.mediaId) else None;
    }

    /** `send_all`: without a token it reports the token failure and sends nothing. */
    method SendAll(mediaId: string, now: real, tokenReply: TokenReply, reply: SendReply)
      returns (result: PublishResult)
      modifies this
      ensures var r := AccessToken(old(Cache()), now, tokenReply);
        Cache() == r.cache && tokenRequests == old(tokenRequests) + (if r.fetched then 1 else 0)
      ensures var ok := old(TokenObtainable(Cache(), now, tokenReply));
        broadcasts == old(broadcasts) + (if ok then 1 else 0)
        && result == (if ok then BroadcastResult(reply) else NotPublished(TokenFailureMessage))
      ensures imageUploads == old(imageUploads) && newsUploads == old(newsUploads)
    {
      AccessTokenRepeat(Cache(), now, tokenReply);
      var token := GetAccessToken(now, tokenReply);
      if !Truthy(token) {
        return NotPublished(TokenFailureMessage);
      }
      broadcasts := broadcasts + 1;
      result := BroadcastResult(reply);
    }


    /** The cover upload at the start of `publish`, made only for a truthy
        `cover_image`. */
    method UploadCover(article: ArticleDict, call: TokenCall, imageReply: MediaReply) returns (cover: Option<string>)
      modifies this
      ensures cover == CoverMediaId(Obtainable(old(Cache()), call), article, imageReply)
      ensures Cache() == (if Truthy(article.coverImage) then Lookup(old(Cache()), call).cache else old(Cache()))
      ensures imageUploads == old(imageUploads) + (if Truthy(article.coverImage) && Obtainable(old(Cache()), call) then 1 else 0)
      ensures newsUploads == old(newsUploads) && broadcasts == old(broadcasts)
      ensures tokenRequests == old(tokenRequests) + (if Truthy(article.coverImage) then Fetches(old(Cache()), call) else 0)
    {
      cover := None;
      if Truthy(article.coverImage) {
        cover := UploadImage(call.now, call.reply, imageReply);
      }
    }

    /** `publish`: optional cover upload, staging, then broadcast, each asking
        for a token with its own call in `calls`.  `staged` is the news article
        handed to the staging call, if one was built. */
    method Publish(article: ArticleDict, calls: PublishCalls,
                   imageReply: MediaReply, newsReply: MediaReply, sendReply: SendReply)
      returns (outcome: PublishOutcome, staged: Option<NewsArticle>)
      modifies this
      ensures var t := Checks(old(Cache()), article, calls);
        && outcome == PublishOutcomeFor(t, article, imageReply, newsReply, sendReply)
        && staged == StagedPackage(t.image, article, imageReply)
        && Cache() == CacheAfterPublish(old(Cache()), article, calls, newsReply)
        && imageUploads == old(imageUploads) + (if Truthy(article.coverImage) && t.image then 1 else 0)
        && newsUploads == old(newsUploads) + (if staged.Some? && t.news then 1 else 0)
        && broadcasts == old(broadcasts) + (if staged.Some? && StagingSucceeded(t.news, newsReply) && t.send then 1 else 0)
      ensures tokenRequests == old(tokenRequests) + PublishFetches(old(Cache()), article, calls, newsReply)
    {
      ghost var c0 := Cache();
      ghost var t := Checks(c0, article, calls);
      PublishPieces(c0, article, calls, newsReply);
      var cover := UploadCover(article, calls.cover, imageReply);
      if article.title.Missing? || article.htmlContent.Missing? {
        outcome := if article.title.Missing? then RaisedKeyError("title") else RaisedKeyError("html_content");
        return outcome, None;
      }
      var news := NewsArticle(article.title.value, article.author.GetOr(""), article.digest.GetOr(""),
                              article.htmlContent.value, article.sourceUrl.GetOr(""),
                              if Truthy(cover) then cover.value else "", 1, 1, 0);
      staged := Some(news);
      assert staged == StagedPackage(t.image, article, imageReply);
      var result := StageAndSend(news, calls.stage, calls.send, newsReply, sendReply);
      outcome := Returned(result);
    }

    /** The second half of `publish`: staging the news article, then
        broadcasting it when staging returned a media id. */
    method StageAndSend(news: NewsArticle, stage: TokenCall, send: TokenCall, newsReply: MediaReply, sendReply: SendReply)
      returns (result: PublishResult)
      modifies this
      ensures var okNews := Obtainable(old(Cache()), stage);
        var c1 := Lookup(old(Cache()), stage).cache;
        var okSend := Obtainable(c1, send);
        && result == StageResult(okNews, okSend, newsReply, sendReply)
        && Cache() == (if StagingSucceeded(okNews, newsReply) then Lookup(c1, send).cache else c1)
        && newsUploads == old(newsUploads) + (if okNews then 1 else 0)
        && broadcasts == old(broadcasts) + (if StagingSucceeded(okNews, newsReply) && okSend then 1 else 0)
        && imageUploads == old(imageUploads)
      ensures tokenRequests == old(tokenRequests) + Fetches(old(Cache()), stage)
        + (if StagingSucceeded(Obtainable(old(Cache()), stage), newsReply) then Fetches(Lookup(old(Cache()), stage).cache, send) else 0)
    {
      var mediaId := UploadNews([news], stage.now, stage.reply, newsReply);
      if !Truthy(mediaId) {
        return NotPublished(StagingFailureMessage);
      }
      result := SendAll(mediaId.value, send.now, send.reply, sendReply);
    }
  }
}
