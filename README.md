# WeChat content automation, modelled in Dafny

The system drafts articles with a language model, tidies them for several
platforms, crawls WeChat public-account pages, validates articles and WeChat
credentials, and publishes approved articles to a WeChat official account
on a schedule. A React front end holds the settings, the signed-in user,
the article list and the publication calendar.

This project models the core of that system, one Dafny module per source
file:

- `WeChatApi` covers `backend/services/wechat_api.py`. `WeChatClient` is a
  class whose fields are the cached access token and its expiry. It also
  has ghost counters of the remote calls made. Staging a news package and
  mapping the broadcast reply are functions.
- `Tasks` covers `backend/tasks.py`. These are the scheduled publication
  run over the schedule and article tables, and the daily drafting run.
- `ContentOptimizer` covers `backend/services/content_optimizer.py`:
  masking sensitive words, engagement text, the summary, emojis, reading
  hints, the per-platform rewrites and the platform score.
- `Crawler` covers `backend/services/crawler.py`: text normalisation, image
  and meta extraction, and batch crawling.
- `LlmService` covers `backend/services/llm_service.py`: which backend is
  used, and what each call returns when that backend fails.
- `Validators` covers `backend/utils/validators.py`, including a
  character-level model of the cover-image URL regular expression.
- `Analytics` covers the integer parts of
  `backend/services/analytics_service.py`.
- `ImageService` covers `backend/services/image_service.py`: the cover
  prompt, the choice of backend, the `optimize_image` path rewrite, and the
  layout of the grid and strip collages.
- `Models` covers `backend/models.py`: column defaults and `to_dict`.
- `SettingsContext`, `AuthContext`, `ArticleManagement`, `PublishSchedule`
  and `SettingsPage` cover the React contexts and pages.

Some modules support the others. `Options` holds `Option`. `Json` models
JavaScript values, where an object spread is a map union. `Strings` models
Python and JavaScript string operations. `Lists` holds filtering.

The model takes remote replies, the clock, random draws and foreign
libraries as parameters. These are the WeChat, OpenAI, Anthropic and image
services, BeautifulSoup's `get_text()`, and PIL's image sizes. Where the
source mutates objects or loops, the model is a method with loop
invariants or a class with `modifies` clauses. Each such method is proved
against a function, and the lemmas state the properties of that function.

## Model

| member | source | states |
|---|---|---|
| WeChatApi.WeChatClient.constructor | backend/services/wechat_api.py:12-17 | A new client has no cached token and no expiry. |
| WeChatApi.AccessToken | backend/services/wechat_api.py:19-44 | A cached token is reused without a request while it is set and `now` is before its expiry. Otherwise a grant caches the token with expiry `now + expires_in - 300`, where `expires_in` defaults to 7200. A reply without a token, or a failed request, returns nothing and leaves the cache unchanged. |
| WeChatApi.WeChatClient.GetAccessToken | backend/services/wechat_api.py:19-44 | The returned token and the new cache are those of `AccessToken`. One token request is counted exactly when a fetch happens. No other remote call is made. |
| WeChatApi.AccessTokenRepeat | backend/services/wechat_api.py:21-44 | A truthy token comes back exactly when one is cached or granted. Asking again at the same instant with the same reply is a no-op on the cache and yields the same token. |
| WeChatApi.TokenReuseWindow | backend/services/wechat_api.py:35-38 | A token fetched at T with no `expires_in` expires at T+6900. It is reused at T+100 and fetched anew at T+7000. |
| WeChatApi.LastingGrantIsCached | backend/services/wechat_api.py:21-38 | After a grant lasting more than 300 s, the next call at the same time is served from the cache. |
| WeChatApi.CacheStepCompose | backend/services/wechat_api.py:19-44 | Successive token lookups at one instant with one reply compose. After a lasting grant they make no further request. |
| WeChatApi.OneInstantPublishStep | backend/services/wechat_api.py:102-136 | When the up to three token lookups of one `publish` happen at one instant with one reply, the cache and the request count move as one lookup would. After a lasting grant, no further request is sent. |
| WeChatApi.WeChatClient.UploadImage | backend/services/wechat_api.py:46-71 | With no obtainable token it returns None and makes no upload. Otherwise it makes one upload and returns the media id exactly when the reply holds one. |
| WeChatApi.WeChatClient.UploadNews | backend/services/wechat_api.py:73-100 | With no obtainable token it returns None and makes no upload. Otherwise it makes one news upload and returns its media id when the reply holds one. |
| WeChatApi.BroadcastResult | backend/services/wechat_api.py:161-175 | Success holds exactly when `errcode == 0`, and then carries the remote `msg_id` and `msg_data_id`. Any other errcode gives `发布失败: ` followed by `errmsg`, or `未知错误` when it is absent. A failed request gives a message prefixed `发布异常: `. |
| WeChatApi.WeChatClient.SendAll | backend/services/wechat_api.py:132-175 | With no obtainable token it returns `获取access_token失败` without broadcasting. Otherwise it makes one broadcast, and the result is `BroadcastResult` of the reply. |
| WeChatApi.CoverMediaId | backend/services/wechat_api.py:105-107 | A cover is uploaded, and its media id used, only when `cover_image` is truthy, a token is available and the upload succeeds. |
| WeChatApi.StagedPackage | backend/services/wechat_api.py:109-120 | The news package exists exactly when the dict has `title` and `html_content`. It copies those two, defaults author, digest and source URL to `''`, and sets the fixed comment and cover flags. The thumb id is `''` when the cover upload failed. |
| WeChatApi.PublishOutcomeFor | backend/services/wechat_api.py:102-136 | A missing `title` or `html_content` raises `KeyError`. A staging without a token or a media id gives `上传图文消息失败`. After a successful staging, a failed token lookup in `send_all` gives `获取access_token失败`. Otherwise the result is the broadcast result. |
| WeChatApi.WeChatClient.UploadCover | backend/services/wechat_api.py:105-107 | The cover is uploaded, with its own token lookup, only for a truthy `cover_image`. The media id is `CoverMediaId` of that lookup. |
| WeChatApi.WeChatClient.Publish | backend/services/wechat_api.py:102-130 | Each of the three token lookups has its own clock reading and reply, and sees the cache the previous lookup left. The outcome and the staged package are those of `PublishOutcomeFor` and `StagedPackage` under those lookups. The final cache and the request count follow the lookups made. A cover upload happens only for a truthy cover. The news upload happens only for a complete dict with a token. The broadcast happens only after a successful staging, when its own lookup yields a token. |
| WeChatApi.WeChatClient.StageAndSend | backend/services/wechat_api.py:122-130 | A staging without a token or a media id returns `上传图文消息失败` and never broadcasts. After a successful staging, a failed lookup returns `获取access_token失败`. Otherwise it broadcasts once. |
| WeChatApi.PublishSuccessNeedsBoth | backend/services/wechat_api.py:122-164 | A successful publish implies that staging got a token and a media id, that the broadcast got a token, and that it was answered with `errcode == 0`. `获取access_token失败` is reported exactly when staging succeeded and the broadcast's own lookup failed. |
| WeChatApi.OneInstantNoTokenFailure | backend/services/wechat_api.py:122-136 | When all lookups happen at one instant with one reply, a token for staging means a token for the broadcast. `publish` then never reports `获取access_token失败`. |
| WeChatApi.LateBroadcastLosesToken | backend/services/wechat_api.py:122-136 | A token granted at 0 s for 400 s is cached until 100 s. If the lookup at 200 s is refused, `publish` reports `获取access_token失败` after staging succeeded. |
| Tasks.DueIndices | backend/tasks.py:54-58 | The run visits exactly the schedules with `scheduled_time <= now` and status `pending`, in table order. |
| Tasks.Payload | backend/tasks.py:65 | `to_dict()` carries no `html_content`. The corrected payload carries the article's HTML. |
| Tasks.Step | backend/tasks.py:62-74 | A schedule without an article aborts the run. An article that is not `approved` leaves everything alone. A publish error aborts. Success marks the article `published` at `now` and the schedule `completed`. Failure marks the schedule `failed`. The client's cache moves as that `publish` leaves it. |
| Tasks.HandleSchedule | backend/tasks.py:62-74 | The loop body, run against the shared WeChat client, yields `Step` from the client's current cache, and leaves the client with the cache `Step` reports. |
| Tasks.AutoPublishScheduled | backend/tasks.py:51-79 | The run commits the state reached by the loop from a fresh client, or nothing when it aborts. When every token lookup happens at one instant with one lasting grant, it makes at most one token request. |
| Tasks.AutoPublishRule | backend/tasks.py:54-74 | Schedules that are not due are untouched. Every schedule moves only `pending` to `completed`/`failed`. Every article moves only to `published` at `now`. A schedule newly completed has its article published at `now`. |
| Tasks.RunEvolves | backend/tasks.py:62-74 | Each committed step of the loop keeps the transition rule of `AutoPublishRule`. |
| Tasks.NotApprovedUntouched | backend/tasks.py:64 | A due schedule whose article is not `approved` stays `pending`, and its article is unchanged. |
| Tasks.AsWrittenPublishesNothing | backend/tasks.py:65 | As written, every run either aborts or changes nothing. |
| Tasks.AsWrittenAutoPublishChangesNothing | backend/tasks.py:51-79 | As written, the scheduled publication never changes the tables. |
| Tasks.WithHtmlPublishes | backend/tasks.py:62-70 | With the HTML in the payload, an approved article stages its HTML. A staging and a broadcast that both get a token and succeed complete the schedule. |
| Tasks.Drafted | backend/tasks.py:21-42 | At most one draft per topic. Each draft has status `draft`, tags `[]`, and the markdown equal to the content. |
| Tasks.DraftedStep | backend/tasks.py:21-42 | One loop iteration appends the draft of that topic exactly when generation returned one. |
| Tasks.AutoGenerateArticle | backend/tasks.py:13-48 | The run drafts the first three trending topics. It commits all of those drafts, or none when one lacks a title (the `nullable=False` column). |
| Tasks.NoBackendSavesNothing | backend/tasks.py:21-44 | With no language model configured, nothing is saved. |
| Models.NewArticle | backend/models.py:6-18 | A new article's status defaults to `draft`. `created_at` is the UTC now, and `published_at` and the cover are unset. |
| Models.NewSchedule | backend/models.py:48-52 | A new schedule's status defaults to `pending`. |
| Models.Preview | backend/models.py:24 | Content of at most 200 chars is kept. Longer content becomes its first 200 chars plus `...`. The result is at most 203 chars long and starts with the first 200 chars. |
| Models.IsoOrNone | backend/models.py:27-28 | An unset time maps to None, and a set one to its ISO string. |
| Models.IsoFormat | backend/models.py:27-28 | The ISO text has the `YYYY-MM-DDTHH:MM:SS[.ffffff]` layout. |
| Models.ToDict | backend/models.py:20-30 | The dict copies id, title, cover, status and tags. It holds the content preview and the ISO or None timestamps. |
| ContentOptimizer.LoadSensitiveWords | backend/services/content_optimizer.py:17-28 | The words are the non-empty stripped lines of the file. A missing file gives the built-in list, and a read error gives none. |
| ContentOptimizer.FilterSensitiveWords | backend/services/content_optimizer.py:71-77 | Every character either stays or becomes `*`, and the length is kept. No listed word without `*` is left in the text. When no word contains `*`, a character is masked only if it lies inside an occurrence of a listed word in the original text. |
| ContentOptimizer.ReplaceChangesOnlyOccurrences | backend/services/content_optimizer.py:75-76 | `replace(word, '*' * len(word))` changes a character only inside an occurrence of the word. |
| ContentOptimizer.ReplaceRemoves | backend/services/content_optimizer.py:74-75 | Replacing a word by stars of its length removes every occurrence of it. |
| ContentOptimizer.MaskWordStep | backend/services/content_optimizer.py:73-76 | One loop iteration keeps the text a masking of the input and keeps out every word done so far. |
| ContentOptimizer.AddEngagementElements | backend/services/content_optimizer.py:159-181 | The text is wrapped in the fixed opening and closing. Above three paragraphs, the thinking question is appended to the middle paragraph. |
| ContentOptimizer.SummaryCount | backend/services/content_optimizer.py:186-194 | The summary takes the longest run of leading sentences whose lengths stay within `max_length`. |
| ContentOptimizer.GenerateSummary | backend/services/content_optimizer.py:183-196 | The summary is those sentences joined and ended with `。`. It falls back to the first `max_length` characters when not even one fits. |
| ContentOptimizer.AddEmojis | backend/services/content_optimizer.py:301-340 | The result is the table pass of `EmojiPass`, and it never shortens the text. |
| ContentOptimizer.EmojiStep | backend/services/content_optimizer.py:335-338 | For each keyword present, if its emoji is absent, the emoji and a space are inserted before the first occurrence. Otherwise the text is unchanged. |
| ContentOptimizer.EmojiPassUnchanged | backend/services/content_optimizer.py:335-338 | Text containing no keyword is unchanged. |
| ContentOptimizer.AddReadingHints | backend/services/content_optimizer.py:385-399 | Above four paragraphs, the hint is inserted as a paragraph at the middle index. Otherwise the text is unchanged. |
| ContentOptimizer.CalculatePlatformScore | backend/services/content_optimizer.py:549-572 | The accumulated score equals `PlatformScore` and lies in [50, 100]. An unknown platform scores 50. |
| ContentOptimizer.WeChatAugmented | backend/services/content_optimizer.py:483-491 | The follow and comment prompts are appended only when missing, so the result contains both and extends the input. |
| ContentOptimizer.OptimizeForWeChat | backend/services/content_optimizer.py:478-503 | After the prompts are added, text over 4000 chars is cut to 3500 plus the read-original link. The result never exceeds 4000. Content that is short and already has both prompts is unchanged with no changes listed. |
| ContentOptimizer.OptimizeForWeibo | backend/services/content_optimizer.py:505-526 | Text over 2000 chars is cut to 1900 plus `...展开全文`. The first two tags are appended as `#tag#` after a blank line. Each change is listed exactly when it happens. |
| ContentOptimizer.OptimizeForZhihu | backend/services/content_optimizer.py:528-547 | Text under 800 chars gets the further-reading block. The result always mentions data. Long content that already mentions data is unchanged. |
| ContentOptimizer.OptimizeForPlatform | backend/services/content_optimizer.py:467-476 | Dispatch is by platform name. An unknown platform returns the content with no changes and no score. |
| Crawler.ExtractText | backend/services/crawler.py:54-66 | Lines are split, stripped and split at double spaces. The pieces are stripped again, and the non-empty chunks are joined with newlines. |
| Crawler.ExtractedLinesClean | backend/services/crawler.py:61-64 | Every output line is non-empty, has no surrounding whitespace, no line break and no double space. |
| Crawler.ExtractKeepsNonSpace | backend/services/crawler.py:61-64 | Only whitespace is removed: the non-whitespace characters are those of the input, in order. |
| Crawler.ExtractIdempotent | backend/services/crawler.py:61-64 | Normalising normalised text changes nothing. |
| Crawler.ImageUrl | backend/services/crawler.py:72-73 | `data-src` is preferred over `src`. An image with neither is skipped. |
| Crawler.ExtractImages | backend/services/crawler.py:68-75 | The URLs are those of `ImageUrls`, in document order. |
| Crawler.ImageOrder | backend/services/crawler.py:71-74 | The URLs are those of the images before an image, then its own URL if it has one (a truthy `data-src`, else a truthy `src`), then those of the images after it. |
| Crawler.ExtractMeta | backend/services/crawler.py:77-91 | `author` and `publish_time` are present exactly when their element is found, stripped. There are no other keys. |
| Crawler.CrawlWeChatArticle | backend/services/crawler.py:17-52 | A failed fetch or a page without the content div gives None. Otherwise the record holds the stripped title (`''` if absent), the normalised text, the images, the URL and the meta. |
| Crawler.CrawlMultiple | backend/services/crawler.py:93-101 | The result keeps the successful crawls in URL order. |
| Crawler.CrawledFromUrls | backend/services/crawler.py:93-101 | Every record's source URL is one of the input URLs. |
| LlmService.Initialize | backend/services/llm_service.py:16-28 | Each client is configured exactly when its API key is truthy. |
| LlmService.RewriteArticle | backend/services/llm_service.py:30-69 | OpenAI is used when configured, otherwise Claude. A failure returns the original text, and no backend gives None. |
| LlmService.RewriteNoFallback | backend/services/llm_service.py:47-69 | When OpenAI is configured, Claude is never consulted, even when OpenAI fails. |
| LlmService.TitlePrompt | backend/services/llm_service.py:128 | The prompt is the fixed request followed by the first 500 characters. |
| LlmService.GenerateTitle | backend/services/llm_service.py:126-148 | The title is the stripped reply of the chosen backend. A failure gives `精彩文章标题`, and no backend gives None. |
| LlmService.TitleSeesOnlyPrefix | backend/services/llm_service.py:128 | Two texts with the same first 500 characters get the same title. |
| LlmService.ArticleBody | backend/services/llm_service.py:90-110 | No backend gives the placeholder text. A failing backend gives no body. |
| LlmService.GenerateArticle | backend/services/llm_service.py:71-124 | The draft exists exactly when a body was produced. Its title is `GenerateTitle` of the body, and keywords and topic default to `[]` and `''`. |
| LlmService.GenerateWithoutBackend | backend/services/llm_service.py:109-120 | With no backend the draft is the placeholder text with no title. |
| Validators.AcceptsPattern | backend/utils/validators.py:32-33 | Every URL of the form `http(s)://` + body + `.` + image extension + optional `?query` + optional newline is accepted. The match ignores case. |
| Validators.OnlyPattern | backend/utils/validators.py:32-33 | Every accepted URL has that form. |
| Validators.FoldedLettersAccepted | backend/utils/validators.py:32-33 | Case is ignored as Python does: the dotless `ı` matches `i` and the long `ſ` matches `s`, so `http://a.gıf` and `httpſ://a.png` are accepted. |
| Validators.RejectsMissingScheme | backend/utils/validators.py:32 | `ftp://a.png` and `http:/a.png` are rejected. |
| Validators.TitleErrors | backend/utils/validators.py:10-13 | A missing title and a title over 64 chars each give their message, and nothing else does. |
| Validators.ContentErrors | backend/utils/validators.py:16-21 | Missing content, content under 100 chars and content over 20000 chars each give their message, and nothing else does. |
| Validators.CoverErrors | backend/utils/validators.py:24-26 | A truthy cover that is not a valid image URL gives the cover message, and nothing else does. |
| Validators.ValidateArticle | backend/utils/validators.py:5-28 | Each message appears exactly when its condition holds. Messages come in title, content, cover order, at most three. The list is empty exactly when the article is acceptable. |
| Validators.ValidateWeChatConfig | backend/utils/validators.py:35-49 | There are at most two errors: a missing `app_id` or one not starting with `wx`, then a missing `app_secret` or one not exactly 32 chars long. |
| Analytics.KeywordsForTopic | backend/services/analytics_service.py:273-288 | The result is the list of the first key in table order that is a substring of the topic, else `[topic]`. |
| Analytics.BaseScore | backend/services/analytics_service.py:539-561 | The accumulated score lies in [35, 100]. |
| Analytics.PredictArticlePerformance | backend/services/analytics_service.py:527-582 | `overall_score` equals the score. Views, likes, comments and shares are at least 100, 10, 2 and 5 for any random offsets, each built from the previous one. The suggestions are those of `_get_improvement_suggestions` for that score and article, and the low-score one appears exactly when the score is below 60. |
| Analytics.ImprovementSuggestions | backend/services/analytics_service.py:588-616 | Each suggestion appears exactly when its condition holds, with at most five. |
| Analytics.GrowthFromZero | backend/services/analytics_service.py:386-389 | From zero, growth is `+100%` for a positive count, else `0%`. |
| Analytics.PeakReadingHours | backend/services/analytics_service.py:90-98 | The result has one to three distinct hours in 0..23, sorted ascending. They are exactly the hours drawn. |
| Analytics.MostCommonIndex | backend/services/analytics_service.py:458-460 | `Counter.most_common(1)` picks a value of maximal count, the first one seen on a tie. |
| Analytics.MostCommon | backend/services/analytics_service.py:456-460 | The most common publication hour is one of the hours, and no hour occurs more often. Among tied hours it is the one seen first. |
| Analytics.RecommendationsMembers | backend/services/analytics_service.py:439-462 | Each recommendation appears exactly when its condition holds, with at most four for a non-empty list. |
| Analytics.GenerateRecommendations | backend/services/analytics_service.py:431-464 | An empty list gives only the fixed message. A non-empty one gives the recommendations, never more than five. |
| ImageService.StyleAddon | backend/services/image_service.py:49-57 | The style table entry is used, or `professional, high quality` for unknown styles. |
| ImageService.PromptLayout | backend/services/image_service.py:47-59 | The prompt is the fixed opening, the title, `', `, the style text and the fixed resolution suffix. |
| ImageService.PromptDeterminesTitle | backend/services/image_service.py:57-59 | For one style, the prompt determines the title. |
| ImageService.CoverBackend | backend/services/image_service.py:31-41 | DALL-E is chosen when its key is set. Otherwise Stable Diffusion is chosen when its endpoint is set. Otherwise stock images are used. |
| ImageService.StockImage | backend/services/image_service.py:122-153 | Search uses the title's first 50 chars, and a miss falls back to the default image. |
| ImageService.GenerateCoverImage | backend/services/image_service.py:25-45 | The result is that of the chosen backend alone. |
| ImageService.CoverUsesOnlyChosenBackend | backend/services/image_service.py:32-45 | Changing what the unchosen backends would return does not change the cover. |
| ImageService.ArticleImageUrl | backend/services/image_service.py:180-183 | `src` is preferred over `data-src`. |
| ImageService.ExtractImagesFromArticle | backend/services/image_service.py:173-185 | The URLs are those of `ArticleImageUrls`, in document order. |
| ImageService.ArticleImageOrder | backend/services/image_service.py:180-183 | An image's URL is placed right after the URLs of the images before it. |
| ImageService.PreferenceDiffersFromCrawler | backend/services/image_service.py:180-183 | With two different truthy attributes, this extractor and the crawler's pick different URLs. |
| ImageService.OptimizedPathIsReplace | backend/services/image_service.py:205 | The output path replaces every `.` with `_optimized.`. |
| ImageService.OptimizedPathRestores | backend/services/image_service.py:205 | Replacing `_optimized.` back with `.` restores the input path. |
| ImageService.OptimizeImage | backend/services/image_service.py:187-212 | A successful save returns the rewritten path, and a failure returns the original. |
| ImageService.GridShape | backend/services/image_service.py:251-259 | The grid is 1×1 for one image, 2×1 for two, and 2×2 for three or four. |
| ImageService.GridCollageLayout | backend/services/image_service.py:251-278 | Image i sits at `((i % cols) * 400, (i // cols) * 300)` on the `cols*400 × rows*300` canvas. Every cell lies inside it, and no two cells overlap. |
| ImageService.CreateGridCollage | backend/services/image_service.py:228-289 | At most the first four paths are used. Unopenable images are dropped, and the layout is `GridCollage`. |
| ImageService.StripCollageLayout | backend/services/image_service.py:313-331 | Strip cells keep the fixed side (height 300 or width 600). They lie inside the canvas and follow one another along the strip. |
| ImageService.StripCellsAbut | backend/services/image_service.py:327-330 | Each cell starts where the previous one ends. |
| ImageService.ResizeForStrip | backend/services/image_service.py:317-322 | The pictures are scaled in place to the fixed side (the vertical strip repeats this at lines 369-374), and the total extent along the strip is returned. |
| ImageService.CreateStripCollage | backend/services/image_service.py:291-393 | At most the first five paths are used. The layout is `StripCollage`, horizontal or vertical. |
| ImageService.CreateImageCollage | backend/services/image_service.py:214-226 | `grid` goes to the grid collage, `horizontal` to the horizontal strip, and anything else to the vertical strip. |
| SettingsContext.InitialState | frontend/src/contexts/SettingsContext.js:5-31 | The state has the ten properties. `loading` is false and the three configurations hold their defaults. |
| SettingsContext.InitialStateReads | frontend/src/contexts/SettingsContext.js:6-11 | Each preference is read from storage with its default. |
| SettingsContext.SetChangesOnlyItsField | frontend/src/contexts/SettingsContext.js:52-74 | Each `SET_*` action writes only its field, in the state and in storage. |
| SettingsContext.UpdateMergesConfig | frontend/src/contexts/SettingsContext.js:76-92 | `UPDATE_*_CONFIG` overwrites exactly the payload's keys inside its configuration. Other keys and other properties are kept. |
| SettingsContext.LoadAndUnknown | frontend/src/contexts/SettingsContext.js:97-116 | `LOAD_SETTINGS` is a shallow merge, and unknown actions change nothing. |
| SettingsContext.ResetKeepsConfigs | frontend/src/contexts/SettingsContext.js:100-113 | Reset gives `initialState` with the three configurations kept and the stored preferences cleared. A second reset changes nothing. |
| SettingsContext.PreferenceSurvivesReload | frontend/src/contexts/SettingsContext.js:6-74 | A preference set by its action is what `initialState` reads back after a reload. For theme and language this is stated for a non-empty string payload, since storage keeps `String(payload)` and `''` falls back to the default. |
| SettingsContext.ResetReloadsDefaults | frontend/src/contexts/SettingsContext.js:6-113 | After a reset, a reload gives every preference its default. |
| SettingsContext.SaveServerConfig | frontend/src/contexts/SettingsContext.js:184-217 | Nothing is sent without a token. Otherwise the key and configuration are sent, and success is the server's acceptance. |
| SettingsContext.SentConfigIsStored | frontend/src/contexts/SettingsContext.js:250-264 | The configuration sent to the server equals the one the reducer stores. |
| SettingsContext.ImportSettings | frontend/src/contexts/SettingsContext.js:301-360 | An unreadable or unparsable file is rejected, and so is one with none of the six keys. Otherwise exactly the valid entries are applied to state and storage, and others are ignored. |
| AuthContext.InitialState | frontend/src/contexts/AuthContext.js:5-10 | There is no user, and the state is not authenticated and loading, with the stored token. |
| AuthContext.LoginStartSetsLoading | frontend/src/contexts/AuthContext.js:25-29 | `LOGIN_START` sets only `loading` to true. |
| AuthContext.LoginSuccessAuthenticates | frontend/src/contexts/AuthContext.js:30-37 | User and token come from the payload, `isAuthenticated` is true and `loading` is false. Other properties are kept. |
| AuthContext.FailureIsLogout | frontend/src/contexts/AuthContext.js:38-53 | `LOGIN_FAILURE` and `LOGOUT` give the same signed-out state, and logging out again changes nothing. |
| AuthContext.LoadingAndUserUpdates | frontend/src/contexts/AuthContext.js:54-63 | `SET_LOADING` changes only `loading`. `UPDATE_USER` merges the payload into `user` and leaves the authentication fields alone. |
| AuthContext.UnknownUnchanged | frontend/src/contexts/AuthContext.js:64-65 | Unknown actions return the state unchanged. |
| ArticleManagement.FilteredArticles | frontend/src/pages/ArticleManagement.js:224-226 | `all` gives the whole list. Any other filter gives exactly the articles with that status, in order. |
| ArticleManagement.DeleteArticle | frontend/src/pages/ArticleManagement.js:249-251 | Exactly the articles with that id are removed. |
| ArticleManagement.DeleteKeepsOrder | frontend/src/pages/ArticleManagement.js:249-251 | Deleting distributes over concatenation, so the survivors keep their order. |
| ArticleManagement.PublishArticle | frontend/src/pages/ArticleManagement.js:254-261 | Only matching articles get `published` and `publishedAt`. Others are unchanged and the length is kept. |
| ArticleManagement.PublishKeepsIdentity | frontend/src/pages/ArticleManagement.js:254-261 | A published article keeps its id and other fields, and publishing again changes nothing. |
| ArticleManagement.BatchDelete | frontend/src/pages/ArticleManagement.js:263-277 | An empty selection or an unconfirmed dialog changes nothing. Otherwise all selected ids are removed and the selection is cleared. |
| ArticleManagement.NewArticle | frontend/src/pages/ArticleManagement.js:285-294 | A new article is `draft` with zero counters. Tags default to `[]`, and the other form values are copied. |
| ArticleManagement.ModalOk | frontend/src/pages/ArticleManagement.js:280-310 | Create prepends the new article. Edit merges the values into the articles with the edited id only. A failed validation, a preview or a missing article changes nothing. |
| ArticleManagement.ArticleStats | frontend/src/pages/ArticleManagement.js:313-318 | `total` is the list length, and published + scheduled + draft ≤ total. |
| ArticleManagement.StatusCountsBound | frontend/src/pages/ArticleManagement.js:315-317 | The three status counts add up to at most the length. |
| PublishSchedule.DateSchedules | frontend/src/pages/PublishSchedule.js:106-110 | The result is exactly the schedules on that calendar date. |
| PublishSchedule.DateSchedulesOrder | frontend/src/pages/PublishSchedule.js:106-110 | They keep list order. |
| PublishSchedule.DateCell | frontend/src/pages/PublishSchedule.js:113-144 | A day without schedules shows nothing. Otherwise at most two are shown, plus `+(n-2)` exactly when n > 2. |
| PublishSchedule.CellLabel | frontend/src/pages/PublishSchedule.js:134 | The label shows the time, then the title's first ten characters and `...`. |
| PublishSchedule.DeleteSchedule | frontend/src/pages/PublishSchedule.js:188 | Exactly the schedules with that id are removed. |
| PublishSchedule.CombineDateTime | frontend/src/pages/PublishSchedule.js:203-205 | The date comes from the date picker, and the hour and minute from the time picker. |
| PublishSchedule.ScheduleData | frontend/src/pages/PublishSchedule.js:197-209 | The data is always `pending`, and the description defaults to `''`. Editing keeps the id. An unknown article throws. |
| PublishSchedule.SaveSchedule | frontend/src/pages/PublishSchedule.js:194-225 | Edit replaces the matching id in place, and create appends one entry. A failure changes nothing. |
| PublishSchedule.SaveKeepsIds | frontend/src/pages/PublishSchedule.js:211-218 | An edit keeps every id. A create appends one pending entry with the new id. |
| PublishSchedule.PendingCount | frontend/src/pages/PublishSchedule.js:337 | The pending counter counts the pending schedules. |
| PublishSchedule.CreateAddsPending | frontend/src/pages/PublishSchedule.js:206-217 | Creating adds one to the pending counter. |
| SettingsPage.SavedSources | frontend/src/pages/Settings.js:278 | Saved sources are the lines whose trim is non-empty, untrimmed and in order. An empty or missing field gives `[]`. |
| SettingsPage.SavedSourcesAreLines | frontend/src/pages/Settings.js:278 | No saved source is blank, and every non-blank line is saved. |
| SettingsPage.DisplayThenSave | frontend/src/pages/Settings.js:278-300 | Displaying non-blank sources without newlines and saving again yields the same list. |
| SettingsPage.SaveThenDisplay | frontend/src/pages/Settings.js:278-300 | Text none of whose `\n`-separated lines is blank is displayed again exactly as typed. |
| SettingsPage.AppIdPatternShape | frontend/src/pages/Settings.js:227 | The App ID rule accepts exactly `wx` followed by 16 lowercase hex digits, 18 chars in all. |
| SettingsPage.AppIdErrors | frontend/src/pages/Settings.js:226-227 | The field has no error exactly when it matches. A missing App ID gives the required message. |
| SettingsPage.FormAppIdPassesBackend | frontend/src/pages/Settings.js:227 | Every App ID the form accepts passes the backend `startswith('wx')` check. The converse fails, for `wx`. |

## Left out

- Network and file I/O are left out. This covers the HTTP calls of the WeChat client, the crawler and the image service, the sensitive-word file, and image file reads and writes. Their results are parameters: token, media and send replies, `Fetch` results, picture sizes, and `saved` flags.
- The OpenAI and Anthropic SDKs are left out. A client is a function from the request to a completion or a failure.
- BeautifulSoup is left out. `get_text()`, the found elements and the `img` attributes are inputs, and `decompose()` of scripts is not modelled.
- PIL is left out. Pictures are sizes, and the collages return their layout rather than a saved file name. PIL's rejection of a zero-size resize is not modelled.
- ImageService.Scaled: the strip ratio `int(w * (300 / h))` is computed as the floor of `w * 300 / h` on integers. It may differ from the floating-point value by one pixel.
- Floating point is left out. This covers SEO keyword density, readability scores, read time, the engagement rate, growth other than from zero, and prediction confidence. Averages in `_generate_recommendations` are compared by cross-multiplication, which gives the same comparisons.
- `generate_tags`, `_generate_subheading` and `check_content_quality` are left out, because they depend on jieba segmentation. ContentOptimizer.OptimizeForWeibo takes the tags as input.
- `optimize_content`, `optimize_for_seo`, `improve_readability`, `enhance_readability`, `_optimize_paragraphs` and `_add_emphasis` are left out. They depend on floating point or on regular-expression rewriting of markdown that is not stateable here.
- `backend/services/markdown_converter.py` is left out, since it wraps the markdown library. Tasks.AutoGenerateArticle takes the conversion as a function.
- `daily_crawl` is not modelled as a batch, because it never completes as written. It iterates the dict or None returned for one URL, and with no sources it reads `articles` before assignment. Either way the run ends in its `except` branch without a commit.
- The database and ORM, Flask routes, authentication stubs, the scheduler's timers, `config.py` and the logger are left out. The tables are values, and configured keys are parameters.
- Concurrency is left out: unsynchronised use of the token cache across threads, and `time.sleep` pacing in `crawl_multiple`.
- WeChatApi.AccessToken: the source reads the clock twice, once for the check and once for the new expiry. The model uses one `now` for both. Separate `get_access_token` calls inside one `publish` get separate clock readings (`TokenCall`).
- WeChatApi.BroadcastResult: an `errmsg` that is present but JSON `null` gives the message `发布失败: None` in the source. The model treats it as absent.
- WeChatApi.AccessToken: a non-numeric `expires_in` makes the addition raise `TypeError`. The handler returns `None`, but the new token is already cached with the old expiry. The model takes `expires_in` to be an integer.
- PublishSchedule.CellLabel: JavaScript's `substring` counts UTF-16 code units, and the model counts characters. They differ for characters outside the Basic Multilingual Plane.
- SettingsContext.ImportSettings: a file holding JSON `null` makes `hasOwnProperty` throw a `TypeError`. The source rejects it with that error; the model rejects it as an invalid format.
- AuthContext.Reduce: a `LOGIN_SUCCESS` payload that is `null` or `undefined` makes `action.payload.user` throw. The model reads both fields as `null`.
- Randomness in the analytics mocks is left out. Random draws are parameters, and only bounds are proved.
- The parts of `_analyze_content_performance`, `get_best_publish_time`, `generate_report` and `get_competitor_analysis` that are not listed above are left out. They are database queries or mock data.
- Validators.Lower: `re.IGNORECASE` is modelled only for the characters that fold to a letter of the pattern. These are the ASCII capitals, `İ`, `ı` and `ſ`. Case folding of other characters cannot change whether a URL matches.
- Crawler.SplitLines splits at every line-break character Python's `splitlines` knows. A `\r\n` pair gives an extra empty piece, which `_extract_text` discards anyway.
- JavaScript spread of a string or an array is left out. `SpreadFields` copies nothing for non-objects.
- Rendering, the theme and document effects, `loadServerSettings`, `exportSettings`, and the login and logout requests of the auth context are left out.
- `localStorage` keeps the value written, not its serialised text. `JSON.stringify` followed by `JSON.parse` gives back a flag's value. For theme and language, though, storage holds `String(payload)`.
- SettingsContext.PreferenceSurvivesReload: states nothing for a theme or language payload that is not a string. The source reads such a payload back as its string form, which the model does not compute.
- App.js, Dashboard.js, Login.js, NotFound.js, ErrorBoundary.js, index.js and `monthCellRender` are left out. Rendering detail is not stateable here.

## Findings

| source | as written | input that shows it | evidently intended | confidence | as-written member | corrected member |
|---|---|---|---|---|---|---|
| backend/tasks.py:65 | The scheduled job passes `article.to_dict()` to `publish`. That dict has no `html_content`, so `publish` raises `KeyError` at backend/services/wechat_api.py:114. The exception escapes the loop, so line 78 catches it and nothing is committed. | Any due `pending` schedule whose article is `approved`. | The article's HTML reaches `publish`. A successful broadcast then marks the article `published` and the schedule `completed`. | not executed | Tasks.AsWrittenAutoPublishChangesNothing | Tasks.WithHtmlPublishes |
