/** Backend selection of the LLM service (backend/services/llm_service.py).

    The OpenAI and Anthropic SDK clients are modelled as functions from the
    request to the completion they return or the exception they raise.  The
    service prefers OpenAI whenever its client is configured; Claude is asked
    only when OpenAI is not configured, and a failing call is never retried on
    the other backend. */
module LlmService {

  import opened Options
  import opened Strings

  /** The prompts the service writes.  The two long prompt templates are kept
      as their parameters; the title prompt is text. */
  datatype Prompt =
    | RewritePrompt(style: string, content: string)
    | ArticlePrompt(topic: string, keywords: string, style: string, length: int)
    | PromptText(text: string)

  /** One chat/messages request: model name, optional system message, the user
      prompt, optional temperature and the token limit. */
  datatype Request = Request(model: string, system: Option<string>, prompt: Prompt, temperature: Option<real>, maxTokens: int)

  /** The text of the first choice, or the exception the call raised. */
  datatype Completion = Completed(text: string) | Failed(error: string)

  type Client = Request -> Completion

  /** `LLMService` after `_initialize_clients`. */
  datatype Service = Service(openai: Option<Client>, claude: Option<Client>)

  const DefaultRewriteStyle := "professional"
  const DefaultTopic := ""
  const DefaultStyle := "professional"
  const DefaultLength := 1000
  const NoBackendContent := "生成失败：未配置LLM服务"
  const TitleFallback := "精彩文章标题"
  const TitlePromptPrefix := "请为以下文章生成一个吸引人的标题（15字以内）：\n"
  /** Only this many characters of the article go into the title prompt. */
  const TitleContextLength := 500

  predicate Configured(key: Option<string>) {
    key.Some? && key.value != ""
  }

  /** `_initialize_clients`: a client exists exactly when its API key is set. */
  function Initialize(openaiKey: Option<string>, claudeKey: Option<string>, openaiClient: Client, claudeClient: Client): (s: Service)
    ensures s.openai.Some? <==> Configured(openaiKey)
    ensures s.claude.Some? <==> Configured(claudeKey)
    ensures s.openai.Some? ==> s.openai.value == openaiClient
    ensures s.claude.Some? ==> s.claude.value == claudeClient
  {
    Service(if Configured(openaiKey) then Some(openaiClient) else None,
            if Configured(claudeKey) then Some(claudeClient) else None)
  }

  function RewriteRequestOpenAi(content: string, style: string): Request {
    Request("gpt-4", Some("你是一个专业的内容创作者"), RewritePrompt(style, content), Some(0.7), 2000)
  }

  function RewriteRequestClaude(content: string, style: string): Request {
    Request("claude-3-opus-20240229", None, RewritePrompt(style, content), None, 2000)
  }

  /** `rewrite_article`: the rewritten text, the original text when the chosen
      backend fails, and `None` when no backend is configured. */
  function RewriteArticle(svc: Service, content: string, style: string): (r: Option<string>)
    ensures r.None? <==> svc.openai.None? && svc.claude.None?
    ensures svc.openai.Some? ==>
      r == Some(match svc.openai.value(RewriteRequestOpenAi(content, style))
                case Completed(t) => t
                case Failed(_) => content)
    ensures svc.openai.None? && svc.claude.Some? ==>
      r == Some(match svc.claude.value(RewriteRequestClaude(content, style))
                case Completed(t) => t
                case Failed(_) => content)
  {
    if svc.openai.Some? then
      match svc.openai.value(RewriteRequestOpenAi(content, style))
      case Completed(t) => Some(t)
      case Failed(_) => Some(content)
    else if svc.claude.Some? then
      match svc.claude.value(RewriteRequestClaude(content, style))
      case Completed(t) => Some(t)
      case Failed(_) => Some(content)
    else None
  }

  /** When OpenAI is configured, the Claude client never matters, even when the
      OpenAI call fails; a failure gives back the input. */
  lemma {:induction false} RewriteNoFallback(o: Client, c1: Option<Client>, c2: Option<Client>, content: string, style: string)
    ensures RewriteArticle(Service(Some(o), c1), content, style) == RewriteArticle(Service(Some(o), c2), content, style)
    ensures o(RewriteRequestOpenAi(content, style)).Failed? ==> RewriteArticle(Service(Some(o), c1), content, style) == Some(content)
  {
  }

  /** The prompt of `_generate_title`. */
  function TitlePrompt(content: string): (p: string)
    ensures StartsWith(p, TitlePromptPrefix)
    ensures p[|TitlePromptPrefix|..] == SliceTo(content, TitleContextLength)
  {
    TitlePromptPrefix + SliceTo(content, TitleContextLength)
  }

  function TitleRequestOpenAi(content: string): Request {
    Request("gpt-3.5-turbo", None, PromptText(TitlePrompt(content)), Some(0.9), 50)
  }

  function TitleRequestClaude(content: string): Request {
    Request("claude-3-haiku-20240307", None, PromptText(TitlePrompt(content)), None, 50)
  }

  /** `_generate_title`: the stripped completion, the fixed fallback title on
      an exception, and `None` when no backend is configured. */
  function GenerateTitle(svc: Service, content: string): (r: Option<string>)
    ensures r.None? <==> svc.openai.None? && svc.claude.None?
    ensures svc.openai.Some? ==>
      r == Some(match svc.openai.value(TitleRequestOpenAi(content))
                case Completed(t) => PyStrip(t)
                case Failed(_) => TitleFallback)
    ensures svc.openai.None? && svc.claude.Some? ==>
      r == Some(match svc.claude.value(TitleRequestClaude(content))
                case Completed(t) => PyStrip(t)
                case Failed(_) => TitleFallback)
  {
    if svc.openai.Some? then
      match svc.openai.value(TitleRequestOpenAi(content))
      case Completed(t) => Some(PyStrip(t))
      case Failed(_) => Some(TitleFallback)
    else if svc.claude.Some? then
      match svc.claude.value(TitleRequestClaude(content))
      case Completed(t) => Some(PyStrip(t))
      case Failed(_) => Some(TitleFallback)
    else None
  }

  /** The title depends on the first 500 characters of the article only. */
  lemma {:induction false} TitleSeesOnlyPrefix(svc: Service, a: string, b: string)
    requires SliceTo(a, TitleContextLength) == SliceTo(b, TitleContextLength)
    ensures GenerateTitle(svc, a) == GenerateTitle(svc, b)
  {
    assert TitlePrompt(a) == TitlePrompt(b);
  }

  /** The parameters of `generate_article`; `None` is an absent key. */
  datatype GenerateParams = GenerateParams(topic: Option<string>, keywords: Option<seq<string>>, style: Option<string>, length: Option<int>)

  /** The dictionary returned by `generate_article`. */
  datatype ArticleDraft = ArticleDraft(title: Option<string>, content: string, keywords: seq<string>, topic: string)

  function ArticleRequest(model: string, system: Option<string>, p: GenerateParams, temperature: Option<real>): Request {
    Request(model, system,
            ArticlePrompt(p.topic.GetOr(DefaultTopic), Join(p.keywords.GetOr([]), ", "), p.style.GetOr(DefaultStyle),
                          p.length.GetOr(DefaultLength)),
            temperature, 2000)
  }

  function ArticleRequestOpenAi(p: GenerateParams): Request {
    ArticleRequest("gpt-4", Some("你是一个优秀的自媒体内容创作者"), p, Some(0.8))
  }

  function ArticleRequestClaude(p: GenerateParams): Request {
    ArticleRequest("claude-3-sonnet-20240229", None, p, None)
  }

  /** The body text `generate_article` obtains, or `None` when the chosen backend raises. */
  function ArticleBody(svc: Service, p: GenerateParams): (r: Option<string>)
    ensures svc.openai.None? && svc.claude.None? ==> r == Some(NoBackendContent)
    ensures svc.openai.Some? ==> (r.None? <==> svc.openai.value(ArticleRequestOpenAi(p)).Failed?)
    ensures svc.openai.None? && svc.claude.Some? ==> (r.None? <==> svc.claude.value(ArticleRequestClaude(p)).Failed?)
  {
    if svc.openai.Some? then
      match svc.openai.value(ArticleRequestOpenAi(p))
      case Completed(t) => Some(t)
      case Failed(_) => None
    else if svc.claude.Some? then
      match svc.claude.value(ArticleRequestClaude(p))
      case Completed(t) => Some(t)
      case Failed(_) => None
    else Some(NoBackendContent)
  }

  /** `generate_article`: `None` exactly when the chosen backend raises;
      otherwise the draft carries the parameters (or their defaults) and the
      title generated from the body. */
  function GenerateArticle(svc: Service, p: GenerateParams): (r: Option<ArticleDraft>)
    ensures r.None? <==> ArticleBody(svc, p).None?
    ensures r.Some? ==>
      && r.value.content == ArticleBody(svc, p).value
      && r.value.title == GenerateTitle(svc, r.value.content)
      && r.value.keywords == p.keywords.GetOr([])
      && r.value.topic == p.topic.GetOr(DefaultTopic)
  {
    match ArticleBody(svc, p)
    case None => None
    case Some(content) => Some(ArticleDraft(GenerateTitle(svc, content), content, p.keywords.GetOr([]), p.topic.GetOr(DefaultTopic)))
  }

  /** Without any backend the draft still exists, with the placeholder body and no title. */
  lemma {:induction false} GenerateWithoutBackend(p: GenerateParams)
    ensures var r := GenerateArticle(Service(None, None), p);
      r.Some? && r.value.content == NoBackendContent && r.value.title == None
      && r.value.keywords == p.keywords.GetOr([]) && r.value.topic == p.topic.GetOr(DefaultTopic)
  {
  }
}
