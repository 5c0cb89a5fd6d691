/**
 * The decision logic of Floreboard/AIService.swift: the key guard, status checks, budget tiers, mapping a
 * decoded reply to a draft design, the choice of image backend, the Aliyun task poll and the OpenRouter
 * reply reader.
 *
 * Every network exchange is an input value: `Lost` when the request itself throws, otherwise the status
 * code (None when the response is not an HTTP one) and the body as the decoder saw it (None when decoding
 * throws). Whether a URL string parses is the predicate `isValidUrl`.
 */
module AI {
  import opened Prelude
  import opened Models
  import opened JsonTree

  // ---------------------------------------------------------------------------
  // Outcomes
  // ---------------------------------------------------------------------------

  /**
   * The four `AIError` cases, plus the two ways a call fails with an error of another type: a decoder
   * throwing, and the transport throwing.
   */
  datatype Failure =
    | MissingApiKey
    | InvalidURL
    | ApiError(statusCode: int)
    | ImageEncodingFailed
    | DecodingFailed
    | TransportFailed

  datatype Outcome<T> = Ok(value: T) | Fail(failure: Failure)

  /** One request and what came back. */
  datatype Exchange<B> = Lost | Answered(statusCode: Option<int>, body: B)

  /** The status guard every call makes: only 200 passes; a response that is not HTTP counts as 500. */
  function StatusFailure(statusCode: Option<int>): (r: Option<Failure>)
    ensures r.None? <==> statusCode == Some(200)
    ensures r.Some? ==> r.value == ApiError(if statusCode.Some? then statusCode.value else 500)
  {
    if statusCode == Some(200) then None else Some(ApiError(statusCode.GetOr(500)))
  }

  // ---------------------------------------------------------------------------
  // Budget guidance
  // ---------------------------------------------------------------------------

  datatype BudgetTier = Simple | Standard | Premium | Luxury | GrandLuxury {
    function Rank(): nat {
      match this
      case Simple => 0
      case Standard => 1
      case Premium => 2
      case Luxury => 3
      case GrandLuxury => 4
    }

    /** The guidance sentence `getBudgetComplexityGuidance` puts in the prompt. */
    function Guidance(): string {
      match this
      case Simple => "SIMPLE design: 3-5 stems total, 2-3 flower types, economical choices."
      case Standard => "STANDARD design: 8-15 stems total, 3-5 flower types, balanced mix."
      case Premium => "PREMIUM design: 15-25 stems total, 4-6 flower types, include premium flowers."
      case Luxury => "LUXURY design: 25-40 stems total, 5-8 flower types, prioritize premium flowers."
      case GrandLuxury =>
        "GRAND LUXURY design: 40+ stems total, 6-10 flower types, use the most premium flowers available."
    }
  }

  /** `getBudgetComplexityGuidance`: each tier covers one interval of budgets, upper bounds included. */
  function TierFor(budget: real): (t: BudgetTier)
    ensures t == Simple <==> budget <= 200.0
    ensures t == Standard <==> 200.0 < budget <= 500.0
    ensures t == Premium <==> 500.0 < budget <= 1000.0
    ensures t == Luxury <==> 1000.0 < budget <= 2000.0
    ensures t == GrandLuxury <==> 2000.0 < budget
  {
    if budget <= 200.0 then Simple
    else if budget <= 500.0 then Standard
    else if budget <= 1000.0 then Premium
    else if budget <= 2000.0 then Luxury
    else GrandLuxury
  }

  /** A larger budget never gets a lower tier. */
  lemma TierMonotone(a: real, b: real)
    requires a <= b
    ensures TierFor(a).Rank() <= TierFor(b).Rank()
  {
  }

  /** `constructUserPrompt` asks for the tier of `budget ?? 0`. */
  function RequestTier(request: DesignRequest): (t: BudgetTier)
    ensures request.budget.None? ==> t == Simple
    ensures request.budget.Some? ==> t == TierFor(request.budget.value)
  {
    TierFor(request.budget.GetOr(0.0))
  }

  /** The tiers at a few budgets: 150, the default 500, 750 and 5000. */
  lemma TierExamples()
    ensures TierFor(150.0) == Simple && TierFor(500.0) == Standard && TierFor(750.0) == Premium
    ensures TierFor(5000.0) == GrandLuxury && TierFor(DefaultConfig().budget) == Standard
  {
  }

  // ---------------------------------------------------------------------------
  // Mapping a decoded reply to a draft design
  // ---------------------------------------------------------------------------

  datatype ReplyItem = ReplyItem(flowerName: string, count: int, reason: Option<string>)

  /** The decoded `AIResponse`. */
  datatype AIReply = AIReply(
    flowerList: seq<ReplyItem>,
    reasoning: Option<string>,
    title: string,
    description: string,
    meaningText: string,
    steps: seq<string>,
    imagePrompt: string,
    estimatedCost: Option<real>)

  /** `flowerList.map`: each item keeps its name, count and reason and gets a unit cost of 0. */
  function PlanItems(items: seq<ReplyItem>): (r: seq<DesignFlowerItem>)
    ensures |r| == |items|
    ensures forall i :: 0 <= i < |items| ==> r[i].unitCost == Some(0.0)
  {
    seq(|items|, i requires 0 <= i < |items| =>
      DesignFlowerItem(items[i].flowerName, items[i].count, items[i].reason, Some(0.0)))
  }

  function ReplyItemOf(d: DesignFlowerItem): ReplyItem {
    ReplyItem(d.flowerName, d.count, d.reason)
  }

  /** The mapping loses nothing the reply said: projecting the plan items back gives the reply's list. */
  lemma PlanItemsInvertible(items: seq<ReplyItem>)
    ensures seq(|items|, i requires 0 <= i < |items| => ReplyItemOf(PlanItems(items)[i])) == items
  {
  }

  /** The draft `generateFlowerPlan` builds from a decoded reply. */
  function TextDraft(reply: AIReply, request: DesignRequest, id: string, now: real): (d: DesignResult)
    ensures d.id == id && d.requestId == request.id && d.createdAt == now
    ensures d.status == Draft && d.executedAt.None? && d.imageUrl.None?
    ensures d.flowerList == PlanItems(reply.flowerList)
    ensures d.totalCost == (if reply.estimatedCost.Some? then reply.estimatedCost.value else 0.0)
    ensures d.profit == 0.0 && d.profitMargin == 0.0
    ensures d.requirements == request.requirements && d.reasoning == reply.reasoning
    ensures d.title == reply.title && d.description == reply.description && d.meaningText == reply.meaningText
    ensures d.steps == reply.steps && d.imagePrompt == Some(reply.imagePrompt)
  {
    DesignResult(id, request.id, reply.title, reply.description, PlanItems(reply.flowerList), reply.reasoning,
                 reply.steps, None, None, None, None, Some(reply.imagePrompt), reply.meaningText,
                 reply.estimatedCost.GetOr(0.0), 0.0, 0.0, now, request.requirements, None, None, Draft, None,
                 None, None, None)
  }

  /** The draft `generateDesignFromImage` builds: the same, except that `reasoning` is not copied. */
  function VisionDraft(reply: AIReply, request: DesignRequest, id: string, now: real): (d: DesignResult)
    ensures d.reasoning.None?
  {
    DesignResult(id, request.id, reply.title, reply.description, PlanItems(reply.flowerList), None,
                 reply.steps, None, None, None, None, Some(reply.imagePrompt), reply.meaningText,
                 reply.estimatedCost.GetOr(0.0), 0.0, 0.0, now, request.requirements, None, None, Draft, None,
                 None, None, None)
  }

  lemma VisionDraftDropsReasoning(reply: AIReply, request: DesignRequest, id: string, now: real)
    ensures VisionDraft(reply, request, id, now) == TextDraft(reply, request, id, now).(reasoning := None)
    ensures reply.reasoning.None? ==> VisionDraft(reply, request, id, now) == TextDraft(reply, request, id, now)
  {
  }

  // ---------------------------------------------------------------------------
  // Chat completions
  // ---------------------------------------------------------------------------

  const ChatPath := "/chat/completions"

  /**
   * `callChatCompletion`: the URL check, the status check, the decoded list of message contents, and the
   * first content or "{}".
   */
  function ChatContent(cfg: ApiConfig, isValidUrl: string -> bool, ex: Exchange<Option<seq<string>>>): (r: Outcome<string>)
    ensures !isValidUrl(cfg.endpoint + ChatPath) ==> r == Fail(InvalidURL)
    ensures isValidUrl(cfg.endpoint + ChatPath) && ex.Lost? ==> r == Fail(TransportFailed)
    ensures isValidUrl(cfg.endpoint + ChatPath) && ex.Answered? && StatusFailure(ex.statusCode).Some? ==>
      r == Fail(ApiError(ex.statusCode.GetOr(500)))
    ensures isValidUrl(cfg.endpoint + ChatPath) && ex.Answered? && ex.statusCode == Some(200) && ex.body.None? ==>
      r == Fail(DecodingFailed)
    ensures r.Ok? <==> isValidUrl(cfg.endpoint + ChatPath) && ex.Answered? && ex.statusCode == Some(200) && ex.body.Some?
    ensures r.Ok? ==> r.value == if |ex.body.value| > 0 then ex.body.value[0] else "{}"
  {
    if !isValidUrl(cfg.endpoint + ChatPath) then Fail(InvalidURL)
    else match ex
      case Lost => Fail(TransportFailed)
      case Answered(code, body) =>
        if StatusFailure(code).Some? then Fail(StatusFailure(code).value)
        else if body.None? then Fail(DecodingFailed)
        else Ok(if |body.value| > 0 then body.value[0] else "{}")
  }

  /** The cleanup `callVisionCompletion` applies to the content: every "```json", then every "```", removed. */
  function StripFences(content: string): string {
    ReplaceAll(ReplaceAll(content, "```json", ""), "```", "")
  }

  /** `callVisionCompletion`: the same call as `callChatCompletion`, then fence stripping. */
  function VisionContent(cfg: ApiConfig, isValidUrl: string -> bool, ex: Exchange<Option<seq<string>>>): (r: Outcome<string>)
    ensures r.Ok? <==> ChatContent(cfg, isValidUrl, ex).Ok?
    ensures r.Fail? ==> r.failure == ChatContent(cfg, isValidUrl, ex).failure
    ensures r.Ok? ==> r.value == StripFences(ChatContent(cfg, isValidUrl, ex).value)
  {
    match ChatContent(cfg, isValidUrl, ex)
    case Fail(e) => Fail(e)
    case Ok(c) => Ok(StripFences(c))
  }

  predicate NoBacktick(s: string) {
    forall i :: 0 <= i < |s| ==> s[i] != '`'
  }

  /** Content without a backtick comes through the cleanup unchanged. */
  lemma StripFencesWithoutBackticks(content: string)
    requires NoBacktick(content)
    ensures StripFences(content) == content
  {
    NotContainsWithoutHead(content, "```json");
    ReplaceAbsent(content, "```json", "");
    NotContainsWithoutHead(content, "```");
    ReplaceAbsent(content, "```", "");
  }

  /** A JSON body wrapped in a "```json" fence comes out bare. */
  lemma StripFencesUnwraps(body: string)
    requires NoBacktick(body)
    ensures StripFences("```json" + body + "```") == body
  {
    var t := body + "```";
    assert "```json" + body + "```" == "" + "```json" + t;
    ReplaceAfterPlainPrefix("", "```json", "", t);
    assert "" + "" + ReplaceAll(t, "```json", "") == ReplaceAll(t, "```json", "");
    forall k | 0 <= k <= |t|
      ensures !IsPrefix("```json", t[k..])
    {
      if k < |body| {
        assert t[k..][0] == body[k];
        if 7 <= |t[k..]| {
          assert t[k..][..7][0] == body[k];
        }
      }
    }
    ReplaceAbsent(t, "```json", "");
    assert t == body + "```" + "";
    ReplaceAfterPlainPrefix(body, "```", "", "");
  }

  // ---------------------------------------------------------------------------
  // Generating a plan
  // ---------------------------------------------------------------------------

  /** `generateFlowerPlan`: key guard, chat call, reply decoding, draft. */
  function GenerateFlowerPlan(
    cfg: ApiConfig, request: DesignRequest, isValidUrl: string -> bool, ex: Exchange<Option<seq<string>>>,
    decodeReply: string -> Option<AIReply>, id: string, now: real): (r: Outcome<DesignResult>)
    ensures cfg.apiKey == "" ==> r == Fail(MissingApiKey)
    ensures var c := ChatContent(cfg, isValidUrl, ex);
      cfg.apiKey != "" && c.Fail? ==> r == Fail(c.failure)
    ensures var c := ChatContent(cfg, isValidUrl, ex);
      cfg.apiKey != "" && c.Ok? && decodeReply(c.value).None? ==> r == Fail(DecodingFailed)
    ensures var c := ChatContent(cfg, isValidUrl, ex);
      r.Ok? <==> cfg.apiKey != "" && c.Ok? && decodeReply(c.value).Some?
    ensures r.Ok? ==> r.value == TextDraft(decodeReply(ChatContent(cfg, isValidUrl, ex).value).value, request, id, now)
    ensures r.Ok? ==> r.value.status == Draft && r.value.requestId == request.id
  {
    if cfg.apiKey == "" then Fail(MissingApiKey)
    else match ChatContent(cfg, isValidUrl, ex)
      case Fail(e) => Fail(e)
      case Ok(content) =>
        match decodeReply(content)
        case None => Fail(DecodingFailed)
        case Some(reply) => Ok(TextDraft(reply, request, id, now))
  }

  /** `generateDesignFromImage`: key guard, JPEG encoding (None when it fails), vision call, decoding, draft. */
  function GenerateDesignFromImage(
    cfg: ApiConfig, request: DesignRequest, jpegBase64: Option<string>, isValidUrl: string -> bool,
    ex: Exchange<Option<seq<string>>>, decodeReply: string -> Option<AIReply>, id: string, now: real)
    : (r: Outcome<DesignResult>)
    ensures cfg.apiKey == "" ==> r == Fail(MissingApiKey)
    ensures cfg.apiKey != "" && jpegBase64.None? ==> r == Fail(ImageEncodingFailed)
    ensures var c := VisionContent(cfg, isValidUrl, ex);
      cfg.apiKey != "" && jpegBase64.Some? && c.Fail? ==> r == Fail(c.failure)
    ensures var c := VisionContent(cfg, isValidUrl, ex);
      cfg.apiKey != "" && jpegBase64.Some? && c.Ok? && decodeReply(c.value).None? ==> r == Fail(DecodingFailed)
    ensures var c := VisionContent(cfg, isValidUrl, ex);
      r.Ok? <==> cfg.apiKey != "" && jpegBase64.Some? && c.Ok? && decodeReply(c.value).Some?
    ensures r.Ok? ==> r.value == VisionDraft(decodeReply(VisionContent(cfg, isValidUrl, ex).value).value, request, id, now)
    ensures r.Ok? ==> r.value.status == Draft && r.value.reasoning.None?
  {
    if cfg.apiKey == "" then Fail(MissingApiKey)
    else if jpegBase64.None? then Fail(ImageEncodingFailed)
    else match VisionContent(cfg, isValidUrl, ex)
      case Fail(e) => Fail(e)
      case Ok(content) =>
        match decodeReply(content)
        case None => Fail(DecodingFailed)
        case Some(reply) => Ok(VisionDraft(reply, request, id, now))
  }

  // ---------------------------------------------------------------------------
  // Choosing the image backend
  // ---------------------------------------------------------------------------

  datatype ImageBackend = AliyunTask | OpenRouterChat | ImagesGenerations

  /** `imageEndpoint ?? endpoint` */
  function ImageEndpoint(cfg: ApiConfig): string {
    cfg.imageEndpoint.GetOr(cfg.endpoint)
  }

  /**
   * The dispatch in `generateImage`: a model whose lowercased name contains "wanx" goes to the Aliyun task
   * API, whatever the endpoint; otherwise an image endpoint containing "openrouter" (case-sensitively)
   * goes to OpenRouter; everything else to `/images/generations`.
   */
  function ChooseBackend(cfg: ApiConfig): (b: ImageBackend)
    ensures b == AliyunTask <==> Contains(Fold(cfg.imageModel), "wanx")
    ensures b == OpenRouterChat <==> !Contains(Fold(cfg.imageModel), "wanx") && Contains(ImageEndpoint(cfg), "openrouter")
  {
    if Contains(Fold(cfg.imageModel), "wanx") then AliyunTask
    else if Contains(ImageEndpoint(cfg), "openrouter") then OpenRouterChat
    else ImagesGenerations
  }

  /** The default configuration, model "wanx-v1", always takes the Aliyun task path. */
  lemma DefaultConfigUsesAliyun()
    ensures ChooseBackend(DefaultConfig()) == AliyunTask
  {
    var m := Fold(DefaultConfig().imageModel);
    assert m == "wanx-v1";
    assert IsPrefix("wanx", m[0..]);
  }

  /** The model test comes first and ignores case: "WANX-v1" on an OpenRouter endpoint still polls Aliyun. */
  lemma ModelTestComesFirst(cfg: ApiConfig)
    requires cfg.imageModel == "WANX-v1" && cfg.imageEndpoint == Some("https://openrouter.ai/api/v1")
    ensures Contains(ImageEndpoint(cfg), "openrouter")
    ensures ChooseBackend(cfg) == AliyunTask
  {
    var m := Fold(cfg.imageModel);
    assert m == "wanx-v1";
    assert IsPrefix("wanx", m[0..]);
    var e := ImageEndpoint(cfg);
    assert e[8..][..10] == "openrouter";
  }

  /** The endpoint test does not ignore case: an upper-case OpenRouter host goes to `/images/generations`. */
  lemma EndpointTestIsCaseSensitive(cfg: ApiConfig)
    requires cfg.imageModel == "dall-e-3" && cfg.imageEndpoint == Some("https://OPENROUTER.AI")
    ensures CIContains(ImageEndpoint(cfg), "openrouter")
    ensures ChooseBackend(cfg) == ImagesGenerations
  {
    var m := Fold(cfg.imageModel);
    assert m == "dall-e-3";
    NotContainsWithoutHead(m, "wanx");
    var e := ImageEndpoint(cfg);
    NotContainsWithoutHead(e, "openrouter");
    assert Fold(e) == "https://openrouter.ai";
    assert IsPrefix("openrouter", Fold(e)[8..]);
  }

  // ---------------------------------------------------------------------------
  // The three image paths
  // ---------------------------------------------------------------------------

  /** One element of the `data` array of an `/images/generations` reply. */
  datatype ImageDatum = ImageDatum(url: Option<string>, b64Json: Option<string>)

  /** `data.first?.url ?? ""`: the URL of the first element, or empty; `b64_json` is never read. */
  function FirstImageUrl(data: seq<ImageDatum>): (r: string)
    ensures |data| > 0 && data[0].url.Some? ==> r == data[0].url.value
    ensures !(|data| > 0 && data[0].url.Some?) ==> r == ""
  {
    if |data| > 0 && data[0].url.Some? then data[0].url.value else ""
  }

  /** A reply carrying only base64 image data yields the empty string. */
  lemma Base64OnlyGivesEmpty(b64: string, rest: seq<ImageDatum>)
    ensures FirstImageUrl([ImageDatum(None, Some(b64))] + rest) == ""
  {
  }

  /** The result depends on the URLs alone. */
  lemma FirstImageUrlIgnoresBase64(data: seq<ImageDatum>, other: seq<ImageDatum>)
    requires |data| == |other| && forall i :: 0 <= i < |data| ==> data[i].url == other[i].url
    ensures FirstImageUrl(data) == FirstImageUrl(other)
  {
  }

  /** The path through `endpoint/images/generations`. */
  function DirectImage(cfg: ApiConfig, isValidUrl: string -> bool, ex: Exchange<Option<seq<ImageDatum>>>): (r: Outcome<string>)
    ensures !isValidUrl(ImageEndpoint(cfg) + "/images/generations") ==> r == Fail(InvalidURL)
    ensures isValidUrl(ImageEndpoint(cfg) + "/images/generations") && ex.Lost? ==> r == Fail(TransportFailed)
    ensures isValidUrl(ImageEndpoint(cfg) + "/images/generations") && ex.Answered? && StatusFailure(ex.statusCode).Some? ==>
      r == Fail(ApiError(ex.statusCode.GetOr(500)))
    ensures isValidUrl(ImageEndpoint(cfg) + "/images/generations") && ex.Answered? && ex.statusCode == Some(200) ==>
      r == if ex.body.None? then Fail(DecodingFailed) else Ok(FirstImageUrl(ex.body.value))
  {
    if !isValidUrl(ImageEndpoint(cfg) + "/images/generations") then Fail(InvalidURL)
    else match ex
      case Lost => Fail(TransportFailed)
      case Answered(code, body) =>
        if StatusFailure(code).Some? then Fail(StatusFailure(code).value)
        else if body.None? then Fail(DecodingFailed)
        else Ok(FirstImageUrl(body.value))
  }

  /** One status poll of an Aliyun task. */
  datatype PollReply = PollLost | PollUndecodable | TaskState(taskStatus: string, results: Option<seq<string>>)

  const MaxPollAttempts := 30

  /** The reply to poll number `n`; polls past the end of the list are lost. */
  function PollReplyAt(replies: seq<PollReply>, n: nat): PollReply {
    if n < |replies| then replies[n] else PollLost
  }

  /** `results?.first?.url ?? ""` */
  function FirstResultUrl(results: Option<seq<string>>): string {
    if results.Some? && |results.value| > 0 then results.value[0] else ""
  }

  /** A status that keeps the loop polling. */
  predicate Pending(r: PollReply) {
    r.TaskState? && r.taskStatus != "SUCCEEDED" && r.taskStatus != "FAILED"
  }

  /**
   * The poll loop of `generateImageAliyun` from attempt `attempts` on: SUCCEEDED returns the first result
   * URL, FAILED fails, other statuses poll again, and after 30 attempts the task times out with 408.
   * The status code of a poll is not checked.
   */
  function PollOutcome(replies: seq<PollReply>, attempts: nat): (r: Outcome<string>)
    ensures attempts >= MaxPollAttempts ==> r == Fail(ApiError(408))
    ensures r.Ok? ==> exists n :: (attempts <= n < MaxPollAttempts && PollReplyAt(replies, n).TaskState?
      && PollReplyAt(replies, n).taskStatus == "SUCCEEDED" && r.value == FirstResultUrl(PollReplyAt(replies, n).results))
    decreases MaxPollAttempts - attempts
  {
    if attempts >= MaxPollAttempts then Fail(ApiError(408))
    else match PollReplyAt(replies, attempts)
      case PollLost => Fail(TransportFailed)
      case PollUndecodable => Fail(DecodingFailed)
      case TaskState(status, results) =>
        if status == "SUCCEEDED" then Ok(FirstResultUrl(results))
        else if status == "FAILED" then Fail(ImageEncodingFailed)
        else PollOutcome(replies, attempts + 1)
  }

  /** The loop itself, with its attempt counter. */
  method PollTask(replies: seq<PollReply>) returns (r: Outcome<string>)
    ensures r == PollOutcome(replies, 0)
  {
    var attempts := 0;
    while attempts < MaxPollAttempts
      invariant 0 <= attempts <= MaxPollAttempts
      invariant PollOutcome(replies, attempts) == PollOutcome(replies, 0)
    {
      var reply := PollReplyAt(replies, attempts);
      match reply {
        case PollLost => return Fail(TransportFailed);
        case PollUndecodable => return Fail(DecodingFailed);
        case TaskState(status, results) =>
          if status == "SUCCEEDED" {
            return Ok(FirstResultUrl(results));
          } else if status == "FAILED" {
            return Fail(ImageEncodingFailed);
          }
      }
      attempts := attempts + 1;
    }
    return Fail(ApiError(408));
  }

  /** Pending replies are skipped. */
  lemma {:induction false} PollSkipsPending(replies: seq<PollReply>, from: nat, stop: nat)
    requires from <= stop <= MaxPollAttempts
    requires forall n: nat :: from <= n < stop ==> Pending(PollReplyAt(replies, n))
    ensures PollOutcome(replies, from) == PollOutcome(replies, stop)
    decreases stop - from
  {
    if from < stop {
      PollSkipsPending(replies, from + 1, stop);
    }
  }

  /** The first non-pending reply within 30 polls decides: SUCCEEDED gives its URL, FAILED an error. */
  lemma PollDecidedAt(replies: seq<PollReply>, k: nat)
    requires k < MaxPollAttempts && k < |replies| && replies[k].TaskState?
    requires forall n :: 0 <= n < k ==> Pending(PollReplyAt(replies, n))
    ensures replies[k].taskStatus == "SUCCEEDED" ==> PollOutcome(replies, 0) == Ok(FirstResultUrl(replies[k].results))
    ensures replies[k].taskStatus == "FAILED" ==> PollOutcome(replies, 0) == Fail(ImageEncodingFailed)
  {
    PollSkipsPending(replies, 0, k);
  }

  /** Thirty pending replies time out with 408. */
  lemma PollTimesOut(replies: seq<PollReply>)
    requires forall n :: 0 <= n < MaxPollAttempts ==> Pending(PollReplyAt(replies, n))
    ensures PollOutcome(replies, 0) == Fail(ApiError(408))
  {
    PollSkipsPending(replies, 0, MaxPollAttempts);
  }

  /** No reply after the 30th is ever read. */
  lemma {:induction false} PollReadsThirtyAtMost(a: seq<PollReply>, b: seq<PollReply>, attempts: nat)
    requires |a| >= MaxPollAttempts && |b| >= MaxPollAttempts && a[..MaxPollAttempts] == b[..MaxPollAttempts]
    ensures PollOutcome(a, attempts) == PollOutcome(b, attempts)
    decreases MaxPollAttempts - attempts
  {
    if attempts < MaxPollAttempts {
      assert a[attempts] == a[..MaxPollAttempts][attempts] == b[..MaxPollAttempts][attempts] == b[attempts];
      PollReadsThirtyAtMost(a, b, attempts + 1);
    }
  }

  /** `generateImageAliyun`: submit (status check, task id decoding), then the poll. */
  function AliyunImage(submit: Exchange<Option<string>>, polls: seq<PollReply>): (r: Outcome<string>)
    ensures submit.Lost? ==> r == Fail(TransportFailed)
    ensures submit.Answered? && StatusFailure(submit.statusCode).Some? ==> r == Fail(ApiError(submit.statusCode.GetOr(500)))
    ensures submit.Answered? && submit.statusCode == Some(200) ==>
      r == if submit.body.None? then Fail(DecodingFailed) else PollOutcome(polls, 0)
  {
    match submit
    case Lost => Fail(TransportFailed)
    case Answered(code, taskId) =>
      if StatusFailure(code).Some? then Fail(StatusFailure(code).value)
      else if taskId.None? then Fail(DecodingFailed)
      else PollOutcome(polls, 0)
  }

  // ---------------------------------------------------------------------------
  // Reading an OpenRouter reply
  // ---------------------------------------------------------------------------

  /** The characters NSRegularExpression's `.` does not match. */
  predicate IsLineTerminator(c: char) {
    c == '\n' || c == '\U{000B}' || c == '\U{000C}' || c == '\r' || c == '\U{0085}' || c == '\U{2028}' || c == '\U{2029}'
  }

  /** The lazy `(.*?)\)`: the first ')' at or after `k` on the same line. */
  function UrlEnd(s: string, k: nat): (r: Option<nat>)
    requires k <= |s|
    ensures r.Some? ==> k <= r.value < |s| && s[r.value] == ')'
    ensures r.Some? ==> forall i :: k <= i < r.value ==> s[i] != ')' && !IsLineTerminator(s[i])
    decreases |s| - k
  {
    if k == |s| then None
    else if s[k] == ')' then Some(k)
    else if IsLineTerminator(s[k]) then None
    else UrlEnd(s, k + 1)
  }

  /** The lazy `.*?\]\(` from `j`, backtracking into the alt text when no URL follows. */
  function CloseFrom(s: string, j: nat): Option<string>
    requires j <= |s|
    decreases |s| - j
  {
    if j + 2 <= |s| && s[j] == ']' && s[j + 1] == '(' && UrlEnd(s, j + 2).Some? then
      Some(s[j + 2..UrlEnd(s, j + 2).value])
    else if j < |s| && !IsLineTerminator(s[j]) then CloseFrom(s, j + 1)
    else None
  }

  /** A match of `\!\[.*?\]\((.*?)\)` starting at `p`, as its capture group. */
  function MarkdownAt(s: string, p: nat): Option<string>
    requires p <= |s|
  {
    if p + 2 <= |s| && s[p] == '!' && s[p + 1] == '[' then CloseFrom(s, p + 2) else None
  }

  /** `firstMatch(in:)`: the leftmost start position at which the pattern matches. */
  function MarkdownFrom(s: string, p: nat): Option<string>
    requires p <= |s|
    decreases |s| - p
  {
    if MarkdownAt(s, p).Some? then MarkdownAt(s, p)
    else if p == |s| then None
    else MarkdownFrom(s, p + 1)
  }

  function MarkdownImageUrl(content: string): Option<string> {
    MarkdownFrom(content, 0)
  }

  predicate PlainText(s: string, stop: char) {
    forall i :: 0 <= i < |s| ==> s[i] != stop && !IsLineTerminator(s[i])
  }

  lemma {:induction false} UrlEndAfter(s: string, k: nat, n: nat)
    requires k + n < |s| && s[k + n] == ')'
    requires forall i :: k <= i < k + n ==> s[i] != ')' && !IsLineTerminator(s[i])
    ensures UrlEnd(s, k) == Some(k + n)
    decreases n
  {
    if n > 0 {
      UrlEndAfter(s, k + 1, n - 1);
    }
  }

  lemma {:induction false} CloseFromSkips(s: string, j: nat, n: nat)
    requires j + n <= |s|
    requires forall i :: j <= i < j + n ==> s[i] != ']' && !IsLineTerminator(s[i])
    ensures CloseFrom(s, j) == CloseFrom(s, j + n)
    decreases n
  {
    if n > 0 {
      CloseFromSkips(s, j + 1, n - 1);
    }
  }

  lemma {:induction false} MarkdownFromSkips(s: string, p: nat, n: nat)
    requires p + n <= |s|
    requires forall i :: p <= i < p + n ==> s[i] != '!'
    ensures MarkdownFrom(s, p) == MarkdownFrom(s, p + n)
    decreases n
  {
    if n > 0 {
      MarkdownFromSkips(s, p + 1, n - 1);
    }
  }

  /** A markdown image laid out in `s` at `p`, its alt text and URL given as slices. */
  lemma MarkdownLayout(s: string, p: nat, alt: string, url: string)
    requires p + 4 + |alt| + |url| < |s|
    requires forall i :: 0 <= i < p ==> s[i] != '!'
    requires s[p] == '!' && s[p + 1] == '['
    requires s[p + 2..p + 2 + |alt|] == alt && PlainText(alt, ']')
    requires s[p + 2 + |alt|] == ']' && s[p + 3 + |alt|] == '('
    requires s[p + 4 + |alt|..p + 4 + |alt| + |url|] == url && PlainText(url, ')')
    requires s[p + 4 + |alt| + |url|] == ')'
    ensures MarkdownFrom(s, 0) == Some(url)
  {
    var j := p + 2 + |alt|;
    MarkdownFromSkips(s, 0, p);
    assert forall i :: p + 2 <= i < j ==> s[i] == s[p + 2..j][i - (p + 2)];
    CloseFromSkips(s, p + 2, |alt|);
    assert forall i :: j + 2 <= i < j + 2 + |url| ==> s[i] == s[j + 2..j + 2 + |url|][i - (j + 2)];
    UrlEndAfter(s, j + 2, |url|);
  }

  /**
   * The extractor's inverse: text without '!' followed by `![alt](url)` yields `url`, when the alt text
   * holds no ']' and the URL no ')', and neither holds a line break.
   */
  lemma MarkdownRoundTrip(before: string, alt: string, url: string, after: string)
    requires forall i :: 0 <= i < |before| ==> before[i] != '!'
    requires PlainText(alt, ']') && PlainText(url, ')')
    ensures MarkdownImageUrl(before + "![" + alt + "](" + url + ")" + after) == Some(url)
  {
    var tail := ")" + after;
    var mid := url + tail;
    var rest := alt + "](" + mid;
    var s := before + ("![" + rest);
    assert s == before + "![" + alt + "](" + url + ")" + after;
    var p := |before|;
    assert s[..p] == before;
    assert s[p..] == "![" + rest;
    assert s[p + 2..] == rest;
    assert s[p + 2..][..|alt|] == alt;
    assert s[p + 2 + |alt|..] == "](" + mid;
    assert s[p + 4 + |alt|..] == mid;
    assert s[p + 4 + |alt|..][..|url|] == url;
    assert s[p + 4 + |alt| + |url|..] == tail;
    MarkdownLayout(s, p, alt, url);
  }

  /** Text without '!' holds no markdown image. */
  lemma NoBangNoMarkdown(content: string)
    requires forall i :: 0 <= i < |content| ==> content[i] != '!'
    ensures MarkdownImageUrl(content).None?
  {
    MarkdownFromSkips(content, 0, |content|);
  }

  /**
   * The reader in `generateImageOpenRouter`, tried in order on `choices[0].message`: the URL nested in
   * `images[0].image_url.url`; the first element of an `images` array of strings; the capture of a
   * markdown image in `content`; `content` itself, trimmed, when it starts with "http" or "data:image"
   * (tested before trimming). Anything else fails with `imageEncodingFailed`.
   */
  function ImageFromMessage(message: map<string, Json>): (r: Outcome<string>)
    ensures r.Fail? ==> r.failure == ImageEncodingFailed
  {
    var images := Field(message, "images");
    var objects := AsObjectArray(images);
    var strings := AsStringArray(images);
    var content := AsString(Field(message, "content"));
    if objects.Some? && |objects.value| > 0 && AsObject(Field(objects.value[0], "image_url")).Some?
       && AsString(Field(AsObject(Field(objects.value[0], "image_url")).value, "url")).Some? then
      Ok(AsString(Field(AsObject(Field(objects.value[0], "image_url")).value, "url")).value)
    else if strings.Some? && |strings.value| > 0 then
      Ok(strings.value[0])
    else if content.Some? then
      match MarkdownImageUrl(content.value)
      case Some(url) => Ok(url)
      case None =>
        if IsPrefix("http", content.value) || IsPrefix("data:image", content.value) then Ok(Trim(content.value))
        else Fail(ImageEncodingFailed)
    else Fail(ImageEncodingFailed)
  }

  /** The whole reply: `(json?["choices"] as? [[String: Any]])?.first`, then its "message" object. */
  function OpenRouterImageFromReply(json: Option<Json>): (r: Outcome<string>)
    ensures r.Fail? ==> r.failure == ImageEncodingFailed
  {
    var top := AsObject(json);
    var choices := if top.Some? then AsObjectArray(Field(top.value, "choices")) else None;
    if choices.Some? && |choices.value| > 0 && AsObject(Field(choices.value[0], "message")).Some? then
      ImageFromMessage(AsObject(Field(choices.value[0], "message")).value)
    else Fail(ImageEncodingFailed)
  }

  /** A reply whose first choice carries `message`. */
  function ReplyWithMessage(message: map<string, Json>): Json {
    JObject(map["choices" := JArray([JObject(map["message" := JObject(message)])])])
  }

  function NestedImage(url: string): Json {
    JArray([JObject(map["image_url" := JObject(map["url" := JString(url)])])])
  }

  lemma ReadsTheFirstChoice(message: map<string, Json>)
    ensures OpenRouterImageFromReply(Some(ReplyWithMessage(message))) == ImageFromMessage(message)
  {
    var top := AsObject(Some(ReplyWithMessage(message))).value;
    assert Field(top, "choices") == Some(JArray([JObject(map["message" := JObject(message)])]));
  }

  /** The nested image URL wins over any content. */
  lemma NestedImageComesFirst(message: map<string, Json>, url: string)
    requires "images" in message && message["images"] == NestedImage(url)
    ensures ImageFromMessage(message) == Ok(url)
  {
    var objects := AsObjectArray(Field(message, "images"));
    assert objects.Some? && objects.value[0] == map["image_url" := JObject(map["url" := JString(url)])];
  }

  /** An array of strings gives its first element, whatever the content says. */
  lemma StringImagesComeSecond(message: map<string, Json>, urls: seq<string>)
    requires |urls| > 0
    requires "images" in message && message["images"] == JArray(seq(|urls|, i requires 0 <= i < |urls| => JString(urls[i])))
    ensures ImageFromMessage(message) == Ok(urls[0])
  {
    var items := message["images"].items;
    assert items[0] == JString(urls[0]);
    assert !AllObjects(items);
  }

  /** With no images, a markdown image in the content gives its URL. */
  lemma MarkdownComesThird(message: map<string, Json>, before: string, alt: string, url: string, after: string)
    requires "images" !in message
    requires forall i :: 0 <= i < |before| ==> before[i] != '!'
    requires PlainText(alt, ']') && PlainText(url, ')')
    requires "content" in message && message["content"] == JString(before + "![" + alt + "](" + url + ")" + after)
    ensures ImageFromMessage(message) == Ok(url)
  {
    MarkdownRoundTrip(before, alt, url, after);
  }

  /** With no images and no markdown, content starting with "http" is returned trimmed. */
  lemma PlainUrlComesLast(message: map<string, Json>, content: string)
    requires "images" !in message && "content" in message && message["content"] == JString(content)
    requires forall i :: 0 <= i < |content| ==> content[i] != '!'
    requires IsPrefix("http", content)
    ensures ImageFromMessage(message) == Ok(Trim(content))
  {
    NoBangNoMarkdown(content);
  }

  /** The prefix test runs before trimming: a URL after a leading space is rejected. */
  lemma LeadingSpaceRejected(message: map<string, Json>, url: string)
    requires "images" !in message && "content" in message && message["content"] == JString(" " + url)
    requires forall i :: 0 <= i < |url| ==> url[i] != '!'
    ensures ImageFromMessage(message) == Fail(ImageEncodingFailed)
  {
    var c := " " + url;
    assert forall i :: 0 <= i < |c| ==> c[i] != '!' by {
      assert forall i :: 1 <= i < |c| ==> c[i] == url[i - 1];
    }
    NoBangNoMarkdown(c);
    assert AsObjectArray(Field(message, "images")).None? && AsStringArray(Field(message, "images")).None?;
    assert AsString(Field(message, "content")) == Some(c);
    FirstCharDiffers("http", c);
    FirstCharDiffers("data:image", c);
  }

  /** A reply that does not parse, or has no choices, fails. */
  lemma UnreadableReplyFails(json: Option<Json>)
    requires json.None? || (json.value.JObject? && "choices" !in json.value.fields)
    ensures OpenRouterImageFromReply(json) == Fail(ImageEncodingFailed)
  {
  }

  /**
   * `generateImageOpenRouter`: its URL is built from `endpoint`, not from the image endpoint the dispatch
   * tested; a reply whose body does not parse as a JSON object reads as None.
   */
  function OpenRouterImage(cfg: ApiConfig, isValidUrl: string -> bool, ex: Exchange<Option<Json>>): (r: Outcome<string>)
    ensures !isValidUrl(cfg.endpoint + ChatPath) ==> r == Fail(InvalidURL)
    ensures isValidUrl(cfg.endpoint + ChatPath) && ex.Lost? ==> r == Fail(TransportFailed)
    ensures isValidUrl(cfg.endpoint + ChatPath) && ex.Answered? && StatusFailure(ex.statusCode).Some? ==>
      r == Fail(ApiError(ex.statusCode.GetOr(500)))
    ensures isValidUrl(cfg.endpoint + ChatPath) && ex.Answered? && ex.statusCode == Some(200) ==>
      r == OpenRouterImageFromReply(ex.body)
  {
    if !isValidUrl(cfg.endpoint + ChatPath) then Fail(InvalidURL)
    else match ex
      case Lost => Fail(TransportFailed)
      case Answered(code, json) =>
        if StatusFailure(code).Some? then Fail(StatusFailure(code).value)
        else OpenRouterImageFromReply(json)
  }

  /** `generateImage`: key guard, then the backend the configuration selects. */
  function GenerateImage(
    cfg: ApiConfig, isValidUrl: string -> bool,
    direct: Exchange<Option<seq<ImageDatum>>>,
    submit: Exchange<Option<string>>, polls: seq<PollReply>,
    chat: Exchange<Option<Json>>): (r: Outcome<string>)
    ensures cfg.apiKey == "" ==> r == Fail(MissingApiKey)
    ensures cfg.apiKey != "" && ChooseBackend(cfg) == AliyunTask ==> r == AliyunImage(submit, polls)
    ensures cfg.apiKey != "" && ChooseBackend(cfg) == OpenRouterChat ==> r == OpenRouterImage(cfg, isValidUrl, chat)
    ensures cfg.apiKey != "" && ChooseBackend(cfg) == ImagesGenerations ==> r == DirectImage(cfg, isValidUrl, direct)
  {
    if cfg.apiKey == "" then Fail(MissingApiKey)
    else match ChooseBackend(cfg)
      case AliyunTask => AliyunImage(submit, polls)
      case OpenRouterChat => OpenRouterImage(cfg, isValidUrl, chat)
      case ImagesGenerations => DirectImage(cfg, isValidUrl, direct)
  }

  /** With the default configuration and a key, the image comes from the Aliyun poll and nothing else. */
  lemma DefaultConfigImageIsPolled(key: string, isValidUrl: string -> bool,
                                   direct: Exchange<Option<seq<ImageDatum>>>, submit: Exchange<Option<string>>,
                                   polls: seq<PollReply>, chat: Exchange<Option<Json>>)
    requires key != ""
    ensures GenerateImage(DefaultConfig().(apiKey := key), isValidUrl, direct, submit, polls, chat) == AliyunImage(submit, polls)
  {
    DefaultConfigUsesAliyun();
    assert ChooseBackend(DefaultConfig().(apiKey := key)) == ChooseBackend(DefaultConfig());
  }

  /** Without a key, every entry point fails before anything is sent. */
  lemma MissingKeyFailsEverywhere(
    cfg: ApiConfig, request: DesignRequest, jpeg: Option<string>, isValidUrl: string -> bool,
    ex: Exchange<Option<seq<string>>>, decodeReply: string -> Option<AIReply>, id: string, now: real,
    direct: Exchange<Option<seq<ImageDatum>>>, submit: Exchange<Option<string>>, polls: seq<PollReply>,
    chat: Exchange<Option<Json>>)
    requires cfg.apiKey == ""
    ensures GenerateFlowerPlan(cfg, request, isValidUrl, ex, decodeReply, id, now) == Fail(MissingApiKey)
    ensures GenerateDesignFromImage(cfg, request, jpeg, isValidUrl, ex, decodeReply, id, now) == Fail(MissingApiKey)
    ensures GenerateImage(cfg, isValidUrl, direct, submit, polls, chat) == Fail(MissingApiKey)
  {
  }
}
