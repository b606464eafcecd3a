/** What each handler of the AI controller does to the world, as functions:
    the gate, then the external calls of the handler's plan in order until
    one fails, then the response. The imperative handlers in module
    Controller are proved equal to these. */
module Pipeline {
  import opened Results
  import opened Entitlement
  import opened Creations
  import opened Providers

  const NoFileMessage: string := "No file uploaded"
  const BackgroundPrompt: string := "Remove background"
  const ResumeReviewPrompt: string := "Resume review"

  /** The caller as the request presents it: the authenticated `userId`,
      `req.plan` and `req.free_usage`. */
  datatype Caller = Caller(userId: string, plan: string, freeUsage: int)

  /** `req.file`, when a file was uploaded. */
  datatype UploadedFile = UploadedFile(path: string)

  /** The JSON body the handler sends: `{success: true, content}` or
      `{success: false, message}`. */
  datatype Response = Success(content: string) | Failure(message: string)

  /** The state the handlers act on: the `creations` table, the
      `free_usage` entry of each user's private metadata, and every external
      call made so far, in order. */
  datatype World = World(ledger: seq<Creation>, freeUsage: map<string, int>, calls: seq<Call>)

  /** The world after a request and the response it got. */
  datatype Handled = Handled(world: World, response: Response)

  /** The world once `call` has been issued. */
  function Issue(w: World, call: Call): World
  {
    w.(calls := w.calls + [call])
  }

  /** Starting from `w`, the request made the first k calls of `plan` in
      order and no other call; each of them but the last succeeded; it
      answered success only after the whole plan succeeded, and failure
      only with the error message of the call it stopped at. */
  predicate FollowsPlan(w: World, env: Env, plan: seq<Call>, r: Handled)
  {
    var k := |r.world.calls| - |w.calls|;
    && 0 <= k <= |plan|
    && r.world.calls == w.calls + plan[..k]
    && (forall i | 0 <= i < k - 1 :: Answer(env, plan[i]).Ok?)
    && (r.response.Success? ==> k == |plan| && forall i | 0 <= i < k :: Answer(env, plan[i]).Ok?)
    && (r.response.Failure? ==> 0 < k && Answer(env, plan[k - 1]) == Err(r.response.message))
  }

  /** The ledger insert that ends each handler, and the response after it. */
  function Store(w: World, row: Creation, env: Env): (r: Handled)
    ensures FollowsPlan(w, env, [InsertCreation(row)], r)
    ensures r.response.Success? <==> env.insert.Ok?
    ensures r.response.Success? ==> r.response.content == row.content
    ensures r.world.ledger == if env.insert.Ok? then w.ledger + [row] else w.ledger
    ensures r.world.freeUsage == w.freeUsage
  {
    var w1 := Issue(w, InsertCreation(row));
    match env.insert
    case Err(m) => Handled(w1, Failure(m))
    case Ok(_) => Handled(w1.(ledger := w1.ledger + [row]), Success(row.content))
  }

  // ---------------------------------------------------------------- metered

  /** The calls of a metered request that passes the gate: the completion,
      the insert of its text, and for a non-premium caller the write of
      the request's `free_usage` plus one. */
  function MeteredPlan(kind: CreationType, c: Caller, prompt: string, maxTokens: Option<int>, env: Env): seq<Call>
  {
    [ChatRequest(prompt, maxTokens)] +
    (match env.chat
     case Err(_) => []
     case Ok(content) =>
       [InsertCreation(Creation(c.userId, prompt, content, kind, false))] +
       (if IsPremium(c.plan) then [] else [UpdateFreeUsage(c.userId, c.freeUsage + 1)]))
  }

  /** The body shared by the article and blog-title handlers. */
  function MeteredOutcome(w: World, kind: CreationType, c: Caller, prompt: string, maxTokens: Option<int>, env: Env): (r: Handled)
    ensures MeteredRejects(c.plan, c.freeUsage) <==> r == Handled(w, Failure(LimitMessage))
    ensures !MeteredRejects(c.plan, c.freeUsage) ==> FollowsPlan(w, env, MeteredPlan(kind, c, prompt, maxTokens, env), r)
    ensures r.response.Success? ==>
              env.chat == Ok(r.response.content) &&
              r.world.ledger == w.ledger + [Creation(c.userId, prompt, r.response.content, kind, false)]
    ensures r.response.Failure? ==>
              r.world.ledger == w.ledger ||
              (!IsPremium(c.plan) && env.chat.Ok? && env.insert.Ok? && env.update == Err(r.response.message) &&
               r.world.ledger == w.ledger + [Creation(c.userId, prompt, env.chat.value, kind, false)])
    ensures r.world.freeUsage ==
              if r.response.Success? && !IsPremium(c.plan) then w.freeUsage[c.userId := c.freeUsage + 1]
              else w.freeUsage
  {
    if MeteredRejects(c.plan, c.freeUsage) then Handled(w, Failure(LimitMessage))
    else
      var w1 := Issue(w, ChatRequest(prompt, maxTokens));
      match env.chat
      case Err(m) => Handled(w1, Failure(m))
      case Ok(content) =>
        var stored := Store(w1, Creation(c.userId, prompt, content, kind, false), env);
        if stored.response.Failure? || IsPremium(c.plan) then stored
        else
          var w2 := Issue(stored.world, UpdateFreeUsage(c.userId, c.freeUsage + 1));
          match env.update
          case Err(m) => Handled(w2, Failure(m))
          case Ok(_) => Handled(w2.(freeUsage := w2.freeUsage[c.userId := c.freeUsage + 1]), Success(content))
  }

  /** `generateArticle`: the caller's `length` is the completion budget,
      400 tokens when it is absent. */
  function ArticleOutcome(w: World, c: Caller, prompt: string, length: Option<int>, env: Env): (r: Handled)
    ensures r.world.calls != w.calls ==>
              |r.world.calls| > |w.calls| &&
              r.world.calls[|w.calls|] == Chat(GroqModel, prompt, Temperature, if length.Some? then length.value else DefaultMaxTokens)
    ensures w.ledger <= r.world.ledger && |r.world.ledger| <= |w.ledger| + 1
    ensures |r.world.ledger| > |w.ledger| ==> r.world.ledger[|w.ledger|].kind.Column() == "article"
  {
    MeteredOutcome(w, Article, c, prompt, length, env)
  }

  /** `generateBlogTitle`: a 100-token completion. */
  function BlogTitleOutcome(w: World, c: Caller, prompt: string, env: Env): (r: Handled)
    ensures r.world.calls != w.calls ==>
              |r.world.calls| > |w.calls| &&
              r.world.calls[|w.calls|] == Chat(GroqModel, prompt, Temperature, BlogTitleMaxTokens)
    ensures w.ledger <= r.world.ledger && |r.world.ledger| <= |w.ledger| + 1
    ensures |r.world.ledger| > |w.ledger| ==> r.world.ledger[|w.ledger|].kind.Column() == "blog-title"
  {
    MeteredOutcome(w, BlogTitle, c, prompt, Some(BlogTitleMaxTokens), env)
  }

  // ------------------------------------------------------- image generation

  /** Text-to-image, upload of the returned PNG, insert of the secure URL. */
  function ImagePlan(c: Caller, prompt: string, publish: Option<bool>, env: Env): seq<Call>
  {
    [TextToImage(prompt)] +
    (match env.textToImage
     case Err(_) => []
     case Ok(png) =>
       [Upload(GeneratedImage(png), Untransformed)] +
       (match env.upload
        case Err(_) => []
        case Ok(up) => [InsertCreation(Creation(c.userId, prompt, up.secureUrl, Image, publish.GetOr(false)))]))
  }

  /** `generateImage`. */
  function ImageOutcome(w: World, c: Caller, prompt: string, publish: Option<bool>, env: Env): (r: Handled)
    ensures PremiumOnlyRejects(c.plan) <==> r == Handled(w, Failure(ImagePremiumMessage))
    ensures !PremiumOnlyRejects(c.plan) ==> FollowsPlan(w, env, ImagePlan(c, prompt, publish, env), r)
    ensures r.response.Success? ==> env.upload.Ok? && env.upload.value.secureUrl == r.response.content
    ensures r.world.ledger ==
              if r.response.Success? then w.ledger + [Creation(c.userId, prompt, r.response.content, Image, publish.GetOr(false))]
              else w.ledger
    ensures r.world.freeUsage == w.freeUsage
  {
    if PremiumOnlyRejects(c.plan) then Handled(w, Failure(ImagePremiumMessage))
    else
      var w1 := Issue(w, TextToImage(prompt));
      match env.textToImage
      case Err(m) => Handled(w1, Failure(m))
      case Ok(png) =>
        var w2 := Issue(w1, Upload(GeneratedImage(png), Untransformed));
        match env.upload
        case Err(m) => Handled(w2, Failure(m))
        case Ok(up) => Store(w2, Creation(c.userId, prompt, up.secureUrl, Image, publish.GetOr(false)), env)
  }

  // ----------------------------------------------------- background removal

  /** Upload with the background-removal transformation, insert of the URL. */
  function BackgroundPlan(c: Caller, file: UploadedFile, env: Env): seq<Call>
  {
    [Upload(LocalFile(file.path), RemoveBackground)] +
    (match env.upload
     case Err(_) => []
     case Ok(up) => [InsertCreation(Creation(c.userId, BackgroundPrompt, up.secureUrl, Image, false))])
  }

  /** `removeImageBackground`. */
  function BackgroundRemovalOutcome(w: World, c: Caller, file: Option<UploadedFile>, env: Env): (r: Handled)
    ensures PremiumOnlyRejects(c.plan) <==> r == Handled(w, Failure(PremiumOnlyMessage))
    ensures !PremiumOnlyRejects(c.plan) && file.None? ==> r == Handled(w, Failure(UndefinedPathMessage))
    ensures !PremiumOnlyRejects(c.plan) && file.Some? ==> FollowsPlan(w, env, BackgroundPlan(c, file.value, env), r)
    ensures r.response.Success? ==> env.upload.Ok? && env.upload.value.secureUrl == r.response.content
    ensures r.world.ledger ==
              if r.response.Success? then w.ledger + [Creation(c.userId, BackgroundPrompt, r.response.content, Image, false)]
              else w.ledger
    ensures r.world.freeUsage == w.freeUsage
  {
    if PremiumOnlyRejects(c.plan) then Handled(w, Failure(PremiumOnlyMessage))
    else if file.None? then Handled(w, Failure(UndefinedPathMessage))
    else
      var w1 := Issue(w, Upload(LocalFile(file.value.path), RemoveBackground));
      match env.upload
      case Err(m) => Handled(w1, Failure(m))
      case Ok(up) => Store(w1, Creation(c.userId, BackgroundPrompt, up.secureUrl, Image, false), env)
  }

  // --------------------------------------------------------- object removal

  /** Plain upload, construction of the URL carrying the removal effect,
      insert of that URL. */
  function ObjectPlan(c: Caller, obj: Option<string>, file: UploadedFile, env: Env): seq<Call>
  {
    [Upload(LocalFile(file.path), Untransformed)] +
    (match env.upload
     case Err(_) => []
     case Ok(up) =>
       [BuildUrl(up.publicId, RemovalEffect(TemplateText(obj)))] +
       (match env.url
        case Err(_) => []
        case Ok(url) => [InsertCreation(Creation(c.userId, RemovalPrompt(TemplateText(obj)), url, Image, false))]))
  }

  /** `removeImageObject`. */
  function ObjectRemovalOutcome(w: World, c: Caller, obj: Option<string>, file: Option<UploadedFile>, env: Env): (r: Handled)
    ensures PremiumOnlyRejects(c.plan) <==> r == Handled(w, Failure(PremiumOnlyMessage))
    ensures !PremiumOnlyRejects(c.plan) && file.None? ==> r == Handled(w, Failure(UndefinedPathMessage))
    ensures !PremiumOnlyRejects(c.plan) && file.Some? ==> FollowsPlan(w, env, ObjectPlan(c, obj, file.value, env), r)
    ensures r.response.Success? ==> env.url == Ok(r.response.content)
    ensures r.world.ledger ==
              if r.response.Success? then w.ledger + [Creation(c.userId, RemovalPrompt(TemplateText(obj)), r.response.content, Image, false)]
              else w.ledger
    ensures r.world.freeUsage == w.freeUsage
  {
    if PremiumOnlyRejects(c.plan) then Handled(w, Failure(PremiumOnlyMessage))
    else if file.None? then Handled(w, Failure(UndefinedPathMessage))
    else
      var w1 := Issue(w, Upload(LocalFile(file.value.path), Untransformed));
      match env.upload
      case Err(m) => Handled(w1, Failure(m))
      case Ok(up) =>
        var w2 := Issue(w1, BuildUrl(up.publicId, RemovalEffect(TemplateText(obj))));
        match env.url
        case Err(m) => Handled(w2, Failure(m))
        case Ok(url) => Store(w2, Creation(c.userId, RemovalPrompt(TemplateText(obj)), url, Image, false), env)
  }

  // ---------------------------------------------------------- resume review

  /** File read, PDF parse, 1000-token review of the extracted text, insert
      of the review. */
  function ResumePlan(c: Caller, file: UploadedFile, env: Env): seq<Call>
  {
    [ReadFile(file.path)] +
    (match env.readFile
     case Err(_) => []
     case Ok(data) => ReviewPlan(c, data, env))
  }

  /** The part of the resume plan after the file has been read. */
  function ReviewPlan(c: Caller, data: seq<byte>, env: Env): seq<Call>
  {
    [ParsePdf(data)] +
    (match env.parsePdf
     case Err(_) => []
     case Ok(text) =>
       [ChatRequest(ResumePrompt(text), Some(ResumeReviewMaxTokens))] +
       (match env.chat
        case Err(_) => []
        case Ok(review) => [InsertCreation(Creation(c.userId, ResumeReviewPrompt, review, ResumeReview, false))]))
  }

  /** What the resume handler does with the bytes of the file it read. */
  function ReviewOutcome(w: World, c: Caller, data: seq<byte>, env: Env): (r: Handled)
    ensures FollowsPlan(w, env, ReviewPlan(c, data, env), r)
    ensures r.response.Success? ==> env.chat == Ok(r.response.content)
    ensures r.world.ledger ==
              if r.response.Success? then w.ledger + [Creation(c.userId, ResumeReviewPrompt, r.response.content, ResumeReview, false)]
              else w.ledger
    ensures r.world.freeUsage == w.freeUsage
  {
    var w1 := Issue(w, ParsePdf(data));
    match env.parsePdf
    case Err(m) => Handled(w1, Failure(m))
    case Ok(text) =>
      var w2 := Issue(w1, ChatRequest(ResumePrompt(text), Some(ResumeReviewMaxTokens)));
      match env.chat
      case Err(m) => Handled(w2, Failure(m))
      case Ok(review) => Store(w2, Creation(c.userId, ResumeReviewPrompt, review, ResumeReview, false), env)
  }

  /** `resumeReview`: the plan is checked before the file. */
  function ResumeReviewOutcome(w: World, c: Caller, file: Option<UploadedFile>, env: Env): (r: Handled)
    ensures PremiumOnlyRejects(c.plan) <==> r == Handled(w, Failure(PremiumOnlyMessage))
    ensures !PremiumOnlyRejects(c.plan) && file.None? ==> r == Handled(w, Failure(NoFileMessage))
    ensures !PremiumOnlyRejects(c.plan) && file.Some? ==> FollowsPlan(w, env, ResumePlan(c, file.value, env), r)
    ensures r.response.Success? ==> env.chat == Ok(r.response.content)
    ensures r.world.ledger ==
              if r.response.Success? then w.ledger + [Creation(c.userId, ResumeReviewPrompt, r.response.content, ResumeReview, false)]
              else w.ledger
    ensures r.world.freeUsage == w.freeUsage
  {
    if PremiumOnlyRejects(c.plan) then Handled(w, Failure(PremiumOnlyMessage))
    else if file.None? then Handled(w, Failure(NoFileMessage))
    else
      var w1 := Issue(w, ReadFile(file.value.path));
      match env.readFile
      case Err(m) => Handled(w1, Failure(m))
      case Ok(data) =>
        var r := ReviewOutcome(w1, c, data, env);
        FollowsPlanAfter(w, env, ReadFile(file.value.path), ReviewPlan(c, data, env), w1, r);
        r
  }

  /** A plan whose first call succeeded is followed from the world before
      that call when its remainder is followed from the world after it. */
  lemma FollowsPlanAfter(w: World, env: Env, call: Call, rest: seq<Call>, w1: World, r: Handled)
    requires w1.calls == w.calls + [call]
    requires Answer(env, call).Ok?
    requires FollowsPlan(w1, env, rest, r)
    ensures FollowsPlan(w, env, [call] + rest, r)
  {
  }
}
