/** The six request handlers of the AI controller, step by step with early
    returns as the source writes them, over an object holding the ledger,
    the usage counters and the trace of external calls. */
module Controller {
  import opened Results
  import opened Entitlement
  import opened Creations
  import opened Providers
  import opened Pipeline

  class AiController {
    /** Rows of the `creations` table. */
    var ledger: seq<Creation>
    /** `privateMetadata.free_usage` of each user, as the identity service holds it. */
    var freeUsage: map<string, int>
    /** Every external call issued so far, in order. */
    var calls: seq<Call>

    function State(): World
      reads this
    {
      World(ledger, freeUsage, calls)
    }

    constructor (rows: seq<Creation>, usage: map<string, int>)
      ensures State() == World(rows, usage, [])
    {
      ledger := rows;
      freeUsage := usage;
      calls := [];
    }

    /** Issues `call` and awaits it; `outcome` is how the service answers. */
    method Await<T>(call: Call, outcome: Result<T>) returns (r: Result<T>)
      modifies this
      ensures r == outcome
      ensures State() == Issue(old(State()), call)
    {
      calls := calls + [call];
      r := outcome;
    }

    /** `INSERT INTO creations …`: the row is kept only when the insert succeeds. */
    method Insert(row: Creation, env: Env) returns (r: Result<()>)
      modifies this
      ensures r == env.insert
      ensures State() == (var w := Issue(old(State()), InsertCreation(row));
                          if r.Ok? then w.(ledger := w.ledger + [row]) else w)
    {
      calls := calls + [InsertCreation(row)];
      r := env.insert;
      if r.Ok? {
        ledger := ledger + [row];
      }
    }

    /** `updateUserMetadata(userId, {privateMetadata: {free_usage: value}})`:
        the counter is overwritten only when the update succeeds. */
    method SetFreeUsage(userId: string, value: int, env: Env) returns (r: Result<()>)
      modifies this
      ensures r == env.update
      ensures State() == (var w := Issue(old(State()), UpdateFreeUsage(userId, value));
                          if r.Ok? then w.(freeUsage := w.freeUsage[userId := value]) else w)
    {
      calls := calls + [UpdateFreeUsage(userId, value)];
      r := env.update;
      if r.Ok? {
        freeUsage := freeUsage[userId := value];
      }
    }

    /** The body the article and blog-title handlers share. */
    method HandleMetered(kind: CreationType, c: Caller, prompt: string, maxTokens: Option<int>, env: Env)
      returns (r: Response)
      modifies this
      ensures Handled(State(), r) == MeteredOutcome(old(State()), kind, c, prompt, maxTokens, env)
    {
      if MeteredRejects(c.plan, c.freeUsage) {
        return Failure(LimitMessage);
      }
      var content := Await(ChatRequest(prompt, maxTokens), env.chat);
      if content.Err? {
        return Failure(content.message);
      }
      var inserted := Insert(Creation(c.userId, prompt, content.value, kind, false), env);
      if inserted.Err? {
        return Failure(inserted.message);
      }
      if !IsPremium(c.plan) {
        var updated := SetFreeUsage(c.userId, c.freeUsage + 1, env);
        if updated.Err? {
          return Failure(updated.message);
        }
      }
      return Success(content.value);
    }

    /** `generateArticle`. */
    method GenerateArticle(c: Caller, prompt: string, length: Option<int>, env: Env) returns (r: Response)
      modifies this
      ensures Handled(State(), r) == ArticleOutcome(old(State()), c, prompt, length, env)
    {
      r := HandleMetered(Article, c, prompt, length, env);
    }

    /** `generateBlogTitle`. */
    method GenerateBlogTitle(c: Caller, prompt: string, env: Env) returns (r: Response)
      modifies this
      ensures Handled(State(), r) == BlogTitleOutcome(old(State()), c, prompt, env)
    {
      r := HandleMetered(BlogTitle, c, prompt, Some(BlogTitleMaxTokens), env);
    }

    /** `generateImage`. */
    method GenerateImage(c: Caller, prompt: string, publish: Option<bool>, env: Env) returns (r: Response)
      modifies this
      ensures Handled(State(), r) == ImageOutcome(old(State()), c, prompt, publish, env)
    {
      if PremiumOnlyRejects(c.plan) {
        return Failure(ImagePremiumMessage);
      }
      var image := Await(TextToImage(prompt), env.textToImage);
      if image.Err? {
        return Failure(image.message);
      }
      var uploaded := Await(Upload(GeneratedImage(image.value), Untransformed), env.upload);
      if uploaded.Err? {
        return Failure(uploaded.message);
      }
      var secureUrl := uploaded.value.secureUrl;
      var inserted := Insert(Creation(c.userId, prompt, secureUrl, Image, publish.GetOr(false)), env);
      if inserted.Err? {
        return Failure(inserted.message);
      }
      return Success(secureUrl);
    }

    /** `removeImageBackground`. */
    method RemoveImageBackground(c: Caller, file: Option<UploadedFile>, env: Env) returns (r: Response)
      modifies this
      ensures Handled(State(), r) == BackgroundRemovalOutcome(old(State()), c, file, env)
    {
      if PremiumOnlyRejects(c.plan) {
        return Failure(PremiumOnlyMessage);
      }
      if file.None? {
        return Failure(UndefinedPathMessage);
      }
      var uploaded := Await(Upload(LocalFile(file.value.path), RemoveBackground), env.upload);
      if uploaded.Err? {
        return Failure(uploaded.message);
      }
      var secureUrl := uploaded.value.secureUrl;
      var inserted := Insert(Creation(c.userId, BackgroundPrompt, secureUrl, Image, false), env);
      if inserted.Err? {
        return Failure(inserted.message);
      }
      return Success(secureUrl);
    }

    /** `removeImageObject`. */
    method RemoveImageObject(c: Caller, obj: Option<string>, file: Option<UploadedFile>, env: Env) returns (r: Response)
      modifies this
      ensures Handled(State(), r) == ObjectRemovalOutcome(old(State()), c, obj, file, env)
    {
      if PremiumOnlyRejects(c.plan) {
        return Failure(PremiumOnlyMessage);
      }
      if file.None? {
        return Failure(UndefinedPathMessage);
      }
      var uploaded := Await(Upload(LocalFile(file.value.path), Untransformed), env.upload);
      if uploaded.Err? {
        return Failure(uploaded.message);
      }
      var target := TemplateText(obj);
      var imageUrl := Await(BuildUrl(uploaded.value.publicId, RemovalEffect(target)), env.url);
      if imageUrl.Err? {
        return Failure(imageUrl.message);
      }
      var inserted := Insert(Creation(c.userId, RemovalPrompt(target), imageUrl.value, Image, false), env);
      if inserted.Err? {
        return Failure(inserted.message);
      }
      return Success(imageUrl.value);
    }

    /** `resumeReview`. */
    method ReviewResume(c: Caller, file: Option<UploadedFile>, env: Env) returns (r: Response)
      modifies this
      ensures Handled(State(), r) == ResumeReviewOutcome(old(State()), c, file, env)
    {
      if PremiumOnlyRejects(c.plan) {
        return Failure(PremiumOnlyMessage);
      }
      if file.None? {
        return Failure(NoFileMessage);
      }
      var data := Await(ReadFile(file.value.path), env.readFile);
      if data.Err? {
        return Failure(data.message);
      }
      var pdf := Await(ParsePdf(data.value), env.parsePdf);
      if pdf.Err? {
        return Failure(pdf.message);
      }
      var review := Await(ChatRequest(ResumePrompt(pdf.value), Some(ResumeReviewMaxTokens)), env.chat);
      if review.Err? {
        return Failure(review.message);
      }
      var inserted := Insert(Creation(c.userId, ResumeReviewPrompt, review.value, ResumeReview, false), env);
      if inserted.Err? {
        return Failure(inserted.message);
      }
      return Success(review.value);
    }
  }
}
