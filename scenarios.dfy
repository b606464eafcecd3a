/** Single requests worked through to their end state. */
module Scenarios {
  import opened Results
  import opened Entitlement
  import opened Creations
  import opened Providers
  import opened Pipeline
  import opened Sessions

  /** A caller on the free plan with counter 9 gets its article; the ledger
      gains one 'article' row and the counter becomes 10. */
  lemma NinthFreeArticleIsCounted(w: World, userId: string, plan: string, prompt: string, text: string, env: Env)
    requires !IsPremium(plan)
    requires env.chat == Ok(text) && env.insert.Ok? && env.update.Ok?
    ensures var r := ArticleOutcome(w, Caller(userId, plan, 9), prompt, None, env);
            && r.response == Success(text)
            && r.world.ledger == w.ledger + [Creation(userId, prompt, text, Article, false)]
            && StoredUsage(r.world, userId) == 10
  {
  }

  /** The same caller at 10 is refused a blog title: nothing is called,
      stored or counted. */
  lemma TenthFreeBlogTitleIsRefused(w: World, userId: string, plan: string, prompt: string, env: Env)
    requires !IsPremium(plan)
    ensures BlogTitleOutcome(w, Caller(userId, plan, 10), prompt, env) == Handled(w, Failure(LimitMessage))
  {
  }

  /** Removing "car" stores the prompt "Removed car" and the URL built from
      the upload's public id with the effect "gen_remove:car". */
  lemma RemovingACar(w: World, userId: string, path: string, up: Uploaded, url: string, env: Env)
    requires env.upload == Ok(up) && env.url == Ok(url) && env.insert.Ok?
    ensures var r := ObjectRemovalOutcome(w, Caller(userId, PremiumPlan, 0), Some("car"), Some(UploadedFile(path)), env);
            && r.response == Success(url)
            && r.world.calls == w.calls + [Upload(LocalFile(path), Untransformed), BuildUrl(up.publicId, "gen_remove:car"),
                                           InsertCreation(Creation(userId, "Removed car", url, Image, false))]
            && r.world.ledger == w.ledger + [Creation(userId, "Removed car", url, Image, false)]
  {
    assert RemovalPrompt(TemplateText(Some("car"))) == "Removed car";
    assert RemovalEffect(TemplateText(Some("car"))) == "gen_remove:car";
  }

  /** Two article requests that both carry the counter 9, because both were
      admitted before either wrote it back, both succeed: two rows are
      stored while the counter ends at 10, since each write is the
      request's own value plus one. */
  lemma StaleCounterAdmitsAnExtraRequest(w: World, userId: string, plan: string, env: Env)
    requires !IsPremium(plan) && StoredUsage(w, userId) == 9
    requires env.chat.Ok? && env.insert.Ok? && env.update.Ok?
    ensures var c := Caller(userId, plan, 9);
            var first := ArticleOutcome(w, c, "first", None, env);
            var second := ArticleOutcome(first.world, c, "second", None, env);
            && first.response.Success? && second.response.Success?
            && |second.world.ledger| == |w.ledger| + 2
            && StoredUsage(second.world, userId) == 10
  {
  }
}
