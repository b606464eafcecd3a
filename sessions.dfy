/** Several metered requests from one user, served one after another, each
    carrying the `free_usage` the identity service holds when it arrives. */
module Sessions {
  import opened Results
  import opened Entitlement
  import opened Creations
  import opened Providers
  import opened Pipeline

  /** One article or blog-title request and how the services answer it. */
  datatype MeteredRequest =
    | ArticleRequest(prompt: string, length: Option<int>, env: Env)
    | BlogTitleRequest(prompt: string, env: Env)

  /** The world after a run of requests and the responses, in order. */
  datatype Session = Session(world: World, responses: seq<Response>)

  /** The user's `free_usage` in the identity service; no entry reads as 0. */
  function StoredUsage(w: World, userId: string): int
  {
    if userId in w.freeUsage then w.freeUsage[userId] else 0
  }

  /** Serves `q` for the user, the request carrying the stored counter. */
  function Serve(w: World, userId: string, plan: string, q: MeteredRequest): Handled
  {
    var c := Caller(userId, plan, StoredUsage(w, userId));
    match q
    case ArticleRequest(prompt, length, env) => ArticleOutcome(w, c, prompt, length, env)
    case BlogTitleRequest(prompt, env) => BlogTitleOutcome(w, c, prompt, env)
  }

  /** Serves the requests in order. The ledger only grows, and only by rows
      of this user. */
  function Run(w: World, userId: string, plan: string, qs: seq<MeteredRequest>): (s: Session)
    ensures |s.responses| == |qs|
    ensures w.ledger <= s.world.ledger
    ensures forall i | |w.ledger| <= i < |s.world.ledger| :: s.world.ledger[i].userId == userId
    decreases |qs|
  {
    if qs == [] then Session(w, [])
    else
      var h := Serve(w, userId, plan, qs[0]);
      var rest := Run(h.world, userId, plan, qs[1..]);
      Session(rest.world, [h.response] + rest.responses)
  }

  /** Number of successful responses. */
  function Successes(rs: seq<Response>): nat
  {
    if rs == [] then 0 else (if rs[0].Success? then 1 else 0) + Successes(rs[1..])
  }

  /** How many more metered requests a non-premium user with counter n may make. */
  function Allowance(n: int): nat
  {
    if n >= FreeLimit then 0 else FreeLimit - n
  }

  /** For a non-premium user the counter moves by exactly one per successful
      request and by nothing otherwise. */
  lemma {:induction false} FreeSessionCountsSuccesses(w: World, userId: string, plan: string, qs: seq<MeteredRequest>)
    requires !IsPremium(plan)
    ensures StoredUsage(Run(w, userId, plan, qs).world, userId) == StoredUsage(w, userId) + Successes(Run(w, userId, plan, qs).responses)
    decreases |qs|
  {
    if qs != [] {
      var h := Serve(w, userId, plan, qs[0]);
      FreeSessionCountsSuccesses(h.world, userId, plan, qs[1..]);
      var s := Run(w, userId, plan, qs);
      assert s.responses[1..] == Run(h.world, userId, plan, qs[1..]).responses;
    }
  }

  /** A non-premium user gets no more successful metered requests than the
      free allowance its counter leaves, and none once the counter is at 10. */
  lemma {:induction false} FreeSessionWithinAllowance(w: World, userId: string, plan: string, qs: seq<MeteredRequest>)
    requires !IsPremium(plan)
    ensures Successes(Run(w, userId, plan, qs).responses) <= Allowance(StoredUsage(w, userId))
    decreases |qs|
  {
    if qs != [] {
      var h := Serve(w, userId, plan, qs[0]);
      FreeSessionWithinAllowance(h.world, userId, plan, qs[1..]);
      var s := Run(w, userId, plan, qs);
      assert s.responses[1..] == Run(h.world, userId, plan, qs[1..]).responses;
      if h.response.Success? {
        assert StoredUsage(h.world, userId) == StoredUsage(w, userId) + 1;
      }
    }
  }

  /** Number of completion requests among the calls. */
  function Chats(cs: seq<Call>): nat
  {
    if cs == [] then 0 else (if cs[0].Chat? then 1 else 0) + Chats(cs[1..])
  }

  lemma {:induction false} ChatsAppend(a: seq<Call>, b: seq<Call>)
    ensures Chats(a + b) == Chats(a) + Chats(b)
  {
    if a == [] {
      assert a + b == b;
    } else {
      assert (a + b)[1..] == a[1..] + b;
      ChatsAppend(a[1..], b);
    }
  }

  /** One metered request from a premium user passes the gate and reaches
      the completion service exactly once; its counter is not written. */
  lemma PremiumServeOneChat(w: World, userId: string, plan: string, q: MeteredRequest)
    requires IsPremium(plan)
    ensures var h := Serve(w, userId, plan, q);
            && w.calls <= h.world.calls
            && Chats(h.world.calls[|w.calls|..]) == 1
            && h.world.freeUsage == w.freeUsage
  {
    var h := Serve(w, userId, plan, q);
    var c := Caller(userId, plan, StoredUsage(w, userId));
    var kind := if q.ArticleRequest? then Article else BlogTitle;
    var maxTokens := if q.ArticleRequest? then q.length else Some(BlogTitleMaxTokens);
    var plan' := MeteredPlan(kind, c, q.prompt, maxTokens, q.env);
    assert h == MeteredOutcome(w, kind, c, q.prompt, maxTokens, q.env);
    var k := |h.world.calls| - |w.calls|;
    assert h.world.calls[|w.calls|..] == plan'[..k];
    assert 1 <= k <= 2 && plan'[0].Chat?;
    if k == 2 {
      assert plan'[1].InsertCreation?;
      assert plan'[..k] == [plan'[0]] + [plan'[1]];
      ChatsAppend([plan'[0]], [plan'[1]]);
      assert Chats([plan'[1]]) == 0;
    } else {
      assert plan'[..k] == [plan'[0]];
    }
  }

  /** A premium user is never stopped by the gate: the run reaches the
      completion service exactly once per request, and no counter is ever
      written. */
  lemma {:induction false} PremiumSessionNeverMetered(w: World, userId: string, plan: string, qs: seq<MeteredRequest>)
    requires IsPremium(plan)
    ensures Run(w, userId, plan, qs).world.freeUsage == w.freeUsage
    ensures var s := Run(w, userId, plan, qs);
            w.calls <= s.world.calls && Chats(s.world.calls[|w.calls|..]) == |qs|
    decreases |qs|
  {
    if qs != [] {
      var h := Serve(w, userId, plan, qs[0]);
      PremiumServeOneChat(w, userId, plan, qs[0]);
      PremiumSessionNeverMetered(h.world, userId, plan, qs[1..]);
      var s := Run(w, userId, plan, qs);
      var tail := Run(h.world, userId, plan, qs[1..]);
      assert s.world == tail.world;
      assert s.world.calls[|w.calls|..] == h.world.calls[|w.calls|..] + tail.world.calls[|h.world.calls|..];
      ChatsAppend(h.world.calls[|w.calls|..], tail.world.calls[|h.world.calls|..]);
    }
  }
}
