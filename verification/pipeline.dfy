/** Requests served one after another, each through the `auth` middleware and
    then one handler, and what the free-usage counter does over any such run. */
module Pipeline {
  import opened Ledger
  import opened Auth
  import AiController

  /** The handler a request is routed to, with its body fields and the
      replies its external calls will give. */
  datatype Handler =
    | ArticleRequest(prompt: string, generate: Call<string>, insert: Call<()>, update: Call<()>)
    | BlogTitleRequest(prompt: string, generate: Call<string>, insert: Call<()>, update: Call<()>)
    | ImageRequest(prompt: string, publish: Option<bool>, generate: Call<string>, upload: Call<string>, insert: Call<()>)
    | RemoveBackgroundRequest(image: Option<string>, upload: Call<string>, insert: Call<()>)
    | RemoveObjectRequest(objectName: Option<string>, image: Option<string>, upload: Call<string>, insert: Call<()>)
    | ResumeReviewRequest(resumeSize: Option<nat>, review: Call<string>, insert: Call<()>)

  /** One request: who sends it, the plan check's answer, the replies of the
      middleware's lookup and reset, and the handler it is routed to. */
  datatype Incoming = Incoming(userId: UserId, hasExclusive: bool, lookup: Call<()>, reset: Call<()>, handler: Handler)

  predicate QuotaGated(h: Handler) {
    h.ArticleRequest? || h.BlogTitleRequest?
  }

  function Dispatch(s: State, req: Request, h: Handler): Step<Response> {
    match h
    case ArticleRequest(prompt, generate, insert, update) =>
      AiController.QuotaGatedStep(s, req, Article, MisspeltSuccessKey, prompt, generate, insert, update)
    case BlogTitleRequest(prompt, generate, insert, update) =>
      AiController.QuotaGatedStep(s, req, BlogTitle, SuccessKey, prompt, generate, insert, update)
    case ImageRequest(prompt, publish, generate, upload, insert) =>
      AiController.GenerateImageStep(s, req, prompt, publish, generate, upload, insert)
    case RemoveBackgroundRequest(image, upload, insert) =>
      AiController.RemoveBackgroundStep(s, req, image, upload, insert)
    case RemoveObjectRequest(objectName, image, upload, insert) =>
      AiController.RemoveObjectStep(s, req, objectName, image, upload, insert)
    case ResumeReviewRequest(resumeSize, review, insert) =>
      AiController.ResumeReviewStep(s, req, resumeSize, review, insert)
  }

  /** The middleware, then the handler when the middleware calls `next()`. */
  function Serve(s: State, inc: Incoming): (r: Step<Response>)
    // no other user's counter changes: the only entry that may differ is the sender's
    ensures r.next.usage == s.usage
            || (inc.userId in r.next.usage && r.next.usage == s.usage[inc.userId := r.next.usage[inc.userId]])
    ensures forall v :: v != inc.userId ==> StoredUsage(r.next, v) == StoredUsage(s, v)
    // the sender's counter is either left alone or ends up within the limit
    ensures StoredUsage(r.next, inc.userId) == StoredUsage(s, inc.userId)
            || StoredUsage(r.next, inc.userId) <= FreeUsageLimit
    // for a free user it goes up by one exactly when a gated request succeeds
    ensures !inc.hasExclusive ==>
              StoredUsage(r.next, inc.userId)
              == StoredUsage(s, inc.userId) + (if QuotaGated(inc.handler) && r.out.success then 1 else 0)
    // an exclusive user's request at most resets their counter to 0
    ensures inc.hasExclusive ==> r.next.usage == s.usage || r.next.usage == s.usage[inc.userId := 0]
    // the log is append-only: it keeps its rows and gains at most one
    ensures r.next.creations == s.creations
            || (|r.next.creations| == |s.creations| + 1 && r.next.creations[..|s.creations|] == s.creations)
    // a row is added by every success, and otherwise only by a gated request
    // whose counter write failed
    ensures r.out.success && !QuotaGated(inc.handler) ==> |r.next.creations| == |s.creations| + 1
    ensures !r.out.success && r.next.creations != s.creations ==> QuotaGated(inc.handler) && !inc.hasExclusive
  {
    var a := AuthStep(s, inc.userId, inc.hasExclusive, inc.lookup, inc.reset);
    match a.out
    case Stopped(resp) => Step(a.next, resp)
    case Next(req) => Dispatch(a.next, req, inc.handler)
  }

  /** Serves the requests in order; the responses come back in the same order. */
  function Run(s: State, incs: seq<Incoming>): (r: Step<seq<Response>>)
    ensures |r.out| == |incs|
    decreases |incs|
  {
    if incs == [] then Step(s, [])
    else
      var first := Serve(s, incs[0]);
      var rest := Run(first.next, incs[1..]);
      Step(rest.next, [first.out] + rest.out)
  }

  /** How many of user `u`'s article and blog-title requests were answered
      with success. */
  function GatedSuccesses(u: UserId, incs: seq<Incoming>, resps: seq<Response>): (n: nat)
    requires |incs| == |resps|
  {
    if incs == [] then 0
    else
      (if incs[0].userId == u && QuotaGated(incs[0].handler) && resps[0].success then 1 else 0)
      + GatedSuccesses(u, incs[1..], resps[1..])
  }

  /** Over any run of requests, from any users, on any plans and whatever the
      external services reply, a counter that starts at or below the limit
      stays at or below it. */
  lemma {:induction false} RunKeepsCounterWithinLimit(s: State, u: UserId, incs: seq<Incoming>)
    requires StoredUsage(s, u) <= FreeUsageLimit
    ensures StoredUsage(Run(s, incs).next, u) <= FreeUsageLimit
    decreases |incs|
  {
    if incs != [] {
      var first := Serve(s, incs[0]);
      RunKeepsCounterWithinLimit(first.next, u, incs[1..]);
    }
  }

  /** For a user who is on the free plan in every request they send, the
      stored counter at the end is the counter at the start plus the number of
      their article and blog-title requests that succeeded. */
  lemma {:induction false} FreeUserCounterCountsSuccesses(s: State, u: UserId, incs: seq<Incoming>)
    requires forall i :: 0 <= i < |incs| && incs[i].userId == u ==> !incs[i].hasExclusive
    ensures StoredUsage(Run(s, incs).next, u) == StoredUsage(s, u) + GatedSuccesses(u, incs, Run(s, incs).out)
    decreases |incs|
  {
    if incs != [] {
      var first := Serve(s, incs[0]);
      var rest := Run(first.next, incs[1..]);
      FreeUserCounterCountsSuccesses(first.next, u, incs[1..]);
      assert ([first.out] + rest.out)[1..] == rest.out;
    }
  }

  /** A free user whose counter starts at c <= 10 gets at most 10 - c
      successful article and blog-title generations, however their requests
      are interleaved with other users'. */
  lemma FreeUserSuccessesBounded(s: State, u: UserId, incs: seq<Incoming>)
    requires StoredUsage(s, u) <= FreeUsageLimit
    requires forall i :: 0 <= i < |incs| && incs[i].userId == u ==> !incs[i].hasExclusive
    ensures GatedSuccesses(u, incs, Run(s, incs).out) <= FreeUsageLimit - StoredUsage(s, u)
  {
    RunKeepsCounterWithinLimit(s, u, incs);
    FreeUserCounterCountsSuccesses(s, u, incs);
  }

  /** A free user at 9 is admitted once more and reaches 10; the next article
      request is turned away with the limit message. */
  lemma NinthUseAdmittedTenthRejected(prompt: string, content: string)
    ensures var s := State(map["u" := 9], []);
            var ok := Incoming("u", false, Returns(()), Returns(()),
                               ArticleRequest(prompt, Returns(content), Returns(()), Returns(())));
            var first := Serve(s, ok);
            var second := Serve(first.next, ok);
            && first.out == Succeeded(Content(content))
            && StoredUsage(first.next, "u") == 10
            && second.out == AiController.LimitResponse(MisspeltSuccessKey)
            && second.next == first.next
  {
  }
}
