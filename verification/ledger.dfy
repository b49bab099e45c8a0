/** Values shared by the middleware and the AI handlers: plans, the rows of the
    `creations` table, JSON responses, replies of external services, and the
    persisted state the quota gate reads and writes. */
module Ledger {

  type UserId = string

  datatype Option<T> = None | Some(value: T)

  /** The plan the middleware derives; `req.plan` holds one of these two. */
  datatype Plan = Free | Exclusive

  /** A free user is turned away once the stored counter reaches this value. */
  const FreeUsageLimit: nat := 10

  /** Largest resume upload accepted, in bytes (5 MB). */
  const MaxResumeBytes: nat := 5 * 1024 * 1024

  datatype CreationType = Article | BlogTitle | Image | ResumeReview

  /** One row of the append-only `creations` table. */
  datatype Creation = Creation(owner: UserId, prompt: string, content: string, kind: CreationType, publish: bool)

  /** The reply of a call into a service this model does not see: it returns a
      value or throws an error carrying a message. */
  datatype Call<T> = Returns(value: T) | Throws(message: string)

  /** The payload of a JSON response besides its success flag. */
  datatype Body = Content(text: string) | SecureUrl(url: string) | Message(text: string)

  /** A JSON response `{<successKey>: success, ...body}`. The key is normally
      "success"; one rejection in the article handler spells it "sucess". */
  datatype Response = Response(successKey: string, success: bool, body: Body)

  const SuccessKey := "success"
  const MisspeltSuccessKey := "sucess"

  const LimitReachedMessage := "Limit reached. Upgrade to continue."
  const ExclusiveOnlyMessage := "This feature is only available for exclusive subscriptions"
  const ResumeTooLargeMessage := "Resume file size exceeds allowed size (5MB)."
  /** What the TypeError thrown by calling the missing `res.join` says. */
  const ResJoinMessage := "res.join is not a function"

  /** What the TypeError thrown by reading a property of `undefined` says. */
  function UndefinedPropertyMessage(property: string): string {
    "Cannot read properties of undefined (reading '" + property + "')"
  }

  function Succeeded(body: Body): Response {
    Response(SuccessKey, true, body)
  }

  /** The response of every catch block, and of the plain rejections. */
  function Failed(message: string): Response {
    Response(SuccessKey, false, Message(message))
  }

  /** What the gate persists: the identity provider's `free_usage` per user
      (absent when the user has none) and the `creations` table. */
  datatype State = State(usage: map<UserId, nat>, creations: seq<Creation>)

  function Lookup(usage: map<UserId, nat>, u: UserId): Option<nat> {
    if u in usage then Some(usage[u]) else None
  }

  /** The stored counter, read as 0 when the user has none. */
  function StoredUsage(s: State, u: UserId): nat {
    if u in s.usage then s.usage[u] else 0
  }

  /** The new state after one request, and what the request produced. */
  datatype Step<O> = Step(next: State, out: O)
}
