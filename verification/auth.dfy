/** The `auth` middleware: it derives the plan and the free-usage counter a
    request carries into the handlers, and resets the stored counter to 0 for
    exclusive users and for free users without a (non-zero) counter. */
module Auth {
  import opened Ledger
  import opened Backend

  /** What the middleware attaches to the request: `req.auth().userId`,
      `req.plan` and `req.free_usage`. */
  datatype Request = Request(userId: UserId, plan: Plan, freeUsage: nat)

  /** Either `next()` is called with the enriched request, or the middleware
      answers the request itself. */
  datatype AuthOutcome = Next(req: Request) | Stopped(resp: Response)

  /** The normalisation rule: keep the stored counter, or write 0. */
  datatype Normalized = KeepStored(freeUsage: nat) | ResetToZero

  /** The stored counter is kept only for a free user whose stored value is
      truthy (present and non-zero); everyone else is reset to 0. */
  function Normalize(hasExclusive: bool, stored: Option<nat>): (n: Normalized)
    ensures n.KeepStored? ==> !hasExclusive && stored == Some(n.freeUsage) && n.freeUsage != 0
    ensures n.ResetToZero? ==> hasExclusive || stored == None || stored == Some(0)
  {
    if !hasExclusive && stored.Some? && stored.value != 0 then KeepStored(stored.value) else ResetToZero
  }

  /** `req.plan`: 'exclusive' exactly when the plan check holds, otherwise 'free'. */
  function PlanOf(hasExclusive: bool): (p: Plan)
    ensures p == Exclusive <==> hasExclusive
    ensures p == Free <==> !hasExclusive
  {
    if hasExclusive then Exclusive else Free
  }

  /** The middleware as a function of the stored state. `lookup` is the reply
      of the identity lookup (`req.auth()` and `getUser`), `reset` that of the
      metadata update, which is only made when the rule says to reset. */
  function AuthStep(s: State, userId: UserId, hasExclusive: bool, lookup: Call<()>, reset: Call<()>): (r: Step<AuthOutcome>)
    // the log is never touched
    ensures r.next.creations == s.creations
    // a failed lookup or update answers {success: false, message} and writes nothing
    ensures lookup.Throws? ==> r == Step(s, Stopped(Failed(lookup.message)))
    // next() is called unless the lookup fails or a needed reset fails
    ensures r.out.Next? <==> lookup.Returns? && (Normalize(hasExclusive, Lookup(s.usage, userId)).KeepStored? || reset.Returns?)
    ensures r.out.Stopped? ==> r.next == s && r.out.resp == Failed(if lookup.Throws? then lookup.message else reset.message)
    // req.plan is 'exclusive' exactly when the plan check holds, and
    // req.free_usage is what the store holds afterwards
    ensures r.out.Next? ==>
              && r.out.req.userId == userId
              && (r.out.req.plan == Exclusive <==> hasExclusive)
              && userId in r.next.usage
              && r.next.usage[userId] == r.out.req.freeUsage
    // a free user with a truthy stored counter: taken as is, no write
    ensures !hasExclusive && lookup.Returns? && userId in s.usage && s.usage[userId] != 0 ==>
              r == Step(s, Next(Request(userId, Free, s.usage[userId])))
    // everyone else who passes: the stored counter is overwritten with 0
    ensures r.out.Next? && (hasExclusive || userId !in s.usage || s.usage[userId] == 0) ==>
              r.next.usage == s.usage[userId := 0] && r.out.req.freeUsage == 0
    // the only write is a 0 for this user
    ensures r.next.usage == s.usage || r.next.usage == s.usage[userId := 0]
  {
    match lookup
    case Throws(m) => Step(s, Stopped(Failed(m)))
    case Returns(_) =>
      match Normalize(hasExclusive, Lookup(s.usage, userId))
      case KeepStored(n) => Step(s, Next(Request(userId, PlanOf(hasExclusive), n)))
      case ResetToZero =>
        match reset
        case Throws(m) => Step(s, Stopped(Failed(m)))
        case Returns(_) =>
          Step(State(s.usage[userId := 0], s.creations), Next(Request(userId, PlanOf(hasExclusive), 0)))
  }

  /** The middleware on the live stores. */
  method Authenticate(db: Store, userId: UserId, hasExclusive: bool, lookup: Call<()>, reset: Call<()>)
    returns (out: AuthOutcome)
    modifies db
    ensures var r := AuthStep(old(db.Snapshot()), userId, hasExclusive, lookup, reset);
            db.Snapshot() == r.next && out == r.out
  {
    if lookup.Throws? {
      return Stopped(Failed(lookup.message));
    }
    var freeUsage: nat;
    match Normalize(hasExclusive, Lookup(db.usage, userId)) {
      case KeepStored(n) =>
        freeUsage := n;
      case ResetToZero =>
        db.UpdateUserMetadata(userId, 0, reset);
        if reset.Throws? {
          return Stopped(Failed(reset.message));
        }
        freeUsage := 0;
    }
    out := Next(Request(userId, PlanOf(hasExclusive), freeUsage));
  }

  /** Running the middleware a second time, with the same plan, leaves the
      store as the first run left it, and, when the second run's calls
      return, hands the handler the same request. */
  lemma AuthIdempotent(s: State, userId: UserId, hasExclusive: bool, lookup1: Call<()>, reset1: Call<()>,
                       lookup2: Call<()>, reset2: Call<()>)
    requires AuthStep(s, userId, hasExclusive, lookup1, reset1).out.Next?
    ensures var r1 := AuthStep(s, userId, hasExclusive, lookup1, reset1);
            var r2 := AuthStep(r1.next, userId, hasExclusive, lookup2, reset2);
            && r2.next == r1.next
            && (lookup2.Returns? && reset2.Returns? ==> r2.out == r1.out)
  {
  }
}
