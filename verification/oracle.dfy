/** The server as a script. Every HTTP exchange of a driver is answered
    from the script instead of the network: the system status, the feed
    count, queues of create-subscription, create-session and peek answers
    (the n-th call of a kind gets the n-th answer), and the pages of each
    topic in each session (page i answers the read at offset i*size).
    The script also names at most one call position `failAt`: the call
    made at that position of the trace is recorded and then raises, as a
    transport error or non-2xx response would. A call whose answer the
    script does not hold raises as well. */
module Oracle {

  import opened Protocol

  /** Body of a create-subscription response: a top-level `id` and/or a
      nested `subscription.id` (the response shape differs between API
      versions). */
  datatype SubscriptionResponse = SubscriptionResponse(id: Option<Id>, subscription: Option<Id>)

  /** Which field a driver reads the new subscription id from. */
  datatype IdShape = TopLevel | Nested

  function NewSubscriptionId(resp: SubscriptionResponse, shape: IdShape): (r: Option<Id>)
    ensures shape == TopLevel ==> r == resp.id
    ensures shape == Nested ==> r == resp.subscription
  {
    match shape
    case TopLevel => resp.id
    case Nested => resp.subscription
  }

  /** Body of a create-session response: `syncDataAvailable` and `session.id`. */
  datatype SessionResponse = SessionResponse(syncDataAvailable: bool, session: Id)

  datatype Script = Script(
    status: string,
    feedCount: nat,
    subscriptions: seq<SubscriptionResponse>,
    sessions: seq<SessionResponse>,
    peeks: seq<bool>,
    pages: map<(Id, Topic), seq<Page>>,
    failAt: Option<nat>)

  /** The remaining script and the calls made so far. */
  datatype Conn = Conn(script: Script, trace: seq<Event>)

  /** Outcome of one step of a driver: a value, or a raised exception. */
  datatype Step<+T> = Ok(value: T, conn: Conn) | Raised(conn: Conn)

  predicate FailsNext(c: Conn)
  {
    c.script.failAt == Some(|c.trace|)
  }

  /** No failure is injected at positions lo..hi-1. */
  predicate ClearBetween(s: Script, lo: int, hi: int)
  {
    s.failAt.None? || s.failAt.value < lo || hi <= s.failAt.value
  }

  /** A step only appends calls, keeps the failure point, and stops right
      after the call at the failure point when it reaches it. */
  predicate Proceeds<T>(c: Conn, r: Step<T>)
  {
    && c.trace <= r.conn.trace
    && r.conn.script.failAt == c.script.failAt
    && (c.script.failAt.Some? && |c.trace| <= c.script.failAt.value < |r.conn.trace| ==>
          r.Raised? && |r.conn.trace| == c.script.failAt.value + 1)
  }

  /** Added calls of a step. */
  function Added<T>(c: Conn, r: Step<T>): seq<Event>
    requires |c.trace| <= |r.conn.trace|
  {
    r.conn.trace[|c.trace|..]
  }

  /** A call without an answer worth modelling (a config write, a log line,
      a command): recorded, and raises at the failure point. */
  function Call(c: Conn, e: Event): (r: Step<()>)
    ensures Proceeds(c, r)
    ensures r.conn == c.(trace := c.trace + [e])
    ensures r.Ok? <==> !FailsNext(c)
  {
    var c1 := c.(trace := c.trace + [e]);
    if FailsNext(c) then Raised(c1) else Ok((), c1)
  }

  /** GET /system; answers the general status. */
  function FetchSystemReport(c: Conn): (r: Step<string>)
    ensures Proceeds(c, r)
    ensures r.conn == c.(trace := c.trace + [SystemReport])
    ensures r.Ok? <==> !FailsNext(c)
    ensures r.Ok? ==> r.value == c.script.status
  {
    match Call(c, SystemReport)
    case Raised(c1) => Raised(c1)
    case Ok(_, c1) => Ok(c.script.status, c1)
  }

  /** GET sync feeds; answers the number of feeds in `results`. */
  function RetrieveSyncFeeds(c: Conn): (r: Step<nat>)
    ensures Proceeds(c, r)
    ensures r.conn == c.(trace := c.trace + [RetrieveFeeds])
    ensures r.Ok? <==> !FailsNext(c)
    ensures r.Ok? ==> r.value == c.script.feedCount
  {
    match Call(c, RetrieveFeeds)
    case Raised(c1) => Raised(c1)
    case Ok(_, c1) => Ok(c.script.feedCount, c1)
  }

  /** POST create subscription; consumes the next scripted answer. */
  function CreateSubscriptionCall(c: Conn): (r: Step<SubscriptionResponse>)
    ensures Proceeds(c, r)
    ensures r.conn.trace == c.trace + [CreateSubscription]
    ensures r.Ok? <==> !FailsNext(c) && |c.script.subscriptions| > 0
    ensures r.Ok? ==> r.value == c.script.subscriptions[0]
    ensures r.Ok? ==> r.conn.script == c.script.(subscriptions := c.script.subscriptions[1..])
    ensures r.Raised? ==> r.conn.script == c.script
  {
    match Call(c, CreateSubscription)
    case Raised(c1) => Raised(c1)
    case Ok(_, c1) =>
      if |c.script.subscriptions| == 0 then Raised(c1)
      else Ok(c.script.subscriptions[0], c1.(script := c.script.(subscriptions := c.script.subscriptions[1..])))
  }

  /** POST create session (with an optional sequence range limit); consumes
      the next scripted answer. */
  function CreateSessionCall(c: Conn, subscription: Id, rangeLimit: Option<int>): (r: Step<SessionResponse>)
    ensures Proceeds(c, r)
    ensures r.conn.trace == c.trace + [CreateSession(subscription, rangeLimit)]
    ensures r.Ok? <==> !FailsNext(c) && |c.script.sessions| > 0
    ensures r.Ok? ==> r.value == c.script.sessions[0]
    ensures r.Ok? ==> r.conn.script == c.script.(sessions := c.script.sessions[1..])
    ensures r.Raised? ==> r.conn.script == c.script
  {
    match Call(c, CreateSession(subscription, rangeLimit))
    case Raised(c1) => Raised(c1)
    case Ok(_, c1) =>
      if |c.script.sessions| == 0 then Raised(c1)
      else Ok(c.script.sessions[0], c1.(script := c.script.(sessions := c.script.sessions[1..])))
  }

  /** GET peek subscription; consumes the next scripted `dataAvailable`. */
  function PeekCall(c: Conn, subscription: Id): (r: Step<bool>)
    ensures Proceeds(c, r)
    ensures r.conn.trace == c.trace + [Peek(subscription)]
    ensures r.Ok? <==> !FailsNext(c) && |c.script.peeks| > 0
    ensures r.Ok? ==> r.value == c.script.peeks[0]
    ensures r.Ok? ==> r.conn.script == c.script.(peeks := c.script.peeks[1..])
    ensures r.Raised? ==> r.conn.script == c.script
  {
    match Call(c, Peek(subscription))
    case Raised(c1) => Raised(c1)
    case Ok(_, c1) =>
      if |c.script.peeks| == 0 then Raised(c1)
      else Ok(c.script.peeks[0], c1.(script := c.script.(peeks := c.script.peeks[1..])))
  }

  /** Pages the script holds for one topic of one session. */
  function PagesOf(s: Script, session: Id, topic: Topic): seq<Page>
  {
    if (session, topic) in s.pages then s.pages[(session, topic)] else []
  }

  /** GET one topic page; answered by page index, without consuming it. */
  function FetchPage(c: Conn, session: Id, topic: Topic, index: nat, offset: int, size: int): (r: Step<Page>)
    ensures Proceeds(c, r)
    ensures r.conn == c.(trace := c.trace + [Fetch(session, topic, offset, size)])
    ensures r.Ok? <==> !FailsNext(c) && index < |PagesOf(c.script, session, topic)|
    ensures r.Ok? ==> r.value == PagesOf(c.script, session, topic)[index]
  {
    match Call(c, Fetch(session, topic, offset, size))
    case Raised(c1) => Raised(c1)
    case Ok(_, c1) =>
      var pages := PagesOf(c.script, session, topic);
      if index < |pages| then Ok(pages[index], c1) else Raised(c1)
  }
}
