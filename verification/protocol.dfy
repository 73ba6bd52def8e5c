/** The vocabulary shared by every lifecycle driver: identifiers, the page a
    topic read returns, the line print_query_results logs for it, and the
    calls a driver makes to its collaborators (the HTTP API, the config file
    and the log). A driver is modelled as a pure function whose observable
    behaviour is the sequence of these calls. */
module Protocol {

  datatype Option<+T> = None | Some(value: T)

  type Id = string
  type Topic = string
  type Record = string

  /** One response of a topic read: the JSON object with `results`,
      `offset`, `limit`, `pageNumber`, `totalCount`, `hasNextPage` and
      `hasPreviousPage`. Records are opaque. */
  datatype Page = Page(
    results: seq<Record>,
    offset: int,
    limit: int,
    pageNumber: int,
    totalCount: int,
    hasNextPage: bool,
    hasPreviousPage: bool)

  /** What print_query_results logs for a page: either
      "Retrieving first - last of total records" or "No records available". */
  datatype RangeLine = Retrieved(first: int, last: int, total: int) | NoRecords

  /** A call a driver makes. Command events carry the command's name, which
      is what the route `.../commands/%s` receives. */
  datatype Event =
    | SystemReport
    | RetrieveFeeds
    | CreateSubscription
    | WriteConfig(key: string, value: Id)
    | Peek(subscriptionId: Id)
    | CreateSession(subscriptionId: Id, rangeLimit: Option<int>)
    | Fetch(sessionId: Id, topic: Topic, offset: int, limit: int)
    | Report(line: RangeLine)
    | SessionCmd(sessionId: Id, command: string)
    | SubscriptionCmd(subscriptionId: Id, command: string)

  predicate IsCreateSubscription(e: Event) { e.CreateSubscription? }
  predicate IsWriteConfig(e: Event) { e.WriteConfig? }
  predicate IsCreateSession(e: Event) { e.CreateSession? }
  predicate IsPeek(e: Event) { e.Peek? }
  predicate IsFetch(e: Event) { e.Fetch? }
  predicate IsSystemReport(e: Event) { e.SystemReport? }
  predicate IsSessionCmd(e: Event) { e.SessionCmd? }
  predicate IsComplete(e: Event) { e.SessionCmd? && e.command == "Complete" }
  predicate IsCancel(e: Event) { e.SessionCmd? && e.command == "Cancel" }

  /** Number of calls in `t` that satisfy `p`. */
  function Count(t: seq<Event>, p: Event -> bool): (n: nat)
    ensures n <= |t|
    ensures n == 0 <==> forall e :: e in t ==> !p(e)
  {
    if |t| == 0 then 0
    else (if p(t[0]) then 1 else 0) + Count(t[1..], p)
  }

  lemma {:induction false} CountConcat(a: seq<Event>, b: seq<Event>, p: Event -> bool)
    ensures Count(a + b, p) == Count(a, p) + Count(b, p)
    decreases |a|
  {
    if |a| == 0 {
      assert a + b == b;
    } else {
      assert (a + b)[1..] == a[1..] + b;
      CountConcat(a[1..], b, p);
    }
  }

  lemma CountSingle(e: Event, p: Event -> bool)
    ensures Count([e], p) == if p(e) then 1 else 0
  {
    assert [e][1..] == [];
  }

  lemma CountNone(t: seq<Event>, p: Event -> bool)
    requires forall i :: 0 <= i < |t| ==> !p(t[i])
    ensures Count(t, p) == 0
  {
    forall e | e in t
      ensures !p(e)
    {
      var i :| 0 <= i < |t| && t[i] == e;
    }
  }

  /** A kind of call that can only sit at position `k` occurs at most once. */
  lemma CountOnlyAt(t: seq<Event>, p: Event -> bool, k: nat)
    requires k < |t|
    requires forall i :: 0 <= i < |t| && p(t[i]) ==> i == k
    ensures Count(t, p) == if p(t[k]) then 1 else 0
  {
    assert t == t[..k] + [t[k]] + t[k + 1..];
    CountConcat(t[..k] + [t[k]], t[k + 1..], p);
    CountConcat(t[..k], [t[k]], p);
    CountSingle(t[k], p);
    assert forall e :: e in t[..k] ==> !p(e);
    assert forall e :: e in t[k + 1..] ==> !p(e);
  }
}
