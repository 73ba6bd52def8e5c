/** The demonstration entry point: a CAL lifecycle, then a Global one. Each
    checks readiness, reuses or creates its subscription, opens one session,
    drains its topics 1000 records at a time logging the range of every page,
    completes the session, and (Global only) cancels the subscription. An
    exception is logged by the flow's except-block, which first cancels a
    held session; an exception raised by that except-block ends the entry
    point, so the Global flow never starts. */
module MainFlows {

  import opened Protocol
  import opened Oracle
  import opened Status
  import opened Paginator
  import opened Lifecycle
  import opened RecordRange

  /** What distinguishes the two flows. */
  datatype FlowConfig = FlowConfig(topics: seq<Topic>, configKey: string, cancelsSubscription: bool)

  const Cal: FlowConfig := FlowConfig(
    ["filing-activities", "element-activities", "transaction-activities", "unitemized-transaction-activities"],
    "CAL_SUBSCRIPTION_ID", false)

  const Global: FlowConfig := FlowConfig(["geocode-activities", "link-activities"], "GLOBAL_SUBSCRIPTION_ID", true)

  const PageSize: int := 1000

  /** The except-block once a session is held: cancel it (reading its id as
      `access` says) and log. An exception inside the except-block escapes. */
  function Handler(c: Conn, session: Id, access: Access): (r: Run)
    ensures StopsAtFailure(c, r)
    ensures access == ByAttribute ==> r == Run(c, Failed(true))
    ensures access == ByKey ==>
      && r.conn.trace == c.trace + [SessionCmd(session, CancelName)]
      && r.outcome == Failed(FailsNext(c))
    ensures access == ByKey && r.outcome == Failed(true) ==> c.script.failAt.Some?
  {
    match CancelOnError(c, Some(session), access)
    case Raised(c1) => Run(c1, Failed(true))
    case Ok(_, c1) => Run(c1, Failed(false))
  }

  /** After the topic reads: the Complete, and for Global the
      subscription's cancel, which reuses the session command's name
      "Cancel". */
  function Finish(c: Conn, cfg: FlowConfig, sub: Id, session: Id, access: Access): (r: Run)
    ensures StopsAtFailure(c, r)
    ensures r.outcome == Done || r.outcome.Failed?
    ensures forall i :: |c.trace| <= i < |r.conn.trace| ==>
      || r.conn.trace[i] == SessionCmd(session, CompleteName)
      || r.conn.trace[i] == SessionCmd(session, CancelName)
      || (cfg.cancelsSubscription && r.conn.trace[i] == SubscriptionCmd(sub, CancelName))
    ensures access == ByKey && r.outcome == Failed(true) ==> c.script.failAt.Some?
  {
    var k := Call(c, SessionCmd(session, CompleteName));
    match k
    case Raised(c1) =>
      var r := Handler(c1, session, access);
      RaisedThenCancelStops(c, k, r, session);
      r
    case Ok(_, c1) =>
      if !cfg.cancelsSubscription then
        var r := Run(c1, Done);
        ProceedsThenStops(c, k, r);
        r
      else
        var u := Call(c1, SubscriptionCmd(sub, CancelName));
        match u
        case Raised(c2) =>
          var r := Handler(c2, session, access);
          RaisedThenCancelStops(c1, u, r, session);
          ProceedsThenStops(c, k, r);
          r
        case Ok(_, c2) =>
          var r := Run(c2, Done);
          ProceedsThenStops(c1, u, r);
          ProceedsThenStops(c, k, r);
          r
  }

  /** A flow that keeps its subscription (CAL) never sends a subscription
      command from `c` on. */
  predicate KeepsSubscription(c: Conn, cfg: FlowConfig, r: Run)
  {
    !cfg.cancelsSubscription ==> forall i :: |c.trace| <= i < |r.conn.trace| ==> !r.conn.trace[i].SubscriptionCmd?
  }

  /** From the held session on: the topic reads with their range lines,
      then Finish. */
  function HoldFlow(c: Conn, cfg: FlowConfig, sub: Id, session: Id, access: Access): (r: Run)
    ensures StopsAtFailure(c, r)
    ensures r.outcome == Done || r.outcome.Failed?
    ensures forall i :: |c.trace| <= i < |r.conn.trace| ==>
      SessionCall(r.conn.trace[i], session) || r.conn.trace[i] == SubscriptionCmd(sub, CancelName)
    ensures KeepsSubscription(c, cfg, r)
    ensures access == ByKey && r.outcome == Failed(true) ==> c.script.failAt.Some?
  {
    var d := DrainTopics(c, session, cfg.topics, PageSize, true);
    match d
    case Raised(c1) =>
      var r := Handler(c1, session, access);
      RaisedThenCancelStops(c, d, r, session);
      r
    case Ok(_, c1) =>
      var r := Finish(c1, cfg, sub, session, access);
      ProceedsThenStops(c, d, r);
      r
  }

  /** The session request and what follows. Before a session is held, the
      except-block only logs. */
  function OpenSession(c: Conn, cfg: FlowConfig, sub: Id, access: Access): (r: Run)
    ensures StopsAtFailure(c, r)
    ensures r.outcome != NotReady
    ensures |r.conn.trace| > |c.trace| && r.conn.trace[|c.trace|] == CreateSession(sub, None)
    ensures forall i :: |c.trace| < i < |r.conn.trace| ==>
      r.conn.trace[i].Fetch? || r.conn.trace[i].Report? || r.conn.trace[i].SessionCmd? || r.conn.trace[i].SubscriptionCmd?
    ensures KeepsSubscription(c, cfg, r)
    ensures access == ByKey && r.outcome == Failed(true) ==> c.script.failAt.Some?
  {
    var s := CreateSessionCall(c, sub, None);
    match s
    case Raised(c1) => Run(c1, Failed(false))
    case Ok(resp, c1) =>
      if !resp.syncDataAvailable then Run(c1, NoData)
      else
        var r := HoldFlow(c1, cfg, sub, resp.session, access);
        ProceedsThenStops(c, s, r);
        r
  }

  /** The subscription step, then the session. */
  function Subscribed(c: Conn, cfg: FlowConfig, stored: Option<Id>, access: Access): (r: Run)
    ensures StopsAtFailure(c, r)
    ensures r.outcome != NotReady
    ensures KeepsSubscription(c, cfg, r)
    ensures access == ByKey && r.outcome == Failed(true) ==> c.script.failAt.Some?
  {
    var e := EnsureSubscription(c, stored, Nested, cfg.configKey);
    match e
    case Raised(c1) => Run(c1, Failed(false))
    case Ok(sub, c1) =>
      var r := OpenSession(c1, cfg, sub, access);
      ProceedsThenStops(c, e, r);
      r
  }

  /** One flow: the system report is requested inside the try-block. */
  function Flow(c: Conn, cfg: FlowConfig, stored: Option<Id>, access: Access): (r: Run)
    ensures StopsAtFailure(c, r)
    ensures |r.conn.trace| > |c.trace| && r.conn.trace[|c.trace|] == SystemReport
    ensures KeepsSubscription(c, cfg, r)
    ensures access == ByKey && r.outcome == Failed(true) ==> c.script.failAt.Some?
  {
    var f := FetchSystemReport(c);
    match f
    case Raised(c0) => Run(c0, Failed(false))
    case Ok(status, c0) =>
      if !IsReady(status) then Run(c0, NotReady)
      else
        var r := Subscribed(c0, cfg, stored, access);
        ProceedsThenStops(c, f, r);
        r
  }

  /** Both flows of one invocation, on one connection: `global` is None
      when the CAL flow's exception escaped. */
  datatype MainRun = MainRun(cal: Outcome, global: Option<Outcome>, conn: Conn)

  function Main(script: Script, calStored: Option<Id>, globalStored: Option<Id>, access: Access): (r: MainRun)
    ensures r.global.None? <==> r.cal == Failed(true)
    ensures |r.conn.trace| >= 1 && r.conn.trace[0] == SystemReport
    ensures var cal := Flow(Conn(script, []), Cal, calStored, access);
      r.global.Some? ==> cal.conn.trace < r.conn.trace && r.conn.trace[|cal.conn.trace|] == SystemReport
    ensures access == ByKey && script.failAt.None? ==> r.global.Some?
    ensures var cal := Flow(Conn(script, []), Cal, calStored, access);
      access == ByAttribute && cal.outcome.Failed?
        && (exists k :: 0 <= k < |cal.conn.trace| && cal.conn.trace[k].Fetch?) ==>
          r.global.None? && r.conn == cal.conn
  {
    var cal := Flow(Conn(script, []), Cal, calStored, access);
    FlowAsWrittenEscapesAll(Conn(script, []), Cal, calStored);
    if cal.outcome == Failed(true) then MainRun(cal.outcome, None, cal.conn)
    else
      var global := Flow(cal.conn, Global, globalStored, access);
      MainRun(cal.outcome, Some(global.outcome), global.conn)
  }

  /** What follows the topic reads of a held session in a flow. */
  function FlowClosing(drained: Step<()>, cfg: FlowConfig, sub: Id, session: Id, access: Access): seq<Event>
  {
    var cancel := if access == ByKey then [SessionCmd(session, CancelName)] else [];
    var complete := [SessionCmd(session, CompleteName)];
    var subCancel := [SubscriptionCmd(sub, CancelName)];
    var c := drained.conn;
    if drained.Raised? then cancel
    else if FailsNext(c) then complete + cancel
    else if !cfg.cancelsSubscription then complete
    else if c.script.failAt == Some(|c.trace| + 1) then complete + subCancel + cancel
    else complete + subCancel
  }

  lemma HoldFlowTrace(c: Conn, cfg: FlowConfig, sub: Id, session: Id, access: Access)
    ensures var d := DrainTopics(c, session, cfg.topics, PageSize, true);
      var r := HoldFlow(c, cfg, sub, session, access);
      && r.conn.trace == d.conn.trace + FlowClosing(d, cfg, sub, session, access)
      && (r.outcome == Done <==>
            (d.Ok? && !FailsNext(d.conn) && (cfg.cancelsSubscription ==> d.conn.script.failAt != Some(|d.conn.trace| + 1))))
      && (r.outcome != Done ==> r.outcome.Failed? && (access == ByAttribute ==> r.outcome.escaped))
  {
  }

  /** The calls before the subscription step. */
  lemma FlowPrelude(c: Conn, cfg: FlowConfig, stored: Option<Id>, access: Access)
    ensures var r := Flow(c, cfg, stored, access);
      var c0 := c.(trace := c.trace + [SystemReport]);
      && (FailsNext(c) ==> r == Run(c0, Failed(false)))
      && (!FailsNext(c) && !IsReady(c.script.status) ==> r == Run(c0, NotReady))
      && (!FailsNext(c) && IsReady(c.script.status) ==> r == Subscribed(c0, cfg, stored, access))
  {
    var c0 := c.(trace := c.trace + [SystemReport]);
    assert !FailsNext(c) ==> FetchSystemReport(c) == Ok(c.script.status, c0);
  }

  /** A status that is not "ready" ends the flow right after the system
      report. */
  lemma FlowNotReady(c: Conn, cfg: FlowConfig, stored: Option<Id>, access: Access)
    ensures Flow(c, cfg, stored, access).outcome == NotReady <==> !FailsNext(c) && !IsReady(c.script.status)
    ensures Flow(c, cfg, stored, access).outcome == NotReady ==>
      Flow(c, cfg, stored, access).conn.trace == c.trace + [SystemReport]
  {
    FlowPrelude(c, cfg, stored, access);
  }

  lemma SubscribedWithStoredId(c: Conn, cfg: FlowConfig, stored: Option<Id>, access: Access)
    requires IsStored(stored)
    ensures var t := Subscribed(c, cfg, stored, access).conn.trace;
      forall i :: |c.trace| <= i < |t| ==>
        !t[i].CreateSubscription? && !t[i].WriteConfig? && (t[i].CreateSession? ==> t[i] == CreateSession(stored.value, None))
  {
    var t := Subscribed(c, cfg, stored, access).conn.trace;
    assert EnsureSubscription(c, stored, Nested, cfg.configKey) == Ok(stored.value, c);
    forall i | |c.trace| <= i < |t|
      ensures !t[i].CreateSubscription? && !t[i].WriteConfig? && (t[i].CreateSession? ==> t[i] == CreateSession(stored.value, None))
    {
      if i > |c.trace| {
        assert t[i] in t[|c.trace| + 1..];
      }
    }
  }

  /** A session answer without data ends the flow: the session request
      is its last call, and no topic is read and no command sent. */
  lemma FlowNoData(c: Conn, cfg: FlowConfig, stored: Option<Id>, access: Access)
    ensures EndsWithoutData(c, Flow(c, cfg, stored, access))
  {
    var r := Flow(c, cfg, stored, access);
    if !FailsNext(c) && IsReady(c.script.status) {
      var c0 := FetchSystemReport(c).conn;
      FlowIsSubscribed(c, c0, cfg, stored, access);
      SubscribedNoData(c0, cfg, stored, access);
      if r.outcome == NoData {
        assert r.conn.trace[|c.trace|] == SystemReport;
      }
    } else {
      FlowStopsAtReport(c, cfg, stored, access);
    }
  }

  lemma SubscribedNoData(c: Conn, cfg: FlowConfig, stored: Option<Id>, access: Access)
    ensures EndsWithoutData(c, Subscribed(c, cfg, stored, access))
  {
    var r := Subscribed(c, cfg, stored, access);
    if r.outcome == NoData {
      var e := EnsureSubscription(c, stored, Nested, cfg.configKey);
      assert e.Ok? && r == OpenSession(e.conn, cfg, e.value, access);
      var s := CreateSessionCall(e.conn, e.value, None);
      assert s.Ok? && !s.value.syncDataAvailable && r == Run(s.conn, NoData);
      assert e.conn.script.sessions == c.script.sessions;
    }
  }

  /** With a stored id a flow creates no subscription, writes nothing, and
      opens its session with the stored id. */
  lemma FlowStoredIdReused(c: Conn, cfg: FlowConfig, stored: Option<Id>, access: Access)
    requires IsStored(stored)
    ensures var t := Flow(c, cfg, stored, access).conn.trace;
      forall i :: |c.trace| <= i < |t| ==>
        !t[i].CreateSubscription? && !t[i].WriteConfig? && (t[i].CreateSession? ==> t[i] == CreateSession(stored.value, None))
  {
    FlowPrelude(c, cfg, stored, access);
    if !FailsNext(c) && IsReady(c.script.status) {
      SubscribedWithStoredId(c.(trace := c.trace + [SystemReport]), cfg, stored, access);
    }
  }

  lemma SubscribedWithNewId(c: Conn, cfg: FlowConfig, stored: Option<Id>, access: Access)
    requires !IsStored(stored)
    ensures var t := Subscribed(c, cfg, stored, access).conn.trace;
      var n := |c.trace|;
      && (forall i :: n <= i < |t| && t[i].CreateSubscription? ==> i == n)
      && forall i :: n <= i < |t| && t[i].CreateSession? ==>
           && i == n + 2
           && t[n + 1] == WriteConfig(cfg.configKey, t[i].subscriptionId)
           && t[i] == CreateSession(t[i].subscriptionId, None)
           && |c.script.subscriptions| > 0
           && NewSubscriptionId(c.script.subscriptions[0], Nested) == Some(t[i].subscriptionId)
  {
    var t := Subscribed(c, cfg, stored, access).conn.trace;
    var n := |c.trace|;
    var e := EnsureSubscription(c, stored, Nested, cfg.configKey);
    if e.Ok? {
      assert t == OpenSession(e.conn, cfg, e.value, access).conn.trace;
      forall i | n + 3 <= i < |t|
        ensures !t[i].CreateSubscription? && !t[i].CreateSession?
      {
        assert t[i] in t[n + 3..];
      }
    } else {
      assert t == e.conn.trace;
    }
  }

  /** Without a stored id: a subscription is created at most once, right
      after the system report, and a session is opened only with the id read
      from the response's nested `subscription.id`, right after that id was
      written under the flow's key. */
  lemma FlowNewIdPersisted(c: Conn, cfg: FlowConfig, stored: Option<Id>, access: Access)
    requires !IsStored(stored)
    ensures var t := Flow(c, cfg, stored, access).conn.trace;
      var n := |c.trace|;
      && (forall i :: n <= i < |t| && t[i].CreateSubscription? ==> i == n + 1)
      && forall i :: n <= i < |t| && t[i].CreateSession? ==>
           && i == n + 3
           && t[n + 2] == WriteConfig(cfg.configKey, t[i].subscriptionId)
           && t[i] == CreateSession(t[i].subscriptionId, None)
           && NewSubscriptionId(c.script.subscriptions[0], Nested) == Some(t[i].subscriptionId)
  {
    FlowPrelude(c, cfg, stored, access);
    if !FailsNext(c) && IsReady(c.script.status) {
      SubscribedWithNewId(c.(trace := c.trace + [SystemReport]), cfg, stored, access);
    }
  }

  /** The id a flow subscribes with: the stored one, or the nested id of
      the first create-subscription answer. */
  function FlowSubscriptionId(s: Script, stored: Option<Id>): Option<Id>
  {
    if IsStored(stored) then stored
    else if |s.subscriptions| > 0 then s.subscriptions[0].subscription
    else None
  }

  /** A server that answers a flow and has data for it. */
  predicate Serves(s: Script, cfg: FlowConfig, stored: Option<Id>)
  {
    && s.failAt.None?
    && IsReady(s.status)
    && FlowSubscriptionId(s, stored).Some?
    && |s.sessions| > 0
    && s.sessions[0].syncDataAvailable
    && AllTopicsEnd(s, s.sessions[0].session, cfg.topics)
  }

  /** The calls of a flow against a server that serves it. */
  function FlowTrace(s: Script, cfg: FlowConfig, stored: Option<Id>): seq<Event>
    requires Serves(s, cfg, stored)
  {
    var id := FlowSubscriptionId(s, stored).value;
    var session := s.sessions[0].session;
    [SystemReport]
    + (if IsStored(stored) then [] else [CreateSubscription, WriteConfig(cfg.configKey, id)])
    + [CreateSession(id, None)]
    + TopicsPlan(s, session, cfg.topics, PageSize, true)
    + [SessionCmd(session, CompleteName)]
    + (if cfg.cancelsSubscription then [SubscriptionCmd(id, CancelName)] else [])
  }

  /** The closing calls of a flow that meets no failure. */
  function ClosingCalls(cfg: FlowConfig, sub: Id, session: Id): seq<Event>
  {
    [SessionCmd(session, CompleteName)] + (if cfg.cancelsSubscription then [SubscriptionCmd(sub, CancelName)] else [])
  }

  lemma HoldFlowHappy(c: Conn, cfg: FlowConfig, sub: Id, session: Id, access: Access)
    requires c.script.failAt.None?
    requires AllTopicsEnd(c.script, session, cfg.topics)
    ensures HoldFlow(c, cfg, sub, session, access).outcome == Done
    ensures HoldFlow(c, cfg, sub, session, access).conn.trace
      == c.trace + TopicsPlan(c.script, session, cfg.topics, PageSize, true) + ClosingCalls(cfg, sub, session)
  {
    DrainTopicsFollowsPlan(c, session, cfg.topics, PageSize, true);
    var c1 := c.(trace := c.trace + TopicsPlan(c.script, session, cfg.topics, PageSize, true));
    var complete := Call(c1, SessionCmd(session, CompleteName));
    if cfg.cancelsSubscription {
      var cancel := Call(complete.conn, SubscriptionCmd(sub, CancelName));
      assert cancel.conn.trace == c1.trace + ClosingCalls(cfg, sub, session);
    }
  }

  lemma OpenSessionHappy(c: Conn, cfg: FlowConfig, sub: Id, access: Access)
    requires c.script.failAt.None?
    requires |c.script.sessions| > 0 && c.script.sessions[0].syncDataAvailable
    requires AllTopicsEnd(c.script, c.script.sessions[0].session, cfg.topics)
    ensures var session := c.script.sessions[0].session;
      && OpenSession(c, cfg, sub, access).outcome == Done
      && OpenSession(c, cfg, sub, access).conn.trace
         == c.trace + [CreateSession(sub, None)] + TopicsPlan(c.script, session, cfg.topics, PageSize, true) + ClosingCalls(cfg, sub, session)
  {
    var session := c.script.sessions[0].session;
    var s := CreateSessionCall(c, sub, None);
    TopicsPlanReadsPagesOnly(c.script, s.conn.script, session, cfg.topics, PageSize, true);
    HoldFlowHappy(s.conn, cfg, sub, session, access);
  }

  lemma SubscribedHappy(c: Conn, cfg: FlowConfig, stored: Option<Id>, access: Access)
    requires Serves(c.script, cfg, stored)
    ensures Subscribed(c, cfg, stored, access).outcome == Done
    ensures [SystemReport] + Subscribed(c, cfg, stored, access).conn.trace[|c.trace|..] == FlowTrace(c.script, cfg, stored)
  {
    var script := c.script;
    var id := FlowSubscriptionId(script, stored).value;
    var session := script.sessions[0].session;
    var e := EnsureSubscription(c, stored, Nested, cfg.configKey);
    var sub := if IsStored(stored) then [] else [CreateSubscription, WriteConfig(cfg.configKey, id)];
    if !IsStored(stored) {
      var a := CreateSubscriptionCall(c);
      assert a.Ok?;
    }
    assert e.Ok? && e.value == id && e.conn.trace == c.trace + sub;
    assert e.conn.script.pages == script.pages && e.conn.script.sessions == script.sessions;
    TopicsPlanReadsPagesOnly(script, e.conn.script, session, cfg.topics, PageSize, true);
    OpenSessionHappy(e.conn, cfg, id, access);
    var plan := TopicsPlan(script, session, cfg.topics, PageSize, true);
    var t := Subscribed(c, cfg, stored, access).conn.trace;
    var added := sub + [CreateSession(id, None)] + plan + ClosingCalls(cfg, id, session);
    assert t == c.trace + sub + [CreateSession(id, None)] + plan + ClosingCalls(cfg, id, session);
    var cancel := if cfg.cancelsSubscription then [SubscriptionCmd(id, CancelName)] else [];
    Regroup(c.trace, sub, [CreateSession(id, None)], plan, [SessionCmd(session, CompleteName)], cancel);
    Regroup([SystemReport], sub, [CreateSession(id, None)], plan, [SessionCmd(session, CompleteName)], cancel);
  }

  /** The two groupings of a flow's calls that the happy-path proof moves
      between, and the calls after a prefix `x`. */
  lemma Regroup(x: seq<Event>, a: seq<Event>, b: seq<Event>, p: seq<Event>, d: seq<Event>, e: seq<Event>)
    ensures x + (a + b + p + (d + e)) == x + a + b + p + d + e
    ensures (x + a + b + p + (d + e))[|x|..] == a + b + p + (d + e)
  {
    assert x + (a + b + p + (d + e)) == x + (a + b + p) + (d + e);
    assert x + a + b + p + (d + e) == x + (a + b + p + (d + e));
  }

  /** Against a server that serves it, a flow ends normally after reading
      every topic as planned (each page followed by its range line),
      completing its session and, for Global, cancelling the subscription. */
  lemma FlowHappyPath(c: Conn, cfg: FlowConfig, stored: Option<Id>, access: Access)
    requires Serves(c.script, cfg, stored)
    ensures Flow(c, cfg, stored, access).outcome == Done
    ensures Flow(c, cfg, stored, access).conn.trace == c.trace + FlowTrace(c.script, cfg, stored)
  {
    var r := Flow(c, cfg, stored, access);
    var f := FetchSystemReport(c);
    assert f.Ok? && IsReady(f.value);
    assert r == Subscribed(f.conn, cfg, stored, access);
    SubscribedHappy(f.conn, cfg, stored, access);
    PrefixAfterReport(c.trace, r.conn.trace);
  }

  lemma PrefixAfterReport(x: seq<Event>, t: seq<Event>)
    requires x + [SystemReport] <= t
    ensures t == x + ([SystemReport] + t[|x| + 1..])
  {
    assert t == (x + [SystemReport]) + t[|x| + 1..];
  }


  lemma FinishAsWritten(c: Conn, cfg: FlowConfig, sub: Id, session: Id)
    ensures var r := Finish(c, cfg, sub, session, ByAttribute);
      && (r.outcome == Done || r.outcome == Failed(true))
      && forall e :: e in r.conn.trace[|c.trace|..] ==> !IsCancel(e)
  {
    var t := Finish(c, cfg, sub, session, ByAttribute).conn.trace;
    var c1 := c.(trace := c.trace + [SessionCmd(session, CompleteName)]);
    if FailsNext(c) || !cfg.cancelsSubscription {
      assert t == c1.trace;
      assert t[|c.trace|..] == [SessionCmd(session, CompleteName)];
    } else {
      assert t == c1.trace + [SubscriptionCmd(sub, CancelName)];
      assert t[|c.trace|..] == [SessionCmd(session, CompleteName), SubscriptionCmd(sub, CancelName)];
    }
  }

  lemma HoldFlowAsWritten(c: Conn, cfg: FlowConfig, sub: Id, session: Id)
    ensures var r := HoldFlow(c, cfg, sub, session, ByAttribute);
      && (r.outcome == Done || r.outcome == Failed(true))
      && forall e :: e in r.conn.trace[|c.trace|..] ==> !IsCancel(e)
  {
    var d := DrainTopics(c, session, cfg.topics, PageSize, true);
    var t := HoldFlow(c, cfg, sub, session, ByAttribute).conn.trace;
    assert forall e :: e in d.conn.trace[|c.trace|..] ==> !e.SessionCmd?;
    if d.Ok? {
      FinishAsWritten(d.conn, cfg, sub, session);
      assert t[|c.trace|..] == d.conn.trace[|c.trace|..] + t[|d.conn.trace|..];
    } else {
      assert t == d.conn.trace;
    }
  }

  lemma OpenSessionAsWritten(c: Conn, cfg: FlowConfig, sub: Id, k: nat)
    ensures var r := OpenSession(c, cfg, sub, ByAttribute);
      var t := r.conn.trace;
      && (forall i :: |c.trace| <= i < |t| ==> !IsCancel(t[i]))
      && (r.outcome.Failed? && |c.trace| <= k < |t| && t[k].Fetch? ==> r.outcome.escaped)
  {
    var r := OpenSession(c, cfg, sub, ByAttribute);
    var t := r.conn.trace;
    var s := CreateSessionCall(c, sub, None);
    if s.Ok? && s.value.syncDataAvailable {
      HoldFlowAsWritten(s.conn, cfg, sub, s.value.session);
      forall i | |c.trace| <= i < |t|
        ensures !IsCancel(t[i])
      {
        if i > |c.trace| {
          assert t[i] in t[|s.conn.trace|..];
        }
      }
    } else {
      assert t == s.conn.trace;
    }
  }

  lemma SubscribedAsWritten(c: Conn, cfg: FlowConfig, stored: Option<Id>, k: nat)
    ensures var r := Subscribed(c, cfg, stored, ByAttribute);
      var t := r.conn.trace;
      && (forall i :: |c.trace| <= i < |t| ==> !IsCancel(t[i]))
      && (r.outcome.Failed? && |c.trace| <= k < |t| && t[k].Fetch? ==> r.outcome.escaped)
  {
    var t := Subscribed(c, cfg, stored, ByAttribute).conn.trace;
    var e := EnsureSubscription(c, stored, Nested, cfg.configKey);
    if e.Ok? {
      OpenSessionAsWritten(e.conn, cfg, e.value, k);
      assert e.conn.trace == c.trace || e.conn.trace == c.trace + [CreateSubscription, WriteConfig(cfg.configKey, e.value)];
      assert forall i :: |c.trace| <= i < |e.conn.trace| ==> !t[i].SessionCmd? && !t[i].Fetch?;
    } else {
      assert t == e.conn.trace;
      assert forall i :: |c.trace| <= i < |t| ==> !t[i].SessionCmd? && !t[i].Fetch?;
    }
  }

  /** As written: a flow never cancels a session, and a failure once the
      topic reads have begun (a read at position k) escapes the entry point
      (AttributeError in the except-block). */
  lemma FlowAsWrittenEscapes(c: Conn, cfg: FlowConfig, stored: Option<Id>, k: nat)
    ensures var r := Flow(c, cfg, stored, ByAttribute);
      var t := r.conn.trace;
      && (forall i :: |c.trace| <= i < |t| ==> !IsCancel(t[i]))
      && (r.outcome.Failed? && |c.trace| <= k < |t| && t[k].Fetch? ==> r.outcome.escaped)
  {
    FlowPrelude(c, cfg, stored, ByAttribute);
    var r := Flow(c, cfg, stored, ByAttribute);
    var c0 := c.(trace := c.trace + [SystemReport]);
    if !FailsNext(c) && IsReady(c.script.status) {
      assert r == Subscribed(c0, cfg, stored, ByAttribute);
      SubscribedAsWritten(c0, cfg, stored, k);
      assert r.conn.trace[|c.trace|] == SystemReport;
    } else {
      assert r.conn.trace == c0.trace;
    }
  }

  /** FlowAsWrittenEscapes for every position of a topic read. */
  lemma FlowAsWrittenEscapesAll(c: Conn, cfg: FlowConfig, stored: Option<Id>)
    ensures var r := Flow(c, cfg, stored, ByAttribute);
      forall k :: r.outcome.Failed? && |c.trace| <= k < |r.conn.trace| && r.conn.trace[k].Fetch? ==> r.outcome.escaped
  {
    var r := Flow(c, cfg, stored, ByAttribute);
    forall k | r.outcome.Failed? && |c.trace| <= k < |r.conn.trace| && r.conn.trace[k].Fetch?
      ensures r.outcome.escaped
    {
      FlowAsWrittenEscapes(c, cfg, stored, k);
    }
  }

  lemma HoldFlowCorrected(c: Conn, cfg: FlowConfig, sub: Id, session: Id)
    ensures var r := HoldFlow(c, cfg, sub, session, ByKey);
      && (r.outcome.Failed? ==> r.conn.trace[|r.conn.trace| - 1] == SessionCmd(session, CancelName))
      && (r.outcome == Failed(true) ==> c.script.failAt == Some(|r.conn.trace| - 1))
  {
    var d := DrainTopics(c, session, cfg.topics, PageSize, true);
    if d.Ok? {
      var f := Finish(d.conn, cfg, sub, session, ByKey);
      var c1 := Call(d.conn, SessionCmd(session, CompleteName)).conn;
      if !FailsNext(d.conn) && cfg.cancelsSubscription {
        var c2 := Call(c1, SubscriptionCmd(sub, CancelName));
      }
    }
  }

  /** Corrected except-block, as seen from connection `c`: a failure once
      a topic read (at position k) has happened ends the run with the
      Cancel of the first session answer, and escapes only when that
      Cancel was the failing call. */
  predicate CancelsAfterRead(c: Conn, r: Run, k: nat)
  {
    && CancelsHeldAfterRead(c, r, k)
    && (r.outcome == Failed(true) ==> c.script.failAt == Some(|r.conn.trace| - 1))
  }

  lemma OpenSessionCorrected(c: Conn, cfg: FlowConfig, sub: Id, k: nat)
    ensures CancelsAfterRead(c, OpenSession(c, cfg, sub, ByKey), k)
  {
    var r := OpenSession(c, cfg, sub, ByKey);
    var s := CreateSessionCall(c, sub, None);
    if s.Ok? && s.value.syncDataAvailable {
      assert r == HoldFlow(s.conn, cfg, sub, s.value.session, ByKey);
      HoldFlowCorrected(s.conn, cfg, sub, s.value.session);
      CorrectedAfterSession(c, s.conn, r, sub, k);
    } else {
      assert r == Run(s.conn, if s.Ok? then NoData else Failed(false));
    }
  }

  /** The held session is the first session answer, and its request is
      not a topic read. */
  lemma CorrectedAfterSession(c: Conn, c1: Conn, r: Run, sub: Id, k: nat)
    requires |c.script.sessions| > 0
    requires c1.script.failAt == c.script.failAt && c1.trace == c.trace + [CreateSession(sub, None)]
    requires c1.trace <= r.conn.trace
    requires r.outcome.Failed? ==> r.conn.trace[|r.conn.trace| - 1] == SessionCmd(c.script.sessions[0].session, CancelName)
    requires r.outcome == Failed(true) ==> c1.script.failAt == Some(|r.conn.trace| - 1)
    ensures CancelsAfterRead(c, r, k)
  {
  }

  /** Corrected (`sync_session['id']`): a flow that fails once its topic
      reads have begun (a read at position k) ends with the Cancel of its
      session, and its exception escapes only when that Cancel itself
      fails. */
  lemma FlowCorrectedCancels(c: Conn, cfg: FlowConfig, stored: Option<Id>, k: nat)
    ensures CancelsAfterRead(c, Flow(c, cfg, stored, ByKey), k)
  {
    if !FailsNext(c) && IsReady(c.script.status) {
      var c0 := FetchSystemReport(c).conn;
      FlowIsSubscribed(c, c0, cfg, stored, ByKey);
      SubscribedAfterReport(c, c0, cfg, stored, k);
    } else {
      FlowStopsAtReport(c, cfg, stored, ByKey);
    }
  }

  /** On a ready system the flow continues with the subscription step. */
  lemma FlowIsSubscribed(c: Conn, c0: Conn, cfg: FlowConfig, stored: Option<Id>, access: Access)
    requires c0 == c.(trace := c.trace + [SystemReport]) && !FailsNext(c) && IsReady(c.script.status)
    ensures Flow(c, cfg, stored, access) == Subscribed(c0, cfg, stored, access)
  {
  }

  /** Otherwise it ends with the system report, its exception logged. */
  lemma FlowStopsAtReport(c: Conn, cfg: FlowConfig, stored: Option<Id>, access: Access)
    requires FailsNext(c) || !IsReady(c.script.status)
    ensures Flow(c, cfg, stored, access).conn.trace == c.trace + [SystemReport]
    ensures Flow(c, cfg, stored, access).outcome == (if FailsNext(c) then Failed(false) else NotReady)
  {
  }

  /** SubscribedCorrected, seen from the connection before the system
      report. */
  lemma SubscribedAfterReport(c: Conn, c0: Conn, cfg: FlowConfig, stored: Option<Id>, k: nat)
    requires c0.script == c.script && c0.trace == c.trace + [SystemReport]
    ensures CancelsAfterRead(c, Subscribed(c0, cfg, stored, ByKey), k)
  {
    SubscribedCorrected(c0, cfg, stored, k);
    var t := Subscribed(c0, cfg, stored, ByKey).conn.trace;
    if |c.trace| <= k < |t| && t[k].Fetch? {
      assert t[|c.trace|] == SystemReport;
    }
  }

  lemma SubscribedCorrected(c: Conn, cfg: FlowConfig, stored: Option<Id>, k: nat)
    ensures CancelsAfterRead(c, Subscribed(c, cfg, stored, ByKey), k)
  {
    var r := Subscribed(c, cfg, stored, ByKey);
    var e := EnsureSubscription(c, stored, Nested, cfg.configKey);
    if e.Ok? {
      assert r == OpenSession(e.conn, cfg, e.value, ByKey);
      OpenSessionCorrected(e.conn, cfg, e.value, k);
      assert e.conn.trace == c.trace || e.conn.trace == c.trace + [CreateSubscription, WriteConfig(cfg.configKey, e.value)];
      CancelsHeldFromEarlier(c, e.conn, r, k);
    } else {
      assert r == Run(e.conn, Failed(false));
    }
  }

  /** As written: a CAL failure once its topic reads have begun escapes,
      and the Global flow never starts. */
  lemma MainAsWrittenSkipsGlobal(script: Script, calStored: Option<Id>, globalStored: Option<Id>, k: nat)
    ensures var cal := Flow(Conn(script, []), Cal, calStored, ByAttribute);
      var t := cal.conn.trace;
      cal.outcome.Failed? && k < |t| && t[k].Fetch? ==>
        && Main(script, calStored, globalStored, ByAttribute).global.None?
        && Main(script, calStored, globalStored, ByAttribute).conn.trace == t
  {
    FlowAsWrittenEscapes(Conn(script, []), Cal, calStored, k);
  }

  /** Corrected: with a server that raises nothing, the Global flow always
      runs, right after the CAL flow's last call. */
  lemma MainCorrectedRunsGlobal(script: Script, calStored: Option<Id>, globalStored: Option<Id>)
    requires script.failAt.None?
    ensures var cal := Flow(Conn(script, []), Cal, calStored, ByKey);
      var m := Main(script, calStored, globalStored, ByKey);
      && m.global.Some?
      && cal.conn.trace < m.conn.trace
      && m.conn.trace[|cal.conn.trace|] == SystemReport
  {
    var cal := Flow(Conn(script, []), Cal, calStored, ByKey);
    FlowCorrectedCancels(Conn(script, []), Cal, calStored, 0);
    var g := Flow(cal.conn, Global, globalStored, ByKey);
  }

  /** With a stored id and a session answer that has data, a flow that
      does not fail before its session request reaches the held session. */
  lemma FlowHoldsSession(c: Conn, c1: Conn, cfg: FlowConfig, sub: Id, access: Access)
    requires ClearBetween(c.script, |c.trace|, |c.trace| + 2) && IsReady(c.script.status)
    requires sub != "" && |c.script.sessions| > 0 && c.script.sessions[0].syncDataAvailable
    requires c1.script == c.script.(sessions := c.script.sessions[1..])
    requires c1.trace == c.trace + [SystemReport, CreateSession(sub, None)]
    ensures Flow(c, cfg, Some(sub), access) == HoldFlow(c1, cfg, sub, c.script.sessions[0].session, access)
  {
    var r := Flow(c, cfg, Some(sub), access);
    var f := FetchSystemReport(c);
    assert r == Subscribed(f.conn, cfg, Some(sub), access);
    assert EnsureSubscription(f.conn, Some(sub), Nested, cfg.configKey) == Ok(sub, f.conn);
    assert f.conn.trace + [CreateSession(sub, None)] == c1.trace;
    assert CreateSessionCall(f.conn, sub, None) == Ok(c.script.sessions[0], c1);
  }



  /** When the first topic read of a held session raises, the except-block
      runs at once: it raises itself when it reads the id as an attribute,
      and otherwise sends the Cancel. */
  lemma HoldFlowFirstReadRaises(c: Conn, cfg: FlowConfig, sub: Id, session: Id, access: Access)
    requires |cfg.topics| > 0
    requires FailsNext(c) || |PagesOf(c.script, session, cfg.topics[0])| == 0
    ensures var r := HoldFlow(c, cfg, sub, session, access);
      var c1 := c.(trace := c.trace + [Fetch(session, cfg.topics[0], 0, PageSize)]);
      && r.conn.script == c.script
      && r.conn.trace == c1.trace + (if access == ByKey then [SessionCmd(session, CancelName)] else [])
      && r.outcome == Failed(access == ByAttribute || FailsNext(c1))
  {
    var f := FetchPage(c, session, cfg.topics[0], 0, 0, PageSize);
    assert f.Raised?;
    assert Drain(c, session, cfg.topics[0], PageSize, true, 0, 0) == Raised(f.conn);
    assert DrainTopics(c, session, cfg.topics, PageSize, true) == Raised(f.conn);
  }

  /** A page with no records and no next page. */
  const EmptyPage: Page := Page([], 0, PageSize, 1, 0, false, false)

  /** A server that opens a CAL session but holds none of its pages, so
      the first topic read raises. Both subscription ids are stored. */
  const CalReadFails: Script := Script("ready", 0, [], [SessionResponse(true, "c")], [], map[], None)

  /** The CAL flow against CalReadFails, up to its held session. */
  lemma CalFlowHoldsSession(script: Script, access: Access)
    requires script == CalReadFails
    ensures Flow(Conn(script, []), Cal, Some("cal-sub"), access)
      == HoldFlow(Conn(script.(sessions := []), [SystemReport, CreateSession("cal-sub", None)]), Cal, "cal-sub", "c", access)
  {
    ReadySpellings();
    FlowHoldsSession(Conn(script, []), Conn(script.(sessions := []), [SystemReport, CreateSession("cal-sub", None)]), Cal, "cal-sub", access);
  }

  lemma MainAsWrittenStopsAfterCal(script: Script)
    requires script == CalReadFails
    ensures var m := Main(script, Some("cal-sub"), Some("global-sub"), ByAttribute);
      && m.cal == Failed(true)
      && m.global == None
      && m.conn.trace == [SystemReport, CreateSession("cal-sub", None)] + [Fetch("c", "filing-activities", 0, PageSize)]
  {
    CalFlowHoldsSession(script, ByAttribute);
    var c1 := Conn(script.(sessions := []), [SystemReport, CreateSession("cal-sub", None)]);
    HoldFlowFirstReadRaises(c1, Cal, "cal-sub", "c", ByAttribute);
  }

  /** A flow whose held session has no pages for its first topic, on a
      server that raises nothing else: the read fails and the corrected
      except-block cancels the session. */
  lemma FlowFirstReadCancelled(c: Conn, c1: Conn, cfg: FlowConfig, sub: Id)
    requires c.script.failAt.None? && IsReady(c.script.status)
    requires sub != "" && |c.script.sessions| > 0 && c.script.sessions[0].syncDataAvailable
    requires |cfg.topics| > 0 && |PagesOf(c.script, c.script.sessions[0].session, cfg.topics[0])| == 0
    requires c1.script == c.script.(sessions := c.script.sessions[1..])
    requires c1.trace == c.trace + [SystemReport, CreateSession(sub, None)]
    ensures var session := c.script.sessions[0].session;
      Flow(c, cfg, Some(sub), ByKey)
        == Run(c1.(trace := c1.trace + [Fetch(session, cfg.topics[0], 0, PageSize), SessionCmd(session, CancelName)]), Failed(false))
  {
    var session := c.script.sessions[0].session;
    FlowHoldsSession(c, c1, cfg, sub, ByKey);
    HoldFlowFirstReadRaises(c1, cfg, sub, session, ByKey);
  }

  /** The CAL flow of the corrected run against CalReadFails. */
  lemma CalCancelsAfterFailedRead(script: Script, c1: Conn)
    requires script == CalReadFails
    requires c1 == Conn(script.(sessions := []), [SystemReport, CreateSession("cal-sub", None)])
    ensures Flow(Conn(script, []), Cal, Some("cal-sub"), ByKey)
      == Run(c1.(trace := c1.trace + [Fetch("c", "filing-activities", 0, PageSize), SessionCmd("c", CancelName)]), Failed(false))
  {
    ReadySpellings();
    assert script.sessions[1..] == [];
    FlowFirstReadCancelled(Conn(script, []), c1, Cal, "cal-sub");
  }

  lemma MainCorrectedContinuesWithGlobal(script: Script)
    requires script == CalReadFails
    ensures var m := Main(script, Some("cal-sub"), Some("global-sub"), ByKey);
      && m.cal == Failed(false)
      && m.global == Some(Failed(false))
      && m.conn.trace == [SystemReport, CreateSession("cal-sub", None)]
                         + [Fetch("c", "filing-activities", 0, PageSize), SessionCmd("c", "Cancel")]
                         + [SystemReport, CreateSession("global-sub", None)]
  {
    var c1 := Conn(script.(sessions := []), [SystemReport, CreateSession("cal-sub", None)]);
    CalCancelsAfterFailedRead(script, c1);
    ReadySpellings();
    var c := c1.(trace := c1.trace + [Fetch("c", "filing-activities", 0, PageSize), SessionCmd("c", CancelName)]);
    MainAfterCalLogged(script, Some("cal-sub"), Some("global-sub"), ByKey, c);
    FlowWithoutSession(c, Global, "global-sub", ByKey);
    assert CancelName == "Cancel";
  }

  /** A CAL failure that the except-block logged is followed by the Global
      flow, on the connection the CAL flow left. */
  lemma MainAfterCalLogged(script: Script, calStored: Option<Id>, globalStored: Option<Id>, access: Access, c: Conn)
    requires Flow(Conn(script, []), Cal, calStored, access) == Run(c, Failed(false))
    ensures var g := Flow(c, Global, globalStored, access);
      Main(script, calStored, globalStored, access) == MainRun(Failed(false), Some(g.outcome), g.conn)
  {
  }

  /** A ready server that raises nothing and has no session answer left:
      with a stored id, the flow fails on the session request. */
  lemma FlowWithoutSession(c: Conn, cfg: FlowConfig, sub: Id, access: Access)
    requires c.script.failAt.None? && IsReady(c.script.status) && |c.script.sessions| == 0 && sub != ""
    ensures Flow(c, cfg, Some(sub), access)
      == Run(c.(trace := c.trace + [SystemReport, CreateSession(sub, None)]), Failed(false))
  {
    var c0 := c.(trace := c.trace + [SystemReport]);
    FlowIsSubscribed(c, c0, cfg, Some(sub), access);
    assert EnsureSubscription(c0, Some(sub), Nested, cfg.configKey) == Ok(sub, c0);
  }

  /** A Global server whose subscription cancel raises after both topics
      were read and the session was completed. */
  const SubscriptionCancelFails: Script := Script("ready", 0, [], [SessionResponse(true, "g")], [],
    map[("g", "geocode-activities") := [EmptyPage], ("g", "link-activities") := [EmptyPage]], Some(7))

  /** Both Global topics of SubscriptionCancelFails: one empty page each. */
  lemma GlobalTopicsOfOnePage(c: Conn)
    requires c.script.pages == SubscriptionCancelFails.pages && c.script.failAt == Some(|c.trace| + 5)
    ensures DrainTopics(c, "g", Global.topics, PageSize, true)
      == Ok((), c.(trace := c.trace + [Fetch("g", "geocode-activities", 0, PageSize), Report(NoRecords),
                                       Fetch("g", "link-activities", 0, PageSize), Report(NoRecords)]))
  {
    assert RangeOf(EmptyPage) == NoRecords;
    assert PagesOf(c.script, "g", "geocode-activities") == [EmptyPage];
    assert PagesOf(c.script, "g", "link-activities") == [EmptyPage];
    var c2 := c.(trace := c.trace + Visit("g", "geocode-activities", 0, PageSize, EmptyPage, true));
    var c3 := c2.(trace := c2.trace + Visit("g", "link-activities", 0, PageSize, EmptyPage, true));
    DrainStep(c, "g", "geocode-activities", PageSize, true, 0, 0);
    DrainStep(c2, "g", "link-activities", PageSize, true, 0, 0);
    assert Global.topics[1..][1..] == [];
    assert DrainTopics(c2, "g", Global.topics[1..], PageSize, true) == Ok((), c3);
    assert c3.trace == c.trace + [Fetch("g", "geocode-activities", 0, PageSize), Report(NoRecords),
                                  Fetch("g", "link-activities", 0, PageSize), Report(NoRecords)];
  }

  lemma GlobalHoldAfterCompleteFails(c: Conn, access: Access)
    requires c.script.pages == SubscriptionCancelFails.pages && c.script.failAt == Some(|c.trace| + 5)
    ensures HoldFlow(c, Global, "global-sub", "g", access).outcome == Failed(access == ByAttribute)
    ensures HoldFlow(c, Global, "global-sub", "g", access).conn.trace
      == c.trace + [Fetch("g", "geocode-activities", 0, PageSize), Report(NoRecords),
                    Fetch("g", "link-activities", 0, PageSize), Report(NoRecords),
                    SessionCmd("g", "Complete"), SubscriptionCmd("global-sub", "Cancel")]
                 + (if access == ByKey then [SessionCmd("g", "Cancel")] else [])
  {
    GlobalTopicsOfOnePage(c);
    var c3 := c.(trace := c.trace + [Fetch("g", "geocode-activities", 0, PageSize), Report(NoRecords),
                                     Fetch("g", "link-activities", 0, PageSize), Report(NoRecords)]);
    var c4 := c3.(trace := c3.trace + [SessionCmd("g", "Complete"), SubscriptionCmd("global-sub", "Cancel")]);
    if access == ByKey {
      assert Finish(c3, Global, "global-sub", "g", access) == Run(c4.(trace := c4.trace + [SessionCmd("g", "Cancel")]), Failed(false));
    } else {
      assert Finish(c3, Global, "global-sub", "g", access) == Run(c4, Failed(true));
    }
  }

  lemma GlobalFlowHoldsSession(script: Script, access: Access)
    requires script == SubscriptionCancelFails
    ensures Flow(Conn(script, []), Global, Some("global-sub"), access)
      == HoldFlow(Conn(script.(sessions := []), [SystemReport, CreateSession("global-sub", None)]), Global, "global-sub", "g", access)
  {
    ReadySpellings();
    FlowHoldsSession(Conn(script, []), Conn(script.(sessions := []), [SystemReport, CreateSession("global-sub", None)]), Global, "global-sub", access);
  }

  /** When the subscription's cancel fails, the corrected except-block
      cancels the session the flow has just completed; as written it raises
      instead, sends nothing, and the exception escapes. */
  lemma GlobalCancelsCompletedSession(script: Script)
    requires script == SubscriptionCancelFails
    ensures var r := Flow(Conn(script, []), Global, Some("global-sub"), ByKey);
      && r.outcome == Failed(false)
      && r.conn.trace == [SystemReport, CreateSession("global-sub", None)]
                       + [Fetch("g", "geocode-activities", 0, PageSize), Report(NoRecords),
                          Fetch("g", "link-activities", 0, PageSize), Report(NoRecords),
                          SessionCmd("g", "Complete"), SubscriptionCmd("global-sub", "Cancel"), SessionCmd("g", "Cancel")]
    ensures var r := Flow(Conn(script, []), Global, Some("global-sub"), ByAttribute);
      && r.outcome == Failed(true)
      && r.conn.trace == [SystemReport, CreateSession("global-sub", None)]
                       + [Fetch("g", "geocode-activities", 0, PageSize), Report(NoRecords),
                          Fetch("g", "link-activities", 0, PageSize), Report(NoRecords),
                          SessionCmd("g", "Complete"), SubscriptionCmd("global-sub", "Cancel")]
  {
    var c1 := Conn(script.(sessions := []), [SystemReport, CreateSession("global-sub", None)]);
    GlobalFlowHoldsSession(script, ByKey);
    GlobalHoldAfterCompleteFails(c1, ByKey);
    GlobalFlowHoldsSession(script, ByAttribute);
    GlobalHoldAfterCompleteFails(c1, ByAttribute);
  }
}
