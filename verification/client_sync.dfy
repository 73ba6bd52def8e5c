/** The command-line client's `--sync` lifecycle and its `--sync-topic`
    loop: check readiness, read the feeds, reuse or create the
    subscription, open one session, drain three topics 50 records at a
    time, complete the session; on an error, try to cancel it. */
module ClientSync {

  import opened Protocol
  import opened Oracle
  import opened Status
  import opened Paginator
  import opened Lifecycle

  const SyncTopics: seq<Topic> := ["filing-activities", "element-activities", "transaction-activities"]
  const SyncPageSize: int := 50
  const TopicPageSize: int := 1000
  const SubscriptionKey: string := "SUBSCRIPTION_ID"

  /** From the held session on: drain the topics and complete the session;
      on an exception, the except-block cancels it as `access` says and the
      outer except-block logs and exits. */
  function HoldSession(c: Conn, session: Id, access: Access): (r: Run)
    ensures StopsAtFailure(c, r)
    ensures r.outcome == Done || r.outcome == Failed(false)
  {
    var d := DrainTopics(c, session, SyncTopics, SyncPageSize, false);
    match d
    case Raised(c1) =>
      var r := Run(CancelOnError(c1, Some(session), access).conn, Failed(false));
      RaisedThenCancelStops(c, d, r, session);
      r
    case Ok(_, c1) =>
      var k := Call(c1, SessionCmd(session, CompleteName));
      match k
      case Raised(c2) =>
        var r := Run(CancelOnError(c2, Some(session), access).conn, Failed(false));
        RaisedThenCancelStops(c1, k, r, session);
        ProceedsThenStops(c, d, r);
        r
      case Ok(_, c2) =>
        var r := Run(c2, Done);
        ProceedsThenStops(c1, k, r);
        ProceedsThenStops(c, d, r);
        r
  }

  /** The inner try-block: subscription, session, and what follows. An
      exception before a session is held is only logged. */
  function Subscribe(c: Conn, stored: Option<Id>, access: Access): (r: Run)
    ensures StopsAtFailure(c, r)
    ensures r.outcome == Done || r.outcome == NoData || r.outcome == Failed(false)
  {
    var e := EnsureSubscription(c, stored, Nested, SubscriptionKey);
    match e
    case Raised(c1) => Run(c1, Failed(false))
    case Ok(sub, c1) =>
      var r := OpenSession(c1, sub, access);
      ProceedsThenStops(c, e, r);
      r
  }

  /** Open the session; hold it when the answer says data is available. */
  function OpenSession(c: Conn, sub: Id, access: Access): (r: Run)
    ensures StopsAtFailure(c, r)
    ensures r.outcome == Done || r.outcome == NoData || r.outcome == Failed(false)
    ensures |r.conn.trace| > |c.trace| && r.conn.trace[|c.trace|] == CreateSession(sub, None)
  {
    var s := CreateSessionCall(c, sub, None);
    match s
    case Raised(c2) => Run(c2, Failed(false))
    case Ok(resp, c2) =>
      if !resp.syncDataAvailable then Run(c2, NoData)
      else
        var r := HoldSession(c2, resp.session, access);
        ProceedsThenStops(c, s, r);
        r
  }

  /** `--sync`. The system report is requested before the try-block, so
      an exception there escapes; a status that is not "ready" exits; the
      first feed of the feed query is required (IndexError otherwise). */
  function Sync(script: Script, stored: Option<Id>, access: Access): (r: Run)
    ensures StopsAtFailure(Conn(script, []), r)
    ensures |r.conn.trace| >= 1 && r.conn.trace[0] == SystemReport
  {
    var c0 := Conn(script, []);
    var f := FetchSystemReport(c0);
    match f
    case Raised(c) =>
      var r := Run(c, Failed(true));
      RaisedThenCancelStops(c0, f, r, "");
      r
    case Ok(status, c) =>
      if !IsReady(status) then
        var r := Run(c, NotReady);
        ProceedsThenStops(c0, f, r);
        r
      else
        var g := RetrieveSyncFeeds(c);
        match g
        case Raised(c1) =>
          var r := Run(c1, Failed(false));
          RaisedThenCancelStops(c, g, r, "");
          ProceedsThenStops(c0, f, r);
          r
        case Ok(n, c1) =>
          var r := if n == 0 then Run(c1, Failed(false)) else Subscribe(c1, stored, access);
          ProceedsThenStops(c, g, r);
          ProceedsThenStops(c0, f, r);
          r
  }

  /** `--sync-topic`: reads the offset-0 page once and discards it, then
      reads the topic from offset 0 again, 1000 records at a time. */
  function SyncTopic(script: Script, session: Id, topic: Topic): (r: Run)
    ensures StopsAtFailure(Conn(script, []), r)
    ensures forall i :: 1 <= i < |r.conn.trace| ==> ReadIn(r.conn.trace[i], session, [topic], TopicPageSize)
  {
    var c0 := Conn(script, []);
    match FetchSystemReport(c0)
    case Raised(c) => Run(c, Failed(true))
    case Ok(status, c) =>
      if !IsReady(status) then Run(c, NotReady)
      else
        match FetchPage(c, session, topic, 0, 0, TopicPageSize)
        case Raised(c1) => Run(c1, Failed(false))
        case Ok(_, c1) =>
          match Drain(c1, session, topic, TopicPageSize, false, 0, 0)
          case Raised(c2) => Run(c2, Failed(false))
          case Ok(_, c2) => Run(c2, Done)
  }

  /** What follows the topic reads of a held session: the Complete when
      the reads returned, and the except-block's Cancel (only when the id is
      read by key) when an exception was raised. */
  function Closing(drained: Step<()>, session: Id, access: Access): seq<Event>
  {
    var cancel := if access == ByKey then [SessionCmd(session, CancelName)] else [];
    if drained.Raised? then cancel
    else if FailsNext(drained.conn) then [SessionCmd(session, CompleteName)] + cancel
    else [SessionCmd(session, CompleteName)]
  }

  lemma HoldSessionTrace(c: Conn, session: Id, access: Access)
    ensures var d := DrainTopics(c, session, SyncTopics, SyncPageSize, false);
      && HoldSession(c, session, access).conn.trace == d.conn.trace + Closing(d, session, access)
      && (HoldSession(c, session, access).outcome == Done <==> d.Ok? && !FailsNext(d.conn))
  {
  }

  /** The calls before the inner try-block. */
  lemma SyncPrelude(script: Script, stored: Option<Id>, access: Access)
    ensures var r := Sync(script, stored, access);
      var c1 := Conn(script, [SystemReport, RetrieveFeeds]);
      if script.failAt == Some(0) then r == Run(Conn(script, [SystemReport]), Failed(true))
      else if !IsReady(script.status) then r == Run(Conn(script, [SystemReport]), NotReady)
      else if script.failAt == Some(1) || script.feedCount == 0 then r == Run(c1, Failed(false))
      else r == Subscribe(c1, stored, access)
  {
    var c1 := Conn(script, [SystemReport, RetrieveFeeds]);
    var c0 := Conn(script, []);
    var f := FetchSystemReport(c0);
    if script.failAt == Some(0) {
      assert f.Raised?;
    } else {
      assert f == Ok(script.status, Conn(script, [SystemReport]));
      if IsReady(script.status) {
        var g := RetrieveSyncFeeds(f.conn);
        if script.failAt == Some(1) {
          assert g.Raised?;
        } else {
          assert g == Ok(script.feedCount, c1);
        }
      }
    }
  }

  /** The system report and the feed list both answer, the system is
      ready and a feed exists: the run goes on to the subscription step. */
  predicate SyncSubscribes(script: Script)
  {
    script.failAt != Some(0) && IsReady(script.status) && script.failAt != Some(1) && script.feedCount != 0
  }

  lemma SyncIsSubscribed(script: Script, c1: Conn, stored: Option<Id>, access: Access)
    requires c1 == Conn(script, [SystemReport, RetrieveFeeds]) && SyncSubscribes(script)
    ensures Sync(script, stored, access) == Subscribe(c1, stored, access)
  {
    SyncPrelude(script, stored, access);
  }

  /** Otherwise the run ends within the system report and the feed list. */
  lemma SyncStopsEarly(script: Script, stored: Option<Id>, access: Access)
    requires !SyncSubscribes(script)
    ensures Sync(script, stored, access).conn.trace <= [SystemReport, RetrieveFeeds]
    ensures Sync(script, stored, access).outcome in {Failed(true), Failed(false), NotReady}
  {
    SyncPrelude(script, stored, access);
  }

  /** A status that is not "ready" (in any case) ends the run right after
      the system report: no feed, subscription, session or topic request. */
  lemma NotReadyStopsAfterReport(script: Script, stored: Option<Id>, access: Access)
    ensures Sync(script, stored, access).outcome == NotReady <==> script.failAt != Some(0) && !IsReady(script.status)
    ensures Sync(script, stored, access).outcome == NotReady ==> Sync(script, stored, access).conn.trace == [SystemReport]
  {
    SyncPrelude(script, stored, access);
  }

  /** After the session is opened, every call belongs to a session. */
  lemma OpenSessionCalls(c: Conn, sub: Id, access: Access)
    ensures var t := OpenSession(c, sub, access).conn.trace;
      forall i :: |c.trace| < i < |t| ==> t[i].Fetch? || t[i].Report? || t[i].SessionCmd?
  {
    var t := OpenSession(c, sub, access).conn.trace;
    var s := CreateSessionCall(c, sub, None);
    if s.Ok? && s.value.syncDataAvailable {
      HoldSessionCalls(s.conn, s.value.session, access);
      assert t == HoldSession(s.conn, s.value.session, access).conn.trace;
    } else {
      assert t == s.conn.trace;
    }
  }

  /** The calls the inner try-block makes with a stored id: the session
      is opened with it, and everything after is a call of that session. */
  lemma SubscribeWithStoredId(c: Conn, stored: Option<Id>, access: Access)
    requires IsStored(stored)
    ensures var t := Subscribe(c, stored, access).conn.trace;
      && c.trace <= t
      && forall i :: |c.trace| <= i < |t| ==>
           t[i] == CreateSession(stored.value, None) || t[i].Fetch? || t[i].Report? || t[i].SessionCmd?
  {
    var t := Subscribe(c, stored, access).conn.trace;
    assert EnsureSubscription(c, stored, Nested, SubscriptionKey) == Ok(stored.value, c);
    assert t == OpenSession(c, stored.value, access).conn.trace;
    OpenSessionCalls(c, stored.value, access);
  }

  lemma StoredIdCalls(script: Script, stored: Option<Id>, access: Access)
    requires IsStored(stored)
    ensures var t := Sync(script, stored, access).conn.trace;
      forall i :: 0 <= i < |t| ==>
        !t[i].CreateSubscription? && !t[i].WriteConfig? && (t[i].CreateSession? ==> t[i] == CreateSession(stored.value, None))
  {
    SyncPrelude(script, stored, access);
    var t := Sync(script, stored, access).conn.trace;
    var c1 := Conn(script, [SystemReport, RetrieveFeeds]);
    if script.failAt != Some(0) && IsReady(script.status) && script.failAt != Some(1) && script.feedCount != 0 {
      assert t == Subscribe(c1, stored, access).conn.trace;
      SubscribeWithStoredId(c1, stored, access);
      assert t[0] == SystemReport && t[1] == RetrieveFeeds;
    } else {
      assert t <= [SystemReport, RetrieveFeeds];
    }
  }

  /** With a stored subscription id there is no create call and no config
      write, and every session is opened with the stored id. */
  lemma StoredIdReused(script: Script, stored: Option<Id>, access: Access)
    requires IsStored(stored)
    ensures var t := Sync(script, stored, access).conn.trace;
      && Count(t, IsCreateSubscription) == 0
      && Count(t, IsWriteConfig) == 0
      && forall i :: 0 <= i < |t| && t[i].CreateSession? ==> t[i] == CreateSession(stored.value, None)
  {
    StoredIdCalls(script, stored, access);
    var t := Sync(script, stored, access).conn.trace;
    forall e | e in t
      ensures !e.CreateSubscription? && !e.WriteConfig?
    {
      var i :| 0 <= i < |t| && t[i] == e;
    }
  }

  lemma HoldSessionCalls(c: Conn, session: Id, access: Access)
    ensures var t := HoldSession(c, session, access).conn.trace;
      forall i :: |c.trace| <= i < |t| ==> SessionCall(t[i], session)
  {
    var d := DrainTopics(c, session, SyncTopics, SyncPageSize, false);
    HoldSessionTrace(c, session, access);
    var t := HoldSession(c, session, access).conn.trace;
    assert forall i :: |d.conn.trace| <= i < |t| ==> t[i].SessionCmd? && t[i].sessionId == session;
  }

  /** The calls the inner try-block makes without a stored id: one create
      call first, and a session only after the new id has been written to
      the config file. */
  lemma SubscribeCreatesOnce(c: Conn, stored: Option<Id>, access: Access)
    requires !IsStored(stored)
    ensures var t := Subscribe(c, stored, access).conn.trace;
      && c.trace <= t
      && |t| > |c.trace|
      && t[|c.trace|] == CreateSubscription
      && forall i :: |c.trace| < i < |t| ==> !t[i].CreateSubscription?
  {
    var e := EnsureSubscription(c, stored, Nested, SubscriptionKey);
    if e.Raised? {
      assert Subscribe(c, stored, access).conn.trace == e.conn.trace;
    } else {
      var r := OpenSession(e.conn, e.value, access);
      assert Subscribe(c, stored, access) == r;
      OpenSessionCalls(e.conn, e.value, access);
      CreateWriteThenSession(c.trace, r.conn.trace, e.value);
    }
  }

  /** A create call, the config write of the new id, the session opened
      with it, then only session calls. */
  lemma CreateWriteThenSession(x: seq<Event>, t: seq<Event>, sub: Id)
    requires x + [CreateSubscription, WriteConfig(SubscriptionKey, sub)] <= t
    requires |t| > |x| + 2 && t[|x| + 2] == CreateSession(sub, None)
    requires forall i :: |x| + 2 < i < |t| ==> t[i].Fetch? || t[i].Report? || t[i].SessionCmd?
    ensures x <= t && t[|x|] == CreateSubscription && t[|x| + 1] == WriteConfig(SubscriptionKey, sub)
    ensures forall i :: |x| < i < |t| ==> !t[i].CreateSubscription? && (t[i].CreateSession? ==> i == |x| + 2)
  {
    var y := x + [CreateSubscription, WriteConfig(SubscriptionKey, sub)];
    assert t[|x|] == y[|x|] && t[|x| + 1] == y[|x| + 1];
    assert forall i :: 0 <= i < |x| ==> t[i] == y[i];
  }


  /** Every session opened past `c` is opened right after the config
      write of its id, which the first create answer carried nested. */
  predicate OpensAfterWrite(c: Conn, t: seq<Event>)
  {
    forall i :: |c.trace| <= i < |t| && t[i].CreateSession? ==>
      && i == |c.trace| + 2
      && t[i] == CreateSession(t[i].subscriptionId, None)
      && t[i - 1] == WriteConfig(SubscriptionKey, t[i].subscriptionId)
      && |c.script.subscriptions| > 0
      && NewSubscriptionId(c.script.subscriptions[0], Nested) == Some(t[i].subscriptionId)
  }

  lemma SubscribeOpensAfterWrite(c: Conn, stored: Option<Id>, access: Access)
    requires !IsStored(stored)
    ensures OpensAfterWrite(c, Subscribe(c, stored, access).conn.trace)
  {
    var e := EnsureSubscription(c, stored, Nested, SubscriptionKey);
    if e.Raised? {
      assert Subscribe(c, stored, access).conn.trace == e.conn.trace;
      OpensNothing(c, e.conn.trace);
    } else {
      var r := OpenSession(e.conn, e.value, access);
      assert Subscribe(c, stored, access) == r;
      OpenSessionCalls(e.conn, e.value, access);
      CreateWriteThenSession(c.trace, r.conn.trace, e.value);
      WrittenIdOpens(c, r.conn.trace, e.value);
    }
  }

  lemma OpensNothing(c: Conn, t: seq<Event>)
    requires forall i :: |c.trace| <= i < |t| ==> t[i].CreateSubscription? || t[i].WriteConfig?
    ensures OpensAfterWrite(c, t)
  {
  }

  lemma WrittenIdOpens(c: Conn, t: seq<Event>, sub: Id)
    requires |t| > |c.trace| && t[|c.trace|] == CreateSubscription
    requires |c.script.subscriptions| > 0 && NewSubscriptionId(c.script.subscriptions[0], Nested) == Some(sub)
    requires |t| > |c.trace| + 2 && t[|c.trace| + 1] == WriteConfig(SubscriptionKey, sub) && t[|c.trace| + 2] == CreateSession(sub, None)
    requires forall i :: |c.trace| < i < |t| ==> (t[i].CreateSession? ==> i == |c.trace| + 2)
    ensures OpensAfterWrite(c, t)
  {
    forall i | |c.trace| <= i < |t| && t[i].CreateSession?
      ensures i == |c.trace| + 2 && t[i].subscriptionId == sub
    {
    }
  }



  lemma NewIdCalls(script: Script, stored: Option<Id>, access: Access)
    requires !IsStored(stored)
    ensures var t := Sync(script, stored, access).conn.trace;
      && (forall i :: 0 <= i < |t| && t[i].CreateSubscription? ==> i == 2)
      && forall i :: 0 <= i < |t| && t[i].CreateSession? ==>
           && i == 4
           && t[2] == CreateSubscription
           && t[3] == WriteConfig(SubscriptionKey, t[4].subscriptionId)
           && t[4] == CreateSession(t[4].subscriptionId, None)
           && |script.subscriptions| > 0
           && NewSubscriptionId(script.subscriptions[0], Nested) == Some(t[4].subscriptionId)
  {
    SyncPrelude(script, stored, access);
    var t := Sync(script, stored, access).conn.trace;
    var c1 := Conn(script, [SystemReport, RetrieveFeeds]);
    if script.failAt != Some(0) && IsReady(script.status) && script.failAt != Some(1) && script.feedCount != 0 {
      var r1 := Subscribe(c1, stored, access);
      assert t == r1.conn.trace;
      SubscribeCreatesOnce(c1, stored, access);
      SubscribeOpensAfterWrite(c1, stored, access);
    } else {
      assert t <= [SystemReport, RetrieveFeeds];
    }
  }

  /** Without a stored id, a subscription is created at most once, and a
      session is opened only with the id read from the response's nested
      `subscription.id`, right after that id was written under
      SUBSCRIPTION_ID. */
  lemma NewIdPersistedBeforeSession(script: Script, stored: Option<Id>, access: Access)
    requires !IsStored(stored)
    ensures var t := Sync(script, stored, access).conn.trace;
      && Count(t, IsCreateSubscription) <= 1
      && forall i :: 0 <= i < |t| && t[i].CreateSession? ==>
           && i == 4
           && t[3] == WriteConfig(SubscriptionKey, t[4].subscriptionId)
           && NewSubscriptionId(script.subscriptions[0], Nested) == Some(t[4].subscriptionId)
  {
    NewIdCalls(script, stored, access);
    var t := Sync(script, stored, access).conn.trace;
    if |t| > 2 {
      CountOnlyAt(t, IsCreateSubscription, 2);
    } else {
      assert forall e :: e in t ==> !IsCreateSubscription(e);
    }
  }

  /** The id a run subscribes with: the stored one, or the nested id of the
      first create-subscription answer. */
  function SubscribedId(script: Script, stored: Option<Id>): Option<Id>
  {
    if IsStored(stored) then stored
    else if |script.subscriptions| > 0 then script.subscriptions[0].subscription
    else None
  }

  /** A server that answers everything and has data: ready, at least one
      feed, a subscription id, a session with data, and topics that end. */
  predicate Cooperative(script: Script, stored: Option<Id>)
  {
    && script.failAt.None?
    && IsReady(script.status)
    && script.feedCount > 0
    && SubscribedId(script, stored).Some?
    && |script.sessions| > 0
    && script.sessions[0].syncDataAvailable
    && AllTopicsEnd(script, script.sessions[0].session, SyncTopics)
  }

  /** The calls of a run against a cooperative server. */
  function HappyTrace(script: Script, stored: Option<Id>): seq<Event>
    requires Cooperative(script, stored)
  {
    var id := SubscribedId(script, stored).value;
    var session := script.sessions[0].session;
    [SystemReport, RetrieveFeeds]
    + (if IsStored(stored) then [] else [CreateSubscription, WriteConfig(SubscriptionKey, id)])
    + [CreateSession(id, None)]
    + TopicsPlan(script, session, SyncTopics, SyncPageSize, false)
    + [SessionCmd(session, CompleteName)]
  }

  lemma HappyRun(script: Script, stored: Option<Id>, access: Access)
    requires Cooperative(script, stored)
    ensures Sync(script, stored, access).outcome == Done
    ensures Sync(script, stored, access).conn.trace == HappyTrace(script, stored)
  {
    SyncPrelude(script, stored, access);
    SubscribeHappy(Conn(script, [SystemReport, RetrieveFeeds]), stored, access);
  }

  lemma SubscribeHappy(c: Conn, stored: Option<Id>, access: Access)
    requires c.script.failAt.None? && SubscribedId(c.script, stored).Some?
    requires |c.script.sessions| > 0 && c.script.sessions[0].syncDataAvailable
    requires AllTopicsEnd(c.script, c.script.sessions[0].session, SyncTopics)
    ensures var id := SubscribedId(c.script, stored).value;
      var session := c.script.sessions[0].session;
      var r := Subscribe(c, stored, access);
      && r.outcome == Done
      && r.conn.trace == c.trace
           + (if IsStored(stored) then [] else [CreateSubscription, WriteConfig(SubscriptionKey, id)])
           + [CreateSession(id, None)]
           + TopicsPlan(c.script, session, SyncTopics, SyncPageSize, false)
           + [SessionCmd(session, CompleteName)]
  {
    var id := SubscribedId(c.script, stored).value;
    var session := c.script.sessions[0].session;
    var e := EnsureSubscription(c, stored, Nested, SubscriptionKey);
    if !IsStored(stored) {
      var a := CreateSubscriptionCall(c);
      assert a.Ok?;
    }
    var pre := c.trace + (if IsStored(stored) then [] else [CreateSubscription, WriteConfig(SubscriptionKey, id)]);
    assert e.Ok? && e.value == id && e.conn.trace == pre && e.conn.script.pages == c.script.pages && e.conn.script.sessions == c.script.sessions;
    TopicsPlanReadsPagesOnly(c.script, e.conn.script, session, SyncTopics, SyncPageSize, false);
    OpenSessionHappy(e.conn, id, access);
  }

  lemma OpenSessionHappy(c: Conn, sub: Id, access: Access)
    requires c.script.failAt.None? && |c.script.sessions| > 0 && c.script.sessions[0].syncDataAvailable
    requires AllTopicsEnd(c.script, c.script.sessions[0].session, SyncTopics)
    ensures var session := c.script.sessions[0].session;
      var r := OpenSession(c, sub, access);
      && r.outcome == Done
      && r.conn.trace == c.trace + [CreateSession(sub, None)]
           + TopicsPlan(c.script, session, SyncTopics, SyncPageSize, false) + [SessionCmd(session, CompleteName)]
  {
    var session := c.script.sessions[0].session;
    var s := CreateSessionCall(c, sub, None);
    assert s.Ok? && s.value == c.script.sessions[0];
    var c2 := s.conn;
    TopicsPlanReadsPagesOnly(c.script, c2.script, session, SyncTopics, SyncPageSize, false);
    DrainTopicsFollowsPlan(c2, session, SyncTopics, SyncPageSize, false);
    HoldSessionTrace(c2, session, access);
  }

  lemma HappyTraceCounts(script: Script, stored: Option<Id>)
    requires Cooperative(script, stored)
    ensures Count(HappyTrace(script, stored), IsComplete) == 1
    ensures Count(HappyTrace(script, stored), IsCancel) == 0
  {
    var session := script.sessions[0].session;
    var id := SubscribedId(script, stored).value;
    var plan := TopicsPlan(script, session, SyncTopics, SyncPageSize, false);
    var pre := [SystemReport, RetrieveFeeds]
      + (if IsStored(stored) then [] else [CreateSubscription, WriteConfig(SubscriptionKey, id)])
      + [CreateSession(id, None)];
    assert HappyTrace(script, stored) == (pre + plan) + [SessionCmd(session, CompleteName)];
    assert forall e :: e in plan ==> !e.SessionCmd?;
    NoCommandsThenComplete(pre, plan, session);
  }

  /** Calls without session commands, then one Complete. */
  lemma NoCommandsThenComplete(pre: seq<Event>, plan: seq<Event>, session: Id)
    requires forall i :: 0 <= i < |pre| ==> !pre[i].SessionCmd?
    requires forall e :: e in plan ==> !e.SessionCmd?
    ensures Count((pre + plan) + [SessionCmd(session, CompleteName)], IsComplete) == 1
    ensures Count((pre + plan) + [SessionCmd(session, CompleteName)], IsCancel) == 0
  {
    var body := pre + plan;
    assert forall i :: 0 <= i < |body| ==> !body[i].SessionCmd? by {
      forall i | 0 <= i < |body|
        ensures !body[i].SessionCmd?
      {
        if i >= |pre| {
          assert body[i] == plan[i - |pre|];
        }
      }
    }
    CountNone(body, IsComplete);
    CountNone(body, IsCancel);
    CountConcat(body, [SessionCmd(session, CompleteName)], IsComplete);
    CountConcat(body, [SessionCmd(session, CompleteName)], IsCancel);
    CountSingle(SessionCmd(session, CompleteName), IsComplete);
    CountSingle(SessionCmd(session, CompleteName), IsCancel);
  }


  /** Against a cooperative server the run ends normally after the planned
      reads of all three topics, 50 records at a time and in the listed
      order, completes its one session once and cancels nothing. */
  lemma HappyPath(script: Script, stored: Option<Id>, access: Access)
    requires Cooperative(script, stored)
    ensures var r := Sync(script, stored, access);
      && r.outcome == Done
      && r.conn.trace == HappyTrace(script, stored)
      && Count(r.conn.trace, IsComplete) == 1
      && Count(r.conn.trace, IsCancel) == 0
  {
    HappyRun(script, stored, access);
    HappyTraceCounts(script, stored);
  }

  lemma HoldSessionClosing(c: Conn, session: Id, access: Access)
    ensures var t := HoldSession(c, session, access).conn.trace;
      && (access == ByAttribute ==> forall i :: |c.trace| <= i < |t| ==> !IsCancel(t[i]))
      && (access == ByKey && HoldSession(c, session, access).outcome.Failed? ==>
            |t| > 0 && t[|t| - 1] == SessionCmd(session, CancelName))
  {
    HoldSessionTrace(c, session, access);
    var d := DrainTopics(c, session, SyncTopics, SyncPageSize, false);
    var t := HoldSession(c, session, access).conn.trace;
    var tail := Closing(d, session, access);
    assert t == d.conn.trace + tail;
    if access == ByAttribute {
      forall i | |c.trace| <= i < |t|
        ensures !IsCancel(t[i])
      {
        if i >= |d.conn.trace| {
          assert t[i] == tail[i - |d.conn.trace|];
        }
      }
    }
  }

  /** The inner try-block never cancels when the id is read as an
      attribute. */
  lemma SubscribeNeverCancels(c: Conn, stored: Option<Id>)
    ensures var t := Subscribe(c, stored, ByAttribute).conn.trace;
      forall i :: |c.trace| <= i < |t| ==> !IsCancel(t[i])
  {
    var e := EnsureSubscription(c, stored, Nested, SubscriptionKey);
    if e.Ok? {
      OpenSessionNeverCancels(e.conn, e.value);
    }
  }

  lemma OpenSessionNeverCancels(c: Conn, sub: Id)
    ensures var t := OpenSession(c, sub, ByAttribute).conn.trace;
      forall i :: |c.trace| <= i < |t| ==> !IsCancel(t[i])
  {
    var s := CreateSessionCall(c, sub, None);
    if s.Ok? && s.value.syncDataAvailable {
      HoldSessionClosing(s.conn, s.value.session, ByAttribute);
    }
  }

  /** When the id is read by key, a failure once the topic reads have
      begun (a read at position k) ends with the Cancel of the held
      session. */
  lemma SubscribeCancelsHeld(c: Conn, stored: Option<Id>, k: nat)
    ensures CancelsHeldAfterRead(c, Subscribe(c, stored, ByKey), k)
  {
    var t := Subscribe(c, stored, ByKey).conn.trace;
    var e := EnsureSubscription(c, stored, Nested, SubscriptionKey);
    if e.Ok? {
      var r := OpenSession(e.conn, e.value, ByKey);
      assert Subscribe(c, stored, ByKey) == r;
      OpenSessionCancelsHeld(e.conn, e.value, k);
      assert e.conn.script.sessions == c.script.sessions;
      if |c.trace| <= k < |t| && t[k].Fetch? {
        assert e.conn.trace == c.trace || e.conn.trace == c.trace + [CreateSubscription, WriteConfig(SubscriptionKey, e.value)];
        assert |e.conn.trace| <= k;
      }
    } else {
      assert t == e.conn.trace;
    }
  }

  lemma OpenSessionCancelsHeld(c: Conn, sub: Id, k: nat)
    ensures CancelsHeldAfterRead(c, OpenSession(c, sub, ByKey), k)
  {
    var t := OpenSession(c, sub, ByKey).conn.trace;
    var s := CreateSessionCall(c, sub, None);
    if s.Ok? && s.value.syncDataAvailable {
      HoldSessionClosing(s.conn, s.value.session, ByKey);
    } else {
      assert t == c.trace + [CreateSession(sub, None)];
    }
  }

  /** As written (`sync_session.id` on a dict): the except-block raises
      before its request, so no run ever cancels a session. */
  lemma AsWrittenNeverCancels(script: Script, stored: Option<Id>)
    ensures Count(Sync(script, stored, ByAttribute).conn.trace, IsCancel) == 0
  {
    var t := Sync(script, stored, ByAttribute).conn.trace;
    var c1 := Conn(script, [SystemReport, RetrieveFeeds]);
    if SyncSubscribes(script) {
      SyncIsSubscribed(script, c1, stored, ByAttribute);
      SubscribeNeverCancels(c1, stored);
      forall e | e in t
        ensures !IsCancel(e)
      {
        var i :| 0 <= i < |t| && t[i] == e;
      }
    } else {
      SyncStopsEarly(script, stored, ByAttribute);
    }
  }

  /** Corrected (`sync_session['id']`): a run that fails after a topic
      read (at position k) has been sent ends with the Cancel of its
      session. */
  lemma CorrectedCancelsHeldSession(script: Script, stored: Option<Id>, k: nat)
    ensures CancelsHeldAfterRead(Conn(script, []), Sync(script, stored, ByKey), k)
  {
    var t := Sync(script, stored, ByKey).conn.trace;
    var c1 := Conn(script, [SystemReport, RetrieveFeeds]);
    if SyncSubscribes(script) {
      SyncIsSubscribed(script, c1, stored, ByKey);
      SubscribeCancelsHeld(c1, stored, k);
      if k < |t| && t[k].Fetch? {
        assert t[0] == SystemReport && t[1] == RetrieveFeeds;
      }
    } else {
      SyncStopsEarly(script, stored, ByKey);
    }
  }

  /** The session answer decides NoData, and nothing follows its request. */
  lemma OpenSessionNoData(c: Conn, sub: Id, access: Access)
    ensures var r := OpenSession(c, sub, access);
      r.outcome == NoData ==>
        && |c.script.sessions| > 0 && !c.script.sessions[0].syncDataAvailable
        && r.conn.trace == c.trace + [CreateSession(sub, None)]
  {
  }

  /** NoData after the subscription step: its calls are subscription
      calls, then the session request. */
  lemma SubscribeNoData(c: Conn, stored: Option<Id>, access: Access)
    ensures EndsWithoutData(c, Subscribe(c, stored, access))
  {
    var r := Subscribe(c, stored, access);
    if r.outcome == NoData {
      var e := EnsureSubscription(c, stored, Nested, SubscriptionKey);
      assert e.Ok?;
      OpenSessionNoData(e.conn, e.value, access);
      assert e.conn.script.sessions == c.script.sessions;
      assert r.conn.trace == e.conn.trace + [CreateSession(e.value, None)];
    }
  }

  lemma SyncNoData(script: Script, stored: Option<Id>, access: Access)
    ensures EndsWithoutData(Conn(script, []), Sync(script, stored, access))
  {
    var r := Sync(script, stored, access);
    var c1 := Conn(script, [SystemReport, RetrieveFeeds]);
    if SyncSubscribes(script) {
      SyncIsSubscribed(script, c1, stored, access);
      SubscribeNoData(c1, stored, access);
      EndsWithoutDataFromEarlier(Conn(script, []), c1, r);
    } else {
      SyncStopsEarly(script, stored, access);
    }
  }

  /** A session answer without data ends the run right after the session
      is opened: no topic is read and no command is sent. */
  lemma NoDataMeansNoTopicReads(script: Script, stored: Option<Id>, access: Access)
    ensures var t := Sync(script, stored, access).conn.trace;
      Sync(script, stored, access).outcome == NoData ==>
        && |script.sessions| > 0 && !script.sessions[0].syncDataAvailable
        && t[|t| - 1].CreateSession?
        && Count(t, IsFetch) == 0
        && Count(t, IsSessionCmd) == 0
  {
    SyncNoData(script, stored, access);
    var t := Sync(script, stored, access).conn.trace;
    if Sync(script, stored, access).outcome == NoData {
      CountNone(t, IsFetch);
      CountNone(t, IsSessionCmd);
    }
  }

  /** `--sync-topic` against a server that answers: the first page is read
      twice at offset 0, then the topic's k pages at offsets 0, 1000, ...,
      (k-1)*1000. */
  lemma SyncTopicReadsFirstPageTwice(script: Script, session: Id, topic: Topic, k: nat)
    requires script.failAt.None? && IsReady(script.status)
    requires LastPageAt(PagesOf(script, session, topic), k)
    ensures SyncTopic(script, session, topic).outcome == Done
    ensures SyncTopic(script, session, topic).conn.trace
      == [SystemReport, Fetch(session, topic, 0, TopicPageSize)] + seq(k, j => Fetch(session, topic, j * TopicPageSize, TopicPageSize))
  {
    var c1 := Conn(script, [SystemReport, Fetch(session, topic, 0, TopicPageSize)]);
    var c := Conn(script, [SystemReport]);
    assert FetchSystemReport(Conn(script, [])) == Ok(script.status, c);
    assert FetchPage(c, session, topic, 0, 0, TopicPageSize).conn == c1;
    FetchesOfTopic(PagesOf(script, session, topic), session, topic, TopicPageSize, k);
    DrainFollowsPlan(c1, session, topic, TopicPageSize, false, 0);
    assert 0 * TopicPageSize == 0;
    var plan := Plan(PagesOf(script, session, topic), session, topic, TopicPageSize, false, 0);
    assert Drain(c1, session, topic, TopicPageSize, false, 0, 0) == Ok((), c1.(trace := c1.trace + plan));
    assert SyncTopic(script, session, topic) == Run(c1.(trace := c1.trace + plan), Done);
  }

  /** A run against a server whose first topic read fails: ready, one feed,
      a stored subscription, a session with data. */
  const FirstReadFails: Script := Script("READY", 1, [], [SessionResponse(true, "s")],
    [], map[("s", "filing-activities") := []], Some(3))

  /** When the first topic read of a held session raises, nothing else is
      read or completed; only the except-block may add the Cancel. */
  lemma HoldSessionFirstReadRaises(c: Conn, session: Id, access: Access)
    requires FailsNext(c)
    ensures var r := HoldSession(c, session, access);
      && r.outcome == Failed(false)
      && r.conn.trace == c.trace + [Fetch(session, SyncTopics[0], 0, SyncPageSize)]
           + (if access == ByKey then [SessionCmd(session, CancelName)] else [])
  {
    var f := FetchPage(c, session, SyncTopics[0], 0, 0, SyncPageSize);
    assert f.Raised?;
    assert Drain(c, session, SyncTopics[0], SyncPageSize, false, 0, 0) == Raised(f.conn);
    assert DrainTopics(c, session, SyncTopics, SyncPageSize, false) == Raised(f.conn);
    HoldSessionTrace(c, session, access);
  }

  /** With a stored id and a session answer that has data, a run that
      does not fail before the session request reaches the held session. */
  lemma StoredIdHoldsSession(script: Script, sub: Id, access: Access)
    requires ClearBetween(script, 0, 3) && IsReady(script.status) && script.feedCount != 0
    requires sub != "" && |script.sessions| > 0 && script.sessions[0].syncDataAvailable
    ensures Sync(script, Some(sub), access)
      == HoldSession(Conn(script.(sessions := script.sessions[1..]), [SystemReport, RetrieveFeeds, CreateSession(sub, None)]),
                     script.sessions[0].session, access)
  {
    SyncPrelude(script, Some(sub), access);
    var c1 := Conn(script, [SystemReport, RetrieveFeeds]);
    var c2 := Conn(script.(sessions := script.sessions[1..]), [SystemReport, RetrieveFeeds, CreateSession(sub, None)]);
    assert Sync(script, Some(sub), access) == Subscribe(c1, Some(sub), access);
    assert EnsureSubscription(c1, Some(sub), Nested, SubscriptionKey) == Ok(sub, c1);
    assert CreateSessionCall(c1, sub, None) == Ok(script.sessions[0], c2);
  }

  /** A run whose first topic read raises: the except-block adds the
      session's Cancel only when it reads the id by key. */
  lemma FirstReadRaisesRun(script: Script, sub: Id, access: Access)
    requires script.failAt == Some(3) && IsReady(script.status) && script.feedCount != 0
    requires sub != "" && |script.sessions| > 0 && script.sessions[0].syncDataAvailable
    ensures var r := Sync(script, Some(sub), access);
      var s := script.sessions[0].session;
      && r.outcome == Failed(false)
      && r.conn.trace == [SystemReport, RetrieveFeeds, CreateSession(sub, None), Fetch(s, SyncTopics[0], 0, SyncPageSize)]
           + (if access == ByKey then [SessionCmd(s, CancelName)] else [])
  {
    StoredIdHoldsSession(script, sub, access);
    var c2 := Conn(script.(sessions := script.sessions[1..]), [SystemReport, RetrieveFeeds, CreateSession(sub, None)]);
    HoldSessionFirstReadRaises(c2, script.sessions[0].session, access);
  }

  /** As written, the failed read leaves the session open: it is neither
      completed nor cancelled. */
  lemma AsWrittenLeavesSessionOpen(script: Script)
    requires script == FirstReadFails
    ensures var r := Sync(script, Some("sub"), ByAttribute);
      && r.outcome == Failed(false)
      && r.conn.trace == [SystemReport, RetrieveFeeds, CreateSession("sub", None), Fetch("s", "filing-activities", 0, SyncPageSize)]
  {
    ReadySpellings();
    FirstReadRaisesRun(script, "sub", ByAttribute);
  }

  /** Corrected, the same failure is followed by the session's Cancel. */
  lemma CorrectedCancelsOpenSession(script: Script)
    requires script == FirstReadFails
    ensures var r := Sync(script, Some("sub"), ByKey);
      && r.outcome == Failed(false)
      && r.conn.trace == [SystemReport, RetrieveFeeds, CreateSession("sub", None), Fetch("s", "filing-activities", 0, SyncPageSize), SessionCmd("s", "Cancel")]
  {
    ReadySpellings();
    FirstReadRaisesRun(script, "sub", ByKey);
    assert CancelName == "Cancel";
  }
}
