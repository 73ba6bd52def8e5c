/** The CAL-transactions example: after the readiness check and the
    subscription step, a first peek gates the whole run; then, while a peek
    reports data, each round opens one session per topic (with a sequence
    range limit of 10000), drains the topic 1000 records at a time logging
    each page's range, and completes the session of the round's last topic.
    `sync_session` keeps the most recently opened session for the rest of
    the run, so the except-block cancels that one even when it was already
    completed. */
module PeekGated {

  import opened Protocol
  import opened Oracle
  import opened Status
  import opened Paginator
  import opened Lifecycle

  const ExampleTopics: seq<Topic> := ["element-activities"]
  const RangeLimit: int := 10000
  const PageSize: int := 1000
  const SubscriptionKey: string := "CAL_SUBSCRIPTION_ID"

  /** State of a loop when it stops: `last` is `sync_session`, the most
      recently opened session (None before the first). */
  datatype Loop = Finished(conn: Conn, last: Option<Id>) | Broke(conn: Conn, last: Option<Id>)

  /** Sessions consumed between two connections. */
  function Opened(before: Conn, after: Conn): int
  {
    |before.script.sessions| - |after.script.sessions|
  }

  /** What a loop keeps: calls are only appended, the session queue is
      consumed from its front, and `last` is the most recently consumed
      session, if any. */
  predicate Keeps(c: Conn, last: Option<Id>, r: Loop)
  {
    && c.trace <= r.conn.trace
    && r.conn.script.failAt == c.script.failAt
    && r.conn.script.pages == c.script.pages
    && 0 <= Opened(c, r.conn) <= |c.script.sessions|
    && r.conn.script.sessions == c.script.sessions[Opened(c, r.conn)..]
    && r.last == (if Opened(c, r.conn) > 0 then Some(c.script.sessions[Opened(c, r.conn) - 1].session) else last)
  }

  /** Failure discipline of a loop: calls are only appended, and once the
      call at the failure point has raised the loop breaks right there. */
  predicate LoopStops(c: Conn, r: Loop)
  {
    && c.trace <= r.conn.trace
    && r.conn.script.failAt == c.script.failAt
    && (c.script.failAt.Some? && |c.trace| <= c.script.failAt.value < |r.conn.trace| ==>
          r.Broke? && |r.conn.trace| == c.script.failAt.value + 1)
  }

  /** One round's topics: a session per topic, then that topic's pages. */
  function RoundTopics(c: Conn, sub: Id, topics: seq<Topic>, last: Option<Id>): (r: Loop)
    ensures r.conn.script.peeks == c.script.peeks
    ensures LoopStops(c, r)
    decreases |topics|
  {
    if |topics| == 0 then Finished(c, last)
    else
      match CreateSessionCall(c, sub, Some(RangeLimit))
      case Raised(c1) => Broke(c1, last)
      case Ok(resp, c1) =>
        match Drain(c1, resp.session, topics[0], PageSize, true, 0, 0)
        case Raised(c2) => Broke(c2, Some(resp.session))
        case Ok(_, c2) =>
          RoundTopics(c2, sub, topics[1..], Some(resp.session))
  }

  /** One round: the topics, then Complete for the session in
      `session_id` — the last one opened. Without one (no topic in any round
      so far) the name is unbound and the round raises. */
  function Round(c: Conn, sub: Id, topics: seq<Topic>, last: Option<Id>): (r: Loop)
    ensures r.conn.script.peeks == c.script.peeks
    ensures LoopStops(c, r)
  {
    match RoundTopics(c, sub, topics, last)
    case Broke(c1, l1) => Broke(c1, l1)
    case Finished(c1, l1) =>
      match l1
      case None => Broke(c1, l1)
      case Some(s) =>
        match Call(c1, SessionCmd(s, CompleteName))
        case Raised(c2) => Broke(c2, l1)
        case Ok(_, c2) => Finished(c2, l1)
  }

  /** `while peek(sub)['dataAvailable']`: one round per peek that reports
      data; a peek without data ends the loop. */
  function Rounds(c: Conn, sub: Id, topics: seq<Topic>, last: Option<Id>): (r: Loop)
    ensures LoopStops(c, r)
    ensures |r.conn.trace| > |c.trace| && r.conn.trace[|c.trace|] == Peek(sub)
    decreases |c.script.peeks|
  {
    match PeekCall(c, sub)
    case Raised(c1) => Broke(c1, last)
    case Ok(more, c1) =>
      if !more then Finished(c1, last)
      else
        match Round(c1, sub, topics, last)
        case Broke(c2, l2) => Broke(c2, l2)
        case Finished(c2, l2) => Rounds(c2, sub, topics, l2)
  }

  /** The except-block: log, then cancel `sync_session` when one was
      opened; an exception there escapes. */
  function Handle(c: Conn, last: Option<Id>): (r: Run)
    ensures r.outcome.Failed?
    ensures last.None? ==> r == Run(c, Failed(false))
    ensures last.Some? ==> r.conn.trace == c.trace + [SessionCmd(last.value, CancelName)]
    ensures r.conn.script == c.script
  {
    match CancelOnError(c, last, ByKey)
    case Raised(c1) => Run(c1, Failed(true))
    case Ok(_, c1) => Run(c1, Failed(false))
  }

  /** From the first peek on: a first peek without data ends the run;
      otherwise the peek loop runs, and if it breaks the except-block
      handles the exception. */
  function Gated(c: Conn, sub: Id): (r: Run)
    ensures StopsAtFailure(c, r)
  {
    match PeekCall(c, sub)
    case Raised(c1) => Run(c1, Failed(false))
    case Ok(more, c1) =>
      if !more then Run(c1, NoData)
      else
        match Rounds(c1, sub, ExampleTopics, None)
        case Broke(c2, last) => Handle(c2, last)
        case Finished(c2, _) => Run(c2, Done)
  }

  /** After the readiness check: reuse or create the subscription, whose
      new id is read from the top-level `id` of the response. */
  function Subscribed(c: Conn, stored: Option<Id>): (r: Run)
    ensures StopsAtFailure(c, r)
  {
    match EnsureSubscription(c, stored, TopLevel, SubscriptionKey)
    case Raised(c1) => Run(c1, Failed(false))
    case Ok(sub, c1) => Gated(c1, sub)
  }

  /** The example's main(). */
  function Example(script: Script, stored: Option<Id>): (r: Run)
    ensures StopsAtFailure(Conn(script, []), r)
    ensures |r.conn.trace| >= 1 && r.conn.trace[0] == SystemReport
  {
    var c := Conn(script, []);
    match FetchSystemReport(c)
    case Raised(c0) => Run(c0, Failed(false))
    case Ok(status, c0) =>
      if !IsReady(status) then Run(c0, NotReady)
      else Subscribed(c0, stored)
  }

  lemma {:induction false} RoundTopicsKeeps(c: Conn, sub: Id, topics: seq<Topic>, last: Option<Id>)
    ensures Keeps(c, last, RoundTopics(c, sub, topics, last))
    decreases |topics|
  {
    if |topics| > 0 {
      var s := CreateSessionCall(c, sub, Some(RangeLimit));
      if s.Ok? {
        var d := Drain(s.conn, s.value.session, topics[0], PageSize, true, 0, 0);
        if d.Ok? {
          var r := RoundTopics(d.conn, sub, topics[1..], Some(s.value.session));
          RoundTopicsKeeps(d.conn, sub, topics[1..], Some(s.value.session));
          assert RoundTopics(c, sub, topics, last) == r;
          assert c.script.sessions[1..][Opened(d.conn, r.conn)..] == c.script.sessions[Opened(c, r.conn)..];
        }
      }
    }
  }

  lemma KeepsCompose(c: Conn, last: Option<Id>, mid: Loop, r: Loop)
    requires Keeps(c, last, mid) && Keeps(mid.conn, mid.last, r)
    ensures Keeps(c, last, r)
  {
    assert c.script.sessions[Opened(c, mid.conn)..][Opened(mid.conn, r.conn)..] == c.script.sessions[Opened(c, r.conn)..];
    if Opened(mid.conn, r.conn) > 0 {
      assert c.script.sessions[Opened(c, mid.conn)..][Opened(mid.conn, r.conn) - 1] == c.script.sessions[Opened(c, r.conn) - 1];
    }
  }

  lemma RoundKeeps(c: Conn, sub: Id, topics: seq<Topic>, last: Option<Id>)
    ensures Keeps(c, last, Round(c, sub, topics, last))
  {
    RoundTopicsKeeps(c, sub, topics, last);
  }

  /** The rounds consume the session queue from its front, and `last` is
      always the most recently opened session. */
  lemma {:induction false} RoundsKeeps(c: Conn, sub: Id, topics: seq<Topic>, last: Option<Id>)
    ensures Keeps(c, last, Rounds(c, sub, topics, last))
    decreases |c.script.peeks|
  {
    var p := PeekCall(c, sub);
    var out := Rounds(c, sub, topics, last);
    PeekKeeps(c, sub, last);
    if p.Ok? && p.value {
      var r := Round(p.conn, sub, topics, last);
      RoundKeeps(p.conn, sub, topics, last);
      KeepsCompose(c, last, Finished(p.conn, last), r);
      if r.Finished? {
        var rest := Rounds(r.conn, sub, topics, r.last);
        RoundsKeeps(r.conn, sub, topics, r.last);
        KeepsCompose(c, last, r, rest);
        assert out == rest;
      } else {
        assert out == r;
      }
    } else if p.Ok? {
      assert out == Finished(p.conn, last);
    } else {
      assert out == Broke(p.conn, last);
    }
  }

  /** A peek consumes no session. */
  lemma PeekKeeps(c: Conn, sub: Id, last: Option<Id>)
    ensures Keeps(c, last, Finished(PeekCall(c, sub).conn, last))
    ensures Keeps(c, last, Broke(PeekCall(c, sub).conn, last))
  {
  }

  /** A call a round's topic loop makes: a session with the range limit,
      a page read of one of the topics, or the range line of a page. */
  predicate TopicCall(e: Event, sub: Id, topics: seq<Topic>)
  {
    || e == CreateSession(sub, Some(RangeLimit))
    || (e.Fetch? && e.topic in topics && e.limit == PageSize)
    || e.Report?
  }

  /** A call the peek loop makes: a peek, a topic call, or a Complete. */
  predicate LoopCall(e: Event, sub: Id, topics: seq<Topic>)
  {
    e == Peek(sub) || IsComplete(e) || TopicCall(e, sub, topics)
  }

  lemma {:induction false} RoundTopicsCalls(c: Conn, sub: Id, topics: seq<Topic>, last: Option<Id>, all: seq<Topic>)
    requires forall k :: 0 <= k < |topics| ==> topics[k] in all
    ensures var t := RoundTopics(c, sub, topics, last).conn.trace;
      forall i :: |c.trace| <= i < |t| ==> TopicCall(t[i], sub, all)
    decreases |topics|
  {
    if |topics| > 0 {
      var s := CreateSessionCall(c, sub, Some(RangeLimit));
      if s.Ok? {
        var d := Drain(s.conn, s.value.session, topics[0], PageSize, true, 0, 0);
        var t := RoundTopics(c, sub, topics, last).conn.trace;
        if d.Ok? {
          RoundTopicsCalls(d.conn, sub, topics[1..], Some(s.value.session), all);
          assert t == RoundTopics(d.conn, sub, topics[1..], Some(s.value.session)).conn.trace;
        }
        forall i | |c.trace| <= i < |t|
          ensures TopicCall(t[i], sub, all)
        {
          if i < |d.conn.trace| {
            assert t[i] == d.conn.trace[i];
            if i > |c.trace| {
              assert ReadIn(d.conn.trace[i], s.value.session, [topics[0]], PageSize);
            }
          }
        }
      }
    }
  }

  lemma RoundCalls(c: Conn, sub: Id, topics: seq<Topic>, last: Option<Id>)
    ensures var r := Round(c, sub, topics, last);
      && (forall i :: |c.trace| <= i < |r.conn.trace| ==> LoopCall(r.conn.trace[i], sub, topics))
      && (r.Finished? ==>
            var m := RoundTopics(c, sub, topics, last).conn.trace;
            && r.last.Some?
            && r.conn.trace == m + [SessionCmd(r.last.value, CompleteName)]
            && forall i :: |c.trace| <= i < |m| ==> TopicCall(m[i], sub, topics))
  {
    RoundTopicsCalls(c, sub, topics, last, topics);
    assert CompleteName == "Complete";
    var r := Round(c, sub, topics, last);
    var rt := RoundTopics(c, sub, topics, last);
    var m := rt.conn.trace;
    if rt.Finished? && rt.last.Some? {
      assert r.conn.trace == m + [SessionCmd(rt.last.value, CompleteName)];
    } else {
      assert r.conn.trace == m;
    }
    forall i | |c.trace| <= i < |r.conn.trace|
      ensures LoopCall(r.conn.trace[i], sub, topics)
    {
      if i < |m| {
        assert TopicCall(RoundTopics(c, sub, topics, last).conn.trace[i], sub, topics);
        assert r.conn.trace[i] == m[i];
      } else {
        assert IsComplete(r.conn.trace[i]);
      }
    }
  }

  lemma {:induction false} RoundsCalls(c: Conn, sub: Id, topics: seq<Topic>, last: Option<Id>)
    ensures var t := Rounds(c, sub, topics, last).conn.trace;
      forall i :: |c.trace| <= i < |t| ==> LoopCall(t[i], sub, topics)
    decreases |c.script.peeks|
  {
    var p := PeekCall(c, sub);
    if p.Ok? && p.value {
      var r := Round(p.conn, sub, topics, last);
      RoundCalls(p.conn, sub, topics, last);
      var t := Rounds(c, sub, topics, last).conn.trace;
      if r.Finished? {
        RoundsCalls(r.conn, sub, topics, r.last);
        assert t == Rounds(r.conn, sub, topics, r.last).conn.trace;
      } else {
        assert t == r.conn.trace;
      }
      forall i | |c.trace| <= i < |t|
        ensures LoopCall(t[i], sub, topics)
      {
        if i == |c.trace| {
          assert t[i] == p.conn.trace[i] == Peek(sub);
        } else if i < |r.conn.trace| {
          assert LoopCall(Round(p.conn, sub, topics, last).conn.trace[i], sub, topics);
          assert t[i] == r.conn.trace[i];
        } else {
          assert LoopCall(Rounds(r.conn, sub, topics, r.last).conn.trace[i], sub, topics);
        }
      }
    }
  }

  /** Calls of a loop past connection `c`. */
  function Since(c: Conn, r: Loop): seq<Event>
    requires c.trace <= r.conn.trace
  {
    r.conn.trace[|c.trace|..]
  }

  lemma NoneFrom(t: seq<Event>, from: nat, p: Event -> bool)
    requires from <= |t|
    requires forall i :: from <= i < |t| ==> !p(t[i])
    ensures Count(t[from..], p) == 0
  {
    forall e | e in t[from..]
      ensures !p(e)
    {
      var j :| 0 <= j < |t[from..]| && t[from..][j] == e;
      assert t[from + j] == e;
    }
  }

  /** Topic calls followed by one Complete. */
  lemma CountTopicsThenComplete(m: seq<Event>, from: nat, e: Event, sub: Id, topics: seq<Topic>)
    requires from <= |m|
    requires forall i :: from <= i < |m| ==> TopicCall(m[i], sub, topics)
    requires IsComplete(e)
    ensures Count((m + [e])[from..], IsComplete) == 1
    ensures Count((m + [e])[from..], IsPeek) == 0
  {
    assert (m + [e])[from..] == m[from..] + [e];
    NoneFrom(m, from, IsComplete);
    NoneFrom(m, from, IsPeek);
    CountConcat(m[from..], [e], IsComplete);
    CountConcat(m[from..], [e], IsPeek);
    CountSingle(e, IsComplete);
    CountSingle(e, IsPeek);
  }

  /** A round that finishes completes exactly one session and peeks none. */
  lemma RoundCounts(c: Conn, sub: Id, topics: seq<Topic>, last: Option<Id>)
    ensures var r := Round(c, sub, topics, last);
      r.Finished? ==> Count(Since(c, r), IsComplete) == 1 && Count(Since(c, r), IsPeek) == 0
  {
    var r := Round(c, sub, topics, last);
    RoundCalls(c, sub, topics, last);
    if r.Finished? {
      var m := RoundTopics(c, sub, topics, last).conn.trace;
      assert CompleteName == "Complete";
      CountTopicsThenComplete(m, |c.trace|, SessionCmd(r.last.value, CompleteName), sub, topics);
    }
  }

  /** The count balance of one peek followed by a round and further rounds. */
  lemma CountPeekRoundRest(a: seq<Event>, b: seq<Event>, sub: Id)
    requires Count(a, IsComplete) == 1 && Count(a, IsPeek) == 0
    requires Count(b, IsPeek) == Count(b, IsComplete) + 1
    ensures Count([Peek(sub)] + (a + b), IsPeek) == Count([Peek(sub)] + (a + b), IsComplete) + 1
  {
    CountSingle(Peek(sub), IsPeek);
    CountSingle(Peek(sub), IsComplete);
    CountConcat([Peek(sub)], a + b, IsPeek);
    CountConcat([Peek(sub)], a + b, IsComplete);
    CountConcat(a, b, IsPeek);
    CountConcat(a, b, IsComplete);
  }

  lemma PrefixSplit(x: seq<Event>, y: seq<Event>)
    requires x <= y
    ensures y == x + y[|x|..]
  {
  }

  lemma SinceOfThree(x: seq<Event>, y: seq<Event>, a: seq<Event>, b: seq<Event>, t: seq<Event>)
    requires t == x + y + a + b
    ensures t[|x|..] == y + (a + b)
  {
    assert t == x + (y + (a + b));
  }

  /** A peek loop that ends normally has made one more peek than it
      completed sessions: the peek that reported no data. */
  lemma {:induction false} RoundsCounts(c: Conn, sub: Id, topics: seq<Topic>, last: Option<Id>)
    ensures var r := Rounds(c, sub, topics, last);
      r.Finished? ==> Count(Since(c, r), IsPeek) == Count(Since(c, r), IsComplete) + 1
    decreases |c.script.peeks|
  {
    var r := Rounds(c, sub, topics, last);
    var p := PeekCall(c, sub);
    if r.Finished? && p.Ok? {
      var t := r.conn.trace;
      if !p.value {
        assert Since(c, r) == [Peek(sub)];
        CountSingle(Peek(sub), IsPeek);
        CountSingle(Peek(sub), IsComplete);
      } else {
        var m := Round(p.conn, sub, topics, last);
        RoundCounts(p.conn, sub, topics, last);
        RoundsCounts(m.conn, sub, topics, m.last);
        assert r == Rounds(m.conn, sub, topics, m.last);
        var a := Since(p.conn, m);
        var b := Since(m.conn, r);
        assert p.conn.trace == c.trace + [Peek(sub)];
        PrefixSplit(p.conn.trace, m.conn.trace);
        PrefixSplit(m.conn.trace, t);
        SinceOfThree(c.trace, [Peek(sub)], a, b, t);
        CountPeekRoundRest(a, b, sub);
      }
    }
  }

  /** The first peek gates the run: no data on it ends the run right
      there; data on it leads straight to the loop's own peek. */
  lemma GatedFirstPeek(c: Conn, sub: Id)
    ensures var r := Gated(c, sub);
      && |r.conn.trace| > |c.trace| && r.conn.trace[|c.trace|] == Peek(sub)
      && (r.outcome == NoData <==> !FailsNext(c) && |c.script.peeks| > 0 && !c.script.peeks[0])
      && (r.outcome == NoData ==> r.conn.trace == c.trace + [Peek(sub)])
      && (!FailsNext(c) && |c.script.peeks| > 0 && c.script.peeks[0] ==>
            |r.conn.trace| > |c.trace| + 1 && r.conn.trace[|c.trace| + 1] == Peek(sub))
  {
    var p := PeekCall(c, sub);
    if p.Ok? && p.value {
      var q := Rounds(p.conn, sub, ExampleTopics, None);
      assert PeekCall(p.conn, sub).conn.trace == p.conn.trace + [Peek(sub)];
      assert p.conn.trace + [Peek(sub)] <= q.conn.trace;
    }
  }

  /** Every call from the first peek on is a peek with the subscription
      id, a session opened with that id and the range limit, a page read
      of size 1000 of the example's topics, a range line or a Complete —
      except that the last call may be the except-block's Cancel. */
  lemma GatedCalls(c: Conn, sub: Id)
    ensures var r := Gated(c, sub);
      var t := r.conn.trace;
      && |t| > |c.trace|
      && (forall i :: |c.trace| <= i < |t| - 1 ==> LoopCall(t[i], sub, ExampleTopics))
      && (LoopCall(t[|t| - 1], sub, ExampleTopics) || (r.outcome.Failed? && IsCancel(t[|t| - 1])))
  {
    GatedFirstPeek(c, sub);
    var r := Gated(c, sub);
    var t := r.conn.trace;
    var p := PeekCall(c, sub);
    if p.Ok? && p.value {
      var q := Rounds(p.conn, sub, ExampleTopics, None);
      RoundsCalls(p.conn, sub, ExampleTopics, None);
      var u := q.conn.trace;
      assert u[|c.trace|] == Peek(sub);
      if q.Broke? {
        assert r == Handle(q.conn, q.last);
        if q.last.Some? {
          assert CancelName == "Cancel";
          assert t == u + [SessionCmd(q.last.value, CancelName)];
        } else {
          assert t == u;
        }
      } else {
        assert t == u;
      }
      assert |p.conn.trace| == |c.trace| + 1;
      forall i | |c.trace| <= i < |u|
        ensures LoopCall(u[i], sub, ExampleTopics)
      {
        if i == |c.trace| {
          assert u[i] == Peek(sub);
        } else {
          assert |p.conn.trace| <= i < |u|;
          assert LoopCall(Rounds(p.conn, sub, ExampleTopics, None).conn.trace[i], sub, ExampleTopics);
        }
      }
      forall i | |c.trace| <= i < |t| - 1
        ensures LoopCall(t[i], sub, ExampleTopics)
      {
        assert t[i] == u[i];
      }
    }
  }

  /** The except-block cancels `sync_session`, which is always the most
      recently opened session — also when that session was already
      completed by an earlier round. A failure before any session was
      opened cancels nothing. The exception escapes only when the cancel
      itself raises. */
  lemma GatedCancelsMostRecent(c: Conn, sub: Id)
    ensures CancelsMostRecent(c, Gated(c, sub))
  {
    var r := Gated(c, sub);
    var p := PeekCall(c, sub);
    if p.Ok? && p.value {
      var q := Rounds(p.conn, sub, ExampleTopics, None);
      RoundsKeeps(p.conn, sub, ExampleTopics, None);
      if q.Broke? {
        assert r == Handle(q.conn, q.last);
        if q.last.None? {
          RoundsCalls(p.conn, sub, ExampleTopics, None);
          var k := |q.conn.trace| - 1;
          assert LoopCall(Rounds(p.conn, sub, ExampleTopics, None).conn.trace[k], sub, ExampleTopics);
        }
        HandleAfterLoop(c, p.conn, q);
      } else {
        assert r == Run(q.conn, Done);
        assert CancelsMostRecent(c, r);
      }
    } else if p.Ok? {
      assert r == Run(p.conn, NoData);
      assert CancelsMostRecent(c, r);
    } else {
      assert r == Run(p.conn, Failed(false));
      assert CancelsMostRecent(c, r);
    }
  }


  /** Seen from `c`, a failed run ends with the Cancel of the most recently
      opened session, and with no Cancel when none was opened; the
      exception escapes only when that Cancel is the failing call. */
  predicate CancelsMostRecent(c: Conn, r: Run)
  {
    var t := r.conn.trace;
    var n := Opened(c, r.conn);
    && 0 <= n <= |c.script.sessions|
    && |t| > |c.trace|
    && (r.outcome.Failed? && n > 0 ==> t[|t| - 1] == SessionCmd(c.script.sessions[n - 1].session, CancelName))
    && (r.outcome.Failed? && n == 0 ==> !IsCancel(t[|t| - 1]))
    && (r.outcome == Failed(true) ==> n > 0 && c.script.failAt == Some(|t| - 1))
  }

  /** The except-block after a broken loop that started at `p`, as seen
      from `c`: it cancels the most recently opened session, if any. */
  lemma HandleAfterLoop(c: Conn, p: Conn, q: Loop)
    requires p.script.sessions == c.script.sessions && p.script.failAt == c.script.failAt
    requires |c.trace| < |p.trace| && c.trace <= p.trace
    requires q.Broke? && Keeps(p, None, q) && |q.conn.trace| > |p.trace|
    requires q.last.None? ==> !IsCancel(q.conn.trace[|q.conn.trace| - 1])
    ensures CancelsMostRecent(c, Handle(q.conn, q.last))
  {
    var r := Handle(q.conn, q.last);
    assert Opened(c, r.conn) == Opened(p, q.conn);
    if q.last.Some? {
      var cancel := CancelOnError(q.conn, q.last, ByKey);
      assert r.outcome == Failed(true) ==> cancel.Raised?;
    }
  }

  /** A run of the loop that ends normally peeks twice more than it
      completes sessions: the gate's peek and the loop's final peek. */
  lemma GatedBalance(c: Conn, sub: Id)
    ensures var r := Gated(c, sub);
      r.outcome == Done ==>
        && Count(r.conn.trace[|c.trace|..], IsPeek) == Count(r.conn.trace[|c.trace|..], IsComplete) + 2
        && Count(r.conn.trace[|c.trace|..], IsCancel) == 0
  {
    var r := Gated(c, sub);
    if r.outcome == Done {
      GatedDoneCancelsNothing(c, sub);
      var p := PeekCall(c, sub);
      GatedDone(c, sub);
      var q := Rounds(p.conn, sub, ExampleTopics, None);
      RoundsCounts(p.conn, sub, ExampleTopics, None);
      PeekThenRest(c, p.conn, q, sub);
    }
  }

  /** A run that ends normally passed the gate and finished the loop. */
  lemma GatedDone(c: Conn, sub: Id)
    ensures var r := Gated(c, sub);
      var p := PeekCall(c, sub);
      r.outcome == Done ==>
        && p.Ok? && p.value && p.conn.trace == c.trace + [Peek(sub)]
        && Rounds(p.conn, sub, ExampleTopics, None).Finished?
        && r.conn == Rounds(p.conn, sub, ExampleTopics, None).conn
  {
  }

  /** Counts past the gate's peek: the peek plus those of the loop. */
  lemma PeekThenRest(c: Conn, c1: Conn, q: Loop, sub: Id)
    requires c1.trace == c.trace + [Peek(sub)] && c1.trace <= q.conn.trace
    requires Count(Since(c1, q), IsPeek) == Count(Since(c1, q), IsComplete) + 1
    ensures Count(q.conn.trace[|c.trace|..], IsPeek) == Count(q.conn.trace[|c.trace|..], IsComplete) + 2
  {
    SliceAfterPeek(c, c1, q, sub);
    CountPeekThen(Since(c1, q), sub);
  }

  lemma SliceAfterPeek(c: Conn, c1: Conn, q: Loop, sub: Id)
    requires c1.trace == c.trace + [Peek(sub)] && c1.trace <= q.conn.trace
    ensures q.conn.trace[|c.trace|..] == [Peek(sub)] + Since(c1, q)
  {
    PrefixSplit(c1.trace, q.conn.trace);
  }

  lemma CountPeekThen(b: seq<Event>, sub: Id)
    requires Count(b, IsPeek) == Count(b, IsComplete) + 1
    ensures Count([Peek(sub)] + b, IsPeek) == Count([Peek(sub)] + b, IsComplete) + 2
  {
    CountConcat([Peek(sub)], b, IsPeek);
    CountConcat([Peek(sub)], b, IsComplete);
    CountSingle(Peek(sub), IsPeek);
    CountSingle(Peek(sub), IsComplete);
  }

  lemma GatedDoneCancelsNothing(c: Conn, sub: Id)
    ensures var r := Gated(c, sub);
      r.outcome == Done ==> Count(r.conn.trace[|c.trace|..], IsCancel) == 0
  {
    var r := Gated(c, sub);
    if r.outcome == Done {
      GatedCalls(c, sub);
      forall i | |c.trace| <= i < |r.conn.trace|
        ensures !IsCancel(r.conn.trace[i])
      {
        assert LoopCall(r.conn.trace[i], sub, ExampleTopics);
      }
      NoneFrom(r.conn.trace, |c.trace|, IsCancel);
    }
  }

  /** A call made before the first peek. */
  predicate PreludeCall(e: Event)
  {
    e == SystemReport || e == CreateSubscription || e.WriteConfig?
  }

  /** The example splits into the prelude (system report and
      subscription) and, once both succeed on a ready system, the gated
      part run on the prelude's connection. */
  lemma ExampleStages(script: Script, stored: Option<Id>)
    ensures var r := Example(script, stored);
      var e := EnsureSubscription(Conn(script, [SystemReport]), stored, TopLevel, SubscriptionKey);
      && (forall i :: 0 <= i < |e.conn.trace| ==> PreludeCall(e.conn.trace[i]))
      && e.conn.script == script.(subscriptions := e.conn.script.subscriptions)
      && (if !FailsNext(Conn(script, [])) && IsReady(script.status) && e.Ok? then r == Gated(e.conn, e.value)
          else (r.outcome == NotReady || r.outcome == Failed(false)) && forall i :: 0 <= i < |r.conn.trace| ==> PreludeCall(r.conn.trace[i]))
  {
    var c := Conn(script, []);
    var c0 := Conn(script, [SystemReport]);
    assert !FailsNext(c) ==> FetchSystemReport(c) == Ok(script.status, c0);
    var e := EnsureSubscription(c0, stored, TopLevel, SubscriptionKey);
    assert e.conn.trace == [SystemReport] || e.conn.trace == [SystemReport, CreateSubscription]
      || e.conn.trace == [SystemReport, CreateSubscription, WriteConfig(SubscriptionKey, e.conn.trace[2].value)];
  }

  /** A subscription id is at hand after the prelude: a stored one, or a
      created one whose response carries a top-level `id`. */
  predicate HasSubscription(script: Script, stored: Option<Id>)
  {
    IsStored(stored) || (|script.subscriptions| > 0 && script.subscriptions[0].id.Some?)
  }

  /** The gate: on a ready system, with the subscription at hand and no
      failure, the run ends with no data exactly when the first peek
      says so; and a run that ends with no data opened no session, read
      no page, sent no command and ended with that peek. */
  lemma ExampleFirstPeekGates(script: Script, stored: Option<Id>)
    ensures var r := Example(script, stored);
      var t := r.conn.trace;
      && (r.outcome == NoData ==>
            && IsReady(script.status) && |script.peeks| > 0 && !script.peeks[0]
            && t[|t| - 1].Peek?
            && forall i :: 0 <= i < |t| ==> !t[i].CreateSession? && !t[i].Fetch? && !t[i].SessionCmd?)
      && (script.failAt.None? && IsReady(script.status) && HasSubscription(script, stored) && |script.peeks| > 0 ==>
            (r.outcome == NoData <==> !script.peeks[0]))
  {
    ExampleStages(script, stored);
    var r := Example(script, stored);
    var e := EnsureSubscription(Conn(script, [SystemReport]), stored, TopLevel, SubscriptionKey);
    if !FailsNext(Conn(script, [])) && IsReady(script.status) && e.Ok? {
      GatedFirstPeek(e.conn, e.value);
      if r.outcome == NoData {
        PreludeThenPeek(e.conn.trace, r.conn.trace, e.value);
      }
    }
  }

  /** The prelude's calls followed by one peek open no session, read no
      page and send no command. */
  lemma PreludeThenPeek(u: seq<Event>, t: seq<Event>, sub: Id)
    requires forall i :: 0 <= i < |u| ==> PreludeCall(u[i])
    requires t == u + [Peek(sub)]
    ensures t[|t| - 1].Peek?
    ensures forall i :: 0 <= i < |t| ==> !t[i].CreateSession? && !t[i].Fetch? && !t[i].SessionCmd?
  {
    forall i | 0 <= i < |t|
      ensures !t[i].CreateSession? && !t[i].Fetch? && !t[i].SessionCmd?
    {
      if i < |u| {
        assert PreludeCall(u[i]);
      }
    }
  }

  /** Which calls of a run use subscription `sub`: every peek and every
      session it opens, each session with the range limit. */
  predicate UsesSubscription(t: seq<Event>, sub: Id)
  {
    forall i :: 0 <= i < |t| ==>
      && (t[i].Peek? ==> t[i] == Peek(sub))
      && (t[i].CreateSession? ==> t[i] == CreateSession(sub, Some(RangeLimit)))
  }

  lemma UsesFromCalls(u: seq<Event>, t: seq<Event>, sub: Id)
    requires u <= t && |u| < |t|
    requires UsesSubscription(u, sub)
    requires forall i :: |u| <= i < |t| - 1 ==> LoopCall(t[i], sub, ExampleTopics)
    requires LoopCall(t[|t| - 1], sub, ExampleTopics) || IsCancel(t[|t| - 1])
    ensures UsesSubscription(t, sub)
  {
    forall i | 0 <= i < |t|
      ensures (t[i].Peek? ==> t[i] == Peek(sub)) && (t[i].CreateSession? ==> t[i] == CreateSession(sub, Some(RangeLimit)))
    {
      if i < |u| {
        assert t[i] == u[i];
      }
    }
  }

  lemma GatedUses(c: Conn, sub: Id)
    requires UsesSubscription(c.trace, sub)
    ensures UsesSubscription(Gated(c, sub).conn.trace, sub)
  {
    GatedCalls(c, sub);
    UsesFromCalls(c.trace, Gated(c, sub).conn.trace, sub);
  }

  /** The calls a gated part makes, from position `from` of a trace on. */
  predicate LoopTail(t: seq<Event>, from: nat, sub: Id)
  {
    && from < |t|
    && (forall i :: from <= i < |t| - 1 ==> LoopCall(t[i], sub, ExampleTopics))
    && (LoopCall(t[|t| - 1], sub, ExampleTopics) || IsCancel(t[|t| - 1]))
  }

  lemma GatedTail(c: Conn, sub: Id)
    ensures LoopTail(Gated(c, sub).conn.trace, |c.trace|, sub)
  {
    GatedCalls(c, sub);
  }

  lemma LoopTailNoPrelude(t: seq<Event>, from: nat, sub: Id)
    requires LoopTail(t, from, sub)
    ensures forall i :: from <= i < |t| ==> !PreludeCall(t[i])
  {
    forall i | from <= i < |t|
      ensures !PreludeCall(t[i])
    {
      if i < |t| - 1 {
        assert LoopCall(t[i], sub, ExampleTopics);
      }
    }
  }

  /** With a stored id the example creates no subscription, writes no
      config, and peeks and opens sessions with the stored id. */
  lemma ExampleStoredIdReused(script: Script, stored: Option<Id>)
    requires IsStored(stored)
    ensures var t := Example(script, stored).conn.trace;
      && (forall i :: 0 <= i < |t| ==> !t[i].CreateSubscription? && !t[i].WriteConfig?)
      && UsesSubscription(t, stored.value)
  {
    ExampleStages(script, stored);
    var r := Example(script, stored);
    var t := r.conn.trace;
    var c0 := Conn(script, [SystemReport]);
    assert EnsureSubscription(c0, stored, TopLevel, SubscriptionKey) == Ok(stored.value, c0);
    if !FailsNext(Conn(script, [])) && IsReady(script.status) {
      assert r == Gated(c0, stored.value);
      GatedUses(c0, stored.value);
      GatedTail(c0, stored.value);
      LoopTailNoPrelude(t, 1, stored.value);
      assert t[0] == SystemReport;
    } else {
      assert t == [SystemReport];
    }
  }

  /** The gated part run after a new id was created and written. */
  lemma GatedAfterNewId(c: Conn, id: Id)
    requires c.trace == [SystemReport, CreateSubscription, WriteConfig(SubscriptionKey, id)]
    ensures var t := Gated(c, id).conn.trace;
      && |t| > 3 && t[..3] == c.trace && t[3] == Peek(id)
      && (forall i :: 3 <= i < |t| ==> !PreludeCall(t[i]))
      && UsesSubscription(t, id)
  {
    var t := Gated(c, id).conn.trace;
    GatedFirstPeek(c, id);
    GatedTail(c, id);
    GatedUses(c, id);
    LoopTailNoPrelude(t, 3, id);
  }

  /** Without a stored id the new id is read from the top-level `id` of
      the create-subscription response and written under
      CAL_SUBSCRIPTION_ID before anything uses it: the subscription is
      created only as the second call, the config written only as the
      third, and every peek and session comes after and uses that id. */
  lemma ExampleNewIdPersisted(script: Script, stored: Option<Id>)
    requires !IsStored(stored)
    ensures var t := Example(script, stored).conn.trace;
      && (forall i :: 0 <= i < |t| && t[i].CreateSubscription? ==> i == 1)
      && (forall i :: 0 <= i < |t| && t[i].WriteConfig? ==> i == 2)
      && (|t| > 3 ==>
            && |script.subscriptions| > 0 && script.subscriptions[0].id.Some?
            && t[2] == WriteConfig(SubscriptionKey, script.subscriptions[0].id.value)
            && t[3] == Peek(script.subscriptions[0].id.value)
            && UsesSubscription(t, script.subscriptions[0].id.value))
      && (|t| <= 3 ==> forall i :: 0 <= i < |t| ==> PreludeCall(t[i]))
  {
    var t := Example(script, stored).conn.trace;
    var e := EnsureSubscription(Conn(script, [SystemReport]), stored, TopLevel, SubscriptionKey);
    ExampleNewIdCases(script, stored);
    if |t| > 3 {
      GatedAfterNewId(e.conn, script.subscriptions[0].id.value);
      NewIdThenLoop(t, script.subscriptions[0].id.value);
    } else {
      NewIdShortRun(t);
    }
  }

  lemma NewIdThenLoop(t: seq<Event>, id: Id)
    requires |t| > 3 && t[..3] == [SystemReport, CreateSubscription, WriteConfig(SubscriptionKey, id)]
    requires forall i :: 3 <= i < |t| ==> !PreludeCall(t[i])
    ensures forall i :: 0 <= i < |t| && t[i].CreateSubscription? ==> i == 1
    ensures forall i :: 0 <= i < |t| && t[i].WriteConfig? ==> i == 2
    ensures t[2] == WriteConfig(SubscriptionKey, id)
  {
    forall i | 0 <= i < |t|
      ensures (t[i].CreateSubscription? ==> i == 1) && (t[i].WriteConfig? ==> i == 2)
    {
      if i < 3 {
        assert t[i] == t[..3][i];
      } else {
        assert !PreludeCall(t[i]);
      }
    }
    assert t[2] == t[..3][2];
  }

  lemma NewIdShortRun(t: seq<Event>)
    requires 1 <= |t| <= 3 && t[0] == SystemReport && (|t| > 1 ==> t[1] == CreateSubscription)
    requires |t| > 2 ==> t[2].WriteConfig?
    ensures forall i :: 0 <= i < |t| && t[i].CreateSubscription? ==> i == 1
    ensures forall i :: 0 <= i < |t| && t[i].WriteConfig? ==> i == 2
    ensures forall i :: 0 <= i < |t| ==> PreludeCall(t[i])
  {
  }

  /** Without a stored id, a run either stops within the prelude's three
      calls or reaches the gate with the created id. */
  lemma ExampleNewIdCases(script: Script, stored: Option<Id>)
    requires !IsStored(stored)
    ensures var r := Example(script, stored);
      var t := r.conn.trace;
      var e := EnsureSubscription(Conn(script, [SystemReport]), stored, TopLevel, SubscriptionKey);
      && (|t| > 3 ==>
            && |script.subscriptions| > 0 && script.subscriptions[0].id.Some?
            && e.conn.trace == [SystemReport, CreateSubscription, WriteConfig(SubscriptionKey, script.subscriptions[0].id.value)]
            && r == Gated(e.conn, script.subscriptions[0].id.value))
      && (|t| <= 3 ==>
            && t[0] == SystemReport && (|t| > 1 ==> t[1] == CreateSubscription)
            && (|t| > 2 ==> t[2].WriteConfig?))
  {
    var r := Example(script, stored);
    var c0 := Conn(script, [SystemReport]);
    var e := EnsureSubscription(c0, stored, TopLevel, SubscriptionKey);
    if !FailsNext(Conn(script, [])) && IsReady(script.status) && e.Ok? {
      assert FetchSystemReport(Conn(script, [])) == Ok(script.status, c0);
      assert r == Gated(e.conn, e.value);
      GatedFirstPeek(e.conn, e.value);
    } else {
      ExampleStages(script, stored);
    }
  }


  /** A failed run cancels the most recently opened session — the n-th
      session answer when n sessions were opened — even when that
      session's round had completed it; a run that failed before opening
      any session cancels nothing. The failure escapes the example only
      when that cancel raises. */
  lemma ExampleCancelsMostRecent(script: Script, stored: Option<Id>)
    ensures var r := Example(script, stored);
      var t := r.conn.trace;
      var n := |script.sessions| - |r.conn.script.sessions|;
      && 0 <= n <= |script.sessions|
      && (r.outcome.Failed? && n > 0 ==> t[|t| - 1] == SessionCmd(script.sessions[n - 1].session, CancelName))
      && (r.outcome.Failed? && n == 0 ==> !IsCancel(t[|t| - 1]))
      && (r.outcome == Failed(true) ==> n > 0 && script.failAt == Some(|t| - 1))
  {
    ExampleStages(script, stored);
    var r := Example(script, stored);
    var e := EnsureSubscription(Conn(script, [SystemReport]), stored, TopLevel, SubscriptionKey);
    if !FailsNext(Conn(script, [])) && IsReady(script.status) && e.Ok? {
      assert r == Gated(e.conn, e.value);
      GatedCancelsMostRecent(e.conn, e.value);
    } else {
      assert r.conn.script.sessions == script.sessions;
      assert PreludeCall(r.conn.trace[|r.conn.trace| - 1]);
    }
  }

  lemma CountPastNone(t: seq<Event>, k: nat, p: Event -> bool)
    requires k <= |t|
    requires forall i :: 0 <= i < k ==> !p(t[i])
    ensures Count(t, p) == Count(t[k..], p)
  {
    assert t == t[..k] + t[k..];
    CountConcat(t[..k], t[k..], p);
    NoneFrom(t[..k], 0, p);
  }

  /** Prelude calls count as none of peeks, Completes and Cancels. */
  lemma CountPastPrelude(t: seq<Event>, k: nat)
    requires k <= |t|
    requires forall i :: 0 <= i < k ==> PreludeCall(t[i])
    ensures Count(t, IsPeek) == Count(t[k..], IsPeek)
    ensures Count(t, IsComplete) == Count(t[k..], IsComplete)
    ensures Count(t, IsCancel) == Count(t[k..], IsCancel)
  {
    CountPastNone(t, k, IsPeek);
    CountPastNone(t, k, IsComplete);
    CountPastNone(t, k, IsCancel);
  }

  lemma GatedBalanceAfterPrelude(c: Conn, sub: Id)
    requires forall i :: 0 <= i < |c.trace| ==> PreludeCall(c.trace[i])
    ensures var t := Gated(c, sub).conn.trace;
      Gated(c, sub).outcome == Done ==>
        && Count(t, IsPeek) == Count(t, IsComplete) + 2
        && Count(t, IsCancel) == 0
  {
    var t := Gated(c, sub).conn.trace;
    GatedBalance(c, sub);
    assert t[..|c.trace|] == c.trace;
    CountPastPrelude(t, |c.trace|);
  }

  /** A run that ends normally made two more peeks than it completed
      sessions — one per round plus the gate's and the loop's final
      peek — and cancelled nothing. */
  lemma ExampleBalance(script: Script, stored: Option<Id>)
    ensures var r := Example(script, stored);
      var t := r.conn.trace;
      r.outcome == Done ==>
        && Count(t, IsPeek) == Count(t, IsComplete) + 2
        && Count(t, IsCancel) == 0
  {
    ExampleStages(script, stored);
    var r := Example(script, stored);
    var e := EnsureSubscription(Conn(script, [SystemReport]), stored, TopLevel, SubscriptionKey);
    if r.outcome == Done {
      assert r == Gated(e.conn, e.value);
      GatedBalanceAfterPrelude(e.conn, e.value);
    }
  }

  /** One topic without failures: open the next scripted session, read
      its pages as planned, complete it. */
  lemma RoundOfOneTopic(c: Conn, sub: Id, topic: Topic, last: Option<Id>)
    requires c.script.failAt.None? && |c.script.sessions| > 0
    requires EndsFrom(PagesOf(c.script, c.script.sessions[0].session, topic), 0)
    ensures var s := c.script.sessions[0].session;
      var plan := Plan(PagesOf(c.script, s, topic), s, topic, PageSize, true, 0);
      var r := Round(c, sub, [topic], last);
      && r.Finished? && r.last == Some(s)
      && r.conn.script == c.script.(sessions := c.script.sessions[1..])
      && r.conn.trace == c.trace + [CreateSession(sub, Some(RangeLimit))] + plan + [SessionCmd(s, CompleteName)]
  {
    var s := c.script.sessions[0].session;
    var c1 := Conn(c.script.(sessions := c.script.sessions[1..]), c.trace + [CreateSession(sub, Some(RangeLimit))]);
    assert CreateSessionCall(c, sub, Some(RangeLimit)) == Ok(c.script.sessions[0], c1);
    DrainFollowsPlan(c1, s, topic, PageSize, true, 0);
    var plan := Plan(PagesOf(c1.script, s, topic), s, topic, PageSize, true, 0);
    var c2 := c1.(trace := c1.trace + plan);
    assert RoundTopics(c2, sub, [topic][1..], Some(s)) == Finished(c2, Some(s));
    assert RoundTopics(c, sub, [topic], last) == Finished(c2, Some(s));
  }

  /** The calls before the first peek when the subscription is at hand. */
  function PreludeTrace(script: Script, stored: Option<Id>): seq<Event>
    requires HasSubscription(script, stored)
  {
    if IsStored(stored) then [SystemReport]
    else [SystemReport, CreateSubscription, WriteConfig(SubscriptionKey, script.subscriptions[0].id.value)]
  }

  function SubscriptionOf(script: Script, stored: Option<Id>): Id
    requires HasSubscription(script, stored)
  {
    if IsStored(stored) then stored.value else script.subscriptions[0].id.value
  }

  /** Without failures on a ready system with the subscription at hand,
      the example reaches the gate after the prelude's calls. */
  lemma ExampleReachesGate(script: Script, stored: Option<Id>)
    requires script.failAt.None? && IsReady(script.status) && HasSubscription(script, stored)
    ensures var e := EnsureSubscription(Conn(script, [SystemReport]), stored, TopLevel, SubscriptionKey);
      && e.Ok? && e.value == SubscriptionOf(script, stored) && e.conn.trace == PreludeTrace(script, stored)
      && e.conn.script == script.(subscriptions := e.conn.script.subscriptions)
      && Example(script, stored) == Gated(e.conn, e.value)
  {
    var c0 := Conn(script, [SystemReport]);
    assert FetchSystemReport(Conn(script, [])) == Ok(script.status, c0);
    var e := EnsureSubscription(c0, stored, TopLevel, SubscriptionKey);
    assert Example(script, stored) == Subscribed(c0, stored);
  }

  lemma GatedOneRound(c: Conn, sub: Id)
    requires c.script.failAt.None? && c.script.peeks == [true, true, false] && |c.script.sessions| > 0
    requires EndsFrom(PagesOf(c.script, c.script.sessions[0].session, ExampleTopics[0]), 0)
    ensures var s := c.script.sessions[0].session;
      var plan := Plan(PagesOf(c.script, s, ExampleTopics[0]), s, ExampleTopics[0], PageSize, true, 0);
      var r := Gated(c, sub);
      && r.outcome == Done
      && r.conn.trace == c.trace + [Peek(sub), Peek(sub), CreateSession(sub, Some(RangeLimit))] + plan
           + [SessionCmd(s, CompleteName), Peek(sub)]
  {
    var s := c.script.sessions[0].session;
    var c1 := Conn(c.script.(peeks := [true, false]), c.trace + [Peek(sub)]);
    assert PeekCall(c, sub) == Ok(true, c1);
    var c2 := Conn(c.script.(peeks := [false]), c1.trace + [Peek(sub)]);
    assert PeekCall(c1, sub) == Ok(true, c2);
    RoundOfOneTopic(c2, sub, ExampleTopics[0], None);
    var m := Round(c2, sub, ExampleTopics, None);
    var c4 := Conn(m.conn.script.(peeks := []), m.conn.trace + [Peek(sub)]);
    assert PeekCall(m.conn, sub) == Ok(false, c4);
    assert Rounds(m.conn, sub, ExampleTopics, m.last) == Finished(c4, m.last);
    assert Rounds(c1, sub, ExampleTopics, None) == Finished(c4, m.last);
  }

  /** One round on a ready system: the gate's peek, the loop's peek, one
      session with the range limit, the topic's pages read and logged
      1000 records at a time, Complete, and the peek that ends the loop. */
  lemma ExampleOneRound(script: Script, stored: Option<Id>)
    requires script.failAt.None? && IsReady(script.status) && HasSubscription(script, stored)
    requires script.peeks == [true, true, false] && |script.sessions| > 0
    requires EndsFrom(PagesOf(script, script.sessions[0].session, ExampleTopics[0]), 0)
    ensures var sub := SubscriptionOf(script, stored);
      var s := script.sessions[0].session;
      var plan := Plan(PagesOf(script, s, ExampleTopics[0]), s, ExampleTopics[0], PageSize, true, 0);
      var r := Example(script, stored);
      && r.outcome == Done
      && r.conn.trace == PreludeTrace(script, stored) + [Peek(sub), Peek(sub), CreateSession(sub, Some(RangeLimit))] + plan
           + [SessionCmd(s, CompleteName), Peek(sub)]
  {
    ExampleReachesGate(script, stored);
    var e := EnsureSubscription(Conn(script, [SystemReport]), stored, TopLevel, SubscriptionKey);
    GatedOneRound(e.conn, e.value);
  }

  lemma GatedCancelsCompleted(c: Conn, sub: Id)
    requires c.script.failAt.None? && c.script.peeks == [true, true] && |c.script.sessions| > 0
    requires EndsFrom(PagesOf(c.script, c.script.sessions[0].session, ExampleTopics[0]), 0)
    ensures var s := c.script.sessions[0].session;
      var plan := Plan(PagesOf(c.script, s, ExampleTopics[0]), s, ExampleTopics[0], PageSize, true, 0);
      var r := Gated(c, sub);
      && r.outcome == Failed(false)
      && r.conn.trace == c.trace + [Peek(sub), Peek(sub), CreateSession(sub, Some(RangeLimit))] + plan
           + [SessionCmd(s, CompleteName), Peek(sub), SessionCmd(s, CancelName)]
  {
    var s := c.script.sessions[0].session;
    var c1 := Conn(c.script.(peeks := [true]), c.trace + [Peek(sub)]);
    assert PeekCall(c, sub) == Ok(true, c1);
    var c2 := Conn(c.script.(peeks := []), c1.trace + [Peek(sub)]);
    assert PeekCall(c1, sub) == Ok(true, c2);
    RoundOfOneTopic(c2, sub, ExampleTopics[0], None);
    var m := Round(c2, sub, ExampleTopics, None);
    var c4 := m.conn.(trace := m.conn.trace + [Peek(sub)]);
    assert PeekCall(m.conn, sub) == Raised(c4);
    assert Rounds(m.conn, sub, ExampleTopics, m.last) == Broke(c4, Some(s));
    assert Rounds(c1, sub, ExampleTopics, None) == Broke(c4, Some(s));
  }

  /** The stale cancel: a round completes its session, then the loop's
      next peek raises (the server has no answer for it); `sync_session`
      still holds the completed session, and the except-block sends Cancel
      for it right after its Complete. */
  lemma ExampleCancelsCompletedSession(script: Script, stored: Option<Id>)
    requires script.failAt.None? && IsReady(script.status) && HasSubscription(script, stored)
    requires script.peeks == [true, true] && |script.sessions| > 0
    requires EndsFrom(PagesOf(script, script.sessions[0].session, ExampleTopics[0]), 0)
    ensures var sub := SubscriptionOf(script, stored);
      var s := script.sessions[0].session;
      var plan := Plan(PagesOf(script, s, ExampleTopics[0]), s, ExampleTopics[0], PageSize, true, 0);
      var r := Example(script, stored);
      && r.outcome == Failed(false)
      && r.conn.trace == PreludeTrace(script, stored) + [Peek(sub), Peek(sub), CreateSession(sub, Some(RangeLimit))] + plan
           + [SessionCmd(s, CompleteName), Peek(sub), SessionCmd(s, CancelName)]
  {
    ExampleReachesGate(script, stored);
    var e := EnsureSubscription(Conn(script, [SystemReport]), stored, TopLevel, SubscriptionKey);
    GatedCancelsCompleted(e.conn, e.value);
  }
}
