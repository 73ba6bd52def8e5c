/** Pieces the three lifecycle drivers share: how a run ends, the
    subscription step, and the except-block that cancels a held session. */
module Lifecycle {

  import opened Protocol
  import opened Oracle
  import opened Commands

  /** How a driver ends. `Failed(escaped)`: an exception was raised;
      `escaped` when it propagates out of the driver's entry point instead
      of being logged by an except-block. */
  datatype Outcome = Done | NotReady | NoData | Failed(escaped: bool)

  datatype Run = Run(conn: Conn, outcome: Outcome)

  /** How an except-block reads the held session's id: `sync_session.id`
      is attribute access on a dict and raises AttributeError before any
      request; `sync_session['id']` works. */
  datatype Access = ByAttribute | ByKey

  const CompleteName: string := SessionCommand.Complete.Name()
  const CancelName: string := SessionCommand.Cancel.Name()

  /** `if not subscription_id`: None and the empty string both count as
      "no stored id". */
  predicate IsStored(stored: Option<Id>)
  {
    stored.Some? && stored.value != ""
  }

  /** A call that belongs to a held session: one of its topic reads, a
      report of a page, or a command for it. */
  predicate SessionCall(e: Event, session: Id)
  {
    (e.Fetch? && e.sessionId == session) || e.Report? || (e.SessionCmd? && e.sessionId == session)
  }

  /** Failure discipline of a whole run: once the call at the failure point
      has raised, the run fails, and at most the except-block's Cancel
      follows that call. */
  predicate StopsAtFailure(c: Conn, r: Run)
  {
    && c.trace <= r.conn.trace
    && r.conn.script.failAt == c.script.failAt
    && (c.script.failAt.Some? && |c.trace| <= c.script.failAt.value < |r.conn.trace| ==>
          && r.outcome.Failed?
          && (|r.conn.trace| == c.script.failAt.value + 1
              || (|r.conn.trace| == c.script.failAt.value + 2 && IsCancel(r.conn.trace[c.script.failAt.value + 1]))))
  }

  /** A step that returned normally, followed by a run that stops at the
      failure point, stops at it too. */
  lemma ProceedsThenStops<T>(c: Conn, s: Step<T>, r: Run)
    requires Proceeds(c, s) && s.Ok? && StopsAtFailure(s.conn, r)
    ensures StopsAtFailure(c, r)
  {
  }

  /** A step that raised, followed at most by the except-block's Cancel,
      stops at the failure point. */
  lemma RaisedThenCancelStops<T>(c: Conn, s: Step<T>, r: Run, session: Id)
    requires Proceeds(c, s) && s.Raised? && r.outcome.Failed?
    requires r.conn.script.failAt == c.script.failAt
    requires r.conn.trace == s.conn.trace || r.conn.trace == s.conn.trace + [SessionCmd(session, CancelName)]
    ensures StopsAtFailure(c, r)
  {
    assert CancelName == "Cancel";
  }

  /** The corrected except-block, as seen from connection `c`: a run that
      fails once a topic read (at position k) has been sent ends with the
      Cancel of the first session the server answers. */
  predicate CancelsHeldAfterRead(c: Conn, r: Run, k: nat)
  {
    var t := r.conn.trace;
    r.outcome.Failed? && |c.trace| <= k < |t| && t[k].Fetch? ==>
      |c.script.sessions| > 0 && t[|t| - 1] == SessionCmd(c.script.sessions[0].session, CancelName)
  }

  /** Calls that `c1` adds to `c` before any topic read leave the property
      as it was. */
  lemma CancelsHeldFromEarlier(c: Conn, c1: Conn, r: Run, k: nat)
    requires c1.script.sessions == c.script.sessions
    requires c.trace <= c1.trace <= r.conn.trace
    requires forall i :: |c.trace| <= i < |c1.trace| ==> !c1.trace[i].Fetch?
    requires CancelsHeldAfterRead(c1, r, k)
    ensures CancelsHeldAfterRead(c, r, k)
  {
  }

  /** A run seen from connection `c` that ends for want of data: the first
      session answer had none, the session request was the last call, and
      no topic was read and no command sent since `c`. */
  predicate EndsWithoutData(c: Conn, r: Run)
  {
    var t := r.conn.trace;
    r.outcome == NoData ==>
      && |c.script.sessions| > 0 && !c.script.sessions[0].syncDataAvailable
      && |t| > 0 && t[|t| - 1].CreateSession?
      && forall i :: |c.trace| <= i < |t| ==> !t[i].Fetch? && !t[i].SessionCmd?
  }

  /** Calls that `c1` adds to `c` before the session request leave the
      property as it was. */
  lemma EndsWithoutDataFromEarlier(c: Conn, c1: Conn, r: Run)
    requires c1.script.sessions == c.script.sessions
    requires c.trace <= c1.trace <= r.conn.trace
    requires forall i :: |c.trace| <= i < |c1.trace| ==> !c1.trace[i].Fetch? && !c1.trace[i].SessionCmd?
    requires EndsWithoutData(c1, r)
    ensures EndsWithoutData(c, r)
  {
  }

  /** Reuse the stored subscription id, or create a subscription, read its
      id from the response field `shape`, and persist it under `key` before
      returning it. A response without that field raises (KeyError). */
  function EnsureSubscription(c: Conn, stored: Option<Id>, shape: IdShape, key: string): (r: Step<Id>)
    ensures Proceeds(c, r)
    ensures r.conn.script == c.script.(subscriptions := r.conn.script.subscriptions)
    ensures IsStored(stored) ==> r == Ok(stored.value, c)
    ensures !IsStored(stored) ==>
      && |c.trace| + 1 <= |r.conn.trace| <= |c.trace| + 2
      && r.conn.trace[|c.trace|] == CreateSubscription
      && (|r.conn.trace| == |c.trace| + 2 ==> r.conn.trace[|c.trace| + 1].WriteConfig? && r.conn.trace[|c.trace| + 1].key == key)
    ensures !IsStored(stored) && r.Ok? ==>
      && r.conn.trace == c.trace + [CreateSubscription, WriteConfig(key, r.value)]
      && |c.script.subscriptions| > 0
      && NewSubscriptionId(c.script.subscriptions[0], shape) == Some(r.value)
  {
    if IsStored(stored) then Ok(stored.value, c)
    else
      match CreateSubscriptionCall(c)
      case Raised(c1) => Raised(c1)
      case Ok(resp, c1) =>
        match NewSubscriptionId(resp, shape)
        case None => Raised(c1)
        case Some(id) =>
          match Call(c1, WriteConfig(key, id))
          case Raised(c2) => Raised(c2)
          case Ok(_, c2) => Ok(id, c2)
  }

  /** The except-block: when a session is held, cancel it, reading its id
      as `access` says. Raised when the handler itself raises. */
  function CancelOnError(c: Conn, session: Option<Id>, access: Access): (r: Step<()>)
    ensures Proceeds(c, r)
    ensures session.None? ==> r == Ok((), c)
    ensures session.Some? && access == ByAttribute ==> r == Raised(c)
    ensures session.Some? && access == ByKey ==>
      && r.conn.trace == c.trace + [SessionCmd(session.value, CancelName)]
      && (r.Ok? <==> !FailsNext(c))
  {
    match session
    case None => Ok((), c)
    case Some(s) =>
      match access
      case ByAttribute => Raised(c)
      case ByKey => Call(c, SessionCmd(s, CancelName))
  }
}
