/**
 Renewal in time (the requeue arithmetic of src/controller/reconcile.rs): instants
 in milliseconds; the wire's deadlines and the planner's clock in whole seconds.
 */
module Renewal {
  import opened Basics
  import opened Pods
  import opened Planner
  import opened PlannerLaws

  const REQUEUE_SOON := 10
  const REQUEUE_AFTER_ERROR := 30

  /** Reconcile interval and renew margin in seconds, the server's claim time-to-live and the longest pass in milliseconds. */
  datatype Settings = Settings(interval: nat, margin: nat, ttl: nat, longest: nat)

  predicate HoldsClaim(o: Observed, s: Session) { Ours(o, s) && s.status != SessionStatus.Terminated && s.deadline.Some? }

  /** The earliest deadline among our claims. */
  function NextClaimDeadline(o: Observed, ss: seq<Session>): (d: Option<int>)
    ensures forall s <- ss :: HoldsClaim(o, s) ==> d.Some? && d.value <= s.deadline.value
    ensures d.Some? ==> exists s <- ss :: HoldsClaim(o, s) && s.deadline == d
  {
    if ss == [] then None
    else
      var rest, s := NextClaimDeadline(o, ss[..|ss| - 1]), ss[|ss| - 1];
      assert ss == ss[..|ss| - 1] + [s];
      if !HoldsClaim(o, s) then rest
      else if rest.Some? && rest.value <= s.deadline.value then rest else s.deadline
  }

  /**
   One pass: when it began, read its clock and ended, what it saw, whether it
   failed, whether it asked to be back soon, and when the server handled the
   session's renewal, if it planned one.
   */
  datatype TimedPass = TimedPass(start: int, clock: int, end: int, seen: Observed, failed: bool, soon: bool, handled: int)

  /** Seconds until the next pass at the latest. */
  function Requeue(k: Settings, p: TimedPass): int {
    if p.failed then REQUEUE_AFTER_ERROR
    else
      var calm := if p.soon then Min(k.interval, REQUEUE_SOON) else k.interval;
      var d := NextClaimDeadline(p.seen, p.seen.sessions);
      if d.None? then calm else Min(calm, Max(d.value - k.margin - p.seen.now, 5))
  }

  /** A claim of ours whose session is not terminated, with its deadline. */
  predicate RunsOutAt(o: Observed, s: Session, deadline: int) {
    s.phase == Claimed && s.acceptor == Some(o.acceptor) && s.status != SessionStatus.Terminated && s.deadline == Some(deadline)
  }

  /**
   After a pass that went through, the next comes within the interval, within ten
   seconds if something is pending, and within what is left of any claim beyond the
   margin or five seconds; never sooner than five seconds or the interval, and
   no sooner than one of these asks for. After a failure it comes in 30 seconds.
   */
  lemma RequeueBounds(k: Settings, p: TimedPass)
    ensures p.failed ==> Requeue(k, p) == 30
    ensures !p.failed ==>
              && Requeue(k, p) <= k.interval && (p.soon ==> Requeue(k, p) <= 10)
              && (forall s <- p.seen.sessions, d :: RunsOutAt(p.seen, s, d) ==> Requeue(k, p) <= Max(d - k.margin - p.seen.now, 5))
              && Requeue(k, p) >= Min(k.interval, 5)
              && (|| Requeue(k, p) == k.interval || (p.soon && Requeue(k, p) == 10)
                  || exists s <- p.seen.sessions, d :: RunsOutAt(p.seen, s, d) && Requeue(k, p) == Max(d - k.margin - p.seen.now, 5))
  {
    var d := NextClaimDeadline(p.seen, p.seen.sessions);
    assert forall s <- p.seen.sessions, x :: RunsOutAt(p.seen, s, x) ==> HoldsClaim(p.seen, s);
    if d.Some? {
      var s :| s in p.seen.sessions && HoldsClaim(p.seen, s) && s.deadline == d;
      assert RunsOutAt(p.seen, s, d.value);
    }
  }

  /** The session is listed as a live claim of ours with this deadline, on a branch that keeps the claim. */
  predicate ListsClaim(o: Observed, id: string, deadline: int) {
    && UniqueIds(o.sessions)
    && exists s <- o.sessions ::
         && s.id == id && Ours(o, s) && !Terminal(s) && id in o.pods && s.deadline == Some(deadline / 1000)
         && var pod := o.pods[id];
            && !InPhase(pod, "Succeeded")
            && (FailureOf(o, pod).Some? || (RestartCount(pod) <= o.restartLimit && !Drifted(o, s, pod)))
  }

  /** A pass that reaches its actions and whose renewal of the session, if planned, is handled. */
  predicate Sound(k: Settings, p: TimedPass, id: string, deadline: int) {
    && p.start <= p.clock <= p.end <= p.start + k.longest
    && p.seen.now == p.clock / 1000 && p.seen.renewMargin == k.margin
    && p.clock <= p.handled <= p.end
    && ListsClaim(p.seen, id, deadline)
  }

  /** The claim's deadline at the server after the pass. */
  function DeadlineAfter(k: Settings, p: TimedPass, id: string, deadline: int): int {
    if Renew(id) in PlanOf(p.seen) then p.handled + k.ttl else deadline
  }

  function DeadlineAt(k: Settings, run: seq<TimedPass>, id: string, granted: int): int {
    if run == [] then granted + k.ttl
    else DeadlineAfter(k, run[|run| - 1], id, DeadlineAt(k, run[..|run| - 1], id, granted))
  }

  /** When the pass after these begins at the latest; `first` is the pass that claimed the session. */
  function LatestStart(k: Settings, first: TimedPass, run: seq<TimedPass>): int {
    var last := if run == [] then first else run[|run| - 1];
    last.end + 1000 * Requeue(k, last)
  }

  ghost predicate IsRun(k: Settings, first: TimedPass, run: seq<TimedPass>, id: string, granted: int) {
    if run == [] then first.start <= granted <= first.end <= first.start + k.longest
    else
      var shorter, p := run[..|run| - 1], run[|run| - 1];
      && IsRun(k, first, shorter, id, granted)
      && Sound(k, p, id, DeadlineAt(k, shorter, id, granted))
      && p.start <= LatestStart(k, first, shorter)
  }

  /** The renew margin covers the error requeue and two passes, the time-to-live the longest requeue and two passes. */
  predicate LongEnough(k: Settings) {
    && 1000 * k.margin >= 1000 * REQUEUE_AFTER_ERROR + 1000 + 2 * k.longest
    && k.ttl > 1000 * Max(k.interval, REQUEUE_AFTER_ERROR) + 2 * k.longest
  }

  lemma ClaimListed(o: Observed, id: string, deadline: int) returns (s: Session)
    requires ListsClaim(o, id, deadline)
    ensures s in o.sessions && s.id == id && HoldsClaim(o, s) && s.deadline == Some(deadline / 1000)
    ensures Renew(id) in PlanOf(o) <==> RenewalDue(o, s)
  {
    s :| && s in o.sessions && s.id == id && Ours(o, s) && !Terminal(s) && s.deadline == Some(deadline / 1000)
         && !InPhase(o.pods[id], "Succeeded")
         && (FailureOf(o, o.pods[id]).Some? || (RestartCount(o.pods[id]) <= o.restartLimit && !Drifted(o, s, o.pods[id])));
    RenewedWhenDue(o, s);
  }

  /** If one pass ends before the deadline, so does the next, however early or late within its requeue it begins. */
  lemma NextPassInTime(k: Settings, p: TimedPass, id: string, deadline: int)
    requires LongEnough(k) && Sound(k, p, id, deadline)
    ensures p.end + 1000 * Requeue(k, p) + k.longest < DeadlineAfter(k, p, id, deadline)
  {
    hide PlanOf, ListsClaim;
    var s := ClaimListed(p.seen, id, deadline);
  }

  /**
   From the pass that claimed it, a session of ours is renewed before its
   deadline, over any run of passes: each one is over before the deadline it
   finds, and so is the next, wherever within its requeue time it starts.
   */
  lemma {:induction false} RenewedInTime(k: Settings, first: TimedPass, run: seq<TimedPass>, id: string, granted: int)
    requires LongEnough(k) && IsRun(k, first, run, id, granted)
    ensures LatestStart(k, first, run) + k.longest < DeadlineAt(k, run, id, granted)
    ensures run != [] ==>
              var p := run[|run| - 1];
              p.handled <= p.end < DeadlineAt(k, run[..|run| - 1], id, granted)
  {
    if run != [] {
      var shorter, p := run[..|run| - 1], run[|run| - 1];
      RenewedInTime(k, first, shorter, id, granted);
      NextPassInTime(k, p, id, DeadlineAt(k, shorter, id, granted));
    }
  }
}
