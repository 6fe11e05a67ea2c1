/**
 Lease-based leader election (src/elector.rs) as a timed state machine.

 Any number of processes run `become_leader` and then `hold` against one lease
 object with optimistic concurrency. One attempt (`try_acquire`) is a read, a
 local decision and at most one write, each its own step, so attempts of
 different processes interleave freely. A write, once sent, is delivered at any
 later moment, even after its sender stopped waiting for the answer; an answer
 may be lost. The clock is common to all processes and counts microseconds,
 the precision of `renewTime`.
 */
module Elector {
  import opened Basics

  type Time = int
  const MILLISECOND: Time := 1_000
  const LEASE_DURATION: Time := 15_000_000
  const RENEW_INTERVAL: Time := 5_000_000

  datatype Lease = Lease(version: nat, holder: Option<string>, acquired: Option<Time>,
                         renewed: Option<Time>, transitions: Option<int>)

  /** Where a process stands in its attempt, or between two attempts. */
  datatype Stage =
    | Sleeping(wake: Time)
    | Reading(began: Time)
    | Deciding(began: Time, seen: Option<Lease>)
    | Writing(began: Time, serial: nat, answer: Option<bool>)

  /** `acked` is history: when the last attempt answered Ok(true) began. */
  datatype Process =
    | Down
    | Up(leader: bool, lastRenewed: Time, acked: Time, stage: Stage)

  /** A create (`over` is None) or replace sent to the server; `decided` is the instant of the expiry check. */
  datatype Write = Write(author: string, serial: nat, began: Time, decided: Time,
                         over: Option<nat>, draft: Lease)

  /**
   The last four fields are history: the start of the attempt behind each
   process's latest write, the instant the lease last left each process, the
   number of times it changed hands, and the transition count it started from.
   */
  datatype State = State(now: Time, lease: Option<Lease>, procs: map<string, Process>,
                         sent: set<Write>, serial: nat,
                         written: map<string, Time>, lost: map<string, Time>,
                         changes: nat, origin: int)

  datatype Event =
    | Tick(to: Time)
    | Start(id: string)
    | Kill(id: string)
    | Wake(id: string)
    | Read(id: string)
    | Decide(id: string)
    | Deliver(write: Write)
    | Drop(write: Write)
    | Answer(id: string)
    | Fail(id: string)

  predicate Holds(lease: Option<Lease>, id: string) {
    lease.Some? && lease.value.holder == Some(id)
  }

  /** Both instants are truncated to milliseconds before they are compared. */
  predicate Expired(renewed: Option<Time>, now: Time) {
    renewed.None? || now / MILLISECOND - renewed.value / MILLISECOND >= LEASE_DURATION / MILLISECOND
  }

  /** What an attempt writes over the lease it saw; None when it answers Ok(false) without writing. */
  function Draft(seen: Option<Lease>, id: string, began: Time, now: Time): (r: Option<Lease>) {
    match seen
    case None => Some(Lease(0, Some(id), Some(began), Some(began), Some(0)))
    case Some(lease) =>
      var ours := lease.holder == Some(id);
      if !ours && !Expired(lease.renewed, now) then None
      else if ours then Some(lease.(renewed := Some(began)))
      else Some(lease.(holder := Some(id), acquired := Some(began), renewed := Some(began),
                       transitions := Some(lease.transitions.GetOr(0) + 1)))
  }

  /**
   An attempt yields without writing exactly to another holder whose lease was
   renewed less than fifteen seconds ago, to the millisecond; otherwise it
   writes itself as the holder.
   */
  lemma YieldsExactlyWhen(seen: Option<Lease>, id: string, began: Time, now: Time)
    ensures var draft := Draft(seen, id, began, now);
            && (draft.None? <==> seen.Some? && seen.value.holder != Some(id) && seen.value.renewed.Some?
                                 && now / 1000 - seen.value.renewed.value / 1000 < 15000)
            && (draft.Some? ==> draft.value.holder == Some(id) && draft.value.renewed == Some(began))
  {
  }

  /** What a process does with the result of an attempt: None is an error. */
  function Settle(p: Process, began: Time, now: Time, result: Option<bool>): Process
    requires p.Up?
  {
    var next := Sleeping(now + RENEW_INTERVAL);
    match result
    case Some(true) => Up(true, now, began, next)
    case Some(false) => if p.leader then Down else p.(stage := next)
    case None =>
      if p.leader && now - p.lastRenewed >= LEASE_DURATION then Down else p.(stage := next)
  }

  predicate InAttempt(p: Process) { p.Up? && !p.stage.Sleeping? }

  predicate Running(s: State, id: string) { id in s.procs && s.procs[id].Up? }

  /** With an attempt taking at most `limit`, time stops at the next thing a process has to do. */
  predicate MayWait(p: Process, to: Time, limit: Time) {
    match p
    case Down => true
    case Up(_, _, _, Sleeping(wake)) => to <= wake
    case Up(_, _, _, stage) => to <= stage.began + limit
  }

  predicate Enabled(s: State, e: Event, limit: Time) {
    match e
    case Tick(to) => s.now <= to && forall id <- s.procs :: MayWait(s.procs[id], to, limit)
    case Start(id) => !Running(s, id)
    case Kill(id) => Running(s, id)
    case Wake(id) => Running(s, id) && s.procs[id].stage == Sleeping(s.now)
    case Read(id) => Running(s, id) && s.procs[id].stage.Reading?
    case Decide(id) => Running(s, id) && s.procs[id].stage.Deciding?
    case Deliver(w) => w in s.sent
    case Drop(w) => w in s.sent
    case Answer(id) => Running(s, id) && s.procs[id].stage.Writing? && s.procs[id].stage.answer.Some?
    case Fail(id) => Running(s, id) && (s.procs[id].stage.Reading? || s.procs[id].stage.Writing?)
  }

  function Put(s: State, id: string, p: Process): State { s.(procs := s.procs[id := p]) }

  function AfterDecision(s: State, id: string): State
    requires Running(s, id) && s.procs[id].stage.Deciding?
  {
    var p := s.procs[id];
    match Draft(p.stage.seen, id, p.stage.began, s.now)
    case None => Put(s, id, Settle(p, p.stage.began, s.now, Some(false)))
    case Some(draft) =>
      var over := if p.stage.seen.None? then None else Some(p.stage.seen.value.version);
      var w := Write(id, s.serial, p.stage.began, s.now, over, draft);
      Put(s, id, p.(stage := Writing(p.stage.began, s.serial, None)))
      .(sent := s.sent + {w}, serial := s.serial + 1)
  }

  /** A write is accepted when it was drafted over the version the server holds. */
  predicate Accepted(s: State, w: Write) {
    w.over == if s.lease.None? then None else Some(s.lease.value.version)
  }

  function NotifyAuthor(s: State, w: Write, accepted: bool): State {
    if Running(s, w.author) && s.procs[w.author].stage.Writing? && s.procs[w.author].stage.serial == w.serial
    then Put(s, w.author, s.procs[w.author].(stage := s.procs[w.author].stage.(answer := Some(accepted))))
    else s
  }

  function AfterDelivery(s: State, w: Write): State {
    var rest := s.(sent := s.sent - {w});
    if !Accepted(s, w) then NotifyAuthor(rest, w, false)
    else
      var version := if s.lease.None? then 1 else s.lease.value.version + 1;
      var moved := s.lease.Some? && s.lease.value.holder != Some(w.author);
      NotifyAuthor(rest, w, true)
      .(lease := Some(w.draft.(version := version)),
        written := s.written[w.author := w.began],
        lost := if moved && s.lease.value.holder.Some? then s.lost[s.lease.value.holder.value := s.now] else s.lost,
        changes := if moved then s.changes + 1 else s.changes)
  }

  function Apply(s: State, e: Event, limit: Time): State
    requires Enabled(s, e, limit)
  {
    match e
    case Tick(to) => s.(now := to)
    case Start(id) => Put(s, id, Up(false, s.now, s.now, Reading(s.now)))
    case Kill(id) => Put(s, id, Down)
    case Wake(id) => Put(s, id, s.procs[id].(stage := Reading(s.now)))
    case Read(id) => Put(s, id, s.procs[id].(stage := Deciding(s.procs[id].stage.began, s.lease)))
    case Decide(id) => AfterDecision(s, id)
    case Deliver(w) => AfterDelivery(s, w)
    case Drop(w) => s.(sent := s.sent - {w})
    case Answer(id) =>
      Put(s, id, Settle(s.procs[id], s.procs[id].stage.began, s.now, s.procs[id].stage.answer))
    case Fail(id) => Put(s, id, Settle(s.procs[id], s.procs[id].stage.began, s.now, None))
  }

  ghost predicate IsRun(run: seq<State>, limit: Time) {
    |run| > 0 && forall i :: 0 <= i < |run| - 1 ==> IsStep(run[i], run[i + 1], limit)
  }

  ghost predicate IsStep(s: State, t: State, limit: Time) {
    exists e :: Enabled(s, e, limit) && t == Apply(s, e, limit)
  }

  /** No process is up, nothing is in flight; the lease is whatever an earlier deployment left. */
  predicate Initial(s: State) {
    && (forall id <- s.procs :: s.procs[id].Down?)
    && s.sent == {} && s.written == map[] && s.lost == map[] && s.changes == 0
    && (match s.lease
        case None => s.origin == 0
        case Some(l) => s.origin == l.transitions.GetOr(0) && (l.renewed.Some? ==> l.renewed.value <= s.now))
  }

  // ---------------------------------------------------------------- invariant

  /** How far short of LEASE_DURATION a takeover can come because of the truncation. */
  const TRUNCATION: Time := MILLISECOND - 1

  /** `slack` is TRUNCATION in general, 0 when every instant is a whole millisecond. */
  predicate Sane(s: State, slack: Time) {
    slack == TRUNCATION || (slack == 0 && s.now % MILLISECOND == 0)
  }

  predicate WholeUnless(slack: Time, t: Time) { slack == 0 ==> t % MILLISECOND == 0 }

  /** The lease: its renewal time, and who lost it when. */
  predicate LeaseInv(s: State, slack: Time) {
    && (s.lease.None? ==> s.origin == 0 && s.changes == 0 && s.written == map[])
    && (s.lease.Some? ==> s.lease.value.transitions.GetOr(0) == s.origin + s.changes)
    && (s.lease.Some? && s.lease.value.renewed.Some? ==> s.lease.value.renewed.value <= s.now)
    && forall id <- s.written :: WrittenInv(s, id, slack)
  }

  predicate WrittenInv(s: State, id: string, slack: Time)
    requires id in s.written
  {
    && s.written[id] <= s.now
    && WholeUnless(slack, s.written[id])
    && (if Holds(s.lease, id) then s.lease.value.renewed == Some(s.written[id])
        else id in s.lost && s.written[id] + LEASE_DURATION - slack <= s.lost[id] <= s.now)
  }

  /** A write in flight; `live` ones would still be accepted. */
  predicate WriteInv(s: State, w: Write, limit: Time, slack: Time) {
    && w.serial < s.serial
    && w.began <= w.decided <= s.now
    && w.decided <= w.began + limit
    && WholeUnless(slack, w.began)
    && (w.over.Some? && s.lease.Some? ==> w.over.value <= s.lease.value.version)
    && (w.over.Some? ==> s.lease.Some?)
    && (Accepted(s, w) ==>
          && Draft(s.lease, w.author, w.began, w.decided) == Some(w.draft)
          && (w.author in s.written ==> s.written[w.author] <= w.began)
          && (Holds(s.lease, w.author) && s.lease.value.renewed.Some? ==> s.lease.value.renewed.value <= w.began))
  }

  predicate ProcessInv(s: State, id: string, limit: Time, slack: Time)
    requires id in s.procs && s.procs[id].Up?
  {
    var p := s.procs[id];
    && (p.leader ==>
          && id in s.written && p.acked <= s.written[id]
          && p.lastRenewed <= p.acked + limit)
    && (InAttempt(p) ==> AttemptInv(s, id, limit, slack))
    && (p.stage.Sleeping? ==> s.now <= p.stage.wake <= s.now + RENEW_INTERVAL)
    && (p.leader && !Holds(s.lease, id) ==> id in s.lost && Departing(p, s.lost[id], limit, slack))
  }

  predicate AttemptInv(s: State, id: string, limit: Time, slack: Time)
    requires id in s.procs && InAttempt(s.procs[id])
  {
    var stage := s.procs[id].stage;
    && stage.began <= s.now <= stage.began + limit
    && WholeUnless(slack, stage.began)
    && (id in s.written ==> s.written[id] <= stage.began)
    && (Holds(s.lease, id) && s.lease.value.renewed.Some? ==> s.lease.value.renewed.value <= stage.began)
    && (forall w <- s.sent :: w.author == id ==> w.began <= stage.began)
    && (stage.Deciding? && stage.seen.Some? ==>
          s.lease.Some? && stage.seen.value.version <= s.lease.value.version)
    && (stage.Deciding? && SameVersion(stage.seen, s.lease) ==> stage.seen == s.lease)
    && (stage.Writing? ==> stage.serial < s.serial)
    && (stage.Writing? ==> forall w <- s.sent :: w.author == id && w.serial == stage.serial ==> w.began == stage.began)
    && (stage.Writing? && stage.answer == Some(true) ==> id in s.written && stage.began <= s.written[id])
  }

  predicate SameVersion(a: Option<Lease>, b: Option<Lease>) {
    (a.None? && b.None?) || (a.Some? && b.Some? && a.value.version == b.value.version)
  }

  /** A leader that lost the lease at `lost` is on its way out. */
  predicate Departing(p: Process, lost: Time, limit: Time, slack: Time)
    requires p.Up?
  {
    (if p.stage.Sleeping? then p.stage.wake else p.stage.began) < lost + RENEW_INTERVAL + limit + slack
  }

  predicate Inv(s: State, limit: Time, slack: Time) {
    && limit > 0
    && Sane(s, slack)
    && LeaseInv(s, slack)
    && (forall w <- s.sent :: WriteInv(s, w, limit, slack))
    && (forall id <- s.procs :: s.procs[id].Up? ==> ProcessInv(s, id, limit, slack))
  }

  lemma InitialInv(s: State, limit: Time, slack: Time)
    requires Initial(s) && limit > 0 && Sane(s, slack)
    ensures Inv(s, limit, slack)
  {
  }

  lemma TickKeepsInv(s: State, to: Time, limit: Time, slack: Time)
    requires Inv(s, limit, slack) && Enabled(s, Tick(to), limit) && Sane(s.(now := to), slack)
    ensures Inv(s.(now := to), limit, slack)
  {
    var t := s.(now := to);
    forall id | id in t.procs && t.procs[id].Up? ensures ProcessInv(t, id, limit, slack) {
      assert ProcessInv(s, id, limit, slack);
      assert MayWait(s.procs[id], to, limit);
    }
    forall w | w in t.sent ensures WriteInv(t, w, limit, slack) { assert WriteInv(s, w, limit, slack); }
    forall id | id in t.written ensures WrittenInv(t, id, slack) { assert WrittenInv(s, id, slack); }
  }

  /** A step that only replaces one process, the lease and the writes in flight staying as they are. */
  lemma PutKeepsInv(s: State, id: string, p: Process, limit: Time, slack: Time)
    requires Inv(s, limit, slack)
    requires p.Up? ==> ProcessInv(Put(s, id, p), id, limit, slack)
    ensures Inv(Put(s, id, p), limit, slack)
  {
    var t := Put(s, id, p);
    forall q | q in t.procs && t.procs[q].Up? ensures ProcessInv(t, q, limit, slack) {
      if q != id { assert ProcessInv(s, q, limit, slack); }
    }
    forall w | w in t.sent ensures WriteInv(t, w, limit, slack) { assert WriteInv(s, w, limit, slack); }
    forall q | q in t.written ensures WrittenInv(t, q, slack) { assert WrittenInv(s, q, slack); }
  }

  lemma SettleKeepsInv(s: State, id: string, result: Option<bool>, limit: Time, slack: Time)
    requires Inv(s, limit, slack) && Running(s, id) && InAttempt(s.procs[id])
    requires result == Some(true) ==> s.procs[id].stage.Writing? && s.procs[id].stage.answer == Some(true)
    ensures Inv(Put(s, id, Settle(s.procs[id], s.procs[id].stage.began, s.now, result)), limit, slack)
  {
    var p := s.procs[id];
    assert ProcessInv(s, id, limit, slack);
    if id in s.written { assert WrittenInv(s, id, slack); }
    PutKeepsInv(s, id, Settle(p, p.stage.began, s.now, result), limit, slack);
  }

  lemma DecideKeepsInv(s: State, id: string, limit: Time, slack: Time)
    requires Inv(s, limit, slack) && Enabled(s, Decide(id), limit)
    ensures Inv(AfterDecision(s, id), limit, slack)
  {
    var p := s.procs[id];
    assert ProcessInv(s, id, limit, slack);
    match Draft(p.stage.seen, id, p.stage.began, s.now)
    case None => SettleKeepsInv(s, id, Some(false), limit, slack);
    case Some(draft) =>
      var t := AfterDecision(s, id);
      forall w | w in t.sent ensures WriteInv(t, w, limit, slack) {
        if w in s.sent { assert WriteInv(s, w, limit, slack); }
      }
      forall q | q in t.procs && t.procs[q].Up? ensures ProcessInv(t, q, limit, slack) {
        DecideKeepsProcess(s, id, q, limit, slack);
      }
      forall q | q in t.written ensures WrittenInv(t, q, slack) { assert WrittenInv(s, q, slack); }
  }

  lemma DecideKeepsProcess(s: State, id: string, q: string, limit: Time, slack: Time)
    requires Inv(s, limit, slack) && Enabled(s, Decide(id), limit) && Running(s, q)
    requires Draft(s.procs[id].stage.seen, id, s.procs[id].stage.began, s.now).Some?
    ensures Running(AfterDecision(s, id), q) && ProcessInv(AfterDecision(s, id), q, limit, slack)
  {
    assert ProcessInv(s, q, limit, slack);
    assert forall w <- s.sent :: WriteInv(s, w, limit, slack) ==> w.serial < s.serial;
  }

  lemma RemoveKeepsInv(s: State, w: Write, limit: Time, slack: Time)
    requires Inv(s, limit, slack)
    ensures Inv(s.(sent := s.sent - {w}), limit, slack)
  {
    var t := s.(sent := s.sent - {w});
    forall q | q in t.procs && t.procs[q].Up? ensures ProcessInv(t, q, limit, slack) { assert ProcessInv(s, q, limit, slack); }
    forall x | x in t.sent ensures WriteInv(t, x, limit, slack) { assert WriteInv(s, x, limit, slack); }
    forall q | q in t.written ensures WrittenInv(t, q, slack) { assert WrittenInv(s, q, slack); }
  }

  lemma RefusedKeepsInv(s: State, w: Write, limit: Time, slack: Time)
    requires Inv(s, limit, slack) && w in s.sent && !Accepted(s, w)
    ensures Inv(AfterDelivery(s, w), limit, slack)
  {
    var rest := s.(sent := s.sent - {w});
    RemoveKeepsInv(s, w, limit, slack);
    if Running(rest, w.author) {
      assert ProcessInv(rest, w.author, limit, slack);
      if rest.procs[w.author].stage.Writing? && rest.procs[w.author].stage.serial == w.serial {
        PutKeepsInv(rest, w.author,
                    rest.procs[w.author].(stage := rest.procs[w.author].stage.(answer := Some(false))), limit, slack);
      }
    }
  }

  /** The accepted write found the lease as its author saw it, so its expiry check still counts. */
  lemma TakenFrom(s: State, w: Write, id: string, limit: Time, slack: Time)
    requires Inv(s, limit, slack) && w in s.sent && Accepted(s, w)
    requires id in s.written && Holds(s.lease, id) && id != w.author
    ensures s.written[id] + LEASE_DURATION - slack <= s.now
  {
    assert WriteInv(s, w, limit, slack);
    assert WrittenInv(s, id, slack);
    assert Expired(s.lease.value.renewed, w.decided);
  }

  lemma AcceptedKeepsLease(s: State, w: Write, limit: Time, slack: Time)
    requires Inv(s, limit, slack) && w in s.sent && Accepted(s, w)
    ensures LeaseInv(AfterDelivery(s, w), slack)
  {
    var t := AfterDelivery(s, w);
    assert WriteInv(s, w, limit, slack);
    forall id | id in t.written ensures WrittenInv(t, id, slack) {
      if id in s.written { assert WrittenInv(s, id, slack); }
      if id != w.author && Holds(s.lease, id) { TakenFrom(s, w, id, limit, slack); }
    }
  }

  lemma AcceptedKeepsWrites(s: State, w: Write, x: Write, limit: Time, slack: Time)
    requires Inv(s, limit, slack) && w in s.sent && Accepted(s, w) && x in s.sent
    ensures WriteInv(AfterDelivery(s, w), x, limit, slack)
  {
    assert WriteInv(s, w, limit, slack);
    assert WriteInv(s, x, limit, slack);
  }

  lemma AcceptedKeepsAttempt(s: State, w: Write, id: string, limit: Time, slack: Time)
    requires Inv(s, limit, slack) && w in s.sent && Accepted(s, w) && Running(s, id) && InAttempt(s.procs[id])
    ensures Running(AfterDelivery(s, w), id) && InAttempt(AfterDelivery(s, w).procs[id])
    ensures AttemptInv(AfterDelivery(s, w), id, limit, slack)
  {
    var t := AfterDelivery(s, w);
    assert WriteInv(s, w, limit, slack);
    assert ProcessInv(s, id, limit, slack);
    assert t.sent <= s.sent;
    assert id != w.author ==> !Holds(t.lease, id);
  }

  lemma AcceptedKeepsDeparture(s: State, w: Write, id: string, limit: Time, slack: Time)
    requires Inv(s, limit, slack) && w in s.sent && Accepted(s, w) && Running(s, id)
    requires s.procs[id].leader && id != w.author
    ensures var t := AfterDelivery(s, w);
            t.procs[id] == s.procs[id] && id in t.lost && Departing(t.procs[id], t.lost[id], limit, slack)
  {
    assert ProcessInv(s, id, limit, slack);
    assert WriteInv(s, w, limit, slack);
    if !Holds(s.lease, id) { assert WrittenInv(s, id, slack); }
  }

  lemma AcceptedKeepsProcess(s: State, w: Write, id: string, limit: Time, slack: Time)
    requires Inv(s, limit, slack) && w in s.sent && Accepted(s, w) && Running(s, id)
    ensures Running(AfterDelivery(s, w), id) && ProcessInv(AfterDelivery(s, w), id, limit, slack)
  {
    assert WriteInv(s, w, limit, slack);
    assert ProcessInv(s, id, limit, slack);
    if InAttempt(s.procs[id]) { AcceptedKeepsAttempt(s, w, id, limit, slack); }
    if id != w.author && s.procs[id].leader { AcceptedKeepsDeparture(s, w, id, limit, slack); }
    if id in s.written { assert WrittenInv(s, id, slack); }
    assert id == w.author ==> Holds(AfterDelivery(s, w).lease, id);
  }

  lemma DeliverKeepsInv(s: State, w: Write, limit: Time, slack: Time)
    requires Inv(s, limit, slack) && w in s.sent
    ensures Inv(AfterDelivery(s, w), limit, slack)
  {
    if !Accepted(s, w) {
      RefusedKeepsInv(s, w, limit, slack);
    } else {
      var t := AfterDelivery(s, w);
      AcceptedKeepsLease(s, w, limit, slack);
      forall x | x in t.sent ensures WriteInv(t, x, limit, slack) { AcceptedKeepsWrites(s, w, x, limit, slack); }
      forall id | id in t.procs && t.procs[id].Up? ensures ProcessInv(t, id, limit, slack) {
        AcceptedKeepsProcess(s, w, id, limit, slack);
      }
    }
  }

  lemma StepKeepsInv(s: State, e: Event, limit: Time, slack: Time)
    requires Inv(s, limit, slack) && Enabled(s, e, limit) && Sane(Apply(s, e, limit), slack)
    ensures Inv(Apply(s, e, limit), limit, slack)
  {
    match e
    case Tick(to) => TickKeepsInv(s, to, limit, slack);
    case Start(id) =>
      if id in s.written { assert WrittenInv(s, id, slack); }
      assert forall w <- s.sent :: WriteInv(s, w, limit, slack);
      PutKeepsInv(s, id, Up(false, s.now, s.now, Reading(s.now)), limit, slack);
    case Kill(id) => PutKeepsInv(s, id, Down, limit, slack);
    case Wake(id) =>
      assert ProcessInv(s, id, limit, slack);
      if id in s.written { assert WrittenInv(s, id, slack); }
      assert forall w <- s.sent :: WriteInv(s, w, limit, slack);
      PutKeepsInv(s, id, s.procs[id].(stage := Reading(s.now)), limit, slack);
    case Read(id) =>
      assert ProcessInv(s, id, limit, slack);
      PutKeepsInv(s, id, s.procs[id].(stage := Deciding(s.procs[id].stage.began, s.lease)), limit, slack);
    case Decide(id) => DecideKeepsInv(s, id, limit, slack);
    case Deliver(w) => DeliverKeepsInv(s, w, limit, slack);
    case Drop(w) => RemoveKeepsInv(s, w, limit, slack);
    case Answer(id) =>
      assert ProcessInv(s, id, limit, slack);
      SettleKeepsInv(s, id, s.procs[id].stage.answer, limit, slack);
    case Fail(id) => SettleKeepsInv(s, id, None, limit, slack);
  }

  lemma {:induction false} RunKeepsInv(run: seq<State>, limit: Time, slack: Time)
    requires IsRun(run, limit) && Initial(run[0]) && limit > 0
    requires forall s <- run :: Sane(s, slack)
    ensures forall s <- run :: Inv(s, limit, slack)
  {
    for i := 0 to |run|
      invariant forall j :: 0 <= j < i ==> Inv(run[j], limit, slack)
    {
      if i == 0 {
        InitialInv(run[0], limit, slack);
      } else {
        assert IsStep(run[i - 1], run[i], limit);
        var e :| Enabled(run[i - 1], e, limit) && run[i] == Apply(run[i - 1], e, limit);
        StepKeepsInv(run[i - 1], e, limit, slack);
      }
    }
  }

  // ------------------------------------------------------------- main results

  predicate StaleLeader(s: State, id: string) {
    Running(s, id) && s.procs[id].leader && !Holds(s.lease, id)
  }

  /** Losing the lease needs having it: until then the instant of the last loss stands. */
  lemma {:induction false} LossStands(run: seq<State>, j: nat, k: nat, id: string, limit: Time)
    requires IsRun(run, limit) && j <= k < |run|
    requires forall i :: j <= i <= k ==> StaleLeader(run[i], id)
    requires id in run[j].lost
    ensures id in run[k].lost && run[k].lost[id] == run[j].lost[id]
    decreases k - j
  {
    if j < k {
      LossStands(run, j, k - 1, id, limit);
      assert IsStep(run[k - 1], run[k], limit);
      assert StaleLeader(run[k - 1], id);
    }
  }

  /**
   No process goes on acting as leader without holding the lease for
   RENEW_INTERVAL plus two attempts, up to the sub-millisecond truncation of
   the expiry check, whichever requests and answers are lost or late.
   */
  lemma StaleLeadershipBounded(run: seq<State>, j: nat, k: nat, id: string, limit: Time, slack: Time)
    requires IsRun(run, limit) && Initial(run[0]) && limit > 0
    requires forall s <- run :: Sane(s, slack)
    requires j <= k < |run|
    requires forall i :: j <= i <= k ==> StaleLeader(run[i], id)
    ensures run[k].now - run[j].now < RENEW_INTERVAL + 2 * limit + slack
  {
    RunKeepsInv(run, limit, slack);
    assert StaleLeader(run[j], id) && StaleLeader(run[k], id);
    assert run[j] in run && run[k] in run;
    assert ProcessInv(run[j], id, limit, slack) && ProcessInv(run[k], id, limit, slack);
    assert WrittenInv(run[j], id, slack);
    LossStands(run, j, k, id, limit);
  }

  /** A run in which a process acts as leader without the lease, from state `j` to state `k`. */
  ghost predicate StaleFrom(run: seq<State>, j: nat, k: nat, id: string, limit: Time) {
    && IsRun(run, limit) && Initial(run[0]) && j <= k < |run|
    && forall i :: j <= i <= k ==> StaleLeader(run[i], id)
  }

  /** How long after its last confirmed renewal a leader's attempt starts: one, two or three intervals, and the attempts between. */
  predicate OnBeat(p: Process, limit: Time)
    requires p.Up?
  {
    var after := (if p.stage.Sleeping? then p.stage.wake else p.stage.began) - p.lastRenewed;
    || after == RENEW_INTERVAL
    || 2 * RENEW_INTERVAL <= after <= 2 * RENEW_INTERVAL + limit
    || 3 * RENEW_INTERVAL <= after <= 3 * RENEW_INTERVAL + 2 * limit
  }

  predicate LeadersOnBeat(s: State, limit: Time) {
    forall id <- s.procs :: Running(s, id) && s.procs[id].leader ==> OnBeat(s.procs[id], limit)
  }

  lemma SettleKeepsBeat(s: State, id: string, limit: Time, slack: Time, result: Option<bool>)
    requires Inv(s, limit, slack) && LeadersOnBeat(s, limit) && Running(s, id) && InAttempt(s.procs[id])
    ensures var p := Settle(s.procs[id], s.procs[id].stage.began, s.now, result);
            p.Up? && p.leader ==> OnBeat(p, limit)
  {
    assert ProcessInv(s, id, limit, slack);
  }

  lemma PutKeepsBeat(s: State, id: string, p: Process, limit: Time)
    requires LeadersOnBeat(s, limit) && (p.Up? && p.leader ==> OnBeat(p, limit))
    ensures LeadersOnBeat(Put(s, id, p), limit)
  {
  }

  /** An answer under way changes nobody's beat. */
  lemma DeliveryKeepsBeat(s: State, w: Write, limit: Time)
    requires LeadersOnBeat(s, limit)
    ensures LeadersOnBeat(AfterDelivery(s, w), limit)
  {
    var id := w.author;
    if Running(s, id) && s.procs[id].stage.Writing? && s.procs[id].stage.serial == w.serial {
      var p := s.procs[id].(stage := s.procs[id].stage.(answer := Some(Accepted(s, w))));
      PutKeepsBeat(s, id, p, limit);
      assert AfterDelivery(s, w).procs == Put(s, id, p).procs;
    } else {
      assert AfterDelivery(s, w).procs == s.procs;
    }
  }

  lemma DecisionKeepsBeat(s: State, id: string, limit: Time, slack: Time)
    requires Inv(s, limit, slack) && LeadersOnBeat(s, limit) && Enabled(s, Decide(id), limit)
    ensures LeadersOnBeat(AfterDecision(s, id), limit)
  {
    hide Inv;
    var p := s.procs[id];
    match Draft(p.stage.seen, id, p.stage.began, s.now)
    case None =>
      SettleKeepsBeat(s, id, limit, slack, Some(false));
      PutKeepsBeat(s, id, Settle(p, p.stage.began, s.now, Some(false)), limit);
    case Some(_) =>
      PutKeepsBeat(s, id, p.(stage := Writing(p.stage.began, s.serial, None)), limit);
  }

  lemma StepKeepsBeat(s: State, e: Event, limit: Time, slack: Time)
    requires Inv(s, limit, slack) && LeadersOnBeat(s, limit) && Enabled(s, e, limit)
    ensures LeadersOnBeat(Apply(s, e, limit), limit)
  {
    hide Inv, AfterDecision, AfterDelivery;
    match e
    case Decide(id) => DecisionKeepsBeat(s, id, limit, slack);
    case Deliver(w) => DeliveryKeepsBeat(s, w, limit);
    case Answer(id) => SettleKeepsBeat(s, id, limit, slack, s.procs[id].stage.answer);
    case Fail(id) => SettleKeepsBeat(s, id, limit, slack, None);
    case _ =>
  }

  lemma {:induction false} RunKeepsBeat(run: seq<State>, limit: Time)
    requires IsRun(run, limit) && Initial(run[0]) && limit > 0
    ensures forall s <- run :: LeadersOnBeat(s, limit)
  {
    RunKeepsInv(run, limit, TRUNCATION);
    for i := 0 to |run|
      invariant forall j :: 0 <= j < i ==> LeadersOnBeat(run[j], limit)
    {
      if i > 0 {
        assert run[i - 1] in run && IsStep(run[i - 1], run[i], limit);
        var e :| Enabled(run[i - 1], e, limit) && run[i] == Apply(run[i - 1], e, limit);
        StepKeepsBeat(run[i - 1], e, limit, TRUNCATION);
      }
    }
  }

  /** With attempts that short, the beat leaves no room for the truncation. */
  lemma StaleLeadershipWithin(run: seq<State>, j: nat, k: nat, id: string, limit: Time)
    requires limit > 0 && StaleFrom(run, j, k, id, limit)
    requires 2 * limit <= LEASE_DURATION - 2 * RENEW_INTERVAL - MILLISECOND
    ensures run[k].now - run[j].now < RENEW_INTERVAL + 2 * limit
  {
    RunKeepsInv(run, limit, TRUNCATION);
    RunKeepsBeat(run, limit);
    assert StaleLeader(run[j], id) && StaleLeader(run[k], id);
    assert run[j] in run && run[k] in run;
    assert ProcessInv(run[j], id, limit, TRUNCATION) && ProcessInv(run[k], id, limit, TRUNCATION);
    assert WrittenInv(run[j], id, TRUNCATION) && WrittenInv(run[k], id, TRUNCATION);
    LossStands(run, j, k, id, limit);
    assert OnBeat(run[k].procs[id], limit);
  }

  /** No process acts as leader without the lease for RENEW_INTERVAL plus two attempts. */
  ghost predicate LeavesInTime(limit: Time) {
    forall run: seq<State>, j: nat, k: nat, id: string :: StaleFrom(run, j, k, id, limit) ==>
      run[k].now - run[j].now < RENEW_INTERVAL + 2 * limit
  }

  /**
   The bound without the truncation holds over all runs if and only if two
   attempts fit into what the lease leaves beside two intervals, less a millisecond.
   */
  lemma LeavesInTimeExactlyWhen(limit: Time)
    requires limit > 0
    ensures LeavesInTime(limit) <==> 2 * limit <= LEASE_DURATION - 2 * RENEW_INTERVAL - MILLISECOND
  {
    if 2 * limit <= LEASE_DURATION - 2 * RENEW_INTERVAL - MILLISECOND {
      forall run: seq<State>, j: nat, k: nat, id: string | StaleFrom(run, j, k, id, limit)
        ensures run[k].now - run[j].now < RENEW_INTERVAL + 2 * limit
      {
        StaleLeadershipWithin(run, j, k, id, limit);
      }
    } else {
      var run, j := TruncationDelaysDeparture(limit);
      assert StaleFrom(run, j, |run| - 1, "p", limit);
    }
  }

  /** Steps at which an existing lease passes to another holder. */
  function HolderChanges(run: seq<State>): nat {
    if |run| < 2 then 0
    else
      var before, after := run[|run| - 2].lease, run[|run| - 1].lease;
      HolderChanges(run[..|run| - 1])
      + if before.Some? && after.Some? && before.value.holder != after.value.holder then 1 else 0
  }

  lemma StepCountsChange(s: State, e: Event, limit: Time, slack: Time)
    requires Inv(s, limit, slack) && Enabled(s, e, limit)
    ensures var t := Apply(s, e, limit);
            t.origin == s.origin && t.changes == s.changes +
              if s.lease.Some? && t.lease.Some? && s.lease.value.holder != t.lease.value.holder then 1 else 0
  {
    match e
    case Deliver(w) => assert WriteInv(s, w, limit, slack);
    case _ =>
  }

  lemma {:induction false} ChangesCounted(run: seq<State>, limit: Time)
    requires IsRun(run, limit) && Initial(run[0]) && limit > 0
    ensures run[|run| - 1].changes == HolderChanges(run) && run[|run| - 1].origin == run[0].origin
  {
    if |run| > 1 {
      var shorter := run[..|run| - 1];
      forall i | 0 <= i < |shorter| - 1 ensures IsStep(shorter[i], shorter[i + 1], limit) {
        assert IsStep(run[i], run[i + 1], limit);
      }
      ChangesCounted(shorter, limit);
      RunKeepsInv(shorter, limit, TRUNCATION);
      assert IsStep(run[|run| - 2], run[|run| - 1], limit);
      var e :| Enabled(run[|run| - 2], e, limit) && run[|run| - 1] == Apply(run[|run| - 2], e, limit);
      StepCountsChange(run[|run| - 2], e, limit, TRUNCATION);
    }
  }

  /** leaseTransitions grows by exactly one each time the lease changes hands. */
  lemma TransitionsCountHolderChanges(run: seq<State>, limit: Time)
    requires IsRun(run, limit) && Initial(run[0]) && limit > 0 && run[|run| - 1].lease.Some?
    ensures run[|run| - 1].lease.value.transitions.GetOr(0) ==
            (if run[0].lease.Some? then run[0].lease.value.transitions.GetOr(0) else 0) + HolderChanges(run)
  {
    ChangesCounted(run, limit);
    RunKeepsInv(run, limit, TRUNCATION);
    assert run[|run| - 1] in run;
  }

  /**
   What a step can do to the stored lease: nothing, or it is created, renewed by
   its holder or taken over once expired. A renewal keeps acquireTime; a new
   holder's acquireTime and renewTime are the start of the attempt that took it.
   Renewals by others, and takeovers of a lease that is not expired, do not happen.
   */
  lemma LeaseChangesHands(s: State, e: Event, limit: Time, slack: Time)
    requires Inv(s, limit, slack) && Enabled(s, e, limit)
    ensures var t := Apply(s, e, limit);
            t.lease != s.lease ==>
              && e.Deliver? && t.lease.Some? && t.lease.value.holder == Some(e.write.author)
              && t.lease.value.renewed == Some(e.write.began)
              && if s.lease.Some? && s.lease.value.holder == Some(e.write.author) then
                   t.lease.value.acquired == s.lease.value.acquired
                 else
                   && t.lease.value.acquired == Some(e.write.began)
                   && (s.lease.Some? && s.lease.value.renewed.Some? ==>
                         e.write.decided / 1000 - s.lease.value.renewed.value / 1000 >= 15000)
  {
    match e
    case Deliver(w) => assert WriteInv(s, w, limit, slack);
    case _ =>
  }

  /**
   A step turns renewTime back only by accepting a takeover whose read, from its
   timestamp to its expiry check, took longer than the lease less the truncation.
   */
  lemma RenewTimeNeverGoesBack(run: seq<State>, i: nat, limit: Time)
    requires IsRun(run, limit) && Initial(run[0]) && limit > 0
    requires i + 1 < |run| && run[i].lease.Some? && run[i].lease.value.renewed.Some?
    requires forall w <- run[i].sent :: w.decided - w.began <= LEASE_DURATION - TRUNCATION
    ensures run[i + 1].lease.Some? && run[i + 1].lease.value.renewed.Some?
    ensures run[i].lease.value.renewed.value <= run[i + 1].lease.value.renewed.value
  {
    RunKeepsInv(run, limit, TRUNCATION);
    var s := run[i];
    assert s in run && Inv(s, limit, TRUNCATION);
    assert IsStep(run[i], run[i + 1], limit);
    var e :| Enabled(s, e, limit) && run[i + 1] == Apply(s, e, limit);
    if e.Deliver? {
      assert WriteInv(s, e.write, limit, TRUNCATION);
      if Accepted(s, e.write) && !Holds(s.lease, e.write.author) {
        assert Expired(s.lease.value.renewed, e.write.decided);
      }
    }
  }

  /** The reads of the run, from the timestamp taken before them to the expiry check after, take at most `bound`. */
  predicate ReadsWithin(run: seq<State>, bound: Time) {
    forall i :: 0 <= i < |run| ==> forall w <- run[i].sent :: w.decided - w.began <= bound
  }

  predicate RenewTimeAdvances(run: seq<State>) {
    forall i :: 0 <= i < |run| - 1 && run[i].lease.Some? && run[i].lease.value.renewed.Some? ==>
      && run[i + 1].lease.Some? && run[i + 1].lease.value.renewed.Some?
      && run[i].lease.value.renewed.value <= run[i + 1].lease.value.renewed.value
  }

  /**
   renewTime never goes back, in any run with attempts of at most `limit` and
   reads of at most `bound`, if and only if one of the two is no longer than the
   lease less the truncation.
   */
  lemma RenewTimeAdvancesExactlyWhen(limit: Time, bound: Time)
    requires limit > 0
    ensures (forall run :: IsRun(run, limit) && Initial(run[0]) && ReadsWithin(run, bound) ==> RenewTimeAdvances(run))
            <==> Min(limit, bound) <= LEASE_DURATION - TRUNCATION
  {
    if Min(limit, bound) <= LEASE_DURATION - TRUNCATION {
      forall run | IsRun(run, limit) && Initial(run[0]) && ReadsWithin(run, bound) ensures RenewTimeAdvances(run) {
        ShortReadsAdvance(run, limit, bound);
      }
    } else {
      var run := SlowReadTurnsRenewTimeBack(limit, bound);
      assert !RenewTimeAdvances(run) by { assert run[|run| - 2].lease.value.renewed == Some(999); }
    }
  }

  lemma ShortReadsAdvance(run: seq<State>, limit: Time, bound: Time)
    requires IsRun(run, limit) && Initial(run[0]) && limit > 0 && ReadsWithin(run, bound)
    requires Min(limit, bound) <= LEASE_DURATION - TRUNCATION
    ensures RenewTimeAdvances(run)
  {
    RunKeepsInv(run, limit, TRUNCATION);
    forall i | 0 <= i < |run| - 1 && run[i].lease.Some? && run[i].lease.value.renewed.Some?
      ensures run[i + 1].lease.Some? && run[i + 1].lease.value.renewed.Some?
      ensures run[i].lease.value.renewed.value <= run[i + 1].lease.value.renewed.value
    {
      forall w | w in run[i].sent ensures w.decided - w.began <= LEASE_DURATION - TRUNCATION {
        assert run[i] in run && WriteInv(run[i], w, limit, TRUNCATION);
      }
      RenewTimeNeverGoesBack(run, i, limit);
    }
  }

  /** One step of a concrete run. */
  lemma Then(run: seq<State>, e: Event, limit: Time, next: State) returns (longer: seq<State>)
    requires IsRun(run, limit) && Enabled(run[|run| - 1], e, limit)
    requires Apply(run[|run| - 1], e, limit) == next
    ensures IsRun(longer, limit) && longer == run + [next]
  {
    longer := run + [next];
    forall i | 0 <= i < |longer| - 1 ensures IsStep(longer[i], longer[i + 1], limit) {
      if i < |run| - 1 {
        assert IsStep(run[i], run[i + 1], limit);
      }
    }
  }

  /** An attempt of a process that finds the lease its own or expired, from its read to the accepted write. */
  lemma Acquire(run: seq<State>, id: string, limit: Time) returns (longer: seq<State>)
    requires IsRun(run, limit)
    requires var s := run[|run| - 1]; Running(s, id) && s.procs[id].stage.Reading? && s.sent == {}
    requires var s := run[|run| - 1]; Draft(s.lease, id, s.procs[id].stage.began, s.now).Some?
    ensures IsRun(longer, limit) && |longer| == |run| + 3 && longer[..|run|] == run
    ensures var s, t := run[|run| - 1], longer[|longer| - 1];
            var p := s.procs[id];
            var draft := Draft(s.lease, id, p.stage.began, s.now).value;
            var moved := s.lease.Some? && s.lease.value.holder != Some(id);
            && t.lease == Some(draft.(version := if s.lease.None? then 1 else s.lease.value.version + 1))
            && t.sent == {} && t.now == s.now
            && t.procs == s.procs[id := p.(stage := Writing(p.stage.began, s.serial, Some(true)))]
            && (forall i :: |run| <= i < |longer| - 1 ==> longer[i].lease == s.lease)
            && (forall i :: |run| <= i < |longer| ==> forall w <- longer[i].sent :: w.decided - w.began == s.now - p.stage.began)
  {
    var s := run[|run| - 1];
    var p := s.procs[id];
    var s1 := Apply(s, Read(id), limit);
    longer := Then(run, Read(id), limit, s1);
    var s2 := Apply(s1, Decide(id), limit);
    longer := Then(longer, Decide(id), limit, s2);
    var over := if s.lease.None? then None else Some(s.lease.value.version);
    var w := Write(id, s.serial, p.stage.began, s.now, over, Draft(s.lease, id, p.stage.began, s.now).value);
    assert s2.sent == {w};
    longer := Then(longer, Deliver(w), limit, Apply(s2, Deliver(w), limit));
  }

  /** q's attempt begins at 998, p renews at 999, and q still has not read. */
  lemma RenewDuringRead(limit: Time, bound: Time) returns (run: seq<State>)
    requires limit > LEASE_DURATION - TRUNCATION && bound > LEASE_DURATION - TRUNCATION
    ensures IsRun(run, limit) && Initial(run[0]) && ReadsWithin(run, bound)
    ensures var t := run[|run| - 1];
      && t.now == 999 && t.sent == {}
      && t.lease == Some(Lease(8, Some("p"), None, Some(999), Some(3)))
      && t.procs == map["q" := Up(false, 998, 998, Reading(998)), "p" := Down]
  {
    var s := State(998, Some(Lease(7, Some("p"), None, Some(0), Some(3))), map[], {}, 0, map[], map[], 0, 3);
    run := [s];
    s := Put(s, "q", Up(false, 998, 998, Reading(998)));
    run := Then(run, Start("q"), limit, s);
    s := s.(now := 999);
    run := Then(run, Tick(999), limit, s);
    s := Put(s, "p", Up(false, 999, 999, Reading(999)));
    run := Then(run, Start("p"), limit, s);
    assert forall i :: 0 <= i < |run| ==> run[i].sent == {};
    var before := run;
    run := Acquire(run, "p", limit);
    assert forall i :: 0 <= i < |before| ==> run[i] == before[i];
    s := Put(run[|run| - 1], "p", Down);
    run := Then(run, Kill("p"), limit, s);
    assert s.procs == map["q" := Up(false, 998, 998, Reading(998)), "p" := Down];
  }

  /**
   Beyond that bound, a read just longer lets a takeover write an older renewTime
   over a newer one: begun at 998, decided at the end of the fifteenth second.
   */
  lemma SlowReadTurnsRenewTimeBack(limit: Time, bound: Time) returns (run: seq<State>)
    requires limit > LEASE_DURATION - TRUNCATION && bound > LEASE_DURATION - TRUNCATION
    ensures IsRun(run, limit) && Initial(run[0]) && ReadsWithin(run, bound)
    ensures |run| > 1 && run[|run| - 2].lease.Some? && run[|run| - 1].lease.Some?
    ensures run[|run| - 2].lease.value.renewed == Some(999) && run[|run| - 1].lease.value.renewed == Some(998)
  {
    run := RenewDuringRead(limit, bound);
    var s := run[|run| - 1].(now := LEASE_DURATION);
    run := Then(run, Tick(LEASE_DURATION), limit, s);
    var before := run;
    assert ReadsWithin(before, bound);
    run := Acquire(run, "q", limit);
    assert forall i :: 0 <= i < |before| ==> run[i] == before[i];
  }

  const RENEWED: Time := 10_000_999
  const TAKEOVER: Time := 25_000_000

  /**
   p leads and renewed its lease at RENEWED; unless q took it over at TAKEOVER, in
   state `taken` of the run, and p has been stale since.
   */
  ghost predicate Tracks(run: seq<State>, taken: nat, limit: Time) {
    && IsRun(run, limit) && Initial(run[0])
    && var s := run[|run| - 1];
       && s.sent == {} && Running(s, "p") && s.procs["p"].leader
       && (forall id <- s.procs :: id != "p" ==> s.procs[id].Down?)
       && if taken == 0 then s.now <= TAKEOVER && Holds(s.lease, "p") && s.lease.value.renewed == Some(RENEWED)
          else taken < |run| && run[taken].now == TAKEOVER && forall i :: taken <= i < |run| ==> StaleLeader(run[i], "p")
  }

  /** p acquires the lease an interval before RENEWED and begins its next attempt then. */
  lemma LeadsEarly(limit: Time) returns (run: seq<State>)
    requires limit > 0
    ensures IsRun(run, limit) && Initial(run[0])
    ensures var s, start := run[|run| - 1], RENEWED - RENEW_INTERVAL;
            && s.now == RENEWED && s.sent == {} && Holds(s.lease, "p")
            && s.procs == map["p" := Up(true, start, start, Reading(RENEWED))]
  {
    var start := RENEWED - RENEW_INTERVAL;
    var s := State(start, None, map[], {}, 0, map[], map[], 0, 0);
    run := [s];
    s := Apply(s, Start("p"), limit);
    run := Then(run, Start("p"), limit, s);
    run := Acquire(run, "p", limit);
    s := Put(run[|run| - 1], "p", Up(true, start, start, Sleeping(RENEWED)));
    run := Then(run, Answer("p"), limit, s);
    s := s.(now := RENEWED);
    run := Then(run, Tick(RENEWED), limit, s);
    s := Put(s, "p", Up(true, start, start, Reading(RENEWED)));
    run := Then(run, Wake("p"), limit, s);
    assert s.procs == map["p" := Up(true, start, start, Reading(RENEWED))];
  }

  /** p leads and renews at RENEWED, but has not heard of it. */
  lemma RenewsUnheard(limit: Time) returns (run: seq<State>)
    requires limit > 0
    ensures Tracks(run, 0, limit)
    ensures var s := run[|run| - 1];
            && s.now == RENEWED && s.procs["p"].stage.Writing?
            && s.procs["p"].stage.began == RENEWED && s.procs["p"].stage.answer == Some(true)
  {
    var before := LeadsEarly(limit);
    run := Acquire(before, "p", limit);
    assert run[0] == before[0];
  }

  /** Time passes. */
  lemma TickOn(run: seq<State>, taken: nat, limit: Time, to: Time) returns (longer: seq<State>)
    requires Tracks(run, taken, limit)
    requires var s := run[|run| - 1]; s.now <= to && MayWait(s.procs["p"], to, limit) && (taken == 0 ==> to <= TAKEOVER)
    ensures Tracks(longer, taken, limit) && longer[|longer| - 1] == run[|run| - 1].(now := to)
  {
    longer := Then(run, Tick(to), limit, run[|run| - 1].(now := to));
    assert forall i :: 0 <= i < |run| ==> longer[i] == run[i];
  }

  /** At its time, q starts, finds the lease expired and takes it. */
  lemma TakesOver(run: seq<State>, limit: Time) returns (longer: seq<State>, taken: nat)
    requires Tracks(run, 0, limit) && run[|run| - 1].now == TAKEOVER && limit > 0
    ensures Tracks(longer, taken, limit) && taken > 0
    ensures var s, t := run[|run| - 1], longer[|longer| - 1]; t.now == s.now && t.procs["p"] == s.procs["p"]
  {
    var before := run[|run| - 1];
    var s := Put(before, "q", Up(false, TAKEOVER, TAKEOVER, Reading(TAKEOVER)));
    longer := Then(run, Start("q"), limit, s);
    var first := longer[0];
    longer := Acquire(longer, "q", limit);
    taken := |longer| - 1;
    var at := longer[taken];
    assert StaleLeader(at, "p") && longer[0] == first;
    var was := longer;
    longer := Then(longer, Kill("q"), limit, Put(at, "q", Down));
    assert forall i :: 0 <= i < |was| ==> longer[i] == was[i];
  }

  /** Time passes, with the takeover when its time comes. */
  lemma LetPass(run: seq<State>, taken: nat, limit: Time, to: Time) returns (longer: seq<State>, after: nat)
    requires Tracks(run, taken, limit) && limit > 0
    requires var s := run[|run| - 1]; s.now <= to && MayWait(s.procs["p"], to, limit)
    ensures Tracks(longer, after, limit) && (to >= TAKEOVER ==> after > 0)
    ensures var s, t := run[|run| - 1], longer[|longer| - 1]; t.now == to && t.procs["p"] == s.procs["p"]
  {
    if taken == 0 && to >= TAKEOVER {
      longer := TickOn(run, 0, limit, TAKEOVER);
      longer, after := TakesOver(longer, limit);
      longer := TickOn(longer, after, limit, to);
    } else {
      after := taken;
      longer := TickOn(run, taken, limit, to);
    }
  }

  /** A step of p alone, which stays leader. */
  lemma Goes(run: seq<State>, taken: nat, limit: Time, e: Event, p: Process) returns (longer: seq<State>)
    requires Tracks(run, taken, limit) && p.Up? && p.leader
    requires var s := run[|run| - 1]; Enabled(s, e, limit) && Apply(s, e, limit) == Put(s, "p", p)
    ensures Tracks(longer, taken, limit) && longer[|longer| - 1] == Put(run[|run| - 1], "p", p)
  {
    longer := Then(run, e, limit, Put(run[|run| - 1], "p", p));
    assert forall i :: 0 <= i < |run| ==> longer[i] == run[i];
  }

  /** p sleeps out its interval, attempts to renew for `took`, and fails. */
  lemma FailsOnce(run: seq<State>, taken: nat, limit: Time, took: Time) returns (longer: seq<State>, after: nat)
    requires Tracks(run, taken, limit) && 0 <= took <= limit
    requires var s := run[|run| - 1]; var p := s.procs["p"];
      && limit > 0 && p.stage == Sleeping(s.now + RENEW_INTERVAL)
      && s.now + RENEW_INTERVAL + took - p.lastRenewed < LEASE_DURATION
    ensures Tracks(longer, after, limit)
    ensures var s, t := run[|run| - 1], longer[|longer| - 1];
            && t.now == s.now + RENEW_INTERVAL + took
            && t.procs["p"] == s.procs["p"].(stage := Sleeping(t.now + RENEW_INTERVAL))
  {
    var s := run[|run| - 1];
    var p, wake := s.procs["p"], s.now + RENEW_INTERVAL;
    longer, after := LetPass(run, taken, limit, wake);
    longer := Goes(longer, after, limit, Wake("p"), p.(stage := Reading(wake)));
    longer, after := LetPass(longer, after, limit, wake + took);
    longer := Goes(longer, after, limit, Fail("p"), p.(stage := Sleeping(wake + took + RENEW_INTERVAL)));
  }

  /**
   Beyond that bound the truncation shows: p hears of its renewal a whole attempt
   late, fails twice just short of giving up, and attempts once more, while q took
   the lease over in the millisecond in which it ran out.
   */
  lemma TruncationDelaysDeparture(limit: Time) returns (run: seq<State>, j: nat)
    requires 2 * limit > LEASE_DURATION - 2 * RENEW_INTERVAL - MILLISECOND
    ensures j < |run| && StaleFrom(run, j, |run| - 1, "p", limit)
    ensures run[|run| - 1].now - run[j].now
         == 2 * limit + TRUNCATION + Min(limit, 2_500_000) + Min(limit, 2_499_999) >= RENEW_INTERVAL + 2 * limit
  {
    run := RenewsUnheard(limit);
    var heard := RENEWED + limit;
    run, j := LetPass(run, 0, limit, heard);
    run := Goes(run, j, limit, Answer("p"), Up(true, heard, RENEWED, Sleeping(heard + RENEW_INTERVAL)));
    run, j := FailsOnce(run, j, limit, Min(limit, 2_500_000));
    run, j := FailsOnce(run, j, limit, Min(limit, 2_499_999));
    var p := run[|run| - 1].procs["p"];
    var wake := p.stage.wake;
    run, j := LetPass(run, j, limit, wake);
    run := Goes(run, j, limit, Wake("p"), p.(stage := Reading(wake)));
    run, j := LetPass(run, j, limit, wake + limit);
  }

  // ------------------------------------------------------------ the hold loop

  /** One turn of the loop: how long the attempt took and what it answered (None is an error). */
  datatype Turn = Turn(took: nat, result: Option<bool>)

  function EndOf(start: Time, turns: seq<Turn>, k: nat): Time
    requires k < |turns|
  {
    (if k == 0 then start else EndOf(start, turns, k - 1)) + RENEW_INTERVAL + turns[k].took
  }

  /** When leadership was last confirmed before turn `k` ends. */
  function LastRenewed(start: Time, turns: seq<Turn>, k: nat): Time
    requires k <= |turns|
  {
    if k == 0 then start
    else if turns[k - 1].result == Some(true) then EndOf(start, turns, k - 1)
    else LastRenewed(start, turns, k - 1)
  }

  predicate GivesUp(start: Time, turns: seq<Turn>, k: nat)
    requires k < |turns|
  {
    || turns[k].result == Some(false)
    || (turns[k].result == None && EndOf(start, turns, k) - LastRenewed(start, turns, k) >= LEASE_DURATION)
  }

  /** While no turn has given up, the last confirmation is less than a lease duration older than the turn. */
  lemma ConfirmedNotLongAgo(start: Time, turns: seq<Turn>, k: nat)
    requires k < |turns| && forall i :: 0 <= i < k ==> !GivesUp(start, turns, i)
    ensures EndOf(start, turns, k) - LastRenewed(start, turns, k) < LEASE_DURATION + RENEW_INTERVAL + turns[k].took
  {
    if k > 0 {
      assert !GivesUp(start, turns, k - 1);
      var r := turns[k - 1].result;
      assert r == None || (r.Some? && (r.value || r == Some(false)));
      assert LastRenewed(start, turns, k)
          == if turns[k - 1].result == Some(true) then EndOf(start, turns, k - 1) else LastRenewed(start, turns, k - 1);
    }
  }

  /** `Leadership::hold` returns at the first turn that gives up; None while the turns last. */
  method Hold(start: Time, turns: seq<Turn>) returns (exit: Option<nat>)
    ensures exit.Some? ==> exit.value < |turns| && GivesUp(start, turns, exit.value)
    ensures forall k :: 0 <= k < (if exit.Some? then exit.value else |turns|) ==> !GivesUp(start, turns, k)
  {
    var lastRenewed, now := start, start;
    for k := 0 to |turns|
      invariant now == if k == 0 then start else EndOf(start, turns, k - 1)
      invariant lastRenewed == LastRenewed(start, turns, k)
      invariant forall i :: 0 <= i < k ==> !GivesUp(start, turns, i)
    {
      now := now + RENEW_INTERVAL + turns[k].took;
      match turns[k].result
      case Some(true) => lastRenewed := now;
      case Some(false) => return Some(k);
      case None =>
        if now - lastRenewed >= LEASE_DURATION { return Some(k); }
    }
    exit := None;
  }

  /**
   A turn ends the leadership exactly if it finds another holder, or fails when
   the last turn that confirmed it, or the start, is a lease duration ago.
   */
  lemma LeavesExactlyWhen(start: Time, turns: seq<Turn>, k: nat, confirmed: nat)
    requires confirmed <= k < |turns| && forall i :: confirmed <= i < k ==> turns[i].result != Some(true)
    requires confirmed > 0 ==> turns[confirmed - 1].result == Some(true)
    ensures var since := if confirmed == 0 then start else EndOf(start, turns, confirmed - 1);
            GivesUp(start, turns, k) <==>
              turns[k].result == Some(false) || (turns[k].result == None && EndOf(start, turns, k) - since >= 15_000_000)
  {
    LastConfirmed(start, turns, k, confirmed);
  }

  lemma {:induction false} LastConfirmed(start: Time, turns: seq<Turn>, k: nat, confirmed: nat)
    requires confirmed <= k <= |turns| && forall i :: confirmed <= i < k ==> turns[i].result != Some(true)
    requires confirmed > 0 ==> turns[confirmed - 1].result == Some(true)
    ensures LastRenewed(start, turns, k) == if confirmed == 0 then start else EndOf(start, turns, confirmed - 1)
  {
    if k > confirmed { LastConfirmed(start, turns, k - 1, confirmed); }
  }

  /**
   A leader whose attempts all fail leaves at the first turn that ends a lease
   duration after its start: within a renew interval and that turn's attempt of
   it, and by the third turn at the latest.
   */
  lemma UnconfirmedLeaderLeaves(start: Time, turns: seq<Turn>, k: nat)
    requires k < |turns| && forall i :: 0 <= i <= k ==> turns[i].result == None
    ensures GivesUp(start, turns, k) <==> EndOf(start, turns, k) - start >= LEASE_DURATION
    ensures (forall i :: 0 <= i < k ==> !GivesUp(start, turns, i)) ==>
              EndOf(start, turns, k) < start + 15_000_000 + 5_000_000 + turns[k].took
    ensures k >= 2 ==> GivesUp(start, turns, k)
  {
    LastRenewedAtStart(start, turns, k);
    TurnsTakeTime(start, turns, k);
    if forall i :: 0 <= i < k ==> !GivesUp(start, turns, i) { ConfirmedNotLongAgo(start, turns, k); }
  }

  lemma {:induction false} TurnsTakeTime(start: Time, turns: seq<Turn>, k: nat)
    requires k < |turns|
    ensures EndOf(start, turns, k) >= start + (k + 1) * RENEW_INTERVAL
  {
    if k > 0 { TurnsTakeTime(start, turns, k - 1); }
  }

  lemma {:induction false} LastRenewedAtStart(start: Time, turns: seq<Turn>, k: nat)
    requires k <= |turns| && forall i :: 0 <= i < k ==> turns[i].result != Some(true)
    ensures LastRenewed(start, turns, k) == start
  {
    if k > 0 { LastRenewedAtStart(start, turns, k - 1); }
  }
}
