/**
 Snapshotting a suspended worker through GKE (src/snapshot/gke.rs): one trigger
 per pod, polled pass by pass until a snapshot is ready or there is no point in
 waiting. Instants are in seconds.
 */
module GkeSnapshots {
  import opened Basics
  import opened Pods
  import opened Planner
  import opened Cluster
  import opened Jobs

  const SNAPSHOT_GIVE_UP := 1800

  /** `snapshot` is what the trigger reports to have created; a failed trigger never fires again. */
  datatype Trigger = Trigger(created: int, snapshot: Option<string>, failed: bool)

  /** `ready` excludes a snapshot under deletion; `session` is its session label. */
  datatype Snapshot = Snapshot(session: Option<string>, created: Option<int>, ready: bool)

  /** Triggers are named after the session and the pod's UID. */
  datatype Store = Store(triggers: map<(string, nat), Trigger>, snapshots: map<string, Snapshot>)

  datatype Outcome = Ready | InProgress

  /** The worker pod as the pass sees it: `running` is phase Running and not under deletion. */
  datatype Worker = Worker(uid: nat, created: Option<int>, running: bool)

  /** A ready snapshot labelled with the session, not older than the pod. */
  predicate Durable(s: Store, session: string, pod: Worker, name: string) {
    && name in s.snapshots && s.snapshots[name].ready && s.snapshots[name].session == Some(session)
    && (pod.created.None? || (s.snapshots[name].created.Some? && s.snapshots[name].created.value >= pod.created.value))
  }

  predicate IsReady(s: Store, name: Option<string>) {
    name.Some? && name.value in s.snapshots && s.snapshots[name.value].ready
  }

  function Labelled(s: Store, name: string, session: string): Store
    requires name in s.snapshots
  {
    s.(snapshots := s.snapshots[name := s.snapshots[name].(session := Some(session))])
  }

  /** After the trigger was found: its snapshot, its failure, its age. */
  function Poll(s: Store, session: string, pod: Worker, now: int, faults: seq<Fault>): (r: (Store, Option<Outcome>))
    requires (session, pod.uid) in s.triggers
  {
    var trigger := s.triggers[(session, pod.uid)];
    var next := if trigger.snapshot.Some? then 3 else 2;
    if trigger.snapshot.Some? && FaultOf(faults, 2) != Works then (s, None)
    else if IsReady(s, trigger.snapshot) then
      (if FaultOf(faults, next) == Unsent then s else Labelled(s, trigger.snapshot.value, session),
       if FaultOf(faults, next) == Works then Some(Ready) else None)
    else if trigger.failed && pod.running then
      (if FaultOf(faults, next) == Unsent then s else s.(triggers := s.triggers - {(session, pod.uid)}),
       if FaultOf(faults, next) == Works then Some(InProgress) else None)
    else (s, Some(if trigger.failed || now - trigger.created >= SNAPSHOT_GIVE_UP then Ready else InProgress))
  }

  /** The store after the call and its answer; None is an error. */
  function OnSuspendOf(s: Store, session: string, pod: Worker, now: int, faults: seq<Fault>): (r: (Store, Option<Outcome>)) {
    var key := (session, pod.uid);
    if FaultOf(faults, 0) != Works then (s, None)
    else if exists name <- s.snapshots :: Durable(s, session, pod, name) then (s, Some(Ready))
    else if FaultOf(faults, 1) != Works then (s, None)
    else if key in s.triggers then Poll(s, session, pod, now, faults)
    else if !pod.running then (s, Some(Ready))
    else (if FaultOf(faults, 2) == Unsent then s else s.(triggers := s.triggers[key := Trigger(now, None, false)]),
          if FaultOf(faults, 2) == Works then Some(InProgress) else None)
  }

  /** A ready snapshot of this pod's cycle: labelled as such, or the one its trigger created. */
  predicate Good(s: Store, session: string, pod: Worker, name: string) {
    && name in s.snapshots && s.snapshots[name].ready
    && (Durable(s, session, pod, name)
        || ((session, pod.uid) in s.triggers && s.triggers[(session, pod.uid)].snapshot == Some(name)))
  }

  /** What a caller may rely on: a good snapshot is not put at risk or waited for, and a running pod is not given up early. */
  lemma OnSuspendPromises(s: Store, session: string, pod: Worker, now: int, faults: seq<Fault>)
    ensures var (after, r) := OnSuspendOf(s, session, pod, now, faults); var key := (session, pod.uid);
            && ((exists name <- s.snapshots :: Good(s, session, pod, name)) ==> after.triggers == s.triggers && r != Some(InProgress))
            && (r == Some(Ready) && pod.running ==>
                  || (exists name <- after.snapshots :: Good(after, session, pod, name))
                  || (key in after.triggers && now - after.triggers[key].created >= SNAPSHOT_GIVE_UP))
  {
    if good :| good in s.snapshots && Good(s, session, pod, good) {
      GoodSnapshotIsKept(s, session, pod, now, faults, good);
    }
    var key := (session, pod.uid);
    if key in s.triggers && IsReady(s, s.triggers[key].snapshot) {
      var name := s.triggers[key].snapshot.value;
      assert Good(s, session, pod, name);
    }
  }

  /** No call of this visit fails: at most four are made. */
  predicate AllWork(faults: seq<Fault>) { |faults| >= 4 && forall f <- faults :: f == Works }

  /** A ready snapshot labelled with the session that is not from before the pod. */
  predicate LabelledReady(s: Store, session: string, created: Option<int>) {
    exists name <- s.snapshots :: var found := s.snapshots[name];
      && found.ready && found.session == Some(session)
      && (created.Some? ==> found.created.Some? && created.value <= found.created.value)
  }

  /** The snapshot that the pod's trigger reports is there and ready. */
  predicate TriggeredReady(s: Store, key: (string, nat)) {
    && key in s.triggers && s.triggers[key].snapshot.Some?
    && var name := s.triggers[key].snapshot.value; name in s.snapshots && s.snapshots[name].ready
  }

  /**
   With its calls working, the call answers: Ready exactly when a snapshot of
   this cycle is ready or there is no point in waiting for one, because nothing
   can be checkpointed any more or the trigger is 30 minutes old.
   */
  lemma AnswersWhenCallsWork(s: Store, session: string, pod: Worker, now: int, faults: seq<Fault>)
    requires AllWork(faults)
    ensures var (after, r) := OnSuspendOf(s, session, pod, now, faults); var key := (session, pod.uid);
            && r.Some?
            && (r == Some(Ready) <==>
                  || LabelledReady(s, session, pod.created)
                  || TriggeredReady(s, key)
                  || (!pod.running && (key !in s.triggers || s.triggers[key].failed))
                  || (key in s.triggers && !s.triggers[key].failed && now - s.triggers[key].created >= 1800))
            && (r == Some(InProgress) && key !in s.triggers ==> after.triggers == s.triggers[key := Trigger(now, None, false)])
            && (r == Some(InProgress) && key in s.triggers ==>
                  after.triggers == if s.triggers[key].failed then s.triggers - {key} else s.triggers)
  {
    assert forall i :: 0 <= i < 4 ==> FaultOf(faults, i) == Works by { assert forall i :: 0 <= i < 4 ==> faults[i] in faults; }
    assert (exists name <- s.snapshots :: Durable(s, session, pod, name)) <==> LabelledReady(s, session, pod.created) by {
      assert forall name <- s.snapshots :: Durable(s, session, pod, name) <==>
               var found := s.snapshots[name];
               && found.ready && found.session == Some(session)
               && (pod.created.Some? ==> found.created.Some? && pod.created.value <= found.created.value);
    }
  }

  /**
   Whichever calls fail, Ready for a session with a ready snapshot of this cycle
   means that a ready snapshot carries its label, for a later termination to find,
   and nothing but that label is ever changed about a snapshot.
   */
  lemma ReadySnapshotIsLabelled(s: Store, session: string, pod: Worker, now: int, faults: seq<Fault>)
    ensures var (after, r) := OnSuspendOf(s, session, pod, now, faults);
            && (r == Some(Ready) && (LabelledReady(s, session, pod.created) || TriggeredReady(s, (session, pod.uid))) ==>
                  exists name <- after.snapshots :: after.snapshots[name].ready && after.snapshots[name].session == Some(session))
            && after.snapshots.Keys == s.snapshots.Keys
            && forall name <- s.snapshots ::
                 || after.snapshots[name] == s.snapshots[name]
                 || (&& after.snapshots[name] == s.snapshots[name].(session := Some(session))
                     && TriggeredReady(s, (session, pod.uid)) && s.triggers[(session, pod.uid)].snapshot == Some(name))
  {
    var key := (session, pod.uid);
    if name :| name in s.snapshots && Durable(s, session, pod, name) {
      assert s.snapshots[name].ready && s.snapshots[name].session == Some(session);
    } else {
      assert !LabelledReady(s, session, pod.created) by {
        assert forall name <- s.snapshots :: !Durable(s, session, pod, name);
      }
      if TriggeredReady(s, key) {
        var name := s.triggers[key].snapshot.value;
        assert Labelled(s, name, session).snapshots[name].session == Some(session);
      }
    }
  }

  class SnapshotProvider {
    var triggers: map<(string, nat), Trigger>
    var snapshots: map<string, Snapshot>

    constructor ()
      ensures triggers == map[] && snapshots == map[]
    {
      triggers, snapshots := map[], map[];
    }

    function Contents(): Store
      reads this
    {
      Store(triggers, snapshots)
    }

    method OnSuspend(session: string, pod: Worker, now: int, faults: seq<Fault>) returns (r: Option<Outcome>)
      modifies this
      ensures (Contents(), r) == OnSuspendOf(old(Contents()), session, pod, now, faults)
      ensures (exists name <- old(snapshots) :: Good(old(Contents()), session, pod, name)) ==>
                triggers == old(triggers) && r != Some(InProgress)
      ensures r == Some(Ready) && pod.running ==>
                || (exists name <- snapshots :: Good(Contents(), session, pod, name))
                || ((session, pod.uid) in triggers && now - triggers[(session, pod.uid)].created >= SNAPSHOT_GIVE_UP)
      ensures AllWork(faults) ==> r.Some?
      ensures AllWork(faults) && (exists name <- old(snapshots) :: Good(old(Contents()), session, pod, name)) ==> r == Some(Ready)
    {
      if AllWork(faults) { AnswersWhenCallsWork(Contents(), session, pod, now, faults); }
      OnSuspendPromises(Contents(), session, pod, now, faults);
      if FaultOf(faults, 0) != Works { return None; }
      if exists name <- snapshots :: Durable(Contents(), session, pod, name) { return Some(Ready); }
      var key := (session, pod.uid);
      if FaultOf(faults, 1) != Works { return None; }
      if key !in triggers {
        if !pod.running { return Some(Ready); }
        if FaultOf(faults, 2) != Unsent { triggers := triggers[key := Trigger(now, None, false)]; }
        return if FaultOf(faults, 2) == Works then Some(InProgress) else None;
      }
      r := PollTrigger(session, pod, now, faults);
    }

    method PollTrigger(session: string, pod: Worker, now: int, faults: seq<Fault>) returns (r: Option<Outcome>)
      requires (session, pod.uid) in triggers
      modifies this
      ensures (Contents(), r) == Poll(old(Contents()), session, pod, now, faults)
    {
      var key := (session, pod.uid);
      var trigger := triggers[key];
      var next := 2;
      if trigger.snapshot.Some? {
        if FaultOf(faults, 2) != Works { return None; }
        next := 3;
        var name := trigger.snapshot.value;
        if name in snapshots && snapshots[name].ready {
          if FaultOf(faults, next) != Unsent { snapshots := snapshots[name := snapshots[name].(session := Some(session))]; }
          return if FaultOf(faults, next) == Works then Some(Ready) else None;
        }
      }
      if trigger.failed {
        if !pod.running { return Some(Ready); }
        if FaultOf(faults, next) != Unsent { triggers := triggers - {key}; }
        return if FaultOf(faults, next) == Works then Some(InProgress) else None;
      }
      if now - trigger.created >= SNAPSHOT_GIVE_UP { return Some(Ready); }
      r := Some(InProgress);
    }
  }

  // ------------------------------------------------- the good snapshot stays

  /**
   With a ready snapshot of its cycle, whichever calls fail, no trigger is
   fired or deleted and the answer is Ready or an error; the snapshot stays good.
   */
  lemma GoodSnapshotIsKept(s: Store, session: string, pod: Worker, now: int, faults: seq<Fault>, name: string)
    requires Good(s, session, pod, name)
    ensures var (after, answer) := OnSuspendOf(s, session, pod, now, faults);
            && after.triggers == s.triggers && answer != Some(InProgress) && Good(after, session, pod, name)
  {
  }

  /** What GKE and others may do meanwhile, short of removing that snapshot or its trigger. */
  predicate Spares(s: Store, v: Store, session: string, pod: Worker, name: string) {
    Good(s, session, pod, name) ==> Good(v, session, pod, name)
  }

  /** One call, in the store as it was found. */
  datatype Visit = Visit(found: Store, running: bool, now: int, faults: seq<Fault>)

  function Left(v: Visit, session: string, uid: nat, created: Option<int>): Store {
    OnSuspendOf(v.found, session, Worker(uid, created, v.running), v.now, v.faults).0
  }

  function AnswerOf(v: Visit, session: string, uid: nat, created: Option<int>): Option<Outcome> {
    OnSuspendOf(v.found, session, Worker(uid, created, v.running), v.now, v.faults).1
  }

  /** Over any later calls that find the snapshot spared, none fires another trigger. */
  lemma {:induction false} NoTriggerAfterGood(visits: seq<Visit>, session: string, uid: nat, created: Option<int>, name: string)
    requires visits != [] && Good(visits[0].found, session, Worker(uid, created, true), name)
    requires forall i :: 0 < i < |visits| ==>
               Spares(Left(visits[i - 1], session, uid, created), visits[i].found, session, Worker(uid, created, true), name)
    ensures forall v <- visits ::
              Left(v, session, uid, created).triggers == v.found.triggers && AnswerOf(v, session, uid, created) != Some(InProgress)
    ensures Good(visits[|visits| - 1].found, session, Worker(uid, created, true), name)
  {
    var last := visits[|visits| - 1];
    if |visits| > 1 {
      var shorter := visits[..|visits| - 1];
      assert visits == shorter + [last];
      NoTriggerAfterGood(shorter, session, uid, created, name);
      var before := shorter[|shorter| - 1];
      assert before == visits[|visits| - 2];
      GoodSnapshotIsKept(before.found, session, Worker(uid, created, before.running), before.now, before.faults, name);
      assert Spares(Left(visits[|visits| - 2], session, uid, created), visits[|visits| - 1].found, session,
                    Worker(uid, created, true), name);
    }
    GoodSnapshotIsKept(last.found, session, Worker(uid, created, last.running), last.now, last.faults, name);
  }

  /** A running pod without a ready snapshot is held until its trigger is old enough. */
  lemma RunningPodIsGivenTime(s: Store, session: string, pod: Worker, now: int, faults: seq<Fault>)
    requires pod.running && forall name <- s.snapshots :: !Good(s, session, pod, name)
    ensures var key, answer := (session, pod.uid), OnSuspendOf(s, session, pod, now, faults).1;
            answer == Some(Ready) ==>
              key in s.triggers && !s.triggers[key].failed && now - s.triggers[key].created >= SNAPSHOT_GIVE_UP
  {
  }

  // -------------------------------------------------------- bounded holding

  /** Outside the operator nobody creates or deletes this trigger; what it reports may change. */
  predicate TriggerStays(s: Store, v: Store, key: (string, nat)) {
    (key in s.triggers <==> key in v.triggers) && (key in s.triggers ==> v.triggers[key].created == s.triggers[key].created)
  }

  /** Calls none of which answered Ready, at most `gap` apart: in progress, or failed. */
  predicate Holding(visits: seq<Visit>, session: string, uid: nat, created: Option<int>, gap: nat) {
    && (forall v <- visits :: AnswerOf(v, session, uid, created) != Some(Ready))
    && (forall i :: 0 < i < |visits| ==>
          && TriggerStays(Left(visits[i - 1], session, uid, created), visits[i].found, (session, uid))
          && visits[i].now <= visits[i - 1].now + gap)
  }

  /** The call deleted the trigger. */
  predicate Retries(v: Visit, session: string, uid: nat, created: Option<int>) {
    (session, uid) in v.found.triggers && (session, uid) !in Left(v, session, uid, created).triggers
  }

  predicate Fails(v: Visit, session: string, uid: nat, created: Option<int>) {
    AnswerOf(v, session, uid, created).None?
  }

  /** How many triggers were deleted, each for having failed. */
  function Failures(visits: seq<Visit>, session: string, uid: nat, created: Option<int>): nat {
    if visits == [] then 0
    else
      Failures(visits[..|visits| - 1], session, uid, created)
      + if Retries(visits[|visits| - 1], session, uid, created) then 1 else 0
  }

  /** How many calls failed. */
  function Errors(visits: seq<Visit>, session: string, uid: nat, created: Option<int>): nat {
    if visits == [] then 0
    else
      Errors(visits[..|visits| - 1], session, uid, created)
      + if Fails(visits[|visits| - 1], session, uid, created) then 1 else 0
  }

  /** What a call that does not answer Ready does about the trigger, with all its calls working or not. */
  lemma HoldingStep(v: Visit, session: string, uid: nat, created: Option<int>)
    requires AnswerOf(v, session, uid, created) != Some(Ready)
    ensures var key, left := (session, uid), Left(v, session, uid, created);
            if key !in v.found.triggers then
              if key in left.triggers then left.triggers[key].created == v.now else Fails(v, session, uid, created)
            else if key !in left.triggers then v.found.triggers[key].failed
            else
              && left.triggers[key] == v.found.triggers[key]
              && (!Fails(v, session, uid, created) ==> v.now - v.found.triggers[key].created < SNAPSHOT_GIVE_UP)
  {
  }

  /** The time allowed so far: an attempt for each failed trigger, a gap for each failed call. */
  function Allowed(visits: seq<Visit>, session: string, uid: nat, created: Option<int>, gap: nat): nat {
    if visits == [] then 0
    else
      Allowed(visits[..|visits| - 1], session, uid, created, gap)
      + (if Retries(visits[|visits| - 1], session, uid, created) then SNAPSHOT_GIVE_UP + 2 * gap else 0)
      + (if Fails(visits[|visits| - 1], session, uid, created) then gap else 0)
  }

  lemma OneMore(k: nat, x: int)
    ensures (k + 1) * x == k * x + x
  {
  }

  lemma {:induction false} AllowedIs(visits: seq<Visit>, session: string, uid: nat, created: Option<int>, gap: nat, step: nat)
    requires step == SNAPSHOT_GIVE_UP + 2 * gap
    ensures Allowed(visits, session, uid, created, gap)
         == Failures(visits, session, uid, created) * step + Errors(visits, session, uid, created) * gap
  {
    hide Retries, Fails;
    if visits != [] {
      var shorter := visits[..|visits| - 1];
      AllowedIs(shorter, session, uid, created, gap, step);
      OneMore(Failures(shorter, session, uid, created), step);
      OneMore(Errors(shorter, session, uid, created), gap);
    }
  }

  /** Where holding has got to: which attempt is on, and how late it can be. */
  lemma {:induction false} HeldSoFar(visits: seq<Visit>, session: string, uid: nat, created: Option<int>, gap: nat)
    requires visits != [] && Holding(visits, session, uid, created, gap) && (session, uid) !in visits[0].found.triggers
    ensures var key, last, start := (session, uid), visits[|visits| - 1], visits[0].now;
            var left, allowed := Left(last, session, uid, created), Allowed(visits, session, uid, created, gap);
            if key in left.triggers then
              left.triggers[key].created - start <= allowed && last.now - start < allowed + SNAPSHOT_GIVE_UP
            else last.now - start <= allowed - gap
  {
    hide Left, AnswerOf;
    var key, last := (session, uid), visits[|visits| - 1];
    HoldingStep(last, session, uid, created);
    if |visits| == 1 {
      assert visits[..0] == [] && Allowed(visits[..0], session, uid, created, gap) == 0;
    } else {
      var shorter := visits[..|visits| - 1];
      assert forall v <- shorter :: v in visits;
      HeldSoFar(shorter, session, uid, created, gap);
      var before := shorter[|shorter| - 1];
      assert before == visits[|visits| - 2];
      assert TriggerStays(Left(visits[|visits| - 2], session, uid, created), visits[|visits| - 1].found, key);
      assert last.now <= before.now + gap;
    }
  }

  /**
   However often its triggers fail and its calls fail, a suspended session whose
   snapshot never answers Ready is held for at most one give-up time and two pass
   gaps per failed trigger, as much again, and a gap per failed call.
   */
  lemma HoldIsBounded(visits: seq<Visit>, session: string, uid: nat, created: Option<int>, gap: nat)
    requires visits != [] && Holding(visits, session, uid, created, gap) && (session, uid) !in visits[0].found.triggers
    ensures visits[|visits| - 1].now - visits[0].now
         <= (Failures(visits, session, uid, created) + 1) * (SNAPSHOT_GIVE_UP + 2 * gap) + Errors(visits, session, uid, created) * gap
  {
    hide Holding, Left, AnswerOf, Failures, Errors, Allowed;
    var step := SNAPSHOT_GIVE_UP + 2 * gap;
    HeldSoFar(visits, session, uid, created, gap);
    AllowedIs(visits, session, uid, created, gap, step);
    OneMore(Failures(visits, session, uid, created), step);
  }
}
