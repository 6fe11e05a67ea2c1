/** How many sessions the operator holds over a run, and which it never asks for. */
module Concurrency {
  import opened Basics
  import opened Pods
  import opened Planner
  import opened PlannerLaws
  import opened Cluster
  import opened Jobs
  import opened Passes

  /** The sessions claimed by us that have not ended. */
  function Live(c: Config, w: World): set<string> {
    set id | id in w.rows && OursIn(c, w.rows[id]) && !Terminal(w.rows[id])
  }

  /** Nothing outside brings an ended session of ours back to life. */
  predicate Steady(script: seq<Tick>) { forall t <- script :: forall e <- t.env :: !e.Revive? }

  lemma EnvShrinksLive(c: Config, w: World, e: Env)
    requires !e.Revive?
    ensures Live(c, EnvStep(c, w, e)) <= Live(c, w)
  {
  }

  lemma {:induction false} InterfereShrinksLive(c: Config, w: World, env: seq<Env>)
    requires forall e <- env :: !e.Revive?
    ensures Live(c, Interfere(c, w, env)) <= Live(c, w)
  {
    if env != [] {
      InterfereShrinksLive(c, w, env[..|env| - 1]);
      EnvShrinksLive(c, Interfere(c, w, env[..|env| - 1]), env[|env| - 1]);
    }
  }

  /** Only a claim call adds to what we hold; an answered release takes its session away. */
  lemma EffectOnLive(c: Config, w: World, op: Op, t: Tick)
    ensures Live(c, Effect(c, w, op, t)) <= Live(c, w) + if op.ClaimRow? then {op.id} else {}
    ensures op.ReleaseRow? && Released(Answer(c, w, op, t)) ==> op.id !in Live(c, Effect(c, w, op, t))
  {
  }

  /** The session a job asks the queue for, if any. */
  function Target(job: Job): set<string> {
    if job.Run? && AsksQueue(job.action) then {job.action.id} else {}
  }

  lemma ClaimsItsTarget(c: Config, job: Job, h: seq<Reply>)
    ensures Next(c, job, h).Some? && Next(c, job, h).value.ClaimRow? ==> Target(job) == {Next(c, job, h).value.id}
  {
  }

  lemma {:induction false} ExecBoundsLive(c: Config, w: World, job: Job, h: seq<Reply>, script: seq<Tick>)
    requires Steady(script)
    ensures var end := Exec(c, w, job, h, script);
            && Live(c, end.world) <= Live(c, w) + Target(job)
            && Steady(end.rest)
            && (forall op <- end.calls :: op.ClaimRow? ==> op.id in Target(job))
    decreases |script|
  {
    ClaimsItsTarget(c, job, h);
    if Next(c, job, h).Some? && script != [] {
      var op, t := Next(c, job, h).value, script[0];
      var found := Interfere(c, w, t.env);
      InterfereShrinksLive(c, w, t.env);
      EffectOnLive(c, found, op, t);
      ExecBoundsLive(c, Effect(c, found, op, t), job, h + [Answer(c, found, op, t)], script[1..]);
    }
  }

  /** A give-up asks for nothing. */
  predicate GivesUp(job: Job) { job.Run? && job.action.GiveUp? }

  lemma ReleaseIsWhere(c: Config, job: Job, h: seq<Reply>, r: Reply)
    requires GivesUp(job) && Next(c, job, h).Some? && GaveBack(job, h + [r])
    ensures GaveBack(job, h) || Next(c, job, h) == Some(ReleaseRow(job.action.id))
  {
    assert forall i :: 0 <= i < |h| ==> (h + [r])[i] == h[i];
  }

  /** Answers already given stay as they are. */
  lemma {:induction false} AnswersGrow(c: Config, w: World, job: Job, h: seq<Reply>, script: seq<Tick>)
    ensures h <= Exec(c, w, job, h, script).answers
    decreases |script|
  {
    if Next(c, job, h).Some? && script != [] {
      var op, t := Next(c, job, h).value, script[0];
      var found := Interfere(c, w, t.env);
      AnswersGrow(c, Effect(c, found, op, t), job, h + [Answer(c, found, op, t)], script[1..]);
    }
  }

  /** A give-up whose release was answered leaves its session out of what we hold. */
  lemma {:induction false} GiveUpLetsGo(c: Config, w: World, job: Job, h: seq<Reply>, script: seq<Tick>)
    requires Steady(script) && GivesUp(job)
    requires GaveBack(job, h) ==> job.action.id !in Live(c, w)
    ensures var end := Exec(c, w, job, h, script);
            GaveBack(job, end.answers) ==> job.action.id !in Live(c, end.world)
    decreases |script|
  {
    if Next(c, job, h).Some? {
      var op := Next(c, job, h).value;
      if script == [] {
        if GaveBack(job, h + [Failed]) { FailedIsNoRelease(job, h); }
      } else {
        var t := script[0];
        var found := Interfere(c, w, t.env);
        var r := Answer(c, found, op, t);
        InterfereShrinksLive(c, w, t.env);
        EffectOnLive(c, found, op, t);
        ClaimsItsTarget(c, job, h);
        if GaveBack(job, h + [r]) && !GaveBack(job, h) {
          ReleaseIsWhere(c, job, h, r);
          LastAnswerReleased(job, h, r);
        }
        if GaveBack(job, h) { assert op.ClaimRow? ==> false; }
        GiveUpLetsGo(c, Effect(c, found, op, t), job, h + [r], script[1..]);
      }
    }
  }

  lemma FailedIsNoRelease(job: Job, h: seq<Reply>)
    requires GaveBack(job, h + [Failed])
    ensures GaveBack(job, h)
  {
    assert forall i :: 0 <= i < |h| ==> (h + [Failed])[i] == h[i];
  }

  lemma LastAnswerReleased(job: Job, h: seq<Reply>, r: Reply)
    requires GaveBack(job, h + [r]) && !GaveBack(job, h)
    ensures Released(r)
  {
    assert forall i :: 0 <= i < |h| ==> (h + [r])[i] == h[i];
  }

  // ------------------------------------------------------------- whole passes

  function Targets(actions: seq<Action>): set<string> {
    set a | a in actions && AsksQueue(a) :: a.id
  }

  function GiveUps(actions: seq<Action>): set<string> {
    set a | a in actions && a.GiveUp? :: a.id
  }

  /** One more action, within what is asked for. */
  lemma ActionBoundsLive(c: Config, s: Pass, a: Action, asked: set<string>)
    requires Steady(s.script) && (AsksQueue(a) ==> a.id in asked)
    ensures var t := RunJob(c, s, Run(a, PodOf(s.pods, a)));
            && Steady(t.script)
            && Live(c, t.world) <= Live(c, s.world) + (if AsksQueue(a) then {a.id} else {})
            && (forall op <- t.calls :: op.ClaimRow? ==> op in s.calls || op.id in asked)
            && (if a.GiveUp? then t.kept <= s.kept + {a.id} && s.kept <= t.kept else t.kept == s.kept)
            && (a.GiveUp? && a.id !in t.kept ==> a.id !in Live(c, t.world))
  {
    hide Next;
    var job := Run(a, PodOf(s.pods, a));
    ExecBoundsLive(c, s.world, job, [], s.script);
    if a.GiveUp? { GiveUpLetsGo(c, s.world, job, [], s.script); }
  }

  /** After the actions: nothing beyond what was held and asked for, and no session whose give-up went through. */
  lemma {:induction false} ActionsBoundLive(c: Config, s: Pass, actions: seq<Action>, asked: set<string>)
    requires Steady(s.script) && s.calls == [] && s.kept == {}
    requires Targets(actions) <= asked && GiveUps(actions) !! asked
    ensures var t := RunActions(c, s, actions);
            && Steady(t.script)
            && Live(c, t.world) <= Live(c, s.world) + asked
            && (forall op <- t.calls :: op.ClaimRow? ==> op.id in asked)
            && t.kept <= GiveUps(actions)
            && Live(c, t.world) * (GiveUps(actions) - t.kept) == {}
  {
    hide Exec, Next, RunJob, Live;
    if actions != [] {
      var shorter, a := actions[..|actions| - 1], actions[|actions| - 1];
      assert actions == shorter + [a];
      assert a in actions && forall x <- shorter :: x in actions;
      assert Targets(shorter) <= Targets(actions) && GiveUps(shorter) <= GiveUps(actions);
      ActionsBoundLive(c, s, shorter, asked);
      if AsksQueue(a) { assert a.id in Targets(actions); }
      if a.GiveUp? { assert a.id in GiveUps(actions); }
      ActionBoundsLive(c, RunActions(c, s, shorter), a, asked);
      assert GiveUps(actions) == GiveUps(shorter) + if a.GiveUp? then {a.id} else {};
    }
  }

  lemma JobBoundsLive(c: Config, s: Pass, job: Job)
    requires Steady(s.script) && Target(job) == {} && !GivesUp(job)
    ensures var t := RunJob(c, s, job);
            && Steady(t.script) && Live(c, t.world) <= Live(c, s.world) && t.kept == s.kept
            && (forall op <- t.calls :: op.ClaimRow? ==> op in s.calls)
  {
    ExecBoundsLive(c, s.world, job, [], s.script);
  }

  lemma {:induction false} RecyclesBoundLive(c: Config, s: Pass, pods: map<string, Pod>, ids: seq<string>)
    requires Steady(s.script)
    ensures var t := RunRecycles(c, s, pods, ids);
            && Steady(t.script) && Live(c, t.world) <= Live(c, s.world) && t.kept == s.kept
            && (forall op <- t.calls :: op.ClaimRow? ==> op in s.calls)
  {
    if ids != [] {
      RecyclesBoundLive(c, s, pods, ids[..|ids| - 1]);
      JobBoundsLive(c, RunRecycles(c, s, pods, ids[..|ids| - 1]), Recycle(ids[|ids| - 1]));
    }
  }

  lemma {:induction false} CleanUpsBoundLive(c: Config, s: Pass, ids: seq<string>)
    requires Steady(s.script)
    ensures var t := RunCleanUps(c, s, ids);
            && Steady(t.script) && Live(c, t.world) <= Live(c, s.world) && t.kept == s.kept
            && (forall op <- t.calls :: op.ClaimRow? ==> op in s.calls)
  {
    if ids != [] {
      CleanUpsBoundLive(c, s, ids[..|ids| - 1]);
      JobBoundsLive(c, RunCleanUps(c, s, ids[..|ids| - 1]), CleanUp(ids[|ids| - 1]));
    }
  }

  // ------------------------------------------------ the plan, as sets of sessions

  function ActiveAmong(o: Observed, ss: seq<Session>): set<string> {
    set s | s in ss && Active(o, s) :: s.id
  }

  function ActiveIds(o: Observed): set<string> { ActiveAmong(o, o.sessions) }

  function ChosenIds(o: Observed): set<string> {
    set s | s in Chosen(o) :: s.id
  }

  lemma {:induction false} ActiveCounted(o: Observed, ss: seq<Session>)
    requires UniqueIds(ss)
    ensures CountActive(o, ss) == |ActiveAmong(o, ss)|
  {
    hide Active;
    if ss == [] {
      assert ActiveAmong(o, ss) == {};
    } else {
      var shorter, last := ss[..|ss| - 1], ss[|ss| - 1];
      ActiveCounted(o, shorter);
      assert ss == shorter + [last];
      assert forall s <- shorter :: s.id != last.id;
      assert ActiveAmong(o, ss) == ActiveAmong(o, shorter) + if Active(o, last) then {last.id} else {};
    }
  }

  lemma {:induction false} AtMostOnePer(ss: seq<Session>)
    ensures |set s | s in ss :: s.id| <= |ss|
  {
    if ss != [] {
      var shorter, last := ss[..|ss| - 1], ss[|ss| - 1];
      AtMostOnePer(shorter);
      assert ss == shorter + [last];
      assert (set s | s in ss :: s.id) == (set s | s in shorter :: s.id) + {last.id};
    } else {
      assert (set s | s in ss :: s.id) == {};
    }
  }

  /** Whoever is claimed, started or renewed is counted as active or freshly chosen. */
  lemma AskedFor(o: Observed, a: Action)
    requires UniqueIds(o.sessions) && a in PlanOf(o) && !a.DeleteOrphanPod?
    ensures AsksQueue(a) ==> a.id in ActiveIds(o) + ChosenIds(o)
    ensures a.GiveUp? ==> exists s <- o.sessions :: s.id == a.id && Ours(o, s) && !Terminal(s) && GivenUp(o, s)
  {
    EveryActionHasAReason(o, a);
    var s :| s in o.sessions && PlannedFor(o, s, a);
    PlannedForNames(o, s, a);
    if a.Claim? {
      ClaimIsChosen(o, a);
    } else if a.StartWorker? || a.Renew? {
      assert Active(o, s);
    }
  }

  lemma ClaimIsChosen(o: Observed, a: Action)
    requires a in PlanOf(o) && a.Claim?
    ensures a.id in ChosenIds(o)
  {
    hide Chosen, AllOwn, AllStale, StartupFailureOf, RestartCount, Drifted;
    OwnFrom(o, o.sessions, a);
    StaleFrom(o, o.sessions, a);
    assert forall s <- o.sessions :: a !in OwnActions(o, s);
    assert a in Claims(Chosen(o));
    var i :| 0 <= i < |Chosen(o)| && Claims(Chosen(o))[i] == a;
    assert Chosen(o)[i] in Chosen(o);
  }

  lemma GiveUpsApart(o: Observed)
    requires UniqueIds(o.sessions)
    ensures GiveUps(PlanOf(o)) !! ActiveIds(o) + ChosenIds(o)
  {
    forall id | id in GiveUps(PlanOf(o)) ensures id !in ActiveIds(o) + ChosenIds(o) {
      var a :| a in PlanOf(o) && a.GiveUp? && a.id == id;
      AskedFor(o, a);
      var s :| s in o.sessions && s.id == id && Ours(o, s) && !Terminal(s) && GivenUp(o, s);
      if id in ChosenIds(o) {
        var t :| t in Chosen(o) && t.id == id;
        ChosenFrom(o, t);
        SameRow(o.sessions, s, t);
      }
    }
  }

  lemma PlanAsksFor(o: Observed)
    requires UniqueIds(o.sessions)
    ensures Targets(PlanOf(o)) <= ActiveIds(o) + ChosenIds(o)
  {
    hide PlanOf, ActiveIds, ChosenIds;
    forall id | id in Targets(PlanOf(o)) ensures id in ActiveIds(o) + ChosenIds(o) {
      var a :| a in PlanOf(o) && AsksQueue(a) && a.id == id;
      AskedFor(o, a);
    }
  }

  /** What is held when the queue is listed is counted, or is being given up. */
  lemma HeldIsAccountedFor(c: Config, w: World, o: Observed)
    requires Observes(c, w, o)
    ensures ActiveIds(o) <= Live(c, w)
    ensures Live(c, w) <= ActiveIds(o) + GiveUps(PlanOf(o))
  {
    forall id | id in Live(c, w) ensures id in ActiveIds(o) + GiveUps(PlanOf(o)) {
      var s := w.rows[id];
      assert s in o.sessions && s.id == id && Ours(o, s) && !Terminal(s);
      if GivenUp(o, s) {
        var a := GiveUp(s.id, RestartCount(o.pods[s.id]));
        assert a in OwnActions(o, s);
        OwnIsPlanned(o, s, a);
      }
    }
  }

  // ------------------------------------------------------------- main results

  /**
   One pass: what is held at its end is counted active, freshly chosen, or a
   give-up that did not get its release answered.
   */
  lemma PassBoundsLive(c: Config, w: World, o: Observed, script: seq<Tick>, cold: seq<string>, vanished: Option<seq<string>>)
    requires Observes(c, w, o) && Steady(script)
    ensures var end := PassEnd(c, w, o, script, cold, vanished);
            && Live(c, end.world) <= ActiveIds(o) + ChosenIds(o) + end.kept
            && (forall op <- end.calls :: op.ClaimRow? ==> op.id in ActiveIds(o) + ChosenIds(o))
  {
    hide PlanOf, RunActions, RunRecycles, RunCleanUps, Live, ActiveIds, ChosenIds;
    var actions, asked := PlanOf(o), ActiveIds(o) + ChosenIds(o);
    var s := Begun(w, o.pods, script);
    PlanAsksFor(o);
    GiveUpsApart(o);
    HeldIsAccountedFor(c, w, o);
    ActionsBoundLive(c, s, actions, asked);
    var acted := RunActions(c, s, actions);
    RecyclesBoundLive(c, acted, acted.pods, cold);
    CleanUpsBoundLive(c, RunRecycles(c, acted, acted.pods, cold), vanished.GetOr([]));
    var held := Live(c, acted.world);
    forall id | id in held && id !in asked ensures id in acted.kept {
      assert id !in held * (GiveUps(actions) - acted.kept);
    }
  }

  /**
   Live claims after a pass: at most the limit and the give-ups of this pass
   that were not released, unless already more were held before it.
   */
  lemma LiveClaimsBounded(c: Config, w: World, o: Observed, script: seq<Tick>, cold: seq<string>, vanished: Option<seq<string>>)
    requires Observes(c, w, o) && Steady(script)
    ensures var end := PassEnd(c, w, o, script, cold, vanished);
            |Live(c, end.world)| <= Max(|Live(c, w)|, o.maxConcurrent + |end.kept|)
  {
    assert UniqueIds(o.sessions);
    hide PassEnd, Observes, Live, PlanOf, ActiveIds, ChosenIds, CountActive;
    var end := PassEnd(c, w, o, script, cold, vanished);
    PassBoundsLive(c, w, o, script, cold, vanished);
    PassKeepsOnlyGiveUps(c, w, o, script, cold, vanished);
    SlotsFilled(o);
    KeptWereHeld(c, w, o, end.kept);
    Sizes(Live(c, end.world), ActiveIds(o), ChosenIds(o), end.kept);
  }

  lemma Sizes<T>(all: set<T>, a: set<T>, b: set<T>, d: set<T>)
    requires all <= a + b + d
    ensures |all| <= |a| + |b| + |d|
  {
    Subset(all, a + b + d);
  }

  lemma SlotsFilled(o: Observed)
    requires UniqueIds(o.sessions)
    ensures |ChosenIds(o)| <= Max(o.maxConcurrent - |ActiveIds(o)|, 0)
  {
    hide Active, Claimable;
    ActiveCounted(o, o.sessions);
    LimitRespected(o);
    AtMostOnePer(Chosen(o));
  }

  lemma Subset<T>(a: set<T>, b: set<T>)
    requires a <= b
    ensures |a| <= |b|
  {
    assert b == a + (b - a);
  }

  lemma PassKeepsOnlyGiveUps(c: Config, w: World, o: Observed, script: seq<Tick>, cold: seq<string>, vanished: Option<seq<string>>)
    requires Observes(c, w, o) && Steady(script)
    ensures PassEnd(c, w, o, script, cold, vanished).kept <= GiveUps(PlanOf(o))
  {
    hide PlanOf, RunActions, RunRecycles, RunCleanUps, Live, ActiveIds, ChosenIds;
    var s := Begun(w, o.pods, script);
    PlanAsksFor(o);
    GiveUpsApart(o);
    ActionsBoundLive(c, s, PlanOf(o), ActiveIds(o) + ChosenIds(o));
    var acted := RunActions(c, s, PlanOf(o));
    RecyclesBoundLive(c, acted, acted.pods, cold);
    CleanUpsBoundLive(c, RunRecycles(c, acted, acted.pods, cold), vanished.GetOr([]));
  }

  lemma KeptWereHeld(c: Config, w: World, o: Observed, kept: set<string>)
    requires Observes(c, w, o) && kept <= GiveUps(PlanOf(o))
    ensures |ActiveIds(o)| + |kept| <= |Live(c, w)|
  {
    HeldIsAccountedFor(c, w, o);
    GiveUpsApart(o);
    forall id | id in GiveUps(PlanOf(o)) ensures id in Live(c, w) {
      var a :| a in PlanOf(o) && a.GiveUp? && a.id == id;
      AskedFor(o, a);
    }
    assert ActiveIds(o) !! kept;
    Subset(ActiveIds(o) + kept, Live(c, w));
  }

  // -------------------------------------------------------------------- runs

  function WorldAfter(c: Config, w: World, rounds: seq<Round>): World
    decreases |rounds|, 1
  {
    if rounds == [] then w
    else
      var r := rounds[|rounds| - 1];
      PassEnd(c, WorldListed(c, w, rounds), r.seen, r.script, r.cold, r.vanished).world
  }

  /** The world as the last of the rounds lists it. */
  function WorldListed(c: Config, w: World, rounds: seq<Round>): World
    requires rounds != []
    decreases |rounds|, 0
  {
    Interfere(c, WorldAfter(c, w, rounds[..|rounds| - 1]), rounds[|rounds| - 1].gap)
  }

  function KeptIn(c: Config, w: World, rounds: seq<Round>): set<string>
    requires rounds != []
  {
    var r := rounds[|rounds| - 1];
    PassEnd(c, WorldListed(c, w, rounds), r.seen, r.script, r.cold, r.vanished).kept
  }

  /** Every pass sees the queue as it is, under one limit. */
  ghost predicate IsHistory(c: Config, w: World, rounds: seq<Round>, limit: nat) {
    rounds == [] ||
    var r := rounds[|rounds| - 1];
    && IsHistory(c, w, rounds[..|rounds| - 1], limit)
    && Observes(c, WorldListed(c, w, rounds), r.seen) && r.seen.maxConcurrent == limit
    && Steady(r.script) && (forall e <- r.gap :: !e.Revive?)
  }

  /** The most give-ups that any one pass so far left unreleased. */
  function MostKept(c: Config, w: World, rounds: seq<Round>): nat {
    if rounds == [] then 0
    else Max(MostKept(c, w, rounds[..|rounds| - 1]), |KeptIn(c, w, rounds)|)
  }

  /**
   Over any run that starts within the limit, live claims exceed it by at most
   the give-ups that the worst single pass failed to release.
   */
  lemma {:induction false} LimitOverRuns(c: Config, w: World, rounds: seq<Round>, limit: nat)
    requires IsHistory(c, w, rounds, limit) && |Live(c, w)| <= limit
    ensures |Live(c, WorldAfter(c, w, rounds))| <= limit + MostKept(c, w, rounds)
  {
    if rounds != [] {
      var shorter, r := rounds[..|rounds| - 1], rounds[|rounds| - 1];
      LimitOverRuns(c, w, shorter, limit);
      var listed := WorldListed(c, w, rounds);
      InterfereShrinksLive(c, WorldAfter(c, w, shorter), r.gap);
      Subset(Live(c, listed), Live(c, WorldAfter(c, w, shorter)));
      LiveClaimsBounded(c, listed, r.seen, r.script, r.cold, r.vanished);
    }
  }

  // ------------------------------------- the limit is not met pass by pass

  /** A crash-looping pod that never restored. */
  function WornOut(restarts: nat): Pod {
    Pod("a", 0, None, false, [], None, [],
        Some(PodStatus(Some("Running"), [], [],
                       [ContainerStatus("devin-worker", "", restarts, false, None, true, false, false)])))
  }

  function Sample(id: string, phase: Phase, acceptor: Option<string>): Session {
    Session(id, Some(1), ImageSpec(None, false), false, phase, acceptor, None, SessionStatus.Waiting)
  }

  function SamplePlanInput(c: Config, sessions: seq<Session>, pods: map<string, Pod>): Observed {
    Observed(sessions, pods, [], c.us, 1, 5, 600, 60, c.container, c.desiredImage, c.buildImage, 0)
  }

  function Quiet(fault: Fault): Tick { Tick([], fault, 0, false, true, None, [], false, true, true) }

  lemma OwnOfTwo(o: Observed, a: Session, b: Session, one: Action)
    requires OwnActions(o, a) == [one] && OwnActions(o, b) == []
    ensures AllOwn(o, [a, b]) == [one]
  {
    hide OwnActions;
    assert [a, b][..1] == [a] && [a][..0] == [];
    assert AllOwn(o, []) == [];
    assert AllOwn(o, [a]) == [] + [one];
  }

  lemma StaleOfTwo(o: Observed, a: Session, b: Session)
    requires !Stale(o, a) && !Stale(o, b)
    ensures AllStale(o, [a, b]) == []
  {
    hide Stale;
    assert [a, b][..1] == [a] && [a][..0] == [];
    assert AllStale(o, []) == [];
    assert AllStale(o, [a]) == [];
  }

  lemma ActiveOfTwo(o: Observed, a: Session, b: Session)
    requires !Active(o, a) && !Active(o, b)
    ensures CountActive(o, [a, b]) == 0
  {
    hide Active;
    assert [a, b][..1] == [a] && [a][..0] == [];
    assert CountActive(o, []) == 0;
    assert CountActive(o, [a]) == 0;
  }

  lemma ClaimableOfTwo(a: Session, b: Session)
    requires !Planner.Claimable(a) && Planner.Claimable(b)
    ensures ClaimableOf([a, b]) == [b]
  {
    hide Planner.Claimable;
    assert [a, b][..1] == [a] && [a][..0] == [];
    assert ClaimableOf([]) == [];
    assert ClaimableOf([a]) == [];
  }

  lemma SortedOne(b: Session)
    ensures Sorted([b]) == [b]
  {
    assert [b][..0] == [] && Sorted([b]) == Insert([], b);
    assert Place([], b) == 0;
  }

  /** The plan for one session of ours to give up, another waiting, and one slot. */
  lemma PlanOfTwo(o: Observed, a: Session, b: Session, restarts: nat)
    requires o.sessions == [a, b] && o.orphans == [] && o.maxConcurrent == 1
    requires OwnActions(o, a) == [GiveUp(a.id, restarts)] && OwnActions(o, b) == []
    requires !Active(o, a) && !Active(o, b) && !Stale(o, a) && !Stale(o, b)
    requires !Planner.Claimable(a) && Planner.Claimable(b)
    ensures PlanOf(o) == [GiveUp(a.id, restarts), Claim(b.id)]
  {
    hide OwnActions, Active, Stale, Planner.Claimable, AllOwn, AllStale, CountActive, ClaimableOf, Sorted;
    OwnOfTwo(o, a, b, GiveUp(a.id, restarts));
    StaleOfTwo(o, a, b);
    ActiveOfTwo(o, a, b);
    ClaimableOfTwo(a, b);
    SortedOne(b);
    assert Chosen(o) == [b];
    assert Planner.Claims([b]) == [Claim(b.id)];
    assert Orphans(o.orphans) == [];
  }

  lemma WornOutIsGivenUp(o: Observed, s: Session)
    requires Ours(o, s) && s.status == SessionStatus.Waiting && s.id in o.pods && o.pods[s.id] == WornOut(6)
    requires o.restartLimit == 5 && o.container == "devin-worker"
    ensures OwnActions(o, s) == [GiveUp(s.id, 6)] && GivenUp(o, s)
  {
    var pod := WornOut(6);
    assert RestartCount(pod) == 6 by {
      assert pod.status.value.containers[1..] == [];
    }
    assert WorkerRan(pod, "devin-worker") by {
      assert pod.status.value.containers[0] in pod.status.value.containers;
    }
    assert StartupFailureOf(pod, "devin-worker", o.now, o.startupTimeout) == None;
  }

  /** With a limit of one: giving up a, and claiming b into the slot that would free. */
  lemma BothArePlanned(c: Config)
    requires c.container == "devin-worker"
    ensures var a, b := Sample("a", Claimed, Some(c.us)), Sample("b", Pending, None);
            PlanOf(SamplePlanInput(c, [a, b], map["a" := WornOut(6)])) == [GiveUp("a", 6), Claim("b")]
  {
    hide PlanOf, StartupFailureOf, RestartCount, WornOut, PodActions;
    var a, b := Sample("a", Claimed, Some(c.us)), Sample("b", Pending, None);
    var o := SamplePlanInput(c, [a, b], map["a" := WornOut(6)]);
    WornOutIsGivenUp(o, a);
    PlanOfTwo(o, a, b, 6);
  }

  /** The release of a call that never reached the queue. */
  lemma UnsentGiveUp(c: Config, s: Pass, pod: Pod, rest: seq<Tick>)
    requires s.script == [Quiet(Unsent)] + rest && pod.pin == None
    ensures var t := RunJob(c, s, Run(GiveUp("a", 6), Some(pod)));
            t.world == s.world && t.kept == s.kept + {"a"} && t.script == rest && t.pods == s.pods
  {
    hide Exec, Completed, Hurries;
    var job := Run(GiveUp("a", 6), Some(pod));
    assert Next(c, job, [Failed]) == None;
    assert [] + [Failed] == [Failed];
    var after := Undisturbed(c, s.world, job, [], ReleaseRow("a"), Quiet(Unsent), rest);
    Halts(c, after, job, [Failed], rest);
    assert !Forgets(job, [Failed]);
  }

  lemma Halts(c: Config, w: World, job: Job, h: seq<Reply>, script: seq<Tick>)
    ensures Next(c, job, h) == None ==> Exec(c, w, job, h, script) == End(w, h, [], script)
    ensures script == [] ==> Exec(c, w, job, h, script).world == w && Exec(c, w, job, h, script).rest == []
  {
    hide Next;
  }

  /** The claim is granted, and the process ends there. */
  lemma LastClaim(c: Config, s: Pass)
    requires s.script == [Quiet(Works)] && "b" in s.world.rows && s.world.rows["b"].phase == Pending
    ensures var t := RunJob(c, s, Run(Claim("b"), None)); var w := s.world;
            && t.script == [] && t.kept == s.kept
            && t.world == w.(rows := w.rows["b" := w.rows["b"].(phase := Claimed, acceptor := Some(c.us), deadline := Some(0))])
  {
    hide Exec, Completed, Hurries, PodsAfter;
    var job, w := Run(Claim("b"), None), s.world;
    assert s.script == [Quiet(Works)] + [];
    var granted := Answer(c, w, ClaimRow("b"), Quiet(Works));
    var after := Undisturbed(c, w, job, [], ClaimRow("b"), Quiet(Works), []);
    Halts(c, after, job, [] + [granted], []);
  }

  lemma FirstPassOvershoots(c: Config, w: World, pods: map<string, Pod>)
    requires w.rows == map["a" := Sample("a", Claimed, Some(c.us)), "b" := Sample("b", Pending, None)]
    requires pods == map["a" := WornOut(6)]
    ensures var s := Begun(w, pods, [Quiet(Unsent), Quiet(Works)]);
            var t := RunActions(c, s, [GiveUp("a", 6), Claim("b")]);
            && t.kept == {"a"} && t.script == []
            && t.world == w.(rows := w.rows["b" := w.rows["b"].(phase := Claimed, acceptor := Some(c.us), deadline := Some(0))])
  {
    hide RunJob, Exec;
    var s := Begun(w, pods, [Quiet(Unsent), Quiet(Works)]);
    var giveUp, claim := GiveUp("a", 6), Claim("b");
    assert s.script == [Quiet(Unsent)] + [Quiet(Works)];
    UnsentGiveUp(c, s, pods["a"], [Quiet(Works)]);
    var first := RunJob(c, s, Run(giveUp, Some(pods["a"])));
    LastClaim(c, first);
    assert [giveUp][..0] == [] && [giveUp, claim][..1] == [giveUp];
    assert RunActions(c, s, [giveUp]) == first;
    assert RunActions(c, s, [giveUp, claim]) == RunJob(c, first, Run(claim, None));
  }

  /** A pass whose process ends before its first call changes nothing. */
  lemma {:induction false} DeadActions(c: Config, s: Pass, actions: seq<Action>)
    requires s.script == []
    ensures var t := RunActions(c, s, actions); t.world == s.world && t.script == []
  {
    if actions != [] { DeadActions(c, s, actions[..|actions| - 1]); }
  }

  lemma {:induction false} DeadRecycles(c: Config, s: Pass, pods: map<string, Pod>, ids: seq<string>)
    requires s.script == []
    ensures RunRecycles(c, s, pods, ids).world == s.world && RunRecycles(c, s, pods, ids).script == []
  {
    if ids != [] { DeadRecycles(c, s, pods, ids[..|ids| - 1]); }
  }

  lemma {:induction false} DeadCleanUps(c: Config, s: Pass, ids: seq<string>)
    requires s.script == []
    ensures RunCleanUps(c, s, ids).world == s.world && RunCleanUps(c, s, ids).script == []
  {
    if ids != [] { DeadCleanUps(c, s, ids[..|ids| - 1]); }
  }

  /** A pass that ends before its first call keeps every give-up, and holds what it found. */
  lemma DeadPass(c: Config, w: World, o: Observed)
    requires Observes(c, w, o)
    ensures var end := PassEnd(c, w, o, [], [], Some([])); end.world == w && end.kept <= GiveUps(PlanOf(o))
  {
    var s := Begun(w, o.pods, []);
    DeadActions(c, s, PlanOf(o));
    var acted := RunActions(c, s, PlanOf(o));
    DeadRecycles(c, acted, acted.pods, []);
    DeadCleanUps(c, RunRecycles(c, acted, acted.pods, []), []);
    PassKeepsOnlyGiveUps(c, w, o, [], [], Some([]));
  }

  /** Whatever happens in it, the pass ends with at most the limit and the give-ups it failed to release. */
  ghost predicate MeetsItsBound(c: Config, w: World, o: Observed) {
    forall script, cold, vanished :: Steady(script) ==>
      var end := PassEnd(c, w, o, script, cold, vanished); |Live(c, end.world)| <= o.maxConcurrent + |end.kept|
  }

  /**
   A pass is sure to end within the limit and its own unreleased give-ups if and
   only if no more sessions than the limit count as active when it lists them.
   */
  lemma MeetsItsBoundExactlyWhen(c: Config, w: World, o: Observed)
    requires Observes(c, w, o)
    ensures MeetsItsBound(c, w, o) <==> CountActive(o, o.sessions) <= o.maxConcurrent
  {
    assert UniqueIds(o.sessions);
    hide PassEnd, Observes, Live, PlanOf, CountActive, ActiveIds, ChosenIds;
    CountedAsIds(o);
    if CountActive(o, o.sessions) <= o.maxConcurrent {
      forall script, cold, vanished | Steady(script)
        ensures var end := PassEnd(c, w, o, script, cold, vanished); |Live(c, end.world)| <= o.maxConcurrent + |end.kept|
      {
        var end := PassEnd(c, w, o, script, cold, vanished);
        PassBoundsLive(c, w, o, script, cold, vanished);
        SlotsFilled(o);
        Sizes(Live(c, end.world), ActiveIds(o), ChosenIds(o), end.kept);
      }
    } else {
      DeadPass(c, w, o);
      KeptWereHeld(c, w, o, PassEnd(c, w, o, [], [], Some([])).kept);
      assert Steady([]);
    }
  }

  lemma CountedAsIds(o: Observed)
    requires UniqueIds(o.sessions)
    ensures CountActive(o, o.sessions) == |ActiveIds(o)|
  {
    ActiveCounted(o, o.sessions);
  }

  lemma SecondPassHoldsBoth(c: Config, w: World, o: Observed)
    requires Observes(c, w, o) && o.pods == map[]
    ensures var end := PassEnd(c, w, o, [], [], Some([])); end.world == w && end.kept == {}
  {
    DeadPass(c, w, o);
    forall id | id in GiveUps(PlanOf(o)) ensures false {
      var a :| a in PlanOf(o) && a.GiveUp? && a.id == id;
      AskedFor(o, a);
    }
  }

  lemma FirstRound(c: Config, w: World, o: Observed)
    requires c.container == "devin-worker" && w.pods == map["a" := WornOut(6)]
    requires w.rows == map["a" := Sample("a", Claimed, Some(c.us)), "b" := Sample("b", Pending, None)]
    requires o == SamplePlanInput(c, [w.rows["a"], w.rows["b"]], w.pods)
    ensures PassEnd(c, w, o, [Quiet(Unsent), Quiet(Works)], [], Some([])).world
         == w.(rows := w.rows["b" := w.rows["b"].(phase := Claimed, acceptor := Some(c.us), deadline := Some(0))])
  {
    hide PlanOf, RunActions, WornOut;
    BothArePlanned(c);
    FirstPassOvershoots(c, w, w.pods);
    var acted := RunActions(c, Begun(w, o.pods, [Quiet(Unsent), Quiet(Works)]), PlanOf(o));
    DeadRecycles(c, acted, acted.pods, []);
    DeadCleanUps(c, RunRecycles(c, acted, acted.pods, []), []);
  }

  lemma TwoRounds(c: Config, w: World, r1: Round, r2: Round, limit: nat)
    requires r1.gap == []
    ensures var w2 := Interfere(c, PassEnd(c, w, r1.seen, r1.script, r1.cold, r1.vanished).world, r2.gap);
            var end := PassEnd(c, w2, r2.seen, r2.script, r2.cold, r2.vanished);
            && WorldAfter(c, w, [r1, r2]) == end.world && KeptIn(c, w, [r1, r2]) == end.kept
            && (IsHistory(c, w, [r1, r2], limit) <==>
                && Observes(c, w, r1.seen) && r1.seen.maxConcurrent == limit && Steady(r1.script)
                && Observes(c, w2, r2.seen) && r2.seen.maxConcurrent == limit && Steady(r2.script)
                && forall e <- r2.gap :: !e.Revive?)
  {
    hide PassEnd, Observes, EnvStep;
    assert [r1, r2][..1] == [r1] && [r1][..0] == [];
    assert WorldListed(c, w, [r1]) == w;
    assert WorldAfter(c, w, [r1]) == PassEnd(c, w, r1.seen, r1.script, r1.cold, r1.vanished).world;
    assert IsHistory(c, w, [], limit);
    assert IsHistory(c, w, [r1], limit) <==> Observes(c, w, r1.seen) && r1.seen.maxConcurrent == limit && Steady(r1.script);
  }

  lemma Seen(c: Config, w: World, a: Session, b: Session)
    requires a.id == "a" && b.id == "b" && w.rows == map["a" := a, "b" := b]
    requires w.pods == map[] || w.pods == map["a" := WornOut(6)]
    ensures Observes(c, w, SamplePlanInput(c, [a, b], w.pods))
  {
  }

  const OURS := "ours"

  function OvershootConfig(): Config { Config(OURS, "devin-worker", [], "image", None, false, true) }

  function OvershootStart(): World {
    World(map["a" := Sample("a", Claimed, Some(OURS)), "b" := Sample("b", Pending, None)],
          map["a" := WornOut(6)], map[], {}, map[], 1)
  }

  function BothHeld(): World {
    World(map["a" := Sample("a", Claimed, Some(OURS)),
              "b" := Sample("b", Claimed, Some(OURS)).(deadline := Some(0))], map[], map[], {}, map[], 1)
  }

  function FirstOf(w: World): Round
    requires "a" in w.rows && "b" in w.rows
  {
    Round([], SamplePlanInput(OvershootConfig(), [w.rows["a"], w.rows["b"]], w.pods), [Quiet(Unsent), Quiet(Works)], [], Some([]))
  }

  function SecondOf(w: World): Round
    requires "a" in w.rows && "b" in w.rows
  {
    Round([PodGone("a")], SamplePlanInput(OvershootConfig(), [w.rows["a"], w.rows["b"]], map[]), [], [], Some([]))
  }

  lemma FirstLeadsToSecond()
    ensures var r := FirstOf(OvershootStart());
            var after := PassEnd(OvershootConfig(), OvershootStart(), r.seen, r.script, r.cold, r.vanished).world;
            Interfere(OvershootConfig(), after, [PodGone("a")]) == BothHeld()
  {
    hide PassEnd, WornOut;
    var c, w := OvershootConfig(), OvershootStart();
    FirstRound(c, w, FirstOf(w).seen);
    var w1 := w.(rows := w.rows["b" := w.rows["b"].(phase := Claimed, acceptor := Some(c.us), deadline := Some(0))]);
    assert [PodGone("a")][..0] == [] && Interfere(c, w1, []) == w1;
  }

  /**
   Why the bound speaks of the worst pass so far and not of the last: with a
   limit of one, a pass that failed to release a may claim b, and the next
   pass, with no give-up in its plan, ends with both still held.
   */
  lemma OvershootOutlivesItsPass()
    ensures var c, w := OvershootConfig(), OvershootStart();
            var rounds := [FirstOf(w), SecondOf(BothHeld())];
            && IsHistory(c, w, rounds, 1) && Live(c, w) == {"a"}
            && KeptIn(c, w, rounds) == {} && Live(c, WorldAfter(c, w, rounds)) == {"a", "b"}
  {
    hide PassEnd, Observes, WornOut, IsHistory, WorldAfter, KeptIn;
    var c, w, w2 := OvershootConfig(), OvershootStart(), BothHeld();
    FirstLeadsToSecond();
    TwoRounds(c, w, FirstOf(w), SecondOf(w2), 1);
    Seen(c, w, w.rows["a"], w.rows["b"]);
    Seen(c, w2, w2.rows["a"], w2.rows["b"]);
    SecondPassHoldsBoth(c, w2, SecondOf(w2).seen);
    assert Steady(SecondOf(w2).script) && Steady(FirstOf(w).script);
  }
}
