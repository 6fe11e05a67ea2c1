/**
 With sessions left alone and their pods healthy, passes only ever make
 progress: whichever calls fail, no session gets further from settled.
 */
module Convergence {
  import opened Basics
  import opened Pods
  import opened Planner
  import opened PlannerLaws
  import opened Cluster
  import opened Jobs
  import opened Passes
  import opened Concurrency

  /** Nothing but minor changes from outside, and snapshots are ready; any call may still fail or lose its answer. */
  predicate Frozen(script: seq<Tick>) { forall t <- script :: Minor(t.env) && !t.lingers && t.ready }

  /** Pods report their status, and what nobody owns or needs is collected: no row and no pod comes or goes. */
  predicate Minor(env: seq<Env>) { forall e <- env :: e.PodChanges? || e.Collect? || e.ArtifactsExpire? }

  /** The same rows, and the same pods by name. */
  predicate Alike(w: World, v: World) { v.rows == w.rows && v.pods.Keys == w.pods.Keys }

  lemma MinorStep(c: Config, w: World, e: Env)
    requires e.PodChanges? || e.Collect? || e.ArtifactsExpire?
    ensures Alike(w, EnvStep(c, w, e))
  {
  }

  lemma {:induction false} MinorKeeps(c: Config, w: World, env: seq<Env>)
    requires Minor(env)
    ensures Alike(w, Interfere(c, w, env))
  {
    hide EnvStep;
    if env != [] {
      var e := env[|env| - 1];
      assert e in env;
      MinorKeeps(c, w, env[..|env| - 1]);
      MinorStep(c, Interfere(c, w, env[..|env| - 1]), e);
    }
  }

  /**
   How far a session, or an orphan pod, is from needing nothing but renewals: what
   a plan would act on, not what is left. An ended session weighs nothing from the
   moment its claim is released, even with its pod and secret still there.
   */
  function Weight(c: Config, w: World, id: string): nat {
    var hasPod := id in w.pods;
    if id !in w.rows then (if hasPod then 1 else 0)
    else if OursIn(c, w.rows[id]) then (if Terminal(w.rows[id]) || !hasPod then 1 else 0)
    else if w.rows[id].phase == Claimed then (if hasPod then 1 else 0)
    else if Claimable(w.rows[id]) then 2
    else 0
  }

  datatype Class = Awake | Over | Foreign | Odd

  /** What a pass can do about a session: run it, end it, or only clear its pod away. */
  function ClassOf(c: Config, w: World, id: string): Class {
    if id !in w.rows || (w.rows[id].phase == Claimed && !OursIn(c, w.rows[id])) then Foreign
    else if w.rows[id].phase == Unknown then Odd
    else if Terminal(w.rows[id]) then Over
    else Awake
  }

  predicate OursAwake(c: Config, w: World, id: string) { ClassOf(c, w, id) == Awake && OursIn(c, w.rows[id]) }

  /** From `w` to `v` the session stayed what it was and came no further from settled. */
  predicate Evolved(c: Config, w: World, v: World, id: string) {
    && (id in v.rows <==> id in w.rows)
    && ClassOf(c, v, id) == ClassOf(c, w, id)
    && Weight(c, v, id) <= Weight(c, w, id)
    && (OursAwake(c, w, id) ==> OursAwake(c, v, id))
  }

  function SubjectOf(a: Action): string { if a.DeleteOrphanPod? then a.podName else a.id }

  predicate Suits(c: Config, w: World, a: Action) {
    var kind := ClassOf(c, w, SubjectOf(a));
    if AsksQueue(a) then kind == Awake
    else if a.Suspend? || a.Terminate? then kind == Over
    else a.DeleteOrphanPod? && kind == Foreign
  }

  function OpId(op: Op): string { op.id }

  predicate Allowed(a: Action, op: Op) {
    if AsksQueue(a) then !op.ReleaseRow? && !op.ReportFailure? && !op.DeletePod?
    else if a.Suspend? || a.Terminate? then !op.ClaimRow? && !op.ReportFailure? && !op.CreatePod?
    else op.DeletePod?
  }

  lemma CallsAreAllowed(c: Config, a: Action, pod: Option<Pod>, h: seq<Reply>, op: Op)
    requires AsksQueue(a) || a.Suspend? || a.Terminate? || a.DeleteOrphanPod?
    requires Next(c, Run(a, pod), h) == Some(op)
    ensures Allowed(a, op) && OpId(op) == SubjectOf(a)
  {
  }

  /** One call, answered or not, brings no session further from settled. */
  lemma CallHelps(c: Config, w: World, a: Action, op: Op, t: Tick, id: string)
    requires Suits(c, w, a) && Allowed(a, op) && OpId(op) == SubjectOf(a) && !t.lingers
    ensures Evolved(c, w, Effect(c, w, op, t), id)
  {
  }

  lemma EvolvedOnward(c: Config, w: World, v: World, u: World, id: string)
    requires Evolved(c, w, v, id) && Evolved(c, v, u, id)
    ensures Evolved(c, w, u, id)
  {
  }

  lemma StaysSuited(c: Config, w: World, v: World, a: Action)
    requires Suits(c, w, a) && Evolved(c, w, v, SubjectOf(a))
    ensures Suits(c, v, a)
  {
  }

  /** The answers from which on a session is settled. */
  predicate Settling(a: Action, pod: Option<Pod>, h: seq<Reply>) {
    match a
    case Suspend(_) => var from := if pod.Some? then 3 else 2; |h| > from && Released(h[from])
    case Terminate(_) => |h| > 0 && Released(h[0])
    case DeleteOrphanPod(_) => |h| > 0 && Deleted(h[0])
    case Claim(_) => PodMade(h)
    case StartWorker(_) => PodMade(h)
    case _ => false
  }

  predicate PodMade(h: seq<Reply>) {
    |h| > 4 && h[0].Granted? && exists i :: 4 <= i < |h| && (h[i].Created? || h[i] == Refused)
  }

  /** What the answers so far have established. */
  predicate Reached(c: Config, w: World, a: Action, pod: Option<Pod>, h: seq<Reply>) {
    && Suits(c, w, a)
    && (Settling(a, pod, h) ==> Weight(c, w, SubjectOf(a)) == 0)
    && ((a.Claim? || a.StartWorker?) && h != [] && h[0].Granted? ==> OursAwake(c, w, SubjectOf(a)))
    && (a.Suspend? ==> h != [Snapshot(false)])
  }

  lemma CallSettles(c: Config, w: World, a: Action, pod: Option<Pod>, h: seq<Reply>, op: Op, t: Tick)
    requires Reached(c, w, a, pod, h) && Next(c, Run(a, pod), h) == Some(op) && !t.lingers && t.ready
    ensures Reached(c, Effect(c, w, op, t), a, pod, h + [Answer(c, w, op, t)])
  {
    hide Weight, ClassOf;
    var v, g := Effect(c, w, op, t), h + [Answer(c, w, op, t)];
    CallsAreAllowed(c, a, pod, h, op);
    CallHelps(c, w, a, op, t, SubjectOf(a));
    if Settling(a, pod, g) && !Settling(a, pod, h) {
      if a.Claim? || a.StartWorker? {
        MadeByLast(h, g[|h|]);
        StartCallSettles(c, w, a, pod, h, op, t);
      } else {
        EndCallSettles(c, w, a, pod, h, op, t);
      }
    }
    if (a.Claim? || a.StartWorker?) && h == [] && g[0].Granted? { ClaimMakesOurs(c, w, a, op, t); }
    assert h != [] ==> g[0] == h[0];
    assert a.Suspend? ==> g != [Snapshot(false)] by { assert g[|h|] != Snapshot(false); }
  }

  lemma ClaimMakesOurs(c: Config, w: World, a: Action, op: Op, t: Tick)
    requires Suits(c, w, a) && AsksQueue(a) && op == ClaimRow(a.id) && t.fault != Unsent
    ensures OursAwake(c, Effect(c, w, op, t), a.id)
  {
  }

  lemma MadeByLast(h: seq<Reply>, r: Reply)
    requires PodMade(h + [r]) && !PodMade(h)
    ensures |h| >= 4 && h[0].Granted? && (r.Created? || r == Refused)
  {
    var g := h + [r];
    var i :| 4 <= i < |g| && (g[i].Created? || g[i] == Refused);
    if i < |h| { assert h[i] == g[i]; }
  }

  lemma StartCallSettles(c: Config, w: World, a: Action, pod: Option<Pod>, h: seq<Reply>, op: Op, t: Tick)
    requires (a.Claim? || a.StartWorker?) && Next(c, Run(a, pod), h) == Some(op) && |h| >= 4
    requires OursAwake(c, w, a.id)
    requires var r := Answer(c, w, op, t); r.Created? || r == Refused
    ensures Weight(c, Effect(c, w, op, t), a.id) == 0
  {
    LateStartCall(c, a.id, h, op);
  }

  lemma LateStartCall(c: Config, id: string, h: seq<Reply>, op: Op)
    requires NextStart(c, id, h) == Some(op) && |h| >= 4
    ensures op.FindEnforcer? || op.ApplyPolicy? || (op.CreatePod? && op.id == id)
  {
  }

  lemma EndCallSettles(c: Config, w: World, a: Action, pod: Option<Pod>, h: seq<Reply>, op: Op, t: Tick)
    requires a.Suspend? || a.Terminate? || a.DeleteOrphanPod?
    requires Suits(c, w, a) && Next(c, Run(a, pod), h) == Some(op) && !t.lingers
    requires Settling(a, pod, h + [Answer(c, w, op, t)]) && !Settling(a, pod, h)
    ensures Weight(c, Effect(c, w, op, t), SubjectOf(a)) == 0
  {
    var g := h + [Answer(c, w, op, t)];
    assert forall i :: 0 <= i < |h| ==> g[i] == h[i];
  }

  /** An action that suits its session, from any point on. */
  lemma {:induction false} ExecHelps(c: Config, w: World, a: Action, pod: Option<Pod>, h: seq<Reply>, script: seq<Tick>, id: string)
    requires Frozen(script) && Reached(c, w, a, pod, h)
    ensures var end := Exec(c, w, Run(a, pod), h, script);
            && Frozen(end.rest) && Evolved(c, w, end.world, id) && Reached(c, end.world, a, pod, end.answers)
    decreases |script|
  {
    hide Next, Effect, Answer, Reached, Evolved, Suits;
    var job := Run(a, pod);
    if Next(c, job, h).Some? {
      var op := Next(c, job, h).value;
      if script == [] {
        FailureReaches(c, w, a, pod, h);
        EvolvedAlready(c, w, id);
      } else {
        var t := script[0];
        var found := Interfere(c, w, t.env);
        MinorKeeps(c, w, t.env);
        AlikeReached(c, w, found, a, pod, h);
        SameStanding(c, w, w, found, id);
        EvolvedAlready(c, w, id);
        var v, g := Effect(c, found, op, t), h + [Answer(c, found, op, t)];
        SuitedWhenReached(c, found, a, pod, h);
        CallsAreAllowed(c, a, pod, h, op);
        CallHelps(c, found, a, op, t, id);
        CallSettles(c, found, a, pod, h, op, t);
        ExecHelps(c, v, a, pod, g, script[1..], id);
        EvolvedOnward(c, w, found, v, id);
        EvolvedOnward(c, w, v, Exec(c, v, job, g, script[1..]).world, id);
      }
    } else {
      EvolvedAlready(c, w, id);
    }
  }

  lemma AlikeReached(c: Config, w: World, v: World, a: Action, pod: Option<Pod>, h: seq<Reply>)
    requires Reached(c, w, a, pod, h) && Alike(w, v)
    ensures Reached(c, v, a, pod, h)
  {
    hide Settling;
  }

  lemma EvolvedAlready(c: Config, w: World, id: string)
    ensures Evolved(c, w, w, id)
  {
  }

  lemma SuitedWhenReached(c: Config, w: World, a: Action, pod: Option<Pod>, h: seq<Reply>)
    requires Reached(c, w, a, pod, h)
    ensures Suits(c, w, a) && (AsksQueue(a) || a.Suspend? || a.Terminate? || a.DeleteOrphanPod?)
  {
  }

  lemma FailureReaches(c: Config, w: World, a: Action, pod: Option<Pod>, h: seq<Reply>)
    requires Reached(c, w, a, pod, h)
    ensures Reached(c, w, a, pod, h + [Failed])
  {
    hide Weight, ClassOf;
    var g := h + [Failed];
    assert forall i :: 0 <= i < |h| ==> g[i] == h[i];
    if PodMade(g) && !PodMade(h) { MadeByLast(h, Failed); }
    assert Settling(a, pod, g) ==> Settling(a, pod, h);
    assert h != [] ==> g[0] == h[0];
    assert g != [Snapshot(false)] by { assert g[|h|] == Failed; }
  }

  /** A completed action, other than a renewal, has settled its session. */
  lemma CompletedIsSettling(c: Config, a: Action, pod: Option<Pod>, h: seq<Reply>)
    requires Possible(c, Run(a, pod), h) && Completed(c, Run(a, pod), h) && !a.Renew?
    requires AsksQueue(a) || (a.Suspend? && h != [Snapshot(false)]) || a.Terminate? || a.DeleteOrphanPod?
    ensures Settling(a, pod, h)
  {
    var job := Run(a, pod);
    if a.Claim? || a.StartWorker? {
      StartCompletedMakesPod(c, job, h);
    } else if a.Terminate? {
      assert Next(c, job, h[..1]).Some?;
    }
  }

  lemma StartCompletedMakesPod(c: Config, job: Job, h: seq<Reply>)
    requires job.Run? && (job.action.Claim? || job.action.StartWorker?)
    requires Possible(c, job, h) && Next(c, job, h).None? && StartCompleted(c, h)
    ensures PodMade(h)
  {
    hide NextStart;
    var n := |h| - 1;
    var g, id := h[..n], job.action.id;
    assert Next(c, job, g).Some? && Fits(Next(c, job, g).value, h[n]);
    var op := NextStart(c, id, g).value;
    assert forall i :: 0 <= i < n ==> g[i] == h[i];
    assert g + [h[n]] == h;
    LastStartCall(c, id, g, h[n]);
  }

  lemma LastStartCall(c: Config, id: string, g: seq<Reply>, r: Reply)
    requires |g| >= 4 && Token(g[0]) && NextStart(c, id, g).Some? && NextStart(c, id, g + [r]).None?
    requires Fits(NextStart(c, id, g).value, r) && (r == Done || r.Created? || r == Refused)
    ensures PodMade(g + [r])
  {
    var op, h := NextStart(c, id, g).value, g + [r];
    assert forall i :: 0 <= i < |g| ==> h[i] == g[i];
    var from, kinds := if g[0].session.restricted then 5 else 4, if g[0].session.restricted && |g| > 4 then g[4].kinds else [];
    if op.CreatePod? {
      assert h[|g|] == r;
    } else if |g| > from + |kinds| {
      assert g[from + |kinds|].Created? && h[from + |kinds|].Created?;
    }
  }

  // ------------------------------------------------------------- whole passes

  predicate AllSuit(c: Config, w: World, actions: seq<Action>) { forall a <- actions :: Suits(c, w, a) }

  lemma StartsUnreached(c: Config, w: World, a: Action, pod: Option<Pod>)
    requires Suits(c, w, a)
    ensures Reached(c, w, a, pod, [])
  {
  }

  lemma JobHelps(c: Config, s: Pass, a: Action, id: string)
    requires Frozen(s.script) && Suits(c, s.world, a)
    ensures var t := RunJob(c, s, Run(a, PodOf(s.pods, a))); Frozen(t.script) && Evolved(c, s.world, t.world, id)
  {
    hide Exec, Suits, Evolved;
    StartsUnreached(c, s.world, a, PodOf(s.pods, a));
    ExecHelps(c, s.world, a, PodOf(s.pods, a), [], s.script, id);
  }

  /** The actions before it leave an action suited to its session. */
  lemma {:induction false} SuitedInTurn(c: Config, s: Pass, actions: seq<Action>, k: nat)
    requires Frozen(s.script) && AllSuit(c, s.world, actions) && k < |actions|
    ensures Frozen(RunActions(c, s, actions[..k]).script) && Suits(c, RunActions(c, s, actions[..k]).world, actions[k])
    decreases k, 1
  {
    hide RunJob, Suits, Evolved, RunActions;
    assert actions[k] in actions;
    ActionsHelpBefore(c, s, actions, k, SubjectOf(actions[k]));
    StaysSuited(c, s.world, RunActions(c, s, actions[..k]).world, actions[k]);
  }

  lemma {:induction false} ActionsHelpBefore(c: Config, s: Pass, actions: seq<Action>, k: nat, id: string)
    requires Frozen(s.script) && AllSuit(c, s.world, actions) && k <= |actions|
    ensures var t := RunActions(c, s, actions[..k]); Frozen(t.script) && Evolved(c, s.world, t.world, id)
    decreases k, 0
  {
    hide RunJob, Suits, Evolved;
    if k == 0 {
      EvolvedAlready(c, s.world, id);
    } else {
      var a := actions[k - 1];
      assert actions[..k][..k - 1] == actions[..k - 1];
      ActionsHelpBefore(c, s, actions, k - 1, id);
      SuitedInTurn(c, s, actions, k - 1);
      var before := RunActions(c, s, actions[..k - 1]);
      JobHelps(c, before, a, id);
      EvolvedOnward(c, s.world, before.world, RunJob(c, before, Run(a, PodOf(before.pods, a))).world, id);
    }
  }

  lemma ActionsHelp(c: Config, s: Pass, actions: seq<Action>, id: string)
    requires Frozen(s.script) && AllSuit(c, s.world, actions)
    ensures var t := RunActions(c, s, actions); Frozen(t.script) && Evolved(c, s.world, t.world, id)
  {
    assert actions[..|actions|] == actions;
    ActionsHelpBefore(c, s, actions, |actions|, id);
  }

  /** Whether the k-th planned action went through. */
  predicate FinishedAt(c: Config, s: Pass, actions: seq<Action>, k: nat)
    requires k < |actions|
  {
    var before := RunActions(c, s, actions[..k]);
    var job := Run(actions[k], PodOf(before.pods, actions[k]));
    Completed(c, job, Exec(c, before.world, job, [], before.script).answers)
  }

  /** A finished action leaves its session settled, through the rest of the actions. */
  lemma {:induction false} FinishedSettles(c: Config, s: Pass, actions: seq<Action>, k: nat, n: nat)
    requires Frozen(s.script) && AllSuit(c, s.world, actions) && k < n <= |actions|
    requires FinishedAt(c, s, actions, k) && !actions[k].Renew?
    ensures Weight(c, RunActions(c, s, actions[..n]).world, SubjectOf(actions[k])) == 0
    decreases n
  {
    hide RunJob, Suits, Weight, FinishedAt;
    var id, a := SubjectOf(actions[k]), actions[n - 1];
    var before := RunActions(c, s, actions[..n - 1]);
    assert actions[..n][..n - 1] == actions[..n - 1];
    SuitedInTurn(c, s, actions, n - 1);
    if k == n - 1 {
      FinishedJobSettles(c, s, actions, k);
    } else {
      FinishedSettles(c, s, actions, k, n - 1);
      JobHelps(c, before, a, id);
    }
  }

  lemma FinishedJobSettles(c: Config, s: Pass, actions: seq<Action>, k: nat)
    requires k < |actions| && FinishedAt(c, s, actions, k) && !actions[k].Renew?
    requires var before := RunActions(c, s, actions[..k]); Frozen(before.script) && Suits(c, before.world, actions[k])
    ensures var before := RunActions(c, s, actions[..k]); var a := actions[k];
            Weight(c, RunJob(c, before, Run(a, PodOf(before.pods, a))).world, SubjectOf(a)) == 0
  {
    hide Exec, Suits, Weight, Completed, Next;
    var before, a := RunActions(c, s, actions[..k]), actions[k];
    var pod := PodOf(before.pods, a);
    var job := Run(a, pod);
    StartsUnreached(c, before.world, a, pod);
    ExecHelps(c, before.world, a, pod, [], before.script, SubjectOf(a));
    ExecAnswersPossible(c, before.world, job, [], before.script);
    var end := Exec(c, before.world, job, [], before.script);
    SuitedWhenReached(c, end.world, a, pod, end.answers);
    CompletedIsSettling(c, a, pod, end.answers);
  }

  // -------------------------------------------------------- the healthy plan

  predicate HealthyPod(o: Observed, s: Session, pod: Pod) {
    && !InPhase(pod, "Succeeded") && FailureOf(o, pod).None? && RestartCount(pod) <= o.restartLimit
    && !Drifted(o, s, pod)
  }

  /** No running pod still waits for a recycle. */
  predicate NoneCold(pods: map<string, Pod>) { forall id <- pods :: !NeedsRecycle(pods[id]) }

  predicate Healthy(o: Observed) {
    && (forall s <- o.sessions :: s.id in o.pods ==> HealthyPod(o, s, o.pods[s.id]))
    && NoneCold(o.pods)
  }

  /** Every action of a healthy plan suits its session; all but renewals are about one that is not settled. */
  lemma HealthyPlanSuits(c: Config, w: World, o: Observed, a: Action)
    requires Observes(c, w, o) && Healthy(o) && a in PlanOf(o)
    ensures Suits(c, w, a) && (!a.Renew? ==> Weight(c, w, SubjectOf(a)) > 0)
  {
    hide PlanOf, Healthy, Suits, Weight, OwnActions;
    EveryActionHasAReason(o, a);
    if s :| s in o.sessions && PlannedFor(o, s, a) {
      if a in OwnActions(o, s) { OwnActionSuits(c, w, o, s, a); } else { OtherActionSuits(c, w, o, s, a); }
    } else {
      OrphanActionSuits(c, w, o, a);
    }
  }

  lemma OwnActionSuits(c: Config, w: World, o: Observed, s: Session, a: Action)
    requires Observes(c, w, o) && Healthy(o) && s in o.sessions && a in OwnActions(o, s)
    ensures Suits(c, w, a) && (!a.Renew? ==> Weight(c, w, SubjectOf(a)) > 0)
  {
    hide Healthy, PodActions;
    assert w.rows[s.id] == s;
    OwnWhenHealthy(o, s, a);
  }

  lemma OtherActionSuits(c: Config, w: World, o: Observed, s: Session, a: Action)
    requires Observes(c, w, o) && s in o.sessions
    requires (Claimable(s) && a == Claim(s.id)) || (Stale(o, s) && a == DeleteOrphanPod(o.pods[s.id].name))
    ensures Suits(c, w, a) && Weight(c, w, SubjectOf(a)) > 0
  {
    assert w.rows[s.id] == s;
  }

  lemma OrphanActionSuits(c: Config, w: World, o: Observed, a: Action)
    requires Observes(c, w, o) && a.DeleteOrphanPod? && a.podName in o.orphans
    ensures Suits(c, w, a) && Weight(c, w, SubjectOf(a)) > 0
  {
  }

  lemma OwnWhenHealthy(o: Observed, s: Session, a: Action)
    requires Healthy(o) && s in o.sessions && a in OwnActions(o, s)
    ensures Ours(o, s)
    ensures a == if s.status == Terminated then Terminate(s.id) else if s.status == Suspended then Suspend(s.id)
                 else if s.id !in o.pods then StartWorker(s.id) else Renew(s.id)
  {
  }

  lemma {:induction false} NoRecycles(c: Config, s: Pass, pods: map<string, Pod>, ids: seq<string>)
    requires NoneCold(pods)
    ensures RunRecycles(c, s, pods, ids) == s
  {
    if ids != [] { NoRecycles(c, s, pods, ids[..|ids| - 1]); }
  }

  lemma KnownPodsAfter(c: Config, pods: map<string, Pod>, job: Job, h: seq<Reply>)
    requires NoneCold(pods)
    ensures NoneCold(PodsAfter(c, pods, job, h))
  {
    hide NeedsRecycle, StartedPod, Forgets;
    if job.Run? && (job.action.Claim? || job.action.StartWorker?) { StartedIsFresh(c, job.action.id, h); }
  }

  lemma StartedIsFresh(c: Config, id: string, h: seq<Reply>)
    ensures StartedPod(c, id, h).Some? ==> !NeedsRecycle(StartedPod(c, id, h).value)
  {
  }

  lemma {:induction false} NoneToRecycle(c: Config, s: Pass, actions: seq<Action>)
    requires NoneCold(s.pods)
    ensures NoneCold(RunActions(c, s, actions).pods)
  {
    hide Exec, NoneCold, PodsAfter;
    if actions != [] {
      var a := actions[|actions| - 1];
      NoneToRecycle(c, s, actions[..|actions| - 1]);
      var before := RunActions(c, s, actions[..|actions| - 1]);
      var job := Run(a, PodOf(before.pods, a));
      KnownPodsAfter(c, before.pods, job, Exec(c, before.world, job, [], before.script).answers);
    }
  }

  lemma {:induction false} CleanUpKeeps(c: Config, w: World, id: string, h: seq<Reply>, script: seq<Tick>)
    requires Frozen(script)
    ensures var end := Exec(c, w, CleanUp(id), h, script);
            Alike(w, end.world) && Frozen(end.rest)
    decreases |script|
  {
    var next := Next(c, CleanUp(id), h);
    if next.Some? && script != [] {
      var found := Interfere(c, w, script[0].env);
      MinorKeeps(c, w, script[0].env);
      CleanUpKeeps(c, Effect(c, found, next.value, script[0]), id, h + [Answer(c, found, next.value, script[0])], script[1..]);
    }
  }

  lemma {:induction false} CleanUpsKeep(c: Config, s: Pass, ids: seq<string>)
    requires Frozen(s.script)
    ensures var t := RunCleanUps(c, s, ids);
            Alike(s.world, t.world) && Frozen(t.script)
  {
    if ids != [] {
      CleanUpsKeep(c, s, ids[..|ids| - 1]);
      var before := RunCleanUps(c, s, ids[..|ids| - 1]);
      CleanUpKeeps(c, before.world, ids[|ids| - 1], [], before.script);
    }
  }

  /** The end of a pass, as far as queue and pods go, is the end of its actions. */
  lemma PassIsItsActions(c: Config, w: World, o: Observed, r: Round)
    requires Observes(c, w, o) && Healthy(o) && Frozen(r.script) && r.seen == o
    ensures var s := Begun(w, o.pods, r.script); var acted := RunActions(c, s, PlanOf(o)).world;
            var end := PassEnd(c, w, o, r.script, r.cold, r.vanished).world;
            AllSuit(c, w, PlanOf(o)) && Alike(acted, end)
  {
    hide PlanOf, Healthy, RunActions, Suits, Observes;
    var s := Begun(w, o.pods, r.script);
    forall a | a in PlanOf(o) ensures Suits(c, w, a) { HealthyPlanSuits(c, w, o, a); }
    ActionsHelp(c, s, PlanOf(o), "");
    var acted := RunActions(c, s, PlanOf(o));
    NoneNeedRecycling(o);
    NoneToRecycle(c, s, PlanOf(o));
    NoRecycles(c, acted, acted.pods, r.cold);
    CleanUpsKeep(c, acted, r.vanished.GetOr([]));
  }

  lemma NoneNeedRecycling(o: Observed)
    requires Healthy(o)
    ensures NoneCold(o.pods)
  {
  }

  /** Only rows and pods say where a session stands. */
  lemma SameStanding(c: Config, w: World, v: World, u: World, id: string)
    requires Alike(v, u)
    ensures Weight(c, v, id) == Weight(c, u, id)
    ensures Evolved(c, w, v, id) ==> Evolved(c, w, u, id)
  {
  }

  /** Whichever calls fail, a pass brings no session further from settled. */
  lemma PassHelps(c: Config, w: World, r: Round, id: string)
    requires Observes(c, w, r.seen) && Healthy(r.seen) && Frozen(r.script)
    ensures Evolved(c, w, PassEnd(c, w, r.seen, r.script, r.cold, r.vanished).world, id)
  {
    hide PlanOf, Healthy, RunActions, Evolved, PassEnd, Observes, Suits;
    var s := Begun(w, r.seen.pods, r.script);
    PassIsItsActions(c, w, r.seen, r);
    ActionsHelp(c, s, PlanOf(r.seen), id);
    SameStanding(c, w, RunActions(c, s, PlanOf(r.seen)).world, PassEnd(c, w, r.seen, r.script, r.cold, r.vanished).world, id);
  }

  /** An action that finished in a pass was about an unsettled session, which the pass leaves settled. */
  lemma FinishedInPass(c: Config, w: World, r: Round, k: nat)
    requires Observes(c, w, r.seen) && Healthy(r.seen) && Frozen(r.script)
    requires k < |PlanOf(r.seen)| && !PlanOf(r.seen)[k].Renew?
    requires FinishedAt(c, Begun(w, r.seen.pods, r.script), PlanOf(r.seen), k)
    ensures var id := SubjectOf(PlanOf(r.seen)[k]);
            Weight(c, w, id) > 0 && Weight(c, PassEnd(c, w, r.seen, r.script, r.cold, r.vanished).world, id) == 0
  {
    hide PlanOf, Healthy, RunActions, Evolved, PassEnd, Weight, FinishedAt, Observes, Suits;
    var s, actions := Begun(w, r.seen.pods, r.script), PlanOf(r.seen);
    PassIsItsActions(c, w, r.seen, r);
    HealthyPlanSuits(c, w, r.seen, actions[k]);
    FinishedSettles(c, s, actions, k, |actions|);
    assert actions[..|actions|] == actions;
    SameStanding(c, w, RunActions(c, s, actions).world, PassEnd(c, w, r.seen, r.script, r.cold, r.vanished).world, SubjectOf(actions[k]));
  }
}
