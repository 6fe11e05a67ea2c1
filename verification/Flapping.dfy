/** A session that has ended is never asked for again while it stays ended, over any run. */
module Flapping {
  import opened Basics
  import opened Pods
  import opened Planner
  import opened PlannerLaws
  import opened Cluster
  import opened Jobs
  import opened Passes
  import opened Concurrency

  /** Suspended, terminated, or no longer queued. */
  predicate Ended(w: World, id: string) { id in w.rows ==> Terminal(w.rows[id]) }

  /** Nothing outside wakes the session, or queues another under its ID. */
  predicate LetsLie(id: string, env: seq<Env>) {
    forall e <- env ::
      && !e.Revive?
      && (e.SetStatus? && e.id == id ==> EndStatus(e.status))
      && (e.Enqueue? ==> e.session.id != id)
  }

  predicate AllLetLie(id: string, script: seq<Tick>) { forall t <- script :: LetsLie(id, t.env) }

  lemma EnvKeepsEnded(c: Config, w: World, id: string, e: Env)
    requires Ended(w, id) && LetsLie(id, [e])
    ensures Ended(EnvStep(c, w, e), id)
  {
    assert e in [e];
  }

  lemma {:induction false} InterfereKeepsEnded(c: Config, w: World, id: string, env: seq<Env>)
    requires Ended(w, id) && LetsLie(id, env)
    ensures Ended(Interfere(c, w, env), id)
  {
    hide EnvStep, Ended;
    if env != [] {
      var e := env[|env| - 1];
      assert e in env;
      InterfereKeepsEnded(c, w, id, env[..|env| - 1]);
      EnvKeepsEnded(c, Interfere(c, w, env[..|env| - 1]), id, e);
    }
  }

  lemma EffectKeepsEnded(c: Config, w: World, id: string, op: Op, t: Tick)
    requires Ended(w, id)
    ensures Ended(Effect(c, w, op, t), id)
  {
  }

  lemma {:induction false} ExecKeepsEnded(c: Config, w: World, id: string, job: Job, h: seq<Reply>, script: seq<Tick>)
    requires Ended(w, id) && AllLetLie(id, script)
    ensures Ended(Exec(c, w, job, h, script).world, id) && AllLetLie(id, Exec(c, w, job, h, script).rest)
    decreases |script|
  {
    hide Next, Ended, Effect, Answer;
    if Next(c, job, h).Some? && script != [] {
      var op, t := Next(c, job, h).value, script[0];
      var found := Interfere(c, w, t.env);
      InterfereKeepsEnded(c, w, id, t.env);
      EffectKeepsEnded(c, found, id, op, t);
      ExecKeepsEnded(c, Effect(c, found, op, t), id, job, h + [Answer(c, found, op, t)], script[1..]);
    }
  }

  predicate StaysEnded(id: string, s: Pass) { Ended(s.world, id) && AllLetLie(id, s.script) }

  lemma JobKeepsEnded(c: Config, id: string, s: Pass, job: Job)
    requires StaysEnded(id, s)
    ensures StaysEnded(id, RunJob(c, s, job))
  {
    ExecKeepsEnded(c, s.world, id, job, [], s.script);
  }

  lemma {:induction false} ActionsKeepEnded(c: Config, id: string, s: Pass, actions: seq<Action>)
    requires StaysEnded(id, s)
    ensures StaysEnded(id, RunActions(c, s, actions))
  {
    hide RunJob, StaysEnded;
    if actions != [] {
      var a := actions[|actions| - 1];
      ActionsKeepEnded(c, id, s, actions[..|actions| - 1]);
      var before := RunActions(c, s, actions[..|actions| - 1]);
      JobKeepsEnded(c, id, before, Run(a, PodOf(before.pods, a)));
    }
  }

  lemma {:induction false} RecyclesKeepEnded(c: Config, id: string, s: Pass, pods: map<string, Pod>, ids: seq<string>)
    requires StaysEnded(id, s)
    ensures StaysEnded(id, RunRecycles(c, s, pods, ids))
  {
    hide RunJob, StaysEnded;
    if ids != [] {
      RecyclesKeepEnded(c, id, s, pods, ids[..|ids| - 1]);
      JobKeepsEnded(c, id, RunRecycles(c, s, pods, ids[..|ids| - 1]), Recycle(ids[|ids| - 1]));
    }
  }

  lemma {:induction false} CleanUpsKeepEnded(c: Config, id: string, s: Pass, ids: seq<string>)
    requires StaysEnded(id, s)
    ensures StaysEnded(id, RunCleanUps(c, s, ids))
  {
    hide RunJob, StaysEnded;
    if ids != [] {
      CleanUpsKeepEnded(c, id, s, ids[..|ids| - 1]);
      JobKeepsEnded(c, id, RunCleanUps(c, s, ids[..|ids| - 1]), CleanUp(ids[|ids| - 1]));
    }
  }

  lemma PassKeepsEnded(c: Config, w: World, id: string, r: Round)
    requires Ended(w, id) && AllLetLie(id, r.script)
    ensures Ended(PassEnd(c, w, r.seen, r.script, r.cold, r.vanished).world, id)
  {
    var s := Begun(w, r.seen.pods, r.script);
    ActionsKeepEnded(c, id, s, PlanOf(r.seen));
    var acted := RunActions(c, s, PlanOf(r.seen));
    RecyclesKeepEnded(c, id, acted, acted.pods, r.cold);
    CleanUpsKeepEnded(c, id, RunRecycles(c, acted, acted.pods, r.cold), r.vanished.GetOr([]));
  }

  /** From round `k` on, the rounds leave the session as it is. */
  predicate LetLieFrom(id: string, rounds: seq<Round>, k: nat) {
    forall i :: k <= i < |rounds| ==>
      AllLetLie(id, rounds[i].script) && (i > k ==> LetsLie(id, rounds[i].gap))
  }

  lemma {:induction false} StillEnded(c: Config, w: World, rounds: seq<Round>, id: string, k: nat)
    requires k < |rounds| && LetLieFrom(id, rounds, k)
    requires Ended(WorldListed(c, w, rounds[..k + 1]), id)
    ensures Ended(WorldListed(c, w, rounds), id)
    decreases |rounds|
  {
    hide PassEnd, Ended, LetsLie, AllLetLie;
    if |rounds| == k + 1 {
      assert rounds[..k + 1] == rounds;
    } else {
      var shorter, last := rounds[..|rounds| - 1], rounds[|rounds| - 1];
      assert shorter[..k + 1] == rounds[..k + 1];
      StillEnded(c, w, shorter, id, k);
      PassKeepsEnded(c, WorldListed(c, w, shorter), id, shorter[|shorter| - 1]);
      InterfereKeepsEnded(c, WorldAfter(c, w, shorter), id, last.gap);
    }
  }

  function CallsIn(c: Config, w: World, rounds: seq<Round>): seq<Op>
    requires rounds != []
  {
    var r := rounds[|rounds| - 1];
    PassEnd(c, WorldListed(c, w, rounds), r.seen, r.script, r.cold, r.vanished).calls
  }

  /**
   From the first pass that lists a session as suspended or terminated, no pass
   claims, starts or renews it while it stays so, however many passes follow
   and whatever calls fail, the release among them.
   */
  lemma NeverAskedForAgain(c: Config, w: World, rounds: seq<Round>, limit: nat, id: string, k: nat)
    requires IsHistory(c, w, rounds, limit) && k < |rounds| && LetLieFrom(id, rounds, k)
    requires Ended(WorldListed(c, w, rounds[..k + 1]), id)
    ensures ClaimRow(id) !in CallsIn(c, w, rounds)
  {
    hide PassEnd;
    StillEnded(c, w, rounds, id, k);
    var listed, r := WorldListed(c, w, rounds), rounds[|rounds| - 1];
    PassBoundsLive(c, listed, r.seen, r.script, r.cold, r.vanished);
    if id in ActiveIds(r.seen) + ChosenIds(r.seen) {
      AskedIsListedAwake(r.seen, id);
    }
  }

  lemma AskedIsListedAwake(o: Observed, id: string)
    requires id in ActiveIds(o) + ChosenIds(o)
    ensures exists s <- o.sessions :: s.id == id && !Terminal(s)
  {
    if id in ChosenIds(o) {
      var t :| t in Chosen(o) && t.id == id;
      ChosenFrom(o, t);
    }
  }
}
