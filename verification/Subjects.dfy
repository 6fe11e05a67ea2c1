/** Jobs keep to their own session: what a pass leaves as it is for a given one. */
module Subjects {
  import opened Basics
  import opened Pods
  import opened Planner
  import opened PlannerLaws
  import opened Cluster
  import opened Jobs
  import opened Passes

  lemma CallsStayHome(c: Config, job: Job, h: seq<Reply>, op: Op)
    requires Next(c, job, h) == Some(op)
    ensures op.id == Subject(job)
  {
  }

  /** The token secret, and the marker on it, are as they were; no artifacts were added. */
  predicate SameSecret(w: World, v: World, id: string) {
    && (id in v.secrets <==> id in w.secrets) && (id in w.secrets ==> v.secrets[id] == w.secrets[id])
    && (id in v.artifacts ==> id in w.artifacts)
  }

  lemma InterfereKeepsSecret(c: Config, w: World, env: seq<Env>, id: string)
    ensures SameSecret(w, Interfere(c, w, env), id)
  {
    InterfereKeepsHandle(c, w, env);
  }

  /** A call that neither writes the secret nor makes artifacts. */
  predicate LeavesSecret(op: Op, id: string) {
    op.id != id || op.DeletePod? || op.ReadSecret? || op.ClaimRow? || op.ReleaseRow?
  }

  lemma EffectKeepsSecret(c: Config, w: World, op: Op, t: Tick, id: string)
    requires LeavesSecret(op, id)
    ensures SameSecret(w, Effect(c, w, op, t), id)
  {
  }

  /** Whatever happens around it, a job about another session, or one that only deletes a pod. */
  lemma {:induction false} ExecStaysHome(c: Config, w: World, job: Job, h: seq<Reply>, script: seq<Tick>, id: string)
    requires Subject(job) != id || (job.Run? && job.action.DeleteOrphanPod?)
    ensures var end := Exec(c, w, job, h, script);
            && SameSecret(w, end.world, id)
            && (Subject(job) != id ==> forall op <- end.calls :: op.id != id)
    decreases |script|
  {
    hide Next, Effect, Answer, SameSecret;
    if Next(c, job, h).Some? && script != [] {
      var op, t := Next(c, job, h).value, script[0];
      var found := Interfere(c, w, t.env);
      var after, g := Effect(c, found, op, t), h + [Answer(c, found, op, t)];
      CallsStayHome(c, job, h, op);
      if Subject(job) == id { OrphanOnlyDeletes(c, job, h, op); }
      InterfereKeepsSecret(c, w, t.env, id);
      EffectKeepsSecret(c, found, op, t, id);
      ExecStaysHome(c, after, job, g, script[1..], id);
      SameSecretOnward(w, found, after, Exec(c, after, job, g, script[1..]).world, id);
    } else {
      SameSecretAlready(w, id);
    }
  }

  lemma OrphanOnlyDeletes(c: Config, job: Job, h: seq<Reply>, op: Op)
    requires Next(c, job, h) == Some(op) && job.Run? && job.action.DeleteOrphanPod?
    ensures op.DeletePod?
  {
  }

  lemma SameSecretAlready(w: World, id: string)
    ensures SameSecret(w, w, id)
  {
  }

  lemma SameSecretOnward(a: World, b: World, d: World, e: World, id: string)
    requires SameSecret(a, b, id) && SameSecret(b, d, id) && SameSecret(d, e, id)
    ensures SameSecret(a, e, id)
  {
  }

  /** The pass's own knowledge of other pods does not change either. */
  lemma PodsStayHome(c: Config, pods: map<string, Pod>, job: Job, h: seq<Reply>, id: string)
    requires Subject(job) != id
    ensures var after := PodsAfter(c, pods, job, h);
            (id in after <==> id in pods) && (id in pods ==> after[id] == pods[id])
  {
    hide Forgets, StartedPod;
  }

  /** What a listed row or an orphan can be planned for, by name. */
  lemma PlannedByName(c: Config, w: World, o: Observed, a: Action)
    requires Observes(c, w, o) && a in PlanOf(o)
    ensures IsListed(o, Subject(Run(a, None))) || a.DeleteOrphanPod?
    ensures var id := Subject(Run(a, None));
            id in w.rows ==>
              var s := w.rows[id];
              a in OwnActions(o, s) || (Planner.Claimable(s) && a == Claim(id)) || (Stale(o, s) && a == DeleteOrphanPod(id))
  {
    hide PlanOf, OwnActions;
    EveryActionHasAReason(o, a);
    if s :| s in o.sessions && PlannedFor(o, s, a) {
      OwnNamesItself(o, s, a);
      assert w.rows[s.id] == s;
    }
  }

  lemma OwnNamesItself(o: Observed, s: Session, a: Action)
    ensures a in OwnActions(o, s) ==> !a.DeleteOrphanPod? && a.id == s.id
  {
  }

  /** The first place of `id`; |ids| when it has none. */
  function IndexOf(ids: seq<string>, id: string): (k: nat)
    ensures k <= |ids| && (k < |ids| ==> ids[k] == id) && (k < |ids| <==> id in ids)
  {
    if ids == [] then 0 else if ids[0] == id then 0 else 1 + IndexOf(ids[1..], id)
  }
}
