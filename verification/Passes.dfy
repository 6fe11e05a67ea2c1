/** One reconcile pass: the planned actions in order, then the cold-start recycles and the cleanups. */
module Passes {
  import opened Basics
  import opened Pods
  import opened Planner
  import opened Cluster
  import opened Jobs

  /**
   The pass under way. `kept` holds the sessions whose GiveUp did not get its
   release answered: it failed earlier, or became an unpinned retry.
   */
  datatype Pass = Pass(world: World, pods: map<string, Pod>, script: seq<Tick>, pending: bool, broken: bool,
                       calls: seq<Op>, kept: set<string>)

  function Begun(w: World, pods: map<string, Pod>, script: seq<Tick>): Pass {
    Pass(w, pods, script, false, false, [], {})
  }

  /** The answers of a GiveUp include that of its release. */
  predicate GaveBack(job: Job, h: seq<Reply>) {
    job.Run? && job.action.GiveUp? &&
    var from := if job.pod.Some? && ColdStarted(job.pod.value) then 1 else 0;
    |h| > from && (from == 1 ==> h[0].Secret? && h[0] != Secret(true, None)) && Released(h[from])
  }

  function RunJob(c: Config, s: Pass, job: Job): Pass {
    var end := Exec(c, s.world, job, [], s.script);
    Pass(end.world, PodsAfter(c, s.pods, job, end.answers), end.rest,
         s.pending || Hurries(job, end.answers),
         s.broken || VerdictOf(c, job, end.answers) == Broken,
         s.calls + end.calls,
         if job.Run? && job.action.GiveUp? && !GaveBack(job, end.answers) then s.kept + {job.action.id} else s.kept)
  }

  function RunActions(c: Config, s: Pass, actions: seq<Action>): Pass {
    if actions == [] then s
    else
      var before := RunActions(c, s, actions[..|actions| - 1]);
      var a := actions[|actions| - 1];
      RunJob(c, before, Run(a, PodOf(before.pods, a)))
  }

  predicate NeedsRecycle(pod: Pod) { InPhase(pod, "Running") && !pod.deleting && ColdStarted(pod) }

  /** Over the pods the pass knew after the actions, in the order of `ids`. */
  function RunRecycles(c: Config, s: Pass, pods: map<string, Pod>, ids: seq<string>): Pass {
    if ids == [] then s
    else
      var before := RunRecycles(c, s, pods, ids[..|ids| - 1]);
      var id := ids[|ids| - 1];
      if id in pods && NeedsRecycle(pods[id]) then RunJob(c, before, Recycle(id)) else before
  }

  function RunCleanUps(c: Config, s: Pass, ids: seq<string>): Pass {
    if ids == [] then s
    else RunJob(c, RunCleanUps(c, s, ids[..|ids| - 1]), CleanUp(ids[|ids| - 1]))
  }

  /**
   `cold` orders the pods known after the actions, `vanished` the secrets
   without a listed session; None when listing the secrets failed, which ends
   the pass in an error.
   */
  function RunPass(c: Config, s: Pass, actions: seq<Action>, cold: seq<string>, vanished: Option<seq<string>>): Pass {
    var acted := RunActions(c, s, actions);
    var cleaned := RunCleanUps(c, RunRecycles(c, acted, acted.pods, cold), vanished.GetOr([]));
    cleaned.(broken := cleaned.broken || vanished.None?)
  }

  function PassEnd(c: Config, w: World, o: Observed, script: seq<Tick>, cold: seq<string>, vanished: Option<seq<string>>): Pass {
    RunPass(c, Begun(w, o.pods, script), PlanOf(o), cold, vanished)
  }

  /** One pass of a run: what happens before its listing, what it lists and how its calls go. */
  datatype Round = Round(gap: seq<Env>, seen: Observed, script: seq<Tick>, cold: seq<string>, vanished: Option<seq<string>>)

  /** What a pass sees: every live row once, and the pods split by whether their session is listed. */
  ghost predicate Observes(c: Config, w: World, o: Observed) {
    && o.acceptor == c.us && o.container == c.container
    && o.desiredImage == c.desiredImage && o.buildImage == c.buildImage
    && (forall i, j :: 0 <= i < j < |o.sessions| ==> o.sessions[i].id != o.sessions[j].id)
    && (forall s <- o.sessions :: s.id in w.rows && w.rows[s.id] == s)
    && (forall id <- w.rows :: w.rows[id] in o.sessions && w.rows[id].id == id)
    && (forall id <- w.pods :: w.pods[id].name == id)
    && o.pods == (map id | id in w.pods && id in w.rows :: w.pods[id])
    && (forall i, j :: 0 <= i < j < |o.orphans| ==> o.orphans[i] != o.orphans[j])
    && (forall name :: name in o.orphans <==> name in w.pods && name !in w.rows)
  }

  predicate Once(ids: seq<string>) { forall i, j :: 0 <= i < j < |ids| ==> ids[i] != ids[j] }

  /** The pass after its actions. */
  function Acted(c: Config, w: World, r: Round): Pass { RunActions(c, Begun(w, r.seen.pods, r.script), PlanOf(r.seen)) }

  /** The pass when it lists the secrets. */
  function Recycled(c: Config, w: World, r: Round): Pass { RunRecycles(c, Acted(c, w, r), Acted(c, w, r).pods, r.cold) }

  predicate IsListed(o: Observed, id: string) { exists s <- o.sessions :: s.id == id }

  /**
   A whole round as the world has it: the listing, each pod known after the
   actions once, and, if the secrets could be listed, each one of them without a
   listed session.
   */
  ghost predicate Sees(c: Config, w: World, r: Round) {
    && Observes(c, w, r.seen)
    && Once(r.cold) && (forall id :: id in r.cold <==> id in Acted(c, w, r).pods)
    && (r.vanished.Some? ==>
          && Once(r.vanished.value)
          && forall id :: id in r.vanished.value <==> id in Recycled(c, w, r).world.secrets && !IsListed(r.seen, id))
  }
}
