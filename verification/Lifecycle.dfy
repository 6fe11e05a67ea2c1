/**
 Runs of the executor: any jobs in any order, each cut short anywhere, with the
 rest of the world acting in between. One operator acts at a time.
 */
module Lifecycle {
  import opened Basics
  import opened Pods
  import opened Planner
  import opened Cluster
  import opened Jobs

  /** `marks` is history: how often a session's secret was marked since it was last deleted. */
  datatype Machine = Machine(w: World, job: Job, h: seq<Reply>, marks: map<string, nat>)

  datatype Step =
    | Begin(job: Job)
    | Call(tick: Tick)

  predicate Enabled(c: Config, m: Machine, s: Step) {
    s.Call? ==> Next(c, m.job, m.h).Some?
  }

  function Marks(m: map<string, nat>, id: string): nat { if id in m then m[id] else 0 }

  /** `w` is the world as the call finds it. */
  function Recount(marks: map<string, nat>, w: World, op: Op, t: Tick): map<string, nat> {
    if t.fault == Unsent then marks
    else if op.MarkSecret? && op.id in w.secrets then marks[op.id := Marks(marks, op.id) + 1]
    else if op.DeleteSecret? && op.id in w.secrets then marks[op.id := 0]
    else marks
  }

  function Apply(c: Config, m: Machine, s: Step): Machine
    requires Enabled(c, m, s)
  {
    match s
    case Begin(job) => m.(job := job, h := [])
    case Call(t) =>
      var op := Next(c, m.job, m.h).value;
      var found := Interfere(c, m.w, t.env);
      Machine(Effect(c, found, op, t), m.job, m.h + [Answer(c, found, op, t)], Recount(m.marks, found, op, t))
  }

  ghost predicate IsStep(c: Config, m: Machine, n: Machine) { exists s :: Enabled(c, m, s) && n == Apply(c, m, s) }

  ghost predicate IsRun(c: Config, run: seq<Machine>) {
    |run| > 0 && forall i :: 0 <= i < |run| - 1 ==> IsStep(c, run[i], run[i + 1])
  }

  predicate Fresh(m: Machine) {
    m.w.pods == map[] && m.w.policies == map[] && m.w.secrets == map[] && m.marks == map[] && m.h == []
  }

  // ----------------------------------------------- the policy outlives its pod

  predicate Holds(w: World, id: string, kind: PolicyKind, owner: Owner) {
    (id, kind) in w.policies && w.policies[(id, kind)] == owner
  }

  /** The objects a pod's label stands for exist, owned by the pool or by that very pod. */
  predicate Governed(w: World, id: string)
    requires id in w.pods
  {
    forall kind <- w.pods[id].governed ::
      Holds(w, id, kind, Pool) || Holds(w, id, kind, OwnedBy(w.pods[id].uid))
  }

  predicate PolicyInv(w: World) {
    && (forall id <- w.pods :: Governed(w, id) && w.pods[id].uid < w.nextUid)
    && (forall k <- w.policies :: w.policies[k].OwnedBy? ==> w.policies[k].uid < w.nextUid)
  }

  /** The session a job starts a worker for. */
  function Starts(job: Job): Option<string> {
    if job.Run? && (job.action.Claim? || job.action.StartWorker?) then Some(job.action.id) else None
  }

  /** Where the policy part of `start_worker` begins, and for which kinds. */
  function PolicyPart(h: seq<Reply>): Option<(nat, seq<PolicyKind>)> {
    if |h| < 4 || !h[0].Granted? || !h[1].Prepared? then None
    else if !h[0].session.restricted then Some((4, []))
    else if |h| < 5 || !h[4].Enforcer? then None
    else Some((5, h[4].kinds))
  }

  /** What the calls made so far have established, while more are to come. */
  predicate Underway(w: World, id: string, h: seq<Reply>) {
    PolicyPart(h).Some? ==>
      var (from, kinds) := PolicyPart(h).value;
      var n, i := |kinds|, |h| - from;
      if i <= n then forall k :: 0 <= k < i ==> Holds(w, id, kinds[k], Pool)
      else h[from + n].Created? ==>
        h[from + n].uid < w.nextUid && (id in w.pods ==> w.pods[id].uid == h[from + n].uid)
  }

  predicate PolicyStage(c: Config, m: Machine) {
    Starts(m.job).Some? && Next(c, m.job, m.h).Some? ==> Underway(m.w, Starts(m.job).value, m.h)
  }

  lemma EnvKeepsGoverned(c: Config, w: World, e: Env)
    requires PolicyInv(w)
    ensures PolicyInv(EnvStep(c, w, e))
  {
    var v := EnvStep(c, w, e);
    forall p | p in v.pods ensures Governed(v, p) && v.pods[p].uid < v.nextUid {
      assert Governed(w, p);
    }
  }

  lemma EnvKeepsPolicies(c: Config, w: World, e: Env, id: string, h: seq<Reply>)
    requires PolicyInv(w)
    ensures PolicyInv(EnvStep(c, w, e))
    ensures Underway(w, id, h) ==> Underway(EnvStep(c, w, e), id, h)
  {
    EnvKeepsGoverned(c, w, e);
    hide PolicyInv, PolicyPart;
  }

  lemma {:induction false} InterfereKeepsPolicies(c: Config, w: World, env: seq<Env>, id: string, h: seq<Reply>)
    requires PolicyInv(w)
    ensures PolicyInv(Interfere(c, w, env))
    ensures Underway(w, id, h) ==> Underway(Interfere(c, w, env), id, h)
  {
    if env != [] {
      InterfereKeepsPolicies(c, w, env[..|env| - 1], id, h);
      EnvKeepsPolicies(c, Interfere(c, w, env[..|env| - 1]), env[|env| - 1], id, h);
    }
  }

  /** The call `start_worker` makes next, when it concerns the policy. */
  lemma PolicyCall(c: Config, id: string, h: seq<Reply>, op: Op)
    requires NextStart(c, id, h) == Some(op) && (op.ApplyPolicy? || op.CreatePod?)
    ensures PolicyPart(h).Some?
    ensures var (from, kinds) := PolicyPart(h).value;
            var n, i := |kinds|, |h| - from;
            && 0 <= i <= 2 * n && op.id == id
            && (i < n ==> op == ApplyPolicy(id, kinds[i], Pool))
            && (i == n ==> op.CreatePod? && op.built.governed == kinds)
            && (i > n ==> h[from + n].Created? && op == ApplyPolicy(id, kinds[i - n - 1], OwnedBy(h[from + n].uid)))
  {
  }

  lemma OtherCallKeepsPolicies(c: Config, w: World, op: Op, t: Tick)
    requires PolicyInv(w) && !op.ApplyPolicy? && !op.CreatePod?
    ensures PolicyInv(Effect(c, w, op, t))
  {
    var v := Effect(c, w, op, t);
    forall p | p in v.pods ensures Governed(v, p) && v.pods[p].uid < v.nextUid {
      assert Governed(w, p);
    }
  }

  lemma StartKeepsPolicies(c: Config, w: World, id: string, h: seq<Reply>, op: Op, t: Tick)
    requires PolicyInv(w) && Underway(w, id, h)
    requires NextStart(c, id, h) == Some(op) && (op.ApplyPolicy? || op.CreatePod?)
    ensures PolicyInv(Effect(c, w, op, t))
  {
    PolicyCall(c, id, h, op);
    var v := Effect(c, w, op, t);
    forall p | p in v.pods ensures Governed(v, p) && v.pods[p].uid < v.nextUid {
      if p in w.pods { assert Governed(w, p); }
    }
  }

  lemma StartAdvances(c: Config, w: World, id: string, h: seq<Reply>, op: Op, t: Tick)
    requires PolicyInv(w) && Underway(w, id, h) && NextStart(c, id, h) == Some(op)
    requires NextStart(c, id, h + [Answer(c, w, op, t)]).Some?
    ensures Underway(Effect(c, w, op, t), id, h + [Answer(c, w, op, t)])
  {
    var g := h + [Answer(c, w, op, t)];
    assert g[..|h|] == h;
    if op.ApplyPolicy? || op.CreatePod? {
      PolicyCall(c, id, h, op);
      assert PolicyPart(g) == PolicyPart(h);
    }
  }

  /** Only `start_worker` creates pods and touches policies. */
  lemma OnlyStartsTouchPolicies(c: Config, job: Job, h: seq<Reply>, op: Op)
    requires Next(c, job, h) == Some(op)
    ensures op.ApplyPolicy? || op.CreatePod? ==> Starts(job).Some? && NextStart(c, Starts(job).value, h) == Some(op)
  {
  }

  /** What a start has in hand when it creates the pod. */
  lemma CreatedAfter(c: Config, job: Job, h: seq<Reply>, op: Op)
    requires Next(c, job, h) == Some(op) && op.CreatePod?
    ensures |h| > 3 && h[0].Granted? && h[0].gateway && h[1].Prepared? && h[2].Secret? && h[3] == Done
    ensures h[0].session.restricted ==> |h| > 4 && h[4].Enforcer?
    ensures var kinds := if h[0].session.restricted then h[4].kinds else [];
            op.built == Built(c, h[0].session, h[1].pin, h[2], kinds) && (kinds != [] ==> c.staticUrlReadable)
    ensures h[0].session.spec.imageBuild ==> c.canBuildImages
  {
    hide Built;
    OnlyStartsTouchPolicies(c, job, h, op);
  }

  /**
   The pod that is created: the snapshot the provider prepared is on it unless
   the secret is marked for an unpinned start, its worker runs the session's own
   image, the pool's build image if the session asks for that, or else the pool's
   image, and it is labelled for the policy objects applied for it.
   */
  lemma CreatedPodCarries(c: Config, job: Job, h: seq<Reply>, op: Op)
    requires Next(c, job, h) == Some(op) && op.CreatePod?
    ensures |h| > 3 && h[0].Granted? && h[0].gateway && h[1].Prepared? && h[2].Secret? && h[3] == Done
    ensures h[2].marker != Some(WithoutPin) ==> op.built.pin == h[1].pin
    ensures h[2].found && h[2].marker == Some(WithoutPin) ==> op.built.pin == None
    ensures var spec := h[0].session.spec;
            && (spec.imageBuild ==> c.canBuildImages)
            && WorkerImage(op.built, c.container) ==
               if spec.image.Some? then spec.image
               else if spec.imageBuild && c.buildImage.Some? then c.buildImage
               else Some(c.desiredImage)
    ensures forall i :: 0 <= i < |c.template| && c.template[i].name != c.container ==>
              i < |op.built.containers| && op.built.containers[i] == c.template[i]
    ensures if h[0].session.restricted then |h| > 4 && h[4].Enforcer? && op.built.governed == h[4].kinds
            else op.built.governed == []
    ensures op.built.governed != [] ==> c.staticUrlReadable
    ensures !op.built.deleting && op.built.status == None
  {
    CreatedAfter(c, job, h, op);
    hide Next;
    WorkerKeepsItsImage(c.template, c.container, EffectiveImage(h[0].session.spec, c.desiredImage, c.buildImage), op.built);
  }

  lemma StepKeepsPolicies(c: Config, m: Machine, s: Step)
    requires PolicyInv(m.w) && PolicyStage(c, m) && Enabled(c, m, s)
    ensures PolicyInv(Apply(c, m, s).w) && PolicyStage(c, Apply(c, m, s))
  {
    if s.Call? {
      var op := Next(c, m.job, m.h).value;
      var t := s.tick;
      var found := Interfere(c, m.w, t.env);
      var id := Starts(m.job).GetOr("");
      InterfereKeepsPolicies(c, m.w, t.env, id, m.h);
      OnlyStartsTouchPolicies(c, m.job, m.h, op);
      if op.ApplyPolicy? || op.CreatePod? {
        StartKeepsPolicies(c, found, id, m.h, op, t);
      } else {
        OtherCallKeepsPolicies(c, found, op, t);
      }
      if Starts(m.job).Some? && Next(c, m.job, m.h + [Answer(c, found, op, t)]).Some? {
        StartAdvances(c, found, id, m.h, op, t);
      }
    }
  }

  /**
   In every reachable state, whichever calls failed and whatever was garbage
   collected, a labelled worker pod has its policy objects.
   */
  lemma {:induction false} PolicyOutlivesItsPod(c: Config, run: seq<Machine>)
    requires IsRun(c, run) && Fresh(run[0])
    ensures PolicyInv(run[|run| - 1].w) && PolicyStage(c, run[|run| - 1])
  {
    if |run| > 1 {
      var shorter := run[..|run| - 1];
      forall i | 0 <= i < |shorter| - 1 ensures IsStep(c, shorter[i], shorter[i + 1]) {
        assert IsStep(c, run[i], run[i + 1]);
      }
      PolicyOutlivesItsPod(c, shorter);
      assert IsStep(c, run[|run| - 2], run[|run| - 1]);
      var s :| Enabled(c, run[|run| - 2], s) && run[|run| - 1] == Apply(c, run[|run| - 2], s);
      StepKeepsPolicies(c, run[|run| - 2], s);
    }
  }
}
