/** The order of teardown: reports before deletions, artifacts before the handle that finds them. */
module Cleanup {
  import opened Basics
  import opened Pods
  import opened Planner
  import opened PlannerLaws
  import opened Cluster
  import opened Jobs
  import opened Passes
  import opened Subjects

  /**
   Nothing of the session is touched before its report is acknowledged or
   refused, the claim is never released, and after an acknowledgement the
   token secret goes only after the pod and the artifacts.
   */
  lemma ReportComesFirst(c: Config, id: string, failure: StartupFailure, pod: Option<Pod>, h: seq<Reply>, op: Op)
    requires Next(c, Run(StartupFailed(id, failure), pod), h) == Some(op)
    ensures h == [] <==> op == ReportFailure(id)
    ensures h != [] ==> h[0] == Done || h[0] == Refused
    ensures op.ReportFailure? || op.DeletePod? || op.DropArtifacts? || op.DeleteSecret?
    ensures op.DropArtifacts? ==> h[0] == Done && Deleted(h[1])
    ensures op.DeleteSecret? && h[0] == Done ==> |h| == 3 && Deleted(h[1]) && h[2] == Done
  {
  }

  /** The two jobs that clean up after a session the queue no longer has. */
  predicate Cleans(job: Job, h: seq<Reply>) {
    match job
    case CleanUp(_) => true
    case Run(StartupFailed(_, _), _) => |h| == 0 || h[0] != Refused
    case _ => false
  }

  /** While artifacts are left, so is the secret by which a later pass finds them. */
  predicate HandleKept(w: World, id: string) { id in w.artifacts ==> id in w.secrets }

  /** Once the artifacts are dropped no call of the job, and nothing outside, brings them back. */
  predicate Dropped(job: Job, w: World, h: seq<Reply>) {
    match job
    case CleanUp(id) => |h| == 1 && h[0] == Done ==> id !in w.artifacts
    case Run(StartupFailed(id, _), _) => |h| == 3 && h[0] == Done && h[2] == Done ==> id !in w.artifacts
    case _ => true
  }

  lemma {:induction false} CleanupFrom(c: Config, w: World, job: Job, h: seq<Reply>, script: seq<Tick>)
    requires HandleKept(w, Subject(job)) && Dropped(job, w, h)
    requires job.CleanUp? || (job.Run? && job.action.StartupFailed? && (h == [] || h[0] != Refused))
    ensures var end := Exec(c, w, job, h, script);
            end.answers != [] && Cleans(job, end.answers) ==> HandleKept(end.world, Subject(job))
    decreases |script|
  {
    var next := Next(c, job, h);
    if next.Some? && script != [] {
      var op, t := next.value, script[0];
      var found := Interfere(c, w, t.env);
      InterfereKeepsHandle(c, w, t.env);
      var after, g := Effect(c, found, op, t), h + [Answer(c, found, op, t)];
      if h == [] && job.Run? && g[0] == Refused {
        FirstAnswerStands(c, after, job, g, script[1..]);
      } else {
        CleanupFrom(c, after, job, g, script[1..]);
      }
    }
  }

  lemma {:induction false} FirstAnswerStands(c: Config, w: World, job: Job, h: seq<Reply>, script: seq<Tick>)
    requires h != []
    ensures Exec(c, w, job, h, script).answers != [] && Exec(c, w, job, h, script).answers[0] == h[0]
    decreases |script|
  {
    var next := Next(c, job, h);
    if next.Some? && script != [] {
      var found := Interfere(c, w, script[0].env);
      FirstAnswerStands(c, Effect(c, found, next.value, script[0]), job,
                        h + [Answer(c, found, next.value, script[0])], script[1..]);
    }
  }

  /**
   On the acknowledged startup-failure path and for a vanished session, any
   failure leaves the secret with which a later pass finishes the cleanup.
   */
  lemma FailedCleanupKeepsItsHandle(c: Config, w: World, job: Job, script: seq<Tick>)
    requires HandleKept(w, Subject(job))
    requires job.CleanUp? || (job.Run? && job.action.StartupFailed?)
    ensures var end := Exec(c, w, job, [], script);
            end.answers != [] && Cleans(job, end.answers) ==> HandleKept(end.world, Subject(job))
  {
    CleanupFrom(c, w, job, [], script);
  }

  // ------------------------------------------------------- a vanished session

  /** A completed cleanup leaves neither artifacts nor secret, whatever happens around it. */
  lemma CleanedUp(c: Config, w: World, id: string, script: seq<Tick>)
    requires Completed(c, CleanUp(id), Exec(c, w, CleanUp(id), [], script).answers)
    ensures var v := Exec(c, w, CleanUp(id), [], script).world; id !in v.artifacts && id !in v.secrets
  {
    var job := CleanUp(id);
    var w0 := Interfere(c, w, if script == [] then [] else script[0].env);
    if script != [] {
      var r := Answer(c, w0, DropArtifacts(id), script[0]);
      var w1 := Effect(c, w0, DropArtifacts(id), script[0]);
      assert [] + [r] == [r];
      if r == Done { SecretGoesLast(c, w1, id, script[1..]); }
    }
  }

  lemma SecretGoesLast(c: Config, w: World, id: string, script: seq<Tick>)
    requires id !in w.artifacts && Completed(c, CleanUp(id), Exec(c, w, CleanUp(id), [Done], script).answers)
    ensures var v := Exec(c, w, CleanUp(id), [Done], script).world; id !in v.artifacts && id !in v.secrets
  {
    if script != [] {
      var found := Interfere(c, w, script[0].env);
      InterfereKeepsHandle(c, w, script[0].env);
      var r := Answer(c, found, DeleteSecret(id), script[0]);
      assert Next(c, CleanUp(id), [Done] + [r]) == None;
    }
  }

  /** Only listed sessions have pods the pass knows. */
  predicate KnowsListed(o: Observed, s: Pass) { forall id <- s.pods :: IsListed(o, id) }

  /** The actions and the recycles leave the secret of a session that is not listed. */
  lemma {:induction false} ActionsKeepSecret(c: Config, w: World, r: Round, id: string, n: nat)
    requires Observes(c, w, r.seen) && !IsListed(r.seen, id) && n <= |PlanOf(r.seen)|
    ensures var t := RunActions(c, Begun(w, r.seen.pods, r.script), PlanOf(r.seen)[..n]);
            SameSecret(w, t.world, id) && KnowsListed(r.seen, t)
  {
    hide PlanOf, Exec, SameSecret;
    var s, actions := Begun(w, r.seen.pods, r.script), PlanOf(r.seen);
    if n == 0 {
      SameSecretAlready(w, id);
      PodsAreListed(c, w, r.seen);
    } else {
      ActionsKeepSecret(c, w, r, id, n - 1);
      assert actions[..n][..n - 1] == actions[..n - 1];
      var before, a := RunActions(c, s, actions[..n - 1]), actions[n - 1];
      assert a in actions;
      PlannedByName(c, w, r.seen, a);
      var job := Run(a, PodOf(before.pods, a));
      ExecStaysHome(c, before.world, job, [], before.script, id);
      var end := Exec(c, before.world, job, [], before.script);
      SameSecretAlready(before.world, id);
      SameSecretOnward(w, before.world, before.world, end.world, id);
      KnownStayListed(c, r.seen, before.pods, job, end.answers);
    }
  }

  lemma PodsAreListed(c: Config, w: World, o: Observed)
    requires Observes(c, w, o)
    ensures forall id <- o.pods :: IsListed(o, id)
  {
    forall id | id in o.pods ensures IsListed(o, id) { assert w.rows[id] in o.sessions && w.rows[id].id == id; }
  }

  lemma KnownStayListed(c: Config, o: Observed, pods: map<string, Pod>, job: Job, h: seq<Reply>)
    requires (forall id <- pods :: IsListed(o, id)) && job.Run? && (IsListed(o, Subject(job)) || job.action.DeleteOrphanPod?)
    ensures forall id <- PodsAfter(c, pods, job, h) :: IsListed(o, id)
  {
    hide StartedPod, Forgets, IsListed;
  }

  lemma {:induction false} RecyclesKeepSecret(c: Config, s: Pass, pods: map<string, Pod>, ids: seq<string>, id: string)
    requires id !in pods
    ensures SameSecret(s.world, RunRecycles(c, s, pods, ids).world, id)
  {
    hide Exec, SameSecret, NeedsRecycle;
    SameSecretAlready(s.world, id);
    if ids != [] {
      RecyclesKeepSecret(c, s, pods, ids[..|ids| - 1], id);
      var before, last := RunRecycles(c, s, pods, ids[..|ids| - 1]), ids[|ids| - 1];
      if last in pods && NeedsRecycle(pods[last]) {
        ExecStaysHome(c, before.world, Recycle(last), [], before.script, id);
        SameSecretAlready(before.world, id);
        SameSecretOnward(s.world, before.world, before.world, Exec(c, before.world, Recycle(last), [], before.script).world, id);
      }
    }
  }

  lemma {:induction false} RestOfCleanUps(c: Config, s: Pass, ids: seq<string>, k: nat, n: nat, id: string)
    requires Once(ids) && k < n <= |ids| && ids[k] == id
    ensures SameSecret(RunCleanUps(c, s, ids[..k + 1]).world, RunCleanUps(c, s, ids[..n]).world, id)
  {
    hide Exec, SameSecret;
    SameSecretAlready(RunCleanUps(c, s, ids[..k + 1]).world, id);
    if n > k + 1 {
      RestOfCleanUps(c, s, ids, k, n - 1, id);
      assert ids[..n][..n - 1] == ids[..n - 1];
      var before := RunCleanUps(c, s, ids[..n - 1]);
      ExecStaysHome(c, before.world, CleanUp(ids[n - 1]), [], before.script, id);
      SameSecretAlready(before.world, id);
      SameSecretOnward(RunCleanUps(c, s, ids[..k + 1]).world, before.world, before.world,
                       Exec(c, before.world, CleanUp(ids[n - 1]), [], before.script).world, id);
    }
  }

  /** The pass when it comes to the session's cleanup. */
  function BeforeCleanUp(c: Config, w: World, r: Round, id: string): Pass {
    RunCleanUps(c, Recycled(c, w, r), r.vanished.GetOr([])[..IndexOf(r.vanished.GetOr([]), id)])
  }

  /**
   As long as its secret is there, every pass that can list the secrets cleans
   up after a session that is no longer queued, and one whose calls for it
   complete leaves neither artifacts nor secret.
   */
  lemma LaterPassFinishes(c: Config, w: World, r: Round, id: string)
    requires Sees(c, w, r) && r.vanished.Some? && id in w.secrets && !IsListed(r.seen, id)
    ensures id in r.vanished.value
    ensures var at := BeforeCleanUp(c, w, r, id); var v := PassEnd(c, w, r.seen, r.script, r.cold, r.vanished).world;
            Completed(c, CleanUp(id), Exec(c, at.world, CleanUp(id), [], at.script).answers) ==>
              id !in v.artifacts && id !in v.secrets
  {
    hide PlanOf, RunActions, Exec, Completed, RunRecycles;
    var acted, ids := Acted(c, w, r), r.vanished.value;
    ActionsKeepSecret(c, w, r, id, |PlanOf(r.seen)|);
    assert PlanOf(r.seen)[..|PlanOf(r.seen)|] == PlanOf(r.seen);
    RecyclesKeepSecret(c, acted, acted.pods, r.cold, id);
    assert id in ids;
    var k := IndexOf(ids, id);
    assert ids[..k + 1][..k] == ids[..k] && ids[..|ids|] == ids;
    RestOfCleanUps(c, Recycled(c, w, r), ids, k, |ids|, id);
    var at := BeforeCleanUp(c, w, r, id);
    if Completed(c, CleanUp(id), Exec(c, at.world, CleanUp(id), [], at.script).answers) {
      CleanedUp(c, at.world, id, at.script);
    }
  }

  // ---------------------------------------------------- a terminated session

  /** The k-th call from here on is made and takes effect; those before it were answered. */
  predicate Takes(script: seq<Tick>, k: nat) {
    script != [] && (if k == 0 then script[0].fault != Unsent else script[0].fault == Works && Takes(script[1..], k - 1))
  }

  /** Others dropped the artifacts before one of the next `n` calls made. */
  predicate DroppedMeanwhile(script: seq<Tick>, n: nat, id: string) {
    n > 0 && script != []
    && (ArtifactsExpire(id) in script[0].env || (script[0].fault == Works && DroppedMeanwhile(script[1..], n - 1, id)))
  }

  lemma EnvOnArtifacts(c: Config, w: World, e: Env, id: string)
    ensures id in EnvStep(c, w, e).artifacts <==> id in w.artifacts && e != ArtifactsExpire(id)
  {
  }

  lemma {:induction false} InterfereOnArtifacts(c: Config, w: World, env: seq<Env>, id: string)
    ensures id in Interfere(c, w, env).artifacts <==> id in w.artifacts && ArtifactsExpire(id) !in env
  {
    hide EnvStep;
    if env != [] {
      var last := env[|env| - 1];
      assert env == env[..|env| - 1] + [last];
      InterfereOnArtifacts(c, w, env[..|env| - 1], id);
      EnvOnArtifacts(c, Interfere(c, w, env[..|env| - 1]), last, id);
    }
  }

  /** The answers to release, pod and secret, as far as they were given. */
  predicate Ending(h: seq<Reply>) {
    |h| <= 3 && (|h| > 0 ==> Released(h[0])) && (|h| > 1 ==> Deleted(h[1])) && (|h| > 2 ==> Deleted(h[2]))
  }

  lemma EndingCall(c: Config, w: World, id: string, pod: Option<Pod>, h: seq<Reply>, t: Tick) returns (op: Op)
    requires Ending(h)
    ensures Next(c, Run(Terminate(id), pod), h) == Some(op)
    ensures op == if |h| == 0 then ReleaseRow(id) else if |h| == 1 then DeletePod(id)
                  else if |h| == 2 then DeleteSecret(id) else DropArtifacts(id)
    ensures var g := h + [Answer(c, w, op, t)];
            if t.fault == Works && |h| < 3 then Ending(g) else Next(c, Run(Terminate(id), pod), g) == None
  {
    op := Next(c, Run(Terminate(id), pod), h).value;
    assert forall k :: 0 <= k < |h| ==> (h + [Answer(c, w, op, t)])[k] == h[k];
  }

  /** What one call of the ending does to the session's claim, pod, secret and artifacts. */
  lemma EndingEffect(c: Config, w: World, id: string, op: Op, t: Tick)
    requires op in {ReleaseRow(id), DeletePod(id), DeleteSecret(id), DropArtifacts(id)}
    ensures var v := Effect(c, w, op, t); var took := t.fault != Unsent;
            && (Ours(c, v, id) <==> Ours(c, w, id) && !(took && op.ReleaseRow?))
            && (!t.lingers ==> (id in v.pods <==> id in w.pods && !(took && op.DeletePod?)))
            && (id in v.secrets <==> id in w.secrets && !(took && op.DeleteSecret?))
            && (id in v.artifacts <==> id in w.artifacts && !(took && op.DropArtifacts?))
            && (id in v.rows <==> id in w.rows) && (id in w.rows ==> v.rows[id].status == w.rows[id].status)
  {
  }

  /** Where a termination leaves the handle and the artifacts, from any of its stages on. */
  lemma {:induction false} TerminateFrom(c: Config, w: World, id: string, pod: Option<Pod>, h: seq<Reply>, script: seq<Tick>)
    requires Ending(h)
    ensures var v := Exec(c, w, Run(Terminate(id), pod), h, script).world; var n := |h|;
            && (id in v.secrets <==> id in w.secrets && !(n <= 2 && Takes(script, 2 - n)))
            && (id in v.artifacts <==> id in w.artifacts && !DroppedMeanwhile(script, 4 - n, id) && !Takes(script, 3 - n))
    decreases |script|
  {
    hide Next, Answer, Effect, Interfere;
    var job := Run(Terminate(id), pod);
    if script != [] {
      var t := script[0];
      var found := Interfere(c, w, t.env);
      InterfereKeepsHandle(c, w, t.env);
      InterfereOnArtifacts(c, w, t.env, id);
      var op := EndingCall(c, found, id, pod, h, t);
      var g := h + [Answer(c, found, op, t)];
      EndingEffect(c, found, id, op, t);
      if t.fault == Works && |h| < 3 {
        TerminateFrom(c, Effect(c, found, op, t), id, pod, g, script[1..]);
      }
    } else {
      var op := EndingCall(c, w, id, pod, h, Tick([], Unsent, 0, false, false, None, [], false, false, false));
    }
  }

  /**
   Terminating a session loses the handle to its artifacts exactly when there
   are artifacts, others do not drop them meanwhile, the secret's deletion takes
   effect, and the deletion of the artifacts does not.
   */
  lemma TerminateLeaksExactlyWhen(c: Config, w: World, id: string, pod: Option<Pod>, script: seq<Tick>)
    requires HandleKept(w, id)
    ensures !HandleKept(Exec(c, w, Run(Terminate(id), pod), [], script).world, id)
            <==> id in w.artifacts && !DroppedMeanwhile(script, 4, id) && Takes(script, 2) && !Takes(script, 3)
  {
    TerminateFrom(c, w, id, pod, [], script);
  }

  lemma NothingMeanwhile(c: Config, w: World)
    ensures Interfere(c, w, []) == w
  {
  }

  /** In a world nothing else touches: what of the session is left behind, by how far its termination got. */
  lemma {:induction false} TerminateLeavesBehind(c: Config, w: World, id: string, pod: Option<Pod>, h: seq<Reply>, script: seq<Tick>)
    requires Ending(h) && forall t <- script :: t.env == [] && !t.lingers
    ensures var v := Exec(c, w, Run(Terminate(id), pod), h, script).world; var n := |h|;
            && (Ours(c, v, id) <==> Ours(c, w, id) && !(n == 0 && Takes(script, 0)))
            && (id in v.pods <==> id in w.pods && !(n <= 1 && Takes(script, 1 - n)))
            && (id in v.secrets <==> id in w.secrets && !(n <= 2 && Takes(script, 2 - n)))
            && (id in v.artifacts <==> id in w.artifacts && !Takes(script, 3 - n))
            && (id in v.rows <==> id in w.rows) && (id in w.rows ==> v.rows[id].status == w.rows[id].status)
    decreases |script|
  {
    hide Next, Answer, Effect, Ours, Interfere;
    var job := Run(Terminate(id), pod);
    if script != [] {
      var t := script[0];
      NothingMeanwhile(c, w);
      var op := EndingCall(c, w, id, pod, h, t);
      var g := h + [Answer(c, w, op, t)];
      EndingEffect(c, w, id, op, t);
      if t.fault == Works && |h| < 3 {
        TerminateLeavesBehind(c, Effect(c, w, op, t), id, pod, g, script[1..]);
      }
    } else {
      var op := EndingCall(c, w, id, pod, h, Tick([], Unsent, 0, false, false, None, [], false, false, false));
    }
  }

  predicate Ours(c: Config, w: World, id: string) { id in w.rows && OursIn(c, w.rows[id]) }

  /** A call with nothing going on around it. */
  function Calm(fault: Fault): Tick { Tick([], fault, 0, false, true, None, [], false, true, true) }

  /** The first two calls work: the claim goes, and there was no pod. */
  lemma ClaimGoes(c: Config, w: World, id: string, rest: seq<Tick>)
    requires id in w.rows && OursIn(c, w.rows[id]) && w.pods == map[]
    ensures var job, t, freed := Run(Terminate(id), None), Calm(Works), w.(rows := w.rows[id := Freed(w.rows[id])]);
            Exec(c, w, job, [], [t, t] + rest).world == Exec(c, freed, job, [Done, Gone], rest).world
  {
    hide Exec;
    var job, t := Run(Terminate(id), None), Calm(Works);
    assert [t, t] + rest == [t] + ([t] + rest) && [] + [Done] == [Done] && [Done] + [Gone] == [Done, Gone];
    var after := Undisturbed(c, w, job, [], ReleaseRow(id), t, [t] + rest);
    var gone := Undisturbed(c, after, job, [Done], DeletePod(id), t, rest);
    assert gone == after;
  }

  /** With only the last call failing, the row is free and terminated, the artifacts are left and the secret is gone. */
  lemma TerminateCanLeakArtifacts(c: Config, id: string, row: Session)
    requires row.id == id && OursIn(c, row) && row.status == Terminated
    ensures var w := World(map[id := row], map[], map[id := None], {id}, map[], 0);
            var end := Exec(c, w, Run(Terminate(id), None), [], [Calm(Works), Calm(Works), Calm(Works), Calm(Unsent)]);
            && HandleKept(w, id) && !HandleKept(end.world, id)
            && end.world.rows == map[id := Freed(row)] && end.world.pods == map[]
  {
    hide Exec;
    var w := World(map[id := row], map[], map[id := None], {id}, map[], 0);
    var job, t, u := Run(Terminate(id), None), Calm(Works), Calm(Unsent);
    assert [t, t, t, u] == [t, t] + [t, u];
    ClaimGoes(c, w, id, [t, u]);
    var freed := w.(rows := w.rows[id := Freed(row)]);
    SecretGoesArtifactsStay(c, freed, id);
  }

  lemma SecretGoesArtifactsStay(c: Config, w: World, id: string)
    requires id in w.secrets
    ensures var job, t, u := Run(Terminate(id), None), Calm(Works), Calm(Unsent);
            Exec(c, w, job, [Done, Gone], [t, u]).world == w.(secrets := w.secrets - {id})
  {
    hide Exec;
    var job, t, u := Run(Terminate(id), None), Calm(Works), Calm(Unsent);
    assert [t, u] == [t] + [u] && [u] == [u] + [] && [Done, Gone] + [Done] == [Done, Gone, Done];
    var after := Undisturbed(c, w, job, [Done, Gone], DeleteSecret(id), t, [u]);
    var last := Undisturbed(c, after, job, [Done, Gone, Done], DropArtifacts(id), u, []);
    ScriptOver(c, last, job, [Done, Gone, Done] + [Failed]);
  }

  lemma ScriptOver(c: Config, w: World, job: Job, h: seq<Reply>)
    ensures Exec(c, w, job, h, []).world == w
  {
    hide Next;
  }

  /**
   Once the claim of an ended session is released, no plan acts on it while its
   row is listed: whatever its termination left, its pod included, stays.
   */
  lemma LeakedRowIsIgnored(c: Config, w: World, o: Observed, row: Session, a: Action)
    requires UniqueIds(o.sessions) && row in o.sessions && row.phase == Pending && Terminal(row) && a in PlanOf(o)
    ensures a.DeleteOrphanPod? || a.id != row.id
    ensures Observes(c, w, o) ==> Subject(Run(a, None)) != row.id
  {
    hide PlanOf;
    if !a.DeleteOrphanPod? && a.id == row.id { PlannedForItsRow(o, row, a); }
    if Observes(c, w, o) { PlannedByName(c, w, o, a); }
  }
}
