/**
 The executor as the source writes it: methods that call the queue and the
 cluster one request at a time and stop at the first error. Each is shown to
 make exactly the calls of its job (see Jobs), on every script of outcomes.
 */
module Operator {
  import opened Basics
  import opened Pods
  import opened Planner
  import opened Cluster
  import opened Jobs
  import opened Passes

  /** An error ends any job. */
  lemma ErrorEndsJob(c: Config, job: Job, h: seq<Reply>)
    requires Next(c, job, h).Some?
    ensures Next(c, job, h + [Failed]).None?
  {
    if job.Run? && (job.action.Claim? || job.action.StartWorker?) {
      StartErrorEnds(c, job.action.id, h);
    }
  }

  lemma FailureFits(op: Op)
    ensures Fits(op, Failed)
  {
  }

  lemma StartErrorEnds(c: Config, id: string, h: seq<Reply>)
    requires NextStart(c, id, h).Some?
    ensures NextStart(c, id, h + [Failed]).None?
  {
    var g := h + [Failed];
    assert forall i :: 0 <= i < |h| ==> g[i] == h[i];
    assert g[|g| - 1] == Failed;
  }

  class PoolSync {
    const c: Config
    var world: World
    var script: seq<Tick>
    var podsBySession: map<string, Pod>
    var snapshotPending: bool
    ghost var job: Job
    ghost var h: seq<Reply>
    ghost var made: seq<Op>
    ghost var whole: End

    constructor (c: Config, world: World, script: seq<Tick>, pods: map<string, Pod>)
      ensures this.c == c && this.world == world && this.script == script
      ensures podsBySession == pods && !snapshotPending
    {
      this.c, this.world, this.script := c, world, script;
      podsBySession, snapshotPending := pods, false;
      job, h, made, whole := Recycle(""), [], [], End(world, [], [], []);
    }

    /** What is left of the job, after the calls made, makes up the whole of it. */
    ghost predicate OnTrack()
      reads `world, `script, `job, `h, `made, `whole
    {
      var rest := Exec(c, world, job, h, script);
      whole == rest.(calls := made + rest.calls)
    }

    /** Nothing is left of the job. */
    ghost predicate Finished()
      reads this
    {
      whole == End(world, h, made, script)
    }

    lemma FinishedWhenDone()
      requires OnTrack() && Next(c, job, h).None?
      ensures Finished()
    {
    }

    ghost method Begin(job: Job)
      modifies `job, `h, `made, `whole
      ensures this.job == job && h == [] && made == [] && OnTrack()
      ensures whole == Exec(c, world, job, [], script)
    {
      this.job, h, made := job, [], [];
      whole := Exec(c, world, job, [], script);
    }

    /** One request, as the script lets it happen. */
    method Call(op: Op) returns (r: Reply)
      requires OnTrack() && Next(c, job, h) == Some(op)
      modifies `world, `script, `h, `made
      ensures OnTrack() && h == old(h) + [r] && Fits(op, r)
    {
      hide Next, Effect, Answer, Interfere, Fits;
      if script == [] {
        FailureFits(op);
        ErrorEndsJob(c, job, h);
        r := Failed;
        h := h + [r];
      } else {
        var t := script[0];
        var found := Interfere(c, world, t.env);
        r := Answer(c, found, op, t);
        AnswerFits(c, found, op, t);
        world, script := Effect(c, found, op, t), script[1..];
        h, made := h + [r], made + [op];
        ghost var rest := Exec(c, world, job, h, script);
        assert old(made) + ([op] + rest.calls) == made + rest.calls;
      }
    }

    /** Pod first, secret second; only with both gone does the pass forget the pod. */
    method Teardown(id: string) returns (ok: bool)
      requires OnTrack() && Next(c, job, h) == Some(DeletePod(id))
      requires forall r: Reply :: Deleted(r) ==> Next(c, job, h + [r]) == Some(DeleteSecret(id))
      modifies `world, `script, `h, `made, `podsBySession
      ensures OnTrack()
      ensures (|h| == |old(h)| + 1 && !ok && h[|old(h)|] == Failed)
              || (|h| == |old(h)| + 2 && Deleted(h[|old(h)|]) && h[|old(h)| + 1] in {Done, Gone, Failed}
                  && ok == Deleted(h[|old(h)| + 1]))
      ensures h[..|old(h)|] == old(h)
      ensures podsBySession == if ok then old(podsBySession) - {id} else old(podsBySession)
    {
      hide Exec, OnTrack, Next;
      var r := Call(DeletePod(id));
      if !Deleted(r) { return false; }
      r := Call(DeleteSecret(id));
      if !Deleted(r) { return false; }
      podsBySession := podsBySession - {id};
      ok := true;
    }

    /** Mark the secret and take the pod away, once per mark: whether it came to that, or None for an error. */
    method RecycleUnrestoredPod(id: string, marker: Marker) returns (recycled: Option<bool>)
      requires OnTrack() && h == []
      requires job == (if marker == WithPin then Recycle(id) else job)
      requires marker == WithoutPin ==> job.Run? && job.action.GiveUp? && job.action.id == id
                                        && job.pod.Some? && ColdStarted(job.pod.value)
      modifies `world, `script, `h, `made, `podsBySession, `snapshotPending
      ensures OnTrack()
      ensures recycled == Some(true) <==> |h| == 3 && h[0] == Secret(true, None) && Deleted(h[2])
      ensures recycled == Some(false) <==> |h| == 1 && h[0].Secret? && h[0] != Secret(true, None)
      ensures recycled == None ==> Next(c, job, h).None? && |h| > 0 && (h[0].Secret? ==> h[0] == Secret(true, None))
      ensures recycled == None && |h| > 2 ==> |h| == 3 && h[0] == Secret(true, None) && !Deleted(h[2])
      ensures recycled == Some(true) ==> Next(c, job, h).None?
      ensures podsBySession == if recycled == Some(true) then old(podsBySession) - {id} else old(podsBySession)
      ensures snapshotPending == (old(snapshotPending) || recycled == Some(true))
    {
      hide NextStart, NextSuspend, NextTerminate, NextStartupFailed, NextCleanUp, Exec, OnTrack;
      var r := Call(ReadSecret(id));
      if !r.Secret? { return None; }
      if !r.found || r.marker.Some? { return Some(false); }
      r := Call(MarkSecret(id, marker));
      if r != Done { return None; }
      r := Call(DeletePod(id));
      if !Deleted(r) { return None; }
      podsBySession := podsBySession - {id};
      snapshotPending := true;
      recycled := Some(true);
    }
 
    /** Apply the policy objects, owned by `owner`; `at` answers came before, all of them good. */
    method ApplyPolicies(id: string, kinds: seq<PolicyKind>, owner: Owner) returns (ok: bool)
      requires OnTrack()
      requires forall g: seq<Reply> :: h <= g && |g| < |h| + |kinds| && (forall i :: |h| <= i < |g| ==> g[i] == Done)
                 ==> Next(c, job, g) == Some(ApplyPolicy(id, kinds[|g| - |h|], owner))
      modifies `world, `script, `h, `made
      ensures OnTrack() && old(h) <= h
      ensures ok ==> |h| == |old(h)| + |kinds| && forall i :: |old(h)| <= i < |h| ==> h[i] == Done
      ensures !ok ==> |old(h)| < |h| <= |old(h)| + |kinds| && h[|h| - 1] == Failed
                      && forall i :: |old(h)| <= i < |h| - 1 ==> h[i] == Done
    {
      hide Exec, OnTrack, Next;
      for k := 0 to |kinds|
        invariant OnTrack() && old(h) <= h && |h| == |old(h)| + k
        invariant forall i :: |old(h)| <= i < |h| ==> h[i] == Done
      {
        var r := Call(ApplyPolicy(id, kinds[k], owner));
        if r != Done { return false; }
      }
      ok := true;
    }

    /** Which call the policy part of a start job makes next. */
    lemma NextInPlacing(job: Job, base: seq<Reply>, g: seq<Reply>, kinds: seq<PolicyKind>)
      requires job.Run? && (job.action.Claim? || job.action.StartWorker?)
      requires |base| >= 4 && Token(base[0]) && base[1].Prepared? && base[2].Secret? && base[3] == Done && base <= g
      requires if base[0].session.restricted then |base| == 5 && base[4] == Enforcer(kinds) else |base| == 4 && kinds == []
      ensures Next(c, job, g) == NextForPod(c, job.action.id, g, |base|, kinds)
    {
      assert forall i :: 0 <= i < |base| ==> g[i] == base[i];
    }

    lemma PlacingEnds(job: Job, base: seq<Reply>, g: seq<Reply>, kinds: seq<PolicyKind>)
      requires job.Run? && (job.action.Claim? || job.action.StartWorker?)
      requires |base| >= 4 && Token(base[0]) && base[1].Prepared? && base[2].Secret? && base[3] == Done && base <= g
      requires if base[0].session.restricted then |base| == 5 && base[4] == Enforcer(kinds) else |base| == 4 && kinds == []
      requires Next(c, job, g).None?
      ensures VerdictOf(c, job, g) ==
              if |g| > 4 && CanBuild(c, base[0].session) && (g[|g| - 1] == Done || g[|g| - 1].Created? || g[|g| - 1] == Refused)
              then Fine else Broken
      ensures StartedPod(c, job.action.id, g) ==
              var k := |base| + |kinds|;
              if |g| > k && g[k].Created? then
                Some(Built(c, base[0].session, base[1].pin, base[2], kinds).(name := job.action.id, uid := g[k].uid))
              else None
    {
      assert forall i :: 0 <= i < |base| ==> g[i] == base[i];
    }

    /** The second half of `start_worker`: policy, pod, policy. */
    method PlacePod(id: string, session: Session, prepared: Option<string>, secret: Reply, kinds: seq<PolicyKind>)
      returns (v: Verdict)
      requires OnTrack() && |h| >= 4 && (kinds != [] ==> |h| >= 5)
      requires job.Run? && (job.action.Claim? || job.action.StartWorker?) && job.action.id == id
      requires Token(h[0]) && h[0].session == session && h[1] == Prepared(prepared) && h[2] == secret && secret.Secret? && h[3] == Done
      requires if session.restricted then |h| == 5 && h[4] == Enforcer(kinds) else |h| == 4 && kinds == []
      modifies `world, `script, `h, `made, `podsBySession
      ensures OnTrack() && old(h) <= h && Next(c, job, h).None?
      ensures v == VerdictOf(c, job, h)
      ensures podsBySession == PodsAfter(c, old(podsBySession), job, h)
    {
      hide Exec, OnTrack;
      ghost var base := h;
      forall g: seq<Reply> | base <= g ensures Next(c, job, g) == NextForPod(c, id, g, |base|, kinds) {
        NextInPlacing(job, base, g, kinds);
      }
      v := PlaceAndOwn(id, session, prepared, secret, kinds, base);
      PlacingEnds(job, base, h, kinds);
    }

    /** The calls of the second half, from the answers in `base` on. */
    method PlaceAndOwn(id: string, session: Session, prepared: Option<string>, secret: Reply, kinds: seq<PolicyKind>,
                       ghost base: seq<Reply>) returns (v: Verdict)
      requires OnTrack() && h == base && |h| >= 4
      requires h[0].Granted? && h[0].session == session && h[1] == Prepared(prepared) && h[2] == secret
      requires forall g: seq<Reply> :: base <= g ==> Next(c, job, g) == NextForPod(c, id, g, |base|, kinds)
      modifies `world, `script, `h, `made, `podsBySession
      ensures OnTrack() && base <= h && Next(c, job, h).None?
      ensures v == if |h| > |base| && CanBuild(c, session) && (h[|h| - 1] == Done || h[|h| - 1].Created? || h[|h| - 1] == Refused)
                   then Fine else Broken
      ensures podsBySession ==
              var k := |base| + |kinds|;
              if |h| > k && h[k].Created? then
                old(podsBySession)[id := Built(c, session, prepared, secret, kinds).(name := id, uid := h[k].uid)]
              else old(podsBySession)
    {
      hide Exec, OnTrack, Next;
      if !CanBuild(c, session) { return Broken; }
      var pod := Built(c, session, prepared, secret, kinds);
      if kinds != [] && !c.staticUrlReadable { return Broken; }
      forall g: seq<Reply> | base <= g && |g| < |base| + |kinds| && (forall i :: |base| <= i < |g| ==> g[i] == Done)
        ensures Next(c, job, g) == Some(ApplyPolicy(id, kinds[|g| - |base|], Pool))
      {
        assert |g| > |base| ==> g[|g| - 1] == Done;
      }
      var ok := ApplyPolicies(id, kinds, Pool);
      if !ok { return Broken; }
      v := CreateAndOwn(id, kinds, pod, base);
    }

    /** Create the pod and hand the policy objects over to it. */
    method CreateAndOwn(id: string, kinds: seq<PolicyKind>, pod: Pod, ghost base: seq<Reply>) returns (v: Verdict)
      requires OnTrack() && base <= h && |h| == |base| + |kinds| && |base| >= 4 && base[0].Granted? && base[1].Prepared?
      requires forall i :: |base| <= i < |h| ==> h[i] == Done
      requires pod == Built(c, base[0].session, base[1].pin, base[2], kinds)
      requires CanBuild(c, base[0].session) && (kinds != [] ==> c.staticUrlReadable)
      requires forall g: seq<Reply> :: base <= g ==> Next(c, job, g) == NextForPod(c, id, g, |base|, kinds)
      modifies `world, `script, `h, `made, `podsBySession
      ensures OnTrack() && old(h) <= h && |h| > |old(h)| && Next(c, job, h).None?
      ensures v == if h[|h| - 1] == Done || h[|h| - 1].Created? || h[|h| - 1] == Refused then Fine else Broken
      ensures podsBySession ==
              var k := |base| + |kinds|;
              if h[k].Created? then old(podsBySession)[id := pod.(name := id, uid := h[k].uid)] else old(podsBySession)
    {
      hide Exec, OnTrack, Next;
      assert |h| > |base| ==> h[|h| - 1] == Done;
      var r := Call(CreatePod(id, pod));
      if r == Refused { return Fine; }
      if !r.Created? { return Broken; }
      podsBySession := podsBySession[id := pod.(name := id, uid := r.uid)];
      var ok := HandOver(id, kinds, r.uid, base);
      v := if ok then Fine else Broken;
    }

    method HandOver(id: string, kinds: seq<PolicyKind>, uid: nat, ghost base: seq<Reply>) returns (ok: bool)
      requires OnTrack() && base <= h && |h| == |base| + |kinds| + 1 && |base| >= 4 && base[0].Granted? && base[1].Prepared?
      requires h[|base| + |kinds|] == Created(uid)
      requires CanBuild(c, base[0].session) && (kinds != [] ==> c.staticUrlReadable)
      requires forall g: seq<Reply> :: base <= g ==> Next(c, job, g) == NextForPod(c, id, g, |base|, kinds)
      modifies `world, `script, `h, `made
      ensures OnTrack() && old(h) <= h && Next(c, job, h).None?
      ensures ok ==> h[|h| - 1] == if kinds == [] then Created(uid) else Done
      ensures !ok ==> h[|h| - 1] == Failed
    {
      hide Exec, OnTrack, Next;
      ghost var created := h;
      forall g: seq<Reply> | created <= g && |g| < |created| + |kinds| && (forall i :: |created| <= i < |g| ==> g[i] == Done)
        ensures Next(c, job, g) == Some(ApplyPolicy(id, kinds[|g| - |created|], OwnedBy(uid)))
      {
        assert base <= g && g[|base| + |kinds|] == Created(uid);
        assert g[|g| - 1] == if |g| == |created| then Created(uid) else Done;
      }
      ok := ApplyPolicies(id, kinds, OwnedBy(uid));
      assert base <= h && h[|base| + |kinds|] == Created(uid);
    }

    /** From the claim to the running pod; a refused claim is a lost race. */
    method StartWorker(id: string) returns (v: Verdict)
      requires OnTrack() && h == []
      requires job.Run? && (job.action.Claim? || job.action.StartWorker?) && job.action.id == id
      modifies `world, `script, `h, `made, `podsBySession
      ensures OnTrack() && Next(c, job, h).None?
      ensures v == VerdictOf(c, job, h)
      ensures podsBySession == PodsAfter(c, old(podsBySession), job, h)
    {
      hide Exec, OnTrack;
      var claimed := Call(ClaimRow(id));
      if claimed == Refused { return LostRace; }
      if !claimed.Granted? || !claimed.gateway { return Broken; }
      v := Provision(id, claimed.session);
    }

    /** With the claim in hand: the session's state, its token, its policy and its pod. */
    method Provision(id: string, session: Session) returns (v: Verdict)
      requires OnTrack() && |h| == 1 && Token(h[0]) && h[0].session == session
      requires job.Run? && (job.action.Claim? || job.action.StartWorker?) && job.action.id == id
      modifies `world, `script, `h, `made, `podsBySession
      ensures OnTrack() && Next(c, job, h).None?
      ensures v == VerdictOf(c, job, h)
      ensures podsBySession == PodsAfter(c, old(podsBySession), job, h)
    {
      hide Exec, OnTrack;
      var prepared := Call(PrepareState(id));
      if !prepared.Prepared? { return Broken; }
      var secret := Call(ReadSecret(id));
      if !secret.Secret? { return Broken; }
      var applied := Call(ApplySecret(id));
      if applied != Done { return Broken; }
      if !session.restricted {
        v := PlacePod(id, session, prepared.pin, secret, []);
        return;
      }
      var enforcer := Call(FindEnforcer(id));
      if !enforcer.Enforcer? { return Broken; }
      v := PlacePod(id, session, prepared.pin, secret, enforcer.kinds);
    }

    /** All that matters afterwards is that we hold no claim, so a refusal is as good as a release. */
    method ReleaseIgnoringConflict(id: string) returns (ok: bool)
      requires OnTrack() && Next(c, job, h) == Some(ReleaseRow(id))
      modifies `world, `script, `h, `made
      ensures OnTrack() && |h| == |old(h)| + 1 && h[..|old(h)|] == old(h) && ok == Released(h[|old(h)|])
    {
      var r := Call(ReleaseRow(id));
      ok := r == Done || r == Refused || r == Gone;
    }

    /** Every job's contract: the calls made, the verdict and the pass's own state follow from the answers. */
    ghost predicate Ran(pods: map<string, Pod>, pending: bool, v: Verdict)
      reads this
    {
      && Finished() && v == VerdictOf(c, job, h)
      && podsBySession == PodsAfter(c, pods, job, h)
      && snapshotPending == (pending || Hurries(job, h))
    }

    method ExecuteSuspend(id: string, pod: Option<Pod>) returns (v: Verdict)
      modifies this
      ensures job == Run(Suspend(id), pod) && whole == Exec(c, old(world), job, [], old(script))
      ensures Ran(old(podsBySession), old(snapshotPending), v)
    {
      hide Exec, OnTrack, NextStart, NextTerminate, NextGiveUp, NextStartupFailed, NextCleanUp, StartCompleted, StartedPod;
      Begin(Run(Suspend(id), pod));
      if pod.Some? {
        var r := Call(TakeSnapshot(id));
        if !r.Snapshot? { FinishedWhenDone(); return Broken; }
        if !r.ready {
          snapshotPending := true;
          FinishedWhenDone();
          return Fine;
        }
      }
      v := CloseSuspended(id);
    }

    /** With the state safe, or no pod to save it from: teardown, then release. */
    method CloseSuspended(id: string) returns (v: Verdict)
      requires OnTrack() && job.Run? && job.action == Suspend(id)
      requires h == if job.pod.Some? then [Snapshot(true)] else []
      modifies `world, `script, `h, `made, `podsBySession
      ensures Ran(old(podsBySession), snapshotPending, v)
    {
      hide Exec, OnTrack, NextStart, NextTerminate, NextGiveUp, NextStartupFailed, NextCleanUp, StartCompleted, StartedPod;
      var ok := Teardown(id);
      if !ok { FinishedWhenDone(); return Broken; }
      ok := ReleaseIgnoringConflict(id);
      FinishedWhenDone();
      v := if ok then Fine else Broken;
    }

    method ExecuteTerminate(id: string, pod: Option<Pod>) returns (v: Verdict)
      modifies this
      ensures job == Run(Terminate(id), pod) && whole == Exec(c, old(world), job, [], old(script))
      ensures Ran(old(podsBySession), old(snapshotPending), v)
    {
      hide Exec, OnTrack, NextStart, NextSuspend, NextGiveUp, NextStartupFailed, NextCleanUp, StartCompleted, StartedPod;
      Begin(Run(Terminate(id), pod));
      var ok := ReleaseIgnoringConflict(id);
      if !ok { FinishedWhenDone(); return Broken; }
      ok := Teardown(id);
      if !ok { FinishedWhenDone(); return Broken; }
      var r := Call(DropArtifacts(id));
      FinishedWhenDone();
      v := if r == Done then Fine else Broken;
    }

    method ExecuteGiveUp(id: string, restarts: nat, pod: Option<Pod>) returns (v: Verdict)
      modifies this
      ensures job == Run(GiveUp(id, restarts), pod) && whole == Exec(c, old(world), job, [], old(script))
      ensures Ran(old(podsBySession), old(snapshotPending), v)
    {
      hide Exec, OnTrack, NextStart, NextSuspend, NextTerminate, NextStartupFailed, NextCleanUp, StartCompleted, StartedPod;
      Begin(Run(GiveUp(id, restarts), pod));
      if pod.Some? && ColdStarted(pod.value) {
        var recycled := RecycleUnrestoredPod(id, WithoutPin);
        match recycled
        case None => FinishedWhenDone(); return Broken;
        case Some(true) => FinishedWhenDone(); return Fine;
        case Some(false) =>
      }
      v := GiveBack(id);
    }

    /** The rest of a give-up that comes to giving back: release, then teardown. */
    method GiveBack(id: string) returns (v: Verdict)
      requires OnTrack() && job.Run? && job.action.GiveUp? && job.action.id == id
      requires if job.pod.Some? && ColdStarted(job.pod.value) then |h| == 1 && h[0].Secret? && h[0] != Secret(true, None) else h == []
      modifies `world, `script, `h, `made, `podsBySession
      ensures Ran(old(podsBySession), snapshotPending, v)
    {
      hide Exec, OnTrack, NextStart, NextSuspend, NextTerminate, NextStartupFailed, NextCleanUp, StartCompleted, StartedPod;
      var ok := ReleaseIgnoringConflict(id);
      if !ok { FinishedWhenDone(); return Broken; }
      ok := Teardown(id);
      FinishedWhenDone();
      v := if ok then Fine else Broken;
    }

    method ExecuteStartupFailed(id: string, failure: StartupFailure, pod: Option<Pod>) returns (v: Verdict)
      modifies this
      ensures job == Run(StartupFailed(id, failure), pod) && whole == Exec(c, old(world), job, [], old(script))
      ensures Ran(old(podsBySession), old(snapshotPending), v)
    {
      hide Exec, OnTrack, NextStart, NextSuspend, NextTerminate, NextGiveUp, StartCompleted, StartedPod;
      Begin(Run(StartupFailed(id, failure), pod));
      var r := Call(ReportFailure(id));
      if r == Done {
        v := CloseReported(id);
        return;
      }
      if r != Refused { FinishedWhenDone(); return Broken; }
      var ok := Teardown(id);
      FinishedWhenDone();
      v := if ok then Fine else Broken;
    }

    /** After an acknowledged report: the pod, the artifacts, and the secret last. */
    method CloseReported(id: string) returns (v: Verdict)
      requires OnTrack() && job.Run? && job.action.StartupFailed? && job.action.id == id && h == [Done]
      modifies `world, `script, `h, `made, `podsBySession
      ensures Ran(old(podsBySession), snapshotPending, v)
    {
      hide Exec, OnTrack, NextStart, NextSuspend, NextTerminate, NextGiveUp, StartCompleted, StartedPod;
      var r := Call(DeletePod(id));
      if !Deleted(r) { FinishedWhenDone(); return Broken; }
      podsBySession := podsBySession - {id};
      r := Call(DropArtifacts(id));
      if r != Done { FinishedWhenDone(); return Broken; }
      r := Call(DeleteSecret(id));
      FinishedWhenDone();
      v := if Deleted(r) then Fine else Broken;
    }

    method ExecuteStart(action: Action, pod: Option<Pod>) returns (v: Verdict)
      requires action.Claim? || action.StartWorker?
      modifies this
      ensures job == Run(action, pod) && whole == Exec(c, old(world), job, [], old(script))
      ensures Ran(old(podsBySession), old(snapshotPending), v)
    {
      hide Exec, OnTrack, Next, Completed, StartedPod, Forgets;
      Begin(Run(action, pod));
      v := StartWorker(action.id);
      FinishedWhenDone();
    }

    /** Only whether the renewal was granted counts. */
    method ExecuteRenew(id: string, pod: Option<Pod>) returns (v: Verdict)
      modifies this
      ensures job == Run(Renew(id), pod) && whole == Exec(c, old(world), job, [], old(script))
      ensures Ran(old(podsBySession), old(snapshotPending), v)
    {
      hide Exec, OnTrack;
      Begin(Run(Renew(id), pod));
      var r := Call(ClaimRow(id));
      FinishedWhenDone();
      v := if r.Granted? then Fine else if r == Refused then LostRace else Broken;
    }

    /** The actions that only delete a pod; a drifted one is forgotten, to be started anew. */
    method ExecuteDelete(action: Action, pod: Option<Pod>) returns (v: Verdict)
      requires action.ReplaceSucceededPod? || action.ReplaceDriftedPod? || action.DeleteOrphanPod?
      modifies this
      ensures job == Run(action, pod) && whole == Exec(c, old(world), job, [], old(script))
      ensures Ran(old(podsBySession), old(snapshotPending), v)
    {
      hide Exec, OnTrack;
      Begin(Run(action, pod));
      var id := if action.DeleteOrphanPod? then action.podName else action.id;
      var r := Call(DeletePod(id));
      FinishedWhenDone();
      if !Deleted(r) { return Broken; }
      if action.ReplaceDriftedPod? { podsBySession := podsBySession - {id}; }
      v := Fine;
    }

    /** `execute`: one planned action. */
    method Execute(action: Action) returns (v: Verdict)
      modifies this
      ensures job == Run(action, PodOf(old(podsBySession), action))
      ensures whole == Exec(c, old(world), job, [], old(script))
      ensures Ran(old(podsBySession), old(snapshotPending), v)
    {
      hide Exec, OnTrack, Ran;
      var pod := PodOf(podsBySession, action);
      match action
      case Claim(_) => v := ExecuteStart(action, pod);
      case StartWorker(_) => v := ExecuteStart(action, pod);
      case Renew(id) => v := ExecuteRenew(id, pod);
      case Suspend(id) => v := ExecuteSuspend(id, pod);
      case Terminate(id) => v := ExecuteTerminate(id, pod);
      case GiveUp(id, restarts) => v := ExecuteGiveUp(id, restarts, pod);
      case StartupFailed(id, failure) => v := ExecuteStartupFailed(id, failure, pod);
      case ReplaceSucceededPod(_) => v := ExecuteDelete(action, pod);
      case ReplaceDriftedPod(_) => v := ExecuteDelete(action, pod);
      case DeleteOrphanPod(_) => v := ExecuteDelete(action, pod);
    }

    /** The pass so far, as its own specification sees it. */
    ghost function Sofar(calls: seq<Op>, kept: set<string>, broken: bool): Pass
      reads this
    {
      Pass(world, podsBySession, script, snapshotPending, broken, calls, kept)
    }

    method RecycleColdStarted(id: string) returns (v: Verdict)
      modifies this
      ensures job == Recycle(id) && whole == Exec(c, old(world), job, [], old(script))
      ensures Ran(old(podsBySession), old(snapshotPending), v)
    {
      hide Exec, OnTrack;
      Begin(Recycle(id));
      var recycled := RecycleUnrestoredPod(id, WithPin);
      match recycled
      case None => FinishedWhenDone(); return Broken;
      case Some(true) => FinishedWhenDone(); return Fine;
      case Some(false) => FinishedWhenDone(); return Fine;
    }

    /** `delete_session_artifacts`: the token secret stays until the artifacts are gone. */
    method DeleteSessionArtifacts(id: string) returns (v: Verdict)
      modifies this
      ensures job == CleanUp(id) && whole == Exec(c, old(world), job, [], old(script))
      ensures Ran(old(podsBySession), old(snapshotPending), v)
    {
      hide Exec, OnTrack;
      Begin(CleanUp(id));
      var r := Call(DropArtifacts(id));
      if r != Done { FinishedWhenDone(); return Broken; }
      r := Call(DeleteSecret(id));
      FinishedWhenDone();
      v := if Deleted(r) then Fine else Broken;
    }

    /** The action loop: no failure stops it. */
    method RunAll(actions: seq<Action>) returns (broken: bool, ghost calls: seq<Op>, ghost kept: set<string>)
      modifies this
      ensures Sofar(calls, kept, broken) == RunActions(c, old(Sofar([], {}, false)), actions)
    {
      hide Exec, OnTrack;
      broken, calls, kept := false, [], {};
      for i := 0 to |actions|
        invariant Sofar(calls, kept, broken) == RunActions(c, old(Sofar([], {}, false)), actions[..i])
      {
        assert actions[..i + 1][..i] == actions[..i];
        var v := Execute(actions[i]);
        calls := calls + made;
        kept := if actions[i].GiveUp? && !GaveBack(job, h) then kept + {actions[i].id} else kept;
        broken := broken || v == Broken;
      }
      assert actions[..|actions|] == actions;
    }

    /** The second loop: over the pods known after the actions. */
    method RecycleAll(ids: seq<string>, failed: bool, ghost before: seq<Op>, ghost kept: set<string>)
      returns (broken: bool, ghost calls: seq<Op>)
      modifies this
      ensures Sofar(calls, kept, broken) ==
              RunRecycles(c, old(Sofar(before, kept, failed)), old(podsBySession), ids)
    {
      hide Exec, OnTrack;
      broken, calls := failed, before;
      var known := podsBySession;
      for i := 0 to |ids|
        invariant Sofar(calls, kept, broken) == RunRecycles(c, old(Sofar(before, kept, failed)), known, ids[..i])
      {
        assert ids[..i + 1][..i] == ids[..i];
        if ids[i] in known && NeedsRecycle(known[ids[i]]) {
          var v := RecycleColdStarted(ids[i]);
          calls := calls + made;
          broken := broken || v == Broken;
        }
      }
      assert ids[..|ids|] == ids;
    }

    /** The third loop: over the secrets that belong to no listed session. */
    method CleanUpAll(ids: seq<string>, failed: bool, ghost before: seq<Op>, ghost kept: set<string>)
      returns (broken: bool, ghost calls: seq<Op>)
      modifies this
      ensures Sofar(calls, kept, broken) == RunCleanUps(c, old(Sofar(before, kept, failed)), ids)
    {
      hide Exec, OnTrack;
      broken, calls := failed, before;
      for i := 0 to |ids|
        invariant Sofar(calls, kept, broken) == RunCleanUps(c, old(Sofar(before, kept, failed)), ids[..i])
      {
        assert ids[..i + 1][..i] == ids[..i];
        var v := DeleteSessionArtifacts(ids[i]);
        calls := calls + made;
        broken := broken || v == Broken;
      }
      assert ids[..|ids|] == ids;
    }

    /** The body of one pass, which fails if anything in it did; without the list of secrets it ends there. */
    method RunOnce(actions: seq<Action>, cold: seq<string>, vanished: Option<seq<string>>)
      returns (broken: bool, ghost calls: seq<Op>, ghost kept: set<string>)
      modifies this
      ensures Sofar(calls, kept, broken) == RunPass(c, old(Sofar([], {}, false)), actions, cold, vanished)
    {
      broken, calls, kept := RunAll(actions);
      broken, calls := RecycleAll(cold, broken, calls, kept);
      if vanished.None? { return true, calls, kept; }
      broken, calls := CleanUpAll(vanished.value, broken, calls, kept);
    }
  }
}
