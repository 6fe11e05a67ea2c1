/** What the answers of a job amount to: its order, its verdict and the pods the pass then knows. */
module JobLaws {
  import opened Basics
  import opened Pods
  import opened Planner
  import opened Cluster
  import opened Jobs
  import opened Passes
  import opened Lifecycle

  /**
   A suspended session is let go last: its pod is deleted once the snapshot is
   ready, or at once if there is no pod, its secret after that, and its claim
   is released with both of them gone.
   */
  lemma SuspendReleasesLast(c: Config, id: string, pod: Option<Pod>, h: seq<Reply>, op: Op)
    requires Next(c, Run(Suspend(id), pod), h) == Some(op)
    ensures var safe := if pod.Some? then [Snapshot(true)] else [];
            && (op == TakeSnapshot(id) <==> pod.Some? && h == [])
            && (op == DeletePod(id) <==> h == safe)
            && (op == DeleteSecret(id) <==> |h| == |safe| + 1)
            && (op == ReleaseRow(id) <==> |h| == |safe| + 2)
            && op in {TakeSnapshot(id), DeletePod(id), DeleteSecret(id), ReleaseRow(id)}
            && (|h| > |safe| ==> safe <= h && forall k :: |safe| <= k < |h| ==> Deleted(h[k]))
  {
  }

  // ------------------------------------------------------------- the verdict

  /** Why a job that got its answers does not go through, apart from a lost claim race. */
  predicate Trouble(c: Config, job: Job, h: seq<Reply>)
    requires h != []
  {
    || h[|h| - 1] == Failed
    || (h == [Gone] && job.Run? && (AsksQueue(job.action) || job.action.StartupFailed?))
    || h == [Secret(true, None), Gone]
    || (Starts(job).Some? && h[0].Granted? && CannotStart(c, h[0].session, h[0].gateway, h))
  }

  /** The claim came without a token, the image cannot be built, or the policy lacks the operator's address. */
  predicate CannotStart(c: Config, session: Session, gateway: bool, h: seq<Reply>) {
    || !gateway
    || (|h| > 3 && session.spec.imageBuild && !c.canBuildImages)
    || (|h| > 4 && h[4].Enforcer? && h[4].kinds != [] && !c.staticUrlReadable)
  }

  /** When a job is over, it fails the pass exactly for one of those reasons, and a claim refused is no failure. */
  lemma BreaksExactlyWhen(c: Config, job: Job, h: seq<Reply>)
    requires h != [] && Possible(c, job, h) && Next(c, job, h).None?
    ensures VerdictOf(c, job, h) == Broken <==> Trouble(c, job, h)
    ensures VerdictOf(c, job, h) == LostRace <==> job.Run? && AsksQueue(job.action) && h == [Refused]
  {
    LastAnswerFits(c, job, h);
    if Starts(job).Some? {
      StartBreaksExactlyWhen(c, job, h);
    } else {
      OtherBreaksExactlyWhen(c, job, h);
    }
  }

  lemma LastAnswerFits(c: Config, job: Job, h: seq<Reply>)
    requires h != [] && Possible(c, job, h)
    ensures var before := h[..|h| - 1]; Next(c, job, before).Some? && Fits(Next(c, job, before).value, h[|h| - 1])
  {
  }

  lemma StartBreaksExactlyWhen(c: Config, job: Job, h: seq<Reply>)
    requires h != [] && Starts(job).Some? && Next(c, job, h).None?
    requires var before := h[..|h| - 1]; Next(c, job, before).Some? && Fits(Next(c, job, before).value, h[|h| - 1])
    ensures VerdictOf(c, job, h) == Broken <==> Trouble(c, job, h)
    ensures VerdictOf(c, job, h) == LostRace <==> h == [Refused]
  {
    assert forall k :: 0 <= k < |h| - 1 ==> h[..|h| - 1][k] == h[k];
  }

  lemma OtherBreaksExactlyWhen(c: Config, job: Job, h: seq<Reply>)
    requires h != [] && Starts(job).None? && Next(c, job, h).None?
    requires var before := h[..|h| - 1]; Next(c, job, before).Some? && Fits(Next(c, job, before).value, h[|h| - 1])
    ensures VerdictOf(c, job, h) == Broken <==> Trouble(c, job, h)
    ensures VerdictOf(c, job, h) == LostRace <==> job.Run? && AsksQueue(job.action) && h == [Refused]
  {
    assert forall k :: 0 <= k < |h| - 1 ==> h[..|h| - 1][k] == h[k];
  }

  // --------------------------------------------------- what the pass then knows

  /** The next pass is brought forward exactly when a snapshot is in progress or a marked pod was deleted. */
  lemma HurriesExactlyWhen(c: Config, job: Job, h: seq<Reply>)
    requires Possible(c, job, h)
    ensures Hurries(job, h) <==>
            || h == [Snapshot(false)]
            || (|h| == 3 && Next(c, job, h[..1]).Some? && Next(c, job, h[..1]).value.MarkSecret? && Deleted(h[2]))
  {
    if h != [] { LastAnswerFits(c, job, h); }
    assert |h| == 1 ==> h[..0] == [];
    assert |h| == 3 ==> h[..1] == [h[0]] && h[..2] == [h[0], h[1]];
    assert |h| == 3 ==> Next(c, job, h[..1]).Some? && Fits(Next(c, job, h[..1]).value, h[1]);
  }

  /** The job's own deletion of the session's pod was answered. */
  predicate DeletedPod(c: Config, job: Job, h: seq<Reply>) {
    exists k :: 0 <= k < |h| && Next(c, job, h[..k]) == Some(DeletePod(Subject(job))) && Deleted(h[k])
  }

  /**
   The pass forgets a pod only once its deletion was answered, and after a
   completed job it has forgotten every pod the job deleted, save for one to be
   replaced in a later pass.
   */
  lemma ForgottenWasDeleted(c: Config, job: Job, h: seq<Reply>)
    requires Possible(c, job, h)
    ensures Forgets(job, h) ==> DeletedPod(c, job, h)
    ensures Completed(c, job, h) && DeletedPod(c, job, h) ==>
              Forgets(job, h) || (job.Run? && (job.action.ReplaceSucceededPod? || job.action.DeleteOrphanPod?))
  {
    hide Next, Forgets, Completed, Possible;
    if Forgets(job, h) { ForgottenAt(c, job, h); }
    if k :| 0 <= k < |h| && Next(c, job, h[..k]) == Some(DeletePod(Subject(job))) && Deleted(h[k]) && Completed(c, job, h) {
      CompletedForgets(c, job, h, k);
    }
  }

  /** Which of a job's calls deletes the pod. */
  function DeletionAt(job: Job): nat {
    match job
    case Run(Suspend(_), pod) => if pod.Some? then 1 else 0
    case Run(Terminate(_), _) => 1
    case Run(GiveUp(_, _), pod) => if pod.Some? && ColdStarted(pod.value) then 2 else 1
    case Run(StartupFailed(_, _), _) => 1
    case Run(_, _) => 0
    case Recycle(_) => 2
    case CleanUp(_) => 0
  }

  lemma ForgottenAt(c: Config, job: Job, h: seq<Reply>)
    requires Possible(c, job, h) && Forgets(job, h)
    ensures var k := DeletionAt(job);
            k < |h| && Next(c, job, h[..k]) == Some(DeletePod(Subject(job))) && Deleted(h[k])
  {
    hide ColdStarted;
    var k := DeletionAt(job);
    assert forall i :: 0 <= i < k ==> h[..k][i] == h[i];
    assert Next(c, job, h[..k]).Some?;
  }

  lemma CompletedForgets(c: Config, job: Job, h: seq<Reply>, k: nat)
    requires Possible(c, job, h) && Completed(c, job, h) && k < |h| && Next(c, job, h[..k]) == Some(DeletePod(Subject(job))) && Deleted(h[k])
    ensures Forgets(job, h) || (job.Run? && (job.action.ReplaceSucceededPod? || job.action.DeleteOrphanPod?))
  {
    CallAt(c, job, h, |h| - 1);
    if Starts(job).Some? { StartDeletesNothing(c, job, h[..k]); } else { OtherForgets(c, job, h, k); }
  }

  lemma StartDeletesNothing(c: Config, job: Job, h: seq<Reply>)
    requires Starts(job).Some?
    ensures Next(c, job, h).Some? ==> !Next(c, job, h).value.DeletePod?
  {
  }

  lemma OtherForgets(c: Config, job: Job, h: seq<Reply>, k: nat)
    requires Starts(job).None? && Completed(c, job, h) && Next(c, job, h[..|h| - 1]).Some?
    requires k < |h| && Next(c, job, h[..k]) == Some(DeletePod(Subject(job))) && Deleted(h[k])
    ensures Forgets(job, h) || (job.Run? && (job.action.ReplaceSucceededPod? || job.action.DeleteOrphanPod?))
  {
    hide ColdStarted, NextStart, StartCompleted;
    assert forall i :: 0 <= i < k ==> h[..k][i] == h[i];
    assert forall i :: 0 <= i < |h| - 1 ==> h[..|h| - 1][i] == h[i];
  }

  /** A started pod is known from then on as it was created. */
  lemma StartedIsCreated(c: Config, job: Job, h: seq<Reply>, k: nat, built: Pod, uid: nat)
    requires Starts(job).Some? && Possible(c, job, h) && k < |h|
    requires Next(c, job, h[..k]) == Some(CreatePod(Starts(job).value, built))
    ensures StartedPod(c, Starts(job).value, h) ==
            if h[k].Created? then Some(built.(name := Starts(job).value, uid := h[k].uid)) else None
  {
    hide Built;
    CreatedAfter(c, job, h[..k], CreatePod(Starts(job).value, built));
    PolicyCall(c, Starts(job).value, h[..k], CreatePod(Starts(job).value, built));
    assert forall i :: 0 <= i < k ==> h[..k][i] == h[i];
  }

  /**
   Once its pod is created, a completed start has handed every policy object
   over to that very pod: they go when it goes.
   */
  lemma PoliciesHandedOver(c: Config, job: Job, h: seq<Reply>, j: nat)
    requires Starts(job).Some? && Possible(c, job, h) && Completed(c, job, h) && h[0].session.restricted
    requires h[4].Enforcer? && j < |h[4].kinds|
    requires |h| > 5 + |h[4].kinds| && h[5 + |h[4].kinds|].Created?
    ensures var n, uid := |h[4].kinds|, h[5 + |h[4].kinds|].uid;
            && |h| == 6 + 2 * n
            && Next(c, job, h[..6 + n + j]) == Some(ApplyPolicy(Starts(job).value, h[4].kinds[j], OwnedBy(uid)))
            && h[6 + n + j] == Done
  {
    hide Next, Possible, Completed;
    var n := |h[4].kinds|;
    var at := 6 + n + j;
    LastAnswerFits(c, job, h);
    HandsAllOver(c, job, h);
    CompletedUnfailed(c, job, h);
    var g, onward := h[..at], h[..at + 1];
    CallAt(c, job, h, at);
    if at + 1 < |h| { CallAt(c, job, h, at + 1); }
    assert onward == g + [h[at]] && (at + 1 == |h| ==> onward == h);
    HandOverCall(c, job, g, Next(c, job, g).value, n);
    if h[at] == Failed { ErrorStopsStart(c, job, g); }
  }

  lemma CallAt(c: Config, job: Job, h: seq<Reply>, k: nat)
    requires Possible(c, job, h) && k < |h|
    ensures Next(c, job, h[..k]).Some? && Fits(Next(c, job, h[..k]).value, h[k])
  {
    hide Next, Fits;
  }

  lemma CompletedUnfailed(c: Config, job: Job, h: seq<Reply>)
    requires Completed(c, job, h) && Starts(job).Some?
    ensures h[0].Granted? && h[|h| - 1] != Failed
  {
    hide Next;
  }

  lemma ErrorStopsStart(c: Config, job: Job, g: seq<Reply>)
    requires Starts(job).Some? && Next(c, job, g).Some?
    ensures Next(c, job, g + [Failed]).None?
  {
    var h := g + [Failed];
    assert (forall k :: 0 <= k < |g| ==> h[k] == g[k]) && h[|h| - 1] == Failed;
  }

  lemma HandOverCall(c: Config, job: Job, g: seq<Reply>, op: Op, n: nat)
    requires Starts(job).Some? && Next(c, job, g) == Some(op) && |g| > 5 + n
    requires g[0].Granted? && g[0].session.restricted && g[4].Enforcer? && n == |g[4].kinds| && g[5 + n].Created?
    ensures |g| - 6 - n < n && op == ApplyPolicy(Starts(job).value, g[4].kinds[|g| - 6 - n], OwnedBy(g[5 + n].uid))
  {
  }

  lemma HandsAllOver(c: Config, job: Job, h: seq<Reply>)
    requires h != [] && Starts(job).Some? && Completed(c, job, h)
    requires var before := h[..|h| - 1]; Next(c, job, before).Some? && Fits(Next(c, job, before).value, h[|h| - 1])
    requires |h| > 5 && h[0].session.restricted && h[4].Enforcer?
    requires |h| > 5 + |h[4].kinds| && h[5 + |h[4].kinds|].Created?
    ensures |h| == 6 + 2 * |h[4].kinds|
  {
    assert forall k :: 0 <= k < |h| - 1 ==> h[..|h| - 1][k] == h[k];
  }

  // ------------------------------------------------------------ a whole pass

  /** A job of a pass with the answers it got. */
  datatype Attempt = Attempt(job: Job, answers: seq<Reply>)

  function AttemptOf(c: Config, s: Pass, job: Job): Attempt { Attempt(job, Exec(c, s.world, job, [], s.script).answers) }

  function ActionAttempts(c: Config, s: Pass, actions: seq<Action>): seq<Attempt> {
    if actions == [] then []
    else
      var before, a := RunActions(c, s, actions[..|actions| - 1]), actions[|actions| - 1];
      ActionAttempts(c, s, actions[..|actions| - 1]) + [AttemptOf(c, before, Run(a, PodOf(before.pods, a)))]
  }

  function RecycleAttempts(c: Config, s: Pass, pods: map<string, Pod>, ids: seq<string>): seq<Attempt> {
    if ids == [] then []
    else
      var before, id := RunRecycles(c, s, pods, ids[..|ids| - 1]), ids[|ids| - 1];
      RecycleAttempts(c, s, pods, ids[..|ids| - 1])
      + if id in pods && NeedsRecycle(pods[id]) then [AttemptOf(c, before, Recycle(id))] else []
  }

  function CleanUpAttempts(c: Config, s: Pass, ids: seq<string>): seq<Attempt> {
    if ids == [] then []
    else
      CleanUpAttempts(c, s, ids[..|ids| - 1])
      + [AttemptOf(c, RunCleanUps(c, s, ids[..|ids| - 1]), CleanUp(ids[|ids| - 1]))]
  }

  predicate AnyBroken(c: Config, tries: seq<Attempt>) { exists t <- tries :: VerdictOf(c, t.job, t.answers) == Broken }

  predicate AnyHurries(tries: seq<Attempt>) { exists t <- tries :: Hurries(t.job, t.answers) }

  lemma OneMoreAttempt(c: Config, tries: seq<Attempt>, t: Attempt)
    ensures AnyBroken(c, tries + [t]) <==> AnyBroken(c, tries) || VerdictOf(c, t.job, t.answers) == Broken
    ensures AnyHurries(tries + [t]) <==> AnyHurries(tries) || Hurries(t.job, t.answers)
  {
    hide VerdictOf, Hurries;
    var all := tries + [t];
    assert all[|tries|] == t && t in all;
  }

  /** One job of a pass: only a broken one fails it, only a hurried one brings the next forward. */
  lemma JobMarksPass(c: Config, s: Pass, job: Job)
    ensures var t := AttemptOf(c, s, job); var after := RunJob(c, s, job);
            && (after.broken <==> s.broken || VerdictOf(c, t.job, t.answers) == Broken)
            && (after.pending <==> s.pending || Hurries(t.job, t.answers))
  {
    hide Exec, VerdictOf, Hurries, PodsAfter, GaveBack;
  }

  lemma {:induction false} ActionsMarkPass(c: Config, s: Pass, actions: seq<Action>)
    ensures var t, tries := RunActions(c, s, actions), ActionAttempts(c, s, actions);
            && |tries| == |actions|
            && (t.broken <==> s.broken || AnyBroken(c, tries)) && (t.pending <==> s.pending || AnyHurries(tries))
  {
    hide AttemptOf, RunJob, AnyBroken, AnyHurries;
    if actions == [] {
      NoAttempts(c);
    } else {
      var shorter, a := actions[..|actions| - 1], actions[|actions| - 1];
      var before := RunActions(c, s, shorter);
      ActionsMarkPass(c, s, shorter);
      JobMarksPass(c, before, Run(a, PodOf(before.pods, a)));
      OneMoreAttempt(c, ActionAttempts(c, s, shorter), AttemptOf(c, before, Run(a, PodOf(before.pods, a))));
    }
  }

  lemma NoAttempts(c: Config)
    ensures !AnyBroken(c, []) && !AnyHurries([])
  {
  }

  lemma {:induction false} RecyclesMarkPass(c: Config, s: Pass, pods: map<string, Pod>, ids: seq<string>)
    ensures var t, tries := RunRecycles(c, s, pods, ids), RecycleAttempts(c, s, pods, ids);
            && (t.broken <==> s.broken || AnyBroken(c, tries)) && (t.pending <==> s.pending || AnyHurries(tries))
  {
    hide AttemptOf, RunJob, AnyBroken, AnyHurries, NeedsRecycle;
    if ids == [] {
      NoAttempts(c);
    } else {
      var shorter, id := ids[..|ids| - 1], ids[|ids| - 1];
      var before, tries := RunRecycles(c, s, pods, shorter), RecycleAttempts(c, s, pods, shorter);
      RecyclesMarkPass(c, s, pods, shorter);
      JobMarksPass(c, before, Recycle(id));
      OneMoreAttempt(c, tries, AttemptOf(c, before, Recycle(id)));
      assert tries + [] == tries;
    }
  }

  lemma {:induction false} CleanUpsMarkPass(c: Config, s: Pass, ids: seq<string>)
    ensures var t, tries := RunCleanUps(c, s, ids), CleanUpAttempts(c, s, ids);
            && |tries| == |ids|
            && (t.broken <==> s.broken || AnyBroken(c, tries)) && (t.pending <==> s.pending || AnyHurries(tries))
  {
    hide AttemptOf, RunJob, AnyBroken, AnyHurries;
    if ids == [] {
      NoAttempts(c);
    } else {
      var shorter, id := ids[..|ids| - 1], ids[|ids| - 1];
      CleanUpsMarkPass(c, s, shorter);
      JobMarksPass(c, RunCleanUps(c, s, shorter), CleanUp(id));
      OneMoreAttempt(c, CleanUpAttempts(c, s, shorter), AttemptOf(c, RunCleanUps(c, s, shorter), CleanUp(id)));
    }
  }

  /**
   Recycled are exactly the pods, known after the actions, that run, are not being
   deleted and did not restore from their pin.
   */
  lemma {:induction false} RecycledExactlyWhen(c: Config, s: Pass, pods: map<string, Pod>, ids: seq<string>, id: string)
    ensures (exists t <- RecycleAttempts(c, s, pods, ids) :: t.job == Recycle(id)) <==>
            && id in ids && id in pods && pods[id].status.Some? && pods[id].status.value.phase == Some("Running")
            && !pods[id].deleting && ColdStarted(pods[id])
  {
    hide AttemptOf, ColdStarted;
    if ids != [] {
      var shorter, last := ids[..|ids| - 1], ids[|ids| - 1];
      RecycledExactlyWhen(c, s, pods, shorter, id);
      assert ids == shorter + [last];
      var before, tries := RecycleAttempts(c, s, pods, shorter), RecycleAttempts(c, s, pods, ids);
      assert forall t <- before :: t in tries;
      var t := AttemptOf(c, RunRecycles(c, s, pods, shorter), Recycle(last));
      AttemptIsFor(c, RunRecycles(c, s, pods, shorter), Recycle(last));
      if last in pods && NeedsRecycle(pods[last]) { assert tries[|before|] == t; }
    }
  }

  /** A deletion that took effect leaves no pod to recycle, even while it lingers. */
  lemma DeletedIsNotRecycled(c: Config, w: World, id: string, t: Tick)
    requires t.fault != Unsent
    ensures var v := Effect(c, w, DeletePod(id), t); id in v.pods ==> !NeedsRecycle(v.pods[id])
  {
  }

  lemma AttemptIsFor(c: Config, s: Pass, job: Job)
    ensures AttemptOf(c, s, job).job == job
  {
  }

  /**
   A pass makes every planned action, recycle and cleanup, whatever became of
   those before it. It fails exactly when one of them broke or the secrets could
   not be listed, and the next is brought forward exactly when one of them asks
   for that.
   */
  lemma PassFailsExactlyWhen(c: Config, w: World, r: Round)
    ensures var end := PassEnd(c, w, r.seen, r.script, r.cold, r.vanished);
            var acts := ActionAttempts(c, Begun(w, r.seen.pods, r.script), PlanOf(r.seen));
            var recycles := RecycleAttempts(c, Acted(c, w, r), Acted(c, w, r).pods, r.cold);
            var cleanups := CleanUpAttempts(c, Recycled(c, w, r), r.vanished.GetOr([]));
            && |acts| == |PlanOf(r.seen)| && |cleanups| == |r.vanished.GetOr([])|
            && (end.broken <==> r.vanished.None? || AnyBroken(c, acts) || AnyBroken(c, recycles) || AnyBroken(c, cleanups))
            && (end.pending <==> AnyHurries(acts) || AnyHurries(recycles) || AnyHurries(cleanups))
  {
    hide PlanOf, AnyBroken, AnyHurries, ActionAttempts, RecycleAttempts, CleanUpAttempts, RunActions, RunRecycles, RunCleanUps;
    ActionsMarkPass(c, Begun(w, r.seen.pods, r.script), PlanOf(r.seen));
    RecyclesMarkPass(c, Acted(c, w, r), Acted(c, w, r).pods, r.cold);
    CleanUpsMarkPass(c, Recycled(c, w, r), r.vanished.GetOr([]));
  }
}
