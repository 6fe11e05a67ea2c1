/** What a completed job has done, in a world nothing else touches: each answered call took, and no later one undid it. */
module Outcomes {
  import opened Basics
  import opened Pods
  import opened Planner
  import opened Cluster
  import opened Jobs
  import opened Lifecycle
  import opened Convergence

  /** Nothing else happens; calls may fail or lose their answers. */
  predicate Alone(script: seq<Tick>) { forall t <- script :: t.env == [] && !t.lingers }

  /** What an answered call has established. */
  predicate Fact(c: Config, w: World, op: Op, r: Reply) {
    match op
    case ClaimRow(id) => r.Granted? ==> id in w.rows && OursIn(c, w.rows[id])
    case ReleaseRow(id) => Released(r) ==> !(id in w.rows && OursIn(c, w.rows[id]))
    case ReportFailure(id) => r == Done ==> id !in w.rows
    case PrepareState(id) => r.Prepared? ==> id in w.artifacts
    case ApplySecret(id) => r == Done ==> id in w.secrets
    case MarkSecret(id, marker) => r == Done ==> id in w.secrets && w.secrets[id] == Some(marker)
    case DeleteSecret(id) => Deleted(r) ==> id !in w.secrets
    case ApplyPolicy(id, kind, _) => r == Done ==> (id, kind) in w.policies
    case CreatePod(id, _) => r.Created? || r == Refused ==> id in w.pods
    case DeletePod(id) => Deleted(r) ==> id !in w.pods
    case DropArtifacts(id) => r == Done ==> id !in w.artifacts
    case _ => true
  }

  predicate Facts(c: Config, w: World, job: Job, h: seq<Reply>) {
    forall k :: 0 <= k < |h| && Next(c, job, h[..k]).Some? ==> Fact(c, w, Next(c, job, h[..k]).value, h[k])
  }

  lemma AnswerIsFact(c: Config, w: World, op: Op, t: Tick)
    requires !t.lingers
    ensures Fact(c, Effect(c, w, op, t), op, Answer(c, w, op, t))
  {
  }

  predicate Builds(op: Op) {
    op.ClaimRow? || op.PrepareState? || op.ReadSecret? || op.ApplySecret? || op.FindEnforcer? || op.ApplyPolicy? || op.CreatePod?
  }

  predicate Undoes(op: Op) {
    op.ReleaseRow? || op.ReportFailure? || op.ReadSecret? || op.MarkSecret? || op.DeleteSecret? || op.DeletePod? || op.DropArtifacts?
  }

  /** A job either builds a worker up or takes it down; a snapshot comes first, a mark is never deleted. */
  lemma CallsOfOneKind(c: Config, job: Job, h: seq<Reply>, op: Op)
    requires Next(c, job, h) == Some(op)
    ensures if job.Run? && AsksQueue(job.action) then Builds(op) else Undoes(op) || (op.TakeSnapshot? && h == [])
    ensures op.MarkSecret? ==> |h| == 1
    ensures op.DeleteSecret? && |h| > 1 ==> !(h[0] == Secret(true, None))
  {
  }

  /** A later call of the same kind undoes nothing. */
  lemma NothingUndone(c: Config, w: World, earlier: Op, r: Reply, op: Op, t: Tick)
    requires Fact(c, w, earlier, r) && !t.lingers
    requires (Builds(earlier) && Builds(op)) || (Undoes(earlier) && Undoes(op)) || earlier.TakeSnapshot?
    requires earlier.MarkSecret? ==> !op.DeleteSecret? && !op.MarkSecret?
    ensures Fact(c, Effect(c, w, op, t), earlier, r)
  {
  }

  lemma MarkedIsRead(c: Config, job: Job, h: seq<Reply>, op: Op)
    requires Next(c, job, h) == Some(op) && op.MarkSecret?
    ensures h == [Secret(true, None)]
  {
  }

  /** One call further, every fact still stands. */
  lemma FactsStand(c: Config, w: World, job: Job, h: seq<Reply>, op: Op, t: Tick)
    requires Facts(c, w, job, h) && Next(c, job, h) == Some(op) && !t.lingers
    ensures Facts(c, Effect(c, w, op, t), job, h + [Answer(c, w, op, t)])
  {
    hide Fact, Next, Effect, Answer;
    var v, g := Effect(c, w, op, t), h + [Answer(c, w, op, t)];
    AnswerIsFact(c, w, op, t);
    CallsOfOneKind(c, job, h, op);
    forall k | 0 <= k < |g| && Next(c, job, g[..k]).Some? ensures Fact(c, v, Next(c, job, g[..k]).value, g[k]) {
      if k == |h| {
        assert g[..k] == h;
      } else {
        assert g[..k] == h[..k] && g[k] == h[k];
        var earlier := Next(c, job, h[..k]).value;
        CallsOfOneKind(c, job, h[..k], earlier);
        if earlier.MarkSecret? {
          MarkedIsRead(c, job, h[..k], earlier);
          assert h[..k][0] == h[0];
        }
        NothingUndone(c, w, earlier, h[k], op, t);
      }
    }
  }

  lemma {:induction false} ExecFacts(c: Config, w: World, job: Job, h: seq<Reply>, script: seq<Tick>)
    requires Alone(script) && Facts(c, w, job, h)
    ensures Facts(c, Exec(c, w, job, h, script).world, job, Exec(c, w, job, h, script).answers)
    decreases |script|
  {
    hide Next, Effect, Answer, Facts;
    if Next(c, job, h).Some? {
      var op := Next(c, job, h).value;
      if script == [] {
        UnsentIsNoFact(c, w, job, h, op);
      } else {
        assert Interfere(c, w, script[0].env) == w;
        FactsStand(c, w, job, h, op, script[0]);
        ExecFacts(c, Effect(c, w, op, script[0]), job, h + [Answer(c, w, op, script[0])], script[1..]);
      }
    }
  }

  lemma UnsentIsNoFact(c: Config, w: World, job: Job, h: seq<Reply>, op: Op)
    requires Facts(c, w, job, h) && Next(c, job, h) == Some(op)
    ensures Facts(c, w, job, h + [Failed])
  {
    hide Next;
    var g := h + [Failed];
    forall k | 0 <= k < |g| && Next(c, job, g[..k]).Some? ensures Fact(c, w, Next(c, job, g[..k]).value, g[k]) {
      if k < |h| { assert g[..k] == h[..k]; } else { assert g[..k] == h; }
    }
  }

  // ------------------------------------------------------------ the outcomes

  predicate Held(c: Config, w: World, id: string) { id in w.rows && OursIn(c, w.rows[id]) }

  predicate TornDown(w: World, id: string) { id !in w.pods && id !in w.secrets }

  /** What the job is for; `h` tells which of its ways it went. */
  predicate Outcome(c: Config, w: World, job: Job, h: seq<Reply>)
    requires h != []
  {
    match job
    case Recycle(id) => |h| == 3 ==> id !in w.pods && id in w.secrets && w.secrets[id] == Some(WithPin)
    case CleanUp(id) => id !in w.artifacts && id !in w.secrets
    case Run(action, pod) =>
      match action
      case Claim(id) => Started(c, w, id, h)
      case StartWorker(id) => Started(c, w, id, h)
      case Renew(id) => Held(c, w, id)
      case Suspend(id) => h == [Snapshot(false)] || (TornDown(w, id) && !Held(c, w, id))
      case Terminate(id) => TornDown(w, id) && !Held(c, w, id) && id !in w.artifacts
      case GiveUp(id, _) =>
        if pod.Some? && ColdStarted(pod.value) && h[0] == Secret(true, None) then
          id !in w.pods && id in w.secrets && w.secrets[id] == Some(WithoutPin)
        else TornDown(w, id) && !Held(c, w, id)
      case StartupFailed(id, _) =>
        TornDown(w, id) && (h[0] == Done ==> id !in w.rows && id !in w.artifacts)
      case _ => SubjectOf(action) !in w.pods
  }

  /** The claim, the volume or pin, the token and the pod are there, and the policy objects the session needs. */
  predicate Started(c: Config, w: World, id: string, h: seq<Reply>) {
    && Held(c, w, id) && id in w.artifacts && id in w.secrets && id in w.pods
    && (PolicyPart(h).Some? ==> forall kind <- PolicyPart(h).value.1 :: (id, kind) in w.policies)
  }

  lemma FactAt(c: Config, w: World, job: Job, h: seq<Reply>, k: nat)
    requires Facts(c, w, job, h) && Possible(c, job, h) && k < |h|
    ensures Next(c, job, h[..k]).Some? && Fact(c, w, Next(c, job, h[..k]).value, h[k])
    ensures Fits(Next(c, job, h[..k]).value, h[k])
  {
  }

  lemma CallsMade(c: Config, w: World, job: Job, h: seq<Reply>)
    requires Facts(c, w, job, h) && Possible(c, job, h)
    ensures |h| > 0 ==> Next(c, job, []).Some? && Fact(c, w, Next(c, job, []).value, h[0])
    ensures |h| > 1 ==> Next(c, job, [h[0]]).Some? && Fact(c, w, Next(c, job, [h[0]]).value, h[1])
    ensures |h| > 2 ==> Next(c, job, [h[0], h[1]]).Some? && Fact(c, w, Next(c, job, [h[0], h[1]]).value, h[2])
    ensures |h| > 3 ==> Next(c, job, [h[0], h[1], h[2]]).Some? && Fact(c, w, Next(c, job, [h[0], h[1], h[2]]).value, h[3])
  {
    hide Facts, Possible, Next, Fact, Fits;
    if |h| > 0 { FactAt(c, w, job, h, 0); assert h[..0] == []; }
    if |h| > 1 { FactAt(c, w, job, h, 1); assert h[..1] == [h[0]]; }
    if |h| > 2 { FactAt(c, w, job, h, 2); assert h[..2] == [h[0], h[1]]; }
    if |h| > 3 { FactAt(c, w, job, h, 3); assert h[..3] == [h[0], h[1], h[2]]; }
  }

  lemma SuspendOutcome(c: Config, w: World, job: Job, h: seq<Reply>)
    requires Facts(c, w, job, h) && Possible(c, job, h) && Completed(c, job, h)
    requires job.Run? && job.action.Suspend?
    ensures Outcome(c, w, job, h)
  {
    CallsMade(c, w, job, h);
    hide Facts, Possible;
  }

  lemma TerminateOutcome(c: Config, w: World, job: Job, h: seq<Reply>)
    requires Facts(c, w, job, h) && Possible(c, job, h) && Completed(c, job, h)
    requires job.Run? && job.action.Terminate?
    ensures Outcome(c, w, job, h)
  {
    CallsMade(c, w, job, h);
    hide Facts, Possible;
  }

  lemma GiveUpOutcome(c: Config, w: World, job: Job, h: seq<Reply>)
    requires Facts(c, w, job, h) && Possible(c, job, h) && Completed(c, job, h)
    requires job.Run? && job.action.GiveUp?
    ensures Outcome(c, w, job, h)
  {
    CallsMade(c, w, job, h);
    hide Facts, Possible;
  }

  lemma StartupFailedOutcome(c: Config, w: World, job: Job, h: seq<Reply>)
    requires Facts(c, w, job, h) && Possible(c, job, h) && Completed(c, job, h)
    requires job.Run? && job.action.StartupFailed?
    ensures Outcome(c, w, job, h)
  {
    CallsMade(c, w, job, h);
    hide Facts, Possible;
  }

  lemma RecycleOutcome(c: Config, w: World, job: Job, h: seq<Reply>)
    requires Facts(c, w, job, h) && Possible(c, job, h) && Completed(c, job, h)
    requires job.Recycle? || job.CleanUp?
    ensures Outcome(c, w, job, h)
  {
    CallsMade(c, w, job, h);
    hide Facts, Possible;
  }

  lemma OneCallOutcome(c: Config, w: World, job: Job, h: seq<Reply>)
    requires Facts(c, w, job, h) && Possible(c, job, h) && Completed(c, job, h)
    requires job.Run?
    requires job.action.Renew? || job.action.ReplaceSucceededPod? || job.action.ReplaceDriftedPod? || job.action.DeleteOrphanPod?
    ensures Outcome(c, w, job, h)
  {
    CallsMade(c, w, job, h);
    hide Facts, Possible;
  }

  /** Where a start job created its pod, and that it had applied every policy object before. */
  lemma PodCreatedAt(c: Config, job: Job, h: seq<Reply>) returns (i: nat)
    requires Starts(job).Some? && Possible(c, job, h) && PodMade(h)
    ensures 4 <= i < |h| && Next(c, job, h[..i]).Some? && (h[i].Created? || h[i] == Refused)
    ensures Next(c, job, h[..i]).value.CreatePod? && Next(c, job, h[..i]).value.id == Starts(job).value
    ensures PolicyPart(h[..i]).Some? && i == PolicyPart(h[..i]).value.0 + |PolicyPart(h[..i]).value.1|
  {
    i :| 4 <= i < |h| && (h[i].Created? || h[i] == Refused);
    var id, op := Starts(job).value, Next(c, job, h[..i]).value;
    assert Fits(op, h[i]);
    LateStartCall(c, id, h[..i], op);
    PolicyCall(c, id, h[..i], op);
  }

  lemma SamePolicyPart(h: seq<Reply>, g: seq<Reply>)
    requires g <= h && PolicyPart(g).Some?
    ensures PolicyPart(h) == PolicyPart(g)
  {
    assert forall k :: 0 <= k < |g| ==> h[k] == g[k];
  }

  /** Every policy object was applied before the pod was created. */
  lemma PolicyApplied(c: Config, w: World, job: Job, h: seq<Reply>, i: nat, j: nat)
    requires Starts(job).Some? && Facts(c, w, job, h) && Possible(c, job, h)
    requires 4 <= i < |h| && PolicyPart(h[..i]).Some?
    requires i == PolicyPart(h[..i]).value.0 + |PolicyPart(h[..i]).value.1| && j < |PolicyPart(h[..i]).value.1|
    ensures (Starts(job).value, PolicyPart(h[..i]).value.1[j]) in w.policies
  {
    hide Facts, Possible;
    var id := Starts(job).value;
    var (from, kinds) := PolicyPart(h[..i]).value;
    var k := from + j;
    FactAt(c, w, job, h, k);
    FactAt(c, w, job, h, k + 1);
    EarlyPolicyPart(h[..i], h[..k]);
    EarlyPolicyPart(h[..i], h[..k + 1]);
    PolicyStep(c, job, h[..k], h[k]);
    assert h[..k] + [h[k]] == h[..k + 1];
  }

  lemma EarlyPolicyPart(h: seq<Reply>, g: seq<Reply>)
    requires PolicyPart(h).Some? && g <= h && |g| >= PolicyPart(h).value.0
    ensures PolicyPart(g) == PolicyPart(h)
  {
    assert forall k :: 0 <= k < |g| ==> h[k] == g[k];
  }

  /** Before the pod, the next call applies the next object, and only an answered one is followed by another call. */
  lemma PolicyStep(c: Config, job: Job, g: seq<Reply>, r: Reply)
    requires Starts(job).Some? && PolicyPart(g).Some? && Next(c, job, g).Some? && Next(c, job, g + [r]).Some?
    requires PolicyPart(g).value.0 <= |g| < PolicyPart(g).value.0 + |PolicyPart(g).value.1|
    requires Fits(Next(c, job, g).value, r)
    ensures var (from, kinds) := PolicyPart(g).value;
            Next(c, job, g).value == ApplyPolicy(Starts(job).value, kinds[|g| - from], Pool) && r == Done
  {
    var h := g + [r];
    assert forall k :: 0 <= k < |g| ==> h[k] == g[k];
  }

  lemma StartOutcome(c: Config, w: World, job: Job, h: seq<Reply>)
    requires Facts(c, w, job, h) && Possible(c, job, h) && Completed(c, job, h) && Starts(job).Some?
    ensures Outcome(c, w, job, h)
  {
    StartCompletedMakesPod(c, job, h);
    CallsMade(c, w, job, h);
    var i := PodCreatedAt(c, job, h);
    FactAt(c, w, job, h, i);
    SamePolicyPart(h, h[..i]);
    forall kind | kind in PolicyPart(h).value.1 ensures (Starts(job).value, kind) in w.policies {
      var j :| 0 <= j < |PolicyPart(h).value.1| && PolicyPart(h).value.1[j] == kind;
      PolicyApplied(c, w, job, h, i, j);
    }
    hide Facts, Possible;
    StartAnswers(c, job, h);
  }

  lemma StartAnswers(c: Config, job: Job, h: seq<Reply>)
    requires Starts(job).Some? && |h| > 4 && Next(c, job, [h[0], h[1], h[2]]).Some? && h[0].Granted?
    requires Possible(c, job, h)
    ensures h[1].Prepared? && h[3] == Done
    ensures Next(c, job, []) == Some(ClaimRow(Starts(job).value)) && Next(c, job, [h[0]]) == Some(PrepareState(Starts(job).value))
    ensures Next(c, job, [h[0], h[1], h[2]]) == Some(ApplySecret(Starts(job).value))
  {
    assert Next(c, job, h[..4]).Some?;
    assert h[..4] == [h[0], h[1], h[2], h[3]];
  }

  /**
   A completed job did what it is for: a started session is held, with its
   state, token, pod and policy in place; a suspended, given-up or terminated
   one is let go and its pod and token are gone, and its artifacts too where the
   session is over; an acknowledged startup failure leaves nothing behind.
   */
  lemma CompletedMeansDone(c: Config, w: World, job: Job, script: seq<Tick>)
    requires Alone(script) && Completed(c, job, Exec(c, w, job, [], script).answers)
    ensures Outcome(c, Exec(c, w, job, [], script).world, job, Exec(c, w, job, [], script).answers)
  {
    hide Exec, Next, Completed, Outcome;
    var end := Exec(c, w, job, [], script);
    ExecFacts(c, w, job, [], script);
    ExecAnswersPossible(c, w, job, [], script);
    if Starts(job).Some? { StartOutcome(c, end.world, job, end.answers); }
    else if !job.Run? { RecycleOutcome(c, end.world, job, end.answers); }
    else {
      match job.action
      case Suspend(_) => SuspendOutcome(c, end.world, job, end.answers);
      case Terminate(_) => TerminateOutcome(c, end.world, job, end.answers);
      case GiveUp(_, _) => GiveUpOutcome(c, end.world, job, end.answers);
      case StartupFailed(_, _) => StartupFailedOutcome(c, end.world, job, end.answers);
      case _ => OneCallOutcome(c, end.world, job, end.answers);
    }
  }
}
