/** At most one recycle per claim cycle, and what a marked secret leads to. */
module Retries {
  import opened Basics
  import opened Pods
  import opened Planner
  import opened Cluster
  import opened Jobs
  import opened Lifecycle

  /** Marked at most once since the secret was last deleted, and then the marker is still there. */
  predicate MarkInv(m: Machine, id: string) {
    Marks(m.marks, id) <= 1 && (Marks(m.marks, id) == 1 ==> id in m.w.secrets && m.w.secrets[id].Some?)
  }

  /** The session whose secret a job may mark. */
  function Recycles(job: Job): Option<string> {
    match job
    case Recycle(id) => Some(id)
    case Run(GiveUp(id, _), _) => Some(id)
    case _ => None
  }

  /** What a job read from the secret is still so. */
  predicate ReadInv(m: Machine) {
    && (Recycles(m.job).Some? && |m.h| == 1 && m.h[0] == Secret(true, None) ==>
          var id := Recycles(m.job).value; id in m.w.secrets ==> m.w.secrets[id] == None)
    && (Starts(m.job).Some? && |m.h| >= 3 && m.h[2].Secret? ==>
          var id := Starts(m.job).value;
          id in m.w.secrets && m.w.secrets[id].Some? ==> m.h[2] == Secret(true, m.w.secrets[id]))
  }

  ghost predicate RetryInv(m: Machine) { ReadInv(m) && forall id :: MarkInv(m, id) }

  /** Secrets are only marked right after they were read unmarked, in a job that may recycle. */
  lemma MarkFollowsRead(c: Config, job: Job, h: seq<Reply>, op: Op)
    requires Next(c, job, h) == Some(op) && op.MarkSecret?
    ensures Recycles(job) == Some(op.id) && |h| == 1 && h[0] == Secret(true, None)
  {
  }

  lemma StartCallsOnSecrets(c: Config, id: string, h: seq<Reply>, op: Op)
    requires NextStart(c, id, h) == Some(op)
    ensures !op.MarkSecret? && !op.DeleteSecret?
    ensures |h| == 2 ==> op == ReadSecret(id)
    ensures |h| != 3 ==> !op.ApplySecret?
  {
  }

  lemma RecycleCalls(c: Config, job: Job, h: seq<Reply>, op: Op)
    requires Recycles(job).Some? && Next(c, job, h) == Some(op)
    ensures h == [] ==> op == ReadSecret(Recycles(job).value) || op == ReleaseRow(Recycles(job).value)
    ensures Starts(job).None?
  {
  }

  /** The call of a recycling job, and of any other. */
  lemma StepKeepsRead(c: Config, m: Machine, t: Tick)
    requires ReadInv(m) && Enabled(c, m, Call(t))
    ensures ReadInv(Apply(c, m, Call(t)))
  {
    hide Next, Interfere;
    var op := Next(c, m.job, m.h).value;
    InterfereKeepsHandle(c, m.w, t.env);
    if Recycles(m.job).Some? {
      RecycleCalls(c, m.job, m.h, op);
    } else if Starts(m.job).Some? {
      StartIsNext(c, m.job, m.h);
      StartCallsOnSecrets(c, Starts(m.job).value, m.h, op);
    }
  }

  lemma StartIsNext(c: Config, job: Job, h: seq<Reply>)
    requires Starts(job).Some?
    ensures Next(c, job, h) == NextStart(c, Starts(job).value, h)
  {
  }

  lemma StepKeepsMarks(c: Config, m: Machine, t: Tick, id: string)
    requires ReadInv(m) && MarkInv(m, id) && Enabled(c, m, Call(t))
    ensures MarkInv(Apply(c, m, Call(t)), id)
  {
    var op := Next(c, m.job, m.h).value;
    InterfereKeepsHandle(c, m.w, t.env);
    if op.MarkSecret? { MarkFollowsRead(c, m.job, m.h, op); }
  }

  /**
   Between two deletions of a session's token secret, it is marked for a
   recycle at most once, whatever fails in between.
   */
  lemma {:induction false} AtMostOneRecycle(c: Config, run: seq<Machine>)
    requires IsRun(c, run) && Fresh(run[0])
    ensures RetryInv(run[|run| - 1])
  {
    if |run| > 1 {
      var shorter := run[..|run| - 1];
      forall i | 0 <= i < |shorter| - 1 ensures IsStep(c, shorter[i], shorter[i + 1]) {
        assert IsStep(c, run[i], run[i + 1]);
      }
      AtMostOneRecycle(c, shorter);
      var m, n := run[|run| - 2], run[|run| - 1];
      assert IsStep(c, m, n);
      var s :| Enabled(c, m, s) && n == Apply(c, m, s);
      if s.Call? {
        StepKeepsRead(c, m, s.tick);
        forall id ensures MarkInv(n, id) { StepKeepsMarks(c, m, s.tick, id); }
      } else {
        forall id ensures MarkInv(n, id) { assert MarkInv(m, id); }
      }
    }
  }

  /**
   A recycle, be it the pass's own or that of a give-up, deletes the pod only
   once its mark is on the secret; a give-up that deletes it otherwise has had
   its release answered.
   */
  lemma RecycleMarksFirst(c: Config, job: Job, id: string, h: seq<Reply>)
    requires Recycles(job) == Some(id) && Next(c, job, h) == Some(DeletePod(id))
    ensures || (&& h == [Secret(true, None), Done]
                && Next(c, job, h[..1]) == Some(MarkSecret(id, if job.Recycle? then WithPin else WithoutPin)))
            || (&& job.Run? && h != [] && Released(h[|h| - 1])
                && Next(c, job, h[..|h| - 1]) == Some(ReleaseRow(id)))
  {
    var n := |h| - 1;
    assert n >= 0 && forall k :: 0 <= k < n ==> h[..n][k] == h[k];
  }

  /** The replacement of an unpinned retry carries no pin. */
  lemma UnpinnedRetryStartsUnpinned(c: Config, run: seq<Machine>, id: string, built: Pod)
    requires IsRun(c, run) && Fresh(run[0])
    requires var m := run[|run| - 1];
      && Next(c, m.job, m.h) == Some(CreatePod(id, built))
      && id in m.w.secrets && m.w.secrets[id] == Some(WithoutPin)
    ensures built.pin == None && !ColdStarted(built)
  {
    AtMostOneRecycle(c, run);
    var m := run[|run| - 1];
    OnlyStartsTouchPolicies(c, m.job, m.h, CreatePod(id, built));
    PolicyCall(c, Starts(m.job).value, m.h, CreatePod(id, built));
    assert |m.h| >= 3 && m.h[2].Secret?;
  }

  /** Once the secret is marked, or gone, giving up goes straight to the release. */
  lemma MarkedGiveUpReleases(c: Config, w: World, id: string, restarts: nat, pod: Option<Pod>, t: Tick)
    requires id in w.secrets ==> w.secrets[id].Some?
    ensures var job := Run(GiveUp(id, restarts), pod);
            if pod.Some? && ColdStarted(pod.value) then
              && Next(c, job, []) == Some(ReadSecret(id))
              && (t.fault == Works ==> Next(c, job, [Answer(c, w, ReadSecret(id), t)]) == Some(ReleaseRow(id)))
            else Next(c, job, []) == Some(ReleaseRow(id))
  {
  }
}
