/**
 What the executor does for each action (src/controller/reconcile.rs), as the
 next call given the answers so far. A job may be cut short after any call: by
 an error, a lost answer or the end of the process.
 */
module Jobs {
  import opened Basics
  import opened Pods
  import opened Planner
  import opened Cluster

  /** An action with the pod the pass knows for its session, the cold-start recycle, and the cleanup of a vanished session. */
  datatype Job =
    | Run(action: Action, pod: Option<Pod>)
    | Recycle(id: string)
    | CleanUp(id: string)

  predicate Deleted(r: Reply) { r == Done || r == Gone }

  predicate Released(r: Reply) { r == Done || r == Refused || r == Gone }

  predicate Token(r: Reply) { r.Granted? && r.gateway }

  /** The pod `start_worker` builds; an unpinned retry starts without the provider's annotations. */
  function Built(c: Config, session: Session, prepared: Option<string>, secret: Reply, kinds: seq<PolicyKind>): Pod {
    var pin := if secret == Secret(true, Some(WithoutPin)) then None else prepared;
    Pod(session.id, 0, None, false, kinds, pin,
        WithWorker(c.template, c.container, EffectiveImage(session.spec, c.desiredImage, c.buildImage)), None)
  }

  predicate CanBuild(c: Config, session: Session) { session.spec.imageBuild ==> c.canBuildImages }

  /** After the secret is applied: the policy, owned by the pool, the pod, the policy again, owned by the pod. */
  function NextForPod(c: Config, id: string, h: seq<Reply>, from: nat, kinds: seq<PolicyKind>): Option<Op>
    requires from >= 4 && from <= |h| && h[0].Granted? && h[1].Prepared?
  {
    var n, i := |kinds|, |h| - from;
    if !CanBuild(c, h[0].session) || (n > 0 && !c.staticUrlReadable) then None
    else if i > 0 && !(h[|h| - 1] == Done || h[|h| - 1].Created?) then None
    else if i < n then Some(ApplyPolicy(id, kinds[i], Pool))
    else if i == n then Some(CreatePod(id, Built(c, h[0].session, h[1].pin, h[2], kinds)))
    else if i - n - 1 < n && h[from + n].Created? then
      Some(ApplyPolicy(id, kinds[i - n - 1], OwnedBy(h[from + n].uid)))
    else None
  }

  function NextStart(c: Config, id: string, h: seq<Reply>): Option<Op> {
    if |h| == 0 then Some(ClaimRow(id))
    else if !Token(h[0]) then None
    else if |h| == 1 then Some(PrepareState(id))
    else if !h[1].Prepared? then None
    else if |h| == 2 then Some(ReadSecret(id))
    else if !h[2].Secret? then None
    else if |h| == 3 then Some(ApplySecret(id))
    else if h[3] != Done then None
    else if !h[0].session.restricted then NextForPod(c, id, h, 4, [])
    else if |h| == 4 then Some(FindEnforcer(id))
    else if !h[4].Enforcer? then None
    else NextForPod(c, id, h, 5, h[4].kinds)
  }

  /** The pod and the token secret, from the answer at `from` on. */
  function NextTeardown(id: string, h: seq<Reply>, from: nat): Option<Op>
    requires from <= |h|
  {
    if |h| == from then Some(DeletePod(id))
    else if |h| == from + 1 && Deleted(h[from]) then Some(DeleteSecret(id))
    else None
  }

  function NextSuspend(id: string, held: bool, h: seq<Reply>): Option<Op> {
    var from := if held then 1 else 0;
    if |h| < from then Some(TakeSnapshot(id))
    else if held && h[0] != Snapshot(true) then None
    else if |h| < from + 2 then NextTeardown(id, h, from)
    else if |h| == from + 2 && Deleted(h[from]) && Deleted(h[from + 1]) then Some(ReleaseRow(id))
    else None
  }

  function NextTerminate(id: string, h: seq<Reply>): Option<Op> {
    if |h| == 0 then Some(ReleaseRow(id))
    else if !Released(h[0]) then None
    else if |h| < 3 then NextTeardown(id, h, 1)
    else if |h| == 3 && Deleted(h[1]) && Deleted(h[2]) then Some(DropArtifacts(id))
    else None
  }

  /** Give the session back; `from` answers came before. */
  function NextGiveBack(id: string, h: seq<Reply>, from: nat): Option<Op>
    requires from <= |h|
  {
    if |h| == from then Some(ReleaseRow(id))
    else if !Released(h[from]) then None
    else NextTeardown(id, h, from + 1)
  }

  function NextRecycle(id: string, marker: Marker, h: seq<Reply>): Option<Op> {
    if |h| == 0 then Some(ReadSecret(id))
    else if h[0] != Secret(true, None) then None
    else if |h| == 1 then Some(MarkSecret(id, marker))
    else if |h| == 2 && h[1] == Done then Some(DeletePod(id))
    else None
  }

  function NextGiveUp(id: string, cold: bool, h: seq<Reply>): Option<Op> {
    if !cold then NextGiveBack(id, h, 0)
    else if |h| > 0 && h[0].Secret? && h[0] != Secret(true, None) then NextGiveBack(id, h, 1)
    else NextRecycle(id, WithoutPin, h)
  }

  function NextCleanUp(id: string, h: seq<Reply>, from: nat): Option<Op>
    requires from <= |h|
  {
    if |h| == from then Some(DropArtifacts(id))
    else if |h| == from + 1 && h[from] == Done then Some(DeleteSecret(id))
    else None
  }

  function NextStartupFailed(id: string, h: seq<Reply>): Option<Op> {
    if |h| == 0 then Some(ReportFailure(id))
    else if h[0] == Done then
      if |h| == 1 then Some(DeletePod(id))
      else if !Deleted(h[1]) then None
      else NextCleanUp(id, h, 2)
    else if h[0] == Refused then NextTeardown(id, h, 1)
    else None
  }

  function Next(c: Config, job: Job, h: seq<Reply>): Option<Op> {
    match job
    case Recycle(id) => NextRecycle(id, WithPin, h)
    case CleanUp(id) => NextCleanUp(id, h, 0)
    case Run(action, pod) =>
      match action
      case Claim(id) => NextStart(c, id, h)
      case StartWorker(id) => NextStart(c, id, h)
      case Renew(id) => if |h| == 0 then Some(ClaimRow(id)) else None
      case Suspend(id) => NextSuspend(id, pod.Some?, h)
      case Terminate(id) => NextTerminate(id, h)
      case GiveUp(id, _) => NextGiveUp(id, pod.Some? && ColdStarted(pod.value), h)
      case StartupFailed(id, _) => NextStartupFailed(id, h)
      case ReplaceSucceededPod(id) => if |h| == 0 then Some(DeletePod(id)) else None
      case ReplaceDriftedPod(id) => if |h| == 0 then Some(DeletePod(id)) else None
      case DeleteOrphanPod(name) => if |h| == 0 then Some(DeletePod(name)) else None
  }

  /** The session, or for an orphan the pod name, a job is about. */
  function Subject(job: Job): string {
    match job
    case Run(action, _) => if action.DeleteOrphanPod? then action.podName else action.id
    case Recycle(id) => id
    case CleanUp(id) => id
  }

  /** Where an execution ends: the world, the answers received, the calls made and what is left of the script. */
  datatype End = End(world: World, answers: seq<Reply>, calls: seq<Op>, rest: seq<Tick>)

  /** A call past the end of the script is one the process did not live to make. */
  function Exec(c: Config, w: World, job: Job, h: seq<Reply>, script: seq<Tick>): End
    decreases |script|
  {
    match Next(c, job, h)
    case None => End(w, h, [], script)
    case Some(op) =>
      if script == [] then End(w, h + [Failed], [], [])
      else
        var w1 := Interfere(c, w, script[0].env);
        var end := Exec(c, Effect(c, w1, op, script[0]), job, h + [Answer(c, w1, op, script[0])], script[1..]);
        end.(calls := [op] + end.calls)
  }

  /** The answers a call can get. */
  predicate Fits(op: Op, r: Reply) {
    r == Failed ||
    match op
    case ClaimRow(_) => r.Granted? || r == Refused || r == Gone
    case ReleaseRow(_) => r == Done || r == Refused || r == Gone
    case ReportFailure(_) => r == Done || r == Refused || r == Gone
    case PrepareState(_) => r.Prepared?
    case ReadSecret(_) => r.Secret?
    case FindEnforcer(_) => r.Enforcer?
    case CreatePod(_, _) => r == Refused || r.Created?
    case TakeSnapshot(_) => r.Snapshot?
    case MarkSecret(_, _) => r == Done || r == Gone
    case DeleteSecret(_) => r == Done || r == Gone
    case DeletePod(_) => r == Done || r == Gone
    case _ => r == Done
  }

  /** Answers that a job can have received: each to a call it made, and of its kind. */
  predicate Possible(c: Config, job: Job, h: seq<Reply>) {
    forall k :: 0 <= k < |h| ==> var call := Next(c, job, h[..k]); call.Some? && Fits(call.value, h[k])
  }

  lemma PossibleGrows(c: Config, job: Job, h: seq<Reply>, r: Reply)
    requires Possible(c, job, h) && Next(c, job, h).Some? && Fits(Next(c, job, h).value, r)
    ensures Possible(c, job, h + [r])
  {
    hide Next, Fits;
    var g := h + [r];
    forall k | 0 <= k < |g| ensures var call := Next(c, job, g[..k]); call.Some? && Fits(call.value, g[k]) {
      if k < |h| { assert g[..k] == h[..k]; } else { assert g[..k] == h; }
    }
  }

  lemma {:induction false} ExecAnswersPossible(c: Config, w: World, job: Job, h: seq<Reply>, script: seq<Tick>)
    requires Possible(c, job, h)
    ensures Possible(c, job, Exec(c, w, job, h, script).answers)
    decreases |script|
  {
    hide Next, Effect, Possible;
    if Next(c, job, h).Some? {
      var op := Next(c, job, h).value;
      if script == [] {
        PossibleGrows(c, job, h, Failed);
      } else {
        var found := Interfere(c, w, script[0].env);
        var r := Answer(c, found, op, script[0]);
        AnswerFits(c, found, op, script[0]);
        PossibleGrows(c, job, h, r);
        ExecAnswersPossible(c, Effect(c, found, op, script[0]), job, h + [r], script[1..]);
      }
    }
  }

  lemma AnswerFits(c: Config, w: World, op: Op, t: Tick)
    ensures Fits(op, Answer(c, w, op, t))
  {
  }

  /** One call of an execution that nothing interferes with. */
  lemma Undisturbed(c: Config, w: World, job: Job, h: seq<Reply>, op: Op, t: Tick, rest: seq<Tick>) returns (after: World)
    requires t.env == [] && Next(c, job, h) == Some(op)
    ensures after == Effect(c, w, op, t)
    ensures var end := Exec(c, after, job, h + [Answer(c, w, op, t)], rest);
            Exec(c, w, job, h, [t] + rest) == end.(calls := [op] + end.calls)
  {
    after := Effect(c, w, op, t);
    assert ([t] + rest)[1..] == rest;
  }

  /** Whether the answers complete the job: every call was made and none of them failed it. */
  predicate Completed(c: Config, job: Job, h: seq<Reply>) {
    Next(c, job, h).None? && |h| > 0 &&
    var last := h[|h| - 1];
    match job
    case Recycle(_) => (|h| == 1 && last.Secret?) || (|h| == 3 && Deleted(last))
    case CleanUp(_) => |h| == 2 && Deleted(last)
    case Run(action, pod) =>
      match action
      case Claim(_) => StartCompleted(c, h)
      case StartWorker(_) => StartCompleted(c, h)
      case Renew(_) => last.Granted?
      case Suspend(_) => h == [Snapshot(false)] || (|h| == (if pod.Some? then 4 else 3) && Released(last))
      case Terminate(_) => |h| == 4 && last == Done
      case GiveUp(_, _) => |h| >= 3 && Deleted(last)
      case StartupFailed(_, _) => |h| == (if h[0] == Done then 4 else 3) && Deleted(last)
      case _ => Deleted(last)
  }

  predicate StartCompleted(c: Config, h: seq<Reply>) {
    |h| > 4 && Token(h[0]) && CanBuild(c, h[0].session) && (h[|h| - 1] == Done || h[|h| - 1].Created? || h[|h| - 1] == Refused)
  }

  /** Ok(()), the conflict of a lost claim race, or any other error. */
  datatype Verdict = Fine | LostRace | Broken

  function VerdictOf(c: Config, job: Job, h: seq<Reply>): Verdict {
    if Completed(c, job, h) then Fine
    else if h == [Refused] && job.Run? && AsksQueue(job.action) then LostRace
    else Broken
  }

  /** The actions whose first call is a claim. */
  predicate AsksQueue(a: Action) { a.Claim? || a.StartWorker? || a.Renew? }

  /** The pod the server returned for the create call of a start job, if it was made and answered. */
  function StartedPod(c: Config, id: string, h: seq<Reply>): Option<Pod> {
    if |h| < 5 || !h[0].Granted? || !h[1].Prepared? then None
    else if !h[0].session.restricted then
      if h[4].Created? then Some(Built(c, h[0].session, h[1].pin, h[2], []).(name := id, uid := h[4].uid)) else None
    else if !h[4].Enforcer? then None
    else
      var n := |h[4].kinds|;
      if |h| > 5 + n && h[5 + n].Created? then
        Some(Built(c, h[0].session, h[1].pin, h[2], h[4].kinds).(name := id, uid := h[5 + n].uid))
      else None
  }

  /** Whether the job's answers took its session's pod out of the pass's map. */
  predicate Forgets(job: Job, h: seq<Reply>) {
    match job
    case CleanUp(_) => false
    case Recycle(_) => |h| == 3 && Deleted(h[2])
    case Run(action, pod) =>
      match action
      case Suspend(_) =>
        var from := if pod.Some? then 1 else 0;
        |h| >= from + 2 && Deleted(h[from]) && Deleted(h[from + 1])
      case Terminate(_) => |h| >= 3 && Deleted(h[1]) && Deleted(h[2])
      case GiveUp(_, _) =>
        if pod.Some? && ColdStarted(pod.value) then
          if |h| > 0 && h[0] == Secret(true, None) then |h| == 3 && Deleted(h[2])
          else |h| == 4 && Deleted(h[3])
        else |h| == 3 && Deleted(h[2])
      case StartupFailed(_, _) =>
        |h| >= 2 && Deleted(h[1]) && (h[0] == Done || (|h| == 3 && Deleted(h[2])))
      case ReplaceDriftedPod(_) => |h| == 1 && Deleted(h[0])
      case _ => false
  }

  function PodsAfter(c: Config, pods: map<string, Pod>, job: Job, h: seq<Reply>): map<string, Pod> {
    if job.Run? && (job.action.Claim? || job.action.StartWorker?) then
      var started := StartedPod(c, job.action.id, h);
      if started.Some? then pods[job.action.id := started.value] else pods
    else if Forgets(job, h) then pods - {Subject(job)}
    else pods
  }

  /** A snapshot in progress, or a pod just recycled, brings the next pass forward. */
  predicate Hurries(job: Job, h: seq<Reply>) {
    match job
    case CleanUp(_) => false
    case Recycle(_) => |h| == 3 && Deleted(h[2])
    case Run(Suspend(_), _) => h == [Snapshot(false)]
    case Run(GiveUp(_, _), pod) =>
      pod.Some? && ColdStarted(pod.value) && |h| == 3 && h[0] == Secret(true, None) && Deleted(h[2])
    case _ => false
  }

  /** The pod the pass knows for an action's session. */
  function PodOf(pods: map<string, Pod>, action: Action): Option<Pod> {
    if !action.DeleteOrphanPod? && action.id in pods then Some(pods[action.id]) else None
  }
}
