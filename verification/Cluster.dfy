/**
 What a reconcile pass acts on: the queue server (after tests/mock_server/mod.rs)
 and the objects in the cluster, with the effect and the answer of every call.

 Objects of a session are keyed by its ID: object names are taken to be free of
 collisions. Between any two calls the rest of the world may act (`Env`).
 */
module Cluster {
  import opened Basics
  import opened Pods
  import opened Planner

  datatype Marker = WithPin | WithoutPin

  datatype Owner = Pool | OwnedBy(uid: nat)

  /**
   Live queue rows, worker pods, token secrets with their restore-retried
   marker, sessions with snapshot artifacts, and network policy objects.
   */
  datatype World = World(rows: map<string, Session>, pods: map<string, Pod>,
                         secrets: map<string, Option<Marker>>, artifacts: set<string>,
                         policies: map<(string, PolicyKind), Owner>, nextUid: nat)

  /** The pool's and operator's settings. */
  datatype Config = Config(us: string, container: string, template: seq<Container>,
                           desiredImage: string, buildImage: Option<string>,
                           canBuildImages: bool, staticUrlReadable: bool)

  datatype Op =
    | ClaimRow(id: string)
    | ReleaseRow(id: string)
    | ReportFailure(id: string)
    | PrepareState(id: string)
    | ReadSecret(id: string)
    | ApplySecret(id: string)
    | MarkSecret(id: string, marker: Marker)
    | DeleteSecret(id: string)
    | FindEnforcer(id: string)
    | ApplyPolicy(id: string, kind: PolicyKind, owner: Owner)
    | CreatePod(id: string, built: Pod)
    | DeletePod(id: string)
    | TakeSnapshot(id: string)
    | DropArtifacts(id: string)

  datatype Reply =
    | Done
    | Refused                                        // 409
    | Gone                                           // 404
    | Failed                                         // any other error, or the answer was lost
    | Granted(session: Session, gateway: bool)
    | Prepared(pin: Option<string>)
    | Secret(found: bool, marker: Option<Marker>)
    | Enforcer(kinds: seq<PolicyKind>)               // empty: nothing to enforce through
    | Created(uid: nat)
    | Snapshot(ready: bool)

  datatype Fault = Works | AnswerLost | Unsent

  /** How the i-th of a few calls goes; one past the end is never made. */
  function FaultOf(faults: seq<Fault>, i: nat): Fault { if i < |faults| then faults[i] else Unsent }

  datatype Env =
    | SetStatus(id: string, status: SessionStatus)   // never wakes a claimed session of ours
    | Revive(id: string, status: SessionStatus)
    | Enqueue(session: Session)
    | Tombstone(id: string)
    | Expire(id: string)
    | OtherClaims(id: string, who: string)
    | OtherReleases(id: string)
    | PodChanges(id: string, report: Option<PodStatus>)
    | PodDeleting(id: string)
    | PodGone(id: string)
    | Collect(id: string, kind: PolicyKind)
    | ArtifactsExpire(id: string)

  /**
   What surrounds one call: what happens before it, whether it gets through,
   and the parts of the answer that the world decides.
   */
  datatype Tick = Tick(env: seq<Env>, fault: Fault, deadline: int, expired: bool, gateway: bool,
                       pin: Option<string>, kinds: seq<PolicyKind>, lingers: bool, ready: bool,
                       knowsReport: bool)

  predicate OursIn(c: Config, s: Session) { s.phase == Claimed && s.acceptor == Some(c.us) }

  function Freed(s: Session): Session { s.(phase := Pending, acceptor := None, deadline := None) }

  function EnvStep(c: Config, w: World, e: Env): World {
    match e
    case SetStatus(id, status) =>
      if id in w.rows && !(OursIn(c, w.rows[id]) && Terminal(w.rows[id]) && !EndStatus(status))
      then w.(rows := w.rows[id := w.rows[id].(status := status)]) else w
    case Revive(id, status) =>
      if id in w.rows then w.(rows := w.rows[id := w.rows[id].(status := status)]) else w
    case Enqueue(s) =>
      if s.id in w.rows || s.phase != Pending then w else w.(rows := w.rows[s.id := s])
    case Tombstone(id) => w.(rows := w.rows - {id})
    case Expire(id) =>
      if id in w.rows && w.rows[id].phase == Claimed && w.rows[id].status != Running
      then w.(rows := w.rows[id := Freed(w.rows[id])]) else w
    case OtherClaims(id, who) =>
      if id in w.rows && w.rows[id].phase == Pending && who != c.us
      then w.(rows := w.rows[id := w.rows[id].(phase := Claimed, acceptor := Some(who))]) else w
    case OtherReleases(id) =>
      if id in w.rows && w.rows[id].phase == Claimed && w.rows[id].acceptor != Some(c.us)
      then w.(rows := w.rows[id := Freed(w.rows[id])]) else w
    case PodChanges(id, report) =>
      if id in w.pods then w.(pods := w.pods[id := w.pods[id].(status := report)]) else w
    case PodDeleting(id) =>
      if id in w.pods then w.(pods := w.pods[id := w.pods[id].(deleting := true)]) else w
    case PodGone(id) => w.(pods := w.pods - {id})
    case Collect(id, kind) =>
      if (id, kind) in w.policies && w.policies[(id, kind)].OwnedBy?
         && forall p <- w.pods :: w.pods[p].uid != w.policies[(id, kind)].uid
      then w.(policies := w.policies - {(id, kind)}) else w
    case ArtifactsExpire(id) => w.(artifacts := w.artifacts - {id})
  }

  function Interfere(c: Config, w: World, env: seq<Env>): World {
    if env == [] then w else EnvStep(c, Interfere(c, w, env[..|env| - 1]), env[|env| - 1])
  }

  /** The server grants a claim on a free row, a renewal to its holder, and an expired claim unless the session runs. */
  predicate Grants(c: Config, w: World, id: string, t: Tick)
    requires id in w.rows
  {
    var row := w.rows[id];
    || row.phase == Pending
    || OursIn(c, row)
    || (row.phase == Claimed && t.expired && row.status != Running)
  }

  function Effect(c: Config, w: World, op: Op, t: Tick): World {
    if t.fault == Unsent then w else
    match op
    case ClaimRow(id) =>
      if id in w.rows && Grants(c, w, id, t)
      then w.(rows := w.rows[id := w.rows[id].(phase := Claimed, acceptor := Some(c.us), deadline := Some(t.deadline))])
      else w
    case ReleaseRow(id) =>
      if id in w.rows && OursIn(c, w.rows[id]) then w.(rows := w.rows[id := Freed(w.rows[id])]) else w
    case ReportFailure(id) =>
      if t.knowsReport && id in w.rows && OursIn(c, w.rows[id]) then w.(rows := w.rows - {id}) else w
    case PrepareState(id) => w.(artifacts := w.artifacts + {id})
    case ReadSecret(id) => w
    case ApplySecret(id) => if id in w.secrets then w else w.(secrets := w.secrets[id := None])
    case MarkSecret(id, marker) => if id in w.secrets then w.(secrets := w.secrets[id := Some(marker)]) else w
    case DeleteSecret(id) => w.(secrets := w.secrets - {id})
    case FindEnforcer(id) => w
    case ApplyPolicy(id, kind, owner) => w.(policies := w.policies[(id, kind) := owner])
    case CreatePod(id, built) =>
      if id in w.pods then w
      else w.(pods := w.pods[id := built.(name := id, uid := w.nextUid)], nextUid := w.nextUid + 1)
    case DeletePod(id) =>
      if id !in w.pods then w
      else if t.lingers then w.(pods := w.pods[id := w.pods[id].(deleting := true)])
      else w.(pods := w.pods - {id})
    case TakeSnapshot(id) => w.(artifacts := w.artifacts + {id})
    case DropArtifacts(id) => w.(artifacts := w.artifacts - {id})
  }

  function Answer(c: Config, w: World, op: Op, t: Tick): Reply {
    if t.fault != Works then Failed else
    match op
    case ClaimRow(id) =>
      if id !in w.rows then Gone else if !Grants(c, w, id, t) then Refused
      else Granted(Effect(c, w, op, t).rows[id], t.gateway)
    case ReleaseRow(id) =>
      if id !in w.rows then Gone else if OursIn(c, w.rows[id]) then Done else Refused
    case ReportFailure(id) =>
      if !t.knowsReport || id !in w.rows then Gone else if OursIn(c, w.rows[id]) then Done else Refused
    case PrepareState(id) => Prepared(t.pin)
    case ReadSecret(id) => if id in w.secrets then Secret(true, w.secrets[id]) else Secret(false, None)
    case ApplySecret(id) => Done
    case MarkSecret(id, _) => if id in w.secrets then Done else Gone
    case DeleteSecret(id) => if id in w.secrets then Done else Gone
    case FindEnforcer(id) => Enforcer(t.kinds)
    case ApplyPolicy(_, _, _) => Done
    case CreatePod(id, _) => if id in w.pods then Refused else Created(w.nextUid)
    case DeletePod(id) => if id in w.pods then Done else Gone
    case TakeSnapshot(id) => Snapshot(t.ready)
    case DropArtifacts(id) => Done
  }

  lemma EnvKeepsHandle(c: Config, w: World, e: Env)
    ensures EnvStep(c, w, e).secrets == w.secrets && EnvStep(c, w, e).artifacts <= w.artifacts
  {
  }

  /** Nothing but the operator touches the token secrets, and nothing else makes artifacts. */
  lemma {:induction false} InterfereKeepsHandle(c: Config, w: World, env: seq<Env>)
    ensures Interfere(c, w, env).secrets == w.secrets && Interfere(c, w, env).artifacts <= w.artifacts
  {
    if env != [] {
      InterfereKeepsHandle(c, w, env[..|env| - 1]);
      EnvKeepsHandle(c, Interfere(c, w, env[..|env| - 1]), env[|env| - 1]);
    }
  }
}
