/**
 The decision logic of one reconcile pass (src/controller/plan.rs): from the
 listed queue and the pods that exist to the actions to take.
 */
module Planner {
  import opened Basics
  import opened Pods

  datatype Phase = Pending | Claimed | Unknown

  datatype SessionStatus = Waiting | Running | Suspended | Terminated | Unrecognised

  /** `restricted` is the session's `network_policy.enabled`. */
  datatype Session = Session(id: string, createdAt: Option<int>, spec: ImageSpec, restricted: bool, phase: Phase,
                             acceptor: Option<string>, deadline: Option<int>, status: SessionStatus)

  datatype Action =
    | Claim(id: string)
    | StartWorker(id: string)
    | Renew(id: string)
    | Suspend(id: string)
    | Terminate(id: string)
    | GiveUp(id: string, restarts: nat)
    | StartupFailed(id: string, failure: StartupFailure)
    | ReplaceSucceededPod(id: string)
    | ReplaceDriftedPod(id: string)
    | DeleteOrphanPod(podName: string)

  datatype Observed = Observed(sessions: seq<Session>, pods: map<string, Pod>, orphans: seq<string>,
                               acceptor: string, maxConcurrent: nat, restartLimit: nat,
                               startupTimeout: int, renewMargin: int, container: string,
                               desiredImage: string, buildImage: Option<string>, now: int)

  predicate Ours(o: Observed, s: Session) { s.phase == Claimed && s.acceptor == Some(o.acceptor) }

  predicate EndStatus(status: SessionStatus) { status == Terminated || status == Suspended }

  predicate Terminal(s: Session) { EndStatus(s.status) }

  predicate Claimable(s: Session) { s.phase == Pending && !Terminal(s) }

  predicate RenewalDue(o: Observed, s: Session) { s.deadline.None? || s.deadline.value - o.now < o.renewMargin }

  predicate Drifted(o: Observed, s: Session, pod: Pod) {
    CrashLooping(pod)
    && WorkerImage(pod, o.container) != Some(EffectiveImage(s.spec, o.desiredImage, o.buildImage))
  }

  function FailureOf(o: Observed, pod: Pod): Option<StartupFailure> {
    StartupFailureOf(pod, o.container, o.now, o.startupTimeout)
  }

  /** What the pass does about one session of ours whose worker pod exists. */
  function PodActions(o: Observed, s: Session, pod: Pod): seq<Action> {
    if InPhase(pod, "Succeeded") then [ReplaceSucceededPod(s.id)]
    else if FailureOf(o, pod).Some? then
      (if RenewalDue(o, s) then [Renew(s.id)] else []) + [StartupFailed(s.id, FailureOf(o, pod).value)]
    else if RestartCount(pod) > o.restartLimit then [GiveUp(s.id, RestartCount(pod))]
    else if Drifted(o, s, pod) then [ReplaceDriftedPod(s.id)]
    else if RenewalDue(o, s) then [Renew(s.id)]
    else []
  }

  function OwnActions(o: Observed, s: Session): seq<Action> {
    if !Ours(o, s) then []
    else if s.status == Terminated then [Terminate(s.id)]
    else if s.status == Suspended then [Suspend(s.id)]
    else if s.id !in o.pods then [StartWorker(s.id)]
    else PodActions(o, s, o.pods[s.id])
  }

  predicate GivenUp(o: Observed, s: Session) {
    s.id in o.pods && !InPhase(o.pods[s.id], "Succeeded") && FailureOf(o, o.pods[s.id]).None?
    && RestartCount(o.pods[s.id]) > o.restartLimit
  }

  /** The claims that count against the limit: live ones, less those being given up. */
  predicate Active(o: Observed, s: Session) { Ours(o, s) && !Terminal(s) && !GivenUp(o, s) }

  predicate Stale(o: Observed, s: Session) {
    s.phase == Claimed && s.acceptor != Some(o.acceptor) && s.id in o.pods
  }

  function AllOwn(o: Observed, ss: seq<Session>): seq<Action> {
    if ss == [] then [] else AllOwn(o, ss[..|ss| - 1]) + OwnActions(o, ss[|ss| - 1])
  }

  function CountActive(o: Observed, ss: seq<Session>): nat {
    if ss == [] then 0
    else CountActive(o, ss[..|ss| - 1]) + if Active(o, ss[|ss| - 1]) then 1 else 0
  }

  function AllStale(o: Observed, ss: seq<Session>): seq<Action> {
    if ss == [] then []
    else AllStale(o, ss[..|ss| - 1])
         + if Stale(o, ss[|ss| - 1]) then [DeleteOrphanPod(o.pods[ss[|ss| - 1].id].name)] else []
  }

  function ClaimableOf(ss: seq<Session>): seq<Session> {
    if ss == [] then []
    else ClaimableOf(ss[..|ss| - 1]) + if Claimable(ss[|ss| - 1]) then [ss[|ss| - 1]] else []
  }

  // ------------------------------------------------------------ oldest first

  predicate TextLeq(a: string, b: string) {
    if a == "" then true else if b == "" then false
    else a[0] < b[0] || (a[0] == b[0] && TextLeq(a[1..], b[1..]))
  }

  predicate CreatedLess(a: Option<int>, b: Option<int>) {
    b.Some? && (a.None? || a.value < b.value)
  }

  /** By creation time, then by ID; a row without a creation time comes first. */
  predicate Older(a: Session, b: Session) {
    CreatedLess(a.createdAt, b.createdAt) || (a.createdAt == b.createdAt && TextLeq(a.id, b.id))
  }

  lemma {:induction false} TextLeqTotal(a: string, b: string)
    ensures TextLeq(a, b) || TextLeq(b, a)
    ensures TextLeq(a, b) && TextLeq(b, a) ==> a == b
  {
    if a != "" && b != "" {
      TextLeqTotal(a[1..], b[1..]);
      assert a == [a[0]] + a[1..] && b == [b[0]] + b[1..];
    }
  }

  lemma {:induction false} TextLeqTransitive(a: string, b: string, c: string)
    requires TextLeq(a, b) && TextLeq(b, c)
    ensures TextLeq(a, c)
  {
    if a != "" && a[0] == b[0] == c[0] { TextLeqTransitive(a[1..], b[1..], c[1..]); }
  }

  /** As in a dictionary: a prefix first, and otherwise by the first difference. */
  predicate DictionaryLeq(a: string, b: string) {
    a <= b || exists k :: 0 <= k < |a| && k < |b| && a[..k] == b[..k] && a[k] < b[k]
  }

  lemma {:induction false} TextLeqMeans(a: string, b: string)
    ensures TextLeq(a, b) <==> DictionaryLeq(a, b)
  {
    if a != "" && b != "" {
      if a[0] == b[0] {
        TextLeqMeans(a[1..], b[1..]);
        DictionaryAfter(a[0], a[1..], b[1..]);
        assert a == [a[0]] + a[1..] && b == [b[0]] + b[1..];
      } else {
        FirstLettersDiffer(a, b);
      }
    }
  }

  lemma FirstLettersDiffer(a: string, b: string)
    requires a != "" && b != "" && a[0] != b[0]
    ensures DictionaryLeq(a, b) <==> a[0] < b[0]
  {
    assert a[..0] == b[..0];
    assert forall k :: 0 < k < |a| && k < |b| ==> a[..k][0] != b[..k][0];
  }

  lemma DictionaryAfter(c: char, s: string, t: string)
    ensures DictionaryLeq([c] + s, [c] + t) <==> DictionaryLeq(s, t)
  {
    var a, b := [c] + s, [c] + t;
    assert a <= b <==> s <= t by { assert a[1..] == s && b[1..] == t; }
    if k :| 0 <= k < |s| && k < |t| && s[..k] == t[..k] && s[k] < t[k] {
      assert a[..k + 1] == [c] + s[..k] && b[..k + 1] == [c] + t[..k] && a[k + 1] < b[k + 1];
    }
    if k :| 0 <= k < |a| && k < |b| && a[..k] == b[..k] && a[k] < b[k] {
      assert k > 0 && s[..k - 1] == a[..k][1..] && t[..k - 1] == b[..k][1..] && s[k - 1] < t[k - 1];
    }
  }

  /** The order of the queue: unknown times first, then the earlier, then the smaller ID. */
  lemma OlderMeans(a: Session, b: Session)
    ensures Older(a, b) <==>
            || (a.createdAt.None? && b.createdAt.Some?)
            || (a.createdAt.Some? && b.createdAt.Some? && a.createdAt.value < b.createdAt.value)
            || (a.createdAt == b.createdAt && DictionaryLeq(a.id, b.id))
  {
    TextLeqMeans(a.id, b.id);
  }

  lemma OlderTotal(a: Session, b: Session)
    ensures Older(a, b) || Older(b, a)
  {
    TextLeqTotal(a.id, b.id);
  }

  lemma OlderTransitive(a: Session, b: Session, c: Session)
    requires Older(a, b) && Older(b, c)
    ensures Older(a, c)
  {
    if a.createdAt == b.createdAt == c.createdAt { TextLeqTransitive(a.id, b.id, c.id); }
  }

  predicate OldestFirst(ss: seq<Session>) { forall i, j :: 0 <= i < j < |ss| ==> Older(ss[i], ss[j]) }

  /** Where `s` goes in a sorted sequence: after everything not younger. */
  function Place(ss: seq<Session>, s: Session): (k: nat)
    ensures k <= |ss| && (forall i :: 0 <= i < k ==> Older(ss[i], s)) && (k < |ss| ==> !Older(ss[k], s))
  {
    if ss == [] || !Older(ss[0], s) then 0
    else assert forall i :: 1 <= i < |ss| ==> ss[i] == ss[1..][i - 1]; 1 + Place(ss[1..], s)
  }

  function Insert(ss: seq<Session>, s: Session): seq<Session> {
    var k := Place(ss, s); ss[..k] + [s] + ss[k..]
  }

  function Sorted(ss: seq<Session>): seq<Session> {
    if ss == [] then [] else Insert(Sorted(ss[..|ss| - 1]), ss[|ss| - 1])
  }

  lemma InsertKeepsAll(ss: seq<Session>, s: Session)
    ensures multiset(Insert(ss, s)) == multiset(ss) + multiset{s}
  {
    var k := Place(ss, s);
    assert ss == ss[..k] + ss[k..];
  }

  lemma InsertAt(ss: seq<Session>, s: Session, i: nat)
    requires i <= |ss|
    ensures |Insert(ss, s)| == |ss| + 1
    ensures Insert(ss, s)[i] == var k := Place(ss, s); if i < k then ss[i] else if i == k then s else ss[i - 1]
  {
  }

  lemma InsertSorts(ss: seq<Session>, s: Session)
    requires OldestFirst(ss)
    ensures OldestFirst(Insert(ss, s))
  {
    var k, r := Place(ss, s), Insert(ss, s);
    if k < |ss| { OlderTotal(s, ss[k]); }
    forall j | k <= j < |ss| ensures Older(s, ss[j]) {
      if j > k { OlderTransitive(s, ss[k], ss[j]); }
    }
    forall i, j | 0 <= i < j < |r| ensures Older(r[i], r[j]) {
      InsertAt(ss, s, i);
      InsertAt(ss, s, j);
    }
  }

  lemma {:induction false} SortedSorts(ss: seq<Session>)
    ensures OldestFirst(Sorted(ss)) && multiset(Sorted(ss)) == multiset(ss)
  {
    hide Insert, Older, OldestFirst;
    if ss == [] {
      NoneIsSorted();
    } else {
      var shorter, last := ss[..|ss| - 1], ss[|ss| - 1];
      var rest := Sorted(shorter);
      SortedSorts(shorter);
      InsertSorts(rest, last);
      InsertKeepsAll(rest, last);
      assert ss == shorter + [last];
    }
  }

  /** The queue from end to end: every pending session once, no younger one before an older one. */
  lemma SortedIsOldestFirst(ss: seq<Session>)
    ensures multiset(Sorted(ss)) == multiset(ss)
    ensures forall i, j :: 0 <= i < j < |Sorted(ss)| ==>
              var a, b := Sorted(ss)[i], Sorted(ss)[j];
              && (b.createdAt.None? ==> a.createdAt.None?)
              && (a.createdAt.Some? && b.createdAt.Some? ==> a.createdAt.value <= b.createdAt.value)
              && (a.createdAt == b.createdAt ==> DictionaryLeq(a.id, b.id))
  {
    SortedSorts(ss);
    forall i, j | 0 <= i < j < |Sorted(ss)|
      ensures var a, b := Sorted(ss)[i], Sorted(ss)[j];
              && (b.createdAt.None? ==> a.createdAt.None?)
              && (a.createdAt.Some? && b.createdAt.Some? ==> a.createdAt.value <= b.createdAt.value)
              && (a.createdAt == b.createdAt ==> DictionaryLeq(a.id, b.id))
    {
      OlderMeans(Sorted(ss)[i], Sorted(ss)[j]);
    }
  }

  lemma NoneIsSorted()
    ensures OldestFirst([])
  {
  }

  // -------------------------------------------------------------- the plan

  function Slots(o: Observed): nat { Max(o.maxConcurrent - CountActive(o, o.sessions), 0) }

  function Chosen(o: Observed): seq<Session> {
    var queue := Sorted(ClaimableOf(o.sessions));
    queue[..Min(Slots(o), |queue|)]
  }

  function Claims(ss: seq<Session>): (r: seq<Action>)
    ensures |r| == |ss| && forall i :: 0 <= i < |ss| ==> r[i] == Claim(ss[i].id)
  {
    seq(|ss|, i requires 0 <= i < |ss| => Claim(ss[i].id))
  }

  function Orphans(names: seq<string>): (r: seq<Action>)
    ensures |r| == |names| && forall i :: 0 <= i < |names| ==> r[i] == DeleteOrphanPod(names[i])
  {
    seq(|names|, i requires 0 <= i < |names| => DeleteOrphanPod(names[i]))
  }

  function PlanOf(o: Observed): seq<Action> {
    AllOwn(o, o.sessions) + AllStale(o, o.sessions) + Claims(Chosen(o)) + Orphans(o.orphans)
  }

  lemma Extended<T>(s: seq<T>, i: nat)
    requires i < |s|
    ensures s[..i + 1][..i] == s[..i] && s[..i + 1][i] == s[i] && |s[..i + 1]| == i + 1
  {
  }

  method PlanOwn(o: Observed, s: Session) returns (actions: seq<Action>, active: int)
    requires Ours(o, s)
    ensures actions == OwnActions(o, s) && active == if Active(o, s) then 1 else 0
  {
    actions, active := [], 0;
    match s.status
    case Terminated => return [Terminate(s.id)], 0;
    case Suspended => return [Suspend(s.id)], 0;
    case Waiting | Running | Unrecognised =>
    active := active + 1;
    if s.id !in o.pods {
      actions := actions + [StartWorker(s.id)];
    } else if InPhase(o.pods[s.id], "Succeeded") {
      actions := actions + [ReplaceSucceededPod(s.id)];
    } else {
      var pod := o.pods[s.id];
      var restarts := RestartCount(pod);
      var failure := PodStartupFailure(pod, o.container, o.now, o.startupTimeout);
      if failure.Some? {
        if s.deadline.None? || s.deadline.value - o.now < o.renewMargin {
          actions := actions + [Renew(s.id)];
        }
        actions := actions + [StartupFailed(s.id, failure.value)];
      } else if restarts > o.restartLimit {
        actions := actions + [GiveUp(s.id, restarts)];
        active := active - 1;
      } else if CrashLooping(pod)
                && WorkerImage(pod, o.container) != Some(EffectiveImage(s.spec, o.desiredImage, o.buildImage)) {
        actions := actions + [ReplaceDriftedPod(s.id)];
      } else if s.deadline.None? || s.deadline.value - o.now < o.renewMargin {
        actions := actions + [Renew(s.id)];
      }
    }
  }

  method SortOldestFirst(pending: seq<Session>) returns (queue: seq<Session>)
    ensures queue == Sorted(pending)
  {
    queue := [];
    for i := 0 to |pending|
      invariant queue == Sorted(pending[..i])
    {
      var k := 0;
      while k < |queue| && Older(queue[k], pending[i])
        invariant k <= |queue| && forall j :: 0 <= j < k ==> Older(queue[j], pending[i])
      {
        k := k + 1;
      }
      PlaceUnique(queue, pending[i], k);
      Extended(pending, i);
      queue := queue[..k] + [pending[i]] + queue[k..];
    }
    assert pending[..|pending|] == pending;
  }

  lemma PlaceUnique(ss: seq<Session>, s: Session, k: nat)
    requires k <= |ss| && (forall i :: 0 <= i < k ==> Older(ss[i], s)) && (k < |ss| ==> !Older(ss[k], s))
    ensures k == Place(ss, s)
  {
    if Place(ss, s) < k {
      assert false;
    }
  }

  /** The first loop: our own sessions, counting those that hold a slot. */
  method PlanOwnSessions(o: Observed) returns (actions: seq<Action>, active: int)
    ensures actions == AllOwn(o, o.sessions) && active == CountActive(o, o.sessions)
  {
    actions, active := [], 0;
    for i := 0 to |o.sessions|
      invariant actions == AllOwn(o, o.sessions[..i]) && active == CountActive(o, o.sessions[..i])
    {
      Extended(o.sessions, i);
      if Ours(o, o.sessions[i]) {
        var own, counted := PlanOwn(o, o.sessions[i]);
        actions, active := actions + own, active + counted;
      }
    }
    assert o.sessions[..|o.sessions|] == o.sessions;
  }

  method PlanStalePods(o: Observed) returns (actions: seq<Action>)
    ensures actions == AllStale(o, o.sessions)
  {
    actions := [];
    for i := 0 to |o.sessions|
      invariant actions == AllStale(o, o.sessions[..i])
    {
      Extended(o.sessions, i);
      var s := o.sessions[i];
      if s.phase == Claimed && s.acceptor != Some(o.acceptor) && s.id in o.pods {
        actions := actions + [DeleteOrphanPod(o.pods[s.id].name)];
      }
    }
    assert o.sessions[..|o.sessions|] == o.sessions;
  }

  method FilterClaimable(ss: seq<Session>) returns (pending: seq<Session>)
    ensures pending == ClaimableOf(ss)
  {
    pending := [];
    for i := 0 to |ss|
      invariant pending == ClaimableOf(ss[..i])
    {
      Extended(ss, i);
      if Claimable(ss[i]) {
        pending := pending + [ss[i]];
      }
    }
    assert ss[..|ss|] == ss;
  }

  method Plan(o: Observed) returns (actions: seq<Action>)
    ensures actions == PlanOf(o)
  {
    var active;
    actions, active := PlanOwnSessions(o);
    var stale := PlanStalePods(o);
    var pending := FilterClaimable(o.sessions);
    var queue := SortOldestFirst(pending);
    var slots := if o.maxConcurrent > active then o.maxConcurrent - active else 0;
    actions := actions + stale + Claims(queue[..Min(slots, |queue|)]) + Orphans(o.orphans);
  }
}
