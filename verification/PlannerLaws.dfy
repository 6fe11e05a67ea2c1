/** What the plan of one pass promises, whatever the queue and the pods look like. */
module PlannerLaws {
  import opened Basics
  import opened Pods
  import opened Planner

  predicate UniqueIds(ss: seq<Session>) { forall i, j :: 0 <= i < j < |ss| ==> ss[i].id != ss[j].id }

  /** The actions whose execution calls the queue's claim operation for `id`. */
  predicate CallsClaim(a: Action, id: string) { a == Claim(id) || a == StartWorker(id) || a == Renew(id) }

  /** The session an action is planned for, and why it may be planned. */
  predicate PlannedFor(o: Observed, s: Session, a: Action) {
    a in OwnActions(o, s) || (Claimable(s) && a == Claim(s.id))
    || (Stale(o, s) && a == DeleteOrphanPod(o.pods[s.id].name))
  }

  lemma {:induction false} OwnFrom(o: Observed, ss: seq<Session>, a: Action)
    ensures a in AllOwn(o, ss) <==> exists s <- ss :: a in OwnActions(o, s)
  {
    if ss != [] {
      OwnFrom(o, ss[..|ss| - 1], a);
      assert ss == ss[..|ss| - 1] + [ss[|ss| - 1]];
    }
  }

  lemma {:induction false} StaleFrom(o: Observed, ss: seq<Session>, a: Action)
    ensures a in AllStale(o, ss) <==> exists s <- ss :: Stale(o, s) && a == DeleteOrphanPod(o.pods[s.id].name)
  {
    if ss != [] {
      StaleFrom(o, ss[..|ss| - 1], a);
      assert ss == ss[..|ss| - 1] + [ss[|ss| - 1]];
    }
  }

  lemma {:induction false} ClaimableFrom(ss: seq<Session>, s: Session)
    ensures s in ClaimableOf(ss) <==> s in ss && Claimable(s)
  {
    if ss != [] {
      ClaimableFrom(ss[..|ss| - 1], s);
      assert ss == ss[..|ss| - 1] + [ss[|ss| - 1]];
    }
  }

  lemma ChosenFrom(o: Observed, s: Session)
    ensures s in Chosen(o) ==> s in o.sessions && Claimable(s)
  {
    var pending := ClaimableOf(o.sessions);
    SortedSorts(pending);
    ClaimableFrom(o.sessions, s);
    assert s in Sorted(pending) <==> s in multiset(Sorted(pending));
    assert s in pending <==> s in multiset(pending);
  }

  /** Every planned action is planned for a listed session, or names an orphan pod. */
  lemma EveryActionHasAReason(o: Observed, a: Action)
    requires a in PlanOf(o)
    ensures (exists s <- o.sessions :: PlannedFor(o, s, a))
            || (a.DeleteOrphanPod? && a.podName in o.orphans)
  {
    OwnFrom(o, o.sessions, a);
    StaleFrom(o, o.sessions, a);
    if a in Claims(Chosen(o)) {
      var i :| 0 <= i < |Chosen(o)| && Claims(Chosen(o))[i] == a;
      ChosenFrom(o, Chosen(o)[i]);
      assert PlannedFor(o, Chosen(o)[i], a);
    }
  }

  lemma SameRow(ss: seq<Session>, s: Session, t: Session)
    requires UniqueIds(ss) && s in ss && t in ss && s.id == t.id
    ensures s == t
  {
  }

  lemma PlannedForNames(o: Observed, t: Session, a: Action)
    requires PlannedFor(o, t, a) && !a.DeleteOrphanPod?
    ensures a.id == t.id
  {
  }

  /** With unique IDs, an action about a listed session is planned for its row. */
  lemma PlannedForItsRow(o: Observed, s: Session, a: Action)
    requires UniqueIds(o.sessions) && s in o.sessions && a in PlanOf(o)
    requires !a.DeleteOrphanPod? && a.id == s.id
    ensures a in OwnActions(o, s) || (Claimable(s) && a == Claim(s.id))
  {
    EveryActionHasAReason(o, a);
    var t :| t in o.sessions && PlannedFor(o, t, a);
    PlannedForNames(o, t, a);
    SameRow(o.sessions, s, t);
  }

  lemma OwnIsPlanned(o: Observed, s: Session, a: Action)
    requires s in o.sessions && a in OwnActions(o, s)
    ensures a in PlanOf(o)
  {
    OwnFrom(o, o.sessions, a);
  }

  /** A session listed as suspended or terminated is never claimed, started or renewed. */
  lemma TerminalNeverClaimed(o: Observed, s: Session, a: Action)
    requires UniqueIds(o.sessions) && s in o.sessions && Terminal(s)
    requires a in PlanOf(o)
    ensures !CallsClaim(a, s.id)
  {
    if CallsClaim(a, s.id) { PlannedForItsRow(o, s, a); }
  }

  /** The claims fill the free slots, no more, and none is left free while a session waits. */
  lemma LimitRespected(o: Observed)
    ensures |Chosen(o)| <= |ClaimableOf(o.sessions)|
    ensures CountActive(o, o.sessions) + |Chosen(o)| <= Max(o.maxConcurrent, CountActive(o, o.sessions))
    ensures |Chosen(o)| < |ClaimableOf(o.sessions)| ==> CountActive(o, o.sessions) + |Chosen(o)| >= o.maxConcurrent
    ensures forall s <- Chosen(o) :: Claim(s.id) in PlanOf(o)
    ensures forall s <- o.sessions ::
              s.phase == Pending && s.status != SessionStatus.Suspended && s.status != SessionStatus.Terminated && s !in Chosen(o) ==>
                CountActive(o, o.sessions) + |Chosen(o)| >= o.maxConcurrent
  {
    forall s | s in Chosen(o) ensures Claim(s.id) in PlanOf(o) {
      var i :| 0 <= i < |Chosen(o)| && Chosen(o)[i] == s;
      assert Claims(Chosen(o))[i] == Claim(s.id);
    }
    forall s | s in o.sessions && Claimable(s) && s !in Chosen(o) ensures |Chosen(o)| < |ClaimableOf(o.sessions)| {
      SomeAreLeft(o, s);
    }
    ChosenFits(o);
  }

  lemma SomeAreLeft(o: Observed, s: Session)
    requires s in o.sessions && Claimable(s) && s !in Chosen(o)
    ensures |Chosen(o)| < |ClaimableOf(o.sessions)|
  {
    ChosenFits(o);
    var pending := ClaimableOf(o.sessions);
    SortedSorts(pending);
    ClaimableFrom(o.sessions, s);
    assert s in multiset(pending) && s in multiset(Sorted(pending));
    assert |Sorted(pending)| == |multiset(Sorted(pending))| == |multiset(pending)| == |pending|;
    assert |Chosen(o)| == |pending| ==> Chosen(o) == Sorted(pending);
  }

  lemma ChosenFits(o: Observed)
    ensures |Chosen(o)| == Min(Slots(o), |ClaimableOf(o.sessions)|)
  {
    SortedSorts(ClaimableOf(o.sessions));
    assert |Sorted(ClaimableOf(o.sessions))| == |multiset(Sorted(ClaimableOf(o.sessions)))|
        == |multiset(ClaimableOf(o.sessions))| == |ClaimableOf(o.sessions)|;
  }

  /**
   No session is claimed while an older one is left waiting: one without a
   creation time is the oldest, and of two created together the smaller ID goes first.
   */
  lemma OldestClaimedFirst(o: Observed, claimed: Session, left: Session)
    requires claimed in Chosen(o) && left in o.sessions && left !in Chosen(o)
    requires left.phase == Pending && left.status != SessionStatus.Suspended && left.status != SessionStatus.Terminated
    ensures left.createdAt.None? ==> claimed.createdAt.None?
    ensures left.createdAt.Some? && claimed.createdAt.Some? ==> claimed.createdAt.value <= left.createdAt.value
    ensures left.createdAt == claimed.createdAt ==> DictionaryLeq(claimed.id, left.id)
  {
    OlderMeans(claimed, left);
    ChosenIsOlder(o, claimed, left);
  }

  lemma ChosenIsOlder(o: Observed, claimed: Session, left: Session)
    requires claimed in Chosen(o) && left in o.sessions && Claimable(left) && left !in Chosen(o)
    ensures Older(claimed, left)
  {
    var pending := ClaimableOf(o.sessions);
    SortedSorts(pending);
    ClaimableFrom(o.sessions, left);
    assert left in multiset(pending);
    var queue := Sorted(pending);
    assert left in multiset(queue);
    var n := |Chosen(o)|;
    var i :| 0 <= i < n && Chosen(o)[i] == claimed;
    var j :| 0 <= j < |queue| && queue[j] == left;
    assert forall k :: 0 <= k < n ==> queue[k] == Chosen(o)[k];
    assert j >= n;
  }

  /** On the branches that keep the claim, it is renewed exactly when it is due: within the margin, or of unknown deadline. */
  lemma RenewedWhenDue(o: Observed, s: Session)
    requires UniqueIds(o.sessions) && s in o.sessions && Ours(o, s) && !Terminal(s) && s.id in o.pods
    requires var pod := o.pods[s.id];
      !InPhase(pod, "Succeeded") && (FailureOf(o, pod).Some? || (RestartCount(pod) <= o.restartLimit && !Drifted(o, s, pod)))
    ensures Renew(s.id) in PlanOf(o) <==> s.deadline.None? || s.deadline.value < o.now + o.renewMargin
  {
    var a := Renew(s.id);
    if RenewalDue(o, s) { OwnIsPlanned(o, s, a); }
    if a in PlanOf(o) { PlannedForItsRow(o, s, a); }
  }

  predicate ClaimedByUs(o: Observed, s: Session) { s.phase == Claimed && s.acceptor == Some(o.acceptor) }

  /** The session is ours, has not ended and has a pod. */
  predicate Served(o: Observed, s: Session) {
    && ClaimedByUs(o, s) && s.status != SessionStatus.Suspended && s.status != SessionStatus.Terminated && s.id in o.pods
  }

  predicate Succeeded(pod: Pod) { pod.status.Some? && pod.status.value.phase == Some("Succeeded") }

  /** And that pod is neither done nor reported as stuck. */
  predicate GoesOn(o: Observed, s: Session) { Served(o, s) && !Succeeded(o.pods[s.id]) && FailureOf(o, o.pods[s.id]).None? }

  /** What becomes of a session of ours that has ended, has no pod, or whose pod is done or stuck. */
  lemma PlannedExactlyWhen(o: Observed, s: Session, f: StartupFailure)
    requires UniqueIds(o.sessions) && s in o.sessions
    ensures Terminate(s.id) in PlanOf(o) <==> ClaimedByUs(o, s) && s.status == SessionStatus.Terminated
    ensures Suspend(s.id) in PlanOf(o) <==> ClaimedByUs(o, s) && s.status == SessionStatus.Suspended
    ensures StartWorker(s.id) in PlanOf(o) <==>
              && ClaimedByUs(o, s) && s.status != SessionStatus.Terminated && s.status != SessionStatus.Suspended && s.id !in o.pods
    ensures ReplaceSucceededPod(s.id) in PlanOf(o) <==> Served(o, s) && Succeeded(o.pods[s.id])
    ensures StartupFailed(s.id, f) in PlanOf(o) <==> Served(o, s) && !Succeeded(o.pods[s.id]) && FailureOf(o, o.pods[s.id]) == Some(f)
  {
    hide PlanOf, FailureOf, Drifted, RestartCount, UniqueIds;
    OwnExactly(o, s, Terminate(s.id));
    OwnExactly(o, s, Suspend(s.id));
    OwnExactly(o, s, StartWorker(s.id));
    OwnExactly(o, s, ReplaceSucceededPod(s.id));
    OwnExactly(o, s, StartupFailed(s.id, f));
  }

  lemma OwnExactly(o: Observed, s: Session, a: Action)
    requires UniqueIds(o.sessions) && s in o.sessions && !a.DeleteOrphanPod? && !a.Claim? && a.id == s.id
    ensures a in PlanOf(o) <==> a in OwnActions(o, s)
  {
    if a in PlanOf(o) { PlannedForItsRow(o, s, a); }
    if a in OwnActions(o, s) { OwnIsPlanned(o, s, a); }
  }

  /** It is given up exactly past the restart limit, with its count of restarts. */
  lemma GivenUpExactlyWhen(o: Observed, s: Session, restarts: nat)
    requires UniqueIds(o.sessions) && s in o.sessions
    ensures GiveUp(s.id, restarts) in PlanOf(o) <==>
            GoesOn(o, s) && restarts == RestartCount(o.pods[s.id]) && restarts > o.restartLimit
  {
    hide PlanOf, FailureOf, Drifted, RestartCount, UniqueIds;
    OwnExactly(o, s, GiveUp(s.id, restarts));
  }

  /**
   Its pod is replaced as drifted exactly when, within the restart limit, a
   container of it keeps crashing and its worker's image is not the one the
   session would get now.
   */
  lemma DriftReplacedExactlyWhen(o: Observed, s: Session)
    requires UniqueIds(o.sessions) && s in o.sessions
    ensures ReplaceDriftedPod(s.id) in PlanOf(o) <==>
            && GoesOn(o, s) && RestartCount(o.pods[s.id]) <= o.restartLimit
            && o.pods[s.id].status.Some?
            && (exists cs <- o.pods[s.id].status.value.containers ::
                  || (cs.waiting.Some? && cs.waiting.value.reason == Some("CrashLoopBackOff"))
                  || (cs.restarts > 0 && !cs.ready))
            && WorkerImage(o.pods[s.id], o.container) !=
               if s.spec.image.Some? then s.spec.image
               else if s.spec.imageBuild && o.buildImage.Some? then o.buildImage
               else Some(o.desiredImage)
  {
    OwnExactly(o, s, ReplaceDriftedPod(s.id));
  }

  /**
   A pod built from the current image settings is never replaced as drifted,
   whatever the template holds. Crash-looping on it, a session is given up past
   the restart limit, or kept and renewed; a report needs a worker that never ran,
   a replacement a pod that succeeded.
   */
  lemma BuiltPodNeverDrifts(o: Observed, s: Session, template: seq<Container>)
    requires UniqueIds(o.sessions) && s in o.sessions && s.id in o.pods
    requires o.pods[s.id].containers ==
             WithWorker(template, o.container,
                        if s.spec.image.Some? then s.spec.image.value
                        else if s.spec.imageBuild && o.buildImage.Some? then o.buildImage.value else o.desiredImage)
    ensures ReplaceDriftedPod(s.id) !in PlanOf(o)
    ensures Ours(o, s) && !Terminal(s) && CrashLooping(o.pods[s.id]) ==>
              forall a <- OwnActions(o, s) ::
                || a == Renew(s.id)
                || (a.GiveUp? && RestartCount(o.pods[s.id]) > o.restartLimit)
                || (a.StartupFailed? && !WorkerRan(o.pods[s.id], o.container))
                || (a.ReplaceSucceededPod? && InPhase(o.pods[s.id], "Succeeded"))
  {
    hide PlanOf, RestartCount, RenewalDue, CrashLooping, WorkerImage, HasRun, FirstPull, FirstUnscheduled, UniqueIds;
    WorkerKeepsItsImage(template, o.container, EffectiveImage(s.spec, o.desiredImage, o.buildImage), o.pods[s.id]);
    var a := ReplaceDriftedPod(s.id);
    if a in PlanOf(o) { PlannedForItsRow(o, s, a); }
  }
}
