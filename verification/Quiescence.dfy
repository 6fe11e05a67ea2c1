/** Runs of passes over sessions left alone: they settle every one, and then only renew. */
module Quiescence {
  import opened Basics
  import opened Pods
  import opened Planner
  import opened PlannerLaws
  import opened Cluster
  import opened Jobs
  import opened Passes
  import opened Concurrency
  import opened Convergence

  // ------------------------------------------------------------- the measure

  ghost function Sum(c: Config, w: World, ids: set<string>): nat {
    if ids == {} then 0
    else var id :| id in ids; Weight(c, w, id) + Sum(c, w, ids - {id})
  }

  /** What is left to do: ended claims, live claims without a pod, waiting sessions twice, pods of others' or no sessions. */
  ghost function Total(c: Config, w: World): nat { Sum(c, w, w.rows.Keys + w.pods.Keys) }

  lemma {:induction false} SumTakes(c: Config, w: World, ids: set<string>, id: string)
    requires id in ids
    ensures Sum(c, w, ids) == Weight(c, w, id) + Sum(c, w, ids - {id})
  {
    hide Weight;
    var x :| x in ids && Sum(c, w, ids) == Weight(c, w, x) + Sum(c, w, ids - {x});
    if x != id {
      SumTakes(c, w, ids - {x}, id);
      SumTakes(c, w, ids - {id}, x);
      assert ids - {x} - {id} == ids - {id} - {x};
    }
  }

  lemma {:induction false} SumShrinks(c: Config, w: World, v: World, small: set<string>, ids: set<string>)
    requires small <= ids && forall id <- small :: Weight(c, v, id) <= Weight(c, w, id)
    ensures Sum(c, v, small) <= Sum(c, w, ids)
  {
    hide Weight;
    if small != {} {
      var id :| id in small;
      SumTakes(c, v, small, id);
      SumTakes(c, w, ids, id);
      SumShrinks(c, w, v, small - {id}, ids - {id});
    }
  }

  lemma SumDrops(c: Config, w: World, v: World, small: set<string>, ids: set<string>, id: string)
    requires small <= ids && id in ids && forall x <- small :: Weight(c, v, x) <= Weight(c, w, x)
    requires Weight(c, v, id) < Weight(c, w, id)
    ensures Sum(c, v, small) < Sum(c, w, ids)
  {
    SumTakes(c, w, ids, id);
    SumShrinks(c, w, v, small - {id}, ids - {id});
    if id in small { SumTakes(c, v, small, id); } else { assert small - {id} == small; }
  }

  /** Nothing new to settle appears. */
  lemma NamesStay(c: Config, w: World, v: World)
    requires forall id :: Evolved(c, w, v, id)
    ensures v.rows.Keys + v.pods.Keys <= w.rows.Keys + w.pods.Keys
  {
    forall id | id in v.rows.Keys + v.pods.Keys ensures id in w.rows.Keys + w.pods.Keys {
      assert Evolved(c, w, v, id);
    }
  }

  ghost predicate Progress(c: Config, w: World, r: Round) {
    exists k :: 0 <= k < |PlanOf(r.seen)| && !PlanOf(r.seen)[k].Renew?
                && FinishedAt(c, Begun(w, r.seen.pods, r.script), PlanOf(r.seen), k)
  }

  function After(c: Config, w: World, r: Round): World { PassEnd(c, w, r.seen, r.script, r.cold, r.vanished).world }

  ghost predicate Calm(c: Config, w: World, r: Round) {
    Observes(c, w, r.seen) && Healthy(r.seen) && Frozen(r.script)
  }

  /**
   Whichever calls fail, the measure does not grow over a pass, and it drops
   when anything but a renewal went through.
   */
  lemma PassMakesProgress(c: Config, w: World, r: Round)
    requires Calm(c, w, r)
    ensures Total(c, After(c, w, r)) <= Total(c, w)
    ensures Progress(c, w, r) ==> Total(c, After(c, w, r)) < Total(c, w)
  {
    hide PassEnd, PlanOf, Healthy, Observes, FinishedAt, Weight, Evolved;
    var v := After(c, w, r);
    forall id ensures Evolved(c, w, v, id) && Weight(c, v, id) <= Weight(c, w, id) {
      PassHelps(c, w, r, id);
      Lighter(c, w, v, id);
    }
    NamesStay(c, w, v);
    SumShrinks(c, w, v, v.rows.Keys + v.pods.Keys, w.rows.Keys + w.pods.Keys);
    if Progress(c, w, r) {
      var k :| 0 <= k < |PlanOf(r.seen)| && !PlanOf(r.seen)[k].Renew?
               && FinishedAt(c, Begun(w, r.seen.pods, r.script), PlanOf(r.seen), k);
      FinishedInPass(c, w, r, k);
      Weighty(c, w, SubjectOf(PlanOf(r.seen)[k]));
      SumDrops(c, w, v, v.rows.Keys + v.pods.Keys, w.rows.Keys + w.pods.Keys, SubjectOf(PlanOf(r.seen)[k]));
    }
  }

  lemma Lighter(c: Config, w: World, v: World, id: string)
    requires Evolved(c, w, v, id)
    ensures Weight(c, v, id) <= Weight(c, w, id)
  {
  }

  lemma Weighty(c: Config, w: World, id: string)
    requires Weight(c, w, id) > 0
    ensures id in w.rows.Keys + w.pods.Keys
  {
  }

  lemma AlikeWeighsTheSame(c: Config, w: World, v: World)
    requires Alike(w, v)
    ensures Total(c, v) == Total(c, w)
  {
    hide Weight;
    forall id ensures Weight(c, v, id) == Weight(c, w, id) { SameStanding(c, w, w, v, id); }
    var ids := w.rows.Keys + w.pods.Keys;
    SumShrinks(c, w, v, ids, ids);
    SumShrinks(c, v, w, ids, ids);
  }

  /** A run whose passes find healthy pods and, between and during them, nothing but minor changes. */
  ghost predicate CalmRun(c: Config, w: World, rounds: seq<Round>) {
    rounds == [] ||
    var r := rounds[|rounds| - 1];
    CalmRun(c, w, rounds[..|rounds| - 1]) && Minor(r.gap) && Calm(c, WorldListed(c, w, rounds), r)
  }

  /** The passes in which something other than a renewal went through. */
  ghost function Productive(c: Config, w: World, rounds: seq<Round>): nat {
    if rounds == [] then 0
    else
      Productive(c, w, rounds[..|rounds| - 1])
      + if Progress(c, WorldListed(c, w, rounds), rounds[|rounds| - 1]) then 1 else 0
  }

  /** However often calls fail, only so many passes can find anything to do but renew. */
  lemma {:induction false} WorkRunsOut(c: Config, w: World, rounds: seq<Round>)
    requires CalmRun(c, w, rounds)
    ensures Productive(c, w, rounds) + Total(c, WorldAfter(c, w, rounds)) <= Total(c, w)
  {
    hide Total, Progress, PassEnd, Calm, Minor;
    if rounds != [] {
      var shorter, r := rounds[..|rounds| - 1], rounds[|rounds| - 1];
      WorkRunsOut(c, w, shorter);
      MinorKeeps(c, WorldAfter(c, w, shorter), r.gap);
      AlikeWeighsTheSame(c, WorldAfter(c, w, shorter), WorldListed(c, w, rounds));
      PassMakesProgress(c, WorldListed(c, w, rounds), r);
      assert WorldAfter(c, w, rounds) == After(c, WorldListed(c, w, rounds), r);
    }
  }

  // ------------------------------------------- one pass without any failure

  /** Every planned action went through. */
  ghost predicate FailureFree(c: Config, w: World, r: Round) {
    forall k :: 0 <= k < |PlanOf(r.seen)| ==> FinishedAt(c, Begun(w, r.seen.pods, r.script), PlanOf(r.seen), k)
  }

  /** Its row and its pod are as they were. */
  predicate Untouched(w: World, v: World, id: string) {
    && (id in v.rows <==> id in w.rows) && (id in w.rows ==> v.rows[id] == w.rows[id])
    && (id in v.pods <==> id in w.pods)
  }

  lemma CallTouchesItsSubject(c: Config, w: World, op: Op, t: Tick, id: string)
    requires OpId(op) != id
    ensures Untouched(w, Effect(c, w, op, t), id)
  {
  }

  lemma {:induction false} ExecTouchesItsSubject(c: Config, w: World, a: Action, pod: Option<Pod>, h: seq<Reply>,
                                                 script: seq<Tick>, id: string)
    requires Frozen(script) && (AsksQueue(a) || a.Suspend? || a.Terminate? || a.DeleteOrphanPod?) && id != SubjectOf(a)
    ensures var end := Exec(c, w, Run(a, pod), h, script); Frozen(end.rest) && Untouched(w, end.world, id)
    decreases |script|
  {
    hide Next, Answer, Effect;
    var job := Run(a, pod);
    if Next(c, job, h).Some? && script != [] {
      var op, t := Next(c, job, h).value, script[0];
      var found := Interfere(c, w, t.env);
      MinorKeeps(c, w, t.env);
      CallsAreAllowed(c, a, pod, h, op);
      CallTouchesItsSubject(c, found, op, t, id);
      ExecTouchesItsSubject(c, Effect(c, found, op, t), a, pod, h + [Answer(c, found, op, t)], script[1..], id);
    }
  }

  lemma {:induction false} OthersUntouched(c: Config, s: Pass, actions: seq<Action>, n: nat, id: string)
    requires Frozen(s.script) && AllSuit(c, s.world, actions) && n <= |actions|
    requires forall a <- actions :: SubjectOf(a) != id
    ensures Untouched(s.world, RunActions(c, s, actions[..n]).world, id)
  {
    hide Exec, Suits;
    if n > 0 {
      assert actions[..n][..n - 1] == actions[..n - 1];
      OthersUntouched(c, s, actions, n - 1, id);
      SuitedInTurn(c, s, actions, n - 1);
      var before, a := RunActions(c, s, actions[..n - 1]), actions[n - 1];
      StartsUnreached(c, before.world, a, PodOf(before.pods, a));
      SuitedWhenReached(c, before.world, a, PodOf(before.pods, a), []);
      ExecTouchesItsSubject(c, before.world, a, PodOf(before.pods, a), [], before.script, id);
    }
  }

  /** A session no action was planned for keeps its row and its pod, or lack of one. */
  lemma UnplannedUntouched(c: Config, w: World, r: Round, id: string)
    requires Calm(c, w, r) && forall a <- PlanOf(r.seen) :: SubjectOf(a) != id
    ensures Untouched(w, After(c, w, r), id)
  {
    hide PlanOf, Healthy, RunActions, PassEnd, Observes, Suits;
    var s, actions := Begun(w, r.seen.pods, r.script), PlanOf(r.seen);
    PassIsItsActions(c, w, r.seen, r);
    OthersUntouched(c, s, actions, |actions|, id);
    assert actions[..|actions|] == actions;
  }

  /** After a pass without failures, whatever is still unsettled was not planned for. */
  lemma UnsettledWasUnplanned(c: Config, w: World, r: Round, id: string)
    requires Calm(c, w, r) && FailureFree(c, w, r) && Weight(c, After(c, w, r), id) > 0
    ensures forall a <- PlanOf(r.seen) :: SubjectOf(a) != id
    ensures Untouched(w, After(c, w, r), id)
  {
    hide PlanOf, Healthy, PassEnd, Observes, Suits, Weight, FinishedAt, Untouched;
    forall a | a in PlanOf(r.seen) ensures SubjectOf(a) != id {
      if SubjectOf(a) == id {
        PassHelps(c, w, r, id);
        Lighter(c, w, After(c, w, r), id);
        if a.Renew? {
          RenewIsSettled(c, w, r.seen, a);
        } else {
          var k :| 0 <= k < |PlanOf(r.seen)| && PlanOf(r.seen)[k] == a;
          FinishedInPass(c, w, r, k);
        }
      }
    }
    UnplannedUntouched(c, w, r, id);
  }

  lemma RenewIsSettled(c: Config, w: World, o: Observed, a: Action)
    requires Observes(c, w, o) && Healthy(o) && a in PlanOf(o) && a.Renew?
    ensures Weight(c, w, a.id) == 0
  {
    hide PlanOf, HealthyPod;
    EveryActionHasAReason(o, a);
    var s :| s in o.sessions && PlannedFor(o, s, a);
    assert w.rows[s.id] == s;
    if a in OwnActions(o, s) { OwnWhenHealthy(o, s, a); }
  }

  // ---------------------------------------------------------- the slots fill

  lemma {:induction false} UniqueOnce(ss: seq<Session>, s: Session)
    requires UniqueIds(ss)
    ensures multiset(ss)[s] <= 1
  {
    if ss != [] {
      var shorter, last := ss[..|ss| - 1], ss[|ss| - 1];
      assert ss == shorter + [last];
      UniqueOnce(shorter, s);
      assert multiset(ss) == multiset(shorter) + multiset{last};
      if s == last { assert s !in shorter; }
    }
  }

  lemma {:induction false} ClaimableOnce(ss: seq<Session>, s: Session)
    ensures multiset(ClaimableOf(ss))[s] <= multiset(ss)[s]
  {
    if ss != [] {
      var shorter, last := ss[..|ss| - 1], ss[|ss| - 1];
      assert ss == shorter + [last];
      assert multiset(ss) == multiset(shorter) + multiset{last};
      ClaimableOnce(shorter, s);
    }
  }

  lemma TwiceCounts<T>(q: seq<T>, i: nat, j: nat)
    requires i < j < |q| && q[i] == q[j]
    ensures multiset(q)[q[i]] >= 2
  {
    assert q == q[..j] + ([q[j]] + q[j + 1..]);
    assert multiset(q) == multiset(q[..j]) + multiset([q[j]] + q[j + 1..]);
    assert q[i] in q[..j] && q[..j][i] == q[i];
    assert multiset(q[..j])[q[i]] >= 1;
    assert multiset([q[j]] + q[j + 1..])[q[j]] >= 1;
  }

  lemma ChosenDistinct(o: Observed)
    requires UniqueIds(o.sessions)
    ensures UniqueIds(Chosen(o))
  {
    var queue := Sorted(ClaimableOf(o.sessions));
    SortedSorts(ClaimableOf(o.sessions));
    forall i, j | 0 <= i < j < |Chosen(o)| ensures Chosen(o)[i].id != Chosen(o)[j].id {
      var s, t := Chosen(o)[i], Chosen(o)[j];
      assert s == queue[i] && t == queue[j];
      if s.id == t.id {
        ChosenFrom(o, s);
        ChosenFrom(o, t);
        SameRow(o.sessions, s, t);
        TwiceCounts(queue, i, j);
        UniqueOnce(o.sessions, s);
        ClaimableOnce(o.sessions, s);
        assert false;
      }
    }
  }

  lemma {:induction false} AsManyIds(ss: seq<Session>)
    requires UniqueIds(ss)
    ensures |set s | s in ss :: s.id| == |ss|
  {
    if ss == [] {
      assert (set s | s in ss :: s.id) == {};
    } else {
      var shorter, last := ss[..|ss| - 1], ss[|ss| - 1];
      AsManyIds(shorter);
      assert ss == shorter + [last];
      assert (set s | s in ss :: s.id) == (set s | s in shorter :: s.id) + {last.id};
    }
  }

  /** When a session is left waiting, the sessions active or chosen fill the limit. */
  lemma SlotsFullWhenWaiting(o: Observed, s: Session)
    requires UniqueIds(o.sessions) && s in o.sessions && Claimable(s) && s.id !in ChosenIds(o)
    ensures |ActiveIds(o) + ChosenIds(o)| >= o.maxConcurrent
  {
    hide Active, Claimable;
    var chosen, pending := Chosen(o), ClaimableOf(o.sessions);
    ChosenDistinct(o);
    AsManyIds(chosen);
    ActiveCounted(o, o.sessions);
    LimitRespected(o);
    SomeLeft(o, s);
    ApartWhenChosen(o);
    assert |ActiveIds(o) + ChosenIds(o)| == |ActiveIds(o)| + |ChosenIds(o)|;
  }

  lemma SomeLeft(o: Observed, s: Session)
    requires s in o.sessions && Claimable(s) && s.id !in ChosenIds(o)
    ensures |Chosen(o)| < |ClaimableOf(o.sessions)|
  {
    SomeAreLeft(o, s);
  }

  lemma ApartWhenChosen(o: Observed)
    requires UniqueIds(o.sessions)
    ensures ActiveIds(o) !! ChosenIds(o)
  {
    forall id | id in ActiveIds(o) && id in ChosenIds(o) ensures false {
      var s :| s in o.sessions && Active(o, s) && s.id == id;
      var t :| t in Chosen(o) && t.id == id;
      ChosenFrom(o, t);
      SameRow(o.sessions, s, t);
    }
  }

  /**
   Whatever is not settled is planned for, however its pod fares, unless it waits
   for a slot: then the sessions active or chosen fill the limit.
   */
  lemma UnsettledIsPlanned(c: Config, w: World, o: Observed, id: string)
    requires Observes(c, w, o) && Weight(c, w, id) > 0
    ensures (exists a <- PlanOf(o) :: SubjectOf(a) == id && !a.Renew?)
            || (id in w.rows && w.rows[id].phase == Pending && |ActiveIds(o) + ChosenIds(o)| >= o.maxConcurrent)
  {
    hide PlanOf;
    if id !in w.rows {
      OrphanIsPlanned(o, id);
    } else {
      var s := w.rows[id];
      assert s in o.sessions && s.id == id;
      if OursIn(c, s) {
        OwnIsPlanned(o, s, if s.status == SessionStatus.Terminated then Terminate(id)
                           else if s.status == SessionStatus.Suspended then Suspend(id) else StartWorker(id));
      } else if s.phase == Claimed {
        StaleIsPlanned(o, s);
        assert o.pods[id].name == id;
      } else if id in ChosenIds(o) {
        ChosenIsPlanned(o, id);
      } else {
        SlotsFullWhenWaiting(o, s);
      }
    }
  }

  // --------------------------------------------------------- the next plan

  /** A session counted in one pass still counts in the next. */
  lemma StillActive(c: Config, w: World, r: Round, v: World, o: Observed, id: string)
    requires Calm(c, w, r) && FailureFree(c, w, r) && Alike(After(c, w, r), v)
    requires Observes(c, v, o) && Healthy(o)
    requires id in ActiveIds(r.seen) + ChosenIds(r.seen)
    ensures id in ActiveIds(o)
  {
    hide PlanOf, Chosen, PassEnd, HealthyPod, FinishedAt;
    PassHelps(c, w, r, id);
    if id in ChosenIds(r.seen) {
      ChosenIsClaimed(c, w, r, id);
    } else {
      var s :| s in r.seen.sessions && Active(r.seen, s) && s.id == id;
      assert w.rows[id] == s && OursAwake(c, w, id);
    }
    assert OursAwake(c, v, id);
    OursAwakeIsActive(c, v, o, id);
  }

  lemma OursAwakeIsActive(c: Config, v: World, o: Observed, id: string)
    requires Observes(c, v, o) && Healthy(o) && OursAwake(c, v, id)
    ensures id in ActiveIds(o)
  {
    var s := v.rows[id];
    assert s in o.sessions && s.id == id;
    assert Ours(o, s) && !Terminal(s);
    assert !GivenUp(o, s);
  }

  lemma ChosenIsPlanned(o: Observed, id: string)
    requires id in ChosenIds(o)
    ensures Claim(id) in PlanOf(o)
  {
    hide Chosen, AllOwn, AllStale;
    var s :| s in Chosen(o) && s.id == id;
    var i :| 0 <= i < |Chosen(o)| && Chosen(o)[i] == s;
    assert Planner.Claims(Chosen(o))[i] in PlanOf(o);
  }

  /** A session chosen in a pass without failures has its claim and its pod at the end. */
  lemma ChosenIsClaimed(c: Config, w: World, r: Round, id: string)
    requires Calm(c, w, r) && FailureFree(c, w, r) && id in ChosenIds(r.seen)
    ensures OursAwake(c, After(c, w, r), id)
  {
    hide Chosen, PassEnd, HealthyPod, FinishedAt, AllOwn, AllStale;
    var a := Claim(id);
    ChosenIsPlanned(r.seen, id);
    var k :| 0 <= k < |PlanOf(r.seen)| && PlanOf(r.seen)[k] == a;
    FinishedInPass(c, w, r, k);
    HealthyPlanSuits(c, w, r.seen, a);
    PassHelps(c, w, r, id);
  }

  /** What a plan names is still unsettled, or due for renewal. */
  lemma NextPlanIsUnsettled(c: Config, v: World, o: Observed, a: Action)
    requires Observes(c, v, o) && Healthy(o) && a in PlanOf(o) && !a.Renew?
    ensures Weight(c, v, SubjectOf(a)) > 0
  {
    HealthyPlanSuits(c, v, o, a);
  }

  /** Where row and pod are the same, so are the actions, save for claims. */
  lemma SameActions(c: Config, w: World, v: World, o: Observed, p: Observed, a: Action)
    requires Observes(c, w, o) && Observes(c, v, p) && Healthy(o) && Healthy(p)
    requires Untouched(w, v, SubjectOf(a)) && a in PlanOf(p) && !a.Renew? && !a.Claim?
    ensures a in PlanOf(o)
  {
    hide PlanOf, Healthy, OwnActions;
    EveryActionHasAReason(p, a);
    if s :| s in p.sessions && PlannedFor(p, s, a) {
      if a in OwnActions(p, s) {
        OwnWhenHealthy(p, s, a);
        SameOwnActions(c, w, v, o, p, s, a);
      } else {
        StaleIsPlanned(o, s);
      }
    } else {
      OrphanIsPlanned(o, a.podName);
    }
  }

  lemma SameOwnActions(c: Config, w: World, v: World, o: Observed, p: Observed, s: Session, a: Action)
    requires Observes(c, w, o) && Observes(c, v, p) && Healthy(o) && Healthy(p)
    requires s in p.sessions && a in OwnActions(p, s) && Untouched(w, v, s.id) && !a.Renew?
    ensures a in PlanOf(o)
  {
    hide PlanOf, Healthy;
    assert v.rows[s.id] == s == w.rows[s.id] && s in o.sessions;
    OwnWhenHealthy(p, s, a);
    assert a in OwnActions(o, s);
    OwnIsPlanned(o, s, a);
  }

  lemma StaleIsPlanned(o: Observed, s: Session)
    requires s in o.sessions && Stale(o, s)
    ensures DeleteOrphanPod(o.pods[s.id].name) in PlanOf(o)
  {
    StaleFrom(o, o.sessions, DeleteOrphanPod(o.pods[s.id].name));
  }

  lemma OrphanIsPlanned(o: Observed, name: string)
    requires name in o.orphans
    ensures DeleteOrphanPod(name) in PlanOf(o)
  {
    var i :| 0 <= i < |o.orphans| && o.orphans[i] == name;
    assert Orphans(o.orphans)[i] == DeleteOrphanPod(name);
  }

  /**
   After one pass in which nothing failed, the next plan holds only renewals:
   whoever still waits does so because the limit is reached.
   */
  lemma OnlyRenewalsLeft(c: Config, w: World, r: Round, gap: seq<Env>, o: Observed, a: Action)
    requires Calm(c, w, r) && FailureFree(c, w, r) && Minor(gap)
    requires Observes(c, Interfere(c, After(c, w, r), gap), o) && Healthy(o) && o.maxConcurrent == r.seen.maxConcurrent
    requires a in PlanOf(o)
    ensures a.Renew?
  {
    hide PlanOf, Healthy, PassEnd, Observes, FinishedAt, Weight, FailureFree;
    if !a.Renew? {
      var v := Interfere(c, After(c, w, r), gap);
      MinorKeeps(c, After(c, w, r), gap);
      NextPlanIsUnsettled(c, v, o, a);
      SameStanding(c, w, After(c, w, r), v, SubjectOf(a));
      UnsettledWasUnplanned(c, w, r, SubjectOf(a));
      UntouchedStill(w, After(c, w, r), v, SubjectOf(a));
      if a.Claim? {
        WaitsForASlot(c, w, r, v, o, a.id);
      } else {
        SameActions(c, w, v, r.seen, o, a);
      }
    }
  }

  lemma UntouchedStill(w: World, u: World, v: World, id: string)
    requires Untouched(w, u, id) && Alike(u, v)
    ensures Untouched(w, v, id)
  {
  }

  lemma WaitsForASlot(c: Config, w: World, r: Round, v: World, o: Observed, id: string)
    requires Calm(c, w, r) && FailureFree(c, w, r) && Alike(After(c, w, r), v)
    requires Observes(c, v, o) && Healthy(o) && o.maxConcurrent == r.seen.maxConcurrent
    requires Untouched(w, v, id) && forall a <- PlanOf(r.seen) :: SubjectOf(a) != id
    ensures Claim(id) !in PlanOf(o)
  {
    hide PlanOf, Healthy, PassEnd, FinishedAt, Weight, FailureFree, Active, Chosen;
    if Claim(id) in PlanOf(o) {
      ClaimIsChosen(o, Claim(id));
      var t :| t in Chosen(o) && t.id == id;
      ChosenFrom(o, t);
      assert v.rows[id] == t == w.rows[id] && t in r.seen.sessions;
      if id in ChosenIds(r.seen) { ChosenIsPlanned(r.seen, id); }
      SlotsFullWhenWaiting(r.seen, t);
      forall x | x in ActiveIds(r.seen) + ChosenIds(r.seen) ensures x in ActiveIds(o) { StillActive(c, w, r, v, o, x); }
      Subset(ActiveIds(r.seen) + ChosenIds(r.seen), ActiveIds(o));
      SlotsFilled(o);
    }
  }
}
