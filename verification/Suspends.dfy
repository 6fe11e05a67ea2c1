/**
 Whether a suspended session keeps its pod until its snapshot is ready. The
 Suspend action does; the recycle loop of the same pass may not.
 */
module Suspends {
  import opened Basics
  import opened Pods
  import opened Planner
  import opened PlannerLaws
  import opened Cluster
  import opened Jobs
  import opened Passes
  import opened Subjects
  import opened Concurrency

  /** The Suspend action itself goes on to anything but the snapshot only after a Ready answer. */
  lemma SuspendWaitsForReady(c: Config, id: string, pod: Pod, h: seq<Reply>, op: Op)
    requires Next(c, Run(Suspend(id), Some(pod)), h) == Some(op) && !op.TakeSnapshot?
    ensures h != [] && h[0] == Snapshot(true)
  {
  }

  /** Our session, suspended, with a worker pod. */
  predicate HeldSuspended(c: Config, w: World, id: string) {
    id in w.rows && OursIn(c, w.rows[id]) && w.rows[id].status == Suspended && id in w.pods
  }

  predicate Unmarked(w: World, id: string) { id in w.secrets && w.secrets[id] == None }

  /** Three more calls are made, the first two of them answered. */
  predicate GetsThrough(script: seq<Tick>) { |script| >= 3 && script[0].fault == Works && script[1].fault == Works }

  // --------------------------------------------------------------- one recycle

  lemma ThreeCalls(c: Config, w: World, id: string, script: seq<Tick>)
    requires Unmarked(w, id) && GetsThrough(script)
    ensures var end := Exec(c, w, Recycle(id), [], script);
            DeletePod(id) in end.calls && id in end.world.secrets && end.world.secrets[id] == Some(WithPin)
  {
    var job, h1, h2 := Recycle(id), [Secret(true, None)], [Secret(true, None), Done];
    var w0 := Interfere(c, w, script[0].env);
    InterfereKeepsHandle(c, w, script[0].env);
    assert [] + [Answer(c, w0, ReadSecret(id), script[0])] == h1;
    var w1 := Effect(c, w0, ReadSecret(id), script[0]);
    var w2 := Interfere(c, w1, script[1].env);
    InterfereKeepsHandle(c, w1, script[1].env);
    assert h1 + [Answer(c, w2, MarkSecret(id, WithPin), script[1])] == h2;
    var w3 := Effect(c, w2, MarkSecret(id, WithPin), script[1]);
    LastCall(c, w3, id, script[2..]);
    assert script[1..][1..] == script[2..];
    var last := Exec(c, w3, job, h2, script[2..]);
    var mid := Exec(c, w1, job, h1, script[1..]);
    assert mid.calls == [MarkSecret(id, WithPin)] + last.calls;
    assert Exec(c, w, job, [], script).calls == [ReadSecret(id)] + mid.calls;
  }

  lemma LastCall(c: Config, w: World, id: string, script: seq<Tick>)
    requires script != [] && id in w.secrets
    ensures var end := Exec(c, w, Recycle(id), [Secret(true, None), Done], script);
            end.calls == [DeletePod(id)] && end.world.secrets == w.secrets
  {
    var found := Interfere(c, w, script[0].env);
    InterfereKeepsHandle(c, w, script[0].env);
    var h := [Secret(true, None), Done] + [Answer(c, found, DeletePod(id), script[0])];
    assert Next(c, Recycle(id), h) == None;
  }

  lemma TooFewCalls(c: Config, w: World, id: string, script: seq<Tick>)
    requires !(Unmarked(w, id) && GetsThrough(script))
    ensures DeletePod(id) !in Exec(c, w, Recycle(id), [], script).calls
  {
    var job := Recycle(id);
    if script != [] {
      var w0 := Interfere(c, w, script[0].env);
      InterfereKeepsHandle(c, w, script[0].env);
      var r := Answer(c, w0, ReadSecret(id), script[0]);
      assert [] + [r] == [r];
      var w1 := Effect(c, w0, ReadSecret(id), script[0]);
      var mid := Exec(c, w1, job, [r], script[1..]);
      assert Exec(c, w, job, [], script).calls == [ReadSecret(id)] + mid.calls;
      if r == Secret(true, None) { NoSecondAnswer(c, w1, id, script[1..]); }
    }
  }

  lemma NoSecondAnswer(c: Config, w: World, id: string, script: seq<Tick>)
    requires |script| < 2 || script[0].fault != Works
    ensures DeletePod(id) !in Exec(c, w, Recycle(id), [Secret(true, None)], script).calls
  {
    var job, h := Recycle(id), [Secret(true, None)];
    if script != [] {
      var found := Interfere(c, w, script[0].env);
      var r := Answer(c, found, MarkSecret(id, WithPin), script[0]);
      var after := Effect(c, found, MarkSecret(id, WithPin), script[0]);
      assert h + [r] == [Secret(true, None), r];
      var mid := Exec(c, after, job, h + [r], script[1..]);
      assert Exec(c, w, job, h, script).calls == [MarkSecret(id, WithPin)] + mid.calls;
      if r == Done { assert script[1..] == []; }
    }
  }

  /** A recycle comes to deleting the pod exactly when the secret is unmarked and its calls get through. */
  lemma RecycleDeletes(c: Config, w: World, id: string, script: seq<Tick>)
    ensures DeletePod(id) in Exec(c, w, Recycle(id), [], script).calls <==> Unmarked(w, id) && GetsThrough(script)
  {
    if Unmarked(w, id) && GetsThrough(script) { ThreeCalls(c, w, id, script); } else { TooFewCalls(c, w, id, script); }
  }

  /** No call of a recycle takes a mark away. */
  lemma {:induction false} RecycleKeepsMark(c: Config, w: World, id: string, h: seq<Reply>, script: seq<Tick>)
    requires !Unmarked(w, id)
    ensures !Unmarked(Exec(c, w, Recycle(id), h, script).world, id)
    decreases |script|
  {
    var next := Next(c, Recycle(id), h);
    if next.Some? && script != [] {
      var found := Interfere(c, w, script[0].env);
      InterfereKeepsHandle(c, w, script[0].env);
      RecycleKeepsMark(c, Effect(c, found, next.value, script[0]), id, h + [Answer(c, found, next.value, script[0])], script[1..]);
    }
  }

  // ------------------------------------------------------- the actions of a pass

  /** The answers the k-th planned action got. */
  function AnswersAt(c: Config, s: Pass, actions: seq<Action>, k: nat): seq<Reply>
    requires k < |actions|
  {
    var before := RunActions(c, s, actions[..k]);
    Exec(c, before.world, Run(actions[k], PodOf(before.pods, actions[k])), [], before.script).answers
  }

  /** The session's snapshot did not answer Ready in this pass. */
  predicate NotReady(c: Config, w: World, r: Round, id: string) {
    var s, actions := Begun(w, r.seen.pods, r.script), PlanOf(r.seen);
    forall k :: 0 <= k < |actions| && actions[k] == Suspend(id) ==>
      var h := AnswersAt(c, s, actions, k); h != [] && h[0] != Snapshot(true)
  }

  lemma UnreadySuspendStops(c: Config, w: World, id: string, pod: Pod, script: seq<Tick>)
    requires var h := Exec(c, w, Run(Suspend(id), Some(pod)), [], script).answers; h != [] && h[0] != Snapshot(true)
    ensures var end := Exec(c, w, Run(Suspend(id), Some(pod)), [], script);
            && SameSecret(w, Interfere(c, w, if script == [] then [] else script[0].env), id)
            && DeletePod(id) !in end.calls && |end.answers| == 1
            && (id in end.world.secrets <==> id in w.secrets) && (id in w.secrets ==> end.world.secrets[id] == w.secrets[id])
  {
    var job := Run(Suspend(id), Some(pod));
    InterfereKeepsHandle(c, w, if script == [] then [] else script[0].env);
    if script != [] {
      var found := Interfere(c, w, script[0].env);
      var reply := Answer(c, found, TakeSnapshot(id), script[0]);
      assert [] + [reply] == [reply];
      var after := Effect(c, found, TakeSnapshot(id), script[0]);
      assert Exec(c, w, job, [], script).answers == Exec(c, after, job, [reply], script[1..]).answers;
      if Next(c, job, [reply]).Some? { AnswersKeep(c, after, job, [reply], script[1..]); }
    }
  }

  lemma AnswersKeep(c: Config, w: World, job: Job, h: seq<Reply>, script: seq<Tick>)
    requires h != []
    ensures Exec(c, w, job, h, script).answers != [] && Exec(c, w, job, h, script).answers[0] == h[0]
  {
    AnswersGrow(c, w, job, h, script);
  }

  /** A session held suspended is planned for nothing but its suspension. */
  lemma OnlyItsSuspend(c: Config, w: World, o: Observed, id: string, a: Action)
    requires Observes(c, w, o) && HeldSuspended(c, w, id) && a in PlanOf(o) && Subject(Run(a, None)) == id
    ensures a == Suspend(id)
  {
    PlannedByName(c, w, o, a);
    assert w.rows[id] in o.sessions && w.rows[id].id == id;
  }

  /** What the actions leave of a session held suspended: its secret's mark and its pod, as the pass knows them. */
  predicate Untold(c: Config, w: World, s: Pass, id: string) {
    && DeletePod(id) !in s.calls
    && id in s.pods && id in w.pods && s.pods[id] == w.pods[id]
    && (id in s.world.secrets <==> id in w.secrets) && (id in w.secrets ==> s.world.secrets[id] == w.secrets[id])
  }

  lemma ActionLeavesUntold(c: Config, w: World, s: Pass, a: Action, id: string)
    requires Untold(c, w, s, id) && (Subject(Run(a, None)) == id ==> a == Suspend(id))
    requires a == Suspend(id) ==>
               var h := Exec(c, s.world, Run(a, PodOf(s.pods, a)), [], s.script).answers; h != [] && h[0] != Snapshot(true)
    ensures Untold(c, w, RunJob(c, s, Run(a, PodOf(s.pods, a))), id)
  {
    hide Exec, StartedPod, Completed, Hurries;
    var job := Run(a, PodOf(s.pods, a));
    var end := Exec(c, s.world, job, [], s.script);
    if a == Suspend(id) {
      UnreadySuspendStops(c, s.world, id, s.pods[id], s.script);
      assert !Forgets(job, end.answers);
    } else {
      ExecStaysHome(c, s.world, job, [], s.script, id);
      PodsStayHome(c, s.pods, job, end.answers, id);
    }
  }

  lemma {:induction false} ActionsLeaveUntold(c: Config, w: World, r: Round, id: string, n: nat)
    requires Observes(c, w, r.seen) && HeldSuspended(c, w, id) && NotReady(c, w, r, id) && n <= |PlanOf(r.seen)|
    ensures Untold(c, w, RunActions(c, Begun(w, r.seen.pods, r.script), PlanOf(r.seen)[..n]), id)
  {
    hide PlanOf, Exec, RunJob, Next;
    var s, actions := Begun(w, r.seen.pods, r.script), PlanOf(r.seen);
    if n > 0 {
      ActionsLeaveUntold(c, w, r, id, n - 1);
      assert actions[..n][..n - 1] == actions[..n - 1];
      var a := actions[n - 1];
      assert a in actions;
      if Subject(Run(a, None)) == id { OnlyItsSuspend(c, w, r.seen, id, a); }
      assert a == Suspend(id) ==> AnswersAt(c, s, actions, n - 1) != [] && AnswersAt(c, s, actions, n - 1)[0] != Snapshot(true);
      ActionLeavesUntold(c, w, RunActions(c, s, actions[..n - 1]), a, id);
    }
  }

  // ------------------------------------------------------------ the whole pass

  /** What is left of the script when the recycle loop comes to the session's pod. */
  function ScriptFor(c: Config, w: World, r: Round, id: string): seq<Tick> {
    var acted := Acted(c, w, r);
    RunRecycles(c, acted, acted.pods, r.cold[..IndexOf(r.cold, id)]).script
  }

  /** The recycle loop takes the pod: a restore was expected and did not happen, the secret is unmarked, the calls get through. */
  predicate TakesPod(c: Config, w: World, r: Round, id: string) {
    id in w.pods && NeedsRecycle(w.pods[id]) && Unmarked(w, id) && GetsThrough(ScriptFor(c, w, r, id))
  }

  /** The loop over other pods. */
  lemma {:induction false} OthersRecycled(c: Config, w: World, s: Pass, pods: map<string, Pod>, ids: seq<string>, id: string)
    requires Untold(c, w, s, id) && id !in ids
    ensures var t := RunRecycles(c, s, pods, ids);
            && DeletePod(id) !in t.calls && (id in t.world.secrets <==> id in w.secrets)
            && (id in w.secrets ==> t.world.secrets[id] == w.secrets[id])
            && (Unmarked(t.world, id) <==> Unmarked(w, id))
  {
    hide Exec, VerdictOf, PodsAfter, Hurries, NeedsRecycle;
    if ids != [] {
      var before, last := RunRecycles(c, s, pods, ids[..|ids| - 1]), ids[|ids| - 1];
      assert last in ids && forall x <- ids[..|ids| - 1] :: x in ids;
      OthersRecycled(c, w, s, pods, ids[..|ids| - 1], id);
      ExecStaysHome(c, before.world, Recycle(last), [], before.script, id);
    }
  }

  /** From its place in the loop on, nothing more is called for the pod. */
  lemma {:induction false} RestRecycled(c: Config, s: Pass, pods: map<string, Pod>, ids: seq<string>, n: nat, id: string)
    requires Once(ids) && IndexOf(ids, id) < n <= |ids|
    ensures var k := IndexOf(ids, id); var at := RunRecycles(c, s, pods, ids[..k + 1]); var t := RunRecycles(c, s, pods, ids[..n]);
            && (DeletePod(id) in t.calls <==> DeletePod(id) in at.calls)
            && (Unmarked(t.world, id) <==> Unmarked(at.world, id))
  {
    hide Exec, VerdictOf, PodsAfter, Hurries, NeedsRecycle;
    if n > IndexOf(ids, id) + 1 {
      RestRecycled(c, s, pods, ids, n - 1, id);
      assert ids[..n][..n - 1] == ids[..n - 1];
      var before := RunRecycles(c, s, pods, ids[..n - 1]);
      ExecStaysHome(c, before.world, Recycle(ids[n - 1]), [], before.script, id);
    }
  }

  lemma {:induction false} CleanUpsDeleteNoPods(c: Config, s: Pass, ids: seq<string>, id: string)
    ensures var t := RunCleanUps(c, s, ids);
            (DeletePod(id) in t.calls <==> DeletePod(id) in s.calls) && (Unmarked(t.world, id) ==> Unmarked(s.world, id))
  {
    hide Exec, Completed;
    if ids != [] {
      CleanUpsDeleteNoPods(c, s, ids[..|ids| - 1], id);
      var before := RunCleanUps(c, s, ids[..|ids| - 1]);
      CleanUpDeletesNoPod(c, before.world, ids[|ids| - 1], [], before.script, id);
    }
  }

  lemma {:induction false} CleanUpDeletesNoPod(c: Config, w: World, x: string, h: seq<Reply>, script: seq<Tick>, id: string)
    ensures var end := Exec(c, w, CleanUp(x), h, script);
            DeletePod(id) !in end.calls && (Unmarked(end.world, id) ==> Unmarked(w, id))
    decreases |script|
  {
    var next := Next(c, CleanUp(x), h);
    if next.Some? && script != [] {
      var found := Interfere(c, w, script[0].env);
      InterfereKeepsHandle(c, w, script[0].env);
      CleanUpDeletesNoPod(c, Effect(c, found, next.value, script[0]), x, h + [Answer(c, found, next.value, script[0])], script[1..], id);
    }
  }

  lemma TurnOf(c: Config, s: Pass, id: string)
    requires DeletePod(id) !in s.calls
    ensures var t := RunJob(c, s, Recycle(id));
            && (DeletePod(id) in t.calls <==> Unmarked(s.world, id) && GetsThrough(s.script))
            && (DeletePod(id) in t.calls ==> !Unmarked(t.world, id))
            && (!Unmarked(s.world, id) ==> !Unmarked(t.world, id))
  {
    hide Exec, VerdictOf, PodsAfter, Hurries;
    RecycleDeletes(c, s.world, id, s.script);
    if Unmarked(s.world, id) && GetsThrough(s.script) { ThreeCalls(c, s.world, id, s.script); }
    if !Unmarked(s.world, id) { RecycleKeepsMark(c, s.world, id, [], s.script); }
  }

  lemma RecycleInPlace(c: Config, w: World, r: Round, id: string)
    requires Sees(c, w, r) && Untold(c, w, Acted(c, w, r), id)
    ensures var k := IndexOf(r.cold, id); var acted := Acted(c, w, r);
            && k < |r.cold|
            && var at := RunRecycles(c, acted, acted.pods, r.cold[..k + 1]);
               && (DeletePod(id) in at.calls <==> TakesPod(c, w, r, id))
               && (DeletePod(id) in at.calls ==> !Unmarked(at.world, id))
               && (!Unmarked(w, id) ==> !Unmarked(at.world, id))
  {
    hide RunJob, NeedsRecycle, RunActions, Observes, GetsThrough, Unmarked;
    var k, acted := IndexOf(r.cold, id), Acted(c, w, r);
    assert id in r.cold;
    assert r.cold[..k + 1][..k] == r.cold[..k];
    assert id !in r.cold[..k] && r.cold[..k + 1][k] == id;
    OthersRecycled(c, w, acted, acted.pods, r.cold[..k], id);
    TurnOf(c, RunRecycles(c, acted, acted.pods, r.cold[..k]), id);
  }

  /**
   For a session listed as ours and suspended, whose snapshot does not answer
   Ready in a pass: its pod is deleted in that pass exactly when the recycle loop
   takes it.
   */
  lemma DeletedBeforeReady(c: Config, w: World, r: Round, id: string)
    requires Sees(c, w, r) && HeldSuspended(c, w, id) && NotReady(c, w, r, id)
    ensures var end := PassEnd(c, w, r.seen, r.script, r.cold, r.vanished);
            && (DeletePod(id) in end.calls <==> TakesPod(c, w, r, id))
            && (DeletePod(id) in end.calls ==> !Unmarked(end.world, id))
            && (!Unmarked(w, id) ==> !Unmarked(end.world, id))
  {
    hide PlanOf, RunActions, RunRecycles, RunCleanUps, TakesPod, Observes, NotReady, HeldSuspended;
    var acted := Acted(c, w, r);
    ActionsLeaveUntold(c, w, r, id, |PlanOf(r.seen)|);
    assert PlanOf(r.seen)[..|PlanOf(r.seen)|] == PlanOf(r.seen);
    RecycleInPlace(c, w, r, id);
    RestRecycled(c, acted, acted.pods, r.cold, |r.cold|, id);
    assert r.cold[..|r.cold|] == r.cold;
    CleanUpsDeleteNoPods(c, Recycled(c, w, r), r.vanished.GetOr([]), id);
  }

  // ------------------------------------------------------------------ over runs

  /** Rounds in each of which the session is listed as ours and suspended, with its pod, and its snapshot is not ready. */
  ghost predicate Holding(c: Config, w: World, rounds: seq<Round>, id: string) {
    rounds == [] ||
    var listed, r := WorldListed(c, w, rounds), rounds[|rounds| - 1];
    && Holding(c, w, rounds[..|rounds| - 1], id)
    && Sees(c, listed, r) && HeldSuspended(c, listed, id) && NotReady(c, listed, r, id)
  }

  function CallsOfLast(c: Config, w: World, rounds: seq<Round>): seq<Op>
    requires rounds != []
  {
    var r := rounds[|rounds| - 1];
    PassEnd(c, WorldListed(c, w, rounds), r.seen, r.script, r.cold, r.vanished).calls
  }

  /** The passes that delete the session's pod. */
  function Deletions(c: Config, w: World, rounds: seq<Round>, id: string): nat {
    if rounds == [] then 0
    else Deletions(c, w, rounds[..|rounds| - 1], id) + if DeletePod(id) in CallsOfLast(c, w, rounds) then 1 else 0
  }

  /**
   Over any run that holds a suspended session, each pass deletes its pod exactly
   when the recycle loop takes it, and that happens at most once.
   */
  lemma {:induction false} HeldPodLostAtMostOnce(c: Config, w: World, rounds: seq<Round>, id: string)
    requires Holding(c, w, rounds, id)
    ensures Deletions(c, w, rounds, id) <= 1
    ensures Deletions(c, w, rounds, id) == 1 ==> !Unmarked(WorldAfter(c, w, rounds), id)
    ensures rounds != [] ==>
              (DeletePod(id) in CallsOfLast(c, w, rounds)
               <==> TakesPod(c, WorldListed(c, w, rounds), rounds[|rounds| - 1], id))
  {
    hide PassEnd, TakesPod, NotReady, HeldSuspended, Sees;
    if rounds != [] {
      var shorter, r := rounds[..|rounds| - 1], rounds[|rounds| - 1];
      HeldPodLostAtMostOnce(c, w, shorter, id);
      var listed := WorldListed(c, w, rounds);
      InterfereKeepsHandle(c, WorldAfter(c, w, shorter), r.gap);
      DeletedBeforeReady(c, listed, r, id);
      TakenIsUnmarked(c, listed, r, id);
    }
  }

  lemma TakenIsUnmarked(c: Config, w: World, r: Round, id: string)
    ensures TakesPod(c, w, r, id) ==> Unmarked(w, id)
  {
  }

  // --------------------------------------------------------- how it comes about

  function Tock(ready: bool): Tick { Tick([], Works, 0, false, true, None, [], false, ready, true) }

  /** A pod that runs without having restored from its pin. */
  function ColdPod(id: string): Pod {
    Pod(id, 0, None, false, [], Some("pin"), [], Some(PodStatus(Some("Running"), [], [], [])))
  }

  function SuspendedRow(c: Config, id: string): Session {
    Session(id, Some(1), ImageSpec(None, false), false, Claimed, Some(c.us), None, Suspended)
  }

  function ColdWorld(c: Config, id: string): World {
    World(map[id := SuspendedRow(c, id)], map[id := ColdPod(id)], map[id := None], {}, map[], 1)
  }

  function ColdView(c: Config, id: string, pods: map<string, Pod>): Observed {
    Observed([SuspendedRow(c, id)], pods, [], c.us, 1, 5, 600, 60, c.container, c.desiredImage, c.buildImage, 0)
  }

  lemma PlansItsSuspend(c: Config, id: string, pods: map<string, Pod>)
    ensures PlanOf(ColdView(c, id, pods)) == [Suspend(id)]
  {
    var o, row := ColdView(c, id, pods), SuspendedRow(c, id);
    assert o.sessions == [row] && [row][..0] == [];
    assert AllOwn(o, []) == [] && OwnActions(o, row) == [Suspend(id)];
    assert AllOwn(o, o.sessions) == [Suspend(id)] && AllStale(o, o.sessions) == [];
    assert ClaimableOf(o.sessions) == [];
    LimitRespected(o);
    assert Chosen(o) == [];
    assert Planner.Claims([]) == [] && Orphans([]) == [];
  }

  lemma SnapshotInProgress(c: Config, id: string, s: Pass, rest: seq<Tick>)
    requires s.world == ColdWorld(c, id) && s.pods == s.world.pods && s.script == [Tock(false)] + rest
    ensures var t := RunJob(c, s, Run(Suspend(id), Some(ColdPod(id))));
            && t.calls == s.calls + [TakeSnapshot(id)] && t.script == rest && t.pods == s.pods
            && t.world == s.world.(artifacts := {id})
  {
    hide Exec, Completed, Hurries;
    var job := Run(Suspend(id), Some(ColdPod(id)));
    assert [] + [Snapshot(false)] == [Snapshot(false)] && Next(c, job, [Snapshot(false)]) == None;
    var after := Undisturbed(c, s.world, job, [], TakeSnapshot(id), Tock(false), rest);
    Halts(c, after, job, [Snapshot(false)], rest);
    assert !Forgets(job, [Snapshot(false)]);
    assert s.world.artifacts + {id} == {id};
  }

  lemma ThreeWorkingCalls(c: Config, w: World, id: string)
    requires id in w.pods && Unmarked(w, id)
    ensures var t := Tock(true); var end := Exec(c, w, Recycle(id), [], [t, t, t]);
            && end.calls == [ReadSecret(id), MarkSecret(id, WithPin), DeletePod(id)] && end.rest == []
            && end.world == w.(pods := w.pods - {id}, secrets := w.secrets[id := Some(WithPin)])
  {
    hide Exec, Next;
    var job, t := Recycle(id), Tock(true);
    var h1, h2, h3 := [Secret(true, None)], [Secret(true, None), Done], [Secret(true, None), Done, Done];
    RecycleSteps(c, id);
    var w1 := Undisturbed(c, w, job, [], ReadSecret(id), t, [t, t]);
    assert [] + [Secret(true, None)] == h1 && [t] + [t, t] == [t, t, t];
    var w2 := Undisturbed(c, w1, job, h1, MarkSecret(id, WithPin), t, [t]);
    assert h1 + [Done] == h2 && [t] + [t] == [t, t];
    var w3 := Undisturbed(c, w2, job, h2, DeletePod(id), t, []);
    assert h2 + [Done] == h3 && [t] + [] == [t];
    Halts(c, w3, job, h3, []);
  }

  lemma RecycleSteps(c: Config, id: string)
    ensures Next(c, Recycle(id), []) == Some(ReadSecret(id))
    ensures Next(c, Recycle(id), [Secret(true, None)]) == Some(MarkSecret(id, WithPin))
    ensures Next(c, Recycle(id), [Secret(true, None), Done]) == Some(DeletePod(id))
    ensures Next(c, Recycle(id), [Secret(true, None), Done, Done]) == None
  {
  }

  lemma RecycledMeanwhile(c: Config, id: string, s: Pass)
    requires s.world == ColdWorld(c, id).(artifacts := {id}) && s.script == [Tock(true), Tock(true), Tock(true)]
    ensures var t := RunJob(c, s, Recycle(id));
            && t.calls == s.calls + [ReadSecret(id), MarkSecret(id, WithPin), DeletePod(id)]
            && t.world == s.world.(pods := map[], secrets := map[id := Some(WithPin)]) && t.script == []
  {
    hide Exec, VerdictOf, Hurries, PodsAfter;
    ThreeWorkingCalls(c, s.world, id);
    assert s.world.pods - {id} == map[] && s.world.secrets[id := Some(WithPin)] == map[id := Some(WithPin)];
  }

  /** A round that finds the session like this: the snapshot is in progress, and every call works. */
  function ColdRound(c: Config, id: string): Round {
    Round([], ColdView(c, id, ColdWorld(c, id).pods), [Tock(false), Tock(true), Tock(true), Tock(true)], [id], Some([]))
  }

  lemma ColdActed(c: Config, id: string)
    ensures var acted := Acted(c, ColdWorld(c, id), ColdRound(c, id)); var w := ColdWorld(c, id);
            && acted.calls == [TakeSnapshot(id)] && acted.script == [Tock(true), Tock(true), Tock(true)]
            && acted.pods == w.pods && acted.world == w.(artifacts := {id})
    ensures NotReady(c, ColdWorld(c, id), ColdRound(c, id), id)
  {
    hide PlanOf, RunJob;
    var w, r := ColdWorld(c, id), ColdRound(c, id);
    var s, plan, rest := Begun(w, w.pods, r.script), [Suspend(id)], [Tock(true), Tock(true), Tock(true)];
    PlansItsSuspend(c, id, w.pods);
    assert r.script == [Tock(false)] + rest;
    assert plan[..0] == [] && RunActions(c, s, plan[..0]) == s && PodOf(s.pods, Suspend(id)) == Some(ColdPod(id));
    SnapshotInProgress(c, id, s, rest);
    SnapshotAnswers(c, id, s, rest);
    assert RunActions(c, s, plan) == RunJob(c, s, Run(Suspend(id), Some(ColdPod(id))));
  }

  lemma SnapshotAnswers(c: Config, id: string, s: Pass, rest: seq<Tick>)
    requires s.world == ColdWorld(c, id) && s.script == [Tock(false)] + rest
    ensures Exec(c, s.world, Run(Suspend(id), Some(ColdPod(id))), [], s.script).answers == [Snapshot(false)]
  {
    hide Exec;
    var job := Run(Suspend(id), Some(ColdPod(id)));
    assert [] + [Snapshot(false)] == [Snapshot(false)] && Next(c, job, [Snapshot(false)]) == None;
    var after := Undisturbed(c, s.world, job, [], TakeSnapshot(id), Tock(false), rest);
    Halts(c, after, job, [Snapshot(false)], rest);
  }

  lemma ColdRecycled(c: Config, id: string)
    ensures var t, w := Recycled(c, ColdWorld(c, id), ColdRound(c, id)), ColdWorld(c, id);
            && t.calls == [TakeSnapshot(id), ReadSecret(id), MarkSecret(id, WithPin), DeletePod(id)]
            && t.world == w.(artifacts := {id}, pods := map[], secrets := map[id := Some(WithPin)])
    ensures ScriptFor(c, ColdWorld(c, id), ColdRound(c, id), id) == [Tock(true), Tock(true), Tock(true)]
  {
    hide RunActions, RunJob;
    var w, r := ColdWorld(c, id), ColdRound(c, id);
    ColdActed(c, id);
    var acted := Acted(c, w, r);
    assert r.cold[..0] == [] && IndexOf(r.cold, id) == 0 && RunRecycles(c, acted, acted.pods, r.cold[..0]) == acted;
    assert NeedsRecycle(acted.pods[id]);
    RecycledMeanwhile(c, id, acted);
    assert Recycled(c, w, r) == RunJob(c, acted, Recycle(id));
  }

  lemma ColdIsSeen(c: Config, id: string)
    ensures Sees(c, ColdWorld(c, id), ColdRound(c, id)) && TakesPod(c, ColdWorld(c, id), ColdRound(c, id), id)
  {
    hide RunActions, RunRecycles;
    var w, r := ColdWorld(c, id), ColdRound(c, id);
    ColdActed(c, id);
    ColdRecycled(c, id);
    ColdIsObserved(c, id);
    assert NeedsRecycle(w.pods[id]);
    assert IsListed(r.seen, id) by { assert SuspendedRow(c, id) in r.seen.sessions; }
  }

  lemma ColdIsObserved(c: Config, id: string)
    ensures Observes(c, ColdWorld(c, id), ColdView(c, id, ColdWorld(c, id).pods))
  {
  }

  /**
   A suspended session with a cold-started pod: its plan is its suspension, the
   snapshot answers in progress, and the recycle loop of that pass deletes the
   pod. The next pass, finding none, suspends it without a snapshot.
   */
  lemma RecycleLosesHeldPod(c: Config, id: string)
    ensures var w, r := ColdWorld(c, id), ColdRound(c, id);
            var end := PassEnd(c, w, r.seen, r.script, r.cold, r.vanished);
            && Sees(c, w, r) && HeldSuspended(c, w, id) && NotReady(c, w, r, id) && TakesPod(c, w, r, id)
            && PlanOf(r.seen) == [Suspend(id)]
            && end.calls == [TakeSnapshot(id), ReadSecret(id), MarkSecret(id, WithPin), DeletePod(id)]
            && id !in end.world.pods
    ensures PlanOf(ColdView(c, id, map[])) == [Suspend(id)]
    ensures Next(c, Run(Suspend(id), None), []) == Some(DeletePod(id))
    ensures Next(c, Run(Suspend(id), None), [Gone, Done]) == Some(ReleaseRow(id))
  {
    hide PlanOf, RunActions, RunRecycles, TakesPod, NotReady, Sees;
    PlansItsSuspend(c, id, ColdWorld(c, id).pods);
    PlansItsSuspend(c, id, map[]);
    ColdActed(c, id);
    ColdRecycled(c, id);
    ColdIsSeen(c, id);
  }
}
