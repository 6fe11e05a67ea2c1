/**
 State volumes kept across suspends (src/snapshot/filesystem.rs), and their
 collection after a time-to-live. Instants are in milliseconds.
 */
module Volumes {
  import opened Basics
  import opened Cluster

  /** `cloned` from the pool's data source, or created empty; `mark` is the suspended-at annotation. */
  datatype Volume = Volume(cloned: bool, mark: Option<int>)

  const I64_LIMIT := 0x8000_0000_0000_0000

  /** The time-to-live as the source compares it: 64 unsigned bits read as signed. */
  function Signed(ttl: nat): int {
    var low := ttl % (2 * I64_LIMIT);
    if low < I64_LIMIT then low else low - 2 * I64_LIMIT
  }

  /** Whole seconds, toward zero. */
  function WholeSeconds(ms: int): int { if ms >= 0 then ms / 1000 else -((-ms) / 1000) }

  predicate Expired(v: Volume, now: int, ttl: nat) { v.mark.Some? && WholeSeconds(now - v.mark.value) >= Signed(ttl) }

  /**
   `prepare`: the volume exists and is not marked; the answer says whether its
   home may still need seeding. `raced`: someone else creates it first.
   */
  function PrepareOf(vs: map<string, Volume>, id: string, ownImage: bool, hasSource: bool, raced: bool, faults: seq<Fault>)
    : (r: (map<string, Volume>, Option<bool>))
  {
    var made := Volume(!ownImage, None);
    if FaultOf(faults, 0) != Works then (vs, None)
    else if id in vs then
      if vs[id].mark.None? then (vs, Some(!vs[id].cloned))
      else (if FaultOf(faults, 1) == Unsent then vs else vs[id := vs[id].(mark := None)],
            if FaultOf(faults, 1) == Works then Some(!vs[id].cloned) else None)
    else if !ownImage && !hasSource then (vs, None)
    else
      (if raced || FaultOf(faults, 1) != Unsent then vs[id := made] else vs,
       if FaultOf(faults, 1) == Works && (raced ==> FaultOf(faults, 2) == Works) then Some(ownImage) else None)
  }

  function SuspendOf(vs: map<string, Volume>, id: string, now: int, fault: Fault): map<string, Volume> {
    if fault == Unsent || id !in vs then vs else vs[id := vs[id].(mark := Some(now))]
  }

  function TerminateOf(vs: map<string, Volume>, id: string, fault: Fault): map<string, Volume> {
    if fault == Unsent then vs else vs - {id}
  }

  /** The collector visits the listed volumes in order and stops at the first failing deletion. */
  function CollectOf(vs: map<string, Volume>, listed: map<string, Volume>, order: seq<string>, now: int, ttl: nat, faults: seq<Fault>)
    : (r: (map<string, Volume>, bool))
    decreases |order|
  {
    if order == [] then (vs, true)
    else if order[0] !in listed || !Expired(listed[order[0]], now, ttl) then
      CollectOf(vs, listed, order[1..], now, ttl, faults)
    else if FaultOf(faults, 0) != Works then
      (if FaultOf(faults, 0) == Unsent then vs else vs - {order[0]}, false)
    else CollectOf(vs - {order[0]}, listed, order[1..], now, ttl, faults[1..])
  }

  class FilesystemProvider {
    var volumes: map<string, Volume>

    constructor ()
      ensures volumes == map[]
    {
      volumes := map[];
    }

    method Prepare(id: string, ownImage: bool, hasSource: bool, raced: bool, faults: seq<Fault>) returns (seedHome: Option<bool>)
      modifies this
      ensures (volumes, seedHome) == PrepareOf(old(volumes), id, ownImage, hasSource, raced, faults)
      ensures seedHome.Some? ==> id in volumes && volumes[id].mark.None? && seedHome.value == !volumes[id].cloned
      ensures id in old(volumes) ==> id in volumes && volumes[id].cloned == old(volumes)[id].cloned
      ensures id !in old(volumes) && id in volumes ==> volumes[id] == Volume(!ownImage, None) && (ownImage || hasSource)
      ensures AllWork(faults) && |faults| >= 3 ==> (seedHome.Some? <==> id in old(volumes) || ownImage || hasSource)
      ensures seedHome.Some? ==> FaultOf(faults, 0) == Works
      ensures seedHome.Some? && (id in old(volumes) ==> old(volumes)[id].mark.Some?) ==> FaultOf(faults, 1) == Works
      ensures seedHome.Some? && id !in old(volumes) && raced ==> FaultOf(faults, 2) == Works
      ensures forall x :: x != id ==> (x in volumes <==> x in old(volumes)) && (x in volumes ==> volumes[x] == old(volumes)[x])
    {
      if FaultOf(faults, 0) != Works { return None; }
      if id in volumes {
        var existing := volumes[id];
        if existing.mark.Some? {
          if FaultOf(faults, 1) != Unsent { volumes := volumes[id := existing.(mark := None)]; }
          if FaultOf(faults, 1) != Works { return None; }
        }
        return Some(!existing.cloned);
      }
      if !ownImage && !hasSource { return None; }
      if raced || FaultOf(faults, 1) != Unsent { volumes := volumes[id := Volume(!ownImage, None)]; }
      if FaultOf(faults, 1) != Works { return None; }
      if raced && FaultOf(faults, 2) != Works { return None; }
      seedHome := Some(!volumes[id].cloned);
    }

    method OnSuspend(id: string, now: int, fault: Fault) returns (ready: bool)
      modifies this
      ensures volumes == SuspendOf(old(volumes), id, now, fault) && (ready <==> fault == Works && id in old(volumes))
      ensures ready ==> id in volumes && volumes[id].mark == Some(now) && forall ttl: nat :: 0 < ttl < I64_LIMIT ==> !Expired(volumes[id], now, ttl)
      ensures volumes.Keys == old(volumes).Keys && forall x <- volumes :: volumes[x].cloned == old(volumes)[x].cloned
    {
      if fault != Unsent && id in volumes { volumes := volumes[id := volumes[id].(mark := Some(now))]; }
      ready := fault == Works && id in volumes;
    }

    method OnTerminate(id: string, fault: Fault) returns (ok: bool)
      modifies this
      ensures volumes == TerminateOf(old(volumes), id, fault) && (ok <==> fault == Works)
      ensures ok ==> id !in volumes
      ensures forall x :: x != id ==> (x in volumes <==> x in old(volumes)) && (x in volumes ==> volumes[x] == old(volumes)[x])
    {
      if fault != Unsent { volumes := volumes - {id}; }
      ok := fault == Works;
    }

    /** Delete the volumes suspended longer than the time-to-live, if there is one. */
    method Gc(order: seq<string>, now: int, ttl: Option<nat>, faults: seq<Fault>) returns (ok: bool)
      modifies this
      ensures ttl.None? ==> volumes == old(volumes) && ok
      ensures ttl.Some? ==> (volumes, ok) == CollectOf(old(volumes), old(volumes), order, now, ttl.value, faults)
      ensures ttl.Some? && ok ==>
                forall id <- order :: id in old(volumes) && Expired(old(volumes)[id], now, ttl.value) ==> id !in volumes
    {
      if ttl.None? { return true; }
      EndsCollected(volumes, order, now, ttl.value, faults);
      var listed := volumes;
      var left := faults;
      ghost var whole := CollectOf(volumes, listed, order, now, ttl.value, faults);
      for i := 0 to |order|
        invariant CollectOf(volumes, listed, order[i..], now, ttl.value, left) == whole
      {
        assert order[i..][1..] == order[i + 1..];
        if order[i] in listed && Expired(listed[order[i]], now, ttl.value) {
          if FaultOf(left, 0) != Unsent { volumes := volumes - {order[i]}; }
          if FaultOf(left, 0) != Works { return false; }
          left := left[1..];
        }
      }
      ok := true;
    }
  }

  // --------------------------------------------------------------- over runs

  datatype Step =
    | Prepare(id: string, ownImage: bool, hasSource: bool, raced: bool, faults: seq<Fault>)
    | Suspend(id: string, now: int, fault: Fault)
    | Terminate(id: string, fault: Fault)
    | Gc(order: seq<string>, now: int, ttl: Option<nat>, faults: seq<Fault>)
    | Removed(id: string)                         // by someone else

  function Do(vs: map<string, Volume>, s: Step): map<string, Volume> {
    match s
    case Prepare(id, ownImage, hasSource, raced, faults) => PrepareOf(vs, id, ownImage, hasSource, raced, faults).0
    case Suspend(id, now, fault) => SuspendOf(vs, id, now, fault)
    case Terminate(id, fault) => TerminateOf(vs, id, fault)
    case Gc(order, now, ttl, faults) => if ttl.None? then vs else CollectOf(vs, vs, order, now, ttl.value, faults).0
    case Removed(id) => vs - {id}
  }

  function After(steps: seq<Step>): map<string, Volume> {
    if steps == [] then map[] else Do(After(steps[..|steps| - 1]), steps[|steps| - 1])
  }

  /** The step's own write set the volume's mark. */
  predicate Marks(vs: map<string, Volume>, s: Step, id: string) {
    s.Suspend? && s.id == id && s.fault != Unsent && id in vs
  }

  /** The step's own write took the mark away, or made the volume: a prepare that finds it unmarked writes nothing. */
  predicate Clears(vs: map<string, Volume>, s: Step, id: string) {
    && s.Prepare? && s.id == id && FaultOf(s.faults, 0) == Works
    && (if id in vs then vs[id].mark.Some? && FaultOf(s.faults, 1) != Unsent
        else (s.ownImage || s.hasSource) && (s.raced || FaultOf(s.faults, 1) != Unsent))
  }

  /** When the last step to write the mark of `id` was a suspend, its time. */
  function LastMark(steps: seq<Step>, id: string): Option<int> {
    if steps == [] then None
    else
      var before, s := steps[..|steps| - 1], steps[|steps| - 1];
      if Marks(After(before), s, id) then Some(s.now)
      else if Clears(After(before), s, id) then None
      else LastMark(before, id)
  }

  lemma {:induction false} CollectOnlyRemoves(vs: map<string, Volume>, listed: map<string, Volume>, order: seq<string>,
                                              now: int, ttl: nat, faults: seq<Fault>, id: string)
    ensures var after := CollectOf(vs, listed, order, now, ttl, faults).0;
            if id in vs then (id in after && after[id] == vs[id]) || (id !in after && id in listed && Expired(listed[id], now, ttl))
            else id !in after
    decreases |order|
  {
    hide Expired;
    if order != [] {
      if order[0] !in listed || !Expired(listed[order[0]], now, ttl) {
        CollectOnlyRemoves(vs, listed, order[1..], now, ttl, faults, id);
      } else if FaultOf(faults, 0) == Works {
        CollectOnlyRemoves(vs - {order[0]}, listed, order[1..], now, ttl, faults[1..], id);
      }
    }
  }

  /** A volume's mark is what the last step to write it left. */
  lemma {:induction false} MarkIsLastWrite(steps: seq<Step>, id: string)
    requires id in After(steps)
    ensures After(steps)[id].mark == LastMark(steps, id)
  {
    hide Expired;
    if steps != [] {
      var before, s := steps[..|steps| - 1], steps[|steps| - 1];
      if id in After(before) { MarkIsLastWrite(before, id); }
      if s.Gc? && s.ttl.Some? { CollectOnlyRemoves(After(before), After(before), s.order, s.now, s.ttl.value, s.faults, id); }
    }
  }

  /** A time-to-live within 63 bits is compared as it is. */
  lemma ExpiredIsOldEnough(v: Volume, now: int, ttl: nat)
    requires ttl < I64_LIMIT && Expired(v, now, ttl)
    ensures v.mark.Some? && (ttl > 0 || now >= v.mark.value ==> now - v.mark.value >= 1000 * ttl)
  {
  }

  /**
   Over any run, whatever calls failed, the collector deletes a volume only if
   its mark was last written by a suspend, at least the time-to-live ago: never
   one that was prepared since.
   */
  lemma CollectsOnlyOldSuspended(steps: seq<Step>, order: seq<string>, now: int, ttl: nat, faults: seq<Fault>, id: string)
    requires ttl < I64_LIMIT && id in After(steps)
    requires id !in Do(After(steps), Gc(order, now, Some(ttl), faults))
    ensures LastMark(steps, id).Some?
    ensures ttl > 0 || now >= LastMark(steps, id).value ==> now - LastMark(steps, id).value >= 1000 * ttl
  {
    MarkIsLastWrite(steps, id);
    CollectOnlyRemoves(After(steps), After(steps), order, now, ttl, faults, id);
    ExpiredIsOldEnough(After(steps)[id], now, ttl);
  }

  /** A successful prepare leaves the volume in place and out of the collector's reach. */
  lemma PreparedIsSpared(vs: map<string, Volume>, s: Step, gc: Step, id: string)
    requires s.Prepare? && s.id == id && PrepareOf(vs, id, s.ownImage, s.hasSource, s.raced, s.faults).1.Some? && gc.Gc?
    ensures id in Do(vs, s) && id in Do(Do(vs, s), gc) && Do(Do(vs, s), gc)[id] == Do(vs, s)[id]
  {
    var mid := Do(vs, s);
    if gc.ttl.Some? { CollectOnlyRemoves(mid, mid, gc.order, gc.now, gc.ttl.value, gc.faults, id); }
  }

  /**
   The collector waits out the time-to-live exactly when it fits 63 bits: read
   as signed, a longer one is negative, and a volume just suspended is deleted.
   */
  lemma WaitsExactlyWhenSigned(ttl: nat)
    requires ttl < 2 * I64_LIMIT
    ensures (forall v: Volume, now: int :: Expired(v, now, ttl) && now >= v.mark.value ==> now - v.mark.value >= 1000 * ttl)
            <==> ttl < I64_LIMIT
  {
    if ttl < I64_LIMIT {
      forall v: Volume, now: int | Expired(v, now, ttl) && now >= v.mark.value
        ensures now - v.mark.value >= 1000 * ttl
      {
        ExpiredIsOldEnough(v, now, ttl);
      }
    } else {
      assert Expired(Volume(false, Some(0)), 0, ttl);
    }
  }

  predicate AllWork(faults: seq<Fault>) { forall i :: 0 <= i < |faults| ==> faults[i] == Works }

  /** With every call working, the collection ends without an error and every expired volume visited is gone. */
  lemma CollectsAllExpired(vs: map<string, Volume>, listed: map<string, Volume>, order: seq<string>,
                           now: int, ttl: nat, faults: seq<Fault>, id: string)
    requires AllWork(faults) && |faults| >= |order|
    requires id in listed && Expired(listed[id], now, ttl) && id in order
    ensures CollectOf(vs, listed, order, now, ttl, faults).1 && id !in CollectOf(vs, listed, order, now, ttl, faults).0
  {
    CollectGoesOn(vs, listed, order, now, ttl, faults);
    AnsweredCollectsAll(vs, listed, order, now, ttl, faults, id);
  }

  lemma EndsCollected(vs: map<string, Volume>, order: seq<string>, now: int, ttl: nat, faults: seq<Fault>)
    ensures var (after, ok) := CollectOf(vs, vs, order, now, ttl, faults);
            ok ==> forall id <- order :: id in vs && Expired(vs[id], now, ttl) ==> id !in after
  {
    hide Expired, CollectOf;
    if CollectOf(vs, vs, order, now, ttl, faults).1 {
      forall id | id in order && id in vs && Expired(vs[id], now, ttl)
        ensures id !in CollectOf(vs, vs, order, now, ttl, faults).0
      {
        AnsweredCollectsAll(vs, vs, order, now, ttl, faults, id);
      }
    }
  }

  /** Whenever it ends without an error, every expired volume visited is gone. */
  lemma {:induction false} AnsweredCollectsAll(vs: map<string, Volume>, listed: map<string, Volume>, order: seq<string>,
                                               now: int, ttl: nat, faults: seq<Fault>, id: string)
    requires CollectOf(vs, listed, order, now, ttl, faults).1
    requires id in listed && Expired(listed[id], now, ttl) && id in order
    ensures id !in CollectOf(vs, listed, order, now, ttl, faults).0
    decreases |order|
  {
    hide Expired;
    if order[0] == id {
      CollectOnlyRemoves(vs - {id}, listed, order[1..], now, ttl, faults[1..], id);
    } else if order[0] !in listed || !Expired(listed[order[0]], now, ttl) {
      AnsweredCollectsAll(vs, listed, order[1..], now, ttl, faults, id);
    } else {
      AnsweredCollectsAll(vs - {order[0]}, listed, order[1..], now, ttl, faults[1..], id);
    }
  }

  /** Within 63 bits, what has been marked for the time-to-live goes; with `listed` read at the start, as the collector does. */
  lemma CollectsOldEnough(vs: map<string, Volume>, order: seq<string>, now: int, ttl: nat, faults: seq<Fault>, id: string)
    requires AllWork(faults) && |faults| >= |order| && ttl < I64_LIMIT
    requires id in vs && id in order && vs[id].mark.Some? && now - vs[id].mark.value >= 1000 * ttl
    ensures CollectOf(vs, vs, order, now, ttl, faults).1 && id !in CollectOf(vs, vs, order, now, ttl, faults).0
  {
    assert Expired(vs[id], now, ttl);
    CollectsAllExpired(vs, vs, order, now, ttl, faults, id);
  }

  lemma {:induction false} CollectGoesOn(vs: map<string, Volume>, listed: map<string, Volume>, order: seq<string>,
                                         now: int, ttl: nat, faults: seq<Fault>)
    requires AllWork(faults) && |faults| >= |order|
    ensures CollectOf(vs, listed, order, now, ttl, faults).1
    decreases |order|
  {
    hide Expired;
    if order != [] {
      if order[0] !in listed || !Expired(listed[order[0]], now, ttl) {
        CollectGoesOn(vs, listed, order[1..], now, ttl, faults);
      } else {
        CollectGoesOn(vs - {order[0]}, listed, order[1..], now, ttl, faults[1..]);
      }
    }
  }
}
