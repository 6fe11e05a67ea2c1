/**
 When a pass writes the pool's status (src/controller/reconcile.rs), and what the
 write leaves stored: a JSON merge patch (RFC 7396) in which absent options stay
 as they were. Reading a timestamp is a parameter; instants in milliseconds.
 */
module StatusWrites {
  import opened Basics

  datatype Condition = Condition(kind: string, status: string, reason: Option<string>, message: Option<string>,
                                 lastTransition: Option<string>)

  datatype PoolStatus = PoolStatus(phase: Option<string>, claimed: nat, lastSynced: Option<string>,
                                   cursor: Option<string>, conditions: seq<Condition>)

  /** Equal up to the timestamp. */
  predicate SameState(a: Condition, b: Condition) {
    a.kind == b.kind && a.status == b.status && a.reason == b.reason && a.message == b.message
  }

  /** The first condition in the same state; |cs| when there is none. */
  function FindSame(cs: seq<Condition>, c: Condition): (k: nat)
    ensures k <= |cs| && (k < |cs| ==> SameState(cs[k], c)) && forall j :: 0 <= j < k ==> !SameState(cs[j], c)
  {
    if cs == [] || SameState(cs[0], c) then 0
    else assert forall j :: 1 <= j < |cs| ==> cs[j] == cs[1..][j - 1]; 1 + FindSame(cs[1..], c)
  }

  function Carried(prior: seq<Condition>, c: Condition): Condition {
    var k := FindSame(prior, c);
    if k < |prior| then c.(lastTransition := prior[k].lastTransition) else c
  }

  function CarriedAll(prior: seq<Condition>, cs: seq<Condition>): (r: seq<Condition>)
    ensures |r| == |cs| && forall i :: 0 <= i < |cs| ==> r[i] == Carried(prior, cs[i])
  {
    seq(|cs|, i requires 0 <= i < |cs| => Carried(prior, cs[i]))
  }

  /** Unreadable or absent counts as stale. */
  predicate Stale(parse: string -> Option<int>, lastSynced: Option<string>, now: int, refresh: nat) {
    lastSynced.None? || parse(lastSynced.value).None? || now - parse(lastSynced.value).value >= refresh
  }

  function PatchOf(parse: string -> Option<int>, prior: Option<PoolStatus>, status: PoolStatus, now: int, refresh: nat)
    : Option<PoolStatus>
  {
    if prior.None? then Some(status)
    else
      var carried := status.(conditions := CarriedAll(prior.value.conditions, status.conditions));
      if carried.(lastSynced := prior.value.lastSynced) != prior.value then Some(carried)
      else if carried.lastSynced == prior.value.lastSynced then None
      else if Stale(parse, prior.value.lastSynced, now, refresh) then Some(carried)
      else None
  }

  /** Conditions in a state they were in before get back their old time. */
  method CarryOver(previous: seq<Condition>, found: seq<Condition>) returns (conditions: seq<Condition>)
    ensures conditions == CarriedAll(previous, found)
  {
    conditions := found;
    for i := 0 to |conditions|
      invariant |conditions| == |found|
      invariant forall j :: 0 <= j < i ==> conditions[j] == Carried(previous, found[j])
      invariant forall j :: i <= j < |conditions| ==> conditions[j] == found[j]
    {
      var k := 0;
      while k < |previous| && !SameState(previous[k], conditions[i])
        invariant k <= |previous|
        invariant forall j :: 0 <= j < k ==> !SameState(previous[j], conditions[i])
      {
        k := k + 1;
      }
      assert k == FindSame(previous, conditions[i]);
      if k < |previous| {
        conditions := conditions[i := conditions[i].(lastTransition := previous[k].lastTransition)];
      }
    }
    assert conditions == CarriedAll(previous, found);
  }

  /** Decides whether to write at all, after giving unchanged conditions their old time. */
  method PrepareStatusPatch(parse: string -> Option<int>, prior: Option<PoolStatus>, status: PoolStatus, now: int, refresh: nat)
    returns (patch: Option<PoolStatus>)
    ensures patch == PatchOf(parse, prior, status, now, refresh)
    ensures prior.Some? && FoundOtherwise(prior.value, status) ==> patch.Some?
  {
    hide CarriedAll, FoundOtherwise;
    if prior.None? { return Some(status); }
    var previous := prior.value;
    if FoundOtherwise(previous, status) { NewFindingsAreWritten(parse, previous, status, now, refresh); }
    var conditions := CarryOver(previous.conditions, status.conditions);
    var carried := status.(conditions := conditions);
    var comparable := carried.(lastSynced := previous.lastSynced);
    if comparable != previous { return Some(carried); }
    if carried.lastSynced == previous.lastSynced { return None; }
    if Stale(parse, previous.lastSynced, now, refresh) { return Some(carried); }
    patch := None;
  }

  function Either<T>(patch: Option<T>, prior: Option<T>): Option<T> { if patch.Some? then patch else prior }

  /** What is stored after the patch: absent options, and an empty list of conditions, leave the old value. */
  function Merged(prior: Option<PoolStatus>, patch: PoolStatus): PoolStatus {
    if prior.None? then patch
    else
      PoolStatus(Either(patch.phase, prior.value.phase), patch.claimed, Either(patch.lastSynced, prior.value.lastSynced),
                 Either(patch.cursor, prior.value.cursor),
                 if patch.conditions == [] then prior.value.conditions else patch.conditions)
  }

  /** Something the new status leaves out was there before. */
  predicate LeavesOut(prior: Option<PoolStatus>, status: PoolStatus) {
    prior.Some?
    && ((status.phase.None? && prior.value.phase.Some?) || (status.cursor.None? && prior.value.cursor.Some?)
        || (status.conditions == [] && prior.value.conditions != []))
  }

  /** Equal up to the timestamps. */
  predicate SameFindings(a: PoolStatus, b: PoolStatus) {
    && a.phase == b.phase && a.claimed == b.claimed && a.cursor == b.cursor && |a.conditions| == |b.conditions|
    && forall i :: 0 <= i < |a.conditions| ==> SameState(a.conditions[i], b.conditions[i])
  }

  predicate Distinct(cs: seq<Condition>) { forall i, j :: 0 <= i < j < |cs| ==> !SameState(cs[i], cs[j]) }

  /** Carrying over from a list in the same states gives that list back. */
  lemma CarriesBack(cs: seq<Condition>, again: seq<Condition>)
    requires Distinct(cs) && |cs| == |again| && forall i :: 0 <= i < |cs| ==> SameState(cs[i], again[i])
    ensures CarriedAll(cs, again) == cs
  {
    forall i | 0 <= i < |cs| ensures Carried(cs, again[i]) == cs[i] {
      var k := FindSame(cs, again[i]);
      assert k <= i;
      assert k == i;
    }
  }

  lemma CarriedKeepsStates(prior: seq<Condition>, cs: seq<Condition>)
    ensures forall i :: 0 <= i < |cs| ==> SameState(CarriedAll(prior, cs)[i], cs[i])
    ensures Distinct(cs) ==> Distinct(CarriedAll(prior, cs))
  {
    var r := CarriedAll(prior, cs);
    assert forall i :: 0 <= i < |cs| ==> r[i] == Carried(prior, cs[i]);
  }

  /** What a stored patch compares to when the same findings come again. */
  lemma StoredConditions(prior: Option<PoolStatus>, status: PoolStatus, patch: PoolStatus, again: PoolStatus)
    requires SameFindings(status, again) && Distinct(status.conditions) && !LeavesOut(prior, status)
    requires patch == if prior.None? then status else status.(conditions := CarriedAll(prior.value.conditions, status.conditions))
    ensures var stored := Merged(prior, patch); again.(conditions := CarriedAll(stored.conditions, again.conditions),
                                                    lastSynced := stored.lastSynced) == stored
  {
    var stored := Merged(prior, patch);
    if prior.Some? { CarriedKeepsStates(prior.value.conditions, status.conditions); }
    if status.conditions != [] {
      assert stored.conditions == patch.conditions;
      CarriesBack(stored.conditions, again.conditions);
    } else {
      assert stored.conditions == [];
    }
  }

  /** Which parts of the status a pass has found out differently. */
  predicate FoundOtherwise(a: PoolStatus, b: PoolStatus) {
    || a.phase != b.phase || a.claimed != b.claimed || a.cursor != b.cursor || |a.conditions| != |b.conditions|
    || exists i :: 0 <= i < |a.conditions| == |b.conditions|
         && var c, d := a.conditions[i], b.conditions[i];
            c.kind != d.kind || c.status != d.status || c.reason != d.reason || c.message != d.message
  }

  lemma FoundOtherwiseMeans(a: PoolStatus, b: PoolStatus)
    ensures FoundOtherwise(a, b) <==> !SameFindings(a, b)
  {
    if SameFindings(a, b) {
      assert forall i :: 0 <= i < |a.conditions| ==> SameState(a.conditions[i], b.conditions[i]);
    }
  }

  lemma SameWhenComparable(prior: PoolStatus, status: PoolStatus)
    requires status.(conditions := CarriedAll(prior.conditions, status.conditions), lastSynced := prior.lastSynced) == prior
    ensures SameFindings(prior, status)
  {
    hide SameState;
    CarriedKeepsStates(prior.conditions, status.conditions);
  }

  /** Whatever was found out differently is written. */
  lemma NewFindingsAreWritten(parse: string -> Option<int>, prior: PoolStatus, status: PoolStatus, now: int, refresh: nat)
    requires FoundOtherwise(prior, status)
    ensures PatchOf(parse, Some(prior), status, now, refresh).Some?
  {
    hide CarriedAll, SameFindings, Stale;
    FoundOtherwiseMeans(prior, status);
    if status.(conditions := CarriedAll(prior.conditions, status.conditions), lastSynced := prior.lastSynced) == prior {
      SameWhenComparable(prior, status);
    }
  }

  /**
   A patch is due exactly when something was found out differently, or when
   nothing was but the stored `lastSynced` differs and is missing, unreadable or
   a refresh interval old. It carries every finding of the new status and its
   `lastSynced`, and unless something is left out they are stored as found.
   */
  lemma WrittenExactlyWhen(parse: string -> Option<int>, prior: PoolStatus, status: PoolStatus, now: int, refresh: nat)
    requires Distinct(prior.conditions)
    ensures var patch := PatchOf(parse, Some(prior), status, now, refresh);
            && (patch.Some? <==>
                  || FoundOtherwise(prior, status)
                  || (prior.lastSynced != status.lastSynced
                      && (prior.lastSynced.None? || parse(prior.lastSynced.value).None?
                          || now - parse(prior.lastSynced.value).value >= refresh)))
            && (patch.Some? ==> !FoundOtherwise(patch.value, status) && patch.value.lastSynced == status.lastSynced)
            && (patch.Some? && !LeavesOut(Some(prior), status) ==> !FoundOtherwise(Merged(Some(prior), patch.value), status))
  {
    var patch := PatchOf(parse, Some(prior), status, now, refresh);
    CarriedKeepsStates(prior.conditions, status.conditions);
    if patch.Some? {
      FoundOtherwiseMeans(patch.value, status);
      FoundOtherwiseMeans(Merged(Some(prior), patch.value), status);
    }
    FoundOtherwiseMeans(prior, status);
    if FoundOtherwise(prior, status) {
      NewFindingsAreWritten(parse, prior, status, now, refresh);
    } else {
      CarriesBack(prior.conditions, status.conditions);
    }
  }

  /**
   After a patch is stored, the same findings give no further patch, and so set
   off no further pass, until `lastSynced` is a refresh interval old; exactly
   when the status leaves out nothing that was there before.
   */
  lemma WritesSettle(parse: string -> Option<int>, prior: Option<PoolStatus>, status: PoolStatus, now: int, refresh: nat,
                     again: PoolStatus, later: int)
    requires PatchOf(parse, prior, status, now, refresh).Some? && SameFindings(status, again) && Distinct(status.conditions)
    ensures var stored := Merged(prior, PatchOf(parse, prior, status, now, refresh).value);
            PatchOf(parse, Some(stored), again, later, refresh).None?
            <==> !LeavesOut(prior, status)
                 && (again.lastSynced == stored.lastSynced || !Stale(parse, stored.lastSynced, later, refresh))
  {
    var patch := PatchOf(parse, prior, status, now, refresh).value;
    var stored := Merged(prior, patch);
    if !LeavesOut(prior, status) {
      StoredConditions(prior, status, patch, again);
    } else {
      assert status.conditions == [] && prior.value.conditions != [] ==> |stored.conditions| != |again.conditions|;
    }
  }

  /** A condition's transition time moves only with its state: one in a state it was already in keeps its time. */
  lemma TransitionTimeKept(parse: string -> Option<int>, prior: PoolStatus, status: PoolStatus, now: int, refresh: nat, i: nat, k: nat)
    requires i < |status.conditions| && k < |prior.conditions| && Distinct(prior.conditions)
    requires var c, d := prior.conditions[k], status.conditions[i];
             c.kind == d.kind && c.status == d.status && c.reason == d.reason && c.message == d.message
    ensures var patch := PatchOf(parse, Some(prior), status, now, refresh);
            patch.Some? ==> Merged(Some(prior), patch.value).conditions[i] == prior.conditions[k]
  {
    var n := FindSame(prior.conditions, status.conditions[i]);
    assert n <= k;
    assert n == k;
  }
}
