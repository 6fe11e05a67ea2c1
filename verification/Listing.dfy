/**
 Listing the whole queue (src/api/client.rs) from a server that pages by update
 time (tests/mock_server/mod.rs) while rows keep changing. Instants are in the
 server's own unit; cursors carry them exactly.
 */
module Listing {
  import opened Basics
  import opened Planner

  /** `key` numbers the rows in order of arrival, from 1. */
  datatype Row = Row(key: nat, pool: string, session: Session, updatedAt: int, deleted: bool)

  datatype Edit =
    | Enqueue(pool: string, session: Session)
    | SetStatus(id: string, status: SessionStatus)
    | Tombstone(id: string)
    | Claim(id: string, acceptor: string)
    | Release(id: string, acceptor: string)

  /** Sessions are queued once; no row was changed after the clock. */
  predicate Valid(rows: seq<Row>, clock: int) {
    && (forall i :: 0 <= i < |rows| ==> rows[i].key == i + 1 && rows[i].updatedAt <= clock)
    && (forall i, j :: 0 <= i < j < |rows| ==> rows[i].session.id != rows[j].session.id)
  }

  /** Index of the session's row; |rows| when there is none. */
  function Find(rows: seq<Row>, id: string): (k: nat)
    ensures k <= |rows| && (k < |rows| ==> rows[k].session.id == id)
    ensures forall j :: 0 <= j < k ==> rows[j].session.id != id
  {
    if rows == [] then 0
    else if rows[0].session.id == id then 0
    else assert forall j :: 1 <= j < |rows| ==> rows[j] == rows[1..][j - 1]; 1 + Find(rows[1..], id)
  }

  predicate Expires(r: Row, ts: int) {
    r.session.phase == Claimed && !r.deleted && r.session.deadline.Some? && r.session.deadline.value < ts
    && r.session.status != Running
  }

  function Idle(s: Session): Session { s.(phase := Pending, acceptor := None, deadline := None) }

  function ExpiredRow(r: Row, ts: int): (after: Row)
    ensures after.key == r.key
  {
    if Expires(r, ts) then r.(session := Idle(r.session), updatedAt := ts) else r
  }

  function Expire(rows: seq<Row>, ts: int): (r: seq<Row>)
    ensures |r| == |rows| && forall i :: 0 <= i < |rows| ==> r[i] == ExpiredRow(rows[i], ts)
  {
    seq(|rows|, i requires 0 <= i < |rows| => ExpiredRow(rows[i], ts))
  }

  /** A claim: free, our own, or expired and its session not running. */
  predicate Claimable(s: Session, acceptor: string, ts: int) {
    || s.phase == Pending
    || (s.phase == Claimed && s.acceptor == Some(acceptor))
    || (s.phase == Claimed && s.deadline.Some? && s.deadline.value <= ts && s.status != Running)
  }

  /** The row an edit leaves, if it changes it. */
  function RowAfter(r: Row, e: Edit, ts: int, ttl: nat): (after: Option<Row>)
    ensures after.Some? ==>
              after.value.key == r.key && after.value.session.id == r.session.id && after.value.updatedAt == ts
  {
    match e
    case Enqueue(_, _) => None
    case SetStatus(_, status) => Some(r.(session := r.session.(status := status), updatedAt := ts))
    case Tombstone(_) => Some(r.(deleted := true, updatedAt := ts))
    case Claim(_, acceptor) =>
      if r.deleted || !Claimable(r.session, acceptor, ts) then None
      else Some(r.(session := r.session.(phase := Claimed, acceptor := Some(acceptor), deadline := Some(ts + ttl)), updatedAt := ts))
    case Release(_, acceptor) =>
      if r.deleted || r.session.phase != Claimed || r.session.acceptor != Some(acceptor) then None
      else Some(r.(session := Idle(r.session), updatedAt := ts))
  }

  function Target(e: Edit): string { if e.Enqueue? then e.session.id else e.id }

  function Edited(rows: seq<Row>, e: Edit, ts: int, ttl: nat): seq<Row> {
    var k := Find(rows, Target(e));
    if k < |rows| then
      var after := RowAfter(rows[k], e, ts, ttl);
      if after.Some? then rows[k := after.value] else rows
    else if e.Enqueue? then rows + [Row(|rows| + 1, e.pool, e.session, ts, false)]
    else rows
  }

  // -------------------------------------------------------------- who holds it

  predicate HeldBy(s: Session, who: string) { s.phase == Claimed && s.acceptor == Some(who) }

  /** The claim's deadline is over, and the session is not being served. */
  predicate Lapsed(s: Session, ts: int) {
    s.phase == Claimed && s.deadline.Some? && s.deadline.value <= ts && s.status != Running
  }

  /**
   A row is held by `who` after an edit exactly if a claim of theirs found it free,
   theirs or lapsed, or if it was theirs before and they did not release it and
   nobody else took it lapsed. A claim moves the deadline, nothing else does while
   the row stays held; rows that are no longer queued do not change hands.
   */
  lemma HolderAfterEdit(rows: seq<Row>, clock: int, e: Edit, ts: int, ttl: nat, i: nat, who: string)
    requires Valid(rows, clock) && i < |rows|
    ensures var r, after := rows[i], Edited(rows, e, ts, ttl)[i];
            var s, t := r.session, after.session;
            var claimed := e == Edit.Claim(s.id, who) && !r.deleted && (s.phase == Pending || HeldBy(s, who) || Lapsed(s, ts));
            && (HeldBy(t, who) <==>
                  || claimed
                  || (&& HeldBy(s, who) && (e == Release(s.id, who) ==> r.deleted)
                      && (e.Claim? && e.id == s.id && e.acceptor != who && Lapsed(s, ts) ==> r.deleted)))
            && (HeldBy(t, who) ==> t.deadline == if claimed then Some(ts + ttl) else s.deadline)
            && (t.phase == Pending <==>
                  || (s.phase == Pending && !(e.Claim? && e.id == s.id && !r.deleted))
                  || (s.phase == Claimed && e.Release? && e.id == s.id && s.acceptor == Some(e.acceptor) && !r.deleted))
            && t.status == (if e.SetStatus? && e.id == s.id then e.status else s.status)
            && (after.deleted <==> r.deleted || e == Edit.Tombstone(s.id))
            && after.pool == r.pool && t.spec == s.spec && t.createdAt == s.createdAt && t.restricted == s.restricted
  {
    var k := Find(rows, Target(e));
    assert k < |rows| && k != i ==> rows[k].session.id != rows[i].session.id;
  }

  /** The sweep frees exactly the live claims whose deadline is past and whose session is not running. */
  lemma FreedExactlyWhen(rows: seq<Row>, ts: int, i: nat)
    requires i < |rows|
    ensures var r, after := rows[i], Expire(rows, ts)[i];
            var past := r.session.phase == Claimed && !r.deleted && r.session.deadline.Some?
                        && r.session.deadline.value < ts && r.session.status != Running;
            after == if past then r.(session := r.session.(phase := Pending, acceptor := None, deadline := None), updatedAt := ts) else r
  {
    assert Expire(rows, ts)[i] == ExpiredRow(rows[i], ts);
  }

  /** Whatever changed carries an update time past `clock`. */
  predicate Ahead(rows: seq<Row>, later: seq<Row>, clock: int) {
    && |rows| <= |later|
    && (forall i :: 0 <= i < |rows| ==>
          later[i].session.id == rows[i].session.id && (later[i] == rows[i] || later[i].updatedAt > clock))
    && (forall i :: |rows| <= i < |later| ==> later[i].updatedAt > clock)
  }

  lemma UnchangedIsAhead(rows: seq<Row>, clock: int, ts: int)
    requires Valid(rows, clock) && ts > clock
    ensures Valid(rows, ts) && Ahead(rows, rows, clock)
  {
  }

  lemma ChangeIsAhead(rows: seq<Row>, clock: int, k: nat, r: Row, ts: int)
    requires Valid(rows, clock) && ts > clock && k < |rows|
    requires r.key == rows[k].key && r.session.id == rows[k].session.id && r.updatedAt == ts
    ensures Valid(rows[k := r], ts) && Ahead(rows, rows[k := r], clock)
  {
    var later := rows[k := r];
    forall i | 0 <= i < |later| ensures later[i].key == i + 1 && later[i].updatedAt <= ts {
      assert i != k ==> later[i] == rows[i];
    }
    forall i, j | 0 <= i < j < |later| ensures later[i].session.id != later[j].session.id {
      assert rows[i].session.id != rows[j].session.id;
    }
  }

  lemma ArrivalIsAhead(rows: seq<Row>, clock: int, r: Row, ts: int)
    requires Valid(rows, clock) && ts > clock && Find(rows, r.session.id) == |rows|
    requires r.key == |rows| + 1 && r.updatedAt == ts
    ensures Valid(rows + [r], ts) && Ahead(rows, rows + [r], clock)
  {
    var later := rows + [r];
    forall i, j | 0 <= i < j < |later| ensures later[i].session.id != later[j].session.id {
      if j < |rows| { assert rows[i].session.id != rows[j].session.id; }
    }
  }

  lemma EditIsAhead(rows: seq<Row>, clock: int, e: Edit, ts: int, ttl: nat)
    requires Valid(rows, clock) && ts > clock
    ensures Valid(Edited(rows, e, ts, ttl), ts) && Ahead(rows, Edited(rows, e, ts, ttl), clock)
  {
    hide RowAfter, Valid, Ahead;
    UnchangedIsAhead(rows, clock, ts);
    var k := Find(rows, Target(e));
    if k == |rows| {
      if e.Enqueue? { ArrivalIsAhead(rows, clock, Row(|rows| + 1, e.pool, e.session, ts, false), ts); }
    } else {
      var after := RowAfter(rows[k], e, ts, ttl);
      if after.Some? { ChangeIsAhead(rows, clock, k, after.value, ts); }
    }
  }

  lemma ExpireIsAhead(rows: seq<Row>, clock: int, ts: int)
    requires Valid(rows, clock) && ts > clock
    ensures Valid(Expire(rows, ts), ts) && Ahead(rows, Expire(rows, ts), clock)
  {
    hide Expires;
    var later := Expire(rows, ts);
    assert forall i :: 0 <= i < |rows| ==> later[i] == ExpiredRow(rows[i], ts);
  }

  lemma AheadOnward(a: seq<Row>, b: seq<Row>, d: seq<Row>, early: int, late: int)
    requires Ahead(a, b, early) && Ahead(b, d, late) && early <= late
    ensures Ahead(a, d, early)
  {
  }

  // ------------------------------------------------------------------- pages

  predicate Before(a: Row, b: Row) { a.updatedAt < b.updatedAt || (a.updatedAt == b.updatedAt && a.key < b.key) }

  predicate Ordered(s: seq<Row>) { forall i, j :: 0 <= i < j < |s| ==> Before(s[i], s[j]) }

  predicate Listed(r: Row, pool: string) { !r.deleted && r.pool == pool }

  predicate From(r: Row, since: Option<int>) { since.None? || r.updatedAt >= since.value }

  /** Where `r` goes in an ordered sequence. */
  function Slot(s: seq<Row>, r: Row): (k: nat)
    ensures k <= |s| && (forall i :: 0 <= i < k ==> Before(s[i], r)) && (k < |s| ==> !Before(s[k], r))
  {
    if s == [] || !Before(s[0], r) then 0
    else assert forall i :: 1 <= i < |s| ==> s[i] == s[1..][i - 1]; 1 + Slot(s[1..], r)
  }

  function InsertRow(s: seq<Row>, r: Row): seq<Row> { s[..Slot(s, r)] + [r] + s[Slot(s, r)..] }

  /** The pool's live rows at or past the cursor, by update time and then by arrival. */
  function InOrder(rows: seq<Row>, pool: string, since: Option<int>): seq<Row> {
    if rows == [] then []
    else
      var r, rest := rows[|rows| - 1], InOrder(rows[..|rows| - 1], pool, since);
      if Listed(r, pool) && From(r, since) then InsertRow(rest, r) else rest
  }

  lemma InsertedAt(s: seq<Row>, r: Row, i: nat)
    requires i <= |s|
    ensures |InsertRow(s, r)| == |s| + 1
    ensures InsertRow(s, r)[i] == var k := Slot(s, r); if i < k then s[i] else if i == k then r else s[i - 1]
  {
  }

  lemma InsertOrders(s: seq<Row>, r: Row)
    requires Ordered(s) && forall x <- s :: x.key != r.key
    ensures Ordered(InsertRow(s, r))
  {
    var k, t := Slot(s, r), InsertRow(s, r);
    forall j | k <= j < |s| ensures Before(r, s[j]) {
      assert s[k] in s && Before(r, s[k]);
      if j > k { assert Before(s[k], s[j]); }
    }
    forall i, j | 0 <= i < j < |t| ensures Before(t[i], t[j]) {
      InsertedAt(s, r, i);
      InsertedAt(s, r, j);
    }
  }

  lemma InsertHolds(s: seq<Row>, r: Row, x: Row)
    ensures x in InsertRow(s, r) <==> x in s || x == r
  {
    assert s == s[..Slot(s, r)] + s[Slot(s, r)..];
  }

  lemma {:induction false} InOrderHolds(rows: seq<Row>, clock: int, pool: string, since: Option<int>)
    requires Valid(rows, clock)
    ensures Ordered(InOrder(rows, pool, since))
    ensures forall x :: x in InOrder(rows, pool, since) <==> x in rows && Listed(x, pool) && From(x, since)
  {
    if rows != [] {
      var shorter, r := rows[..|rows| - 1], rows[|rows| - 1];
      assert rows == shorter + [r];
      InOrderHolds(shorter, clock, pool, since);
      var rest := InOrder(shorter, pool, since);
      forall x | x in rest ensures x.key != r.key {
        assert x in shorter;
      }
      InsertOrders(rest, r);
      forall x ensures x in InsertRow(rest, r) <==> x in rest || x == r { InsertHolds(rest, r, x); }
    }
  }

  /** The selection, row by row: the pool's live rows at or past the cursor, each once, the longest unchanged first. */
  lemma InOrderIsRight(rows: seq<Row>, clock: int, pool: string, since: Option<int>)
    requires Valid(rows, clock)
    ensures forall x :: x in InOrder(rows, pool, since) <==>
              x in rows && !x.deleted && x.pool == pool && (since.None? || since.value <= x.updatedAt)
    ensures forall i, j :: 0 <= i < j < |InOrder(rows, pool, since)| ==>
              var a, b := InOrder(rows, pool, since)[i], InOrder(rows, pool, since)[j];
              a.updatedAt < b.updatedAt || (a.updatedAt == b.updatedAt && a.key < b.key)
  {
    InOrderHolds(rows, clock, pool, since);
    forall i, j | 0 <= i < j < |InOrder(rows, pool, since)|
      ensures var a, b := InOrder(rows, pool, since)[i], InOrder(rows, pool, since)[j];
              a.updatedAt < b.updatedAt || (a.updatedAt == b.updatedAt && a.key < b.key)
    {
      assert Before(InOrder(rows, pool, since)[i], InOrder(rows, pool, since)[j]);
    }
  }

  /** The queue server: rows changed in place, one clock that never repeats. */
  class Queue {
    var rows: seq<Row>
    var clock: int
    const pageSize: nat
    const ttl: nat

    constructor (pageSize: nat, ttl: nat)
      ensures rows == [] && this.pageSize == pageSize && this.ttl == ttl
    {
      rows, clock, this.pageSize, this.ttl := [], 0, pageSize, ttl;
    }

    /** The wall clock, moved on if it has not moved by itself. */
    method Now(wall: int) returns (ts: int)
      modifies `clock
      ensures clock == ts && ts > old(clock) && ts >= wall
    {
      clock := Max(wall, clock + 1);
      ts := clock;
    }

    method Edit(e: Edit, wall: int)
      requires Valid(rows, clock)
      modifies this
      ensures Valid(rows, clock) && clock > old(clock)
      ensures rows == Edited(old(rows), e, clock, ttl) && Ahead(old(rows), rows, old(clock))
    {
      hide Ahead, Valid;
      var ts := Now(wall);
      EditIsAhead(rows, old(clock), e, ts, ttl);
      var k := 0;
      while k < |rows| && rows[k].session.id != Target(e)
        invariant k <= |rows| && forall j :: 0 <= j < k ==> rows[j].session.id != Target(e)
      {
        k := k + 1;
      }
      assert k == Find(rows, Target(e));
      if k == |rows| {
        if e.Enqueue? { rows := rows + [Row(|rows| + 1, e.pool, e.session, ts, false)]; }
        return;
      }
      var s := rows[k].session;
      match e
      case Enqueue(_, _) =>
      case SetStatus(_, status) => Put(k, s.(status := status));
      case Tombstone(_) => rows := rows[k := rows[k].(deleted := true, updatedAt := ts)];
      case Claim(_, acceptor) =>
        var renewal := s.phase == Claimed && s.acceptor == Some(acceptor);
        var expired := s.phase == Claimed && s.deadline.Some? && s.deadline.value <= ts;
        if expired && !renewal && s.status == Running { expired := false; }
        if !rows[k].deleted && (s.phase == Pending || expired || renewal) {
          Put(k, s.(phase := Claimed, acceptor := Some(acceptor), deadline := Some(ts + ttl)));
        }
      case Release(_, acceptor) =>
        if !rows[k].deleted && s.phase == Claimed && s.acceptor == Some(acceptor) { Put(k, Idle(s)); }
    }

    /** A row's session changes at the time the clock shows. */
    method Put(k: nat, s: Session)
      requires k < |rows|
      modifies `rows
      ensures rows == old(rows)[k := old(rows)[k].(session := s, updatedAt := clock)]
    {
      rows := rows[k := rows[k].(session := s, updatedAt := clock)];
    }

    /** Expired claims flip back to pending, unless their session is running. */
    method ExpireStaleClaims(wall: int)
      requires Valid(rows, clock)
      modifies this
      ensures Valid(rows, clock) && clock > old(clock)
      ensures rows == Expire(old(rows), clock) && Ahead(old(rows), rows, old(clock))
    {
      var ts := Now(wall);
      for i := 0 to |rows|
        invariant clock == ts && |rows| == |old(rows)|
        invariant forall j :: 0 <= j < i ==> rows[j] == ExpiredRow(old(rows)[j], ts)
        invariant forall j :: i <= j < |rows| ==> rows[j] == old(rows)[j]
      {
        if Expires(rows[i], ts) {
          rows := rows[i := rows[i].(session := Idle(rows[i].session), updatedAt := ts)];
        }
      }
      assert rows == Expire(old(rows), ts);
      ExpireIsAhead(old(rows), old(clock), ts);
    }

    /** The pool's live rows at or past the cursor, in order. */
    method Select(pool: string, since: Option<int>) returns (found: seq<Row>)
      ensures found == InOrder(rows, pool, since)
    {
      hide Before, Listed, From;
      found := [];
      for i := 0 to |rows|
        invariant found == InOrder(rows[..i], pool, since)
      {
        assert rows[..i + 1][..i] == rows[..i];
        if Listed(rows[i], pool) && From(rows[i], since) {
          var k := 0;
          while k < |found| && Before(found[k], rows[i])
            invariant k <= |found| && forall j :: 0 <= j < k ==> Before(found[j], rows[i])
          {
            k := k + 1;
          }
          assert k == Slot(found, rows[i]);
          found := found[..k] + [rows[i]] + found[k..];
        }
      }
      assert rows[..|rows|] == rows;
    }

    /** One page from the cursor on, and whether it is full and thus not the last. */
    method List(pool: string, since: Option<int>, wall: int) returns (page: seq<Row>, hasNext: bool, cursor: int)
      requires Valid(rows, clock)
      modifies this
      ensures Valid(rows, clock) && clock > old(clock)
      ensures Ahead(old(rows), rows, old(clock)) && exists ts :: rows == Expire(old(rows), ts)
      ensures var all := InOrder(rows, pool, since);
              page == all[..Min(pageSize, |all|)] && (hasNext <==> |page| == pageSize)
      ensures cursor == if hasNext && page != [] then page[|page| - 1].updatedAt else clock
    {
      hide InOrder, Ahead, Expire;
      ExpireStaleClaims(wall);
      var found := Select(pool, since);
      page := found[..Min(pageSize, |found|)];
      hasNext := |page| == pageSize;
      if hasNext && page != [] {
        cursor := page[|page| - 1].updatedAt;
      } else {
        cursor := Now(wall);
      }
    }
  }

  // -------------------------------------------------------------- the client

  predicate OncePerSession(items: seq<Row>) {
    forall i, j :: 0 <= i < j < |items| ==> items[i].session.id != items[j].session.id
  }

  /** Replace the session's item, or add it. */
  function Upsert(items: seq<Row>, r: Row): seq<Row> {
    var k := Find(items, r.session.id);
    if k < |items| then items[k := r] else items + [r]
  }

  function Merge(items: seq<Row>, page: seq<Row>): seq<Row> {
    if page == [] then items else Upsert(Merge(items, page[..|page| - 1]), page[|page| - 1])
  }

  lemma UpsertKeeps(items: seq<Row>, r: Row)
    requires OncePerSession(items)
    ensures OncePerSession(Upsert(items, r)) && r in Upsert(items, r)
    ensures forall x <- Upsert(items, r) :: x == r || x in items
    ensures forall x <- items :: x in Upsert(items, r) || x.session.id == r.session.id
  {
    var k, s := Find(items, r.session.id), Upsert(items, r);
    if k < |items| {
      assert s[k] == r;
      forall x | x in items && x.session.id != r.session.id ensures x in s {
        var i :| 0 <= i < |items| && items[i] == x;
        assert s[i] == x;
      }
    }
  }

  lemma {:induction false} MergeKeeps(items: seq<Row>, page: seq<Row>)
    requires OncePerSession(items)
    requires forall x, y :: x in page && y in page && x.session.id == y.session.id ==> x == y
    ensures OncePerSession(Merge(items, page))
    ensures forall x <- page :: x in Merge(items, page)
    ensures forall x <- Merge(items, page) :: x in page || x in items
    ensures forall x <- items :: x in Merge(items, page) || exists y <- page :: y.session.id == x.session.id
  {
    if page != [] {
      var shorter, r := page[..|page| - 1], page[|page| - 1];
      assert page == shorter + [r];
      MergeKeeps(items, shorter);
      UpsertKeeps(Merge(items, shorter), r);
    }
  }

  /** Every live row of the pool updated before `c` is among the items as it now is. */
  predicate CaughtUp(rows: seq<Row>, pool: string, items: seq<Row>, c: int) {
    forall r <- rows :: Listed(r, pool) && r.updatedAt < c ==> r in items
  }

  /** An item is its row as it now is, or an earlier version of it. */
  predicate Genuine(rows: seq<Row>, items: seq<Row>) {
    forall x <- items :: exists k :: 0 <= k < |rows| && rows[k].session.id == x.session.id
                                     && (rows[k] == x || x.updatedAt < rows[k].updatedAt)
  }

  /** The listing holds every live row of the pool, once and as it now is. */
  predicate Snapshot(rows: seq<Row>, pool: string, items: seq<Row>) {
    OncePerSession(items) && Genuine(rows, items) && forall r <- rows :: Listed(r, pool) ==> r in items
  }

  lemma StaysGenuine(rows: seq<Row>, later: seq<Row>, clock: int, items: seq<Row>)
    requires Valid(rows, clock) && Ahead(rows, later, clock) && Genuine(rows, items)
    ensures Genuine(later, items)
  {
    forall x | x in items ensures exists k :: 0 <= k < |later| && later[k].session.id == x.session.id
                                              && (later[k] == x || x.updatedAt < later[k].updatedAt) {
      var k :| 0 <= k < |rows| && rows[k].session.id == x.session.id && (rows[k] == x || x.updatedAt < rows[k].updatedAt);
      assert later[k].session.id == x.session.id;
    }
  }

  lemma StaysCaughtUp(rows: seq<Row>, later: seq<Row>, clock: int, pool: string, items: seq<Row>, c: int)
    requires Ahead(rows, later, clock) && CaughtUp(rows, pool, items, c) && c <= clock
    ensures CaughtUp(later, pool, items, c)
  {
    forall r | r in later && Listed(r, pool) && r.updatedAt < c ensures r in items {
      var i :| 0 <= i < |later| && later[i] == r;
      assert i < |rows| && rows[i] == r;
      assert r in rows;
    }
  }

  lemma SameSessionSameRow(rows: seq<Row>, clock: int, x: Row, y: Row)
    requires Valid(rows, clock) && x in rows && y in rows && x.session.id == y.session.id
    ensures x == y
  {
  }

  /** A page moves the listing on to its last row, or completes it. */
  lemma PageCatchesUp(rows: seq<Row>, clock: int, pool: string, items: seq<Row>, since: Option<int>, size: nat)
    requires Valid(rows, clock) && OncePerSession(items) && Genuine(rows, items)
    requires since.Some? ==> CaughtUp(rows, pool, items, since.value)
    ensures var all := InOrder(rows, pool, since); var page := all[..Min(size, |all|)]; var merged := Merge(items, page);
            && OncePerSession(merged) && Genuine(rows, merged)
            && (|page| < size ==> Snapshot(rows, pool, merged))
            && (page != [] ==> CaughtUp(rows, pool, merged, page[|page| - 1].updatedAt))
            && (page != [] ==> page[|page| - 1].updatedAt <= clock)
  {
    hide InOrder, Merge, Ordered, Valid, Genuine, OncePerSession;
    var all := InOrder(rows, pool, since);
    var page := all[..Min(size, |all|)];
    InOrderHolds(rows, clock, pool, since);
    assert forall x <- page :: x in rows;
    PageIsOncePerSession(rows, clock, page);
    MergeKeeps(items, page);
    MergeStaysGenuine(rows, items, page);
    if page != [] { NotPastClock(rows, clock, page[|page| - 1]); }
    forall r | r in rows && Listed(r, pool)
               && (|page| < size || (page != [] && r.updatedAt < page[|page| - 1].updatedAt)) ensures r in Merge(items, page) {
      FoundByNow(rows, clock, pool, items, since, page, r);
    }
  }

  lemma NotPastClock(rows: seq<Row>, clock: int, r: Row)
    requires Valid(rows, clock) && r in rows
    ensures r.updatedAt <= clock
  {
  }

  lemma FoundByNow(rows: seq<Row>, clock: int, pool: string, items: seq<Row>, since: Option<int>, page: seq<Row>, r: Row)
    requires Valid(rows, clock) && OncePerSession(items) && r in rows && Listed(r, pool)
    requires since.Some? ==> CaughtUp(rows, pool, items, since.value)
    requires var all := InOrder(rows, pool, since);
             page <= all && (page == all || (page != [] && r.updatedAt < page[|page| - 1].updatedAt))
    ensures r in Merge(items, page)
  {
    hide InOrder, Merge, Ordered, Valid, Genuine, OncePerSession;
    InOrderHolds(rows, clock, pool, since);
    assert forall x <- page :: x in rows;
    PageIsOncePerSession(rows, clock, page);
    MergeKeeps(items, page);
    if From(r, since) { InPage(InOrder(rows, pool, since), page, r); } else { ItemSurvives(rows, clock, items, page, r); }
  }

  lemma PageIsOncePerSession(rows: seq<Row>, clock: int, page: seq<Row>)
    requires Valid(rows, clock) && forall x <- page :: x in rows
    ensures forall x, y :: x in page && y in page && x.session.id == y.session.id ==> x == y
  {
    forall x, y | x in page && y in page && x.session.id == y.session.id ensures x == y {
      SameSessionSameRow(rows, clock, x, y);
    }
  }

  lemma ItemSurvives(rows: seq<Row>, clock: int, items: seq<Row>, page: seq<Row>, r: Row)
    requires Valid(rows, clock) && OncePerSession(items) && r in items && r in rows && forall x <- page :: x in rows
    ensures r in Merge(items, page)
  {
    PageIsOncePerSession(rows, clock, page);
    MergeKeeps(items, page);
    if y :| y in page && y.session.id == r.session.id { SameSessionSameRow(rows, clock, r, y); }
  }

  lemma MergeStaysGenuine(rows: seq<Row>, items: seq<Row>, page: seq<Row>)
    requires Genuine(rows, items) && (forall x <- page :: x in rows)
    requires forall x <- Merge(items, page) :: x in page || x in items
    ensures Genuine(rows, Merge(items, page))
  {
    forall x | x in Merge(items, page) ensures exists k :: 0 <= k < |rows| && rows[k].session.id == x.session.id
                                                           && (rows[k] == x || x.updatedAt < rows[k].updatedAt) {
      if x in page {
        var k :| 0 <= k < |rows| && rows[k] == x;
      }
    }
  }

  lemma InPage(all: seq<Row>, page: seq<Row>, r: Row)
    requires Ordered(all) && page <= all && r in all
    requires page == all || (page != [] && r.updatedAt < page[|page| - 1].updatedAt)
    ensures r in page
  {
    var i :| 0 <= i < |all| && all[i] == r;
    assert page != [] ==> page[|page| - 1] == all[|page| - 1];
  }

  /** What happens before each page is requested: the edits, and the wall clock. */
  datatype Interval = Interval(edits: seq<Edit>, wall: int)

  method MergePage(items: seq<Row>, page: seq<Row>) returns (merged: seq<Row>)
    ensures merged == Merge(items, page)
  {
    merged := items;
    for i := 0 to |page|
      invariant merged == Merge(items, page[..i])
    {
      assert page[..i + 1][..i] == page[..i];
      var k := 0;
      while k < |merged| && merged[k].session.id != page[i].session.id
        invariant k <= |merged| && forall j :: 0 <= j < k ==> merged[j].session.id != page[i].session.id
      {
        k := k + 1;
      }
      assert k == Find(merged, page[i].session.id);
      if k < |merged| { merged := merged[k := page[i]]; } else { merged := merged + [page[i]]; }
    }
    assert page[..|page|] == page;
  }

  /** Others use the queue. */
  method Meanwhile(q: Queue, what: Interval)
    requires Valid(q.rows, q.clock)
    modifies q
    ensures Valid(q.rows, q.clock) && q.clock >= old(q.clock) && Ahead(old(q.rows), q.rows, old(q.clock))
    ensures what.edits == [] ==> q.rows == old(q.rows)
  {
    for i := 0 to |what.edits|
      invariant Valid(q.rows, q.clock) && q.clock >= old(q.clock) && Ahead(old(q.rows), q.rows, old(q.clock))
      invariant i == 0 ==> q.rows == old(q.rows)
    {
      ghost var rows, clock := q.rows, q.clock;
      q.Edit(what.edits[i], what.wall);
      AheadOnward(old(q.rows), rows, q.rows, old(q.clock), clock);
    }
  }

  // --------------------------------------------------------- when it returns

  /** The pool's live rows that share an update time. */
  function Sharing(rows: seq<Row>, pool: string, t: int): set<Row> {
    set r | r in rows && Listed(r, pool) && r.updatedAt == t
  }

  /** With the rows left alone, at most `n` more pages are needed from the cursor on. */
  predicate Returns(rows: seq<Row>, pool: string, size: nat, since: Option<int>, n: nat)
    requires size > 0
    decreases n
  {
    var all := InOrder(rows, pool, since);
    n > 0 && (|all| < size || Returns(rows, pool, size, Some(all[size - 1].updatedAt), n - 1))
  }

  function Elements<T>(s: seq<T>): set<T> { set x | x in s }

  lemma {:induction false} OrderedAreDistinct(s: seq<Row>)
    requires Ordered(s)
    ensures |Elements(s)| == |s|
  {
    if s == [] {
      assert Elements(s) == {};
    } else {
      var shorter, last := s[..|s| - 1], s[|s| - 1];
      OrderedAreDistinct(shorter);
      assert s == shorter + [last];
      assert last !in shorter;
      assert Elements(s) == Elements(shorter) + {last};
    }
  }

  lemma SubsetSize<T>(a: set<T>, b: set<T>)
    requires a <= b
    ensures |a| <= |b| && (a != b ==> |a| < |b|)
  {
    assert b == a + (b - a);
    assert a != b ==> b - a != {};
  }

  /** A crowd at one update time keeps the cursor from passing it. */
  lemma {:induction false} CrowdBlocks(rows: seq<Row>, clock: int, pool: string, size: nat, since: Option<int>, t: int, n: nat)
    requires Valid(rows, clock) && size > 0 && |Sharing(rows, pool, t)| >= size && (since.Some? ==> since.value <= t)
    ensures !Returns(rows, pool, size, since, n)
    decreases n
  {
    hide InOrder, Valid, Ordered, Sharing;
    var all, crowd := InOrder(rows, pool, since), Sharing(rows, pool, t);
    InOrderHolds(rows, clock, pool, since);
    CrowdListed(rows, pool, since, all, t);
    OrderedAreDistinct(all);
    SubsetSize(crowd, Elements(all));
    if n > 0 {
      CursorHeld(rows, pool, all, size, t);
      CrowdBlocks(rows, clock, pool, size, Some(all[size - 1].updatedAt), t, n - 1);
    }
  }

  lemma CrowdListed(rows: seq<Row>, pool: string, since: Option<int>, all: seq<Row>, t: int)
    requires forall x :: x in all <==> x in rows && Listed(x, pool) && From(x, since)
    requires since.Some? ==> since.value <= t
    ensures Sharing(rows, pool, t) <= Elements(all)
  {
  }

  lemma CursorHeld(rows: seq<Row>, pool: string, all: seq<Row>, size: nat, t: int)
    requires Ordered(all) && 0 < size <= |all| && Sharing(rows, pool, t) <= Elements(all) && |Sharing(rows, pool, t)| >= size
    ensures all[size - 1].updatedAt <= t
  {
    if all[size - 1].updatedAt > t {
      var front := all[..size - 1];
      forall r | r in Sharing(rows, pool, t) ensures r in Elements(front) {
        var i :| 0 <= i < |all| && all[i] == r;
        assert front[i] == r;
      }
      assert Ordered(front);
      OrderedAreDistinct(front);
      SubsetSize(Sharing(rows, pool, t), Elements(front));
    }
  }

  /** Without a crowd, every full page leaves fewer rows ahead. */
  lemma {:induction false} NoCrowdReturns(rows: seq<Row>, clock: int, pool: string, size: nat, since: Option<int>, n: nat)
    requires Valid(rows, clock) && size > 0 && forall t :: |Sharing(rows, pool, t)| < size
    requires n > |InOrder(rows, pool, since)|
    ensures Returns(rows, pool, size, since, n)
    decreases n
  {
    hide InOrder, Valid, Ordered, Sharing;
    var all := InOrder(rows, pool, since);
    InOrderHolds(rows, clock, pool, since);
    if |all| >= size {
      var c := all[size - 1].updatedAt;
      var next := InOrder(rows, pool, Some(c));
      InOrderHolds(rows, clock, pool, Some(c));
      FewerAhead(rows, pool, since, all, next, size);
      NoCrowdReturns(rows, clock, pool, size, Some(c), n - 1);
    }
  }

  lemma FewerAhead(rows: seq<Row>, pool: string, since: Option<int>, all: seq<Row>, next: seq<Row>, size: nat)
    requires 0 < size <= |all| && Ordered(all) && Ordered(next)
    requires forall x :: x in all <==> x in rows && Listed(x, pool) && From(x, since)
    requires forall x :: x in next <==> x in rows && Listed(x, pool) && From(x, Some(all[size - 1].updatedAt))
    requires |Sharing(rows, pool, all[size - 1].updatedAt)| < size
    ensures |next| < |all|
  {
    hide Sharing;
    var c := all[size - 1].updatedAt;
    assert all[size - 1] in all;
    assert Elements(next) <= Elements(all);
    if all[0].updatedAt == c { FrontShares(rows, pool, all, size); }
    assert all[0].updatedAt < c by { assert size > 1 ==> Before(all[0], all[size - 1]); }
    assert all[0] in Elements(all) && all[0] !in Elements(next);
    OrderedAreDistinct(all);
    OrderedAreDistinct(next);
    SubsetSize(Elements(next), Elements(all));
  }

  lemma FrontShares(rows: seq<Row>, pool: string, all: seq<Row>, size: nat)
    requires 0 < size <= |all| && Ordered(all) && all[0].updatedAt == all[size - 1].updatedAt
    requires forall x <- all :: x in rows && Listed(x, pool)
    ensures |Sharing(rows, pool, all[size - 1].updatedAt)| >= size
  {
    var front := all[..size];
    forall r | r in Elements(front) ensures r in Sharing(rows, pool, all[size - 1].updatedAt) {
      var i :| 0 <= i < size && all[i] == r;
      assert i > 0 ==> Before(all[0], all[i]);
      assert i < size - 1 ==> Before(all[i], all[size - 1]);
    }
    assert Ordered(front);
    OrderedAreDistinct(front);
    SubsetSize(Elements(front), Sharing(rows, pool, all[size - 1].updatedAt));
  }

  /**
   With the rows left alone, the listing returns if and only if no update time
   is shared by as many of the pool's live rows as fit on a page, and then
   within one page more than there are rows.
   */
  lemma ReturnsUnlessCrowded(rows: seq<Row>, clock: int, pool: string, size: nat)
    requires Valid(rows, clock) && size > 0
    ensures (exists n :: Returns(rows, pool, size, None, n)) <==> forall t :: |Sharing(rows, pool, t)| < size
    ensures (forall t :: |Sharing(rows, pool, t)| < size) ==> Returns(rows, pool, size, None, |InOrder(rows, pool, None)| + 1)
  {
    hide Returns, InOrder, Valid, Sharing;
    if t :| |Sharing(rows, pool, t)| >= size {
      forall n: nat ensures !Returns(rows, pool, size, None, n) { CrowdBlocks(rows, clock, pool, size, None, t, n); }
    } else {
      NoCrowdReturns(rows, clock, pool, size, None, |InOrder(rows, pool, None)| + 1);
    }
  }

  /** The pool's rows whose claims run out by `ts`. */
  function RunOut(rows: seq<Row>, pool: string, ts: int): set<Row> {
    set r | r in rows && Listed(r, pool) && Expires(r, ts)
  }

  lemma SameKeySameRow(rows: seq<Row>, clock: int, x: Row, y: Row)
    requires Valid(rows, clock) && x in rows && y in rows
    ensures x.key == y.key ==> x == y
  {
  }

  lemma {:induction false} ExpiredApart(rows: seq<Row>, clock: int, ts: int, some: set<Row>)
    requires Valid(rows, clock) && forall r <- some :: r in rows
    ensures |set r | r in some :: ExpiredRow(r, ts)| == |some|
  {
    hide ExpiredRow, Valid;
    if some == {} {
      assert (set r | r in some :: ExpiredRow(r, ts)) == {};
    } else {
      var x :| x in some;
      ExpiredApart(rows, clock, ts, some - {x});
      var rest := set r | r in some - {x} :: ExpiredRow(r, ts);
      assert (set r | r in some :: ExpiredRow(r, ts)) == rest + {ExpiredRow(x, ts)};
      forall r | r in some - {x} ensures ExpiredRow(r, ts) != ExpiredRow(x, ts) { SameKeySameRow(rows, clock, r, x); }
    }
  }

  /**
   Claims that run out together are freed at one instant: as many of them as
   fit on a page keep every listing from returning until a row changes.
   */
  lemma MassExpiryBlocks(rows: seq<Row>, clock: int, pool: string, size: nat, ts: int, n: nat)
    requires Valid(rows, clock) && ts > clock && size > 0 && |RunOut(rows, pool, ts)| >= size
    ensures !Returns(Expire(rows, ts), pool, size, None, n)
  {
    hide Expires, Returns;
    var freed := set r | r in RunOut(rows, pool, ts) :: ExpiredRow(r, ts);
    ExpiredApart(rows, clock, ts, RunOut(rows, pool, ts));
    forall x | x in freed ensures x in Sharing(Expire(rows, ts), pool, ts) {
      var r :| r in RunOut(rows, pool, ts) && x == ExpiredRow(r, ts);
      var i :| 0 <= i < |rows| && rows[i] == r;
      assert Expire(rows, ts)[i] == x;
    }
    SubsetSize(freed, Sharing(Expire(rows, ts), pool, ts));
    ExpireIsAhead(rows, clock, ts);
    CrowdBlocks(Expire(rows, ts), ts, pool, size, None, ts, n);
  }

  /** A change never hides again. */
  lemma ChangeShows(a: seq<Row>, b: seq<Row>, d: seq<Row>, early: int, late: int)
    requires Valid(a, early) && Ahead(a, b, early) && Ahead(b, d, late) && early <= late
    ensures d == a ==> b == a
  {
  }

  /** One page more, whatever happened before it: the items with the page merged in. */
  method NextPage(q: Queue, pool: string, items: seq<Row>, cursor: Option<int>, what: Interval)
    returns (merged: seq<Row>, hasNext: bool, next: int)
    requires Valid(q.rows, q.clock) && OncePerSession(items) && Genuine(q.rows, items)
    requires q.pageSize > 0 && cursor.Some? ==> cursor.value <= q.clock && CaughtUp(q.rows, pool, items, cursor.value)
    modifies q
    ensures Valid(q.rows, q.clock) && OncePerSession(merged) && Genuine(q.rows, merged)
    ensures q.clock >= old(q.clock) && Ahead(old(q.rows), q.rows, old(q.clock))
    ensures q.pageSize == 0 ==> hasNext
    ensures q.pageSize > 0 && hasNext ==> next <= q.clock && CaughtUp(q.rows, pool, merged, next)
    ensures !hasNext ==> Snapshot(q.rows, pool, merged)
    ensures q.pageSize > 0 ==>
              var all := InOrder(q.rows, pool, cursor);
              (hasNext <==> |all| >= q.pageSize) && (hasNext ==> next == all[q.pageSize - 1].updatedAt)
  {
    hide InOrder, Valid, Ahead, Genuine, CaughtUp, Snapshot, OncePerSession;
    ghost var rows, clock := q.rows, q.clock;
    Meanwhile(q, what);
    ghost var found, at := q.rows, q.clock;
    var page;
    page, hasNext, next := q.List(pool, cursor, what.wall);
    AheadOnward(rows, found, q.rows, clock, at);
    StaysGenuine(rows, q.rows, clock, items);
    if q.pageSize > 0 && cursor.Some? { StaysCaughtUp(rows, q.rows, clock, pool, items, cursor.value); }
    if q.pageSize > 0 || cursor.None? { PageCatchesUp(q.rows, q.clock, pool, items, cursor, q.pageSize); }
    merged := MergePage(items, page);
  }

  /**
   List all queued sessions of a pool. `meanwhile` has what happens before each
   page; the answer is None while more pages than it foresees are needed. If no
   row changed, it comes when `Returns` says so.
   */
  method ListAll(q: Queue, pool: string, meanwhile: seq<Interval>) returns (r: Option<seq<Row>>)
    requires Valid(q.rows, q.clock)
    modifies q
    ensures Valid(q.rows, q.clock)
    ensures r.Some? ==> Snapshot(q.rows, pool, r.value)
    ensures q.pageSize == 0 ==> r.None?
    ensures q.pageSize > 0 && q.rows == old(q.rows) ==>
              (r.Some? <==> Returns(q.rows, pool, q.pageSize, None, |meanwhile|))
  {
    hide InOrder, Valid, Ahead, Genuine, CaughtUp, Snapshot, OncePerSession;
    var items: seq<Row> := [];
    var cursor: Option<int> := None;
    NothingYet(q.rows, q.clock);
    for n := 0 to |meanwhile|
      invariant Valid(q.rows, q.clock) && OncePerSession(items) && Genuine(q.rows, items)
      invariant q.clock >= old(q.clock) && Ahead(old(q.rows), q.rows, old(q.clock))
      invariant q.pageSize > 0 && cursor.Some? ==> cursor.value <= q.clock && CaughtUp(q.rows, pool, items, cursor.value)
      invariant q.pageSize > 0 && q.rows == old(q.rows) ==>
                  (Returns(q.rows, pool, q.pageSize, None, |meanwhile|)
                   <==> Returns(q.rows, pool, q.pageSize, cursor, |meanwhile| - n))
    {
      ghost var rows, clock := q.rows, q.clock;
      var hasNext, next;
      items, hasNext, next := NextPage(q, pool, items, cursor, meanwhile[n]);
      ChangeShows(old(q.rows), rows, q.rows, old(q.clock), clock);
      AheadOnward(old(q.rows), rows, q.rows, old(q.clock), clock);
      if !hasNext { return Some(items); }
      cursor := Some(next);
    }
    r := None;
  }

  lemma NothingYet(rows: seq<Row>, clock: int)
    ensures OncePerSession([]) && Genuine(rows, []) && Ahead(rows, rows, clock)
  {
  }
}
