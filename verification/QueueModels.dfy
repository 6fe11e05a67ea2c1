/** The queue that runs of the operator act on (Cluster) deals with a claim as the server of Listing does. */
module QueueModels {
  import opened Basics
  import opened Planner
  import Cluster
  import Listing

  /** A live row as both models have it. */
  predicate SameRow(w: Cluster.World, r: Listing.Row) {
    !r.deleted && r.session.id in w.rows && w.rows[r.session.id] == r.session
  }

  /** A claim that reaches the server at `ts`: granted or refused, with the same row as a result. */
  lemma ClaimsAgree(c: Cluster.Config, w: Cluster.World, r: Listing.Row, ts: int, ttl: nat, t: Cluster.Tick)
    requires SameRow(w, r) && t.fault == Cluster.Works && t.deadline == ts + ttl
    requires t.expired <==> r.session.deadline.Some? && r.session.deadline.value <= ts
    ensures var id := r.session.id; var op := Cluster.ClaimRow(id);
            var after, reply := Listing.RowAfter(r, Listing.Claim(id, c.us), ts, ttl), Cluster.Answer(c, w, op, t);
            && Cluster.Effect(c, w, op, t) == (if after.Some? then w.(rows := w.rows[id := after.value.session]) else w)
            && reply == if after.Some? then Cluster.Granted(after.value.session, t.gateway) else Cluster.Refused
  {
    assert w.rows[r.session.id := r.session] == w.rows;
  }

  lemma ReleasesAgree(c: Cluster.Config, w: Cluster.World, r: Listing.Row, ts: int, ttl: nat, t: Cluster.Tick)
    requires SameRow(w, r) && t.fault == Cluster.Works
    ensures var id := r.session.id; var op := Cluster.ReleaseRow(id);
            var after, reply := Listing.RowAfter(r, Listing.Release(id, c.us), ts, ttl), Cluster.Answer(c, w, op, t);
            && Cluster.Effect(c, w, op, t) == (if after.Some? then w.(rows := w.rows[id := after.value.session]) else w)
            && reply == if after.Some? then Cluster.Done else Cluster.Refused
  {
  }

  /** The releases of others, and what their sessions do meanwhile. */
  lemma OthersAgree(c: Cluster.Config, w: Cluster.World, r: Listing.Row, ts: int, ttl: nat, who: string, status: SessionStatus)
    requires SameRow(w, r) && r.session.acceptor != Some(c.us) && r.session.acceptor == Some(who)
    ensures var id := r.session.id;
            && (r.session.phase == Claimed ==>
                  Listing.RowAfter(r, Listing.Release(id, who), ts, ttl).Some?
                  && Cluster.EnvStep(c, w, Cluster.OtherReleases(id)).rows[id] ==
                     Listing.RowAfter(r, Listing.Release(id, who), ts, ttl).value.session)
            && Cluster.EnvStep(c, w, Cluster.SetStatus(id, status)).rows[id] ==
               Listing.RowAfter(r, Listing.SetStatus(id, status), ts, ttl).value.session
            && id !in Cluster.EnvStep(c, w, Cluster.Tombstone(id)).rows
            && Listing.RowAfter(r, Listing.Tombstone(id), ts, ttl).value.deleted
  {
  }

  /** A sweep once the claim's deadline is past, whoever holds it. */
  lemma ExpiryAgrees(c: Cluster.Config, w: Cluster.World, r: Listing.Row, ts: int)
    requires SameRow(w, r) && r.session.deadline.Some? && r.session.deadline.value < ts
    ensures Cluster.EnvStep(c, w, Cluster.Expire(r.session.id)).rows == w.rows[r.session.id := Listing.ExpiredRow(r, ts).session]
  {
    assert w.rows[r.session.id := r.session] == w.rows;
  }
}
