/** The drainer in its own form (app/services/qdrant_indexer.py): row objects whose fields are assigned,
    proved against the functions of `KnowledgeOutbox`. */
module KnowledgeWorker {
  import opened Domain
  import opened KnowledgeOutbox

  class EntryRow {
    const measurement: nat
    const tenant: nat
    const maxRetries: nat
    var status: Status
    var attempts: nat
    var lease: Option<int>
    var claimedBy: Option<nat>
    var version: nat
    ghost var triggers: nat

    ghost function Value(): Entry
      reads this
    {
      Entry(measurement, tenant, status, attempts, maxRetries, lease, claimedBy, version, triggers)
    }

    constructor (measurement: nat, tenant: nat, version: nat)
      ensures Value() == NewEntry(measurement, tenant, version)
    {
      this.measurement, this.tenant, maxRetries := measurement, tenant, 3;
      status, attempts, lease, claimedBy, this.version, triggers := PENDING, 0, None, None, version, 0;
    }

    method Claim(worker: nat, now: int, seconds: int)
      modifies this
      ensures Value() == KnowledgeOutbox.Claim(old(Value()), worker, now, seconds)
    {
      status := CLAIMED;
      claimedBy := Some(worker);
      lease := Some(now + seconds);
      attempts := attempts + 1;
    }

    predicate NeedsProcessing(now: int, current: nat)
      reads this
      ensures NeedsProcessing(now, current) == KnowledgeOutbox.NeedsProcessing(Value(), now, current)
    {
      if attempts >= maxRetries then false
      else if status == PENDING || status == FAILED then true
      else if status == CLAIMED then lease.Some? && lease.value < now
      else if status == COMPLETED then version != current
      else false
    }

    predicate SqlMatches(now: int)
      reads this
      ensures SqlMatches(now) == KnowledgeOutbox.SqlMatches(Value(), now)
    {
      && (status == PENDING || status == FAILED
          || (status == CLAIMED && lease.Some? && lease.value < now)
          || status == COMPLETED)
      && attempts < maxRetries
    }
  }

  /** The vector store: upserts by version and measurement, which may fail with or without effect. */
  class VectorStore {
    var points: map<PointId, nat>

    constructor ()
      ensures points == map[]
    {
      points := map[];
    }

    method Upsert(version: nat, measurement: nat, tenant: nat, ok: bool, stored: bool) returns (done: bool)
      modifies this
      ensures done == ok
      ensures points == if ok || stored then old(points)[PointId(version, measurement) := tenant] else old(points)
    {
      if ok || stored {
        points := points[PointId(version, measurement) := tenant];
      }
      return ok;
    }
  }

  ghost function Values(rows: seq<EntryRow>): (vs: seq<Entry>)
    reads rows
    ensures |vs| == |rows|
    ensures forall i | 0 <= i < |rows| :: vs[i] == rows[i].Value()
  {
    seq(|rows|, i requires 0 <= i < |rows| reads rows => rows[i].Value())
  }

  /** create_outbox_entry: one entry per measurement, an existing one is returned as it is. */
  method CreateOutboxEntry(rows: seq<EntryRow>, measurement: nat, tenant: nat, current: nat)
    returns (row: EntryRow, rows': seq<EntryRow>)
    ensures row in rows' && row.measurement == measurement
    ensures if exists i :: 0 <= i < |rows| && rows[i].measurement == measurement
            then rows' == rows
            else rows' == rows + [row] && fresh(row) && row.Value() == NewEntry(measurement, tenant, current)
  {
    var i := 0;
    while i < |rows|
      invariant 0 <= i <= |rows|
      invariant forall j :: 0 <= j < i ==> rows[j].measurement != measurement
    {
      if rows[i].measurement == measurement {
        return rows[i], rows;
      }
      i := i + 1;
    }
    row := new EntryRow(measurement, tenant, current);
    rows' := rows + [row];
  }

  // The claim query and the filter behind it.
  method SelectItems(rows: seq<EntryRow>, locked: set<nat>, limit: nat, now: int, current: nat)
    returns (picked: seq<nat>)
    ensures |picked| <= limit
    ensures forall j, k :: 0 <= j < k < |picked| ==> picked[j] < picked[k]
    ensures forall i: nat :: i in picked <==> Swept(Values(rows), locked, now, current, limit, i)
  {
    ghost var values := Values(rows);
    picked := [];
    var taken, i := 0, 0;
    while i < |rows| && taken < limit
      invariant 0 <= i <= |rows| && |picked| <= taken == Matching(values, locked, now, i) <= limit
      invariant forall j | 0 <= j < |picked| :: picked[j] < i
      invariant forall j, k :: 0 <= j < k < |picked| ==> picked[j] < picked[k]
      invariant forall k: nat | k < i :: k in picked <==> Swept(values, locked, now, current, limit, k)
    {
      if i !in locked && rows[i].SqlMatches(now) {
        taken := taken + 1;
        if rows[i].NeedsProcessing(now, current) {
          picked := picked + [i];
        }
      }
      i := i + 1;
    }
    if i < |rows| { NoneLater(values, locked, now, current, limit, i); }
  }

  // A full sweep takes nothing further.
  lemma NoneLater(values: seq<Entry>, locked: set<nat>, now: int, current: nat, limit: nat, i: nat)
    requires i <= |values| && Matching(values, locked, now, i) >= limit
    ensures forall k: nat | i <= k :: !Swept(values, locked, now, current, limit, k)
  {
    forall k: nat | i <= k < |values| ensures !Swept(values, locked, now, current, limit, k) {
      MatchingGrows(values, locked, now, i, k);
    }
  }

  /** claim_pending_items: exactly the entries a sweep takes are claimed, every other entry is left alone. */
  method ClaimPendingItems(rows: seq<EntryRow>, locked: set<nat>, worker: nat, limit: nat, now: int, seconds: int, current: nat)
    returns (picked: seq<nat>)
    requires forall i, j :: 0 <= i < j < |rows| ==> rows[i] != rows[j]
    modifies rows
    ensures |picked| <= limit
    ensures var before := old(Values(rows));
      forall i: nat | i < |rows| ::
        && (i in picked <==> Swept(before, locked, now, current, limit, i))
        && rows[i].Value() == if i in picked then Claim(before[i], worker, now, seconds) else before[i]
  {
    ghost var before := Values(rows);
    picked := SelectItems(rows, locked, limit, now, current);
    var j := 0;
    while j < |picked|
      invariant 0 <= j <= |picked|
      invariant forall k: nat | k < |rows| ::
                  rows[k].Value() == if k in picked[..j] then Claim(before[k], worker, now, seconds) else before[k]
    {
      assert picked[j] in picked && picked[j] !in picked[..j];
      rows[picked[j]].Claim(worker, now, seconds);
      assert picked[..j + 1] == picked[..j] + [picked[j]];
      j := j + 1;
    }
    assert picked[..j] == picked;
  }

  /** process_item: upsert, then COMPLETED with the current version, or FAILED, or DEAD_LETTERED when the
      budget is spent. */
  method ProcessItem(item: EntryRow, store: VectorStore, current: nat, ok: bool, stored: bool) returns (success: bool)
    modifies item, store
    ensures success == ok
    ensures item.Value() == Finish(old(item.Value()), ok, current)
    ensures store.points == Index(old(store.points), old(item.Value()), current, ok, stored)
  {
    success := store.Upsert(current, item.measurement, item.tenant, ok, stored);
    if success {
      item.status := COMPLETED;
      item.lease := None;
      item.version := current;
    } else {
      if item.attempts >= item.maxRetries {
        item.status := DEAD_LETTERED;
      } else {
        item.status := FAILED;
      }
      item.lease := None;
    }
  }

  /** process_outbox_item_safe up to its commit: skips a missing, locked (`null`) or completed entry, and
      otherwise claims and processes it whatever its budget says. */
  method ProcessOutboxItemSafe(item: EntryRow?, store: VectorStore, trigger: nat, now: int, current: nat, ok: bool, stored: bool)
    returns (success: bool)
    modifies item, store
    ensures item == null || old(item.status) == COMPLETED ==>
              !success && store.points == old(store.points) && (item != null ==> item.Value() == old(item.Value()))
    ensures item != null && old(item.status) != COMPLETED ==>
              var e := Triggered(old(item.Value()), trigger, now);
              success == ok && item.Value() == Finish(e, ok, current)
              && store.points == Index(old(store.points), e, current, ok, stored)
  {
    if item == null || item.status == COMPLETED {
      return false;
    }
    item.Claim(trigger, now, 30);
    item.triggers := item.triggers + 1;
    success := ProcessItem(item, store, current, ok, stored);
  }
}
