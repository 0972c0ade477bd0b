/** Acceptance of provider events behind two levels of deduplication (app/core/idempotency.py,
    app/api/webhooks/razorpay.py:91-116): an unreliable lock in Redis and a unique index in the database. */
module WebhookGate {

  const LOCK_SECONDS := 86400

  datatype Outcome = ACCEPTED | DUPLICATE | RAISED

  // `redis`: the lock service answers. `database`: the insert does not fail for another reason than the
  // unique index.
  datatype Delivery = Delivery(event: nat, now: int, redis: bool, database: bool)

  // `locks` maps a key to the time its lock expires.
  datatype Gate = Gate(locks: map<nat, int>, persisted: set<nat>)

  predicate Locked(g: Gate, d: Delivery) {
    d.redis && d.event in g.locks && d.now < g.locks[d.event]
  }

  function OutcomeOf(g: Gate, d: Delivery): Outcome {
    if Locked(g, d) then DUPLICATE
    else if !d.database then RAISED
    else if d.event in g.persisted then DUPLICATE
    else ACCEPTED
  }

  function After(g: Gate, d: Delivery): Gate {
    if Locked(g, d) then g
    else Gate(if d.redis then g.locks[d.event := d.now + LOCK_SECONDS] else g.locks,
              if d.database then g.persisted + {d.event} else g.persisted)
  }

  class EventGate {
    var locks: map<nat, int>
    var persisted: set<nat>

    function Value(): Gate
      reads this
    {
      Gate(locks, persisted)
    }

    constructor ()
      ensures Value() == Gate(map[], {})
    {
      locks, persisted := map[], {};
    }

    /** acquire_redis_lock: set-if-absent with an expiry; a failing Redis lets everything through. */
    method AcquireRedisLock(d: Delivery) returns (acquired: bool)
      modifies this`locks
      ensures acquired == !Locked(old(Value()), d)
      ensures locks == if acquired && d.redis then old(locks)[d.event := d.now + LOCK_SECONDS] else old(locks)
    {
      if !d.redis {
        return true;
      }
      if d.event in locks && d.now < locks[d.event] {
        return false;
      }
      locks := locks[d.event := d.now + LOCK_SECONDS];
      return true;
    }

    /** persist_event_pg: the insert, with the unique index catching a repeated key. */
    method PersistEvent(d: Delivery) returns (outcome: Outcome)
      modifies this`persisted
      ensures outcome == if !d.database then RAISED else if d.event in old(persisted) then DUPLICATE else ACCEPTED
      ensures persisted == if d.database then old(persisted) + {d.event} else old(persisted)
    {
      if !d.database {
        return RAISED;
      }
      if d.event in persisted {
        return DUPLICATE;
      }
      persisted := persisted + {d.event};
      return ACCEPTED;
    }

    method Receive(d: Delivery) returns (outcome: Outcome)
      modifies this
      ensures outcome == OutcomeOf(old(Value()), d) && Value() == After(old(Value()), d)
    {
      var acquired := AcquireRedisLock(d);
      if !acquired {
        return DUPLICATE;
      }
      outcome := PersistEvent(d);
    }
  }

  /* ---- Runs ---- */

  // Redis may also lose locks at any moment: `kept` says which survive until the next delivery.
  datatype Step = Step(delivery: Delivery, kept: set<nat>)

  function Forget(g: Gate, kept: set<nat>): Gate { g.(locks := map e | e in g.locks && e in kept :: g.locks[e]) }

  function GateAfter(steps: seq<Step>): Gate {
    if steps == [] then Gate(map[], {})
    else
      var s := steps[|steps| - 1];
      Forget(After(GateAfter(steps[..|steps| - 1]), s.delivery), s.kept)
  }

  function OutcomeAt(steps: seq<Step>, i: nat): Outcome
    requires i < |steps|
  {
    OutcomeOf(GateAfter(steps[..i]), steps[i].delivery)
  }

  function Accepted(steps: seq<Step>, event: nat): nat {
    if steps == [] then 0
    else
      var last := |steps| - 1;
      Accepted(steps[..last], event)
        + if steps[last].delivery.event == event && OutcomeAt(steps, last) == ACCEPTED then 1 else 0
  }

  /** Exactly once: however often an event is delivered and whatever Redis forgets or refuses, it is
      accepted at most once, and it is accepted exactly when it is persisted. */
  lemma {:induction false} AcceptedOnce(steps: seq<Step>, event: nat)
    ensures Accepted(steps, event) == if event in GateAfter(steps).persisted then 1 else 0
  {
    if steps != [] {
      AcceptedOnce(steps[..|steps| - 1], event);
    }
  }

  ghost predicate Delivered(steps: seq<Step>, event: nat) {
    exists i | 0 <= i < |steps| :: steps[i].delivery.event == event
  }

  ghost predicate Failed(steps: seq<Step>, event: nat) {
    exists i | 0 <= i < |steps| :: steps[i].delivery.event == event && OutcomeAt(steps, i) == RAISED
  }

  lemma EarlierOutcome(steps: seq<Step>, i: nat)
    requires i < |steps| - 1
    ensures OutcomeAt(steps[..|steps| - 1], i) == OutcomeAt(steps, i)
  {
    assert steps[..|steps| - 1][..i] == steps[..i];
  }

  lemma StillFailed(steps: seq<Step>, event: nat)
    requires steps != [] && Failed(steps[..|steps| - 1], event)
    ensures Failed(steps, event)
  {
    var rest := steps[..|steps| - 1];
    var i :| 0 <= i < |rest| && rest[i].delivery.event == event && OutcomeAt(rest, i) == RAISED;
    EarlierOutcome(steps, i);
    assert steps[i].delivery.event == event;
  }

  // A lock exists only for an event that is persisted or whose insert failed.
  lemma {:induction false} LocksMeanSeen(steps: seq<Step>, event: nat)
    requires event in GateAfter(steps).locks
    ensures event in GateAfter(steps).persisted || Failed(steps, event)
  {
    var rest, last := steps[..|steps| - 1], |steps| - 1;
    var d := steps[last].delivery;
    if event in GateAfter(rest).locks {
      LocksMeanSeen(rest, event);
      if Failed(rest, event) { StillFailed(steps, event); }
    } else {
      assert d.event == event;
      assert !d.database ==> OutcomeAt(steps, last) == RAISED;
    }
  }

  /** Nothing is lost unless an insert failed: a delivered event that is not persisted had a delivery whose
      insert raised. */
  lemma {:induction false} DeliveredOrFailed(steps: seq<Step>, event: nat)
    requires Delivered(steps, event)
    ensures event in GateAfter(steps).persisted || Failed(steps, event)
  {
    var rest, last := steps[..|steps| - 1], |steps| - 1;
    var d := steps[last].delivery;
    if d.event == event {
      if Locked(GateAfter(rest), d) {
        LocksMeanSeen(rest, event);
        if Failed(rest, event) { StillFailed(steps, event); }
      } else if !d.database {
        assert OutcomeAt(steps, last) == RAISED;
      }
    } else {
      var i :| 0 <= i < |steps| && steps[i].delivery.event == event;
      assert rest[i].delivery.event == event;
      DeliveredOrFailed(rest, event);
      if Failed(rest, event) { StillFailed(steps, event); }
    }
  }

  /** And then it can be: after a failed insert the lock stays, so a redelivery with a working database is
      dropped as a duplicate although nothing was persisted, exactly while the lock lives. */
  lemma FailedInsertBlocksRetries(g: Gate, first: Delivery, again: Delivery)
    requires first.event !in g.persisted && !Locked(g, first)
    requires first.redis && !first.database && again.event == first.event && again.redis && again.database
    ensures var after := After(g, first);
      && first.event !in after.persisted
      && (OutcomeOf(after, again) == DUPLICATE <==> again.now < first.now + 86400)
      && (OutcomeOf(after, again) == ACCEPTED <==> again.now >= first.now + 86400)
  {
  }
}
