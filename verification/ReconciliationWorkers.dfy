/** The reconciliation worker as it is written: lock, selection, loop, catch and finally. */
module ReconciliationWorkers {
  import opened Options
  import opened Orders
  import opened Lifecycle
  import opened Handlers
  import opened Databases
  import Drain
  import Cache
  import LeaderLock

  /** How a tick of the worker ends. */
  datatype TickResult =
    | Skipped
    | Ran(recovered: nat)
    | Failed(error: Error)
    | ProcessDied

  class OrderReconciliationWorker {
    const db: Database
    const cache: Cache.MemoryCache
    const intervalMs: int
    var isProcessing: bool

    constructor (db: Database, cache: Cache.MemoryCache, intervalMs: int)
      ensures this.db == db && this.cache == cache && this.intervalMs == intervalMs && !isProcessing
    {
      this.db, this.cache, this.intervalMs := db, cache, intervalMs;
      isProcessing := false;
    }

    /** What the loop's end means for the caller. */
    static function ResultOf(s: Drain.CycleStatus): TickResult {
      match s
      case Completed(n) => Ran(n)
      case Aborted(error) => TickResult.Failed(error)
      case Died => ProcessDied
    }

    /**
     * `query` is what the selection returns, None if it fails. A process that dies leaves its lock and
     * its flag behind; every other way out passes through `finally`.
     */
    method ReconcilePendingOrders(now: int, query: Option<seq<OrderId>>) returns (r: TickResult)
      requires (this as object) != db && (this as object) != cache && (db as object) != cache
      requires query.Some? ==> Drain.IsQuery(db.cfg, db.table, query.value)
      modifies this, db, cache`locks
      ensures r == Skipped <==> old(isProcessing || Cache.Held(cache.locks, LeaderLock.LOCK_KEY, now))
      ensures r == Skipped ==>
                db.Now() == old(db.Now()) && cache.locks == old(cache.locks) && isProcessing == old(isProcessing)
      ensures r != Skipped && query.None? ==> db.Now() == old(db.Now()) && r == TickResult.Failed(DatabaseError)
      ensures r != Skipped && query.Some? ==>
                var c := Drain.Cycle(db.cfg, old(db.table), old(db.Now()), query.value, old(db.script), 0);
                db.Now() == c.store && db.script == c.rest && r == ResultOf(c.status)
      ensures r != Skipped ==>
                && isProcessing == (r == ProcessDied)
                && cache.locks == (if r == ProcessDied
                                   then old(Cache.AfterAcquire(cache.locks, LeaderLock.LOCK_KEY,
                                       LeaderLock.LockTtl(intervalMs), now))
                                   else old(cache.locks) - {LeaderLock.LOCK_KEY})
      ensures old(Settled(db.cfg, db.Now())) ==> Settled(db.cfg, db.Now())
    {
      hide Handle, Settled, LeaderLock.LockTtl;
      if isProcessing {
        return Skipped;
      }
      var lockTtlSeconds := LeaderLock.LockTtl(intervalMs);
      var hasLock := cache.AcquireLock(LeaderLock.LOCK_KEY, lockTtlSeconds, now);
      if !hasLock {
        return Skipped;
      }
      isProcessing := true;
      if query.None? {
        r := TickResult.Failed(DatabaseError);
      } else if |query.value| == 0 {
        r := Ran(0);
      } else {
        if Settled(db.cfg, db.Now()) {
          Drain.CycleKeepsBooks(db.cfg, db.table, db.Now(), query.value, db.script, 0);
        }
        r := ReconcileAll(query.value);
        if r == ProcessDied {
          return;
        }
      }
      isProcessing := false;
      cache.ReleaseLock(LeaderLock.LOCK_KEY);
    }

    /** The `for` loop over the selected rows, with the count of recovered orders. */
    method ReconcileAll(selected: seq<OrderId>) returns (r: TickResult)
      requires Drain.IsQuery(db.cfg, db.table, selected)
      modifies db
      ensures r != Skipped
      ensures var c := Drain.Cycle(db.cfg, old(db.table), old(db.Now()), selected, old(db.script), 0);
              db.Now() == c.store && db.script == c.rest && r == ResultOf(c.status)
    {
      ghost var seen := db.table;
      ghost var want := Drain.Cycle(db.cfg, seen, db.Now(), selected, db.script, 0);
      var snapshots := db.table;
      var reconciledCount := 0;
      for i := 0 to |selected|
        invariant forall j :: 0 <= j < |selected| ==> selected[j] in snapshots
        invariant Drain.Cycle(db.cfg, seen, db.Now(), selected[i..], db.script, reconciledCount) == want
      {
        hide Handle, WorkerStart, Settled, Drain.Cycle;
        ghost var s, script := db.Now(), db.script;
        var order := snapshots[selected[i]];
        assert selected[i..][0] == selected[i] && selected[i..][1..] == selected[i + 1..];
        var o := ReconcileSingleOrder(selected[i], order);
        Drain.CycleUnfold(db.cfg, seen, s, selected[i..], script, reconciledCount, Ending(db.Now(), db.script, o));
        if o.None? {
          return ProcessDied;
        }
        if o.value.Threw? {
          return TickResult.Failed(o.value.error);
        }
        if o.value == Recovered {
          reconciledCount := reconciledCount + 1;
        }
      }
      r := Ran(reconciledCount);
    }

    method ReconcileSingleOrder(orderId: OrderId, order: Row) returns (o: Option<Outcome>)
      modifies db
      ensures Ending(db.Now(), db.script, o)
                == Handle(db.cfg, old(db.Now()), orderId, WorkerStart(db.cfg, order), old(db.script))
    {
      hide Handle;
      var nextRetry := order.retryCount + 1;
      if order.partner !in db.cfg.registered {
        o := FailUnsupported(orderId, nextRetry);
        return;
      }
      ghost var s0, script0 := db.Now(), db.script;
      ghost var p := WorkerDispatch(order.payload, order.partner, nextRetry);
      var c := db.Next(CourierBooking, orderId, p);
      if c.None? {
        return None;
      }
      Unfold(db.cfg, s0, orderId, p, script0);
      db.Note(orderId, StepAt(db.cfg, s0, orderId, p, c.value));
      assert db.Now() == Commit(s0, orderId, StepAt(db.cfg, s0, orderId, p, c.value));
      if c.value.Booked? {
        o := PersistRecovery(orderId, order.partner, c.value.awb, nextRetry);
      } else {
        o := CatchError(orderId, nextRetry);
      }
    }

    method FailUnsupported(orderId: OrderId, nextRetry: nat) returns (o: Option<Outcome>)
      modifies db
      ensures Ending(db.Now(), db.script, o)
                == Handle(db.cfg, old(db.Now()), orderId, WorkerUnsupported(nextRetry), old(db.script))
    {
      hide Handle;
      ghost var s0, script0 := db.Now(), db.script;
      var c := db.Next(Statement, orderId, WorkerUnsupported(nextRetry));
      if c.None? {
        return None;
      }
      Unfold(db.cfg, s0, orderId, WorkerUnsupported(nextRetry), script0);
      db.Note(orderId, StepAt(db.cfg, s0, orderId, WorkerUnsupported(nextRetry), c.value));
      if Wrote(c.value) && orderId in db.table {
        db.table := db.table[orderId := db.table[orderId].(status := Status.Failed, retryCount := nextRetry)];
      }
      assert db.Now() == Commit(s0, orderId, StepAt(db.cfg, s0, orderId, WorkerUnsupported(nextRetry), c.value));
      if c.value.DbError? {
        o := CatchError(orderId, nextRetry);
      } else {
        o := Some(NotRecovered);
        HandleDone(db.cfg, db.Now(), orderId, Finished(NotRecovered), db.script);
      }
    }

    method PersistRecovery(orderId: OrderId, partner: string, awb: Awb, nextRetry: nat) returns (o: Option<Outcome>)
      modifies db
      ensures Ending(db.Now(), db.script, o)
                == Handle(db.cfg, old(db.Now()), orderId, WorkerPersist(partner, awb, nextRetry), old(db.script))
    {
      hide Handle;
      ghost var s0, script0 := db.Now(), db.script;
      ghost var p := WorkerPersist(partner, awb, nextRetry);
      var c := db.Next(Statement, orderId, p);
      if c.None? {
        return None;
      }
      Unfold(db.cfg, s0, orderId, p, script0);
      db.Note(orderId, StepAt(db.cfg, s0, orderId, p, c.value));
      if Wrote(c.value) && orderId in db.table {
        db.table := db.table[orderId :=
            db.table[orderId].(awb := Some(awb), status := Created, retryCount := nextRetry)];
      }
      assert db.Now() == Commit(s0, orderId, StepAt(db.cfg, s0, orderId, p, c.value));
      if c.value.DbError? {
        o := CatchError(orderId, nextRetry);
      } else {
        o := AppendRecoveryEvent(orderId, partner, awb, nextRetry);
      }
    }

    method AppendRecoveryEvent(orderId: OrderId, partner: string, awb: Awb, nextRetry: nat) returns (o: Option<Outcome>)
      modifies db
      ensures Ending(db.Now(), db.script, o)
                == Handle(db.cfg, old(db.Now()), orderId, WorkerEvent(partner, awb, nextRetry), old(db.script))
    {
      hide Handle;
      ghost var s0, script0 := db.Now(), db.script;
      hide BookedRow;
      ghost var p := WorkerEvent(partner, awb, nextRetry);
      var c := db.Next(Statement, orderId, p);
      if c.None? {
        return None;
      }
      Unfold(db.cfg, s0, orderId, p, script0);
      db.Note(orderId, StepAt(db.cfg, s0, orderId, p, c.value));
      if Wrote(c.value) {
        db.log := db.log + [RecoveryEvent(orderId, partner, awb)];
      }
      assert db.Now() == Commit(s0, orderId, StepAt(db.cfg, s0, orderId, p, c.value));
      if c.value.DbError? {
        o := CatchError(orderId, nextRetry);
      } else {
        o := Some(Recovered);
        HandleDone(db.cfg, db.Now(), orderId, Finished(Recovered), db.script);
      }
    }

    /** The catch block; its own database error leaves the method. */
    method CatchError(orderId: OrderId, nextRetry: nat) returns (o: Option<Outcome>)
      modifies db
      ensures Ending(db.Now(), db.script, o)
                == Handle(db.cfg, old(db.Now()), orderId, WorkerCatch(nextRetry), old(db.script))
    {
      hide Handle;
      ghost var s0, script0 := db.Now(), db.script;
      var c := db.Next(Statement, orderId, WorkerCatch(nextRetry));
      if c.None? {
        return None;
      }
      Unfold(db.cfg, s0, orderId, WorkerCatch(nextRetry), script0);
      db.Note(orderId, StepAt(db.cfg, s0, orderId, WorkerCatch(nextRetry), c.value));
      var isFinalAttempt := nextRetry >= db.cfg.maxRetry;
      if Wrote(c.value) && orderId in db.table {
        db.table := db.table[orderId :=
          db.table[orderId].(status := if isFinalAttempt then Status.Failed else PendingDispatch,
                             retryCount := nextRetry)];
      }
      assert db.Now() == Commit(s0, orderId, StepAt(db.cfg, s0, orderId, WorkerCatch(nextRetry), c.value));
      o := Some(if c.value.DbError? then Threw(DatabaseError) else NotRecovered);
      HandleDone(db.cfg, db.Now(), orderId, Finished(o.value), db.script);
    }
  }
}
