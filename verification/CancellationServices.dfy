/** `cancelOrder` as it is written. */
module CancellationServices {
  import opened Options
  import opened Orders
  import opened Lifecycle
  import opened Handlers
  import opened Databases

  class CancellationService {
    const db: Database

    constructor (db: Database)
      ensures this.db == db
    {
      this.db := db;
    }

    method CancelOrder(orderId: OrderId, reason: string) returns (o: Option<Outcome>)
      modifies db
      ensures Ending(db.Now(), db.script, o)
                == Handle(db.cfg, old(db.Now()), orderId, CancelFetch(reason), old(db.script))
      ensures old(Settled(db.cfg, db.Now())) ==> Settled(db.cfg, db.Now())
    {
      ghost var s0, script0 := db.Now(), db.script;
      if Settled(db.cfg, s0) {
        OperationKeepsBooks(db.cfg, s0, orderId, Cancel(reason), script0);
      }
      hide Settled, Handle;
      var c := db.Next(Statement, orderId, CancelFetch(reason));
      if c.None? {
        return None;
      }
      Unfold(db.cfg, s0, orderId, CancelFetch(reason), script0);
      db.Note(orderId, StepAt(db.cfg, s0, orderId, CancelFetch(reason), c.value));
      assert db.Now() == Commit(s0, orderId, StepAt(db.cfg, s0, orderId, CancelFetch(reason), c.value));
      if c.value.DbError? {
        o := Some(Threw(DatabaseError));
      } else if orderId !in db.table {
        o := Some(Threw(NotFound));
      } else {
        var order := db.table[orderId];
        if order.status == Cancelled {
          o := Some(AlreadyCancelled);
        } else if order.status == Delivered {
          o := Some(Threw(NotCancellable));
        } else if order.partner !in db.cfg.registered {
          o := Some(Threw(UnknownCourier));
        } else {
          o := CancelWithCourier(orderId, AwbText(order), reason);
          return;
        }
      }
      HandleDone(db.cfg, db.Now(), orderId, Finished(o.value), db.script);
    }

    method CancelWithCourier(orderId: OrderId, waybill: string, reason: string) returns (o: Option<Outcome>)
      modifies db
      ensures Ending(db.Now(), db.script, o)
                == Handle(db.cfg, old(db.Now()), orderId, CancelCall(waybill, reason), old(db.script))
    {
      hide Handle;
      ghost var s0, script0 := db.Now(), db.script;
      var c := db.Next(CourierCancel, orderId, CancelCall(waybill, reason));
      if c.None? {
        return None;
      }
      Unfold(db.cfg, s0, orderId, CancelCall(waybill, reason), script0);
      db.Note(orderId, StepAt(db.cfg, s0, orderId, CancelCall(waybill, reason), c.value));
      assert db.Now() == Commit(s0, orderId, StepAt(db.cfg, s0, orderId, CancelCall(waybill, reason), c.value));
      if c.value.CancelFailed? {
        HandleDone(db.cfg, db.Now(), orderId, Finished(Threw(CourierError)), db.script);
        return Some(Threw(CourierError));
      }
      o := PersistCancelledState(orderId, waybill, reason);
    }

    method PersistCancelledState(orderId: OrderId, waybill: string, reason: string) returns (o: Option<Outcome>)
      modifies db
      ensures Ending(db.Now(), db.script, o)
                == Handle(db.cfg, old(db.Now()), orderId, CancelPersist(waybill, reason), old(db.script))
    {
      hide Handle;
      ghost var s0, script0 := db.Now(), db.script;
      var c := db.Next(Statement, orderId, CancelPersist(waybill, reason));
      if c.None? {
        return None;
      }
      Unfold(db.cfg, s0, orderId, CancelPersist(waybill, reason), script0);
      db.Note(orderId, StepAt(db.cfg, s0, orderId, CancelPersist(waybill, reason), c.value));
      if Wrote(c.value) && orderId in db.table {
        db.table := db.table[orderId := db.table[orderId].(status := Cancelled)];
      }
      assert db.Now() == Commit(s0, orderId, StepAt(db.cfg, s0, orderId, CancelPersist(waybill, reason), c.value));
      if c.value.DbError? {
        HandleDone(db.cfg, db.Now(), orderId, Finished(Threw(DatabaseError)), db.script);
        return Some(Threw(DatabaseError));
      }
      o := AppendCancelEvent(orderId, waybill, reason);
    }

    method AppendCancelEvent(orderId: OrderId, waybill: string, reason: string) returns (o: Option<Outcome>)
      modifies db
      ensures Ending(db.Now(), db.script, o)
                == Handle(db.cfg, old(db.Now()), orderId, CancelEvent(waybill, reason), old(db.script))
    {
      hide Handle;
      ghost var s0, script0 := db.Now(), db.script;
      var c := db.Next(Statement, orderId, CancelEvent(waybill, reason));
      if c.None? {
        return None;
      }
      Unfold(db.cfg, s0, orderId, CancelEvent(waybill, reason), script0);
      db.Note(orderId, StepAt(db.cfg, s0, orderId, CancelEvent(waybill, reason), c.value));
      if Wrote(c.value) {
        db.log := db.log + [CancelEntry(orderId, waybill, reason)];
      }
      assert db.Now() == Commit(s0, orderId, StepAt(db.cfg, s0, orderId, CancelEvent(waybill, reason), c.value));
      o := Some(if c.value.DbError? then Threw(DatabaseError) else CancelConfirmed);
      HandleDone(db.cfg, db.Now(), orderId, Finished(o.value), db.script);
    }
  }
}
