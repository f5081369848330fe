/** `trackOrder` as it is written. */
module TrackingServices {
  import opened Options
  import opened Orders
  import opened Lifecycle
  import opened Handlers
  import opened Databases

  class TrackingService {
    const db: Database

    constructor (db: Database)
      ensures this.db == db
    {
      this.db := db;
    }

    method TrackOrder(orderId: OrderId) returns (o: Option<Outcome>)
      modifies db
      ensures Ending(db.Now(), db.script, o) == Handle(db.cfg, old(db.Now()), orderId, TrackFetch, old(db.script))
      ensures old(Settled(db.cfg, db.Now())) ==> Settled(db.cfg, db.Now())
    {
      ghost var s0, script0 := db.Now(), db.script;
      if Settled(db.cfg, s0) {
        OperationKeepsBooks(db.cfg, s0, orderId, Track, script0);
      }
      hide Settled, Handle;
      var fetched := FetchOrderWithHistory(orderId);
      if fetched.None? {
        return None;
      }
      if fetched.value.Thrown? {
        HandleDone(db.cfg, db.Now(), orderId, Finished(Threw(fetched.value.error)), db.script);
        return Some(Threw(fetched.value.error));
      }
      var order := fetched.value.value;
      o := TrackWithCourier(orderId, order);
    }

    /** The order, which must exist and have a waybill, and whose courier must be registered. */
    method FetchOrderWithHistory(orderId: OrderId) returns (r: Option<Try<Row>>)
      modifies db
      ensures var h := Handle(db.cfg, old(db.Now()), orderId, TrackFetch, old(db.script));
              match r
              case None => h == Ending(db.Now(), db.script, None)
              case Some(Value(row)) => h == Handle(db.cfg, db.Now(), orderId, TrackCall(row), db.script)
              case Some(Thrown(error)) => h == Handle(db.cfg, db.Now(), orderId, Finished(Threw(error)), db.script)
    {
      hide Handle;
      ghost var s0, script0 := db.Now(), db.script;
      var c := db.Next(Statement, orderId, TrackFetch);
      if c.None? {
        return None;
      }
      Unfold(db.cfg, s0, orderId, TrackFetch, script0);
      db.Note(orderId, StepAt(db.cfg, s0, orderId, TrackFetch, c.value));
      assert db.Now() == Commit(s0, orderId, StepAt(db.cfg, s0, orderId, TrackFetch, c.value));
      if c.value.DbError? {
        return Some(Thrown(DatabaseError));
      }
      if orderId !in db.table || db.table[orderId].awb.None? {
        return Some(Thrown(NotFound));
      }
      var order := db.table[orderId];
      if order.partner !in db.cfg.registered {
        return Some(Thrown(UnknownCourier));
      }
      r := Some(Value(order));
    }

    method TrackWithCourier(orderId: OrderId, order: Row) returns (o: Option<Outcome>)
      modifies db
      ensures Ending(db.Now(), db.script, o) == Handle(db.cfg, old(db.Now()), orderId, TrackCall(order), old(db.script))
    {
      hide Handle;
      ghost var s0, script0 := db.Now(), db.script;
      var c := db.Next(CourierTracking, orderId, TrackCall(order));
      if c.None? {
        return None;
      }
      Unfold(db.cfg, s0, orderId, TrackCall(order), script0);
      db.Note(orderId, StepAt(db.cfg, s0, orderId, TrackCall(order), c.value));
      assert db.Now() == Commit(s0, orderId, StepAt(db.cfg, s0, orderId, TrackCall(order), c.value));
      if c.value.TrackingFailed? {
        HandleDone(db.cfg, db.Now(), orderId, Finished(Threw(CourierError)), db.script);
        return Some(Threw(CourierError));
      }
      var report := c.value.report;
      var failure := UpdateOrderStatusIfChanged(orderId, order, report);
      if failure.None? {
        return None;
      }
      if failure.value.Thrown? {
        HandleDone(db.cfg, db.Now(), orderId, Finished(Threw(failure.value.error)), db.script);
        return Some(Threw(failure.value.error));
      }
      o := AppendNewTrackingEvents(orderId, AwbText(order), report);
    }

    method UpdateOrderStatusIfChanged(orderId: OrderId, order: Row, report: Report) returns (r: Option<Try<()>>)
      modifies db
      ensures var h := Handle(db.cfg, old(db.Now()), orderId, AfterReport(order, report), old(db.script));
              match r
              case None => h == Ending(db.Now(), db.script, None)
              case Some(Value(_)) =>
                h == Handle(db.cfg, db.Now(), orderId, NextScan(AwbText(order), report, 0), db.script)
              case Some(Thrown(error)) => h == Handle(db.cfg, db.Now(), orderId, Finished(Threw(error)), db.script)
    {
      hide Handle, NextScan;
      if order.status == report.status {
        return Some(Value(()));
      }
      ghost var s0, script0 := db.Now(), db.script;
      ghost var p := TrackStatus(order, report);
      var c := db.Next(Statement, orderId, p);
      if c.None? {
        return None;
      }
      Unfold(db.cfg, s0, orderId, p, script0);
      db.Note(orderId, StepAt(db.cfg, s0, orderId, p, c.value));
      if Wrote(c.value) && orderId in db.table {
        db.table := db.table[orderId := db.table[orderId].(status := report.status)];
      }
      assert db.Now() == Commit(s0, orderId, StepAt(db.cfg, s0, orderId, p, c.value));
      r := Some(if c.value.DbError? then Thrown(DatabaseError) else Value(()));
    }

    method AppendNewTrackingEvents(orderId: OrderId, waybill: string, report: Report) returns (o: Option<Outcome>)
      modifies db
      ensures Ending(db.Now(), db.script, o)
           == Handle(db.cfg, old(db.Now()), orderId, NextScan(waybill, report, 0), old(db.script))
    {
      hide Handle;
      ghost var want := Handle(db.cfg, db.Now(), orderId, NextScan(waybill, report, 0), db.script);
      for k := 0 to |report.history|
        invariant Handle(db.cfg, db.Now(), orderId, NextScan(waybill, report, k), db.script) == want
      {
        var r := PersistUniqueTrackingEvent(orderId, waybill, report, k);
        if r.None? {
          return None;
        }
        if r.value.Thrown? {
          HandleDone(db.cfg, db.Now(), orderId, Finished(Threw(r.value.error)), db.script);
          return Some(Threw(r.value.error));
        }
      }
      HandleDone(db.cfg, db.Now(), orderId, Finished(Tracked(report)), db.script);
      return Some(Tracked(report));
    }

    method PersistUniqueTrackingEvent(
      orderId: OrderId, waybill: string, report: Report, k: nat
    ) returns (r: Option<Try<()>>)
      requires k < |report.history|
      modifies db
      ensures var h := Handle(db.cfg, old(db.Now()), orderId, TrackFind(waybill, report, k), old(db.script));
              match r
              case None => h == Ending(db.Now(), db.script, None)
              case Some(Value(_)) => h == Handle(db.cfg, db.Now(), orderId, NextScan(waybill, report, k + 1), db.script)
              case Some(Thrown(error)) => h == Handle(db.cfg, db.Now(), orderId, Finished(Threw(error)), db.script)
    {
      hide Handle, NextScan;
      ghost var s0, script0 := db.Now(), db.script;
      ghost var p := TrackFind(waybill, report, k);
      var c := db.Next(Statement, orderId, p);
      if c.None? {
        return None;
      }
      Unfold(db.cfg, s0, orderId, p, script0);
      db.Note(orderId, StepAt(db.cfg, s0, orderId, p, c.value));
      assert db.Now() == Commit(s0, orderId, StepAt(db.cfg, s0, orderId, p, c.value));
      if c.value.DbError? {
        return Some(Thrown(DatabaseError));
      }
      if exists i :: 0 <= i < |db.log| && SameScan(db.log[i], orderId, report.history[k]) {
        return Some(Value(()));
      }
      r := AppendEvent(orderId, waybill, report, k);
    }

    method AppendEvent(orderId: OrderId, waybill: string, report: Report, k: nat) returns (r: Option<Try<()>>)
      requires k < |report.history|
      modifies db
      ensures var h := Handle(db.cfg, old(db.Now()), orderId, TrackAppend(waybill, report, k), old(db.script));
              match r
              case None => h == Ending(db.Now(), db.script, None)
              case Some(Value(_)) => h == Handle(db.cfg, db.Now(), orderId, NextScan(waybill, report, k + 1), db.script)
              case Some(Thrown(error)) => h == Handle(db.cfg, db.Now(), orderId, Finished(Threw(error)), db.script)
    {
      hide Handle, NextScan;
      ghost var s0, script0 := db.Now(), db.script;
      ghost var p := TrackAppend(waybill, report, k);
      var c := db.Next(Statement, orderId, p);
      if c.None? {
        return None;
      }
      Unfold(db.cfg, s0, orderId, p, script0);
      db.Note(orderId, StepAt(db.cfg, s0, orderId, p, c.value));
      if Wrote(c.value) {
        db.log := db.log + [ScanEvent(orderId, waybill, report.history[k])];
      }
      assert db.Now() == Commit(s0, orderId, StepAt(db.cfg, s0, orderId, p, c.value));
      r := Some(if c.value.DbError? then Thrown(DatabaseError) else Value(()));
    }
  }
}
