/**
 * `createOrder` as it is written: one statement after the other, with early returns and errors.
 * It is proved to compute exactly `Handle`, so what is proved about serialised runs holds of it.
 */
module OrderServices {
  import opened Options
  import opened Orders
  import opened Lifecycle
  import opened Handlers
  import opened Databases

  class OrderService {
    const db: Database

    constructor (db: Database)
      ensures this.db == db
    {
      this.db := db;
    }

    method CreateOrder(req: Request) returns (o: Option<Outcome>)
      modifies db
      ensures Ending(db.Now(), db.script, o)
           == Handle(db.cfg, old(db.Now()), req.orderId, CreateRead(req), old(db.script))
      ensures old(Settled(db.cfg, db.Now())) ==> Settled(db.cfg, db.Now())
    {
      ghost var s0, script0 := db.Now(), db.script;
      if Settled(db.cfg, s0) {
        OperationKeepsBooks(db.cfg, s0, req.orderId, Create(req), script0);
      }
      hide Settled, Step, Handle;
      // 1. idempotency
      var c := db.Next(Statement, req.orderId, CreateRead(req));
      if c.None? {
        return None;
      }
      Unfold(db.cfg, s0, req.orderId, CreateRead(req), script0);
      ReadStep(db.cfg, s0, req, c.value);
      db.Note(req.orderId, StepAt(db.cfg, s0, req.orderId, CreateRead(req), c.value));
      if c.value.DbError? {
        HandleDone(db.cfg, db.Now(), req.orderId, Finished(Threw(DatabaseError)), db.script);
        return Some(Threw(DatabaseError));
      }
      var existing := db.Find(req.orderId);
      var idempotent := CheckIdempotentResponse(existing);
      if idempotent.Some? {
        HandleDone(db.cfg, db.Now(), req.orderId, Finished(idempotent.value), db.script);
        return idempotent;
      }
      // 2. pre-persist
      var pre := PrePersistPendingOrder(req, existing);
      if pre.None? {
        return None;
      }
      if pre.value.Thrown? {
        HandleDone(db.cfg, db.Now(), req.orderId, Finished(Threw(pre.value.error)), db.script);
        return Some(Threw(pre.value.error));
      }
      // 3. dispatch
      var sent := DispatchWithFailureAudit(req);
      if sent.None? {
        return None;
      }
      if sent.value.Thrown? {
        HandleDone(db.cfg, db.Now(), req.orderId, Finished(Threw(sent.value.error)), db.script);
        return Some(Threw(sent.value.error));
      }
      // 4. persist
      o := PersistOrderAndInitialTracking(req, sent.value.value);
    }

    static function CheckIdempotentResponse(existing: Option<Row>): Option<Outcome> {
      if existing.Some? && existing.value.status != Failed && existing.value.status != PendingDispatch then
        Some(Outcome.Booking(AwbText(existing.value), existing.value.status))
      else None
    }

    static lemma ReadStep(cfg: Config, s: Store, req: Request, c: Choice)
      requires Fits(CreateRead(req), c)
      ensures var e := StepAt(cfg, s, req.orderId, CreateRead(req), c);
              && Commit(s, req.orderId, e) == s.(ledger := s.ledger[req.orderId := e.ledger])
              && e.phase == if c.DbError? then Finished(Threw(DatabaseError))
                            else match CheckIdempotentResponse(RowOf(s, req.orderId))
                                 case Some(o) => Finished(o)
                                 case None => CreatePending(req, RowOf(s, req.orderId))
    {
    }

    /** Where createOrder goes once the pending row is there: the registry lookup may throw. */
    static function AfterPending(cfg: Config, req: Request): Phase {
      if req.partner in cfg.registered then CreateDispatch(req) else Finished(Threw(UnknownCourier))
    }

    method PrePersistPendingOrder(req: Request, existing: Option<Row>) returns (r: Option<Try<()>>)
      modifies db
      ensures var h := Handle(db.cfg, old(db.Now()), req.orderId, CreatePending(req, existing), old(db.script));
              match r
              case None => h == Ending(db.Now(), db.script, None)
              case Some(Value(_)) => h == Handle(db.cfg, db.Now(), req.orderId, AfterPending(db.cfg, req), db.script)
              case Some(Thrown(error)) => h == Handle(db.cfg, db.Now(), req.orderId, Finished(Threw(error)), db.script)
    {
      hide Handle;
      var id := req.orderId;
      ghost var s0, script0 := db.Now(), db.script;
      ghost var p := CreatePending(req, existing);
      var c := db.Next(Statement, id, p);
      if c.None? {
        return None;
      }
      Unfold(db.cfg, s0, id, p, script0);
      ghost var e := StepAt(db.cfg, s0, id, p, c.value);
      db.Note(id, e);
      if existing.Some? {
        if Wrote(c.value) && id in db.table {
          db.table := db.table[id := db.table[id].(status := PendingDispatch, payload := req)];
        }
      } else if id in db.table {
        assert db.Now() == Commit(s0, id, e);
        return Some(Thrown(DuplicateKey));
      } else if Wrote(c.value) {
        db.table := db.table[id := Row(req.partner, None, PendingDispatch, 0, req)];
      }
      assert db.Now() == Commit(s0, id, e);
      r := Some(if c.value.DbOk? then Value(()) else Thrown(DatabaseError));
    }

    method DispatchWithFailureAudit(req: Request) returns (r: Option<Try<Awb>>)
      modifies db
      ensures var h := Handle(db.cfg, old(db.Now()), req.orderId, AfterPending(db.cfg, req), old(db.script));
              match r
              case None => h == Ending(db.Now(), db.script, None)
              case Some(Value(awb)) => h == Handle(db.cfg, db.Now(), req.orderId, CreatePersist(req, awb), db.script)
              case Some(Thrown(error)) => h == Handle(db.cfg, db.Now(), req.orderId, Finished(Threw(error)), db.script)
    {
      hide Handle;
      var id := req.orderId;
      if req.partner !in db.cfg.registered {
        return Some(Thrown(UnknownCourier));
      }
      ghost var s0, script0 := db.Now(), db.script;
      var c := db.Next(CourierBooking, id, CreateDispatch(req));
      if c.None? {
        return None;
      }
      Unfold(db.cfg, s0, id, CreateDispatch(req), script0);
      db.Note(id, StepAt(db.cfg, s0, id, CreateDispatch(req), c.value));
      assert db.Now() == Commit(s0, id, StepAt(db.cfg, s0, id, CreateDispatch(req), c.value));
      if c.value.Booked? {
        return Some(Value(c.value.awb));
      }
      r := RecordFailureAudit(id);
    }

    /** A database error is only logged; the courier's error is what the caller sees. */
    method RecordFailureAudit(id: OrderId) returns (r: Option<Try<Awb>>)
      modifies db
      ensures var h := Handle(db.cfg, old(db.Now()), id, CreateAudit, old(db.script));
              match r
              case None => h == Ending(db.Now(), db.script, None)
              case Some(t) =>
                && t == Thrown(CourierError)
                && h == Handle(db.cfg, db.Now(), id, Finished(Threw(CourierError)), db.script)
    {
      hide Handle;
      ghost var s0, script0 := db.Now(), db.script;
      var c := db.Next(Statement, id, CreateAudit);
      if c.None? {
        return None;
      }
      Unfold(db.cfg, s0, id, CreateAudit, script0);
      db.Note(id, StepAt(db.cfg, s0, id, CreateAudit, c.value));
      if Wrote(c.value) && id in db.table {
        db.table := db.table[id := db.table[id].(status := Failed)];
      }
      assert db.Now() == Commit(s0, id, StepAt(db.cfg, s0, id, CreateAudit, c.value));
      r := Some(Thrown(CourierError));
    }

    /** One transaction, or on sqlite two statements. */
    method PersistOrderAndInitialTracking(req: Request, awb: Awb) returns (o: Option<Outcome>)
      modifies db
      ensures Ending(db.Now(), db.script, o)
           == Handle(db.cfg, old(db.Now()), req.orderId, CreatePersist(req, awb), old(db.script))
    {
      hide Handle;
      var id := req.orderId;
      ghost var s0, script0 := db.Now(), db.script;
      ghost var p := CreatePersist(req, awb);
      var c := db.Next(Statement, id, p);
      if c.None? {
        return None;
      }
      Unfold(db.cfg, s0, id, p, script0);
      ghost var e := StepAt(db.cfg, s0, id, p, c.value);
      db.Note(id, e);
      var found := id in db.table;
      if Wrote(c.value) && found {
        db.table := db.table[id := db.table[id].(awb := Some(awb), status := Created)];
        if db.cfg.transactional {
          db.log := db.log + [BookingEvent(id, req.partner, awb)];
        }
      }
      assert db.Now() == Commit(s0, id, e);
      if c.value.DbError? || db.cfg.transactional || !found {
        o := Some(if c.value.DbError? then Threw(DatabaseError) else Outcome.Booking(awb, Created));
        HandleDone(db.cfg, db.Now(), id, Finished(o.value), db.script);
        return;
      }
      o := PersistInitialEvent(req, awb);
    }

    method PersistInitialEvent(req: Request, awb: Awb) returns (o: Option<Outcome>)
      modifies db
      ensures Ending(db.Now(), db.script, o)
           == Handle(db.cfg, old(db.Now()), req.orderId, CreateEvent(req, awb), old(db.script))
    {
      hide Handle;
      var id := req.orderId;
      ghost var s0, script0 := db.Now(), db.script;
      var c := db.Next(Statement, id, CreateEvent(req, awb));
      if c.None? {
        return None;
      }
      Unfold(db.cfg, s0, id, CreateEvent(req, awb), script0);
      db.Note(id, StepAt(db.cfg, s0, id, CreateEvent(req, awb), c.value));
      if Wrote(c.value) {
        db.log := db.log + [BookingEvent(id, req.partner, awb)];
      }
      assert db.Now() == Commit(s0, id, StepAt(db.cfg, s0, id, CreateEvent(req, awb), c.value));
      o := Some(if c.value.DbError? then Threw(DatabaseError) else Outcome.Booking(awb, Created));
      HandleDone(db.cfg, db.Now(), id, Finished(o.value), db.script);
    }
  }
}
