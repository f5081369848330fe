/**
 * Which answers of the outside world lead to which outcome: for each way an operation can go, its exact
 * outcome, row, log entry and bookkeeping. Together with Outcomes, which says what an outcome means,
 * this says when each one is reached.
 */
module ExactAnswers {
  import opened Options
  import opened Orders
  import opened Lifecycle
  import opened Handlers
  import opened Outcomes

  /** Ended with this outcome, and every answer was used. */
  predicate Ends(e: Ending, o: Outcome) {
    e.outcome == Some(o) && e.rest == []
  }

  /** So many more bookings, lost bookings, cancellations and lost cancellations on the ledger. */
  predicate Counted(s: Store, s': Store, id: OrderId, booked: nat, lost: nat, cancelled: nat, cancelsLost: nat) {
    var before, now := LedgerOf(s, id), LedgerOf(s', id);
    && now.booked == before.booked + booked && now.lost == before.lost + lost
    && now.cancelled == before.cancelled + cancelled && now.cancelsLost == before.cancelsLost + cancelsLost
  }

  function One(b: bool): nat {
    if b then 1 else 0
  }

  /** One answer. */
  lemma Take(cfg: Config, s: Store, id: OrderId, p: Phase, c: Choice, rest: seq<Choice>) returns (e: Effect, s': Store)
    requires !p.Finished? && Fits(p, c)
    ensures e == StepAt(cfg, s, id, p, c) && s' == Commit(s, id, e)
    ensures Handle(cfg, s, id, p, [c] + rest) == Handle(cfg, s', id, e.phase, rest)
    ensures e.phase.Finished? && rest == [] ==> Ends(Handle(cfg, s, id, p, [c] + rest), e.phase.outcome)
    ensures e.phase.Finished? && rest == [] ==> Handle(cfg, s, id, p, [c] + rest).store == s'
  {
    e := StepAt(cfg, s, id, p, c);
    s' := Commit(s, id, e);
    hide Step;
    assert ([c] + rest)[1..] == rest;
    Unfold(cfg, s, id, p, [c] + rest);
    if e.phase.Finished? {
      HandleDone(cfg, s', id, e.phase, rest);
    }
  }

  /** The last answer. */
  lemma Last(cfg: Config, s: Store, id: OrderId, p: Phase, c: Choice) returns (e: Effect, s': Store)
    requires !p.Finished? && Fits(p, c)
    ensures e == StepAt(cfg, s, id, p, c) && s' == Commit(s, id, e)
    ensures e.phase.Finished? ==>
              Ends(Handle(cfg, s, id, p, [c]), e.phase.outcome) && Handle(cfg, s, id, p, [c]).store == s'
  {
    e, s' := Take(cfg, s, id, p, c, []);
    assert [c] + [] == [c];
  }

  // createOrder

  lemma ReadFails(cfg: Config, s: Store, req: Request, applied: bool)
    ensures var e := Handle(cfg, s, req.orderId, CreateRead(req), [DbError(applied)]);
            Ends(e, Threw(DatabaseError)) && SameTables(s, e.store) && Counted(s, e.store, req.orderId, 0, 0, 0, 0)
  {
    hide Handle;
    var e, s' := Last(cfg, s, req.orderId, CreateRead(req), DbError(applied));
  }

  /** A settled order is answered from its row. */
  lemma SettledIsAnswered(cfg: Config, s: Store, req: Request)
    requires !NeedsBooking(RowOf(s, req.orderId))
    ensures var row := s.table[req.orderId];
            var awb := if row.awb.Some? then row.awb.value else "";
            var e := Handle(cfg, s, req.orderId, CreateRead(req), [DbOk]);
            && Ends(e, Booking(awb, row.status)) && SameTables(s, e.store)
            && Counted(s, e.store, req.orderId, 0, 0, 0, 0)
  {
    hide Handle;
    var e, s' := Last(cfg, s, req.orderId, CreateRead(req), DbOk);
  }

  /** An open order that was read goes on to the pending row. */
  lemma OpenIsRead(cfg: Config, s: Store, req: Request, rest: seq<Choice>) returns (s': Store)
    requires NeedsBooking(RowOf(s, req.orderId))
    ensures Handle(cfg, s, req.orderId, CreateRead(req), [DbOk] + rest)
              == Handle(cfg, s', req.orderId, CreatePending(req, RowOf(s, req.orderId)), rest)
    ensures SameTables(s, s') && LedgerOf(s', req.orderId) == LedgerOf(s, req.orderId)
  {
    hide Handle;
    var e;
    e, s' := Take(cfg, s, req.orderId, CreateRead(req), DbOk, rest);
  }

  lemma PendingIsWritten(cfg: Config, s: Store, req: Request, c: Choice, rest: seq<Choice>) returns (s': Store)
    requires NeedsBooking(RowOf(s, req.orderId)) && (c.DbOk? || c.DbError?)
    ensures var next := if req.partner in cfg.registered then CreateDispatch(req) else Finished(Threw(UnknownCourier));
            Handle(cfg, s, req.orderId, CreatePending(req, RowOf(s, req.orderId)), [c] + rest)
              == Handle(cfg, s', req.orderId, if c.DbOk? then next else Finished(Threw(DatabaseError)), rest)
    ensures if Wrote(c) then Rewrites(s, s', req.orderId, PendingFor(RowOf(s, req.orderId), req), [])
            else SameTables(s, s')
    ensures Counted(s, s', req.orderId, 0, 0, 0, 0)
  {
    hide Handle;
    var e;
    e, s' := Take(cfg, s, req.orderId, CreatePending(req, RowOf(s, req.orderId)), c, rest);
  }

  /** Read and written: the courier is next, unless nobody knows it. */
  lemma ReachesDispatch(cfg: Config, s: Store, req: Request, rest: seq<Choice>) returns (s': Store)
    requires NeedsBooking(RowOf(s, req.orderId))
    ensures var next := if req.partner in cfg.registered then CreateDispatch(req) else Finished(Threw(UnknownCourier));
            Handle(cfg, s, req.orderId, CreateRead(req), [DbOk, DbOk] + rest)
              == Handle(cfg, s', req.orderId, next, rest)
    ensures Rewrites(s, s', req.orderId, PendingFor(RowOf(s, req.orderId), req), [])
    ensures Counted(s, s', req.orderId, 0, 0, 0, 0)
  {
    hide Handle;
    assert [DbOk, DbOk] + rest == [DbOk] + ([DbOk] + rest);
    var s1 := OpenIsRead(cfg, s, req, [DbOk] + rest);
    s' := PendingIsWritten(cfg, s1, req, DbOk, rest);
  }

  lemma PendingFails(cfg: Config, s: Store, req: Request, applied: bool)
    requires NeedsBooking(RowOf(s, req.orderId))
    ensures var e := Handle(cfg, s, req.orderId, CreateRead(req), [DbOk, DbError(applied)]);
            && Ends(e, Threw(DatabaseError)) && Counted(s, e.store, req.orderId, 0, 0, 0, 0)
            && if applied then Rewrites(s, e.store, req.orderId, PendingFor(RowOf(s, req.orderId), req), [])
               else SameTables(s, e.store)
  {
    hide Handle;
    var s1 := OpenIsRead(cfg, s, req, [DbError(applied)]);
    assert [DbOk, DbError(applied)] == [DbOk] + [DbError(applied)];
    var s2 := PendingIsWritten(cfg, s1, req, DbError(applied), []);
    assert [DbError(applied)] == [DbError(applied)] + [];
    HandleDone(cfg, s2, req.orderId, Finished(Threw(DatabaseError)), []);
  }

  lemma UnknownCourierIsThrown(cfg: Config, s: Store, req: Request)
    requires NeedsBooking(RowOf(s, req.orderId)) && req.partner !in cfg.registered
    ensures var e := Handle(cfg, s, req.orderId, CreateRead(req), [DbOk, DbOk]);
            && Ends(e, Threw(UnknownCourier)) && Counted(s, e.store, req.orderId, 0, 0, 0, 0)
            && Rewrites(s, e.store, req.orderId, PendingFor(RowOf(s, req.orderId), req), [])
  {
    hide Handle;
    var s' := ReachesDispatch(cfg, s, req, []);
    assert [DbOk, DbOk] == [DbOk, DbOk] + [];
    HandleDone(cfg, s', req.orderId, Finished(Threw(UnknownCourier)), []);
  }

  /** A refusal is thrown whatever becomes of its audit, and the row is FAILED exactly if the audit was written. */
  lemma RefusalIsAudited(cfg: Config, s: Store, req: Request, hidden: nat, c: Choice)
    requires NeedsBooking(RowOf(s, req.orderId)) && req.partner in cfg.registered && (c.DbOk? || c.DbError?)
    ensures var pending := PendingFor(RowOf(s, req.orderId), req);
            var e := Handle(cfg, s, req.orderId, CreateRead(req), [DbOk, DbOk, BookingFailed(hidden), c]);
            && Ends(e, Threw(CourierError)) && Counted(s, e.store, req.orderId, hidden, hidden, 0, 0)
            && Rewrites(s, e.store, req.orderId, if Wrote(c) then pending.(status := Failed) else pending, [])
  {
    hide Handle;
    var id := req.orderId;
    assert [DbOk, DbOk, BookingFailed(hidden), c] == [DbOk, DbOk] + [BookingFailed(hidden), c];
    var s1 := ReachesDispatch(cfg, s, req, [BookingFailed(hidden), c]);
    assert [BookingFailed(hidden), c] == [BookingFailed(hidden)] + [c];
    var e2, s2 := Take(cfg, s1, id, CreateDispatch(req), BookingFailed(hidden), [c]);
    assert e2.phase == CreateAudit && SameTables(s1, s2) && Counted(s1, s2, id, hidden, hidden, 0, 0);
    AuditEnds(cfg, s2, id, c);
  }

  lemma AuditEnds(cfg: Config, s: Store, id: OrderId, c: Choice)
    requires id in s.table && (c.DbOk? || c.DbError?)
    ensures var e := Handle(cfg, s, id, CreateAudit, [c]);
            && Ends(e, Threw(CourierError)) && Counted(s, e.store, id, 0, 0, 0, 0)
            && Rewrites(s, e.store, id, if Wrote(c) then s.table[id].(status := Failed) else s.table[id], [])
  {
    hide Handle;
    var e, s' := Last(cfg, s, id, CreateAudit, c);
  }

  /** Booked by the courier, about to be persisted. */
  lemma ReachesPersist(
    cfg: Config, s: Store, req: Request, awb: Awb, hidden: nat, rest: seq<Choice>
  ) returns (s': Store)
    requires NeedsBooking(RowOf(s, req.orderId)) && req.partner in cfg.registered
    ensures Handle(cfg, s, req.orderId, CreateRead(req), [DbOk, DbOk, Booked(awb, hidden)] + rest)
              == Handle(cfg, s', req.orderId, CreatePersist(req, awb), rest)
    ensures Rewrites(s, s', req.orderId, PendingFor(RowOf(s, req.orderId), req), [])
    ensures Counted(s, s', req.orderId, 1 + hidden, hidden, 0, 0)
  {
    hide Handle;
    var tail := [Booked(awb, hidden)] + rest;
    assert [DbOk, DbOk, Booked(awb, hidden)] + rest == [DbOk, DbOk] + tail;
    var s1 := ReachesDispatch(cfg, s, req, tail);
    var e;
    e, s' := Take(cfg, s1, req.orderId, CreateDispatch(req), Booked(awb, hidden), rest);
  }

  /** What is written when a booking is persisted: row and event in one transaction, or the row first on sqlite. */
  lemma PersistStep(cfg: Config, s: Store, req: Request, awb: Awb, c: Choice, rest: seq<Choice>) returns (s': Store)
    requires req.orderId in s.table && (c.DbOk? || c.DbError?)
    ensures var done := if cfg.transactional then Finished(Booking(awb, Created)) else CreateEvent(req, awb);
            Handle(cfg, s, req.orderId, CreatePersist(req, awb), [c] + rest)
              == Handle(cfg, s', req.orderId, if c.DbOk? then done else Finished(Threw(DatabaseError)), rest)
    ensures if Wrote(c) then
              Rewrites(s, s', req.orderId, s.table[req.orderId].(awb := Some(awb), status := Created),
                       if cfg.transactional then [BookingEntry(req, awb)] else [])
            else SameTables(s, s')
    ensures Counted(s, s', req.orderId, 0, One(!Wrote(c)), 0, 0)
  {
    hide Handle;
    var e;
    e, s' := Take(cfg, s, req.orderId, CreatePersist(req, awb), c, rest);
  }

  function BookingEntry(req: Request, awb: Awb): Event {
    Event(req.orderId, awb, Created, "Shipment booked with " + UpperCase(req.partner), ServerClock)
  }

  lemma EventStep(cfg: Config, s: Store, req: Request, awb: Awb, c: Choice)
    requires c.DbOk? || c.DbError?
    ensures var e := Handle(cfg, s, req.orderId, CreateEvent(req, awb), [c]);
            && Ends(e, if c.DbOk? then Booking(awb, Created) else Threw(DatabaseError))
            && e.store.table == s.table && Counted(s, e.store, req.orderId, 0, 0, 0, 0)
            && e.store.log == if Wrote(c) then s.log + [BookingEntry(req, awb)] else s.log
  {
    hide Handle;
    var e, s' := Last(cfg, s, req.orderId, CreateEvent(req, awb), c);
  }

  /** What the database acknowledges when a booking is persisted: one transaction, or two statements on sqlite. */
  function Acks(cfg: Config): seq<Choice> {
    if cfg.transactional then [DbOk] else [DbOk, DbOk]
  }

  /** A booking that is persisted is answered: one row, one event, the waybill back. */
  lemma CreateOrderBooks(cfg: Config, s: Store, req: Request, awb: Awb, hidden: nat)
    requires NeedsBooking(RowOf(s, req.orderId)) && req.partner in cfg.registered
    ensures var script := [DbOk, DbOk, Booked(awb, hidden)] + Acks(cfg);
            var e := Handle(cfg, s, req.orderId, CreateRead(req), script);
            var pending := PendingFor(RowOf(s, req.orderId), req);
            && Ends(e, Booking(awb, Created)) && Counted(s, e.store, req.orderId, 1 + hidden, hidden, 0, 0)
            && Rewrites(s, e.store, req.orderId, pending.(awb := Some(awb), status := Created),
                        [BookingEntry(req, awb)])
  {
    hide Handle, BookingEntry;
    var id := req.orderId;
    var s1 := ReachesPersist(cfg, s, req, awb, hidden, Acks(cfg));
    var rest := if cfg.transactional then [] else [DbOk];
    assert Acks(cfg) == [DbOk] + rest;
    var s2 := PersistStep(cfg, s1, req, awb, DbOk, rest);
    if cfg.transactional {
      HandleDone(cfg, s2, id, Finished(Booking(awb, Created)), []);
    } else {
      EventStep(cfg, s2, req, awb, DbOk);
    }
  }

  /** A persist that fails is thrown. Applied, the order is booked all the same; otherwise the booking is lost. */
  lemma PersistFails(cfg: Config, s: Store, req: Request, awb: Awb, hidden: nat, applied: bool)
    requires NeedsBooking(RowOf(s, req.orderId)) && req.partner in cfg.registered
    ensures var script := [DbOk, DbOk, Booked(awb, hidden)] + [DbError(applied)];
            var e := Handle(cfg, s, req.orderId, CreateRead(req), script);
            var pending := PendingFor(RowOf(s, req.orderId), req);
            && Ends(e, Threw(DatabaseError))
            && Counted(s, e.store, req.orderId, 1 + hidden, hidden + One(!applied), 0, 0)
            && if applied then
                 Rewrites(s, e.store, req.orderId, pending.(awb := Some(awb), status := Created),
                          if cfg.transactional then [BookingEntry(req, awb)] else [])
               else Rewrites(s, e.store, req.orderId, pending, [])
  {
    hide Handle, BookingEntry;
    var s1 := ReachesPersist(cfg, s, req, awb, hidden, [DbError(applied)]);
    assert [DbError(applied)] == [DbError(applied)] + [];
    var s2 := PersistStep(cfg, s1, req, awb, DbError(applied), []);
    HandleDone(cfg, s2, req.orderId, Finished(Threw(DatabaseError)), []);
  }

  /** On sqlite a failing event statement is thrown over a booked row. */
  lemma EventFails(cfg: Config, s: Store, req: Request, awb: Awb, hidden: nat, applied: bool)
    requires NeedsBooking(RowOf(s, req.orderId)) && req.partner in cfg.registered && !cfg.transactional
    ensures var script := [DbOk, DbOk, Booked(awb, hidden)] + [DbOk, DbError(applied)];
            var e := Handle(cfg, s, req.orderId, CreateRead(req), script);
            var pending := PendingFor(RowOf(s, req.orderId), req);
            && Ends(e, Threw(DatabaseError)) && Counted(s, e.store, req.orderId, 1 + hidden, hidden, 0, 0)
            && Rewrites(s, e.store, req.orderId, pending.(awb := Some(awb), status := Created),
                        if applied then [BookingEntry(req, awb)] else [])
  {
    hide Handle, BookingEntry;
    var s1 := ReachesPersist(cfg, s, req, awb, hidden, [DbOk, DbError(applied)]);
    assert [DbOk, DbError(applied)] == [DbOk] + [DbError(applied)];
    var s2 := PersistStep(cfg, s1, req, awb, DbOk, [DbError(applied)]);
    EventStep(cfg, s2, req, awb, DbError(applied));
  }

  /** A process that dies with a booking in hand leaves a pending row and has lost the booking. */
  lemma DiesWithBooking(cfg: Config, s: Store, req: Request, awb: Awb, hidden: nat)
    requires NeedsBooking(RowOf(s, req.orderId)) && req.partner in cfg.registered
    ensures var e := Handle(cfg, s, req.orderId, CreateRead(req), [DbOk, DbOk, Booked(awb, hidden)]);
            && e.outcome == None && Counted(s, e.store, req.orderId, 1 + hidden, hidden + 1, 0, 0)
            && Rewrites(s, e.store, req.orderId, PendingFor(RowOf(s, req.orderId), req), [])
  {
    var s1 := ReachesPersist(cfg, s, req, awb, hidden, []);
    assert [DbOk, DbOk, Booked(awb, hidden)] == [DbOk, DbOk, Booked(awb, hidden)] + [];
    assert Handle(cfg, s1, req.orderId, CreatePersist(req, awb), []).store
        == Died(s1, req.orderId, CreatePersist(req, awb));
  }

  // reconcileSingleOrder

  /** The row as the catch block writes it. */
  function Caught(cfg: Config, row: Row, next: nat): Row {
    row.(status := if next >= cfg.maxRetry then Failed else PendingDispatch, retryCount := next)
  }

  /** The end of every pass that failed: the catch block's own statement, and its own error. */
  predicate CaughtEnd(cfg: Config, s: Store, id: OrderId, row: Row, next: nat, c: Choice, more: seq<Event>, e: Ending) {
    && Ends(e, if c.DbOk? then NotRecovered else Threw(DatabaseError))
    && Rewrites(s, e.store, id, if Wrote(c) then Caught(cfg, row, next) else row, more)
  }

  lemma CatchEnds(cfg: Config, s: Store, id: OrderId, next: nat, c: Choice)
    requires id in s.table && (c.DbOk? || c.DbError?)
    ensures var e := Handle(cfg, s, id, WorkerCatch(next), [c]);
            CaughtEnd(cfg, s, id, s.table[id], next, c, [], e) && Counted(s, e.store, id, 0, 0, 0, 0)
  {
    hide Handle;
    var e, s' := Last(cfg, s, id, WorkerCatch(next), c);
  }

  lemma DispatchStep(cfg: Config, s: Store, id: OrderId, row: Row, c: Choice, rest: seq<Choice>) returns (s': Store)
    requires RowOf(s, id) == Some(row) && row.partner in cfg.registered && (c.Booked? || c.BookingFailed?)
    ensures var next := row.retryCount + 1;
            Handle(cfg, s, id, WorkerStart(cfg, row), [c] + rest)
              == Handle(cfg, s', id,
                        if c.Booked? then WorkerPersist(row.partner, c.awb, next) else WorkerCatch(next), rest)
    ensures SameTables(s, s') && Counted(s, s', id, c.hidden + One(c.Booked?), c.hidden, 0, 0)
  {
    hide Handle;
    var e;
    e, s' := Take(cfg, s, id, WorkerStart(cfg, row), c, rest);
  }

  lemma RecoveryStep(
    cfg: Config, s: Store, id: OrderId, row: Row, awb: Awb, c: Choice, rest: seq<Choice>
  ) returns (s': Store)
    requires RowOf(s, id) == Some(row) && (c.DbOk? || c.DbError?)
    ensures var next := row.retryCount + 1;
            Handle(cfg, s, id, WorkerPersist(row.partner, awb, next), [c] + rest)
              == Handle(cfg, s', id, if c.DbOk? then WorkerEvent(row.partner, awb, next) else WorkerCatch(next), rest)
    ensures Rewrites(s, s', id, if Wrote(c) then Recovery(row, awb) else row, [])
    ensures Counted(s, s', id, 0, One(!Wrote(c)), 0, 0)
  {
    hide Handle;
    var e;
    e, s' := Take(cfg, s, id, WorkerPersist(row.partner, awb, row.retryCount + 1), c, rest);
  }

  /** The row of a recovered order. */
  function Recovery(row: Row, awb: Awb): Row {
    row.(awb := Some(awb), status := Created, retryCount := row.retryCount + 1)
  }

  function RecoveryEntry(id: OrderId, partner: string, awb: Awb): Event {
    Event(id, awb, Created, "Shipment recovered and booked by Reconciliation Worker (" + UpperCase(partner) + ")",
          ServerClock)
  }

  lemma RecoveryEventStep(
    cfg: Config, s: Store, id: OrderId, partner: string, awb: Awb, next: nat, c: Choice, rest: seq<Choice>
  ) returns (s': Store)
    requires c.DbOk? || c.DbError?
    ensures Handle(cfg, s, id, WorkerEvent(partner, awb, next), [c] + rest)
              == Handle(cfg, s', id, if c.DbOk? then Finished(Recovered) else WorkerCatch(next), rest)
    ensures s'.table == s.table && Counted(s, s', id, 0, 0, 0, 0)
    ensures s'.log == if Wrote(c) then s.log + [RecoveryEntry(id, partner, awb)] else s.log
  {
    hide Handle;
    var e;
    e, s' := Take(cfg, s, id, WorkerEvent(partner, awb, next), c, rest);
  }

  /** The courier books and both statements succeed: the order is recovered. */
  lemma PassRecovers(cfg: Config, s: Store, id: OrderId, row: Row, awb: Awb, hidden: nat)
    requires RowOf(s, id) == Some(row) && row.partner in cfg.registered
    ensures var e := Handle(cfg, s, id, WorkerStart(cfg, row), [Booked(awb, hidden), DbOk, DbOk]);
            && Ends(e, Recovered) && Counted(s, e.store, id, 1 + hidden, hidden, 0, 0)
            && Rewrites(s, e.store, id, Recovery(row, awb), [RecoveryEntry(id, row.partner, awb)])
  {
    hide Handle, RecoveryEntry;
    assert [Booked(awb, hidden), DbOk, DbOk] == [Booked(awb, hidden)] + ([DbOk] + ([DbOk] + []));
    var s1 := DispatchStep(cfg, s, id, row, Booked(awb, hidden), [DbOk] + ([DbOk] + []));
    var s2 := RecoveryStep(cfg, s1, id, row, awb, DbOk, [DbOk] + []);
    var s3 := RecoveryEventStep(cfg, s2, id, row.partner, awb, row.retryCount + 1, DbOk, []);
    HandleDone(cfg, s3, id, Finished(Recovered), []);
  }

  /** The courier refuses: a retry is used, and the row is FAILED exactly on the last one. */
  lemma PassRefused(cfg: Config, s: Store, id: OrderId, row: Row, hidden: nat, c: Choice)
    requires RowOf(s, id) == Some(row) && row.partner in cfg.registered && (c.DbOk? || c.DbError?)
    ensures var e := Handle(cfg, s, id, WorkerStart(cfg, row), [BookingFailed(hidden), c]);
            && CaughtEnd(cfg, s, id, row, row.retryCount + 1, c, [], e)
            && Counted(s, e.store, id, hidden, hidden, 0, 0)
  {
    hide Handle;
    assert [BookingFailed(hidden), c] == [BookingFailed(hidden)] + [c];
    var s1 := DispatchStep(cfg, s, id, row, BookingFailed(hidden), [c]);
    CatchEnds(cfg, s1, id, row.retryCount + 1, c);
  }

  /** The update fails: the booking is lost, or if it was applied its waybill stays on a row that is put back. */
  lemma PassUpdateFails(cfg: Config, s: Store, id: OrderId, row: Row, awb: Awb, hidden: nat, applied: bool, c: Choice)
    requires RowOf(s, id) == Some(row) && row.partner in cfg.registered && (c.DbOk? || c.DbError?)
    ensures var e := Handle(cfg, s, id, WorkerStart(cfg, row), [Booked(awb, hidden), DbError(applied), c]);
            && CaughtEnd(cfg, s, id, if applied then Recovery(row, awb) else row, row.retryCount + 1, c, [], e)
            && Counted(s, e.store, id, 1 + hidden, hidden + One(!applied), 0, 0)
  {
    hide Handle;
    assert [Booked(awb, hidden), DbError(applied), c] == [Booked(awb, hidden)] + ([DbError(applied)] + [c]);
    var s1 := DispatchStep(cfg, s, id, row, Booked(awb, hidden), [DbError(applied)] + [c]);
    var s2 := RecoveryStep(cfg, s1, id, row, awb, DbError(applied), [c]);
    CatchEnds(cfg, s2, id, row.retryCount + 1, c);
  }

  /** The event fails: the booked row is put back. */
  lemma PassEventFails(cfg: Config, s: Store, id: OrderId, row: Row, awb: Awb, hidden: nat, applied: bool, c: Choice)
    requires RowOf(s, id) == Some(row) && row.partner in cfg.registered && (c.DbOk? || c.DbError?)
    ensures var e := Handle(cfg, s, id, WorkerStart(cfg, row), [Booked(awb, hidden), DbOk, DbError(applied), c]);
            var more := if applied then [RecoveryEntry(id, row.partner, awb)] else [];
            && CaughtEnd(cfg, s, id, Recovery(row, awb), row.retryCount + 1, c, more, e)
            && Counted(s, e.store, id, 1 + hidden, hidden, 0, 0)
  {
    hide Handle, RecoveryEntry;
    var tail := [DbError(applied)] + [c];
    assert [Booked(awb, hidden), DbOk, DbError(applied), c] == [Booked(awb, hidden)] + ([DbOk] + tail);
    var s1 := DispatchStep(cfg, s, id, row, Booked(awb, hidden), [DbOk] + tail);
    var s2 := RecoveryStep(cfg, s1, id, row, awb, DbOk, tail);
    var s3 := RecoveryEventStep(cfg, s2, id, row.partner, awb, row.retryCount + 1, DbError(applied), [c]);
    CatchEnds(cfg, s3, id, row.retryCount + 1, c);
  }

  lemma UnsupportedStep(cfg: Config, s: Store, id: OrderId, row: Row, c: Choice, rest: seq<Choice>) returns (s': Store)
    requires RowOf(s, id) == Some(row) && row.partner !in cfg.registered && (c.DbOk? || c.DbError?)
    ensures Handle(cfg, s, id, WorkerStart(cfg, row), [c] + rest)
         == Handle(cfg, s', id, if c.DbOk? then Finished(NotRecovered) else WorkerCatch(row.retryCount + 1), rest)
    ensures Rewrites(s, s', id, if Wrote(c) then row.(status := Failed, retryCount := row.retryCount + 1) else row, [])
    ensures Counted(s, s', id, 0, 0, 0, 0)
  {
    hide Handle;
    var e;
    e, s' := Take(cfg, s, id, WorkerStart(cfg, row), c, rest);
  }

  /** An order whose courier nobody knows is FAILED, without any call. */
  lemma PassFailsUnsupported(cfg: Config, s: Store, id: OrderId, row: Row)
    requires RowOf(s, id) == Some(row) && row.partner !in cfg.registered
    ensures var e := Handle(cfg, s, id, WorkerStart(cfg, row), [DbOk]);
            && Ends(e, NotRecovered) && Counted(s, e.store, id, 0, 0, 0, 0)
            && Rewrites(s, e.store, id, row.(status := Failed, retryCount := row.retryCount + 1), [])
  {
    hide Handle;
    var s1 := UnsupportedStep(cfg, s, id, row, DbOk, []);
    assert [DbOk] == [DbOk] + [];
    HandleDone(cfg, s1, id, Finished(NotRecovered), []);
  }

  /** Unless that statement fails: then the catch block decides. */
  lemma PassUnsupportedFails(cfg: Config, s: Store, id: OrderId, row: Row, applied: bool, c: Choice)
    requires RowOf(s, id) == Some(row) && row.partner !in cfg.registered && (c.DbOk? || c.DbError?)
    ensures var e := Handle(cfg, s, id, WorkerStart(cfg, row), [DbError(applied), c]);
            var row' := if applied then row.(status := Failed, retryCount := row.retryCount + 1) else row;
            CaughtEnd(cfg, s, id, row', row.retryCount + 1, c, [], e) && Counted(s, e.store, id, 0, 0, 0, 0)
  {
    hide Handle;
    assert [DbError(applied), c] == [DbError(applied)] + [c];
    var s1 := UnsupportedStep(cfg, s, id, row, DbError(applied), [c]);
    CatchEnds(cfg, s1, id, row.retryCount + 1, c);
  }

  // cancelOrder

  lemma CancelReadFails(cfg: Config, s: Store, id: OrderId, reason: string, applied: bool)
    ensures var e := Handle(cfg, s, id, CancelFetch(reason), [DbError(applied)]);
            Ends(e, Threw(DatabaseError)) && SameTables(s, e.store) && Counted(s, e.store, id, 0, 0, 0, 0)
  {
    hide Handle;
    var e, s' := Last(cfg, s, id, CancelFetch(reason), DbError(applied));
  }

  /** An order that was read is refused for what it is, and otherwise its courier is called. */
  lemma CancelRead(cfg: Config, s: Store, id: OrderId, reason: string, rest: seq<Choice>) returns (s': Store)
    ensures var row := RowOf(s, id);
            var next :=
              if row.None? then Finished(Threw(NotFound))
              else if row.value.status == Cancelled then Finished(AlreadyCancelled)
              else if row.value.status == Delivered then Finished(Threw(NotCancellable))
              else if row.value.partner !in cfg.registered then Finished(Threw(UnknownCourier))
              else CancelCall(if row.value.awb.Some? then row.value.awb.value else "", reason);
            Handle(cfg, s, id, CancelFetch(reason), [DbOk] + rest) == Handle(cfg, s', id, next, rest)
    ensures SameTables(s, s') && LedgerOf(s', id) == LedgerOf(s, id)
  {
    hide Handle;
    var e;
    e, s' := Take(cfg, s, id, CancelFetch(reason), DbOk, rest);
  }

  /** The read alone answers exactly the orders that cannot be cancelled or whose courier nobody knows. */
  lemma CancelIsRefused(cfg: Config, s: Store, id: OrderId, reason: string)
    ensures var row := RowOf(s, id);
            var e := Handle(cfg, s, id, CancelFetch(reason), [DbOk]);
            && SameTables(s, e.store) && Counted(s, e.store, id, 0, 0, 0, 0)
            && (row.None? <==> e.outcome == Some(Threw(NotFound)))
            && (row.Some? && row.value.status == Cancelled <==> e.outcome == Some(AlreadyCancelled))
            && (row.Some? && row.value.status == Delivered <==> e.outcome == Some(Threw(NotCancellable)))
            && (Cancellable(row) && row.value.partner !in cfg.registered <==> e.outcome == Some(Threw(UnknownCourier)))
            && (Cancellable(row) && row.value.partner in cfg.registered <==> e.outcome == None)
  {
    var s' := CancelRead(cfg, s, id, reason, []);
    assert [DbOk] == [DbOk] + [];
  }

  /** Read and sent: the courier's answer is next. */
  lemma CancelAnswered(cfg: Config, s: Store, id: OrderId, row: Row, reason: string, c: Choice, rest: seq<Choice>)
    returns (s': Store)
    requires RowOf(s, id) == Some(row) && Cancellable(Some(row)) && row.partner in cfg.registered
    requires c.CancelAccepted? || c.CancelFailed?
    ensures var waybill := if row.awb.Some? then row.awb.value else "";
            Handle(cfg, s, id, CancelFetch(reason), [DbOk, c] + rest)
              == Handle(cfg, s', id,
                        if c.CancelAccepted? then CancelPersist(waybill, reason) else Finished(Threw(CourierError)),
                        rest)
    ensures SameTables(s, s')
    ensures var unseen := One(c.CancelFailed? && c.cancelled);
            Counted(s, s', id, 0, 0, One(c.CancelAccepted?) + unseen, unseen)
  {
    hide Handle;
    assert [DbOk, c] + rest == [DbOk] + ([c] + rest);
    var s1 := CancelRead(cfg, s, id, reason, [c] + rest);
    var e;
    e, s' := Take(cfg, s1, id, CancelCall(if row.awb.Some? then row.awb.value else "", reason), c, rest);
  }

  lemma CancelCallFails(cfg: Config, s: Store, id: OrderId, row: Row, reason: string, cancelled: bool)
    requires RowOf(s, id) == Some(row) && Cancellable(Some(row)) && row.partner in cfg.registered
    ensures var e := Handle(cfg, s, id, CancelFetch(reason), [DbOk, CancelFailed(cancelled)]);
            && Ends(e, Threw(CourierError)) && SameTables(s, e.store)
            && Counted(s, e.store, id, 0, 0, One(cancelled), One(cancelled))
  {
    hide Handle;
    var s' := CancelAnswered(cfg, s, id, row, reason, CancelFailed(cancelled), []);
    assert [DbOk, CancelFailed(cancelled)] == [DbOk, CancelFailed(cancelled)] + [];
    HandleDone(cfg, s', id, Finished(Threw(CourierError)), []);
  }

  function CancellationEntry(id: OrderId, row: Row, reason: string): Event {
    var why := if reason == "" then "Customer requested cancellation" else reason;
    Event(id, if row.awb.Some? then row.awb.value else "", Cancelled, "Shipment cancelled. Reason: " + why, ServerClock)
  }

  lemma CancelPersistStep(
    cfg: Config, s: Store, id: OrderId, row: Row, waybill: string, reason: string, c: Choice, rest: seq<Choice>
  ) returns (s': Store)
    requires RowOf(s, id) == Some(row) && (c.DbOk? || c.DbError?)
    ensures Handle(cfg, s, id, CancelPersist(waybill, reason), [c] + rest)
         == Handle(cfg, s', id, if c.DbOk? then CancelEvent(waybill, reason) else Finished(Threw(DatabaseError)), rest)
    ensures Rewrites(s, s', id, if Wrote(c) then row.(status := Cancelled) else row, [])
    ensures Counted(s, s', id, 0, 0, 0, One(!Wrote(c)))
  {
    hide Handle;
    var e;
    e, s' := Take(cfg, s, id, CancelPersist(waybill, reason), c, rest);
  }

  lemma CancelEventStep(cfg: Config, s: Store, id: OrderId, row: Row, reason: string, c: Choice)
    requires c.DbOk? || c.DbError?
    ensures var e := Handle(cfg, s, id, CancelEvent(if row.awb.Some? then row.awb.value else "", reason), [c]);
            && Ends(e, if c.DbOk? then CancelConfirmed else Threw(DatabaseError))
            && e.store.table == s.table && Counted(s, e.store, id, 0, 0, 0, 0)
            && e.store.log == if Wrote(c) then s.log + [CancellationEntry(id, row, reason)] else s.log
  {
    hide Handle;
    var e, s' := Last(cfg, s, id, CancelEvent(if row.awb.Some? then row.awb.value else "", reason), c);
  }

  /** An accepted cancellation: the row is written, then the entry, and the last answer decides the outcome. */
  lemma CancelIsConfirmed(cfg: Config, s: Store, id: OrderId, row: Row, reason: string, c: Choice)
    requires RowOf(s, id) == Some(row) && Cancellable(Some(row)) && row.partner in cfg.registered
    requires c.DbOk? || c.DbError?
    ensures var e := Handle(cfg, s, id, CancelFetch(reason), [DbOk, CancelAccepted, DbOk, c]);
            && Ends(e, if c.DbOk? then CancelConfirmed else Threw(DatabaseError))
            && Counted(s, e.store, id, 0, 0, 1, 0)
            && Rewrites(s, e.store, id, row.(status := Cancelled),
                        if Wrote(c) then [CancellationEntry(id, row, reason)] else [])
  {
    hide Handle, CancellationEntry;
    assert [DbOk, CancelAccepted, DbOk, c] == [DbOk, CancelAccepted] + ([DbOk] + [c]);
    var s1 := CancelAnswered(cfg, s, id, row, reason, CancelAccepted, [DbOk] + [c]);
    var s2 := CancelPersistStep(cfg, s1, id, row, if row.awb.Some? then row.awb.value else "", reason, DbOk, [c]);
    CancelEventStep(cfg, s2, id, row, reason, c);
  }

  /** An accepted cancellation whose row update fails. */
  lemma CancelUpdateFails(cfg: Config, s: Store, id: OrderId, row: Row, reason: string, applied: bool)
    requires RowOf(s, id) == Some(row) && Cancellable(Some(row)) && row.partner in cfg.registered
    ensures var e := Handle(cfg, s, id, CancelFetch(reason), [DbOk, CancelAccepted, DbError(applied)]);
            && Ends(e, Threw(DatabaseError)) && Counted(s, e.store, id, 0, 0, 1, One(!applied))
            && Rewrites(s, e.store, id, if applied then row.(status := Cancelled) else row, [])
  {
    hide Handle;
    var c := DbError(applied);
    assert [DbOk, CancelAccepted, c] == [DbOk, CancelAccepted] + ([c] + []);
    var s1 := CancelAnswered(cfg, s, id, row, reason, CancelAccepted, [c] + []);
    var s2 := CancelPersistStep(cfg, s1, id, row, if row.awb.Some? then row.awb.value else "", reason, c, []);
    HandleDone(cfg, s2, id, Finished(Threw(DatabaseError)), []);
  }

  // trackOrder

  /** The read alone answers exactly the orders that cannot be tracked. */
  lemma TrackIsRefused(cfg: Config, s: Store, id: OrderId)
    ensures var row := RowOf(s, id);
            var e := Handle(cfg, s, id, TrackFetch, [DbOk]);
            && SameTables(s, e.store) && LedgerOf(e.store, id) == LedgerOf(s, id)
            && (row.None? || row.value.awb.None? <==> e.outcome == Some(Threw(NotFound)))
            && (row.Some? && row.value.awb.Some? && row.value.partner !in cfg.registered <==>
                  e.outcome == Some(Threw(UnknownCourier)))
            && (Trackable(cfg, row) <==> e.outcome == None)
  {
    hide AwbText;
    var e, s' := Last(cfg, s, id, TrackFetch, DbOk);
    assert [DbOk] == [DbOk] + [];
    Unfold(cfg, s, id, TrackFetch, [DbOk]);
  }

  lemma TrackReadFails(cfg: Config, s: Store, id: OrderId, applied: bool)
    ensures var e := Handle(cfg, s, id, TrackFetch, [DbError(applied)]);
            Ends(e, Threw(DatabaseError)) && SameTables(s, e.store) && LedgerOf(e.store, id) == LedgerOf(s, id)
  {
    hide Handle, AwbText;
    var e, s' := Last(cfg, s, id, TrackFetch, DbError(applied));
  }

  lemma TrackReaches(cfg: Config, s: Store, id: OrderId, c: Choice, rest: seq<Choice>) returns (s': Store)
    requires Trackable(cfg, RowOf(s, id)) && Fits(TrackCall(s.table[id]), c)
    ensures Handle(cfg, s, id, TrackFetch, [DbOk, c] + rest)
         == Handle(cfg, s', id,
                   if c.Reported? then AfterReport(s.table[id], c.report) else Finished(Threw(CourierError)), rest)
    ensures SameTables(s, s') && LedgerOf(s', id) == LedgerOf(s, id)
  {
    hide Handle, AfterReport;
    assert [DbOk, c] + rest == [DbOk] + ([c] + rest);
    TrackFetchStep(cfg, s, id, DbOk);
    var e1, s1 := Take(cfg, s, id, TrackFetch, DbOk, [c] + rest);
    TrackCallStep(cfg, s1, id, s.table[id], c);
    var e;
    e, s' := Take(cfg, s1, id, TrackCall(s.table[id]), c, rest);
  }

  lemma TrackCallFails(cfg: Config, s: Store, id: OrderId)
    requires Trackable(cfg, RowOf(s, id))
    ensures var e := Handle(cfg, s, id, TrackFetch, [DbOk, TrackingFailed]);
            Ends(e, Threw(CourierError)) && SameTables(s, e.store) && LedgerOf(e.store, id) == LedgerOf(s, id)
  {
    hide Handle;
    var s' := TrackReaches(cfg, s, id, TrackingFailed, []);
    assert [DbOk, TrackingFailed] == [DbOk, TrackingFailed] + [];
    HandleDone(cfg, s', id, Finished(Threw(CourierError)), []);
  }

  /** A status update that fails is thrown, and no scan is logged. */
  lemma TrackUpdateFails(cfg: Config, s: Store, id: OrderId, report: Report, applied: bool)
    requires Trackable(cfg, RowOf(s, id)) && ValidReport(report) && report.status != s.table[id].status
    ensures var e := Handle(cfg, s, id, TrackFetch, [DbOk, Reported(report), DbError(applied)]);
            && Ends(e, Threw(DatabaseError))
            && Rewrites(s, e.store, id, if applied then s.table[id].(status := report.status) else s.table[id], [])
  {
    hide Handle;
    var c := DbError(applied);
    assert [DbOk, Reported(report), c] == [DbOk, Reported(report)] + [c];
    var s1 := TrackReaches(cfg, s, id, Reported(report), [c]);
    TrackStatusStep(cfg, s1, id, s.table[id], report, c);
    hide AwbText;
    var e, s2 := Last(cfg, s1, id, TrackStatus(s.table[id], report), c);
  }

  /** A failing lookup of a scan is thrown and logs nothing. */
  lemma LookupFails(cfg: Config, s: Store, id: OrderId, waybill: string, report: Report, k: nat, applied: bool)
    requires k < |report.history|
    ensures var e := Handle(cfg, s, id, TrackFind(waybill, report, k), [DbError(applied)]);
            Ends(e, Threw(DatabaseError)) && SameTables(s, e.store)
  {
    hide Handle, Logged;
    var e, s' := Last(cfg, s, id, TrackFind(waybill, report, k), DbError(applied));
  }

  /** An insert logs the scan exactly if it reached the database, and tracking goes on unless it failed. */
  lemma InsertStep(
    cfg: Config, s: Store, id: OrderId, waybill: string, report: Report, k: nat, c: Choice, rest: seq<Choice>
  ) returns (s': Store)
    requires k < |report.history| && (c.DbOk? || c.DbError?)
    ensures Handle(cfg, s, id, TrackAppend(waybill, report, k), [c] + rest)
         == Handle(cfg, s', id,
                   if c.DbOk? then NextScan(waybill, report, k + 1) else Finished(Threw(DatabaseError)), rest)
    ensures var x := report.history[k];
            s'.log == if Wrote(c) then s.log + [Event(id, waybill, x.status, x.activity, At(x.at))] else s.log
    ensures s'.table == s.table && LedgerOf(s', id) == LedgerOf(s, id)
  {
    hide Handle, NextScan;
    var e;
    e, s' := Take(cfg, s, id, TrackAppend(waybill, report, k), c, rest);
  }

  // Handlers with stale snapshots

  /** Update statements write their fields whatever the row has become, and an insert beside a row is refused. */
  lemma LateCreateStatements(
    cfg: Config, id: OrderId, row: Row, led: Ledger, found: Row, req: Request, awb: Awb
  )
    ensures StepCreate(cfg, id, Some(row), led, CreatePending(req, Some(found)), DbOk).row
              == Some(row.(status := PendingDispatch, payload := req))
    ensures StepCreate(cfg, id, Some(row), led, CreatePending(req, None), DbOk)
              == Effect(Some(row), led, [], Finished(Threw(DuplicateKey)))
    ensures StepCreate(cfg, id, Some(row), led, CreateAudit, DbOk).row == Some(row.(status := Failed))
    ensures StepCreate(cfg, id, Some(row), led, CreatePersist(req, awb), DbOk).row
              == Some(row.(awb := Some(awb), status := Created))
  {
    hide BookingEvent;
  }

  lemma LateWorkerStatements(cfg: Config, id: OrderId, row: Row, led: Ledger, partner: string, awb: Awb, next: nat)
    ensures StepWorker(cfg, id, Some(row), led, WorkerUnsupported(next), DbOk).row
              == Some(row.(status := Failed, retryCount := next))
    ensures StepWorker(cfg, id, Some(row), led, WorkerPersist(partner, awb, next), DbOk).row
              == Some(row.(awb := Some(awb), status := Created, retryCount := next))
    ensures StepWorker(cfg, id, Some(row), led, WorkerCatch(next), DbOk).row == Some(Caught(cfg, row, next))
  {
    hide RecoveryEvent;
  }

  lemma LateStatusStatements(
    cfg: Config, id: OrderId, row: Row, log: seq<Event>, led: Ledger, found: Row, report: Report, waybill: string
  )
    ensures StepTrack(cfg, id, Some(row), log, led, TrackStatus(found, report), DbOk).row
              == Some(row.(status := report.status))
    ensures StepCancel(cfg, id, Some(row), led, CancelPersist(waybill, waybill), DbOk).row
              == Some(row.(status := Cancelled))
  {
    hide AwbText, NoteTracked;
  }
}
