/**
 * What the outcome of an operation means for its order, under every script of outside answers:
 * failing statements, hidden bookings, refusals and crashes at any await.
 *
 * Each operation has a predicate for what has happened when it stands at a phase, kept by every
 * step, and one for what has happened when it has ended or died.
 */
module Outcomes {
  import opened Options
  import opened Orders
  import opened Lifecycle
  import opened Handlers
  import opened TrackingLog

  predicate SameTables(s: Store, s': Store) {
    s'.table == s.table && s'.log == s.log
  }

  /** One row was written, and at most one event. */
  predicate Rewrites(s: Store, s': Store, id: OrderId, row: Row, more: seq<Event>) {
    s'.table == s.table[id := row] && s'.log == (if more == [] then s.log else s.log + more)
  }

  // createOrder

  /** The pending row: a new one, or the old one with the new payload. */
  function PendingFor(row: Option<Row>, req: Request): Row {
    match row
    case None => NewRow(req)
    case Some(r) => r.(status := PendingDispatch, payload := req)
  }

  function BookedFor(row: Option<Row>, req: Request, awb: Awb): Row {
    BookedRow(PendingFor(row, req), awb)
  }

  /** From store `s0` to `s`, where createOrder stands at `p`. */
  predicate CreateAt(cfg: Config, s0: Store, req: Request, s: Store, p: Phase) {
    var id, row := req.orderId, RowOf(s0, req.orderId);
    var before, now := LedgerOf(s0, id), LedgerOf(s, id);
    match p
    case CreateRead(r) => r == req && SameTables(s0, s) && now == before
    case CreatePending(r, found) =>
      r == req && found == row && NeedsBooking(row) && SameTables(s0, s) && now.booked == before.booked
    case CreateDispatch(r) =>
      && r == req && NeedsBooking(row) && req.partner in cfg.registered
      && Rewrites(s0, s, id, PendingFor(row, req), []) && now.booked == before.booked
    case CreateAudit => NeedsBooking(row) && Rewrites(s0, s, id, PendingFor(row, req), [])
    case CreatePersist(r, _) =>
      r == req && NeedsBooking(row) && Rewrites(s0, s, id, PendingFor(row, req), []) && now.booked > before.booked
    case CreateEvent(r, awb) =>
      r == req && NeedsBooking(row) && Rewrites(s0, s, id, BookedFor(row, req, awb), []) && now.booked > before.booked
    case Finished(o) => CreateEnded(cfg, s0, req, s, Some(o))
    case _ => false
  }

  /** Nothing, the pending row, or the booked row may have been written. */
  predicate CreateInterrupted(s0: Store, req: Request, s: Store) {
    var id, row := req.orderId, RowOf(s0, req.orderId);
    || SameTables(s0, s)
    || Rewrites(s0, s, id, PendingFor(row, req), [])
    || (&& id in s.table && s.table[id].awb.Some?
        && var awb := s.table[id].awb.value;
           || Rewrites(s0, s, id, BookedFor(row, req, awb), [])
           || Rewrites(s0, s, id, BookedFor(row, req, awb), [BookingEvent(id, req.partner, awb)]))
  }

  /** `o` is what the caller saw, None when the process died. */
  predicate CreateEnded(cfg: Config, s0: Store, req: Request, s: Store, o: Option<Outcome>) {
    var id, row := req.orderId, RowOf(s0, req.orderId);
    var before, now := LedgerOf(s0, id), LedgerOf(s, id);
    if !NeedsBooking(row) then
      && SameTables(s0, s) && now == before
      && (o == None || o == Some(Threw(DatabaseError)) || o == Some(Booking(AwbText(row.value), row.value.status)))
    else
      match o
      case Some(Booking(awb, status)) =>
        && awb != "" && status == Created && now.booked > before.booked
        && Rewrites(s0, s, id, BookedFor(row, req, awb), [BookingEvent(id, req.partner, awb)])
      case Some(Threw(CourierError)) =>
        // the audit of the refusal may have failed
        || Rewrites(s0, s, id, PendingFor(row, req), [])
        || Rewrites(s0, s, id, PendingFor(row, req).(status := Failed), [])
      case Some(Threw(UnknownCourier)) =>
        && req.partner !in cfg.registered && now.booked == before.booked
        && Rewrites(s0, s, id, PendingFor(row, req), [])
      case Some(Threw(DatabaseError)) => CreateInterrupted(s0, req, s)
      case None => CreateInterrupted(s0, req, s)
      case Some(_) => false
  }

  lemma ReadKeeps(cfg: Config, s0: Store, req: Request, s: Store, c: Choice)
    requires var p := CreateRead(req); CreateAt(cfg, s0, req, s, p) && Fits(p, c)
    ensures var e := StepAt(cfg, s, req.orderId, CreateRead(req), c);
            CreateAt(cfg, s0, req, Commit(s, req.orderId, e), e.phase)
  {
    hide BookingEvent, AwbText;
  }

  lemma PendingKeeps(cfg: Config, s0: Store, req: Request, s: Store, found: Option<Row>, c: Choice)
    requires var p := CreatePending(req, found); CreateAt(cfg, s0, req, s, p) && Fits(p, c)
    ensures var e := StepAt(cfg, s, req.orderId, CreatePending(req, found), c);
            CreateAt(cfg, s0, req, Commit(s, req.orderId, e), e.phase)
  {
    hide BookingEvent, AwbText;
  }

  lemma DispatchKeeps(cfg: Config, s0: Store, req: Request, s: Store, c: Choice)
    requires var p := CreateDispatch(req); CreateAt(cfg, s0, req, s, p) && Fits(p, c)
    ensures var e := StepAt(cfg, s, req.orderId, CreateDispatch(req), c);
            CreateAt(cfg, s0, req, Commit(s, req.orderId, e), e.phase)
  {
    hide BookingEvent, AwbText;
  }

  lemma AuditKeeps(cfg: Config, s0: Store, req: Request, s: Store, c: Choice)
    requires var p := CreateAudit; CreateAt(cfg, s0, req, s, p) && Fits(p, c)
    ensures var e := StepAt(cfg, s, req.orderId, CreateAudit, c);
            CreateAt(cfg, s0, req, Commit(s, req.orderId, e), e.phase)
  {
    hide BookingEvent, AwbText;
  }

  lemma PersistKeeps(cfg: Config, s0: Store, req: Request, s: Store, awb: Awb, c: Choice)
    requires var p := CreatePersist(req, awb); CreateAt(cfg, s0, req, s, p) && Fits(p, c)
    ensures var e := StepAt(cfg, s, req.orderId, CreatePersist(req, awb), c);
            CreateAt(cfg, s0, req, Commit(s, req.orderId, e), e.phase)
  {
    hide BookingEvent, AwbText;
  }

  lemma EventKeeps(cfg: Config, s0: Store, req: Request, s: Store, awb: Awb, c: Choice)
    requires var p := CreateEvent(req, awb); CreateAt(cfg, s0, req, s, p) && Fits(p, c)
    ensures var e := StepAt(cfg, s, req.orderId, CreateEvent(req, awb), c);
            CreateAt(cfg, s0, req, Commit(s, req.orderId, e), e.phase)
  {
    hide BookingEvent, AwbText;
  }

  lemma CreateStepKeeps(cfg: Config, s0: Store, req: Request, s: Store, p: Phase, c: Choice)
    requires CreateAt(cfg, s0, req, s, p) && IsCreate(p) && Fits(p, c)
    ensures var e := StepAt(cfg, s, req.orderId, p, c);
            CreateAt(cfg, s0, req, Commit(s, req.orderId, e), e.phase)
  {
    match p {
      case CreateRead(_) => ReadKeeps(cfg, s0, req, s, c);
      case CreatePending(_, found) => PendingKeeps(cfg, s0, req, s, found, c);
      case CreateDispatch(_) => DispatchKeeps(cfg, s0, req, s, c);
      case CreateAudit => AuditKeeps(cfg, s0, req, s, c);
      case CreatePersist(_, awb) => PersistKeeps(cfg, s0, req, s, awb, c);
      case CreateEvent(_, awb) => EventKeeps(cfg, s0, req, s, awb, c);
    }
  }

  lemma CreateDies(cfg: Config, s0: Store, req: Request, s: Store, p: Phase)
    requires CreateAt(cfg, s0, req, s, p) && IsCreate(p)
    ensures CreateEnded(cfg, s0, req, Died(s, req.orderId, p), None)
  {
    hide BookingEvent, AwbText;
  }

  lemma {:induction false} CreateFrom(
    cfg: Config, s0: Store, req: Request, s: Store, p: Phase, script: seq<Choice>
  )
    requires CreateAt(cfg, s0, req, s, p)
    ensures var e := Handle(cfg, s, req.orderId, p, script); CreateEnded(cfg, s0, req, e.store, e.outcome)
    decreases |script|
  {
    hide Step, Commit, CreateEnded, BookedFor, PendingFor, Rewrites;
    if !p.Finished? {
      assert IsCreate(p);
      if script == [] || !Fits(p, script[0]) {
        CreateDies(cfg, s0, req, s, p);
      } else {
        var e := StepAt(cfg, s, req.orderId, p, script[0]);
        CreateStepKeeps(cfg, s0, req, s, p, script[0]);
        CreateFrom(cfg, s0, req, Commit(s, req.orderId, e), e.phase, script[1..]);
      }
    }
  }

  /** Every outcome of createOrder, and what it says about the row, the log and the bookings. */
  lemma CreateOrderOutcomes(cfg: Config, s: Store, req: Request, script: seq<Choice>)
    ensures var e := Handle(cfg, s, req.orderId, CreateRead(req), script);
            CreateEnded(cfg, s, req, e.store, e.outcome)
  {
    CreateFrom(cfg, s, req, s, CreateRead(req), script);
  }

  // reconcileSingleOrder

  /**
   * What a pass may leave of its row: the row as it was, or with one retry more and FAILED, pending with
   * retries left, or CREATED with a waybill. Courier and payload stay, and so does a waybill.
   */
  predicate Left(cfg: Config, row: Row, row': Row) {
    || row' == row
    || (&& row'.partner == row.partner && row'.payload == row.payload && row'.retryCount == row.retryCount + 1
        && (row'.awb == row.awb || row'.awb.Some?)
        && (row'.status == Failed || Eligible(cfg, Some(row')) || (row'.status == Created && row'.awb.Some?)))
  }

  /** Only this order's row was touched, and at most the recovery event of its waybill was logged. */
  predicate Touched(cfg: Config, s0: Store, s: Store, id: OrderId, row: Row) {
    && id in s.table && s.table == s0.table[id := s.table[id]] && Left(cfg, row, s.table[id])
    && (|| s.log == s0.log
        || (&& s.table[id].awb.Some?
            && s.log == s0.log + [RecoveryEvent(id, row.partner, s.table[id].awb.value)]))
  }

  predicate WorkerAt(cfg: Config, s0: Store, id: OrderId, row: Row, s: Store, p: Phase) {
    var next := row.retryCount + 1;
    var before, now := LedgerOf(s0, id), LedgerOf(s, id);
    match p
    case WorkerUnsupported(n) => n == next && row.partner !in cfg.registered && SameTables(s0, s)
    case WorkerDispatch(payload, partner, n) =>
      && n == next && payload == row.payload && partner == row.partner && partner in cfg.registered
      && SameTables(s0, s) && now.booked == before.booked
    case WorkerPersist(partner, _, n) =>
      && n == next && partner == row.partner && partner in cfg.registered
      && SameTables(s0, s) && now.booked > before.booked
    case WorkerEvent(partner, awb, n) =>
      && n == next && partner == row.partner && partner in cfg.registered
      && Rewrites(s0, s, id, BookedRow(row, awb).(retryCount := next), []) && now.booked > before.booked
    case WorkerCatch(n) => n == next && Touched(cfg, s0, s, id, row)
    case Finished(o) => WorkerEnded(cfg, s0, id, row, s, Some(o))
    case _ => false
  }

  predicate WorkerEnded(cfg: Config, s0: Store, id: OrderId, row: Row, s: Store, o: Option<Outcome>) {
    && Touched(cfg, s0, s, id, row)
    && match o
       case Some(Recovered) =>
         && row.partner in cfg.registered && s.table[id].awb.Some?
         && var awb := s.table[id].awb.value;
            && Rewrites(s0, s, id, BookedRow(row, awb).(retryCount := row.retryCount + 1),
                        [RecoveryEvent(id, row.partner, awb)])
            && LedgerOf(s, id).booked > LedgerOf(s0, id).booked
       case Some(NotRecovered) =>
         && s.table[id].retryCount == row.retryCount + 1
         && (s.table[id].status == Failed || Eligible(cfg, RowOf(s, id)))
       case Some(Threw(error)) => error == DatabaseError
       case None => true
       case Some(_) => false
  }

  lemma UnsupportedKeeps(cfg: Config, s0: Store, id: OrderId, row: Row, s: Store, next: nat, c: Choice)
    requires var p := WorkerUnsupported(next);
             RowOf(s0, id) == Some(row) && WorkerAt(cfg, s0, id, row, s, p) && Fits(p, c)
    ensures var e := StepAt(cfg, s, id, WorkerUnsupported(next), c);
            WorkerAt(cfg, s0, id, row, Commit(s, id, e), e.phase)
  {
    hide RecoveryEvent;
  }

  lemma RedispatchKeeps(
    cfg: Config, s0: Store, id: OrderId, row: Row, s: Store, payload: Request, partner: string, next: nat, c: Choice
  )
    requires var p := WorkerDispatch(payload, partner, next);
             RowOf(s0, id) == Some(row) && WorkerAt(cfg, s0, id, row, s, p) && Fits(p, c)
    ensures var e := StepAt(cfg, s, id, WorkerDispatch(payload, partner, next), c);
            WorkerAt(cfg, s0, id, row, Commit(s, id, e), e.phase)
  {
    hide RecoveryEvent;
  }

  lemma RecoveryKeeps(
    cfg: Config, s0: Store, id: OrderId, row: Row, s: Store, partner: string, awb: Awb, next: nat, c: Choice
  )
    requires var p := WorkerPersist(partner, awb, next);
             RowOf(s0, id) == Some(row) && WorkerAt(cfg, s0, id, row, s, p) && Fits(p, c)
    ensures var e := StepAt(cfg, s, id, WorkerPersist(partner, awb, next), c);
            WorkerAt(cfg, s0, id, row, Commit(s, id, e), e.phase)
  {
    hide RecoveryEvent;
  }

  lemma RecoveryEventKeeps(
    cfg: Config, s0: Store, id: OrderId, row: Row, s: Store, partner: string, awb: Awb, next: nat, c: Choice
  )
    requires var p := WorkerEvent(partner, awb, next);
             RowOf(s0, id) == Some(row) && WorkerAt(cfg, s0, id, row, s, p) && Fits(p, c)
    ensures var e := StepAt(cfg, s, id, WorkerEvent(partner, awb, next), c);
            WorkerAt(cfg, s0, id, row, Commit(s, id, e), e.phase)
  {
    hide RecoveryEvent;
  }

  lemma CatchKeeps(cfg: Config, s0: Store, id: OrderId, row: Row, s: Store, next: nat, c: Choice)
    requires var p := WorkerCatch(next); RowOf(s0, id) == Some(row) && WorkerAt(cfg, s0, id, row, s, p) && Fits(p, c)
    ensures var e := StepAt(cfg, s, id, WorkerCatch(next), c); WorkerAt(cfg, s0, id, row, Commit(s, id, e), e.phase)
  {
    hide RecoveryEvent;
  }

  lemma WorkerStepKeeps(cfg: Config, s0: Store, id: OrderId, row: Row, s: Store, p: Phase, c: Choice)
    requires RowOf(s0, id) == Some(row) && WorkerAt(cfg, s0, id, row, s, p) && IsWorker(p) && Fits(p, c)
    ensures var e := StepAt(cfg, s, id, p, c); WorkerAt(cfg, s0, id, row, Commit(s, id, e), e.phase)
  {
    match p {
      case WorkerUnsupported(next) => UnsupportedKeeps(cfg, s0, id, row, s, next, c);
      case WorkerDispatch(payload, partner, next) => RedispatchKeeps(cfg, s0, id, row, s, payload, partner, next, c);
      case WorkerPersist(partner, awb, next) => RecoveryKeeps(cfg, s0, id, row, s, partner, awb, next, c);
      case WorkerEvent(partner, awb, next) => RecoveryEventKeeps(cfg, s0, id, row, s, partner, awb, next, c);
      case WorkerCatch(next) => CatchKeeps(cfg, s0, id, row, s, next, c);
    }
  }

  lemma {:induction false} WorkerFrom(
    cfg: Config, s0: Store, id: OrderId, row: Row, s: Store, p: Phase, script: seq<Choice>
  )
    requires RowOf(s0, id) == Some(row) && WorkerAt(cfg, s0, id, row, s, p)
    ensures var e := Handle(cfg, s, id, p, script); WorkerEnded(cfg, s0, id, row, e.store, e.outcome)
    decreases |script|
  {
    hide Step, Commit;
    if !p.Finished? && script != [] && Fits(p, script[0]) {
      assert IsWorker(p);
      var e := StepAt(cfg, s, id, p, script[0]);
      WorkerStepKeeps(cfg, s0, id, row, s, p, script[0]);
      hide WorkerAt, WorkerEnded;
      WorkerFrom(cfg, s0, id, row, Commit(s, id, e), e.phase, script[1..]);
    }
  }

  /** Every outcome of a worker pass over a row that was selected. */
  lemma WorkerPassOutcomes(cfg: Config, s: Store, id: OrderId, script: seq<Choice>)
    requires Eligible(cfg, RowOf(s, id))
    ensures var row := s.table[id];
            var e := Handle(cfg, s, id, WorkerStart(cfg, row), script);
            WorkerEnded(cfg, s, id, row, e.store, e.outcome)
  {
    WorkerFrom(cfg, s, id, s.table[id], s, WorkerStart(cfg, s.table[id]), script);
  }

  // cancelOrder

  predicate Cancellable(row: Option<Row>) {
    row.Some? && row.value.status != Cancelled && row.value.status != Delivered
  }

  /** How an order that cannot be cancelled is answered. */
  function Refusal(row: Option<Row>): Outcome {
    if row.None? then Threw(NotFound)
    else if row.value.status == Cancelled then AlreadyCancelled
    else Threw(NotCancellable)
  }

  predicate CancelAt(cfg: Config, s0: Store, id: OrderId, reason: string, s: Store, p: Phase) {
    var row := RowOf(s0, id);
    var before, now := LedgerOf(s0, id), LedgerOf(s, id);
    match p
    case CancelFetch(r) => r == reason && SameTables(s0, s) && now == before
    case CancelCall(waybill, r) =>
      && r == reason && Cancellable(row) && waybill == AwbText(row.value)
      && SameTables(s0, s) && now.cancelled == before.cancelled
    case CancelPersist(waybill, r) =>
      && r == reason && Cancellable(row) && waybill == AwbText(row.value)
      && SameTables(s0, s) && now.cancelled == before.cancelled + 1
    case CancelEvent(waybill, r) =>
      && r == reason && Cancellable(row) && waybill == AwbText(row.value)
      && Rewrites(s0, s, id, row.value.(status := Cancelled), []) && now.cancelled == before.cancelled + 1
    case Finished(o) => CancelEnded(cfg, s0, id, reason, s, Some(o))
    case _ => false
  }

  predicate CancelEnded(cfg: Config, s0: Store, id: OrderId, reason: string, s: Store, o: Option<Outcome>) {
    var row := RowOf(s0, id);
    var before, now := LedgerOf(s0, id), LedgerOf(s, id);
    if !Cancellable(row) then
      && SameTables(s0, s) && now == before
      && (o == None || o == Some(Threw(DatabaseError)) || o == Some(Refusal(row)))
    else
      && before.cancelled <= now.cancelled <= before.cancelled + 1
      && var cancelled := row.value.(status := Cancelled);
         var entry := CancelEntry(id, AwbText(row.value), reason);
         match o
         case Some(CancelConfirmed) =>
           Rewrites(s0, s, id, cancelled, [entry]) && now.cancelled == before.cancelled + 1
         case Some(Threw(UnknownCourier)) =>
           row.value.partner !in cfg.registered && SameTables(s0, s) && now.cancelled == before.cancelled
         case Some(Threw(CourierError)) => SameTables(s0, s)
         case Some(Threw(DatabaseError)) => CancelInterrupted(s0, id, cancelled, entry, s)
         case None => CancelInterrupted(s0, id, cancelled, entry, s)
         case Some(_) => false
  }

  predicate CancelInterrupted(s0: Store, id: OrderId, cancelled: Row, entry: Event, s: Store) {
    SameTables(s0, s) || Rewrites(s0, s, id, cancelled, []) || Rewrites(s0, s, id, cancelled, [entry])
  }

  lemma FetchKeeps(cfg: Config, s0: Store, id: OrderId, reason: string, s: Store, c: Choice)
    requires var p := CancelFetch(reason); CancelAt(cfg, s0, id, reason, s, p) && Fits(p, c)
    ensures var e := StepAt(cfg, s, id, CancelFetch(reason), c);
            CancelAt(cfg, s0, id, reason, Commit(s, id, e), e.phase)
  {
    hide CancelEntry, AwbText;
  }

  lemma CallKeeps(cfg: Config, s0: Store, id: OrderId, reason: string, s: Store, waybill: string, c: Choice)
    requires var p := CancelCall(waybill, reason); CancelAt(cfg, s0, id, reason, s, p) && Fits(p, c)
    ensures var e := StepAt(cfg, s, id, CancelCall(waybill, reason), c);
            CancelAt(cfg, s0, id, reason, Commit(s, id, e), e.phase)
  {
    hide CancelEntry, AwbText;
  }

  lemma CancelledKeeps(cfg: Config, s0: Store, id: OrderId, reason: string, s: Store, waybill: string, c: Choice)
    requires var p := CancelPersist(waybill, reason); CancelAt(cfg, s0, id, reason, s, p) && Fits(p, c)
    ensures var e := StepAt(cfg, s, id, CancelPersist(waybill, reason), c);
            CancelAt(cfg, s0, id, reason, Commit(s, id, e), e.phase)
  {
    hide CancelEntry, AwbText;
  }

  lemma EntryKeeps(cfg: Config, s0: Store, id: OrderId, reason: string, s: Store, waybill: string, c: Choice)
    requires var p := CancelEvent(waybill, reason); CancelAt(cfg, s0, id, reason, s, p) && Fits(p, c)
    ensures var e := StepAt(cfg, s, id, CancelEvent(waybill, reason), c);
            CancelAt(cfg, s0, id, reason, Commit(s, id, e), e.phase)
  {
    hide CancelEntry, AwbText;
  }

  lemma CancelStepKeeps(cfg: Config, s0: Store, id: OrderId, reason: string, s: Store, p: Phase, c: Choice)
    requires CancelAt(cfg, s0, id, reason, s, p) && IsCancel(p) && Fits(p, c)
    ensures var e := StepAt(cfg, s, id, p, c); CancelAt(cfg, s0, id, reason, Commit(s, id, e), e.phase)
  {
    match p {
      case CancelFetch(_) => FetchKeeps(cfg, s0, id, reason, s, c);
      case CancelCall(waybill, _) => CallKeeps(cfg, s0, id, reason, s, waybill, c);
      case CancelPersist(waybill, _) => CancelledKeeps(cfg, s0, id, reason, s, waybill, c);
      case CancelEvent(waybill, _) => EntryKeeps(cfg, s0, id, reason, s, waybill, c);
    }
  }

  lemma CancelDies(cfg: Config, s0: Store, id: OrderId, reason: string, s: Store, p: Phase)
    requires CancelAt(cfg, s0, id, reason, s, p) && IsCancel(p)
    ensures CancelEnded(cfg, s0, id, reason, Died(s, id, p), None)
  {
    hide CancelEntry, AwbText;
  }

  lemma {:induction false} CancelFrom(
    cfg: Config, s0: Store, id: OrderId, reason: string, s: Store, p: Phase, script: seq<Choice>
  )
    requires CancelAt(cfg, s0, id, reason, s, p)
    ensures var e := Handle(cfg, s, id, p, script); CancelEnded(cfg, s0, id, reason, e.store, e.outcome)
    decreases |script|
  {
    hide Step, Commit, CancelEnded, Rewrites;
    if !p.Finished? {
      assert IsCancel(p);
      if script == [] || !Fits(p, script[0]) {
        CancelDies(cfg, s0, id, reason, s, p);
      } else {
        var e := StepAt(cfg, s, id, p, script[0]);
        CancelStepKeeps(cfg, s0, id, reason, s, p, script[0]);
        CancelFrom(cfg, s0, id, reason, Commit(s, id, e), e.phase, script[1..]);
      }
    }
  }

  /** Every outcome of cancelOrder. */
  lemma CancelOrderOutcomes(cfg: Config, s: Store, id: OrderId, reason: string, script: seq<Choice>)
    ensures var e := Handle(cfg, s, id, CancelFetch(reason), script);
            CancelEnded(cfg, s, id, reason, e.store, e.outcome)
  {
    CancelFrom(cfg, s, id, reason, s, CancelFetch(reason), script);
  }

  // trackOrder

  /** The scans from `k` up to `n` have been dealt with when the run ends. */
  predicate ScannedUpTo(s: Store, id: OrderId, waybill: string, report: Report, k: nat, n: nat, e: Ending) {
    && k <= n <= |report.history|
    && e.store.table == s.table && LedgerOf(e.store, id) == LedgerOf(s, id)
    && e.store.log == AppendNew(s.log, id, waybill, report.history[k..n])
    && (|| e.outcome == None
        || e.outcome == Some(Threw(DatabaseError))
        || (e.outcome == Some(Tracked(report)) && n == |report.history|))
  }

  predicate AllAcknowledged(script: seq<Choice>) {
    forall i :: 0 <= i < |script| ==> script[i] == DbOk
  }

  /** One await on the way through the scans, whatever its answer: the new log, and where it goes on. */
  lemma ScanStep(cfg: Config, s: Store, id: OrderId, p: Phase, c: Choice)
    requires (p.TrackFind? || p.TrackAppend?) && Fits(p, c)
    ensures var x := p.report.history[p.k];
            var e := StepAt(cfg, s, id, p, c);
            var s' := Commit(s, id, e);
            && s'.table == s.table && LedgerOf(s', id) == LedgerOf(s, id)
            && s'.log == (if p.TrackAppend? && Wrote(c) then s.log + [ScanEvent(id, p.waybill, x)] else s.log)
            && e.phase == if c.DbError? then Finished(Threw(DatabaseError))
                          else if p.TrackFind? && !Logged(s.log, id, x) then TrackAppend(p.waybill, p.report, p.k)
                          else NextScan(p.waybill, p.report, p.k + 1)
  {
  }

  lemma ScanDies(s: Store, id: OrderId, p: Phase)
    requires p.TrackFind? || p.TrackAppend?
    ensures Died(s, id, p).table == s.table && Died(s, id, p).log == s.log
    ensures LedgerOf(Died(s, id, p), id) == LedgerOf(s, id)
  {
  }

  /** The insert of a scan that was looked up and not found, and what follows. */
  lemma AppendUnderAnyScript(
    cfg: Config, s: Store, id: OrderId, waybill: string, report: Report, k: nat, script: seq<Choice>
  ) returns (n: nat)
    requires k < |report.history| && !Logged(s.log, id, report.history[k])
    ensures var e := Handle(cfg, s, id, TrackAppend(waybill, report, k), script);
            && ScannedUpTo(s, id, waybill, report, k, n, e)
            && (AllAcknowledged(script) && |script| >= 2 * (|report.history| - k) - 1 ==>
                  e.outcome == Some(Tracked(report)))
    decreases |report.history| - k, 0
  {
    hide Step, Commit, Logged, AppendNew;
    var p := TrackAppend(waybill, report, k);
    assert report.history[k..k] == [];
    AppendOne(s.log, id, waybill, report, k);
    if script == [] || !Fits(p, script[0]) {
      ScanDies(s, id, p);
      return k;
    }
    var e := StepAt(cfg, s, id, p, script[0]);
    var s' := Commit(s, id, e);
    ScanStep(cfg, s, id, p, script[0]);
    if e.phase == Finished(Threw(DatabaseError)) {
      HandleDone(cfg, s', id, e.phase, script[1..]);
      return if Wrote(script[0]) then k + 1 else k;
    }
    n := ScansUnderAnyScript(cfg, s', id, waybill, report, k + 1, script[1..]);
    AppendFrom(s.log, id, waybill, report, k, n);
  }

  /** From scan `k` on, under every script. */
  lemma ScansUnderAnyScript(
    cfg: Config, s: Store, id: OrderId, waybill: string, report: Report, k: nat, script: seq<Choice>
  ) returns (n: nat)
    requires k <= |report.history|
    ensures var e := Handle(cfg, s, id, NextScan(waybill, report, k), script);
            && ScannedUpTo(s, id, waybill, report, k, n, e)
            && (AllAcknowledged(script) && |script| >= 2 * (|report.history| - k) ==>
                  e.outcome == Some(Tracked(report)))
    decreases |report.history| - k, 1
  {
    hide Step, Commit, Logged, AppendNew;
    assert report.history[k..k] == [];
    AppendNone(s.log, id, waybill);
    if k == |report.history| {
      HandleDone(cfg, s, id, NextScan(waybill, report, k), script);
      return k;
    }
    var p := TrackFind(waybill, report, k);
    if script == [] || !Fits(p, script[0]) {
      ScanDies(s, id, p);
      return k;
    }
    var e := StepAt(cfg, s, id, p, script[0]);
    var s' := Commit(s, id, e);
    ScanStep(cfg, s, id, p, script[0]);
    if e.phase == Finished(Threw(DatabaseError)) {
      HandleDone(cfg, s', id, e.phase, script[1..]);
      return k;
    }
    if Logged(s.log, id, report.history[k]) {
      n := ScansUnderAnyScript(cfg, s', id, waybill, report, k + 1, script[1..]);
      AppendFrom(s.log, id, waybill, report, k, n);
    } else {
      n := AppendUnderAnyScript(cfg, s', id, waybill, report, k, script[1..]);
    }
  }

  lemma AppendNone(log: seq<Event>, id: OrderId, waybill: string)
    ensures AppendNew(log, id, waybill, []) == log
  {
  }

  /** Dealing with scan `k`, and with the ones after it. */
  lemma AppendFrom(log: seq<Event>, id: OrderId, waybill: string, report: Report, k: nat, n: nat)
    requires k < n <= |report.history|
    ensures var x := report.history[k];
            AppendNew(log, id, waybill, report.history[k..n])
              == AppendNew(if Logged(log, id, x) then log else log + [ScanEvent(id, waybill, x)], id, waybill,
                           report.history[k + 1..n])
  {
    assert report.history[k..n][0] == report.history[k] && report.history[k..n][1..] == report.history[k + 1..n];
  }

  lemma AppendOne(log: seq<Event>, id: OrderId, waybill: string, report: Report, k: nat)
    requires k < |report.history| && !Logged(log, id, report.history[k])
    ensures AppendNew(log, id, waybill, report.history[k..k]) == log
    ensures AppendNew(log, id, waybill, report.history[k..k + 1]) == log + [ScanEvent(id, waybill, report.history[k])]
  {
    assert report.history[k..k] == [] == report.history[k + 1..k + 1];
    AppendFrom(log, id, waybill, report, k, k + 1);
  }

  predicate Trackable(cfg: Config, row: Option<Row>) {
    row.Some? && row.value.awb.Some? && row.value.partner in cfg.registered
  }

  /** The courier's report, if the script gets that far. */
  function ReportIn(script: seq<Choice>): Option<Report> {
    if |script| >= 2 && script[0] == DbOk && script[1].Reported? && ValidReport(script[1].report)
    then Some(script[1].report) else None
  }

  /**
   * From store `s0` to `s`: without a report nothing changes. With one, the row has taken the reported status
   * before any scan is logged, and some first `n` scans have been dealt with, all of them if the caller is
   * answered.
   */
  ghost predicate TrackEnded(
    cfg: Config, s0: Store, id: OrderId, reply: Option<Report>, s: Store, o: Option<Outcome>
  ) {
    var row := RowOf(s0, id);
    var before, now := LedgerOf(s0, id), LedgerOf(s, id);
    && now.booked == before.booked && now.cancelled == before.cancelled
    && if reply.None? || !Trackable(cfg, row) then
         && SameTables(s0, s) && now == before
         && match o
            case None => true
            case Some(Threw(NotFound)) => row.None? || row.value.awb.None?
            case Some(Threw(UnknownCourier)) => row.Some? && row.value.partner !in cfg.registered
            case Some(Threw(error)) => error == CourierError || error == DatabaseError
            case Some(_) => false
       else
         exists n :: TrackedUpTo(s0, id, row.value, reply.value, n, s, o)
  }

  predicate TrackedUpTo(s0: Store, id: OrderId, row: Row, report: Report, n: nat, s: Store, o: Option<Outcome>) {
    && n <= |report.history|
    && s.log == AppendNew(s0.log, id, AwbText(row), report.history[..n])
    && (s.table == s0.table[id := row.(status := report.status)] || (s.table == s0.table && n == 0))
    && (|| o == None
        || o == Some(Threw(DatabaseError))
        || (&& o == Some(Tracked(report)) && n == |report.history|
            && s.table == s0.table[id := row.(status := report.status)]))
  }

  lemma TrackFetchStep(cfg: Config, s: Store, id: OrderId, c: Choice)
    requires Fits(TrackFetch, c)
    ensures var e := StepAt(cfg, s, id, TrackFetch, c);
            var s' := Commit(s, id, e);
            && SameTables(s, s') && LedgerOf(s', id) == LedgerOf(s, id)
            && if c.DbOk? && Trackable(cfg, RowOf(s, id)) then e.phase == TrackCall(s.table[id])
               else e.phase.Finished? && TrackEnded(cfg, s, id, None, s', Some(e.phase.outcome))
  {
  }

  lemma TrackCallStep(cfg: Config, s: Store, id: OrderId, row: Row, c: Choice)
    requires Fits(TrackCall(row), c)
    ensures var e := StepAt(cfg, s, id, TrackCall(row), c);
            var s' := Commit(s, id, e);
            && SameTables(s, s') && LedgerOf(s', id) == LedgerOf(s, id)
            && e.phase == if c.TrackingFailed? then Finished(Threw(CourierError)) else AfterReport(row, c.report)
  {
  }

  lemma TrackStatusStep(cfg: Config, s: Store, id: OrderId, row: Row, report: Report, c: Choice)
    requires RowOf(s, id) == Some(row) && Fits(TrackStatus(row, report), c)
    ensures var e := StepAt(cfg, s, id, TrackStatus(row, report), c);
            var s' := Commit(s, id, e);
            var before, now := LedgerOf(s, id), LedgerOf(s', id);
            && s'.log == s.log && now.booked == before.booked && now.cancelled == before.cancelled
            && s'.table == (if Wrote(c) then s.table[id := row.(status := report.status)] else s.table)
            && e.phase == if c.DbOk? then NextScan(AwbText(row), report, 0) else Finished(Threw(DatabaseError))
  {
    hide AwbText;
  }

  /** What follows once the report is there. */
  lemma FromReport(cfg: Config, s: Store, id: OrderId, row: Row, report: Report, script: seq<Choice>)
    requires RowOf(s, id) == Some(row) && Trackable(cfg, Some(row))
    ensures var e := Handle(cfg, s, id, AfterReport(row, report), script);
            && TrackEnded(cfg, s, id, Some(report), e.store, e.outcome)
            && (AllAcknowledged(script) && |script| >= 2 * |report.history| + 1 ==> e.outcome == Some(Tracked(report)))
  {
    hide Step, Commit, AppendNew, AwbText, NextScan;
    var p := AfterReport(row, report);
    var e := Handle(cfg, s, id, p, script);
    assert report.history[..0] == [];
    AppendNone(s.log, id, AwbText(row));
    if row.status == report.status {
      assert s.table[id := row.(status := report.status)] == s.table;
      var n := ScansUnderAnyScript(cfg, s, id, AwbText(row), report, 0, script);
      assert report.history[0..n] == report.history[..n];
      assert TrackedUpTo(s, id, row, report, n, e.store, e.outcome);
    } else if script == [] || !Fits(p, script[0]) {
      assert TrackedUpTo(s, id, row, report, 0, e.store, e.outcome);
    } else {
      var st := StepAt(cfg, s, id, p, script[0]);
      var s' := Commit(s, id, st);
      TrackStatusStep(cfg, s, id, row, report, script[0]);
      Unfold(cfg, s, id, p, script);
      if script[0].DbOk? {
        var n := ScansUnderAnyScript(cfg, s', id, AwbText(row), report, 0, script[1..]);
        assert report.history[0..n] == report.history[..n];
        assert TrackedUpTo(s, id, row, report, n, e.store, e.outcome);
      } else {
        HandleDone(cfg, s', id, st.phase, script[1..]);
        assert TrackedUpTo(s, id, row, report, 0, e.store, e.outcome);
      }
    }
  }

  lemma SameStart(
    cfg: Config, s0: Store, s1: Store, id: OrderId, reply: Option<Report>, s: Store, o: Option<Outcome>
  )
    requires SameTables(s0, s1) && LedgerOf(s1, id) == LedgerOf(s0, id) && TrackEnded(cfg, s1, id, reply, s, o)
    ensures TrackEnded(cfg, s0, id, reply, s, o)
  {
    hide AppendNew, AwbText, LedgerOf;
    var row := RowOf(s0, id);
    if reply.Some? && Trackable(cfg, row) {
      var n :| TrackedUpTo(s1, id, row.value, reply.value, n, s, o);
      assert TrackedUpTo(s0, id, row.value, reply.value, n, s, o);
    }
  }

  lemma TrackDies(cfg: Config, s: Store, id: OrderId, p: Phase)
    requires p.TrackFetch? || p.TrackCall?
    ensures TrackEnded(cfg, s, id, None, Died(s, id, p), None)
  {
  }

  /** From the courier call on. */
  lemma FromCall(cfg: Config, s: Store, id: OrderId, row: Row, script: seq<Choice>)
    requires RowOf(s, id) == Some(row) && Trackable(cfg, Some(row))
    ensures var reply := ReportIn([DbOk] + script);
            var e := Handle(cfg, s, id, TrackCall(row), script);
            && TrackEnded(cfg, s, id, reply, e.store, e.outcome)
            && (reply.Some? && AllAcknowledged(script[1..]) && |script| >= 2 * |reply.value.history| + 2 ==>
                  e.outcome == Some(Tracked(reply.value)))
  {
    hide Step, Commit, TrackEnded;
    var p := TrackCall(row);
    if script == [] || !Fits(p, script[0]) {
      TrackDies(cfg, s, id, p);
      return;
    }
    var st := StepAt(cfg, s, id, p, script[0]);
    var s' := Commit(s, id, st);
    TrackCallStep(cfg, s, id, row, script[0]);
    if script[0].Reported? {
      FromReport(cfg, s', id, row, script[0].report, script[1..]);
      var e := Handle(cfg, s', id, st.phase, script[1..]);
      SameStart(cfg, s, s', id, Some(script[0].report), e.store, e.outcome);
    } else {
      HandleDone(cfg, s', id, st.phase, script[1..]);
      RefusedTracking(cfg, s, id, s');
    }
  }

  lemma RefusedTracking(cfg: Config, s: Store, id: OrderId, s': Store)
    requires SameTables(s, s') && LedgerOf(s', id) == LedgerOf(s, id)
    ensures TrackEnded(cfg, s, id, None, s', Some(Threw(CourierError)))
  {
  }

  /** Every outcome of trackOrder. */
  lemma TrackOrderOutcomes(cfg: Config, s: Store, id: OrderId, script: seq<Choice>)
    ensures var e := Handle(cfg, s, id, TrackFetch, script);
            TrackEnded(cfg, s, id, ReportIn(script), e.store, e.outcome)
  {
    hide Step, Commit, TrackEnded;
    if script == [] || !Fits(TrackFetch, script[0]) {
      TrackDies(cfg, s, id, TrackFetch);
      return;
    }
    var st := StepAt(cfg, s, id, TrackFetch, script[0]);
    var s' := Commit(s, id, st);
    TrackFetchStep(cfg, s, id, script[0]);
    if st.phase.Finished? {
      HandleDone(cfg, s', id, st.phase, script[1..]);
      UntrackableIgnoresReply(cfg, s, id, script, s', Some(st.phase.outcome));
    } else {
      FromCall(cfg, s', id, s.table[id], script[1..]);
      assert [DbOk] + script[1..] == script;
      var e := Handle(cfg, s', id, st.phase, script[1..]);
      SameStart(cfg, s, s', id, ReportIn(script), e.store, e.outcome);
    }
  }

  /** A fetch that ended trackOrder either failed or found an order that cannot be tracked. */
  lemma UntrackableIgnoresReply(cfg: Config, s: Store, id: OrderId, script: seq<Choice>, s': Store, o: Option<Outcome>)
    requires TrackEnded(cfg, s, id, None, s', o)
    requires script != [] && (script[0] != DbOk || !Trackable(cfg, RowOf(s, id)))
    ensures TrackEnded(cfg, s, id, ReportIn(script), s', o)
  {
  }

  /** Whenever trackOrder answers, the row has the reported status and the log all scans that were new. */
  lemma TrackAnswerMeans(cfg: Config, s: Store, id: OrderId, script: seq<Choice>, report: Report)
    requires Handle(cfg, s, id, TrackFetch, script).outcome == Some(Tracked(report))
    ensures var e := Handle(cfg, s, id, TrackFetch, script);
            && Trackable(cfg, RowOf(s, id))
            && e.store.table == s.table[id := s.table[id].(status := report.status)]
            && e.store.log == AppendNew(s.log, id, AwbText(s.table[id]), report.history)
  {
    hide Handle, AppendNew, AwbText;
    TrackOrderOutcomes(cfg, s, id, script);
    assert report.history[..|report.history|] == report.history;
  }

  /** And it answers when nothing fails. */
  lemma TrackOrderEffect(cfg: Config, s: Store, id: OrderId, report: Report, acks: seq<Choice>)
    requires Trackable(cfg, RowOf(s, id)) && ValidReport(report)
    requires |acks| >= 2 * |report.history| + 1 && AllAcknowledged(acks)
    ensures var e := Handle(cfg, s, id, TrackFetch, [DbOk, Reported(report)] + acks);
            && e.outcome == Some(Tracked(report))
            && e.store.table == s.table[id := s.table[id].(status := report.status)]
            && e.store.log == AppendNew(s.log, id, AwbText(s.table[id]), report.history)
  {
    hide Step, Commit, AppendNew, AwbText;
    var script := [DbOk, Reported(report)] + acks;
    TrackFetchStep(cfg, s, id, DbOk);
    var s' := Commit(s, id, StepAt(cfg, s, id, TrackFetch, DbOk));
    assert [DbOk] + script[1..] == script && script[1..][1..] == acks;
    FromCall(cfg, s', id, s.table[id], script[1..]);
    Unfold(cfg, s, id, TrackFetch, script);
    hide Handle;
    TrackAnswerMeans(cfg, s, id, script, report);
  }

  /**
   * A trackOrder that threw or died half way through its scans, called again, ends with the row and the log
   * that one undisturbed call would have left: no scan is missing and none is there twice.
   */
  lemma TrackingResumes(cfg: Config, s: Store, id: OrderId, first: seq<Choice>, second: seq<Choice>, report: Report)
    requires Trackable(cfg, RowOf(s, id)) && ReportIn(first) == Some(report)
    requires var s1 := Handle(cfg, s, id, TrackFetch, first).store;
             Handle(cfg, s1, id, TrackFetch, second).outcome == Some(Tracked(report))
    ensures var s1 := Handle(cfg, s, id, TrackFetch, first).store;
            var s2 := Handle(cfg, s1, id, TrackFetch, second).store;
            && s2.table == s.table[id := s.table[id].(status := report.status)]
            && s2.log == AppendNew(s.log, id, AwbText(s.table[id]), report.history)
  {
    hide Handle, AppendNew;
    var row := s.table[id];
    var e1 := Handle(cfg, s, id, TrackFetch, first);
    TrackOrderOutcomes(cfg, s, id, first);
    TrackAnswerMeans(cfg, e1.store, id, second, report);
    var n :| TrackedUpTo(s, id, row, report, n, e1.store, e1.outcome);
    ResumingIsOneGo(s.log, id, AwbText(row), report.history, n);
  }

  // When the caller's answer and the row disagree

  /** The failing statement that makes an operation throw although its order is, or has just been, booked. */
  predicate Misreports(row: Option<Row>, p: Phase, c: Choice) {
    && c.DbError?
    && ((p.CreateRead? && !NeedsBooking(row)) || (p.CreatePersist? && c.applied) || p.CreateEvent?)
  }

  /** Some answer of the script does. */
  predicate Misled(cfg: Config, s: Store, id: OrderId, p: Phase, script: seq<Choice>)
    decreases |script|
  {
    && !p.Finished? && script != [] && Fits(p, script[0])
    && (|| Misreports(RowOf(s, id), p, script[0])
        || var e := StepAt(cfg, s, id, p, script[0]); Misled(cfg, Commit(s, id, e), id, e.phase, script[1..]))
  }

  /** What the phase of createOrder says about its row. */
  predicate Coherent(row: Option<Row>, p: Phase) {
    match p
    case CreateRead(_) => true
    case CreatePending(_, found) => found == row && NeedsBooking(row)
    case CreateDispatch(_) => row.Some? && NeedsBooking(row)
    case CreateAudit => row.Some? && NeedsBooking(row)
    case CreatePersist(_, _) => row.Some? && NeedsBooking(row)
    case CreateEvent(_, _) => !NeedsBooking(row)
    case Finished(o) => (o.Booking? || o.Threw?) && (o.Booking? <==> !NeedsBooking(row))
    case _ => false
  }

  lemma StepIsCoherent(cfg: Config, id: OrderId, row: Option<Row>, log: seq<Event>, led: Ledger, p: Phase, c: Choice)
    requires IsCreate(p) && Fits(p, c) && Coherent(row, p)
    ensures var e := Step(cfg, id, row, log, led, p, c);
            && (row.Some? ==> e.row.Some?)
            && (if Misreports(row, p, c) then e.phase == Finished(Threw(DatabaseError)) && !NeedsBooking(e.row)
                else Coherent(e.row, e.phase))
  {
  }

  lemma {:induction false} AgreesFrom(cfg: Config, s: Store, id: OrderId, p: Phase, script: seq<Choice>)
    requires Coherent(RowOf(s, id), p) && Handle(cfg, s, id, p, script).outcome.Some?
    ensures var e := Handle(cfg, s, id, p, script);
            && (e.outcome.value.Booking? || e.outcome.value.Threw?)
            && (Misled(cfg, s, id, p, script) <==> e.outcome.value.Threw? && !NeedsBooking(RowOf(e.store, id)))
            && (e.outcome.value.Booking? ==> !NeedsBooking(RowOf(e.store, id)))
    decreases |script|
  {
    assert if p.Finished? then p.outcome.Threw? <==> NeedsBooking(RowOf(s, id)) else IsCreate(p);
    hide Step, Misreports;
    if !p.Finished? {
      var e := StepAt(cfg, s, id, p, script[0]);
      StepIsCoherent(cfg, id, RowOf(s, id), s.log, LedgerOf(s, id), p, script[0]);
      if Misreports(RowOf(s, id), p, script[0]) {
        HandleDone(cfg, Commit(s, id, e), id, e.phase, script[1..]);
      } else {
        AgreesFrom(cfg, Commit(s, id, e), id, e.phase, script[1..]);
      }
    }
  }

  /**
   * The answer and the row agree (a booking is answered exactly for a row that is booked or settled) unless
   * a database error hit the read of a settled row, the persist after it was applied, or the event.
   */
  lemma AnswerAgreesIff(cfg: Config, s: Store, req: Request, script: seq<Choice>)
    requires Handle(cfg, s, req.orderId, CreateRead(req), script).outcome.Some?
    ensures var e := Handle(cfg, s, req.orderId, CreateRead(req), script);
            (e.outcome.value.Booking? <==> !NeedsBooking(RowOf(e.store, req.orderId)))
              <==> !Misled(cfg, s, req.orderId, CreateRead(req), script)
  {
    AgreesFrom(cfg, s, req.orderId, CreateRead(req), script);
  }
}
