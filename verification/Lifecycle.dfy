/**
 * What each operation on an order does between two awaits.
 *
 * An operation in flight is a `Phase`: the await it is suspended at, with the values it has
 * captured so far (row snapshots included). `Step` resumes it with the answer of that await and
 * runs to the next one. The same function drives the serialised runs, the interleaved runs, the
 * bulk pool, the worker cycles and the specification of the service methods.
 */
module Lifecycle {
  import opened Options
  import opened Orders

  /** `transactional` is false exactly for the sqlite dialect. */
  datatype Config = Config(maxRetry: int, registered: set<string>, transactional: bool)

  /** A courier scan as `mapTrackingTimeline` normalises it. */
  datatype Scan = Scan(status: Status, activity: string, at: int)

  datatype Report = Report(status: Status, history: seq<Scan>)

  datatype Error = DuplicateKey | DatabaseError | UnknownCourier | CourierError | NotFound | NotCancellable

  datatype Outcome =
    | Booking(awb: string, status: Status)
    | Recovered
    | NotRecovered
    | Tracked(report: Report)
    | CancelConfirmed
    | AlreadyCancelled
    | Threw(error: Error)

  /** How an await ends. A statement that fails may or may not have reached the database, and a
      courier call that fails may or may not have taken effect at the courier. `createShipment` retries
      its HTTP call: `hidden` of its tries booked although their answer never arrived. */
  datatype Choice =
    | DbOk
    | DbError(applied: bool)
    | Booked(awb: Awb, hidden: nat)
    | BookingFailed(hidden: nat)
    | Reported(report: Report)
    | TrackingFailed
    | CancelAccepted
    | CancelFailed(cancelled: bool)

  datatype Phase =
    // createOrder
    | CreateRead(req: Request)
    | CreatePending(req: Request, found: Option<Row>)
    | CreateDispatch(req: Request)
    | CreateAudit
    | CreatePersist(req: Request, awb: Awb)
    | CreateEvent(req: Request, awb: Awb)
    // reconcileSingleOrder
    | WorkerUnsupported(next: nat)
    | WorkerDispatch(payload: Request, partner: string, next: nat)
    | WorkerPersist(partner: string, awb: Awb, next: nat)
    | WorkerEvent(partner: string, awb: Awb, next: nat)
    | WorkerCatch(next: nat)
    // trackOrder
    | TrackFetch
    | TrackCall(snapshot: Row)
    | TrackStatus(snapshot: Row, report: Report)
    | TrackFind(waybill: string, report: Report, k: nat)
    | TrackAppend(waybill: string, report: Report, k: nat)
    // cancelOrder
    | CancelFetch(reason: string)
    | CancelCall(waybill: string, reason: string)
    | CancelPersist(waybill: string, reason: string)
    | CancelEvent(waybill: string, reason: string)
    | Finished(outcome: Outcome)

  /**
   * Bookkeeping of what really happened to one order, by cause.
   *   booked      bookings the courier took
   *   lost        bookings whose waybill never reached the row
   *   reverted    booked rows the worker's catch block put back
   *   reopened    tracking updates that moved a settled row to FAILED
   *   settled     cancellations and tracking updates that settled an open row
   *   cancelled   cancellations the courier accepted
   *   cancelsLost accepted cancellations that never reached the row
   *   trackedOff / trackedOn   tracking updates that moved the row off / onto CANCELLED
   *   exhausted   resubmissions of a row whose retry budget was already spent
   *   lateCancels cancellations sent while the row was DELIVERED, accepted or not
   *   issued      every (order, waybill) pair the courier answered with
   */
  datatype Ledger = Ledger(
    booked: nat, lost: nat, reverted: nat, reopened: nat, settled: nat,
    cancelled: nat, cancelsLost: nat, trackedOff: nat, trackedOn: nat,
    exhausted: nat, lateCancels: nat, issued: set<(OrderId, Awb)>)

  const EMPTY_LEDGER := Ledger(0, 0, 0, 0, 0, 0, 0, 0, 0, 0, 0, {})

  /** What one step does to its order: the new row, the new ledger, the events appended, the next await. */
  datatype Effect = Effect(row: Option<Row>, ledger: Ledger, emitted: seq<Event>, phase: Phase)

  predicate IsCreate(p: Phase) {
    p.CreateRead? || p.CreatePending? || p.CreateDispatch? || p.CreateAudit? || p.CreatePersist? || p.CreateEvent?
  }

  predicate IsWorker(p: Phase) {
    p.WorkerUnsupported? || p.WorkerDispatch? || p.WorkerPersist? || p.WorkerEvent? || p.WorkerCatch?
  }

  predicate IsTrack(p: Phase) {
    p.TrackFetch? || p.TrackCall? || p.TrackStatus? || p.TrackFind? || p.TrackAppend?
  }

  predicate IsCancel(p: Phase) {
    p.CancelFetch? || p.CancelCall? || p.CancelPersist? || p.CancelEvent?
  }

  /** The answers an await can get. Couriers never report PENDING_DISPATCH. */
  predicate Fits(p: Phase, c: Choice) {
    match p
    case CreateDispatch(_) => c.Booked? || c.BookingFailed?
    case WorkerDispatch(_, _, _) => c.Booked? || c.BookingFailed?
    case TrackCall(_) => c.TrackingFailed? || (c.Reported? && ValidReport(c.report))
    case CancelCall(_, _) => c.CancelAccepted? || c.CancelFailed?
    case TrackFind(_, report, k) => k < |report.history| && (c.DbOk? || c.DbError?)
    case TrackAppend(_, report, k) => k < |report.history| && (c.DbOk? || c.DbError?)
    case Finished(_) => false
    case _ => c.DbOk? || c.DbError?
  }

  predicate ValidReport(r: Report) {
    r.status != PendingDispatch && forall i :: 0 <= i < |r.history| ==> r.history[i].status != PendingDispatch
  }

  /** Did the statement reach the database? */
  predicate Wrote(c: Choice) {
    c.DbOk? || (c.DbError? && c.applied)
  }

  function Then(c: Choice, next: Phase): Phase {
    if c.DbOk? then next else Finished(Threw(DatabaseError))
  }

  function BookedRow(row: Row, awb: Awb): Row {
    row.(awb := Some(awb), status := Created)
  }

  /** An update statement touches nothing when there is no such row. */
  function WithStatus(row: Option<Row>, s: Status): Option<Row> {
    if row.None? then None else Some(row.value.(status := s))
  }

  function BookingEvent(id: OrderId, partner: string, awb: Awb): Event {
    Event(id, awb, Created, "Shipment booked with " + UpperCase(partner), ServerClock)
  }

  function RecoveryEvent(id: OrderId, partner: string, awb: Awb): Event {
    var activity := "Shipment recovered and booked by Reconciliation Worker (" + UpperCase(partner) + ")";
    Event(id, awb, Created, activity, ServerClock)
  }

  /** Without a reason (an empty one counts as none) the entry names a default. */
  function CancelEntry(id: OrderId, waybill: string, reason: string): Event {
    var why := if reason == "" then "Customer requested cancellation" else reason;
    Event(id, waybill, Cancelled, "Shipment cancelled. Reason: " + why, ServerClock)
  }

  function ScanEvent(id: OrderId, waybill: string, s: Scan): Event {
    Event(id, waybill, s.status, s.activity, At(s.at))
  }

  /** The deduplication query of `persistUniqueTrackingEvent`. */
  predicate SameScan(e: Event, id: OrderId, s: Scan) {
    e.orderId == id && e.status == s.status && e.activity == s.activity && e.stamp == At(s.at)
  }

  predicate Logged(log: seq<Event>, id: OrderId, s: Scan) {
    exists i :: 0 <= i < |log| && SameScan(log[i], id, s)
  }

  // Ledger entries

  function NoteBooking(led: Ledger, req: Request, awb: Awb): Ledger {
    led.(booked := led.booked + 1, issued := led.issued + {(req.orderId, awb)})
  }

  /** Bookings hidden behind an HTTP error: nobody will ever learn those waybills. */
  function NoteHidden(led: Ledger, hidden: nat): Ledger {
    led.(booked := led.booked + hidden, lost := led.lost + hidden)
  }

  /** A row that is about to be overwritten by a tracking update. */
  function NoteTracked(led: Ledger, from: Status, to: Status): Ledger {
    var l1 :=
      if !IsOpen(from) && IsOpen(to) then led.(reopened := led.reopened + 1)
      else if IsOpen(from) && !IsOpen(to) then led.(settled := led.settled + 1)
      else led;
    if from == Cancelled && to != Cancelled then l1.(trackedOff := l1.trackedOff + 1)
    else if from != Cancelled && to == Cancelled then l1.(trackedOn := l1.trackedOn + 1)
    else l1
  }

  // Steps

  function StepCreate(cfg: Config, id: OrderId, row: Option<Row>, led: Ledger, p: Phase, c: Choice): Effect
    requires IsCreate(p) && Fits(p, c)
  {
    match p
    case CreateRead(req) =>
      if c.DbError? then
        Effect(row, led, [], Finished(Threw(DatabaseError)))
      else if row.Some? && !IsOpen(row.value.status) then
        Effect(row, led, [], Finished(Booking(AwbText(row.value), row.value.status)))
      else
        Effect(row, led, [], CreatePending(req, row))
    case CreatePending(req, found) =>
      var next := if req.partner in cfg.registered then CreateDispatch(req) else Finished(Threw(UnknownCourier));
      if found.Some? then
        if !Wrote(c) || row.None? then Effect(row, led, [], Then(c, next))
        else
          var led' := if row.value.retryCount >= cfg.maxRetry then led.(exhausted := led.exhausted + 1) else led;
          Effect(Some(row.value.(status := PendingDispatch, payload := req)), led', [], Then(c, next))
      else if row.Some? then
        Effect(row, led, [], Finished(Threw(DuplicateKey)))
      else
        Effect(if Wrote(c) then Some(NewRow(req)) else row, led, [], Then(c, next))
    case CreateDispatch(req) =>
      if c.Booked? then
        Effect(row, NoteBooking(NoteHidden(led, c.hidden), req, c.awb), [], CreatePersist(req, c.awb))
      else
        Effect(row, NoteHidden(led, c.hidden), [], CreateAudit)
    case CreateAudit =>
      // recordFailureAudit swallows database errors; the courier's error is rethrown either way
      Effect(if Wrote(c) then WithStatus(row, Failed) else row, led, [], Finished(Threw(CourierError)))
    case CreatePersist(req, awb) =>
      var done := Finished(Booking(awb, Created));
      if !Wrote(c) || row.None? then
        Effect(row, led.(lost := led.lost + 1), [], Then(c, done))
      else if cfg.transactional then
        Effect(Some(BookedRow(row.value, awb)), led, [BookingEvent(id, req.partner, awb)], Then(c, done))
      else
        Effect(Some(BookedRow(row.value, awb)), led, [], Then(c, CreateEvent(req, awb)))
    case CreateEvent(req, awb) =>
      Effect(row, led, if Wrote(c) then [BookingEvent(id, req.partner, awb)] else [],
             Then(c, Finished(Booking(awb, Created))))
  }

  function StepWorker(cfg: Config, id: OrderId, row: Option<Row>, led: Ledger, p: Phase, c: Choice): Effect
    requires IsWorker(p) && Fits(p, c)
  {
    match p
    case WorkerUnsupported(next) =>
      var row' := if Wrote(c) && row.Some? then Some(row.value.(status := Failed, retryCount := next)) else row;
      Effect(row', led, [], if c.DbOk? then Finished(NotRecovered) else WorkerCatch(next))
    case WorkerDispatch(payload, partner, next) =>
      if c.Booked? then
        Effect(row, NoteBooking(NoteHidden(led, c.hidden), payload, c.awb), [], WorkerPersist(partner, c.awb, next))
      else
        Effect(row, NoteHidden(led, c.hidden), [], WorkerCatch(next))
    case WorkerPersist(partner, awb, next) =>
      var phase := if c.DbOk? then WorkerEvent(partner, awb, next) else WorkerCatch(next);
      if !Wrote(c) || row.None? then
        Effect(row, led.(lost := led.lost + 1), [], phase)
      else
        Effect(Some(BookedRow(row.value, awb).(retryCount := next)), led, [], phase)
    case WorkerEvent(partner, awb, next) =>
      Effect(row, led, if Wrote(c) then [RecoveryEvent(id, partner, awb)] else [],
             if c.DbOk? then Finished(Recovered) else WorkerCatch(next))
    case WorkerCatch(next) =>
      var phase := Then(c, Finished(NotRecovered));
      if !Wrote(c) || row.None? then Effect(row, led, [], phase)
      else
        var s := if next >= cfg.maxRetry then Failed else PendingDispatch;
        var led' := if IsOpen(row.value.status) then led else led.(reverted := led.reverted + 1);
        Effect(Some(row.value.(status := s, retryCount := next)), led', [], phase)
  }

  /** The await after `k` scans have been dealt with. */
  function NextScan(waybill: string, report: Report, k: nat): Phase {
    if k < |report.history| then TrackFind(waybill, report, k) else Finished(Tracked(report))
  }

  /** Where a report leads: to the status update if the status differs from the snapshot's. */
  function AfterReport(snapshot: Row, report: Report): Phase {
    if snapshot.status != report.status then TrackStatus(snapshot, report)
    else NextScan(AwbText(snapshot), report, 0)
  }

  function StepTrack(
    cfg: Config, id: OrderId, row: Option<Row>, log: seq<Event>, led: Ledger, p: Phase, c: Choice
  ): Effect
    requires IsTrack(p) && Fits(p, c)
  {
    match p
    case TrackFetch =>
      var phase :=
        if c.DbError? then Finished(Threw(DatabaseError))
        else if row.None? || row.value.awb.None? then Finished(Threw(NotFound))
        else if row.value.partner !in cfg.registered then Finished(Threw(UnknownCourier))
        else TrackCall(row.value);
      Effect(row, led, [], phase)
    case TrackCall(snapshot) =>
      var phase :=
        if c.TrackingFailed? then Finished(Threw(CourierError)) else AfterReport(snapshot, c.report);
      Effect(row, led, [], phase)
    case TrackStatus(snapshot, report) =>
      var phase := Then(c, NextScan(AwbText(snapshot), report, 0));
      if !Wrote(c) || row.None? then Effect(row, led, [], phase)
      else Effect(WithStatus(row, report.status), NoteTracked(led, row.value.status, report.status), [], phase)
    case TrackFind(waybill, report, k) =>
      var phase :=
        if c.DbError? then Finished(Threw(DatabaseError))
        else if Logged(log, id, report.history[k]) then NextScan(waybill, report, k + 1)
        else TrackAppend(waybill, report, k);
      Effect(row, led, [], phase)
    case TrackAppend(waybill, report, k) =>
      Effect(row, led, if Wrote(c) then [ScanEvent(id, waybill, report.history[k])] else [],
             Then(c, NextScan(waybill, report, k + 1)))
  }

  function StepCancel(cfg: Config, id: OrderId, row: Option<Row>, led: Ledger, p: Phase, c: Choice): Effect
    requires IsCancel(p) && Fits(p, c)
  {
    match p
    case CancelFetch(reason) =>
      var phase :=
        if c.DbError? then Finished(Threw(DatabaseError))
        else if row.None? then Finished(Threw(NotFound))
        else if row.value.status == Cancelled then Finished(AlreadyCancelled)
        else if row.value.status == Delivered then Finished(Threw(NotCancellable))
        else if row.value.partner !in cfg.registered then Finished(Threw(UnknownCourier))
        else CancelCall(AwbText(row.value), reason);
      Effect(row, led, [], phase)
    case CancelCall(waybill, reason) =>
      var taken := c.CancelAccepted? || c.cancelled;
      var led1 := if taken then led.(cancelled := led.cancelled + 1) else led;
      var led2 :=
        if row.Some? && row.value.status == Delivered then led1.(lateCancels := led1.lateCancels + 1)
        else led1;
      if c.CancelAccepted? then Effect(row, led2, [], CancelPersist(waybill, reason))
      else
        Effect(row, if taken then led2.(cancelsLost := led2.cancelsLost + 1) else led2, [],
               Finished(Threw(CourierError)))
    case CancelPersist(waybill, reason) =>
      var phase := Then(c, CancelEvent(waybill, reason));
      if !Wrote(c) || row.None? then
        Effect(row, led.(cancelsLost := led.cancelsLost + 1), [], phase)
      else
        var led' := if IsOpen(row.value.status) then led.(settled := led.settled + 1) else led;
        Effect(WithStatus(row, Cancelled), led', [], phase)
    case CancelEvent(waybill, reason) =>
      Effect(row, led, if Wrote(c) then [CancelEntry(id, waybill, reason)] else [], Then(c, Finished(CancelConfirmed)))
  }

  function Step(cfg: Config, id: OrderId, row: Option<Row>, log: seq<Event>, led: Ledger, p: Phase, c: Choice): Effect
    requires Fits(p, c)
  {
    if IsCreate(p) then StepCreate(cfg, id, row, led, p, c)
    else if IsWorker(p) then StepWorker(cfg, id, row, led, p, c)
    else if IsTrack(p) then StepTrack(cfg, id, row, log, led, p, c)
    else StepCancel(cfg, id, row, led, p, c)
  }

  /** The ledger after the process dies at await `p`: a booking or cancellation in hand is lost. */
  function AfterCrash(led: Ledger, p: Phase): Ledger {
    if p.CreatePersist? || p.WorkerPersist? then led.(lost := led.lost + 1)
    else if p.CancelPersist? then led.(cancelsLost := led.cancelsLost + 1)
    else led
  }

  // The database

  datatype Store = Store(table: map<OrderId, Row>, log: seq<Event>, ledger: map<OrderId, Ledger>)

  const EMPTY_STORE := Store(map[], [], map[])

  function RowOf(s: Store, id: OrderId): Option<Row> {
    if id in s.table then Some(s.table[id]) else None
  }

  function LedgerOf(s: Store, id: OrderId): Ledger {
    if id in s.ledger then s.ledger[id] else EMPTY_LEDGER
  }

  function Commit(s: Store, id: OrderId, e: Effect): Store {
    Store(if e.row.Some? then s.table[id := e.row.value] else s.table, s.log + e.emitted, s.ledger[id := e.ledger])
  }

  function StepAt(cfg: Config, s: Store, id: OrderId, p: Phase, c: Choice): Effect
    requires Fits(p, c)
  {
    Step(cfg, id, RowOf(s, id), s.log, LedgerOf(s, id), p, c)
  }

  datatype Op = Create(req: Request) | Reconcile | Track | Cancel(reason: string)

  /** `reconcilePendingOrders` selects only pending rows with retries left. */
  predicate Eligible(cfg: Config, row: Option<Row>) {
    row.Some? && row.value.status == PendingDispatch && row.value.retryCount < cfg.maxRetry
  }

  function WorkerStart(cfg: Config, row: Row): Phase {
    if row.partner in cfg.registered then WorkerDispatch(row.payload, row.partner, row.retryCount + 1)
    else WorkerUnsupported(row.retryCount + 1)
  }

  predicate CanBegin(cfg: Config, row: Option<Row>, id: OrderId, op: Op) {
    match op
    case Create(req) => req.orderId == id
    case Reconcile => Eligible(cfg, row)
    case _ => true
  }

  /** The first await of an operation. */
  function FirstPhase(cfg: Config, row: Option<Row>, id: OrderId, op: Op): Phase
    requires CanBegin(cfg, row, id, op)
  {
    match op
    case Create(req) => CreateRead(req)
    case Reconcile => WorkerStart(cfg, row.value)
    case Track => TrackFetch
    case Cancel(reason) => CancelFetch(reason)
  }

  /** `bulkCreate` with `ignoreDuplicates`: rows for the order ids that have none yet. */
  function BulkInsert(table: map<OrderId, Row>, reqs: seq<Request>): map<OrderId, Row>
    decreases |reqs|
  {
    if reqs == [] then table
    else
      var r := reqs[0];
      BulkInsert(if r.orderId in table then table else table[r.orderId := NewRow(r)], reqs[1..])
  }

  /** Existing rows are untouched; a new row is the pending row of some request for that id. */
  lemma {:induction false} BulkInsertOnlyAdds(table: map<OrderId, Row>, reqs: seq<Request>, id: OrderId)
    ensures id in table ==> id in BulkInsert(table, reqs) && BulkInsert(table, reqs)[id] == table[id]
    ensures id !in table && id in BulkInsert(table, reqs) ==>
              exists i :: 0 <= i < |reqs| && reqs[i].orderId == id && BulkInsert(table, reqs)[id] == NewRow(reqs[i])
    ensures (exists i :: 0 <= i < |reqs| && reqs[i].orderId == id) ==> id in BulkInsert(table, reqs)
    decreases |reqs|
  {
    if reqs != [] {
      var r := reqs[0];
      var table' := if r.orderId in table then table else table[r.orderId := NewRow(r)];
      BulkInsertOnlyAdds(table', reqs[1..], id);
      if id !in table && id in BulkInsert(table, reqs) && r.orderId != id {
        var i :| 0 <= i < |reqs[1..]| && reqs[1..][i].orderId == id
            && BulkInsert(table, reqs)[id] == NewRow(reqs[1..][i]);
        assert reqs[i + 1] == reqs[1..][i];
      }
      if i :| 0 <= i < |reqs| && reqs[i].orderId == id {
        if i > 0 {
          assert reqs[1..][i - 1] == reqs[i];
        }
      }
    }
  }
}
