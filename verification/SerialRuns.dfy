/**
 * Runs in which operations on one order do not overlap. Operations on different orders may
 * interleave freely, every statement may fail, and every operation may die at any await.
 */
module SerialRuns {
  import opened Options
  import opened Orders
  import opened Lifecycle

  /** `live` holds the operation in flight on each order, if any. */
  datatype World = World(store: Store, live: map<OrderId, Phase>)

  datatype Move =
    | Begin(id: OrderId, op: Op)
    | Advance(id: OrderId, c: Choice)
    | Crash(id: OrderId)
    | Insert(reqs: seq<Request>, c: Choice)

  const EMPTY_WORLD := World(EMPTY_STORE, map[])

  predicate Possible(cfg: Config, w: World, m: Move) {
    match m
    case Begin(id, op) => id !in w.live && CanBegin(cfg, RowOf(w.store, id), id, op)
    case Advance(id, c) => id in w.live && Fits(w.live[id], c)
    case Crash(id) => id in w.live
    case Insert(reqs, c) => (c.DbOk? || c.DbError?) && forall i :: 0 <= i < |reqs| ==> reqs[i].orderId !in w.live
  }

  function Settle(live: map<OrderId, Phase>, id: OrderId, p: Phase): map<OrderId, Phase> {
    if p.Finished? then live - {id} else live[id := p]
  }

  /** A move that is not possible changes nothing, so every sequence of moves is a run. */
  function Apply(cfg: Config, w: World, m: Move): World {
    if !Possible(cfg, w, m) then w
    else match m
      case Begin(id, op) => w.(live := w.live[id := FirstPhase(cfg, RowOf(w.store, id), id, op)])
      case Advance(id, c) =>
        var e := StepAt(cfg, w.store, id, w.live[id], c);
        World(Commit(w.store, id, e), Settle(w.live, id, e.phase))
      case Crash(id) =>
        World(w.store.(ledger := w.store.ledger[id := AfterCrash(LedgerOf(w.store, id), w.live[id])]), w.live - {id})
      case Insert(reqs, c) =>
        if Wrote(c) then w.(store := w.store.(table := BulkInsert(w.store.table, reqs))) else w
  }

  function Run(cfg: Config, w: World, moves: seq<Move>): World
    decreases |moves|
  {
    if moves == [] then w else Run(cfg, Apply(cfg, w, moves[0]), moves[1..])
  }

  // What the ledger must balance to

  function One(b: bool): nat {
    if b then 1 else 0
  }

  predicate NotCancelled(row: Option<Row>) {
    row.None? || row.value.status != Cancelled
  }

  predicate HoldsBooking(p: Option<Phase>) {
    p.Some? && (p.value.CreatePersist? || p.value.WorkerPersist?)
  }

  predicate HoldsCancel(p: Option<Phase>) {
    p.Some? && p.value.CancelPersist?
  }

  /** Every booking is accounted for by the state of the row or by a recorded cause. */
  predicate BookingsBalance(row: Option<Row>, led: Ledger, p: Option<Phase>) {
    led.booked + One(NeedsBooking(row)) + led.settled
      == 1 + led.lost + led.reverted + led.reopened + One(HoldsBooking(p))
  }

  /** Every accepted cancellation is accounted for likewise. */
  predicate CancelsBalance(row: Option<Row>, led: Ledger, p: Option<Phase>) {
    led.cancelled + One(NotCancelled(row)) + led.trackedOn
      == 1 + led.trackedOff + led.cancelsLost + One(HoldsCancel(p))
  }

  /** A pending row is one the worker will still select. */
  predicate NotStranded(cfg: Config, row: Option<Row>, led: Ledger) {
    cfg.maxRetry >= 1 && row.Some? && row.value.status == PendingDispatch ==>
      row.value.retryCount < cfg.maxRetry || led.exhausted > 0
  }

  /** What the operation in flight knows about its row: without overlap, snapshots are current. */
  predicate Fresh(cfg: Config, row: Option<Row>, p: Phase) {
    match p
    case CreatePending(_, found) => found == row && NeedsBooking(row)
    case CreateDispatch(_) => row.Some? && row.value.status == PendingDispatch
    case CreateAudit => row.Some? && row.value.status == PendingDispatch
    case CreatePersist(_, _) => row.Some? && row.value.status == PendingDispatch
    case WorkerUnsupported(next) => row.Some? && row.value.status == PendingDispatch && next == row.value.retryCount + 1
    case WorkerDispatch(_, _, next) =>
      row.Some? && row.value.status == PendingDispatch && next == row.value.retryCount + 1
    case WorkerPersist(_, _, next) =>
      row.Some? && row.value.status == PendingDispatch && next == row.value.retryCount + 1
    case WorkerEvent(_, _, next) => row.Some? && row.value.status == Created
    case WorkerCatch(next) => row.Some? && row.value.status in {PendingDispatch, Created, Failed}
    case TrackCall(snapshot) => row == Some(snapshot)
    case TrackStatus(snapshot, report) => row == Some(snapshot) && report.status != PendingDispatch
    case CancelCall(_, _) => row.Some? && row.value.status != Cancelled && row.value.status != Delivered
    case CancelPersist(_, _) => row.Some? && row.value.status != Cancelled && row.value.status != Delivered
    case _ => true
  }

  /** The invariant of one order. */
  predicate Lawful(cfg: Config, row: Option<Row>, led: Ledger, p: Option<Phase>) {
    && BookingsBalance(row, led, p)
    && CancelsBalance(row, led, p)
    && NotStranded(cfg, row, led)
    && led.lateCancels == 0
    && (p.Some? ==> Fresh(cfg, row, p.value))
  }

  function PhaseOf(w: World, id: OrderId): Option<Phase> {
    if id in w.live then Some(w.live[id]) else None
  }

  ghost predicate AllLawful(cfg: Config, w: World) {
    forall id :: Lawful(cfg, RowOf(w.store, id), LedgerOf(w.store, id), PhaseOf(w, id))
  }

  // One step keeps the invariant of its order

  function Next(p: Phase): Option<Phase> {
    if p.Finished? then None else Some(p)
  }

  lemma CreateStepLawful(cfg: Config, id: OrderId, row: Option<Row>, led: Ledger, p: Phase, c: Choice)
    requires IsCreate(p) && Fits(p, c) && Lawful(cfg, row, led, Some(p))
    ensures var e := StepCreate(cfg, id, row, led, p, c); Lawful(cfg, e.row, e.ledger, Next(e.phase))
  {
    hide AwbText, BookingEvent;
    match p {
      case CreatePending(req, found) =>
      case CreatePersist(_, _) =>
      case _ =>
    }
  }

  lemma WorkerStepLawful(cfg: Config, id: OrderId, row: Option<Row>, led: Ledger, p: Phase, c: Choice)
    requires IsWorker(p) && Fits(p, c) && Lawful(cfg, row, led, Some(p))
    ensures var e := StepWorker(cfg, id, row, led, p, c); Lawful(cfg, e.row, e.ledger, Next(e.phase))
  {
    hide RecoveryEvent;
    match p {
      case WorkerPersist(_, _, _) =>
      case WorkerCatch(_) =>
      case _ =>
    }
  }

  lemma TrackStatusLawful(cfg: Config, id: OrderId, row: Option<Row>, log: seq<Event>, led: Ledger, p: Phase, c: Choice)
    requires p.TrackStatus? && Fits(p, c) && Lawful(cfg, row, led, Some(p))
    ensures var e := StepTrack(cfg, id, row, log, led, p, c); Lawful(cfg, e.row, e.ledger, Next(e.phase))
  {
    hide AwbText;
  }

  lemma TrackStepLawful(cfg: Config, id: OrderId, row: Option<Row>, log: seq<Event>, led: Ledger, p: Phase, c: Choice)
    requires IsTrack(p) && Fits(p, c) && Lawful(cfg, row, led, Some(p))
    ensures var e := StepTrack(cfg, id, row, log, led, p, c); Lawful(cfg, e.row, e.ledger, Next(e.phase))
  {
    hide Logged, AwbText, ScanEvent;
    if p.TrackStatus? {
      TrackStatusLawful(cfg, id, row, log, led, p, c);
    } else {
      hide NoteTracked;
      assert StepTrack(cfg, id, row, log, led, p, c).row == row;
    }
  }

  lemma CancelStepLawful(cfg: Config, id: OrderId, row: Option<Row>, led: Ledger, p: Phase, c: Choice)
    requires IsCancel(p) && Fits(p, c) && Lawful(cfg, row, led, Some(p))
    ensures var e := StepCancel(cfg, id, row, led, p, c); Lawful(cfg, e.row, e.ledger, Next(e.phase))
  {
  }

  lemma StepLawful(cfg: Config, id: OrderId, row: Option<Row>, log: seq<Event>, led: Ledger, p: Phase, c: Choice)
    requires Fits(p, c) && Lawful(cfg, row, led, Some(p))
    ensures var e := Step(cfg, id, row, log, led, p, c); Lawful(cfg, e.row, e.ledger, Next(e.phase))
  {
    if IsCreate(p) { CreateStepLawful(cfg, id, row, led, p, c); }
    else if IsWorker(p) { WorkerStepLawful(cfg, id, row, led, p, c); }
    else if IsTrack(p) { TrackStepLawful(cfg, id, row, log, led, p, c); }
    else { CancelStepLawful(cfg, id, row, led, p, c); }
  }

  lemma StepKeepsRow(cfg: Config, id: OrderId, row: Option<Row>, log: seq<Event>, led: Ledger, p: Phase, c: Choice)
    requires Fits(p, c) && row.Some?
    ensures Step(cfg, id, row, log, led, p, c).row.Some?
  {
  }

  // One move keeps the invariant of every order

  /** A step is seen by its own order exactly as `Step` says, and by no other order. */
  lemma AdvanceIsLocal(cfg: Config, w: World, k: OrderId, c: Choice, id: OrderId)
    requires Possible(cfg, w, Advance(k, c))
    ensures var w' := Apply(cfg, w, Advance(k, c));
            var e := StepAt(cfg, w.store, k, w.live[k], c);
            if id == k
            then RowOf(w'.store, id) == e.row && LedgerOf(w'.store, id) == e.ledger && PhaseOf(w', id) == Next(e.phase)
            else RowOf(w'.store, id) == RowOf(w.store, id) && LedgerOf(w'.store, id) == LedgerOf(w.store, id)
                 && PhaseOf(w', id) == PhaseOf(w, id)
  {
    if RowOf(w.store, k).Some? {
      StepKeepsRow(cfg, k, RowOf(w.store, k), w.store.log, LedgerOf(w.store, k), w.live[k], c);
    }
  }

  lemma OrderStaysLawful(cfg: Config, w: World, m: Move, id: OrderId)
    requires Lawful(cfg, RowOf(w.store, id), LedgerOf(w.store, id), PhaseOf(w, id))
    ensures var w' := Apply(cfg, w, m); Lawful(cfg, RowOf(w'.store, id), LedgerOf(w'.store, id), PhaseOf(w', id))
  {
    hide Step;
    if Possible(cfg, w, m) {
      match m {
        case Begin(_, _) =>
        case Advance(k, c) =>
          AdvanceIsLocal(cfg, w, k, c, id);
          if k == id {
            StepLawful(cfg, id, RowOf(w.store, id), w.store.log, LedgerOf(w.store, id), w.live[id], c);
          }
        case Crash(_) =>
        case Insert(reqs, _) =>
          BulkInsertOnlyAdds(w.store.table, reqs, id);
      }
    }
  }

  lemma ApplyLawful(cfg: Config, w: World, m: Move)
    requires AllLawful(cfg, w)
    ensures AllLawful(cfg, Apply(cfg, w, m))
  {
    var w' := Apply(cfg, w, m);
    forall id
      ensures Lawful(cfg, RowOf(w'.store, id), LedgerOf(w'.store, id), PhaseOf(w', id))
    {
      OrderStaysLawful(cfg, w, m, id);
    }
  }

  lemma {:induction false} RunLawful(cfg: Config, w: World, moves: seq<Move>)
    requires AllLawful(cfg, w)
    ensures AllLawful(cfg, Run(cfg, w, moves))
    decreases |moves|
  {
    if moves != [] {
      ApplyLawful(cfg, w, moves[0]);
      RunLawful(cfg, Apply(cfg, w, moves[0]), moves[1..]);
    }
  }

  /** Rows are never removed and a waybill, once on the row, never disappears. */
  predicate Keeps(before: Option<Row>, after: Option<Row>) {
    before.Some? ==> after.Some? && (before.value.awb.Some? ==> after.value.awb.Some?)
  }

  lemma {:induction false} RunKeepsRows(cfg: Config, w: World, moves: seq<Move>, id: OrderId)
    ensures Keeps(RowOf(w.store, id), RowOf(Run(cfg, w, moves).store, id))
    decreases |moves|
  {
    if moves != [] {
      var w' := Apply(cfg, w, moves[0]);
      match moves[0] {
        case Insert(reqs, _) => BulkInsertOnlyAdds(w.store.table, reqs, id);
        case _ =>
      }
      assert Keeps(RowOf(w.store, id), RowOf(w'.store, id));
      RunKeepsRows(cfg, w', moves[1..], id);
    }
  }

  // Main results, for every run from an empty database

  lemma RunFromEmpty(cfg: Config, moves: seq<Move>, id: OrderId)
    ensures var w := Run(cfg, EMPTY_WORLD, moves);
            Lawful(cfg, RowOf(w.store, id), LedgerOf(w.store, id), PhaseOf(w, id))
  {
    RunLawful(cfg, EMPTY_WORLD, moves);
  }

  /** Conservation of bookings, exact at every instant of every run. */
  lemma BookingConservation(cfg: Config, moves: seq<Move>, id: OrderId)
    ensures var w := Run(cfg, EMPTY_WORLD, moves);
            var led := LedgerOf(w.store, id);
            && led.booked + One(NeedsBooking(RowOf(w.store, id))) + led.settled
                 == 1 + led.lost + led.reverted + led.reopened + One(HoldsBooking(PhaseOf(w, id)))
            && (led.lost + led.reverted + led.reopened == 0 ==> led.booked <= 1)
  {
    RunFromEmpty(cfg, moves, id);
  }

  /** Conservation of cancellations, and none is ever sent for a delivered order. */
  lemma CancelConservation(cfg: Config, moves: seq<Move>, id: OrderId)
    ensures var w := Run(cfg, EMPTY_WORLD, moves);
            var led := LedgerOf(w.store, id);
            && led.cancelled + One(NotCancelled(RowOf(w.store, id))) + led.trackedOn
                 == 1 + led.trackedOff + led.cancelsLost + One(HoldsCancel(PhaseOf(w, id)))
            && led.lateCancels == 0
            && (PhaseOf(w, id).Some? && PhaseOf(w, id).value.CancelCall? ==>
                  RowOf(w.store, id).Some? && RowOf(w.store, id).value.status !in {Cancelled, Delivered})
  {
    RunFromEmpty(cfg, moves, id);
  }

  /** A pending order is never forgotten, unless it was resubmitted with its retries already spent. */
  lemma NoStrandedOrder(cfg: Config, moves: seq<Move>, id: OrderId)
    requires cfg.maxRetry >= 1
    ensures var w := Run(cfg, EMPTY_WORLD, moves);
            var row := RowOf(w.store, id);
            row.Some? && row.value.status == PendingDispatch ==>
              Eligible(cfg, row) || LedgerOf(w.store, id).exhausted > 0
  {
    RunFromEmpty(cfg, moves, id);
  }

  // When nothing goes wrong

  /** No crash, no failed statement, no booking hidden behind an error, no reported failure. */
  predicate Clean(m: Move) {
    match m
    case Begin(_, _) => true
    case Advance(_, c) =>
      && !c.DbError?
      && (c.Booked? || c.BookingFailed? ==> c.hidden == 0)
      && (c.Reported? ==> c.report.status != Failed)
    case Crash(_) => false
    case Insert(_, c) => !c.DbError?
  }

  predicate Unharmed(led: Ledger, p: Option<Phase>) {
    && led.lost == 0 && led.reverted == 0 && led.reopened == 0
    && (p.Some? && p.value.TrackStatus? ==> p.value.report.status != Failed)
  }

  /** A clean step stays unharmed: the worker's catch block is then reached with an open row only. */
  lemma CleanStep(cfg: Config, id: OrderId, row: Option<Row>, log: seq<Event>, led: Ledger, p: Phase, c: Choice)
    requires Fits(p, c) && Clean(Advance(id, c)) && Lawful(cfg, row, led, Some(p)) && Unharmed(led, Some(p))
    requires p.WorkerCatch? ==> NeedsBooking(row)
    ensures var e := Step(cfg, id, row, log, led, p, c);
            Unharmed(e.ledger, Next(e.phase)) && (e.phase.WorkerCatch? ==> NeedsBooking(e.row))
  {
  }

  ghost predicate AllUnharmed(w: World) {
    forall id :: OrderUnharmed(w, id)
  }

  predicate OrderUnharmed(w: World, id: OrderId) {
    && Unharmed(LedgerOf(w.store, id), PhaseOf(w, id))
    && (id in w.live && w.live[id].WorkerCatch? ==> NeedsBooking(RowOf(w.store, id)))
  }

  lemma OrderStaysUnharmed(cfg: Config, w: World, m: Move, id: OrderId)
    requires Lawful(cfg, RowOf(w.store, id), LedgerOf(w.store, id), PhaseOf(w, id))
    requires OrderUnharmed(w, id) && Clean(m)
    ensures OrderUnharmed(Apply(cfg, w, m), id)
  {
    if Possible(cfg, w, m) {
      match m {
        case Begin(_, _) =>
        case Advance(k, c) =>
          AdvanceIsLocal(cfg, w, k, c, id);
          if k == id {
            CleanStep(cfg, id, RowOf(w.store, id), w.store.log, LedgerOf(w.store, id), w.live[id], c);
          }
        case Insert(reqs, _) =>
          BulkInsertOnlyAdds(w.store.table, reqs, id);
      }
    }
  }

  lemma ApplyUnharmed(cfg: Config, w: World, m: Move)
    requires AllLawful(cfg, w) && AllUnharmed(w) && Clean(m)
    ensures AllUnharmed(Apply(cfg, w, m))
  {
    forall id
      ensures OrderUnharmed(Apply(cfg, w, m), id)
    {
      assert Lawful(cfg, RowOf(w.store, id), LedgerOf(w.store, id), PhaseOf(w, id));
      OrderStaysUnharmed(cfg, w, m, id);
    }
  }

  lemma {:induction false} CleanRun(cfg: Config, w: World, moves: seq<Move>)
    requires AllLawful(cfg, w) && AllUnharmed(w)
    requires forall i :: 0 <= i < |moves| ==> Clean(moves[i])
    ensures AllUnharmed(Run(cfg, w, moves))
    decreases |moves|
  {
    if moves != [] {
      ApplyLawful(cfg, w, moves[0]);
      ApplyUnharmed(cfg, w, moves[0]);
      CleanRun(cfg, Apply(cfg, w, moves[0]), moves[1..]);
    }
  }

  /** Any number of operations, in any order, books at most once when nothing goes wrong. */
  lemma BooksAtMostOnce(cfg: Config, moves: seq<Move>, id: OrderId)
    requires forall i :: 0 <= i < |moves| ==> Clean(moves[i])
    ensures LedgerOf(Run(cfg, EMPTY_WORLD, moves).store, id).booked <= 1
  {
    CleanRun(cfg, EMPTY_WORLD, moves);
    BookingConservation(cfg, moves, id);
    assert OrderUnharmed(Run(cfg, EMPTY_WORLD, moves), id);
  }

  // Reachable worlds

  ghost predicate Reached(cfg: Config, w: World) {
    exists moves: seq<Move> :: Run(cfg, EMPTY_WORLD, moves) == w
  }

  lemma {:induction false} RunSnoc(cfg: Config, w: World, moves: seq<Move>, m: Move)
    ensures Run(cfg, w, moves + [m]) == Apply(cfg, Run(cfg, w, moves), m)
    decreases |moves|
  {
    hide Apply;
    if moves == [] {
      assert moves + [m] == [m] && [m][1..] == [];
    } else {
      assert (moves + [m])[1..] == moves[1..] + [m];
      RunSnoc(cfg, Apply(cfg, w, moves[0]), moves[1..], m);
    }
  }

  lemma ReachedStep(cfg: Config, w: World, m: Move)
    requires Reached(cfg, w)
    ensures Reached(cfg, Apply(cfg, w, m))
  {
    hide Apply, Run;
    var moves :| Run(cfg, EMPTY_WORLD, moves) == w;
    RunSnoc(cfg, EMPTY_WORLD, moves, m);
  }
}
