/**
 * The database as the service methods see it: tables that they update step by step, between
 * awaits whose answers come from outside.
 */
module Databases {
  import opened Options
  import opened Orders
  import opened Lifecycle
  import opened Handlers

  /** What an await waits for. */
  datatype Await = Statement | CourierBooking | CourierTracking | CourierCancel

  predicate Accepts(a: Await, c: Choice) {
    match a
    case Statement => c.DbOk? || c.DbError?
    case CourierBooking => c.Booked? || c.BookingFailed?
    case CourierTracking => c.TrackingFailed? || (c.Reported? && ValidReport(c.report))
    case CourierCancel => c.CancelAccepted? || c.CancelFailed?
  }

  /** The await that phase `p` stands at. */
  function AwaitOf(p: Phase): Await {
    match p
    case CreateDispatch(_) => CourierBooking
    case WorkerDispatch(_, _, _) => CourierBooking
    case TrackCall(_) => CourierTracking
    case CancelCall(_, _) => CourierCancel
    case _ => Statement
  }

  predicate Waiting(p: Phase) {
    && !p.Finished?
    && (p.TrackFind? ==> p.k < |p.report.history|)
    && (p.TrackAppend? ==> p.k < |p.report.history|)
  }

  datatype Try<T> = Value(value: T) | Thrown(error: Error)

  /**
   * The order table, the event log, and the answers the outside world will still give. When they run
   * out the process dies at the await it has reached. The ledger is ghost.
   */
  class Database {
    const cfg: Config
    var table: map<OrderId, Row>
    var log: seq<Event>
    var script: seq<Choice>
    ghost var ledger: map<OrderId, Ledger>

    ghost function Now(): Store
      reads this
    {
      Store(table, log, ledger)
    }

    constructor (cfg: Config, script: seq<Choice>)
      ensures this.cfg == cfg && this.script == script && Now() == EMPTY_STORE
    {
      this.cfg, this.script := cfg, script;
      table, log, ledger := map[], [], map[];
    }

    /** Waits for the next answer; None means that the process died here. */
    method Next(a: Await, ghost id: OrderId, ghost p: Phase) returns (c: Option<Choice>)
      requires Waiting(p) && AwaitOf(p) == a
      modifies this`script, this`ledger
      ensures c.Some? ==>
                && old(script) != [] && c.value == old(script)[0] && Fits(p, c.value)
                && script == old(script)[1..] && ledger == old(ledger)
      ensures c.None? ==> Ending(Now(), script, None) == Handle(cfg, old(Now()), id, p, old(script))
    {
      if script == [] || !Accepts(a, script[0]) {
        ledger := Died(Now(), id, p).ledger;
        script := [];
        return None;
      }
      c := Some(script[0]);
      script := script[1..];
    }

    /** The bookkeeping of one step. */
    ghost method Note(id: OrderId, e: Effect)
      modifies this`ledger
      ensures ledger == old(ledger)[id := e.ledger]
    {
      ledger := ledger[id := e.ledger];
    }

    function Find(id: OrderId): Option<Row>
      reads this`table
    {
      if id in table then Some(table[id]) else None
    }
  }
}
