/** What the design promises a client that submits an order: booking, idempotency, recovery. */
module Submissions {
  import opened Options
  import opened Orders
  import opened Lifecycle
  import opened Handlers
  import opened Outcomes

  /**
   * Resubmitting a settled order, whatever the request says and whatever happens on the way: nothing
   * changes, and an answer is either the row's waybill and status or a database error.
   */
  lemma ResubmissionIsIdempotent(cfg: Config, s: Store, req: Request, script: seq<Choice>)
    requires !NeedsBooking(RowOf(s, req.orderId))
    ensures var row := s.table[req.orderId];
            var e := Handle(cfg, s, req.orderId, CreateRead(req), script);
            && SameTables(s, e.store) && LedgerOf(e.store, req.orderId) == LedgerOf(s, req.orderId)
            && (e.outcome.Some? ==>
                  e.outcome.value == Booking(AwbText(row), row.status) || e.outcome.value == Threw(DatabaseError))
  {
    CreateOrderOutcomes(cfg, s, req, script);
  }

  /** Whenever createOrder answers with a booking, the row is settled and holds that waybill and status. */
  lemma BookingIsOnTheRow(cfg: Config, s: Store, req: Request, script: seq<Choice>)
    requires var o := Handle(cfg, s, req.orderId, CreateRead(req), script).outcome; o.Some? && o.value.Booking?
    ensures var e := Handle(cfg, s, req.orderId, CreateRead(req), script);
            var row := RowOf(e.store, req.orderId);
            && !NeedsBooking(row) && row.value.status == e.outcome.value.status
            && AwbText(row.value) == e.outcome.value.awb
  {
    hide Handle;
    CreateOrderOutcomes(cfg, s, req, script);
  }

  /**
   * Once a submission was answered with a booking, however that came about, submitting again books nothing,
   * writes nothing, and is answered with the same booking or a database error.
   */
  lemma SubmittedTwice(cfg: Config, s: Store, req: Request, script: seq<Choice>, again: Request, script2: seq<Choice>)
    requires again.orderId == req.orderId
    requires var o := Handle(cfg, s, req.orderId, CreateRead(req), script).outcome; o.Some? && o.value.Booking?
    ensures var first := Handle(cfg, s, req.orderId, CreateRead(req), script);
            var second := Handle(cfg, first.store, req.orderId, CreateRead(again), script2);
            && SameTables(first.store, second.store)
            && LedgerOf(second.store, req.orderId) == LedgerOf(first.store, req.orderId)
            && (second.outcome.Some? ==>
                  second.outcome == first.outcome || second.outcome.value == Threw(DatabaseError))
  {
    hide Handle;
    BookingIsOnTheRow(cfg, s, req, script);
    ResubmissionIsIdempotent(cfg, Handle(cfg, s, req.orderId, CreateRead(req), script).store, again, script2);
  }

  /**
   * What is left of a submission that died or threw. Retries are never reset, so the worker can select the
   * row exactly if it is pending and had retries left; it is FAILED only for a caller who saw the refusal.
   */
  lemma WhatRemains(cfg: Config, s: Store, req: Request, script: seq<Choice>)
    requires NeedsBooking(RowOf(s, req.orderId))
    requires var o := Handle(cfg, s, req.orderId, CreateRead(req), script).outcome; o.Some? ==> o.value.Threw?
    ensures var row := RowOf(s, req.orderId);
            var retries := if row.None? then 0 else row.value.retryCount;
            var e := Handle(cfg, s, req.orderId, CreateRead(req), script);
            var row' := RowOf(e.store, req.orderId);
            && (Eligible(cfg, row') <==>
                  row'.Some? && row'.value.status == PendingDispatch && retries < cfg.maxRetry)
            && (row' == row
                || (row'.Some? && row'.value.status == PendingDispatch)
                || (row'.Some? && row'.value.status == Failed && e.outcome == Some(Threw(CourierError)))
                || (row'.Some? && row'.value.status == Created && row'.value.awb.Some?))
  {
    hide Handle;
    CreateOrderOutcomes(cfg, s, req, script);
  }

  /**
   * A new order is never silently lost. Whatever the answers of its submission: it was not written at all,
   * it was booked, its caller saw the refusal, or the worker can select it. In the last case, however a pass
   * over it ends or dies, the row is booked, FAILED or selectable again; and if the pass reports recovery it
   * has booked it.
   */
  lemma CrashThenRecovery(cfg: Config, s: Store, req: Request, script: seq<Choice>, pass: seq<Choice>)
    requires req.orderId !in s.table && cfg.maxRetry >= 1
    ensures var id := req.orderId;
            var e := Handle(cfg, s, id, CreateRead(req), script);
            var row := RowOf(e.store, id);
            && (|| row.None?
                || (row.value.status == Created && row.value.awb.Some?)
                || (row.value.status == Failed && e.outcome == Some(Threw(CourierError)))
                || Eligible(cfg, row))
            && (Eligible(cfg, row) ==>
                  var done := Handle(cfg, e.store, id, WorkerStart(cfg, row.value), pass);
                  && id in done.store.table
                  && var row' := done.store.table[id];
                     && done.store.table == s.table[id := row'] && row'.payload == req
                     && (|| (row'.status == Created && row'.awb.Some?)
                         || row'.status == Failed
                         || Eligible(cfg, Some(row')))
                     && (done.outcome == Some(Recovered) ==>
                           && row' == NewRow(req).(awb := row'.awb, status := Created, retryCount := 1)
                           && LedgerOf(done.store, id).booked > LedgerOf(e.store, id).booked)
                     && (done.outcome == Some(NotRecovered) ==> row'.status != Created && row'.retryCount == 1))
  {
    hide Handle;
    var id := req.orderId;
    CreateOrderOutcomes(cfg, s, req, script);
    var e := Handle(cfg, s, id, CreateRead(req), script);
    if Eligible(cfg, RowOf(e.store, id)) {
      assert Rewrites(s, e.store, id, NewRow(req), []);
      WorkerPassOutcomes(cfg, e.store, id, pass);
    }
  }
}
