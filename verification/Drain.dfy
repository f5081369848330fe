/** The reconciliation cycle over a selection of rows, and how fast repeated cycles empty the backlog. */
module Drain {
  import opened Options
  import opened Orders
  import opened Lifecycle
  import opened Handlers
  import Outcomes

  const BATCH_LIMIT := 25

  // One cycle

  datatype CycleStatus = Completed(recovered: nat) | Aborted(error: Error) | Died

  datatype CycleEnd = CycleEnd(store: Store, rest: seq<Choice>, status: CycleStatus)

  /**
   * The loop of `reconcilePendingOrders` over rows selected in the table `seen`. A database error in
   * the catch block of one order aborts the rest of the cycle.
   */
  function Cycle(
    cfg: Config, seen: map<OrderId, Row>, s: Store, ids: seq<OrderId>, script: seq<Choice>, recovered: nat
  ): CycleEnd
    requires forall i :: 0 <= i < |ids| ==> ids[i] in seen
    decreases |ids|
  {
    if ids == [] then CycleEnd(s, script, Completed(recovered))
    else
      var h := Handle(cfg, s, ids[0], WorkerStart(cfg, seen[ids[0]]), script);
      match h.outcome
      case None => CycleEnd(h.store, h.rest, Died)
      case Some(Threw(error)) => CycleEnd(h.store, h.rest, Aborted(error))
      case Some(Recovered) => Cycle(cfg, seen, h.store, ids[1..], h.rest, recovered + 1)
      case Some(_) => Cycle(cfg, seen, h.store, ids[1..], h.rest, recovered)
  }

  /** One order of the loop, after its pass ended in `h`. */
  lemma CycleUnfold(
    cfg: Config, seen: map<OrderId, Row>, s: Store, ids: seq<OrderId>, script: seq<Choice>, recovered: nat, h: Ending
  )
    requires forall i :: 0 <= i < |ids| ==> ids[i] in seen
    requires ids != [] && h == Handle(cfg, s, ids[0], WorkerStart(cfg, seen[ids[0]]), script)
    ensures Cycle(cfg, seen, s, ids, script, recovered)
              == if h.outcome.None? then CycleEnd(h.store, h.rest, Died)
                 else if h.outcome.value.Threw? then CycleEnd(h.store, h.rest, Aborted(h.outcome.value.error))
                 else Cycle(cfg, seen, h.store, ids[1..], h.rest,
                            if h.outcome.value == Recovered then recovered + 1 else recovered)
  {
    hide Handle, WorkerStart;
  }

  /** Whatever happens during a cycle, database errors and crashes included, the books still balance. */
  lemma {:induction false} CycleKeepsBooks(
    cfg: Config, seen: map<OrderId, Row>, s: Store, ids: seq<OrderId>, script: seq<Choice>, recovered: nat
  )
    requires Settled(cfg, s)
    requires forall i :: 0 <= i < |ids| ==>
               ids[i] in seen && RowOf(s, ids[i]) == Some(seen[ids[i]]) && Eligible(cfg, RowOf(s, ids[i]))
    requires forall i, j :: 0 <= i < j < |ids| ==> ids[i] != ids[j]
    ensures Settled(cfg, Cycle(cfg, seen, s, ids, script, recovered).store)
    decreases |ids|
  {
    if ids != [] {
      hide Handle, Settled, WorkerStart, Eligible, Cycle;
      var id := ids[0];
      OperationKeepsBooks(cfg, s, id, Reconcile, script);
      var h := Handle(cfg, s, id, WorkerStart(cfg, seen[id]), script);
      CycleUnfold(cfg, seen, s, ids, script, recovered, h);
      if h.outcome.Some? && !h.outcome.value.Threw? {
        var rest := ids[1..];
        forall i | 0 <= i < |rest|
          ensures RowOf(h.store, rest[i]) == RowOf(s, rest[i])
        {
          assert rest[i] == ids[i + 1];
          HandleIsLocal(cfg, s, id, WorkerStart(cfg, seen[id]), script, rest[i]);
        }
        var more := if h.outcome.value == Recovered then recovered + 1 else recovered;
        CycleKeepsBooks(cfg, seen, h.store, rest, h.rest, more);
      }
    }
  }

  // How a cycle ends

  function CountCreated(t: map<OrderId, Row>, ids: seq<OrderId>): nat {
    if ids == [] then 0
    else (if ids[0] in t && t[ids[0]].status == Created then 1 else 0) + CountCreated(t, ids[1..])
  }

  /** A row the cycle has been through: one retry more, and booked, FAILED or selectable again. */
  predicate Handled(cfg: Config, before: Option<Row>, after: Option<Row>) {
    && before.Some? && after.Some? && after.value.retryCount == before.value.retryCount + 1
    && (|| (after.value.status == Created && after.value.awb.Some?)
        || after.value.status == Failed
        || Eligible(cfg, after))
  }

  /** The first `done` orders were handled, the next one (if any) is where the cycle broke off, and the rest
      are untouched. */
  ghost predicate CycleWent(cfg: Config, s: Store, ids: seq<OrderId>, recovered: nat, done: nat, c: CycleEnd) {
    && done <= |ids|
    && (forall i :: 0 <= i < done ==> Handled(cfg, RowOf(s, ids[i]), RowOf(c.store, ids[i])))
    && (forall i :: done < i < |ids| ==> RowOf(c.store, ids[i]) == RowOf(s, ids[i]))
    && (forall k :: k !in ids ==> RowOf(c.store, k) == RowOf(s, k))
    && match c.status
       case Completed(n) => done == |ids| && n == recovered + CountCreated(c.store.table, ids)
       case Aborted(error) => done < |ids| && error == DatabaseError
       case Died => done < |ids|
  }

  lemma PassOfCycle(cfg: Config, s: Store, id: OrderId, row: Row, script: seq<Choice>)
    requires RowOf(s, id) == Some(row) && Eligible(cfg, Some(row))
    ensures var h := Handle(cfg, s, id, WorkerStart(cfg, row), script);
            && (h.outcome.Some? && !h.outcome.value.Threw? ==>
                  && Handled(cfg, Some(row), RowOf(h.store, id))
                  && (h.outcome.value == Recovered <==> RowOf(h.store, id).value.status == Created))
            && (h.outcome.Some? && h.outcome.value.Threw? ==> h.outcome.value.error == DatabaseError)
  {
    hide Handle, RecoveryEvent;
    Outcomes.WorkerPassOutcomes(cfg, s, id, script);
  }

  /** A cycle over the rest, after the first order was handled in store `s1`, is a cycle over all. */
  lemma OneMoreOrder(
    cfg: Config, s: Store, s1: Store, ids: seq<OrderId>, recovered: nat, more: nat, done: nat, c: CycleEnd
  )
    requires ids != [] && forall i, j :: 0 <= i < j < |ids| ==> ids[i] != ids[j]
    requires CycleWent(cfg, s1, ids[1..], more, done, c)
    requires forall k :: k != ids[0] ==> RowOf(s1, k) == RowOf(s, k)
    requires Handled(cfg, RowOf(s, ids[0]), RowOf(s1, ids[0]))
    requires more == recovered + if RowOf(s1, ids[0]).value.status == Created then 1 else 0
    ensures CycleWent(cfg, s, ids, recovered, done + 1, c)
  {
    hide Eligible, RowOf, Handled;
    var rest := ids[1..];
    assert forall i :: 0 <= i < |rest| ==> rest[i] == ids[i + 1];
    assert ids[0] !in rest;
    assert RowOf(c.store, ids[0]) == RowOf(s1, ids[0]);
    HandledIsThere(cfg, RowOf(s, ids[0]), RowOf(s1, ids[0]));
    CountFirst(c.store, ids);
    forall i | 0 <= i < done + 1
      ensures Handled(cfg, RowOf(s, ids[i]), RowOf(c.store, ids[i]))
    {
      if i > 0 {
        assert ids[i] == rest[i - 1];
      }
    }
    forall i | done + 1 < i < |ids|
      ensures RowOf(c.store, ids[i]) == RowOf(s, ids[i])
    {
      assert ids[i] == rest[i - 1];
    }
  }

  lemma HandledIsThere(cfg: Config, before: Option<Row>, after: Option<Row>)
    requires Handled(cfg, before, after)
    ensures after.Some?
  {
  }

  /** Under every script: what a cycle has done to each selected order when it completes, aborts or dies. */
  lemma {:induction false} CycleOutcome(
    cfg: Config, seen: map<OrderId, Row>, s: Store, ids: seq<OrderId>, script: seq<Choice>, recovered: nat
  ) returns (done: nat)
    requires forall i :: 0 <= i < |ids| ==>
               ids[i] in seen && RowOf(s, ids[i]) == Some(seen[ids[i]]) && Eligible(cfg, RowOf(s, ids[i]))
    requires forall i, j :: 0 <= i < j < |ids| ==> ids[i] != ids[j]
    ensures CycleWent(cfg, s, ids, recovered, done, Cycle(cfg, seen, s, ids, script, recovered))
    decreases |ids|
  {
    if ids == [] {
      return 0;
    }
    hide Handle, WorkerStart, Eligible, Cycle, RowOf, Handled;
    var id, rest := ids[0], ids[1..];
    var h := Handle(cfg, s, id, WorkerStart(cfg, seen[id]), script);
    CycleUnfold(cfg, seen, s, ids, script, recovered, h);
    PassOfCycle(cfg, s, id, seen[id], script);
    forall k | k != id
      ensures RowOf(h.store, k) == RowOf(s, k)
    {
      HandleIsLocal(cfg, s, id, WorkerStart(cfg, seen[id]), script, k);
    }
    if h.outcome.None? || h.outcome.value.Threw? {
      return 0;
    }
    assert forall i :: 0 <= i < |rest| ==> rest[i] == ids[i + 1];
    var more := if h.outcome.value == Recovered then recovered + 1 else recovered;
    done := CycleOutcome(cfg, seen, h.store, rest, h.rest, more);
    hide CycleWent;
    OneMoreOrder(cfg, s, h.store, ids, recovered, more, done, Cycle(cfg, seen, s, ids, script, recovered));
    done := done + 1;
  }

  lemma CountFirst(s: Store, ids: seq<OrderId>)
    requires ids != []
    ensures var row := RowOf(s, ids[0]);
            CountCreated(s.table, ids)
              == (if row.Some? && row.value.status == Created then 1 else 0) + CountCreated(s.table, ids[1..])
  {
  }

  // One order in a cycle without database errors

  ghost predicate NoDbErrors(script: seq<Choice>) {
    forall i :: 0 <= i < |script| ==> !script[i].DbError?
  }

  /** A row after a worker pass: one retry used, and booked, failed, or pending with retries left. */
  predicate Passed(cfg: Config, row: Row, row': Row, o: Outcome) {
    && row'.retryCount == row.retryCount + 1
    && (o == Recovered <==> row'.status == Created)
    && (o == Recovered || o == NotRecovered)
    && (row'.status == Created || row'.status == Failed
        || (row'.status == PendingDispatch && row'.retryCount < cfg.maxRetry))
  }

  lemma {:induction false} ErrorFreePassReturns(cfg: Config, s: Store, id: OrderId, p: Phase, script: seq<Choice>)
    requires IsWorker(p) || p == Finished(Recovered) || p == Finished(NotRecovered)
    requires NoDbErrors(script)
    ensures var h := Handle(cfg, s, id, p, script);
            NoDbErrors(h.rest) && (h.outcome.Some? ==> !h.outcome.value.Threw?)
    decreases |script|
  {
    hide Commit, RecoveryEvent, BookedRow, NoteHidden, NoteBooking;
    if !p.Finished? && script != [] && Fits(p, script[0]) {
      var e := StepAt(cfg, s, id, p, script[0]);
      assert IsWorker(e.phase) || e.phase == Finished(Recovered) || e.phase == Finished(NotRecovered);
      hide Step;
      ErrorFreePassReturns(cfg, Commit(s, id, e), id, e.phase, script[1..]);
    }
  }

  /** What one order's pass does when it runs to its end. */
  lemma WorkerPass(cfg: Config, s: Store, id: OrderId, script: seq<Choice>)
    requires id in s.table && Eligible(cfg, Some(s.table[id])) && NoDbErrors(script)
    requires Handle(cfg, s, id, WorkerStart(cfg, s.table[id]), script).outcome.Some?
    ensures var h := Handle(cfg, s, id, WorkerStart(cfg, s.table[id]), script);
            && NoDbErrors(h.rest)
            && id in h.store.table
            && h.store.table == s.table[id := h.store.table[id]]
            && Passed(cfg, s.table[id], h.store.table[id], h.outcome.value)
  {
    hide Handle, RecoveryEvent;
    ErrorFreePassReturns(cfg, s, id, WorkerStart(cfg, s.table[id]), script);
    Outcomes.WorkerPassOutcomes(cfg, s, id, script);
  }

  // The measure

  type Table = map<OrderId, Row>

  predicate EligibleIn(cfg: Config, t: Table, id: OrderId) {
    id in t && Eligible(cfg, Some(t[id]))
  }

  /** Retries left to an eligible row. */
  function Weight(cfg: Config, t: Table, id: OrderId): nat {
    if EligibleIn(cfg, t, id) then cfg.maxRetry - t[id].retryCount else 0
  }

  ghost function Sum(cfg: Config, t: Table, ids: set<OrderId>): nat {
    if ids == {} then 0
    else
      var id :| id in ids;
      Weight(cfg, t, id) + Sum(cfg, t, ids - {id})
  }

  /** The retries left to all eligible rows together. */
  ghost function Measure(cfg: Config, t: Table): nat {
    Sum(cfg, t, t.Keys)
  }

  function EligibleSet(cfg: Config, t: Table): set<OrderId> {
    set id | id in t && EligibleIn(cfg, t, id)
  }

  lemma {:induction false} SumSplit(cfg: Config, t: Table, ids: set<OrderId>, k: OrderId)
    requires k in ids
    ensures Sum(cfg, t, ids) == Weight(cfg, t, k) + Sum(cfg, t, ids - {k})
    decreases ids
  {
    hide Weight;
    var id :| id in ids && Sum(cfg, t, ids) == Weight(cfg, t, id) + Sum(cfg, t, ids - {id});
    if id != k {
      SumSplit(cfg, t, ids - {id}, k);
      SumSplit(cfg, t, ids - {k}, id);
      assert ids - {id} - {k} == ids - {k} - {id};
    }
  }

  lemma {:induction false} SumSame(cfg: Config, t: Table, t': Table, ids: set<OrderId>)
    requires forall id :: id in ids ==> Weight(cfg, t, id) == Weight(cfg, t', id)
    ensures Sum(cfg, t, ids) == Sum(cfg, t', ids)
    decreases ids
  {
    hide Weight;
    if ids != {} {
      var id :| id in ids;
      SumSplit(cfg, t, ids, id);
      SumSplit(cfg, t', ids, id);
      SumSame(cfg, t, t', ids - {id});
    }
  }

  /** Rewriting one eligible row by a worker pass costs the measure at least one. */
  lemma PassLowersMeasure(cfg: Config, t: Table, id: OrderId, row': Row, o: Outcome)
    requires EligibleIn(cfg, t, id) && Passed(cfg, t[id], row', o)
    ensures Measure(cfg, t[id := row']) + 1 <= Measure(cfg, t)
    ensures Weight(cfg, t[id := row'], id) + 1 <= Weight(cfg, t, id)
  {
    var t' := t[id := row'];
    assert t'.Keys == t.Keys;
    SumSplit(cfg, t, t.Keys, id);
    SumSplit(cfg, t', t.Keys, id);
    SumSame(cfg, t, t', t.Keys - {id});
  }

  // One cycle on the measure

  /** What the query may return: distinct eligible rows, 25 at most. Which of them are stale is left open. */
  predicate IsQuery(cfg: Config, t: Table, ids: seq<OrderId>) {
    && (forall i :: 0 <= i < |ids| ==> EligibleIn(cfg, t, ids[i]))
    && (forall i, j :: 0 <= i < j < |ids| ==> ids[i] != ids[j])
    && |ids| <= 25
  }

  /** What it returns when every eligible row is stale: 25 rows, or all of them if fewer. */
  ghost predicate IsSelection(cfg: Config, t: Table, ids: seq<OrderId>) {
    && IsQuery(cfg, t, ids)
    && |ids| == if |EligibleSet(cfg, t)| < BATCH_LIMIT then |EligibleSet(cfg, t)| else BATCH_LIMIT
  }

  /** Every weight went down or stayed, and the selected ones went down. */
  ghost predicate Lowered(cfg: Config, t: Table, t': Table, ids: seq<OrderId>) {
    && (forall id :: Weight(cfg, t', id) <= Weight(cfg, t, id))
    && (forall i :: 0 <= i < |ids| ==> Weight(cfg, t', ids[i]) + 1 <= Weight(cfg, t, ids[i]))
    && Measure(cfg, t') + |ids| <= Measure(cfg, t)
  }

  lemma {:induction false} CycleLowers(
    cfg: Config, seen: Table, s: Store, ids: seq<OrderId>, script: seq<Choice>, recovered: nat
  )
    requires forall i :: 0 <= i < |ids| ==>
               ids[i] in seen && EligibleIn(cfg, s.table, ids[i]) && s.table[ids[i]] == seen[ids[i]]
    requires forall i, j :: 0 <= i < j < |ids| ==> ids[i] != ids[j]
    requires NoDbErrors(script)
    requires !Cycle(cfg, seen, s, ids, script, recovered).status.Died?
    ensures var c := Cycle(cfg, seen, s, ids, script, recovered);
            c.status.Completed? && c.status.recovered <= recovered + |ids| && Lowered(cfg, s.table, c.store.table, ids)
    decreases |ids|
  {
    if ids != [] {
      hide Handle, Measure, Weight, WorkerStart, Cycle;
      var id := ids[0];
      var h := Handle(cfg, s, id, WorkerStart(cfg, seen[id]), script);
      CycleUnfold(cfg, seen, s, ids, script, recovered, h);
      WorkerPass(cfg, s, id, script);
      var t1 := h.store.table;
      PassLowersMeasure(cfg, s.table, id, t1[id], h.outcome.value);
      OthersKeepWeight(cfg, s.table, t1, id);
      var rest := ids[1..];
      var more := if h.outcome.value == Recovered then recovered + 1 else recovered;
      CycleLowers(cfg, seen, h.store, rest, h.rest, more);
      var t2 := Cycle(cfg, seen, s, ids, script, recovered).store.table;
      forall i | 0 <= i < |ids|
        ensures Weight(cfg, t2, ids[i]) + 1 <= Weight(cfg, s.table, ids[i])
      {
        if i > 0 {
          assert ids[i] == rest[i - 1];
        }
      }
    }
  }

  lemma OthersKeepWeight(cfg: Config, t: Table, t': Table, id: OrderId)
    requires id in t' && t' == t[id := t'[id]]
    ensures forall k :: k != id ==> Weight(cfg, t', k) == Weight(cfg, t, k)
  {
  }

  // Many cycles

  /** One tick of the worker: what the query returned and how the outside world answered. */
  datatype Tick = Tick(ids: seq<OrderId>, script: seq<Choice>)

  /** Every tick selects what the query may return, meets no database error, and is not cut short. */
  ghost predicate Smooth(cfg: Config, s: Store, ticks: seq<Tick>)
    decreases |ticks|
  {
    ticks == [] ||
    (&& IsSelection(cfg, s.table, ticks[0].ids) && NoDbErrors(ticks[0].script)
     && var c := Cycle(cfg, s.table, s, ticks[0].ids, ticks[0].script, 0);
        !c.status.Died? && Smooth(cfg, c.store, ticks[1..]))
  }

  ghost function After(cfg: Config, s: Store, ticks: seq<Tick>): Store
    requires Smooth(cfg, s, ticks)
    decreases |ticks|
  {
    if ticks == [] then s else After(cfg, Cycle(cfg, s.table, s, ticks[0].ids, ticks[0].script, 0).store, ticks[1..])
  }

  lemma {:induction false} DistinctCover(ids: seq<OrderId>, all: set<OrderId>)
    requires forall i, j :: 0 <= i < j < |ids| ==> ids[i] != ids[j]
    requires forall i :: 0 <= i < |ids| ==> ids[i] in all
    requires |ids| == |all|
    ensures forall k :: k in all ==> k in ids
    decreases |ids|
  {
    if ids != [] {
      var rest := ids[1..];
      DistinctCover(rest, all - {ids[0]});
      forall k | k in all
        ensures k in ids
      {
        if k != ids[0] {
          assert k in rest;
        }
      }
    }
  }

  /** A tick lowers the measure by 25, or else lowers every eligible row's retries left. */
  lemma TickLowers(cfg: Config, s: Store, tick: Tick)
    requires IsSelection(cfg, s.table, tick.ids) && NoDbErrors(tick.script)
    requires !Cycle(cfg, s.table, s, tick.ids, tick.script, 0).status.Died?
    ensures var t' := Cycle(cfg, s.table, s, tick.ids, tick.script, 0).store.table;
            && Measure(cfg, t') + |tick.ids| <= Measure(cfg, s.table)
            && (forall id :: Weight(cfg, t', id) <= Weight(cfg, s.table, id))
            && (|| |tick.ids| == BATCH_LIMIT
                || forall id :: Weight(cfg, t', id) > 0 ==> Weight(cfg, t', id) + 1 <= Weight(cfg, s.table, id))
  {
    hide Measure, Cycle;
    CycleLowers(cfg, s.table, s, tick.ids, tick.script, 0);
    var t' := Cycle(cfg, s.table, s, tick.ids, tick.script, 0).store.table;
    if |tick.ids| < BATCH_LIMIT {
      DistinctCover(tick.ids, EligibleSet(cfg, s.table));
      forall id | Weight(cfg, t', id) > 0
        ensures Weight(cfg, t', id) + 1 <= Weight(cfg, s.table, id)
      {
        assert Weight(cfg, s.table, id) > 0;
        assert id in EligibleSet(cfg, s.table);
        var i :| 0 <= i < |tick.ids| && tick.ids[i] == id;
      }
    }
  }

  lemma {:induction false} WeightsNeverRise(cfg: Config, s: Store, ticks: seq<Tick>)
    requires Smooth(cfg, s, ticks)
    ensures forall id :: Weight(cfg, After(cfg, s, ticks).table, id) <= Weight(cfg, s.table, id)
    decreases |ticks|
  {
    hide Measure, Cycle, Weight;
    if ticks != [] {
      TickLowers(cfg, s, ticks[0]);
      WeightsNeverRise(cfg, Cycle(cfg, s.table, s, ticks[0].ids, ticks[0].script, 0).store, ticks[1..]);
    }
  }

  lemma {:induction false} DrainFrom(cfg: Config, s: Store, ticks: seq<Tick>, top: nat)
    requires Smooth(cfg, s, ticks)
    requires forall id :: Weight(cfg, s.table, id) <= top
    requires |ticks| >= Measure(cfg, s.table) / BATCH_LIMIT + top
    ensures forall id :: Weight(cfg, After(cfg, s, ticks).table, id) == 0
    decreases |ticks|
  {
    hide Measure, Cycle, Weight;
    if top == 0 {
      WeightsNeverRise(cfg, s, ticks);
    } else if ticks != [] {
      TickLowers(cfg, s, ticks[0]);
      var s' := Cycle(cfg, s.table, s, ticks[0].ids, ticks[0].script, 0).store;
      if |ticks[0].ids| == BATCH_LIMIT {
        DrainFrom(cfg, s', ticks[1..], top);
      } else {
        DrainFrom(cfg, s', ticks[1..], top - 1);
      }
    }
  }

  /**
   * Drain bound: whichever rows each query returns and whatever the courier answers, after
   * floor(M / 25) + max cycles without database errors no row is eligible any more.
   */
  lemma BacklogDrains(cfg: Config, s: Store, ticks: seq<Tick>)
    requires Smooth(cfg, s, ticks) && cfg.maxRetry >= 0
    requires |ticks| >= Measure(cfg, s.table) / 25 + cfg.maxRetry
    ensures EligibleSet(cfg, After(cfg, s, ticks).table) == {}
  {
    DrainFrom(cfg, s, ticks, cfg.maxRetry);
    var t := After(cfg, s, ticks).table;
    forall id
      ensures id !in EligibleSet(cfg, t)
    {
      assert Weight(cfg, t, id) == 0;
    }
  }
}
