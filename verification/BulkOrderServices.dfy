/** `createBulkOrders` as it is written: batch record, pre-persistence, pool, summary. */
module BulkOrderServices {
  import opened Options
  import opened Orders
  import opened Lifecycle
  import opened Bulk

  datatype RecordStatus = Processing | Ended(status: BatchStatus)

  datatype BatchRecord =
    BatchRecord(total: nat, successful: nat, failed: int, status: RecordStatus, results: seq<ItemResult>)

  class BulkOrderService {
    const cfg: Config
    const oracles: Oracles
    const bulkConcurrencyLimit: int
    var store: Store
    var record: Option<BatchRecord>

    constructor (cfg: Config, oracles: Oracles, bulkConcurrencyLimit: int, store: Store)
      ensures this.cfg == cfg && this.oracles == oracles && this.bulkConcurrencyLimit == bulkConcurrencyLimit
      ensures this.store == store && record == None
    {
      this.cfg, this.oracles, this.bulkConcurrencyLimit := cfg, oracles, bulkConcurrencyLimit;
      this.store, record := store, None;
    }

    /** The pre-persistence statement may fail, which is only logged. */
    static function PrePersisted(s: Store, reqs: seq<Request>, inserted: bool): Store {
      if inserted then s.(table := BulkInsert(s.table, reqs)) else s
    }

    /** The batch ends as if its items had been created one by one. */
    ghost predicate AsOneByOne(s: Store, reqs: seq<Request>, b: Batch) {
      var oneByOne := OneByOne(cfg, oracles, s, reqs);
      && b.results == oneByOne.results
      && b.store.table == oneByOne.store.table
      && forall k :: EventsOf(b.store.log, k) == EventsOf(oneByOne.store.log, k)
    }

    /** This is what the pool, started with the configured limit, makes of the batch under some schedule. */
    ghost predicate PoolRan(s: Store, reqs: seq<Request>, schedule: seq<nat>, b: Batch) {
      if reqs == [] then b == Batch(s, [])
      else
        var w := Play(cfg, oracles, reqs, Launch(s, reqs, bulkConcurrencyLimit), schedule);
        && AllIdle(w) && b.store == w.store && |w.pool.results| == |b.results|
        && forall i :: 0 <= i < |b.results| ==> w.pool.results[i] == Some(b.results[i])
    }

    lemma FatedMeans(s: Store, reqs: seq<Request>, b: Batch)
      requires Distinct(reqs) && Fated(cfg, oracles, s, reqs, b)
      ensures AsOneByOne(s, reqs, b)
      ensures CountSettled(b.store, reqs) == CountSuccesses(b.results) + CountMisled(cfg, oracles, s, reqs)
    {
      OneByOneFated(cfg, oracles, s, reqs);
      FatedAgree(cfg, oracles, s, reqs, b, OneByOne(cfg, oracles, s, reqs));
      BatchAgreesWithTable(cfg, oracles, s, reqs, b);
    }

    /** The record's count falls short of the table's by the misled items, whatever happened during the run. */
    method CreateBulkOrders(reqs: seq<Request>, inserted: bool)
      returns (results: seq<ItemResult>, ghost schedule: seq<nat>)
      modifies this
      ensures Answered(reqs, results)
      ensures PoolRan(old(PrePersisted(store, reqs, inserted)), reqs, schedule, Batch(store, results))
      ensures record.Some? && record.value.total == |reqs| && record.value.results == results
      ensures record.value.successful + record.value.failed == |reqs| && record.value.failed >= 0
      ensures record.value.status == Ended(Completed) <==> forall i :: 0 <= i < |reqs| ==> results[i].ItemSuccess?
      ensures record.value.status == Ended(AllFailed) <==>
                reqs != [] && forall i :: 0 <= i < |reqs| ==> results[i].ItemFailed?
      ensures record.value.status != Processing
      ensures Distinct(reqs) ==> AsOneByOne(old(PrePersisted(store, reqs, inserted)), reqs, Batch(store, results))
      ensures Distinct(reqs) ==>
                CountSettled(store, reqs) == record.value.successful
                                             + CountMisled(cfg, oracles, old(PrePersisted(store, reqs, inserted)), reqs)
    {
      hide Distinct, Fated, AsOneByOne, PoolRan, CountSettled, CountMisled, CountSuccesses, BulkInsert;
      record := Some(BatchRecord(|reqs|, 0, 0, Processing, []));
      PrePersistAllBatchOrders(reqs, inserted);
      ghost var s := store;
      results, schedule := ExecuteConcurrentBatch(reqs);
      if Distinct(reqs) {
        FatedMeans(s, reqs, Batch(store, results));
      }
      UpdateBatchRecord(|reqs|, results);
    }

    method PrePersistAllBatchOrders(reqs: seq<Request>, inserted: bool)
      modifies this`store
      ensures store == old(PrePersisted(store, reqs, inserted))
    {
      if inserted {
        ghost var want := BulkInsert(store.table, reqs);
        for i := 0 to |reqs|
          invariant BulkInsert(store.table, reqs[i..]) == want
          invariant store == old(store).(table := store.table)
        {
          assert reqs[i..][0] == reqs[i] && reqs[i..][1..] == reqs[i + 1..];
          if reqs[i].orderId !in store.table {
            store := store.(table := store.table[reqs[i].orderId := NewRow(reqs[i])]);
          }
        }
      }
    }

    /** Which worker's await resolves next is left open; `schedule` is what it turned out to be. */
    method ExecuteConcurrentBatch(reqs: seq<Request>) returns (results: seq<ItemResult>, ghost schedule: seq<nat>)
      modifies this`store
      ensures Answered(reqs, results)
      ensures Distinct(reqs) ==> Fated(cfg, oracles, old(store), reqs, Batch(store, results))
      ensures PoolRan(old(store), reqs, schedule, Batch(store, results))
    {
      ghost var s := store;
      if |reqs| == 0 {
        return [], [];
      }
      var w := Launch(store, reqs, bulkConcurrencyLimit);
      schedule := [];
      LaunchInv(cfg, oracles, s, reqs, bulkConcurrencyLimit);
      hide Inv, Resume, Work, Fated, Distinct, Answered, Play, Launch;
      while exists k :: 0 <= k < |w.pool.slots| && w.pool.slots[k].Some?
        invariant Inv(cfg, oracles, s, reqs, w)
        invariant w == Play(cfg, oracles, reqs, Launch(s, reqs, bulkConcurrencyLimit), schedule)
        decreases Work(w.phases)
      {
        var k :| 0 <= k < |w.pool.slots| && w.pool.slots[k].Some?;
        BusyIsReady(cfg, oracles, s, reqs, w, k);
        ResumeInv(cfg, oracles, s, reqs, w, k);
        ResumeShrinks(cfg, oracles, reqs, w, k);
        PlaySnoc(cfg, oracles, reqs, Launch(s, reqs, bulkConcurrencyLimit), schedule, k);
        schedule := schedule + [k];
        w := Resume(cfg, oracles, reqs, w, k);
      }
      IdleIsFated(cfg, oracles, s, reqs, w);
      store := w.store;
      results := ResultsOf(w);
    }

    /** All, none or some succeeded; an empty batch is COMPLETED. */
    method UpdateBatchRecord(total: nat, results: seq<ItemResult>)
      requires record.Some? && |results| == total
      modifies this`record
      ensures record.Some? && record.value.total == old(record).value.total && record.value.results == results
      ensures record.value.successful == CountSuccesses(results)
      ensures record.value.successful + record.value.failed == total && record.value.failed >= 0
      ensures record.value.status == Ended(Completed) <==> forall i :: 0 <= i < total ==> results[i].ItemSuccess?
      ensures record.value.status == Ended(AllFailed) <==>
                results != [] && forall i :: 0 <= i < total ==> results[i].ItemFailed?
      ensures record.value.status != Processing
    {
      SummaryMeaning(results);
      var summary := CalculateBatchSummary(results, total);
      record := Some(record.value.(successful := summary.successful, failed := summary.failed,
                                   status := Ended(summary.status), results := results));
    }
  }
}
