/** The event log over whole serialised runs: no courier scan is ever logged twice. */
module TrackingRuns {
  import opened Options
  import opened Orders
  import opened Lifecycle
  import opened SerialRuns

  /** Two entries for one scan: what the deduplication query compares, for entries with the courier's time. */
  predicate SameEntry(a: Event, b: Event) {
    && a.stamp.At? && b.stamp.At?
    && a.orderId == b.orderId && a.status == b.status && a.activity == b.activity && a.stamp == b.stamp
  }

  predicate NoScanTwice(log: seq<Event>) {
    forall i, j :: 0 <= i < j < |log| ==> !SameEntry(log[i], log[j])
  }

  /** An insert in flight is of a scan that is not logged yet. */
  predicate InsertIsNew(log: seq<Event>, id: OrderId, p: Phase) {
    p.TrackAppend? && p.k < |p.report.history| ==> !Logged(log, id, p.report.history[p.k])
  }

  ghost predicate Deduplicated(w: World) {
    NoScanTwice(w.store.log) && forall id :: id in w.live ==> InsertIsNew(w.store.log, id, w.live[id])
  }

  /** What a step may log: nothing, one entry on the server's clock, or the scan it was about to insert. */
  lemma StepEmits(cfg: Config, id: OrderId, row: Option<Row>, log: seq<Event>, led: Ledger, p: Phase, c: Choice)
    requires Fits(p, c)
    ensures var e := Step(cfg, id, row, log, led, p, c);
            && (|| e.emitted == []
                || (|e.emitted| == 1 && e.emitted[0].orderId == id && e.emitted[0].stamp == ServerClock)
                || (p.TrackAppend? && e.emitted == [ScanEvent(id, p.waybill, p.report.history[p.k])]))
            && (e.phase.TrackAppend? ==> e.emitted == [] && InsertIsNew(log, id, e.phase))
  {
    hide AwbText, Logged, NoteTracked, NoteBooking, NoteHidden, BookedRow, WithStatus;
  }

  lemma EntryKeepsOthersNew(log: seq<Event>, e: Event, id: OrderId, p: Phase)
    requires InsertIsNew(log, id, p) && e.orderId != id
    ensures InsertIsNew(log + [e], id, p)
  {
  }

  lemma ClockEntryIsNoScan(log: seq<Event>, e: Event)
    requires NoScanTwice(log) && e.stamp == ServerClock
    ensures NoScanTwice(log + [e])
  {
  }

  lemma NewScanIsNotTwice(log: seq<Event>, id: OrderId, waybill: string, x: Scan)
    requires NoScanTwice(log) && !Logged(log, id, x)
    ensures NoScanTwice(log + [ScanEvent(id, waybill, x)])
  {
    var e := ScanEvent(id, waybill, x);
    forall i | 0 <= i < |log|
      ensures !SameEntry(log[i], e)
    {
      assert !SameScan(log[i], id, x);
    }
  }

  lemma AdvanceDeduplicated(cfg: Config, w: World, k: OrderId, c: Choice)
    requires Deduplicated(w) && Possible(cfg, w, Advance(k, c))
    ensures Deduplicated(Apply(cfg, w, Advance(k, c)))
  {
    hide Step, NoScanTwice, InsertIsNew, Logged;
    var p := w.live[k];
    var log := w.store.log;
    var e := StepAt(cfg, w.store, k, p, c);
    var w' := Apply(cfg, w, Advance(k, c));
    StepEmits(cfg, k, RowOf(w.store, k), log, LedgerOf(w.store, k), p, c);
    if e.emitted == [] {
      assert w'.store.log == log;
    } else {
      assert e.emitted == [e.emitted[0]] && e.emitted[0].orderId == k;
      if e.emitted[0].stamp == ServerClock {
        ClockEntryIsNoScan(log, e.emitted[0]);
      } else {
        ScanWasNew(log, k, p);
        NewScanIsNotTwice(log, k, p.waybill, p.report.history[p.k]);
      }
    }
    forall id | id in w'.live
      ensures InsertIsNew(w'.store.log, id, w'.live[id])
    {
      if id == k {
        NotInserting(w'.store.log, id, e.phase);
      } else if e.emitted != [] {
        EntryKeepsOthersNew(log, e.emitted[0], id, w.live[id]);
      }
    }
  }

  lemma ScanWasNew(log: seq<Event>, id: OrderId, p: Phase)
    requires p.TrackAppend? && p.k < |p.report.history| && InsertIsNew(log, id, p)
    ensures !Logged(log, id, p.report.history[p.k])
  {
  }

  lemma NotInserting(log: seq<Event>, id: OrderId, p: Phase)
    ensures !p.TrackAppend? ==> InsertIsNew(log, id, p)
  {
  }

  lemma ApplyDeduplicated(cfg: Config, w: World, m: Move)
    requires Deduplicated(w)
    ensures Deduplicated(Apply(cfg, w, m))
  {
    hide Step, NoScanTwice, Logged, BulkInsert, AfterCrash;
    if m.Advance? && Possible(cfg, w, m) {
      AdvanceDeduplicated(cfg, w, m.id, m.c);
    }
  }

  lemma {:induction false} RunDeduplicated(cfg: Config, w: World, moves: seq<Move>)
    requires Deduplicated(w)
    ensures Deduplicated(Run(cfg, w, moves))
    decreases |moves|
  {
    hide Deduplicated, Apply;
    if moves != [] {
      ApplyDeduplicated(cfg, w, moves[0]);
      RunDeduplicated(cfg, Apply(cfg, w, moves[0]), moves[1..]);
    }
  }

  /**
   * At every instant of every serialised run, with failing statements and crashes anywhere and any number of
   * trackOrder calls, the log holds each courier scan of an order at most once.
   */
  lemma ScansLoggedOnce(cfg: Config, moves: seq<Move>, i: nat, j: nat)
    requires i < j < |Run(cfg, EMPTY_WORLD, moves).store.log|
    ensures var log := Run(cfg, EMPTY_WORLD, moves).store.log;
            !(&& log[i].stamp.At? && log[j].stamp == log[i].stamp && log[j].orderId == log[i].orderId
              && log[j].status == log[i].status && log[j].activity == log[i].activity)
  {
    hide Run;
    RunDeduplicated(cfg, EMPTY_WORLD, moves);
    var log := Run(cfg, EMPTY_WORLD, moves).store.log;
    assert !SameEntry(log[i], log[j]);
  }
}
