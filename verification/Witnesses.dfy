/** Concrete runs showing that the hypotheses of the main results cannot be dropped. */
module Witnesses {
  import opened Options
  import opened Orders
  import opened Lifecycle
  import opened Handlers
  import ExactAnswers
  import I = InterleavedRuns
  import S = SerialRuns

  // Serialised runs

  /** A reached world in which order `id` looks like this, with operation `p` in flight on it. */
  ghost predicate Stands(cfg: Config, w: S.World, id: OrderId, row: Option<Row>, led: Ledger, p: Option<Phase>) {
    && RowOf(w.store, id) == row && LedgerOf(w.store, id) == led && S.PhaseOf(w, id) == p
    && S.Reached(cfg, w)
  }

  lemma BeginCreate(cfg: Config, w: S.World, req: Request, row: Option<Row>, led: Ledger) returns (w': S.World)
    requires Stands(cfg, w, req.orderId, row, led, None)
    ensures Stands(cfg, w', req.orderId, row, led, Some(CreateRead(req)))
  {
    w' := S.Apply(cfg, w, S.Begin(req.orderId, Create(req)));
    S.ReachedStep(cfg, w, S.Begin(req.orderId, Create(req)));
    hide S.Reached;
  }

  lemma AdvanceCreate(
    cfg: Config, w: S.World, id: OrderId, row: Option<Row>, led: Ledger, p: Phase, c: Choice
  ) returns (w': S.World)
    requires Stands(cfg, w, id, row, led, Some(p)) && IsCreate(p) && Fits(p, c)
    ensures var e := StepCreate(cfg, id, row, led, p, c); Stands(cfg, w', id, e.row, e.ledger, S.Next(e.phase))
  {
    hide StepCreate, S.Reached;
    w' := S.Apply(cfg, w, S.Advance(id, c));
    S.AdvanceIsLocal(cfg, w, id, c, id);
    S.ReachedStep(cfg, w, S.Advance(id, c));
  }

  lemma BeginWorker(cfg: Config, w: S.World, id: OrderId, row: Row, led: Ledger) returns (w': S.World)
    requires Stands(cfg, w, id, Some(row), led, None) && Eligible(cfg, Some(row))
    ensures Stands(cfg, w', id, Some(row), led, Some(WorkerStart(cfg, row)))
  {
    w' := S.Apply(cfg, w, S.Begin(id, Reconcile));
    S.ReachedStep(cfg, w, S.Begin(id, Reconcile));
    hide S.Reached;
  }

  lemma AdvanceWorker(
    cfg: Config, w: S.World, id: OrderId, row: Option<Row>, led: Ledger, p: Phase, c: Choice
  ) returns (w': S.World)
    requires Stands(cfg, w, id, row, led, Some(p)) && IsWorker(p) && Fits(p, c)
    ensures var e := StepWorker(cfg, id, row, led, p, c); Stands(cfg, w', id, e.row, e.ledger, S.Next(e.phase))
  {
    hide StepWorker, S.Reached;
    w' := S.Apply(cfg, w, S.Advance(id, c));
    S.AdvanceIsLocal(cfg, w, id, c, id);
    S.ReachedStep(cfg, w, S.Advance(id, c));
  }

  lemma CrashHere(cfg: Config, w: S.World, id: OrderId, row: Option<Row>, led: Ledger, p: Phase) returns (w': S.World)
    requires Stands(cfg, w, id, row, led, Some(p))
    ensures Stands(cfg, w', id, row, AfterCrash(led, p), None)
  {
    w' := S.Apply(cfg, w, S.Crash(id));
    S.ReachedStep(cfg, w, S.Crash(id));
    hide S.Reached, AfterCrash;
  }

  /** createOrder on an order that is absent or open, up to the courier's booking. */
  lemma CreateUpToBooking(
    cfg: Config, w: S.World, req: Request, row: Option<Row>, led: Ledger, awb: Awb
  ) returns (w': S.World, row': Row, led': Ledger)
    requires req.partner in cfg.registered && NeedsBooking(row)
    requires Stands(cfg, w, req.orderId, row, led, None)
    ensures Stands(cfg, w', req.orderId, Some(row'), led', Some(CreatePersist(req, awb)))
    ensures row'.status == PendingDispatch && row'.retryCount == (if row.None? then 0 else row.value.retryCount)
    ensures led'.booked == led.booked + 1 && led'.lost == led.lost
  {
    hide Stands;
    var id := req.orderId;
    w' := BeginCreate(cfg, w, req, row, led);
    w' := AdvanceCreate(cfg, w', id, row, led, CreateRead(req), DbOk);
    var e := StepCreate(cfg, id, row, led, CreatePending(req, row), DbOk);
    w' := AdvanceCreate(cfg, w', id, row, led, CreatePending(req, row), DbOk);
    w' := AdvanceCreate(cfg, w', id, e.row, e.ledger, CreateDispatch(req), Booked(awb, 0));
    row', led' := e.row.value, NoteBooking(NoteHidden(e.ledger, 0), req, awb);
  }

  lemma StartStands(cfg: Config, id: OrderId)
    ensures Stands(cfg, S.EMPTY_WORLD, id, None, EMPTY_LEDGER, None)
  {
    assert S.Run(cfg, S.EMPTY_WORLD, []) == S.EMPTY_WORLD;
  }

  /** A crash between booking and persisting, then a resubmission: the courier has two bookings for one row. */
  lemma CrashBooksTwice(cfg: Config, req: Request, a: Awb, b: Awb)
    requires req.partner in cfg.registered
    ensures exists moves: seq<S.Move> ::
              var s := S.Run(cfg, S.EMPTY_WORLD, moves).store;
              && LedgerOf(s, req.orderId).booked == 2 && LedgerOf(s, req.orderId).lost == 1
              && RowOf(s, req.orderId).Some? && RowOf(s, req.orderId).value.awb == Some(b)
  {
    StartStands(cfg, req.orderId);
    var w, row, led := CreateUpToBooking(cfg, S.EMPTY_WORLD, req, None, EMPTY_LEDGER, a);
    w := CrashHere(cfg, w, req.orderId, Some(row), led, CreatePersist(req, a));
    var row2, led2;
    w, row2, led2 := CreateUpToBooking(cfg, w, req, Some(row), AfterCrash(led, CreatePersist(req, a)), b);
    w := AdvanceCreate(cfg, w, req.orderId, Some(row2), led2, CreatePersist(req, b), DbOk);
    var moves :| S.Run(cfg, S.EMPTY_WORLD, moves) == w;
  }

  /**
   * A resubmission that dies before its dispatch leaves a pending row, and the worker can select that
   * row exactly if the resubmitted row had retries left.
   */
  lemma ResubmissionStrandsIff(cfg: Config, w: S.World, req: Request, row: Row, led: Ledger) returns (w': S.World)
    requires Stands(cfg, w, req.orderId, Some(row), led, None) && IsOpen(row.status)
    ensures S.Reached(cfg, w') && S.PhaseOf(w', req.orderId) == None
    ensures RowOf(w'.store, req.orderId) == Some(row.(status := PendingDispatch, payload := req))
    ensures Eligible(cfg, RowOf(w'.store, req.orderId)) <==> row.retryCount < cfg.maxRetry
    ensures LedgerOf(w'.store, req.orderId).exhausted == led.exhausted + if row.retryCount < cfg.maxRetry then 0 else 1
  {
    var id := req.orderId;
    var p := CreatePending(req, Some(row));
    w' := BeginCreate(cfg, w, req, Some(row), led);
    w' := AdvanceCreate(cfg, w', id, Some(row), led, CreateRead(req), DbOk);
    var e := StepCreate(cfg, id, Some(row), led, p, DbOk);
    w' := AdvanceCreate(cfg, w', id, Some(row), led, p, DbOk);
    if !e.phase.Finished? {
      w' := CrashHere(cfg, w', id, e.row, e.ledger, e.phase);
    }
    hide S.Reached;
  }

  /** Refused at every pass, a pending row ends FAILED with its retries spent. */
  lemma {:induction false} PassesUntilFailed(
    cfg: Config, w: S.World, id: OrderId, row: Row, led: Ledger
  ) returns (w': S.World, led': Ledger)
    requires Stands(cfg, w, id, Some(row), led, None) && Eligible(cfg, Some(row)) && row.partner in cfg.registered
    ensures Stands(cfg, w', id, Some(row.(status := Failed, retryCount := cfg.maxRetry)), led', None)
    decreases cfg.maxRetry - row.retryCount
  {
    hide Stands;
    var next := row.retryCount + 1;
    w' := BeginWorker(cfg, w, id, row, led);
    w' := AdvanceWorker(cfg, w', id, Some(row), led, WorkerStart(cfg, row), BookingFailed(0));
    led' := NoteHidden(led, 0);
    var e := StepWorker(cfg, id, Some(row), led', WorkerCatch(next), DbOk);
    w' := AdvanceWorker(cfg, w', id, Some(row), led', WorkerCatch(next), DbOk);
    led' := e.ledger;
    if next < cfg.maxRetry {
      w', led' := PassesUntilFailed(cfg, w', id, e.row.value, led');
    }
  }

  /** A new submission that died after its pending row was written. */
  lemma CrashAfterPending(cfg: Config, req: Request) returns (w: S.World, led: Ledger)
    requires req.partner in cfg.registered
    ensures Stands(cfg, w, req.orderId, Some(NewRow(req)), led, None)
  {
    var id := req.orderId;
    StartStands(cfg, id);
    hide Stands;
    w := BeginCreate(cfg, S.EMPTY_WORLD, req, None, EMPTY_LEDGER);
    w := AdvanceCreate(cfg, w, id, None, EMPTY_LEDGER, CreateRead(req), DbOk);
    w := AdvanceCreate(cfg, w, id, None, EMPTY_LEDGER, CreatePending(req, None), DbOk);
    w := CrashHere(cfg, w, id, Some(NewRow(req)), EMPTY_LEDGER, CreateDispatch(req));
    led := AfterCrash(EMPTY_LEDGER, CreateDispatch(req));
  }

  /**
   * For every retry limit there is a run that strands an order: a submission dies, every worker pass is
   * refused, and the resubmission of the FAILED row dies before its dispatch.
   */
  lemma SomeOrderIsStranded(cfg: Config, req: Request)
    requires req.partner in cfg.registered && cfg.maxRetry >= 1
    ensures exists moves: seq<S.Move> ::
              var w := S.Run(cfg, S.EMPTY_WORLD, moves);
              var row := RowOf(w.store, req.orderId);
              && req.orderId !in w.live && row.Some? && row.value.status == PendingDispatch
              && row.value.retryCount == cfg.maxRetry && !Eligible(cfg, row)
  {
    hide Stands;
    var w, led := CrashAfterPending(cfg, req);
    w, led := PassesUntilFailed(cfg, w, req.orderId, NewRow(req), led);
    var row := NewRow(req).(status := Failed, retryCount := cfg.maxRetry);
    w := ResubmissionStrandsIff(cfg, w, req, row, led);
    var moves :| S.Run(cfg, S.EMPTY_WORLD, moves) == w;
  }

  // One operation

  /** On sqlite a failing event statement makes createOrder throw although the row is CREATED. */
  lemma ThrowsAlthoughBooked(cfg: Config, req: Request, awb: Awb)
    requires req.partner in cfg.registered && !cfg.transactional
    ensures var script := [DbOk, DbOk, Booked(awb, 0), DbOk, DbError(false)];
            var e := Handle(cfg, EMPTY_STORE, req.orderId, CreateRead(req), script);
            && e.outcome == Some(Threw(DatabaseError))
            && RowOf(e.store, req.orderId).Some? && RowOf(e.store, req.orderId).value.status == Created
  {
    hide Handle;
    ExactAnswers.EventFails(cfg, EMPTY_STORE, req, awb, 0, false);
    assert [DbOk, DbOk, Booked(awb, 0), DbOk, DbError(false)]
        == [DbOk, DbOk, Booked(awb, 0)] + [DbOk, DbError(false)];
  }

  // Interleaved runs

  /** No fault of any kind: no crash, no error, no refusal. */
  predicate Faultless(m: I.Move) {
    !m.Crash? && (m.Advance? || m.Insert? ==> !m.c.DbError? && !m.c.BookingFailed? && (m.c.Booked? ==> m.c.hidden == 0))
  }

  ghost predicate FaultlesslyReached(cfg: Config, w: I.World) {
    exists moves: seq<I.Move> ::
      (forall i :: 0 <= i < |moves| ==> Faultless(moves[i])) && I.Run(cfg, I.EMPTY_WORLD, moves) == w
  }

  lemma {:induction false} InterleavedSnoc(cfg: Config, w: I.World, moves: seq<I.Move>, m: I.Move)
    ensures I.Run(cfg, w, moves + [m]) == I.Apply(cfg, I.Run(cfg, w, moves), m)
    decreases |moves|
  {
    hide I.Apply;
    if moves == [] {
      assert moves + [m] == [m] && [m][1..] == [];
    } else {
      assert (moves + [m])[1..] == moves[1..] + [m];
      InterleavedSnoc(cfg, I.Apply(cfg, w, moves[0]), moves[1..], m);
    }
  }

  lemma FaultlessStep(cfg: Config, w: I.World, m: I.Move)
    requires FaultlesslyReached(cfg, w) && Faultless(m)
    ensures FaultlesslyReached(cfg, I.Apply(cfg, w, m))
  {
    hide I.Apply, I.Run, Faultless;
    var moves :| (forall i :: 0 <= i < |moves| ==> Faultless(moves[i])) && I.Run(cfg, I.EMPTY_WORLD, moves) == w;
    InterleavedSnoc(cfg, I.EMPTY_WORLD, moves, m);
    var more := moves + [m];
    assert forall i :: 0 <= i < |more| ==> Faultless(more[i]);
  }

  /** Faultlessly reached, with every live handler working on order `id`, and this known of it. */
  ghost predicate Overlapping(
    cfg: Config, w: I.World, id: OrderId, row: Option<Row>, log: seq<Event>, led: Ledger,
    phases: map<I.HandlerId, Phase>
  ) {
    && RowOf(w.store, id) == row && w.store.log == log && LedgerOf(w.store, id) == led
    && w.live.Keys == phases.Keys && (forall h :: h in phases ==> w.live[h] == I.Handler(id, phases[h]))
    && FaultlesslyReached(cfg, w)
  }

  function Moved(phases: map<I.HandlerId, Phase>, h: I.HandlerId, p: Phase): map<I.HandlerId, Phase> {
    if p.Finished? then phases - {h} else phases[h := p]
  }

  lemma OverlapStart(cfg: Config, id: OrderId)
    ensures Overlapping(cfg, I.EMPTY_WORLD, id, None, [], EMPTY_LEDGER, map[])
  {
    assert I.Run(cfg, I.EMPTY_WORLD, []) == I.EMPTY_WORLD;
  }

  lemma OverlapBegin(
    cfg: Config, w: I.World, id: OrderId, row: Option<Row>, log: seq<Event>, led: Ledger,
    phases: map<I.HandlerId, Phase>, h: I.HandlerId, op: Op
  ) returns (w': I.World)
    requires Overlapping(cfg, w, id, row, log, led, phases) && h !in phases && CanBegin(cfg, row, id, op)
    ensures Overlapping(cfg, w', id, row, log, led, phases[h := FirstPhase(cfg, row, id, op)])
  {
    hide FaultlesslyReached;
    var m := I.Begin(h, id, op);
    w' := I.Apply(cfg, w, m);
    FaultlessStep(cfg, w, m);
  }

  lemma OverlapStep(
    cfg: Config, w: I.World, id: OrderId, row: Option<Row>, log: seq<Event>, led: Ledger,
    phases: map<I.HandlerId, Phase>, h: I.HandlerId, c: Choice, log': seq<Event>, phases': map<I.HandlerId, Phase>
  ) returns (w': I.World)
    requires Overlapping(cfg, w, id, row, log, led, phases) && h in phases && Fits(phases[h], c)
    requires !c.DbError? && !c.BookingFailed? && (c.Booked? ==> c.hidden == 0)
    requires var e := Step(cfg, id, row, log, led, phases[h], c);
             log' == log + e.emitted && phases' == Moved(phases, h, e.phase)
    ensures var e := Step(cfg, id, row, log, led, phases[h], c);
            Overlapping(cfg, w', id, e.row, log', e.ledger, phases')
  {
    if row.Some? {
      S.StepKeepsRow(cfg, id, row, log, led, phases[h], c);
    }
    hide Step, FaultlesslyReached;
    w' := I.Apply(cfg, w, I.Advance(h, c));
    FaultlessStep(cfg, w, I.Advance(h, c));
  }

  lemma OverlapMeans(
    cfg: Config, w: I.World, id: OrderId, row: Option<Row>, log: seq<Event>, led: Ledger,
    phases: map<I.HandlerId, Phase>
  ) returns (moves: seq<I.Move>)
    requires Overlapping(cfg, w, id, row, log, led, phases)
    ensures forall i :: 0 <= i < |moves| ==> Faultless(moves[i])
    ensures var s := I.Run(cfg, I.EMPTY_WORLD, moves).store;
            s.log == log && LedgerOf(s, id) == led && RowOf(s, id) == row
  {
    moves :| (forall i :: 0 <= i < |moves| ==> Faultless(moves[i])) && I.Run(cfg, I.EMPTY_WORLD, moves) == w;
  }

  /** A pre-persisted order. */
  lemma PrePersisted(cfg: Config, req: Request) returns (w: I.World)
    ensures Overlapping(cfg, w, req.orderId, Some(NewRow(req)), [], EMPTY_LEDGER, map[])
  {
    var m := I.Insert([req], DbOk);
    OverlapStart(cfg, req.orderId);
    w := I.Apply(cfg, I.EMPTY_WORLD, m);
    FaultlessStep(cfg, I.EMPTY_WORLD, m);
    BulkInsertOnlyAdds(EMPTY_STORE.table, [req], req.orderId);
    assert [req][0].orderId == req.orderId;
    hide FaultlesslyReached;
  }

  /** A createOrder of it that has read the row and written it pending, beside whatever else runs. */
  lemma OverlapToDispatch(
    cfg: Config, w: I.World, req: Request, row: Row, led: Ledger, phases: map<I.HandlerId, Phase>, h: I.HandlerId
  ) returns (w': I.World, led': Ledger)
    requires Overlapping(cfg, w, req.orderId, Some(row), [], led, phases) && h !in phases
    requires row.status == PendingDispatch && row.payload == req && req.partner in cfg.registered
    ensures Overlapping(cfg, w', req.orderId, Some(row), [], led', phases[h := CreateDispatch(req)])
    ensures led'.booked == led.booked
  {
    hide Overlapping;
    var id, read := req.orderId, phases[h := CreateRead(req)];
    var pending := phases[h := CreatePending(req, Some(row))];
    w' := OverlapBegin(cfg, w, id, Some(row), [], led, phases, h, Create(req));
    w' := OverlapStep(cfg, w', id, Some(row), [], led, read, h, DbOk, [], pending);
    var after := phases[h := CreateDispatch(req)];
    w' := OverlapStep(cfg, w', id, Some(row), [], led, pending, h, DbOk, [], after);
    led' := StepCreate(cfg, id, Some(row), led, pending[h], DbOk).ledger;
    assert row.(status := PendingDispatch, payload := req) == row;
  }

  /** Two overlapping submissions of one pre-persisted order book it twice although nothing goes wrong. */
  lemma OverlapBooksTwice(cfg: Config, req: Request, a: Awb, b: Awb)
    requires req.partner in cfg.registered
    ensures exists moves: seq<I.Move> ::
              && (forall i :: 0 <= i < |moves| ==> Faultless(moves[i]))
              && LedgerOf(I.Run(cfg, I.EMPTY_WORLD, moves).store, req.orderId).booked == 2
  {
    hide Overlapping;
    var id, row, led := req.orderId, NewRow(req), EMPTY_LEDGER;
    var w := PrePersisted(cfg, req);
    w, led := OverlapToDispatch(cfg, w, req, row, led, map[], "a");
    var phases := map["a" := CreateDispatch(req)];
    w, led := OverlapToDispatch(cfg, w, req, row, led, phases, "b");
    phases := phases["b" := CreateDispatch(req)];
    var one := phases["a" := CreatePersist(req, a)];
    w := OverlapStep(cfg, w, id, Some(row), [], led, phases, "a", Booked(a, 0), [], one);
    led := NoteBooking(NoteHidden(led, 0), req, a);
    var both := one["b" := CreatePersist(req, b)];
    w := OverlapStep(cfg, w, id, Some(row), [], led, one, "b", Booked(b, 0), [], both);
    led := NoteBooking(NoteHidden(led, 0), req, b);
    var moves := OverlapMeans(cfg, w, id, Some(row), [], led, both);
  }

  // Overlapping tracking

  /** A booked order with nothing running. */
  lemma BookedOrder(cfg: Config, req: Request, awb: Awb) returns (w: I.World, log: seq<Event>, led: Ledger)
    requires req.partner in cfg.registered
    ensures Overlapping(cfg, w, req.orderId, Some(BookedRow(NewRow(req), awb)), log, led, map[])
    ensures forall i :: 0 <= i < |log| ==> log[i].stamp == ServerClock
  {
    hide Overlapping, BookingEvent;
    var id, row := req.orderId, NewRow(req);
    var h: I.HandlerId := "a";
    var event := map[h := CreateEvent(req, awb)];
    OverlapStart(cfg, id);
    led := EMPTY_LEDGER;
    w := OverlapBegin(cfg, I.EMPTY_WORLD, id, None, [], led, map[], h, Create(req));
    var read := map[][h := CreateRead(req)];
    var pending := map[h := CreatePending(req, None)];
    w := OverlapStep(cfg, w, id, None, [], led, read, h, DbOk, [], pending);
    var dispatch := map[h := CreateDispatch(req)];
    w := OverlapStep(cfg, w, id, None, [], led, pending, h, DbOk, [], dispatch);
    var persist := map[h := CreatePersist(req, awb)];
    w := OverlapStep(cfg, w, id, Some(row), [], led, dispatch, h, Booked(awb, 0), [], persist);
    led := NoteBooking(NoteHidden(led, 0), req, awb);
    log := [BookingEvent(id, req.partner, awb)];
    if cfg.transactional {
      w := OverlapStep(cfg, w, id, Some(row), [], led, persist, h, DbOk, log, map[]);
    } else {
      w := OverlapStep(cfg, w, id, Some(row), [], led, persist, h, DbOk, [], event);
      w := OverlapStep(cfg, w, id, Some(BookedRow(row, awb)), [], led, event, h, DbOk, log, map[]);
    }
    BookingIsOnServerClock(id, req.partner, awb);
  }

  lemma BookingIsOnServerClock(id: OrderId, partner: string, awb: Awb)
    ensures BookingEvent(id, partner, awb).stamp == ServerClock
  {
  }

  lemma OverlapFetch(
    cfg: Config, w: I.World, id: OrderId, row: Row, log: seq<Event>, led: Ledger,
    phases: map<I.HandlerId, Phase>, h: I.HandlerId
  ) returns (w': I.World)
    requires Overlapping(cfg, w, id, Some(row), log, led, phases) && h in phases && phases[h] == TrackFetch
    requires row.awb.Some? && row.partner in cfg.registered
    ensures Overlapping(cfg, w', id, Some(row), log, led, phases[h := TrackCall(row)])
  {
    hide Overlapping;
    w' := OverlapStep(cfg, w, id, Some(row), log, led, phases, h, DbOk, log, phases[h := TrackCall(row)]);
  }

  lemma OverlapReport(
    cfg: Config, w: I.World, id: OrderId, row: Row, log: seq<Event>, led: Ledger,
    phases: map<I.HandlerId, Phase>, h: I.HandlerId, x: Scan
  ) returns (w': I.World)
    requires Overlapping(cfg, w, id, Some(row), log, led, phases) && h in phases && phases[h] == TrackCall(row)
    requires row.status == Created && x.status != PendingDispatch
    ensures Overlapping(cfg, w', id, Some(row), log, led,
                        phases[h := TrackFind(AwbText(row), Report(Created, [x]), 0)])
  {
    hide Overlapping, AwbText;
    var report := Report(Created, [x]);
    var find := phases[h := TrackFind(AwbText(row), report, 0)];
    w' := OverlapStep(cfg, w, id, Some(row), log, led, phases, h, Reported(report), log, find);
  }

  lemma OverlapFind(
    cfg: Config, w: I.World, id: OrderId, row: Row, log: seq<Event>, led: Ledger,
    phases: map<I.HandlerId, Phase>, h: I.HandlerId, waybill: string, x: Scan
  ) returns (w': I.World)
    requires Overlapping(cfg, w, id, Some(row), log, led, phases)
    requires h in phases && phases[h] == TrackFind(waybill, Report(Created, [x]), 0) && !Logged(log, id, x)
    ensures Overlapping(cfg, w', id, Some(row), log, led, phases[h := TrackAppend(waybill, Report(Created, [x]), 0)])
  {
    hide Overlapping, Logged;
    var append := phases[h := TrackAppend(waybill, Report(Created, [x]), 0)];
    w' := OverlapStep(cfg, w, id, Some(row), log, led, phases, h, DbOk, log, append);
  }

  /** A trackOrder that has looked its one scan up and not found it, beside whatever else runs. */
  lemma OverlapToAppend(
    cfg: Config, w: I.World, id: OrderId, row: Row, log: seq<Event>, led: Ledger,
    phases: map<I.HandlerId, Phase>, h: I.HandlerId, x: Scan
  ) returns (w': I.World)
    requires Overlapping(cfg, w, id, Some(row), log, led, phases) && h !in phases
    requires row.awb.Some? && row.partner in cfg.registered && row.status == Created
    requires x.status != PendingDispatch && !Logged(log, id, x)
    ensures Overlapping(cfg, w', id, Some(row), log, led,
                        phases[h := TrackAppend(AwbText(row), Report(Created, [x]), 0)])
  {
    hide Overlapping, Logged, AwbText;
    var report := Report(Created, [x]);
    var fetch, call := phases[h := TrackFetch], phases[h := TrackCall(row)];
    var find := phases[h := TrackFind(AwbText(row), report, 0)];
    w' := OverlapBegin(cfg, w, id, Some(row), log, led, phases, h, Track);
    w' := OverlapFetch(cfg, w', id, row, log, led, fetch, h);
    assert fetch[h := TrackCall(row)] == call && call[h := TrackFind(AwbText(row), report, 0)] == find;
    w' := OverlapReport(cfg, w', id, row, log, led, call, h, x);
    w' := OverlapFind(cfg, w', id, row, log, led, find, h, AwbText(row), x);
    assert find[h := TrackAppend(AwbText(row), report, 0)] == phases[h := TrackAppend(AwbText(row), report, 0)];
  }

  /** Two overlapping trackOrder calls log one scan twice although nothing goes wrong: each queried before either
      inserted. */
  lemma OverlapLogsTwice(cfg: Config, req: Request, awb: Awb, x: Scan)
    requires req.partner in cfg.registered && x.status != PendingDispatch
    ensures exists moves: seq<I.Move> ::
              && (forall i :: 0 <= i < |moves| ==> Faultless(moves[i]))
              && var log := I.Run(cfg, I.EMPTY_WORLD, moves).store.log;
                 && |log| >= 2 && log[|log| - 1] == log[|log| - 2] == ScanEvent(req.orderId, awb, x)
  {
    hide Overlapping;
    var id, row := req.orderId, BookedRow(NewRow(req), awb);
    var p := TrackAppend(awb, Report(Created, [x]), 0);
    var w, log, led := BookedOrder(cfg, req, awb);
    assert !Logged(log, id, x);
    w := OverlapToAppend(cfg, w, id, row, log, led, map[], "a", x);
    w := OverlapToAppend(cfg, w, id, row, log, led, map["a" := p], "b", x);
    hide Logged;
    var both, one := map["a" := p]["b" := p], map["b" := p];
    var e := ScanEvent(id, awb, x);
    w := OverlapStep(cfg, w, id, Some(row), log, led, both, "a", DbOk, log + [e], one);
    w := OverlapStep(cfg, w, id, Some(row), log + [e], led, one, "b", DbOk, log + [e] + [e], map[]);
    var moves := OverlapMeans(cfg, w, id, Some(row), log + [e] + [e], led, map[]);
  }
}
