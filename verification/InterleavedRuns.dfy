/**
 * Runs of any number of handlers on any orders, in any interleaving. A handler acts on the row
 * snapshot it read, however stale, and may die at any await.
 */
module InterleavedRuns {
  import opened Options
  import opened Orders
  import opened Lifecycle
  import S = SerialRuns

  /** Any name tells handlers apart. */
  type HandlerId = string

  datatype Handler = Handler(id: OrderId, phase: Phase)

  datatype World = World(store: Store, live: map<HandlerId, Handler>)

  datatype Move =
    | Begin(h: HandlerId, id: OrderId, op: Op)
    | Advance(h: HandlerId, c: Choice)
    | Crash(h: HandlerId)
    | Insert(reqs: seq<Request>, c: Choice)

  const EMPTY_WORLD := World(EMPTY_STORE, map[])

  predicate Possible(cfg: Config, w: World, m: Move) {
    match m
    case Begin(h, id, op) => h !in w.live && CanBegin(cfg, RowOf(w.store, id), id, op)
    case Advance(h, c) => h in w.live && Fits(w.live[h].phase, c)
    case Crash(h) => h in w.live
    case Insert(_, c) => c.DbOk? || c.DbError?
  }

  function Settle(live: map<HandlerId, Handler>, h: HandlerId, id: OrderId, p: Phase): map<HandlerId, Handler> {
    if p.Finished? then live - {h} else live[h := Handler(id, p)]
  }

  function Apply(cfg: Config, w: World, m: Move): World {
    if !Possible(cfg, w, m) then w
    else match m
      case Begin(h, id, op) => w.(live := w.live[h := Handler(id, FirstPhase(cfg, RowOf(w.store, id), id, op))])
      case Advance(h, c) =>
        var id := w.live[h].id;
        var e := StepAt(cfg, w.store, id, w.live[h].phase, c);
        World(Commit(w.store, id, e), Settle(w.live, h, id, e.phase))
      case Crash(h) =>
        var id := w.live[h].id;
        var led := AfterCrash(LedgerOf(w.store, id), w.live[h].phase);
        World(w.store.(ledger := w.store.ledger[id := led]), w.live - {h})
      case Insert(reqs, c) =>
        if Wrote(c) then w.(store := w.store.(table := BulkInsert(w.store.table, reqs))) else w
  }

  function Run(cfg: Config, w: World, moves: seq<Move>): World
    decreases |moves|
  {
    if moves == [] then w else Run(cfg, Apply(cfg, w, moves[0]), moves[1..])
  }

  // Soundness of one row and of one handler

  function RetryCap(cfg: Config): nat {
    if cfg.maxRetry < 0 then 0 else cfg.maxRetry
  }

  /** The waybill was handed out for this very order, every parcel has one, and retries are capped. */
  predicate RowSound(cfg: Config, id: OrderId, row: Option<Row>, led: Ledger) {
    row.Some? ==>
      && row.value.payload.orderId == id
      && (row.value.awb.Some? ==> (id, row.value.awb.value) in led.issued)
      && (HasParcel(row.value.status) ==> row.value.awb.Some?)
      && row.value.retryCount <= RetryCap(cfg)
  }

  /** What survives in a handler however its row is changed by others. */
  predicate HandlerSound(cfg: Config, id: OrderId, row: Option<Row>, led: Ledger, p: Phase) {
    match p
    case CreateRead(req) => req.orderId == id
    case CreatePending(req, found) => req.orderId == id && (found.Some? ==> row.Some?)
    case CreateDispatch(req) => req.orderId == id && row.Some?
    case CreatePersist(req, awb) => row.Some? && (id, awb) in led.issued
    case WorkerUnsupported(next) => row.Some? && next <= RetryCap(cfg)
    case WorkerDispatch(payload, _, next) => row.Some? && payload.orderId == id && next <= RetryCap(cfg)
    case WorkerPersist(_, awb, next) => row.Some? && (id, awb) in led.issued && next <= RetryCap(cfg)
    case WorkerEvent(_, _, next) => row.Some? && next <= RetryCap(cfg)
    case WorkerCatch(next) => row.Some? && next <= RetryCap(cfg)
    case TrackCall(_) => row.Some? && row.value.awb.Some?
    case TrackStatus(_, report) => row.Some? && row.value.awb.Some? && report.status != PendingDispatch
    case _ => true
  }

  /** How a row may change under another handler: it stays, and a waybill never becomes null again. */
  predicate Grows(row: Option<Row>, led: Ledger, row': Option<Row>, led': Ledger) {
    && (row.Some? ==> row'.Some? && (row.value.awb.Some? ==> row'.value.awb.Some?))
    && led.issued <= led'.issued
  }

  lemma TrackLedgerKeepsIssued(row: Option<Row>, led: Ledger, p: Phase)
    ensures p.TrackStatus? && row.Some? ==>
              NoteTracked(led, row.value.status, p.report.status).issued == led.issued
  {
  }

  predicate EffectSound(cfg: Config, id: OrderId, row: Option<Row>, led: Ledger, e: Effect) {
    && RowSound(cfg, id, e.row, e.ledger)
    && HandlerSound(cfg, id, e.row, e.ledger, e.phase)
    && Grows(row, led, e.row, e.ledger)
  }

  lemma CreateStepSound(cfg: Config, id: OrderId, row: Option<Row>, led: Ledger, p: Phase, c: Choice)
    requires IsCreate(p) && Fits(p, c) && RowSound(cfg, id, row, led) && HandlerSound(cfg, id, row, led, p)
    ensures EffectSound(cfg, id, row, led, StepCreate(cfg, id, row, led, p, c))
  {
  }

  lemma WorkerStepSound(cfg: Config, id: OrderId, row: Option<Row>, led: Ledger, p: Phase, c: Choice)
    requires IsWorker(p) && Fits(p, c) && RowSound(cfg, id, row, led) && HandlerSound(cfg, id, row, led, p)
    ensures EffectSound(cfg, id, row, led, StepWorker(cfg, id, row, led, p, c))
  {
    hide RecoveryEvent;
    var e := StepWorker(cfg, id, row, led, p, c);
    assert RowSound(cfg, id, e.row, e.ledger);
  }

  lemma TrackStepSound(cfg: Config, id: OrderId, row: Option<Row>, log: seq<Event>, led: Ledger, p: Phase, c: Choice)
    requires IsTrack(p) && Fits(p, c) && RowSound(cfg, id, row, led) && HandlerSound(cfg, id, row, led, p)
    ensures EffectSound(cfg, id, row, led, StepTrack(cfg, id, row, log, led, p, c))
  {
    hide Logged, AwbText, ScanEvent, NoteTracked;
    TrackLedgerKeepsIssued(row, led, p);
  }

  lemma CancelStepSound(cfg: Config, id: OrderId, row: Option<Row>, led: Ledger, p: Phase, c: Choice)
    requires IsCancel(p) && Fits(p, c) && RowSound(cfg, id, row, led) && HandlerSound(cfg, id, row, led, p)
    ensures EffectSound(cfg, id, row, led, StepCancel(cfg, id, row, led, p, c))
  {
  }

  lemma StepSound(cfg: Config, id: OrderId, row: Option<Row>, log: seq<Event>, led: Ledger, p: Phase, c: Choice)
    requires Fits(p, c) && RowSound(cfg, id, row, led) && HandlerSound(cfg, id, row, led, p)
    ensures EffectSound(cfg, id, row, led, Step(cfg, id, row, log, led, p, c))
  {
    hide EffectSound, StepCreate, StepWorker, StepTrack, StepCancel;
    if IsCreate(p) { CreateStepSound(cfg, id, row, led, p, c); }
    else if IsWorker(p) { WorkerStepSound(cfg, id, row, led, p, c); }
    else if IsTrack(p) { TrackStepSound(cfg, id, row, log, led, p, c); }
    else { CancelStepSound(cfg, id, row, led, p, c); }
  }

  /** A waybill counts as issued exactly when the courier answers a booking call for that order with it. */
  lemma IssuedByTheCourier(
    cfg: Config, id: OrderId, row: Option<Row>, log: seq<Event>, led: Ledger, p: Phase, c: Choice
  )
    requires Fits(p, c)
    ensures Step(cfg, id, row, log, led, p, c).ledger.issued
              == led.issued + (if p.CreateDispatch? && c.Booked? then {(p.req.orderId, c.awb)}
                               else if p.WorkerDispatch? && c.Booked? then {(p.payload.orderId, c.awb)} else {})
  {
    hide Logged, AwbText, ScanEvent, BookingEvent, RecoveryEvent, BookedRow;
  }

  // Soundness of the whole world

  ghost predicate Sound(cfg: Config, w: World) {
    && (forall id :: RowSound(cfg, id, RowOf(w.store, id), LedgerOf(w.store, id)))
    && (forall h :: h in w.live ==> LiveSound(cfg, w.store, w.live[h]))
  }

  predicate LiveSound(cfg: Config, s: Store, h: Handler) {
    HandlerSound(cfg, h.id, RowOf(s, h.id), LedgerOf(s, h.id), h.phase)
  }

  ghost predicate StoreGrows(s: Store, s': Store) {
    forall id :: Grows(RowOf(s, id), LedgerOf(s, id), RowOf(s', id), LedgerOf(s', id))
  }

  lemma InsertSound(cfg: Config, s: Store, reqs: seq<Request>)
    requires forall id :: RowSound(cfg, id, RowOf(s, id), LedgerOf(s, id))
    ensures var s' := s.(table := BulkInsert(s.table, reqs));
            StoreGrows(s, s') && forall id :: RowSound(cfg, id, RowOf(s', id), LedgerOf(s', id))
  {
    var s' := s.(table := BulkInsert(s.table, reqs));
    forall id
      ensures Grows(RowOf(s, id), LedgerOf(s, id), RowOf(s', id), LedgerOf(s', id))
      ensures RowSound(cfg, id, RowOf(s', id), LedgerOf(s', id))
    {
      assert RowSound(cfg, id, RowOf(s, id), LedgerOf(s, id));
      BulkInsertOnlyAdds(s.table, reqs, id);
    }
  }

  lemma CommitSound(cfg: Config, s: Store, id: OrderId, p: Phase, c: Choice)
    requires forall k :: RowSound(cfg, k, RowOf(s, k), LedgerOf(s, k))
    requires Fits(p, c) && HandlerSound(cfg, id, RowOf(s, id), LedgerOf(s, id), p)
    ensures var e := StepAt(cfg, s, id, p, c);
            var s' := Commit(s, id, e);
            && StoreGrows(s, s')
            && (forall k :: RowSound(cfg, k, RowOf(s', k), LedgerOf(s', k)))
            && HandlerSound(cfg, id, RowOf(s', id), LedgerOf(s', id), e.phase)
  {
    hide Step, HandlerSound;
    StepSound(cfg, id, RowOf(s, id), s.log, LedgerOf(s, id), p, c);
    var e := StepAt(cfg, s, id, p, c);
    var s' := Commit(s, id, e);
    assert RowOf(s', id) == e.row && LedgerOf(s', id) == e.ledger;
    forall k | k != id
      ensures RowOf(s', k) == RowOf(s, k) && LedgerOf(s', k) == LedgerOf(s, k)
    {
    }
  }

  /** Handlers that did not move stay sound when the store grows. */
  lemma OthersSound(cfg: Config, s: Store, s': Store, h: Handler)
    requires StoreGrows(s, s') && LiveSound(cfg, s, h)
    ensures LiveSound(cfg, s', h)
  {
    assert Grows(RowOf(s, h.id), LedgerOf(s, h.id), RowOf(s', h.id), LedgerOf(s', h.id));
  }

  lemma BeginSound(cfg: Config, s: Store, id: OrderId, op: Op)
    requires CanBegin(cfg, RowOf(s, id), id, op) && RowSound(cfg, id, RowOf(s, id), LedgerOf(s, id))
    ensures LiveSound(cfg, s, Handler(id, FirstPhase(cfg, RowOf(s, id), id, op)))
  {
  }

  lemma CrashSound(cfg: Config, s: Store, id: OrderId, p: Phase)
    requires forall k :: RowSound(cfg, k, RowOf(s, k), LedgerOf(s, k))
    ensures var s' := s.(ledger := s.ledger[id := AfterCrash(LedgerOf(s, id), p)]);
            StoreGrows(s, s') && forall k :: RowSound(cfg, k, RowOf(s', k), LedgerOf(s', k))
  {
    var s' := s.(ledger := s.ledger[id := AfterCrash(LedgerOf(s, id), p)]);
    forall k
      ensures RowSound(cfg, k, RowOf(s', k), LedgerOf(s', k))
    {
      assert RowSound(cfg, k, RowOf(s, k), LedgerOf(s, k));
    }
  }

  /** The store after a move has grown soundly, and so has the handler that moved. */
  lemma StoreStaysSound(cfg: Config, w: World, m: Move)
    requires Sound(cfg, w)
    ensures var w' := Apply(cfg, w, m);
            && StoreGrows(w.store, w'.store)
            && (forall k :: RowSound(cfg, k, RowOf(w'.store, k), LedgerOf(w'.store, k)))
            && (m.Begin? || m.Advance? ==> m.h in w'.live ==> LiveSound(cfg, w'.store, w'.live[m.h]))
  {
    hide Step;
    if Possible(cfg, w, m) {
      match m {
        case Begin(_, id, op) =>
          assert RowSound(cfg, id, RowOf(w.store, id), LedgerOf(w.store, id));
          BeginSound(cfg, w.store, id, op);
        case Advance(h, c) =>
          assert LiveSound(cfg, w.store, w.live[h]);
          CommitSound(cfg, w.store, w.live[h].id, w.live[h].phase, c);
        case Crash(h) =>
          CrashSound(cfg, w.store, w.live[h].id, w.live[h].phase);
        case Insert(reqs, _) =>
          InsertSound(cfg, w.store, reqs);
      }
    }
  }

  lemma ApplySound(cfg: Config, w: World, m: Move)
    requires Sound(cfg, w)
    ensures Sound(cfg, Apply(cfg, w, m))
  {
    hide Step, LiveSound, RowSound, Commit, FirstPhase, StoreGrows;
    var w' := Apply(cfg, w, m);
    StoreStaysSound(cfg, w, m);
    forall h | h in w'.live
      ensures LiveSound(cfg, w'.store, w'.live[h])
    {
      if !(m.Begin? || m.Advance?) || m.h != h {
        assert h in w.live && w'.live[h] == w.live[h];
        OthersSound(cfg, w.store, w'.store, w.live[h]);
      }
    }
  }

  lemma {:induction false} RunSound(cfg: Config, w: World, moves: seq<Move>)
    requires Sound(cfg, w)
    ensures Sound(cfg, Run(cfg, w, moves))
    ensures StoreGrows(w.store, Run(cfg, w, moves).store)
    decreases |moves|
  {
    hide Apply, RowSound, LiveSound;
    if moves != [] {
      var w1 := Apply(cfg, w, moves[0]);
      ApplySound(cfg, w, moves[0]);
      StoreStaysSound(cfg, w, moves[0]);
      RunSound(cfg, w1, moves[1..]);
      var s, s1, s2 := w.store, w1.store, Run(cfg, w, moves).store;
      forall id
        ensures Grows(RowOf(s, id), LedgerOf(s, id), RowOf(s2, id), LedgerOf(s2, id))
      {
        assert Grows(RowOf(s, id), LedgerOf(s, id), RowOf(s1, id), LedgerOf(s1, id));
        assert Grows(RowOf(s1, id), LedgerOf(s1, id), RowOf(s2, id), LedgerOf(s2, id));
      }
    }
  }

  lemma {:induction false} LogOnlyGrows(cfg: Config, w: World, moves: seq<Move>)
    ensures w.store.log <= Run(cfg, w, moves).store.log
    decreases |moves|
  {
    hide Step;
    if moves != [] {
      LogOnlyGrows(cfg, Apply(cfg, w, moves[0]), moves[1..]);
    }
  }

  // Main results

  /** Every row of every reachable state, under any interleaving and any crashes. */
  lemma AwbSoundness(cfg: Config, moves: seq<Move>, id: OrderId)
    ensures var s := Run(cfg, EMPTY_WORLD, moves).store;
            id in s.table ==>
              var row := s.table[id];
              && (row.awb.Some? ==> (id, row.awb.value) in LedgerOf(s, id).issued)
              && (row.status in {Created, PickedUp, InTransit, Delivered} ==> row.awb.Some?)
              && (row.retryCount == 0 || row.retryCount <= cfg.maxRetry)
              && row.payload.orderId == id
  {
    RunSound(cfg, EMPTY_WORLD, moves);
    var s := Run(cfg, EMPTY_WORLD, moves).store;
    assert RowSound(cfg, id, RowOf(s, id), LedgerOf(s, id));
  }

  /** Between any two instants of a run: rows stay, waybills stay set, the log only grows at its end. */
  lemma WaybillsSurvive(cfg: Config, before: seq<Move>, after: seq<Move>, id: OrderId)
    ensures var w := Run(cfg, EMPTY_WORLD, before);
            var w' := Run(cfg, w, after);
            && w.store.log <= w'.store.log
            && (id in w.store.table ==>
                  id in w'.store.table && (w.store.table[id].awb.Some? ==> w'.store.table[id].awb.Some?))
  {
    var w := Run(cfg, EMPTY_WORLD, before);
    var w' := Run(cfg, w, after);
    RunSound(cfg, EMPTY_WORLD, before);
    RunSound(cfg, w, after);
    LogOnlyGrows(cfg, w, after);
    assert Grows(RowOf(w.store, id), LedgerOf(w.store, id), RowOf(w'.store, id), LedgerOf(w'.store, id));
  }

  // Serialised runs are among the interleaved ones

  /** Each operation of the serialised world is a handler named after its order. */
  predicate Corresponds(v: S.World, w: World) {
    && v.store == w.store && w.live.Keys == v.live.Keys
    && forall id :: id in v.live ==> w.live[id] == Handler(id, v.live[id])
  }

  function Translate(m: S.Move): Move {
    match m
    case Begin(id, op) => Begin(id, id, op)
    case Advance(id, c) => Advance(id, c)
    case Crash(id) => Crash(id)
    case Insert(reqs, c) => Insert(reqs, c)
  }

  /** The moves that are possible, translated. */
  function TranslateRun(cfg: Config, v: S.World, moves: seq<S.Move>): seq<Move>
    decreases |moves|
  {
    if moves == [] then []
    else
      (if S.Possible(cfg, v, moves[0]) then [Translate(moves[0])] else [])
      + TranslateRun(cfg, S.Apply(cfg, v, moves[0]), moves[1..])
  }

  lemma MoveCorresponds(cfg: Config, v: S.World, w: World, m: S.Move)
    requires Corresponds(v, w) && S.Possible(cfg, v, m)
    ensures Corresponds(S.Apply(cfg, v, m), Apply(cfg, w, Translate(m)))
  {
    hide Step, BulkInsert;
  }

  /** Every serialised run is an interleaved run with the same database. */
  lemma {:induction false} SerialIsInterleaved(cfg: Config, v: S.World, w: World, moves: seq<S.Move>)
    requires Corresponds(v, w)
    ensures Corresponds(S.Run(cfg, v, moves), Run(cfg, w, TranslateRun(cfg, v, moves)))
    decreases |moves|
  {
    hide S.Apply, Apply, Corresponds, S.Possible;
    if moves != [] {
      var v1 := S.Apply(cfg, v, moves[0]);
      if S.Possible(cfg, v, moves[0]) {
        MoveCorresponds(cfg, v, w, moves[0]);
        var ms := TranslateRun(cfg, v, moves);
        assert ms[0] == Translate(moves[0]) && ms[1..] == TranslateRun(cfg, v1, moves[1..]);
        SerialIsInterleaved(cfg, v1, Apply(cfg, w, Translate(moves[0])), moves[1..]);
      } else {
        ImpossibleStutters(cfg, v, moves[0]);
        assert [] + TranslateRun(cfg, v1, moves[1..]) == TranslateRun(cfg, v1, moves[1..]);
        SerialIsInterleaved(cfg, v1, w, moves[1..]);
      }
    }
  }

  lemma ImpossibleStutters(cfg: Config, v: S.World, m: S.Move)
    requires !S.Possible(cfg, v, m)
    ensures S.Apply(cfg, v, m) == v
  {
  }
}
