/**
 * A bulk submission: `createOrder` for every item on the worker pool. Any interleaving of the
 * awaits of different items ends like running the items one by one.
 */
module Bulk {
  import opened Options
  import opened Orders
  import opened Lifecycle
  import opened Handlers
  import Outcomes
  import WorkerPool

  /**
   * What the outside world answers at each await of one item's createOrder: failing statements, applied or
   * not, refusals and hidden bookings included. The answers do not depend on how the items are interleaved.
   */
  type Oracle = Phase -> Choice

  type Oracles = nat -> Oracle

  datatype ItemResult = ItemSuccess(orderId: OrderId, awb: string) | ItemFailed(orderId: OrderId, error: Error)

  /** `processSingleOrderItem` never throws. */
  function ItemOf(req: Request, o: Outcome): ItemResult {
    match o
    case Booking(awb, _) => ItemSuccess(req.orderId, awb)
    case Threw(error) => ItemFailed(req.orderId, error)
    case _ => ItemFailed(req.orderId, CourierError)
  }

  predicate InCreate(p: Phase) {
    IsCreate(p) || p.Finished?
  }

  /** An answer that the await cannot get stands for a refusal or a statement that succeeds. */
  function Answer(oracle: Oracle, p: Phase): (c: Choice)
    ensures IsCreate(p) ==> Fits(p, c)
  {
    if Fits(p, oracle(p)) then oracle(p) else if p.CreateDispatch? then BookingFailed(0) else DbOk
  }

  /** What one order can see: its row, its ledger, its events, and its createOrder in progress. */
  datatype View = View(row: Option<Row>, led: Ledger, events: seq<Event>, phase: Phase)

  function ViewOf(s: Store, id: OrderId, p: Phase): View {
    View(RowOf(s, id), LedgerOf(s, id), EventsOf(s.log, id), p)
  }

  function LocalStep(cfg: Config, oracle: Oracle, id: OrderId, v: View): View
    requires IsCreate(v.phase)
  {
    var e := StepCreate(cfg, id, v.row, v.led, v.phase, Answer(oracle, v.phase));
    View(e.row, e.ledger, v.events + EventsOf(e.emitted, id), e.phase)
  }

  /** Awaits still to come. */
  function Remaining(p: Phase): nat {
    match p
    case CreateRead(_) => 5
    case CreatePending(_, _) => 4
    case CreateDispatch(_) => 3
    case CreateAudit => 2
    case CreatePersist(_, _) => 2
    case CreateEvent(_, _) => 1
    case _ => 0
  }

  /** createOrder to its end, as its order sees it. */
  function LocalRun(cfg: Config, oracle: Oracle, id: OrderId, v: View): View
    decreases Remaining(v.phase)
  {
    if IsCreate(v.phase) then LocalRun(cfg, oracle, id, LocalStep(cfg, oracle, id, v)) else v
  }

  // One await, in the store

  function StoreStep(cfg: Config, oracle: Oracle, s: Store, id: OrderId, p: Phase): Effect
    requires IsCreate(p)
  {
    StepAt(cfg, s, id, p, Answer(oracle, p))
  }

  predicate SameFor(s: Store, s': Store, id: OrderId) {
    RowOf(s', id) == RowOf(s, id) && LedgerOf(s', id) == LedgerOf(s, id) && EventsOf(s'.log, id) == EventsOf(s.log, id)
  }

  lemma EmitsOwnEvents(cfg: Config, id: OrderId, row: Option<Row>, led: Ledger, p: Phase, c: Choice)
    requires IsCreate(p) && Fits(p, c)
    ensures var e := StepCreate(cfg, id, row, led, p, c);
            && (e.emitted == [] || (|e.emitted| == 1 && e.emitted[0].orderId == id))
            && (row.Some? ==> e.row.Some?)
  {
  }

  lemma EventsOfOne(e: Event, id: OrderId)
    ensures EventsOf([e], id) == if e.orderId == id then [e] else []
  {
    assert [e][..0] == [];
  }

  /** How a committed effect looks to order `k`. */
  lemma CommitView(s: Store, id: OrderId, e: Effect, k: OrderId)
    requires e.emitted == [] || (|e.emitted| == 1 && e.emitted[0].orderId == id)
    requires RowOf(s, id).Some? ==> e.row.Some?
    ensures var s' := Commit(s, id, e);
            if k == id
            then RowOf(s', k) == e.row && LedgerOf(s', k) == e.ledger
                && EventsOf(s'.log, k) == EventsOf(s.log, k) + EventsOf(e.emitted, k)
            else SameFor(s, s', k)
  {
    EventsOfAppend(s.log, e.emitted, k);
    if e.emitted != [] {
      assert e.emitted == [e.emitted[0]];
      EventsOfOne(e.emitted[0], k);
    }
  }

  lemma StoreStepIsCreateStep(cfg: Config, oracle: Oracle, s: Store, id: OrderId, p: Phase)
    requires IsCreate(p)
    ensures Fits(p, Answer(oracle, p))
    ensures StoreStep(cfg, oracle, s, id, p) == StepCreate(cfg, id, RowOf(s, id), LedgerOf(s, id), p, Answer(oracle, p))
  {
  }

  /** A step is LocalStep for its own order and nothing for the others. */
  lemma StoreStepIsLocal(cfg: Config, oracle: Oracle, s: Store, id: OrderId, p: Phase, k: OrderId)
    requires IsCreate(p)
    ensures var e := StoreStep(cfg, oracle, s, id, p);
            var s' := Commit(s, id, e);
            && ViewOf(s', id, e.phase) == LocalStep(cfg, oracle, id, ViewOf(s, id, p))
            && (k != id ==> SameFor(s, s', k))
  {
    hide StepCreate, Step, Commit, Answer, Fits, EventsOf;
    StoreStepIsCreateStep(cfg, oracle, s, id, p);
    EmitsOwnEvents(cfg, id, RowOf(s, id), LedgerOf(s, id), p, Answer(oracle, p));
    var e := StoreStep(cfg, oracle, s, id, p);
    CommitView(s, id, e, id);
    CommitView(s, id, e, k);
  }

  lemma LocalRunStep(cfg: Config, oracle: Oracle, id: OrderId, v: View)
    requires IsCreate(v.phase)
    ensures LocalRun(cfg, oracle, id, v) == LocalRun(cfg, oracle, id, LocalStep(cfg, oracle, id, v))
  {
  }

  lemma StoreStepRemains(cfg: Config, oracle: Oracle, s: Store, id: OrderId, p: Phase)
    requires IsCreate(p)
    ensures var p' := StoreStep(cfg, oracle, s, id, p).phase; InCreate(p') && Remaining(p') < Remaining(p)
  {
  }

  // One by one

  datatype Solo = Solo(store: Store, outcome: Outcome)

  /** createOrder with nothing in between. */
  function RunSolo(cfg: Config, oracle: Oracle, s: Store, id: OrderId, p: Phase): Solo
    requires InCreate(p)
    decreases Remaining(p)
  {
    if p.Finished? then Solo(s, p.outcome)
    else
      var e := StoreStep(cfg, oracle, s, id, p);
      RunSolo(cfg, oracle, Commit(s, id, e), id, e.phase)
  }

  lemma {:induction false} SoloIsLocal(cfg: Config, oracle: Oracle, s: Store, id: OrderId, p: Phase, k: OrderId)
    requires InCreate(p)
    ensures var r := RunSolo(cfg, oracle, s, id, p);
            && ViewOf(r.store, id, Finished(r.outcome)) == LocalRun(cfg, oracle, id, ViewOf(s, id, p))
            && (k != id ==> SameFor(s, r.store, k))
    decreases Remaining(p)
  {
    if !p.Finished? {
      var e := StoreStep(cfg, oracle, s, id, p);
      StoreStepIsLocal(cfg, oracle, s, id, p, k);
      StoreStepRemains(cfg, oracle, s, id, p);
      LocalRunStep(cfg, oracle, id, ViewOf(s, id, p));
      hide StepCreate, LocalStep, ViewOf, Commit, StoreStep, LocalRun;
      SoloIsLocal(cfg, oracle, Commit(s, id, e), id, e.phase, k);
    }
  }

  /** The answers createOrder gets on its way. */
  function Answers(cfg: Config, oracle: Oracle, s: Store, id: OrderId, p: Phase): seq<Choice>
    requires InCreate(p)
    decreases Remaining(p)
  {
    if p.Finished? then []
    else
      var e := StoreStep(cfg, oracle, s, id, p);
      [Answer(oracle, p)] + Answers(cfg, oracle, Commit(s, id, e), id, e.phase)
  }

  /** It is the createOrder of the other modules, with those answers. */
  lemma {:induction false} SoloIsHandle(cfg: Config, oracle: Oracle, s: Store, id: OrderId, p: Phase)
    requires InCreate(p)
    ensures var r := RunSolo(cfg, oracle, s, id, p);
            Handle(cfg, s, id, p, Answers(cfg, oracle, s, id, p)) == Ending(r.store, [], Some(r.outcome))
    decreases Remaining(p)
  {
    if p.Finished? {
      HandleDone(cfg, s, id, p, []);
    } else {
      var e := StoreStep(cfg, oracle, s, id, p);
      StoreStepRemains(cfg, oracle, s, id, p);
      StoreStepIsCreateStep(cfg, oracle, s, id, p);
      hide StepCreate, Step, Commit, Answer, Handle;
      var script := Answers(cfg, oracle, s, id, p);
      assert script[1..] == Answers(cfg, oracle, Commit(s, id, e), id, e.phase);
      Unfold(cfg, s, id, p, script);
      SoloIsHandle(cfg, oracle, Commit(s, id, e), id, e.phase);
    }
  }

  datatype Batch = Batch(store: Store, results: seq<ItemResult>)

  /** The items in index order, each to its end. */
  function OneByOne(cfg: Config, oracles: Oracles, s: Store, reqs: seq<Request>): Batch {
    if reqs == [] then Batch(s, [])
    else
      var last := reqs[|reqs| - 1];
      var b := OneByOne(cfg, oracles, s, reqs[..|reqs| - 1]);
      var r := RunSolo(cfg, oracles(|reqs| - 1), b.store, last.orderId, CreateRead(last));
      Batch(r.store, b.results + [ItemOf(last, r.outcome)])
  }

  predicate Distinct(reqs: seq<Request>) {
    forall i, j :: 0 <= i < j < |reqs| ==> reqs[i].orderId != reqs[j].orderId
  }

  /** The fate of one item, from the state before the batch. */
  function Fate(cfg: Config, oracle: Oracle, s: Store, req: Request): View {
    LocalRun(cfg, oracle, req.orderId, ViewOf(s, req.orderId, CreateRead(req)))
  }

  /** A batch has ended as each item's fate says, and other orders are as before. */
  ghost predicate Fated(cfg: Config, oracles: Oracles, s: Store, reqs: seq<Request>, b: Batch) {
    && |b.results| == |reqs|
    && (forall i :: 0 <= i < |reqs| ==> ItemFated(cfg, oracles(i), s, reqs[i], b.store, b.results[i]))
    && (forall k :: (forall i :: 0 <= i < |reqs| ==> reqs[i].orderId != k) ==> SameFor(s, b.store, k))
  }

  predicate ItemFated(cfg: Config, oracle: Oracle, s: Store, req: Request, s': Store, r: ItemResult) {
    var f := Fate(cfg, oracle, s, req);
    && f.phase.Finished? && r == ItemOf(req, f.phase.outcome)
    && ViewOf(s', req.orderId, f.phase) == f
  }

  /** Running one more item, of an order the others do not touch, keeps their fates and meets its own. */
  lemma OneMoreItem(cfg: Config, oracles: Oracles, s: Store, reqs: seq<Request>, b: Batch, r: Solo)
    requires Distinct(reqs) && reqs != []
    requires Fated(cfg, oracles, s, reqs[..|reqs| - 1], b)
    requires var last := reqs[|reqs| - 1];
             r == RunSolo(cfg, oracles(|reqs| - 1), b.store, last.orderId, CreateRead(last))
    ensures Fated(cfg, oracles, s, reqs, Batch(r.store, b.results + [ItemOf(reqs[|reqs| - 1], r.outcome)]))
  {
    hide LocalRun, RunSolo, EventsOf, LedgerOf, Distinct;
    var n := |reqs| - 1;
    var init, last := reqs[..n], reqs[n];
    assert forall i :: 0 <= i < n ==> init[i] == reqs[i];
    assert SameFor(s, b.store, last.orderId) by { DistinctLast(reqs); }
    SoloIsLocal(cfg, oracles(n), b.store, last.orderId, CreateRead(last), last.orderId);
    assert ViewOf(r.store, last.orderId, Finished(r.outcome)) == Fate(cfg, oracles(n), s, last);
    forall k | k != last.orderId
      ensures SameFor(b.store, r.store, k)
    {
      SoloIsLocal(cfg, oracles(n), b.store, last.orderId, CreateRead(last), k);
    }
    forall i | 0 <= i < |reqs|
      ensures ItemFated(cfg, oracles(i), s, reqs[i], r.store, (b.results + [ItemOf(last, r.outcome)])[i])
    {
      if i < n {
        DistinctLast(reqs);
        assert ItemFated(cfg, oracles(i), s, init[i], b.store, b.results[i]);
        assert SameFor(b.store, r.store, reqs[i].orderId);
      }
    }
    forall k | forall i :: 0 <= i < |reqs| ==> reqs[i].orderId != k
      ensures SameFor(s, r.store, k)
    {
      assert SameFor(s, b.store, k) && SameFor(b.store, r.store, k);
    }
  }

  lemma DistinctLast(reqs: seq<Request>)
    requires Distinct(reqs) && reqs != []
    ensures forall i :: 0 <= i < |reqs| - 1 ==> reqs[i].orderId != reqs[|reqs| - 1].orderId
  {
  }

  lemma {:induction false} OneByOneFated(cfg: Config, oracles: Oracles, s: Store, reqs: seq<Request>)
    requires Distinct(reqs)
    ensures Fated(cfg, oracles, s, reqs, OneByOne(cfg, oracles, s, reqs))
  {
    if reqs != [] {
      hide Fated, RunSolo;
      var init, last := reqs[..|reqs| - 1], reqs[|reqs| - 1];
      OneByOneFated(cfg, oracles, s, init);
      var b := OneByOne(cfg, oracles, s, init);
      OneMoreItem(cfg, oracles, s, reqs, b, RunSolo(cfg, oracles(|reqs| - 1), b.store, last.orderId, CreateRead(last)));
    }
  }

  // On the pool

  /** `phases[i]` is where item `i`'s createOrder stands; the pool knows which worker runs it. */
  datatype World = World(store: Store, phases: seq<Phase>, pool: WorkerPool.Pool<ItemResult>)

  function Launch(s: Store, reqs: seq<Request>, limit: int): World
    requires |reqs| > 0
  {
    World(s, seq(|reqs|, i requires 0 <= i < |reqs| => CreateRead(reqs[i])), WorkerPool.Start(|reqs|, limit))
  }

  /** Worker `k` can be resumed. */
  predicate Ready(reqs: seq<Request>, w: World, k: nat) {
    && WorkerPool.Busy(w.pool, k) && |w.phases| == |reqs| == |w.pool.results|
    && w.pool.slots[k].value < |reqs| && IsCreate(w.phases[w.pool.slots[k].value])
  }

  /** Worker `k`'s createOrder runs to its next await; if that was the last, the worker takes its next item. */
  function Resume(cfg: Config, oracles: Oracles, reqs: seq<Request>, w: World, k: nat): World
    requires Ready(reqs, w, k)
  {
    var i := w.pool.slots[k].value;
    var e := StoreStep(cfg, oracles(i), w.store, reqs[i].orderId, w.phases[i]);
    var pool := if e.phase.Finished? then WorkerPool.Complete(w.pool, k, ItemOf(reqs[i], e.phase.outcome)) else w.pool;
    World(Commit(w.store, reqs[i].orderId, e), w.phases[i := e.phase], pool)
  }

  /** A schedule names the worker that is resumed next; naming an idle worker is void. */
  function Play(cfg: Config, oracles: Oracles, reqs: seq<Request>, w: World, schedule: seq<nat>): World
    decreases |schedule|
  {
    if schedule == [] then w
    else
      Play(cfg, oracles, reqs,
           if Ready(reqs, w, schedule[0]) then Resume(cfg, oracles, reqs, w, schedule[0]) else w, schedule[1..])
  }

  /** Item `i`'s result is there exactly when its createOrder has ended. */
  predicate Accounted(reqs: seq<Request>, w: World, i: nat)
    requires i < |reqs| == |w.phases| == |w.pool.results|
  {
    && InCreate(w.phases[i])
    && w.pool.results[i] == if w.phases[i].Finished? then Some(ItemOf(reqs[i], w.phases[i].outcome)) else None
  }

  /** Item `i` is on the way to its fate. */
  predicate OnTheWay(cfg: Config, oracles: Oracles, s: Store, reqs: seq<Request>, w: World, i: nat)
    requires i < |reqs| == |w.phases|
  {
    && InCreate(w.phases[i])
    && LocalRun(cfg, oracles(i), reqs[i].orderId, ViewOf(w.store, reqs[i].orderId, w.phases[i]))
         == Fate(cfg, oracles(i), s, reqs[i])
  }

  /** Any batch keeps its accounts and leaves other orders alone; distinct items also keep to their fates. */
  ghost predicate Inv(cfg: Config, oracles: Oracles, s: Store, reqs: seq<Request>, w: World) {
    && |w.phases| == |reqs| == |w.pool.results| == w.pool.n && |w.pool.slots| > 0
    && WorkerPool.Inv(w.pool)
    && (forall i :: 0 <= i < |reqs| ==> Accounted(reqs, w, i))
    && (Distinct(reqs) ==> forall i :: 0 <= i < |reqs| ==> OnTheWay(cfg, oracles, s, reqs, w, i))
    && (forall k :: (forall i :: 0 <= i < |reqs| ==> reqs[i].orderId != k) ==> SameFor(s, w.store, k))
  }

  lemma LaunchInv(cfg: Config, oracles: Oracles, s: Store, reqs: seq<Request>, limit: int)
    requires |reqs| > 0
    ensures Inv(cfg, oracles, s, reqs, Launch(s, reqs, limit))
  {
    hide LocalRun;
    WorkerPool.StartInv<ItemResult>(|reqs|, limit);
  }

  /** A busy worker can always be resumed. */
  lemma BusyIsReady(cfg: Config, oracles: Oracles, s: Store, reqs: seq<Request>, w: World, k: nat)
    requires Inv(cfg, oracles, s, reqs, w) && WorkerPool.Busy(w.pool, k)
    ensures Ready(reqs, w, k)
  {
    var i := w.pool.slots[k].value;
    assert Accounted(reqs, w, i);
  }

  lemma ResumedAccounts(cfg: Config, oracles: Oracles, s: Store, reqs: seq<Request>, w: World, k: nat, j: nat)
    requires Inv(cfg, oracles, s, reqs, w) && Ready(reqs, w, k) && j < |reqs|
    ensures Accounted(reqs, Resume(cfg, oracles, reqs, w, k), j)
  {
    var i := w.pool.slots[k].value;
    assert Accounted(reqs, w, i) && Accounted(reqs, w, j);
    StoreStepRemains(cfg, oracles(i), w.store, reqs[i].orderId, w.phases[i]);
    hide StoreStep, Commit, ItemOf;
  }

  lemma ResumedItem(cfg: Config, oracles: Oracles, s: Store, reqs: seq<Request>, w: World, k: nat)
    requires Inv(cfg, oracles, s, reqs, w) && Ready(reqs, w, k) && Distinct(reqs)
    ensures OnTheWay(cfg, oracles, s, reqs, Resume(cfg, oracles, reqs, w, k), w.pool.slots[k].value)
  {
    var i := w.pool.slots[k].value;
    var id := reqs[i].orderId;
    assert OnTheWay(cfg, oracles, s, reqs, w, i);
    StoreStepIsLocal(cfg, oracles(i), w.store, id, w.phases[i], id);
    LocalRunStep(cfg, oracles(i), id, ViewOf(w.store, id, w.phases[i]));
    StoreStepRemains(cfg, oracles(i), w.store, id, w.phases[i]);
    hide LocalRun, StepCreate, LocalStep, ViewOf, Commit, StoreStep, WorkerPool.Inv;
  }

  lemma OtherItem(cfg: Config, oracles: Oracles, s: Store, reqs: seq<Request>, w: World, k: nat, j: nat)
    requires Inv(cfg, oracles, s, reqs, w) && Ready(reqs, w, k) && Distinct(reqs)
    requires j < |reqs| && j != w.pool.slots[k].value
    ensures OnTheWay(cfg, oracles, s, reqs, Resume(cfg, oracles, reqs, w, k), j)
  {
    var i := w.pool.slots[k].value;
    assert OnTheWay(cfg, oracles, s, reqs, w, j);
    StoreStepIsLocal(cfg, oracles(i), w.store, reqs[i].orderId, w.phases[i], reqs[j].orderId);
    hide LocalRun, StepCreate, LocalStep, Commit, StoreStep;
  }

  lemma ResumeInv(cfg: Config, oracles: Oracles, s: Store, reqs: seq<Request>, w: World, k: nat)
    requires Inv(cfg, oracles, s, reqs, w) && Ready(reqs, w, k)
    ensures Inv(cfg, oracles, s, reqs, Resume(cfg, oracles, reqs, w, k))
  {
    hide LocalRun, StepCreate, LocalStep, Commit, StoreStep, Accounted, OnTheWay, SameFor, WorkerPool.Inv;
    var w' := Resume(cfg, oracles, reqs, w, k);
    var i := w.pool.slots[k].value;
    if w'.phases[i].Finished? {
      WorkerPool.CompleteInv(w.pool, k, ItemOf(reqs[i], w'.phases[i].outcome));
    }
    forall j | 0 <= j < |reqs|
      ensures Accounted(reqs, w', j)
    {
      ResumedAccounts(cfg, oracles, s, reqs, w, k, j);
    }
    forall j | 0 <= j < |reqs| && Distinct(reqs)
      ensures OnTheWay(cfg, oracles, s, reqs, w', j)
    {
      if j == i { ResumedItem(cfg, oracles, s, reqs, w, k); }
      else { OtherItem(cfg, oracles, s, reqs, w, k, j); }
    }
    forall x | forall j :: 0 <= j < |reqs| ==> reqs[j].orderId != x
      ensures SameFor(s, w'.store, x)
    {
      OtherOrder(cfg, oracles, s, reqs, w, k, x);
    }
  }

  lemma OtherOrder(cfg: Config, oracles: Oracles, s: Store, reqs: seq<Request>, w: World, k: nat, x: OrderId)
    requires Ready(reqs, w, k) && SameFor(s, w.store, x) && x != reqs[w.pool.slots[k].value].orderId
    ensures SameFor(s, Resume(cfg, oracles, reqs, w, k).store, x)
  {
    var i := w.pool.slots[k].value;
    StoreStepIsLocal(cfg, oracles(i), w.store, reqs[i].orderId, w.phases[i], x);
    hide StepCreate, Commit, StoreStep;
  }

  lemma {:induction false} PlayInv(
    cfg: Config, oracles: Oracles, s: Store, reqs: seq<Request>, w: World, schedule: seq<nat>
  )
    requires Inv(cfg, oracles, s, reqs, w)
    ensures Inv(cfg, oracles, s, reqs, Play(cfg, oracles, reqs, w, schedule))
    decreases |schedule|
  {
    hide Inv, Resume;
    if schedule != [] {
      if Ready(reqs, w, schedule[0]) {
        ResumeInv(cfg, oracles, s, reqs, w, schedule[0]);
      }
      PlayInv(cfg, oracles, s, reqs,
              if Ready(reqs, w, schedule[0]) then Resume(cfg, oracles, reqs, w, schedule[0]) else w, schedule[1..]);
    }
  }

  ghost predicate AllIdle(w: World) {
    forall k :: 0 <= k < |w.pool.slots| ==> w.pool.slots[k].None?
  }

  function ResultsOf(w: World): seq<ItemResult>
    requires forall i :: 0 <= i < |w.pool.results| ==> w.pool.results[i].Some?
  {
    seq(|w.pool.results|, i requires 0 <= i < |w.pool.results| => w.pool.results[i].value)
  }

  /** One result per item, in the items' order. */
  predicate Answered(reqs: seq<Request>, results: seq<ItemResult>) {
    |results| == |reqs| && forall i :: 0 <= i < |reqs| ==> results[i].orderId == reqs[i].orderId
  }

  lemma IdleIsFated(cfg: Config, oracles: Oracles, s: Store, reqs: seq<Request>, w: World)
    requires Inv(cfg, oracles, s, reqs, w) && AllIdle(w)
    ensures forall i :: 0 <= i < |w.pool.results| ==> w.pool.results[i].Some?
    ensures Answered(reqs, ResultsOf(w))
    ensures Distinct(reqs) ==> Fated(cfg, oracles, s, reqs, Batch(w.store, ResultsOf(w)))
  {
    WorkerPool.IdleIsComplete(w.pool);
    forall i | 0 <= i < |reqs|
      ensures w.phases[i].Finished? && ResultsOf(w)[i] == ItemOf(reqs[i], w.phases[i].outcome)
    {
      assert Accounted(reqs, w, i);
    }
    forall i | 0 <= i < |reqs| && Distinct(reqs)
      ensures ItemFated(cfg, oracles(i), s, reqs[i], w.store, ResultsOf(w)[i])
    {
      assert OnTheWay(cfg, oracles, s, reqs, w, i);
    }
  }

  /** Two endings that agree with the fates agree with each other. */
  lemma FatedAgree(cfg: Config, oracles: Oracles, s: Store, reqs: seq<Request>, a: Batch, b: Batch)
    requires Fated(cfg, oracles, s, reqs, a) && Fated(cfg, oracles, s, reqs, b)
    ensures a.results == b.results && a.store.table == b.store.table
    ensures forall k :: EventsOf(a.store.log, k) == EventsOf(b.store.log, k)
    ensures forall k :: LedgerOf(a.store, k) == LedgerOf(b.store, k)
  {
    hide LocalRun, EventsOf, LedgerOf;
    forall i | 0 <= i < |reqs|
      ensures a.results[i] == b.results[i]
    {
      assert ItemFated(cfg, oracles(i), s, reqs[i], a.store, a.results[i]);
      assert ItemFated(cfg, oracles(i), s, reqs[i], b.store, b.results[i]);
    }
    forall k
      ensures SameFor(a.store, b.store, k)
    {
      if i :| 0 <= i < |reqs| && reqs[i].orderId == k {
        assert ItemFated(cfg, oracles(i), s, reqs[i], a.store, a.results[i]);
        assert ItemFated(cfg, oracles(i), s, reqs[i], b.store, b.results[i]);
      } else {
        assert SameFor(s, a.store, k) && SameFor(s, b.store, k);
      }
    }
    forall k
      ensures k in a.store.table <==> k in b.store.table
      ensures k in a.store.table ==> a.store.table[k] == b.store.table[k]
      ensures EventsOf(a.store.log, k) == EventsOf(b.store.log, k) && LedgerOf(a.store, k) == LedgerOf(b.store, k)
    {
      assert SameFor(a.store, b.store, k);
    }
  }

  /**
   * Bulk serialisability: under any limit and any schedule that lets the pool finish, the order table,
   * every order's events and the results array are those of running the items one by one.
   */
  lemma BulkSerialisable(cfg: Config, oracles: Oracles, s: Store, reqs: seq<Request>, limit: int, schedule: seq<nat>)
    requires |reqs| > 0 && Distinct(reqs)
    requires AllIdle(Play(cfg, oracles, reqs, Launch(s, reqs, limit), schedule))
    ensures var w := Play(cfg, oracles, reqs, Launch(s, reqs, limit), schedule);
            var oneByOne := OneByOne(cfg, oracles, s, reqs);
            && (forall i :: 0 <= i < |w.pool.results| ==> w.pool.results[i].Some?)
            && ResultsOf(w) == oneByOne.results
            && w.store.table == oneByOne.store.table
            && forall k :: EventsOf(w.store.log, k) == EventsOf(oneByOne.store.log, k)
  {
    hide Inv, Fated, OneByOne;
    LaunchInv(cfg, oracles, s, reqs, limit);
    PlayInv(cfg, oracles, s, reqs, Launch(s, reqs, limit), schedule);
    var w := Play(cfg, oracles, reqs, Launch(s, reqs, limit), schedule);
    IdleIsFated(cfg, oracles, s, reqs, w);
    OneByOneFated(cfg, oracles, s, reqs);
    FatedAgree(cfg, oracles, s, reqs, Batch(w.store, ResultsOf(w)), OneByOne(cfg, oracles, s, reqs));
  }

  // The run ends

  function Work(phases: seq<Phase>): nat {
    if phases == [] then 0 else Work(phases[..|phases| - 1]) + Remaining(phases[|phases| - 1])
  }

  lemma {:induction false} WorkUpdate(phases: seq<Phase>, i: nat, p: Phase)
    requires i < |phases|
    ensures Work(phases[i := p]) == Work(phases) - Remaining(phases[i]) + Remaining(p)
  {
    var last := |phases| - 1;
    if i == last {
      assert phases[i := p][..last] == phases[..last];
    } else {
      assert phases[i := p][..last] == phases[..last][i := p];
      WorkUpdate(phases[..last], i, p);
    }
  }

  lemma {:induction false} WorkAtLaunch(reqs: seq<Request>)
    ensures Work(seq(|reqs|, i requires 0 <= i < |reqs| => CreateRead(reqs[i]))) == 5 * |reqs|
  {
    if reqs != [] {
      var init := reqs[..|reqs| - 1];
      var phases := seq(|reqs|, i requires 0 <= i < |reqs| => CreateRead(reqs[i]));
      assert phases[..|phases| - 1] == seq(|init|, i requires 0 <= i < |init| => CreateRead(init[i]));
      WorkAtLaunch(init);
    }
  }

  /** Whatever the schedule, while a worker is busy it can be resumed,
      which leaves less to do: 5 awaits per item at most. */
  lemma EveryResumeCounts(
    cfg: Config, oracles: Oracles, s: Store, reqs: seq<Request>, limit: int, schedule: seq<nat>, k: nat
  )
    requires |reqs| > 0
    requires WorkerPool.Busy(Play(cfg, oracles, reqs, Launch(s, reqs, limit), schedule).pool, k)
    ensures var w := Play(cfg, oracles, reqs, Launch(s, reqs, limit), schedule);
            Ready(reqs, w, k) && Work(Resume(cfg, oracles, reqs, w, k).phases) < Work(w.phases) <= 5 * |reqs|
  {
    var w0 := Launch(s, reqs, limit);
    LaunchInv(cfg, oracles, s, reqs, limit);
    WorkAtLaunch(reqs);
    PlayInv(cfg, oracles, s, reqs, w0, schedule);
    PlayShrinks(cfg, oracles, reqs, w0, schedule);
    var w := Play(cfg, oracles, reqs, w0, schedule);
    BusyIsReady(cfg, oracles, s, reqs, w, k);
    ResumeShrinks(cfg, oracles, reqs, w, k);
  }

  lemma ResumeShrinks(cfg: Config, oracles: Oracles, reqs: seq<Request>, w: World, k: nat)
    requires Ready(reqs, w, k)
    ensures Work(Resume(cfg, oracles, reqs, w, k).phases) < Work(w.phases)
  {
    var i := w.pool.slots[k].value;
    var id := reqs[i].orderId;
    StoreStepRemains(cfg, oracles(i), w.store, id, w.phases[i]);
    WorkUpdate(w.phases, i, StoreStep(cfg, oracles(i), w.store, id, w.phases[i]).phase);
    hide StepCreate, StoreStep, Commit;
  }

  lemma {:induction false} PlayShrinks(cfg: Config, oracles: Oracles, reqs: seq<Request>, w: World, schedule: seq<nat>)
    ensures Work(Play(cfg, oracles, reqs, w, schedule).phases) <= Work(w.phases)
    decreases |schedule|
  {
    hide Resume;
    if schedule != [] {
      if Ready(reqs, w, schedule[0]) {
        ResumeShrinks(cfg, oracles, reqs, w, schedule[0]);
      }
      PlayShrinks(cfg, oracles, reqs,
                  if Ready(reqs, w, schedule[0]) then Resume(cfg, oracles, reqs, w, schedule[0]) else w, schedule[1..]);
    }
  }

  // The limit

  /** Between its first await and its last. */
  predicate UnderWay(p: Phase) {
    IsCreate(p) && !p.CreateRead?
  }

  /** Every item under way is in some worker's hands. */
  ghost predicate InHand(w: World) {
    |w.phases| == w.pool.n && forall i :: 0 <= i < |w.phases| && UnderWay(w.phases[i]) ==> WorkerPool.Owned(w.pool, i)
  }

  lemma ResumeInHand(cfg: Config, oracles: Oracles, s: Store, reqs: seq<Request>, w: World, k: nat)
    requires Inv(cfg, oracles, s, reqs, w) && Ready(reqs, w, k) && InHand(w)
    ensures var w' := Resume(cfg, oracles, reqs, w, k); InHand(w') && |w'.pool.slots| == |w.pool.slots|
  {
    hide StoreStep, Commit, ItemOf, OnTheWay, SameFor;
    var w' := Resume(cfg, oracles, reqs, w, k);
    var j := w.pool.slots[k].value;
    forall i | 0 <= i < |w'.phases| && UnderWay(w'.phases[i])
      ensures WorkerPool.Owned(w'.pool, i)
    {
      if i == j {
        assert w'.pool.slots[k] == Some(i);
      } else {
        assert WorkerPool.Owned(w.pool, i);
        var g :| 0 <= g < |w.pool.slots| && w.pool.slots[g] == Some(i);
        assert w'.pool.slots[g] == Some(i);
      }
    }
  }

  lemma {:induction false} PlayInHand(
    cfg: Config, oracles: Oracles, s: Store, reqs: seq<Request>, w: World, schedule: seq<nat>
  )
    requires Inv(cfg, oracles, s, reqs, w) && InHand(w)
    ensures var w' := Play(cfg, oracles, reqs, w, schedule); InHand(w') && |w'.pool.slots| == |w.pool.slots|
    decreases |schedule|
  {
    hide Inv, Resume, InHand;
    if schedule != [] {
      if Ready(reqs, w, schedule[0]) {
        ResumeInv(cfg, oracles, s, reqs, w, schedule[0]);
        ResumeInHand(cfg, oracles, s, reqs, w, schedule[0]);
      }
      PlayInHand(cfg, oracles, s, reqs,
                 if Ready(reqs, w, schedule[0]) then Resume(cfg, oracles, reqs, w, schedule[0]) else w, schedule[1..]);
    }
  }

  lemma {:induction false} NoMoreThanSlots(slots: seq<Option<nat>>, held: set<nat>)
    requires forall i :: i in held ==> exists k :: 0 <= k < |slots| && slots[k] == Some(i)
    ensures |held| <= |slots|
  {
    if slots == [] {
      assert held == {};
    } else {
      var last := |slots| - 1;
      var rest := if slots[last].Some? then held - {slots[last].value} else held;
      forall i | i in rest
        ensures exists k :: 0 <= k < last && slots[..last][k] == Some(i)
      {
        var k :| 0 <= k < |slots| && slots[k] == Some(i);
        assert slots[..last][k] == Some(i);
      }
      NoMoreThanSlots(slots[..last], rest);
    }
  }

  function ItemsUnderWay(w: World): set<nat> {
    set i | 0 <= i < |w.phases| && UnderWay(w.phases[i])
  }

  /** Under every schedule the pool is as busy as the limit and the items left allow, and no item is under way
      outside it. */
  lemma LimitIsKept(cfg: Config, oracles: Oracles, s: Store, reqs: seq<Request>, limit: int, schedule: seq<nat>)
    requires |reqs| > 0
    ensures var w := Play(cfg, oracles, reqs, Launch(s, reqs, limit), schedule);
            && |ItemsUnderWay(w)| <= (if limit < 1 then 1 else limit)
            && WorkerPool.BusyCount(w.pool.slots)
                 == WorkerPool.Min(if limit < 1 then 1 else limit, |reqs| - w.pool.done)
  {
    hide Play;
    var w := Play(cfg, oracles, reqs, Launch(s, reqs, limit), schedule);
    LaunchInv(cfg, oracles, s, reqs, limit);
    PlayInHand(cfg, oracles, s, reqs, Launch(s, reqs, limit), schedule);
    PlayInv(cfg, oracles, s, reqs, Launch(s, reqs, limit), schedule);
    NoMoreThanSlots(w.pool.slots, ItemsUnderWay(w));
    WorkerPool.InFlightNow(w.pool, limit);
  }

  lemma {:induction false} PlaySnoc(
    cfg: Config, oracles: Oracles, reqs: seq<Request>, w: World, schedule: seq<nat>, k: nat
  )
    requires Ready(reqs, Play(cfg, oracles, reqs, w, schedule), k)
    ensures Play(cfg, oracles, reqs, w, schedule + [k])
              == Resume(cfg, oracles, reqs, Play(cfg, oracles, reqs, w, schedule), k)
    decreases |schedule|
  {
    hide Resume;
    if schedule == [] {
      assert schedule + [k] == [k] && [k][1..] == [];
    } else {
      assert (schedule + [k])[1..] == schedule[1..] + [k];
      PlaySnoc(cfg, oracles, reqs,
               if Ready(reqs, w, schedule[0]) then Resume(cfg, oracles, reqs, w, schedule[0]) else w, schedule[1..], k);
    }
  }

  // The batch record

  datatype BatchStatus = Completed | PartialSuccess | AllFailed

  datatype Summary = Summary(successful: nat, failed: int, status: BatchStatus)

  function CountSuccesses(results: seq<ItemResult>): nat {
    if results == [] then 0
    else CountSuccesses(results[..|results| - 1]) + if results[|results| - 1].ItemSuccess? then 1 else 0
  }

  function CalculateBatchSummary(results: seq<ItemResult>, total: nat): Summary {
    var successful := CountSuccesses(results);
    var failed := total - successful;
    var status := if failed == 0 then Completed else if successful == 0 then AllFailed else PartialSuccess;
    Summary(successful, failed, status)
  }

  lemma {:induction false} CountBounds(results: seq<ItemResult>)
    ensures CountSuccesses(results) <= |results|
    ensures CountSuccesses(results) == |results| <==> forall i :: 0 <= i < |results| ==> results[i].ItemSuccess?
    ensures CountSuccesses(results) == 0 <==> forall i :: 0 <= i < |results| ==> results[i].ItemFailed?
  {
    if results != [] {
      var init := results[..|results| - 1];
      CountBounds(init);
      assert forall i :: 0 <= i < |init| ==> init[i] == results[i];
    }
  }

  /** The totals add up, and the three final states say all, none and some (an empty batch is COMPLETED). */
  lemma SummaryMeaning(results: seq<ItemResult>)
    ensures var s := CalculateBatchSummary(results, |results|);
            && s.successful + s.failed == |results| && s.failed >= 0
            && (s.status == Completed <==> forall i :: 0 <= i < |results| ==> results[i].ItemSuccess?)
            && (s.status == AllFailed <==> results != [] && forall i :: 0 <= i < |results| ==> results[i].ItemFailed?)
  {
    CountBounds(results);
  }

  /** Rows of the batch that ended up neither pending nor failed. */
  function CountSettled(s: Store, reqs: seq<Request>): nat {
    if reqs == [] then 0
    else CountSettled(s, reqs[..|reqs| - 1]) + if NeedsBooking(RowOf(s, reqs[|reqs| - 1].orderId)) then 0 else 1
  }

  /** A database error makes the item fail although its order is, or has just been, booked. */
  predicate ItemMisled(cfg: Config, oracle: Oracle, s: Store, req: Request) {
    var p := CreateRead(req);
    Outcomes.Misled(cfg, s, req.orderId, p, Answers(cfg, oracle, s, req.orderId, p))
  }

  function CountMisled(cfg: Config, oracles: Oracles, s: Store, reqs: seq<Request>): nat {
    if reqs == [] then 0
    else
      CountMisled(cfg, oracles, s, reqs[..|reqs| - 1])
      + if ItemMisled(cfg, oracles(|reqs| - 1), s, reqs[|reqs| - 1]) then 1 else 0
  }

  /** An item that succeeded has a settled row; one that failed has one exactly if it was misled. */
  lemma FatedItemAgrees(cfg: Config, oracle: Oracle, s: Store, req: Request, s': Store, r: ItemResult)
    requires ItemFated(cfg, oracle, s, req, s', r)
    ensures r.orderId == req.orderId
    ensures r.ItemSuccess? ==>
              var row := RowOf(s', req.orderId);
              && !NeedsBooking(row) && r.awb == (if row.value.awb.Some? then row.value.awb.value else "")
    ensures r.ItemFailed? ==>
              var p := CreateRead(req);
              Handle(cfg, s, req.orderId, p, Answers(cfg, oracle, s, req.orderId, p)).outcome == Some(Threw(r.error))
    ensures ItemMisled(cfg, oracle, s, req) <==> r.ItemFailed? && !NeedsBooking(RowOf(s', req.orderId))
  {
    var id, p := req.orderId, CreateRead(req);
    var script := Answers(cfg, oracle, s, id, p);
    SoloIsHandle(cfg, oracle, s, id, p);
    SoloIsLocal(cfg, oracle, s, id, p, id);
    Outcomes.AgreesFrom(cfg, s, id, p, script);
    Outcomes.CreateOrderOutcomes(cfg, s, req, script);
    hide Handle, LocalRun, RunSolo, Answers, Outcomes.Misled;
  }

  lemma {:induction false} CountsAgree(
    cfg: Config, oracles: Oracles, s: Store, reqs: seq<Request>, s': Store, results: seq<ItemResult>
  )
    requires |results| == |reqs|
    requires forall i :: 0 <= i < |reqs| ==> ItemFated(cfg, oracles(i), s, reqs[i], s', results[i])
    ensures CountSettled(s', reqs) == CountSuccesses(results) + CountMisled(cfg, oracles, s, reqs)
  {
    hide ItemFated, ItemMisled;
    if reqs != [] {
      var last := |reqs| - 1;
      CountsAgree(cfg, oracles, s, reqs[..last], s', results[..last]);
      FatedItemAgrees(cfg, oracles(last), s, reqs[last], s', results[last]);
    }
  }

  /**
   * The batch record against the table, exactly: each item's result agrees with its row unless the item was
   * misled, and the rows the record misses are as many as the misled items.
   */
  lemma BatchAgreesWithTable(cfg: Config, oracles: Oracles, s: Store, reqs: seq<Request>, b: Batch)
    requires Fated(cfg, oracles, s, reqs, b)
    ensures forall i :: 0 <= i < |reqs| && b.results[i].ItemSuccess? ==>
              var row := RowOf(b.store, reqs[i].orderId);
              row.Some? && b.results[i].awb == if row.value.awb.Some? then row.value.awb.value else ""
    ensures forall i :: 0 <= i < |reqs| ==>
              ((b.results[i].ItemSuccess? <==> !NeedsBooking(RowOf(b.store, reqs[i].orderId)))
                 <==> !ItemMisled(cfg, oracles(i), s, reqs[i]))
    ensures CountSettled(b.store, reqs)
              == CalculateBatchSummary(b.results, |reqs|).successful + CountMisled(cfg, oracles, s, reqs)
  {
    hide ItemFated, ItemMisled;
    forall i | 0 <= i < |reqs|
      ensures b.results[i].ItemSuccess? ==>
                var row := RowOf(b.store, reqs[i].orderId);
                row.Some? && b.results[i].awb == if row.value.awb.Some? then row.value.awb.value else ""
      ensures (b.results[i].ItemSuccess? <==> !NeedsBooking(RowOf(b.store, reqs[i].orderId)))
                 <==> !ItemMisled(cfg, oracles(i), s, reqs[i])
    {
      FatedItemAgrees(cfg, oracles(i), s, reqs[i], b.store, b.results[i]);
    }
    CountsAgree(cfg, oracles, s, reqs, b.store, b.results);
  }
}
