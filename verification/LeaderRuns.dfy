/**
 * The leader lock and the worker passes together. Worker cycles on any number of pods take the lock,
 * select rows, run a pass over each selected row one after the other, and release or die. Service requests
 * run beside them, but never on an order that another handler works on or an active cycle has selected.
 * As long as leadership is exclusive, everything that happens to the orders is then a serialised run.
 */
module LeaderRuns {
  import opened Options
  import opened Orders
  import opened Lifecycle
  import L = LeaderLock
  import I = InterleavedRuns
  import S = SerialRuns

  /**
   * `plan` holds the rows each cycle has selected and not yet come to, as the query returned them; `passes`
   * names the handler of each cycle's latest pass, which is in flight as long as it is live.
   */
  datatype World = World(
    lock: L.World, orders: I.World, plan: map<nat, map<OrderId, Row>>, passes: map<nat, I.HandlerId>)

  datatype Move =
    | Lock(m: L.Move)
    | Select(c: nat, rows: map<OrderId, Row>)
    | Pass(c: nat, h: I.HandlerId, id: OrderId)
    | Serve(h: I.HandlerId, id: OrderId, op: Op)
    | Advance(h: I.HandlerId, answer: Choice)
    | Crash(h: I.HandlerId)
    | Insert(reqs: seq<Request>, answer: Choice)

  const START := World(L.START, I.EMPTY_WORLD, map[], map[])

  predicate InFlight(w: World, c: nat) {
    c in w.passes && w.passes[c] in w.orders.live
  }

  predicate IsPass(w: World, h: I.HandlerId) {
    h in w.passes.Values
  }

  ghost predicate Idle(o: I.World, id: OrderId) {
    forall h :: h in o.live ==> o.live[h].id != id
  }

  predicate Planned(w: World, c: nat, id: OrderId) {
    c in w.lock.active && c in w.plan && id in w.plan[c]
  }

  ghost predicate Possible(cfg: Config, w: World, m: Move) {
    match m
    case Lock(lm) => L.Possible(w.lock, lm) && (lm.Release? ==> !InFlight(w, lm.cycle))
    case Select(c, rows) =>
      && c in w.lock.active && !InFlight(w, c)
      && forall id :: id in rows ==>
           RowOf(w.orders.store, id) == Some(rows[id]) && Eligible(cfg, Some(rows[id])) && Idle(w.orders, id)
    case Pass(c, h, id) => Planned(w, c, id) && !InFlight(w, c) && h !in w.orders.live && !IsPass(w, h)
    case Serve(h, id, op) =>
      && !op.Reconcile? && !IsPass(w, h) && I.Possible(cfg, w.orders, I.Begin(h, id, op))
      && Idle(w.orders, id) && forall c :: !Planned(w, c, id)
    case Advance(h, c) => I.Possible(cfg, w.orders, I.Advance(h, c))
    case Crash(h) => h in w.orders.live && !IsPass(w, h)
    case Insert(reqs, c) =>
      && I.Possible(cfg, w.orders, I.Insert(reqs, c))
      && (forall i :: 0 <= i < |reqs| ==> Idle(w.orders, reqs[i].orderId))
  }

  /** A pass starts from the row as it was selected. A cycle that dies takes its pass with it. */
  ghost function Apply(cfg: Config, w: World, m: Move): World {
    if !Possible(cfg, w, m) then w
    else match m
      case Lock(lm) =>
        w.(lock := L.Apply(w.lock, lm),
           orders := if lm.Die? && InFlight(w, lm.cycle) then I.Apply(cfg, w.orders, I.Crash(w.passes[lm.cycle]))
                     else w.orders,
           plan := if lm.Acquire? then w.plan - {lm.cycle} else w.plan)
      case Select(c, rows) => w.(plan := w.plan[c := rows])
      case Pass(c, h, id) =>
        var handler := I.Handler(id, WorkerStart(cfg, w.plan[c][id]));
        w.(orders := w.orders.(live := w.orders.live[h := handler]),
           plan := w.plan[c := w.plan[c] - {id}], passes := w.passes[c := h])
      case Serve(h, id, op) => w.(orders := I.Apply(cfg, w.orders, I.Begin(h, id, op)))
      case Advance(h, c) => w.(orders := I.Apply(cfg, w.orders, I.Advance(h, c)))
      case Crash(h) => w.(orders := I.Apply(cfg, w.orders, I.Crash(h)))
      case Insert(reqs, c) => w.(orders := I.Apply(cfg, w.orders, I.Insert(reqs, c)))
  }

  ghost function Run(cfg: Config, w: World, moves: seq<Move>): World
    decreases |moves|
  {
    if moves == [] then w else Run(cfg, Apply(cfg, w, moves[0]), moves[1..])
  }

  /** No cycle acquires the lock once another active cycle has outlived its TTL. */
  ghost predicate TimelyRun(cfg: Config, w: World, moves: seq<Move>)
    decreases |moves|
  {
    moves == [] ||
    ((moves[0].Lock? ==> L.Timely(w.lock, moves[0].m)) && TimelyRun(cfg, Apply(cfg, w, moves[0]), moves[1..]))
  }

  // Interleaved handlers on different orders are a serialised world

  ghost predicate Apart(o: I.World) {
    forall h, k :: h in o.live && k in o.live && h != k ==> o.live[h].id != o.live[k].id
  }

  ghost predicate Matches(v: S.World, o: I.World) {
    && v.store == o.store && Apart(o)
    && (forall h :: h in o.live ==> S.PhaseOf(v, o.live[h].id) == Some(o.live[h].phase))
    && (forall id :: id in v.live ==> !Idle(o, id))
  }

  lemma BeginMatches(cfg: Config, v: S.World, o: I.World, h: I.HandlerId, id: OrderId, op: Op)
    requires Matches(v, o) && I.Possible(cfg, o, I.Begin(h, id, op)) && Idle(o, id)
    ensures Matches(S.Apply(cfg, v, S.Begin(id, op)), I.Apply(cfg, o, I.Begin(h, id, op)))
  {
    hide FirstPhase;
    var v', o' := S.Apply(cfg, v, S.Begin(id, op)), I.Apply(cfg, o, I.Begin(h, id, op));
    assert id !in v.live;
    forall k | k in v'.live
      ensures !Idle(o', k)
    {
      if k == id {
        assert o'.live[h].id == id;
      } else {
        var g :| g in o.live && o.live[g].id == k;
        assert o'.live[g].id == k;
      }
    }
  }

  lemma AdvanceMatches(cfg: Config, v: S.World, o: I.World, h: I.HandlerId, c: Choice)
    requires Matches(v, o) && I.Possible(cfg, o, I.Advance(h, c))
    ensures Matches(S.Apply(cfg, v, S.Advance(o.live[h].id, c)), I.Apply(cfg, o, I.Advance(h, c)))
  {
    hide Step, Commit;
    var id := o.live[h].id;
    var v', o' := S.Apply(cfg, v, S.Advance(id, c)), I.Apply(cfg, o, I.Advance(h, c));
    assert S.PhaseOf(v, id) == Some(o.live[h].phase);
    forall k | k in v'.live
      ensures !Idle(o', k)
    {
      var g :| g in o.live && o.live[g].id == k;
      assert g in o'.live && o'.live[g].id == k;
    }
  }

  lemma CrashMatches(cfg: Config, v: S.World, o: I.World, h: I.HandlerId)
    requires Matches(v, o) && h in o.live
    ensures Matches(S.Apply(cfg, v, S.Crash(o.live[h].id)), I.Apply(cfg, o, I.Crash(h)))
  {
    hide AfterCrash;
    var id := o.live[h].id;
    var v', o' := S.Apply(cfg, v, S.Crash(id)), I.Apply(cfg, o, I.Crash(h));
    assert S.PhaseOf(v, id) == Some(o.live[h].phase);
    forall k | k in v'.live
      ensures !Idle(o', k)
    {
      var g :| g in o.live && o.live[g].id == k;
      assert g in o'.live && o'.live[g].id == k;
    }
  }

  lemma InsertMatches(cfg: Config, v: S.World, o: I.World, reqs: seq<Request>, c: Choice)
    requires Matches(v, o) && I.Possible(cfg, o, I.Insert(reqs, c))
    requires forall i :: 0 <= i < |reqs| ==> Idle(o, reqs[i].orderId)
    ensures Matches(S.Apply(cfg, v, S.Insert(reqs, c)), I.Apply(cfg, o, I.Insert(reqs, c)))
  {
    hide BulkInsert;
    assert forall i :: 0 <= i < |reqs| ==> reqs[i].orderId !in v.live;
  }

  // Exclusive leadership keeps the passes apart

  /** A selected row that the cycle has not come to is still what it was, and nobody works on it. */
  ghost predicate PlanHolds(cfg: Config, w: World, c: nat, id: OrderId) {
    Planned(w, c, id) ==>
      && RowOf(w.orders.store, id) == Some(w.plan[c][id]) && Eligible(cfg, Some(w.plan[c][id]))
      && Idle(w.orders, id)
  }

  /** Passes in flight belong to active cycles, and selections are up to date. */
  ghost predicate Led(cfg: Config, w: World) {
    && L.SoleLeader(w.lock)
    && (forall c :: InFlight(w, c) ==> c in w.lock.active)
    && (forall c, id :: PlanHolds(cfg, w, c, id))
  }

  ghost predicate Good(cfg: Config, v: S.World, w: World) {
    S.Reached(cfg, v) && Matches(v, w.orders) && Led(cfg, w)
  }

  /** The snapshot a pass starts from is the current row. */
  lemma PassIsBegin(cfg: Config, w: World, m: Move)
    requires Led(cfg, w) && m.Pass? && Possible(cfg, w, m)
    ensures Idle(w.orders, m.id) && I.Possible(cfg, w.orders, I.Begin(m.h, m.id, Reconcile))
    ensures Apply(cfg, w, m).orders == I.Apply(cfg, w.orders, I.Begin(m.h, m.id, Reconcile))
  {
    assert PlanHolds(cfg, w, m.c, m.id);
  }

  lemma PlanStays(cfg: Config, w: World, m: Move, c: nat, id: OrderId)
    requires Led(cfg, w) && (m.Lock? ==> L.Timely(w.lock, m.m))
    ensures PlanHolds(cfg, Apply(cfg, w, m), c, id)
  {
    hide Step, L.Timely, FirstPhase, BulkInsert, AfterCrash, Eligible, WorkerStart;
    assert PlanHolds(cfg, w, c, id);
    if Possible(cfg, w, m) {
      match m {
        case Pass(_, _, _) =>
          assert Planned(w, c, id) ==> c == m.c;
        case Serve(_, _, _) =>
          assert !Planned(w, c, m.id);
        case Insert(reqs, _) => BulkInsertOnlyAdds(w.orders.store.table, reqs, id);
        case _ =>
      }
    }
  }

  lemma StaysLed(cfg: Config, w: World, m: Move)
    requires Led(cfg, w) && (m.Lock? ==> L.Timely(w.lock, m.m))
    ensures Led(cfg, Apply(cfg, w, m))
  {
    hide Step, Commit, L.Timely, L.SoleLeader, FirstPhase, BulkInsert, AfterCrash, PlanHolds;
    var w' := Apply(cfg, w, m);
    if m.Lock? {
      L.MoveKeepsExclusion(w.lock, m.m);
    }
    forall c | InFlight(w', c)
      ensures c in w'.lock.active
    {
      if !(m.Pass? && c == m.c) {
        assert IsPass(w, w.passes[c]);
        assert InFlight(w, c);
      }
    }
    forall c, id
      ensures PlanHolds(cfg, w', c, id)
    {
      PlanStays(cfg, w, m, c, id);
    }
  }

  lemma MoveIsSerial(cfg: Config, v: S.World, w: World, m: Move) returns (v': S.World)
    requires Good(cfg, v, w) && (m.Lock? ==> L.Timely(w.lock, m.m))
    ensures Good(cfg, v', Apply(cfg, w, m))
  {
    hide Led, Matches, S.Reached, S.Apply, I.Apply, L.Timely, I.Possible;
    StaysLed(cfg, w, m);
    v' := v;
    if Possible(cfg, w, m) {
      match m {
        case Lock(lm) =>
          if lm.Die? && InFlight(w, lm.cycle) {
            var h := w.passes[lm.cycle];
            CrashMatches(cfg, v, w.orders, h);
            v' := Reach(cfg, v, S.Crash(w.orders.live[h].id));
          }
        case Select(_, _) =>
        case Pass(_, h, id) =>
          PassIsBegin(cfg, w, m);
          BeginMatches(cfg, v, w.orders, h, id, Reconcile);
          v' := Reach(cfg, v, S.Begin(id, Reconcile));
        case Serve(h, id, op) =>
          BeginMatches(cfg, v, w.orders, h, id, op);
          v' := Reach(cfg, v, S.Begin(id, op));
        case Advance(h, c) =>
          assert h in w.orders.live by { LiveIfPossible(cfg, w.orders, h, c); }
          AdvanceMatches(cfg, v, w.orders, h, c);
          v' := Reach(cfg, v, S.Advance(w.orders.live[h].id, c));
        case Crash(h) =>
          CrashMatches(cfg, v, w.orders, h);
          v' := Reach(cfg, v, S.Crash(w.orders.live[h].id));
        case Insert(reqs, c) =>
          InsertMatches(cfg, v, w.orders, reqs, c);
          v' := Reach(cfg, v, S.Insert(reqs, c));
      }
    }
  }

  lemma LiveIfPossible(cfg: Config, o: I.World, h: I.HandlerId, c: Choice)
    requires I.Possible(cfg, o, I.Advance(h, c))
    ensures h in o.live
  {
  }

  lemma Reach(cfg: Config, v: S.World, m: S.Move) returns (v': S.World)
    requires S.Reached(cfg, v)
    ensures v' == S.Apply(cfg, v, m) && S.Reached(cfg, v')
  {
    v' := S.Apply(cfg, v, m);
    S.ReachedStep(cfg, v, m);
  }

  lemma {:induction false} RunIsSerial(cfg: Config, v: S.World, w: World, moves: seq<Move>) returns (v': S.World)
    requires Good(cfg, v, w) && TimelyRun(cfg, w, moves)
    ensures Good(cfg, v', Run(cfg, w, moves))
    decreases |moves|
  {
    hide Good, Apply;
    v' := v;
    if moves != [] {
      v' := MoveIsSerial(cfg, v, w, moves[0]);
      v' := RunIsSerial(cfg, v', Apply(cfg, w, moves[0]), moves[1..]);
    }
  }

  /**
   * While no cycle acquires past another's TTL and no request overlaps another handler of its order, the
   * orders live through a serialised run, whatever the workers' pods and clocks do.
   */
  lemma LeadershipSerialises(cfg: Config, moves: seq<Move>)
    requires TimelyRun(cfg, START, moves)
    ensures exists serial: seq<S.Move> ::
              S.Run(cfg, S.EMPTY_WORLD, serial).store == Run(cfg, START, moves).orders.store
  {
    assert S.Run(cfg, S.EMPTY_WORLD, []) == S.EMPTY_WORLD;
    var v := RunIsSerial(cfg, S.EMPTY_WORLD, START, moves);
    var serial :| S.Run(cfg, S.EMPTY_WORLD, serial) == v;
  }

  /** Hence the workers book an order at most once unless a booking was lost, reverted or reopened. */
  lemma LedWorkersBookOnce(cfg: Config, moves: seq<Move>, id: OrderId)
    requires TimelyRun(cfg, START, moves)
    ensures var led := LedgerOf(Run(cfg, START, moves).orders.store, id);
            led.lost + led.reverted + led.reopened == 0 ==> led.booked <= 1
  {
    hide Run, S.Run, TimelyRun;
    LeadershipSerialises(cfg, moves);
    var serial: seq<S.Move> :|
      S.Run(cfg, S.EMPTY_WORLD, serial).store == Run(cfg, START, moves).orders.store;
    S.BookingConservation(cfg, serial, id);
  }

  // A cycle that does its work

  /** An order is waiting, nobody works on anything, and cycle `c` leads. */
  ghost predicate Waiting(cfg: Config, w: World, c: nat, id: OrderId, row: Row) {
    && c in w.lock.active && w.orders.live == map[]
    && RowOf(w.orders.store, id) == Some(row) && Eligible(cfg, Some(row)) && row.partner in cfg.registered
  }

  lemma SelectsAndStarts(cfg: Config, w: World, c: nat, h: I.HandlerId, id: OrderId, row: Row) returns (w': World)
    requires Waiting(cfg, w, c, id, row) && !IsPass(w, h)
    ensures w' == Apply(cfg, Apply(cfg, w, Select(c, map[id := row])), Pass(c, h, id))
    ensures w'.lock == w.lock && w'.passes == w.passes[c := h] && w'.orders.store == w.orders.store
    ensures w'.orders.live == map[h := I.Handler(id, WorkerDispatch(row.payload, row.partner, row.retryCount + 1))]
  {
    var w1 := Apply(cfg, w, Select(c, map[id := row]));
    assert Possible(cfg, w, Select(c, map[id := row]));
    assert Planned(w1, c, id);
    w' := Apply(cfg, w1, Pass(c, h, id));
  }

  lemma PassAdvances(cfg: Config, w: World, h: I.HandlerId, id: OrderId, p: Phase, a: Choice) returns (w': World)
    requires w.orders.live == map[h := I.Handler(id, p)] && Fits(p, a)
    ensures w' == Apply(cfg, w, Advance(h, a))
    ensures var e := StepAt(cfg, w.orders.store, id, p, a);
            && w'.lock == w.lock && w'.passes == w.passes && w'.orders.store == Commit(w.orders.store, id, e)
            && w'.orders.live == if e.phase.Finished? then map[] else map[h := I.Handler(id, e.phase)]
  {
    hide Step, Commit;
    w' := Apply(cfg, w, Advance(h, a));
  }

  lemma PassBooks(cfg: Config, w: World, h: I.HandlerId, id: OrderId, row: Row, awb: Awb, next: nat) returns (w': World)
    requires RowOf(w.orders.store, id) == Some(row)
    requires w.orders.live == map[h := I.Handler(id, WorkerDispatch(row.payload, row.partner, next))]
    ensures w' == Apply(cfg, w, Advance(h, Booked(awb, 0))) && w'.lock == w.lock
    ensures RowOf(w'.orders.store, id) == Some(row)
    ensures w'.orders.live == map[h := I.Handler(id, WorkerPersist(row.partner, awb, next))]
  {
    w' := PassAdvances(cfg, w, h, id, WorkerDispatch(row.payload, row.partner, next), Booked(awb, 0));
    hide Apply, RecoveryEvent;
  }

  lemma PassPersists(
    cfg: Config, w: World, h: I.HandlerId, id: OrderId, row: Row, awb: Awb, next: nat
  ) returns (w': World)
    requires RowOf(w.orders.store, id) == Some(row)
    requires w.orders.live == map[h := I.Handler(id, WorkerPersist(row.partner, awb, next))]
    ensures w' == Apply(cfg, w, Advance(h, DbOk)) && w'.lock == w.lock
    ensures RowOf(w'.orders.store, id) == Some(row.(awb := Some(awb), status := Created, retryCount := next))
    ensures w'.orders.live == map[h := I.Handler(id, WorkerEvent(row.partner, awb, next))]
  {
    w' := PassAdvances(cfg, w, h, id, WorkerPersist(row.partner, awb, next), DbOk);
    hide Apply, RecoveryEvent;
  }

  lemma PassEnds(
    cfg: Config, w: World, h: I.HandlerId, id: OrderId, row: Row, partner: string, awb: Awb, next: nat
  ) returns (w': World)
    requires RowOf(w.orders.store, id) == Some(row)
    requires w.orders.live == map[h := I.Handler(id, WorkerEvent(partner, awb, next))]
    ensures w' == Apply(cfg, w, Advance(h, DbOk)) && w'.lock == w.lock
    ensures RowOf(w'.orders.store, id) == Some(row)
    ensures w'.orders.live == map[]
  {
    w' := PassAdvances(cfg, w, h, id, WorkerEvent(partner, awb, next), DbOk);
    hide Apply, RecoveryEvent;
  }

  lemma PassCompletes(cfg: Config, w: World, h: I.HandlerId, id: OrderId, row: Row, awb: Awb, next: nat)
    returns (w': World)
    requires RowOf(w.orders.store, id) == Some(row)
    requires w.orders.live == map[h := I.Handler(id, WorkerDispatch(row.payload, row.partner, next))]
    ensures w' == Apply(cfg, Apply(cfg, Apply(cfg, w, Advance(h, Booked(awb, 0))), Advance(h, DbOk)), Advance(h, DbOk))
    ensures w'.lock == w.lock && w'.orders.live == map[]
    ensures RowOf(w'.orders.store, id) == Some(row.(awb := Some(awb), status := Created, retryCount := next))
  {
    hide Apply;
    var w1 := PassBooks(cfg, w, h, id, row, awb, next);
    var w2 := PassPersists(cfg, w1, h, id, row, awb, next);
    var booked := row.(awb := Some(awb), status := Created, retryCount := next);
    w' := PassEnds(cfg, w2, h, id, booked, row.partner, awb, next);
  }

  lemma Releases(cfg: Config, w: World, c: nat, at: int)
    requires c in w.lock.active && w.lock.now <= at && w.orders.live == map[]
    ensures var w' := Apply(cfg, w, Lock(L.Release(c, at)));
            w'.orders == w.orders && c !in w'.lock.active && L.LOCK_KEY !in w'.lock.locks
  {
  }

  /** A leading cycle that selects a waiting order, whose courier then books it, leaves it CREATED and frees the
      lock. */
  lemma LeaderRecovers(cfg: Config, w: World, c: nat, h: I.HandlerId, id: OrderId, row: Row, awb: Awb, at: int)
    requires Waiting(cfg, w, c, id, row) && !IsPass(w, h) && w.lock.now <= at
    ensures var w' := Run(cfg, w, [Select(c, map[id := row]), Pass(c, h, id), Advance(h, Booked(awb, 0)),
                                   Advance(h, DbOk), Advance(h, DbOk), Lock(L.Release(c, at))]);
            && RowOf(w'.orders.store, id)
                 == Some(row.(awb := Some(awb), status := Created, retryCount := row.retryCount + 1))
            && w'.orders.live == map[] && c !in w'.lock.active && L.LOCK_KEY !in w'.lock.locks
  {
    hide Apply, Run, Eligible;
    var moves := [Select(c, map[id := row]), Pass(c, h, id), Advance(h, Booked(awb, 0)),
                  Advance(h, DbOk), Advance(h, DbOk), Lock(L.Release(c, at))];
    var w2 := SelectsAndStarts(cfg, w, c, h, id, row);
    var w5 := PassCompletes(cfg, w2, h, id, row, awb, row.retryCount + 1);
    Releases(cfg, w5, c, at);
    RunSix(cfg, w, moves);
  }

  lemma RunSix(cfg: Config, w: World, moves: seq<Move>)
    requires |moves| == 6
    ensures Run(cfg, w, moves)
              == Apply(cfg, Apply(cfg, Apply(cfg, Apply(cfg, Apply(cfg, Apply(cfg, w, moves[0]), moves[1]), moves[2]),
                       moves[3]), moves[4]), moves[5])
  {
    hide Apply;
    RunTwo(cfg, w, moves);
    var w2 := Apply(cfg, Apply(cfg, w, moves[0]), moves[1]);
    RunTwo(cfg, w2, moves[2..]);
    RunTwo(cfg, Apply(cfg, Apply(cfg, w2, moves[2]), moves[3]), moves[2..][2..]);
    assert moves[2..][2..][2..] == [];
  }

  lemma RunTwo(cfg: Config, w: World, moves: seq<Move>)
    requires |moves| >= 2
    ensures Run(cfg, w, moves) == Run(cfg, Apply(cfg, Apply(cfg, w, moves[0]), moves[1]), moves[2..])
  {
    hide Apply;
    assert moves[1..][1..] == moves[2..];
  }
}
