/**
 * One operation run from its first await to its end, with nothing else touching its order.
 *
 * `script` is the list of answers the outside world gives; the process dies at the await for
 * which no (fitting) answer is left. The service methods are proved to compute exactly `Handle`,
 * and `Handle` is proved to be a run of the serialised machine.
 */
module Handlers {
  import opened Options
  import opened Orders
  import opened Lifecycle
  import opened SerialRuns

  /** `outcome` is None when the process died on the way. */
  datatype Ending = Ending(store: Store, rest: seq<Choice>, outcome: Option<Outcome>)

  function Died(s: Store, id: OrderId, p: Phase): Store {
    s.(ledger := s.ledger[id := AfterCrash(LedgerOf(s, id), p)])
  }

  function Handle(cfg: Config, s: Store, id: OrderId, p: Phase, script: seq<Choice>): Ending
    decreases |script|
  {
    if p.Finished? then Ending(s, script, Some(p.outcome))
    else if script == [] || !Fits(p, script[0]) then Ending(Died(s, id, p), [], None)
    else
      var e := StepAt(cfg, s, id, p, script[0]);
      Handle(cfg, Commit(s, id, e), id, e.phase, script[1..])
  }

  /** One await. */
  lemma Unfold(cfg: Config, s: Store, id: OrderId, p: Phase, script: seq<Choice>)
    requires !p.Finished? && script != [] && Fits(p, script[0])
    ensures var e := StepAt(cfg, s, id, p, script[0]);
            Handle(cfg, s, id, p, script) == Handle(cfg, Commit(s, id, e), id, e.phase, script[1..])
  {
  }

  lemma HandleDone(cfg: Config, s: Store, id: OrderId, p: Phase, script: seq<Choice>)
    requires p.Finished?
    ensures Handle(cfg, s, id, p, script) == Ending(s, script, Some(p.outcome))
  {
  }

  /** The moves of the serialised machine that one handler makes. */
  function MovesOf(cfg: Config, s: Store, id: OrderId, p: Phase, script: seq<Choice>): seq<Move>
    decreases |script|
  {
    if p.Finished? then []
    else if script == [] || !Fits(p, script[0]) then [Crash(id)]
    else
      var e := StepAt(cfg, s, id, p, script[0]);
      [Advance(id, script[0])] + MovesOf(cfg, Commit(s, id, e), id, e.phase, script[1..])
  }

  lemma {:induction false} HandleIsSerial(cfg: Config, s: Store, id: OrderId, p: Phase, script: seq<Choice>)
    requires !p.Finished?
    ensures Run(cfg, World(s, map[id := p]), MovesOf(cfg, s, id, p, script))
              == World(Handle(cfg, s, id, p, script).store, map[])
    decreases |script|
  {
    hide Step, AfterCrash, LedgerOf;
    var w := World(s, map[id := p]);
    if script == [] || !Fits(p, script[0]) {
      assert Apply(cfg, w, Crash(id)).live == map[];
    } else {
      var c := script[0];
      var e := StepAt(cfg, s, id, p, c);
      var w' := Apply(cfg, w, Advance(id, c));
      var moves := MovesOf(cfg, s, id, p, script);
      assert moves[0] == Advance(id, c) && moves[1..] == MovesOf(cfg, Commit(s, id, e), id, e.phase, script[1..]);
      if e.phase.Finished? {
        assert w'.live == map[];
      } else {
        assert w'.live == map[id := e.phase];
        HandleIsSerial(cfg, Commit(s, id, e), id, e.phase, script[1..]);
      }
    }
  }

  /** An operation with the database to itself is a run of the serialised machine. */
  lemma OperationIsSerial(cfg: Config, s: Store, id: OrderId, op: Op, script: seq<Choice>)
    requires CanBegin(cfg, RowOf(s, id), id, op)
    ensures var p := FirstPhase(cfg, RowOf(s, id), id, op);
            Run(cfg, World(s, map[]), [Begin(id, op)] + MovesOf(cfg, s, id, p, script))
              == World(Handle(cfg, s, id, p, script).store, map[])
  {
    hide Step, Handle, MovesOf;
    var p := FirstPhase(cfg, RowOf(s, id), id, op);
    var moves := [Begin(id, op)] + MovesOf(cfg, s, id, p, script);
    assert moves[1..] == MovesOf(cfg, s, id, p, script);
    assert Apply(cfg, World(s, map[]), moves[0]) == World(s, map[id := p]);
    HandleIsSerial(cfg, s, id, p, script);
  }

  /** With no operation in flight: every order's books balance. */
  ghost predicate Settled(cfg: Config, s: Store) {
    AllLawful(cfg, World(s, map[]))
  }

  lemma OperationKeepsBooks(cfg: Config, s: Store, id: OrderId, op: Op, script: seq<Choice>)
    requires CanBegin(cfg, RowOf(s, id), id, op) && Settled(cfg, s)
    ensures Settled(cfg, Handle(cfg, s, id, FirstPhase(cfg, RowOf(s, id), id, op), script).store)
  {
    hide Step, Handle, MovesOf, Lawful;
    var p := FirstPhase(cfg, RowOf(s, id), id, op);
    OperationIsSerial(cfg, s, id, op, script);
    RunLawful(cfg, World(s, map[]), [Begin(id, op)] + MovesOf(cfg, s, id, p, script));
  }

  lemma CommitIsLocal(s: Store, id: OrderId, e: Effect, k: OrderId)
    requires k != id
    ensures RowOf(Commit(s, id, e), k) == RowOf(s, k) && LedgerOf(Commit(s, id, e), k) == LedgerOf(s, k)
  {
  }

  /** Other orders' rows are not touched. */
  lemma {:induction false} HandleIsLocal(cfg: Config, s: Store, id: OrderId, p: Phase, script: seq<Choice>, k: OrderId)
    requires k != id
    ensures var s' := Handle(cfg, s, id, p, script).store;
            RowOf(s', k) == RowOf(s, k) && LedgerOf(s', k) == LedgerOf(s, k)
    decreases |script|
  {
    hide Step, AfterCrash, Commit;
    if !p.Finished? && script != [] && Fits(p, script[0]) {
      var e := StepAt(cfg, s, id, p, script[0]);
      CommitIsLocal(s, id, e, k);
      HandleIsLocal(cfg, Commit(s, id, e), id, e.phase, script[1..], k);
    }
  }
}
