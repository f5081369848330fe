/**
 * The worker's leader lock: an expiring key with no owner identity, taken by any number of
 * reconciliation cycles on any number of pods.
 */
module LeaderLock {
  import opened Options
  import Cache

  const LOCK_KEY := "worker:order_reconciliation:leader_lock"

  /** `Math.max(10, Math.floor(intervalMs / 1000) - 5)` */
  function LockTtl(intervalMs: int): int {
    var t := intervalMs / 1000 - 5;
    if t < 10 then 10 else t
  }

  /**
   * `active` maps each cycle between acquire and release to the expiry of the lock it took.
   * `late` records that some cycle released at or after its own expiry; `last` is the cycle whose
   * lock is stored, if it has not been released.
   */
  datatype World = World(locks: map<string, int>, active: map<nat, int>, now: int, late: bool, last: Option<nat>)

  datatype Move =
    | Acquire(cycle: nat, ttl: int, at: int)
    | Release(cycle: nat, at: int)
    | Die(cycle: nat, at: int)

  const START := World(map[], map[], 0, false, None)

  predicate Possible(w: World, m: Move) {
    && w.now <= m.at
    && match m
       case Acquire(c, ttl, _) => c !in w.active && ttl > 0
       case Release(c, _) => c in w.active
       case Die(c, _) => c in w.active
  }

  predicate Free(w: World, at: int) {
    !Cache.Held(w.locks, LOCK_KEY, at)
  }

  function Apply(w: World, m: Move): World {
    if !Possible(w, m) then w
    else match m
      case Acquire(c, ttl, at) =>
        var locks' := Cache.AfterAcquire(w.locks, LOCK_KEY, ttl, at);
        if Free(w, at) then World(locks', w.active[c := at + ttl * 1000], at, w.late, Some(c))
        else w.(locks := locks', now := at)
      case Release(c, at) =>
        World(w.locks - {LOCK_KEY}, w.active - {c}, at, w.late || at >= w.active[c], None)
      case Die(c, at) =>
        w.(active := w.active - {c}, now := at)
  }

  function Run(w: World, moves: seq<Move>): World
    decreases |moves|
  {
    if moves == [] then w else Run(Apply(w, moves[0]), moves[1..])
  }

  /** In its lease: between acquire and release with the TTL still running. */
  predicate InLease(w: World, c: nat) {
    c in w.active && w.now < w.active[c]
  }

  ghost predicate Inv(w: World) {
    && w.now >= 0
    && (w.last.Some? ==> LOCK_KEY in w.locks && w.locks[LOCK_KEY] > 0)
    && (w.last.Some? && w.last.value in w.active ==> w.locks[LOCK_KEY] == w.active[w.last.value])
    && (!w.late ==> forall c: nat :: InLease(w, c) ==> w.last == Some(c))
  }

  lemma ApplyInv(w: World, m: Move)
    requires Inv(w)
    ensures Inv(Apply(w, m))
  {
    var w' := Apply(w, m);
    if Possible(w, m) && !w'.late {
      forall c: nat | InLease(w', c)
        ensures w'.last == Some(c)
      {
        if c in w.active {
          assert InLease(w, c);
        }
        if m.Release? {
          assert InLease(w, m.cycle);
        }
      }
    }
  }

  lemma {:induction false} RunInv(w: World, moves: seq<Move>)
    requires Inv(w)
    ensures Inv(Run(w, moves))
    decreases |moves|
  {
    if moves != [] {
      ApplyInv(w, moves[0]);
      RunInv(Apply(w, moves[0]), moves[1..]);
    }
  }

  /** As long as no cycle released past its TTL, at most one cycle is in its lease. */
  lemma OneLeaseAtATime(moves: seq<Move>, c: nat, d: nat)
    ensures var w := Run(START, moves);
            !w.late && InLease(w, c) && InLease(w, d) ==> c == d
  {
    RunInv(START, moves);
  }

  /** Hence, while no active cycle overruns either, at most one is between acquire and release. */
  lemma ExclusionWithinLeases(moves: seq<Move>, c: nat, d: nat)
    requires var w := Run(START, moves);
             && !w.late && (forall k :: k in w.active ==> w.now < w.active[k])
             && c in w.active && d in w.active
    ensures c == d
  {
    OneLeaseAtATime(moves, c, d);
  }

  // Exclusion over whole runs, exactly

  predicate AtMostOneActive(w: World) {
    forall c, d :: c in w.active && d in w.active ==> c == d
  }

  /** No move lets a cycle acquire once another active cycle has outlived its TTL. */
  predicate Timely(w: World, m: Move) {
    Possible(w, m) && m.Acquire? ==> forall c :: c in w.active ==> m.at < w.active[c]
  }

  /** The stored lock is the sole active cycle's own. */
  predicate SoleLeader(w: World) {
    && w.now >= 0 && AtMostOneActive(w)
    && forall c :: c in w.active ==> w.active[c] > 0 && LOCK_KEY in w.locks && w.locks[LOCK_KEY] == w.active[c]
  }

  ghost predicate ExclusiveThroughout(moves: seq<Move>) {
    forall i :: 0 <= i <= |moves| ==> AtMostOneActive(Run(START, moves[..i]))
  }

  ghost predicate TimelyThroughout(moves: seq<Move>) {
    forall i :: 0 <= i < |moves| ==> Timely(Run(START, moves[..i]), moves[i])
  }

  /** From a sole leader, one move keeps exclusion exactly if it is timely, and then the leader is still sole. */
  lemma MoveKeepsExclusion(w: World, m: Move)
    requires SoleLeader(w)
    ensures Timely(w, m) ==> SoleLeader(Apply(w, m))
    ensures !Timely(w, m) ==> !AtMostOneActive(Apply(w, m))
  {
    if !Timely(w, m) {
      var c :| c in w.active && m.at >= w.active[c];
      assert c in Apply(w, m).active && m.cycle in Apply(w, m).active;
    }
  }

  lemma {:induction false} RunSnoc(w: World, moves: seq<Move>, m: Move)
    ensures Run(w, moves + [m]) == Apply(Run(w, moves), m)
    decreases |moves|
  {
    hide Apply;
    if moves == [] {
      assert moves + [m] == [m] && [m][1..] == [];
    } else {
      assert (moves + [m])[1..] == moves[1..] + [m];
      RunSnoc(Apply(w, moves[0]), moves[1..], m);
    }
  }

  lemma PrefixStep(moves: seq<Move>, i: nat)
    requires i < |moves|
    ensures Run(START, moves[..i + 1]) == Apply(Run(START, moves[..i]), moves[i])
  {
    assert moves[..i + 1] == moves[..i] + [moves[i]];
    RunSnoc(START, moves[..i], moves[i]);
  }

  lemma {:induction false} TimelyKeepsSole(moves: seq<Move>, i: nat)
    requires i <= |moves| && forall j :: 0 <= j < i ==> Timely(Run(START, moves[..j]), moves[j])
    ensures SoleLeader(Run(START, moves[..i]))
  {
    hide Apply, Timely;
    if i == 0 {
      assert moves[..0] == [];
    } else {
      TimelyKeepsSole(moves, i - 1);
      PrefixStep(moves, i - 1);
      MoveKeepsExclusion(Run(START, moves[..i - 1]), moves[i - 1]);
    }
  }

  lemma {:induction false} ExclusiveIsTimely(moves: seq<Move>, i: nat)
    requires ExclusiveThroughout(moves) && i <= |moves|
    ensures forall j :: 0 <= j < i ==> Timely(Run(START, moves[..j]), moves[j])
  {
    hide Apply, Timely;
    if i > 0 {
      ExclusiveIsTimely(moves, i - 1);
      TimelyKeepsSole(moves, i - 1);
      PrefixStep(moves, i - 1);
      MoveKeepsExclusion(Run(START, moves[..i - 1]), moves[i - 1]);
    }
  }

  /**
   * Leader exclusion, for any number of workers in any interleaving: at every instant at most one cycle
   * is between acquire and release exactly if no cycle acquires at or after the expiry of one still active.
   */
  lemma LeaderExclusion(moves: seq<Move>)
    ensures ExclusiveThroughout(moves) <==> TimelyThroughout(moves)
  {
    hide Apply, Timely;
    if ExclusiveThroughout(moves) {
      ExclusiveIsTimely(moves, |moves|);
    }
    if TimelyThroughout(moves) {
      forall i | 0 <= i <= |moves|
        ensures AtMostOneActive(Run(START, moves[..i]))
      {
        TimelyKeepsSole(moves, i);
      }
    }
  }

  /** After an exclusive run a second cycle gets in beside the leader exactly from the instant its TTL is over. */
  lemma SecondLeaderIff(moves: seq<Move>, leader: nat, other: nat, ttl: int, at: int)
    requires ExclusiveThroughout(moves)
    requires var w := Run(START, moves); leader in w.active && Possible(w, Acquire(other, ttl, at))
    ensures var w := Run(START, moves);
            other in Apply(w, Acquire(other, ttl, at)).active <==> at >= w.active[leader]
  {
    ExclusiveIsTimely(moves, |moves|);
    TimelyKeepsSole(moves, |moves|);
    assert moves[..|moves|] == moves;
  }

  /** Without the overrun hypothesis exclusion fails, even though nobody has released late. */
  lemma OverrunBreaksExclusion()
    ensures var w := Run(START, [Acquire(0, 55, 0), Acquire(1, 55, 55000)]);
            !w.late && 0 in w.active && 1 in w.active
  {
    var moves := [Acquire(0, 55, 0), Acquire(1, 55, 55000)];
    assert moves[1..][1..] == [];
  }

  /** And one late release frees a lock that is not its own: then two cycles are in lease at once. */
  lemma LateReleaseBreaksLeases()
    ensures var w := Run(START, [Acquire(0, 55, 0), Acquire(1, 55, 55000), Release(0, 56000), Acquire(2, 55, 56001)]);
            InLease(w, 1) && InLease(w, 2)
  {
    var moves := [Acquire(0, 55, 0), Acquire(1, 55, 55000), Release(0, 56000), Acquire(2, 55, 56001)];
    assert moves[1..][1..][1..] == [Acquire(2, 55, 56001)];
    assert moves[1..][1..][1..][1..] == [];
    var w1 := Apply(START, moves[0]);
    var w2 := Apply(w1, moves[1]);
    var w3 := Apply(w2, moves[2]);
    assert 1 in w3.active && !(2 in w3.active);
  }

  // The lock of a crashed leader

  lemma TtlLeavesMargin(intervalMs: int)
    ensures LockTtl(intervalMs) * 1000 <= intervalMs - 5000 <==> intervalMs >= 15000
  {
  }

  /** And it covers the interval up to that margin: 10 s at least, and less than 6 s short of the next tick. */
  lemma TtlCoversInterval(intervalMs: int)
    ensures LockTtl(intervalMs) >= 10
    ensures LockTtl(intervalMs) > 10 ==> intervalMs - 6000 < LockTtl(intervalMs) * 1000
    ensures intervalMs >= 15000 ==> intervalMs - 6000 < LockTtl(intervalMs) * 1000 <= intervalMs - 5000
    ensures intervalMs < 16000 ==> LockTtl(intervalMs) == 10
  {
  }

  /** What a leader that acquired at `s` and crashed leaves behind. */
  function Abandoned(intervalMs: int, s: int): map<string, int> {
    Cache.AfterAcquire(map[], LOCK_KEY, LockTtl(intervalMs), s)
  }

  /** Two consecutive ticks of a live worker are never both refused exactly if ticks are 10 s apart or more. */
  lemma AtMostOneTickSkipped(intervalMs: int, s: int)
    requires s >= 0
    ensures intervalMs >= 10000 <==>
            forall t :: t >= s ==>
              !(Cache.Held(Abandoned(intervalMs, s), LOCK_KEY, t)
                  && Cache.Held(Abandoned(intervalMs, s), LOCK_KEY, t + intervalMs))
  {
    if intervalMs < 10000 {
      assert Cache.Held(Abandoned(intervalMs, s), LOCK_KEY, s);
      assert Cache.Held(Abandoned(intervalMs, s), LOCK_KEY, s + intervalMs);
    }
  }

  /** Tick `k` after the crash is refused exactly while the TTL lasts; from 15 s intervals on, only the first can be. */
  lemma SkippedTicks(intervalMs: int, s: int, t: int, k: nat)
    requires 0 <= s <= t && intervalMs > 0
    ensures Cache.Held(Abandoned(intervalMs, s), LOCK_KEY, t + k * intervalMs) <==>
            t - s + k * intervalMs < LockTtl(intervalMs) * 1000
    ensures intervalMs >= 15000 && k >= 1 ==> !Cache.Held(Abandoned(intervalMs, s), LOCK_KEY, t + k * intervalMs)
  {
    if k >= 1 {
      assert k * intervalMs >= intervalMs by {
        assert (k - 1) * intervalMs >= 0;
      }
    }
  }
}
