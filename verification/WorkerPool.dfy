/** `runWithConcurrency`: a fixed number of workers sharing one index into the items. */
module WorkerPool {
  import opened Options

  /**
   * `slots[k]` is the index worker `k` is busy with, `next` the shared `currentIndex`,
   * `done` the number of tasks that have completed.
   */
  datatype Pool<R> = Pool(n: nat, next: nat, slots: seq<Option<nat>>, results: seq<Option<R>>, done: nat)

  function Min(a: int, b: int): int {
    if a < b then a else b
  }

  /** `Math.max(1, Math.min(limit, items.length))` */
  function EffectiveLimit(limit: int, n: nat): nat {
    var m := Min(limit, n);
    if m < 1 then 1 else m
  }

  /** Every worker runs synchronously up to its first await, so worker `k` claims index `k`. */
  function Start<R>(n: nat, limit: int): Pool<R>
    requires n > 0
  {
    var l := EffectiveLimit(limit, n);
    Pool(n, l, seq(l, k => Some(k)), seq(n, i => None), 0)
  }

  predicate Busy<R>(p: Pool<R>, k: nat) {
    k < |p.slots| && p.slots[k].Some?
  }

  /** Worker `k`'s task resolves to `r`: store it, then claim the next index or stop. */
  function Complete<R>(p: Pool<R>, k: nat, r: R): Pool<R>
    requires Busy(p, k) && p.slots[k].value < |p.results|
  {
    var stored := p.results[p.slots[k].value := Some(r)];
    if p.next < p.n then
      p.(results := stored, slots := p.slots[k := Some(p.next)], next := p.next + 1, done := p.done + 1)
    else
      p.(results := stored, slots := p.slots[k := None], done := p.done + 1)
  }

  function BusyCount(slots: seq<Option<nat>>): nat {
    if slots == [] then 0 else BusyCount(slots[..|slots| - 1]) + if slots[|slots| - 1].Some? then 1 else 0
  }

  ghost predicate Owned<R>(p: Pool<R>, i: nat) {
    exists k :: 0 <= k < |p.slots| && p.slots[k] == Some(i)
  }

  /** Each index is unclaimed, in exactly one worker's hands, or finished. */
  ghost predicate Partitioned<R>(p: Pool<R>) {
    && |p.results| == p.n && p.next <= p.n
    && (forall k :: 0 <= k < |p.slots| && p.slots[k].Some? ==>
         p.slots[k].value < p.next && p.results[p.slots[k].value].None?)
    && (forall j, k :: 0 <= j < k < |p.slots| && p.slots[j].Some? ==> p.slots[j] != p.slots[k])
    && (forall i :: 0 <= i < p.next ==> p.results[i].Some? || Owned(p, i))
    && (forall i :: p.next <= i < p.n ==> p.results[i].None?)
  }

  /** Claims run ahead of completions by one per worker until the items are used up. */
  predicate Counted<R>(p: Pool<R>) {
    && p.done <= p.next == Min(p.n, |p.slots| + p.done)
    && BusyCount(p.slots) == p.next - p.done
  }

  ghost predicate Inv<R>(p: Pool<R>) {
    Partitioned(p) && Counted(p)
  }

  lemma {:induction false} BusyCountUpdate(slots: seq<Option<nat>>, k: nat, v: Option<nat>)
    requires k < |slots| && slots[k].Some?
    ensures BusyCount(slots) > 0
    ensures BusyCount(slots[k := v]) == BusyCount(slots) - if v.Some? then 0 else 1
  {
    var last := |slots| - 1;
    if k == last {
      assert slots[k := v][..last] == slots[..last];
    } else {
      assert slots[k := v][..last] == slots[..last][k := v];
      BusyCountUpdate(slots[..last], k, v);
    }
  }

  lemma {:induction false} NoneBusyCounts(slots: seq<Option<nat>>)
    ensures BusyCount(slots) == 0 <==> forall k :: 0 <= k < |slots| ==> slots[k].None?
  {
    if slots != [] {
      var init := slots[..|slots| - 1];
      NoneBusyCounts(init);
      assert forall k :: 0 <= k < |init| ==> init[k] == slots[k];
    }
  }

  lemma {:induction false} AllBusy(l: nat)
    ensures BusyCount(seq(l, k => Some(k))) == l
  {
    if l > 0 {
      assert seq(l, k => Some(k))[..l - 1] == seq(l - 1, k => Some(k));
      AllBusy(l - 1);
    }
  }

  lemma StartInv<R>(n: nat, limit: int)
    requires n > 0
    ensures Inv(Start<R>(n, limit))
  {
    AllBusy(EffectiveLimit(limit, n));
    var p := Start<R>(n, limit);
    forall i | 0 <= i < p.next
      ensures Owned(p, i)
    {
      assert p.slots[i] == Some(i);
    }
  }

  lemma CompleteStaysPartitioned<R>(p: Pool<R>, k: nat, r: R)
    requires Partitioned(p) && Busy(p, k)
    ensures Partitioned(Complete(p, k, r))
  {
    var q := Complete(p, k, r);
    forall i | 0 <= i < q.next
      ensures q.results[i].Some? || Owned(q, i)
    {
      if i == p.next {
        assert q.slots[k] == Some(i);
      } else if q.results[i].None? {
        assert Owned(p, i);
        var j :| 0 <= j < |p.slots| && p.slots[j] == Some(i);
        assert q.slots[j] == Some(i);
      }
    }
  }

  lemma CompleteInv<R>(p: Pool<R>, k: nat, r: R)
    requires Inv(p) && Busy(p, k)
    ensures p.slots[k].value < |p.results| == p.n && p.done < p.n
    ensures Inv(Complete(p, k, r))
  {
    CompleteStaysPartitioned(p, k, r);
    BusyCountUpdate(p.slots, k, Complete(p, k, r).slots[k]);
  }

  lemma IdleIsComplete<R>(p: Pool<R>)
    requires Inv(p) && forall k :: 0 <= k < |p.slots| ==> p.slots[k].None?
    requires |p.slots| > 0
    ensures |p.results| == p.n && forall i :: 0 <= i < p.n ==> p.results[i].Some?
  {
    NoneBusyCounts(p.slots);
    forall i | 0 <= i < p.n
      ensures p.results[i].Some?
    {
      assert p.results[i].Some? || Owned(p, i);
    }
  }

  /** The limit as the caller gave it, and never more tasks than are left. */
  lemma InFlightNow<R>(p: Pool<R>, limit: int)
    requires Inv(p) && p.n > 0 && |p.slots| == EffectiveLimit(limit, p.n)
    ensures p.done <= p.n && BusyCount(p.slots) == Min(if limit < 1 then 1 else limit, p.n - p.done)
  {
  }

  // Every schedule

  /** A schedule lists the workers in the order in which their tasks resolve; a pick of an idle worker is void. */
  function Play<R>(p: Pool<R>, task: nat -> R, schedule: seq<nat>): Pool<R>
    decreases |schedule|
  {
    if schedule == [] then p
    else
      var k := schedule[0];
      Play(if Busy(p, k) && p.slots[k].value < |p.results| then Complete(p, k, task(p.slots[k].value)) else p,
           task, schedule[1..])
  }

  ghost predicate ResultsSound<R>(p: Pool<R>, task: nat -> R) {
    forall i :: 0 <= i < |p.results| && p.results[i].Some? ==> p.results[i].value == task(i)
  }

  lemma CompleteSound<R>(p: Pool<R>, k: nat, task: nat -> R)
    requires Busy(p, k) && p.slots[k].value < |p.results| && ResultsSound(p, task)
    ensures ResultsSound(Complete(p, k, task(p.slots[k].value)), task)
  {
  }

  lemma {:induction false} PlayInv<R>(p: Pool<R>, task: nat -> R, schedule: seq<nat>)
    requires Inv(p) && ResultsSound(p, task)
    ensures var q := Play(p, task, schedule);
            Inv(q) && ResultsSound(q, task) && q.n == p.n && |q.slots| == |p.slots|
    decreases |schedule|
  {
    hide Inv;
    if schedule != [] {
      var k := schedule[0];
      if Busy(p, k) {
        CompleteInv(p, k, task(p.slots[k].value));
        PlayInv(Complete(p, k, task(p.slots[k].value)), task, schedule[1..]);
      } else {
        PlayInv(p, task, schedule[1..]);
      }
    }
  }

  /**
   * Under every schedule: every index is unclaimed, owned by one worker or finished, the number of
   * tasks in flight is exactly min(limit, tasks left), and what has resolved is the task's result.
   */
  lemma PoolUnderEverySchedule<R>(n: nat, limit: int, task: nat -> R, schedule: seq<nat>)
    requires n > 0
    ensures var p := Play(Start(n, limit), task, schedule);
            && p.n == n && Partitioned(p) && ResultsSound(p, task)
            && p.done <= n && BusyCount(p.slots) == Min(if limit < 1 then 1 else limit, n - p.done)
  {
    StartInv<R>(n, limit);
    PlayInv(Start(n, limit), task, schedule);
  }

  /** A pick of a busy worker brings the run one task closer to its end, which comes after `n` of them. */
  lemma EveryResolutionCounts<R>(n: nat, limit: int, task: nat -> R, schedule: seq<nat>, k: nat)
    requires n > 0 && Busy(Play(Start(n, limit), task, schedule), k)
    ensures var p := Play(Start(n, limit), task, schedule);
            p.slots[k].value < |p.results| && Complete(p, k, task(p.slots[k].value)).done == p.done + 1 <= n
  {
    StartInv<R>(n, limit);
    PlayInv(Start(n, limit), task, schedule);
    CompleteInv(Play(Start(n, limit), task, schedule), k, task(0));
  }

  /** When no worker is busy any more, every result is in place: no holes. */
  lemma FinishedPoolIsComplete<R>(n: nat, limit: int, task: nat -> R, schedule: seq<nat>)
    requires n > 0
    requires BusyCount(Play(Start(n, limit), task, schedule).slots) == 0
    ensures var p := Play(Start(n, limit), task, schedule);
            |p.results| == n && forall i :: 0 <= i < n ==> p.results[i] == Some(task(i))
  {
    StartInv<R>(n, limit);
    PlayInv(Start(n, limit), task, schedule);
    var p := Play(Start(n, limit), task, schedule);
    NoneBusyCounts(p.slots);
    IdleIsComplete(p);
  }

  /** The numbers of tasks in flight so far, one for each number of resolutions. */
  predicate FlightLog(flight: seq<nat>, limit: int, n: nat, done: nat) {
    && |flight| == done + 1
    && forall t :: 0 <= t <= done ==> flight[t] == Min(if limit < 1 then 1 else limit, n - t)
  }

  lemma FlightGrows<R>(p: Pool<R>, limit: int, flight: seq<nat>)
    requires Inv(p) && p.n > 0 && |p.slots| == EffectiveLimit(limit, p.n) && p.done > 0
    requires FlightLog(flight, limit, p.n, p.done - 1)
    ensures FlightLog(flight + [BusyCount(p.slots)], limit, p.n, p.done)
  {
    InFlightNow(p, limit);
  }

  /** The end of a run: nothing is in flight, so everything is done and in place. */
  lemma AllDone<R>(p: Pool<R>, task: nat -> R, limit: int, flight: seq<nat>)
    requires Inv(p) && ResultsSound(p, task) && p.n > 0 && |p.slots| == EffectiveLimit(limit, p.n)
    requires forall k :: 0 <= k < |p.slots| ==> p.slots[k].None?
    requires FlightLog(flight, limit, p.n, p.done)
    ensures |p.results| == p.n && forall i :: 0 <= i < p.n ==> p.results[i] == Some(task(i))
    ensures FlightLog(flight, limit, p.n, p.n)
  {
    NoneBusyCounts(p.slots);
    IdleIsComplete(p);
    InFlightNow(p, limit);
  }

  /** The pool as the loop's variables hold it. */
  ghost predicate Holds<R>(p: Pool<R>, slots: seq<Option<nat>>, currentIndex: nat, results: seq<Option<R>>) {
    p.slots == slots && p.next == currentIndex && p.results == results
  }

  /** Worker `k`'s task has resolved to `r`: it is stored, and the worker takes the next index or stops. */
  method Resolve<R>(
    ghost p: Pool<R>, stored: array<Option<R>>, slots: seq<Option<nat>>, currentIndex: nat, k: nat, r: R
  ) returns (slots': seq<Option<nat>>, currentIndex': nat)
    requires Holds(p, slots, currentIndex, stored[..]) && p.n == stored.Length
    requires k < |slots| && slots[k].Some? && slots[k].value < stored.Length
    modifies stored
    ensures Holds(Complete(p, k, r), slots', currentIndex', stored[..])
  {
    stored[slots[k].value] := Some(r);
    if currentIndex < stored.Length {
      return slots[k := Some(currentIndex)], currentIndex + 1;
    }
    return slots[k := None], currentIndex;
  }

  /** Every worker starts and claims an index. */
  method StartWorkers<R>(n: nat, limit: int) returns (slots: seq<Option<nat>>, currentIndex: nat)
    requires n > 0
    ensures Holds(Start<R>(n, limit), slots, currentIndex, seq(n, _ => None))
  {
    var effectiveLimit := EffectiveLimit(limit, n);
    slots, currentIndex := [], 0;
    for i := 0 to effectiveLimit
      invariant currentIndex == i && slots == seq(i, k => Some(k))
    {
      slots := slots + [Some(currentIndex)];
      currentIndex := currentIndex + 1;
    }
  }

  /** The array without its holes, of which there are none. */
  function Values<R>(stored: seq<Option<R>>): (results: seq<R>)
    requires forall i :: 0 <= i < |stored| ==> stored[i].Some?
    ensures |results| == |stored| && forall i :: 0 <= i < |stored| ==> Some(results[i]) == stored[i]
  {
    seq(|stored|, i requires 0 <= i < |stored| => stored[i].value)
  }

  /** Item `i`'s result. */
  function Task<T, R>(items: seq<T>, worker: (T, nat) -> R): nat -> R
    requires items != []
  {
    (i: nat) => worker(items[if i < |items| then i else 0], i)
  }

  /** The pool is on its way: its state is sound, the loop's variables hold it, and the flight log is complete. */
  ghost predicate OnItsWay<R>(
    p: Pool<R>, task: nat -> R, limit: int, flight: seq<nat>,
    slots: seq<Option<nat>>, currentIndex: nat, results: seq<Option<R>>
  ) {
    && Inv(p) && ResultsSound(p, task) && p.n > 0 && |p.slots| == EffectiveLimit(limit, p.n)
    && Holds(p, slots, currentIndex, results) && FlightLog(flight, limit, p.n, p.done)
  }

  lemma SetsOut<R>(n: nat, limit: int, task: nat -> R, slots: seq<Option<nat>>, currentIndex: nat)
    requires n > 0 && Holds(Start<R>(n, limit), slots, currentIndex, seq(n, _ => None))
    ensures OnItsWay(Start<R>(n, limit), task, limit, [BusyCount(slots)], slots, currentIndex, seq(n, _ => None))
  {
    StartInv<R>(n, limit);
    InFlightNow(Start<R>(n, limit), limit);
  }

  lemma BusyIndex<R>(
    p: Pool<R>, task: nat -> R, limit: int, flight: seq<nat>,
    slots: seq<Option<nat>>, currentIndex: nat, results: seq<Option<R>>, k: nat
  )
    requires OnItsWay(p, task, limit, flight, slots, currentIndex, results) && k < |slots| && slots[k].Some?
    ensures Holds(p, slots, currentIndex, results) && Busy(p, k) && p.slots[k] == slots[k]
    ensures slots[k].value < |p.results| == p.n == |results| && p.done < p.n
  {
    CompleteInv(p, k, task(slots[k].value));
  }

  lemma GoesOn<R>(
    p: Pool<R>, task: nat -> R, limit: int, flight: seq<nat>,
    slots: seq<Option<nat>>, currentIndex: nat, results: seq<Option<R>>, k: nat,
    slots': seq<Option<nat>>, currentIndex': nat, results': seq<Option<R>>
  )
    requires OnItsWay(p, task, limit, flight, slots, currentIndex, results) && Busy(p, k)
    requires p.slots[k].value < |p.results|
    requires Holds(Complete(p, k, task(p.slots[k].value)), slots', currentIndex', results')
    ensures OnItsWay(Complete(p, k, task(p.slots[k].value)), task, limit, flight + [BusyCount(slots')],
                     slots', currentIndex', results')
  {
    CompleteInv(p, k, task(p.slots[k].value));
    CompleteSound(p, k, task);
    FlightGrows(Complete(p, k, task(p.slots[k].value)), limit, flight);
  }

  lemma Arrives<R>(
    p: Pool<R>, task: nat -> R, limit: int, flight: seq<nat>,
    slots: seq<Option<nat>>, currentIndex: nat, results: seq<Option<R>>
  )
    requires OnItsWay(p, task, limit, flight, slots, currentIndex, results)
    requires forall k :: 0 <= k < |slots| ==> slots[k].None?
    ensures |results| == p.n && forall i :: 0 <= i < p.n ==> results[i] == Some(task(i))
    ensures FlightLog(flight, limit, p.n, p.n)
  {
    AllDone(p, task, limit, flight);
  }

  /**
   * The source's loop. Which pending task resolves next is left open, so the contract holds for
   * every order of resolution; the run ends because every resolution leaves one task fewer. `flight[t]`
   * is the number of tasks in flight once `t` of them have resolved.
   */
  method RunWithConcurrency<T, R>(items: seq<T>, limit: int, worker: (T, nat) -> R)
    returns (results: seq<R>, ghost flight: seq<nat>)
    ensures |results| == |items|
    ensures forall i :: 0 <= i < |items| ==> results[i] == worker(items[i], i)
    ensures FlightLog(flight, limit, |items|, |items|)
  {
    if |items| == 0 {
      return [], [0];
    }
    var n := |items|;
    var stored := new Option<R>[n](_ => None);
    var slots, currentIndex := StartWorkers<R>(n, limit);
    ghost var p, task := Start<R>(n, limit), Task(items, worker);
    assert stored[..] == seq(n, _ => None) && p.n == n;
    SetsOut(n, limit, task, slots, currentIndex);
    flight := [BusyCount(slots)];
    hide OnItsWay, FlightLog, BusyCount, Start, Holds;
    while exists k :: 0 <= k < |slots| && slots[k].Some?
      invariant OnItsWay(p, task, limit, flight, slots, currentIndex, stored[..]) && p.n == n
      decreases n - p.done
    {
      var k :| 0 <= k < |slots| && slots[k].Some?;
      var index := slots[k].value;
      BusyIndex(p, task, limit, flight, slots, currentIndex, stored[..], k);
      ghost var before, slots0, index0 := stored[..], slots, currentIndex;
      slots, currentIndex := Resolve(p, stored, slots, currentIndex, k, worker(items[index], index));
      GoesOn(p, task, limit, flight, slots0, index0, before, k, slots, currentIndex, stored[..]);
      p := Complete(p, k, task(index));
      flight := flight + [BusyCount(slots)];
    }
    Arrives(p, task, limit, flight, slots, currentIndex, stored[..]);
    results := Values(stored[..]);
  }
}
