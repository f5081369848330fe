/** `trackOrder` on the append-only event log: a set union that keeps the order of first occurrence. */
module TrackingLog {
  import opened Options
  import opened Orders
  import opened Lifecycle

  /** `appendNewTrackingEvents`, scan by scan. */
  function AppendNew(log: seq<Event>, id: OrderId, waybill: string, scans: seq<Scan>): seq<Event>
    decreases |scans|
  {
    if scans == [] then log
    else
      AppendNew(if Logged(log, id, scans[0]) then log else log + [ScanEvent(id, waybill, scans[0])],
                id, waybill, scans[1..])
  }

  // What it means

  lemma LoggedAppend(log: seq<Event>, id: OrderId, waybill: string, x: Scan, y: Scan)
    ensures Logged(log + [ScanEvent(id, waybill, x)], id, y) <==> Logged(log, id, y) || x == y
  {
    var more := log + [ScanEvent(id, waybill, x)];
    if Logged(log, id, y) {
      var i :| 0 <= i < |log| && SameScan(log[i], id, y);
      assert SameScan(more[i], id, y);
    }
    if x == y {
      assert SameScan(more[|log|], id, y);
    }
  }

  /** The keys afterwards are exactly those logged before and those reported. */
  lemma {:induction false} KeysAreUnion(log: seq<Event>, id: OrderId, waybill: string, scans: seq<Scan>, x: Scan)
    ensures Logged(AppendNew(log, id, waybill, scans), id, x) <==> Logged(log, id, x) || x in scans
    decreases |scans|
  {
    if scans != [] {
      LoggedAppend(log, id, waybill, scans[0], x);
      var log' := if Logged(log, id, scans[0]) then log else log + [ScanEvent(id, waybill, scans[0])];
      KeysAreUnion(log', id, waybill, scans[1..], x);
      assert x in scans <==> x == scans[0] || x in scans[1..];
    }
  }

  lemma {:induction false} AppendNewSnoc(log: seq<Event>, id: OrderId, waybill: string, scans: seq<Scan>, x: Scan)
    ensures var l := AppendNew(log, id, waybill, scans);
            AppendNew(log, id, waybill, scans + [x]) == if Logged(l, id, x) then l else l + [ScanEvent(id, waybill, x)]
    decreases |scans|
  {
    if scans == [] {
      assert (scans + [x])[1..] == [];
    } else {
      var log' := if Logged(log, id, scans[0]) then log else log + [ScanEvent(id, waybill, scans[0])];
      AppendNewSnoc(log', id, waybill, scans[1..], x);
      assert (scans + [x])[1..] == scans[1..] + [x];
    }
  }

  /** Scan `i` is neither in the log nor earlier in the report. */
  predicate FirstNew(log: seq<Event>, id: OrderId, scans: seq<Scan>, i: nat)
    requires i < |scans|
  {
    !Logged(log, id, scans[i]) && scans[i] !in scans[..i]
  }

  /** The events of the first `n` scans' new ones, in report order. */
  function Picked(log: seq<Event>, id: OrderId, waybill: string, scans: seq<Scan>, n: nat): seq<Event>
    requires n <= |scans|
  {
    if n == 0 then []
    else
      Picked(log, id, waybill, scans, n - 1)
      + if FirstNew(log, id, scans, n - 1) then [ScanEvent(id, waybill, scans[n - 1])] else []
  }

  lemma {:induction false} AppendsPicked(log: seq<Event>, id: OrderId, waybill: string, scans: seq<Scan>, n: nat)
    requires n <= |scans|
    ensures AppendNew(log, id, waybill, scans[..n]) == log + Picked(log, id, waybill, scans, n)
  {
    if n > 0 {
      var init := scans[..n - 1];
      AppendsPicked(log, id, waybill, scans, n - 1);
      assert scans[..n] == init + [scans[n - 1]];
      AppendNewSnoc(log, id, waybill, init, scans[n - 1]);
      KeysAreUnion(log, id, waybill, init, scans[n - 1]);
    }
  }

  /** The log only grows at its end, by each new scan once, in the order of first occurrence. */
  lemma LogGrowsByNewScans(log: seq<Event>, id: OrderId, waybill: string, scans: seq<Scan>)
    ensures AppendNew(log, id, waybill, scans) == log + Picked(log, id, waybill, scans, |scans|)
  {
    AppendsPicked(log, id, waybill, scans, |scans|);
    assert scans[..|scans|] == scans;
  }

  /** Repeating a report, or any part of it, adds nothing. */
  lemma {:induction false} RepeatingAddsNothing(
    log: seq<Event>, id: OrderId, waybill: string, scans: seq<Scan>, again: seq<Scan>
  )
    requires forall x :: x in again ==> x in scans
    ensures var l := AppendNew(log, id, waybill, scans); AppendNew(l, id, waybill, again) == l
    decreases |again|
  {
    if again != [] {
      KeysAreUnion(log, id, waybill, scans, again[0]);
      RepeatingAddsNothing(log, id, waybill, scans, again[1..]);
    }
  }

  /** Two reports in either order leave the same set of keys. */
  lemma ReportOrderDoesNotMatter(log: seq<Event>, id: OrderId, waybill: string, a: seq<Scan>, b: seq<Scan>, x: Scan)
    ensures Logged(AppendNew(AppendNew(log, id, waybill, a), id, waybill, b), id, x)
       <==> Logged(AppendNew(AppendNew(log, id, waybill, b), id, waybill, a), id, x)
  {
    KeysAreUnion(log, id, waybill, a, x);
    KeysAreUnion(AppendNew(log, id, waybill, a), id, waybill, b, x);
    KeysAreUnion(log, id, waybill, b, x);
    KeysAreUnion(AppendNew(log, id, waybill, b), id, waybill, a, x);
  }

  lemma {:induction false} AppendNewConcat(log: seq<Event>, id: OrderId, waybill: string, a: seq<Scan>, b: seq<Scan>)
    ensures AppendNew(log, id, waybill, a + b) == AppendNew(AppendNew(log, id, waybill, a), id, waybill, b)
    decreases |a|
  {
    if a == [] {
      assert a + b == b;
    } else {
      var log' := if Logged(log, id, a[0]) then log else log + [ScanEvent(id, waybill, a[0])];
      assert (a + b)[1..] == a[1..] + b;
      AppendNewConcat(log', id, waybill, a[1..], b);
    }
  }

  /** Taking a report up again from its start, after any part of it, ends where one go would have. */
  lemma ResumingIsOneGo(log: seq<Event>, id: OrderId, waybill: string, scans: seq<Scan>, n: nat)
    requires n <= |scans|
    ensures AppendNew(AppendNew(log, id, waybill, scans[..n]), id, waybill, scans) == AppendNew(log, id, waybill, scans)
  {
    var part := AppendNew(log, id, waybill, scans[..n]);
    assert scans == scans[..n] + scans[n..];
    AppendNewConcat(part, id, waybill, scans[..n], scans[n..]);
    RepeatingAddsNothing(log, id, waybill, scans[..n], scans[..n]);
    AppendNewConcat(log, id, waybill, scans[..n], scans[n..]);
  }
}
