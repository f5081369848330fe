/** The persisted entities: orders, tracking events and the requests that create them. */
module Orders {
  import opened Options

  /** The seven shipment states. */
  datatype Status =
    | PendingDispatch
    | Created
    | PickedUp
    | InTransit
    | Delivered
    | Cancelled
    | Failed

  type OrderId = string

  /** A courier never answers with an empty air waybill number. */
  type Awb = s: string | s != "" witness "AWB"

  /** A normalised create-order request; `details` stands for addresses, package and payment. */
  datatype Request = Request(orderId: OrderId, partner: string, details: string)

  /** One row of the order table, keyed by its order id. */
  datatype Row = Row(partner: string, awb: Option<Awb>, status: Status, retryCount: nat, payload: Request)

  /** Courier scans carry the courier's time; events the platform writes carry the server's clock. */
  datatype Stamp = ServerClock | At(ms: int)

  /** One entry of the append-only event log. */
  datatype Event = Event(orderId: OrderId, awb: string, status: Status, activity: string, stamp: Stamp)

  /** Neither booked nor otherwise settled: `createOrder` dispatches such an order again. */
  predicate IsOpen(s: Status) {
    s == PendingDispatch || s == Failed
  }

  /** No booking stands for this order yet. */
  predicate NeedsBooking(row: Option<Row>) {
    row.None? || IsOpen(row.value.status)
  }

  /** A status that promises a parcel with a waybill. */
  predicate HasParcel(s: Status) {
    s == Created || s == PickedUp || s == InTransit || s == Delivered
  }

  /** `awb_number || ''` */
  function AwbText(row: Row): string {
    match row.awb
    case None => ""
    case Some(a) => a
  }

  /** Upper-casing, on ASCII. */
  function Upper(c: char): char {
    if 'a' <= c <= 'z' then c - 'a' + 'A' else c
  }

  function UpperCase(s: string): (r: string)
    ensures |r| == |s|
    ensures forall i :: 0 <= i < |s| ==> r[i] == if 'a' <= s[i] <= 'z' then s[i] - ' ' else s[i]
  {
    seq(|s|, i requires 0 <= i < |s| => Upper(s[i]))
  }

  function NewRow(req: Request): Row {
    Row(req.partner, None, PendingDispatch, 0, req)
  }

  /** The entries of the log that belong to one order, in log order. */
  function EventsOf(log: seq<Event>, id: OrderId): seq<Event> {
    if log == [] then []
    else
      var last := log[|log| - 1];
      EventsOf(log[..|log| - 1], id) + if last.orderId == id then [last] else []
  }

  /** All of this order's entries, as often as they are in the log, and no others. */
  lemma {:induction false} EventsOfIsFilter(log: seq<Event>, id: OrderId, e: Event)
    ensures multiset(EventsOf(log, id))[e] == if e.orderId == id then multiset(log)[e] else 0
  {
    if log != [] {
      var last := |log| - 1;
      EventsOfIsFilter(log[..last], id, e);
      assert log == log[..last] + [log[last]];
    }
  }

  lemma {:induction false} EventsOfAppend(log: seq<Event>, more: seq<Event>, id: OrderId)
    ensures EventsOf(log + more, id) == EventsOf(log, id) + EventsOf(more, id)
  {
    if more == [] {
      assert log + more == log;
    } else {
      var init := more[..|more| - 1];
      EventsOfAppend(log, init, id);
      assert (log + more)[..|log + more| - 1] == log + init;
      assert (log + more)[|log + more| - 1] == more[|more| - 1];
    }
  }
}
