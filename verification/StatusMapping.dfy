/** From courier status texts to the platform's states. */
module StatusMapping {
  import opened Orders
  import opened Lifecycle

  /** Whitespace, hyphen or underscore: in `[\s-_]` the hyphen is literal (Annex B.1.2 of ECMA-262). */
  predicate IsSeparator(c: char) {
    c == ' ' || ('\t' <= c <= '\r') || c == '-' || c == '_'
  }

  function NormaliseChar(c: char): string {
    if IsSeparator(Upper(c)) then "" else [Upper(c)]
  }

  function Normalise(s: string): string {
    if s == "" then "" else NormaliseChar(s[0]) + Normalise(s[1..])
  }

  predicate OccursAt(s: string, word: string, i: nat) {
    i + |word| <= |s| && s[i..i + |word|] == word
  }

  predicate Contains(s: string, word: string) {
    exists i :: 0 <= i <= |s| && OccursAt(s, word, i)
  }

  predicate ContainsAny(s: string, words: seq<string>) {
    exists k :: 0 <= k < |words| && Contains(s, words[k])
  }

  const FAILURE_WORDS := ["UNDELIVER", "NOTDELIVER", "FAIL", "REJECT", "RTO", "RETURN", "EXCEPTION"]
  const CANCEL_WORDS := ["CANCEL"]
  const TRANSIT_WORDS := ["OUTFOR", "OFD", "TRANSIT", "REACHED", "HUB", "SORT"]
  const DELIVERED_WORDS := ["DELIVER"]
  const PICKED_WORDS := ["PICK", "COLLECTED", "DISPATCHED"]

  function Classify(normalized: string): Status {
    if ContainsAny(normalized, FAILURE_WORDS) then Failed
    else if ContainsAny(normalized, CANCEL_WORDS) then Cancelled
    else if ContainsAny(normalized, TRANSIT_WORDS) then InTransit
    else if ContainsAny(normalized, DELIVERED_WORDS) then Delivered
    else if ContainsAny(normalized, PICKED_WORDS) then PickedUp
    else Created
  }

  function MapStatus(raw: string): Status {
    Classify(Normalise(raw))
  }

  /** The order in which categories are tried; smaller is tried first. */
  function Priority(s: Status): nat {
    match s
    case Failed => 0
    case Cancelled => 1
    case InTransit => 2
    case Delivered => 3
    case PickedUp => 4
    case Created => 5
    case PendingDispatch => 6
  }

  /** What becomes of each character; concatenation does the rest. */
  lemma NormaliseOne(c: char)
    ensures Normalise([c]) == if c == ' ' || '\t' <= c <= '\r' || c == '-' || c == '_' then ""
                              else if 'a' <= c <= 'z' then [c - ' '] else [c]
  {
    assert [c][1..] == "";
  }

  lemma {:induction false} NormaliseConcat(a: string, b: string)
    ensures Normalise(a + b) == Normalise(a) + Normalise(b)
  {
    if a == "" {
      assert a + b == b;
    } else {
      var c := NormaliseChar(a[0]);
      NormaliseCons(a + b);
      NormaliseCons(a);
      hide NormaliseChar, Normalise;
      assert (a + b)[1..] == a[1..] + b;
      NormaliseConcat(a[1..], b);
      Associates(c, Normalise(a[1..]), Normalise(b));
    }
  }

  lemma NormaliseCons(s: string)
    requires s != ""
    ensures Normalise(s) == NormaliseChar(s[0]) + Normalise(s[1..])
  {
  }

  lemma Associates(a: string, b: string, c: string)
    ensures a + (b + c) == a + b + c
  {
  }

  lemma {:induction false} NormaliseIdempotent(s: string)
    ensures Normalise(Normalise(s)) == Normalise(s)
  {
    if s != "" {
      var c := NormaliseChar(s[0]);
      NormaliseConcat(c, Normalise(s[1..]));
      NormaliseIdempotent(s[1..]);
      assert Normalise(c) == c by {
        if c != "" {
          assert c[1..] == "" && NormaliseChar(c[0]) == c;
        }
      }
    }
  }

  lemma ContainsInside(pre: string, s: string, post: string, words: seq<string>)
    ensures ContainsAny(s, words) ==> ContainsAny(pre + s + post, words)
  {
    if ContainsAny(s, words) {
      var k :| 0 <= k < |words| && Contains(s, words[k]);
      var w := words[k];
      var i :| 0 <= i <= |s| && OccursAt(s, w, i);
      assert OccursAt(pre + s + post, w, |pre| + i);
      assert Contains(pre + s + post, w);
    }
  }

  // Main results

  /** More text around a status can only move it to the same or an earlier-tried category. */
  lemma SurroundingTextOnlyRaisesPriority(pre: string, s: string, post: string)
    ensures Priority(MapStatus(pre + s + post)) <= Priority(MapStatus(s))
  {
    hide Normalise, ContainsAny;
    NormaliseConcat(pre + s, post);
    NormaliseConcat(pre, s);
    var a, m, z := Normalise(pre), Normalise(s), Normalise(post);
    ContainsInside(a, m, z, FAILURE_WORDS);
    ContainsInside(a, m, z, CANCEL_WORDS);
    ContainsInside(a, m, z, TRANSIT_WORDS);
    ContainsInside(a, m, z, DELIVERED_WORDS);
    ContainsInside(a, m, z, PICKED_WORDS);
  }

  /** Separators may be inserted or dropped anywhere. */
  lemma SeparatorsDoNotMatter(a: string, gap: string, b: string)
    requires forall i :: 0 <= i < |gap| ==>
               gap[i] == ' ' || '\t' <= gap[i] <= '\r' || gap[i] == '-' || gap[i] == '_'
    ensures MapStatus(a + gap + b) == MapStatus(a + b)
  {
    GapVanishes(gap);
    NormaliseConcat(a + gap, b);
    NormaliseConcat(a, gap);
    NormaliseConcat(a, b);
    assert Normalise(a) + "" == Normalise(a);
  }

  lemma {:induction false} GapVanishes(gap: string)
    requires forall i :: 0 <= i < |gap| ==> IsSeparator(gap[i])
    ensures Normalise(gap) == ""
  {
    if gap != "" {
      GapVanishes(gap[1..]);
    }
  }

  /** Letter case does not matter. */
  lemma CaseDoesNotMatter(a: string, b: string)
    requires |a| == |b| && forall i :: 0 <= i < |a| ==> Upper(a[i]) == Upper(b[i])
    ensures MapStatus(a) == MapStatus(b)
  {
    SameNormalForm(a, b);
  }

  lemma {:induction false} SameNormalForm(a: string, b: string)
    requires |a| == |b| && forall i :: 0 <= i < |a| ==> Upper(a[i]) == Upper(b[i])
    ensures Normalise(a) == Normalise(b)
  {
    if a != "" {
      SameNormalForm(a[1..], b[1..]);
    }
  }

  /** Normalising first changes nothing. */
  lemma MappingIgnoresNormalisation(s: string)
    ensures MapStatus(Normalise(s)) == MapStatus(s)
  {
    NormaliseIdempotent(s);
  }

  /** Each keyword with its category, in the order in which they are tried. */
  const KEYWORDS := [
    ("UNDELIVER", Failed), ("NOTDELIVER", Failed), ("FAIL", Failed), ("REJECT", Failed), ("RTO", Failed),
    ("RETURN", Failed), ("EXCEPTION", Failed), ("CANCEL", Cancelled), ("OUTFOR", InTransit), ("OFD", InTransit),
    ("TRANSIT", InTransit), ("REACHED", InTransit), ("HUB", InTransit), ("SORT", InTransit), ("DELIVER", Delivered),
    ("PICK", PickedUp), ("COLLECTED", PickedUp), ("DISPATCHED", PickedUp)
  ]

  /** Keyword `k` occurs in the text, and no earlier one does. */
  ghost predicate IsFirst(s: string, k: nat) {
    && k < |KEYWORDS| && Contains(Normalise(s), KEYWORDS[k].0)
    && forall j :: 0 <= j < k ==> !Contains(Normalise(s), KEYWORDS[j].0)
  }

  lemma ContainsAnyOf(s: string, words: seq<string>, from: nat)
    requires from + |words| <= |KEYWORDS| && forall i :: 0 <= i < |words| ==> words[i] == KEYWORDS[from + i].0
    ensures ContainsAny(s, words) <==> exists k :: from <= k < from + |words| && Contains(s, KEYWORDS[k].0)
  {
    if k :| from <= k < from + |words| && Contains(s, KEYWORDS[k].0) {
      assert Contains(s, words[k - from]);
    }
  }

  /** The first keyword that occurs decides. */
  lemma FirstKeywordDecides(s: string, k: nat)
    requires IsFirst(s, k)
    ensures MapStatus(s) == KEYWORDS[k].1
  {
    hide Normalise, Contains, ContainsAny;
    KeywordGroups(Normalise(s));
    assert forall j :: 0 <= j < 7 ==> KEYWORDS[j].1 == Failed;
    assert forall j :: 8 <= j < 14 ==> KEYWORDS[j].1 == InTransit;
    assert forall j :: 15 <= j < 18 ==> KEYWORDS[j].1 == PickedUp;
  }

  /** A text without any is CREATED. */
  lemma NoKeywordIsCreated(s: string)
    requires forall k :: 0 <= k < |KEYWORDS| ==> !Contains(Normalise(s), KEYWORDS[k].0)
    ensures MapStatus(s) == Created
  {
    hide Normalise, Contains, ContainsAny;
    KeywordGroups(Normalise(s));
  }

  lemma KeywordGroups(n: string)
    ensures ContainsAny(n, FAILURE_WORDS) <==> exists k :: 0 <= k < 7 && Contains(n, KEYWORDS[k].0)
    ensures ContainsAny(n, CANCEL_WORDS) <==> exists k :: 7 <= k < 8 && Contains(n, KEYWORDS[k].0)
    ensures ContainsAny(n, TRANSIT_WORDS) <==> exists k :: 8 <= k < 14 && Contains(n, KEYWORDS[k].0)
    ensures ContainsAny(n, DELIVERED_WORDS) <==> exists k :: 14 <= k < 15 && Contains(n, KEYWORDS[k].0)
    ensures ContainsAny(n, PICKED_WORDS) <==> exists k :: 15 <= k < 18 && Contains(n, KEYWORDS[k].0)
  {
    hide Contains, ContainsAny;
    ContainsAnyOf(n, FAILURE_WORDS, 0);
    ContainsAnyOf(n, CANCEL_WORDS, 7);
    ContainsAnyOf(n, TRANSIT_WORDS, 8);
    ContainsAnyOf(n, DELIVERED_WORDS, 14);
    ContainsAnyOf(n, PICKED_WORDS, 15);
  }

  // Tracking reports

  /** Absent text fields are empty, which the source's `||` treats alike. */
  datatype RawEvent = RawEvent(status: string, activity: string, action: string, at: int)

  datatype RawReport = RawReport(currentStatus: string, status: string, events: seq<RawEvent>)

  function FirstText(a: string, b: string, c: string, otherwise: string): string {
    if a != "" then a else if b != "" then b else if c != "" then c else otherwise
  }

  function MapTrackingTimeline(raw: seq<RawEvent>): (scans: seq<Scan>)
    ensures |scans| == |raw|
    ensures forall i :: 0 <= i < |raw| ==> scans[i].at == raw[i].at && scans[i].status != PendingDispatch
    ensures forall i :: 0 <= i < |raw| ==>
              var e := raw[i];
              && scans[i].status == MapStatus(if e.status != "" then e.status else if e.activity != "" then e.activity
                                              else if e.action != "" then e.action else "IN_TRANSIT")
              && scans[i].activity == if e.activity != "" then e.activity else if e.action != "" then e.action
                                      else if e.status != "" then e.status else "Status update"
  {
    if raw == [] then []
    else
      var e := raw[0];
      var text := FirstText(e.status, e.activity, e.action, "IN_TRANSIT");
      CaseDoesNotMatter(UpperCase(text), text);
      [Scan(MapStatus(UpperCase(text)), FirstText(e.activity, e.action, e.status, "Status update"), e.at)]
      + MapTrackingTimeline(raw[1..])
  }

  function ResolveCurrentTrackingStatus(raw: RawReport, scans: seq<Scan>): Status {
    if raw.currentStatus != "" || raw.status != "" then MapStatus(FirstText(raw.currentStatus, raw.status, "", ""))
    else if |scans| > 0 then scans[|scans| - 1].status
    else Created
  }

  /** Whatever the courier sends, the report can be fed to `trackOrder`: it never says PENDING_DISPATCH.
      Its own current status comes first, then its status, then its last event's. */
  function ToReport(raw: RawReport): (r: Report)
    ensures ValidReport(r)
    ensures r.history == MapTrackingTimeline(raw.events)
    ensures raw.currentStatus != "" ==> r.status == MapStatus(raw.currentStatus)
    ensures raw.currentStatus == "" && raw.status != "" ==> r.status == MapStatus(raw.status)
    ensures raw.currentStatus == "" && raw.status == "" && raw.events == [] ==> r.status == Created
    ensures raw.currentStatus == "" && raw.status == "" && raw.events != [] ==>
              r.status == r.history[|r.history| - 1].status
  {
    var scans := MapTrackingTimeline(raw.events);
    Report(ResolveCurrentTrackingStatus(raw, scans), scans)
  }
}
