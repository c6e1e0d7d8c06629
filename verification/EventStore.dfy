/**
 The events table (cmd/stellar-rpc/internal/db/event.go): a map from the text of a cursor to a row. Trimming,
 range scans and ordering all go by the text of the key.
 */
module EventStore {
  import opened DecimalText
  import opened Cursors
  import opened Sequences
  import opened Chain
  import opened EventFilters
  import opened EventPrefilter

  datatype EventRow = EventRow(columns: Columns, data: DiagnosticEvent, closeTime: int, txHash: Hash)

  type EventTable = map<string, EventRow>

  function RowOf(e: StoredEvent): (r: EventRow)
    ensures |r.columns.topic| == MAX_TOPIC_COUNT
  {
    EventRow(ColumnsOf(e.event.event), e.event, e.closeTime, e.txHash)
  }

  /** The table holds exactly the rows of the given events. */
  ghost predicate Holds(t: EventTable, es: seq<StoredEvent>) {
    && (forall e :: e in es ==> Placed(e) && String(e.cursor) in t && t[String(e.cursor)] == RowOf(e))
    && (forall k :: k in t ==> exists e :: e in es && Placed(e) && String(e.cursor) == k)
  }

  lemma {:induction false} HeldTableUnique(t: EventTable, u: EventTable, es: seq<StoredEvent>)
    requires Holds(t, es) && Holds(u, es)
    ensures t == u
  {
    forall k | k in t ensures k in u && t[k] == u[k] {
      var e :| e in es && Placed(e) && String(e.cursor) == k;
    }
    forall k | k in u ensures k in t {
      var e :| e in es && Placed(e) && String(e.cursor) == k;
    }
  }

  /** The keys of events, in the order of the events. */
  function Keys(es: seq<StoredEvent>): (ks: seq<string>)
    requires Ordered(es)
    ensures |ks| == |es|
    ensures forall i :: 0 <= i < |es| ==> ks[i] == String(es[i].cursor)
  {
    seq(|es|, i requires 0 <= i < |es| => String(es[i].cursor))
  }

  // ---- SELECT ... ORDER BY id ----

  predicate TextSorted(ks: seq<string>) {
    forall i, j :: 0 <= i < j < |ks| ==> TextLess(ks[i], ks[j])
  }

  lemma {:induction false} LeastKey(ks: set<string>) returns (least: string)
    requires ks != {}
    ensures least in ks && forall k :: k in ks ==> k == least || TextLess(least, k)
    decreases ks
  {
    least :| least in ks;
    if ks != {least} {
      var rest := LeastKey(ks - {least});
      TextLessTotal(least, rest);
      if TextLess(rest, least) {
        least := rest;
      } else {
        forall k | k in ks ensures k == least || TextLess(least, k) {
          if k != rest && k != least { TextLessTransitive(least, rest, k); }
        }
      }
    }
  }

  /** The rows between two keys that get past the prefilter. */
  predicate Selected(t: EventTable, start: string, end: string, p: Prefilter, k: string) {
    && k in t && !TextLess(k, start) && TextLess(k, end)
    && |p.topics| <= |t[k].columns.topic| && Passes(p, t[k].columns)
  }

  /** What the SQL engine answers to the range query: the selected keys in text order. */
  method QueryIds(t: EventTable, start: string, end: string, p: Prefilter) returns (ids: seq<string>)
    ensures TextSorted(ids)
    ensures forall k :: k in ids <==> Selected(t, start, end, p, k)
  {
    ids := [];
    var rest := set k | k in t && Selected(t, start, end, p, k);
    while rest != {}
      invariant TextSorted(ids)
      invariant forall i, k :: 0 <= i < |ids| && k in rest ==> TextLess(ids[i], k)
      invariant forall k :: Selected(t, start, end, p, k) <==> k in ids || k in rest
      decreases rest
    {
      ghost var least := LeastKey(rest);
      var k :| k in rest && forall j :: j in rest ==> j == k || TextLess(k, j);
      ids, rest := ids + [k], rest - {k};
    }
  }

  lemma {:induction false} SortedTail(ks: seq<string>)
    requires TextSorted(ks) && ks != []
    ensures TextSorted(ks[1..]) && ks[0] !in ks[1..]
    ensures forall k :: k in ks <==> k == ks[0] || k in ks[1..]
    ensures forall k :: k in ks[1..] ==> TextLess(ks[0], k)
  {
    TextLessIrreflexive(ks[0]);
    assert ks == [ks[0]] + ks[1..];
  }

  /** The answer to a query is determined by the selected set of keys. */
  lemma {:induction false} SortedUnique(a: seq<string>, b: seq<string>)
    requires TextSorted(a) && TextSorted(b)
    requires forall k :: k in a <==> k in b
    ensures a == b
  {
    if a == [] || b == [] {
      HasMember(a);
      HasMember(b);
    } else {
      assert a[0] in b;
      SortedTail(a);
      SortedTail(b);
      if a[0] != b[0] {
        assert b[0] in a && TextLess(a[0], b[0]) && TextLess(b[0], a[0]);
        TextLessTransitive(a[0], b[0], a[0]);
        TextLessIrreflexive(a[0]);
      }
      SortedUnique(a[1..], b[1..]);
    }
  }

  lemma {:induction false} KeysSorted(es: seq<StoredEvent>)
    requires Ordered(es)
    ensures TextSorted(Keys(es))
  {
    forall i, j | 0 <= i < j < |es| ensures TextLess(Keys(es)[i], Keys(es)[j]) {
      StringOrder(es[i].cursor, es[j].cursor);
    }
  }

  // ---- subsequences of the history ----

  /** What the range query lets through; bounds are ranks, the upper one exclusive. */
  function Prefiltered(lo: int, hi: int, fs: seq<EventFilter>): StoredEvent -> bool {
    (e: StoredEvent) => lo <= Rank(e.cursor) < hi && Kept(fs, ColumnsOf(e.event.event))
  }

  /** What the scan function keeps. */
  function Matched(fs: seq<EventFilter>): StoredEvent -> bool {
    (e: StoredEvent) => ValidFilters(fs) && Matches(fs, e.event.event)
  }

  /** What a request lets through. */
  predicate Asked(fs: seq<EventFilter>, e: StoredEvent) {
    Kept(fs, ColumnsOf(e.event.event)) && ValidFilters(fs) && Matches(fs, e.event.event)
  }

  function Window(lo: int, hi: int, fs: seq<EventFilter>): StoredEvent -> bool {
    (e: StoredEvent) => lo <= Rank(e.cursor) < hi && Asked(fs, e)
  }

  function FromLedger(cutoff: nat): StoredEvent -> bool {
    (e: StoredEvent) => cutoff <= e.cursor.ledger
  }

  lemma {:induction false} PickOrdered(es: seq<StoredEvent>, p: StoredEvent -> bool)
    requires Ordered(es)
    ensures Ordered(Pick(es, p))
    ensures Pick(es, p) != [] ==> Rank(es[0].cursor) <= Rank(Pick(es, p)[0].cursor)
  {
    if es != [] {
      PickOrdered(es[1..], p);
      if p(es[0]) { OrderedConcat([es[0]], Pick(es[1..], p)); }
    }
  }

  lemma {:induction false} KeyListed(es: seq<StoredEvent>, e: StoredEvent)
    requires Ordered(es) && e in es
    ensures Placed(e) && String(e.cursor) in Keys(es)
  {
    var i :| 0 <= i < |es| && es[i] == e;
    assert Keys(es)[i] == String(e.cursor);
  }

  lemma {:induction false} ListedKey(es: seq<StoredEvent>, k: string) returns (e: StoredEvent)
    requires Ordered(es) && k in Keys(es)
    ensures e in es && Placed(e) && String(e.cursor) == k
  {
    var i :| 0 <= i < |es| && Keys(es)[i] == k;
    e := es[i];
  }

  lemma {:induction false} KeyBetween(c: Cursor, lo: Cursor, hi: Cursor)
    requires InRange(c) && InRange(lo) && InRange(hi)
    ensures !TextLess(String(c), String(lo)) && TextLess(String(c), String(hi)) <==> Rank(lo) <= Rank(c) < Rank(hi)
  {
    StringOrder(c, lo);
    StringOrder(c, hi);
  }

  lemma {:induction false} RowSelected(t: EventTable, e: StoredEvent, lo: Cursor, hi: Cursor,
      fs: seq<EventFilter>, p: Prefilter)
    requires InRange(e.cursor) && InRange(lo) && InRange(hi) && ValidFilters(fs) && Combines(fs, p)
    requires String(e.cursor) in t && t[String(e.cursor)] == RowOf(e)
    ensures Selected(t, String(lo), String(hi), p, String(e.cursor)) <==> Prefiltered(Rank(lo), Rank(hi), fs)(e)
  {
    KeyBetween(e.cursor, lo, hi);
    PassesAsKept(fs, p, ColumnsOf(e.event.event));
  }

  /** On the table of a history, the range query answers with the prefiltered events of the range. */
  lemma {:induction false} QueryAnswers(t: EventTable, es: seq<StoredEvent>, lo: Cursor, hi: Cursor,
      fs: seq<EventFilter>, p: Prefilter, ids: seq<string>)
    requires Ordered(es) && Holds(t, es) && InRange(lo) && InRange(hi) && ValidFilters(fs) && Combines(fs, p)
    requires TextSorted(ids) && forall k :: k in ids <==> Selected(t, String(lo), String(hi), p, k)
    ensures Ordered(Pick(es, Prefiltered(Rank(lo), Rank(hi), fs)))
    ensures ids == Keys(Pick(es, Prefiltered(Rank(lo), Rank(hi), fs)))
  {
    var s := Prefiltered(Rank(lo), Rank(hi), fs);
    PickOrdered(es, s);
    var picked := Pick(es, s);
    KeysSorted(picked);
    forall k | k in ids ensures k in Keys(picked) {
      var e :| e in es && Placed(e) && String(e.cursor) == k;
      RowSelected(t, e, lo, hi, fs, p);
      PickMembers(es, s, e);
      KeyListed(picked, e);
    }
    forall k | k in Keys(picked) ensures k in ids {
      var e := ListedKey(picked, k);
      PickMembers(es, s, e);
      RowSelected(t, e, lo, hi, fs, p);
    }
    SortedUnique(ids, Keys(picked));
  }

  // ---- trimming ----

  /** DELETE FROM events WHERE id < the first cursor of the cutoff ledger. */
  function TrimTable(t: EventTable, cutoff: nat): EventTable
    requires cutoff <= MAX_INT32
  {
    map k | k in t && !TextLess(k, String(Cursor(cutoff, 0, 0, 0))) :: t[k]
  }

  lemma {:induction false} KeyBefore(c: Cursor, cutoff: nat)
    requires InRange(c) && cutoff <= MAX_INT32
    ensures TextLess(String(c), String(Cursor(cutoff, 0, 0, 0))) <==> c.ledger < cutoff
  {
    StringOrder(c, Cursor(cutoff, 0, 0, 0));
    RankOrder(c, Cursor(cutoff, 0, 0, 0));
  }

  /** Deleting by key text removes exactly the events of the ledgers before the cutoff. */
  lemma {:induction false} TrimHolds(t: EventTable, es: seq<StoredEvent>, cutoff: nat)
    requires Ordered(es) && Holds(t, es) && cutoff <= MAX_INT32
    ensures Ordered(Pick(es, FromLedger(cutoff)))
    ensures Holds(TrimTable(t, cutoff), Pick(es, FromLedger(cutoff)))
  {
    var s := FromLedger(cutoff);
    PickOrdered(es, s);
    var kept := Pick(es, s);
    forall e | e in kept
      ensures Placed(e) && String(e.cursor) in TrimTable(t, cutoff)
        && TrimTable(t, cutoff)[String(e.cursor)] == RowOf(e)
    {
      PickMembers(es, s, e);
      KeyBefore(e.cursor, cutoff);
    }
    forall k | k in TrimTable(t, cutoff) ensures exists e :: e in kept && Placed(e) && String(e.cursor) == k {
      var e :| e in es && Placed(e) && String(e.cursor) == k;
      KeyBefore(e.cursor, cutoff);
      PickMembers(es, s, e);
    }
  }
}
