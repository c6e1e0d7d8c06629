/**
 The tables of the database (cmd/stellar-rpc/internal/db): closed ledgers by sequence, transaction lookups by
 hash and event rows by cursor text, with the inserts and deletes of a write transaction.
 */
module Tables {
  import opened Wrappers
  import opened Cursors
  import opened Sequences
  import opened Chain
  import opened EventStore

  datatype TxRow = TxRow(ledger: nat, order: nat)

  type LedgerTable = map<nat, Ledger>
  type TxTable = map<Hash, TxRow>

  // ---- ledgers ----

  predicate LedgersHold(t: LedgerTable, stored: seq<Ledger>) {
    && (forall l :: l in stored ==> l.sequence in t && t[l.sequence] == l)
    && (forall k :: k in t ==> k == t[k].sequence && t[k] in stored)
  }

  function TrimLedgers(t: LedgerTable, cutoff: nat): LedgerTable {
    map k | k in t && k >= cutoff :: t[k]
  }

  // ---- transactions ----

  /** The lookup rows of the first n transactions; later ones win, and an outer hash wins over its inner one. */
  function TxRowsUpTo(l: Ledger, n: nat): TxTable
    requires n <= |l.txs|
  {
    if n == 0 then map[]
    else
      var (before, tx, row) := (TxRowsUpTo(l, n - 1), l.txs[n - 1], TxRow(l.sequence, n));
      (if tx.innerHash.Some? then before[tx.innerHash.value := row] else before)[tx.hash := row]
  }

  function TxRows(l: Ledger): TxTable { TxRowsUpTo(l, |l.txs|) }

  lemma {:induction false} TxRowsPlace(l: Ledger, n: nat)
    requires n <= |l.txs|
    ensures forall h :: h in TxRowsUpTo(l, n) ==>
      TxRowsUpTo(l, n)[h].ledger == l.sequence && 1 <= TxRowsUpTo(l, n)[h].order <= n
  {
    if n > 0 { TxRowsPlace(l, n - 1); }
  }

  /** The table holds exactly the lookup rows of the given ledgers. */
  predicate TxsHold(t: TxTable, indexed: seq<Ledger>) {
    && (forall l, h :: l in indexed && h in TxRows(l) ==> h in t && t[h] == TxRows(l)[h])
    && (forall h :: h in t ==> exists l :: l in indexed && h in TxRows(l))
  }

  /** A multi-row INSERT fails as a whole on a primary key that exists. */
  function InsertTxRows(t: TxTable, l: Ledger): Option<TxTable> {
    if t.Keys !! TxRows(l).Keys then Some(t + TxRows(l)) else None
  }

  function TrimTxs(t: TxTable, cutoff: nat): TxTable {
    map h | h in t && t[h].ledger >= cutoff :: t[h]
  }

  lemma {:induction false} InsertTxsHold(t: TxTable, indexed: seq<Ledger>, l: Ledger)
    requires TxsHold(t, indexed) && InsertTxRows(t, l).Some?
    ensures TxsHold(InsertTxRows(t, l).value, indexed + [l])
  {
    var u := InsertTxRows(t, l).value;
    forall h | h in u ensures exists m :: m in indexed + [l] && h in TxRows(m) {
      if h in TxRows(l) {
        assert l in indexed + [l];
      } else {
        var m :| m in indexed && h in TxRows(m);
        assert m in indexed + [l];
      }
    }
  }

  /** No hash occurs in two of the ledgers. */
  predicate HashesDistinct(ls: seq<Ledger>) {
    ls == [] ||
    var (front, last) := (ls[..|ls| - 1], ls[|ls| - 1]);
    HashesDistinct(front) && forall m :: m in front ==> TxRows(m).Keys !! TxRows(last).Keys
  }

  lemma {:induction false} DistinctNext(ls: seq<Ledger>, l: Ledger)
    ensures HashesDistinct(ls + [l]) <==> HashesDistinct(ls) && forall m :: m in ls ==> TxRows(m).Keys !! TxRows(l).Keys
  {
    assert (ls + [l])[..|ls|] == ls;
  }

  /** A ledger's rows are refused exactly when an indexed ledger has one of its hashes. */
  lemma {:induction false} InsertRefused(t: TxTable, indexed: seq<Ledger>, l: Ledger)
    requires TxsHold(t, indexed)
    ensures InsertTxRows(t, l).Some? <==> forall m :: m in indexed ==> TxRows(m).Keys !! TxRows(l).Keys
  {
    hide TxRows;
    if InsertTxRows(t, l).Some? {
      forall m | m in indexed ensures TxRows(m).Keys !! TxRows(l).Keys {
        forall h | h in TxRows(m) ensures h !in TxRows(l) { assert h in t; }
      }
    } else {
      var h :| h in t && h in TxRows(l);
      var m :| m in indexed && h in TxRows(m);
      assert h in TxRows(m).Keys && h in TxRows(l).Keys;
    }
  }

  lemma {:induction false} RowLedger(l: Ledger, h: Hash)
    requires h in TxRows(l)
    ensures TxRows(l)[h].ledger == l.sequence
  {
    TxRowsPlace(l, |l.txs|);
  }

  /** Rows of ledgers before the cutoff go, the others stay. */
  lemma {:induction false} TrimTxsHold(t: TxTable, old_: seq<Ledger>, kept: seq<Ledger>, cutoff: nat)
    requires TxsHold(t, old_ + kept)
    requires (forall l :: l in old_ ==> l.sequence < cutoff) && (forall l :: l in kept ==> l.sequence >= cutoff)
    ensures TxsHold(TrimTxs(t, cutoff), kept)
  {
    hide TxRows;
    forall l, h | l in kept && h in TxRows(l) ensures h in TrimTxs(t, cutoff) && TrimTxs(t, cutoff)[h] == TxRows(l)[h] {
      assert l in old_ + kept;
      RowLedger(l, h);
    }
    forall h | h in TrimTxs(t, cutoff) ensures exists l :: l in kept && h in TxRows(l) {
      var l :| l in old_ + kept && h in TxRows(l);
      RowLedger(l, h);
    }
  }

  // ---- transactions beside rows that were there before ----

  /** The table holds the rows of the given ledgers, and beside them the rows of a relic. */
  predicate TxsHoldBeside(t: TxTable, relic: TxTable, indexed: seq<Ledger>) {
    (forall h :: h in relic ==> h in t && t[h] == relic[h]) && TxsHold(t - relic.Keys, indexed)
  }

  lemma {:induction false} BesideNothing(t: TxTable, indexed: seq<Ledger>)
    ensures TxsHoldBeside(t, map[], indexed) <==> TxsHold(t, indexed)
  {
    var none: TxTable := map[];
    assert none.Keys == {} && t - none.Keys == t;
  }

  lemma {:induction false} OnlyRelic(t: TxTable)
    ensures TxsHoldBeside(t, t, [])
  {
    assert t - t.Keys == map[];
  }

  lemma {:induction false} JoinBeside(t: TxTable, relic: TxTable, rows: TxTable)
    requires relic.Keys <= t.Keys && t.Keys !! rows.Keys
    ensures (t + rows) - relic.Keys == (t - relic.Keys) + rows
  {
  }

  /** A ledger's rows are refused exactly when a relic row or an indexed ledger has one of its hashes. */
  lemma {:induction false} InsertBeside(t: TxTable, relic: TxTable, indexed: seq<Ledger>, l: Ledger)
    requires TxsHoldBeside(t, relic, indexed)
    ensures InsertTxRows(t, l).Some? <==>
      relic.Keys !! TxRows(l).Keys && forall m :: m in indexed ==> TxRows(m).Keys !! TxRows(l).Keys
    ensures InsertTxRows(t, l).Some? ==> TxsHoldBeside(InsertTxRows(t, l).value, relic, indexed + [l])
  {
    hide TxRows, TxsHold;
    var (own, rows) := (t - relic.Keys, TxRows(l));
    InsertRefused(own, indexed, l);
    assert t.Keys == own.Keys + relic.Keys;
    if InsertTxRows(t, l).Some? {
      InsertTxsHold(own, indexed, l);
      JoinBeside(t, relic, rows);
    }
  }

  lemma {:induction false} TrimBeside(t: TxTable, relic: TxTable, old_: seq<Ledger>, kept: seq<Ledger>, cutoff: nat)
    requires TxsHoldBeside(t, relic, old_ + kept)
    requires (forall l :: l in old_ ==> l.sequence < cutoff) && (forall l :: l in kept ==> l.sequence >= cutoff)
    ensures TxsHoldBeside(TrimTxs(t, cutoff), TrimTxs(relic, cutoff), kept)
  {
    hide TxRows, TxsHold;
    TrimTxsHold(t - relic.Keys, old_, kept, cutoff);
    assert TrimTxs(t, cutoff) - TrimTxs(relic, cutoff).Keys == TrimTxs(t - relic.Keys, cutoff);
  }

  // ---- events ----

  /** The rows of events, keyed by their cursors. */
  function RowsTable(es: seq<StoredEvent>): EventTable
    requires forall e :: e in es ==> Placed(e)
  {
    if es == [] then map[]
    else
      var last := es[|es| - 1];
      assert last in es && Placed(last);
      RowsTable(es[..|es| - 1])[String(last.cursor) := RowOf(last)]
  }

  lemma {:induction false} OrderedPlaced(es: seq<StoredEvent>)
    requires Ordered(es)
    ensures forall e :: e in es ==> Placed(e)
  {
  }

  lemma {:induction false} KeyOfLast(front: seq<StoredEvent>, last: StoredEvent, e: StoredEvent)
    requires Ordered(front + [last]) && e in front
    ensures Placed(e) && Placed(last) && String(e.cursor) != String(last.cursor)
  {
    var i :| 0 <= i < |front| && front[i] == e;
    ConcatIndex(front, [last], i);
    ConcatIndex(front, [last], |front|);
    StringOrder(e.cursor, last.cursor);
  }

  lemma {:induction false} RowsTableHolds(es: seq<StoredEvent>)
    requires Ordered(es) && forall e :: e in es ==> Placed(e)
    ensures Holds(RowsTable(es), es)
  {
    if es == [] {
    } else {
      var (front, last) := (es[..|es| - 1], es[|es| - 1]);
      assert es == front + [last];
      assert Ordered(front);
      RowsTableHolds(front);
      forall e | e in front ensures String(e.cursor) != String(last.cursor) { KeyOfLast(front, last, e); }
      HoldsAppend(RowsTable(front), front, last);
    }
  }

  lemma {:induction false} HoldsAppend(t: EventTable, front: seq<StoredEvent>, last: StoredEvent)
    requires Holds(t, front) && Placed(last)
    requires forall e :: e in front ==> String(e.cursor) != String(last.cursor)
    ensures Holds(t[String(last.cursor) := RowOf(last)], front + [last])
  {
    var u := t[String(last.cursor) := RowOf(last)];
    forall k | k in u ensures exists e :: e in front + [last] && Placed(e) && String(e.cursor) == k {
      if k == String(last.cursor) {
        assert last in front + [last];
      } else {
        var e :| e in front && Placed(e) && String(e.cursor) == k;
        assert e in front + [last];
      }
    }
  }

  function InsertEventRows(t: EventTable, es: seq<StoredEvent>): Option<EventTable>
    requires forall e :: e in es ==> Placed(e)
  {
    if t.Keys !! RowsTable(es).Keys then Some(t + RowsTable(es)) else None
  }

  /** The event rows of one ledger. */
  function InsertEventsOf(t: EventTable, l: Ledger): Option<EventTable>
    requires WellFormed(l)
  {
    EventsOfTxsOrdered(l, |l.txs|);
    OrderedPlaced(EventsOfLedger(l));
    InsertEventRows(t, EventsOfLedger(l))
  }

  lemma {:induction false} LaterKeysDiffer(a: seq<StoredEvent>, b: seq<StoredEvent>, x: StoredEvent, y: StoredEvent)
    requires Ordered(a + b) && x in a && y in b
    ensures Placed(x) && Placed(y) && String(x.cursor) != String(y.cursor)
  {
    hide String, Rank;
    var i :| 0 <= i < |a| && a[i] == x;
    var j :| 0 <= j < |b| && b[j] == y;
    ConcatIndex(a, b, i);
    ConcatIndex(a, b, |a| + j);
    StringOrder(x.cursor, y.cursor);
  }

  lemma {:induction false} HoldsUnion(t: EventTable, u: EventTable, a: seq<StoredEvent>, b: seq<StoredEvent>)
    requires Holds(t, a) && Holds(u, b)
    requires forall x, y :: x in a && y in b ==> Placed(x) && Placed(y) && String(x.cursor) != String(y.cursor)
    ensures t.Keys !! u.Keys && Holds(t + u, a + b)
  {
    hide String;
    forall k | k in t + u ensures exists e :: e in a + b && Placed(e) && String(e.cursor) == k {
      if k in u {
        var e :| e in b && Placed(e) && String(e.cursor) == k;
        assert e in a + b;
      } else {
        var e :| e in a && Placed(e) && String(e.cursor) == k;
        assert e in a + b;
      }
    }
  }

  /** Rows of later events never collide with the ones held, and the insert extends what is held. */
  lemma {:induction false} InsertEventsHold(t: EventTable, a: seq<StoredEvent>, b: seq<StoredEvent>)
    requires Holds(t, a) && Ordered(a + b) && Ordered(b)
    ensures (forall e :: e in b ==> Placed(e)) && InsertEventRows(t, b).Some?
    ensures Holds(InsertEventRows(t, b).value, a + b)
  {
    OrderedPlaced(b);
    RowsTableHolds(b);
    forall x, y | x in a && y in b ensures Placed(x) && Placed(y) && String(x.cursor) != String(y.cursor) {
      LaterKeysDiffer(a, b, x, y);
    }
    HoldsUnion(t, RowsTable(b), a, b);
  }

  /** A ledger that continues the history never collides, and its events join the ones held. */
  lemma {:induction false} InsertEventsOfHold(t: EventTable, ls: seq<Ledger>, l: Ledger)
    requires Holds(t, EventsOf(ls)) && Contiguous(ls + [l]) && WellFormed(l)
    ensures InsertEventsOf(t, l).Some? && Holds(InsertEventsOf(t, l).value, EventsOf(ls + [l]))
  {
    hide Holds, Ordered, WellFormed;
    EventsOrdered(ls + [l]);
    EventsConcat(ls, [l]);
    EventsOfOne(l);
    EventsOfTxsOrdered(l, |l.txs|);
    InsertEventsHold(t, EventsOf(ls), EventsOfLedger(l));
  }

  lemma {:induction false} EventsOfOne(l: Ledger)
    ensures EventsOf([l]) == EventsOfLedger(l)
  {
    assert [l][1..] == [];
  }
}
