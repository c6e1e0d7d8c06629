/** Which event of a ledger stands where (cmd/stellar-rpc/internal/db/event.go). */
module EventPositions {
  import opened Sequences
  import opened Chain

  /** How many elements some sequences have together. */
  function Total<T>(parts: seq<seq<T>>): nat {
    if parts == [] then 0 else Total(parts[..|parts| - 1]) + |parts[|parts| - 1]|
  }

  lemma {:induction false} FlattenConcat<T>(a: seq<seq<T>>, b: seq<seq<T>>)
    ensures Flatten(a + b) == Flatten(a) + Flatten(b)
  {
    if a == [] {
      assert a + b == b;
    } else {
      FlattenConcat(a[1..], b);
      assert (a + b)[1..] == a[1..] + b;
      ConcatAssociates(a[0], Flatten(a[1..]), Flatten(b));
    }
  }

  lemma {:induction false} FlattenNext<T>(parts: seq<seq<T>>, i: nat)
    requires i < |parts|
    ensures Flatten(parts[..i + 1]) == Flatten(parts[..i]) + parts[i]
  {
    FlattenConcat(parts[..i], [parts[i]]);
    assert parts[..i + 1] == parts[..i] + [parts[i]];
    assert [parts[i]][1..] == [];
  }

  lemma {:induction false} FlattenTotal<T>(parts: seq<seq<T>>)
    ensures |Flatten(parts)| == Total(parts)
  {
    if parts != [] {
      FlattenTotal(parts[..|parts| - 1]);
      FlattenNext(parts, |parts| - 1);
      assert parts[..|parts|] == parts;
    }
  }

  lemma {:induction false} FlattenAt<T>(parts: seq<seq<T>>, o: nat, j: nat)
    requires o < |parts| && j < |parts[o]|
    ensures Total(parts[..o]) + j < |Flatten(parts)| && Flatten(parts)[Total(parts[..o]) + j] == parts[o][j]
  {
    hide Total, Flatten;
    assert parts == parts[..o + 1] + parts[o + 1..];
    FlattenConcat(parts[..o + 1], parts[o + 1..]);
    FlattenNext(parts, o);
    FlattenTotal(parts[..o]);
    var (before, rest) := (Flatten(parts[..o]), Flatten(parts[o + 1..]));
    assert Flatten(parts) == (before + parts[o]) + rest;
    assert ((before + parts[o]) + rest)[|before| + j] == parts[o][j];
  }

  /** Recorded diagnostic events keep their places, and no operation event counts beside them. */
  lemma {:induction false} DiagnosticsFirst(all: TransactionEvents, i: nat)
    requires i < |all.diagnostic|
    ensures |IntoDiagnosticEvents(all)| == |all.diagnostic| + |all.transaction|
    ensures IntoDiagnosticEvents(all)[i] == all.diagnostic[i]
  {
  }

  /** Without any, the operations' events stand one operation after the other. */
  lemma {:induction false} OperationsFirst(all: TransactionEvents, o: nat, j: nat)
    requires all.diagnostic == [] && o < |all.operations| && j < |all.operations[o]|
    ensures |IntoDiagnosticEvents(all)| == Total(all.operations) + |all.transaction|
    ensures Total(all.operations[..o]) + j < |IntoDiagnosticEvents(all)|
    ensures IntoDiagnosticEvents(all)[Total(all.operations[..o]) + j] == DiagnosticEvent(true, all.operations[o][j])
  {
    hide Total, Flatten;
    FlattenAt(all.operations, o, j);
    FlattenTotal(all.operations);
  }

  /** The transaction's own events come last. */
  lemma {:induction false} TransactionLast(all: TransactionEvents, j: nat)
    requires j < |all.transaction|
    ensures |IntoDiagnosticEvents(all)|
         == (if all.diagnostic == [] then Total(all.operations) else |all.diagnostic|) + |all.transaction|
    ensures var es := IntoDiagnosticEvents(all);
            es[|es| - |all.transaction| + j] == DiagnosticEvent(true, all.transaction[j])
  {
    hide Total, Flatten;
    FlattenTotal(all.operations);
  }

  /** The j-th event of the i-th transaction of a ledger, when that transaction succeeded. */
  ghost predicate Occurs(ls: seq<Ledger>, l: Ledger, i: nat, j: nat, e: StoredEvent) {
    && l in ls && i < |l.txs| && l.txs[i].successful
    && j < |IntoDiagnosticEvents(l.txs[i].events)|
    && e.cursor.ledger == l.sequence && e.cursor.tx == i + 1 && e.cursor.op == 0 && e.cursor.event == j
    && e.event == IntoDiagnosticEvents(l.txs[i].events)[j]
    && e.closeTime == l.closeTime && e.txHash == l.txs[i].hash
  }

  lemma {:induction false} OccursInTx(l: Ledger, i: nat, e: StoredEvent)
    requires i < |l.txs|
    ensures e in EventsOfTx(l, i) <==> exists j: nat :: Occurs([l], l, i, j, e)
  {
    assert l in [l];
    if j: nat :| Occurs([l], l, i, j, e) { assert EventsOfTx(l, i)[j] == e; }
    if e in EventsOfTx(l, i) {
      var j: nat :| j < |EventsOfTx(l, i)| && EventsOfTx(l, i)[j] == e;
      assert Occurs([l], l, i, j, e);
    }
  }

  lemma {:induction false} OccursInTxs(l: Ledger, n: nat, e: StoredEvent)
    requires n <= |l.txs|
    ensures e in EventsOfTxs(l, n) <==> exists i: nat, j: nat :: i < n && Occurs([l], l, i, j, e)
  {
    hide EventsOfTx, IntoDiagnosticEvents;
    if n > 0 {
      OccursInTxs(l, n - 1, e);
      OccursInTx(l, n - 1, e);
      if e in EventsOfTxs(l, n - 1) {
        var i: nat, j: nat :| i < n - 1 && Occurs([l], l, i, j, e);
        assert i < n && Occurs([l], l, i, j, e);
      } else if e in EventsOfTx(l, n - 1) {
        var j: nat :| Occurs([l], l, n - 1, j, e);
        assert n - 1 < n && Occurs([l], l, n - 1, j, e);
      } else if i: nat, j: nat :| i < n && Occurs([l], l, i, j, e) {
        assert i == n - 1 || i < n - 1;
      }
    }
  }

  lemma {:induction false} OccursOnce(ls: seq<Ledger>, l: Ledger, rest: seq<Ledger>, e: StoredEvent)
    requires ls == [l] + rest
    ensures (exists m, i: nat, j: nat :: Occurs(ls, m, i, j, e))
       <==> (exists i: nat, j: nat :: i < |l.txs| && Occurs([l], l, i, j, e))
            || exists m, i: nat, j: nat :: Occurs(rest, m, i, j, e)
  {
    assert l in [l] && forall m :: m in ls <==> m == l || m in rest;
    hide IntoDiagnosticEvents;
    if m, i: nat, j: nat :| Occurs(ls, m, i, j, e) {
      if m == l {
        assert i < |l.txs| && Occurs([l], l, i, j, e);
      } else {
        assert Occurs(rest, m, i, j, e);
      }
    }
    if i: nat, j: nat :| i < |l.txs| && Occurs([l], l, i, j, e) { assert Occurs(ls, l, i, j, e); }
    if m, i: nat, j: nat :| Occurs(rest, m, i, j, e) { assert Occurs(ls, m, i, j, e); }
  }

  /** The events of a history are those of its successful transactions, each where its cursor says. */
  lemma {:induction false} EventsAre(ls: seq<Ledger>, e: StoredEvent)
    ensures e in EventsOf(ls) <==> exists l, i: nat, j: nat :: Occurs(ls, l, i, j, e)
  {
    hide Occurs, EventsOfTxs;
    if ls == [] {
      NothingOccurs(e);
    } else {
      EventsAre(ls[1..], e);
      OccursInTxs(ls[0], |ls[0].txs|, e);
      OccursOnce(ls, ls[0], ls[1..], e);
    }
  }

  lemma {:induction false} NothingOccurs(e: StoredEvent)
    ensures !exists l, i: nat, j: nat :: Occurs([], l, i, j, e)
  {
  }
}
