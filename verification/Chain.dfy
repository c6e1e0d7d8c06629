/**
 The history of closed ledgers, as the ingestion service receives it, and the event rows each ledger gives
 rise to (cmd/stellar-rpc/internal/db/event.go). Values that the system only compares or copies are
 identified with their XDR encoding.
 */
module Chain {
  import opened Wrappers
  import opened Cursors
  import opened Sequences

  type Bytes = seq<bv8>
  type Hash = Bytes
  type ScVal = Bytes

  const MAX_TOPIC_COUNT := 4

  datatype EventKind = System | Contract | Diagnostic

  datatype ContractEvent = ContractEvent(contractId: Option<Bytes>, kind: EventKind, topics: seq<ScVal>, data: Bytes)

  datatype DiagnosticEvent = DiagnosticEvent(inSuccessfulContractCall: bool, event: ContractEvent)

  datatype TransactionEvents = TransactionEvents(
    diagnostic: seq<DiagnosticEvent>, operations: seq<seq<ContractEvent>>, transaction: seq<ContractEvent>)

  /** What the fee statistics look at: the operation count, and the resource fee of a lone Soroban operation. */
  datatype FeeKind = Classic(operations: nat) | Soroban(resourceFee: Option<int>)

  datatype Transaction = Transaction(
    hash: Hash, innerHash: Option<Hash>, successful: bool, events: TransactionEvents, feeCharged: nat, feeKind: FeeKind)

  datatype Ledger = Ledger(sequence: nat, closeTime: int, txs: seq<Transaction>)

  function Flatten<T>(parts: seq<seq<T>>): seq<T> {
    if parts == [] then [] else parts[0] + Flatten(parts[1..])
  }

  function Successful(events: seq<ContractEvent>): seq<DiagnosticEvent> {
    seq(|events|, i requires 0 <= i < |events| => DiagnosticEvent(true, events[i]))
  }

  /** transactionEventsIntoDiagnosticEvents: operation events count only when no diagnostic event is recorded. */
  function IntoDiagnosticEvents(all: TransactionEvents): seq<DiagnosticEvent> {
    (if all.diagnostic == [] then Successful(Flatten(all.operations)) else all.diagnostic)
    + Successful(all.transaction)
  }

  const FIRST_LEDGER := 2

  /** The bounds of the network: 20-bit transaction order, 32-bit event order, 31-bit ledger sequence. */
  predicate WellFormed(l: Ledger) {
    && FIRST_LEDGER <= l.sequence < MAX_INT32
    && |l.txs| <= TRANSACTION_MASK
    && forall i :: 0 <= i < |l.txs| ==> |IntoDiagnosticEvents(l.txs[i].events)| <= MAX_UINT32
  }

  /** Ledgers of consecutive sequence numbers. */
  predicate Contiguous(ls: seq<Ledger>) {
    && (forall i :: 0 <= i < |ls| ==> WellFormed(ls[i]))
    && (forall i :: 0 <= i < |ls| ==> ls[i].sequence == ls[0].sequence + i)
  }

  /** One event of the history, with its position. */
  datatype StoredEvent = StoredEvent(cursor: Cursor, event: DiagnosticEvent, closeTime: int, txHash: Hash)

  function EventsOfTx(l: Ledger, i: nat): seq<StoredEvent>
    requires i < |l.txs|
  {
    var events := IntoDiagnosticEvents(l.txs[i].events);
    if l.txs[i].successful then
      seq(|events|, j requires 0 <= j < |events| =>
        StoredEvent(Cursor(l.sequence, i + 1, 0, j), events[j], l.closeTime, l.txs[i].hash))
    else []
  }

  /** The events of the first n transactions of a ledger. */
  function EventsOfTxs(l: Ledger, n: nat): seq<StoredEvent>
    requires n <= |l.txs|
  {
    if n == 0 then [] else EventsOfTxs(l, n - 1) + EventsOfTx(l, n - 1)
  }

  function EventsOfLedger(l: Ledger): seq<StoredEvent> { EventsOfTxs(l, |l.txs|) }

  function EventsOf(ls: seq<Ledger>): seq<StoredEvent> {
    if ls == [] then [] else EventsOfLedger(ls[0]) + EventsOf(ls[1..])
  }

  /** Every event sits at a printable cursor of operation 0. */
  predicate Placed(e: StoredEvent) {
    InRange(e.cursor) && e.cursor.op == 0 && e.cursor.event < MAX_UINT32
  }

  predicate Ordered(es: seq<StoredEvent>) {
    && (forall i :: 0 <= i < |es| ==> Placed(es[i]))
    && (forall i, j :: 0 <= i < j < |es| ==> Rank(es[i].cursor) < Rank(es[j].cursor))
  }

  lemma {:induction false} OrderedConcat(a: seq<StoredEvent>, b: seq<StoredEvent>)
    requires Ordered(a) && Ordered(b)
    requires a != [] && b != [] ==> Rank(a[|a| - 1].cursor) < Rank(b[0].cursor)
    ensures Ordered(a + b)
  {
    var s := a + b;
    forall i, j | 0 <= i < j < |s| ensures Rank(s[i].cursor) < Rank(s[j].cursor) {
      if i < |a| <= j {
        assert Rank(a[i].cursor) <= Rank(a[|a| - 1].cursor) && Rank(b[0].cursor) <= Rank(b[j - |a|].cursor);
      }
    }
  }

  /** Where the events of one ledger lie. */
  predicate Within(es: seq<StoredEvent>, ledger: nat, txs: nat) {
    forall i :: 0 <= i < |es| ==> es[i].cursor.ledger == ledger && 1 <= es[i].cursor.tx <= txs
  }

  lemma {:induction false} EventsOfTxOrdered(l: Ledger, i: nat)
    requires WellFormed(l) && i < |l.txs|
    ensures Ordered(EventsOfTx(l, i))
    ensures forall j :: 0 <= j < |EventsOfTx(l, i)| ==>
      EventsOfTx(l, i)[j].cursor.ledger == l.sequence && EventsOfTx(l, i)[j].cursor.tx == i + 1
  {
    var es := EventsOfTx(l, i);
    assert |es| <= MAX_UINT32;
    assert forall j :: 0 <= j < |es| ==> es[j].cursor == Cursor(l.sequence, i + 1, 0, j);
  }

  lemma {:induction false} NextTxOrdered(a: seq<StoredEvent>, b: seq<StoredEvent>, ledger: nat, n: nat)
    requires Ordered(a) && Within(a, ledger, n)
    requires Ordered(b) && forall j :: 0 <= j < |b| ==> b[j].cursor.ledger == ledger && b[j].cursor.tx == n + 1
    ensures Ordered(a + b) && Within(a + b, ledger, n + 1)
  {
    if a != [] && b != [] { RankByPosition(a[|a| - 1].cursor, b[0].cursor); }
    OrderedConcat(a, b);
  }

  lemma {:induction false} NoneOrdered(l: Ledger)
    ensures Ordered([]) && Within([], l.sequence, 0)
  {
  }

  lemma {:induction false} EventsOfTxsOrdered(l: Ledger, n: nat)
    requires WellFormed(l) && n <= |l.txs|
    ensures Ordered(EventsOfTxs(l, n)) && Within(EventsOfTxs(l, n), l.sequence, n)
  {
    hide Rank, EventsOfTx, WellFormed, Ordered;
    if n == 0 {
      NoneOrdered(l);
    } else {
      EventsOfTxsOrdered(l, n - 1);
      EventsOfTxOrdered(l, n - 1);
      NextTxOrdered(EventsOfTxs(l, n - 1), EventsOfTx(l, n - 1), l.sequence, n - 1);
    }
  }

  /** Every event lies between two ledgers. */
  predicate Spans(es: seq<StoredEvent>, first: nat, last: nat) {
    forall i :: 0 <= i < |es| ==> first <= es[i].cursor.ledger <= last
  }

  lemma {:induction false} NextLedgersOrdered(a: seq<StoredEvent>, b: seq<StoredEvent>, first: nat, last: nat, txs: nat)
    requires Ordered(a) && Within(a, first, txs) && first <= last
    requires Ordered(b) && Spans(b, first + 1, last)
    ensures Ordered(a + b) && Spans(a + b, first, last)
  {
    if a != [] && b != [] { RankByPosition(a[|a| - 1].cursor, b[0].cursor); }
    OrderedConcat(a, b);
  }

  lemma {:induction false} ContiguousTail(ls: seq<Ledger>, k: nat)
    requires Contiguous(ls) && k <= |ls|
    ensures Contiguous(ls[k..]) && Contiguous(ls[..k])
    ensures k < |ls| ==> ls[k..][0].sequence == ls[0].sequence + k
  {
  }

  /** The events of a contiguous history are in strictly increasing cursor order, ledger by ledger. */
  lemma {:induction false} EventsOrdered(ls: seq<Ledger>)
    requires Contiguous(ls)
    ensures Ordered(EventsOf(ls))
    ensures ls != [] ==> Spans(EventsOf(ls), ls[0].sequence, ls[|ls| - 1].sequence)
    ensures ls == [] ==> EventsOf(ls) == []
  {
    if ls == [] {
    } else {
      var l := ls[0];
      ContiguousTail(ls, 1);
      EventsOrdered(ls[1..]);
      EventsOfTxsOrdered(l, |l.txs|);
      NextLedgersOrdered(EventsOfLedger(l), EventsOf(ls[1..]), l.sequence, ls[|ls| - 1].sequence, |l.txs|);
    }
  }

  lemma {:induction false} EventsConcat(a: seq<Ledger>, b: seq<Ledger>)
    ensures EventsOf(a + b) == EventsOf(a) + EventsOf(b)
  {
    if a == [] {
      assert a + b == b;
    } else {
      EventsConcat(a[1..], b);
      assert (a + b)[1..] == a[1..] + b && (a + b)[0] == a[0];
      ConcatAssociates(EventsOfLedger(a[0]), EventsOf(a[1..]), EventsOf(b));
    }
  }
}
