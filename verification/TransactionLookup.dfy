/**
 Looking up a transaction by hash (cmd/stellar-rpc/internal/db/transaction.go), against a scan of all stored
 ledgers.
 */
module TransactionLookup {
  import opened Wrappers
  import opened Chain
  import opened Tables

  /** A fee bump answers to its own hash and to that of the transaction inside. */
  predicate Carries(tx: Transaction, h: Hash) { tx.hash == h || tx.innerHash == Some(h) }

  datatype LookupError = NoTransaction | BadRow

  /** Where the last transaction of a ledger that carries a hash stands, counting from 1; 0 when there is none. */
  function LastCarrying(l: Ledger, h: Hash, n: nat): (order: nat)
    requires n <= |l.txs|
    ensures order <= n
    ensures order > 0 ==> Carries(l.txs[order - 1], h)
    ensures forall i :: order <= i < n ==> !Carries(l.txs[i], h)
  {
    if n == 0 then 0 else if Carries(l.txs[n - 1], h) then n else LastCarrying(l, h, n - 1)
  }

  /** The index built at ingestion points to the last transaction that carries the hash. */
  lemma {:induction false} IndexPoints(l: Ledger, h: Hash, n: nat)
    requires n <= |l.txs|
    ensures h in TxRowsUpTo(l, n) <==> LastCarrying(l, h, n) > 0
    ensures h in TxRowsUpTo(l, n) ==> TxRowsUpTo(l, n)[h] == TxRow(l.sequence, LastCarrying(l, h, n))
  {
    if n > 0 { IndexPoints(l, h, n - 1); }
  }

  function Lookup(txs: TxTable, ledgers: LedgerTable, h: Hash): Result<(Ledger, Transaction), LookupError> {
    if h !in txs || txs[h].ledger !in ledgers then Err(NoTransaction)
    else
      var l := ledgers[txs[h].ledger];
      if 1 <= txs[h].order <= |l.txs| then Ok((l, l.txs[txs[h].order - 1])) else Err(BadRow)
  }

  /** Scanning the stored ledgers. */
  ghost predicate Found(stored: seq<Ledger>, h: Hash, l: Ledger, tx: Transaction) {
    l in stored && tx in l.txs && Carries(tx, h)
  }

  lemma {:induction false} IndexedLedger(l: Ledger, h: Hash)
    ensures h in TxRows(l) <==> exists tx :: tx in l.txs && Carries(tx, h)
  {
    IndexPoints(l, h, |l.txs|);
    var order := LastCarrying(l, h, |l.txs|);
    if order > 0 { assert l.txs[order - 1] in l.txs; }
  }

  /**
   A lookup finds a transaction exactly when some stored one carries the hash. It returns the last one that does;
   all others that do are in the same ledger, for the index never accepts a hash of an earlier ledger again.
   */
  lemma {:induction false} LookupIsScan(txs: TxTable, ledgers: LedgerTable, stored: seq<Ledger>, h: Hash)
    requires LedgersHold(ledgers, stored) && TxsHold(txs, stored)
    ensures Lookup(txs, ledgers, h).Ok? <==> exists l, tx :: Found(stored, h, l, tx)
    ensures Lookup(txs, ledgers, h).Err? ==> Lookup(txs, ledgers, h).error == NoTransaction
    ensures Lookup(txs, ledgers, h).Ok? ==>
      var (l, tx) := Lookup(txs, ledgers, h).value;
      && Found(stored, h, l, tx) && LastCarrying(l, h, |l.txs|) > 0 && tx == l.txs[LastCarrying(l, h, |l.txs|) - 1]
      && forall m, other :: Found(stored, h, m, other) ==> m == l
  {
    hide TxRows, LastCarrying;
    forall m, other | Found(stored, h, m, other)
      ensures h in TxRows(m) && txs[h] == TxRows(m)[h] && txs[h].ledger in ledgers && ledgers[txs[h].ledger] == m
    {
      IndexedLedger(m, h);
      RowLedger(m, h);
    }
    if h in txs {
      var l :| l in stored && h in TxRows(l);
      RowLedger(l, h);
      RowPoints(l, h);
      assert Found(stored, h, l, l.txs[txs[h].order - 1]);
    }
  }

  lemma {:induction false} RowPoints(l: Ledger, h: Hash)
    requires h in TxRows(l)
    ensures 1 <= TxRows(l)[h].order <= |l.txs| && Carries(l.txs[TxRows(l)[h].order - 1], h)
    ensures TxRows(l)[h].order == LastCarrying(l, h, |l.txs|)
  {
    IndexPoints(l, h, |l.txs|);
  }

  /**
   The join on the hash, then the positional reader: a stored transaction with that hash, or the news that there is
   none.
   */
  method GetTransactionByHash(txs: TxTable, ledgers: LedgerTable, h: Hash, ghost stored: seq<Ledger>)
    returns (r: Result<(Ledger, Transaction), LookupError>)
    requires LedgersHold(ledgers, stored) && TxsHold(txs, stored)
    ensures r.Ok? ==> Found(stored, h, r.value.0, r.value.1)
    ensures r.Err? ==> r.error == NoTransaction && forall l, tx :: !Found(stored, h, l, tx)
  {
    LookupIsScan(txs, ledgers, stored, h);
    if h !in txs || txs[h].ledger !in ledgers { return Err(NoTransaction); }
    var txIndex, l := txs[h].order, ledgers[txs[h].ledger];
    if txIndex - 1 < 0 || txIndex - 1 >= |l.txs| { return Err(BadRow); }
    return Ok((l, l.txs[txIndex - 1]));
  }
}
