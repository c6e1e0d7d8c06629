/**
 getTransactions (cmd/stellar-rpc/internal/methods/get_transactions.go): a page of transactions in ledger and
 application order, and what following its cursors adds up to.
 */
module TransactionPages {
  import opened Wrappers
  import opened DecimalText
  import opened Cursors
  import opened Sequences
  import opened Chain
  import opened Tables
  import opened Retention
  import opened Storage
  import opened EventPages
  import opened LedgerRequests

  datatype TxInfo = TxInfo(ledger: nat, order: nat, closeTime: int, tx: Transaction)

  datatype TxPage = TxPage(txs: seq<TxInfo>, cursor: string, latestLedger: nat, oldestLedger: nat)

  /** Where a page starts: a ledger, and an application order counting from 1. */
  datatype Position = Position(ledger: int, order: nat)

  // ---- transactions in order ----

  function TxInfoOf(l: Ledger, i: nat): TxInfo
    requires 1 <= i <= |l.txs|
  {
    TxInfo(l.sequence, i, l.closeTime, l.txs[i - 1])
  }

  /** The transactions of a ledger from one application order up to another. */
  function TxsBetween(l: Ledger, from: nat, to: nat): (s: seq<TxInfo>)
    requires from >= 1 && to <= |l.txs|
    ensures |s| == if from <= to then to - from + 1 else 0
    ensures forall i :: 0 <= i < |s| ==> s[i] == TxInfoOf(l, from + i)
  {
    seq(if from <= to then to - from + 1 else 0, i requires 0 <= i < to - from + 1 => TxInfoOf(l, from + i))
  }

  function TxsOf(l: Ledger): seq<TxInfo> { TxsBetween(l, 1, |l.txs|) }

  /** Every transaction of the ledgers, each once, in order. */
  function AllTxs(ls: seq<Ledger>): seq<TxInfo> {
    if ls == [] then [] else AllTxs(ls[..|ls| - 1]) + TxsOf(ls[|ls| - 1])
  }

  /** From an application order of the first ledger on. */
  function TxsFrom(ls: seq<Ledger>, order: nat): seq<TxInfo>
    requires order >= 1
  {
    if ls == [] then []
    else TxsFrom(ls[..|ls| - 1], order) + TxsBetween(ls[|ls| - 1], if |ls| == 1 then order else 1, |ls[|ls| - 1].txs|)
  }

  lemma {:induction false} FromFirst(ls: seq<Ledger>)
    ensures TxsFrom(ls, 1) == AllTxs(ls)
  {
    if ls != [] { FromFirst(ls[..|ls| - 1]); }
  }

  lemma {:induction false} FromConcat(a: seq<Ledger>, b: seq<Ledger>, order: nat)
    requires order >= 1 && a != []
    ensures TxsFrom(a + b, order) == TxsFrom(a, order) + AllTxs(b)
  {
    if b == [] {
      assert a + b == a;
    } else {
      FromConcat(a, b[..|b| - 1], order);
      assert (a + b)[..|a + b| - 1] == a + b[..|b| - 1] && (a + b)[|a + b| - 1] == b[|b| - 1];
      ConcatAssociates(TxsFrom(a, order), AllTxs(b[..|b| - 1]), TxsOf(b[|b| - 1]));
    }
  }

  lemma {:induction false} FromOne(l: Ledger, order: nat)
    requires order >= 1
    ensures TxsFrom([l], order) == TxsBetween(l, order, |l.txs|)
  {
    assert [l][..0] == [];
    assert TxsFrom([], order) == [];
  }

  lemma {:induction false} BetweenSplit(l: Ledger, from: nat, to: nat)
    requires 1 <= from <= to + 1 && to <= |l.txs|
    ensures TxsBetween(l, from, |l.txs|) == TxsBetween(l, from, to) + TxsBetween(l, to + 1, |l.txs|)
  {
  }

  /** The transactions from an order on are one more and those after it. */
  lemma {:induction false} FromSplit(ls: seq<Ledger>, order: nat, to: nat)
    requires ls != [] && 1 <= order <= to + 1 && to <= |ls[0].txs|
    ensures TxsFrom(ls, order) == TxsBetween(ls[0], order, to) + TxsFrom(ls, to + 1)
  {
    hide TxsBetween, TxsFrom;
    var (l, rest) := (ls[0], ls[1..]);
    assert ls == [l] + rest;
    FromConcat([l], rest, order);
    FromConcat([l], rest, to + 1);
    FromOne(l, order);
    FromOne(l, to + 1);
    BetweenSplit(l, order, to);
    ConcatAssociates(TxsBetween(l, order, to), TxsBetween(l, to + 1, |l.txs|), AllTxs(rest));
  }

  // ---- one page ----

  function CursorText(ledger: nat, order: nat, op: nat): string { Itoa(ToToid(ledger, order, op)) }

  function PositionOf(r: PagedRequest): Result<Position, RpcError> {
    if !Resumes(r) then Ok(Position(r.startLedger, 1))
    else match ParseInt64(r.paging.value.cursor)
      case None => Err(InvalidParams)
      case Some(id) =>
        var (ledger, tx, _) := ParseToid(id);
        Ok(Position(ledger, tx + 1))
  }

  /** The ledgers a page goes through. */
  function Visited(stored: seq<Ledger>, start: Position): seq<Ledger> { Since(stored, start.ledger) }

  /** The cursor of a page that came to the end: the last transaction it has seen in the latest ledger, if any. */
  function EndCursor(visited: seq<Ledger>, order: nat): string {
    if visited == [] then CursorText(0, 0, 0)
    else
      var l := visited[|visited| - 1];
      var from := if |visited| == 1 then order else 1;
      CursorText(l.sequence, if from <= |l.txs| then |l.txs| else 0, 1)
  }

  /** As many transactions as the page takes, and the cursor after the last one of a full page. */
  function Answer(visited: seq<Ledger>, order: nat, limit: nat): (seq<TxInfo>, string)
    requires order >= 1 && limit >= 1
  {
    var txs := FirstN(limit, TxsFrom(visited, order));
    (txs,
     if |txs| == limit then CursorText(txs[limit - 1].ledger, txs[limit - 1].order, 1)
     else EndCursor(visited, order))
  }

  /** What getTransactions answers, over the stored ledgers. */
  function TxPageOf(limits: Limits, r: PagedRequest, stored: seq<Ledger>): Result<TxPage, RpcError>
    requires limits.defaultLimit >= 1 && Contiguous(stored)
  {
    if stored == [] then Err(InternalError)
    else
      var (first, last) := (stored[0].sequence, stored[|stored| - 1].sequence);
      if !(ValidatePagination(r, limits.maxLimit, LedgerRange(first, last)) && ValidFormat(r.format))
        then Err(InvalidRequest)
      else match PositionOf(r)
        case Err(e) => Err(e)
        case Ok(start) =>
          if start.ledger < first then Err(InvalidParams)
          else
            var visited := Visited(stored, start);
            var limit := PageLimit(r, limits.defaultLimit);
            var (txs, cursor) := Answer(visited, start.order, limit);
            Ok(TxPage(txs, cursor, last, first))
  }

  /** One ledger: transactions are appended until the page is full. */
  method ProcessTransactionsInLedger(l: Ledger, start: Position, txns: seq<TxInfo>, limit: nat)
    returns (txns': seq<TxInfo>, cursor: (nat, nat, nat), done: bool)
    requires |txns| < limit && start.order >= 1
    ensures var from := if l.sequence == start.ledger then start.order else 1;
            var all := txns + TxsBetween(l, from, |l.txs|);
            && txns' == FirstN(limit, all) && done == (|txns'| == limit)
            && (done ==> cursor == (txns'[limit - 1].ledger, txns'[limit - 1].order, 1))
            && (!done ==> cursor == (l.sequence, if from <= |l.txs| then |l.txs| else 0, 1))
  {
    var startTxIdx := 1;
    if l.sequence == start.ledger { startTxIdx := start.order; }
    txns' := txns;
    cursor := (l.sequence, 0, 1);
    var i := startTxIdx;
    while i <= |l.txs|
      invariant startTxIdx <= i && (i <= |l.txs| + 1 || i == startTxIdx)
      invariant i <= |l.txs| + 1 ==> txns' == txns + TxsBetween(l, startTxIdx, i - 1)
      invariant i > |l.txs| + 1 ==> txns' == txns
      invariant |txns'| < limit
      invariant cursor == (l.sequence, if startTxIdx < i then i - 1 else 0, 1)
    {
      cursor := (l.sequence, i, 1);
      assert TxsBetween(l, startTxIdx, i) == TxsBetween(l, startTxIdx, i - 1) + [TxInfoOf(l, i)];
      txns' := txns' + [TxInfoOf(l, i)];
      if |txns'| >= limit {
        BetweenSplit(l, startTxIdx, i);
        assert txns' == FirstN(limit, txns + TxsBetween(l, startTxIdx, |l.txs|));
        return txns', cursor, true;
      }
      i := i + 1;
    }
    done := false;
  }

  // ---- the handler ----

  lemma {:induction false} VisitedAt(stored: seq<Ledger>, start: Position)
    requires Contiguous(stored) && stored != [] && start.ledger >= stored[0].sequence
    ensures var (v, last) := (Visited(stored, start), stored[|stored| - 1].sequence);
            && Contiguous(v) && |v| == (if start.ledger <= last then last - start.ledger + 1 else 0)
            && forall i :: 0 <= i < |v| ==> v[i].sequence == start.ledger + i && v[i] in stored
  {
    hide WellFormed;
    var (v, k) := (Visited(stored, start), Before(stored, start.ledger));
    ContiguousTail(stored, k);
    forall i | 0 <= i < |v| ensures v[i].sequence == start.ledger + i && v[i] in stored {
      assert v[i] == stored[k + i];
    }
  }

  lemma {:induction false} FromNext(ls: seq<Ledger>, order: nat, k: nat)
    requires order >= 1 && k < |ls|
    ensures TxsFrom(ls[..k + 1], order)
         == TxsFrom(ls[..k], order) + TxsBetween(ls[k], if k == 0 then order else 1, |ls[k].txs|)
  {
    assert ls[..k + 1][..k] == ls[..k];
  }

  /** What a prefix of the ledgers already fills cannot change any more. */
  lemma {:induction false} FullPrefix(ls: seq<Ledger>, order: nat, k: nat, limit: nat)
    requires order >= 1 && 1 <= k <= |ls| && 1 <= limit <= |TxsFrom(ls[..k], order)|
    ensures var txs := FirstN(limit, TxsFrom(ls[..k], order));
            |txs| == limit
              && Answer(ls, order, limit) == (txs, CursorText(txs[limit - 1].ledger, txs[limit - 1].order, 1))
  {
    assert ls == ls[..k] + ls[k..];
    FromConcat(ls[..k], ls[k..], order);
    assert FirstN(limit, TxsFrom(ls, order)) == FirstN(limit, TxsFrom(ls[..k], order));
  }

  lemma {:induction false} ShortEnd(ls: seq<Ledger>, order: nat, limit: nat)
    requires order >= 1 && |TxsFrom(ls, order)| < limit
    ensures Answer(ls, order, limit) == (TxsFrom(ls, order), EndCursor(ls, order))
  {
    hide TxsFrom, EndCursor, CursorText;
    assert FirstN(limit, TxsFrom(ls, order)) == TxsFrom(ls, order);
  }

  /** The table holds the given ledgers at consecutive sequence numbers. */
  predicate RowsAre(t: LedgerTable, first: int, ls: seq<Ledger>) {
    forall k :: 0 <= k < |ls| ==> ls[k].sequence == first + k && ls[k].sequence in t && t[ls[k].sequence] == ls[k]
  }

  lemma {:induction false} VisitedRows(t: LedgerTable, stored: seq<Ledger>, start: Position)
    requires Contiguous(stored) && stored != [] && LedgersHold(t, stored) && start.ledger >= stored[0].sequence
    ensures RowsAre(t, start.ledger, Visited(stored, start))
    ensures start.ledger <= stored[|stored| - 1].sequence ==>
      |Visited(stored, start)| == stored[|stored| - 1].sequence - start.ledger + 1
  {
    VisitedAt(stored, start);
    forall k | 0 <= k < |Visited(stored, start)|
      ensures Visited(stored, start)[k].sequence in t
        && t[Visited(stored, start)[k].sequence] == Visited(stored, start)[k]
    {
      assert Visited(stored, start)[k] in stored;
    }
  }

  lemma {:induction false} FromNone(order: nat)
    requires order >= 1
    ensures TxsFrom([], order) == []
  {
  }

  /** Some more ledgers, after k of them have been gone through. */
  lemma {:induction false} EndNext(ls: seq<Ledger>, order: nat, k: nat)
    requires order >= 1 && k < |ls|
    ensures var from := if k == 0 then order else 1;
            EndCursor(ls[..k + 1], order)
              == CursorText(ls[k].sequence, if from <= |ls[k].txs| then |ls[k].txs| else 0, 1)
  {
    hide CursorText;
    assert ls[..k + 1][k] == ls[k];
  }

  /** The loop over the ledgers, until the page is full or the latest ledger is done. */
  method VisitLedgers(t: LedgerTable, start: Position, last: nat, limit: nat, ghost visited: seq<Ledger>)
    returns (txns: seq<TxInfo>, text: string)
    requires start.order >= 1 && limit >= 1 && 0 <= start.ledger <= last && |visited| == last - start.ledger + 1
    requires RowsAre(t, start.ledger, visited)
    ensures (txns, text) == Answer(visited, start.order, limit)
  {
    hide TxsFrom, TxsBetween, Answer, EndCursor, CursorText;
    FromNone(start.order);
    txns := [];
    var ledgerSeq: nat, cursor, done := start.ledger, (0, 0, 0), false;
    ghost var k := 0;
    while ledgerSeq <= last
      invariant k <= |visited| && ledgerSeq == start.ledger + k
      invariant |txns| < limit && txns == TxsFrom(visited[..k], start.order)
      invariant k > 0 ==> CursorText(cursor.0, cursor.1, cursor.2) == EndCursor(visited[..k], start.order)
      decreases last + 1 - ledgerSeq
    {
      assert visited[k].sequence == ledgerSeq;
      FromNext(visited, start.order, k);
      EndNext(visited, start.order, k);
      txns, cursor, done := ProcessTransactionsInLedger(t[ledgerSeq], start, txns, limit);
      if done {
        FullPrefix(visited, start.order, k + 1, limit);
        return txns, CursorText(cursor.0, cursor.1, cursor.2);
      }
      ledgerSeq, k := ledgerSeq + 1, k + 1;
    }
    assert visited[..k] == visited;
    ShortEnd(visited, start.order, limit);
    text := CursorText(cursor.0, cursor.1, cursor.2);
  }

  /** A start before the oldest ledger is not found; a start after the latest one finds nothing. */
  method CollectTransactions(t: LedgerTable, start: Position, last: nat, limit: nat, ghost stored: seq<Ledger>)
    returns (r: Result<(seq<TxInfo>, string), RpcError>)
    requires Contiguous(stored) && stored != [] && LedgersHold(t, stored) && last == stored[|stored| - 1].sequence
    requires start.order >= 1 && limit >= 1
    ensures r == if start.ledger < stored[0].sequence then Err(InvalidParams)
                 else Ok(Answer(Visited(stored, start), start.order, limit))
  {
    hide LedgersHold, Contiguous, Since, Before, Answer, EndCursor, CursorText, TxsFrom, RowsAre, WellFormed, Visited;
    StoredAt(t, stored, start.ledger);
    if start.ledger > last {
      NothingVisited(stored, start, limit);
      return Ok(([], CursorText(0, 0, 0)));
    }
    if start.ledger < 0 || start.ledger !in t { return Err(InvalidParams); }
    VisitedRows(t, stored, start);
    var txns, text := VisitLedgers(t, start, last, limit, Visited(stored, start));
    return Ok((txns, text));
  }

  lemma {:induction false} StoredAt(t: LedgerTable, stored: seq<Ledger>, ledger: int)
    requires Contiguous(stored) && stored != [] && LedgersHold(t, stored)
    ensures FIRST_LEDGER <= stored[0].sequence <= stored[|stored| - 1].sequence
    ensures ledger in t <==> stored[0].sequence <= ledger <= stored[|stored| - 1].sequence
  {
    Stored(t, stored, ledger);
  }

  lemma {:induction false} NothingVisited(stored: seq<Ledger>, start: Position, limit: nat)
    requires Contiguous(stored) && stored != [] && start.order >= 1 && limit >= 1
    requires start.ledger > stored[|stored| - 1].sequence
    ensures Answer(Visited(stored, start), start.order, limit) == ([], CursorText(0, 0, 0))
  {
    VisitedAt(stored, start);
    FromNone(start.order);
    ShortEnd([], start.order, limit);
  }

  method GetTransactions(limits: Limits, r: PagedRequest, range: Option<LedgerRange>, t: LedgerTable,
      ghost stored: seq<Ledger>)
    returns (res: Result<TxPage, RpcError>)
    requires limits.defaultLimit >= 1 && Contiguous(stored) && LedgersHold(t, stored)
    requires stored == [] <==> range.None?
    requires range.Some? ==> range.value == LedgerRange(stored[0].sequence, stored[|stored| - 1].sequence)
    ensures res == TxPageOf(limits, r, stored)
  {
    if range.None? { return Err(InternalError); }
    if !(ValidatePagination(r, limits.maxLimit, range.value) && ValidFormat(r.format)) { return Err(InvalidRequest); }
    var start := PositionOf(r);
    if start.Err? { return Err(start.error); }
    var limit := PageLimit(r, limits.defaultLimit);
    var found := CollectTransactions(t, start.value, range.value.last, limit, stored);
    if found.Err? { return Err(found.error); }
    return Ok(TxPage(found.value.0, found.value.1, range.value.last, range.value.first));
  }
}
