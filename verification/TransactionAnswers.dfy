/**
 What getTransactions hands out, in terms of ledger numbers and indices
 (cmd/stellar-rpc/internal/methods/get_transactions.go).
 */
module TransactionAnswers {
  import opened Wrappers
  import opened DecimalText
  import opened Cursors
  import opened Sequences
  import opened Chain
  import opened Retention
  import opened EventPages
  import opened LedgerRequests
  import opened TransactionPages
  import opened TransactionChain

  // ---- where a transaction stands ----

  function CountTxs(ls: seq<Ledger>): nat {
    if ls == [] then 0 else CountTxs(ls[..|ls| - 1]) + |ls[|ls| - 1].txs|
  }

  lemma {:induction false} AllListed(ls: seq<Ledger>)
    ensures |AllTxs(ls)| == CountTxs(ls)
  {
    if ls != [] { AllListed(ls[..|ls| - 1]); }
  }

  /**
   The i-th transaction of the j-th ledger comes after those of the ledgers before and the i before it, with its
   ledger's number and close time and the application order i + 1.
   */
  lemma {:induction false} ListedAt(ls: seq<Ledger>, j: nat, i: nat)
    requires j < |ls| && i < |ls[j].txs|
    ensures |AllTxs(ls)| == CountTxs(ls) && CountTxs(ls[..j]) + i < CountTxs(ls)
    ensures AllTxs(ls)[CountTxs(ls[..j]) + i] == TxInfo(ls[j].sequence, i + 1, ls[j].closeTime, ls[j].txs[i])
  {
    var front := ls[..|ls| - 1];
    AllListed(ls);
    AllListed(front);
    if j < |front| {
      ListedAt(front, j, i);
      assert front[..j] == ls[..j];
    } else {
      assert ls[..j] == front;
      assert TxsOf(ls[j])[i] == TxInfoOf(ls[j], i + 1);
    }
  }

  // ---- the page a first request gets ----

  /** The page limit: what the client asked for, or the default. */
  predicate IsPageLimit(limits: Limits, r: PagedRequest, n: nat) {
    if r.paging.Some? && r.paging.value.limit > 0 then n == r.paging.value.limit else n == limits.defaultLimit
  }

  /** The ledgers from the one that a request without a cursor names. */
  lemma {:induction false} FromStartLedger(stored: seq<Ledger>, from: int)
    requires Contiguous(stored) && stored != []
    requires stored[0].sequence <= from <= stored[|stored| - 1].sequence
    ensures from - stored[0].sequence < |stored|
    ensures Since(stored, from) == stored[from - stored[0].sequence..]
    ensures stored[from - stored[0].sequence].sequence == from
  {
  }

  /**
   A request without a cursor: the first transactions, as many as the limit, of all those in the stored ledgers from
   the start ledger on.
   */
  lemma {:induction false} FirstPage(limits: Limits, r: PagedRequest, stored: seq<Ledger>, n: nat, page: TxPage)
    requires limits.defaultLimit >= 1 && Contiguous(stored) && !Resumes(r) && IsPageLimit(limits, r, n)
    requires TxPageOf(limits, r, stored) == Ok(page)
    ensures stored != [] && stored[0].sequence <= r.startLedger <= stored[|stored| - 1].sequence
    ensures r.startLedger - stored[0].sequence < |stored|
    ensures page.txs == FirstN(n, AllTxs(stored[r.startLedger - stored[0].sequence..]))
    ensures |page.txs| <= n && (r.paging.Some? ==> r.paging.value.limit <= limits.maxLimit)
    ensures page.latestLedger == stored[|stored| - 1].sequence && page.oldestLedger == stored[0].sequence
  {
    hide TxsFrom, AllTxs, EndCursor, CursorText, Since, Contiguous;
    var visited := Since(stored, r.startLedger);
    FromStartLedger(stored, r.startLedger);
    FromFirst(visited);
  }

  /** Its cursor: the last transaction handed out, or the last one of the latest ledger; in both cases operation 1. */
  lemma {:induction false} FirstPageCursor(limits: Limits, r: PagedRequest, stored: seq<Ledger>, n: nat, page: TxPage)
    requires limits.defaultLimit >= 1 && Contiguous(stored) && !Resumes(r) && IsPageLimit(limits, r, n)
    requires TxPageOf(limits, r, stored) == Ok(page)
    ensures n >= 1 && stored != []
    ensures |page.txs| == n ==>
      page.cursor == Itoa(page.txs[n - 1].ledger * 0x1_0000_0000 + page.txs[n - 1].order * 0x1000 + 1)
    ensures |page.txs| < n ==>
      var l := stored[|stored| - 1]; page.cursor == Itoa(l.sequence * 0x1_0000_0000 + |l.txs| * 0x1000 + 1)
  {
    hide TxsFrom, AllTxs, Since, Contiguous, Itoa;
    FromStartLedger(stored, r.startLedger);
  }

  /** When a request without a cursor is refused, and how. */
  lemma {:induction false} FirstPageRefused(limits: Limits, r: PagedRequest, stored: seq<Ledger>)
    requires limits.defaultLimit >= 1 && Contiguous(stored) && !Resumes(r)
    ensures TxPageOf(limits, r, stored).Ok?
       <==> && stored != [] && stored[0].sequence <= r.startLedger <= stored[|stored| - 1].sequence
            && (r.paging.Some? ==> r.paging.value.limit <= limits.maxLimit)
            && (r.format == "" || r.format == "json" || r.format == "base64")
    ensures TxPageOf(limits, r, stored).Err? ==>
      TxPageOf(limits, r, stored).error == if stored == [] then InternalError else InvalidRequest
  {
    hide TxsFrom, EndCursor, CursorText, Since, Contiguous, Itoa;
  }

  // ---- the page after a cursor ----

  /**
   A request with the cursor of a transaction, whoever made it: the first transactions after that one, in its ledger
   and the following ones.
   */
  lemma {:induction false} CursorPage(limits: Limits, r: PagedRequest, stored: seq<Ledger>, n: nat, page: TxPage,
      ledger: nat, order: nat, op: nat)
    requires limits.defaultLimit >= 1 && Contiguous(stored) && Resumes(r) && IsPageLimit(limits, r, n)
    requires ledger <= MAX_INT32 && order <= 0xf_ffff && op <= 0xfff
    requires r.paging.value.cursor == Itoa(ledger * 0x1_0000_0000 + order * 0x1000 + op)
    requires TxPageOf(limits, r, stored) == Ok(page)
    ensures r.startLedger == 0 && stored != [] && stored[0].sequence <= ledger
    ensures ledger > stored[|stored| - 1].sequence ==> page.txs == []
    ensures stored[0].sequence <= ledger <= stored[|stored| - 1].sequence ==>
      var k := ledger - stored[0].sequence;
      && k < |stored| && stored[k].sequence == ledger
      && page.txs == FirstN(n, TxsBetween(stored[k], order + 1, |stored[k].txs|) + AllTxs(stored[k + 1..]))
  {
    hide TxsFrom, AllTxs, EndCursor, CursorText, Contiguous, Itoa, TxsBetween, Since, ParseInt64, ParseToid;
    CursorDecoded(ledger, order, op);
    var start := Position(ledger, order + 1);
    assert PositionOf(r) == Ok(start);
    PageAnswers(limits, r, stored);
    if ledger <= stored[|stored| - 1].sequence {
      FromMiddle(stored, ledger, order + 1);
    } else {
      NothingVisited(stored, start, n);
    }
  }

  /** From an application order of one of the ledgers on: the rest of that ledger, and the following ones. */
  lemma {:induction false} FromMiddle(stored: seq<Ledger>, ledger: nat, order: nat)
    requires Contiguous(stored) && stored != [] && order >= 1
    requires stored[0].sequence <= ledger <= stored[|stored| - 1].sequence
    ensures var k := ledger - stored[0].sequence;
            && k < |stored| && stored[k].sequence == ledger
            && TxsFrom(Since(stored, ledger), order)
                 == TxsBetween(stored[k], order, |stored[k].txs|) + AllTxs(stored[k + 1..])
  {
    hide TxsFrom, AllTxs, TxsBetween, Since, Contiguous;
    FromStartLedger(stored, ledger);
    var k := ledger - stored[0].sequence;
    assert stored[k..] == [stored[k]] + stored[k + 1..];
    FromConcat([stored[k]], stored[k + 1..], order);
    FromOne(stored[k], order);
  }

  /** When such a request is refused, and how. */
  lemma {:induction false} CursorPageRefused(limits: Limits, r: PagedRequest, stored: seq<Ledger>,
      ledger: nat, order: nat, op: nat)
    requires limits.defaultLimit >= 1 && Contiguous(stored) && Resumes(r)
    requires ledger <= MAX_INT32 && order <= 0xf_ffff && op <= 0xfff
    requires r.paging.value.cursor == Itoa(ledger * 0x1_0000_0000 + order * 0x1000 + op)
    ensures var valid := && r.startLedger == 0 && r.paging.value.limit <= limits.maxLimit
                         && (r.format == "" || r.format == "json" || r.format == "base64");
            && (TxPageOf(limits, r, stored).Ok? <==> stored != [] && valid && stored[0].sequence <= ledger)
            && (stored == [] ==> TxPageOf(limits, r, stored) == Err(InternalError))
            && (stored != [] && !valid ==> TxPageOf(limits, r, stored) == Err(InvalidRequest))
            && (stored != [] && valid && ledger < stored[0].sequence ==>
              TxPageOf(limits, r, stored) == Err(InvalidParams))
  {
    hide TxsFrom, AllTxs, EndCursor, CursorText, Contiguous, Itoa, TxsBetween, ParseInt64, ParseToid, Since;
    CursorDecoded(ledger, order, op);
  }

  lemma {:induction false} CursorDecoded(ledger: nat, order: nat, op: nat)
    requires ledger <= MAX_INT32 && order <= 0xf_ffff && op <= 0xfff
    ensures ParseInt64(Itoa(ledger * 0x1_0000_0000 + order * 0x1000 + op)).Some?
    ensures ParseToid(ParseInt64(Itoa(ledger * 0x1_0000_0000 + order * 0x1000 + op)).value) == (ledger, order, op)
  {
    hide ParseInt64, ParseToid, Itoa;
    CursorReads(ledger, order, op);
  }

  // ---- chains ----

  /**
   A chain from a first request: whatever was ingested and dropped meanwhile, it hands out the first of all transactions
   of the history from the start ledger on; and with a short last page, all of them.
   */
  lemma {:induction false} FirstChain(limits: Limits, r: PagedRequest, history: seq<Ledger>,
    views: seq<View>, pages: seq<TxPage>, n: nat)
    requires limits.defaultLimit >= 1 && Contiguous(history) && IsTxChain(limits, r, history, views, pages)
    requires !Resumes(r) && IsPageLimit(limits, r, n)
    ensures var to := views[|views| - 1].to;
            history != [] && to <= |history| && 0 <= r.startLedger - history[0].sequence < to
    ensures var (k, to) := (r.startLedger - history[0].sequence, views[|views| - 1].to);
            var all := AllTxs(history[k..to]);
            && history[k].sequence == r.startLedger
            && |HandedTxs(pages)| <= |all| && all[..|HandedTxs(pages)|] == HandedTxs(pages)
            && (|pages[|pages| - 1].txs| < n ==> HandedTxs(pages) == all)
  {
    hide AllTxs, TxsFrom, TxPageOf, Contiguous, Since;
    var v := views[0];
    ChainViews(limits, r, history, views, pages);
    var to := views[|views| - 1].to;
    FirstPage(limits, r, history[v.from..v.to], n, pages[0]);
    var start := ChainHandsOut(limits, r, history, views, pages);
    WithinHistory(history, v, to, r.startLedger);
    FromFirst(Since(history[..to], start.ledger));
  }

  lemma {:induction false} WithinHistory(history: seq<Ledger>, v: View, to: nat, from: int)
    requires Contiguous(history) && ViewOf(history, v) && v.to <= to <= |history|
    requires history[v.from..v.to][0].sequence <= from <= history[v.from..v.to][v.to - v.from - 1].sequence
    ensures 0 <= from - history[0].sequence < to && history[from - history[0].sequence].sequence == from
    ensures Since(history[..to], from) == history[from - history[0].sequence..to]
  {
  }
}
