/**
 Following getTransactions cursors while the service ingests
 (cmd/stellar-rpc/internal/methods/get_transactions.go).
 */
module TransactionChain {
  import opened Wrappers
  import opened DecimalText
  import opened Cursors
  import opened Sequences
  import opened Chain
  import opened Retention
  import opened EventPages
  import opened LedgerRequests
  import opened TransactionPages

  // ---- what comes after a transaction ----

  lemma {:induction false} SinceTail(ls: seq<Ledger>, from: int)
    requires Contiguous(ls) && ls != [] && from > ls[0].sequence
    ensures Since(ls, from) == Since(ls[1..], from)
  {
  }

  lemma {:induction false} SinceWhole(ls: seq<Ledger>)
    requires ls != []
    ensures Since(ls, ls[0].sequence) == ls
  {
  }

  /** Where the listed transactions come from. */
  lemma {:induction false} ListedTx(ls: seq<Ledger>, order: nat, n: nat)
    requires Contiguous(ls) && order >= 1 && n < |TxsFrom(ls, order)|
    ensures var x := TxsFrom(ls, order)[n];
            ls != [] && ls[0].sequence <= x.ledger <= ls[|ls| - 1].sequence && 1 <= x.order <= TRANSACTION_MASK
  {
    var (front, l) := (ls[..|ls| - 1], ls[|ls| - 1]);
    if n < |TxsFrom(front, order)| {
      ListedTx(front, order, n);
    } else {
      var from := if |ls| == 1 then order else 1;
      assert TxsFrom(ls, order)[n] == TxsBetween(l, from, |l.txs|)[n - |TxsFrom(front, order)|];
    }
  }

  lemma {:induction false} FirstBefore(ls: seq<Ledger>)
    requires Contiguous(ls) && |ls| > 1
    ensures ls[0].sequence < ls[1].sequence
  {
  }

  lemma {:induction false} SplitAt<T>(a: seq<T>, b: seq<T>, n: nat)
    requires 1 <= n <= |a + b|
    ensures n <= |a| ==> (a + b)[n - 1] == a[n - 1]
    ensures n > |a| ==> (a + b)[n - 1] == b[n - |a| - 1] && (a + b)[n..] == b[n - |a|..]
    ensures n == |a| ==> (a + b)[n..] == b
  {
  }

  /** After a transaction of the first ledger. */
  lemma {:induction false} AfterOwn(ls: seq<Ledger>, order: nat, n: nat)
    requires ls != [] && order >= 1 && 1 <= n <= |TxsBetween(ls[0], order, |ls[0].txs|)|
    ensures n <= |TxsFrom(ls, order)|
    ensures var x := TxsFrom(ls, order)[n - 1];
            x.ledger == ls[0].sequence && TxsFrom(ls, order)[n..] == TxsFrom(ls, x.order + 1)
  {
    hide TxsFrom;
    FromSplit(ls, order, order + n - 1);
    SplitAt(TxsBetween(ls[0], order, order + n - 1), TxsFrom(ls, order + n), n);
  }

  lemma {:induction false} AfterTx(ls: seq<Ledger>, order: nat, n: nat)
    requires Contiguous(ls) && order >= 1 && 1 <= n <= |TxsFrom(ls, order)|
    ensures var x := TxsFrom(ls, order)[n - 1];
            TxsFrom(ls, order)[n..] == TxsFrom(Since(ls, x.ledger), x.order + 1)
    decreases |ls|
  {
    hide Contiguous, TxsFrom, TxsBetween, Since, Before;
    ListedTx(ls, order, n - 1);
    var (l, rest) := (ls[0], ls[1..]);
    var own := TxsBetween(l, order, |l.txs|);
    if n <= |own| {
      AfterOwn(ls, order, n);
      SinceWhole(ls);
    } else {
      ContiguousTail(ls, 1);
      assert ls == [l] + rest;
      FromConcat([l], rest, order);
      FromOne(l, order);
      FromFirst(rest);
      SplitAt(own, TxsFrom(rest, 1), n);
      AfterTx(rest, 1, n - |own|);
      ListedTx(rest, 1, n - |own| - 1);
      FirstBefore(ls);
      SinceTail(ls, TxsFrom(ls, order)[n - 1].ledger);
    }
  }

  // ---- pages over a moving store ----

  /** The store at the time of a page: the history from one index up to another. */
  datatype View = View(from: nat, to: nat)

  predicate ViewOf(history: seq<Ledger>, v: View) { v.from < v.to <= |history| }

  /** The transactions from a position on, as far as the history has got. */
  function RemainingTxs(history: seq<Ledger>, to: nat, start: Position): seq<TxInfo>
    requires to <= |history| && start.order >= 1
  {
    TxsFrom(Since(history[..to], start.ledger), start.order)
  }

  lemma {:induction false} ViewSince(history: seq<Ledger>, v: View, from: int)
    requires Contiguous(history) && ViewOf(history, v) && from >= history[v.from].sequence
    ensures Since(history[v.from..v.to], from) == Since(history[..v.to], from)
  {
  }

  /** What a page hands out is the first of what remains. */
  lemma {:induction false} PageIsPrefix(limits: Limits, r: PagedRequest, history: seq<Ledger>, v: View)
    returns (start: Position)
    requires limits.defaultLimit >= 1 && Contiguous(history) && ViewOf(history, v)
    requires Contiguous(history[v.from..v.to]) && TxPageOf(limits, r, history[v.from..v.to]).Ok?
    ensures PositionOf(r) == Ok(start) && start.order >= 1 && start.ledger >= history[v.from].sequence
    ensures ValidFormat(r.format) && (r.paging.Some? ==> r.paging.value.limit <= limits.maxLimit)
    ensures var (page, limit) := (TxPageOf(limits, r, history[v.from..v.to]).value, PageLimit(r, limits.defaultLimit));
            && page.txs == FirstN(limit, RemainingTxs(history, v.to, start))
            && (|page.txs| == limit ==>
              page.cursor == CursorText(page.txs[limit - 1].ledger, page.txs[limit - 1].order, 1))
  {
    hide TxsFrom, EndCursor, CursorText, Since, Contiguous, ParseInt64;
    start := PositionOf(r).value;
    ViewSince(history, v, start.ledger);
  }

  lemma {:induction false} CursorReads(ledger: nat, order: nat, op: nat)
    requires ledger <= MAX_INT32 && order <= TRANSACTION_MASK && op <= OPERATION_MASK
    ensures CursorText(ledger, order, op) != ""
    ensures ParseInt64(CursorText(ledger, order, op)) == Some(ToToid(ledger, order, op))
    ensures ParseToid(ToToid(ledger, order, op)) == (ledger, order, op)
  {
    var id := ToToid(ledger, order, op);
    ToidRoundTrip(ledger, order, op);
    hide Itoa, ParseInt64, ParseToid;
    ParseItoa(id, 0x8000_0000_0000_0000);
    ItoaDenotes(id);
  }

  lemma {:induction false} CursorParses(r: PagedRequest, ledger: nat, order: nat)
    requires ledger <= MAX_INT32 && order <= TRANSACTION_MASK
    ensures PositionOf(Following(r, CursorText(ledger, order, 1))) == Ok(Position(ledger, order + 1))
  {
    hide CursorText, ParseInt64, ParseToid, ToToid;
    CursorReads(ledger, order, 1);
  }

  /** After the n-th of the remaining transactions, what remains is the rest, however far the history has got. */
  lemma {:induction false} RemainingAfter(history: seq<Ledger>, to: nat, start: Position, n: nat)
    requires Contiguous(history) && to <= |history| && start.order >= 1 && 1 <= n <= |RemainingTxs(history, to, start)|
    ensures var x := RemainingTxs(history, to, start)[n - 1];
            && RemainingTxs(history, to, start)[n..] == RemainingTxs(history, to, Position(x.ledger, x.order + 1))
            && history != [] && start.ledger <= x.ledger <= history[|history| - 1].sequence
            && 1 <= x.order <= TRANSACTION_MASK
  {
    hide TxsFrom, Since, Before, Contiguous;
    var ls := Since(history[..to], start.ledger);
    PrefixContiguous(history, to);
    SinceSplit(history[..to], start.ledger);
    ListedTx(ls, start.order, n - 1);
    AfterTx(ls, start.order, n);
    SinceTwice(history[..to], start.ledger, TxsFrom(ls, start.order)[n - 1].ledger);
    SinceAtLeast(history[..to], start.ledger);
  }

  lemma {:induction false} PrefixSplit(all: seq<TxInfo>, some: seq<TxInfo>, limit: nat)
    requires |some| <= |all| && all[..|some|] == some && limit <= |some|
    ensures all[..limit] == some[..limit] && all == some[..limit] + all[limit..]
  {
  }

  /** The first of what remains, and the position after them. */
  lemma {:induction false} FullPageSplits(history: seq<Ledger>, from: nat, to: nat, start: Position, limit: nat)
    returns (next: Position)
    requires Contiguous(history) && from <= to <= |history| && start.order >= 1
    requires 1 <= limit <= |RemainingTxs(history, from, start)|
    ensures var txs := FirstN(limit, RemainingTxs(history, from, start));
            && |txs| == limit && txs[limit - 1].ledger <= MAX_INT32 && txs[limit - 1].order <= TRANSACTION_MASK
            && next == Position(txs[limit - 1].ledger, txs[limit - 1].order + 1)
            && RemainingTxs(history, to, start) == txs + RemainingTxs(history, to, next)
  {
    hide RemainingTxs, WellFormed;
    ViewGrows(history, from, to, start);
    var (some, all) := (RemainingTxs(history, from, start), RemainingTxs(history, to, start));
    PrefixSplit(all, some, limit);
    RemainingAfter(history, to, start, limit);
    LastInRange(history);
    next := Position(all[limit - 1].ledger, all[limit - 1].order + 1);
  }

  /** After a full page, what remains is the rest. */
  lemma {:induction false} FullPageResumes(limits: Limits, r: PagedRequest, history: seq<Ledger>, v: View,
    to: nat, page: TxPage)
    returns (start: Position, next: Position)
    requires limits.defaultLimit >= 1 && Contiguous(history) && ViewOf(history, v) && v.to <= to <= |history|
    requires Contiguous(history[v.from..v.to]) && TxPageOf(limits, r, history[v.from..v.to]) == Ok(page)
    requires |page.txs| == PageLimit(r, limits.defaultLimit)
    ensures PositionOf(r) == Ok(start) && start.order >= 1
    ensures PositionOf(Following(r, page.cursor)) == Ok(next) && next.order >= 1
    ensures RemainingTxs(history, to, start) == page.txs + RemainingTxs(history, to, next)
  {
    hide TxPageOf, RemainingTxs, Contiguous, WellFormed, CursorText, PositionOf, Following;
    start := PageIsPrefix(limits, r, history, v);
    var limit := PageLimit(r, limits.defaultLimit);
    next := FullPageSplits(history, v.to, to, start, limit);
    CursorParses(r, page.txs[limit - 1].ledger, page.txs[limit - 1].order);
  }

  lemma {:induction false} LastInRange(history: seq<Ledger>)
    requires Contiguous(history) && history != []
    ensures history[|history| - 1].sequence <= MAX_INT32
  {
  }

  lemma {:induction false} SinceAtLeast(ls: seq<Ledger>, from: int)
    requires Contiguous(ls) && Since(ls, from) != []
    ensures Since(ls, from)[0].sequence >= from
    ensures Since(ls, from)[|Since(ls, from)| - 1] == ls[|ls| - 1]
  {
  }

  lemma {:induction false} PrefixContiguous(history: seq<Ledger>, to: nat)
    requires Contiguous(history) && to <= |history|
    ensures Contiguous(history[..to])
    ensures to > 0 ==> history[..to][to - 1].sequence <= history[|history| - 1].sequence
  {
  }

  /** More history only adds transactions at the end. */
  lemma {:induction false} ViewGrows(history: seq<Ledger>, to: nat, to': nat, start: Position)
    requires Contiguous(history) && to <= to' <= |history| && start.order >= 1
    requires RemainingTxs(history, to, start) != []
    ensures |RemainingTxs(history, to', start)| >= |RemainingTxs(history, to, start)|
    ensures RemainingTxs(history, to', start)[..|RemainingTxs(history, to, start)|] == RemainingTxs(history, to, start)
  {
    var (a, b) := (Since(history[..to], start.ledger), history[to..to']);
    SinceGrows(history, to, to', start.ledger);
    hide TxsFrom, Since;
    FromConcat(a, b, start.order);
  }

  lemma {:induction false} SinceGrows(history: seq<Ledger>, to: nat, to': nat, from: int)
    requires Contiguous(history) && to <= to' <= |history| && Since(history[..to], from) != []
    ensures Since(history[..to'], from) == Since(history[..to], from) + history[to..to']
  {
  }

  // ---- chains ----

  predicate Full(limits: Limits, r: PagedRequest, page: TxPage) {
    |page.txs| == PageLimit(r, limits.defaultLimit)
  }

  /** Every page but the last is full, and each answers the request after the previous page's cursor. */
  ghost predicate IsTxChain(limits: Limits, r: PagedRequest, history: seq<Ledger>,
    views: seq<View>, pages: seq<TxPage>)
    requires limits.defaultLimit >= 1 && Contiguous(history)
    decreases |pages|
  {
    && pages != [] && |views| == |pages| && ViewOf(history, views[0])
    && Contiguous(history[views[0].from..views[0].to])
    && TxPageOf(limits, r, history[views[0].from..views[0].to]) == Ok(pages[0])
    && (|pages| > 1 ==>
          && Full(limits, r, pages[0]) && views[0].to <= views[1].to
          && IsTxChain(limits, Following(r, pages[0].cursor), history, views[1..], pages[1..]))
  }

  function HandedTxs(pages: seq<TxPage>): seq<TxInfo> {
    if pages == [] then [] else pages[0].txs + HandedTxs(pages[1..])
  }

  lemma {:induction false} ChainViews(limits: Limits, r: PagedRequest, history: seq<Ledger>,
    views: seq<View>, pages: seq<TxPage>)
    requires limits.defaultLimit >= 1 && Contiguous(history) && IsTxChain(limits, r, history, views, pages)
    ensures ViewOf(history, views[0]) && views[0].to <= views[|views| - 1].to <= |history|
    decreases |pages|
  {
    hide TxPageOf, WellFormed;
    if |pages| > 1 { ChainViews(limits, Following(r, pages[0].cursor), history, views[1..], pages[1..]); }
  }

  /**
   Whatever was ingested and dropped between the pages: what a chain has handed out is the beginning of what
   remained from its start, each transaction once and in order; and with a short page it is all of it.
   */
  lemma {:induction false} ChainHandsOut(limits: Limits, r: PagedRequest, history: seq<Ledger>,
    views: seq<View>, pages: seq<TxPage>)
    returns (start: Position)
    requires limits.defaultLimit >= 1 && Contiguous(history) && IsTxChain(limits, r, history, views, pages)
    ensures PositionOf(r) == Ok(start) && start.order >= 1 && views[|views| - 1].to <= |history|
    ensures var all := RemainingTxs(history, views[|views| - 1].to, start);
            && |HandedTxs(pages)| <= |all| && all[..|HandedTxs(pages)|] == HandedTxs(pages)
            && (|pages[|pages| - 1].txs| < PageLimit(r, limits.defaultLimit) ==> HandedTxs(pages) == all)
    decreases |pages|
  {
    hide TxPageOf, RemainingTxs, Contiguous, WellFormed, PositionOf, CursorText, ViewOf;
    ChainViews(limits, r, history, views, pages);
    var to := views[|views| - 1].to;
    if |pages| == 1 {
      start := PageIsPrefix(limits, r, history, views[0]);
      assert pages[1..] == [];
    } else {
      var next;
      start, next := FullPageResumes(limits, r, history, views[0], to, pages[0]);
      var next' := ChainHandsOut(limits, Following(r, pages[0].cursor), history, views[1..], pages[1..]);
      assert next == next';
    }
  }

  lemma {:induction false} FollowingAccepted(limits: Limits, r: PagedRequest, stored: seq<Ledger>,
    cursor: string, next: Position)
    requires limits.defaultLimit >= 1 && Contiguous(stored) && stored != [] && cursor != ""
    requires ValidFormat(r.format) && (r.paging.Some? ==> r.paging.value.limit <= limits.maxLimit)
    requires PositionOf(Following(r, cursor)) == Ok(next) && next.ledger >= stored[0].sequence
    ensures TxPageOf(limits, Following(r, cursor), stored).Ok?
    ensures PageLimit(Following(r, cursor), limits.defaultLimit) == PageLimit(r, limits.defaultLimit)
  {
  }

  lemma {:induction false} WholeView(stored: seq<Ledger>)
    requires Contiguous(stored)
    ensures stored[0..|stored|] == stored && stored[..|stored|] == stored
  {
  }

  /** Over a store that stays as it is, the chain comes to a short page. */
  lemma {:induction false} ChainEnds(limits: Limits, r: PagedRequest, stored: seq<Ledger>, remaining: nat)
    returns (views: seq<View>, pages: seq<TxPage>)
    requires limits.defaultLimit >= 1 && Contiguous(stored) && stored != [] && TxPageOf(limits, r, stored).Ok?
    requires PositionOf(r).Ok? && remaining == |RemainingTxs(stored, |stored|, PositionOf(r).value)|
    ensures IsTxChain(limits, r, stored, views, pages) && forall v :: v in views ==> v == View(0, |stored|)
    ensures |pages[|pages| - 1].txs| < PageLimit(r, limits.defaultLimit)
    decreases remaining
  {
    hide TxPageOf, RemainingTxs, Contiguous, WellFormed, PositionOf, CursorText;
    var v := View(0, |stored|);
    WholeView(stored);
    var page := TxPageOf(limits, r, stored).value;
    var start := PageIsPrefix(limits, r, stored, v);
    views, pages := [v], [page];
    if Full(limits, r, page) {
      var s, next := FullPageResumes(limits, r, stored, v, |stored|, page);
      FullPageCursor(stored, start, PageLimit(r, limits.defaultLimit));
      var x := page.txs[|page.txs| - 1];
      CursorParses(r, x.ledger, x.order);
      CursorReads(x.ledger, x.order, 1);
      FollowingAccepted(limits, r, stored, page.cursor, next);
      var vs, ps := ChainEnds(limits, Following(r, page.cursor), stored, |RemainingTxs(stored, |stored|, next)|);
      assert (views + vs)[1..] == vs && (pages + ps)[1..] == ps;
      assert vs[0] in vs;
      views, pages := views + vs, pages + ps;
    }
    assert pages[0] == page && views[0] == v;
  }

  lemma {:induction false} FullPageCursor(stored: seq<Ledger>, start: Position, limit: nat)
    requires Contiguous(stored) && stored != [] && start.order >= 1 && start.ledger >= stored[0].sequence
    requires 1 <= limit <= |RemainingTxs(stored, |stored|, start)|
    ensures var x := FirstN(limit, RemainingTxs(stored, |stored|, start))[limit - 1];
            stored[0].sequence <= x.ledger <= MAX_INT32 && x.order <= TRANSACTION_MASK
  {
    RemainingAfter(stored, |stored|, start, limit);
    LastInRange(stored);
  }

  // ---- beyond a short page ----

  lemma {:induction false} EndCursorResumes(r: PagedRequest, visited: seq<Ledger>, order: nat) returns (next: Position)
    requires Contiguous(visited) && visited != [] && order >= 1
    ensures PositionOf(Following(r, EndCursor(visited, order))) == Ok(next) && next.order >= 1
    ensures EndCursor(visited, order) != ""
    ensures var l := visited[|visited| - 1];
            && next.ledger == l.sequence
            && TxsFrom([l], next.order) == if |visited| == 1 && order > |l.txs| then TxsOf(l) else []
  {
    var l := visited[|visited| - 1];
    var from := if |visited| == 1 then order else 1;
    var seen := if from <= |l.txs| then |l.txs| else 0;
    hide CursorText, PositionOf, Following;
    CursorParses(r, l.sequence, seen);
    CursorReads(l.sequence, seen, 1);
    next := Position(l.sequence, seen + 1);
    FromOne(l, seen + 1);
  }

  lemma {:induction false} NotZero(ledger: nat, order: nat, op: nat, zero: nat)
    requires 1 <= ledger <= MAX_INT32 && order <= TRANSACTION_MASK && op <= OPERATION_MASK && zero == 0
    ensures CursorText(ledger, order, op) != CursorText(zero, zero, zero)
  {
    hide CursorText, ParseInt64, ParseToid;
    CursorReads(ledger, order, op);
    CursorReads(zero, zero, zero);
  }

  lemma {:induction false} EndCursorNotZero(visited: seq<Ledger>, order: nat, zero: nat)
    requires Contiguous(visited) && visited != [] && order >= 1 && zero == 0
    ensures EndCursor(visited, order) != CursorText(zero, zero, zero)
  {
    hide CursorText;
    var l := visited[|visited| - 1];
    var from := if |visited| == 1 then order else 1;
    NotZero(l.sequence, if from <= |l.txs| then |l.txs| else 0, 1, zero);
  }

  lemma {:induction false} VisitedEnds(stored: seq<Ledger>, start: Position)
    requires Contiguous(stored) && stored != [] && start.ledger >= stored[0].sequence
    ensures var (v, l) := (Visited(stored, start), stored[|stored| - 1]);
            && Contiguous(v) && (v == [] <==> start.ledger > l.sequence)
            && (v != [] ==> v[|v| - 1] == l && (|v| == 1 <==> start.ledger == l.sequence))
  {
    SinceSplit(stored, start.ledger);
  }

  /** An accepted page is the answer for what it visits. */
  lemma {:induction false} PageAnswers(limits: Limits, r: PagedRequest, stored: seq<Ledger>)
    requires limits.defaultLimit >= 1 && Contiguous(stored) && TxPageOf(limits, r, stored).Ok?
    ensures stored != [] && PositionOf(r).Ok? && PositionOf(r).value.order >= 1
    ensures PositionOf(r).value.ledger >= stored[0].sequence
    ensures ValidFormat(r.format) && (r.paging.Some? ==> r.paging.value.limit <= limits.maxLimit)
    ensures var (page, start, limit) := (TxPageOf(limits, r, stored).value, PositionOf(r).value,
      PageLimit(r, limits.defaultLimit));
            limit >= 1 && (page.txs, page.cursor) == Answer(Visited(stored, start), start.order, limit)
  {
    hide TxsFrom, EndCursor, CursorText, Since, Contiguous, ParseInt64, Answer;
  }

  /**
   The page after a short one, over the same store: it hands out the latest ledger's transactions once more if and
   only if the short page started in that ledger, past all of them. Otherwise it is empty.
   */
  lemma {:induction false} ShortPageResumes(limits: Limits, r: PagedRequest, stored: seq<Ledger>)
    requires limits.defaultLimit >= 1 && Contiguous(stored) && TxPageOf(limits, r, stored).Ok?
    requires |TxPageOf(limits, r, stored).value.txs| < PageLimit(r, limits.defaultLimit)
    requires PositionOf(r).Ok? && PositionOf(r).value.ledger <= stored[|stored| - 1].sequence
    ensures var (l, start) := (stored[|stored| - 1], PositionOf(r).value);
            var again := TxPageOf(limits, Following(r, TxPageOf(limits, r, stored).value.cursor), stored);
            && again.Ok?
            && again.value.txs == FirstN(PageLimit(r, limits.defaultLimit),
                                         if start.ledger == l.sequence && start.order > |l.txs| then TxsOf(l) else [])
  {
    hide TxPageOf, TxsFrom, Since, Before, WellFormed;
    hide CursorText, EndCursor, Contiguous, PositionOf, TxsBetween, Following;
    PageAnswers(limits, r, stored);
    var (l, start, page) := (stored[|stored| - 1], PositionOf(r).value, TxPageOf(limits, r, stored).value);
    var visited := Visited(stored, start);
    VisitedEnds(stored, start);
    var next := EndCursorResumes(r, visited, start.order);
    LastStored(stored);
    FollowingAccepted(limits, r, stored, page.cursor, next);
    PageAnswers(limits, Following(r, page.cursor), stored);
    VisitedEnds(stored, next);
    assert Visited(stored, next) == [l];
  }

  lemma {:induction false} LastStored(stored: seq<Ledger>)
    requires Contiguous(stored) && stored != []
    ensures stored[0].sequence <= stored[|stored| - 1].sequence
  {
  }

  /**
   A page ends with the cursor 0 if and only if it started past the latest ledger, and a request with that cursor is
   refused by every store.
   */
  lemma {:induction false} BeyondLatestDeadEnd(limits: Limits, r: PagedRequest, stored: seq<Ledger>, later: seq<Ledger>)
    requires limits.defaultLimit >= 1 && Contiguous(stored) && TxPageOf(limits, r, stored).Ok?
    requires Contiguous(later) && later != []
    ensures stored != [] && PositionOf(r).Ok?
    ensures TxPageOf(limits, r, stored).value.cursor == CursorText(0, 0, 0)
       <==> PositionOf(r).value.ledger > stored[|stored| - 1].sequence
    ensures TxPageOf(limits, Following(r, CursorText(0, 0, 0)), later) == Err(InvalidParams)
  {
    hide TxPageOf, TxsFrom, Since, Before, CursorText, EndCursor, Contiguous, PositionOf, Following;
    PageAnswers(limits, r, stored);
    var (start, limit) := (PositionOf(r).value, PageLimit(r, limits.defaultLimit));
    VisitedEnds(stored, start);
    if start.ledger > stored[|stored| - 1].sequence {
      NothingVisited(stored, start, limit);
    } else {
      AnswerNotZero(Visited(stored, start), start.order, limit, 0);
    }
    ZeroRefused(limits, r, later);
  }

  lemma {:induction false} AnswerNotZero(visited: seq<Ledger>, order: nat, limit: nat, zero: nat)
    requires Contiguous(visited) && visited != [] && order >= 1 && limit >= 1 && zero == 0
    ensures Answer(visited, order, limit).1 != CursorText(zero, zero, zero)
  {
    hide TxsFrom, CursorText, EndCursor, WellFormed;
    if limit <= |TxsFrom(visited, order)| {
      ListedTx(visited, order, limit - 1);
      var x := TxsFrom(visited, order)[limit - 1];
      FirstLedger(visited);
      NotZero(x.ledger, x.order, 1, zero);
    } else {
      EndCursorNotZero(visited, order, zero);
    }
  }

  lemma {:induction false} FirstLedger(ls: seq<Ledger>)
    requires Contiguous(ls) && ls != []
    ensures 1 <= ls[0].sequence && ls[|ls| - 1].sequence <= MAX_INT32
  {
  }

  lemma {:induction false} ZeroRefused(limits: Limits, r: PagedRequest, stored: seq<Ledger>)
    requires limits.defaultLimit >= 1 && Contiguous(stored) && stored != [] && ValidFormat(r.format)
    requires r.paging.Some? ==> r.paging.value.limit <= limits.maxLimit
    ensures TxPageOf(limits, Following(r, CursorText(0, 0, 0)), stored) == Err(InvalidParams)
  {
    hide CursorText, ParseInt64, ParseToid, ToToid, TxsFrom, Since;
    CursorReads(0, 0, 0);
  }
}
