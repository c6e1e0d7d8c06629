/**
 Following getEvents cursors over a store that stays as it is (cmd/stellar-rpc/internal/methods/get_events.go):
 the pages come to an end, and together they are one scan.
 */
module EventChain {
  import opened Wrappers
  import opened Cursors
  import opened Sequences
  import opened Chain
  import opened EventFilters
  import opened EventStore
  import opened EventPages
  import opened EventWindows
  import opened EventPaging

  /** Each page answers the request that follows the cursor of the page before it. */
  ghost predicate IsChain(limits: Limits, r: Request, range: LedgerRange, es: seq<StoredEvent>, pages: seq<Response>)
    requires limits.defaultLimit >= 1 && Ordered(es) && range.last < MAX_INT32
    decreases |pages|
  {
    && pages != [] && Decoded(r)
    && PageOf(limits, r, Some(range), es) == Ok(pages[0])
    && (|pages| > 1 ==>
          ParseCursor(pages[0].cursor).Ok?
          && IsChain(limits, Follow(r, ParseCursor(pages[0].cursor).value), range, es, pages[1..]))
  }

  function Handed(pages: seq<Response>): seq<StoredEvent> {
    if pages == [] then [] else pages[0].events + Handed(pages[1..])
  }

  /** The page is short and its cursor has reached the latest ledger. */
  ghost predicate Finished(limits: Limits, r: Request, range: LedgerRange, page: Response) {
    && |page.events| < LimitOf(limits, r)
    && ParseCursor(page.cursor) == Ok(MAX_CURSOR.(ledger := range.last))
  }

  /** A request the chain can stand at. */
  ghost predicate Standing(limits: Limits, r: Request, range: LedgerRange, es: seq<StoredEvent>) {
    && limits.defaultLimit >= 1 && Ordered(es) && range.last < MAX_INT32
    && Decoded(r) && ValidRequest(r, limits.maxLimit) && InLedgerRange(r, range)
    && (r.endLedger == 0 || r.endLedger > StartOf(r).ledger)
  }

  function Remaining(r: Request, range: LedgerRange, es: seq<StoredEvent>): seq<StoredEvent>
    requires Decoded(r)
  {
    Stretch(es, Lo(r), LedgerRank(range.last + 1), r.filters)
  }

  /** One page of the chain, and the request it leads to. */
  lemma {:induction false} ChainStep(limits: Limits, r: Request, range: LedgerRange, es: seq<StoredEvent>)
    returns (page: Response, next: Request)
    requires Standing(limits, r, range, es)
    ensures PageOf(limits, r, Some(range), es) == Ok(page)
    ensures Finished(limits, r, range, page) ==> page.events == Remaining(r, range, es)
    ensures !Finished(limits, r, range, page) ==>
      && ParseCursor(page.cursor).Ok? && next == Follow(r, ParseCursor(page.cursor).value)
      && Standing(limits, next, range, es)
      && next.endLedger == 0 && StartOf(r).ledger <= StartOf(next).ledger
      && Remaining(r, range, es) == page.events + Remaining(next, range, es)
      && (r.endLedger != 0 || StartOf(r).ledger < StartOf(next).ledger || page.events != [])
  {
    hide Rank, Ordered, String, ParseCursor, ValidRequest;
    EndsAfterStart(r, range);
    PageStretch(limits, r, range, es);
    var c := PageCursor(limits, r, range.last, es);
    ParseString(c);
    page := PageOf(limits, r, Some(range), es).value;
    next := Follow(r, c);
    LedgerRankMonotone(EndLedgerOf(r, range.last), range.last + 1);
    if Finished(limits, r, range, page) {
      LedgerEndRank(MAX_CURSOR.(ledger := range.last));
    } else {
      ResumesAfter(r, c, es);
      FollowValid(r, c, limits.maxLimit);
      CursorAdvances(limits, r, range, es);
      StretchFrom(es, Lo(next), Rank(c) + 1, LedgerRank(range.last + 1), r.filters);
      LowBelowNext(limits, r, range, es);
      StretchSplit(es, Lo(r), Rank(c) + 1, LedgerRank(range.last + 1), r.filters);
    }
  }

  lemma {:induction false} StretchFrom(es: seq<StoredEvent>, lo: int, mid: int, hi: int, fs: seq<EventFilter>)
    requires Ordered(es) && lo <= mid <= hi && NoneBetween(es, lo, mid)
    ensures Stretch(es, lo, hi, fs) == Stretch(es, mid, hi, fs)
  {
    StretchSplit(es, lo, mid, hi, fs);
    StretchEmpty(es, lo, mid, fs);
  }

  lemma {:induction false} LowBelowNext(limits: Limits, r: Request, range: LedgerRange, es: seq<StoredEvent>)
    requires Standing(limits, r, range, es)
    requires 1 <= EndLedgerOf(r, range.last) && InRange(PageCursor(limits, r, range.last, es))
    ensures Lo(r) <= Rank(PageCursor(limits, r, range.last, es)) + 1
  {
    EndsAfterStart(r, range);
    PageStretch(limits, r, range, es);
    var c := PageCursor(limits, r, range.last, es);
    var events := PageEvents(limits, r, range.last, es);
    if |events| == LimitOf(limits, r) {
      StretchMember(es, Lo(r), Rank(c) + 1, r.filters, events[0]);
    } else {
      LedgerRankBounds(StartOf(r));
      LedgerRankMonotone(StartOf(r).ledger + 1, EndLedgerOf(r, range.last));
    }
  }

  lemma {:induction false} CursorAdvances(limits: Limits, r: Request, range: LedgerRange, es: seq<StoredEvent>)
    requires Standing(limits, r, range, es)
    requires 1 <= EndLedgerOf(r, range.last) && InRange(PageCursor(limits, r, range.last, es))
    ensures var c := PageCursor(limits, r, range.last, es);
            var events := PageEvents(limits, r, range.last, es);
            && StartOf(r).ledger <= c.ledger <= range.last
            && (|events| == LimitOf(limits, r) ==> events != [])
            && (|events| != LimitOf(limits, r) && r.endLedger == 0 && c.ledger < range.last ==>
              StartOf(r).ledger < c.ledger)
  {
    EndsAfterStart(r, range);
    PageStretch(limits, r, range, es);
    var c := PageCursor(limits, r, range.last, es);
    var events := PageEvents(limits, r, range.last, es);
    if |events| == LimitOf(limits, r) {
      var e := events[|events| - 1];
      StretchMember(es, Lo(r), Hi(r, range.last), r.filters, e);
      PickMembers(es, WindowOf(r, range.last), e);
      LedgerRankBounds(c);
      LedgerRankBounds(StartOf(r));
    }
  }

  /** The chain terminates: ledgers left, then events left. Its pages are one full scan, each event once. */
  lemma {:induction false} ChainCompletes(limits: Limits, r: Request, range: LedgerRange, es: seq<StoredEvent>)
    returns (pages: seq<Response>)
    requires Standing(limits, r, range, es)
    ensures IsChain(limits, r, range, es, pages)
    ensures Finished(limits, r, range, pages[|pages| - 1])
    ensures Handed(pages) == Remaining(r, range, es)
    decreases if r.endLedger != 0 then 1 else 0, range.last - StartOf(r).ledger, |Remaining(r, range, es)|
  {
    hide Remaining, PageOf, ValidRequest, Ordered, ParseCursor;
    var page, next := ChainStep(limits, r, range, es);
    if Finished(limits, r, range, page) {
      pages := [page];
    } else {
      var rest := ChainCompletes(limits, next, range, es);
      pages := [page] + rest;
      assert pages[1..] == rest;
    }
  }

  /** What remains is everything the request asks for at or after its start: the scan runs to the latest ledger. */
  lemma {:induction false} RemainingIsFullScan(r: Request, range: LedgerRange, ls: seq<Ledger>,
      wanted: StoredEvent -> bool)
    requires Decoded(r) && Contiguous(ls) && ls != [] && range.last == ls[|ls| - 1].sequence
    requires forall e :: wanted(e) <==> Lo(r) <= Rank(e.cursor) && Asked(r.filters, e)
    ensures Remaining(r, range, EventsOf(ls)) == Pick(EventsOf(ls), wanted)
  {
    var es := EventsOf(ls);
    EventsOrdered(ls);
    forall i | 0 <= i < |es| ensures Window(Lo(r), LedgerRank(range.last + 1), r.filters)(es[i]) == wanted(es[i]) {
      LedgerRankBounds(es[i].cursor);
    }
    PickAgree(es, Window(Lo(r), LedgerRank(range.last + 1), r.filters), wanted);
  }
}
