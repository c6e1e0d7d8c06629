/**
 What a getEvents page holds, in terms of the request's own numbers (cmd/stellar-rpc/internal/methods/get_events.go,
 protocol/get_events.go).
 */
module EventAnswers {
  import opened Wrappers
  import opened Cursors
  import opened Sequences
  import opened Chain
  import opened EventFilters
  import opened EventPrefilter
  import opened EventStore
  import opened EventPages

  /** The ledger a request starts in. */
  function FirstLedgerAsked(r: Request): nat {
    if HasCursor(r) then r.pagination.value.cursor.value.ledger else r.startLedger
  }

  /** The ledgers a page can show: stored ones, within 10000 of the start, before the end that was asked for. */
  predicate Reachable(r: Request, last: nat, ledger: nat) {
    ledger <= last && ledger < FirstLedgerAsked(r) + 10000 && (r.endLedger == 0 || ledger < r.endLedger)
  }

  /** From the start ledger on, or after the cursor; a cursor with the largest event index repeats its operation. */
  predicate FromStart(r: Request, e: StoredEvent) {
    if !HasCursor(r) then e.cursor.ledger >= r.startLedger
    else
      var c := r.pagination.value.cursor.value;
      if c.event < 0xffff_ffff then Cmp(e.cursor, c) > 0 else Cmp(e.cursor, c.(event := 0)) >= 0
  }

  /** The page limit: what the client asked for, or the default. */
  predicate IsLimit(limits: Limits, r: Request, n: nat) {
    if r.pagination.Some?
      && r.pagination.value.limit > 0 then n == r.pagination.value.limit else n == limits.defaultLimit
  }

  /** A page's range of ranks, read off the request. */
  lemma {:induction false} WindowIs(r: Request, range: LedgerRange, e: StoredEvent)
    requires Decoded(r) && InLedgerRange(r, range) && range.last < MAX_INT32 && InRange(e.cursor)
    ensures Rank(StartOf(r)) <= Rank(e.cursor) <==> FromStart(r, e)
    ensures Rank(e.cursor) < Rank(Cursor(EndLedgerOf(r, range.last), 0, 0, 0))
      <==> Reachable(r, range.last, e.cursor.ledger)
  {
    EndsAfterStart(r, range);
    StartIs(r, range, e.cursor);
    EndIs(r, range, e.cursor.ledger);
    BeforeLedger(e.cursor, EndLedgerOf(r, range.last));
  }

  lemma {:induction false} StartIs(r: Request, range: LedgerRange, c: Cursor)
    requires Decoded(r) && InLedgerRange(r, range) && range.last < MAX_INT32 && InRange(c)
    ensures StartOf(r).ledger == FirstLedgerAsked(r)
    ensures Rank(StartOf(r)) <= Rank(c) <==>
      if !HasCursor(r) then c.ledger >= r.startLedger
      else
        var from := r.pagination.value.cursor.value;
        if from.event < 0xffff_ffff then Cmp(c, from) > 0 else Cmp(c, from.(event := 0)) >= 0
  {
    if HasCursor(r) {
      var from := r.pagination.value.cursor.value;
      RankOrder(c, from);
      RankOrder(c, from.(event := 0));
    }
  }

  lemma {:induction false} EndIs(r: Request, range: LedgerRange, ledger: nat)
    requires Decoded(r) && InLedgerRange(r, range) && range.last < MAX_INT32
    ensures StartOf(r).ledger == FirstLedgerAsked(r)
    ensures ledger < EndLedgerOf(r, range.last) <==> Reachable(r, range.last, ledger)
    ensures EndLedgerOf(r, range.last) >= 1
  {
  }

  lemma {:induction false} BeforeLedger(c: Cursor, ledger: nat)
    requires InRange(c)
    ensures Rank(c) < Rank(Cursor(ledger, 0, 0, 0)) <==> c.ledger < ledger
  {
  }

  /**
   An accepted page holds the first stored events, as many as the limit, that come from the start on, lie in a
   reachable ledger and pass prefilter and filters.
   */
  lemma {:induction false} PageHolds(limits: Limits, r: Request, range: LedgerRange, es: seq<StoredEvent>, n: nat,
      wanted: StoredEvent -> bool)
    requires Decoded(r) && limits.defaultLimit >= 1 && Ordered(es) && range.last < MAX_INT32
    requires PageOf(limits, r, Some(range), es).Ok? && IsLimit(limits, r, n)
    requires forall e ::
      wanted(e) <==> FromStart(r, e) && Reachable(r, range.last, e.cursor.ledger) && Asked(r.filters, e)
    ensures PageOf(limits, r, Some(range), es).value.events == FirstN(n, Pick(es, wanted))
  {
    hide Rank, Asked, Ordered, StartOf, EndLedgerOf, FromStart, Reachable, String;
    assert Placeable(es) by { AllPlaced(es); }
    forall i | 0 <= i < |es| ensures WindowOf(r, range.last)(es[i]) == wanted(es[i]) {
      WindowIs(r, range, es[i]);
    }
    PickAgree(es, WindowOf(r, range.last), wanted);
  }

  predicate Placeable(es: seq<StoredEvent>) { forall i :: 0 <= i < |es| ==> InRange(es[i].cursor) }

  lemma {:induction false} AllPlaced(es: seq<StoredEvent>)
    requires Ordered(es)
    ensures Placeable(es)
  {
  }

  /** For a list whose prefilter loses nothing, what is wanted is what the filters match. */
  lemma {:induction false} AskedIsMatched(fs: seq<EventFilter>, e: StoredEvent)
    requires ValidFilters(fs) && Uniform(fs)
    ensures Asked(fs, e) <==> Matches(fs, e.event.event)
  {
    PrefilterLossless(fs);
  }

  lemma {:induction false} PageBounds(limits: Limits, r: Request, range: LedgerRange, es: seq<StoredEvent>,
      e: StoredEvent)
    requires Decoded(r) && limits.defaultLimit >= 1 && Ordered(es) && range.last < MAX_INT32
    requires PageOf(limits, r, Some(range), es).Ok? && e in PageOf(limits, r, Some(range), es).value.events
    ensures e in es && FromStart(r, e) && Asked(r.filters, e)
    ensures e.cursor.ledger <= range.last && e.cursor.ledger < FirstLedgerAsked(r) + 10000
    ensures r.endLedger == 0 || e.cursor.ledger < r.endLedger
  {
    hide Rank, Asked, Ordered, StartOf, EndLedgerOf, FromStart, String;
    var n := LimitOf(limits, r);
    var wanted := (x: StoredEvent) => FromStart(r, x) && Reachable(r, range.last, x.cursor.ledger)
      && Asked(r.filters, x);
    PageHolds(limits, r, range, es, n, wanted);
    PickMembers(es, wanted, e);
  }

  /** A page that is not full holds all of them. */
  lemma {:induction false} ShortPageComplete(limits: Limits, r: Request, range: LedgerRange,
      es: seq<StoredEvent>, n: nat,
      e: StoredEvent)
    requires Decoded(r) && limits.defaultLimit >= 1 && Ordered(es) && range.last < MAX_INT32
    requires PageOf(limits, r, Some(range), es).Ok? && IsLimit(limits, r, n)
    requires |PageOf(limits, r, Some(range), es).value.events| < n
    requires e in es && FromStart(r, e) && Reachable(r, range.last, e.cursor.ledger) && Asked(r.filters, e)
    ensures e in PageOf(limits, r, Some(range), es).value.events
  {
    hide Rank, Asked, Ordered, StartOf, EndLedgerOf, FromStart, Reachable, String, PageOf;
    var wanted := (x: StoredEvent) => FromStart(r, x) && Reachable(r, range.last, x.cursor.ledger)
      && Asked(r.filters, x);
    PageHolds(limits, r, range, es, n, wanted);
    PickMembers(es, wanted, e);
  }

  /**
   A page has at most as many events as were asked for, and no more than the service allows. A full page ends with its
   last event's id; any other with the largest cursor of the greatest reachable ledger.
   */
  lemma {:induction false} PageEnds(limits: Limits, r: Request, range: LedgerRange, es: seq<StoredEvent>,
      n: nat, page: Response)
    returns (greatest: nat, end: Cursor)
    requires Decoded(r) && limits.defaultLimit >= 1 && Ordered(es) && range.last < MAX_INT32
    requires PageOf(limits, r, Some(range), es) == Ok(page) && IsLimit(limits, r, n)
    ensures Reachable(r, range.last, greatest) && forall l: nat :: Reachable(r, range.last, l) ==> l <= greatest
    ensures end == Cursor(greatest, 0xf_ffff, 0xfff, 0xffff_ffff) && InRange(end) && n >= 1
    ensures |page.events| <= n && (r.pagination.Some? ==> r.pagination.value.limit <= limits.maxLimit)
    ensures |page.events| == n ==>
      InRange(page.events[n - 1].cursor) && page.cursor == String(page.events[n - 1].cursor)
    ensures |page.events| < n ==> page.cursor == String(end)
    ensures page.latestLedger == range.last && page.oldestLedger == range.first
  {
    hide Rank, Asked, Ordered, StartOf, String, PageEvents, ValidFilters, Reachable;
    EndsAfterStart(r, range);
    PageOrdered(limits, r, range.last, es);
    greatest := EndLedgerOf(r, range.last) - 1;
    end := MAX_CURSOR.(ledger := greatest);
    EndIs(r, range, greatest);
    forall l: nat | Reachable(r, range.last, l) ensures l <= greatest { EndIs(r, range, l); }
    PageSize(limits, r, range, es, n);
    LastPlaced(PageEvents(limits, r, range.last, es));
  }

  lemma {:induction false} LastPlaced(es: seq<StoredEvent>)
    requires Ordered(es)
    ensures es != [] ==> InRange(es[|es| - 1].cursor)
  {
  }

  lemma {:induction false} PageSize(limits: Limits, r: Request, range: LedgerRange, es: seq<StoredEvent>, n: nat)
    requires Decoded(r) && limits.defaultLimit >= 1 && Ordered(es) && range.last < MAX_INT32
    requires InLedgerRange(r, range) && IsLimit(limits, r, n)
    ensures n == LimitOf(limits, r) >= 1 && |PageEvents(limits, r, range.last, es)| <= n
  {
    hide Rank, Asked, Ordered, StartOf, String;
  }

  /** When a request is refused, and how. */
  lemma {:induction false} PageRefused(limits: Limits, r: Request, range: Option<LedgerRange>, es: seq<StoredEvent>)
    requires Decoded(r) && limits.defaultLimit >= 1 && Ordered(es) && (range.Some? ==> range.value.last < MAX_INT32)
    ensures var valid := && (r.format == "" || r.format == "json" || r.format == "base64")
                         && (HasCursor(r) ==> r.startLedger == 0 && r.endLedger == 0)
                         && (!HasCursor(r) ==> r.startLedger != 0)
                         && (r.pagination.Some? ==> r.pagination.value.limit <= limits.maxLimit)
                         && ValidFilters(r.filters);
            var known := range.Some? && range.value.first <= FirstLedgerAsked(r) <= range.value.last;
            && (PageOf(limits, r, range, es).Ok? <==> valid && known)
            && (!valid ==> PageOf(limits, r, range, es) == Err(InvalidParams))
            && (valid && range.None? ==> PageOf(limits, r, range, es) == Err(InternalError))
            && (valid && range.Some? && !known ==> PageOf(limits, r, range, es) == Err(InvalidRequest))
  {
    hide Rank, Asked, Ordered, String, ValidFilters, PageEvents, PageCursor;
  }
}
