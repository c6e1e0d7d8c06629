/**
 A client that follows getEvents cursors while the service ingests (cmd/stellar-rpc/internal/methods/get_events.go,
 cmd/stellar-rpc/internal/db/event.go). A page reads the latest ledger from the cache, then the oldest one, then
 scans the table: three separate reads, with commits that append and trim possible in between.
 */
module EventPaging {
  import opened UInt32
  import opened Wrappers
  import opened Cursors
  import opened Sequences
  import opened Chain
  import opened EventFilters
  import opened EventPrefilter
  import opened EventStore
  import opened EventPages
  import opened EventWindows

  function Lo(r: Request): int
    requires Decoded(r)
  {
    Rank(StartOf(r))
  }

  function Hi(r: Request, last: uint32): int
    requires Decoded(r)
  {
    LedgerRank(EndLedgerOf(r, last))
  }

  // ---- one page ----

  /** Stored events have operation 0, so restarting the event index at a wrapped cursor repeats nothing. */
  lemma {:induction false} WrapHarmless(es: seq<StoredEvent>, ledger: nat)
    requires Ordered(es)
    ensures NoneBetween(es, Rank(Cursor(ledger, TRANSACTION_MASK, OPERATION_MASK, 0)), LedgerRank(ledger + 1))
  {
    var wrapped := Cursor(ledger, TRANSACTION_MASK, OPERATION_MASK, 0);
    forall i | 0 <= i < |es| ensures !(Rank(wrapped) <= Rank(es[i].cursor) < LedgerRank(ledger + 1)) {
      BeforeLedgerEnd(es[i].cursor, ledger);
    }
  }

  /** A cursor of operation 0 is before the last operation of its ledger, and otherwise in another one. */
  lemma {:induction false} BeforeLedgerEnd(c: Cursor, ledger: nat)
    requires InRange(c) && c.op == 0
    ensures !(Rank(Cursor(ledger, TRANSACTION_MASK, OPERATION_MASK, 0)) <= Rank(c) < LedgerRank(ledger + 1))
  {
  }

  /** The request that follows a cursor. */
  function Follow(r: Request, c: Cursor): Request {
    var limit := if r.pagination.Some? then r.pagination.value.limit else 0;
    Request(0, 0, r.filters, Some(Pagination(Some(c), limit)), r.format)
  }

  /** Where a page can end: at a stored event, or at the end of a ledger. */
  predicate PageEnd(c: Cursor) {
    InRange(c) && (c.event < MAX_UINT32 || c == MAX_CURSOR.(ledger := c.ledger))
  }

  /** The page's events, and its cursor, seen as a stretch of what is stored. */
  lemma {:induction false} PageStretch(limits: Limits, r: Request, range: LedgerRange, es: seq<StoredEvent>)
    requires Decoded(r) && limits.defaultLimit >= 1 && Ordered(es)
    requires InLedgerRange(r, range) && range.last < MAX_INT32
    ensures 1 <= EndLedgerOf(r, range.last) <= range.last + 1
    ensures var c := PageCursor(limits, r, range.last, es);
            PageEnd(c) && Rank(c) + 1 <= Hi(r, range.last)
            && PageEvents(limits, r, range.last, es) == Stretch(es, Lo(r), Rank(c) + 1, r.filters)
            && (|PageEvents(limits, r, range.last, es)| == LimitOf(limits, r) || Rank(c) + 1 == Hi(r, range.last))
  {
    EndsAfterStart(r, range);
    PageOrdered(limits, r, range.last, es);
    var all := Stretch(es, Lo(r), Hi(r, range.last), r.filters);
    var n := LimitOf(limits, r);
    if n <= |all| {
      StretchPrefix(es, Lo(r), Hi(r, range.last), r.filters, n);
      assert Placed(PageEvents(limits, r, range.last, es)[n - 1]);
    }
  }

  lemma {:induction false} ResumesAfterEvent(r: Request, c: Cursor)
    requires InRange(c) && c.event < MAX_UINT32
    ensures Decoded(Follow(r, c)) && Lo(Follow(r, c)) == Rank(c) + 1 && StartOf(Follow(r, c)).ledger == c.ledger
  {
  }

  /** The largest cursor of a ledger. */
  predicate LedgerEnd(c: Cursor) { c == Cursor(c.ledger, TRANSACTION_MASK, OPERATION_MASK, MAX_UINT32) }

  lemma {:induction false} LedgerEndRank(c: Cursor)
    requires LedgerEnd(c)
    ensures Rank(c) + 1 == LedgerRank(c.ledger + 1) && Rank(c.(event := 0)) <= Rank(c)
  {
  }

  lemma {:induction false} FollowLedgerEnd(r: Request, c: Cursor)
    requires LedgerEnd(c) && c.ledger <= MAX_INT32
    ensures Decoded(Follow(r, c)) && StartOf(Follow(r, c)) == c.(event := 0)
  {
  }

  lemma {:induction false} ResumesAfterLedger(r: Request, c: Cursor, full: seq<StoredEvent>)
    requires LedgerEnd(c) && c.ledger <= MAX_INT32 && Ordered(full)
    ensures Decoded(Follow(r, c))
    ensures StartOf(Follow(r, c)).ledger == c.ledger && Lo(Follow(r, c)) <= Rank(c) + 1 == LedgerRank(c.ledger + 1)
    ensures NoneBetween(full, Lo(Follow(r, c)), Rank(c) + 1)
  {
    hide Rank, LedgerRank, Ordered, NoneBetween, Follow, StartOf;
    FollowLedgerEnd(r, c);
    LedgerEndRank(c);
    WrapHarmless(full, c.ledger);
  }

  /** After a page, paging resumes without a gap: nothing stored lies between the page's end and the next start. */
  lemma {:induction false} ResumesAfter(r: Request, c: Cursor, full: seq<StoredEvent>)
    requires PageEnd(c) && Ordered(full)
    ensures Decoded(Follow(r, c)) && StartOf(Follow(r, c)).ledger == c.ledger
    ensures Lo(Follow(r, c)) <= Rank(c) + 1 <= LedgerRank(c.ledger + 1)
    ensures NoneBetween(full, Lo(Follow(r, c)), Rank(c) + 1)
  {
    hide Rank, Ordered, LedgerRank, Follow, Lo;
    if c.event == MAX_UINT32 {
      ResumesAfterLedger(r, c, full);
    } else {
      ResumesAfterEvent(r, c);
      LedgerRankBounds(c);
    }
  }

  // ---- the client and the store ----

  datatype Phase = Idle | KnowsLatest(last: uint32) | KnowsRange(first: uint32, last: uint32) | Failed(error: RpcError)

  /**
   The ledgers ingested so far, how many of the oldest retention has dropped, and the client: where its page
   stands, what it asks for next and what it has received. Origin and front are the ranks it asked from and
   has been answered up to; lost records whether some page overlooked a trimmed event.
   */
  datatype World = World(
    history: seq<Ledger>, dropped: nat, phase: Phase, request: Request, received: seq<StoredEvent>,
    origin: int, front: int, lost: bool)
  {
    function Full(): seq<StoredEvent> { EventsOf(history) }

    function Dropped(): seq<StoredEvent>
      requires dropped <= |history|
    {
      EventsOf(history[..dropped])
    }

    /** The content of the events table. */
    function Stored(): seq<StoredEvent>
      requires dropped <= |history|
    {
      EventsOf(history[dropped..])
    }

    /** What the client should have received. */
    function Due(): seq<StoredEvent> { Stretch(Full(), origin, front, request.filters) }
  }

  predicate WellFormedWorld(s: World) {
    Contiguous(s.history) && s.dropped < |s.history| && Decoded(s.request)
  }

  function Latest(s: World): nat
    requires WellFormedWorld(s)
  {
    s.history[|s.history| - 1].sequence
  }

  function Oldest(s: World): nat
    requires WellFormedWorld(s)
  {
    s.history[s.dropped].sequence
  }

  ghost predicate Init(limits: Limits, s: World) {
    && WellFormedWorld(s) && s.phase == Idle && limits.defaultLimit >= 1
    && ValidRequest(s.request, limits.maxLimit)
    && (s.request.endLedger == 0 || s.request.endLedger > s.request.startLedger)
    && s.received == [] && s.origin == s.front == Lo(s.request) && !s.lost
  }

  /** An ingestion commit appends a ledger and may drop old ones. */
  predicate Commit(s: World, s': World) {
    && |s'.history| == |s.history| + 1 && s'.history[..|s.history|] == s.history && Contiguous(s'.history)
    && s.dropped <= s'.dropped < |s'.history|
    && s' == s.(history := s'.history, dropped := s'.dropped)
  }

  predicate ReadLatest(s: World, s': World)
    requires WellFormedWorld(s)
  {
    s.phase.Idle? && s' == s.(phase := KnowsLatest(Latest(s)))
  }

  predicate ReadOldest(s: World, s': World)
    requires WellFormedWorld(s)
  {
    s.phase.KnowsLatest? && s' == s.(phase := KnowsRange(Oldest(s), s.phase.last))
  }

  /** The page overlooks events it should show: they lie in its window but have just been trimmed. */
  predicate Overlooks(s: World, last: uint32)
    requires WellFormedWorld(s)
  {
    Stretch(s.Dropped(), Lo(s.request), Hi(s.request, last), s.request.filters) != []
  }

  ghost predicate Scan(limits: Limits, s: World, s': World)
    requires WellFormedWorld(s) && limits.defaultLimit >= 1
  {
    && s.phase.KnowsRange? && s.phase.last < MAX_INT32 && Ordered(s.Stored())
    && match PageOf(limits, s.request, Some(LedgerRange(s.phase.first, s.phase.last)), s.Stored())
       case Err(e) => s' == s.(phase := Failed(e))
       case Ok(page) =>
         && ParseCursor(page.cursor).Ok?
         && var c := ParseCursor(page.cursor).value;
            s' == s.(phase := Idle, request := Follow(s.request, c), received := s.received + page.events,
                     front := Rank(c) + 1, lost := s.lost || Overlooks(s, s.phase.last))
  }

  ghost predicate Next(limits: Limits, s: World, s': World)
    requires limits.defaultLimit >= 1
  {
    WellFormedWorld(s) && (Commit(s, s') || ReadLatest(s, s') || ReadOldest(s, s') || Scan(limits, s, s'))
  }

  // ---- the invariant ----

  ghost predicate Positioned(limits: Limits, s: World) {
    && WellFormedWorld(s) && limits.defaultLimit >= 1 && ValidRequest(s.request, limits.maxLimit)
    && (s.request.endLedger == 0 || s.request.endLedger > StartOf(s.request).ledger)
    && (s.phase.KnowsLatest? ==> s.phase.last <= Latest(s))
    && (s.phase.KnowsRange? ==> s.phase.last <= Latest(s))
    && s.origin <= s.front && Lo(s.request) <= s.front
    && (s.front == Lo(s.request) == s.origin || s.front <= LedgerRank(Latest(s) + 1))
    && (s.front == Lo(s.request) || s.front <= LedgerRank(StartOf(s.request).ledger + 1))
    && NoneBetween(s.Full(), Lo(s.request), s.front)
  }

  ghost predicate Misses(s: World) {
    exists e :: e in s.Due() && e !in s.received
  }

  ghost predicate Accounted(s: World) {
    && (forall e :: e in s.received ==> Rank(e.cursor) < s.front)
    && (!s.lost ==> s.received == s.Due())
    && (s.lost ==> Misses(s))
  }

  ghost predicate Inv(limits: Limits, s: World) { Positioned(limits, s) && Accounted(s) }

  lemma {:induction false} InitInv(limits: Limits, s: World)
    requires Init(limits, s)
    ensures Inv(limits, s)
  {
    StretchEmpty(s.Full(), s.origin, s.front, s.request.filters);
  }

  lemma {:induction false} CommitPositioned(limits: Limits, s: World, s': World)
    requires Positioned(limits, s) && Commit(s, s')
    ensures Positioned(limits, s') && s'.Due() == s.Due()
  {
    var l := s'.history[|s.history|];
    assert s'.history == s.history + [l];
    assert l.sequence == Latest(s) + 1;
    LedgerRankMonotone(Latest(s) + 1, Latest(s') + 1);
    hide Stretch, NoneBetween, EventsOf, Rank, LedgerRank, ValidRequest;
    StretchExtends(s.history, l, s.origin, s.front, s.request.filters);
    NoneBetweenExtends(s.history, l, Lo(s.request), s.front);
  }

  lemma {:induction false} CommitInv(limits: Limits, s: World, s': World)
    requires Inv(limits, s) && Commit(s, s')
    ensures Inv(limits, s')
  {
    CommitPositioned(limits, s, s');
    if s.lost {
      var e :| e in s.Due() && e !in s.received;
      assert e in s'.Due() && e !in s'.received;
    }
  }

  lemma {:induction false} NoneBetweenExtends(ls: seq<Ledger>, l: Ledger, lo: int, hi: int)
    requires ls != [] && Contiguous(ls + [l]) && (hi <= lo || hi <= LedgerRank(l.sequence))
    requires NoneBetween(EventsOf(ls), lo, hi)
    ensures NoneBetween(EventsOf(ls + [l]), lo, hi)
  {
    EventsConcat(ls, [l]);
    SuffixAbove(ls + [l], |ls|);
    assert (ls + [l])[|ls|..] == [l];
  }

  // ---- a scan ----

  lemma {:induction false} StoredOrdered(s: World)
    requires WellFormedWorld(s)
    ensures Ordered(s.Full()) && Ordered(s.Stored()) && Ordered(s.Dropped())
    ensures s.Full() == s.Dropped() + s.Stored()
    ensures forall i :: 0 <= i < |s.Stored()| ==> LedgerRank(Oldest(s)) <= Rank(s.Stored()[i].cursor)
    ensures forall i :: 0 <= i < |s.Dropped()| ==> Rank(s.Dropped()[i].cursor) < LedgerRank(Oldest(s))
  {
    EventsOrdered(s.history);
    PrefixBelow(s.history, s.dropped);
    SuffixAbove(s.history, s.dropped);
    assert s.history == s.history[..s.dropped] + s.history[s.dropped..];
    EventsConcat(s.history[..s.dropped], s.history[s.dropped..]);
  }

  lemma {:induction false} NoneInPart(a: seq<StoredEvent>, b: seq<StoredEvent>, lo: int, hi: int)
    requires NoneBetween(a + b, lo, hi)
    ensures NoneBetween(a, lo, hi) && NoneBetween(b, lo, hi)
  {
    forall i | 0 <= i < |a| ensures !(lo <= Rank(a[i].cursor) < hi) { ConcatIndex(a, b, i); }
    forall i | 0 <= i < |b| ensures !(lo <= Rank(b[i].cursor) < hi) { ConcatIndex(a, b, |a| + i); }
  }

  /** Whatever a page hands out lies past the front. */
  lemma {:induction false} FrontAdvances(limits: Limits, s: World, last: uint32, next: int)
    requires Positioned(limits, s) && InLedgerRange(s.request, LedgerRange(0, last)) && last < MAX_INT32
    requires next == Hi(s.request, last) || Stretch(s.Stored(), Lo(s.request), next, s.request.filters) != []
    ensures s.front <= next
    ensures Stretch(s.Stored(), Lo(s.request), next, s.request.filters)
         == Stretch(s.Stored(), s.front, next, s.request.filters)
  {
    var fs := s.request.filters;
    StoredOrdered(s);
    NoneInPart(s.Dropped(), s.Stored(), Lo(s.request), s.front);
    if next == Hi(s.request, last) {
      EndsAfterStart(s.request, LedgerRange(0, last));
      LedgerRankBounds(StartOf(s.request));
    } else {
      var es := Stretch(s.Stored(), Lo(s.request), next, fs);
      StretchMember(s.Stored(), Lo(s.request), next, fs, es[0]);
    }
    StretchSplit(s.Stored(), Lo(s.request), s.front, next, fs);
    StretchEmpty(s.Stored(), Lo(s.request), s.front, fs);
  }

  lemma {:induction false} ScanOutcome(limits: Limits, s: World, s': World) returns (c: Cursor)
    requires Positioned(limits, s) && Scan(limits, s, s') && !s'.phase.Failed?
    ensures s.phase.KnowsRange? && s.phase.last < MAX_INT32
    ensures InLedgerRange(s.request, LedgerRange(s.phase.first, s.phase.last))
    ensures PageEnd(c) && Rank(c) + 1 <= Hi(s.request, s.phase.last) <= LedgerRank(s.phase.last + 1)
    ensures var events := Stretch(s.Stored(), Lo(s.request), Rank(c) + 1, s.request.filters);
            && s' == s.(phase := Idle, request := Follow(s.request, c), received := s.received + events,
                        front := Rank(c) + 1, lost := s.lost || Overlooks(s, s.phase.last))
            && (s'.front == Hi(s.request, s.phase.last) || events != [])
  {
    hide Rank, String, ParseCursor, NoneBetween, Ordered, EventsOf;
    var range := LedgerRange(s.phase.first, s.phase.last);
    c := PageCursor(limits, s.request, range.last, s.Stored());
    PageStretch(limits, s.request, range, s.Stored());
    ParseString(c);
    LedgerRankMonotone(EndLedgerOf(s.request, range.last), range.last + 1);
    assert PageOf(limits, s.request, Some(range), s.Stored()).value
        == Response(PageEvents(limits, s.request, range.last, s.Stored()), String(c), range.last, range.first);
  }

  lemma {:induction false} FollowValid(r: Request, c: Cursor, maxLimit: nat)
    requires ValidRequest(r, maxLimit) && InRange(c)
    ensures ValidRequest(Follow(r, c), maxLimit)
  {
  }

  lemma {:induction false} PositionedAfter(limits: Limits, s: World, s': World, c: Cursor)
    requires Positioned(limits, s) && PageEnd(c)
    requires s' == s.(phase := Idle, request := Follow(s.request, c), received := s'.received, front := Rank(c) + 1,
                      lost := s'.lost)
    requires s.front <= Rank(c) + 1 <= LedgerRank(Latest(s) + 1)
    ensures Positioned(limits, s')
  {
    EventsOrdered(s.history);
    ResumesAfter(s.request, c, s.Full());
    FollowValid(s.request, c, limits.maxLimit);
  }

  /** What a scan hands out and where it leaves the client, in terms of what is stored. */
  lemma {:induction false} ScanStretch(limits: Limits, s: World, s': World)
    requires Positioned(limits, s) && Scan(limits, s, s') && !s'.phase.Failed?
    ensures Positioned(limits, s')
    ensures s.front <= s'.front <= Hi(s.request, s.phase.last)
    ensures var events := Stretch(s.Stored(), s.front, s'.front, s.request.filters);
            s'.received == s.received + events && (s'.front == Hi(s.request, s.phase.last) || events != [])
    ensures s' == s.(phase := Idle, request := s'.request, received := s'.received, front := s'.front,
                     lost := s.lost || Overlooks(s, s.phase.last))
    ensures s'.request.filters == s.request.filters
  {
    hide Scan, PageOf, Stretch, LedgerRank, Overlooks, Ordered, NoneBetween, EventsOf, Rank, Hi, Lo, Contiguous;
    var c := ScanOutcome(limits, s, s');
    FrontAdvances(limits, s, s.phase.last, Rank(c) + 1);
    LedgerRankMonotone(s.phase.last + 1, Latest(s) + 1);
    PositionedAfter(limits, s, s', c);
  }

  lemma {:induction false} DueGrows(s: World, front: int)
    requires WellFormedWorld(s) && s.origin <= s.front <= front
    ensures Stretch(s.Full(), s.origin, front, s.request.filters)
         == s.Due() + Stretch(s.Dropped(), s.front, front, s.request.filters)
                    + Stretch(s.Stored(), s.front, front, s.request.filters)
  {
    hide Stretch, EventsOf, Ordered, Contiguous, Rank, LedgerRank;
    var fs := s.request.filters;
    StoredOrdered(s);
    StretchSplit(s.Full(), s.origin, s.front, front, fs);
    assert s.history == s.history[..s.dropped] + s.history[s.dropped..];
    StretchConcat(s.history[..s.dropped], s.history[s.dropped..], s.front, front, fs);
    ConcatAssociates(s.Due(), Stretch(s.Dropped(), s.front, front, fs), Stretch(s.Stored(), s.front, front, fs));
  }

  lemma {:induction false} OverlookedEvent(limits: Limits, s: World, last: uint32) returns (e: StoredEvent)
    requires Positioned(limits, s) && Overlooks(s, last)
    ensures e in s.Dropped() && s.front <= Rank(e.cursor) < Hi(s.request, last) && Asked(s.request.filters, e)
  {
    hide Stretch, Ordered, Asked, EventsOf, Rank, LedgerRank, Contiguous, ValidRequest;
    StoredOrdered(s);
    var fs := s.request.filters;
    e := Stretch(s.Dropped(), Lo(s.request), Hi(s.request, last), fs)[0];
    StretchMember(s.Dropped(), Lo(s.request), Hi(s.request, last), fs, e);
    NoneInPart(s.Dropped(), s.Stored(), Lo(s.request), s.front);
  }

  /** Dropped events come before stored ones, and are events of the history. */
  lemma {:induction false} DroppedBefore(s: World, e: StoredEvent)
    requires WellFormedWorld(s) && e in s.Dropped()
    ensures e in s.Full() && forall x :: x in s.Stored() ==> Rank(e.cursor) < Rank(x.cursor)
  {
    hide Ordered, EventsOf, Rank, LedgerRank, Contiguous;
    StoredOrdered(s);
    forall x | x in s.Stored() ensures Rank(e.cursor) < Rank(x.cursor) {
      var i :| 0 <= i < |s.Stored()| && s.Stored()[i] == x;
      var j :| 0 <= j < |s.Dropped()| && s.Dropped()[j] == e;
    }
  }

  /** An overlooked event is due before the new front, and no later page returns to it. */
  lemma {:induction false} OverlookedMissing(limits: Limits, s: World, s': World) returns (e: StoredEvent)
    requires Inv(limits, s) && Scan(limits, s, s') && !s'.phase.Failed? && Overlooks(s, s.phase.last)
    ensures e in s'.Due() && e !in s'.received
  {
    assert s.phase.KnowsRange?;
    hide Scan, Stretch, Ordered, Asked, EventsOf, Rank, LedgerRank, Contiguous, ValidRequest, NoneBetween, Hi;
    ScanStretch(limits, s, s');
    e := OverlookedEvent(limits, s, s.phase.last);
    DroppedBefore(s, e);
    var (fs, events) := (s.request.filters, Stretch(s.Stored(), s.front, s'.front, s.request.filters));
    if events != [] { StretchMember(s.Stored(), s.front, s'.front, fs, events[0]); }
    StretchMember(s.Full(), s.origin, s'.front, fs, e);
    StretchMember(s.Stored(), s.front, s'.front, fs, e);
  }

  lemma {:induction false} ScanRanks(limits: Limits, s: World, s': World)
    requires Inv(limits, s) && Scan(limits, s, s') && !s'.phase.Failed?
    ensures forall e :: e in s'.received ==> Rank(e.cursor) < s'.front
  {
    ScanStretch(limits, s, s');
    var events := Stretch(s.Stored(), s.front, s'.front, s.request.filters);
    forall e | e in s'.received ensures Rank(e.cursor) < s'.front {
      if e !in s.received {
        assert e in events;
        StretchMember(s.Stored(), s.front, s'.front, s.request.filters, e);
      }
    }
  }

  lemma {:induction false} ScanExact(limits: Limits, s: World, s': World)
    requires Inv(limits, s) && Scan(limits, s, s') && !s'.phase.Failed? && !s'.lost
    ensures s'.received == s'.Due()
  {
    ScanStretch(limits, s, s');
    StoredOrdered(s);
    DueGrows(s, s'.front);
    StretchInside(s.Dropped(), Lo(s.request), s.front, s'.front, Hi(s.request, s.phase.last), s.request.filters);
    assert s.Due() + [] == s.Due();
  }

  lemma {:induction false} ScanStillMisses(limits: Limits, s: World, s': World)
    requires Inv(limits, s) && Scan(limits, s, s') && !s'.phase.Failed? && s.lost
    ensures Misses(s')
  {
    ScanStretch(limits, s, s');
    var fs := s.request.filters;
    var e :| e in s.Due() && e !in s.received;
    StretchMember(s.Full(), s.origin, s.front, fs, e);
    StretchMember(s.Full(), s.origin, s'.front, fs, e);
    StretchMember(s.Stored(), s.front, s'.front, fs, e);
    assert e in s'.Due() && e !in s'.received;
  }

  lemma {:induction false} ScanInv(limits: Limits, s: World, s': World)
    requires Inv(limits, s) && Scan(limits, s, s') && !s'.phase.Failed?
    ensures Inv(limits, s')
  {
    ScanStretch(limits, s, s');
    ScanRanks(limits, s, s');
    if !s'.lost {
      ScanExact(limits, s, s');
    } else if s.lost {
      ScanStillMisses(limits, s, s');
    } else {
      var e := OverlookedMissing(limits, s, s');
    }
  }

  lemma {:induction false} PhaseInv(limits: Limits, s: World, phase: Phase)
    requires Inv(limits, s)
    requires phase.KnowsLatest? || phase.KnowsRange? ==> phase.last <= Latest(s)
    ensures Inv(limits, s.(phase := phase))
  {
    var s' := s.(phase := phase);
    assert s'.Due() == s.Due() && s'.Full() == s.Full();
    if s.lost {
      var e :| e in s.Due() && e !in s.received;
      assert e in s'.Due() && e !in s'.received;
    }
  }

  lemma {:induction false} NextInv(limits: Limits, s: World, s': World)
    requires Inv(limits, s) && Next(limits, s, s')
    ensures Inv(limits, s')
  {
    if Commit(s, s') {
      CommitInv(limits, s, s');
    } else if Scan(limits, s, s') && !s'.phase.Failed? {
      ScanInv(limits, s, s');
    } else {
      PhaseInv(limits, s, s'.phase);
    }
  }

  // ---- runs ----

  /** A run, from an initial state to its last one. */
  ghost predicate Run(limits: Limits, run: seq<World>)
    requires limits.defaultLimit >= 1
  {
    if |run| <= 1 then run != [] && Init(limits, run[0])
    else Run(limits, run[..|run| - 1]) && Next(limits, run[|run| - 2], run[|run| - 1])
  }

  function Last(run: seq<World>): World
    requires run != []
  {
    run[|run| - 1]
  }

  lemma {:induction false} RunInv(limits: Limits, run: seq<World>)
    requires limits.defaultLimit >= 1 && Run(limits, run)
    ensures Inv(limits, Last(run))
  {
    hide Inv, Init, Next;
    if |run| == 1 {
      InitInv(limits, run[0]);
    } else {
      RunInv(limits, run[..|run| - 1]);
      NextInv(limits, run[|run| - 2], run[|run| - 1]);
    }
  }

  /**
   However pages and commits interleave, the client has received exactly what it asked for in the whole
   history, from its origin to its front, in order and each event once, if and only if no page so far
   overlooked an event that a commit trimmed under it.
   */
  lemma {:induction false} ReceivedExactly(limits: Limits, run: seq<World>)
    requires limits.defaultLimit >= 1 && Run(limits, run)
    ensures Last(run).received == Last(run).Due() <==> !Last(run).lost
  {
    RunInv(limits, run);
  }

  /** What is due is what the filters match, when the prefilter is lossless. */
  lemma {:induction false} DueIsMatching(s: World, matching: StoredEvent -> bool)
    requires ValidFilters(s.request.filters) && Uniform(s.request.filters)
    requires forall e :: matching(e) <==>
      s.origin <= Rank(e.cursor) < s.front && Matches(s.request.filters, e.event.event)
    ensures s.Due() == Pick(s.Full(), matching)
  {
    PrefilterLossless(s.request.filters);
    PickAgree(s.Full(), Window(s.origin, s.front, s.request.filters), matching);
  }

  /** A page overlooks nothing as long as the ledger it starts from is still stored when it scans. */
  lemma {:induction false} StoredStartOverlooksNothing(s: World, last: uint32)
    requires WellFormedWorld(s) && Oldest(s) <= StartOf(s.request).ledger <= last < MAX_INT32
    ensures !Overlooks(s, last)
  {
    StoredOrdered(s);
    EndsAfterStart(s.request, LedgerRange(0, last));
    LedgerRankBounds(StartOf(s.request));
    LedgerRankMonotone(Oldest(s), StartOf(s.request).ledger);
    StretchEmpty(s.Dropped(), Lo(s.request), Hi(s.request, last), s.request.filters);
  }

  /** Commits only. */
  ghost predicate Commits(ws: seq<World>) {
    ws != [] && (|ws| > 1 ==> Commits(ws[..|ws| - 1]) && Commit(ws[|ws| - 2], ws[|ws| - 1]))
  }

  lemma {:induction false} CommitsKeepClient(limits: Limits, ws: seq<World>)
    requires Commits(ws) && Inv(limits, ws[0])
    ensures Inv(limits, ws[|ws| - 1])
    ensures var (s, s') := (ws[0], ws[|ws| - 1]);
            s'.phase == s.phase && s'.request == s.request && s'.received == s.received
  {
    hide Inv;
    if |ws| > 1 {
      CommitsKeepClient(limits, ws[..|ws| - 1]);
      CommitInv(limits, ws[|ws| - 2], ws[|ws| - 1]);
    }
  }

  /**
   A page whose start ledger has been trimmed when it reads the oldest one is refused at its scan, whatever is
   committed in between; it hands out nothing.
   */
  lemma {:induction false} TrimmedStartRefused(limits: Limits, run: seq<World>, ws: seq<World>, s': World)
    requires limits.defaultLimit >= 1 && Run(limits, run) && Commits(ws) && WellFormedWorld(Last(run))
    requires Oldest(Last(run)) > StartOf(Last(run).request).ledger && ReadOldest(Last(run), ws[0])
    requires WellFormedWorld(ws[|ws| - 1]) && Scan(limits, ws[|ws| - 1], s')
    ensures s'.phase == Failed(InvalidRequest) && s'.received == Last(run).received
  {
    hide Inv, EventsOf, Ordered, PageEvents, PageCursor, Contiguous, Overlooks;
    RunInv(limits, run);
    LatestKept(limits, Last(run));
    PhaseInv(limits, Last(run), ws[0].phase);
    CommitsKeepClient(limits, ws);
  }

  lemma {:induction false} LatestKept(limits: Limits, s: World)
    requires Inv(limits, s)
    ensures WellFormedWorld(s) && (s.phase.KnowsLatest? || s.phase.KnowsRange? ==> s.phase.last <= Latest(s))
    ensures ValidRequest(s.request, limits.maxLimit)
  {
    hide Accounted, NoneBetween, Contiguous, ValidRequest;
  }

  /** Every scan that succeeds finds its start ledger still stored. */
  ghost predicate StartsStayStored(limits: Limits, run: seq<World>)
    requires limits.defaultLimit >= 1 && Run(limits, run)
  {
    |run| >= 2 ==>
      var (s, s') := (run[|run| - 2], run[|run| - 1]);
      && StartsStayStored(limits, run[..|run| - 1])
      && (Scan(limits, s, s') && !s'.phase.Failed? ==> Oldest(s) <= StartOf(s.request).ledger)
  }

  lemma {:induction false} NextNotLost(limits: Limits, s: World, s': World)
    requires Inv(limits, s) && Next(limits, s, s') && !s.lost
    requires Scan(limits, s, s') && !s'.phase.Failed? ==> Oldest(s) <= StartOf(s.request).ledger
    ensures !s'.lost
  {
    if Scan(limits, s, s') && !s'.phase.Failed? {
      var c := ScanOutcome(limits, s, s');
      StoredStartOverlooksNothing(s, s.phase.last);
    }
  }

  lemma {:induction false} NeverLost(limits: Limits, run: seq<World>)
    requires limits.defaultLimit >= 1 && Run(limits, run) && StartsStayStored(limits, run)
    ensures !Last(run).lost
  {
    if |run| >= 2 {
      var before := run[..|run| - 1];
      NeverLost(limits, before);
      RunInv(limits, before);
      assert Last(before) == run[|run| - 2];
      NextNotLost(limits, run[|run| - 2], run[|run| - 1]);
    }
  }

  /** The exact reading of the contract clients rely on: as long as starts stay stored, nothing is skipped. */
  lemma {:induction false} NothingSkipped(limits: Limits, run: seq<World>)
    requires limits.defaultLimit >= 1 && Run(limits, run) && StartsStayStored(limits, run)
    ensures Last(run).received == Last(run).Due()
  {
    NeverLost(limits, run);
    ReceivedExactly(limits, run);
  }

  // ---- the race between the range check and the scan ----

  /** Two ledgers, the older with one event. */
  function RaceHistory(): seq<Ledger> {
    var event := DiagnosticEvent(true, ContractEvent(None, Contract, [], []));
    var tx := Transaction([1], None, true, TransactionEvents([event], [], []), 100, Classic(1));
    [Ledger(2, 0, [tx]), Ledger(3, 5, [])]
  }

  /** A client asks from ledger 2 and passes the range check; ledger 2 is trimmed before the scan. */
  function RaceRun(): seq<World> {
    var r := Request(2, 0, [], None, "");
    var s0 := World(RaceHistory()[..1], 0, Idle, r, [], Lo(r), Lo(r), false);
    var s1 := s0.(phase := KnowsLatest(2));
    var s2 := s1.(phase := KnowsRange(2, 2));
    var s3 := s2.(history := RaceHistory(), dropped := 1);
    var c := MAX_CURSOR.(ledger := 2);
    [s0, s1, s2, s3, s3.(phase := Idle, request := Follow(r, c), front := Rank(c) + 1, lost := true)]
  }

  lemma {:induction false} RaceEvents()
    ensures Contiguous(RaceHistory()) && Contiguous(RaceHistory()[..1])
    ensures EventsOf(RaceHistory()[1..]) == []
    ensures EventsOf(RaceHistory()[..1]) == EventsOf(RaceHistory()) == EventsOfTx(RaceHistory()[0], 0)
    ensures |EventsOf(RaceHistory())| == 1 && EventsOf(RaceHistory())[0].cursor == Cursor(2, 1, 0, 0)
  {
    var (l, m) := (RaceHistory()[0], RaceHistory()[1]);
    var events := IntoDiagnosticEvents(l.txs[0].events);
    assert |events| == 1;
    assert EventsOfTxs(l, 1) == EventsOfTxs(l, 0) + EventsOfTx(l, 0);
    assert EventsOf([l]) == EventsOfLedger(l) + EventsOf([l][1..]);
    assert EventsOf([m]) == EventsOfLedger(m) + EventsOf([m][1..]);
    assert RaceHistory()[1..] == [m] && RaceHistory()[..1] == [l];
    assert EventsOf(RaceHistory()) == EventsOfLedger(l) + EventsOf(RaceHistory()[1..]);
  }

  /** A scan that finds nothing stored moves the client to the end of its window. */
  lemma {:induction false} EmptyScan(limits: Limits, s: World, s': World)
    requires limits.defaultLimit >= 1 && WellFormedWorld(s) && s.Stored() == [] && s.phase.KnowsRange?
    requires ValidRequest(s.request, limits.maxLimit) && s.phase.last < MAX_INT32
    requires InLedgerRange(s.request, LedgerRange(s.phase.first, s.phase.last))
    requires var c := MAX_CURSOR.(ledger := EndLedgerOf(s.request, s.phase.last) - 1);
             s' == s.(phase := Idle, request := Follow(s.request, c), front := Rank(c) + 1,
                      lost := s.lost || Overlooks(s, s.phase.last))
    ensures Scan(limits, s, s')
  {
    hide Rank, String, ParseCursor, EventsOf, Stretch;
    var range := LedgerRange(s.phase.first, s.phase.last);
    var c := MAX_CURSOR.(ledger := EndLedgerOf(s.request, range.last) - 1);
    EndsAfterStart(s.request, range);
    ParseString(c);
    var page := PageOf(limits, s.request, Some(range), []);
    assert PageEvents(limits, s.request, range.last, []) == [];
    assert page == Ok(Response([], String(c), range.last, range.first));
    assert s.received + [] == s.received;
  }

  lemma {:induction false} RaceOverlooks()
    ensures var (s, s') := (RaceRun()[3], RaceRun()[4]);
            WellFormedWorld(s) && Overlooks(s, 2) && s'.Due() != []
  {
    RaceEvents();
    var (s, s') := (RaceRun()[3], RaceRun()[4]);
    var e := EventsOf(RaceHistory())[0];
    assert Hi(s.request, 2) == LedgerRank(3) && Lo(s.request) <= Rank(e.cursor) < LedgerRank(3);
    LedgerEndRank(MAX_CURSOR.(ledger := 2));
    assert Asked([], e);
    StretchMember(s.Dropped(), Lo(s.request), Hi(s.request, 2), [], e);
    StretchMember(s'.Full(), s'.origin, s'.front, [], e);
  }

  lemma {:induction false} RaceSteps(limits: Limits)
    requires limits.defaultLimit >= 1
    ensures var run := RaceRun();
            Init(limits, run[0]) && Next(limits, run[0], run[1]) && Next(limits, run[1], run[2])
            && Next(limits, run[2], run[3])
  {
    RaceEvents();
    var run := RaceRun();
    assert ReadLatest(run[0], run[1]);
    assert ReadOldest(run[1], run[2]);
    assert Commit(run[2], run[3]);
  }

  lemma {:induction false} RaceScan(limits: Limits)
    requires limits.defaultLimit >= 1
    ensures Next(limits, RaceRun()[3], RaceRun()[4])
  {
    hide EventsOf, Rank, Stretch, Commit, ReadLatest, ReadOldest, RaceHistory;
    RaceEvents();
    RaceOverlooks();
    EmptyScan(limits, RaceRun()[3], RaceRun()[4]);
  }

  /** The handler can skip an event that was stored when it accepted the page. */
  lemma {:induction false} RaceSkips(limits: Limits)
    requires limits.defaultLimit >= 1
    ensures Run(limits, RaceRun())
    ensures Last(RaceRun()).received == [] && Last(RaceRun()).Due() != []
  {
    RaceScan(limits);
    RaceOverlooks();
    RaceSteps(limits);
    var run := RaceRun();
    RunOfFive(limits, run[0], run[1], run[2], run[3], run[4]);
    hide Init, Next, Run;
    assert run == [run[0], run[1], run[2], run[3], run[4]];
  }

  lemma {:induction false} RunOfFive(limits: Limits, a: World, b: World, c: World, d: World, e: World)
    requires limits.defaultLimit >= 1 && Init(limits, a)
    requires Next(limits, a, b) && Next(limits, b, c) && Next(limits, c, d) && Next(limits, d, e)
    ensures Run(limits, [a, b, c, d, e])
  {
    hide Init, Next;
    assert [a, b, c, d, e][..4] == [a, b, c, d] && [a, b, c, d][..3] == [a, b, c];
    assert [a, b, c][..2] == [a, b] && [a, b][..1] == [a];
    assert Run(limits, [a]);
    assert Run(limits, [a, b]);
    assert Run(limits, [a, b, c]);
    assert Run(limits, [a, b, c, d]);
  }
}
