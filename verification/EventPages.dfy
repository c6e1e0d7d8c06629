/** One page of getEvents (cmd/stellar-rpc/internal/methods/get_events.go). */
module EventPages {
  import opened UInt32
  import opened Wrappers
  import opened Cursors
  import opened Sequences
  import opened Chain
  import opened EventFilters
  import opened EventPrefilter
  import opened EventStore

  const LEDGER_SCAN_LIMIT := 10000
  datatype Pagination = Pagination(cursor: Option<Cursor>, limit: nat)

  datatype Request = Request(
    startLedger: uint32, endLedger: uint32, filters: seq<EventFilter>, pagination: Option<Pagination>, format: string)

  datatype Limits = Limits(maxLimit: nat, defaultLimit: nat)

  datatype LedgerRange = LedgerRange(first: uint32, last: uint32)

  datatype RpcError = InvalidParams | InvalidRequest | InternalError

  datatype Response = Response(events: seq<StoredEvent>, cursor: string, latestLedger: nat, oldestLedger: nat)

  predicate HasCursor(r: Request) { r.pagination.Some? && r.pagination.value.cursor.Some? }

  /** A request as JSON decoding leaves it: its cursor came out of ParseCursor. */
  predicate Decoded(r: Request) { HasCursor(r) ==> InRange(r.pagination.value.cursor.value) }

  predicate ValidFormat(format: string) { format in {"", "json", "base64"} }

  predicate ValidRequest(r: Request, maxLimit: nat) {
    && ValidFormat(r.format)
    && (if HasCursor(r) then r.startLedger == 0 && r.endLedger == 0 else r.startLedger > 0)
    && (r.pagination.Some? ==> r.pagination.value.limit <= maxLimit)
    && ValidFilters(r.filters)
  }

  /** Paging resumes with the event index after the cursor's, which wraps around at 32 bits. */
  function StartOf(r: Request): (c: Cursor)
    requires Decoded(r)
  {
    if HasCursor(r) then
      var c := r.pagination.value.cursor.value;
      c.(event := Add32(c.event, 1))
    else Cursor(r.startLedger, 0, 0, 0)
  }

  function LimitOf(limits: Limits, r: Request): nat {
    if r.pagination.Some? && r.pagination.value.limit > 0 then r.pagination.value.limit else limits.defaultLimit
  }

  /** The exclusive end of the scan, in uint32 arithmetic. */
  function EndLedgerOf(r: Request, last: uint32): uint32
    requires Decoded(r)
  {
    var end := Min(Add32(last, 1), Add32(StartOf(r).ledger, LEDGER_SCAN_LIMIT));
    if r.endLedger != 0 then Min(r.endLedger, end) else end
  }

  function WindowOf(r: Request, last: uint32): StoredEvent -> bool
    requires Decoded(r)
  {
    Window(Rank(StartOf(r)), Rank(Cursor(EndLedgerOf(r, last), 0, 0, 0)), r.filters)
  }

  /** The events of a page: the first ones of its window, over the stored events. */
  function PageEvents(limits: Limits, r: Request, last: uint32, es: seq<StoredEvent>): seq<StoredEvent>
    requires Decoded(r)
  {
    FirstN(LimitOf(limits, r), Pick(es, WindowOf(r, last)))
  }

  /** Where the page ends: its last event when it is full, otherwise the end of its window. */
  function PageCursor(limits: Limits, r: Request, last: uint32, es: seq<StoredEvent>): Cursor
    requires Decoded(r) && limits.defaultLimit >= 1 && EndLedgerOf(r, last) >= 1
  {
    var events := PageEvents(limits, r, last, es);
    if |events| == LimitOf(limits, r) then events[|events| - 1].cursor
    else MAX_CURSOR.(ledger := EndLedgerOf(r, last) - 1)
  }

  predicate InLedgerRange(r: Request, range: LedgerRange)
    requires Decoded(r)
  {
    range.first <= StartOf(r).ledger <= range.last
  }

  lemma {:induction false} EndsAfterStart(r: Request, range: LedgerRange)
    requires Decoded(r) && InLedgerRange(r, range) && range.last < MAX_INT32
    ensures 1 <= EndLedgerOf(r, range.last) <= range.last + 1
    ensures r.endLedger == 0 || r.endLedger > StartOf(r).ledger ==> StartOf(r).ledger < EndLedgerOf(r, range.last)
    ensures InRange(StartOf(r))
  {
  }

  lemma {:induction false} PageOrdered(limits: Limits, r: Request, last: uint32, es: seq<StoredEvent>)
    requires Decoded(r) && Ordered(es) && limits.defaultLimit >= 1
    requires 1 <= EndLedgerOf(r, last) <= MAX_INT32
    ensures Ordered(PageEvents(limits, r, last, es))
    ensures InRange(PageCursor(limits, r, last, es))
  {
    PickOrdered(es, WindowOf(r, last));
  }

  /** What getEvents answers, as a function of the ledger range it saw and the events stored when it scanned. */
  function PageOf(limits: Limits, r: Request, range: Option<LedgerRange>,
      es: seq<StoredEvent>): Result<Response, RpcError>
    requires Decoded(r) && limits.defaultLimit >= 1 && Ordered(es)
    requires range.Some? ==> range.value.last < MAX_INT32
  {
    if !ValidRequest(r, limits.maxLimit) then Err(InvalidParams)
    else if range.None? then Err(InternalError)
    else if !InLedgerRange(r, range.value) then Err(InvalidRequest)
    else
      var last := range.value.last;
      EndsAfterStart(r, range.value);
      PageOrdered(limits, r, last, es);
      Ok(Response(PageEvents(limits, r, last, es), String(PageCursor(limits, r, last, es)), last, range.value.first))
  }

  lemma {:induction false} FoundPrefix(found: seq<StoredEvent>, rest: seq<StoredEvent>, p: StoredEvent -> bool)
    requires rest != []
    ensures found + Pick(rest, p) == (if p(rest[0]) then found + [rest[0]] else found) + Pick(rest[1..], p)
  {
  }

  /** The keys of the prefiltered rows between two cursors. */
  method QueryRange(table: EventTable, start: Cursor, end: Cursor, fs: seq<EventFilter>, ghost es: seq<StoredEvent>)
    returns (keys: seq<string>)
    requires InRange(start) && InRange(end) && ValidFilters(fs)
    requires Ordered(es) && Holds(table, es)
    ensures Ordered(Pick(es, Prefiltered(Rank(start), Rank(end), fs)))
    ensures keys == Keys(Pick(es, Prefiltered(Rank(start), Rank(end), fs)))
  {
    var p := GatherPrefilter(fs);
    keys := QueryIds(table, String(start), String(end), p);
    QueryAnswers(table, es, start, end, fs, p, keys);
  }

  /** A row read back is the event it was written for. */
  function ReadRow(key: string, row: EventRow): Option<StoredEvent> {
    match ParseCursor(key)
    case Ok(cursor) => Some(StoredEvent(cursor, row.data, row.closeTime, row.txHash))
    case Err(_) => None
  }

  lemma {:induction false} RowReadBack(table: EventTable, es: seq<StoredEvent>, rows: seq<StoredEvent>, i: nat)
    requires Holds(table, es) && Ordered(rows) && i < |rows| && rows[i] in es
    ensures Keys(rows)[i] in table && ReadRow(Keys(rows)[i], table[Keys(rows)[i]]) == Some(rows[i])
  {
    ParseString(rows[i].cursor);
  }

  /** The scan over the answer: re-check every row until the page is full. */
  method ScanRows(table: EventTable, keys: seq<string>, fs: seq<EventFilter>, limit: nat,
                  ghost es: seq<StoredEvent>, ghost rows: seq<StoredEvent>)
    returns (found: seq<StoredEvent>)
    requires ValidFilters(fs) && limit >= 1
    requires Holds(table, es) && Ordered(rows) && keys == Keys(rows)
    requires forall i :: 0 <= i < |rows| ==> rows[i] in es
    ensures found == FirstN(limit, Pick(rows, Matched(fs)))
  {
    hide Ordered, Holds, Matches;
    found := [];
    for i := 0 to |keys|
      invariant |found| < limit
      invariant found + Pick(rows[i..], Matched(fs)) == Pick(rows, Matched(fs))
    {
      RowReadBack(table, es, rows, i);
      hide ReadRow;
      var event := ReadRow(keys[i], table[keys[i]]).value;
      FoundPrefix(found, rows[i..], Matched(fs));
      assert rows[i..][1..] == rows[i + 1..];
      if Matches(fs, event.event.event) { found := found + [event]; }
      if |found| >= limit { return; }
    }
  }

  method ScanEvents(table: EventTable, start: Cursor, end: Cursor, fs: seq<EventFilter>, limit: nat,
                    ghost es: seq<StoredEvent>)
    returns (found: seq<StoredEvent>)
    requires InRange(start) && InRange(end) && ValidFilters(fs) && limit >= 1
    requires Ordered(es) && Holds(table, es)
    ensures found == FirstN(limit, Pick(es, Window(Rank(start), Rank(end), fs)))
  {
    ghost var stage := Prefiltered(Rank(start), Rank(end), fs);
    ghost var rows := Pick(es, stage);
    var keys := QueryRange(table, start, end, fs, es);
    forall i | 0 <= i < |rows| ensures rows[i] in es { PickMembers(es, stage, rows[i]); }
    found := ScanRows(table, keys, fs, limit, es, rows);
    PickTwice(es, stage, Matched(fs), Window(Rank(start), Rank(end), fs));
  }

  /** The bounds of the scan, with the index and ledger arithmetic wrapping at 32 bits. */
  method ScanBounds(r: Request, last: uint32) returns (start: Cursor, endLedger: nat)
    requires Decoded(r)
    ensures start == StartOf(r) && endLedger == EndLedgerOf(r, last)
  {
    start := Cursor(r.startLedger, 0, 0, 0);
    if HasCursor(r) {
      start := r.pagination.value.cursor.value;
      start := start.(event := Add32(start.event, 1));
    }
    endLedger := Add32(start.ledger, LEDGER_SCAN_LIMIT);
    endLedger := Min(Add32(last, 1), endLedger);
    if r.endLedger != 0 { endLedger := Min(r.endLedger, endLedger); }
  }

  /** The handler. */
  method GetEvents(limits: Limits, r: Request, range: Option<LedgerRange>, table: EventTable,
      ghost es: seq<StoredEvent>)
    returns (res: Result<Response, RpcError>)
    requires Decoded(r) && limits.defaultLimit >= 1
    requires range.Some? ==> range.value.last < MAX_INT32
    requires Ordered(es) && Holds(table, es)
    ensures res == PageOf(limits, r, range, es)
  {
    hide Ordered, Holds, String, Rank, ValidFilters;
    if !ValidRequest(r, limits.maxLimit) { return Err(InvalidParams); }
    if range.None? { return Err(InternalError); }
    var limit := LimitOf(limits, r);
    var start, endLedger := ScanBounds(r, range.value.last);
    if start.ledger < range.value.first || start.ledger > range.value.last { return Err(InvalidRequest); }
    EndsAfterStart(r, range.value);
    PageOrdered(limits, r, range.value.last, es);
    var found := ScanEvents(table, start, Cursor(endLedger, 0, 0, 0), r.filters, limit, es);
    var cursor := if |found| == limit then found[|found| - 1].cursor else MAX_CURSOR.(ledger := endLedger - 1);
    return Ok(Response(found, String(cursor), range.value.last, range.value.first));
  }
}
