/**
 getLedgers (cmd/stellar-rpc/internal/methods/get_ledgers.go, cmd/stellar-rpc/internal/rpcdatastore/ledger_reader.go):
 a page of ledgers, from the local database, from the datastore, or from both.
 */
module LedgerPages {
  import opened UInt32
  import opened Wrappers
  import opened DecimalText
  import opened Cursors
  import opened Sequences
  import opened Chain
  import opened Tables
  import opened Retention
  import opened Storage
  import opened EventPages
  import opened LedgerRequests

  /** The datastore, when one is configured: a ledger or an error for each sequence number. */
  type Datastore = nat -> Option<Ledger>

  datatype LedgersPage = LedgersPage(ledgers: seq<Ledger>, cursor: string, latestLedger: nat, oldestLedger: nat)

  /** The range of ledgers a request may start in. */
  function Available(local: LedgerRange, remote: Option<Datastore>): LedgerRange {
    if remote.Some? then LedgerRange(Min(FIRST_LEDGER, local.first), local.last) else local
  }

  function FirstAsked(r: PagedRequest, range: LedgerRange): Result<uint32, RpcError> {
    if !Resumes(r) then Ok(r.startLedger)
    else match ParseUint(r.paging.value.cursor, UINT32_SIZE)
      case None => Err(InvalidParams)
      case Some(c) => if IsLedgerWithinRange(Add32(c, 1), range) then Ok(Add32(c, 1)) else Err(InvalidParams)
  }

  /** The ledgers of the network from one sequence number up to another. */
  function Closed(network: nat -> Ledger, first: nat, last: int): (ls: seq<Ledger>)
    ensures |ls| == if first <= last then last - first + 1 else 0
    ensures forall i :: 0 <= i < |ls| ==> ls[i] == network(first + i)
  {
    seq(if first <= last then last - first + 1 else 0, i requires 0 <= i => network(first + i))
  }

  lemma {:induction false} ClosedSplit(network: nat -> Ledger, first: nat, middle: nat, last: int)
    requires first <= middle && middle - 1 <= last
    ensures Closed(network, first, last) == Closed(network, first, middle - 1) + Closed(network, middle, last)
  {
  }

  /** The network closes one ledger per sequence number; the database holds some of the newest ones. */
  ghost predicate Agrees(network: nat -> Ledger, stored: seq<Ledger>, remote: Option<Datastore>) {
    && Contiguous(stored) && (forall s :: network(s).sequence == s)
    && (forall i :: 0 <= i < |stored| ==> stored[i] == network(stored[0].sequence + i))
    && (remote.Some? ==> forall s :: remote.value(s).Some? ==> remote.value(s).value == network(s))
  }

  /** Every ledger of a stretch can be fetched from the datastore. */
  ghost predicate Reachable(remote: Option<Datastore>, first: nat, last: int) {
    remote.Some? && forall s :: first <= s <= last ==> remote.value(s).Some?
  }

  /** BatchGetLedgers, with rows in sequence order. */
  method BatchGetLedgers(ledgers: LedgerTable, start: nat, end: nat) returns (r: Option<seq<Ledger>>)
    ensures r == if start > end then None else Some(Rows(ledgers, start, end))
  {
    if start > end { return None; }
    return Some(Rows(ledgers, start, end));
  }

  /** The datastore's loop: all of the range, or an error. */
  method GetRemote(remote: Datastore, start: nat, end: nat, ghost network: nat -> Ledger)
      returns (r: Option<seq<Ledger>>)
    requires start <= end + 1 && forall s :: remote(s).Some? ==> remote(s).value == network(s)
    ensures r.Some? <==> forall s :: start <= s <= end ==> remote(s).Some?
    ensures r.Some? ==> r.value == Closed(network, start, end)
  {
    var ledgers: seq<Ledger> := [];
    var sequence := start;
    while sequence <= end
      invariant start <= sequence <= end + 1
      invariant ledgers == Closed(network, start, sequence - 1)
      invariant forall s :: start <= s < sequence ==> remote(s).Some?
    {
      if remote(sequence).None? { return None; }
      ledgers := ledgers + [remote(sequence).value];
      sequence := sequence + 1;
    }
    return Some(ledgers);
  }

  lemma {:induction false} ClosedSlice(network: nat -> Ledger, stored: seq<Ledger>, remote: Option<Datastore>,
      a: nat, b: nat)
    requires Agrees(network, stored, remote) && stored != [] && a <= b <= |stored|
    ensures stored[a..b] == Closed(network, stored[0].sequence + a, stored[0].sequence + b - 1)
  {
  }

  /** The indices between which the stored ledgers of a range lie. */
  lemma {:induction false} RangeIndices(stored: seq<Ledger>, start: nat, end: nat)
    requires Contiguous(stored) && stored != []
    requires stored[0].sequence <= start <= stored[|stored| - 1].sequence && start <= end
    ensures var (first, last) := (stored[0].sequence, stored[|stored| - 1].sequence);
            && start >= 1 && last == first + |stored| - 1
            && Before(stored, start) == start - first && Before(stored, end + 1) == Min(end, last) + 1 - first
  {
  }

  /** What the database answers is a stretch of the network that ends with the latest stored ledger. */
  lemma {:induction false} LocalStretch(network: nat -> Ledger, t: LedgerTable, stored: seq<Ledger>,
      remote: Option<Datastore>, start: nat, end: nat)
    requires Agrees(network, stored, remote) && LedgersHold(t, stored) && stored != []
    requires stored[0].sequence <= start <= stored[|stored| - 1].sequence && start <= end
    ensures Rows(t, start, end) == Closed(network, start, Min(end, stored[|stored| - 1].sequence))
  {
    hide LedgersHold, Rows, Contiguous, Between, Before, Agrees, Closed, Min;
    LocalBounds(network, stored, remote);
    MinIs(Before(stored, start), Before(stored, end + 1));
    MinIs(end, stored[|stored| - 1].sequence);
    RangeIndices(stored, start, end);
    RowsBetween(t, stored, start, end);
    BetweenSlice(stored, start, end);
    ClosedSlice(network, stored, remote, Before(stored, start), Before(stored, end + 1));
  }

  lemma {:induction false} LocalBounds(network: nat -> Ledger, stored: seq<Ledger>, remote: Option<Datastore>)
    requires Agrees(network, stored, remote) && stored != []
    ensures Contiguous(stored) && FIRST_LEDGER <= stored[0].sequence <= stored[|stored| - 1].sequence < MAX_INT32
    ensures forall s :: network(s).sequence == s
    ensures remote.Some? ==> forall s :: remote.value(s).Some? ==> remote.value(s).value == network(s)
  {
  }

  predicate StartsLocally(start: nat, local: LedgerRange) { start >= local.first }

  /** The part of the page that only the datastore has. */
  function RemoteEnd(end: nat, local: LedgerRange): int { Min(end, local.first - 1) }

  method FetchLedgers(t: LedgerTable, remote: Option<Datastore>, start: nat, end: nat, local: LedgerRange,
                      ghost stored: seq<Ledger>, ghost network: nat -> Ledger)
    returns (r: Result<seq<Ledger>, RpcError>)
    requires Agrees(network, stored, remote) && LedgersHold(t, stored) && stored != []
    requires local == LedgerRange(stored[0].sequence, stored[|stored| - 1].sequence)
    requires 1 <= start <= local.last && start <= end
    ensures r.Ok? <==> StartsLocally(start, local) || Reachable(remote, start, RemoteEnd(end, local))
    ensures r.Ok? ==> r.value == Closed(network, start, Min(end, local.last))
    ensures r.Err? ==> r.error == if remote.None? then InvalidParams else InternalError
  {
    LocalBounds(network, stored, remote);
    var limit := end - start + 1;
    var ledgers: seq<Ledger> := [];
    hide LedgersHold, Agrees, Contiguous, Rows;
    if start >= local.first {
      var rows := BatchGetLedgers(t, start, end);
      LocalStretch(network, t, stored, remote, start, end);
      ledgers := rows.value;
    } else if end < local.first {
      if remote.None? { return Err(InvalidParams); }
      var fetched := GetRemote(remote.value, start, end, network);
      if fetched.None? { return Err(InternalError); }
      ledgers := fetched.value;
    } else {
      if remote.None? { return Err(InvalidParams); }
      var fetched := GetRemote(remote.value, start, local.first - 1, network);
      if fetched.None? { return Err(InternalError); }
      var rows := BatchGetLedgers(t, local.first, end);
      LocalStretch(network, t, stored, remote, local.first, end);
      ClosedSplit(network, start, local.first, Min(end, local.last));
      ledgers := fetched.value + rows.value;
    }
    var result := FirstN(limit, ledgers);
    return Ok(result);
  }

  /** A page limit is positive and leaves the ledger arithmetic within 32 bits. */
  predicate SoundLimits(limits: Limits) { 1 <= limits.defaultLimit <= MAX_INT32 && limits.maxLimit <= MAX_INT32 }

  /** What getLedgers answers: the ledgers asked for that the network has closed. */
  ghost function LedgersPageOf(network: nat -> Ledger, limits: Limits, r: PagedRequest, local: Option<LedgerRange>,
                        remote: Option<Datastore>): Result<LedgersPage, RpcError>
    requires SoundLimits(limits)
  {
    if local.None? then Err(InternalError)
    else
      var range := Available(local.value, remote);
      if !(ValidatePagination(r, limits.maxLimit, range) && ValidFormat(r.format)) then Err(InvalidRequest)
      else match FirstAsked(r, range)
        case Err(e) => Err(e)
        case Ok(start) =>
          var end := start + PageLimit(r, limits.defaultLimit) - 1;
          if !(StartsLocally(start, local.value) || Reachable(remote, start, RemoteEnd(end, local.value)))
          then Err(if remote.None? then InvalidParams else InternalError)
          else
            var last := Min(end, local.value.last);
            Ok(LedgersPage(Closed(network, start, last), Itoa(last), local.value.last, local.value.first))
  }

  /** Accepted requests start in the range, and their end does not wrap around. */
  lemma {:induction false} StartBounds(limits: Limits, r: PagedRequest, range: LedgerRange)
    requires SoundLimits(limits) && range.first >= 1 && range.last < MAX_INT32
    requires ValidatePagination(r, limits.maxLimit, range) && FirstAsked(r, range).Ok?
    ensures range.first <= FirstAsked(r, range).value <= range.last
    ensures 1 <= PageLimit(r, limits.defaultLimit) <= MAX_INT32
    ensures Add32(FirstAsked(r, range).value, PageLimit(r, limits.defaultLimit))
         == FirstAsked(r, range).value + PageLimit(r, limits.defaultLimit)
  {
    hide ParseUint;
  }

  /** The handler. */
  method GetLedgers(limits: Limits, r: PagedRequest, local: Option<LedgerRange>, t: LedgerTable,
      remote: Option<Datastore>, ghost stored: seq<Ledger>, ghost network: nat -> Ledger)
    returns (res: Result<LedgersPage, RpcError>)
    requires SoundLimits(limits) && Agrees(network, stored, remote) && LedgersHold(t, stored)
    requires stored == [] <==> local.None?
    requires local.Some? ==> local.value == LedgerRange(stored[0].sequence, stored[|stored| - 1].sequence)
    ensures res == LedgersPageOf(network, limits, r, local, remote)
  {
    if stored != [] { LocalBounds(network, stored, remote); }
    hide Agrees, LedgersHold, Reachable, Itoa, Value, AllDigits;
    if local.None? { return Err(InternalError); }
    var range := local.value;
    if remote.Some? { range := LedgerRange(Min(FIRST_LEDGER, range.first), range.last); }
    if !(ValidatePagination(r, limits.maxLimit, range) && ValidFormat(r.format)) { return Err(InvalidRequest); }
    var start := FirstAsked(r, range);
    if start.Err? { return Err(start.error); }
    StartBounds(limits, r, range);
    var limit := PageLimit(r, limits.defaultLimit);
    hide ValidatePagination, FirstAsked, PageLimit, Add32;
    var end := Add32(start.value, limit) - 1;
    var fetched := FetchLedgers(t, remote, start.value, end, local.value, stored, network);
    if fetched.Err? { return Err(fetched.error); }
    var ledgers := fetched.value;
    return Ok(LedgersPage(ledgers, Itoa(ledgers[|ledgers| - 1].sequence), local.value.last, local.value.first));
  }

  // ---- following cursors ----

  /** Where a request starts, once it is accepted. */
  ghost predicate StartsAt(limits: Limits, r: PagedRequest, local: LedgerRange, remote: Option<Datastore>, start: nat) {
    && ValidatePagination(r, limits.maxLimit, Available(local, remote)) && ValidFormat(r.format)
    && FirstAsked(r, Available(local, remote)) == Ok(start)
  }

  /** A page is never empty, has no gap, and its cursor is its last ledger. */
  lemma {:induction false} PageIsStretch(network: nat -> Ledger, limits: Limits, r: PagedRequest, local: LedgerRange,
                                         remote: Option<Datastore>)
    returns (start: nat, last: nat)
    requires SoundLimits(limits) && FIRST_LEDGER <= local.first <= local.last < MAX_INT32
    requires LedgersPageOf(network, limits, r, Some(local), remote).Ok?
    ensures StartsAt(limits, r, local, remote, start)
    ensures start <= last <= local.last
    ensures last == Min(start + PageLimit(r, limits.defaultLimit) - 1, local.last)
    ensures LedgersPageOf(network, limits, r, Some(local), remote)
         == Ok(LedgersPage(Closed(network, start, last), Itoa(last), local.last, local.first))
  {
    var range := Available(local, remote);
    hide ParseUint, Reachable;
    start := FirstAsked(r, range).value;
    StartBounds(limits, r, range);
    last := Min(start + PageLimit(r, limits.defaultLimit) - 1, local.last);
  }

  /**
   A request without a cursor: it is accepted if and only if it is valid, starts in the database's range or, with a
   datastore, from ledger 2 on, and the datastore has what the database has not; and the page
     then begins with the ledger
   that was asked for and has as many as were asked for, or all up to the latest.
   */
  lemma {:induction false} FirstPage(network: nat -> Ledger, limits: Limits, r: PagedRequest, local: LedgerRange,
                                     remote: Option<Datastore>, n: nat)
    requires SoundLimits(limits) && 2 <= local.first <= local.last < MAX_INT32 && !Resumes(r)
    requires n == if r.paging.Some? && r.paging.value.limit > 0 then r.paging.value.limit else limits.defaultLimit
    ensures LedgersPageOf(network, limits, r, Some(local), remote).Ok?
       <==> && (if remote.Some? then 2 else local.first) <= r.startLedger <= local.last
            && (r.paging.Some? ==> r.paging.value.limit <= limits.maxLimit)
            && (r.format == "" || r.format == "json" || r.format == "base64")
            && (remote.Some? ==> forall s :: r.startLedger <= s < local.first && s < r.startLedger + n ==>
                  remote.value(s).Some?)
    ensures LedgersPageOf(network, limits, r, Some(local), remote).Ok? ==>
      var page := LedgersPageOf(network, limits, r, Some(local), remote).value;
      && |page.ledgers| >= 1 && (|page.ledgers| == n || r.startLedger + |page.ledgers| == local.last + 1)
      && |page.ledgers| <= n && r.startLedger + |page.ledgers| <= local.last + 1
      && (forall i :: 0 <= i < |page.ledgers| ==> page.ledgers[i] == network(r.startLedger + i))
      && page.latestLedger == local.last && page.oldestLedger == local.first
  {
    hide ParseUint, Itoa;
  }

  /** The request after a cursor starts with the next ledger, or is refused when that is not there. */
  lemma {:induction false} FollowingStarts(limits: Limits, r: PagedRequest, c: nat, range: LedgerRange)
    requires c + 1 < UINT32_SIZE && (r.paging.Some? ==> r.paging.value.limit <= limits.maxLimit)
    ensures ValidatePagination(Following(r, Itoa(c)), limits.maxLimit, range)
    ensures FirstAsked(Following(r, Itoa(c)), range)
         == if range.first <= c + 1 <= range.last then Ok(c + 1) else Err(InvalidParams)
    ensures PageLimit(Following(r, Itoa(c)), limits.defaultLimit) == PageLimit(r, limits.defaultLimit)
  {
    ParseItoa(c, UINT32_SIZE);
    ItoaDenotes(c);
  }

  ghost predicate SoundView(local: LedgerRange) { FIRST_LEDGER <= local.first <= local.last < MAX_INT32 }

  /** Each page answers the request after the previous page's cursor; the database may have moved on in between. */
  ghost predicate IsLedgerChain(network: nat -> Ledger, limits: Limits, r: PagedRequest, remote: Option<Datastore>,
                          views: seq<LedgerRange>, pages: seq<LedgersPage>)
    requires SoundLimits(limits)
    decreases |pages|
  {
    && pages != [] && |views| == |pages| && SoundView(views[0])
    && LedgersPageOf(network, limits, r, Some(views[0]), remote) == Ok(pages[0])
    && (|pages| > 1 ==> IsLedgerChain(network, limits, Following(r, pages[0].cursor), remote, views[1..], pages[1..]))
  }

  function HandedLedgers(pages: seq<LedgersPage>): seq<Ledger> {
    if pages == [] then [] else pages[0].ledgers + HandedLedgers(pages[1..])
  }

  /**
   However ingestion and retention move the database's range between the pages: as long as no page is refused,
   the client receives every ledger from its start to its cursor, once and in order.
   */
  lemma {:induction false} ChainCovers(network: nat -> Ledger, limits: Limits, r: PagedRequest,
      remote: Option<Datastore>, views: seq<LedgerRange>, pages: seq<LedgersPage>)
    returns (start: nat, last: nat)
    requires SoundLimits(limits) && IsLedgerChain(network, limits, r, remote, views, pages)
    ensures StartsAt(limits, r, views[0], remote, start) && start <= last < MAX_INT32
    ensures pages[|pages| - 1].cursor == Itoa(last)
    ensures HandedLedgers(pages) == Closed(network, start, last)
    decreases |pages|
  {
    hide LedgersPageOf, Reachable, ParseUint, Itoa;
    start, last := PageIsStretch(network, limits, r, views[0], remote);
    var end := last;
    if |pages| > 1 {
      FollowingStarts(limits, r, end, Available(views[1], remote));
      var next;
      next, last := ChainCovers(network, limits, Following(r, pages[0].cursor), remote, views[1..], pages[1..]);
      ClosedSplit(network, start, next, last);
    } else {
      assert pages[1..] == [];
    }
  }

  /** On a database that stays as it is, a chain whose ledgers can all be fetched reaches the latest one. */
  lemma {:induction false} ChainReaches(network: nat -> Ledger, limits: Limits, r: PagedRequest,
      remote: Option<Datastore>, local: LedgerRange, start: nat)
    returns (views: seq<LedgerRange>, pages: seq<LedgersPage>)
    requires SoundLimits(limits) && SoundView(local) && StartsAt(limits, r, local, remote, start)
    requires StartsLocally(start, local) || Reachable(remote, start, local.first - 1)
    ensures IsLedgerChain(network, limits, r, remote, views, pages)
    ensures forall i :: 0 <= i < |views| ==> views[i] == local
    ensures pages[|pages| - 1].cursor == Itoa(local.last)
    decreases local.last - start
  {
    StartBounds(limits, r, Available(local, remote));
    var res := LedgersPageOf(network, limits, r, Some(local), remote);
    var s, last := PageIsStretch(network, limits, r, local, remote);
    hide LedgersPageOf, ParseUint, Itoa, Closed;
    views, pages := [local], [res.value];
    if last < local.last {
      FollowingStarts(limits, r, last, Available(local, remote));
      var next := Following(r, res.value.cursor);
      var vs, ps := ChainReaches(network, limits, next, remote, local, last + 1);
      assert (pages + ps)[1..] == ps && (views + vs)[1..] == vs;
      views, pages := views + vs, pages + ps;
    }
  }
}
