/** What getTransactions and getLedgers requests share (protocol/get_ledgers.go, protocol/get_transactions.go). */
module LedgerRequests {
  import opened UInt32
  import opened Wrappers
  import opened EventPages

  /** An empty cursor, or a limit of zero, is one that was not set. */
  datatype Paging = Paging(cursor: string, limit: nat)

  datatype PagedRequest = PagedRequest(startLedger: uint32, paging: Option<Paging>, format: string)

  predicate Resumes(r: PagedRequest) { r.paging.Some? && r.paging.value.cursor != "" }

  predicate IsLedgerWithinRange(start: nat, range: LedgerRange) { range.first <= start <= range.last }

  predicate ValidatePagination(r: PagedRequest, maxLimit: nat, range: LedgerRange) {
    && (if Resumes(r) then r.startLedger == 0 else IsLedgerWithinRange(r.startLedger, range))
    && (r.paging.Some? ==> r.paging.value.limit <= maxLimit)
  }

  function PageLimit(r: PagedRequest, defaultLimit: nat): nat {
    if r.paging.Some? && r.paging.value.limit > 0 then r.paging.value.limit else defaultLimit
  }

  /** The request for the page after a cursor. */
  function Following(r: PagedRequest, cursor: string): PagedRequest {
    PagedRequest(0, Some(Paging(cursor, if r.paging.Some? then r.paging.value.limit else 0)), r.format)
  }
}
