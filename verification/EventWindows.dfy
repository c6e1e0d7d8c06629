/** How the window of a request behaves when the history is split, trimmed or extended. */
module EventWindows {
  import opened Cursors
  import opened Sequences
  import opened Chain
  import opened EventFilters
  import opened EventStore

  /** The events a filter list asks for between two ranks. */
  function Stretch(es: seq<StoredEvent>, lo: int, hi: int, fs: seq<EventFilter>): seq<StoredEvent> {
    Pick(es, Window(lo, hi, fs))
  }

  function LedgerRank(ledger: nat): nat { Rank(Cursor(ledger, 0, 0, 0)) }

  lemma {:induction false} LedgerRankBounds(c: Cursor)
    requires InRange(c)
    ensures LedgerRank(c.ledger) <= Rank(c) < LedgerRank(c.ledger + 1)
    ensures forall l: nat :: Rank(c) < LedgerRank(l) <==> c.ledger < l
  {
  }

  lemma {:induction false} LedgerRankMonotone(a: nat, b: nat)
    requires a <= b
    ensures LedgerRank(a) <= LedgerRank(b)
  {
  }

  lemma {:induction false} StretchSplit(es: seq<StoredEvent>, lo: int, mid: int, hi: int, fs: seq<EventFilter>)
    requires Ordered(es) && lo <= mid <= hi
    ensures Stretch(es, lo, hi, fs) == Stretch(es, lo, mid, fs) + Stretch(es, mid, hi, fs)
  {
    PickSplit(es, Window(lo, mid, fs), Window(mid, hi, fs), Window(lo, hi, fs));
  }

  lemma {:induction false} StretchMember(es: seq<StoredEvent>, lo: int, hi: int, fs: seq<EventFilter>, e: StoredEvent)
    ensures e in Stretch(es, lo, hi, fs) <==> e in es && lo <= Rank(e.cursor) < hi && Asked(fs, e)
  {
    PickMembers(es, Window(lo, hi, fs), e);
  }

  lemma {:induction false} StretchRanks(es: seq<StoredEvent>, lo: int, hi: int, fs: seq<EventFilter>)
    requires Ordered(es)
    ensures Ordered(Stretch(es, lo, hi, fs))
    ensures forall i :: 0 <= i < |Stretch(es, lo, hi, fs)| ==> lo <= Rank(Stretch(es, lo, hi, fs)[i].cursor) < hi
  {
    PickOrdered(es, Window(lo, hi, fs));
    forall i | 0 <= i < |Stretch(es, lo, hi, fs)| ensures lo <= Rank(Stretch(es, lo, hi, fs)[i].cursor) < hi {
      StretchMember(es, lo, hi, fs, Stretch(es, lo, hi, fs)[i]);
    }
  }

  predicate NoneBetween(es: seq<StoredEvent>, lo: int, hi: int) {
    forall i :: 0 <= i < |es| ==> !(lo <= Rank(es[i].cursor) < hi)
  }

  lemma {:induction false} StretchEmpty(es: seq<StoredEvent>, lo: int, hi: int, fs: seq<EventFilter>)
    requires NoneBetween(es, lo, hi)
    ensures Stretch(es, lo, hi, fs) == []
  {
    PickNone(es, Window(lo, hi, fs));
  }

  lemma {:induction false} CutAt(front: seq<StoredEvent>, back: seq<StoredEvent>, n: nat)
    requires Ordered(front + back) && 1 <= n <= |front + back|
    requires forall i :: 0 <= i < |front| ==> Rank(front[i].cursor) <= Rank((front + back)[n - 1].cursor)
    requires forall i :: 0 <= i < |back| ==> Rank(back[i].cursor) > Rank((front + back)[n - 1].cursor)
    ensures (front + back)[..n] == front
  {
    ConcatIndex(front, back, n - 1);
    if n < |front + back| { ConcatIndex(front, back, n); }
  }

  /** The first n events of a stretch are those up to the n-th one's cursor. */
  lemma {:induction false} StretchPrefix(es: seq<StoredEvent>, lo: int, hi: int, fs: seq<EventFilter>, n: nat)
    requires Ordered(es) && 1 <= n <= |Stretch(es, lo, hi, fs)|
    ensures var c := Rank(Stretch(es, lo, hi, fs)[n - 1].cursor);
            lo <= c < hi && Stretch(es, lo, hi, fs)[..n] == Stretch(es, lo, c + 1, fs)
  {
    var all := Stretch(es, lo, hi, fs);
    StretchRanks(es, lo, hi, fs);
    var c := Rank(all[n - 1].cursor);
    StretchSplit(es, lo, c + 1, hi, fs);
    StretchRanks(es, lo, c + 1, fs);
    StretchRanks(es, c + 1, hi, fs);
    CutAt(Stretch(es, lo, c + 1, fs), Stretch(es, c + 1, hi, fs), n);
  }

  lemma {:induction false} StretchConcat(a: seq<Ledger>, b: seq<Ledger>, lo: int, hi: int, fs: seq<EventFilter>)
    ensures Stretch(EventsOf(a + b), lo, hi, fs) == Stretch(EventsOf(a), lo, hi, fs) + Stretch(EventsOf(b), lo, hi, fs)
  {
    EventsConcat(a, b);
    PickConcat(EventsOf(a), EventsOf(b), Window(lo, hi, fs));
  }

  lemma {:induction false} PrefixBelow(ls: seq<Ledger>, k: nat)
    requires Contiguous(ls) && k < |ls|
    ensures Ordered(EventsOf(ls[..k])) && forall i :: 0 <= i < |EventsOf(ls[..k])| ==>
      Rank(EventsOf(ls[..k])[i].cursor) < LedgerRank(ls[k].sequence)
  {
    ContiguousTail(ls, k);
    EventsOrdered(ls[..k]);
    forall i | 0 <= i < |EventsOf(ls[..k])| ensures Rank(EventsOf(ls[..k])[i].cursor) < LedgerRank(ls[k].sequence) {
      LedgerRankBounds(EventsOf(ls[..k])[i].cursor);
    }
  }

  lemma {:induction false} SuffixAbove(ls: seq<Ledger>, k: nat)
    requires Contiguous(ls) && k < |ls|
    ensures Ordered(EventsOf(ls[k..])) && forall i :: 0 <= i < |EventsOf(ls[k..])| ==>
      LedgerRank(ls[k].sequence) <= Rank(EventsOf(ls[k..])[i].cursor)
  {
    ContiguousTail(ls, k);
    EventsOrdered(ls[k..]);
    forall i | 0 <= i < |EventsOf(ls[k..])| ensures LedgerRank(ls[k].sequence) <= Rank(EventsOf(ls[k..])[i].cursor) {
      LedgerRankBounds(EventsOf(ls[k..])[i].cursor);
      assert LedgerRank(ls[k].sequence) <= LedgerRank(EventsOf(ls[k..])[i].cursor.ledger);
    }
  }

  lemma {:induction false} StretchInside(es: seq<StoredEvent>, lo: int, a: int, b: int, hi: int, fs: seq<EventFilter>)
    requires Ordered(es) && lo <= a <= b <= hi && Stretch(es, lo, hi, fs) == []
    ensures Stretch(es, a, b, fs) == []
  {
    StretchSplit(es, lo, a, hi, fs);
    StretchSplit(es, a, b, hi, fs);
  }

  /** A newly closed ledger adds nothing to a stretch that ends before it. */
  lemma {:induction false} StretchExtends(ls: seq<Ledger>, l: Ledger, lo: int, hi: int, fs: seq<EventFilter>)
    requires ls != [] && Contiguous(ls + [l]) && (hi <= lo || hi <= LedgerRank(l.sequence))
    ensures Stretch(EventsOf(ls + [l]), lo, hi, fs) == Stretch(EventsOf(ls), lo, hi, fs)
  {
    StretchConcat(ls, [l], lo, hi, fs);
    SuffixAbove(ls + [l], |ls|);
    assert (ls + [l])[|ls|..] == [l];
    StretchEmpty(EventsOf([l]), lo, hi, fs);
  }
}
