/** Suffixes of a contiguous history: what retention keeps, what a migration covers, what a fee window remembers. */
module Retention {
  import opened Cursors
  import opened Sequences
  import opened Chain
  import opened EventStore
  import opened Tables

  /** How many of the ledgers come before a sequence number. */
  function Before(ls: seq<Ledger>, from: int): (k: nat)
    ensures k <= |ls|
  {
    if ls == [] || from <= ls[0].sequence then 0 else Min(from - ls[0].sequence, |ls|)
  }

  /** The ledgers from a sequence number on. */
  function Since(ls: seq<Ledger>, from: int): seq<Ledger> { ls[Before(ls, from)..] }

  lemma {:induction false} SinceSplit(ls: seq<Ledger>, from: int)
    requires Contiguous(ls)
    ensures ls == ls[..Before(ls, from)] + Since(ls, from)
    ensures Contiguous(Since(ls, from)) && Contiguous(ls[..Before(ls, from)])
    ensures forall l :: l in ls[..Before(ls, from)] ==> l.sequence < from
    ensures forall l :: l in Since(ls, from) ==> l.sequence >= from
  {
  }

  lemma {:induction false} SinceTwice(ls: seq<Ledger>, a: int, b: int)
    requires Contiguous(ls)
    ensures Since(Since(ls, a), b) == Since(ls, if a < b then b else a)
  {
  }

  lemma {:induction false} SinceAppend(ls: seq<Ledger>, l: Ledger, from: int)
    requires Contiguous(ls + [l]) && from <= l.sequence
    ensures Since(ls + [l], from) == Since(ls, from) + [l]
  {
    assert (ls + [l])[|ls|] == l;
    if ls != [] { assert (ls + [l])[0] == ls[0]; }
  }

  /** The events of the ledgers from a cutoff on are the events from the cutoff on. */
  lemma {:induction false} SinceEvents(ls: seq<Ledger>, cutoff: nat)
    requires Contiguous(ls)
    ensures Pick(EventsOf(ls), FromLedger(cutoff)) == EventsOf(Since(ls, cutoff))
  {
    SinceSplit(ls, cutoff);
    var (a, b) := (ls[..Before(ls, cutoff)], Since(ls, cutoff));
    EventsConcat(a, b);
    EventsOrdered(a);
    EventsOrdered(b);
    PickConcat(EventsOf(a), EventsOf(b), FromLedger(cutoff));
    PickNone(EventsOf(a), FromLedger(cutoff));
    PickAll(EventsOf(b), FromLedger(cutoff));
  }

  lemma {:induction false} TrimLedgersHold(t: LedgerTable, ls: seq<Ledger>, cutoff: nat)
    requires Contiguous(ls) && LedgersHold(t, ls)
    ensures LedgersHold(TrimLedgers(t, cutoff), Since(ls, cutoff))
  {
    SinceSplit(ls, cutoff);
  }

  lemma {:induction false} TrimTxsSince(t: TxTable, relic: TxTable, ls: seq<Ledger>, cutoff: nat)
    requires Contiguous(ls) && TxsHoldBeside(t, relic, ls)
    ensures TxsHoldBeside(TrimTxs(t, cutoff), TrimTxs(relic, cutoff), Since(ls, cutoff))
  {
    SinceSplit(ls, cutoff);
    TrimBeside(t, relic, ls[..Before(ls, cutoff)], Since(ls, cutoff), cutoff);
  }

  lemma {:induction false} TrimEventsSince(t: EventTable, ls: seq<Ledger>, cutoff: nat)
    requires Contiguous(ls) && Holds(t, EventsOf(ls)) && cutoff <= MAX_INT32
    ensures Holds(TrimTable(t, cutoff), EventsOf(Since(ls, cutoff)))
  {
    EventsOrdered(ls);
    TrimHolds(t, EventsOf(ls), cutoff);
    SinceEvents(ls, cutoff);
  }

  /** The ledgers between two sequence numbers, both inclusive. */
  function Between(ls: seq<Ledger>, first: int, last: int): seq<Ledger> {
    Since(ls[..Before(ls, last + 1)], first)
  }

  lemma {:induction false} BetweenContiguous(ls: seq<Ledger>, first: int, last: int)
    requires Contiguous(ls)
    ensures Contiguous(Between(ls, first, last))
  {
    SinceSplit(ls, last + 1);
    SinceSplit(ls[..Before(ls, last + 1)], first);
  }

  lemma {:induction false} BetweenAppend(ls: seq<Ledger>, l: Ledger, first: int, last: int)
    requires Contiguous(ls + [l])
    ensures Between(ls + [l], first, last)
         == if first <= l.sequence <= last then Between(ls, first, last) + [l] else Between(ls, first, last)
  {
    assert (ls + [l])[|ls|] == l;
    if ls != [] { assert (ls + [l])[0] == ls[0]; }
    assert Contiguous(ls) by { ContiguousTail(ls + [l], |ls|); assert (ls + [l])[..|ls|] == ls; }
    if l.sequence <= last {
      assert (ls + [l])[..Before(ls + [l], last + 1)] == ls + [l];
      assert ls[..Before(ls, last + 1)] == ls;
    } else {
      assert (ls + [l])[..Before(ls + [l], last + 1)] == ls[..Before(ls, last + 1)];
    }
  }

  lemma {:induction false} BetweenNarrows(ls: seq<Ledger>, first: int, last: int, first': int, last': int)
    requires Contiguous(ls) && first <= first' && last' <= last
    ensures Between(Between(ls, first, last), first', last') == Between(ls, first', last')
  {
    hide Between, Before, Contiguous, Min;
    var (f, l, f', l') := (Before(ls, first), Before(ls, last + 1), Before(ls, first'), Before(ls, last' + 1));
    BeforeMonotone(ls, first, first');
    BeforeMonotone(ls, last' + 1, last + 1);
    MinIs(f, l);
    MinIs(f', l');
    var (outer, a) := (ls[Min(f, l)..l], Min(f, l));
    BetweenContiguous(ls, first, last);
    BetweenSlice(ls, first, last);
    BetweenSlice(ls, first', last');
    BetweenSlice(outer, first', last');
    BeforeSlice(ls, a, l, first');
    BeforeSlice(ls, a, l, last' + 1);
    MinIs(Before(outer, first'), Before(outer, last' + 1));
    if a <= Min(f', l') {
      SliceOfSlice(ls, a, l, Min(f', l'), l');
    }
  }

  lemma {:induction false} MinIs(a: int, b: int)
    ensures Min(a, b) == if a < b then a else b
  {
  }

  lemma {:induction false} BeforeMonotone(ls: seq<Ledger>, x: int, y: int)
    requires x <= y
    ensures Before(ls, x) <= Before(ls, y)
  {
  }

  lemma {:induction false} BeforeSlice(ls: seq<Ledger>, a: nat, b: nat, x: int)
    requires Contiguous(ls) && a <= b <= |ls|
    ensures Before(ls[a..b], x)
         == if Before(ls, x) <= a then 0 else if Before(ls, x) >= b then b - a else Before(ls, x) - a
  {
    if a < b { assert ls[a..b][0] == ls[a]; }
  }

  lemma {:induction false} BetweenSlice(ls: seq<Ledger>, first: int, last: int)
    requires Contiguous(ls)
    ensures Between(ls, first, last) == ls[Min(Before(ls, first), Before(ls, last + 1))..Before(ls, last + 1)]
  {
    var b := Before(ls, last + 1);
    BeforeSlice(ls, 0, b, first);
    assert ls[0..b] == ls[..b];
  }

  lemma {:induction false} SliceOfSlice<T>(s: seq<T>, a: nat, b: nat, a': nat, b': nat)
    requires a <= a' <= b' <= b <= |s|
    ensures s[a..b][a' - a..b' - a] == s[a'..b']
  {
    var outer := s[a..b];
    forall i | 0 <= i < b' - a' ensures outer[a' - a..b' - a][i] == s[a'..b'][i] {
      assert outer[a' - a + i] == s[a' + i];
    }
  }

  lemma {:induction false} BetweenGrows(ls: seq<Ledger>, first: int, last: int)
    requires Contiguous(ls) && first <= last
    ensures Between(ls, first, last)
         == Between(ls, first, last - 1)
            + if ls != [] && ls[0].sequence <= last <= ls[|ls| - 1].sequence then [ls[last - ls[0].sequence]] else []
  {
    if ls != [] && ls[0].sequence <= last <= ls[|ls| - 1].sequence {
      var k := last - ls[0].sequence;
      assert ls[..Before(ls, last + 1)] == ls[..Before(ls, last)] + [ls[k]];
      ContiguousTail(ls, k + 1);
      SinceAppend(ls[..k], ls[k], first);
    } else {
      assert ls[..Before(ls, last + 1)] == ls[..Before(ls, last)];
    }
  }
}
