/**
 A ring buffer of per-ledger buckets (cmd/stellar-rpc/internal/ledgerbucketwindow/ledgerbucketwindow.go), against
 the sliding window it stands for: the last buckets of all those accepted.
 */
module BucketWindow {
  import opened UInt32
  import opened Wrappers
  import opened Sequences

  datatype LedgerBucket<T> = LedgerBucket(sequence: uint32, closeTime: int, content: T)

  datatype AppendError = NotContiguous(expected: uint32, received: uint32)

  /** The sequence number a non-empty window accepts next, in uint32 arithmetic. */
  function Expected<T>(w: seq<LedgerBucket<T>>): uint32
    requires 0 < |w| < UINT32_SIZE
  {
    Add32(w[0].sequence, |w|)
  }

  /** Appending to a sliding window of the given capacity. */
  function Appended<T>(capacity: nat, w: seq<LedgerBucket<T>>,
      b: LedgerBucket<T>): Result<seq<LedgerBucket<T>>, AppendError>
    requires |w| < UINT32_SIZE
  {
    if w != [] && Expected(w) != b.sequence then Err(NotContiguous(Expected(w), b.sequence))
    else Ok(LastN(capacity, w + [b]))
  }

  /** A full circular buffer read from its start. */
  function Rotated<T>(cells: seq<T>, start: nat): (s: seq<T>)
    requires start <= |cells|
    ensures |s| == |cells|
  {
    cells[start..] + cells[..start]
  }

  lemma {:induction false} RotatedOverwrite<T>(cells: seq<T>, start: nat, x: T)
    requires start < |cells|
    ensures Rotated(cells[start := x], if start + 1 < |cells| then start + 1 else 0) == Rotated(cells, start)[1..] + [x]
    ensures Rotated(cells, start)[0] == cells[start]
  {
  }

  lemma {:induction false} RotatedFromStart<T>(cells: seq<T>)
    ensures Rotated(cells, 0) == cells
  {
  }

  lemma {:induction false} RotatedAt<T>(cells: seq<T>, start: nat, i: nat)
    requires start < |cells| && i < |cells|
    ensures Rotated(cells, start)[i] == cells[if start + i < |cells| then start + i else start + i - |cells|]
  {
  }

  /** The cells in use, from the oldest to the newest. */
  function InOrder<T>(cells: seq<T>, length: nat, start: nat): (s: seq<T>)
    requires length <= |cells| && start <= |cells|
    ensures |s| == length
  {
    if length < |cells| then cells[..length] else Rotated(cells, start)
  }

  lemma {:induction false} InOrderGrows<T>(cells: seq<T>, length: nat, x: T)
    requires length < |cells|
    ensures InOrder(cells[length := x], length + 1, 0) == InOrder(cells, length, 0) + [x]
  {
    assert cells[length := x][..length + 1] == cells[..length] + [x];
    RotatedFromStart(cells[length := x]);
  }

  lemma {:induction false} InOrderSlides<T>(cells: seq<T>, start: nat, x: T)
    requires start < |cells|
    ensures InOrder(cells[start := x], |cells|, if start + 1 < |cells| then start + 1 else 0)
         == InOrder(cells, |cells|, start)[1..] + [x]
    ensures InOrder(cells, |cells|, start)[0] == cells[start]
  {
    RotatedOverwrite(cells, start, x);
  }

  lemma {:induction false} InOrderFirst<T>(cells: seq<T>, length: nat, start: nat)
    requires 0 < length <= |cells| && start < |cells| && (length < |cells| ==> start == 0)
    ensures InOrder(cells, length, start)[0] == cells[start]
  {
  }

  /** What an accepted bucket makes of a window: it grows, or slides when it is full. */
  lemma {:induction false} AppendedGrows<T>(capacity: nat, w: seq<LedgerBucket<T>>, b: LedgerBucket<T>)
    requires 1 <= capacity < UINT32_SIZE && |w| <= capacity
    ensures Appended(capacity, w, b)
         == if w != [] && Expected(w) != b.sequence then Err(NotContiguous(Expected(w), b.sequence))
            else Ok(if |w| < capacity then w + [b] else w[1..] + [b])
  {
    if w != [] { assert (w + [b])[1..] == w[1..] + [b]; }
  }

  class LedgerBucketWindow<T(0)> {
    const buckets: array<LedgerBucket<T>>
    var length: nat
    var start: nat

    ghost predicate Valid()
      reads this
    {
      && 1 <= buckets.Length < UINT32_SIZE && length <= buckets.Length
      && start < buckets.Length && (length < buckets.Length ==> start == 0)
    }

    /** The buckets from the oldest to the newest. */
    ghost function Contents(): (s: seq<LedgerBucket<T>>)
      reads this, buckets
      requires Valid()
      ensures |s| == length
    {
      InOrder(buckets[..], length, start)
    }

    constructor (retentionWindow: nat)
      requires 1 <= retentionWindow < UINT32_SIZE
      ensures Valid() && fresh(buckets) && buckets.Length == retentionWindow && Contents() == []
    {
      buckets := new LedgerBucket<T>[retentionWindow];
      length, start := 0, 0;
    }

    method Append(bucket: LedgerBucket<T>) returns (r: Result<Option<LedgerBucket<T>>, AppendError>)
      requires Valid()
      modifies this`length, this`start, buckets
      ensures Valid()
      ensures Appended(buckets.Length, old(Contents()), bucket).Err? ==>
        r == Err(Appended(buckets.Length, old(Contents()), bucket).error) && Contents() == old(Contents())
      ensures Appended(buckets.Length, old(Contents()), bucket).Ok? ==>
        Contents() == Appended(buckets.Length, old(Contents()), bucket).value
        && r == Ok(if old(length) < buckets.Length then None else Some(old(Contents())[0]))
    {
      hide Appended, Rotated, InOrder;
      ghost var (w, cells) := (Contents(), buckets[..]);
      AppendedGrows(buckets.Length, w, bucket);
      if length > 0 { InOrderFirst(cells, length, start); }
      if length > 0 {
        var expected := Add32(buckets[start].sequence, length);
        if expected != bucket.sequence { return Err(NotContiguous(expected, bucket.sequence)); }
      }
      if length < buckets.Length {
        InOrderGrows(cells, length, bucket);
        buckets[length] := bucket;
        assert buckets[..] == cells[length := bucket];
        length := length + 1;
        r := Ok(None);
      } else {
        var saved := buckets[start];
        WrapOnce(start + 1, length);
        InOrderSlides(cells, start, bucket);
        buckets[start] := bucket;
        assert buckets[..] == cells[start := bucket];
        start := (start + 1) % length;
        r := Ok(Some(saved));
      }
    }

    /** Buckets are read oldest first. */
    method Get(i: nat) returns (b: LedgerBucket<T>)
      requires Valid() && i < length
      ensures b == Contents()[i]
    {
      WrapOnce(start + i, length);
      if length == buckets.Length { RotatedAt(buckets[..], start, i); }
      var index := (start + i) % length;
      b := buckets[index];
    }

    method GetLedgerRange() returns (range: Option<(LedgerBucket<T>, LedgerBucket<T>)>)
      requires Valid()
      ensures length == 0 ==> range == None
      ensures length > 0 ==> range == Some((Contents()[0], Contents()[length - 1]))
    {
      if length == 0 { return None; }
      var first := Get(0);
      var last := Get(length - 1);
      return Some((first, last));
    }
  }

  predicate Consecutive<T>(bs: seq<LedgerBucket<T>>) {
    forall i :: 0 <= i < |bs| ==> bs[i].sequence == bs[0].sequence + i
  }

  /** The buckets accepted so far, given all attempts in order: those that continue the sequence. */
  function Accepted<T>(attempts: seq<LedgerBucket<T>>): (all: seq<LedgerBucket<T>>)
    ensures |all| <= |attempts|
  {
    if attempts == [] then []
    else
      var (before, b) := (Accepted(attempts[..|attempts| - 1]), attempts[|attempts| - 1]);
      if before == [] || before[|before| - 1].sequence + 1 == b.sequence then before + [b] else before
  }

  /** The window after all attempts; a refused one leaves it as it was. */
  function WindowAfter<T>(capacity: nat, attempts: seq<LedgerBucket<T>>): (w: seq<LedgerBucket<T>>)
    requires capacity < UINT32_SIZE
    ensures |w| <= capacity
  {
    if attempts == [] then []
    else
      var (before, b) := (WindowAfter(capacity, attempts[..|attempts| - 1]), attempts[|attempts| - 1]);
      match Appended(capacity, before, b) case Ok(w) => w case Err(_) => before
  }

  lemma {:induction false} AcceptedConsecutive<T>(attempts: seq<LedgerBucket<T>>)
    ensures Consecutive(Accepted(attempts))
    ensures forall b :: b in Accepted(attempts) ==> b in attempts
  {
    if attempts != [] {
      AcceptedConsecutive(attempts[..|attempts| - 1]);
      assert attempts == attempts[..|attempts| - 1] + [attempts[|attempts| - 1]];
    }
  }

  lemma {:induction false} LastNNext<T>(capacity: nat, s: seq<T>, x: T)
    requires capacity >= 1
    ensures LastN(capacity, LastN(capacity, s) + [x]) == LastN(capacity, s + [x])
  {
  }

  lemma {:induction false} ExpectsNext<T>(capacity: nat, all: seq<LedgerBucket<T>>)
    requires 1 <= capacity < UINT32_SIZE && all != [] && Consecutive(all)
    requires all[|all| - 1].sequence + 1 < UINT32_SIZE
    ensures Expected(LastN(capacity, all)) == all[|all| - 1].sequence + 1
  {
    var w := LastN(capacity, all);
    assert w[0] == all[|all| - |w|];
  }

  lemma {:induction false} AppendedToLast<T>(capacity: nat, all: seq<LedgerBucket<T>>, b: LedgerBucket<T>)
    requires 1 <= capacity < UINT32_SIZE && Consecutive(all)
    requires all != [] ==> all[|all| - 1].sequence + 1 < UINT32_SIZE
    ensures Appended(capacity, LastN(capacity, all), b).Ok? <==> all == [] || all[|all| - 1].sequence + 1 == b.sequence
    ensures Appended(capacity, LastN(capacity, all), b).Ok? ==>
      Appended(capacity, LastN(capacity, all), b).value == LastN(capacity, all + [b])
    ensures Appended(capacity, LastN(capacity, all), b).Err? ==>
      all != [] && Appended(capacity, LastN(capacity, all), b).error
                     == NotContiguous(all[|all| - 1].sequence + 1, b.sequence)
  {
    LastNNext(capacity, all, b);
    if all != [] { ExpectsNext(capacity, all); }
  }

  /** Whatever is offered, the window is the last buckets of those accepted, consecutive and oldest first. */
  lemma {:induction false} WindowIsLastAccepted<T>(capacity: nat, attempts: seq<LedgerBucket<T>>)
    requires 1 <= capacity < UINT32_SIZE
    requires forall b :: b in attempts ==> b.sequence + 1 < UINT32_SIZE
    ensures WindowAfter(capacity, attempts) == LastN(capacity, Accepted(attempts))
    ensures Consecutive(WindowAfter(capacity, attempts))
  {
    if attempts == [] {
    } else {
      var (front, b) := (attempts[..|attempts| - 1], attempts[|attempts| - 1]);
      assert forall x :: x in front ==> x in attempts;
      WindowIsLastAccepted(capacity, front);
      AcceptedConsecutive(front);
      AppendedToLast(capacity, Accepted(front), b);
      AcceptedConsecutive(attempts);
      ConsecutiveLastN(capacity, Accepted(attempts));
    }
  }

  /** The next attempt after these is refused unless it continues the last accepted one, which the error names. */
  lemma {:induction false} NextAttempt<T>(capacity: nat, attempts: seq<LedgerBucket<T>>, b: LedgerBucket<T>)
    requires 1 <= capacity < UINT32_SIZE
    requires forall x :: x in attempts ==> x.sequence + 1 < UINT32_SIZE
    ensures var (all, r) := (Accepted(attempts), Appended(capacity, WindowAfter(capacity, attempts), b));
            && (r.Ok? <==> all == [] || b.sequence == all[|all| - 1].sequence + 1)
            && (r.Err? ==>
                  all != [] && r.error.expected == all[|all| - 1].sequence + 1 && r.error.received == b.sequence)
  {
    hide LastN;
    WindowIsLastAccepted(capacity, attempts);
    AcceptedConsecutive(attempts);
    AppendedToLast(capacity, Accepted(attempts), b);
  }

  lemma {:induction false} ConsecutiveLastN<T>(capacity: nat, all: seq<LedgerBucket<T>>)
    requires Consecutive(all)
    ensures Consecutive(LastN(capacity, all))
  {
  }
}
