/**
 Event cursors (protocol/cursor.go): the position of an event, its packed TOID (SEP-35) and its text form,
 which is also the primary key of the events table.
 */
module Cursors {
  import opened Wrappers
  import opened DecimalText

  const MAX_INT32 := 0x7fff_ffff
  const TRANSACTION_MASK := 0xf_ffff
  const OPERATION_MASK := 0xfff
  const MAX_UINT32 := 0xffff_ffff

  datatype Cursor = Cursor(ledger: nat, tx: nat, op: nat, event: nat)

  /** The cursors whose parts fit the TOID layout; every other cursor cannot be packed. */
  predicate InRange(c: Cursor) {
    c.ledger <= MAX_INT32 && c.tx <= TRANSACTION_MASK && c.op <= OPERATION_MASK && c.event <= MAX_UINT32
  }

  const MAX_CURSOR := Cursor(MAX_INT32, TRANSACTION_MASK, OPERATION_MASK, MAX_UINT32)

  /** SEP-35: ledger in the high 32 bits, then 20 bits of transaction order and 12 of operation order. */
  function ToToid(ledger: nat, tx: nat, op: nat): nat {
    ledger * 0x1_0000_0000 + tx * 0x1000 + op
  }

  function ParseToid(id: int): (int, nat, nat) {
    (id / 0x1_0000_0000, id / 0x1000 % 0x10_0000, id % 0x1000)
  }

  lemma {:induction false} ToidRoundTrip(ledger: nat, tx: nat, op: nat)
    requires tx <= TRANSACTION_MASK && op <= OPERATION_MASK
    ensures ParseToid(ToToid(ledger, tx, op)) == (ledger, tx, op)
  {
    var id := ToToid(ledger, tx, op);
    assert id / 0x1000 == ledger * 0x10_0000 + tx;
  }

  lemma {:induction false} Pow10Facts()
    ensures Pow10(10) == 1_00000_00000 && Pow10(19) == 1_000000000_00000_00000
  {
    assert Pow10(5) == 100000;
    assert Pow10(10) == 1_00000_00000;
    assert Pow10(15) == 1_00000_00000_00000;
    assert Pow10(19) == 1_000000000_00000_00000;
  }

  function String(c: Cursor): string
    requires InRange(c)
  {
    Pow10Facts();
    Padded(ToToid(c.ledger, c.tx, c.op), 19) + "-" + Padded(c.event, 10)
  }

  datatype ParseError = InvalidEventId

  function ParseCursor(input: string): Result<Cursor, ParseError> {
    var dash := IndexOf(input, '-');
    if dash == |input| then Err(InvalidEventId)
    else
      var id := ParseInt64(input[..dash]);
      var event := ParseUint(input[dash + 1..], MAX_UINT32 + 1);
      if id.None? || event.None? then Err(InvalidEventId)
      else
        FirstPartIsUnsigned(input);
        var (ledger, tx, op) := ParseToid(id.value);
        Ok(Cursor(ledger, tx, op, event.value))
  }

  /** What precedes the first dash carries no minus sign, so no negative TOID is ever unpacked. */
  lemma {:induction false} FirstPartIsUnsigned(input: string)
    ensures var id := ParseInt64(input[..IndexOf(input, '-')]); id.Some? ==> 0 <= id.value < 0x8000_0000_0000_0000
  {
  }

  function CmpPart(a: nat, b: nat): int {
    if a < b then -1 else if a > b then 1 else 0
  }

  function Cmp(c: Cursor, other: Cursor): int {
    if c.ledger == other.ledger then
      if c.tx == other.tx then
        if c.op == other.op then CmpPart(c.event, other.event) else CmpPart(c.op, other.op)
      else CmpPart(c.tx, other.tx)
    else CmpPart(c.ledger, other.ledger)
  }

  /** A number with the same order as the cursors themselves; proofs compare ranks. */
  function Rank(c: Cursor): nat {
    ToToid(c.ledger, c.tx, c.op) * 0x1_0000_0000 + c.event
  }

  lemma {:induction false} RankOrder(a: Cursor, b: Cursor)
    requires InRange(a) && InRange(b)
    ensures Cmp(a, b) < 0 <==> Rank(a) < Rank(b)
    ensures Cmp(a, b) == 0 <==> Rank(a) == Rank(b)
    ensures Rank(a) == Rank(b) <==> a == b
  {
  }

  lemma {:induction false} RankByPosition(a: Cursor, b: Cursor)
    requires InRange(a) && InRange(b)
    requires a.ledger < b.ledger || (a.ledger == b.ledger && a.tx < b.tx)
    ensures Rank(a) < Rank(b)
  {
    RankOrder(a, b);
  }

  lemma {:induction false} JoinedOrder(p: string, q: string, s: string, t: string)
    requires |p| == |q| && |s| == |t|
    ensures TextLess(p + "-" + s, q + "-" + t) <==> TextLess(p, q) || (p == q && TextLess(s, t))
    ensures p + "-" + s == q + "-" + t <==> p == q && s == t
  {
    assert p + "-" + s == p + ("-" + s) && q + "-" + t == q + ("-" + t);
    TextLessConcat(p, q, "-" + s, "-" + t);
    assert ("-" + s)[1..] == s && ("-" + t)[1..] == t;
    if p + "-" + s == q + "-" + t {
      assert (p + "-" + s)[..|p|] == p && (q + "-" + t)[..|q|] == q;
      assert (p + "-" + s)[|p| + 1..] == s && (q + "-" + t)[|q| + 1..] == t;
    }
  }

  /** The keys of the events table sort as their cursors do. */
  lemma {:induction false} StringOrder(a: Cursor, b: Cursor)
    requires InRange(a) && InRange(b)
    ensures TextLess(String(a), String(b)) <==> Cmp(a, b) < 0
    ensures TextLess(String(a), String(b)) <==> Rank(a) < Rank(b)
    ensures String(a) == String(b) <==> a == b
  {
    Pow10Facts();
    var (x, y) := (ToToid(a.ledger, a.tx, a.op), ToToid(b.ledger, b.tx, b.op));
    PaddedOrder(x, y, 19);
    PaddedOrder(a.event, b.event, 10);
    PaddedDenotes(x, 19);
    PaddedDenotes(y, 19);
    PaddedDenotes(a.event, 10);
    PaddedDenotes(b.event, 10);
    JoinedOrder(Padded(x, 19), Padded(y, 19), Padded(a.event, 10), Padded(b.event, 10));
    RankOrder(a, b);
    assert x < y || (x == y && a.event < b.event) <==> Rank(a) < Rank(b);
  }

  lemma {:induction false} ParseString(c: Cursor)
    requires InRange(c)
    ensures ParseCursor(String(c)) == Ok(c)
  {
    Pow10Facts();
    var id := ToToid(c.ledger, c.tx, c.op);
    PaddedDenotes(id, 19);
    PaddedDenotes(c.event, 10);
    var s := String(c);
    assert s[19] == '-';
    assert forall j :: 0 <= j < 19 ==> s[j] == Padded(id, 19)[j];
    assert IndexOf(s, '-') == 19;
    assert s[..19] == Padded(id, 19) && s[20..] == Padded(c.event, 10);
    assert s[0] == Padded(id, 19)[0];
    ToidRoundTrip(c.ledger, c.tx, c.op);
  }

  /** A printed cursor: 19 digits of the packed position, a dash, and 10 digits of the event index. */
  lemma {:induction false} StringShape(c: Cursor)
    requires InRange(c)
    ensures var s := String(c);
            && |s| == 30 && s[19] == '-' && AllDigits(s[..19]) && AllDigits(s[20..])
            && Value(s[..19]) == c.ledger * 0x1_0000_0000 + c.tx * 0x1000 + c.op && Value(s[20..]) == c.event
  {
    Pow10Facts();
    var (id, s) := (ToToid(c.ledger, c.tx, c.op), String(c));
    PaddedDenotes(id, 19);
    PaddedDenotes(c.event, 10);
    assert s[..19] == Padded(id, 19) && s[20..] == Padded(c.event, 10);
  }

  /** Whatever text a client sends, a cursor that parses can be packed and printed again. */
  lemma {:induction false} ParsedInRange(input: string)
    requires ParseCursor(input).Ok?
    ensures InRange(ParseCursor(input).value)
    ensures ParseCursor(String(ParseCursor(input).value)) == ParseCursor(input)
  {
    FirstPartIsUnsigned(input);
    ParseString(ParseCursor(input).value);
  }
}
