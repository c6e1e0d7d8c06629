/**
 The coarse SQL prefilter of getEvents (cmd/stellar-rpc/internal/methods/get_events.go,
 cmd/stellar-rpc/internal/db/event.go): how it is gathered from the request, and exactly when it keeps every
 event the request asks for.
 */
module EventPrefilter {
  import opened Wrappers
  import opened Chain
  import opened EventFilters

  /** Empty lists stand for no condition. */
  datatype Prefilter = Prefilter(contractIds: seq<Bytes>, topics: seq<seq<ScVal>>, kinds: seq<EventKind>)

  /** The columns of the events table that the prefilter looks at. */
  datatype Columns = Columns(contractId: Option<Bytes>, kind: EventKind, topic: seq<Option<ScVal>>)

  /** Only the first four topics have a column. */
  function ColumnsOf(e: ContractEvent): (c: Columns)
    ensures |c.topic| == MAX_TOPIC_COUNT
  {
    Columns(e.contractId, e.kind, seq(MAX_TOPIC_COUNT, i => if 0 <= i < |e.topics| then Some(e.topics[i]) else None))
  }

  predicate Listed(ids: seq<Bytes>, id: Option<Bytes>) { id.Some? && id.value in ids }

  /** The WHERE clause; a NULL column is in no list. */
  predicate Passes(p: Prefilter, c: Columns)
    requires |p.topics| <= |c.topic|
  {
    && (p.contractIds == [] || Listed(p.contractIds, c.contractId))
    && (p.kinds == [] || c.kind in p.kinds)
    && ((forall i :: 0 <= i < |p.topics| ==> p.topics[i] == []) ||
        exists i :: 0 <= i < |p.topics| && Listed(p.topics[i], c.topic[i]))
  }

  // ---- what the combine functions gather ----

  /** Some filter before the n-th lists the contract. */
  predicate HasContract(fs: seq<EventFilter>, n: nat, id: Bytes)
    requires n <= |fs|
  {
    exists i :: 0 <= i < n && ContractKey(id) in fs[i].contractIds
  }

  predicate HasKind(fs: seq<EventFilter>, n: nat, k: EventKind)
    requires n <= |fs|
  {
    exists i :: 0 <= i < n && TypeName(k) in fs[i].types
  }

  predicate Concrete(s: Segment) { s.wildcard.None? && s.scval.Some? }

  /** The topic filter asks for the value v at a position. */
  predicate PinsTopic(t: TopicFilter, pos: nat, v: ScVal) {
    pos < |t| && Concrete(t[pos]) && t[pos].scval == Some(v)
  }

  /** One of the first m topic filters asks for v at a position. */
  predicate Pins(f: EventFilter, m: nat, pos: nat, v: ScVal)
    requires m <= |f.topics|
  {
    exists j :: 0 <= j < m && PinsTopic(f.topics[j], pos, v)
  }

  predicate HasPin(fs: seq<EventFilter>, n: nat, pos: nat, v: ScVal)
    requires n <= |fs|
  {
    exists i :: 0 <= i < n && Pins(fs[i], |fs[i].topics|, pos, v)
  }

  predicate SomeWithoutTopics(fs: seq<EventFilter>) {
    exists i :: 0 <= i < |fs| && fs[i].topics == []
  }

  ghost predicate CombinesContracts(fs: seq<EventFilter>, ids: seq<Bytes>) {
    forall id :: id in ids <==> HasContract(fs, |fs|, id)
  }

  ghost predicate CombinesKinds(fs: seq<EventFilter>, kinds: seq<EventKind>) {
    forall k :: k in kinds <==> HasKind(fs, |fs|, k)
  }

  ghost predicate CombinesTopics(fs: seq<EventFilter>, topics: seq<seq<ScVal>>) {
    if SomeWithoutTopics(fs) then topics == []
    else
      && |topics| == MAX_TOPIC_COUNT
      && forall pos: nat, v :: pos < MAX_TOPIC_COUNT ==> (v in topics[pos] <==> HasPin(fs, |fs|, pos, v))
  }

  ghost predicate Combines(fs: seq<EventFilter>, p: Prefilter) {
    CombinesContracts(fs, p.contractIds) && CombinesKinds(fs, p.kinds) && CombinesTopics(fs, p.topics)
  }

  datatype CombineError = InvalidContractId(key: Strkey)

  method CombineContractIds(fs: seq<EventFilter>) returns (r: Result<seq<Bytes>, CombineError>)
    ensures r.Ok?
      <==> forall i, j :: 0 <= i < |fs| && 0 <= j < |fs[i].contractIds| ==> fs[i].contractIds[j].ContractKey?
    ensures r.Ok? ==> CombinesContracts(fs, r.value)
    ensures r.Ok? ==> forall i, j :: 0 <= i < j < |r.value| ==> r.value[i] != r.value[j]
  {
    var seen: set<Strkey> := {};
    var ids: seq<Bytes> := [];
    for i := 0 to |fs|
      invariant forall a, b :: 0 <= a < i && 0 <= b < |fs[a].contractIds| ==> fs[a].contractIds[b].ContractKey?
      invariant forall id :: id in ids <==> HasContract(fs, i, id)
      invariant forall id :: id in ids <==> ContractKey(id) in seen
      invariant forall key :: key in seen ==> key.ContractKey?
      invariant forall a, b :: 0 <= a < b < |ids| ==> ids[a] != ids[b]
    {
      var keys := fs[i].contractIds;
      for j := 0 to |keys|
        invariant forall b :: 0 <= b < j ==> keys[b].ContractKey?
        invariant forall id :: id in ids <==> HasContract(fs, i, id) || ContractKey(id) in keys[..j]
        invariant forall id :: id in ids <==> ContractKey(id) in seen
        invariant forall key :: key in seen ==> key.ContractKey?
        invariant forall a, b :: 0 <= a < b < |ids| ==> ids[a] != ids[b]
      {
        if keys[j] !in seen {
          match keys[j]
          case NotAContract(_) =>
            return Err(InvalidContractId(keys[j]));
          case ContractKey(id) =>
            seen := seen + {keys[j]};
            ids := ids + [id];
        }
        assert keys[..j + 1] == keys[..j] + [keys[j]];
      }
      assert keys[..|keys|] == keys;
    }
    return Ok(ids);
  }

  function KindNamed(name: string): Option<EventKind> {
    if name == TYPE_SYSTEM then Some(System)
    else if name == TYPE_CONTRACT then Some(Contract)
    else if name == TYPE_DIAGNOSTIC then Some(Diagnostic)
    else None
  }

  method CombineEventTypes(fs: seq<EventFilter>) returns (kinds: seq<EventKind>)
    requires ValidFilters(fs)
    ensures CombinesKinds(fs, kinds)
    ensures forall i, j :: 0 <= i < j < |kinds| ==> kinds[i] != kinds[j]
  {
    var gathered: set<EventKind> := {};
    for i := 0 to |fs|
      invariant forall k :: k in gathered <==> HasKind(fs, i, k)
    {
      var names := fs[i].types;
      while names != {}
        invariant names <= fs[i].types
        invariant forall k :: k in gathered <==> HasKind(fs, i, k) || TypeName(k) in fs[i].types - names
        decreases names
      {
        var name :| name in names;
        gathered := gathered + {KindNamed(name).value};
        names := names - {name};
      }
    }
    kinds := [];
    var rest := gathered;
    while rest != {}
      invariant forall k :: k in gathered <==> k in kinds || k in rest
      invariant forall k :: k in kinds ==> k !in rest
      invariant forall i, j :: 0 <= i < j < |kinds| ==> kinds[i] != kinds[j]
      decreases rest
    {
      var k :| k in rest;
      kinds, rest := kinds + [k], rest - {k};
    }
  }

  method CombineTopics(fs: seq<EventFilter>) returns (topics: seq<seq<ScVal>>)
    requires ValidFilters(fs)
    ensures CombinesTopics(fs, topics)
  {
    topics := [[], [], [], []];
    for i := 0 to |fs|
      invariant |topics| == MAX_TOPIC_COUNT
      invariant forall a :: 0 <= a < i ==> fs[a].topics != []
      invariant forall pos: nat, v :: pos < MAX_TOPIC_COUNT ==> (v in topics[pos] <==> HasPin(fs, i, pos, v))
    {
      if |fs[i].topics| == 0 { return []; }
      for j := 0 to |fs[i].topics|
        invariant |topics| == MAX_TOPIC_COUNT
        invariant forall pos: nat, v :: pos < MAX_TOPIC_COUNT ==>
          (v in topics[pos] <==> HasPin(fs, i, pos, v) || Pins(fs[i], j, pos, v))
      {
        var t := fs[i].topics[j];
        for k := 0 to |t|
          invariant |topics| == MAX_TOPIC_COUNT
          invariant forall pos: nat, v :: pos < MAX_TOPIC_COUNT ==>
            (v in topics[pos] <==> HasPin(fs, i, pos, v) || Pins(fs[i], j, pos, v) || (pos < k && PinsTopic(t, pos, v)))
        {
          if Concrete(t[k]) {
            assert ValidTopic(t);
            topics := topics[k := topics[k] + [t[k].scval.value]];
          }
        }
      }
    }
  }

  method GatherPrefilter(fs: seq<EventFilter>) returns (p: Prefilter)
    requires ValidFilters(fs)
    ensures Combines(fs, p)
  {
    var ids := CombineContractIds(fs);
    var topics := CombineTopics(fs);
    var kinds := CombineEventTypes(fs);
    p := Prefilter(ids.value, topics, kinds);
  }

  // ---- the prefilter as a property of the request ----

  predicate NamesContracts(fs: seq<EventFilter>) {
    exists i :: 0 <= i < |fs| && fs[i].contractIds != []
  }

  predicate NamesKinds(fs: seq<EventFilter>) {
    exists i :: 0 <= i < |fs| && fs[i].types != {}
  }

  predicate HasConcrete(t: TopicFilter) {
    exists i :: 0 <= i < |t| && Concrete(t[i])
  }

  predicate PinsSomething(fs: seq<EventFilter>) {
    exists i, j :: 0 <= i < |fs| && 0 <= j < |fs[i].topics| && HasConcrete(fs[i].topics[j])
  }

  /** Whether a row gets past the prefilter of a request, whatever order the lists were gathered in. */
  predicate Kept(fs: seq<EventFilter>, c: Columns)
    requires |c.topic| == MAX_TOPIC_COUNT
  {
    && (NamesContracts(fs) ==> c.contractId.Some? && HasContract(fs, |fs|, c.contractId.value))
    && (NamesKinds(fs) ==> HasKind(fs, |fs|, c.kind))
    && (PinsSomething(fs) && !SomeWithoutTopics(fs) ==>
          exists pos :: 0 <= pos < MAX_TOPIC_COUNT && c.topic[pos].Some? && HasPin(fs, |fs|, pos, c.topic[pos].value))
  }

  lemma {:induction false} HasMember<T>(s: seq<T>)
    ensures s == [] || exists x :: x in s
  {
    if s != [] { assert s[0] in s; }
  }

  lemma {:induction false} NamedContracts(fs: seq<EventFilter>, ids: seq<Bytes>)
    requires ValidFilters(fs) && CombinesContracts(fs, ids)
    ensures ids == [] <==> !NamesContracts(fs)
  {
    HasMember(ids);
    if i :| 0 <= i < |fs| && fs[i].contractIds != [] {
      assert HasContract(fs, |fs|, fs[i].contractIds[0].id);
    }
  }

  lemma {:induction false} NamedKinds(fs: seq<EventFilter>, kinds: seq<EventKind>)
    requires ValidFilters(fs) && CombinesKinds(fs, kinds)
    ensures kinds == [] <==> !NamesKinds(fs)
  {
    HasMember(kinds);
    if i :| 0 <= i < |fs| && fs[i].types != {} {
      var name :| name in fs[i].types;
      assert TypeName(KindNamed(name).value) == name;
      assert HasKind(fs, |fs|, KindNamed(name).value);
    }
  }

  lemma {:induction false} PinnedListed(fs: seq<EventFilter>, topics: seq<seq<ScVal>>, a: nat, b: nat) returns (c: nat)
    requires ValidFilters(fs) && CombinesTopics(fs, topics) && !SomeWithoutTopics(fs)
    requires a < |fs| && b < |fs[a].topics| && HasConcrete(fs[a].topics[b])
    ensures c < |topics| && topics[c] != []
  {
    var t := fs[a].topics[b];
    c :| 0 <= c < |t| && Concrete(t[c]);
    assert ValidTopic(t) && c < |Positions(t)|;
    assert PinsTopic(t, c, t[c].scval.value);
    assert Pins(fs[a], |fs[a].topics|, c, t[c].scval.value);
    assert HasPin(fs, |fs|, c, t[c].scval.value);
  }

  lemma {:induction false} ListedPinned(fs: seq<EventFilter>, topics: seq<seq<ScVal>>, c: nat)
    requires CombinesTopics(fs, topics) && c < |topics| && topics[c] != []
    ensures PinsSomething(fs) && !SomeWithoutTopics(fs)
  {
    assert topics[c][0] in topics[c];
    assert HasPin(fs, |fs|, c, topics[c][0]);
    var a :| 0 <= a < |fs| && Pins(fs[a], |fs[a].topics|, c, topics[c][0]);
    var b :| 0 <= b < |fs[a].topics| && PinsTopic(fs[a].topics[b], c, topics[c][0]);
    assert HasConcrete(fs[a].topics[b]);
  }

  lemma {:induction false} NamedTopics(fs: seq<EventFilter>, topics: seq<seq<ScVal>>)
    requires ValidFilters(fs) && CombinesTopics(fs, topics)
    ensures (exists c :: 0 <= c < |topics| && topics[c] != []) <==> PinsSomething(fs) && !SomeWithoutTopics(fs)
  {
    if c :| 0 <= c < |topics| && topics[c] != [] {
      ListedPinned(fs, topics, c);
    }
    if PinsSomething(fs) && !SomeWithoutTopics(fs) {
      var a, b :| 0 <= a < |fs| && 0 <= b < |fs[a].topics| && HasConcrete(fs[a].topics[b]);
      var c := PinnedListed(fs, topics, a, b);
    }
  }

  /** The gathered lists filter rows as the request's own filters determine. */
  lemma {:induction false} PassesAsKept(fs: seq<EventFilter>, p: Prefilter, c: Columns)
    requires ValidFilters(fs) && Combines(fs, p) && |c.topic| == MAX_TOPIC_COUNT
    ensures |p.topics| <= MAX_TOPIC_COUNT
    ensures Passes(p, c) <==> Kept(fs, c)
  {
    NamedContracts(fs, p.contractIds);
    NamedKinds(fs, p.kinds);
    NamedTopics(fs, p.topics);
    if PinsSomething(fs) && !SomeWithoutTopics(fs) {
      assert forall pos :: 0 <= pos < MAX_TOPIC_COUNT ==>
        (Listed(p.topics[pos], c.topic[pos]) <==> c.topic[pos].Some? && HasPin(fs, |fs|, pos, c.topic[pos].value));
    }
  }

  // ---- when the prefilter loses nothing ----

  /** Whatever the request asks for gets past the prefilter. */
  ghost predicate Lossless(fs: seq<EventFilter>)
    requires ValidFilters(fs)
  {
    forall e: ContractEvent :: Matches(fs, e) ==> Kept(fs, ColumnsOf(e))
  }

  predicate AllOrNoneNameContracts(fs: seq<EventFilter>) {
    NamesContracts(fs) ==> forall i :: 0 <= i < |fs| ==> fs[i].contractIds != []
  }

  /** Event types may be mixed with their absence only when every type is named somewhere. */
  predicate AllOrNoneNameKinds(fs: seq<EventFilter>) {
    NamesKinds(fs) ==>
      (forall i :: 0 <= i < |fs| ==> fs[i].types != {}) || (forall k: EventKind :: HasKind(fs, |fs|, k))
  }

  predicate AllOrNonePinTopics(fs: seq<EventFilter>) {
    PinsSomething(fs) && !SomeWithoutTopics(fs) ==>
      forall i, j :: 0 <= i < |fs| && 0 <= j < |fs[i].topics| ==> HasConcrete(fs[i].topics[j])
  }

  /** Something the caller can read off the request. */
  predicate Uniform(fs: seq<EventFilter>) {
    AllOrNoneNameContracts(fs) && AllOrNoneNameKinds(fs) && AllOrNonePinTopics(fs)
  }

  lemma {:induction false} ConcretePins(t: TopicFilter, topics: seq<ScVal>, c: nat)
    requires ValidTopic(t) && TopicMatches(t, topics) && c < |t| && Concrete(t[c])
    ensures c < MAX_TOPIC_COUNT && c < |topics| && PinsTopic(t, c, topics[c])
  {
    assert c < |Positions(t)| && SegmentMatches(t[c], topics[c]);
  }

  lemma {:induction false} TopicPasses(fs: seq<EventFilter>, e: ContractEvent, i: nat, j: nat)
    requires ValidFilters(fs)
    requires i < |fs| && j < |fs[i].topics| && TopicMatches(fs[i].topics[j], e.topics) && HasConcrete(fs[i].topics[j])
    ensures exists k :: (0 <= k < MAX_TOPIC_COUNT
                         && ColumnsOf(e).topic[k].Some? && HasPin(fs, |fs|, k, ColumnsOf(e).topic[k].value))
  {
    var t := fs[i].topics[j];
    var c :| 0 <= c < |t| && Concrete(t[c]);
    ConcretePins(t, e.topics, c);
    assert Pins(fs[i], |fs[i].topics|, c, e.topics[c]);
    assert HasPin(fs, |fs|, c, e.topics[c]);
    assert ColumnsOf(e).topic[c] == Some(e.topics[c]);
  }

  lemma {:induction false} UniformKeeps(fs: seq<EventFilter>, e: ContractEvent, i: nat)
    requires ValidFilters(fs) && Uniform(fs) && i < |fs| && FilterMatches(fs[i], e)
    ensures Kept(fs, ColumnsOf(e))
  {
    if NamesContracts(fs) { assert HasContract(fs, |fs|, e.contractId.value); }
    if NamesKinds(fs) { assert HasKind(fs, |fs|, e.kind); }
    if PinsSomething(fs) && !SomeWithoutTopics(fs) {
      assert fs[i].topics != [];
      var j :| 0 <= j < |fs[i].topics| && TopicMatches(fs[i].topics[j], e.topics);
      TopicPasses(fs, e, i, j);
    }
  }

  // ---- the converse: a request outside the class loses an event ----

  /** A value longer than every one a topic filter asks for. */
  function LongerThanTopic(t: TopicFilter): (v: ScVal)
    ensures forall i :: 0 <= i < |t| && t[i].scval.Some? ==> |t[i].scval.value| < |v|
  {
    if t == [] then [0]
    else
      var w := LongerThanTopic(t[1..]);
      if t[0].scval.None? || |t[0].scval.value| < |w| then w else t[0].scval.value + [0]
  }

  function LongerThanTopics(ts: seq<TopicFilter>): (v: ScVal)
    ensures forall j, i :: 0 <= j < |ts| && 0 <= i < |ts[j]| && ts[j][i].scval.Some? ==> |ts[j][i].scval.value| < |v|
  {
    if ts == [] then [0]
    else
      var (a, b) := (LongerThanTopic(ts[0]), LongerThanTopics(ts[1..]));
      if |a| < |b| then b else a
  }

  /**
   A value that no topic filter of the request asks for. Any such value serves, and filters name finitely many; this
   one is merely longer than all of them, and stands for a value with an encoding of its own.
   */
  function Filler(fs: seq<EventFilter>): (v: ScVal)
    ensures forall a, j, pos, x ::
      0 <= a < |fs| && 0 <= j < |fs[a].topics| && PinsTopic(fs[a].topics[j], pos, x) ==> |x| < |v|
  {
    if fs == [] then [0]
    else
      var (a, b) := (LongerThanTopics(fs[0].topics), Filler(fs[1..]));
      if |a| < |b| then b else a
  }

  lemma {:induction false} FillerUnpinned(fs: seq<EventFilter>, pos: nat)
    ensures !HasPin(fs, |fs|, pos, Filler(fs))
  {
  }

  /** Topics that a topic filter accepts: its concrete values, and a filler wherever it leaves the topic open. */
  function Witness(t: TopicFilter, filler: ScVal): (topics: seq<ScVal>)
    requires ValidTopic(t)
    ensures |topics| == |Positions(t)| && TopicMatches(t, topics)
    ensures !HasConcrete(t) ==> forall i :: 0 <= i < |topics| ==> topics[i] == filler
  {
    var ps := Positions(t);
    seq(|ps|, i requires 0 <= i < |ps| => if ps[i].scval.Some? then ps[i].scval.value else filler)
  }

  function WitnessTopics(f: EventFilter, j: nat, filler: ScVal): (topics: seq<ScVal>)
    requires ValidFilter(f) && (f.topics == [] || j < |f.topics|)
    ensures f.topics != [] ==> TopicMatches(f.topics[j], topics)
    ensures f.topics != [] && !HasConcrete(f.topics[j]) ==> forall i :: 0 <= i < |topics| ==> topics[i] == filler
  {
    if f.topics == [] then [] else Witness(f.topics[j], filler)
  }

  /** An event the filter accepts: any of its contract ids, types and topic filters may be chosen. */
  function WitnessEvent(f: EventFilter, id: Option<Bytes>, kind: EventKind, j: nat, filler: ScVal): (e: ContractEvent)
    requires ValidFilter(f) && (f.topics == [] || j < |f.topics|)
    requires f.contractIds != [] ==> id.Some? && ContractKey(id.value) in f.contractIds
    requires f.types != {} ==> TypeName(kind) in f.types
    ensures FilterMatches(f, e)
    ensures e.contractId == id && e.kind == kind && e.topics == WitnessTopics(f, j, filler)
  {
    ContractEvent(id, kind, WitnessTopics(f, j, filler), [])
  }

  /** Some contract id and some type that a filter names, if it names any. */
  lemma {:induction false} SomeChoice(f: EventFilter) returns (id: Option<Bytes>, kind: EventKind)
    requires ValidFilter(f)
    ensures f.contractIds != [] ==> id.Some? && ContractKey(id.value) in f.contractIds
    ensures f.types != {} ==> TypeName(kind) in f.types
  {
    id := if f.contractIds == [] then None else Some(f.contractIds[0].id);
    kind := if TYPE_SYSTEM in f.types then System else if TYPE_CONTRACT in f.types then Contract else Diagnostic;
    if f.types != {} {
      var name :| name in f.types;
    }
  }

  lemma {:induction false} MixedContractsLose(fs: seq<EventFilter>) returns (e: ContractEvent)
    requires ValidFilters(fs) && !AllOrNoneNameContracts(fs)
    ensures Matches(fs, e) && !Kept(fs, ColumnsOf(e))
  {
    var i :| 0 <= i < |fs| && fs[i].contractIds == [];
    var _, kind := SomeChoice(fs[i]);
    e := WitnessEvent(fs[i], None, kind, 0, []);
  }

  lemma {:induction false} MixedKindsLose(fs: seq<EventFilter>) returns (e: ContractEvent)
    requires ValidFilters(fs) && !AllOrNoneNameKinds(fs)
    ensures Matches(fs, e) && !Kept(fs, ColumnsOf(e))
  {
    var i :| 0 <= i < |fs| && fs[i].types == {};
    var kind :| !HasKind(fs, |fs|, kind);
    var id, _ := SomeChoice(fs[i]);
    e := WitnessEvent(fs[i], id, kind, 0, []);
  }

  lemma {:induction false} MixedTopicsLose(fs: seq<EventFilter>) returns (e: ContractEvent)
    requires ValidFilters(fs) && !AllOrNonePinTopics(fs)
    ensures Matches(fs, e) && !Kept(fs, ColumnsOf(e))
  {
    var i, j :| 0 <= i < |fs| && 0 <= j < |fs[i].topics| && !HasConcrete(fs[i].topics[j]);
    var id, kind := SomeChoice(fs[i]);
    e := WitnessEvent(fs[i], id, kind, j, Filler(fs));
    assert FilterMatches(fs[i], e);
    forall pos | 0 <= pos < MAX_TOPIC_COUNT && ColumnsOf(e).topic[pos].Some?
      ensures !HasPin(fs, |fs|, pos, ColumnsOf(e).topic[pos].value)
    {
      FillerUnpinned(fs, pos);
    }
  }

  /**
   The prefilter never drops an event the request asks for exactly when contract ids appear in all filters or
   none, event types likewise (or every type is named), and topics are constrained alike.
   */
  lemma {:induction false} PrefilterLossless(fs: seq<EventFilter>)
    requires ValidFilters(fs)
    ensures Lossless(fs) <==> Uniform(fs)
  {
    if Uniform(fs) {
      forall e: ContractEvent | Matches(fs, e) ensures Kept(fs, ColumnsOf(e)) {
        if fs != [] {
          var i :| 0 <= i < |fs| && FilterMatches(fs[i], e);
          UniformKeeps(fs, e, i);
        }
      }
    } else if !AllOrNoneNameContracts(fs) {
      var e := MixedContractsLose(fs);
    } else if !AllOrNoneNameKinds(fs) {
      var e := MixedKindsLose(fs);
    } else {
      var e := MixedTopicsLose(fs);
    }
  }
}
