/**
 Filters of a getEvents request (protocol/get_events.go).
 */
module EventFilters {
  import opened Wrappers
  import opened Chain

  const MAX_FILTERS := 5
  const MAX_TOPICS := 5
  const MAX_CONTRACT_IDS := 5
  const MIN_TOPIC_COUNT := 1
  const EXACTLY_ONE := "*"
  const ZERO_OR_MORE := "**"
  const TYPE_SYSTEM := "system"
  const TYPE_CONTRACT := "contract"
  const TYPE_DIAGNOSTIC := "diagnostic"

  /** A contract id as text: the strkey of some contract, or text strkey cannot decode. */
  datatype Strkey = ContractKey(id: Bytes) | NotAContract(text: string)

  datatype Segment = Segment(wildcard: Option<string>, scval: Option<ScVal>)

  type TopicFilter = seq<Segment>

  datatype EventFilter = EventFilter(types: set<string>, contractIds: seq<Strkey>, topics: seq<TopicFilter>)

  // ---- validity ----

  predicate ValidSegment(s: Segment) {
    && s.wildcard.Some? != s.scval.Some?
    && (s.wildcard.Some? ==> s.wildcard.value in {EXACTLY_ONE, ZERO_OR_MORE})
  }

  predicate TrailingZeroOrMore(t: TopicFilter) {
    t != [] && t[|t| - 1].wildcard == Some(ZERO_OR_MORE)
  }

  /** The segments that stand for one topic each. */
  function Positions(t: TopicFilter): TopicFilter {
    if TrailingZeroOrMore(t) then t[..|t| - 1] else t
  }

  predicate ValidTopic(t: TopicFilter) {
    && |t| >= MIN_TOPIC_COUNT
    && |Positions(t)| <= MAX_TOPIC_COUNT
    && forall i :: 0 <= i < |Positions(t)| ==> t[i].wildcard != Some(ZERO_OR_MORE) && ValidSegment(t[i])
  }

  predicate ValidFilter(f: EventFilter) {
    && f.types <= {TYPE_SYSTEM, TYPE_CONTRACT, TYPE_DIAGNOSTIC}
    && |f.contractIds| <= MAX_CONTRACT_IDS
    && |f.topics| <= MAX_TOPICS
    && (forall i :: 0 <= i < |f.contractIds| ==> f.contractIds[i].ContractKey?)
    && (forall i :: 0 <= i < |f.topics| ==> ValidTopic(f.topics[i]))
  }

  predicate ValidFilters(fs: seq<EventFilter>) {
    && |fs| <= MAX_FILTERS
    && forall i :: 0 <= i < |fs| ==> ValidFilter(fs[i])
  }

  // ---- matching ----

  function TypeName(k: EventKind): string {
    match k
    case System => TYPE_SYSTEM
    case Contract => TYPE_CONTRACT
    case Diagnostic => TYPE_DIAGNOSTIC
  }

  predicate SegmentMatches(s: Segment, v: ScVal)
    requires ValidSegment(s)
  {
    s.wildcard.Some? || s.scval == Some(v)
  }

  predicate TopicMatches(t: TopicFilter, event: seq<ScVal>)
    requires ValidTopic(t)
  {
    && (if TrailingZeroOrMore(t) then |event| >= |t| - 1 else |event| == |t|)
    && forall i :: 0 <= i < |Positions(t)| ==> SegmentMatches(t[i], event[i])
  }

  predicate FilterMatches(f: EventFilter, e: ContractEvent)
    requires ValidFilter(f)
  {
    && (f.types == {} || TypeName(e.kind) in f.types)
    && (f.contractIds == [] || (e.contractId.Some? && ContractKey(e.contractId.value) in f.contractIds))
    && (f.topics == [] || exists i :: 0 <= i < |f.topics| && TopicMatches(f.topics[i], e.topics))
  }

  /** Which events a request asks for. */
  predicate Matches(fs: seq<EventFilter>, e: ContractEvent)
    requires ValidFilters(fs)
  {
    fs == [] || exists i :: 0 <= i < |fs| && FilterMatches(fs[i], e)
  }

  // ---- what a filter list means ----

  /** A filter that names several contracts accepts what it accepts for one of them. */
  lemma {:induction false} ContractChoice(f: EventFilter, e: ContractEvent)
    requires ValidFilter(f) && f.contractIds != []
    ensures forall i :: 0 <= i < |f.contractIds| ==> ValidFilter(f.(contractIds := [f.contractIds[i]]))
    ensures FilterMatches(f, e)
       <==> exists i :: 0 <= i < |f.contractIds| && FilterMatches(f.(contractIds := [f.contractIds[i]]), e)
  {
    if FilterMatches(f, e) {
      var i :| 0 <= i < |f.contractIds| && f.contractIds[i] == ContractKey(e.contractId.value);
      assert FilterMatches(f.(contractIds := [f.contractIds[i]]), e);
    }
  }

  /** For one contract, the event carries exactly that id, and the rest of the filter matches. */
  lemma {:induction false} ContractChosen(f: EventFilter, id: Bytes, e: ContractEvent)
    requires ValidFilter(f) && f.contractIds == [ContractKey(id)]
    ensures FilterMatches(f, e) <==> e.contractId == Some(id) && FilterMatches(f.(contractIds := []), e)
  {
  }

  /** The same for types. */
  lemma {:induction false} TypeChoice(f: EventFilter, e: ContractEvent)
    requires ValidFilter(f) && f.types != {}
    ensures forall name :: name in f.types ==> ValidFilter(f.(types := {name}))
    ensures FilterMatches(f, e) <==> exists name :: name in f.types && FilterMatches(f.(types := {name}), e)
  {
    if FilterMatches(f, e) { assert FilterMatches(f.(types := {TypeName(e.kind)}), e); }
  }

  lemma {:induction false} TypeChosen(f: EventFilter, name: string, e: ContractEvent)
    requires ValidFilter(f) && f.types == {name}
    ensures FilterMatches(f, e) <==>
      && ((name == "system" && e.kind == System) || (name == "contract" && e.kind == Contract)
          || (name == "diagnostic" && e.kind == Diagnostic))
      && FilterMatches(f.(types := {}), e)
  {
  }

  /** The same for topic filters. */
  lemma {:induction false} TopicChoice(f: EventFilter, e: ContractEvent)
    requires ValidFilter(f) && f.topics != []
    ensures forall i :: 0 <= i < |f.topics| ==> ValidFilter(f.(topics := [f.topics[i]]))
    ensures FilterMatches(f, e) <==> exists i :: 0 <= i < |f.topics| && FilterMatches(f.(topics := [f.topics[i]]), e)
  {
    if FilterMatches(f, e) {
      var i :| 0 <= i < |f.topics| && TopicMatches(f.topics[i], e.topics);
      assert [f.topics[i]][0] == f.topics[i];
      assert FilterMatches(f.(topics := [f.topics[i]]), e);
    }
  }

  lemma {:induction false} TopicChosen(f: EventFilter, t: TopicFilter, e: ContractEvent)
    requires ValidFilter(f) && f.topics == [t]
    ensures OnlyLastFlexible(t)
    ensures FilterMatches(f, e) <==> Reads(t, e.topics) && FilterMatches(f.(topics := []), e)
  {
    assert f.topics[0] == t;
    TopicMatchesReads(t, e.topics);
  }

  /** A filter that names nothing accepts everything, and so does an empty list; a longer one is a choice of filters. */
  lemma {:induction false} ListChoice(fs: seq<EventFilter>, e: ContractEvent)
    requires ValidFilters(fs)
    ensures fs == [] ==> Matches(fs, e)
    ensures fs != [] ==> (Matches(fs, e) <==> exists f :: f in fs && ValidFilter(f) && FilterMatches(f, e))
    ensures FilterMatches(EventFilter({}, [], []), e)
  {
    if fs != [] && Matches(fs, e) {
      var i :| 0 <= i < |fs| && FilterMatches(fs[i], e);
      assert fs[i] in fs;
    }
  }

  /** A valid list has at most five filters, each with at most five contracts and five topic filters of known form. */
  lemma {:induction false} ListLimits(fs: seq<EventFilter>)
    ensures ValidFilters(fs) <==>
      && |fs| <= 5
      && forall f :: f in fs ==>
           && f.types <= {"system", "contract", "diagnostic"} && |f.contractIds| <= 5 && |f.topics| <= 5
           && (forall id :: id in f.contractIds ==> id.ContractKey?)
           && forall t :: t in f.topics ==> 1 <= |t| && |Positions(t)| <= 4 && ValidTopic(t)
  {
    if ValidFilters(fs) {
      forall f | f in fs ensures ValidFilter(f) { var i :| 0 <= i < |fs| && fs[i] == f; }
    }
  }

  // ---- what a topic filter means ----

  /** Segment by segment; "**" stands for any number of topics. */
  ghost predicate Reads(t: TopicFilter, event: seq<ScVal>)
    requires forall i :: 0 <= i < |t| ==> t[i].wildcard == Some(ZERO_OR_MORE) || ValidSegment(t[i])
    decreases |t|
  {
    if t == [] then event == []
    else if t[0].wildcard == Some(ZERO_OR_MORE) then exists k :: 0 <= k <= |event| && Reads(t[1..], event[k..])
    else event != [] && SegmentMatches(t[0], event[0]) && Reads(t[1..], event[1..])
  }

  /** Every segment but the last stands for one topic. */
  predicate OnlyLastFlexible(t: TopicFilter) {
    forall i :: 0 <= i < |t| ==>
      if t[i].wildcard == Some(ZERO_OR_MORE) then i == |t| - 1 else ValidSegment(t[i])
  }

  predicate LengthFits(t: TopicFilter, event: seq<ScVal>) {
    if TrailingZeroOrMore(t) then |event| >= |t| - 1 else |event| == |t|
  }

  lemma {:induction false} ReadsPositions(t: TopicFilter, event: seq<ScVal>)
    requires OnlyLastFlexible(t)
    ensures Reads(t, event) <==>
      LengthFits(t, event) && forall i :: 0 <= i < |Positions(t)| ==> SegmentMatches(t[i], event[i])
    decreases |t|
  {
    if t == [] {
    } else if t[0].wildcard == Some(ZERO_OR_MORE) {
      assert t[1..] == [] && event[|event|..] == [];
      assert Reads(t[1..], event[|event|..]);
    } else if event != [] {
      ReadsPositions(t[1..], event[1..]);
      assert TrailingZeroOrMore(t) <==> TrailingZeroOrMore(t[1..]);
      assert LengthFits(t, event) <==> LengthFits(t[1..], event[1..]);
      forall i | 0 <= i < |Positions(t)| && LengthFits(t, event)
        ensures SegmentMatches(t[i], event[i]) <==>
                if i == 0 then SegmentMatches(t[0], event[0]) else SegmentMatches(t[1..][i - 1], event[1..][i - 1])
      {
      }
    }
  }

  /** The length test and the loop over the positions decide what the filter says, read from left to right. */
  lemma {:induction false} TopicMatchesReads(t: TopicFilter, event: seq<ScVal>)
    requires ValidTopic(t)
    ensures OnlyLastFlexible(t) && (TopicMatches(t, event) <==> Reads(t, event))
  {
    ReadsPositions(t, event);
  }
}
