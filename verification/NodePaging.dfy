/** The paging client's view of the service: what getEvents reads is what ingestion maintains. */
module NodePaging {
  import opened Chain
  import opened EventStore
  import opened Tables
  import opened Retention
  import opened FeeBuckets
  import opened Storage
  import Node = NodeRuns
  import NodeResults
  import EventPaging

  /** The client sees the history and the dropped prefix that the service has come to. */
  ghost predicate Sees(s: EventPaging.World, w: Node.World) {
    s.history == w.trace.history && s.dropped == w.trace.dropped
  }

  /** The view after the service has moved on. */
  function Refreshed(s: EventPaging.World, w: Node.World): EventPaging.World {
    s.(history := w.trace.history, dropped := w.trace.dropped)
  }

  /** A commit of the service is a commit of the paging protocol; every other step is none. */
  lemma {:induction false} StepSeen(w: Node.World, a: Node.Action, s: EventPaging.World)
    requires Node.Inv(w) && Node.Healthy(w.node) && Node.Possible(w.node, a) && w.trace.dropped <= |w.trace.history|
    requires Sees(s, w) && s.history != []
    ensures if Node.Committed(w.node, a) then EventPaging.Commit(s, Refreshed(s, Node.After(w, a)))
            else Refreshed(s, Node.After(w, a)) == s
  {
    hide DiskHolds, Contiguous, RowsWellFormed, Node.FeesOk, Node.CacheOk;
    hide Written, Trimmed, EndOfStartup, IngestFees, Node.Step;
    Node.StepKeeps(w, a);
    var w' := Node.After(w, a);
    if Node.Committed(w.node, a) {
      Node.CommitHasEffect(w, a);
      assert w'.trace.history[..|s.history|] == s.history;
    }
  }

  /**
   What a page reads from a running service: the cached latest ledger and the oldest row are those of the paging
   protocol. So is the event table, if and only if no stored ledger before its floor has events.
   */
  lemma {:induction false} ReadsSeen(ws: seq<Node.World>, s: EventPaging.World)
    requires Node.IsRun(ws) && Sees(s, NodeResults.Last(ws)) && NodeResults.Last(ws).node.process.Up?
    requires EventPaging.WellFormedWorld(s)
    ensures var (d, p, t) := (NodeResults.Last(ws).node.disk, NodeResults.Last(ws).node.process,
      NodeResults.Last(ws).trace);
            && p.cache.sequence == EventPaging.Latest(s) == Latest(d.ledgers)
            && EventPaging.Oldest(s) in d.ledgers && (forall k :: k in d.ledgers ==> EventPaging.Oldest(s) <= k)
            && (Holds(d.events, s.Stored()) <==>
                  EventsOf(Node.StoredOf(t)[..Before(Node.StoredOf(t), t.coverage.eventFloor)]) == [])
  {
    hide Holds, TxsHold, TxsHoldBeside, EventsOf, Node.FeesOk, Before, Since, RowsWellFormed;
    var w := NodeResults.Last(ws);
    NodeResults.StoredInterval(ws);
    NodeResults.UpMigrated(ws);
    Node.LatestOfStored(w);
    forall k ensures k in w.node.disk.ledgers ==> EventPaging.Oldest(s) <= k {
      Stored(w.node.disk.ledgers, Node.StoredOf(w.trace), k);
    }
    Stored(w.node.disk.ledgers, Node.StoredOf(w.trace), EventPaging.Oldest(s));
    NodeResults.EventRowsExact(w.node.disk.events, Node.StoredOf(w.trace), w.trace.coverage.eventFloor);
  }

  /** A service started from an empty database always has the paging protocol's event table. */
  lemma {:induction false} BuiltSeen(ws: seq<Node.World>, s: EventPaging.World)
    requires Node.IsRun(ws) && ws[0].node.disk == EMPTY_DISK && ws[0].trace.history == []
    requires Sees(s, NodeResults.Last(ws)) && EventPaging.WellFormedWorld(s)
    ensures Holds(NodeResults.Last(ws).node.disk.events, s.Stored())
  {
    hide Holds, TxsHold, EventsOf;
    NodeResults.BuiltExact(ws);
  }
}
