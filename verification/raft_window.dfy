/**
 * Compaction drops the lock between compacting the write-ahead log and raising the snapshot
 * index. Requests built in that window see a log compacted past the snapshot index.
 */
module RaftWindow {
  import opened Basics
  import opened RaftTypes
  import opened RaftLedger
  import opened RaftNode
  import opened RaftCluster
  import opened RaftSafety
  import opened RaftSafetySteps
  import opened RaftTheorems
  import opened RaftRuns

  /**
   * The request built for one peer while the log store is compacted up to `compacted`. The probe
   * at the snapshot index needs no log entry, and reading entries stops at the first that is gone.
   */
  function WindowAppend(n: Node, compacted: nat, id: NodeId, peer: NodeId): Option<AppendArgs> {
    var next := NextFor(n, peer);
    var prev := next - 1;
    if next <= n.snapIndex || (prev != n.snapIndex && prev <= compacted) || prev > |n.log| then None
    else Some(AppendArgs(n.currentTerm, id, prev, TermAt(n.log, prev),
                         if next <= compacted then [] else n.log[prev..], n.commitIndex))
  }

  /** Outside the window this is the request the protocol uses. */
  lemma OutsideWindow(n: Node, id: NodeId, peer: NodeId)
    ensures WindowAppend(n, n.snapIndex, id, peer) == BuildAppend(n, id, peer)
  {
  }

  /** The peer's next index is the first one, and the window has opened behind it. */
  predicate Exposed(n: Node, compacted: nat, peer: NodeId) {
    n.snapIndex < compacted && NextFor(n, peer) == n.snapIndex + 1
  }

  /** A request built in the window covers the commit index it carries unless the peer is exposed. */
  lemma WindowCoverage(n: Node, compacted: nat, id: NodeId, peer: NodeId)
    requires n.snapIndex <= compacted <= n.commitIndex <= |n.log|
    requires WindowAppend(n, compacted, id, peer).Some?
    ensures var req := WindowAppend(n, compacted, id, peer).value;
            req.leaderCommit <= Reach(req) <==> !Exposed(n, compacted, peer)
  {
  }

  /** Where it does, it is the request of the protocol. */
  lemma UnexposedIsWhole(n: Node, compacted: nat, id: NodeId, peer: NodeId)
    requires n.snapIndex <= compacted && WindowAppend(n, compacted, id, peer).Some? && !Exposed(n, compacted, peer)
    ensures WindowAppend(n, compacted, id, peer) == BuildAppend(n, id, peer)
  {
  }

  /**
   * In every clean run, with the log of a leader compacted up to anything it has applied, a
   * request built for a peer is one the safety of the log rests on if and only if the peer's
   * next index is not the one right after the old snapshot.
   */
  lemma WindowSafeIff(members: set<NodeId>, r: History, i: nat, v: NodeId, compacted: nat, peer: NodeId)
    requires IsCleanRun(members, r) && Present(r, i, v) && At(r, i, v).role.Leader?
    requires At(r, i, v).snapIndex <= compacted <= At(r, i, v).lastApplied
    requires WindowAppend(At(r, i, v), compacted, v, peer).Some?
    ensures ArgsSafe(r.states[i].ledger, WindowAppend(At(r, i, v), compacted, v, peer).value)
            <==> !Exposed(At(r, i, v), compacted, peer)
  {
    var (n, g) := (At(r, i, v), r.states[i].ledger);
    AppliesInOrder(members, r, i, v);
    WindowCoverage(n, compacted, v, peer);
    if !Exposed(n, compacted, peer) {
      RunSafe(members, r, i);
      assert NodeSafe(g, v, n) && Mirrors(g, v, n);
      UnexposedIsWhole(n, compacted, v, peer);
      RequestSafe(g, v, n, peer);
    }
  }

  /* ---------- What an exposed peer can do ---------- */

  /** Two nodes of the leader's term take over its only entry. */
  lemma BothTake(members: set<NodeId>, r: History, nodes: map<NodeId, Node>, net: set<Msg>, d: NodeId, e: NodeId,
                 ask: AppendArgs, entry: Entry, yes: AppendReply) returns (s: History, nodes': map<NodeId, Node>)
    requires Arrived(members, r, nodes, net) && d in members && e in members && d != e
    requires AppendReq(d, ask) in net && AppendReq(e, ask) in net && Blank(nodes[d]) && Blank(nodes[e])
    requires nodes[d].currentTerm == nodes[e].currentTerm == ask.term
    requires ask == AppendArgs(ask.term, ask.leader, 0, 0, [entry], 0)
    requires yes == AppendReply(ask.term, true, 0, 0)
    ensures Arrived(members, s, nodes', net + {AppendResp(d, ask, yes)} + {AppendResp(e, ask, yes)})
    ensures forall w :: w in members && w != d && w != e ==> nodes'[w] == nodes[w]
  {
    var nodes1 := nodes[d := nodes[d].(role := Follower, log := [entry])];
    s := Takes(members, r, nodes, net, d, ask, entry);
    s := Takes(members, s, nodes1, net + {AppendResp(d, ask, yes)}, e, ask, entry);
    nodes' := nodes1[e := nodes[e].(role := Follower, log := [entry])];
  }

  /** d and e are asked for the entry c wrote in term 2, and take it. */
  lemma SecondTaken(members: set<NodeId>, a: NodeId, b: NodeId, c: NodeId, d: NodeId, e: NodeId, x: Call, y: Call,
                    ask: AppendArgs, yes: AppendReply) returns (r: History, nodes: map<NodeId, Node>)
    requires Cast(members, a, b, c, d, e) && ask == Ask(c, 2, y) && yes == AppendReply(2, true, 0, 0)
    ensures Arrived(members, r, nodes, {AppendResp(d, ask, yes), AppendResp(e, ask, yes)})
    ensures LeadsWith(nodes[a], members, 1, Entry(1, 1, x.data)) && LeadsWith(nodes[c], members, 2, Entry(1, 2, y.data))
  {
    r, nodes := SecondReign(members, a, b, c, d, e, x, y);
    r := Asks(members, r, nodes, {AppendReq(d, ask)}, c, e, 2, Entry(1, 2, y.data));
    r, nodes := BothTake(members, r, nodes, {AppendReq(d, ask)} + {AppendReq(e, ask)}, d, e, ask, Entry(1, 2, y.data),
                         yes);
  }

  /** So c commits and applies it, while a still has its own entry of term 1. */
  lemma SecondCommits(members: set<NodeId>, a: NodeId, b: NodeId, c: NodeId, d: NodeId, e: NodeId, x: Call, y: Call)
      returns (r: History, nodes: map<NodeId, Node>)
    requires Cast(members, a, b, c, d, e)
    ensures Arrived(members, r, nodes, {}) && LeadsWith(nodes[a], members, 1, Entry(1, 1, x.data))
    ensures nodes[c].role.Leader? && nodes[c].currentTerm == 2 && nodes[c].log == [Entry(1, 2, y.data)]
    ensures nodes[c].snapIndex == 0 && nodes[c].commitIndex == nodes[c].lastApplied == 1 && NextFor(nodes[c], a) == 1
  {
    var (ask, yes) := (Ask(c, 2, y), AppendReply(2, true, 0, 0));
    r, nodes := SecondTaken(members, a, b, c, d, e, x, y, ask, yes);
    var n;
    r, n := Commits(members, r, nodes, {AppendResp(d, ask, yes), AppendResp(e, ask, yes)}, c, d, e, 2,
                    Entry(1, 2, y.data), ask, yes);
    nodes := nodes[c := n];
  }

  /**
   * A run in which an exposed peer commits an entry the leader never had: the leader compacts its
   * only entry, sends the peer nothing but its commit index, and the peer commits its own.
   */
  lemma CommitsUnmatched() returns (members: set<NodeId>, r: History, v: NodeId, w: NodeId, compacted: nat)
    ensures IsRun(members, r) && Present(r, |r.states| - 1, v) && Present(r, |r.states| - 1, w)
    ensures var (lead, peer) := (At(r, |r.states| - 1, v), At(r, |r.states| - 1, w));
            && lead.role.Leader? && lead.snapIndex < compacted == Compact(lead, 1).snapIndex
            && Exposed(lead, compacted, w)
            && WindowAppend(lead, compacted, v, w).Some?
            && var after := HandleAppend(peer, WindowAppend(lead, compacted, v, w).value, Stored).node;
               0 < after.commitIndex <= |after.log| && 0 < |lead.log| && after.log[0] != lead.log[0]
               && after.lastApplied == 1
  {
    members := {"a", "b", "c", "d", "e"};
    assert |members| == 5;
    v, w, compacted := "c", "a", 1;
    var nodes;
    r, nodes := SecondCommits(members, "a", "b", "c", "d", "e", Call(0, []), Call(1, []));
    assert Last(r).nodes == nodes;
    PeerCommits(nodes[v], nodes[w], v, w, Entry(1, 2, []), Entry(1, 1, []));
  }

  lemma PeerCommits(lead: Node, peer: Node, v: NodeId, w: NodeId, mine: Entry, theirs: Entry)
    requires lead.role.Leader? && lead.log == [mine] && lead.snapIndex == 0 && lead.commitIndex == lead.lastApplied == 1
    requires NextFor(lead, w) == 1 && peer.currentTerm < lead.currentTerm
    requires peer.log == [theirs] && peer.snapIndex == peer.commitIndex == peer.lastApplied == 0
    ensures WindowAppend(lead, 1, v, w) == Some(AppendArgs(lead.currentTerm, v, 0, 0, [], 1))
    ensures var after := HandleAppend(peer, AppendArgs(lead.currentTerm, v, 0, 0, [], 1), Stored).node;
            after.commitIndex == after.lastApplied == 1 && after.log == [theirs]
  {
  }
}
