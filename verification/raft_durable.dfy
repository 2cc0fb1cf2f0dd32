/** The stable store never goes back: not in its term, and not in a vote it has recorded for a term. */
module RaftDurable {
  import opened Basics
  import opened RaftTypes
  import opened RaftLedger
  import opened RaftNode
  import opened RaftCluster
  import opened RaftElection

  ghost predicate NotUndone(s: Stable, s': Stable) {
    s.term <= s'.term && (s.term == s'.term && s.votedFor != NO_NODE ==> s' == s)
  }

  /** What is in memory does not contradict what is on disk. */
  ghost predicate Consistent(n: Node) {
    && n.stable.term <= n.currentTerm
    && (n.stable.term == n.currentTerm && n.stable.votedFor != NO_NODE ==> n.votedFor == n.stable.votedFor)
  }

  lemma VoteKeepsDisk(n: Node, req: VoteArgs, d: Disk, d': Disk)
    requires Consistent(n)
    ensures NotUndone(n.stable, HandleVote(n, req, d, d').0.stable)
  {
  }

  lemma ElectionKeepsDisk(n: Node, id: NodeId, members: set<NodeId>, req: VoteArgs, voter: NodeId, r: VoteReply,
                          d: Disk)
    requires Consistent(n)
    ensures NotUndone(n.stable, StartElection(n, id, members, d).stable)
    ensures NotUndone(n.stable, HandleVoteReply(n, id, members, req, voter, r, d).stable)
  {
  }

  lemma AppendKeepsDisk(n: Node, req: AppendArgs, d: Disk)
    requires Consistent(n)
    ensures NotUndone(n.stable, HandleAppend(n, req, d).node.stable)
  {
    if req.term <= n.currentTerm {
      if Matches(n, req) {
        MatchedHandled(n, req, d);
      } else {
        UnmatchedHandled(n, req, d);
      }
    } else if d.Stored? {
      HigherTermHandled(n, req, d);
      var m := StepDown(n, req.term, d);
      if Matches(m, req) {
        MatchedHandled(m, req, d);
      } else {
        UnmatchedHandled(m, req, d);
      }
    }
  }

  lemma AppendReplyKeepsDisk(n: Node, id: NodeId, members: set<NodeId>, req: AppendArgs, peer: NodeId, r: AppendReply,
                             d: Disk)
    requires Consistent(n)
    ensures NotUndone(n.stable, HandleAppendReply(n, id, members, req, peer, r, d).node.stable)
  {
    AppendReplyShape(n, id, members, req, peer, r, d);
  }

  lemma ActKeepsDisk(g: Ledger, n: Node, a: Action)
    requires Consistent(n)
    ensures NotUndone(n.stable, Act(g, n, a).node.stable)
  {
    match a
    case Timeout(v, d) => ElectionKeepsDisk(n, v, g.members, VoteArgs(0, v, 0, 0), v, VoteReply(0, false), d);
    case GetVoteReq(v, args, d, d') => VoteKeepsDisk(n, args, d, d');
    case GetVoteResp(v, args, voter, r, d) => ElectionKeepsDisk(n, v, g.members, args, voter, r, d);
    case GetAppendReq(v, args, d) => AppendKeepsDisk(n, args, d);
    case GetAppendResp(v, args, peer, r, d) => AppendReplyKeepsDisk(n, v, g.members, args, peer, r, d);
    case _ =>
  }

  lemma NodesConsistent(c: Cluster, v: NodeId)
    requires ElectInv(c) && v in c.nodes
    ensures Consistent(c.nodes[v])
  {
    assert NodeElect(c.ledger, v, c.nodes[v]);
  }

  lemma StepKeepsDisk(c: Cluster, a: Action, v: NodeId)
    requires Enabled(c, a) && v in c.nodes && Consistent(c.nodes[v])
    ensures v in Do(c, a).nodes && NotUndone(c.nodes[v].stable, Do(c, a).nodes[v].stable)
  {
    if a.node == v {
      ActKeepsDisk(c.ledger, c.nodes[v], a);
    }
  }

  lemma DiskStep(members: set<NodeId>, r: History, i: nat, j: nat, v: NodeId)
    requires IsRun(members, r) && i + 1 == j < |r.states| && v in r.states[i].nodes
    ensures v in r.states[j].nodes && NotUndone(r.states[i].nodes[v].stable, r.states[j].nodes[v].stable)
  {
    RunElects(members, r, i);
    NodesConsistent(r.states[i], v);
    StepInAnyRun(members, r, i, j);
    StepKeepsDisk(r.states[i], r.actions[i], v);
  }

  /** In every run, whatever the stable store does, a recorded vote is never taken back. */
  lemma {:induction false} DiskNeverGoesBack(members: set<NodeId>, r: History, i: nat, j: nat, v: NodeId)
    requires IsRun(members, r) && i <= j < |r.states| && v in r.states[i].nodes
    ensures v in r.states[j].nodes && NotUndone(r.states[i].nodes[v].stable, r.states[j].nodes[v].stable)
    decreases j
  {
    if i < j {
      DiskNeverGoesBack(members, r, i, j - 1, v);
      DiskStep(members, r, j - 1, j, v);
    }
  }

  lemma StepInAnyRun(members: set<NodeId>, r: History, i: nat, j: nat)
    requires IsRun(members, r) && i + 1 == j < |r.states|
    ensures Enabled(r.states[i], r.actions[i]) && r.states[j] == Do(r.states[i], r.actions[i])
  {
    assert Next(r.states[i], r.actions[i], r.states[i + 1]);
  }
}
