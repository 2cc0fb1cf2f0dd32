/** What a node has handed to its state machine is never taken back and never handed out twice. */
module RaftApply {
  import opened Basics
  import opened RaftTypes
  import opened RaftLedger
  import opened RaftNode
  import opened RaftCluster
  import opened RaftTheorems

  /** Nothing handed out is forgotten, and the starting point stays. */
  ghost predicate HandsOn(n: Node, n': Node) {
    n'.bootIndex == n.bootIndex && n.handed <= n'.handed
  }

  lemma ApplyHandsOn(n: Node)
    ensures HandsOn(n, Apply(n))
  {
  }

  lemma AcceptedHands(m: Node, req: AppendArgs)
    requires req.prevLogIndex <= |m.log|
    ensures HandsOn(m, Accepted(m, req).node)
  {
    ApplyHandsOn(CommitTo(m.(log := Merge(m.log, req.prevLogIndex, req.entries)), req.leaderCommit));
  }

  lemma HandleAppendHands(n: Node, req: AppendArgs, d: Disk)
    ensures HandsOn(n, HandleAppend(n, req, d).node)
  {
    if req.prevLogIndex <= |n.log| {
      AcceptedHands((if req.term > n.currentTerm then StepDown(n, req.term, d) else n).(role := Follower), req);
    }
  }

  lemma HandleReplyHands(n: Node, id: NodeId, members: set<NodeId>, req: AppendArgs, peer: NodeId, r: AppendReply,
                         d: Disk)
    ensures HandsOn(n, HandleAppendReply(n, id, members, req, peer, r, d).node)
  {
  }

  lemma ElectionHands(n: Node, id: NodeId, members: set<NodeId>, d: Disk)
    ensures HandsOn(n, StartElection(n, id, members, d))
  {
  }

  lemma VoteHands(n: Node, req: VoteArgs, d: Disk, d': Disk)
    ensures HandsOn(n, HandleVote(n, req, d, d').0)
  {
  }

  lemma VoteReplyHands(n: Node, id: NodeId, members: set<NodeId>, req: VoteArgs, voter: NodeId, r: VoteReply, d: Disk)
    ensures HandsOn(n, HandleVoteReply(n, id, members, req, voter, r, d))
  {
  }

  lemma ActHands(g: Ledger, n: Node, a: Action)
    requires !a.Crash?
    ensures HandsOn(n, Act(g, n, a).node)
  {
    match a
    case Timeout(v, d) => ElectionHands(n, v, g.members, d);
    case GetVoteReq(v, args, d, d') => VoteHands(n, args, d, d');
    case GetVoteResp(v, args, voter, r, d) => VoteReplyHands(n, v, g.members, args, voter, r, d);
    case GetAppendReq(v, args, d) => HandleAppendHands(n, args, d);
    case GetAppendResp(v, args, peer, r, d) => HandleReplyHands(n, v, g.members, args, peer, r, d);
    case _ =>
  }

  lemma StepHands(c: Cluster, a: Action, v: NodeId)
    requires Enabled(c, a) && v in c.nodes && !(a.Crash? && a.node == v)
    ensures v in Do(c, a).nodes && HandsOn(c.nodes[v], Do(c, a).nodes[v])
  {
    if a.node == v {
      ActHands(c.ledger, c.nodes[v], a);
    }
  }

  /** Over one lifetime of the process at v, what it hands out only grows at the end, in every run. */
  lemma {:induction false} HandedOnlyGrows(members: set<NodeId>, r: History, i: nat, j: nat, v: NodeId)
    requires IsRun(members, r) && i <= j && Present(r, i, v) && j < |r.states|
    requires forall k :: i <= k < j ==> !(r.actions[k].Crash? && r.actions[k].node == v)
    ensures Present(r, j, v) && HandsOn(At(r, i, v), At(r, j, v))
    decreases j
  {
    if i < j {
      HandedOnlyGrows(members, r, i, j - 1, v);
      assert Next(r.states[j - 1], r.actions[j - 1], r.states[j - 1 + 1]);
      StepHands(r.states[j - 1], r.actions[j - 1], v);
    }
  }
}
