/**
 * Where a leader probes next: in every clean run its next indexes stay within one past its log,
 * because a rejection never points further than the log of the leader it answers.
 */
module RaftNext {
  import opened Basics
  import opened RaftTypes
  import opened RaftLedger
  import opened RaftLedgerSteps
  import opened RaftLedgerProof
  import opened RaftNode
  import opened RaftCluster
  import opened RaftElection
  import opened RaftSafety
  import opened RaftSafetyLedger
  import opened RaftSafetySteps
  import opened RaftTheorems

  /** A leader knows where to probe every member, and that is at most one past its log. */
  ghost predicate Probing(n: Node, members: set<NodeId>) {
    n.role.Leader? ==> members <= n.nextIndex.Keys && forall p :: p in n.nextIndex ==> n.nextIndex[p] <= |n.log| + 1
  }

  /** A rejection points at most one past the log of the leader it answers. */
  ghost predicate Hint(g: Ledger, m: Msg) {
    match m
    case AppendResp(_, a, r) => a.term in g.reign && r.conflictIndex <= |g.reign[a.term].log| + 1
    case _ => true
  }

  ghost predicate ProbeInv(c: Cluster) {
    && (forall v :: v in c.nodes ==> Probing(c.nodes[v], c.nodes.Keys))
    && (forall m :: m in c.net ==> Hint(c.ledger, m))
  }

  /* ---------- Rejections ---------- */

  /** What a node has compacted is in the log of the leader of its term or a later one. */
  lemma SnapshotInLeader(g: Ledger, v: NodeId, n: Node, t: nat)
    requires ReignLogs(g) && Complete(g) && NodeSafe(g, v, n) && g.term[v] <= t && t in g.reign
    ensures n.snapIndex <= |g.reign[t].log|
  {
    LeaderHoldsCommitted(g, n.log[..n.commitIndex], g.term[v], t);
  }

  lemma RejectionHint(g: Ledger, v: NodeId, n: Node, req: AppendArgs, d: Disk)
    requires ReignLogs(g) && Complete(g) && NodeSafe(g, v, n) && Mirrors(g, v, n) && ArgsSafe(g, req)
    ensures var r := HandleAppend(n, req, d).reply;
            r.Some? ==> r.value.conflictIndex <= |g.reign[req.term].log| + 1
  {
    if n.currentTerm <= req.term {
      SnapshotInLeader(g, v, n, req.term);
    }
  }

  /* ---------- Leaders ---------- */

  lemma AdvanceProbes(n: Node, id: NodeId, members: set<NodeId>)
    ensures var m := AdvanceCommit(n, id, members).node;
            m.nextIndex == n.nextIndex && m.log == n.log && m.role == n.role
  {
  }

  lemma MatchProbes(n: Node, id: NodeId, members: set<NodeId>, peer: NodeId, matched: nat)
    requires Probing(n, members) && matched <= |n.log|
    ensures var k := n.(matchIndex := n.matchIndex[peer := matched], nextIndex := n.nextIndex[peer := matched + 1]);
            Probing(AdvanceCommit(k, id, members).node, members)
  {
    AdvanceProbes(n.(matchIndex := n.matchIndex[peer := matched], nextIndex := n.nextIndex[peer := matched + 1]), id,
                  members);
  }

  lemma RetreatProbes(n: Node, members: set<NodeId>, peer: NodeId, r: AppendReply)
    requires Probing(n, members) && r.conflictIndex <= |n.log| + 1
    ensures Probing(n.(nextIndex := n.nextIndex[peer := Retreat(n, peer, r)]), members)
  {
  }

  lemma ReplyProbes(n: Node, id: NodeId, members: set<NodeId>, req: AppendArgs, peer: NodeId, r: AppendReply, d: Disk)
    requires Probing(n, members)
    requires n.role.Leader? && n.currentTerm == req.term ==> MatchedBy(req) <= |n.log| && r.conflictIndex <= |n.log| + 1
    ensures Probing(HandleAppendReply(n, id, members, req, peer, r, d).node, members)
  {
    if n.role.Leader? && n.currentTerm == req.term && r.term <= n.currentTerm {
      if r.success {
        MatchProbes(n, id, members, peer, MatchedBy(req));
      } else {
        RetreatProbes(n, members, peer, r);
      }
    }
  }

  lemma LeaderProbes(n: Node, id: NodeId, members: set<NodeId>)
    ensures Probing(BecomeLeader(n, id, members), members)
  {
  }

  lemma StartProbes(n: Node, id: NodeId, members: set<NodeId>, d: Disk)
    ensures Probing(StartElection(n, id, members, d), members)
  {
    LeaderProbes(Persist(n.(role := Candidate, currentTerm := n.currentTerm + 1, votedFor := id, votes := {id}), d), id,
                 members);
  }

  lemma VoteReplyProbes(n: Node, id: NodeId, members: set<NodeId>, req: VoteArgs, voter: NodeId, r: VoteReply, d: Disk)
    requires Probing(n, members)
    ensures Probing(HandleVoteReply(n, id, members, req, voter, r, d), members)
  {
    LeaderProbes(n.(votes := n.votes + {voter}), id, members);
  }

  lemma VoteProbes(n: Node, members: set<NodeId>, req: VoteArgs, d: Disk, d': Disk)
    requires Probing(n, members)
    ensures Probing(HandleVote(n, req, d, d').0, members)
  {
  }

  lemma SubmitProbes(n: Node, members: set<NodeId>, call: Call, maxBatch: int)
    requires Probing(n, members)
    ensures Probing(Submit(n, call, maxBatch), members) && Probing(Flush(n), members)
  {
  }

  /** A node that does not become or stay leader has nothing to keep; one that does keeps its next indexes. */
  lemma OtherProbes(g: Ledger, n: Node, a: Action)
    requires Probing(n, g.members) && !a.GetAppendReq? && !a.GetAppendResp?
    ensures Probing(Act(g, n, a).node, g.members)
  {
    match a
    case Timeout(v, d) => StartProbes(n, v, g.members, d);
    case GetVoteReq(v, args, d, d') => VoteProbes(n, g.members, args, d, d');
    case GetVoteResp(v, args, voter, r, d) => VoteReplyProbes(n, v, g.members, args, voter, r, d);
    case Propose(v, call, maxBatch) => SubmitProbes(n, g.members, call, maxBatch);
    case BatchTick(v) => SubmitProbes(n, g.members, Call(0, []), 0);
    case _ =>
  }

  lemma HeardProbes(n: Node, members: set<NodeId>, req: AppendArgs, d: Disk)
    requires Probing(n, members)
    ensures Probing(HandleAppend(n, req, d).node, members)
  {
    if req.term < n.currentTerm {
    } else if req.term == n.currentTerm {
      if Matches(n, req) {
        MatchedHandled(n, req, d);
      } else {
        UnmatchedHandled(n, req, d);
      }
    } else if d.Stored? {
      HigherTermHandled(n, req, d);
      var m := StepDown(n, req.term, d);
      if Matches(m, req) {
        MatchedHandled(m, req, d);
      } else {
        UnmatchedHandled(m, req, d);
      }
    }
  }

  /** What a node relies on when it handles a message of the append traffic. */
  ghost predicate Served(g: Ledger, v: NodeId, n: Node, net: set<Msg>) {
    && ReignLogs(g) && Complete(g) && NodeSafe(g, v, n) && Mirrors(g, v, n)
    && (forall m :: m in net ==> MsgSafe(g, m) && Hint(g, m))
  }

  lemma IsServed(c: Cluster, v: NodeId)
    requires ElectInv(c) && SafeInv(c) && ProbeInv(c) && v in c.nodes
    ensures Served(c.ledger, v, c.nodes[v], c.net) && Probing(c.nodes[v], c.ledger.members)
  {
    assert NodeSafe(c.ledger, v, c.nodes[v]) && Mirrors(c.ledger, v, c.nodes[v]);
  }

  lemma ActProbes(g: Ledger, n: Node, members: set<NodeId>, net: set<Msg>, a: Action)
    requires Served(g, a.node, n, net) && Probing(n, g.members) && Allowed(n, members, net, a)
    ensures Probing(Act(g, n, a).node, g.members)
  {
    match a
    case GetAppendReq(v, req, d) => HeardProbes(n, g.members, req, d);
    case GetAppendResp(v, req, peer, r, d) =>
      assert MsgSafe(g, AppendResp(peer, req, r)) && Hint(g, AppendResp(peer, req, r));
      MatchedByReach(g, req);
      ReplyProbes(n, v, g.members, req, peer, r, d);
    case _ => OtherProbes(g, n, a);
  }

  lemma OthersReplyNothing(g: Ledger, n: Node, a: Action)
    requires !a.GetAppendReq?
    ensures forall m :: m in Act(g, n, a).sent ==> !m.AppendResp?
  {
  }

  lemma ReplyHint(g: Ledger, v: NodeId, n: Node, req: AppendArgs, d: Disk, m: Msg)
    requires ReignLogs(g) && Complete(g) && NodeSafe(g, v, n) && Mirrors(g, v, n) && ArgsSafe(g, req)
    requires m in OnAppendReq(g, v, n, req, d).sent
    ensures Hint(g, m)
  {
    RejectionHint(g, v, n, req, d);
  }

  lemma ActHints(g: Ledger, n: Node, members: set<NodeId>, net: set<Msg>, a: Action, m: Msg)
    requires Served(g, a.node, n, net) && Allowed(n, members, net, a) && m in Act(g, n, a).sent
    ensures Hint(g, m)
  {
    match a
    case GetAppendReq(v, req, d) =>
      assert MsgSafe(g, AppendReq(v, req));
      ReplyHint(g, v, n, req, d, m);
    case _ => OthersReplyNothing(g, n, a);
  }

  lemma HintStays(g: Ledger, g': Ledger, m: Msg)
    requires Later(g, g') && Hint(g, m)
    ensures Hint(g', m)
  {
  }

  lemma CombineHints(c: Cluster, v: NodeId, e: Effect)
    requires Later(c.ledger, e.ledger) && (forall m :: m in c.net ==> Hint(c.ledger, m))
    requires forall m :: m in e.sent ==> Hint(c.ledger, m)
    ensures forall m :: m in Enact(c, v, e).net ==> Hint(e.ledger, m)
  {
    forall m | m in c.net + e.sent ensures Hint(e.ledger, m) {
      HintStays(c.ledger, e.ledger, m);
    }
  }

  lemma CombineProbes(c: Cluster, v: NodeId, e: Effect)
    requires v in c.nodes && (forall w :: w in c.nodes ==> Probing(c.nodes[w], c.nodes.Keys))
    requires Probing(e.node, c.nodes.Keys)
    ensures forall w :: w in Enact(c, v, e).nodes ==> Probing(Enact(c, v, e).nodes[w], Enact(c, v, e).nodes.Keys)
  {
    assert Enact(c, v, e).nodes.Keys == c.nodes.Keys;
  }

  lemma ActOnward(g: Ledger, n: Node, members: set<NodeId>, net: set<Msg>, a: Action)
    requires Served(g, a.node, n, net) && Probing(n, g.members) && Allowed(n, members, net, a)
    ensures Probing(Act(g, n, a).node, g.members) && (forall m :: m in Act(g, n, a).sent ==> Hint(g, m))
  {
    ActProbes(g, n, members, net, a);
    forall m | m in Act(g, n, a).sent ensures Hint(g, m) {
      ActHints(g, n, members, net, a, m);
    }
  }

  lemma StepProbes(c: Cluster, a: Action)
    requires ElectInv(c) && SafeInv(c) && ProbeInv(c) && Enabled(c, a) && Later(c.ledger, Do(c, a).ledger)
    ensures ProbeInv(Do(c, a))
  {
    IsServed(c, a.node);
    ActOnward(c.ledger, c.nodes[a.node], c.nodes.Keys, c.net, a);
    CombineProbes(c, a.node, Act(c.ledger, c.nodes[a.node], a));
    CombineHints(c, a.node, Act(c.ledger, c.nodes[a.node], a));
  }

  lemma {:induction false} RunProbes(members: set<NodeId>, r: History, i: nat)
    requires IsCleanRun(members, r) && i < |r.states|
    ensures ProbeInv(r.states[i])
    decreases i
  {
    if i > 0 {
      RunProbes(members, r, i - 1);
      RunSafe(members, r, i - 1);
      StepInRun(members, r, i - 1, i);
      assert Next(r.states[i - 1], r.actions[i - 1], r.states[i - 1 + 1]);
      StepProbes(r.states[i - 1], r.actions[i - 1]);
    }
  }

  /** In every clean run a leader's next index of every member is at most one past its log. */
  lemma ProbesInLog(members: set<NodeId>, r: History, i: nat, v: NodeId, w: NodeId)
    requires IsCleanRun(members, r) && Present(r, i, v) && Present(r, i, w) && At(r, i, v).role.Leader?
    ensures w in At(r, i, v).nextIndex && At(r, i, v).nextIndex[w] <= |At(r, i, v).log| + 1
  {
    RunProbes(members, r, i);
    assert Probing(At(r, i, v), r.states[i].nodes.Keys);
  }
}
