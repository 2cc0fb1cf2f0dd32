/** Whoever waits is answered: what becomes of every caller of a node, step by step. */
module RaftAnswers {
  import opened Basics
  import opened RaftTypes
  import opened RaftLedger
  import opened RaftLedgerProof
  import opened RaftNode
  import opened RaftCluster
  import opened RaftElection
  import opened RaftSafety
  import opened RaftSafetyLedger
  import opened RaftSafetySteps
  import opened RaftTheorems
  import opened RaftDuties

  /** The answer a caller at index i is due. */
  ghost function Due(n: Node, i: nat): Answer
    requires i in n.clients && 0 < i <= |n.log|
  {
    Answer(n.clients[i], i, n.log[i - 1])
  }

  /** The caller still waits for the same index. */
  ghost predicate Waits(n: Node, n': Node, i: nat) {
    i in n.clients && i in n'.clients && n'.clients[i] == n.clients[i]
  }

  ghost predicate IsAnswered(n: Node, answers: set<Answer>, i: nat) {
    i in n.clients && 0 < i <= |n.log| && Due(n, i) in answers
  }

  /**
   * Applying up to the commit index answers every caller up to there with the entry at its index,
   * and leaves every other one waiting.
   */
  lemma ApplyAnswersAll(n: Node, i: nat)
    requires Applying(n) && Waiting(n) && i in n.clients
    ensures if i <= n.commitIndex then IsAnswered(n, Answers(n), i) && i !in Apply(n).clients else Waits(n, Apply(n), i)
    ensures Apply(n).lastApplied == n.commitIndex
  {
    ApplyHands(n);
  }

  lemma AdvanceAnswers(n: Node, id: NodeId, members: set<NodeId>, i: nat)
    requires Applying(n) && Waiting(n) && i in n.clients
    ensures var h := AdvanceCommit(n, id, members); IsAnswered(n, h.answers, i) || Waits(n, h.node, i)
    ensures var h := AdvanceCommit(n, id, members); h.node.lastApplied >= i ==> IsAnswered(n, h.answers, i)
  {
    var point := CommitPoint(n, id, members, |n.log|);
    CommitPointRule(n, id, members, |n.log|);
    if n.commitIndex < point {
      ApplyAnswersAll(n.(commitIndex := point), i);
    }
  }

  /** A reply makes a leader answer a caller, or keep it waiting, or step down. */
  lemma ReplyAnswers(n: Node, id: NodeId, members: set<NodeId>, req: AppendArgs, peer: NodeId, r: AppendReply, d: Disk,
                     i: nat)
    requires Applying(n) && Waiting(n) && i in n.clients
    ensures var h := HandleAppendReply(n, id, members, req, peer, r, d);
            || IsAnswered(n, h.answers, i) || Waits(n, h.node, i)
            || (h.node.currentTerm > n.currentTerm && h.node.role.Follower?)
    ensures var h := HandleAppendReply(n, id, members, req, peer, r, d);
            h.node.lastApplied >= i ==> IsAnswered(n, h.answers, i)
  {
    if n.role.Leader? && n.currentTerm == req.term && r.term <= n.currentTerm && r.success {
      var k := n.(matchIndex := n.matchIndex[peer := MatchedBy(req)],
                  nextIndex := n.nextIndex[peer := MatchedBy(req) + 1]);
      AdvanceAnswers(k, id, members, i);
    }
  }

  lemma SubmitKeeps(n: Node, call: Call, maxBatch: int, i: nat)
    requires Waiting(n) && i in n.clients
    ensures Waits(n, Submit(n, call, maxBatch), i)
  {
  }

  /** A request of a later term, stored or not, makes a leader step down. */
  lemma LaterRequestDemotes(n: Node, req: AppendArgs, d: Disk)
    requires req.term > n.currentTerm
    ensures var m := HandleAppend(n, req, d).node; m.currentTerm == req.term && m.role.Follower?
    ensures HandleAppend(n, req, d).answers == {}
  {
    if d.Stored? {
      HigherTermHandled(n, req, d);
      RequestRule(StepDown(n, req.term, d), req, d);
      if Matches(StepDown(n, req.term, d), req) {
        MatchedHandled(StepDown(n, req.term, d), req, d);
      }
    }
  }

  /** A leader never hears a rival of its own term. */
  lemma RequestAnswers(g: Ledger, v: NodeId, n: Node, req: AppendArgs, d: Disk, i: nat)
    requires NodeElect(g, v, n) && MsgElect(g, AppendReq(v, req)) && i in n.clients
    ensures var n' := HandleAppend(n, req, d).node;
            n' == n || (n'.currentTerm > n.currentTerm && n'.role.Follower?)
  {
    if req.term > n.currentTerm {
      LaterRequestDemotes(n, req, d);
    }
  }

  lemma VoteAnswers(n: Node, req: VoteArgs, d: Disk, d': Disk, i: nat)
    requires i in n.clients
    ensures var n' := HandleVote(n, req, d, d').0;
            || Waits(n, n', i) || (n'.currentTerm > n.currentTerm && n'.role.Follower?)
            || (!d'.Stored? && n'.role.Follower?)
  {
  }

  /**
   * Why a caller that still waited need not be answered: it gave up, the process crashed, or its
   * node stopped leading.
   */
  ghost predicate LetGo(n: Node, n': Node, a: Action, i: nat) {
    || (a.GiveUp? && a.index == i) || a.Crash?
    || (n'.currentTerm > n.currentTerm && n'.role.Follower?)
    || (a.GetVoteReq? && !a.grantDisk.Stored? && n'.role.Follower?)
  }

  lemma ActAnswers(g: Ledger, n: Node, members: set<NodeId>, net: set<Msg>, a: Action, i: nat)
    requires NodeElect(g, a.node, n) && Applying(n) && Waiting(n) && Allowed(n, members, net, a) && i in n.clients
    requires forall m :: m in net ==> MsgElect(g, m)
    ensures var e := Act(g, n, a); Waits(n, e.node, i) || IsAnswered(n, e.answers, i) || LetGo(n, e.node, a, i)
  {
    match a
    case GetVoteReq(v, args, d, d') => VoteAnswers(n, args, d, d', i);
    case Propose(v, call, maxBatch) => SubmitKeeps(n, call, maxBatch, i);
    case GetAppendReq(v, args, d) =>
      assert MsgElect(g, AppendReq(v, args));
      RequestAnswers(g, v, n, args, d, i);
    case GetAppendResp(v, args, peer, r, d) => ReplyAnswers(n, v, g.members, args, peer, r, d, i);
    case _ =>
  }

  lemma NodeWaits(members: set<NodeId>, r: History, k: nat, v: NodeId)
    requires IsCleanRun(members, r) && Present(r, k, v)
    ensures Applying(At(r, k, v)) && Waiting(At(r, k, v)) && NodeElect(r.states[k].ledger, v, At(r, k, v))
    ensures forall m :: m in r.states[k].net ==> MsgElect(r.states[k].ledger, m)
  {
    RunSafe(members, r, k);
    assert NodeSafe(r.states[k].ledger, v, At(r, k, v));
  }

  /**
   * In every step of every clean run a caller goes on waiting, or is answered in that step with
   * the entry at its index, or gives up, or its process crashes, or its node steps down or fails
   * to store a vote. Nobody is forgotten.
   */
  lemma CallerIsServed(members: set<NodeId>, r: History, k: nat, j: nat, v: NodeId, i: nat)
    requires IsCleanRun(members, r) && k + 1 == j < |r.states| && Present(r, k, v) && i in At(r, k, v).clients
    ensures Present(r, j, v)
    ensures var (n, n', a) := (At(r, k, v), At(r, j, v), r.actions[k]);
            || Waits(n, n', i)
            || (a.node == v && (IsAnswered(n, r.states[j].answers, i) || LetGo(n, n', a, i)))
  {
    var (c, a) := (r.states[k], r.actions[k]);
    NodeWaits(members, r, k, v);
    assert Next(r.states[k], r.actions[k], r.states[k + 1]);
    if a.node == v {
      ActAnswers(c.ledger, At(r, k, v), c.nodes.Keys, c.net, a, i);
    }
  }

  lemma LocalApplies(g: Ledger, n: Node, a: Action)
    requires !a.GetAppendReq? && !a.GetAppendResp? && !a.Crash?
    ensures Act(g, n, a).node.lastApplied == n.lastApplied
  {
  }

  lemma ActApplies(g: Ledger, n: Node, members: set<NodeId>, net: set<Msg>, a: Action, i: nat)
    requires NodeElect(g, a.node, n) && Applying(n) && Waiting(n) && Allowed(n, members, net, a) && i in n.clients
    requires (forall m :: m in net ==> MsgElect(g, m)) && !a.Crash?
    requires i <= Act(g, n, a).node.lastApplied
    ensures IsAnswered(n, Act(g, n, a).answers, i) <==> Act(g, n, a).node.currentTerm == n.currentTerm
  {
    match a
    case GetAppendReq(v, args, d) =>
      assert MsgElect(g, AppendReq(v, args));
      RequestAnswers(g, v, n, args, d, i);
      if args.term > n.currentTerm {
        LaterRequestDemotes(n, args, d);
      }
    case GetAppendResp(v, args, peer, r, d) =>
      ReplyAnswers(n, v, g.members, args, peer, r, d, i);
      if n.role.Leader? && n.currentTerm == args.term && r.term > n.currentTerm {
        LaterReplyRule(n, v, g.members, args, peer, r, d);
      } else {
        AppendReplyShape(n, v, g.members, args, peer, r, d);
      }
    case _ => LocalApplies(g, n, a);
  }

  /**
   * When a step other than a crash applies past a waiting caller's index, that caller is answered
   * in that step if and only if the node has not moved to a later term in the same step.
   */
  lemma AppliedIsAnsweredIff(members: set<NodeId>, r: History, k: nat, j: nat, v: NodeId, i: nat)
    requires IsCleanRun(members, r) && k + 1 == j < |r.states| && Present(r, k, v) && i in At(r, k, v).clients
    requires Present(r, j, v) && r.actions[k] != Crash(v) && i <= At(r, j, v).lastApplied
    ensures var (c, n) := (r.states[k], At(r, k, v));
            && r.actions[k].node == v
            && (IsAnswered(n, Act(c.ledger, n, r.actions[k]).answers, i) <==> At(r, j, v).currentTerm == n.currentTerm)
  {
    var (c, n, a) := (r.states[k], At(r, k, v), r.actions[k]);
    NodeWaits(members, r, k, v);
    assert Next(r.states[k], r.actions[k], r.states[k + 1]);
    if a.node == v {
      ActApplies(c.ledger, n, c.nodes.Keys, c.net, a, i);
    }
  }
}
