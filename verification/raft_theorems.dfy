/**
 * What the replicated log promises over whole runs in which messages are lost, delayed,
 * reordered and duplicated, stable-store writes fail, and processes crash and restart, as long
 * as no process crashes after acknowledging a request of a term that is not on its disk.
 */
module RaftTheorems {
  import opened Basics
  import opened RaftTypes
  import opened RaftLedger
  import opened RaftLedgerSteps
  import opened RaftLedgerProof
  import opened RaftNode
  import opened RaftCluster
  import opened RaftElection
  import opened RaftSafety
  import opened RaftSafetyLedger
  import opened RaftSafetySteps

  lemma {:induction false} RunSafe(members: set<NodeId>, r: History, i: nat)
    requires IsCleanRun(members, r) && i < |r.states|
    ensures ElectInv(r.states[i]) && SafeInv(r.states[i])
    decreases i
  {
    RunElects(members, r, i);
    if i == 0 {
      BootSafe(members);
    } else {
      RunSafe(members, r, i - 1);
      StepInRun(members, r, i - 1, i);
    }
  }

  lemma StepInRun(members: set<NodeId>, r: History, i: nat, j: nat)
    requires IsCleanRun(members, r) && i + 1 == j < |r.states| && ElectInv(r.states[i]) && SafeInv(r.states[i])
    ensures SafeInv(r.states[j]) && Later(r.states[i].ledger, r.states[j].ledger)
    ensures r.states[j] == Do(r.states[i], r.actions[i])
    ensures AnswersFrom(r.states[j].nodes[r.actions[i].node], r.states[j].answers - r.states[i].answers)
  {
    assert Next(r.states[i], r.actions[i], r.states[i + 1]);
    assert Clean(r.states[i], r.actions[i]);
    StepSafe(r.states[i], r.actions[i]);
  }

  lemma {:induction false} RunLater(members: set<NodeId>, r: History, i: nat, j: nat)
    requires IsCleanRun(members, r) && i <= j < |r.states|
    ensures Later(r.states[i].ledger, r.states[j].ledger)
    decreases j
  {
    LaterSame(r.states[i].ledger);
    if i < j {
      RunLater(members, r, i, j - 1);
      RunSafe(members, r, j - 1);
      StepInRun(members, r, j - 1, j);
      LaterOn(r.states[i].ledger, r.states[j - 1].ledger, r.states[j].ledger);
    }
  }

  /** Node v of state i. */
  ghost function At(r: History, i: nat, v: NodeId): Node
    requires i < |r.states| && v in r.states[i].nodes
  {
    r.states[i].nodes[v]
  }

  ghost predicate Present(r: History, i: nat, v: NodeId) {
    i < |r.states| && v in r.states[i].nodes
  }

  lemma LogIsTraced(members: set<NodeId>, r: History, i: nat, v: NodeId, j: nat)
    requires IsCleanRun(members, r) && Present(r, i, v) && i <= j < |r.states|
    ensures Traced(At(r, i, v).log, r.states[j].ledger.reign)
  {
    RunSafe(members, r, i);
    assert Mirrors(r.states[i].ledger, v, At(r, i, v));
    RunLater(members, r, i, j);
    TracedStays(At(r, i, v).log, r.states[i].ledger.reign, r.states[j].ledger.reign);
  }

  /** Log matching (section 5.3 of the Raft paper), even between logs of different moments. */
  lemma LogsMatch(members: set<NodeId>, r: History, i: nat, v: NodeId, j: nat, w: NodeId, k: nat)
    requires IsCleanRun(members, r) && Present(r, i, v) && Present(r, j, w)
    requires k <= |At(r, i, v).log| && k <= |At(r, j, w).log|
    requires TermAt(At(r, i, v).log, k) == TermAt(At(r, j, w).log, k)
    ensures At(r, i, v).log[..k] == At(r, j, w).log[..k]
  {
    var last := Max(i, j);
    LogIsTraced(members, r, i, v, last);
    LogIsTraced(members, r, j, w, last);
    LogMatching(r.states[last].ledger.reign, At(r, i, v).log, At(r, j, w).log, k);
  }

  lemma CommitIsCommitted(members: set<NodeId>, r: History, i: nat, v: NodeId, j: nat)
    requires IsCleanRun(members, r) && Present(r, i, v) && i <= j < |r.states|
    ensures var n := At(r, i, v);
            n.commitIndex <= |n.log| && Committed(r.states[j].ledger, n.log[..n.commitIndex], n.currentTerm)
  {
    var n := At(r, i, v);
    RunSafe(members, r, i);
    var g := r.states[i].ledger;
    assert NodeSafe(g, v, n) && Mirrors(g, v, n);
    RunLater(members, r, i, j);
    CommittedStays(g, r.states[j].ledger, n.log[..n.commitIndex], g.term[v], n.currentTerm);
  }

  lemma LeaderLog(members: set<NodeId>, r: History, j: nat, w: NodeId)
    requires IsCleanRun(members, r) && Present(r, j, w) && At(r, j, w).role.Leader?
    ensures At(r, j, w).currentTerm in r.states[j].ledger.reign
    ensures At(r, j, w).log == r.states[j].ledger.reign[At(r, j, w).currentTerm].log
  {
    RunSafe(members, r, j);
    assert NodeSafe(r.states[j].ledger, w, At(r, j, w));
  }

  /**
   * Leader completeness (section 5.4.3): whatever any node regards as committed is in the log
   * of every leader of its term or a later one, from then on.
   */
  lemma LeaderCompleteness(members: set<NodeId>, r: History, i: nat, v: NodeId, j: nat, w: NodeId)
    requires IsCleanRun(members, r) && i <= j && Present(r, i, v) && Present(r, j, w)
    requires At(r, j, w).role.Leader? && At(r, i, v).currentTerm <= At(r, j, w).currentTerm
    ensures At(r, i, v).commitIndex <= |At(r, i, v).log|
    ensures At(r, i, v).log[..At(r, i, v).commitIndex] <= At(r, j, w).log
  {
    var n := At(r, i, v);
    CommitIsCommitted(members, r, i, v, j);
    LeaderLog(members, r, j, w);
    RunSafe(members, r, j);
    LeaderHoldsCommitted(r.states[j].ledger, n.log[..n.commitIndex], n.currentTerm, At(r, j, w).currentTerm);
  }

  /** Two nodes never disagree on a committed index, at any two moments. */
  lemma CommittedLogsAgree(members: set<NodeId>, r: History, i: nat, v: NodeId, j: nat, w: NodeId)
    requires IsCleanRun(members, r) && Present(r, i, v) && Present(r, j, w)
    ensures At(r, i, v).commitIndex <= |At(r, i, v).log| && At(r, j, w).commitIndex <= |At(r, j, w).log|
    ensures var (a, b) := (At(r, i, v).log[..At(r, i, v).commitIndex], At(r, j, w).log[..At(r, j, w).commitIndex]);
            a <= b || b <= a
  {
    var (n, m, last) := (At(r, i, v), At(r, j, w), Max(i, j));
    CommitIsCommitted(members, r, i, v, last);
    CommitIsCommitted(members, r, j, w, last);
    RunSafe(members, r, last);
    CommittedAgree(r.states[last].ledger, n.log[..n.commitIndex], n.currentTerm, m.log[..m.commitIndex], m.currentTerm);
  }

  lemma HandedIndexes(n: Node)
    requires Applying(n) && Indexed(n.log)
    ensures forall p :: 0 <= p < |n.handed| ==> n.handed[p].index == n.bootIndex + p + 1
  {
    forall p | 0 <= p < |n.handed| ensures n.handed[p].index == n.bootIndex + p + 1 {
      assert n.handed[p] == n.log[n.bootIndex + p];
    }
  }

  lemma NodeHanded(members: set<NodeId>, r: History, i: nat, v: NodeId)
    requires IsCleanRun(members, r) && Present(r, i, v)
    ensures Applying(At(r, i, v)) && Indexed(At(r, i, v).log)
  {
    RunSafe(members, r, i);
    assert NodeSafe(r.states[i].ledger, v, At(r, i, v));
    assert Mirrors(r.states[i].ledger, v, At(r, i, v));
    TracedIndexed(r.states[i].ledger.reign, At(r, i, v).log);
  }

  /**
   * Since its last start a node has handed to its state machine the consecutive indexes
   * bootIndex + 1 .. lastApplied, each once and in order, and none past its commit index.
   */
  lemma AppliesInOrder(members: set<NodeId>, r: History, i: nat, v: NodeId)
    requires IsCleanRun(members, r) && Present(r, i, v)
    ensures var n := At(r, i, v);
            && n.bootIndex <= n.lastApplied <= n.commitIndex <= |n.log|
            && n.handed == n.log[n.bootIndex..n.lastApplied]
            && (forall p :: 0 <= p < |n.handed| ==> n.handed[p].index == n.bootIndex + p + 1)
  {
    NodeHanded(members, r, i, v);
    HandedIndexes(At(r, i, v));
  }

  /** State machine safety: no two nodes are ever handed different entries for one index. */
  lemma StateMachineSafety(members: set<NodeId>, r: History, i: nat, v: NodeId, p: nat, j: nat, w: NodeId, q: nat)
    requires IsCleanRun(members, r) && Present(r, i, v) && Present(r, j, w)
    requires p < |At(r, i, v).handed| && q < |At(r, j, w).handed|
    requires At(r, i, v).handed[p].index == At(r, j, w).handed[q].index
    ensures At(r, i, v).handed[p] == At(r, j, w).handed[q]
  {
    var (n, m) := (At(r, i, v), At(r, j, w));
    AppliesInOrder(members, r, i, v);
    AppliesInOrder(members, r, j, w);
    CommittedLogsAgree(members, r, i, v, j, w);
    var k := n.bootIndex + p;
    assert n.handed[p] == n.log[..n.commitIndex][k];
    assert m.handed[q] == m.log[..m.commitIndex][k];
  }

  /** The entry of an answered call, and the term of the node that answered. */
  ghost predicate AnsweredBy(r: History, i: nat, x: Answer) {
    i + 1 < |r.states| && i < |r.actions| && x in r.states[i + 1].answers && x !in r.states[i].answers
  }

  /**
   * Acknowledged means committed: when a call is answered, the answering node has committed and
   * applied an entry with the caller's own data at the caller's index.
   */
  lemma AnswerIsCommitted(members: set<NodeId>, r: History, i: nat, x: Answer)
    requires IsCleanRun(members, r) && AnsweredBy(r, i, x)
    ensures Present(r, i + 1, r.actions[i].node)
    ensures var n := At(r, i + 1, r.actions[i].node);
            && x.entry.data == x.call.data
            && 0 < x.index <= n.lastApplied <= n.commitIndex <= |n.log|
            && n.log[x.index - 1] == x.entry
  {
    RunSafe(members, r, i);
    StepInRun(members, r, i, i + 1);
    AppliesInOrder(members, r, i + 1, r.actions[i].node);
  }

  /** The entry of an answered call is in the log of every later leader. */
  lemma AnswerIsDurable(members: set<NodeId>, r: History, i: nat, x: Answer, j: nat, w: NodeId)
    requires IsCleanRun(members, r) && AnsweredBy(r, i, x)
    requires i < j && Present(r, j, w) && At(r, j, w).role.Leader?
    requires Present(r, i + 1, r.actions[i].node)
    requires At(r, i + 1, r.actions[i].node).currentTerm <= At(r, j, w).currentTerm
    ensures x.index - 1 < |At(r, j, w).log| && 0 < x.index && At(r, j, w).log[x.index - 1] == x.entry
  {
    var n := At(r, i + 1, r.actions[i].node);
    AnswerIsCommitted(members, r, i, x);
    LeaderCompleteness(members, r, i + 1, r.actions[i].node, j, w);
    assert n.log[..n.commitIndex][x.index - 1] == x.entry;
  }

  /** Pending entries and waiting callers exist only on a leader, in its term, numbered on from its log. */
  lemma PendingOnLeader(members: set<NodeId>, r: History, i: nat, v: NodeId)
    requires IsCleanRun(members, r) && Present(r, i, v)
    ensures var n := At(r, i, v);
            && (n.pending != [] || n.clients != map[] ==> n.role.Leader?)
            && Fresh(n.currentTerm, n.log, n.pending)
            && Waiting(n)
  {
    RunSafe(members, r, i);
    assert NodeSafe(r.states[i].ledger, v, At(r, i, v));
    assert NodeElect(r.states[i].ledger, v, At(r, i, v));
  }

  /** Commit coverage: every request ever sent reaches its own commit index. */
  lemma CommitCoverage(members: set<NodeId>, r: History, i: nat, to: NodeId, req: AppendArgs)
    requires IsCleanRun(members, r) && i < |r.states| && AppendReq(to, req) in r.states[i].net
    ensures req.leaderCommit <= Reach(req)
  {
    RunSafe(members, r, i);
    assert MsgSafe(r.states[i].ledger, AppendReq(to, req));
  }

  /** Every request ever sent numbers its entries on from its probe. */
  lemma RequestsNumbered(members: set<NodeId>, r: History, i: nat, to: NodeId, req: AppendArgs)
    requires IsCleanRun(members, r) && i < |r.states| && AppendReq(to, req) in r.states[i].net
    ensures Numbered(req)
  {
    RunSafe(members, r, i);
    assert MsgSafe(r.states[i].ledger, AppendReq(to, req));
    assert Indexed(r.states[i].ledger.reign[req.term].log);
  }

  /** The log of the leader of a term that was won, as it stands in state i. */
  ghost function LeaderLogOf(r: History, i: nat, t: nat): seq<Entry>
    requires i < |r.states|
  {
    if t in r.states[i].ledger.reign then r.states[i].ledger.reign[t].log else []
  }

  /** The leader log of a term is what its leader holds, as long as it leads. */
  lemma LeaderLogMeaning(members: set<NodeId>, r: History, i: nat, v: NodeId)
    requires IsCleanRun(members, r) && Present(r, i, v) && At(r, i, v).role.Leader?
    ensures LeaderLogOf(r, i, At(r, i, v).currentTerm) == At(r, i, v).log
  {
    LeaderLog(members, r, i, v);
  }

  /** What a request of the node's own term commits. */
  lemma HandleCommits(g: Ledger, v: NodeId, n: Node, req: AppendArgs, d: Disk)
    requires ReignLogs(g) && NodeLogs(g) && Serves(g, v, n, req) && ArgsSafe(g, req)
    requires Applying(n) && req.term == n.currentTerm
    ensures var (n', lead) := (HandleAppend(n, req, d).node, g.reign[req.term].log);
            n'.commitIndex > n.commitIndex ==>
              && n'.commitIndex == req.leaderCommit <= Reach(req) <= |lead| && n'.commitIndex <= |n'.log|
              && n'.log[..n'.commitIndex] == lead[..n'.commitIndex]
  {
    if Matches(n, req) {
      MergeCoversCommit(g, v, n, req);
      MatchedHandled(n, req, d);
      AcceptedCommits(n.(role := Follower), req);
    } else {
      UnmatchedHandled(n, req, d);
    }
  }

  lemma AcceptedCommits(m: Node, req: AppendArgs)
    requires req.prevLogIndex <= |m.log| && m.snapIndex <= m.commitIndex
    requires req.leaderCommit <= |Merge(m.log, req.prevLogIndex, req.entries)|
    ensures Accepted(m, req).node.commitIndex == Max(m.commitIndex, req.leaderCommit)
  {
  }

  /** The node that handles a request of its own term, or a later one, once it has moved to that term. */
  function MovedUp(n: Node, req: AppendArgs, d: Disk): Node {
    if req.term > n.currentTerm then StepDown(n, req.term, d) else n
  }

  /** Every outcome of a request is no change, a failed move to its term, or what a node of its term does. */
  lemma HandledInTerm(n: Node, req: AppendArgs, d: Disk)
    ensures req.term < n.currentTerm ==> HandleAppend(n, req, d).node == n
    ensures req.term > n.currentTerm && !d.Stored? ==> HandleAppend(n, req, d).node == StepDown(n, req.term, d)
    ensures req.term == n.currentTerm || (req.term > n.currentTerm && d.Stored?) ==>
              HandleAppend(n, req, d) == HandleAppend(MovedUp(n, req, d), req, d)
  {
    if req.term > n.currentTerm && d.Stored? {
      HigherTermHandled(n, req, d);
    }
  }

  lemma RaisedLogs(g: Ledger, v: NodeId, t: nat)
    requires ReignLogs(g) && NodeLogs(g) && v in g.term && g.term[v] <= t
    ensures ReignLogs(Raise(g, v, t)) && NodeLogs(Raise(g, v, t))
  {
  }

  lemma MovedUpServes(g: Ledger, v: NodeId, n: Node, req: AppendArgs, d: Disk)
    requires Mirrors(g, v, n) && n.currentTerm <= req.term
    ensures var n1 := MovedUp(n, req, d);
            && Serves(Raise(g, v, req.term), v, n1, req)
            && n1.currentTerm == req.term && n1.log == n.log && n1.commitIndex == n.commitIndex
            && (Applying(n) ==> Applying(n1))
  {
  }

  /**
   * Whatever a follower commits on a request it has matched against the leader, also when the
   * request is the first one of a new leader and moves the follower to a later term.
   */
  lemma CommitsOnlyMatched(members: set<NodeId>, r: History, i: nat, v: NodeId, req: AppendArgs, d: Disk)
    requires IsCleanRun(members, r) && Present(r, i, v) && AppendReq(v, req) in r.states[i].net
    ensures var (n, n') := (At(r, i, v), HandleAppend(At(r, i, v), req, d).node);
            n'.commitIndex > n.commitIndex ==>
              && n'.commitIndex == req.leaderCommit <= Reach(req) <= |LeaderLogOf(r, i, req.term)|
              && n'.commitIndex <= |n'.log|
              && n'.log[..n'.commitIndex] == LeaderLogOf(r, i, req.term)[..n'.commitIndex]
  {
    var (c, n) := (r.states[i], At(r, i, v));
    RunSafe(members, r, i);
    assert NodeSafe(c.ledger, v, n) && Mirrors(c.ledger, v, n);
    assert MsgSafe(c.ledger, AppendReq(v, req));
    HandledInTerm(n, req, d);
    if n.currentTerm <= req.term {
      var g1 := Raise(c.ledger, v, req.term);
      RaisedLogs(c.ledger, v, req.term);
      RaiseLater(c.ledger, v, req.term);
      ArgsStaySafe(c.ledger, g1, req);
      MovedUpServes(c.ledger, v, n, req, d);
      HandleCommits(g1, v, MovedUp(n, req, d), req, d);
    }
  }

  lemma HandleKeepsShared(g: Ledger, n: Node, req: AppendArgs, d: Disk, k: nat)
    requires ArgsSafe(g, req) && req.term == n.currentTerm && k <= |n.log| && n.log[..k] <= g.reign[req.term].log
    ensures n.log[..k] <= HandleAppend(n, req, d).node.log
  {
    if Matches(n, req) {
      MergeKeeps(n.log[..k], n.log, g.reign[req.term].log, req.prevLogIndex, Reach(req));
      MatchedHandled(n, req, d);
    } else {
      UnmatchedHandled(n, req, d);
    }
  }

  lemma AnyHandleKeepsShared(g: Ledger, n: Node, req: AppendArgs, d: Disk, k: nat)
    requires ArgsSafe(g, req) && k <= |n.log| && n.log[..k] <= g.reign[req.term].log
    ensures n.log[..k] <= HandleAppend(n, req, d).node.log
  {
    HandledInTerm(n, req, d);
    if n.currentTerm <= req.term {
      HandleKeepsShared(g, MovedUp(n, req, d), req, d, k);
    }
  }

  /** No request, late, repeated or the first of a new term, removes an entry the follower shares with its leader. */
  lemma MatchingEntriesStay(members: set<NodeId>, r: History, i: nat, v: NodeId, req: AppendArgs, d: Disk, k: nat)
    requires IsCleanRun(members, r) && Present(r, i, v) && AppendReq(v, req) in r.states[i].net
    requires k <= |At(r, i, v).log| && At(r, i, v).log[..k] <= LeaderLogOf(r, i, req.term)
    ensures At(r, i, v).log[..k] <= HandleAppend(At(r, i, v), req, d).node.log
  {
    RunSafe(members, r, i);
    assert MsgSafe(r.states[i].ledger, AppendReq(v, req));
    AnyHandleKeepsShared(r.states[i].ledger, At(r, i, v), req, d, k);
  }
}
