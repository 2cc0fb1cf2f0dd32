/**
 * What every node, message and answer means while no process forgets a term it acknowledged in:
 * the committed part of a log lies in some leader's majority-acknowledged log, requests quote
 * their leader's log, and a caller is answered from the committed part.
 */
module RaftSafety {
  import opened Basics
  import opened RaftTypes
  import opened RaftLedger
  import opened RaftLedgerSteps
  import opened RaftLedgerProof
  import opened RaftNode
  import opened RaftCluster
  import opened RaftElection

  /* ---------- The invariants ---------- */

  /** Indexes are ordered, and what was handed out since the last start is a stretch of the log. */
  ghost predicate Applying(n: Node) {
    && n.snapIndex <= n.lastApplied <= n.commitIndex <= |n.log|
    && n.bootIndex <= n.lastApplied
    && n.handed == n.log[n.bootIndex..n.lastApplied]
  }

  /** Every waiting caller waits for an entry that still has to be applied and holds its data. */
  ghost predicate Waiting(n: Node) {
    forall i :: i in n.clients ==>
      n.lastApplied < i <= |n.log| + |n.pending| && (n.log + n.pending)[i - 1].data == n.clients[i].data
  }

  /** A match index says nothing unless it is above the commit index. */
  ghost predicate Leading(g: Ledger, v: NodeId, n: Node) {
    && v in g.term && n.currentTerm <= g.term[v]
    && n.currentTerm in g.reign && n.log == g.reign[n.currentTerm].log
    && (forall k: nat :: OwnEntry(g, n.currentTerm, k) ==> Acked(g, v, n.currentTerm, k))
    && (forall p :: p in n.matchIndex && p != v ==>
          n.matchIndex[p] <= n.commitIndex || Acked(g, p, n.currentTerm, n.matchIndex[p]))
  }

  ghost predicate NodeSafe(g: Ledger, v: NodeId, n: Node) {
    && Applying(n)
    && v in g.term && Committed(g, n.log[..n.commitIndex], g.term[v])
    && (n.role.Leader? ==> Leading(g, v, n))
    && Fresh(n.currentTerm, n.log, n.pending)
    && Waiting(n)
  }

  /** A request quotes its leader's log, and its commit index lies within what it quotes. */
  ghost predicate ArgsSafe(g: Ledger, a: AppendArgs) {
    && a.term in g.reign
    && var lead := g.reign[a.term].log;
       && Reach(a) <= |lead| && a.entries == lead[a.prevLogIndex..Reach(a)]
       && a.prevLogTerm == TermAt(lead, a.prevLogIndex)
       && a.leaderCommit <= Reach(a) && Committed(g, lead[..a.leaderCommit], a.term)
  }

  ghost predicate MsgSafe(g: Ledger, m: Msg) {
    match m
    case AppendReq(_, a) => ArgsSafe(g, a)
    case AppendResp(from, a, r) => ArgsSafe(g, a) && (r.success ==> Acked(g, from, a.term, Reach(a)))
    case _ => true
  }

  /** An answer carries the caller's own data, at an index the answering node has applied. */
  ghost predicate AnswersFrom(n: Node, answers: set<Answer>) {
    forall x :: x in answers ==>
      0 < x.index <= n.lastApplied && x.index <= |n.log| && n.log[x.index - 1] == x.entry && x.entry.data == x.call.data
  }

  /** Terms, reigns and acknowledgements only grow, and the reigns of other leaders are left alone. */
  ghost predicate Onward(g: Ledger, g': Ledger, v: NodeId) {
    && Later(g, g')
    && (forall t :: t in g.reign && g.reign[t].leader != v ==> g'.reign[t] == g.reign[t])
  }

  /** What node, messages and answers of an action of v must meet. */
  ghost predicate Output(v: NodeId, e: Effect) {
    && NodeSafe(e.ledger, v, e.node)
    && (forall m :: m in e.sent ==> MsgSafe(e.ledger, m))
    && AnswersFrom(e.node, e.answers)
  }

  ghost predicate SafeInv(c: Cluster) {
    && SafetyInv(c.ledger)
    && (forall v :: v in c.nodes ==> NodeSafe(c.ledger, v, c.nodes[v]))
    && (forall m :: m in c.net ==> MsgSafe(c.ledger, m))
  }

  /* ---------- What the others see ---------- */

  lemma CommittedPrefix(g: Ledger, log: seq<Entry>, n: nat, bound: nat)
    requires Committed(g, log, bound) && n <= |log|
    ensures Committed(g, log[..n], bound)
  {
  }

  lemma OthersStaySafe(g: Ledger, g': Ledger, v: NodeId, w: NodeId, n: Node)
    requires Onward(g, g', v) && NodeSafe(g, w, n)
    requires n.role.Leader? ==> Reigning(g, w, n) && w != v
    ensures NodeSafe(g', w, n)
  {
    CommittedStays(g, g', n.log[..n.commitIndex], g.term[w], g'.term[w]);
    if n.role.Leader? {
      assert g'.reign[n.currentTerm] == g.reign[n.currentTerm];
      forall k: nat | OwnEntry(g', n.currentTerm, k) ensures Acked(g', w, n.currentTerm, k) {
        assert OwnEntry(g, n.currentTerm, k);
      }
    }
  }

  lemma ArgsStaySafe(g: Ledger, g': Ledger, a: AppendArgs)
    requires Later(g, g') && ArgsSafe(g, a)
    ensures ArgsSafe(g', a)
  {
    var lead, lead' := g.reign[a.term].log, g'.reign[a.term].log;
    CommittedStays(g, g', lead[..a.leaderCommit], a.term, a.term);
    assert lead'[..a.leaderCommit] == lead[..a.leaderCommit];
    assert lead'[a.prevLogIndex..Reach(a)] == lead[a.prevLogIndex..Reach(a)];
  }

  lemma MessagesStaySafe(g: Ledger, g': Ledger, m: Msg)
    requires Later(g, g') && MsgSafe(g, m)
    ensures MsgSafe(g', m)
  {
    match m
    case AppendReq(_, a) => ArgsStaySafe(g, g', a);
    case AppendResp(_, a, _) => ArgsStaySafe(g, g', a);
    case _ =>
  }

  lemma CombineNodesSafe(c: Cluster, v: NodeId, e: Effect)
    requires v in c.nodes && Onward(c.ledger, e.ledger, v) && NodeSafe(e.ledger, v, e.node)
    requires forall w :: w in c.nodes ==> NodeSafe(c.ledger, w, c.nodes[w]) && NodeElect(c.ledger, w, c.nodes[w])
    ensures forall w :: w in Enact(c, v, e).nodes ==> NodeSafe(e.ledger, w, Enact(c, v, e).nodes[w])
  {
    forall w | w in c.nodes && w != v ensures NodeSafe(e.ledger, w, c.nodes[w]) {
      OthersStaySafe(c.ledger, e.ledger, v, w, c.nodes[w]);
    }
  }

  lemma CombineMessagesSafe(c: Cluster, v: NodeId, e: Effect)
    requires Later(c.ledger, e.ledger)
    requires forall m :: m in c.net ==> MsgSafe(c.ledger, m)
    requires forall m :: m in e.sent ==> MsgSafe(e.ledger, m)
    ensures forall m :: m in Enact(c, v, e).net ==> MsgSafe(e.ledger, m)
  {
    forall m | m in c.net ensures MsgSafe(e.ledger, m) {
      MessagesStaySafe(c.ledger, e.ledger, m);
    }
  }

  /* ---------- The pieces actions are made of ---------- */

  /** Equal in everything safety depends on. */
  ghost predicate SameLog(n: Node, n': Node) {
    && n'.role == n.role && n'.currentTerm == n.currentTerm && n'.log == n.log && n'.snapIndex == n.snapIndex
    && n'.commitIndex == n.commitIndex && n'.lastApplied == n.lastApplied && n'.matchIndex == n.matchIndex
    && n'.pending == n.pending && n'.clients == n.clients && n'.bootIndex == n.bootIndex && n'.handed == n.handed
  }

  /** No longer leader, with the same log and nothing pending. */
  ghost predicate Demoted(n: Node, n': Node) {
    && !n'.role.Leader? && n'.log == n.log && n'.snapIndex == n.snapIndex
    && n'.commitIndex == n.commitIndex && n'.lastApplied == n.lastApplied
    && n'.pending == [] && n'.clients == map[] && n'.bootIndex == n.bootIndex && n'.handed == n.handed
  }

  lemma SameLogSafe(g: Ledger, g': Ledger, v: NodeId, n: Node, n': Node)
    requires Later(g, g') && g'.reign == g.reign && NodeSafe(g, v, n) && SameLog(n, n')
    ensures NodeSafe(g', v, n')
  {
    CommittedStays(g, g', n.log[..n.commitIndex], g.term[v], g'.term[v]);
    if n.role.Leader? {
      forall k: nat | OwnEntry(g', n.currentTerm, k) ensures Acked(g', v, n.currentTerm, k) {
        assert OwnEntry(g, n.currentTerm, k);
      }
    }
  }

  lemma DemotedSafe(g: Ledger, g': Ledger, v: NodeId, n: Node, n': Node)
    requires Later(g, g') && NodeSafe(g, v, n) && Demoted(n, n')
    ensures NodeSafe(g', v, n')
  {
    CommittedStays(g, g', n.log[..n.commitIndex], g.term[v], g'.term[v]);
  }

  lemma LaterSame(g: Ledger)
    ensures Later(g, g)
  {
  }

  lemma LaterOn(g: Ledger, g1: Ledger, g2: Ledger)
    requires Later(g, g1) && Later(g1, g2)
    ensures Later(g, g2)
  {
  }

  lemma OnwardSame(g: Ledger, v: NodeId)
    ensures Onward(g, g, v)
  {
  }

  lemma OnwardOn(g: Ledger, g1: Ledger, g2: Ledger, v: NodeId)
    requires Onward(g, g1, v) && Onward(g1, g2, v)
    ensures Onward(g, g2, v)
  {
    LaterOn(g, g1, g2);
  }

  lemma StepDownDemotes(n: Node, t: nat, d: Disk)
    ensures Demoted(n, StepDown(n, t, d)) && StepDown(n, t, d).currentTerm == t
  {
  }
}
