/**
 * Election safety: in every run, whatever is lost, delayed, duplicated or forgotten in a crash
 * and however the stable store fails, a term has at most one leader.
 */
module RaftElection {
  import opened Basics
  import opened RaftTypes
  import opened RaftLedger
  import opened RaftLedgerSteps
  import opened RaftLedgerProof
  import opened RaftNode
  import opened RaftCluster

  /** A vote is on disk before it counts, and what is on disk is never contradicted in memory. */
  ghost predicate VotesDurable(g: Ledger, v: NodeId, n: Node) {
    && n.stable.term <= n.currentTerm
    && (n.stable.term == n.currentTerm && n.stable.votedFor != NO_NODE ==> n.votedFor == n.stable.votedFor)
    && (forall t: nat :: Slot(t, v) in g.ballot ==>
          && g.ballot[Slot(t, v)] != NO_NODE
          && t <= n.stable.term && (t == n.stable.term ==> n.stable.votedFor == g.ballot[Slot(t, v)]))
  }

  ghost predicate Standing(g: Ledger, v: NodeId, n: Node) {
    && Slot(n.currentTerm, v) in g.bid && g.bid[Slot(n.currentTerm, v)] == n.log
    && n.votes <= g.members
    && (forall w :: w in n.votes ==>
          Slot(n.currentTerm, w) in g.ballot && g.ballot[Slot(n.currentTerm, w)] == v)
    && !(n.currentTerm in g.reign && g.reign[n.currentTerm].leader == v)
  }

  ghost predicate Reigning(g: Ledger, v: NodeId, n: Node) {
    n.currentTerm in g.reign && g.reign[n.currentTerm].leader == v
  }

  ghost predicate NodeElect(g: Ledger, v: NodeId, n: Node) {
    && VotesDurable(g, v, n)
    && (n.role.Candidate? ==> Standing(g, v, n))
    && (n.role.Leader? ==> Reigning(g, v, n))
    && (n.pending != [] || n.clients != map[] ==> n.role.Leader?)
  }

  ghost predicate MsgElect(g: Ledger, m: Msg) {
    match m
    case VoteReq(a) =>
      var s := Slot(a.term, a.candidate);
      s in g.bid && a.lastLogIndex == |g.bid[s]| && a.lastLogTerm == LastTerm(g.bid[s])
    case VoteResp(voter, a, r) =>
      r.granted ==> Slot(a.term, voter) in g.ballot && g.ballot[Slot(a.term, voter)] == a.candidate
    case AppendReq(to, a) => a.term in g.reign && g.reign[a.term].leader == a.leader && to != a.leader
    case AppendResp(_, _, _) => true
  }

  ghost predicate ElectInv(c: Cluster) {
    && Coupled(c) && NO_NODE !in c.nodes && ElectionInv(c.ledger)
    && (forall v :: v in c.nodes ==> NodeElect(c.ledger, v, c.nodes[v]))
    && (forall m :: m in c.net ==> MsgElect(c.ledger, m))
  }

  /* ---------- What the other nodes see of an action of v ---------- */

  ghost predicate VotesGrow(g: Ledger, g': Ledger, v: NodeId) {
    && (forall s :: s in g.ballot ==> s in g'.ballot && g'.ballot[s] == g.ballot[s])
    && (forall s :: s in g'.ballot && s.node != v ==> s in g.ballot)
    && (forall s :: s in g.bid ==> s in g'.bid && g'.bid[s] == g.bid[s])
  }

  ghost predicate WinnersGrow(g: Ledger, g': Ledger, v: NodeId) {
    && (forall t :: t in g.reign ==> t in g'.reign && g'.reign[t].leader == g.reign[t].leader)
    && (forall t :: t in g'.reign && t !in g.reign ==> g'.reign[t].leader == v)
  }

  ghost predicate OthersSame(g: Ledger, g': Ledger, v: NodeId) {
    && g'.members == g.members && g'.term.Keys == g.term.Keys && g'.log.Keys == g.log.Keys
    && (forall w :: w in g.term && w != v ==> g'.term[w] == g.term[w])
    && (forall w :: w in g.log && w != v ==> g'.log[w] == g.log[w])
    && g.acked.Keys <= g'.acked.Keys
  }

  ghost predicate Grows(g: Ledger, g': Ledger, v: NodeId) {
    VotesGrow(g, g', v) && WinnersGrow(g, g', v) && OthersSame(g, g', v)
  }

  lemma GrowsOn(g: Ledger, g1: Ledger, g2: Ledger, v: NodeId)
    requires Grows(g, g1, v) && Grows(g1, g2, v)
    ensures Grows(g, g2, v)
  {
  }

  lemma OthersKeep(g: Ledger, g': Ledger, v: NodeId, w: NodeId, n: Node)
    requires Grows(g, g', v) && w != v && NodeElect(g, w, n)
    ensures NodeElect(g', w, n)
  {
  }

  lemma MessagesKeep(g: Ledger, g': Ledger, v: NodeId, m: Msg)
    requires Grows(g, g', v) && MsgElect(g, m)
    ensures MsgElect(g', m)
  {
  }

  /** Node v of the ledger is n, and both meet their election invariants. */
  ghost predicate Ready(g: Ledger, v: NodeId, n: Node) {
    ElectionInv(g) && NO_NODE !in g.members && Mirrors(g, v, n) && NodeElect(g, v, n)
  }

  /** From g, node v has moved to g' and n'. */
  ghost predicate Moves(g: Ledger, v: NodeId, g': Ledger, n': Node) {
    Grows(g, g', v) && Ready(g', v, n')
  }

  ghost predicate Elects(g: Ledger, v: NodeId, e: Effect) {
    Moves(g, v, e.ledger, e.node) && (forall m :: m in e.sent ==> MsgElect(e.ledger, m))
  }

  lemma CombineNodes(c: Cluster, v: NodeId, e: Effect)
    requires v in c.nodes && Grows(c.ledger, e.ledger, v) && NodeElect(e.ledger, v, e.node)
    requires forall w :: w in c.nodes ==> NodeElect(c.ledger, w, c.nodes[w])
    ensures forall w :: w in Enact(c, v, e).nodes ==> NodeElect(e.ledger, w, Enact(c, v, e).nodes[w])
  {
    forall w | w in c.nodes && w != v ensures NodeElect(e.ledger, w, c.nodes[w]) {
      OthersKeep(c.ledger, e.ledger, v, w, c.nodes[w]);
    }
  }

  lemma CombineMessages(c: Cluster, v: NodeId, e: Effect)
    requires Grows(c.ledger, e.ledger, v)
    requires forall m :: m in c.net ==> MsgElect(c.ledger, m)
    requires forall m :: m in e.sent ==> MsgElect(e.ledger, m)
    ensures forall m :: m in Enact(c, v, e).net ==> MsgElect(e.ledger, m)
  {
    forall m | m in c.net ensures MsgElect(e.ledger, m) {
      MessagesKeep(c.ledger, e.ledger, v, m);
    }
  }

  lemma CombineCoupled(c: Cluster, v: NodeId, e: Effect)
    requires Coupled(c) && v in c.nodes && OthersSame(c.ledger, e.ledger, v) && Mirrors(e.ledger, v, e.node)
    ensures Coupled(Enact(c, v, e))
  {
    forall w | w in c.nodes && w != v ensures Mirrors(e.ledger, w, c.nodes[w]) {
      assert Mirrors(c.ledger, w, c.nodes[w]);
    }
  }

  lemma Combine(c: Cluster, v: NodeId, e: Effect)
    requires ElectInv(c) && v in c.nodes && Elects(c.ledger, v, e)
    ensures ElectInv(Enact(c, v, e))
  {
    CombineNodes(c, v, e);
    CombineMessages(c, v, e);
    CombineCoupled(c, v, e);
  }

  /* ---------- The pieces actions are made of ---------- */

  lemma Stay(g: Ledger, v: NodeId, n: Node)
    requires Mirrors(g, v, n)
    ensures Bind(g, v, n) == g && Grows(g, g, v)
  {
    assert g.term[v := g.term[v]] == g.term;
  }

  lemma RaiseReady(g: Ledger, v: NodeId, n: Node, t: nat)
    requires Ready(g, v, n) && n.stable.term <= t
    ensures ElectionInv(Raise(g, v, t)) && Grows(g, Raise(g, v, t), v)
  {
    RaiseKeepsElections(g, v, t);
  }

  /** Equal in everything elections depend on. */
  ghost predicate SameSeat(n: Node, n': Node) {
    && n'.role == n.role && n'.currentTerm == n.currentTerm && n'.votedFor == n.votedFor
    && n'.stable == n.stable && n'.log == n.log && n'.votes == n.votes && n'.pending == n.pending
    && (n.clients == map[] ==> n'.clients == map[])
  }

  lemma SameSeatReady(g: Ledger, v: NodeId, n: Node, n': Node)
    requires Ready(g, v, n) && SameSeat(n, n')
    ensures Ready(g, v, n')
  {
  }

  lemma ApplySameSeat(n: Node)
    ensures SameSeat(n, Apply(n))
  {
  }

  lemma StepDownReady(g: Ledger, v: NodeId, n: Node, t: nat, d: Disk)
    requires Ready(g, v, n) && n.currentTerm < t
    ensures Moves(g, v, Bind(g, v, StepDown(n, t, d)), StepDown(n, t, d))
    ensures d.Stored? ==> Bind(g, v, StepDown(n, t, d)) == Raise(g, v, t)
  {
    var n' := StepDown(n, t, d);
    RaiseReady(g, v, n, Max(g.term[v], n'.stable.term));
  }

  /** What n' has on disk is at least what n had, and at most its term in memory. */
  lemma BindReady(g: Ledger, v: NodeId, n: Node, n': Node)
    requires Ready(g, v, n) && n.stable.term <= n'.stable.term
    ensures ElectionInv(Bind(g, v, n')) && Grows(g, Bind(g, v, n'), v)
  {
    RaiseReady(g, v, n, Max(g.term[v], n'.stable.term));
  }

  /** Two majorities for one term cannot choose different winners, so the term is still free. */
  lemma StillFree(g: Ledger, v: NodeId, n: Node)
    requires ReignsWon(g) && Standing(g, v, n) && Quorum(n.votes, g.members)
    ensures n.currentTerm !in g.reign
    ensures Won(g, n.currentTerm, Reign(v, n.votes, n.log, n.log))
  {
    var r := Reign(v, n.votes, n.log, n.log);
    if n.currentTerm in g.reign {
      OneWinner(g, n.currentTerm, r, g.reign[n.currentTerm]);
      assert false;
    }
  }

  lemma CrownGrows(g: Ledger, v: NodeId, t: nat, r: Reign)
    requires t !in g.reign && r.leader == v
    ensures Grows(g, Crown(g, t, r), v)
  {
  }

  lemma WinReady(g: Ledger, v: NodeId, n: Node)
    requires Ready(g, v, n) && n.role.Candidate? && Quorum(n.votes, g.members)
    ensures Moves(g, v, NoteWin(g, v, n), BecomeLeader(n, v, g.members))
    ensures NoteWin(g, v, n) == Crown(g, n.currentTerm, Reign(v, n.votes, n.log, n.log))
    ensures n.currentTerm !in g.reign
  {
    StillFree(g, v, n);
    CrownGrows(g, v, n.currentTerm, Reign(v, n.votes, n.log, n.log));
    CrownKeepsElections(g, n.currentTerm, Reign(v, n.votes, n.log, n.log));
  }

  /* ---------- Timeouts ---------- */

  lemma NoBallotAbove(g: Ledger, v: NodeId, t: nat)
    requires BallotsCounted(g) && v in g.term && g.term[v] < t
    ensures Slot(t, v) !in g.ballot
  {
  }

  lemma NotYetWon(g: Ledger, v: NodeId, t: nat)
    requires ReignsWon(g) && BidsOwned(g) && Slot(t, v) !in g.ballot
    ensures t in g.reign ==> g.reign[t].leader != v
  {
    assert t in g.reign ==> Slot(t, g.reign[t].leader) in g.bid;
  }

  lemma StandGrows(g: Ledger, v: NodeId, t: nat, log: seq<Entry>)
    requires Slot(t, v) !in g.ballot && Slot(t, v) !in g.bid
    ensures Grows(g, Stand(g, v, t, log), v)
  {
  }

  lemma StandNode(g: Ledger, v: NodeId, m: Node)
    requires Mirrors(g, v, m) && v != NO_NODE && m.role.Candidate? && m.votes == {v} && m.votedFor == v
    requires m.stable == Stable(m.currentTerm, v) && m.pending == [] && m.clients == map[]
    requires forall t: nat :: Slot(t, v) in g.ballot ==> t < m.currentTerm && g.ballot[Slot(t, v)] != NO_NODE
    requires m.currentTerm in g.reign ==> g.reign[m.currentTerm].leader != v
    ensures var g' := Stand(g, v, m.currentTerm, m.log); NodeElect(g', v, m) && Mirrors(g', v, m)
  {
  }

  lemma StandReady(g: Ledger, v: NodeId, n: Node, m: Node)
    requires Ready(g, v, n) && !n.role.Leader?
    requires m == Campaigning(n, v)
    ensures Moves(g, v, Stand(Raise(g, v, m.currentTerm), v, m.currentTerm, n.log), m)
  {
    var t := m.currentTerm;
    var g1 := Raise(g, v, t);
    NoBallotAbove(g, v, t);
    NotYetWon(g, v, t);
    RaiseReady(g, v, n, t);
    StandLedger(g, v, t);
    StandNode(g1, v, m);
  }

  lemma StandLedger(g: Ledger, v: NodeId, t: nat)
    requires ElectionInv(g) && v in g.members && g.term[v] < t
    requires ElectionInv(Raise(g, v, t)) && Grows(g, Raise(g, v, t), v)
    ensures var g' := Stand(Raise(g, v, t), v, t, g.log[v]); ElectionInv(g') && Grows(g, g', v)
  {
    var g1 := Raise(g, v, t);
    NoBallotAbove(g, v, t);
    StandKeepsElections(g1, v);
    StandGrows(g1, v, t, g.log[v]);
    GrowsOn(g, g1, Stand(g1, v, t, g.log[v]), v);
  }

  lemma OnlyMember(s: set<NodeId>, v: NodeId)
    requires |s| == 1 && v in s
    ensures s == {v}
  {
    SubsetSize(s - {v}, {});
  }

  lemma TimeoutFailed(g: Ledger, v: NodeId, n: Node, n': Node)
    requires Ready(g, v, n)
    requires n'.role.Follower? && n'.currentTerm == n.currentTerm + 1 && n'.votedFor == v && n'.log == n.log
    requires n'.stable == n.stable || n'.stable == Stable(n.currentTerm + 1, v)
    requires n'.pending == [] && n'.clients == map[]
    ensures Moves(g, v, Bind(g, v, n'), n')
  {
    BindReady(g, v, n, n');
  }

  function Campaigning(n: Node, v: NodeId): Node {
    n.(role := Candidate, currentTerm := n.currentTerm + 1, votedFor := v, votes := {v},
       stable := Stable(n.currentTerm + 1, v))
  }

  lemma TimeoutShape(g: Ledger, v: NodeId, n: Node)
    requires Mirrors(g, v, n)
    ensures var e := OnTimeout(g, v, n, Stored);
            var m := Campaigning(n, v);
            var g' := Stand(Raise(g, v, m.currentTerm), v, m.currentTerm, n.log);
            if |g.members| == 1 then e == Effect(BecomeLeader(m, v, g.members), NoteWin(g', v, m), {}, {})
            else e == Effect(m, g', {VoteReq(VoteArgs(m.currentTerm, v, |n.log|, LastTerm(n.log)))}, {})
  {
  }

  lemma SoloElects(g: Ledger, v: NodeId, n: Node)
    requires Ready(g, v, n) && n.role.Candidate? && n.votes == {v} && |g.members| == 1
    ensures Moves(g, v, NoteWin(g, v, n), BecomeLeader(n, v, g.members))
  {
    OnlyMember(g.members, v);
    WinReady(g, v, n);
  }

  lemma StoredTimeoutElects(g: Ledger, v: NodeId, n: Node)
    requires Ready(g, v, n) && !n.role.Leader?
    ensures Elects(g, v, OnTimeout(g, v, n, Stored))
  {
    var m := Campaigning(n, v);
    var g' := Stand(Raise(g, v, m.currentTerm), v, m.currentTerm, n.log);
    TimeoutShape(g, v, n);
    StandReady(g, v, n, m);
    if |g.members| == 1 {
      SoloElects(g', v, m);
      GrowsOn(g, g', NoteWin(g', v, m), v);
    } else {
      assert g'.bid[Slot(m.currentTerm, v)] == n.log;
    }
  }

  lemma TimeoutElects(g: Ledger, v: NodeId, n: Node, d: Disk)
    requires Ready(g, v, n) && !n.role.Leader?
    ensures Elects(g, v, OnTimeout(g, v, n, d))
  {
    if d.Stored? {
      StoredTimeoutElects(g, v, n);
    } else {
      TimeoutFailed(g, v, n, StartElection(n, v, g.members, d));
    }
  }

  /* ---------- Votes ---------- */

  lemma CastGrows(g: Ledger, v: NodeId, c: NodeId)
    requires v in g.term && (Slot(g.term[v], v) in g.ballot ==> g.ballot[Slot(g.term[v], v)] == c)
    ensures Grows(g, Cast(g, v, g.term[v], c), v)
  {
  }

  lemma GrantNode(g: Ledger, v: NodeId, n: Node, c: NodeId)
    requires v in g.members && v in g.term && v in g.log && g.log[v] == n.log && g.term[v] == n.currentTerm
    requires NodeElect(g, v, n) && c != NO_NODE && (n.votedFor == NO_NODE || n.votedFor == c)
    requires Grows(g, Cast(g, v, n.currentTerm, c), v)
    ensures var m := n.(votedFor := c, stable := Stable(n.currentTerm, c));
            NodeElect(Cast(g, v, n.currentTerm, c), v, m) && Mirrors(Cast(g, v, n.currentTerm, c), v, m)
  {
  }

  /** A node that has already voted this term can only repeat itself. */
  lemma VoteRepeats(g: Ledger, v: NodeId, n: Node, c: NodeId)
    requires NodeElect(g, v, n) && (n.votedFor == NO_NODE || n.votedFor == c)
    ensures Slot(n.currentTerm, v) in g.ballot ==> g.ballot[Slot(n.currentTerm, v)] == c
  {
  }

  lemma GrantReady(g: Ledger, v: NodeId, n: Node, c: NodeId)
    requires Ready(g, v, n) && c != NO_NODE && Slot(n.currentTerm, c) in g.bid
    requires n.votedFor == NO_NODE || n.votedFor == c
    ensures Moves(g, v, Cast(Raise(g, v, n.currentTerm), v, n.currentTerm, c),
                  n.(votedFor := c, stable := Stable(n.currentTerm, c)))
  {
    var g1 := Raise(g, v, n.currentTerm);
    RaiseReady(g, v, n, n.currentTerm);
    VoteRepeats(g, v, n, c);
    CastGrows(g1, v, c);
    CastKeepsElections(g1, v, c);
    GrantNode(g1, v, n, c);
    GrowsOn(g, g1, Cast(g1, v, n.currentTerm, c), v);
  }

  lemma GrantFailed(g: Ledger, v: NodeId, n: Node, c: NodeId, d: Disk)
    requires Ready(g, v, n) && c != NO_NODE && (n.votedFor == NO_NODE || n.votedFor == c)
    ensures var n' := FailPending(Persist(n.(votedFor := c), d).(role := Follower)); Moves(g, v, Bind(g, v, n'), n')
  {
    VoteRepeats(g, v, n, c);
    BindReady(g, v, n, FailPending(Persist(n.(votedFor := c), d).(role := Follower)));
  }

  ghost predicate Grants(n: Node, req: VoteArgs) {
    && req.term == n.currentTerm && (n.votedFor == NO_NODE || n.votedFor == req.candidate)
    && UpToDate(req.lastLogIndex, req.lastLogTerm, n.log)
  }

  lemma SameTermShape(g: Ledger, v: NodeId, n: Node, req: VoteArgs, d: Disk, d': Disk)
    requires Mirrors(g, v, n) && req.term <= n.currentTerm
    ensures var e := OnVoteReq(g, v, n, req, d, d');
            if !Grants(n, req) then e == Effect(n, g, {VoteResp(v, req, VoteReply(n.currentTerm, false))}, {})
            else if !d'.Stored? then
              var n' := FailPending(Persist(n.(votedFor := req.candidate), d').(role := Follower));
              e == Effect(n', Bind(g, v, n'), {}, {})
            else e == Effect(n.(votedFor := req.candidate, stable := Stable(n.currentTerm, req.candidate)),
                             Cast(Raise(g, v, n.currentTerm), v, n.currentTerm, req.candidate),
                             {VoteResp(v, req, VoteReply(n.currentTerm, true))}, {})
  {
    Stay(g, v, n);
  }

  /** A vote request of the node's own term. */
  lemma SameTermVote(g: Ledger, v: NodeId, n: Node, req: VoteArgs, d: Disk, d': Disk)
    requires Ready(g, v, n) && MsgElect(g, VoteReq(req)) && req.term <= n.currentTerm
    ensures Elects(g, v, OnVoteReq(g, v, n, req, d, d'))
  {
    SameTermShape(g, v, n, req, d, d');
    Stay(g, v, n);
    if Grants(n, req) {
      CandidateNamed(g, req);
      if d'.Stored? {
        GrantReady(g, v, n, req.candidate);
      } else {
        GrantFailed(g, v, n, req.candidate, d');
      }
    }
  }

  lemma CandidateNamed(g: Ledger, req: VoteArgs)
    requires Shaped(g) && BidsOwned(g) && BallotsCounted(g) && NO_NODE !in g.members && MsgElect(g, VoteReq(req))
    ensures req.candidate != NO_NODE
  {
    assert Slot(req.term, req.candidate) in g.ballot;
  }

  lemma VoteReqElects(g: Ledger, v: NodeId, n: Node, req: VoteArgs, d: Disk, d': Disk)
    requires Ready(g, v, n) && MsgElect(g, VoteReq(req))
    ensures Elects(g, v, OnVoteReq(g, v, n, req, d, d'))
  {
    if req.term <= n.currentTerm {
      SameTermVote(g, v, n, req, d, d');
    } else {
      var g1, n1 := Raise(g, v, req.term), StepDown(n, req.term, d);
      StepDownReady(g, v, n, req.term, d);
      if d.Stored? {
        SameTermVote(g1, v, n1, req, d, d');
        HigherTermVote(g, v, n, req, d, d');
        GrowsOn(g, g1, OnVoteReq(g, v, n, req, d, d').ledger, v);
      }
    }
  }

  /** Stepping down first and then hearing the request is the same as hearing it. */
  lemma HigherTermVote(g: Ledger, v: NodeId, n: Node, req: VoteArgs, d: Disk, d': Disk)
    requires Mirrors(g, v, n) && n.currentTerm < req.term && d.Stored?
    ensures OnVoteReq(g, v, n, req, d, d') == OnVoteReq(Raise(g, v, req.term), v, StepDown(n, req.term, d), req, d, d')
  {
    assert g.term[v := req.term][v := req.term] == g.term[v := req.term];
  }

  lemma VoteRespShape(g: Ledger, v: NodeId, n: Node, req: VoteArgs, voter: NodeId, r: VoteReply, d: Disk)
    requires Mirrors(g, v, n)
    ensures var e := OnVoteResp(g, v, n, req, voter, r, d);
            var k := n.(votes := n.votes + {voter});
            if !n.role.Candidate? || n.currentTerm != req.term then e == Effect(n, g, {}, {})
            else if r.term > n.currentTerm then
              e == Effect(StepDown(n, r.term, d), Bind(g, v, StepDown(n, r.term, d)), {}, {})
            else if !r.granted then e == Effect(n, g, {}, {})
            else if |k.votes| >= |g.members| / 2 + 1 then
              e == Effect(BecomeLeader(k, v, g.members), NoteWin(g, v, k), {}, {})
            else e == Effect(k, g, {}, {})
  {
    Stay(g, v, n);
  }

  lemma VoteRespElects(g: Ledger, v: NodeId, n: Node, req: VoteArgs, voter: NodeId, r: VoteReply, d: Disk)
    requires Ready(g, v, n) && MsgElect(g, VoteResp(voter, req, r)) && req.candidate == v
    ensures Elects(g, v, OnVoteResp(g, v, n, req, voter, r, d))
  {
    VoteRespShape(g, v, n, req, voter, r, d);
    Stay(g, v, n);
    if n.role.Candidate? && n.currentTerm == req.term {
      if r.term > n.currentTerm {
        StepDownReady(g, v, n, r.term, d);
      } else if r.granted {
        CountedVote(g, v, n, voter);
        var k := n.(votes := n.votes + {voter});
        if |k.votes| >= |g.members| / 2 + 1 {
          WinReady(g, v, k);
        }
      }
    }
  }

  lemma CountedVote(g: Ledger, v: NodeId, n: Node, voter: NodeId)
    requires Ready(g, v, n) && n.role.Candidate?
    requires Slot(n.currentTerm, voter) in g.ballot && g.ballot[Slot(n.currentTerm, voter)] == v
    ensures Ready(g, v, n.(votes := n.votes + {voter}))
  {
  }

  /* ---------- Log traffic ---------- */

  lemma ExtendGrows(g: Ledger, v: NodeId, t: nat, log: seq<Entry>)
    requires v in g.log
    ensures Grows(g, Extend(g, v, t, log), v)
  {
  }

  lemma ExtendReady(g: Ledger, v: NodeId, n: Node, n': Node)
    requires Ready(g, v, n) && n.role.Leader?
    requires n' == n.(log := n'.log, pending := n'.pending, clients := n'.clients)
    ensures Moves(g, v, Extend(g, v, n.currentTerm, n'.log), n')
  {
    ExtendGrows(g, v, n.currentTerm, n'.log);
    ExtendKeepsElections(g, v, n.currentTerm, n'.log);
  }

  lemma ProposeElects(g: Ledger, v: NodeId, n: Node, call: Call, maxBatch: int)
    requires Ready(g, v, n)
    ensures Elects(g, v, OnPropose(g, v, n, call, maxBatch))
  {
    Stay(g, v, n);
    if n.role.Leader? {
      ExtendReady(g, v, n, Submit(n, call, maxBatch));
    }
  }

  lemma BatchTickElects(g: Ledger, v: NodeId, n: Node)
    requires Ready(g, v, n) && n.role.Leader? && n.pending != []
    ensures Elects(g, v, OnBatchTick(g, v, n))
  {
    ExtendReady(g, v, n, Flush(n));
  }

  lemma AcceptGrows(g: Ledger, v: NodeId, t: nat, log: seq<Entry>, n: nat)
    requires v in g.log
    ensures Grows(g, Accept(g, v, t, log, n), v)
  {
  }

  lemma AcceptedShape(m: Node, req: AppendArgs)
    requires req.prevLogIndex <= |m.log|
    ensures SameSeat(m.(log := Merge(m.log, req.prevLogIndex, req.entries)), Accepted(m, req).node)
  {
    var k := m.(log := Merge(m.log, req.prevLogIndex, req.entries));
    ApplySameSeat(CommitTo(k, req.leaderCommit));
  }

  lemma MergedReady(g: Ledger, v: NodeId, m: Node, log: seq<Entry>, k: nat)
    requires Ready(g, v, m) && m.role.Follower?
    ensures Moves(g, v, Accept(Raise(g, v, m.currentTerm), v, m.currentTerm, log, k), m.(log := log))
  {
    var g1 := Raise(g, v, m.currentTerm);
    RaiseReady(g, v, m, m.currentTerm);
    AcceptGrows(g1, v, m.currentTerm, log, k);
    AcceptKeepsElections(g1, v, m.currentTerm, log, k);
    GrowsOn(g, g1, Accept(g1, v, m.currentTerm, log, k), v);
  }

  lemma AcceptedElects(g: Ledger, v: NodeId, m: Node, t: nat, h: Heard, k: nat, req: AppendArgs)
    requires Ready(g, v, m) && m.role.Follower? && m.currentTerm == t
    requires h.reply.Some? && SameSeat(m.(log := h.node.log), h.node)
    ensures Elects(g, v, Effect(h.node, Accept(Raise(g, v, t), v, t, h.node.log, k),
                                {AppendResp(v, req, h.reply.value)}, h.answers))
  {
    MergedReady(g, v, m, h.node.log, k);
    SameSeatReady(Accept(Raise(g, v, t), v, t, h.node.log, k), v, m.(log := h.node.log), h.node);
  }

  /** A leader never hears a rival of its own term, so no pending call is left behind. */
  lemma FollowReady(g: Ledger, v: NodeId, n: Node, req: AppendArgs)
    requires Ready(g, v, n) && MsgElect(g, AppendReq(v, req)) && req.term == n.currentTerm
    ensures Ready(g, v, n.(role := Follower))
  {
  }

  ghost predicate Matches(n: Node, req: AppendArgs) {
    && req.term == n.currentTerm && n.snapIndex <= req.prevLogIndex <= |n.log|
    && TermAt(n.log, req.prevLogIndex) == req.prevLogTerm
  }

  lemma MatchedHandled(n: Node, req: AppendArgs, d: Disk)
    requires Matches(n, req)
    ensures var h := HandleAppend(n, req, d);
            && h == Accepted(n.(role := Follower), req) && h.node.log == Merge(n.log, req.prevLogIndex, req.entries)
            && SameSeat(n.(role := Follower).(log := h.node.log), h.node)
            && h.reply == Some(AppendReply(n.currentTerm, true, 0, 0))
  {
    AcceptedShape(n.(role := Follower), req);
  }

  lemma UnmatchedHandled(n: Node, req: AppendArgs, d: Disk)
    requires req.term <= n.currentTerm && !Matches(n, req)
    ensures var h := HandleAppend(n, req, d);
            && h.node == (if req.term < n.currentTerm then n else n.(role := Follower))
            && h.reply.Some? && !h.reply.value.success && h.answers == {}
  {
  }

  /** The effect of a handled request, once the handler's outcome is known. */
  lemma HandledEffect(g: Ledger, v: NodeId, n: Node, req: AppendArgs, d: Disk, h: Heard)
    requires Mirrors(g, v, n) && h == HandleAppend(n, req, d) && h.reply.Some? && h.node.stable == n.stable
    ensures OnAppendReq(g, v, n, req, d) ==
            Effect(h.node, if h.reply.value.success
                           then Accept(Raise(g, v, req.term), v, req.term, h.node.log, Reach(req)) else g,
                   {AppendResp(v, req, h.reply.value)}, h.answers)
  {
    Stay(g, v, n);
  }

  lemma MatchedShape(g: Ledger, v: NodeId, n: Node, req: AppendArgs, d: Disk) returns (h: Heard)
    requires Mirrors(g, v, n) && Matches(n, req)
    ensures h == Accepted(n.(role := Follower), req) && h.node.log == Merge(n.log, req.prevLogIndex, req.entries)
    ensures h.reply.Some? && SameSeat(n.(role := Follower).(log := h.node.log), h.node)
    ensures OnAppendReq(g, v, n, req, d) ==
            Effect(h.node, Accept(Raise(g, v, req.term), v, req.term, h.node.log, Reach(req)),
                   {AppendResp(v, req, h.reply.value)}, h.answers)
  {
    h := HandleAppend(n, req, d);
    MatchedHandled(n, req, d);
    HandledEffect(g, v, n, req, d, h);
  }

  lemma MatchedAppend(g: Ledger, v: NodeId, n: Node, m: Node, req: AppendArgs, d: Disk)
    requires Ready(g, v, m) && m == n.(role := Follower) && Matches(n, req)
    ensures Elects(g, v, OnAppendReq(g, v, n, req, d))
  {
    var h := MatchedShape(g, v, n, req, d);
    AcceptedElects(g, v, m, req.term, h, Reach(req), req);
  }

  lemma UnmatchedAppend(g: Ledger, v: NodeId, n: Node, m: Node, req: AppendArgs, d: Disk)
    requires Ready(g, v, m) && req.term <= n.currentTerm && !Matches(n, req)
    requires m == if req.term < n.currentTerm then n else n.(role := Follower)
    ensures Elects(g, v, OnAppendReq(g, v, n, req, d))
  {
    UnmatchedHandled(n, req, d);
    HandledEffect(g, v, n, req, d, HandleAppend(n, req, d));
    Stay(g, v, n);
  }

  lemma SameTermAppend(g: Ledger, v: NodeId, n: Node, req: AppendArgs, d: Disk)
    requires Ready(g, v, n) && MsgElect(g, AppendReq(v, req)) && req.term <= n.currentTerm
    ensures Elects(g, v, OnAppendReq(g, v, n, req, d))
  {
    var m := if req.term < n.currentTerm then n else n.(role := Follower);
    if req.term == n.currentTerm {
      FollowReady(g, v, n, req);
    }
    if Matches(n, req) {
      MatchedAppend(g, v, n, m, req, d);
    } else {
      UnmatchedAppend(g, v, n, m, req, d);
    }
  }

  lemma HigherTermHandled(n: Node, req: AppendArgs, d: Disk)
    requires n.currentTerm < req.term && d.Stored?
    ensures HandleAppend(n, req, d) == HandleAppend(StepDown(n, req.term, d), req, d)
    ensures HandleAppend(n, req, d).node.currentTerm == req.term == HandleAppend(n, req, d).node.stable.term
  {
    var m := StepDown(n, req.term, d);
    assert m == m.(role := Follower);
    if req.prevLogIndex <= |m.log| {
      AcceptedShape(m, req);
    }
  }

  lemma HigherTermAppend(g: Ledger, v: NodeId, n: Node, req: AppendArgs, d: Disk)
    requires Mirrors(g, v, n) && n.currentTerm < req.term && d.Stored?
    ensures OnAppendReq(g, v, n, req, d) == OnAppendReq(Raise(g, v, req.term), v, StepDown(n, req.term, d), req, d)
  {
    HigherTermHandled(n, req, d);
    assert g.term[v := req.term][v := req.term] == g.term[v := req.term];
  }

  lemma FailedAppendShape(g: Ledger, v: NodeId, n: Node, req: AppendArgs, d: Disk)
    requires n.currentTerm < req.term && !d.Stored?
    ensures var n' := StepDown(n, req.term, d); OnAppendReq(g, v, n, req, d) == Effect(n', Bind(g, v, n'), {}, {})
  {
  }

  lemma AppendReqElects(g: Ledger, v: NodeId, n: Node, req: AppendArgs, d: Disk)
    requires Ready(g, v, n) && MsgElect(g, AppendReq(v, req))
    ensures Elects(g, v, OnAppendReq(g, v, n, req, d))
  {
    if req.term <= n.currentTerm {
      SameTermAppend(g, v, n, req, d);
    } else {
      var g1, n1 := Raise(g, v, req.term), StepDown(n, req.term, d);
      StepDownReady(g, v, n, req.term, d);
      if d.Stored? {
        SameTermAppend(g1, v, n1, req, d);
        HigherTermAppend(g, v, n, req, d);
        GrowsOn(g, g1, OnAppendReq(g, v, n, req, d).ledger, v);
      } else {
        FailedAppendShape(g, v, n, req, d);
      }
    }
  }

  lemma AdvanceSameSeat(n: Node, id: NodeId, members: set<NodeId>)
    ensures SameSeat(n, AdvanceCommit(n, id, members).node)
  {
    var point := CommitPoint(n, id, members, |n.log|);
    ApplySameSeat(n.(commitIndex := point));
  }

  lemma AppendReplyShape(n: Node, id: NodeId, members: set<NodeId>, req: AppendArgs, peer: NodeId, r: AppendReply,
                         d: Disk)
    ensures var h := HandleAppendReply(n, id, members, req, peer, r, d);
            SameSeat(n, h.node) || (n.currentTerm < r.term && h.node == StepDown(n, r.term, d))
  {
    AdvanceSameSeat(n.(matchIndex := n.matchIndex[peer := MatchedBy(req)],
                       nextIndex := n.nextIndex[peer := MatchedBy(req) + 1]), id, members);
  }

  lemma AppendRespElects(g: Ledger, v: NodeId, n: Node, req: AppendArgs, peer: NodeId, r: AppendReply, d: Disk)
    requires Ready(g, v, n)
    ensures Elects(g, v, OnAppendResp(g, v, n, req, peer, r, d))
  {
    AppendReplyShape(n, v, g.members, req, peer, r, d);
    var n' := HandleAppendReply(n, v, g.members, req, peer, r, d).node;
    if SameSeat(n, n') {
      Stay(g, v, n);
      SameSeatReady(g, v, n, n');
    } else {
      StepDownReady(g, v, n, r.term, d);
    }
  }

  /** A restart falls back to the durable term, which no counted vote exceeds. */
  lemma CrashElects(g: Ledger, v: NodeId, n: Node)
    requires Ready(g, v, n)
    ensures Elects(g, v, OnCrash(g, v, n))
  {
    RaiseReady(g, v, n, n.stable.term);
  }

  lemma SendElects(g: Ledger, v: NodeId, n: Node, peer: NodeId)
    requires Ready(g, v, n) && n.role.Leader? && peer != v
    ensures Elects(g, v, OnSend(g, v, n, peer))
  {
    Stay(g, v, n);
  }

  lemma LocalElects(g: Ledger, v: NodeId, n: Node, n': Node)
    requires Ready(g, v, n) && SameSeat(n, n')
    ensures Elects(g, v, Effect(n', g, {}, {}))
  {
    Stay(g, v, n);
    SameSeatReady(g, v, n, n');
  }

  lemma IsReady(c: Cluster, v: NodeId)
    requires ElectInv(c) && v in c.nodes
    ensures Ready(c.ledger, v, c.nodes[v])
  {
    assert Mirrors(c.ledger, v, c.nodes[v]) && NodeElect(c.ledger, v, c.nodes[v]);
  }

  ghost predicate IsElection(a: Action) {
    a.Timeout? || a.GetVoteReq? || a.GetVoteResp? || a.Crash?
  }

  lemma ElectionActs(g: Ledger, n: Node, members: set<NodeId>, net: set<Msg>, a: Action)
    requires Ready(g, a.node, n) && Allowed(n, members, net, a) && IsElection(a)
    requires forall m :: m in net ==> MsgElect(g, m)
    ensures Elects(g, a.node, Act(g, n, a))
  {
    match a
    case Timeout(v, d) => TimeoutElects(g, v, n, d);
    case GetVoteReq(v, args, d, d') => VoteReqElects(g, v, n, args, d, d');
    case GetVoteResp(v, args, voter, r, d) => VoteRespElects(g, v, n, args, voter, r, d);
    case Crash(v) => CrashElects(g, v, n);
  }

  ghost predicate IsLocal(a: Action) {
    a.GiveUp? || a.CheckCompaction?
  }

  lemma LocalShape(g: Ledger, n: Node, a: Action)
    requires IsLocal(a)
    ensures var e := Act(g, n, a); e == Effect(e.node, g, {}, {}) && SameSeat(n, e.node)
  {
  }

  lemma AppendActs(g: Ledger, n: Node, members: set<NodeId>, net: set<Msg>, a: Action)
    requires Ready(g, a.node, n) && Allowed(n, members, net, a) && (a.GetAppendReq? || a.GetAppendResp?)
    requires forall m :: m in net ==> MsgElect(g, m)
    ensures Elects(g, a.node, Act(g, n, a))
  {
    match a
    case GetAppendReq(v, args, d) => AppendReqElects(g, v, n, args, d);
    case GetAppendResp(v, args, peer, r, d) => AppendRespElects(g, v, n, args, peer, r, d);
  }

  lemma LogActs(g: Ledger, n: Node, members: set<NodeId>, net: set<Msg>, a: Action)
    requires Ready(g, a.node, n) && Allowed(n, members, net, a) && (a.Propose? || a.BatchTick? || a.Send?)
    ensures Elects(g, a.node, Act(g, n, a))
  {
    match a
    case Propose(v, call, maxBatch) => ProposeElects(g, v, n, call, maxBatch);
    case BatchTick(v) => BatchTickElects(g, v, n);
    case Send(v, peer) => SendElects(g, v, n, peer);
  }

  lemma ActElects(g: Ledger, n: Node, members: set<NodeId>, net: set<Msg>, a: Action)
    requires Ready(g, a.node, n) && Allowed(n, members, net, a)
    requires forall m :: m in net ==> MsgElect(g, m)
    ensures Elects(g, a.node, Act(g, n, a))
  {
    if IsElection(a) {
      ElectionActs(g, n, members, net, a);
    } else if IsLocal(a) {
      LocalShape(g, n, a);
      LocalElects(g, a.node, n, Act(g, n, a).node);
    } else if a.GetAppendReq? || a.GetAppendResp? {
      AppendActs(g, n, members, net, a);
    } else {
      LogActs(g, n, members, net, a);
    }
  }

  lemma StepElects(c: Cluster, a: Action)
    requires ElectInv(c) && Enabled(c, a)
    ensures ElectInv(Do(c, a)) && WinnersGrow(c.ledger, Do(c, a).ledger, a.node)
  {
    var n := c.nodes[a.node];
    IsReady(c, a.node);
    ActElects(c.ledger, n, c.nodes.Keys, c.net, a);
    Combine(c, a.node, Act(c.ledger, n, a));
  }

  lemma BootElects(members: set<NodeId>)
    requires NO_NODE !in members
    ensures ElectInv(Boot(members))
  {
  }

  /* ---------- Runs ---------- */

  lemma {:induction false} RunElects(members: set<NodeId>, r: History, i: nat)
    requires IsRun(members, r) && i < |r.states|
    ensures ElectInv(r.states[i]) && r.states[i].nodes.Keys == members
    decreases i
  {
    if i == 0 {
      BootElects(members);
    } else {
      RunElects(members, r, i - 1);
      assert Next(r.states[i - 1], r.actions[i - 1], r.states[i - 1 + 1]);
      StepElects(r.states[i - 1], r.actions[i - 1]);
    }
  }

  /** A won term keeps its winner for the rest of the run. */
  lemma {:induction false} WinnerStays(members: set<NodeId>, r: History, i: nat, j: nat, t: nat)
    requires IsRun(members, r) && i <= j < |r.states| && t in r.states[i].ledger.reign
    ensures t in r.states[j].ledger.reign
    ensures r.states[j].ledger.reign[t].leader == r.states[i].ledger.reign[t].leader
    decreases j - i
  {
    if i < j {
      WinnerStays(members, r, i, j - 1, t);
      RunElects(members, r, j - 1);
      assert Next(r.states[j - 1], r.actions[j - 1], r.states[j - 1 + 1]);
      StepElects(r.states[j - 1], r.actions[j - 1]);
    }
  }

  /** At most one node is ever leader of a term, however far apart in the run. */
  lemma ElectionSafety(members: set<NodeId>, r: History, i: nat, v: NodeId, j: nat, w: NodeId)
    requires IsRun(members, r) && i <= j < |r.states|
    requires v in r.states[i].nodes && r.states[i].nodes[v].role.Leader?
    requires w in r.states[j].nodes && r.states[j].nodes[w].role.Leader?
    requires r.states[i].nodes[v].currentTerm == r.states[j].nodes[w].currentTerm
    ensures v == w
  {
    RunElects(members, r, i);
    RunElects(members, r, j);
    assert NodeElect(r.states[i].ledger, v, r.states[i].nodes[v]);
    assert NodeElect(r.states[j].ledger, w, r.states[j].nodes[w]);
    WinnerStays(members, r, i, j, r.states[i].nodes[v].currentTerm);
  }
}
