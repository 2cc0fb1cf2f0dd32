/** What each action does to its node, and what it sends and answers, keeps the safety invariants. */
module RaftSafetySteps {
  import opened Basics
  import opened RaftTypes
  import opened RaftLedger
  import opened RaftLedgerSteps
  import opened RaftLedgerProof
  import opened RaftNode
  import opened RaftCluster
  import opened RaftElection
  import opened RaftSafety
  import opened RaftSafetyLedger

  lemma RaiseLater(g: Ledger, v: NodeId, t: nat)
    requires v in g.term && g.term[v] <= t
    ensures Later(g, Raise(g, v, t))
  {
  }

  lemma IdleOutput(g: Ledger, v: NodeId, n: Node, n': Node)
    requires NodeSafe(g, v, n) && SameLog(n, n')
    ensures Output(v, Effect(n', g, {}, {}))
  {
    LaterSame(g);
    SameLogSafe(g, g, v, n, n');
  }

  lemma DemotedOutput(g: Ledger, v: NodeId, n: Node, n': Node, g': Ledger)
    requires NodeSafe(g, v, n) && Demoted(n, n') && Later(g, g')
    ensures Output(v, Effect(n', g', {}, {}))
  {
    DemotedSafe(g, g', v, n, n');
  }

  /* ---------- Elections ---------- */

  /** A new leader has written nothing yet, and its match indexes promise nothing. */
  lemma WinnerOutput(g: Ledger, v: NodeId, n: Node, m: Node, g': Ledger, members: set<NodeId>)
    requires NodeSafe(g, v, n) && Demoted(n, m) && Later(g, g') && TermsBelow(m.log, m.currentTerm)
    requires m.currentTerm in g'.reign && g'.reign[m.currentTerm].log == m.log
    requires v in g'.term && m.currentTerm <= g'.term[v]
    ensures Output(v, Effect(BecomeLeader(m, v, members), g', {}, {}))
  {
    DemotedSafe(g, g', v, n, m);
  }

  lemma CampaignDemotes(g: Ledger, v: NodeId, n: Node)
    requires NodeElect(g, v, n) && !n.role.Leader?
    ensures Demoted(n, Campaigning(n, v))
  {
  }

  lemma StoredTimeoutOutput(g: Ledger, v: NodeId, n: Node)
    requires NodeSafe(g, v, n) && Mirrors(g, v, n) && NodeElect(g, v, n) && !n.role.Leader?
    requires TermsBelow(n.log, Campaigning(n, v).currentTerm) && Later(g, OnTimeout(g, v, n, Stored).ledger)
    ensures Output(v, OnTimeout(g, v, n, Stored))
  {
    var m := Campaigning(n, v);
    TimeoutShape(g, v, n);
    CampaignDemotes(g, v, n);
    if |g.members| == 1 {
      WinnerOutput(g, v, n, m, OnTimeout(g, v, n, Stored).ledger, g.members);
    } else {
      DemotedOutput(g, v, n, m, OnTimeout(g, v, n, Stored).ledger);
    }
  }

  lemma TimeoutOutput(g: Ledger, v: NodeId, n: Node, d: Disk)
    requires NodeSafe(g, v, n) && Mirrors(g, v, n) && NodeElect(g, v, n) && !n.role.Leader?
    requires NodeLogs(g) && Later(g, OnTimeout(g, v, n, d).ledger)
    ensures Output(v, OnTimeout(g, v, n, d))
  {
    if d.Stored? {
      StoredTimeoutOutput(g, v, n);
    } else {
      DemotedOutput(g, v, n, StartElection(n, v, g.members, d), OnTimeout(g, v, n, d).ledger);
    }
  }

  lemma VotesOnly(v: NodeId, n: Node, g: Ledger, sent: set<Msg>)
    requires Output(v, Effect(n, g, {}, {})) && (forall m :: m in sent ==> m.VoteResp?)
    ensures Output(v, Effect(n, g, sent, {}))
  {
  }

  lemma SameTermVoteOutput(g: Ledger, v: NodeId, n: Node, req: VoteArgs, d: Disk, d': Disk)
    requires NodeSafe(g, v, n) && Mirrors(g, v, n) && req.term <= n.currentTerm
    requires Later(g, OnVoteReq(g, v, n, req, d, d').ledger)
    ensures Output(v, OnVoteReq(g, v, n, req, d, d'))
  {
    var e := OnVoteReq(g, v, n, req, d, d');
    SameTermShape(g, v, n, req, d, d');
    if Grants(n, req) && !d'.Stored? {
      DemotedOutput(g, v, n, e.node, e.ledger);
    } else {
      SameLogSafe(g, e.ledger, v, n, e.node);
      VotesOnly(v, e.node, e.ledger, e.sent);
    }
  }

  lemma VoteReqOutput(g: Ledger, v: NodeId, n: Node, req: VoteArgs, d: Disk, d': Disk)
    requires NodeSafe(g, v, n) && Mirrors(g, v, n)
    requires Later(g, OnVoteReq(g, v, n, req, d, d').ledger)
    ensures Output(v, OnVoteReq(g, v, n, req, d, d'))
  {
    if req.term <= n.currentTerm {
      SameTermVoteOutput(g, v, n, req, d, d');
    } else if d.Stored? {
      HigherTermVoteOutput(g, v, n, req, d, d');
    } else {
      StepDownDemotes(n, req.term, d);
      DemotedOutput(g, v, n, StepDown(n, req.term, d), OnVoteReq(g, v, n, req, d, d').ledger);
    }
  }

  lemma CastLater(g: Ledger, v: NodeId, t: nat, c: NodeId)
    ensures Later(g, Cast(g, v, t, c))
  {
  }

  lemma HigherTermVoteOutput(g: Ledger, v: NodeId, n: Node, req: VoteArgs, d: Disk, d': Disk)
    requires NodeSafe(g, v, n) && Mirrors(g, v, n) && n.currentTerm < req.term && d.Stored?
    ensures Output(v, OnVoteReq(g, v, n, req, d, d'))
  {
    var g1, n1 := Raise(g, v, req.term), StepDown(n, req.term, d);
    StepDownDemotes(n, req.term, d);
    RaiseLater(g, v, req.term);
    DemotedSafe(g, g1, v, n, n1);
    SameTermShape(g1, v, n1, req, d, d');
    LaterSame(g1);
    CastLater(g1, v, n1.currentTerm, req.candidate);
    SameTermVoteOutput(g1, v, n1, req, d, d');
    HigherTermVote(g, v, n, req, d, d');
  }

  lemma VoteRespOutput(g: Ledger, v: NodeId, n: Node, req: VoteArgs, voter: NodeId, r: VoteReply, d: Disk)
    requires NodeSafe(g, v, n) && Mirrors(g, v, n) && NodeElect(g, v, n) && BidLogs(g) && ElectionInv(g)
    requires Later(g, OnVoteResp(g, v, n, req, voter, r, d).ledger)
    ensures Output(v, OnVoteResp(g, v, n, req, voter, r, d))
  {
    var e := OnVoteResp(g, v, n, req, voter, r, d);
    VoteRespShape(g, v, n, req, voter, r, d);
    var k := n.(votes := n.votes + {voter});
    if !n.role.Candidate? || n.currentTerm != req.term || (r.term <= n.currentTerm && !r.granted) {
      IdleOutput(g, v, n, n);
    } else if r.term > n.currentTerm {
      StepDownDemotes(n, r.term, d);
      DemotedOutput(g, v, n, StepDown(n, r.term, d), e.ledger);
    } else if |k.votes| >= |g.members| / 2 + 1 {
      assert TermsBelow(g.bid[Slot(n.currentTerm, v)], n.currentTerm);
      assert Slot(n.currentTerm, v) in g.ballot;
      WinnerOutput(g, v, n, k, e.ledger, g.members);
    } else {
      IdleOutput(g, v, n, k);
    }
  }

  /* ---------- The leader's log ---------- */

  lemma OwnAcked(g: Ledger, v: NodeId, t: nat, log: seq<Entry>, k: nat)
    requires OwnEntry(Extend(g, v, t, log), t, k) && t in g.reign
    ensures Acked(Extend(g, v, t, log), v, t, k)
  {
  }

  /** Leader n stores what is pending. */
  lemma FlushOutput(g: Ledger, v: NodeId, n: Node)
    requires NodeSafe(g, v, n) && n.role.Leader?
    requires Later(g, Extend(g, v, n.currentTerm, n.log + n.pending))
    ensures Output(v, Effect(Flush(n), Extend(g, v, n.currentTerm, n.log + n.pending), {}, {}))
  {
    var g' := Extend(g, v, n.currentTerm, n.log + n.pending);
    CommittedStays(g, g', n.log[..n.commitIndex], g.term[v], g'.term[v]);
    assert Flush(n).log[..n.commitIndex] == n.log[..n.commitIndex];
    assert Flush(n).log[n.bootIndex..n.lastApplied] == n.log[n.bootIndex..n.lastApplied];
    assert Flush(n).log + [] == n.log + n.pending;
    forall k: nat | OwnEntry(g', n.currentTerm, k) ensures Acked(g', v, n.currentTerm, k) {
      OwnAcked(g, v, n.currentTerm, n.log + n.pending, k);
    }
  }

  /** The caller's entry gets the next free index, and the caller waits for exactly that index. */
  lemma EnqueuedWaits(n: Node, call: Call)
    requires Waiting(n) && n.lastApplied <= |n.log|
    ensures Waiting(Enqueued(n, call))
  {
    var m := Enqueued(n, call);
    var last := |n.log| + |n.pending|;
    assert (m.log + m.pending)[..last] == n.log + n.pending;
    assert (m.log + m.pending)[last] == m.pending[|n.pending|];
    forall i | i in m.clients
      ensures m.lastApplied < i <= |m.log| + |m.pending| && (m.log + m.pending)[i - 1].data == m.clients[i].data
    {
      if i != last + 1 {
        assert (m.log + m.pending)[..last][i - 1] == (n.log + n.pending)[i - 1];
      }
    }
  }

  lemma ProposeOutput(g: Ledger, v: NodeId, n: Node, call: Call, maxBatch: int)
    requires NodeSafe(g, v, n) && Later(g, OnPropose(g, v, n, call, maxBatch).ledger)
    ensures Output(v, OnPropose(g, v, n, call, maxBatch))
  {
    SubmitShape(g, v, n, call, maxBatch);
    if n.role.Leader? {
      var m := Enqueued(n, call);
      EnqueuedWaits(n, call);
      assert NodeSafe(g, v, m);
      if OnPropose(g, v, n, call, maxBatch) == Effect(m, g, {}, {}) {
        IdleOutput(g, v, m, m);
      } else {
        FlushOutput(g, v, m);
      }
    } else {
      IdleOutput(g, v, n, n);
    }
  }

  lemma BatchTickOutput(g: Ledger, v: NodeId, n: Node)
    requires NodeSafe(g, v, n) && n.role.Leader? && n.pending != [] && Later(g, OnBatchTick(g, v, n).ledger)
    ensures Output(v, OnBatchTick(g, v, n))
  {
    FlushOutput(g, v, n);
  }

  /** Commit coverage: a request reaches at least as far as the commit index it carries. */
  lemma RequestSafe(g: Ledger, v: NodeId, n: Node, peer: NodeId)
    requires NodeSafe(g, v, n) && Mirrors(g, v, n) && n.role.Leader? && BuildAppend(n, v, peer).Some?
    ensures ArgsSafe(g, BuildAppend(n, v, peer).value)
  {
    var r := BuildAppend(n, v, peer).value;
    assert Reach(r) == |n.log|;
    assert n.log[r.prevLogIndex..] == n.log[r.prevLogIndex..Reach(r)];
  }

  lemma SendOutput(g: Ledger, v: NodeId, n: Node, peer: NodeId)
    requires NodeSafe(g, v, n) && Mirrors(g, v, n) && n.role.Leader?
    ensures Output(v, OnSend(g, v, n, peer))
  {
    if BuildAppend(n, v, peer).Some? {
      RequestSafe(g, v, n, peer);
    }
  }

  /* ---------- A follower accepts ---------- */

  /** Applying hands out exactly the committed entries not handed out before. */
  lemma ApplyHands(n: Node)
    requires Applying(n)
    ensures Applying(Apply(n)) && Apply(n).lastApplied == n.commitIndex
  {
    assert n.log[n.bootIndex..n.lastApplied] + n.log[n.lastApplied..n.commitIndex] == n.log[n.bootIndex..n.commitIndex];
  }

  /** What was handed out stays in the log when only the part above the commit index changes. */
  lemma RelogApplying(n: Node, log: seq<Entry>)
    requires Applying(n) && n.log[..n.commitIndex] <= log
    ensures Applying(n.(log := log)) && log[..n.commitIndex] == n.log[..n.commitIndex]
  {
    var p := n.log[..n.commitIndex];
    assert log[n.bootIndex..n.lastApplied] == p[n.bootIndex..n.lastApplied] == n.log[n.bootIndex..n.lastApplied];
  }

  lemma AcceptedOutput(g: Ledger, v: NodeId, m: Node, req: AppendArgs)
    requires Applying(m) && v in g.term && Committed(g, m.log[..m.commitIndex], g.term[v])
    requires m.role.Follower? && m.clients == map[] && m.pending == [] && req.prevLogIndex <= |m.log|
    requires var log := Merge(m.log, req.prevLogIndex, req.entries);
             && m.log[..m.commitIndex] <= log
             && req.leaderCommit <= |log| && Committed(g, log[..req.leaderCommit], g.term[v])
    ensures NodeSafe(g, v, Accepted(m, req).node) && Accepted(m, req).answers == {}
  {
    var k := m.(log := Merge(m.log, req.prevLogIndex, req.entries));
    RelogApplying(m, k.log);
    if req.leaderCommit > m.commitIndex {
      ApplyHands(CommitTo(k, req.leaderCommit));
    }
  }

  lemma MergeKeepsCommitted(g: Ledger, v: NodeId, n: Node, req: AppendArgs)
    requires ReignLogs(g) && NodeLogs(g) && Complete(g) && Serves(g, v, n, req) && ArgsSafe(g, req) && Matches(n, req)
    requires n.commitIndex <= |n.log| && Committed(g, n.log[..n.commitIndex], g.term[v])
    ensures n.log[..n.commitIndex] <= Merge(n.log, req.prevLogIndex, req.entries)
  {
    JoinAgrees(g, v, n, req);
    AcceptKeepsCommitted(g, v, req.prevLogIndex, Reach(req), n.log[..n.commitIndex]);
  }

  /** A follower that takes the leader's commit index has matched everything below it. */
  lemma MergeCoversCommit(g: Ledger, v: NodeId, n: Node, req: AppendArgs)
    requires ReignLogs(g) && NodeLogs(g) && Serves(g, v, n, req) && ArgsSafe(g, req) && Matches(n, req)
    ensures var log := Merge(n.log, req.prevLogIndex, req.entries);
            var lead := g.reign[req.term].log;
            Reach(req) <= |log| && log[..req.leaderCommit] == lead[..req.leaderCommit]
  {
    var lead := g.reign[req.term].log;
    JoinAgrees(g, v, n, req);
    AcceptOutcome(g, v, req.prevLogIndex, Reach(req));
    var log := Merge(n.log, req.prevLogIndex, req.entries);
    assert log[..req.leaderCommit] == log[..Reach(req)][..req.leaderCommit];
    assert lead[..req.leaderCommit] == lead[..Reach(req)][..req.leaderCommit];
  }

  lemma MatchedOutput(g: Ledger, v: NodeId, n: Node, req: AppendArgs, d: Disk, m: Node)
    requires SafetyInv(g) && Mirrors(g, v, n) && ArgsSafe(g, req) && Matches(n, req)
    requires NodeSafe(g, v, n) && m == n.(role := Follower) && m.clients == map[] && m.pending == []
    ensures Output(v, OnAppendReq(g, v, n, req, d))
  {
    var g1 := Raise(g, v, req.term);
    var h := MatchedShape(g, v, n, req, d);
    RaiseLedger(g, v, req.term);
    ArgsStaySafe(g, g1, req);
    CommittedStays(g, g1, n.log[..n.commitIndex], g.term[v], g1.term[v]);
    JoinAgrees(g1, v, n, req);
    AcceptLater(g1, v, req.prevLogIndex, Reach(req));
    MergeKeepsCommitted(g1, v, n, req);
    MergeCoversCommit(g1, v, n, req);
    MatchedAnswer(g1, v, m, req, h, OnAppendReq(g, v, n, req, d).ledger);
  }

  lemma MatchedAnswer(g: Ledger, v: NodeId, m: Node, req: AppendArgs, h: Heard, g': Ledger)
    requires Applying(m) && Serves(g, v, m, req) && Committed(g, m.log[..m.commitIndex], g.term[v]) && ArgsSafe(g, req)
    requires m.role.Follower? && m.clients == map[] && m.pending == [] && m.currentTerm == req.term
    requires req.prevLogIndex <= |m.log| && h == Accepted(m, req) && h.reply.Some?
    requires var log := Merge(m.log, req.prevLogIndex, req.entries);
             && m.log[..m.commitIndex] <= log && Reach(req) <= |log|
             && log[..req.leaderCommit] == g.reign[req.term].log[..req.leaderCommit]
    requires Later(g, g') && g' == Accept(g, v, req.term, h.node.log, Reach(req))
    ensures Output(v, Effect(h.node, g', {AppendResp(v, req, h.reply.value)}, h.answers))
  {
    var log := Merge(m.log, req.prevLogIndex, req.entries);
    CommittedStays(g, g', m.log[..m.commitIndex], g.term[v], g'.term[v]);
    CommittedStays(g, g', log[..req.leaderCommit], g.term[v], g'.term[v]);
    AcceptedOutput(g', v, m, req);
    ArgsStaySafe(g, g', req);
  }

  lemma UnmatchedOutput(g: Ledger, v: NodeId, n: Node, req: AppendArgs, d: Disk, m: Node)
    requires NodeSafe(g, v, m) && Mirrors(g, v, n) && ArgsSafe(g, req) && req.term <= n.currentTerm && !Matches(n, req)
    requires m == if req.term < n.currentTerm then n else n.(role := Follower)
    ensures Output(v, OnAppendReq(g, v, n, req, d))
  {
    UnmatchedHandled(n, req, d);
    HandledEffect(g, v, n, req, d, HandleAppend(n, req, d));
  }

  lemma SameTermAppendOutput(g: Ledger, v: NodeId, n: Node, req: AppendArgs, d: Disk)
    requires SafetyInv(g) && ArgsSafe(g, req)
    requires NodeSafe(g, v, n) && Ready(g, v, n) && MsgElect(g, AppendReq(v, req)) && req.term <= n.currentTerm
    ensures Output(v, OnAppendReq(g, v, n, req, d))
  {
    var m := if req.term < n.currentTerm then n else n.(role := Follower);
    if req.term == n.currentTerm {
      FollowReady(g, v, n, req);
    }
    if Matches(n, req) {
      MatchedOutput(g, v, n, req, d, m);
    } else {
      UnmatchedOutput(g, v, n, req, d, m);
    }
  }

  lemma HigherTermAppendOutput(g: Ledger, v: NodeId, n: Node, req: AppendArgs, d: Disk)
    requires SafetyInv(g) && NodeSafe(g, v, n) && Ready(g, v, n)
    requires ArgsSafe(g, req) && MsgElect(g, AppendReq(v, req)) && n.currentTerm < req.term && d.Stored?
    ensures Output(v, OnAppendReq(Raise(g, v, req.term), v, StepDown(n, req.term, d), req, d))
  {
    var g1, n1 := Raise(g, v, req.term), StepDown(n, req.term, d);
    StepDownDemotes(n, req.term, d);
    RaiseLedger(g, v, req.term);
    StepDownReady(g, v, n, req.term, d);
    DemotedSafe(g, g1, v, n, n1);
    ArgsStaySafe(g, g1, req);
    SameTermAppendOutput(g1, v, n1, req, d);
  }

  lemma AppendReqOutput(g: Ledger, v: NodeId, n: Node, req: AppendArgs, d: Disk)
    requires SafetyInv(g) && NodeSafe(g, v, n) && Ready(g, v, n)
    requires ArgsSafe(g, req) && MsgElect(g, AppendReq(v, req))
    requires Later(g, OnAppendReq(g, v, n, req, d).ledger)
    ensures Output(v, OnAppendReq(g, v, n, req, d))
  {
    if req.term <= n.currentTerm {
      SameTermAppendOutput(g, v, n, req, d);
    } else if d.Stored? {
      HigherTermAppendOutput(g, v, n, req, d);
      HigherTermAppend(g, v, n, req, d);
    } else {
      FailedAppendShape(g, v, n, req, d);
      StepDownDemotes(n, req.term, d);
      DemotedOutput(g, v, n, StepDown(n, req.term, d), OnAppendReq(g, v, n, req, d).ledger);
    }
  }

  /* ---------- The leader counts ---------- */

  /** The commit point is the highest index above the commit index that meets the commit rule. */
  lemma {:induction false} CommitPointRule(n: Node, id: NodeId, members: set<NodeId>, at: nat)
    requires n.commitIndex <= |n.log| && at <= |n.log|
    ensures var point := CommitPoint(n, id, members, at);
            && n.commitIndex <= point <= |n.log|
            && (n.commitIndex < point ==>
                  && point <= at && n.log[point - 1].term == n.currentTerm
                  && 2 * |Holders(n, id, members, point)| > |members|)
            && (forall k :: point < k <= at ==>
                  n.log[k - 1].term != n.currentTerm || 2 * |Holders(n, id, members, k)| <= |members|)
    decreases at
  {
    if n.commitIndex < at && !(n.log[at - 1].term == n.currentTerm && |Holders(n, id, members, at)| > |members| / 2) {
      CommitPointRule(n, id, members, at - 1);
    }
  }

  /** Whoever holds an index above the commit index has acknowledged it. */
  lemma HoldersCount(g: Ledger, v: NodeId, n: Node, at: nat)
    requires Leading(g, v, n) && n.commitIndex < at && OwnEntry(g, n.currentTerm, at)
    requires 2 * |Holders(n, v, g.members, at)| > |g.members|
    ensures Majority(g, n.currentTerm, at)
  {
    assert Counted(g, Holders(n, v, g.members, at), n.currentTerm, at);
  }

  lemma AdvancedCommits(g: Ledger, v: NodeId, n: Node, point: nat)
    requires NodeSafe(g, v, n) && n.role.Leader? && n.commitIndex < point <= |n.log|
    requires n.log[point - 1].term == n.currentTerm && 2 * |Holders(n, v, g.members, point)| > |g.members|
    ensures NodeSafe(g, v, n.(commitIndex := point))
  {
    HoldersCount(g, v, n, point);
    assert n.log[..point] <= g.reign[n.currentTerm].log[..point];
  }

  /** Applying answers exactly the callers whose entries it hands out, with those entries. */
  lemma ApplyAnswers(n: Node)
    requires Applying(n) && Waiting(n)
    ensures AnswersFrom(Apply(n), Answers(n)) && Waiting(Apply(n))
  {
    ApplyHands(n);
    forall x | x in Answers(n)
      ensures 0 < x.index <= Apply(n).lastApplied && n.log[x.index - 1] == x.entry && x.entry.data == x.call.data
    {
      assert (n.log + n.pending)[x.index - 1] == n.log[x.index - 1];
    }
  }

  lemma ApplySafe(g: Ledger, v: NodeId, n: Node)
    requires NodeSafe(g, v, n) && Waiting(Apply(n))
    ensures NodeSafe(g, v, Apply(n))
  {
    ApplyHands(n);
  }

  lemma AdvanceOutput(g: Ledger, v: NodeId, n: Node)
    requires NodeSafe(g, v, n) && n.role.Leader?
    ensures var h := AdvanceCommit(n, v, g.members); Output(v, Effect(h.node, g, {}, h.answers))
  {
    var point := CommitPoint(n, v, g.members, |n.log|);
    CommitPointRule(n, v, g.members, |n.log|);
    if n.commitIndex < point {
      AdvancedCommits(g, v, n, point);
      ApplyAnswers(n.(commitIndex := point));
      ApplySafe(g, v, n.(commitIndex := point));
    }
  }

  lemma MatchedByReach(g: Ledger, req: AppendArgs)
    requires ReignLogs(g) && ArgsSafe(g, req)
    ensures MatchedBy(req) == Reach(req)
  {
    assert Indexed(g.reign[req.term].log);
  }

  lemma CountedAck(g: Ledger, v: NodeId, n: Node, req: AppendArgs, peer: NodeId, next: map<NodeId, nat>)
    requires NodeSafe(g, v, n) && ReignLogs(g) && ArgsSafe(g, req)
    requires n.currentTerm == req.term && Acked(g, peer, req.term, Reach(req))
    ensures NodeSafe(g, v, n.(matchIndex := n.matchIndex[peer := MatchedBy(req)], nextIndex := next))
  {
    MatchedByReach(g, req);
  }

  lemma AppendReplyOutput(g: Ledger, v: NodeId, n: Node, req: AppendArgs, peer: NodeId, r: AppendReply, d: Disk)
    requires NodeSafe(g, v, n) && ReignLogs(g) && MsgSafe(g, AppendResp(peer, req, r))
    requires r.term <= n.currentTerm || !n.role.Leader? || n.currentTerm != req.term
    ensures var h := HandleAppendReply(n, v, g.members, req, peer, r, d);
            Output(v, Effect(h.node, g, {}, h.answers))
  {
    if n.role.Leader? && n.currentTerm == req.term && r.success {
      var next := n.nextIndex[peer := MatchedBy(req) + 1];
      var k := n.(matchIndex := n.matchIndex[peer := MatchedBy(req)], nextIndex := next);
      CountedAck(g, v, n, req, peer, next);
      AdvanceOutput(g, v, k);
    }
    IdleOutput(g, v, n, n.(nextIndex := n.nextIndex[peer := Retreat(n, peer, r)]));
  }

  lemma AppendRespOutput(g: Ledger, v: NodeId, n: Node, req: AppendArgs, peer: NodeId, r: AppendReply, d: Disk)
    requires NodeSafe(g, v, n) && Mirrors(g, v, n) && ReignLogs(g) && MsgSafe(g, AppendResp(peer, req, r))
    requires Later(g, OnAppendResp(g, v, n, req, peer, r, d).ledger)
    ensures Output(v, OnAppendResp(g, v, n, req, peer, r, d))
  {
    if n.role.Leader? && n.currentTerm == req.term && r.term > n.currentTerm {
      StepDownDemotes(n, r.term, d);
      DemotedOutput(g, v, n, StepDown(n, r.term, d), OnAppendResp(g, v, n, req, peer, r, d).ledger);
    } else {
      AppendReplyOutput(g, v, n, req, peer, r, d);
      QuietReply(g, v, n, req, peer, r, d);
    }
  }

  lemma QuietReply(g: Ledger, v: NodeId, n: Node, req: AppendArgs, peer: NodeId, r: AppendReply, d: Disk)
    requires Mirrors(g, v, n) && (r.term <= n.currentTerm || !n.role.Leader? || n.currentTerm != req.term)
    ensures var h := HandleAppendReply(n, v, g.members, req, peer, r, d);
            OnAppendResp(g, v, n, req, peer, r, d) == Effect(h.node, g, {}, h.answers)
  {
    AppendReplyShape(n, v, g.members, req, peer, r, d);
    Stay(g, v, n);
  }

  /* ---------- All of them ---------- */

  lemma CrashOutput(g: Ledger, v: NodeId, n: Node)
    requires NodeSafe(g, v, n) && Mirrors(g, v, n) && n.stable.term == g.term[v]
    ensures Output(v, OnCrash(g, v, n))
  {
    Stay(g, v, n);
    CommittedPrefix(g, n.log[..n.commitIndex], n.snapIndex, g.term[v]);
    assert n.log[..n.commitIndex][..n.snapIndex] == n.log[..n.snapIndex];
  }

  lemma LocalOutputs(g: Ledger, n: Node, members: set<NodeId>, net: set<Msg>, a: Action)
    requires NodeSafe(g, a.node, n) && Mirrors(g, a.node, n) && Allowed(n, members, net, a)
    requires IsLocal(a) || a.Send? || (a.Crash? && n.stable.term == g.term[a.node])
    ensures Output(a.node, Act(g, n, a))
  {
    match a
    case Send(v, peer) => SendOutput(g, v, n, peer);
    case GiveUp(v, i) =>
    case CheckCompaction(v, threshold) =>
    case Crash(v) => CrashOutput(g, v, n);
  }

  lemma ElectionOutputs(g: Ledger, n: Node, members: set<NodeId>, net: set<Msg>, a: Action)
    requires SafetyInv(g) && NodeSafe(g, a.node, n) && Ready(g, a.node, n) && Allowed(n, members, net, a)
    requires IsElection(a) && !a.Crash? && Later(g, Act(g, n, a).ledger)
    ensures Output(a.node, Act(g, n, a))
  {
    match a
    case Timeout(v, d) => TimeoutOutput(g, v, n, d);
    case GetVoteReq(v, args, d, d') => VoteReqOutput(g, v, n, args, d, d');
    case GetVoteResp(v, args, voter, r, d) => VoteRespOutput(g, v, n, args, voter, r, d);
  }

  lemma AppendOutputs(g: Ledger, n: Node, members: set<NodeId>, net: set<Msg>, a: Action)
    requires SafetyInv(g) && NodeSafe(g, a.node, n) && Ready(g, a.node, n) && Later(g, Act(g, n, a).ledger)
    requires Allowed(n, members, net, a) && (a.GetAppendReq? || a.GetAppendResp?)
    requires forall m :: m in net ==> MsgElect(g, m) && MsgSafe(g, m)
    ensures Output(a.node, Act(g, n, a))
  {
    match a
    case GetAppendReq(v, args, d) =>
      assert MsgSafe(g, AppendReq(v, args)) && MsgElect(g, AppendReq(v, args));
      AppendReqOutput(g, v, n, args, d);
    case GetAppendResp(v, args, peer, r, d) =>
      assert MsgSafe(g, AppendResp(peer, args, r));
      AppendRespOutput(g, v, n, args, peer, r, d);
  }

  lemma SubmitOutputs(g: Ledger, n: Node, members: set<NodeId>, net: set<Msg>, a: Action)
    requires NodeSafe(g, a.node, n) && Allowed(n, members, net, a) && (a.Propose? || a.BatchTick?)
    requires Later(g, Act(g, n, a).ledger)
    ensures Output(a.node, Act(g, n, a))
  {
    match a
    case Propose(v, call, maxBatch) => ProposeOutput(g, v, n, call, maxBatch);
    case BatchTick(v) => BatchTickOutput(g, v, n);
  }

  lemma ActOutput(g: Ledger, n: Node, members: set<NodeId>, net: set<Msg>, a: Action)
    requires SafetyInv(g) && NodeSafe(g, a.node, n) && Ready(g, a.node, n) && Allowed(n, members, net, a)
    requires Later(g, Act(g, n, a).ledger) && (a.Crash? ==> n.stable.term == g.term[a.node])
    requires forall m :: m in net ==> MsgElect(g, m) && MsgSafe(g, m)
    ensures Output(a.node, Act(g, n, a))
  {
    if IsLocal(a) || a.Send? || a.Crash? {
      LocalOutputs(g, n, members, net, a);
    } else if IsElection(a) {
      ElectionOutputs(g, n, members, net, a);
    } else if a.Propose? || a.BatchTick? {
      SubmitOutputs(g, n, members, net, a);
    } else {
      AppendOutputs(g, n, members, net, a);
    }
  }

  lemma StepOutcome(c: Cluster, a: Action)
    requires ElectInv(c) && SafeInv(c) && Enabled(c, a) && Clean(c, a)
    ensures var e := Act(c.ledger, c.nodes[a.node], a);
            Onward(c.ledger, e.ledger, a.node) && SafetyInv(e.ledger) && Output(a.node, e)
  {
    var n := c.nodes[a.node];
    IsReady(c, a.node);
    ActLedger(c.ledger, n, c.nodes.Keys, c.net, a);
    ActOutput(c.ledger, n, c.nodes.Keys, c.net, a);
  }

  lemma CombineSafe(c: Cluster, v: NodeId, e: Effect)
    requires ElectInv(c) && SafeInv(c) && v in c.nodes
    requires Onward(c.ledger, e.ledger, v) && SafetyInv(e.ledger) && Output(v, e)
    ensures SafeInv(Enact(c, v, e))
  {
    CombineNodesSafe(c, v, e);
    CombineMessagesSafe(c, v, e);
  }

  /** One clean step keeps every invariant, and answers only from the acting node's applied log. */
  lemma StepSafe(c: Cluster, a: Action)
    requires ElectInv(c) && SafeInv(c) && Enabled(c, a) && Clean(c, a)
    ensures SafeInv(Do(c, a)) && Later(c.ledger, Do(c, a).ledger)
    ensures AnswersFrom(Do(c, a).nodes[a.node], Do(c, a).answers - c.answers)
  {
    StepOutcome(c, a);
    CombineSafe(c, a.node, Act(c.ledger, c.nodes[a.node], a));
  }

  lemma BootSafe(members: set<NodeId>)
    ensures SafeInv(Boot(members))
  {
  }
}
