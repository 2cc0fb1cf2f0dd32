/** What each action writes into the ledger keeps the ledger's safety invariant. */
module RaftSafetyLedger {
  import opened Basics
  import opened RaftTypes
  import opened RaftLedger
  import opened RaftLedgerSteps
  import opened RaftLedgerProof
  import opened RaftNode
  import opened RaftCluster
  import opened RaftElection
  import opened RaftSafety

  lemma RaiseLedger(g: Ledger, v: NodeId, t: nat)
    requires SafetyInv(g) && v in g.members && g.term[v] <= t
    ensures var g' := Raise(g, v, t); Onward(g, g', v) && SafetyInv(g')
  {
    RaiseKeepsSafety(g, v, t);
  }

  lemma BindLedger(g: Ledger, v: NodeId, n: Node)
    requires SafetyInv(g) && v in g.members
    ensures Onward(g, Bind(g, v, n), v) && SafetyInv(Bind(g, v, n))
  {
    RaiseKeepsSafety(g, v, Max(g.term[v], n.stable.term));
  }

  /* ---------- Elections ---------- */

  lemma StandAbove(g: Ledger, v: NodeId, t: nat)
    requires SafetyInv(g) && v in g.members && g.term[v] < t
    ensures var g1 := Raise(g, v, t); Slot(t, v) !in g1.ballot && TermsBelow(g1.log[v], t)
  {
    NoBallotAbove(g, v, t);
    assert TermsBelow(g.log[v], g.term[v] + 1);
  }

  lemma StandLedger(g: Ledger, v: NodeId, t: nat, log: seq<Entry>)
    requires SafetyInv(g) && v in g.members && g.term[v] < t && g.log[v] == log
    ensures var g' := Stand(Raise(g, v, t), v, t, log); Onward(g, g', v) && SafetyInv(g')
  {
    var g1 := Raise(g, v, t);
    RaiseKeepsSafety(g, v, t);
    StandAbove(g, v, t);
    StandKeepsSafety(g1, v);
    LaterOn(g, g1, Stand(g1, v, t, log));
  }

  lemma WinLedger(g: Ledger, v: NodeId, n: Node)
    requires SafetyInv(g) && Standing(g, v, n) && Quorum(n.votes, g.members) && n.pending == []
    ensures var g' := NoteWin(g, v, n); Onward(g, g', v) && SafetyInv(g')
    ensures NoteWin(g, v, n) == Crown(g, n.currentTerm, Reign(v, n.votes, n.log, n.log))
  {
    StillFree(g, v, n);
    CrownKeepsSafety(g, n.currentTerm, Reign(v, n.votes, n.log, n.log));
  }

  lemma SoloStanding(g: Ledger, v: NodeId, n: Node, m: Node)
    requires Ready(g, v, n) && !n.role.Leader? && |g.members| == 1 && m == Campaigning(n, v)
    ensures var g1 := Stand(Raise(g, v, m.currentTerm), v, m.currentTerm, n.log);
            Standing(g1, v, m) && m.votes == g1.members == {v} && m.pending == []
  {
    StandReady(g, v, n, m);
    OnlyMember(g.members, v);
  }

  lemma SoloLedger(g: Ledger, g1: Ledger, v: NodeId, m: Node)
    requires Onward(g, g1, v) && SafetyInv(g1) && Standing(g1, v, m) && m.votes == g1.members == {v} && m.pending == []
    ensures var g' := NoteWin(g1, v, m); Onward(g, g', v) && SafetyInv(g')
  {
    WinLedger(g1, v, m);
    OnwardOn(g, g1, NoteWin(g1, v, m), v);
  }

  lemma StoredTimeoutLedger(g: Ledger, v: NodeId, n: Node)
    requires SafetyInv(g) && Ready(g, v, n) && !n.role.Leader?
    ensures var g' := OnTimeout(g, v, n, Stored).ledger; Onward(g, g', v) && SafetyInv(g')
  {
    var m := Campaigning(n, v);
    TimeoutShape(g, v, n);
    StandLedger(g, v, m.currentTerm, n.log);
    if |g.members| == 1 {
      SoloStanding(g, v, n, m);
      SoloLedger(g, Stand(Raise(g, v, m.currentTerm), v, m.currentTerm, n.log), v, m);
    }
  }

  lemma FailedTimeoutLedger(g: Ledger, v: NodeId, n: Node, d: Disk)
    requires SafetyInv(g) && Mirrors(g, v, n) && !d.Stored?
    ensures var g' := OnTimeout(g, v, n, d).ledger; Onward(g, g', v) && SafetyInv(g')
  {
    BindLedger(g, v, StartElection(n, v, g.members, d));
  }

  lemma TimeoutLedger(g: Ledger, v: NodeId, n: Node, d: Disk)
    requires SafetyInv(g) && Ready(g, v, n) && !n.role.Leader?
    ensures var g' := OnTimeout(g, v, n, d).ledger; Onward(g, g', v) && SafetyInv(g')
  {
    if d.Stored? {
      StoredTimeoutLedger(g, v, n);
    } else {
      FailedTimeoutLedger(g, v, n, d);
    }
  }

  lemma CastLedger(g: Ledger, v: NodeId, n: Node, req: VoteArgs)
    requires SafetyInv(g) && Mirrors(g, v, n) && NodeElect(g, v, n) && MsgElect(g, VoteReq(req)) && Grants(n, req)
    ensures var g' := Cast(Raise(g, v, n.currentTerm), v, n.currentTerm, req.candidate);
            Onward(g, g', v) && SafetyInv(g')
  {
    var g1 := Raise(g, v, n.currentTerm);
    RaiseLedger(g, v, n.currentTerm);
    VoteRepeats(g, v, n, req.candidate);
    CastKeepsSafety(g1, v, req.candidate);
    OnwardOn(g, g1, Cast(g1, v, n.currentTerm, req.candidate), v);
  }

  lemma SameTermVoteLedger(g: Ledger, v: NodeId, n: Node, req: VoteArgs, d: Disk, d': Disk)
    requires SafetyInv(g) && Mirrors(g, v, n) && NodeElect(g, v, n) && MsgElect(g, VoteReq(req))
    requires req.term <= n.currentTerm
    ensures var g' := OnVoteReq(g, v, n, req, d, d').ledger; Onward(g, g', v) && SafetyInv(g')
  {
    SameTermShape(g, v, n, req, d, d');
    OnwardSame(g, v);
    if Grants(n, req) {
      if d'.Stored? {
        CastLedger(g, v, n, req);
      } else {
        BindLedger(g, v, OnVoteReq(g, v, n, req, d, d').node);
      }
    }
  }

  lemma VoteReqLedger(g: Ledger, v: NodeId, n: Node, req: VoteArgs, d: Disk, d': Disk)
    requires SafetyInv(g) && Ready(g, v, n) && MsgElect(g, VoteReq(req))
    ensures var g' := OnVoteReq(g, v, n, req, d, d').ledger; Onward(g, g', v) && SafetyInv(g')
  {
    if req.term <= n.currentTerm {
      SameTermVoteLedger(g, v, n, req, d, d');
    } else {
      var g1, n1 := Raise(g, v, req.term), StepDown(n, req.term, d);
      RaiseLedger(g, v, req.term);
      BindLedger(g, v, n1);
      if d.Stored? {
        StepDownReady(g, v, n, req.term, d);
        SameTermVoteLedger(g1, v, n1, req, d, d');
        HigherTermVote(g, v, n, req, d, d');
        OnwardOn(g, g1, OnVoteReq(g, v, n, req, d, d').ledger, v);
      }
    }
  }

  lemma VoteRespLedger(g: Ledger, v: NodeId, n: Node, req: VoteArgs, voter: NodeId, r: VoteReply, d: Disk)
    requires SafetyInv(g) && Ready(g, v, n) && MsgElect(g, VoteResp(voter, req, r)) && req.candidate == v
    ensures var g' := OnVoteResp(g, v, n, req, voter, r, d).ledger; Onward(g, g', v) && SafetyInv(g')
  {
    VoteRespShape(g, v, n, req, voter, r, d);
    OnwardSame(g, v);
    if n.role.Candidate? && n.currentTerm == req.term {
      if r.term > n.currentTerm {
        BindLedger(g, v, StepDown(n, r.term, d));
      } else if r.granted {
        var k := n.(votes := n.votes + {voter});
        if |k.votes| >= |g.members| / 2 + 1 {
          CountedVote(g, v, n, voter);
          WinLedger(g, v, k);
        }
      }
    }
  }

  /* ---------- Log traffic ---------- */

  /** The log of a leader in office is the log of its reign. */
  ghost predicate Ruling(g: Ledger, v: NodeId, n: Node) {
    Reigning(g, v, n) && n.log == g.reign[n.currentTerm].log && v in g.term && n.currentTerm <= g.term[v]
  }

  lemma FlushLedger(g: Ledger, v: NodeId, n: Node)
    requires SafetyInv(g) && Mirrors(g, v, n) && Ruling(g, v, n) && Fresh(n.currentTerm, n.log, n.pending)
    ensures var g' := Extend(g, v, n.currentTerm, n.log + n.pending); Onward(g, g', v) && SafetyInv(g')
  {
    ExtendKeepsSafety(g, n.currentTerm, n.pending);
  }

  function Enqueued(n: Node, call: Call): Node {
    var entry := Entry(|n.log| + |n.pending| + 1, n.currentTerm, call.data);
    n.(pending := n.pending + [entry], clients := n.clients[entry.index := call])
  }

  lemma SubmitShape(g: Ledger, v: NodeId, n: Node, call: Call, maxBatch: int)
    ensures var e := OnPropose(g, v, n, call, maxBatch);
            var m := Enqueued(n, call);
            if !n.role.Leader? then e == Effect(n, g, {}, {})
            else || e == Effect(m, g, {}, {})
                 || e == Effect(Flush(m), Extend(g, v, m.currentTerm, m.log + m.pending), {}, {})
  {
  }

  lemma ProposeLedger(g: Ledger, v: NodeId, n: Node, call: Call, maxBatch: int)
    requires SafetyInv(g) && Mirrors(g, v, n) && Fresh(n.currentTerm, n.log, n.pending)
    requires n.role.Leader? ==> Ruling(g, v, n)
    ensures var g' := OnPropose(g, v, n, call, maxBatch).ledger; Onward(g, g', v) && SafetyInv(g')
  {
    SubmitShape(g, v, n, call, maxBatch);
    OnwardSame(g, v);
    if n.role.Leader? {
      FlushLedger(g, v, Enqueued(n, call));
    }
  }

  lemma BatchTickLedger(g: Ledger, v: NodeId, n: Node)
    requires SafetyInv(g) && Mirrors(g, v, n) && Fresh(n.currentTerm, n.log, n.pending)
    requires Ruling(g, v, n) && n.pending != []
    ensures var g' := OnBatchTick(g, v, n).ledger; Onward(g, g', v) && SafetyInv(g')
  {
    FlushLedger(g, v, n);
  }

  /** Node v of the ledger has the log of n and is bound to the term of the request. */
  ghost predicate Serves(g: Ledger, v: NodeId, n: Node, req: AppendArgs) {
    v in g.members && v in g.term && v in g.log && g.log[v] == n.log && g.term[v] == req.term
  }

  /** Equal terms at the join mean equal logs below it. */
  lemma JoinAgrees(g: Ledger, v: NodeId, n: Node, req: AppendArgs)
    requires ReignLogs(g) && NodeLogs(g) && Serves(g, v, n, req) && ArgsSafe(g, req) && Matches(n, req)
    ensures Acceptable(g, v, req.prevLogIndex, Reach(req))
    ensures Merged(g, v, req.prevLogIndex, Reach(req)) == Merge(n.log, req.prevLogIndex, req.entries)
  {
    LogMatching(g.reign, n.log, g.reign[req.term].log, req.prevLogIndex);
  }

  lemma AcceptLedger(g: Ledger, v: NodeId, n: Node, req: AppendArgs)
    requires SafetyInv(g) && Mirrors(g, v, n) && ArgsSafe(g, req) && Matches(n, req)
    ensures var g' := Accept(Raise(g, v, req.term), v, req.term, Merge(n.log, req.prevLogIndex, req.entries),
                             Reach(req));
            Onward(g, g', v) && SafetyInv(g')
  {
    var g1 := Raise(g, v, req.term);
    RaiseLedger(g, v, req.term);
    ArgsStaySafe(g, g1, req);
    JoinAgrees(g1, v, n, req);
    AcceptKeepsSafety(g1, v, req.prevLogIndex, Reach(req));
    OnwardOn(g, g1, Accept(g1, v, req.term, Merge(n.log, req.prevLogIndex, req.entries), Reach(req)), v);
  }

  lemma SameTermAppendLedger(g: Ledger, v: NodeId, n: Node, req: AppendArgs, d: Disk)
    requires SafetyInv(g) && Mirrors(g, v, n) && ArgsSafe(g, req) && req.term <= n.currentTerm
    ensures var g' := OnAppendReq(g, v, n, req, d).ledger; Onward(g, g', v) && SafetyInv(g')
  {
    if Matches(n, req) {
      AcceptLedger(g, v, n, req);
      var h := MatchedShape(g, v, n, req, d);
    } else {
      OnwardSame(g, v);
      UnmatchedHandled(n, req, d);
      HandledEffect(g, v, n, req, d, HandleAppend(n, req, d));
    }
  }

  lemma HigherTermAppendLedger(g: Ledger, v: NodeId, n: Node, req: AppendArgs, d: Disk)
    requires SafetyInv(g) && Mirrors(g, v, n) && ArgsSafe(g, req) && n.currentTerm < req.term && d.Stored?
    ensures var g' := OnAppendReq(Raise(g, v, req.term), v, StepDown(n, req.term, d), req, d).ledger;
            Onward(g, g', v) && SafetyInv(g')
  {
    var g1, n1 := Raise(g, v, req.term), StepDown(n, req.term, d);
    RaiseLedger(g, v, req.term);
    ArgsStaySafe(g, g1, req);
    SameTermAppendLedger(g1, v, n1, req, d);
    OnwardOn(g, g1, OnAppendReq(g1, v, n1, req, d).ledger, v);
  }

  lemma AppendReqLedger(g: Ledger, v: NodeId, n: Node, req: AppendArgs, d: Disk)
    requires SafetyInv(g) && Mirrors(g, v, n) && ArgsSafe(g, req)
    ensures var g' := OnAppendReq(g, v, n, req, d).ledger; Onward(g, g', v) && SafetyInv(g')
  {
    if req.term <= n.currentTerm {
      SameTermAppendLedger(g, v, n, req, d);
    } else if d.Stored? {
      HigherTermAppendLedger(g, v, n, req, d);
      HigherTermAppend(g, v, n, req, d);
    } else {
      BindLedger(g, v, StepDown(n, req.term, d));
      FailedAppendShape(g, v, n, req, d);
    }
  }

  lemma AppendRespLedger(g: Ledger, v: NodeId, n: Node, req: AppendArgs, peer: NodeId, r: AppendReply, d: Disk)
    requires SafetyInv(g) && Mirrors(g, v, n)
    ensures var g' := OnAppendResp(g, v, n, req, peer, r, d).ledger; Onward(g, g', v) && SafetyInv(g')
  {
    AppendReplyShape(n, v, g.members, req, peer, r, d);
    Stay(g, v, n);
    OnwardSame(g, v);
    BindLedger(g, v, HandleAppendReply(n, v, g.members, req, peer, r, d).node);
  }

  /* ---------- All of them ---------- */

  ghost predicate Settled(g: Ledger, n: Node, a: Action) {
    && a.node in g.term
    && (n.role.Leader? ==> Ruling(g, a.node, n))
    && Fresh(n.currentTerm, n.log, n.pending)
    && (a.Crash? ==> n.stable.term == g.term[a.node])
  }

  lemma ElectionLedgers(g: Ledger, n: Node, members: set<NodeId>, net: set<Msg>, a: Action)
    requires SafetyInv(g) && Ready(g, a.node, n) && Allowed(n, members, net, a) && IsElection(a) && !a.Crash?
    requires forall m :: m in net ==> MsgElect(g, m)
    ensures var g' := Act(g, n, a).ledger; Onward(g, g', a.node) && SafetyInv(g')
  {
    match a
    case Timeout(v, d) => TimeoutLedger(g, v, n, d);
    case GetVoteReq(v, args, d, d') => VoteReqLedger(g, v, n, args, d, d');
    case GetVoteResp(v, args, voter, r, d) => VoteRespLedger(g, v, n, args, voter, r, d);
  }

  lemma AppendLedgers(g: Ledger, n: Node, members: set<NodeId>, net: set<Msg>, a: Action)
    requires SafetyInv(g) && Mirrors(g, a.node, n) && Allowed(n, members, net, a)
    requires (a.GetAppendReq? || a.GetAppendResp?) && (forall m :: m in net ==> MsgSafe(g, m))
    ensures var g' := Act(g, n, a).ledger; Onward(g, g', a.node) && SafetyInv(g')
  {
    match a
    case GetAppendReq(v, args, d) =>
      assert MsgSafe(g, AppendReq(v, args));
      AppendReqLedger(g, v, n, args, d);
    case GetAppendResp(v, args, peer, r, d) => AppendRespLedger(g, v, n, args, peer, r, d);
  }

  lemma SubmitLedgers(g: Ledger, n: Node, members: set<NodeId>, net: set<Msg>, a: Action)
    requires SafetyInv(g) && Mirrors(g, a.node, n) && Allowed(n, members, net, a) && Settled(g, n, a)
    requires a.Propose? || a.BatchTick?
    ensures var g' := Act(g, n, a).ledger; Onward(g, g', a.node) && SafetyInv(g')
  {
    match a
    case Propose(v, call, maxBatch) => ProposeLedger(g, v, n, call, maxBatch);
    case BatchTick(v) => BatchTickLedger(g, v, n);
  }

  lemma QuietActs(g: Ledger, n: Node, a: Action)
    requires Mirrors(g, a.node, n)
    requires IsLocal(a) || a.Send? || (a.Crash? && n.stable.term == g.term[a.node])
    ensures Act(g, n, a).ledger == g
  {
    Stay(g, a.node, n);
  }

  lemma ActLedger(g: Ledger, n: Node, members: set<NodeId>, net: set<Msg>, a: Action)
    requires SafetyInv(g) && Ready(g, a.node, n) && Allowed(n, members, net, a) && Settled(g, n, a)
    requires forall m :: m in net ==> MsgElect(g, m) && MsgSafe(g, m)
    ensures var g' := Act(g, n, a).ledger; Onward(g, g', a.node) && SafetyInv(g')
  {
    if IsLocal(a) || a.Send? || a.Crash? {
      QuietActs(g, n, a);
      OnwardSame(g, a.node);
    } else if IsElection(a) {
      ElectionLedgers(g, n, members, net, a);
    } else if a.Propose? || a.BatchTick? {
      SubmitLedgers(g, n, members, net, a);
    } else {
      AppendLedgers(g, n, members, net, a);
    }
  }
}
