/**
 * What each critical section of a node does, outcome by outcome: when a vote is granted and an
 * election won, what a new leader, a stepped-down and a restarted node hold, what becomes of a
 * submitted call, and when a request is accepted.
 */
module RaftDuties {
  import opened Basics
  import opened RaftTypes
  import opened RaftLedger
  import opened RaftNode
  import opened RaftCluster
  import opened RaftElection
  import opened RaftDurable

  /** Everything about the log and what was applied of it. */
  ghost predicate SameRecord(n: Node, n': Node) {
    && n'.log == n.log && n'.snapIndex == n.snapIndex && n'.commitIndex == n.commitIndex
    && n'.lastApplied == n.lastApplied && n'.bootIndex == n.bootIndex && n'.handed == n.handed
  }

  /** A follower of term t without a vote, whose callers have all been let go. */
  ghost predicate FollowsIn(n: Node, t: nat) {
    n.role.Follower? && n.currentTerm == t && n.votedFor == NO_NODE && n.pending == [] && n.clients == map[]
  }

  lemma StepDownRule(n: Node, t: nat, d: Disk)
    ensures var n' := StepDown(n, t, d);
            && FollowsIn(n', t) && SameRecord(n, n')
            && n'.stable == if d == Lost then n.stable else Stable(t, NO_NODE)
  {
  }

  /** A start keeps what is on disk: term, vote, log and snapshot; applying resumes at the snapshot. */
  lemma RestartRule(n: Node)
    ensures var n' := Restart(n);
            && n'.role.Follower? && n'.stable == n.stable && n'.log == n.log && n'.snapIndex == n.snapIndex
            && n'.currentTerm == n.stable.term && n'.votedFor == n.stable.votedFor
            && n'.commitIndex == n'.lastApplied == n'.bootIndex == n.snapIndex && n'.handed == []
            && n'.pending == [] && n'.clients == map[] && n'.votes == {}
  {
  }

  /* ---------- Votes ---------- */

  /** The last entry of the candidate is of a later term, or of the same term and not before the last one of the log. */
  ghost predicate AtLeastAsLong(req: VoteArgs, log: seq<Entry>) {
    var last := if log == [] then 0 else log[|log| - 1].term;
    req.lastLogTerm > last || (req.lastLogTerm == last && req.lastLogIndex >= |log|)
  }

  /**
   * With a working disk a vote is granted if and only if the request is not of an earlier term,
   * no other candidate has the vote of that term, and the candidate's log is at least as long. A
   * granted vote is on disk; a refused one leaves the vote of the term as it was.
   */
  lemma VoteRule(n: Node, req: VoteArgs)
    requires req.candidate != NO_NODE
    ensures var (n', r) := HandleVote(n, req, Stored, Stored);
            && SameRecord(n, n') && r.Some? && r.value.term == n'.currentTerm == Max(n.currentTerm, req.term)
            && (r.value.granted <==>
                  && req.term >= n.currentTerm && AtLeastAsLong(req, n.log)
                  && (req.term > n.currentTerm || n.votedFor in {NO_NODE, req.candidate}))
            && (r.value.granted ==> n'.votedFor == req.candidate && n'.stable == Stable(req.term, req.candidate))
            && (!r.value.granted && req.term <= n.currentTerm ==> n' == n)
            && (!r.value.granted && req.term > n.currentTerm ==>
                  FollowsIn(n', req.term) && n'.stable == Stable(req.term, NO_NODE))
  {
  }

  /** No reply is sent if and only if a write that the reply depends on has failed. */
  lemma FailedVoteRule(n: Node, req: VoteArgs, d: Disk, d': Disk)
    requires req.candidate != NO_NODE
    ensures HandleVote(n, req, d, d').1.None? <==>
              || (req.term > n.currentTerm && d != Stored)
              || (d' != Stored && HandleVote(n, req, Stored, Stored).1.value.granted)
    ensures HandleVote(n, req, d, d').1.None? ==>
              var n' := HandleVote(n, req, d, d').0;
              n'.role.Follower? && n'.pending == [] && n'.clients == map[] && SameRecord(n, n')
  {
  }

  /** A campaign is for the next term, with the node's own vote, on disk before anybody is asked. */
  lemma CampaignRule(n: Node, id: NodeId, members: set<NodeId>, d: Disk)
    ensures var n' := StartElection(n, id, members, d);
            && n'.currentTerm == n.currentTerm + 1 && n'.votedFor == id
            && (d == Stored ==> n'.stable == Stable(n.currentTerm + 1, id) && n'.votes == {id})
            && (d == Stored ==> n'.role == if |members| == 1 then Leader else Candidate)
            && (d != Stored ==> n'.role.Follower? && n'.pending == [] && n'.clients == map[] && SameRecord(n, n'))
  {
  }

  /** Votes are asked for if and only if the node is a candidate then, with the end of its own log. */
  lemma AskRule(g: Ledger, v: NodeId, n: Node, d: Disk)
    ensures var e := OnTimeout(g, v, n, d);
            && (e.sent != {} <==> e.node.role.Candidate?)
            && forall m :: m in e.sent ==>
                 && m.VoteReq? && m.vote.term == n.currentTerm + 1 && m.vote.candidate == v
                 && m.vote.lastLogIndex == |n.log|
                 && m.vote.lastLogTerm == if n.log == [] then 0 else n.log[|n.log| - 1].term
  {
  }

  /** A new leader probes every member right after its log and counts only itself beyond its snapshot. */
  lemma OfficeRule(n: Node, id: NodeId, members: set<NodeId>)
    requires id in members
    ensures var n' := BecomeLeader(n, id, members);
            && n'.role.Leader? && n'.currentTerm == n.currentTerm && n'.pending == [] && n'.log == n.log + n.pending
            && n'.nextIndex.Keys == members && (forall p :: p in members ==> n'.nextIndex[p] == |n.log| + 1)
            && n'.matchIndex.Keys == members && n'.matchIndex[id] == |n.log|
            && (forall p :: p in members && p != id ==> n'.matchIndex[p] == n.snapIndex)
            && n'.commitIndex == n.commitIndex && n'.clients == n.clients
  {
  }

  /** A candidate leads after a reply if and only if it is a vote of its term that makes a majority. */
  lemma TallyRule(n: Node, id: NodeId, members: set<NodeId>, req: VoteArgs, voter: NodeId, r: VoteReply, d: Disk)
    requires n.role.Candidate? && n.currentTerm == req.term
    ensures var n' := HandleVoteReply(n, id, members, req, voter, r, d);
            && (n'.role.Leader? <==> r.term <= n.currentTerm && r.granted && 2 * |n.votes + {voter}| > |members|)
            && (r.term > n.currentTerm ==> FollowsIn(n', r.term) && SameRecord(n, n'))
            && (r.term <= n.currentTerm && !r.granted ==> n' == n)
            && (r.term <= n.currentTerm && r.granted ==>
                  n'.votes == n.votes + {voter} && n'.currentTerm == n.currentTerm)
  {
  }

  /* ---------- Submitting ---------- */

  /** A leader keeps the call's data at the next free index and lets the caller wait for exactly that index. */
  lemma SubmitRule(n: Node, call: Call, maxBatch: int)
    ensures var n' := Submit(n, call, maxBatch);
            var (index, all) := (|n.log| + |n.pending| + 1, n.log + n.pending);
            && (!n.role.Leader? ==> n' == n)
            && (n.role.Leader? ==>
                  && n'.log + n'.pending == all + [Entry(index, n.currentTerm, call.data)]
                  && n'.clients == n.clients[index := call] && n'.commitIndex == n.commitIndex
                  && (if maxBatch <= 1 || |n.pending| + 1 >= maxBatch then n'.pending == [] else n'.log == n.log))
  {
    var entry := Entry(|n.log| + |n.pending| + 1, n.currentTerm, call.data);
    assert n.log + (n.pending + [entry]) == n.log + n.pending + [entry];
  }

  /** Flushing moves what is pending to the end of the log; giving up forgets one caller and nothing else. */
  lemma FlushRule(n: Node, index: nat)
    ensures Flush(n).log == n.log + n.pending && Flush(n).pending == [] && Flush(n).clients == n.clients
    ensures var n' := Cancel(n, index); index !in n'.clients && n' == n.(clients := n'.clients)
    ensures forall i :: i in n.clients && i != index ==>
              i in Cancel(n, index).clients && Cancel(n, index).clients[i] == n.clients[i]
  {
  }

  /* ---------- Requests ---------- */

  /**
   * A leader sends everything from the peer's next index on, with the term before it and its own
   * commit index, if and only if that index is neither in the snapshot nor past the end of the log.
   */
  lemma BuildRule(n: Node, id: NodeId, peer: NodeId, next: nat)
    requires next == if peer in n.nextIndex && n.nextIndex[peer] > 0 then n.nextIndex[peer] else n.snapIndex + 1
    ensures BuildAppend(n, id, peer).Some? <==> n.snapIndex < next <= |n.log| + 1
    ensures BuildAppend(n, id, peer).Some? ==>
              var r := BuildAppend(n, id, peer).value;
              && r.term == n.currentTerm && r.leader == id && r.leaderCommit == n.commitIndex
              && r.prevLogIndex + 1 == next && r.prevLogTerm == (if next == 1 then 0 else n.log[next - 2].term)
              && r.prevLogIndex + |r.entries| == |n.log|
              && forall i :: 0 <= i < |r.entries| ==> r.entries[i] == n.log[r.prevLogIndex + i]
  {
  }

  /** A request of an earlier term changes nothing and is told the later term. */
  lemma StaleRequestRule(n: Node, req: AppendArgs, d: Disk)
    requires req.term < n.currentTerm
    ensures var h := HandleAppend(n, req, d);
            h.node == n && h.answers == {} && h.reply == Some(AppendReply(n.currentTerm, false, 0, 0))
  {
  }

  /** One of a later term that cannot be stored moves the node there and gets no reply. */
  lemma UnstoredRequestRule(n: Node, req: AppendArgs, d: Disk)
    requires req.term > n.currentTerm && d != Stored
    ensures var h := HandleAppend(n, req, d);
            FollowsIn(h.node, req.term) && SameRecord(n, h.node) && h.answers == {} && h.reply == None
  {
  }

  /** Why a request is refused, and the hint that goes with the refusal. */
  ghost predicate RefusedWith(n: Node, req: AppendArgs, index: nat, term: nat) {
    if req.prevLogIndex < n.snapIndex then index == n.snapIndex + 1 && term == 0
    else if req.prevLogIndex > |n.log| then index == |n.log| + 1 && term == 0
    else index == req.prevLogIndex && term == TermAt(n.log, req.prevLogIndex) != req.prevLogTerm
  }

  /**
   * A request of the node's term is accepted if and only if its probe is neither compacted away
   * nor past the log and has the probed term. Otherwise the log stays and the reply says where it
   * ends or starts, or which term it has there.
   */
  lemma RequestRule(n: Node, req: AppendArgs, d: Disk)
    requires req.term == n.currentTerm
    ensures var h := HandleAppend(n, req, d);
            && h.node.role.Follower? && h.node.currentTerm == n.currentTerm && h.reply.Some?
            && h.reply.value.term == n.currentTerm
            && (h.reply.value.success <==>
                  n.snapIndex <= req.prevLogIndex <= |n.log| && TermAt(n.log, req.prevLogIndex) == req.prevLogTerm)
            && (h.reply.value.success ==>
                  && h.node.log == Merge(n.log, req.prevLogIndex, req.entries)
                  && h.node.commitIndex == if req.leaderCommit <= n.commitIndex then n.commitIndex
                                           else Max(Min(req.leaderCommit, |h.node.log|), n.snapIndex))
            && (!h.reply.value.success ==>
                  && SameRecord(n, h.node) && h.answers == {}
                  && RefusedWith(n, req, h.reply.value.conflictIndex, h.reply.value.conflictTerm))
  {
    if Matches(n, req) {
      MatchedHandled(n, req, d);
    }
  }

  ghost predicate AgreesWith(log: seq<Entry>, prev: nat, entries: seq<Entry>) {
    prev + |entries| <= |log| && forall i :: prev <= i < prev + |entries| ==> log[i].term == entries[i - prev].term
  }

  /** The first position at which the log and the entries differ in their terms, or the log ends. */
  ghost predicate FirstDifference(log: seq<Entry>, prev: nat, entries: seq<Entry>, k: nat)
    requires prev <= |log|
  {
    && prev <= k < prev + |entries| && k <= |log| && (k == |log| || log[k].term != entries[k - prev].term)
    && (forall i :: prev <= i < k ==> log[i].term == entries[i - prev].term)
  }

  /** Merging keeps the log if it agrees with all the entries, and replaces it from the first difference on. */
  lemma {:induction false} MergeRule(log: seq<Entry>, prev: nat, entries: seq<Entry>)
    requires prev <= |log|
    ensures AgreesWith(log, prev, entries) ==> Merge(log, prev, entries) == log
    ensures forall k: nat :: FirstDifference(log, prev, entries, k) ==>
              Merge(log, prev, entries) == log[..k] + entries[k - prev..]
    decreases |entries|
  {
    if entries != [] {
      if prev == |log| || log[prev].term != entries[0].term {
        forall k: nat | FirstDifference(log, prev, entries, k)
          ensures Merge(log, prev, entries) == log[..k] + entries[k - prev..]
        {
          assert k == prev && entries[0..] == entries;
        }
      } else {
        MergeRule(log, prev + 1, entries[1..]);
        forall k: nat | FirstDifference(log, prev, entries, k)
          ensures Merge(log, prev, entries) == log[..k] + entries[k - prev..]
        {
          assert FirstDifference(log, prev + 1, entries[1..], k);
          assert entries[1..][k - (prev + 1)..] == entries[k - prev..];
        }
      }
    }
  }

  /* ---------- Replies ---------- */

  /** A leader that hears of a later term follows in it, and its callers are let go. */
  lemma LaterReplyRule(n: Node, id: NodeId, members: set<NodeId>, req: AppendArgs, peer: NodeId, r: AppendReply,
                       d: Disk)
    requires n.role.Leader? && n.currentTerm == req.term && r.term > n.currentTerm
    ensures var h := HandleAppendReply(n, id, members, req, peer, r, d);
            && FollowsIn(h.node, r.term) && SameRecord(n, h.node) && h.answers == {}
            && h.node.stable == if d == Lost then n.stable else Stable(r.term, NO_NODE)
  {
  }

  /** A reply to a request of another term, or to a node that no longer leads, changes nothing. */
  lemma IgnoredReplyRule(n: Node, id: NodeId, members: set<NodeId>, req: AppendArgs, peer: NodeId, r: AppendReply,
                         d: Disk)
    requires !n.role.Leader? || n.currentTerm != req.term
    ensures HandleAppendReply(n, id, members, req, peer, r, d) == Heard(n, None, {})
  {
  }

  /**
   * An acceptance raises the peer's match index to the last entry sent, never lowers it, and sets
   * the next index right after it; no other peer's indexes change.
   */
  lemma AcceptedReplyRule(n: Node, id: NodeId, members: set<NodeId>, req: AppendArgs, peer: NodeId, r: AppendReply,
                          d: Disk)
    requires n.role.Leader? && n.currentTerm == req.term && r.term <= n.currentTerm && r.success
    ensures var n' := HandleAppendReply(n, id, members, req, peer, r, d).node;
            var (was, matched) := (if peer in n.matchIndex then n.matchIndex[peer] else 0, MatchedBy(req));
            && n'.role.Leader? && n'.currentTerm == n.currentTerm && n'.log == n.log
            && (matched <= was ==> n' == n)
            && (matched > was ==>
                  n'.matchIndex == n.matchIndex[peer := matched] && n'.nextIndex == n.nextIndex[peer := matched + 1])
            && MatchedBy(req) == if req.entries == [] then req.prevLogIndex else req.entries[|req.entries| - 1].index
  {
  }

  /** A rejection moves the probe to the hint, or down by one without one, and nothing else. */
  lemma RejectedReplyRule(n: Node, id: NodeId, members: set<NodeId>, req: AppendArgs, peer: NodeId, r: AppendReply,
                          d: Disk)
    requires n.role.Leader? && n.currentTerm == req.term && r.term <= n.currentTerm && !r.success
    ensures var n' := HandleAppendReply(n, id, members, req, peer, r, d).node;
            && n' == n.(nextIndex := n'.nextIndex) && peer in n'.nextIndex
            && n'.nextIndex.Keys == n.nextIndex.Keys + {peer}
            && (forall p :: p in n.nextIndex && p != peer ==> n'.nextIndex[p] == n.nextIndex[p])
            && (r.conflictIndex > 0 ==> n'.nextIndex[peer] == r.conflictIndex)
            && (r.conflictIndex == 0 && peer in n.nextIndex && n.nextIndex[peer] > 1 ==>
                  n'.nextIndex[peer] == n.nextIndex[peer] - 1)
  {
  }

  /**
   * Counting again moves the commit index to the highest index above it that was written in this
   * term and that a majority holds, if there is one, and applies up to there.
   */
  lemma AdvanceRule(n: Node, id: NodeId, members: set<NodeId>, point: nat)
    requires n.lastApplied <= n.commitIndex && n.snapIndex <= n.commitIndex < point <= |n.log|
    requires n.log[point - 1].term == n.currentTerm && 2 * |Holders(n, id, members, point)| > |members|
    requires forall k :: point < k <= |n.log| ==>
               n.log[k - 1].term != n.currentTerm || 2 * |Holders(n, id, members, k)| <= |members|
    ensures var n' := AdvanceCommit(n, id, members).node; n'.commitIndex == n'.lastApplied == point && n'.log == n.log
  {
    CommitPointFound(n, id, members, point, |n.log|);
  }

  lemma {:induction false} CommitPointFound(n: Node, id: NodeId, members: set<NodeId>, point: nat, at: nat)
    requires n.commitIndex < point <= at <= |n.log|
    requires n.log[point - 1].term == n.currentTerm && 2 * |Holders(n, id, members, point)| > |members|
    requires forall k :: point < k <= at ==>
               n.log[k - 1].term != n.currentTerm || 2 * |Holders(n, id, members, k)| <= |members|
    ensures CommitPoint(n, id, members, at) == point
    decreases at
  {
    if point < at {
      CommitPointFound(n, id, members, point, at - 1);
    }
  }

  /** Who holds an index: the leader itself, and every member whose match index has reached it. */
  lemma HoldersRule(n: Node, id: NodeId, members: set<NodeId>, at: nat, p: NodeId)
    ensures p in Holders(n, id, members, at) <==>
              p in members && (p == id || (p in n.matchIndex && n.matchIndex[p] >= at))
  {
  }

  /** The snapshot index moves, to what is applied, if and only if at least a threshold of it is new. */
  lemma CompactRule(n: Node, threshold: nat)
    ensures var n' := Compact(n, threshold);
            && n' == n.(snapIndex := n'.snapIndex)
            && (threshold > 0 && n.lastApplied >= n.snapIndex + threshold ==> n'.snapIndex == n.lastApplied)
            && (threshold == 0 || n.lastApplied < n.snapIndex + threshold ==> n' == n)
  {
  }

  /* ---------- Over runs ---------- */

  lemma ElectionTermRises(n: Node, id: NodeId, members: set<NodeId>, req: VoteArgs, voter: NodeId, r: VoteReply,
                          d: Disk)
    ensures n.currentTerm <= StartElection(n, id, members, d).currentTerm
    ensures n.currentTerm <= HandleVoteReply(n, id, members, req, voter, r, d).currentTerm
  {
  }

  lemma RequestTermRises(n: Node, req: AppendArgs, d: Disk)
    ensures n.currentTerm <= HandleAppend(n, req, d).node.currentTerm
  {
    if req.term == n.currentTerm {
      RequestRule(n, req, d);
    } else if req.term > n.currentTerm && d.Stored? {
      HigherTermHandled(n, req, d);
    }
  }

  lemma ReplyTermRises(n: Node, id: NodeId, members: set<NodeId>, req: AppendArgs, peer: NodeId, r: AppendReply,
                       d: Disk)
    ensures n.currentTerm <= HandleAppendReply(n, id, members, req, peer, r, d).node.currentTerm
  {
    AppendReplyShape(n, id, members, req, peer, r, d);
  }

  lemma TermRises(g: Ledger, n: Node, a: Action)
    requires !a.Crash?
    ensures n.currentTerm <= Act(g, n, a).node.currentTerm
  {
    match a
    case Timeout(v, d) => ElectionTermRises(n, v, g.members, VoteArgs(0, v, 0, 0), v, VoteReply(0, false), d);
    case GetVoteResp(v, args, voter, r, d) => ElectionTermRises(n, v, g.members, args, voter, r, d);
    case GetAppendReq(v, args, d) => RequestTermRises(n, args, d);
    case GetAppendResp(v, args, peer, r, d) => ReplyTermRises(n, v, g.members, args, peer, r, d);
    case _ =>
  }

  lemma TermStep(members: set<NodeId>, r: History, i: nat, j: nat, v: NodeId)
    requires IsRun(members, r) && i + 1 == j < |r.states| && v in r.states[i].nodes && r.actions[i] != Crash(v)
    ensures v in r.states[j].nodes && r.states[i].nodes[v].currentTerm <= r.states[j].nodes[v].currentTerm
  {
    StepInAnyRun(members, r, i, j);
    if r.actions[i].node == v {
      TermRises(r.states[i].ledger, r.states[i].nodes[v], r.actions[i]);
    }
  }

  /** Between two starts of a process its term never falls. */
  lemma {:induction false} TermNeverFalls(members: set<NodeId>, r: History, i: nat, j: nat, v: NodeId)
    requires IsRun(members, r) && i <= j < |r.states| && v in r.states[i].nodes
    requires forall k :: i <= k < j ==> r.actions[k] != Crash(v)
    ensures v in r.states[j].nodes && r.states[i].nodes[v].currentTerm <= r.states[j].nodes[v].currentTerm
    decreases j
  {
    if i < j {
      TermNeverFalls(members, r, i, j - 1, v);
      TermStep(members, r, j - 1, j, v);
    }
  }

  /** The step that gives a leader a reply of a later term. */
  ghost predicate HearsLater(r: History, i: nat, v: NodeId, t: nat, d: Disk) {
    && i < |r.actions| && i < |r.states| && v in r.states[i].nodes
    && r.actions[i].GetAppendResp? && r.actions[i].node == v && r.actions[i].disk == d
    && r.states[i].nodes[v].role.Leader? && r.states[i].nodes[v].currentTerm == r.actions[i].append.term < t
    && r.actions[i].appendReply.term == t
  }

  lemma HearsAndFollows(members: set<NodeId>, r: History, i: nat, j: nat, v: NodeId, t: nat, d: Disk)
    requires IsRun(members, r) && i + 1 == j < |r.states| && HearsLater(r, i, v, t, d)
    ensures v in r.states[j].nodes && FollowsIn(r.states[j].nodes[v], t)
    ensures d != Lost ==> r.states[j].nodes[v].stable.term == t
  {
    StepInAnyRun(members, r, i, j);
    var (c, a) := (r.states[i], r.actions[i]);
    LaterReplyRule(c.nodes[v], v, c.ledger.members, a.append, a.from, a.appendReply, d);
  }

  /**
   * A leader that has handled a reply of a later term follows in it and never again leads an
   * earlier one, in every run: for good if the new term reached its disk, and otherwise until
   * its process crashes.
   */
  lemma LaterReplyEndsReign(members: set<NodeId>, r: History, i: nat, j: nat, v: NodeId, t: nat, d: Disk)
    requires IsRun(members, r) && i < j < |r.states| && HearsLater(r, i, v, t, d)
    requires d != Lost || (forall k :: i < k < j ==> r.actions[k] != Crash(v))
    ensures v in r.states[i + 1].nodes && FollowsIn(r.states[i + 1].nodes[v], t)
    ensures v in r.states[j].nodes && t <= r.states[j].nodes[v].currentTerm
  {
    HearsAndFollows(members, r, i, i + 1, v, t, d);
    if d != Lost {
      DiskNeverGoesBack(members, r, i + 1, j, v);
      RunElects(members, r, j);
      NodesConsistent(r.states[j], v);
    } else {
      TermNeverFalls(members, r, i + 1, j, v);
    }
  }

  /** With the write lost and a crash it can: it comes back in the term on its disk and campaigns in the next. */
  lemma LostStepDownForgets(n: Node, id: NodeId, members: set<NodeId>, req: AppendArgs, peer: NodeId, r: AppendReply)
    requires n.role.Leader? && n.currentTerm == req.term && n.stable.term + 1 < r.term && r.term > n.currentTerm
    ensures var n' := Restart(HandleAppendReply(n, id, members, req, peer, r, Lost).node);
            StartElection(n', id, members, Stored).currentTerm == n.stable.term + 1 < r.term
  {
  }
}
