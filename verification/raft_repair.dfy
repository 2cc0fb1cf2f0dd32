/**
 * Conflict repair: a leader that probes one follower and is rejected finds the point where the
 * logs agree, and then the follower takes over the whole leader log. If the logs agree nowhere
 * above both snapshots, the search ends at a probe for which the follower needs a snapshot.
 */
module RaftRepair {
  import opened Basics
  import opened RaftTypes
  import opened RaftLedger
  import opened RaftLedgerSteps
  import opened RaftNode
  import opened RaftCluster
  import opened RaftElection
  import opened RaftTheorems
  import opened RaftNext

  datatype Pair = Pair(lead: Node, follower: Node)

  /** One request and its reply, nothing lost. */
  function Round(p: Pair, id: NodeId, peer: NodeId, members: set<NodeId>): Pair {
    match BuildAppend(p.lead, id, peer)
    case None => p
    case Some(req) =>
      var h := HandleAppend(p.follower, req, Stored);
      if h.reply.None? then Pair(p.lead, h.node)
      else Pair(HandleAppendReply(p.lead, id, members, req, peer, h.reply.value, Stored).node, h.node)
  }

  function Rounds(p: Pair, id: NodeId, peer: NodeId, members: set<NodeId>, k: nat): Pair
    decreases k
  {
    if k == 0 then p else Rounds(Round(p, id, peer, members), id, peer, members, k - 1)
  }

  /** The logs agree at an index that neither node has compacted away. */
  ghost predicate Meets(p: Pair, a: nat) {
    && p.lead.snapIndex <= a <= |p.lead.log| && p.follower.snapIndex <= a <= |p.follower.log|
    && TermAt(p.lead.log, a) == TermAt(p.follower.log, a)
  }

  /** Leader and follower of one term. What the follower has compacted, the leader has. */
  ghost predicate Sound(p: Pair, peer: NodeId, reign: map<nat, Reign>) {
    && p.lead.role.Leader? && p.follower.currentTerm == p.lead.currentTerm
    && (p.lead.snapIndex <= p.follower.snapIndex ==> Meets(p, p.follower.snapIndex))
    && NextFor(p.lead, peer) <= |p.lead.log| + 1
    && Traced(p.lead.log, reign) && Traced(p.follower.log, reign)
  }

  predicate NeedsSnapshot(lead: Node, peer: NodeId) {
    NextFor(lead, peer) <= lead.snapIndex
  }

  /** A probe is rejected when the follower has compacted past it, is too short, or disagrees there. */
  predicate Rejects(f: Node, prev: nat, prevTerm: nat) {
    prev < f.snapIndex || prev > |f.log| || TermAt(f.log, prev) != prevTerm
  }

  /** Whether the next probe, sent from `prev` on, is rejected. */
  ghost predicate Refused(p: Pair, peer: NodeId) {
    var prev := NextFor(p.lead, peer) - 1;
    0 <= prev <= |p.lead.log| && Rejects(p.follower, prev, TermAt(p.lead.log, prev))
  }

  /** Where agreement reaches, it holds at every index below that is still there. */
  lemma MeetsBelow(p: Pair, a: nat, b: nat, reign: map<nat, Reign>)
    requires Traced(p.lead.log, reign) && Traced(p.follower.log, reign) && Meets(p, a)
    requires p.lead.snapIndex <= b <= a && p.follower.snapIndex <= b
    ensures Meets(p, b)
  {
    LogMatching(reign, p.lead.log, p.follower.log, a);
    assert p.lead.log[..a][..b] == p.lead.log[..b] && p.follower.log[..a][..b] == p.follower.log[..b];
    assert b > 0 ==> p.lead.log[..a][b - 1] == p.follower.log[..a][b - 1];
  }

  /**
   * A rejection leaves the follower's log alone and moves the probe strictly down, to the end of
   * a shorter follower log or by one, or up to the boundary of a follower that has compacted past it.
   */
  lemma RejectedRound(p: Pair, id: NodeId, peer: NodeId, members: set<NodeId>, reign: map<nat, Reign>)
    requires Sound(p, peer, reign) && !NeedsSnapshot(p.lead, peer) && Refused(p, peer)
    ensures var q := Round(p, id, peer, members);
            var (was, next, f) := (NextFor(p.lead, peer), NextFor(q.lead, peer), p.follower);
            && q.lead == p.lead.(nextIndex := q.lead.nextIndex) && q.follower == f.(role := Follower)
            && next == (if was <= f.snapIndex then f.snapIndex + 1 else if was - 1 > |f.log| then |f.log| + 1
                        else was - 1)
            && Sound(q, peer, reign)
  {
    var req := BuildAppend(p.lead, id, peer).value;
    UnmatchedHandled(p.follower, req, Stored);
  }

  /** An accepted request leaves the follower with the whole leader log. */
  lemma AcceptedRound(p: Pair, id: NodeId, peer: NodeId, members: set<NodeId>, reign: map<nat, Reign>)
    requires Sound(p, peer, reign) && !NeedsSnapshot(p.lead, peer) && !Refused(p, peer)
    ensures p.lead.log <= Round(p, id, peer, members).follower.log && Meets(p, NextFor(p.lead, peer) - 1)
  {
    var (f, prev) := (p.follower, NextFor(p.lead, peer) - 1);
    var req := BuildAppend(p.lead, id, peer).value;
    LogMatching(reign, f.log, p.lead.log, prev);
    assert req.entries == p.lead.log[prev..|p.lead.log|];
    MergeOutcome(reign, f.log, p.lead.log, prev, |p.lead.log|);
    MatchedHandled(f, req, Stored);
    assert Merge(f.log, prev, req.entries)[..|p.lead.log|] == p.lead.log[..|p.lead.log|] == p.lead.log;
  }

  lemma RoundsNext(p: Pair, id: NodeId, peer: NodeId, members: set<NodeId>, m: nat, k: nat)
    requires k == m + 1
    ensures Rounds(p, id, peer, members, k) == Rounds(Round(p, id, peer, members), id, peer, members, m)
  {
  }

  /** How many more rounds the search takes at most, when the logs agree at a. */
  function Distance(p: Pair, peer: NodeId, a: nat): nat {
    var next := NextFor(p.lead, peer);
    if next <= p.follower.snapIndex then 2 else if next <= a then 1 else next - a
  }

  lemma RejectedNearer(p: Pair, id: NodeId, peer: NodeId, members: set<NodeId>, reign: map<nat, Reign>, a: nat)
    requires Sound(p, peer, reign) && !NeedsSnapshot(p.lead, peer) && Refused(p, peer) && Meets(p, a)
    ensures var q := Round(p, id, peer, members);
            && Sound(q, peer, reign) && Meets(q, a) && q.lead.log == p.lead.log
            && !NeedsSnapshot(q.lead, peer) && Distance(q, peer, a) < Distance(p, peer, a)
  {
    RejectedRound(p, id, peer, members, reign);
    var prev := NextFor(p.lead, peer) - 1;
    if p.follower.snapIndex <= prev <= a {
      MeetsBelow(p, a, prev, reign);
      assert false;
    }
  }

  /**
   * If the logs agree at some index that neither node has compacted away, the search ends within
   * Distance rounds, and then the follower holds the whole leader log.
   */
  lemma {:induction false} RepairEnds(p: Pair, id: NodeId, peer: NodeId, members: set<NodeId>, reign: map<nat, Reign>,
                                      a: nat)
      returns (k: nat)
    requires Sound(p, peer, reign) && !NeedsSnapshot(p.lead, peer) && Meets(p, a)
    ensures 0 < k <= Distance(p, peer, a) && p.lead.log <= Rounds(p, id, peer, members, k).follower.log
    decreases Distance(p, peer, a)
  {
    var m := 0;
    if Refused(p, peer) {
      RejectedNearer(p, id, peer, members, reign, a);
      m := RepairEnds(Round(p, id, peer, members), id, peer, members, reign, a);
    } else {
      AcceptedRound(p, id, peer, members, reign);
    }
    k := m + 1;
    RoundsNext(p, id, peer, members, m, k);
  }

  /** Without such an index every probe is rejected and the next one is strictly lower. */
  lemma RejectedLower(p: Pair, id: NodeId, peer: NodeId, members: set<NodeId>, reign: map<nat, Reign>)
    requires Sound(p, peer, reign) && !NeedsSnapshot(p.lead, peer) && (forall a :: !Meets(p, a))
    ensures var q := Round(p, id, peer, members);
            && Sound(q, peer, reign) && (forall a :: !Meets(q, a)) && q.follower.log == p.follower.log
            && NextFor(q.lead, peer) < NextFor(p.lead, peer)
  {
    if !Refused(p, peer) {
      AcceptedRound(p, id, peer, members, reign);
      assert false;
    }
    RejectedRound(p, id, peer, members, reign);
    var q := Round(p, id, peer, members);
    forall a ensures !Meets(q, a) {
      assert !Meets(p, a);
    }
  }

  /** Then the search ends, with the follower's log as it was, at a probe for which it needs a snapshot. */
  lemma {:induction false} SearchEndsInSnapshot(p: Pair, id: NodeId, peer: NodeId, members: set<NodeId>,
                                                reign: map<nat, Reign>)
      returns (k: nat)
    requires Sound(p, peer, reign) && (forall a :: !Meets(p, a))
    ensures var q := Rounds(p, id, peer, members, k);
            NeedsSnapshot(q.lead, peer) && q.follower.log == p.follower.log && k <= NextFor(p.lead, peer)
    decreases NextFor(p.lead, peer)
  {
    k := 0;
    if !NeedsSnapshot(p.lead, peer) {
      RejectedLower(p, id, peer, members, reign);
      var m := SearchEndsInSnapshot(Round(p, id, peer, members), id, peer, members, reign);
      k := m + 1;
      RoundsNext(p, id, peer, members, m, k);
    }
  }

  /** In every clean run a leader and a node of its term are such a pair. */
  lemma SoundInRuns(members: set<NodeId>, r: History, i: nat, v: NodeId, w: NodeId)
    requires IsCleanRun(members, r) && Present(r, i, v) && Present(r, i, w)
    requires At(r, i, v).role.Leader? && At(r, i, w).currentTerm == At(r, i, v).currentTerm
    ensures Sound(Pair(At(r, i, v), At(r, i, w)), w, r.states[i].ledger.reign)
  {
    var (n, m) := (At(r, i, v), At(r, i, w));
    LogIsTraced(members, r, i, v, i);
    LogIsTraced(members, r, i, w, i);
    NodeHanded(members, r, i, v);
    NodeHanded(members, r, i, w);
    LeaderCompleteness(members, r, i, w, i, v);
    ProbesInLog(members, r, i, v, w);
    assert m.log[..m.commitIndex][..m.snapIndex] == m.log[..m.snapIndex] == n.log[..m.snapIndex];
    assert m.snapIndex > 0 ==> m.log[..m.snapIndex][m.snapIndex - 1] == n.log[..m.snapIndex][m.snapIndex - 1];
  }

  /**
   * From every state of every clean run, a leader that goes on probing a node of its term repairs
   * that node's log if and only if their logs agree somewhere above both snapshots and the probe
   * has not fallen below its own; otherwise the search ends where a snapshot is needed.
   */
  lemma RepairInRuns(members: set<NodeId>, r: History, i: nat, v: NodeId, w: NodeId) returns (k: nat)
    requires IsCleanRun(members, r) && Present(r, i, v) && Present(r, i, w)
    requires At(r, i, v).role.Leader? && At(r, i, w).currentTerm == At(r, i, v).currentTerm
    ensures var p := Pair(At(r, i, v), At(r, i, w));
            var q := Rounds(p, v, w, members, k);
            if !NeedsSnapshot(p.lead, w) && (exists a :: Meets(p, a)) then p.lead.log <= q.follower.log
            else NeedsSnapshot(q.lead, w) && q.follower.log == p.follower.log
  {
    var p := Pair(At(r, i, v), At(r, i, w));
    SoundInRuns(members, r, i, v, w);
    k := 0;
    if !NeedsSnapshot(p.lead, w) {
      if a :| Meets(p, a) {
        k := RepairEnds(p, v, w, members, r.states[i].ledger.reign, a);
      } else {
        k := SearchEndsInSnapshot(p, v, w, members, r.states[i].ledger.reign);
      }
    }
  }
}
