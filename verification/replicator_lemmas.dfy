/** What the loops of the replicator do one step at a time, as facts about node values. */
module ReplicatorLemmas {
  import opened Basics
  import opened RaftTypes
  import opened RaftNode
  import opened LogStore

  /** One turn of the apply loop on an entry the snapshot already covers. */
  lemma ApplySkips(n: Node)
    requires n.lastApplied < n.commitIndex && n.lastApplied + 1 <= n.snapIndex
    ensures var m := n.(lastApplied := n.lastApplied + 1); Apply(m) == Apply(n) && Answers(m) == Answers(n)
  {
  }

  function HandedOne(n: Node): Node
    requires n.lastApplied < |n.log|
  {
    n.(lastApplied := n.lastApplied + 1, handed := n.handed + [n.log[n.lastApplied]],
       clients := n.clients - {n.lastApplied + 1})
  }

  function AnsweredOne(n: Node): set<Answer>
    requires n.lastApplied < |n.log|
  {
    var i := n.lastApplied + 1;
    if i in n.clients then {Answer(n.clients[i], i, n.log[i - 1])} else {}
  }

  /** One turn of the apply loop that hands an entry out. */
  lemma ApplyHandsOne(n: Node)
    requires n.lastApplied < n.commitIndex && n.snapIndex <= n.lastApplied < |n.log|
    ensures Apply(HandedOne(n)) == Apply(n)
  {
    var (m, to) := (HandedOne(n), ApplyTo(n));
    assert ApplyFrom(n) == n.lastApplied && ApplyFrom(m) == n.lastApplied + 1 && ApplyTo(m) == to;
    assert n.log[n.lastApplied..to] == [n.log[n.lastApplied]] + n.log[n.lastApplied + 1..to];
    assert Apply(m).handed == Apply(n).handed;
    assert Apply(m).clients == Apply(n).clients;
  }

  lemma ApplyAnswersOne(n: Node)
    requires n.lastApplied < n.commitIndex && n.snapIndex <= n.lastApplied < |n.log|
    ensures AnsweredOne(n) + Answers(HandedOne(n)) == Answers(n)
  {
    var (m, first, to) := (HandedOne(n), n.lastApplied + 1, ApplyTo(n));
    assert ApplyFrom(n) == n.lastApplied && ApplyFrom(m) == first && ApplyTo(m) == to;
    forall x | x in Answers(n) ensures x in AnsweredOne(n) + Answers(m) {
      var i :| i in n.clients && n.lastApplied < i <= to && x == Answer(n.clients[i], i, n.log[i - 1]);
      if i != first {
        assert i in m.clients && m.clients[i] == n.clients[i];
      }
    }
    forall x | x in Answers(m) ensures x in Answers(n) {
      var i :| i in m.clients && first < i <= to && x == Answer(m.clients[i], i, m.log[i - 1]);
      assert i in n.clients && m.clients[i] == n.clients[i];
    }
  }

  /** The apply loop, one turn further from n0: what is left to do from n is what is left from n0. */
  ghost predicate Underway(n0: Node, n: Node, answers: set<Answer>) {
    Apply(n) == Apply(n0) && answers + Answers(n) == Answers(n0)
  }

  lemma UnderwaySkips(n0: Node, n: Node, m: Node, answers: set<Answer>)
    requires Underway(n0, n, answers) && n.lastApplied < n.commitIndex && n.lastApplied + 1 <= n.snapIndex
    requires m == n.(lastApplied := n.lastApplied + 1)
    ensures Underway(n0, m, answers)
  {
    ApplySkips(n);
  }

  lemma UnderwayHands(n0: Node, n: Node, answers: set<Answer>)
    requires Underway(n0, n, answers) && n.lastApplied < n.commitIndex && n.snapIndex <= n.lastApplied < |n.log|
    ensures Underway(n0, HandedOne(n), answers + AnsweredOne(n))
  {
    ApplyHandsOne(n);
    ApplyAnswersOne(n);
  }

  lemma UnderwayEnds(n0: Node, n: Node, answers: set<Answer>)
    requires Underway(n0, n, answers)
    requires n.commitIndex <= n.lastApplied || (n.snapIndex <= n.lastApplied && |n.log| <= n.lastApplied)
    ensures n == Apply(n0) && answers == Answers(n0)
  {
    ApplyStops(n);
  }

  lemma ApplyStops(n: Node)
    requires n.commitIndex <= n.lastApplied || (n.snapIndex <= n.lastApplied && |n.log| <= n.lastApplied)
    ensures Apply(n) == n && Answers(n) == {}
  {
  }

  /** Merging skips an entry the log already has with the same term. */
  lemma MergeSkips(log: seq<Entry>, prev: nat, entries: seq<Entry>, i: nat)
    requires i < |entries| && prev + i < |log| && log[prev + i].term == entries[i].term
    ensures Merge(log, prev + i, entries[i..]) == Merge(log, prev + i + 1, entries[i + 1..])
  {
    assert entries[i..][0] == entries[i] && entries[i..][1..] == entries[i + 1..];
  }

  /** Otherwise the rest replaces the log from there. */
  lemma MergeReplaces(log: seq<Entry>, prev: nat, entries: seq<Entry>, i: nat)
    requires i < |entries| && prev + i <= |log| && (prev + i < |log| ==> log[prev + i].term != entries[i].term)
    ensures Merge(log, prev + i, entries[i..]) == log[..prev + i] + entries[i..]
  {
  }

  lemma {:induction false} DistinctCount<T>(s: seq<T>)
    requires forall i, j :: 0 <= i < j < |s| ==> s[i] != s[j]
    ensures |set v | v in s| == |s|
  {
    if s != [] {
      var last := |s| - 1;
      DistinctCount(s[..last]);
      assert (set v | v in s) == (set v | v in s[..last]) + {s[last]};
    }
  }

  /** Hearing a request of a later term is stepping down and then hearing it. */
  lemma VoteAfterStepDown(n: Node, req: VoteArgs, stepDisk: Disk, grantDisk: Disk)
    requires n.currentTerm < req.term
    ensures HandleVote(n, req, stepDisk, grantDisk)
            == if stepDisk.Stored? then HandleVote(StepDown(n, req.term, stepDisk), req, stepDisk, grantDisk)
               else (StepDown(n, req.term, stepDisk), None)
  {
  }

  function Stood(n: Node, id: NodeId, d: Disk): Node {
    Persist(n.(role := Candidate, currentTerm := n.currentTerm + 1, votedFor := id, votes := {id}), d)
  }

  function Seatless(n: Node): Node {
    FailPending(n.(role := Follower))
  }

  function InOffice(n: Node, id: NodeId, members: set<NodeId>): Node {
    n.(role := Leader, nextIndex := map p | p in members :: |n.log| + 1,
       matchIndex := (map p | p in members :: n.snapIndex)[id := |n.log|])
  }

  /** Why a request is refused: the conflict index and term of the reply, if any. */
  function Conflict(n: Node, req: AppendArgs): Option<(nat, nat)> {
    if req.prevLogIndex < n.snapIndex then Some((n.snapIndex + 1, 0))
    else if req.prevLogIndex > |n.log| then Some((|n.log| + 1, 0))
    else if TermAt(n.log, req.prevLogIndex) != req.prevLogTerm
      then Some((req.prevLogIndex, TermAt(n.log, req.prevLogIndex)))
    else None
  }

  /** What the handler does once the term is settled, in three steps: look for a conflict, merge, commit. */
  function Handled(m: Node, req: AppendArgs): Heard {
    match Conflict(m, req)
    case Some((index, term)) => Heard(m, Some(AppendReply(m.currentTerm, false, index, term)), {})
    case None => Accepted(m, req)
  }

  lemma HandledInSteps(n: Node, req: AppendArgs, d: Disk)
    ensures HandleAppend(n, req, d)
            == if req.term < n.currentTerm then Heard(n, Some(AppendReply(n.currentTerm, false, 0, 0)), {})
               else if req.term == n.currentTerm then Handled(n.(role := Follower), req)
               else if d.Stored? then Handled(StepDown(n, req.term, d), req)
               else Heard(StepDown(n, req.term, d), None, {})
  {
    if req.term > n.currentTerm {
      assert StepDown(n, req.term, d).(role := Follower) == StepDown(n, req.term, d);
    }
  }

  lemma MergeEnds(log: seq<Entry>, prev: nat, entries: seq<Entry>, i: nat)
    requires i == |entries| && prev + i <= |log|
    ensures Merge(log, prev + i, entries[i..]) == log
  {
  }

  /** What a successful reply does to the leader. */
  function Matched(n: Node, id: NodeId, members: set<NodeId>, req: AppendArgs, peer: NodeId): Heard {
    if MatchedBy(req) > (if peer in n.matchIndex then n.matchIndex[peer] else 0) then
      AdvanceCommit(n.(matchIndex := n.matchIndex[peer := MatchedBy(req)],
                       nextIndex := n.nextIndex[peer := MatchedBy(req) + 1]), id, members)
    else Heard(n, None, {})
  }
}
