/**
 * One node of the replicator as a value, and each of its critical sections as a function.
 *
 * `log` is the node's whole log, one-based by position. Compaction hides the first `snapIndex`
 * entries from the code but never changes them, so they stay in the value.
 */
module RaftNode {
  import opened Basics
  import opened RaftTypes

  /** What a write to the stable store can do: succeed, fail and leave no trace, or fail after the rename. */
  datatype Disk = Stored | Lost | StoredButFailed

  /** A caller waiting in Replicate. */
  datatype Call = Call(id: nat, data: seq<byte>)

  /** The result the apply loop sends to a waiting caller for the entry it just applied. */
  datatype Answer = Answer(call: Call, index: nat, entry: Entry)

  datatype Node = Node(
    role: Role,
    currentTerm: nat,
    votedFor: NodeId,
    stable: Stable,
    log: seq<Entry>,
    snapIndex: nat,
    commitIndex: nat,
    lastApplied: nat,
    nextIndex: map<NodeId, nat>,
    matchIndex: map<NodeId, nat>,
    votes: set<NodeId>,
    pending: seq<Entry>,
    clients: map<nat, Call>,
    bootIndex: nat,
    handed: seq<Entry>)

  function NewNode(): Node {
    Node(Follower, 0, NO_NODE, Stable(0, NO_NODE), [], 0, 0, 0, map[], map[], {}, [], map[], 0, [])
  }

  /* ---------- Stable state ---------- */

  function Persist(n: Node, d: Disk): Node {
    if d.Lost? then n else n.(stable := Stable(n.currentTerm, n.votedFor))
  }

  function FailPending(n: Node): Node {
    n.(pending := [], clients := map[])
  }

  function StepDown(n: Node, term: nat, d: Disk): Node {
    Persist(FailPending(n.(role := Follower, currentTerm := term, votedFor := NO_NODE)), d)
  }

  /** Start: only what is on disk survives. */
  function Restart(n: Node): Node {
    n.(role := Follower, currentTerm := n.stable.term, votedFor := n.stable.votedFor,
       commitIndex := n.snapIndex, lastApplied := n.snapIndex,
       nextIndex := map[], matchIndex := map[], votes := {}, pending := [], clients := map[],
       bootIndex := n.snapIndex, handed := [])
  }

  /* ---------- Elections ---------- */

  function StartElection(n: Node, id: NodeId, members: set<NodeId>, d: Disk): Node {
    var m := Persist(n.(role := Candidate, currentTerm := n.currentTerm + 1, votedFor := id, votes := {id}), d);
    if !d.Stored? then FailPending(m.(role := Follower))
    else if |members| == 1 then BecomeLeader(m, id, members)
    else m
  }

  function BecomeLeader(n: Node, id: NodeId, members: set<NodeId>): Node {
    var m := n.(role := Leader,
                nextIndex := map p | p in members :: |n.log| + 1,
                matchIndex := (map p | p in members :: n.snapIndex)[id := |n.log|]);
    if m.pending != [] then Flush(m) else m
  }

  function HandleVote(n: Node, req: VoteArgs, stepDisk: Disk, grantDisk: Disk): (Node, Option<VoteReply>) {
    if req.term < n.currentTerm then (n, Some(VoteReply(n.currentTerm, false)))
    else
      var m := if req.term > n.currentTerm then StepDown(n, req.term, stepDisk) else n;
      if req.term > n.currentTerm && !stepDisk.Stored? then (m, None)
      else if (m.votedFor == NO_NODE || m.votedFor == req.candidate)
              && UpToDate(req.lastLogIndex, req.lastLogTerm, m.log) then
        var k := Persist(m.(votedFor := req.candidate), grantDisk);
        if !grantDisk.Stored? then (FailPending(k.(role := Follower)), None)
        else (k, Some(VoteReply(k.currentTerm, true)))
      else (m, Some(VoteReply(m.currentTerm, false)))
  }

  function HandleVoteReply(n: Node, id: NodeId, members: set<NodeId>, req: VoteArgs, voter: NodeId,
                           reply: VoteReply, d: Disk): Node {
    if !n.role.Candidate? || n.currentTerm != req.term then n
    else if reply.term > n.currentTerm then StepDown(n, reply.term, d)
    else if !reply.granted then n
    else
      var m := n.(votes := n.votes + {voter});
      if |m.votes| >= |members| / 2 + 1 then BecomeLeader(m, id, members) else m
  }

  /* ---------- Submitting ---------- */

  function Submit(n: Node, call: Call, maxBatch: int): Node {
    if !n.role.Leader? then n
    else
      var entry := Entry(|n.log| + |n.pending| + 1, n.currentTerm, call.data);
      var m := n.(pending := n.pending + [entry], clients := n.clients[entry.index := call]);
      if maxBatch <= 1 || |m.pending| >= maxBatch then Flush(m) else m
  }

  function Flush(n: Node): Node {
    n.(log := n.log + n.pending, pending := [])
  }

  function Cancel(n: Node, index: nat): Node {
    n.(clients := n.clients - {index})
  }

  /* ---------- Replicating ---------- */

  /** The first index to send to a peer; an unknown one starts right after the snapshot. */
  function NextFor(n: Node, peer: NodeId): nat {
    if peer !in n.nextIndex || n.nextIndex[peer] == 0 then n.snapIndex + 1 else n.nextIndex[peer]
  }

  /** The AppendEntries built for one peer; none when the peer needs a snapshot or the probe is past the log. */
  function BuildAppend(n: Node, id: NodeId, peer: NodeId): Option<AppendArgs> {
    var next := NextFor(n, peer);
    if next <= n.snapIndex || next - 1 > |n.log| then None
    else Some(AppendArgs(n.currentTerm, id, next - 1, TermAt(n.log, next - 1), n.log[next - 1..], n.commitIndex))
  }

  /** Where the apply loop starts handing out: entries the snapshot covers are skipped. */
  function ApplyFrom(n: Node): nat {
    if n.lastApplied < n.commitIndex then Max(n.lastApplied, Min(n.snapIndex, n.commitIndex)) else n.lastApplied
  }

  function ApplyTo(n: Node): nat {
    Max(ApplyFrom(n), Min(n.commitIndex, |n.log|))
  }

  /** Hands every committed entry that has not been handed yet to the state machine. */
  function Apply(n: Node): Node {
    var (from, to) := (ApplyFrom(n), ApplyTo(n));
    if from == to then n.(lastApplied := to)
    else n.(lastApplied := to,
            handed := n.handed + n.log[from..to],
            clients := map i | i in n.clients && !(from < i <= to) :: n.clients[i])
  }

  /** The waiting callers the apply loop answers. */
  function Answers(n: Node): set<Answer> {
    var (from, to) := (ApplyFrom(n), ApplyTo(n));
    set i | i in n.clients && from < i <= to :: Answer(n.clients[i], i, n.log[i - 1])
  }

  function CommitTo(n: Node, index: nat): Node {
    n.(commitIndex := Max(Min(index, |n.log|), n.snapIndex))
  }

  datatype Heard = Heard(node: Node, reply: Option<AppendReply>, answers: set<Answer>)

  /** The follower's own last index bounds the commit index it takes from the leader. */
  function Accepted(n: Node, req: AppendArgs): Heard
    requires req.prevLogIndex <= |n.log|
  {
    var m := n.(log := Merge(n.log, req.prevLogIndex, req.entries));
    var reply := Some(AppendReply(n.currentTerm, true, 0, 0));
    if req.leaderCommit > m.commitIndex then
      var k := CommitTo(m, req.leaderCommit);
      Heard(Apply(k), reply, Answers(k))
    else Heard(m, reply, {})
  }

  function HandleAppend(n: Node, req: AppendArgs, d: Disk): Heard {
    if req.term < n.currentTerm then Heard(n, Some(AppendReply(n.currentTerm, false, 0, 0)), {})
    else if req.term > n.currentTerm && !d.Stored? then Heard(StepDown(n, req.term, d), None, {})
    else
      var m := (if req.term > n.currentTerm then StepDown(n, req.term, d) else n).(role := Follower);
      if req.prevLogIndex < m.snapIndex then
        Heard(m, Some(AppendReply(m.currentTerm, false, m.snapIndex + 1, 0)), {})
      else if req.prevLogIndex > |m.log| then
        Heard(m, Some(AppendReply(m.currentTerm, false, |m.log| + 1, 0)), {})
      else if TermAt(m.log, req.prevLogIndex) != req.prevLogTerm then
        Heard(m, Some(AppendReply(m.currentTerm, false, req.prevLogIndex, TermAt(m.log, req.prevLogIndex))), {})
      else Accepted(m, req)
  }

  /** How many members hold index `at`, the leader itself included. */
  function Holders(n: Node, id: NodeId, members: set<NodeId>, at: nat): set<NodeId> {
    set p | p in members && (p == id || (p in n.matchIndex && n.matchIndex[p] >= at))
  }

  /** The highest index above the commit index, written in the current term, that a majority holds. */
  function CommitPoint(n: Node, id: NodeId, members: set<NodeId>, at: nat): (point: nat)
    requires at <= |n.log|
    decreases at
  {
    if at <= n.commitIndex then n.commitIndex
    else if n.log[at - 1].term == n.currentTerm && |Holders(n, id, members, at)| > |members| / 2 then at
    else CommitPoint(n, id, members, at - 1)
  }

  function AdvanceCommit(n: Node, id: NodeId, members: set<NodeId>): Heard {
    var point := CommitPoint(n, id, members, |n.log|);
    if n.commitIndex < point <= |n.log| then
      var m := n.(commitIndex := point);
      Heard(Apply(m), None, Answers(m))
    else Heard(n, None, {})
  }

  function MatchedBy(req: AppendArgs): nat {
    if req.entries == [] then req.prevLogIndex else req.entries[|req.entries| - 1].index
  }

  function HandleAppendReply(n: Node, id: NodeId, members: set<NodeId>, req: AppendArgs, peer: NodeId,
                             reply: AppendReply, d: Disk): Heard {
    if !n.role.Leader? || n.currentTerm != req.term then Heard(n, None, {})
    else if reply.term > n.currentTerm then Heard(StepDown(n, reply.term, d), None, {})
    else if reply.success then
      var match0 := if peer in n.matchIndex then n.matchIndex[peer] else 0;
      if MatchedBy(req) > match0 then
        AdvanceCommit(n.(matchIndex := n.matchIndex[peer := MatchedBy(req)],
                         nextIndex := n.nextIndex[peer := MatchedBy(req) + 1]), id, members)
      else Heard(n, None, {})
    else Heard(n.(nextIndex := n.nextIndex[peer := Retreat(n, peer, reply)]), None, {})
  }

  /** Where to probe next after a rejection. */
  function Retreat(n: Node, peer: NodeId, reply: AppendReply): nat {
    var next := if peer in n.nextIndex then n.nextIndex[peer] else 0;
    if reply.conflictIndex > 0 then reply.conflictIndex
    else if next > 1 then next - 1
    else next
  }

  /* ---------- Compaction ---------- */

  function Compact(n: Node, threshold: nat): Node {
    if threshold == 0 || n.lastApplied <= n.snapIndex || n.lastApplied - n.snapIndex < threshold then n
    else n.(snapIndex := n.lastApplied)
  }
}
