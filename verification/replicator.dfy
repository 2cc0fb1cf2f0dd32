/**
 * The replicator of one node as the program keeps it: fields changed in place by handlers and
 * loops over the log store. Each method is one critical section and does to the node what the
 * function of RaftNode with the same task says. The log store is reached through its interface,
 * so it is a value here; FileLogStore.LogFile is the class that computes these operations.
 */
module Replicator {
  import opened Basics
  import opened RaftTypes
  import opened RaftNode
  import opened RaftWindow
  import opened LogStore
  import opened ReplicatorLemmas

  class DurableRaft {
    const id: NodeId
    const nodes: seq<NodeId>

    var logStore: Store
    /** What the stable store holds. */
    var stable: Stable

    var state: Role
    var currentTerm: nat
    var votedFor: NodeId
    var commitIndex: nat
    var lastApplied: nat
    var lastIncludedIndex: nat
    var lastIncludedTerm: nat
    var nextIndex: map<NodeId, nat>
    var matchIndex: map<NodeId, nat>
    var votes: set<NodeId>
    var pendingBatch: seq<Entry>
    var pendingClients: map<nat, Call>
    var started: bool

    /** The whole log with its compacted part, and what was handed to the state machine since the last start. */
    ghost var full: seq<Entry>
    ghost var bootIndex: nat
    ghost var handed: seq<Entry>

    ghost function Members(): set<NodeId> {
      set v | v in nodes
    }

    ghost predicate Seated() {
      id in nodes && (forall i, j :: 0 <= i < j < |nodes| ==> nodes[i] != nodes[j])
    }

    ghost function View(): Node
      reads this
    {
      Node(state, currentTerm, votedFor, stable, full, lastIncludedIndex, commitIndex, lastApplied,
           nextIndex, matchIndex, votes, pendingBatch, pendingClients, bootIndex, handed)
    }

    /** The log store stands for the log, and it may be compacted past the snapshot index. */
    ghost predicate Windowed()
      reads `logStore, `full, `lastIncludedIndex, `lastIncludedTerm, `commitIndex
    {
      && Represents(logStore, full)
      && lastIncludedIndex <= logStore.compactedUntil && lastIncludedIndex <= commitIndex
      && lastIncludedTerm == TermAt(full, lastIncludedIndex)
    }

    /** Outside the compaction window the two marks agree. */
    ghost predicate Valid()
      reads `logStore, `full, `lastIncludedIndex, `lastIncludedTerm, `commitIndex
    {
      Windowed() && logStore.compactedUntil == lastIncludedIndex
    }

    /** Pending entries are numbered on from the log. */
    ghost predicate Queued()
      reads `pendingBatch, `full
    {
      forall i :: 0 <= i < |pendingBatch| ==> pendingBatch[i].index == |full| + i + 1
    }

    /**
     * A process starts over what is on disk: the term and vote from the stable store, the indexes
     * from the snapshot. `started` tells whether the log reaches as far as the snapshot. `before`
     * is the node as it was when it crashed.
     */
    constructor (id: NodeId, nodes: seq<NodeId>, logStore: Store, stable: Stable, snapIndex: nat, snapTerm: nat,
                 ghost full: seq<Entry>, ghost before: Node)
      requires Represents(logStore, full)
      requires before.stable == stable && before.log == full && before.snapIndex == snapIndex
      ensures this.id == id && this.nodes == nodes && this.logStore == logStore
      ensures View() == Restart(before) && Queued()
      ensures started <==> snapIndex <= |full|
      ensures logStore.compactedUntil == snapIndex && snapTerm == TermAt(full, snapIndex) && started ==> Valid()
    {
      this.id, this.nodes, this.logStore, this.stable, this.full := id, nodes, logStore, stable, full;
      nextIndex, matchIndex, votes, pendingBatch, pendingClients := map[], map[], {}, [], map[];
      currentTerm, votedFor := stable.term, stable.votedFor;
      commitIndex, lastApplied, lastIncludedIndex, lastIncludedTerm := 0, 0, 0, 0;
      if snapIndex > 0 {
        lastIncludedIndex, lastIncludedTerm, commitIndex, lastApplied := snapIndex, snapTerm, snapIndex, snapIndex;
      }
      LastAnswers(logStore, full);
      var last := LastOf(logStore);
      started := last.Ok? && last.value.0 >= snapIndex;
      state := Follower;
      bootIndex, handed := snapIndex, [];
    }

    /* ---------- Applying ---------- */

    method ApplyLogs() returns (answers: set<Answer>)
      requires Valid()
      modifies `lastApplied, `handed, `pendingClients
      ensures Valid() && View() == Apply(old(View())) && answers == Answers(old(View()))
    {
      answers := {};
      while lastApplied < commitIndex
        invariant Underway(old(View()), View(), answers)
        decreases commitIndex - lastApplied
      {
        ghost var n := View();
        var next := lastApplied + 1;
        if next <= lastIncludedIndex {
          lastApplied := next;
          UnderwaySkips(old(View()), n, View(), answers);
          continue;
        }
        LookupAnswers(logStore, full, next);
        var r := Lookup(logStore, next);
        if r.Err? {
          break;
        }
        UnderwayHands(old(View()), n, answers);
        var done := ApplyOne(next, r.value);
        answers := answers + done;
      }
      UnderwayEnds(old(View()), View(), answers);
    }

    /** Hands one entry to the state machine and answers whoever waits for it. */
    method ApplyOne(next: nat, entry: Entry) returns (done: set<Answer>)
      requires next == lastApplied + 1 <= |full| && entry == full[lastApplied] && entry.index == next
      modifies `lastApplied, `handed, `pendingClients
      ensures View() == HandedOne(old(View())) && done == AnsweredOne(old(View()))
    {
      lastApplied := next;
      handed := handed + [entry];
      done := {};
      if entry.index in pendingClients {
        done := {Answer(pendingClients[entry.index], entry.index, entry)};
      }
      pendingClients := pendingClients - {entry.index};
    }

    /* ---------- Terms and votes ---------- */

    method PersistStable(d: Disk)
      modifies `stable
      ensures View() == Persist(old(View()), d)
    {
      if !d.Lost? {
        stable := Stable(currentTerm, votedFor);
      }
    }

    /** Tells every waiting caller that its call failed. */
    method FailAllPending()
      modifies `pendingBatch, `pendingClients
      ensures View() == FailPending(old(View()))
    {
      pendingBatch := [];
      while pendingClients != map[]
        invariant pendingBatch == []
        decreases |pendingClients|
        modifies `pendingClients
      {
        assert pendingClients.Keys != {};
        var index :| index in pendingClients;
        pendingClients := pendingClients - {index};
      }
    }

    method BecomeFollower(newTerm: nat, d: Disk) returns (ok: bool)
      modifies `state, `currentTerm, `votedFor, `pendingBatch, `pendingClients, `stable
      ensures View() == StepDown(old(View()), newTerm, d) && ok == d.Stored?
    {
      state, currentTerm, votedFor := Follower, newTerm, NO_NODE;
      FailAllPending();
      PersistStable(d);
      return d.Stored?;
    }

    method HandleRequestVote(req: VoteArgs, stepDisk: Disk, grantDisk: Disk) returns (reply: Option<VoteReply>)
      requires Valid()
      modifies `state, `currentTerm, `votedFor, `pendingBatch, `pendingClients, `stable
      ensures (View(), reply) == HandleVote(old(View()), req, stepDisk, grantDisk)
    {
      if req.term < currentTerm {
        return Some(VoteReply(currentTerm, false));
      }
      if req.term > currentTerm {
        VoteAfterStepDown(View(), req, stepDisk, grantDisk);
        var ok := BecomeFollower(req.term, stepDisk);
        if !ok {
          return None;
        }
      }
      reply := Consider(req, stepDisk, grantDisk);
    }

    /** Votes for the candidate of the node's own term, at most once and only if its log is recent enough. */
    method Consider(req: VoteArgs, ghost stepDisk: Disk, grantDisk: Disk) returns (reply: Option<VoteReply>)
      requires Valid() && req.term == currentTerm
      modifies `state, `votedFor, `pendingBatch, `pendingClients, `stable
      ensures (View(), reply) == HandleVote(old(View()), req, stepDisk, grantDisk)
    {
      LastAnswers(logStore, full);
      var (lastIdx, lastTerm) := LastOf(logStore).value;
      var logIsUpToDate := req.lastLogTerm > lastTerm || (req.lastLogTerm == lastTerm && req.lastLogIndex >= lastIdx);
      if (votedFor == NO_NODE || votedFor == req.candidate) && logIsUpToDate {
        votedFor := req.candidate;
        PersistStable(grantDisk);
        if !grantDisk.Stored? {
          GiveUpSeat();
          return None;
        }
        return Some(VoteReply(currentTerm, true));
      }
      return Some(VoteReply(currentTerm, false));
    }

    lemma MemberCount()
      requires Seated()
      ensures |Members()| == |nodes|
    {
      DistinctCount(nodes);
    }

    /** What a failing stable store makes of a node. */
    method GiveUpSeat()
      modifies `state, `pendingBatch, `pendingClients
      ensures View() == Seatless(old(View()))
    {
      state := Follower;
      FailAllPending();
    }

    method Stand(d: Disk)
      modifies `state, `currentTerm, `votedFor, `votes, `stable
      ensures View() == Stood(old(View()), id, d)
    {
      state, currentTerm, votedFor, votes := Candidate, currentTerm + 1, id, {id};
      PersistStable(d);
    }

    /** Starts an election; asks for votes unless the node is alone or its vote could not be stored. */
    method Campaign(d: Disk) returns (asks: Option<VoteArgs>)
      requires Valid() && Queued() && Seated()
      modifies `state, `currentTerm, `votedFor, `votes, `stable, `nextIndex, `matchIndex, `pendingBatch,
               `pendingClients, `full, `logStore
      ensures Valid() && View() == StartElection(old(View()), id, Members(), d)
      ensures asks == if d.Stored? && |Members()| != 1
                      then Some(VoteArgs(old(currentTerm) + 1, id, |old(full)|, LastTerm(old(full)))) else None
    {
      Stand(d);
      if !d.Stored? {
        GiveUpSeat();
        return None;
      }
      MemberCount();
      if |nodes| == 1 {
        Lead();
        return None;
      }
      LastAnswers(logStore, full);
      var (lastIdx, lastTerm) := LastOf(logStore).value;
      return Some(VoteArgs(currentTerm, id, lastIdx, lastTerm));
    }

    method HandleVoteAnswer(req: VoteArgs, voter: NodeId, reply: VoteReply, d: Disk)
      requires Valid() && Queued() && Seated()
      modifies this
      ensures Valid() && View() == HandleVoteReply(old(View()), id, Members(), req, voter, reply, d)
    {
      if state != Candidate || currentTerm != req.term {
        return;
      }
      if reply.term > currentTerm {
        var ok := BecomeFollower(reply.term, d);
        return;
      }
      if reply.granted {
        votes := votes + {voter};
        MemberCount();
        if |votes| >= |nodes| / 2 + 1 {
          Lead();
        }
      }
    }

    method Lead()
      requires Valid() && Queued()
      modifies `state, `nextIndex, `matchIndex, `pendingBatch, `full, `logStore
      ensures Valid() && View() == BecomeLeader(old(View()), id, Members())
    {
      TakeOffice();
      if |pendingBatch| > 0 {
        FlushPending();
      }
    }

    /** Replicates to everyone from the end of its own log on; match indexes start at the snapshot index. */
    method TakeOffice()
      requires Valid()
      modifies `state, `nextIndex, `matchIndex
      ensures View() == InOffice(old(View()), id, Members())
    {
      state := Leader;
      LastAnswers(logStore, full);
      var lastIdx := LastOf(logStore).value.0;
      nextIndex, matchIndex := InitialIndexes(lastIdx);
      matchIndex := matchIndex[id := lastIdx];
    }

    method InitialIndexes(lastIdx: nat) returns (next: map<NodeId, nat>, matched: map<NodeId, nat>)
      ensures next == map p | p in Members() :: lastIdx + 1
      ensures matched == map p | p in Members() :: lastIncludedIndex
    {
      next, matched := map[], map[];
      var i := 0;
      while i < |nodes|
        invariant 0 <= i <= |nodes|
        invariant next == map p | p in nodes[..i] :: lastIdx + 1
        invariant matched == map p | p in nodes[..i] :: lastIncludedIndex
      {
        next, matched := next[nodes[i] := lastIdx + 1], matched[nodes[i] := lastIncludedIndex];
        i := i + 1;
      }
    }

    /* ---------- Submitting ---------- */

    method FlushPending()
      requires Valid() && Queued()
      modifies `pendingBatch, `full, `logStore
      ensures Valid() && Queued() && View() == Flush(old(View()))
    {
      if |pendingBatch| == 0 {
        return;
      }
      var batch := pendingBatch;
      pendingBatch := [];
      PutAllAppends(logStore, full, batch);
      logStore := PutAll(logStore, batch).0;
      full := full + batch;
    }

    /** Queues the call's entry under the next free index; a node that does not lead refuses. */
    method Replicate(call: Call, maxBatch: int) returns (accepted: bool)
      requires Valid() && Queued()
      modifies `pendingBatch, `pendingClients, `full, `logStore
      ensures Valid() && Queued() && View() == Submit(old(View()), call, maxBatch) && accepted == state.Leader?
    {
      if state != Leader {
        return false;
      }
      LastAnswers(logStore, full);
      var entry := Entry(LastOf(logStore).value.0 + |pendingBatch| + 1, currentTerm, call.data);
      pendingBatch, pendingClients := pendingBatch + [entry], pendingClients[entry.index := call];
      if maxBatch <= 1 || |pendingBatch| >= maxBatch {
        FlushPending();
      }
      return true;
    }

    method GiveUp(index: nat)
      modifies `pendingClients
      ensures View() == Cancel(old(View()), index)
    {
      pendingClients := pendingClients - {index};
    }

    /* ---------- Replicating ---------- */

    /** Builds the request for one peer; none when it needs a snapshot or the probe is past the log. */
    method BuildRequest(peer: NodeId) returns (req: Option<AppendArgs>)
      requires Windowed()
      ensures req == WindowAppend(View(), logStore.compactedUntil, id, peer)
    {
      var next := if peer in nextIndex then nextIndex[peer] else 0;
      if next == 0 {
        next := lastIncludedIndex + 1;
      }
      if next <= lastIncludedIndex {
        return None;
      }
      req := BuildFrom(next, next - 1);
    }

    /** The request that starts right after `prev`. */
    method BuildFrom(next: nat, prev: nat) returns (req: Option<AppendArgs>)
      requires Windowed() && next == prev + 1 && lastIncludedIndex <= prev
      ensures req == if (prev != lastIncludedIndex && prev <= logStore.compactedUntil) || prev > |full| then None
                     else Some(AppendArgs(currentTerm, id, prev, TermAt(full, prev),
                                          if next <= logStore.compactedUntil then [] else full[prev..], commitIndex))
    {
      var prevTerm := ProbeTerm(prev);
      if prevTerm.None? {
        return None;
      }
      LastAnswers(logStore, full);
      var entries := CollectFrom(next, LastOf(logStore).value.0, prev);
      return Some(AppendArgs(currentTerm, id, prev, prevTerm.value, entries, commitIndex));
    }

    /** The term before the entries to send: the snapshot's own, or that of an entry that is still there. */
    method ProbeTerm(prev: nat) returns (term: Option<nat>)
      requires Windowed() && lastIncludedIndex <= prev
      ensures term == if (prev != lastIncludedIndex && prev <= logStore.compactedUntil) || prev > |full| then None
                      else Some(TermAt(full, prev))
    {
      LookupAnswers(logStore, full, prev);
      var found := 0;
      if prev == lastIncludedIndex {
        found := lastIncludedTerm;
      } else if prev > 0 {
        var r := Lookup(logStore, prev);
        if r.Err? {
          return None;
        }
        found := r.value.term;
      }
      return Some(found);
    }

    /** Reads entries one by one and stops at the first that cannot be read. */
    method CollectFrom(next: nat, lastIdx: nat, ghost prev: nat) returns (entries: seq<Entry>)
      requires Represents(logStore, full) && lastIdx == |full| && next == prev + 1 <= lastIdx + 1
      ensures entries == if next <= logStore.compactedUntil then [] else full[prev..]
    {
      entries := [];
      var idx := next;
      while idx <= lastIdx
        invariant next <= idx <= lastIdx + 1
        invariant idx > next ==> next > logStore.compactedUntil
        invariant entries == full[prev..idx - 1]
      {
        LookupAnswers(logStore, full, idx);
        var r := Lookup(logStore, idx);
        if r.Err? {
          break;
        }
        entries := entries + [r.value];
        idx := idx + 1;
      }
    }

    method HandleAppendEntries(req: AppendArgs, d: Disk) returns (reply: Option<AppendReply>, answers: set<Answer>)
      requires Valid() && Numbered(req) && Reach(req) <= UNLIMITED
      modifies `state, `currentTerm, `votedFor, `pendingBatch, `pendingClients, `stable, `logStore, `full, `commitIndex,
               `lastApplied, `handed
      ensures Valid() && Heard(View(), reply, answers) == HandleAppend(old(View()), req, d)
    {
      HandledInSteps(View(), req, d);
      if req.term < currentTerm {
        return Some(AppendReply(currentTerm, false, 0, 0)), {};
      }
      if req.term > currentTerm {
        var ok := BecomeFollower(req.term, d);
        if !ok {
          return None, {};
        }
      }
      state := Follower;
      reply, answers := HandleSameTerm(req);
    }

    method HandleSameTerm(req: AppendArgs) returns (reply: Option<AppendReply>, answers: set<Answer>)
      requires Valid() && Numbered(req) && Reach(req) <= UNLIMITED
      modifies `logStore, `full, `commitIndex, `lastApplied, `handed, `pendingClients
      ensures Valid() && Heard(View(), reply, answers) == Handled(old(View()), req)
    {
      var conflict := FindConflict(req);
      if conflict.Some? {
        return Some(AppendReply(currentTerm, false, conflict.value.0, conflict.value.1)), {};
      }
      MergeEntries(req);
      reply, answers := Some(AppendReply(currentTerm, true, 0, 0)), {};
      if req.leaderCommit > commitIndex {
        answers := TakeCommit(req.leaderCommit);
      }
    }

    method FindConflict(req: AppendArgs) returns (conflict: Option<(nat, nat)>)
      requires Valid()
      ensures conflict == Conflict(View(), req)
    {
      if req.prevLogIndex < lastIncludedIndex {
        return Some((lastIncludedIndex + 1, 0));
      }
      LookupAnswers(logStore, full, req.prevLogIndex);
      LastAnswers(logStore, full);
      if req.prevLogIndex == lastIncludedIndex {
        if req.prevLogTerm != lastIncludedTerm {
          return Some((lastIncludedIndex, lastIncludedTerm));
        }
      } else if req.prevLogIndex > 0 {
        var r := Lookup(logStore, req.prevLogIndex);
        if r.Err? {
          return Some((LastOf(logStore).value.0 + 1, 0));
        }
        if r.value.term != req.prevLogTerm {
          return Some((req.prevLogIndex, r.value.term));
        }
      }
      return None;
    }

    /** Skips entries it already has, and from the first that differs or is missing on takes the rest. */
    method MergeEntries(req: AppendArgs)
      requires Valid() && Numbered(req) && Reach(req) <= UNLIMITED
      requires lastIncludedIndex <= req.prevLogIndex <= |full|
      modifies `logStore, `full
      ensures Valid() && full == Merge(old(full), req.prevLogIndex, req.entries)
    {
      var i := 0;
      while i < |req.entries|
        invariant 0 <= i <= |req.entries| && req.prevLogIndex + i <= |full|
        invariant logStore == old(logStore) && full == old(full)
        invariant Merge(full, req.prevLogIndex + i, req.entries[i..]) == Merge(full, req.prevLogIndex, req.entries)
      {
        var entry := req.entries[i];
        LookupAnswers(logStore, full, entry.index);
        var existing := Lookup(logStore, entry.index);
        if existing.Ok? && existing.value.term == entry.term {
          MergeSkips(full, req.prevLogIndex, req.entries, i);
          i := i + 1;
          continue;
        }
        MergeReplaces(full, req.prevLogIndex, req.entries, i);
        ReplaceFrom(req.prevLogIndex + i, req.entries[i..]);
        return;
      }
      MergeEnds(full, req.prevLogIndex, req.entries, i);
    }

    /** Cuts the log after `keep` entries, if it is longer, and stores the given ones there. */
    method ReplaceFrom(keep: nat, entries: seq<Entry>)
      requires Valid() && lastIncludedIndex <= keep <= |full| && 0 < |entries| && keep + |entries| <= UNLIMITED
      requires forall i :: 0 <= i < |entries| ==> entries[i].index == keep + i + 1
      modifies `logStore, `full
      ensures Valid() && full == old(full)[..keep] + entries
    {
      assert entries[0].index == keep + 0 + 1;
      LookupAnswers(logStore, full, entries[0].index);
      if Lookup(logStore, entries[0].index).Ok? {
        DeleteTruncates(logStore, full, entries[0].index);
        logStore := Delete(logStore, entries[0].index, UNLIMITED);
      }
      full := full[..keep];
      PutAllAppends(logStore, full, entries);
      logStore := PutAll(logStore, entries).0;
      full := full + entries;
    }

    /** Takes the leader's commit index, bounded by the node's own last index and its snapshot. */
    method TakeCommit(leaderCommit: nat) returns (answers: set<Answer>)
      requires Valid()
      modifies `commitIndex, `lastApplied, `handed, `pendingClients
      ensures Valid() && View() == Apply(CommitTo(old(View()), leaderCommit))
      ensures answers == Answers(CommitTo(old(View()), leaderCommit))
    {
      LastAnswers(logStore, full);
      var target, lastIdx := leaderCommit, LastOf(logStore).value.0;
      if target > lastIdx {
        target := lastIdx;
      }
      if target < lastIncludedIndex {
        target := lastIncludedIndex;
      }
      commitIndex := target;
      answers := ApplyLogs();
    }

    method HandleAppendAnswer(req: AppendArgs, peer: NodeId, reply: AppendReply, d: Disk) returns (answers: set<Answer>)
      requires Valid() && Seated()
      modifies `state, `currentTerm, `votedFor, `pendingBatch, `pendingClients, `stable, `nextIndex, `matchIndex,
               `commitIndex, `lastApplied, `handed
      ensures Valid()
      ensures Heard(View(), None, answers) == HandleAppendReply(old(View()), id, Members(), req, peer, reply, d)
    {
      answers := {};
      if state != Leader || currentTerm != req.term {
        return;
      }
      if reply.term > currentTerm {
        var ok := BecomeFollower(reply.term, d);
        return;
      }
      if reply.success {
        answers := NoteMatch(req, peer);
      } else {
        BackOff(peer, reply);
      }
    }

    method NoteMatch(req: AppendArgs, peer: NodeId) returns (answers: set<Answer>)
      requires Valid() && Seated()
      modifies `nextIndex, `matchIndex, `pendingClients, `commitIndex, `lastApplied, `handed
      ensures Valid()
      ensures Heard(View(), None, answers) == Matched(old(View()), id, Members(), req, peer)
    {
      var matched := if |req.entries| > 0 then req.entries[|req.entries| - 1].index else req.prevLogIndex;
      var known := if peer in matchIndex then matchIndex[peer] else 0;
      answers := {};
      if matched > known {
        matchIndex, nextIndex := matchIndex[peer := matched], nextIndex[peer := matched + 1];
        answers := AdvanceCommitIndex();
      }
    }

    method BackOff(peer: NodeId, reply: AppendReply)
      modifies `nextIndex
      ensures View() == old(View()).(nextIndex := old(nextIndex)[peer := Retreat(old(View()), peer, reply)])
    {
      var next := if peer in nextIndex then nextIndex[peer] else 0;
      if reply.conflictIndex > 0 {
        next := reply.conflictIndex;
      } else if next > 1 {
        next := next - 1;
      }
      nextIndex := nextIndex[peer := next];
    }

    /** Commits the highest entry of its own term that a majority holds. */
    method AdvanceCommitIndex() returns (answers: set<Answer>)
      requires Valid() && Seated()
      modifies `commitIndex, `lastApplied, `handed, `pendingClients
      ensures Valid() && Heard(View(), None, answers) == AdvanceCommit(old(View()), id, Members())
    {
      answers := {};
      LastAnswers(logStore, full);
      MemberCount();
      var n: nat := LastOf(logStore).value.0;
      while n > commitIndex
        invariant n <= |full| && View() == old(View()) && answers == {}
        invariant CommitPoint(View(), id, Members(), n) == CommitPoint(View(), id, Members(), |full|)
      {
        LookupAnswers(logStore, full, n);
        var r := Lookup(logStore, n);
        if r.Ok? && r.value.term == currentTerm {
          var count := CountHolders(n);
          if count > |nodes| / 2 {
            commitIndex := n;
            answers := ApplyLogs();
            return;
          }
        }
        n := n - 1;
      }
    }

    method CountHolders(at: nat) returns (count: nat)
      requires Seated() && at > 0
      ensures count == |Holders(View(), id, Members(), at)|
    {
      count := 1;
      ghost var counted: set<NodeId> := {};
      var i := 0;
      while i < |nodes|
        invariant 0 <= i <= |nodes|
        invariant counted == set p | p in nodes[..i] && p != id && p in matchIndex && matchIndex[p] >= at
        invariant count == |counted| + 1
      {
        var p := nodes[i];
        if p != id && p in matchIndex && matchIndex[p] >= at {
          assert p !in nodes[..i];
          count := count + 1;
          counted := counted + {p};
        }
        i := i + 1;
      }
      assert Holders(View(), id, Members(), at) == counted + {id};
    }

    /* ---------- Compaction ---------- */

    /** The first locked section: what to snapshot, if there is enough of it. */
    method ChooseSnapshot(threshold: nat) returns (chosen: Option<(nat, nat)>)
      requires Valid() && lastApplied <= |full|
      ensures chosen == if lastApplied > lastIncludedIndex && lastApplied - lastIncludedIndex >= threshold > 0
                        then Some((lastApplied, TermAt(full, lastApplied))) else None
    {
      if threshold == 0 || lastApplied <= lastIncludedIndex || lastApplied - lastIncludedIndex < threshold {
        return None;
      }
      var snapshotIndex, snapshotTerm := lastApplied, lastIncludedTerm;
      LookupAnswers(logStore, full, snapshotIndex);
      var r := Lookup(logStore, snapshotIndex);
      if r.Ok? {
        snapshotTerm := r.value.term;
      }
      return Some((snapshotIndex, snapshotTerm));
    }

    /** Without the lock the log is compacted, which opens the window: the node itself does not change. */
    method CompactLog(snapshotIndex: nat)
      requires Windowed() && logStore.compactedUntil <= snapshotIndex <= |full| <= UNLIMITED
      modifies `logStore
      ensures Windowed() && logStore.compactedUntil == snapshotIndex && View() == old(View())
    {
      DeleteCompacts(logStore, full, snapshotIndex);
      logStore := Delete(logStore, 0, snapshotIndex);
    }

    /** The second locked section raises the snapshot index, which closes the window. */
    method RaiseSnapshot(snapshotIndex: nat, snapshotTerm: nat)
      requires Windowed() && snapshotIndex <= commitIndex && snapshotIndex == logStore.compactedUntil <= |full|
      requires snapshotTerm == TermAt(full, snapshotIndex)
      modifies `lastIncludedIndex, `lastIncludedTerm
      ensures Valid() && View() == old(View()).(snapIndex := snapshotIndex)
    {
      if snapshotIndex > lastIncludedIndex {
        lastIncludedIndex, lastIncludedTerm := snapshotIndex, snapshotTerm;
      }
    }

    /** The three sections with nothing in between. */
    method CheckCompaction(threshold: nat)
      requires Valid() && lastApplied <= commitIndex && lastApplied <= |full| <= UNLIMITED
      modifies `logStore, `lastIncludedIndex, `lastIncludedTerm
      ensures Valid() && View() == Compact(old(View()), threshold)
    {
      var chosen := ChooseSnapshot(threshold);
      if chosen.Some? {
        CompactLog(chosen.value.0);
        RaiseSnapshot(chosen.value.0, chosen.value.1);
      }
    }
  }
}
