/** The data the replicated log is made of: entries, roles, RPC arguments and replies. */
module RaftTypes {

  import opened Basics

  /** One replicated command. The code's timestamp is never read by the replicator. */
  datatype Entry = Entry(index: nat, term: nat, data: seq<byte>)

  datatype Role = Follower | Candidate | Leader

  datatype VoteArgs = VoteArgs(term: nat, candidate: NodeId, lastLogIndex: nat, lastLogTerm: nat)
  datatype VoteReply = VoteReply(term: nat, granted: bool)

  datatype AppendArgs = AppendArgs(term: nat, leader: NodeId, prevLogIndex: nat, prevLogTerm: nat,
                                   entries: seq<Entry>, leaderCommit: nat)
  datatype AppendReply = AppendReply(term: nat, success: bool, conflictIndex: nat, conflictTerm: nat)

  /** The durable pair the stable store keeps. */
  datatype Stable = Stable(term: nat, votedFor: NodeId)

  /** The term of the entry at a one-based index; index 0 is the position before the log. */
  function TermAt(log: seq<Entry>, index: nat): nat
    requires index <= |log|
  {
    if index == 0 then 0 else log[index - 1].term
  }

  function LastTerm(log: seq<Entry>): nat {
    TermAt(log, |log|)
  }

  /** The last index an AppendEntries request speaks of. */
  function Reach(req: AppendArgs): nat {
    req.prevLogIndex + |req.entries|
  }

  /** The entries of a request carry the indexes that follow the probe. */
  ghost predicate Numbered(req: AppendArgs) {
    forall i :: 0 <= i < |req.entries| ==> req.entries[i].index == req.prevLogIndex + i + 1
  }

  /** Every entry carries its own position. */
  predicate Indexed(log: seq<Entry>) {
    forall i :: 0 <= i < |log| ==> log[i].index == i + 1
  }

  /** The candidate's last entry is at least as recent as the voter's. */
  predicate UpToDate(candidateIndex: nat, candidateTerm: nat, log: seq<Entry>) {
    candidateTerm > LastTerm(log) || (candidateTerm == LastTerm(log) && candidateIndex >= |log|)
  }

  /**
   * What a follower's log becomes when entries following `prev` arrive: entries that agree on
   * the term are skipped, and from the first one that disagrees or is missing the rest replaces
   * the follower's suffix.
   */
  function Merge(log: seq<Entry>, prev: nat, entries: seq<Entry>): (merged: seq<Entry>)
    requires prev <= |log|
    decreases |entries|
  {
    if entries == [] then log
    else if prev == |log| || log[prev].term != entries[0].term then log[..prev] + entries
    else Merge(log, prev + 1, entries[1..])
  }
}
