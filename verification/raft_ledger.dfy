/**
 * The history a Raft cluster leaves behind, and the invariants that make it safe.
 *
 * A ledger holds the term each node is bound to and its full log, together with facts that are
 * never forgotten: who voted for whom, with which log a candidate ran, who won a term and how the
 * winner's log grew, and up to where each node acknowledged the log of a term's leader.
 */
module RaftLedger {
  import opened Basics
  import opened RaftTypes

  datatype Slot = Slot(term: nat, node: NodeId)

  /** One won election: the winner, its voters, the log it ran with and that log as it grew since. */
  datatype Reign = Reign(leader: NodeId, voters: set<NodeId>, start: seq<Entry>, log: seq<Entry>)

  datatype Ledger = Ledger(
    members: set<NodeId>,
    term: map<NodeId, nat>,
    log: map<NodeId, seq<Entry>>,
    ballot: map<Slot, NodeId>,
    bid: map<Slot, seq<Entry>>,
    reign: map<nat, Reign>,
    acked: map<Slot, nat>)

  ghost predicate Quorum(q: set<NodeId>, members: set<NodeId>) {
    q <= members && 2 * |q| > |members|
  }

  lemma QuorumsMeet(p: set<NodeId>, q: set<NodeId>, members: set<NodeId>) returns (v: NodeId)
    requires Quorum(p, members) && Quorum(q, members)
    ensures v in p && v in q
  {
    if p * q == {} {
      assert |p + q| == |p| + |q|;
      SubsetSize(p + q, members);
      assert false;
    }
    v :| v in p * q;
  }

  lemma {:induction false} SubsetSize<T>(a: set<T>, b: set<T>)
    requires a <= b
    ensures |a| <= |b|
  {
    if a != {} {
      var x :| x in a;
      SubsetSize(a - {x}, b - {x});
    }
  }

  /* ---------- Elections: true in every run ---------- */

  ghost predicate Shaped(g: Ledger) {
    && g.term.Keys == g.members
    && g.log.Keys == g.members
  }

  ghost predicate BallotsCounted(g: Ledger) {
    forall s :: s in g.ballot ==>
      s.node in g.term && s.term <= g.term[s.node] && Slot(s.term, g.ballot[s]) in g.bid
  }

  ghost predicate BidsOwned(g: Ledger) {
    forall s :: s in g.bid ==> s in g.ballot && g.ballot[s] == s.node
  }

  ghost predicate Won(g: Ledger, t: nat, r: Reign) {
    && Quorum(r.voters, g.members)
    && (forall v :: v in r.voters ==> Slot(t, v) in g.ballot && g.ballot[Slot(t, v)] == r.leader)
    && Slot(t, r.leader) in g.bid
    && r.start == g.bid[Slot(t, r.leader)]
  }

  ghost predicate ReignsWon(g: Ledger) {
    forall t :: t in g.reign ==> Won(g, t, g.reign[t])
  }

  ghost predicate ElectionInv(g: Ledger) {
    Shaped(g) && BallotsCounted(g) && BidsOwned(g) && ReignsWon(g)
  }

  /** Two majorities for the same term chose the same candidate. */
  lemma OneWinner(g: Ledger, t: nat, r: Reign, r': Reign)
    requires Won(g, t, r) && Won(g, t, r')
    ensures r.leader == r'.leader
  {
    var v := QuorumsMeet(r.voters, r'.voters, g.members);
  }

  /* ---------- Logs: true while no node forgets a term it has acknowledged in ---------- */

  /** Each entry was put at its place, after the very same entries, by the leader of its term. */
  ghost predicate Traced(log: seq<Entry>, reign: map<nat, Reign>) {
    forall i :: 0 <= i < |log| ==>
      log[i].term in reign && log[..i + 1] <= reign[log[i].term].log
  }

  ghost predicate TermsBelow(log: seq<Entry>, bound: nat) {
    forall i :: 0 <= i < |log| ==> log[i].term < bound
  }

  /** A reign's log is the log the winner ran with followed by entries of its own term. */
  ghost predicate GrownFrom(t: nat, r: Reign) {
    && r.start <= r.log
    && TermsBelow(r.start, t)
    && (forall i :: |r.start| <= i < |r.log| ==> r.log[i].term == t)
    && Indexed(r.log)
  }

  ghost predicate ReignLogs(g: Ledger) {
    forall t :: t in g.reign ==> GrownFrom(t, g.reign[t]) && Traced(g.reign[t].log, g.reign)
  }

  ghost predicate BidLogs(g: Ledger) {
    forall s :: s in g.bid ==> Traced(g.bid[s], g.reign) && TermsBelow(g.bid[s], s.term)
  }

  ghost predicate NodeLogs(g: Ledger) {
    forall v :: v in g.log ==>
      v in g.term && Traced(g.log[v], g.reign) && TermsBelow(g.log[v], g.term[v] + 1)
  }

  ghost predicate Acks(g: Ledger) {
    forall s :: s in g.acked ==>
      && s.node in g.members && s.node in g.term && s.term <= g.term[s.node]
      && s.term in g.reign && g.acked[s] <= |g.reign[s.term].log|
  }

  ghost predicate Acked(g: Ledger, v: NodeId, t: nat, n: nat) {
    Slot(t, v) in g.acked && n <= g.acked[Slot(t, v)]
  }

  /** A majority has left term t without acknowledging n, so n can never be committed in t. */
  ghost predicate Blocks(g: Ledger, q: set<NodeId>, t: nat, n: nat) {
    && Quorum(q, g.members)
    && (forall v :: v in q ==> v in g.term && g.term[v] > t && !Acked(g, v, t, n))
  }

  ghost predicate Blocked(g: Ledger, t: nat, n: nat) {
    exists q :: Blocks(g, q, t, n)
  }

  /** Index n of the leader log of t is an entry written in t itself. */
  ghost predicate OwnEntry(g: Ledger, t: nat, n: nat) {
    t in g.reign && 0 < n <= |g.reign[t].log| && g.reign[t].log[n - 1].term == t
  }

  /** The first n entries of the leader log of t are in `log`, unless they can never be committed. */
  ghost predicate Kept(g: Ledger, t: nat, n: nat, log: seq<Entry>) {
    OwnEntry(g, t, n) ==> Blocked(g, t, n) || g.reign[t].log[..n] <= log
  }

  ghost predicate AcksHeld(g: Ledger) {
    forall s, n: nat :: s in g.acked && n <= g.acked[s] && s.node in g.log
      ==> Kept(g, s.term, n, g.log[s.node])
  }

  ghost predicate VotesInformed(g: Ledger) {
    forall s, t: nat, n: nat ::
      s in g.ballot && t < s.term && Acked(g, s.node, t, n) && Slot(s.term, g.ballot[s]) in g.bid
      ==> Kept(g, t, n, g.bid[Slot(s.term, g.ballot[s])])
  }

  ghost predicate Complete(g: Ledger) {
    forall u, t, n: nat :: u in g.reign && t in g.reign && t < u ==> Kept(g, t, n, g.reign[u].start)
  }

  ghost predicate SafetyInv(g: Ledger) {
    && ElectionInv(g)
    && ReignLogs(g) && BidLogs(g) && NodeLogs(g)
    && Acks(g) && AcksHeld(g) && VotesInformed(g) && Complete(g)
  }

  /* ---------- Commitment ---------- */

  ghost predicate Counted(g: Ledger, q: set<NodeId>, t: nat, n: nat) {
    Quorum(q, g.members) && OwnEntry(g, t, n) && (forall v :: v in q ==> Acked(g, v, t, n))
  }

  /** The rule of section 5.4.2: an entry of the leader's own term, acknowledged by a majority. */
  ghost predicate Majority(g: Ledger, t: nat, n: nat) {
    exists q :: Counted(g, q, t, n)
  }

  /** `log` lies within what some leader of a term no later than `bound` has committed. */
  ghost predicate Committed(g: Ledger, log: seq<Entry>, bound: nat) {
    log == [] || exists t: nat, n: nat :: t <= bound && Majority(g, t, n) && log <= g.reign[t].log[..n]
  }

  lemma MajorityNotBlocked(g: Ledger, t: nat, n: nat)
    requires Majority(g, t, n)
    ensures !Blocked(g, t, n)
  {
    if Blocked(g, t, n) {
      var p :| Blocks(g, p, t, n);
      var q :| Counted(g, q, t, n);
      var v := QuorumsMeet(p, q, g.members);
      assert false;
    }
  }

  /** Leader completeness: whatever was committed in t is in the log of every later leader. */
  lemma LeaderHoldsCommitted(g: Ledger, log: seq<Entry>, bound: nat, u: nat)
    requires ReignLogs(g) && Complete(g)
    requires Committed(g, log, bound) && bound <= u && u in g.reign
    ensures log <= g.reign[u].log
  {
    if log != [] {
      var t: nat, n: nat :| t <= bound && Majority(g, t, n) && log <= g.reign[t].log[..n];
      MajorityNotBlocked(g, t, n);
      assert OwnEntry(g, t, n);
      if t < u {
        assert Kept(g, t, n, g.reign[u].start);
        assert GrownFrom(u, g.reign[u]);
      }
    }
  }

  /** Any two committed logs agree: one is a prefix of the other. */
  lemma CommittedAgree(g: Ledger, a: seq<Entry>, ta: nat, b: seq<Entry>, tb: nat)
    requires ReignLogs(g) && Complete(g)
    requires Committed(g, a, ta) && Committed(g, b, tb)
    ensures a <= b || b <= a
  {
    if a != [] && b != [] {
      var t: nat, n: nat :| t <= ta && Majority(g, t, n) && a <= g.reign[t].log[..n];
      var u: nat, m: nat :| u <= tb && Majority(g, u, m) && b <= g.reign[u].log[..m];
      var top := Max(t, u);
      assert t in g.reign && u in g.reign;
      assert Committed(g, a, t);
      assert Committed(g, b, u);
      LeaderHoldsCommitted(g, a, t, top);
      LeaderHoldsCommitted(g, b, u, top);
    }
  }

  /** Log matching: equal term at one index means equal logs up to it. */
  lemma LogMatching(reign: map<nat, Reign>, a: seq<Entry>, b: seq<Entry>, n: nat)
    requires Traced(a, reign) && Traced(b, reign)
    requires n <= |a| && n <= |b| && TermAt(a, n) == TermAt(b, n)
    ensures a[..n] == b[..n]
  {
    if n > 0 {
      assert a[..n - 1 + 1] <= reign[a[n - 1].term].log;
      assert b[..n - 1 + 1] <= reign[b[n - 1].term].log;
    }
  }
}
