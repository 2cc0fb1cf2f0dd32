/** Every ledger move keeps the invariants. */
module RaftLedgerProof {
  import opened Basics
  import opened RaftTypes
  import opened RaftLedger
  import opened RaftLedgerSteps

  /* ---------- Election invariants ---------- */

  lemma RaiseKeepsElections(g: Ledger, v: NodeId, t: nat)
    requires ElectionInv(g) && v in g.members
    requires forall s :: s in g.ballot && s.node == v ==> s.term <= t
    ensures ElectionInv(Raise(g, v, t))
  {
    var g' := Raise(g, v, t);
    forall u | u in g'.reign ensures Won(g', u, g'.reign[u]) {
      assert Won(g, u, g.reign[u]);
    }
  }

  lemma StandKeepsElections(g: Ledger, v: NodeId)
    requires ElectionInv(g) && v in g.members && Slot(g.term[v], v) !in g.ballot
    ensures ElectionInv(Stand(g, v, g.term[v], g.log[v]))
  {
    var g' := Stand(g, v, g.term[v], g.log[v]);
    assert Slot(g.term[v], v) !in g.bid;
    forall u | u in g'.reign ensures Won(g', u, g'.reign[u]) {
      assert Won(g, u, g.reign[u]);
    }
  }

  lemma CastKeepsElections(g: Ledger, v: NodeId, c: NodeId)
    requires ElectionInv(g) && v in g.members && v in g.term && Slot(g.term[v], c) in g.bid
    requires var s := Slot(g.term[v], v); s in g.ballot ==> g.ballot[s] == c
    ensures ElectionInv(Cast(g, v, g.term[v], c))
  {
    var g' := Cast(g, v, g.term[v], c);
    forall u | u in g'.reign ensures Won(g', u, g'.reign[u]) {
      assert Won(g, u, g.reign[u]);
    }
  }

  lemma CrownKeepsElections(g: Ledger, t: nat, r: Reign)
    requires ElectionInv(g) && Won(g, t, r)
    ensures ElectionInv(Crown(g, t, r))
  {
    var g' := Crown(g, t, r);
    forall u | u in g'.reign ensures Won(g', u, g'.reign[u]) {
      if u != t {
        assert Won(g, u, g.reign[u]);
      }
    }
  }

  lemma LogMoveKeepsElections(g: Ledger, g': Ledger)
    requires ElectionInv(g)
    requires g'.members == g.members && g'.term == g.term && g'.log.Keys == g.log.Keys
    requires g'.ballot == g.ballot && g'.bid == g.bid && g'.reign.Keys == g.reign.Keys
    requires forall t :: t in g.reign ==> g'.reign[t] == g.reign[t].(log := g'.reign[t].log)
    ensures ElectionInv(g')
  {
    forall u | u in g'.reign ensures Won(g', u, g'.reign[u]) {
      assert Won(g, u, g.reign[u]);
    }
  }

  /* ---------- Log invariants: what any later ledger inherits ---------- */

  lemma ReignLogsCarry(g: Ledger, g': Ledger)
    requires Later(g, g') && ReignLogs(g)
    ensures forall t :: t in g.reign ==> Traced(g.reign[t].log, g'.reign)
  {
    forall t | t in g.reign ensures Traced(g.reign[t].log, g'.reign) {
      TracedStays(g.reign[t].log, g.reign, g'.reign);
    }
  }

  lemma BidLogsCarry(g: Ledger, g': Ledger)
    requires Later(g, g') && BidLogs(g)
    ensures forall s :: s in g.bid ==> Traced(g.bid[s], g'.reign)
  {
    forall s | s in g.bid ensures Traced(g.bid[s], g'.reign) {
      TracedStays(g.bid[s], g.reign, g'.reign);
    }
  }

  lemma NodeLogsCarry(g: Ledger, g': Ledger)
    requires Later(g, g') && NodeLogs(g)
    ensures forall v :: v in g.log ==> Traced(g.log[v], g'.reign)
  {
    forall v | v in g.log ensures Traced(g.log[v], g'.reign) {
      TracedStays(g.log[v], g.reign, g'.reign);
    }
  }

  lemma HeldCarries(g: Ledger, g': Ledger)
    requires Later(g, g') && Acks(g) && AcksHeld(g) && g'.acked == g.acked && g'.log == g.log
    ensures AcksHeld(g')
  {
    forall s, n: nat | s in g'.acked && n <= g'.acked[s] && s.node in g'.log
      ensures Kept(g', s.term, n, g'.log[s.node])
    {
      KeptStays(g, g', s.term, n, g.log[s.node], g.log[s.node]);
    }
  }

  lemma VoteCarries(g: Ledger, g': Ledger, s: Slot, t: nat, n: nat)
    requires Later(g, g') && Acks(g) && BallotsCounted(g) && VotesInformed(g)
    requires s in g.ballot && t < s.term && Acked(g', s.node, t, n)
    ensures Kept(g', t, n, g.bid[Slot(s.term, g.ballot[s])])
  {
    assert s.node in g.term && t < g.term[s.node];
    assert Acked(g, s.node, t, n);
    assert Slot(t, s.node) in g.acked;
    var b := g.bid[Slot(s.term, g.ballot[s])];
    KeptStays(g, g', t, n, b, b);
  }

  lemma VotesCarry(g: Ledger, g': Ledger)
    requires Later(g, g') && Acks(g) && BallotsCounted(g) && VotesInformed(g)
    requires g'.ballot == g.ballot && g'.bid == g.bid
    ensures VotesInformed(g')
  {
    forall s, t: nat, n: nat |
      s in g'.ballot && t < s.term && Acked(g', s.node, t, n) && Slot(s.term, g'.ballot[s]) in g'.bid
      ensures Kept(g', t, n, g'.bid[Slot(s.term, g'.ballot[s])])
    {
      VoteCarries(g, g', s, t, n);
    }
  }

  lemma CompleteCarries(g: Ledger, g': Ledger, u: nat, t: nat, n: nat)
    requires Later(g, g') && Complete(g)
    requires u in g.reign && t in g.reign && t < u && n <= |g.reign[t].log|
    ensures Kept(g', t, n, g.reign[u].start)
  {
    KeptStays(g, g', t, n, g.reign[u].start, g.reign[u].start);
  }

  lemma CompleteStays(g: Ledger, g': Ledger)
    requires Later(g, g') && Complete(g) && g'.reign == g.reign
    ensures Complete(g')
  {
    forall u, t, n: nat | u in g'.reign && t in g'.reign && t < u ensures Kept(g', t, n, g'.reign[u].start) {
      if n <= |g.reign[t].log| {
        CompleteCarries(g, g', u, t, n);
      }
    }
  }

  /** A move that leaves logs, reigns and acknowledgements alone and lowers no term. */
  ghost predicate Quiet(g: Ledger, g': Ledger) {
    && g'.members == g.members && g'.log == g.log && g'.reign == g.reign && g'.acked == g.acked
    && (forall v :: v in g.term ==> v in g'.term && g.term[v] <= g'.term[v])
  }

  lemma QuietStays(g: Ledger, g': Ledger)
    requires Quiet(g, g') && ReignLogs(g) && NodeLogs(g) && Acks(g) && AcksHeld(g) && Complete(g)
    ensures Later(g, g') && ReignLogs(g') && NodeLogs(g') && Acks(g') && AcksHeld(g') && Complete(g')
  {
    HeldCarries(g, g');
    CompleteStays(g, g');
  }

  /* ---------- Raising a term ---------- */

  lemma RaiseKeepsSafety(g: Ledger, v: NodeId, t: nat)
    requires SafetyInv(g) && v in g.members && g.term[v] <= t
    ensures Later(g, Raise(g, v, t)) && SafetyInv(Raise(g, v, t))
  {
    var g' := Raise(g, v, t);
    RaiseKeepsElections(g, v, t);
    QuietStays(g, g');
    VotesCarry(g, g');
  }

  /* ---------- Standing for election ---------- */

  lemma StandKeepsVotes(g: Ledger, v: NodeId)
    requires v in g.term && v in g.log && Slot(g.term[v], v) !in g.bid
    requires Later(g, Stand(g, v, g.term[v], g.log[v]))
    requires Acks(g) && AcksHeld(g) && BallotsCounted(g) && VotesInformed(g)
    ensures VotesInformed(Stand(g, v, g.term[v], g.log[v]))
  {
    var g' := Stand(g, v, g.term[v], g.log[v]);
    forall s, t: nat, n: nat |
      s in g'.ballot && t < s.term && Acked(g', s.node, t, n) && Slot(s.term, g'.ballot[s]) in g'.bid
      ensures Kept(g', t, n, g'.bid[Slot(s.term, g'.ballot[s])])
    {
      if s == Slot(g.term[v], v) {
        assert Slot(t, v) in g.acked;
        assert Kept(g, Slot(t, v).term, n, g.log[Slot(t, v).node]);
        KeptStays(g, g', t, n, g.log[v], g.log[v]);
      } else {
        VoteCarries(g, g', s, t, n);
      }
    }
  }

  lemma StandKeepsBidLogs(g: Ledger, v: NodeId)
    requires BidLogs(g) && NodeLogs(g) && v in g.term && v in g.log && TermsBelow(g.log[v], g.term[v])
    ensures BidLogs(Stand(g, v, g.term[v], g.log[v]))
  {
  }

  lemma StandKeepsSafety(g: Ledger, v: NodeId)
    requires SafetyInv(g) && v in g.members && Slot(g.term[v], v) !in g.ballot
    requires TermsBelow(g.log[v], g.term[v])
    ensures Later(g, Stand(g, v, g.term[v], g.log[v])) && SafetyInv(Stand(g, v, g.term[v], g.log[v]))
  {
    var g' := Stand(g, v, g.term[v], g.log[v]);
    StandKeepsElections(g, v);
    QuietStays(g, g');
    StandKeepsVotes(g, v);
    StandKeepsBidLogs(g, v);
  }

  /* ---------- Voting ---------- */

  /** Terms never decrease along a traced log. */
  lemma TermsRise(reign: map<nat, Reign>, log: seq<Entry>, i: nat)
    requires Traced(log, reign) && i < |log|
    requires forall t :: t in reign ==> GrownFrom(t, reign[t])
    ensures log[i].term <= LastTerm(log)
  {
    var t := LastTerm(log);
    assert log[..|log| - 1 + 1] <= reign[t].log;
    assert log[i] == reign[t].log[i];
    assert GrownFrom(t, reign[t]);
  }

  /** A log that ends in an entry of term w contains everything the leader of w started with. */
  lemma ContainsStart(reign: map<nat, Reign>, log: seq<Entry>)
    requires Traced(log, reign) && log != []
    requires forall t :: t in reign ==> GrownFrom(t, reign[t])
    ensures LastTerm(log) in reign && reign[LastTerm(log)].start <= log <= reign[LastTerm(log)].log
  {
    var w := LastTerm(log);
    assert log[..|log| - 1 + 1] == log;
    var r := reign[w];
    assert GrownFrom(w, r);
    assert log[|log| - 1] == r.log[|log| - 1];
    assert |r.start| < |log|;
  }

  /** The heart of section 5.4.1: an up-to-date candidate has all the voter could have to protect. */
  lemma UpToDateKeeps(g: Ledger, mine: seq<Entry>, bid: seq<Entry>, t: nat, n: nat)
    requires ReignLogs(g) && Complete(g)
    requires Traced(mine, g.reign) && Traced(bid, g.reign)
    requires UpToDate(|bid|, LastTerm(bid), mine)
    requires Kept(g, t, n, mine)
    ensures Kept(g, t, n, bid)
  {
    if OwnEntry(g, t, n) && !Blocked(g, t, n) {
      var p := g.reign[t].log[..n];
      assert p <= mine;
      assert mine[n - 1] == g.reign[t].log[n - 1];
      TermsRise(g.reign, mine, n - 1);
      assert bid != [];
      ContainsStart(g.reign, bid);
      ContainsStart(g.reign, mine);
      var w := LastTerm(bid);
      if w == t {
        assert mine <= g.reign[t].log;
      } else {
        assert Kept(g, t, n, g.reign[w].start);
      }
    }
  }

  lemma CastKeepsVotes(g: Ledger, v: NodeId, c: NodeId)
    requires ReignLogs(g) && BidLogs(g) && NodeLogs(g) && Acks(g) && AcksHeld(g)
    requires Complete(g) && BallotsCounted(g) && VotesInformed(g)
    requires v in g.term && v in g.log && Slot(g.term[v], c) in g.bid
    requires var b := g.bid[Slot(g.term[v], c)]; UpToDate(|b|, LastTerm(b), g.log[v])
    requires Later(g, Cast(g, v, g.term[v], c))
    ensures VotesInformed(Cast(g, v, g.term[v], c))
  {
    var g' := Cast(g, v, g.term[v], c);
    forall s, t: nat, n: nat |
      s in g'.ballot && t < s.term && Acked(g', s.node, t, n) && Slot(s.term, g'.ballot[s]) in g'.bid
      ensures Kept(g', t, n, g'.bid[Slot(s.term, g'.ballot[s])])
    {
      if s == Slot(g.term[v], v) {
        var b := g.bid[Slot(g.term[v], c)];
        assert Slot(t, v) in g.acked;
        assert Kept(g, Slot(t, v).term, n, g.log[Slot(t, v).node]);
        UpToDateKeeps(g, g.log[v], b, t, n);
        KeptStays(g, g', t, n, b, b);
      } else {
        VoteCarries(g, g', s, t, n);
      }
    }
  }

  lemma CastKeepsSafety(g: Ledger, v: NodeId, c: NodeId)
    requires SafetyInv(g) && v in g.members && Slot(g.term[v], c) in g.bid
    requires var s := Slot(g.term[v], v); s in g.ballot ==> g.ballot[s] == c
    requires var b := g.bid[Slot(g.term[v], c)]; UpToDate(|b|, LastTerm(b), g.log[v])
    ensures Later(g, Cast(g, v, g.term[v], c)) && SafetyInv(Cast(g, v, g.term[v], c))
  {
    var g' := Cast(g, v, g.term[v], c);
    CastKeepsElections(g, v, c);
    QuietStays(g, g');
    CastKeepsVotes(g, v, c);
  }

  /* ---------- Winning ---------- */

  /** A winner's voters either never acknowledged n in t, or made sure the winner has it. */
  lemma WinnerKeeps(g: Ledger, u: nat, r: Reign, t: nat, n: nat)
    requires ElectionInv(g) && VotesInformed(g) && Won(g, u, r) && t < u
    ensures Kept(g, t, n, r.start)
  {
    if forall v :: v in r.voters ==> !Acked(g, v, t, n) {
      assert Blocks(g, r.voters, t, n);
    } else {
      var v :| v in r.voters && Acked(g, v, t, n);
      assert Slot(u, v) in g.ballot;
      assert Acked(g, Slot(u, v).node, t, n);
    }
  }

  lemma TracedIndexed(reign: map<nat, Reign>, log: seq<Entry>)
    requires Traced(log, reign) && forall t :: t in reign ==> GrownFrom(t, reign[t])
    ensures Indexed(log)
  {
    forall i | 0 <= i < |log| ensures log[i].index == i + 1 {
      var t := log[i].term;
      assert log[..i + 1] <= reign[t].log;
      assert log[i] == reign[t].log[i];
    }
  }

  lemma CrownKeepsReignLogs(g: Ledger, u: nat, r: Reign)
    requires ReignLogs(g) && BidLogs(g) && Won(g, u, r) && r.log == r.start
    requires Later(g, Crown(g, u, r))
    ensures ReignLogs(Crown(g, u, r))
  {
    var g' := Crown(g, u, r);
    ReignLogsCarry(g, g');
    BidLogsCarry(g, g');
    TracedIndexed(g.reign, r.log);
    assert GrownFrom(u, r);
  }

  lemma CrownKeepsComplete(g: Ledger, u: nat, r: Reign)
    requires ElectionInv(g) && BidLogs(g) && VotesInformed(g) && Complete(g)
    requires Won(g, u, r) && u !in g.reign && r.log == r.start
    requires Later(g, Crown(g, u, r))
    ensures Complete(Crown(g, u, r))
  {
    var g' := Crown(g, u, r);
    forall w, t, n: nat | w in g'.reign && t in g'.reign && t < w ensures Kept(g', t, n, g'.reign[w].start) {
      if t == u {
        assert TermsBelow(r.log, u);
      } else if n <= |g.reign[t].log| {
        if w == u {
          WinnerKeeps(g, u, r, t, n);
          KeptStays(g, g', t, n, r.start, r.start);
        } else {
          CompleteCarries(g, g', w, t, n);
        }
      }
    }
  }

  lemma CrownLater(g: Ledger, u: nat, r: Reign)
    requires u !in g.reign
    ensures Later(g, Crown(g, u, r))
  {
  }

  lemma CrownKeepsRest(g: Ledger, u: nat, r: Reign)
    requires Later(g, Crown(g, u, r)) && u !in g.reign
    requires BidLogs(g) && NodeLogs(g) && Acks(g) && AcksHeld(g)
    ensures var g' := Crown(g, u, r); BidLogs(g') && NodeLogs(g') && Acks(g') && AcksHeld(g')
  {
    var g' := Crown(g, u, r);
    BidLogsCarry(g, g');
    NodeLogsCarry(g, g');
    HeldCarries(g, g');
  }

  lemma CrownKeepsSafety(g: Ledger, u: nat, r: Reign)
    requires SafetyInv(g) && Won(g, u, r) && u !in g.reign && r.log == r.start
    ensures Later(g, Crown(g, u, r)) && SafetyInv(Crown(g, u, r))
  {
    var g' := Crown(g, u, r);
    CrownKeepsElections(g, u, r);
    CrownLater(g, u, r);
    CrownKeepsReignLogs(g, u, r);
    CrownKeepsRest(g, u, r);
    VotesCarry(g, g');
    CrownKeepsComplete(g, u, r);
  }

  /* ---------- The leader appends ---------- */

  /** New entries of the leader's own term, numbered on from its log. */
  ghost predicate Fresh(t: nat, log: seq<Entry>, entries: seq<Entry>) {
    forall i :: 0 <= i < |entries| ==> entries[i].term == t && entries[i].index == |log| + i + 1
  }

  ghost predicate InOffice(g: Ledger, t: nat) {
    && t in g.reign
    && var c := g.reign[t].leader;
       c in g.members && c in g.term && c in g.log && g.term[c] == t && g.log[c] == g.reign[t].log
  }

  ghost function Extending(g: Ledger, t: nat, entries: seq<Entry>): Ledger
    requires t in g.reign
  {
    Extend(g, g.reign[t].leader, t, g.reign[t].log + entries)
  }

  lemma ExtendLater(g: Ledger, t: nat, entries: seq<Entry>)
    requires Acks(g) && InOffice(g, t)
    ensures Later(g, Extending(g, t, entries))
  {
  }

  lemma ExtendTraced(g: Ledger, t: nat, entries: seq<Entry>, log: seq<Entry>)
    requires InOffice(g, t)
    requires Traced(g.reign[t].log, g.reign) && log == g.reign[t].log + entries
    requires forall i :: 0 <= i < |entries| ==> entries[i].term == t
    ensures Traced(log, Extending(g, t, entries).reign)
  {
    var g' := Extending(g, t, entries);
    forall i | 0 <= i < |log| ensures log[i].term in g'.reign && log[..i + 1] <= g'.reign[log[i].term].log {
      if i < |g.reign[t].log| {
        assert log[..i + 1] == g.reign[t].log[..i + 1];
        assert log[i] == g.reign[t].log[i];
      }
    }
  }

  lemma ExtendKeepsReignLogs(g: Ledger, t: nat, entries: seq<Entry>)
    requires ReignLogs(g) && InOffice(g, t) && Fresh(t, g.reign[t].log, entries)
    requires Later(g, Extending(g, t, entries))
    ensures ReignLogs(Extending(g, t, entries))
  {
    var g' := Extending(g, t, entries);
    ReignLogsCarry(g, g');
    ExtendTraced(g, t, entries, g.reign[t].log + entries);
    assert GrownFrom(t, g.reign[t]);
    assert GrownFrom(t, g'.reign[t]);
  }

  lemma ExtendKeepsNodeLogs(g: Ledger, t: nat, entries: seq<Entry>)
    requires ReignLogs(g) && NodeLogs(g) && InOffice(g, t) && Fresh(t, g.reign[t].log, entries)
    requires Later(g, Extending(g, t, entries))
    ensures NodeLogs(Extending(g, t, entries))
  {
    var g' := Extending(g, t, entries);
    NodeLogsCarry(g, g');
    ExtendTraced(g, t, entries, g.reign[t].log + entries);
  }

  lemma ExtendKeepsHeld(g: Ledger, t: nat, entries: seq<Entry>)
    requires Acks(g) && AcksHeld(g) && InOffice(g, t)
    requires Later(g, Extending(g, t, entries))
    ensures AcksHeld(Extending(g, t, entries))
  {
    var g' := Extending(g, t, entries);
    forall s, n: nat | s in g'.acked && n <= g'.acked[s] && s.node in g'.log
      ensures Kept(g', s.term, n, g'.log[s.node])
    {
      if s != Slot(t, g.reign[t].leader) {
        KeptStays(g, g', s.term, n, g.log[s.node], g'.log[s.node]);
      }
    }
  }

  /** An entry a deposed leader appends can never be committed once a later leader is elected. */
  lemma LateEntryBlocked(g: Ledger, g': Ledger, u: nat, t: nat, n: nat)
    requires ElectionInv(g) && Acks(g) && t in g.reign && u in g.reign && t < u && |g.reign[t].log| < n
    requires Later(g, g')
    ensures Blocked(g', t, n)
  {
    var q := g.reign[u].voters;
    assert Won(g, u, g.reign[u]);
    forall v | v in q ensures v in g.term && g.term[v] > t && !Acked(g, v, t, n) {
      assert Slot(u, v) in g.ballot;
    }
    assert Blocks(g, q, t, n);
    BlockedStays(g, g', t, n);
  }

  lemma ExtendKeepsComplete(g: Ledger, t: nat, entries: seq<Entry>)
    requires ElectionInv(g) && Acks(g) && Complete(g) && InOffice(g, t)
    requires Later(g, Extending(g, t, entries))
    ensures Complete(Extending(g, t, entries))
  {
    var g' := Extending(g, t, entries);
    forall u, w, n: nat | u in g'.reign && w in g'.reign && w < u ensures Kept(g', w, n, g'.reign[u].start) {
      if n <= |g.reign[w].log| {
        CompleteCarries(g, g', u, w, n);
      } else {
        LateEntryBlocked(g, g', u, w, n);
      }
    }
  }

  lemma ExtendKeepsElections(g: Ledger, v: NodeId, t: nat, log: seq<Entry>)
    requires ElectionInv(g) && v in g.members
    ensures ElectionInv(Extend(g, v, t, log))
  {
    LogMoveKeepsElections(g, Extend(g, v, t, log));
  }

  lemma ExtendKeepsAcks(g: Ledger, t: nat, entries: seq<Entry>)
    requires BidLogs(g) && Acks(g) && InOffice(g, t) && Later(g, Extending(g, t, entries))
    ensures var g' := Extending(g, t, entries); BidLogs(g') && Acks(g')
  {
    BidLogsCarry(g, Extending(g, t, entries));
  }

  lemma ExtendKeepsSafety(g: Ledger, t: nat, entries: seq<Entry>)
    requires SafetyInv(g) && InOffice(g, t) && Fresh(t, g.reign[t].log, entries)
    ensures Later(g, Extending(g, t, entries)) && SafetyInv(Extending(g, t, entries))
  {
    var g' := Extending(g, t, entries);
    ExtendLater(g, t, entries);
    ExtendKeepsElections(g, g.reign[t].leader, t, g.reign[t].log + entries);
    ExtendKeepsReignLogs(g, t, entries);
    ExtendKeepsAcks(g, t, entries);
    ExtendKeepsNodeLogs(g, t, entries);
    ExtendKeepsHeld(g, t, entries);
    VotesCarry(g, g');
    ExtendKeepsComplete(g, t, entries);
  }

  /* ---------- A follower accepts ---------- */

  /** Entries prev + 1 .. n of the current leader's log join the follower's log at an agreed point. */
  ghost predicate Acceptable(g: Ledger, v: NodeId, prev: nat, n: nat) {
    && v in g.members && v in g.term && v in g.log && g.term[v] in g.reign
    && prev <= n <= |g.reign[g.term[v]].log| && prev <= |g.log[v]|
    && g.log[v][..prev] == g.reign[g.term[v]].log[..prev]
  }

  /** The follower's log once it has merged them. */
  ghost function Merged(g: Ledger, v: NodeId, prev: nat, n: nat): seq<Entry>
    requires Acceptable(g, v, prev, n)
  {
    Merge(g.log[v], prev, g.reign[g.term[v]].log[prev..n])
  }

  ghost function Accepting(g: Ledger, v: NodeId, prev: nat, n: nat): Ledger
    requires Acceptable(g, v, prev, n)
  {
    Accept(g, v, g.term[v], Merged(g, v, prev, n), n)
  }

  lemma AcceptLater(g: Ledger, v: NodeId, prev: nat, n: nat)
    requires Acks(g) && Acceptable(g, v, prev, n)
    ensures Later(g, Accepting(g, v, prev, n))
  {
  }

  /** What the follower protects is also in the leader's log, so the merge cannot remove it. */
  lemma LeaderKeeps(g: Ledger, w: nat, t: nat, n: nat)
    requires ReignLogs(g) && Complete(g) && w in g.reign && t in g.reign && t <= w
    ensures Kept(g, t, n, g.reign[w].log)
  {
    if t < w {
      assert Kept(g, t, n, g.reign[w].start);
      assert GrownFrom(w, g.reign[w]);
    }
  }

  lemma AcceptKeepsOne(g: Ledger, v: NodeId, prev: nat, n: nat, s: Slot, k: nat)
    requires ReignLogs(g) && Complete(g) && Acks(g) && AcksHeld(g) && Acceptable(g, v, prev, n)
    requires s in g.acked && s.node == v && k <= g.acked[s]
    ensures Kept(g, s.term, k, Accepting(g, v, prev, n).log[v])
  {
    var w := g.term[v];
    assert Kept(g, s.term, k, g.log[v]);
    LeaderKeeps(g, w, s.term, k);
    if OwnEntry(g, s.term, k) && !Blocked(g, s.term, k) {
      MergeKeeps(g.reign[s.term].log[..k], g.log[v], g.reign[w].log, prev, n);
    }
  }

  /** After accepting, the follower agrees with the leader as far as the entries reach. */
  lemma AcceptOutcome(g: Ledger, v: NodeId, prev: nat, n: nat)
    requires ReignLogs(g) && NodeLogs(g) && Acceptable(g, v, prev, n)
    ensures var lead := g.reign[g.term[v]].log;
            var merged := Merged(g, v, prev, n);
            && n <= |merged| && merged[..n] == lead[..n]
            && (merged == g.log[v] || merged == lead[..n])
  {
    MergeOutcome(g.reign, g.log[v], g.reign[g.term[v]].log, prev, n);
  }

  /** What the follower newly acknowledges it has just taken from the leader. */
  lemma AcceptKeepsNew(g: Ledger, v: NodeId, prev: nat, n: nat, k: nat)
    requires ReignLogs(g) && NodeLogs(g) && Acceptable(g, v, prev, n) && k <= n
    ensures g.reign[g.term[v]].log[..k] <= Merged(g, v, prev, n)
  {
    var lead := g.reign[g.term[v]].log;
    AcceptOutcome(g, v, prev, n);
    assert lead[..k] == lead[..n][..k];
  }

  lemma AcceptKeepsAny(g: Ledger, v: NodeId, prev: nat, n: nat, s: Slot, k: nat)
    requires ReignLogs(g) && NodeLogs(g) && Complete(g) && Acks(g) && AcksHeld(g)
    requires Acceptable(g, v, prev, n)
    requires var g' := Accepting(g, v, prev, n); s in g'.acked && k <= g'.acked[s] && s.node in g'.log
    ensures s.term in g.reign && k <= |g.reign[s.term].log|
    ensures Kept(g, s.term, k, Accepting(g, v, prev, n).log[s.node])
  {
    if s.node != v {
      assert Kept(g, s.term, k, g.log[s.node]);
    } else if s == Slot(g.term[v], v) && k <= n {
      AcceptKeepsNew(g, v, prev, n, k);
    } else {
      AcceptKeepsOne(g, v, prev, n, s, k);
    }
  }

  lemma AcceptKeepsHeld(g: Ledger, v: NodeId, prev: nat, n: nat)
    requires ReignLogs(g) && NodeLogs(g) && Complete(g) && Acks(g) && AcksHeld(g)
    requires Acceptable(g, v, prev, n) && Later(g, Accepting(g, v, prev, n))
    ensures AcksHeld(Accepting(g, v, prev, n))
  {
    var g' := Accepting(g, v, prev, n);
    forall s, k: nat | s in g'.acked && k <= g'.acked[s] && s.node in g'.log
      ensures Kept(g', s.term, k, g'.log[s.node])
    {
      AcceptKeepsAny(g, v, prev, n, s, k);
      KeptStays(g, g', s.term, k, g'.log[s.node], g'.log[s.node]);
    }
  }

  lemma AcceptKeepsNodeLogs(g: Ledger, v: NodeId, prev: nat, n: nat)
    requires ReignLogs(g) && NodeLogs(g) && Acceptable(g, v, prev, n)
    ensures NodeLogs(Accepting(g, v, prev, n))
  {
    var w := g.term[v];
    var lead := g.reign[w].log;
    AcceptOutcome(g, v, prev, n);
    TracedPrefix(lead, n, g.reign);
    assert GrownFrom(w, g.reign[w]);
    assert TermsBelow(lead[..n], w + 1);
  }

  lemma AcceptKeepsAcks(g: Ledger, v: NodeId, prev: nat, n: nat)
    requires ReignLogs(g) && BidLogs(g) && Acks(g) && Acceptable(g, v, prev, n)
    ensures var g' := Accepting(g, v, prev, n); ReignLogs(g') && BidLogs(g') && Acks(g')
  {
  }

  lemma AcceptKeepsElections(g: Ledger, v: NodeId, t: nat, log: seq<Entry>, n: nat)
    requires ElectionInv(g) && v in g.members
    ensures ElectionInv(Accept(g, v, t, log, n))
  {
    LogMoveKeepsElections(g, Accept(g, v, t, log, n));
  }

  lemma AcceptKeepsVotes(g: Ledger, v: NodeId, prev: nat, n: nat)
    requires Acks(g) && BallotsCounted(g) && VotesInformed(g) && Complete(g)
    requires Acceptable(g, v, prev, n) && Later(g, Accepting(g, v, prev, n))
    ensures var g' := Accepting(g, v, prev, n); VotesInformed(g') && Complete(g')
  {
    VotesCarry(g, Accepting(g, v, prev, n));
    CompleteStays(g, Accepting(g, v, prev, n));
  }

  lemma AcceptKeepsSafety(g: Ledger, v: NodeId, prev: nat, n: nat)
    requires SafetyInv(g) && Acceptable(g, v, prev, n)
    ensures Later(g, Accepting(g, v, prev, n)) && SafetyInv(Accepting(g, v, prev, n))
  {
    var g' := Accepting(g, v, prev, n);
    AcceptLater(g, v, prev, n);
    AcceptKeepsElections(g, v, g.term[v], Merged(g, v, prev, n), n);
    AcceptKeepsAcks(g, v, prev, n);
    AcceptKeepsNodeLogs(g, v, prev, n);
    AcceptKeepsHeld(g, v, prev, n);
    AcceptKeepsVotes(g, v, prev, n);
  }

  /** A committed prefix of the follower's log survives the merge. */
  lemma AcceptKeepsCommitted(g: Ledger, v: NodeId, prev: nat, n: nat, p: seq<Entry>)
    requires ReignLogs(g) && Complete(g) && Acceptable(g, v, prev, n)
    requires p <= g.log[v] && Committed(g, p, g.term[v])
    ensures p <= Merged(g, v, prev, n)
  {
    var w := g.term[v];
    LeaderHoldsCommitted(g, p, w, w);
    MergeKeeps(p, g.log[v], g.reign[w].log, prev, n);
  }
}
