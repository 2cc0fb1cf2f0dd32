/** The moves a cluster can make on its ledger, and the proof that each keeps the invariants. */
module RaftLedgerSteps {
  import opened Basics
  import opened RaftTypes
  import opened RaftLedger

  /* ---------- The moves ---------- */

  ghost function Raise(g: Ledger, v: NodeId, t: nat): Ledger {
    g.(term := g.term[v := t])
  }

  /** v stands for election in t with this log and votes for itself. */
  ghost function Stand(g: Ledger, v: NodeId, t: nat, log: seq<Entry>): Ledger {
    g.(bid := g.bid[Slot(t, v) := log], ballot := g.ballot[Slot(t, v) := v])
  }

  ghost function Cast(g: Ledger, v: NodeId, t: nat, c: NodeId): Ledger {
    g.(ballot := g.ballot[Slot(t, v) := c])
  }

  ghost function Crown(g: Ledger, t: nat, r: Reign): Ledger {
    g.(reign := g.reign[t := r])
  }

  /** Leader v of t has grown its log, and holds all of it itself. */
  ghost function Extend(g: Ledger, v: NodeId, t: nat, log: seq<Entry>): Ledger {
    g.(log := g.log[v := log],
       reign := if t in g.reign then g.reign[t := g.reign[t].(log := log)] else g.reign,
       acked := g.acked[Slot(t, v) := |log|])
  }

  /** v has merged entries of the leader of t and acknowledges the leader's log up to n. */
  ghost function Accept(g: Ledger, v: NodeId, t: nat, log: seq<Entry>, n: nat): Ledger {
    var s := Slot(t, v);
    g.(log := g.log[v := log], acked := g.acked[s := if s in g.acked then Max(g.acked[s], n) else n])
  }

  /* ---------- What every move keeps ---------- */

  ghost predicate ReignsGrow(a: map<nat, Reign>, b: map<nat, Reign>) {
    forall t :: t in a ==>
      t in b && a[t].log <= b[t].log && a[t].start == b[t].start && a[t].voters == b[t].voters
      && a[t].leader == b[t].leader
  }

  /** Terms only rise, reigns only grow, and a node acknowledges nothing below its term. */
  ghost predicate Later(g: Ledger, g': Ledger) {
    && g.members == g'.members
    && (forall v :: v in g.term ==> v in g'.term && g.term[v] <= g'.term[v])
    && ReignsGrow(g.reign, g'.reign)
    && (forall v, t, n: nat :: Acked(g, v, t, n) ==> Acked(g', v, t, n))
    && (forall v, t, n: nat :: v in g.term && t < g.term[v] && Acked(g', v, t, n) ==> Acked(g, v, t, n))
  }

  lemma TracedStays(log: seq<Entry>, a: map<nat, Reign>, b: map<nat, Reign>)
    requires Traced(log, a) && ReignsGrow(a, b)
    ensures Traced(log, b)
  {
  }

  lemma TracedPrefix(log: seq<Entry>, n: nat, reign: map<nat, Reign>)
    requires Traced(log, reign) && n <= |log|
    ensures Traced(log[..n], reign)
  {
    forall i | 0 <= i < n
      ensures log[..n][i].term in reign && log[..n][..i + 1] <= reign[log[..n][i].term].log
    {
      assert log[..n][..i + 1] == log[..i + 1];
    }
  }

  lemma BlockedStays(g: Ledger, g': Ledger, t: nat, n: nat)
    requires Later(g, g') && Blocked(g, t, n)
    ensures Blocked(g', t, n)
  {
    var q :| Blocks(g, q, t, n);
    assert Blocks(g', q, t, n);
  }

  lemma KeptStays(g: Ledger, g': Ledger, t: nat, n: nat, log: seq<Entry>, log': seq<Entry>)
    requires Later(g, g') && t in g.reign && n <= |g.reign[t].log|
    requires Kept(g, t, n, log) && log <= log'
    ensures Kept(g', t, n, log')
  {
    assert g'.reign[t].log[..n] == g.reign[t].log[..n];
    if OwnEntry(g', t, n) {
      assert g'.reign[t].log[n - 1] == g.reign[t].log[n - 1];
      assert OwnEntry(g, t, n);
      if Blocked(g, t, n) {
        BlockedStays(g, g', t, n);
      }
    }
  }

  lemma MajorityStays(g: Ledger, g': Ledger, t: nat, n: nat)
    requires Later(g, g') && Majority(g, t, n)
    ensures Majority(g', t, n) && g'.reign[t].log[..n] == g.reign[t].log[..n]
  {
    var q :| Counted(g, q, t, n);
    assert g'.reign[t].log[..n] == g.reign[t].log[..n];
    assert g'.reign[t].log[n - 1] == g.reign[t].log[n - 1];
    assert Counted(g', q, t, n);
  }

  /** What is committed stays committed. */
  lemma CommittedStays(g: Ledger, g': Ledger, log: seq<Entry>, bound: nat, bound': nat)
    requires Later(g, g') && Committed(g, log, bound) && bound <= bound'
    ensures Committed(g', log, bound')
  {
    if log != [] {
      var t: nat, n: nat :| t <= bound && Majority(g, t, n) && log <= g.reign[t].log[..n];
      MajorityStays(g, g', t, n);
    }
  }

  /* ---------- Merging ---------- */

  /**
   * When the follower agrees with the leader up to `prev`, merging leaves either the follower's
   * log, which then already agrees with everything sent, or the leader's log cut after it.
   */
  lemma {:induction false} MergeOutcome(reign: map<nat, Reign>, log: seq<Entry>, lead: seq<Entry>, prev: nat, n: nat)
    requires Traced(log, reign) && Traced(lead, reign)
    requires prev <= n <= |lead| && prev <= |log| && log[..prev] == lead[..prev]
    ensures var merged := Merge(log, prev, lead[prev..n]);
            && n <= |merged| && merged[..n] == lead[..n]
            && (merged == log || merged == lead[..n])
    decreases n - prev
  {
    var es := lead[prev..n];
    if prev < n {
      assert es[0] == lead[prev];
      if prev == |log| || log[prev].term != es[0].term {
        assert log[..prev] + es == lead[..n];
      } else {
        LogMatching(reign, log, lead, prev + 1);
        assert es[1..] == lead[prev + 1..n];
        MergeOutcome(reign, log, lead, prev + 1, n);
      }
    }
  }

  /** A prefix shared by follower and leader survives the merge. */
  lemma {:induction false} MergeKeeps(p: seq<Entry>, log: seq<Entry>, lead: seq<Entry>, prev: nat, n: nat)
    requires prev <= n <= |lead| && prev <= |log|
    requires p <= log && p <= lead
    ensures p <= Merge(log, prev, lead[prev..n])
    decreases n - prev
  {
    var es := lead[prev..n];
    if prev < n {
      assert es[0] == lead[prev];
      if prev == |log| || log[prev].term != es[0].term {
        assert |p| <= prev;
      } else {
        assert es[1..] == lead[prev + 1..n];
        MergeKeeps(p, log, lead, prev + 1, n);
      }
    }
  }
}
