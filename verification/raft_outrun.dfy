/**
 * A caller whose entry is applied without an answer: its leader is outrun by a later one that has
 * the entry too, commits it, and tells the old leader in the request that makes it step down.
 */
module RaftOutrun {
  import opened Basics
  import opened RaftTypes
  import opened RaftLedger
  import opened RaftNode
  import opened RaftCluster
  import opened RaftElection
  import opened RaftTheorems
  import opened RaftRuns

  /** A request to one peer and its reply. */
  lemma OneRound(members: set<NodeId>, r: History, nodes: map<NodeId, Node>, net: set<Msg>, v: NodeId, peer: NodeId,
                 req: AppendArgs, m: Node, reply: AppendReply, n: Node) returns (s: History)
    requires Arrived(members, r, nodes, net) && v in members && peer in members && peer != v && nodes[v].role.Leader?
    requires BuildAppend(nodes[v], v, peer) == Some(req) && req.leader == v
    requires HandleAppend(nodes[peer], req, Stored).node == m
    requires HandleAppend(nodes[peer], req, Stored).reply == Some(reply)
    requires HandleAppendReply(nodes[v], v, members, req, peer, reply, Stored).node == n
    ensures Arrived(members, s, nodes[peer := m][v := n], net)
  {
    s := Sending(members, r, nodes, net, v, peer);
    s := Hear(members, s, nodes, net + {AppendReq(peer, req)}, peer, req, Stored);
    s := HearBack(members, s, nodes[peer := m], net + {AppendReq(peer, req)} + {AppendResp(peer, req, reply)}, v, req,
                  peer, reply);
  }

  /** A node of term t with this log, which has committed nothing. */
  ghost predicate Has(n: Node, t: nat, log: seq<Entry>) {
    && n.currentTerm == t && n.log == log && n.pending == [] && n.snapIndex == n.commitIndex == n.lastApplied == 0
  }

  /** The second leader, with the first entry of the first one and one of its own. */
  ghost predicate Outruns(n: Node, x: Entry, y: Entry, next: map<NodeId, nat>, matched: map<NodeId, nat>) {
    n.role.Leader? && Has(n, 2, [x, y]) && n.nextIndex == next && n.matchIndex == matched && x.term == 1 &&
    y.term == 2 && y.index == 2
  }

  /** b and d take the first leader's entry. */
  lemma FirstTaken(members: set<NodeId>, a: NodeId, b: NodeId, c: NodeId, d: NodeId, e: NodeId, x: Call)
      returns (r: History, nodes: map<NodeId, Node>)
    requires Cast(members, a, b, c, d, e)
    ensures Arrived(members, r, nodes, {}) && LeadsWith(nodes[a], members, 1, Entry(1, 1, x.data))
    ensures nodes[a].clients == map[1 := x]
    ensures nodes[b].role.Follower? && Has(nodes[b], 1, [Entry(1, 1, x.data)])
    ensures Has(nodes[d], 1, [Entry(1, 1, x.data)])
    ensures Has(nodes[e], 0, [])
  {
    var (ask, entry, yes) := (Ask(a, 1, x), Entry(1, 1, x.data), AppendReply(1, true, 0, 0));
    r, nodes := FirstReign(members, a, b, c, d, e, x);
    var net := {AppendReq(b, ask)};
    r := Asks(members, r, nodes, net, a, d, 1, entry);
    net := net + {AppendReq(d, ask)};
    r := Takes(members, r, nodes, net, b, ask, entry);
    nodes, net := nodes[b := nodes[b].(role := Follower, log := [entry])], net + {AppendResp(b, ask, yes)};
    r := Takes(members, r, nodes, net, d, ask, entry);
    nodes := nodes[d := nodes[d].(role := Follower, log := [entry])];
  }

  lemma SecondWinner(n: Node, v: NodeId, votes: set<NodeId>, members: set<NodeId>, y: Call, x: Entry)
    requires v in members && Has(n, 1, [x]) && x.term == 1
    ensures var all := map p | p in members :: 2;
            Outruns(Submit(Winner(n, v, votes, members), y, 1), x, Entry(2, 2, y.data), all,
                    (map p | p in members :: 0)[v := 1])
  {
    assert n.log + [Entry(2, 2, y.data)] == [x, Entry(2, 2, y.data)];
  }

  /** b wins term 2 with the votes of d and e and writes an entry of its own. */
  lemma SecondLeads(members: set<NodeId>, a: NodeId, b: NodeId, c: NodeId, d: NodeId, e: NodeId, x: Call, y: Call)
      returns (r: History, nodes: map<NodeId, Node>)
    requires Cast(members, a, b, c, d, e)
    ensures Arrived(members, r, nodes, {}) && LeadsWith(nodes[a], members, 1, Entry(1, 1, x.data))
    ensures nodes[a].clients == map[1 := x]
    ensures var all := map p | p in members :: 2;
            Outruns(nodes[b], Entry(1, 1, x.data), Entry(2, 2, y.data), all, (map p | p in members :: 0)[b := 1])
    ensures Has(nodes[d], 2, [Entry(1, 1, x.data)]) && Has(nodes[e], 2, [])
  {
    r, nodes := FirstTaken(members, a, b, c, d, e, x);
    SecondWinner(nodes[b], b, {b, d, e}, members, y, Entry(1, 1, x.data));
    var req := VoteArgs(2, b, 1, 1);
    r, nodes := Reelect(members, r, nodes, {}, b, d, e, req);
    r := Submitting(members, r, nodes, {} + {VoteReq(req)}, b, y);
    nodes := nodes[b := Submit(nodes[b], y, 1)];
  }

  /* ---------- What the rounds do to the nodes ---------- */

  lemma TakesSecond(n: Node, v: NodeId, x: Entry, y: Entry)
    requires Has(n, 2, [x]) && x.term == 1
    ensures var h := HandleAppend(n, AppendArgs(2, v, 1, 1, [y], 0), Stored);
            h.reply == Some(AppendReply(2, true, 0, 0)) && h.node == n.(role := Follower, log := [x, y])
  {
    assert n.log[..1] + [y] == [x, y];
    assert Merge(n.log, 1, [y]) == [x, y];
  }

  lemma TakesBoth(n: Node, v: NodeId, x: Entry, y: Entry)
    requires Has(n, 2, [])
    ensures var h := HandleAppend(n, AppendArgs(2, v, 0, 0, [x, y], 0), Stored);
            h.reply == Some(AppendReply(2, true, 0, 0)) && h.node == n.(role := Follower, log := [x, y])
  {
    assert n.log[..0] + [x, y] == [x, y];
    assert Merge(n.log, 0, [x, y]) == [x, y];
  }

  lemma CountsOne(n: Node, v: NodeId, d: NodeId, members: set<NodeId>, x: Entry, y: Entry, next: map<NodeId, nat>,
                  matched: map<NodeId, nat>)
    requires Outruns(n, x, y, next, matched) && |members| == 5 && v in members && d in members && v != d
    requires d in matched && matched[d] < 2 && (forall p :: p in members && p in matched ==> matched[p] < 2)
    ensures var n' := HandleAppendReply(n, v, members, AppendArgs(2, v, 1, 1, [y], 0), d, AppendReply(2, true, 0, 0),
                                        Stored).node;
            n' == n.(matchIndex := matched[d := 2], nextIndex := next[d := 3]) &&
            Outruns(n', x, y, next[d := 3], matched[d := 2])
  {
    var k := n.(matchIndex := matched[d := 2], nextIndex := next[d := 3]);
    assert Holders(k, v, members, 2) == {v, d};
    assert CommitPoint(k, v, members, 2) == CommitPoint(k, v, members, 1) == CommitPoint(k, v, members, 0);
  }

  lemma CommitsBoth(n: Node, v: NodeId, d: NodeId, e: NodeId, members: set<NodeId>, x: Entry, y: Entry,
                    next: map<NodeId, nat>, matched: map<NodeId, nat>)
    requires Outruns(n, x, y, next, matched) && |members| == 5 && v in members && d in members && e in members
    requires v != d && v != e && d != e && d in matched && matched[d] == 2 && e in matched && matched[e] < 2
    requires forall p :: p in members && p != d && p in matched ==> matched[p] < 2
    ensures var n' := HandleAppendReply(n, v, members, AppendArgs(2, v, 0, 0, [x, y], 0), e, AppendReply(2, true, 0, 0),
                                        Stored).node;
            && n'.role.Leader? && n'.currentTerm == 2 && n'.log == [x, y] && n'.commitIndex == 2 && n'.snapIndex == 0
            && n'.nextIndex == next[e := 3]
  {
    var k := n.(matchIndex := matched[e := 2], nextIndex := next[e := 3]);
    assert Holders(k, v, members, 2) == {v, d, e};
    assert |{v, d, e}| == 3;
    assert CommitPoint(k, v, members, 2) == 2;
  }

  /** d takes the second entry. */
  lemma RoundWithD(members: set<NodeId>, a: NodeId, b: NodeId, c: NodeId, d: NodeId, e: NodeId, x: Call, y: Call)
      returns (r: History, nodes: map<NodeId, Node>)
    requires Cast(members, a, b, c, d, e)
    ensures Arrived(members, r, nodes, {}) && LeadsWith(nodes[a], members, 1, Entry(1, 1, x.data))
    ensures nodes[a].clients == map[1 := x]
    ensures var (next, matched) := ((map p | p in members :: 2)[d := 3], (map p | p in members :: 0)[b := 1][d := 2]);
            Outruns(nodes[b], Entry(1, 1, x.data), Entry(2, 2, y.data), next, matched)
    ensures Has(nodes[e], 2, [])
  {
    var (x1, y2) := (Entry(1, 1, x.data), Entry(2, 2, y.data));
    var (next, matched) := (map p | p in members :: 2, (map p | p in members :: 0)[b := 1]);
    r, nodes := SecondLeads(members, a, b, c, d, e, x, y);
    TakesSecond(nodes[d], b, x1, y2);
    CountsOne(nodes[b], b, d, members, x1, y2, next, matched);
    var (m, n) := (nodes[d].(role := Follower, log := [x1, y2]),
                   nodes[b].(matchIndex := matched[d := 2], nextIndex := next[d := 3]));
    assert [x1, y2][1..] == [y2];
    r := OneRound(members, r, nodes, {}, b, d, AppendArgs(2, b, 1, 1, [y2], 0), m, AppendReply(2, true, 0, 0), n);
    nodes := nodes[d := m][b := n];
  }

  /** e, whose log is empty, refuses the probe, and the leader goes back to the start. */
  lemma RefusedByE(members: set<NodeId>, a: NodeId, b: NodeId, c: NodeId, d: NodeId, e: NodeId, x: Call, y: Call)
      returns (r: History, nodes: map<NodeId, Node>)
    requires Cast(members, a, b, c, d, e)
    ensures Arrived(members, r, nodes, {}) && LeadsWith(nodes[a], members, 1, Entry(1, 1, x.data))
    ensures nodes[a].clients == map[1 := x]
    ensures var (next, matched) := ((map p | p in members :: 2)[d := 3][e := 1],
                                    (map p | p in members :: 0)[b := 1][d := 2]);
            Outruns(nodes[b], Entry(1, 1, x.data), Entry(2, 2, y.data), next, matched)
    ensures Has(nodes[e], 2, [])
  {
    var (x1, y2, no) := (Entry(1, 1, x.data), Entry(2, 2, y.data), AppendReply(2, false, 1, 0));
    r, nodes := RoundWithD(members, a, b, c, d, e, x, y);
    var req := AppendArgs(2, b, 1, 1, [y2], 0);
    assert [x1, y2][1..] == [y2];
    var (m, n) := (nodes[e].(role := Follower), nodes[b].(nextIndex := nodes[b].nextIndex[e := 1]));
    assert HandleAppend(nodes[e], req, Stored).node == m && HandleAppend(nodes[e], req, Stored).reply == Some(no);
    assert HandleAppendReply(nodes[b], b, members, req, e, no, Stored).node == n;
    r := OneRound(members, r, nodes, {}, b, e, req, m, no, n);
    nodes := nodes[e := m][b := n];
  }

  /** Leader of term 2 with both entries committed, which still has to send node a the second one. */
  ghost predicate Committed(n: Node, a: NodeId, x: Entry, y: Entry) {
    && n.role.Leader? && n.currentTerm == 2 && n.log == [x, y] && n.commitIndex == 2 && n.snapIndex == 0
    && a in n.nextIndex && n.nextIndex[a] == 2
  }

  lemma RoundWithE(members: set<NodeId>, r: History, nodes: map<NodeId, Node>, b: NodeId, e: NodeId, x: Entry, y: Entry,
                   next: map<NodeId, nat>, matched: map<NodeId, nat>, n: Node) returns (s: History, m: Node)
    requires Arrived(members, r, nodes, {}) && b in members && e in members && b != e
    requires Outruns(nodes[b], x, y, next, matched) && e in next && next[e] == 1 && Has(nodes[e], 2, [])
    requires var req := AppendArgs(2, b, 0, 0, [x, y], 0);
             n == HandleAppendReply(nodes[b], b, members, req, e, AppendReply(2, true, 0, 0), Stored).node
    ensures Arrived(members, s, nodes[e := m][b := n], {})
  {
    TakesBoth(nodes[e], b, x, y);
    m := nodes[e].(role := Follower, log := [x, y]);
    assert [x, y][0..] == [x, y];
    s := OneRound(members, r, nodes, {}, b, e, AppendArgs(2, b, 0, 0, [x, y], 0), m, AppendReply(2, true, 0, 0), n);
  }

  lemma BothCommitted(n: Node, a: NodeId, b: NodeId, d: NodeId, e: NodeId, members: set<NodeId>, x: Entry, y: Entry,
                      next: map<NodeId, nat>, matched: map<NodeId, nat>) returns (n': Node)
    requires |members| == 5 && a in members && b in members && d in members && e in members
    requires a != e && a != d && b != d && b != e && d != e
    requires next == (map p | p in members :: 2)[d := 3][e := 1]
    requires matched == (map p | p in members :: 0)[b := 1][d := 2] && Outruns(n, x, y, next, matched)
    ensures var req := AppendArgs(2, b, 0, 0, [x, y], 0);
            n' == HandleAppendReply(n, b, members, req, e, AppendReply(2, true, 0, 0), Stored).node
    ensures Committed(n', a, x, y)
  {
    CommitsBoth(n, b, d, e, members, x, y, next, matched);
    n' := HandleAppendReply(n, b, members, AppendArgs(2, b, 0, 0, [x, y], 0), e, AppendReply(2, true, 0, 0),
                            Stored).node;
  }

  /** Then e takes both entries, and the second leader commits. */
  lemma SecondCommitsBoth(members: set<NodeId>, a: NodeId, b: NodeId, c: NodeId, d: NodeId, e: NodeId, x: Call, y: Call)
      returns (r: History, nodes: map<NodeId, Node>)
    requires Cast(members, a, b, c, d, e)
    ensures Arrived(members, r, nodes, {}) && LeadsWith(nodes[a], members, 1, Entry(1, 1, x.data))
    ensures nodes[a].clients == map[1 := x] && Committed(nodes[b], a, Entry(1, 1, x.data), Entry(2, 2, y.data))
  {
    var (x1, y2) := (Entry(1, 1, x.data), Entry(2, 2, y.data));
    var (next, matched) := ((map p | p in members :: 2)[d := 3][e := 1], (map p | p in members :: 0)[b := 1][d := 2]);
    r, nodes := RefusedByE(members, a, b, c, d, e, x, y);
    var n := BothCommitted(nodes[b], a, b, d, e, members, x1, y2, next, matched);
    var m;
    r, m := RoundWithE(members, r, nodes, b, e, x1, y2, next, matched, n);
    nodes := nodes[e := m][b := n];
  }

  lemma OutrunStepsDown(n: Node, members: set<NodeId>, v: NodeId, x: Entry, y: Entry, req: AppendArgs)
    requires LeadsWith(n, members, 1, x) && x.term == 1 && req == AppendArgs(2, v, 1, 1, [y], 2)
    ensures var h := HandleAppend(n, req, Stored);
            h.node.lastApplied == 2 && h.answers == {} && h.node.clients == map[] && h.node.log == [x, y] &&
            h.reply.Some?
  {
    assert n.log[..1] + [y] == [x, y];
    assert Merge(n.log, 1, [y]) == [x, y];
  }

  /** A leader's only caller waits for its entry; the action leaves the entry applied and the caller unanswered. */
  ghost predicate Deserts(g: Ledger, n: Node, a: Action, n': Node, call: Call) {
    && n.role.Leader? && n.clients == map[1 := call] && n.lastApplied == 0 && n.log == [Entry(1, 1, call.data)]
    && n'.lastApplied == 2 && |n'.log| == 2 && n'.log[0] == n.log[0] && n'.clients == map[]
    && Act(g, n, a).answers == {}
  }

  /**
   * In the last step of this run a leader with a waiting caller applies the caller's entry and
   * answers nobody: the request that commits it also makes the leader step down.
   */
  lemma AppliedUnanswered() returns (members: set<NodeId>, r: History, k: nat, v: NodeId, call: Call)
    ensures IsRun(members, r) && k + 2 == |r.states| == |r.actions| + 1
    ensures Present(r, k, v) && Present(r, k + 1, v)
    ensures r.actions[k].node == v
    ensures Deserts(r.states[k].ledger, At(r, k, v), r.actions[k], At(r, k + 1, v), call)
  {
    members := {"a", "b", "c", "d", "e"};
    assert |members| == 5;
    v, call := "a", Call(0, []);
    var nodes;
    r, nodes := SecondCommitsBoth(members, "a", "b", "c", "d", "e", call, Call(1, []));
    var req := AppendArgs(2, "b", 1, 1, [Entry(2, 2, [])], 2);
    assert [Entry(1, 1, []), Entry(2, 2, [])][1..] == [Entry(2, 2, [])];
    r := Sending(members, r, nodes, {}, "b", "a");
    k := |r.states| - 1;
    r := OutrunHears(members, r, nodes, "a", "b", Entry(1, 1, []), Entry(2, 2, []), req);
  }

  lemma OutrunHears(members: set<NodeId>, r: History, nodes: map<NodeId, Node>, a: NodeId, b: NodeId, x: Entry,
                    y: Entry, req: AppendArgs) returns (s: History)
    requires Arrived(members, r, nodes, {AppendReq(a, req)}) && a in members && LeadsWith(nodes[a], members, 1, x)
    requires x.term == 1 && req == AppendArgs(2, b, 1, 1, [y], 2)
    ensures IsRun(members, s) && |s.states| == |r.states| + 1 == |s.actions| + 1 && s.actions[|r.states| - 1].node == a
    ensures var k := |r.states| - 1;
            && Present(s, k, a) && At(s, k, a) == nodes[a] && Present(s, k + 1, a)
            && At(s, k + 1, a).lastApplied == 2 && At(s, k + 1, a).log == [x, y] && At(s, k + 1, a).clients == map[]
            && Act(s.states[k].ledger, nodes[a], s.actions[k]).answers == {}
  {
    OutrunStepsDown(nodes[a], members, b, x, y, req);
    s := Go(members, r, nodes, {AppendReq(a, req)}, GetAppendReq(a, req, Stored));
  }
}
