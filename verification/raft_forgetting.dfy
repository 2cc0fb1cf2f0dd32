/**
 * Why crashes must be clean. When the stable store fails while a node steps up to a new term,
 * the node keeps the new term in memory, and the next request of that term is accepted and
 * acknowledged. If the process then crashes it comes back in the older term and lets a late
 * request of that older term cut off what it acknowledged: a committed entry is lost.
 */
module RaftForgetting {
  import opened Basics
  import opened RaftTypes
  import opened RaftLedger
  import opened RaftNode
  import opened RaftCluster
  import opened RaftElection
  import opened RaftTheorems
  import opened RaftRuns

  /** The stable store fails: the node is in the new term, and the disk is not. */
  lemma StepsUp(members: set<NodeId>, r: History, nodes: map<NodeId, Node>, net: set<Msg>, p: NodeId,
                req: AppendArgs) returns (s: History)
    requires Arrived(members, r, nodes, net) && p in members && AppendReq(p, req) in net
    requires nodes[p].currentTerm < req.term
    ensures Arrived(members, s, nodes[p := StepDown(nodes[p], req.term, Lost)], net)
  {
    s := Hear(members, r, nodes, net, p, req, Lost);
    assert net + {} == net;
  }

  /** ... and the next request of the same term is acknowledged all the same. */
  lemma AcksUndurably(members: set<NodeId>, r: History, nodes: map<NodeId, Node>, net: set<Msg>, p: NodeId,
                      req: AppendArgs, e: Entry)
      returns (s: History)
    requires Arrived(members, r, nodes, net) && p in members && AppendReq(p, req) in net && Blank(nodes[p])
    requires req == AppendArgs(req.term, req.leader, 0, 0, [e], 0) && nodes[p].currentTerm < req.term
    ensures Arrived(members, s, nodes[p := StepDown(nodes[p], req.term, Lost).(log := [e])],
                    net + {AppendResp(p, req, AppendReply(req.term, true, 0, 0))})
  {
    var n := StepDown(nodes[p], req.term, Lost);
    s := StepsUp(members, r, nodes, net, p, req);
    s := Takes(members, s, nodes[p := n], net, p, req, e);
    assert n.(role := Follower, log := [e]) == n.(log := [e]);
    assert nodes[p := n][p := n.(log := [e])] == nodes[p := n.(log := [e])];
  }

  /** The undurable p and the up-to-date q both acknowledge the leader's only entry. */
  lemma BothAck(members: set<NodeId>, r: History, nodes: map<NodeId, Node>, net: set<Msg>, p: NodeId, q: NodeId,
                req: AppendArgs, e: Entry, yes: AppendReply) returns (s: History, nodes': map<NodeId, Node>)
    requires Arrived(members, r, nodes, net) && p in members && q in members && p != q
    requires AppendReq(p, req) in net && AppendReq(q, req) in net && Blank(nodes[p]) && Blank(nodes[q])
    requires req == AppendArgs(req.term, req.leader, 0, 0, [e], 0) && yes == AppendReply(req.term, true, 0, 0)
    requires nodes[p].currentTerm < req.term == nodes[q].currentTerm
    ensures Arrived(members, s, nodes', net + {AppendResp(p, req, yes)} + {AppendResp(q, req, yes)})
    ensures nodes'[p] == StepDown(nodes[p], req.term, Lost).(log := [e])
    ensures forall w :: w in members && w != p && w != q ==> nodes'[w] == nodes[w]
  {
    var nodes1 := nodes[p := StepDown(nodes[p], req.term, Lost).(log := [e])];
    s := AcksUndurably(members, r, nodes, net, p, req, e);
    s := Takes(members, s, nodes1, net + {AppendResp(p, req, yes)}, q, req, e);
    nodes' := nodes1[q := nodes[q].(role := Follower, log := [e])];
  }

  /** b acknowledges y in a term its disk does not know. */
  lemma Acknowledging(members: set<NodeId>, a: NodeId, b: NodeId, c: NodeId, d: NodeId, e: NodeId, x: Call, y: Call,
                      ask: AppendArgs, yes: AppendReply) returns (r: History, nodes: map<NodeId, Node>)
    requires Cast(members, a, b, c, d, e) && ask == Ask(c, 2, y) && yes == AppendReply(2, true, 0, 0)
    ensures Arrived(members, r, nodes, {AppendReq(b, Ask(a, 1, x)), VoteReq(VoteArgs(2, c, 0, 0)), AppendReq(b, ask),
                                        AppendReq(d, ask)}
                                       + {AppendResp(b, ask, yes)} + {AppendResp(d, ask, yes)})
    ensures LeadsWith(nodes[a], members, 1, Entry(1, 1, x.data)) && LeadsWith(nodes[c], members, 2, Entry(1, 2, y.data))
    ensures nodes[b] == StepDown(Voter(NewNode(), 1, a), 2, Lost).(log := [Entry(1, 2, y.data)])
    ensures nodes[e] == Voter(NewNode(), 2, c)
  {
    var net := {AppendReq(b, Ask(a, 1, x)), VoteReq(VoteArgs(2, c, 0, 0)), AppendReq(b, ask), AppendReq(d, ask)};
    r, nodes := SecondReign(members, a, b, c, d, e, x, y);
    r, nodes := BothAck(members, r, nodes, net, b, d, ask, Entry(1, 2, y.data), yes);
  }

  /** A node restarts in the term on its disk, and a late request of that term replaces its only entry. */
  lemma CutOff(members: set<NodeId>, r: History, nodes: map<NodeId, Node>, net: set<Msg>, p: NodeId, req: AppendArgs,
               e: Entry)
      returns (s: History, nodes': map<NodeId, Node>)
    requires Arrived(members, r, nodes, net) && p in members && AppendReq(p, req) in net && nodes[p].snapIndex == 0
    requires req == AppendArgs(nodes[p].stable.term, req.leader, 0, 0, [e], 0) && |nodes[p].log| == 1
    requires nodes[p].log[0].term != e.term
    ensures Arrived(members, s, nodes', net) && nodes'[p].currentTerm == req.term && nodes'[p].log == [e]
    ensures forall w :: w in members && w != p ==> nodes'[w] == nodes[w]
  {
    var nodes1 := nodes[p := Restart(nodes[p])];
    s := CrashAndRestart(members, r, nodes, net, p);
    s := Takes(members, s, nodes1, net, p, req, e);
    nodes' := nodes1[p := nodes1[p].(role := Follower, log := [e])];
  }

  /** So y is committed; then b restarts in term 1, and the late request of term 1 cuts y off. */
  lemma Cutting(members: set<NodeId>, a: NodeId, b: NodeId, c: NodeId, d: NodeId, e: NodeId, x: Call, y: Call)
      returns (r: History, nodes: map<NodeId, Node>)
    requires Cast(members, a, b, c, d, e)
    ensures Arrived(members, r, nodes, {VoteReq(VoteArgs(2, c, 0, 0))})
    ensures LeadsWith(nodes[a], members, 1, Entry(1, 1, x.data))
    ensures nodes[c].commitIndex == 1 && nodes[c].log == [Entry(1, 2, y.data)] && nodes[c].currentTerm == 2
    ensures nodes[b].currentTerm == 1 && nodes[b].log == [Entry(1, 1, x.data)] && nodes[e] == Voter(NewNode(), 2, c)
  {
    var (ask, yes, entry) := (Ask(c, 2, y), AppendReply(2, true, 0, 0), Entry(1, 2, y.data));
    var net := {AppendReq(b, Ask(a, 1, x)), VoteReq(VoteArgs(2, c, 0, 0)), AppendReq(b, ask), AppendReq(d, ask)}
               + {AppendResp(b, ask, yes)} + {AppendResp(d, ask, yes)};
    r, nodes := Acknowledging(members, a, b, c, d, e, x, y, ask, yes);
    var n;
    r, n := Commits(members, r, nodes, net, c, b, d, 2, entry, ask, yes);
    r, nodes := CutOff(members, r, nodes[c := n], net, b, Ask(a, 1, x), Entry(1, 1, x.data));
  }

  /** A leader with an entry hears of a later election of a blank candidate: it steps back and does not vote. */
  lemma StepsBack(members: set<NodeId>, r: History, nodes: map<NodeId, Node>, net: set<Msg>, v: NodeId,
                  req: VoteArgs) returns (s: History)
    requires Arrived(members, r, nodes, net) && v in members && VoteReq(req) in net && req.candidate != v
    requires nodes[v].currentTerm < req.term && req.lastLogTerm < LastTerm(nodes[v].log)
    ensures Arrived(members, s, nodes[v := StepDown(nodes[v], req.term, Stored)], net)
  {
    s := Vote(members, r, nodes, net, v, req);
  }

  /** Finally a wins term 3 without y. */
  lemma Forgetting(members: set<NodeId>, a: NodeId, b: NodeId, c: NodeId, d: NodeId, e: NodeId, x: Call,
                   y: Call) returns (r: History)
    requires Cast(members, a, b, c, d, e)
    ensures IsRun(members, r) && a in Last(r).nodes && c in Last(r).nodes
    ensures Last(r).nodes[a].role.Leader? && Last(r).nodes[a].currentTerm == 3
    ensures Last(r).nodes[a].log == [Entry(1, 1, x.data)]
    ensures Last(r).nodes[c].currentTerm == 2 && Last(r).nodes[c].commitIndex == 1
    ensures Last(r).nodes[c].log == [Entry(1, 2, y.data)]
  {
    var nodes;
    var asked := VoteArgs(2, c, 0, 0);
    r, nodes := Cutting(members, a, b, c, d, e, x, y);
    r := StepsBack(members, r, nodes, {VoteReq(asked)}, a, asked);
    nodes := nodes[a := StepDown(nodes[a], 2, Stored)];
    r, nodes := Reelect(members, r, nodes, {VoteReq(asked)}, a, b, e, VoteArgs(3, a, 1, 1));
  }

  /** Leader completeness fails once a process may crash with its term not on disk. */
  lemma CommittedEntryLost() returns (members: set<NodeId>, r: History, v: NodeId, w: NodeId)
    ensures IsRun(members, r) && Present(r, |r.states| - 1, v) && Present(r, |r.states| - 1, w)
    ensures var (n, m) := (At(r, |r.states| - 1, v), At(r, |r.states| - 1, w));
            && m.role.Leader? && n.currentTerm < m.currentTerm
            && n.commitIndex <= |n.log| && !(n.log[..n.commitIndex] <= m.log)
  {
    members := {"a", "b", "c", "d", "e"};
    assert |members| == 5;
    v, w := "c", "a";
    r := Forgetting(members, "a", "b", "c", "d", "e", Call(0, []), Call(1, []));
    var (n, m) := (At(r, |r.states| - 1, v), At(r, |r.states| - 1, w));
    assert n.log[..n.commitIndex][0].term == 2 && m.log[0].term == 1;
  }
}
