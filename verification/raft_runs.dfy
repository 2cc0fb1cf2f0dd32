/** Runs built step by step: elections, requests and commits between five nodes. */
module RaftRuns {
  import opened Basics
  import opened RaftTypes
  import opened RaftLedger
  import opened RaftNode
  import opened RaftCluster
  import opened RaftElection

  /* ---------- Building a run step by step ---------- */

  ghost function Last(r: History): Cluster
    requires |r.states| > 0
  {
    r.states[|r.states| - 1]
  }

  /** A run that has brought the nodes to these values, with these messages in flight. */
  ghost predicate Arrived(members: set<NodeId>, r: History, nodes: map<NodeId, Node>, net: set<Msg>) {
    IsRun(members, r) && Last(r).nodes == nodes && net <= Last(r).net && nodes.Keys == members
  }

  lemma Start(members: set<NodeId>) returns (r: History)
    requires NO_NODE !in members
    ensures Arrived(members, r, map v | v in members :: NewNode(), {})
  {
    r := History([Boot(members)], []);
  }

  lemma Longer(members: set<NodeId>, r: History, a: Action, c: Cluster)
    requires IsRun(members, r) && Next(Last(r), a, c)
    ensures IsRun(members, History(r.states + [c], r.actions + [a]))
  {
    var q := History(r.states + [c], r.actions + [a]);
    forall i | 0 <= i < |q.actions| ensures Next(q.states[i], q.actions[i], q.states[i + 1]) {
      if i < |r.actions| {
        assert Next(r.states[i], r.actions[i], r.states[i + 1]);
      } else {
        assert q.states[i] == Last(r) && q.states[i + 1] == c;
      }
    }
  }

  lemma Go(members: set<NodeId>, r: History, nodes: map<NodeId, Node>, net: set<Msg>, a: Action) returns (q: History)
    requires Arrived(members, r, nodes, net) && Enabled(Last(r), a)
    ensures IsRun(members, q) && Last(q) == Do(Last(r), a) && Last(r).ledger.members == members
    ensures q.states == r.states + [Last(q)] && q.actions == r.actions + [a]
  {
    RunElects(members, r, |r.states| - 1);
    var c := Do(Last(r), a);
    Longer(members, r, a, c);
    q := History(r.states + [c], r.actions + [a]);
  }

  lemma Elect(members: set<NodeId>, r: History, nodes: map<NodeId, Node>, net: set<Msg>, v: NodeId,
              req: VoteArgs) returns (q: History)
    requires Arrived(members, r, nodes, net) && v in members && !nodes[v].role.Leader? && |members| > 1
    requires req == VoteArgs(nodes[v].currentTerm + 1, v, |nodes[v].log|, LastTerm(nodes[v].log))
    ensures Arrived(members, q, nodes[v := Campaigning(nodes[v], v)], net + {VoteReq(req)})
  {
    q := Go(members, r, nodes, net, Timeout(v, Stored));
  }

  lemma Vote(members: set<NodeId>, r: History, nodes: map<NodeId, Node>, net: set<Msg>, v: NodeId,
             req: VoteArgs) returns (q: History)
    requires Arrived(members, r, nodes, net) && v in members && VoteReq(req) in net && req.candidate != v
    ensures var (n, reply) := HandleVote(nodes[v], req, Stored, Stored);
            Arrived(members, q, nodes[v := n], net + if reply.Some? then {VoteResp(v, req, reply.value)} else {})
  {
    q := Go(members, r, nodes, net, GetVoteReq(v, req, Stored, Stored));
  }

  lemma Tally(members: set<NodeId>, r: History, nodes: map<NodeId, Node>, net: set<Msg>, v: NodeId, req: VoteArgs,
              voter: NodeId, reply: VoteReply) returns (q: History)
    requires Arrived(members, r, nodes, net) && v in members && VoteResp(voter, req, reply) in net && req.candidate == v
    ensures Arrived(members, q, nodes[v := HandleVoteReply(nodes[v], v, members, req, voter, reply, Stored)], net)
  {
    q := Go(members, r, nodes, net, GetVoteResp(v, req, voter, reply, Stored));
  }

  lemma Submitting(members: set<NodeId>, r: History, nodes: map<NodeId, Node>, net: set<Msg>, v: NodeId,
                   call: Call) returns (q: History)
    requires Arrived(members, r, nodes, net) && v in members
    ensures Arrived(members, q, nodes[v := Submit(nodes[v], call, 1)], net)
  {
    q := Go(members, r, nodes, net, Propose(v, call, 1));
  }

  lemma Sending(members: set<NodeId>, r: History, nodes: map<NodeId, Node>, net: set<Msg>, v: NodeId,
                peer: NodeId) returns (q: History)
    requires Arrived(members, r, nodes, net) && v in members && nodes[v].role.Leader? && peer in members && peer != v
    requires BuildAppend(nodes[v], v, peer).Some?
    ensures Arrived(members, q, nodes, net + {AppendReq(peer, BuildAppend(nodes[v], v, peer).value)})
  {
    q := Go(members, r, nodes, net, Send(v, peer));
    assert nodes[v := nodes[v]] == nodes;
  }

  lemma Hear(members: set<NodeId>, r: History, nodes: map<NodeId, Node>, net: set<Msg>, v: NodeId, req: AppendArgs,
             d: Disk)
      returns (q: History)
    requires Arrived(members, r, nodes, net) && v in members && AppendReq(v, req) in net
    ensures var h := HandleAppend(nodes[v], req, d);
            Arrived(members, q, nodes[v := h.node],
                    net + if h.reply.Some? then {AppendResp(v, req, h.reply.value)} else {})
  {
    q := Go(members, r, nodes, net, GetAppendReq(v, req, d));
  }

  lemma HearBack(members: set<NodeId>, r: History, nodes: map<NodeId, Node>, net: set<Msg>, v: NodeId, req: AppendArgs,
                 peer: NodeId, reply: AppendReply) returns (q: History)
    requires Arrived(members, r, nodes, net) && v in members && AppendResp(peer, req, reply) in net && req.leader == v
    ensures Arrived(members, q, nodes[v := HandleAppendReply(nodes[v], v, members, req, peer, reply, Stored).node], net)
  {
    q := Go(members, r, nodes, net, GetAppendResp(v, req, peer, reply, Stored));
  }

  lemma CrashAndRestart(members: set<NodeId>, r: History, nodes: map<NodeId, Node>, net: set<Msg>,
                        v: NodeId) returns (q: History)
    requires Arrived(members, r, nodes, net) && v in members
    ensures Arrived(members, q, nodes[v := Restart(nodes[v])], net)
  {
    q := Go(members, r, nodes, net, Crash(v));
  }

  /* ---------- An election that is won with two votes out of five ---------- */

  function Voter(n: Node, t: nat, candidate: NodeId): Node {
    StepDown(n, t, Stored).(votedFor := candidate, stable := Stable(t, candidate))
  }

  function Winner(n: Node, v: NodeId, votes: set<NodeId>, members: set<NodeId>): Node {
    BecomeLeader(Campaigning(n, v).(votes := votes), v, members)
  }

  lemma VoterVotes(n: Node, req: VoteArgs)
    requires n.currentTerm < req.term && UpToDate(req.lastLogIndex, req.lastLogTerm, n.log) && req.candidate != NO_NODE
    ensures HandleVote(n, req, Stored, Stored) == (Voter(n, req.term, req.candidate), Some(VoteReply(req.term, true)))
  {
  }

  lemma WinnerWins(n: Node, v: NodeId, p: NodeId, q: NodeId, members: set<NodeId>, req: VoteArgs)
    requires |members| == 5 && v != p && v != q && p != q && req.term == n.currentTerm + 1
    ensures var m := Campaigning(n, v);
            && StartElection(n, v, members, Stored) == m
            && HandleVoteReply(m, v, members, req, p, VoteReply(req.term, true), Stored) == m.(votes := {v, p})
            && HandleVoteReply(m.(votes := {v, p}), v, members, req, q, VoteReply(req.term, true), Stored)
               == Winner(n, v, {v, p, q}, members)
  {
    assert {v} + {p} == {v, p} && {v, p} + {q} == {v, p, q};
    assert |{v, p, q}| == 3;
  }

  lemma VotesFor(members: set<NodeId>, r: History, nodes: map<NodeId, Node>, net: set<Msg>, p: NodeId,
                 req: VoteArgs) returns (s: History)
    requires Arrived(members, r, nodes, net) && p in members && VoteReq(req) in net && req.candidate != p
    requires nodes[p].currentTerm < req.term && UpToDate(req.lastLogIndex, req.lastLogTerm, nodes[p].log)
    requires req.candidate != NO_NODE
    ensures Arrived(members, s, nodes[p := Voter(nodes[p], req.term, req.candidate)],
                    net + {VoteResp(p, req, VoteReply(req.term, true))})
  {
    VoterVotes(nodes[p], req);
    s := Vote(members, r, nodes, net, p, req);
  }

  lemma TwoTallies(members: set<NodeId>, r: History, nodes: map<NodeId, Node>, net: set<Msg>, n: Node, v: NodeId,
                   p: NodeId, q: NodeId, req: VoteArgs) returns (s: History)
    requires Arrived(members, r, nodes, net) && |members| == 5 && v in members && v != p && v != q && p != q
    requires nodes[v] == Campaigning(n, v) && req.term == n.currentTerm + 1 && req.candidate == v
    requires VoteResp(p, req, VoteReply(req.term, true)) in net && VoteResp(q, req, VoteReply(req.term, true)) in net
    ensures Arrived(members, s, nodes[v := Winner(n, v, {v, p, q}, members)], net)
  {
    var yes := VoteReply(req.term, true);
    WinnerWins(n, v, p, q, members, req);
    s := Tally(members, r, nodes, net, v, req, p, yes);
    s := Tally(members, s, nodes[v := Campaigning(n, v).(votes := {v, p})], net, v, req, q, yes);
  }

  lemma Campaign(members: set<NodeId>, r: History, nodes: map<NodeId, Node>, net: set<Msg>, v: NodeId, p: NodeId,
                 q: NodeId, req: VoteArgs) returns (s: History)
    requires Arrived(members, r, nodes, net) && |members| > 1 && v != NO_NODE
    requires v in members && p in members && q in members && v != p && v != q && p != q
    requires !nodes[v].role.Leader? && nodes[p].currentTerm <= nodes[v].currentTerm
    requires nodes[q].currentTerm <= nodes[v].currentTerm
    requires req == VoteArgs(nodes[v].currentTerm + 1, v, |nodes[v].log|, LastTerm(nodes[v].log))
    requires UpToDate(req.lastLogIndex, req.lastLogTerm, nodes[p].log)
    requires UpToDate(req.lastLogIndex, req.lastLogTerm, nodes[q].log)
    ensures var yes := VoteReply(req.term, true);
            Arrived(members, s,
                    nodes[v := Campaigning(nodes[v], v)]
                         [p := Voter(nodes[p], req.term, v)][q := Voter(nodes[q], req.term, v)],
                    net + {VoteReq(req)} + {VoteResp(p, req, yes)} + {VoteResp(q, req, yes)})
  {
    var nodes1, net1 := nodes[v := Campaigning(nodes[v], v)], net + {VoteReq(req)};
    s := Elect(members, r, nodes, net, v, req);
    s := VotesFor(members, s, nodes1, net1, p, req);
    var nodes2, net2 := nodes1[p := Voter(nodes[p], req.term, v)], net1 + {VoteResp(p, req, VoteReply(req.term, true))};
    s := VotesFor(members, s, nodes2, net2, q, req);
  }

  /** Node v wins the next term with the votes of p and q, whose logs are no longer than its own. */
  lemma Reelect(members: set<NodeId>, r: History, nodes: map<NodeId, Node>, net: set<Msg>, v: NodeId, p: NodeId,
                q: NodeId, req: VoteArgs) returns (s: History, nodes': map<NodeId, Node>)
    requires Arrived(members, r, nodes, net) && |members| == 5 && v != NO_NODE
    requires v in members && p in members && q in members && v != p && v != q && p != q
    requires !nodes[v].role.Leader? && nodes[p].currentTerm <= nodes[v].currentTerm
    requires nodes[q].currentTerm <= nodes[v].currentTerm
    requires req == VoteArgs(nodes[v].currentTerm + 1, v, |nodes[v].log|, LastTerm(nodes[v].log))
    requires UpToDate(req.lastLogIndex, req.lastLogTerm, nodes[p].log)
    requires UpToDate(req.lastLogIndex, req.lastLogTerm, nodes[q].log)
    ensures Arrived(members, s, nodes', net + {VoteReq(req)})
    ensures nodes'[v] == Winner(nodes[v], v, {v, p, q}, members)
    ensures nodes'[p] == Voter(nodes[p], req.term, v) && nodes'[q] == Voter(nodes[q], req.term, v)
    ensures forall w :: w in members && w != v && w != p && w != q ==> nodes'[w] == nodes[w]
  {
    var yes := VoteReply(req.term, true);
    var nodes1 := nodes[v := Campaigning(nodes[v], v)]
                       [p := Voter(nodes[p], req.term, v)][q := Voter(nodes[q], req.term, v)];
    var net1 := net + {VoteReq(req)} + {VoteResp(p, req, yes)} + {VoteResp(q, req, yes)};
    s := Campaign(members, r, nodes, net, v, p, q, req);
    s := TwoTallies(members, s, nodes1, net1, nodes[v], v, p, q, req);
    nodes' := nodes1[v := Winner(nodes[v], v, {v, p, q}, members)];
  }

  /* ---------- The story ---------- */

  /** A leader of the term with one entry of its own, and nothing committed. */
  ghost predicate LeadsWith(n: Node, members: set<NodeId>, t: nat, e: Entry) {
    && n.role.Leader? && n.currentTerm == t && n.log == [e] && n.pending == []
    && n.snapIndex == n.commitIndex == n.lastApplied == 0
    && n.nextIndex.Keys == members && n.matchIndex.Keys == members
    && (forall p :: p in members ==> n.nextIndex[p] == 1 && n.matchIndex[p] == 0)
  }

  /** A node that has stored and applied nothing. */
  ghost predicate Blank(n: Node) {
    n.log == [] && n.pending == [] && n.snapIndex == n.commitIndex == n.lastApplied == 0
  }

  lemma WinnerLeads(n: Node, v: NodeId, votes: set<NodeId>, members: set<NodeId>, call: Call, t: nat, e: Entry)
    requires v in members && Blank(n) && t == n.currentTerm + 1 && e == Entry(1, t, call.data)
    ensures var m := Submit(Winner(n, v, votes, members), call, 1);
            LeadsWith(m, members, t, e) && m.clients == n.clients[1 := call]
  {
  }

  /** Blank v wins the next term with the votes of blank p and q, and writes one entry. */
  lemma Reign(members: set<NodeId>, r: History, nodes: map<NodeId, Node>, net: set<Msg>, v: NodeId, p: NodeId,
              q: NodeId, call: Call, t: nat) returns (s: History, nodes': map<NodeId, Node>)
    requires Arrived(members, r, nodes, net) && |members| == 5 && v != NO_NODE
    requires v in members && p in members && q in members && v != p && v != q && p != q
    requires !nodes[v].role.Leader? && nodes[p].currentTerm <= nodes[v].currentTerm
    requires nodes[q].currentTerm <= nodes[v].currentTerm
    requires Blank(nodes[v]) && Blank(nodes[p]) && Blank(nodes[q]) && t == nodes[v].currentTerm + 1
    ensures Arrived(members, s, nodes', net + {VoteReq(VoteArgs(t, v, 0, 0))})
    ensures LeadsWith(nodes'[v], members, t, Entry(1, t, call.data)) && nodes'[v].clients == nodes[v].clients[1 := call]
    ensures nodes'[p] == Voter(nodes[p], t, v) && nodes'[q] == Voter(nodes[q], t, v)
    ensures forall w :: w in members && w != v && w != p && w != q ==> nodes'[w] == nodes[w]
  {
    var req := VoteArgs(t, v, 0, 0);
    s, nodes' := Reelect(members, r, nodes, net, v, p, q, req);
    WinnerLeads(nodes[v], v, {v, p, q}, members, call, t, Entry(1, t, call.data));
    s := Submitting(members, s, nodes', net + {VoteReq(req)}, v, call);
    nodes' := nodes'[v := Submit(nodes'[v], call, 1)];
  }

  lemma Asks(members: set<NodeId>, r: History, nodes: map<NodeId, Node>, net: set<Msg>, v: NodeId, peer: NodeId, t: nat,
             e: Entry)
      returns (s: History)
    requires Arrived(members, r, nodes, net) && v in members && peer in members && peer != v
    requires LeadsWith(nodes[v], members, t, e)
    ensures Arrived(members, s, nodes, net + {AppendReq(peer, AppendArgs(t, v, 0, 0, [e], 0))})
  {
    s := Sending(members, r, nodes, net, v, peer);
  }

  /** A node of the request's term without a matching entry takes over the leader's only entry. */
  lemma TakesEntry(n: Node, req: AppendArgs, e: Entry)
    requires req == AppendArgs(n.currentTerm, req.leader, 0, 0, [e], 0) && n.snapIndex == 0
    requires n.log == [] || (|n.log| == 1 && n.log[0].term != e.term)
    ensures var h := HandleAppend(n, req, Stored);
            && h.reply == Some(AppendReply(n.currentTerm, true, 0, 0))
            && h.node == n.(role := Follower, log := [e])
  {
    assert n.log[..0] + [e] == [e];
  }

  lemma Takes(members: set<NodeId>, r: History, nodes: map<NodeId, Node>, net: set<Msg>, p: NodeId, req: AppendArgs,
              e: Entry)
      returns (s: History)
    requires Arrived(members, r, nodes, net) && p in members && AppendReq(p, req) in net
    requires req == AppendArgs(nodes[p].currentTerm, req.leader, 0, 0, [e], 0) && nodes[p].snapIndex == 0
    requires nodes[p].log == [] || (|nodes[p].log| == 1 && nodes[p].log[0].term != e.term)
    ensures Arrived(members, s, nodes[p := nodes[p].(role := Follower, log := [e])],
                    net + {AppendResp(p, req, AppendReply(req.term, true, 0, 0))})
  {
    TakesEntry(nodes[p], req, e);
    s := Hear(members, r, nodes, net, p, req, Stored);
  }

  function FirstAck(n: Node, p: NodeId): Node {
    n.(matchIndex := n.matchIndex[p := 1], nextIndex := n.nextIndex[p := 2])
  }

  lemma OneAckIsFew(n: Node, v: NodeId, p: NodeId, members: set<NodeId>, t: nat, e: Entry, req: AppendArgs)
    requires LeadsWith(n, members, t, e) && v in members && p in members && v != p && |members| == 5
    requires req == AppendArgs(t, v, 0, 0, [e], 0) && e == Entry(1, t, e.data)
    ensures HandleAppendReply(n, v, members, req, p, AppendReply(t, true, 0, 0), Stored).node == FirstAck(n, p)
  {
    var m := FirstAck(n, p);
    assert Holders(m, v, members, 1) == {v, p};
    assert CommitPoint(m, v, members, 1) == CommitPoint(m, v, members, 0);
  }

  lemma TwoAcksCommit(n: Node, v: NodeId, p: NodeId, q: NodeId, members: set<NodeId>, t: nat, e: Entry, req: AppendArgs)
    requires LeadsWith(n, members, t, e) && v in members && p in members && q in members && |members| == 5
    requires v != p && v != q && p != q && req == AppendArgs(t, v, 0, 0, [e], 0) && e == Entry(1, t, e.data)
    ensures var k := HandleAppendReply(FirstAck(n, p), v, members, req, q, AppendReply(t, true, 0, 0), Stored).node;
            && k.commitIndex == k.lastApplied == 1 && k.log == [e] && k.currentTerm == t && k.role.Leader?
            && k.snapIndex == 0 && k.nextIndex == n.nextIndex[p := 2][q := 2]
  {
    var k := FirstAck(FirstAck(n, p), q);
    assert Holders(k, v, members, 1) == {v, p, q};
    assert |{v, p, q}| == 3;
    assert CommitPoint(k, v, members, 1) == 1;
  }

  lemma HearTwo(members: set<NodeId>, r: History, nodes: map<NodeId, Node>, net: set<Msg>, v: NodeId, req: AppendArgs,
                p: NodeId, q: NodeId, yes: AppendReply, m: Node) returns (s: History, n: Node)
    requires Arrived(members, r, nodes, net) && v in members && req.leader == v
    requires AppendResp(p, req, yes) in net && AppendResp(q, req, yes) in net
    requires m == HandleAppendReply(nodes[v], v, members, req, p, yes, Stored).node
    ensures n == HandleAppendReply(m, v, members, req, q, yes, Stored).node && Arrived(members, s, nodes[v := n], net)
  {
    s := HearBack(members, r, nodes, net, v, req, p, yes);
    s := HearBack(members, s, nodes[v := m], net, v, req, q, yes);
    n := HandleAppendReply(m, v, members, req, q, yes, Stored).node;
    assert nodes[v := m][v := n] == nodes[v := n];
  }

  lemma Commits(members: set<NodeId>, r: History, nodes: map<NodeId, Node>, net: set<Msg>, v: NodeId, p: NodeId,
                q: NodeId, t: nat, e: Entry, req: AppendArgs, yes: AppendReply) returns (s: History, n: Node)
    requires Arrived(members, r, nodes, net) && |members| == 5 && e == Entry(1, t, e.data)
    requires v in members && p in members && q in members && v != p && v != q && p != q
    requires LeadsWith(nodes[v], members, t, e)
    requires req == AppendArgs(t, v, 0, 0, [e], 0) && yes == AppendReply(t, true, 0, 0)
    requires AppendResp(p, req, yes) in net && AppendResp(q, req, yes) in net
    ensures Arrived(members, s, nodes[v := n], net)
    ensures n.commitIndex == n.lastApplied == 1 && n.log == [e] && n.currentTerm == t && n.role.Leader?
    ensures n.snapIndex == 0 && n.nextIndex == nodes[v].nextIndex[p := 2][q := 2]
  {
    OneAckIsFew(nodes[v], v, p, members, t, e, req);
    TwoAcksCommit(nodes[v], v, p, q, members, t, e, req);
    s, n := HearTwo(members, r, nodes, net, v, req, p, q, yes, FirstAck(nodes[v], p));
  }

  ghost predicate Cast(members: set<NodeId>, a: NodeId, b: NodeId, c: NodeId, d: NodeId, e: NodeId) {
    && members == {a, b, c, d, e} && |members| == 5 && NO_NODE !in members
    && a != b && a != c && a != d && a != e && b != c && b != d && b != e && c != d && c != e && d != e
  }

  function Ask(v: NodeId, t: nat, call: Call): AppendArgs {
    AppendArgs(t, v, 0, 0, [Entry(1, t, call.data)], 0)
  }

  /** Leader a of term 1 writes x, and its request to b is on its way. */
  lemma FirstReign(members: set<NodeId>, a: NodeId, b: NodeId, c: NodeId, d: NodeId, e: NodeId, x: Call)
      returns (r: History, nodes: map<NodeId, Node>)
    requires Cast(members, a, b, c, d, e)
    ensures Arrived(members, r, nodes, {AppendReq(b, Ask(a, 1, x))})
    ensures LeadsWith(nodes[a], members, 1, Entry(1, 1, x.data)) && nodes[a].clients == map[1 := x]
    ensures nodes[b] == nodes[d] == Voter(NewNode(), 1, a) && nodes[c] == nodes[e] == NewNode()
  {
    var blank := map v | v in members :: NewNode();
    r := Start(members);
    r, nodes := Reign(members, r, blank, {}, a, b, d, x, 1);
    r := Asks(members, r, nodes, {} + {VoteReq(VoteArgs(1, a, 0, 0))}, a, b, 1, Entry(1, 1, x.data));
  }

  /** Meanwhile c wins term 2 and writes y. */
  lemma SecondReign(members: set<NodeId>, a: NodeId, b: NodeId, c: NodeId, d: NodeId, e: NodeId, x: Call, y: Call)
      returns (r: History, nodes: map<NodeId, Node>)
    requires Cast(members, a, b, c, d, e)
    ensures Arrived(members, r, nodes, {AppendReq(b, Ask(a, 1, x)), VoteReq(VoteArgs(2, c, 0, 0)),
                                        AppendReq(b, Ask(c, 2, y)), AppendReq(d, Ask(c, 2, y))})
    ensures LeadsWith(nodes[a], members, 1, Entry(1, 1, x.data)) && LeadsWith(nodes[c], members, 2, Entry(1, 2, y.data))
    ensures nodes[b] == Voter(NewNode(), 1, a) && nodes[d] == Voter(Voter(NewNode(), 1, a), 2, c)
    ensures nodes[e] == Voter(NewNode(), 2, c)
  {
    var net := {AppendReq(b, Ask(a, 1, x))};
    var first := VoteArgs(1, c, 0, 0);
    r, nodes := FirstReign(members, a, b, c, d, e, x);
    r := Elect(members, r, nodes, net, c, first);
    r, nodes := Reign(members, r, nodes[c := Campaigning(nodes[c], c)], net + {VoteReq(first)}, c, d, e, y, 2);
    var net1 := net + {VoteReq(first)} + {VoteReq(VoteArgs(2, c, 0, 0))};
    r := Asks(members, r, nodes, net1, c, b, 2, Entry(1, 2, y.data));
    r := Asks(members, r, nodes, net1 + {AppendReq(b, Ask(c, 2, y))}, c, d, 2, Entry(1, 2, y.data));
  }
}
