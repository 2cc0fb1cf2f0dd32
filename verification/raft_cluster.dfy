/**
 * A whole cluster as a transition system.
 *
 * Every action is one critical section of one node. Messages are kept forever: delivering one
 * again is duplication, delivering late is delay or reordering, never delivering is loss. A
 * message to or from a crashed process is one that is never delivered. The ledger records what
 * happened and is never read by a node.
 */
module RaftCluster {
  import opened Basics
  import opened RaftTypes
  import opened RaftLedger
  import opened RaftLedgerSteps
  import opened RaftNode

  datatype Msg =
    | VoteReq(vote: VoteArgs)
    | VoteResp(voter: NodeId, vote: VoteArgs, voteReply: VoteReply)
    | AppendReq(to: NodeId, append: AppendArgs)
    | AppendResp(from: NodeId, append: AppendArgs, appendReply: AppendReply)

  datatype Cluster = Cluster(nodes: map<NodeId, Node>, net: set<Msg>, answers: set<Answer>, ledger: Ledger)

  datatype Action =
    | Timeout(node: NodeId, disk: Disk)
    | GetVoteReq(node: NodeId, vote: VoteArgs, disk: Disk, grantDisk: Disk)
    | GetVoteResp(node: NodeId, vote: VoteArgs, voter: NodeId, voteReply: VoteReply, disk: Disk)
    | Propose(node: NodeId, call: Call, maxBatch: int)
    | BatchTick(node: NodeId)
    | Send(node: NodeId, peer: NodeId)
    | GetAppendReq(node: NodeId, append: AppendArgs, disk: Disk)
    | GetAppendResp(node: NodeId, append: AppendArgs, from: NodeId, appendReply: AppendReply, disk: Disk)
    | GiveUp(node: NodeId, index: nat)
    | CheckCompaction(node: NodeId, threshold: nat)
    | Crash(node: NodeId)

  /**
   * Node v of the ledger is n. The ledger's term is the one n is bound to: the term on its disk,
   * or a later one in which it has acknowledged a request. The term in memory may be ahead of it.
   */
  ghost predicate Mirrors(g: Ledger, v: NodeId, n: Node) {
    && v in g.members && v in g.term && v in g.log && g.log[v] == n.log
    && n.stable.term <= g.term[v] <= n.currentTerm
    && (g.term[v] == n.stable.term || Slot(g.term[v], v) in g.acked)
  }

  /** Nodes and ledger speak of the same members, terms and logs. */
  ghost predicate Coupled(c: Cluster) {
    && c.ledger.members == c.nodes.Keys && c.ledger.term.Keys == c.nodes.Keys && c.ledger.log.Keys == c.nodes.Keys
    && (forall v :: v in c.nodes ==> Mirrors(c.ledger, v, c.nodes[v]))
  }

  /** What must hold before node n, seeing these messages, can take an action. */
  ghost predicate Allowed(n: Node, members: set<NodeId>, net: set<Msg>, a: Action) {
    match a
    case Timeout(v, _) => !n.role.Leader?
    case GetVoteReq(v, args, _, _) => VoteReq(args) in net && args.candidate != v
    case GetVoteResp(v, args, voter, r, _) => VoteResp(voter, args, r) in net && args.candidate == v
    case Propose(_, _, _) => true
    case BatchTick(v) => n.role.Leader? && n.pending != []
    case Send(v, peer) => n.role.Leader? && peer in members && peer != v
    case GetAppendReq(v, args, _) => AppendReq(v, args) in net
    case GetAppendResp(v, args, peer, r, _) => AppendResp(peer, args, r) in net && args.leader == v
    case GiveUp(_, _) => true
    case CheckCompaction(_, _) => true
    case Crash(_) => true
  }

  ghost predicate Enabled(c: Cluster, a: Action) {
    a.node in c.nodes && Allowed(c.nodes[a.node], c.nodes.Keys, c.net, a)
  }

  /* ---------- What an action of node v, now n, changes ---------- */

  datatype Effect = Effect(node: Node, ledger: Ledger, sent: set<Msg>, answers: set<Answer>)

  /** Whatever node v, now n, has on disk binds it. */
  ghost function Bind(g: Ledger, v: NodeId, n: Node): Ledger {
    Raise(g, v, if v in g.term then Max(g.term[v], n.stable.term) else n.stable.term)
  }

  /** Candidate n becomes leader with the votes it has and stores whatever was pending. */
  ghost function NoteWin(g: Ledger, v: NodeId, n: Node): Ledger {
    NoteGrowth(Crown(g, n.currentTerm, Reign(v, n.votes, n.log, n.log)), v, n, n.pending)
  }

  /** Leader n appends to its own log. */
  ghost function NoteGrowth(g: Ledger, v: NodeId, n: Node, entries: seq<Entry>): Ledger {
    if entries == [] then g else Extend(g, v, n.currentTerm, n.log + entries)
  }

  ghost function OnTimeout(g: Ledger, v: NodeId, n: Node, d: Disk): Effect {
    var n' := StartElection(n, v, g.members, d);
    var m := n.(currentTerm := n.currentTerm + 1, votes := {v});
    var g1 := Raise(g, v, m.currentTerm);
    var g2 := Stand(g1, v, m.currentTerm, n.log);
    if !d.Stored? then Effect(n', Bind(g, v, n'), {}, {})
    else if |g.members| == 1 then Effect(n', NoteWin(g2, v, m), {}, {})
    else Effect(n', g2, {VoteReq(VoteArgs(m.currentTerm, v, |n.log|, LastTerm(n.log)))}, {})
  }

  ghost function OnVoteReq(g: Ledger, v: NodeId, n: Node, req: VoteArgs, d: Disk, d': Disk): Effect {
    var (n', r) := HandleVote(n, req, d, d');
    var g1 := Bind(g, v, n');
    Effect(n', if r.Some? && r.value.granted then Cast(g1, v, n'.currentTerm, req.candidate) else g1,
           if r.Some? then {VoteResp(v, req, r.value)} else {}, {})
  }

  ghost function OnVoteResp(g: Ledger, v: NodeId, n: Node, req: VoteArgs, voter: NodeId, r: VoteReply,
                            d: Disk): Effect {
    var n' := HandleVoteReply(n, v, g.members, req, voter, r, d);
    Effect(n', if n.role.Candidate? && n'.role.Leader? then NoteWin(g, v, n.(votes := n.votes + {voter}))
               else Bind(g, v, n'), {}, {})
  }

  ghost function OnPropose(g: Ledger, v: NodeId, n: Node, call: Call, maxBatch: int): Effect {
    var n' := Submit(n, call, maxBatch);
    Effect(n', if n'.log == n.log then g else Extend(g, v, n.currentTerm, n'.log), {}, {})
  }

  ghost function OnBatchTick(g: Ledger, v: NodeId, n: Node): Effect {
    Effect(Flush(n), NoteGrowth(g, v, n, n.pending), {}, {})
  }

  ghost function OnSend(g: Ledger, v: NodeId, n: Node, peer: NodeId): Effect {
    var r := BuildAppend(n, v, peer);
    Effect(n, g, if r.Some? then {AppendReq(peer, r.value)} else {}, {})
  }

  ghost function OnAppendReq(g: Ledger, v: NodeId, n: Node, req: AppendArgs, d: Disk): Effect {
    var h := HandleAppend(n, req, d);
    Effect(h.node,
           if h.reply.Some? && h.reply.value.success
           then Accept(Raise(g, v, req.term), v, req.term, h.node.log, Reach(req)) else Bind(g, v, h.node),
           if h.reply.Some? then {AppendResp(v, req, h.reply.value)} else {}, h.answers)
  }

  ghost function OnAppendResp(g: Ledger, v: NodeId, n: Node, req: AppendArgs, peer: NodeId, r: AppendReply,
                              d: Disk): Effect {
    var h := HandleAppendReply(n, v, g.members, req, peer, r, d);
    Effect(h.node, Bind(g, v, h.node), {}, h.answers)
  }

  ghost function OnCrash(g: Ledger, v: NodeId, n: Node): Effect {
    Effect(Restart(n), Raise(g, v, n.stable.term), {}, {})
  }

  ghost function Act(g: Ledger, n: Node, a: Action): Effect {
    match a
    case Timeout(v, d) => OnTimeout(g, v, n, d)
    case GetVoteReq(v, args, d, d') => OnVoteReq(g, v, n, args, d, d')
    case GetVoteResp(v, args, voter, r, d) => OnVoteResp(g, v, n, args, voter, r, d)
    case Propose(v, call, maxBatch) => OnPropose(g, v, n, call, maxBatch)
    case BatchTick(v) => OnBatchTick(g, v, n)
    case Send(v, peer) => OnSend(g, v, n, peer)
    case GetAppendReq(v, args, d) => OnAppendReq(g, v, n, args, d)
    case GetAppendResp(v, args, peer, r, d) => OnAppendResp(g, v, n, args, peer, r, d)
    case GiveUp(v, i) => Effect(Cancel(n, i), g, {}, {})
    case CheckCompaction(v, threshold) => Effect(Compact(n, threshold), g, {}, {})
    case Crash(v) => OnCrash(g, v, n)
  }

  ghost function Enact(c: Cluster, v: NodeId, e: Effect): Cluster {
    Cluster(c.nodes[v := e.node], c.net + e.sent, c.answers + e.answers, e.ledger)
  }

  ghost function Do(c: Cluster, a: Action): Cluster
    requires a.node in c.nodes
  {
    Enact(c, a.node, Act(c.ledger, c.nodes[a.node], a))
  }

  /* ---------- Runs ---------- */

  ghost function Boot(members: set<NodeId>): Cluster {
    Cluster(map v | v in members :: NewNode(), {}, {},
            Ledger(members, map v | v in members :: 0, map v | v in members :: [], map[], map[], map[], map[]))
  }

  ghost predicate Next(c: Cluster, a: Action, c': Cluster) {
    Enabled(c, a) && c' == Do(c, a)
  }

  /** A crash is clean unless the process has acknowledged a request of a term that is not on its disk. */
  ghost predicate Clean(c: Cluster, a: Action) {
    a.Crash? && a.node in c.nodes ==>
      forall s :: s in c.ledger.acked && s.node == a.node ==> s.term <= c.nodes[a.node].stable.term
  }

  datatype History = History(states: seq<Cluster>, actions: seq<Action>)

  ghost predicate IsRun(members: set<NodeId>, r: History) {
    && NO_NODE !in members
    && |r.states| == |r.actions| + 1
    && r.states[0] == Boot(members)
    && (forall i :: 0 <= i < |r.actions| ==> Next(r.states[i], r.actions[i], r.states[i + 1]))
  }

  ghost predicate IsCleanRun(members: set<NodeId>, r: History) {
    && IsRun(members, r)
    && (forall i :: 0 <= i < |r.actions| ==> Clean(r.states[i], r.actions[i]))
  }
}
