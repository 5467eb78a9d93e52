/**
  A whole group: its nodes with their storages, and every message ever sent (a message that
  is lost is one never delivered; one that is duplicated or late is delivered again or
  later).  Each action is one lock-held block of one node, a restart from its storage, or a
  block that the node does not live to finish: it dies after some of the block's writes and
  comes back from what they left.
*/
module RaftGroup {
  import opened Common
  import opened RaftProtocol
  import opened RaftNode
  import opened RaftNodeFacts
  import opened RaftSteps

  datatype Server = Server(node: Node, disk: Disk)

  /** `asked` is the term the caller was in when it sent the request being answered. */
  datatype Message =
    | VoteAsk(to: NodeId, vote: VoteRequest)
    | VoteAnswer(from: NodeId, to: NodeId, asked: nat, voted: VoteReply)
    | AppendAsk(to: NodeId, append: AppendRequest)
    | AppendAnswer(from: NodeId, to: NodeId, asked: nat, appended: AppendReply)

  /** What has happened, kept beside the nodes for stating what the group promises. */
  datatype History = History(
    leaderLog: map<nat, Log>,
    owner: map<nat, NodeId>,
    ballots: map<(NodeId, nat), Ballot>,
    acks: set<Ack>,
    order: seq<nat>)

  datatype Group = Group(servers: map<NodeId, Server>, sent: set<Message>, past: History)

  datatype Action =
    | Timeout(p: NodeId)
    | AskVote(p: NodeId, q: NodeId)
    | Vote(m: Message)
    | CountVote(m: Message)
    | SendAppend(p: NodeId, q: NodeId)
    | TakeAppend(m: Message)
    | CountAppend(m: Message)
    | ClientPropose(p: NodeId, command: Command)
    | Restart(p: NodeId)
    | Die(block: Action, done: nat)             // after so many writes of the block, and before the rest

  function View(g: Group): Protocol {
    Protocol(map p | p in g.servers :: g.servers[p].node.term,
             map p | p in g.servers :: g.servers[p].node.log,
             g.past.leaderLog, g.past.owner, g.past.ballots, g.past.acks, g.past.order)
  }

  // ---- one action -----------------------------------------------------------------

  /** What the new state of node `p` adds to the record of what happened. */
  function Remember(past: History, p: NodeId, before: Node, after: Node, d: Disk, acked: set<Ack>): History {
    History(
      if after.role == Leader then past.leaderLog[after.term := after.log] else past.leaderLog,
      if after.role == Leader then past.owner[after.term := p] else past.owner,
      if d.votedFor.Some? && (p, d.term) !in past.ballots
        then past.ballots[(p, d.term) := Ballot(d.votedFor.value, before.log, |past.order|)] else past.ballots,
      past.acks + acked + (if after.role == Leader then {Ack(p, after.term, LastIndex(after))} else {}),
      if after.role == Leader && after.term !in past.leaderLog then past.order + [after.term] else past.order)
  }

  function Update(g: Group, p: NodeId, after: Node, ws: seq<Write>, acked: set<Ack>, sent: set<Message>): Group
    requires p in g.servers
  {
    var d := PerformAll(g.servers[p].disk, ws);
    Group(g.servers[p := Server(after, d)], g.sent + sent,
          Remember(g.past, p, g.servers[p].node, after, d, acked))
  }

  predicate Ready(g: Group, a: Action) {
    match a
    case Timeout(p) => p in g.servers
    case AskVote(p, q) => p in g.servers && q in g.servers[p].node.cfg.peers && g.servers[p].node.role == Candidate
    case Vote(m) => m in g.sent && m.VoteAsk? && m.to in g.servers
    case CountVote(m) => m in g.sent && m.VoteAnswer? && m.to in g.servers
    case SendAppend(p, q) =>
      && p in g.servers && q in g.servers[p].node.cfg.peers && g.servers[p].node.role == Leader
      && MakeAppendRequest(g.servers[p].node, q).Some?
    case TakeAppend(m) => m in g.sent && m.AppendAsk? && m.to in g.servers
    case CountAppend(m) => m in g.sent && m.AppendAnswer? && m.to in g.servers
    case ClientPropose(p, command) => p in g.servers && g.servers[p].node.role == Leader
    case Restart(p) => p in g.servers
    case Die(_, _) => false
  }

  /** The blocks that write. */
  predicate Writes(a: Action) { !a.AskVote? && !a.SendAppend? && !a.Restart? && !a.Die? }

  function Actor(a: Action): NodeId
    requires Writes(a)
  {
    match a
    case Timeout(p) => p
    case Vote(m) => m.to
    case CountVote(m) => m.to
    case TakeAppend(m) => m.to
    case CountAppend(m) => m.to
    case ClientPropose(p, _) => p
  }

  /** The node a block would leave, and all it would write. */
  function Block(g: Group, a: Action): (Node, seq<Write>)
    requires Writes(a) && Ready(g, a)
  {
    match a
    case Timeout(p) => StartElection(g.servers[p].node)
    case Vote(m) => var (n, ws, _) := HandleVoteRequest(g.servers[m.to].node, m.vote); (n, ws)
    case CountVote(m) => HandleVoteReply(g.servers[m.to].node, m.from, m.voted)
    case TakeAppend(m) => var (n, ws, _) := HandleAppendRequest(g.servers[m.to].node, m.append); (n, ws)
    case CountAppend(m) => HandleAppendReply(g.servers[m.to].node, m.from, m.appended)
    case ClientPropose(p, command) => RaftNode.Propose(g.servers[p].node, command)
  }

  predicate Enabled(g: Group, a: Action) {
    if a.Die? then Writes(a.block) && Ready(g, a.block) && a.done < |Block(g, a.block).1|
    else Ready(g, a)
  }

  /** What is stored when node `p` dies in this block. */
  function DiedWith(g: Group, a: Action, done: nat): Disk
    requires Writes(a) && Ready(g, a) && done <= |Block(g, a).1|
  {
    PerformAll(g.servers[Actor(a)].disk, Block(g, a).1[..done])
  }

  /** A leader's own entry that was stored is in its term's log, whether or not it lived to say so. */
  predicate OwnStored(after: Node, ws: seq<Write>) {
    after.role == Leader && exists i :: 0 <= i < |ws| && ws[i].PutEntry?
  }

  function Died(g: Group, a: Action, done: nat): Group
    requires Writes(a) && Ready(g, a) && done <= |Block(g, a).1|
  {
    var p := Actor(a);
    var (after, ws) := Block(g, a);
    var before, d := g.servers[p].node, DiedWith(g, a, done);
    var n := Load(before.cfg, d).0;
    Group(g.servers[p := Server(n, d)], g.sent,
          Remember(g.past, p, before, if OwnStored(after, ws[..done]) then after else n, d, {}))
  }

  function Next(g: Group, a: Action): Group
    requires Enabled(g, a)
  {
    match a
    case Timeout(p) =>
      var (n, ws) := StartElection(g.servers[p].node);
      Update(g, p, n, ws, {}, {})
    case AskVote(p, q) =>
      g.(sent := g.sent + {VoteAsk(q, MakeVoteRequest(g.servers[p].node))})
    case Vote(m) =>
      var (n, ws, reply) := HandleVoteRequest(g.servers[m.to].node, m.vote);
      Update(g, m.to, n, ws, {}, {VoteAnswer(m.to, m.vote.candidate, m.vote.term, reply)})
    case CountVote(m) =>
      var (n, ws) := HandleVoteReply(g.servers[m.to].node, m.from, m.voted);
      Update(g, m.to, n, ws, {}, {})
    case SendAppend(p, q) =>
      g.(sent := g.sent + {AppendAsk(q, MakeAppendRequest(g.servers[p].node, q).value)})
    case TakeAppend(m) =>
      var (n, ws, reply) := HandleAppendRequest(g.servers[m.to].node, m.append);
      Update(g, m.to, n, ws, if reply.success then {Ack(m.to, reply.term, reply.matchIndex)} else {},
             {AppendAnswer(m.to, m.append.leader, m.append.term, reply)})
    case CountAppend(m) =>
      var (n, ws) := HandleAppendReply(g.servers[m.to].node, m.from, m.appended);
      Update(g, m.to, n, ws, {}, {})
    case ClientPropose(p, command) =>
      var (n, ws) := RaftNode.Propose(g.servers[p].node, command);
      Update(g, p, n, ws, {}, {})
    case Restart(p) =>
      var (n, ws) := Load(g.servers[p].node.cfg, g.servers[p].disk);
      Update(g, p, n, ws, {}, {})
    case Die(block, done) => Died(g, block, done)
  }

  /** R1: a reply that is not from a newer term is acted on in the term it was asked in. */
  predicate InTerm(g: Group, a: Action)
    requires Enabled(g, a)
  {
    match if a.Die? then a.block else a
    case CountVote(m) => m.voted.term > g.servers[m.to].node.term || m.asked == g.servers[m.to].node.term
    case CountAppend(m) => m.appended.term > g.servers[m.to].node.term || m.asked == g.servers[m.to].node.term
    case _ => true
  }

  /** R3: a node restarts into a stored term no older than the newest entry it has stored. */
  predicate DurableTerm(g: Group, a: Action)
    requires Enabled(g, a)
  {
    && (a.Restart? ==> LastTerm(LoadLog(g.servers[a.p].disk.entries)) <= g.servers[a.p].disk.term)
    && (a.Die? ==> var d := DiedWith(g, a.block, a.done); LastTerm(LoadLog(d.entries)) <= d.term)
  }

  function FreshServer(id: NodeId, peers: seq<NodeId>): Server {
    Server(Load(Config(id, peers, 0), EMPTY_DISK).0, EMPTY_DISK)
  }

  /** A group of nodes that have never run, each knowing all the others, with compaction off. */
  ghost predicate Initial(g: Group) {
    && (forall p :: p in g.servers ==>
          && var peers := g.servers[p].node.cfg.peers;
          && g.servers[p] == FreshServer(p, peers)
          && Distinct(peers) && Members(peers) == g.servers.Keys - {p})
    && g.sent == {}
    && g.past == History(map[], map[], map[], {}, [])
  }

  /** A run that keeps both premises, from an initial group. */
  ghost predicate Run(states: seq<Group>, actions: seq<Action>) {
    && |states| == |actions| + 1
    && Initial(states[0])
    && forall i :: 0 <= i < |actions| ==>
         && Enabled(states[i], actions[i]) && states[i + 1] == Next(states[i], actions[i])
         && InTerm(states[i], actions[i]) && DurableTerm(states[i], actions[i])
  }
}
