/**
  One node and its storage over time: calls that are served, calls that die after any of their
  storage writes, and restarts that may die in the same way.
*/
module RaftCalls {
  import opened Common
  import opened RaftProtocol
  import opened RaftNode
  import opened RaftNodeFacts

  datatype Call =
    | Timeout
    | Ask(vote: VoteRequest)
    | VoteAnswer(peer: NodeId, vote_: VoteReply)
    | Append(append: AppendRequest)
    | AppendAnswer(peer: NodeId, append_: AppendReply)
    | Install(install: InstallRequest)
    | InstallAnswer(peer: NodeId, index: nat, install_: InstallReply)
    | Client(command: Command)

  /** The node after the call, and what it wrote. */
  function Handle(n: Node, c: Call): (Node, seq<Write>) {
    match c
    case Timeout => StartElection(n)
    case Ask(r) => var (n', ws, _) := HandleVoteRequest(n, r); (n', ws)
    case VoteAnswer(p, r) => HandleVoteReply(n, p, r)
    case Append(r) => var (n', ws, _) := HandleAppendRequest(n, r); (n', ws)
    case AppendAnswer(p, r) => HandleAppendReply(n, p, r)
    case Install(r) => var (n', ws, _) := HandleInstallRequest(n, r); (n', ws)
    case InstallAnswer(p, index, r) => HandleAppendReply(n, p, AppendReply(r.term, r.success, index))
    case Client(command) => Propose(n, command)
  }

  /** No node is a process that is down. */
  datatype State = State(node: Option<Node>, disk: Disk)

  datatype Event =
    | Serve(call: Call)
    | DieIn(call: Call, written: nat)
    | Start
    | DieStarting(written: nat)

  predicate Enabled(cfg: Config, s: State, e: Event) {
    match e
    case Serve(_) => s.node.Some?
    case DieIn(c, k) => s.node.Some? && k <= |Handle(s.node.value, c).1|
    case Start => s.node.None?
    case DieStarting(k) => s.node.None? && k <= |Load(cfg, s.disk).1|
  }

  function Next(cfg: Config, s: State, e: Event): State
    requires Enabled(cfg, s, e)
  {
    match e
    case Serve(c) =>
      var (n, ws) := Handle(s.node.value, c);
      State(Some(n), PerformAll(s.disk, ws))
    case DieIn(c, k) => State(None, PerformAll(s.disk, Handle(s.node.value, c).1[..k]))
    case Start =>
      var (n, ws) := Load(cfg, s.disk);
      State(Some(n), PerformAll(s.disk, ws))
    case DieStarting(k) => State(None, PerformAll(s.disk, Load(cfg, s.disk).1[..k]))
  }
}
