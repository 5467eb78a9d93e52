/** Sending, and every run of a group: what no schedule can break. */
module RaftRuns {
  import opened Common
  import opened RaftProtocol
  import opened RaftNode
  import opened RaftNodeFacts
  import opened RaftSteps
  import opened RaftGroup
  import opened RaftSafety
  import opened RaftVoting
  import opened RaftFollowing
  import opened RaftLeading
  import opened RaftStanding
  import opened RaftDying

  // ---- sending --------------------------------------------------------------------

  lemma SentKeeps(g: Group, m: Message)
    requires GroupInv(g) && MessageInv(View(g), m)
    ensures Advances(g, g.(sent := g.sent + {m}))
  {
    hide Inv, ServerInv, MessageInv, LeadersIndexed;
    assert View(g.(sent := g.sent + {m})) == View(g);
  }

  lemma VoteAskSound(v: Protocol, p: NodeId, q: NodeId, s: Server)
    requires ServerInv(v, p, s) && s.node.role == Candidate
    ensures MessageInv(v, VoteAsk(q, MakeVoteRequest(s.node)))
  {
    LastIsLength(s.node);
  }

  /** A request ships everything from the peer's next index to the end of the leader's log, so it
      always ends in an entry of the leader's own term. */
  lemma RequestCarries(n: Node, q: NodeId)
    requires NodeSound(n) && q in n.next && 1 <= n.next[q] <= |n.log| + 1
    requires n.log != [] && LastTerm(n.log) == n.term
    ensures MakeAppendRequest(n, q).Some? && Carries(MakeAppendRequest(n, q).value, n.log)
  {
    hide Above, Handed;
    LastIsLength(n);
    AboveIndexed(n.log, 0, n.next[q] - 1);
  }

  lemma LeadersOf(v: Protocol)
    requires Inv(v)
    ensures LeadersSourced(v)
  {
  }

  lemma RequestStates(n: Node, q: NodeId)
    requires MakeAppendRequest(n, q).Some?
    ensures var r := MakeAppendRequest(n, q).value; r.term == n.term && r.leader == n.cfg.id && r.commit == n.commit
  {
  }

  lemma AppendAskSound(v: Protocol, p: NodeId, q: NodeId, s: Server)
    requires Inv(v) && ServerInv(v, p, s) && s.node.role == Leader && q in s.node.cfg.peers
    ensures MakeAppendRequest(s.node, q).Some?
    ensures MessageInv(v, AppendAsk(q, MakeAppendRequest(s.node, q).value))
  {
    hide Inv, MakeAppendRequest, CommitSound, Carries, CandidateSound, Handed;
    LeadersOf(v);
    LeaderLast(v, p, s.node);
    RequestCarries(s.node, q);
    RequestStates(s.node, q);
    assert q in Members(s.node.cfg.peers);
  }

  // ---- every run ------------------------------------------------------------------

  lemma VoteKeeps(g: Group, p: NodeId, r: VoteRequest)
    requires GroupInv(g) && p in g.servers && MessageInv(View(g), VoteAsk(p, r))
    ensures var (n, ws, reply) := HandleVoteRequest(g.servers[p].node, r);
            Advances(g, Update(g, p, n, ws, {}, {VoteAnswer(p, r.candidate, r.term, reply)}))
  {
    hide GroupInv, Update, HandleVoteRequest, View, Advances;
    var (n, ws, reply) := HandleVoteRequest(g.servers[p].node, r);
    if !reply.granted {
      RefusedVoteKeeps(g, p, r);
    } else if (p, r.term) in View(g).ballots {
      AgainKeeps(g, p, r, n, ws, reply);
    } else {
      BallotKeeps(g, p, r, n, ws, reply);
    }
  }

  lemma AppendKeeps(g: Group, p: NodeId, r: AppendRequest)
    requires GroupInv(g) && p in g.servers && RequestSound(View(g), p, r)
    ensures var (n, ws, reply) := HandleAppendRequest(g.servers[p].node, r);
            Advances(g, Update(g, p, n, ws, if reply.success then {Ack(p, reply.term, reply.matchIndex)} else {},
                               {AppendAnswer(p, r.leader, r.term, reply)}))
  {
    hide GroupInv, Update, HandleAppendRequest, View, Advances, RequestSound;
    if Accepts(g.servers[p].node, r) {
      AcceptedKeeps(g, p, r);
    } else {
      RefusedAppendKeeps(g, p, r);
    }
  }

  lemma AskKeeps(g: Group, p: NodeId, q: NodeId)
    requires GroupInv(g) && p in g.servers && q in g.servers[p].node.cfg.peers && g.servers[p].node.role == Candidate
    ensures Advances(g, g.(sent := g.sent + {VoteAsk(q, MakeVoteRequest(g.servers[p].node))}))
  {
    hide GroupInv, Inv, ServerInv, MessageInv, MakeVoteRequest;
    StandingOf(g, p);
    VoteAskSound(View(g), p, q, g.servers[p]);
    SentKeeps(g, VoteAsk(q, MakeVoteRequest(g.servers[p].node)));
  }

  lemma SendKeeps(g: Group, p: NodeId, q: NodeId)
    requires GroupInv(g) && p in g.servers && q in g.servers[p].node.cfg.peers && g.servers[p].node.role == Leader
    requires MakeAppendRequest(g.servers[p].node, q).Some?
    ensures Advances(g, g.(sent := g.sent + {AppendAsk(q, MakeAppendRequest(g.servers[p].node, q).value)}))
  {
    hide GroupInv, Inv, ServerInv, MessageInv, MakeAppendRequest;
    StandingOf(g, p);
    AppendAskSound(View(g), p, q, g.servers[p]);
    SentKeeps(g, AppendAsk(q, MakeAppendRequest(g.servers[p].node, q).value));
  }

  /** Every action keeps the invariant. */
  lemma NextKeeps(g: Group, a: Action)
    requires GroupInv(g) && Enabled(g, a) && InTerm(g, a) && DurableTerm(g, a)
    ensures Advances(g, Next(g, a))
  {
    hide GroupInv, Update, View, Advances, HandleVoteRequest, HandleVoteReply, HandleAppendRequest, HandleAppendReply,
      StartElection, LeaderAppend, Load, LoadLog, MakeAppendRequest, MakeVoteRequest, RequestSound;
    match a
    case Timeout(p) => TimeoutKeeps(g, p);
    case AskVote(p, q) => AskKeeps(g, p, q);
    case Vote(m) => SoundMessage(g, m); VoteKeeps(g, m.to, m.vote);
    case CountVote(m) => SoundMessage(g, m); VoteReplyKeeps(g, m.to, m.from, m.asked, m.voted);
    case SendAppend(p, q) => SendKeeps(g, p, q);
    case TakeAppend(m) => SoundMessage(g, m); AppendKeeps(g, m.to, m.append);
    case CountAppend(m) => SoundMessage(g, m); CountAppendKeeps(g, m.to, m.from, m.asked, m.appended);
    case ClientPropose(p, command) => ProposeKeeps(g, p, command);
    case Restart(p) => RestartKeeps(g, p);
    case Die(block, done) => DieKeeps(g, block, done);
  }

  lemma EmptyInv(v: Protocol)
    requires v.log.Keys == v.term.Keys && v.leaderLog == map[] && v.owner == map[] && v.ballots == map[] && v.acks == {}
    requires v.order == [] && forall p :: p in v.log ==> v.log[p] == []
    ensures Inv(v)
  {
  }

  lemma FreshNode(p: NodeId, peers: seq<NodeId>)
    ensures FreshServer(p, peers) ==
            Server(Node(Config(p, peers, 0), Follower, 0, None, [], 0, 0, 0, 0, {}, map[], map[], []), EMPTY_DISK)
  {
    assert LoadLog(EMPTY_DISK.entries) == [];
  }

  lemma FreshSound(v: Protocol, p: NodeId, peers: seq<NodeId>)
    requires p in v.term && Distinct(peers) && Members(peers) == v.term.Keys - {p} && v.ballots == map[]
    ensures ServerInv(v, p, FreshServer(p, peers)) && FreshServer(p, peers).node.log == []
  {
    hide Load, LoadLog, FreshServer;
    FreshNode(p, peers);
  }

  lemma InitialInv(g: Group)
    requires Initial(g)
    ensures GroupInv(g)
  {
    hide FreshServer, ServerInv, Inv;
    var v := View(g);
    forall p | p in g.servers ensures ServerInv(v, p, g.servers[p]) && v.log[p] == [] {
      assert g.servers[p] == FreshServer(p, g.servers[p].node.cfg.peers);
      FreshSound(v, p, g.servers[p].node.cfg.peers);
    }
    EmptyInv(v);
  }

  lemma {:induction false} RunKeeps(states: seq<Group>, actions: seq<Action>, i: nat)
    requires Run(states, actions) && i < |states|
    ensures GroupInv(states[i])
  {
    hide GroupInv, Initial, Next, Enabled, InTerm, DurableTerm;
    if i == 0 {
      InitialInv(states[0]);
    } else {
      RunKeeps(states, actions, i - 1);
      StepKeeps(states[i - 1], actions[i - 1]);
    }
  }

  lemma StepKeeps(g: Group, a: Action)
    requires GroupInv(g) && Enabled(g, a) && InTerm(g, a) && DurableTerm(g, a)
    ensures GroupInv(Next(g, a)) && Grown(View(g), View(Next(g, a)))
  {
    hide GroupInv, Next, Grown, View;
    NextKeeps(g, a);
  }

  lemma StepOf(states: seq<Group>, actions: seq<Action>, i: nat)
    requires Run(states, actions) && i + 1 < |states|
    ensures i < |actions| && Enabled(states[i], actions[i]) && states[i + 1] == Next(states[i], actions[i])
    ensures InTerm(states[i], actions[i]) && DurableTerm(states[i], actions[i])
  {
  }

  /** Nothing that happened in a run is ever undone by what happens later in it. */
  lemma {:induction false} RunGrows(states: seq<Group>, actions: seq<Action>, i: nat, j: nat)
    requires Run(states, actions) && i <= j < |states|
    ensures Grown(View(states[i]), View(states[j]))
    decreases j - i
  {
    hide GroupInv, Initial, Next, Enabled, InTerm, DurableTerm, View;
    if i < j {
      RunGrows(states, actions, i, j - 1);
      RunKeeps(states, actions, j - 1);
      StepKeeps(states[j - 1], actions[j - 1]);
      GrownTwice(View(states[i]), View(states[j - 1]), View(states[j]));
    }
  }

  // ---- what every run promises ----------------------------------------------------

  ghost predicate LeadsIn(g: Group, p: NodeId, t: nat) {
    p in g.servers && g.servers[p].node.role == Leader && g.servers[p].node.term == t
  }

  lemma LeaderOwns(g: Group, p: NodeId, t: nat)
    requires GroupInv(g) && LeadsIn(g, p, t)
    ensures var v := View(g);
            t in v.owner && v.owner[t] == p && t in v.leaderLog && v.leaderLog[t] == g.servers[p].node.log
  {
    StandingOf(g, p);
  }

  /** Election safety: a term has one leader in the whole of a run. */
  lemma OneLeader(states: seq<Group>, actions: seq<Action>, i: nat, j: nat, p: NodeId, q: NodeId, t: nat)
    requires Run(states, actions) && i <= j < |states|
    requires LeadsIn(states[i], p, t) && LeadsIn(states[j], q, t)
    ensures p == q
  {
    hide GroupInv, Run, View;
    RunKeeps(states, actions, i);
    RunKeeps(states, actions, j);
    RunGrows(states, actions, i, j);
    LeaderOwns(states[i], p, t);
    LeaderOwns(states[j], q, t);
  }

  ghost predicate Granted(g: Group, voter: NodeId, t: nat, candidate: NodeId) {
    exists r :: VoteAnswer(voter, candidate, t, r) in g.sent && r.granted
  }

  /** A node grants at most one candidate its vote in a term, through any number of restarts. */
  lemma OneVote(states: seq<Group>, actions: seq<Action>, i: nat, voter: NodeId, t: nat, c: NodeId, c': NodeId)
    requires Run(states, actions) && i < |states|
    requires Granted(states[i], voter, t, c) && Granted(states[i], voter, t, c')
    ensures c == c'
  {
    hide GroupInv, Run, View;
    RunKeeps(states, actions, i);
    var r :| VoteAnswer(voter, c, t, r) in states[i].sent && r.granted;
    var r' :| VoteAnswer(voter, c', t, r') in states[i].sent && r'.granted;
    SoundMessage(states[i], VoteAnswer(voter, c, t, r));
    SoundMessage(states[i], VoteAnswer(voter, c', t, r'));
  }

  /** The part of a node's log that it has committed, in a later state of the run. */
  lemma CommitPersists(states: seq<Group>, actions: seq<Action>, i: nat, j: nat, p: NodeId)
    requires Run(states, actions) && i <= j < |states| && p in states[i].servers
    ensures var n := states[i].servers[p].node;
            n.commit <= |n.log| && CommitSound(View(states[j]), n.log, n.commit, LastTerm(n.log))
  {
    hide GroupInv, Run, View, CommitSound, Inv;
    RunKeeps(states, actions, i);
    RunGrows(states, actions, i, j);
    StandingOf(states[i], p);
    var n := states[i].servers[p].node;
    CommitGrows(View(states[i]), View(states[j]), n.log, n.log, n.commit, LastTerm(n.log), LastTerm(n.log));
  }

  /** State-machine safety: whatever two nodes, or one node before and after restarts, have
      applied is the same, entry for entry. */
  lemma AppliedAgree(states: seq<Group>, actions: seq<Action>, i: nat, j: nat, p: NodeId, q: NodeId)
    requires Run(states, actions) && i <= j < |states| && p in states[i].servers && q in states[j].servers
    ensures var a, b := states[i].servers[p].node, states[j].servers[q].node;
            a.applied == a.commit && b.applied == b.commit && Agree(a.log, b.log, Min(a.applied, b.applied))
  {
    hide GroupInv, Run, View, CommitSound, Inv;
    RunKeeps(states, actions, i);
    RunKeeps(states, actions, j);
    StandingOf(states[i], p);
    StandingOf(states[j], q);
    CommitPersists(states, actions, i, j, p);
    CommitPersists(states, actions, j, j, q);
    var a, b := states[i].servers[p].node, states[j].servers[q].node;
    InvOf(states[j]);
    CommitsAgree(View(states[j]), a.log, a.commit, LastTerm(a.log), b.log, b.commit, LastTerm(b.log));
  }

  /** So one machine has been handed a prefix of what the other has. */
  lemma MachinesAgree(states: seq<Group>, actions: seq<Action>, i: nat, j: nat, p: NodeId, q: NodeId)
    requires Run(states, actions) && i <= j < |states| && p in states[i].servers && q in states[j].servers
    ensures var a, b := states[i].servers[p].node, states[j].servers[q].node;
            if a.applied <= b.applied then a.machine <= b.machine else b.machine <= a.machine
  {
    hide GroupInv, Run, View, ServerInv, Inv;
    AppliedAgree(states, actions, i, j, p, q);
    RunKeeps(states, actions, i);
    RunKeeps(states, actions, j);
    StandingOf(states[i], p);
    StandingOf(states[j], q);
    SoundOf(View(states[i]), p, states[i].servers[p]);
    SoundOf(View(states[j]), q, states[j].servers[q]);
    var a, b := states[i].servers[p].node, states[j].servers[q].node;
    if a.applied <= b.applied {
      HandedPrefix(a.log, b.log, a.applied, b.applied);
    } else {
      HandedPrefix(b.log, a.log, b.applied, a.applied);
    }
  }

  lemma HandedPrefix(a: Log, b: Log, m: nat, n: nat)
    requires m <= n <= |b| && (Agree(a, b, m) || Agree(b, a, m))
    ensures m <= |a| && Handed(a[..m]) <= Handed(b[..n])
  {
    assert a[..m] == b[..m];
    assert b[..n] == b[..m] + b[m..n];
    HandedAppend(b[..m], b[m..n]);
  }

  /** Log matching: two logs, of any nodes in any states of a run, that hold an entry of the same
      term at the same index agree up to it. */
  lemma LogsMatch(states: seq<Group>, actions: seq<Action>, i: nat, j: nat, p: NodeId, q: NodeId, k: nat)
    requires Run(states, actions) && i <= j < |states| && p in states[i].servers && q in states[j].servers
    requires var a, b := states[i].servers[p].node.log, states[j].servers[q].node.log;
             k < |a| && k < |b| && a[k].term == b[k].term
    ensures Agree(states[i].servers[p].node.log, states[j].servers[q].node.log, k + 1)
  {
    hide GroupInv, Run;
    RunKeeps(states, actions, i);
    RunKeeps(states, actions, j);
    RunGrows(states, actions, i, j);
    InvOf(states[i]);
    InvOf(states[j]);
    var v, v' := View(states[i]), View(states[j]);
    assert v.log[p] == states[i].servers[p].node.log && v'.log[q] == states[j].servers[q].node.log;
    SourcedGrows(v, v', v.log[p]);
    LogMatching(v', v.log[p], v'.log[q], k);
  }

  /** What any node has committed is in the log of every leader, then or later, of a term no
      older than the newest committed entry's. */
  lemma LeadersHoldCommitted(states: seq<Group>, actions: seq<Action>, i: nat, j: nat, p: NodeId, q: NodeId, t: nat)
    requires Run(states, actions) && i <= j < |states| && p in states[i].servers && LeadsIn(states[j], q, t)
    requires var n := states[i].servers[p].node; 0 < n.commit <= |n.log| ==> n.log[n.commit - 1].term <= t
    ensures var n := states[i].servers[p].node; Agree(n.log, states[j].servers[q].node.log, n.commit)
  {
    hide GroupInv, Run, View, CommitSound, Inv;
    RunKeeps(states, actions, j);
    InvOf(states[j]);
    CommitPersists(states, actions, i, j, p);
    LeaderOwns(states[j], q, t);
    var n := states[i].servers[p].node;
    CommitInLater(View(states[j]), n.log, n.commit, LastTerm(n.log), t);
  }

  /** The over-wide acknowledgement is sound: all of the log a follower reports as matched is the
      log of the leader of the term it answered in, whenever that leader is looked at. */
  lemma AckedIsHeld(states: seq<Group>, actions: seq<Action>, i: nat, j: nat, m: Message, q: NodeId)
    requires Run(states, actions) && i < |actions| && actions[i] == TakeAppend(m) && i < j < |states|
    requires HandleAppendRequest(states[i].servers[m.to].node, m.append).2.success
    requires LeadsIn(states[j], q, m.append.term)
    ensures var reply := HandleAppendRequest(states[i].servers[m.to].node, m.append).2;
            var log := states[i + 1].servers[m.to].node.log;
            && |log| == reply.matchIndex
            && Agree(log, states[j].servers[q].node.log, reply.matchIndex)
  {
    hide GroupInv, Run, View, HandleAppendRequest;
    RunKeeps(states, actions, i);
    RunKeeps(states, actions, j);
    StepOf(states, actions, i);
    var (n, ws, reply) := HandleAppendRequest(states[i].servers[m.to].node, m.append);
    TakenIsLeaders(states[i], m, n, ws, reply);
    RunGrows(states, actions, i, j);
    LeaderOwns(states[j], q, m.append.term);
  }

  /** After taking the request, `n` holds it all, and nothing that its sender's log does not. */
  ghost predicate HoldsLeaders(v: Protocol, n: Node, r: AppendRequest) {
    && r.term in v.leaderLog && r.prevIndex + |r.entries| <= |n.log|
    && Agree(n.log, v.leaderLog[r.term], |n.log|)
  }

  lemma TakenIsLeaders(g: Group, m: Message, n: Node, ws: seq<Write>, reply: AppendReply)
    requires Enabled(g, TakeAppend(m))
    requires (n, ws, reply) == HandleAppendRequest(g.servers[m.to].node, m.append) && reply.success
    requires GroupInv(g)
    ensures |n.log| == reply.matchIndex && g.servers[m.to].node.term <= m.append.term
    ensures HoldsLeaders(View(g), n, m.append)
  {
    hide GroupInv, View, HandleAppendRequest, Inv, ServerInv, Accepts, RequestSound;
    var p, r := m.to, m.append;
    var s := g.servers[p];
    SoundMessage(g, m);
    StandingOf(g, p);
    SoundOf(View(g), p, s);
    if !Accepts(s.node, r) {
      RefusedStep(s.node, s.disk, r);
    } else {
      AcceptsTerm(s.node, r);
      AcceptedServer(View(g), p, s, r);
    }
  }
}
