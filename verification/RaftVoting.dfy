/** Terms, restarts and votes: the actions of a group that leave every log as it was. */
module RaftVoting {
  import opened Common
  import opened RaftProtocol
  import opened RaftNode
  import opened RaftNodeFacts
  import opened RaftSteps
  import opened RaftGroup
  import opened RaftSafety

  // ---- hearing of a term, and restarting ------------------------------------------

  lemma VoteForgotten(v: Protocol, p: NodeId, d: Disk, t: nat)
    requires BallotsStored(v, p, d) && t > d.term
    ensures BallotsStored(v, p, d.(term := t, votedFor := None))
  {
  }

  lemma FollowerInv(v: Protocol, p: NodeId, s: Server, s': Server, t: nat)
    requires ServerInv(v, p, s)
    requires s'.node.role == Follower && s'.node.log == s.node.log && s'.node.commit == s.node.commit
    requires s'.node.cfg == s.node.cfg && NodeSound(s'.node) && DiskSound(s'.node, s'.disk)
    requires BallotsStored(v, p, s'.disk)
    ensures ServerInv(v.(term := v.term[p := t]), p, s')
  {
    var v' := v.(term := v.term[p := t]);
    TermOnlyBy(v, p, t);
    CommitGrows(v, v', s.node.log, s.node.log, s.node.commit, LastTerm(s.node.log), LastTerm(s.node.log));
  }

  /** A node that steps down, keeping its log, at a term its storage and its log do not exceed. */
  lemma StepDownKeeps(g: Group, p: NodeId, after: Node, ws: seq<Write>, sent: set<Message>)
    requires GroupInv(g) && p in g.servers
    requires var n, d := g.servers[p].node, g.servers[p].disk;
             var d' := PerformAll(d, ws);
             && after.role == Follower && after.log == n.log && after.commit == n.commit && after.cfg == n.cfg
             && NodeSound(after) && DiskSound(after, d')
             && (d' == d || (d'.term > d.term && d' == d.(term := d'.term, votedFor := None)))
             && LastTerm(n.log) <= after.term && d.term <= after.term
    requires forall m :: m in sent ==> MessageInv(View(g).(term := View(g).term[p := after.term]), m)
    ensures Advances(g, Update(g, p, after, ws, {}, sent))
  {
    var v := View(g);
    var s := g.servers[p];
    var d' := PerformAll(s.disk, ws);
    assert ServerInv(v, p, s);
    if d' != s.disk {
      VoteForgotten(v, p, s.disk, d'.term);
    }
    LastIsLength(after);
    FollowerInv(v, p, s, Server(after, d'), after.term);
    QuietKeeps(g, p, after, ws, {}, sent);
  }

  lemma RestartKeeps(g: Group, p: NodeId)
    requires GroupInv(g) && p in g.servers
    requires LastTerm(LoadLog(g.servers[p].disk.entries)) <= g.servers[p].disk.term
    ensures var (n, ws) := Load(g.servers[p].node.cfg, g.servers[p].disk);
            Advances(g, Update(g, p, n, ws, {}, {}))
  {
    hide GroupInv, Load;
    TermsCover(g, p);
    var s := g.servers[p];
    LoadStep(s.node, s.disk);
    StepDownKeeps(g, p, Load(s.node.cfg, s.disk).0, [], {});
  }

  lemma TermsCover(g: Group, p: NodeId)
    requires GroupInv(g) && p in g.servers
    ensures ServerInv(View(g), p, g.servers[p])
    ensures LastTerm(g.servers[p].node.log) <= g.servers[p].node.term
    ensures g.servers[p].disk.term <= g.servers[p].node.term
  {
    assert LastTerm(View(g).log[p]) <= View(g).term[p];
  }

  lemma HeardVoteKeeps(g: Group, p: NodeId, peer: NodeId, r: VoteReply)
    requires GroupInv(g) && p in g.servers && r.term > g.servers[p].node.term
    ensures var (n, ws) := HandleVoteReply(g.servers[p].node, peer, r);
            Advances(g, Update(g, p, n, ws, {}, {}))
  {
    hide GroupInv, CheckVotes;
    TermsCover(g, p);
    StepDownKeeps(g, p, NewerTerm(g.servers[p].node, r.term), [], {});
  }

  lemma HeardAppendKeeps(g: Group, p: NodeId, peer: NodeId, r: AppendReply)
    requires GroupInv(g) && p in g.servers && r.term > g.servers[p].node.term
    ensures var (n, ws) := HandleAppendReply(g.servers[p].node, peer, r);
            Advances(g, Update(g, p, n, ws, {}, {}))
  {
    hide GroupInv, UpdateCommit;
    TermsCover(g, p);
    StepDownKeeps(g, p, HandleAppendReply(g.servers[p].node, peer, r).0, [], {});
  }

  // ---- an action that changes nothing ---------------------------------------------

  lemma SameTerms(g: Group, p: NodeId)
    requires p in g.servers
    ensures var v := View(g); v.(term := v.term[p := g.servers[p].node.term]) == v
  {
    var v := View(g);
    assert v.term[p := g.servers[p].node.term] == v.term;
  }

  /** A node whose log, term, storage and standing are what they were; its commit index may move. */
  lemma StayKeeps(g: Group, p: NodeId, after: Node, ws: seq<Write>, sent: set<Message>)
    requires GroupInv(g) && p in g.servers
    requires var n, d := g.servers[p].node, g.servers[p].disk;
             var d' := PerformAll(d, ws);
             && after.log == n.log && after.term == n.term
             && (after.role == Leader ==> n.role == Leader)
             && d'.term == d.term && d'.votedFor == d.votedFor
             && ServerInv(View(g), p, Server(after, d'))
    requires forall m :: m in sent ==> MessageInv(View(g), m)
    ensures Advances(g, Update(g, p, after, ws, {}, sent))
  {
    TermsCover(g, p);
    SameTerms(g, p);
    LastIsLength(after);
    QuietKeeps(g, p, after, ws, {}, sent);
  }

  // ---- voting ---------------------------------------------------------------------

  lemma RefusedVoteKeeps(g: Group, p: NodeId, r: VoteRequest)
    requires GroupInv(g) && p in g.servers
    requires !HandleVoteRequest(g.servers[p].node, r).2.granted
    ensures var (n, ws, reply) := HandleVoteRequest(g.servers[p].node, r);
            Advances(g, Update(g, p, n, ws, {}, {VoteAnswer(p, r.candidate, r.term, reply)}))
  {
    hide GroupInv, HandleVoteRequest, Update;
    TermsCover(g, p);
    var s := g.servers[p];
    VoteStep(s.node, s.disk, r);
    var (n, ws, reply) := HandleVoteRequest(s.node, r);
    var answer := VoteAnswer(p, r.candidate, r.term, reply);
    if r.term > s.node.term {
      StepDownKeeps(g, p, n, ws, {answer});
    } else {
      assert Server(n, PerformAll(s.disk, ws)) == s;
      StayKeeps(g, p, n, ws, {answer});
    }
  }

  lemma UnvotedFollows(v: Protocol, p: NodeId, s: Server)
    requires Inv(v) && ServerInv(v, p, s) && (p, s.node.term) !in v.ballots
    ensures s.node.role == Follower
  {
    if s.node.role == Leader {
      OwnBallot(v, s.node.term);
    }
  }

  lemma OwnBallot(v: Protocol, t: nat)
    requires LeadersElected(v) && t in v.leaderLog
    ensures t in v.owner && (v.owner[t], t) in v.ballots
  {
    assert LeaderElected(v, t);
  }

  function Balloted(v: Protocol, p: NodeId, t: nat, c: NodeId): Protocol
    requires p in v.log
  {
    v.(term := v.term[p := t], ballots := v.ballots[(p, t) := Ballot(c, v.log[p], |v.order|)])
  }

  /** The moves behind a vote: the term, then the ballot. */
  lemma BallotMoves(v: Protocol, p: NodeId, t: nat, c: NodeId, lastTerm: nat, lastIndex: nat)
    requires Inv(v) && p in v.log && p in v.term && (p, t) !in v.ballots
    requires LastTerm(v.log[p]) < t && (forall b :: b in v.ballots && b.0 == p ==> b.1 <= t)
    requires p == c || ((c, t) in v.ballots && v.ballots[(c, t)].candidate == c
                        && lastIndex == |v.ballots[(c, t)].log| && lastTerm == LastTerm(v.ballots[(c, t)].log)
                        && UpToDate(lastTerm, lastIndex, v.log[p]))
    ensures Inv(Balloted(v, p, t, c)) && OnlyBy(v, Balloted(v, p, t, c), p)
  {
    hide Inv, LastTerm, UpToDate;
    var v1 := v.(term := v.term[p := t]);
    assert SetTerm(v, v1, p, t);
    SetTermKeeps(v, v1, p, t);
    var v2 := Balloted(v, p, t, c);
    if p == c {
      StandKeeps(v1, v2, p);
    } else {
      GrantKeeps(v1, v2, p, c);
    }
  }

  lemma BallotedView(g: Group, p: NodeId, after: Node, ws: seq<Write>, t: nat, c: NodeId, sent: set<Message>)
    requires p in g.servers && after.role != Leader && after.log == g.servers[p].node.log && after.term == t
    requires var d := PerformAll(g.servers[p].disk, ws); d.term == t && d.votedFor == Some(c)
    requires (p, t) !in View(g).ballots
    ensures View(Update(g, p, after, ws, {}, sent)) == Balloted(View(g), p, t, c)
  {
    UpdateView(g, p, after, ws, {}, sent);
    var v := View(g);
    assert v.log[p := after.log] == v.log;
  }

  lemma BallotedStored(v: Protocol, p: NodeId, d: Disk, d': Disk, c: NodeId)
    requires p in v.log && BallotsStored(v, p, d) && d'.term >= d.term && d'.votedFor == Some(c)
    requires (p, d'.term) !in v.ballots
    ensures BallotsStored(Balloted(v, p, d'.term, c), p, d')
  {
  }

  /** The server of a follower that has just voted. */
  lemma BallotedServer(v: Protocol, p: NodeId, s: Server, s': Server, c: NodeId)
    requires p in v.log && ServerInv(v, p, s) && OnlyBy(v, Balloted(v, p, s'.disk.term, c), p)
    requires s'.node.log == s.node.log && s'.node.commit == s.node.commit && s'.node.cfg == s.node.cfg
    requires NodeSound(s'.node) && DiskSound(s'.node, s'.disk) && s'.node.role == Follower
    requires s'.disk.term >= s.disk.term && s'.disk.votedFor == Some(c) && (p, s'.disk.term) !in v.ballots
    ensures ServerInv(Balloted(v, p, s'.disk.term, c), p, s')
  {
    var v' := Balloted(v, p, s'.disk.term, c);
    CommitGrows(v, v', s.node.log, s.node.log, s.node.commit, LastTerm(s.node.log), LastTerm(s.node.log));
    BallotedStored(v, p, s.disk, s'.disk, c);
  }

  lemma InvOf(g: Group)
    requires GroupInv(g)
    ensures Inv(View(g)) && LeadersIndexed(View(g))
  {
  }

  /** A ballot cast keeps the invariant, if the voter is sound after it. */
  lemma CastKeepsGroup(g: Group, p: NodeId, after: Node, ws: seq<Write>, c: NodeId, sent: set<Message>)
    requires GroupInv(g) && p in g.servers && after.role != Leader && after.log == g.servers[p].node.log
    requires var d' := PerformAll(g.servers[p].disk, ws);
             && after.term == d'.term && d'.votedFor == Some(c) && (p, d'.term) !in View(g).ballots
             && var v' := Balloted(View(g), p, d'.term, c);
             && Inv(v') && OnlyBy(View(g), v', p)
             && ServerInv(v', p, Server(after, d'))
             && forall m :: m in sent ==> MessageInv(v', m)
    ensures Advances(g, Update(g, p, after, ws, {}, sent))
  {
    hide GroupInv, Inv, ServerInv, MessageInv, OnlyBy;
    InvOf(g);
    BallotedView(g, p, after, ws, after.term, c, sent);
    UpdatedServer(g, p, after, ws, sent);
    UpdateKeeps(g, p, after, ws, {}, sent);
  }

  lemma BallotKeeps(g: Group, p: NodeId, r: VoteRequest, n: Node, ws: seq<Write>, reply: VoteReply)
    requires GroupInv(g) && p in g.servers && MessageInv(View(g), VoteAsk(p, r))
    requires (n, ws, reply) == HandleVoteRequest(g.servers[p].node, r) && reply.granted
    requires (p, r.term) !in View(g).ballots
    ensures Advances(g, Update(g, p, n, ws, {}, {VoteAnswer(p, r.candidate, r.term, reply)}))
  {
    hide GroupInv, HandleVoteRequest, Update, PerformAll, RoleSound, Inv, NodeSound, OnlyBy;
    TermsCover(g, p);
    InvOf(g);
    var v, s := View(g), g.servers[p];
    VoteStep(s.node, s.disk, r);
    if r.term == s.node.term { UnvotedFollows(v, p, s); }
    FreshBallot(v, r, s.node.log);
    BallotMoves(v, p, r.term, r.candidate, r.lastTerm, r.lastIndex);
    BallotedServer(v, p, s, Server(n, PerformAll(s.disk, ws)), r.candidate);
    CastKeepsGroup(g, p, n, ws, r.candidate, {VoteAnswer(p, r.candidate, r.term, reply)});
  }

  lemma UpdatedServer(g: Group, p: NodeId, n: Node, ws: seq<Write>, sent: set<Message>)
    requires p in g.servers
    ensures Update(g, p, n, ws, {}, sent).servers[p] == Server(n, PerformAll(g.servers[p].disk, ws))
  {
  }

  /** A vote is only ever asked for on top of a log that ends before the term asked for. */
  lemma FreshBallot(v: Protocol, r: VoteRequest, log: Log)
    requires Inv(v) && MessageInv(v, VoteAsk(0, r)) && UpToDate(r.lastTerm, r.lastIndex, log)
    ensures LastTerm(log) < r.term
  {
  }

  lemma AgainKeeps(g: Group, p: NodeId, r: VoteRequest, n: Node, ws: seq<Write>, reply: VoteReply)
    requires GroupInv(g) && p in g.servers
    requires (n, ws, reply) == HandleVoteRequest(g.servers[p].node, r) && reply.granted
    requires (p, r.term) in View(g).ballots
    ensures Advances(g, Update(g, p, n, ws, {}, {VoteAnswer(p, r.candidate, r.term, reply)}))
  {
    hide HandleVoteRequest, Update, PerformAll, LeaderSound, CandidateSound, CommitSound, Advances, GroupInv, View;
    TermsCover(g, p);
    var v, s := View(g), g.servers[p];
    VoteStep(s.node, s.disk, r);
    assert BallotsStored(v, p, s.disk);
    var d' := PerformAll(s.disk, ws);
    assert r.term == s.disk.term == s.node.term;
    assert d' == s.disk && n == s.node;
    StayKeeps(g, p, n, ws, {VoteAnswer(p, r.candidate, r.term, reply)});
  }
}
