/** Winning an election, appending as a leader, and counting what the peers hold. */
module RaftLeading {
  import opened Common
  import opened RaftProtocol
  import opened RaftNode
  import opened RaftNodeFacts
  import opened RaftSteps
  import opened RaftGroup
  import opened RaftSafety
  import opened RaftVoting

  // ---- counting -------------------------------------------------------------------

  lemma {:induction false} DistinctSize(s: seq<NodeId>)
    requires Distinct(s)
    ensures |Members(s)| == |s|
  {
    if s != [] {
      var rest := s[1..];
      DistinctSize(rest);
      assert s[0] !in rest;
      assert Members(s) == Members(rest) + {s[0]};
    }
  }

  lemma GroupSizes(v: Protocol, p: NodeId, n: Node)
    requires p in v.term && Distinct(n.cfg.peers) && Members(n.cfg.peers) == v.term.Keys - {p}
    ensures GroupSize(n) == |v.term.Keys|
  {
    DistinctSize(n.cfg.peers);
    assert v.term.Keys == (v.term.Keys - {p}) + {p};
  }

  /** An index the leader has counted is committed. */
  lemma CountedCommitted(v: Protocol, p: NodeId, n: Node, c: nat)
    requires p in v.term && Distinct(n.cfg.peers) && Members(n.cfg.peers) == v.term.Keys - {p}
    requires LeaderSound(v, p, n) && Counted(n, c)
    ensures Committed(v, n.term, c)
  {
    var holders := HoldersIn(n, n.cfg.peers, c);
    var q := holders + {p};
    assert holders <= Members(n.cfg.peers);
    assert p !in holders && q <= v.term.Keys;
    GroupSizes(v, p, n);
    assert Quorum(q, v.term.Keys);
    forall u | u in q ensures exists a :: a in v.acks && a.node == u && a.term == n.term && a.length >= c {
      if u == p {
        assert Ack(p, n.term, |n.log|) in v.acks;
      } else {
        assert Ack(u, n.term, MatchOf(n, u)) in v.acks;
      }
    }
    assert AckedBy(v, q, n.term, c);
  }

  /** The commit index a leader moves to, or keeps. */
  lemma LeaderCommit(v: Protocol, p: NodeId, n: Node, c: nat)
    requires p in v.term && Distinct(n.cfg.peers) && Members(n.cfg.peers) == v.term.Keys - {p}
    requires LeaderSound(v, p, n) && n.commit <= c <= |n.log| && LastTerm(n.log) == n.term
    requires CommitSound(v, n.log, n.commit, n.term)
    requires c > n.commit ==> Counted(n, c)
    ensures CommitSound(v, n.log, c, n.term)
  {
    if c > n.commit {
      CountedCommitted(v, p, n, c);
      assert CommitVia(v, n.log, c, n.term, n.term, c);
    }
  }

  // ---- appending ------------------------------------------------------------------

  function Led(v: Protocol, p: NodeId, e: Entry): Protocol
    requires p in v.log
  {
    var longer := v.log[p] + [e];
    v.(log := v.log[p := longer], leaderLog := v.leaderLog[e.term := longer],
       owner := v.owner[e.term := p], acks := v.acks + {Ack(p, e.term, |longer|)},
       order := if e.term in v.leaderLog then v.order else v.order + [e.term])
  }

  lemma LedOnlyBy(v: Protocol, p: NodeId, e: Entry)
    requires p in v.log && p in v.term && Grown(v, Led(v, p, e))
    ensures OnlyBy(v, Led(v, p, e), p)
  {
  }

  lemma ExtendMoves(v: Protocol, p: NodeId, e: Entry)
    requires Inv(v) && p in v.log && p in v.term && e.term == v.term[p]
    requires e.term in v.leaderLog && e.term in v.owner && v.owner[e.term] == p && v.leaderLog[e.term] == v.log[p]
    ensures Inv(Led(v, p, e)) && OnlyBy(v, Led(v, p, e), p)
  {
    hide Inv;
    assert v.owner[e.term := p] == v.owner;
    assert Extend(v, Led(v, p, e), p, e);
    ExtendKeeps(v, Led(v, p, e), p, e);
    LedOnlyBy(v, p, e);
  }

  /** Two quorums of one term voted for one candidate. */
  lemma NoLeaderYet(v: Protocol, p: NodeId, t: nat, q: set<NodeId>)
    requires LeadersElected(v) && Quorum(q, v.term.Keys) && VotedFor(v, q, t, p)
    requires t in v.owner ==> v.owner[t] != p
    ensures t !in v.leaderLog
  {
    if t in v.leaderLog {
      assert LeaderElected(v, t);
      var q', r :| ElectedAt(v, t, q', r);
      var u := QuorumsMeet(q, q', v.term.Keys);
      assert false;
    }
  }

  lemma ElectMoves(v: Protocol, p: NodeId, q: set<NodeId>, e: Entry)
    requires Inv(v) && p in v.log && p in v.term && e.term == v.term[p]
    requires p in q && Quorum(q, v.term.Keys) && VotedFor(v, q, e.term, p)
    requires v.ballots[(p, e.term)].log == v.log[p]
    requires e.term in v.owner ==> v.owner[e.term] != p
    ensures Inv(Led(v, p, e)) && OnlyBy(v, Led(v, p, e), p)
  {
    NoLeaderYet(v, p, e.term, q);
    hide Inv;
    assert Elect(v, Led(v, p, e), p, q, e);
    ElectKeeps(v, Led(v, p, e), p, q, e);
    LedOnlyBy(v, p, e);
  }

  /** A leader that has just appended `e`, as the leader log of its term. */
  lemma LedServer(v: Protocol, p: NodeId, d: Disk, n1: Node, s': Server, e: Entry, c: nat, bound: nat)
    requires p in v.log && p in v.term && OnlyBy(v, Led(v, p, e), p) && BallotsStored(v, p, d)
    requires n1.log == v.log[p] + [e] && n1.term == e.term && n1.role == Leader && n1.cfg.id == p
    requires Members(n1.cfg.peers) == v.term.Keys - {p}
    requires CommitSound(v, v.log[p], n1.commit, bound) && bound <= e.term && n1.commit <= |v.log[p]|
    requires n1.commit <= c <= |n1.log| && (c > n1.commit ==> Counted(n1, c))
    requires s'.node == Committing(n1, c) && NodeSound(s'.node) && DiskSound(s'.node, s'.disk)
    requires s'.disk.term == d.term && s'.disk.votedFor == d.votedFor
    requires LeaderSound(Led(v, p, e), p, n1)
    ensures ServerInv(Led(v, p, e), p, s')
  {
    hide DiskSound, CommitSound, Counted, Grown;
    var v' := Led(v, p, e);
    CommitGrows(v, v', v.log[p], n1.log, n1.commit, bound, e.term);
    LeaderCommit(v', p, n1, c);
  }

  lemma LedView(g: Group, p: NodeId, after: Node, ws: seq<Write>, e: Entry)
    requires p in g.servers && after.role == Leader && after.log == g.servers[p].node.log + [e]
    requires after.term == g.servers[p].node.term == e.term && LastIndex(after) == |after.log|
    requires var d := PerformAll(g.servers[p].disk, ws); d.votedFor.Some? ==> (p, d.term) in View(g).ballots
    ensures View(Update(g, p, after, ws, {}, {})) == Led(View(g), p, e)
  {
    UpdateView(g, p, after, ws, {}, {});
    assert View(g).term[p := after.term] == View(g).term;
  }

  /** A leader's append keeps the invariant, if the leader is sound after it. */
  lemma LedKeeps(g: Group, p: NodeId, after: Node, ws: seq<Write>, e: Entry)
    requires GroupInv(g) && p in g.servers && after.role == Leader && after.log == g.servers[p].node.log + [e]
    requires after.term == g.servers[p].node.term == e.term && NodeSound(after)
    requires var v' := Led(View(g), p, e);
             var d := PerformAll(g.servers[p].disk, ws);
             && (d.votedFor.Some? ==> (p, d.term) in View(g).ballots)
             && Inv(v') && OnlyBy(View(g), v', p)
             && ServerInv(v', p, Server(after, d))
    ensures Advances(g, Update(g, p, after, ws, {}, {}))
  {
    hide GroupInv, Inv, ServerInv, OnlyBy;
    InvOf(g);
    LastIsLength(after);
    LedView(g, p, after, ws, e);
    UpdateKeeps(g, p, after, ws, {}, {});
  }

  // ---- a proposal -----------------------------------------------------------------

  lemma LeaderExtends(v: Protocol, p: NodeId, n: Node, command: Command)
    requires LeaderSound(v, p, n) && p in v.log && v.log[p] == n.log
    ensures LeaderSound(Led(v, p, OwnEntry(n, command)), p, Appended(n, command))
  {
  }

  lemma StandingOf(g: Group, p: NodeId)
    requires GroupInv(g) && p in g.servers
    ensures var v, s := View(g), g.servers[p];
            && Inv(v) && ServerInv(v, p, s)
            && p in v.log && p in v.term && v.log[p] == s.node.log && v.term[p] == s.node.term
            && LastTerm(s.node.log) <= s.node.term
  {
    InvOf(g);
    TermsCover(g, p);
  }

  lemma ProposeKeeps(g: Group, p: NodeId, command: Command)
    requires GroupInv(g) && p in g.servers && g.servers[p].node.role == Leader
    ensures var (n, ws) := LeaderAppend(g.servers[p].node, command);
            Advances(g, Update(g, p, n, ws, {}, {}))
  {
    hide GroupInv, Inv, Update, LeaderAppend, PerformAll, View, CommitSound, OnlyBy, Counted, Led, LeaderSound, Handed;
    StandingOf(g, p);
    var v, s := View(g), g.servers[p];
    var e := OwnEntry(s.node, command);
    var c := LeaderAppendStep(s.node, s.disk, command);
    LeaderParts(v, p, s.node);
    ExtendMoves(v, p, e);
    LeaderExtends(v, p, s.node, command);
    var (n, ws) := LeaderAppend(s.node, command);
    var s' := Server(n, PerformAll(s.disk, ws));
    LedServer(v, p, s.disk, Appended(s.node, command), s', e, c, LastTerm(s.node.log));
    LedKeeps(g, p, n, ws, e);
  }

  lemma LeaderParts(v: Protocol, p: NodeId, n: Node)
    requires LeaderSound(v, p, n)
    ensures n.term in v.leaderLog && n.term in v.owner && v.owner[n.term] == p && v.leaderLog[n.term] == n.log
  {
  }

  // ---- counting a reply to an append ----------------------------------------------

  lemma TalliedSound(v: Protocol, p: NodeId, n: Node, peer: NodeId, matchIndex: nat)
    requires LeaderSound(v, p, n) && AcksSound(v) && Ack(peer, n.term, matchIndex) in v.acks
    ensures LeaderSound(v, p, n.(next := n.next[peer := matchIndex + 1], matched := n.matched[peer := matchIndex]))
  {
    assert AckSound(v, Ack(peer, n.term, matchIndex));
  }

  lemma TalliedKeeps(g: Group, p: NodeId, peer: NodeId, matchIndex: nat)
    requires GroupInv(g) && p in g.servers && g.servers[p].node.role == Leader
    requires Ack(peer, g.servers[p].node.term, matchIndex) in View(g).acks
    ensures var n := g.servers[p].node;
            var (n', ws) := UpdateCommit(n.(next := n.next[peer := matchIndex + 1],
                                            matched := n.matched[peer := matchIndex]));
            Advances(g, Update(g, p, n', ws, {}, {}))
  {
    hide GroupInv, Update, UpdateCommit, PerformAll, View, CommitSound, Counted, LeaderSound, Handed;
    StandingOf(g, p);
    var v, s := View(g), g.servers[p];
    var n := s.node;
    var n1 := n.(next := n.next[peer := matchIndex + 1], matched := n.matched[peer := matchIndex]);
    TalliedSound(v, p, n, peer, matchIndex);
    var c := UpdateStep(n1);
    var ws := CommitWrites(n.commit, c);
    CommitWritten(s.disk, n.commit, c);
    LeaderLast(v, p, n);
    LeaderCommit(v, p, n1, c);
    StillLeads(v, p, n1, c);
    StayKeeps(g, p, Committing(n1, c), ws, {});
  }

  lemma StillLeads(v: Protocol, p: NodeId, n: Node, c: nat)
    requires LeaderSound(v, p, n) && c <= |n.log|
    ensures LeaderSound(v, p, Committing(n, c))
  {
  }

  lemma LeaderLast(v: Protocol, p: NodeId, n: Node)
    requires LeaderSound(v, p, n) && LeadersSourced(v)
    ensures LastTerm(n.log) == n.term && n.log != []
  {
  }

  lemma CommitWritten(d: Disk, c: nat, c': nat)
    requires d.commit == c && c <= c'
    ensures PerformAll(d, CommitWrites(c, c')) == d.(commit := c')
  {
    if c' > c { PerformOne(d, SaveCommit(c')); }
  }

  lemma BackedOffSound(v: Protocol, p: NodeId, n: Node, peer: NodeId)
    requires LeaderSound(v, p, n)
    ensures LeaderSound(v, p, HandleAppendReply(n, peer, AppendReply(n.term, false, 0)).0)
  {
  }

  lemma BackOffKeeps(g: Group, p: NodeId, peer: NodeId)
    requires GroupInv(g) && p in g.servers && g.servers[p].node.role == Leader
    ensures var n := g.servers[p].node;
            var (n', ws) := HandleAppendReply(n, peer, AppendReply(n.term, false, 0));
            Advances(g, Update(g, p, n', ws, {}, {}))
  {
    hide GroupInv, Update, Inv, View, LeaderSound, CandidateSound, BallotsStored, CommitSound;
    var n := g.servers[p].node;
    StandingOf(g, p);
    BackedOffSound(View(g), p, n, peer);
    StayKeeps(g, p, HandleAppendReply(n, peer, AppendReply(n.term, false, 0)).0, [], {});
  }

  lemma IdleKeeps(g: Group, p: NodeId)
    requires GroupInv(g) && p in g.servers
    ensures Advances(g, Update(g, p, g.servers[p].node, [], {}, {}))
  {
    hide GroupInv, Update, Inv, View;
    StandingOf(g, p);
    StayKeeps(g, p, g.servers[p].node, [], {});
  }

  lemma CountAppendKeeps(g: Group, p: NodeId, peer: NodeId, asked: nat, r: AppendReply)
    requires GroupInv(g) && p in g.servers && MessageInv(View(g), AppendAnswer(peer, p, asked, r))
    requires r.term > g.servers[p].node.term || asked == g.servers[p].node.term
    ensures var (n, ws) := HandleAppendReply(g.servers[p].node, peer, r);
            Advances(g, Update(g, p, n, ws, {}, {}))
  {
    hide GroupInv, Update, UpdateCommit, View;
    var n := g.servers[p].node;
    if r.term > n.term {
      HeardAppendKeeps(g, p, peer, r);
    } else if n.role == Leader && r.success {
      TalliedKeeps(g, p, peer, r.matchIndex);
    } else if n.role == Leader {
      BackOffKeeps(g, p, peer);
    } else {
      IdleKeeps(g, p);
    }
  }

  // ---- counting votes -------------------------------------------------------------

  lemma WinnerSound(v: Protocol, p: NodeId, n: Node)
    requires p in v.log && v.log[p] == n.log
    ensures LeaderSound(Led(v, p, OwnEntry(n, NOOP)), p, Appended(Winning(n), NOOP))
  {
  }

  lemma EnoughQuorum(v: Protocol, p: NodeId, n: Node)
    requires BallotsSound(v) && p in v.term && Distinct(n.cfg.peers) && Members(n.cfg.peers) == v.term.Keys - {p}
    requires VotedFor(v, n.votes, n.term, p) && Enough(n)
    ensures Quorum(n.votes, v.term.Keys)
  {
    GroupSizes(v, p, n);
    forall u | u in n.votes ensures u in v.term.Keys {
      assert (u, n.term) in v.ballots;
    }
  }

  /** A sound candidate, with one more of its votes counted. */
  lemma VoteCounted(v: Protocol, p: NodeId, s: Server, peer: NodeId)
    requires ServerInv(v, p, s) && s.node.role == Candidate
    requires (peer, s.node.term) in v.ballots && v.ballots[(peer, s.node.term)].candidate == p
    ensures ServerInv(v, p, Server(s.node.(votes := s.node.votes + {peer}), s.disk))
  {
  }

  /** The new leader, as a server of the state its election leads to. */
  lemma WonServer(v: Protocol, p: NodeId, s: Server) returns (c: nat)
    requires Inv(v) && ServerInv(v, p, s) && Enough(s.node)
    requires p in v.log && v.log[p] == s.node.log && v.term[p] == s.node.term
    requires LastTerm(s.node.log) <= s.node.term
    ensures var e := OwnEntry(s.node, NOOP);
            var v' := Led(v, p, e);
            var (n, ws) := CheckVotes(s.node);
            var d := PerformAll(s.disk, ws);
            && Inv(v') && OnlyBy(v, v', p) && ServerInv(v', p, Server(n, d))
            && n.role == Leader && n.log == s.node.log + [e] && n.term == e.term && NodeSound(n)
            && d.term == s.disk.term && d.votedFor == s.disk.votedFor
  {
    hide Inv, CheckVotes, PerformAll, CommitSound, OnlyBy, Counted, Led, LeaderSound, Handed;
    var e := OwnEntry(s.node, NOOP);
    c := CheckVotesStep(s.node, s.disk);
    BallotsOf(v);
    EnoughQuorum(v, p, s.node);
    ElectMoves(v, p, s.node.votes, e);
    WinnerSound(v, p, s.node);
    var (n, ws) := CheckVotes(s.node);
    LedServer(v, p, s.disk, Appended(Winning(s.node), NOOP), Server(n, PerformAll(s.disk, ws)), e, c,
              LastTerm(s.node.log));
  }

  lemma BallotsOf(v: Protocol)
    requires Inv(v)
    ensures BallotsSound(v)
  {
  }

  lemma CountVoteKeeps(g: Group, p: NodeId, peer: NodeId)
    requires GroupInv(g) && p in g.servers && g.servers[p].node.role == Candidate
    requires var t := g.servers[p].node.term;
             (peer, t) in View(g).ballots && View(g).ballots[(peer, t)].candidate == p
    ensures var n := g.servers[p].node;
            var (n', ws) := CheckVotes(n.(votes := n.votes + {peer}));
            Advances(g, Update(g, p, n', ws, {}, {}))
  {
    hide GroupInv, Update, Inv, CheckVotes, PerformAll, View, ServerInv, OnlyBy, Led;
    StandingOf(g, p);
    var v, s := View(g), g.servers[p];
    VoteCounted(v, p, s, peer);
    var s1 := Server(s.node.(votes := s.node.votes + {peer}), s.disk);
    var (n, ws) := CheckVotes(s1.node);
    if Enough(s1.node) {
      var c := WonServer(v, p, s1);
      VoteStored(v, p, s1);
      LedKeeps(g, p, n, ws, OwnEntry(s.node, NOOP));
    } else {
      SoundOf(v, p, s1);
      var c := CheckVotesStep(s1.node, s1.disk);
      StayKeeps(g, p, n, ws, {});
    }
  }

  lemma SoundOf(v: Protocol, p: NodeId, s: Server)
    requires ServerInv(v, p, s)
    ensures NodeSound(s.node) && DiskSound(s.node, s.disk)
  {
  }

  lemma VoteStored(v: Protocol, p: NodeId, s: Server)
    requires ServerInv(v, p, s)
    ensures s.disk.votedFor.Some? ==> (p, s.disk.term) in v.ballots
  {
  }

  lemma VoteReplyKeeps(g: Group, p: NodeId, peer: NodeId, asked: nat, r: VoteReply)
    requires GroupInv(g) && p in g.servers && MessageInv(View(g), VoteAnswer(peer, p, asked, r))
    requires r.term > g.servers[p].node.term || asked == g.servers[p].node.term
    ensures var (n, ws) := HandleVoteReply(g.servers[p].node, peer, r);
            Advances(g, Update(g, p, n, ws, {}, {}))
  {
    hide GroupInv, Update, CheckVotes, View;
    var n := g.servers[p].node;
    if r.term > n.term {
      HeardVoteKeeps(g, p, peer, r);
    } else if n.role == Candidate && r.granted {
      CountVoteKeeps(g, p, peer);
    } else {
      IdleKeeps(g, p);
    }
  }
}
