/** Standing for election: the ballot a candidate casts for itself, and what follows it. */
module RaftStanding {
  import opened Common
  import opened RaftProtocol
  import opened RaftNode
  import opened RaftNodeFacts
  import opened RaftSteps
  import opened RaftGroup
  import opened RaftSafety
  import opened RaftVoting
  import opened RaftFollowing
  import opened RaftLeading

  function StandingDisk(n: Node, d: Disk): Disk {
    d.(term := n.term + 1, votedFor := Some(n.cfg.id))
  }

  lemma NotOwned(v: Protocol, p: NodeId, t: nat)
    requires Inv(v) && (p, t) !in v.ballots
    ensures t in v.owner ==> v.owner[t] != p
  {
    if t in v.owner {
      OwnBallot(v, t);
    }
  }

  lemma StandServer(v: Protocol, p: NodeId, s: Server)
    requires Inv(v) && ServerInv(v, p, s) && p in v.log && v.log[p] == s.node.log
    requires LastTerm(s.node.log) <= s.node.term
    ensures var t := s.node.term + 1;
            var v' := Balloted(v, p, t, p);
            && (p, t) !in v.ballots && Inv(v') && OnlyBy(v, v', p)
            && ServerInv(v', p, Server(Standing(s.node), StandingDisk(s.node, s.disk)))
  {
    hide Inv;
    var n, t := s.node, s.node.term + 1;
    var v' := Balloted(v, p, t, p);
    BallotsBelow(v, p, s.disk, n);
    BallotMoves(v, p, t, p, 0, 0);
    NotOwned(v, p, t);
    CommitGrows(v, v', n.log, n.log, n.commit, LastTerm(n.log), LastTerm(n.log));
    BallotedStored(v, p, s.disk, StandingDisk(n, s.disk), p);
  }

  lemma StartWrites(n: Node, d: Disk)
    requires n.role != Leader
    ensures StartElection(n).0 == CheckVotes(Standing(n)).0
    ensures PerformAll(d, StartElection(n).1) == PerformAll(StandingDisk(n, d), CheckVotes(Standing(n)).1)
  {
    hide CheckVotes;
    var saved := SaveMeta(n.term + 1, Some(n.cfg.id));
    PerformAppend(d, [saved], CheckVotes(Standing(n)).1);
    PerformOne(d, saved);
  }

  lemma WonView(g: Group, p: NodeId, after: Node, ws: seq<Write>, e: Entry)
    requires p in g.servers && after.role == Leader && after.log == g.servers[p].node.log + [e]
    requires after.term == e.term && LastIndex(after) == |after.log| && (p, e.term) !in View(g).ballots
    requires var d := PerformAll(g.servers[p].disk, ws); d.term == e.term && d.votedFor == Some(p)
    ensures View(Update(g, p, after, ws, {}, {})) == Led(Balloted(View(g), p, e.term, p), p, e)
  {
    UpdateView(g, p, after, ws, {}, {});
  }

  lemma OnlyByTwice(v: Protocol, v1: Protocol, v2: Protocol, p: NodeId)
    requires OnlyBy(v, v1, p) && OnlyBy(v1, v2, p)
    ensures OnlyBy(v, v2, p)
  {
    forall t | t in v.leaderLog ensures Agree(v.leaderLog[t], v2.leaderLog[t], |v.leaderLog[t]|) {
      assert Agree(v1.leaderLog[t], v2.leaderLog[t], |v1.leaderLog[t]|);
    }
  }

  lemma LedIndexed(v: Protocol, p: NodeId, t: nat, e: Entry)
    requires p in v.log && LeadersIndexed(v) && Indexed(v.log[p] + [e], 0)
    ensures LeadersIndexed(Led(Balloted(v, p, t, p), p, e))
  {
  }

  lemma StoodKeeps(g: Group, p: NodeId)
    requires GroupInv(g) && p in g.servers && g.servers[p].node.role != Leader
    requires !Enough(Standing(g.servers[p].node))
    ensures var (n, ws) := StartElection(g.servers[p].node); Advances(g, Update(g, p, n, ws, {}, {}))
  {
    hide GroupInv, Update, Inv, CheckVotes, StartElection, PerformAll, View, ServerInv, OnlyBy;
    StandingOf(g, p);
    var v, s := View(g), g.servers[p];
    var s0 := Server(Standing(s.node), StandingDisk(s.node, s.disk));
    StandServer(v, p, s);
    StartWrites(s.node, s.disk);
    SoundOf(Balloted(v, p, s0.node.term, p), p, s0);
    var c := CheckVotesStep(s0.node, s0.disk);
    IdOf(v, p, s);
    var (n, ws) := StartElection(s.node);
    CastKeepsGroup(g, p, n, ws, p, {});
  }

  lemma IdOf(v: Protocol, p: NodeId, s: Server)
    requires ServerInv(v, p, s)
    ensures s.node.cfg.id == p
  {
  }

  lemma WonAtOnceKeeps(g: Group, p: NodeId)
    requires GroupInv(g) && p in g.servers && g.servers[p].node.role != Leader
    requires Enough(Standing(g.servers[p].node))
    ensures var (n, ws) := StartElection(g.servers[p].node); Advances(g, Update(g, p, n, ws, {}, {}))
  {
    hide GroupInv, Inv, CheckVotes, StartElection, PerformAll, View, ServerInv, OnlyBy, Led, LeadersIndexed;
    StandingOf(g, p);
    InvOf(g);
    var v, s := View(g), g.servers[p];
    var s0 := Server(Standing(s.node), StandingDisk(s.node, s.disk));
    var v0 := Balloted(v, p, s0.node.term, p);
    StandServer(v, p, s);
    StartWrites(s.node, s.disk);
    var e := OwnEntry(s0.node, NOOP);
    var c := WonServer(v0, p, s0);
    IdOf(v, p, s);
    var (n, ws) := StartElection(s.node);
    LastIsLength(n);
    WonView(g, p, n, ws, e);
    OnlyByTwice(v, v0, Led(v0, p, e), p);
    LedIndexed(v, p, e.term, e);
    UpdateKeeps(g, p, n, ws, {}, {});
  }

  lemma TimeoutKeeps(g: Group, p: NodeId)
    requires GroupInv(g) && p in g.servers
    ensures var (n, ws) := StartElection(g.servers[p].node); Advances(g, Update(g, p, n, ws, {}, {}))
  {
    hide GroupInv, Update, CheckVotes;
    if g.servers[p].node.role == Leader {
      IdleKeeps(g, p);
    } else if Enough(Standing(g.servers[p].node)) {
      WonAtOnceKeeps(g, p);
    } else {
      StoodKeeps(g, p);
    }
  }
}
