/** A follower taking, or refusing, what a leader sent it. */
module RaftFollowing {
  import opened Common
  import opened RaftProtocol
  import opened RaftNode
  import opened RaftNodeFacts
  import opened RaftSteps
  import opened RaftGroup
  import opened RaftSafety
  import opened RaftVoting

  lemma RefusedAppendKeeps(g: Group, p: NodeId, r: AppendRequest)
    requires GroupInv(g) && p in g.servers && !Accepts(g.servers[p].node, r)
    ensures var (n, ws, reply) := HandleAppendRequest(g.servers[p].node, r);
            !reply.success && Advances(g, Update(g, p, n, ws, {}, {AppendAnswer(p, r.leader, r.term, reply)}))
  {
    hide GroupInv, HandleAppendRequest, Update;
    TermsCover(g, p);
    var s := g.servers[p];
    RefusedStep(s.node, s.disk, r);
    var (n, ws, reply) := HandleAppendRequest(s.node, r);
    var answer := AppendAnswer(p, r.leader, r.term, reply);
    if r.term < s.node.term {
      StayKeeps(g, p, n, ws, {answer});
    } else {
      StepDownKeeps(g, p, n, ws, {answer});
    }
  }

  // ---- what the invariant says of a request ---------------------------------------

  lemma SourcedMatches(v: Protocol, log: Log, t: nat)
    requires Sourced(v, log) && LastTerm(log) <= t && t in v.leaderLog && Sourced(v, v.leaderLog[t])
    ensures Matches(log, v.leaderLog[t], t)
  {
    var l := v.leaderLog[t];
    forall i: nat ensures MatchAt(log, l, t, i) {
      if i < |log| && log[i].term == t {
        assert SourcedAt(v, log, i);
      } else if i < |log| && i < |l| && log[i].term == l[i].term {
        LogMatching(v, log, l, i);
      }
    }
  }

  /** A later leader's log starts with everything a node has committed. */
  lemma CommitInLeader(v: Protocol, log: Log, c: nat, bound: nat, t: nat)
    requires Inv(v) && CommitSound(v, log, c, bound) && bound <= t && t in v.leaderLog && c <= |log|
    ensures Agree(log, v.leaderLog[t], c)
  {
    hide Inv;
    if c > 0 {
      var u: nat, m: nat :| CommitVia(v, log, c, bound, u, m);
      CommitInLater(v, log, c, bound, t);
    }
  }

  /** As does any leader's of a term no older than that of the newest entry committed. */
  lemma CommitInLater(v: Protocol, log: Log, c: nat, bound: nat, t: nat)
    requires Inv(v) && CommitSound(v, log, c, bound) && t in v.leaderLog && c <= |log|
    requires (c > 0 ==> log[c - 1].term <= t)
    ensures Agree(log, v.leaderLog[t], c)
  {
    hide Inv;
    if c > 0 {
      var u: nat, m: nat :| CommitVia(v, log, c, bound, u, m);
      if u < t {
        LeaderCompleteness(v, u, m, t);
      }
    }
  }

  /** The commit index a follower has after taking a request is one the group has reached. */
  lemma TakenCommit(v: Protocol, v': Protocol, log: Log, taken: Log, c: nat, sent: nat, bound: nat, t: nat)
    requires Grown(v, v') && t in v.leaderLog
    requires CommitSound(v, log, c, bound) && bound <= t && Agree(log, v.leaderLog[t], c)
    requires CommitSound(v, v.leaderLog[t], sent, t)
    requires Agree(taken, v.leaderLog[t], |taken|) && c <= |taken| && sent <= |taken|
    ensures CommitSound(v', taken, Max(c, sent), t)
  {
    if sent > c {
      CommitGrows(v, v', v.leaderLog[t], taken, sent, t, t);
    } else {
      CommitGrows(v, v', log, taken, c, bound, t);
    }
  }

  // ---- taking ---------------------------------------------------------------------

  function Taken(v: Protocol, p: NodeId, t: nat, taken: Log): Protocol {
    v.(term := v.term[p := t], log := v.log[p := taken], acks := v.acks + {Ack(p, t, |taken|)})
  }

  ghost predicate MayTake(v: Protocol, p: NodeId, t: nat, taken: Log) {
    && p in v.log && p in v.term && t in v.leaderLog
    && LastTerm(v.log[p]) <= t && (forall b :: b in v.ballots && b.0 == p ==> b.1 <= t)
    && Agree(taken, v.leaderLog[t], |taken|)
    && taken != [] && LastTerm(taken) == t
    && (forall j: nat :: Agree(v.log[p], v.leaderLog[t], j) ==> j <= |taken|)
  }

  lemma TakenMoves(v: Protocol, p: NodeId, t: nat, taken: Log)
    requires Inv(v) && MayTake(v, p, t, taken)
    ensures Inv(Taken(v, p, t, taken)) && OnlyBy(v, Taken(v, p, t, taken), p)
  {
    hide Inv;
    var v1 := v.(term := v.term[p := t]);
    assert SetTerm(v, v1, p, t);
    SetTermKeeps(v, v1, p, t);
    assert Accept(v1, Taken(v, p, t, taken), p, taken);
    AcceptKeeps(v1, Taken(v, p, t, taken), p, taken);
  }

  lemma TakenView(g: Group, p: NodeId, after: Node, ws: seq<Write>, acked: set<Ack>, sent: set<Message>)
    requires p in g.servers && after.role == Follower && acked == {Ack(p, after.term, |after.log|)}
    requires var d := PerformAll(g.servers[p].disk, ws); d.votedFor.Some? ==> (p, d.term) in View(g).ballots
    ensures View(Update(g, p, after, ws, acked, sent)) == Taken(View(g), p, after.term, after.log)
  {
    UpdateView(g, p, after, ws, acked, sent);
  }

  lemma TakenServer(v: Protocol, p: NodeId, s: Server, s': Server, r: AppendRequest)
    requires ServerInv(v, p, s) && MayTake(v, p, r.term, s'.node.log) && RequestSound(v, p, r)
    requires OnlyBy(v, Taken(v, p, r.term, s'.node.log), p)
    requires Agree(s.node.log, v.leaderLog[r.term], s.node.commit)
    requires v.log[p] == s.node.log
    requires s'.node.role == Follower && s'.node.cfg == s.node.cfg
    requires NodeSound(s'.node) && DiskSound(s'.node, s'.disk)
    requires s'.node.commit == Max(s.node.commit, r.commit) <= |s'.node.log|
    requires (s'.disk.term == s.disk.term && s'.disk.votedFor == s.disk.votedFor)
             || (s'.disk.term > s.disk.term && s'.disk.votedFor == None)
    ensures ServerInv(Taken(v, p, r.term, s'.node.log), p, s')
  {
    hide NodeSound, DiskSound, LeaderSound, CandidateSound;
    var v' := Taken(v, p, r.term, s'.node.log);
    TakenCommit(v, v', s.node.log, s'.node.log, s.node.commit, r.commit, LastTerm(s.node.log), r.term);
  }

  lemma TakenKeeps(g: Group, p: NodeId, after: Node, ws: seq<Write>, sent: set<Message>)
    requires GroupInv(g) && p in g.servers && after.role == Follower
    requires MayTake(View(g), p, after.term, after.log) && Indexed(after.log, 0)
    requires var d := PerformAll(g.servers[p].disk, ws);
             && (d.votedFor.Some? ==> (p, d.term) in View(g).ballots)
             && var v' := Taken(View(g), p, after.term, after.log);
             && ServerInv(v', p, Server(after, d))
             && forall m :: m in sent ==> MessageInv(v', m)
    ensures Advances(g, Update(g, p, after, ws, {Ack(p, after.term, |after.log|)}, sent))
  {
    hide GroupInv, Inv, ServerInv, MessageInv, OnlyBy, MayTake;
    InvOf(g);
    var acked := {Ack(p, after.term, |after.log|)};
    TakenView(g, p, after, ws, acked, sent);
    TakenMoves(View(g), p, after.term, after.log);
    UpdateKeeps(g, p, after, ws, acked, sent);
  }

  lemma RequestFits(v: Protocol, p: NodeId, s: Server, r: AppendRequest)
    requires Inv(v) && ServerInv(v, p, s) && RequestSound(v, p, r) && p in v.log && v.log[p] == s.node.log
    requires LastTerm(s.node.log) <= r.term
    ensures Matches(s.node.log, v.leaderLog[r.term], r.term)
    ensures Agree(s.node.log, v.leaderLog[r.term], s.node.commit)
  {
    SourcedMatches(v, s.node.log, r.term);
    CommitInLeader(v, s.node.log, s.node.commit, LastTerm(s.node.log), r.term);
  }

  /** What the invariant makes of a request that passes the consistency check. */
  lemma AcceptedServer(v: Protocol, p: NodeId, s: Server, r: AppendRequest)
    requires Inv(v) && ServerInv(v, p, s) && RequestSound(v, p, r) && p in v.log && v.log[p] == s.node.log
    requires LastTerm(s.node.log) <= s.node.term && Accepts(s.node, r)
    ensures var (n, ws, reply) := HandleAppendRequest(s.node, r);
            var d := PerformAll(s.disk, ws);
            && reply == AppendReply(r.term, true, |n.log|)
            && n.term == r.term && n.role == Follower && Indexed(n.log, 0)
            && r.prevIndex + |r.entries| <= |n.log|
            && MayTake(v, p, r.term, n.log)
            && (d.votedFor.Some? ==> (p, d.term) in v.ballots)
            && ServerInv(Taken(v, p, r.term, n.log), p, Server(n, d))
  {
    hide Inv, HandleAppendRequest, PerformAll, OnlyBy, RoleSound, Matches, Agree, CommitSound, Accepts, NodeSound,
         DiskSound;
    assert r.term >= s.node.term by { AcceptsTerm(s.node, r); }
    RequestFits(v, p, s, r);
    AppendStep(s.node, s.disk, r, v.leaderLog[r.term]);
    var (n, ws, reply) := HandleAppendRequest(s.node, r);
    BallotsBelow(v, p, s.disk, s.node);
    SoundParts(n);
    TakenMoves(v, p, r.term, n.log);
    TakenServer(v, p, s, Server(n, PerformAll(s.disk, ws)), r);
  }

  lemma AcceptsTerm(n: Node, r: AppendRequest)
    requires Accepts(n, r)
    ensures r.term >= n.term
  {
  }

  lemma SoundParts(n: Node)
    requires NodeSound(n)
    ensures Indexed(n.log, 0) && n.commit <= |n.log|
  {
  }

  lemma BallotsBelow(v: Protocol, p: NodeId, d: Disk, n: Node)
    requires BallotsStored(v, p, d) && DiskSound(n, d)
    ensures forall b :: b in v.ballots && b.0 == p ==> b.1 <= n.term
    ensures d.term <= n.term
  {
  }

  lemma AcceptedKeeps(g: Group, p: NodeId, r: AppendRequest)
    requires GroupInv(g) && p in g.servers && Accepts(g.servers[p].node, r) && RequestSound(View(g), p, r)
    ensures var (n, ws, reply) := HandleAppendRequest(g.servers[p].node, r);
            && reply.success
            && Advances(g, Update(g, p, n, ws, {Ack(p, reply.term, reply.matchIndex)},
                               {AppendAnswer(p, r.leader, r.term, reply)}))
  {
    hide GroupInv, Inv, HandleAppendRequest, Update, PerformAll, ServerInv, Accepts, RequestSound, MayTake;
    InvOf(g);
    TermsCover(g, p);
    var v, s := View(g), g.servers[p];
    assert v.log[p] == s.node.log;
    AcceptedServer(v, p, s, r);
    var (n, ws, reply) := HandleAppendRequest(s.node, r);
    TakenKeeps(g, p, n, ws, {AppendAnswer(p, r.leader, r.term, reply)});
  }
}
