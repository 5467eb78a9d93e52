/**
  Every run of a group keeps the invariant below, through lost, duplicated and reordered
  messages and through restarts at any moment.  From it: one leader a term, matching logs,
  and one command an index.
*/
module RaftSafety {
  import opened Common
  import opened RaftProtocol
  import opened RaftNode
  import opened RaftNodeFacts
  import opened RaftSteps
  import opened RaftGroup

  // ---- the invariant --------------------------------------------------------------

  /** Every ballot of `p` is in its storage, and its stored vote is a ballot it cast. */
  ghost predicate BallotsStored(v: Protocol, p: NodeId, d: Disk) {
    && (forall t: nat :: (p, t) in v.ballots ==>
          t <= d.term && (t == d.term ==> d.votedFor == Some(v.ballots[(p, t)].candidate)))
    && (d.votedFor.Some? ==> (p, d.term) in v.ballots)
  }

  ghost predicate LeaderSound(v: Protocol, p: NodeId, n: Node) {
    && n.term in v.leaderLog && n.term in v.owner && v.owner[n.term] == p
    && n.log == v.leaderLog[n.term]
    && Ack(p, n.term, |n.log|) in v.acks
    && (forall q :: q in n.cfg.peers ==> q in n.next && 1 <= n.next[q] <= |n.log| + 1)
    && (forall q :: q in n.cfg.peers && MatchOf(n, q) > 0 ==> Ack(q, n.term, MatchOf(n, q)) in v.acks)
  }

  ghost predicate CandidateSound(v: Protocol, p: NodeId, n: Node, d: Disk) {
    && d.term == n.term
    && (p, n.term) in v.ballots && v.ballots[(p, n.term)].candidate == p && v.ballots[(p, n.term)].log == n.log
    && p in n.votes
    && VotedFor(v, n.votes, n.term, p)
    && (n.term in v.owner ==> v.owner[n.term] != p)
  }

  ghost predicate RoleSound(v: Protocol, p: NodeId, s: Server) {
    && (s.node.role == Leader ==> LeaderSound(v, p, s.node))
    && (s.node.role == Candidate ==> CandidateSound(v, p, s.node, s.disk))
  }

  ghost predicate Placed(v: Protocol, p: NodeId, s: Server) {
    && NodeSound(s.node) && DiskSound(s.node, s.disk)
    && s.node.cfg.id == p && p in v.term
    && Members(s.node.cfg.peers) == v.term.Keys - {p}
  }

  ghost predicate ServerInv(v: Protocol, p: NodeId, s: Server) {
    && Placed(v, p, s)
    && BallotsStored(v, p, s.disk)
    && RoleSound(v, p, s)
    && CommitSound(v, s.node.log, s.node.commit, LastTerm(s.node.log))
  }

  /** A request carries the sender's whole log from `prevIndex` to an entry of its own term, and
      a commit index its sender's log had reached. */
  ghost predicate RequestSound(v: Protocol, to: NodeId, r: AppendRequest) {
    && r.term in v.leaderLog && r.term in v.owner
    && r.leader == v.owner[r.term] && to != r.leader
    && Carries(r, v.leaderLog[r.term])
    && CommitSound(v, v.leaderLog[r.term], r.commit, r.term)
  }

  ghost predicate MessageInv(v: Protocol, m: Message) {
    match m
    case VoteAsk(to, r) =>
      && (r.candidate, r.term) in v.ballots
      && var b := v.ballots[(r.candidate, r.term)];
         b.candidate == r.candidate && r.lastIndex == |b.log| && r.lastTerm == LastTerm(b.log)
    case VoteAnswer(from, to, asked, r) =>
      r.granted ==> (from, asked) in v.ballots && v.ballots[(from, asked)].candidate == to
    case AppendAsk(to, r) => RequestSound(v, to, r)
    case AppendAnswer(from, to, asked, r) => r.success ==> Ack(from, asked, r.matchIndex) in v.acks
  }

  ghost predicate LeadersIndexed(v: Protocol) {
    forall t :: t in v.leaderLog ==> Indexed(v.leaderLog[t], 0)
  }

  ghost predicate GroupInv(g: Group) {
    var v := View(g);
    && Inv(v) && LeadersIndexed(v)
    && (forall p :: p in g.servers ==> ServerInv(v, p, g.servers[p]))
    && (forall m :: m in g.sent ==> MessageInv(v, m))
  }

  /** The step from `g` to `g'` kept the invariant, and forgot nothing that had happened. */
  ghost predicate Advances(g: Group, g': Group) {
    GroupInv(g') && Grown(View(g), View(g'))
  }

  // ---- what growing keeps ---------------------------------------------------------

  lemma GrownTwice(v: Protocol, v1: Protocol, v2: Protocol)
    requires Grown(v, v1) && Grown(v1, v2)
    ensures Grown(v, v2)
  {
    forall t | t in v.leaderLog ensures Agree(v.leaderLog[t], v2.leaderLog[t], |v.leaderLog[t]|) {
      assert Agree(v1.leaderLog[t], v2.leaderLog[t], |v1.leaderLog[t]|);
    }
  }

  lemma CommittedGrows(v: Protocol, v': Protocol, t: nat, m: nat)
    requires Committed(v, t, m) && Grown(v, v')
    ensures Committed(v', t, m)
  {
    var q :| Quorum(q, v.term.Keys) && AckedBy(v, q, t, m);
    assert AckedBy(v', q, t, m);
  }

  lemma CommitGrows(v: Protocol, v': Protocol, log: Log, log': Log, c: nat, bound: nat, bound': nat)
    requires CommitSound(v, log, c, bound) && Grown(v, v')
    requires bound <= bound' && Agree(log, log', c)
    ensures CommitSound(v', log', c, bound')
  {
    if c > 0 {
      var t: nat, m: nat :| CommitVia(v, log, c, bound, t, m);
      CommittedGrows(v, v', t, m);
      assert CommitVia(v', log', c, bound', t, m);
    }
  }

  lemma MessageGrows(v: Protocol, v': Protocol, m: Message)
    requires MessageInv(v, m) && Grown(v, v') && LeadersIndexed(v')
    ensures MessageInv(v', m)
  {
    if m.AppendAsk? {
      var r := m.append;
      var l, l' := v.leaderLog[r.term], v'.leaderLog[r.term];
      assert Agree(l, l', |l|);
      CommitGrows(v, v', l, l', r.commit, r.term, r.term);
      var end := r.prevIndex + |r.entries|;
      assert l'[r.prevIndex..end] == l[r.prevIndex..end];
    }
  }

  /** Only `p` did anything between `v` and `v'`. */
  ghost predicate OnlyBy(v: Protocol, v': Protocol, p: NodeId) {
    && Grown(v, v')
    && (forall b :: b in v'.ballots && b !in v.ballots ==> b.0 == p)
    && (forall t :: t in v'.owner && t !in v.owner ==> v'.owner[t] == p)
    && (forall t :: t in v.leaderLog && t in v.owner && v.owner[t] != p ==> v'.leaderLog[t] == v.leaderLog[t])
  }

  lemma OthersKept(v: Protocol, v': Protocol, p: NodeId, q: NodeId, s: Server)
    requires OnlyBy(v, v', p) && ServerInv(v, q, s) && q != p
    ensures ServerInv(v', q, s)
  {
    CommitGrows(v, v', s.node.log, s.node.log, s.node.commit, LastTerm(s.node.log), LastTerm(s.node.log));
  }

  /** An action of one node keeps the invariant if that node and what it sent are sound after it. */
  lemma UpdateKeeps(g: Group, p: NodeId, after: Node, ws: seq<Write>, acked: set<Ack>, sent: set<Message>)
    requires GroupInv(g) && p in g.servers
    requires var g' := Update(g, p, after, ws, acked, sent);
             var v' := View(g');
             && OnlyBy(View(g), v', p) && Inv(v') && LeadersIndexed(v')
             && ServerInv(v', p, g'.servers[p])
             && forall m :: m in sent ==> MessageInv(v', m)
    ensures Advances(g, Update(g, p, after, ws, acked, sent))
  {
    hide Inv, ServerInv, MessageInv, LeadersIndexed, Remember;
    var g' := Update(g, p, after, ws, acked, sent);
    var v, v' := View(g), View(g');
    forall q | q in g'.servers ensures ServerInv(v', q, g'.servers[q]) {
      if q != p {
        OthersKept(v, v', p, q, g.servers[q]);
      }
    }
    forall m | m in g'.sent ensures MessageInv(v', m) {
      if m in g.sent {
        MessageGrows(v, v', m);
      }
    }
  }

  // ---- actions that only move a term ----------------------------------------------

  lemma UpdateView(g: Group, p: NodeId, after: Node, ws: seq<Write>, acked: set<Ack>, sent: set<Message>)
    requires p in g.servers
    ensures var v := View(g);
            var past := Remember(g.past, p, g.servers[p].node, after, PerformAll(g.servers[p].disk, ws), acked);
            View(Update(g, p, after, ws, acked, sent)) ==
            Protocol(v.term[p := after.term], v.log[p := after.log],
                     past.leaderLog, past.owner, past.ballots, past.acks, past.order)
  {
    hide Remember, PerformAll;
    var g' := Update(g, p, after, ws, acked, sent);
    assert View(g').term == View(g).term[p := after.term];
    assert View(g').log == View(g).log[p := after.log];
  }

  /** Nothing but a term moved: the log is the same, no new vote is stored, and a leader is the
      leader it was. */
  lemma QuietView(g: Group, p: NodeId, after: Node, ws: seq<Write>, acked: set<Ack>, sent: set<Message>)
    requires p in g.servers
    requires var n, d := g.servers[p].node, PerformAll(g.servers[p].disk, ws);
             && after.log == n.log && LastIndex(after) == |n.log|
             && (d.votedFor.Some? ==> (p, d.term) in View(g).ballots)
             && acked <= View(g).acks
             && (after.role == Leader ==> after.term == n.term && LeaderSound(View(g), p, n))
    ensures var v := View(g);
            View(Update(g, p, after, ws, acked, sent)) == v.(term := v.term[p := after.term])
  {
    UpdateView(g, p, after, ws, acked, sent);
    var v := View(g);
    assert v.log[p := after.log] == v.log;
    if after.role == Leader {
      assert v.leaderLog[after.term := after.log] == v.leaderLog;
      assert v.owner[after.term := p] == v.owner;
    }
  }

  lemma SoundMessage(g: Group, m: Message)
    requires GroupInv(g) && m in g.sent
    ensures MessageInv(View(g), m)
  {
  }

  lemma ServerOf(g: Group, p: NodeId)
    requires GroupInv(g) && p in g.servers
    ensures ServerInv(View(g), p, g.servers[p]) && Inv(View(g)) && LeadersIndexed(View(g))
  {
  }

  lemma TermMoves(g: Group, p: NodeId, t: nat)
    requires p in g.servers && ServerInv(View(g), p, g.servers[p]) && LastTerm(g.servers[p].node.log) <= t
    requires g.servers[p].disk.term <= t
    ensures var v := View(g); SetTerm(v, v.(term := v.term[p := t]), p, t)
  {
  }

  lemma TermOnlyBy(v: Protocol, p: NodeId, t: nat)
    requires p in v.term
    ensures OnlyBy(v, v.(term := v.term[p := t]), p)
  {
  }

  lemma QuietKeeps(g: Group, p: NodeId, after: Node, ws: seq<Write>, acked: set<Ack>, sent: set<Message>)
    requires GroupInv(g) && p in g.servers
    requires var n, d' := g.servers[p].node, PerformAll(g.servers[p].disk, ws);
             && after.log == n.log && LastIndex(after) == |n.log|
             && (d'.votedFor.Some? ==> (p, d'.term) in View(g).ballots)
             && acked <= View(g).acks
             && (after.role == Leader ==> after.term == n.term && LeaderSound(View(g), p, n))
             && LastTerm(n.log) <= after.term
             && g.servers[p].disk.term <= after.term
    requires var v := View(g);
             var v' := v.(term := v.term[p := after.term]);
             && ServerInv(v', p, Server(after, PerformAll(g.servers[p].disk, ws)))
             && forall m :: m in sent ==> MessageInv(v', m)
    ensures Advances(g, Update(g, p, after, ws, acked, sent))
  {
    hide Inv, LeaderSound, CommitSound, MessageInv, PerformAll, RoleSound, Advances, Remember, View;
    var v := View(g);
    var v' := v.(term := v.term[p := after.term]);
    QuietView(g, p, after, ws, acked, sent);
    ServerOf(g, p);
    TermMoves(g, p, after.term);
    SetTermKeeps(v, v', p, after.term);
    TermOnlyBy(v, p, after.term);
    UpdateKeeps(g, p, after, ws, acked, sent);
  }
}
