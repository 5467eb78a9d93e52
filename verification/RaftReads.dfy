/**
  ReadIndex: a leader that a quorum answered after the read began serves the read at an index
  no committed entry is past.
*/
module RaftReads {
  import opened Common
  import opened RaftProtocol
  import opened RaftNode
  import opened RaftNodeFacts
  import opened RaftSteps
  import opened RaftGroup
  import opened RaftSafety
  import opened RaftVoting
  import opened RaftFollowing
  import opened RaftLeading
  import opened RaftStanding
  import opened RaftDying
  import opened RaftRuns

  // ---- a leader stays one until it stops ------------------------------------------

  /** How a node can have come to lead its term in one step. */
  predicate CanLead(n: Node, n': Node) {
    n'.role == Leader ==>
      || (n.role == Leader && n'.term == n.term)
      || (n.role == Candidate && n'.term == n.term)
      || (n.role != Leader && n'.term == n.term + 1)
  }

  lemma ElectionCanLead(n: Node)
    ensures CanLead(n, StartElection(n).0)
  {
  }

  lemma VoteRequestCanLead(n: Node, r: VoteRequest)
    ensures CanLead(n, HandleVoteRequest(n, r).0)
  {
  }

  lemma VoteReplyCanLead(n: Node, peer: NodeId, r: VoteReply)
    ensures CanLead(n, HandleVoteReply(n, peer, r).0)
  {
  }

  lemma AppendRequestCanLead(n: Node, r: AppendRequest)
    ensures CanLead(n, HandleAppendRequest(n, r).0)
  {
    MergeKeepsRole(Following(n, r.term), r.entries);
  }

  lemma AppendReplyCanLead(n: Node, peer: NodeId, r: AppendReply)
    ensures CanLead(n, HandleAppendReply(n, peer, r).0)
  {
  }

  lemma ProposeCanLead(n: Node, command: Command)
    ensures CanLead(n, Propose(n, command).0)
  {
  }

  /** Only an election makes a leader of a node that was not one. */
  lemma LeadersMade(g: Group, a: Action, p: NodeId)
    requires Enabled(g, a) && p in g.servers
    ensures p in Next(g, a).servers && CanLead(g.servers[p].node, Next(g, a).servers[p].node)
  {
    hide StartElection, HandleVoteRequest, HandleVoteReply, HandleAppendRequest, HandleAppendReply, Propose, Load,
      Remember, PerformAll, MakeAppendRequest, MakeVoteRequest, Died;
    match a
    case Timeout(q) => ElectionCanLead(g.servers[q].node);
    case AskVote(_, _) =>
    case Vote(m) => VoteRequestCanLead(g.servers[m.to].node, m.vote);
    case CountVote(m) => VoteReplyCanLead(g.servers[m.to].node, m.from, m.voted);
    case SendAppend(_, _) =>
    case TakeAppend(m) => AppendRequestCanLead(g.servers[m.to].node, m.append);
    case CountAppend(m) => AppendReplyCanLead(g.servers[m.to].node, m.from, m.appended);
    case ClientPropose(q, command) => ProposeCanLead(g.servers[q].node, command);
    case Restart(q) => LoadFollows(g.servers[q].node.cfg, g.servers[q].disk);
    case Die(block, done) => DiedServers(g, block, done);
  }

  lemma {:induction false} MergeKeepsRole(n: Node, entries: Log)
    ensures Merge(n, entries).0.role == n.role
    decreases |entries|
  {
    if entries != [] {
      MergeKeepsRole(MergeOne(n, entries[0]).0, entries[1..]);
    }
  }

  /** A term that has had its leader does not get that leader back. */
  lemma NoReturn(g: Group, a: Action, p: NodeId, t: nat)
    requires GroupInv(g) && Enabled(g, a) && InTerm(g, a) && DurableTerm(g, a) && p in g.servers
    requires t in View(g).owner && !LeadsIn(g, p, t)
    ensures !LeadsIn(Next(g, a), p, t)
  {
    hide GroupInv, Next, Enabled, InTerm, DurableTerm, View, Inv, NodeSound, DiskSound;
    if LeadsIn(Next(g, a), p, t) {
      LeadersMade(g, a, p);
      StepKeeps(g, a);
      LeaderOwns(Next(g, a), p, t);
      StandingOf(g, p);
      var s := g.servers[p];
      if s.node.term + 1 == t {
        BallotsBelow(View(g), p, s.disk, s.node);
        NotOwned(View(g), p, t);
      }
      assert false;
    }
  }

  lemma {:induction false} GoneForGood(states: seq<Group>, actions: seq<Action>, i: nat, j: nat, p: NodeId, t: nat)
    requires Run(states, actions) && i <= j < |states| && p in states[i].servers
    requires t in View(states[i]).owner && !LeadsIn(states[i], p, t)
    ensures !LeadsIn(states[j], p, t)
    decreases j - i
  {
    hide GroupInv, Run, Next, Enabled, InTerm, DurableTerm, View;
    if i < j {
      RunKeeps(states, actions, i);
      StepOf(states, actions, i);
      NoReturn(states[i], actions[i], p, t);
      LeadersMade(states[i], actions[i], p);
      StepKeeps(states[i], actions[i]);
      GoneForGood(states, actions, i + 1, j, p, t);
    }
  }

  /** Leading a term at both ends of a stretch of a run is leading it throughout. */
  lemma LeadsThroughout(states: seq<Group>, actions: seq<Action>, i: nat, k: nat, j: nat, p: NodeId, t: nat)
    requires Run(states, actions) && i <= k <= j < |states|
    requires LeadsIn(states[i], p, t) && LeadsIn(states[j], p, t)
    ensures LeadsIn(states[k], p, t)
  {
    hide GroupInv, Run, View;
    RunKeeps(states, actions, i);
    LeaderOwns(states[i], p, t);
    RunGrows(states, actions, i, k);
    ServersStay(states, actions, i, k, p);
    if !LeadsIn(states[k], p, t) {
      GoneForGood(states, actions, k, j, p, t);
    }
  }

  lemma {:induction false} ServersStay(states: seq<Group>, actions: seq<Action>, i: nat, j: nat, p: NodeId)
    requires Run(states, actions) && i <= j < |states| && p in states[i].servers
    ensures p in states[j].servers
    decreases j
  {
    hide Run, Next, Enabled, InTerm, DurableTerm;
    if i < j {
      ServersStay(states, actions, i, j - 1, p);
      StepOf(states, actions, j - 1);
      LeadersMade(states[j - 1], actions[j - 1], p);
    }
  }

  // ---- what the leader has counted ------------------------------------------------

  /** A success of `q` that `p` counts in this action. */
  predicate Counts(g: Group, a: Action, p: NodeId, q: NodeId) {
    && a.CountAppend? && a.m.AppendAnswer? && a.m.to == p && a.m.from == q && a.m.appended.success
    && p in g.servers && a.m.appended.term <= g.servers[p].node.term
  }

  lemma AppendMatch(n: Node, command: Command, q: NodeId)
    ensures MatchOf(LeaderAppend(n, command).0, q) == MatchOf(n, q)
  {
  }

  lemma ReplyMatch(n: Node, peer: NodeId, r: AppendReply, q: NodeId)
    requires n.role == Leader && r.term <= n.term
    ensures MatchOf(HandleAppendReply(n, peer, r).0, q) ==
            if peer == q && r.success then r.matchIndex else MatchOf(n, q)
  {
  }

  /** While a node leads one term, what it holds `q` to have matched is the last success of
      `q`'s it counted. */
  lemma MatchMoves(g: Group, a: Action, p: NodeId, q: NodeId, t: nat)
    requires Enabled(g, a) && LeadsIn(g, p, t) && LeadsIn(Next(g, a), p, t)
    ensures MatchOf(Next(g, a).servers[p].node, q) ==
            if Counts(g, a, p, q) then a.m.appended.matchIndex else MatchOf(g.servers[p].node, q)
  {
    hide UpdateCommit, LeaderAppend, HandleAppendRequest, HandleAppendReply, Load,
      Remember, PerformAll, MakeAppendRequest, MakeVoteRequest, MatchOf, Died;
    var n := g.servers[p].node;
    match a
    case Timeout(_) =>
    case AskVote(_, _) =>
    case Vote(m) => VoteMatch(n, m.vote, q);
    case CountVote(m) =>
    case SendAppend(_, _) =>
    case TakeAppend(m) => if m.to == p { AppendRequestFollows(n, m.append); }
    case CountAppend(m) => if m.to == p { CountMatch(n, m.from, m.appended, q); }
    case ClientPropose(_, command) => AppendMatch(n, command, q);
    case Restart(_) => LoadFollows(n.cfg, g.servers[p].disk);
    case Die(block, done) => DiedServers(g, block, done);
  }

  lemma VoteMatch(n: Node, r: VoteRequest, q: NodeId)
    ensures MatchOf(HandleVoteRequest(n, r).0, q) == MatchOf(n, q)
  {
  }

  /** An append request of a leader's own term or a newer one ends its leading. */
  lemma AppendRequestFollows(n: Node, r: AppendRequest)
    ensures HandleAppendRequest(n, r).0.role == Leader ==> HandleAppendRequest(n, r).0 == n
  {
    MergeKeepsRole(Following(n, r.term), r.entries);
  }

  lemma CountMatch(n: Node, peer: NodeId, r: AppendReply, q: NodeId)
    requires n.role == Leader
    ensures r.term <= n.term ==>
              (MatchOf(HandleAppendReply(n, peer, r).0, q) ==
               if peer == q && r.success then r.matchIndex else MatchOf(n, q))
    ensures r.term > n.term ==> HandleAppendReply(n, peer, r).0.role == Follower
  {
    if r.term <= n.term { ReplyMatch(n, peer, r, q); }
  }

  // ---- the handshake --------------------------------------------------------------

  /** Between states `i` and `j`, `q` took a request of `p`'s that reached index `upTo` (at step
      `k`), `p` counted the answer (at step `c`), and no older answer of `q`'s was counted after. */
  ghost predicate Confirmed(states: seq<Group>, actions: seq<Action>, i: nat, j: nat, p: NodeId, q: NodeId,
                            t: nat, upTo: nat, k: nat, c: nat)
    requires Run(states, actions) && j < |states|
  {
    && i <= k < c < j
    && actions[k].TakeAppend?
    && var m := actions[k].m;
    && Enabled(states[k], actions[k])
    && m.to == q && m.append.term == t && m.append.prevIndex + |m.append.entries| >= upTo
    && var reply := HandleAppendRequest(states[k].servers[q].node, m.append).2;
    && reply.success
    && actions[c] == CountAppend(AppendAnswer(q, p, t, reply))
    && (forall x :: c < x < j && Counts(states[x], actions[x], p, q) ==> actions[x].m.appended.matchIndex >= upTo)
  }

  lemma {:induction false} MatchStays(states: seq<Group>, actions: seq<Action>, i: nat, c: nat, j: nat, p: NodeId,
                                      q: NodeId, t: nat, upTo: nat)
    requires Run(states, actions) && i <= c <= j < |states|
    requires LeadsIn(states[i], p, t) && LeadsIn(states[j], p, t) && LeadsIn(states[c], p, t)
    requires MatchOf(states[c].servers[p].node, q) >= upTo
    requires forall x :: c <= x < j && Counts(states[x], actions[x], p, q) ==> actions[x].m.appended.matchIndex >= upTo
    ensures MatchOf(states[j].servers[p].node, q) >= upTo
    decreases j - c
  {
    hide GroupInv, Next, Enabled, InTerm, DurableTerm, Initial, MatchOf;
    if c < j {
      StepOf(states, actions, c);
      LeadsThroughout(states, actions, i, c + 1, j, p, t);
      MatchMoves(states[c], actions[c], p, q, t);
      MatchStays(states, actions, i, c + 1, j, p, q, t, upTo);
    }
  }

  lemma ConfirmedMatch(states: seq<Group>, actions: seq<Action>, i: nat, j: nat, p: NodeId, q: NodeId,
                       t: nat, upTo: nat, k: nat, c: nat)
    requires Run(states, actions) && j < |states| && Confirmed(states, actions, i, j, p, q, t, upTo, k, c)
    requires LeadsIn(states[i], p, t) && LeadsIn(states[j], p, t)
    ensures MatchOf(states[j].servers[p].node, q) >= upTo
    ensures i <= k < |states| && q in states[k].servers && states[k].servers[q].node.term <= t
  {
    hide GroupInv, Next, InTerm, DurableTerm, Initial, MatchOf, HandleAppendRequest, View;
    RunKeeps(states, actions, k);
    var (n, ws, reply) := HandleAppendRequest(states[k].servers[q].node, actions[k].m.append);
    TakenIsLeaders(states[k], actions[k].m, n, ws, reply);
    LeadsThroughout(states, actions, i, c, j, p, t);
    LeadsThroughout(states, actions, i, c + 1, j, p, t);
    MatchMoves(states[c], actions[c], p, q, t);
    TakenTerm(states[k].servers[q].node, actions[k].m.append);
    MatchStays(states, actions, i, c + 1, j, p, q, t, upTo);
  }

  lemma TakenTerm(n: Node, r: AppendRequest)
    ensures HandleAppendRequest(n, r).2.success ==> HandleAppendRequest(n, r).2.term == r.term
  {
    hide AdvanceCommit;
    MergeKeepsTerm(Following(n, r.term), r.entries);
  }

  lemma {:induction false} MergeKeepsTerm(n: Node, entries: Log)
    ensures Merge(n, entries).0.term == n.term
    decreases |entries|
  {
    if entries != [] {
      MergeKeepsTerm(MergeOne(n, entries[0]).0, entries[1..]);
    }
  }

  /** The peers of a quorum that matched index `upTo` make it the majority's. */
  lemma QuorumHolds(v: Protocol, p: NodeId, n: Node, q: set<NodeId>, upTo: nat)
    requires p in v.term && Distinct(n.cfg.peers) && Members(n.cfg.peers) == v.term.Keys - {p}
    requires p in q && Quorum(q, v.term.Keys) && (forall u :: u in q && u != p ==> MatchOf(n, u) >= upTo)
    requires upTo <= LastIndex(n)
    ensures MajorityIndex(n) >= upTo
  {
    hide MajorityIndex, MatchOf;
    var holders := HoldersIn(n, n.cfg.peers, upTo);
    forall u | u in q - {p} ensures u in holders {
      assert u in Members(n.cfg.peers);
    }
    SubsetSize(q - {p}, holders);
    GroupSizes(v, p, n);
    MajorityIndexCounts(n, upTo);
  }

  lemma OwnTermAbove(v: Protocol, p: NodeId, n: Node, upTo: nat, c: nat)
    requires LeadersSourced(v) && LeaderSound(v, p, n)
    requires 1 <= upTo <= c <= |n.log| && n.log[upTo - 1].term == n.term
    ensures n.log[c - 1].term == n.term
  {
    LeaderLast(v, p, n);
    assert n.log[upTo - 1].term <= n.log[c - 1].term <= n.log[|n.log| - 1].term;
  }

  /** A leader that knows a majority to hold index `upTo`, an entry of its own term, commits at
      least that far. */
  lemma CommitReaches(v: Protocol, p: NodeId, n: Node, q: set<NodeId>, upTo: nat)
    requires Inv(v) && LeaderSound(v, p, n) && NodeSound(n)
    requires p in v.term && Members(n.cfg.peers) == v.term.Keys - {p}
    requires p in q && Quorum(q, v.term.Keys) && (forall u :: u in q && u != p ==> MatchOf(n, u) >= upTo)
    requires 1 <= upTo <= |n.log| && n.log[upTo - 1].term == n.term
    ensures UpdateCommit(n).0.commit >= upTo
  {
    hide Inv, LeaderSound, ApplyCommitted, Handed, MajorityIndex, NodeSound, MatchOf, Quorum;
    WholeLog(n);
    QuorumHolds(v, p, n, q, upTo);
    InvParts(v);
    MatchesReach(v, p, n);
    var c := MajorityIndex(n);
    OwnTermAbove(v, p, n, upTo, c);
    ApplyKeepsCommit(n.(commit := c));
  }

  lemma WholeLog(n: Node)
    requires NodeSound(n)
    ensures n.base == 0 && LastIndex(n) == |n.log| && Distinct(n.cfg.peers)
  {
    LastIsLength(n);
  }

  lemma InvParts(v: Protocol)
    requires Inv(v)
    ensures AcksSound(v) && LeadersSourced(v)
  {
  }

  lemma ApplyKeepsCommit(n: Node)
    ensures ApplyCommitted(n).0.commit == n.commit
  {
  }

  /** No peer has matched past the leader's log, so the index picked is in it. */
  lemma MatchesReach(v: Protocol, p: NodeId, n: Node)
    requires AcksSound(v) && LeaderSound(v, p, n) && LastIndex(n) == |n.log|
    ensures MajorityIndex(n) <= |n.log|
  {
    var ms := MatchList(n);
    forall i | 0 <= i < |ms| ensures ms[i] <= |n.log| {
      var q := n.cfg.peers[i];
      if MatchOf(n, q) > 0 {
        assert AckSound(v, Ack(q, n.term, MatchOf(n, q)));
      }
    }
    hide AcksSound, LeaderSound, MatchList;
    SortedLength(ms);
    SortedBound(ms, |n.log|);
  }

  // ---- what the index covers ------------------------------------------------------

  lemma ElectingQuorum(v: Protocol, u: nat) returns (voted: set<NodeId>)
    requires LeadersElected(v) && u in v.leaderLog
    ensures u in v.owner && ElectedBy(v, u, voted)
  {
    assert LeaderElected(v, u);
    var r: nat;
    voted, r :| ElectedAt(v, u, voted, r);
  }

  lemma VotedTerm(g: Group, y: NodeId, u: nat)
    requires GroupInv(g) && y in g.servers && (y, u) in View(g).ballots
    ensures u <= g.servers[y].node.term
  {
    InvOf(g);
    assert View(g).term[y] == g.servers[y].node.term;
  }

  ghost predicate AnsweredIn(states: seq<Group>, i: nat, y: NodeId, t: nat, at: nat) {
    i <= at < |states| && y in states[at].servers && states[at].servers[y].node.term <= t
  }

  /** No leader of a later term was there before a quorum answered in this one. */
  lemma NothingNewer(states: seq<Group>, actions: seq<Action>, i: nat, u: nat, t: nat, q: set<NodeId>,
                     at: map<NodeId, nat>)
    requires Run(states, actions) && i < |states| && u in View(states[i]).leaderLog
    requires Quorum(q, states[i].servers.Keys)
    requires forall y :: y in q ==> y in at && AnsweredIn(states, i, y, t, at[y])
    ensures u <= t
  {
    hide GroupInv, Run, LeadersElected, AcksSound, NodesSourced, LeadersSourced, BallotsSound, FreshCandidates;
    RunKeeps(states, actions, i);
    InvOf(states[i]);
    var v := View(states[i]);
    var voted := ElectingQuorum(v, u);
    assert v.term.Keys == states[i].servers.Keys;
    var y := QuorumsMeet(q, voted, v.term.Keys);
    RunGrows(states, actions, i, at[y]);
    RunKeeps(states, actions, at[y]);
    VotedTerm(states[at[y]], y, u);
  }

  /** What a node has committed when the read begins is in the log of the leader that serves it. */
  lemma BeforeTheRead(v: Protocol, log: Log, c: nat, bound: nat, t: nat)
    requires Inv(v) && CommitSound(v, log, c, bound) && c <= |log| && t in v.leaderLog
    requires forall u :: u in v.leaderLog ==> u <= t
    ensures Agree(log, v.leaderLog[t], c)
  {
    hide Inv;
    if c > 0 {
      var u: nat, m: nat :| CommitVia(v, log, c, bound, u, m);
      if u < t {
        LeaderCompleteness(v, u, m, t);
      }
    }
  }

  /** A node without peers is the whole group. */
  lemma Alone(g: Group, p: NodeId, x: NodeId)
    requires GroupInv(g) && p in g.servers && x in g.servers && g.servers[p].node.cfg.peers == []
    ensures x == p
  {
    hide GroupInv, Inv, NodeSound, DiskSound;
    StandingOf(g, p);
    assert Members(g.servers[p].node.cfg.peers) == {} == View(g).term.Keys - {p};
    assert x in View(g).term.Keys;
    assert x in View(g).term.Keys - {p} <==> x != p;
  }

  /** The read index: a leader that a quorum answered since the read began (each at a step of
      `took`, counted at a step of `counted`) serves it at an index that covers everything any
      node `x` had committed by then, even where it has not yet committed in its own term. */
  lemma ReadIndexCovers(states: seq<Group>, actions: seq<Action>, i: nat, j: nat, p: NodeId, t: nat, q: set<NodeId>,
                        took: map<NodeId, nat>, counted: map<NodeId, nat>, x: NodeId)
    requires Run(states, actions) && i <= j < |states|
    requires LeadsIn(states[i], p, t) && LeadsIn(states[j], p, t) && x in states[i].servers
    requires p in q && Quorum(q, states[i].servers.Keys)
    requires forall y :: y in q && y != p ==>
               y in took && y in counted
               && Confirmed(states, actions, i, j, p, y, t, |states[i].servers[p].node.log|, took[y], counted[y])
    ensures var readIndex := UpdateCommit(states[j].servers[p].node).0.commit;
            var n := states[i].servers[x].node;
            && n.commit <= readIndex && |states[i].servers[p].node.log| <= readIndex
            && Agree(n.log, states[j].servers[p].node.log, n.commit)
  {
    hide GroupInv, Run, View, Confirmed, Inv, ServerInv, UpdateCommit, CommitSound, LeaderSound, MatchOf, NodeSound;
    var L := |states[i].servers[p].node.log|;
    var at := map y | y in q :: if y == p then i else if y in took then took[y] else i;
    forall y | y in q
      ensures y in at && AnsweredIn(states, i, y, t, at[y])
      ensures y != p ==> MatchOf(states[j].servers[p].node, y) >= L
    {
      if y != p {
        ConfirmedMatch(states, actions, i, j, p, y, t, L, took[y], counted[y]);
      }
    }
    RunKeeps(states, actions, i);
    RunKeeps(states, actions, j);
    RunGrows(states, actions, i, j);
    LeaderOwns(states[i], p, t);
    LeaderOwns(states[j], p, t);
    var v := View(states[i]);
    forall u | u in v.leaderLog ensures u <= t {
      NothingNewer(states, actions, i, u, t, q, at);
    }
    CommitPersists(states, actions, i, i, x);
    InvOf(states[i]);
    var n := states[i].servers[x].node;
    BeforeTheRead(v, n.log, n.commit, LastTerm(n.log), t);
    ServedAt(states[i], states[j], p, t, q);
  }

  // ---- the read as it is served ---------------------------------------------------

  function AckingPeers(peers: seq<NodeId>, answers: seq<Option<AppendReply>>, t: nat): set<NodeId>
    requires |answers| == |peers|
  {
    set k | 0 <= k < |peers| && Acks(answers[k], t) :: peers[k]
  }

  lemma AckingMore(peers: seq<NodeId>, answers: seq<Option<AppendReply>>, t: nat)
    requires |answers| == |peers| > 0 && Distinct(peers)
    ensures var n := |peers| - 1;
            var before := AckingPeers(peers[..n], answers[..n], t);
            && peers[n] !in before
            && AckingPeers(peers, answers, t) == if Acks(answers[n], t) then before + {peers[n]} else before
  {
    hide Acks;
    var n := |peers| - 1;
    var before, now := AckingPeers(peers[..n], answers[..n], t), AckingPeers(peers, answers, t);
    forall y | y in now ensures y in before || (Acks(answers[n], t) && y == peers[n]) {
      var k :| 0 <= k < |peers| && Acks(answers[k], t) && y == peers[k];
      if k < n { assert peers[..n][k] == y && answers[..n][k] == answers[k]; }
    }
    forall y | y in before ensures y in now && y != peers[n] {
      var k :| 0 <= k < n && Acks(answers[..n][k], t) && y == peers[..n][k];
      assert answers[k] == answers[..n][k] && peers[k] == y;
    }
  }

  lemma {:induction false} AcksAreCounted(peers: seq<NodeId>, answers: seq<Option<AppendReply>>, t: nat)
    requires |answers| == |peers| && Distinct(peers)
    ensures CountAcks(answers, t) == |AckingPeers(peers, answers, t)|
  {
    hide Acks;
    if peers == [] {
      assert AckingPeers(peers, answers, t) == {};
    } else {
      AckingMore(peers, answers, t);
      hide AckingPeers;
      AcksAreCounted(peers[..|peers| - 1], answers[..|peers| - 1], t);
    }
  }

  /** A read is served if and only if the node led when it began and either is alone, or still leads that
      term when the peers have been asked and those that acknowledged it are a majority with it. */
  lemma ServedIff(began: Node, answered: Node, answers: seq<Option<AppendReply>>)
    requires answered.cfg == began.cfg && Distinct(began.cfg.peers) && |answers| == |began.cfg.peers|
    ensures ServedIndex(began, answered, answers).Some? <==>
            && began.role == Leader
            && (began.cfg.peers == []
                || (&& answered.role == Leader && answered.term == began.term
                    && |AckingPeers(began.cfg.peers, answers, began.term)| + 1 >= Majority(|began.cfg.peers| + 1)))
  {
    AcksAreCounted(began.cfg.peers, answers, began.term);
  }

  lemma AckingQuorum(g: Group, p: NodeId, answers: seq<Option<AppendReply>>, t: nat) returns (q: set<NodeId>)
    requires GroupInv(g) && p in g.servers && |answers| == |g.servers[p].node.cfg.peers|
    requires CountAcks(answers, t) + 1 >= Majority(GroupSize(g.servers[p].node))
    ensures p in q && Quorum(q, g.servers.Keys)
    ensures forall y :: y in q && y != p ==>
              exists k :: 0 <= k < |answers| && y == g.servers[p].node.cfg.peers[k] && Acks(answers[k], t)
  {
    hide GroupInv, Inv, DiskSound, BallotsStored, RoleSound, CommitSound;
    StandingOf(g, p);
    var n := g.servers[p].node;
    WholeLog(n);
    AcksAreCounted(n.cfg.peers, answers, t);
    var acking := AckingPeers(n.cfg.peers, answers, t);
    GroupSizes(View(g), p, n);
    assert View(g).term.Keys == g.servers.Keys;
    forall y | y in acking ensures y in g.servers.Keys && y != p {
      assert y in Members(n.cfg.peers);
    }
    q := acking + {p};
  }

  lemma SameSize(g: Group, g': Group, p: NodeId)
    requires GroupInv(g) && GroupInv(g') && p in g.servers && p in g'.servers && Grown(View(g), View(g'))
    ensures GroupSize(g'.servers[p].node) == GroupSize(g.servers[p].node)
  {
    hide GroupInv, Inv, DiskSound, BallotsStored, RoleSound, CommitSound;
    StandingOf(g, p);
    StandingOf(g', p);
    WholeLog(g.servers[p].node);
    WholeLog(g'.servers[p].node);
    GroupSizes(View(g), p, g.servers[p].node);
    GroupSizes(View(g'), p, g'.servers[p].node);
  }

  /** What is served covers everything committed before the read began: if every answer that was counted
      came to a request the peer took after it began, any node had committed no further by then. */
  lemma ServedCovers(states: seq<Group>, actions: seq<Action>, i: nat, j: nat, p: NodeId,
                     answers: seq<Option<AppendReply>>, took: map<NodeId, nat>, counted: map<NodeId, nat>, x: NodeId)
    requires Run(states, actions) && i <= j < |states| && p in states[i].servers && p in states[j].servers
    requires x in states[i].servers && |answers| == |states[i].servers[p].node.cfg.peers|
    requires var l := states[i].servers[p].node;
             forall k :: 0 <= k < |answers| && Acks(answers[k], l.term) ==>
               var y := l.cfg.peers[k];
               && y in took && y in counted
               && Confirmed(states, actions, i, j, p, y, l.term, |l.log|, took[y], counted[y])
    requires ServedIndex(states[i].servers[p].node, states[j].servers[p].node, answers).Some?
    ensures var l := states[i].servers[p].node;
            var index := ServedIndex(l, states[j].servers[p].node, answers).value;
            var n := states[i].servers[x].node;
            && n.commit <= index
            && (l.cfg.peers != [] ==> |l.log| <= index && Agree(n.log, states[j].servers[p].node.log, n.commit))
  {
    hide GroupInv, Run, View, Confirmed, Inv, UpdateCommit, Quorum, CountAcks;
    var l := states[i].servers[p].node;
    RunKeeps(states, actions, i);
    if l.cfg.peers == [] {
      Alone(states[i], p, x);
    } else {
      RunKeeps(states, actions, j);
      RunGrows(states, actions, i, j);
      SameSize(states[i], states[j], p);
      var q := AckingQuorum(states[i], p, answers, l.term);
      ReadIndexCovers(states, actions, i, j, p, l.term, q, took, counted, x);
    }
  }

  lemma ServedAt(g: Group, g': Group, p: NodeId, t: nat, q: set<NodeId>)
    requires GroupInv(g) && GroupInv(g') && Grown(View(g), View(g'))
    requires LeadsIn(g, p, t) && LeadsIn(g', p, t) && p in q && Quorum(q, g.servers.Keys)
    requires forall y :: y in q && y != p ==> MatchOf(g'.servers[p].node, y) >= |g.servers[p].node.log|
    ensures UpdateCommit(g'.servers[p].node).0.commit >= |g.servers[p].node.log|
  {
    hide GroupInv, Inv, UpdateCommit, LeaderSound, MatchOf, NodeSound, DiskSound, BallotsStored, CommitSound;
    StandingOf(g, p);
    StandingOf(g', p);
    LeaderOwns(g, p, t);
    LeaderOwns(g', p, t);
    assert View(g).term.Keys == g.servers.Keys;
    LeaderLastOf(View(g), p, g.servers[p].node);
    CommitReaches(View(g'), p, g'.servers[p].node, q, |g.servers[p].node.log|);
  }

  lemma LeaderLastOf(v: Protocol, p: NodeId, n: Node)
    requires Inv(v) && LeaderSound(v, p, n)
    ensures n.log != [] && n.log[|n.log| - 1].term == n.term
  {
    LeaderLast(v, p, n);
  }
}
