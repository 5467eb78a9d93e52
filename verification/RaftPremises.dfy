/**
  Why the premises of the whole-group results are there: a run that acts on a vote from an older
  term has two leaders in one, and a run that restarts a node into a term older than its entries
  has two nodes apply different commands at one index.
*/
module RaftPremises {
  import opened Common
  import opened RaftProtocol
  import opened RaftNode
  import opened RaftNodeFacts
  import opened RaftGroup

  /** Which of the two premises on runs is given up. */
  datatype Without = AskedTerm | StoredTerm

  ghost predicate Allowed(k: Without, g: Group, a: Action) {
    Enabled(g, a) && (k.AskedTerm? ==> DurableTerm(g, a)) && (k.StoredTerm? ==> InTerm(g, a))
  }

  ghost predicate Path(k: Without, states: seq<Group>, actions: seq<Action>) {
    && |states| == |actions| + 1
    && forall i :: 0 <= i < |actions| ==>
        Allowed(k, states[i], actions[i]) && states[i + 1] == Next(states[i], actions[i])
  }

  ghost predicate PathFrom(k: Without, states: seq<Group>, actions: seq<Action>, g: Group) {
    Path(k, states, actions) && Initial(states[0]) && states[|states| - 1] == g
  }

  /** Some run from an initial group gets to `g`. */
  ghost predicate Reachable(k: Without, g: Group) { exists states, actions :: PathFrom(k, states, actions, g) }

  lemma ReachInitial(k: Without, g: Group)
    requires Initial(g)
    ensures Reachable(k, g)
  {
    assert PathFrom(k, [g], [], g);
  }

  lemma ReachNext(k: Without, g: Group, a: Action)
    requires Reachable(k, g) && Allowed(k, g, a)
    ensures Reachable(k, Next(g, a))
  {
    hide Next, Enabled, InTerm, DurableTerm, Initial;
    var states, actions :| PathFrom(k, states, actions, g);
    assert PathFrom(k, states + [Next(g, a)], actions + [a], Next(g, a));
  }

  // ---- exchanges ------------------------------------------------------------------

  function Written(s: Server, n: Node, ws: seq<Write>): Server { Server(n, PerformAll(s.disk, ws)) }

  function Stood(s: Server): Server { var (n, ws) := StartElection(s.node); Written(s, n, ws) }

  function Started(s: Server): Server { var (n, ws) := Load(s.node.cfg, s.disk); Written(s, n, ws) }

  function Proposed(s: Server, command: Command): Server {
    var (n, ws) := RaftNode.Propose(s.node, command); Written(s, n, ws)
  }

  /** The voter and the candidate after one has asked the other and heard its answer. */
  function Polled(c: Server, v: Server): Server {
    var (n, ws, _) := HandleVoteRequest(v.node, MakeVoteRequest(c.node));
    Written(v, n, ws)
  }

  function Counted(c: Server, v: Server, q: NodeId): Server {
    var reply := HandleVoteRequest(v.node, MakeVoteRequest(c.node)).2;
    var (n, ws) := HandleVoteReply(c.node, q, reply);
    Written(c, n, ws)
  }

  function Request(l: Server, q: NodeId): AppendRequest
    requires MakeAppendRequest(l.node, q).Some?
  {
    MakeAppendRequest(l.node, q).value
  }

  function Taken(f: Server, r: AppendRequest): Server {
    var (n, ws, _) := HandleAppendRequest(f.node, r);
    Written(f, n, ws)
  }

  function Acked(l: Server, f: Server, q: NodeId): Server
    requires MakeAppendRequest(l.node, q).Some?
  {
    var reply := HandleAppendRequest(f.node, Request(l, q)).2;
    var (n, ws) := HandleAppendReply(l.node, q, reply);
    Written(l, n, ws)
  }

  lemma Stands(k: Without, g: Group, p: NodeId) returns (g': Group)
    requires Reachable(k, g) && p in g.servers
    ensures Reachable(k, g') && g'.servers == g.servers[p := Stood(g.servers[p])]
    ensures forall m :: m in g.sent ==> m in g'.sent
  {
    hide Reachable, StartElection;
    g' := Next(g, Timeout(p));
    ReachNext(k, g, Timeout(p));
  }

  lemma Proposes(k: Without, g: Group, p: NodeId, command: Command) returns (g': Group)
    requires Reachable(k, g) && p in g.servers && g.servers[p].node.role == Leader
    ensures Reachable(k, g') && g'.servers == g.servers[p := Proposed(g.servers[p], command)]
  {
    hide Reachable, LeaderAppend;
    g' := Next(g, ClientPropose(p, command));
    ReachNext(k, g, ClientPropose(p, command));
  }

  lemma Restarts(g: Group, p: NodeId) returns (g': Group)
    requires Reachable(StoredTerm, g) && p in g.servers
    ensures Reachable(StoredTerm, g') && g'.servers == g.servers[p := Started(g.servers[p])]
  {
    hide Reachable, Load;
    g' := Next(g, Restart(p));
    ReachNext(StoredTerm, g, Restart(p));
  }

  /** A candidate asks, and the voter answers. */
  lemma Asks(k: Without, g: Group, p: NodeId, q: NodeId) returns (g': Group)
    requires Reachable(k, g) && p in g.servers && q in g.servers && p != q
    requires g.servers[p].node.role == Candidate && q in g.servers[p].node.cfg.peers && g.servers[p].node.cfg.id == p
    ensures Reachable(k, g') && g'.servers == g.servers[q := Polled(g.servers[p], g.servers[q])]
    ensures VoteAnswer(q, p, g.servers[p].node.term,
                       HandleVoteRequest(g.servers[q].node, MakeVoteRequest(g.servers[p].node)).2) in g'.sent
    ensures forall m :: m in g.sent ==> m in g'.sent
  {
    hide Reachable, HandleVoteRequest, Remember;
    var g1 := Next(g, AskVote(p, q));
    ReachNext(k, g, AskVote(p, q));
    var m := VoteAsk(q, MakeVoteRequest(g.servers[p].node));
    assert m in g1.sent;
    g' := Next(g1, Vote(m));
    ReachNext(k, g1, Vote(m));
  }

  /** The candidate takes an answer; one it asked for in an older term only without that premise. */
  lemma Hears(k: Without, g: Group, p: NodeId, q: NodeId, asked: nat, reply: VoteReply) returns (g': Group)
    requires Reachable(k, g) && p in g.servers && VoteAnswer(q, p, asked, reply) in g.sent
    requires k.StoredTerm? ==> asked == g.servers[p].node.term
    ensures Reachable(k, g')
    ensures var (n, ws) := HandleVoteReply(g.servers[p].node, q, reply);
            g'.servers == g.servers[p := Written(g.servers[p], n, ws)]
    ensures forall m :: m in g.sent ==> m in g'.sent
  {
    hide Reachable, HandleVoteReply, Remember;
    var m := VoteAnswer(q, p, asked, reply);
    g' := Next(g, CountVote(m));
    ReachNext(k, g, CountVote(m));
  }

  lemma Polls(k: Without, g: Group, p: NodeId, q: NodeId) returns (g': Group)
    requires Reachable(k, g) && p in g.servers && q in g.servers && p != q
    requires g.servers[p].node.role == Candidate && q in g.servers[p].node.cfg.peers && g.servers[p].node.cfg.id == p
    ensures Reachable(k, g')
    ensures g'.servers ==
            g.servers[q := Polled(g.servers[p], g.servers[q])][p := Counted(g.servers[p], g.servers[q], q)]
  {
    hide Reachable, HandleVoteRequest, HandleVoteReply;
    var g1 := Asks(k, g, p, q);
    var reply := HandleVoteRequest(g.servers[q].node, MakeVoteRequest(g.servers[p].node)).2;
    g' := Hears(k, g1, p, q, g.servers[p].node.term, reply);
  }

  /** A leader sends what a follower is missing, and the follower takes it. */
  lemma Sends(k: Without, g: Group, p: NodeId, q: NodeId) returns (g': Group)
    requires Reachable(k, g) && p in g.servers && q in g.servers && p != q
    requires g.servers[p].node.role == Leader && q in g.servers[p].node.cfg.peers && g.servers[p].node.cfg.id == p
    requires MakeAppendRequest(g.servers[p].node, q).Some?
    ensures Reachable(k, g') && g'.servers == g.servers[q := Taken(g.servers[q], Request(g.servers[p], q))]
    ensures AppendAnswer(q, p, g.servers[p].node.term,
                         HandleAppendRequest(g.servers[q].node, Request(g.servers[p], q)).2) in g'.sent
  {
    hide Reachable, HandleAppendRequest, Remember, Above, EntryAt, LastIndex;
    var g1 := Next(g, SendAppend(p, q));
    ReachNext(k, g, SendAppend(p, q));
    var m := AppendAsk(q, Request(g.servers[p], q));
    assert m in g1.sent;
    g' := Next(g1, TakeAppend(m));
    ReachNext(k, g1, TakeAppend(m));
  }

  lemma Replicates(k: Without, g: Group, p: NodeId, q: NodeId) returns (g': Group)
    requires Reachable(k, g) && p in g.servers && q in g.servers && p != q
    requires g.servers[p].node.role == Leader && q in g.servers[p].node.cfg.peers && g.servers[p].node.cfg.id == p
    requires MakeAppendRequest(g.servers[p].node, q).Some?
    ensures Reachable(k, g')
    ensures g'.servers ==
            g.servers[q := Taken(g.servers[q], Request(g.servers[p], q))][p := Acked(g.servers[p], g.servers[q], q)]
  {
    hide Reachable, HandleAppendRequest, HandleAppendReply, MakeAppendRequest, Remember;
    var g1 := Sends(k, g, p, q);
    var reply := HandleAppendRequest(g.servers[q].node, Request(g.servers[p], q)).2;
    var m := AppendAnswer(q, p, g.servers[p].node.term, reply);
    g' := Next(g1, CountAppend(m));
    ReachNext(k, g1, CountAppend(m));
  }

  // ---- what a call makes of a small node ------------------------------------------

  lemma StandsAlone(s: Server)
    requires s.node.role != Leader && s.node.cfg.peers != []
    ensures Stood(s) == Server(s.node.(role := Candidate, term := s.node.term + 1, votedFor := Some(s.node.cfg.id),
                                       votes := {s.node.cfg.id}),
                               s.disk.(term := s.node.term + 1, votedFor := Some(s.node.cfg.id)))
  {
    PerformOne(s.disk, SaveMeta(s.node.term + 1, Some(s.node.cfg.id)));
  }

  /** A voter that hears of a newer term from a candidate whose log is no shorter than its own. */
  lemma VotesFor(c: Server, v: Server)
    requires c.node.term > v.node.term
    requires LastLogTerm(c.node) > LastLogTerm(v.node)
             || (LastLogTerm(c.node) == LastLogTerm(v.node) && LastIndex(c.node) >= LastIndex(v.node))
    ensures HandleVoteRequest(v.node, MakeVoteRequest(c.node)).2 == VoteReply(c.node.term, true)
    ensures Polled(c, v) == Server(v.node.(role := Follower, term := c.node.term, votedFor := Some(c.node.cfg.id),
                                           votes := {}),
                                   v.disk.(term := c.node.term, votedFor := Some(c.node.cfg.id)))
  {
    PerformTwo(v.disk, SaveMeta(c.node.term, None), SaveMeta(c.node.term, Some(c.node.cfg.id)));
  }

  /** A vote short of a majority. */
  lemma OneMore(n: Node, q: NodeId)
    requires n.role == Candidate && |n.votes + {q}| < Majority(GroupSize(n))
    ensures HandleVoteReply(n, q, VoteReply(n.term, true)) == (n.(votes := n.votes + {q}), [])
  {
  }

  lemma {:induction false} AllZero(n: Node, s: seq<nat>)
    requires forall i :: 0 <= i < |s| ==> s[i] == 0
    ensures Sorted(s) == s
    decreases |s|
  {
    if s != [] {
      AllZero(n, s[1..]);
      assert s == [0] + s[1..];
    }
  }

  /** With nothing matched by anyone and peers to match it, nothing commits. */
  lemma NothingCounts(n: Node)
    requires |n.cfg.peers| >= 2 && forall p :: p in n.matched ==> n.matched[p] == 0
    ensures UpdateCommit(n) == (n, [])
  {
    AllZero(n, MatchList(n));
  }

  /** The vote that makes a leader, with the entry that opens its term. */
  lemma Wins(s: Server, q: NodeId, r: VoteReply)
    requires s.node.role == Candidate && r.granted && r.term <= s.node.term
    requires |s.node.votes + {q}| >= Majority(GroupSize(s.node)) && |s.node.cfg.peers| >= 2
    ensures var e := Entry(s.node.term, LastIndex(s.node) + 1, NOOP);
            var (n, ws) := HandleVoteReply(s.node, q, r);
            && n == s.node.(role := Leader, votes := {}, log := s.node.log + [e],
                            next := Positions(s.node.cfg.peers, e.index), matched := Positions(s.node.cfg.peers, 0))
            && Written(s, n, ws).disk == s.disk.(entries := s.disk.entries[e.index := e])
  {
    hide UpdateCommit, LastIndex;
    var e := Entry(s.node.term, LastIndex(s.node) + 1, NOOP);
    var m := s.node.(votes := s.node.votes + {q});
    var l := m.(role := Leader, votes := {}, log := m.log + [e], next := Positions(m.cfg.peers, e.index),
                matched := Positions(m.cfg.peers, 0));
    assert LastIndex(m) == LastIndex(s.node) by { SameLast(m, s.node); }
    assert LastIndex(l.(log := m.log)) == LastIndex(s.node) by { SameLast(l.(log := m.log), s.node); }
    NothingCounts(l);
    PerformOne(s.disk, PutEntry(e));
    assert [PutEntry(e)] + [] == [PutEntry(e)];
  }

  lemma SameLast(n: Node, m: Node)
    requires n.log == m.log && n.base == m.base
    ensures LastIndex(n) == LastIndex(m)
  {
  }

  // ---- a vote from an older term --------------------------------------------------

  function Idle(id: NodeId, peers: seq<NodeId>): Node {
    Node(Config(id, peers, 0), Follower, 0, None, [], 0, 0, 0, 0, {}, map[], map[], [])
  }

  lemma NeverRun(id: NodeId, peers: seq<NodeId>)
    ensures FreshServer(id, peers) == Server(Idle(id, peers), EMPTY_DISK)
  {
    assert EMPTY_DISK.entries.Keys == {};
  }

  ghost predicate LeadsTogether(g: Group, p: NodeId, q: NodeId) {
    && p != q && p in g.servers && q in g.servers && g.servers[p].node.term == g.servers[q].node.term
    && g.servers[p].node.role == Leader && g.servers[q].node.role == Leader
  }

  function Three(): Group {
    Group(map[0 := FreshServer(0, [1, 2]), 1 := FreshServer(1, [0, 2]), 2 := FreshServer(2, [0, 1])], {},
          History(map[], map[], map[], {}, []))
  }

  lemma ThreeInitial()
    ensures Initial(Three())
  {
    hide FreshServer;
    NeverRun(0, [1, 2]);
    NeverRun(1, [0, 2]);
    NeverRun(2, [0, 1]);
    var g := Three();
    forall p | p in g.servers
      ensures var peers := g.servers[p].node.cfg.peers;
              g.servers[p] == FreshServer(p, peers) && Distinct(peers) && Members(peers) == g.servers.Keys - {p} {
    }
  }

  /** Node 0 asks in term 1 and hears in term 2, where node 1 goes on to vote for node 2. */
  lemma TwoLeaders() returns (g: Group)
    ensures Reachable(AskedTerm, g) && LeadsTogether(g, 0, 2)
  {
    hide Reachable, Initial, Stood, Polled, HandleVoteReply, HandleVoteRequest, FreshServer, LastIndex, LastLogTerm;
    var k := AskedTerm;
    NeverRun(0, [1, 2]);
    NeverRun(1, [0, 2]);
    NeverRun(2, [0, 1]);
    ThreeInitial();
    ReachInitial(k, Three());
    var g0 := Three();
    StandsAlone(g0.servers[0]);
    var g1 := Stands(k, g0, 0);
    NoLog(g1.servers[0].node);
    NoLog(g1.servers[1].node);
    VotesFor(g1.servers[0], g1.servers[1]);
    var g2 := Asks(k, g1, 0, 1);
    StandsAlone(g2.servers[0]);
    var g3 := Stands(k, g2, 0);
    assert |{0, 1}| == 2;
    assert g3.servers[0].node.votes + {1} == {0, 1};
    Wins(g3.servers[0], 1, VoteReply(1, true));
    var g4 := Hears(k, g3, 0, 1, 1, VoteReply(1, true));
    StandsAlone(g4.servers[2]);
    var g5 := Stands(k, g4, 2);
    StandsAlone(g5.servers[2]);
    var g6 := Stands(k, g5, 2);
    NoLog(g6.servers[2].node);
    NoLog(g6.servers[1].node);
    VotesFor(g6.servers[2], g6.servers[1]);
    assert g6.servers[2].node.votes + {1} == {2, 1} && |{2, 1}| == 2;
    Wins(g6.servers[2], 1, VoteReply(2, true));
    g := Polls(k, g6, 2, 1);
  }

  lemma NoLog(n: Node)
    requires n.log == [] && n.base == 0 && n.baseTerm == 0
    ensures LastIndex(n) == 0 && LastLogTerm(n) == 0
  {
  }

  /** A crash between two writes of one call breaks the premise on stored terms by itself: a request
      of a newer term stores its entry before it stores the term. */
  lemma EntryBeforeTerm(cfg: Config, term: nat, newer: nat, leader: NodeId, command: Command)
    requires newer > term
    ensures var n := Idle(cfg.id, cfg.peers).(cfg := cfg, term := term);
            var d := EMPTY_DISK.(term := term);
            var r := AppendRequest(newer, leader, 0, 0, [Entry(newer, 1, command)], 0);
            var ws := HandleAppendRequest(n, r).1;
            var died := PerformAll(d, ws[..1]);
            && |ws| == 2 && HandleAppendRequest(n, r).2.success
            && LastTerm(LoadLog(died.entries)) == newer > died.term == term
            && PerformAll(d, ws).term == newer
  {
    var n := Idle(cfg.id, cfg.peers).(cfg := cfg, term := term);
    var d := EMPTY_DISK.(term := term);
    var e := Entry(newer, 1, command);
    var r := AppendRequest(newer, leader, 0, 0, [e], 0);
    assert [e][1..] == [];
    var n2 := Concede(NewerTerm(n, newer));
    assert MergeOne(n2, e) == (n2.(log := [e]), [PutEntry(e)]) by { assert [] + [e] == [e]; }
    assert Merge(n2.(log := [e]), []) == (n2.(log := [e]), []);
    assert Merge(n2, [e]).1 == [PutEntry(e)] by { assert [PutEntry(e)] + [] == [PutEntry(e)]; }
    var ws := HandleAppendRequest(n, r).1;
    assert ws == [PutEntry(e), SaveMeta(newer, None)];
    assert ws[..1] == [PutEntry(e)];
    PerformOne(d, PutEntry(e));
    PerformTwo(d, ws[0], ws[1]);
    assert Mirrors(map[1 := e], [e], 0);
    LoadMirrors(map[1 := e], [e], 0);
    LoadIndices(map[1 := e]);
  }
}
