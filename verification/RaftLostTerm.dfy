/**
  A run of five nodes in which a term that was only heard of, in an answer, is forgotten by a
  restart: the entry acknowledged in it is given up to an older leader, and two nodes apply
  different commands at one index.
*/
module RaftLostTerm {
  import opened Common
  import opened RaftProtocol
  import opened RaftNode
  import opened RaftNodeFacts
  import opened RaftGroup
  import opened RaftPremises

  const N1 := Entry(1, 1, NOOP)
  const N2 := Entry(2, 1, NOOP)
  const Y := Entry(2, 2, [1])
  const N3 := Entry(3, 2, NOOP)

  // ---- what a call makes of a small node ------------------------------------------

  /** Asking a node that is in a newer term: nothing is granted, and nothing is written down. */
  lemma HearsNewer(c: Server, v: Server, q: NodeId)
    requires c.node.term < v.node.term
    ensures Polled(c, v) == v
    ensures Counted(c, v, q) == Server(c.node.(term := v.node.term, role := Follower, votedFor := None, votes := {}),
                                       c.disk)
  {
  }

  lemma TakesCommand(s: Server, command: Command)
    requires s.node.role == Leader && |s.node.cfg.peers| >= 2
    requires forall p :: p in s.node.matched ==> s.node.matched[p] == 0
    ensures var e := Entry(s.node.term, LastIndex(s.node) + 1, command);
            Proposed(s, command) == Server(s.node.(log := s.node.log + [e]),
                                           s.disk.(entries := s.disk.entries[e.index := e]))
  {
    hide UpdateCommit, LastIndex;
    var e := Entry(s.node.term, LastIndex(s.node) + 1, command);
    NothingCounts(s.node.(log := s.node.log + [e]));
    PerformOne(s.disk, PutEntry(e));
    assert [PutEntry(e)] + [] == [PutEntry(e)];
  }

  lemma RequestAt(n: Node, q: NodeId, prev: nat)
    requires n.base == 0 && n.baseTerm == 0 && Indexed(n.log, 0) && q in n.next && n.next[q] == prev + 1
    requires prev <= |n.log|
    ensures MakeAppendRequest(n, q) ==
            Some(AppendRequest(n.term, n.cfg.id, prev, if prev == 0 then 0 else n.log[prev - 1].term, n.log[prev..],
                               n.commit))
  {
    AboveIndexed(n.log, 0, prev);
  }

  /** A follower that ends up with the whole of what was sent. */
  ghost predicate CanTake(f: Server, r: AppendRequest, sent: Log) {
    && f.node.base == 0 && f.node.baseTerm == 0 && f.node.commit == 0 && f.node.applied == 0 && f.node.role == Follower
    && Indexed(f.node.log, 0) && Mirrors(f.disk.entries, f.node.log, 0) && Indexed(sent, 0)
    && r.term == f.node.term && r.prevIndex <= |f.node.log| && r.prevIndex < |sent| && r.entries == sent[r.prevIndex..]
    && (r.prevTerm == if r.prevIndex == 0 then 0 else f.node.log[r.prevIndex - 1].term)
    && Agree(f.node.log, sent, r.prevIndex) && r.commit == 0
    && (forall i :: r.prevIndex <= i < |f.node.log| && i < |sent| ==> f.node.log[i].term != sent[i].term)
  }

  lemma Takes(f: Server, r: AppendRequest, sent: Log)
    requires CanTake(f, r, sent)
    ensures HandleAppendRequest(f.node, r).2 == AppendReply(r.term, true, |sent|)
    ensures Taken(f, r).node == f.node.(log := sent)
    ensures var d := Taken(f, r).disk; d == f.disk.(entries := d.entries) && Mirrors(d.entries, sent, 0)
  {
    hide Merge;
    var n := f.node;
    assert sent[r.prevIndex..|sent|] == r.entries;
    MergeTakes(n, sent, r.prevIndex, |sent|);
    MergeMirrors(n, f.disk, r.entries);
    var (n', ws) := Merge(n, r.entries);
    assert n'.log == sent;
    assert ws + [] + [] == ws;
  }

  lemma Refuses(f: Server, r: AppendRequest)
    requires r.term == f.node.term && f.node.role == Follower && r.prevIndex > LastIndex(f.node)
    ensures Taken(f, r) == f && HandleAppendRequest(f.node, r).2 == AppendReply(r.term, false, 0)
  {
  }

  lemma PickedIsHeld(n: Node)
    requires forall p :: p in n.matched ==> n.matched[p] <= LastIndex(n)
    ensures MajorityIndex(n) <= LastIndex(n)
  {
    var s := MatchList(n);
    SortedLength(s);
    SortedBound(s, LastIndex(n));
    var all := Sorted(s) + [LastIndex(n)];
    var k := |all| - Majority(GroupSize(n));
  }

  /** One peer of four is not enough to commit. */
  lemma OnePeer(n: Node, q: NodeId)
    requires Distinct(n.cfg.peers) && |n.cfg.peers| == 4 && LastIndex(n) >= 1
    requires forall p :: p in n.matched && p != q ==> n.matched[p] == 0
    ensures UpdateCommit(n) == (n, [])
  {
    hide MajorityIndex;
    MajorityIndexCounts(n, 1);
    var held := HoldersIn(n, n.cfg.peers, 1);
    assert held <= {q};
    SubsetSize(held, {q});
  }

  /** Two peers of four are, for an entry of the leader's own term. */
  lemma TwoPeers(n: Node, q: NodeId, r: NodeId)
    requires Distinct(n.cfg.peers) && |n.cfg.peers| == 4 && q != r && q in n.cfg.peers && r in n.cfg.peers
    requires n.base == 0 && n.commit == 0 && n.applied == 0 && |n.log| == 2 && Indexed(n.log, 0)
    requires n.log[1].term == n.term
    requires n.cfg.interval == 0 && q in n.matched && n.matched[q] == 2 && r in n.matched && n.matched[r] == 2
    requires forall p :: p in n.matched ==> n.matched[p] <= 2
    ensures UpdateCommit(n).0 == n.(commit := 2, applied := 2, machine := n.machine + Handed(n.log))
  {
    hide MajorityIndex, Handed, ApplyLoop;
    MajorityIndexCounts(n, 2);
    SubsetSize({q, r}, HoldersIn(n, n.cfg.peers, 2));
    assert |{q, r}| == 2;
    PickedIsHeld(n);
    ApplyLoopHands(n.(commit := 2));
    assert n.log[0..2] == n.log;
  }

  lemma ComesBack(s: Server, log: Log)
    requires s.node.cfg.interval == 0 && Mirrors(s.disk.entries, log, 0) && s.disk.commit == 0
    requires s.disk.snapshot == None
    ensures var n := Idle(s.node.cfg.id, s.node.cfg.peers);
            Started(s) == Server(n.(term := s.disk.term, votedFor := s.disk.votedFor, log := log), s.disk)
  {
    hide LoadLog;
    LoadMirrors(s.disk.entries, log, 0);
    LoadIndices(s.disk.entries);
  }

  // ---- five nodes -----------------------------------------------------------------

  const ALL: set<NodeId> := {0, 1, 2, 3, 4}

  function Peers(id: NodeId): seq<NodeId> {
    match id
    case 0 => [1, 2, 3, 4]
    case 1 => [0, 2, 3, 4]
    case 2 => [0, 1, 3, 4]
    case 3 => [0, 1, 2, 4]
    case _ => [0, 1, 2, 3]
  }

  function Follows(id: NodeId, term: nat, votedFor: Option<NodeId>, log: Log): Node {
    Idle(id, Peers(id)).(term := term, votedFor := votedFor, log := log)
  }

  function Leads(id: NodeId, term: nat, log: Log, next: map<NodeId, nat>, matched: map<NodeId, nat>): Node {
    Follows(id, term, Some(id), log).(role := Leader, next := next, matched := matched)
  }

  function Kept(term: nat, votedFor: Option<NodeId>, entries: map<nat, Entry>): Disk {
    Disk(term, votedFor, entries, 0, None)
  }

  ghost predicate Five(g: Group, a: Server, b: Server, c: Server, d: Server, e: Server) {
    Reachable(StoredTerm, g) && g.servers == map[0 := a, 1 := b, 2 := c, 3 := d, 4 := e]
  }

  function New(id: NodeId): Server { Server(Idle(id, Peers(id)), EMPTY_DISK) }

  function Voted(id: NodeId, term: nat, candidate: NodeId): Server {
    Server(Follows(id, term, Some(candidate), []), Kept(term, Some(candidate), map[]))
  }

  function Elected(id: NodeId, e: Entry): Server {
    Server(Leads(id, e.term, [e], Positions(Peers(id), e.index), Positions(Peers(id), 0)),
           Kept(e.term, Some(id), map[e.index := e]))
  }

  lemma FiveStart() returns (g: Group)
    ensures Five(g, New(0), New(1), New(2), New(3), New(4))
  {
    hide FreshServer, Reachable, Distinct, Members, Peers;
    g := Group(map[0 := New(0), 1 := New(1), 2 := New(2), 3 := New(3), 4 := New(4)], {},
               History(map[], map[], map[], {}, []));
    forall p | p in g.servers
      ensures var peers := g.servers[p].node.cfg.peers;
              g.servers[p] == FreshServer(p, peers) && Distinct(peers) && Members(peers) == g.servers.Keys - {p} {
      NeverRun(p, Peers(p));
      KnowsOthers(p);
    }
    assert g.servers.Keys == ALL;
    ReachInitial(StoredTerm, g);
  }

  lemma KnowsOthers(p: NodeId)
    requires p in ALL
    ensures Distinct(Peers(p)) && Members(Peers(p)) == ALL - {p}
  {
  }

  /** A vote that is asked for and given, and is not yet enough. */
  lemma GetsOne(g: Group, p: NodeId, q: NodeId) returns (g': Group)
    requires Reachable(StoredTerm, g) && p in g.servers && q in g.servers && p != q
    requires var c, v := g.servers[p].node, g.servers[q].node;
             && c.role == Candidate && c.votes == {p} && c.cfg.id == p && q in c.cfg.peers && |c.cfg.peers| == 4
             && c.term > v.term
             && LastLogTerm(c) == LastLogTerm(v) && LastIndex(c) >= LastIndex(v)
    ensures Reachable(StoredTerm, g')
    ensures var c, v := g.servers[p], g.servers[q];
            g'.servers == g.servers[q := Server(v.node.(role := Follower, term := c.node.term, votedFor := Some(p),
                                                        votes := {}),
                                                v.disk.(term := c.node.term, votedFor := Some(p)))]
                                   [p := Server(c.node.(votes := {p, q}), c.disk)]
  {
    hide Reachable, HandleVoteRequest, HandleVoteReply, Polled, LastIndex, LastLogTerm;
    var c, v := g.servers[p], g.servers[q];
    VotesFor(c, v);
    assert {p} + {q} == {p, q} && |{p, q}| == 2;
    OneMore(c.node, q);
    NothingWritten(c, c.node.(votes := {p, q}));
    g' := Polls(StoredTerm, g, p, q);
  }

  /** The vote that makes it three of five. */
  lemma GetsThird(g: Group, p: NodeId, q: NodeId, r: NodeId) returns (g': Group)
    requires Reachable(StoredTerm, g) && p in g.servers && r in g.servers && p != q && q != r && p != r
    requires var c, v := g.servers[p].node, g.servers[r].node;
             && c.role == Candidate && c.votes == {p, q} && c.cfg.id == p && r in c.cfg.peers && |c.cfg.peers| == 4
             && c.term > v.term && (LastLogTerm(c) > LastLogTerm(v) || LastLogTerm(c) == LastLogTerm(v))
             && LastIndex(c) >= LastIndex(v)
    ensures Reachable(StoredTerm, g')
    ensures var c, v := g.servers[p], g.servers[r];
            var e := Entry(c.node.term, LastIndex(c.node) + 1, NOOP);
            g'.servers == g.servers[r := Server(v.node.(role := Follower, term := c.node.term, votedFor := Some(p),
                                                        votes := {}),
                                                v.disk.(term := c.node.term, votedFor := Some(p)))]
                                   [p := Server(c.node.(role := Leader, votes := {}, log := c.node.log + [e],
                                                        next := Positions(c.node.cfg.peers, e.index),
                                                        matched := Positions(c.node.cfg.peers, 0)),
                                                c.disk.(entries := c.disk.entries[e.index := e]))]
  {
    hide Reachable, HandleVoteRequest, HandleVoteReply, Polled, LastIndex, LastLogTerm, Positions;
    var c, v := g.servers[p], g.servers[r];
    VotesFor(c, v);
    assert {p, q} + {r} == {p, q, r} && |{p, q, r}| == 3;
    Wins(c, r, VoteReply(c.node.term, true));
    g' := Polls(StoredTerm, g, p, r);
  }

  /** The votes of the last two nodes make a candidate that asks them the leader of its term. */
  lemma WinsLastTwo(g: Group, p: NodeId, t: nat) returns (g': Group)
    requires p < 2 && Reachable(StoredTerm, g) && p in g.servers && 3 in g.servers && 4 in g.servers
    requires var c := g.servers[p];
             c.node == Follows(p, t, Some(p), []).(role := Candidate, votes := {p}) && c.disk == Kept(t, Some(p), map[])
    requires NoEntries(g.servers[3], 3, t) && NoEntries(g.servers[4], 4, t)
    ensures Reachable(StoredTerm, g')
    ensures g'.servers == g.servers[3 := Voted(3, t, p)][4 := Voted(4, t, p)][p := Elected(p, Entry(t, 1, NOOP))]
  {
    hide Reachable, Positions, LastIndex, LastLogTerm;
    NoLog(g.servers[p].node);
    NoLog(g.servers[3].node);
    var g1 := GetsOne(g, p, 3);
    NoLog(g1.servers[p].node);
    NoLog(g1.servers[4].node);
    g' := GetsThird(g1, p, 3, 4);
    var e := Entry(t, 1, NOOP);
    assert [] + [e] == [e];
    assert map[][1 := e] == map[1 := e];
  }

  /** A node that has followed and voted, and has no entries. */
  predicate NoEntries(s: Server, id: NodeId, t: nat) {
    && s.node.term < t && s.node == Follows(id, s.node.term, s.node.votedFor, [])
    && s.disk == Kept(s.disk.term, s.disk.votedFor, map[])
  }

  lemma NothingWritten(s: Server, n: Node)
    ensures Written(s, n, []) == Server(n, s.disk)
  {
  }

  // ---- the run --------------------------------------------------------------------

  ghost predicate Reached(g: Group) { Reachable(StoredTerm, g) && g.servers.Keys == ALL }

  /** Node 0 leads term 1 and node 1 leads term 2, by the votes of nodes 3 and 4; node 2 knows nothing. */
  lemma TwoElections() returns (g: Group)
    ensures Reached(g) && g.servers[0] == Elected(0, N1) && g.servers[1] == Elected(1, N2) && g.servers[2] == New(2)
    ensures g.servers[3] == Voted(3, 2, 1) && g.servers[4] == Voted(4, 2, 1)
  {
    hide Reachable, Stood, Positions;
    var g0 := FiveStart();
    StandsAlone(g0.servers[0]);
    var g1 := Stands(StoredTerm, g0, 0);
    var g2 := WinsLastTwo(g1, 0, 1);
    StandsAlone(g2.servers[1]);
    var g3 := Stands(StoredTerm, g2, 1);
    StandsAlone(g3.servers[1]);
    var g4 := Stands(StoredTerm, g3, 1);
    g := WinsLastTwo(g4, 1, 2);
  }

  /** Node 2 stands in term 1, asks node 1, and hears of term 2: its storage still says 1. */
  lemma TermHeard() returns (g: Group)
    ensures Reached(g) && g.servers[0] == Elected(0, N1) && g.servers[1] == Elected(1, N2)
    ensures g.servers[2] == Server(Follows(2, 2, None, []), Kept(1, Some(2), map[]))
    ensures g.servers[3] == Voted(3, 2, 1) && g.servers[4] == Voted(4, 2, 1)
  {
    hide Reachable, Stood, Positions, Polled, Counted;
    var g0 := TwoElections();
    StandsAlone(g0.servers[2]);
    var g1 := Stands(StoredTerm, g0, 2);
    HearsNewer(g1.servers[2], g1.servers[1], 1);
    g := Polls(StoredTerm, g1, 2, 1);
  }

  /** A leader of two entries hears from a peer that has both. */
  lemma AckKeeps(l: Server, f: Server, q: NodeId, r: NodeId)
    requires l.node.role == Leader && |l.node.log| == 2 && Indexed(l.node.log, 0) && l.node.base == 0
    requires Distinct(l.node.cfg.peers) && |l.node.cfg.peers| == 4 && q in l.node.cfg.peers
    requires MakeAppendRequest(l.node, q).Some?
    requires HandleAppendRequest(f.node, Request(l, q)).2 == AppendReply(l.node.term, true, 2)
    requires l.node.commit == 0 && l.node.applied == 0 && l.node.cfg.interval == 0 && l.node.log[1].term == l.node.term
    requires || l.node.matched == Positions(l.node.cfg.peers, 0)
             || (r != q && r in l.node.cfg.peers && l.node.matched == Positions(l.node.cfg.peers, 0)[r := 2])
    ensures var m := l.node.(next := l.node.next[q := 3], matched := l.node.matched[q := 2]);
            && (l.node.matched == Positions(l.node.cfg.peers, 0) ==> Acked(l, f, q) == Server(m, l.disk))
            && (r in l.node.matched && r != q && l.node.matched[r] == 2 ==>
                  Acked(l, f, q).node == m.(commit := 2, applied := 2, machine := m.machine + Handed(m.log)))
  {
    hide UpdateCommit, HandleAppendRequest, MakeAppendRequest, Handed, MajorityIndex;
    var m := l.node.(next := l.node.next[q := 3], matched := l.node.matched[q := 2]);
    if l.node.matched == Positions(l.node.cfg.peers, 0) {
      OnePeer(m, q);
      NothingWritten(l, m);
    } else {
      TwoPeers(m, q, r);
    }
  }

  ghost predicate LeadsTwo(l: Node, p: NodeId) {
    && l.role == Leader && |l.log| == 2 && Indexed(l.log, 0) && l.base == 0 && l.baseTerm == 0 && l.cfg.id == p
    && Distinct(l.cfg.peers) && |l.cfg.peers| == 4 && l.cfg.interval == 0 && l.commit == 0 && l.applied == 0
    && l.log[1].term == l.term
  }

  function Sent(l: Node, prev: nat): AppendRequest
    requires prev <= |l.log|
  {
    AppendRequest(l.term, l.cfg.id, prev, if prev == 0 then 0 else l.log[prev - 1].term, l.log[prev..], l.commit)
  }

  /** What is known of a leader whose entries at most one peer has so far. */
  ghost predicate CanSpread(l: Node, p: NodeId, q: NodeId, r: NodeId, prev: nat, first: bool) {
    && LeadsTwo(l, p) && p != q && r != q && q in l.cfg.peers && r in l.cfg.peers
    && q in l.next && l.next[q] == prev + 1 && prev <= 1
    && l.matched == if first then Positions(l.cfg.peers, 0) else Positions(l.cfg.peers, 0)[r := 2]
  }

  lemma ReadyToSpread(p: NodeId, t: nat, log: Log, next: map<NodeId, nat>, q: NodeId, r: NodeId, prev: nat, first: bool)
    requires p < 2 && |log| == 2 && Indexed(log, 0) && log[1].term == t
    requires q in Peers(p) && r in Peers(p) && q != r && q in next && next[q] == prev + 1 && prev <= 1
    ensures CanSpread(Leads(p, t, log, next, if first then Positions(Peers(p), 0) else Positions(Peers(p), 0)[r := 2]),
                      p, q, r, prev, first)
  {
    hide Positions;
  }

  function SpreadTo(l: Node, q: NodeId, first: bool): Node {
    var m := l.(next := l.next[q := 3], matched := l.matched[q := 2]);
    if first then m else m.(commit := 2, applied := 2, machine := m.machine + Handed(m.log))
  }

  /** Sending both of a leader's entries to one more peer: the second to have them commits them. */
  lemma Spreads(g: Group, p: NodeId, q: NodeId, r: NodeId, prev: nat, first: bool)
      returns (g': Group, l': Server, f': Server)
    requires Reachable(StoredTerm, g) && p in g.servers && q in g.servers
    requires CanSpread(g.servers[p].node, p, q, r, prev, first)
    requires CanTake(g.servers[q], Sent(g.servers[p].node, prev), g.servers[p].node.log)
    ensures Reachable(StoredTerm, g') && g'.servers == g.servers[q := f'][p := l']
    ensures f' == Server(g.servers[q].node.(log := g.servers[p].node.log),
                         g.servers[q].disk.(entries := f'.disk.entries))
    ensures Mirrors(f'.disk.entries, g.servers[p].node.log, 0)
    ensures l'.node == SpreadTo(g.servers[p].node, q, first)
  {
    hide Reachable, Taken, Acked, HandleAppendRequest, MakeAppendRequest, Handed, Mirrors, CanTake;
    var l := g.servers[p];
    RequestAt(l.node, q, prev);
    Takes(g.servers[q], Request(l, q), l.node.log);
    if !first { assert l.node.matched[r] == 2; }
    AckKeeps(l, g.servers[q], q, r);
    g' := Replicates(StoredTerm, g, p, q);
    l', f' := g'.servers[p], g'.servers[q];
  }

  /** Node 1 takes a command. */
  lemma CommandTaken() returns (g: Group)
    ensures Reached(g) && g.servers[0] == Elected(0, N1) && g.servers[3] == Voted(3, 2, 1)
    ensures g.servers[4] == Voted(4, 2, 1)
    ensures g.servers[1].node == Leads(1, 2, [N2, Y], Positions(Peers(1), 1), Positions(Peers(1), 0))
    ensures g.servers[2] == Server(Follows(2, 2, None, []), Kept(1, Some(2), map[]))
  {
    hide Reachable, Proposed, LastIndex;
    var g0 := TermHeard();
    SoleEntry(g0.servers[1].node, N2);
    TakesCommand(g0.servers[1], [1]);
    g := Proposes(StoredTerm, g0, 1, [1]);
    assert [N2] + [Y] == [N2, Y];
  }

  lemma FreshTakes(f: Server, r: AppendRequest, sent: Log)
    requires f.node == Follows(f.node.cfg.id, r.term, f.node.votedFor, []) && f.disk.entries == map[]
    requires Indexed(sent, 0) && sent != [] && r.prevIndex == 0 && r.prevTerm == 0 && r.entries == sent[0..]
    requires r.commit == 0
    ensures CanTake(f, r, sent)
  {
  }

  /** Node 1's entry is on nodes 1, 2 and 3, and is committed. */
  lemma EntryCommitted() returns (g: Group)
    ensures Reached(g) && g.servers[0] == Elected(0, N1) && g.servers[4] == Voted(4, 2, 1)
    ensures g.servers[1].node.log == [N2, Y] && g.servers[1].node.applied == 2 && g.servers[1].node.commit == 2
    ensures var c := g.servers[2];
            c.node == Follows(2, 2, None, [N2, Y]) && c.disk == Kept(1, Some(2), c.disk.entries)
            && Mirrors(c.disk.entries, [N2, Y], 0)
  {
    hide Reachable, Handed, Mirrors, CanTake, CanSpread;
    var g0 := CommandTaken();
    var l := g0.servers[1].node;
    ReadyToSpread(1, 2, l.log, l.next, 2, 3, 0, true);
    FreshTakes(g0.servers[2], Sent(l, 0), l.log);
    var g1, l1, f1 := Spreads(g0, 1, 2, 3, 0, true);
    ReadyToSpread(1, 2, l.log, l1.node.next, 3, 2, 0, false);
    FreshTakes(g1.servers[3], Sent(l, 0), l.log);
    var l2, f2;
    g, l2, f2 := Spreads(g1, 1, 3, 2, 0, false);
  }

  lemma SoleEntry(n: Node, e: Entry)
    requires n.log == [e]
    ensures LastIndex(n) == e.index && LastLogTerm(n) == e.term
  {
  }

  /** Node 2 restarts into term 1, where node 0 still leads, and gives the entry up. */
  lemma EntryGivenUp() returns (g: Group)
    ensures Reached(g) && g.servers[0] == Elected(0, N1) && g.servers[4] == Voted(4, 2, 1)
    ensures g.servers[1].node.log == [N2, Y] && g.servers[1].node.applied == 2 && g.servers[1].node.commit == 2
    ensures var c := g.servers[2];
            c.node == Follows(2, 1, Some(2), [N1]) && c.disk == Kept(1, Some(2), c.disk.entries)
            && Mirrors(c.disk.entries, [N1], 0)
  {
    hide Reachable, Started, Taken, HandleAppendRequest, MakeAppendRequest, Mirrors;
    var g0 := EntryCommitted();
    ComesBack(g0.servers[2], [N2, Y]);
    var g1 := Restarts(g0, 2);
    RequestAt(g1.servers[0].node, 2, 0);
    assert [N1][0..] == [N1];
    Takes(g1.servers[2], Request(g1.servers[0], 2), [N1]);
    g := Sends(StoredTerm, g1, 0, 2);
  }

  /** Node 0 comes back and leads term 3, by the votes of nodes 2 and 4. */
  lemma ElectedWithout() returns (g: Group)
    ensures Reached(g)
    ensures g.servers[0].node == Leads(0, 3, [N1, N3], Positions(Peers(0), 2), Positions(Peers(0), 0))
    ensures g.servers[1].node.log == [N2, Y] && g.servers[1].node.applied == 2 && g.servers[1].node.commit == 2
    ensures g.servers[2].node == Follows(2, 3, Some(0), [N1]) && Mirrors(g.servers[2].disk.entries, [N1], 0)
    ensures g.servers[4] == Voted(4, 3, 0)
  {
    hide Reachable, Started, Stood, Polled, HandleVoteRequest, HandleVoteReply, LastIndex, LastLogTerm, Mirrors,
         Positions;
    var g0 := EntryGivenUp();
    OneMirrors();
    ComesBack(g0.servers[0], [N1]);
    var g1 := Restarts(g0, 0);
    StandsAlone(g1.servers[0]);
    var g2 := Stands(StoredTerm, g1, 0);
    StandsAlone(g2.servers[0]);
    var g3 := Stands(StoredTerm, g2, 0);
    SoleEntry(g3.servers[0].node, N1);
    SoleEntry(g3.servers[2].node, N1);
    var g4 := GetsOne(g3, 0, 2);
    SoleEntry(g4.servers[0].node, N1);
    NoLog(g4.servers[4].node);
    g := GetsThird(g4, 0, 2, 4);
    assert [N1] + [N3] == [N1, N3];
  }

  lemma OneMirrors()
    ensures Mirrors(map[1 := N1], [N1], 0)
  {
  }

  lemma BackedOff(l: Server, f: Server, q: NodeId)
    requires l.node.role == Leader && q in l.node.next && l.node.next[q] == 2
    requires MakeAppendRequest(l.node, q).Some?
    requires HandleAppendRequest(f.node, Request(l, q)).2 == AppendReply(l.node.term, false, 0)
    ensures Acked(l, f, q) == Server(l.node.(next := l.node.next[q := 1]), l.disk)
  {
    hide HandleAppendRequest, MakeAppendRequest;
    NothingWritten(l, l.node.(next := l.node.next[q := 1]));
  }

  lemma OneEntryTakes(f: Server, r: AppendRequest)
    requires f.node == Follows(f.node.cfg.id, 3, f.node.votedFor, [N1]) && Mirrors(f.disk.entries, [N1], 0)
    requires r.term == 3 && r.prevIndex == 1 && r.prevTerm == 1 && r.entries == [N1, N3][1..] && r.commit == 0
    ensures CanTake(f, r, [N1, N3])
  {
  }

  /** Its entries are on node 2. */
  lemma OnNode2() returns (g: Group)
    ensures Reached(g) && g.servers[4] == Voted(4, 3, 0)
    ensures g.servers[1].node.log == [N2, Y] && g.servers[1].node.applied == 2 && g.servers[1].node.commit == 2
    ensures g.servers[0].node == Leads(0, 3, [N1, N3], Positions(Peers(0), 2)[2 := 3], Positions(Peers(0), 0)[2 := 2])
  {
    hide Reachable, Mirrors, Handed, CanTake, CanSpread;
    var g0 := ElectedWithout();
    var l := g0.servers[0].node;
    ReadyToSpread(0, 3, l.log, l.next, 2, 4, 1, true);
    OneEntryTakes(g0.servers[2], Sent(l, 1));
    var l1, f1;
    g, l1, f1 := Spreads(g0, 0, 2, 4, 1, true);
  }

  /** Node 4 refuses them, and is to be sent all of them. */
  lemma Behind() returns (g: Group)
    ensures Reached(g) && g.servers[4] == Voted(4, 3, 0)
    ensures g.servers[1].node.log == [N2, Y] && g.servers[1].node.applied == 2 && g.servers[1].node.commit == 2
    ensures g.servers[0].node == Leads(0, 3, [N1, N3], Positions(Peers(0), 2)[2 := 3][4 := 1],
                                       Positions(Peers(0), 0)[2 := 2])
  {
    hide Reachable, Taken, Acked, HandleAppendRequest, MakeAppendRequest, LastIndex;
    var g1 := OnNode2();
    var l1 := g1.servers[0];
    RequestAt(l1.node, 4, 1);
    NoLog(g1.servers[4].node);
    Refuses(g1.servers[4], Request(l1, 4));
    BackedOff(l1, g1.servers[4], 4);
    g := Replicates(StoredTerm, g1, 0, 4);
  }

  /** Two nodes have applied different commands at index 2. */
  ghost predicate Disagree(g: Group, p: NodeId, q: NodeId) {
    && p in g.servers && q in g.servers
    && g.servers[p].node.applied == 2 == |g.servers[p].node.log|
    && g.servers[q].node.applied == 2 == |g.servers[q].node.log|
    && g.servers[p].node.log[1].command != g.servers[q].node.log[1].command
  }

  /** Every action of this run but one keeps both premises; the one restarts a node into a term
      older than its newest entry. */
  lemma CommandsDiffer() returns (g: Group)
    ensures Reachable(StoredTerm, g) && Disagree(g, 0, 1)
  {
    hide Reachable, Handed, Mirrors, CanTake, CanSpread;
    var g2 := Behind();
    var l := g2.servers[0].node;
    ReadyToSpread(0, 3, l.log, l.next, 4, 2, 0, false);
    FreshTakes(g2.servers[4], Sent(l, 0), l.log);
    var l2, f2;
    g, l2, f2 := Spreads(g2, 0, 4, 2, 0, false);
  }
}
