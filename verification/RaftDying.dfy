/** Dying inside a block, after some of its writes, and coming back from what they left. */
module RaftDying {
  import opened Common
  import opened RaftProtocol
  import opened RaftNode
  import opened RaftNodeFacts
  import opened RaftSteps
  import opened RaftGroup
  import opened RaftSafety
  import opened RaftVoting
  import opened RaftFollowing
  import opened RaftLeading
  import opened RaftStanding

  // ---- dying, as a step and a restart ---------------------------------------------

  lemma LoadFollows(cfg: Config, d: Disk)
    ensures Load(cfg, d).0.role == Follower
  {
  }

  /** Only the node that dies changes, and it leads nothing when it is back. */
  lemma DiedServers(g: Group, a: Action, done: nat)
    requires Writes(a) && Ready(g, a) && done <= |Block(g, a).1|
    ensures var g', p := Died(g, a, done), Actor(a);
            && p in g'.servers && g'.servers == g.servers[p := g'.servers[p]]
            && g'.servers[p].node.role == Follower
  {
    hide Load, Block, Remember, DiedWith;
    LoadFollows(g.servers[Actor(a)].node.cfg, DiedWith(g, a, done));
  }

  /** Before the first write there is only the restart. */
  lemma DiesUntouched(g: Group, a: Action)
    requires Writes(a) && Ready(g, a)
    ensures Died(g, a, 0) == Update(g, Actor(a), Load(g.servers[Actor(a)].node.cfg, g.servers[Actor(a)].disk).0, [],
                                    {}, {})
    ensures DiedWith(g, a, 0) == g.servers[Actor(a)].disk
  {
    hide Load, Block, Remember;
    assert Block(g, a).1[..0] == [];
    assert g.sent + {} == g.sent;
  }

  lemma DieAtOnceKeeps(g: Group, a: Action)
    requires GroupInv(g) && Writes(a) && Ready(g, a)
    requires var d := DiedWith(g, a, 0); LastTerm(LoadLog(d.entries)) <= d.term
    ensures Advances(g, Died(g, a, 0))
  {
    hide GroupInv, Load, Block, Died, DiedWith, Update, Advances, LoadLog;
    var p := Actor(a);
    DiesUntouched(g, a);
    RestartKeeps(g, p);
    LoadsQuietly(g, p);
  }

  lemma LoadsQuietly(g: Group, p: NodeId)
    requires GroupInv(g) && p in g.servers
    ensures Load(g.servers[p].node.cfg, g.servers[p].disk).1 == []
  {
    hide GroupInv, Load;
    TermsCover(g, p);
    LoadStep(g.servers[p].node, g.servers[p].disk);
  }

  /** `mid` is the node with the writes it made, and no further. */
  ghost predicate HalfWay(g: Group, a: Action, done: nat, mid: Node)
    requires Writes(a) && Ready(g, a) && done <= |Block(g, a).1|
  {
    var (after, ws) := Block(g, a);
    && mid.cfg == g.servers[Actor(a)].node.cfg
    && (if OwnStored(after, ws[..done]) then
          mid.role == Leader && mid.log == after.log && mid.term == after.term && LastIndex(mid) == LastIndex(after)
        else mid.role != Leader)
  }

  /** The restart adds nothing to what is remembered. */
  lemma RememberedOnce(past: History, p: NodeId, before: Node, mid: Node, other: Node, n: Node, d: Disk)
    requires n.role != Leader && (mid.role == Leader <==> other.role == Leader)
    requires mid.role == Leader ==> mid.log == other.log && mid.term == other.term && LastIndex(mid) == LastIndex(other)
    ensures Remember(Remember(past, p, before, mid, d, {}), p, mid, n, d, {}) == Remember(past, p, before, other, d, {})
  {
    var once, twice := Remember(past, p, before, other, d, {}),
                       Remember(Remember(past, p, before, mid, d, {}), p, mid, n, d, {});
    assert twice.acks == once.acks;
  }

  lemma DiedHalfWay(g: Group, a: Action, done: nat, mid: Node)
    requires Writes(a) && Ready(g, a) && done <= |Block(g, a).1| && HalfWay(g, a, done, mid)
    ensures var p, ws, d := Actor(a), Block(g, a).1[..done], DiedWith(g, a, done);
            var g1 := Update(g, p, mid, ws, {}, {});
            && p in g1.servers && g1.servers[p] == Server(mid, d)
            && Died(g, a, done) == Update(g1, p, Load(mid.cfg, d).0, [], {}, {})
  {
    hide Load, Block, Remember;
    var p, ws, d := Actor(a), Block(g, a).1[..done], DiedWith(g, a, done);
    LoadFollows(mid.cfg, d);
    assert PerformAll(d, []) == d by { NothingPerformed(d); }
    var g1 := Update(g, p, mid, ws, {}, {});
    var g2 := Update(g1, p, Load(mid.cfg, d).0, [], {}, {});
    var after := Block(g, a).0;
    RememberedOnce(g.past, p, g.servers[p].node, mid, if OwnStored(after, ws) then after else Load(mid.cfg, d).0,
                   Load(mid.cfg, d).0, d);
    assert g2.servers == Died(g, a, done).servers;
    assert g2.sent == g.sent;
  }

  lemma DieAfterKeeps(g: Group, a: Action, done: nat, mid: Node)
    requires Writes(a) && Ready(g, a) && done <= |Block(g, a).1| && HalfWay(g, a, done, mid)
    requires var d := DiedWith(g, a, done); LastTerm(LoadLog(d.entries)) <= d.term
    requires Advances(g, Update(g, Actor(a), mid, Block(g, a).1[..done], {}, {}))
    ensures Advances(g, Died(g, a, done))
  {
    hide GroupInv, Load, Block, Died, DiedWith, Update, LoadLog, HalfWay, Grown, View;
    var p := Actor(a);
    var g1 := Update(g, p, mid, Block(g, a).1[..done], {}, {});
    DiedHalfWay(g, a, done, mid);
    RestartKeeps(g1, p);
    LoadsQuietly(g1, p);
    GrownTwice(View(g), View(g1), View(Died(g, a, done)));
  }

  /** It dies between two writes of the block, and comes back into a term that will do. */
  ghost predicate DiesInside(g: Group, a: Action, done: nat) {
    && Writes(a) && Ready(g, a) && 0 < done < |Block(g, a).1|
    && var d := DiedWith(g, a, done);
       LastTerm(LoadLog(d.entries)) <= d.term
  }

  // ---- a leader's own entry, stored and not yet counted ---------------------------

  lemma AppendWrites(n: Node, command: Command) returns (c: nat)
    requires NodeSound(n)
    ensures n.commit <= c <= |n.log| + 1
    ensures LeaderAppend(n, command) ==
            (Committing(Appended(n, command), c), [PutEntry(OwnEntry(n, command))] + CommitWrites(n.commit, c))
  {
    hide UpdateCommit, Handed, LastIndex;
    var n1 := Appended(n, command);
    LastIsLength(n);
    assert n1.log[..n.commit] == n.log[..n.commit];
    assert NodeSound(n1);
    c := UpdateStep(n1);
  }

  /** The node with the entry in its log and its storage, and the commit index where it was. */
  lemma StoredStep(n: Node, d: Disk, command: Command)
    requires NodeSound(n) && DiskSound(n, d)
    ensures var n1 := Appended(n, command);
            var d' := PerformAll(d, [PutEntry(OwnEntry(n, command))]);
            && NodeSound(n1) && DiskSound(n1, d') && n1 == Committing(n1, n1.commit)
            && d'.term == d.term && d'.votedFor == d.votedFor
  {
    var e := OwnEntry(n, command);
    assert Appended(n, command).log[..n.commit] == n.log[..n.commit];
    AppendDisk(n, d, e, n.commit, n.commit);
    assert [PutEntry(e)] + CommitWrites(n.commit, n.commit) == [PutEntry(e)];
  }

  lemma StoredKeeps(g: Group, p: NodeId, command: Command)
    requires GroupInv(g) && p in g.servers && g.servers[p].node.role == Leader
    ensures var n := g.servers[p].node;
            Advances(g, Update(g, p, Appended(n, command), [PutEntry(OwnEntry(n, command))], {}, {}))
  {
    hide GroupInv, Inv, Update, PerformAll, View, CommitSound, OnlyBy, Counted, Led, LeaderSound, Handed, Committing;
    StandingOf(g, p);
    var v, s := View(g), g.servers[p];
    var e, n1 := OwnEntry(s.node, command), Appended(s.node, command);
    StoredStep(s.node, s.disk, command);
    LeaderParts(v, p, s.node);
    ExtendMoves(v, p, e);
    LeaderExtends(v, p, s.node, command);
    var ws := [PutEntry(e)];
    LedServer(v, p, s.disk, n1, Server(n1, PerformAll(s.disk, ws)), e, n1.commit, LastTerm(s.node.log));
    LedKeeps(g, p, n1, ws, e);
  }

  lemma WonStored(v: Protocol, p: NodeId, s: Server)
    requires Inv(v) && ServerInv(v, p, s) && Enough(s.node)
    requires p in v.log && v.log[p] == s.node.log && v.term[p] == s.node.term
    requires LastTerm(s.node.log) <= s.node.term
    ensures var e := OwnEntry(s.node, NOOP);
            var v' := Led(v, p, e);
            var n := Appended(Winning(s.node), NOOP);
            var d := PerformAll(s.disk, [PutEntry(e)]);
            && Inv(v') && OnlyBy(v, v', p) && ServerInv(v', p, Server(n, d)) && NodeSound(n)
            && d.term == s.disk.term && d.votedFor == s.disk.votedFor
  {
    hide Inv, PerformAll, CommitSound, OnlyBy, Counted, Led, LeaderSound, Handed, Committing;
    var e := OwnEntry(s.node, NOOP);
    var n := Appended(Winning(s.node), NOOP);
    StoredStep(Winning(s.node), s.disk, NOOP);
    BallotsOf(v);
    EnoughQuorum(v, p, s.node);
    ElectMoves(v, p, s.node.votes, e);
    WinnerSound(v, p, s.node);
    LedServer(v, p, s.disk, n, Server(n, PerformAll(s.disk, [PutEntry(e)])), e, n.commit, LastTerm(s.node.log));
  }

  /** The candidate `c`, with its votes counted, opens its term. */
  lemma WonStoredKeeps(g: Group, p: NodeId, peer: NodeId)
    requires GroupInv(g) && p in g.servers && g.servers[p].node.role == Candidate
    requires var t := g.servers[p].node.term;
             (peer, t) in View(g).ballots && View(g).ballots[(peer, t)].candidate == p
    requires var n := g.servers[p].node; Enough(n.(votes := n.votes + {peer}))
    ensures var n := g.servers[p].node;
            Advances(g, Update(g, p, Appended(Winning(n.(votes := n.votes + {peer})), NOOP),
                               [PutEntry(OwnEntry(n, NOOP))], {}, {}))
  {
    hide GroupInv, Update, Inv, PerformAll, View, ServerInv, OnlyBy, Led, NodeSound;
    StandingOf(g, p);
    var v, s := View(g), g.servers[p];
    VoteCounted(v, p, s, peer);
    var s1 := Server(s.node.(votes := s.node.votes + {peer}), s.disk);
    WonStored(v, p, s1);
    VoteStored(v, p, s1);
    LedKeeps(g, p, Appended(Winning(s1.node), NOOP), [PutEntry(OwnEntry(s.node, NOOP))], OwnEntry(s.node, NOOP));
  }

  lemma AtMostTwo(e: Entry, c: nat, c': nat, done: nat)
    requires 0 < done < |[PutEntry(e)] + CommitWrites(c, c')|
    ensures ([PutEntry(e)] + CommitWrites(c, c'))[..done] == [PutEntry(e)]
  {
  }

  lemma DieProposingKeeps(g: Group, p: NodeId, command: Command, done: nat)
    requires GroupInv(g) && DiesInside(g, ClientPropose(p, command), done)
    ensures Advances(g, Died(g, ClientPropose(p, command), done))
  {
    hide GroupInv, Update, View, Advances, LeaderAppend, Load, LoadLog, Died, DiedWith, Inv, ServerInv, Handed;
    var a, n := ClientPropose(p, command), g.servers[p].node;
    StandingOf(g, p);
    SoundOf(View(g), p, g.servers[p]);
    var c := AppendWrites(n, command);
    var e := OwnEntry(n, command);
    AtMostTwo(e, n.commit, c, done);
    assert [PutEntry(e)][0].PutEntry?;
    var mid := Appended(n, command);
    assert LastIndex(mid) == LastIndex(Committing(mid, c));
    StoredKeeps(g, p, command);
    DieAfterKeeps(g, a, done, mid);
  }

  /** A vote that is counted and writes anything has won. */
  lemma CountingWrites(n: Node, peer: NodeId, r: VoteReply) returns (c: nat)
    requires NodeSound(n) && HandleVoteReply(n, peer, r).1 != []
    ensures r.term <= n.term && n.role == Candidate && r.granted && n.commit <= c <= |n.log| + 1
    ensures var n1 := n.(votes := n.votes + {peer});
            && Enough(n1)
            && HandleVoteReply(n, peer, r) ==
               (Committing(Appended(Winning(n1), NOOP), c), [PutEntry(OwnEntry(n, NOOP))] + CommitWrites(n.commit, c))
  {
    hide LeaderAppend, Handed;
    var n1 := n.(votes := n.votes + {peer});
    LastIsLength(n);
    assert NodeSound(Winning(n1));
    c := AppendWrites(Winning(n1), NOOP);
  }

  lemma CountingHalfWay(g: Group, m: Message, done: nat) returns (mid: Node)
    requires GroupInv(g) && DiesInside(g, CountVote(m), done)
    ensures var n, r := g.servers[m.to].node, m.voted;
            var n1 := n.(votes := n.votes + {m.from});
            && r.term <= n.term && n.role == Candidate && r.granted && Enough(n1)
            && mid == Appended(Winning(n1), NOOP)
            && Block(g, CountVote(m)).1[..done] == [PutEntry(OwnEntry(n, NOOP))]
            && HalfWay(g, CountVote(m), done, mid)
  {
    hide GroupInv, View, HandleVoteReply, Load, LoadLog, DiedWith, Inv, ServerInv, Handed, NodeSound, Enough;
    var n := g.servers[m.to].node;
    StandingOf(g, m.to);
    SoundOf(View(g), m.to, g.servers[m.to]);
    var c := CountingWrites(n, m.from, m.voted);
    AtMostTwo(OwnEntry(n, NOOP), n.commit, c, done);
    assert [PutEntry(OwnEntry(n, NOOP))][0].PutEntry?;
    mid := Appended(Winning(n.(votes := n.votes + {m.from})), NOOP);
    assert LastIndex(mid) == LastIndex(Committing(mid, c));
  }

  lemma DieCountingKeeps(g: Group, m: Message, done: nat)
    requires GroupInv(g) && DiesInside(g, CountVote(m), done) && InTerm(g, CountVote(m)) && MessageInv(View(g), m)
    ensures Advances(g, Died(g, CountVote(m), done))
  {
    hide GroupInv, Update, View, Advances, Block, Load, LoadLog, Died, DiedWith, HalfWay, Enough;
    var mid := CountingHalfWay(g, m, done);
    WonStoredKeeps(g, m.to, m.from);
    DieAfterKeeps(g, CountVote(m), done, mid);
  }

  // ---- standing -------------------------------------------------------------------

  /** The vote is stored, and the term not yet opened. */
  lemma StoodOnlyKeeps(g: Group, p: NodeId)
    requires GroupInv(g) && p in g.servers && g.servers[p].node.role != Leader
    ensures var n := g.servers[p].node;
            Advances(g, Update(g, p, Standing(n), [SaveMeta(n.term + 1, Some(n.cfg.id))], {}, {}))
  {
    hide GroupInv, Update, Inv, PerformAll, View, ServerInv, OnlyBy;
    StandingOf(g, p);
    var v, s := View(g), g.servers[p];
    StandServer(v, p, s);
    IdOf(v, p, s);
    PerformOne(s.disk, SaveMeta(s.node.term + 1, Some(s.node.cfg.id)));
    CastKeepsGroup(g, p, Standing(s.node), [SaveMeta(s.node.term + 1, Some(s.node.cfg.id))], p, {});
  }

  /** The term is opened at once, by the only vote there is. */
  lemma OpenedAtOnceKeeps(g: Group, p: NodeId)
    requires GroupInv(g) && p in g.servers && g.servers[p].node.role != Leader
    requires Enough(Standing(g.servers[p].node))
    ensures var c := Standing(g.servers[p].node);
            Advances(g, Update(g, p, Appended(Winning(c), NOOP),
                               [SaveMeta(c.term, c.votedFor), PutEntry(OwnEntry(c, NOOP))], {}, {}))
  {
    hide GroupInv, Inv, PerformAll, View, ServerInv, OnlyBy, Led, LeadersIndexed;
    StandingOf(g, p);
    InvOf(g);
    var v, s := View(g), g.servers[p];
    var s0 := Server(Standing(s.node), StandingDisk(s.node, s.disk));
    var v0 := Balloted(v, p, s0.node.term, p);
    StandServer(v, p, s);
    var e := OwnEntry(s0.node, NOOP);
    WonStored(v0, p, s0);
    IdOf(v, p, s);
    var n := Appended(Winning(s0.node), NOOP);
    var ws := [SaveMeta(s0.node.term, s0.node.votedFor), PutEntry(e)];
    assert PerformAll(s.disk, ws) == PerformAll(s0.disk, [PutEntry(e)]) by {
      PerformTwo(s.disk, ws[0], ws[1]);
      PerformOne(s0.disk, PutEntry(e));
    }
    LastIsLength(n);
    WonView(g, p, n, ws, e);
    OnlyByTwice(v, v0, Led(v0, p, e), p);
    LedIndexed(v, p, e.term, e);
    UpdateKeeps(g, p, n, ws, {}, {});
  }

  lemma ElectionWrites(n: Node) returns (c: nat)
    requires NodeSound(n) && n.role != Leader
    ensures n.commit <= c <= |n.log| + 1
    ensures var s := Standing(n);
            StartElection(n) ==
            if Enough(s) then
              (Committing(Appended(Winning(s), NOOP), c),
               [SaveMeta(s.term, s.votedFor), PutEntry(OwnEntry(s, NOOP))] + CommitWrites(n.commit, c))
            else (s, [SaveMeta(s.term, s.votedFor)])
  {
    hide LeaderAppend, Handed;
    var s := Standing(n);
    LastIsLength(n);
    assert NodeSound(Winning(s));
    c := AppendWrites(Winning(s), NOOP);
    var saved, put := SaveMeta(s.term, s.votedFor), PutEntry(OwnEntry(s, NOOP));
    LastIsLength(s);
    assert [saved] + [] == [saved];
    assert [saved] + ([put] + CommitWrites(n.commit, c)) == [saved, put] + CommitWrites(n.commit, c);
  }

  lemma DieStandingKeeps(g: Group, p: NodeId, done: nat)
    requires GroupInv(g) && DiesInside(g, Timeout(p), done)
    ensures Advances(g, Died(g, Timeout(p), done))
  {
    hide GroupInv, Update, View, Advances, StartElection, Load, LoadLog, Died, DiedWith, Inv, ServerInv, Handed,
         NodeSound;
    var a, n := Timeout(p), g.servers[p].node;
    StandingOf(g, p);
    SoundOf(View(g), p, g.servers[p]);
    LeadersDoNotStand(n);
    var c := ElectionWrites(n);
    var s, ws := Standing(n), StartElection(n).1;
    if done == 1 {
      assert ws[..done] == [SaveMeta(s.term, s.votedFor)];
      StoodOnlyKeeps(g, p);
      DieAfterKeeps(g, a, done, s);
    } else {
      var e := OwnEntry(s, NOOP);
      assert ws[..done] == [SaveMeta(s.term, s.votedFor), PutEntry(e)];
      assert ws[..done][1].PutEntry?;
      var mid := Appended(Winning(s), NOOP);
      assert LastIndex(mid) == LastIndex(Committing(mid, c));
      OpenedAtOnceKeeps(g, p);
      DieAfterKeeps(g, a, done, mid);
    }
  }

  lemma LeadersDoNotStand(n: Node)
    ensures StartElection(n).1 != [] ==> n.role != Leader
  {
  }

  // ---- voting ---------------------------------------------------------------------

  /** The newer term is stored, and the vote is not. */
  lemma DieVotingKeeps(g: Group, m: Message, done: nat)
    requires GroupInv(g) && DiesInside(g, Vote(m), done)
    ensures Advances(g, Died(g, Vote(m), done))
  {
    hide GroupInv, Update, View, Advances, Load, LoadLog, Died, Inv, ServerInv, Handed, PerformAll, LastLogTerm,
         LastIndex;
    var a, p := Vote(m), m.to;
    var s := g.servers[p];
    TermsCover(g, p);
    SoundOf(View(g), p, s);
    var ws := Block(g, a).1;
    assert ws[..done] == [SaveMeta(m.vote.term, None)];
    PerformOne(s.disk, SaveMeta(m.vote.term, None));
    var mid := NewerTerm(s.node, m.vote.term);
    StepDownKeeps(g, p, mid, ws[..done], {});
    DieAfterKeeps(g, a, done, mid);
  }

  // ---- taking what a leader sent --------------------------------------------------

  /** What is left of a log when some of the writes of a request have been made: a start of the
      sender's log that has all of it the log had. */
  ghost predicate PartTaken(d: Disk, d': Disk, log: Log, l: Log, taken: Log) {
    && Mirrors(d'.entries, taken, 0) && Indexed(taken, 0) && d' == d.(entries := d'.entries)
    && Agree(taken, l, |taken|)
    && forall j: nat :: Agree(log, l, j) ==> j <= |taken|
  }

  lemma OnePartTaken(n: Node, d: Disk, l: Log, from: nat, done: nat) returns (taken: Log)
    requires n.base == 0 && Indexed(n.log, 0) && Indexed(l, 0) && Mirrors(d.entries, n.log, 0)
    requires from < |l| && from <= |n.log| && Agree(n.log, l, from)
    requires 0 < done <= |MergeOne(n, l[from]).1|
    ensures PartTaken(d, PerformAll(d, MergeOne(n, l[from]).1[..done]), n.log, l, taken)
  {
    var e, ws := l[from], MergeOne(n, l[from]).1;
    if |ws| == 1 {
      taken := n.log + [e];
      assert ws[..done] == [PutEntry(e)];
      PerformOne(d, PutEntry(e));
      PutMirrors(d, n.log, 0, e);
    } else {
      TruncateMirrors(d, n.log, 0, from);
      var d1 := Perform(d, Truncate(e.index));
      if done == 1 {
        taken := n.log[..from];
        assert ws[..done] == [Truncate(e.index)];
        PerformOne(d, Truncate(e.index));
      } else {
        taken := n.log[..from] + [e];
        assert ws[..done] == [Truncate(e.index), PutEntry(e)];
        PerformTwo(d, Truncate(e.index), PutEntry(e));
        PutMirrors(d1, n.log[..from], 0, e);
      }
    }
  }

  lemma {:induction false} MergePartTaken(n: Node, d: Disk, l: Log, from: nat, upTo: nat, done: nat)
    returns (taken: Log)
    requires n.base == 0 && Indexed(n.log, 0) && Indexed(l, 0) && Mirrors(d.entries, n.log, 0)
    requires from <= upTo <= |l| && from <= |n.log| && Agree(n.log, l, from)
    requires forall i :: from <= i < |n.log| && i < |l| && n.log[i].term == l[i].term ==> n.log[i] == l[i]
    requires 0 < done <= |Merge(n, l[from..upTo]).1|
    ensures PartTaken(d, PerformAll(d, Merge(n, l[from..upTo]).1[..done]), n.log, l, taken)
    decreases upTo - from
  {
    hide MergeOne, PerformAll;
    var part := l[from..upTo];
    assert from == upTo ==> part == [];
    if from < upTo {
      assert part[0] == l[from] && part[1..] == l[from + 1..upTo];
      var (n1, ws1) := MergeOne(n, l[from]);
      var (n2, ws2) := Merge(n1, part[1..]);
      if done <= |ws1| {
        assert (ws1 + ws2)[..done] == ws1[..done];
        taken := OnePartTaken(n, d, l, from, done);
      } else {
        var left := done - |ws1|;
        assert (ws1 + ws2)[..done] == ws1 + ws2[..left];
        PerformAppend(d, ws1, ws2[..left]);
        MergeOneMirrors(n, d, l[from]);
        MergeOneTakes(n, l, from);
        taken := MergePartTaken(n1, PerformAll(d, ws1), l, from + 1, upTo, left);
      }
    }
  }

  /** And of the storage when the whole block has begun: the entries first, then the term. */
  ghost predicate BlockPartDone(n: Node, d: Disk, d': Disk, r: AppendRequest, l: Log, taken: Log) {
    && PartTaken(d, d.(entries := d'.entries), n.log, l, taken)
    && (d' == d.(entries := d'.entries)
        || (r.term > n.term && d' == d.(entries := d'.entries, term := r.term, votedFor := None)))
  }

  /** The writes of a request that is taken: the entries, the term if it is newer, and the commit
      index if that moves. */
  lemma TakingWrites(n: Node, r: AppendRequest) returns (meta: seq<Write>, committed: seq<Write>)
    requires NodeSound(n) && Accepts(n, r)
    ensures HandleAppendRequest(n, r).1 == Merge(Following(n, r.term), r.entries).1 + meta + committed
    ensures meta == if r.term > n.term then [SaveMeta(r.term, None)] else []
    ensures |committed| <= 1
  {
    hide Merge, Replayed;
    LastIsLength(n);
    SameCheck(n, Following(n, r.term), r);
    meta := if r.term > n.term then [SaveMeta(r.term, None)] else [];
    var n3 := Merge(Following(n, r.term), r.entries).0;
    committed := AdvanceCommit(n3, r.commit).1;
    MergeKeepsConfig(Following(n, r.term), r.entries);
  }

  lemma {:induction false} MergeKeepsConfig(n: Node, entries: Log)
    ensures Merge(n, entries).0.cfg == n.cfg && Merge(n, entries).0.role == n.role
    decreases |entries|
  {
    if entries != [] {
      MergeKeepsConfig(MergeOne(n, entries[0]).0, entries[1..]);
    }
  }

  lemma BlockPart(n: Node, d: Disk, r: AppendRequest, l: Log, done: nat) returns (taken: Log)
    requires NodeSound(n) && DiskSound(n, d) && Carries(r, l) && Matches(n.log, l, r.term)
    requires Agree(n.log, l, n.commit) && Accepts(n, r)
    requires 0 < done < |HandleAppendRequest(n, r).1|
    ensures BlockPartDone(n, d, PerformAll(d, HandleAppendRequest(n, r).1[..done]), r, l, taken)
  {
    hide HandleAppendRequest, Merge, PerformAll, NodeSound, Mirrors, Matches, PrevMismatch, Agree, PartTaken;
    var n2 := Following(n, r.term);
    var end := r.prevIndex + |r.entries|;
    var meta, committed := TakingWrites(n, r);
    var merged, ws := Merge(n2, r.entries).1, HandleAppendRequest(n, r).1;
    StillSound(n, d, r.term);
    PrefixAgrees(n, r, l);
    if done <= |merged| {
      assert ws[..done] == merged[..done];
      taken := MergePartTaken(n2, d, l, r.prevIndex, end, done);
      PartIsEntries(d, PerformAll(d, merged[..done]), n.log, l, taken);
    } else {
      assert |meta| == 1 && ws[..done] == merged + meta;
      taken := Merge(n2, r.entries).0.log;
      AllTaken(n, d, r, l);
      PerformAppend(d, merged, meta);
      PerformOne(PerformAll(d, merged), meta[0]);
      PartIsEntries(d, PerformAll(d, merged), n.log, l, taken);
    }
  }

  lemma PartIsEntries(d: Disk, d': Disk, log: Log, l: Log, taken: Log)
    requires PartTaken(d, d', log, l, taken)
    ensures d' == d.(entries := d'.entries)
  {
  }

  lemma StillSound(n: Node, d: Disk, t: nat)
    requires NodeSound(n) && DiskSound(n, d) && t >= n.term
    ensures var n2 := Following(n, t);
            && NodeSound(n2) && n2.log == n.log && n2.base == 0 && n2.commit == n.commit
            && Indexed(n2.log, 0) && Mirrors(d.entries, n2.log, 0)
  {
  }

  lemma AllTaken(n: Node, d: Disk, r: AppendRequest, l: Log)
    requires NodeSound(n) && DiskSound(n, d) && Carries(r, l) && Matches(n.log, l, r.term)
    requires Agree(n.log, l, n.commit) && Accepts(n, r)
    ensures var (n3, merged) := Merge(Following(n, r.term), r.entries);
            PartTaken(d, PerformAll(d, merged), n.log, l, n3.log)
  {
    hide Merge, PerformAll, Mirrors, Matches, PrevMismatch, Handed;
    var n2 := Following(n, r.term);
    SameCheck(n, n2, r);
    MergeLog(n2, r, l);
    assert forall i :: 0 <= i < |r.entries| ==> r.entries[i] == l[r.prevIndex + i];
    MergeMirrors(n2, d, r.entries);
  }

  // ---- the follower it comes back as ----------------------------------------------

  /** The node that has `taken` for a log, as it comes back from `d`. */
  function Back(n: Node, d: Disk, taken: Log): Node {
    n.(role := Follower, term := d.term, votedFor := d.votedFor, log := taken, votes := {}, next := map[],
       matched := map[])
  }

  lemma BackSound(n: Node, d: Disk, d': Disk, r: AppendRequest, l: Log, taken: Log)
    requires NodeSound(n) && DiskSound(n, d) && BlockPartDone(n, d, d', r, l, taken) && Agree(n.log, l, n.commit)
    ensures NodeSound(Back(n, d', taken)) && DiskSound(Back(n, d', taken), d')
    ensures Load(n.cfg, d').0 == Back(n, d', taken) && LoadLog(d'.entries) == taken
    ensures Agree(n.log, taken, n.commit)
  {
    hide Load, LoadLog;
    assert n.commit <= |taken|;
    assert taken[..n.commit] == n.log[..n.commit];
    LoadStep(Back(n, d', taken), d');
  }

  function Faltered(v: Protocol, p: NodeId, t: nat, taken: Log): Protocol {
    v.(term := v.term[p := t], log := v.log[p := taken])
  }

  lemma NodesOf(v: Protocol)
    requires Inv(v)
    ensures NodesSourced(v)
  {
  }

  lemma FalteredMoves(v: Protocol, p: NodeId, t: nat, taken: Log, w: nat)
    requires Inv(v) && p in v.log && p in v.term && Towards(v, v.log[p], taken, w) && LastTerm(taken) <= t
    requires forall b :: b in v.ballots && b.0 == p ==> b.1 <= t
    ensures Inv(Faltered(v, p, t, taken)) && OnlyBy(v, Faltered(v, p, t, taken), p)
    ensures Monotone(taken)
  {
    hide Inv, Towards;
    assert Falter(v, Faltered(v, p, t, taken), p, taken, w, t);
    FalterKeeps(v, Faltered(v, p, t, taken), p, taken, w, t);
    assert NodesSourced(Faltered(v, p, t, taken)) by { NodesOf(Faltered(v, p, t, taken)); }
    LogMonotone(Faltered(v, p, t, taken), p);
  }

  /** A cut that spares what is committed. */
  lemma CommitCut(v: Protocol, v': Protocol, log: Log, taken: Log, c: nat, bound: nat)
    requires CommitSound(v, log, c, bound) && Grown(v, v') && Agree(log, taken, c) && Monotone(taken)
    ensures CommitSound(v', taken, c, LastTerm(taken))
  {
    if c > 0 {
      var t: nat, m: nat :| CommitVia(v, log, c, bound, t, m);
      CommittedGrows(v, v', t, m);
      assert CommitVia(v', taken, c, LastTerm(taken), t, m);
    }
  }

  lemma FalteredServer(v: Protocol, p: NodeId, s: Server, s': Server)
    requires ServerInv(v, p, s) && p in v.log && v.log[p] == s.node.log
    requires var v' := Faltered(v, p, s'.node.term, s'.node.log); OnlyBy(v, v', p)
    requires NodeSound(s'.node) && DiskSound(s'.node, s'.disk) && s'.node.role == Follower
    requires s'.node.cfg == s.node.cfg && s'.node.commit == s.node.commit
    requires Agree(s.node.log, s'.node.log, s.node.commit) && Monotone(s'.node.log)
    requires (s'.disk.term == s.disk.term && s'.disk.votedFor == s.disk.votedFor)
             || (s'.disk.term > s.disk.term && s'.disk.votedFor == None)
    ensures ServerInv(Faltered(v, p, s'.node.term, s'.node.log), p, s')
  {
    hide NodeSound, DiskSound, LeaderSound, CandidateSound, CommitSound, Agree;
    var v' := Faltered(v, p, s'.node.term, s'.node.log);
    CommitCut(v, v', s.node.log, s'.node.log, s.node.commit, LastTerm(s.node.log));
  }

  lemma FalteredView(g: Group, p: NodeId, after: Node, ws: seq<Write>)
    requires p in g.servers && after.role == Follower
    requires var d := PerformAll(g.servers[p].disk, ws); d.votedFor.Some? ==> (p, d.term) in View(g).ballots
    ensures View(Update(g, p, after, ws, {}, {})) == Faltered(View(g), p, after.term, after.log)
  {
    UpdateView(g, p, after, ws, {}, {});
  }

  lemma RefusedWrites(n: Node, r: AppendRequest)
    requires NodeSound(n) && !Accepts(n, r)
    ensures |HandleAppendRequest(n, r).1| <= 1
  {
    LastIsLength(n);
  }

  lemma PartFollows(v: Protocol, p: NodeId, s: Server, d': Disk, r: AppendRequest, taken: Log)
    requires ServerInv(v, p, s) && RequestSound(v, p, r) && LastTerm(s.node.log) <= r.term
    requires BlockPartDone(s.node, s.disk, d', r, v.leaderLog[r.term], taken)
    ensures Towards(v, s.node.log, taken, r.term)
    ensures (d'.term == s.disk.term && d'.votedFor == s.disk.votedFor)
            || (d'.term > s.disk.term && d'.votedFor == None)
    ensures forall b :: b in v.ballots && b.0 == p ==> b.1 <= d'.term
    ensures d'.votedFor.Some? ==> (p, d'.term) in v.ballots
  {
  }

  /** A follower that dies while it takes a request comes back sound. */
  lemma FalteredKeeps(g: Group, p: NodeId, mid: Node, ws: seq<Write>, w: nat)
    requires GroupInv(g) && p in g.servers && mid.role == Follower
    requires Towards(View(g), g.servers[p].node.log, mid.log, w) && LastTerm(mid.log) <= mid.term
    requires var v, s, d := View(g), g.servers[p], PerformAll(g.servers[p].disk, ws);
             && (d.votedFor.Some? ==> (p, d.term) in v.ballots)
             && (forall b :: b in v.ballots && b.0 == p ==> b.1 <= mid.term)
             && NodeSound(mid) && DiskSound(mid, d) && mid.cfg == s.node.cfg && mid.commit == s.node.commit
             && Agree(s.node.log, mid.log, s.node.commit)
             && ((d.term == s.disk.term && d.votedFor == s.disk.votedFor)
                 || (d.term > s.disk.term && d.votedFor == None))
    ensures Advances(g, Update(g, p, mid, ws, {}, {}))
  {
    hide GroupInv, Inv, PerformAll, View, ServerInv, OnlyBy, Towards, NodeSound, DiskSound, Agree, Faltered, Monotone,
         LeadersIndexed;
    StandingOf(g, p);
    InvOf(g);
    var v, s := View(g), g.servers[p];
    FalteredMoves(v, p, mid.term, mid.log, w);
    FalteredServer(v, p, s, Server(mid, PerformAll(s.disk, ws)));
    FalteredView(g, p, mid, ws);
    FalteredIndexed(v, p, mid.term, mid.log);
    UpdateKeeps(g, p, mid, ws, {}, {});
  }

  lemma FalteredIndexed(v: Protocol, p: NodeId, t: nat, taken: Log)
    requires LeadersIndexed(v)
    ensures LeadersIndexed(Faltered(v, p, t, taken))
  {
  }

  lemma TakingFalters(g: Group, p: NodeId, r: AppendRequest, done: nat) returns (mid: Node)
    requires GroupInv(g) && p in g.servers && RequestSound(View(g), p, r) && Accepts(g.servers[p].node, r)
    requires 0 < done < |HandleAppendRequest(g.servers[p].node, r).1|
    requires var d := PerformAll(g.servers[p].disk, HandleAppendRequest(g.servers[p].node, r).1[..done]);
             LastTerm(LoadLog(d.entries)) <= d.term
    ensures mid.cfg == g.servers[p].node.cfg && mid.role == Follower
    ensures Advances(g, Update(g, p, mid, HandleAppendRequest(g.servers[p].node, r).1[..done], {}, {}))
  {
    hide GroupInv, Update, View, Advances, HandleAppendRequest, Load, LoadLog, Inv, ServerInv, Accepts, NodeSound,
         DiskSound, PerformAll, RequestSound, BlockPartDone, Matches, Agree, Towards, Carries, LastTerm;
    StandingOf(g, p);
    var v, s := View(g), g.servers[p];
    SoundOf(v, p, s);
    AcceptsTerm(s.node, r);
    RequestFits(v, p, s, r);
    RequestParts(v, p, r);
    var ws := HandleAppendRequest(s.node, r).1[..done];
    var d' := PerformAll(s.disk, ws);
    var taken := BlockPart(s.node, s.disk, r, v.leaderLog[r.term], done);
    BackSound(s.node, s.disk, d', r, v.leaderLog[r.term], taken);
    PartFollows(v, p, s, d', r, taken);
    mid := Back(s.node, d', taken);
    FalteredKeeps(g, p, mid, ws, r.term);
  }

  lemma TakingBlock(g: Group, m: Message, done: nat)
    requires Ready(g, TakeAppend(m)) && done <= |Block(g, TakeAppend(m)).1|
    ensures var (n, ws, _) := HandleAppendRequest(g.servers[m.to].node, m.append);
            && Block(g, TakeAppend(m)) == (n, ws)
            && DiedWith(g, TakeAppend(m), done) == PerformAll(g.servers[m.to].disk, ws[..done])
  {
    hide HandleAppendRequest, PerformAll;
  }

  lemma TakingHalfWay(g: Group, m: Message, done: nat, mid: Node)
    requires Ready(g, TakeAppend(m)) && done <= |Block(g, TakeAppend(m)).1|
    requires HandleAppendRequest(g.servers[m.to].node, m.append).0.role == Follower
    requires mid.cfg == g.servers[m.to].node.cfg && mid.role == Follower
    ensures HalfWay(g, TakeAppend(m), done, mid)
  {
    hide HandleAppendRequest;
  }

  lemma DieTakingKeeps(g: Group, m: Message, done: nat)
    requires GroupInv(g) && DiesInside(g, TakeAppend(m), done) && MessageInv(View(g), m)
    ensures Advances(g, Died(g, TakeAppend(m), done))
  {
    hide GroupInv, Update, View, Advances, HandleAppendRequest, Load, LoadLog, Died, Inv, ServerInv, Accepts,
         NodeSound, DiskSound, PerformAll, RequestSound, Block, DiedWith, HalfWay, LastTerm;
    var p, r := m.to, m.append;
    TakingBlock(g, m, done);
    StandingOf(g, p);
    SoundOf(View(g), p, g.servers[p]);
    if Accepts(g.servers[p].node, r) {
      var mid := TakingFalters(g, p, r, done);
      AcceptedFollows(g.servers[p].node, r);
      TakingHalfWay(g, m, done, mid);
      DieAfterKeeps(g, TakeAppend(m), done, mid);
    } else {
      RefusedWrites(g.servers[p].node, r);
    }
  }

  lemma RequestParts(v: Protocol, p: NodeId, r: AppendRequest)
    requires RequestSound(v, p, r)
    ensures r.term in v.leaderLog && Carries(r, v.leaderLog[r.term])
  {
  }

  lemma AcceptedFollows(n: Node, r: AppendRequest)
    requires NodeSound(n) && Accepts(n, r)
    ensures HandleAppendRequest(n, r).0.role == Follower
  {
    hide Merge, Replayed;
    LastIsLength(n);
    SameCheck(n, Following(n, r.term), r);
    MergeKeepsConfig(Following(n, r.term), r.entries);
  }

  // ---- any block ------------------------------------------------------------------

  lemma CountsInOneWrite(n: Node, peer: NodeId, r: AppendReply)
    requires NodeSound(n)
    ensures |HandleAppendReply(n, peer, r).1| <= 1
  {
    hide MajorityIndex, Replayed;
  }

  lemma DieCountingAppend(g: Group, m: Message)
    requires GroupInv(g) && Ready(g, CountAppend(m))
    ensures |Block(g, CountAppend(m)).1| <= 1
  {
    hide GroupInv, HandleAppendReply, Inv, View, ServerInv;
    StandingOf(g, m.to);
    SoundOf(View(g), m.to, g.servers[m.to]);
    CountsInOneWrite(g.servers[m.to].node, m.from, m.appended);
  }

  /** Wherever a node dies, what it comes back as keeps the invariant. */
  lemma DieKeeps(g: Group, a: Action, done: nat)
    requires GroupInv(g) && Enabled(g, Die(a, done)) && InTerm(g, Die(a, done)) && DurableTerm(g, Die(a, done))
    ensures Advances(g, Died(g, a, done))
  {
    hide GroupInv, View, Advances, Block, Load, LoadLog, Died, DiedWith, MessageInv;
    if done == 0 {
      DieAtOnceKeeps(g, a);
    } else {
      match a
      case Timeout(p) => DieStandingKeeps(g, p, done);
      case Vote(m) => DieVotingKeeps(g, m, done);
      case CountVote(m) => SoundMessage(g, m); DieCountingKeeps(g, m, done);
      case TakeAppend(m) => SoundMessage(g, m); DieTakingKeeps(g, m, done);
      case CountAppend(m) => DieCountingAppend(g, m);
      case ClientPropose(p, command) => DieProposingKeeps(g, p, command, done);
    }
  }
}
