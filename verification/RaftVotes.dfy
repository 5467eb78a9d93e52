/**
  One vote per term, whatever a node is asked and wherever it dies, although hearing of a newer
  term in a reply is not written down.
*/
module RaftVotes {
  import opened Common
  import opened RaftProtocol
  import opened RaftNode
  import opened RaftNodeFacts
  import opened RaftCalls

  datatype Vote = Vote(term: nat, candidate: NodeId)

  /** The vote a served call gives away: a grant to the asker, or the one a candidate gives itself. */
  function VotesOf(n: Node, c: Call): set<Vote> {
    match c
    case Ask(r) => if HandleVoteRequest(n, r).2.granted then {Vote(HandleVoteRequest(n, r).2.term, r.candidate)} else {}
    case Timeout => if n.role == Leader then {} else {Vote(n.term + 1, n.cfg.id)}
    case _ => {}
  }

  ghost predicate Run(cfg: Config, states: seq<State>, given: seq<set<Vote>>, events: seq<Event>) {
    && |states| == |given| == |events| + 1
    && states[0] == State(None, EMPTY_DISK) && given[0] == {}
    && forall i :: 0 <= i < |events| ==>
         && Enabled(cfg, states[i], events[i]) && states[i + 1] == Next(cfg, states[i], events[i])
         && given[i + 1] == given[i] + (if events[i].Serve? then VotesOf(states[i].node.value, events[i].call) else {})
  }

  // ---- what storage remembers of votes --------------------------------------------

  datatype Meta = Meta(term: nat, votedFor: Option<NodeId>)

  function MetaOf(d: Disk): Meta { Meta(d.term, d.votedFor) }

  /** The record can go from `a` to `b` without forgetting a vote of `a`'s term. */
  predicate Onward(a: Meta, b: Meta) {
    a.term < b.term || (a.term == b.term && (a.votedFor == None || a.votedFor == b.votedFor))
  }

  /** Every record among the writes goes onward from the one before it. */
  predicate Rising(m: Meta, ws: seq<Write>)
    decreases |ws|
  {
    ws != [] ==>
      if ws[0].SaveMeta? then
        Onward(m, Meta(ws[0].term, ws[0].votedFor)) && Rising(Meta(ws[0].term, ws[0].votedFor), ws[1..])
      else Rising(m, ws[1..])
  }

  predicate Quiet(ws: seq<Write>) { forall i :: 0 <= i < |ws| ==> !ws[i].SaveMeta? }

  lemma {:induction false} RisingPrefix(d: Disk, ws: seq<Write>, k: nat)
    requires Rising(MetaOf(d), ws) && k <= |ws|
    ensures Onward(MetaOf(d), MetaOf(PerformAll(d, ws[..k])))
    decreases k
  {
    if k == 0 {
      assert ws[..k] == [];
    } else {
      assert ws[..k][0] == ws[0] && ws[..k][1..] == ws[1..][..k - 1];
      RisingPrefix(Perform(d, ws[0]), ws[1..], k - 1);
    }
  }

  lemma {:induction false} QuietRises(m: Meta, ws: seq<Write>)
    requires Quiet(ws)
    ensures Rising(m, ws)
    decreases |ws|
  {
    if ws != [] { QuietRises(m, ws[1..]); }
  }

  lemma {:induction false} QuietThen(m: Meta, quiet: seq<Write>, ws: seq<Write>)
    requires Quiet(quiet) && Rising(m, ws)
    ensures Rising(m, quiet + ws)
    decreases |quiet|
  {
    if quiet == [] {
      assert quiet + ws == ws;
    } else {
      assert (quiet + ws)[0] == quiet[0] && (quiet + ws)[1..] == quiet[1..] + ws;
      QuietThen(m, quiet[1..], ws);
    }
  }

  lemma SavedThen(m: Meta, w: Write, quiet: seq<Write>)
    requires w.SaveMeta? && Onward(m, Meta(w.term, w.votedFor)) && Quiet(quiet)
    ensures Rising(m, [w] + quiet)
  {
    QuietRises(Meta(w.term, w.votedFor), quiet);
    assert ([w] + quiet)[1..] == quiet;
  }

  lemma {:induction false} QuietMeta(d: Disk, ws: seq<Write>)
    requires Quiet(ws)
    ensures MetaOf(PerformAll(d, ws)) == MetaOf(d)
    decreases |ws|
  {
    if ws != [] { QuietMeta(Perform(d, ws[0]), ws[1..]); }
  }

  // ---- a node and its storage -----------------------------------------------------

  /** A term only memory knows has no vote in it. */
  predicate Remembers(n: Node, m: Meta) {
    && m.term <= n.term
    && n.votedFor == if m.term == n.term then m.votedFor else None
  }

  predicate SameMeta(n: Node, n': Node) { n'.term == n.term && n'.votedFor == n.votedFor }

  lemma ApplyQuiet(n: Node)
    ensures SameMeta(n, ApplyCommitted(n).0) && Quiet(ApplyCommitted(n).1)
  {
  }

  lemma UpdateQuiet(n: Node)
    ensures SameMeta(n, UpdateCommit(n).0) && Quiet(UpdateCommit(n).1)
  {
    hide MajorityIndex, ApplyCommitted;
    ApplyQuiet(n.(commit := MajorityIndex(n)));
  }

  lemma LeaderAppendQuiet(n: Node, command: Command)
    ensures SameMeta(n, LeaderAppend(n, command).0) && Quiet(LeaderAppend(n, command).1)
  {
    hide UpdateCommit;
    UpdateQuiet(n.(log := n.log + [Entry(n.term, LastIndex(n) + 1, command)]));
  }

  lemma CheckVotesQuiet(n: Node)
    ensures SameMeta(n, CheckVotes(n).0) && Quiet(CheckVotes(n).1)
  {
    hide LeaderAppend;
    LeaderAppendQuiet(n.(role := Leader, votes := {},
                         next := Positions(n.cfg.peers, LastIndex(n) + 1),
                         matched := Positions(n.cfg.peers, 0)), NOOP);
  }

  lemma {:induction false} MergeQuiet(n: Node, entries: Log)
    ensures SameMeta(n, Merge(n, entries).0) && Quiet(Merge(n, entries).1)
    decreases |entries|
  {
    if entries != [] { MergeQuiet(MergeOne(n, entries[0]).0, entries[1..]); }
  }

  lemma AdvanceQuiet(n: Node, commit: nat)
    ensures SameMeta(n, AdvanceCommit(n, commit).0) && Quiet(AdvanceCommit(n, commit).1)
  {
    hide ApplyCommitted;
    ApplyQuiet(n.(commit := Min(commit, LastIndex(n))));
  }

  lemma LoadQuiet(cfg: Config, d: Disk)
    ensures Quiet(Load(cfg, d).1) && Remembers(Load(cfg, d).0, MetaOf(d))
  {
  }

  ghost predicate Keeps(n: Node, d: Disk, n': Node, ws: seq<Write>) {
    Rising(MetaOf(d), ws) && Remembers(n', MetaOf(PerformAll(d, ws)))
  }

  lemma QuietKeeps(n: Node, d: Disk, n': Node, ws: seq<Write>)
    requires Remembers(n, MetaOf(d)) && Quiet(ws) && Remembers(n', MetaOf(d))
    ensures Keeps(n, d, n', ws)
  {
    QuietRises(MetaOf(d), ws);
    QuietMeta(d, ws);
  }

  lemma SavedKeeps(n: Node, d: Disk, n': Node, before: seq<Write>, after: seq<Write>)
    requires Remembers(n, MetaOf(d)) && Quiet(before) && Quiet(after) && Onward(MetaOf(d), Meta(n'.term, n'.votedFor))
    ensures Keeps(n, d, n', before + ([SaveMeta(n'.term, n'.votedFor)] + after))
  {
    var w := SaveMeta(n'.term, n'.votedFor);
    SavedThen(MetaOf(d), w, after);
    QuietThen(MetaOf(d), before, [w] + after);
    PerformAppend(d, before, [w] + after);
    var d1 := PerformAll(d, before);
    assert ([w] + after)[1..] == after;
    QuietMeta(Perform(d1, w), after);
  }

  lemma AskKeeps(n: Node, d: Disk, r: VoteRequest)
    requires Remembers(n, MetaOf(d))
    ensures Keeps(n, d, HandleVoteRequest(n, r).0, HandleVoteRequest(n, r).1)
  {
    var (n', ws, _) := HandleVoteRequest(n, r);
    if ws == [] {
      QuietKeeps(n, d, n', ws);
    } else if |ws| == 1 {
      SavedKeeps(n, d, n', [], []);
      assert [] + (ws + []) == ws;
    } else {
      var w := ws[0];
      assert ws[1..] == [ws[1]] && ws[1..][1..] == [];
      assert Rising(Meta(ws[1].term, ws[1].votedFor), []);
      assert Rising(Meta(w.term, w.votedFor), ws[1..]);
      PerformTwo(d, ws[0], ws[1]);
    }
  }

  lemma AppendKeeps(n: Node, d: Disk, r: AppendRequest)
    requires Remembers(n, MetaOf(d))
    ensures Keeps(n, d, HandleAppendRequest(n, r).0, HandleAppendRequest(n, r).1)
  {
    hide Merge, AdvanceCommit, PrevMismatch, LastIndex, Keeps;
    var (n', ws, _) := HandleAppendRequest(n, r);
    var n2 := Concede(NewerTerm(n, r.term));
    var (n3, merged) := Merge(n2, r.entries);
    var (n4, committed) := AdvanceCommit(n3, r.commit);
    MergeQuiet(n2, r.entries);
    AdvanceQuiet(n3, r.commit);
    if r.term > n.term {
      var w := SaveMeta(n'.term, n'.votedFor);
      if r.prevIndex > LastIndex(n2) || PrevMismatch(n2, r) {
        SavedKeeps(n, d, n', [], []);
        assert [] + ([w] + []) == ws;
      } else {
        SavedKeeps(n, d, n', merged, committed);
        assert merged + ([w] + committed) == ws;
      }
    } else {
      QuietKeeps(n, d, n', ws);
    }
  }

  lemma InstallKeeps(n: Node, d: Disk, r: InstallRequest)
    requires Remembers(n, MetaOf(d))
    ensures Keeps(n, d, HandleInstallRequest(n, r).0, HandleInstallRequest(n, r).1)
  {
    hide Keeps, Above;
    var (n', ws, _) := HandleInstallRequest(n, r);
    if r.term > n.term {
      var after := ws[1..];
      SavedKeeps(n, d, n', [], after);
      assert [] + ([SaveMeta(n'.term, n'.votedFor)] + after) == ws;
    } else {
      QuietKeeps(n, d, n', ws);
    }
  }

  lemma ReplyKeeps(n: Node, d: Disk, peer: NodeId, r: AppendReply)
    requires Remembers(n, MetaOf(d))
    ensures Keeps(n, d, HandleAppendReply(n, peer, r).0, HandleAppendReply(n, peer, r).1)
  {
    hide Keeps, UpdateCommit;
    UpdateQuiet(n.(next := n.next[peer := r.matchIndex + 1], matched := n.matched[peer := r.matchIndex]));
    QuietKeeps(n, d, HandleAppendReply(n, peer, r).0, HandleAppendReply(n, peer, r).1);
  }

  lemma TimeoutKeeps(n: Node, d: Disk)
    requires Remembers(n, MetaOf(d))
    ensures Keeps(n, d, StartElection(n).0, StartElection(n).1)
  {
    hide Keeps, CheckVotes;
    var (n', ws) := StartElection(n);
    if n.role == Leader {
      QuietKeeps(n, d, n', ws);
    } else {
      var c := n.(role := Candidate, term := n.term + 1, votedFor := Some(n.cfg.id), votes := {n.cfg.id});
      CheckVotesQuiet(c);
      SavedKeeps(n, d, n', [], CheckVotes(c).1);
      assert [] + ([SaveMeta(n'.term, n'.votedFor)] + CheckVotes(c).1) == ws;
    }
  }

  lemma VoteReplyKeeps(n: Node, d: Disk, peer: NodeId, r: VoteReply)
    requires Remembers(n, MetaOf(d))
    ensures Keeps(n, d, HandleVoteReply(n, peer, r).0, HandleVoteReply(n, peer, r).1)
  {
    hide Keeps, CheckVotes;
    CheckVotesQuiet(n.(votes := n.votes + {peer}));
    QuietKeeps(n, d, HandleVoteReply(n, peer, r).0, HandleVoteReply(n, peer, r).1);
  }

  lemma HandleKeeps(n: Node, d: Disk, c: Call)
    requires Remembers(n, MetaOf(d))
    ensures Keeps(n, d, Handle(n, c).0, Handle(n, c).1)
  {
    hide Keeps, StartElection, HandleVoteRequest, HandleVoteReply, HandleAppendRequest, HandleAppendReply,
         HandleInstallRequest,
         LeaderAppend;
    match c
    case Timeout => TimeoutKeeps(n, d);
    case Ask(r) => AskKeeps(n, d, r);
    case VoteAnswer(p, r) => VoteReplyKeeps(n, d, p, r);
    case Append(r) => AppendKeeps(n, d, r);
    case AppendAnswer(p, r) => ReplyKeeps(n, d, p, r);
    case Install(r) => InstallKeeps(n, d, r);
    case InstallAnswer(p, index, r) => ReplyKeeps(n, d, p, AppendReply(r.term, r.success, index));
    case Client(command) =>
      LeaderAppendQuiet(n, command);
      QuietKeeps(n, d, Handle(n, c).0, Handle(n, c).1);
  }

  // ---- over whole runs ------------------------------------------------------------

  /** Every vote given is of an earlier term, or is the one storage names for its term. */
  ghost predicate Recorded(given: set<Vote>, m: Meta) {
    forall v :: v in given ==> v.term < m.term || (v.term == m.term && m.votedFor == Some(v.candidate))
  }

  ghost predicate VoteInv(s: State, given: set<Vote>) {
    && Recorded(given, MetaOf(s.disk))
    && (s.node.Some? ==> Remembers(s.node.value, MetaOf(s.disk)))
    && forall v, w :: v in given && w in given && v.term == w.term ==> v.candidate == w.candidate
  }

  lemma GrantIsSaved(n: Node, d: Disk, r: VoteRequest)
    ensures var (_, ws, reply) := HandleVoteRequest(n, r);
            reply.granted ==> MetaOf(PerformAll(d, ws)) == Meta(reply.term, Some(r.candidate))
  {
    var (_, ws, reply) := HandleVoteRequest(n, r);
    if reply.granted {
      if |ws| == 1 {
        PerformOne(d, ws[0]);
      } else {
        PerformTwo(d, ws[0], ws[1]);
      }
    }
  }

  lemma StandIsSaved(n: Node, d: Disk)
    requires n.role != Leader
    ensures MetaOf(PerformAll(d, StartElection(n).1)) == Meta(n.term + 1, Some(n.cfg.id))
  {
    hide CheckVotes;
    var e := n.(role := Candidate, term := n.term + 1, votedFor := Some(n.cfg.id), votes := {n.cfg.id});
    CheckVotesQuiet(e);
    var rest := CheckVotes(e).1;
    var w := SaveMeta(e.term, e.votedFor);
    assert ([w] + rest)[1..] == rest;
    QuietMeta(Perform(d, w), rest);
  }

  /** A vote that is given is on disk by the time it is. */
  lemma GivenIsSaved(n: Node, d: Disk, c: Call, v: Vote)
    requires v in VotesOf(n, c)
    ensures MetaOf(PerformAll(d, Handle(n, c).1)) == Meta(v.term, Some(v.candidate))
  {
    hide StartElection, HandleVoteRequest, PerformAll;
    match c {
      case Ask(r) => GrantIsSaved(n, d, r);
      case Timeout => StandIsSaved(n, d);
      case _ =>
    }
  }

  lemma NextKeeps(cfg: Config, s: State, given: set<Vote>, e: Event)
    requires VoteInv(s, given) && Enabled(cfg, s, e)
    ensures VoteInv(Next(cfg, s, e), given + (if e.Serve? then VotesOf(s.node.value, e.call) else {}))
  {
    hide Handle, Load, Rising, VotesOf;
    match e {
      case Serve(c) =>
        var n := s.node.value;
        var (n', ws) := Handle(n, c);
        HandleKeeps(n, s.disk, c);
        RisingPrefix(s.disk, ws, |ws|);
        assert ws[..|ws|] == ws;
        forall v | v in VotesOf(n, c) ensures MetaOf(PerformAll(s.disk, ws)) == Meta(v.term, Some(v.candidate)) {
          GivenIsSaved(n, s.disk, c, v);
        }
      case DieIn(c, k) =>
        HandleKeeps(s.node.value, s.disk, c);
        RisingPrefix(s.disk, Handle(s.node.value, c).1, k);
      case Start =>
        LoadQuiet(cfg, s.disk);
        QuietMeta(s.disk, Load(cfg, s.disk).1);
      case DieStarting(k) =>
        LoadQuiet(cfg, s.disk);
        QuietMeta(s.disk, Load(cfg, s.disk).1[..k]);
    }
  }

  lemma {:induction false} RunKeeps(cfg: Config, states: seq<State>, given: seq<set<Vote>>, events: seq<Event>, i: nat)
    requires Run(cfg, states, given, events) && i < |states|
    ensures VoteInv(states[i], given[i])
  {
    hide Next, Enabled, VotesOf, VoteInv;
    if i == 0 {
      assert VoteInv(State(None, EMPTY_DISK), {}) by { InitialVotes(); }
    } else {
      RunKeeps(cfg, states, given, events, i - 1);
      NextKeeps(cfg, states[i - 1], given[i - 1], events[i - 1]);
    }
  }

  lemma InitialVotes()
    ensures VoteInv(State(None, EMPTY_DISK), {})
  {
  }

  /** Whatever it is asked and wherever it dies, a node gives no two candidates its vote in one
      term: not by granting, not by standing itself, and not by forgetting. */
  lemma OneVotePerTerm(cfg: Config, states: seq<State>, given: seq<set<Vote>>, events: seq<Event>, i: nat, v: Vote,
                       w: Vote)
    requires Run(cfg, states, given, events) && i < |states|
    requires v in given[i] && w in given[i] && v.term == w.term
    ensures v == w
  {
    RunKeeps(cfg, states, given, events, i);
  }
}
