/**
  Through every call, snapshot, install and crash, a node's machine is the replay of the committed
  commands up to its applied index, and its snapshot and its log leave no gap between them.
*/
module RaftReplay {
  import opened Common
  import opened RaftProtocol
  import opened RaftNode
  import opened RaftNodeFacts
  import opened RaftCalls
  import opened RaftCompaction

  // ---- what the rest of the group may say -----------------------------------------

  /** The request carries its term's leader's log past `prevIndex`; as far as that leader says, and
      as far as this node has committed, that log is what was committed. */
  ghost predicate RequestFits(st: Story, n: Node, r: AppendRequest) {
    r.term in st.led &&
    var log := st.led[r.term];
    var end := r.prevIndex + |r.entries|;
    && end <= |log| && r.entries == log[r.prevIndex..end]
    && (r.prevIndex > 0 ==> r.prevTerm == log[r.prevIndex - 1].term)
    && r.commit <= end
    && Agree(log, st.committed, Max(r.commit, Min(n.commit, end)))
  }

  /** What the commit rule picks here is committed. */
  ghost predicate CountFits(st: Story, n: Node) {
    var c := MajorityIndex(n);
    c > n.commit && EntryAt(n, c).Some? && EntryAt(n, c).value.term == n.term ==> Settled(st, n.log, n.base, c)
  }

  /** The log this leader ends up with is its term's. */
  ghost predicate LeadFits(st: Story, n: Node, command: Command) {
    var m := n.(log := n.log + [Entry(n.term, LastIndex(n) + 1, command)]);
    n.term in st.led && Follows(m.log, m.base, st.led[n.term], m.base + |m.log|) && CountFits(st, m)
  }

  ghost predicate ElectFits(st: Story, n: Node) {
    n.role == Candidate && |n.votes| >= Majority(GroupSize(n)) ==>
      LeadFits(st, n.(role := Leader, votes := {},
                      next := Positions(n.cfg.peers, LastIndex(n) + 1),
                      matched := Positions(n.cfg.peers, 0)), NOOP)
  }

  ghost predicate ReplyFits(st: Story, n: Node, peer: NodeId, r: AppendReply) {
    r.term <= n.term && n.role == Leader && r.success ==>
      CountFits(st, n.(next := n.next[peer := r.matchIndex + 1], matched := n.matched[peer := r.matchIndex]))
  }

  /** The messages agree with what was committed. */
  ghost predicate Fits(st: Story, n: Node, c: Call) {
    match c
    case Timeout =>
      n.role != Leader ==>
        ElectFits(st, n.(role := Candidate, term := n.term + 1, votedFor := Some(n.cfg.id), votes := {n.cfg.id}))
    case Ask(_) => true
    case VoteAnswer(p, r) => r.term <= n.term && r.granted ==> ElectFits(st, n.(votes := n.votes + {p}))
    case Append(r) => r.term >= n.term ==> RequestFits(st, n, r)
    case AppendAnswer(p, r) => ReplyFits(st, n, p, r)
    case Install(r) => r.term >= n.term && r.snapshot.index > n.applied ==> SnapshotSound(st, r.snapshot)
    case InstallAnswer(p, index, r) => ReplyFits(st, n, p, AppendReply(r.term, r.success, index))
    case Client(command) => n.role == Leader ==> LeadFits(st, n, command)
  }

  // ---- applying -------------------------------------------------------------------

  lemma SettledSlice(st: Story, log: Log, base: nat, from: nat, c: nat)
    requires Settled(st, log, base, c) && base <= from <= c
    ensures log[from - base..c - base] == st.committed[from..c]
  {
    var a, b := log[from - base..c - base], st.committed[from..c];
    forall i | 0 <= i < c - from ensures a[i] == b[i] {
      assert Same(log, base, st.committed, from + i);
    }
  }

  lemma HandedSplit(log: Log, from: nat, c: nat)
    requires from <= c <= |log|
    ensures Handed(log[..from]) + Handed(log[from..c]) == Handed(log[..c])
  {
    HandedAppend(log[..from], log[from..c]);
    assert log[..from] + log[from..c] == log[..c];
  }

  lemma ApplyKeeps(st: Story, n: Node, d: Disk)
    requires Ready(st, n, d)
    ensures Left(st, d, ApplyCommitted(n).0, ApplyCommitted(n).1)
  {
    hide Holds, Left, MaybeSnapshot, ApplyLoop, Handed, Same, Replayed;
    ApplyLoopHands(n);
    SettledSlice(st, n.log, n.base, n.applied, n.commit);
    HandedSplit(st.committed, n.applied, n.commit);
    MaybeSnapshotKeeps(st, ApplyLoop(n), d);
  }

  /** Committing further, in memory and then in storage, and applying. */
  lemma CommitKeeps(st: Story, n: Node, d: Disk, c: nat)
    requires NodeInv(st, n, d) && c > n.commit && Settled(st, n.log, n.base, c)
    ensures var (n', ws) := ApplyCommitted(n.(commit := c)); Left(st, d, n', [SaveCommit(c)] + ws)
  {
    hide Settled, Traced, Mirrors, Indexed, SnapshotSound, Left, ApplyCommitted, Safe, DiskInv;
    var w := SaveCommit(c);
    HeldIsSound(st, d, n.log);
    HeldIsSound(st, Perform(d, w), n.log);
    SafeOne(st, d, w);
    PerformOne(d, w);
    ApplyKeeps(st, n.(commit := c), Perform(d, w));
    LeftAfter(st, d, [w], ApplyCommitted(n.(commit := c)).0, ApplyCommitted(n.(commit := c)).1);
  }

  // ---- leading --------------------------------------------------------------------

  /** What a node knows of terms, votes and peers is no part of this. */
  predicate SameLog(n: Node, m: Node) {
    n.log == m.log && n.base == m.base && n.baseTerm == m.baseTerm && n.commit == m.commit && n.applied == m.applied
    && n.machine == m.machine
  }

  lemma SameLogKeeps(st: Story, n: Node, m: Node, d: Disk)
    requires NodeInv(st, n, d) && SameLog(n, m)
    ensures NodeInv(st, m, d)
  {
  }

  lemma CountKeeps(st: Story, n: Node, d: Disk)
    requires NodeInv(st, n, d) && CountFits(st, n)
    ensures Left(st, d, UpdateCommit(n).0, UpdateCommit(n).1)
  {
    hide Left, NodeInv, Settled, ApplyCommitted, MajorityIndex, EntryAt;
    LeftAlone(st, n, d);
    var c := MajorityIndex(n);
    if c > n.commit && EntryAt(n, c).Some? && EntryAt(n, c).value.term == n.term {
      CommitKeeps(st, n, d, c);
    }
  }

  lemma LastOf(n: Node)
    requires Indexed(n.log, n.base)
    ensures LastIndex(n) == n.base + |n.log|
  {
  }

  /** One more entry, put in storage as it is put in the log. */
  lemma PutKeeps(st: Story, n: Node, d: Disk, e: Entry)
    requires NodeInv(st, n, d) && e.index == n.base + |n.log| + 1
    requires TracedAt(st, n.log + [e], n.base, n.base + |n.log|)
    ensures NodeInv(st, n.(log := n.log + [e]), Perform(d, PutEntry(e)))
  {
    hide Mirrors, Indexed, Traced, TracedAt, SnapshotSound, Follows;
    TracedMore(st, n.log, n.base, e);
    PutMirrors(d, n.log, n.base, e);
    FollowsMore(n.log, n.base, st.committed, n.commit, e);
    FollowsMore(n.log, n.base, st.committed, d.commit, e);
  }

  lemma LeadPuts(st: Story, n: Node, d: Disk, command: Command)
    requires NodeInv(st, n, d) && LeadFits(st, n, command)
    ensures var e := Entry(n.term, LastIndex(n) + 1, command);
            && Safe(st, d, [PutEntry(e)]) && NodeInv(st, n.(log := n.log + [e]), Perform(d, PutEntry(e)))
  {
    hide CountFits, Safe, DiskInv, Follows, Traced, Mirrors, Settled, LastIndex, Perform;
    LastOf(n);
    var e := Entry(n.term, LastIndex(n) + 1, command);
    PutKeeps(st, n, d, e);
    HeldIsSound(st, d, n.log);
    HeldIsSound(st, Perform(d, PutEntry(e)), n.log + [e]);
    SafeOne(st, d, PutEntry(e));
  }

  lemma LeadKeeps(st: Story, n: Node, d: Disk, command: Command)
    requires NodeInv(st, n, d) && LeadFits(st, n, command)
    ensures Left(st, d, LeaderAppend(n, command).0, LeaderAppend(n, command).1)
  {
    hide Left, UpdateCommit, CountFits, Safe, NodeInv, Follows, LastIndex, Perform, PerformAll;
    var e := Entry(n.term, LastIndex(n) + 1, command);
    var m := n.(log := n.log + [e]);
    LeadPuts(st, n, d, command);
    PerformOne(d, PutEntry(e));
    CountKeeps(st, m, Perform(d, PutEntry(e)));
    LeftAfter(st, d, [PutEntry(e)], UpdateCommit(m).0, UpdateCommit(m).1);
  }

  lemma ElectKeeps(st: Story, n: Node, d: Disk)
    requires NodeInv(st, n, d) && ElectFits(st, n)
    ensures Left(st, d, CheckVotes(n).0, CheckVotes(n).1)
  {
    hide Left, NodeInv, LeaderAppend, LeadFits;
    LeftAlone(st, n, d);
    if n.role == Candidate && |n.votes| >= Majority(GroupSize(n)) {
      var m := n.(role := Leader, votes := {}, next := Positions(n.cfg.peers, LastIndex(n) + 1),
                  matched := Positions(n.cfg.peers, 0));
      SameLogKeeps(st, n, m, d);
      LeadKeeps(st, m, d, NOOP);
    }
  }

  /** Writing the term and the vote down touches nothing else. */
  lemma MetaKeeps(st: Story, n: Node, d: Disk, w: Write)
    requires NodeInv(st, n, d) && w.SaveMeta?
    ensures Safe(st, d, [w]) && PerformAll(d, [w]) == Perform(d, w) && NodeInv(st, n, Perform(d, w))
  {
    hide Safe, DiskInv, SnapshotSound, Settled, Traced, Mirrors;
    HeldIsSound(st, d, n.log);
    HeldIsSound(st, Perform(d, w), n.log);
    SafeOne(st, d, w);
    PerformOne(d, w);
  }

  lemma TimeoutKeeps(st: Story, n: Node, d: Disk)
    requires NodeInv(st, n, d) && Fits(st, n, Timeout)
    ensures Left(st, d, StartElection(n).0, StartElection(n).1)
  {
    hide Left, NodeInv, Safe, CheckVotes, ElectFits;
    LeftAlone(st, n, d);
    if n.role != Leader {
      var c := n.(role := Candidate, term := n.term + 1, votedFor := Some(n.cfg.id), votes := {n.cfg.id});
      var w := SaveMeta(c.term, c.votedFor);
      SameLogKeeps(st, n, c, d);
      MetaKeeps(st, c, d, w);
      ElectKeeps(st, c, Perform(d, w));
      LeftAfter(st, d, [w], CheckVotes(c).0, CheckVotes(c).1);
    }
  }

  lemma ReplyKeeps(st: Story, n: Node, d: Disk, peer: NodeId, r: AppendReply)
    requires NodeInv(st, n, d) && ReplyFits(st, n, peer, r)
    ensures Left(st, d, HandleAppendReply(n, peer, r).0, HandleAppendReply(n, peer, r).1)
  {
    hide Left, NodeInv, UpdateCommit, CountFits;
    var n' := HandleAppendReply(n, peer, r).0;
    if r.term <= n.term && n.role == Leader && r.success {
      var m := n.(next := n.next[peer := r.matchIndex + 1], matched := n.matched[peer := r.matchIndex]);
      SameLogKeeps(st, n, m, d);
      CountKeeps(st, m, d);
    } else {
      SameLogKeeps(st, n, n', d);
      LeftAlone(st, n', d);
    }
  }

  // ---- following ------------------------------------------------------------------

  /** A matching term at a position means the whole retained log up to it is the leader's. */
  lemma SameTermFollows(st: Story, log: Log, base: nat, t: nat, i: nat)
    requires Coherent(st) && Traced(st, log, base) && t in st.led && base <= i < base + |log| && i < |st.led[t]|
    requires log[i - base].term == st.led[t][i].term
    ensures Follows(log, base, st.led[t], i + 1)
  {
    assert TracedAt(st, log, base, i);
    assert Owned(st, st.led[t], i);
    var own := st.led[log[i - base].term];
    forall j | base <= j < i + 1 ensures Same(log, base, st.led[t], j) {
      assert Same(log, base, own, j);
    }
  }

  lemma LeadersEntryTraced(st: Story, log: Log, base: nat, t: nat, i: nat)
    requires Coherent(st) && t in st.led && i < |st.led[t]| && base <= i < base + |log|
    requires Follows(log, base, st.led[t], i + 1)
    ensures TracedAt(st, log, base, i)
  {
    assert Owned(st, st.led[t], i);
    assert Same(log, base, st.led[t], i);
    FollowsOther(log, base, st.led[t], st.led[st.led[t][i].term], i + 1);
  }

  /** Cutting the log above what is committed. */
  lemma CutKeeps(st: Story, n: Node, d: Disk, keep: nat)
    requires NodeInv(st, n, d) && keep <= |n.log| && n.commit <= n.base + keep
    ensures NodeInv(st, n.(log := n.log[..keep]), Perform(d, Truncate(n.base + keep + 1)))
  {
    hide Mirrors, Indexed, Traced, SnapshotSound, Follows;
    TracedCut(st, n.log, n.base, keep);
    TruncateMirrors(d, n.log, n.base, keep);
    FollowsCut(n.log, n.base, st.committed, n.commit, keep, n.commit);
    FollowsCut(n.log, n.base, st.committed, d.commit, keep, d.commit);
  }

  ghost predicate Merging(st: Story, n: Node, d: Disk, t: nat, i: nat) {
    && Coherent(st) && NodeInv(st, n, d) && t in st.led && i <= |st.led[t]|
    && Follows(n.log, n.base, st.led[t], i) && Agree(st.led[t], st.committed, Min(n.commit, i))
  }

  lemma CommittedIsLeaders(st: Story, n: Node, d: Disk, t: nat, i: nat)
    requires NodeInv(st, n, d) && t in st.led && n.base <= i < n.commit && Agree(st.led[t], st.committed, i + 1)
    ensures EntryAt(n, i + 1) == Some(st.led[t][i])
  {
    assert Same(n.log, n.base, st.committed, i);
  }

  /** Appending the leader's entry at the end. */
  lemma MergeAppends(st: Story, n: Node, d: Disk, t: nat, i: nat)
    requires Merging(st, n, d, t, i) && i < |st.led[t]| && i == n.base + |n.log|
    ensures var e := st.led[t][i]; var m := n.(log := n.log + [e]);
            && Safe(st, d, [PutEntry(e)]) && PerformAll(d, [PutEntry(e)]) == Perform(d, PutEntry(e))
            && NodeInv(st, m, Perform(d, PutEntry(e))) && Follows(m.log, m.base, st.led[t], i + 1)
  {
    hide Safe, DiskInv, Follows, Traced, Mirrors, Settled;
    var e := st.led[t][i];
    FollowsMore(n.log, n.base, st.led[t], i, e);
    LeadersEntryTraced(st, n.log + [e], n.base, t, i);
    assert Indexed(st.led[t], 0);
    PutKeeps(st, n, d, e);
    HeldIsSound(st, d, n.log);
    HeldIsSound(st, Perform(d, PutEntry(e)), n.log + [e]);
    SafeOne(st, d, PutEntry(e));
    PerformOne(d, PutEntry(e));
  }

  ghost predicate Merged(st: Story, n: Node, d: Disk, t: nat, i: nat, n': Node, ws: seq<Write>) {
    && Safe(st, d, ws) && NodeInv(st, n', PerformAll(d, ws)) && t in st.led && Follows(n'.log, n'.base, st.led[t], i)
    && n' == n.(log := n'.log)
  }

  lemma MergeCuts(st: Story, n: Node, d: Disk, t: nat, i: nat)
    requires Merging(st, n, d, t, i) && i < |st.led[t]| && n.base <= i < n.base + |n.log| && n.commit <= i
    ensures var e := st.led[t][i];
            Merged(st, n, d, t, i + 1, n.(log := n.log[..i - n.base] + [e]), [Truncate(i + 1), PutEntry(e)])
  {
    hide Safe, DiskInv, Follows, Traced, Mirrors, Settled, Indexed, Coherent;
    var keep := i - n.base;
    var e := st.led[t][i];
    var cut := n.(log := n.log[..keep]);
    var d1 := Perform(d, Truncate(i + 1));
    CutKeeps(st, n, d, keep);
    FollowsCut(n.log, n.base, st.led[t], i, keep, i);
    MergeAppends(st, cut, d1, t, i);
    HeldIsSound(st, d, n.log);
    HeldIsSound(st, d1, cut.log);
    SafeOne(st, d, Truncate(i + 1));
    PerformOne(d, Truncate(i + 1));
    SafeAppend(st, d, [Truncate(i + 1)], [PutEntry(e)]);
    PerformAppend(d, [Truncate(i + 1)], [PutEntry(e)]);
    assert [Truncate(i + 1)] + [PutEntry(e)] == [Truncate(i + 1), PutEntry(e)];
  }

  /** One entry of the leader's against the log: nothing committed is ever cut. */
  lemma MergeOneKeeps(st: Story, n: Node, d: Disk, t: nat, i: nat)
    requires Merging(st, n, d, t, i) && i < |st.led[t]| && Agree(st.led[t], st.committed, Min(n.commit, i + 1))
    ensures var (n', ws) := MergeOne(n, st.led[t][i]); Merged(st, n, d, t, i + 1, n', ws)
  {
    hide Safe, Traced, Mirrors, Settled, NodeInv;
    var e := st.led[t][i];
    assert Indexed(st.led[t], 0);
    LeftAlone(st, n, d);
    if e.index <= n.base {
    } else if EntryAt(n, e.index).None? {
      MergeAppends(st, n, d, t, i);
    } else if EntryAt(n, e.index).value.term == e.term {
      HeldTraced(st, n, d);
      SameTermFollows(st, n.log, n.base, t, i);
    } else {
      if i < n.commit { CommittedIsLeaders(st, n, d, t, i); }
      BelowCommit(st, n, d);
      MergeCuts(st, n, d, t, i);
      LastOf(n.(log := n.log[..i - n.base]));
    }
  }

  lemma HeldTraced(st: Story, n: Node, d: Disk)
    requires NodeInv(st, n, d)
    ensures Traced(st, n.log, n.base)
  {
  }

  lemma BelowCommit(st: Story, n: Node, d: Disk)
    requires NodeInv(st, n, d)
    ensures n.applied == n.commit <= n.base + |n.log| && Indexed(n.log, n.base) && n.base <= n.commit
  {
  }

  lemma {:induction false} MergeKeeps(st: Story, n: Node, d: Disk, t: nat, from: nat, upTo: nat)
    requires Merging(st, n, d, t, from) && from <= upTo <= |st.led[t]|
    requires Agree(st.led[t], st.committed, Min(n.commit, upTo))
    ensures var (n', ws) := Merge(n, st.led[t][from..upTo]); Merged(st, n, d, t, upTo, n', ws)
    decreases upTo - from
  {
    hide Safe, NodeInv, Follows, MergeOne, Coherent;
    var entries := st.led[t][from..upTo];
    if from == upTo {
      LeftAlone(st, n, d);
    } else {
      assert entries[0] == st.led[t][from] && entries[1..] == st.led[t][from + 1..upTo];
      MergeOneKeeps(st, n, d, t, from);
      var (n1, ws1) := MergeOne(n, entries[0]);
      var d1 := PerformAll(d, ws1);
      MergeKeeps(st, n1, d1, t, from + 1, upTo);
      var (n2, ws2) := Merge(n1, entries[1..]);
      SafeAppend(st, d, ws1, ws2);
      PerformAppend(d, ws1, ws2);
    }
  }

  /** The entry before the request's first being the leader's, so is everything retained before it. */
  lemma PrevFollows(st: Story, n: Node, d: Disk, r: AppendRequest)
    requires Coherent(st) && NodeInv(st, n, d) && RequestFits(st, n, r)
    requires r.prevIndex <= LastIndex(n) && !PrevMismatch(n, r)
    ensures Follows(n.log, n.base, st.led[r.term], r.prevIndex)
  {
    hide Coherent, Traced, Mirrors, Settled;
    LastOf(n);
    if n.base < r.prevIndex {
      SameTermFollows(st, n.log, n.base, r.term, r.prevIndex - 1);
    }
  }

  lemma AdvanceKeeps(st: Story, n: Node, d: Disk, log: Log, end: nat, commit: nat)
    requires NodeInv(st, n, d) && Follows(n.log, n.base, log, end) && commit <= end && Agree(log, st.committed, commit)
    ensures Left(st, d, AdvanceCommit(n, commit).0, AdvanceCommit(n, commit).1)
  {
    hide Left, ApplyCommitted, Traced, Mirrors;
    LastOf(n);
    LeftAlone(st, n, d);
    if commit > n.commit {
      FollowsCut(n.log, n.base, log, end, |n.log|, commit);
      assert n.log[..|n.log|] == n.log;
      FollowsOther(n.log, n.base, log, st.committed, commit);
      CommitKeeps(st, n, d, commit);
    }
  }

  lemma AgreeLess(a: Log, b: Log, n: nat, m: nat)
    requires Agree(a, b, n) && m <= n
    ensures Agree(a, b, m)
  {
  }

  /** The accepted part of a request: merge, note the term if it is new, commit. */
  lemma AcceptKeeps(st: Story, n: Node, d: Disk, r: AppendRequest, meta: seq<Write>)
    requires Coherent(st) && NodeInv(st, n, d) && RequestFits(st, n, r)
    requires r.prevIndex <= LastIndex(n) && !PrevMismatch(n, r)
    requires meta == [] || (|meta| == 1 && meta[0].SaveMeta?)
    ensures var (n3, merged) := Merge(n, r.entries);
            var (n4, committed) := AdvanceCommit(n3, r.commit);
            Left(st, d, n4, merged + meta + committed)
  {
    hide NodeInv, Safe, Follows, Merge, AdvanceCommit, Coherent, PrevMismatch, LastIndex, Agree;
    var log := st.led[r.term];
    var end := r.prevIndex + |r.entries|;
    PrevFollows(st, n, d, r);
    AgreeLess(log, st.committed, Max(r.commit, Min(n.commit, end)), Min(n.commit, r.prevIndex));
    AgreeLess(log, st.committed, Max(r.commit, Min(n.commit, end)), Min(n.commit, end));
    AgreeLess(log, st.committed, Max(r.commit, Min(n.commit, end)), r.commit);
    MergeKeeps(st, n, d, r.term, r.prevIndex, end);
    var (n3, merged) := Merge(n, r.entries);
    var d3 := PerformAll(d, merged);
    var (n4, committed) := AdvanceCommit(n3, r.commit);
    if meta == [] {
      AdvanceKeeps(st, n3, d3, log, end, r.commit);
      assert merged + meta == merged;
      LeftAfter(st, d, merged, n4, committed);
    } else {
      assert meta == [meta[0]];
      MetaKeeps(st, n3, d3, meta[0]);
      AdvanceKeeps(st, n3, Perform(d3, meta[0]), log, end, r.commit);
      SafeAppend(st, d, merged, meta);
      PerformAppend(d, merged, meta);
      LeftAfter(st, d, merged + meta, n4, committed);
    }
  }

  lemma AppendKeeps(st: Story, n: Node, d: Disk, r: AppendRequest)
    requires Coherent(st) && NodeInv(st, n, d) && Fits(st, n, Append(r))
    ensures Left(st, d, HandleAppendRequest(n, r).0, HandleAppendRequest(n, r).1)
  {
    hide Left, NodeInv, Merge, AdvanceCommit, PrevMismatch, LastIndex, Coherent, Safe, Agree;
    var n2 := Concede(NewerTerm(n, r.term));
    var n' := HandleAppendRequest(n, r).0;
    if r.term < n.term {
      LeftAlone(st, n, d);
    } else {
      SameLogKeeps(st, n, n2, d);
      var meta := if r.term > n.term then [SaveMeta(n2.term, n2.votedFor)] else [];
      if r.prevIndex > LastIndex(n2) || PrevMismatch(n2, r) {
        LeftAlone(st, n2, d);
        if meta != [] { MetaOnly(st, n2, d, meta[0]); }
      } else {
        AcceptKeeps(st, n2, d, r, meta);
      }
    }
  }

  lemma MetaOnly(st: Story, n: Node, d: Disk, w: Write)
    requires NodeInv(st, n, d) && w.SaveMeta?
    ensures Left(st, d, n, [w])
  {
    hide NodeInv, Safe;
    MetaKeeps(st, n, d, w);
  }

  // ---- asking, and taking a snapshot ----------------------------------------------

  lemma AskKeeps(st: Story, n: Node, d: Disk, r: VoteRequest)
    requires NodeInv(st, n, d)
    ensures Left(st, d, HandleVoteRequest(n, r).0, HandleVoteRequest(n, r).1)
  {
    hide Left, NodeInv, Safe, LastIndex, LastLogTerm;
    var (n', ws, _) := HandleVoteRequest(n, r);
    SameLogKeeps(st, n, n', d);
    if ws == [] {
      LeftAlone(st, n', d);
    } else if |ws| == 1 {
      assert ws == [ws[0]];
      MetaOnly(st, n', d, ws[0]);
    } else {
      MetaKeeps(st, n', d, ws[0]);
      MetaOnly(st, n', Perform(d, ws[0]), ws[1]);
      LeftAfter(st, d, [ws[0]], n', [ws[1]]);
      assert ws == [ws[0]] + [ws[1]];
    }
  }

  function Installed(n: Node, s: Snapshot): Node {
    n.(machine := s.data, log := Above(n.log, s.index), base := s.index, baseTerm := s.term, applied := s.index,
       commit := Max(n.commit, s.index))
  }

  lemma SnapshotKeeps(st: Story, n: Node, d: Disk, s: Snapshot)
    requires NodeInv(st, n, d) && SnapshotSound(st, s) && s.index > n.applied
    ensures Left(st, d, Installed(n, s), [SaveSnapshot(s), Compact(s.index), SaveCommit(Installed(n, s).commit)])
  {
    hide Safe, Settled, DiskInv, Above, Mirrors, Traced, Handed;
    var v, w, x := SaveSnapshot(s), Compact(s.index), SaveCommit(s.index);
    var d1 := Perform(d, v);
    var d2 := Perform(d1, w);
    var log := Above(n.log, s.index);
    SnapshotHolds(st, d, n.log, s);
    SettledAtBase(st, log, s.index, s.index);
    HeldIsSound(st, d, n.log);
    HeldIsSound(st, d1, log);
    HeldIsSound(st, d2, log);
    HeldIsSound(st, Perform(d2, x), log);
    SafeTwo(st, d, v, w);
    PerformTwo(d, v, w);
    SafeOne(st, d2, x);
    PerformOne(d2, x);
    SafeAppend(st, d, [v, w], [x]);
    PerformAppend(d, [v, w], [x]);
    assert [v, w] + [x] == [v, w, x];
  }

  lemma InstallKeeps(st: Story, n: Node, d: Disk, r: InstallRequest)
    requires NodeInv(st, n, d) && Fits(st, n, Install(r))
    ensures Left(st, d, HandleInstallRequest(n, r).0, HandleInstallRequest(n, r).1)
  {
    hide Left, NodeInv, Safe, SnapshotSound, Above;
    var n2 := Concede(NewerTerm(n, r.term));
    var (n', ws, _) := HandleInstallRequest(n, r);
    if r.term < n.term {
      LeftAlone(st, n, d);
    } else {
      SameLogKeeps(st, n, n2, d);
      var rest := if r.snapshot.index <= n.applied then []
                  else [SaveSnapshot(r.snapshot), Compact(r.snapshot.index), SaveCommit(n'.commit)];
      if r.term > n.term {
        var w := SaveMeta(n2.term, n2.votedFor);
        MetaKeeps(st, n2, d, w);
        RestKeeps(st, n2, Perform(d, w), r.snapshot);
        LeftAfter(st, d, [w], n', rest);
        assert ws == [w] + rest;
      } else {
        RestKeeps(st, n2, d, r.snapshot);
        assert ws == rest;
      }
    }
  }

  lemma RestKeeps(st: Story, n: Node, d: Disk, s: Snapshot)
    requires NodeInv(st, n, d) && (s.index > n.applied ==> SnapshotSound(st, s))
    ensures if s.index <= n.applied then Left(st, d, n, [])
            else Left(st, d, Installed(n, s), [SaveSnapshot(s), Compact(s.index), SaveCommit(Installed(n, s).commit)])
  {
    hide Left, NodeInv, SnapshotSound, Above;
    if s.index <= n.applied {
      LeftAlone(st, n, d);
    } else {
      SnapshotKeeps(st, n, d, s);
    }
  }

  // ---- starting again -------------------------------------------------------------

  /** Whatever point it died at, a node comes back as the replay of what its storage says is
      committed. */
  lemma LoadKeeps(st: Story, cfg: Config, d: Disk)
    requires DiskInv(st, d)
    ensures Left(st, d, Load(cfg, d).0, Load(cfg, d).1)
    ensures Load(cfg, d).0.commit == Max(d.commit, Base(d))
  {
    hide Left, ApplyCommitted, Traced, Handed, Above, LoadLog;
    var log :| Holds(st, d, log);
    LoadMirrors(d.entries, log, Base(d));
    if d.snapshot.None? { LoadIndices(d.entries); }
    var n := Node(cfg, Follower, d.term, d.votedFor, log, Base(d), BaseTerm(d), Max(d.commit, Base(d)), Base(d), {},
                  map[], map[], if d.snapshot.Some? then d.snapshot.value.data else []);
    LastOf(n);
    assert st.committed[..0] == [];
    NothingHanded();
    ApplyKeeps(st, n, d);
    CommitStays(n);
  }

  lemma CommitStays(n: Node)
    ensures ApplyCommitted(n).0.commit == n.commit
  {
  }

  // ---- over whole runs ------------------------------------------------------------

  lemma HandleKeeps(st: Story, n: Node, d: Disk, c: Call)
    requires Coherent(st) && NodeInv(st, n, d) && Fits(st, n, c)
    ensures Left(st, d, Handle(n, c).0, Handle(n, c).1)
  {
    hide Left, NodeInv, Coherent, StartElection, HandleVoteRequest, CheckVotes, HandleAppendRequest, HandleAppendReply,
         HandleInstallRequest, LeaderAppend, LeadFits, ElectFits, ReplyFits, RequestFits, SnapshotSound;
    match c {
      case Timeout => TimeoutKeeps(st, n, d);
      case Ask(r) => AskKeeps(st, n, d, r);
      case VoteAnswer(p, r) => VoteReplyKeeps(st, n, d, p, r);
      case Append(r) => AppendKeeps(st, n, d, r);
      case AppendAnswer(p, r) => ReplyKeeps(st, n, d, p, r);
      case Install(r) => InstallKeeps(st, n, d, r);
      case InstallAnswer(p, index, r) => ReplyKeeps(st, n, d, p, AppendReply(r.term, r.success, index));
      case Client(command) =>
        LeftAlone(st, n, d);
        if n.role == Leader { LeadKeeps(st, n, d, command); }
    }
  }

  lemma VoteReplyKeeps(st: Story, n: Node, d: Disk, peer: NodeId, r: VoteReply)
    requires NodeInv(st, n, d) && Fits(st, n, VoteAnswer(peer, r))
    ensures Left(st, d, HandleVoteReply(n, peer, r).0, HandleVoteReply(n, peer, r).1)
  {
    hide Left, NodeInv, CheckVotes, ElectFits;
    LeftAlone(st, n, d);
    if r.term > n.term {
      SameLogKeeps(st, n, NewerTerm(n, r.term), d);
      LeftAlone(st, NewerTerm(n, r.term), d);
    } else if n.role == Candidate && r.granted {
      var m := n.(votes := n.votes + {peer});
      SameLogKeeps(st, n, m, d);
      ElectKeeps(st, m, d);
    }
  }

  ghost predicate StateInv(st: Story, s: State) {
    DiskInv(st, s.disk) && (s.node.Some? ==> NodeInv(st, s.node.value, s.disk))
  }

  /** A call that is served or dies half-way is one the messages of the group can make. */
  ghost predicate EventFits(st: Story, s: State, e: Event) {
    (e.Serve? || e.DieIn?) && s.node.Some? ==> Fits(st, s.node.value, e.call)
  }

  lemma NextKeeps(st: Story, cfg: Config, s: State, e: Event)
    requires Coherent(st) && StateInv(st, s) && Enabled(cfg, s, e) && EventFits(st, s, e)
    ensures StateInv(st, Next(cfg, s, e))
  {
    hide NodeInv, Safe, Fits, Handle, Load, DiskInv, Coherent;
    var ws := if s.node.None? then Load(cfg, s.disk).1
              else if e.Serve? || e.DieIn? then Handle(s.node.value, e.call).1 else [];
    if s.node.Some? {
      HandleKeeps(st, s.node.value, s.disk, e.call);
    } else {
      LoadKeeps(st, cfg, s.disk);
    }
    SafePrefix(st, s.disk, ws, if e.DieIn? || e.DieStarting? then e.written else |ws|);
    assert ws[..|ws|] == ws;
  }

  ghost predicate Run(st: Story, cfg: Config, states: seq<State>, events: seq<Event>) {
    && |states| == |events| + 1 && Coherent(st) && states[0] == State(None, EMPTY_DISK)
    && forall i :: 0 <= i < |events| ==>
         && Enabled(cfg, states[i], events[i]) && EventFits(st, states[i], events[i])
         && states[i + 1] == Next(cfg, states[i], events[i])
  }

  lemma EmptyHolds(st: Story)
    ensures StateInv(st, State(None, EMPTY_DISK))
  {
    assert Holds(st, EMPTY_DISK, []);
  }

  lemma {:induction false} RunKeeps(st: Story, cfg: Config, states: seq<State>, events: seq<Event>, i: nat)
    requires Run(st, cfg, states, events) && i < |states|
    ensures StateInv(st, states[i])
  {
    hide StateInv, Next, Enabled, EventFits, Coherent;
    if i == 0 {
      EmptyHolds(st);
    } else {
      RunKeeps(st, cfg, states, events, i - 1);
      NextKeeps(st, cfg, states[i - 1], events[i - 1]);
    }
  }

  /** At every point of every run: a node that is up has applied exactly the committed commands up
      to its applied index, and retains every entry from its snapshot to there. */
  lemma MachineIsReplay(st: Story, cfg: Config, states: seq<State>, events: seq<Event>, i: nat)
    requires Run(st, cfg, states, events) && i < |states| && states[i].node.Some?
    ensures var n := states[i].node.value;
            && n.base <= n.applied == n.commit <= LastIndex(n) && n.applied <= |st.committed|
            && n.machine == Handed(st.committed[..n.applied])
            && forall k :: n.base < k <= n.applied ==> EntryAt(n, k) == Some(st.committed[k - 1])
  {
    RunKeeps(st, cfg, states, events, i);
    var n := states[i].node.value;
    LastOf(n);
    forall k | n.base < k <= n.applied ensures EntryAt(n, k) == Some(st.committed[k - 1]) {
      assert Same(n.log, n.base, st.committed, k - 1);
    }
  }

  /** And whatever storage was left with, by whatever write was the last: the entries follow the
      snapshot without a gap up to the saved commit index, and starting from it gives the replay of
      exactly what was saved as committed. */
  lemma StorageIsReplay(st: Story, cfg: Config, states: seq<State>, events: seq<Event>, i: nat)
    requires Run(st, cfg, states, events) && i < |states|
    ensures var d := states[i].disk;
            && (forall k :: Base(d) < k <= d.commit ==>
                  k in d.entries && k <= |st.committed| && d.entries[k] == st.committed[k - 1])
            && (forall k, l :: Base(d) < k <= l && l in d.entries ==> k in d.entries)
            && var n := Load(cfg, d).0;
               && n.applied == Max(d.commit, Base(d)) && n.applied <= |st.committed|
               && n.machine == Handed(st.committed[..n.applied])
  {
    hide Load, Traced, Handed;
    RunKeeps(st, cfg, states, events, i);
    var d := states[i].disk;
    LoadKeeps(st, cfg, d);
    var log :| Holds(st, d, log);
    forall k | Base(d) < k <= d.commit
      ensures k in d.entries && k <= |st.committed| && d.entries[k] == st.committed[k - 1]
    {
      assert Same(log, Base(d), st.committed, k - 1);
    }
  }

  /** Taking a snapshot keeps what the log has above it, whatever that is: here an entry of term 1
      ends up behind a snapshot of term 2, as no leader's log ever has it. */
  lemma SuffixKeptUnchecked(cfg: Config, a: Command, b: Command, c: Command, leader: NodeId)
    ensures var n := Node(cfg, Follower, 1, None, [Entry(1, 1, a), Entry(1, 2, b)], 0, 0, 0, 0, {}, map[], map[], []);
            var n' := HandleInstallRequest(n, InstallRequest(2, leader, Snapshot(1, 2, [c]))).0;
            n'.base == 1 && n'.baseTerm == 2 && n'.log == [Entry(1, 2, b)] && n'.machine == [c]
  {
    var log := [Entry(1, 1, a), Entry(1, 2, b)];
    AboveIndexed(log, 0, 1);
    assert log[1..] == [Entry(1, 2, b)];
  }
}
