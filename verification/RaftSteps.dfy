/** What each call does to a node that holds its whole log: the node after it, and its storage. */
module RaftSteps {
  import opened Common
  import opened RaftProtocol
  import opened RaftNode
  import opened RaftNodeFacts

  /** A node of a group that does not compact: its log is whole, and the machine has been handed
      exactly the committed prefix. */
  ghost predicate NodeSound(n: Node) {
    && n.cfg.interval <= 0 && n.base == 0 && n.baseTerm == 0
    && Distinct(n.cfg.peers)
    && Indexed(n.log, 0)
    && n.applied == n.commit <= |n.log|
    && n.machine == Handed(n.log[..n.commit])
  }

  ghost predicate DiskSound(n: Node, d: Disk) {
    && Mirrors(d.entries, n.log, 0)
    && d.commit == n.commit && d.snapshot == None
    && d.term <= n.term
    && n.votedFor == if d.term == n.term then d.votedFor else None
  }

  /** The node once everything up to index `c` is committed and applied. */
  function Committing(n: Node, c: nat): Node
    requires c <= |n.log|
  {
    n.(commit := c, applied := c, machine := Handed(n.log[..c]))
  }

  lemma ApplyStep(n: Node, c: nat)
    requires NodeSound(n) && n.commit <= c <= |n.log|
    ensures ApplyCommitted(n.(commit := c)) == (Committing(n, c), [])
  {
    ApplyLoopHands(n.(commit := c));
    assert n.log[..c] == n.log[..n.commit] + n.log[n.commit..c];
    HandedAppend(n.log[..n.commit], n.log[n.commit..c]);
  }

  lemma LastIsLength(n: Node)
    requires n.base == 0 && Indexed(n.log, 0)
    ensures LastIndex(n) == |n.log|
  {
  }

  function CommitWrites(from: nat, c: nat): seq<Write> {
    if c > from then [SaveCommit(c)] else []
  }

  /** The leader and the peers that matched index `c` are a majority, and the entry there is of
      the leader's own term. */
  ghost predicate Counted(n: Node, c: nat) {
    && 1 <= c <= |n.log| && n.log[c - 1].term == n.term
    && |HoldersIn(n, n.cfg.peers, c)| + 1 >= Majority(GroupSize(n))
  }

  /** Counting commits an index only where `Counted` says so. */
  lemma UpdateStep(n: Node) returns (c: nat)
    requires NodeSound(n)
    ensures n.commit <= c <= |n.log|
    ensures UpdateCommit(n) == (Committing(n, c), CommitWrites(n.commit, c))
    ensures NodeSound(Committing(n, c))
    ensures c > n.commit ==> Counted(n, c)
  {
    LastIsLength(n);
    var picked := MajorityIndex(n);
    if picked > n.commit && EntryAt(n, picked).Some? && EntryAt(n, picked).value.term == n.term {
      c := picked;
      ApplyStep(n, c);
      MajorityIndexCounts(n, c);
      assert [SaveCommit(c)] + [] == CommitWrites(n.commit, c);
    } else {
      c := n.commit;
      assert Committing(n, c) == n;
      assert UpdateCommit(n) == (n, []);
    }
  }

  function OwnEntry(n: Node, command: Command): Entry {
    Entry(n.term, |n.log| + 1, command)
  }

  function Appended(n: Node, command: Command): Node {
    n.(log := n.log + [OwnEntry(n, command)])
  }

  /** What the storage is told when an entry is appended and the commit index moves. */
  lemma AppendDisk(n: Node, d: Disk, e: Entry, c: nat, c': nat)
    requires Mirrors(d.entries, n.log, 0) && Indexed(n.log, 0) && e.index == |n.log| + 1
    ensures var d' := PerformAll(d, [PutEntry(e)] + CommitWrites(c, c'));
            && Mirrors(d'.entries, n.log + [e], 0) && Indexed(n.log + [e], 0)
            && d' == d.(entries := d'.entries, commit := if c' > c then c' else d.commit)
  {
    PutMirrors(d, n.log, 0, e);
    PerformAppend(d, [PutEntry(e)], CommitWrites(c, c'));
    PerformOne(d, PutEntry(e));
    if c' > c {
      PerformOne(Perform(d, PutEntry(e)), SaveCommit(c'));
    }
  }

  lemma LeaderAppendStep(n: Node, d: Disk, command: Command) returns (c: nat)
    requires NodeSound(n) && DiskSound(n, d)
    ensures n.commit <= c <= |n.log| + 1
    ensures var n1 := Appended(n, command);
            var (n', ws) := LeaderAppend(n, command);
            var d' := PerformAll(d, ws);
            && n' == Committing(n1, c) && NodeSound(n') && DiskSound(n', d')
            && d'.term == d.term && d'.votedFor == d.votedFor
            && (c > n.commit ==> Counted(n1, c))
  {
    hide UpdateCommit, PerformAll, Mirrors, Handed, Counted, LastIndex;
    var n1 := Appended(n, command);
    LastIsLength(n);
    assert n1.log[..n.commit] == n.log[..n.commit];
    AppendDisk(n, d, OwnEntry(n, command), n.commit, n.commit);
    c := UpdateStep(n1);
    AppendDisk(n, d, OwnEntry(n, command), n.commit, c);
  }

  // ---- voting ---------------------------------------------------------------------

  lemma VoteStep(n: Node, d: Disk, r: VoteRequest)
    requires NodeSound(n) && DiskSound(n, d)
    ensures var (n', ws, reply) := HandleVoteRequest(n, r);
            var d' := PerformAll(d, ws);
            && NodeSound(n') && DiskSound(n', d')
            && n' == (if r.term > n.term then n.(term := r.term, role := Follower, votes := {}) else n)
                       .(votedFor := n'.votedFor)
            && d' == d.(term := d'.term, votedFor := d'.votedFor)
            && reply.term == n'.term
            && (reply.granted ==>
                  && n'.term == r.term == d'.term && d'.votedFor == Some(r.candidate)
                  && (d.term < d'.term || d.votedFor == None || d.votedFor == d'.votedFor)
                  && UpToDate(r.lastTerm, r.lastIndex, n.log))
            && (!reply.granted ==>
                  d' == if r.term > n.term then d.(term := r.term, votedFor := None) else d)
  {
    var (n', ws, reply) := HandleVoteRequest(n, r);
    LastIsLength(n);
    if |ws| == 2 {
      PerformTwo(d, ws[0], ws[1]);
    } else if |ws| == 1 {
      PerformOne(d, ws[0]);
    }
  }

  /** The candidate a node becomes. */
  function Standing(n: Node): Node {
    n.(role := Candidate, term := n.term + 1, votedFor := Some(n.cfg.id), votes := {n.cfg.id})
  }

  /** A candidate with enough votes, before it appends the entry that opens its term. */
  function Winning(n: Node): Node {
    n.(role := Leader, votes := {},
       next := Positions(n.cfg.peers, |n.log| + 1), matched := Positions(n.cfg.peers, 0))
  }

  ghost predicate Enough(n: Node) {
    n.role == Candidate && |n.votes| >= Majority(GroupSize(n))
  }

  lemma CheckVotesStep(n: Node, d: Disk) returns (c: nat)
    requires NodeSound(n) && DiskSound(n, d)
    ensures n.commit <= c <= |n.log| + 1
    ensures var (n', ws) := CheckVotes(n);
            var d' := PerformAll(d, ws);
            && NodeSound(n') && DiskSound(n', d')
            && d'.term == d.term && d'.votedFor == d.votedFor
            && (!Enough(n) ==> n' == n && d' == d)
            && (Enough(n) ==>
                  var n1 := Appended(Winning(n), NOOP);
                  n' == Committing(n1, c) && (c > n.commit ==> Counted(n1, c)))
  {
    c := n.commit;
    LastIsLength(n);
    if Enough(n) {
      c := LeaderAppendStep(Winning(n), d, NOOP);
    }
  }

  // ---- following ------------------------------------------------------------------

  /** The request is the leader log `l` from some point to an entry of the leader's own term. */
  ghost predicate Carries(r: AppendRequest, l: Log) {
    && Indexed(l, 0)
    && var end := r.prevIndex + |r.entries|;
    && 1 <= end <= |l| && l[end - 1].term == r.term
    && r.entries == l[r.prevIndex..end]
    && r.prevTerm == (if r.prevIndex == 0 then 0 else l[r.prevIndex - 1].term)
    && r.commit <= end
  }

  /** Where the follower's entry is of the same term as the leader's, or of the leader's own
      term, the logs agree up to there. */
  ghost predicate MatchAt(log: Log, l: Log, term: nat, i: nat) {
    i < |log| && (log[i].term == term || (i < |l| && log[i].term == l[i].term)) ==> Agree(log, l, i + 1)
  }

  /** What log matching says of a follower's log and its leader's. */
  ghost predicate Matches(log: Log, l: Log, term: nat) {
    && Monotone(log) && LastTerm(log) <= term
    && forall i: nat {:trigger MatchAt(log, l, term, i)} :: MatchAt(log, l, term, i)
  }

  /** A request that passes the consistency check continues a log that agrees with its sender's. */
  lemma PrefixAgrees(n: Node, r: AppendRequest, l: Log)
    requires n.base == 0 && Carries(r, l) && Matches(n.log, l, r.term)
    requires r.prevIndex <= |n.log| && !PrevMismatch(n, r)
    ensures Agree(n.log, l, r.prevIndex)
    ensures forall i :: 0 <= i < |n.log| && i < |l| && n.log[i].term == l[i].term ==> n.log[i] == l[i]
  {
    if r.prevIndex > 0 {
      assert MatchAt(n.log, l, r.term, r.prevIndex - 1);
    }
    forall i | 0 <= i < |n.log| && i < |l| && n.log[i].term == l[i].term ensures n.log[i] == l[i] {
      assert MatchAt(n.log, l, r.term, i);
    }
  }

  /** A log left alone by a request reaches past it only with entries of the leader's term. */
  lemma LongerAgrees(log: Log, l: Log, term: nat, end: nat)
    requires Matches(log, l, term) && 1 <= end <= |l| && l[end - 1].term == term
    requires Agree(log, l, end)
    ensures LastTerm(log) == term && Agree(log, l, |log|)
  {
    assert log[end - 1].term <= log[|log| - 1].term;
    assert MatchAt(log, l, term, |log| - 1);
  }

  lemma MergeLog(n: Node, r: AppendRequest, l: Log)
    requires NodeSound(n) && Carries(r, l) && Matches(n.log, l, r.term)
    requires Agree(n.log, l, n.commit)
    requires r.prevIndex <= |n.log| && !PrevMismatch(n, r)
    ensures var n' := Merge(n, r.entries).0;
            && n' == n.(log := n'.log)
            && Agree(n'.log, l, |n'.log|) && |n'.log| >= r.prevIndex + |r.entries|
            && LastTerm(n'.log) == r.term
            && (forall j: nat :: Agree(n.log, l, j) ==> j <= |n'.log|)
  {
    hide Matches, Merge, Handed, PrevMismatch;
    var end := r.prevIndex + |r.entries|;
    PrefixAgrees(n, r, l);
    MergeTakes(n, l, r.prevIndex, end);
    var x := Merge(n, r.entries).0.log;
    if x == n.log {
      LongerAgrees(x, l, r.term, end);
    }
  }

  lemma MergeStep(n: Node, d: Disk, r: AppendRequest, l: Log)
    requires NodeSound(n) && DiskSound(n, d) && Carries(r, l) && Matches(n.log, l, r.term)
    requires Agree(n.log, l, n.commit)
    requires r.prevIndex <= |n.log| && !PrevMismatch(n, r)
    ensures var (n', ws) := Merge(n, r.entries);
            var d' := PerformAll(d, ws);
            && n' == n.(log := n'.log) && NodeSound(n')
            && d' == d.(entries := d'.entries) && DiskSound(n', d')
  {
    hide Matches, Merge;
    MergeLog(n, r, l);
    assert forall i :: 0 <= i < |r.entries| ==> r.entries[i] == l[r.prevIndex + i];
    MergeMirrors(n, d, r.entries);
    var x := Merge(n, r.entries).0.log;
    assert x[..n.commit] == n.log[..n.commit];
  }

  lemma AdvanceStep(n: Node, d: Disk, leaderCommit: nat)
    requires NodeSound(n) && DiskSound(n, d) && leaderCommit <= |n.log|
    ensures var (n', ws) := AdvanceCommit(n, leaderCommit);
            var d' := PerformAll(d, ws);
            var c := Max(n.commit, leaderCommit);
            && n' == Committing(n, c) && NodeSound(n')
            && d' == d.(commit := c) && DiskSound(n', d')
  {
    LastIsLength(n);
    if leaderCommit > n.commit {
      ApplyStep(n, leaderCommit);
      assert [SaveCommit(leaderCommit)] + [] == [SaveCommit(leaderCommit)];
      PerformOne(d, SaveCommit(leaderCommit));
    } else {
      assert Committing(n, n.commit) == n;
    }
  }

  /** A request of the node's own term or a newer one that passes the consistency check. */
  predicate Accepts(n: Node, r: AppendRequest) {
    r.term >= n.term && r.prevIndex <= |n.log| && !PrevMismatch(n, r)
  }

  function Following(n: Node, term: nat): Node {
    Concede(NewerTerm(n, term))
  }

  lemma RefusedStep(n: Node, d: Disk, r: AppendRequest)
    requires NodeSound(n) && DiskSound(n, d) && !Accepts(n, r)
    ensures var (n', ws, reply) := HandleAppendRequest(n, r);
            var d' := PerformAll(d, ws);
            && !reply.success
            && n' == (if r.term < n.term then n else Following(n, r.term)) && NodeSound(n')
            && d' == (if r.term > n.term then d.(term := r.term, votedFor := None) else d)
            && DiskSound(n', d')
  {
    hide Merge, AdvanceCommit, PerformAll;
    LastIsLength(n);
    PerformOne(d, SaveMeta(r.term, None));
    assert PerformAll(d, []) == d by { NothingPerformed(d); }
  }

  lemma NothingPerformed(d: Disk)
    ensures PerformAll(d, []) == d
  {
  }

  /** A successful append leaves the whole of the follower's log equal to the leader's, and the
      index it reports is the end of that log. */
  lemma AppendStep(n: Node, d: Disk, r: AppendRequest, l: Log)
    requires NodeSound(n) && DiskSound(n, d) && Carries(r, l) && Matches(n.log, l, r.term)
    requires Agree(n.log, l, n.commit) && Accepts(n, r)
    ensures var (n', ws, reply) := HandleAppendRequest(n, r);
            var d' := PerformAll(d, ws);
            && reply == AppendReply(r.term, true, |n'.log|)
            && Max(n.commit, r.commit) <= |n'.log| && r.prevIndex + |r.entries| <= |n'.log|
            && n' == Committing(Following(n, r.term).(log := n'.log), Max(n.commit, r.commit))
            && NodeSound(n') && DiskSound(n', d')
            && d'.term == (if r.term > n.term then r.term else d.term)
            && d'.votedFor == (if r.term > n.term then None else d.votedFor)
            && Agree(n'.log, l, |n'.log|) && n'.log != [] && LastTerm(n'.log) == r.term
            && (forall j: nat :: Agree(n.log, l, j) ==> j <= |n'.log|)
  {
    hide Matches, Merge, PerformAll, AdvanceCommit, PrevMismatch, Mirrors, Handed, Agree, Indexed;
    LastIsLength(n);
    var n2 := Following(n, r.term);
    SameCheck(n, n2, r);
    var meta := if r.term > n.term then [SaveMeta(r.term, None)] else [];
    var (n3, merged) := Merge(n2, r.entries);
    var d2 := PerformAll(d, meta);
    FollowingSound(n, d, r.term);
    MergeStep(n2, d2, r, l);
    MergeLog(n2, r, l);
    var (n4, committed) := AdvanceCommit(n3, r.commit);
    MetaCommutes(d, merged, meta, n2, r.entries);
    AdvanceStep(n3, PerformAll(d2, merged), r.commit);
    PerformAppend(d, merged + meta, committed);
    LastIsLength(n3);
  }

  lemma SameCheck(n: Node, m: Node, r: AppendRequest)
    requires n.log == m.log && n.base == m.base && n.baseTerm == m.baseTerm
    ensures PrevMismatch(n, r) == PrevMismatch(m, r)
  {
  }

  lemma FollowingSound(n: Node, d: Disk, term: nat)
    requires NodeSound(n) && DiskSound(n, d) && term >= n.term
    ensures var d' := PerformAll(d, if term > n.term then [SaveMeta(term, None)] else []);
            && d' == (if term > n.term then d.(term := term, votedFor := None) else d)
            && NodeSound(Following(n, term)) && DiskSound(Following(n, term), d')
  {
    if term > n.term { PerformOne(d, SaveMeta(term, None)); }
  }

  /** The log writes and the term write of one request touch different records. */
  lemma {:induction false} MetaCommutes(d: Disk, merged: seq<Write>, meta: seq<Write>, n: Node, entries: Log)
    requires meta == [] || (exists t, v :: meta == [SaveMeta(t, v)])
    requires merged == Merge(n, entries).1
    ensures PerformAll(d, merged + meta) == PerformAll(PerformAll(d, meta), merged)
  {
    PerformAppend(d, merged, meta);
    if meta != [] {
      var t, v :| meta == [SaveMeta(t, v)];
      MergeWrites(n, entries);
      MetaSwaps(d, merged, t, v);
      PerformOne(d, SaveMeta(t, v));
      PerformOne(PerformAll(d, merged), SaveMeta(t, v));
    }
  }

  lemma {:induction false} MergeWrites(n: Node, entries: Log)
    ensures forall w :: w in Merge(n, entries).1 ==> w.PutEntry? || w.Truncate?
    decreases |entries|
  {
    if entries != [] {
      MergeWrites(MergeOne(n, entries[0]).0, entries[1..]);
    }
  }

  lemma {:induction false} MetaSwaps(d: Disk, ws: seq<Write>, t: nat, v: Option<NodeId>)
    requires forall w :: w in ws ==> w.PutEntry? || w.Truncate?
    ensures Perform(PerformAll(d, ws), SaveMeta(t, v)) == PerformAll(Perform(d, SaveMeta(t, v)), ws)
    decreases |ws|
  {
    if ws != [] {
      MetaSwaps(Perform(d, ws[0]), ws[1..], t, v);
      assert ws[0].PutEntry? || ws[0].Truncate?;
      assert Perform(Perform(d, ws[0]), SaveMeta(t, v)) == Perform(Perform(d, SaveMeta(t, v)), ws[0]);
    }
  }

  // ---- restarting -----------------------------------------------------------------

  lemma LoadStep(n: Node, d: Disk)
    requires NodeSound(n) && DiskSound(n, d)
    ensures LoadLog(d.entries) == n.log
    ensures var (n', ws) := Load(n.cfg, d);
            && n' == n.(role := Follower, term := d.term, votedFor := d.votedFor, votes := {},
                        next := map[], matched := map[])
            && ws == [] && NodeSound(n') && DiskSound(n', d)
  {
    LoadMirrors(d.entries, n.log, 0);
    LoadIndices(d.entries);
    var blank := Node(n.cfg, Follower, d.term, d.votedFor, n.log, 0, 0, 0, 0, {}, map[], map[], []);
    assert n.log[..0] == [];
    LastIsLength(blank);
    ApplyStep(blank, n.commit);
  }
}
