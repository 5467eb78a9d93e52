/**
  What each call of a node answers and does, for any node, compacted or not: when a vote is given,
  when a term is won, when a request is taken, what a refusal leads to, when an index is committed
  and when a prefix is folded.
*/
module RaftAnswers {
  import opened Common
  import opened RaftProtocol
  import opened RaftNode
  import opened RaftNodeFacts
  import opened RaftSteps

  /** The entries after the snapshot carry the positions they are at. */
  ghost predicate Whole(n: Node) { Indexed(n.log, n.base) }

  lemma LastOf(n: Node)
    requires Whole(n)
    ensures LastIndex(n) == n.base + |n.log|
  {
  }

  // ---- votes and elections --------------------------------------------------------

  /** A vote is given if and only if the term asked for is not over, this node has not given it to
      another, and the candidate's log is at least as far on. */
  lemma VoteIff(n: Node, r: VoteRequest)
    ensures var (n', ws, reply) := HandleVoteRequest(n, r);
            var free := r.term > n.term || n.votedFor == None || n.votedFor == Some(r.candidate);
            var behind := r.lastTerm < LastLogTerm(n) || (r.lastTerm == LastLogTerm(n) && r.lastIndex < LastIndex(n));
            && (reply.granted <==> r.term >= n.term && free && !behind)
            && reply.term == n'.term == Max(n.term, r.term)
            && n'.votedFor == (if reply.granted then Some(r.candidate)
                               else if r.term > n.term then None else n.votedFor)
            && n'.role == (if r.term > n.term then Follower else n.role)
            && n' == n.(term := n'.term, votedFor := n'.votedFor, role := n'.role, votes := n'.votes)
            && (n'.term != n.term || n'.votedFor != n.votedFor ==>
                  ws != [] && ws[|ws| - 1] == SaveMeta(n'.term, n'.votedFor))
            && (forall w :: w in ws ==> w.SaveMeta?)
  {
  }

  /** Whoever does not lead stands in the next term with its own vote, stored; and leads at once
      exactly when it is alone. */
  lemma StandIff(n: Node)
    ensures var (n', ws) := StartElection(n);
            && (n.role == Leader ==> n' == n && ws == [])
            && (n.role != Leader ==>
                  && n'.term == n.term + 1 && n'.votedFor == Some(n.cfg.id)
                  && ws != [] && ws[0] == SaveMeta(n.term + 1, Some(n.cfg.id))
                  && (n'.role == Leader <==> n.cfg.peers == [])
                  && (n'.role != Leader ==>
                        n'.role == Candidate && n'.votes == {n.cfg.id} && n'.log == n.log && |ws| == 1))
  {
    hide LeaderAppend;
    if n.role != Leader {
      var c := n.(role := Candidate, term := n.term + 1, votedFor := Some(n.cfg.id), votes := {n.cfg.id});
      if n.cfg.peers == [] {
        LeadKeepsRole(Begun(c), NOOP);
      }
    }
  }

  /** A candidate that has won, before the entry that opens its term. */
  function Begun(n: Node): Node {
    n.(role := Leader, votes := {}, next := Positions(n.cfg.peers, LastIndex(n) + 1),
       matched := Positions(n.cfg.peers, 0))
  }

  /** What counting, applying and folding leave of a node. */
  ghost predicate OnlyCommits(n: Node, n': Node) {
    n' == n.(commit := n'.commit, applied := n'.applied, machine := n'.machine, log := n'.log, base := n'.base,
             baseTerm := n'.baseTerm)
  }

  lemma UpdateOnlyCommits(n: Node)
    ensures OnlyCommits(n, UpdateCommit(n).0)
  {
    hide MajorityIndex, Replayed, Above;
  }

  lemma LeadKeepsRole(n: Node, command: Command)
    ensures var n' := LeaderAppend(n, command).0;
            OnlyCommits(n.(log := n.log + [Entry(n.term, LastIndex(n) + 1, command)]), n')
  {
    UpdateOnlyCommits(n.(log := n.log + [Entry(n.term, LastIndex(n) + 1, command)]));
  }

  /** A candidate wins exactly with the vote that makes a majority; one short of it, the vote is
      counted; and a newer term ends it. */
  lemma VoteReplyIff(n: Node, peer: NodeId, r: VoteReply)
    ensures var (n', ws) := HandleVoteReply(n, peer, r);
            var counted := n.role == Candidate && r.term <= n.term && r.granted;
            var won := counted && |n.votes + {peer}| >= Majority(|n.cfg.peers| + 1);
            && (n.role != Leader ==> (n'.role == Leader <==> won))
            && (won ==> n'.term == n.term && ws != [] && ws[0] == PutEntry(Entry(n.term, LastIndex(n) + 1, NOOP))
                        && forall p :: p in n.cfg.peers ==>
                             p in n'.next && n'.next[p] == LastIndex(n) + 1 && MatchOf(n', p) == 0)
            && (counted && !won ==> (n', ws) == (n.(votes := n.votes + {peer}), []))
            && (r.term > n.term ==> n'.role == Follower && n'.term == r.term && n'.votedFor == None && n'.log == n.log)
            && (r.term <= n.term && !counted ==> (n', ws) == (n, []))
  {
    hide LeaderAppend;
    var c := n.(votes := n.votes + {peer});
    LeadKeepsRole(Begun(c), NOOP);
    LeadWrites(Begun(c), NOOP);
  }

  lemma LeadWrites(n: Node, command: Command)
    ensures LeaderAppend(n, command).1 != []
    ensures LeaderAppend(n, command).1[0] == PutEntry(Entry(n.term, LastIndex(n) + 1, command))
  {
  }

  // ---- taking a request -----------------------------------------------------------

  /** The entry before the request's first is the one held here; below the snapshot nothing is left
      to compare. */
  ghost predicate PrevHeld(n: Node, r: AppendRequest)
    requires Whole(n)
  {
    && r.prevIndex <= n.base + |n.log|
    && (r.prevIndex > n.base ==> n.log[r.prevIndex - n.base - 1].term == r.prevTerm)
    && (r.prevIndex == n.base ==> n.baseTerm == r.prevTerm)
  }

  /** Node `n` has at `index` an entry of `term`, or has folded it. */
  ghost predicate HasAt(n: Node, index: nat, term: nat) {
    index <= n.base || (EntryAt(n, index).Some? && EntryAt(n, index).value.term == term)
  }

  lemma MergeOneHolds(n: Node, e: Entry)
    requires Whole(n) && 1 <= e.index <= n.base + |n.log| + 1
    ensures var n' := MergeOne(n, e).0;
            && Whole(n') && n'.base == n.base && HasAt(n', e.index, e.term) && e.index <= Max(n.base, n.base + |n'.log|)
            && (forall i: nat :: i < e.index ==> EntryAt(n', i) == EntryAt(n, i))
            && (n'.log != n.log ==> n'.base + |n'.log| == e.index)
            && (n'.log == n.log <==> HasAt(n, e.index, e.term))
  {
  }

  /** After a request is merged, each of its entries is held or folded, everything before them is as
      it was, and everything after them goes exactly when one of them was not held before. */
  lemma {:induction false} MergeHolds(n: Node, entries: Log)
    requires Whole(n) && (entries != [] ==> 1 <= entries[0].index <= n.base + |n.log| + 1)
    requires forall i :: 0 <= i < |entries| ==> entries[i].index == entries[0].index + i
    ensures var n' := Merge(n, entries).0;
            && Whole(n') && n'.base == n.base
            && (forall i :: 0 <= i < |entries| ==> HasAt(n', entries[i].index, entries[i].term))
            && (entries != [] ==> forall i: nat :: i < entries[0].index ==> EntryAt(n', i) == EntryAt(n, i))
            && (n'.log == n.log <==> forall i :: 0 <= i < |entries| ==> HasAt(n, entries[i].index, entries[i].term))
            && (n'.log != n.log ==> n'.base + |n'.log| == entries[|entries| - 1].index)
    decreases |entries|
  {
    hide MergeOne, EntryAt;
    if entries != [] {
      var n1 := MergeOne(n, entries[0]).0;
      var rest := entries[1..];
      MergeOneHolds(n, entries[0]);
      assert entries[0].index <= n1.base + |n1.log|;
      MergeHolds(n1, rest);
      MergeJoins(n, n1, Merge(n1, rest).0, entries);
    }
  }

  lemma MergeJoins(n: Node, n1: Node, n': Node, entries: Log)
    requires entries != [] && Whole(n) && Whole(n1) && Whole(n') && n1.base == n.base == n'.base
    requires forall i :: 0 <= i < |entries| ==> entries[i].index == entries[0].index + i
    requires HasAt(n1, entries[0].index, entries[0].term)
    requires forall i: nat :: i < entries[0].index ==> EntryAt(n1, i) == EntryAt(n, i)
    requires n1.log != n.log ==> n1.base + |n1.log| == entries[0].index
    requires n1.log == n.log <==> HasAt(n, entries[0].index, entries[0].term)
    requires var rest := entries[1..];
             && (forall i :: 0 <= i < |rest| ==> HasAt(n', rest[i].index, rest[i].term))
             && (rest != [] ==> forall i: nat :: i < rest[0].index ==> EntryAt(n', i) == EntryAt(n1, i))
             && (n'.log == n1.log <==> forall i :: 0 <= i < |rest| ==> HasAt(n1, rest[i].index, rest[i].term))
             && (n'.log != n1.log ==> n'.base + |n'.log| == rest[|rest| - 1].index)
    ensures forall i :: 0 <= i < |entries| ==> HasAt(n', entries[i].index, entries[i].term)
    ensures forall i: nat :: i < entries[0].index ==> EntryAt(n', i) == EntryAt(n, i)
    ensures n'.log == n.log <==> forall i :: 0 <= i < |entries| ==> HasAt(n, entries[i].index, entries[i].term)
    ensures n'.log != n.log ==> n'.base + |n'.log| == entries[|entries| - 1].index
  {
    var rest := entries[1..];
    forall i | 0 <= i < |entries| ensures HasAt(n', entries[i].index, entries[i].term) {
      if i > 0 {
        assert entries[i] == rest[i - 1];
      } else if rest != [] {
        assert EntryAt(n', entries[0].index) == EntryAt(n1, entries[0].index);
      }
    }
    if n1.log == n.log {
      assert forall i: nat, t :: HasAt(n1, i, t) <==> HasAt(n, i, t);
      assert (forall i :: 0 <= i < |entries| ==> HasAt(n, entries[i].index, entries[i].term)) <==>
             forall i :: 0 <= i < |rest| ==> HasAt(n1, rest[i].index, rest[i].term);
    }
  }

  /** The first of the entries that is not held, if any. */
  ghost function FirstMissing(n: Node, entries: Log): (k: nat)
    ensures k <= |entries|
  {
    if entries == [] || !HasAt(n, entries[0].index, entries[0].term) then 0 else 1 + FirstMissing(n, entries[1..])
  }

  lemma {:induction false} NothingMissing(n: Node, entries: Log)
    ensures FirstMissing(n, entries) == |entries| <==>
            forall i :: 0 <= i < |entries| ==> HasAt(n, entries[i].index, entries[i].term)
    decreases |entries|
  {
    if entries != [] {
      NothingMissing(n, entries[1..]);
      assert forall i :: 0 < i < |entries| ==> entries[i] == entries[1..][i - 1];
      if FirstMissing(n, entries) == |entries| {
        forall i | 0 <= i < |entries| ensures HasAt(n, entries[i].index, entries[i].term) {
          if i > 0 { assert entries[i] == entries[1..][i - 1]; }
        }
      }
    }
  }

  /** A suffix is cut at the first entry that is not held, and the commit index goes back to before it
      if it was past it; entries that come after are only appended. */
  lemma {:induction false} MergeCommit(n: Node, entries: Log)
    requires Whole(n) && n.commit <= n.base + |n.log|
    requires entries != [] ==> 1 <= entries[0].index <= n.base + |n.log| + 1
    requires forall i :: 0 <= i < |entries| ==> entries[i].index == entries[0].index + i
    ensures var k := FirstMissing(n, entries);
            Merge(n, entries).0.commit == if k == |entries| then n.commit else Min(n.commit, entries[k].index - 1)
    decreases |entries|
  {
    hide HasAt;
    if entries != [] {
      var n1, rest := MergeOne(n, entries[0]).0, entries[1..];
      MergeOneHolds(n, entries[0]);
      MergeOneCommit(n, entries[0]);
      MergeCommit(n1, rest);
      if HasAt(n, entries[0].index, entries[0].term) {
        MergeOneSame(n, entries[0]);
      } else {
        OnlyAppended(n1, rest);
      }
    }
  }

  lemma MergeOneCommit(n: Node, e: Entry)
    requires Whole(n) && n.commit <= n.base + |n.log| && 1 <= e.index <= n.base + |n.log| + 1
    ensures var n' := MergeOne(n, e).0;
            && n'.commit == (if HasAt(n, e.index, e.term) then n.commit else Min(n.commit, e.index - 1))
            && n'.commit <= n'.base + |n'.log|
  {
    if e.index > n.base && EntryAt(n, e.index).Some? {
      var cut := n.(log := n.log[..e.index - n.base - 1]);
      assert Whole(cut);
      LastOf(cut);
    }
  }

  lemma MergeOneSame(n: Node, e: Entry)
    requires Whole(n) && HasAt(n, e.index, e.term)
    ensures MergeOne(n, e).0 == n
  {
  }

  lemma OnlyAppended(n: Node, entries: Log)
    requires Whole(n) && n.commit <= n.base + |n.log|
    requires entries != [] ==> entries[0].index == n.base + |n.log| + 1
    ensures entries != [] ==> FirstMissing(n, entries) == 0 && Min(n.commit, entries[0].index - 1) == n.commit
  {
  }

  // ---- folding and applying -------------------------------------------------------

  /** The applied prefix is folded if and only if folding is on and enough of it has piled up; the
      snapshot is the machine's, written before anything is dropped, and nothing after it goes. */
  lemma FoldIff(n: Node)
    requires Whole(n)
    ensures var (n', ws) := MaybeSnapshot(n);
            var folds := n.cfg.interval > 0 && n.applied - n.base >= n.cfg.interval && n.applied <= n.base + |n.log|;
            && (!folds ==> (n', ws) == (n, []))
            && (folds ==>
                  var term := n.log[n.applied - n.base - 1].term;
                  && n' == n.(log := n.log[n.applied - n.base..], base := n.applied, baseTerm := term)
                  && ws == [SaveSnapshot(Snapshot(n.applied, term, n.machine)), Compact(n.applied)])
  {
    hide Above;
    if n.base < n.applied { AboveIndexed(n.log, n.base, n.applied); }
  }

  lemma FoldHolds(n: Node)
    requires Whole(n)
    ensures var n' := MaybeSnapshot(n).0;
            && Whole(n') && LastIndex(n') == LastIndex(n)
            && forall i: nat, t :: HasAt(n, i, t) ==> HasAt(n', i, t)
  {
    hide MaybeSnapshot;
    FoldIff(n);
    var n' := MaybeSnapshot(n).0;
    LastOf(n);
    LastOf(n');
  }

  /** Folding changes nothing of how far on a node's log is: it answers every vote as it would have. */
  lemma FoldKeepsVotes(n: Node, r: VoteRequest)
    requires Whole(n)
    ensures LastLogTerm(MaybeSnapshot(n).0) == LastLogTerm(n)
    ensures HandleVoteRequest(MaybeSnapshot(n).0, r).2 == HandleVoteRequest(n, r).2
    ensures MakeVoteRequest(MaybeSnapshot(n).0) == MakeVoteRequest(n)
  {
    hide MaybeSnapshot;
    FoldIff(n);
    FoldHolds(n);
  }

  /** Everything up to the commit index is applied, and then perhaps folded. */
  lemma ApplyAll(n: Node)
    requires Whole(n) && n.base <= n.applied <= n.commit <= n.base + |n.log|
    ensures var n' := ApplyCommitted(n).0;
            && n'.commit == n.commit == n'.applied && Whole(n') && LastIndex(n') == LastIndex(n)
            && n'.machine == n.machine + Handed(n.log[n.applied - n.base..n.commit - n.base])
            && n'.role == n.role && n'.term == n.term
            && (forall i: nat, t :: HasAt(n, i, t) ==> HasAt(n', i, t))
  {
    hide HasAt, MaybeSnapshot, Replayed, Handed;
    ApplyLoopHands(n);
    FoldIff(ApplyLoop(n));
    FoldHolds(ApplyLoop(n));
    SameAt(n, ApplyLoop(n));
  }

  lemma SameAt(n: Node, m: Node)
    requires m.log == n.log && m.base == n.base
    ensures LastIndex(m) == LastIndex(n) && forall i: nat, t :: HasAt(n, i, t) <==> HasAt(m, i, t)
  {
  }

  // ---- the answer to a request ----------------------------------------------------

  lemma FollowingKeeps(n: Node, t: nat)
    requires t >= n.term
    ensures Following(n, t) == n.(term := t, role := Follower, votes := Following(n, t).votes,
                                  votedFor := if t > n.term then None else n.votedFor)
  {
  }

  /** A request is taken if and only if its term is not over and the entry before its first is the one
      held here; a refusal changes no log and reports no match. */
  lemma AppendIff(n: Node, r: AppendRequest)
    requires Whole(n)
    ensures var (n', ws, reply) := HandleAppendRequest(n, r);
            && (reply.success <==> r.term >= n.term && PrevHeld(n, r))
            && reply.term == Max(n.term, r.term)
            && (!reply.success ==> reply.matchIndex == 0 && n'.term == Max(n.term, r.term)
                                   && n' == n.(term := n'.term, role := n'.role, votes := n'.votes,
                                               votedFor := if r.term > n.term then None else n.votedFor)
                                   && ws == if r.term > n.term then [SaveMeta(r.term, None)] else [])
            && (r.term >= n.term ==> n'.role == Follower)
            && (r.term < n.term ==> n' == n)
  {
    hide Merge, AdvanceCommit;
    LastOf(n);
    if r.term >= n.term {
      FollowingKeeps(n, r.term);
      var n2 := Following(n, r.term);
      SameCheck(n, n2, r);
      if PrevHeld(n, r) {
        MergeKeepsRest(n2, r.entries);
        AdvanceKeepsRest(Merge(n2, r.entries).0, r.commit);
      }
    }
  }

  lemma {:induction false} MergeKeepsRest(n: Node, entries: Log)
    ensures var n' := Merge(n, entries).0;
            n' == n.(log := n'.log, commit := n'.commit, applied := n'.applied) && n'.commit <= n.commit
            && (n.applied <= n.commit ==> n'.applied <= n'.commit)
    decreases |entries|
  {
    if entries != [] {
      MergeKeepsRest(MergeOne(n, entries[0]).0, entries[1..]);
    }
  }

  lemma AdvanceKeepsRest(n: Node, c: nat)
    ensures OnlyCommits(n, AdvanceCommit(n, c).0)
  {
    hide Replayed, Above;
  }

  /** The request's entries follow the entry it names as the one before them. */
  ghost predicate InOrder(r: AppendRequest) {
    forall i :: 0 <= i < |r.entries| ==> r.entries[i].index == r.prevIndex + 1 + i
  }

  /** A request that is taken is held afterwards, entry for entry, and what was there before its first
      stays; what was there after its last stays exactly when all of it was held already.  The match
      reported is the end of the log, and the commit index follows the leader's as far as the log goes. */
  lemma AppendTakes(n: Node, r: AppendRequest)
    requires Whole(n) && InOrder(r) && n.base <= n.applied <= n.commit <= n.base + |n.log|
    requires HandleAppendRequest(n, r).2.success
    ensures var (n', ws, reply) := HandleAppendRequest(n, r);
            var end := r.prevIndex + |r.entries|;
            var k := FirstMissing(n, r.entries);
            var kept := if k == |r.entries| then n.commit else Min(n.commit, r.prevIndex + k);
            && reply.matchIndex == LastIndex(n') == (if k == |r.entries| then n.base + |n.log| else end) >= end
            && (forall i :: 0 <= i < |r.entries| ==> HasAt(n', r.entries[i].index, r.entries[i].term))
            && (forall i: nat, t :: i <= r.prevIndex && HasAt(n, i, t) ==> HasAt(n', i, t))
            && n'.commit == Max(kept, Min(r.commit, reply.matchIndex)) && n'.term == r.term
  {
    hide HandleAppendRequest, Merge, AdvanceCommit, HasAt, EntryAt, FirstMissing, Following, Above, LastIndex;
    AppendIff(n, r);
    AcceptedIs(n, r);
    FollowingKeeps(n, r.term);
    var n2 := Following(n, r.term);
    MergeKeepsRest(n2, r.entries);
    MergeHolds(n2, r.entries);
    MergeCommit(n2, r.entries);
    SameMissing(n, n2, r.entries);
    NothingMissing(n, r.entries);
    var n3 := Merge(n2, r.entries).0;
    SameAt(n, n2);
    LastOf(n);
    LastOf(n3);
    PrefixHolds(n2, n3, r);
    MergeBounds(n2, r.entries);
    AdvanceHolds(n3, r.commit);
    if r.entries != [] { HeldReaches(n3, r.entries[|r.entries| - 1]); }
  }

  lemma {:induction false} SameMissing(n: Node, m: Node, entries: Log)
    requires m.log == n.log && m.base == n.base
    ensures FirstMissing(n, entries) == FirstMissing(m, entries)
    decreases |entries|
  {
    if entries != [] { SameMissing(n, m, entries[1..]); }
  }

  lemma HeldReaches(n: Node, e: Entry)
    requires Whole(n) && HasAt(n, e.index, e.term)
    ensures e.index <= n.base + |n.log|
  {
  }

  lemma AcceptedIs(n: Node, r: AppendRequest)
    requires Whole(n) && HandleAppendRequest(n, r).2.success
    ensures var n3 := Merge(Following(n, r.term), r.entries).0;
            && HandleAppendRequest(n, r).0 == AdvanceCommit(n3, r.commit).0
            && HandleAppendRequest(n, r).2.matchIndex == LastIndex(n3)
  {
    hide Merge, AdvanceCommit;
  }

  lemma PrefixHolds(n: Node, n': Node, r: AppendRequest)
    requires n'.base == n.base && (r.entries == [] ==> n'.log == n.log)
    requires r.entries != [] ==> forall i: nat :: i < r.entries[0].index ==> EntryAt(n', i) == EntryAt(n, i)
    requires InOrder(r)
    ensures forall i: nat, t :: i <= r.prevIndex && HasAt(n, i, t) ==> HasAt(n', i, t)
  {
  }

  lemma {:induction false} MergeBounds(n: Node, entries: Log)
    requires Whole(n) && n.base <= n.applied <= n.commit <= n.base + |n.log|
    requires entries != [] ==> 1 <= entries[0].index <= n.base + |n.log| + 1
    requires forall i :: 0 <= i < |entries| ==> entries[i].index == entries[0].index + i
    ensures var n' := Merge(n, entries).0; n'.base <= n'.applied <= n'.commit <= n'.base + |n'.log|
    decreases |entries|
  {
    if entries != [] {
      var n1 := MergeOne(n, entries[0]).0;
      MergeOneHolds(n, entries[0]);
      MergeOneBounds(n, entries[0]);
      MergeBounds(n1, entries[1..]);
    }
  }

  lemma MergeOneBounds(n: Node, e: Entry)
    requires Whole(n) && n.base <= n.applied <= n.commit <= n.base + |n.log| && 1 <= e.index <= n.base + |n.log| + 1
    ensures var n' := MergeOne(n, e).0; n'.base <= n'.applied <= n'.commit <= n'.base + |n'.log|
  {
    if e.index > n.base && EntryAt(n, e.index).Some? {
      var cut := n.(log := n.log[..e.index - n.base - 1]);
      assert Whole(cut);
      LastOf(cut);
    }
  }

  lemma AdvanceHolds(n: Node, c: nat)
    requires Whole(n) && n.base <= n.applied <= n.commit <= n.base + |n.log|
    ensures var n' := AdvanceCommit(n, c).0;
            && n'.commit == Max(n.commit, Min(c, n.base + |n.log|)) && LastIndex(n') == LastIndex(n)
            && n'.role == n.role && n'.term == n.term
            && forall i: nat, t :: HasAt(n, i, t) ==> HasAt(n', i, t)
  {
    hide ApplyCommitted, HasAt;
    LastOf(n);
    if c > n.commit {
      var m := n.(commit := Min(c, LastIndex(n)));
      ApplyAll(m);
      SameAt(n, m);
    }
  }

  // ---- the answer to a snapshot ---------------------------------------------------

  /** The answer is success if and only if the term is not over, and says that the node has applied all
      the snapshot covers.  A node that had not takes the snapshot's state, index and term, and keeps of
      its log exactly what is above; one that had is left as it was. */
  lemma InstallIff(n: Node, r: InstallRequest)
    requires Whole(n) && n.base <= n.applied <= n.commit
    ensures var (n', ws, reply) := HandleInstallRequest(n, r);
            var s := r.snapshot;
            && (reply.success <==> r.term >= n.term) && reply.term == n'.term == Max(n.term, r.term)
            && (reply.success ==> s.index <= n'.applied <= n'.commit && n'.role == Follower)
            && (r.term > n.term ==> ws != [] && ws[0] == SaveMeta(r.term, None) && n'.votedFor == None)
            && (reply.success && s.index > n.applied ==>
                  && n'.machine == s.data && n'.base == n'.applied == s.index && n'.baseTerm == s.term
                  && n'.commit == Max(n.commit, s.index)
                  && n'.log == (if s.index <= n.base + |n.log| then n.log[s.index - n.base..] else [])
                  && Whole(n')
                  && |ws| >= 3 && ws[|ws| - 3..] == [SaveSnapshot(s), Compact(s.index), SaveCommit(n'.commit)])
            && (!(reply.success && s.index > n.applied) ==>
                  n' == n.(term := n'.term, role := n'.role, votes := n'.votes, votedFor := n'.votedFor))
  {
    hide Above, HandleInstallRequest, Following;
    var s := r.snapshot;
    InstallLeaves(n, r);
    if r.term >= n.term {
      FollowingKeeps(n, r.term);
      if s.index > n.applied {
        AboveIndexed(n.log, n.base, s.index);
        InstallTaken(n, r);
        InstallWrites(n, r);
      }
    }
  }

  lemma InstallLeaves(n: Node, r: InstallRequest)
    ensures var (n', ws, reply) := HandleInstallRequest(n, r);
            && (reply.success <==> r.term >= n.term) && reply.term == Max(n.term, r.term)
            && (r.term > n.term ==> ws != [] && ws[0] == SaveMeta(r.term, None))
            && (r.term < n.term ==> n' == n)
            && (r.term >= n.term && r.snapshot.index <= n.applied ==> n' == Following(n, r.term))
  {
    hide Above;
  }

  lemma InstallTaken(n: Node, r: InstallRequest)
    requires r.term >= n.term && r.snapshot.index > n.applied
    ensures var s := r.snapshot;
            HandleInstallRequest(n, r).0 ==
            Following(n, r.term).(machine := s.data, log := Above(n.log, s.index), base := s.index, baseTerm := s.term,
                                  applied := s.index, commit := Max(n.commit, s.index))
  {
    hide Above;
  }

  lemma InstallWrites(n: Node, r: InstallRequest)
    requires r.term >= n.term && r.snapshot.index > n.applied
    ensures var (n', ws, reply) := HandleInstallRequest(n, r);
            |ws| >= 3 && ws[|ws| - 3..] == [SaveSnapshot(r.snapshot), Compact(r.snapshot.index), SaveCommit(n'.commit)]
  {
    hide Above;
    var s := r.snapshot;
    var commit := HandleInstallRequest(n, r).0.commit;
    var written := [SaveSnapshot(s), Compact(s.index), SaveCommit(commit)];
    assert ([SaveMeta(r.term, None)] + written)[1..] == written;
    assert ([] + written)[0..] == written;
  }

  // ---- what a leader does with an answer ------------------------------------------

  function NextOf(n: Node, peer: NodeId): nat { if peer in n.next then n.next[peer] else 1 }

  /** A success moves the peer's position to where it says it is; a refusal takes it one back, no
      further than the first entry, and changes nothing else; a newer term ends the leading. */
  lemma AnswerIff(n: Node, peer: NodeId, r: AppendReply)
    ensures var (n', ws) := HandleAppendReply(n, peer, r);
            && (r.term > n.term ==> n' == n.(term := r.term, role := Follower, votedFor := None) && ws == [])
            && (r.term <= n.term && n.role != Leader ==> (n', ws) == (n, []))
            && (r.term <= n.term && n.role == Leader && r.success ==>
                  && MatchOf(n', peer) == r.matchIndex && NextOf(n', peer) == r.matchIndex + 1
                  && (forall q :: q != peer ==> MatchOf(n', q) == MatchOf(n, q) && NextOf(n', q) == NextOf(n, q))
                  && n'.role == Leader && n'.term == n.term)
            && (r.term <= n.term && n.role == Leader && !r.success ==>
                  && NextOf(n', peer) == Max(1, NextOf(n, peer) - 1)
                  && (forall q :: q != peer ==> NextOf(n', q) == NextOf(n, q))
                  && n' == n.(next := n'.next) && ws == [])
  {
    UpdateOnlyCommits(n.(next := n.next[peer := r.matchIndex + 1], matched := n.matched[peer := r.matchIndex]));
  }

  /** What a peer is asked: everything after its position, with the entry before it, and nothing if
      that has been folded. */
  lemma RequestIff(n: Node, peer: NodeId)
    requires Whole(n) && peer in n.next && 1 <= n.next[peer] <= n.base + |n.log| + 1
    ensures MakeAppendRequest(n, peer).Some? <==> n.next[peer] > n.base
    ensures n.next[peer] > n.base ==>
              var r := MakeAppendRequest(n, peer).value;
              && r.term == n.term && r.leader == n.cfg.id && r.commit == n.commit
              && r.prevIndex == n.next[peer] - 1 && r.entries == n.log[r.prevIndex - n.base..] && InOrder(r)
              && PrevHeld(n, r)
  {
    hide Above;
    LastOf(n);
    if n.next[peer] > n.base {
      var prev := n.next[peer] - 1;
      AboveIndexed(n.log, n.base, prev);
      assert n.base + |n.log| == prev ==> n.log[prev - n.base..] == [];
      RequestInOrder(n, prev);
    }
  }

  lemma RequestInOrder(n: Node, prev: nat)
    requires Whole(n) && n.base <= prev <= n.base + |n.log|
    ensures var rest := n.log[prev - n.base..]; forall i :: 0 <= i < |rest| ==> rest[i].index == prev + 1 + i
  {
  }

  /** The leader after `k` refusals in a row. */
  function Refused(n: Node, peer: NodeId, k: nat): Node {
    if k == 0 then n else HandleAppendReply(Refused(n, peer, k - 1), peer, AppendReply(n.term, false, 0)).0
  }

  lemma {:induction false} BacksOff(n: Node, peer: NodeId, k: nat)
    requires n.role == Leader && peer in n.next && n.next[peer] >= 1
    ensures var m := Refused(n, peer, k);
            peer in m.next && m == n.(next := n.next[peer := m.next[peer]]) && m.next[peer] == Max(1, n.next[peer] - k)
  {
    if k > 0 {
      BacksOff(n, peer, k - 1);
      assert n.next[peer := n.next[peer]] == n.next;
    } else {
      assert n.next[peer := n.next[peer]] == n.next;
    }
  }

  /** Refusals end: after at most as many as its position is past the first entry, a peer in no newer term
      takes the request it is sent, or is due the snapshot, and takes that. */
  lemma RefusalsEnd(n: Node, peer: NodeId, f: Node, s: Snapshot) returns (k: nat)
    requires Whole(n) && n.role == Leader && peer in n.next && 1 <= n.next[peer] <= n.base + |n.log| + 1
    requires Whole(f) && f.base <= f.applied <= f.commit && f.term <= n.term
    requires (n.base == 0 ==> n.baseTerm == 0) && (f.base == 0 ==> f.baseTerm == 0)
    ensures k <= n.next[peer]
    ensures var r := MakeAppendRequest(Refused(n, peer, k), peer);
            if n.base == 0 then r.Some? && HandleAppendRequest(f, r.value).2.success
            else r.None? && HandleInstallRequest(f, InstallRequest(n.term, n.cfg.id, s)).2.success
  {
    hide HandleAppendRequest, MakeAppendRequest, Refused, HandleInstallRequest;
    k := n.next[peer] - 1;
    BacksOff(n, peer, k);
    var m := Refused(n, peer, k);
    RequestIff(m, peer);
    if n.base == 0 {
      AppendIff(f, MakeAppendRequest(m, peer).value);
    } else {
      InstallIff(f, InstallRequest(n.term, n.cfg.id, s));
    }
  }

  // ---- committing by counting -----------------------------------------------------

  /** Index `c` holds an entry of the leader's own term, and the leader and the peers that have matched
      it are a majority. */
  ghost predicate CanCommit(n: Node, c: nat)
    requires Whole(n)
  {
    && n.base < c <= n.base + |n.log| && n.log[c - n.base - 1].term == n.term
    && |HoldersIn(n, n.cfg.peers, c)| + 1 >= Majority(|n.cfg.peers| + 1)
  }

  lemma MajorityInside(n: Node)
    requires Whole(n) && forall p :: p in n.cfg.peers ==> MatchOf(n, p) <= n.base + |n.log|
    ensures MajorityIndex(n) <= n.base + |n.log|
  {
    LastOf(n);
    var ms := MatchList(n);
    forall i | 0 <= i < |ms| ensures ms[i] <= n.base + |n.log| {
      assert n.cfg.peers[i] in n.cfg.peers;
    }
    SortedLength(ms);
    SortedBound(ms, n.base + |n.log|);
  }

  /** What counting rests on: the terms of the log rise to the leader's own, and no peer has matched more
      than there is. */
  ghost predicate Countable(n: Node) {
    && Whole(n) && Distinct(n.cfg.peers) && Monotone(n.log) && n.base <= n.applied <= n.commit <= n.base + |n.log|
    && (forall i :: 0 <= i < |n.log| ==> n.log[i].term <= n.term)
    && (forall p :: p in n.cfg.peers ==> MatchOf(n, p) <= n.base + |n.log|)
  }

  /** Index `c` was committed, or can be, or one after it can. */
  ghost predicate CommitReaches(n: Node, c: nat)
    requires Whole(n)
  {
    n.commit >= c || exists d: nat :: d >= c && CanCommit(n, d)
  }

  /** Counting commits an index if and only if it, or one after it, can be; and applies it. */
  lemma CommitIff(n: Node, c: nat)
    requires Countable(n)
    ensures UpdateCommit(n).0.commit >= c <==> CommitReaches(n, c)
    ensures UpdateCommit(n).0.applied == Max(n.applied, UpdateCommit(n).0.commit) || UpdateCommit(n).0 == n
  {
    hide ApplyCommitted, MajorityIndex;
    LastOf(n);
    MajorityInside(n);
    var p := MajorityIndex(n);
    forall d: nat | CanCommit(n, d)
      ensures d <= p && (d > n.base ==> p > n.base && n.log[p - n.base - 1].term == n.term)
    {
      MajorityIndexCounts(n, d);
      assert n.log[d - n.base - 1].term <= n.log[p - n.base - 1].term;
    }
    if p > n.commit && EntryAt(n, p).Some? && EntryAt(n, p).value.term == n.term {
      MajorityIndexCounts(n, p);
      assert CanCommit(n, p);
      ApplyAll(n.(commit := p));
    } else {
      assert UpdateCommit(n) == (n, []);
      forall d: nat | CanCommit(n, d) ensures d <= n.commit {
      }
    }
  }

  /** A success is counted: an index is committed after it if and only if it, or one after it, can be with
      the match the peer reports. */
  lemma AnswerCommits(n: Node, peer: NodeId, r: AppendReply, c: nat)
    requires n.role == Leader && r.term <= n.term && r.success && r.matchIndex <= n.base + |n.log| && Countable(n)
    ensures var told := n.(next := n.next[peer := r.matchIndex + 1], matched := n.matched[peer := r.matchIndex]);
            HandleAppendReply(n, peer, r).0.commit >= c <==> CommitReaches(told, c)
  {
    hide UpdateCommit;
    CommitIff(n.(next := n.next[peer := r.matchIndex + 1], matched := n.matched[peer := r.matchIndex]), c);
  }

  /** So is an append of the leader's own: alone, it commits at once. */
  lemma ProposeCommits(n: Node, command: Command, c: nat)
    requires n.role == Leader && Countable(n)
    ensures var longer := n.(log := n.log + [Entry(n.term, n.base + |n.log| + 1, command)]);
            && Whole(longer) && (Propose(n, command).0.commit >= c <==> CommitReaches(longer, c))
            && (n.cfg.peers == [] ==> Propose(n, command).0.commit == n.base + |n.log| + 1)
  {
    hide UpdateCommit;
    LastOf(n);
    var longer := n.(log := n.log + [Entry(n.term, n.base + |n.log| + 1, command)]);
    CommitIff(longer, c);
    if n.cfg.peers == [] {
      var last := n.base + |n.log| + 1;
      assert CanCommit(longer, last);
      CommitIff(longer, last);
      CommitIff(longer, last + 1);
    }
  }

  /** A leader's append is stored first and is then the last entry, or folded with the rest. */
  lemma ProposeIff(n: Node, command: Command)
    requires Whole(n) && n.base <= n.applied <= n.commit <= n.base + |n.log| && Distinct(n.cfg.peers)
    ensures var (n', ws) := Propose(n, command);
            && (n.role != Leader ==> (n', ws) == (n, []))
            && (n.role == Leader ==>
                  var e := Entry(n.term, n.base + |n.log| + 1, command);
                  && ws != [] && ws[0] == PutEntry(e) && LastIndex(n') == e.index
                  && (n'.base < e.index ==> EntryAt(n', e.index) == Some(e)))
  {
    hide UpdateCommit, EntryAt;
    LastOf(n);
    if n.role == Leader {
      var e := Entry(n.term, n.base + |n.log| + 1, command);
      UpdateKeepsLog(n.(log := n.log + [e]), e.index);
      LastAt(n, e);
    }
  }

  lemma LastAt(n: Node, e: Entry)
    requires Whole(n) && e.index == n.base + |n.log| + 1
    ensures EntryAt(n.(log := n.log + [e]), e.index) == Some(e)
  {
  }

  lemma UpdateKeepsLog(n: Node, i: nat)
    requires Whole(n) && n.base <= n.applied <= n.commit <= n.base + |n.log|
    ensures var n' := UpdateCommit(n).0;
            LastIndex(n') == LastIndex(n) && (n'.base < i ==> EntryAt(n', i) == EntryAt(n, i))
  {
    hide ApplyCommitted, MajorityIndex;
    LastOf(n);
    var p := MajorityIndex(n);
    if p > n.commit && EntryAt(n, p).Some? && EntryAt(n, p).value.term == n.term {
      ApplyKeepsLog(n.(commit := p), i);
    }
  }

  lemma ApplyKeepsLog(n: Node, i: nat)
    requires Whole(n) && n.base <= n.applied <= n.commit <= n.base + |n.log|
    ensures var n' := ApplyCommitted(n).0;
            LastIndex(n') == LastIndex(n) && (n'.base < i ==> EntryAt(n', i) == EntryAt(n, i))
  {
    hide Replayed, MaybeSnapshot;
    FoldIff(ApplyLoop(n));
    FoldHolds(ApplyLoop(n));
    SameAt(n, ApplyLoop(n));
  }

  /** A node comes back a follower, in the term and with the vote that are stored. */
  lemma LoadIff(cfg: Config, d: Disk)
    ensures var n := Load(cfg, d).0;
            n.cfg == cfg && n.role == Follower && n.term == d.term && n.votedFor == d.votedFor && n.votes == {}
  {
    hide Replayed, Above, LoadLog;
  }
}
