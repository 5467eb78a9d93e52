/** The node as it runs: fields changed in place, and storage written as it goes.  Each call leaves
    the fields and the storage as the functions of `RaftNode` say. */
module MemoryRaftNode {
  import opened Common
  import opened Engine
  import opened RaftProtocol
  import opened N = RaftNode
  import opened RaftNodeFacts
  import opened RaftStorage
  import Rows
  import Shards

  /** What a call writes can be written: its indices fit in eight bytes. */
  predicate Storable(ws: seq<Write>) { forall i :: 0 <= i < |ws| ==> StorableOne(ws[i]) }

  predicate StorableOne(w: Write) {
    match w
    case PutEntry(e) => e.index < INDEX_LIMIT
    case Truncate(from) => from < INDEX_LIMIT
    case Compact(upTo) => upTo + 1 < INDEX_LIMIT
    case _ => true
  }

  lemma StorableParts(a: seq<Write>, b: seq<Write>)
    requires Storable(a + b)
    ensures Storable(a) && Storable(b)
  {
    forall i | 0 <= i < |a| ensures StorableOne(a[i]) { assert (a + b)[i] == a[i]; }
    forall i | 0 <= i < |b| ensures StorableOne(b[i]) { assert (a + b)[|a| + i] == b[i]; }
  }

  datatype FreezeReason = Split | Migration | Other(reason: Bytes)

  datatype Answer = Admitted | NotLeader | SplitInProgress | Migrating

  /** A frozen shard takes no command that would add a row to it. */
  predicate Admits(frozen: bool, c: Rows.Command) { !(frozen && Rows.WritesNewData(c)) }

  /** Whatever a frozen node admits, and for as long as it is frozen, it changes nothing of a key that
      holds no lock: what is read of it once is what there is to copy. */
  lemma FrozenNodeIsFixed(decode: Command -> Rows.Command, s: Shards.Shard, admitted: seq<Command>, clock: seq<int>,
                          key: Bytes)
    requires |clock| == |admitted| && forall i :: 0 <= i < |admitted| ==> Admits(true, decode(admitted[i]))
    requires Shards.RowOf(s, key).locks == map[]
    ensures var log := seq(|admitted|, i requires 0 <= i < |admitted| => decode(admitted[i]));
            Shards.RowOf(Shards.Replay(s, log, clock), key) == Shards.RowOf(s, key)
  {
    var log := seq(|admitted|, i requires 0 <= i < |admitted| => decode(admitted[i]));
    Shards.FrozenIsFixed(s, log, clock, key);
  }

  /** What a frozen shard tells a caller it refuses. */
  function Refusal(reason: FreezeReason): Answer { if reason.Migration? then Migrating else SplitInProgress }

  class MemoryRaftNode {
    const cfg: Config
    const storage: EngineRaftStorage
    const decode: Command -> Rows.Command   // what a command unpacks to, if it does
    var role: Role
    var term: nat
    var votedFor: Option<NodeId>
    var log: Log
    var base: nat
    var baseTerm: nat
    var commit: nat
    var applied: nat
    var votes: set<NodeId>
    var next: map<NodeId, nat>
    var matched: map<NodeId, nat>
    var machine: Machine
    var frozen: bool
    var freezeReason: FreezeReason

    function View(): Node
      reads this
    {
      Node(cfg, role, term, votedFor, log, base, baseTerm, commit, applied, votes, next, matched, machine)
    }

    ghost predicate Valid()
      reads this, storage, storage.engine
    {
      storage.Valid() && next.Keys <= Members(cfg.peers) && matched.Keys <= Members(cfg.peers)
    }

    ghost function Stored(): Disk
      requires Valid()
      reads this, storage, storage.engine
    {
      storage.Contents()
    }

    /** A node comes back as what its storage says: the snapshot first, and then the committed
        entries after it. */
    constructor (cfg: Config, storage: EngineRaftStorage, decode: Command -> Rows.Command)
      requires storage.Valid() && Storable(Load(cfg, storage.Contents()).1)
      modifies storage.engine
      ensures this.cfg == cfg && this.storage == storage && this.decode == decode
      ensures Valid() && !frozen && View() == Load(cfg, old(storage.Contents())).0
      ensures Stored() == PerformAll(old(storage.Contents()), Load(cfg, old(storage.Contents())).1)
    {
      hide Load, PerformAll, Storable;
      this.cfg, this.storage, this.decode := cfg, storage, decode;
      role, term, votedFor, votes, next, matched := Follower, 0, None, {}, map[], map[];
      log, base, baseTerm, commit, applied, machine := [], 0, 0, 0, 0, [];
      frozen, freezeReason := false, Split;
      new;
      LoadFromStorage();
    }

    method LoadFromStorage()
      requires Valid() && View() == Unstarted(cfg) && Storable(Load(cfg, Stored()).1)
      modifies this`term, this`votedFor, this`log, this`base, this`baseTerm, this`commit, this`applied, this`machine,
               storage.engine
      ensures Valid() && View() == Load(cfg, old(Stored())).0
      ensures Stored() == PerformAll(old(Stored()), Load(cfg, old(Stored())).1)
    {
      hide ApplyCommitted, Above, N.LoadLog, LastIndex, DiskOf, Laid, PerformAll, Storable, Load;
      ghost var d := Stored();
      var savedTerm, savedVote := storage.LoadMeta();
      var entries := storage.LoadLog();
      var snapshot := storage.LoadSnapshot();
      var saved := storage.LoadCommitIndex();
      term, votedFor, log := savedTerm, savedVote, entries;
      if snapshot.Some? {
        var s := snapshot.value;
        machine, base, baseTerm, applied, log := s.data, s.index, s.term, s.index, Above(entries, s.index);
      }
      ghost var n := View();
      commit := Max(Min(saved, LastIndex(View())), applied);
      LastOfSame(n, View());
      LoadApplies(cfg, d, View());
      ApplyCommittedEntries();
    }

    // ---- applying -----------------------------------------------------------------

    method MaybeSnapshot()
      requires Valid() && Storable(N.MaybeSnapshot(View()).1)
      modifies this`log, this`base, this`baseTerm, storage.engine
      ensures Valid() && View() == N.MaybeSnapshot(old(View())).0
      ensures Stored() == PerformAll(old(Stored()), N.MaybeSnapshot(old(View())).1)
    {
      ghost var d := Stored();
      if cfg.interval <= 0 || applied - base < cfg.interval {
        return;
      }
      var entry := EntryAt(View(), applied);
      if entry.None? {
        return;
      }
      var snapshot := Snapshot(applied, entry.value.term, machine);
      ghost var ws := N.MaybeSnapshot(View()).1;
      assert StorableOne(ws[1]);
      PerformTwo(d, ws[0], ws[1]);
      storage.SaveSnapshot(snapshot);
      storage.CompactLog(applied);
      log := Above(log, applied);
      base, baseTerm := applied, snapshot.term;
    }

    method ApplyCommittedEntries()
      requires Valid() && Storable(ApplyCommitted(View()).1)
      modifies this`log, this`base, this`baseTerm, this`applied, this`machine, storage.engine
      ensures Valid() && View() == ApplyCommitted(old(View())).0
      ensures Stored() == PerformAll(old(Stored()), ApplyCommitted(old(View())).1)
    {
      hide N.MaybeSnapshot, Storable, HandedOne;
      while applied < commit
        invariant Valid() && Stored() == old(Stored()) && ApplyLoop(View()) == ApplyLoop(old(View()))
        invariant log == old(log) && base == old(base) && baseTerm == old(baseTerm)
      {
        ghost var n1 := View();
        applied := applied + 1;
        var entry := EntryAt(View(), applied);
        if entry.Some? {
          machine := machine + HandedOne(entry.value);
        }
        ReplayStep(n1, View());
      }
      assert View() == ApplyLoop(View());
      MaybeSnapshot();
    }

    // ---- leading ------------------------------------------------------------------

    method UpdateCommitIndex()
      requires Valid() && Storable(UpdateCommit(View()).1)
      modifies this`log, this`base, this`baseTerm, this`commit, this`applied, this`machine, storage.engine
      ensures Valid() && View() == UpdateCommit(old(View())).0
      ensures Stored() == PerformAll(old(Stored()), UpdateCommit(old(View())).1)
    {
      hide ApplyCommitted, EntryAt, LastIndex, MajorityIndex, PerformAll, Storable;
      ghost var n, d := View(), Stored();
      PerformNone(d);
      var picked := MajorityIndex(View());
      if picked > commit {
        var entry := EntryAt(View(), picked);
        if entry.Some? && entry.value.term == term {
          ghost var ws := ApplyCommitted(n.(commit := picked)).1;
          StorableParts([SaveCommit(picked)], ws);
          PerformAppend(d, [SaveCommit(picked)], ws);
          PerformOne(d, SaveCommit(picked));
          commit := picked;
          storage.SaveCommitIndex(picked);
          ApplyCommittedEntries();
        }
      }
    }

    method AppendOwn(command: Command)
      requires Valid() && Storable(LeaderAppend(View(), command).1)
      modifies this`log, this`base, this`baseTerm, this`commit, this`applied, this`machine, storage.engine
      ensures Valid() && View() == LeaderAppend(old(View()), command).0
      ensures Stored() == PerformAll(old(Stored()), LeaderAppend(old(View()), command).1)
    {
      hide UpdateCommit, PerformAll, LastIndex;
      ghost var n, d := View(), Stored();
      var entry := Entry(term, LastIndex(View()) + 1, command);
      ghost var ws := UpdateCommit(n.(log := n.log + [entry])).1;
      StorableParts([PutEntry(entry)], ws);
      assert StorableOne([PutEntry(entry)][0]);
      PerformAppend(d, [PutEntry(entry)], ws);
      PerformOne(d, PutEntry(entry));
      log := log + [entry];
      storage.AppendLogEntry(entry);
      UpdateCommitIndex();
    }

    /** Every peer is to be sent what comes next, and is known to hold nothing. */
    method ResetPositions(last: nat)
      requires Valid()
      modifies this`next, this`matched
      ensures next == Positions(cfg.peers, last + 1) && matched == Positions(cfg.peers, 0)
    {
      var i := 0;
      while i < |cfg.peers|
        invariant 0 <= i <= |cfg.peers| && next.Keys <= Members(cfg.peers) && matched.Keys <= Members(cfg.peers)
        invariant forall p :: p in cfg.peers[..i] ==>
            p in next && p in matched && next[p] == last + 1 && matched[p] == 0
      {
        next := next[cfg.peers[i] := last + 1];
        matched := matched[cfg.peers[i] := 0];
        i := i + 1;
      }
      assert cfg.peers[..i] == cfg.peers;
    }

    method CheckVoteCount()
      requires Valid() && Storable(CheckVotes(View()).1)
      modifies this`role, this`votes, this`next, this`matched, this`log, this`base, this`baseTerm, this`commit,
               this`applied,
               this`machine, storage.engine
      ensures Valid() && View() == CheckVotes(old(View())).0
      ensures Stored() == PerformAll(old(Stored()), CheckVotes(old(View())).1)
    {
      hide LeaderAppend, PerformAll, LastIndex;
      ghost var n, d := View(), Stored();
      if role != Candidate || |votes| < Majority(|cfg.peers| + 1) {
        assert PerformAll(d, []) == d by { PerformNone(d); }
        return;
      }
      role, votes := Leader, {};
      LastOfSame(n, View());
      ResetPositions(LastIndex(View()));
      AppendOwn(NOOP);
    }

    method StartElection()
      requires Valid() && Storable(N.StartElection(View()).1)
      modifies this`term, this`votedFor, this`role, this`votes, this`next, this`matched, this`log, this`base,
               this`baseTerm,
               this`commit, this`applied, this`machine, storage.engine
      ensures Valid() && View() == N.StartElection(old(View())).0
      ensures Stored() == PerformAll(old(Stored()), N.StartElection(old(View())).1)
    {
      hide CheckVotes, PerformAll;
      ghost var n, d := View(), Stored();
      if role == Leader {
        PerformNone(d);
        return;
      }
      role, term, votedFor, votes := Candidate, term + 1, Some(cfg.id), {cfg.id};
      ghost var ws := CheckVotes(View()).1;
      StorableParts([SaveMeta(term, votedFor)], ws);
      PerformAppend(d, [SaveMeta(term, votedFor)], ws);
      PerformOne(d, SaveMeta(term, votedFor));
      storage.SaveMeta(term, votedFor);
      CheckVoteCount();
    }

    method TakeVoteReply(peer: NodeId, reply: VoteReply)
      requires Valid() && Storable(HandleVoteReply(View(), peer, reply).1)
      modifies this`term, this`votedFor, this`role, this`votes, this`next, this`matched, this`log, this`base,
               this`baseTerm,
               this`commit, this`applied, this`machine, storage.engine
      ensures Valid() && View() == HandleVoteReply(old(View()), peer, reply).0
      ensures Stored() == PerformAll(old(Stored()), HandleVoteReply(old(View()), peer, reply).1)
    {
      hide CheckVotes;
      if reply.term > term {
        term, role, votedFor, votes := reply.term, Follower, None, {};
        return;
      }
      if role != Candidate {
        return;
      }
      if reply.granted {
        votes := votes + {peer};
        CheckVoteCount();
      }
    }

    /** An answer to an append; an answer to a snapshot is taken in the same way, at its index. */
    method TakeAppendReply(peer: NodeId, reply: AppendReply)
      requires Valid() && peer in cfg.peers && Storable(HandleAppendReply(View(), peer, reply).1)
      modifies this`term, this`votedFor, this`role, this`next, this`matched, this`log, this`base, this`baseTerm,
               this`commit, this`applied, this`machine, storage.engine
      ensures Valid() && View() == HandleAppendReply(old(View()), peer, reply).0
      ensures Stored() == PerformAll(old(Stored()), HandleAppendReply(old(View()), peer, reply).1)
    {
      hide UpdateCommit;
      if reply.term > term {
        term, role, votedFor := reply.term, Follower, None;
        return;
      }
      if role != Leader {
        return;
      }
      if reply.success {
        next := next[peer := reply.matchIndex + 1];
        matched := matched[peer := reply.matchIndex];
        UpdateCommitIndex();
      } else {
        var back: int := if peer in next then next[peer] else 1;
        next := next[peer := Max(1, back - 1)];
      }
    }

    // ---- answering ----------------------------------------------------------------

    method RequestVote(request: VoteRequest) returns (reply: VoteReply)
      requires Valid()
      modifies this`term, this`votedFor, this`role, this`votes, storage.engine
      ensures Valid()
      ensures (View(), reply) == (HandleVoteRequest(old(View()), request).0, HandleVoteRequest(old(View()), request).2)
      ensures Stored() == PerformAll(old(Stored()), HandleVoteRequest(old(View()), request).1)
    {
      ghost var d := Stored();
      var lastIndex, lastTerm := LastIndex(View()), LastLogTerm(View());
      ghost var ws: seq<Write> := [];
      if request.term > term {
        term, role, votedFor, votes := request.term, Follower, None, {};
        storage.SaveMeta(term, votedFor);
        ws := [SaveMeta(term, None)];
        PerformOne(d, ws[0]);
      }
      if request.term < term {
        return VoteReply(term, false);
      }
      var canVote := votedFor == None || votedFor == Some(request.candidate);
      var logOk := request.lastTerm > lastTerm || (request.lastTerm == lastTerm && request.lastIndex >= lastIndex);
      if canVote && logOk {
        votedFor := Some(request.candidate);
        storage.SaveMeta(term, votedFor);
        PerformAppend(d, ws, [SaveMeta(term, votedFor)]);
        PerformOne(PerformAll(d, ws), SaveMeta(term, votedFor));
        return VoteReply(term, true);
      }
      return VoteReply(term, false);
    }

    /** The request's entries, one after another: known ones skipped, new ones appended, and a
        disagreement cutting everything from it on. */
    method MergeEntries(entries: Log)
      requires Valid() && Storable(Merge(View(), entries).1)
      modifies this`log, this`commit, this`applied, storage.engine
      ensures Valid() && View() == Merge(old(View()), entries).0
      ensures Stored() == PerformAll(old(Stored()), Merge(old(View()), entries).1)
    {
      hide PerformAll, MergeOne, Storable, Merge;
      ghost var n, d := View(), Stored();
      ghost var written: seq<Write> := [];
      var i := 0;
      PerformNone(d);
      MergeUnfolds(View(), entries);
      assert entries[0..] == entries;
      assert [] + Merge(n, entries).1 == Merge(n, entries).1;
      while i < |entries|
        invariant 0 <= i <= |entries| && Valid()
        invariant Stored() == PerformAll(d, written)
        invariant View() == n.(log := log, commit := commit, applied := applied)
        invariant Merge(n, entries) == (Merge(View(), entries[i..]).0, written + Merge(View(), entries[i..]).1)
      {
        ghost var n1, rest := View(), entries[i..];
        MergeUnfolds(n1, rest);
        assert rest[0] == entries[i] && rest[1..] == entries[i + 1..];
        ghost var ws := MergeOne(n1, entries[i]).1;
        ghost var later := Merge(MergeOne(n1, entries[i]).0, rest[1..]).1;
        assert written + (ws + later) == (written + ws) + later;
        StorableParts(written + ws, later);
        StorableParts(written, ws);
        MergeEntry(entries[i]);
        PerformAppend(d, written, ws);
        written := written + ws;
        i := i + 1;
      }
      assert entries[i..] == [];
      MergeUnfolds(View(), entries[i..]);
      assert written + [] == written;
    }

    method MergeEntry(entry: Entry)
      requires Valid() && Storable(MergeOne(View(), entry).1)
      modifies this`log, this`commit, this`applied, storage.engine
      ensures Valid() && View() == MergeOne(old(View()), entry).0
      ensures Stored() == PerformAll(old(Stored()), MergeOne(old(View()), entry).1)
    {
      hide LastIndex;
      ghost var n, d := View(), Stored();
      ghost var ws := MergeOne(n, entry).1;
      if entry.index <= base {
        return;
      }
      var existing := EntryAt(View(), entry.index);
      if existing.Some? {
        if existing.value.term != entry.term {
          assert StorableOne(ws[0]) && StorableOne(ws[1]);
          PerformTwo(d, ws[0], ws[1]);
          log := log[..entry.index - base - 1];
          storage.TruncateLog(entry.index);
          commit := Min(commit, LastIndex(View()));
          LastOfSame(n.(log := log), View());
          applied := Min(applied, commit);
          log := log + [entry];
          storage.AppendLogEntry(entry);
        }
      } else {
        assert StorableOne(ws[0]);
        PerformOne(d, ws[0]);
        log := log + [entry];
        storage.AppendLogEntry(entry);
      }
    }

    method AppendEntries(request: AppendRequest) returns (reply: AppendReply)
      requires Valid() && Storable(HandleAppendRequest(View(), request).1)
      modifies this`term, this`votedFor, this`role, this`votes, this`log, this`base, this`baseTerm, this`commit,
               this`applied,
               this`machine, storage.engine
      ensures Valid() && View() == HandleAppendRequest(old(View()), request).0
      ensures reply == HandleAppendRequest(old(View()), request).2
      ensures Stored() == PerformAll(old(Stored()), HandleAppendRequest(old(View()), request).1)
    {
      hide Merge, AdvanceCommit, PrevMismatch, LastIndex, PerformAll;
      ghost var n, d := View(), Stored();
      ghost var ws := HandleAppendRequest(n, request).1;
      PerformNone(d);
      var changed := request.term > term;
      if changed {
        term, role, votedFor, votes := request.term, Follower, None, {};
      }
      if request.term < term {
        return AppendReply(term, false, 0);
      }
      if role != Follower {
        role, votes := Follower, {};
      }
      ghost var n2 := View();
      assert n2 == Concede(NewerTerm(n, request.term));
      if request.prevIndex > LastIndex(View()) || PrevMismatch(View(), request) {
        if changed {
          PerformOne(d, SaveMeta(term, votedFor));
          storage.SaveMeta(term, votedFor);
        }
        return AppendReply(term, false, 0);
      }
      ghost var merged := Merge(n2, request.entries).1;
      ghost var meta := if changed then [SaveMeta(n2.term, n2.votedFor)] else [];
      ghost var committed := AdvanceCommit(Merge(n2, request.entries).0, request.commit).1;
      assert ws == merged + meta + committed;
      StorableParts(merged + meta, committed);
      StorableParts(merged, meta);
      PerformAppend(d, merged + meta, committed);
      PerformAppend(d, merged, meta);
      MergeEntries(request.entries);
      PerformNone(Stored());
      if changed {
        PerformOne(Stored(), SaveMeta(term, votedFor));
        storage.SaveMeta(term, votedFor);
      }
      reply := AppendReply(term, true, LastIndex(View()));
      FollowCommit(request.commit);
    }

    /** The leader's commit index, as far as this log reaches. */
    method FollowCommit(leaderCommit: nat)
      requires Valid() && Storable(AdvanceCommit(View(), leaderCommit).1)
      modifies this`log, this`base, this`baseTerm, this`commit, this`applied, this`machine, storage.engine
      ensures Valid() && View() == AdvanceCommit(old(View()), leaderCommit).0
      ensures Stored() == PerformAll(old(Stored()), AdvanceCommit(old(View()), leaderCommit).1)
    {
      hide ApplyCommitted, LastIndex, PerformAll, Storable;
      ghost var n, d := View(), Stored();
      PerformNone(d);
      if leaderCommit > commit {
        var c := Min(leaderCommit, LastIndex(View()));
        ghost var ws := ApplyCommitted(n.(commit := c)).1;
        StorableParts([SaveCommit(c)], ws);
        PerformAppend(d, [SaveCommit(c)], ws);
        PerformOne(d, SaveCommit(c));
        commit := c;
        storage.SaveCommitIndex(c);
        ApplyCommittedEntries();
      }
    }

    method InstallSnapshot(request: InstallRequest) returns (reply: InstallReply)
      requires Valid() && Storable(HandleInstallRequest(View(), request).1)
      modifies this`term, this`votedFor, this`role, this`votes, this`log, this`base, this`baseTerm, this`commit,
               this`applied,
               this`machine, storage.engine
      ensures Valid() && View() == HandleInstallRequest(old(View()), request).0
      ensures reply == HandleInstallRequest(old(View()), request).2
      ensures Stored() == PerformAll(old(Stored()), HandleInstallRequest(old(View()), request).1)
    {
      hide PerformAll, Above;
      ghost var n, d := View(), Stored();
      PerformNone(d);
      var changed := request.term > term;
      if changed {
        term, role, votedFor, votes := request.term, Follower, None, {};
      }
      if request.term < term {
        return InstallReply(term, false);
      }
      if role != Follower {
        role, votes := Follower, {};
      }
      ghost var n2 := View();
      assert n2 == Concede(NewerTerm(n, request.term));
      ghost var meta := if changed then [SaveMeta(term, votedFor)] else [];
      if changed {
        PerformOne(d, SaveMeta(term, votedFor));
        storage.SaveMeta(term, votedFor);
      }
      if request.snapshot.index > applied {
        ghost var ws := RestoreWrites(n2, request.snapshot);
        StorableParts(meta, ws);
        PerformAppend(d, meta, ws);
        Restore(request.snapshot);
      }
      return InstallReply(term, true);
    }

    /** The machine's state swapped for the snapshot's, and everything it covers dropped. */
    method Restore(s: Snapshot)
      requires Valid() && Storable(RestoreWrites(View(), s))
      modifies this`log, this`base, this`baseTerm, this`commit, this`applied, this`machine, storage.engine
      ensures Valid() && Stored() == PerformAll(old(Stored()), RestoreWrites(old(View()), s))
      ensures View() == old(View()).(machine := s.data, log := Above(old(log), s.index), base := s.index,
                                     baseTerm := s.term,
                                     applied := s.index, commit := Max(old(commit), s.index))
    {
      hide PerformAll, Above;
      ghost var ws := RestoreWrites(View(), s);
      assert StorableOne(ws[1]);
      PerformThree(Stored(), ws[0], ws[1], ws[2]);
      machine := s.data;
      log := Above(log, s.index);
      storage.SaveSnapshot(s);
      storage.CompactLog(s.index);
      base, baseTerm, applied := s.index, s.term, s.index;
      commit := Max(commit, applied);
      storage.SaveCommitIndex(commit);
    }

    // ---- clients ------------------------------------------------------------------

    method FreezeWrites(reason: FreezeReason)
      modifies this`frozen, this`freezeReason
      ensures frozen && freezeReason == reason
    {
      frozen, freezeReason := true, reason;
    }

    method ResumeWrites()
      modifies this`frozen
      ensures !frozen
    {
      frozen := false;
    }

    /** A read, once the peers have been asked: it is served at the commit index that the answers leave,
        if they are enough and this node still leads the term it began in; a node alone serves it at once. */
    method ServeRead(began: Node, answers: seq<Option<AppendReply>>) returns (index: Option<nat>)
      requires Valid() && Storable(UpdateCommit(View()).1)
      modifies this`log, this`base, this`baseTerm, this`commit, this`applied, this`machine, storage.engine
      ensures Valid() && index == ServedIndex(began, old(View()), answers)
      ensures var counts := index.Some? && began.cfg.peers != [];
              && View() == (if counts then UpdateCommit(old(View())).0 else old(View()))
              && Stored() == if counts then PerformAll(old(Stored()), UpdateCommit(old(View())).1) else old(Stored())
    {
      hide UpdateCommit, PerformAll;
      if began.role != Leader {
        return None;
      }
      if began.cfg.peers == [] {
        return Some(began.commit);
      }
      var acks := 1;
      var i := 0;
      while i < |answers|
        invariant 0 <= i <= |answers| && acks == CountAcks(answers[..i], began.term) + 1
      {
        assert answers[..i + 1][..i] == answers[..i];
        if answers[i].Some? && answers[i].value.success && answers[i].value.term == began.term {
          acks := acks + 1;
        }
        i := i + 1;
      }
      assert answers[..i] == answers;
      if role != Leader || term != began.term {
        return None;
      }
      if acks < Majority(|cfg.peers| + 1) {
        return None;
      }
      UpdateCommitIndex();
      return Some(commit);
    }

    /** A leader takes a command into its log, unless the shard is frozen and the command would add
        a row to it. */
    method Propose(command: Command) returns (answer: Answer)
      requires Valid() && Storable(N.Propose(View(), command).1)
      modifies this`log, this`base, this`baseTerm, this`commit, this`applied, this`machine, storage.engine
      ensures Valid()
      ensures answer == Admitted <==> old(role) == Leader && Admits(old(frozen), decode(command))
      ensures answer == NotLeader <==> old(role) != Leader
      ensures answer == Migrating <==>
              old(role) == Leader && !Admits(old(frozen), decode(command)) && freezeReason == Migration
      ensures answer == SplitInProgress <==>
              old(role) == Leader && !Admits(old(frozen), decode(command)) && freezeReason != Migration
      ensures View() == if answer == Admitted then N.Propose(old(View()), command).0 else old(View())
      ensures Stored() ==
              if answer == Admitted then PerformAll(old(Stored()), N.Propose(old(View()), command).1)
              else old(Stored())
    {
      hide LeaderAppend;
      if role != Leader {
        return NotLeader;
      }
      if !Admits(frozen, decode(command)) {
        return Refusal(freezeReason);
      }
      AppendOwn(command);
      return Admitted;
    }
  }

  /** Starting is reading everything back, and then applying what is committed. */
  lemma LoadApplies(cfg: Config, d: Disk, n: Node)
    requires n == Unstarted(cfg).(term := d.term, votedFor := d.votedFor, log := n.log, base := n.base,
                                  baseTerm := n.baseTerm, commit := Max(Min(d.commit, LastIndex(n)), n.applied),
                                  applied := n.base, machine := n.machine)
    requires match d.snapshot
             case None => n.log == N.LoadLog(d.entries) && n.base == 0 && n.baseTerm == 0 && n.machine == []
             case Some(s) =>
               && n.log == Above(N.LoadLog(d.entries), s.index)
               && n.base == s.index && n.baseTerm == s.term && n.machine == s.data
    ensures Load(cfg, d) == ApplyCommitted(n)
  {
    hide ApplyCommitted, Above, N.LoadLog;
  }

  /** A node before it has looked at its storage. */
  function Unstarted(cfg: Config): Node {
    Node(cfg, Follower, 0, None, [], 0, 0, 0, 0, {}, map[], map[], [])
  }

  function RestoreWrites(n: Node, s: Snapshot): seq<Write> {
    [SaveSnapshot(s), Compact(s.index), SaveCommit(Max(n.commit, s.index))]
  }

  /** The apply loop sees the log and the commit index only. */
  lemma {:induction false} ReplayedSame(n: Node, m: Node, applied: nat, machine: Machine)
    requires n.log == m.log && n.base == m.base && n.commit == m.commit
    ensures Replayed(n, applied, machine) == Replayed(m, applied, machine)
    decreases n.commit - applied
  {
    if applied < n.commit {
      assert EntryAt(n, applied + 1) == EntryAt(m, applied + 1);
      var next := match EntryAt(n, applied + 1) case None => machine case Some(e) => machine + HandedOne(e);
      ReplayedSame(n, m, applied + 1, next);
    }
  }

  /** One turn of the apply loop leaves it the same place to get to. */
  lemma ReplayStep(n: Node, m: Node)
    requires n.applied < n.commit
    requires m == n.(applied := n.applied + 1,
                     machine := match EntryAt(n, n.applied + 1)
                                case None => n.machine
                                case Some(e) => n.machine + HandedOne(e))
    ensures ApplyLoop(m) == ApplyLoop(n)
  {
    ReplayedSame(n, m, m.applied, m.machine);
  }

  lemma PerformNone(d: Disk)
    ensures PerformAll(d, []) == d
  {
  }

  lemma PerformThree(d: Disk, u: Write, v: Write, w: Write)
    ensures PerformAll(d, [u, v, w]) == Perform(Perform(Perform(d, u), v), w)
  {
    assert [u, v, w][1..] == [v, w];
    PerformTwo(Perform(d, u), v, w);
  }

  lemma LastOfSame(n: Node, m: Node)
    requires n.log == m.log && n.base == m.base
    ensures LastIndex(n) == LastIndex(m)
  {
  }

  lemma MergeUnfolds(n: Node, entries: Log)
    ensures Merge(n, entries) ==
            if entries == [] then (n, [])
            else (Merge(MergeOne(n, entries[0]).0, entries[1..]).0,
                  MergeOne(n, entries[0]).1 + Merge(MergeOne(n, entries[0]).0, entries[1..]).1)
  {
  }
}
