/** A shard's state machine on values: what every log of commands makes of its rows. */
module Shards {
  import opened Common
  import opened ByteOrder
  import opened Rows

  datatype Shard = Shard(rows: map<Bytes, Row>, last: nat)

  const EMPTY_SHARD := Shard(map[], 0)

  function RowOf(s: Shard, key: Bytes): Row {
    if key in s.rows then s.rows[key] else EMPTY_ROW
  }

  /** One command, at the replica's own moment `now`: the shard after it, and its code. */
  function Apply(s: Shard, c: Command, now: int): (Shard, nat) {
    match c
    case UnknownKind => (s, UNKNOWN_COMMAND)
    case Unreadable => (s, APPLY_ERROR)
    case _ =>
      var e := ApplyRow(RowOf(s, c.key), s.last, c, now);
      (Shard(s.rows[c.key := e.row], e.last), e.code)
  }

  /** A log of commands, the `i`-th at the moment `clock[i]`. */
  function Replay(s: Shard, log: seq<Command>, clock: seq<int>): Shard
    requires |clock| == |log|
  {
    if log == [] then s
    else Apply(Replay(s, log[..|log| - 1], clock[..|log| - 1]), log[|log| - 1], clock[|log| - 1]).0
  }

  function Get(s: Shard, key: Bytes, timestamp: Option<int>): Answer {
    Read(RowOf(s, key), timestamp, s.last)
  }

  // ---- replicas -------------------------------------------------------------------

  /** The same row but for the moments its locks were taken at. */
  ghost predicate SameRow(a: Row, b: Row) {
    && a.versions == b.versions && a.writes == b.writes
    && a.locks.Keys == b.locks.Keys
    && forall t :: t in a.locks ==> a.locks[t].primary == b.locks[t].primary && a.locks[t].value == b.locks[t].value
  }

  ghost predicate SameShard(a: Shard, b: Shard) {
    a.last == b.last && forall k :: SameRow(RowOf(a, k), RowOf(b, k))
  }

  lemma SameNewest(a: Row, b: Row)
    requires SameRow(a, b)
    ensures Newest(a.locks) == Newest(b.locks) && (a.locks == map[] <==> b.locks == map[])
  {
    if a.locks.Keys == {} {
      assert a.locks == map[] && b.locks == map[];
    }
  }

  lemma ApplyRowSame(a: Row, b: Row, last: nat, c: Command, now: int, now': int)
    requires Keyed(c) && SameRow(a, b)
    ensures var e, e' := ApplyRow(a, last, c, now), ApplyRow(b, last, c, now');
            e.code == e'.code && e.last == e'.last && SameRow(e.row, e'.row)
  {
    hide SameRow, ApplySet, ApplyPrewrite, ApplyCommit, ApplyRollback, ApplyCleanLock;
    match c
    case Set(_, value, timestamp, writtenBy) =>
      SetSame(a, b, last, value, if timestamp.Some? then timestamp.value else last + 1, writtenBy);
    case Delete(_, timestamp) => DeleteSame(a, b, if timestamp.Some? then timestamp.value else last + 1);
    case Prewrite(_, value, startTs, primary) => PrewriteSame(a, b, last, value, startTs, primary, now, now');
    case Commit(_, startTs, commitTs) => CommitSame(a, b, last, startTs, commitTs);
    case Rollback(_, startTs) => UnlockSame(a, b, last, startTs, None);
    case CleanLock(_, lockTs) => UnlockSame(a, b, last, 0, lockTs);
  }

  ghost predicate SameEffect(e: Effect, e': Effect) {
    e.code == e'.code && e.last == e'.last && SameRow(e.row, e'.row)
  }

  lemma SetSame(a: Row, b: Row, last: nat, value: Bytes, t: int, writtenBy: Option<int>)
    requires SameRow(a, b)
    ensures SameEffect(ApplySet(a, last, value, t, writtenBy), ApplySet(b, last, value, t, writtenBy))
  {
  }

  lemma DeleteSame(a: Row, b: Row, t: int)
    requires SameRow(a, b)
    ensures ValidTs(t) ==> SameRow(SetVersion(a, t, Tombstone), SetVersion(b, t, Tombstone))
  {
  }

  lemma PrewriteSame(a: Row, b: Row, last: nat, value: Bytes, startTs: int, primary: Bytes, now: int, now': int)
    requires SameRow(a, b)
    ensures SameEffect(ApplyPrewrite(a, last, value, startTs, primary, now),
                       ApplyPrewrite(b, last, value, startTs, primary, now'))
  {
    SameNewest(a, b);
  }

  lemma UnlockSame(a: Row, b: Row, last: nat, startTs: int, lockTs: Option<int>)
    requires SameRow(a, b)
    ensures SameEffect(ApplyRollback(a, last, startTs), ApplyRollback(b, last, startTs))
    ensures SameEffect(ApplyCleanLock(a, last, lockTs), ApplyCleanLock(b, last, lockTs))
  {
    SameNewest(a, b);
  }

  lemma CommitSame(a: Row, b: Row, last: nat, startTs: int, commitTs: int)
    requires SameRow(a, b)
    ensures var e, e' := ApplyCommit(a, last, startTs, commitTs), ApplyCommit(b, last, startTs, commitTs);
            e.code == e'.code && e.last == e'.last && SameRow(e.row, e'.row)
  {
    SameNewest(a, b);
  }

  /** Replicas that agree go on agreeing, and answer each command alike. */
  lemma ApplySame(a: Shard, b: Shard, c: Command, now: int, now': int)
    requires SameShard(a, b)
    ensures Apply(a, c, now).1 == Apply(b, c, now').1
    ensures SameShard(Apply(a, c, now).0, Apply(b, c, now').0)
  {
    hide ApplyRow, SameRow;
    if Keyed(c) {
      ApplyRowSame(RowOf(a, c.key), RowOf(b, c.key), a.last, c, now, now');
      var a', b' := Apply(a, c, now).0, Apply(b, c, now').0;
      forall k ensures SameRow(RowOf(a', k), RowOf(b', k)) {
        assert SameRow(RowOf(a, k), RowOf(b, k));
      }
    }
  }

  lemma {:induction false} ReplaySame(a: Shard, b: Shard, log: seq<Command>, clock: seq<int>, clock': seq<int>)
    requires SameShard(a, b) && |clock| == |log| == |clock'|
    ensures SameShard(Replay(a, log, clock), Replay(b, log, clock'))
  {
    hide SameShard, Apply;
    if log != [] {
      var n := |log| - 1;
      ReplaySame(a, b, log[..n], clock[..n], clock'[..n]);
      ApplySame(Replay(a, log[..n], clock[..n]), Replay(b, log[..n], clock'[..n]), log[n], clock[n], clock'[n]);
    }
  }

  lemma {:induction false} ReplaySplit(s: Shard, log: seq<Command>, clock: seq<int>, k: nat)
    requires |clock| == |log| && k <= |log|
    ensures Replay(s, log, clock) == Replay(Replay(s, log[..k], clock[..k]), log[k..], clock[k..])
  {
    hide Apply;
    if k == |log| {
      assert log[..k] == log && clock[..k] == clock;
    } else {
      var n := |log| - 1;
      ReplaySplit(s, log[..n], clock[..n], k);
      assert log[..n][..k] == log[..k] && clock[..n][..k] == clock[..k];
      assert log[k..][..n - k] == log[..n][k..] && clock[k..][..n - k] == clock[..n][k..];
    }
  }

  /** Replica determinism: one replica applies the whole log; the other is handed the first one's
      state after `k` commands, whatever it held before, and applies the rest by its own clock.
      From then on each command gets the same answer on both and each read the same value. */
  lemma Replicas(start: Shard, log: seq<Command>, clock: seq<int>, clock': seq<int>, k: nat, n: nat)
    requires |clock| == |log| == |clock'| && k <= n < |log|
    ensures var snapshot := Replay(start, log[..k], clock[..k]);
            var a, b := Replay(start, log[..n], clock[..n]), Replay(snapshot, log[k..n], clock'[k..n]);
            && Apply(a, log[n], clock[n]).1 == Apply(b, log[n], clock'[n]).1
            && forall key, t :: Get(a, key, t) == Get(b, key, t)
  {
    hide Apply, Read;
    var snapshot := Replay(start, log[..k], clock[..k]);
    ReplaySplit(start, log[..n], clock[..n], k);
    assert log[..n][..k] == log[..k] && clock[..n][..k] == clock[..k];
    assert log[..n][k..] == log[k..n] && clock[..n][k..] == clock[k..n];
    SameSelf(snapshot);
    ReplaySame(snapshot, snapshot, log[k..n], clock[k..n], clock'[k..n]);
    var a, b := Replay(start, log[..n], clock[..n]), Replay(snapshot, log[k..n], clock'[k..n]);
    ApplySame(a, b, log[n], clock[n], clock'[n]);
    forall key, t ensures Get(a, key, t) == Get(b, key, t) {
      ReadSame(RowOf(a, key), RowOf(b, key), t, a.last);
    }
  }

  lemma SameSelf(s: Shard)
    ensures SameShard(s, s)
  {
  }

  lemma ReadSame(a: Row, b: Row, t: Option<int>, last: nat)
    requires SameRow(a, b)
    ensures Read(a, t, last) == Read(b, t, last)
  {
    SameNewest(a, b);
  }

  // ---- first committer wins -------------------------------------------------------

  /** The successful commits of one key, in the order the log has them. */
  function Commits(s: Shard, log: seq<Command>, clock: seq<int>, key: Bytes): seq<(nat, nat)>
    requires |clock| == |log|
  {
    if log == [] then []
    else
      var n := |log| - 1;
      var c := log[n];
      Commits(s, log[..n], clock[..n], key) +
      (if c.Commit? && c.key == key && ValidTs(c.startTs) && ValidTs(c.commitTs)
          && Apply(Replay(s, log[..n], clock[..n]), c, clock[n]).1 == SUCCESS
       then [(c.startTs as nat, c.commitTs as nat)] else [])
  }

  /** One lock at most, and no older than any commit of the key so far. */
  ghost predicate RowInv(row: Row, commits: seq<(nat, nat)>) {
    && |row.locks| <= 1
    && (forall i :: 0 <= i < |commits| ==> commits[i].1 in row.writes)
    && (forall t, i :: t in row.locks && 0 <= i < |commits| ==> commits[i].1 <= t)
    && Ordered(commits)
  }

  /** A transaction that commits a key after another did started no earlier than the other's
      commit timestamp. */
  ghost predicate Ordered(commits: seq<(nat, nat)>) {
    forall i, j :: 0 <= i < j < |commits| ==> commits[i].1 <= commits[j].0
  }

  lemma OneLockLeft(locks: map<nat, Lock>, t: nat)
    requires |locks| <= 1
    ensures |locks - {t}| <= 1
    ensures t in locks ==> locks - {t} == map[]
  {
    assert (locks - {t}).Keys == locks.Keys - {t};
    if t in locks {
      var rest := locks.Keys - {t};
      assert locks.Keys == rest + {t};
      assert rest == {};
    }
  }

  lemma LockTaken(row: Row, last: nat, value: Bytes, startTs: int, primary: Bytes, now: int, commits: seq<(nat, nat)>)
    requires RowInv(row, commits)
    ensures RowInv(ApplyPrewrite(row, last, value, startTs, primary, now).row, commits)
  {
    var e := ApplyPrewrite(row, last, value, startTs, primary, now);
    if e.code == SUCCESS {
      assert e.row.locks == map[startTs as nat := Lock(primary, now, value)];
    }
  }

  lemma LockDropped(row: Row, t: nat, commits: seq<(nat, nat)>)
    requires RowInv(row, commits)
    ensures RowInv(Unlocked(row, t), commits)
  {
    OneLockLeft(row.locks, t);
  }

  lemma LockCommitted(row: Row, last: nat, startTs: int, commitTs: int, commits: seq<(nat, nat)>)
    requires RowInv(row, commits) && ApplyCommit(row, last, startTs, commitTs).code == SUCCESS
    ensures RowInv(ApplyCommit(row, last, startTs, commitTs).row, commits + [(startTs as nat, commitTs as nat)])
  {
    OneLockLeft(row.locks, startTs as nat);
  }

  lemma RowInvKept(row: Row, last: nat, c: Command, now: int, commits: seq<(nat, nat)>)
    requires Keyed(c) && RowInv(row, commits)
    ensures var e := ApplyRow(row, last, c, now);
            var more := if c.Commit? && e.code == SUCCESS then [(c.startTs as nat, c.commitTs as nat)] else [];
            RowInv(e.row, commits + more)
  {
    hide RowInv, ApplySet, ApplyPrewrite, ApplyCommit, ApplyRollback, ApplyCleanLock;
    assert commits + [] == commits;
    var e := ApplyRow(row, last, c, now);
    match c
    case Set(_, value, timestamp, writtenBy) =>
      SetKeepsInv(row, last, value, if timestamp.Some? then timestamp.value else last + 1, writtenBy, commits);
    case Delete(_, timestamp) => DeleteKeepsInv(row, if timestamp.Some? then timestamp.value else last + 1, commits);
    case Prewrite(_, value, startTs, primary) => LockTaken(row, last, value, startTs, primary, now, commits);
    case Commit(_, startTs, commitTs) =>
      if e.code == SUCCESS {
        LockCommitted(row, last, startTs, commitTs, commits);
      }
      RefusedCommit(row, last, startTs, commitTs);
    case Rollback(_, startTs) => UnlockKeepsInv(row, last, startTs, None, commits);
    case CleanLock(_, lockTs) => UnlockKeepsInv(row, last, 0, lockTs, commits);
  }

  lemma SetKeepsInv(row: Row, last: nat, value: Bytes, t: int, writtenBy: Option<int>, commits: seq<(nat, nat)>)
    requires RowInv(row, commits)
    ensures RowInv(ApplySet(row, last, value, t, writtenBy).row, commits)
  {
  }

  lemma DeleteKeepsInv(row: Row, t: int, commits: seq<(nat, nat)>)
    requires RowInv(row, commits)
    ensures ValidTs(t) ==> RowInv(SetVersion(row, t, Tombstone), commits)
  {
  }

  lemma RefusedCommit(row: Row, last: nat, startTs: int, commitTs: int)
    ensures var e := ApplyCommit(row, last, startTs, commitTs); e.code != SUCCESS ==> e.row == row
  {
  }

  lemma UnlockKeepsInv(row: Row, last: nat, startTs: int, lockTs: Option<int>, commits: seq<(nat, nat)>)
    requires RowInv(row, commits)
    ensures RowInv(ApplyRollback(row, last, startTs).row, commits)
    ensures RowInv(ApplyCleanLock(row, last, lockTs).row, commits)
  {
    if ValidTs(startTs) { LockDropped(row, startTs as nat, commits); }
    if Newest(row.locks).Some? { LockDropped(row, Newest(row.locks).value, commits); }
  }

  /** First committer wins: over every log, a key never holds two locks at once, and its commits
      follow one another. */
  lemma {:induction false} FirstCommitterWins(log: seq<Command>, clock: seq<int>, key: Bytes)
    requires |clock| == |log|
    ensures |RowOf(Replay(EMPTY_SHARD, log, clock), key).locks| <= 1
    ensures Ordered(Commits(EMPTY_SHARD, log, clock, key))
    ensures RowInv(RowOf(Replay(EMPTY_SHARD, log, clock), key), Commits(EMPTY_SHARD, log, clock, key))
  {
    hide ApplyRow;
    if log != [] {
      var n := |log| - 1;
      FirstCommitterWins(log[..n], clock[..n], key);
      var s := Replay(EMPTY_SHARD, log[..n], clock[..n]);
      var commits := Commits(EMPTY_SHARD, log[..n], clock[..n], key);
      assert commits + [] == commits;
      if Keyed(log[n]) && log[n].key == key {
        RowInvKept(RowOf(s, key), s.last, log[n], clock[n], commits);
        if log[n].Commit? { CommitTimes(RowOf(s, key), s.last, log[n], clock[n]); }
      }
    }
  }

  lemma CommitTimes(row: Row, last: nat, c: Command, now: int)
    requires c.Commit?
    ensures ApplyRow(row, last, c, now).code == SUCCESS ==> ValidTs(c.startTs) && ValidTs(c.commitTs)
  {
  }

  // ---- a frozen shard -------------------------------------------------------------

  lemma FinishesNothing(row: Row, last: nat, c: Command, now: int)
    requires Keyed(c) && !WritesNewData(c) && row.locks == map[]
    ensures ApplyRow(row, last, c, now).row == row
  {
    var e := ApplyRow(row, last, c, now);
    if c.Commit? || c.Rollback? {
      assert forall t :: t !in row.locks;
    }
  }

  /** A frozen shard is a fixed copy: with no lock on a key, no sequence of the commands that a
      frozen shard still admits changes anything about it. */
  lemma {:induction false} FrozenIsFixed(s: Shard, log: seq<Command>, clock: seq<int>, key: Bytes)
    requires |clock| == |log| && forall i :: 0 <= i < |log| ==> !WritesNewData(log[i])
    requires RowOf(s, key).locks == map[]
    ensures RowOf(Replay(s, log, clock), key) == RowOf(s, key)
  {
    hide ApplyRow;
    if log != [] {
      var n := |log| - 1;
      FrozenIsFixed(s, log[..n], clock[..n], key);
      var r := Replay(s, log[..n], clock[..n]);
      if Keyed(log[n]) && log[n].key == key {
        FinishesNothing(RowOf(r, key), r.last, log[n], clock[n]);
      }
    }
  }
}
