/** The shard's state machine as it runs, over MVCC storage. */
module StateMachine {
  import opened Common
  import opened ByteOrder
  import opened Rows
  import opened Shards
  import opened MvccCodec
  import opened MvccRows
  import opened MvccScans
  import opened MvccStorage
  import opened Engine

  /** The engine's contents are the rows of `s`. */
  ghost predicate Holds(data: Data, s: Shard) {
    forall k :: ValidKey(k) ==> RowIn(data, k) == RowOf(s, k)
  }

  ghost predicate OneLock(s: Shard) {
    forall k :: |RowOf(s, k).locks| <= 1
  }

  datatype ScanResult = Refused(key: Bytes) | Answered(rows: seq<(Bytes, Bytes, nat)>)

  /** A range read agrees with point reads: it is refused exactly when some key of the range would
      be, by naming one; and otherwise lists, in key order, exactly what they find. */
  ghost predicate AgreesWithGet(r: ScanResult, s: Shard, lo: Bytes, hi: Bytes, t: Option<int>) {
    match r
    case Refused(key) => ValidKey(key) && InRange(lo, key, hi) && Get(s, key, t) == Blocked
    case Answered(rows) =>
      && (forall i, j :: 0 <= i < j < |rows| ==> Less(rows[i].0, rows[j].0))
      && (forall i :: 0 <= i < |rows| ==>
            && ValidKey(rows[i].0) && InRange(lo, rows[i].0, hi)
            && Get(s, rows[i].0, t) == Found(Some(rows[i].1), rows[i].2))
      && (forall k :: ValidKey(k) && InRange(lo, k, hi) ==>
            && Get(s, k, t) != Blocked
            && (Get(s, k, t).value.Some? ==> Reported(rows, k)))
  }

  /** `m` has at `k` what `a` found there. */
  ghost predicate RowFound(m: map<Bytes, (Bytes, nat)>, k: Bytes, a: Answer) {
    if k in m then a == Found(Some(m[k].0), m[k].1) else a == Found(None, 0)
  }

  /** What a read gives once no older lock is in the way. */
  function Unblocked(row: Row, t: Option<int>, last: nat): Answer {
    match VisibleAt(row, if t.Some? then t.value else last)
    case None => Found(None, 0)
    case Some(v) => Found(Some(v.0), v.1)
  }

  /** A lock that refuses a range read. */
  predicate Blocks(lockTs: nat, t: Option<int>) { t == None || lockTs < t.value }

  lemma LockDecides(row: Row, ts: nat, t: Option<int>, last: nat)
    requires |row.locks| <= 1 && ts in row.locks
    ensures Newest(row.locks) == Some(ts)
    ensures Blocks(ts, t) ==> Read(row, t, last) == Blocked
    ensures t == Some(ts) ==> Read(row, t, last) == Found(Some(row.locks[ts].value), 0)
    ensures !Blocks(ts, t) && t != Some(ts) ==> Read(row, t, last) == Unblocked(row, t, last)
  {
    var n := Newest(row.locks).value;
    if n != ts {
      assert {n, ts} <= row.locks.Keys;
      SubsetSize({n, ts}, row.locks.Keys);
      assert false;
    }
  }

  lemma NoLockNoBlock(row: Row, t: Option<int>, last: nat)
    requires row.locks == map[]
    ensures Read(row, t, last) == Unblocked(row, t, last)
  {
  }

  type Locks = seq<(Bytes, nat, Lock)>

  ghost predicate Passed(locks: Locks, i: nat, k: Bytes)
    requires i <= |locks|
  {
    exists j :: 0 <= j < i && locks[j].0 == k
  }

  /** After `i` locks, none of them in the way: `m` has what a read finds at every key whose lock
      has been passed, and what it would find without a lock at every other. */
  ghost predicate Merging(m: map<Bytes, (Bytes, nat)>, locks: Locks, i: nat, s: Shard, lo: Bytes, hi: Bytes,
                          t: Option<int>)
    requires i <= |locks|
  {
    && (forall k :: k in m ==> ValidKey(k) && InRange(lo, k, hi))
    && (forall k :: ValidKey(k) && InRange(lo, k, hi) ==>
          RowFound(m, k, if Passed(locks, i, k) then Get(s, k, t) else Unblocked(RowOf(s, k), t, s.last)))
  }

  lemma MergeStart(m: map<Bytes, (Bytes, nat)>, out: seq<(Bytes, Bytes, nat)>, data: Data, locks: Locks, s: Shard,
                   lo: Bytes, hi: Bytes, t: Option<int>)
    requires Holds(data, s) && RangeRead(out, data, lo, hi, if t.Some? then t.value else s.last)
    requires forall i :: 0 <= i < |out| ==> out[i].0 in m && m[out[i].0] == (out[i].1, out[i].2)
    requires forall k :: k in m ==> Reported(out, k)
    ensures Merging(m, locks, 0, s, lo, hi, t)
  {
    hide VisibleAt, RowIn, Less;
    forall k | k in m ensures ValidKey(k) && InRange(lo, k, hi) {
      assert Reported(out, k);
    }
    forall k | ValidKey(k) && InRange(lo, k, hi) ensures RowFound(m, k, Unblocked(RowOf(s, k), t, s.last)) {
      assert RowIn(data, k) == RowOf(s, k);
      if k in m {
        assert Reported(out, k);
      }
    }
  }

  ghost predicate LocksOf(locks: Locks, s: Shard) {
    && (forall i :: 0 <= i < |locks| ==>
          && ValidKey(locks[i].0) && locks[i].1 in RowOf(s, locks[i].0).locks
          && RowOf(s, locks[i].0).locks[locks[i].1] == locks[i].2)
    && (forall key :: ValidKey(key) && RowOf(s, key).locks != map[] ==> Passed(locks, |locks|, key))
  }

  lemma LocksOfShard(locks: Locks, data: Data, s: Shard)
    requires ListsLocks(locks, data) && Holds(data, s)
    ensures LocksOf(locks, s)
  {
    hide RowIn;
    forall key | ValidKey(key) && RowOf(s, key).locks != map[] ensures Passed(locks, |locks|, key) {
      assert RowIn(data, key) == RowOf(s, key);
      var t: nat :| t in RowOf(s, key).locks;
      assert LockListed(locks, key, t);
    }
  }

  lemma MergeStep(m: map<Bytes, (Bytes, nat)>, locks: Locks, i: nat, s: Shard, lo: Bytes, hi: Bytes, t: Option<int>)
    requires i < |locks| && Merging(m, locks, i, s, lo, hi, t) && OneLock(s) && LocksOf(locks, s)
    requires InRange(lo, locks[i].0, hi) ==> !Blocks(locks[i].1, t)
    ensures var (key, ts, lock) := locks[i];
            var m' := if InRange(lo, key, hi) && t == Some(ts) then m[key := (lock.value, 0)] else m;
            Merging(m', locks, i + 1, s, lo, hi, t)
  {
    hide Read, InRange, VisibleAt, ValidKey;
    var (key, ts, lock) := locks[i];
    LockDecides(RowOf(s, key), ts, t, s.last);
    var m' := if InRange(lo, key, hi) && t == Some(ts) then m[key := (lock.value, 0)] else m;
    forall k | ValidKey(k) && InRange(lo, k, hi)
      ensures RowFound(m', k, if Passed(locks, i + 1, k) then Get(s, k, t) else Unblocked(RowOf(s, k), t, s.last))
    {
      assert Passed(locks, i + 1, k) <==> Passed(locks, i, k) || k == key;
    }
  }

  lemma MergeRefuses(locks: Locks, i: nat, s: Shard, t: Option<int>)
    requires i < |locks| && OneLock(s) && LocksOf(locks, s) && Blocks(locks[i].1, t)
    ensures Get(s, locks[i].0, t) == Blocked
  {
    LockDecides(RowOf(s, locks[i].0), locks[i].1, t, s.last);
  }

  lemma MergeEnd(m: map<Bytes, (Bytes, nat)>, locks: Locks, s: Shard, lo: Bytes, hi: Bytes, t: Option<int>,
                 items: seq<(Bytes, (Bytes, nat))>, rows: seq<(Bytes, Bytes, nat)>)
    requires Merging(m, locks, |locks|, s, lo, hi, t) && LocksOf(locks, s)
    requires Increasing(items) && |rows| == |items|
    requires forall i :: 0 <= i < |items| ==> items[i].0 in m && items[i].1 == m[items[i].0]
    requires forall k :: k in m ==> Lists(items, k)
    requires forall i :: 0 <= i < |items| ==> rows[i] == (items[i].0, items[i].1.0, items[i].1.1)
    ensures AgreesWithGet(Answered(rows), s, lo, hi, t)
  {
    hide Read, InRange, VisibleAt, ValidKey, Less;
    forall k | ValidKey(k) && InRange(lo, k, hi)
      ensures RowFound(m, k, Get(s, k, t)) && (k in m ==> Reported(rows, k))
    {
      if RowOf(s, k).locks == map[] {
        NoLockNoBlock(RowOf(s, k), t, s.last);
      }
      if k in m {
        assert Lists(items, k);
        var i :| 0 <= i < |items| && items[i].0 == k;
        assert rows[i].0 == k;
      }
    }
  }

  /** A dictionary's items in key order. */
  method SortedItems<V>(m: map<Bytes, V>) returns (items: seq<(Bytes, V)>)
    ensures Increasing(items)
    ensures forall i :: 0 <= i < |items| ==> items[i].0 in m && items[i].1 == m[items[i].0]
    ensures forall k :: k in m ==> Lists(items, k)
  {
    hide Less;
    items := [];
    var rest := m.Keys;
    while rest != {}
      invariant rest <= m.Keys && Increasing(items)
      invariant forall i :: 0 <= i < |items| ==> items[i].0 in m && items[i].0 !in rest && items[i].1 == m[items[i].0]
      invariant forall k :: k in m && k !in rest ==> Lists(items, k)
      decreases |rest|
    {
      var k :| k in rest;
      InsertKeepsOrder(items, k, m[k]);
      forall l | l in m && (l !in rest || l == k) ensures Lists(Inserted(items, k, m[k]), l) {
        InsertLists(items, k, m[k], l);
      }
      items := Inserted(items, k, m[k]);
      rest := rest - {k};
    }
  }

  /** One row of the shard moved, as the storage says. */
  lemma RowMoved(before: Data, after: Data, s: Shard, key: Bytes, row: Row, last: nat)
    requires Holds(before, s) && ValidKey(key) && OthersSame(before, after, key) && RowIn(after, key) == row
    ensures Holds(after, Shard(s.rows[key := row], last))
  {
    hide RowIn;
  }

  lemma OneLockKept(s: Shard, c: Command, now: int)
    requires OneLock(s)
    ensures OneLock(Shards.Apply(s, c, now).0)
  {
    hide ApplyRow;
    if Keyed(c) {
      RowInvKept(RowOf(s, c.key), s.last, c, now, []);
      var s' := Shards.Apply(s, c, now).0;
      forall k ensures |RowOf(s', k).locks| <= 1 {
        assert |RowOf(s, k).locks| <= 1;
      }
    }
  }

  class MVCCStateMachine {
    const storage: MVCCStorage
    var lastAppliedTimestamp: nat
    ghost var shard: Shard

    constructor (storage: MVCCStorage)
      requires storage.Valid() && storage.engine.data == map[]
      ensures this.storage == storage && Valid() && shard == EMPTY_SHARD
    {
      this.storage := storage;
      lastAppliedTimestamp := 0;
      shard := EMPTY_SHARD;
      new;
      EmptyHolds();
    }

    ghost predicate Valid()
      reads this, storage.engine
    {
      && storage.Valid() && OneLock(shard)
      && Holds(storage.engine.data, shard) && lastAppliedTimestamp == shard.last
    }

    /** One command: the shard after it, and the code the proposer is given. */
    method Apply(c: Command, now: int) returns (code: nat)
      requires Valid()
      modifies this, storage.engine
      ensures Valid() && (shard, code) == Shards.Apply(old(shard), c, now)
    {
      hide RowIn, OneLock, Holds;
      OneLockKept(shard, c, now);
      ghost var s, d := shard, storage.engine.data;
      ghost var e := if Keyed(c) then ApplyRow(RowOf(s, c.key), s.last, c, now) else Effect(0, EMPTY_ROW, 0);
      if c.UnknownKind? {
        return UNKNOWN_COMMAND;
      } else if c.Unreadable? {
        return APPLY_ERROR;
      } else if !ValidKey(c.key) {
        SameHolds(d, s, c.key);
        shard := Shards.Apply(s, c, now).0;
        return APPLY_ERROR;
      }
      RowHeld(d, s, c.key);
      match c {
      case Set(key, value, timestamp, writtenBy) =>
        code := ApplySet(key, value, if timestamp.Some? then timestamp.value else lastAppliedTimestamp + 1, writtenBy);
      case Delete(key, timestamp) =>
        code := ApplyDelete(key, if timestamp.Some? then timestamp.value else lastAppliedTimestamp + 1);
      case Prewrite(key, value, startTs, primary) => code := ApplyPrewrite(key, value, startTs, primary, now);
      case Commit(key, startTs, commitTs) => code := ApplyCommit(key, startTs, commitTs);
      case Rollback(key, startTs) => code := ApplyRollback(key, startTs);
      case CleanLock(key, lockTs) => code := ApplyCleanLock(key, lockTs);
      }
      RowMoved(d, storage.engine.data, s, c.key, e.row, e.last);
      shard := Shards.Apply(s, c, now).0;
    }

    method ApplySet(key: Bytes, value: Bytes, timestamp: int, writtenBy: Option<int>) returns (code: nat)
      requires storage.Valid() && ValidKey(key)
      modifies this`lastAppliedTimestamp, storage.engine
      ensures storage.Valid() && OthersSame(old(storage.engine.data), storage.engine.data, key)
      ensures Effect(code, RowIn(storage.engine.data, key), lastAppliedTimestamp) ==
              Rows.ApplySet(old(RowIn(storage.engine.data, key)), old(lastAppliedTimestamp), value, timestamp,
                            writtenBy)
    {
      hide RowIn;
      if !ValidTs(timestamp) {
        return APPLY_ERROR;
      }
      storage.Set(key, value, timestamp);
      if writtenBy.Some? {
        if !ValidTs(writtenBy.value) {
          return APPLY_ERROR;
        }
        storage.WriteWriteRecord(key, writtenBy.value, timestamp);
      }
      if timestamp > lastAppliedTimestamp {
        lastAppliedTimestamp := timestamp;
      }
      code := SUCCESS;
    }

    method ApplyDelete(key: Bytes, timestamp: int) returns (code: nat)
      requires storage.Valid() && ValidKey(key)
      modifies this`lastAppliedTimestamp, storage.engine
      ensures storage.Valid() && OthersSame(old(storage.engine.data), storage.engine.data, key)
      ensures var row := old(RowIn(storage.engine.data, key));
              Effect(code, RowIn(storage.engine.data, key), lastAppliedTimestamp) ==
              if ValidTs(timestamp)
              then Effect(SUCCESS, SetVersion(row, timestamp, Tombstone), Max(old(lastAppliedTimestamp), timestamp))
              else Effect(APPLY_ERROR, row, old(lastAppliedTimestamp))
    {
      hide RowIn;
      if !ValidTs(timestamp) {
        return APPLY_ERROR;
      }
      storage.Delete(key, timestamp);
      if timestamp > lastAppliedTimestamp {
        lastAppliedTimestamp := timestamp;
      }
      code := SUCCESS;
    }

    method ApplyPrewrite(key: Bytes, value: Bytes, startTs: int, primary: Bytes, now: int) returns (code: nat)
      requires storage.Valid() && ValidKey(key)
      modifies storage.engine
      ensures storage.Valid() && OthersSame(old(storage.engine.data), storage.engine.data, key)
      ensures Effect(code, RowIn(storage.engine.data, key), lastAppliedTimestamp) ==
              Rows.ApplyPrewrite(old(RowIn(storage.engine.data, key)), lastAppliedTimestamp, value, startTs, primary,
                                 now)
    {
      hide RowIn;
      var lock := storage.GetNewestLock(key);
      if lock.Some? {
        return LOCKED;
      }
      var write := storage.GetLatestWrite(key);
      if write.Some? && write.value.0 > startTs {
        return WRITE_CONFLICT;
      }
      var version := storage.GetLatestVersion(key);
      if version.Some? && version.value > startTs {
        return WRITE_CONFLICT;
      }
      if !ValidTs(startTs) {
        return APPLY_ERROR;
      }
      storage.PutLock(key, startTs, Lock(primary, now, value));
      code := SUCCESS;
    }

    method ApplyCommit(key: Bytes, startTs: int, commitTs: int) returns (code: nat)
      requires storage.Valid() && ValidKey(key)
      modifies this`lastAppliedTimestamp, storage.engine
      ensures storage.Valid() && OthersSame(old(storage.engine.data), storage.engine.data, key)
      ensures Effect(code, RowIn(storage.engine.data, key), lastAppliedTimestamp) ==
              Rows.ApplyCommit(old(RowIn(storage.engine.data, key)), old(lastAppliedTimestamp), startTs, commitTs)
    {
      hide RowIn;
      if !ValidTs(startTs) {
        return APPLY_ERROR;
      }
      var lock := storage.GetLock(key, startTs);
      if lock.None? {
        var newest := storage.GetNewestLock(key);
        return if newest.None? then NO_LOCK else TIMESTAMP_MISMATCH;
      }
      if !ValidTs(commitTs) {
        return APPLY_ERROR;
      }
      storage.Set(key, lock.value.value, commitTs);
      storage.WriteWriteRecord(key, startTs, commitTs);
      storage.RemoveLock(key, startTs);
      if commitTs > lastAppliedTimestamp {
        lastAppliedTimestamp := commitTs;
      }
      code := SUCCESS;
    }

    method ApplyRollback(key: Bytes, startTs: int) returns (code: nat)
      requires storage.Valid() && ValidKey(key)
      modifies storage.engine
      ensures storage.Valid() && OthersSame(old(storage.engine.data), storage.engine.data, key)
      ensures Effect(code, RowIn(storage.engine.data, key), lastAppliedTimestamp) ==
              Rows.ApplyRollback(old(RowIn(storage.engine.data, key)), lastAppliedTimestamp, startTs)
    {
      hide RowIn;
      if !ValidTs(startTs) {
        return APPLY_ERROR;
      }
      var lock := storage.GetLock(key, startTs);
      if lock.None? {
        var newest := storage.GetNewestLock(key);
        return if newest.None? then SUCCESS else TIMESTAMP_MISMATCH;
      }
      storage.RemoveLock(key, startTs);
      code := SUCCESS;
    }

    method ApplyCleanLock(key: Bytes, lockTs: Option<int>) returns (code: nat)
      requires storage.Valid() && ValidKey(key)
      modifies storage.engine
      ensures storage.Valid() && OthersSame(old(storage.engine.data), storage.engine.data, key)
      ensures Effect(code, RowIn(storage.engine.data, key), lastAppliedTimestamp) ==
              Rows.ApplyCleanLock(old(RowIn(storage.engine.data, key)), lastAppliedTimestamp, lockTs)
    {
      hide RowIn;
      var lock := storage.GetNewestLock(key);
      if lock.Some? && (lockTs.None? || lockTs.value == lock.value.0) {
        LockTsValid(storage.engine.data, key, lock.value.0);
        storage.RemoveLock(key, lock.value.0);
      }
      code := SUCCESS;
    }

    method Get(key: Bytes, timestamp: Option<int>) returns (a: Answer)
      requires Valid() && ValidKey(key) && (timestamp.Some? ==> timestamp.value >= -1)
      ensures a == Shards.Get(shard, key, timestamp)
    {
      hide RowIn, OneLock, Holds, VisibleAt;
      RowHeld(storage.engine.data, shard, key);
      var lock := storage.GetNewestLock(key);
      if lock.Some? {
        if timestamp == Some(lock.value.0) {
          return Found(Some(lock.value.1.value), 0);
        }
        if timestamp.None? || lock.value.0 < timestamp.value {
          return Blocked;
        }
      }
      var version := storage.GetVersion(key, if timestamp.Some? then timestamp.value else lastAppliedTimestamp);
      a := if version.None? then Found(None, 0) else Found(Some(version.value.0), version.value.1);
    }

    /** The versions of the range, then each lock of the range: an older one refuses the read, one
        of the reader's own timestamp answers for its key, and a newer one is passed over. */
    method ScanVersions(lo: Bytes, hi: Bytes, timestamp: Option<int>) returns (r: ScanResult)
      requires Valid() && ValidKey(lo) && ValidKey(hi)
      ensures AgreesWithGet(r, shard, lo, hi, timestamp)
    {
      hide RowIn, Holds, OneLock, Merging, LocksOf, AgreesWithGet, RangeRead, ListsLocks;
      var out := storage.ScanVersions(lo, hi, if timestamp.Some? then timestamp.value else lastAppliedTimestamp);
      var rows := RowDictionary(out);
      var locks := storage.IterLocks();
      LocksOfShard(locks, storage.engine.data, shard);
      IncreasingKeys(out, storage.engine.data, lo, hi,
                     if timestamp.Some? then timestamp.value else lastAppliedTimestamp);
      MergeStart(rows, out, storage.engine.data, locks, shard, lo, hi, timestamp);
      var i := 0;
      while i < |locks|
        invariant 0 <= i <= |locks|
        invariant Merging(rows, locks, i, shard, lo, hi, timestamp)
      {
        var (key, ts, lock) := locks[i];
        if InRange(lo, key, hi) {
          if Blocks(ts, timestamp) {
            MergeRefuses(locks, i, shard, timestamp);
            RefusalAgrees(locks, i, shard, lo, hi, timestamp);
            return Refused(key);
          }
        }
        MergeStep(rows, locks, i, shard, lo, hi, timestamp);
        if InRange(lo, key, hi) && timestamp == Some(ts) {
          rows := rows[key := (lock.value, 0)];
        }
        i := i + 1;
      }
      var items := SortedItems(rows);
      var answer := seq(|items|, j requires 0 <= j < |items| => (items[j].0, items[j].1.0, items[j].1.1));
      MergeEnd(rows, locks, shard, lo, hi, timestamp, items, answer);
      r := Answered(answer);
    }

    method Snapshot() returns (ts: nat, rows: seq<(Bytes, Raw)>)
      requires Valid()
      ensures ts == shard.last
      ensures DataSound(Overlaid(map[], rows)) && Holds(Overlaid(map[], rows), shard)
    {
      ts := lastAppliedTimestamp;
      rows := storage.Dump();
    }

    /** Whatever the machine held, it is now the machine the snapshot was taken of. */
    method Restore(ts: nat, rows: seq<(Bytes, Raw)>, ghost taken: Shard)
      requires Valid() && DataSound(Overlaid(map[], rows)) && Holds(Overlaid(map[], rows), taken)
      requires taken.last == ts && OneLock(taken)
      modifies this, storage.engine
      ensures Valid() && shard == taken
    {
      storage.Load(rows);
      lastAppliedTimestamp := ts;
      shard := taken;
    }
  }

  lemma EmptyHolds()
    ensures Holds(map[], EMPTY_SHARD) && OneLock(EMPTY_SHARD)
  {
    forall k | ValidKey(k) ensures RowIn(map[], k) == EMPTY_ROW {
      assert Chain(map[], VERSION, k) == map[] && Chain(map[], WRITE, k) == map[] && Chain(map[], LOCK, k) == map[];
    }
  }

  lemma SameHolds(data: Data, s: Shard, key: Bytes)
    requires Holds(data, s)
    ensures Holds(data, Shard(s.rows[key := RowOf(s, key)], s.last))
  {
  }

  lemma RowHeld(data: Data, s: Shard, key: Bytes)
    requires Holds(data, s) && ValidKey(key)
    ensures RowIn(data, key) == RowOf(s, key)
  {
  }

  lemma LockTsValid(data: Data, key: Bytes, t: nat)
    requires ValidKey(key) && t in RowIn(data, key).locks
    ensures ValidTs(t)
  {
    ChainAt(data, LOCK, key, t);
  }

  lemma RefusalAgrees(locks: Locks, i: nat, s: Shard, lo: Bytes, hi: Bytes, t: Option<int>)
    requires i < |locks| && LocksOf(locks, s) && InRange(lo, locks[i].0, hi) && Shards.Get(s, locks[i].0, t) == Blocked
    ensures AgreesWithGet(Refused(locks[i].0), s, lo, hi, t)
  {
  }

  lemma IncreasingKeys(out: seq<(Bytes, Bytes, nat)>, data: Data, lo: Bytes, hi: Bytes, t: int)
    requires RangeRead(out, data, lo, hi, t)
    ensures forall i, j :: 0 <= i < j < |out| ==> out[i].0 != out[j].0
  {
    forall i, j | 0 <= i < j < |out| ensures out[i].0 != out[j].0 {
      LessDiffer(out[i].0, out[j].0);
    }
  }

  /** The rows by key. */
  method RowDictionary(out: seq<(Bytes, Bytes, nat)>) returns (m: map<Bytes, (Bytes, nat)>)
    ensures (forall i, j :: 0 <= i < j < |out| ==> out[i].0 != out[j].0) ==>
              forall i :: 0 <= i < |out| ==> out[i].0 in m && m[out[i].0] == (out[i].1, out[i].2)
    ensures forall k :: k in m ==> Reported(out, k)
  {
    m := map[];
    var n := 0;
    while n < |out|
      invariant 0 <= n <= |out|
      invariant (forall i, j :: 0 <= i < j < |out| ==> out[i].0 != out[j].0) ==>
                  forall i :: 0 <= i < n ==> out[i].0 in m && m[out[i].0] == (out[i].1, out[i].2)
      invariant forall k :: k in m ==> Reported(out, k)
    {
      m := m[out[n].0 := (out[n].1, out[n].2)];
      n := n + 1;
    }
  }
}
