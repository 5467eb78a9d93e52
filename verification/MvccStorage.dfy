/** MVCC storage over an engine, as it runs: each call is one engine call or a few. */
module MvccStorage {
  import opened Common
  import opened ByteOrder
  import opened Rows
  import opened MvccCodec
  import opened MvccRows
  import opened MvccScans
  import opened Engine

  /** Every other key's row is what it was. */
  ghost predicate OthersSame(before: Data, after: Data, key: Bytes) {
    forall k :: ValidKey(k) && k != key ==> RowIn(after, k) == RowIn(before, k)
  }

  predicate LockBefore(a: (Bytes, nat, Lock), b: (Bytes, nat, Lock)) { Less(a.0, b.0) || (a.0 == b.0 && a.1 < b.1) }

  /** `locks` is every lock there is, once, by key and then by start timestamp. */
  ghost predicate ListsLocks(locks: seq<(Bytes, nat, Lock)>, data: Data) {
    && (forall i, j :: 0 <= i < j < |locks| ==> LockBefore(locks[i], locks[j]))
    && (forall i :: 0 <= i < |locks| ==>
          && ValidKey(locks[i].0) && locks[i].1 in RowIn(data, locks[i].0).locks
          && RowIn(data, locks[i].0).locks[locks[i].1] == locks[i].2)
    && (forall key, t: nat :: ValidKey(key) && t in RowIn(data, key).locks ==> LockListed(locks, key, t))
  }

  ghost predicate LockListed(locks: seq<(Bytes, nat, Lock)>, key: Bytes, t: nat) {
    exists i :: 0 <= i < |locks| && locks[i].0 == key && locks[i].1 == t
  }

  lemma VersionPut(data: Data, key: Bytes, t: int, cell: Cell)
    requires DataSound(data) && ValidKey(key) && ValidTs(t)
    ensures var after := data[Stored(VERSION, key, t) := EncodeCell(cell)];
            && DataSound(after) && OthersSame(data, after, key)
            && RowIn(after, key) == SetVersion(RowIn(data, key), t, cell)
  {
    hide RowIn, Stored;
    SplitStored(VERSION, key, t);
    PutVersion(data, key, t, cell, key);
    forall k | ValidKey(k) && k != key {
      PutVersion(data, key, t, cell, k);
    }
  }

  /** Reading a namespace's chain is reading that part of the row. */
  lemma RowOfChains(data: Data, key: Bytes)
    ensures var row := RowIn(data, key);
            var v, w, l := Chain(data, VERSION, key), Chain(data, WRITE, key), Chain(data, LOCK, key);
            && row.versions.Keys == v.Keys && row.writes.Keys == w.Keys && row.locks.Keys == l.Keys
            && (forall t :: t in w ==> row.writes[t] == DecodeStart(w[t]))
            && (forall t :: t in l ==> row.locks[t] == DecodeLock(l[t]))
            && Newest(row.versions) == Newest(v) && Newest(row.writes) == Newest(w) && Newest(row.locks) == Newest(l)
  {
    hide Chain;
    var row := RowIn(data, key);
    NewestOfImage(Chain(data, VERSION, key), row.versions);
    NewestOfImage(Chain(data, WRITE, key), row.writes);
    NewestOfImage(Chain(data, LOCK, key), row.locks);
  }

  /** `seen` is the first `i` rows. */
  ghost predicate SeenRows(rows: seq<(Bytes, Raw)>, i: nat, seen: Data)
    requires i <= |rows|
  {
    && (forall j :: 0 <= j < i ==> rows[j].0 in seen && seen[rows[j].0] == rows[j].1)
    && (forall k :: k in seen ==> Seen(rows, i, k))
  }

  /** After `i` rows, seen: `keys` are the keys whose rows are all behind, and `current` the key
      of the row last looked at. */
  ghost predicate Walking(rows: seq<(Bytes, Raw)>, i: nat, seen: Data, keys: set<Bytes>, current: Option<Bytes>)
    requires i <= |rows| && forall j :: 0 <= j < |rows| ==> Shaped(rows[j].0)
  {
    && SeenRows(rows, i, seen)
    && (i == 0 ==> current == None && keys == {})
    && (i > 0 ==> current == Some(KeyOf(rows[i - 1].0)))
    && (forall d :: d in keys ==> ValidKey(d) && Less(d, current.value) && FromRow(rows, i, d))
    && (forall k :: k in seen ==> KeyOf(k) in keys || current == Some(KeyOf(k)))
  }

  ghost predicate Seen(rows: seq<(Bytes, Raw)>, i: nat, k: Bytes)
    requires i <= |rows|
  {
    exists j :: 0 <= j < i && rows[j].0 == k
  }

  ghost predicate FromRow(rows: seq<(Bytes, Raw)>, i: nat, d: Bytes)
    requires i <= |rows| && forall j :: 0 <= j < |rows| ==> Shaped(rows[j].0)
  {
    exists j :: 0 <= j < i && KeyOf(rows[j].0) == d
  }

  ghost predicate VersionRows(rows: seq<(Bytes, Raw)>) {
    Increasing(rows) && forall j :: 0 <= j < |rows| ==> Shaped(rows[j].0) && rows[j].0[0] == VERSION
  }

  lemma RowsAreVersions(rows: seq<(Bytes, Raw)>, data: Data, lo: Bytes, hi: Bytes)
    requires DataSound(data) && ValidKey(lo) && ValidKey(hi) && Scans(data, [VERSION] + lo, [VERSION] + hi, rows)
    ensures VersionRows(rows)
  {
    hide Less;
    forall j | 0 <= j < |rows| ensures Shaped(rows[j].0) && rows[j].0[0] == VERSION {
      KeyRange(rows[j].0, VERSION, lo, hi);
    }
  }

  lemma NothingWalked(rows: seq<(Bytes, Raw)>, t: int)
    requires VersionRows(rows)
    ensures Walking(rows, 0, map[], {}, None) && Reports([], map[], t, {})
  {
  }

  function Passed(keys: set<Bytes>, current: Option<Bytes>, key: Bytes): set<Bytes> {
    if current == None || current == Some(key) then keys else keys + {current.value}
  }

  /** The keys behind a row are all before the row's own. */
  lemma KeysBehind(rows: seq<(Bytes, Raw)>, i: nat, seen: Data, keys: set<Bytes>, current: Option<Bytes>)
    requires i < |rows| && VersionRows(rows) && Walking(rows, i, seen, keys, current)
    ensures var key := KeyOf(rows[i].0);
            && (forall d :: d in Passed(keys, current, key) ==> ValidKey(d) && Less(d, key))
            && key !in Passed(keys, current, key)
            && (current.Some? ==> forall d :: d in keys ==> Less(d, current.value))
  {
    var key := KeyOf(rows[i].0);
    LessIrreflexive(key);
    if i > 0 {
      StoredOrder(rows[i - 1].0, rows[i].0);
      forall d | d in keys ensures Less(d, key) {
        if current.value != key { LessTransitive(d, current.value, key); }
      }
    }
  }

  /** None of a key's rows has been seen when its first one comes. */
  lemma FirstOfKey(rows: seq<(Bytes, Raw)>, i: nat, seen: Data, keys: set<Bytes>, current: Option<Bytes>, t: int)
    requires i < |rows| && VersionRows(rows) && Walking(rows, i, seen, keys, current)
    requires current != Some(KeyOf(rows[i].0))
    ensures VisibleAt(RowIn(seen, KeyOf(rows[i].0)), t) == None
  {
    hide RowIn, VisibleAt;
    KeysBehind(rows, i, seen, keys, current);
    UnseenKey(seen, KeyOf(rows[i].0), t);
  }

  lemma SeeRow(rows: seq<(Bytes, Raw)>, i: nat, seen: Data)
    requires i < |rows| && Increasing(rows) && SeenRows(rows, i, seen)
    ensures SeenRows(rows, i + 1, seen[rows[i].0 := rows[i].1])
    ensures forall l :: l in seen ==> Less(l, rows[i].0)
  {
    hide Less;
    var (k, raw) := rows[i];
    var seen' := seen[k := raw];
    forall l | l in seen' ensures Seen(rows, i + 1, l) {
      if l in seen && l != k {
        assert Seen(rows, i, l);
      }
    }
    forall l | l in seen ensures Less(l, k) {
      assert Seen(rows, i, l);
    }
    forall j | 0 <= j < i ensures rows[j].0 in seen' && seen'[rows[j].0] == rows[j].1 {
      LessDiffer(rows[j].0, k);
    }
  }

  lemma WalkOn(rows: seq<(Bytes, Raw)>, i: nat, seen: Data, keys: set<Bytes>, current: Option<Bytes>)
    requires i < |rows| && VersionRows(rows) && Walking(rows, i, seen, keys, current)
    ensures var (k, raw) := rows[i];
            && Walking(rows, i + 1, seen[k := raw], Passed(keys, current, KeyOf(k)), Some(KeyOf(k)))
            && forall l :: l in seen ==> Less(l, k)
  {
    hide Less, SeenRows, Increasing, ValidKey;
    KeysBehind(rows, i, seen, keys, current);
    SeeRow(rows, i, seen);
    var keys' := Passed(keys, current, KeyOf(rows[i].0));
    forall d | d in keys' ensures FromRow(rows, i + 1, d) {
      if d in keys {
        assert FromRow(rows, i, d);
      } else {
        assert KeyOf(rows[i - 1].0) == d;
      }
    }
  }

  lemma LessDiffer(a: Bytes, b: Bytes)
    requires Less(a, b)
    ensures a != b
  {
    LessIrreflexive(a);
  }

  lemma WalkedRows(rows: seq<(Bytes, Raw)>, seen: Data, keys: set<Bytes>, current: Option<Bytes>, data: Data,
                   lo: Bytes, hi: Bytes)
    requires VersionRows(rows) && ValidKey(lo) && ValidKey(hi) && Scans(data, [VERSION] + lo, [VERSION] + hi, rows)
    requires Walking(rows, |rows|, seen, keys, current)
    ensures forall k :: k in data && InRange([VERSION] + lo, k, [VERSION] + hi) ==> k in seen
    ensures var all := if current.Some? then keys + {current.value} else keys;
            && (forall k :: k in seen ==>
                  k in data && seen[k] == data[k] && Shaped(k) && k[0] == VERSION && KeyOf(k) in all)
            && (forall d :: d in all ==> ValidKey(d) && InRange(lo, d, hi))
    ensures current.Some? ==> forall d :: d in keys ==> Less(d, current.value)
  {
    hide Less;
    forall k | k in data && InRange([VERSION] + lo, k, [VERSION] + hi) ensures k in seen {
      assert Lists(rows, k);
    }
    forall k | k in seen ensures k in data && seen[k] == data[k] && Shaped(k) && k[0] == VERSION {
      assert Seen(rows, |rows|, k);
    }
    forall j | 0 <= j < |rows| ensures InRange(lo, KeyOf(rows[j].0), hi) {
      KeyRange(rows[j].0, VERSION, lo, hi);
    }
    forall d | d in keys ensures InRange(lo, d, hi) {
      assert FromRow(rows, |rows|, d);
    }
  }

  class MVCCStorage {
    const engine: MemoryEngine<Raw>

    constructor (engine: MemoryEngine<Raw>)
      requires DataSound(engine.data)
      ensures this.engine == engine && Valid()
    {
      this.engine := engine;
    }

    ghost predicate Valid()
      reads engine
    {
      DataSound(engine.data)
    }

    /** The version visible at `timestamp`: the last row of the key's versions up to it. */
    method GetVersion(key: Bytes, timestamp: int) returns (r: Option<(Bytes, nat)>)
      requires Valid() && ValidKey(key) && timestamp >= -1
      ensures r == VisibleAt(RowIn(engine.data, key), timestamp)
    {
      var hi := if timestamp < MAX_TS then Stored(VERSION, key, timestamp + 1) else [VERSION] + (key + [1]);
      if timestamp < MAX_TS {
        VersionCovers(engine.data, VERSION, key, timestamp);
      } else {
        WholeKeyCovers(engine.data, VERSION, key, timestamp);
      }
      var rows := engine.Scan(Prefix(VERSION, key), hi);
      LastIsNewest(engine.data, Prefix(VERSION, key), hi, VERSION, key, timestamp, rows);
      VisibleFromChain(engine.data, key, timestamp);
      if rows == [] {
        return None;
      }
      var (k, raw) := rows[|rows| - 1];
      var cell := DecodeCell(raw);
      r := if cell.Tombstone? then None else Some((cell.bytes, TsOf(k)));
    }

    method Set(key: Bytes, value: Bytes, timestamp: int)
      requires Valid() && ValidKey(key) && ValidTs(timestamp)
      modifies engine
      ensures Valid() && OthersSame(old(engine.data), engine.data, key)
      ensures RowIn(engine.data, key) == SetVersion(old(RowIn(engine.data, key)), timestamp, Value(value))
    {
      VersionPut(engine.data, key, timestamp, Value(value));
      engine.Put(Stored(VERSION, key, timestamp), EncodeCell(Value(value)));
    }

    /** A tombstone is a version of its own. */
    method Delete(key: Bytes, timestamp: int)
      requires Valid() && ValidKey(key) && ValidTs(timestamp)
      modifies engine
      ensures Valid() && OthersSame(old(engine.data), engine.data, key)
      ensures RowIn(engine.data, key) == SetVersion(old(RowIn(engine.data, key)), timestamp, Tombstone)
    {
      VersionPut(engine.data, key, timestamp, Tombstone);
      engine.Put(Stored(VERSION, key, timestamp), EncodeCell(Tombstone));
    }

    method WriteWriteRecord(key: Bytes, startTs: int, commitTs: int)
      requires Valid() && ValidKey(key) && ValidTs(startTs) && ValidTs(commitTs)
      modifies engine
      ensures Valid() && OthersSame(old(engine.data), engine.data, key)
      ensures var row := old(RowIn(engine.data, key));
              RowIn(engine.data, key) == row.(writes := row.writes[commitTs as nat := startTs as nat])
    {
      ghost var before := engine.data;
      SplitStored(WRITE, key, commitTs);
      engine.Put(Stored(WRITE, key, commitTs), Plain(TsBytes(startTs)));
      forall k | ValidKey(k) {
        PutWrite(before, key, startTs, commitTs, k);
      }
    }

    method PutLock(key: Bytes, startTs: int, lock: Lock)
      requires Valid() && ValidKey(key) && ValidTs(startTs)
      modifies engine
      ensures Valid() && OthersSame(old(engine.data), engine.data, key)
      ensures var row := old(RowIn(engine.data, key));
              RowIn(engine.data, key) == row.(locks := row.locks[startTs as nat := lock])
    {
      ghost var before := engine.data;
      SplitStored(LOCK, key, startTs);
      engine.Put(Stored(LOCK, key, startTs), Packed(lock));
      forall k | ValidKey(k) {
        MvccRows.PutLock(before, key, startTs, lock, k);
      }
    }

    method RemoveLock(key: Bytes, startTs: int)
      requires Valid() && ValidKey(key) && ValidTs(startTs)
      modifies engine
      ensures Valid() && OthersSame(old(engine.data), engine.data, key)
      ensures RowIn(engine.data, key) == Unlocked(old(RowIn(engine.data, key)), startTs as nat)
    {
      ghost var before := engine.data;
      engine.Delete(Stored(LOCK, key, startTs));
      forall k | ValidKey(k) {
        DropLock(before, key, startTs, k);
      }
    }

    method GetLock(key: Bytes, startTs: int) returns (lock: Option<Lock>)
      requires Valid() && ValidKey(key) && ValidTs(startTs)
      ensures var locks := RowIn(engine.data, key).locks;
              lock == if startTs as nat in locks then Some(locks[startTs as nat]) else None
    {
      ChainAt(engine.data, LOCK, key, startTs);
      var raw := engine.Get(Stored(LOCK, key, startTs));
      lock := if raw.Some? then Some(DecodeLock(raw.value)) else None;
    }

    /** The lock with the highest start timestamp. */
    method GetNewestLock(key: Bytes) returns (lock: Option<(nat, Lock)>)
      requires Valid() && ValidKey(key)
      ensures var locks := RowIn(engine.data, key).locks;
              lock == if locks == map[] then None else Some((Newest(locks).value, locks[Newest(locks).value]))
    {
      hide Chain, RowIn;
      var rows := LastRow(LOCK, key);
      RowOfChains(engine.data, key);
      lock := if rows == [] then None else Some((TsOf(rows[0].0), DecodeLock(rows[0].1)));
    }

    /** The newest write record: its commit timestamp, and the transaction's start timestamp. */
    method GetLatestWrite(key: Bytes) returns (write: Option<(nat, nat)>)
      requires Valid() && ValidKey(key)
      ensures var writes := RowIn(engine.data, key).writes;
              write == if writes == map[] then None else Some((Newest(writes).value, writes[Newest(writes).value]))
    {
      hide Chain, RowIn;
      var rows := LastRow(WRITE, key);
      RowOfChains(engine.data, key);
      write := if rows == [] then None else Some((TsOf(rows[0].0), DecodeStart(rows[0].1)));
    }

    /** The timestamp of the newest version, a tombstone's included. */
    method GetLatestVersion(key: Bytes) returns (version: Option<nat>)
      requires Valid() && ValidKey(key)
      ensures version == Newest(RowIn(engine.data, key).versions)
    {
      hide Chain, RowIn;
      var rows := LastRow(VERSION, key);
      RowOfChains(engine.data, key);
      version := if rows == [] then None else Some(TsOf(rows[0].0));
    }

    /** Every key of the range with a version visible at `timestamp`, in one walk over the
        range's versions: each key's run of rows leaves its newest visible one. */
    method ScanVersions(lo: Bytes, hi: Bytes, timestamp: int) returns (out: seq<(Bytes, Bytes, nat)>)
      requires Valid() && ValidKey(lo) && ValidKey(hi)
      ensures RangeRead(out, engine.data, lo, hi, timestamp)
    {
      hide RowIn, VisibleAt, Less, Chain, Walking, Reports, RangeRead;
      var rows := engine.Scan([VERSION] + lo, [VERSION] + hi);
      RowsAreVersions(rows, engine.data, lo, hi);
      out := [];
      var current: Option<Bytes> := None;
      var visible: Option<(Bytes, nat)> := None;
      ghost var seen: Data := map[];
      ghost var keys: set<Bytes> := {};
      NothingWalked(rows, timestamp);
      var i := 0;
      while i < |rows|
        invariant 0 <= i <= |rows|
        invariant Walking(rows, i, seen, keys, current)
        invariant Reports(out, seen, timestamp, keys)
        invariant current.Some? ==> visible == VisibleAt(RowIn(seen, current.value), timestamp)
      {
        var (k, raw) := rows[i];
        var key := KeyOf(k);
        WalkOn(rows, i, seen, keys, current);
        KeysBehind(rows, i, seen, keys, current);
        ghost var behind := keys;
        keys := Passed(keys, current, key);
        if current != Some(key) {
          FirstOfKey(rows, i, seen, behind, current, timestamp);
          if current.Some? {
            FinishKey(out, seen, timestamp, behind, current.value);
            out := out + Row3(current.value, visible);
          }
          current, visible := Some(key), None;
        }
        SeeVersion(seen, k, raw, timestamp);
        SeeMore(out, seen, timestamp, keys, k, raw);
        if TsOf(k) <= timestamp {
          var cell := DecodeCell(raw);
          visible := if cell.Tombstone? then None else Some((cell.bytes, TsOf(k)));
        }
        seen := seen[k := raw];
        i := i + 1;
      }
      WalkedRows(rows, seen, keys, current, engine.data, lo, hi);
      if current.Some? {
        FinishKey(out, seen, timestamp, keys, current.value);
        out := out + Row3(current.value, visible);
        keys := keys + {current.value};
      }
      WalkedAll(out, engine.data, seen, lo, hi, timestamp, keys);
    }

    /** Every lock held, by key and then by start timestamp. */
    method IterLocks() returns (locks: seq<(Bytes, nat, Lock)>)
      requires Valid()
      ensures ListsLocks(locks, engine.data)
    {
      hide RowIn, Chain, Less;
      var rows := engine.Scan([LOCK], [5]);
      LockRows(rows, engine.data);
      locks := [];
      var i := 0;
      while i < |rows|
        invariant 0 <= i <= |rows| && |locks| == i
        invariant forall j :: 0 <= j < i ==>
                    locks[j] == (KeyOf(rows[j].0), TsOf(rows[j].0), DecodeLock(rows[j].1))
      {
        locks := locks + [(KeyOf(rows[i].0), TsOf(rows[i].0), DecodeLock(rows[i].1))];
        i := i + 1;
      }
      LocksListed(rows, locks, engine.data);
    }

    /** The whole keyspace in one piece: versions, write records and locks. */
    method Dump() returns (rows: seq<(Bytes, Raw)>)
      requires Valid()
      ensures Scans(engine.data, [1], [5], rows)
      ensures Overlaid(map[], rows) == engine.data
    {
      rows := engine.Scan([1], [5]);
      DumpIsAll(rows, engine.data);
    }

    /** Whatever was here is gone: the storage is what was dumped. */
    method Load(rows: seq<(Bytes, Raw)>)
      requires Valid() && DataSound(Overlaid(map[], rows))
      modifies engine
      ensures Valid() && engine.data == Overlaid(map[], rows)
    {
      EverythingInRange(engine.data);
      engine.DeleteRange([1], [5]);
      engine.PutBatch(rows);
    }

    /** The last row of all of a key's entries in one namespace, if there is one. */
    method LastRow(ns: byte, key: Bytes) returns (row: seq<(Bytes, Raw)>)
      requires Valid() && ValidKey(key) && Namespace(ns)
      ensures |row| <= 1
      ensures var chain := Chain(engine.data, ns, key);
              && (row == [] <==> chain == map[])
              && (row != [] ==>
                    && Belongs(row[0].0, ns, key) && TsOf(row[0].0) in chain
                    && chain[TsOf(row[0].0)] == row[0].1 && Newest(chain) == Some(TsOf(row[0].0)))
    {
      WholeKeyCovers(engine.data, ns, key, MAX_TS);
      var rows := engine.Scan(Prefix(ns, key), [ns] + (key + [1]));
      LastIsNewest(engine.data, Prefix(ns, key), [ns] + (key + [1]), ns, key, MAX_TS, rows);
      WholeChain(engine.data, ns, key);
      row := if rows == [] then [] else [rows[|rows| - 1]];
    }
  }

  lemma NewestOfImage<T, U>(m: map<nat, T>, n: map<nat, U>)
    requires m.Keys == n.Keys
    ensures Newest(m) == Newest(n) && (m == map[] <==> n == map[])
  {
    if m.Keys == {} {
      assert m == map[] && n == map[];
    } else {
      NewestIs(n, Newest(m).value);
    }
  }

  lemma VisibleFromChain(data: Data, key: Bytes, t: int)
    ensures var chain := AtMost(Chain(data, VERSION, key), t);
            VisibleAt(RowIn(data, key), t) ==
            match Newest(chain)
            case None => None
            case Some(ts) =>
              var cell := DecodeCell(chain[ts]);
              if cell.Tombstone? then None else Some((cell.bytes, ts))
  {
    var chain, row := AtMost(Chain(data, VERSION, key), t), AtMost(RowIn(data, key).versions, t);
    assert chain.Keys == row.Keys;
    NewestOfImage(chain, row);
  }

  lemma LockRange(k: Bytes)
    requires Shaped(k)
    ensures InRange([LOCK], k, [5]) <==> k[0] == LOCK
    ensures InRange([1], k, [5])
  {
    var lock: Bytes, one: Bytes := [LOCK], [1];
    assert lock[1..] == [] && one[1..] == [];
    assert !Less(k[1..], lock[1..]) && !Less(k[1..], one[1..]);
    assert k[0] == LOCK <==> !Less(k, lock);
    assert !Less(k, one) && Less(k, [5]);
  }

  lemma LockRows(rows: seq<(Bytes, Raw)>, data: Data)
    requires DataSound(data) && Scans(data, [LOCK], [5], rows)
    ensures forall i :: 0 <= i < |rows| ==> Shaped(rows[i].0) && rows[i].0[0] == LOCK
  {
    hide Less;
    forall i | 0 <= i < |rows| ensures Shaped(rows[i].0) && rows[i].0[0] == LOCK {
      LockRange(rows[i].0);
    }
  }

  lemma LocksListed(rows: seq<(Bytes, Raw)>, locks: seq<(Bytes, nat, Lock)>, data: Data)
    requires DataSound(data) && Scans(data, [LOCK], [5], rows) && |locks| == |rows|
    requires forall i :: 0 <= i < |rows| ==> Shaped(rows[i].0) && rows[i].0[0] == LOCK
    requires forall j :: 0 <= j < |rows| ==> locks[j] == (KeyOf(rows[j].0), TsOf(rows[j].0), DecodeLock(rows[j].1))
    ensures ListsLocks(locks, data)
  {
    hide Less, Chain, RowIn;
    forall i, j | 0 <= i < j < |locks| ensures LockBefore(locks[i], locks[j]) {
      StoredOrder(rows[i].0, rows[j].0);
    }
    forall i | 0 <= i < |locks|
      ensures ValidKey(locks[i].0) && locks[i].1 in RowIn(data, locks[i].0).locks
              && RowIn(data, locks[i].0).locks[locks[i].1] == locks[i].2
    {
      var k := rows[i].0;
      StoredSplit(k);
      ChainAt(data, LOCK, KeyOf(k), TsOf(k));
      RowOfChains(data, KeyOf(k));
    }
    forall key, t: nat | ValidKey(key) && t in RowIn(data, key).locks ensures LockListed(locks, key, t) {
      RowOfChains(data, key);
      ChainAt(data, LOCK, key, t);
      SplitStored(LOCK, key, t);
      LockRange(Stored(LOCK, key, t));
      assert Lists(rows, Stored(LOCK, key, t));
      var i :| 0 <= i < |rows| && rows[i].0 == Stored(LOCK, key, t);
      assert locks[i].0 == key;
    }
  }

  lemma EverythingInRange(data: Data)
    requires DataSound(data)
    ensures (map k | k in data && !InRange([1], k, [5]) :: data[k]) == map[]
  {
    hide InRange;
    forall k | k in data ensures InRange([1], k, [5]) {
      LockRange(k);
    }
  }

  lemma {:induction false} OverlaidHas<V>(items: seq<(Bytes, V)>, k: Bytes)
    requires Increasing(items)
    ensures k in Overlaid(map[], items) <==> Lists(items, k)
    ensures forall i :: 0 <= i < |items| && items[i].0 == k ==>
        k in Overlaid(map[], items) && Overlaid(map[], items)[k] == items[i].1
  {
    if items != [] {
      var n := |items| - 1;
      var front := items[..n];
      OverlaidHas(front, k);
      forall i | 0 <= i < n ensures items[i].0 != items[n].0 {
        LessDiffer(items[i].0, items[n].0);
      }
      if Lists(items, k) && items[n].0 != k {
        var i :| 0 <= i < |items| && items[i].0 == k;
        assert front[i].0 == k;
      }
      if Lists(front, k) {
        var i :| 0 <= i < |front| && front[i].0 == k;
        assert items[i].0 == k;
      }
    }
  }

  /** Putting the dumped rows into an empty engine gives the engine they were dumped from. */
  lemma DumpIsAll(rows: seq<(Bytes, Raw)>, data: Data)
    requires DataSound(data) && Scans(data, [1], [5], rows)
    ensures Overlaid(map[], rows) == data
  {
    hide InRange, Overlaid, Increasing;
    forall k ensures k in Overlaid(map[], rows) <==> k in data
             ensures k in data ==> Overlaid(map[], rows)[k] == data[k] {
      OverlaidHas(rows, k);
      if k in data {
        LockRange(k);
        assert Lists(rows, k);
      }
    }
  }
}
