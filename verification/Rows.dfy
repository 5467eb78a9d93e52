/**
  What a shard keeps about one key, and what each command does to it: the version chain, the
  write records of committed transactions, and the lock a transaction in flight holds.
*/
module Rows {
  import opened Common

  const MAX_TS: int := 0xFFFF_FFFF_FFFF_FFFF

  const SUCCESS := 0
  const UNKNOWN_COMMAND := 1
  const APPLY_ERROR := 2
  const LOCKED := 101
  const WRITE_CONFLICT := 102
  const NO_LOCK := 201
  const TIMESTAMP_MISMATCH := 202

  datatype Cell = Value(bytes: Bytes) | Tombstone

  /** A write intent; `time` is the moment the replica holding it took it, by its own clock. */
  datatype Lock = Lock(primary: Bytes, time: int, value: Bytes)

  datatype Row = Row(
    versions: map<nat, Cell>,     // by the timestamp written at
    writes: map<nat, nat>,        // by commit timestamp, the start timestamp
    locks: map<nat, Lock>)        // by start timestamp

  const EMPTY_ROW := Row(map[], map[], map[])

  /** The rows of a cluster, behind its leaders. */
  type Table = map<Bytes, Row>

  function At(rows: Table, key: Bytes): Row { if key in rows then rows[key] else EMPTY_ROW }

  datatype Command =
    | Set(key: Bytes, value: Bytes, timestamp: Option<int>, writtenBy: Option<int>)
    | Delete(key: Bytes, timestamp: Option<int>)
    | Prewrite(key: Bytes, value: Bytes, startTs: int, primary: Bytes)
    | Commit(key: Bytes, startTs: int, commitTs: int)
    | Rollback(key: Bytes, startTs: int)
    | CleanLock(key: Bytes, lockTs: Option<int>)
    | UnknownKind
    | Unreadable

  predicate ValidTs(t: int) { 0 <= t <= MAX_TS }

  /** A user key: free of the byte that separates the parts of a stored key. */
  predicate ValidKey(key: Bytes) { 0 !in key }

  // ---- reading a row --------------------------------------------------------------

  function Newest<T>(m: map<nat, T>): (r: Option<nat>)
    ensures r == None <==> m == map[]
    ensures r.Some? ==> r.value in m && forall t :: t in m ==> t <= r.value
  {
    if m.Keys == {} then assert m == map[]; None else Some(MaxKey(m.Keys))
  }

  function AtMost<T>(m: map<nat, T>, t: int): map<nat, T> {
    map k | k in m && k <= t :: m[k]
  }

  /** The version visible at `t`: the newest one no later, unless that one is a tombstone. */
  function VisibleAt(row: Row, t: int): Option<(Bytes, nat)> {
    match Newest(AtMost(row.versions, t))
    case None => None
    case Some(ts) => if row.versions[ts].Tombstone? then None else Some((row.versions[ts].bytes, ts))
  }

  datatype Answer =
    | Blocked
    | Found(value: Option<Bytes>, version: nat)

  /** A read at `timestamp`, or of the newest version applied when there is none: an older lock
      blocks it, a lock of its own timestamp answers it, a newer one is not looked at. */
  function Read(row: Row, timestamp: Option<int>, last: nat): Answer {
    var lock := Newest(row.locks);
    if lock.Some? && timestamp == Some(lock.value) then Found(Some(row.locks[lock.value].value), 0)
    else if lock.Some? && (timestamp == None || lock.value < timestamp.value) then Blocked
    else
      match VisibleAt(row, if timestamp.Some? then timestamp.value else last)
      case None => Found(None, 0)
      case Some(v) => Found(Some(v.0), v.1)
  }

  // ---- applying a command ---------------------------------------------------------

  /** What a command did: its code, the row after it, and the newest timestamp applied after it. */
  datatype Effect = Effect(code: nat, row: Row, last: nat)

  function SetVersion(row: Row, t: int, cell: Cell): Row
    requires ValidTs(t)
  {
    row.(versions := row.versions[t as nat := cell])
  }

  function ApplySet(row: Row, last: nat, value: Bytes, t: int, writtenBy: Option<int>): Effect {
    if !ValidTs(t) then Effect(APPLY_ERROR, row, last)
    else
      var written := SetVersion(row, t, Value(value));
      if writtenBy == None then Effect(SUCCESS, written, Max(last, t))
      else if !ValidTs(writtenBy.value) then Effect(APPLY_ERROR, written, last)
      else Effect(SUCCESS, written.(writes := row.writes[t as nat := writtenBy.value as nat]), Max(last, t))
  }

  function ApplyPrewrite(row: Row, last: nat, value: Bytes, startTs: int, primary: Bytes, now: int): Effect {
    var write, version := Newest(row.writes), Newest(row.versions);
    if row.locks != map[] then Effect(LOCKED, row, last)
    else if write.Some? && write.value > startTs then Effect(WRITE_CONFLICT, row, last)
    else if version.Some? && version.value > startTs then Effect(WRITE_CONFLICT, row, last)
    else if !ValidTs(startTs) then Effect(APPLY_ERROR, row, last)
    else Effect(SUCCESS, row.(locks := row.locks[startTs as nat := Lock(primary, now, value)]), last)
  }

  function Unlocked(row: Row, startTs: nat): Row {
    row.(locks := row.locks - {startTs})
  }

  function ApplyCommit(row: Row, last: nat, startTs: int, commitTs: int): Effect {
    if !ValidTs(startTs) then Effect(APPLY_ERROR, row, last)
    else if startTs as nat !in row.locks then
      Effect(if row.locks == map[] then NO_LOCK else TIMESTAMP_MISMATCH, row, last)
    else if !ValidTs(commitTs) then Effect(APPLY_ERROR, row, last)
    else
      var written := SetVersion(row, commitTs, Value(row.locks[startTs as nat].value));
      Effect(SUCCESS, Unlocked(written.(writes := row.writes[commitTs as nat := startTs as nat]), startTs as nat),
             Max(last, commitTs))
  }

  function ApplyRollback(row: Row, last: nat, startTs: int): Effect {
    if !ValidTs(startTs) then Effect(APPLY_ERROR, row, last)
    else if startTs as nat in row.locks then Effect(SUCCESS, Unlocked(row, startTs as nat), last)
    else Effect(if row.locks == map[] then SUCCESS else TIMESTAMP_MISMATCH, row, last)
  }

  function ApplyCleanLock(row: Row, last: nat, lockTs: Option<int>): Effect {
    var lock := Newest(row.locks);
    if lock.Some? && (lockTs == None || lockTs.value == lock.value) then
      Effect(SUCCESS, Unlocked(row, lock.value), last)
    else Effect(SUCCESS, row, last)
  }

  predicate Keyed(c: Command) { !c.UnknownKind? && !c.Unreadable? }

  /** The command `c`, of this row's key, applied at the replica's own moment `now`. */
  function ApplyRow(row: Row, last: nat, c: Command, now: int): Effect
    requires Keyed(c)
  {
    if !ValidKey(c.key) then Effect(APPLY_ERROR, row, last)
    else match c
      case Set(_, value, timestamp, writtenBy) =>
        ApplySet(row, last, value, if timestamp.Some? then timestamp.value else last + 1, writtenBy)
      case Delete(_, timestamp) =>
        var t := if timestamp.Some? then timestamp.value else last + 1;
        if ValidTs(t) then Effect(SUCCESS, SetVersion(row, t, Tombstone), Max(last, t))
        else Effect(APPLY_ERROR, row, last)
      case Prewrite(_, value, startTs, primary) => ApplyPrewrite(row, last, value, startTs, primary, now)
      case Commit(_, startTs, commitTs) => ApplyCommit(row, last, startTs, commitTs)
      case Rollback(_, startTs) => ApplyRollback(row, last, startTs)
      case CleanLock(_, lockTs) => ApplyCleanLock(row, last, lockTs)
  }

  /** Adds rows to a shard, as against finishing work already in flight over it. */
  predicate WritesNewData(c: Command) {
    c.Set? || c.Delete? || c.Prewrite? || c.Unreadable?
  }
}
