/** Raft state laid out in a byte-ordered engine: one key per entry, in index order, and one record
    each for the term and vote, the commit index and the snapshot. */
module RaftStorage {
  import opened Common
  import opened ByteOrder
  import opened Engine
  import opened RaftProtocol
  import opened RaftNode

  /** What a packed value unpacks to. */
  datatype Record =
    | EntryRecord(term: nat, command: Command)
    | MetaRecord(term: nat, votedFor: Option<NodeId>)
    | CommitRecord(index: nat)
    | SnapshotRecord(snapshot: Snapshot)
    | NoteRecord(note: Bytes)

  const LOG: byte := 1
  const META: Bytes := [2]
  const COMMIT: Bytes := [3]
  const SNAPSHOT: Bytes := [4]
  const ADMIN: byte := 5

  /** Indices are written in eight bytes; a greater one cannot be stored. */
  const INDEX_LIMIT: nat := 0x1_0000_0000_0000_0000

  function LogKey(index: nat): Bytes { [LOG] + BigEndian(index, 8) }

  predicate IsLogKey(key: Bytes) { |key| == 9 && key[0] == LOG }

  function IndexOf(key: Bytes): nat
    requires IsLogKey(key)
  {
    FromBytes(key[1..])
  }

  predicate IsNoteKey(key: Bytes) { key != [] && key[0] == ADMIN }

  // ---- the key codec --------------------------------------------------------------

  lemma LogKeyBack(index: nat)
    requires index < INDEX_LIMIT
    ensures IsLogKey(LogKey(index)) && IndexOf(LogKey(index)) == index
  {
    EightBytes();
    BigEndianBack(index, 8);
    assert LogKey(index)[1..] == BigEndian(index, 8);
  }

  lemma KeyOfIndex(key: Bytes)
    requires IsLogKey(key)
    ensures IndexOf(key) < INDEX_LIMIT && LogKey(IndexOf(key)) == key
  {
    EightBytes();
    FromBytesFits(key[1..]);
    assert key == [key[0]] + key[1..];
  }

  /** Keys of the log are in the order of their indices. */
  lemma LogKeyOrder(i: nat, j: nat)
    requires i < INDEX_LIMIT && j < INDEX_LIMIT
    ensures Less(LogKey(i), LogKey(j)) <==> i < j
    ensures LogKey(i) == LogKey(j) <==> i == j
  {
    EightBytes();
    BigEndianOrder(i, j, 8);
    SharedHead(LOG, BigEndian(i, 8), BigEndian(j, 8));
    LogKeyBack(i);
    LogKeyBack(j);
  }

  /** From one index on to the end of the log's keys. */
  lemma TailRange(from: nat, key: Bytes)
    requires from < INDEX_LIMIT && OwnKey(key)
    ensures InRange(LogKey(from), key, META) <==> IsLogKey(key) && IndexOf(key) >= from
  {
    if IsLogKey(key) {
      KeyOfIndex(key);
      LogKeyOrder(IndexOf(key), from);
    }
  }

  /** From one index up to another. */
  lemma HeadRange(upTo: nat, key: Bytes)
    requires upTo < INDEX_LIMIT && OwnKey(key)
    ensures InRange(LogKey(0), key, LogKey(upTo)) <==> IsLogKey(key) && IndexOf(key) < upTo
  {
    if IsLogKey(key) {
      KeyOfIndex(key);
      LogKeyOrder(IndexOf(key), 0);
      LogKeyOrder(IndexOf(key), upTo);
    }
  }

  lemma WholeRange(key: Bytes)
    requires OwnKey(key)
    ensures InRange([LOG], key, META) <==> IsLogKey(key)
  {
    assert [LOG][1..] == [] && META[1..] == [] && !Less(key[1..], []);
    assert key[0] >= 2 ==> !Less(key, META);
    assert key[0] == LOG ==> Less(key, META) && !Less(key, [LOG]);
  }

  // ---- what the keys hold ---------------------------------------------------------

  predicate OwnKey(key: Bytes) {
    IsLogKey(key) || key == META || key == COMMIT || key == SNAPSHOT || IsNoteKey(key)
  }

  ghost predicate Laid(data: map<Bytes, Record>) {
    forall key :: key in data ==> OwnKey(key) && RecordFits(key, data[key])
  }

  predicate RecordFits(key: Bytes, r: Record) {
    && (IsLogKey(key) ==> r.EntryRecord?)
    && (key == META ==> r.MetaRecord?)
    && (key == COMMIT ==> r.CommitRecord?)
    && (key == SNAPSHOT ==> r.SnapshotRecord?)
    && (IsNoteKey(key) ==> r.NoteRecord?)
  }

  ghost function Indices(data: map<Bytes, Record>): set<nat> {
    set key | key in data && IsLogKey(key) :: IndexOf(key)
  }

  lemma IndexIn(data: map<Bytes, Record>, i: nat)
    ensures i in Indices(data) <==> i < INDEX_LIMIT && LogKey(i) in data
  {
    if i in Indices(data) {
      var key :| key in data && IsLogKey(key) && IndexOf(key) == i;
      KeyOfIndex(key);
    }
    if i < INDEX_LIMIT { LogKeyBack(i); }
  }

  ghost function EntryOf(data: map<Bytes, Record>, i: nat): Entry {
    if LogKey(i) in data && data[LogKey(i)].EntryRecord? then Entry(data[LogKey(i)].term, i, data[LogKey(i)].command)
    else Entry(0, i, [])
  }

  ghost function EntriesIn(data: map<Bytes, Record>): map<nat, Entry> {
    map i | i in Indices(data) :: EntryOf(data, i)
  }

  /** The Raft state the engine holds. */
  ghost function DiskOf(data: map<Bytes, Record>): Disk
    requires Laid(data)
  {
    Disk(if META in data then data[META].term else 0,
         if META in data then data[META].votedFor else None,
         EntriesIn(data),
         if COMMIT in data then data[COMMIT].index else 0,
         if SNAPSHOT in data then Some(data[SNAPSHOT].snapshot) else None)
  }

  /** The notes kept beside it. */
  ghost function NotesOf(data: map<Bytes, Record>): map<Bytes, Record> {
    map key | key in data && IsNoteKey(key) :: data[key]
  }

  // ---- what each write does to them -----------------------------------------------

  lemma SameEntries(a: map<Bytes, Record>, b: map<Bytes, Record>)
    requires forall key :: IsLogKey(key) ==> (key in a <==> key in b) && (key in a ==> a[key] == b[key])
    ensures EntriesIn(a) == EntriesIn(b)
  {
    forall i: nat ensures i in Indices(a) <==> i in Indices(b) {
      IndexIn(a, i);
      IndexIn(b, i);
      if i < INDEX_LIMIT { LogKeyBack(i); }
    }
    forall i | i in Indices(a) ensures EntryOf(a, i) == EntryOf(b, i) {
      IndexIn(a, i);
      LogKeyBack(i);
    }
  }

  lemma PutRecord(data: map<Bytes, Record>, key: Bytes, r: Record)
    requires Laid(data) && (key == META || key == COMMIT || key == SNAPSHOT) && RecordFits(key, r)
    ensures Laid(data[key := r]) && NotesOf(data[key := r]) == NotesOf(data)
    ensures EntriesIn(data[key := r]) == EntriesIn(data)
  {
    SameEntries(data, data[key := r]);
  }

  lemma PutLogKey(data: map<Bytes, Record>, e: Entry)
    requires Laid(data) && e.index < INDEX_LIMIT
    ensures var data' := data[LogKey(e.index) := EntryRecord(e.term, e.command)];
            Laid(data') && NotesOf(data') == NotesOf(data) && EntriesIn(data') == EntriesIn(data)[e.index := e]
  {
    hide LogKey, IndexOf, Indices;
    LogKeyBack(e.index);
    var data' := data[LogKey(e.index) := EntryRecord(e.term, e.command)];
    forall i: nat ensures i in Indices(data') <==> i == e.index || i in Indices(data) {
      IndexIn(data, i);
      IndexIn(data', i);
      if i < INDEX_LIMIT { LogKeyOrder(i, e.index); }
    }
    forall i | i in Indices(data') ensures EntryOf(data', i) == EntriesIn(data)[e.index := e][i] {
      IndexIn(data', i);
      LogKeyOrder(i, e.index);
    }
  }

  /** A range delete over the log's keys, by the indices it covers. */
  lemma DropIndices(data: map<Bytes, Record>, lo: Bytes, hi: Bytes, drop: nat -> bool)
    requires Laid(data)
    requires forall key :: OwnKey(key) ==> (InRange(lo, key, hi) <==> IsLogKey(key) && drop(IndexOf(key)))
    ensures var data' := map key | key in data && !InRange(lo, key, hi) :: data[key];
            && Laid(data') && NotesOf(data') == NotesOf(data)
            && EntriesIn(data') == (map i | i in EntriesIn(data) && !drop(i) :: EntriesIn(data)[i])
            && forall key :: key == META || key == COMMIT || key == SNAPSHOT ==>
                 (key in data' <==> key in data) && (key in data ==> data'[key] == data[key])
  {
    hide InRange, LogKey, IndexOf, Indices;
    var data' := map key | key in data && !InRange(lo, key, hi) :: data[key];
    forall i: nat ensures i in Indices(data') <==> i in Indices(data) && !drop(i) {
      IndexIn(data, i);
      IndexIn(data', i);
      if i < INDEX_LIMIT { LogKeyBack(i); }
    }
    forall i | i in Indices(data') ensures EntryOf(data', i) == EntryOf(data, i) {
      IndexIn(data', i);
    }
  }

  lemma TruncateData(data: map<Bytes, Record>, from: nat)
    requires Laid(data) && from < INDEX_LIMIT
    ensures var data' := map key | key in data && !InRange(LogKey(from), key, META) :: data[key];
            Laid(data') && NotesOf(data') == NotesOf(data) && DiskOf(data') == Perform(DiskOf(data), Truncate(from))
  {
    hide InRange, LogKey, IndexOf, EntriesIn, NotesOf, OwnKey;
    forall key | OwnKey(key) ensures InRange(LogKey(from), key, META) <==> IsLogKey(key) && IndexOf(key) >= from {
      TailRange(from, key);
    }
    var drop := (i: nat) => i >= from;
    DropIndices(data, LogKey(from), META, drop);
    var entries := EntriesIn(data);
    assert (map i | i in entries && !drop(i) :: entries[i]) == (map i | i in entries && i < from :: entries[i]);
  }

  lemma CompactData(data: map<Bytes, Record>, upTo: nat)
    requires Laid(data) && upTo + 1 < INDEX_LIMIT
    ensures var data' := map key | key in data && !InRange(LogKey(0), key, LogKey(upTo + 1)) :: data[key];
            Laid(data') && NotesOf(data') == NotesOf(data) && DiskOf(data') == Perform(DiskOf(data), Compact(upTo))
  {
    hide InRange, LogKey, IndexOf, EntriesIn, NotesOf, OwnKey;
    forall key | OwnKey(key)
      ensures InRange(LogKey(0), key, LogKey(upTo + 1)) <==> IsLogKey(key) && IndexOf(key) < upTo + 1
    {
      HeadRange(upTo + 1, key);
    }
    var drop := (i: nat) => i < upTo + 1;
    DropIndices(data, LogKey(0), LogKey(upTo + 1), drop);
    var entries := EntriesIn(data);
    assert (map i | i in entries && !drop(i) :: entries[i]) == (map i | i in entries && i > upTo :: entries[i]);
  }

  // ---- reading the log back -------------------------------------------------------

  ghost predicate ByIndex(log: Log) { forall i, j :: 0 <= i < j < |log| ==> log[i].index < log[j].index }

  ghost predicate HasIndex(log: Log, k: nat) { exists i :: 0 <= i < |log| && log[i].index == k }

  /** A list of exactly the stored entries in index order is the log they load as. */
  lemma {:induction false} LoadLogUnique(entries: map<nat, Entry>, log: Log)
    requires ByIndex(log)
    requires forall i :: 0 <= i < |log| ==> log[i].index in entries && entries[log[i].index] == log[i]
    requires forall k :: k in entries ==> HasIndex(log, k)
    ensures log == RaftNode.LoadLog(entries)
    decreases |log|
  {
    hide HasIndex;
    if log == [] {
      assert entries.Keys == {} by {
        forall k | k in entries ensures false { NoIndex(k); }
      }
    } else {
      var last, rest := log[|log| - 1], log[..|log| - 1];
      assert last.index in entries.Keys;
      var k: nat := MaxKey(entries.Keys);
      LastIsGreatest(log, k);
      forall l | l in entries - {k} ensures HasIndex(rest, l) {
        InRest(log, l);
      }
      LoadLogUnique(entries - {k}, rest);
      assert log == rest + [last];
    }
  }

  lemma NoIndex(k: nat)
    ensures !HasIndex([], k)
  {
  }

  lemma LastIsGreatest(log: Log, k: nat)
    requires ByIndex(log) && log != [] && HasIndex(log, k) && log[|log| - 1].index <= k
    ensures k == log[|log| - 1].index
  {
  }

  lemma InRest(log: Log, k: nat)
    requires log != [] && HasIndex(log, k) && k != log[|log| - 1].index
    ensures HasIndex(log[..|log| - 1], k)
  {
    var i :| 0 <= i < |log| && log[i].index == k;
    assert log[..|log| - 1][i].index == k;
  }

  class EngineRaftStorage {
    const engine: MemoryEngine<Record>

    constructor (engine: MemoryEngine<Record>)
      ensures this.engine == engine
    {
      this.engine := engine;
    }

    ghost predicate Valid()
      reads this, engine
    {
      Laid(engine.data)
    }

    ghost function Contents(): Disk
      requires Valid()
      reads this, engine
    {
      DiskOf(engine.data)
    }

    ghost function Notes(): map<Bytes, Record>
      reads this, engine
    {
      NotesOf(engine.data)
    }

    method SaveMeta(term: nat, votedFor: Option<NodeId>)
      requires Valid()
      modifies engine
      ensures Valid() && Contents() == Perform(old(Contents()), Write.SaveMeta(term, votedFor))
      ensures Notes() == old(Notes())
    {
      PutRecord(engine.data, META, MetaRecord(term, votedFor));
      engine.Put(META, MetaRecord(term, votedFor));
    }

    method LoadMeta() returns (term: nat, votedFor: Option<NodeId>)
      requires Valid()
      ensures term == Contents().term && votedFor == Contents().votedFor
    {
      var raw := engine.Get(META);
      match raw
      case None => term, votedFor := 0, None;
      case Some(r) => term, votedFor := r.term, r.votedFor;
    }

    method AppendLogEntry(e: Entry)
      requires Valid() && e.index < INDEX_LIMIT
      modifies engine
      ensures Valid() && Contents() == Perform(old(Contents()), PutEntry(e)) && Notes() == old(Notes())
    {
      PutLogKey(engine.data, e);
      LogKeyBack(e.index);
      engine.Put(LogKey(e.index), EntryRecord(e.term, e.command));
    }

    /** Everything from an index on goes in one delete. */
    method TruncateLog(from: nat)
      requires Valid() && from < INDEX_LIMIT
      modifies engine
      ensures Valid() && Contents() == Perform(old(Contents()), Truncate(from)) && Notes() == old(Notes())
    {
      TruncateData(engine.data, from);
      engine.DeleteRange(LogKey(from), META);
    }

    /** Everything up to an index goes in one delete. */
    method CompactLog(upTo: nat)
      requires Valid() && upTo + 1 < INDEX_LIMIT
      modifies engine
      ensures Valid() && Contents() == Perform(old(Contents()), Compact(upTo)) && Notes() == old(Notes())
    {
      CompactData(engine.data, upTo);
      engine.DeleteRange(LogKey(0), LogKey(upTo + 1));
    }

    /** The entries as the scan meets them, which is in index order: sorting them again moves none. */
    method LoadLog() returns (log: Log)
      requires Valid()
      ensures log == RaftNode.LoadLog(Contents().entries) && ByIndex(log)
    {
      var rows := engine.Scan([LOG], META);
      log := [];
      var i := 0;
      while i < |rows|
        invariant 0 <= i == |log| <= |rows|
        invariant forall j :: 0 <= j < i ==> IsLogKey(rows[j].0) && EntryFrom(rows[j], log[j])
      {
        WholeRange(rows[i].0);
        log := log + [Entry(rows[i].1.term, IndexOf(rows[i].0), rows[i].1.command)];
        i := i + 1;
      }
      RowsAreLog(engine.data, rows, log);
    }

    method SaveCommitIndex(index: nat)
      requires Valid()
      modifies engine
      ensures Valid() && Contents() == Perform(old(Contents()), SaveCommit(index)) && Notes() == old(Notes())
    {
      PutRecord(engine.data, COMMIT, CommitRecord(index));
      engine.Put(COMMIT, CommitRecord(index));
    }

    method LoadCommitIndex() returns (index: nat)
      requires Valid()
      ensures index == Contents().commit
    {
      var raw := engine.Get(COMMIT);
      index := if raw.None? then 0 else raw.value.index;
    }

    method SaveSnapshot(snapshot: Snapshot)
      requires Valid()
      modifies engine
      ensures Valid() && Contents() == Perform(old(Contents()), Write.SaveSnapshot(snapshot)) && Notes() == old(Notes())
    {
      PutRecord(engine.data, SNAPSHOT, SnapshotRecord(snapshot));
      engine.Put(SNAPSHOT, SnapshotRecord(snapshot));
    }

    method LoadSnapshot() returns (snapshot: Option<Snapshot>)
      requires Valid()
      ensures snapshot == Contents().snapshot
    {
      var raw := engine.Get(SNAPSHOT);
      snapshot := if raw.None? then None else Some(raw.value.snapshot);
    }

    /** A note goes beside the Raft state, and changes nothing of it. */
    method SaveAdmin(name: Bytes, note: Bytes)
      requires Valid()
      modifies engine
      ensures Valid() && Contents() == old(Contents()) && Notes() == old(Notes())[[ADMIN] + name := NoteRecord(note)]
    {
      SameEntries(engine.data, engine.data[[ADMIN] + name := NoteRecord(note)]);
      engine.Put([ADMIN] + name, NoteRecord(note));
    }

    method LoadAdmin(name: Bytes) returns (note: Option<Bytes>)
      requires Valid()
      ensures note == if [ADMIN] + name in Notes() then Some(Notes()[[ADMIN] + name].note) else None
    {
      var raw := engine.Get([ADMIN] + name);
      note := if raw.None? then None else Some(raw.value.note);
    }

    method DeleteAdmin(name: Bytes)
      requires Valid()
      modifies engine
      ensures Valid() && Contents() == old(Contents()) && Notes() == old(Notes()) - {[ADMIN] + name}
    {
      SameEntries(engine.data, engine.data - {[ADMIN] + name});
      engine.Delete([ADMIN] + name);
    }

    /** Wiping a node: no state and no note is left. */
    method Clear()
      requires Valid()
      modifies engine
      ensures Valid() && Contents() == EMPTY_DISK && Notes() == map[]
    {
      engine.DeleteRange([1], [6]);
      forall key | OwnKey(key) ensures InRange([1], key, [6]) {
        assert [1][1..] == [] && [6][1..] == [];
      }
      assert engine.data == map[];
      assert Indices(engine.data) == {};
    }
  }

  predicate EntryFrom(row: (Bytes, Record), e: Entry)
    requires IsLogKey(row.0)
  {
    row.1.EntryRecord? && e == Entry(row.1.term, IndexOf(row.0), row.1.command)
  }

  lemma RowsAreLog(data: map<Bytes, Record>, rows: seq<(Bytes, Record)>, log: Log)
    requires Laid(data) && Scans(data, [LOG], META, rows) && |log| == |rows|
    requires forall j :: 0 <= j < |log| ==> IsLogKey(rows[j].0) && EntryFrom(rows[j], log[j])
    ensures log == RaftNode.LoadLog(EntriesIn(data)) && ByIndex(log)
  {
    hide InRange;
    var entries := EntriesIn(data);
    forall i, j | 0 <= i < j < |log| ensures log[i].index < log[j].index {
      KeyOfIndex(rows[i].0);
      KeyOfIndex(rows[j].0);
      LogKeyOrder(log[i].index, log[j].index);
    }
    forall i | 0 <= i < |log| ensures log[i].index in entries && entries[log[i].index] == log[i] {
      KeyOfIndex(rows[i].0);
      IndexIn(data, log[i].index);
    }
    forall k | k in entries ensures HasIndex(log, k) {
      IndexIn(data, k);
      LogKeyBack(k);
      WholeRange(LogKey(k));
      assert Lists(rows, LogKey(k));
      var i :| 0 <= i < |rows| && rows[i].0 == LogKey(k);
      assert log[i].index == k;
    }
    LoadLogUnique(entries, log);
  }
}
