/** The rows an engine's contents stand for, and how each write to the engine moves them. */
module MvccRows {
  import opened Common
  import opened ByteOrder
  import opened Rows
  import opened MvccCodec

  /** What only the MVCC layer has written to. */
  ghost predicate DataSound(data: Data) {
    forall k :: k in data ==> EntrySound(k, data[k])
  }

  ghost predicate EntrySound(k: Bytes, raw: Raw) {
    && Shaped(k)
    && (k[0] == VERSION ==> raw.Plain? && raw.bytes != [])
    && (k[0] == WRITE ==> raw.Plain? && |raw.bytes| == 8)
    && (k[0] == LOCK ==> raw.Packed?)
  }

  function DecodeCell(raw: Raw): Cell {
    if raw.Plain? && raw.bytes != [] && raw.bytes[0] != 0 then Value(raw.bytes[1..]) else Tombstone
  }

  function DecodeStart(raw: Raw): nat {
    if raw.Plain? then FromBytes(raw.bytes) else 0
  }

  function DecodeLock(raw: Raw): Lock {
    if raw.Packed? then raw.lock else Lock([], 0, [])
  }

  predicate Belongs(k: Bytes, ns: byte, key: Bytes) { Shaped(k) && k[0] == ns && KeyOf(k) == key }

  /** One namespace of one key, by timestamp. */
  function Chain(data: Data, ns: byte, key: Bytes): map<nat, Raw> {
    assert forall k, l :: k in data && l in data && Belongs(k, ns, key) && Belongs(l, ns, key) && TsOf(k) == TsOf(l) ==>
        k == l by {
      forall k, l | k in data && l in data && Belongs(k, ns, key) && Belongs(l, ns, key) && TsOf(k) == TsOf(l)
        ensures k == l
      {
        StoredInjective(k, l);
      }
    }
    map k | k in data && Belongs(k, ns, key) :: TsOf(k) := data[k]
  }

  function RowIn(data: Data, key: Bytes): Row {
    var v, w, l := Chain(data, VERSION, key), Chain(data, WRITE, key), Chain(data, LOCK, key);
    Row(map t | t in v :: DecodeCell(v[t]), map t | t in w :: DecodeStart(w[t]), map t | t in l :: DecodeLock(l[t]))
  }

  predicate Namespace(ns: byte) { ns == VERSION || ns == WRITE || ns == LOCK }

  lemma ChainAt(data: Data, ns: byte, key: Bytes, t: nat)
    requires ValidKey(key) && Namespace(ns)
    ensures t in Chain(data, ns, key) <==> ValidTs(t) && Stored(ns, key, t) in data
    ensures t in Chain(data, ns, key) ==> Chain(data, ns, key)[t] == data[Stored(ns, key, t)]
  {
    if t in Chain(data, ns, key) {
      var k :| k in data && Belongs(k, ns, key) && TsOf(k) == t && Chain(data, ns, key)[t] == data[k];
      StoredSplit(k);
    }
    if ValidTs(t) && Stored(ns, key, t) in data {
      SplitStored(ns, key, t);
    }
  }

  lemma StoredDiffer(ns: byte, key: Bytes, t: int, ns': byte, key': Bytes, t': int)
    requires ValidTs(t) && ValidTs(t') && ValidKey(key) && ValidKey(key') && Namespace(ns) && Namespace(ns')
    ensures Stored(ns, key, t) == Stored(ns', key', t') <==> ns == ns' && key == key' && t == t'
  {
    SplitStored(ns, key, t);
    SplitStored(ns', key', t');
  }

  lemma ChainPut(data: Data, ns: byte, key: Bytes, t: int, raw: Raw, ns': byte, key': Bytes)
    requires ValidKey(key) && ValidTs(t) && Namespace(ns) && ValidKey(key') && Namespace(ns')
    ensures var after := data[Stored(ns, key, t) := raw];
            Chain(after, ns', key') ==
            if ns' == ns && key' == key then Chain(data, ns, key)[t as nat := raw] else Chain(data, ns', key')
  {
    hide Chain, Stored;
    var after := data[Stored(ns, key, t) := raw];
    var c, c' := Chain(data, ns', key'), Chain(after, ns', key');
    forall u: nat
      ensures u in c' <==> u in c || (ns' == ns && key' == key && u == t)
      ensures u in c' ==> c'[u] == if ns' == ns && key' == key && u == t then raw else c[u]
    {
      ChainAt(data, ns', key', u);
      ChainAt(after, ns', key', u);
      if ValidTs(u) {
        StoredDiffer(ns, key, t, ns', key', u);
      }
    }
  }

  lemma ChainDrop(data: Data, ns: byte, key: Bytes, t: int, ns': byte, key': Bytes)
    requires ValidKey(key) && ValidTs(t) && Namespace(ns) && ValidKey(key') && Namespace(ns')
    ensures var after := data - {Stored(ns, key, t)};
            Chain(after, ns', key') ==
            if ns' == ns && key' == key then Chain(data, ns, key) - {t as nat} else Chain(data, ns', key')
  {
    hide Chain, Stored;
    var after := data - {Stored(ns, key, t)};
    var c, c' := Chain(data, ns', key'), Chain(after, ns', key');
    forall u: nat
      ensures u in c' <==> u in c && !(ns' == ns && key' == key && u == t)
      ensures u in c' ==> c'[u] == c[u]
    {
      ChainAt(data, ns', key', u);
      ChainAt(after, ns', key', u);
      if ValidTs(u) {
        StoredDiffer(ns, key, t, ns', key', u);
      }
    }
  }

  // ---- each write, on rows --------------------------------------------------------

  function EncodeCell(cell: Cell): Raw {
    match cell
    case Value(bytes) => Plain([1] + bytes)
    case Tombstone => Plain([0])
  }

  lemma PutVersion(data: Data, key: Bytes, t: int, cell: Cell, other: Bytes)
    requires ValidKey(key) && ValidTs(t) && ValidKey(other)
    ensures var after := data[Stored(VERSION, key, t) := EncodeCell(cell)];
            RowIn(after, other) == if other == key then SetVersion(RowIn(data, key), t, cell) else RowIn(data, other)
  {
    hide Chain, Stored;
    assert DecodeCell(EncodeCell(cell)) == cell;
    ChainPut(data, VERSION, key, t, EncodeCell(cell), VERSION, other);
    ChainPut(data, VERSION, key, t, EncodeCell(cell), WRITE, other);
    ChainPut(data, VERSION, key, t, EncodeCell(cell), LOCK, other);
  }

  lemma PutWrite(data: Data, key: Bytes, startTs: int, commitTs: int, other: Bytes)
    requires ValidKey(key) && ValidTs(startTs) && ValidTs(commitTs) && ValidKey(other)
    ensures var after := data[Stored(WRITE, key, commitTs) := Plain(TsBytes(startTs))];
            var row := RowIn(data, key);
            RowIn(after, other) ==
            if other == key then row.(writes := row.writes[commitTs as nat := startTs as nat]) else RowIn(data, other)
  {
    hide Chain, Stored;
    EightBytes();
    BigEndianBack(startTs, 8);
    ChainPut(data, WRITE, key, commitTs, Plain(TsBytes(startTs)), VERSION, other);
    ChainPut(data, WRITE, key, commitTs, Plain(TsBytes(startTs)), WRITE, other);
    ChainPut(data, WRITE, key, commitTs, Plain(TsBytes(startTs)), LOCK, other);
  }

  lemma PutLock(data: Data, key: Bytes, startTs: int, lock: Lock, other: Bytes)
    requires ValidKey(key) && ValidTs(startTs) && ValidKey(other)
    ensures var after := data[Stored(LOCK, key, startTs) := Packed(lock)];
            var row := RowIn(data, key);
            RowIn(after, other) ==
            if other == key then row.(locks := row.locks[startTs as nat := lock]) else RowIn(data, other)
  {
    hide Chain, Stored;
    ChainPut(data, LOCK, key, startTs, Packed(lock), VERSION, other);
    ChainPut(data, LOCK, key, startTs, Packed(lock), WRITE, other);
    ChainPut(data, LOCK, key, startTs, Packed(lock), LOCK, other);
  }

  lemma DropLock(data: Data, key: Bytes, startTs: int, other: Bytes)
    requires ValidKey(key) && ValidTs(startTs) && ValidKey(other)
    ensures var after := data - {Stored(LOCK, key, startTs)};
            RowIn(after, other) ==
            if other == key then Unlocked(RowIn(data, key), startTs as nat) else RowIn(data, other)
  {
    hide Chain, Stored;
    ChainDrop(data, LOCK, key, startTs, VERSION, other);
    ChainDrop(data, LOCK, key, startTs, WRITE, other);
    ChainDrop(data, LOCK, key, startTs, LOCK, other);
  }
}
