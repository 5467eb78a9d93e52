/**
  The rows of a shard laid on a byte-ordered engine: a namespace byte, the key, a zero byte,
  and the timestamp in eight bytes.  What a row is, is read back from the stored keys alone.
*/
module MvccCodec {
  import opened Common
  import opened ByteOrder
  import opened Rows

  const VERSION: byte := 1
  const WRITE: byte := 3
  const LOCK: byte := 4

  /** A stored value: raw bytes, or a lock record (packed by a one-to-one encoding). */
  datatype Raw = Plain(bytes: Bytes) | Packed(lock: Lock)

  type Data = map<Bytes, Raw>

  function TsBytes(t: int): Bytes
    requires ValidTs(t)
  {
    BigEndian(t, 8)
  }

  function Stored(ns: byte, key: Bytes, t: int): Bytes
    requires ValidTs(t)
  {
    [ns] + (key + [0] + TsBytes(t))
  }

  /** The key and the timestamp of a stored key, by position: the timestamp is always the last
      eight bytes, whatever bytes are in it. */
  predicate Shaped(k: Bytes) {
    && |k| >= 10 && k[|k| - 9] == 0
    && ValidKey(k[1..|k| - 9])
    && (k[0] == VERSION || k[0] == WRITE || k[0] == LOCK)
  }

  function KeyOf(k: Bytes): Bytes
    requires Shaped(k)
  {
    k[1..|k| - 9]
  }

  function TsOf(k: Bytes): (t: nat)
    requires Shaped(k)
    ensures ValidTs(t)
  {
    FromBytesFits(k[|k| - 8..]);
    EightBytes();
    FromBytes(k[|k| - 8..])
  }

  /** Splitting undoes storing. */
  lemma SplitStored(ns: byte, key: Bytes, t: int)
    requires ValidTs(t) && ValidKey(key) && (ns == VERSION || ns == WRITE || ns == LOCK)
    ensures var k := Stored(ns, key, t); Shaped(k) && k[0] == ns && KeyOf(k) == key && TsOf(k) == t
  {
    var k := Stored(ns, key, t);
    assert k[1..|k| - 9] == key;
    assert k[|k| - 8..] == TsBytes(t);
    EightBytes();
    BigEndianBack(t, 8);
  }

  /** And storing undoes splitting: no two stored keys are the same pair. */
  lemma StoredSplit(k: Bytes)
    requires Shaped(k)
    ensures k == Stored(k[0], KeyOf(k), TsOf(k))
  {
    FromBytesFits(k[|k| - 8..]);
    EightBytes();
    var n := |k| - 9;
    assert k == [k[0]] + (k[1..n] + [k[n]] + k[n + 1..]);
    assert k[n + 1..] == k[|k| - 8..];
  }

  lemma StoredInjective(k: Bytes, l: Bytes)
    requires Shaped(k) && Shaped(l) && k[0] == l[0] && KeyOf(k) == KeyOf(l) && TsOf(k) == TsOf(l)
    ensures k == l
  {
    StoredSplit(k);
    StoredSplit(l);
  }

  /** The engine's order on one namespace is the order of the pairs. */
  lemma StoredOrder(k: Bytes, l: Bytes)
    requires Shaped(k) && Shaped(l) && k[0] == l[0]
    ensures Less(k, l) <==> Less(KeyOf(k), KeyOf(l)) || (KeyOf(k) == KeyOf(l) && TsOf(k) < TsOf(l))
  {
    StoredSplit(k);
    StoredSplit(l);
    var x, y := TsBytes(TsOf(k)), TsBytes(TsOf(l));
    SharedHead(k[0], KeyOf(k) + [0] + x, KeyOf(l) + [0] + y);
    SeparatorOrder(KeyOf(k), KeyOf(l), x, y);
    EightBytes();
    BigEndianOrder(TsOf(k), TsOf(l), 8);
  }

  /** The first byte decides between namespaces. */
  lemma NamespaceOrder(k: Bytes, b: Bytes)
    requires k != [] && b != [] && k[0] != b[0]
    ensures Less(k, b) <==> k[0] < b[0]
  {
  }

  // ---- the ranges the storage scans -----------------------------------------------

  /** A range between two user keys holds exactly the entries of the keys in that range. */
  lemma KeyRange(k: Bytes, ns: byte, lo: Bytes, hi: Bytes)
    requires Shaped(k) && ValidKey(lo) && ValidKey(hi)
    ensures InRange([ns] + lo, k, [ns] + hi) <==> k[0] == ns && InRange(lo, KeyOf(k), hi)
  {
    if k[0] == ns {
      StoredSplit(k);
      var rest := KeyOf(k) + [0] + TsBytes(TsOf(k));
      SharedHead(ns, rest, lo);
      SharedHead(ns, rest, hi);
      BoundOrder(KeyOf(k), lo, TsBytes(TsOf(k)));
      BoundOrder(KeyOf(k), hi, TsBytes(TsOf(k)));
    } else {
      NamespaceOrder(k, [ns] + lo);
      NamespaceOrder(k, [ns] + hi);
    }
  }

  function Prefix(ns: byte, key: Bytes): Bytes { [ns] + (key + [0]) }

  lemma FromPrefix(k: Bytes, ns: byte, key: Bytes)
    requires Shaped(k) && ValidKey(key)
    ensures !Less(k, Prefix(ns, key)) <==> k[0] > ns || (k[0] == ns && !Less(KeyOf(k), key))
  {
    if k[0] == ns {
      StoredSplit(k);
      var x := TsBytes(TsOf(k));
      SharedHead(ns, KeyOf(k) + [0] + x, key + [0]);
      assert key + [0] == key + [0] + [];
      SeparatorOrder(KeyOf(k), key, x, []);
      LessTotal(KeyOf(k), key);
    } else {
      NamespaceOrder(k, Prefix(ns, key));
    }
  }

  /** All of one key's entries of a namespace, and no other key's. */
  lemma WholeKeyRange(k: Bytes, ns: byte, key: Bytes)
    requires Shaped(k) && ValidKey(key)
    ensures InRange(Prefix(ns, key), k, [ns] + (key + [1])) <==> k[0] == ns && KeyOf(k) == key
  {
    FromPrefix(k, ns, key);
    if k[0] == ns {
      StoredSplit(k);
      var x := TsBytes(TsOf(k));
      SharedHead(ns, KeyOf(k) + [0] + x, key + [1]);
      UpperBoundOrder(KeyOf(k), key, x);
      LessTotal(KeyOf(k), key);
      if Less(KeyOf(k), key) { LessAsymmetric(KeyOf(k), key); }
      LessIrreflexive(key);
    } else {
      NamespaceOrder(k, [ns] + (key + [1]));
    }
  }

  /** One key's entries up to a timestamp. */
  lemma VersionRange(k: Bytes, ns: byte, key: Bytes, t: int)
    requires Shaped(k) && ValidKey(key) && ValidTs(t + 1)
    ensures InRange(Prefix(ns, key), k, Stored(ns, key, t + 1)) <==> k[0] == ns && KeyOf(k) == key && TsOf(k) <= t
  {
    FromPrefix(k, ns, key);
    if k[0] == ns {
      StoredSplit(k);
      var x, y := TsBytes(TsOf(k)), TsBytes(t + 1);
      SharedHead(ns, KeyOf(k) + [0] + x, key + [0] + y);
      SeparatorOrder(KeyOf(k), key, x, y);
      EightBytes();
      BigEndianOrder(TsOf(k), t + 1, 8);
      LessTotal(KeyOf(k), key);
      if Less(KeyOf(k), key) { LessAsymmetric(KeyOf(k), key); }
      LessIrreflexive(key);
    } else {
      NamespaceOrder(k, Stored(ns, key, t + 1));
    }
  }
}
