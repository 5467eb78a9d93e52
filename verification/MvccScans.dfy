/** What scanning the engine finds: the newest entry of a key, and every key of a range. */
module MvccScans {
  import opened Common
  import opened ByteOrder
  import opened Rows
  import opened MvccCodec
  import opened MvccRows
  import opened Engine

  // ---- what the last row of a scan is ---------------------------------------------

  lemma NewestIs<T>(m: map<nat, T>, t: nat)
    requires t in m && forall u :: u in m ==> u <= t
    ensures Newest(m) == Some(t)
  {
    assert Newest(m).value >= t;
  }

  /** The range scanned holds the entries of `key` in `ns` up to `t`, and nothing else. */
  ghost predicate Covers(data: Data, lo: Bytes, hi: Bytes, ns: byte, key: Bytes, t: int) {
    forall k :: k in data ==> (InRange(lo, k, hi) <==> Belongs(k, ns, key) && TsOf(k) <= t)
  }

  lemma VersionCovers(data: Data, ns: byte, key: Bytes, t: int)
    requires DataSound(data) && ValidKey(key) && ValidTs(t + 1)
    ensures Covers(data, Prefix(ns, key), Stored(ns, key, t + 1), ns, key, t)
  {
    forall k | k in data ensures InRange(Prefix(ns, key), k, Stored(ns, key, t + 1)) <==>
        Belongs(k, ns, key) && TsOf(k) <= t {
      VersionRange(k, ns, key, t);
    }
  }

  lemma WholeKeyCovers(data: Data, ns: byte, key: Bytes, t: int)
    requires DataSound(data) && ValidKey(key) && t >= MAX_TS
    ensures Covers(data, Prefix(ns, key), [ns] + (key + [1]), ns, key, t)
  {
    forall k | k in data ensures InRange(Prefix(ns, key), k, [ns] + (key + [1])) <==>
        Belongs(k, ns, key) && TsOf(k) <= t {
      WholeKeyRange(k, ns, key);
    }
  }

  lemma ScannedRow(data: Data, lo: Bytes, hi: Bytes, ns: byte, key: Bytes, t: int, rows: seq<(Bytes, Raw)>,
                   u: nat) returns (i: nat)
    requires DataSound(data) && Namespace(ns) && ValidKey(key)
    requires Covers(data, lo, hi, ns, key, t) && Scans(data, lo, hi, rows)
    requires u in AtMost(Chain(data, ns, key), t)
    ensures i < |rows| && Belongs(rows[i].0, ns, key) && TsOf(rows[i].0) == u
  {
    hide Chain, InRange, DataSound, Increasing;
    ChainAt(data, ns, key, u);
    SplitStored(ns, key, u);
    var k := Stored(ns, key, u);
    assert Lists(rows, k);
    i :| 0 <= i < |rows| && rows[i].0 == k;
  }

  lemma LastInChain(data: Data, lo: Bytes, hi: Bytes, ns: byte, key: Bytes, t: int, rows: seq<(Bytes, Raw)>)
    requires DataSound(data) && Namespace(ns) && ValidKey(key)
    requires Covers(data, lo, hi, ns, key, t) && Scans(data, lo, hi, rows) && rows != []
    ensures var (k, raw) := rows[|rows| - 1];
            var chain := AtMost(Chain(data, ns, key), t);
            Belongs(k, ns, key) && TsOf(k) in chain && chain[TsOf(k)] == raw
  {
    hide Chain, InRange, DataSound, Increasing;
    var k := rows[|rows| - 1].0;
    assert k in data && InRange(lo, k, hi);
    StoredSplit(k);
    ChainAt(data, ns, key, TsOf(k));
  }

  /** The last row of such a scan is the newest entry; there is none when there are no rows. */
  lemma LastIsNewest(data: Data, lo: Bytes, hi: Bytes, ns: byte, key: Bytes, t: int, rows: seq<(Bytes, Raw)>)
    requires DataSound(data) && Namespace(ns) && ValidKey(key)
    requires Covers(data, lo, hi, ns, key, t) && Scans(data, lo, hi, rows)
    ensures var chain := AtMost(Chain(data, ns, key), t);
            && (rows == [] <==> chain == map[])
            && (rows != [] ==>
                  var (k, raw) := rows[|rows| - 1];
                  Belongs(k, ns, key) && TsOf(k) in chain && chain[TsOf(k)] == raw && Newest(chain) == Some(TsOf(k)))
  {
    hide Chain, Covers, DataSound, InRange;
    var chain := AtMost(Chain(data, ns, key), t);
    if rows == [] {
      if u: nat :| u in chain {
        var i := ScannedRow(data, lo, hi, ns, key, t, rows, u);
      }
    } else {
      LastInChain(data, lo, hi, ns, key, t, rows);
      var last := |rows| - 1;
      var k := rows[last].0;
      forall u: nat | u in chain ensures u <= TsOf(k) {
        var i := ScannedRow(data, lo, hi, ns, key, t, rows, u);
        if i < last {
          StoredOrder(rows[i].0, k);
          LessIrreflexive(key);
        }
      }
      NewestIs(chain, TsOf(k));
    }
  }

  lemma WholeChain(data: Data, ns: byte, key: Bytes)
    ensures AtMost(Chain(data, ns, key), MAX_TS) == Chain(data, ns, key)
  {
  }

  // ---- the walk over a range ------------------------------------------------------

  /** `out` is every key of `keys` that has a version visible at `t`, in key order, with it. */
  ghost predicate Reports(out: seq<(Bytes, Bytes, nat)>, data: Data, t: int, keys: set<Bytes>) {
    && (forall i, j :: 0 <= i < j < |out| ==> Less(out[i].0, out[j].0))
    && (forall i :: 0 <= i < |out| ==>
          out[i].0 in keys && VisibleAt(RowIn(data, out[i].0), t) == Some((out[i].1, out[i].2)))
    && (forall k :: k in keys && VisibleAt(RowIn(data, k), t).Some? ==> Reported(out, k))
  }

  ghost predicate Reported(out: seq<(Bytes, Bytes, nat)>, k: Bytes) {
    exists i :: 0 <= i < |out| && out[i].0 == k
  }

  /** The rows of a range read: exactly the keys of the range with a visible version. */
  ghost predicate RangeRead(out: seq<(Bytes, Bytes, nat)>, data: Data, lo: Bytes, hi: Bytes, t: int) {
    && (forall i, j :: 0 <= i < j < |out| ==> Less(out[i].0, out[j].0))
    && (forall i :: 0 <= i < |out| ==>
          && ValidKey(out[i].0) && InRange(lo, out[i].0, hi)
          && VisibleAt(RowIn(data, out[i].0), t) == Some((out[i].1, out[i].2)))
    && (forall k :: ValidKey(k) && InRange(lo, k, hi) && VisibleAt(RowIn(data, k), t).Some? ==> Reported(out, k))
  }

  /** A newer version of a key decides what is visible, if it is not past the timestamp. */
  lemma VisibleExtends(row: Row, t0: nat, cell: Cell, t: int)
    requires forall u :: u in row.versions ==> u < t0
    ensures var after := row.(versions := row.versions[t0 := cell]);
            VisibleAt(after, t) ==
            if t0 > t then VisibleAt(row, t) else if cell.Tombstone? then None else Some((cell.bytes, t0))
  {
    var after := row.(versions := row.versions[t0 := cell]);
    if t0 > t {
      assert AtMost(after.versions, t) == AtMost(row.versions, t);
    } else {
      assert t0 in AtMost(after.versions, t);
      NewestIs(AtMost(after.versions, t), t0);
    }
  }

  lemma NothingVisible(row: Row, t: int)
    requires row.versions == map[]
    ensures VisibleAt(row, t) == None
  {
    assert AtMost(row.versions, t) == map[];
  }

  function Row3(k: Bytes, visible: Option<(Bytes, nat)>): seq<(Bytes, Bytes, nat)> {
    match visible
    case None => []
    case Some(v) => [(k, v.0, v.1)]
  }

  lemma FinishKey(out: seq<(Bytes, Bytes, nat)>, data: Data, t: int, keys: set<Bytes>, k: Bytes)
    requires Reports(out, data, t, keys) && forall d :: d in keys ==> Less(d, k)
    ensures Reports(out + Row3(k, VisibleAt(RowIn(data, k), t)), data, t, keys + {k})
  {
    hide VisibleAt, RowIn, Less;
    var more := out + Row3(k, VisibleAt(RowIn(data, k), t));
    forall d | d in keys + {k} && VisibleAt(RowIn(data, d), t).Some? ensures Reported(more, d) {
      if d in keys {
        assert Reported(out, d);
        var i :| 0 <= i < |out| && out[i].0 == d;
        assert more[i].0 == d;
      } else {
        assert more[|out|].0 == k;
      }
    }
  }

  lemma SeeMore(out: seq<(Bytes, Bytes, nat)>, seen: Data, t: int, keys: set<Bytes>, k: Bytes, raw: Raw)
    requires Reports(out, seen, t, keys) && Shaped(k) && k[0] == VERSION && KeyOf(k) !in keys
    requires forall d :: d in keys ==> ValidKey(d)
    ensures Reports(out, seen[k := raw], t, keys)
  {
    hide VisibleAt, RowIn, Less;
    forall d | d in keys ensures RowIn(seen[k := raw], d) == RowIn(seen, d) {
      SeenElsewhere(seen, k, raw, d);
    }
  }

  lemma SeenElsewhere(seen: Data, k: Bytes, raw: Raw, d: Bytes)
    requires Shaped(k) && k[0] == VERSION && KeyOf(k) != d && ValidKey(d)
    ensures RowIn(seen[k := raw], d) == RowIn(seen, d)
  {
    hide Chain;
    StoredSplit(k);
    ChainPut(seen, VERSION, KeyOf(k), TsOf(k), raw, VERSION, d);
    ChainPut(seen, VERSION, KeyOf(k), TsOf(k), raw, WRITE, d);
    ChainPut(seen, VERSION, KeyOf(k), TsOf(k), raw, LOCK, d);
  }

  /** What the next row of its own key makes of what is visible. */
  lemma SeeVersion(seen: Data, k: Bytes, raw: Raw, t: int)
    requires Shaped(k) && k[0] == VERSION
    requires forall l :: l in seen && Belongs(l, VERSION, KeyOf(k)) ==> Less(l, k)
    ensures var cell := DecodeCell(raw);
            VisibleAt(RowIn(seen[k := raw], KeyOf(k)), t) ==
            if TsOf(k) > t then VisibleAt(RowIn(seen, KeyOf(k)), t)
            else if cell.Tombstone? then None else Some((cell.bytes, TsOf(k)))
  {
    hide Chain, VisibleAt;
    var key := KeyOf(k);
    StoredSplit(k);
    ChainPut(seen, VERSION, key, TsOf(k), raw, VERSION, key);
    ChainPut(seen, VERSION, key, TsOf(k), raw, WRITE, key);
    ChainPut(seen, VERSION, key, TsOf(k), raw, LOCK, key);
    var row := RowIn(seen, key);
    forall u: nat | u in row.versions ensures u < TsOf(k) {
      ChainAt(seen, VERSION, key, u);
      SplitStored(VERSION, key, u);
      StoredOrder(Stored(VERSION, key, u), k);
      LessIrreflexive(key);
    }
    assert RowIn(seen[k := raw], key) == row.(versions := row.versions[TsOf(k) := DecodeCell(raw)]);
    VisibleExtends(row, TsOf(k), DecodeCell(raw), t);
  }

  lemma UnseenKey(seen: Data, key: Bytes, t: int)
    requires forall l :: l in seen ==> !Belongs(l, VERSION, key)
    ensures VisibleAt(RowIn(seen, key), t) == None
  {
    assert Chain(seen, VERSION, key) == map[];
    NothingVisible(RowIn(seen, key), t);
  }

  /** The walk has been over every version in the range. */
  lemma WalkedAll(out: seq<(Bytes, Bytes, nat)>, data: Data, seen: Data, lo: Bytes, hi: Bytes, t: int, keys: set<Bytes>)
    requires ValidKey(lo) && ValidKey(hi) && DataSound(data) && Reports(out, seen, t, keys)
    requires forall k :: k in data && InRange([VERSION] + lo, k, [VERSION] + hi) ==> k in seen
    requires forall k :: k in seen ==> k in data && seen[k] == data[k] && k[0] == VERSION && KeyOf(k) in keys
    requires forall k :: k in keys ==> ValidKey(k) && InRange(lo, k, hi)
    ensures RangeRead(out, data, lo, hi, t)
  {
    hide Chain, VisibleAt, Less;
    forall key | ValidKey(key) && InRange(lo, key, hi)
      ensures VisibleAt(RowIn(data, key), t) == VisibleAt(RowIn(seen, key), t)
      ensures VisibleAt(RowIn(data, key), t).Some? ==> key in keys
    {
      SameVersions(data, seen, lo, hi, key);
      SameVisible(RowIn(data, key), RowIn(seen, key), t);
      if key !in keys {
        UnseenKey(seen, key, t);
      }
    }
  }

  lemma SameVisible(a: Row, b: Row, t: int)
    requires a.versions == b.versions
    ensures VisibleAt(a, t) == VisibleAt(b, t)
  {
  }

  lemma SameVersions(data: Data, seen: Data, lo: Bytes, hi: Bytes, key: Bytes)
    requires ValidKey(lo) && ValidKey(hi) && DataSound(data) && ValidKey(key) && InRange(lo, key, hi)
    requires forall k :: k in data && InRange([VERSION] + lo, k, [VERSION] + hi) ==> k in seen
    requires forall k :: k in seen ==> k in data && seen[k] == data[k]
    ensures RowIn(data, key).versions == RowIn(seen, key).versions
  {
    hide Chain, Less;
    var c, d := Chain(seen, VERSION, key), Chain(data, VERSION, key);
    forall u: nat ensures u in c <==> u in d
                  ensures u in d ==> c[u] == d[u] {
      ChainAt(data, VERSION, key, u);
      ChainAt(seen, VERSION, key, u);
      if ValidTs(u) {
        SplitStored(VERSION, key, u);
        KeyRange(Stored(VERSION, key, u), VERSION, lo, hi);
      }
    }
    assert c == d;
  }
}
