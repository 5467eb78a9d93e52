/** The in-memory engine: a dictionary, scanned in byte order. */
module Engine {
  import opened Common
  import opened ByteOrder

  ghost predicate Increasing<V>(rows: seq<(Bytes, V)>) {
    forall i, j :: 0 <= i < j < |rows| ==> Less(rows[i].0, rows[j].0)
  }

  ghost predicate Lists<V>(rows: seq<(Bytes, V)>, k: Bytes) {
    exists i :: 0 <= i < |rows| && rows[i].0 == k
  }

  /** `rows` is what `data` holds at those of `keys` between `lo` and `hi`, in key order. */
  ghost predicate ScansOf<V>(data: map<Bytes, V>, keys: set<Bytes>, lo: Bytes, hi: Bytes, rows: seq<(Bytes, V)>) {
    && Increasing(rows)
    && (forall i :: 0 <= i < |rows| ==>
          rows[i].0 in data && rows[i].0 in keys && rows[i].1 == data[rows[i].0] && InRange(lo, rows[i].0, hi))
    && (forall k :: k in data && k in keys && InRange(lo, k, hi) ==> Lists(rows, k))
  }

  /** `rows` is what `data` holds between `lo` and `hi`, in key order. */
  ghost predicate Scans<V>(data: map<Bytes, V>, lo: Bytes, hi: Bytes, rows: seq<(Bytes, V)>) {
    ScansOf(data, data.Keys, lo, hi, rows)
  }

  function Position<V>(rows: seq<(Bytes, V)>, k: Bytes): (i: nat)
    ensures i <= |rows|
    ensures forall j :: 0 <= j < i ==> Less(rows[j].0, k)
    ensures i < |rows| ==> !Less(rows[i].0, k)
  {
    if rows == [] || !Less(rows[0].0, k) then 0 else 1 + Position(rows[1..], k)
  }

  /** `rows` with the row of `k` put in its place. */
  function Inserted<V>(rows: seq<(Bytes, V)>, k: Bytes, v: V): (all: seq<(Bytes, V)>)
    ensures |all| == |rows| + 1
    ensures var p := Position(rows, k);
            forall i :: 0 <= i < |all| ==> all[i] == if i < p then rows[i] else if i == p then (k, v) else rows[i - 1]
  {
    var p := Position(rows, k);
    rows[..p] + [(k, v)] + rows[p..]
  }

  lemma InsertKeepsOrder<V>(rows: seq<(Bytes, V)>, k: Bytes, v: V)
    requires Increasing(rows) && forall i :: 0 <= i < |rows| ==> rows[i].0 != k
    ensures Increasing(Inserted(rows, k, v))
  {
    var p := Position(rows, k);
    forall j | p <= j < |rows| ensures Less(k, rows[j].0) {
      LessTotal(rows[p].0, k);
      if p < j { LessTransitive(k, rows[p].0, rows[j].0); }
    }
  }

  lemma InsertLists<V>(rows: seq<(Bytes, V)>, k: Bytes, v: V, l: Bytes)
    requires Lists(rows, l) || l == k
    ensures Lists(Inserted(rows, k, v), l)
  {
    var p, all := Position(rows, k), Inserted(rows, k, v);
    if l == k {
      assert all[p].0 == l;
    } else {
      var i :| 0 <= i < |rows| && rows[i].0 == l;
      assert all[if i < p then i else i + 1].0 == l;
    }
  }

  lemma InsertScans<V>(data: map<Bytes, V>, keys: set<Bytes>, lo: Bytes, hi: Bytes, rows: seq<(Bytes, V)>, k: Bytes)
    requires ScansOf(data, keys, lo, hi, rows) && k in data && k !in keys && InRange(lo, k, hi)
    ensures ScansOf(data, keys + {k}, lo, hi, Inserted(rows, k, data[k]))
  {
    hide InRange, Increasing, Lists;
    InsertKeepsOrder(rows, k, data[k]);
    forall l | l in data && l in keys + {k} && InRange(lo, l, hi) ensures Lists(Inserted(rows, k, data[k]), l) {
      InsertLists(rows, k, data[k], l);
    }
  }

  class MemoryEngine<V> {
    var data: map<Bytes, V>

    constructor ()
      ensures data == map[]
    {
      data := map[];
    }

    method Put(key: Bytes, value: V)
      modifies this
      ensures data == old(data)[key := value]
    {
      data := data[key := value];
    }

    method Get(key: Bytes) returns (value: Option<V>)
      ensures value == if key in data then Some(data[key]) else None
    {
      value := if key in data then Some(data[key]) else None;
    }

    method Delete(key: Bytes)
      modifies this
      ensures data == old(data) - {key}
    {
      data := data - {key};
    }

    /** Everything from `lo` up to, and not including, `hi` goes, and nothing else. */
    method DeleteRange(lo: Bytes, hi: Bytes)
      modifies this
      ensures data == map k | k in old(data) && !InRange(lo, k, hi) :: old(data)[k]
    {
      var rest := data.Keys;
      while rest != {}
        invariant rest <= old(data).Keys
        invariant data == map k | k in old(data) && (k in rest || !InRange(lo, k, hi)) :: old(data)[k]
        decreases |rest|
      {
        var k :| k in rest;
        if InRange(lo, k, hi) {
          data := data - {k};
        }
        rest := rest - {k};
      }
    }

    method Scan(lo: Bytes, hi: Bytes) returns (rows: seq<(Bytes, V)>)
      ensures Scans(data, lo, hi, rows)
    {
      rows := [];
      var rest := data.Keys;
      while rest != {}
        invariant rest <= data.Keys
        invariant ScansOf(data, data.Keys - rest, lo, hi, rows)
        decreases |rest|
      {
        var k :| k in rest;
        ghost var seen := data.Keys - rest;
        if InRange(lo, k, hi) {
          InsertScans(data, seen, lo, hi, rows, k);
          rows := Inserted(rows, k, data[k]);
        }
        rest := rest - {k};
        assert data.Keys - rest == seen + {k};
      }
      assert data.Keys - rest == data.Keys;
    }

    method PutBatch(items: seq<(Bytes, V)>)
      modifies this
      ensures data == Overlaid(old(data), items)
    {
      var i := 0;
      while i < |items|
        invariant 0 <= i <= |items|
        invariant data == Overlaid(old(data), items[..i])
      {
        data := data[items[i].0 := items[i].1];
        assert items[..i + 1] == items[..i] + [items[i]];
        i := i + 1;
      }
      assert items[..i] == items;
    }
  }

  /** `data` with `items` put into it one after another. */
  function Overlaid<V>(data: map<Bytes, V>, items: seq<(Bytes, V)>): map<Bytes, V> {
    if items == [] then data
    else Overlaid(data, items[..|items| - 1])[items[|items| - 1].0 := items[|items| - 1].1]
  }
}
