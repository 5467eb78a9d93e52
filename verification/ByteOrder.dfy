/** Byte strings in the order the engines keep them, and the codec that lays keys and
    timestamps out so that this order is the order of the pairs. */
module ByteOrder {
  import opened Common

  /** Plain byte comparison, shorter prefix first. */
  predicate Less(a: Bytes, b: Bytes) {
    if a == [] then b != []
    else b != [] && (a[0] < b[0] || (a[0] == b[0] && Less(a[1..], b[1..])))
  }

  predicate InRange(lo: Bytes, key: Bytes, hi: Bytes) { !Less(key, lo) && Less(key, hi) }

  lemma {:induction false} LessIrreflexive(a: Bytes)
    ensures !Less(a, a)
  {
    if a != [] { LessIrreflexive(a[1..]); }
  }

  lemma {:induction false} LessTotal(a: Bytes, b: Bytes)
    ensures Less(a, b) || a == b || Less(b, a)
  {
    if a != [] && b != [] && a[0] == b[0] {
      LessTotal(a[1..], b[1..]);
      assert a == [a[0]] + a[1..] && b == [b[0]] + b[1..];
    }
  }

  lemma {:induction false} LessTransitive(a: Bytes, b: Bytes, c: Bytes)
    requires Less(a, b) && Less(b, c)
    ensures Less(a, c)
  {
    if a != [] && a[0] == b[0] && b[0] == c[0] {
      LessTransitive(a[1..], b[1..], c[1..]);
    }
  }

  lemma LessAsymmetric(a: Bytes, b: Bytes)
    requires Less(a, b)
    ensures !Less(b, a) && a != b
  {
    LessIrreflexive(a);
    if Less(b, a) {
      LessTransitive(a, b, a);
    }
  }

  // ---- numbers in eight bytes -----------------------------------------------------

  function Power(w: nat): nat {
    if w == 0 then 1 else 256 * Power(w - 1)
  }

  /** `n` in `w` bytes, most significant first. */
  function BigEndian(n: nat, w: nat): (r: Bytes)
    ensures |r| == w
  {
    if w == 0 then [] else BigEndian(n / 256, w - 1) + [(n % 256) as byte]
  }

  function FromBytes(b: Bytes): nat {
    if b == [] then 0 else 256 * FromBytes(b[..|b| - 1]) + b[|b| - 1] as nat
  }

  lemma {:induction false} BigEndianBack(n: nat, w: nat)
    requires n < Power(w)
    ensures FromBytes(BigEndian(n, w)) == n
  {
    if w > 0 {
      BigEndianBack(n / 256, w - 1);
      var b := BigEndian(n, w);
      assert b[..w - 1] == BigEndian(n / 256, w - 1);
    }
  }

  lemma {:induction false} FromBytesFits(b: Bytes)
    ensures FromBytes(b) < Power(|b|)
    ensures BigEndian(FromBytes(b), |b|) == b
  {
    if b != [] {
      var front, d := b[..|b| - 1], b[|b| - 1];
      FromBytesFits(front);
      assert FromBytes(b) / 256 == FromBytes(front) && FromBytes(b) % 256 == d as nat;
      assert b == front + [d];
    }
  }

  lemma {:induction false} LastByteDecides(a: Bytes, b: Bytes, x: byte, y: byte)
    requires |a| == |b|
    ensures Less(a + [x], b + [y]) <==> Less(a, b) || (a == b && x < y)
  {
    if a == [] {
      assert b == [] && a + [x] == [x] && b + [y] == [y];
    } else {
      LastByteDecides(a[1..], b[1..], x, y);
      assert (a + [x])[1..] == a[1..] + [x] && (b + [y])[1..] == b[1..] + [y];
      assert a == [a[0]] + a[1..] && b == [b[0]] + b[1..];
    }
  }

  /** The order of the encoded numbers is the order of the numbers. */
  lemma {:induction false} BigEndianOrder(m: nat, n: nat, w: nat)
    requires m < Power(w) && n < Power(w)
    ensures Less(BigEndian(m, w), BigEndian(n, w)) <==> m < n
    ensures BigEndian(m, w) == BigEndian(n, w) <==> m == n
  {
    BigEndianBack(m, w);
    BigEndianBack(n, w);
    if w > 0 {
      BigEndianOrder(m / 256, n / 256, w - 1);
      LastByteDecides(BigEndian(m / 256, w - 1), BigEndian(n / 256, w - 1), (m % 256) as byte, (n % 256) as byte);
    }
  }

  lemma EightBytes()
    ensures Power(8) == 0x1_0000_0000_0000_0000
  {
    assert Power(2) == 0x1_0000;
    assert Power(4) == 0x1_0000_0000 by { assert Power(3) == 256 * Power(2); }
    assert Power(6) == 0x1_0000_0000_0000 by { assert Power(5) == 256 * Power(4); }
    assert Power(7) == 256 * Power(6);
  }

  // ---- a separator no key contains ------------------------------------------------

  /** With a zero byte after each key, and no zero byte in one, whole entries compare as their
      keys do, and entries of one key as what follows it. */
  lemma {:induction false} SeparatorOrder(k: Bytes, l: Bytes, x: Bytes, y: Bytes)
    requires 0 !in k && 0 !in l
    ensures Less(k + [0] + x, l + [0] + y) <==> Less(k, l) || (k == l && Less(x, y))
  {
    var a, b := k + [0] + x, l + [0] + y;
    if k == [] {
      assert a == [0] + x;
      if l == [] {
        assert b == [0] + y;
        assert a[1..] == x && b[1..] == y;
      } else {
        assert b[0] == l[0] && l[0] in l;
      }
    } else if l == [] {
      assert b == [0] + y && a[0] == k[0] && k[0] in k;
    } else {
      assert a[0] == k[0] && b[0] == l[0];
      assert a[1..] == k[1..] + [0] + x && b[1..] == l[1..] + [0] + y;
      SeparatorOrder(k[1..], l[1..], x, y);
      assert k == [k[0]] + k[1..] && l == [l[0]] + l[1..];
    }
  }

  /** A key used as a bound of a range cuts between keys, never inside one key's entries. */
  lemma {:induction false} BoundOrder(k: Bytes, b: Bytes, x: Bytes)
    requires 0 !in k && 0 !in b
    ensures Less(k + [0] + x, b) <==> Less(k, b)
  {
    var a := k + [0] + x;
    if k == [] {
      assert a == [0] + x;
      if b != [] { assert b[0] in b; }
    } else if b != [] {
      assert a[0] == k[0] && a[1..] == k[1..] + [0] + x;
      BoundOrder(k[1..], b[1..], x);
    }
  }

  /** A key followed by a one byte is the tightest bound over that key's entries. */
  lemma {:induction false} UpperBoundOrder(k: Bytes, b: Bytes, x: Bytes)
    requires 0 !in k && 0 !in b
    ensures Less(k + [0] + x, b + [1]) <==> Less(k, b) || k == b
  {
    var a, u := k + [0] + x, b + [1];
    if k == [] {
      assert a == [0] + x;
      if b != [] { assert b[0] in b && u[0] == b[0]; }
    } else {
      assert a[0] == k[0] && k[0] in k && a[1..] == k[1..] + [0] + x;
      if b == [] {
        assert u == [1] && u[1..] == [];
      } else {
        assert u[0] == b[0] && u[1..] == b[1..] + [1];
        UpperBoundOrder(k[1..], b[1..], x);
        assert k == [k[0]] + k[1..] && b == [b[0]] + b[1..];
      }
    }
  }

  lemma SharedHead(h: byte, a: Bytes, b: Bytes)
    ensures Less([h] + a, [h] + b) <==> Less(a, b)
  {
    assert ([h] + a)[1..] == a && ([h] + b)[1..] == b;
  }
}
