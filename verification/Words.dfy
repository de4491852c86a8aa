// Byte strings as numbers: big-endian words and their order.
module Words {
  import opened Lanes

  type Bytes = seq<Byte>

  function Pow256(n: nat): (p: nat)
    ensures p > 0
  {
    if n == 0 then 1 else 256 * Pow256(n - 1)
  }

  function ValueOf(b: Byte): (v: nat)
    ensures v < 256
  {
    b as nat
  }

  // The byte of a given value, counted up to.
  function ByteFor(v: nat): (b: Byte)
    requires v < 256
    ensures ValueOf(b) == v
  {
    if v == 0 then 0 else ByteFor(v - 1) + 1
  }

  // The value of a big-endian byte string.
  function BigEndian(b: Bytes): nat {
    if b == [] then 0 else 256 * BigEndian(b[..|b| - 1]) + ValueOf(b[|b| - 1])
  }

  // The low n bytes of a value, most significant first.
  function ToBytes(value: nat, n: nat): (b: Bytes)
    ensures |b| == n
  {
    if n == 0 then [] else ToBytes(value / 256, n - 1) + [ByteFor(value % 256)]
  }

  // Byte strings are compared as the builder's language does: at the first
  // difference, a proper prefix being less.
  predicate LexLess(a: Bytes, b: Bytes) {
    if b == [] then false
    else if a == [] then true
    else if a[0] != b[0] then a[0] < b[0]
    else LexLess(a[1..], b[1..])
  }

  // ---- values and bytes ----

  lemma ByteOrder(x: Byte, y: Byte)
    ensures x < y <==> ValueOf(x) < ValueOf(y)
  {
  }

  lemma ZeroByte()
    ensures ValueOf(0) == 0
  {
  }

  lemma ByteInjective(x: Byte, y: Byte)
    requires ValueOf(x) == ValueOf(y)
    ensures x == y
  {
  }

  lemma {:induction false} BigEndianBound(b: Bytes)
    ensures BigEndian(b) < Pow256(|b|)
  {
    if b != [] {
      BigEndianBound(b[..|b| - 1]);
    }
  }

  lemma {:induction false} ToBytesValue(value: nat, n: nat)
    requires value < Pow256(n)
    ensures BigEndian(ToBytes(value, n)) == value
  {
    hide ValueOf, ByteFor;
    if n > 0 {
      ToBytesValue(value / 256, n - 1);
      var b := ToBytes(value, n);
      assert b[..n - 1] == ToBytes(value / 256, n - 1);
    }
  }

  lemma {:induction false} BigEndianBytes(b: Bytes, n: nat)
    requires |b| <= n
    ensures ToBytes(BigEndian(b), n) == seq(n - |b|, i => 0) + b
  {
    hide ValueOf, ByteFor;
    if n > 0 {
      if b == [] {
        ZeroByte();
        ByteInjective(ByteFor(0), 0);
        BigEndianBytes(b, n - 1);
        assert seq(n, i => 0) == seq(n - 1, i => 0) + [0 as Byte];
      } else {
        BigEndianBytes(b[..|b| - 1], n - 1);
        ByteInjective(ByteFor(BigEndian(b) % 256), b[|b| - 1]);
        assert b == b[..|b| - 1] + [b[|b| - 1]];
      }
    }
  }

  lemma {:induction false} ValueInjective(a: Bytes, b: Bytes)
    requires |a| == |b| && BigEndian(a) == BigEndian(b)
    ensures a == b
  {
    BigEndianBytes(a, |a|);
    BigEndianBytes(b, |b|);
    assert [] + a == a && [] + b == b;
  }

  // ---- the order of equally long strings is the order of their values ----

  lemma {:induction false} BigEndianHead(b: Bytes)
    requires b != []
    ensures BigEndian(b) == ValueOf(b[0]) * Pow256(|b| - 1) + BigEndian(b[1..])
  {
    hide ValueOf, BigEndian;
    var last := |b| - 1;
    BigEndianLast(b);
    if last == 0 {
      NoBytes(b[..last]);
      NoBytes(b[1..]);
    } else {
      BigEndianHead(b[..last]);
      BigEndianLast(b[1..]);
      assert b[..last][1..] == b[1..][..last - 1];
      var h, p := ValueOf(b[0]), Pow256(last - 1);
      assert 256 * (h * p) == h * (256 * p);
    }
  }

  lemma BigEndianLast(b: Bytes)
    requires b != []
    ensures BigEndian(b) == 256 * BigEndian(b[..|b| - 1]) + ValueOf(b[|b| - 1])
  {
  }

  lemma NoBytes(b: Bytes)
    requires b == []
    ensures BigEndian(b) == 0
  {
  }

  lemma HeadDecides(h: nat, k: nat, p: nat, x: nat, y: nat)
    requires x < p && y < p
    ensures h * p + x < k * p + y <==> h < k || (h == k && x < y)
  {
    if h < k {
      assert (h + 1) * p <= k * p;
    } else if k < h {
      assert (k + 1) * p <= h * p;
    }
  }

  lemma {:induction false} LexIsNumeric(a: Bytes, b: Bytes)
    requires |a| == |b|
    ensures LexLess(a, b) <==> BigEndian(a) < BigEndian(b)
  {
    hide ValueOf, BigEndian, Pow256;
    if a != [] {
      BigEndianHead(a);
      BigEndianHead(b);
      BigEndianBound(a[1..]);
      BigEndianBound(b[1..]);
      LexIsNumeric(a[1..], b[1..]);
      HeadsCompare(a[0], b[0]);
      HeadDecides(ValueOf(a[0]), ValueOf(b[0]), Pow256(|a| - 1), BigEndian(a[1..]), BigEndian(b[1..]));
    }
  }

  lemma HeadsCompare(x: Byte, y: Byte)
    ensures x < y <==> ValueOf(x) < ValueOf(y)
    ensures x == y <==> ValueOf(x) == ValueOf(y)
  {
    ByteOrder(x, y);
    if ValueOf(x) == ValueOf(y) { ByteInjective(x, y); }
  }
}
