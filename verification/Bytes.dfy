/** Big-endian unsigned integers, as encoding/binary writes and reads them. */
module Bytes {

  type byte = x: int | 0 <= x < 256

  /** 256 to the power n: the number of values that n bytes can hold. */
  function Pow256(n: nat): (p: nat)
    ensures p > 0
  {
    if n == 0 then 1 else 256 * Pow256(n - 1)
  }

  /** The value of a big-endian byte string. */
  function FromBE(bs: seq<byte>): nat {
    if |bs| == 0 then 0 else 256 * FromBE(bs[..|bs| - 1]) + bs[|bs| - 1]
  }

  /** The low n bytes of v, most significant first. */
  function ToBE(v: nat, n: nat): (bs: seq<byte>)
    ensures |bs| == n
  {
    if n == 0 then [] else ToBE(v / 256, n - 1) + [v % 256]
  }

  lemma AtLeast(m: nat, d: int)
    requires d >= 1
    ensures m * d >= m
  {
    assert m * d == m + m * (d - 1);
  }

  lemma ModUnique(v: nat, m: nat, q: nat, r: nat)
    requires m > 0 && v == m * q + r && r < m
    ensures v / m == q && v % m == r
  {
    var q', r' := v / m, v % m;
    var d := q - q';
    assert m * d == r' - r by {
      assert m * d == m * q - m * q';
    }
    if d >= 1 {
      AtLeast(m, d);
    } else if d <= -1 {
      AtLeast(m, -d);
    }
  }

  lemma {:induction false} ModSplit(v: nat, p: nat)
    requires p > 0
    ensures 256 * (v / 256 % p) + v % 256 == v % (256 * p)
  {
    var q, r := v / 256, v % 256;
    var a, b := q / p, q % p;
    assert v == (256 * p) * a + (256 * b + r) by {
      assert q == p * a + b;
      assert 256 * (p * a) == (256 * p) * a;
    }
    ModUnique(v, 256 * p, a, 256 * b + r);
  }

  /** Reading back n written bytes gives the value modulo 256^n. */
  lemma {:induction false} FromTo(v: nat, n: nat)
    ensures FromBE(ToBE(v, n)) == v % Pow256(n)
  {
    if n > 0 {
      FromTo(v / 256, n - 1);
      var bs := ToBE(v, n);
      assert bs[..|bs| - 1] == ToBE(v / 256, n - 1);
      ModSplit(v, Pow256(n - 1));
    }
  }

  lemma {:induction false} FromBound(bs: seq<byte>)
    ensures FromBE(bs) < Pow256(|bs|)
  {
    if |bs| > 0 {
      FromBound(bs[..|bs| - 1]);
    }
  }

  /** Writing back a read value gives the same bytes. */
  lemma {:induction false} ToFrom(bs: seq<byte>)
    ensures ToBE(FromBE(bs), |bs|) == bs
  {
    if |bs| > 0 {
      var init, last := bs[..|bs| - 1], bs[|bs| - 1];
      ToFrom(init);
      var v := FromBE(bs);
      assert v / 256 == FromBE(init) && v % 256 == last;
      assert bs == init + [last];
    }
  }

  /** Byte i of n written ones has weight 256^(n-1-i): the first is the most significant. */
  lemma {:induction false} ToBEAt(v: nat, n: nat, i: nat)
    requires i < n
    ensures ToBE(v, n)[i] == v / Pow256(n - 1 - i) % 256
    decreases n
  {
    if i < n - 1 {
      ToBEAt(v / 256, n - 1, i);
      DivDiv(v, Pow256(n - 2 - i));
    }
  }

  lemma DivDiv(v: nat, p: nat)
    requires p > 0
    ensures v / 256 / p == v / (256 * p)
  {
    var q := v / 256;
    assert v == (256 * p) * (q / p) + (256 * (q % p) + v % 256) by {
      assert q == p * (q / p) + q % p;
      assert 256 * (p * (q / p)) == (256 * p) * (q / p);
    }
    ModUnique(v, 256 * p, q / p, 256 * (q % p) + v % 256);
  }

  /** And it is read with that weight. */
  lemma {:induction false} FromBEFirst(first: byte, rest: seq<byte>)
    ensures FromBE([first] + rest) == first * Pow256(|rest|) + FromBE(rest)
    decreases |rest|
  {
    if |rest| == 0 {
      assert [first] + rest == [first] && FromBE([]) == 0;
    } else {
      var init, last := rest[..|rest| - 1], rest[|rest| - 1];
      FromBEFirst(first, init);
      assert ([first] + rest)[..|rest|] == [first] + init;
      assert 256 * (first * Pow256(|init|)) == first * (256 * Pow256(|init|));
    }
  }

  /** A value that fits is read back unchanged. */
  lemma {:induction false} FromToFits(v: nat, n: nat)
    requires v < Pow256(n)
    ensures FromBE(ToBE(v, n)) == v
  {
    FromTo(v, n);
    ModUnique(v, Pow256(n), 0, v);
  }

  lemma Widths()
    ensures Pow256(2) == 0x1_0000
    ensures Pow256(4) == 0x1_0000_0000
    ensures Pow256(8) == 0x1_0000_0000_0000_0000
  {
    assert Pow256(1) == 256;
    assert Pow256(3) == 256 * Pow256(2);
    assert Pow256(5) == 256 * Pow256(4);
    assert Pow256(6) == 256 * Pow256(5);
    assert Pow256(7) == 256 * Pow256(6);
  }

  /** Fills b[off..off+n] in place, least significant byte last. */
  method PutUint(b: array<byte>, off: nat, n: nat, v: nat)
    requires off + n <= b.Length
    modifies b
    ensures b[..] == old(b[..off]) + ToBE(v, n) + old(b[off + n..])
  {
    var x, i := v, n;
    while i > 0
      invariant 0 <= i <= n
      invariant ToBE(v, n) == ToBE(x, i) + b[off + i..off + n]
      invariant b[..off] == old(b[..off]) && b[off + n..] == old(b[off + n..])
    {
      ghost var tail := b[off + i..off + n];
      i := i - 1;
      b[off + i] := x % 256;
      assert b[off + i..off + n] == [x % 256] + tail;
      x := x / 256;
    }
    assert b[..] == b[..off] + b[off..off + n] + b[off + n..];
  }
}
