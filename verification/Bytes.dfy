/** Bytes and little-endian numbers. */
module Bytes {
  type Byte = x: int | 0 <= x < 256

  const TWO16 := 0x1_0000
  const TWO32 := 0x1_0000_0000
  const TWO48 := 0x1_0000_0000_0000
  const TWO64 := 0x1_0000_0000_0000_0000

  function Pow256(n: nat): (p: nat)
    ensures p > 0
  {
    if n == 0 then 1 else 256 * Pow256(n - 1)
  }

  /** The number whose bytes, least significant first, are x. */
  function Number(x: seq<Byte>): (v: nat)
    ensures v < Pow256(|x|)
  {
    if x == [] then 0 else x[0] + 256 * Number(x[1..])
  }

  /** The n low bytes of v, least significant first. */
  function Digits(v: nat, n: nat): (x: seq<Byte>)
    ensures |x| == n
    decreases n
  {
    if n == 0 then [] else [v % 256] + Digits(v / 256, n - 1)
  }

  lemma {:induction false} NumberOfDigits(v: nat, n: nat)
    requires v < Pow256(n)
    ensures Number(Digits(v, n)) == v
    decreases n
  {
    if n > 0 {
      assert v / 256 < Pow256(n - 1);
      NumberOfDigits(v / 256, n - 1);
      assert Digits(v, n)[1..] == Digits(v / 256, n - 1);
    }
  }

  lemma Powers()
    ensures Pow256(2) == TWO16 && Pow256(4) == TWO32 && Pow256(6) == TWO48 && Pow256(8) == TWO64
    ensures Pow256(1) == 256 && Pow256(7) == 0x100_0000_0000_0000
  {
    assert Pow256(3) == 256 * Pow256(2);
    assert Pow256(5) == 256 * Pow256(4);
    assert Pow256(7) == 256 * Pow256(6);
  }

  lemma NumberOfEight(x: seq<Byte>)
    requires |x| == 8
    ensures Number(x) == x[0] as nat + x[1] as nat * 0x100 + x[2] as nat * 0x1_0000 + x[3] as nat * 0x100_0000
                         + x[4] as nat * 0x1_0000_0000 + x[5] as nat * 0x100_0000_0000
                         + x[6] as nat * 0x1_0000_0000_0000 + x[7] as nat * 0x100_0000_0000_0000
  {
    var x1, x2, x3, x4 := x[1..], x[2..], x[3..], x[4..];
    var x5, x6, x7, x8 := x[5..], x[6..], x[7..], x[8..];
    assert x1[1..] == x2 && x2[1..] == x3 && x3[1..] == x4 && x4[1..] == x5 && x5[1..] == x6 && x6[1..] == x7;
    assert x7[1..] == x8 == [];
    assert Number(x) == x[0] + 256 * Number(x1);
    assert Number(x1) == x[1] + 256 * Number(x2);
    assert Number(x2) == x[2] + 256 * Number(x3);
    assert Number(x3) == x[3] + 256 * Number(x4);
    assert Number(x4) == x[4] + 256 * Number(x5);
    assert Number(x5) == x[5] + 256 * Number(x6);
    assert Number(x6) == x[6] + 256 * Number(x7);
    assert Number(x7) == x[7];
  }

  function Concat(chunks: seq<seq<Byte>>): seq<Byte> {
    if chunks == [] then [] else chunks[0] + Concat(chunks[1..])
  }
}
