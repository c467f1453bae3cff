/** Bytes. */
module Octets {
  newtype Byte = x: int | 0 <= x < 0x100

  type Bytes = seq<Byte>
}

/** Fixed-width integers in memory. */
module Endian {
  import opened Octets

  function Little(b: Bytes): nat {
    if b == [] then 0 else (b[0] as nat) + 0x100 * Little(b[1..])
  }

  function Big(b: Bytes): nat {
    if b == [] then 0 else 0x100 * Big(b[..|b| - 1]) + (b[|b| - 1] as nat)
  }

  function ToLittle(n: nat, width: nat): (b: Bytes)
    ensures |b| == width
  {
    if width == 0 then [] else [(n % 0x100) as Byte] + ToLittle(n / 0x100, width - 1)
  }

  function ToBig(n: nat, width: nat): (b: Bytes)
    ensures |b| == width
  {
    if width == 0 then [] else ToBig(n / 0x100, width - 1) + [(n % 0x100) as Byte]
  }

  /** 256 to the power `width`. */
  function Limit(width: nat): nat {
    if width == 0 then 1 else 0x100 * Limit(width - 1)
  }

  lemma {:induction false} LittleRoundTrip(n: nat, width: nat)
    requires n < Limit(width)
    ensures Little(ToLittle(n, width)) == n
  {
    if width > 0 {
      LittleRoundTrip(n / 0x100, width - 1);
      assert ToLittle(n, width)[1..] == ToLittle(n / 0x100, width - 1);
    }
  }

  lemma {:induction false} BigRoundTrip(n: nat, width: nat)
    requires n < Limit(width)
    ensures Big(ToBig(n, width)) == n
  {
    if width > 0 {
      BigRoundTrip(n / 0x100, width - 1);
      var b := ToBig(n, width);
      assert b[..|b| - 1] == ToBig(n / 0x100, width - 1);
    }
  }

  lemma {:induction false} LittleInverse(b: Bytes)
    ensures Little(b) < Limit(|b|) && ToLittle(Little(b), |b|) == b
  {
    if b != [] {
      LittleInverse(b[1..]);
      var low, high := b[0] as nat, Little(b[1..]);
      assert Little(b) == low + 0x100 * high && Little(b) % 0x100 == low && Little(b) / 0x100 == high;
      assert b == [b[0]] + b[1..];
    }
  }

  lemma {:induction false} BigInverse(b: Bytes)
    ensures Big(b) < Limit(|b|) && ToBig(Big(b), |b|) == b
  {
    if b != [] {
      var k := |b| - 1;
      BigInverse(b[..k]);
      var low, high := b[k] as nat, Big(b[..k]);
      assert Big(b) == 0x100 * high + low && Big(b) % 0x100 == low && Big(b) / 0x100 == high;
      assert b == b[..k] + [b[k]];
    }
  }

  lemma Limits()
    ensures Limit(2) == 0x1_0000 && Limit(4) == 0x1_0000_0000 && Limit(6) == 0x1_0000_0000_0000
  {
    assert Limit(2) == 0x100 * Limit(1) && Limit(1) == 0x100 * Limit(0);
    assert Limit(4) == 0x100 * Limit(3) && Limit(3) == 0x100 * Limit(2);
    assert Limit(6) == 0x100 * Limit(5) && Limit(5) == 0x100 * Limit(4);
  }
}
