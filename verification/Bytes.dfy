/** Bytes and fixed-width integers in both byte orders. */
module Bytes {
  import opened Division

  newtype byte = x: int | 0 <= x < 256

  function Power(k: nat): (p: nat)
    ensures p > 0
  {
    if k == 0 then 1 else 256 * Power(k - 1)
  }

  /** The low k bytes of n, least significant first. */
  function ToLe(n: nat, k: nat): (s: seq<byte>)
    ensures |s| == k
    decreases k
  {
    if k == 0 then [] else [(n % 256) as byte] + ToLe(n / 256, k - 1)
  }

  function FromLe(s: seq<byte>): nat {
    if s == [] then 0 else s[0] as nat + 256 * FromLe(s[1..])
  }

  /** The low k bytes of n, most significant first. */
  function ToBe(n: nat, k: nat): (s: seq<byte>)
    ensures |s| == k
    decreases k
  {
    if k == 0 then [] else ToBe(n / 256, k - 1) + [(n % 256) as byte]
  }

  function FromBe(s: seq<byte>): nat {
    if s == [] then 0 else 256 * FromBe(s[..|s| - 1]) + s[|s| - 1] as nat
  }

  lemma {:induction false} LeRoundTrip(n: nat, k: nat)
    requires n < Power(k)
    ensures FromLe(ToLe(n, k)) == n
    decreases k
  {
    if k > 0 {
      LeRoundTrip(n / 256, k - 1);
      assert ToLe(n, k)[1..] == ToLe(n / 256, k - 1);
    }
  }

  lemma {:induction false} LeBytesBack(s: seq<byte>)
    ensures ToLe(FromLe(s), |s|) == s && FromLe(s) < Power(|s|)
  {
    if s != [] {
      LeBytesBack(s[1..]);
      assert FromLe(s) % 256 == s[0] as nat && FromLe(s) / 256 == FromLe(s[1..]);
      assert s == [s[0]] + s[1..];
    }
  }

  lemma {:induction false} BeRoundTrip(n: nat, k: nat)
    requires n < Power(k)
    ensures FromBe(ToBe(n, k)) == n
    decreases k
  {
    if k > 0 {
      BeRoundTrip(n / 256, k - 1);
      assert ToBe(n, k)[..k - 1] == ToBe(n / 256, k - 1);
    }
  }

  lemma Widths()
    ensures Power(4) == 0x1_0000_0000 && Power(8) == 0x1_0000_0000_0000_0000
  {
    assert Power(2) == 65536;
    assert Power(4) == 65536 * 65536;
    assert Power(6) == 65536 * 65536 * 65536;
  }

  // ---------- byte order ----------

  lemma DivTwice(n: nat, b: nat)
    requires b > 0
    ensures n / 256 / b == n / (256 * b)
  {
    var m := n / 256;
    var q, s := m / b, m % b;
    assert m == b * q + s;
    assert n == (256 * b) * q + (256 * s + n % 256);
    Quotient(n, 256 * b, q, 256 * s + n % 256);
  }

  /** Byte i from the left has weight 256^i in one order ... */
  lemma {:induction false} LeByteAt(n: nat, k: nat, i: nat)
    requires i < k
    ensures ToLe(n, k)[i] as nat == n / Power(i) % 256
    decreases k
  {
    if i > 0 {
      LeByteAt(n / 256, k - 1, i - 1);
      DivTwice(n, Power(i - 1));
    }
  }

  /** ... and 256^(k - 1 - i) in the other. */
  lemma {:induction false} BeByteAt(n: nat, k: nat, i: nat)
    requires i < k
    ensures ToBe(n, k)[i] as nat == n / Power(k - 1 - i) % 256
    decreases k
  {
    if i < k - 1 {
      BeByteAt(n / 256, k - 1, i);
      DivTwice(n, Power(k - 2 - i));
    }
  }

  /** Reading, byte by byte: the widths that the formats use. */
  lemma LeValues(s: seq<byte>)
    ensures |s| == 4 ==>
      FromLe(s) == s[0] as nat + 0x100 * s[1] as nat + 0x1_0000 * s[2] as nat + 0x100_0000 * s[3] as nat
    ensures |s| == 8 ==> FromLe(s) == FromLe(s[..4]) + 0x1_0000_0000 * FromLe(s[4..])
  {
    if |s| == 4 {
      assert s[1..][1..] == s[2..] && s[2..][1..] == s[3..] && s[3..][1..] == [];
      assert FromLe(s[3..]) == s[3] as nat && FromLe(s[2..]) == s[2] as nat + 256 * FromLe(s[3..]);
      assert FromLe(s[1..]) == s[1] as nat + 256 * FromLe(s[2..]);
    }
    if |s| == 8 {
      assert s == s[..4] + s[4..];
      LeSplits(s[..4], s[4..]);
      Widths();
    }
  }

  lemma {:induction false} LeSplits(a: seq<byte>, b: seq<byte>)
    ensures FromLe(a + b) == FromLe(a) + Power(|a|) * FromLe(b)
  {
    if a == [] {
      assert a + b == b;
    } else {
      assert (a + b)[1..] == a[1..] + b;
      LeSplits(a[1..], b);
    }
  }

  lemma BeValues(s: seq<byte>)
    ensures |s| == 4 ==>
      FromBe(s) == 0x100_0000 * s[0] as nat + 0x1_0000 * s[1] as nat + 0x100 * s[2] as nat + s[3] as nat
    ensures |s| == 8 ==> FromBe(s) == 0x1_0000_0000 * FromBe(s[..4]) + FromBe(s[4..])
  {
    if |s| == 4 {
      assert s[..3][..2] == s[..2] && s[..2][..1] == s[..1] && s[..1][..0] == [];
      assert FromBe(s[..1]) == s[0] as nat && FromBe(s[..2]) == 256 * FromBe(s[..1]) + s[1] as nat;
      assert FromBe(s[..3]) == 256 * FromBe(s[..2]) + s[2] as nat;
    }
    if |s| == 8 {
      assert s == s[..4] + s[4..];
      BeSplits(s[..4], s[4..]);
      Widths();
    }
  }

  lemma {:induction false} BeSplits(a: seq<byte>, b: seq<byte>)
    ensures FromBe(a + b) == Power(|b|) * FromBe(a) + FromBe(b)
    decreases |b|
  {
    if b == [] {
      assert a + b == a;
    } else {
      assert (a + b)[..|a + b| - 1] == a + b[..|b| - 1];
      BeSplits(a, b[..|b| - 1]);
    }
  }
}
