// Bytes and big-endian numbers.

module Bytes {

  type Byte = b: int | 0 <= b < 0x100

  type Data = seq<Byte>

  // Bytes are read as an unsigned number, most significant first.
  function BeNat(bytes: Data): nat {
    if bytes == [] then 0 else BeNat(bytes[..|bytes| - 1]) * 0x100 + bytes[|bytes| - 1]
  }

  // The low `width` bytes of n.
  function BeBytes(n: nat, width: nat): (bytes: Data)
    ensures |bytes| == width
  {
    if width == 0 then [] else BeBytes(n / 0x100, width - 1) + [n % 0x100]
  }

  // As many bytes as n takes, none for zero.
  function MinBytes(n: nat): Data {
    if n == 0 then [] else MinBytes(n / 0x100) + [n % 0x100]
  }

  function Pow256(k: nat): (p: nat)
    ensures p > 0
  {
    if k == 0 then 1 else 0x100 * Pow256(k - 1)
  }

  function Zeros(k: nat): (zeros: Data)
    ensures |zeros| == k && forall i :: 0 <= i < k ==> zeros[i] == 0
  {
    seq(k, _ => 0)
  }

  lemma {:induction false} BeNatBound(bytes: Data)
    ensures BeNat(bytes) < Pow256(|bytes|)
  {
    if bytes != [] {
      BeNatBound(bytes[..|bytes| - 1]);
    }
  }

  lemma {:induction false} ReadBeBytes(n: nat, width: nat)
    requires n < Pow256(width)
    ensures BeNat(BeBytes(n, width)) == n
  {
    if width > 0 {
      ReadBeBytes(n / 0x100, width - 1);
      assert BeBytes(n, width)[..width - 1] == BeBytes(n / 0x100, width - 1);
    }
  }

  lemma {:induction false} WriteBeNat(bytes: Data)
    ensures BeBytes(BeNat(bytes), |bytes|) == bytes
  {
    if bytes != [] {
      WriteBeNat(bytes[..|bytes| - 1]);
    }
  }

  // Leading zeros carry no value.
  lemma {:induction false} SkipZeros(k: nat, bytes: Data)
    ensures BeNat(Zeros(k) + bytes) == BeNat(bytes)
    decreases |bytes|, k
  {
    if bytes == [] {
      if k > 0 {
        SkipZeros(k - 1, []);
        assert (Zeros(k) + [])[..k - 1] == Zeros(k - 1) + [];
      }
    } else {
      SkipZeros(k, bytes[..|bytes| - 1]);
      assert (Zeros(k) + bytes)[..k + |bytes| - 1] == Zeros(k) + bytes[..|bytes| - 1];
    }
  }

  // A number written in a wider field.
  lemma PaddedBytes(bytes: Data, width: nat)
    requires |bytes| <= width
    ensures Zeros(width - |bytes|) + bytes == BeBytes(BeNat(bytes), width)
  {
    var padded := Zeros(width - |bytes|) + bytes;
    SkipZeros(width - |bytes|, bytes);
    WriteBeNat(padded);
  }

  lemma {:induction false} Pow256Grows(a: nat, b: nat)
    requires a <= b
    ensures Pow256(a) <= Pow256(b)
  {
    if a < b {
      Pow256Grows(a, b - 1);
    }
  }

  lemma {:induction false} Pow256Adds(a: nat, b: nat)
    ensures Pow256(a + b) == Pow256(a) * Pow256(b)
  {
    if b > 0 {
      Pow256Adds(a, b - 1);
      assert Pow256(a) * Pow256(b) == 0x100 * (Pow256(a) * Pow256(b - 1));
    }
  }

  // A first byte that is not zero makes the number as large as its width.
  lemma {:induction false} LeadingByte(bytes: Data)
    requires bytes != [] && bytes[0] != 0
    ensures BeNat(bytes) >= Pow256(|bytes| - 1)
  {
    if |bytes| > 1 {
      LeadingByte(bytes[..|bytes| - 1]);
    } else {
      assert BeNat(bytes[..0]) == 0;
    }
  }

  // The shortest form reads back, and is the only one without a leading zero.
  lemma {:induction false} ReadMinBytes(n: nat)
    ensures BeNat(MinBytes(n)) == n
    ensures n > 0 ==> MinBytes(n) != [] && MinBytes(n)[0] != 0
  {
    if n > 0 {
      ReadMinBytes(n / 0x100);
      assert MinBytes(n)[..|MinBytes(n)| - 1] == MinBytes(n / 0x100);
    }
  }

  lemma {:induction false} MinBytesUnique(bytes: Data)
    requires bytes != [] ==> bytes[0] != 0
    ensures MinBytes(BeNat(bytes)) == bytes
  {
    if bytes != [] {
      var front := bytes[..|bytes| - 1];
      LeadingByte(bytes);
      MinBytesUnique(front);
      assert BeNat(bytes) / 0x100 == BeNat(front) && BeNat(bytes) % 0x100 == bytes[|bytes| - 1];
    }
  }

  lemma {:induction false} MinBytesWidth(n: nat, width: nat)
    requires n < Pow256(width)
    ensures |MinBytes(n)| <= width
  {
    if n > 0 {
      MinBytesWidth(n / 0x100, width - 1);
    }
  }
}
