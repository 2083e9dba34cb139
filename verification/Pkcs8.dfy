// The PKCS#8 envelope around an RSA private key, built byte by byte, against a
// strict DER reader.

module Pkcs8 {
  import opened Common
  import opened Bytes
  import opened Der

  // Lengths are machine words.
  const USIZE: nat := 0x1_0000_0000_0000_0000

  lemma LengthWidth(n: nat)
    requires n < USIZE
    ensures |MinBytes(n)| <= 8
  {
    assert Pow256(8) == USIZE;
    MinBytesWidth(n, 8);
  }

  const RSA_ENCRYPTION_ALGORITHM: Data :=
    [0x30, 0x0d, 0x06, 0x09, 0x2a, 0x86, 0x48, 0x86, 0xf7, 0x0d, 0x01, 0x01, 0x01, 0x05, 0x00]

  // ---------------------------------------------------------------- building

  function Reversed(bytes: Data): Data {
    if bytes == [] then [] else [bytes[|bytes| - 1]] + Reversed(bytes[..|bytes| - 1])
  }

  // Length octets: the number itself below 128, otherwise its bytes after their count.
  function Length(n: nat): Data
    requires n < USIZE
  {
    LengthWidth(n);
    if n < 0x80 then [n] else [0x80 + |MinBytes(n)|] + MinBytes(n)
  }

  // The bytes of a number, pushed lowest first and then reversed.
  method NumberBytes(n: nat) returns (bytes: Data)
    ensures bytes == MinBytes(n)
  {
    bytes := [];
    var v := n;
    while v > 0
      invariant MinBytes(n) == MinBytes(v) + Reversed(bytes)
    {
      PeelByte(n, v, bytes);
      bytes := bytes + [v % 0x100];
      v := v / 0x100;
    }
    bytes := Reversed(bytes);
  }

  method DerLen(n: nat) returns (octets: Data)
    requires n < USIZE
    ensures octets == Length(n)
  {
    if n < 0x80 {
      return [n];
    }
    LengthWidth(n);
    var bytes := NumberBytes(n);
    return [0x80 + |bytes|] + bytes;
  }

  lemma ReversedAppend(bytes: Data, b: Byte)
    ensures Reversed(bytes + [b]) == [b] + Reversed(bytes)
  {
    assert (bytes + [b])[..|bytes|] == bytes;
  }

  lemma PeelByte(n: nat, v: nat, bytes: Data)
    requires v > 0 && MinBytes(n) == MinBytes(v) + Reversed(bytes)
    ensures MinBytes(n) == MinBytes(v / 0x100) + Reversed(bytes + [v % 0x100])
  {
    var low: Byte := v % 0x100;
    ReversedAppend(bytes, low);
    assert MinBytes(v) == MinBytes(v / 0x100) + [low];
    MoveByte(MinBytes(v / 0x100), low, Reversed(bytes));
  }

  lemma MoveByte(high: Data, b: Byte, low: Data)
    ensures (high + [b]) + low == high + ([b] + low)
  {
  }

  function Tlv(tag: Byte, contents: Data): Data
    requires |contents| < USIZE
  {
    [tag] + Length(|contents|) + contents
  }

  method DerTlv(tag: Byte, contents: Data) returns (out: Data)
    requires |contents| < USIZE
    ensures out == Tlv(tag, contents)
  {
    out := [tag];
    var octets := DerLen(|contents|);
    out := out + octets;
    out := out + contents;
  }

  // 18 fixed bytes and at most 10 of tag and length go in front of the payload.
  const OVERHEAD: nat := 28

  lemma LengthSize(n: nat)
    requires n < USIZE
    ensures 1 <= |Length(n)| <= 9
  {
    LengthWidth(n);
  }

  function Inner(pkcs1: Data): (inner: Data)
    requires |pkcs1| + OVERHEAD < USIZE
    ensures |inner| <= |pkcs1| + OVERHEAD
  {
    LengthSize(|pkcs1|);
    [INTEGER, 0x01, 0x00] + RSA_ENCRYPTION_ALGORITHM + Tlv(OCTET_STRING, pkcs1)
  }

  function Envelope(pkcs1: Data): Data
    requires |pkcs1| + OVERHEAD < USIZE
  {
    Tlv(SEQUENCE, Inner(pkcs1))
  }

  // The caller's buffer leaves room for the envelope in the address space.
  method Pkcs8V1Envelope(pkcs1: Data) returns (der: Data)
    requires |pkcs1| + OVERHEAD < USIZE
    ensures der == Envelope(pkcs1)
  {
    var inner: Data := [INTEGER, 0x01, 0x00];
    inner := inner + RSA_ENCRYPTION_ALGORITHM;
    var octets := DerTlv(OCTET_STRING, pkcs1);
    inner := inner + octets;
    assert inner == Inner(pkcs1);
    der := DerTlv(SEQUENCE, inner);
  }

  // ----------------------------------------------------------------- reading

  // DER length octets: definite, and in the shortest form only.
  function ReadLength(bytes: Data): Option<(nat, Data)> {
    if bytes == [] then None
    else if bytes[0] < 0x80 then Some((bytes[0], bytes[1..]))
    else
      var count := bytes[0] - 0x80;
      if count == 0 || count == 0x7f || count > |bytes| - 1 || bytes[1] == 0 then None
      else
        var n := BeNat(bytes[1..1 + count]);
        if n < 0x80 then None else Some((n, bytes[1 + count..]))
  }

  // One element with the given tag: its contents and what follows.
  function ReadTlv(tag: Byte, bytes: Data): Option<(Data, Data)> {
    if bytes == [] || bytes[0] != tag then None
    else
      var length := ReadLength(bytes[1..]);
      if length.None? || length.value.0 > |length.value.1| then None
      else Some((length.value.1[..length.value.0], length.value.1[length.value.0..]))
  }

  const RSA_ENCRYPTION: Data := [0x2a, 0x86, 0x48, 0x86, 0xf7, 0x0d, 0x01, 0x01, 0x01]

  predicate IsRsaAlgorithm(contents: Data) {
    var oid := ReadTlv(0x06, contents);
    && oid.Some? && oid.value.0 == RSA_ENCRYPTION
    && ReadTlv(0x05, oid.value.1) == Some(([], []))
  }

  // The payload of a PrivateKeyInfo of version 0 for RSA, with nothing around it.
  function ReadEnvelope(der: Data): Option<Data> {
    var outer := ReadTlv(0x30, der);
    if outer.None? || outer.value.1 != [] then None
    else
      var version := ReadTlv(0x02, outer.value.0);
      if version.None? || version.value.0 != [0] then None
      else
        var algorithm := ReadTlv(0x30, version.value.1);
        if algorithm.None? || !IsRsaAlgorithm(algorithm.value.0) then None
        else
          var key := ReadTlv(0x04, algorithm.value.1);
          if key.None? || key.value.1 != [] then None else Some(key.value.0)
  }

  // ------------------------------------------------------------- both directions

  lemma ReadsLength(n: nat, rest: Data)
    requires n < USIZE
    ensures ReadLength(Length(n) + rest) == Some((n, rest))
  {
    var octets := Length(n);
    var bytes := octets + rest;
    ReadMinBytes(n);
    LengthWidth(n);
    if n < 0x80 {
      assert bytes[1..] == rest;
    } else {
      var count := |MinBytes(n)|;
      assert bytes[1..1 + count] == MinBytes(n);
      assert bytes[1 + count..] == rest;
    }
  }

  // Only the octets that the loop writes read as that length.
  lemma LengthIsTheOnlyForm(bytes: Data)
    requires ReadLength(bytes).Some? && ReadLength(bytes).value.0 < USIZE
    ensures bytes == Length(ReadLength(bytes).value.0) + ReadLength(bytes).value.1
  {
    if bytes[0] >= 0x80 {
      var count := bytes[0] - 0x80;
      MinBytesUnique(bytes[1..1 + count]);
      assert bytes == [bytes[0]] + bytes[1..1 + count] + bytes[1 + count..];
    } else {
      assert bytes == [bytes[0]] + bytes[1..];
    }
  }

  // Length octets of the basic rules, shortest or not: one byte below 128, or a count and a number.
  predicate DenotesLength(octets: Data, n: nat) {
    || (|octets| == 1 && octets[0] < 0x80 && octets[0] == n)
    || (|octets| > 1 && octets[0] == 0x80 + |octets| - 1 && BeNat(octets[1..]) == n)
  }

  // No other length octets for the same number are shorter.
  lemma LengthIsShortest(octets: Data, n: nat)
    requires n < USIZE && DenotesLength(octets, n)
    ensures DenotesLength(Length(n), n) && |Length(n)| <= |octets|
    ensures |Length(n)| == |octets| ==> octets == Length(n)
  {
    ReadMinBytes(n);
    LengthWidth(n);
    if |octets| > 1 {
      BeNatBound(octets[1..]);
      MinBytesWidth(n, |octets| - 1);
      if n >= 0x80 && |MinBytes(n)| == |octets| - 1 {
        WriteBeNat(octets[1..]);
        WriteBeNat(MinBytes(n));
      }
    }
    if n >= 0x80 {
      assert Length(n)[1..] == MinBytes(n);
    }
  }

  lemma ReadsTlv(tag: Byte, contents: Data, rest: Data)
    requires |contents| < USIZE
    ensures ReadTlv(tag, Tlv(tag, contents) + rest) == Some((contents, rest))
  {
    var bytes := Tlv(tag, contents) + rest;
    assert bytes[1..] == Length(|contents|) + (contents + rest);
    ReadsLength(|contents|, contents + rest);
    assert (contents + rest)[..|contents|] == contents;
    assert (contents + rest)[|contents|..] == rest;
  }

  lemma Regroup(tag: Byte, bytes: Data, octets: Data, left: Data, n: nat)
    requires bytes != [] && bytes[0] == tag && bytes[1..] == octets + left && n <= |left|
    ensures bytes == [tag] + octets + left[..n] + left[n..]
  {
    assert left == left[..n] + left[n..];
    assert bytes == [tag] + bytes[1..];
  }

  lemma TlvIsTheOnlyForm(tag: Byte, bytes: Data)
    requires ReadTlv(tag, bytes).Some? && |bytes| < USIZE
    ensures |ReadTlv(tag, bytes).value.0| < USIZE
    ensures bytes == Tlv(tag, ReadTlv(tag, bytes).value.0) + ReadTlv(tag, bytes).value.1
  {
    var (n, left) := ReadLength(bytes[1..]).value;
    LengthIsTheOnlyForm(bytes[1..]);
    Regroup(tag, bytes, Length(n), left, n);
  }

  const ALGORITHM_CONTENTS: Data := RSA_ENCRYPTION_ALGORITHM[2..]

  lemma AlgorithmParts()
    ensures |RSA_ENCRYPTION| == 9 && |ALGORITHM_CONTENTS| == 13
    ensures ALGORITHM_CONTENTS == Tlv(OBJECT_IDENTIFIER, RSA_ENCRYPTION) + Tlv(NULL, [])
    ensures RSA_ENCRYPTION_ALGORITHM == Tlv(SEQUENCE, ALGORITHM_CONTENTS)
    ensures [INTEGER, 0x01, 0x00] == Tlv(INTEGER, [0])
  {
  }

  // For every payload the envelope is read back: version 0, the RSA algorithm, the payload, nothing more.
  lemma EnvelopeRoundTrip(pkcs1: Data)
    requires |pkcs1| + OVERHEAD < USIZE
    ensures ReadEnvelope(Envelope(pkcs1)) == Some(pkcs1)
  {
    AlgorithmParts();
    var key := Tlv(OCTET_STRING, pkcs1);
    assert Envelope(pkcs1) + [] == Envelope(pkcs1) && key + [] == key;
    assert Tlv(NULL, []) + [] == Tlv(NULL, []);
    assert Inner(pkcs1) == Tlv(INTEGER, [0]) + (Tlv(SEQUENCE, ALGORITHM_CONTENTS) + key);
    ReadsTlv(SEQUENCE, Inner(pkcs1), []);
    ReadsTlv(INTEGER, [0], Tlv(SEQUENCE, ALGORITHM_CONTENTS) + key);
    ReadsTlv(SEQUENCE, ALGORITHM_CONTENTS, key);
    ReadsTlv(OBJECT_IDENTIFIER, RSA_ENCRYPTION, Tlv(NULL, []));
    ReadsTlv(NULL, [], []);
    ReadsTlv(OCTET_STRING, pkcs1, []);
  }

  lemma AlgorithmIsTheOnlyForm(contents: Data)
    requires |contents| < USIZE && IsRsaAlgorithm(contents)
    ensures contents == ALGORITHM_CONTENTS
  {
    AlgorithmParts();
    var oid := ReadTlv(OBJECT_IDENTIFIER, contents).value;
    TlvIsTheOnlyForm(OBJECT_IDENTIFIER, contents);
    TlvIsTheOnlyForm(NULL, oid.1);
    assert oid.1 == Tlv(NULL, []) + [];
    assert Tlv(NULL, []) + [] == Tlv(NULL, []);
  }

  // What ReadTlv leaves of an input is no longer than the input.
  lemma PartsAreShort(tag: Byte, bytes: Data)
    requires ReadTlv(tag, bytes).Some?
    ensures |ReadTlv(tag, bytes).value.0| + |ReadTlv(tag, bytes).value.1| < |bytes|
  {
  }

  lemma InnerIsTheOnlyForm(inner: Data, pkcs1: Data)
    requires |inner| + OVERHEAD < USIZE && |pkcs1| + OVERHEAD < USIZE
    requires ReadTlv(INTEGER, inner).Some? && ReadTlv(INTEGER, inner).value.0 == [0]
    requires var rest := ReadTlv(INTEGER, inner).value.1;
             && ReadTlv(SEQUENCE, rest).Some? && IsRsaAlgorithm(ReadTlv(SEQUENCE, rest).value.0)
             && ReadTlv(OCTET_STRING, ReadTlv(SEQUENCE, rest).value.1) == Some((pkcs1, []))
    ensures inner == Inner(pkcs1)
  {
    AlgorithmParts();
    var rest := ReadTlv(INTEGER, inner).value.1;
    var algorithm := ReadTlv(SEQUENCE, rest).value;
    PartsAreShort(INTEGER, inner);
    PartsAreShort(SEQUENCE, rest);
    TlvIsTheOnlyForm(INTEGER, inner);
    TlvIsTheOnlyForm(SEQUENCE, rest);
    AlgorithmIsTheOnlyForm(algorithm.0);
    TlvIsTheOnlyForm(OCTET_STRING, algorithm.1);
    assert algorithm.1 == Tlv(OCTET_STRING, pkcs1);
  }

  // The envelope is the only encoding that a strict reader takes for the payload.
  lemma EnvelopeIsTheOnlyForm(der: Data)
    requires |der| + OVERHEAD < USIZE && ReadEnvelope(der).Some?
    ensures |ReadEnvelope(der).value| + OVERHEAD < USIZE
    ensures der == Envelope(ReadEnvelope(der).value)
  {
    var outer := ReadTlv(SEQUENCE, der).value;
    var rest := ReadTlv(INTEGER, outer.0).value.1;
    PartsAreShort(SEQUENCE, der);
    PartsAreShort(INTEGER, outer.0);
    PartsAreShort(SEQUENCE, rest);
    PartsAreShort(OCTET_STRING, ReadTlv(SEQUENCE, rest).value.1);
    TlvIsTheOnlyForm(SEQUENCE, der);
    InnerIsTheOnlyForm(outer.0, ReadEnvelope(der).value);
    assert der == Tlv(SEQUENCE, outer.0);
  }
}
