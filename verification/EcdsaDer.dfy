// From the DER form of an ECDSA signature to the raw form r || s.

module EcdsaDer {
  import opened Common
  import opened Bytes
  import opened Der

  // ------------------------------------------------------------- conversion

  function Stripped(val: Data): Data {
    if |val| > 1 && val[0] == 0 then Stripped(val[1..]) else val
  }

  // A number without its leading zeros, in a field of 32 bytes.
  function Word(val: Data): (word: Data)
    requires |Stripped(val)| <= 32
    ensures |word| == 32
  {
    Zeros(32 - |Stripped(val)|) + Stripped(val)
  }

  // An INTEGER at an offset as 32 bytes, and the offset behind it.
  function ReadInteger(sig: Data, off: nat): (part: Option<(Data, nat)>)
    ensures part.Some? ==> |part.value.0| == 32 && part.value.1 <= |sig|
  {
    if off + 2 > |sig| || sig[off] != INTEGER then None
    else if off + 2 + sig[off + 1] > |sig| then None
    else
      var val := sig[off + 2..off + 2 + sig[off + 1]];
      if |Stripped(val)| > 32 then None else Some((Word(val), off + 2 + sig[off + 1]))
  }

  function ToRaw(sig: Data): Option<Data> {
    if |sig| < 8 || sig[0] != SEQUENCE || |sig| - 2 != sig[1] then None
    else
      var r := ReadInteger(sig, 2);
      if r.None? then None
      else
        var s := ReadInteger(sig, r.value.1);
        if s.None? || s.value.1 != |sig| then None else Some(r.value.0 + s.value.0)
  }

  method DerEcdsaToRaw(sig: Data) returns (raw: Option<Data>)
    ensures raw == ToRaw(sig)
    ensures raw.Some? ==> |raw.value| == 64
  {
    if |sig| < 8 || sig[0] != SEQUENCE {
      return None;
    }
    var seqLen: nat := sig[1];
    if seqLen + 2 != |sig| {
      return None;
    }
    var off: nat := 2;
    var parts: seq<Data> := [];
    for i := 0 to 2
      invariant |parts| == i
      invariant i == 0 ==> off == 2
      invariant i == 1 ==> ReadInteger(sig, 2) == Some((parts[0], off))
      invariant i == 2 ==> ReadInteger(sig, 2).Some? && ReadInteger(sig, 2).value.0 == parts[0] && |parts[0]| == |parts[1]| == 32
      invariant i == 2 ==> ReadInteger(sig, ReadInteger(sig, 2).value.1) == Some((parts[1], off))
    {
      if off + 2 > |sig| || sig[off] != INTEGER {
        return None;
      }
      var len := sig[off + 1];
      ghost var start := off;
      off := off + 2;
      if off + len > |sig| {
        return None;
      }
      var val := sig[off..off + len];
      while |val| > 1 && val[0] == 0
        invariant Stripped(val) == Stripped(sig[off..off + len])
        decreases |val|
      {
        val := val[1..];
      }
      if |val| > 32 {
        return None;
      }
      ghost var value := val;
      while |val| < 32
        invariant |value| <= |val| <= 32 && val == Zeros(|val| - |value|) + value
        decreases 32 - |val|
      {
        val := [0] + val;
      }
      parts := parts + [val];
      off := off + len;
      assert ReadInteger(sig, start) == Some((val, off));
    }
    if off != |sig| {
      return None;
    }
    return Some(parts[0] + parts[1]);
  }

  // ----------------------------------------------------------- what it accepts

  lemma {:induction false} StrippedKeepsValue(val: Data)
    ensures BeNat(Stripped(val)) == BeNat(val)
    ensures |Stripped(val)| <= |val| && (|Stripped(val)| > 1 ==> Stripped(val)[0] != 0)
  {
    if |val| > 1 && val[0] == 0 {
      StrippedKeepsValue(val[1..]);
      assert val == Zeros(1) + val[1..];
      SkipZeros(1, val[1..]);
    }
  }

  const LIMIT: nat := 0x1_0000000000000000_0000000000000000_0000000000000000_0000000000000000

  lemma LimitIs256Bits()
    ensures LIMIT == Pow256(32)
  {
    assert Pow256(8) == 0x1_0000000000000000;
    Pow256Adds(8, 8);
    Pow256Adds(16, 16);
  }

  // An INTEGER fits when its unsigned value has at most 256 bits, however it is written.
  lemma StrippedFits(val: Data)
    ensures |Stripped(val)| <= 32 <==> BeNat(val) < LIMIT
  {
    var stripped := Stripped(val);
    LimitIs256Bits();
    StrippedKeepsValue(val);
    if |stripped| <= 32 {
      BeNatBound(stripped);
      Pow256Grows(|stripped|, 32);
    } else {
      LeadingByte(stripped);
      Pow256Grows(32, |stripped| - 1);
    }
  }

  lemma WordHoldsValue(val: Data)
    requires |Stripped(val)| <= 32
    ensures BeNat(Word(val)) == BeNat(val) && Word(val) == BeBytes(BeNat(val), 32)
  {
    StrippedKeepsValue(val);
    SkipZeros(32 - |Stripped(val)|, Stripped(val));
    PaddedBytes(Stripped(val), 32);
  }

  // Unlike DER, one length byte goes up to 255 here.
  function ShortElement(tag: Byte, contents: Data): Data
    requires |contents| < 0x100
  {
    [tag, |contents|] + contents
  }

  // One-byte lengths, a SEQUENCE of two INTEGERs and nothing else.
  predicate Framed(sig: Data, r: Data, s: Data) {
    2 <= |r| + |s| < 0xfc
    && sig == [0x30, |r| + |s| + 4] + ShortElement(0x02, r) + ShortElement(0x02, s)
  }

  lemma TlvParts(sig: Data, off: nat, val: Data)
    requires |val| < 0x100 && off + 2 + |val| <= |sig| && sig[off..off + 2 + |val|] == ShortElement(INTEGER, val)
    ensures sig[off] == INTEGER && sig[off + 1] == |val| && sig[off + 2..off + 2 + |val|] == val
  {
    var tlv := sig[off..off + 2 + |val|];
    assert sig[off] == tlv[0] && sig[off + 1] == tlv[1];
    assert sig[off + 2..off + 2 + |val|] == tlv[2..];
  }

  lemma ReadFramed(sig: Data, off: nat, val: Data)
    requires |val| < 0x100 && off + 2 + |val| <= |sig| && sig[off..off + 2 + |val|] == ShortElement(INTEGER, val)
    ensures ReadInteger(sig, off) ==
              if |Stripped(val)| <= 32 then Some((Word(val), off + 2 + |val|)) else None
  {
    TlvParts(sig, off, val);
  }

  // A framed signature converts exactly when both numbers fit, and then to those numbers.
  lemma FramedConverts(sig: Data, r: Data, s: Data)
    requires Framed(sig, r, s)
    ensures ToRaw(sig) == if |Stripped(r)| <= 32 && |Stripped(s)| <= 32 then Some(Word(r) + Word(s)) else None
  {
    var second := 4 + |r|;
    assert sig[2..second] == ShortElement(INTEGER, r);
    assert sig[second..second + 2 + |s|] == ShortElement(INTEGER, s);
    ReadFramed(sig, 2, r);
    ReadFramed(sig, second, s);
  }

  // What stands between an INTEGER's length and the next element.
  function ContentsAt(sig: Data, off: nat): Data
    requires ReadInteger(sig, off).Some?
  {
    sig[off + 2..ReadInteger(sig, off).value.1]
  }

  lemma ReadIsFramed(sig: Data, off: nat)
    requires ReadInteger(sig, off).Some?
    ensures var val := ContentsAt(sig, off);
            var element := |val| < 0x100 && sig[off..ReadInteger(sig, off).value.1] == ShortElement(INTEGER, val);
            element && |Stripped(val)| <= 32
  {
  }

  // Whatever converts is framed: no byte of the input is skipped or invented.
  lemma ConvertedIsFramed(sig: Data)
    requires ToRaw(sig).Some?
    ensures exists r, s :: Framed(sig, r, s) && |Stripped(r)| <= 32 && |Stripped(s)| <= 32
  {
    var second := ReadInteger(sig, 2).value.1;
    ReadIsFramed(sig, 2);
    ReadIsFramed(sig, second);
    var r, s := ContentsAt(sig, 2), ContentsAt(sig, second);
    assert sig[second..|sig|] == sig[second..];
    assert sig == [SEQUENCE, |r| + |s| + 4] + sig[2..second] + sig[second..];
    assert Framed(sig, r, s);
  }

  lemma ValuesSurvive(sig: Data, r: Data, s: Data)
    requires Framed(sig, r, s)
    ensures ToRaw(sig).Some? <==> BeNat(r) < LIMIT && BeNat(s) < LIMIT
    ensures ToRaw(sig).Some? ==>
              var raw := ToRaw(sig).value;
              |raw| == 64 && BeNat(raw[..32]) == BeNat(r) && BeNat(raw[32..]) == BeNat(s)
  {
    FramedConverts(sig, r, s);
    StrippedFits(r);
    StrippedFits(s);
    if ToRaw(sig).Some? {
      WordHoldsValue(r);
      WordHoldsValue(s);
      var raw := ToRaw(sig).value;
      assert raw[..32] == Word(r) && raw[32..] == Word(s);
    }
  }

  // Conversion succeeds on exactly the framed signatures whose values fit 256
  // bits; the result is 64 bytes and holds both values.
  lemma ToRawIsExact(sig: Data)
    ensures ToRaw(sig).Some? <==> exists r, s :: Framed(sig, r, s) && BeNat(r) < LIMIT && BeNat(s) < LIMIT
    ensures forall r, s :: Framed(sig, r, s) && ToRaw(sig).Some? ==>
              var raw := ToRaw(sig).value;
              |raw| == 64 && BeNat(raw[..32]) == BeNat(r) && BeNat(raw[32..]) == BeNat(s)
  {
    if ToRaw(sig).Some? {
      ConvertedIsFramed(sig);
      var r, s :| Framed(sig, r, s) && |Stripped(r)| <= 32 && |Stripped(s)| <= 32;
      ValuesSurvive(sig, r, s);
    }
    forall r, s | Framed(sig, r, s)
      ensures BeNat(r) < LIMIT && BeNat(s) < LIMIT ==> ToRaw(sig).Some?
      ensures ToRaw(sig).Some? ==>
                |ToRaw(sig).value| == 64 && BeNat(ToRaw(sig).value[..32]) == BeNat(r) && BeNat(ToRaw(sig).value[32..]) == BeNat(s)
    {
      ValuesSurvive(sig, r, s);
    }
  }

  // ----------------------------------------------------------------- round trip

  // The contents of a DER INTEGER: the shortest two's complement form.
  function IntegerContents(n: nat): Data {
    if n == 0 then [0]
    else if MinBytes(n)[0] >= 0x80 then [0] + MinBytes(n)
    else MinBytes(n)
  }

  lemma IntegerContentsRead(n: nat)
    requires n < LIMIT
    ensures 1 <= |IntegerContents(n)| <= 33 && BeNat(IntegerContents(n)) == n
  {
    ReadMinBytes(n);
    LimitIs256Bits();
    MinBytesWidth(n, 32);
    SkipZeros(1, MinBytes(n));
    assert Zeros(1) == [0];
    if n == 0 {
      assert BeNat([0][..0]) == 0;
    }
  }

  function DerSignature(r: nat, s: nat): Data
    requires r < LIMIT && s < LIMIT
  {
    IntegerContentsRead(r);
    IntegerContentsRead(s);
    [0x30, |IntegerContents(r)| + |IntegerContents(s)| + 4]
    + ShortElement(0x02, IntegerContents(r)) + ShortElement(0x02, IntegerContents(s))
  }

  // Every pair of 256-bit values survives encoding and conversion.
  lemma RawUndoesDer(r: nat, s: nat)
    requires r < LIMIT && s < LIMIT
    ensures ToRaw(DerSignature(r, s)) == Some(BeBytes(r, 32) + BeBytes(s, 32))
  {
    IntegerContentsRead(r);
    IntegerContentsRead(s);
    StrippedFits(IntegerContents(r));
    StrippedFits(IntegerContents(s));
    FramedConverts(DerSignature(r, s), IntegerContents(r), IntegerContents(s));
    WordHoldsValue(IntegerContents(r));
    WordHoldsValue(IntegerContents(s));
  }
}
