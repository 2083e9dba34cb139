// The binary record a WebAuthn authenticator signs: parsing by offsets against
// the layout of the record.

module AuthenticatorData {
  import opened Common
  import opened Bytes
  import opened Cose

  // Flags, as bits of one byte.
  predicate UserPresent(flags: Byte) { flags % 2 == 1 }
  predicate Attested(flags: Byte) { flags / 64 % 2 == 1 }

  datatype AuthError = TooShort | RpIdHashMismatch | PresenceRequired | MissingAttestation | Truncated | BadKey(error: CoseError)

  datatype ParsedAuthData = ParsedAuthData(flags: Byte, counter: nat, credentialId: Option<Data>, coseKey: Option<CoseKey>)

  type KeyParser = Data -> Result<CoseKey, CoseError>

  // ------------------------------------------------------------------ parsing

  function ParseAttested(data: Data, parseKey: KeyParser): Result<ParsedAuthData, AuthError>
    requires |data| >= 37
  {
    if |data| < 55 then Err(Truncated)
    else
      var end := 55 + BeNat(data[53..55]);
      if |data| < end then Err(Truncated)
      else
        var key := parseKey(data[end..]);
        if key.Err? then Err(BadKey(key.error))
        else Ok(ParsedAuthData(data[32], BeNat(data[33..37]), Some(data[55..end]), Some(key.value)))
  }

  function Parse(data: Data, rpIdHash: Data, expectAttested: bool, parseKey: KeyParser): Result<ParsedAuthData, AuthError> {
    if |data| < 37 then Err(TooShort)
    else if data[0..32] != rpIdHash then Err(RpIdHashMismatch)
    else if !UserPresent(data[32]) then Err(PresenceRequired)
    else if Attested(data[32]) then ParseAttested(data, parseKey)
    else if expectAttested then Err(MissingAttestation)
    else Ok(ParsedAuthData(data[32], BeNat(data[33..37]), None, None))
  }

  method ParseAuthenticatorData(data: Data, rpIdHash: Data, expectAttested: bool, parseKey: KeyParser)
    returns (result: Result<ParsedAuthData, AuthError>)
    ensures result == Parse(data, rpIdHash, expectAttested, parseKey)
  {
    if |data| < 37 {
      return Err(TooShort);
    }
    if data[0..32] != rpIdHash {
      return Err(RpIdHashMismatch);
    }
    var flags := data[32];
    if flags % 2 == 0 {
      return Err(PresenceRequired);
    }
    var counter := BeNat(data[33..37]);
    if flags / 64 % 2 == 0 {
      if expectAttested {
        return Err(MissingAttestation);
      }
      return Ok(ParsedAuthData(flags, counter, None, None));
    }
    var off := 37;
    if |data| < off + 18 {
      return Err(Truncated);
    }
    off := off + 16;
    var credLen := BeNat([data[off], data[off + 1]]);
    assert data[off..off + 2] == [data[off], data[off + 1]];
    off := off + 2;
    if |data| < off + credLen {
      return Err(Truncated);
    }
    var credentialId := data[off..off + credLen];
    off := off + credLen;
    var key := parseKey(data[off..]);
    if key.Err? {
      return Err(BadKey(key.error));
    }
    return Ok(ParsedAuthData(flags, counter, Some(credentialId), Some(key.value)));
  }

  // The flags of section 6.1 of WebAuthn Level 2, from bit 0 to bit 7.
  lemma FlagBits(up: bool, rfu1: bool, uv: bool, be: bool, bs: bool, rfu2: bool, at: bool, ed: bool)
    ensures var flags := (if up then 0x01 else 0) + (if rfu1 then 0x02 else 0) + (if uv then 0x04 else 0)
                         + (if be then 0x08 else 0) + (if bs then 0x10 else 0) + (if rfu2 then 0x20 else 0)
                         + (if at then 0x40 else 0) + (if ed then 0x80 else 0);
            (UserPresent(flags) <==> up) && (Attested(flags) <==> at)
  {
  }

  // Which record is refused, and why: the first test that fails decides.
  lemma RefusedExactly(data: Data, rpIdHash: Data, expectAttested: bool, parseKey: KeyParser)
    ensures var result := Parse(data, rpIdHash, expectAttested, parseKey);
            && (result == Err(TooShort) <==> |data| < 37)
            && (result == Err(RpIdHashMismatch) <==> |data| >= 37 && data[..32] != rpIdHash)
            && (result == Err(PresenceRequired) <==> |data| >= 37 && data[..32] == rpIdHash && !UserPresent(data[32]))
            && (result == Err(MissingAttestation) <==>
                  |data| >= 37 && data[..32] == rpIdHash && UserPresent(data[32]) && !Attested(data[32]) && expectAttested)
            && (result == Err(Truncated) <==>
                  && |data| >= 37 && data[..32] == rpIdHash && UserPresent(data[32]) && Attested(data[32])
                  && (|data| < 55 || |data| < 55 + BeNat(data[53..55])))
  {
  }

  // ------------------------------------------------------------------- layout

  // Behind the fixed part: the authenticator's model, the credential id behind
  // its length, and the key, possibly followed by extensions.
  datatype Credential = Credential(aaguid: Data, id: Data, keyBytes: Data)

  predicate IsCredential(c: Credential) {
    |c.aaguid| == 16 && |c.id| < 0x1_0000
  }

  function Fixed(rpIdHash: Data, flags: Byte, counter: nat): Data {
    rpIdHash + [flags] + BeBytes(counter, 4)
  }

  function Attachment(c: Credential): Data {
    c.aaguid + BeBytes(|c.id|, 2) + c.id + c.keyBytes
  }

  predicate IsFixed(rpIdHash: Data, flags: Byte, counter: nat) {
    |rpIdHash| == 32 && UserPresent(flags) && counter < 0x1_0000_0000
  }

  lemma FixedParts(rpIdHash: Data, flags: Byte, counter: nat, rest: Data)
    requires IsFixed(rpIdHash, flags, counter)
    ensures var data := Fixed(rpIdHash, flags, counter) + rest;
            && |data| == 37 + |rest| && data[0..32] == rpIdHash && data[32] == flags
            && BeNat(data[33..37]) == counter && data[37..] == rest
  {
    var data := Fixed(rpIdHash, flags, counter) + rest;
    assert Pow256(4) == 0x1_0000_0000;
    ReadBeBytes(counter, 4);
    assert data[33..37] == BeBytes(counter, 4);
  }

  lemma AttachmentParts(data: Data, c: Credential)
    requires IsCredential(c) && |data| >= 37 && data[37..] == Attachment(c)
    ensures |data| >= 55 + |c.id| && BeNat(data[53..55]) == |c.id|
    ensures data[55..55 + |c.id|] == c.id && data[55 + |c.id|..] == c.keyBytes
  {
    var rest := data[37..];
    assert |rest| == 18 + |c.id| + |c.keyBytes|;
    assert Pow256(2) == 0x1_0000;
    ReadBeBytes(|c.id|, 2);
    assert data[53..55] == rest[16..18] == BeBytes(|c.id|, 2);
    assert data[55..55 + |c.id|] == rest[18..18 + |c.id|] == c.id;
    assert data[55 + |c.id|..] == rest[18 + |c.id|..] == c.keyBytes;
  }

  // A registration record: everything that was laid out comes back.
  lemma AttestedRoundTrip(rpIdHash: Data, flags: Byte, counter: nat, c: Credential, expectAttested: bool, parseKey: KeyParser)
    requires IsFixed(rpIdHash, flags, counter) && Attested(flags) && IsCredential(c)
    ensures Parse(Fixed(rpIdHash, flags, counter) + Attachment(c), rpIdHash, expectAttested, parseKey) ==
              if parseKey(c.keyBytes).Ok? then Ok(ParsedAuthData(flags, counter, Some(c.id), Some(parseKey(c.keyBytes).value)))
              else Err(BadKey(parseKey(c.keyBytes).error))
  {
    var data := Fixed(rpIdHash, flags, counter) + Attachment(c);
    FixedParts(rpIdHash, flags, counter, Attachment(c));
    AttachmentParts(data, c);
  }

  // A sign-in record: flags and counter come back, whatever follows them.
  lemma AssertionRoundTrip(rpIdHash: Data, flags: Byte, counter: nat, rest: Data, parseKey: KeyParser)
    requires IsFixed(rpIdHash, flags, counter) && !Attested(flags)
    ensures Parse(Fixed(rpIdHash, flags, counter) + rest, rpIdHash, false, parseKey) ==
              Ok(ParsedAuthData(flags, counter, None, None))
    ensures Parse(Fixed(rpIdHash, flags, counter) + rest, rpIdHash, true, parseKey) == Err(MissingAttestation)
  {
    FixedParts(rpIdHash, flags, counter, rest);
  }

  lemma FixedFromData(data: Data)
    requires |data| >= 37 && UserPresent(data[32])
    ensures IsFixed(data[0..32], data[32], BeNat(data[33..37]))
    ensures data == Fixed(data[0..32], data[32], BeNat(data[33..37])) + data[37..]
  {
    assert Pow256(4) == 0x1_0000_0000;
    BeNatBound(data[33..37]);
    WriteBeNat(data[33..37]);
    assert data == data[0..32] + [data[32]] + data[33..37] + data[37..];
  }

  // Whatever is accepted is laid out that way, with the result's own flags,
  // counter and credential id; a credential is reported exactly when the flag says so.
  lemma AcceptedIsLaidOut(data: Data, rpIdHash: Data, expectAttested: bool, parseKey: KeyParser) returns (c: Credential)
    requires Parse(data, rpIdHash, expectAttested, parseKey).Ok?
    ensures var p := Parse(data, rpIdHash, expectAttested, parseKey).value;
            && IsFixed(rpIdHash, p.flags, p.counter)
            && (p.credentialId.Some? <==> Attested(p.flags)) && (p.coseKey.Some? <==> Attested(p.flags))
            && (expectAttested ==> Attested(p.flags))
            && data[..37] == Fixed(rpIdHash, p.flags, p.counter)
            && (Attested(p.flags) ==>
                  && IsCredential(c) && data == Fixed(rpIdHash, p.flags, p.counter) + Attachment(c)
                  && p.credentialId == Some(c.id) && parseKey(c.keyBytes) == Ok(p.coseKey.value))
  {
    FixedFromData(data);
    assert data[..37] == Fixed(rpIdHash, data[32], BeNat(data[33..37]));
    c := Credential([], [], []);
    if Attested(data[32]) {
      var n := BeNat(data[53..55]);
      c := Credential(data[37..53], data[55..55 + n], data[55 + n..]);
      AttachmentFromData(data, c);
    }
  }

  lemma AttachmentFromData(data: Data, c: Credential)
    requires |data| >= 55 && 55 + BeNat(data[53..55]) <= |data|
    requires c == (var n := BeNat(data[53..55]); Credential(data[37..53], data[55..55 + n], data[55 + n..]))
    ensures IsCredential(c) && data[37..] == Attachment(c)
  {
    assert Pow256(2) == 0x1_0000;
    BeNatBound(data[53..55]);
    WriteBeNat(data[53..55]);
    assert data[37..] == data[37..53] + data[53..55] + c.id + c.keyBytes;
  }

  // Registration to sign-in: a key stored after parsing reads back as the parsed key,
  // for any CBOR library that decodes what it encoded.
  lemma RegisteredKeySurvives(encode: Item -> Data, decode: Data -> Option<Item>, data: Data, rpIdHash: Data)
    requires forall item :: decode(encode(item)) == Some(item)
    requires Parse(data, rpIdHash, true, bytes => ParseCoseKey(decode, bytes)).Ok?
    ensures var key := Parse(data, rpIdHash, true, bytes => ParseCoseKey(decode, bytes)).value.coseKey;
            key.Some? && ParseCoseKey(decode, encode(Map(KeyToEntries(key.value)))) == Ok(key.value)
  {
    var key := Parse(data, rpIdHash, true, bytes => ParseCoseKey(decode, bytes)).value.coseKey.value;
    StoredKeyRoundTrip(key);
  }
}
