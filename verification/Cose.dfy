// Credential public keys as COSE maps: reading the authenticator's map and
// writing the stored one. Maps are lists of entries, as CBOR has them.

module Cose {
  import opened Common
  import opened Bytes

  datatype Cbor = Integer(value: int) | ByteString(bytes: Data) | Other

  type Entries = seq<(Cbor, Cbor)>

  datatype Item = Map(entries: Entries) | NotAMap

  datatype Algorithm = Es256 | Rs256 | EdDsa

  datatype CoseKey =
    | Ec2(x: Data, y: Data, alg: Algorithm)
    | Rsa(n: Data, e: Data, alg: Algorithm)
    | Eddsa(x: Data, alg: Algorithm)

  datatype Result<+T, +E> = Ok(value: T) | Err(error: E)

  datatype CoseError = InvalidCose | MissingField | UnsupportedAlgorithm | UnsupportedCurve | UnsupportedKeyType

  const KTY := 1
  const ALG := 3

  function AlgToCose(alg: Algorithm): int {
    match alg
    case Es256 => -7
    case Rs256 => -257
    case EdDsa => -8
  }

  // The first entry under an integer label.
  function Find(entries: Entries, field: int): Option<Cbor> {
    if entries == [] then None
    else if entries[0].0 == Integer(field) then Some(entries[0].1)
    else Find(entries[1..], field)
  }

  predicate IsI64(n: int) {
    -0x8000_0000_0000_0000 <= n < 0x8000_0000_0000_0000
  }

  function GetInt(entries: Entries, field: int): Option<int> {
    var found := Find(entries, field);
    if found.Some? && found.value.Integer? && IsI64(found.value.value) then Some(found.value.value) else None
  }

  function GetBytes(entries: Entries, field: int): Option<Data> {
    var found := Find(entries, field);
    if found.Some? && found.value.ByteString? then Some(found.value.bytes) else None
  }

  function ParseAlg(entries: Entries): Result<Algorithm, CoseError> {
    var alg := GetInt(entries, ALG);
    if alg.None? then Err(MissingField)
    else if alg.value == -7 then Ok(Es256)
    else if alg.value == -257 then Ok(Rs256)
    else if alg.value == -8 then Ok(EdDsa)
    else Err(UnsupportedAlgorithm)
  }

  // Two byte strings, both required.
  function GetTwo(entries: Entries, first: int, second: int): Option<(Data, Data)> {
    var a := GetBytes(entries, first);
    var b := GetBytes(entries, second);
    if a.Some? && b.Some? then Some((a.value, b.value)) else None
  }

  function ParseEntries(entries: Entries): Result<CoseKey, CoseError> {
    var alg := ParseAlg(entries);
    var kty := GetInt(entries, KTY);
    var crv := GetInt(entries, -1);
    if alg.Err? then Err(alg.error)
    else if kty.None? then Err(MissingField)
    else if kty.value == 2 then
      var point := GetTwo(entries, -2, -3);
      if crv.None? then Err(MissingField)
      else if crv.value != 1 then Err(UnsupportedCurve)
      else if point.None? then Err(MissingField)
      else Ok(Ec2(point.value.0, point.value.1, alg.value))
    else if kty.value == 3 then
      var modulus := GetTwo(entries, -1, -2);
      if modulus.None? then Err(MissingField) else Ok(Rsa(modulus.value.0, modulus.value.1, alg.value))
    else if kty.value == 1 then
      var x := GetBytes(entries, -2);
      if crv.None? then Err(MissingField)
      else if crv.value != 6 then Err(UnsupportedCurve)
      else if x.None? then Err(MissingField)
      else Ok(Eddsa(x.value, alg.value))
    else Err(UnsupportedKeyType)
  }

  // `decode` is the CBOR library: None when the bytes do not start with an item.
  function ParseCoseKey(decode: Data -> Option<Item>, bytes: Data): Result<CoseKey, CoseError> {
    var item := decode(bytes);
    if item.None? || item.value.NotAMap? then Err(InvalidCose) else ParseEntries(item.value.entries)
  }

  function KeyToEntries(key: CoseKey): Entries {
    match key
    case Ec2(x, y, alg) =>
      [(Integer(KTY), Integer(2)), (Integer(ALG), Integer(AlgToCose(alg))), (Integer(-1), Integer(1)),
       (Integer(-2), ByteString(x)), (Integer(-3), ByteString(y))]
    case Rsa(n, e, alg) =>
      [(Integer(KTY), Integer(3)), (Integer(ALG), Integer(AlgToCose(alg))),
       (Integer(-1), ByteString(n)), (Integer(-2), ByteString(e))]
    case Eddsa(x, alg) =>
      [(Integer(KTY), Integer(1)), (Integer(ALG), Integer(AlgToCose(alg))), (Integer(-1), Integer(6)),
       (Integer(-2), ByteString(x))]
  }

  // Numbers count when they fit 64 bits with their sign.
  lemma GetIntExactly(entries: Entries, field: int, n: int)
    ensures GetInt(entries, field) == Some(n) <==>
              Find(entries, field) == Some(Integer(n)) && -0x8000_0000_0000_0000 <= n <= 0x7fff_ffff_ffff_ffff
  {
  }

  // Why a map is no key: the algorithm is read first, then the kind of key, then its curve.
  lemma RefusedExactly(entries: Entries)
    ensures var result := ParseEntries(entries);
            && (result == Err(UnsupportedAlgorithm) <==>
                  GetInt(entries, 3).Some? && GetInt(entries, 3).value !in {-7, -257, -8})
            && (result == Err(UnsupportedKeyType) <==>
                  && GetInt(entries, 3).Some? && GetInt(entries, 3).value in {-7, -257, -8}
                  && GetInt(entries, 1).Some? && GetInt(entries, 1).value !in {1, 2, 3})
            && (result == Err(UnsupportedCurve) <==>
                  && GetInt(entries, 3).Some? && GetInt(entries, 3).value in {-7, -257, -8}
                  && GetInt(entries, 1).Some? && GetInt(entries, 1).value in {1, 2} && GetInt(entries, -1).Some?
                  && GetInt(entries, -1).value != if GetInt(entries, 1).value == 2 then 1 else 6)
            && (result.Err? && result.error != MissingField ==>
                  result.error in {UnsupportedAlgorithm, UnsupportedKeyType, UnsupportedCurve})
  {
  }

  predicate Carries(entries: Entries, entry: (Cbor, Cbor)) {
    entry.0.Integer? && Find(entries, entry.0.value) == Some(entry.1)
  }

  // A map reads as a key exactly when it holds, first under each label, every
  // entry that the key would be stored with; other entries do not matter.
  lemma ParsesExactly(entries: Entries, key: CoseKey)
    ensures ParseEntries(entries) == Ok(key) <==>
              forall i :: 0 <= i < |KeyToEntries(key)| ==> Carries(entries, KeyToEntries(key)[i])
  {
    var stored := KeyToEntries(key);
    if forall i :: 0 <= i < |stored| ==> Carries(entries, stored[i]) {
      assert Carries(entries, stored[0]) && Carries(entries, stored[1]) && Carries(entries, stored[2]) && Carries(entries, stored[3]);
      assert key.Ec2? ==> Carries(entries, stored[4]);
    }
  }

  // Under different labels every entry is found.
  lemma {:induction false} FindsOwnEntry(entries: Entries, i: nat)
    requires i < |entries| && entries[i].0.Integer?
    requires forall j :: 0 <= j < i ==> entries[j].0 != entries[i].0
    ensures Carries(entries, entries[i])
  {
    if i > 0 {
      FindsOwnEntry(entries[1..], i - 1);
    }
  }

  // Every key survives being stored.
  lemma StoredKeyRoundTrip(key: CoseKey)
    ensures ParseEntries(KeyToEntries(key)) == Ok(key)
  {
    var stored := KeyToEntries(key);
    forall i | 0 <= i < |stored| ensures Carries(stored, stored[i]) {
      FindsOwnEntry(stored, i);
    }
    ParsesExactly(stored, key);
  }

  // The keys that WebAuthn registers, by the numbers of section 6.5.1.1 of
  // WebAuthn Level 2 and sections 8 and 13 of RFC 8152: P-256 with ES256, RSA
  // with RS256 and Ed25519 with EdDSA.
  lemma RegisteredNumbers(x: Data, y: Data)
    ensures var p256 := [(Integer(1), Integer(2)), (Integer(3), Integer(-7)), (Integer(-1), Integer(1)),
                         (Integer(-2), ByteString(x)), (Integer(-3), ByteString(y))];
            var rsa := [(Integer(1), Integer(3)), (Integer(3), Integer(-257)), (Integer(-1), ByteString(x)),
                        (Integer(-2), ByteString(y))];
            var ed25519 := [(Integer(1), Integer(1)), (Integer(3), Integer(-8)), (Integer(-1), Integer(6)),
                            (Integer(-2), ByteString(x))];
            (ParseEntries(p256), ParseEntries(rsa), ParseEntries(ed25519))
            == (Ok(Ec2(x, y, Es256)), Ok(Rsa(x, y, Rs256)), Ok(Eddsa(x, EdDsa)))
  {
    StoredKeyRoundTrip(Ec2(x, y, Es256));
    StoredKeyRoundTrip(Rsa(x, y, Rs256));
    StoredKeyRoundTrip(Eddsa(x, EdDsa));
  }
}
