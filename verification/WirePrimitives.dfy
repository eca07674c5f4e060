/** Wire leaves and their codecs: identifiers, options, addresses, destinations, assets and output references. */
module WirePrimitives {
  import opened Results
  import opened PlutusData
  import opened Types
  import opened Arithmetic
  import opened HexStrings
  import opened Values
  import opened References
  import opened Planning
  import opened DataValues
  import opened BoundedData

  /** The two measures of the preferred encoding that the wire depends on: its length, and the Terms commitment. */
  datatype Codec = Codec(size: Data -> nat, commitment: Data -> Hex)

  const MAGIC: seq<Byte> := [0x43, 0x54, 0x56, 0x53]
  const WIRE_VERSION := 2

  function HexBytes(h: Hex): seq<Byte>
    requires ParseHex(h).Ok?
  {
    ParseHex(h).value
  }

  function HexData(h: Hex): Data
    requires ParseHex(h).Ok?
  {
    Bytes(HexBytes(h))
  }

  function C(tag: int, fields: seq<Data>): Data {
    Constr(Num(tag), fields)
  }

  function OptionData(value: Option<Data>): Data {
    if value.None? then C(1, []) else C(0, [value.value])
  }

  /** Exactly one alternative and field count; trailing fields are no extension. */
  function Fields(d: Data, tag: int, arity: nat): (r: Result<seq<Data>>)
    ensures r.Ok? <==> d.Constr? && ConstructorIndex(d.tag) == Ok(tag) && |d.fields| == arity
    ensures r.Ok? ==> r.value == d.fields
  {
    if d.Constr? && ConstructorIndex(d.tag) == Ok(tag) && |d.fields| == arity then Ok(d.fields) else Err(InvalidShape)
  }

  function ReadBytes(d: Data, length: nat): (r: Result<Hex>)
    ensures r.Ok? ==> d.Bytes? && |d.b| == length && r.value == PrintHex(d.b)
  {
    if d.Bytes? && |d.b| == length then Ok(PrintHex(d.b)) else Err(InvalidBytes)
  }

  function ReadInt(d: Data, min: int, max: int): (r: Result<int>)
    ensures r.Ok? <==> d.Int? && min <= d.i <= max
    ensures r.Ok? ==> d == Int(r.value)
  {
    if d.Int? && min <= d.i <= max then Ok(d.i) else Err(OutOfRange)
  }

  function ReadOption(d: Data): (r: Result<Option<Data>>)
    ensures r.Ok? ==> EqualShape(OptionData(r.value), d)
  {
    if d.Constr? && ConstructorIndex(d.tag) == Ok(1) then
      var _ :- Fields(d, 1, 0);
      Ok(None)
    else
      var f :- Fields(d, 0, 1);
      Ok(Some(f[0]))
  }

  /** The same alternative with identical fields. */
  predicate EqualShape(a: Data, b: Data) {
    a.Constr? && b.Constr? && ConstructorIndex(a.tag).Ok? && ConstructorIndex(a.tag) == ConstructorIndex(b.tag) && a.fields == b.fields
  }

  lemma OptionIsShaped(value: Option<Data>)
    requires value.Some? ==> IsShaped(value.value)
    ensures IsShaped(OptionData(value))
    ensures ReadOption(OptionData(value)) == Ok(value)
  {
  }

  lemma OptionDecoded(value: Option<Data>, d: Data)
    requires ReadOption(d).Ok?
    requires value.Some? <==> ReadOption(d).value.Some?
    requires value.Some? ==> EqualData(value.value, ReadOption(d).value.value)
    ensures EqualData(OptionData(value), d)
  {
  }

  predicate IsVersion(magic: Data, version: Data) {
    magic == Bytes(MAGIC) && version == Int(WIRE_VERSION)
  }

  lemma BytesSurvive(h: Hex, length: nat)
    requires ParseHexOf(h, length).Ok?
    ensures ReadBytes(HexData(h), length) == Ok(Lower(h))
    ensures ParseHexOf(Lower(h), length).Ok? && HexData(Lower(h)) == HexData(h)
  {
    hide ParseHex, Lower, PrintHex;
    ParseThenPrint(h);
    PrintThenParse(HexBytes(h));
  }

  lemma BytesDecoded(d: Data, length: nat)
    requires ReadBytes(d, length).Ok?
    ensures
      var h := ReadBytes(d, length).value;
      ParseHexOf(h, length).Ok? && HexData(h) == d && Lower(h) == h
  {
    hide ParseHex, Lower, PrintHex;
    PrintThenParse(d.b);
    ParseThenPrint(PrintHex(d.b));
  }

  function CredentialData(c: Credential): Data
    requires IsCredential(c)
  {
    C(if c.kind.Key? then 0 else 1, [HexData(c.hash)])
  }

  function CredentialFromData(d: Data): Result<Credential> {
    var index := if d.Constr? then ConstructorIndex(d.tag) else Err(InvalidShape);
    :- Need(index == Ok(0) || index == Ok(1), InvalidShape);
    var f :- Fields(d, index.value, 1);
    var hash :- ReadBytes(f[0], 28);
    Ok(Credential(if index.value == 0 then Key else Script, hash))
  }

  lemma CredentialSurvives(c: Credential)
    requires IsCredential(c)
    ensures CredentialFromData(CredentialData(c)) == Ok(CredentialId(c))
    ensures IsCredential(CredentialId(c)) && CredentialData(CredentialId(c)) == CredentialData(c)
    ensures IsShaped(CredentialData(c))
  {
    hide ParseHexOf, ReadBytes, Lower;
    BytesSurvive(c.hash, 28);
  }

  lemma CredentialDecoded(d: Data)
    requires CredentialFromData(d).Ok?
    ensures
      var c := CredentialFromData(d).value;
      IsCredential(c) && CredentialId(c) == c && EqualData(CredentialData(c), d)
  {
    hide ParseHex, Lower, PrintHex;
    BytesDecoded(d.fields[0], 28);
  }

  function AddressData(a: Address): Data
    requires IsAddress(a)
  {
    C(0, [
      CredentialData(a.payment),
      OptionData(if a.stake.None? then None else Some(C(0, [CredentialData(a.stake.value)])))])
  }

  function AddressFromData(d: Data): Result<Address> {
    var f :- Fields(d, 0, 2);
    var payment :- CredentialFromData(f[0]);
    var inline :- ReadOption(f[1]);
    if inline.None? then Ok(Address(payment, None))
    else
      var g :- Fields(inline.value, 0, 1);
      var stake :- CredentialFromData(g[0]);
      Ok(Address(payment, Some(stake)))
  }

  lemma AddressSurvives(a: Address)
    requires IsAddress(a)
    ensures AddressFromData(AddressData(a)) == Ok(AddressId(a))
    ensures IsAddress(AddressId(a)) && AddressData(AddressId(a)) == AddressData(a)
    ensures IsShaped(AddressData(a))
  {
    hide CredentialFromData, CredentialData, IsCredential;
    CredentialSurvives(a.payment);
    if a.stake.Some? {
      CredentialSurvives(a.stake.value);
      assert IsShaped(C(0, [CredentialData(a.stake.value)]));
    }
    OptionIsShaped(if a.stake.None? then None else Some(C(0, [CredentialData(a.stake.value)])));
  }

  lemma AddressDecoded(d: Data)
    requires AddressFromData(d).Ok?
    ensures
      var a := AddressFromData(d).value;
      IsAddress(a) && AddressId(a) == a && EqualData(AddressData(a), d)
  {
    hide CredentialFromData, CredentialData, IsCredential, CredentialId;
    CredentialDecoded(d.fields[0]);
    var inline := ReadOption(d.fields[1]).value;
    var v := AddressFromData(d).value;
    if inline.Some? {
      CredentialDecoded(inline.value.fields[0]);
      assert EqualData(C(0, [CredentialData(v.stake.value)]), inline.value);
    }
    OptionDecoded(if v.stake.None? then None else Some(C(0, [CredentialData(v.stake.value)])), d.fields[1]);
  }

  /** Addresses encode to the same Data exactly when they agree up to the letter case of their hashes. */
  lemma EncodedAddressIsIdentity(a: Address, b: Address)
    requires IsAddress(a) && IsAddress(b)
    ensures EqualData(AddressData(a), AddressData(b)) <==> AddressId(a) == AddressId(b)
  {
    hide AddressData, AddressFromData, IsAddress, Canonical;
    AddressSurvives(a);
    AddressSurvives(b);
    if EqualData(AddressData(a), AddressData(b)) {
      EqualAddressesDecodeAlike(a, b);
    }
    if AddressId(a) == AddressId(b) {
      EqualDataReflexive(AddressData(a));
    }
  }

  lemma EqualAddressesDecodeAlike(a: Address, b: Address)
    requires IsAddress(a) && IsAddress(b) && EqualData(AddressData(a), AddressData(b))
    ensures AddressData(a) == AddressData(b)
  {
    hide ParseHexOf, ParseHex;
    var x, y := AddressData(a), AddressData(b);
    assert EqualData(x.fields[0], y.fields[0]) && EqualData(x.fields[1], y.fields[1]);
    assert EqualData(x.fields[0].fields[0], y.fields[0].fields[0]);
    if a.stake.Some? && b.stake.Some? {
      var s, t := x.fields[1].fields[0], y.fields[1].fields[0];
      assert EqualData(s, t);
      assert EqualData(s.fields[0], t.fields[0]);
      assert EqualData(s.fields[0].fields[0], t.fields[0].fields[0]);
    }
  }

  predicate IsDestination(d: Destination, codec: Codec) {
    IsAddress(d.address) && (d.datum.Some? ==> IsBounded(d.datum.value, codec.size))
  }

  function DestinationId(d: Destination): Destination {
    d.(address := AddressId(d.address))
  }

  function DestinationData(d: Destination): Data
    requires IsAddress(d.address)
  {
    C(0, [AddressData(d.address), OptionData(d.datum)])
  }

  function DestinationFromData(d: Data, codec: Codec): Result<Destination> {
    var f :- Fields(d, 0, 2);
    var address :- AddressFromData(f[0]);
    var datum :- ReadOption(f[1]);
    :- Need(datum.Some? ==> IsBounded(datum.value, codec.size), OutOfRange);
    Ok(Destination(address, datum))
  }

  lemma DestinationSurvives(d: Destination, codec: Codec)
    requires IsDestination(d, codec)
    ensures DestinationFromData(DestinationData(d), codec) == Ok(DestinationId(d))
    ensures IsDestination(DestinationId(d), codec) && DestinationData(DestinationId(d)) == DestinationData(d)
    ensures IsShaped(DestinationData(d))
  {
    hide AddressFromData, AddressData, IsAddress, IsBounded;
    AddressSurvives(d.address);
    if d.datum.Some? {
      BoundedIsShaped(d.datum.value, codec);
    }
  }

  lemma BoundedIsShaped(d: Data, codec: Codec)
    requires IsBounded(d, codec.size)
    ensures IsShaped(d)
  {
    FittingIsShaped(d, 0);
  }

  lemma DestinationDecoded(d: Data, codec: Codec)
    requires DestinationFromData(d, codec).Ok?
    ensures
      var v := DestinationFromData(d, codec).value;
      IsDestination(v, codec) && DestinationId(v) == v && EqualData(DestinationData(v), d)
  {
    hide AddressFromData, AddressData, IsAddress, IsBounded, AddressId, IsShaped;
    AddressDecoded(d.fields[0]);
    var datum := ReadOption(d.fields[1]).value;
    if datum.Some? {
      BoundedIsShaped(datum.value, codec);
      EqualDataReflexive(datum.value);
    }
  }

  function AssetData(asset: Asset): Data
    requires IsAsset(asset)
  {
    if asset.Ada? then C(0, []) else C(1, [HexData(asset.policy), HexData(asset.name)])
  }

  function AssetFromData(d: Data): Result<Asset> {
    if d.Constr? && ConstructorIndex(d.tag) == Ok(0) then
      var _ :- Fields(d, 0, 0);
      Ok(Ada)
    else
      var f :- Fields(d, 1, 2);
      var policy :- ReadBytes(f[0], 28);
      :- Need(f[1].Bytes? && |f[1].b| <= 32, InvalidBytes);
      var name :- ReadBytes(f[1], |f[1].b|);
      Ok(Native(policy, name))
  }

  lemma AssetSurvives(asset: Asset)
    requires IsAsset(asset)
    ensures AssetFromData(AssetData(asset)) == Ok(AssetId(asset))
    ensures IsAsset(AssetId(asset)) && AssetData(AssetId(asset)) == AssetData(asset)
    ensures IsShaped(AssetData(asset))
  {
    hide ParseHex, Lower, PrintHex;
    if asset.Native? {
      BytesSurvive(asset.policy, 28);
      BytesSurvive(asset.name, |HexBytes(asset.name)|);
    }
  }

  lemma AssetDecoded(d: Data)
    requires AssetFromData(d).Ok?
    ensures
      var v := AssetFromData(d).value;
      IsAsset(v) && AssetId(v) == v && EqualData(AssetData(v), d)
  {
    hide ParseHex, Lower, PrintHex;
    if AssetFromData(d).value.Native? {
      BytesDecoded(d.fields[0], 28);
      BytesDecoded(d.fields[1], |d.fields[1].b|);
    }
  }

  function OutRefData(ref: OutRef): Data
    requires IsReference(ref)
  {
    C(0, [HexData(ref.txId), Int(ref.index)])
  }

  function OutRefFromData(d: Data): Result<OutRef> {
    var f :- Fields(d, 0, 2);
    var txId :- ReadBytes(f[0], 32);
    var index :- ReadInt(f[1], 0, 65_535);
    Ok(OutRef(txId, index))
  }

  lemma OutRefSurvives(ref: OutRef)
    requires IsReference(ref)
    ensures OutRefFromData(OutRefData(ref)) == Ok(RefId(ref))
    ensures IsReference(RefId(ref)) && OutRefData(RefId(ref)) == OutRefData(ref)
    ensures IsShaped(OutRefData(ref))
  {
    hide ParseHexOf, Lower, ReadBytes;
    BytesSurvive(ref.txId, 32);
  }

  lemma OutRefDecoded(d: Data)
    requires OutRefFromData(d).Ok?
    ensures
      var v := OutRefFromData(d).value;
      IsReference(v) && RefId(v) == v && EqualData(OutRefData(v), d)
  {
    hide ParseHex, Lower, PrintHex;
    BytesDecoded(d.fields[0], 32);
  }
}
