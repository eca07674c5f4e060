/** The Terms codec: thirteen fields in commitment order, with strictly ordered settler keys. */
module WireTerms {
  import opened Results
  import opened PlutusData
  import opened Types
  import opened Arithmetic
  import opened HexStrings
  import opened Values
  import opened References
  import opened Planning
  import opened DataValues
  import opened BoundedData
  import opened WirePrimitives

  const MAX_TERMS_BYTES := 4096

  function KeyOption(key: Option<Hex>): Option<Data>
    requires key.Some? ==> ParseHex(key.value).Ok?
  {
    if key.None? then None else Some(HexData(key.value))
  }

  function LowerOption(key: Option<Hex>): Option<Hex> {
    if key.None? then None else Some(Lower(key.value))
  }

  function QuantityOption(n: Option<int>): Option<Data> {
    if n.None? then None else Some(Int(n.value))
  }

  function ReadKeyOption(d: Data, length: nat): Result<Option<Hex>> {
    var value :- ReadOption(d);
    if value.None? then Ok(None)
    else
      var key :- ReadBytes(value.value, length);
      Ok(Some(key))
  }

  function ReadQuantityOption(d: Data): Result<Option<int>> {
    var value :- ReadOption(d);
    if value.None? then Ok(None)
    else
      var n :- ReadInt(value.value, 0, Q_MAX);
      Ok(Some(n))
  }

  lemma KeyOptionSurvives(key: Option<Hex>, length: nat)
    requires key.Some? ==> ParseHexOf(key.value, length).Ok?
    ensures ReadKeyOption(OptionData(KeyOption(key)), length) == Ok(LowerOption(key))
    ensures LowerOption(key).Some? ==> ParseHexOf(LowerOption(key).value, length).Ok?
    ensures KeyOption(LowerOption(key)) == KeyOption(key)
    ensures IsShaped(OptionData(KeyOption(key)))
  {
    hide Lower, ReadBytes;
    if key.Some? {
      BytesSurvive(key.value, length);
    }
    OptionIsShaped(KeyOption(key));
  }

  lemma KeyOptionDecoded(d: Data, length: nat)
    requires ReadKeyOption(d, length).Ok?
    ensures
      var key := ReadKeyOption(d, length).value;
      && (key.Some? ==> ParseHexOf(key.value, length).Ok?) && LowerOption(key) == key
      && EqualData(OptionData(KeyOption(key)), d)
  {
    hide Lower, PrintHex;
    var value := ReadOption(d).value;
    if value.Some? {
      BytesDecoded(value.value, length);
    }
    OptionDecoded(KeyOption(ReadKeyOption(d, length).value), d);
  }

  lemma QuantityOptionCodec(n: Option<int>, d: Data)
    requires n.Some? ==> IsQuantity(n.value)
    ensures ReadQuantityOption(OptionData(QuantityOption(n))) == Ok(n) && IsShaped(OptionData(QuantityOption(n)))
    ensures ReadQuantityOption(d).Ok? ==>
      var m := ReadQuantityOption(d).value;
      (m.Some? ==> IsQuantity(m.value)) && EqualData(OptionData(QuantityOption(m)), d)
  {
    OptionIsShaped(QuantityOption(n));
    if ReadQuantityOption(d).Ok? {
      OptionDecoded(QuantityOption(ReadQuantityOption(d).value), d);
    }
  }

  function LowerKeys(keys: seq<Hex>): (r: seq<Hex>)
    ensures |r| == |keys| && forall i :: 0 <= i < |keys| ==> r[i] == Lower(keys[i])
  {
    seq(|keys|, i requires 0 <= i < |keys| => Lower(keys[i]))
  }

  function KeyList(keys: seq<Hex>): (r: seq<Data>)
    requires forall i :: 0 <= i < |keys| ==> ParseHex(keys[i]).Ok?
    ensures |r| == |keys| && forall i :: 0 <= i < |keys| ==> r[i] == HexData(keys[i])
  {
    seq(|keys|, i requires 0 <= i < |keys| => HexData(keys[i]))
  }

  /** Unrestricted settlement and an explicit key set have different alternatives; the empty set has neither. */
  function SettlersData(settlers: Option<seq<Hex>>): Data
    requires settlers.Some? ==> IsKeySet(settlers.value)
  {
    if settlers.None? then C(0, []) else C(1, [List(KeyList(settlers.value))])
  }

  function SettlersFromData(d: Data): Result<Option<seq<Hex>>> {
    if d.Constr? && ConstructorIndex(d.tag) == Ok(0) then
      var _ :- Fields(d, 0, 0);
      Ok(None)
    else
      var f :- Fields(d, 1, 1);
      :- Need(f[0].List?, InvalidShape);
      var items := f[0].items;
      :- Need(forall i :: 0 <= i < |items| ==> ReadBytes(items[i], 28).Ok?, InvalidBytes);
      var keys := seq(|items|, i requires 0 <= i < |items| => ReadBytes(items[i], 28).value);
      :- Need(IsKeySet(keys), Unsorted);
      Ok(Some(keys))
  }

  function LowerSettlers(settlers: Option<seq<Hex>>): Option<seq<Hex>> {
    if settlers.None? then None else Some(LowerKeys(settlers.value))
  }

  lemma SettlersSurvive(settlers: Option<seq<Hex>>)
    requires settlers.Some? ==> IsKeySet(settlers.value)
    ensures LowerSettlers(settlers).Some? ==> IsKeySet(LowerSettlers(settlers).value)
    ensures SettlersFromData(SettlersData(settlers)) == Ok(LowerSettlers(settlers))
    ensures SettlersData(LowerSettlers(settlers)) == SettlersData(settlers)
    ensures IsShaped(SettlersData(settlers))
  {
    hide Lower, ReadBytes, TextLess, ParseHexOf;
    if settlers.Some? {
      var keys := settlers.value;
      var lower := LowerKeys(keys);
      forall i | 0 <= i < |keys|
        ensures ReadBytes(HexData(keys[i]), 28) == Ok(lower[i]) && ParseHexOf(lower[i], 28).Ok?
          && HexData(lower[i]) == HexData(keys[i]) && Lower(lower[i]) == lower[i]
      {
        BytesSurvive(keys[i], 28);
        LowerIsIdempotent(keys[i]);
      }
      assert KeyList(lower) == KeyList(keys);
      assert IsShaped(List(KeyList(keys)));
      var items := KeyList(keys);
      assert lower == seq(|items|, i requires 0 <= i < |items| => ReadBytes(items[i], 28).value);
    }
  }

  lemma SettlersDecoded(d: Data)
    requires SettlersFromData(d).Ok?
    ensures
      var v := SettlersFromData(d).value;
      && (v.Some? ==> IsKeySet(v.value)) && LowerSettlers(v) == v
      && EqualData(SettlersData(v), d)
  {
    hide Lower, ReadBytes, TextLess, ParseHexOf;
    var v := SettlersFromData(d).value;
    if v.Some? {
      var items := d.fields[0].items;
      forall i | 0 <= i < |items| ensures HexData(v.value[i]) == items[i] && Lower(v.value[i]) == v.value[i] {
        BytesDecoded(items[i], 28);
      }
      assert LowerKeys(v.value) == v.value;
      assert KeyList(v.value) == items;
      forall i | 0 <= i < |items| ensures EqualData(items[i], items[i]) {
        BytesDecoded(items[i], 28);
      }
    }
  }

  predicate IsTerms(t: Terms, codec: Codec) {
    TermsShape(t) && IsDestination(t.feeDestination, codec)
  }

  function TermsData(t: Terms): Data
    requires TermsShape(t)
  {
    C(0, [
      Int(t.profile),
      HexData(t.networkDomain),
      AssetData(t.underlying),
      Int(t.virtualShares),
      OptionData(QuantityOption(t.maxBacking)),
      Int(t.entryBps),
      Int(t.exitBps),
      DestinationData(t.feeDestination),
      OptionData(KeyOption(t.pauseKey)),
      SettlersData(t.settlers),
      Int(t.executionModes),
      Int(t.maxBatch),
      OptionData(KeyOption(t.descriptorHash))])
  }

  /** Validated and bounded Terms Data. */
  function EncodeTerms(t: Terms, codec: Codec): Result<Data> {
    if IsTerms(t, codec) && codec.size(TermsData(t)) <= MAX_TERMS_BYTES then Ok(TermsData(t)) else Err(OutOfRange)
  }

  function ReadTerms(f: seq<Data>, codec: Codec): Result<Terms>
    requires |f| == 13
  {
    var profile :- ReadInt(f[0], 0, 0);
    var networkDomain :- ReadBytes(f[1], 32);
    var underlying :- AssetFromData(f[2]);
    var virtualShares :- ReadInt(f[3], 1, Q_MAX);
    var maxBacking :- ReadQuantityOption(f[4]);
    var entryBps :- ReadInt(f[5], 0, 9999);
    var exitBps :- ReadInt(f[6], 0, 9999);
    var feeDestination :- DestinationFromData(f[7], codec);
    var pauseKey :- ReadKeyOption(f[8], 28);
    var settlers :- SettlersFromData(f[9]);
    var executionModes :- ReadInt(f[10], 1, 15);
    var maxBatch :- ReadInt(f[11], 1, 16);
    var descriptorHash :- ReadKeyOption(f[12], 32);
    Ok(Terms(profile, networkDomain, underlying, virtualShares, maxBacking, entryBps, exitBps, feeDestination,
             pauseKey, settlers, executionModes, maxBatch, descriptorHash))
  }

  function TermsFromData(d: Data, codec: Codec): Result<Terms> {
    var f :- Fields(d, 0, 13);
    var terms :- ReadTerms(f, codec);
    var _ :- EncodeTerms(terms, codec);
    Ok(terms)
  }

  /** Terms with canonical identifiers. */
  function TermsId(t: Terms): Terms {
    t.(networkDomain := Lower(t.networkDomain), underlying := AssetId(t.underlying),
       feeDestination := DestinationId(t.feeDestination), pauseKey := LowerOption(t.pauseKey),
       settlers := LowerSettlers(t.settlers), descriptorHash := LowerOption(t.descriptorHash))
  }

  lemma TermsIdKeepsData(t: Terms, codec: Codec)
    requires IsTerms(t, codec)
    ensures IsTerms(TermsId(t), codec) && TermsData(TermsId(t)) == TermsData(t)
  {
    hide ParseHexOf, Lower, ReadBytes, IsAsset, AssetData, AssetFromData, AssetId, IsAddress, IsKeySet, ReadOption, IsShaped;
    hide DestinationData, DestinationFromData, SettlersData, SettlersFromData, LowerKeys, KeyOption, OptionData, IsBounded;
    BytesSurvive(t.networkDomain, 32);
    AssetSurvives(t.underlying);
    DestinationSurvives(t.feeDestination, codec);
    KeyOptionSurvives(t.pauseKey, 28);
    SettlersSurvive(t.settlers);
    KeyOptionSurvives(t.descriptorHash, 32);
  }

  lemma TermsRead(t: Terms, codec: Codec)
    requires IsTerms(t, codec)
    ensures ReadTerms(TermsData(t).fields, codec) == Ok(TermsId(t))
  {
    hide ParseHexOf, Lower, ReadBytes, IsAsset, AssetData, AssetFromData, AssetId, IsAddress, IsKeySet, ReadOption, IsShaped;
    hide DestinationData, DestinationFromData, SettlersData, SettlersFromData, LowerKeys, KeyOption, OptionData, IsBounded;
    hide ReadKeyOption, ReadQuantityOption, QuantityOption, LowerOption, LowerSettlers, DestinationId;
    BytesSurvive(t.networkDomain, 32);
    AssetSurvives(t.underlying);
    QuantityOptionCodec(t.maxBacking, Int(0));
    DestinationSurvives(t.feeDestination, codec);
    KeyOptionSurvives(t.pauseKey, 28);
    SettlersSurvive(t.settlers);
    KeyOptionSurvives(t.descriptorHash, 32);
  }

  lemma TermsAreShaped(t: Terms, codec: Codec)
    requires IsTerms(t, codec)
    ensures IsShaped(TermsData(t))
  {
    hide ParseHexOf, Lower, ReadBytes, IsAsset, AssetData, AssetFromData, AssetId, IsAddress, IsKeySet, ReadOption;
    hide DestinationData, DestinationFromData, SettlersData, SettlersFromData, LowerKeys, KeyOption, OptionData, IsBounded;
    hide ReadKeyOption, ReadQuantityOption, QuantityOption, LowerOption, LowerSettlers, DestinationId;
    BytesSurvive(t.networkDomain, 32);
    AssetSurvives(t.underlying);
    QuantityOptionCodec(t.maxBacking, Int(0));
    DestinationSurvives(t.feeDestination, codec);
    KeyOptionSurvives(t.pauseKey, 28);
    SettlersSurvive(t.settlers);
    KeyOptionSurvives(t.descriptorHash, 32);
  }

  /** Encoded Terms decode to the same Terms with canonical identifiers. */
  lemma TermsSurvive(t: Terms, codec: Codec)
    requires EncodeTerms(t, codec).Ok?
    ensures TermsFromData(EncodeTerms(t, codec).value, codec) == Ok(TermsId(t))
    ensures EncodeTerms(TermsId(t), codec) == EncodeTerms(t, codec)
  {
    hide ReadTerms, TermsShape, IsDestination;
    TermsIdKeepsData(t, codec);
    TermsRead(t, codec);
    assert TermsData(t) == C(0, TermsData(t).fields) && |TermsData(t).fields| == 13;
  }

  lemma ReadTermsAreTerms(f: seq<Data>, codec: Codec)
    requires |f| == 13 && ReadTerms(f, codec).Ok?
    ensures
      var t := ReadTerms(f, codec).value;
      && IsTerms(t, codec) && TermsId(t) == t
      && forall i :: 0 <= i < 13 ==> EqualData(TermsData(t).fields[i], f[i])
  {
    hide ParseHexOf, Lower, PrintHex, IsAsset, AssetData, AssetFromData, AssetId, IsAddress, IsKeySet, ReadOption;
    hide IsDestination, DestinationData, DestinationFromData, SettlersData, SettlersFromData, LowerKeys, KeyOption, OptionData;
    hide DestinationId, LowerOption, LowerSettlers, QuantityOption, ReadKeyOption, ReadQuantityOption;
    BytesDecoded(f[1], 32);
    AssetDecoded(f[2]);
    QuantityOptionCodec(None, f[4]);
    DestinationDecoded(f[7], codec);
    DestinationHasAddress(f[7], codec);
    KeyOptionDecoded(f[8], 28);
    SettlersDecoded(f[9]);
    KeyOptionDecoded(f[12], 32);
  }

  lemma DestinationHasAddress(d: Data, codec: Codec)
    requires DestinationFromData(d, codec).Ok?
    ensures IsAddress(DestinationFromData(d, codec).value.address)
  {
    DestinationDecoded(d, codec);
  }

  /** Accepted Terms Data is what the encoder produces, up to the spelling of alternatives. */
  lemma TermsDecoded(d: Data, codec: Codec)
    requires TermsFromData(d, codec).Ok?
    ensures
      var t := TermsFromData(d, codec).value;
      TermsId(t) == t && EncodeTerms(t, codec).Ok? && EqualData(EncodeTerms(t, codec).value, d)
  {
    hide ReadTerms, TermsShape, TermsId, IsDestination;
    ReadTermsAreTerms(d.fields, codec);
    var t := TermsFromData(d, codec).value;
    assert TermsData(t) == C(0, TermsData(t).fields) && |TermsData(t).fields| == 13;
  }
}
