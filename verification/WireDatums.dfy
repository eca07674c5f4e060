/** The State, Config, Request and Claim codecs, and the reading that a datum has under them. */
module WireDatums {
  import opened Results
  import opened PlutusData
  import opened Types
  import opened Arithmetic
  import opened HexStrings
  import opened Values
  import opened References
  import opened Planning
  import opened DataValues
  import opened BoundedData
  import opened WirePrimitives
  import opened WireTerms

  const MAX_CONFIG_BYTES := 4608
  const MAX_STATE_BYTES := 256
  const MAX_REQUEST_BYTES := 4096
  const MAX_CLAIM_BYTES := 2048

  function StateData(s: State): Data
    requires StateShape(s)
  {
    C(0, [
      Bytes(MAGIC), Int(WIRE_VERSION), HexData(s.vaultPolicy), HexData(s.termsHash),
      Int(s.sequence), Int(s.backingAssets), Int(s.economicSupply), Int(s.accruedFees),
      Int(s.storageLovelace), Int(s.pauseFlags)])
  }

  function EncodeState(s: State, codec: Codec): Result<Data> {
    if StateShape(s) && codec.size(StateData(s)) <= MAX_STATE_BYTES then Ok(StateData(s)) else Err(OutOfRange)
  }

  function StateFromData(d: Data, codec: Codec): Result<State> {
    var f :- Fields(d, 0, 10);
    :- Need(IsVersion(f[0], f[1]), InvalidShape);
    var vaultPolicy :- ReadBytes(f[2], 28);
    var termsHash :- ReadBytes(f[3], 32);
    var sequence :- ReadInt(f[4], 0, Q_MAX);
    var backingAssets :- ReadInt(f[5], 0, Q_MAX);
    var economicSupply :- ReadInt(f[6], 0, Q_MAX);
    var accruedFees :- ReadInt(f[7], 0, Q_MAX);
    var storageLovelace :- ReadInt(f[8], 1, Q_MAX);
    var pauseFlags :- ReadInt(f[9], 0, 3);
    var state := State(vaultPolicy, termsHash, sequence, backingAssets, economicSupply, accruedFees, storageLovelace, pauseFlags);
    var _ :- EncodeState(state, codec);
    Ok(state)
  }

  function StateId(s: State): State {
    s.(vaultPolicy := Lower(s.vaultPolicy), termsHash := Lower(s.termsHash))
  }

  lemma StateSurvives(s: State, codec: Codec)
    requires EncodeState(s, codec).Ok?
    ensures StateFromData(EncodeState(s, codec).value, codec) == Ok(StateId(s))
    ensures EncodeState(StateId(s), codec) == EncodeState(s, codec)
  {
    hide ParseHexOf, Lower, ReadBytes;
    BytesSurvive(s.vaultPolicy, 28);
    BytesSurvive(s.termsHash, 32);
  }

  lemma StateDecoded(d: Data, codec: Codec)
    requires StateFromData(d, codec).Ok?
    ensures
      var s := StateFromData(d, codec).value;
      StateId(s) == s && EncodeState(s, codec).Ok? && EqualData(EncodeState(s, codec).value, d)
  {
    hide ParseHexOf, Lower, PrintHex;
    BytesDecoded(d.fields[2], 28);
    BytesDecoded(d.fields[3], 32);
  }

  /** A Config commits to its own Terms. */
  predicate IsConfig(c: Config, codec: Codec) {
    && ParseHexOf(c.vaultPolicy, 28).Ok? && IsReference(c.seed) && ParseHexOf(c.termsHash, 32).Ok?
    && EncodeTerms(c.terms, codec).Ok? && codec.commitment(TermsData(c.terms)) == Lower(c.termsHash)
    && IsPositive(c.storageLovelace)
  }

  function ConfigData(c: Config, codec: Codec): Data
    requires IsConfig(c, codec)
  {
    C(3, [
      Bytes(MAGIC), Int(WIRE_VERSION), HexData(c.vaultPolicy), OutRefData(c.seed), HexData(c.termsHash),
      TermsData(c.terms), Int(c.storageLovelace)])
  }

  function EncodeConfig(c: Config, codec: Codec): Result<Data> {
    if IsConfig(c, codec) && codec.size(ConfigData(c, codec)) <= MAX_CONFIG_BYTES then Ok(ConfigData(c, codec))
    else Err(OutOfRange)
  }

  function ConfigFromData(d: Data, codec: Codec): Result<Config> {
    var f :- Fields(d, 3, 7);
    :- Need(IsVersion(f[0], f[1]), InvalidShape);
    var vaultPolicy :- ReadBytes(f[2], 28);
    var seed :- OutRefFromData(f[3]);
    var termsHash :- ReadBytes(f[4], 32);
    var terms :- TermsFromData(f[5], codec);
    var storageLovelace :- ReadInt(f[6], 1, Q_MAX);
    var config := Config(vaultPolicy, seed, termsHash, terms, storageLovelace);
    var _ :- EncodeConfig(config, codec);
    Ok(config)
  }

  function ConfigId(c: Config): Config {
    c.(vaultPolicy := Lower(c.vaultPolicy), seed := RefId(c.seed), termsHash := Lower(c.termsHash), terms := TermsId(c.terms))
  }

  lemma ConfigSurvives(c: Config, codec: Codec)
    requires EncodeConfig(c, codec).Ok?
    ensures ConfigFromData(EncodeConfig(c, codec).value, codec) == Ok(ConfigId(c))
    ensures EncodeConfig(ConfigId(c), codec) == EncodeConfig(c, codec)
  {
    hide ParseHexOf, Lower, ReadBytes, IsReference, OutRefData, OutRefFromData, RefId, TermsFromData, TermsShape, TermsId, TermsData;
    BytesSurvive(c.vaultPolicy, 28);
    BytesSurvive(c.termsHash, 32);
    OutRefSurvives(c.seed);
    TermsSurvive(c.terms, codec);
    LowerIsIdempotent(c.termsHash);
  }

  lemma ConfigDecoded(d: Data, codec: Codec)
    requires ConfigFromData(d, codec).Ok?
    ensures
      var c := ConfigFromData(d, codec).value;
      ConfigId(c) == c && EncodeConfig(c, codec).Ok? && EqualData(EncodeConfig(c, codec).value, d)
  {
    hide ParseHexOf, Lower, PrintHex, IsReference, OutRefData, OutRefFromData, RefId, TermsFromData, TermsShape, TermsId, TermsData;
    BytesDecoded(d.fields[2], 28);
    OutRefDecoded(d.fields[3]);
    BytesDecoded(d.fields[4], 32);
    TermsDecoded(d.fields[5], codec);
  }

  predicate IsRecovery(r: Recovery, codec: Codec) {
    RecoveryShape(r) && IsDestination(r.refund, codec)
  }

  function RecoveryData(r: Recovery): Data
    requires RecoveryShape(r)
  {
    C(0, [HexData(r.vaultPolicy), C(0, [HexData(r.controller)]), DestinationData(r.refund), Int(r.deadlinePosixMs)])
  }

  function RecoveryFromData(d: Data, codec: Codec): Result<Recovery> {
    var f :- Fields(d, 0, 4);
    var vaultPolicy :- ReadBytes(f[0], 28);
    var g :- Fields(f[1], 0, 1);
    var controller :- ReadBytes(g[0], 28);
    var refund :- DestinationFromData(f[2], codec);
    var deadline :- ReadInt(f[3], 1, Q_MAX);
    Ok(Recovery(vaultPolicy, controller, refund, deadline))
  }

  function RecoveryId(r: Recovery): Recovery {
    r.(vaultPolicy := Lower(r.vaultPolicy), controller := Lower(r.controller), refund := DestinationId(r.refund))
  }

  lemma RecoverySurvives(r: Recovery, codec: Codec)
    requires IsRecovery(r, codec)
    ensures RecoveryFromData(RecoveryData(r), codec) == Ok(RecoveryId(r))
    ensures IsRecovery(RecoveryId(r), codec) && RecoveryData(RecoveryId(r)) == RecoveryData(r)
  {
    hide ParseHexOf, Lower, ReadBytes, IsAddress, DestinationData, DestinationFromData, IsBounded;
    BytesSurvive(r.vaultPolicy, 28);
    BytesSurvive(r.controller, 28);
    DestinationSurvives(r.refund, codec);
  }

  lemma RecoveryDecoded(d: Data, codec: Codec)
    requires RecoveryFromData(d, codec).Ok?
    ensures
      var r := RecoveryFromData(d, codec).value;
      IsRecovery(r, codec) && RecoveryId(r) == r && EqualData(RecoveryData(r), d)
  {
    hide ParseHexOf, Lower, PrintHex, IsAddress, DestinationData, DestinationFromData, IsBounded, DestinationId;
    BytesDecoded(d.fields[0], 28);
    BytesDecoded(d.fields[1].fields[0], 28);
    DestinationDecoded(d.fields[2], codec);
    assert EqualData(C(0, [HexData(RecoveryFromData(d, codec).value.controller)]), d.fields[1]);
  }

  predicate IsBody(b: RequestBody, codec: Codec) {
    BodyShape(b) && IsDestination(b.receiver, codec)
  }

  function BodyData(b: RequestBody): Data
    requires BodyShape(b)
  {
    C(0, [
      HexData(b.termsHash), C(if b.kind.DepositRequest? then 0 else 1, []), Int(b.offered), Int(b.minimumOutput),
      DestinationData(b.receiver), Int(b.storageLovelace), Int(b.executionBudget), Int(b.settlerFee)])
  }

  function KindFromData(d: Data): Result<RequestKind> {
    var index := if d.Constr? then ConstructorIndex(d.tag) else Err(InvalidShape);
    :- Need(index == Ok(0) || index == Ok(1), InvalidShape);
    var _ :- Fields(d, index.value, 0);
    Ok(if index.value == 0 then DepositRequest else RedeemRequest)
  }

  function BodyFromData(d: Data, codec: Codec): Result<RequestBody> {
    var f :- Fields(d, 0, 8);
    var kind :- KindFromData(f[1]);
    var termsHash :- ReadBytes(f[0], 32);
    var offered :- ReadInt(f[2], 1, Q_MAX);
    var minimumOutput :- ReadInt(f[3], 1, Q_MAX);
    var receiver :- DestinationFromData(f[4], codec);
    var storageLovelace :- ReadInt(f[5], 1, Q_MAX);
    var executionBudget :- ReadInt(f[6], 0, Q_MAX);
    var settlerFee :- ReadInt(f[7], 0, Q_MAX);
    var body := RequestBody(termsHash, kind, offered, minimumOutput, receiver, storageLovelace, executionBudget, settlerFee);
    :- Need(IsBody(body, codec), OutOfRange);
    Ok(body)
  }

  function BodyId(b: RequestBody): RequestBody {
    b.(termsHash := Lower(b.termsHash), receiver := DestinationId(b.receiver))
  }

  lemma BodySurvives(b: RequestBody, codec: Codec)
    requires IsBody(b, codec)
    ensures BodyFromData(BodyData(b), codec) == Ok(BodyId(b))
    ensures IsBody(BodyId(b), codec) && BodyData(BodyId(b)) == BodyData(b)
  {
    hide ParseHexOf, Lower, ReadBytes, IsAddress, DestinationData, DestinationFromData, IsBounded;
    BytesSurvive(b.termsHash, 32);
    DestinationSurvives(b.receiver, codec);
  }

  lemma BodyDecoded(d: Data, codec: Codec)
    requires BodyFromData(d, codec).Ok?
    ensures
      var b := BodyFromData(d, codec).value;
      IsBody(b, codec) && BodyId(b) == b && EqualData(BodyData(b), d)
  {
    hide ParseHexOf, Lower, PrintHex, IsAddress, DestinationData, DestinationFromData, IsBounded, DestinationId;
    BytesDecoded(d.fields[0], 32);
    DestinationDecoded(d.fields[4], codec);
  }

  function RequestData(r: Request): Data
    requires RecoveryShape(r.recovery) && BodyShape(r.body)
  {
    C(1, [Bytes(MAGIC), Int(WIRE_VERSION), RecoveryData(r.recovery), BodyData(r.body)])
  }

  function EncodeRequest(r: Request, codec: Codec): Result<Data> {
    if IsRecovery(r.recovery, codec) && IsBody(r.body, codec) && codec.size(RequestData(r)) <= MAX_REQUEST_BYTES
    then Ok(RequestData(r)) else Err(OutOfRange)
  }

  /** The Recovery of a Request envelope, with its economic body uninterpreted. */
  function EnvelopeFromData(d: Data, codec: Codec): Result<(Recovery, Data)> {
    var f :- Fields(d, 1, 4);
    :- Need(IsVersion(f[0], f[1]), InvalidShape);
    var recovery :- RecoveryFromData(f[2], codec);
    Ok((recovery, f[3]))
  }

  function RequestFromData(d: Data, codec: Codec): Result<Request> {
    var envelope :- EnvelopeFromData(d, codec);
    var body :- BodyFromData(envelope.1, codec);
    var request := Request(envelope.0, body);
    var _ :- EncodeRequest(request, codec);
    Ok(request)
  }

  function RequestId(r: Request): Request {
    Request(RecoveryId(r.recovery), BodyId(r.body))
  }

  lemma RequestSurvives(r: Request, codec: Codec)
    requires EncodeRequest(r, codec).Ok?
    ensures RequestFromData(EncodeRequest(r, codec).value, codec) == Ok(RequestId(r))
    ensures EncodeRequest(RequestId(r), codec) == EncodeRequest(r, codec)
  {
    hide RecoveryData, RecoveryFromData, BodyData, BodyFromData, RecoveryShape, BodyShape, RecoveryId, BodyId, IsDestination;
    RecoverySurvives(r.recovery, codec);
    BodySurvives(r.body, codec);
  }

  lemma RequestDecoded(d: Data, codec: Codec)
    requires RequestFromData(d, codec).Ok?
    ensures
      var r := RequestFromData(d, codec).value;
      RequestId(r) == r && EncodeRequest(r, codec).Ok? && EqualData(EncodeRequest(r, codec).value, d)
  {
    hide RecoveryData, RecoveryFromData, BodyData, BodyFromData, RecoveryShape, BodyShape, RecoveryId, BodyId, IsDestination;
    RecoveryDecoded(d.fields[2], codec);
    BodyDecoded(d.fields[3], codec);
  }

  predicate IsClaim(c: Claim, codec: Codec) {
    ClaimShape(c) && IsDestination(c.receiver, codec)
  }

  function ClaimData(c: Claim): Data
    requires ClaimShape(c)
  {
    C(2, [
      Bytes(MAGIC), Int(WIRE_VERSION), HexData(c.vaultPolicy), OutRefData(c.requestRef), OutRefData(c.stateRef),
      HexData(c.termsHash), AssetData(c.asset), Int(c.economicQuantity), DestinationData(c.receiver), Int(c.carriedLovelace)])
  }

  function EncodeClaim(c: Claim, codec: Codec): Result<Data> {
    if IsClaim(c, codec) && codec.size(ClaimData(c)) <= MAX_CLAIM_BYTES then Ok(ClaimData(c)) else Err(OutOfRange)
  }

  function ClaimFromData(d: Data, codec: Codec): Result<Claim> {
    var f :- Fields(d, 2, 10);
    :- Need(IsVersion(f[0], f[1]), InvalidShape);
    var vaultPolicy :- ReadBytes(f[2], 28);
    var requestRef :- OutRefFromData(f[3]);
    var stateRef :- OutRefFromData(f[4]);
    var termsHash :- ReadBytes(f[5], 32);
    var asset :- AssetFromData(f[6]);
    var economicQuantity :- ReadInt(f[7], 1, Q_MAX);
    var receiver :- DestinationFromData(f[8], codec);
    var carriedLovelace :- ReadInt(f[9], 1, Q_MAX);
    var claim := Claim(vaultPolicy, requestRef, stateRef, termsHash, asset, economicQuantity, receiver, carriedLovelace);
    var _ :- EncodeClaim(claim, codec);
    Ok(claim)
  }

  function ClaimId(c: Claim): Claim {
    c.(vaultPolicy := Lower(c.vaultPolicy), requestRef := RefId(c.requestRef), stateRef := RefId(c.stateRef),
       termsHash := Lower(c.termsHash), asset := AssetId(c.asset), receiver := DestinationId(c.receiver))
  }

  lemma ClaimSurvives(c: Claim, codec: Codec)
    requires EncodeClaim(c, codec).Ok?
    ensures ClaimFromData(EncodeClaim(c, codec).value, codec) == Ok(ClaimId(c))
    ensures EncodeClaim(ClaimId(c), codec) == EncodeClaim(c, codec)
  {
    hide ParseHexOf, Lower, ReadBytes, IsAddress, IsBounded, IsReference, IsAsset;
    hide DestinationData, DestinationFromData, OutRefData, OutRefFromData, AssetData, AssetFromData, RefId;
    BytesSurvive(c.vaultPolicy, 28);
    OutRefSurvives(c.requestRef);
    OutRefSurvives(c.stateRef);
    BytesSurvive(c.termsHash, 32);
    AssetSurvives(c.asset);
    DestinationSurvives(c.receiver, codec);
  }

  lemma ClaimDecoded(d: Data, codec: Codec)
    requires ClaimFromData(d, codec).Ok?
    ensures
      var c := ClaimFromData(d, codec).value;
      ClaimId(c) == c && EncodeClaim(c, codec).Ok? && EqualData(EncodeClaim(c, codec).value, d)
  {
    hide ParseHexOf, Lower, PrintHex, IsAddress, IsBounded, IsReference, IsAsset, DestinationId, AssetId, RefId;
    hide DestinationData, DestinationFromData, OutRefData, OutRefFromData, AssetData, AssetFromData;
    BytesDecoded(d.fields[2], 28);
    OutRefDecoded(d.fields[3]);
    OutRefDecoded(d.fields[4]);
    BytesDecoded(d.fields[5], 32);
    AssetDecoded(d.fields[6]);
    DestinationDecoded(d.fields[8], codec);
  }

  /** No Data decodes as two of the four datum kinds. */
  lemma DatumKindsAreDisjoint(d: Data, codec: Codec)
    ensures StateFromData(d, codec).Ok? ==> EnvelopeFromData(d, codec).Err? && ClaimFromData(d, codec).Err? && ConfigFromData(d, codec).Err?
    ensures EnvelopeFromData(d, codec).Ok? ==> ClaimFromData(d, codec).Err? && ConfigFromData(d, codec).Err?
    ensures ClaimFromData(d, codec).Ok? ==> ConfigFromData(d, codec).Err?
    ensures RequestFromData(d, codec).Ok? ==> EnvelopeFromData(d, codec).Ok?
  {
  }

  /** The one reading that Data has as a datum. */
  function Classify(d: Data, codec: Codec): Datum {
    if StateFromData(d, codec).Ok? then StateDatum(StateFromData(d, codec).value)
    else if RequestFromData(d, codec).Ok? then RequestDatum(RequestFromData(d, codec).value)
    else if EnvelopeFromData(d, codec).Ok? then
      RecoveryDatum(EnvelopeFromData(d, codec).value.0, EnvelopeFromData(d, codec).value.1)
    else if ClaimFromData(d, codec).Ok? then ClaimDatum(ClaimFromData(d, codec).value)
    else if ConfigFromData(d, codec).Ok? then ConfigDatum(ConfigFromData(d, codec).value)
    else OpaqueDatum(d)
  }

  /** The classification says of every decoder, tried alone, whether it accepts and what it returns. */
  lemma ClassificationIsComplete(d: Data, codec: Codec)
    ensures
      var datum := Classify(d, codec);
      && (StateFromData(d, codec).Ok? <==> datum.StateDatum?)
      && (datum.StateDatum? ==> StateFromData(d, codec) == Ok(datum.state))
      && (RequestFromData(d, codec).Ok? <==> datum.RequestDatum?)
      && (datum.RequestDatum? ==> RequestFromData(d, codec) == Ok(datum.request))
      && (EnvelopeFromData(d, codec).Ok? <==> datum.RequestDatum? || datum.RecoveryDatum?)
      && (datum.RequestDatum? ==> EnvelopeFromData(d, codec).value.0 == datum.request.recovery)
      && (datum.RecoveryDatum? ==> EnvelopeFromData(d, codec).value.0 == datum.recovery)
      && (ClaimFromData(d, codec).Ok? <==> datum.ClaimDatum?)
      && (datum.ClaimDatum? ==> ClaimFromData(d, codec) == Ok(datum.claim))
      && (ConfigFromData(d, codec).Ok? <==> datum.ConfigDatum?)
      && (datum.ConfigDatum? ==> ConfigFromData(d, codec) == Ok(datum.config))
  {
    DatumKindsAreDisjoint(d, codec);
    hide StateFromData, ClaimFromData, ConfigFromData, EnvelopeFromData;
  }
}
