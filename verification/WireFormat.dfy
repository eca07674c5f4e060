/** The wire format as a relation between Data and records, field by field, and that the decoders accept exactly it. */
module WireFormat {
  import opened Results
  import opened PlutusData
  import opened Types
  import opened Arithmetic
  import opened HexStrings
  import opened Values
  import opened References
  import opened Planning
  import opened DataValues
  import opened BoundedData
  import opened WirePrimitives
  import opened WireTerms
  import opened WireDatums
  import opened WireActions
  import opened Premises
  import opened Intents

  /** A constructor of one alternative, in either spelling, with exactly so many fields. */
  predicate IsAlternative(d: Data, n: int, arity: nat) {
    d.Constr? && d.tag in {Num(n), Big(n)} && |d.fields| == arity
  }

  lemma AlternativeMeans(d: Data, n: int, arity: nat)
    requires 0 <= n < 128
    ensures Fields(d, n, arity).Ok? <==> IsAlternative(d, n, arity)
    ensures d.Constr? ==> (ConstructorIndex(d.tag) == Ok(n) <==> d.tag in {Num(n), Big(n)})
  {
  }

  lemma AllAlternativesMean()
    ensures forall d, n, arity: nat :: 0 <= n < 128 ==> (Fields(d, n, arity).Ok? <==> IsAlternative(d, n, arity))
    ensures forall d: Data, n :: 0 <= n < 128 && d.Constr? ==> (ConstructorIndex(d.tag) == Ok(n) <==> d.tag in {Num(n), Big(n)})
  {
    hide Fields, IsAlternative, ConstructorIndex;
    forall d, n, arity: nat | 0 <= n < 128
      ensures Fields(d, n, arity).Ok? <==> IsAlternative(d, n, arity)
    {
      AlternativeMeans(d, n, arity);
    }
    forall d: Data, n | 0 <= n < 128 && d.Constr?
      ensures ConstructorIndex(d.tag) == Ok(n) <==> d.tag in {Num(n), Big(n)}
    {
      AlternativeMeans(d, n, 0);
    }
  }

  /** Bytes of a fixed length, read as lower-case text. */
  predicate WritesBytes(d: Data, h: Hex, length: nat) {
    d.Bytes? && |d.b| == length && h == PrintHex(d.b)
  }

  predicate WritesNumber(d: Data, n: int, min: int, max: int) {
    d == Int(n) && min <= n <= max
  }

  lemma LeavesMean(d: Data, h: Hex, length: nat, n: int, min: int, max: int)
    ensures ReadBytes(d, length) == Ok(h) <==> WritesBytes(d, h, length)
    ensures ReadInt(d, min, max) == Ok(n) <==> WritesNumber(d, n, min, max)
  {
  }

  lemma AllLeavesMean()
    ensures forall d, h, length: nat :: ReadBytes(d, length) == Ok(h) <==> WritesBytes(d, h, length)
    ensures forall d, n, min, max :: ReadInt(d, min, max) == Ok(n) <==> WritesNumber(d, n, min, max)
  {
    hide ReadBytes, ReadInt, WritesBytes, WritesNumber;
    forall d, h, length: nat ensures ReadBytes(d, length) == Ok(h) <==> WritesBytes(d, h, length) {
      LeavesMean(d, h, length, 0, 0, 0);
    }
    forall d, n, min, max ensures ReadInt(d, min, max) == Ok(n) <==> WritesNumber(d, n, min, max) {
      LeavesMean(d, "", 0, n, min, max);
    }
  }

  /** The magic "CTVS" and wire version 2. */
  predicate IsMarked(f: seq<Data>) {
    |f| > 1 && f[0] == Bytes([0x43, 0x54, 0x56, 0x53]) && f[1] == Int(2)
  }

  predicate WritesCredential(d: Data, c: Credential) {
    && (if c.kind == Key then IsAlternative(d, 0, 1) else IsAlternative(d, 1, 1))
    && WritesBytes(d.fields[0], c.hash, 28)
  }

  lemma CredentialMeans(d: Data, c: Credential)
    ensures CredentialFromData(d) == Ok(c) <==> WritesCredential(d, c)
  {
    hide ReadBytes, WritesBytes;
    AllLeavesMean();
    AlternativeMeans(d, 0, 1);
    AlternativeMeans(d, 1, 1);
  }

  /** Absence is alternative 1 without fields, presence alternative 0 with one. */
  predicate WritesOption(d: Data, value: Option<Data>) {
    match value
    case None => IsAlternative(d, 1, 0)
    case Some(v) => IsAlternative(d, 0, 1) && d.fields[0] == v
  }

  lemma OptionMeans(d: Data, value: Option<Data>)
    ensures ReadOption(d) == Ok(value) <==> WritesOption(d, value)
  {
    AlternativeMeans(d, 1, 0);
    AlternativeMeans(d, 0, 1);
  }

  predicate WritesAddress(d: Data, a: Address) {
    && IsAlternative(d, 0, 2) && WritesCredential(d.fields[0], a.payment)
    && match a.stake
       case None => IsAlternative(d.fields[1], 1, 0)
       case Some(stake) =>
         && IsAlternative(d.fields[1], 0, 1) && IsAlternative(d.fields[1].fields[0], 0, 1)
         && WritesCredential(d.fields[1].fields[0].fields[0], stake)
  }

  lemma AddressMeans(d: Data, a: Address)
    ensures AddressFromData(d) == Ok(a) <==> WritesAddress(d, a)
  {
    hide CredentialFromData, WritesCredential, Fields, ConstructorIndex, IsAlternative;
    AllAlternativesMean();
    if IsAlternative(d, 0, 2) {
      CredentialMeans(d.fields[0], a.payment);
      OptionMeans(d.fields[1], None);
      if ReadOption(d.fields[1]).Ok? && ReadOption(d.fields[1]).value.Some? {
        var inline := ReadOption(d.fields[1]).value.value;
        OptionMeans(d.fields[1], Some(inline));
        if IsAlternative(inline, 0, 1) && a.stake.Some? {
          CredentialMeans(inline.fields[0], a.stake.value);
        }
      }
    }
  }

  predicate WritesDestination(d: Data, to: Destination, codec: Codec) {
    && IsAlternative(d, 0, 2) && WritesAddress(d.fields[0], to.address) && WritesOption(d.fields[1], to.datum)
    && (to.datum.Some? ==> IsBounded(to.datum.value, codec.size))
  }

  lemma DestinationMeans(d: Data, to: Destination, codec: Codec)
    ensures DestinationFromData(d, codec) == Ok(to) <==> WritesDestination(d, to, codec)
  {
    hide AddressFromData, WritesAddress, ReadOption, WritesOption, Fields, IsAlternative, IsBounded;
    AlternativeMeans(d, 0, 2);
    forall e, a ensures AddressFromData(e) == Ok(a) <==> WritesAddress(e, a) {
      AddressMeans(e, a);
    }
    forall e, v ensures ReadOption(e) == Ok(v) <==> WritesOption(e, v) {
      OptionMeans(e, v);
    }
  }

  /** ADA is alternative 0; a token is alternative 1 with its policy and a name of at most 32 bytes. */
  predicate WritesAsset(d: Data, a: Asset) {
    match a
    case Ada => IsAlternative(d, 0, 0)
    case Native(policy, name) =>
      && IsAlternative(d, 1, 2) && WritesBytes(d.fields[0], policy, 28)
      && d.fields[1].Bytes? && |d.fields[1].b| <= 32 && name == PrintHex(d.fields[1].b)
  }

  lemma AssetMeans(d: Data, a: Asset)
    ensures AssetFromData(d) == Ok(a) <==> WritesAsset(d, a)
  {
    hide PrintHex;
    AlternativeMeans(d, 0, 0);
    AlternativeMeans(d, 1, 2);
  }

  predicate WritesRef(d: Data, ref: OutRef) {
    IsAlternative(d, 0, 2) && WritesBytes(d.fields[0], ref.txId, 32) && WritesNumber(d.fields[1], ref.index, 0, 65_535)
  }

  lemma RefMeans(d: Data, ref: OutRef)
    ensures OutRefFromData(d) == Ok(ref) <==> WritesRef(d, ref)
  {
    hide PrintHex;
    AlternativeMeans(d, 0, 2);
  }

  predicate WritesKeyOption(d: Data, key: Option<Hex>, length: nat) {
    match key
    case None => IsAlternative(d, 1, 0)
    case Some(h) => IsAlternative(d, 0, 1) && WritesBytes(d.fields[0], h, length)
  }

  lemma KeyOptionMeans(d: Data, key: Option<Hex>, length: nat)
    ensures ReadKeyOption(d, length) == Ok(key) <==> WritesKeyOption(d, key, length)
  {
    hide PrintHex;
    AlternativeMeans(d, 1, 0);
    AlternativeMeans(d, 0, 1);
  }

  predicate WritesNumberOption(d: Data, n: Option<int>, max: int) {
    match n
    case None => IsAlternative(d, 1, 0)
    case Some(i) => IsAlternative(d, 0, 1) && WritesNumber(d.fields[0], i, 0, max)
  }

  lemma NumberOptionsMean(d: Data, n: Option<int>)
    ensures ReadQuantityOption(d) == Ok(n) <==> WritesNumberOption(d, n, 9_223_372_036_854_775_807)
    ensures ReadIndexOption(d) == Ok(n) <==> WritesNumberOption(d, n, 65_535)
  {
    AlternativeMeans(d, 1, 0);
    AlternativeMeans(d, 0, 1);
  }

  /** Anyone may settle under alternative 0; under alternative 1, the members of a strictly ordered list of keys. */
  predicate WritesSettlers(d: Data, settlers: Option<seq<Hex>>) {
    match settlers
    case None => IsAlternative(d, 0, 0)
    case Some(keys) =>
      && IsAlternative(d, 1, 1) && d.fields[0].List? && |d.fields[0].items| == |keys| && IsMembership(keys)
      && forall i :: 0 <= i < |keys| ==> WritesBytes(d.fields[0].items[i], keys[i], 28)
  }

  lemma SettlersMean(d: Data, settlers: Option<seq<Hex>>)
    ensures SettlersFromData(d) == Ok(settlers) <==> WritesSettlers(d, settlers)
  {
    hide IsKeySet, IsMembership, PrintHex, ConstructorIndex, IsAlternative;
    AlternativeMeans(d, 0, 0);
    AlternativeMeans(d, 1, 1);
    forall keys ensures IsKeySet(keys) <==> IsMembership(keys) {
      MembershipMeans(keys);
    }
    if Fields(d, 1, 1).Ok? && d.fields[0].List? && settlers.Some? {
      var items := d.fields[0].items;
      if WritesSettlers(d, settlers) {
        assert forall i :: 0 <= i < |items| ==> ReadBytes(items[i], 28) == Ok(settlers.value[i]);
        assert settlers.value == seq(|items|, i requires 0 <= i < |items| => ReadBytes(items[i], 28).value);
      }
    }
  }

  lemma BytesMean(d: Data, h: Hex, length: nat)
    ensures ReadBytes(d, length) == Ok(h) <==> WritesBytes(d, h, length)
  {
    hide PrintHex;
  }

  lemma NumberMeans(d: Data, n: int, min: int, max: int)
    ensures ReadInt(d, min, max) == Ok(n) <==> WritesNumber(d, n, min, max)
  {
  }

  predicate WritesAmount(d: Data, n: int) {
    WritesNumber(d, n, 0, 9_223_372_036_854_775_807)
  }

  predicate WritesPositive(d: Data, n: int) {
    WritesNumber(d, n, 1, 9_223_372_036_854_775_807)
  }

  lemma AmountMeans(d: Data, n: int)
    ensures ReadInt(d, 0, Q_MAX) == Ok(n) <==> WritesAmount(d, n)
    ensures ReadInt(d, 1, Q_MAX) == Ok(n) <==> WritesPositive(d, n)
  {
  }

  /** A State: ten fields of alternative 0, at most 256 bytes when re-encoded. */
  predicate WritesState(d: Data, s: State, codec: Codec) {
    && IsAlternative(d, 0, 10) && IsMarked(d.fields)
    && WritesBytes(d.fields[2], s.vaultPolicy, 28) && WritesBytes(d.fields[3], s.termsHash, 32)
    && WritesAmount(d.fields[4], s.sequence) && WritesAmount(d.fields[5], s.backingAssets)
    && WritesAmount(d.fields[6], s.economicSupply) && WritesAmount(d.fields[7], s.accruedFees)
    && WritesPositive(d.fields[8], s.storageLovelace) && WritesNumber(d.fields[9], s.pauseFlags, 0, 3)
    && StateShape(s) && codec.size(StateData(s)) <= 256
  }

  lemma StateFormat(d: Data, s: State, codec: Codec)
    ensures StateFromData(d, codec) == Ok(s) <==> WritesState(d, s, codec)
  {
    hide ReadBytes, ReadInt, WritesBytes, WritesNumber, WritesAmount, WritesPositive, IsAlternative, StateShape, StateData;
    AlternativeMeans(d, 0, 10);
    if IsAlternative(d, 0, 10) {
      var f := d.fields;
      assert IsVersion(f[0], f[1]) <==> IsMarked(f);
      BytesMean(f[2], s.vaultPolicy, 28);
      BytesMean(f[3], s.termsHash, 32);
      AmountMeans(f[4], s.sequence);
      AmountMeans(f[5], s.backingAssets);
      AmountMeans(f[6], s.economicSupply);
      AmountMeans(f[7], s.accruedFees);
      AmountMeans(f[8], s.storageLovelace);
      NumberMeans(f[9], s.pauseFlags, 0, 3);
    }
  }

  /** Terms: thirteen fields of alternative 0 in commitment order, at most 4096 bytes when re-encoded. */
  predicate WritesTerms(d: Data, t: Terms, codec: Codec) {
    && IsAlternative(d, 0, 13)
    && WritesNumber(d.fields[0], t.profile, 0, 0) && WritesBytes(d.fields[1], t.networkDomain, 32)
    && WritesAsset(d.fields[2], t.underlying) && WritesPositive(d.fields[3], t.virtualShares)
    && WritesNumberOption(d.fields[4], t.maxBacking, 9_223_372_036_854_775_807)
    && WritesNumber(d.fields[5], t.entryBps, 0, 9999) && WritesNumber(d.fields[6], t.exitBps, 0, 9999)
    && WritesDestination(d.fields[7], t.feeDestination, codec) && WritesKeyOption(d.fields[8], t.pauseKey, 28)
    && WritesSettlers(d.fields[9], t.settlers) && WritesNumber(d.fields[10], t.executionModes, 1, 15)
    && WritesNumber(d.fields[11], t.maxBatch, 1, 16) && WritesKeyOption(d.fields[12], t.descriptorHash, 32)
    && IsTerms(t, codec) && codec.size(TermsData(t)) <= 4096
  }

  lemma TermsFieldsMean(f: seq<Data>, t: Terms, codec: Codec)
    requires |f| == 13
    ensures ReadTerms(f, codec) == Ok(t) <==>
      && WritesNumber(f[0], t.profile, 0, 0) && WritesBytes(f[1], t.networkDomain, 32)
      && WritesAsset(f[2], t.underlying) && WritesPositive(f[3], t.virtualShares)
      && WritesNumberOption(f[4], t.maxBacking, 9_223_372_036_854_775_807)
      && WritesNumber(f[5], t.entryBps, 0, 9999) && WritesNumber(f[6], t.exitBps, 0, 9999)
      && WritesDestination(f[7], t.feeDestination, codec) && WritesKeyOption(f[8], t.pauseKey, 28)
      && WritesSettlers(f[9], t.settlers) && WritesNumber(f[10], t.executionModes, 1, 15)
      && WritesNumber(f[11], t.maxBatch, 1, 16) && WritesKeyOption(f[12], t.descriptorHash, 32)
  {
    hide ReadBytes, ReadInt, WritesBytes, WritesNumber, WritesPositive, AssetFromData, WritesAsset, ReadQuantityOption, WritesNumberOption,
      DestinationFromData, WritesDestination, ReadKeyOption, WritesKeyOption, SettlersFromData, WritesSettlers;
    NumberMeans(f[0], t.profile, 0, 0);
    BytesMean(f[1], t.networkDomain, 32);
    AssetMeans(f[2], t.underlying);
    AmountMeans(f[3], t.virtualShares);
    NumberOptionsMean(f[4], t.maxBacking);
    NumberMeans(f[5], t.entryBps, 0, 9999);
    NumberMeans(f[6], t.exitBps, 0, 9999);
    DestinationMeans(f[7], t.feeDestination, codec);
    KeyOptionMeans(f[8], t.pauseKey, 28);
    SettlersMean(f[9], t.settlers);
    NumberMeans(f[10], t.executionModes, 1, 15);
    NumberMeans(f[11], t.maxBatch, 1, 16);
    KeyOptionMeans(f[12], t.descriptorHash, 32);
  }

  lemma TermsFormat(d: Data, t: Terms, codec: Codec)
    ensures TermsFromData(d, codec) == Ok(t) <==> WritesTerms(d, t, codec)
  {
    hide ReadTerms, IsTerms, IsAlternative, WritesBytes, WritesNumber, WritesPositive, WritesAsset, WritesNumberOption, WritesDestination,
      WritesKeyOption, WritesSettlers, TermsData;
    AlternativeMeans(d, 0, 13);
    if IsAlternative(d, 0, 13) {
      TermsFieldsMean(d.fields, t, codec);
    }
  }

  /** A Config: seven fields of alternative 3 that commit to their own Terms, at most 4608 bytes when re-encoded. */
  predicate WritesConfig(d: Data, c: Config, codec: Codec) {
    && IsAlternative(d, 3, 7) && IsMarked(d.fields)
    && WritesBytes(d.fields[2], c.vaultPolicy, 28) && WritesRef(d.fields[3], c.seed) && WritesBytes(d.fields[4], c.termsHash, 32)
    && WritesTerms(d.fields[5], c.terms, codec) && WritesPositive(d.fields[6], c.storageLovelace)
    && IsConfig(c, codec) && codec.commitment(TermsData(c.terms)) == c.termsHash && codec.size(ConfigData(c, codec)) <= 4608
  }

  lemma ConfigCommits(c: Config, codec: Codec, d: Data)
    requires IsConfig(c, codec) && WritesBytes(d, c.termsHash, 32)
    ensures codec.commitment(TermsData(c.terms)) == c.termsHash
  {
    hide PrintHex, Lower, ParseHexOf, EncodeTerms, TermsData;
    PrintThenParse(d.b);
    ParseThenPrint(PrintHex(d.b));
  }

  lemma ConfigFormat(d: Data, c: Config, codec: Codec)
    ensures ConfigFromData(d, codec) == Ok(c) <==> WritesConfig(d, c, codec)
  {
    hide ReadBytes, ReadInt, WritesBytes, WritesPositive, IsAlternative, IsConfig, ConfigData, OutRefFromData, WritesRef, TermsFromData,
      WritesTerms;
    AlternativeMeans(d, 3, 7);
    if IsAlternative(d, 3, 7) {
      var f := d.fields;
      assert IsVersion(f[0], f[1]) <==> IsMarked(f);
      BytesMean(f[2], c.vaultPolicy, 28);
      RefMeans(f[3], c.seed);
      BytesMean(f[4], c.termsHash, 32);
      TermsFormat(f[5], c.terms, codec);
      AmountMeans(f[6], c.storageLovelace);
      if IsConfig(c, codec) && WritesBytes(f[4], c.termsHash, 32) {
        ConfigCommits(c, codec, f[4]);
      }
    }
  }

  predicate WritesRecovery(d: Data, r: Recovery, codec: Codec) {
    && IsAlternative(d, 0, 4) && WritesBytes(d.fields[0], r.vaultPolicy, 28)
    && IsAlternative(d.fields[1], 0, 1) && WritesBytes(d.fields[1].fields[0], r.controller, 28)
    && WritesDestination(d.fields[2], r.refund, codec) && WritesPositive(d.fields[3], r.deadlinePosixMs)
  }

  lemma RecoveryFormat(d: Data, r: Recovery, codec: Codec)
    ensures RecoveryFromData(d, codec) == Ok(r) <==> WritesRecovery(d, r, codec)
  {
    hide ReadBytes, ReadInt, WritesBytes, WritesPositive, IsAlternative, Fields, DestinationFromData, WritesDestination, ConstructorIndex;
    AllAlternativesMean();
    if IsAlternative(d, 0, 4) {
      var f := d.fields;
      BytesMean(f[0], r.vaultPolicy, 28);
      DestinationMeans(f[2], r.refund, codec);
      AmountMeans(f[3], r.deadlinePosixMs);
      if IsAlternative(f[1], 0, 1) {
        BytesMean(f[1].fields[0], r.controller, 28);
      }
    }
  }

  /** The Recovery of a Request envelope: four fields of alternative 1, the last one left as it is. */
  predicate WritesEnvelope(d: Data, r: Recovery, body: Data, codec: Codec) {
    IsAlternative(d, 1, 4) && IsMarked(d.fields) && WritesRecovery(d.fields[2], r, codec) && d.fields[3] == body
  }

  lemma EnvelopeFormat(d: Data, r: Recovery, body: Data, codec: Codec)
    ensures EnvelopeFromData(d, codec) == Ok((r, body)) <==> WritesEnvelope(d, r, body, codec)
  {
    hide RecoveryFromData, WritesRecovery, IsAlternative;
    AlternativeMeans(d, 1, 4);
    if IsAlternative(d, 1, 4) {
      assert IsVersion(d.fields[0], d.fields[1]) <==> IsMarked(d.fields);
      RecoveryFormat(d.fields[2], r, codec);
      if RecoveryFromData(d.fields[2], codec).Ok? {
        RecoveryFormat(d.fields[2], RecoveryFromData(d.fields[2], codec).value, codec);
      }
    }
  }

  /** The economics of a Request: eight fields, deposit as alternative 0 and redemption as 1; fee within budget within range. */
  predicate WritesBody(d: Data, b: RequestBody, codec: Codec) {
    && IsAlternative(d, 0, 8) && WritesBytes(d.fields[0], b.termsHash, 32)
    && IsAlternative(d.fields[1], if b.kind == DepositRequest then 0 else 1, 0)
    && WritesPositive(d.fields[2], b.offered) && WritesPositive(d.fields[3], b.minimumOutput)
    && WritesDestination(d.fields[4], b.receiver, codec) && WritesPositive(d.fields[5], b.storageLovelace)
    && WritesAmount(d.fields[6], b.executionBudget) && WritesAmount(d.fields[7], b.settlerFee)
    && b.settlerFee <= b.executionBudget && b.storageLovelace + b.executionBudget <= 9_223_372_036_854_775_807
  }

  lemma KindMeans(d: Data, kind: RequestKind)
    ensures KindFromData(d) == Ok(kind) <==> IsAlternative(d, if kind == DepositRequest then 0 else 1, 0)
  {
    AlternativeMeans(d, 0, 0);
    AlternativeMeans(d, 1, 0);
  }

  lemma WrittenIsHex(d: Data, h: Hex, length: nat)
    requires WritesBytes(d, h, length)
    ensures ParseHexOf(h, length).Ok?
  {
    hide PrintHex;
    PrintThenParse(d.b);
  }

  lemma WrittenDestination(d: Data, to: Destination, codec: Codec)
    requires WritesDestination(d, to, codec)
    ensures IsDestination(to, codec)
  {
    hide WritesDestination, DestinationFromData, IsAddress, IsBounded;
    DestinationMeans(d, to, codec);
    DestinationDecoded(d, codec);
  }

  lemma BodyFormat(d: Data, b: RequestBody, codec: Codec)
    ensures BodyFromData(d, codec) == Ok(b) <==> WritesBody(d, b, codec)
  {
    hide ReadBytes, ReadInt, WritesBytes, IsAlternative, DestinationFromData, WritesDestination, KindFromData, ParseHexOf, IsDestination;
    AlternativeMeans(d, 0, 8);
    if IsAlternative(d, 0, 8) {
      var f := d.fields;
      BytesMean(f[0], b.termsHash, 32);
      KindMeans(f[1], b.kind);
      AmountMeans(f[2], b.offered);
      AmountMeans(f[3], b.minimumOutput);
      DestinationMeans(f[4], b.receiver, codec);
      AmountMeans(f[5], b.storageLovelace);
      AmountMeans(f[6], b.executionBudget);
      AmountMeans(f[7], b.settlerFee);
      if WritesBody(d, b, codec) {
        WrittenIsHex(f[0], b.termsHash, 32);
        WrittenDestination(f[4], b.receiver, codec);
        DestinationIsAddress(b.receiver, codec);
      }
    }
  }

  lemma DestinationIsAddress(to: Destination, codec: Codec)
    requires IsDestination(to, codec)
    ensures IsAddress(to.address)
  {
  }

  /** A Request: its envelope and its economics, at most 4096 bytes when re-encoded. */
  predicate WritesRequest(d: Data, r: Request, codec: Codec) {
    && IsAlternative(d, 1, 4) && IsMarked(d.fields)
    && WritesRecovery(d.fields[2], r.recovery, codec) && WritesBody(d.fields[3], r.body, codec)
    && IsRecovery(r.recovery, codec) && IsBody(r.body, codec) && codec.size(RequestData(r)) <= 4096
  }

  lemma RequestFormat(d: Data, r: Request, codec: Codec)
    ensures RequestFromData(d, codec) == Ok(r) <==> WritesRequest(d, r, codec)
  {
    hide EnvelopeFromData, WritesRecovery, WritesBody, BodyFromData, IsRecovery, IsBody, RequestData, IsMarked;
    if EnvelopeFromData(d, codec).Ok? {
      var (recovery, body) := EnvelopeFromData(d, codec).value;
      EnvelopeFormat(d, recovery, body, codec);
    }
    if IsAlternative(d, 1, 4) {
      EnvelopeFormat(d, r.recovery, d.fields[3], codec);
      BodyFormat(d.fields[3], r.body, codec);
    }
  }

  /** A Claim: ten fields of alternative 2, at most 2048 bytes when re-encoded. */
  predicate WritesClaim(d: Data, c: Claim, codec: Codec) {
    && IsAlternative(d, 2, 10) && IsMarked(d.fields)
    && WritesBytes(d.fields[2], c.vaultPolicy, 28) && WritesRef(d.fields[3], c.requestRef) && WritesRef(d.fields[4], c.stateRef)
    && WritesBytes(d.fields[5], c.termsHash, 32) && WritesAsset(d.fields[6], c.asset)
    && WritesPositive(d.fields[7], c.economicQuantity) && WritesDestination(d.fields[8], c.receiver, codec)
    && WritesPositive(d.fields[9], c.carriedLovelace)
    && IsClaim(c, codec) && codec.size(ClaimData(c)) <= 2048
  }

  lemma ClaimFormat(d: Data, c: Claim, codec: Codec)
    ensures ClaimFromData(d, codec) == Ok(c) <==> WritesClaim(d, c, codec)
  {
    hide ReadBytes, ReadInt, WritesBytes, WritesPositive, IsAlternative, IsClaim, ClaimData, OutRefFromData, WritesRef, AssetFromData,
      WritesAsset, DestinationFromData, WritesDestination;
    AlternativeMeans(d, 2, 10);
    if IsAlternative(d, 2, 10) {
      var f := d.fields;
      assert IsVersion(f[0], f[1]) <==> IsMarked(f);
      BytesMean(f[2], c.vaultPolicy, 28);
      RefMeans(f[3], c.requestRef);
      RefMeans(f[4], c.stateRef);
      BytesMean(f[5], c.termsHash, 32);
      AssetMeans(f[6], c.asset);
      AmountMeans(f[7], c.economicQuantity);
      DestinationMeans(f[8], c.receiver, codec);
      AmountMeans(f[9], c.carriedLovelace);
    }
  }

  predicate WritesIndex(d: Data, n: int) {
    WritesNumber(d, n, 0, 65_535)
  }

  predicate WritesSettleEntry(d: Data, e: SettleEntry) {
    && IsAlternative(d, 0, 3) && WritesRef(d.fields[0], e.requestRef) && WritesIndex(d.fields[1], e.claimOutput)
    && WritesAmount(d.fields[2], e.claimTopup)
  }

  predicate WritesDeliverEntry(d: Data, e: DeliverEntry) {
    IsAlternative(d, 0, 2) && WritesRef(d.fields[0], e.claimRef) && WritesIndex(d.fields[1], e.receiverOutput)
  }

  lemma IndexMeans(d: Data, n: int)
    ensures ReadIndex(d) == Ok(n) <==> WritesIndex(d, n)
  {
  }

  lemma EntriesMean(d: Data, e: SettleEntry, v: DeliverEntry)
    ensures ReadSettleEntry(d) == Ok(e) <==> WritesSettleEntry(d, e)
    ensures ReadDeliverEntry(d) == Ok(v) <==> WritesDeliverEntry(d, v)
  {
    hide OutRefFromData, WritesRef, ReadIndex, WritesIndex, ReadInt, WritesAmount, IsAlternative;
    AlternativeMeans(d, 0, 3);
    AlternativeMeans(d, 0, 2);
    if d.Constr? && |d.fields| == 3 {
      RefMeans(d.fields[0], e.requestRef);
      IndexMeans(d.fields[1], e.claimOutput);
      AmountMeans(d.fields[2], e.claimTopup);
    } else if d.Constr? && |d.fields| == 2 {
      RefMeans(d.fields[0], v.claimRef);
      IndexMeans(d.fields[1], v.receiverOutput);
    }
    IsConstr(d);
  }

  lemma IsConstr(d: Data)
    ensures forall n, arity: nat :: IsAlternative(d, n, arity) ==> d.Constr? && |d.fields| == arity
  {
  }

  predicate WritesSettleEntries(d: Data, entries: seq<SettleEntry>) {
    d.List? && |d.items| == |entries| && forall i :: 0 <= i < |entries| ==> WritesSettleEntry(d.items[i], entries[i])
  }

  predicate WritesDeliverEntries(d: Data, entries: seq<DeliverEntry>) {
    d.List? && |d.items| == |entries| && forall i :: 0 <= i < |entries| ==> WritesDeliverEntry(d.items[i], entries[i])
  }

  lemma SettleListMeans(d: Data, entries: seq<SettleEntry>)
    ensures ReadSettleList(d) == Ok(entries) <==> WritesSettleEntries(d, entries)
  {
    hide ReadSettleEntry, WritesSettleEntry;
    if d.List? && |d.items| == |entries| {
      forall i | 0 <= i < |entries| ensures ReadSettleEntry(d.items[i]) == Ok(entries[i]) <==> WritesSettleEntry(d.items[i], entries[i]) {
        EntriesMean(d.items[i], entries[i], DeliverEntry(OutRef("", 0), 0));
      }
      if WritesSettleEntries(d, entries) {
        assert entries == seq(|d.items|, i requires 0 <= i < |d.items| => ReadSettleEntry(d.items[i]).value);
      }
    }
  }

  lemma DeliverListMeans(d: Data, entries: seq<DeliverEntry>)
    ensures ReadDeliverList(d) == Ok(entries) <==> WritesDeliverEntries(d, entries)
  {
    hide ReadDeliverEntry, WritesDeliverEntry;
    if d.List? && |d.items| == |entries| {
      forall i | 0 <= i < |entries| ensures ReadDeliverEntry(d.items[i]) == Ok(entries[i]) <==> WritesDeliverEntry(d.items[i], entries[i]) {
        EntriesMean(d.items[i], SettleEntry(OutRef("", 0), 0, 0), entries[i]);
      }
      if WritesDeliverEntries(d, entries) {
        assert entries == seq(|d.items|, i requires 0 <= i < |d.items| => ReadDeliverEntry(d.items[i]).value);
      }
    }
  }

  /** State actions: alternatives 0 to 3 are the direct operations, 4 the batch, 5 fees, 6 reserve, 7 pause. */
  predicate WritesStateAction(d: Data, r: StateRedeemer, codec: Codec) {
    match r
    case Direct(operation, receiver, amount, bound, stateOutput, receiverOutput) =>
      && IsAlternative(d, if operation == Deposit then 0 else if operation == Mint then 1 else if operation == Withdraw then 2 else 3, 5)
      && WritesDestination(d.fields[0], receiver, codec) && WritesPositive(d.fields[1], amount) && WritesPositive(d.fields[2], bound)
      && WritesIndex(d.fields[3], stateOutput) && WritesIndex(d.fields[4], receiverOutput)
    case Batch(stateOutput, entries, rewardKey, rewardOutput) =>
      && IsAlternative(d, 4, 4) && WritesIndex(d.fields[0], stateOutput) && WritesSettleEntries(d.fields[1], entries)
      && WritesBytes(d.fields[2], rewardKey, 28) && WritesNumberOption(d.fields[3], rewardOutput, 65_535)
    case CollectFees(stateOutput, feeOutput) =>
      IsAlternative(d, 5, 2) && WritesIndex(d.fields[0], stateOutput) && WritesIndex(d.fields[1], feeOutput)
    case TopUpReserve(topUp, stateOutput) =>
      IsAlternative(d, 6, 2) && WritesPositive(d.fields[0], topUp) && WritesIndex(d.fields[1], stateOutput)
    case SetPause(flags, stateOutput) =>
      IsAlternative(d, 7, 2) && WritesNumber(d.fields[0], flags, 0, 3) && WritesIndex(d.fields[1], stateOutput)
  }

  /** Request actions: 0 acknowledges, 1 cancels, 2 expires. Claim actions: 0 delivers. Mint actions: 0 initializes, 1 follows a State. */
  predicate WritesAction(d: Data, r: Redeemer, codec: Codec) {
    match r
    case StateAction(action) => WritesStateAction(d, action, codec)
    case RequestAction(Acknowledge(ref)) => IsAlternative(d, 0, 1) && WritesRef(d.fields[0], ref)
    case RequestAction(Refund(mode, index)) =>
      IsAlternative(d, if mode == Cancel then 1 else 2, 1) && WritesIndex(d.fields[0], index)
    case ClaimAction(Deliver(entries)) => IsAlternative(d, 0, 1) && WritesDeliverEntries(d.fields[0], entries)
    case MintAction(Initialize(configOutput, stateOutput)) =>
      IsAlternative(d, 0, 2) && WritesIndex(d.fields[0], configOutput) && WritesIndex(d.fields[1], stateOutput)
    case MintAction(SupplyUpdate(ref)) => IsAlternative(d, 1, 1) && WritesRef(d.fields[0], ref)
  }

  lemma DirectFormat(d: Data, operation: Operation, r: StateRedeemer, codec: Codec)
    ensures DirectFromData(d, operation, codec) == Ok(r) <==>
      r.Direct? && r.operation == operation && WritesStateAction(d, r, codec)
  {
    hide ReadInt, ReadIndex, WritesIndex, WritesPositive, DestinationFromData, WritesDestination, IsAlternative;
    AlternativeMeans(d, DirectTag(operation), 5);
    if IsAlternative(d, DirectTag(operation), 5) && r.Direct? {
      IsConstr(d);
      DestinationMeans(d.fields[0], r.receiver, codec);
      AmountMeans(d.fields[1], r.amount);
      AmountMeans(d.fields[2], r.bound);
      IndexMeans(d.fields[3], r.stateOutput);
      IndexMeans(d.fields[4], r.receiverOutput);
    }
  }

  lemma BatchFormat(d: Data, r: StateRedeemer, codec: Codec)
    ensures BatchFromData(d) == Ok(r) <==> r.Batch? && WritesStateAction(d, r, codec)
  {
    hide ReadBytes, WritesBytes, ReadIndex, WritesIndex, ReadSettleList, WritesSettleEntries, ReadIndexOption, WritesNumberOption, IsAlternative;
    AlternativeMeans(d, 4, 4);
    if IsAlternative(d, 4, 4) && r.Batch? {
      IsConstr(d);
      IndexMeans(d.fields[0], r.stateOutput);
      SettleListMeans(d.fields[1], r.entries);
      BytesMean(d.fields[2], r.rewardKey, 28);
      NumberOptionsMean(d.fields[3], r.rewardOutput);
    }
  }

  lemma StateActionFormat(d: Data, r: StateRedeemer, codec: Codec)
    ensures StateActionFromData(d, codec) == Ok(r) <==> WritesStateAction(d, r, codec)
  {
    hide ReadInt, ReadIndex, WritesIndex, WritesPositive, WritesNumber, DirectFromData, BatchFromData, WritesDestination, WritesSettleEntries,
      WritesBytes, WritesNumberOption, ConstructorIndex, Fields;
    AllAlternativesMean();
    DirectFormat(d, Deposit, r, codec);
    DirectFormat(d, Mint, r, codec);
    DirectFormat(d, Withdraw, r, codec);
    DirectFormat(d, Redeem, r, codec);
    BatchFormat(d, r, codec);
    if d.Constr? && |d.fields| == 2 && (r.CollectFees? || r.TopUpReserve? || r.SetPause?) {
      IndexMeans(d.fields[1], if r.CollectFees? then r.feeOutput else r.stateOutput);
      IndexMeans(d.fields[0], r.stateOutput);
      AmountMeans(d.fields[0], if r.TopUpReserve? then r.topUp else 0);
      NumberMeans(d.fields[0], if r.SetPause? then r.flags else 0, 0, 3);
    }
  }

  lemma ActionFormat(role: Role, d: Data, r: Redeemer, codec: Codec)
    ensures ActionFromData(role, d, codec) == Ok(r) <==> RoleOf(r) == role && WritesAction(d, r, codec)
  {
    hide StateActionFromData, WritesStateAction, OutRefFromData, WritesRef, ReadIndex, WritesIndex, ReadDeliverList, WritesDeliverEntries,
      ConstructorIndex, Fields;
    AllAlternativesMean();
    match r
    case StateAction(action) => StateActionFormat(d, action, codec);
    case RequestAction(Acknowledge(ref)) =>
      if d.Constr? && |d.fields| == 1 {
        RefMeans(d.fields[0], ref);
      }
    case RequestAction(Refund(_, index)) =>
      if d.Constr? && |d.fields| == 1 {
        IndexMeans(d.fields[0], index);
      }
    case ClaimAction(Deliver(entries)) =>
      if d.Constr? && |d.fields| == 1 {
        DeliverListMeans(d.fields[0], entries);
      }
    case MintAction(Initialize(configOutput, stateOutput)) =>
      if d.Constr? && |d.fields| == 2 {
        IndexMeans(d.fields[0], configOutput);
        IndexMeans(d.fields[1], stateOutput);
      }
    case MintAction(SupplyUpdate(ref)) =>
      if d.Constr? && |d.fields| == 1 {
        RefMeans(d.fields[0], ref);
      }
  }

  lemma EntryRebuilds(d: Data, e: SettleEntry)
    requires WritesSettleEntry(d, e)
    ensures IsSettleEntry(e) && EqualData(SettleEntryData(e), d)
  {
    hide WritesSettleEntry, OutRefFromData, OutRefData, IsReference;
    EntriesMean(d, e, DeliverEntry(OutRef("", 0), 0));
    SettleEntryCodec(e, d);
    OutRefDecoded(d.fields[0]);
  }

  lemma DeliveryRebuilds(d: Data, e: DeliverEntry)
    requires WritesDeliverEntry(d, e)
    ensures IsDeliverEntry(e) && EqualData(DeliverEntryData(e), d)
  {
    hide WritesDeliverEntry, OutRefFromData, OutRefData, IsReference;
    EntriesMean(d, SettleEntry(OutRef("", 0), 0, 0), e);
    DeliverEntryCodec(e, d);
    OutRefDecoded(d.fields[0]);
  }

  lemma ListsRebuild(d: Data, entries: seq<SettleEntry>, deliveries: seq<DeliverEntry>)
    ensures WritesSettleEntries(d, entries) ==>
      (forall i :: 0 <= i < |entries| ==> IsSettleEntry(entries[i])) && EqualData(List(SettleList(entries)), d)
    ensures WritesDeliverEntries(d, deliveries) ==>
      (forall i :: 0 <= i < |deliveries| ==> IsDeliverEntry(deliveries[i])) && EqualData(List(DeliverList(deliveries)), d)
  {
    hide WritesSettleEntry, WritesDeliverEntry, IsSettleEntry, IsDeliverEntry, SettleEntryData, DeliverEntryData;
    if WritesSettleEntries(d, entries) {
      forall i | 0 <= i < |entries| ensures IsSettleEntry(entries[i]) && EqualData(SettleEntryData(entries[i]), d.items[i]) {
        EntryRebuilds(d.items[i], entries[i]);
      }
    }
    if WritesDeliverEntries(d, deliveries) {
      forall i | 0 <= i < |deliveries| ensures IsDeliverEntry(deliveries[i]) && EqualData(DeliverEntryData(deliveries[i]), d.items[i]) {
        DeliveryRebuilds(d.items[i], deliveries[i]);
      }
    }
  }

  lemma LeavesRebuild(d: Data, h: Hex, length: nat, n: Option<int>, max: int, ref: OutRef)
    ensures WritesBytes(d, h, length) ==> ParseHexOf(h, length).Ok? && EqualData(HexData(h), d)
    ensures WritesNumberOption(d, n, max) ==> EqualData(OptionData(IndexOption(n)), d)
    ensures WritesRef(d, ref) ==> IsReference(ref) && EqualData(OutRefData(ref), d)
  {
    hide PrintHex, ParseHexOf, OutRefFromData, OutRefData, WritesRef;
    if WritesBytes(d, h, length) {
      BytesDecoded(d, length);
    }
    RefMeans(d, ref);
    if WritesRef(d, ref) {
      OutRefDecoded(d);
    }
  }

  lemma DestinationRebuilds(d: Data, to: Destination, codec: Codec)
    requires WritesDestination(d, to, codec)
    ensures IsDestination(to, codec) && IsAddress(to.address) && EqualData(DestinationData(to), d)
  {
    hide WritesDestination, DestinationFromData, IsAddress, IsBounded, DestinationData;
    DestinationMeans(d, to, codec);
    DestinationDecoded(d, codec);
    DestinationIsAddress(to, codec);
  }

  lemma BatchRebuilds(d: Data, r: StateRedeemer, codec: Codec)
    requires r.Batch? && WritesStateAction(d, r, codec) && IsStateAction(r, codec) && SortItems(r.entries, EntryRequest) == r.entries
    ensures EqualData(StateActionData(r, codec), d)
  {
    hide WritesDestination, WritesSettleEntries, WritesBytes, WritesNumberOption, IsDestination, ParseHexOf, HexData, SettleList,
      IsSettleEntry, SortableReferences, SortItems, OptionData, BatchIndices;
    ListsRebuild(d.fields[1], r.entries, []);
    LeavesRebuild(d.fields[2], r.rewardKey, 28, None, 0, OutRef("", 0));
    LeavesRebuild(d.fields[3], "", 0, r.rewardOutput, 65_535, OutRef("", 0));
    var rebuilt := StateActionData(r, codec);
    assert EqualData(rebuilt.fields[0], d.fields[0]) && EqualData(rebuilt.fields[1], d.fields[1]);
    assert EqualData(rebuilt.fields[2], d.fields[2]) && EqualData(rebuilt.fields[3], d.fields[3]);
  }

  lemma StateActionRebuilds(d: Data, r: StateRedeemer, codec: Codec)
    requires WritesStateAction(d, r, codec) && IsStateAction(r, codec)
    requires r.Batch? ==> SortItems(r.entries, EntryRequest) == r.entries
    ensures EqualData(StateActionData(r, codec), d)
  {
    hide WritesDestination, WritesSettleEntries, WritesBytes, WritesNumberOption, IsDestination, ParseHexOf, DestinationData, HexData, SettleList,
      IsSettleEntry, SortableReferences, SortItems, BatchIndices;
    match r
    case Direct(_, receiver, _, _, _, _) => DestinationRebuilds(d.fields[0], receiver, codec);
    case Batch(_, _, _, _) => BatchRebuilds(d, r, codec);
    case _ =>
  }

  lemma ActionRebuilds(d: Data, r: Redeemer, codec: Codec)
    requires WritesAction(d, r, codec) && IsRedeemer(r, codec) && InOrder(r)
    ensures EqualData(ActionData(r, codec), d)
  {
    hide WritesStateAction, WritesRef, WritesDeliverEntries, IsStateAction, IsReference, StateActionData, OutRefData, DeliverList, IsDelivery,
      Sorted, SortItems;
    match r
    case StateAction(action) =>
      if action.Batch? {
        EntriesInOrder(action.entries, EntryRequest);
      }
      StateActionRebuilds(d, action, codec);
    case RequestAction(Acknowledge(ref)) => LeavesRebuild(d.fields[0], "", 0, None, 0, ref);
    case ClaimAction(Deliver(entries)) =>
      EntriesInOrder(entries, EntryClaim);
      ListsRebuild(d.fields[0], [], entries);
    case MintAction(SupplyUpdate(ref)) => LeavesRebuild(d.fields[0], "", 0, None, 0, ref);
    case _ =>
  }

  /** The role of an action: State 0, Request 1, Claim 2, Mint 3, marked as the other datums are. */
  predicate WritesRedeemer(d: Data, r: Redeemer, codec: Codec) {
    && IsAlternative(d, match r case StateAction(_) => 0 case RequestAction(_) => 1 case ClaimAction(_) => 2 case MintAction(_) => 3, 3)
    && IsMarked(d.fields) && WritesAction(d.fields[2], r, codec) && IsAction(r)
  }

  lemma WrittenReceiverFits(d: Data, r: Redeemer, codec: Codec)
    requires WritesAction(d, r, codec)
    ensures ReceiverFits(r, codec)
  {
    hide WritesSettleEntries, WritesDeliverEntries, IsBounded, WritesAddress;
  }

  /**
   * A redeemer is accepted for a role exactly when it writes an action of that role, field by field, whose own shape holds:
   * what the rebuild and comparison add is the strict order of the entries, and nothing else.
   */
  lemma RedeemerFormat(role: Role, d: Data, r: Redeemer, codec: Codec)
    ensures RedeemerFromData(role, d, codec) == Ok(r) <==> RoleOf(r) == role && WritesRedeemer(d, r, codec)
  {
    hide ActionFromData, WritesAction, EncodeRedeemer, IsAction, RedeemerShape, IsAlternative, ActionData, InOrder, IsRedeemer, ReceiverFits,
      EqualData;
    AlternativeMeans(d, RoleTag(role), 3);
    ActionMeans(r);
    if RedeemerFromData(role, d, codec) == Ok(r) {
      IsConstr(d);
      DecodedRedeemerFits(role, d, codec);
      ActionFormat(role, d.fields[2], r, codec);
    }
    if RoleOf(r) == role && WritesRedeemer(d, r, codec) {
      WrittenReceiverFits(d.fields[2], r, codec);
      ShapeIsEncodable(r, codec);
      ActionFormat(role, d.fields[2], r, codec);
      ActionRebuilds(d.fields[2], r, codec);
      EnvelopeRebuilds(d, r, codec);
    }
  }

  lemma EnvelopeRebuilds(d: Data, r: Redeemer, codec: Codec)
    requires WritesRedeemer(d, r, codec) && IsRedeemer(r, codec) && EqualData(ActionData(r, codec), d.fields[2])
    ensures EncodeRedeemer(r, codec).Ok? && EqualData(EncodeRedeemer(r, codec).value, d)
  {
    hide WritesAction, IsAction, IsRedeemer, ActionData;
    assert EqualData(Bytes(MAGIC), d.fields[0]) && EqualData(Int(WIRE_VERSION), d.fields[1]);
  }

  const TWO_255: int := 57896044618658097711785492504343953926634992332820282019728792003956564819968

  /** What a recipient datum may be, node by node. */
  lemma ProfileMeans(d: Data, depth: nat)
    ensures NodesFit(d, depth) <==>
      && depth <= 16
      && match d
         case Int(i) => -TWO_255 <= i < TWO_255
         case Bytes(b) => |b| <= 1024
         case List(items) => forall i :: 0 <= i < |items| ==> NodesFit(items[i], depth + 1)
         case Constr(tag, fields) => 0 <= tag.n < 128 && forall i :: 0 <= i < |fields| ==> NodesFit(fields[i], depth + 1)
         case Map(pairs) =>
           && (forall i :: 0 <= i < |pairs| ==> NodesFit(pairs[i].0, depth + 1) && NodesFit(pairs[i].1, depth + 1))
           && forall i, j :: 0 <= i < j < |pairs| ==> !EqualData(pairs[i].0, pairs[j].0)
  {
    match d
    case Int(_) =>
    case Bytes(_) =>
    case List(_) =>
    case Constr(_, _) =>
    case Map(_) =>
  }

  /** The profile of a recipient datum as a whole: its nodes, at most 256 of them, in at most 1024 bytes. */
  lemma BoundMeans(d: Data, codec: Codec)
    ensures IsBounded(d, codec.size) <==> NodesFit(d, 0) && Nodes(d) <= 256 && codec.size(d) <= 1024
  {
  }

  /** What the encoders demand of the records themselves. */
  lemma EncodableMeans(s: State, c: Config, to: Destination, codec: Codec)
    ensures (StateShape(s) <==> IsState(s)) && (TermsShape(c.terms) <==> IsSupported(c.terms))
    ensures IsDestination(to, codec) <==> IsLocated(to.address) && (to.datum.Some? ==> IsBounded(to.datum.value, codec.size))
    ensures IsConfig(c, codec) <==>
      && IsHex(c.vaultPolicy, 28) && IsAt(c.seed) && IsHex(c.termsHash, 32) && 1 <= c.storageLovelace && IsAmount(c.storageLovelace)
      && IsSupported(c.terms) && IsDestination(c.terms.feeDestination, codec) && codec.size(TermsData(c.terms)) <= 4096
      && codec.commitment(TermsData(c.terms)) == Lower(c.termsHash)
  {
    hide IsHex, ParseHexOf, IsBounded, TermsShape, IsSupported, TermsData, Lower;
    AllHexMeans();
    SupportedMeans(c.terms);
  }

  /** Each record is encoded exactly when it is sound and within the size of its kind. */
  lemma EncodersMean(s: State, t: Terms, r: Request, c: Claim, codec: Codec)
    ensures (StateShape(s) <==> IsState(s)) && (TermsShape(t) <==> IsSupported(t)) && (ClaimShape(c) <==> IsSoundClaim(c))
    ensures (RecoveryShape(r.recovery) <==> IsSoundRecovery(r.recovery)) && (BodyShape(r.body) <==> IsSoundBody(r.body))
    ensures EncodeState(s, codec).Ok? <==> IsState(s) && codec.size(StateData(s)) <= 256
    ensures EncodeTerms(t, codec).Ok? <==>
      IsSupported(t) && IsDestination(t.feeDestination, codec) && codec.size(TermsData(t)) <= 4096
    ensures EncodeRequest(r, codec).Ok? <==>
      && IsSoundRecovery(r.recovery) && IsDestination(r.recovery.refund, codec)
      && IsSoundBody(r.body) && IsDestination(r.body.receiver, codec) && codec.size(RequestData(r)) <= 4096
    ensures EncodeClaim(c, codec).Ok? <==> IsSoundClaim(c) && IsDestination(c.receiver, codec) && codec.size(ClaimData(c)) <= 2048
  {
    hide IsState, StateShape, TermsShape, IsSupported, RecoveryShape, IsSoundRecovery, BodyShape, IsSoundBody, ClaimShape, IsSoundClaim,
      IsDestination, StateData, TermsData, RequestData, ClaimData;
    StateIsState(s);
    SupportedMeans(t);
    RecoveryMeans(r.recovery);
    BodyMeans(r.body);
    ClaimMeans(c);
  }

  lemma StateIsState(s: State)
    ensures StateShape(s) <==> IsState(s)
  {
    hide IsHex, ParseHexOf;
    AllHexMeans();
  }
}
