/** Ledger comparisons for wallet review: signed normalized values, the balance accumulator and output identity. */
module EffectsLedger {
  import opened Results
  import opened Types
  import opened HexStrings
  import opened Values
  import opened Planning
  import opened AcceptedTransactions

  /** Well-formed asset identities, none spelled twice. Quantities are signed. */
  predicate IsLedgerValue(v: Value) {
    && (forall a <- v :: IsAsset(a))
    && forall a, b :: a in v && b in v && AssetId(a) == AssetId(b) ==> a == b
  }

  /** The value under canonical identities, without its explicit zeros. */
  function NormalizedValue(v: Value): (r: Result<Value>)
    ensures r.Ok? <==> IsLedgerValue(v)
  {
    if IsLedgerValue(v) then Ok(map a | a in v && v[a] != 0 :: AssetId(a) := v[a]) else Err(InvalidBytes)
  }

  /** What a well-formed value holds of a canonical asset. */
  function Amount(v: Value, a: Asset): int {
    var normalized := NormalizedValue(v);
    if normalized.Ok? then Qty(normalized.value, a) else 0
  }

  predicate CanonicalKeys(v: Value) {
    forall a <- v :: IsAsset(a) && AssetId(a) == a
  }

  lemma NormalizedIsCanonical(v: Value)
    requires IsLedgerValue(v)
    ensures CanonicalKeys(NormalizedValue(v).value) && 0 !in NormalizedValue(v).value.Values
  {
    forall a <- v ensures IsAsset(AssetId(a)) && AssetId(AssetId(a)) == AssetId(a) {
      AssetIdIsStable(a);
    }
  }

  /** Canonical values are their own normal form, up to zeros. */
  lemma CanonicalAmount(v: Value, a: Asset)
    requires CanonicalKeys(v)
    ensures IsLedgerValue(v) && Amount(v, a) == Qty(v, a)
  {
  }

  /** Equal sizes and equal entries, after normalization; malformed values are refused, not unequal. */
  function SameValue(left: Value, right: Value): Result<bool> {
    var a :- NormalizedValue(left);
    var b :- NormalizedValue(right);
    Ok(|a| == |b| && forall id <- a :: id in b && b[id] == a[id])
  }

  /** The comparison is agreement on every asset. */
  lemma SameValueMeans(left: Value, right: Value)
    ensures SameValue(left, right).Ok? <==> IsLedgerValue(left) && IsLedgerValue(right)
    ensures SameValue(left, right) == Ok(true) <==>
      IsLedgerValue(left) && IsLedgerValue(right) && NormalizedValue(left) == NormalizedValue(right)
    ensures SameValue(left, right).Ok? ==>
      (SameValue(left, right).value <==> forall a :: Amount(left, a) == Amount(right, a))
  {
    hide NormalizedValue;
    if IsLedgerValue(left) && IsLedgerValue(right) {
      var a, b := NormalizedValue(left).value, NormalizedValue(right).value;
      if SameValue(left, right).value {
        SameSizeSubmap(b, a);
      }
      NormalizedIsCanonical(left);
      NormalizedIsCanonical(right);
      if forall id :: Amount(left, id) == Amount(right, id) {
        forall id ensures Qty(a, id) == Qty(b, id) {
          assert Amount(left, id) == Amount(right, id);
        }
        SameQuantitiesSameMap(a, b);
      }
    }
  }

  lemma SameQuantitiesSameMap(a: Value, b: Value)
    requires 0 !in a.Values && 0 !in b.Values && forall id :: Qty(a, id) == Qty(b, id)
    ensures a == b
  {
    forall id ensures id in a <==> id in b {
      assert Qty(a, id) == Qty(b, id);
      assert id in a ==> a[id] in a.Values;
      assert id in b ==> b[id] in b.Values;
    }
    assert a.Keys == b.Keys;
    forall id <- a ensures a[id] == b[id] {
      assert Qty(a, id) == Qty(b, id);
    }
  }

  /** The balance of one transaction: inputs and mint are added, outputs and fee are taken away. */
  class Balance {
    var amounts: Value

    constructor ()
      ensures amounts == map[]
    {
      amounts := map[];
    }

    method Add(source: Value, direction: int) returns (done: Outcome)
      requires CanonicalKeys(amounts)
      modifies this
      ensures CanonicalKeys(amounts)
      ensures done.Pass? <==> IsLedgerValue(source)
      ensures done.Pass? ==> forall a :: Qty(amounts, a) == old(Qty(amounts, a)) + direction * Amount(source, a)
      ensures done.Fail? ==> amounts == old(amounts)
    {
      var normalized := NormalizedValue(source);
      if normalized.Err? {
        return Fail(normalized.error);
      }
      NormalizedIsCanonical(source);
      ghost var before := amounts;
      var rest := normalized.value.Keys;
      while rest != {}
        invariant rest <= normalized.value.Keys && CanonicalKeys(amounts)
        invariant forall a ::
          Qty(amounts, a) == Qty(before, a) + (if a in rest then 0 else direction * Qty(normalized.value, a))
        decreases rest
      {
        var id :| id in rest;
        amounts := amounts[id := Qty(amounts, id) + direction * normalized.value[id]];
        rest := rest - {id};
      }
      return Pass;
    }
  }

  /** Output datum modes: none, inline Data and a hash are not interchangeable. */
  datatype OutputDatum = NoDatum | InlineDatum(datum: Datum) | HashDatum(hash: Hex)

  datatype WalletOutput = WalletOutput(address: LedgerAddress, value: Value, datum: OutputDatum, script: Option<Hex>)

  /** A base or enterprise payment address of the network. */
  predicate IsPaymentAddress(a: LedgerAddress, networkId: int) {
    a.networkId == networkId && !a.kind.OtherAddress? && a.payment.Some?
  }

  function KeyOf(a: LedgerAddress): Option<Hex> {
    if a.payment.Some? && a.payment.value.kind.Key? then Some(a.payment.value.hash) else None
  }

  function ScriptOf(a: LedgerAddress): Option<Hex> {
    if a.payment.Some? && a.payment.value.kind.Script? then Some(a.payment.value.hash) else None
  }

  function PlannedAddress(address: Address, networkId: int): LedgerAddress {
    var id := AddressId(address);
    LedgerAddress(networkId, if id.stake.None? then EnterpriseAddress else BaseAddress, Some(id.payment), id.stake)
  }

  function PlannedDatum(datum: Option<Datum>): OutputDatum {
    if datum.None? then NoDatum else InlineDatum(datum.value)
  }

  function ExpectedOutput(planned: PlannedOutput, networkId: int): WalletOutput {
    WalletOutput(PlannedAddress(planned.address, networkId), planned.value, PlannedDatum(planned.datum), None)
  }

  function DatumId(d: OutputDatum): OutputDatum {
    if d.HashDatum? then HashDatum(Lower(d.hash)) else d
  }

  /** The same mode, then the same content; hashes compare as hexadecimal identities. */
  predicate SameDatum(actual: OutputDatum, expected: OutputDatum) {
    match (actual, expected)
    case (NoDatum, NoDatum) => true
    case (InlineDatum(d), InlineDatum(e)) => d == e
    case (HashDatum(h), HashDatum(k)) => Lower(h) == Lower(k)
    case _ => false
  }

  /** Address bytes, every quantity, datum mode and content, and the reference script all agree. */
  predicate SameOutput(actual: WalletOutput, expected: WalletOutput, networkId: int) {
    && IsPaymentAddress(actual.address, networkId) && IsPaymentAddress(expected.address, networkId)
    && actual.address == expected.address
    && SameValue(actual.value, expected.value) == Ok(true)
    && SameDatum(actual.datum, expected.datum)
    && actual.script == expected.script
  }

  /** An output up to spelling; ill-formed outputs have no identity and match nothing. */
  function OutputId(o: WalletOutput, networkId: int): Option<WalletOutput> {
    var value := NormalizedValue(o.value);
    if !IsPaymentAddress(o.address, networkId) || value.Err? then None
    else Some(WalletOutput(o.address, value.value, DatumId(o.datum), o.script))
  }

  /** Matching outputs is comparing identities, so it is an equivalence on well-formed outputs. */
  lemma SameOutputIsIdentity(actual: WalletOutput, expected: WalletOutput, networkId: int)
    ensures SameOutput(actual, expected, networkId) <==>
      OutputId(actual, networkId).Some? && OutputId(actual, networkId) == OutputId(expected, networkId)
  {
    hide NormalizedValue, SameValue;
    SameValueMeans(actual.value, expected.value);
  }
}
