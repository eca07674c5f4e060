/** Effective changes of an accepted transaction, including the collateral-only effects of a failed one. */
module AcceptedTransactions {
  import opened Results
  import opened Types
  import opened Values
  import opened References
  import opened Planning

  datatype AddressKind = BaseAddress | EnterpriseAddress | OtherAddress

  /** A decoded ledger address; pointer and reward forms are `OtherAddress`. */
  datatype LedgerAddress = LedgerAddress(
    networkId: int,
    kind: AddressKind,
    payment: Option<Credential>,
    stake: Option<Credential>)

  datatype RawOutput = RawOutput(
    address: LedgerAddress,
    value: Value,
    datum: Option<Datum>,
    hasDatumHash: bool,
    hasScriptRef: bool)

  datatype Purpose = SpendPurpose | OtherPurpose

  /** A redeemer whose data decodes under no role carries none. */
  datatype RawRedeemer = RawRedeemer(purpose: Purpose, index: int, data: Option<Redeemer>)

  datatype RawTransaction = RawTransaction(
    id: Hex,
    isValid: bool,
    inputs: seq<OutRef>,
    collateralInputs: seq<OutRef>,
    referenceInputs: seq<OutRef>,
    outputs: seq<RawOutput>,
    collateralReturn: Option<RawOutput>,
    redeemers: seq<RawRedeemer>)

  datatype LedgerOutput = LedgerOutput(ref: OutRef, content: RawOutput)

  datatype AcceptedTransaction = AcceptedTransaction(
    id: Hex,
    valid: bool,
    inputs: seq<OutRef>,
    outputs: seq<LedgerOutput>,
    spends: map<OutRef, Option<Redeemer>>,
    referenceInputs: seq<OutRef>)

  function Itself(ref: OutRef): OutRef {
    ref
  }

  /** Spend pointers index the canonical input order, independent of the serialized order. */
  function CanonicalInputs(raw: RawTransaction): seq<OutRef> {
    SortItems(raw.inputs, Itself)
  }

  function IndexedOutputs(id: Hex, outputs: seq<RawOutput>): (r: seq<LedgerOutput>)
    ensures |r| == |outputs|
    ensures forall i :: 0 <= i < |outputs| ==> r[i] == LedgerOutput(OutRef(id, i), outputs[i])
  {
    seq(|outputs|, i requires 0 <= i < |outputs| => LedgerOutput(OutRef(id, i), outputs[i]))
  }

  /** The collateral return follows the ordinary indices, although the ordinary outputs are not created on failure. */
  function EffectiveOutputs(raw: RawTransaction): seq<LedgerOutput> {
    if raw.isValid then IndexedOutputs(raw.id, raw.outputs)
    else if raw.collateralReturn.Some? then [LedgerOutput(OutRef(raw.id, |raw.outputs|), raw.collateralReturn.value)]
    else []
  }

  /** The Spend redeemers of the first k, keyed by the input they point to. */
  function SpendsOf(raw: RawTransaction, k: nat): Result<map<OutRef, Option<Redeemer>>>
    requires k <= |raw.redeemers|
  {
    if k == 0 then Ok(map[])
    else
      var earlier :- SpendsOf(raw, k - 1);
      var redeemer := raw.redeemers[k - 1];
      if redeemer.purpose.OtherPurpose? then Ok(earlier)
      else
        :- Need(0 <= redeemer.index < |CanonicalInputs(raw)|, OutOfRange);
        var key := CanonicalInputs(raw)[redeemer.index];
        :- Need(key !in earlier, DuplicateReference);
        Ok(earlier[key := redeemer.data])
  }

  function ReadAccepted(raw: RawTransaction): Result<AcceptedTransaction> {
    var spends :- if raw.isValid then SpendsOf(raw, |raw.redeemers|) else Ok(map[]);
    Ok(AcceptedTransaction(
      raw.id, raw.isValid,
      if raw.isValid then CanonicalInputs(raw) else raw.collateralInputs,
      EffectiveOutputs(raw), spends, raw.referenceInputs))
  }

  lemma {:induction false} SpendsFailEarly(raw: RawTransaction, k: nat, n: nat)
    requires k <= n <= |raw.redeemers| && SpendsOf(raw, k).Err?
    ensures SpendsOf(raw, n) == SpendsOf(raw, k)
  {
    if k < n {
      SpendsFailEarly(raw, k, n - 1);
    }
  }

  /** The decoder's loops over outputs and redeemers. */
  method ReadAcceptedTransaction(raw: RawTransaction) returns (r: Result<AcceptedTransaction>)
    ensures r == ReadAccepted(raw)
  {
    var ordinaryInputs := SortItems(raw.inputs, Itself);
    var inputs := if raw.isValid then ordinaryInputs else raw.collateralInputs;
    var outputs: seq<LedgerOutput> := [];
    if raw.isValid {
      for index := 0 to |raw.outputs|
        invariant |outputs| == index
        invariant forall i :: 0 <= i < index ==> outputs[i] == LedgerOutput(OutRef(raw.id, i), raw.outputs[i])
      {
        outputs := outputs + [LedgerOutput(OutRef(raw.id, index), raw.outputs[index])];
      }
    } else if raw.collateralReturn.Some? {
      outputs := outputs + [LedgerOutput(OutRef(raw.id, |raw.outputs|), raw.collateralReturn.value)];
    }
    assert outputs == EffectiveOutputs(raw);
    var spends: map<OutRef, Option<Redeemer>> := map[];
    if raw.isValid {
      for i := 0 to |raw.redeemers|
        invariant SpendsOf(raw, i) == Ok(spends)
      {
        var redeemer := raw.redeemers[i];
        if redeemer.purpose.SpendPurpose? {
          if redeemer.index < 0 || redeemer.index >= |ordinaryInputs| {
            SpendsFailEarly(raw, i + 1, |raw.redeemers|);
            return Err(OutOfRange);
          }
          var key := ordinaryInputs[redeemer.index];
          if key in spends {
            SpendsFailEarly(raw, i + 1, |raw.redeemers|);
            return Err(DuplicateReference);
          }
          spends := spends[key := redeemer.data];
        }
      }
    }
    return Ok(AcceptedTransaction(raw.id, raw.isValid, inputs, outputs, spends, raw.referenceInputs));
  }

  /** A spend is attributed to the input at its pointer in canonical order, and each input has at most one. */
  lemma {:induction false} SpendsArePointers(raw: RawTransaction, k: nat, ref: OutRef)
    requires k <= |raw.redeemers| && SpendsOf(raw, k).Ok?
    ensures ref in SpendsOf(raw, k).value <==>
      exists i :: 0 <= i < k && raw.redeemers[i].purpose.SpendPurpose?
        && 0 <= raw.redeemers[i].index < |CanonicalInputs(raw)| && CanonicalInputs(raw)[raw.redeemers[i].index] == ref
    ensures forall i :: 0 <= i < k && raw.redeemers[i].purpose.SpendPurpose? ==>
      && 0 <= raw.redeemers[i].index < |CanonicalInputs(raw)|
      && CanonicalInputs(raw)[raw.redeemers[i].index] in SpendsOf(raw, k).value
      && SpendsOf(raw, k).value[CanonicalInputs(raw)[raw.redeemers[i].index]] == raw.redeemers[i].data
  {
    if k > 0 {
      SpendsArePointers(raw, k - 1, ref);
    }
  }

  lemma CanonicalInputsArePermuted(raw: RawTransaction)
    ensures multiset(CanonicalInputs(raw)) == multiset(raw.inputs)
    ensures forall i, j :: 0 <= i < j < |raw.inputs| ==> !RefLess(RefId(CanonicalInputs(raw)[j]), RefId(CanonicalInputs(raw)[i]))
  {
    SortItemsArranges(raw.inputs, Itself);
  }

  /**
   * A valid transaction spends its own inputs in canonical order and creates its outputs in order. A failed one spends
   * its collateral, executes no redeemer and creates at most the return, at the index after the ordinary outputs.
   */
  lemma AcceptedShape(raw: RawTransaction)
    requires ReadAccepted(raw).Ok?
    ensures
      var tx := ReadAccepted(raw).value;
      && tx.id == raw.id && tx.valid == raw.isValid && tx.referenceInputs == raw.referenceInputs
      && (forall i, j :: 0 <= i < j < |tx.outputs| ==> tx.outputs[i].ref != tx.outputs[j].ref)
      && (tx.valid ==>
            && multiset(tx.inputs) == multiset(raw.inputs)
            && (forall i, j :: 0 <= i < j < |tx.inputs| ==> !RefLess(RefId(tx.inputs[j]), RefId(tx.inputs[i])))
            && |tx.outputs| == |raw.outputs|
            && forall i :: 0 <= i < |tx.outputs| ==> tx.outputs[i] == LedgerOutput(OutRef(raw.id, i), raw.outputs[i]))
      && (!tx.valid ==>
            && tx.inputs == raw.collateralInputs && tx.spends == map[]
            && |tx.outputs| == (if raw.collateralReturn.Some? then 1 else 0)
            && forall output <- tx.outputs ::
                 Some(output.content) == raw.collateralReturn && output.ref == OutRef(raw.id, |raw.outputs|))
  {
    hide RefLess, RefId, SortItems, SpendsOf;
    CanonicalInputsArePermuted(raw);
    assert raw.isValid ==> EffectiveOutputs(raw) == IndexedOutputs(raw.id, raw.outputs);
  }

  /** Exact enterprise script custody on the reader's network, with an inline datum and no reference script. */
  predicate IsProtected(source: LedgerOutput, script: Hex, networkId: int) {
    && source.content.address.networkId == networkId
    && source.content.address.kind.EnterpriseAddress?
    && source.content.address.payment == Some(Credential(Script, script))
    && source.content.datum.Some?
    && !source.content.hasDatumHash
    && !source.content.hasScriptRef
  }

  function ProtectedOutput(source: LedgerOutput, script: Hex, networkId: int): (r: Result<ProtectedInput>)
    ensures r.Ok? <==> IsProtected(source, script, networkId)
    ensures r.Ok? ==>
      && r.value.ref == source.ref && r.value.value == source.content.value
      && Some(r.value.datum) == source.content.datum
  {
    if IsProtected(source, script, networkId) then
      Ok(ProtectedInput(source.ref, Enterprise(Script, script), source.content.datum.value, source.content.value))
    else Err(BindingMismatch)
  }

  /** The first output at an index. */
  function FindOutput(outputs: seq<LedgerOutput>, index: int): (r: Option<LedgerOutput>)
    ensures r.Some? ==> r.value in outputs && r.value.ref.index == index
  {
    if outputs == [] then None
    else if outputs[0].ref.index == index then Some(outputs[0])
    else FindOutput(outputs[1..], index)
  }

  /** A redeemer of the first k that spends. */
  predicate IsSpend(raw: RawTransaction, k: int, i: int) {
    0 <= i < k <= |raw.redeemers| && raw.redeemers[i].purpose == SpendPurpose
  }

  /** A redeemer of the first k that points to an input, by its position in canonical order. */
  predicate PointsTo(raw: RawTransaction, k: int, i: int, ref: OutRef) {
    && IsSpend(raw, k, i) && 0 <= raw.redeemers[i].index < |CanonicalInputs(raw)|
    && CanonicalInputs(raw)[raw.redeemers[i].index] == ref
  }

  lemma KeysArePointedTo(raw: RawTransaction, k: nat, ref: OutRef)
    requires k <= |raw.redeemers| && SpendsOf(raw, k).Ok?
    ensures ref in SpendsOf(raw, k).value <==> exists i :: PointsTo(raw, k, i, ref)
  {
    hide CanonicalInputs, SpendsOf;
    SpendsArePointers(raw, k, ref);
    if ref in SpendsOf(raw, k).value {
      var i :| 0 <= i < k && raw.redeemers[i].purpose.SpendPurpose?
        && 0 <= raw.redeemers[i].index < |CanonicalInputs(raw)| && CanonicalInputs(raw)[raw.redeemers[i].index] == ref;
      assert PointsTo(raw, k, i, ref);
    }
  }

  /** Every spending redeemer points to an input, and no two to the same. */
  ghost predicate PointersFit(raw: RawTransaction, k: int) {
    && (forall i :: IsSpend(raw, k, i) ==> 0 <= raw.redeemers[i].index < |CanonicalInputs(raw)|)
    && forall i, j, ref :: PointsTo(raw, k, i, ref) && PointsTo(raw, k, j, ref) ==> i == j
  }

  /** The next redeemer points nowhere that an earlier one does. */
  ghost predicate PointsApart(raw: RawTransaction, k: nat)
    requires k < |raw.redeemers|
  {
    raw.redeemers[k].purpose == SpendPurpose ==>
      && 0 <= raw.redeemers[k].index < |CanonicalInputs(raw)|
      && forall i :: !PointsTo(raw, k, i, CanonicalInputs(raw)[raw.redeemers[k].index])
  }

  lemma PointersGrow(raw: RawTransaction, k: nat)
    requires k < |raw.redeemers| && PointersFit(raw, k) && PointsApart(raw, k)
    ensures PointersFit(raw, k + 1)
  {
    hide CanonicalInputs;
    forall i | IsSpend(raw, k + 1, i) ensures 0 <= raw.redeemers[i].index < |CanonicalInputs(raw)| {
      if i < k {
        assert IsSpend(raw, k, i);
      }
    }
    var n := k + 1;
    forall i, j, ref | PointsTo(raw, n, i, ref) && PointsTo(raw, n, j, ref) ensures i == j {
      if i < k {
        assert PointsTo(raw, k, i, ref);
      }
      if j < k {
        assert PointsTo(raw, k, j, ref);
      }
    }
  }

  lemma PointersShrink(raw: RawTransaction, k: nat)
    requires k < |raw.redeemers| && PointersFit(raw, k + 1)
    ensures PointersFit(raw, k) && PointsApart(raw, k)
  {
    hide CanonicalInputs;
    forall i | IsSpend(raw, k, i) ensures 0 <= raw.redeemers[i].index < |CanonicalInputs(raw)| {
      assert IsSpend(raw, k + 1, i);
    }
    forall i, j, ref | PointsTo(raw, k, i, ref) && PointsTo(raw, k, j, ref) ensures i == j {
      assert PointsTo(raw, k + 1, i, ref) && PointsTo(raw, k + 1, j, ref);
    }
    if raw.redeemers[k].purpose == SpendPurpose {
      assert IsSpend(raw, k + 1, k);
      var key := CanonicalInputs(raw)[raw.redeemers[k].index];
      forall i ensures !PointsTo(raw, k, i, key) {
        assert PointsTo(raw, k + 1, k, key);
        assert PointsTo(raw, k, i, key) ==> PointsTo(raw, k + 1, i, key);
      }
    }
  }

  /** Redeemers are read exactly when their pointers fit. */
  lemma {:induction false} PointersAreRead(raw: RawTransaction, k: nat)
    requires k <= |raw.redeemers|
    ensures SpendsOf(raw, k).Ok? <==> PointersFit(raw, k)
  {
    hide CanonicalInputs, PointersFit;
    if k == 0 {
      NothingPoints(raw);
    } else {
      PointersAreRead(raw, k - 1);
      if PointersFit(raw, k) {
        PointersShrink(raw, k - 1);
      }
      if PointersFit(raw, k - 1) && PointsApart(raw, k - 1) {
        PointersGrow(raw, k - 1);
      }
      var last := raw.redeemers[k - 1];
      if SpendsOf(raw, k - 1).Ok? && 0 <= last.index < |CanonicalInputs(raw)| {
        KeysArePointedTo(raw, k - 1, CanonicalInputs(raw)[last.index]);
      }
    }
  }

  lemma NothingPoints(raw: RawTransaction)
    ensures PointersFit(raw, 0)
  {
  }

  /** A failed transaction is always read; a valid one exactly when its pointers fit. */
  lemma AcceptedIsRead(raw: RawTransaction)
    ensures ReadAccepted(raw).Ok? <==> !raw.isValid || PointersFit(raw, |raw.redeemers|)
  {
    hide CanonicalInputs, PointersFit, EffectiveOutputs;
    PointersAreRead(raw, |raw.redeemers|);
  }
}
