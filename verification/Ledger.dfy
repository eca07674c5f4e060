/** A ledger of unspent outputs and its balanced transactions. */
module Ledger {
  import opened Results
  import opened Types
  import opened Values
  import opened Planning
  import opened References
  import opened Sums

  datatype Utxo = Utxo(address: Address, datum: Option<Datum>, value: Value)

  type Utxos = map<OutRef, Utxo>

  datatype LedgerTx = LedgerTx(id: Hex, inputs: set<OutRef>, outputs: seq<Utxo>, mint: seq<PlannedMint>, fee: int)

  /** What each reference holds of an asset. */
  function HeldAt(u: Utxos, a: Asset): OutRef -> int {
    ref => if ref in u then Qty(u[ref].value, a) else 0
  }

  ghost function Total(u: Utxos, a: Asset): int {
    Sum(u.Keys, HeldAt(u, a))
  }

  function Created(tx: LedgerTx): Utxos {
    CreatedFrom(tx.id, tx.outputs)
  }

  function CreatedFrom(id: Hex, outputs: seq<Utxo>): (u: Utxos)
    ensures forall ref :: ref in u <==> ref.txId == id && 0 <= ref.index < |outputs|
    ensures forall i :: 0 <= i < |outputs| ==> u[OutRef(id, i)] == outputs[i]
  {
    if outputs == [] then map[]
    else CreatedFrom(id, outputs[..|outputs| - 1])[OutRef(id, |outputs| - 1) := outputs[|outputs| - 1]]
  }

  function UtxoSum(outputs: seq<Utxo>, a: Asset): int {
    if outputs == [] then 0 else UtxoSum(outputs[..|outputs| - 1], a) + Qty(outputs[|outputs| - 1].value, a)
  }

  predicate NonnegativeValue(v: Value) {
    forall a <- v :: 0 <= v[a]
  }

  predicate Nonnegative(u: Utxos) {
    forall ref <- u :: NonnegativeValue(u[ref].value)
  }

  /**
   * The ledger's own rule: inputs exist, output references are new, and every asset balances with the mint
   * and, for ADA, the fee.
   */
  ghost predicate Balanced(u: Utxos, tx: LedgerTx) {
    && tx.inputs <= u.Keys
    && (forall ref <- u :: ref.txId != tx.id)
    && 0 <= tx.fee
    && (forall i :: 0 <= i < |tx.outputs| ==> NonnegativeValue(tx.outputs[i].value))
    && (forall a :: Sum(tx.inputs, HeldAt(u, a)) + MintOf(tx.mint, a) == UtxoSum(tx.outputs, a) + When(a == Ada, tx.fee))
  }

  function Apply(u: Utxos, tx: LedgerTx): Utxos {
    (u - tx.inputs) + Created(tx)
  }

  lemma {:induction false} CreatedTotal(id: Hex, outputs: seq<Utxo>, a: Asset)
    ensures Total(CreatedFrom(id, outputs), a) == UtxoSum(outputs, a)
  {
    if outputs != [] {
      var u, v := CreatedFrom(id, outputs), CreatedFrom(id, outputs[..|outputs| - 1]);
      var last := OutRef(id, |outputs| - 1);
      CreatedTotal(id, outputs[..|outputs| - 1], a);
      assert u.Keys - {last} == v.Keys;
      SumRemove(u.Keys, last, HeldAt(u, a));
      SumSame(v.Keys, HeldAt(u, a), HeldAt(v, a));
    }
  }

  /** A balanced transaction changes the ledger's total of an asset by its mint and, for ADA, by the fee alone. */
  lemma BalancedTotal(u: Utxos, tx: LedgerTx, a: Asset)
    requires Balanced(u, tx)
    ensures Total(Apply(u, tx), a) == Total(u, a) + MintOf(tx.mint, a) - When(a == Ada, tx.fee)
  {
    var kept, new' := u - tx.inputs, Created(tx);
    var after := Apply(u, tx);
    assert kept.Keys == u.Keys - tx.inputs;
    assert after.Keys == kept.Keys + new'.Keys;
    SumSplit(u.Keys, tx.inputs, HeldAt(u, a));
    SumUnion(kept.Keys, new'.Keys, HeldAt(after, a));
    SumSame(kept.Keys, HeldAt(after, a), HeldAt(u, a));
    SumSame(new'.Keys, HeldAt(after, a), HeldAt(new', a));
    CreatedTotal(tx.id, tx.outputs, a);
  }

  /** A transaction realizes a plan: its inputs, its outputs as a prefix, exactly its mint, and only key-held funding. */
  predicate Realizes(u: Utxos, tx: LedgerTx, plan: Plan) {
    var planned := set i | 0 <= i < |plan.inputs| :: InputRefs(plan.inputs)[i];
    && planned <= tx.inputs
    && (forall ref <- tx.inputs :: ref !in planned ==> ref in u && u[ref].address.payment.kind.Key?)
    && |plan.outputs| <= |tx.outputs|
    && (forall i :: 0 <= i < |plan.outputs| ==>
          tx.outputs[i] == Utxo(plan.outputs[i].address, plan.outputs[i].datum, plan.outputs[i].value))
    && tx.mint == plan.mint
  }

  /** Supplied evidence about an output agrees with the ledger. */
  predicate Agrees(u: Utxos, input: ProtectedInput) {
    RefId(input.ref) in u && u[RefId(input.ref)] == Utxo(input.address, Some(input.datum), input.value)
  }
}
