/** The role-specific redeemers: encoders with disjoint outputs and ordered entries, and decoders that rebuild and compare. */
module WireActions {
  import opened Results
  import opened PlutusData
  import opened Types
  import opened Arithmetic
  import opened HexStrings
  import opened References
  import opened Planning
  import opened DataValues
  import opened BoundedData
  import opened WirePrimitives

  datatype Role = StateRole | RequestRole | ClaimRole | MintRole

  function RoleTag(role: Role): int {
    match role
    case StateRole => 0
    case RequestRole => 1
    case ClaimRole => 2
    case MintRole => 3
  }

  function RoleOf(r: Redeemer): Role {
    match r
    case StateAction(_) => StateRole
    case RequestAction(_) => RequestRole
    case ClaimAction(_) => ClaimRole
    case MintAction(_) => MintRole
  }

  function DirectTag(operation: Operation): int {
    match operation
    case Deposit => 0
    case Mint => 1
    case Withdraw => 2
    case Redeem => 3
  }

  function SettleId(e: SettleEntry): SettleEntry {
    e.(requestRef := RefId(e.requestRef))
  }

  function DeliverId(e: DeliverEntry): DeliverEntry {
    e.(claimRef := RefId(e.claimRef))
  }

  /** Entries in canonical order with canonical references. */
  function SettleIds(entries: seq<SettleEntry>): seq<SettleEntry> {
    MapSeq(SettleId, SortItems(entries, EntryRequest))
  }

  function DeliverIds(entries: seq<DeliverEntry>): seq<DeliverEntry> {
    MapSeq(DeliverId, SortItems(entries, EntryClaim))
  }

  predicate IsStateAction(r: StateRedeemer, codec: Codec) {
    match r
    case Direct(_, receiver, amount, bound, stateOutput, receiverOutput) =>
      && IsDestination(receiver, codec) && IsPositive(amount) && IsPositive(bound)
      && IsOutputIndex(stateOutput) && IsOutputIndex(receiverOutput) && stateOutput != receiverOutput
    case Batch(stateOutput, entries, rewardKey, rewardOutput) =>
      && IsOutputIndex(stateOutput) && ParseHexOf(rewardKey, 28).Ok?
      && SortableReferences(entries, EntryRequest)
      && (forall i :: 0 <= i < |entries| ==> IsSettleEntry(SortItems(entries, EntryRequest)[i]))
      && (rewardOutput.Some? ==> IsOutputIndex(rewardOutput.value))
      && Distinct(BatchIndices(stateOutput, SortItems(entries, EntryRequest), rewardOutput))
    case CollectFees(stateOutput, feeOutput) =>
      IsOutputIndex(stateOutput) && IsOutputIndex(feeOutput) && stateOutput != feeOutput
    case TopUpReserve(topUp, stateOutput) => IsPositive(topUp) && IsOutputIndex(stateOutput)
    case SetPause(flags, stateOutput) => 0 <= flags <= 3 && IsOutputIndex(stateOutput)
  }

  predicate IsDelivery(entries: seq<DeliverEntry>) {
    && SortableReferences(entries, EntryClaim)
    && (forall i :: 0 <= i < |entries| ==> IsDeliverEntry(SortItems(entries, EntryClaim)[i]))
    && Distinct(ReceiverIndices(SortItems(entries, EntryClaim)))
  }

  predicate IsRedeemer(r: Redeemer, codec: Codec) {
    match r
    case StateAction(action) => IsStateAction(action, codec)
    case RequestAction(Acknowledge(ref)) => IsReference(ref)
    case RequestAction(Refund(_, index)) => IsOutputIndex(index)
    case ClaimAction(Deliver(entries)) => IsDelivery(entries)
    case MintAction(Initialize(configOutput, stateOutput)) =>
      IsOutputIndex(configOutput) && IsOutputIndex(stateOutput) && configOutput != stateOutput
    case MintAction(SupplyUpdate(ref)) => IsReference(ref)
  }

  function SettleEntryData(e: SettleEntry): Data
    requires IsSettleEntry(e)
  {
    C(0, [OutRefData(e.requestRef), Int(e.claimOutput), Int(e.claimTopup)])
  }

  function DeliverEntryData(e: DeliverEntry): Data
    requires IsDeliverEntry(e)
  {
    C(0, [OutRefData(e.claimRef), Int(e.receiverOutput)])
  }

  function SettleList(entries: seq<SettleEntry>): (r: seq<Data>)
    requires forall i :: 0 <= i < |entries| ==> IsSettleEntry(entries[i])
    ensures |r| == |entries| && forall i :: 0 <= i < |entries| ==> r[i] == SettleEntryData(entries[i])
  {
    seq(|entries|, i requires 0 <= i < |entries| => SettleEntryData(entries[i]))
  }

  function DeliverList(entries: seq<DeliverEntry>): (r: seq<Data>)
    requires forall i :: 0 <= i < |entries| ==> IsDeliverEntry(entries[i])
    ensures |r| == |entries| && forall i :: 0 <= i < |entries| ==> r[i] == DeliverEntryData(entries[i])
  {
    seq(|entries|, i requires 0 <= i < |entries| => DeliverEntryData(entries[i]))
  }

  function IndexOption(index: Option<int>): Option<Data> {
    if index.None? then None else Some(Int(index.value))
  }

  function StateActionData(r: StateRedeemer, codec: Codec): Data
    requires IsStateAction(r, codec)
  {
    match r
    case Direct(operation, receiver, amount, bound, stateOutput, receiverOutput) =>
      C(DirectTag(operation), [DestinationData(receiver), Int(amount), Int(bound), Int(stateOutput), Int(receiverOutput)])
    case Batch(stateOutput, entries, rewardKey, rewardOutput) =>
      C(4, [Int(stateOutput), List(SettleList(SortItems(entries, EntryRequest))), HexData(rewardKey),
            OptionData(IndexOption(rewardOutput))])
    case CollectFees(stateOutput, feeOutput) => C(5, [Int(stateOutput), Int(feeOutput)])
    case TopUpReserve(topUp, stateOutput) => C(6, [Int(topUp), Int(stateOutput)])
    case SetPause(flags, stateOutput) => C(7, [Int(flags), Int(stateOutput)])
  }

  function ActionData(r: Redeemer, codec: Codec): Data
    requires IsRedeemer(r, codec)
  {
    match r
    case StateAction(action) => StateActionData(action, codec)
    case RequestAction(Acknowledge(ref)) => C(0, [OutRefData(ref)])
    case RequestAction(Refund(mode, index)) => C(if mode.Cancel? then 1 else 2, [Int(index)])
    case ClaimAction(Deliver(entries)) => C(0, [List(DeliverList(SortItems(entries, EntryClaim)))])
    case MintAction(Initialize(configOutput, stateOutput)) => C(0, [Int(configOutput), Int(stateOutput)])
    case MintAction(SupplyUpdate(ref)) => C(1, [OutRefData(ref)])
  }

  /** The role alternative, the magic and the wire version around an action. */
  function Envelope(role: Role, action: Data): Data {
    C(RoleTag(role), [Bytes(MAGIC), Int(WIRE_VERSION), action])
  }

  function EncodeRedeemer(r: Redeemer, codec: Codec): Result<Data> {
    if IsRedeemer(r, codec) then Ok(Envelope(RoleOf(r), ActionData(r, codec))) else Err(InvalidShape)
  }

  function ReadIndex(d: Data): (r: Result<int>)
    ensures r.Ok? <==> d.Int? && IsOutputIndex(d.i)
    ensures r.Ok? ==> d == Int(r.value)
  {
    ReadInt(d, 0, 65_535)
  }

  function ReadIndexOption(d: Data): Result<Option<int>> {
    var value :- ReadOption(d);
    if value.None? then Ok(None)
    else
      var index :- ReadIndex(value.value);
      Ok(Some(index))
  }

  function ReadSettleEntry(d: Data): Result<SettleEntry> {
    var f :- Fields(d, 0, 3);
    var ref :- OutRefFromData(f[0]);
    var claimOutput :- ReadIndex(f[1]);
    var claimTopup :- ReadInt(f[2], 0, Q_MAX);
    Ok(SettleEntry(ref, claimOutput, claimTopup))
  }

  function ReadDeliverEntry(d: Data): Result<DeliverEntry> {
    var f :- Fields(d, 0, 2);
    var ref :- OutRefFromData(f[0]);
    var receiverOutput :- ReadIndex(f[1]);
    Ok(DeliverEntry(ref, receiverOutput))
  }

  function ReadSettleList(d: Data): Result<seq<SettleEntry>> {
    if !d.List? || exists i :: 0 <= i < |d.items| && ReadSettleEntry(d.items[i]).Err? then Err(InvalidShape)
    else Ok(seq(|d.items|, i requires 0 <= i < |d.items| => ReadSettleEntry(d.items[i]).value))
  }

  function ReadDeliverList(d: Data): Result<seq<DeliverEntry>> {
    if !d.List? || exists i :: 0 <= i < |d.items| && ReadDeliverEntry(d.items[i]).Err? then Err(InvalidShape)
    else Ok(seq(|d.items|, i requires 0 <= i < |d.items| => ReadDeliverEntry(d.items[i]).value))
  }

  function DirectFromData(d: Data, operation: Operation, codec: Codec): Result<StateRedeemer> {
    var f :- Fields(d, DirectTag(operation), 5);
    var receiver :- DestinationFromData(f[0], codec);
    var amount :- ReadInt(f[1], 1, Q_MAX);
    var bound :- ReadInt(f[2], 1, Q_MAX);
    var stateOutput :- ReadIndex(f[3]);
    var receiverOutput :- ReadIndex(f[4]);
    Ok(Direct(operation, receiver, amount, bound, stateOutput, receiverOutput))
  }

  function BatchFromData(d: Data): Result<StateRedeemer> {
    var f :- Fields(d, 4, 4);
    var entries :- ReadSettleList(f[1]);
    var stateOutput :- ReadIndex(f[0]);
    var rewardKey :- ReadBytes(f[2], 28);
    var rewardOutput :- ReadIndexOption(f[3]);
    Ok(Batch(stateOutput, entries, rewardKey, rewardOutput))
  }

  function StateActionFromData(d: Data, codec: Codec): Result<StateRedeemer> {
    var index :- if d.Constr? then ConstructorIndex(d.tag) else Err(InvalidShape);
    if index == 0 then DirectFromData(d, Deposit, codec)
    else if index == 1 then DirectFromData(d, Mint, codec)
    else if index == 2 then DirectFromData(d, Withdraw, codec)
    else if index == 3 then DirectFromData(d, Redeem, codec)
    else if index == 4 then BatchFromData(d)
    else if index == 5 then
      var f :- Fields(d, 5, 2);
      var stateOutput :- ReadIndex(f[0]);
      var feeOutput :- ReadIndex(f[1]);
      Ok(CollectFees(stateOutput, feeOutput))
    else if index == 6 then
      var f :- Fields(d, 6, 2);
      var topUp :- ReadInt(f[0], 1, Q_MAX);
      var stateOutput :- ReadIndex(f[1]);
      Ok(TopUpReserve(topUp, stateOutput))
    else if index == 7 then
      var f :- Fields(d, 7, 2);
      var flags :- ReadInt(f[0], 0, 3);
      var stateOutput :- ReadIndex(f[1]);
      Ok(SetPause(flags, stateOutput))
    else Err(InvalidShape)
  }

  function RequestActionFromData(d: Data): Result<RequestRedeemer> {
    var index :- if d.Constr? then ConstructorIndex(d.tag) else Err(InvalidShape);
    if index == 0 then
      var f :- Fields(d, 0, 1);
      var ref :- OutRefFromData(f[0]);
      Ok(Acknowledge(ref))
    else if index == 1 || index == 2 then
      var f :- Fields(d, index, 1);
      var refundOutput :- ReadIndex(f[0]);
      Ok(Refund(if index == 1 then Cancel else Expiry, refundOutput))
    else Err(InvalidShape)
  }

  function ClaimActionFromData(d: Data): Result<ClaimRedeemer> {
    var f :- Fields(d, 0, 1);
    var entries :- ReadDeliverList(f[0]);
    Ok(Deliver(entries))
  }

  function MintActionFromData(d: Data): Result<MintRedeemer> {
    var index :- if d.Constr? then ConstructorIndex(d.tag) else Err(InvalidShape);
    if index == 0 then
      var f :- Fields(d, 0, 2);
      var configOutput :- ReadIndex(f[0]);
      var stateOutput :- ReadIndex(f[1]);
      Ok(Initialize(configOutput, stateOutput))
    else if index == 1 then
      var f :- Fields(d, 1, 1);
      var ref :- OutRefFromData(f[0]);
      Ok(SupplyUpdate(ref))
    else Err(InvalidShape)
  }

  function ActionFromData(role: Role, d: Data, codec: Codec): Result<Redeemer> {
    match role
    case StateRole =>
      var action :- StateActionFromData(d, codec);
      Ok(StateAction(action))
    case RequestRole =>
      var action :- RequestActionFromData(d);
      Ok(RequestAction(action))
    case ClaimRole =>
      var action :- ClaimActionFromData(d);
      Ok(ClaimAction(action))
    case MintRole =>
      var action :- MintActionFromData(d);
      Ok(MintAction(action))
  }

  /** Decode the selected role only, then rebuild and compare, so that a reordered list is refused. */
  function RedeemerFromData(role: Role, d: Data, codec: Codec): Result<Redeemer> {
    var f :- Fields(d, RoleTag(role), 3);
    :- Need(IsVersion(f[0], f[1]), InvalidShape);
    var redeemer :- ActionFromData(role, f[2], codec);
    var rebuilt :- EncodeRedeemer(redeemer, codec);
    :- Need(EqualData(rebuilt, d), Unsorted);
    Ok(redeemer)
  }

  /** The canonical form of an action: entries in reference order, identifiers in lower case. */
  function RedeemerId(r: Redeemer): Redeemer {
    match r
    case StateAction(action) =>
      (match action
       case Direct(_, receiver, _, _, _, _) => StateAction(action.(receiver := DestinationId(receiver)))
       case Batch(_, entries, rewardKey, _) =>
         StateAction(action.(entries := SettleIds(entries), rewardKey := Lower(rewardKey)))
       case _ => r)
    case RequestAction(Acknowledge(ref)) => RequestAction(Acknowledge(RefId(ref)))
    case RequestAction(Refund(_, _)) => r
    case ClaimAction(Deliver(entries)) => ClaimAction(Deliver(DeliverIds(entries)))
    case MintAction(Initialize(_, _)) => r
    case MintAction(SupplyUpdate(ref)) => MintAction(SupplyUpdate(RefId(ref)))
  }

  lemma RefIdIsStable(ref: OutRef)
    ensures RefId(RefId(ref)) == RefId(ref)
  {
    LowerIsIdempotent(ref.txId);
  }

  /** Sorting and then normalizing references gives a list that is its own sorted, normalized copy. */
  lemma SortedIdsAreFixed<T(!new)>(items: seq<T>, getRef: T -> OutRef, normal: T -> T)
    requires SortableReferences(items, getRef)
    requires forall t: T :: getRef(normal(t)) == RefId(getRef(t))
    ensures
      var ids := MapSeq(normal, SortItems(items, getRef));
      Sorted(ids, getRef) && SortItems(ids, getRef) == ids && SortableReferences(ids, getRef)
  {
    hide Lower, ParseHexOf;
    var sorted := SortItems(items, getRef);
    var ids := MapSeq(normal, sorted);
    SortItemsSorts(items, getRef);
    forall i | 0 <= i < |sorted| ensures RefId(getRef(ids[i])) == RefId(getRef(sorted[i])) && IsReference(getRef(ids[i])) {
      RefIdIsStable(getRef(sorted[i]));
      assert sorted[i] in multiset(items);
      var k :| 0 <= k < |items| && items[k] == sorted[i];
      BytesSurvive(getRef(sorted[i]).txId, 32);
    }
    SortedIsFixed(ids, getRef);
  }

  lemma SettleEntryCodec(e: SettleEntry, d: Data)
    ensures IsSettleEntry(e) ==>
      && ReadSettleEntry(SettleEntryData(e)) == Ok(SettleId(e))
      && IsSettleEntry(SettleId(e)) && SettleEntryData(SettleId(e)) == SettleEntryData(e) && IsShaped(SettleEntryData(e))
    ensures ReadSettleEntry(d).Ok? ==> IsSettleEntry(ReadSettleEntry(d).value) && SettleId(ReadSettleEntry(d).value) == ReadSettleEntry(d).value
  {
    hide IsReference, OutRefData, OutRefFromData, RefId;
    if IsSettleEntry(e) {
      OutRefSurvives(e.requestRef);
    }
    if ReadSettleEntry(d).Ok? {
      OutRefDecoded(d.fields[0]);
    }
  }

  lemma DeliverEntryCodec(e: DeliverEntry, d: Data)
    ensures IsDeliverEntry(e) ==>
      && ReadDeliverEntry(DeliverEntryData(e)) == Ok(DeliverId(e))
      && IsDeliverEntry(DeliverId(e)) && DeliverEntryData(DeliverId(e)) == DeliverEntryData(e) && IsShaped(DeliverEntryData(e))
    ensures ReadDeliverEntry(d).Ok? ==> IsDeliverEntry(ReadDeliverEntry(d).value) && DeliverId(ReadDeliverEntry(d).value) == ReadDeliverEntry(d).value
  {
    hide IsReference, OutRefData, OutRefFromData, RefId;
    if IsDeliverEntry(e) {
      OutRefSurvives(e.claimRef);
    }
    if ReadDeliverEntry(d).Ok? {
      OutRefDecoded(d.fields[0]);
    }
  }

  lemma SettleListSurvives(entries: seq<SettleEntry>)
    requires forall i :: 0 <= i < |entries| ==> IsSettleEntry(entries[i])
    ensures
      var ids := MapSeq(SettleId, entries);
      && (forall i :: 0 <= i < |ids| ==> IsSettleEntry(ids[i]))
      && ReadSettleList(List(SettleList(entries))) == Ok(ids)
      && SettleList(ids) == SettleList(entries) && IsShaped(List(SettleList(entries)))
      && ClaimIndices(ids) == ClaimIndices(entries)
  {
    hide IsSettleEntry, ReadSettleEntry, SettleEntryData;
    var ids := MapSeq(SettleId, entries);
    forall i | 0 <= i < |entries|
      ensures ReadSettleEntry(SettleEntryData(entries[i])) == Ok(ids[i]) && IsSettleEntry(ids[i])
        && SettleEntryData(ids[i]) == SettleEntryData(entries[i]) && IsShaped(SettleEntryData(entries[i]))
    {
      SettleEntryCodec(entries[i], Int(0));
    }
    var list := SettleList(entries);
    assert seq(|list|, i requires 0 <= i < |list| => ReadSettleEntry(list[i]).value) == ids;
  }

  lemma DeliverListSurvives(entries: seq<DeliverEntry>)
    requires forall i :: 0 <= i < |entries| ==> IsDeliverEntry(entries[i])
    ensures
      var ids := MapSeq(DeliverId, entries);
      && (forall i :: 0 <= i < |ids| ==> IsDeliverEntry(ids[i]))
      && ReadDeliverList(List(DeliverList(entries))) == Ok(ids)
      && DeliverList(ids) == DeliverList(entries) && IsShaped(List(DeliverList(entries)))
      && ReceiverIndices(ids) == ReceiverIndices(entries)
  {
    hide IsDeliverEntry, ReadDeliverEntry, DeliverEntryData;
    var ids := MapSeq(DeliverId, entries);
    forall i | 0 <= i < |entries|
      ensures ReadDeliverEntry(DeliverEntryData(entries[i])) == Ok(ids[i]) && IsDeliverEntry(ids[i])
        && DeliverEntryData(ids[i]) == DeliverEntryData(entries[i]) && IsShaped(DeliverEntryData(entries[i]))
    {
      DeliverEntryCodec(entries[i], Int(0));
    }
    var list := DeliverList(entries);
    assert seq(|list|, i requires 0 <= i < |list| => ReadDeliverEntry(list[i]).value) == ids;
  }

  /** What decoding an encoded action gives back. */
  ghost predicate ActionSurvives(r: Redeemer, codec: Codec)
    requires IsRedeemer(r, codec)
  {
    && ActionFromData(RoleOf(r), ActionData(r, codec), codec) == Ok(RedeemerId(r))
    && IsRedeemer(RedeemerId(r), codec)
    && ActionData(RedeemerId(r), codec) == ActionData(r, codec)
    && IsShaped(ActionData(r, codec))
  }

  function BatchId(r: StateRedeemer): StateRedeemer
    requires r.Batch?
  {
    r.(entries := SettleIds(r.entries), rewardKey := Lower(r.rewardKey))
  }

  lemma BatchIdKeepsData(r: StateRedeemer, codec: Codec)
    requires r.Batch? && IsStateAction(r, codec)
    ensures IsStateAction(BatchId(r), codec) && StateActionData(BatchId(r), codec) == StateActionData(r, codec)
  {
    hide IsReference, IsSettleEntry, SettleEntryData, Lower, ParseHexOf, OptionData;
    hide SortableReferences, MapSeq, Distinct, SettleList, SortItems, ClaimIndices;
    SortedIdsAreFixed(r.entries, EntryRequest, SettleId);
    SettleListSurvives(SortItems(r.entries, EntryRequest));
    BytesSurvive(r.rewardKey, 28);
  }

  lemma BatchReads(r: StateRedeemer, codec: Codec)
    requires r.Batch? && IsStateAction(r, codec)
    ensures BatchFromData(StateActionData(r, codec)) == Ok(BatchId(r)) && IsShaped(StateActionData(r, codec))
  {
    hide IsReference, IsSettleEntry, SettleEntryData, Lower, ParseHexOf, OptionData, ReadSettleList, ReadBytes, ReadOption;
    hide SortableReferences, MapSeq, Distinct, SettleList, SortItems, ClaimIndices, HexBytes;
    SettleListSurvives(SortItems(r.entries, EntryRequest));
    BytesSurvive(r.rewardKey, 28);
    OptionIsShaped(IndexOption(r.rewardOutput));
    FieldsAreShaped(4, StateActionData(r, codec).fields);
  }

  lemma BatchSurvives(r: StateRedeemer, codec: Codec)
    requires r.Batch? && IsStateAction(r, codec)
    ensures ActionSurvives(StateAction(r), codec)
  {
    hide IsStateAction, StateActionData, BatchFromData, SettleIds, DirectFromData, IsShaped, SortItems, ReadIndex, Fields, Lower;
    BatchIdKeepsData(r, codec);
    BatchReads(r, codec);
    BatchTag(r, codec);
  }

  lemma BatchTag(r: StateRedeemer, codec: Codec)
    requires r.Batch? && IsStateAction(r, codec)
    ensures
      var d := StateActionData(r, codec);
      d.Constr? && ConstructorIndex(d.tag) == Ok(4)
  {
    hide IsStateAction, SortItems;
  }

  /** A delivery's canonical form is a delivery and encodes alike. */
  lemma DeliveryIdKeepsData(entries: seq<DeliverEntry>, codec: Codec)
    requires IsDelivery(entries)
    ensures IsDelivery(DeliverIds(entries))
    ensures ActionData(ClaimAction(Deliver(DeliverIds(entries))), codec) == ActionData(ClaimAction(Deliver(entries)), codec)
  {
    hide IsReference, IsDeliverEntry, DeliverEntryData, SortableReferences, MapSeq, Distinct, DeliverList, SortItems, ReceiverIndices;
    SortedIdsAreFixed(entries, EntryClaim, DeliverId);
    DeliverListSurvives(SortItems(entries, EntryClaim));
  }

  lemma DeliveryReads(entries: seq<DeliverEntry>, codec: Codec)
    requires IsDelivery(entries)
    ensures
      var d := ActionData(ClaimAction(Deliver(entries)), codec);
      ClaimActionFromData(d) == Ok(Deliver(DeliverIds(entries))) && IsShaped(d)
  {
    hide IsReference, IsDeliverEntry, DeliverEntryData, SortableReferences, MapSeq, Distinct, DeliverList, SortItems, ReadDeliverList;
    DeliverListSurvives(SortItems(entries, EntryClaim));
    FieldsAreShaped(0, ActionData(ClaimAction(Deliver(entries)), codec).fields);
  }

  lemma DeliverySurvives(entries: seq<DeliverEntry>, codec: Codec)
    requires IsDelivery(entries)
    ensures ActionSurvives(ClaimAction(Deliver(entries)), codec)
  {
    hide IsDelivery, ClaimActionFromData, ActionData, DeliverIds, IsShaped;
    DeliveryIdKeepsData(entries, codec);
    DeliveryReads(entries, codec);
  }

  lemma StateActionSurvives(r: StateRedeemer, codec: Codec)
    requires IsStateAction(r, codec)
    ensures ActionSurvives(StateAction(r), codec)
  {
    hide IsDestination, DestinationData, DestinationFromData;
    match r
    case Direct(operation, receiver, _, _, _, _) =>
      DestinationSurvives(receiver, codec);
      FieldsAreShaped(DirectTag(operation), StateActionData(r, codec).fields);
    case Batch(_, _, _, _) => BatchSurvives(r, codec);
    case CollectFees(stateOutput, feeOutput) => FieldsAreShaped(5, [Int(stateOutput), Int(feeOutput)]);
    case TopUpReserve(topUp, stateOutput) => FieldsAreShaped(6, [Int(topUp), Int(stateOutput)]);
    case SetPause(flags, stateOutput) => FieldsAreShaped(7, [Int(flags), Int(stateOutput)]);
  }

  lemma FieldsAreShaped(tag: int, fields: seq<Data>)
    requires 0 <= tag <= MAX_SAFE && forall i :: 0 <= i < |fields| ==> IsShaped(fields[i])
    ensures IsShaped(C(tag, fields))
  {
  }

  lemma EveryActionSurvives(r: Redeemer, codec: Codec)
    requires IsRedeemer(r, codec)
    ensures ActionSurvives(r, codec)
  {
    hide IsStateAction, StateActionData, StateActionFromData, IsReference, OutRefData, OutRefFromData, IsDelivery;
    match r
    case StateAction(action) => StateActionSurvives(action, codec);
    case RequestAction(Acknowledge(ref)) => OutRefSurvives(ref);
    case RequestAction(Refund(mode, index)) => FieldsAreShaped(if mode.Cancel? then 1 else 2, [Int(index)]);
    case ClaimAction(Deliver(entries)) => DeliverySurvives(entries, codec);
    case MintAction(Initialize(configOutput, stateOutput)) => FieldsAreShaped(0, [Int(configOutput), Int(stateOutput)]);
    case MintAction(SupplyUpdate(ref)) => OutRefSurvives(ref);
  }

  /** Every encodable action decodes, under its own role, to its canonical form. */
  lemma RedeemerSurvives(r: Redeemer, codec: Codec)
    requires EncodeRedeemer(r, codec).Ok?
    ensures RedeemerFromData(RoleOf(r), EncodeRedeemer(r, codec).value, codec) == Ok(RedeemerId(r))
    ensures EncodeRedeemer(RedeemerId(r), codec) == EncodeRedeemer(r, codec)
  {
    hide ActionFromData, ActionData, IsRedeemer;
    EveryActionSurvives(r, codec);
    var d := EncodeRedeemer(r, codec).value;
    assert IsShaped(d);
    EqualDataReflexive(d);
  }

  lemma EqualEntryReadsAlike(e: SettleEntry, d: Data)
    requires IsSettleEntry(e) && EqualData(SettleEntryData(e), d) && ReadSettleEntry(d).Ok?
    ensures ReadSettleEntry(d).value == SettleId(e)
  {
    hide ParseHexOf, ReadBytes;
    var x := SettleEntryData(e);
    assert EqualData(x.fields[0], d.fields[0]) && EqualData(x.fields[1], d.fields[1]) && EqualData(x.fields[2], d.fields[2]);
    EqualRefReadsAlike(e.requestRef, d.fields[0]);
  }

  lemma EqualDeliveryReadsAlike(e: DeliverEntry, d: Data)
    requires IsDeliverEntry(e) && EqualData(DeliverEntryData(e), d) && ReadDeliverEntry(d).Ok?
    ensures ReadDeliverEntry(d).value == DeliverId(e)
  {
    hide ParseHexOf, ReadBytes;
    var x := DeliverEntryData(e);
    assert EqualData(x.fields[0], d.fields[0]) && EqualData(x.fields[1], d.fields[1]);
    EqualRefReadsAlike(e.claimRef, d.fields[0]);
  }

  lemma EqualRefReadsAlike(ref: OutRef, d: Data)
    requires IsReference(ref) && EqualData(OutRefData(ref), d)
    ensures OutRefFromData(d) == Ok(RefId(ref))
  {
    hide ParseHexOf, ReadBytes, Lower;
    var x := OutRefData(ref);
    assert EqualData(x.fields[0], d.fields[0]) && EqualData(x.fields[1], d.fields[1]);
    assert d.fields == x.fields;
    OutRefSurvives(ref);
  }

  /** A list that equals the encoding of its own sorted reading was sorted and normal already. */
  lemma SettleListIsCanonical(d: Data, entries: seq<SettleEntry>)
    requires ReadSettleList(d) == Ok(entries) && SortableReferences(entries, EntryRequest)
    requires forall i :: 0 <= i < |entries| ==> IsSettleEntry(SortItems(entries, EntryRequest)[i])
    requires EqualData(List(SettleList(SortItems(entries, EntryRequest))), d)
    ensures SettleIds(entries) == entries && Sorted(entries, EntryRequest)
  {
    hide IsSettleEntry, ReadSettleEntry, SettleEntryData, SortItems, RefId, IsReference;
    var sorted := SortItems(entries, EntryRequest);
    SortItemsSorts(entries, EntryRequest);
    var list := SettleList(sorted);
    forall i | 0 <= i < |entries| ensures entries[i] == SettleId(sorted[i]) && SettleId(sorted[i]) == sorted[i] {
      assert EqualData(list[i], d.items[i]);
      EqualEntryReadsAlike(sorted[i], d.items[i]);
      assert sorted[i] in multiset(entries);
      var k :| 0 <= k < |entries| && entries[k] == sorted[i];
      SettleEntryCodec(sorted[i], d.items[k]);
    }
    assert entries == sorted && SettleIds(entries) == sorted;
  }

  lemma DeliverListIsCanonical(d: Data, entries: seq<DeliverEntry>)
    requires ReadDeliverList(d) == Ok(entries) && SortableReferences(entries, EntryClaim)
    requires forall i :: 0 <= i < |entries| ==> IsDeliverEntry(SortItems(entries, EntryClaim)[i])
    requires EqualData(List(DeliverList(SortItems(entries, EntryClaim))), d)
    ensures DeliverIds(entries) == entries && Sorted(entries, EntryClaim)
  {
    hide IsDeliverEntry, ReadDeliverEntry, DeliverEntryData, SortItems, RefId, IsReference;
    var sorted := SortItems(entries, EntryClaim);
    SortItemsSorts(entries, EntryClaim);
    var list := DeliverList(sorted);
    forall i | 0 <= i < |entries| ensures entries[i] == DeliverId(sorted[i]) && DeliverId(sorted[i]) == sorted[i] {
      assert EqualData(list[i], d.items[i]);
      EqualDeliveryReadsAlike(sorted[i], d.items[i]);
      assert sorted[i] in multiset(entries);
      var k :| 0 <= k < |entries| && entries[k] == sorted[i];
      DeliverEntryCodec(sorted[i], d.items[k]);
    }
    assert entries == sorted && DeliverIds(entries) == sorted;
  }

  lemma StateActionIsCanonical(d: Data, codec: Codec)
    requires StateActionFromData(d, codec).Ok? && IsStateAction(StateActionFromData(d, codec).value, codec)
    requires EqualData(StateActionData(StateActionFromData(d, codec).value, codec), d)
    ensures RedeemerId(StateAction(StateActionFromData(d, codec).value)) == StateAction(StateActionFromData(d, codec).value)
  {
    hide IsDestination, DestinationFromData, DestinationData, ReadSettleList, SettleIds, Lower, PrintHex, ParseHexOf;
    hide SortItems, SettleList, SortableReferences, ReadIndexOption, DestinationId;
    var r := StateActionFromData(d, codec).value;
    if r.Direct? {
      DestinationDecoded(d.fields[0], codec);
    } else if r.Batch? {
      var rebuilt := StateActionData(r, codec);
      assert EqualData(rebuilt.fields[1], d.fields[1]);
      SettleListIsCanonical(d.fields[1], r.entries);
      BytesDecoded(d.fields[2], 28);
    }
  }

  /**
   * Redeemer decoding is canonical: accepted Data is what the encoder produces for the decoded action, and the
   * decoded action is in canonical form, its entries in strict reference order.
   */
  lemma RedeemerDecoded(role: Role, d: Data, codec: Codec)
    requires RedeemerFromData(role, d, codec).Ok?
    ensures
      var r := RedeemerFromData(role, d, codec).value;
      EncodeRedeemer(r, codec).Ok? && EqualData(EncodeRedeemer(r, codec).value, d) && RedeemerId(r) == r
  {
    hide StateActionFromData, StateActionData, IsStateAction, OutRefFromData, OutRefData, RefId, IsReference;
    hide ReadDeliverList, SortItems, DeliverList, DeliverIds, SortableReferences, Distinct;
    var r := RedeemerFromData(role, d, codec).value;
    var rebuilt, action := EncodeRedeemer(r, codec).value, d.fields[2];
    assert EqualData(rebuilt.fields[2], action);
    match r
    case StateAction(_) => StateActionIsCanonical(action, codec);
    case RequestAction(Acknowledge(_)) => OutRefDecoded(action.fields[0]);
    case RequestAction(Refund(_, _)) =>
    case ClaimAction(Deliver(entries)) =>
      assert EqualData(ActionData(r, codec).fields[0], action.fields[0]);
      DeliverListIsCanonical(action.fields[0], entries);
    case MintAction(Initialize(_, _)) =>
    case MintAction(SupplyUpdate(_)) => OutRefDecoded(action.fields[0]);
  }

  /** Entries are listed in strict reference order. */
  predicate InOrder(r: Redeemer) {
    match r
    case StateAction(Batch(_, entries, _, _)) => Sorted(entries, EntryRequest)
    case ClaimAction(Deliver(entries)) => Sorted(entries, EntryClaim)
    case _ => true
  }

  /** The receiver's datum, where an action names a receiver, is within the codec's limits. */
  predicate ReceiverFits(r: Redeemer, codec: Codec) {
    match r
    case StateAction(Direct(_, receiver, _, _, _, _)) => receiver.datum.Some? ==> IsBounded(receiver.datum.value, codec.size)
    case _ => true
  }

  lemma EntriesInOrder<T>(items: seq<T>, getRef: T -> OutRef)
    requires Sorted(items, getRef)
    ensures SortItems(items, getRef) == items && Distinct(Ids(items, getRef))
  {
    SortedIsFixed(items, getRef);
  }

  /** What a plan may carry as a redeemer is what the encoder takes, in order, up to the size of a receiver's datum. */
  lemma ShapeIsEncodable(r: Redeemer, codec: Codec)
    ensures RedeemerShape(r) && ReceiverFits(r, codec) <==> IsRedeemer(r, codec) && InOrder(r)
  {
    hide IsReference, ParseHexOf, Sorted, SortItems, Ids, IsBounded, IsAddress;
    match r
    case StateAction(Batch(_, entries, _, _)) =>
      if Sorted(entries, EntryRequest) {
        EntriesInOrder(entries, EntryRequest);
      }
    case ClaimAction(Deliver(entries)) =>
      if Sorted(entries, EntryClaim) {
        EntriesInOrder(entries, EntryClaim);
      }
    case _ =>
  }

  /** So every accepted redeemer has the shape that plan validation asks for. */
  lemma DecodedRedeemerFits(role: Role, d: Data, codec: Codec)
    requires RedeemerFromData(role, d, codec).Ok?
    ensures RedeemerShape(RedeemerFromData(role, d, codec).value)
  {
    hide RedeemerFromData, ActionData, IsReference, RefId, Lower, ParseHexOf, SortItems, RedeemerShape, Sorted;
    var r := RedeemerFromData(role, d, codec).value;
    RedeemerDecoded(role, d, codec);
    ShapeIsEncodable(r, codec);
    match r
    case StateAction(Batch(_, entries, _, _)) => SortedIdsAreFixed(entries, EntryRequest, SettleId);
    case ClaimAction(Deliver(entries)) => SortedIdsAreFixed(entries, EntryClaim, DeliverId);
    case _ =>
  }

  /** The one reading that Data has as a redeemer. */
  function ClassifyRedeemer(d: Data, codec: Codec): Option<Redeemer> {
    if RedeemerFromData(StateRole, d, codec).Ok? then Some(RedeemerFromData(StateRole, d, codec).value)
    else if RedeemerFromData(RequestRole, d, codec).Ok? then Some(RedeemerFromData(RequestRole, d, codec).value)
    else if RedeemerFromData(ClaimRole, d, codec).Ok? then Some(RedeemerFromData(ClaimRole, d, codec).value)
    else if RedeemerFromData(MintRole, d, codec).Ok? then Some(RedeemerFromData(MintRole, d, codec).value)
    else None
  }

  /** The classification says of every role, selected alone, whether its decoder accepts and what it returns. */
  lemma RedeemerClassificationIsComplete(role: Role, d: Data, codec: Codec)
    ensures RedeemerFromData(role, d, codec).Ok? <==>
      ClassifyRedeemer(d, codec).Some? && RoleOf(ClassifyRedeemer(d, codec).value) == role
    ensures RedeemerFromData(role, d, codec).Ok? ==>
      ClassifyRedeemer(d, codec) == Some(RedeemerFromData(role, d, codec).value)
  {
    hide RedeemerFromData, RoleOf;
    forall a: Role, b: Role | RedeemerFromData(a, d, codec).Ok? && RedeemerFromData(b, d, codec).Ok?
      ensures a == b && RoleOf(RedeemerFromData(a, d, codec).value) == a
    {
      RolesAreDisjoint(d, a, b, codec);
    }
  }

  /** No Data decodes under two roles. */
  lemma RolesAreDisjoint(d: Data, role: Role, other: Role, codec: Codec)
    requires RedeemerFromData(role, d, codec).Ok? && RedeemerFromData(other, d, codec).Ok?
    ensures role == other && RoleOf(RedeemerFromData(role, d, codec).value) == role
  {
    hide StateActionFromData, RequestActionFromData, ClaimActionFromData, MintActionFromData, EncodeRedeemer, EqualData;
  }
}
