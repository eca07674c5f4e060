/** The protocol's records: identities, immutable Terms, the mutable State, Requests, Claims and quotes. */
module Types {
  import opened Results
  import opened PlutusData

  /** Hexadecimal identifiers. Above the wire codecs they are canonical, that is, lower case. */
  type Hex = string

  datatype CredentialType = Key | Script

  datatype Credential = Credential(kind: CredentialType, hash: Hex)

  datatype Address = Address(payment: Credential, stake: Option<Credential>)

  datatype Destination = Destination(address: Address, datum: Option<Data>)

  datatype Asset = Ada | Native(policy: Hex, name: Hex)

  datatype OutRef = OutRef(txId: Hex, index: int)

  datatype Terms = Terms(
    profile: int,
    networkDomain: Hex,
    underlying: Asset,
    virtualShares: int,
    maxBacking: Option<int>,
    entryBps: int,
    exitBps: int,
    feeDestination: Destination,
    pauseKey: Option<Hex>,
    settlers: Option<seq<Hex>>,
    executionModes: int,
    maxBatch: int,
    descriptorHash: Option<Hex>)

  datatype State = State(
    vaultPolicy: Hex,
    termsHash: Hex,
    sequence: int,
    backingAssets: int,
    economicSupply: int,
    accruedFees: int,
    storageLovelace: int,
    pauseFlags: int)

  datatype Config = Config(vaultPolicy: Hex, seed: OutRef, termsHash: Hex, terms: Terms, storageLovelace: int)

  datatype Recovery = Recovery(vaultPolicy: Hex, controller: Hex, refund: Destination, deadlinePosixMs: int)

  datatype RequestKind = DepositRequest | RedeemRequest

  datatype RequestBody = RequestBody(
    termsHash: Hex,
    kind: RequestKind,
    offered: int,
    minimumOutput: int,
    receiver: Destination,
    storageLovelace: int,
    executionBudget: int,
    settlerFee: int)

  datatype Request = Request(recovery: Recovery, body: RequestBody)

  datatype Claim = Claim(
    vaultPolicy: Hex,
    requestRef: OutRef,
    stateRef: OutRef,
    termsHash: Hex,
    asset: Asset,
    economicQuantity: int,
    receiver: Destination,
    carriedLovelace: int)

  datatype Operation = Deposit | Mint | Withdraw | Redeem {
    predicate IsEntry() {
      Deposit? || Mint?
    }
  }

  datatype Quote = Quote(
    operation: Operation,
    amount: int,
    grossAssets: int,
    netAssets: int,
    shares: int,
    fee: int)

  datatype ChainPoint = ChainPoint(slot: int, blockHash: Hex)

  datatype SettleEntry = SettleEntry(requestRef: OutRef, claimOutput: int, claimTopup: int)

  datatype DeliverEntry = DeliverEntry(claimRef: OutRef, receiverOutput: int)

  datatype RefundMode = Cancel | Expiry

  datatype StateRedeemer =
    | Direct(operation: Operation, receiver: Destination, amount: int, bound: int, stateOutput: int, receiverOutput: int)
    | Batch(stateOutput: int, entries: seq<SettleEntry>, rewardKey: Hex, rewardOutput: Option<int>)
    | CollectFees(stateOutput: int, feeOutput: int)
    | TopUpReserve(topUp: int, stateOutput: int)
    | SetPause(flags: int, stateOutput: int)

  datatype RequestRedeemer = Acknowledge(stateRef: OutRef) | Refund(mode: RefundMode, refundOutput: int)

  datatype ClaimRedeemer = Deliver(deliveries: seq<DeliverEntry>)

  datatype MintRedeemer = Initialize(configOutput: int, stateOutput: int) | SupplyUpdate(stateRef: OutRef)

  datatype Redeemer =
    | StateAction(state: StateRedeemer)
    | RequestAction(request: RequestRedeemer)
    | ClaimAction(claim: ClaimRedeemer)
    | MintAction(mint: MintRedeemer)

  /**
   * What a datum is to the protocol. The four wire envelopes are disjoint, so Data has at most one of these
   * readings; a Request whose economic body is unsupported keeps its Recovery alone.
   */
  datatype Datum =
    | StateDatum(state: State)
    | RequestDatum(request: Request)
    | RecoveryDatum(recovery: Recovery, body: Data)
    | ClaimDatum(claim: Claim)
    | ConfigDatum(config: Config)
    | OpaqueDatum(data: Data)
}
