/** Ownership partitions over one published projection: free, locked and issued shares of an owner address. */
module Ownership {
  import opened Results
  import opened Types
  import opened HexStrings
  import opened Arithmetic
  import opened Values
  import opened References
  import opened Sums
  import opened Planning
  import opened AcceptedTransactions
  import opened Projections
  import opened Projecting
  import opened Lifecycles

  /** Payment and stake both match; pointer and other address forms match nobody. */
  predicate SameAddress(actual: LedgerAddress, owner: Address) {
    && !actual.kind.OtherAddress?
    && actual.payment == Some(CredentialId(owner.payment))
    && actual.stake == AddressId(owner).stake
  }

  /** The request of a record whose economics match the vault's Terms and whose escrow is exact. */
  function PricedRequest(r: RequestRecord, vault: VaultRecord): Option<Request> {
    if r.request.None? || r.request.value.body.termsHash != vault.deployment.termsHash then None
    else
      var escrow := RequestValue(r.request.value, vault.terms);
      if escrow.Ok? && AssertSameValue(r.source.content.value, escrow.value).Pass? then r.request else None
  }

  function ShareUnit(vault: VaultRecord): Asset {
    OwnAsset(vault.deployment.policy, ShareToken)
  }

  predicate IsFree(p: Projection, owner: Address, k: OutRef) {
    && k in p.utxos && k !in p.claims && k !in p.requests
    && SameAddress(p.utxos[k].content.address, owner)
  }

  function FreeAt(p: Projection, owner: Address, unit: Asset): OutRef -> int {
    k => if IsFree(p, owner, k) then Qty(p.utxos[k].content.value, unit) else 0
  }

  predicate IsPendingFor(p: Projection, vault: VaultRecord, k: OutRef) {
    k in p.requests && p.requests[k].policy == vault.deployment.policy && p.requests[k].status.PendingEscrow?
  }

  /** A pending Request whose refund goes to the owner. */
  predicate IsRefundableTo(p: Projection, vault: VaultRecord, owner: Address, k: OutRef) {
    IsPendingFor(p, vault, k) && AddressId(p.requests[k].recovery.refund.address) == AddressId(owner)
  }

  function OfferOf(request: Option<Request>, kind: RequestKind): int {
    if request.Some? && request.value.body.kind == kind then request.value.body.offered else 0
  }

  function OfferedAt(p: Projection, vault: VaultRecord, owner: Address, kind: RequestKind): OutRef -> int {
    k =>
      if IsRefundableTo(p, vault, owner, k) then OfferOf(PricedRequest(p.requests[k], vault), kind) else 0
  }

  function UnsupportedAt(p: Projection, vault: VaultRecord, owner: Address): OutRef -> int {
    k => if IsRefundableTo(p, vault, owner, k) && PricedRequest(p.requests[k], vault).None? then 1 else 0
  }

  predicate IsControlled(p: Projection, vault: VaultRecord, owner: Address, k: OutRef) {
    && IsPendingFor(p, vault, k)
    && owner.payment.kind.Key? && p.requests[k].recovery.controller == Lower(owner.payment.hash)
  }

  predicate IsUndeliveredTo(p: Projection, vault: VaultRecord, owner: Address, k: OutRef) {
    && k in p.claims && !p.claims[k].delivered && p.claims[k].claim.vaultPolicy == vault.deployment.policy
    && AddressId(p.claims[k].claim.receiver.address) == AddressId(owner)
  }

  function IssuedAt(p: Projection, vault: VaultRecord, owner: Address, shares: bool): OutRef -> int {
    k =>
      if IsUndeliveredTo(p, vault, owner, k) && (AssetId(p.claims[k].claim.asset) == ShareUnit(vault)) == shares
      then p.claims[k].claim.economicQuantity else 0
  }

  method FreeShareBalance(p: Projection, owner: Address, unit: Asset) returns (freeShares: int)
    ensures freeShares == Sum(p.utxos.Keys, FreeAt(p, owner, unit))
  {
    freeShares := 0;
    var rest := p.utxos.Keys;
    while rest != {}
      invariant rest <= p.utxos.Keys
      invariant freeShares + Sum(rest, FreeAt(p, owner, unit)) == Sum(p.utxos.Keys, FreeAt(p, owner, unit))
    {
      var k :| k in rest;
      SumRemove(rest, k, FreeAt(p, owner, unit));
      if SameAddress(p.utxos[k].content.address, owner) && k !in p.claims && k !in p.requests {
        freeShares := freeShares + Qty(p.utxos[k].content.value, unit);
      }
      rest := rest - {k};
    }
  }

  datatype PendingOwnership = PendingOwnership(locked: int, deposits: int, unsupported: int, controlled: seq<OutRef>)

  ghost predicate PendingMeans(p: Projection, vault: VaultRecord, owner: Address, done: set<OutRef>, r: PendingOwnership) {
    && r.locked == Sum(done, OfferedAt(p, vault, owner, RedeemRequest))
    && r.deposits == Sum(done, OfferedAt(p, vault, owner, DepositRequest))
    && r.unsupported == Sum(done, UnsupportedAt(p, vault, owner))
    && (forall k :: k in r.controlled <==> k in done && IsControlled(p, vault, owner, k)) && Distinct(r.controlled)
  }

  /** What one record adds to the partition. */
  function AddPending(p: Projection, vault: VaultRecord, owner: Address, r: PendingOwnership, k: OutRef): PendingOwnership {
    PendingOwnership(
      r.locked + OfferedAt(p, vault, owner, RedeemRequest)(k),
      r.deposits + OfferedAt(p, vault, owner, DepositRequest)(k),
      r.unsupported + UnsupportedAt(p, vault, owner)(k),
      if IsControlled(p, vault, owner, k) then r.controlled + [k] else r.controlled)
  }

  lemma PendingStep(p: Projection, vault: VaultRecord, owner: Address, done: set<OutRef>, r: PendingOwnership, k: OutRef)
    requires PendingMeans(p, vault, owner, done, r) && k !in done
    ensures PendingMeans(p, vault, owner, done + {k}, AddPending(p, vault, owner, r, k))
  {
    hide IsControlled, OfferedAt, UnsupportedAt;
    assert done + {k} - {k} == done;
    SumRemove(done + {k}, k, OfferedAt(p, vault, owner, RedeemRequest));
    SumRemove(done + {k}, k, OfferedAt(p, vault, owner, DepositRequest));
    SumRemove(done + {k}, k, UnsupportedAt(p, vault, owner));
  }

  lemma NothingPending(p: Projection, vault: VaultRecord, owner: Address)
    ensures PendingMeans(p, vault, owner, {}, PendingOwnership(0, 0, 0, []))
  {
  }

  /** Cancellation authority stays apart from the refund destination; only funded, supported requests are valued. */
  method PendingRequestOwnership(p: Projection, vault: VaultRecord, owner: Address) returns (r: PendingOwnership)
    requires forall k <- p.requests :: p.requests[k].ref == k
    ensures PendingMeans(p, vault, owner, p.requests.Keys, r)
  {
    hide PricedRequest, PendingMeans, AddressId;
    var controlled: seq<OutRef> := [];
    var locked, deposits, unsupported := 0, 0, 0;
    var rest := p.requests.Keys;
    ghost var done: set<OutRef> := {};
    NothingPending(p, vault, owner);
    while rest != {}
      invariant rest !! done && rest + done == p.requests.Keys
      invariant PendingMeans(p, vault, owner, done, PendingOwnership(locked, deposits, unsupported, controlled))
      decreases rest
    {
      var k :| k in rest;
      var request := p.requests[k];
      ghost var next := AddPending(p, vault, owner, PendingOwnership(locked, deposits, unsupported, controlled), k);
      PendingStep(p, vault, owner, done, PendingOwnership(locked, deposits, unsupported, controlled), k);
      rest, done := rest - {k}, done + {k};
      if request.policy == vault.deployment.policy && request.status.PendingEscrow? {
        if owner.payment.kind.Key? && request.recovery.controller == Lower(owner.payment.hash) {
          controlled := controlled + [request.ref];
        }
        if AddressId(request.recovery.refund.address) == AddressId(owner) {
          var priced := PricedRequest(request, vault);
          if priced.None? {
            unsupported := unsupported + 1;
          } else if priced.value.body.kind.DepositRequest? {
            deposits := deposits + priced.value.body.offered;
          } else {
            locked := locked + priced.value.body.offered;
          }
        }
      }
      assert PendingOwnership(locked, deposits, unsupported, controlled) == next;
    }
    assert done == p.requests.Keys;
    return PendingOwnership(locked, deposits, unsupported, controlled);
  }

  method UndeliveredClaimOwnership(p: Projection, vault: VaultRecord, owner: Address) returns (shares: int, assets: int)
    ensures shares == Sum(p.claims.Keys, IssuedAt(p, vault, owner, true))
    ensures assets == Sum(p.claims.Keys, IssuedAt(p, vault, owner, false))
  {
    hide AddressId;
    shares, assets := 0, 0;
    var rest := p.claims.Keys;
    while rest != {}
      invariant rest <= p.claims.Keys
      invariant shares + Sum(rest, IssuedAt(p, vault, owner, true)) == Sum(p.claims.Keys, IssuedAt(p, vault, owner, true))
      invariant assets + Sum(rest, IssuedAt(p, vault, owner, false)) == Sum(p.claims.Keys, IssuedAt(p, vault, owner, false))
    {
      var k :| k in rest;
      SumRemove(rest, k, IssuedAt(p, vault, owner, true));
      SumRemove(rest, k, IssuedAt(p, vault, owner, false));
      var record := p.claims[k];
      if !record.delivered && record.claim.vaultPolicy == vault.deployment.policy
        && AddressId(record.claim.receiver.address) == AddressId(owner)
      {
        if AssetId(record.claim.asset) == ShareUnit(vault) {
          shares := shares + record.claim.economicQuantity;
        } else {
          assets := assets + record.claim.economicQuantity;
        }
      }
      rest := rest - {k};
    }
  }

  /** Every share of the vault that the partitions report for one owner. */
  ghost function OwnedShares(p: Projection, vault: VaultRecord, owner: Address): int {
    Sum(p.utxos.Keys, FreeAt(p, owner, ShareUnit(vault)))
    + Sum(p.requests.Keys, OfferedAt(p, vault, owner, RedeemRequest))
    + Sum(p.claims.Keys, IssuedAt(p, vault, owner, true))
  }

  datatype OwnershipView = OwnershipView(free: int, pending: PendingOwnership, issued: int, fixedClaims: int)

  method OwnershipData(p: Projection, vault: VaultRecord, owner: Address) returns (r: OwnershipView)
    requires forall k <- p.requests :: p.requests[k].ref == k
    ensures r.free == Sum(p.utxos.Keys, FreeAt(p, owner, ShareUnit(vault)))
    ensures PendingMeans(p, vault, owner, p.requests.Keys, r.pending)
    ensures r.issued == Sum(p.claims.Keys, IssuedAt(p, vault, owner, true))
    ensures r.fixedClaims == Sum(p.claims.Keys, IssuedAt(p, vault, owner, false))
    ensures r.free + r.pending.locked + r.issued == OwnedShares(p, vault, owner)
  {
    var free := FreeShareBalance(p, owner, ShareUnit(vault));
    var pending := PendingRequestOwnership(p, vault, owner);
    var issued, fixedClaims := UndeliveredClaimOwnership(p, vault, owner);
    return OwnershipView(free, pending, issued, fixedClaims);
  }

  ghost function OwnedByAll(p: Projection, vault: VaultRecord, owners: seq<Address>): int {
    if owners == [] then 0
    else OwnedByAll(p, vault, owners[..|owners| - 1]) + OwnedShares(p, vault, owners[|owners| - 1])
  }

  predicate DistinctOwners(owners: seq<Address>) {
    forall i, j :: 0 <= i < j < |owners| ==> AddressId(owners[i]) != AddressId(owners[j])
  }

  function HeldAt(p: Projection, unit: Asset): OutRef -> int {
    k => if k in p.utxos then Qty(p.utxos[k].content.value, unit) else 0
  }

  /** The one address that an unspent output's shares are reported for. */
  function HolderOf(p: Projection, vault: VaultRecord, k: OutRef): Option<Address> {
    if k in p.requests then
      if IsPendingFor(p, vault, k) then Some(AddressId(p.requests[k].recovery.refund.address)) else None
    else if k in p.claims then
      if !p.claims[k].delivered && p.claims[k].claim.vaultPolicy == vault.deployment.policy
      then Some(AddressId(p.claims[k].claim.receiver.address)) else None
    else if k in p.utxos then
      var actual := p.utxos[k].content.address;
      if actual.kind.OtherAddress? || actual.payment.None? then None else Some(Address(actual.payment.value, actual.stake))
    else None
  }

  /** The shares reported for an output's holder. */
  function ReportedAt(p: Projection, vault: VaultRecord, k: OutRef): int {
    if k in p.requests then OfferOf(PricedRequest(p.requests[k], vault), RedeemRequest)
    else if k in p.claims then
      if AssetId(p.claims[k].claim.asset) == ShareUnit(vault) then p.claims[k].claim.economicQuantity else 0
    else HeldAt(p, ShareUnit(vault))(k)
  }

  function OwnedAt(p: Projection, vault: VaultRecord, owner: Address): OutRef -> int {
    k => if HolderOf(p, vault, k) == Some(AddressId(owner)) then ReportedAt(p, vault, k) else 0
  }

  /** What the owners hold of one output. */
  function OwnedTogether(p: Projection, vault: VaultRecord, owners: seq<Address>): OutRef -> int {
    k => if exists o :: o in owners && HolderOf(p, vault, k) == Some(AddressId(o)) then ReportedAt(p, vault, k) else 0
  }

  /** A pending, priced redemption locks exactly the shares that its output holds. */
  lemma LockedIsHeld(r: RequestRecord, vault: VaultRecord)
    requires RequestOfSource(r) && r.policy == vault.deployment.policy && Lower(r.policy) == r.policy
    requires PricedRequest(r, vault).Some? && r.request.value.body.kind.RedeemRequest?
    ensures Qty(r.source.content.value, ShareUnit(vault)) == r.request.value.body.offered
    ensures 0 <= r.request.value.body.offered
  {
    hide IsActual, IsCustody;
    var request := r.request.value;
    var entries := RequestEntries(request, vault.terms);
    var expected := RequestValue(request, vault.terms).value;
    assert request.recovery == r.recovery;
    ValueOfMeans(entries);
    SameValueIsExact(r.source.content.value, expected);
    SumOfTwo(entries[0], entries[1], ShareUnit(vault));
    OwnAssetId(r.policy, ShareToken);
    EntriesAreQuantities(entries, 1);
  }

  lemma {:induction false} EntriesAreQuantities(entries: seq<(Asset, int)>, i: nat)
    requires i < |entries| && ValueOf(entries).Ok?
    ensures IsQuantity(entries[i].1)
  {
    AddedAreQuantities(map[], entries, i);
  }

  lemma {:induction false} AddedAreQuantities(v: Value, entries: seq<(Asset, int)>, i: nat)
    requires i < |entries| && AddEntries(v, entries).Ok?
    ensures IsQuantity(entries[i].1)
    decreases |entries|
  {
    if i > 0 {
      AddedAreQuantities(AddEntry(v, entries[0]).value, entries[1..], i - 1);
    }
  }

  /** An undelivered SHARE Claim owes exactly the shares that its output holds. */
  lemma IssuedIsHeld(c: ClaimRecord, vault: VaultRecord)
    requires ClaimOfSource(c) && AssetId(c.claim.asset) == ShareUnit(vault)
    ensures Qty(c.source.content.value, ShareUnit(vault)) == c.claim.economicQuantity
    ensures 0 <= c.claim.economicQuantity
  {
    hide IsActual, IsCustody;
    var entries := ClaimEntries(c.claim);
    var expected := ClaimValue(c.claim).value;
    ValueOfMeans(entries);
    SameValueIsExact(c.source.content.value, expected);
    SumOfTwo(entries[0], entries[1], ShareUnit(vault));
    EntriesAreQuantities(entries, 1);
  }

  /** No output is reported beyond what it holds, and only unspent outputs are reported. */
  lemma ReportedIsHeld(p: Projection, vault: VaultRecord, k: OutRef)
    requires Lifecycle(p) && Lower(vault.deployment.policy) == vault.deployment.policy
    requires HolderOf(p, vault, k).Some?
    ensures k in p.utxos && 0 <= ReportedAt(p, vault, k) <= HeldAt(p, ShareUnit(vault))(k)
  {
    hide PricedRequest, RequestOfSource, ClaimOfSource, OrderFits, VaultLinked, AddressId;
    assert k in p.utxos ==> UnsignedOutput(p.utxos[k]) && 0 <= Qty(p.utxos[k].content.value, ShareUnit(vault));
    if k in p.requests {
      assert RequestLinked(p, k, p.utxos, {});
      LockedIsReported(p.requests[k], vault);
    } else if k in p.claims {
      assert ClaimLinked(p, k, p.utxos, {});
      if AssetId(p.claims[k].claim.asset) == ShareUnit(vault) {
        IssuedIsHeld(p.claims[k], vault);
      }
    }
  }

  lemma LockedIsReported(r: RequestRecord, vault: VaultRecord)
    requires RequestOfSource(r) && r.policy == vault.deployment.policy && Lower(r.policy) == r.policy
    ensures OfferOf(PricedRequest(r, vault), RedeemRequest) == 0
      || 0 <= OfferOf(PricedRequest(r, vault), RedeemRequest) == Qty(r.source.content.value, ShareUnit(vault))
  {
    hide RequestOfSource;
    if PricedRequest(r, vault).Some? && r.request.value.body.kind.RedeemRequest? {
      LockedIsHeld(r, vault);
    }
  }

  /** Of the three partitions at most one reports an output, and it reports it for the output's holder. */
  lemma PartitionsAtOutput(p: Projection, vault: VaultRecord, owner: Address, k: OutRef)
    requires p.requests.Keys !! p.claims.Keys
    ensures FreeAt(p, owner, ShareUnit(vault))(k) + OfferedAt(p, vault, owner, RedeemRequest)(k)
          + IssuedAt(p, vault, owner, true)(k) == OwnedAt(p, vault, owner)(k)
  {
    hide PricedRequest;
    assert k in p.requests ==> k !in p.claims;
  }

  lemma RecordsAreDisjoint(p: Projection)
    requires Lifecycle(p)
    ensures p.requests.Keys !! p.claims.Keys
  {
    hide RequestLinked, ClaimLinked, VaultLinked, OrderFits;
  }

  lemma OwnedSharesIsOneSum(p: Projection, vault: VaultRecord, owner: Address)
    requires Lifecycle(p) && Lower(vault.deployment.policy) == vault.deployment.policy
    ensures OwnedShares(p, vault, owner) == Sum(p.utxos.Keys, OwnedAt(p, vault, owner))
  {
    hide Lifecycle, FreeAt, OfferedAt, IssuedAt, OwnedAt;
    RecordsAreDisjoint(p);
    var free := FreeAt(p, owner, ShareUnit(vault));
    var locked := OfferedAt(p, vault, owner, RedeemRequest);
    var issued := IssuedAt(p, vault, owner, true);
    PartitionsAreUnspent(p, vault, owner);
    SumSupport(p.requests.Keys, p.utxos.Keys, locked);
    SumSupport(p.claims.Keys, p.utxos.Keys, issued);
    forall k ensures free(k) + locked(k) + issued(k) == OwnedAt(p, vault, owner)(k) {
      PartitionsAtOutput(p, vault, owner, k);
    }
    var escrowed := (k: OutRef) => locked(k) + issued(k);
    SumPlus(p.utxos.Keys, locked, issued, escrowed);
    SumPlus(p.utxos.Keys, free, escrowed, OwnedAt(p, vault, owner));
  }

  /** A partition is empty at spent outputs, and empty outside its own map. */
  lemma PartitionsAreUnspent(p: Projection, vault: VaultRecord, owner: Address)
    requires Lifecycle(p)
    ensures forall k <- p.requests :: k !in p.utxos ==> OfferedAt(p, vault, owner, RedeemRequest)(k) == 0
    ensures forall k <- p.utxos :: k !in p.requests ==> OfferedAt(p, vault, owner, RedeemRequest)(k) == 0
    ensures forall k <- p.claims :: k !in p.utxos ==> IssuedAt(p, vault, owner, true)(k) == 0
    ensures forall k <- p.utxos :: k !in p.claims ==> IssuedAt(p, vault, owner, true)(k) == 0
  {
    hide PricedRequest, AddressId, RequestOfSource, ClaimOfSource, OrderFits, VaultLinked;
    forall k <- p.requests | k !in p.utxos ensures !p.requests[k].status.PendingEscrow? {
      assert RequestLinked(p, k, p.utxos, {});
    }
    forall k <- p.claims | k !in p.utxos ensures p.claims[k].delivered {
      assert ClaimLinked(p, k, p.utxos, {});
    }
  }

  lemma {:induction false} OwnedByAllIsOneSum(p: Projection, vault: VaultRecord, owners: seq<Address>)
    requires Lifecycle(p) && Lower(vault.deployment.policy) == vault.deployment.policy
    requires DistinctOwners(owners)
    ensures OwnedByAll(p, vault, owners) == Sum(p.utxos.Keys, OwnedTogether(p, vault, owners))
  {
    hide Lifecycle, HolderOf, ReportedAt, AddressId, OwnedShares;
    if owners == [] {
      SumZero(p.utxos.Keys, OwnedTogether(p, vault, owners));
    } else {
      var earlier, last := owners[..|owners| - 1], owners[|owners| - 1];
      OwnedByAllIsOneSum(p, vault, earlier);
      OwnedSharesIsOneSum(p, vault, last);
      forall k <- p.utxos.Keys
        ensures OwnedTogether(p, vault, owners)(k) == OwnedTogether(p, vault, earlier)(k) + OwnedAt(p, vault, last)(k)
      {
        TogetherStep(p, vault, owners, k);
      }
      SumPlus(p.utxos.Keys, OwnedTogether(p, vault, earlier), OwnedAt(p, vault, last), OwnedTogether(p, vault, owners));
    }
  }

  lemma TogetherStep(p: Projection, vault: VaultRecord, owners: seq<Address>, k: OutRef)
    requires DistinctOwners(owners) && owners != []
    ensures
      var earlier, last := owners[..|owners| - 1], owners[|owners| - 1];
      OwnedTogether(p, vault, owners)(k) == OwnedTogether(p, vault, earlier)(k) + OwnedAt(p, vault, last)(k)
  {
    hide HolderOf, ReportedAt, AddressId;
    var earlier, last := owners[..|owners| - 1], owners[|owners| - 1];
    assert owners == earlier + [last];
    forall o | o in earlier ensures o in owners && AddressId(o) != AddressId(last) {
      var i :| 0 <= i < |earlier| && earlier[i] == o;
      assert owners[i] == o;
    }
  }

  lemma HeldIsUnsigned(p: Projection, unit: Asset, k: OutRef)
    requires Lifecycle(p)
    ensures 0 <= HeldAt(p, unit)(k)
  {
    assert k in p.utxos ==> UnsignedOutput(p.utxos[k]);
  }

  /**
   * Ownership never double counts: the free, locked and issued shares of any distinct owners together are at most
   * the SHARE that the projected outputs hold.
   */
  lemma OwnershipNeverDoubleCounts(p: Projection, vault: VaultRecord, owners: seq<Address>)
    requires Lifecycle(p) && Lower(vault.deployment.policy) == vault.deployment.policy
    requires DistinctOwners(owners)
    ensures OwnedByAll(p, vault, owners) <= Sum(p.utxos.Keys, HeldAt(p, ShareUnit(vault)))
  {
    hide Lifecycle, HolderOf, ReportedAt, AddressId, OwnedByAll;
    OwnedByAllIsOneSum(p, vault, owners);
    forall k <- p.utxos.Keys
      ensures OwnedTogether(p, vault, owners)(k) <= HeldAt(p, ShareUnit(vault))(k)
    {
      if HolderOf(p, vault, k).Some? {
        ReportedIsHeld(p, vault, k);
      } else {
        HeldIsUnsigned(p, ShareUnit(vault), k);
      }
    }
    SumAtMost(p.utxos.Keys, OwnedTogether(p, vault, owners), HeldAt(p, ShareUnit(vault)));
  }

  /** An output outside escrow and Claims, at a Base or Enterprise address. */
  predicate IsLoose(p: Projection, k: OutRef) {
    && k in p.utxos && k !in p.claims && k !in p.requests
    && (p.utxos[k].content.address.kind == BaseAddress || p.utxos[k].content.address.kind == EnterpriseAddress)
    && p.utxos[k].content.address.payment.Some?
  }

  /** Whether a loose output is at an owner's address: both credentials, in any spelling of the owner's. */
  predicate IsAt(p: Projection, k: OutRef, owner: Address)
    requires IsLoose(p, k)
  {
    var address := p.utxos[k].content.address;
    && address.payment.value.kind == owner.payment.kind && address.payment.value.hash == Lower(owner.payment.hash)
    && (if owner.stake.None? then address.stake == None
        else address.stake == Some(Credential(owner.stake.value.kind, Lower(owner.stake.value.hash))))
  }

  /** Free shares are counted at exactly the owner's own loose outputs. */
  lemma FreeIsExact(p: Projection, owner: Address, unit: Asset, k: OutRef)
    ensures FreeAt(p, owner, unit)(k) == if IsLoose(p, k) && IsAt(p, k, owner) then Qty(p.utxos[k].content.value, unit) else 0
  {
  }

  function LooseAt(p: Projection, unit: Asset, owners: seq<Address>): OutRef -> int {
    k => if IsLoose(p, k) && exists o :: o in owners && IsAt(p, k, o) then Qty(p.utxos[k].content.value, unit) else 0
  }

  function EveryLoose(p: Projection, unit: Asset): OutRef -> int {
    k => if IsLoose(p, k) then Qty(p.utxos[k].content.value, unit) else 0
  }

  ghost function FreeOfAll(p: Projection, unit: Asset, owners: seq<Address>): int {
    if owners == [] then 0
    else FreeOfAll(p, unit, owners[..|owners| - 1]) + Sum(p.utxos.Keys, FreeAt(p, owners[|owners| - 1], unit))
  }

  lemma OneOwnerEach(p: Projection, k: OutRef, a: Address, b: Address)
    requires IsLoose(p, k) && IsAt(p, k, a) && IsAt(p, k, b)
    ensures AddressId(a) == AddressId(b)
  {
    hide Lower;
  }

  /**
   * The free shares of distinct owners together are exactly what the loose outputs at their addresses hold; so where the owners
   * cover every loose output, no free share goes unreported.
   */
  lemma {:induction false} FreeSharesReach(p: Projection, unit: Asset, owners: seq<Address>)
    requires DistinctOwners(owners)
    ensures FreeOfAll(p, unit, owners) == Sum(p.utxos.Keys, LooseAt(p, unit, owners))
    ensures (forall k :: IsLoose(p, k) ==> exists o :: o in owners && IsAt(p, k, o)) ==>
      FreeOfAll(p, unit, owners) == Sum(p.utxos.Keys, EveryLoose(p, unit))
  {
    hide IsLoose, IsAt, AddressId, FreeAt;
    if owners == [] {
      SumZero(p.utxos.Keys, LooseAt(p, unit, owners));
    } else {
      var earlier, last := owners[..|owners| - 1], owners[|owners| - 1];
      FreeSharesReach(p, unit, earlier);
      forall k <- p.utxos.Keys
        ensures LooseAt(p, unit, owners)(k) == LooseAt(p, unit, earlier)(k) + FreeAt(p, last, unit)(k)
      {
        LooseStep(p, unit, owners, k);
      }
      SumPlus(p.utxos.Keys, LooseAt(p, unit, earlier), FreeAt(p, last, unit), LooseAt(p, unit, owners));
    }
    if forall k :: IsLoose(p, k) ==> exists o :: o in owners && IsAt(p, k, o) {
      SumSame(p.utxos.Keys, LooseAt(p, unit, owners), EveryLoose(p, unit));
    }
  }

  lemma LooseStep(p: Projection, unit: Asset, owners: seq<Address>, k: OutRef)
    requires DistinctOwners(owners) && owners != []
    ensures
      var earlier, last := owners[..|owners| - 1], owners[|owners| - 1];
      LooseAt(p, unit, owners)(k) == LooseAt(p, unit, earlier)(k) + FreeAt(p, last, unit)(k)
  {
    hide IsLoose, IsAt, AddressId, FreeAt;
    var earlier, last := owners[..|owners| - 1], owners[|owners| - 1];
    assert owners == earlier + [last];
    FreeIsExact(p, last, unit, k);
    if IsLoose(p, k) && IsAt(p, k, last) {
      forall o | o in earlier ensures !IsAt(p, k, o) {
        var i :| 0 <= i < |earlier| && earlier[i] == o;
        assert owners[i] == o;
        if IsAt(p, k, o) {
          OneOwnerEach(p, k, o, last);
        }
      }
    }
  }

  /** A Request is valued exactly when its economics can be read under the vault's Terms and its escrow holds what it must. */
  lemma PricedIsExact(r: RequestRecord, vault: VaultRecord)
    ensures PricedRequest(r, vault).Some? <==>
      && r.request.Some? && r.request.value.body.termsHash == vault.deployment.termsHash
      && RequestValue(r.request.value, vault.terms).Ok? && IsActual(r.source.content.value)
      && forall a :: Qty(r.source.content.value, a) == EntrySum(RequestEntries(r.request.value, vault.terms), a)
    ensures PricedRequest(r, vault).Some? ==> PricedRequest(r, vault) == r.request
  {
    hide RequestEntries, AssertSameValue, IsActual, EntrySum, Qty;
    if r.request.Some? && RequestValue(r.request.value, vault.terms).Ok? {
      ValueOfMeans(RequestEntries(r.request.value, vault.terms));
      SameValueIsExact(r.source.content.value, RequestValue(r.request.value, vault.terms).value);
    }
  }

  /** What a record adds to each partition: only pending, refunding to the owner, at this vault; controllers are another matter. */
  lemma PendingIsExact(p: Projection, vault: VaultRecord, owner: Address, k: OutRef)
    ensures
      var mine :=
        && k in p.requests && p.requests[k].policy == vault.deployment.policy && p.requests[k].status == PendingEscrow
        && AddressId(p.requests[k].recovery.refund.address) == AddressId(owner);
      var priced := if k in p.requests then PricedRequest(p.requests[k], vault) else None;
      && OfferedAt(p, vault, owner, RedeemRequest)(k)
         == (if mine && priced.Some? && priced.value.body.kind == RedeemRequest then priced.value.body.offered else 0)
      && OfferedAt(p, vault, owner, DepositRequest)(k)
         == (if mine && priced.Some? && priced.value.body.kind == DepositRequest then priced.value.body.offered else 0)
      && UnsupportedAt(p, vault, owner)(k) == (if mine && priced == None then 1 else 0)
      && (IsControlled(p, vault, owner, k) <==>
            && k in p.requests && p.requests[k].policy == vault.deployment.policy && p.requests[k].status == PendingEscrow
            && owner.payment.kind == Key && p.requests[k].recovery.controller == Lower(owner.payment.hash))
  {
    hide PricedRequest, AddressId;
  }

  /** What a Claim adds: only undelivered, owed to the owner by this vault, as shares or as its fixed asset. */
  lemma IssuedIsExact(p: Projection, vault: VaultRecord, owner: Address, k: OutRef)
    ensures
      var mine :=
        && k in p.claims && !p.claims[k].delivered && p.claims[k].claim.vaultPolicy == vault.deployment.policy
        && AddressId(p.claims[k].claim.receiver.address) == AddressId(owner);
      var share := k in p.claims && AssetId(p.claims[k].claim.asset) == Native(vault.deployment.policy, TokenHex(ShareToken));
      && IssuedAt(p, vault, owner, true)(k) == (if mine && share then p.claims[k].claim.economicQuantity else 0)
      && IssuedAt(p, vault, owner, false)(k) == (if mine && !share then p.claims[k].claim.economicQuantity else 0)
  {
    hide AddressId, AssetId, TokenHex;
  }
}
