/** Output review: a protected prefix by position, permitted extras as a multiset, and nothing else but change. */
module EffectOutputs {
  import opened Results
  import opened Types
  import opened HexStrings
  import opened Values
  import opened Planning
  import opened AcceptedTransactions
  import opened EffectsLedger

  datatype ReviewRole = ProtectedRole | PermittedRole | ChangeRole

  datatype ChangePolicy = ChangePolicy(address: LedgerAddress, datum: OutputDatum)

  /** Authorized change: the wallet's own address and datum, and no reference script. */
  predicate IsChange(o: WalletOutput, change: ChangePolicy, networkId: int) {
    && IsPaymentAddress(change.address, networkId)
    && o.address == change.address && SameDatum(o.datum, change.datum) && o.script.None?
  }

  function IdsOf(outputs: seq<WalletOutput>, networkId: int): (ids: seq<Option<WalletOutput>>)
    ensures |ids| == |outputs| && forall i :: 0 <= i < |outputs| ==> ids[i] == OutputId(outputs[i], networkId)
  {
    seq(|outputs|, i requires 0 <= i < |outputs| => OutputId(outputs[i], networkId))
  }

  ghost function Bag(outputs: seq<WalletOutput>, networkId: int): multiset<Option<WalletOutput>> {
    multiset(IdsOf(outputs, networkId))
  }

  /** What outputs hold of one asset in all. */
  function AmountSum(outputs: seq<WalletOutput>, a: Asset): int {
    if outputs == [] then 0 else AmountSum(outputs[..|outputs| - 1], a) + Amount(outputs[|outputs| - 1].value, a)
  }

  /** The outputs that carry a role. */
  function Having(outputs: seq<WalletOutput>, roles: seq<ReviewRole>, role: ReviewRole): seq<WalletOutput>
    requires |outputs| == |roles|
  {
    if outputs == [] then []
    else
      var last := |outputs| - 1;
      Having(outputs[..last], roles[..last], role) + if roles[last] == role then [outputs[last]] else []
  }

  function Expected(planned: seq<PlannedOutput>, networkId: int): (r: seq<WalletOutput>)
    ensures |r| == |planned| && forall i :: 0 <= i < |planned| ==> r[i] == ExpectedOutput(planned[i], networkId)
  {
    seq(|planned|, i requires 0 <= i < |planned| => ExpectedOutput(planned[i], networkId))
  }

  predicate PrefixProtected(outputs: seq<WalletOutput>, planned: seq<PlannedOutput>, networkId: int) {
    && |planned| <= |outputs|
    && forall i :: 0 <= i < |planned| ==> SameOutput(outputs[i], ExpectedOutput(planned[i], networkId), networkId)
  }

  /** After the prefix: every permitted output occurs, as often as permitted, and all others are change. */
  ghost predicate TailAccounted(tail: seq<WalletOutput>, permitted: seq<WalletOutput>, change: ChangePolicy, networkId: int) {
    var extra, present := Bag(permitted, networkId), Bag(tail, networkId);
    && extra <= present
    && forall id :: id in present - extra ==> id.Some? && IsChange(id.value, change, networkId)
  }

  ghost predicate OutputsAcceptable(
    outputs: seq<WalletOutput>, planned: seq<PlannedOutput>, permitted: seq<WalletOutput>, change: ChangePolicy, networkId: int)
  {
    && (forall o <- outputs :: OutputId(o, networkId).Some?)
    && PrefixProtected(outputs, planned, networkId)
    && TailAccounted(outputs[|planned|..], permitted, change, networkId)
  }

  /** Mid-review: permitted entries are remaining or consumed, and reviewed outputs are consumed ones or change. */
  ghost predicate Reviewing(
    tail: seq<WalletOutput>, roles: seq<ReviewRole>, permitted: seq<WalletOutput>, remaining: seq<WalletOutput>,
    change: ChangePolicy, networkId: int)
  {
    && |tail| == |roles|
    && (forall i :: 0 <= i < |roles| ==> roles[i] != ProtectedRole)
    && (forall o <- tail :: OutputId(o, networkId).Some?)
    && (var consumed := Bag(Having(tail, roles, PermittedRole), networkId);
        var others := Bag(Having(tail, roles, ChangeRole), networkId);
        && Bag(permitted, networkId) == Bag(remaining, networkId) + consumed
        && Bag(tail, networkId) == consumed + others
        && forall id <- others :: id.Some? && IsChange(id.value, change, networkId) && id !in Bag(remaining, networkId))
  }

  lemma BagAppend(outputs: seq<WalletOutput>, o: WalletOutput, networkId: int)
    ensures Bag(outputs + [o], networkId) == Bag(outputs, networkId) + multiset{OutputId(o, networkId)}
  {
    assert IdsOf(outputs + [o], networkId) == IdsOf(outputs, networkId) + [OutputId(o, networkId)];
  }

  lemma BagRemove(outputs: seq<WalletOutput>, i: nat, networkId: int)
    requires i < |outputs|
    ensures Bag(outputs, networkId)
         == Bag(outputs[..i] + outputs[i + 1..], networkId) + multiset{OutputId(outputs[i], networkId)}
  {
    var ids, rest := IdsOf(outputs, networkId), outputs[..i] + outputs[i + 1..];
    assert IdsOf(rest, networkId) == ids[..i] + ids[i + 1..];
    assert ids == ids[..i] + [ids[i]] + ids[i + 1..];
  }

  lemma BagHas(outputs: seq<WalletOutput>, o: WalletOutput, networkId: int)
    ensures OutputId(o, networkId) in Bag(outputs, networkId) <==>
      exists i :: 0 <= i < |outputs| && OutputId(outputs[i], networkId) == OutputId(o, networkId)
  {
    hide OutputId;
    var ids := IdsOf(outputs, networkId);
    assert OutputId(o, networkId) in Bag(outputs, networkId) <==> OutputId(o, networkId) in ids;
    if exists i :: 0 <= i < |outputs| && OutputId(outputs[i], networkId) == OutputId(o, networkId) {
      var i :| 0 <= i < |outputs| && OutputId(outputs[i], networkId) == OutputId(o, networkId);
      assert ids[i] == OutputId(o, networkId);
    }
  }

  lemma HavingAppend(outputs: seq<WalletOutput>, roles: seq<ReviewRole>, o: WalletOutput, role: ReviewRole, wanted: ReviewRole)
    requires |outputs| == |roles|
    ensures role == wanted ==> Having(outputs + [o], roles + [role], wanted) == Having(outputs, roles, wanted) + [o]
    ensures role != wanted ==> Having(outputs + [o], roles + [role], wanted) == Having(outputs, roles, wanted)
  {
    assert (outputs + [o])[..|outputs|] == outputs && (roles + [role])[..|roles|] == roles;
  }

  lemma ReviewPermitted(
    tail: seq<WalletOutput>, roles: seq<ReviewRole>, permitted: seq<WalletOutput>, remaining: seq<WalletOutput>,
    change: ChangePolicy, networkId: int, o: WalletOutput, i: nat)
    requires Reviewing(tail, roles, permitted, remaining, change, networkId)
    requires i < |remaining| && SameOutput(o, remaining[i], networkId)
    ensures Reviewing(tail + [o], roles + [PermittedRole], permitted, remaining[..i] + remaining[i + 1..], change, networkId)
  {
    hide OutputId, SameOutput, Bag, IsChange, Having;
    SameOutputIsIdentity(o, remaining[i], networkId);
    BagRemove(remaining, i, networkId);
    BagAppend(tail, o, networkId);
    HavingAppend(tail, roles, o, PermittedRole, PermittedRole);
    HavingAppend(tail, roles, o, PermittedRole, ChangeRole);
    BagAppend(Having(tail, roles, PermittedRole), o, networkId);
  }

  lemma ReviewChange(
    tail: seq<WalletOutput>, roles: seq<ReviewRole>, permitted: seq<WalletOutput>, remaining: seq<WalletOutput>,
    change: ChangePolicy, networkId: int, o: WalletOutput)
    requires Reviewing(tail, roles, permitted, remaining, change, networkId) && OutputId(o, networkId).Some?
    requires forall i :: 0 <= i < |remaining| ==> !SameOutput(o, remaining[i], networkId)
    requires IsChange(o, change, networkId)
    ensures Reviewing(tail + [o], roles + [ChangeRole], permitted, remaining, change, networkId)
  {
    hide SameOutput, Bag, Having;
    NotRemaining(remaining, o, networkId);
    ChangeIsIdentity(o, change, networkId);
    hide OutputId, IsChange;
    BagAppend(tail, o, networkId);
    HavingAppend(tail, roles, o, ChangeRole, PermittedRole);
    HavingAppend(tail, roles, o, ChangeRole, ChangeRole);
    BagAppend(Having(tail, roles, ChangeRole), o, networkId);
  }

  lemma NotRemaining(remaining: seq<WalletOutput>, o: WalletOutput, networkId: int)
    requires OutputId(o, networkId).Some?
    requires forall i :: 0 <= i < |remaining| ==> !SameOutput(o, remaining[i], networkId)
    ensures OutputId(o, networkId) !in Bag(remaining, networkId)
  {
    hide OutputId, SameOutput;
    BagHas(remaining, o, networkId);
    forall i | 0 <= i < |remaining| ensures OutputId(remaining[i], networkId) != OutputId(o, networkId) {
      SameOutputIsIdentity(o, remaining[i], networkId);
    }
  }

  /** Being change depends only on an output's identity. */
  lemma ChangeIsIdentity(o: WalletOutput, change: ChangePolicy, networkId: int)
    requires OutputId(o, networkId).Some?
    ensures IsChange(OutputId(o, networkId).value, change, networkId) <==> IsChange(o, change, networkId)
  {
    if o.datum.HashDatum? {
      LowerIsIdempotent(o.datum.hash);
    }
  }

  /** An output that matches nothing left and is not change is one too many. */
  lemma UnapprovedIsExcess(
    tail: seq<WalletOutput>, roles: seq<ReviewRole>, permitted: seq<WalletOutput>, remaining: seq<WalletOutput>,
    change: ChangePolicy, networkId: int, o: WalletOutput, rest: seq<WalletOutput>)
    requires Reviewing(tail, roles, permitted, remaining, change, networkId) && OutputId(o, networkId).Some?
    requires forall i :: 0 <= i < |remaining| ==> !SameOutput(o, remaining[i], networkId)
    requires !IsChange(o, change, networkId)
    ensures !TailAccounted(tail + [o] + rest, permitted, change, networkId)
  {
    hide SameOutput, Bag, Having;
    NotRemaining(remaining, o, networkId);
    ChangeIsIdentity(o, change, networkId);
    hide OutputId, IsChange;
    BagAppend(tail, o, networkId);
    BagConcat(tail + [o], rest, networkId);
    var id := OutputId(o, networkId);
    var extra, present := Bag(permitted, networkId), Bag(tail + [o] + rest, networkId);
    assert extra[id] == Bag(Having(tail, roles, PermittedRole), networkId)[id];
    assert present[id] > extra[id];
    assert id in present - extra;
  }

  lemma BagConcat(left: seq<WalletOutput>, right: seq<WalletOutput>, networkId: int)
    ensures Bag(left + right, networkId) == Bag(left, networkId) + Bag(right, networkId)
  {
    assert IdsOf(left + right, networkId) == IdsOf(left, networkId) + IdsOf(right, networkId);
  }

  /** With every output reviewed, the outputs are accounted for exactly when nothing permitted remains. */
  lemma ReviewEnds(
    tail: seq<WalletOutput>, roles: seq<ReviewRole>, permitted: seq<WalletOutput>, remaining: seq<WalletOutput>,
    change: ChangePolicy, networkId: int)
    requires Reviewing(tail, roles, permitted, remaining, change, networkId)
    ensures TailAccounted(tail, permitted, change, networkId) <==> remaining == []
  {
    hide OutputId, IsChange, Having;
    var consumed := Bag(Having(tail, roles, PermittedRole), networkId);
    var others := Bag(Having(tail, roles, ChangeRole), networkId);
    if remaining == [] {
      assert Bag(permitted, networkId) == consumed;
      assert Bag(tail, networkId) - Bag(permitted, networkId) == others;
    } else {
      var id := IdsOf(remaining, networkId)[0];
      assert id in Bag(remaining, networkId);
      assert others[id] == 0;
      assert Bag(tail, networkId)[id] < Bag(permitted, networkId)[id];
    }
  }

  lemma ReviewStarts(permitted: seq<WalletOutput>, change: ChangePolicy, networkId: int)
    ensures Reviewing([], [], permitted, permitted, change, networkId)
  {
  }

  /** The first remaining entry that an output matches. */
  function FirstMatch(remaining: seq<WalletOutput>, o: WalletOutput, networkId: int): (r: Option<nat>)
    ensures r.Some? ==> r.value < |remaining| && SameOutput(o, remaining[r.value], networkId)
    ensures r.None? ==> forall i :: 0 <= i < |remaining| ==> !SameOutput(o, remaining[i], networkId)
  {
    if remaining == [] then None
    else if SameOutput(o, remaining[0], networkId) then Some(0)
    else
      var later := FirstMatch(remaining[1..], o, networkId);
      if later.None? then None else Some(later.value + 1)
  }

  lemma {:induction false} SameBagSameSum(left: seq<WalletOutput>, right: seq<WalletOutput>, networkId: int, a: Asset)
    requires Bag(left, networkId) == Bag(right, networkId)
    requires forall o <- left :: OutputId(o, networkId).Some?
    ensures AmountSum(left, a) == AmountSum(right, a)
    decreases |left|
  {
    hide OutputId, Amount, AmountSum, Bag;
    BagSize(left, networkId);
    BagSize(right, networkId);
    if left != [] {
      var last := |left| - 1;
      var o := left[last];
      var earlier := left[..last] + left[last + 1..];
      assert earlier == left[..last];
      BagRemove(left, last, networkId);
      SumRemoveAt(left, last, a);
      BagHas(right, o, networkId);
      var i :| 0 <= i < |right| && OutputId(right[i], networkId) == OutputId(o, networkId);
      var others := right[..i] + right[i + 1..];
      BagRemove(right, i, networkId);
      SumRemoveAt(right, i, a);
      SameIdSameAmount(o, right[i], networkId, a);
      assert Bag(earlier, networkId) == Bag(left, networkId) - multiset{OutputId(o, networkId)};
      SameBagSameSum(earlier, others, networkId, a);
    }
  }

  lemma BagSize(outputs: seq<WalletOutput>, networkId: int)
    ensures |Bag(outputs, networkId)| == |outputs|
  {
  }

  lemma SameIdSameAmount(o: WalletOutput, p: WalletOutput, networkId: int, a: Asset)
    requires OutputId(o, networkId).Some? && OutputId(o, networkId) == OutputId(p, networkId)
    ensures Amount(o.value, a) == Amount(p.value, a)
  {
    hide NormalizedValue;
  }

  lemma {:induction false} SumRemoveAt(outputs: seq<WalletOutput>, i: nat, a: Asset)
    requires i < |outputs|
    ensures AmountSum(outputs, a) == AmountSum(outputs[..i] + outputs[i + 1..], a) + Amount(outputs[i].value, a)
    decreases |outputs|
  {
    hide Amount;
    var last := |outputs| - 1;
    var removed := outputs[..i] + outputs[i + 1..];
    if i == last {
      assert removed == outputs[..last];
    } else {
      SumRemoveAt(outputs[..last], i, a);
      assert removed[..|removed| - 1] == outputs[..last][..i] + outputs[..last][i + 1..];
    }
  }

  lemma {:induction false} SumByRole(tail: seq<WalletOutput>, roles: seq<ReviewRole>, a: Asset)
    requires |tail| == |roles| && forall i :: 0 <= i < |roles| ==> roles[i] != ProtectedRole
    ensures AmountSum(tail, a)
         == AmountSum(Having(tail, roles, PermittedRole), a) + AmountSum(Having(tail, roles, ChangeRole), a)
  {
    hide Amount;
    if tail != [] {
      var last := |tail| - 1;
      SumByRole(tail[..last], roles[..last], a);
      SumAppend(Having(tail[..last], roles[..last], roles[last]), tail[last], a);
      assert tail == tail[..last] + [tail[last]] && roles == roles[..last] + [roles[last]];
      HavingAppend(tail[..last], roles[..last], tail[last], roles[last], PermittedRole);
      HavingAppend(tail[..last], roles[..last], tail[last], roles[last], ChangeRole);
    }
  }

  lemma SumAppend(outputs: seq<WalletOutput>, o: WalletOutput, a: Asset)
    ensures AmountSum(outputs + [o], a) == AmountSum(outputs, a) + Amount(o.value, a)
  {
    hide Amount;
    assert (outputs + [o])[..|outputs|] == outputs;
  }

  lemma {:induction false} SumConcat(left: seq<WalletOutput>, right: seq<WalletOutput>, a: Asset)
    ensures AmountSum(left + right, a) == AmountSum(left, a) + AmountSum(right, a)
  {
    hide Amount;
    if right == [] {
      assert left + right == left;
    } else {
      var last := |right| - 1;
      SumConcat(left, right[..last], a);
      assert (left + right)[..|left + right| - 1] == left + right[..last];
    }
  }

  lemma {:induction false} ProtectedSum(outputs: seq<WalletOutput>, planned: seq<PlannedOutput>, networkId: int, a: Asset)
    requires PrefixProtected(outputs, planned, networkId)
    ensures AmountSum(outputs[..|planned|], a) == AmountSum(Expected(planned, networkId), a)
    decreases |planned|
  {
    hide SameOutput, Amount;
    if planned != [] {
      var last := |planned| - 1;
      ProtectedSum(outputs, planned[..last], networkId, a);
      assert outputs[..|planned|][..last] == outputs[..last];
      assert Expected(planned, networkId)[..last] == Expected(planned[..last], networkId);
      SameOutputSameAmount(outputs[last], ExpectedOutput(planned[last], networkId), networkId, a);
    }
  }

  lemma SameOutputSameAmount(o: WalletOutput, p: WalletOutput, networkId: int, a: Asset)
    requires SameOutput(o, p, networkId)
    ensures Amount(o.value, a) == Amount(p.value, a)
  {
    SameValueMeans(o.value, p.value);
  }

  /** Where the reviewed outputs' value goes: exactly the plan's outputs, the permitted extras, and change. */
  ghost predicate RolesAccount(
    outputs: seq<WalletOutput>, roles: seq<ReviewRole>, planned: seq<PlannedOutput>, permitted: seq<WalletOutput>,
    change: ChangePolicy, networkId: int)
  {
    && |roles| == |outputs|
    && (forall i :: 0 <= i < |roles| ==> (roles[i] == ProtectedRole <==> i < |planned|))
    && (forall i :: 0 <= i < |roles| && roles[i] == ChangeRole ==> IsChange(outputs[i], change, networkId))
    && forall a :: AmountSum(outputs, a)
         == AmountSum(Expected(planned, networkId), a) + AmountSum(permitted, a) + AmountSum(Having(outputs, roles, ChangeRole), a)
  }

  method VerifyOutputs(
    outputs: seq<WalletOutput>, planned: seq<PlannedOutput>, permitted: seq<WalletOutput>, change: ChangePolicy, networkId: int)
    returns (r: Result<seq<ReviewRole>>)
    ensures r.Ok? <==> OutputsAcceptable(outputs, planned, permitted, change, networkId)
    ensures r.Ok? ==> RolesAccount(outputs, r.value, planned, permitted, change, networkId)
  {
    hide OutputId, SameOutput, IsChange, Reviewing, TailAccounted, RolesAccount;
    var roles: seq<ReviewRole>, remaining := [], permitted;
    ghost var n := |planned|;
    ReviewStarts(permitted, change, networkId);
    for index := 0 to |outputs|
      invariant |roles| == index
      invariant forall i :: 0 <= i < index ==> OutputId(outputs[i], networkId).Some?
      invariant forall i :: 0 <= i < index && i < n ==>
        roles[i] == ProtectedRole && SameOutput(outputs[i], ExpectedOutput(planned[i], networkId), networkId)
      invariant forall i :: n <= i < index && roles[i] == ChangeRole ==> IsChange(outputs[i], change, networkId)
      invariant index <= n ==> remaining == permitted
      invariant index > n ==> Reviewing(outputs[n..index], roles[n..], permitted, remaining, change, networkId)
    {
      var actual := outputs[index];
      if OutputId(actual, networkId).None? {
        return Err(InvalidShape);
      }
      if index < |planned| {
        if !SameOutput(actual, ExpectedOutput(planned[index], networkId), networkId) {
          return Err(ValueMismatch);
        }
        roles := roles + [ProtectedRole];
      } else {
        ghost var tail, tailRoles := outputs[n..index], roles[n..];
        assert Reviewing(tail, tailRoles, permitted, remaining, change, networkId) by {
          if index == n {
            assert tail == [] && tailRoles == [];
          }
        }
        assert outputs[n..index + 1] == tail + [actual];
        var found := FirstMatch(remaining, actual, networkId);
        if found.Some? {
          ReviewPermitted(tail, tailRoles, permitted, remaining, change, networkId, actual, found.value);
          remaining := remaining[..found.value] + remaining[found.value + 1..];
          roles := roles + [PermittedRole];
          assert roles[n..] == tailRoles + [PermittedRole];
        } else {
          if !IsChange(actual, change, networkId) {
            assert outputs[n..] == tail + [actual] + outputs[index + 1..];
            UnapprovedIsExcess(tail, tailRoles, permitted, remaining, change, networkId, actual, outputs[index + 1..]);
            return Err(Unauthorized);
          }
          ReviewChange(tail, tailRoles, permitted, remaining, change, networkId, actual);
          roles := roles + [ChangeRole];
          assert roles[n..] == tailRoles + [ChangeRole];
        }
      }
    }
    if |roles| < |planned| {
      return Err(MissingOutput);
    }
    assert Reviewing(outputs[n..], roles[n..], permitted, remaining, change, networkId) by {
      assert outputs[n..|outputs|] == outputs[n..];
      if |outputs| == n {
        assert outputs[n..] == [] && roles[n..] == [];
      }
    }
    ReviewEnds(outputs[n..], roles[n..], permitted, remaining, change, networkId);
    if remaining != [] {
      return Err(MissingOutput);
    }
    ReviewAccounts(outputs, roles, planned, permitted, change, networkId);
    return Ok(roles);
  }

  lemma ReviewAccounts(
    outputs: seq<WalletOutput>, roles: seq<ReviewRole>, planned: seq<PlannedOutput>, permitted: seq<WalletOutput>,
    change: ChangePolicy, networkId: int)
    requires PrefixProtected(outputs, planned, networkId) && |roles| == |outputs|
    requires forall i :: 0 <= i < |planned| ==> roles[i] == ProtectedRole
    requires forall i :: |planned| <= i < |roles| && roles[i] == ChangeRole ==> IsChange(outputs[i], change, networkId)
    requires Reviewing(outputs[|planned|..], roles[|planned|..], permitted, [], change, networkId)
    ensures RolesAccount(outputs, roles, planned, permitted, change, networkId)
  {
    hide OutputId, SameOutput, IsChange, Amount, Having, AmountSum;
    var n := |planned|;
    var tail, tailRoles := outputs[n..], roles[n..];
    forall i | n <= i < |roles| ensures roles[i] != ProtectedRole {
      assert tailRoles[i - n] == roles[i];
    }
    forall a ensures AmountSum(outputs, a)
      == AmountSum(Expected(planned, networkId), a) + AmountSum(permitted, a) + AmountSum(Having(outputs, roles, ChangeRole), a)
    {
      assert outputs == outputs[..n] + tail;
      SumConcat(outputs[..n], tail, a);
      ProtectedSum(outputs, planned, networkId, a);
      SumByRole(tail, tailRoles, a);
      ConsumedSum(tail, tailRoles, permitted, change, networkId, a);
      ChangeIsInTail(outputs, roles, n);
    }
  }

  lemma ConsumedSum(
    tail: seq<WalletOutput>, roles: seq<ReviewRole>, permitted: seq<WalletOutput>, change: ChangePolicy, networkId: int, a: Asset)
    requires Reviewing(tail, roles, permitted, [], change, networkId)
    ensures AmountSum(Having(tail, roles, PermittedRole), a) == AmountSum(permitted, a)
  {
    hide OutputId, IsChange, AmountSum;
    var consumed := Having(tail, roles, PermittedRole);
    HavingIsPart(tail, roles, PermittedRole);
    SameBagSameSum(consumed, permitted, networkId, a);
  }

  lemma {:induction false} HavingIsPart(outputs: seq<WalletOutput>, roles: seq<ReviewRole>, role: ReviewRole)
    requires |outputs| == |roles|
    ensures forall o <- Having(outputs, roles, role) :: o in outputs
  {
    if outputs != [] {
      HavingIsPart(outputs[..|outputs| - 1], roles[..|outputs| - 1], role);
    }
  }

  lemma {:induction false} ChangeIsInTail(outputs: seq<WalletOutput>, roles: seq<ReviewRole>, n: nat)
    requires |outputs| == |roles| && n <= |outputs|
    requires forall i :: 0 <= i < n ==> roles[i] == ProtectedRole
    ensures Having(outputs, roles, ChangeRole) == Having(outputs[n..], roles[n..], ChangeRole)
  {
    if |outputs| == n {
      NoneHave(outputs, roles, ChangeRole);
      assert outputs[n..] == [];
    } else {
      var last := |outputs| - 1;
      ChangeIsInTail(outputs[..last], roles[..last], n);
      assert outputs[n..][..last - n] == outputs[..last][n..] && roles[n..][..last - n] == roles[..last][n..];
    }
  }

  lemma {:induction false} NoneHave(outputs: seq<WalletOutput>, roles: seq<ReviewRole>, role: ReviewRole)
    requires |outputs| == |roles| && forall i :: 0 <= i < |roles| ==> roles[i] != role
    ensures Having(outputs, roles, role) == []
  {
    if outputs != [] {
      NoneHave(outputs[..|outputs| - 1], roles[..|outputs| - 1], role);
    }
  }
}
