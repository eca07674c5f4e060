/** Custody maps: canonical multi-asset values in which the ADA partitions merge. */
module Values {
  import opened Results
  import opened Types
  import opened Arithmetic
  import opened PlutusData
  import opened HexStrings

  /** Quantities by canonical asset identity; an absent asset has quantity zero. */
  type Value = map<Asset, int>

  datatype TokenName = IdToken | StateToken | ShareToken

  /** The asset-name bytes of the vault's own tokens: "ID", "STATE" and "SHARE". */
  function TokenBytes(token: TokenName): seq<Byte> {
    match token
    case IdToken => [0x49, 0x44]
    case StateToken => [0x53, 0x54, 0x41, 0x54, 0x45]
    case ShareToken => [0x53, 0x48, 0x41, 0x52, 0x45]
  }

  function TokenHex(token: TokenName): Hex {
    PrintHex(TokenBytes(token))
  }

  function Qty(v: Value, a: Asset): int {
    if a in v then v[a] else 0
  }

  predicate IsAsset(asset: Asset) {
    match asset
    case Ada => true
    case Native(policy, name) => ParseHexOf(policy, 28).Ok? && ParseHex(name).Ok? && |ParseHex(name).value| <= 32
  }

  /** The identity key of an asset: lower-case policy and name. */
  function AssetId(asset: Asset): Asset {
    match asset
    case Ada => Ada
    case Native(policy, name) => Native(Lower(policy), Lower(name))
  }

  function OwnAsset(policy: Hex, name: TokenName): Asset {
    Native(policy, TokenHex(name))
  }

  /** Token names are canonical hexadecimal, and different tokens have different names. */
  lemma TokenNamesAreCanonical(token: TokenName, other: TokenName)
    ensures Lower(TokenHex(token)) == TokenHex(token)
    ensures ParseHex(TokenHex(token)) == Ok(TokenBytes(token))
    ensures TokenHex(token) == TokenHex(other) ==> token == other
  {
    hide PrintHex, ParseHex, Lower, TokenBytes;
    PrintThenParse(TokenBytes(token));
    PrintThenParse(TokenBytes(other));
    ParseThenPrint(TokenHex(token));
    TokenBytesDiffer(token, other);
  }

  lemma TokenBytesDiffer(token: TokenName, other: TokenName)
    ensures TokenBytes(token) == TokenBytes(other) ==> token == other
  {
    assert |TokenBytes(IdToken)| == 2;
    assert TokenBytes(StateToken)[1] == 0x54 && TokenBytes(ShareToken)[1] == 0x48;
  }

  lemma OwnAssetId(policy: Hex, token: TokenName)
    ensures AssetId(OwnAsset(policy, token)) == Native(Lower(policy), TokenHex(token))
  {
    TokenNamesAreCanonical(token, token);
  }

  /** What the entries say about one asset, added up. */
  function EntrySum(entries: seq<(Asset, int)>, a: Asset): int {
    if entries == [] then 0 else When(AssetId(entries[0].0) == a, entries[0].1) + EntrySum(entries[1..], a)
  }

  function When(condition: bool, n: int): int {
    if condition then n else 0
  }

  lemma SumOfOne(e: (Asset, int), a: Asset)
    ensures EntrySum([e], a) == When(AssetId(e.0) == a, e.1)
  {
    assert [e][1..] == [];
  }

  lemma SumOfTwo(e: (Asset, int), f: (Asset, int), a: Asset)
    ensures EntrySum([e, f], a) == When(AssetId(e.0) == a, e.1) + When(AssetId(f.0) == a, f.1)
  {
    assert [e, f][1..] == [f];
    SumOfOne(f, a);
  }

  lemma SumOfThree(e: (Asset, int), f: (Asset, int), g: (Asset, int), a: Asset)
    ensures EntrySum([e, f, g], a)
         == When(AssetId(e.0) == a, e.1) + When(AssetId(f.0) == a, f.1) + When(AssetId(g.0) == a, g.1)
  {
    assert [e, f, g][1..] == [f, g];
    SumOfTwo(f, g, a);
  }

  function AddEntry(v: Value, entry: (Asset, int)): Result<Value> {
    var id := AssetId(entry.0);
    :- Need(IsAsset(entry.0), InvalidBytes);
    var _ :- Quantity(entry.1);
    if entry.1 > 0 then
      var total :- Quantity(Qty(v, id) + entry.1);
      Ok(v[id := total])
    else Ok(v)
  }

  function AddEntries(v: Value, entries: seq<(Asset, int)>): Result<Value>
    decreases |entries|
  {
    if entries == [] then Ok(v)
    else
      var w :- AddEntry(v, entries[0]);
      AddEntries(w, entries[1..])
  }

  /** The canonical value of a list of asset amounts: repeated identities merge and zeros disappear. */
  function ValueOf(entries: seq<(Asset, int)>): Result<Value> {
    AddEntries(map[], entries)
  }

  /** Canonical custody: positive bounded quantities under canonical identities. */
  predicate IsCustody(v: Value) {
    forall a <- v :: 1 <= v[a] <= Q_MAX && IsAsset(a) && AssetId(a) == a
  }

  lemma {:induction false} LowerIsStable(s: string)
    requires ParseHex(s).Ok?
    ensures Lower(Lower(s)) == Lower(s)
    ensures ParseHex(Lower(s)) == ParseHex(s)
  {
    ParseThenPrint(s);
    PrintThenParse(ParseHex(s).value);
    ParseThenPrint(Lower(s));
  }

  lemma AssetIdIsStable(a: Asset)
    requires IsAsset(a)
    ensures IsAsset(AssetId(a)) && AssetId(AssetId(a)) == AssetId(a)
  {
    if a.Native? {
      LowerIsStable(a.policy);
      LowerIsStable(a.name);
    }
  }

  lemma AddEntryMeans(v: Value, entry: (Asset, int))
    requires IsCustody(v) && AddEntry(v, entry).Ok?
    ensures IsCustody(AddEntry(v, entry).value)
    ensures forall a :: Qty(AddEntry(v, entry).value, a) == Qty(v, a) + When(AssetId(entry.0) == a, entry.1)
  {
    AssetIdIsStable(entry.0);
  }

  lemma {:induction false} AddEntriesMeans(v: Value, entries: seq<(Asset, int)>)
    requires IsCustody(v) && AddEntries(v, entries).Ok?
    ensures IsCustody(AddEntries(v, entries).value)
    ensures forall a :: Qty(AddEntries(v, entries).value, a) == Qty(v, a) + EntrySum(entries, a)
    decreases |entries|
  {
    hide AddEntry;
    if entries != [] {
      AddEntryMeans(v, entries[0]);
      AddEntriesMeans(AddEntry(v, entries[0]).value, entries[1..]);
    }
  }

  /** A built value is canonical custody, and holds of each asset exactly the sum of its entries. */
  lemma ValueOfMeans(entries: seq<(Asset, int)>)
    requires ValueOf(entries).Ok?
    ensures IsCustody(ValueOf(entries).value)
    ensures forall a :: Qty(ValueOf(entries).value, a) == EntrySum(entries, a)
  {
    AddEntriesMeans(map[], entries);
  }

  lemma {:induction false} AddEntriesAppend(v: Value, entries: seq<(Asset, int)>, entry: (Asset, int))
    ensures AddEntries(v, entries + [entry])
         == (if AddEntries(v, entries).Err? then AddEntries(v, entries) else AddEntry(AddEntries(v, entries).value, entry))
    decreases |entries|
  {
    if entries == [] {
      assert entries + [entry] == [entry];
    } else {
      assert (entries + [entry])[1..] == entries[1..] + [entry];
      if AddEntry(v, entries[0]).Ok? {
        AddEntriesAppend(AddEntry(v, entries[0]).value, entries[1..], entry);
      }
    }
  }

  lemma {:induction false} AddEntriesPrefix(v: Value, entries: seq<(Asset, int)>, k: nat)
    requires k <= |entries| && AddEntries(v, entries[..k]).Err?
    ensures AddEntries(v, entries) == AddEntries(v, entries[..k])
    decreases |entries|
  {
    if entries != [] && k > 0 {
      assert entries[..k][1..] == entries[1..][..k - 1];
      if AddEntry(v, entries[0]).Ok? {
        AddEntriesPrefix(AddEntry(v, entries[0]).value, entries[1..], k - 1);
      }
    }
  }

  /** The loop that fills a result map from asset amounts. */
  method BuildValue(entries: seq<(Asset, int)>) returns (r: Result<Value>)
    ensures r == ValueOf(entries)
    ensures r.Ok? ==> IsCustody(r.value) && forall a :: Qty(r.value, a) == EntrySum(entries, a)
  {
    var result: Value := map[];
    for i := 0 to |entries|
      invariant AddEntries(map[], entries[..i]) == Ok(result)
    {
      var (asset, amount) := entries[i];
      assert entries[..i + 1] == entries[..i] + [entries[i]];
      AddEntriesAppend(map[], entries[..i], entries[i]);
      var id := AssetId(asset);
      if !IsAsset(asset) || Quantity(amount).Err? {
        AddEntriesPrefix(map[], entries, i + 1);
        return Err(if IsAsset(asset) then OutOfRange else InvalidBytes);
      }
      if amount > 0 {
        var total := Quantity(Qty(result, id) + amount);
        if total.Err? {
          AddEntriesPrefix(map[], entries, i + 1);
          return Err(total.error);
        }
        result := result[id := total.value];
      }
    }
    assert entries[..|entries|] == entries;
    ValueOfMeans(entries);
    return Ok(result);
  }

  function StateEntries(state: State, terms: Terms): seq<(Asset, int)> {
    [(Ada, state.storageLovelace),
     (terms.underlying, state.backingAssets + state.accruedFees),
     (OwnAsset(state.vaultPolicy, StateToken), 1)]
  }

  /** Backing plus fees in the underlying asset, the reserve in lovelace, and one STATE token. */
  function StateValue(state: State, terms: Terms): Result<Value> {
    ValueOf(StateEntries(state, terms))
  }

  function EscrowAsset(request: Request, terms: Terms): Asset {
    if request.body.kind.DepositRequest? then terms.underlying else OwnAsset(request.recovery.vaultPolicy, ShareToken)
  }

  function RequestEntries(request: Request, terms: Terms): seq<(Asset, int)> {
    [(Ada, request.body.storageLovelace + request.body.executionBudget),
     (EscrowAsset(request, terms), request.body.offered)]
  }

  /** The offered asset, plus storage and execution budget in ADA. */
  function RequestValue(request: Request, terms: Terms): Result<Value> {
    ValueOf(RequestEntries(request, terms))
  }

  function ClaimEntries(claim: Claim): seq<(Asset, int)> {
    [(Ada, claim.carriedLovelace), (claim.asset, claim.economicQuantity)]
  }

  /** The fixed liability plus the carried ADA. */
  function ClaimValue(claim: Claim): Result<Value> {
    ValueOf(ClaimEntries(claim))
  }

  predicate IsActual(v: Value) {
    forall a <- v :: IsAsset(a) && AssetId(a) == a && IsQuantity(v[a])
  }

  /** Supplied custody under canonical keys, with its zero entries dropped. */
  function ActualValue(v: Value): Result<Value> {
    if IsActual(v) then Ok(map a | a in v && v[a] > 0 :: v[a]) else Err(InvalidShape)
  }

  method NormalizeCustody(v: Value) returns (r: Result<Value>)
    ensures r == ActualValue(v)
    ensures r.Ok? ==> IsCustody(r.value) && forall a :: Qty(r.value, a) == Qty(v, a)
  {
    var result: Value := map[];
    var rest := v.Keys;
    while rest != {}
      invariant rest <= v.Keys
      invariant forall a <- v.Keys - rest :: IsAsset(a) && AssetId(a) == a && IsQuantity(v[a])
      invariant result == map a | a in v && a !in rest && v[a] > 0 :: v[a]
    {
      var a :| a in rest;
      if !IsAsset(a) || AssetId(a) != a || Quantity(v[a]).Err? {
        return Err(InvalidShape);
      }
      if v[a] > 0 {
        result := result[a := v[a]];
      }
      rest := rest - {a};
    }
    assert v.Keys - rest == v.Keys;
    assert IsActual(v);
    assert result == map a | a in v && v[a] > 0 :: v[a];
    return Ok(result);
  }

  /** Custody must match its closed equation: as many nonzero entries, and each expected one present. */
  function AssertSameValue(actual: Value, expected: Value): Outcome {
    var normalized := ActualValue(actual);
    if normalized.Err? then Fail(normalized.error)
    else Need(|normalized.value| == |expected| && forall a <- expected :: Qty(normalized.value, a) == expected[a], ValueMismatch)
  }

  /** Two canonical maps of one size that agree on the keys of one of them are equal. */
  lemma SameSizeSubmap(v: Value, w: Value)
    requires |v| == |w| && w.Keys <= v.Keys && forall a <- w :: v[a] == w[a]
    ensures v == w
  {
    assert |v.Keys - w.Keys| == |v.Keys| - |w.Keys|;
    assert v.Keys - w.Keys == {};
    assert v.Keys == w.Keys;
  }

  /** The size-and-lookup comparison accepts exactly the custody that agrees on every asset: no deficit, no surplus. */
  lemma SameValueIsExact(actual: Value, expected: Value)
    requires IsCustody(expected)
    ensures AssertSameValue(actual, expected).Pass? <==> IsActual(actual) && forall a :: Qty(actual, a) == Qty(expected, a)
  {
    if IsActual(actual) {
      var normalized := ActualValue(actual).value;
      assert forall a :: Qty(normalized, a) == Qty(actual, a);
      if AssertSameValue(actual, expected).Pass? {
        forall a <- expected ensures a in normalized {
          assert Qty(normalized, a) == expected[a];
        }
        SameSizeSubmap(normalized, expected);
      }
      if forall a :: Qty(actual, a) == Qty(expected, a) {
        forall a ensures a in normalized <==> a in expected {
          assert Qty(normalized, a) == Qty(expected, a);
        }
        assert normalized.Keys == expected.Keys;
        forall a <- expected ensures normalized[a] == expected[a] {
          assert Qty(normalized, a) == Qty(expected, a);
        }
        assert normalized == expected;
      }
    }
  }

  lemma Spell(first: Byte, rest: seq<Byte>)
    ensures PrintHex([first] + rest) == [HexDigit(first / 16), HexDigit(first % 16)] + PrintHex(rest)
  {
    hide HexDigit;
    assert ([first] + rest)[1..] == rest;
  }

  lemma NothingIsSpelled()
    ensures PrintHex([]) == ""
  {
  }

  lemma IdIsSpelled()
    ensures TokenHex(IdToken) == "4944"
  {
    hide PrintHex;
    NothingIsSpelled();
    Spell(0x44, []);
    assert [0x44] + [] == [0x44];
    Spell(0x49, [0x44]);
    assert [0x49] + [0x44] == [0x49, 0x44];
  }

  lemma StateIsSpelled()
    ensures TokenHex(StateToken) == "5354415445"
  {
    hide PrintHex;
    NothingIsSpelled();
    Spell(0x45, []);
    assert [0x45] + [] == [0x45];
    Spell(0x54, [0x45]);
    assert [0x54] + [0x45] == [0x54, 0x45];
    Spell(0x41, [0x54, 0x45]);
    assert [0x41] + [0x54, 0x45] == [0x41, 0x54, 0x45];
    Spell(0x54, [0x41, 0x54, 0x45]);
    assert [0x54] + [0x41, 0x54, 0x45] == [0x54, 0x41, 0x54, 0x45];
    Spell(0x53, [0x54, 0x41, 0x54, 0x45]);
    assert [0x53] + [0x54, 0x41, 0x54, 0x45] == [0x53, 0x54, 0x41, 0x54, 0x45];
  }

  lemma ShareIsSpelled()
    ensures TokenHex(ShareToken) == "5348415245"
  {
    hide PrintHex;
    NothingIsSpelled();
    Spell(0x45, []);
    assert [0x45] + [] == [0x45];
    Spell(0x52, [0x45]);
    assert [0x52] + [0x45] == [0x52, 0x45];
    Spell(0x41, [0x52, 0x45]);
    assert [0x41] + [0x52, 0x45] == [0x41, 0x52, 0x45];
    Spell(0x48, [0x41, 0x52, 0x45]);
    assert [0x48] + [0x41, 0x52, 0x45] == [0x48, 0x41, 0x52, 0x45];
    Spell(0x53, [0x48, 0x41, 0x52, 0x45]);
    assert [0x53] + [0x48, 0x41, 0x52, 0x45] == [0x53, 0x48, 0x41, 0x52, 0x45];
  }

  /** The token names are the hexadecimal spellings of "ID", "STATE" and "SHARE". */
  lemma TokenNamesAreSpelled()
    ensures TokenHex(IdToken) == "4944" && TokenHex(StateToken) == "5354415445" && TokenHex(ShareToken) == "5348415245"
  {
    hide TokenHex;
    IdIsSpelled();
    StateIsSpelled();
    ShareIsSpelled();
  }
}
