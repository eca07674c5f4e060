/** Semantic Data: constructor alternatives, canonical form and the equality the decoders compare with. */
module DataValues {
  import opened Results
  import opened PlutusData

  const MAX_SAFE: int := 0x1F_FFFF_FFFF_FFFF
  const MAX_WORD64: int := 0xFFFF_FFFF_FFFF_FFFF

  /** The alternative that a tag spells: a safe number or a bigint, in unsigned Word64 range. */
  function ConstructorIndex(tag: Tag): (r: Result<int>)
    ensures r.Ok? ==> r.value == tag.n && 0 <= r.value <= MAX_WORD64
  {
    if tag.Num? && !(-MAX_SAFE <= tag.n <= MAX_SAFE) then Err(OutOfRange)
    else if 0 <= tag.n <= MAX_WORD64 then Ok(tag.n)
    else Err(OutOfRange)
  }

  /** Safe alternatives stay numbers; larger Word64 alternatives stay bigints. */
  function TagOf(index: int): Tag {
    if index <= MAX_SAFE then Num(index) else Big(index)
  }

  function MakeConstr(tag: Tag, fields: seq<Data>): Result<Data> {
    var index :- ConstructorIndex(tag);
    Ok(Constr(TagOf(index), fields))
  }

  /** Every constructor alternative is in range. */
  predicate IsShaped(d: Data) {
    match d
    case Int(_) => true
    case Bytes(_) => true
    case List(items) => forall i :: 0 <= i < |items| ==> IsShaped(items[i])
    case Constr(tag, fields) => ConstructorIndex(tag).Ok? && forall i :: 0 <= i < |fields| ==> IsShaped(fields[i])
    case Map(pairs) => forall i :: 0 <= i < |pairs| ==> IsShaped(pairs[i].0) && IsShaped(pairs[i].1)
  }

  /** The same Data with every alternative in its preferred spelling. */
  function Canonical(d: Data): Data {
    match d
    case Int(_) => d
    case Bytes(_) => d
    case List(items) => List(seq(|items|, i requires 0 <= i < |items| => Canonical(items[i])))
    case Constr(tag, fields) => Constr(TagOf(tag.n), seq(|fields|, i requires 0 <= i < |fields| => Canonical(fields[i])))
    case Map(pairs) =>
      Map(seq(|pairs|, i requires 0 <= i < |pairs| => (Canonical(pairs[i].0), Canonical(pairs[i].1))))
  }

  /** Recursive comparison, including list length and pair order. Malformed alternatives equal nothing. */
  predicate EqualData(a: Data, b: Data) {
    match a
    case Int(i) => b.Int? && i == b.i
    case Bytes(x) => b.Bytes? && x == b.b
    case List(items) =>
      b.List? && |items| == |b.items| && forall i :: 0 <= i < |items| ==> EqualData(items[i], b.items[i])
    case Constr(tag, fields) =>
      && b.Constr? && ConstructorIndex(tag).Ok? && ConstructorIndex(tag) == ConstructorIndex(b.tag)
      && |fields| == |b.fields| && forall i :: 0 <= i < |fields| ==> EqualData(fields[i], b.fields[i])
    case Map(pairs) =>
      && b.Map? && |pairs| == |b.pairs|
      && forall i :: 0 <= i < |pairs| ==> EqualData(pairs[i].0, b.pairs[i].0) && EqualData(pairs[i].1, b.pairs[i].1)
  }

  /** On shaped Data the comparison is equality of meaning: the same Data up to how alternatives are spelled. */
  lemma {:induction false} EqualDataIsSemantic(a: Data, b: Data)
    requires IsShaped(a) && IsShaped(b)
    ensures EqualData(a, b) <==> Canonical(a) == Canonical(b)
  {
    match a
    case Int(_) =>
    case Bytes(_) =>
    case List(items) =>
      if b.List? {
        var c, e := Canonical(a).items, Canonical(b).items;
        assert |c| == |items| && |e| == |b.items|;
        if |items| == |b.items| {
          forall i | 0 <= i < |items| ensures EqualData(items[i], b.items[i]) <==> c[i] == e[i] {
            EqualDataIsSemantic(items[i], b.items[i]);
          }
          SameItems(c, e);
        }
      }
    case Constr(_, fields) =>
      if b.Constr? {
        var c, e := Canonical(a).fields, Canonical(b).fields;
        assert |c| == |fields| && |e| == |b.fields|;
        if |fields| == |b.fields| {
          forall i | 0 <= i < |fields| ensures EqualData(fields[i], b.fields[i]) <==> c[i] == e[i] {
            EqualDataIsSemantic(fields[i], b.fields[i]);
          }
          SameItems(c, e);
        }
      }
    case Map(pairs) =>
      if b.Map? {
        var c, e := Canonical(a).pairs, Canonical(b).pairs;
        assert |c| == |pairs| && |e| == |b.pairs|;
        if |pairs| == |b.pairs| {
          forall i | 0 <= i < |pairs|
            ensures EqualData(pairs[i].0, b.pairs[i].0) && EqualData(pairs[i].1, b.pairs[i].1) <==> c[i] == e[i]
          {
            EqualDataIsSemantic(pairs[i].0, b.pairs[i].0);
            EqualDataIsSemantic(pairs[i].1, b.pairs[i].1);
          }
          SameItems(c, e);
        }
      }
  }

  lemma SameItems<T>(s: seq<T>, t: seq<T>)
    requires |s| == |t|
    ensures s == t <==> forall i :: 0 <= i < |s| ==> s[i] == t[i]
  {
  }

  /** The canonical form is shaped, means the same, and is its own canonical form. */
  lemma {:induction false} CanonicalMeansTheSame(d: Data)
    requires IsShaped(d)
    ensures IsShaped(Canonical(d)) && EqualData(d, Canonical(d)) && Canonical(Canonical(d)) == Canonical(d)
  {
    CanonicalIsShaped(d);
    CanonicalIsStable(d);
    EqualDataIsSemantic(d, Canonical(d));
  }

  lemma {:induction false} CanonicalIsShaped(d: Data)
    requires IsShaped(d)
    ensures IsShaped(Canonical(d))
  {
    match d
    case Int(_) =>
    case Bytes(_) =>
    case List(items) =>
      forall i | 0 <= i < |items| ensures IsShaped(Canonical(items[i])) {
        CanonicalIsShaped(items[i]);
      }
    case Constr(_, fields) =>
      forall i | 0 <= i < |fields| ensures IsShaped(Canonical(fields[i])) {
        CanonicalIsShaped(fields[i]);
      }
    case Map(pairs) =>
      forall i | 0 <= i < |pairs| ensures IsShaped(Canonical(pairs[i].0)) && IsShaped(Canonical(pairs[i].1)) {
        CanonicalIsShaped(pairs[i].0);
        CanonicalIsShaped(pairs[i].1);
      }
  }

  lemma {:induction false} CanonicalIsStable(d: Data)
    ensures Canonical(Canonical(d)) == Canonical(d)
  {
    match d
    case Int(_) =>
    case Bytes(_) =>
    case List(items) =>
      forall i | 0 <= i < |items| ensures Canonical(Canonical(d)).items[i] == Canonical(d).items[i] {
        CanonicalIsStable(items[i]);
      }
    case Constr(_, fields) =>
      forall i | 0 <= i < |fields| ensures Canonical(Canonical(d)).fields[i] == Canonical(d).fields[i] {
        CanonicalIsStable(fields[i]);
      }
    case Map(pairs) =>
      forall i | 0 <= i < |pairs| ensures Canonical(Canonical(d)).pairs[i] == Canonical(d).pairs[i] {
        CanonicalIsStable(pairs[i].0);
        CanonicalIsStable(pairs[i].1);
      }
  }

  lemma EqualDataReflexive(d: Data)
    requires IsShaped(d)
    ensures EqualData(d, d)
  {
    EqualDataIsSemantic(d, d);
  }

  /** A constructor whose alternative is out of range equals nothing, itself included. */
  lemma MalformedEqualsNothing(tag: Tag, fields: seq<Data>, other: Data)
    requires !(0 <= tag.n <= 18_446_744_073_709_551_615) || (tag.Num? && tag.n > 9_007_199_254_740_991)
    ensures !EqualData(Constr(tag, fields), other) && !EqualData(other, Constr(tag, fields))
  {
  }

  /** Which alternatives exist: unsigned 64-bit ones, and as a number only those that a number holds exactly. */
  lemma AlternativesMean(tag: Tag)
    ensures ConstructorIndex(tag).Ok? <==>
      0 <= tag.n <= 18_446_744_073_709_551_615 && (tag.Num? ==> tag.n <= 9_007_199_254_740_991)
  {
  }
}
