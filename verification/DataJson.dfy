/** The exact JSON transport of Data: decimal integers, hex bytes, Word64 alternatives and ordered pairs. */
module DataJson {
  import opened Results
  import opened PlutusData
  import opened HexStrings
  import opened DataValues

  /** The member names that the format gives a meaning to. */
  datatype Key = IntKey | BytesKey | ListKey | MapKey | ConstructorKey | FieldsKey | PairKey | PairValue | OtherKey(text: string)

  /** A parsed JSON value. Object entries keep their order; numbers that are no integers are opaque. */
  datatype Json =
    | JsonNull
    | JsonBool(flag: bool)
    | JsonNumber(n: int)
    | JsonFraction(text: string)
    | JsonString(s: string)
    | JsonArray(elements: seq<Json>)
    | JsonObject(entries: seq<(Key, Json)>)

  function DecimalDigit(v: int): char
    requires 0 <= v < 10
  {
    (v + ('0' as int)) as char
  }

  predicate IsDigit(c: char) {
    '0' <= c <= '9'
  }

  function PrintNat(n: nat): string {
    if n < 10 then [DecimalDigit(n)] else PrintNat(n / 10) + [DecimalDigit(n % 10)]
  }

  function PrintInt(n: int): string {
    if n < 0 then "-" + PrintNat(-n) else PrintNat(n)
  }

  function ValueOfDigit(c: char): nat
    requires IsDigit(c)
  {
    (c as int) - ('0' as int)
  }

  /** The value of a string of digits. */
  function DigitsValue(s: string): nat
    requires forall i :: 0 <= i < |s| ==> IsDigit(s[i])
  {
    if s == "" then 0 else 10 * DigitsValue(s[..|s| - 1]) + ValueOfDigit(s[|s| - 1])
  }

  /** One or more digits without a leading zero, or the single zero. */
  predicate IsDecimal(s: string) {
    && |s| > 0 && (forall i :: 0 <= i < |s| ==> IsDigit(s[i]))
    && (s[0] == '0' ==> |s| == 1)
  }

  function ParseNat(s: string): Result<nat> {
    if IsDecimal(s) then Ok(DigitsValue(s)) else Err(InvalidShape)
  }

  function ParseInt(s: string): Result<int> {
    if |s| > 0 && s[0] == '-' then
      var magnitude :- ParseNat(s[1..]);
      var negative := 0 - magnitude;
      Ok(negative)
    else
      var n :- ParseNat(s);
      Ok(n)
  }

  lemma {:induction false} PrintNatParses(n: nat)
    ensures ParseNat(PrintNat(n)) == Ok(n)
    ensures PrintNat(n)[0] == '0' ==> n == 0
  {
    var s := PrintNat(n);
    if n >= 10 {
      PrintNatParses(n / 10);
      assert s[..|s| - 1] == PrintNat(n / 10);
      var head := PrintNat(n / 10);
      assert s == head + [DecimalDigit(n % 10)];
      assert forall i :: 0 <= i < |s| ==> IsDigit(s[i]);
      assert s[0] == head[0] != '0';
      assert DigitsValue(s) == 10 * DigitsValue(head) + n % 10;
    }
  }

  /** Every integer survives its decimal text. */
  lemma PrintIntParses(n: int)
    ensures ParseInt(PrintInt(n)) == Ok(n)
  {
    if n < 0 {
      PrintNatParses(-n);
      assert PrintInt(n)[1..] == PrintNat(-n);
    } else {
      PrintNatParses(n);
    }
  }

  lemma {:induction false} DecimalPrints(s: string)
    requires IsDecimal(s)
    ensures PrintNat(DigitsValue(s)) == s
    ensures s[0] != '0' ==> DigitsValue(s) > 0
  {
    if |s| == 1 {
      assert s[..0] == "";
    } else {
      var head, last := s[..|s| - 1], ValueOfDigit(s[|s| - 1]);
      DecimalPrints(head);
      assert DigitsValue(s) == 10 * DigitsValue(head) + last;
      assert DigitsValue(s) / 10 == DigitsValue(head) && DigitsValue(s) % 10 == last;
    }
  }

  /** Decimal text is unique: only "-0" parses without printing back. */
  lemma ParsedIntPrints(s: string)
    requires ParseInt(s).Ok?
    ensures PrintInt(ParseInt(s).value) == s <==> s != "-0"
  {
    if s[0] == '-' {
      DecimalPrints(s[1..]);
      assert s == "-" + s[1..];
      if DigitsValue(s[1..]) == 0 {
        assert s[1..] == "0";
      }
    } else {
      DecimalPrints(s);
    }
  }

  /** A witness: negative zero parses, and prints as zero. */
  lemma NegativeZeroParses()
    ensures ParseInt("-0") == Ok(0) && PrintInt(0) == "0"
  {
    assert "-0"[1..] == "0";
    PrintNatParses(0);
    assert PrintNat(0) == "0";
  }

  function AlternativeOf(tag: Tag): Json
    requires ConstructorIndex(tag).Ok?
  {
    match TagOf(tag.n)
    case Num(n) => JsonNumber(n)
    case Big(n) => JsonString(PrintInt(n))
  }

  function JsonOf(d: Data): Json
    requires IsShaped(d)
  {
    match d
    case Int(i) => JsonObject([(IntKey, JsonString(PrintInt(i)))])
    case Bytes(b) => JsonObject([(BytesKey, JsonString(PrintHex(b)))])
    case List(items) => JsonObject([(ListKey, JsonArray(seq(|items|, i requires 0 <= i < |items| => JsonOf(items[i]))))])
    case Constr(tag, fields) =>
      JsonObject([
        (ConstructorKey, AlternativeOf(tag)),
        (FieldsKey, JsonArray(seq(|fields|, i requires 0 <= i < |fields| => JsonOf(fields[i]))))])
    case Map(pairs) =>
      JsonObject([(MapKey, JsonArray(seq(|pairs|, i requires 0 <= i < |pairs| =>
        JsonObject([(PairKey, JsonOf(pairs[i].0)), (PairValue, JsonOf(pairs[i].1))]))))])
  }

  function DataToJson(d: Data): Result<Json> {
    if IsShaped(d) then Ok(JsonOf(d)) else Err(OutOfRange)
  }

  function AlternativeFromJson(j: Json): Result<int> {
    match j
    case JsonNumber(n) => ConstructorIndex(Num(n))
    case JsonString(s) =>
      var n :- ParseNat(s);
      ConstructorIndex(Big(n))
    case _ => Err(InvalidShape)
  }

  /** Position of one of exactly two entries, when the other has the other name. */
  function PairedAt(entries: seq<(Key, Json)>, key: Key, other: Key): (r: Option<nat>)
    ensures r.Some? ==> |entries| == 2 && r.value < 2
  {
    if |entries| != 2 then None
    else if entries[0].0 == key && entries[1].0 == other then Some(0)
    else if entries[1].0 == key && entries[0].0 == other then Some(1)
    else None
  }

  /** Exactly the supported shapes, without coercing strings, numbers or fields. */
  function DataFromJson(j: Json): Result<Data>
    decreases j, 0
  {
    if !j.JsonObject? then Err(InvalidShape)
    else if |j.entries| == 1 && j.entries[0].0.IntKey? && j.entries[0].1.JsonString? then
      var i :- ParseInt(j.entries[0].1.s);
      Ok(Int(i))
    else if |j.entries| == 1 && j.entries[0].0.BytesKey? && j.entries[0].1.JsonString? then
      var b :- ParseHex(j.entries[0].1.s);
      Ok(Bytes(b))
    else if |j.entries| == 1 && j.entries[0].0.ListKey? && j.entries[0].1.JsonArray? then
      var list := j.entries[0].1.elements;
      if forall i :: 0 <= i < |list| ==> DataFromJson(list[i]).Ok? then
        Ok(List(seq(|list|, i requires 0 <= i < |list| => DataFromJson(list[i]).value)))
      else Err(InvalidShape)
    else if |j.entries| == 1 && j.entries[0].0.MapKey? && j.entries[0].1.JsonArray? then
      var list := j.entries[0].1.elements;
      if forall i :: 0 <= i < |list| ==> PairFromJson(list[i]).Ok? then
        Ok(Map(seq(|list|, i requires 0 <= i < |list| => PairFromJson(list[i]).value)))
      else Err(InvalidShape)
    else
      var at := PairedAt(j.entries, ConstructorKey, FieldsKey);
      if at.None? || !j.entries[1 - at.value].1.JsonArray? then Err(InvalidShape)
      else
        var index :- AlternativeFromJson(j.entries[at.value].1);
        var list := j.entries[1 - at.value].1.elements;
        if forall i :: 0 <= i < |list| ==> DataFromJson(list[i]).Ok? then
          Ok(Constr(TagOf(index), seq(|list|, i requires 0 <= i < |list| => DataFromJson(list[i]).value)))
        else Err(InvalidShape)
  }

  function PairFromJson(j: Json): Result<(Data, Data)>
    decreases j, 1
  {
    if !j.JsonObject? then Err(InvalidShape)
    else
      var at := PairedAt(j.entries, PairKey, PairValue);
      if at.None? then Err(InvalidShape)
      else
        var k :- DataFromJson(j.entries[at.value].1);
        var v :- DataFromJson(j.entries[1 - at.value].1);
        Ok((k, v))
  }

  lemma AlternativeSurvives(tag: Tag)
    requires ConstructorIndex(tag).Ok?
    ensures AlternativeFromJson(AlternativeOf(tag)) == Ok(tag.n)
  {
    if tag.n > MAX_SAFE {
      PrintNatParses(tag.n);
    }
  }

  /** Whatever the parser accepts is shaped and already in its preferred spelling. */
  lemma {:induction false} ParsedIsCanonical(j: Json)
    requires DataFromJson(j).Ok?
    ensures IsShaped(DataFromJson(j).value) && Canonical(DataFromJson(j).value) == DataFromJson(j).value
  {
    var d := DataFromJson(j).value;
    match d
    case Int(_) =>
    case Bytes(_) =>
    case List(items) =>
      var list := j.entries[0].1.elements;
      forall i | 0 <= i < |items| ensures IsShaped(items[i]) && Canonical(items[i]) == items[i] {
        ParsedIsCanonical(list[i]);
      }
      SameItems(Canonical(d).items, items);
    case Constr(tag, fields) =>
      var at := PairedAt(j.entries, ConstructorKey, FieldsKey);
      var list := j.entries[1 - at.value].1.elements;
      forall i | 0 <= i < |fields| ensures IsShaped(fields[i]) && Canonical(fields[i]) == fields[i] {
        ParsedIsCanonical(list[i]);
      }
      SameItems(Canonical(d).fields, fields);
    case Map(pairs) =>
      var list := j.entries[0].1.elements;
      forall i | 0 <= i < |pairs|
        ensures IsShaped(pairs[i].0) && IsShaped(pairs[i].1)
          && Canonical(pairs[i].0) == pairs[i].0 && Canonical(pairs[i].1) == pairs[i].1
      {
        var at := PairedAt(list[i].entries, PairKey, PairValue);
        ParsedIsCanonical(list[i].entries[at.value].1);
        ParsedIsCanonical(list[i].entries[1 - at.value].1);
      }
      SameItems(Canonical(d).pairs, pairs);
  }

  predicate Survives(d: Data) {
    IsShaped(d) && DataFromJson(JsonOf(d)) == Ok(Canonical(d))
  }

  lemma ListSurvives(items: seq<Data>)
    requires forall i :: 0 <= i < |items| ==> Survives(items[i])
    ensures Survives(List(items))
  {
    var d := List(items);
    var list := JsonOf(d).entries[0].1.elements;
    forall i | 0 <= i < |items| ensures DataFromJson(list[i]) == Ok(Canonical(items[i])) {
      assert Survives(items[i]);
    }
    SameItems(DataFromJson(JsonOf(d)).value.items, Canonical(d).items);
  }

  lemma ConstrSurvives(tag: Tag, fields: seq<Data>)
    requires ConstructorIndex(tag).Ok? && forall i :: 0 <= i < |fields| ==> Survives(fields[i])
    ensures Survives(Constr(tag, fields))
  {
    var d := Constr(tag, fields);
    AlternativeSurvives(tag);
    var list := JsonOf(d).entries[1].1.elements;
    forall i | 0 <= i < |fields| ensures DataFromJson(list[i]) == Ok(Canonical(fields[i])) {
      assert Survives(fields[i]);
    }
    assert PairedAt(JsonOf(d).entries, ConstructorKey, FieldsKey) == Some(0);
    SameItems(DataFromJson(JsonOf(d)).value.fields, Canonical(d).fields);
  }

  lemma MapSurvives(pairs: seq<(Data, Data)>)
    requires forall i :: 0 <= i < |pairs| ==> Survives(pairs[i].0) && Survives(pairs[i].1)
    ensures Survives(Map(pairs))
  {
    var d := Map(pairs);
    var list := JsonOf(d).entries[0].1.elements;
    forall i | 0 <= i < |pairs| ensures PairFromJson(list[i]) == Ok((Canonical(pairs[i].0), Canonical(pairs[i].1))) {
      assert Survives(pairs[i].0) && Survives(pairs[i].1);
    }
    SameItems(DataFromJson(JsonOf(d)).value.pairs, Canonical(d).pairs);
  }

  /** Printing and parsing returns the same Data, with every alternative in its preferred spelling. */
  lemma {:induction false} JsonSurvives(d: Data)
    requires IsShaped(d)
    ensures DataFromJson(JsonOf(d)) == Ok(Canonical(d))
  {
    match d
    case Int(i) => PrintIntParses(i);
    case Bytes(b) => PrintThenParse(b);
    case List(items) =>
      forall i | 0 <= i < |items| ensures Survives(items[i]) {
        JsonSurvives(items[i]);
      }
      ListSurvives(items);
    case Constr(tag, fields) =>
      forall i | 0 <= i < |fields| ensures Survives(fields[i]) {
        JsonSurvives(fields[i]);
      }
      ConstrSurvives(tag, fields);
    case Map(pairs) =>
      forall i | 0 <= i < |pairs| ensures Survives(pairs[i].0) && Survives(pairs[i].1) {
        JsonSurvives(pairs[i].0);
        JsonSurvives(pairs[i].1);
      }
      MapSurvives(pairs);
  }

  /** Digits are the ordinary ones, most significant first, in tens. */
  lemma DecimalIsOrdinary()
    ensures PrintInt(0) == "0" && PrintInt(5) == "5" && PrintInt(-9) == "-9" && PrintInt(10) == "10" && PrintInt(-207) == "-207"
    ensures forall v :: 0 <= v < 10 ==> [DecimalDigit(v)] == "0123456789"[v..v + 1]
  {
    assert PrintNat(207) == PrintNat(20) + [DecimalDigit(7)] && PrintNat(20) == PrintNat(2) + [DecimalDigit(0)];
    assert PrintNat(10) == PrintNat(1) + [DecimalDigit(0)];
  }

  /** Integers are decimal strings; zero may carry a sign. */
  predicate WritesInteger(s: string, i: int) {
    s == PrintInt(i) || (s == "-0" && i == 0)
  }

  lemma IntegerMeans(s: string, i: int)
    ensures ParseInt(s) == Ok(i) <==> WritesInteger(s, i)
  {
    PrintIntParses(i);
    NegativeZeroParses();
    if ParseInt(s).Ok? {
      ParsedIntPrints(s);
    }
  }

  /** Alternatives are numbers up to 2^53 - 1 or unsigned decimal strings up to 2^64 - 1, kept in the preferred spelling. */
  predicate WritesAlternative(j: Json, tag: Tag) {
    && 0 <= tag.n <= 18_446_744_073_709_551_615
    && tag == (if tag.n <= 9_007_199_254_740_991 then Num(tag.n) else Big(tag.n))
    && ((j == JsonNumber(tag.n) && tag.n <= 9_007_199_254_740_991) || j == JsonString(PrintNat(tag.n)))
  }

  predicate ParsesToTag(j: Json, tag: Tag) {
    AlternativeFromJson(j).Ok? && TagOf(AlternativeFromJson(j).value) == tag
  }

  lemma AlternativeMeans(j: Json, tag: Tag)
    ensures ParsesToTag(j, tag) <==> WritesAlternative(j, tag)
  {
    match j
    case JsonString(s) =>
      if IsDecimal(s) {
        DecimalPrints(s);
      }
      if 0 <= tag.n {
        PrintNatParses(tag.n);
      }
    case _ =>
  }

  /** An object of exactly two members under two names, in either order. */
  predicate HasBoth(j: Json, a: Key, x: Json, b: Key, y: Json) {
    j == JsonObject([(a, x), (b, y)]) || j == JsonObject([(b, y), (a, x)])
  }

  /** The JSON that writes Data: one member for an integer, bytes, a list or a map, two for a constructor, two for each pair. */
  ghost predicate WritesJson(j: Json, d: Data)
    decreases d
  {
    match d
    case Int(i) => exists s :: j == JsonObject([(IntKey, JsonString(s))]) && WritesInteger(s, i)
    case Bytes(b) => exists s :: j == JsonObject([(BytesKey, JsonString(s))]) && ParseHex(s) == Ok(b)
    case List(items) => exists list ::
      j == JsonObject([(ListKey, JsonArray(list))]) && |list| == |items| && forall i :: 0 <= i < |items| ==> WritesJson(list[i], items[i])
    case Constr(tag, fields) => exists x, list ::
      && HasBoth(j, ConstructorKey, x, FieldsKey, JsonArray(list)) && WritesAlternative(x, tag) && |list| == |fields|
      && forall i :: 0 <= i < |fields| ==> WritesJson(list[i], fields[i])
    case Map(pairs) => exists list ::
      && j == JsonObject([(MapKey, JsonArray(list))]) && |list| == |pairs|
      && forall i :: 0 <= i < |pairs| ==> WritesPair(list[i], pairs[i])
  }

  ghost predicate WritesPair(j: Json, p: (Data, Data))
    decreases p
  {
    exists k, v :: HasBoth(j, PairKey, k, PairValue, v) && WritesJson(k, p.0) && WritesJson(v, p.1)
  }

  /** What the parser makes of each kind of object. */
  lemma ParsedParts(j: Json)
    ensures DataFromJson(j).Ok? ==> j.JsonObject? && (|j.entries| == 1 || |j.entries| == 2)
    ensures DataFromJson(j).Ok? && |j.entries| == 1 ==> j == JsonObject([j.entries[0]])
    ensures DataFromJson(j).Ok? && |j.entries| == 2 ==> j == JsonObject([j.entries[0], j.entries[1]])
  {
  }

  lemma LeafMeans(j: Json, i: int, b: seq<Byte>)
    ensures DataFromJson(j) == Ok(Int(i)) <==> exists s :: j == JsonObject([(IntKey, JsonString(s))]) && ParseInt(s) == Ok(i)
    ensures DataFromJson(j) == Ok(Bytes(b)) <==> exists s :: j == JsonObject([(BytesKey, JsonString(s))]) && ParseHex(s) == Ok(b)
  {
    hide ParseInt, ParseHex, AlternativeFromJson, PairFromJson;
    ParsedParts(j);
    if DataFromJson(j) == Ok(Int(i)) {
      assert j == JsonObject([(IntKey, JsonString(j.entries[0].1.s))]);
    }
    if DataFromJson(j) == Ok(Bytes(b)) {
      assert j == JsonObject([(BytesKey, JsonString(j.entries[0].1.s))]);
    }
  }

  predicate ParsesTo(list: seq<Json>, items: seq<Data>) {
    |list| == |items| && forall i :: 0 <= i < |items| ==> DataFromJson(list[i]) == Ok(items[i])
  }

  predicate ParsesToPairs(list: seq<Json>, pairs: seq<(Data, Data)>) {
    |list| == |pairs| && forall i :: 0 <= i < |pairs| ==> PairFromJson(list[i]) == Ok(pairs[i])
  }

  lemma ListMeans(j: Json, items: seq<Data>)
    ensures DataFromJson(j) == Ok(List(items)) <==> exists list :: j == JsonObject([(ListKey, JsonArray(list))]) && ParsesTo(list, items)
  {
    hide ParseInt, ParseHex, AlternativeFromJson, PairFromJson;
    ParsedParts(j);
    if DataFromJson(j) == Ok(List(items)) {
      var list := j.entries[0].1.elements;
      assert j == JsonObject([(ListKey, JsonArray(list))]);
    }
    if list :| j == JsonObject([(ListKey, JsonArray(list))]) && ParsesTo(list, items) {
      assert items == seq(|list|, i requires 0 <= i < |list| => DataFromJson(list[i]).value);
    }
  }

  lemma BothAt(entries: seq<(Key, Json)>, a: Key, x: Json, b: Key, y: Json)
    requires a != b && HasBoth(JsonObject(entries), a, x, b, y)
    ensures PairedAt(entries, a, b).Some?
    ensures entries[PairedAt(entries, a, b).value].1 == x && entries[1 - PairedAt(entries, a, b).value].1 == y
  {
    if entries == [(a, x), (b, y)] {
      assert entries[0] == (a, x) && entries[1] == (b, y);
    } else {
      assert entries[0] == (b, y) && entries[1] == (a, x);
    }
  }

  lemma BothMeans(entries: seq<(Key, Json)>, a: Key, b: Key)
    requires a != b
    ensures PairedAt(entries, a, b).Some? <==> exists x, y :: HasBoth(JsonObject(entries), a, x, b, y)
    ensures forall x, y :: HasBoth(JsonObject(entries), a, x, b, y) ==>
      && PairedAt(entries, a, b).Some?
      && entries[PairedAt(entries, a, b).value].1 == x && entries[1 - PairedAt(entries, a, b).value].1 == y
  {
    forall x, y | HasBoth(JsonObject(entries), a, x, b, y)
      ensures PairedAt(entries, a, b).Some?
      ensures entries[PairedAt(entries, a, b).value].1 == x && entries[1 - PairedAt(entries, a, b).value].1 == y
    {
      BothAt(entries, a, x, b, y);
    }
    if PairedAt(entries, a, b).Some? {
      PairedHasBoth(entries, a, b);
    }
  }

  lemma PairedHasBoth(entries: seq<(Key, Json)>, a: Key, b: Key)
    requires PairedAt(entries, a, b).Some?
    ensures
      var at := PairedAt(entries, a, b).value;
      HasBoth(JsonObject(entries), a, entries[at].1, b, entries[1 - at].1)
  {
    assert entries == [entries[0], entries[1]];
  }

  lemma PairMeans(j: Json, p: (Data, Data))
    ensures PairFromJson(j) == Ok(p) <==> exists k, v ::
      HasBoth(j, PairKey, k, PairValue, v) && DataFromJson(k) == Ok(p.0) && DataFromJson(v) == Ok(p.1)
  {
    hide DataFromJson;
    if j.JsonObject? {
      BothMeans(j.entries, PairKey, PairValue);
      if PairFromJson(j) == Ok(p) {
        var k, v :| HasBoth(JsonObject(j.entries), PairKey, k, PairValue, v);
        assert DataFromJson(k) == Ok(p.0) && DataFromJson(v) == Ok(p.1);
      }
    }
  }

  lemma MapMeans(j: Json, pairs: seq<(Data, Data)>)
    ensures DataFromJson(j) == Ok(Map(pairs)) <==> exists list :: j == JsonObject([(MapKey, JsonArray(list))]) && ParsesToPairs(list, pairs)
  {
    hide ParseInt, ParseHex, AlternativeFromJson, PairFromJson;
    ParsedParts(j);
    if DataFromJson(j) == Ok(Map(pairs)) {
      var list := j.entries[0].1.elements;
      assert j == JsonObject([(MapKey, JsonArray(list))]);
    }
    if list :| j == JsonObject([(MapKey, JsonArray(list))]) && ParsesToPairs(list, pairs) {
      assert pairs == seq(|list|, i requires 0 <= i < |list| => PairFromJson(list[i]).value);
    }
  }

  lemma ConstrMeans(j: Json, tag: Tag, fields: seq<Data>)
    ensures DataFromJson(j) == Ok(Constr(tag, fields)) <==> exists x, list ::
      HasBoth(j, ConstructorKey, x, FieldsKey, JsonArray(list)) && ParsesToTag(x, tag) && ParsesTo(list, fields)
  {
    hide ParseInt, ParseHex, AlternativeFromJson, PairFromJson, TagOf;
    ParsedParts(j);
    if j.JsonObject? {
      BothMeans(j.entries, ConstructorKey, FieldsKey);
      if DataFromJson(j) == Ok(Constr(tag, fields)) {
        var x, y :| HasBoth(JsonObject(j.entries), ConstructorKey, x, FieldsKey, y);
        assert y == JsonArray(y.elements) && ParsesToTag(x, tag) && ParsesTo(y.elements, fields);
      }
      if x, list :| HasBoth(j, ConstructorKey, x, FieldsKey, JsonArray(list)) && ParsesToTag(x, tag) && ParsesTo(list, fields) {
        assert fields == seq(|list|, i requires 0 <= i < |list| => DataFromJson(list[i]).value);
      }
    }
  }

  ghost predicate Agrees(d: Data) {
    forall j :: DataFromJson(j) == Ok(d) <==> WritesJson(j, d)
  }

  lemma LeavesAgree(i: int, b: seq<Byte>)
    ensures Agrees(Int(i)) && Agrees(Bytes(b))
  {
    hide DataFromJson, ParseInt, ParseHex, WritesInteger;
    forall s ensures ParseInt(s) == Ok(i) <==> WritesInteger(s, i) {
      IntegerMeans(s, i);
    }
    forall j ensures (DataFromJson(j) == Ok(Int(i)) <==> WritesJson(j, Int(i))) && (DataFromJson(j) == Ok(Bytes(b)) <==> WritesJson(j, Bytes(b))) {
      LeafMeans(j, i, b);
    }
  }

  lemma ListAgrees(items: seq<Data>)
    requires forall i :: 0 <= i < |items| ==> Agrees(items[i])
    ensures Agrees(List(items))
  {
    hide DataFromJson;
    forall j ensures DataFromJson(j) == Ok(List(items)) <==> WritesJson(j, List(items)) {
      ListMeans(j, items);
    }
  }

  lemma ConstrAgrees(tag: Tag, fields: seq<Data>)
    requires forall i :: 0 <= i < |fields| ==> Agrees(fields[i])
    ensures Agrees(Constr(tag, fields))
  {
    hide DataFromJson, ParsesToTag, WritesAlternative;
    forall x ensures ParsesToTag(x, tag) <==> WritesAlternative(x, tag) {
      AlternativeMeans(x, tag);
    }
    forall j ensures DataFromJson(j) == Ok(Constr(tag, fields)) <==> WritesJson(j, Constr(tag, fields)) {
      ConstrMeans(j, tag, fields);
    }
  }

  lemma PairAgrees(x: Json, p: (Data, Data))
    requires Agrees(p.0) && Agrees(p.1)
    ensures PairFromJson(x) == Ok(p) <==> WritesPair(x, p)
  {
    hide DataFromJson, PairFromJson, HasBoth;
    PairMeans(x, p);
  }

  lemma MapAgrees(pairs: seq<(Data, Data)>)
    requires forall i :: 0 <= i < |pairs| ==> Agrees(pairs[i].0) && Agrees(pairs[i].1)
    ensures Agrees(Map(pairs))
  {
    hide DataFromJson, PairFromJson, WritesPair, Agrees;
    forall x, i | 0 <= i < |pairs| ensures PairFromJson(x) == Ok(pairs[i]) <==> WritesPair(x, pairs[i]) {
      PairAgrees(x, pairs[i]);
    }
    forall j ensures DataFromJson(j) == Ok(Map(pairs)) <==> WritesJson(j, Map(pairs)) {
      MapMeans(j, pairs);
    }
    AgreesByJson(Map(pairs));
  }

  lemma AgreesByJson(d: Data)
    requires forall j :: DataFromJson(j) == Ok(d) <==> WritesJson(j, d)
    ensures Agrees(d)
  {
  }

  /** JSON is accepted as Data exactly when it writes that Data. */
  lemma {:induction false} JsonMeans(d: Data)
    ensures Agrees(d)
  {
    hide Agrees;
    match d
    case Int(i) => LeavesAgree(i, []);
    case Bytes(b) => LeavesAgree(0, b);
    case List(items) =>
      forall i | 0 <= i < |items| ensures Agrees(items[i]) {
        JsonMeans(items[i]);
      }
      ListAgrees(items);
    case Constr(tag, fields) =>
      forall i | 0 <= i < |fields| ensures Agrees(fields[i]) {
        JsonMeans(fields[i]);
      }
      ConstrAgrees(tag, fields);
    case Map(pairs) =>
      forall i | 0 <= i < |pairs| ensures Agrees(pairs[i].0) && Agrees(pairs[i].1) {
        JsonMeans(pairs[i].0);
        JsonMeans(pairs[i].1);
      }
      MapAgrees(pairs);
  }

  /** The format of the transport: which JSON is Data, and which Data it is. */
  lemma JsonFormat(j: Json, d: Data)
    ensures DataFromJson(j) == Ok(d) <==> WritesJson(j, d)
  {
    hide DataFromJson, WritesJson;
    JsonMeans(d);
  }
}
