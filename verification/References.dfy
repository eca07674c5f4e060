/** Output references: identity up to letter case, ledger order, and duplicate-free sorting of 1..16 entries. */
module References {
  import opened Results
  import opened Types
  import opened HexStrings
  import opened Arithmetic

  predicate IsOutputIndex(n: int) {
    0 <= n <= 65_535
  }

  predicate IsReference(ref: OutRef) {
    ParseHexOf(ref.txId, 32).Ok? && IsOutputIndex(ref.index)
  }

  /** The identity of a reference: its transaction in lower case, and its output position. */
  function RefId(ref: OutRef): OutRef {
    OutRef(Lower(ref.txId), ref.index)
  }

  predicate TextLess(a: string, b: string) {
    if b == "" then false
    else if a == "" then true
    else a[0] < b[0] || (a[0] == b[0] && TextLess(a[1..], b[1..]))
  }

  predicate RefLess(a: OutRef, b: OutRef) {
    TextLess(a.txId, b.txId) || (a.txId == b.txId && a.index < b.index)
  }

  lemma {:induction false} TextOrder(a: string, b: string)
    ensures a == b <==> !TextLess(a, b) && !TextLess(b, a)
    ensures !(TextLess(a, b) && TextLess(b, a))
  {
    if a != "" && b != "" {
      TextOrder(a[1..], b[1..]);
      assert a == [a[0]] + a[1..] && b == [b[0]] + b[1..];
    }
  }

  lemma {:induction false} TextTransitive(a: string, b: string, c: string)
    requires TextLess(a, b) && TextLess(b, c)
    ensures TextLess(a, c)
  {
    if a != "" && a[0] == b[0] == c[0] {
      TextTransitive(a[1..], b[1..], c[1..]);
    }
  }

  lemma RefOrder(a: OutRef, b: OutRef)
    ensures a == b <==> !RefLess(a, b) && !RefLess(b, a)
    ensures !(RefLess(a, b) && RefLess(b, a))
  {
    TextOrder(a.txId, b.txId);
  }

  lemma RefTransitive(a: OutRef, b: OutRef, c: OutRef)
    requires RefLess(a, b) && RefLess(b, c)
    ensures RefLess(a, c)
  {
    if TextLess(a.txId, b.txId) && TextLess(b.txId, c.txId) {
      TextTransitive(a.txId, b.txId, c.txId);
    }
  }

  /** Identities of the items, in item order. */
  function Ids<T>(items: seq<T>, getRef: T -> OutRef): (ids: seq<OutRef>)
    ensures |ids| == |items|
    ensures forall i :: 0 <= i < |items| ==> ids[i] == RefId(getRef(items[i]))
  {
    seq(|items|, i requires 0 <= i < |items| => RefId(getRef(items[i])))
  }

  predicate Distinct<T(==)>(s: seq<T>) {
    forall i, j :: 0 <= i < j < |s| ==> s[i] != s[j]
  }

  /** Strictly increasing in reference order. */
  predicate Sorted<T>(items: seq<T>, getRef: T -> OutRef) {
    forall i, j :: 0 <= i < j < |items| ==> RefLess(RefId(getRef(items[i])), RefId(getRef(items[j])))
  }

  function Insert<T>(item: T, items: seq<T>, getRef: T -> OutRef): (r: seq<T>)
    ensures |r| == |items| + 1
  {
    if items == [] || RefLess(RefId(getRef(item)), RefId(getRef(items[0]))) then [item] + items
    else [items[0]] + Insert(item, items[1..], getRef)
  }

  function SortItems<T>(items: seq<T>, getRef: T -> OutRef): (r: seq<T>)
    ensures |r| == |items|
  {
    if items == [] then [] else Insert(items[0], SortItems(items[1..], getRef), getRef)
  }

  predicate SortableReferences<T>(items: seq<T>, getRef: T -> OutRef) {
    && 1 <= |items| <= 16
    && (forall i :: 0 <= i < |items| ==> IsReference(getRef(items[i])))
    && Distinct(Ids(items, getRef))
  }

  /** A copy of 1..16 entries with valid, distinct references, in reference order. */
  function SortedReferences<T>(items: seq<T>, getRef: T -> OutRef): (r: Result<seq<T>>)
    ensures r.Ok? <==> SortableReferences(items, getRef)
  {
    if SortableReferences(items, getRef) then Ok(SortItems(items, getRef))
    else if 1 <= |items| <= 16 then Err(DuplicateReference) else Err(WrongCount)
  }

  lemma {:induction false} InsertKeepsSorted<T>(item: T, items: seq<T>, getRef: T -> OutRef)
    requires Sorted(items, getRef)
    requires forall i :: 0 <= i < |items| ==> RefId(getRef(items[i])) != RefId(getRef(item))
    ensures Sorted(Insert(item, items, getRef), getRef)
    ensures multiset(Insert(item, items, getRef)) == multiset{item} + multiset(items)
  {
    hide RefLess, RefId;
    if items == [] {
    } else if RefLess(RefId(getRef(item)), RefId(getRef(items[0]))) {
      forall j | 0 < j < |items| ensures RefLess(RefId(getRef(item)), RefId(getRef(items[j]))) {
        RefTransitive(RefId(getRef(item)), RefId(getRef(items[0])), RefId(getRef(items[j])));
      }
      assert multiset([item] + items) == multiset{item} + multiset(items);
    } else {
      var rest := Insert(item, items[1..], getRef);
      InsertKeepsSorted(item, items[1..], getRef);
      RefOrder(RefId(getRef(item)), RefId(getRef(items[0])));
      assert items == [items[0]] + items[1..];
      forall j | 0 <= j < |rest| ensures RefLess(RefId(getRef(items[0])), RefId(getRef(rest[j]))) {
        assert rest[j] in multiset(rest);
        if rest[j] != item {
          assert rest[j] in multiset(items[1..]);
          var k :| 0 <= k < |items[1..]| && items[1..][k] == rest[j];
          assert items[k + 1] == rest[j];
        }
      }
    }
  }

  lemma {:induction false} SortItemsSorts<T>(items: seq<T>, getRef: T -> OutRef)
    requires Distinct(Ids(items, getRef))
    ensures Sorted(SortItems(items, getRef), getRef)
    ensures multiset(SortItems(items, getRef)) == multiset(items)
  {
    if items != [] {
      var ids := Ids(items, getRef);
      assert items == [items[0]] + items[1..];
      forall i, j | 0 <= i < j < |items[1..]| ensures Ids(items[1..], getRef)[i] != Ids(items[1..], getRef)[j] {
        assert ids[i + 1] != ids[j + 1];
      }
      SortItemsSorts(items[1..], getRef);
      var sorted := SortItems(items[1..], getRef);
      forall i | 0 <= i < |sorted| ensures RefId(getRef(sorted[i])) != RefId(getRef(items[0])) {
        assert sorted[i] in multiset(items[1..]);
        var k :| 0 <= k < |items[1..]| && items[1..][k] == sorted[i];
        assert ids[0] != ids[k + 1];
      }
      InsertKeepsSorted(items[0], sorted, getRef);
    }
  }

  lemma LeastEntriesAgree<T>(s: seq<T>, t: seq<T>, getRef: T -> OutRef)
    requires Sorted(s, getRef) && Sorted(t, getRef) && multiset(s) == multiset(t) && s != [] && t != []
    ensures s[0] == t[0]
  {
    hide RefLess, RefId;
    assert s[0] in multiset(t) && t[0] in multiset(s);
    var i :| 0 <= i < |t| && t[i] == s[0];
    var j :| 0 <= j < |s| && s[j] == t[0];
    RefOrder(RefId(getRef(s[0])), RefId(getRef(t[0])));
  }

  /** Two strictly sorted arrangements of the same entries are the same sequence. */
  lemma {:induction false} SortedArrangementIsUnique<T>(s: seq<T>, t: seq<T>, getRef: T -> OutRef)
    requires Sorted(s, getRef) && Sorted(t, getRef)
    requires multiset(s) == multiset(t)
    ensures s == t
  {
    assert |s| == |multiset(s)| && |t| == |multiset(t)|;
    if s != [] {
      LeastEntriesAgree(s, t, getRef);
      assert s == [s[0]] + s[1..] && t == [t[0]] + t[1..];
      assert multiset(s[1..]) == multiset(s) - multiset{s[0]};
      assert multiset(t[1..]) == multiset(t) - multiset{t[0]};
      SortedArrangementIsUnique(s[1..], t[1..], getRef);
    }
  }

  lemma TwoPlacesCountTwice<T>(t: seq<T>, i: nat, j: nat)
    requires i < j < |t| && t[i] == t[j]
    ensures multiset(t)[t[i]] >= 2
  {
    assert t == t[..j] + t[j..];
    assert t[i] in t[..j] && t[j] in t[j..];
    assert multiset(t) == multiset(t[..j]) + multiset(t[j..]);
  }

  lemma {:induction false} OnePlaceCountsOnce<T>(s: seq<T>, a: nat)
    requires a < |s| && forall k :: 0 <= k < |s| && k != a ==> s[k] != s[a]
    ensures multiset(s)[s[a]] == 1
  {
    assert s == s[..a] + [s[a]] + s[a + 1..];
    assert multiset(s) == multiset(s[..a]) + multiset{s[a]} + multiset(s[a + 1..]);
    assert s[a] !in s[..a] && s[a] !in s[a + 1..];
  }

  /** Distinct identities are a property of the entries, not of their order. */
  lemma DistinctIsUnordered<T>(s: seq<T>, t: seq<T>, getRef: T -> OutRef)
    requires multiset(s) == multiset(t) && Distinct(Ids(s, getRef))
    ensures Distinct(Ids(t, getRef))
  {
    var ids := Ids(s, getRef);
    forall i, j | 0 <= i < j < |t| && Ids(t, getRef)[i] == Ids(t, getRef)[j] ensures false {
      assert t[i] in multiset(s) && t[j] in multiset(s);
      var a :| 0 <= a < |s| && s[a] == t[i];
      var b :| 0 <= b < |s| && s[b] == t[j];
      assert ids[a] == ids[b];
      TwoPlacesCountTwice(t, i, j);
      forall k | 0 <= k < |s| && k != a ensures s[k] != s[a] {
        assert ids[k] != ids[a];
      }
      OnePlaceCountsOnce(s, a);
    }
  }

  /** The result is sorted, keeps every entry, and does not depend on the order of submission. */
  lemma SortedReferencesIsCanonical<T>(items: seq<T>, other: seq<T>, getRef: T -> OutRef)
    requires multiset(items) == multiset(other)
    ensures SortedReferences(items, getRef).Ok? <==> SortedReferences(other, getRef).Ok?
    ensures SortedReferences(items, getRef).Ok? ==>
      var sorted := SortedReferences(items, getRef).value;
      && Sorted(sorted, getRef) && multiset(sorted) == multiset(items)
      && SortedReferences(other, getRef).value == sorted
  {
    if SortableReferences(other, getRef) {
      SortableIsUnordered(other, items, getRef);
    }
    if SortableReferences(items, getRef) {
      SortableIsUnordered(items, other, getRef);
      SortItemsSorts(items, getRef);
      SortItemsSorts(other, getRef);
      SortedArrangementIsUnique(SortItems(items, getRef), SortItems(other, getRef), getRef);
    }
  }

  lemma SortableIsUnordered<T>(items: seq<T>, other: seq<T>, getRef: T -> OutRef)
    requires multiset(items) == multiset(other)
    requires SortableReferences(items, getRef)
    ensures SortableReferences(other, getRef)
  {
    assert |items| == |multiset(items)| && |other| == |multiset(other)|;
    forall i | 0 <= i < |other| ensures IsReference(getRef(other[i])) {
      assert other[i] in multiset(items);
      var k :| 0 <= k < |items| && items[k] == other[i];
    }
    DistinctIsUnordered(items, other, getRef);
  }

  /** A sequence that is already in order is its own sorted copy. */
  lemma SortedIsFixed<T>(items: seq<T>, getRef: T -> OutRef)
    requires Sorted(items, getRef)
    ensures Distinct(Ids(items, getRef))
    ensures SortItems(items, getRef) == items
  {
    forall i, j | 0 <= i < j < |items| ensures Ids(items, getRef)[i] != Ids(items, getRef)[j] {
      RefOrder(Ids(items, getRef)[i], Ids(items, getRef)[j]);
    }
    SortItemsSorts(items, getRef);
    SortedArrangementIsUnique(SortItems(items, getRef), items, getRef);
  }

  /** The loop over a seen-set, then the sort of a copy. */
  method SortReferences<T>(items: seq<T>, getRef: T -> OutRef) returns (r: Result<seq<T>>)
    ensures r.Ok? <==> SortedReferences(items, getRef).Ok?
    ensures r.Ok? ==> r == SortedReferences(items, getRef)
  {
    hide RefId, IsReference, SortItems;
    if |items| < 1 || |items| > 16 {
      return Err(WrongCount);
    }
    ghost var ids := Ids(items, getRef);
    var seen: set<OutRef> := {};
    for i := 0 to |items|
      invariant forall k :: 0 <= k < i ==> IsReference(getRef(items[k]))
      invariant seen == set k | 0 <= k < i :: ids[k]
      invariant Distinct(ids[..i])
    {
      if !IsReference(getRef(items[i])) {
        return Err(InvalidBytes);
      }
      var id := RefId(getRef(items[i]));
      assert id == ids[i];
      if id in seen {
        return Err(DuplicateReference);
      }
      assert ids[..i + 1] == ids[..i] + [id];
      seen := seen + {id};
    }
    assert ids[..|items|] == ids;
    return Ok(SortItems(items, getRef));
  }

  /** The order of text is that of its first difference; a proper prefix comes first. */
  lemma {:induction false} TextLessIsExact(a: string, b: string)
    ensures TextLess(a, b) <==>
      exists k :: 0 <= k <= |a| && k < |b| && a[..k] == b[..k] && (k == |a| || (k < |a| && a[k] < b[k]))
  {
    if a == "" || b == "" {
      assert b != "" ==> a[..0] == b[..0];
    } else if a[0] == b[0] {
      TextLessIsExact(a[1..], b[1..]);
      if TextLess(a, b) {
        var k :| 0 <= k <= |a[1..]| && k < |b[1..]| && a[1..][..k] == b[1..][..k]
          && (k == |a[1..]| || (k < |a[1..]| && a[1..][k] < b[1..][k]));
        assert a[..k + 1] == [a[0]] + a[1..][..k] && b[..k + 1] == [b[0]] + b[1..][..k];
      }
      if k :| 0 <= k <= |a| && k < |b| && a[..k] == b[..k] && (k == |a| || (k < |a| && a[k] < b[k])) {
        assert k > 0;
        assert a[1..][..k - 1] == a[..k][1..] && b[1..][..k - 1] == b[..k][1..];
      }
    } else {
      assert a[..0] == b[..0];
      forall k | 0 < k <= |a| && k < |b| ensures a[..k] != b[..k] {
        assert a[..k][0] != b[..k][0];
      }
    }
  }

  /** References are ordered by transaction first, then by output position as a number. */
  lemma RefLessIsExact(a: OutRef, b: OutRef)
    ensures a.txId == b.txId ==> (RefLess(a, b) <==> a.index < b.index)
    ensures a.txId != b.txId ==> (RefLess(a, b) <==> TextLess(a.txId, b.txId))
  {
    TextOrder(a.txId, b.txId);
  }

  /** Sorting rearranges its items and never puts a greater reference before a lesser one. */
  lemma {:induction false} SortItemsArranges<T>(items: seq<T>, getRef: T -> OutRef)
    ensures multiset(SortItems(items, getRef)) == multiset(items)
    ensures
      var sorted := SortItems(items, getRef);
      forall i, j :: 0 <= i < j < |sorted| ==> !RefLess(RefId(getRef(sorted[j])), RefId(getRef(sorted[i])))
  {
    hide RefLess, RefId;
    if items != [] {
      assert items == [items[0]] + items[1..];
      SortItemsArranges(items[1..], getRef);
      InsertArranges(items[0], SortItems(items[1..], getRef), getRef);
    }
  }

  lemma NotLessIsTransitive(a: OutRef, b: OutRef, c: OutRef)
    requires !RefLess(b, a) && !RefLess(c, b)
    ensures !RefLess(c, a)
  {
    hide RefLess;
    RefOrder(a, b);
    RefOrder(b, c);
    RefOrder(a, c);
    if RefLess(a, b) && RefLess(b, c) {
      RefTransitive(a, b, c);
    }
  }

  lemma {:induction false} InsertArranges<T>(item: T, items: seq<T>, getRef: T -> OutRef)
    requires forall i, j :: 0 <= i < j < |items| ==> !RefLess(RefId(getRef(items[j])), RefId(getRef(items[i])))
    ensures multiset(Insert(item, items, getRef)) == multiset{item} + multiset(items)
    ensures
      var sorted := Insert(item, items, getRef);
      forall i, j :: 0 <= i < j < |sorted| ==> !RefLess(RefId(getRef(sorted[j])), RefId(getRef(sorted[i])))
  {
    hide RefLess, RefId;
    if items == [] {
    } else if RefLess(RefId(getRef(item)), RefId(getRef(items[0]))) {
      RefOrder(RefId(getRef(item)), RefId(getRef(items[0])));
      forall j | 0 <= j < |items| ensures !RefLess(RefId(getRef(items[j])), RefId(getRef(item))) {
        RefOrder(RefId(getRef(items[0])), RefId(getRef(items[0])));
        NotLessIsTransitive(RefId(getRef(item)), RefId(getRef(items[0])), RefId(getRef(items[j])));
      }
      assert multiset([item] + items) == multiset{item} + multiset(items);
    } else {
      InsertArranges(item, items[1..], getRef);
      var rest := Insert(item, items[1..], getRef);
      assert items == [items[0]] + items[1..];
      forall j | 0 <= j < |rest| ensures !RefLess(RefId(getRef(rest[j])), RefId(getRef(items[0]))) {
        assert rest[j] in multiset(rest);
        if rest[j] != item {
          assert rest[j] in multiset(items[1..]);
          var k :| 0 <= k < |items[1..]| && items[1..][k] == rest[j];
          assert items[k + 1] == rest[j];
        }
      }
    }
  }
}
