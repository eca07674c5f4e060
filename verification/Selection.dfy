/** Group selection: the longest feasible run of whole groups at the earliest head, and an account of every omission. */
module Selection {
  import opened Results
  import opened Types
  import opened HexStrings
  import opened References

  datatype Resource = Memory | Steps | Size

  /** What preparing a candidate yields: the artifact, a measured resource failure, or any other error. */
  datatype Preparation<+P> = Prepared(artifact: P) | Exceeded(resource: Resource, detail: string) | Broken(error: Error)

  datatype AttemptOutcome = Feasible | ResourceLimit(resource: Resource, detail: string)

  datatype Attempt = Attempt(refs: seq<OutRef>, outcome: AttemptOutcome)

  /** A tested reason carries the measured failure; the others were never measured. */
  datatype Reason =
    | NeedsSeparateGroup
    | IndividualLimit(detail: string)
    | AtomicGroupLimit(detail: string)
    | ExceedsStructuralLimit

  datatype Exclusion = Exclusion(ref: OutRef, reason: Reason)

  datatype Selected<T, P> = Selected(
    included: seq<T>,
    includedRefs: seq<OutRef>,
    excluded: seq<Exclusion>,
    prepared: Option<P>,
    attempts: seq<Attempt>)

  type Groups<T> = seq<seq<T>>

  function Flat<T>(groups: Groups<T>): seq<T> {
    if groups == [] then [] else Flat(groups[..|groups| - 1]) + groups[|groups| - 1]
  }

  /** The run of whole groups from one position to another. */
  function Run<T>(groups: Groups<T>, start: nat, end: nat): seq<T>
    requires start <= end <= |groups|
  {
    Flat(groups[start..end])
  }

  /** The identity of the item at a position. */
  function IdAt<T>(groups: Groups<T>, ref: T -> OutRef, g: nat, i: nat): OutRef
    requires g < |groups| && i < |groups[g]|
  {
    RefId(ref(groups[g][i]))
  }

  /** No empty group, no malformed reference, and no reference anywhere twice. */
  predicate IsNormal<T>(groups: Groups<T>, ref: T -> OutRef) {
    && (forall g :: 0 <= g < |groups| ==> groups[g] != [])
    && (forall g, i :: 0 <= g < |groups| && 0 <= i < |groups[g]| ==> IsReference(ref(groups[g][i])))
    && DistinctBefore(groups, ref, |groups|)
  }

  /** No reference occurs twice within the first n groups. */
  predicate DistinctBefore<T>(groups: Groups<T>, ref: T -> OutRef, n: nat)
    requires n <= |groups|
  {
    && (forall g, i, j :: 0 <= g < n && 0 <= i < j < |groups[g]| ==> IdAt(groups, ref, g, i) != IdAt(groups, ref, g, j))
    && (forall g, h, i, j :: 0 <= g < h < n && 0 <= i < |groups[g]| && 0 <= j < |groups[h]| ==>
          IdAt(groups, ref, g, i) != IdAt(groups, ref, h, j))
  }

  /** The identities of the first n items of a group. */
  function IdsIn<T>(group: seq<T>, ref: T -> OutRef, n: nat): set<OutRef>
    requires n <= |group|
  {
    set i | 0 <= i < n :: RefId(ref(group[i]))
  }

  /** The identities of the first n groups. */
  function IdsBefore<T>(groups: Groups<T>, ref: T -> OutRef, n: nat): set<OutRef>
    requires n <= |groups|
  {
    if n == 0 then {} else IdsBefore(groups, ref, n - 1) + IdsIn(groups[n - 1], ref, |groups[n - 1]|)
  }

  lemma {:induction false} IdsBeforeMeans<T>(groups: Groups<T>, ref: T -> OutRef, n: nat, id: OutRef)
    requires n <= |groups|
    ensures id in IdsBefore(groups, ref, n) <==>
      exists g, i :: 0 <= g < n && 0 <= i < |groups[g]| && IdAt(groups, ref, g, i) == id
  {
    hide RefId;
    if n > 0 {
      IdsBeforeMeans(groups, ref, n - 1, id);
      var last := groups[n - 1];
      forall i | 0 <= i < |last| ensures RefId(ref(last[i])) in IdsIn(last, ref, |last|) {
      }
      if id in IdsIn(groups[n - 1], ref, |groups[n - 1]|) {
        var i :| 0 <= i < |groups[n - 1]| && RefId(ref(groups[n - 1][i])) == id;
        assert IdAt(groups, ref, n - 1, i) == id;
      }
    }
  }

  /** Adding a group with new, distinct references keeps everything distinct. */
  lemma DistinctStep<T>(groups: Groups<T>, ref: T -> OutRef, g: nat)
    requires g < |groups| && DistinctBefore(groups, ref, g)
    requires forall i, j :: 0 <= i < j < |groups[g]| ==> IdAt(groups, ref, g, i) != IdAt(groups, ref, g, j)
    requires forall i :: 0 <= i < |groups[g]| ==> IdAt(groups, ref, g, i) !in IdsBefore(groups, ref, g)
    ensures DistinctBefore(groups, ref, g + 1)
  {
    hide RefId, IdsBefore;
    forall h, i, j | 0 <= h < g && 0 <= i < |groups[h]| && 0 <= j < |groups[g]|
      ensures IdAt(groups, ref, h, i) != IdAt(groups, ref, g, j)
    {
      IdsBeforeMeans(groups, ref, g, IdAt(groups, ref, g, j));
    }
  }

  /** An identity seen earlier makes the input abnormal. */
  lemma RepeatIsAbnormal<T>(groups: Groups<T>, ref: T -> OutRef, g: nat, i: nat)
    requires g < |groups| && i < |groups[g]|
    requires IdAt(groups, ref, g, i) in IdsBefore(groups, ref, g) + IdsIn(groups[g], ref, i)
    ensures !IsNormal(groups, ref)
  {
    hide RefId, IdsBefore, IsReference;
    var id := IdAt(groups, ref, g, i);
    IdsBeforeMeans(groups, ref, g, id);
    if id in IdsIn(groups[g], ref, i) {
      var j :| 0 <= j < i && RefId(ref(groups[g][j])) == id;
      assert IdAt(groups, ref, g, j) == IdAt(groups, ref, g, i);
    }
  }

  /** The walk over groups and items with a seen-set. */
  method NormalizeGroups<T>(groups: Groups<T>, ref: T -> OutRef) returns (ok: bool)
    ensures ok <==> IsNormal(groups, ref)
  {
    hide RefId, IsReference, DistinctBefore;
    var seen: set<OutRef> := {};
    assert DistinctBefore(groups, ref, 0) by {
      NoneDistinct(groups, ref);
    }
    for g := 0 to |groups|
      invariant forall h :: 0 <= h < g ==> groups[h] != []
      invariant forall h, j :: 0 <= h < g && 0 <= j < |groups[h]| ==> IsReference(ref(groups[h][j]))
      invariant seen == IdsBefore(groups, ref, g) && DistinctBefore(groups, ref, g)
    {
      if groups[g] == [] {
        return false;
      }
      for i := 0 to |groups[g]|
        invariant forall j :: 0 <= j < i ==> IsReference(ref(groups[g][j]))
        invariant seen == IdsBefore(groups, ref, g) + IdsIn(groups[g], ref, i)
        invariant forall j :: 0 <= j < i ==> IdAt(groups, ref, g, j) !in IdsBefore(groups, ref, g)
        invariant forall j, k :: 0 <= j < k < i ==> IdAt(groups, ref, g, j) != IdAt(groups, ref, g, k)
      {
        var item := groups[g][i];
        if !IsReference(ref(item)) {
          return false;
        }
        var id := RefId(ref(item));
        assert id == IdAt(groups, ref, g, i);
        if id in seen {
          RepeatIsAbnormal(groups, ref, g, i);
          return false;
        }
        forall j | 0 <= j < i ensures IdAt(groups, ref, g, j) != id {
          assert IdAt(groups, ref, g, j) in IdsIn(groups[g], ref, i);
        }
        assert IdsIn(groups[g], ref, i + 1) == IdsIn(groups[g], ref, i) + {id};
        seen := seen + {id};
      }
      DistinctStep(groups, ref, g);
    }
    return true;
  }

  lemma NoneDistinct<T>(groups: Groups<T>, ref: T -> OutRef)
    ensures DistinctBefore(groups, ref, 0)
  {
  }

  /** How far runs from a start can extend within the cap. */
  function BoundedEnd<T>(groups: Groups<T>, start: nat, end: nat, limit: nat): (r: nat)
    requires start <= end <= |groups|
    ensures end <= r <= |groups|
    decreases |groups| - end
  {
    if end == |groups| || |Run(groups, start, end)| + |groups[end]| > limit then end
    else BoundedEnd(groups, start, end + 1, limit)
  }

  lemma RunExtends<T>(groups: Groups<T>, start: nat, end: nat)
    requires start <= end < |groups|
    ensures Run(groups, start, end + 1) == Run(groups, start, end) + groups[end]
  {
    assert groups[start..end + 1][..end - start] == groups[start..end];
  }

  lemma {:induction false} RunsGrow<T>(groups: Groups<T>, start: nat, end: nat, later: nat)
    requires start <= end <= later <= |groups|
    ensures |Run(groups, start, end)| <= |Run(groups, start, later)|
    decreases later
  {
    if end < later {
      RunsGrow(groups, start, end, later - 1);
      RunExtends(groups, start, later - 1);
    }
  }

  /** The bounded ends are exactly those whose run fits the cap. */
  lemma {:induction false} BoundedEndIsExact<T>(groups: Groups<T>, start: nat, end: nat, limit: nat, e: nat)
    requires start <= end <= |groups| && |Run(groups, start, end)| <= limit && end <= e <= |groups|
    ensures e <= BoundedEnd(groups, start, end, limit) <==> |Run(groups, start, e)| <= limit
    decreases |groups| - end
  {
    if end < |groups| {
      RunExtends(groups, start, end);
      if |Run(groups, start, end)| + |groups[end]| > limit {
        if e > end {
          RunsGrow(groups, start, end + 1, e);
        }
      } else if e > end {
        BoundedEndIsExact(groups, start, end + 1, limit, e);
      }
    }
  }

  /** Contiguous whole-group prefixes from a start, longest first. */
  method BoundedPrefixes<T>(groups: Groups<T>, start: nat, limit: nat) returns (prefixes: seq<seq<T>>)
    requires start <= |groups|
    ensures
      var last := BoundedEnd(groups, start, start, limit);
      && |prefixes| == last - start
      && forall k :: 0 <= k < |prefixes| ==> prefixes[k] == Run(groups, start, last - k)
  {
    var found: seq<seq<T>>, candidate: seq<T> := [], [];
    var end := start;
    while end < |groups| && |candidate| + |groups[end]| <= limit
      invariant start <= end <= |groups| && candidate == Run(groups, start, end)
      invariant BoundedEnd(groups, start, start, limit) == BoundedEnd(groups, start, end, limit)
      invariant |found| == end - start && forall k :: 0 <= k < |found| ==> found[k] == Run(groups, start, start + k + 1)
    {
      RunExtends(groups, start, end);
      candidate := candidate + groups[end];
      found := found + [candidate];
      end := end + 1;
    }
    prefixes := seq(|found|, k requires 0 <= k < |found| => found[|found| - 1 - k]);
  }

  /** Outcome of a search: a chosen run, no feasible run, or an error that is no measured resource failure. */
  datatype Search<+P> = Chosen(start: nat, end: nat, artifact: P) | Nothing | Aborted(error: Error)

  /** Try the runs from a start, from an end downwards. */
  function TryHead<T, P>(groups: Groups<T>, start: nat, end: nat, prepare: seq<T> -> Preparation<P>): Search<P>
    requires start <= end <= |groups|
    decreases end
  {
    if end == start then Nothing
    else
      match prepare(Run(groups, start, end))
      case Prepared(artifact) => Chosen(start, end, artifact)
      case Broken(error) => Aborted(error)
      case Exceeded(_, _) => TryHead(groups, start, end - 1, prepare)
  }

  function SearchFrom<T, P>(groups: Groups<T>, start: nat, limit: nat, prepare: seq<T> -> Preparation<P>): Search<P>
    requires start <= |groups|
    decreases |groups| - start
  {
    if start == |groups| then Nothing
    else
      var head := TryHead(groups, start, BoundedEnd(groups, start, start, limit), prepare);
      if head.Nothing? then SearchFrom(groups, start + 1, limit, prepare) else head
  }

  /** A run that fits the cap and that the oracle prepares. */
  predicate IsFeasible<T, P>(groups: Groups<T>, start: nat, end: nat, limit: nat, prepare: seq<T> -> Preparation<P>)
    requires start <= end <= |groups|
  {
    start < end && |Run(groups, start, end)| <= limit && prepare(Run(groups, start, end)).Prepared?
  }

  lemma {:induction false} TryHeadIsMaximal<T, P>(
    groups: Groups<T>, start: nat, end: nat, limit: nat, prepare: seq<T> -> Preparation<P>)
    requires start <= end <= |groups|
    requires forall e :: start <= e <= end ==> |Run(groups, start, e)| <= limit
    ensures
      var found := TryHead(groups, start, end, prepare);
      && (found.Chosen? ==>
            && found.start == start && start < found.end <= end && IsFeasible(groups, start, found.end, limit, prepare)
            && prepare(Run(groups, start, found.end)) == Prepared(found.artifact)
            && forall e :: found.end < e <= end ==> !IsFeasible(groups, start, e, limit, prepare))
      && (found.Nothing? ==> forall e :: start <= e <= end ==> !IsFeasible(groups, start, e, limit, prepare))
    decreases end
  {
    if start < end {
      TryHeadIsMaximal(groups, start, end - 1, limit, prepare);
    }
  }

  lemma HeadIsMaximal<T, P>(groups: Groups<T>, start: nat, limit: nat, prepare: seq<T> -> Preparation<P>)
    requires start < |groups|
    ensures
      var found := TryHead(groups, start, BoundedEnd(groups, start, start, limit), prepare);
      && (found.Chosen? ==>
            && found.start == start && start < found.end <= |groups| && IsFeasible(groups, start, found.end, limit, prepare)
            && prepare(Run(groups, start, found.end)) == Prepared(found.artifact)
            && forall e :: found.end < e <= |groups| ==> !IsFeasible(groups, start, e, limit, prepare))
      && (found.Nothing? ==> forall e :: start <= e <= |groups| ==> !IsFeasible(groups, start, e, limit, prepare))
  {
    var last := BoundedEnd(groups, start, start, limit);
    assert Run(groups, start, start) == [];
    forall e | start <= e <= |groups| ensures e <= last <==> |Run(groups, start, e)| <= limit {
      BoundedEndIsExact(groups, start, start, limit, e);
    }
    TryHeadIsMaximal(groups, start, last, limit, prepare);
  }

  /**
   * Selection is complete and maximal for any fixed oracle: the chosen run is feasible, no longer run from its head
   * is, and no run from an earlier head is; without a choice or an abort, no run at all is feasible.
   */
  lemma {:induction false} SearchIsMaximal<T, P>(
    groups: Groups<T>, start: nat, limit: nat, prepare: seq<T> -> Preparation<P>)
    requires start <= |groups|
    ensures
      var found := SearchFrom(groups, start, limit, prepare);
      && (found.Chosen? ==>
            && start <= found.start < found.end <= |groups| && IsFeasible(groups, found.start, found.end, limit, prepare)
            && prepare(Run(groups, found.start, found.end)) == Prepared(found.artifact)
            && (forall e :: found.end < e <= |groups| ==> !IsFeasible(groups, found.start, e, limit, prepare))
            && forall s, e :: start <= s < found.start && s <= e <= |groups| ==> !IsFeasible(groups, s, e, limit, prepare))
      && (found.Nothing? ==>
            forall s, e :: start <= s <= e <= |groups| ==> !IsFeasible(groups, s, e, limit, prepare))
    decreases |groups| - start
  {
    hide IsFeasible, TryHead;
    if start < |groups| {
      HeadIsMaximal(groups, start, limit, prepare);
      SearchIsMaximal(groups, start + 1, limit, prepare);
    } else {
      EmptyRunsAreNotFeasible(groups, limit, prepare);
    }
  }

  lemma EmptyRunsAreNotFeasible<T, P>(groups: Groups<T>, limit: nat, prepare: seq<T> -> Preparation<P>)
    ensures !IsFeasible(groups, |groups|, |groups|, limit, prepare)
  {
  }

  function RefsOf<T>(items: seq<T>, ref: T -> OutRef): seq<OutRef> {
    seq(|items|, i requires 0 <= i < |items| => RefId(ref(items[i])))
  }

  function AttemptOf<T, P>(items: seq<T>, ref: T -> OutRef, prepare: seq<T> -> Preparation<P>): Attempt {
    match prepare(items)
    case Exceeded(resource, detail) => Attempt(RefsOf(items, ref), ResourceLimit(resource, detail))
    case _ => Attempt(RefsOf(items, ref), Feasible)
  }

  /** The calls that trying a head makes, in order. */
  function HeadAttempts<T, P>(groups: Groups<T>, start: nat, end: nat, ref: T -> OutRef, prepare: seq<T> -> Preparation<P>)
    : seq<Attempt>
    requires start <= end <= |groups|
    decreases end
  {
    if end == start then []
    else
      var run := Run(groups, start, end);
      [AttemptOf(run, ref, prepare)] + if prepare(run).Exceeded? then HeadAttempts(groups, start, end - 1, ref, prepare) else []
  }

  /** The calls that the search makes, in order. */
  function AttemptsFrom<T, P>(groups: Groups<T>, start: nat, limit: nat, ref: T -> OutRef, prepare: seq<T> -> Preparation<P>)
    : seq<Attempt>
    requires start <= |groups|
    decreases |groups| - start
  {
    if start == |groups| then []
    else
      var last := BoundedEnd(groups, start, start, limit);
      HeadAttempts(groups, start, last, ref, prepare)
      + if TryHead(groups, start, last, prepare).Nothing? then AttemptsFrom(groups, start + 1, limit, ref, prepare) else []
  }

  /** Why a head that no run could include is left out. */
  function HeadReason<T, P>(group: seq<T>, limit: nat, prepare: seq<T> -> Preparation<P>): Reason {
    var alone := prepare(group);
    if |group| > limit || !alone.Exceeded? then ExceedsStructuralLimit
    else if |group| == 1 then IndividualLimit(alone.detail)
    else AtomicGroupLimit(alone.detail)
  }

  /** The entry of a group left out of a chosen run: a measured or structural reason before it, none after it. */
  function ReasonAt<T, P>(groups: Groups<T>, g: nat, start: nat, limit: nat, prepare: seq<T> -> Preparation<P>): Reason
    requires g < |groups|
  {
    if g < start then HeadReason(groups[g], limit, prepare) else NeedsSeparateGroup
  }

  function Row<T>(group: seq<T>, reason: Reason, ref: T -> OutRef): seq<Exclusion> {
    seq(|group|, i requires 0 <= i < |group| => Exclusion(RefId(ref(group[i])), reason))
  }

  /** Every item outside the run, once, in caller order, with its reason. */
  function Omissions<T, P>(
    groups: Groups<T>, n: nat, start: nat, end: nat, limit: nat, ref: T -> OutRef, prepare: seq<T> -> Preparation<P>)
    : seq<Exclusion>
    requires n <= |groups|
  {
    if n == 0 then []
    else
      Omissions(groups, n - 1, start, end, limit, ref, prepare)
      + if start <= n - 1 < end then [] else Row(groups[n - 1], ReasonAt(groups, n - 1, start, limit, prepare), ref)
  }

  /** The whole account of a finished search. */
  ghost predicate Accounts<T, P>(
    r: Selected<T, P>, groups: Groups<T>, limit: nat, ref: T -> OutRef, prepare: seq<T> -> Preparation<P>)
  {
    var found := SearchFrom(groups, 0, limit, prepare);
    && !found.Aborted?
    && r.attempts == AttemptsFrom(groups, 0, limit, ref, prepare)
    && r.includedRefs == RefsOf(r.included, ref)
    && (found.Chosen? ==>
          && found.start < found.end <= |groups|
          && r.included == Run(groups, found.start, found.end) && r.prepared == Some(found.artifact)
          && r.excluded == Omissions(groups, |groups|, found.start, found.end, limit, ref, prepare))
    && (found.Nothing? ==>
          && r.included == [] && r.prepared == None
          && r.excluded == Omissions(groups, |groups|, |groups|, |groups|, limit, ref, prepare))
  }

  type Excluded = map<OutRef, Exclusion>

  predicate HasEntry<T>(excluded: Excluded, groups: Groups<T>, ref: T -> OutRef, g: nat, i: nat, reason: Reason)
    requires g < |groups| && i < |groups[g]|
  {
    var id := IdAt(groups, ref, g, i);
    id in excluded && excluded[id] == Exclusion(id, reason)
  }

  /** Exactly the items of the first n groups have entries, each with its head's reason. */
  ghost predicate ExcludedBefore<T, P>(
    excluded: Excluded, groups: Groups<T>, n: nat, limit: nat, ref: T -> OutRef, prepare: seq<T> -> Preparation<P>)
  {
    && n <= |groups|
    && (forall g, i :: 0 <= g < n && 0 <= i < |groups[g]| ==>
          HasEntry(excluded, groups, ref, g, i, HeadReason(groups[g], limit, prepare)))
    && (forall g, i :: n <= g < |groups| && 0 <= i < |groups[g]| ==> IdAt(groups, ref, g, i) !in excluded)
  }

  lemma OthersDiffer<T>(groups: Groups<T>, ref: T -> OutRef, g: nat, i: nat)
    requires IsNormal(groups, ref) && g < |groups| && i < |groups[g]|
    ensures forall h, j :: 0 <= h < |groups| && 0 <= j < |groups[h]| && (h != g || j != i) ==>
      IdAt(groups, ref, h, j) != IdAt(groups, ref, g, i)
  {
    hide RefId;
    forall h, j | 0 <= h < |groups| && 0 <= j < |groups[h]| && (h != g || j != i)
      ensures IdAt(groups, ref, h, j) != IdAt(groups, ref, g, i)
    {
      assert DistinctBefore(groups, ref, |groups|);
    }
  }

  /** Record one reason for a whole group. */
  method Exclude<T, P>(
    excluded: Excluded, groups: Groups<T>, g: nat, reason: Reason, limit: nat, ref: T -> OutRef,
    prepare: seq<T> -> Preparation<P>) returns (after: Excluded)
    requires IsNormal(groups, ref) && g < |groups| && ExcludedBefore(excluded, groups, g, limit, ref, prepare)
    requires reason == HeadReason(groups[g], limit, prepare)
    ensures ExcludedBefore(after, groups, g + 1, limit, ref, prepare)
  {
    hide RefId, HeadReason, IsReference, IsNormal;
    after := excluded;
    for i := 0 to |groups[g]|
      invariant forall h, j :: 0 <= h < g && 0 <= j < |groups[h]| ==>
        HasEntry(after, groups, ref, h, j, HeadReason(groups[h], limit, prepare))
      invariant forall j :: 0 <= j < i ==> HasEntry(after, groups, ref, g, j, reason)
      invariant forall h, j :: g < h < |groups| && 0 <= j < |groups[h]| ==> IdAt(groups, ref, h, j) !in after
    {
      var id := RefId(ref(groups[g][i]));
      assert id == IdAt(groups, ref, g, i);
      OthersDiffer(groups, ref, g, i);
      ghost var before := after;
      after := after[id := Exclusion(id, reason)];
      forall h, j | 0 <= h < g && 0 <= j < |groups[h]|
        ensures HasEntry(after, groups, ref, h, j, HeadReason(groups[h], limit, prepare))
      {
        assert HasEntry(before, groups, ref, h, j, HeadReason(groups[h], limit, prepare));
      }
      forall j | 0 <= j < i ensures HasEntry(after, groups, ref, g, j, reason) {
        assert HasEntry(before, groups, ref, g, j, reason);
      }
    }
  }

  lemma {:induction false} RunMembers<T>(groups: Groups<T>, start: nat, end: nat, ref: T -> OutRef, id: OutRef)
    requires start <= end <= |groups|
    ensures id in RefsOf(Run(groups, start, end), ref) <==>
      exists g, i :: start <= g < end && 0 <= i < |groups[g]| && IdAt(groups, ref, g, i) == id
    decreases end
  {
    hide RefId;
    if start == end {
      assert groups[start..end] == [];
    } else {
      var last := end - 1;
      RunMembers(groups, start, last, ref, id);
      RunExtends(groups, start, last);
      var earlier, all := Run(groups, start, last), Run(groups, start, end);
      assert RefsOf(all, ref) == RefsOf(earlier, ref) + RefsOf(groups[last], ref);
      if id in RefsOf(groups[last], ref) {
        var i :| 0 <= i < |groups[last]| && RefsOf(groups[last], ref)[i] == id;
        assert IdAt(groups, ref, last, i) == id;
      }
      if i :| 0 <= i < |groups[last]| && IdAt(groups, ref, last, i) == id {
        assert RefsOf(groups[last], ref)[i] == id;
      }
    }
  }

  /** In a normal input, the run's references are exactly those of its groups. */
  lemma RunIsItsGroups<T>(groups: Groups<T>, start: nat, end: nat, ref: T -> OutRef)
    requires start <= end <= |groups| && IsNormal(groups, ref)
    ensures forall g, i :: 0 <= g < |groups| && 0 <= i < |groups[g]| ==>
      (IdAt(groups, ref, g, i) in RefsOf(Run(groups, start, end), ref) <==> start <= g < end)
  {
    hide RefId, Run, RefsOf;
    forall g, i | 0 <= g < |groups| && 0 <= i < |groups[g]|
      ensures IdAt(groups, ref, g, i) in RefsOf(Run(groups, start, end), ref) <==> start <= g < end
    {
      RunMembers(groups, start, end, ref, IdAt(groups, ref, g, i));
    }
  }

  /** Every item has an entry with its reason, except those of the run. */
  ghost predicate Settled<T, P>(
    excluded: Excluded, groups: Groups<T>, start: nat, end: nat, limit: nat, ref: T -> OutRef,
    prepare: seq<T> -> Preparation<P>, g: nat, i: nat)
    requires g < |groups| && i < |groups[g]|
  {
    if start <= g < end then IdAt(groups, ref, g, i) !in excluded
    else HasEntry(excluded, groups, ref, g, i, ReasonAt(groups, g, start, limit, prepare))
  }

  /** Account for every item outside the successful run that has no earlier reason. */
  method ExcludeRemainder<T, P>(
    excluded: Excluded, groups: Groups<T>, start: nat, end: nat, limit: nat, ref: T -> OutRef,
    prepare: seq<T> -> Preparation<P>) returns (after: Excluded)
    requires IsNormal(groups, ref) && start <= end <= |groups|
    requires ExcludedBefore(excluded, groups, start, limit, ref, prepare)
    ensures forall g, i :: 0 <= g < |groups| && 0 <= i < |groups[g]| ==>
      Settled(after, groups, start, end, limit, ref, prepare, g, i)
  {
    hide RefId, HeadReason, IsReference, Run, IsNormal;
    var accepted := set id | id in RefsOf(Run(groups, start, end), ref);
    RunIsItsGroups(groups, start, end, ref);
    after := excluded;
    for g := 0 to |groups|
      invariant forall h, j :: 0 <= h < g && 0 <= j < |groups[h]| ==>
        Settled(after, groups, start, end, limit, ref, prepare, h, j)
      invariant forall h, j :: g <= h < |groups| && 0 <= j < |groups[h]| ==>
        (if h < start then Settled(after, groups, start, end, limit, ref, prepare, h, j) else IdAt(groups, ref, h, j) !in after)
    {
      for i := 0 to |groups[g]|
        invariant forall h, j :: 0 <= h < g && 0 <= j < |groups[h]| ==>
          Settled(after, groups, start, end, limit, ref, prepare, h, j)
        invariant forall j :: 0 <= j < i ==> Settled(after, groups, start, end, limit, ref, prepare, g, j)
        invariant forall j :: i <= j < |groups[g]| ==>
          (if g < start then Settled(after, groups, start, end, limit, ref, prepare, g, j) else IdAt(groups, ref, g, j) !in after)
        invariant forall h, j :: g < h < |groups| && 0 <= j < |groups[h]| ==>
          (if h < start then Settled(after, groups, start, end, limit, ref, prepare, h, j) else IdAt(groups, ref, h, j) !in after)
      {
        var id := RefId(ref(groups[g][i]));
        assert id == IdAt(groups, ref, g, i);
        OthersDiffer(groups, ref, g, i);
        if id !in accepted && id !in after {
          ghost var before := after;
          after := after[id := Exclusion(id, NeedsSeparateGroup)];
          forall h, j | 0 <= h < |groups| && 0 <= j < |groups[h]| && (h != g || j != i)
            && Settled(before, groups, start, end, limit, ref, prepare, h, j)
            ensures Settled(after, groups, start, end, limit, ref, prepare, h, j)
          {
          }
        }
      }
    }
  }

  /** List the entries in caller order. */
  method ListExcluded<T, P>(
    excluded: Excluded, groups: Groups<T>, start: nat, end: nat, limit: nat, ref: T -> OutRef,
    prepare: seq<T> -> Preparation<P>) returns (listed: seq<Exclusion>)
    requires start <= end <= |groups|
    requires forall g, i :: 0 <= g < |groups| && 0 <= i < |groups[g]| ==>
      Settled(excluded, groups, start, end, limit, ref, prepare, g, i)
    ensures listed == Omissions(groups, |groups|, start, end, limit, ref, prepare)
  {
    hide RefId, ReasonAt;
    listed := [];
    for g := 0 to |groups|
      invariant listed == Omissions(groups, g, start, end, limit, ref, prepare)
    {
      ghost var row := if start <= g < end then [] else Row(groups[g], ReasonAt(groups, g, start, limit, prepare), ref);
      ghost var before := listed;
      for i := 0 to |groups[g]|
        invariant listed == before + if start <= g < end then [] else row[..i]
      {
        assert Settled(excluded, groups, start, end, limit, ref, prepare, g, i);
        var id := RefId(ref(groups[g][i]));
        if id in excluded {
          listed := listed + [excluded[id]];
          assert row[..i + 1] == row[..i] + [excluded[id]];
        }
      }
      assert start <= g < end || row[..|groups[g]|] == row;
    }
  }

  /** Assemble the result of a finished search. */
  method Finish<T, P>(
    excluded: Excluded, groups: Groups<T>, start: nat, end: nat, prepared: Option<P>, attempts: seq<Attempt>, limit: nat,
    ref: T -> OutRef, prepare: seq<T> -> Preparation<P>) returns (r: Selected<T, P>)
    requires IsNormal(groups, ref) && start <= end <= |groups|
    requires ExcludedBefore(excluded, groups, start, limit, ref, prepare)
    ensures r.included == Run(groups, start, end) && r.includedRefs == RefsOf(r.included, ref)
    ensures r.prepared == prepared && r.attempts == attempts
    ensures r.excluded == Omissions(groups, |groups|, start, end, limit, ref, prepare)
  {
    hide IsNormal, ExcludedBefore, Omissions, Settled, Run;
    var included := Run(groups, start, end);
    var accounted := ExcludeRemainder(excluded, groups, start, end, limit, ref, prepare);
    var listed := ListExcluded(accounted, groups, start, end, limit, ref, prepare);
    return Selected(included, RefsOf(included, ref), listed, prepared, attempts);
  }

  lemma HeadStep<T, P>(groups: Groups<T>, start: nat, end: nat, ref: T -> OutRef, prepare: seq<T> -> Preparation<P>)
    requires start <= end <= |groups|
    ensures end == start ==>
      TryHead(groups, start, end, prepare) == Nothing && HeadAttempts(groups, start, end, ref, prepare) == []
    ensures end > start ==>
      match prepare(Run(groups, start, end))
      case Prepared(artifact) =>
        && TryHead(groups, start, end, prepare) == Chosen(start, end, artifact)
        && HeadAttempts(groups, start, end, ref, prepare) == [AttemptOf(Run(groups, start, end), ref, prepare)]
      case Broken(error) => TryHead(groups, start, end, prepare) == Aborted(error)
      case Exceeded(_, _) =>
        && TryHead(groups, start, end, prepare) == TryHead(groups, start, end - 1, prepare)
        && HeadAttempts(groups, start, end, ref, prepare)
           == [AttemptOf(Run(groups, start, end), ref, prepare)] + HeadAttempts(groups, start, end - 1, ref, prepare)
  {
    hide Run, AttemptOf;
  }

  /** One head: try its bounded prefixes, longest first. */
  method SearchHead<T, P>(
    groups: Groups<T>, start: nat, limit: nat, ref: T -> OutRef, prepare: seq<T> -> Preparation<P>)
    returns (found: Search<P>, attempts: seq<Attempt>, lastFailure: Option<string>)
    requires start < |groups|
    ensures
      var last := BoundedEnd(groups, start, start, limit);
      && found == TryHead(groups, start, last, prepare)
      && (!found.Aborted? ==> attempts == HeadAttempts(groups, start, last, ref, prepare))
      && (found.Nothing? && start < last ==>
            prepare(groups[start]).Exceeded? && lastFailure == Some(prepare(groups[start]).detail))
  {
    hide Run, AttemptOf, BoundedEnd, TryHead, HeadAttempts;
    ghost var last := BoundedEnd(groups, start, start, limit);
    var prefixes := BoundedPrefixes(groups, start, limit);
    attempts, lastFailure := [], None;
    for k := 0 to |prefixes|
      invariant TryHead(groups, start, last, prepare) == TryHead(groups, start, last - k, prepare)
      invariant HeadAttempts(groups, start, last, ref, prepare) == attempts + HeadAttempts(groups, start, last - k, ref, prepare)
      invariant k > 0 ==> var run := Run(groups, start, last - k + 1);
        prepare(run).Exceeded? && lastFailure == Some(prepare(run).detail)
    {
      var prefix := prefixes[k];
      HeadStep(groups, start, last - k, ref, prepare);
      var prepared := prepare(prefix);
      match prepared
      case Prepared(artifact) =>
        attempts := attempts + [AttemptOf(prefix, ref, prepare)];
        return Chosen(start, start + |prefixes| - k, artifact), attempts, lastFailure;
      case Broken(error) =>
        return Aborted(error), attempts, lastFailure;
      case Exceeded(resource, detail) =>
        attempts := attempts + [AttemptOf(prefix, ref, prepare)];
        lastFailure := Some(detail);
    }
    HeadStep(groups, start, start, ref, prepare);
    SingleRun(groups, start);
    return Nothing, attempts, lastFailure;
  }

  lemma SingleRun<T>(groups: Groups<T>, start: nat)
    requires start < |groups|
    ensures Run(groups, start, start + 1) == groups[start]
  {
    RunExtends(groups, start, start);
    assert Run(groups, start, start) == [];
  }

  /** A head fits the cap exactly when it has a bounded prefix. */
  lemma HeadFits<T>(groups: Groups<T>, start: nat, limit: nat)
    requires start < |groups|
    ensures |groups[start]| <= limit <==> start < BoundedEnd(groups, start, start, limit)
  {
    assert Run(groups, start, start) == [];
  }

  /** Validate all intent, then search; the result accounts for every supplied reference. */
  method Select<T, P>(
    groups: Groups<T>, ref: T -> OutRef, validateAll: seq<T> -> bool, prepare: seq<T> -> Preparation<P>, limit: nat)
    returns (r: Result<Selected<T, P>>)
    ensures r.Ok? <==>
      IsNormal(groups, ref) && validateAll(Flat(groups)) && !SearchFrom(groups, 0, limit, prepare).Aborted?
    ensures r.Ok? ==> Accounts(r.value, groups, limit, ref, prepare)
  {
    hide IsNormal, ExcludedBefore, Omissions, TryHead, HeadAttempts, BoundedEnd, Run, Flat;
    var normal := NormalizeGroups(groups, ref);
    if !normal || !validateAll(Flat(groups)) {
      return Err(InvalidShape);
    }
    var attempts: seq<Attempt>, excluded: Excluded := [], map[];
    NothingExcluded(groups, limit, ref, prepare);
    for start := 0 to |groups|
      invariant SearchFrom(groups, 0, limit, prepare) == SearchFrom(groups, start, limit, prepare)
      invariant AttemptsFrom(groups, 0, limit, ref, prepare) == attempts + AttemptsFrom(groups, start, limit, ref, prepare)
      invariant ExcludedBefore(excluded, groups, start, limit, ref, prepare)
    {
      HeadFits(groups, start, limit);
      var head := groups[start];
      if |head| > limit {
        OversizedHead(groups, start, limit, ref, prepare);
        excluded := Exclude(excluded, groups, start, ExceedsStructuralLimit, limit, ref, prepare);
      } else {
        var found, tried, lastFailure := SearchHead(groups, start, limit, ref, prepare);
        if found.Aborted? {
          return Err(found.error);
        }
        attempts := attempts + tried;
        if found.Chosen? {
          HeadIsMaximal(groups, start, limit, prepare);
          var finished := Finish(excluded, groups, start, found.end, Some(found.artifact), attempts, limit, ref, prepare);
          return Ok(finished);
        }
        var reason := if |head| == 1 then IndividualLimit(lastFailure.value) else AtomicGroupLimit(lastFailure.value);
        excluded := Exclude(excluded, groups, start, reason, limit, ref, prepare);
      }
    }
    EmptyRun(groups);
    var finished := Finish(excluded, groups, |groups|, |groups|, None, attempts, limit, ref, prepare);
    return Ok(finished);
  }

  lemma EmptyRun<T>(groups: Groups<T>)
    ensures Run(groups, |groups|, |groups|) == []
  {
  }

  lemma OversizedHead<T, P>(groups: Groups<T>, start: nat, limit: nat, ref: T -> OutRef, prepare: seq<T> -> Preparation<P>)
    requires start < |groups| && |groups[start]| > limit
    ensures
      var last := BoundedEnd(groups, start, start, limit);
      && TryHead(groups, start, last, prepare).Nothing? && HeadAttempts(groups, start, last, ref, prepare) == []
  {
    HeadFits(groups, start, limit);
  }

  lemma NothingExcluded<T, P>(groups: Groups<T>, limit: nat, ref: T -> OutRef, prepare: seq<T> -> Preparation<P>)
    ensures ExcludedBefore(map[], groups, 0, limit, ref, prepare)
  {
  }

  function ExcludedRefs(excluded: seq<Exclusion>): seq<OutRef> {
    seq(|excluded|, i requires 0 <= i < |excluded| => excluded[i].ref)
  }

  lemma {:induction false} FlatSplits<T>(groups: Groups<T>, m: nat, n: nat)
    requires m <= n <= |groups|
    ensures Flat(groups[..n]) == Flat(groups[..m]) + Run(groups, m, n)
    decreases n
  {
    if m == n {
      assert Run(groups, m, n) == [];
    } else {
      FlatSplits(groups, m, n - 1);
      RunExtends(groups, m, n - 1);
      assert groups[..n][..n - 1] == groups[..n - 1];
    }
  }

  lemma RefsConcat<T>(left: seq<T>, right: seq<T>, ref: T -> OutRef)
    ensures RefsOf(left + right, ref) == RefsOf(left, ref) + RefsOf(right, ref)
  {
    hide RefId;
  }

  lemma {:induction false} OmittedRefs<T, P>(
    groups: Groups<T>, n: nat, start: nat, end: nat, limit: nat, ref: T -> OutRef, prepare: seq<T> -> Preparation<P>)
    requires start <= end <= |groups| && n <= |groups|
    ensures ExcludedRefs(Omissions(groups, n, start, end, limit, ref, prepare))
         == RefsOf(Run(groups, 0, if n < start then n else start), ref)
            + (if end < n then RefsOf(Run(groups, end, n), ref) else [])
  {
    hide RefId, ReasonAt, Run;
    EmptyRunAt(groups, 0, ref);
    EmptyRunAt(groups, end, ref);
    if n > 0 {
      var g := n - 1;
      OmittedRefs(groups, g, start, end, limit, ref, prepare);
      var row := Row(groups[g], ReasonAt(groups, g, start, limit, prepare), ref);
      assert ExcludedRefs(row) == RefsOf(groups[g], ref);
      var earlier := Omissions(groups, g, start, end, limit, ref, prepare);
      assert ExcludedRefs(earlier + row) == ExcludedRefs(earlier) + ExcludedRefs(row);
      assert earlier + [] == earlier;
      if g < start {
        RunExtends(groups, 0, g);
        RefsConcat(Run(groups, 0, g), groups[g], ref);
      } else if end <= g {
        RunExtends(groups, end, g);
        RefsConcat(Run(groups, end, g), groups[g], ref);
      }
    }
  }

  lemma EmptyRunAt<T>(groups: Groups<T>, start: nat, ref: T -> OutRef)
    requires start <= |groups|
    ensures RefsOf(Run(groups, start, start), ref) == []
  {
  }

  /**
   * No reference is lost, repeated or reordered: the caller's references are the exclusions before the run, the run,
   * and the exclusions after it.
   */
  lemma SelectionPartitions<T, P>(
    r: Selected<T, P>, groups: Groups<T>, limit: nat, ref: T -> OutRef, prepare: seq<T> -> Preparation<P>)
    requires Accounts(r, groups, limit, ref, prepare)
    ensures exists k ::
      && 0 <= k <= |r.excluded|
      && RefsOf(Flat(groups), ref) == ExcludedRefs(r.excluded)[..k] + r.includedRefs + ExcludedRefs(r.excluded)[k..]
  {
    hide RefId, Omissions, AttemptsFrom, SearchFrom, Run, RefsOf;
    var found := SearchFrom(groups, 0, limit, prepare);
    var start, end := if found.Chosen? then found.start else |groups|, if found.Chosen? then found.end else |groups|;
    EmptyRun(groups);
    OmittedAround(groups, start, end, limit, ref, prepare);
    ThreeRuns(groups, start, end, ref);
    var before, after := RefsOf(Run(groups, 0, start), ref), RefsOf(Run(groups, end, |groups|), ref);
    var refs := ExcludedRefs(r.excluded);
    assert refs == before + after && |refs| == |r.excluded|;
    assert refs[..|before|] == before && refs[|before|..] == after;
  }

  lemma OmittedAround<T, P>(
    groups: Groups<T>, start: nat, end: nat, limit: nat, ref: T -> OutRef, prepare: seq<T> -> Preparation<P>)
    requires start <= end <= |groups|
    ensures ExcludedRefs(Omissions(groups, |groups|, start, end, limit, ref, prepare))
         == RefsOf(Run(groups, 0, start), ref) + RefsOf(Run(groups, end, |groups|), ref)
  {
    hide RefId, Omissions, Run, RefsOf;
    OmittedRefs(groups, |groups|, start, end, limit, ref, prepare);
    EmptyRunAt(groups, |groups|, ref);
  }

  lemma ThreeRuns<T>(groups: Groups<T>, start: nat, end: nat, ref: T -> OutRef)
    requires start <= end <= |groups|
    ensures RefsOf(Flat(groups), ref)
         == RefsOf(Run(groups, 0, start), ref) + RefsOf(Run(groups, start, end), ref) + RefsOf(Run(groups, end, |groups|), ref)
  {
    hide RefId, RefsOf;
    var n := |groups|;
    assert groups[..n] == groups && groups[..start] == groups[0..start];
    FlatSplits(groups, start, n);
    RunSplits(groups, start, end);
    RefsConcat(Run(groups, 0, start), Run(groups, start, n), ref);
    RefsConcat(Run(groups, start, end), Run(groups, end, n), ref);
  }

  lemma RunSplits<T>(groups: Groups<T>, start: nat, end: nat)
    requires start <= end <= |groups|
    ensures Run(groups, start, |groups|) == Run(groups, start, end) + Run(groups, end, |groups|)
  {
    FlatSplits(groups[start..], end - start, |groups| - start);
    assert groups[start..][..|groups| - start] == groups[start..|groups|];
    assert groups[start..][..end - start] == groups[start..end];
    assert groups[start..][end - start..|groups| - start] == groups[end..|groups|];
  }

  /** Authenticated pricing State and the immutable cap shared by all attempts of one selection. */
  datatype BatchSnapshot = BatchSnapshot(stateRef: OutRef, maxBatch: int)

  /** Price every attempt against one snapshot, and reject the result if a final read names another State. */
  method SelectNextBatch<T, P>(
    groups: Groups<T>, ref: T -> OutRef, before: BatchSnapshot, after: BatchSnapshot,
    validateAll: (seq<T>, BatchSnapshot) -> bool, prepare: (seq<T>, BatchSnapshot) -> Preparation<P>)
    returns (r: Result<(Selected<T, P>, OutRef)>)
    ensures r.Ok? <==>
      && 1 <= before.maxBatch <= 16 && IsReference(before.stateRef) && IsReference(after.stateRef)
      && IsNormal(groups, ref) && validateAll(Flat(groups), before)
      && !SearchFrom(groups, 0, before.maxBatch, items => prepare(items, before)).Aborted?
      && RefId(after.stateRef) == RefId(before.stateRef)
    ensures r.Ok? ==>
      && r.value.1 == before.stateRef
      && Accounts(r.value.0, groups, before.maxBatch, ref, items => prepare(items, before))
  {
    hide IsNormal, Accounts, SearchFrom, Flat;
    if before.maxBatch < 1 || 16 < before.maxBatch || !IsReference(before.stateRef) {
      return Err(OutOfRange);
    }
    var valid := (items: seq<T>) => validateAll(items, before);
    var prepared := (items: seq<T>) => prepare(items, before);
    var selected := Select(groups, ref, valid, prepared, before.maxBatch);
    if selected.Err? {
      return Err(selected.error);
    }
    if !IsReference(after.stateRef) || RefId(after.stateRef) != RefId(before.stateRef) {
      return Err(Stale);
    }
    return Ok((selected.value, before.stateRef));
  }

  /** What a reason says of an omitted group: whether it stands before the chosen run, and what was measured of it alone. */
  predicate Explains<T, P>(reason: Reason, group: seq<T>, before: bool, limit: nat, prepare: seq<T> -> Preparation<P>) {
    match reason
    case NeedsSeparateGroup => !before
    case ExceedsStructuralLimit => before && |group| > limit
    case IndividualLimit(detail) =>
      before && |group| <= limit && |group| == 1 && prepare(group).Exceeded? && prepare(group).detail == detail
    case AtomicGroupLimit(detail) =>
      before && |group| <= limit && |group| != 1 && prepare(group).Exceeded? && prepare(group).detail == detail
  }

  lemma {:induction false} FailedHeadExceeds<T, P>(groups: Groups<T>, start: nat, end: nat, prepare: seq<T> -> Preparation<P>)
    requires start < end <= |groups| && TryHead(groups, start, end, prepare).Nothing?
    ensures prepare(groups[start]).Exceeded?
    decreases end
  {
    SingleRun(groups, start);
    if start + 1 < end {
      FailedHeadExceeds(groups, start, end - 1, prepare);
    }
  }

  /** Every head that the search passed over either exceeds the cap or was measured to exceed a resource alone. */
  lemma {:induction false} PassedHeadsFail<T, P>(groups: Groups<T>, start: nat, limit: nat, prepare: seq<T> -> Preparation<P>, g: nat)
    requires start <= g < |groups| && !SearchFrom(groups, start, limit, prepare).Aborted?
    requires SearchFrom(groups, start, limit, prepare).Chosen? ==> g < SearchFrom(groups, start, limit, prepare).start
    ensures |groups[g]| > limit || prepare(groups[g]).Exceeded?
    decreases |groups| - start
  {
    hide TryHead;
    var end := BoundedEnd(groups, start, start, limit);
    HeadIsMaximal(groups, start, limit, prepare);
    HeadFits(groups, start, limit);
    if g > start {
      PassedHeadsFail(groups, start + 1, limit, prepare, g);
    } else if start < end {
      FailedHeadExceeds(groups, start, end, prepare);
    }
  }

  /** One omitted item: where it stands among the groups, and why it was left out. */
  predicate IsOmitted<T, P>(
    e: Exclusion, groups: Groups<T>, g: nat, i: nat, start: nat, end: nat, limit: nat, ref: T -> OutRef, prepare: seq<T> -> Preparation<P>)
  {
    && g < |groups| && i < |groups[g]| && !(start <= g < end)
    && e.ref == OutRef(Lower(ref(groups[g][i]).txId), ref(groups[g][i]).index)
    && Explains(e.reason, groups[g], g < start, limit, prepare)
  }

  lemma {:induction false} OmissionsAreExplained<T, P>(
    groups: Groups<T>, n: nat, start: nat, end: nat, limit: nat, ref: T -> OutRef, prepare: seq<T> -> Preparation<P>)
    requires n <= |groups| && start <= end <= |groups|
    requires forall g :: 0 <= g < start ==> |groups[g]| > limit || prepare(groups[g]).Exceeded?
    ensures forall e <- Omissions(groups, n, start, end, limit, ref, prepare) ::
      exists g, i :: IsOmitted(e, groups, g, i, start, end, limit, ref, prepare)
  {
    hide Lower, Explains;
    if n > 0 {
      OmissionsAreExplained(groups, n - 1, start, end, limit, ref, prepare);
      var g := n - 1;
      var reason := ReasonAt(groups, g, start, limit, prepare);
      if !(start <= g < end) {
        ReasonExplains(groups, g, start, limit, prepare);
        forall e | e in Row(groups[g], reason, ref)
          ensures exists g, i :: IsOmitted(e, groups, g, i, start, end, limit, ref, prepare)
        {
          var i :| 0 <= i < |groups[g]| && Row(groups[g], reason, ref)[i] == e;
          assert IsOmitted(e, groups, g, i, start, end, limit, ref, prepare);
        }
      }
    }
  }

  lemma ReasonExplains<T, P>(groups: Groups<T>, g: nat, start: nat, limit: nat, prepare: seq<T> -> Preparation<P>)
    requires g < |groups| && (g < start ==> |groups[g]| > limit || prepare(groups[g]).Exceeded?)
    ensures Explains(ReasonAt(groups, g, start, limit, prepare), groups[g], g < start, limit, prepare)
  {
  }

  /**
   * Every omission of a selection is explained: a group before the run was over the cap, or measured alone and refused with
   * the detail it carries, an item or a whole group of them; a group after the run was never measured.
   */
  lemma ReasonsAreMeasured<T, P>(
    r: Selected<T, P>, groups: Groups<T>, limit: nat, ref: T -> OutRef, prepare: seq<T> -> Preparation<P>)
    returns (start: nat, end: nat)
    requires Accounts(r, groups, limit, ref, prepare)
    ensures start <= end <= |groups| && (r.prepared.None? ==> start == |groups|)
    ensures r.included == Run(groups, start, end)
    ensures r.prepared.Some? ==> start < end && prepare(r.included) == Prepared(r.prepared.value)
    ensures forall e <- r.excluded :: exists g, i :: IsOmitted(e, groups, g, i, start, end, limit, ref, prepare)
  {
    hide IsOmitted, Omissions, AttemptsFrom, SearchFrom, Run, IsFeasible;
    var found := SearchFrom(groups, 0, limit, prepare);
    SearchIsMaximal(groups, 0, limit, prepare);
    start, end := if found.Chosen? then found.start else |groups|, if found.Chosen? then found.end else |groups|;
    EmptyRun(groups);
    forall g | 0 <= g < start ensures |groups[g]| > limit || prepare(groups[g]).Exceeded? {
      PassedHeadsFail(groups, 0, limit, prepare, g);
    }
    OmissionsAreExplained(groups, |groups|, start, end, limit, ref, prepare);
  }

  /** An attempt on a run within the cap: its references, and what preparing it measured. */
  predicate IsAttempt<T, P>(
    a: Attempt, groups: Groups<T>, s: nat, e: nat, limit: nat, ref: T -> OutRef, prepare: seq<T> -> Preparation<P>)
  {
    && s < e <= |groups| && |Run(groups, s, e)| <= limit && |a.refs| == |Run(groups, s, e)|
    && (forall i :: 0 <= i < |a.refs| ==>
          a.refs[i] == OutRef(Lower(ref(Run(groups, s, e)[i]).txId), ref(Run(groups, s, e)[i]).index))
    && match prepare(Run(groups, s, e))
       case Prepared(_) => a.outcome == Feasible
       case Exceeded(resource, detail) => a.outcome == ResourceLimit(resource, detail)
       case Broken(_) => false
  }

  lemma {:induction false} HeadAttemptsMean<T, P>(
    groups: Groups<T>, start: nat, end: nat, limit: nat, ref: T -> OutRef, prepare: seq<T> -> Preparation<P>)
    requires start <= end <= |groups| && !TryHead(groups, start, end, prepare).Aborted?
    requires forall e :: start <= e <= end ==> |Run(groups, start, e)| <= limit
    ensures
      var attempts, found := HeadAttempts(groups, start, end, ref, prepare), TryHead(groups, start, end, prepare);
      && |attempts| == (if found.Chosen? then end - found.end + 1 else end - start)
      && forall k :: 0 <= k < |attempts| ==> IsAttempt(attempts[k], groups, start, end - k, limit, ref, prepare)
    decreases end
  {
    hide Run, Lower;
    if start < end {
      TryHeadIsMaximal(groups, start, end, limit, prepare);
      var head := AttemptOf(Run(groups, start, end), ref, prepare);
      assert IsAttempt(head, groups, start, end, limit, ref, prepare);
      if prepare(Run(groups, start, end)).Exceeded? {
        HeadAttemptsMean(groups, start, end - 1, limit, ref, prepare);
        TryHeadIsMaximal(groups, start, end - 1, limit, prepare);
      }
    }
  }

  /**
   * A head is tried with every run within the cap, the longest first, down to the first that is prepared, or through all of
   * them when none is.
   */
  lemma HeadIsTriedInOrder<T, P>(groups: Groups<T>, start: nat, limit: nat, ref: T -> OutRef, prepare: seq<T> -> Preparation<P>)
    requires start < |groups|
    ensures
      var last := BoundedEnd(groups, start, start, limit);
      var attempts, found := HeadAttempts(groups, start, last, ref, prepare), TryHead(groups, start, last, prepare);
      && (forall e :: start <= e <= |groups| ==> (e <= last <==> |Run(groups, start, e)| <= limit))
      && (!found.Aborted? ==>
            && |attempts| == (if found.Chosen? then last - found.end + 1 else last - start)
            && forall k :: 0 <= k < |attempts| ==> IsAttempt(attempts[k], groups, start, last - k, limit, ref, prepare))
  {
    hide TryHead, HeadAttempts, IsAttempt;
    assert Run(groups, start, start) == [];
    forall e | start <= e <= |groups| ensures e <= BoundedEnd(groups, start, start, limit) <==> |Run(groups, start, e)| <= limit {
      BoundedEndIsExact(groups, start, start, limit, e);
    }
    if !TryHead(groups, start, BoundedEnd(groups, start, start, limit), prepare).Aborted? {
      HeadAttemptsMean(groups, start, BoundedEnd(groups, start, start, limit), limit, ref, prepare);
    }
  }

  /** The calls made for the heads from one to before another, whatever comes of them. */
  function CallsBefore<T, P>(groups: Groups<T>, start: nat, g: nat, limit: nat, ref: T -> OutRef, prepare: seq<T> -> Preparation<P>): nat
    requires start <= g <= |groups|
    decreases g
  {
    if g == start then 0
    else
      CallsBefore(groups, start, g - 1, limit, ref, prepare)
      + |HeadAttempts(groups, g - 1, BoundedEnd(groups, g - 1, g - 1, limit), ref, prepare)|
  }

  lemma {:induction false} CallsShift<T, P>(
    groups: Groups<T>, start: nat, g: nat, limit: nat, ref: T -> OutRef, prepare: seq<T> -> Preparation<P>)
    requires start < g <= |groups|
    ensures CallsBefore(groups, start, g, limit, ref, prepare)
         == |HeadAttempts(groups, start, BoundedEnd(groups, start, start, limit), ref, prepare)|
            + CallsBefore(groups, start + 1, g, limit, ref, prepare)
    decreases g
  {
    if g > start + 1 {
      CallsShift(groups, start, g - 1, limit, ref, prepare);
    }
  }

  /** The heads that a search tries: up to the one it chooses, or all of them. */
  function Tried<P>(found: Search<P>, groups: nat): nat {
    if found.Chosen? then found.start + 1 else groups
  }

  /** A search calls the oracle for each head in turn, up to the one it chooses, and for no other. */
  lemma {:induction false} AttemptsAreInOrder<T, P>(
    groups: Groups<T>, start: nat, limit: nat, ref: T -> OutRef, prepare: seq<T> -> Preparation<P>, g: nat)
    requires start <= |groups| && !SearchFrom(groups, start, limit, prepare).Aborted?
    ensures
      var attempts, found := AttemptsFrom(groups, start, limit, ref, prepare), SearchFrom(groups, start, limit, prepare);
      && start <= Tried(found, |groups|) <= |groups|
      && |attempts| == CallsBefore(groups, start, Tried(found, |groups|), limit, ref, prepare)
      && (start <= g < Tried(found, |groups|) ==>
            var head := HeadAttempts(groups, g, BoundedEnd(groups, g, g, limit), ref, prepare);
            var offset := CallsBefore(groups, start, g, limit, ref, prepare);
            offset + |head| <= |attempts| && attempts[offset..offset + |head|] == head)
    decreases |groups| - start
  {
    hide TryHead, HeadAttempts, BoundedEnd;
    SearchIsMaximal(groups, start, limit, prepare);
    if start < |groups| {
      HeadIsMaximal(groups, start, limit, prepare);
      var head := HeadAttempts(groups, start, BoundedEnd(groups, start, start, limit), ref, prepare);
      if TryHead(groups, start, BoundedEnd(groups, start, start, limit), prepare).Nothing? {
        AttemptsAreInOrder(groups, start + 1, limit, ref, prepare, g);
        SearchIsMaximal(groups, start + 1, limit, prepare);
        var found := SearchFrom(groups, start + 1, limit, prepare);
        CallsShift(groups, start, Tried(found, |groups|), limit, ref, prepare);
        if start < g <= |groups| {
          CallsShift(groups, start, g, limit, ref, prepare);
        }
      }
    }
  }
}
