/** The durable history: rows of accepted blocks and a head, changed only by whole transactions. */
module Journals {
  import opened Results
  import opened Types
  import opened Readers

  datatype JournalState = JournalState(rows: seq<AcceptedBlock>, head: ChainPoint)

  /** Position of the row stored under a block hash, which is a unique column. */
  function RowOf(rows: seq<AcceptedBlock>, hash: Hex): (r: Option<nat>)
    ensures r.Some? ==> r.value < |rows| && rows[r.value].point.blockHash == hash
    ensures r.None? ==> forall i :: 0 <= i < |rows| ==> rows[i].point.blockHash != hash
  {
    if rows == [] then None
    else
      var earlier := RowOf(rows[..|rows| - 1], hash);
      if earlier.Some? then earlier
      else if rows[|rows| - 1].point.blockHash == hash then Some(|rows| - 1)
      else None
  }

  predicate UniqueHashes(rows: seq<AcceptedBlock>) {
    forall i, j :: 0 <= i < j < |rows| ==> rows[i].point.blockHash != rows[j].point.blockHash
  }

  function Appended(j: JournalState, block: AcceptedBlock): Result<JournalState> {
    var extended := JournalState(j.rows + [block], block.point);
    :- Need(j.head == block.parent && block.parent.slot < block.point.slot, Noncontiguous);
    :- Need(RowOf(j.rows, block.point.blockHash).None?, DuplicateReference);
    Ok(extended)
  }

  function RolledBack(j: JournalState, target: ChainPoint, expected: ChainPoint, intersection: ChainPoint): Result<JournalState> {
    var row := RowOf(j.rows, target.blockHash);
    :- Need(j.head == expected, Stale);
    if target == intersection then Ok(JournalState([], target))
    else
      :- Need(row.Some? && j.rows[row.value].point == target, UnknownPoint);
      Ok(JournalState(j.rows[..row.value + 1], target))
  }

  lemma HashFindsRow(rows: seq<AcceptedBlock>, i: nat)
    requires UniqueHashes(rows) && i < |rows|
    ensures RowOf(rows, rows[i].point.blockHash) == Some(i)
  {
    var row := RowOf(rows, rows[i].point.blockHash);
    assert row.Some?;
  }

  /** The journal finds a rollback point by hash and the reader by point; with unique hashes they keep the same blocks. */
  lemma RollbackAgreesWithReader(j: JournalState, target: ChainPoint, config: ReaderConfig)
    requires UniqueHashes(j.rows)
    ensures
      var kept := RetainedTo(j.rows, target, config);
      var rolled := RolledBack(j, target, j.head, config.intersection);
      && (rolled.Ok? <==> kept.Some?)
      && (kept.Some? ==> rolled.value == JournalState(kept.value, target))
  {
    var found := FindBlock(j.rows, target);
    if found.Some? {
      HashFindsRow(j.rows, found.value);
    }
  }

  lemma AppendedIsUnique(j: JournalState, block: AcceptedBlock)
    requires UniqueHashes(j.rows) && Appended(j, block).Ok?
    ensures UniqueHashes(Appended(j, block).value.rows)
    ensures Appended(j, block).value.rows == j.rows + [block]
  {
    var rows := j.rows + [block];
    forall i | 0 <= i < |j.rows| ensures rows[i].point.blockHash != block.point.blockHash {
      assert rows[i] == j.rows[i];
    }
  }

  /** Rolling back to the parent undoes an append exactly. */
  lemma AppendThenRollback(j: JournalState, block: AcceptedBlock, config: ReaderConfig)
    requires UniqueHashes(j.rows) && Contiguous(j.rows, config) && j.head == Head(j.rows, config)
    requires Appended(j, block).Ok?
    ensures UniqueHashes(Appended(j, block).value.rows)
    ensures RolledBack(Appended(j, block).value, block.parent, block.point, config.intersection) == Ok(j)
  {
    hide IsPoint, Contiguous, UniqueHashes;
    var extended := Appended(j, block).value;
    AppendedIsUnique(j, block);
    PointsAreDistinct(j.rows, config);
    if j.rows == [] {
      assert RolledBack(extended, block.parent, block.point, config.intersection).value.rows == [];
    } else {
      var last := |j.rows| - 1;
      assert extended.rows[last].point == block.parent && config.intersection.slot < block.parent.slot;
      HashFindsRow(extended.rows, last);
      assert extended.rows[..last + 1] == j.rows;
    }
  }

  /** A single-writer store whose operations commit whole or not at all. */
  class Journal {
    const intersection: ChainPoint
    var rows: seq<AcceptedBlock>
    var head: ChainPoint

    function State(): JournalState
      reads this
    {
      JournalState(rows, head)
    }

    constructor (intersection: ChainPoint)
      ensures this.intersection == intersection && State() == JournalState([], intersection)
    {
      this.intersection := intersection;
      rows, head := [], intersection;
    }

    /** Reopen the stored rows of an earlier process. */
    constructor Reopen(intersection: ChainPoint, stored: JournalState)
      ensures this.intersection == intersection && State() == stored
    {
      this.intersection := intersection;
      rows, head := stored.rows, stored.head;
    }

    method Append(block: AcceptedBlock) returns (done: Outcome)
      modifies this
      ensures done.Pass? <==> Appended(old(State()), block).Ok?
      ensures done.Pass? ==> Ok(State()) == Appended(old(State()), block)
      ensures done.Fail? ==> State() == old(State())
    {
      if head != block.parent || block.point.slot <= block.parent.slot {
        return Fail(Noncontiguous);
      }
      if RowOf(rows, block.point.blockHash).Some? {
        return Fail(DuplicateReference);
      }
      rows := rows + [block];
      head := block.point;
      return Pass;
    }

    method Rollback(target: ChainPoint, expected: ChainPoint) returns (done: Outcome)
      modifies this
      ensures done.Pass? <==> RolledBack(old(State()), target, expected, intersection).Ok?
      ensures done.Pass? ==> Ok(State()) == RolledBack(old(State()), target, expected, intersection)
      ensures done.Fail? ==> State() == old(State())
    {
      if head != expected {
        return Fail(Stale);
      }
      var row := RowOf(rows, target.blockHash);
      if target != intersection && (row.None? || rows[row.value].point != target) {
        return Fail(UnknownPoint);
      }
      rows := if target == intersection then [] else rows[..row.value + 1];
      head := target;
      return Pass;
    }
  }

  /** An append is accepted exactly on top of the head, at a later slot, under a new hash; it adds the row and moves the head. */
  lemma AppendIsExact(j: JournalState, block: AcceptedBlock)
    ensures Appended(j, block).Ok? <==>
      && block.parent == j.head && block.parent.slot < block.point.slot
      && forall i :: 0 <= i < |j.rows| ==> j.rows[i].point.blockHash != block.point.blockHash
    ensures Appended(j, block).Ok? ==> Appended(j, block).value == JournalState(j.rows + [block], block.point)
  {
  }

  /**
   * A rollback is accepted exactly at the expected head, to the intersection or to a stored point; it keeps the rows up to the
   * target, or none, and moves the head there.
   */
  lemma RollbackIsExact(j: JournalState, target: ChainPoint, expected: ChainPoint, intersection: ChainPoint)
    requires UniqueHashes(j.rows)
    ensures RolledBack(j, target, expected, intersection).Ok? <==>
      j.head == expected && (target == intersection || exists i :: 0 <= i < |j.rows| && j.rows[i].point == target)
    ensures RolledBack(j, target, expected, intersection).Ok? && target == intersection ==>
      RolledBack(j, target, expected, intersection).value == JournalState([], target)
    ensures forall i :: 0 <= i < |j.rows| && j.rows[i].point == target && target != intersection && j.head == expected ==>
      RolledBack(j, target, expected, intersection) == Ok(JournalState(j.rows[..i + 1], target))
  {
    forall i | 0 <= i < |j.rows| && j.rows[i].point == target ensures RowOf(j.rows, target.blockHash) == Some(i) {
      HashFindsRow(j.rows, i);
    }
  }
}
