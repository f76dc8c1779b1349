/** The bounded record store: a handler that keeps the most recent
    `maxCntRecords` records in a deque and addresses every record by its
    absolute index, the number of records emitted before it. */
module Store {
  import opened Records
  import opened Navigation

  /** The capacity a handler gets when none is given. */
  const DefaultMaxCntRecords: nat := 100000

  /** `append` on a deque whose `maxlen` is `maxlen`: the new element goes on
      the right, and once the deque is full the leftmost element falls off. */
  function DequeAppend(d: seq<LogRecord>, maxlen: nat, x: LogRecord): (r: seq<LogRecord>)
    requires |d| <= maxlen
    ensures |r| == Min(|d| + 1, maxlen)
    ensures r == (d + [x])[|d| + 1 - |r|..]
  {
    if |d| < maxlen then d + [x]
    else if maxlen == 0 then []
    else d[1..] + [x]
  }

  /** A deque holding the window of `h` from `m` on still holds the window
      of `h + [x]` from the new oldest index after `x` is appended. */
  lemma DequeAppendWindow(d: seq<LogRecord>, h: seq<LogRecord>, m: nat, maxlen: nat, x: LogRecord)
    requires |d| <= maxlen && m + |d| == |h|
    requires m == 0 || |d| == maxlen
    requires forall k :: 0 <= k < |d| ==> d[k] == h[m + k]
    ensures |DequeAppend(d, maxlen, x)| == |h| + 1 - Max(0, |h| + 1 - maxlen)
    ensures forall k :: 0 <= k < |DequeAppend(d, maxlen, x)| ==>
      DequeAppend(d, maxlen, x)[k] == (h + [x])[Max(0, |h| + 1 - maxlen) + k]
  {
  }

  class RecordingHandler {
    const maxCntRecords: nat
    /** The deque of retained records, oldest first. */
    var records: seq<LogRecord>
    /** The number of records ever emitted. */
    var entireAdded: nat
    /** Every record ever emitted; `history[i]` is the record of absolute index `i`. */
    ghost var history: seq<LogRecord>

    /** The deque holds exactly the history from minIdx() on. */
    ghost predicate Valid()
      reads this
    {
      |history| == entireAdded &&
      |records| == entireAdded - MinIdx() &&
      forall k :: 0 <= k < |records| ==> records[k] == history[MinIdx() + k]
    }

    constructor(maxCntRecords: nat)
      ensures Valid()
      ensures this.maxCntRecords == maxCntRecords
      ensures entireAdded == 0 && records == [] && history == []
    {
      this.maxCntRecords := maxCntRecords;
      records := [];
      entireAdded := 0;
      history := [];
    }

    /** Absolute index of the newest record; the deque holds the records
        minIdx() .. maxIdx(). */
    function MaxIdx(): (r: int)
      reads this
      requires Valid()
      ensures r == |history| - 1
      ensures r - MinIdx() + 1 == |records|
    {
      entireAdded - 1
    }

    /** Absolute index of the oldest record still held: nothing is evicted
        until the deque holds maxCntRecords records, and it never holds
        more. */
    function MinIdx(): (m: nat)
      reads this
      ensures m <= entireAdded && entireAdded - m <= maxCntRecords
      ensures m == 0 || entireAdded - m == maxCntRecords
    {
      Max(0, entireAdded - maxCntRecords)
    }

    /** The slot formula that at, getChildren, cntChildren and parentIdx use
        to turn an absolute index into a deque position; it agrees with the
        plain `idx - minIdx()` that `record` uses. */
    function RelIdx(idx: int): (r: int)
      reads this
      ensures r == idx - MinIdx()
    {
      Min(idx, idx - (entireAdded - maxCntRecords))
    }

    /** Appends a record: the counter grows by one, the record gets the next
        absolute index, and the oldest record is dropped once the deque is
        full. Every other held record keeps its index and content. */
    method Emit(record: LogRecord)
      requires Valid()
      modifies this
      ensures Valid()
      ensures entireAdded == old(entireAdded) + 1
      ensures history == old(history) + [record]
      ensures records == DequeAppend(old(records), maxCntRecords, record)
      ensures MinIdx() == old(MinIdx()) + (if old(entireAdded) >= maxCntRecords then 1 else 0)
      ensures maxCntRecords > 0 ==> At(Some(MaxIdx())) == Some(record)
      ensures forall i :: MinIdx() <= i < MaxIdx() ==> At(Some(i)) == old(At(Some(i)))
    {
      ghost var m := MinIdx();
      DequeAppendWindow(records, history, m, maxCntRecords, record);
      entireAdded := entireAdded + 1;
      records := DequeAppend(records, maxCntRecords, record);
      history := history + [record];
      assert MinIdx() == Max(0, |history| - maxCntRecords);
      assert Valid();
      forall i | MinIdx() <= i < MaxIdx()
        ensures At(Some(i)) == old(At(Some(i)))
      {
        assert old(At(Some(i))) == Some(old(history)[i]);
        assert At(Some(i)) == Some(history[i]);
      }
    }

    /** `at(idx)`: the record of absolute index `idx` while it is held, none
        otherwise and none for no index. */
    function At(idx: Option<int>): (r: Option<LogRecord>)
      reads this
      requires Valid()
      ensures r.Some? <==> idx.Some? && MinIdx() <= idx.value <= MaxIdx()
      ensures r.Some? ==> r.value == history[idx.value]
    {
      if idx.None? then None
      else
        var relIdx := RelIdx(idx.value);
        if relIdx < |records| && relIdx >= 0 then Some(records[relIdx]) else None
    }

    /** `record(idx)`: the record of a held index; a failed assertion below
        the held range or past `maxCntRecords` slots, and a deque subscript
        error past the newest record while the deque is not yet full. */
    function Record(idx: int): (r: Result<LogRecord>)
      reads this
      requires Valid()
      ensures r.Ok? <==> MinIdx() <= idx <= MaxIdx()
      ensures r.Ok? ==> r.value == history[idx]
      ensures r == Err(AssertionError) <==> idx < MinIdx() || idx >= MinIdx() + maxCntRecords
      ensures r == Err(IndexError) <==> MaxIdx() < idx < MinIdx() + maxCntRecords
      ensures r == Err(IndexError) ==> entireAdded < maxCntRecords
    {
      var relIdx := idx - MinIdx();
      if !(relIdx >= 0 && relIdx < maxCntRecords) then Err(AssertionError)
      else if relIdx >= |records| then Err(IndexError)
      else Ok(records[relIdx])
    }

    /** Stage of the parent whose children are scanned: -1 for the root. */
    ghost function ScanBase(idx: Option<int>): int
      reads this
      requires Valid()
      requires idx.Some? ==> MinIdx() <= idx.value <= MaxIdx()
    {
      if idx.Some? then history[idx.value].hierarchyStage else -1
    }

    /** First absolute index the child scan looks at. */
    ghost function ScanFrom(idx: Option<int>): nat
      reads this
      requires idx.Some? ==> MinIdx() <= idx.value
    {
      if idx.Some? then idx.value + 1 else MinIdx()
    }

    /** `getChildren(idx)`: the absolute indices of the direct children of
        record `idx`, or of the top-level records when no index is given. */
    method GetChildren(idx: Option<int>) returns (children: seq<int>)
      requires Valid()
      requires idx.Some? ==> MinIdx() <= idx.value <= MaxIdx()
      ensures children == Children(history, ScanBase(idx), ScanFrom(idx))
    {
      var parentHierarchyStage: int;
      var relChildIdx: int;
      if idx.Some? {
        var relIdx := RelIdx(idx.value);
        var record := records[relIdx];
        parentHierarchyStage := record.hierarchyStage;
        relChildIdx := relIdx + 1;
      } else {
        parentHierarchyStage := -1;
        relChildIdx := 0;
      }
      ghost var h, m := history, MinIdx();
      ghost var from := ScanFrom(idx);
      assert from == m + relChildIdx && parentHierarchyStage == ScanBase(idx);
      ghost var all := Children(h, parentHierarchyStage, from);
      children := [];
      while relChildIdx <= MaxIdx() - MinIdx()
        invariant 0 <= relChildIdx <= |records|
        invariant all == children + Children(h, parentHierarchyStage, m + relChildIdx)
        decreases |records| - relChildIdx
      {
        var child := records[relChildIdx];
        assert child == h[m + relChildIdx];
        if child.hierarchyStage <= parentHierarchyStage {
          assert Children(h, parentHierarchyStage, m + relChildIdx) == [];
          break;
        }
        if child.hierarchyStage == parentHierarchyStage + 1 {
          assert Children(h, parentHierarchyStage, m + relChildIdx)
            == [m + relChildIdx] + Children(h, parentHierarchyStage, m + relChildIdx + 1);
          assert children + ([m + relChildIdx] + Children(h, parentHierarchyStage, m + relChildIdx + 1))
            == (children + [m + relChildIdx]) + Children(h, parentHierarchyStage, m + relChildIdx + 1);
          children := children + [relChildIdx + MinIdx()];
        }
        relChildIdx := relChildIdx + 1;
      }
      assert children == all;
    }

    /** `cntChildren(idx)`: the same traversal as getChildren, counting. */
    method CntChildren(idx: Option<int>) returns (cnt: int)
      requires Valid()
      requires idx.Some? ==> MinIdx() <= idx.value <= MaxIdx()
      ensures cnt == |Children(history, ScanBase(idx), ScanFrom(idx))|
    {
      var parentHierarchyStage: int;
      var relChildIdx: int;
      if idx.Some? {
        var relIdx := RelIdx(idx.value);
        var record := records[relIdx];
        parentHierarchyStage := record.hierarchyStage;
        relChildIdx := relIdx + 1;
      } else {
        parentHierarchyStage := -1;
        relChildIdx := 0;
      }
      ghost var h, m := history, MinIdx();
      ghost var from := ScanFrom(idx);
      assert from == m + relChildIdx && parentHierarchyStage == ScanBase(idx);
      ghost var total := |Children(h, parentHierarchyStage, from)|;
      cnt := 0;
      while relChildIdx <= MaxIdx() - MinIdx()
        invariant 0 <= relChildIdx <= |records|
        invariant total == cnt + |Children(h, parentHierarchyStage, m + relChildIdx)|
        decreases |records| - relChildIdx
      {
        var child := records[relChildIdx];
        assert child == h[m + relChildIdx];
        if child.hierarchyStage <= parentHierarchyStage {
          assert Children(h, parentHierarchyStage, m + relChildIdx) == [];
          break;
        }
        if child.hierarchyStage == parentHierarchyStage + 1 {
          cnt := cnt + 1;
        }
        relChildIdx := relChildIdx + 1;
      }
    }

    /** `parentIdx(idx)`: the absolute index of the parent of record `idx`. */
    method ParentIdx(idx: int) returns (parent: Option<int>)
      requires Valid()
      requires MinIdx() <= idx <= MaxIdx()
      ensures parent == Parent(history, MinIdx(), idx)
    {
      var relIdx := RelIdx(idx);
      var record := records[relIdx];
      if record.hierarchyStage <= 0 {
        return None;
      }
      ghost var h, m := history, MinIdx();
      assert record == h[idx];
      ghost var target := Parent(h, m, idx);
      assert target == LastShallower(h, m, record.hierarchyStage, idx);
      relIdx := relIdx - 1;
      while relIdx >= 0
        invariant -1 <= relIdx < |records|
        invariant target == LastShallower(h, m, record.hierarchyStage, m + relIdx + 1)
      {
        assert records[relIdx] == h[m + relIdx];
        if records[relIdx].hierarchyStage < record.hierarchyStage {
          assert target == Some(m + relIdx);
          return Some(MinIdx() + relIdx);
        }
        relIdx := relIdx - 1;
      }
      return None;
    }

    /** `parentRecord(idx)`: the parent's record, or none. */
    method ParentRecord(idx: int) returns (parent: Option<LogRecord>)
      requires Valid()
      requires MinIdx() <= idx <= MaxIdx()
      ensures parent.Some? <==> Parent(history, MinIdx(), idx).Some?
      ensures parent.Some? ==> parent.value == history[Parent(history, MinIdx(), idx).value]
    {
      var p := ParentIdx(idx);
      if p.Some? {
        var r := Record(p.value);
        return Some(r.value);
      }
      return None;
    }
  }
}
