/** The tree of records, rebuilt from each record's hierarchy stage alone.
    Every definition works on the whole emission history `s`, indexed by
    absolute record index; `lo` is the oldest index still held. */
module Navigation {
  import opened Records

  ghost predicate StrictlyIncreasing(xs: seq<int>)
  {
    forall a, b :: 0 <= a < b < |xs| ==> xs[a] < xs[b]
  }

  /** `j` is a direct child found by a forward scan that starts at `from`
      below a parent of stage `base`: `j` is exactly one level deeper, and
      no record between `from` and `j` is at or above the parent's stage. */
  ghost predicate IsChildAt(s: seq<LogRecord>, base: int, from: int, j: int)
  {
    0 <= from <= j < |s| && s[j].hierarchyStage == base + 1 &&
    (forall k :: from <= k < j ==> s[k].hierarchyStage > base)
  }

  /** The forward scan of getChildren and cntChildren: collect the records
      one level below `base`, step over deeper ones, and stop at the first
      record at or above `base`. */
  function Children(s: seq<LogRecord>, base: int, from: nat): (r: seq<int>)
    decreases |s| - from
  {
    if from >= |s| || s[from].hierarchyStage <= base then []
    else if s[from].hierarchyStage == base + 1 then [from] + Children(s, base, from + 1)
    else Children(s, base, from + 1)
  }

  /** The scan yields held indices from `from` on, in increasing order and
      so without repetition. */
  lemma {:induction false} ChildrenIncreasing(s: seq<LogRecord>, base: int, from: nat)
    ensures forall i :: 0 <= i < |Children(s, base, from)| ==> from <= Children(s, base, from)[i] < |s|
    ensures StrictlyIncreasing(Children(s, base, from))
    decreases |s| - from
  {
    if from >= |s| || s[from].hierarchyStage <= base {
    } else {
      ChildrenIncreasing(s, base, from + 1);
    }
  }

  /** The scan collects exactly the direct children and nothing else. */
  lemma {:induction false} ChildrenExactly(s: seq<LogRecord>, base: int, from: nat, j: int)
    ensures j in Children(s, base, from) <==> IsChildAt(s, base, from, j)
    decreases |s| - from
  {
    if from >= |s| || s[from].hierarchyStage <= base {
    } else {
      ChildrenExactly(s, base, from + 1, j);
      if j != from && IsChildAt(s, base, from, j) {
        assert IsChildAt(s, base, from + 1, j);
      }
    }
  }

  /** The backward scan of parentIdx: the nearest index below `hi`, and at
      or above `lo`, whose record is shallower than `depth`. */
  function LastShallower(s: seq<LogRecord>, lo: nat, depth: int, hi: nat): (r: Option<int>)
    requires lo <= hi <= |s|
    ensures r.Some? ==> lo <= r.value < hi && s[r.value].hierarchyStage < depth
    ensures r.Some? ==> (forall k :: r.value < k < hi ==> s[k].hierarchyStage >= depth)
    ensures r.None? <==> (forall k :: lo <= k < hi ==> s[k].hierarchyStage >= depth)
    decreases hi
  {
    if hi == lo then None
    else if s[hi - 1].hierarchyStage < depth then Some(hi - 1)
    else LastShallower(s, lo, depth, hi - 1)
  }

  /** The parent of record `i`: none for a top-level (or unstaged) record,
      otherwise the largest earlier held index whose record is shallower. */
  function Parent(s: seq<LogRecord>, lo: nat, i: nat): (r: Option<int>)
    requires lo <= i < |s|
    ensures r.Some? ==> s[i].hierarchyStage > 0 && lo <= r.value < i
    ensures r.Some? ==> s[r.value].hierarchyStage < s[i].hierarchyStage
    ensures r.Some? ==> (forall k :: r.value < k < i ==> s[k].hierarchyStage >= s[i].hierarchyStage)
    ensures r.None? <==>
      s[i].hierarchyStage <= 0 || (forall k :: lo <= k < i ==> s[k].hierarchyStage >= s[i].hierarchyStage)
  {
    if s[i].hierarchyStage <= 0 then None
    else LastShallower(s, lo, s[i].hierarchyStage, i)
  }

  /** A direct child found by the scan below a concrete parent `p` has `p`
      as its parent: the two traversals agree. */
  lemma ChildHasParent(s: seq<LogRecord>, lo: nat, p: nat, j: int)
    requires lo <= p < |s| && s[p].hierarchyStage >= 0
    requires IsChildAt(s, s[p].hierarchyStage, p + 1, j)
    ensures Parent(s, lo, j) == Some(p)
  {
  }

  /** Conversely, a record whose parent is `p` and which sits exactly one
      level below it is one of the children the forward scan from `p`
      collects. */
  lemma ParentedIsChild(s: seq<LogRecord>, lo: nat, p: int, j: nat)
    requires lo <= j < |s| && Parent(s, lo, j) == Some(p)
    requires s[j].hierarchyStage == s[p].hierarchyStage + 1
    ensures j in Children(s, s[p].hierarchyStage, p + 1)
  {
    ChildrenExactly(s, s[p].hierarchyStage, p + 1, j);
  }

  /** A record at stage -1 (a logger that was never initialised) adopts the
      stage-0 records right after it as children, yet none of them has it,
      or anything else, as its parent: `parentIdx` stops at stage 0. */
  lemma UnstagedAdoptsOrphans(s: seq<LogRecord>, lo: nat, p: nat, j: nat)
    requires lo <= p < |s| && s[p].hierarchyStage == -1
    requires IsChildAt(s, s[p].hierarchyStage, p + 1, j)
    ensures j in Children(s, s[p].hierarchyStage, p + 1)
    ensures Parent(s, lo, j) == None
  {
    ChildrenExactly(s, s[p].hierarchyStage, p + 1, j);
  }

  /** A record at stage -1 or above ends the top-level scan: no top-level
      record after it is found. */
  lemma UnstagedEndsRootScan(s: seq<LogRecord>, from: nat, k: nat)
    requires from <= k < |s| && s[k].hierarchyStage <= -1
    ensures forall j :: j in Children(s, -1, from) ==> j < k
  {
    forall j | j in Children(s, -1, from)
      ensures j < k
    {
      ChildrenExactly(s, -1, from, j);
    }
  }
}
