/** The unit tests of the hierarchical log, replayed against the model:
    each method builds a fresh tracker and handler, drives them as the test
    does, and states in its postcondition what the test asserts. */
module Scenarios {
  import opened Records
  import opened Navigation
  import opened Store
  import opened Hierarchy

  /** A tracker with the stamping factory installed and logger `name` at
      stage 0, as every test's setUp leaves it. */
  method SetUp(name: string) returns (hierarchy: LogHierarchy)
    ensures fresh(hierarchy)
    ensures hierarchy.factoryInstalled && hierarchy.stages == map[name := 0]
  {
    hierarchy := new LogHierarchy();
    var initialised := hierarchy.InitLogHierarchy(name);
  }

  /** The records fillLog leaves in the handler, at stages [0, 1, 2, 1, 0]. */
  function FillLogRecords(): seq<LogRecord>
  {
    [LogRecord("test", "INFO", "00", 0),
     LogRecord("test", "INFO", "10", 1),
     LogRecord("test", "DEBUG", "20", 2),
     LogRecord("test", "WARNING", "11", 1),
     LogRecord("test", "WARNING", "01", 0)]
  }

  /** The tree the navigation rebuilds from fillLog's stages: "00" holds
      "10" and "11", "10" holds "20", and "00" and "01" are the top level. */
  lemma FillLogTree()
    ensures Children(FillLogRecords(), 0, 1) == [1, 3]
    ensures Children(FillLogRecords(), 1, 2) == [2]
    ensures Children(FillLogRecords(), 2, 3) == []
    ensures Children(FillLogRecords(), 1, 4) == []
    ensures Children(FillLogRecords(), 0, 5) == []
    ensures Children(FillLogRecords(), -1, 0) == [0, 4]
  {
  }

  /** The test helper fillLog: two nested `with` guards, giving the stages
      [0, 1, 2, 1, 0] to the messages "00", "10", "20", "11", "01". */
  method FillLog(hierarchy: LogHierarchy, handler: RecordingHandler)
    requires hierarchy.factoryInstalled && "test" in hierarchy.stages && hierarchy.stages["test"] == 0
    requires handler.Valid() && handler.history == []
    modifies hierarchy, handler
    ensures handler.Valid()
    ensures handler.history == FillLogRecords()
  {
    var outer := new EnterLowerLogHierarchyStage("00", "test", hierarchy, handler);
    var o1 := outer.Enter();
    var inner := new EnterLowerLogHierarchyStage("10", "test", hierarchy, handler);
    var o2 := inner.Enter();
    assert hierarchy.stages["test"] == 2;
    var r1 := Log(hierarchy, handler, "test", "DEBUG", "20");
    assert handler.history == FillLogRecords()[..3];
    var o3 := inner.Exit();
    var r2 := Log(hierarchy, handler, "test", "WARNING", "11");
    var o4 := outer.Exit();
    assert hierarchy.stages["test"] == 0;
    var r3 := Log(hierarchy, handler, "test", "WARNING", "01");
  }

  /** test_maxIdx, test_minIdx, test_at and test_record on the records of
      fillLog. */
  method FillLogBounds() returns (maxIdx: int, minIdx: int, at5: Option<LogRecord>, message3: string, message4: string)
    ensures maxIdx == 4 && minIdx == 0
    ensures at5 == None && message3 == "11" && message4 == "01"
  {
    var hierarchy := SetUp("test");
    var handler := new RecordingHandler(DefaultMaxCntRecords);
    FillLog(hierarchy, handler);
    maxIdx, minIdx := handler.MaxIdx(), handler.MinIdx();
    at5 := handler.At(Some(5));
    message3 := handler.At(Some(3)).value.message;
    message4 := handler.Record(4).value.message;
  }

  /** test_parentIdx and test_parentRecord on the records of fillLog. */
  method FillLogParents() returns (parents: seq<Option<int>>, parentRecords: seq<Option<string>>)
    ensures parents == [None, Some(0), Some(1), Some(0), None]
    ensures parentRecords == [None, Some("00"), Some("10"), Some("00"), None]
  {
    var hierarchy := SetUp("test");
    var handler := new RecordingHandler(DefaultMaxCntRecords);
    FillLog(hierarchy, handler);
    var p0 := handler.ParentIdx(0);
    var p1 := handler.ParentIdx(1);
    var p2 := handler.ParentIdx(2);
    var p3 := handler.ParentIdx(3);
    var p4 := handler.ParentIdx(4);
    ghost var s := handler.history;
    assert LastShallower(s, 0, 1, 2) == Some(0);
    parents := [p0, p1, p2, p3, p4];
    var r0 := handler.ParentRecord(0);
    var r1 := handler.ParentRecord(1);
    var r2 := handler.ParentRecord(2);
    var r3 := handler.ParentRecord(3);
    var r4 := handler.ParentRecord(4);
    parentRecords := [MessageOf(r0), MessageOf(r1), MessageOf(r2), MessageOf(r3), MessageOf(r4)];
  }

  /** The message of a record, if there is one. */
  function MessageOf(r: Option<LogRecord>): (message: Option<string>)
  {
    if r.Some? then Some(r.value.message) else None
  }

  /** test_getChildren and test_cntChildren with every level let through:
      the children of 0, 1, 2, 3, 4 and of no record. */
  method FillLogChildren() returns (children: seq<seq<int>>, counts: seq<int>, rootChildren: seq<int>, rootCount: int)
    ensures children == [[1, 3], [2], [], [], []]
    ensures counts == [2, 1, 0, 0, 0]
    ensures rootChildren == [0, 4] && rootCount == 2
  {
    var hierarchy := SetUp("test");
    var handler := new RecordingHandler(DefaultMaxCntRecords);
    FillLog(hierarchy, handler);
    ghost var s := handler.history;
    var c0 := handler.GetChildren(Some(0));
    var c1 := handler.GetChildren(Some(1));
    var c2 := handler.GetChildren(Some(2));
    var c3 := handler.GetChildren(Some(3));
    var c4 := handler.GetChildren(Some(4));
    var n0 := handler.CntChildren(Some(0));
    var n1 := handler.CntChildren(Some(1));
    var n2 := handler.CntChildren(Some(2));
    var n3 := handler.CntChildren(Some(3));
    var n4 := handler.CntChildren(Some(4));
    rootChildren := handler.GetChildren(None);
    rootCount := handler.CntChildren(None);
    FillLogTree();
    children := [c0, c1, c2, c3, c4];
    counts := [n0, n1, n2, n3, n4];
  }

  /** test_RecordingHandler: a handler of capacity 10 receiving "0" .. "10". */
  method CapacityTen()
    returns (before0: string, before9: string, after0: Option<LogRecord>, after1: string, after10: string)
    ensures before0 == "0" && before9 == "9"
    ensures after0 == None && after1 == "1" && after10 == "10"
  {
    var hierarchy := SetUp("test");
    var handler := new RecordingHandler(10);
    var messages := ["0", "1", "2", "3", "4", "5", "6", "7", "8", "9", "10"];
    for i := 0 to 10
      invariant handler.Valid() && handler.maxCntRecords == 10
      invariant hierarchy.factoryInstalled && hierarchy.stages == map["test" := 0]
      invariant |handler.history| == i
      invariant forall k :: 0 <= k < i ==> handler.history[k].message == messages[k]
    {
      var _ := Log(hierarchy, handler, "test", "INFO", messages[i]);
    }
    before0 := handler.At(Some(0)).value.message;
    before9 := handler.At(Some(9)).value.message;
    var _ := Log(hierarchy, handler, "test", "INFO", messages[10]);
    after0 := handler.At(Some(0));
    after1 := handler.At(Some(1)).value.message;
    after10 := handler.At(Some(10)).value.message;
  }

  /** test_EnterLowerLogHierarchyStage: the guard's own message keeps the
      outer stage, the body is one deeper, and the stage is back after. */
  method EnterLowerStages() returns (stamped: seq<int>)
    ensures stamped == [0, 0, 1, 0]
  {
    var hierarchy := SetUp("test");
    var handler := new RecordingHandler(DefaultMaxCntRecords);
    var r0 := Log(hierarchy, handler, "test", "INFO", "Started");
    var guard := new EnterLowerLogHierarchyStage("Function hier", "test", hierarchy, handler);
    assert handler.history[1].hierarchyStage == 0 && hierarchy.stages["test"] == 0;
    var entered := guard.Enter();
    assert hierarchy.stages["test"] == 1;
    var r2 := Log(hierarchy, handler, "test", "INFO", "Function ist doing something");
    var exited := guard.Exit();
    assert hierarchy.stages["test"] == 0;
    var r3 := Log(hierarchy, handler, "test", "INFO", "Finished");
    assert |handler.history| == 4 && handler.history[2] == r2 && handler.history[3] == r3;
    assert handler.history[0].hierarchyStage == 0 && handler.history[1].hierarchyStage == 0;
    assert handler.MinIdx() == 0 && handler.MaxIdx() == 3;
    stamped := [
      handler.At(Some(0)).value.hierarchyStage,
      handler.At(Some(1)).value.hierarchyStage,
      handler.At(Some(2)).value.hierarchyStage,
      handler.At(Some(3)).value.hierarchyStage];
  }

  /** test_LowerLogHierarchyStage: the stage is one deeper while the guard
      lives and back once it is released. */
  method LowerForScopeStages() returns (stamped: seq<int>)
    ensures stamped == [0, 1, 0]
  {
    var hierarchy := SetUp("test");
    var handler := new RecordingHandler(DefaultMaxCntRecords);
    var r0 := Log(hierarchy, handler, "test", "INFO", "Started");
    var guard := new LowerLogHierarchyStage("test", hierarchy);
    var r1 := Log(hierarchy, handler, "test", "INFO", "Function ist doing something");
    var released := guard.Release();
    var r2 := Log(hierarchy, handler, "test", "INFO", "Finished");
    stamped := [
      handler.At(Some(0)).value.hierarchyStage,
      handler.At(Some(1)).value.hierarchyStage,
      handler.At(Some(2)).value.hierarchyStage];
  }

  /** initLogHierarchy fails while a factory is installed and works again
      after resetLogHierarchy; a logger that was never initialised reads
      as -1, keeps -1, and after lowering sits at stage 0, which cannot be
      raised. */
  method InitResetAndUnstaged()
    returns (first: Outcome, second: Outcome, third: Outcome,
             unstaged: int, kept: int, lowered: Outcome, raised: Outcome)
    ensures first == Done && second == Failed(AssertionError) && third == Done
    ensures unstaged == -1 && kept == -1
    ensures lowered == Done && raised == Failed(AssertionError)
  {
    var hierarchy := new LogHierarchy();
    first := hierarchy.InitLogHierarchy("test");
    second := hierarchy.InitLogHierarchy("test");
    hierarchy.ResetLogHierarchy();
    third := hierarchy.InitLogHierarchy("test");
    var handler := new RecordingHandler(DefaultMaxCntRecords);
    var record := Log(hierarchy, handler, "other", "INFO", "outside");
    unstaged := record.hierarchyStage;
    kept := hierarchy.stages["other"];
    lowered := hierarchy.LowerHierarchyStage("other");
    raised := hierarchy.RaiseHierarchyStage("other");
  }
}
