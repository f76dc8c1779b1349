# hlog: hierarchical log records, modelled in Dafny

`hlog` adds nesting to Python's `logging`. The model has two parts.

**The hierarchy-stage tracker.**
- Every logger carries a `hierarchyStage` counter.
- A record factory stamps each new record with its logger's current stage.
- Two guards lower the stage for a scope:
  - `EnterLowerLogHierarchyStage` is a `with` block;
  - `LowerLogHierarchyStage` lasts for the life of an object.

**The `RecordingHandler` store.**
- It keeps the most recent `maxCntRecords` records in a bounded deque.
- It counts every record it has ever received in `entireAdded`.
- It addresses records by an absolute index.
- It never stores the nesting. Instead it rebuilds the tree from the stages:
  - a backward scan finds a record's parent;
  - forward scans find a record's children.

## Modules

- `Records` (`records.dfy`) holds the shared values:
  - the record (logger name, level name, message, stamped stage);
  - the three Python exceptions the model represents (`AssertionError`, `IndexError`, `AttributeError`), as values;
  - `Option`, `Result` and `Outcome`.
- `Navigation` (`navigation.dfy`) holds the specification of the tree.
  - Its functions work on the whole emission history, indexed by absolute record index:
    - `Children` is the forward scan;
    - `LastShallower` and `Parent` are the backward scan.
  - Its lemmas say what those scans compute, and the lemmas `ChildHasParent` and `ParentedIsChild` relate parents and children to each other.
- `Store` (`recording_handler.dfy`) has the class `RecordingHandler`, with the source's fields `maxCntRecords`, `records` (a `seq`, playing the deque) and `entireAdded`.
  - A ghost `history` holds every record ever emitted. The absolute index of a record is its position in `history`, because `emit` never stores an index on the record.
  - `Valid()` says that the deque holds exactly the window of `history` from `minIdx()` on.
  - The three scans are `while` loops proved against the `Navigation` functions. The pure reads are functions.
- `Hierarchy` (`hierarchy.dfy`) puts the tracker's state into the class `LogHierarchy`:
  - `stages` is a map from logger name to its `hierarchyStage` attribute;
  - `factoryInstalled` is true while the global `formerLogFactory` is set.

  The module also holds the two guard classes and `Log`, which stamps a record and emits it to a handler.
- `Scenarios` (`scenarios.dfy`) replays the unit tests in `hlog/hlogTest.py` against the model. Each test's assertions become the postcondition of a method.

The store receives records only through `emit`. The record factory does not talk to the store: it only sets each record's stage, read through `__getHierarchyStage`.

Logger lookup, level thresholds and handler attachment are not modelled. `Log` takes the logger name and the handler as explicit parameters.

### Notes on the source's behaviour

- `raiseHierarchyStage` asserts `hierarchyStage > 0` (hlog/hlog.py:49), so it fails at -1 as well as at 0.
  - Model: `Hierarchy.Raised`.
- `__getHierarchyStage` reads a logger without the attribute as -1 and stores -1 on it (hlog/hlog.py:36-41).
  - Lowering such a logger gives 0, which cannot be raised. So a guard used on such a logger fails on exit.
  - Model: `Scenarios.InitResetAndUnstaged`.
- `resetLogHierarchy()` (hlog/hlog.py:30-34) never fails, takes no argument and keeps every stage.
- `emit` (hlog/hlog.py:107-109) stores no index on the record. An absolute index is a position in the emission order, not a field.
- `record(idx)` asserts `relIdx < maxCntRecords`, not `relIdx < len(records)` (hlog/hlog.py:127).
  - An index past the newest record, read while the deque is not yet full, gets through the assertion.
  - The deque subscript then raises `IndexError` (hlog/hlog.py:128).
  - Model: `Store.RecordingHandler.Record`.
- A record at stage -1 takes the stage-0 records right after it as its children in `getChildren` (hlog/hlog.py:142-145). Yet `parentIdx` returns none for each of them, because their stage is not above 0 (hlog/hlog.py:171-172).
  - Model: `Navigation.UnstagedAdoptsOrphans`.
- A record at stage -1 also ends the top-level scan `getChildren(None)`, whose base stage is -1 (hlog/hlog.py:137, 142-143).
  - Model: `Navigation.UnstagedEndsRootScan`.

## Model

| member | source | states |
|---|---|---|
| Store.DequeAppend | hlog/hlog.py:104-109 | appending to a deque of `maxlen` keeps `min(len+1, maxlen)` elements: the newest ones, ending in the new record |
| Store.RecordingHandler.constructor | hlog/hlog.py:101-105 | a new handler holds no records, has counted none, and is valid |
| Store.RecordingHandler.MaxIdx | hlog/hlog.py:111-112 | `maxIdx()` is the index of the newest record emitted, and `maxIdx() - minIdx() + 1` is the number of records held |
| Store.RecordingHandler.MinIdx | hlog/hlog.py:114-115 | `minIdx()` is 0 until the deque is full; after that it is exactly `maxCntRecords` below the count, so never more than that many records are held |
| Store.RecordingHandler.RelIdx | hlog/hlog.py:120 | the slot formula `min(idx, idx - (entireAdded - maxCntRecords))` used by `at`, `getChildren`, `cntChildren` and `parentIdx` equals `idx - minIdx()`, the formula of `record`, for every `idx` |
| Store.RecordingHandler.Emit | hlog/hlog.py:107-109 | the counter grows by exactly 1; the record becomes the newest of the history and `at(maxIdx())` (when capacity is positive); every held record still held keeps its index and content; `minIdx()` moves by 1 exactly when the deque was already full; validity is preserved |
| Store.RecordingHandler.At | hlog/hlog.py:117-123 | `at(idx)` returns a record iff `idx` is given and `minIdx() <= idx <= maxIdx()`, and then it is the record emitted with that index |
| Store.RecordingHandler.Record | hlog/hlog.py:125-128 | `record(idx)` returns the record of index `idx` iff the index is held; an assertion failure iff `idx` is below `minIdx()` or `maxCntRecords` or more above it; a subscript error iff `idx` is past `maxIdx()` but less than `maxCntRecords` above `minIdx()`, which can happen only before the deque is full |
| Store.RecordingHandler.GetChildren | hlog/hlog.py:130-147 | the loop returns exactly the forward scan `Children` from the record after `idx`, or from `minIdx()` below stage -1 when no index is given |
| Store.RecordingHandler.CntChildren | hlog/hlog.py:149-166 | the counting loop returns the length of that same scan, so it equals the length of `getChildren` for the same argument |
| Store.RecordingHandler.ParentIdx | hlog/hlog.py:168-179 | the backward loop returns exactly `Parent` of `idx` within the held window |
| Store.RecordingHandler.ParentRecord | hlog/hlog.py:181-185 | returns a record iff the record has a parent, and then it is the parent's record |
| Navigation.ChildrenIncreasing | hlog/hlog.py:139-147 | the scanned children are indices from the scan start up to the newest record, strictly increasing |
| Navigation.ChildrenExactly | hlog/hlog.py:140-146 | `j` is a scanned child iff it is exactly one level below the parent and every record between the scan start and `j` is deeper than the parent; deeper records are skipped, and the first record at or above the parent's stage ends the scan |
| Navigation.LastShallower | hlog/hlog.py:173-179 | the backward scan finds the largest index in `[lo, hi)` whose record is shallower than `depth`, and finds none iff no record in that range is shallower |
| Navigation.Parent | hlog/hlog.py:168-179 | none for a record at stage 0 or less; otherwise the largest earlier held index whose record is shallower, with every record in between at least as deep; none iff there is no such index |
| Navigation.ChildHasParent | hlog/hlog.py:130-179 | every child collected by the forward scan from a record `p` at stage 0 or deeper has `p` as its parent |
| Navigation.ParentedIsChild | hlog/hlog.py:130-179 | a record that has parent `p` and sits exactly one level below `p` is among the children collected from `p` |
| Navigation.UnstagedAdoptsOrphans | hlog/hlog.py:142-145 | a record at stage -1 collects the stage-0 records after it as children, yet none of them has a parent, since `parentIdx` gives none at stage 0 (hlog/hlog.py:171-172) |
| Navigation.UnstagedEndsRootScan | hlog/hlog.py:137-143 | a record at stage -1 ends the top-level scan: every top-level record found lies before it |
| Hierarchy.Lowered | hlog/hlog.py:44-45 | lowering adds 1 to the logger's stage and leaves every other logger alone; it fails with an attribute error iff the logger has no stage |
| Hierarchy.Raised | hlog/hlog.py:48-50 | raising subtracts 1 and leaves every other logger alone; it fails with an attribute error iff the logger has no stage, and with an assertion failure iff its stage is 0 or less; a successful raise never goes below 0 |
| Hierarchy.LowerThenRaise | hlog/hlog.py:44-50 | lowering and then raising a logger at stage 0 or deeper gives back exactly the stages it started from |
| Hierarchy.LogHierarchy.constructor | hlog/hlog.py:5 | at the start no logger has a stage and no factory is installed |
| Hierarchy.LogHierarchy.InitLogHierarchy | hlog/hlog.py:12-28 | while a factory is installed it fails by assertion and changes nothing; otherwise it puts the logger at stage 0 and installs the factory |
| Hierarchy.LogHierarchy.ResetLogHierarchy | hlog/hlog.py:30-34 | uninstalls the factory and keeps every stage |
| Hierarchy.LogHierarchy.GetHierarchyStage | hlog/hlog.py:36-41 | returns the logger's stage; a logger without one reads as -1 and is left at -1 |
| Hierarchy.LogHierarchy.LowerHierarchyStage | hlog/hlog.py:44-45 | changes the stages exactly as `Lowered`, or fails with an attribute error and changes nothing |
| Hierarchy.LogHierarchy.RaiseHierarchyStage | hlog/hlog.py:48-50 | changes the stages exactly as `Raised`, or fails with `Raised`'s error and changes nothing |
| Hierarchy.LogHierarchy.MakeRecord | hlog/hlog.py:22-26 | the factory's record carries its logger's stage as it was when the record was created |
| Hierarchy.Log | hlog/hlog.py:22-26 | a logged record is stamped with its logger's current stage and becomes the newest record of the handler's history |
| Hierarchy.EnterLowerLogHierarchyStage.constructor | hlog/hlog.py:59-62 | the guard logs its message at INFO, stamped with the stage before lowering |
| Hierarchy.EnterLowerLogHierarchyStage.Enter | hlog/hlog.py:64-65 | entering the block lowers the stage exactly as `Lowered`, or fails with `Lowered`'s error and changes nothing |
| Hierarchy.EnterLowerLogHierarchyStage.Exit | hlog/hlog.py:67-68 | leaving the block raises the stage exactly as `Raised`, or fails with `Raised`'s error and changes nothing |
| Hierarchy.LowerLogHierarchyStage.constructor | hlog/hlog.py:91-93 | constructing the guard lowers the stage exactly as `Lowered` |
| Hierarchy.LowerLogHierarchyStage.Release | hlog/hlog.py:95-96 | releasing the guard raises the stage exactly as `Raised`, or fails with `Raised`'s error and changes nothing |
| Scenarios.SetUp | hlog/hlogTest.py:16-29 | a fresh tracker with the factory installed and logger `test` at stage 0 |
| Scenarios.FillLog | hlog/hlogTest.py:42-47 | two nested guards leave the records "00", "10", "20", "11", "01" at stages 0, 1, 2, 1, 0 |
| Scenarios.FillLogTree | hlog/hlogTest.py:171-196 | on those stages the scan finds children [1, 3] for record 0, [2] for record 1, none for records 2, 3 and 4, and top-level records [0, 4] |
| Scenarios.FillLogBounds | hlog/hlogTest.py:154-169 | after fillLog, `maxIdx()` is 4, `minIdx()` is 0, `at(5)` is none, `at(3)` is "11" and `record(4)` is "01" |
| Scenarios.FillLogParents | hlog/hlogTest.py:198-213 | after fillLog the parents are none, 0, 1, 0, none, and the parent records are none, "00", "10", "00", none |
| Scenarios.FillLogChildren | hlog/hlogTest.py:171-196 | after fillLog, getChildren gives [1, 3], [2], [], [], [] and cntChildren gives 2, 1, 0, 0, 0; with no index they give [0, 4] and 2 |
| Scenarios.CapacityTen | hlog/hlogTest.py:61-73 | with capacity 10, after "0".."9" `at(0)` is "0" and `at(9)` is "9"; after "10", `at(0)` is none, `at(1)` is "1" and `at(10)` is "10" |
| Scenarios.EnterLowerStages | hlog/hlogTest.py:119-133 | the guard's own message is at stage 0, the body at 1, and the record after the block at 0 again |
| Scenarios.LowerForScopeStages | hlog/hlogTest.py:137-150 | the record made while the guard lives is at stage 1, and the records before it and after its release are at stage 0 |
| Scenarios.InitResetAndUnstaged | hlog/hlog.py:12-50 | a second `initLogHierarchy` fails until `resetLogHierarchy`; a logger that was never initialised stamps -1 and keeps -1; once lowered to 0 it cannot be raised |

## Left out

- Tk and Qt widget code, demos, `HLogFormatter` and `HLogFileReader`: this is rendering and file formats, not the store or the tracker.
- Level filtering, filtered children and custom levels: `getFilteredChildren`, `cntFilteredChildren` and `levelNamesFilter` are used by the tests but defined nowhere in the source. The model has only the unfiltered `getChildren` and `cntChildren`, and the children scenarios lift no level filter.
- Python `logging` plumbing: logger lookup by name, level thresholds, handler attachment and locking, `FileHandler`, and `setLogRecordFactory`/`getLogRecordFactory`. What remains is the effect: a record made while the factory is installed carries its logger's stage. Every logged record reaches the handler, as under `setLevel(DEBUG)` in the tests.
- The root-logger default argument of the tracker functions and guards: every call names its logger.
- `HLogRecord` (hlog/hlog.py:71-81): the factory does not use it, and its `idx` and `showSubrecords` fields are never set by the core.
- The `isinstance(msg, str)` assertion of `EnterLowerLogHierarchyStage`: the type of `msg` guarantees it.
- `__del__` timing: CPython calls it when the last reference goes. The model has an explicit `Release`, called by the scenario where the function scope ends.
- The deque is a `seq` that `Emit` reassigns. The model does not capture in-place mutation or aliasing of the deque object.
- Store.RecordingHandler.GetChildren: this requires `minIdx() <= idx <= maxIdx()`.
  - Outside that range the source indexes the deque with no check.
  - A negative slot reads from the other end of the deque, by Python's wrap-around. A slot past the end raises `IndexError`.
  - Neither case is modelled.
- Store.RecordingHandler.CntChildren: requires the same range, for the same reason.
- Store.RecordingHandler.ParentIdx: requires the same range, for the same reason.
- Store.RecordingHandler.ParentRecord: requires the same range, for the same reason.
- Hierarchy.Log: this requires the factory to be installed. A record made without the stamping factory has no `hierarchyStage` attribute at all, and the store's scans would fail on it. The model has only stamped records.
- Hierarchy.LogHierarchy.MakeRecord: requires the factory to be installed, for the same reason.
- Hierarchy.EnterLowerLogHierarchyStage.constructor: requires the factory to be installed, because the guard logs its message through `Log`. Without the factory, the source logs an unstamped record (hlog/hlog.py:59-62), which the model does not represent.
- Store.RecordingHandler.constructor: `maxCntRecords` is a `nat`. A negative capacity makes `deque(maxlen=…)` raise `ValueError` (hlog/hlog.py:104), which is not modelled.
- Python's `TypeError` for `parentIdx(None)` or `record(None)` is not modelled: those members take an `int`.
- Hierarchy.LowerLogHierarchyStage.constructor: this requires the logger to have a stage. In the source, constructing the guard on a logger without the attribute raises `AttributeError` from the constructor. A Dafny constructor cannot report that as a value.
- Hierarchy.EnterLowerLogHierarchyStage.Exit: a failed raise here is an exception, which `__exit__` would propagate out of the `with` block. The model returns it as an `Outcome`.
- Hierarchy.LowerLogHierarchyStage.Release: a failed raise in `__del__` is only printed by Python. The model returns it as an `Outcome`.
- The test suite's `tearDown` calls `resetLogHierarchy(self.logger)`, although the function takes no argument (hlog/hlogTest.py:36). The call is not modelled.
