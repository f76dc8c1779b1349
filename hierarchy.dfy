/** The hierarchy-stage tracker: every logger carries a `hierarchyStage`
    attribute, a record factory stamps each new record with its logger's
    stage, and two guards lower the stage for a scope. The Python globals
    (the logger objects' attributes and `formerLogFactory`) are the fields
    of one LogHierarchy object. */
module Hierarchy {
  import opened Records
  import opened Store

  /** What reading a logger's stage yields: its attribute, or -1 for a
      logger that has none. */
  function StageOf(stages: map<string, int>, logger: string): (stage: int)
  {
    if logger in stages then stages[logger] else -1
  }

  /** `lowerHierarchyStage`: one level deeper; fails on a logger without
      the attribute. */
  function Lowered(stages: map<string, int>, logger: string): (r: Result<map<string, int>>)
    ensures r == Err(AttributeError) <==> logger !in stages
    ensures r.Err? ==> r == Err(AttributeError)
    ensures r.Ok? ==> logger in r.value && r.value[logger] == stages[logger] + 1
    ensures r.Ok? ==> r.value - {logger} == stages - {logger}
  {
    if logger !in stages then Err(AttributeError)
    else Ok(stages[logger := stages[logger] + 1])
  }

  /** `raiseHierarchyStage`: one level up; fails on a logger without the
      attribute and, by its assertion, on a stage that is not above 0. */
  function Raised(stages: map<string, int>, logger: string): (r: Result<map<string, int>>)
    ensures r == Err(AttributeError) <==> logger !in stages
    ensures r == Err(AssertionError) <==> logger in stages && stages[logger] <= 0
    ensures r.Ok? ==> logger in r.value && r.value[logger] == stages[logger] - 1 >= 0
    ensures r.Ok? ==> r.value - {logger} == stages - {logger}
  {
    if logger !in stages then Err(AttributeError)
    else if !(stages[logger] > 0) then Err(AssertionError)
    else Ok(stages[logger := stages[logger] - 1])
  }

  /** Lowering and then raising a logger's stage gives back the stages it
      started from, for any logger at stage 0 or deeper. (A logger read as
      -1 and lowered to 0 cannot be raised again.) */
  lemma LowerThenRaise(stages: map<string, int>, logger: string)
    requires logger in stages && stages[logger] >= 0
    ensures Lowered(stages, logger).Ok?
    ensures Raised(Lowered(stages, logger).value, logger) == Ok(stages)
  {
    var lowered := Lowered(stages, logger).value;
    assert lowered[logger := lowered[logger] - 1] == stages;
  }

  class LogHierarchy {
    /** The `hierarchyStage` attribute of every logger that has one, by
        logger name. */
    var stages: map<string, int>
    /** Whether `formerLogFactory` is set, that is, whether the stamping
        record factory is installed. */
    var factoryInstalled: bool

    constructor()
      ensures stages == map[] && !factoryInstalled
    {
      stages := map[];
      factoryInstalled := false;
    }

    /** `initLogHierarchy(logger)`: puts the logger at stage 0 and installs
        the stamping factory; its assertion fails while a factory is still
        installed, before anything changes. */
    method InitLogHierarchy(logger: string) returns (o: Outcome)
      modifies this
      ensures factoryInstalled
      ensures old(factoryInstalled) ==> o == Failed(AssertionError) && stages == old(stages)
      ensures !old(factoryInstalled) ==> o == Done && stages == old(stages)[logger := 0]
    {
      if factoryInstalled {
        return Failed(AssertionError);
      }
      stages := stages[logger := 0];
      factoryInstalled := true;
      return Done;
    }

    /** `resetLogHierarchy()`: restores the former factory; the loggers keep
        their stages. */
    method ResetLogHierarchy()
      modifies this
      ensures !factoryInstalled && stages == old(stages)
    {
      factoryInstalled := false;
    }

    /** `__getHierarchyStage(logger)`: the logger's stage; a logger without
        the attribute reads as -1 and keeps -1 from then on. */
    method GetHierarchyStage(logger: string) returns (stage: int)
      modifies this
      ensures stage == StageOf(old(stages), logger)
      ensures logger in old(stages) ==> stages == old(stages)
      ensures logger !in old(stages) ==> stage == -1 && stages == old(stages)[logger := -1]
      ensures factoryInstalled == old(factoryInstalled)
    {
      if logger in stages {
        return stages[logger];
      }
      stages := stages[logger := -1];
      return -1;
    }

    /** `lowerHierarchyStage(logger)`. */
    method LowerHierarchyStage(logger: string) returns (o: Outcome)
      modifies this
      ensures o == Done <==> Lowered(old(stages), logger).Ok?
      ensures o == Done ==> stages == Lowered(old(stages), logger).value
      ensures o != Done ==> o == Failed(Lowered(old(stages), logger).error) && stages == old(stages)
      ensures factoryInstalled == old(factoryInstalled)
    {
      if logger !in stages {
        return Failed(AttributeError);
      }
      stages := stages[logger := stages[logger] + 1];
      return Done;
    }

    /** `raiseHierarchyStage(logger)`. */
    method RaiseHierarchyStage(logger: string) returns (o: Outcome)
      modifies this
      ensures o == Done <==> Raised(old(stages), logger).Ok?
      ensures o == Done ==> stages == Raised(old(stages), logger).value
      ensures o != Done ==> o == Failed(Raised(old(stages), logger).error) && stages == old(stages)
      ensures factoryInstalled == old(factoryInstalled)
    {
      if logger !in stages {
        return Failed(AttributeError);
      }
      if !(stages[logger] > 0) {
        return Failed(AssertionError);
      }
      stages := stages[logger := stages[logger] - 1];
      return Done;
    }

    /** The installed record factory: a record of `logger` carrying the
        logger's current stage. */
    method MakeRecord(logger: string, levelName: string, message: string) returns (record: LogRecord)
      requires factoryInstalled
      modifies this
      ensures record == LogRecord(logger, levelName, message, StageOf(old(stages), logger))
      ensures logger in old(stages) ==> stages == old(stages)
      ensures logger !in old(stages) ==> stages == old(stages)[logger := -1]
      ensures factoryInstalled
    {
      var stage := GetHierarchyStage(logger);
      record := LogRecord(logger, levelName, message, stage);
    }
  }

  /** A call such as `logger.info(message)` whose record reaches `handler`:
      the factory stamps the record, then the handler emits it. */
  method Log(hierarchy: LogHierarchy, handler: RecordingHandler, logger: string, levelName: string, message: string)
    returns (record: LogRecord)
    requires hierarchy.factoryInstalled && handler.Valid()
    modifies hierarchy, handler
    ensures hierarchy.factoryInstalled && handler.Valid()
    ensures record == LogRecord(logger, levelName, message, StageOf(old(hierarchy.stages), logger))
    ensures logger in old(hierarchy.stages) ==> hierarchy.stages == old(hierarchy.stages)
    ensures logger !in old(hierarchy.stages) ==> hierarchy.stages == old(hierarchy.stages)[logger := -1]
    ensures handler.history == old(handler.history) + [record]
  {
    record := hierarchy.MakeRecord(logger, levelName, message);
    handler.Emit(record);
  }

  /** `with EnterLowerLogHierarchyStage(msg, logger):` — construction logs
      `msg` at the current stage, entering lowers the stage and leaving
      raises it again. */
  class EnterLowerLogHierarchyStage {
    const logger: string
    const hierarchy: LogHierarchy

    constructor(msg: string, logger: string, hierarchy: LogHierarchy, handler: RecordingHandler)
      requires hierarchy.factoryInstalled && handler.Valid()
      modifies hierarchy, handler
      ensures this.logger == logger && this.hierarchy == hierarchy
      ensures hierarchy.factoryInstalled && handler.Valid()
      ensures handler.history == old(handler.history) + [LogRecord(logger, "INFO", msg, StageOf(old(hierarchy.stages), logger))]
      ensures logger in old(hierarchy.stages) ==> hierarchy.stages == old(hierarchy.stages)
      ensures logger !in old(hierarchy.stages) ==> hierarchy.stages == old(hierarchy.stages)[logger := -1]
      {
      this.logger := logger;
      this.hierarchy := hierarchy;
      new;
      var _ := Log(hierarchy, handler, logger, "INFO", msg);
    }

    /** `__enter__`. */
    method Enter() returns (o: Outcome)
      modifies hierarchy
      ensures o == Done <==> Lowered(old(hierarchy.stages), logger).Ok?
      ensures o == Done ==> hierarchy.stages == Lowered(old(hierarchy.stages), logger).value
      ensures o != Done ==> o == Failed(Lowered(old(hierarchy.stages), logger).error)
      ensures o != Done ==> hierarchy.stages == old(hierarchy.stages)
      ensures hierarchy.factoryInstalled == old(hierarchy.factoryInstalled)
    {
      o := hierarchy.LowerHierarchyStage(logger);
    }

    /** `__exit__`, taken on every way out of the `with` block. */
    method Exit() returns (o: Outcome)
      modifies hierarchy
      ensures o == Done <==> Raised(old(hierarchy.stages), logger).Ok?
      ensures o == Done ==> hierarchy.stages == Raised(old(hierarchy.stages), logger).value
      ensures o != Done ==> o == Failed(Raised(old(hierarchy.stages), logger).error)
      ensures o != Done ==> hierarchy.stages == old(hierarchy.stages)
      ensures hierarchy.factoryInstalled == old(hierarchy.factoryInstalled)
    {
      o := hierarchy.RaiseHierarchyStage(logger);
    }
  }

  /** `LowerLogHierarchyStage(logger)` — lowers the stage when created and
      raises it again when released at the end of the enclosing scope. */
  class LowerLogHierarchyStage {
    const logger: string
    const hierarchy: LogHierarchy

    constructor(logger: string, hierarchy: LogHierarchy)
      requires logger in hierarchy.stages
      modifies hierarchy
      ensures this.logger == logger && this.hierarchy == hierarchy
      ensures hierarchy.stages == Lowered(old(hierarchy.stages), logger).value
      ensures hierarchy.factoryInstalled == old(hierarchy.factoryInstalled)
    {
      this.logger := logger;
      this.hierarchy := hierarchy;
      new;
      var _ := hierarchy.LowerHierarchyStage(logger);
    }

    /** `__del__`. */
    method Release() returns (o: Outcome)
      modifies hierarchy
      ensures o == Done <==> Raised(old(hierarchy.stages), logger).Ok?
      ensures o == Done ==> hierarchy.stages == Raised(old(hierarchy.stages), logger).value
      ensures o != Done ==> o == Failed(Raised(old(hierarchy.stages), logger).error)
      ensures o != Done ==> hierarchy.stages == old(hierarchy.stages)
      ensures hierarchy.factoryInstalled == old(hierarchy.factoryInstalled)
    {
      o := hierarchy.RaiseHierarchyStage(logger);
    }
  }
}
