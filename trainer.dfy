/**
 * The model trainer: split the matrices, build the registry, take the
 * name-to-score report, pick the winner, gate it on the floor, record a
 * tracking run and save the winner. Every effect on the outside world
 * (experiment tracking and the artifact file) is an event appended to a trace.
 */
module Trainer {
  import opened Wrappers
  import opened ColumnSplit
  import opened Registry
  import opened Selection
  import opened MetricKeys

  const ExperimentName: string := "Student_Performance_Prediction"
  /** `os.path.join("artifacts", "model.pkl")` on a POSIX system. */
  const ModelPath: string := "artifacts/model.pkl"

  datatype RunStatus = Finished | Failed

  /** One effect on the tracking store or the file system. */
  datatype Event =
    | SetExperiment(experiment: string)
    | StartRun(runName: string)
    | LogParam(key: string, text: string)
    | LogMetric(key: string, value: real)
    | LogModel(artifactPath: string, model: Estimator)
    | EndRun(status: RunStatus)
    | Save(path: string, model: Estimator)

  /** Why the operation raised; every cause reaches the caller wrapped in the same exception type. */
  datatype Failure =
    | ShapeError          // a matrix has no column to take the target from
    | EvaluationFailed    // the opaque evaluation helper raised
    | EmptyReport         // `max` of no scores
    | UnknownModel(name: string)  // `models[name]` raised KeyError
    | NoBestModel         // "No best model found": the best score is below the floor
    | TrackingFailed      // a call inside the tracking run raised
    | SaveFailed          // writing the artifact raised

  /** What the foreign libraries report about the winning model: `str(get_params())` and its four test metrics. */
  datatype WinnerStats = WinnerStats(params: string, r2: real, mae: real, mse: real, rmse: real)

  /**
   * Everything the trainer receives from code it cannot see: whether the
   * optional library imported, the evaluation helper's report (`None` when it
   * raised), the winner's statistics, which call inside the run raises
   * (`failAt`, counted from 0) and whether saving raises.
   */
  datatype Environment = Environment(
    catBoostAvailable: bool,
    report: Option<Report>,
    winner: WinnerStats,
    failAt: Option<nat>,
    saveFails: bool)

  datatype Outcome = Outcome(result: Result<real, Failure>, events: seq<Event>)

  function RunName(name: string): string
  {
    "Best_Model_" + name
  }

  /** The parameters, headline metrics and model artifact logged for the winner, in call order. */
  function HeadlineCalls(name: string, model: Estimator, w: WinnerStats): seq<Event>
  {
    [LogParam("model_name", name), LogParam("best_params", w.params),
     LogMetric("r2_score", w.r2), LogMetric("mae", w.mae), LogMetric("mse", w.mse), LogMetric("rmse", w.rmse),
     LogModel("model", model)]
  }

  /** One metric per report entry, in report order, keyed by the sanitised family name. */
  function FamilyMetrics(report: Report): seq<Event>
  {
    seq(|report|, i requires 0 <= i < |report| => LogMetric(MetricKey(report[i].0), report[i].1))
  }

  /** Every tracking call made inside the run, in order, when none of them raises. */
  function RunCalls(name: string, model: Estimator, w: WinnerStats, report: Report): seq<Event>
  {
    HeadlineCalls(name, model, w) + FamilyMetrics(report)
  }

  /** Whether one of the calls inside the run raises. */
  predicate RunRaises(calls: seq<Event>, failAt: Option<nat>)
  {
    failAt.Some? && failAt.value < |calls|
  }

  /**
   * The events of the tracking run for the winner: the run is started, the
   * calls are logged up to the first that raises, and the run is ended,
   * marked failed if a call raised.
   */
  function RunEvents(name: string, model: Estimator, w: WinnerStats, report: Report, failAt: Option<nat>): seq<Event>
  {
    var calls := RunCalls(name, model, w, report);
    if RunRaises(calls, failAt) then [StartRun(RunName(name))] + calls[..failAt.value] + [EndRun(Failed)]
    else [StartRun(RunName(name))] + calls + [EndRun(Finished)]
  }

  /**
   * The result and the events of one training call. The run is opened only
   * for an accepted winner and is closed on every path that opened it; the
   * artifact is saved only after the run closed normally.
   */
  function Train(train: Matrix, test: Matrix, env: Environment): (o: Outcome)
    requires WellFormed(train) && WellFormed(test)
    ensures o.events == [] <==> o.result == Err(ShapeError)
    ensures o.events != [] ==> o.events[0] == SetExperiment(ExperimentName)
    ensures o.result.Ok? ==> o.result.value == env.winner.r2
    ensures o.result.Err? && o.result.error != TrackingFailed && o.result.error != SaveFailed ==> |o.events| <= 1
  {
    if SplitLastColumn(train).None? || SplitLastColumn(test).None? then Outcome(Err(ShapeError), [])
    else
      var prelude := [SetExperiment(ExperimentName)];
      match env.report
      case None => Outcome(Err(EvaluationFailed), prelude)
      case Some(report) =>
        if report == [] then Outcome(Err(EmptyReport), prelude)
        else
          var name := BestName(report);
          match Lookup(Build(env.catBoostAvailable), name)
          case None => Outcome(Err(UnknownModel(name)), prelude)
          case Some(model) =>
            if !Accepts(BestScore(report)) then Outcome(Err(NoBestModel), prelude)
            else
              var tail := RecordAndSave(name, model, report, env);
              Outcome(tail.result, prelude + tail.events)
  }

  /**
   * What follows acceptance: the tracking run, then the save if the run
   * closed normally. The result is the winner's r2 only when both succeeded.
   */
  function RecordAndSave(name: string, model: Estimator, report: Report, env: Environment): (o: Outcome)
    ensures |o.events| >= 2 && o.events[0] == StartRun(RunName(name))
    ensures o.result.Ok? ==> o.result.value == env.winner.r2 && o.events[|o.events| - 1] == Save(ModelPath, model)
    ensures o.result.Err? ==> o.result.error == TrackingFailed || o.result.error == SaveFailed
    ensures o.result == Err(SaveFailed) ==> o.events[|o.events| - 1] == EndRun(Finished)
  {
    var run := RunEvents(name, model, env.winner, report, env.failAt);
    if RunRaises(RunCalls(name, model, env.winner, report), env.failAt) then Outcome(Err(TrackingFailed), run)
    else if env.saveFails then Outcome(Err(SaveFailed), run)
    else Outcome(Ok(env.winner.r2), run + [Save(ModelPath, model)])
  }

  /**
   * How far the body of the tracking run has got: the trace `t` holds `base`
   * followed by the calls made so far. Once a call has raised, nothing more
   * is logged and `failAt` names that call.
   */
  ghost predicate InRun(t: seq<Event>, base: seq<Event>, calls: seq<Event>, failAt: Option<nat>, made: nat, raised: bool)
  {
    && made <= |calls|
    && (raised ==> made > 0 && failAt == Some(made - 1) && t == base + calls[..made - 1])
    && (!raised ==> t == base + calls[..made] && (failAt.Some? ==> failAt.value >= made))
  }

  /** Ending the run after the body stopped gives exactly the run's events. */
  lemma EndOfRun(before: seq<Event>, name: string, model: Estimator, w: WinnerStats, report: Report,
                 failAt: Option<nat>, t: seq<Event>, made: nat, raised: bool)
    requires InRun(t, before + [StartRun(RunName(name))], RunCalls(name, model, w, report), failAt, made, raised)
    requires !raised ==> made == |RunCalls(name, model, w, report)|
    ensures raised == RunRaises(RunCalls(name, model, w, report), failAt)
    ensures t + [EndRun(if raised then Failed else Finished)] == before + RunEvents(name, model, w, report, failAt)
  {
    var calls := RunCalls(name, model, w, report);
    var start := StartRun(RunName(name));
    var logged := if raised then calls[..made - 1] else calls;
    assert t == before + [start] + logged;
    var end := EndRun(if raised then Failed else Finished);
    assert RunEvents(name, model, w, report, failAt) == [start] + logged + [end];
    assert (before + [start]) + logged + [end] == before + ([start] + logged + [end]);
  }

  /** Regrouping a concatenation; stated separately to keep the trainer's own proof small. */
  lemma AppendAssoc(a: seq<Event>, b: seq<Event>, c: seq<Event>)
    ensures (a + b) + c == a + (b + c)
  {
  }

  class ModelTrainer {
    /** Every effect this trainer has had on the tracking store and the file system, oldest first. */
    var trace: seq<Event>

    constructor()
      ensures trace == []
    {
      trace := [];
    }

    ghost predicate Progress(base: seq<Event>, calls: seq<Event>, failAt: Option<nat>, made: nat, raised: bool)
      reads this
    {
      InRun(trace, base, calls, failAt, made, raised)
    }

    /**
     * One tracking call inside the run: it is skipped once an earlier call has
     * raised, raises if it is the call `failAt` names, and otherwise is logged.
     */
    method Track(ghost base: seq<Event>, ghost calls: seq<Event>, e: Event, failAt: Option<nat>, made: nat, raised: bool)
      returns (made': nat, raised': bool)
      requires Progress(base, calls, failAt, made, raised)
      requires !raised ==> made < |calls| && calls[made] == e
      modifies this
      ensures Progress(base, calls, failAt, made', raised')
      ensures raised ==> raised' && made' == made
      ensures !raised ==> made' == made + 1
    {
      if raised {
        made', raised' := made, raised;
      } else {
        raised' := failAt == Some(made);
        if !raised' {
          trace := trace + [e];
          assert calls[..made + 1] == calls[..made] + [e];
        }
        made' := made + 1;
      }
    }

    /**
     * The `with mlflow.start_run(...)` block: log the winner's parameters,
     * headline metrics and artifact, then one metric per report entry; the
     * run is ended whether or not a call raised.
     */
    method RecordBestModel(name: string, best: Estimator, w: WinnerStats, report: Report, failAt: Option<nat>)
      returns (raised: bool)
      modifies this
      ensures raised == RunRaises(RunCalls(name, best, w, report), failAt)
      ensures trace == old(trace) + RunEvents(name, best, w, report, failAt)
    {
      trace := trace + [StartRun(RunName(name))];
      ghost var base := trace;
      ghost var calls := RunCalls(name, best, w, report);
      assert calls[..7] == HeadlineCalls(name, best, w);
      var made: nat := 0;
      raised := false;
      made, raised := Track(base, calls, LogParam("model_name", name), failAt, made, raised);
      made, raised := Track(base, calls, LogParam("best_params", w.params), failAt, made, raised);
      made, raised := Track(base, calls, LogMetric("r2_score", w.r2), failAt, made, raised);
      made, raised := Track(base, calls, LogMetric("mae", w.mae), failAt, made, raised);
      made, raised := Track(base, calls, LogMetric("mse", w.mse), failAt, made, raised);
      made, raised := Track(base, calls, LogMetric("rmse", w.rmse), failAt, made, raised);
      made, raised := Track(base, calls, LogModel("model", best), failAt, made, raised);

      var i := 0;
      while i < |report| && !raised
        invariant 0 <= i <= |report|
        invariant Progress(base, calls, failAt, made, raised)
        invariant !raised ==> made == 7 + i
      {
        var (family, score) := report[i];
        made, raised := Track(base, calls, LogMetric(MetricKey(family), score), failAt, made, raised);
        i := i + 1;
      }

      EndOfRun(old(trace), name, best, w, report, failAt, trace, made, raised);
      if raised {
        trace := trace + [EndRun(Failed)];
      } else {
        trace := trace + [EndRun(Finished)];
      }
    }

    /** `ModelTrainer.initiate_model_trainer`: returns the winner's r2 or the failure, and records its effects. */
    method InitiateModelTrainer(train: Matrix, test: Matrix, env: Environment) returns (r: Result<real, Failure>)
      requires WellFormed(train) && WellFormed(test)
      modifies this
      ensures r == Train(train, test, env).result
      ensures trace == old(trace) + Train(train, test, env).events
    {
      ghost var o := Train(train, test, env);
      var trainSplit := SplitLastColumn(train);
      var testSplit := SplitLastColumn(test);
      if trainSplit.None? || testSplit.None? {
        assert o == Outcome(Err(ShapeError), []);
        return Err(ShapeError);
      }

      var models := BaseModels;
      if env.catBoostAvailable {
        models := models + [CatBoostEntry];
      }
      assert models == Build(env.catBoostAvailable);

      trace := trace + [SetExperiment(ExperimentName)];
      if env.report.None? {
        assert o == Outcome(Err(EvaluationFailed), [SetExperiment(ExperimentName)]);
        return Err(EvaluationFailed);
      }
      var report := env.report.value;
      if report == [] {
        assert o == Outcome(Err(EmptyReport), [SetExperiment(ExperimentName)]);
        return Err(EmptyReport);
      }

      var bestScore := BestScore(report);
      var bestName := BestName(report);
      var found := Lookup(models, bestName);
      if found.None? {
        assert o == Outcome(Err(UnknownModel(bestName)), [SetExperiment(ExperimentName)]);
        return Err(UnknownModel(bestName));
      }
      var best := found.value;
      if bestScore < Threshold {
        assert o == Outcome(Err(NoBestModel), [SetExperiment(ExperimentName)]);
        return Err(NoBestModel);
      }

      ghost var tail := RecordAndSave(bestName, best, report, env);
      assert o == Outcome(tail.result, [SetExperiment(ExperimentName)] + tail.events);
      ghost var mid := trace;
      assert mid == old(trace) + [SetExperiment(ExperimentName)];
      r := SaveAfterRun(bestName, best, report, env);
      AppendAssoc(old(trace), [SetExperiment(ExperimentName)], tail.events);
    }

    /** The tracking run for an accepted winner, followed by saving it when the run closed normally. */
    method SaveAfterRun(name: string, best: Estimator, report: Report, env: Environment) returns (r: Result<real, Failure>)
      modifies this
      ensures r == RecordAndSave(name, best, report, env).result
      ensures trace == old(trace) + RecordAndSave(name, best, report, env).events
    {
      var raised := RecordBestModel(name, best, env.winner, report, env.failAt);
      if raised {
        return Err(TrackingFailed);
      }
      if env.saveFails {
        return Err(SaveFailed);
      }
      trace := trace + [Save(ModelPath, best)];
      return Ok(env.winner.r2);
    }
  }
}
