/**
 * Properties of the trainer's outcome and effect trace, over all inputs:
 * where the run is opened and closed, when the artifact is saved, what the
 * gate rejects, and what a successful run logs.
 */
module TrainerProperties {
  import opened Wrappers
  import opened ColumnSplit
  import opened Registry
  import opened Selection
  import opened MetricKeys
  import opened Trainer

  /** A call made inside the tracking run. */
  predicate IsRunCall(e: Event)
  {
    e.LogParam? || e.LogMetric? || e.LogModel?
  }

  /**
   * The trace either never touches a run, or holds exactly one run start and
   * one run end after it, with every logging call between the two.
   */
  ghost predicate Bracketed(ev: seq<Event>)
  {
    || (forall k :: 0 <= k < |ev| ==> !ev[k].StartRun? && !ev[k].EndRun? && !IsRunCall(ev[k]))
    || exists s, e :: 0 <= s < e < |ev| && BracketedAt(ev, s, e)
  }

  ghost predicate BracketedAt(ev: seq<Event>, s: int, e: int)
  {
    && 0 <= s < e < |ev|
    && forall k :: 0 <= k < |ev| ==>
         && (ev[k].StartRun? <==> k == s)
         && (ev[k].EndRun? <==> k == e)
         && (IsRunCall(ev[k]) ==> s < k < e)
  }

  /** The calls of a run are all logging calls. */
  lemma RunCallsAreCalls(name: string, model: Estimator, w: WinnerStats, report: Report)
    ensures forall k :: 0 <= k < |RunCalls(name, model, w, report)| ==> IsRunCall(RunCalls(name, model, w, report)[k])
  {
  }

  /** The per-family metrics follow the report entry by entry, under space-free keys. */
  lemma FamilyMetricsFollowReport(report: Report)
    ensures |FamilyMetrics(report)| == |report|
    ensures forall i :: 0 <= i < |report| ==>
              && FamilyMetrics(report)[i] == LogMetric(MetricKey(report[i].0), report[i].1)
              && ' ' !in FamilyMetrics(report)[i].key
  {
  }

  /** A run that starts, logs some calls and ends is bracketed, whatever precedes or follows it. */
  lemma {:induction false} RunIsBracketed(pre: seq<Event>, name: string, logged: seq<Event>, status: RunStatus, post: seq<Event>)
    requires forall k :: 0 <= k < |pre| ==> pre[k].SetExperiment?
    requires forall k :: 0 <= k < |logged| ==> IsRunCall(logged[k])
    requires forall k :: 0 <= k < |post| ==> post[k].Save?
    ensures Bracketed(pre + ([StartRun(name)] + logged + [EndRun(status)]) + post)
  {
    var ev := pre + ([StartRun(name)] + logged + [EndRun(status)]) + post;
    var s, e := |pre|, |pre| + 1 + |logged|;
    forall k | 0 <= k < |ev|
      ensures (ev[k].StartRun? <==> k == s) && (ev[k].EndRun? <==> k == e) && (IsRunCall(ev[k]) ==> s < k < e)
    {
      if k < s {
        assert ev[k] == pre[k];
      } else if s < k < e {
        assert ev[k] == logged[k - s - 1];
      } else if k > e {
        assert ev[k] == post[k - e - 1];
      }
    }
    assert BracketedAt(ev, s, e);
  }

  /** The run and save that follow acceptance are bracketed, after the experiment is set. */
  lemma TailBracketed(name: string, model: Estimator, report: Report, env: Environment)
    ensures Bracketed([SetExperiment(ExperimentName)] + RecordAndSave(name, model, report, env).events)
  {
    var calls := RunCalls(name, model, env.winner, report);
    RunCallsAreCalls(name, model, env.winner, report);
    var pre := [SetExperiment(ExperimentName)];
    var start := StartRun(RunName(name));
    if RunRaises(calls, env.failAt) {
      var logged := calls[..env.failAt.value];
      RunIsBracketed(pre, RunName(name), logged, Failed, []);
      assert RecordAndSave(name, model, report, env).events == [start] + logged + [EndRun(Failed)];
      assert pre + ([start] + logged + [EndRun(Failed)]) + [] == pre + ([start] + logged + [EndRun(Failed)]);
    } else if env.saveFails {
      RunIsBracketed(pre, RunName(name), calls, Finished, []);
      assert pre + ([start] + calls + [EndRun(Finished)]) + [] == pre + ([start] + calls + [EndRun(Finished)]);
    } else {
      RunIsBracketed(pre, RunName(name), calls, Finished, [Save(ModelPath, model)]);
      var run := [start] + calls + [EndRun(Finished)];
      assert RecordAndSave(name, model, report, env).events == run + [Save(ModelPath, model)];
      assert pre + (run + [Save(ModelPath, model)]) == pre + run + [Save(ModelPath, model)];
    }
  }

  /**
   * Whatever happens, a tracking run that was opened is closed, and no
   * logging call happens outside it.
   */
  lemma RunAlwaysClosed(train: Matrix, test: Matrix, env: Environment)
    requires WellFormed(train) && WellFormed(test)
    ensures Bracketed(Train(train, test, env).events)
  {
    var o := Train(train, test, env);
    if SplitLastColumn(train).None? || SplitLastColumn(test).None? {
      assert o.events == [];
    } else if env.report.None? || env.report.value == [] {
      assert o.events == [SetExperiment(ExperimentName)];
    } else {
      var report := env.report.value;
      var name := BestName(report);
      var found := Lookup(Build(env.catBoostAvailable), name);
      if found.None? || !Accepts(BestScore(report)) {
        assert o.events == [SetExperiment(ExperimentName)];
      } else {
        TailBracketed(name, found.value, report, env);
        assert o.events == [SetExperiment(ExperimentName)] + RecordAndSave(name, found.value, report, env).events;
      }
    }
  }

  /** The trace saves the artifact somewhere. */
  ghost predicate Saves(ev: seq<Event>)
  {
    exists k :: 0 <= k < |ev| && ev[k].Save?
  }

  /** The trace starts a tracking run somewhere. */
  ghost predicate StartsRun(ev: seq<Event>)
  {
    exists k :: 0 <= k < |ev| && ev[k].StartRun?
  }

  /**
   * A successful call logs, in this order: the experiment, the run start, the
   * winner's name and parameters, r2, mae, mse and rmse, the model artifact,
   * one metric per report entry, the run end, and finally the save of the
   * registry object under the winning name. It returns the winner's r2.
   */
  lemma SuccessTrace(train: Matrix, test: Matrix, env: Environment)
    requires WellFormed(train) && WellFormed(test)
    requires Train(train, test, env).result.Ok?
    ensures env.report.Some? && env.report.value != []
    ensures var report := env.report.value;
            var name := BestName(report);
            && Lookup(Build(env.catBoostAvailable), name).Some?
            && Accepts(BestScore(report))
            && Train(train, test, env).result == Ok(env.winner.r2)
            && Train(train, test, env).events ==
                 [SetExperiment(ExperimentName), StartRun(RunName(name))]
                 + HeadlineCalls(name, Lookup(Build(env.catBoostAvailable), name).value, env.winner)
                 + FamilyMetrics(report)
                 + [EndRun(Finished), Save(ModelPath, Lookup(Build(env.catBoostAvailable), name).value)]
  {
    var o := Train(train, test, env);
    assert SplitLastColumn(train).Some? && SplitLastColumn(test).Some?;
    assert env.report.Some? && env.report.value != [];
    var report := env.report.value;
    var name := BestName(report);
    var found := Lookup(Build(env.catBoostAvailable), name);
    assert found.Some? && Accepts(BestScore(report));
    var model := found.value;
    var tail := RecordAndSave(name, model, report, env);
    assert o == Outcome(tail.result, [SetExperiment(ExperimentName)] + tail.events);
    var calls := RunCalls(name, model, env.winner, report);
    assert !RunRaises(calls, env.failAt) && !env.saveFails;
    var run := [StartRun(RunName(name))] + calls + [EndRun(Finished)];
    assert tail.events == run + [Save(ModelPath, model)];
    SuccessShape(SetExperiment(ExperimentName), StartRun(RunName(name)), HeadlineCalls(name, model, env.winner),
                 FamilyMetrics(report), EndRun(Finished), Save(ModelPath, model));
  }

  /** Regrouping the events of a successful call; stated separately to keep `SuccessTrace` small. */
  lemma SuccessShape(set_: Event, start: Event, headline: seq<Event>, families: seq<Event>, end: Event, save: Event)
    ensures [set_] + (([start] + (headline + families) + [end]) + [save])
            == [set_, start] + headline + families + [end, save]
  {
  }

  /** The artifact is saved if and only if the call succeeds. */
  lemma SavedIffSucceeded(train: Matrix, test: Matrix, env: Environment)
    requires WellFormed(train) && WellFormed(test)
    ensures Train(train, test, env).result.Ok? <==> Saves(Train(train, test, env).events)
  {
    var o := Train(train, test, env);
    if o.result.Ok? {
      SuccessTrace(train, test, env);
      assert o.events[|o.events| - 1].Save?;
    } else {
      NoSaveOnFailure(train, test, env);
    }
  }

  /** On every failure path the trace holds no save. */
  lemma NoSaveOnFailure(train: Matrix, test: Matrix, env: Environment)
    requires WellFormed(train) && WellFormed(test)
    requires Train(train, test, env).result.Err?
    ensures !Saves(Train(train, test, env).events)
  {
    var o := Train(train, test, env);
    if SplitLastColumn(train).Some? && SplitLastColumn(test).Some? && env.report.Some? && env.report.value != [] {
      var report := env.report.value;
      var name := BestName(report);
      var found := Lookup(Build(env.catBoostAvailable), name);
      if found.Some? && Accepts(BestScore(report)) {
        var tail := RecordAndSave(name, found.value, report, env);
        assert o == Outcome(tail.result, [SetExperiment(ExperimentName)] + tail.events);
        TailSavesNothingOnFailure(name, found.value, report, env);
        NoSaveInEither([SetExperiment(ExperimentName)], tail.events);
      } else {
        assert o.events == [SetExperiment(ExperimentName)];
      }
    } else {
      assert o.events == [] || o.events == [SetExperiment(ExperimentName)];
    }
  }

  lemma NoSaveInEither(a: seq<Event>, b: seq<Event>)
    requires !Saves(a) && !Saves(b)
    ensures !Saves(a + b)
  {
    forall k | 0 <= k < |a + b| ensures !(a + b)[k].Save? {
      if k >= |a| { assert (a + b)[k] == b[k - |a|]; }
    }
  }

  /** When the run or the save fails, what follows acceptance holds no save. */
  lemma TailSavesNothingOnFailure(name: string, model: Estimator, report: Report, env: Environment)
    requires RecordAndSave(name, model, report, env).result.Err?
    ensures !Saves(RecordAndSave(name, model, report, env).events)
  {
    var calls := RunCalls(name, model, env.winner, report);
    RunCallsAreCalls(name, model, env.winner, report);
    var ev := RecordAndSave(name, model, report, env).events;
    assert ev == RunEvents(name, model, env.winner, report, env.failAt);
    var logged := if RunRaises(calls, env.failAt) then calls[..env.failAt.value] else calls;
    assert ev == [StartRun(RunName(name))] + logged + [EndRun(if RunRaises(calls, env.failAt) then Failed else Finished)];
    forall k | 0 <= k < |ev| ensures !ev[k].Save? {
      if 0 < k < |ev| - 1 { assert ev[k] == logged[k - 1]; }
    }
  }

  /**
   * A tracking run is started only for a winner whose best score passed the
   * floor; in particular, a best score below 0.6 starts no run and saves nothing.
   */
  lemma RunOnlyWhenAccepted(train: Matrix, test: Matrix, env: Environment)
    requires WellFormed(train) && WellFormed(test)
    ensures StartsRun(Train(train, test, env).events) ==>
              env.report.Some? && env.report.value != [] && Accepts(BestScore(env.report.value))
    ensures env.report.Some? && env.report.value != [] && !Accepts(BestScore(env.report.value)) ==>
              !Saves(Train(train, test, env).events) && !StartsRun(Train(train, test, env).events)
  {
    var o := Train(train, test, env);
    if !(env.report.Some? && env.report.value != [] && Accepts(BestScore(env.report.value))) {
      assert o.events == [] || o.events == [SetExperiment(ExperimentName)];
    }
  }

  /** Below the floor the call fails with "No best model found" right after setting the experiment. */
  lemma RejectedBelowFloor(train: Matrix, test: Matrix, env: Environment)
    requires WellFormed(train) && WellFormed(test) && train.width > 0 && test.width > 0
    requires env.report.Some? && env.report.value != []
    requires Lookup(Build(env.catBoostAvailable), BestName(env.report.value)).Some?
    requires BestScore(env.report.value) < Threshold
    ensures Train(train, test, env) == Outcome(Err(NoBestModel), [SetExperiment(ExperimentName)])
  {
  }

  /** A best score of exactly 0.6 is accepted: with no failing call the winner's r2 is returned. */
  lemma AcceptedAtFloor(train: Matrix, test: Matrix, env: Environment)
    requires WellFormed(train) && WellFormed(test) && train.width > 0 && test.width > 0
    requires env.report.Some? && env.report.value != []
    requires Lookup(Build(env.catBoostAvailable), BestName(env.report.value)).Some?
    requires BestScore(env.report.value) == 0.6
    requires env.failAt.None? && !env.saveFails
    ensures Train(train, test, env).result == Ok(env.winner.r2)
  {
  }

  /**
   * When the report lists the registry's families in registry order, the
   * winning name is always found, and the model used is the registry entry
   * at the first position holding the best score.
   */
  lemma WinnerIsRegistryEntry(catBoostAvailable: bool, report: Report)
    requires |report| == |Build(catBoostAvailable)|
    requires forall i :: 0 <= i < |report| ==> report[i].0 == Build(catBoostAvailable)[i].0
    ensures report != []
    ensures Lookup(Build(catBoostAvailable), BestName(report)) == Some(Build(catBoostAvailable)[BestIndex(report)].1)
  {
    LookupAt(Build(catBoostAvailable), BestIndex(report));
  }
}
