/**
 * The fixed registry of candidate model families and their hyperparameter
 * grids. The estimators themselves are foreign objects; each is named here
 * by the constructor call that creates it.
 */
module Registry {
  import opened Wrappers
  import opened Entries

  /** The registry's estimator object, identified by its family and constructor arguments. */
  datatype Estimator =
    | RandomForest
    | DecisionTree
    | GradientBoosting
    | LinearRegression
    | XGB
    | AdaBoost
    | CatBoost(verbose: bool)

  /** A registry in insertion order, as a Python dict iterates it. */
  type Models = seq<(string, Estimator)>

  /** The six families that are always present, in insertion order. */
  const BaseModels: Models := [
    ("Random Forest", RandomForest),
    ("Decision Tree", DecisionTree),
    ("Gradient Boosting", GradientBoosting),
    ("Linear Regression", LinearRegression),
    ("XGBRegressor", XGB),
    ("AdaBoost Regressor", AdaBoost)
  ]

  /** The optional family, registered only when its library imports. */
  const CatBoostEntry: (string, Estimator) := ("CatBoosting Regressor", CatBoost(false))

  /**
   * The registry as built by the trainer: the base families, then CatBoost
   * last exactly when the optional import succeeded.
   */
  function Build(catBoostAvailable: bool): (models: Models)
    ensures |models| == if catBoostAvailable then 7 else 6
    ensures models[..6] == BaseModels
    ensures catBoostAvailable ==> models[6] == CatBoostEntry
    ensures UniqueKeys(models)
  {
    if catBoostAvailable then BaseModels + [CatBoostEntry] else BaseModels
  }

  /** `models[name]`: the estimator registered under `name`, or `None` (a KeyError). */
  function Lookup(models: Models, name: string): (r: Option<Estimator>)
    ensures r.None? <==> name !in Keys(models)
    ensures r.Some? ==> exists i :: 0 <= i < |models| && models[i] == (name, r.value)
  {
    if models == [] then None
    else if models[0].0 == name then Some(models[0].1)
    else Lookup(models[1..], name)
  }

  /** With unique names, lookup returns the estimator stored beside the name. */
  lemma {:induction false} LookupAt(models: Models, i: nat)
    requires UniqueKeys(models) && i < |models|
    ensures Lookup(models, models[i].0) == Some(models[i].1)
  {
    if i > 0 {
      assert models[1..][i - 1] == models[i];
      LookupAt(models[1..], i - 1);
    }
  }

  /** The CatBoost family is in the registry if and only if its library imported. */
  lemma CatBoostPresence(catBoostAvailable: bool)
    ensures ("CatBoosting Regressor" in Keys(Build(catBoostAvailable))) <==> catBoostAvailable
  {
    var names := Keys(Build(catBoostAvailable));
    if !catBoostAvailable {
      forall i | 0 <= i < |names| ensures names[i] != "CatBoosting Regressor" {
        assert names[i] == BaseModels[i].0;
      }
    } else {
      assert names[6] == "CatBoosting Regressor";
    }
  }

  /** One candidate value of a hyperparameter (the grids mix strings, reals and integers). */
  datatype ParamValue = Text(s: string) | Real(r: real) | Int(n: int)

  /** A hyperparameter grid: parameter name to candidate values, in insertion order. */
  type Grid = seq<(string, seq<ParamValue>)>

  /** The hyperparameter grids, keyed by family name. */
  const Params: map<string, Grid> := map[
    "Decision Tree" := [("criterion", [Text("squared_error"), Text("friedman_mse"), Text("absolute_error"), Text("poisson")])],
    "Random Forest" := [("n_estimators", [Int(8), Int(16), Int(32), Int(64), Int(128), Int(256)])],
    "Gradient Boosting" := [
      ("learning_rate", [Real(0.1), Real(0.01), Real(0.05), Real(0.001)]),
      ("subsample", [Real(0.6), Real(0.7), Real(0.75), Real(0.8), Real(0.85), Real(0.9)]),
      ("n_estimators", [Int(8), Int(16), Int(32), Int(64), Int(128), Int(256)])],
    "Linear Regression" := [],
    "XGBRegressor" := [
      ("learning_rate", [Real(0.1), Real(0.01), Real(0.05), Real(0.001)]),
      ("n_estimators", [Int(8), Int(16), Int(32), Int(64), Int(128), Int(256)])],
    "CatBoosting Regressor" := [
      ("depth", [Int(6), Int(8), Int(10)]),
      ("learning_rate", [Real(0.01), Real(0.05), Real(0.1)]),
      ("iterations", [Int(30), Int(50), Int(100)])],
    "AdaBoost Regressor" := [
      ("learning_rate", [Real(0.1), Real(0.01), Real(0.5), Real(0.001)]),
      ("n_estimators", [Int(8), Int(16), Int(32), Int(64), Int(128), Int(256)])]
  ]

  /**
   * The number of hyperparameter combinations an exhaustive search visits:
   * the product of the value-list lengths, so an empty grid is one point.
   */
  function GridPoints(g: Grid): (n: nat)
    ensures g == [] ==> n == 1
    ensures (forall k :: 0 <= k < |g| ==> g[k].1 != []) ==> n > 0
  {
    if g == [] then 1 else |g[0].1| * GridPoints(g[1..])
  }

  /**
   * Every family the registry can hold has a grid, and every grid offers at
   * least one combination to search; linear regression's grid is empty, so
   * its search is a single default fit.
   */
  lemma ParamsCoverRegistry(catBoostAvailable: bool)
    ensures forall name :: name in Keys(Build(catBoostAvailable)) ==> name in Params
    ensures forall name :: name in Keys(Build(catBoostAvailable)) ==> GridPoints(Params[name]) > 0
    ensures Params["Linear Regression"] == [] && GridPoints(Params["Linear Regression"]) == 1
  {
    var models := Build(catBoostAvailable);
    forall name | name in Keys(models) ensures name in Params {
      var i :| 0 <= i < |models| && Keys(models)[i] == name;
      if i < 6 { assert models[i] == BaseModels[i]; } else { assert models[i] == CatBoostEntry; }
    }
    forall name | name in Keys(models) ensures GridPoints(Params[name]) > 0 {
      GridSearches(name);
    }
  }

  /** No grid in the table has a parameter without candidate values. */
  lemma GridSearches(name: string)
    requires name in Params
    ensures GridPoints(Params[name]) > 0
  {
    var g := Params[name];
    assert forall k :: 0 <= k < |g| ==> g[k].1 != [];
  }
}
