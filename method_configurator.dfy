/** Method-option assembly of the synthetic-function experiment
    (`get_method_options`): one freshly loaded option record per requested
    method, with the per-method overrides applied. */
module MethodConfigurator {
  import opened Wrappers
  import opened ProblemResolver

  /** The shared Gaussian-process-bandit option schema records are loaded from. */
  type OptionSchema(==)
  /** `tpe.suggest`, hyperopt's algorithm selector. */
  type Algo(==)
  /** `hp.uniform`, hyperopt's search-space constructor. */
  type Space(==)

  /** The optional hyperopt import: `None` when the import failed. */
  datatype Hyperopt = Hyperopt(suggest: Algo, uniform: Space)

  /** What the script takes from its environment: the optional hyperopt module
      and the two Spearmint directories. */
  datatype Environment = Environment(hyperopt: Option<Hyperopt>,
                                     spearmintExpBase: string,
                                     spearmintPkgDir: string)

  /** Python's `NameError` when a requested method needs a module whose import
      failed. */
  datatype ConfigureError = MissingDependency(dependency: string)

  /** Methods that receive a handle to the resolved objective. */
  const FUNC_METHODS: seq<string> := ["hyperopt", "smac", "gpyopt", "pdoo"]

  /** The value of an option record: the schema it was loaded from and the
      attributes set on it afterwards (`None`: not set). */
  datatype OptionsView = OptionsView(
    schema: OptionSchema,
    capitalType: Option<string>,
    func: Option<Point -> real>,
    algo: Option<Algo>,
    space: Option<Space>,
    expDir: Option<string>,
    pkgDir: Option<string>)

  /** An option record; the script sets its attributes in place. */
  class MethodOptions {
    const schema: OptionSchema
    var capitalType: Option<string>
    var func: Option<Point -> real>
    var algo: Option<Algo>
    var space: Option<Space>
    var expDir: Option<string>
    var pkgDir: Option<string>

    /** `load_options(schema)`: a fresh record with no attribute overridden. */
    constructor Load(schema: OptionSchema)
      ensures View() == OptionsView(schema, None, None, None, None, None, None)
    {
      this.schema := schema;
      capitalType, func, algo, space, expDir, pkgDir := None, None, None, None, None, None;
    }

    ghost function View(): OptionsView
      reads this
    {
      OptionsView(schema, capitalType, func, algo, space, expDir, pkgDir)
    }
  }

  /** The record `get_method_options` builds for method `meth`, written as the
      sequence of updates the script applies; `hyperopt` without the hyperopt
      module fails. */
  ghost function ExpectedOptions(meth: string, prob: Problem, capitalType: string,
                                 schema: OptionSchema, env: Environment)
    : (r: Result<OptionsView, ConfigureError>)
    ensures r.Failure? <==> meth == "hyperopt" && env.hyperopt.None?
    ensures r.Failure? ==> r.error == MissingDependency("hyperopt")
    ensures r.Success? ==> r.value.schema == schema && r.value.capitalType == Some(capitalType)
    ensures r.Success? ==> (r.value.func.Some? <==> meth in FUNC_METHODS)
    ensures r.Success? && r.value.func.Some? ==> r.value.func.value == prob.func
    ensures r.Success? ==> (r.value.algo.Some? <==> meth == "hyperopt")
    ensures r.Success? ==> (r.value.space.Some? <==> meth == "hyperopt")
    ensures r.Success? && meth == "hyperopt" ==>
              r.value.algo == Some(env.hyperopt.value.suggest) &&
              r.value.space == Some(env.hyperopt.value.uniform)
    ensures r.Success? ==> (r.value.expDir.Some? <==> meth == "spearmint")
    ensures r.Success? ==> (r.value.pkgDir.Some? <==> meth == "spearmint")
    ensures r.Success? && meth == "spearmint" ==>
              r.value.expDir == Some(env.spearmintExpBase + StudyKey(prob.studyName)) &&
              r.value.pkgDir == Some(env.spearmintPkgDir)
  {
    var loaded := OptionsView(schema, None, None, None, None, None, None);
    var withCapital := loaded.(capitalType := Some(capitalType));
    var withFunc := if meth in FUNC_METHODS then withCapital.(func := Some(prob.func))
                    else withCapital;
    if meth == "hyperopt" then
      match env.hyperopt
      case None => Failure(MissingDependency("hyperopt"))
      case Some(h) => Success(withFunc.(algo := Some(h.suggest), space := Some(h.uniform)))
    else if meth == "spearmint" then
      Success(withFunc.(expDir := Some(env.spearmintExpBase + StudyKey(prob.studyName)),
                        pkgDir := Some(env.spearmintPkgDir)))
    else
      Success(withFunc)
  }

  /** The attributes each method's record carries: `capital_type` always; the
      objective handle exactly for hyperopt, SMAC, GPyOpt and PDOO; `algo` and
      `space` exactly for hyperopt; `exp_dir` and `pkg_dir` exactly for Spearmint,
      the experiment directory being the base path followed by the study key. */
  lemma ExpectedOptionsOverrides(meth: string, prob: Problem, capitalType: string,
                                 schema: OptionSchema, env: Environment)
    ensures var r := ExpectedOptions(meth, prob, capitalType, schema, env);
            r.Success? ==>
              r.value.schema == schema && r.value.capitalType == Some(capitalType) &&
              (r.value.func.Some? <==> meth in FUNC_METHODS) &&
              (r.value.func.Some? ==> r.value.func.value == prob.func) &&
              (r.value.algo.Some? <==> meth == "hyperopt") &&
              (r.value.space.Some? <==> meth == "hyperopt") &&
              (meth == "hyperopt" ==>
                 r.value.algo == Some(env.hyperopt.value.suggest) &&
                 r.value.space == Some(env.hyperopt.value.uniform)) &&
              (r.value.expDir.Some? <==> meth == "spearmint") &&
              (r.value.pkgDir.Some? <==> meth == "spearmint") &&
              (meth == "spearmint" ==>
                 r.value.expDir == Some(env.spearmintExpBase + StudyKey(prob.studyName)) &&
                 r.value.pkgDir == Some(env.spearmintPkgDir))
  {
  }

  /** A method outside the four function-handle methods, hyperopt and spearmint
      (random search, dragonfly, ...) gets nothing but its capital type. */
  lemma PlainMethodGetsCapitalTypeOnly(meth: string, prob: Problem, capitalType: string,
                                       schema: OptionSchema, env: Environment)
    requires meth !in FUNC_METHODS && meth != "spearmint"
    ensures ExpectedOptions(meth, prob, capitalType, schema, env)
            == Success(OptionsView(schema, Some(capitalType), None, None, None, None, None))
  {
  }

  /** The keys of the dictionary in Python's insertion order: each requested
      method at the position of its first occurrence. */
  function FirstOccurrences(methods: seq<string>): (order: seq<string>)
    ensures forall i, j :: 0 <= i < j < |order| ==> order[i] != order[j]
    ensures forall m :: m in order <==> m in methods
  {
    if methods == [] then []
    else
      var earlier := FirstOccurrences(methods[..|methods| - 1]);
      var last := methods[|methods| - 1];
      if last in earlier then earlier else earlier + [last]
  }

  /** Without repeated methods the dictionary keeps the requested order exactly. */
  lemma {:induction false} FirstOccurrencesOfDistinct(methods: seq<string>)
    requires forall i, j :: 0 <= i < j < |methods| ==> methods[i] != methods[j]
    ensures FirstOccurrences(methods) == methods
  {
    if methods != [] {
      var init := methods[..|methods| - 1];
      FirstOccurrencesOfDistinct(init);
      assert methods[|methods| - 1] !in init;
      assert init + [methods[|methods| - 1]] == methods;
    }
  }

  /** One iteration of the script's loop: load a fresh record for `meth` and set
      its attributes. */
  method ConfigureMethod(meth: string, prob: Problem, capitalType: string,
                         schema: OptionSchema, env: Environment)
    returns (r: Result<MethodOptions, ConfigureError>)
    ensures r.Failure? <==> meth == "hyperopt" && env.hyperopt.None?
    ensures r.Failure? ==> ExpectedOptions(meth, prob, capitalType, schema, env) == Failure(r.error)
    ensures r.Success? ==>
              fresh(r.value) &&
              ExpectedOptions(meth, prob, capitalType, schema, env) == Success(r.value.View())
  {
    var current := new MethodOptions.Load(schema);
    current.capitalType := Some(capitalType);
    if meth in FUNC_METHODS {
      current.func := Some(prob.func);
    }
    if meth == "hyperopt" {
      if env.hyperopt.None? {
        return Failure(MissingDependency("hyperopt"));
      }
      current.algo := Some(env.hyperopt.value.suggest);
      current.space := Some(env.hyperopt.value.uniform);
    }
    if meth == "spearmint" {
      current.expDir := Some(env.spearmintExpBase + StudyKey(prob.studyName));
      current.pkgDir := Some(env.spearmintPkgDir);
    }
    return Success(current);
  }

  /** The position of the first occurrence of `m` in `methods`. */
  function FirstIndex(methods: seq<string>, m: string): (k: nat)
    requires m in methods
    ensures k < |methods| && methods[k] == m && m !in methods[..k]
  {
    if methods[0] == m then 0 else 1 + FirstIndex(methods[1..], m)
  }

  /** Appending a method leaves the first occurrences of earlier methods where
      they were. */
  lemma {:induction false} FirstIndexAppend(methods: seq<string>, last: string, m: string)
    requires m in methods
    ensures FirstIndex(methods + [last], m) == FirstIndex(methods, m)
  {
    if methods[0] != m {
      assert (methods + [last])[1..] == methods[1..] + [last];
      FirstIndexAppend(methods[1..], last, m);
    }
  }

  /** The key order lists methods by their first occurrence in the request,
      as re-assigning an existing key of a Python dictionary keeps its place. */
  lemma {:induction false} FirstOccurrencesInOrder(methods: seq<string>)
    ensures forall i, j :: 0 <= i < j < |FirstOccurrences(methods)| ==>
              FirstIndex(methods, FirstOccurrences(methods)[i]) <
              FirstIndex(methods, FirstOccurrences(methods)[j])
  {
    if methods != [] {
      var init := methods[..|methods| - 1];
      var last := methods[|methods| - 1];
      assert methods == init + [last];
      FirstOccurrencesInOrder(init);
      var earlier := FirstOccurrences(init);
      var order := FirstOccurrences(methods);
      forall i, j | 0 <= i < j < |order|
        ensures FirstIndex(methods, order[i]) < FirstIndex(methods, order[j])
      {
        assert order[i] == earlier[i] && order[i] in init;
        FirstIndexAppend(init, last, order[i]);
        if j < |earlier| {
          assert order[j] == earlier[j];
          assert FirstIndex(init, earlier[i]) < FirstIndex(init, earlier[j]);
          FirstIndexAppend(init, last, order[j]);
        } else {
          assert order[j] == last && last !in init;
          assert FirstIndex(init, order[i]) < |init|;
        }
      }
    }
  }

  /** Extending the request by one method extends the key order as a Python
      dictionary assignment does. */
  lemma FirstOccurrencesStep(methods: seq<string>, i: nat)
    requires i < |methods|
    ensures methods[..i + 1] == methods[..i] + [methods[i]]
    ensures var order := FirstOccurrences(methods[..i]);
            FirstOccurrences(methods[..i + 1]) ==
              if methods[i] in order then order else order + [methods[i]]
  {
    assert methods[..i + 1][..i] == methods[..i];
  }

  /** No two keys share a record. */
  ghost predicate DistinctRecords(entries: map<string, MethodOptions>) {
    forall m, n :: m in entries && n in entries && m != n ==> entries[m] != entries[n]
  }

  /** Storing a record that no key holds yet keeps the records unshared. */
  lemma InsertKeepsDistinct(entries: map<string, MethodOptions>, meth: string,
                            current: MethodOptions)
    requires DistinctRecords(entries) && current !in entries.Values
    ensures DistinctRecords(entries[meth := current])
  {
  }

  /** Every record holds exactly the attributes `ExpectedOptions` gives its key. */
  ghost predicate Configured(entries: map<string, MethodOptions>, prob: Problem,
                             capitalType: string, schema: OptionSchema, env: Environment)
    reads entries.Values
  {
    forall m :: m in entries ==>
      ExpectedOptions(m, prob, capitalType, schema, env) == Success(entries[m].View())
  }

  /** Storing a correctly configured record keeps the dictionary configured. */
  lemma InsertKeepsConfigured(entries: map<string, MethodOptions>, meth: string,
                              current: MethodOptions, prob: Problem, capitalType: string,
                              schema: OptionSchema, env: Environment)
    requires Configured(entries, prob, capitalType, schema, env)
    requires ExpectedOptions(meth, prob, capitalType, schema, env) == Success(current.View())
    ensures Configured(entries[meth := current], prob, capitalType, schema, env)
  {
  }

  /** The ordered dictionary `get_method_options` returns. */
  datatype OptionsDict = OptionsDict(order: seq<string>, entries: map<string, MethodOptions>)

  /** `get_method_options(prob, capital_type)`; `schema` is the option schema the
      script computes once before its loop. */
  method GetMethodOptions(prob: Problem, capitalType: string, schema: OptionSchema,
                          env: Environment)
    returns (r: Result<OptionsDict, ConfigureError>)
    ensures r.Failure? <==> "hyperopt" in prob.methods && env.hyperopt.None?
    ensures r.Failure? ==> r.error == MissingDependency("hyperopt")
    ensures r.Success? ==> r.value.order == FirstOccurrences(prob.methods)
    ensures r.Success? ==> forall m :: m in r.value.entries <==> m in prob.methods
    ensures r.Success? ==> forall m :: m in r.value.entries ==> fresh(r.value.entries[m])
    ensures r.Success? ==> Configured(r.value.entries, prob, capitalType, schema, env)
    ensures r.Success? ==> DistinctRecords(r.value.entries)
  {
    var methods := prob.methods;
    var order: seq<string> := [];
    var entries: map<string, MethodOptions> := map[];
    var i := 0;
    while i < |methods|
      invariant 0 <= i <= |methods|
      invariant !("hyperopt" in methods[..i] && env.hyperopt.None?)
      invariant order == FirstOccurrences(methods[..i])
      invariant forall m :: m in entries <==> m in methods[..i]
      invariant forall m :: m in entries ==> fresh(entries[m])
      invariant Configured(entries, prob, capitalType, schema, env)
      invariant DistinctRecords(entries)
    {
      var meth := methods[i];
      var built := ConfigureMethod(meth, prob, capitalType, schema, env);
      if built.Failure? {
        return Failure(built.error);
      }
      var current := built.value;
      FirstOccurrencesStep(methods, i);
      if meth !in entries {
        order := order + [meth];
      }
      assert current !in entries.Values;
      InsertKeepsDistinct(entries, meth, current);
      InsertKeepsConfigured(entries, meth, current, prob, capitalType, schema, env);
      entries := entries[meth := current];
      i := i + 1;
    }
    assert methods[..i] == methods;
    return Success(OptionsDict(order, entries));
  }
}
