# Synthetic-function experiment configuration, in Dafny

A model of the configuration core of the dragonfly synthetic-function
benchmark script `e1_synthetic.py`. The script compares black-box optimisers
(random search, dragonfly's Bayesian optimisation, hyperopt, SMAC, GPyOpt,
PDOO, Spearmint) on one analytic benchmark. Its core has two parts.

- **Problem resolution** (`get_prob_params`, module `ProblemResolver`). It
  takes the study key, which is the part of the study name before the first
  hyphen. It looks the key up in the study-parameter table. It applies the
  debug override (3 trials, capital 10) and picks the noise model
  (`gauss` with the table's scale, or `no_noise` with no scale). It forces
  the initial pool size to 0 and builds the save-file prefix. It exposes the
  objective as the negation of the library's raw function. The script's
  module-level constants are an explicit `Config` parameter, and
  `SCRIPT_CONFIG` holds the values the script ships with.
- **Method-option assembly** (`get_method_options`, module
  `MethodConfigurator`). A loop loads a fresh option record (class
  `MethodOptions`) per requested method. It sets `capital_type` on each
  record, plus these per-method overrides:
  - the objective handle for hyperopt, SMAC, GPyOpt and PDOO;
  - `algo`/`space` for hyperopt;
  - `exp_dir`/`pkg_dir` for Spearmint.

  It then inserts the record into an insertion-ordered dictionary
  (`OptionsDict`: key order plus map). The optional hyperopt import is
  `Environment.hyperopt`. When it is absent and hyperopt is requested, the
  call fails with `MissingDependency("hyperopt")` and returns no dictionary.

External collaborators are parameters or opaque values:
- the synthetic-function library is a function argument returning `SynFunction`;
- the function caller, worker manager and reporter are records of the arguments they are built from;
- the option schema, `tpe.suggest` and `hp.uniform` are opaque types.

The model follows the code as written:
- A method name that no override mentions is not an error. It gets only `capital_type`.
- The domain bounds from the synthetic library are unpacked but not stored in the problem record.
- The noise type and scale are not fields of the problem. They appear only as arguments to the function caller and the synthetic library.
- `opt_val` is copied unchanged while `func` is negated, so `func(opt_pt) == -opt_val` when the library's optimum value is the raw function's value at `opt_pt`.

## Model

| member | source | states |
|---|---|---|
| ProblemResolver.StudyKey | e1_synthetic.py:62 | the key is a hyphen-free prefix of the study name that ends at the first hyphen or at the end of the name |
| ProblemResolver.StudyKeyUnique | e1_synthetic.py:62 | those three properties determine the key: any other string with them equals it |
| ProblemResolver.StudyKeyOfSuffixed | e1_synthetic.py:62 | a name `key-suffix` with a hyphen-free key resolves to `key` |
| ProblemResolver.LookupStudy | e1_synthetic.py:74-82 | lookup succeeds exactly for the seven known studies, returning that study's table row, and fails with `UnknownStudy(key)` otherwise; known scales are positive; the Park studies have no fidelity dimension |
| ProblemResolver.GetProbParams | e1_synthetic.py:58-110 | succeeds iff the study key is known, else fails with UnknownStudy; debug forces 3 trials and capital 10, otherwise the configured values; no noise gives `no_noise` with no scale, noise gives `gauss` with the table's scale; the func caller gets the full study name and the table's fidelity dimension; evaluation options are `('None', 0)` whatever the table's pool size; the objective is pointwise the negated raw function and `opt_pt`/`opt_val` are the library's; the save prefix is the name plus `-debug` exactly in debug mode; the worker manager is built with the worker count and `caller_eval_cost` while `time_distro` keeps the configured value |
| ProblemResolver.ScriptConfigResolves | e1_synthetic.py:29-52 | the shipped constants resolve `park2` without noise, with 20 trials, capital 200, prefix `park2` and no fidelity dimension |
| ProblemResolver.ObjectiveAtOptimum | e1_synthetic.py:97-99 | if, for the noise arguments the resolver passes, the library's optimum value is the raw function's value at its optimum point, the resolved objective at `opt_pt` is `-opt_val` |
| MethodConfigurator.MethodOptions.Load | e1_synthetic.py:120 | a freshly loaded record holds the schema and no overridden attribute |
| MethodConfigurator.ExpectedOptions | e1_synthetic.py:120-131 | building a method's record fails iff the method is hyperopt and the hyperopt import failed, and then with `MissingDependency("hyperopt")` |
| MethodConfigurator.ExpectedOptionsOverrides | e1_synthetic.py:120-131 | a built record comes from the shared schema; `capital_type` is always set; `func` is set iff the method is hyperopt, smac, gpyopt or pdoo, and then it is the problem's objective; `algo`/`space` are set iff the method is hyperopt, to `tpe.suggest`/`hp.uniform`; `exp_dir`/`pkg_dir` are set iff the method is spearmint, `exp_dir` being the base path plus the study key |
| MethodConfigurator.PlainMethodGetsCapitalTypeOnly | e1_synthetic.py:122-131 | any other method (rand, dragonfly, ...) gets a record with only `capital_type` set |
| MethodConfigurator.ConfigureMethod | e1_synthetic.py:120-131 | one loop iteration fails iff the method is hyperopt and hyperopt is absent; otherwise it builds a fresh record whose attributes are exactly the expected ones |
| MethodConfigurator.FirstOccurrences | e1_synthetic.py:119-132 | the dictionary's key order has no repeated key and holds exactly the requested methods |
| MethodConfigurator.FirstOccurrencesInOrder | e1_synthetic.py:119-132 | the key order lists methods by the position of their first occurrence in the request, since re-assigning an existing key keeps its place |
| MethodConfigurator.FirstOccurrencesOfDistinct | e1_synthetic.py:119-132 | without repeats the key order is the requested order |
| MethodConfigurator.GetMethodOptions | e1_synthetic.py:113-134 | fails iff hyperopt is requested and absent, returning no dictionary; otherwise the keys are exactly the requested methods, in first-occurrence order; each record is fresh; no two keys share a record (`DistinctRecords`); and each record's attributes are those `ExpectedOptions` gives its key (`Configured`) |

## Left out

- Creating the results directory at import time (lines 54-56): filesystem I/O.
- `main` (lines 137-165): the evaluator construction, `run_trials`, wall-clock and CPU timing and the reporter output are orchestration and I/O.
- The internals of the synthetic-function library, `SyntheticWorkerManager`, `get_reporter`, `load_options`, `get_all_gp_bandit_args` and hyperopt. They are parameters, records of their arguments, or opaque types. A failure inside them (for instance the library rejecting a full study name with a suffix) is not modelled.
- Floating-point arithmetic: objective values and noise scales are Dafny `real`s.
- The hard-coded Spearmint paths: both base paths are `Environment` parameters, and only the concatenation rule is kept.
- The attributes `load_options` fills in from the schema are not modelled one by one. A record holds the schema it was loaded from, and an override such as `capital_type` is recorded separately from any schema default of the same name.
