/** Problem resolution of the synthetic-function experiment (`get_prob_params`):
    from the experiment constants and the study-parameter table to the problem
    record the evaluator consumes. */
module ProblemResolver {
  import opened Wrappers

  /** A point of the benchmark function's domain. */
  type Point = seq<real>

  /** The module-level experiment constants, passed in explicitly. */
  datatype Config = Config(
    studyName: string,
    isDebug: bool,
    noisyEvals: bool,
    numTrials: int,
    maxCapital: int,
    numWorkers: int,
    timeDistro: string,
    saveResultsDir: string,
    methods: seq<string>)

  /** The values the script ships with. */
  const SCRIPT_CONFIG := Config("park2", false, false, 20, 200, 1, "const", "results",
                                ["rand", "dragonfly"])

  /** One row of the study-parameter table: noise scale, initial pool size and
      fidelity dimension (`None` for the Park functions). */
  datatype StudyParams = StudyParams(noiseScale: real, initialPoolSize: nat, fidelDim: Option<nat>)

  /** What the synthetic-function library returns for a study: the raw function,
      its optimum point, its optimum value and the domain bounds. */
  datatype SynFunction = SynFunction(raw: Point -> real, optPt: Point, optVal: real,
                                     domainBounds: seq<(real, real)>)

  /** The function caller, recorded by the arguments it was built from. */
  datatype FuncCaller = FuncCaller(studyName: string, noiseType: string,
                                   noiseScale: Option<real>, fidelDim: Option<nat>)

  /** The synthetic worker manager, recorded by its construction arguments. */
  datatype WorkerManager = WorkerManager(numWorkers: int, timeDistro: string)

  /** The reporter, recorded by the kind requested of the reporter factory. */
  datatype Reporter = Reporter(kind: string)

  datatype EvaluationOptions = EvaluationOptions(prevEvalPoints: string, initialPoolSize: nat)

  /** The resolved problem record. */
  datatype Problem = Problem(
    studyName: string,
    numTrials: int,
    maxCapital: int,
    timeDistro: string,
    numWorkers: int,
    noisyEvals: bool,
    funcCaller: FuncCaller,
    func: Point -> real,
    optPt: Point,
    optVal: real,
    workerManager: WorkerManager,
    saveFilePrefix: string,
    methods: seq<string>,
    saveResultsDir: string,
    reporter: Reporter,
    evaluationOptions: EvaluationOptions)

  /** Python's `KeyError` on a study key the table does not hold. */
  datatype ResolveError = UnknownStudy(key: string)

  const DEBUG_NUM_TRIALS := 3
  const DEBUG_MAX_CAPITAL := 10

  /** The study names the table recognises. */
  const KNOWN_STUDIES: set<string> :=
    {"hartmann3", "hartmann6", "hartmann", "branin", "borehole", "park1", "park2"}

  const STUDY_TABLE: map<string, StudyParams> := map[
    "hartmann3" := StudyParams(0.1, 20, Some(2)),
    "hartmann6" := StudyParams(0.1, 30, Some(1)),
    "hartmann" := StudyParams(0.1, 30, Some(1)),
    "branin" := StudyParams(0.1, 20, Some(3)),
    "borehole" := StudyParams(5.0, 40, Some(1)),
    "park1" := StudyParams(0.2, 30, None),
    "park2" := StudyParams(0.1, 30, None)]

  /** `name.split('-')[0]`: the part of the name before its first hyphen, or the
      whole name when it has none. */
  function StudyKey(name: string): (k: string)
    ensures k <= name
    ensures '-' !in k
    ensures |k| < |name| ==> name[|k|] == '-'
  {
    if name == [] || name[0] == '-' then [] else [name[0]] + StudyKey(name[1..])
  }

  /** The three properties of StudyKey determine it: any hyphen-free prefix that
      ends at a hyphen or at the end of the name is the key. */
  lemma StudyKeyUnique(name: string, k: string)
    requires k <= name && '-' !in k
    requires |k| < |name| ==> name[|k|] == '-'
    ensures k == StudyKey(name)
  {
  }

  /** A study name with a hyphenated suffix resolves to the same key as the
      bare name. */
  lemma StudyKeyOfSuffixed(key: string, suffix: string)
    requires '-' !in key
    ensures StudyKey(key + "-" + suffix) == key
  {
    var name := key + "-" + suffix;
    assert name[|key|] == '-';
    assert key <= name;
    StudyKeyUnique(name, key);
  }

  /** Looking a key up in the table; a missing key is Python's `KeyError`. */
  function LookupStudy(key: string): (r: Result<StudyParams, ResolveError>)
    ensures r.Success? <==> key in KNOWN_STUDIES
    ensures r.Failure? ==> r.error == UnknownStudy(key)
    ensures r.Success? ==> key in STUDY_TABLE && r.value == STUDY_TABLE[key]
    ensures r.Success? ==> r.value.noiseScale > 0.0
    ensures r.Success? && key in {"park1", "park2"} ==> r.value.fidelDim == None
  {
    if key in STUDY_TABLE then Success(STUDY_TABLE[key]) else Failure(UnknownStudy(key))
  }

  /** `get_prob_params`: resolves the configured study into a problem record.
      `getSynFunction` stands for the synthetic-function library. */
  function GetProbParams(cfg: Config, getSynFunction: (string, string, Option<real>) -> SynFunction)
    : (r: Result<Problem, ResolveError>)
    ensures r.Success? <==> StudyKey(cfg.studyName) in KNOWN_STUDIES
    ensures r.Failure? ==> r.error == UnknownStudy(StudyKey(cfg.studyName))
    ensures r.Success? ==> r.value.studyName == cfg.studyName && r.value.methods == cfg.methods
    ensures r.Success? && cfg.isDebug ==> r.value.numTrials == 3 && r.value.maxCapital == 10
    ensures r.Success? && !cfg.isDebug ==>
              r.value.numTrials == cfg.numTrials && r.value.maxCapital == cfg.maxCapital
    ensures r.Success? && !cfg.noisyEvals ==>
              r.value.funcCaller.noiseType == "no_noise" && r.value.funcCaller.noiseScale == None
    ensures r.Success? && cfg.noisyEvals ==>
              r.value.funcCaller.noiseType == "gauss" &&
              r.value.funcCaller.noiseScale == Some(STUDY_TABLE[StudyKey(cfg.studyName)].noiseScale)
    ensures r.Success? ==>
              r.value.funcCaller.studyName == cfg.studyName &&
              r.value.funcCaller.fidelDim == STUDY_TABLE[StudyKey(cfg.studyName)].fidelDim
    ensures r.Success? ==> r.value.evaluationOptions == EvaluationOptions("None", 0)
    ensures r.Success? ==>
              var syn := getSynFunction(cfg.studyName, r.value.funcCaller.noiseType,
                                        r.value.funcCaller.noiseScale);
              r.value.optPt == syn.optPt && r.value.optVal == syn.optVal &&
              forall x :: r.value.func(x) == -syn.raw(x)
    ensures r.Success? && cfg.isDebug ==> r.value.saveFilePrefix == cfg.studyName + "-debug"
    ensures r.Success? && !cfg.isDebug ==> r.value.saveFilePrefix == cfg.studyName
    ensures r.Success? ==>
              r.value.workerManager == WorkerManager(cfg.numWorkers, "caller_eval_cost") &&
              r.value.timeDistro == cfg.timeDistro && r.value.numWorkers == cfg.numWorkers
    ensures r.Success? ==>
              r.value.noisyEvals == cfg.noisyEvals && r.value.saveResultsDir == cfg.saveResultsDir &&
              r.value.reporter == Reporter("default")
  {
    var key := StudyKey(cfg.studyName);
    var numTrials := if cfg.isDebug then DEBUG_NUM_TRIALS else cfg.numTrials;
    var maxCapital := if cfg.isDebug then DEBUG_MAX_CAPITAL else cfg.maxCapital;
    match LookupStudy(key)
    case Failure(e) => Failure(e)
    case Success(params) =>
      // the table's pool size is read and then discarded
      var initialPoolSize := 0;
      var noiseType := if cfg.noisyEvals then "gauss" else "no_noise";
      var noiseScale := if cfg.noisyEvals then Some(params.noiseScale) else None;
      var funcCaller := FuncCaller(cfg.studyName, noiseType, noiseScale, params.fidelDim);
      var syn := getSynFunction(cfg.studyName, noiseType, noiseScale);
      Success(Problem(
        studyName := cfg.studyName,
        numTrials := numTrials,
        maxCapital := maxCapital,
        timeDistro := cfg.timeDistro,
        numWorkers := cfg.numWorkers,
        noisyEvals := cfg.noisyEvals,
        funcCaller := funcCaller,
        func := x => -1.0 * syn.raw(x),
        optPt := syn.optPt,
        optVal := syn.optVal,
        workerManager := WorkerManager(cfg.numWorkers, "caller_eval_cost"),
        saveFilePrefix := cfg.studyName + (if cfg.isDebug then "-debug" else ""),
        methods := cfg.methods,
        saveResultsDir := cfg.saveResultsDir,
        reporter := Reporter("default"),
        evaluationOptions := EvaluationOptions("None", initialPoolSize)))
  }

  /** The script as shipped resolves `park2` without noise, with the production
      trial count and budget and no fidelity dimension. */
  lemma ScriptConfigResolves(getSynFunction: (string, string, Option<real>) -> SynFunction)
    ensures var r := GetProbParams(SCRIPT_CONFIG, getSynFunction);
            r.Success? && r.value.numTrials == 20 && r.value.maxCapital == 200 &&
            r.value.saveFilePrefix == "park2" &&
            r.value.funcCaller == FuncCaller("park2", "no_noise", None, None)
  {
    StudyKeyUnique("park2", "park2");
  }

  /** Provided the library's optimum value is the raw function's value at its
      optimum point, for the noise arguments the resolver passes it, the resolved
      (negated) objective takes the negated optimum value there, while `optVal` is
      copied unchanged. */
  lemma ObjectiveAtOptimum(cfg: Config, getSynFunction: (string, string, Option<real>) -> SynFunction)
    requires GetProbParams(cfg, getSynFunction).Success?
    requires var caller := GetProbParams(cfg, getSynFunction).value.funcCaller;
             var syn := getSynFunction(cfg.studyName, caller.noiseType, caller.noiseScale);
             syn.raw(syn.optPt) == syn.optVal
    ensures var p := GetProbParams(cfg, getSynFunction).value; p.func(p.optPt) == -p.optVal
  {
  }
}
