/** The parts of the SonarQube host API that the plugin consumes: the
    settings lookup and the quality-gate result of an analysis. They are given
    values here; how the host parses them is not modelled. */
module SonarApi {
  import opened Wrappers

  /** A snapshot of the host's settings, with values already decoded by type.
      A key absent from `strings` reads as null, absent from `booleans` as
      false, absent from `arrays` as the empty array. */
  datatype Settings = Settings(
    strings: map<string, string>,
    booleans: map<string, bool>,
    arrays: map<string, seq<string>>)

  /** `settings.getString(key)`. */
  function GetString(s: Settings, key: string): Option<string> {
    if key in s.strings then Some(s.strings[key]) else None
  }

  /** `settings.getBoolean(key)`. */
  function GetBoolean(s: Settings, key: string): bool {
    key in s.booleans && s.booleans[key]
  }

  /** `settings.getStringArray(key)`. */
  function GetStringArray(s: Settings, key: string): seq<string> {
    if key in s.arrays then s.arrays[key] else []
  }

  /** `QualityGate.Status`. */
  datatype GateStatus = GateOk | GateWarn | GateError

  /** `QualityGate.Status.name()`, which is also its `toString()`. */
  function GateStatusName(s: GateStatus): string {
    match s
    case GateOk => "OK"
    case GateWarn => "WARN"
    case GateError => "ERROR"
  }

  /** `QualityGate.EvaluationStatus`. */
  datatype EvaluationStatus = NoValue | EvalOk | EvalWarn | EvalError

  /** `QualityGate.EvaluationStatus.name()`. */
  function EvaluationStatusName(s: EvaluationStatus): string {
    match s
    case NoValue => "NO_VALUE"
    case EvalOk => "OK"
    case EvalWarn => "WARN"
    case EvalError => "ERROR"
  }

  /** `QualityGate.Operator`. */
  datatype Operator = Equals | NotEquals | GreaterThan | LessThan

  /** `QualityGate.Condition`: `value` is only read when `status` is not
      NO_VALUE, as the host requires. */
  datatype Condition = Condition(
    status: EvaluationStatus,
    metricKey: string,
    operator: Operator,
    warningThreshold: Option<string>,
    errorThreshold: Option<string>,
    value: string)

  /** `QualityGate`: its status and its conditions in the host's order. */
  datatype QualityGate = QualityGate(status: GateStatus, conditions: seq<Condition>)

  /** `PostProjectAnalysisTask.ProjectAnalysis`: the project's key and name and
      the quality gate, which may be null. */
  datatype ProjectAnalysis = ProjectAnalysis(
    projectKey: string,
    projectName: string,
    qualityGate: Option<QualityGate>)
}
