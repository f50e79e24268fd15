/** `DaDaPushPostProjectAnalysisTask`: after each analysis, decide whether to
    notify and build the title and content of the push message. */
module AnalysisTask {
  import opened Wrappers
  import opened JavaStrings
  import opened SonarApi
  import opened ProjectConfigs
  import opened Components

  /** The host services the text depends on and that are not modelled:
      `i18n.message(Locale.ENGLISH, key, default)` and the `DecimalFormat`
      rendering of a percentage value. */
  datatype Formatting = Formatting(
    message: (string, string) -> string,
    formatPercentage: string -> string)

  const NEW_COVERAGE_KEY := "new_coverage"
  const NEW_SQALE_DEBT_RATIO_KEY := "new_sqale_debt_ratio"
  const TITLE_LIMIT := 50
  const CONTENT_LIMIT := 500

  // ---------------------------------------------------------------------------
  // One condition line

  /** `notOkNorNoValue`: the condition did not pass and has a value. */
  function NotOkNorNoValue(condition: Condition): (r: bool)
    ensures r <==> condition.status == EvalWarn || condition.status == EvalError
  {
    !(condition.status == EvalOk || condition.status == NoValue)
  }

  /** `valueIsPercentage`: only the two percentage metrics. */
  function ValueIsPercentage(condition: Condition): bool {
    condition.metricKey == NEW_COVERAGE_KEY || condition.metricKey == NEW_SQALE_DEBT_RATIO_KEY
  }

  /** What `appendValueOperatorPrefix` appends. */
  function OperatorPrefix(operator: Operator): string {
    match operator
    case Equals => "=="
    case NotEquals => "!="
    case GreaterThan => ">"
    case LessThan => "<"
  }

  /** The operator table loses nothing: distinct operators print differently. */
  lemma OperatorPrefixInjective(a: Operator, b: Operator)
    ensures OperatorPrefix(a) == OperatorPrefix(b) ==> a == b
  {
  }

  /** What `appendValuePostfix` appends. */
  function ValuePostfix(condition: Condition): string {
    if ValueIsPercentage(condition) then "%" else ""
  }

  /** What `appendValue` appends: an empty value reads `NaN`, a percentage
      value goes through the number format. */
  function ValueText(fmt: Formatting, condition: Condition): string {
    "value: "
    + if condition.value == "" then "NaN"
      else if ValueIsPercentage(condition) then fmt.formatPercentage(condition.value)
      else condition.value
  }

  /** The text one threshold adds: nothing when it is null, otherwise the
      caption, the operator, the threshold and the postfix. */
  function ThresholdText(caption: string, condition: Condition, threshold: Option<string>): string {
    if threshold.None? then ""
    else caption + OperatorPrefix(condition.operator) + threshold.value + ValuePostfix(condition)
  }

  /** The builder `sb` of `translate` after its appends. */
  function Details(fmt: Formatting, condition: Condition): string {
    ValueText(fmt, condition) + ValuePostfix(condition)
    + ThresholdText(", warning if ", condition, condition.warningThreshold)
    + ThresholdText(", error if ", condition, condition.errorThreshold)
  }

  /** The name `i18n` gives the condition's metric, the key as fallback. */
  function ConditionName(fmt: Formatting, condition: Condition): string {
    fmt.message("metric." + condition.metricKey + ".name", condition.metricKey)
  }

  /** `translate`: the text of one condition. */
  function Translate(fmt: Formatting, condition: Condition): string {
    var conditionName := ConditionName(fmt, condition);
    if condition.status == NoValue then
      conditionName + "\n" + EvaluationStatusName(condition.status)
    else
      conditionName + ": " + EvaluationStatusName(condition.status) + "\n" + Details(fmt, condition)
  }

  /** A condition without a value reads `<name>\nNO_VALUE`. Any other reads
      `<name>: <STATUS>\nvalue: `, then the value (`NaN` when empty, through
      the percentage format for a percentage metric, verbatim otherwise),
      the postfix, the warning part and the error part, in that order. Each
      part is its caption, the operator, the threshold and the postfix, or
      nothing when that threshold is null. The postfix is `%` for
      `new_coverage` and `new_sqale_debt_ratio` and empty for every other
      metric. */
  lemma TranslateLayout(fmt: Formatting, condition: Condition)
    ensures var name := ConditionName(fmt, condition);
      var pct := if condition.metricKey == "new_coverage" || condition.metricKey == "new_sqale_debt_ratio" then "%" else "";
      var op := OperatorPrefix(condition.operator);
      && (condition.status == NoValue ==> Translate(fmt, condition) == name + "\nNO_VALUE")
      && (condition.status != NoValue ==>
            Translate(fmt, condition)
            == name + ": " + EvaluationStatusName(condition.status) + "\nvalue: "
               + (if condition.value == "" then "NaN"
                  else if pct == "%" then fmt.formatPercentage(condition.value)
                  else condition.value)
               + pct
               + (if condition.warningThreshold.None? then ""
                  else ", warning if " + op + condition.warningThreshold.value + pct)
               + (if condition.errorThreshold.None? then ""
                  else ", error if " + op + condition.errorThreshold.value + pct))
  {
    if condition.status != NoValue {
      var pct := if condition.metricKey == "new_coverage" || condition.metricKey == "new_sqale_debt_ratio" then "%" else "";
      var v := if condition.value == "" then "NaN"
        else if pct == "%" then fmt.formatPercentage(condition.value)
        else condition.value;
      assert ValueText(fmt, condition) == "value: " + v;
      assert ValuePostfix(condition) == pct;
      RegroupLine(ConditionName(fmt, condition), EvaluationStatusName(condition.status), v, pct,
        ThresholdText(", warning if ", condition, condition.warningThreshold),
        ThresholdText(", error if ", condition, condition.errorThreshold));
    }
  }

  /** The head of a line and the builder's text, regrouped. */
  lemma RegroupLine(name: string, status: string, v: string, pct: string, w: string, e: string)
    ensures name + ": " + status + "\n" + ("value: " + v + pct + w + e)
      == name + ": " + status + "\nvalue: " + v + pct + w + e
  {
    var head := name + ": " + status;
    assert head + "\n" + "value: " == head + "\nvalue: ";
  }

  /** For `new_coverage` and `new_sqale_debt_ratio`, `%` follows the value
      and each present threshold. */
  lemma PercentageMetricLayout(fmt: Formatting, condition: Condition)
    requires condition.status != NoValue
    requires condition.metricKey == NEW_COVERAGE_KEY || condition.metricKey == NEW_SQALE_DEBT_RATIO_KEY
    ensures Translate(fmt, condition)
      == ConditionName(fmt, condition) + ": " + EvaluationStatusName(condition.status) + "\nvalue: "
         + (if condition.value == "" then "NaN" else fmt.formatPercentage(condition.value)) + "%"
         + (if condition.warningThreshold.None? then ""
            else ", warning if " + OperatorPrefix(condition.operator) + condition.warningThreshold.value + "%")
         + (if condition.errorThreshold.None? then ""
            else ", error if " + OperatorPrefix(condition.operator) + condition.errorThreshold.value + "%")
  {
    TranslateLayout(fmt, condition);
  }

  /** For every other metric no `%` is added: the value appears verbatim
      and the thresholds follow their operators directly. */
  lemma OtherMetricLayout(fmt: Formatting, condition: Condition)
    requires condition.status != NoValue
    requires condition.metricKey != NEW_COVERAGE_KEY && condition.metricKey != NEW_SQALE_DEBT_RATIO_KEY
    ensures Translate(fmt, condition)
      == ConditionName(fmt, condition) + ": " + EvaluationStatusName(condition.status) + "\nvalue: "
         + (if condition.value == "" then "NaN" else condition.value)
         + (if condition.warningThreshold.None? then ""
            else ", warning if " + OperatorPrefix(condition.operator) + condition.warningThreshold.value)
         + (if condition.errorThreshold.None? then ""
            else ", error if " + OperatorPrefix(condition.operator) + condition.errorThreshold.value)
  {
    TranslateLayout(fmt, condition);
  }

  // ---------------------------------------------------------------------------
  // The list of condition lines

  /** The stream filter: with `qgFailOnly`, only the conditions that did not
      pass and have a value; otherwise all of them. */
  function FilterConditions(conditions: seq<Condition>, qgFailOnly: bool): seq<Condition> {
    if conditions == [] then []
    else
      (if !qgFailOnly || NotOkNorNoValue(conditions[0]) then [conditions[0]] else [])
      + FilterConditions(conditions[1..], qgFailOnly)
  }

  lemma {:induction false} FilterKeepsAllWhenNotFailOnly(conditions: seq<Condition>)
    ensures FilterConditions(conditions, false) == conditions
  {
    if conditions != [] {
      FilterKeepsAllWhenNotFailOnly(conditions[1..]);
    }
  }

  lemma {:induction false} FilterMembership(conditions: seq<Condition>, qgFailOnly: bool, c: Condition)
    ensures c in FilterConditions(conditions, qgFailOnly) <==>
      c in conditions && (!qgFailOnly || NotOkNorNoValue(c))
  {
    if conditions != [] {
      FilterMembership(conditions[1..], qgFailOnly, c);
      assert conditions == [conditions[0]] + conditions[1..];
    }
  }

  /** The filter keeps the original order: filtering a concatenation filters
      each part. */
  lemma {:induction false} FilterKeepsOrder(a: seq<Condition>, b: seq<Condition>, qgFailOnly: bool)
    ensures FilterConditions(a + b, qgFailOnly) == FilterConditions(a, qgFailOnly) + FilterConditions(b, qgFailOnly)
  {
    if a == [] {
      assert a + b == b;
    } else {
      assert (a + b)[0] == a[0];
      assert (a + b)[1..] == a[1..] + b;
      FilterKeepsOrder(a[1..], b, qgFailOnly);
    }
  }

  /** The stream map: each kept condition translated, in order. */
  function TranslateAll(fmt: Formatting, conditions: seq<Condition>): seq<string> {
    seq(|conditions|, i requires 0 <= i < |conditions| => Translate(fmt, conditions[i]))
  }

  /** The lines joined with `\n` between consecutive items and none at the end. */
  function Join(items: seq<string>): string
    decreases |items|
  {
    if |items| == 0 then ""
    else if |items| == 1 then items[0]
    else items[0] + "\n" + Join(items[1..])
  }

  /** Appending an item to a non-empty list adds one separator and the item. */
  lemma {:induction false} JoinAppend(items: seq<string>, x: string)
    requires items != []
    ensures Join(items + [x]) == Join(items) + "\n" + x
    decreases |items|
  {
    if |items| == 1 {
      assert items + [x] == [items[0], x];
      assert [items[0], x][1..] == [x];
    } else {
      assert (items + [x])[1..] == items[1..] + [x];
      JoinAppend(items[1..], x);
    }
  }

  // ---------------------------------------------------------------------------
  // Title and content

  /** The title: the gate status name, or `Unknown Status` without a gate. */
  function TitleOf(qualityGate: Option<QualityGate>): string {
    if qualityGate.Some? then GateStatusName(qualityGate.value.status) else "Unknown Status"
  }

  /** The status line and condition lines that follow the project line. */
  function StatusSection(fmt: Formatting, qualityGate: Option<QualityGate>, qgFailOnly: bool): string {
    if qualityGate.Some? then
      ("Status: " + GateStatusName(qualityGate.value.status) + "\n")
      + (Join(TranslateAll(fmt, FilterConditions(qualityGate.value.conditions, qgFailOnly))) + "\n")
    else
      "Status: Unknown\n"
  }

  /** The content before truncation. */
  function ContentOf(fmt: Formatting, analysis: ProjectAnalysis, qgFailOnly: bool): string {
    "Project: " + analysis.projectName + "\n" + StatusSection(fmt, analysis.qualityGate, qgFailOnly)
  }

  /** The title is at most 14 characters, so the 50-character cut never
      shortens it. */
  lemma TitleNeverTruncated(qualityGate: Option<QualityGate>)
    ensures Truncate(TitleOf(qualityGate), TITLE_LIMIT) == TitleOf(qualityGate)
  {
  }

  /** The content opens with the project line; without a gate it
      continues with `Status: Unknown` and ends. */
  lemma ContentLayoutWithoutGate(fmt: Formatting, analysis: ProjectAnalysis, qgFailOnly: bool)
    ensures StartsWith(ContentOf(fmt, analysis, qgFailOnly), "Project: " + analysis.projectName + "\n")
    ensures analysis.qualityGate.None? ==>
      ContentOf(fmt, analysis, qgFailOnly) == "Project: " + analysis.projectName + "\n" + "Status: Unknown\n"
  {
  }

  /** With a gate, the content is the project line, `Status: <status>`, the
      joined condition lines and a final `\n`, back to back. */
  lemma ContentLayoutWithGate(fmt: Formatting, analysis: ProjectAnalysis, qgFailOnly: bool)
    requires analysis.qualityGate.Some?
    ensures ContentOf(fmt, analysis, qgFailOnly)
      == "Project: " + analysis.projectName + "\n"
         + ("Status: " + GateStatusName(analysis.qualityGate.value.status) + "\n")
         + (Join(TranslateAll(fmt, FilterConditions(analysis.qualityGate.value.conditions, qgFailOnly))) + "\n")
  {
  }

  /** The iterator loop of `finished` that appends each translated line
      and, while more follow, a `\n`. */
  method JoinLines(collect: seq<string>) returns (result: string)
    ensures result == Join(collect)
  {
    result := "";
    var i := 0;
    while i < |collect|
      invariant 0 <= i <= |collect|
      invariant i == 0 ==> result == ""
      invariant 0 < i ==> result == Join(collect[..i]) + (if i < |collect| then "\n" else "")
    {
      var value := collect[i];
      if 0 < i {
        assert collect[..i + 1] == collect[..i] + [value];
        JoinAppend(collect[..i], value);
      } else {
        assert collect[..1] == [value];
      }
      result := result + value;
      if i + 1 < |collect| {
        result := result + "\n";
      }
      i := i + 1;
    }
    assert collect[..|collect|] == collect;
  }

  /** The message building of `finished`: the title and content builders,
      the stream over the conditions and the iterator loop that puts `\n`
      between the translated lines, then the cut to 50 and 500 characters. */
  method ComposeMessage(fmt: Formatting, analysis: ProjectAnalysis, qgFailOnly: bool)
    returns (title: string, content: string)
    ensures title == Truncate(TitleOf(analysis.qualityGate), TITLE_LIMIT)
    ensures content == Truncate(ContentOf(fmt, analysis, qgFailOnly), CONTENT_LIMIT)
  {
    var qualityGate := analysis.qualityGate;
    var titleBuilder;
    if qualityGate.Some? {
      titleBuilder := GateStatusName(qualityGate.value.status);
    } else {
      titleBuilder := "Unknown Status";
    }
    var contentBuilder := "Project: " + analysis.projectName + "\n";
    ghost var head := contentBuilder;
    if qualityGate.Some? {
      var statusLine := "Status: " + GateStatusName(qualityGate.value.status) + "\n";
      contentBuilder := contentBuilder + statusLine;
      var collect := TranslateAll(fmt, FilterConditions(qualityGate.value.conditions, qgFailOnly));
      var result := JoinLines(collect);
      contentBuilder := contentBuilder + (result + "\n");
      assert contentBuilder == head + (statusLine + (result + "\n"));
    } else {
      contentBuilder := contentBuilder + "Status: Unknown\n";
    }
    title := Truncate(titleBuilder, TITLE_LIMIT);
    content := Truncate(contentBuilder, CONTENT_LIMIT);
  }

  // ---------------------------------------------------------------------------
  // The decision

  /** The message handed to the push API, and the destination token. */
  datatype PushRequest = PushRequest(title: string, content: string, needPush: bool, channelToken: string)

  /** How `finished` ends: the exception from the refresh, one of the early
      returns, or the request it sends. */
  datatype FinishOutcome =
    | RefreshFailed(error: ConfigError)
    | PluginDisabled
    | NoProjectConfig
    | Suppressed
    | NoChannelToken
    | Send(request: PushRequest)

  /** What `finished` does once the table is refreshed and the plugin is
      enabled, given the configuration the lookup returned. */
  function Decide(fmt: Formatting, analysis: ProjectAnalysis, projectConfig: Option<ProjectConfig>): FinishOutcome {
    match projectConfig
    case None => NoProjectConfig
    case Some(pc) =>
      if ShouldSkipSendingNotification(pc, analysis.qualityGate) then Suppressed
      else if IsEmpty(pc.channelToken) then NoChannelToken
      else Send(PushRequest(
        Truncate(TitleOf(analysis.qualityGate), TITLE_LIMIT),
        Truncate(ContentOf(fmt, analysis, pc.qgFailOnly), CONTENT_LIMIT),
        true,
        pc.channelToken.value))
  }

  /** A request is sent only with a non-blank token and, for a project that
      wants failed gates only, a gate that did not pass; its title and content
      fit their limits. The empty-token check after the suppression rule
      never fires. */
  lemma DecideSendsOnlyWhenAllowed(fmt: Formatting, analysis: ProjectAnalysis, projectConfig: Option<ProjectConfig>)
    ensures Decide(fmt, analysis, projectConfig) == NoProjectConfig <==> projectConfig.None?
    ensures Decide(fmt, analysis, projectConfig) == Suppressed <==>
      projectConfig.Some? && ShouldSkipSendingNotification(projectConfig.value, analysis.qualityGate)
    ensures Decide(fmt, analysis, projectConfig).Send? <==>
      projectConfig.Some? && !ShouldSkipSendingNotification(projectConfig.value, analysis.qualityGate)
    ensures Decide(fmt, analysis, projectConfig) != NoChannelToken
    ensures Decide(fmt, analysis, projectConfig).Send? ==>
      var pc := projectConfig.value;
      var request := Decide(fmt, analysis, projectConfig).request;
      && pc.channelToken == Some(request.channelToken)
      && !AllTrimmable(request.channelToken)
      && (pc.qgFailOnly ==> analysis.qualityGate.None? || analysis.qualityGate.value.status != GateOk)
      && request.title == TitleOf(analysis.qualityGate)
      && |request.content| <= CONTENT_LIMIT
      && request.content <= ContentOf(fmt, analysis, pc.qgFailOnly)
      && request.needPush
  {
  }

  // ---------------------------------------------------------------------------
  // The post-analysis task

  class PostProjectAnalysisTask {
    /** The `AbstractComponent` part of the post-analysis task. */
    const component: Component
    const fmt: Formatting

    constructor(settings: Settings, fmt: Formatting)
      ensures fresh(component)
      ensures component.Valid() && component.settings == settings && component.projectConfigMap == map[]
      ensures this.fmt == fmt
    {
      component := new Component(settings);
      this.fmt := fmt;
    }

    /** `finished` without the call to the push API: the refresh comes first
        and its failure propagates; then a disabled plugin, a project without
        configuration, a suppressed notification and an empty token each end
        `finished`; otherwise the request is built and returned. */
    method Finished(analysis: ProjectAnalysis) returns (out: FinishOutcome)
      requires component.Valid()
      modifies component`projectConfigMap
      ensures component.Valid()
      ensures BuildTable(component.settings).Failure? ==>
        && out == RefreshFailed(CorruptedConfiguration)
        && component.projectConfigMap == old(component.projectConfigMap)
      ensures BuildTable(component.settings).Success? ==>
        && component.projectConfigMap == BuildTable(component.settings).value
        && (!component.IsPluginEnabled() ==> out == PluginDisabled)
        && (component.IsPluginEnabled() ==>
              exists choice :: ResolvesTo(component.projectConfigMap, analysis.projectKey, choice)
                               && out == Decide(fmt, analysis, choice))
    {
      var refreshed, changed := component.RefreshSettings();
      if refreshed.Fail? {
        return RefreshFailed(refreshed.error);
      }
      if !component.IsPluginEnabled() {
        return PluginDisabled;
      }
      var projectKey := analysis.projectKey;
      var projectConfigOptional := component.GetProjectConfig(projectKey);
      if projectConfigOptional.None? {
        return NoProjectConfig;
      }
      var projectConfig := projectConfigOptional.value;
      if ShouldSkipSendingNotification(projectConfig, analysis.qualityGate) {
        return Suppressed;
      }
      if IsEmpty(projectConfig.channelToken) {
        return NoChannelToken;
      }
      var title, content := ComposeMessage(fmt, analysis, projectConfig.qgFailOnly);
      out := Send(PushRequest(title, content, true, projectConfig.channelToken.value));
      assert out == Decide(fmt, analysis, projectConfigOptional);
    }
  }
}
