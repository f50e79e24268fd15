# DaDaPush notification plugin for SonarQube — a Dafny model

The plugin runs after every SonarQube analysis. It reads per-project
notification settings from the host. It finds the settings that apply to the
analysed project. Then it either suppresses the notification or builds a push
message (a title and a content text) for the DaDaPush channel of that project.

This model covers three parts of the plugin:

- the configuration table of `AbstractComponent`: how it is rebuilt from the
  settings, how wildcard keys are resolved, the suppression rule and the
  server URL;
- the `ProjectConfig` value type and its `dadapush.projectconfig.<id>.<field>`
  property scheme;
- the decision and text building of `DaDaPushPostProjectAnalysisTask.finished`,
  up to the request handed to the push API.

Files, one module each:

- `wrappers.dfy` (`Wrappers`): `Option` stands for a nullable reference.
  `Result` and `Outcome` stand for a call that may throw.
- `java_strings.dfy` (`JavaStrings`): `startsWith`, `endsWith`, `trim`,
  `StringUtils.isEmpty` and `StringUtils.substring(s, 0, n)`, and how a
  `StringBuilder` renders null and booleans.
- `sonar_api.dfy` (`SonarApi`): the host values the plugin reads. These are
  the settings, the quality gate with its conditions and the enums.
- `project_config.dfy` (`ProjectConfigs`): `ProjectConfig` as an immutable
  datatype. Also `create`, `equals`, `toString` and the property names.
- `abstract_component.dfy` (`Components`): the class `Component`. Its
  field `projectConfigMap` is replaced by `RefreshSettings`. The module also
  holds the build loop, the function that specifies that loop and the
  lookup.
- `analysis_task.dfy` (`AnalysisTask`): the class `PostProjectAnalysisTask`
  with `Finished`. It holds a `Component` where the Java class extends
  `AbstractComponent`. The module also holds the condition filter, `translate`,
  the joining loop and the title and content.

Modelling decisions:

- Settings are a snapshot with values already decoded. String settings map a
  key to a string; a missing key reads as null. Boolean settings read false
  when missing. Array settings read empty when missing. The component keeps
  the snapshot in a field that the host may reassign between analyses, as the
  injected Java `Settings` object changes under the component.
- `HashMap` iteration order is unspecified. `GetProjectConfig` therefore
  picks a matching key nondeterministically, and its contract states only what
  holds for every order: it returns nothing exactly when no key matches, and
  otherwise the configuration stored under some matching key.
- A thrown `MessageException` is a `Failure`/`Fail` value. The build
  returns a `Result`. `RefreshSettings` assigns the table only on success, as
  the assignment at AbstractComponent.java:47 never runs when the build
  throws. So a failed refresh keeps the old table: the partially built map is
  local to the build and is never committed.
- The lookup is first-match in map order, with no priority for exact keys
  over wildcard keys. The model keeps that: an exact and a wildcard key that
  both match are equally admissible results.
- `i18n.message` and the `DecimalFormat` rendering of percentages are
  function-valued fields of `Formatting`; they are not interpreted.
- `QualityGate.Status` has `OK`, `WARN` and `ERROR`, as in the plugin API
  generation that still provides `Settings`.
- `translate` builds a local `StringBuilder` and returns a `String`; it is
  the function `Translate`. The helpers `appendValue`, `appendValuePostfix`
  and `appendValueOperatorPrefix` append to the builder they are passed.
  They are modelled as functions that return the text they append
  (`ValueText`, `ValuePostfix`, `OperatorPrefix`). The loop in `finished`
  that joins the lines is a method with a `while` loop (`JoinLines`).
- Functions that only compute (`Matches`, `Insert`, `BuildTable`,
  `CopyAll`, `ValuesChanged`, `IsPluginEnabled`, `EqualTo`, `ToString`,
  `FilterConditions`, `Join`, `Translate` with its parts, `TitleOf`,
  `StatusSection`, `ContentOf`, `Decide`) carry no contract of their own. The "Model" rows
  name the lemma or method that states what each of them yields.

## Model

| member | source | states |
|---|---|---|
| `ProjectConfigs.GettersReturnArguments` | src/main/java/com/dadapush/client/sonar/ProjectConfig.java:37-47 | each getter returns the corresponding constructor argument |
| `ProjectConfigs.Copy` | src/main/java/com/dadapush/client/sonar/ProjectConfig.java:22-26 | the cloning constructor yields a value equal to its argument, structurally and by `equals` in both directions |
| `ProjectConfigs.EqualToIsStructural` | src/main/java/com/dadapush/client/sonar/ProjectConfig.java:49-57 | `equals` holds iff all three fields are equal (null-safe), is false for null, and is reflexive, symmetric and transitive |
| `ProjectConfigs.FieldKeysDistinct` | src/main/java/com/dadapush/client/sonar/ProjectConfig.java:29-33 | no two (index, field) pairs over `project`, `channelToken` and `qg` name the same property |
| `ProjectConfigs.FieldKeyInjective` | src/main/java/com/dadapush/client/sonar/ProjectConfig.java:29-33 | two indexes read the same property for a field only if they are the same index |
| `ProjectConfigs.CreateIgnoresOtherIndexes` | src/main/java/com/dadapush/client/sonar/ProjectConfig.java:28-34 | setting any property of another index, as a string or as a boolean, leaves `create`'s result for an index unchanged |
| `ProjectConfigs.CreateDependsOnlyOnItsFields` | src/main/java/com/dadapush/client/sonar/ProjectConfig.java:28-34 | two settings that agree on the three properties of an index give equal configurations |
| `Components.CreateReadsBuildKey` | src/main/java/com/dadapush/client/sonar/AbstractComponent.java:102-108 | the configuration `create` builds carries the project key the build loop read for the same index |
| `ProjectConfigs.ToStringLayout` | src/main/java/com/dadapush/client/sonar/ProjectConfig.java:64-72 | `toString` yields `ProjectConfig{projectKey='<k>', channelToken='<t>', qgFailOnly=<b>}`; the text ends in `true}` iff the flag is set |
| `JavaStrings.TrimStart` | src/main/java/com/dadapush/client/sonar/AbstractComponent.java:130 | `trim` drops exactly the longest run of leading characters at or below U+0020 |
| `JavaStrings.TrimEnd` | src/main/java/com/dadapush/client/sonar/AbstractComponent.java:130 | and exactly the longest run of trailing ones |
| `JavaStrings.TrimEmptyIffAllTrimmable` | src/main/java/com/dadapush/client/sonar/AbstractComponent.java:129-130 | a token is blank after `trim` iff every character is at or below U+0020 |
| `JavaStrings.Truncate` | src/main/java/com/dadapush/client/sonar/DaDaPushPostProjectAnalysisTask.java:115-116 | `StringUtils.substring(s, 0, n)` is the prefix of `s` of length min(n, \|s\|) |
| `Components.MatchesIff` | src/main/java/com/dadapush/client/sonar/AbstractComponent.java:81-82 | a key ending in `*` matches iff the project key starts with the key minus its last character; any other key matches only an equal project key |
| `Components.StarMatchesEveryProject` | src/main/java/com/dadapush/client/sonar/AbstractComponent.java:81 | the key `*` matches every project key |
| `Components.InsertFailsIffKeyMissing` | src/main/java/com/dadapush/client/sonar/AbstractComponent.java:101-107 | the build fails iff some listed index has no project key, and then with the "configuration is corrupted" exception |
| `Components.InsertKeys` | src/main/java/com/dadapush/client/sonar/AbstractComponent.java:101-110 | after a successful build, a key is in the table iff it was already there or some listed index has it as project key |
| `Components.InsertKeepsKeysMatchValues` | src/main/java/com/dadapush/client/sonar/AbstractComponent.java:102-110 | every entry is stored under the project key it carries |
| `Components.InsertKeepsUntouched` | src/main/java/com/dadapush/client/sonar/AbstractComponent.java:110 | a key no listed index produces keeps its earlier entry |
| `Components.InsertLastWins` | src/main/java/com/dadapush/client/sonar/AbstractComponent.java:101-110 | of several indexes with the same project key, the entry of the last one wins |
| `Components.BuildTableShape` | src/main/java/com/dadapush/client/sonar/AbstractComponent.java:97-113 | the built table: failure iff an index lacks a project key; otherwise its keys are exactly the indexes' project keys, each entry carries its own key, and the last index wins |
| `Components.BuildProjectConfigByProjectKeyMap` | src/main/java/com/dadapush/client/sonar/AbstractComponent.java:97-113 | the loop with its `put` and early throw computes the table `BuildTable` describes |
| `Components.ValuesChangedIffValuesDiffer` | src/main/java/com/dadapush/client/sonar/AbstractComponent.java:45-51 | the change test compares the old values, copied, with the new values as sets; a table never differs from itself |
| `Components.ShouldSkipSendingNotification` | src/main/java/com/dadapush/client/sonar/AbstractComponent.java:127-139 | skip iff the token is null or blank after `trim`, or the project only wants failed gates and a gate is present with status OK |
| `Components.WithTrailingSlash` | src/main/java/com/dadapush/client/sonar/AbstractComponent.java:72-75 | the result ends in `/`: it is the URL unchanged if it already did, else the URL with `/` appended |
| `Components.WithTrailingSlashIdempotent` | src/main/java/com/dadapush/client/sonar/AbstractComponent.java:67-76 | normalising twice equals normalising once |
| `Components.Component.constructor` | src/main/java/com/dadapush/client/sonar/AbstractComponent.java:21-26 | the component starts with the given settings and an empty table |
| `Components.Component.RefreshSettings` | src/main/java/com/dadapush/client/sonar/AbstractComponent.java:38-52 | on success the table becomes the built table and `changed` reports whether the value sets differ; on failure the exception propagates and the old table stays; a repeat refresh with the same settings reports no change; every entry carries its own key |
| `Components.Component.GetSonarServerUrl` | src/main/java/com/dadapush/client/sonar/AbstractComponent.java:67-76 | null iff the setting is absent; otherwise the setting unchanged when it ends in `/`, and the setting with `/` appended when it does not |
| `Components.Component.GetProjectConfig` | src/main/java/com/dadapush/client/sonar/AbstractComponent.java:78-95 | empty iff no key of the table matches; otherwise the config stored under some matching key, whose own project key matches |
| `AnalysisTask.NotOkNorNoValue` | src/main/java/com/dadapush/client/sonar/DaDaPushPostProjectAnalysisTask.java:133-136 | a condition passes the fail-only filter iff its status is WARN or ERROR |
| `AnalysisTask.PercentageMetricLayout` | src/main/java/com/dadapush/client/sonar/DaDaPushPostProjectAnalysisTask.java:146-220 | for `new_coverage` and `new_sqale_debt_ratio`, `translate` puts `%` after the formatted value and after each present threshold |
| `AnalysisTask.OperatorPrefixInjective` | src/main/java/com/dadapush/client/sonar/DaDaPushPostProjectAnalysisTask.java:190-205 | the fixed operator table (`==`, `!=`, `>`, `<`) gives distinct operators distinct texts |
| `AnalysisTask.OtherMetricLayout` | src/main/java/com/dadapush/client/sonar/DaDaPushPostProjectAnalysisTask.java:146-220 | for every other metric `translate` adds no `%`: the value appears verbatim (`NaN` when empty) and each threshold directly follows its operator |
| `AnalysisTask.TranslateLayout` | src/main/java/com/dadapush/client/sonar/DaDaPushPostProjectAnalysisTask.java:138-220 | a NO_VALUE condition reads `<name>\nNO_VALUE`; any other reads `<name>: <STATUS>\nvalue: `, the value (`NaN`, formatted percentage or verbatim), the postfix, then the warning part and the error part in that order, each `, warning if `/`, error if ` + operator + threshold + postfix, or nothing when that threshold is null |
| `AnalysisTask.FilterKeepsAllWhenNotFailOnly` | src/main/java/com/dadapush/client/sonar/DaDaPushPostProjectAnalysisTask.java:92-96 | without the fail-only flag every condition is kept, in order |
| `AnalysisTask.FilterMembership` | src/main/java/com/dadapush/client/sonar/DaDaPushPostProjectAnalysisTask.java:92-96 | with the flag, a condition is kept iff it is WARN or ERROR |
| `AnalysisTask.FilterKeepsOrder` | src/main/java/com/dadapush/client/sonar/DaDaPushPostProjectAnalysisTask.java:92-96 | the filter preserves order: filtering a concatenation concatenates the filtered parts |
| `AnalysisTask.JoinAppend` | src/main/java/com/dadapush/client/sonar/DaDaPushPostProjectAnalysisTask.java:98-107 | joining puts one `\n` between consecutive items and none after the last |
| `AnalysisTask.JoinLines` | src/main/java/com/dadapush/client/sonar/DaDaPushPostProjectAnalysisTask.java:98-107 | the iterator loop computes that join; the empty list gives the empty string |
| `AnalysisTask.TitleNeverTruncated` | src/main/java/com/dadapush/client/sonar/DaDaPushPostProjectAnalysisTask.java:82-86 | the title is the gate status name or `Unknown Status`, which the 50-character cut never shortens |
| `AnalysisTask.ContentLayoutWithoutGate` | src/main/java/com/dadapush/client/sonar/DaDaPushPostProjectAnalysisTask.java:88-110 | the content starts with `Project: <name>\n`; without a gate it is followed by `Status: Unknown\n` and nothing else |
| `AnalysisTask.ContentLayoutWithGate` | src/main/java/com/dadapush/client/sonar/DaDaPushPostProjectAnalysisTask.java:88-108 | with a gate the content is exactly the project line, `Status: <status>\n`, the joined condition lines and a final `\n`, back to back |
| `AnalysisTask.ComposeMessage` | src/main/java/com/dadapush/client/sonar/DaDaPushPostProjectAnalysisTask.java:77-116 | the sent title and content are the title and content cut to 50 and 500 characters |
| `AnalysisTask.DecideSendsOnlyWhenAllowed` | src/main/java/com/dadapush/client/sonar/DaDaPushPostProjectAnalysisTask.java:56-69 | no config gives the no-config exit, suppression happens exactly when the skip rule holds, and otherwise a message is sent; it is sent only with a non-blank token and, for a fail-only project, a gate that is absent or not OK; the later empty-token check never fires; the sent title is whole and the content a prefix of at most 500 characters |
| `AnalysisTask.PostProjectAnalysisTask.constructor` | src/main/java/com/dadapush/client/sonar/DaDaPushPostProjectAnalysisTask.java:37-43 | the analysis task starts with a fresh component over the given settings and an empty table, and keeps the i18n and percentage formatting it was given |
| `AnalysisTask.PostProjectAnalysisTask.Finished` | src/main/java/com/dadapush/client/sonar/DaDaPushPostProjectAnalysisTask.java:45-116 | the refresh comes first and its exception ends `finished` with the old table kept; then a disabled plugin, then no matching config, then suppression, then an empty token each end it; otherwise the request built from a config the lookup may return is sent |

## Left out

- The push API call and its response handling (DaDaPushPostProjectAnalysisTask.java:72-75, 113-130) are network I/O through a foreign client. `Finished` returns the request it would send. `getBasePath` (AbstractComponent.java:54-56) and setting the client's base path are not modelled: their only use is configuring that client.
- Percentage number formatting (`Double.parseDouble` and `DecimalFormat`, including its fall-back to the raw text) is floating point and locale formatting. It is the uninterpreted `Formatting.formatPercentage`.
- `i18n.message` is a foreign lookup. It is the uninterpreted `Formatting.message`, applied to `metric.<key>.name` with the key as the default.
- How the host's `Settings` parses booleans and string arrays is not modelled. Settings are given already decoded.
- Logging and `logRelevantSettings` are observability only. The one logged fact that matters, whether the refresh saw a change, is the `changed` result of `RefreshSettings`.
- `hashCode` uses `Objects.hash`, which is foreign hashing. Set equality of configurations is modelled as value equality, which agrees with `equals`.
- `equals` against an object of another class is not modelled: the argument is a `ProjectConfig` or null.
- DaDaPushPlugin.java only registers property definitions with the host. It is not part of this model. The constants of DaDaPushNotificationProp.java are inlined as the constants of `ProjectConfigs`.
- Concurrency: the host calls `finished` sequentially, one analysis at a time.
- Components.Component.GetProjectConfig: when several keys match, the source takes the first in `HashMap` iteration order. The model does not fix that order, so it only promises the config of some matching key.
- JavaStrings.Truncate: counts Unicode scalar values, as Dafny's `string` does. `StringUtils.substring` counts UTF-16 code units, so for text with characters outside the Basic Multilingual Plane the Java cut falls earlier than the model's. The model also cannot represent the half surrogate pair Java may leave at the cut. The length bound of `DecideSendsOnlyWhenAllowed` counts the same way.
- AnalysisTask.ComposeMessage: the 50- and 500-character cuts count Unicode scalar values, not UTF-16 code units, for the reason given for `Truncate`, so a title or content with characters outside the Basic Multilingual Plane is cut later than in Java.
