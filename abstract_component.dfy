/** `AbstractComponent`: the long-lived per-project configuration table, its
    rebuild from the settings, wildcard lookup, the suppression rule and the
    server URL. */
module Components {
  import opened Wrappers
  import opened JavaStrings
  import opened SonarApi
  import opened ProjectConfigs

  const SERVER_BASE_URL := "sonar.core.serverBaseURL"

  /** The `MessageException` thrown when an index has no project key. */
  datatype ConfigError = MessageException(message: string)

  const CorruptedConfiguration := MessageException(
    "DaDaPush Notification configuration is corrupted. At least one project specific parameter has no project key. "
    + "Contact your administrator to update this configuration in the global administration section of SonarQube.")

  /** The configuration table: project-key pattern to its configuration. */
  type Table = map<string, ProjectConfig>

  // ---------------------------------------------------------------------------
  // Wildcard matching

  /** A key ending in `*` matches every project key that starts with the key
      minus its last character; any other key matches only itself. */
  predicate Matches(key: string, projectKey: string) {
    if EndsWith(key, "*") then StartsWith(projectKey, key[..|key| - 1]) else key == projectKey
  }

  /** The same rule, character by character. */
  lemma MatchesIff(key: string, projectKey: string)
    ensures Matches(key, projectKey) <==>
      if |key| > 0 && key[|key| - 1] == '*' then
        |key| - 1 <= |projectKey| && forall i :: 0 <= i < |key| - 1 ==> projectKey[i] == key[i]
      else
        projectKey == key
  {
  }

  /** So the key `*` matches every project. */
  lemma StarMatchesEveryProject(projectKey: string)
    ensures Matches("*", projectKey)
  {
  }

  /** The keys of `table` that match `projectKey`. */
  function MatchingKeys(table: Table, projectKey: string): set<string> {
    set k | k in table && Matches(k, projectKey)
  }

  /** What `getProjectConfig` may return: nothing exactly when no key
      matches, otherwise the configuration stored under some matching key. */
  ghost predicate ResolvesTo(table: Table, projectKey: string, r: Option<ProjectConfig>) {
    && (r.None? <==> MatchingKeys(table, projectKey) == {})
    && (r.Some? ==> exists k :: k in MatchingKeys(table, projectKey) && r.value == table[k])
  }

  // ---------------------------------------------------------------------------
  // Building the table from the settings

  /** The project key read for index `id` by the build loop. */
  function ProjectKeyOf(settings: Settings, id: string): Option<string> {
    GetString(settings, CONFIG + "." + id + "." + PROJECT)
  }

  /** The build files each configuration under the very property `create`
      reads its project key from. */
  lemma CreateReadsBuildKey(settings: Settings, id: string)
    ensures Create(settings, id).projectKey == ProjectKeyOf(settings, id)
  {
    assert FieldKey(id, PROJECT) == CONFIG + "." + id + "." + PROJECT;
  }

  /** The build loop continued from table `acc` over the indexes `ids`, in
      order: each index with a project key overwrites that key's entry, and
      the first index without one aborts the build. */
  function Insert(settings: Settings, ids: seq<string>, acc: Table): Result<Table, ConfigError>
    decreases |ids|
  {
    if ids == [] then Success(acc)
    else
      match ProjectKeyOf(settings, ids[0])
      case None => Failure(CorruptedConfiguration)
      case Some(projectKey) => Insert(settings, ids[1..], acc[projectKey := Create(settings, ids[0])])
  }

  /** What `buildProjectConfigByProjectKeyMap(settings)` yields. */
  function BuildTable(settings: Settings): Result<Table, ConfigError> {
    Insert(settings, GetStringArray(settings, CONFIG), map[])
  }

  /** Every entry is stored under the project key it was read with. */
  ghost predicate KeysMatchValues(table: Table) {
    forall k :: k in table ==> table[k].projectKey == Some(k)
  }

  /** Some index among `ids` has no project key. */
  ghost predicate SomeKeyMissing(settings: Settings, ids: seq<string>) {
    exists i :: 0 <= i < |ids| && ProjectKeyOf(settings, ids[i]).None?
  }

  /** Some index among `ids` has project key `k`. */
  ghost predicate SomeIndexHasKey(settings: Settings, ids: seq<string>, k: string) {
    exists i :: 0 <= i < |ids| && ProjectKeyOf(settings, ids[i]) == Some(k)
  }

  /** Index `i` is the last one in `ids` with its project key. */
  ghost predicate LastWithItsKey(settings: Settings, ids: seq<string>, i: int)
    requires 0 <= i < |ids|
  {
    forall j :: i < j < |ids| ==> ProjectKeyOf(settings, ids[j]) != ProjectKeyOf(settings, ids[i])
  }

  lemma {:induction false} InsertFailsIffKeyMissing(settings: Settings, ids: seq<string>, acc: Table)
    ensures Insert(settings, ids, acc).Failure? <==> SomeKeyMissing(settings, ids)
    ensures Insert(settings, ids, acc).Failure? ==> Insert(settings, ids, acc).error == CorruptedConfiguration
    decreases |ids|
  {
    if ids != [] {
      match ProjectKeyOf(settings, ids[0])
      case None =>
        assert ProjectKeyOf(settings, ids[0]).None?;
      case Some(projectKey) =>
        InsertFailsIffKeyMissing(settings, ids[1..], acc[projectKey := Create(settings, ids[0])]);
        if SomeKeyMissing(settings, ids) {
          var i :| 0 <= i < |ids| && ProjectKeyOf(settings, ids[i]).None?;
          assert ids[1..][i - 1] == ids[i];
        }
        if SomeKeyMissing(settings, ids[1..]) {
          var i :| 0 <= i < |ids[1..]| && ProjectKeyOf(settings, ids[1..][i]).None?;
          assert ids[i + 1] == ids[1..][i];
        }
    }
  }

  lemma {:induction false} InsertKeys(settings: Settings, ids: seq<string>, acc: Table, k: string)
    requires Insert(settings, ids, acc).Success?
    ensures k in Insert(settings, ids, acc).value <==> k in acc || SomeIndexHasKey(settings, ids, k)
    decreases |ids|
  {
    if ids != [] {
      var projectKey := ProjectKeyOf(settings, ids[0]).value;
      InsertKeys(settings, ids[1..], acc[projectKey := Create(settings, ids[0])], k);
      if SomeIndexHasKey(settings, ids, k) && k != projectKey {
        var i :| 0 <= i < |ids| && ProjectKeyOf(settings, ids[i]) == Some(k);
        assert ids[1..][i - 1] == ids[i];
      }
      if SomeIndexHasKey(settings, ids[1..], k) {
        var i :| 0 <= i < |ids[1..]| && ProjectKeyOf(settings, ids[1..][i]) == Some(k);
        assert ids[i + 1] == ids[1..][i];
      }
    }
  }

  lemma {:induction false} InsertKeepsKeysMatchValues(settings: Settings, ids: seq<string>, acc: Table)
    requires Insert(settings, ids, acc).Success?
    requires KeysMatchValues(acc)
    ensures KeysMatchValues(Insert(settings, ids, acc).value)
    decreases |ids|
  {
    if ids != [] {
      var projectKey := ProjectKeyOf(settings, ids[0]).value;
      var acc' := acc[projectKey := Create(settings, ids[0])];
      CreateReadsBuildKey(settings, ids[0]);
      InsertKeepsKeysMatchValues(settings, ids[1..], acc');
    }
  }

  /** A key that no index produces keeps its entry from `acc`. */
  lemma {:induction false} InsertKeepsUntouched(settings: Settings, ids: seq<string>, acc: Table, k: string)
    requires Insert(settings, ids, acc).Success?
    requires k in acc && !SomeIndexHasKey(settings, ids, k)
    ensures k in Insert(settings, ids, acc).value && Insert(settings, ids, acc).value[k] == acc[k]
    decreases |ids|
  {
    if ids != [] {
      var projectKey := ProjectKeyOf(settings, ids[0]).value;
      assert projectKey != k;
      InsertKeepsUntouched(settings, ids[1..], acc[projectKey := Create(settings, ids[0])], k);
    }
  }

  lemma {:induction false} InsertLastWins(settings: Settings, ids: seq<string>, acc: Table, i: int)
    requires Insert(settings, ids, acc).Success?
    requires 0 <= i < |ids| && LastWithItsKey(settings, ids, i)
    ensures ProjectKeyOf(settings, ids[i]).Some?
    ensures ProjectKeyOf(settings, ids[i]).value in Insert(settings, ids, acc).value
    ensures Insert(settings, ids, acc).value[ProjectKeyOf(settings, ids[i]).value] == Create(settings, ids[i])
    decreases |ids|
  {
    InsertFailsIffKeyMissing(settings, ids, acc);
    var projectKey := ProjectKeyOf(settings, ids[0]).value;
    var acc' := acc[projectKey := Create(settings, ids[0])];
    if i == 0 {
      InsertKeepsUntouched(settings, ids[1..], acc', projectKey);
    } else {
      assert ids[1..][i - 1] == ids[i];
      assert LastWithItsKey(settings, ids[1..], i - 1) by {
        forall j | i - 1 < j < |ids[1..]|
          ensures ProjectKeyOf(settings, ids[1..][j]) != ProjectKeyOf(settings, ids[1..][i - 1])
        {
          assert ids[1..][j] == ids[j + 1];
        }
      }
      InsertLastWins(settings, ids[1..], acc', i - 1);
    }
  }

  /** The table a build yields: it fails exactly when some listed index has no
      project key; otherwise its keys are exactly the indexes' project keys,
      each entry carries the key it is stored under, and of several indexes
      with the same key the later one wins. */
  lemma BuildTableShape(settings: Settings)
    ensures var ids := GetStringArray(settings, CONFIG);
      && (BuildTable(settings).Failure? <==> SomeKeyMissing(settings, ids))
      && (BuildTable(settings).Failure? ==> BuildTable(settings).error == CorruptedConfiguration)
      && (BuildTable(settings).Success? ==>
            && (forall k :: k in BuildTable(settings).value <==> SomeIndexHasKey(settings, ids, k))
            && KeysMatchValues(BuildTable(settings).value)
            && forall i :: 0 <= i < |ids| && LastWithItsKey(settings, ids, i) ==>
                 BuildTable(settings).value[ProjectKeyOf(settings, ids[i]).value] == Create(settings, ids[i]))
  {
    var ids := GetStringArray(settings, CONFIG);
    InsertFailsIffKeyMissing(settings, ids, map[]);
    if BuildTable(settings).Success? {
      forall k ensures k in BuildTable(settings).value <==> SomeIndexHasKey(settings, ids, k) {
        InsertKeys(settings, ids, map[], k);
      }
      InsertKeepsKeysMatchValues(settings, ids, map[]);
      forall i | 0 <= i < |ids| && LastWithItsKey(settings, ids, i)
        ensures BuildTable(settings).value[ProjectKeyOf(settings, ids[i]).value] == Create(settings, ids[i])
      {
        InsertLastWins(settings, ids, map[], i);
      }
    }
  }

  /** `buildProjectConfigByProjectKeyMap`: a loop over the configured indexes
      that puts each index's configuration under its project key, and throws
      at the first index without one. */
  method BuildProjectConfigByProjectKeyMap(settings: Settings) returns (r: Result<Table, ConfigError>)
    ensures r == BuildTable(settings)
  {
    var table := map[];
    var projectConfigIndexes := GetStringArray(settings, CONFIG);
    var i := 0;
    while i < |projectConfigIndexes|
      invariant 0 <= i <= |projectConfigIndexes|
      invariant Insert(settings, projectConfigIndexes[i..], table) == BuildTable(settings)
    {
      var projectConfigIndex := projectConfigIndexes[i];
      assert projectConfigIndexes[i..][1..] == projectConfigIndexes[i + 1..];
      var projectKeyProperty := CONFIG + "." + projectConfigIndex + "." + PROJECT;
      var projectKey := GetString(settings, projectKeyProperty);
      if projectKey.None? {
        return Failure(CorruptedConfiguration);
      }
      var value := Create(settings, projectConfigIndex);
      table := table[projectKey.value := value];
      i := i + 1;
    }
    return Success(table);
  }

  // ---------------------------------------------------------------------------
  // Change detection

  /** The `oldValues` set: a copy of every configuration in `values`. */
  function CopyAll(values: set<ProjectConfig>): set<ProjectConfig> {
    set c | c in values :: Copy(c)
  }

  /** Whether the refresh logs a change: the copied old values differ, as a
      set compared by `equals`, from the new values. */
  function ValuesChanged(oldTable: Table, newTable: Table): bool {
    CopyAll(oldTable.Values) != newTable.Values
  }

  /** The change test compares the configurations themselves: copying loses
      nothing, so a table never differs from itself. */
  lemma ValuesChangedIffValuesDiffer(oldTable: Table, newTable: Table)
    ensures ValuesChanged(oldTable, newTable) <==> oldTable.Values != newTable.Values
    ensures !ValuesChanged(newTable, newTable)
  {
  }

  // ---------------------------------------------------------------------------
  // Suppression

  /** `shouldSkipSendingNotification`: skip when the channel token is null or
      blank after `trim`, or when the project only wants failed gates and the
      gate is present and passed. */
  function ShouldSkipSendingNotification(projectConfig: ProjectConfig, qualityGate: Option<QualityGate>): (r: bool)
    ensures r <==>
      || projectConfig.channelToken.None?
      || AllTrimmable(projectConfig.channelToken.value)
      || (projectConfig.qgFailOnly && qualityGate.Some? && qualityGate.value.status == GateOk)
  {
    if projectConfig.channelToken.None? then
      true
    else
      TrimEmptyIffAllTrimmable(projectConfig.channelToken.value);
      if "" == Trim(projectConfig.channelToken.value) then
        true
      else if projectConfig.qgFailOnly && qualityGate.Some? && qualityGate.value.status == GateOk then
        true
      else
        false
  }

  // ---------------------------------------------------------------------------
  // Server URL

  /** The URL with a trailing `/`: unchanged when it has one, else with `/`
      appended. */
  function WithTrailingSlash(u: string): (r: string)
    ensures EndsWith(r, "/")
    ensures EndsWith(u, "/") ==> r == u
    ensures !EndsWith(u, "/") ==> r == u + "/"
  {
    if EndsWith(u, "/") then u else u + "/"
  }

  lemma WithTrailingSlashIdempotent(u: string)
    ensures WithTrailingSlash(WithTrailingSlash(u)) == WithTrailingSlash(u)
  {
  }

  // ---------------------------------------------------------------------------
  // The component

  class Component {
    /** The host's settings object; the host keeps it up to date. */
    var settings: Settings
    var projectConfigMap: Table

    ghost predicate Valid()
      reads this
    {
      KeysMatchValues(projectConfigMap)
    }

    constructor(settings: Settings)
      ensures Valid()
      ensures this.settings == settings && projectConfigMap == map[]
    {
      this.settings := settings;
      projectConfigMap := map[];
    }

    /** `refreshSettings`: rebuilds the table from the current settings. The
        table is replaced only when the build succeeds, so a failed refresh
        keeps the old one; `changed` says whether the change is logged. */
    method RefreshSettings() returns (outcome: Outcome<ConfigError>, changed: bool)
      requires Valid()
      modifies this`projectConfigMap
      ensures Valid()
      ensures BuildTable(settings).Failure? ==>
        && outcome == Fail(CorruptedConfiguration)
        && projectConfigMap == old(projectConfigMap)
        && !changed
      ensures BuildTable(settings).Success? ==>
        && outcome == Pass
        && projectConfigMap == BuildTable(settings).value
        && (changed <==> old(projectConfigMap).Values != projectConfigMap.Values)
      // a second refresh with the same settings reports no change
      ensures BuildTable(settings).Success? && old(projectConfigMap) == projectConfigMap ==> !changed
    {
      var oldValues := CopyAll(projectConfigMap.Values);
      ghost var oldTable := projectConfigMap;
      BuildTableShape(settings);
      var built := BuildProjectConfigByProjectKeyMap(settings);
      if built.Failure? {
        return Fail(built.error), false;
      }
      projectConfigMap := built.value;
      var newValues := projectConfigMap.Values;
      changed := oldValues != newValues;
      ValuesChangedIffValuesDiffer(oldTable, projectConfigMap);
      outcome := Pass;
    }

    /** `isPluginEnabled`. */
    function IsPluginEnabled(): bool
      reads this
    {
      GetBoolean(settings, ENABLED)
    }

    /** `getSonarServerUrl`: null when the setting is absent, otherwise the
        setting with a trailing `/`. */
    function GetSonarServerUrl(): (r: Option<string>)
      reads this
      ensures r.None? <==> SERVER_BASE_URL !in settings.strings
      ensures r.Some? ==> EndsWith(r.value, "/") && WithTrailingSlash(r.value) == r.value
      ensures r.Some? ==> r.value == WithTrailingSlash(settings.strings[SERVER_BASE_URL])
      ensures r.Some? && EndsWith(settings.strings[SERVER_BASE_URL], "/") ==> r.value == settings.strings[SERVER_BASE_URL]
      ensures r.Some? && !EndsWith(settings.strings[SERVER_BASE_URL], "/") ==> r.value == settings.strings[SERVER_BASE_URL] + "/"
    {
      var u := GetString(settings, SERVER_BASE_URL);
      if u.None? then None else Some(WithTrailingSlash(u.value))
    }

    /** `getProjectConfig`: the configuration of some key matching
        `projectKey`, or nothing when none matches. The source takes the
        first match in `HashMap` order, which is unspecified, so the choice
        among several matches is left open. */
    method GetProjectConfig(projectKey: string) returns (r: Option<ProjectConfig>)
      ensures ResolvesTo(projectConfigMap, projectKey, r)
      ensures r.None? <==> forall k :: k in projectConfigMap ==> !Matches(k, projectKey)
      ensures Valid() && r.Some? ==> r.value.projectKey.Some? && Matches(r.value.projectKey.value, projectKey)
    {
      var projectConfigs := MatchingKeys(projectConfigMap, projectKey);
      if projectConfigs == {} {
        forall k | k in projectConfigMap ensures !Matches(k, projectKey) {
          assert k !in projectConfigs;
        }
        return None;
      }
      var first :| first in projectConfigs;
      return Some(projectConfigMap[first]);
    }
  }
}
