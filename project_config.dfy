/** `ProjectConfig`: the immutable notification settings of one project-key
    pattern, and the property names it is read from. */
module ProjectConfigs {
  import opened Wrappers
  import opened JavaStrings
  import opened SonarApi

  /** Property names (the values of `DaDaPushNotificationProp`). */
  const ENABLED := "dadapush.enabled"
  const CONFIG := "dadapush.projectconfig"
  const PROJECT := "project"
  const CHANNEL_TOKEN := "channelToken"
  const QG_FAIL_ONLY := "qg"

  /** The three final fields; `projectKey` and `channelToken` may be null. */
  datatype ProjectConfig = ProjectConfig(
    projectKey: Option<string>,
    channelToken: Option<string>,
    qgFailOnly: bool)

  /** The getters return exactly what the constructor was given. */
  lemma GettersReturnArguments(projectKey: Option<string>, channelToken: Option<string>, qgFailOnly: bool)
    ensures ProjectConfig(projectKey, channelToken, qgFailOnly).projectKey == projectKey
    ensures ProjectConfig(projectKey, channelToken, qgFailOnly).channelToken == channelToken
    ensures ProjectConfig(projectKey, channelToken, qgFailOnly).qgFailOnly == qgFailOnly
  {
  }

  /** The cloning constructor `new ProjectConfig(c)`: the clone equals its
      original, structurally and by `equals`. */
  function Copy(c: ProjectConfig): (r: ProjectConfig)
    ensures r == c
    ensures EqualTo(r, Some(c)) && EqualTo(c, Some(r))
  {
    ProjectConfig(c.projectKey, c.channelToken, c.qgFailOnly)
  }

  /** `c.equals(o)`, with `o == None` standing for null. Fields are compared
      with the null-safe `Objects.equals`. */
  predicate EqualTo(c: ProjectConfig, o: Option<ProjectConfig>) {
    && o.Some?
    && c.qgFailOnly == o.value.qgFailOnly
    && c.projectKey == o.value.projectKey
    && c.channelToken == o.value.channelToken
  }

  /** `equals` is structural: it holds exactly when all three fields agree,
      never for null, and it is reflexive, symmetric and transitive. */
  lemma EqualToIsStructural(a: ProjectConfig, b: ProjectConfig, c: ProjectConfig)
    ensures EqualTo(a, Some(b)) <==> a == b
    ensures !EqualTo(a, None)
    ensures EqualTo(a, Some(a))
    ensures EqualTo(a, Some(b)) <==> EqualTo(b, Some(a))
    ensures EqualTo(a, Some(b)) && EqualTo(b, Some(c)) ==> EqualTo(a, Some(c))
  {
  }

  /** `CONFIG + "." + id + "."`, the prefix shared by one index's properties. */
  function ConfigurationPrefix(configurationId: string): string {
    CONFIG + "." + configurationId + "."
  }

  /** The property holding `field` of configuration index `configurationId`. */
  function FieldKey(configurationId: string, field: string): (r: string)
    ensures r == "dadapush.projectconfig." + configurationId + "." + field
  {
    ConfigurationPrefix(configurationId) + field
  }

  /** Distinct indexes read distinct properties for the same field. */
  lemma FieldKeyInjective(id1: string, id2: string, field: string)
    requires FieldKey(id1, field) == FieldKey(id2, field)
    ensures id1 == id2
  {
    var k1, k2 := FieldKey(id1, field), FieldKey(id2, field);
    assert |id1| == |id2|;
    var n := |CONFIG| + 1;
    assert id1 == k1[n..n + |id1|];
    assert id2 == k2[n..n + |id2|];
  }

  /** The three properties an index has. */
  predicate IsField(field: string) {
    field == PROJECT || field == CHANNEL_TOKEN || field == QG_FAIL_ONLY
  }

  /** No two (index, field) pairs name the same property: the three field
      names end in different characters, and for one field the index is
      recovered from the property name. */
  lemma FieldKeysDistinct(id1: string, field1: string, id2: string, field2: string)
    requires IsField(field1) && IsField(field2)
    ensures FieldKey(id1, field1) == FieldKey(id2, field2) <==> id1 == id2 && field1 == field2
  {
    var k1, k2 := FieldKey(id1, field1), FieldKey(id2, field2);
    if k1 == k2 {
      assert k1[|k1| - 1] == field1[|field1| - 1];
      assert k2[|k2| - 1] == field2[|field2| - 1];
      FieldKeyInjective(id1, id2, field1);
    }
  }

  /** `ProjectConfig.create(settings, id)`: reads
      `dadapush.projectconfig.<id>.project`, `.channelToken` and `.qg`. */
  function Create(settings: Settings, configurationId: string): (r: ProjectConfig)
    ensures r.projectKey == GetString(settings, "dadapush.projectconfig." + configurationId + ".project")
    ensures r.channelToken == GetString(settings, "dadapush.projectconfig." + configurationId + ".channelToken")
    ensures r.qgFailOnly == GetBoolean(settings, "dadapush.projectconfig." + configurationId + ".qg")
  {
    var projectKey := GetString(settings, FieldKey(configurationId, PROJECT));
    var channelToken := GetString(settings, FieldKey(configurationId, CHANNEL_TOKEN));
    var qgFailOnly := GetBoolean(settings, FieldKey(configurationId, QG_FAIL_ONLY));
    assert FieldKey(configurationId, PROJECT) == "dadapush.projectconfig." + configurationId + ".project";
    assert FieldKey(configurationId, CHANNEL_TOKEN) == "dadapush.projectconfig." + configurationId + ".channelToken";
    assert FieldKey(configurationId, QG_FAIL_ONLY) == "dadapush.projectconfig." + configurationId + ".qg";
    ProjectConfig(projectKey, channelToken, qgFailOnly)
  }

  /** `create` reads nothing but the three properties of its own index:
      setting a property of any other index leaves its result unchanged. */
  lemma CreateIgnoresOtherIndexes(settings: Settings, id: string, other: string, field: string, v: string, b: bool)
    requires other != id && IsField(field)
    ensures var k := FieldKey(other, field);
      && Create(settings.(strings := settings.strings[k := v]), id) == Create(settings, id)
      && Create(settings.(booleans := settings.booleans[k := b]), id) == Create(settings, id)
  {
    FieldKeysDistinct(other, field, id, PROJECT);
    FieldKeysDistinct(other, field, id, CHANNEL_TOKEN);
    FieldKeysDistinct(other, field, id, QG_FAIL_ONLY);
  }

  /** Two settings that agree on the three properties of `id` give equal
      configurations. */
  lemma CreateDependsOnlyOnItsFields(s1: Settings, s2: Settings, id: string)
    requires forall f :: IsField(f) ==> GetString(s1, FieldKey(id, f)) == GetString(s2, FieldKey(id, f))
    requires forall f :: IsField(f) ==> GetBoolean(s1, FieldKey(id, f)) == GetBoolean(s2, FieldKey(id, f))
    ensures Create(s1, id) == Create(s2, id)
  {
    assert IsField(PROJECT) && IsField(CHANNEL_TOKEN) && IsField(QG_FAIL_ONLY);
  }

  /** `toString()`: the appends of the key and the token, then of the flag. */
  function ToString(c: ProjectConfig): string {
    ToStringHead(c) + RenderBool(c.qgFailOnly) + "}"
  }

  /** Everything `toString` appends before the flag. */
  function ToStringHead(c: ProjectConfig): string {
    "ProjectConfig{projectKey='" + Render(c.projectKey)
    + "', channelToken='" + Render(c.channelToken) + "', qgFailOnly="
  }

  /** `toString` yields `ProjectConfig{projectKey='<k>', channelToken='<t>',
      qgFailOnly=<b>}`, and its ending tells the flag. */
  lemma ToStringLayout(c: ProjectConfig)
    ensures ToString(c) == "ProjectConfig{projectKey='" + Render(c.projectKey)
                           + "', channelToken='" + Render(c.channelToken)
                           + "', qgFailOnly=" + RenderBool(c.qgFailOnly) + "}"
    ensures EndsWith(ToString(c), "true}") <==> c.qgFailOnly
  {
    var h, s := ToStringHead(c), ToString(c);
    if c.qgFailOnly {
      assert s[|h|..] == "true}";
    } else {
      assert s[|s| - 5..] == "alse}";
    }
  }
}
