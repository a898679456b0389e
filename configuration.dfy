/** configuration.go: the export configuration derived from the viper settings. */
module Configuration {
  import opened Wrappers
  import opened GoStrings
  import opened Operator

  /** The viper settings configurationFromViper reads, as plain values. */
  datatype Viper = Viper(
    grafanaUrl: string,
    grafanaToken: string,
    labelName: string,
    labelValue: string,
    namespace: string,
    tags: string,
    folders: bool)

  /** grafanaOperatorConfiguration; `labels` is None for a nil map. */
  datatype GrafanaOperatorConfiguration = GrafanaOperatorConfiguration(labels: Option<map<string, string>>)

  datatype GrafanaConfiguration = GrafanaConfiguration(url: string, token: string, operator: GrafanaOperatorConfiguration)

  /** configuration; an empty `tags` stands for the nil slice. */
  datatype Configuration = Configuration(
    grafana: GrafanaConfiguration,
    namespace: string,
    tags: seq<string>,
    folders: bool)

  /** The label selector used when no label name is configured. */
  const DefaultLabels: map<string, string> := map["dashboards" := "grafana"]

  /** configurationFromViper. */
  function ConfigurationFromViper(v: Viper): (c: Configuration)
    ensures c.grafana.operator.labels.Some?
    ensures |c.grafana.operator.labels.value| == 1
    ensures v.labelName != "" ==> c.grafana.operator.labels.value == map[v.labelName := v.labelValue]
    ensures v.labelName == "" ==> c.grafana.operator.labels.value == DefaultLabels
    ensures c.tags == [] <==> v.tags == ""
    ensures v.tags != "" ==> Join(c.tags, ',') == v.tags
    ensures forall i :: 0 <= i < |c.tags| ==> ',' !in c.tags[i]
    ensures c.grafana.url == v.grafanaUrl && c.grafana.token == v.grafanaToken
    ensures c.namespace == v.namespace && c.folders == v.folders
  {
    var labels := if v.labelName != "" then map[v.labelName := v.labelValue] else DefaultLabels;
    var tags := if v.tags != "" then Split(v.tags, ',') else [];
    SplitThenJoin(v.tags, ',');
    Configuration(
      GrafanaConfiguration(v.grafanaUrl, v.grafanaToken, GrafanaOperatorConfiguration(Some(labels))),
      v.namespace,
      tags,
      v.folders)
  }

  /** configuration.instanceSelector. */
  function InstanceSelector(c: Configuration): (s: Option<LabelSelector>)
    ensures s.None? <==> c.grafana.operator.labels.None?
    ensures s.Some? ==> s.value.matchLabels == c.grafana.operator.labels.value
  {
    match c.grafana.operator.labels
    case None => None
    case Some(labels) => Some(LabelSelector(labels))
  }

  /** Every configuration derived from viper selects exactly one label pair: the configured one,
      or dashboards=grafana when no label name is set. */
  lemma {:induction false} SelectorHasOnePair(v: Viper)
    ensures var s := InstanceSelector(ConfigurationFromViper(v));
      && s.Some?
      && |s.value.matchLabels| == 1
      && (v.labelName != "" ==> v.labelName in s.value.matchLabels && s.value.matchLabels[v.labelName] == v.labelValue)
      && (v.labelName == "" ==> "dashboards" in s.value.matchLabels && s.value.matchLabels["dashboards"] == "grafana")
  {
    var c := ConfigurationFromViper(v);
    assert c.grafana.operator.labels.Some?;
  }

  /** The configured tags are the comma-separated pieces of the tags setting, split again
      exactly as they were: splitting their join reproduces them. */
  lemma {:induction false} TagsAreThePieces(v: Viper)
    requires v.tags != ""
    ensures var tags := ConfigurationFromViper(v).tags;
      |tags| >= 1 && Split(Join(tags, ','), ',') == tags
  {
    var tags := ConfigurationFromViper(v).tags;
    JoinThenSplit(tags, ',');
  }
}
