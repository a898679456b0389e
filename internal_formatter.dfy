/** internal/formatter.go: the older revision's OperatorFormatter, which writes a dashboard or a
    list of datasources as grafana-operator custom resources. */
module Formatter {
  import opened Wrappers
  import opened Json
  import opened Operator
  import opened Output
  import opened Fetcher

  /** gapi.DataSource of the grafana-api-golang-client; the formatter reads only its name and
      embeds the rest unchanged. */
  datatype GapiDataSource = GapiDataSource(id: int, uid: string, name: string, dsType: string, url: string, access: string)

  /** OperatorFormatter. */
  datatype OperatorFormatter = OperatorFormatter(namespace: string, grafanaLabelName: string, grafanaLabelValue: string)

  datatype Metadata = Metadata(name: string, namespace: string)

  datatype InstanceSelector = InstanceSelector(matchLabels: map<string, string>)

  /** grafanaOperatorCustomResourceSpec; `json` is the indented JSON of a dashboard model, and
      `datasource` is None when nil. */
  datatype CustomResourceSpec = CustomResourceSpec(
    allowCrossNamespaceImport: bool,
    folder: string,
    instanceSelector: InstanceSelector,
    json: string,
    datasource: Option<GapiDataSource>)

  /** grafanaOperatorCustomResource: a GrafanaDashboard or a GrafanaDataSource without status. */
  datatype CustomResource = CustomResource(apiVersion: string, kind: string, metadata: Metadata, spec: CustomResourceSpec)

  /** The YAML keys the encoder writes for the metadata: the namespace has no omitempty tag. */
  function MetadataKeys(m: Metadata): set<string>
  {
    {"name", "namespace"}
  }

  /** The YAML keys the encoder writes for the spec: folder, json and datasource carry
      omitempty and are left out when empty. */
  function SpecKeys(s: CustomResourceSpec): set<string>
  {
    {"allowCrossNamespaceImport", "instanceSelector"}
    + (if s.folder != "" then {"folder"} else {})
    + (if s.json != "" then {"json"} else {})
    + (if s.datasource.Some? then {"datasource"} else {})
  }

  /** The foreign encoders: slug.Make, the indenting JSON encoder and the YAML encoder (which
      may fail; the model takes a failed YAML encoding to leave no partial document). */
  datatype Encoders = Encoders(
    slug: string -> string,
    json: JValue -> Result<string>,
    yaml: CustomResource -> Result<string>)

  /** The single-pair label selector both custom resources carry. */
  function Selector(o: OperatorFormatter): InstanceSelector
  {
    InstanceSelector(map[o.grafanaLabelName := o.grafanaLabelValue])
  }

  /** The GrafanaDashboard resource FormatDashboard encodes, given the dashboard model's JSON. */
  function DashboardCR(o: OperatorFormatter, enc: Encoders, dashboard: Dashboard, json: string): CustomResource
  {
    CustomResource(GroupVersion, "GrafanaDashboard",
      Metadata(enc.slug(dashboard.title), o.namespace),
      CustomResourceSpec(true, dashboard.folder, Selector(o), json, None))
  }

  /** The GrafanaDataSource resource FormatDataSources encodes for one datasource. */
  function DataSourceCR(o: OperatorFormatter, enc: Encoders, dataSource: GapiDataSource): CustomResource
  {
    CustomResource(GroupVersion, "GrafanaDataSource",
      Metadata("datasource-" + enc.slug(dataSource.name), o.namespace),
      CustomResourceSpec(false, "", Selector(o), "", Some(dataSource)))
  }

  /** The dashboard resource: a GrafanaDashboard named by the slug of the title, in the
      formatter's namespace (always written out), importable across namespaces, in the
      dashboard's folder, selecting exactly the formatter's label pair, carrying the JSON. */
  lemma DashboardCRShape(o: OperatorFormatter, enc: Encoders, dashboard: Dashboard, json: string)
    ensures var cr := DashboardCR(o, enc, dashboard, json);
      && cr.apiVersion == "grafana.integreatly.org/v1beta1" && cr.kind == "GrafanaDashboard"
      && cr.metadata == Metadata(enc.slug(dashboard.title), o.namespace)
      && "namespace" in MetadataKeys(cr.metadata)
      && cr.spec.allowCrossNamespaceImport && cr.spec.folder == dashboard.folder && cr.spec.json == json
      && cr.spec.instanceSelector.matchLabels.Keys == {o.grafanaLabelName}
      && cr.spec.instanceSelector.matchLabels[o.grafanaLabelName] == o.grafanaLabelValue
      && ("folder" in SpecKeys(cr.spec) <==> dashboard.folder != "")
      && "datasource" !in SpecKeys(cr.spec)
  {
  }

  /** The datasource resource: kind GrafanaDataSource with a capital S, named "datasource-"
      and the slug of the datasource's name, in the formatter's namespace, selecting exactly
      the formatter's label pair, embedding the datasource, with no folder and no JSON. */
  lemma DataSourceCRShape(o: OperatorFormatter, enc: Encoders, dataSource: GapiDataSource)
    ensures var cr := DataSourceCR(o, enc, dataSource);
      && cr.apiVersion == "grafana.integreatly.org/v1beta1" && cr.kind == "GrafanaDataSource"
      && cr.metadata == Metadata("datasource-" + enc.slug(dataSource.name), o.namespace)
      && "namespace" in MetadataKeys(cr.metadata)
      && !cr.spec.allowCrossNamespaceImport
      && cr.spec.instanceSelector.matchLabels.Keys == {o.grafanaLabelName}
      && cr.spec.instanceSelector.matchLabels[o.grafanaLabelName] == o.grafanaLabelValue
      && cr.spec.datasource == Some(dataSource)
      && SpecKeys(cr.spec) == {"allowCrossNamespaceImport", "instanceSelector", "datasource"}
  {
  }

  /** What FormatDashboard does: a model that does not encode is an error before anything is
      written; otherwise the separator is written, then the YAML document, or the YAML
      encoder's error is returned as it is. */
  function DashboardStep(o: OperatorFormatter, enc: Encoders, dashboard: Dashboard): Step
  {
    match enc.json(dashboard.model)
    case Err(e) => Failed("", Wrapped("encode dashboard model", e))
    case Ok(json) =>
      match enc.yaml(DashboardCR(o, enc, dashboard, json))
      case Err(e) => Failed(Separator, e)
      case Ok(body) => Wrote(Document(body))
  }

  /** OperatorFormatter.FormatDashboard. */
  method FormatDashboard(w: Writer, o: OperatorFormatter, enc: Encoders, dashboard: Dashboard)
    returns (err: Option<Error>)
    modifies w
    ensures DashboardStep(o, enc, dashboard).Wrote? ==>
      err.None? && w.written == old(w.written) + DashboardStep(o, enc, dashboard).text
    ensures DashboardStep(o, enc, dashboard).Failed? ==>
      err == Some(DashboardStep(o, enc, dashboard).error) && w.written == old(w.written) + DashboardStep(o, enc, dashboard).partial
  {
    var json := enc.json(dashboard.model);
    if json.Err? {
      return Some(Wrapped("encode dashboard model", json.error));
    }
    var cr := DashboardCR(o, enc, dashboard, json.value);
    w.Write(Separator);
    var body := enc.yaml(cr);
    if body.Err? {
      return Some(body.error);
    }
    w.Write(body.value);
    return None;
  }

  /** FormatDashboard's outcomes: a JSON failure writes nothing and names the model encoding;
      a YAML failure leaves just the separator; success writes the separator and the
      document of the resource built from the model's JSON. */
  lemma DashboardStepCases(o: OperatorFormatter, enc: Encoders, dashboard: Dashboard)
    ensures enc.json(dashboard.model).Err? ==>
      DashboardStep(o, enc, dashboard) == Failed("", Wrapped("encode dashboard model", enc.json(dashboard.model).error))
    ensures enc.json(dashboard.model).Ok? ==>
      var cr := DashboardCR(o, enc, dashboard, enc.json(dashboard.model).value);
      && (enc.yaml(cr).Err? ==> DashboardStep(o, enc, dashboard) == Failed(Separator, enc.yaml(cr).error))
      && (enc.yaml(cr).Ok? ==> DashboardStep(o, enc, dashboard) == Wrote(Separator + enc.yaml(cr).value))
  {
  }

  /** What FormatDataSources does with one datasource: the separator, then its document, or
      the separator and a wrapped encoding error. */
  function DataSourceStep(o: OperatorFormatter, enc: Encoders, dataSource: GapiDataSource): (s: Step)
    ensures s.Failed? ==> s.partial == Separator
  {
    match enc.yaml(DataSourceCR(o, enc, dataSource))
    case Err(e) => Failed(Separator, Wrapped("encode data source cr", e))
    case Ok(body) => Wrote(Document(body))
  }

  function DataSourceSteps(o: OperatorFormatter, enc: Encoders, dataSources: seq<GapiDataSource>): (steps: seq<Step>)
    ensures |steps| == |dataSources|
    ensures forall k :: 0 <= k < |steps| ==> steps[k] == DataSourceStep(o, enc, dataSources[k])
  {
    seq(|dataSources|, k requires 0 <= k < |dataSources| => DataSourceStep(o, enc, dataSources[k]))
  }

  /** The body of FormatDataSources' loop for one datasource. */
  method FormatDataSource(w: Writer, o: OperatorFormatter, enc: Encoders, dataSource: GapiDataSource)
    returns (err: Option<Error>)
    modifies w
    ensures DataSourceStep(o, enc, dataSource).Wrote? ==>
      err.None? && w.written == old(w.written) + DataSourceStep(o, enc, dataSource).text
    ensures DataSourceStep(o, enc, dataSource).Failed? ==>
      err == Some(DataSourceStep(o, enc, dataSource).error) && w.written == old(w.written) + Separator
  {
    var cr := DataSourceCR(o, enc, dataSource);
    w.Write(Separator);
    var body := enc.yaml(cr);
    if body.Err? {
      return Some(Wrapped("encode data source cr", body.error));
    }
    w.Write(body.value);
    return None;
  }

  /** OperatorFormatter.FormatDataSources. */
  method FormatDataSources(w: Writer, o: OperatorFormatter, enc: Encoders, dataSources: seq<GapiDataSource>)
    returns (err: Option<Error>)
    modifies w
    ensures w.written == old(w.written) + Emit(DataSourceSteps(o, enc, dataSources)).output
    ensures err == Emit(DataSourceSteps(o, enc, dataSources)).error
  {
    ghost var steps := DataSourceSteps(o, enc, dataSources);
    var i := 0;
    assert steps[..0] == [];
    while i < |dataSources|
      invariant 0 <= i <= |dataSources|
      invariant w.written == old(w.written) + Emit(steps[..i]).output
      invariant Emit(steps[..i]).error.None?
    {
      PrefixSnoc(steps, i);
      EmitSnoc(steps[..i], steps[i]);
      ghost var done := Emit(steps[..i]).output;
      var e := FormatDataSource(w, o, enc, dataSources[i]);
      if e.Some? {
        EmitFailureSticks(steps, i + 1);
        AppendAssoc(old(w.written), done, steps[i].partial);
        return e;
      }
      AppendAssoc(old(w.written), done, steps[i].text);
      i := i + 1;
    }
    assert steps[..i] == steps;
    return None;
  }

  /** FormatDataSources writes one document per datasource, in order, each after the
      separator; at the first datasource that does not encode it returns the wrapped error,
      after the earlier documents and that datasource's separator. */
  lemma DataSourcesOutput(o: OperatorFormatter, enc: Encoders, dataSources: seq<GapiDataSource>, i: nat)
    requires i <= |dataSources|
    requires forall k :: 0 <= k < i ==> enc.yaml(DataSourceCR(o, enc, dataSources[k])).Ok?
    requires i < |dataSources| ==> enc.yaml(DataSourceCR(o, enc, dataSources[i])).Err?
    ensures var steps := DataSourceSteps(o, enc, dataSources);
      && (i == |dataSources| ==> Emit(steps) == Emission(Texts(steps), None))
      && (i < |dataSources| ==>
            Emit(steps) == Emission(Texts(steps[..i]) + Separator,
                                    Some(Wrapped("encode data source cr", enc.yaml(DataSourceCR(o, enc, dataSources[i])).error))))
      && (forall k :: 0 <= k < i ==> steps[k].text == Separator + enc.yaml(DataSourceCR(o, enc, dataSources[k])).value)
  {
    EmitFirstFailure(DataSourceSteps(o, enc, dataSources), i);
  }
}
