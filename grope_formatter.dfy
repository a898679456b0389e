/** internal/grope/formatter.go: the grope revision's formatter, which writes a dashboard or a
    list of datasources as grafana-operator custom resources, the datasources through an
    iterator of resources. */
module GropeFormatter {
  import opened Wrappers
  import opened Json
  import opened Models
  import opened Operator
  import opened Output
  import opened Fetcher
  import Internal = Formatter

  /** formatter. */
  datatype Formatter = Formatter(namespace: string, grafanaLabelName: string, grafanaLabelValue: string)

  datatype Metadata = Metadata(name: string, namespace: string)

  datatype InstanceSelector = InstanceSelector(matchLabels: map<string, string>)

  /** grafanaOperatorCustomResourceSpec; `datasource` is None when nil. */
  datatype CustomResourceSpec = CustomResourceSpec(
    allowCrossNamespaceImport: bool,
    folder: string,
    instanceSelector: InstanceSelector,
    json: string,
    datasource: Option<DataSourceListItemDTO>)

  /** grafanaOperatorCustomResource: a GrafanaDashboard or a GrafanaDatasource without status. */
  datatype CustomResource = CustomResource(apiVersion: string, kind: string, metadata: Metadata, spec: CustomResourceSpec)

  /** The YAML keys the encoder writes for the metadata: the namespace carries omitempty. */
  function MetadataKeys(m: Metadata): set<string>
  {
    {"name"} + (if m.namespace != "" then {"namespace"} else {})
  }

  /** The YAML keys the encoder writes for the spec: folder, json and datasource carry
      omitempty. */
  function SpecKeys(s: CustomResourceSpec): set<string>
  {
    {"allowCrossNamespaceImport", "instanceSelector"}
    + (if s.folder != "" then {"folder"} else {})
    + (if s.json != "" then {"json"} else {})
    + (if s.datasource.Some? then {"datasource"} else {})
  }

  /** The foreign encoders: slug.Make, the indenting JSON encoder and the YAML encoder (which
      may fail; the model takes a failed YAML encoding to leave no partial document). */
  datatype Encoders = Encoders(
    slug: string -> string,
    json: JValue -> Result<string>,
    yaml: CustomResource -> Result<string>)

  function Selector(f: Formatter): InstanceSelector
  {
    InstanceSelector(map[f.grafanaLabelName := f.grafanaLabelValue])
  }

  /** The GrafanaDashboard resource formatDashboard encodes, given the model's JSON. */
  function DashboardCR(f: Formatter, enc: Encoders, dashboard: Dashboard, json: string): CustomResource
  {
    CustomResource(GroupVersion, "GrafanaDashboard",
      Metadata(enc.slug(dashboard.title), f.namespace),
      CustomResourceSpec(true, dashboard.folder, Selector(f), json, None))
  }

  /** The GrafanaDatasource resource made for one datasource. */
  function DataSourceCR(f: Formatter, enc: Encoders, dataSource: DataSourceListItemDTO): CustomResource
  {
    CustomResource(GroupVersion, "GrafanaDatasource",
      Metadata("datasource-" + enc.slug(dataSource.name), f.namespace),
      CustomResourceSpec(false, "", Selector(f), "", Some(dataSource)))
  }

  /** The dashboard resource: a GrafanaDashboard named by the slug of the title, in the
      configured namespace, importable across namespaces, selecting exactly the configured
      label pair, in the dashboard's folder; folder, namespace and json are left out of the
      YAML when empty. */
  lemma DashboardCRShape(f: Formatter, enc: Encoders, dashboard: Dashboard, json: string)
    ensures var cr := DashboardCR(f, enc, dashboard, json);
      && cr.apiVersion == "grafana.integreatly.org/v1beta1" && cr.kind == "GrafanaDashboard"
      && cr.metadata == Metadata(enc.slug(dashboard.title), f.namespace)
      && cr.spec.allowCrossNamespaceImport && cr.spec.folder == dashboard.folder && cr.spec.json == json
      && cr.spec.instanceSelector.matchLabels.Keys == {f.grafanaLabelName}
      && cr.spec.instanceSelector.matchLabels[f.grafanaLabelName] == f.grafanaLabelValue
      && ("namespace" in MetadataKeys(cr.metadata) <==> f.namespace != "")
      && ("folder" in SpecKeys(cr.spec) <==> dashboard.folder != "")
      && ("json" in SpecKeys(cr.spec) <==> json != "")
      && "datasource" !in SpecKeys(cr.spec)
  {
  }

  /** The datasource resource: kind GrafanaDatasource, named "datasource-" and the slug of the
      datasource's name, in the configured namespace, not importable across namespaces,
      selecting exactly the configured label pair, embedding the datasource. */
  lemma DataSourceCRShape(f: Formatter, enc: Encoders, dataSource: DataSourceListItemDTO)
    ensures var cr := DataSourceCR(f, enc, dataSource);
      && cr.apiVersion == "grafana.integreatly.org/v1beta1" && cr.kind == "GrafanaDatasource"
      && cr.metadata == Metadata("datasource-" + enc.slug(dataSource.name), f.namespace)
      && !cr.spec.allowCrossNamespaceImport
      && cr.spec.instanceSelector.matchLabels.Keys == {f.grafanaLabelName}
      && cr.spec.instanceSelector.matchLabels[f.grafanaLabelName] == f.grafanaLabelValue
      && cr.spec.datasource == Some(dataSource)
      && SpecKeys(cr.spec) == {"allowCrossNamespaceImport", "instanceSelector", "datasource"}
  {
  }

  /** What formatDashboard does: a model that does not encode is an error before anything is
      written; otherwise the separator, then the YAML document or the YAML error as it is. */
  function DashboardStep(f: Formatter, enc: Encoders, dashboard: Dashboard): Step
  {
    match enc.json(dashboard.model)
    case Err(e) => Failed("", Wrapped("encode dashboard model", e))
    case Ok(json) =>
      match enc.yaml(DashboardCR(f, enc, dashboard, json))
      case Err(e) => Failed(Separator, e)
      case Ok(body) => Wrote(Document(body))
  }

  /** formatDashboard's outcomes: a JSON failure writes nothing and names the model encoding;
      a YAML failure leaves just the separator; success writes the separator and the
      document of the resource built from the model's JSON. */
  lemma DashboardStepCases(f: Formatter, enc: Encoders, dashboard: Dashboard)
    ensures enc.json(dashboard.model).Err? ==>
      DashboardStep(f, enc, dashboard) == Failed("", Wrapped("encode dashboard model", enc.json(dashboard.model).error))
    ensures enc.json(dashboard.model).Ok? ==>
      var cr := DashboardCR(f, enc, dashboard, enc.json(dashboard.model).value);
      && (enc.yaml(cr).Err? ==> DashboardStep(f, enc, dashboard) == Failed(Separator, enc.yaml(cr).error))
      && (enc.yaml(cr).Ok? ==> DashboardStep(f, enc, dashboard) == Wrote(Separator + enc.yaml(cr).value))
  {
  }

  /** formatter.formatDashboard. */
  method FormatDashboard(w: Writer, f: Formatter, enc: Encoders, dashboard: Dashboard)
    returns (err: Option<Error>)
    modifies w
    ensures DashboardStep(f, enc, dashboard).Wrote? ==>
      err.None? && w.written == old(w.written) + DashboardStep(f, enc, dashboard).text
    ensures DashboardStep(f, enc, dashboard).Failed? ==>
      err == Some(DashboardStep(f, enc, dashboard).error) && w.written == old(w.written) + DashboardStep(f, enc, dashboard).partial
  {
    var json := enc.json(dashboard.model);
    if json.Err? {
      return Some(Wrapped("encode dashboard model", json.error));
    }
    var cr := DashboardCR(f, enc, dashboard, json.value);
    w.Write(Separator);
    var body := enc.yaml(cr);
    if body.Err? {
      return Some(body.error);
    }
    w.Write(body.value);
    return None;
  }

  // ----- grafanaOperatorCustomResources -----

  /** The resource of every datasource, in order. */
  function CustomResources(f: Formatter, enc: Encoders, dataSources: seq<DataSourceListItemDTO>): (crs: seq<CustomResource>)
    ensures |crs| == |dataSources|
    ensures forall k :: 0 <= k < |crs| ==> crs[k] == DataSourceCR(f, enc, dataSources[k])
  {
    seq(|dataSources|, k requires 0 <= k < |dataSources| => DataSourceCR(f, enc, dataSources[k]))
  }

  /** What the iterator yields to `consumer`: the resources in order, up to and including the
      first one the consumer refuses. */
  function ResourcesRun(crs: seq<CustomResource>, consumer: CustomResource -> bool): seq<CustomResource>
    decreases |crs|
  {
    if crs == [] then []
    else [crs[0]] + (if consumer(crs[0]) then ResourcesRun(crs[1..], consumer) else [])
  }

  /** One step of the iterator: the resource at `i` is yielded, and the iterator goes on past
      it only when the consumer accepts it. */
  lemma ResourcesRunAt(crs: seq<CustomResource>, consumer: CustomResource -> bool, i: nat)
    requires i < |crs|
    ensures ResourcesRun(crs[i..], consumer)
         == [crs[i]] + (if consumer(crs[i]) then ResourcesRun(crs[i + 1..], consumer) else [])
  {
    assert crs[i..][0] == crs[i] && crs[i..][1..] == crs[i + 1..];
  }

  /** grafanaOperatorCustomResources, run to completion with `consumer` as the yield function. */
  method GrafanaOperatorCustomResources(f: Formatter, enc: Encoders, dataSources: seq<DataSourceListItemDTO>,
                                        consumer: CustomResource -> bool)
    returns (yielded: seq<CustomResource>)
    ensures yielded == ResourcesRun(CustomResources(f, enc, dataSources), consumer)
  {
    ghost var crs := CustomResources(f, enc, dataSources);
    yielded := [];
    var i := 0;
    assert crs[0..] == crs;
    while i < |dataSources|
      invariant 0 <= i <= |dataSources|
      invariant ResourcesRun(crs, consumer) == yielded + ResourcesRun(crs[i..], consumer)
    {
      var cr := DataSourceCR(f, enc, dataSources[i]);
      assert cr == crs[i];
      ResourcesRunAt(crs, consumer, i);
      if !consumer(cr) {
        yielded := yielded + [cr];
        return;
      }
      AppendAssoc(yielded, [cr], ResourcesRun(crs[i + 1..], consumer));
      yielded := yielded + [cr];
      i := i + 1;
    }
    assert crs[i..] == [];
    assert yielded + [] == yielded;
  }

  /** When the consumer accepts the first `i` resources and refuses the next one, the iterator
      yields exactly those `i + 1` resources; when it accepts them all, it yields them all. */
  lemma {:induction false} ResourcesRunUpTo(crs: seq<CustomResource>, consumer: CustomResource -> bool, i: nat)
    requires i <= |crs|
    requires forall k :: 0 <= k < i ==> consumer(crs[k])
    requires i < |crs| ==> !consumer(crs[i])
    ensures ResourcesRun(crs, consumer) == if i < |crs| then crs[..i + 1] else crs
    decreases i
  {
    if crs != [] {
      if i == 0 {
        assert ResourcesRun(crs, consumer) == [crs[0]];
        assert crs[..1] == [crs[0]];
      } else {
        assert consumer(crs[0]);
        ResourcesRunUpTo(crs[1..], consumer, i - 1);
        if i < |crs| {
          assert crs[..i + 1] == [crs[0]] + crs[1..][..i];
        } else {
          assert crs == [crs[0]] + crs[1..];
        }
      }
    }
  }

  /** The iterator yields a prefix of the resources, one per datasource in order; the consumer
      accepted every yielded resource but the last, and it stops early only when the consumer
      refused that last one. */
  lemma {:induction false} ResourcesRunStops(crs: seq<CustomResource>, consumer: CustomResource -> bool)
    ensures var ys := ResourcesRun(crs, consumer);
      && ys <= crs
      && (forall k :: 0 <= k < |ys| - 1 ==> consumer(ys[k]))
      && (|ys| < |crs| ==> ys != [] && !consumer(ys[|ys| - 1]))
      && ((forall k :: 0 <= k < |crs| ==> consumer(crs[k])) ==> ys == crs)
    decreases |crs|
  {
    if crs != [] {
      ResourcesRunStops(crs[1..], consumer);
      var ys := ResourcesRun(crs, consumer);
      var rest := ResourcesRun(crs[1..], consumer);
      if consumer(crs[0]) {
        assert ys == [crs[0]] + rest;
        assert crs == [crs[0]] + crs[1..];
        forall k | 0 <= k < |ys| - 1
          ensures consumer(ys[k])
        {
          if k > 0 {
            assert ys[k] == rest[k - 1];
          }
        }
        if (forall k :: 0 <= k < |crs| ==> consumer(crs[k])) {
          assert forall k :: 0 <= k < |crs[1..]| ==> crs[1..][k] == crs[k + 1];
        }
      } else {
        assert ys == [crs[0]];
      }
    }
  }

  // ----- formatDataSources -----

  /** What formatDataSources does with one yielded resource: the separator, then its
      document, or the separator and a wrapped encoding error. */
  function ResourceStep(enc: Encoders, cr: CustomResource): (s: Step)
    ensures s.Failed? ==> s.partial == Separator
  {
    match enc.yaml(cr)
    case Err(e) => Failed(Separator, Wrapped("encode data source cr", e))
    case Ok(body) => Wrote(Document(body))
  }

  function ResourceSteps(enc: Encoders, crs: seq<CustomResource>): (steps: seq<Step>)
    ensures |steps| == |crs|
    ensures forall k :: 0 <= k < |steps| ==> steps[k] == ResourceStep(enc, crs[k])
  {
    seq(|crs|, k requires 0 <= k < |crs| => ResourceStep(enc, crs[k]))
  }

  /** The loop body's answer to the iterator: go on exactly when the resource was written. */
  function EncodesConsumer(enc: Encoders): CustomResource -> bool
  {
    (cr: CustomResource) => ResourceStep(enc, cr).Wrote?
  }

  /** Everything formatDataSources writes and returns. */
  function FormatDataSourcesOf(f: Formatter, enc: Encoders, dataSources: seq<DataSourceListItemDTO>): Emission
  {
    Emit(ResourceSteps(enc, ResourcesRun(CustomResources(f, enc, dataSources), EncodesConsumer(enc))))
  }

  /** The body of formatDataSources' loop for one resource. */
  method FormatResource(w: Writer, enc: Encoders, cr: CustomResource) returns (err: Option<Error>)
    modifies w
    ensures ResourceStep(enc, cr).Wrote? ==> err.None? && w.written == old(w.written) + ResourceStep(enc, cr).text
    ensures ResourceStep(enc, cr).Failed? ==> err == Some(ResourceStep(enc, cr).error) && w.written == old(w.written) + Separator
  {
    w.Write(Separator);
    var body := enc.yaml(cr);
    if body.Err? {
      return Some(Wrapped("encode data source cr", body.error));
    }
    w.Write(body.value);
    return None;
  }

  /** formatDataSources' loop over the yielded resources. */
  method FormatResources(w: Writer, enc: Encoders, yielded: seq<CustomResource>) returns (err: Option<Error>)
    modifies w
    ensures w.written == old(w.written) + Emit(ResourceSteps(enc, yielded)).output
    ensures err == Emit(ResourceSteps(enc, yielded)).error
  {
    ghost var steps := ResourceSteps(enc, yielded);
    var i := 0;
    assert steps[..0] == [];
    while i < |yielded|
      invariant 0 <= i <= |yielded|
      invariant w.written == old(w.written) + Emit(steps[..i]).output
      invariant Emit(steps[..i]).error.None?
    {
      PrefixSnoc(steps, i);
      EmitSnoc(steps[..i], steps[i]);
      ghost var done := Emit(steps[..i]).output;
      var e := FormatResource(w, enc, yielded[i]);
      if e.Some? {
        EmitFailureSticks(steps, i + 1);
        AppendAssoc(old(w.written), done, steps[i].partial);
        return e;
      }
      AppendAssoc(old(w.written), done, steps[i].text);
      i := i + 1;
    }
    assert steps[..i] == steps;
    return None;
  }

  /** formatter.formatDataSources. */
  method FormatDataSources(w: Writer, f: Formatter, enc: Encoders, dataSources: seq<DataSourceListItemDTO>)
    returns (err: Option<Error>)
    modifies w
    ensures w.written == old(w.written) + FormatDataSourcesOf(f, enc, dataSources).output
    ensures err == FormatDataSourcesOf(f, enc, dataSources).error
  {
    var yielded := GrafanaOperatorCustomResources(f, enc, dataSources, EncodesConsumer(enc));
    err := FormatResources(w, enc, yielded);
  }

  /** Stopping the iterator at the first resource that does not encode writes and returns
      exactly what handling every datasource's resource would. */
  lemma StoppingEarlyLosesNothing(f: Formatter, enc: Encoders, dataSources: seq<DataSourceListItemDTO>, i: nat)
    requires i <= |dataSources|
    requires forall k :: 0 <= k < i ==> enc.yaml(DataSourceCR(f, enc, dataSources[k])).Ok?
    requires i < |dataSources| ==> enc.yaml(DataSourceCR(f, enc, dataSources[i])).Err?
    ensures FormatDataSourcesOf(f, enc, dataSources) == Emit(ResourceSteps(enc, CustomResources(f, enc, dataSources)))
  {
    var crs := CustomResources(f, enc, dataSources);
    var all := ResourceSteps(enc, crs);
    ResourcesRunUpTo(crs, EncodesConsumer(enc), i);
    if i < |dataSources| {
      var prefix := all[..i + 1];
      assert ResourceSteps(enc, crs[..i + 1]) == prefix;
      EmitFirstFailure(all, i);
      EmitFirstFailure(prefix, i);
      assert prefix[..i] == all[..i];
    }
  }

  /** formatDataSources writes one document per datasource, in order, each after the
      separator, and ends at the first resource that does not encode, with that resource's
      separator written and its error returned wrapped. */
  lemma FormatDataSourcesOutput(f: Formatter, enc: Encoders, dataSources: seq<DataSourceListItemDTO>, i: nat)
    requires i <= |dataSources|
    requires forall k :: 0 <= k < i ==> enc.yaml(DataSourceCR(f, enc, dataSources[k])).Ok?
    requires i < |dataSources| ==> enc.yaml(DataSourceCR(f, enc, dataSources[i])).Err?
    ensures var steps := ResourceSteps(enc, CustomResources(f, enc, dataSources));
      && (i == |dataSources| ==> FormatDataSourcesOf(f, enc, dataSources) == Emission(Texts(steps), None))
      && (i < |dataSources| ==>
            FormatDataSourcesOf(f, enc, dataSources)
            == Emission(Texts(steps[..i]) + Separator,
                        Some(Wrapped("encode data source cr", enc.yaml(DataSourceCR(f, enc, dataSources[i])).error))))
      && (forall k :: 0 <= k < i ==> steps[k].text == Separator + enc.yaml(DataSourceCR(f, enc, dataSources[k])).value)
  {
    StoppingEarlyLosesNothing(f, enc, dataSources, i);
    EmitFirstFailure(ResourceSteps(enc, CustomResources(f, enc, dataSources)), i);
  }

  // ----- against the internal revision's formatter -----

  /** The dashboard resource is the internal formatter's, field for field; its YAML keys are the
      same exactly when the namespace is set, since only this revision leaves an empty
      namespace out. */
  lemma DashboardCRAsInternal(f: Formatter, enc: Encoders, older: Internal.Encoders, dashboard: Dashboard, json: string)
    requires enc.slug(dashboard.title) == older.slug(dashboard.title)
    ensures var cr := DashboardCR(f, enc, dashboard, json);
      var o := Internal.DashboardCR(Internal.OperatorFormatter(f.namespace, f.grafanaLabelName, f.grafanaLabelValue),
                                     older, dashboard, json);
      && cr.apiVersion == o.apiVersion && cr.kind == o.kind
      && cr.metadata.name == o.metadata.name && cr.metadata.namespace == o.metadata.namespace
      && cr.spec.allowCrossNamespaceImport == o.spec.allowCrossNamespaceImport
      && cr.spec.folder == o.spec.folder && cr.spec.json == o.spec.json
      && cr.spec.instanceSelector.matchLabels == o.spec.instanceSelector.matchLabels
      && cr.spec.datasource.None? && o.spec.datasource.None?
      && (MetadataKeys(cr.metadata) == Internal.MetadataKeys(o.metadata) <==> f.namespace != "")
  {
    var cr := DashboardCR(f, enc, dashboard, json);
    if f.namespace == "" {
      assert "namespace" !in MetadataKeys(cr.metadata);
    }
  }

  /** The datasource resource changes kind between the revisions: GrafanaDataSource before,
      GrafanaDatasource here; its name is built the same way. */
  lemma DataSourceKindChanged(f: Formatter, enc: Encoders, older: Internal.Encoders,
                              dataSource: DataSourceListItemDTO, gapi: Internal.GapiDataSource)
    requires gapi.name == dataSource.name && enc.slug(dataSource.name) == older.slug(gapi.name)
    ensures var cr := DataSourceCR(f, enc, dataSource);
      var o := Internal.DataSourceCR(Internal.OperatorFormatter(f.namespace, f.grafanaLabelName, f.grafanaLabelValue),
                                      older, gapi);
      && cr.kind == "GrafanaDatasource" && o.kind == "GrafanaDataSource" && cr.kind != o.kind
      && cr.metadata.name == o.metadata.name
      && cr.spec.allowCrossNamespaceImport == o.spec.allowCrossNamespaceImport == false
  {
  }
}
