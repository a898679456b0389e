/** datasources.go: building the operator manifest of a datasource, and writing the manifests
    of the named datasources as a YAML stream. */
module Datasources {
  import opened Wrappers
  import opened Json
  import opened Models
  import opened Operator
  import opened Configuration
  import opened Grafana
  import opened Output

  /** v1beta1.GrafanaDatasourceInternal: the datasource as the operator creates it.
      `jsonData` is None for a nil json.RawMessage; `secureJsonData` is None for nil. */
  datatype GrafanaDatasourceInternal = GrafanaDatasourceInternal(
    uid: string,
    name: string,
    dsType: string,
    url: string,
    access: string,
    database: string,
    user: string,
    isDefault: bool,
    basicAuth: bool,
    basicAuthUser: string,
    orgId: int,
    editable: bool,
    jsonData: Option<string>,
    secureJsonData: Option<map<string, string>>)

  datatype GrafanaDatasourceSpec = GrafanaDatasourceSpec(common: GrafanaCommonSpec, datasource: GrafanaDatasourceInternal)

  /** datasourceManifest: a GrafanaDatasource custom resource without its status. */
  datatype DatasourceManifest = DatasourceManifest(typeMeta: TypeMeta, metadata: ObjectMeta, spec: GrafanaDatasourceSpec)

  /** The foreign encoders: slug.Make, json.Marshal and yaml.Marshal; the encoders can fail. */
  datatype Encoders = Encoders(
    slug: string -> string,
    json: JValue -> Result<string>,
    yaml: DatasourceManifest -> Result<string>)

  /** The encoded JSONData of a datasource: nil when the datasource has none, and also when
      encoding it fails (the error is discarded). */
  function EncodedJsonData(ds: DataSource, enc: Encoders): Option<string>
  {
    if ds.jsonData == JNull then None
    else match enc.json(ds.jsonData)
      case Ok(encoded) => Some(encoded)
      case Err(_) => None
  }

  /** operatorDatasource. */
  function OperatorDatasource(cfg: Configuration, ds: DataSource, enc: Encoders): DatasourceManifest
  {
    DatasourceManifest(
      TypeMeta(GroupVersion, "GrafanaDatasource"),
      ObjectMeta(enc.slug(ds.name), cfg.namespace),
      GrafanaDatasourceSpec(
        GrafanaCommonSpec(Duration(10 * Minute), true, InstanceSelector(cfg)),
        GrafanaDatasourceInternal(
          ds.uid, ds.name, ds.dsType, ds.url, ds.access, ds.database, ds.user,
          ds.isDefault, ds.basicAuth, ds.basicAuthUser, ds.orgId,
          false, EncodedJsonData(ds, enc), None)))
  }

  /** The manifest is a GrafanaDatasource named by the slug of the datasource's name (no
      prefix) in the configured namespace; importable across namespaces, resynced every ten
      minutes, selecting the configured instances; the datasource's fields are copied, it is
      never editable and never carries secure JSON data; its JSON data is empty when the
      datasource has none or when its encoding fails (the error is discarded), and its
      encoding otherwise. */
  lemma OperatorDatasourceManifest(cfg: Configuration, ds: DataSource, enc: Encoders)
    ensures var m := OperatorDatasource(cfg, ds, enc);
      var d := m.spec.datasource;
      && m.typeMeta == TypeMeta("grafana.integreatly.org/v1beta1", "GrafanaDatasource")
      && m.metadata == ObjectMeta(enc.slug(ds.name), cfg.namespace)
      && m.spec.common == GrafanaCommonSpec(Duration(600_000_000_000), true, InstanceSelector(cfg))
      && d.uid == ds.uid && d.name == ds.name && d.dsType == ds.dsType && d.url == ds.url
      && d.access == ds.access && d.database == ds.database && d.user == ds.user
      && d.isDefault == ds.isDefault && d.basicAuth == ds.basicAuth
      && d.basicAuthUser == ds.basicAuthUser && d.orgId == ds.orgId
      && !d.editable && d.secureJsonData.None?
      && (ds.jsonData == JNull ==> d.jsonData.None?)
      && (ds.jsonData != JNull && enc.json(ds.jsonData).Ok? ==> d.jsonData == Some(enc.json(ds.jsonData).value))
      && (ds.jsonData != JNull && enc.json(ds.jsonData).Err? ==> d.jsonData.None?)
  {
  }

  /** What exportDatasources does with one yielded datasource: it writes the separator and the
      manifest's YAML, or returns (writing nothing) when the manifest cannot be marshalled. */
  function DatasourceStep(cfg: Configuration, enc: Encoders, ds: DataSource): (s: Step)
    ensures s.Failed? ==> s.partial == ""
  {
    match enc.yaml(OperatorDatasource(cfg, ds, enc))
    case Err(e) => Failed("", e)
    case Ok(body) => Wrote(Document(body))
  }

  /** Secure JSON fields only draw a warning: the datasource is exported all the same. */
  lemma SecureFieldsDoNotMatter(cfg: Configuration, enc: Encoders, ds: DataSource, fields: map<string, bool>)
    ensures DatasourceStep(cfg, enc, ds) == DatasourceStep(cfg, enc, ds.(secureJsonFields := fields))
  {
    assert OperatorDatasource(cfg, ds, enc) == OperatorDatasource(cfg, ds.(secureJsonFields := fields), enc);
  }

  /** The loop body's answer to the iterator: go on exactly when the datasource was written. */
  function ExportConsumer(cfg: Configuration, enc: Encoders): DataSource -> bool
  {
    (ds: DataSource) => DatasourceStep(cfg, enc, ds).Wrote?
  }

  function DatasourceSteps(cfg: Configuration, enc: Encoders, ys: seq<DataSource>): (steps: seq<Step>)
    ensures |steps| == |ys|
    ensures forall k :: 0 <= k < |ys| ==> steps[k] == DatasourceStep(cfg, enc, ys[k])
  {
    seq(|ys|, k requires 0 <= k < |ys| => DatasourceStep(cfg, enc, ys[k]))
  }

  /** Everything exportDatasources writes and returns. */
  function ExportDatasourcesOf(c: GrafanaClient, cfg: Configuration, names: seq<string>, enc: Encoders): Emission
  {
    Emit(DatasourceSteps(cfg, enc, DataSourcesRun(c, names, ExportConsumer(cfg, enc)).yielded))
  }

  /** exportDatasources' loop body for one datasource. */
  method WriteDatasource(w: Writer, cfg: Configuration, enc: Encoders, datasource: DataSource)
    returns (err: Option<Error>)
    modifies w
    ensures DatasourceStep(cfg, enc, datasource).Wrote? ==>
      err.None? && w.written == old(w.written) + DatasourceStep(cfg, enc, datasource).text
    ensures DatasourceStep(cfg, enc, datasource).Failed? ==>
      err == Some(DatasourceStep(cfg, enc, datasource).error) && w.written == old(w.written)
  {
    var body := enc.yaml(OperatorDatasource(cfg, datasource, enc));
    if body.Err? {
      return Some(body.error);
    }
    w.Write(Separator);
    w.Write(body.value);
    return None;
  }

  /** exportDatasources' loop over the yielded datasources: one YAML document per datasource,
      in order, returning at the first one that cannot be marshalled. */
  method WriteDatasources(w: Writer, cfg: Configuration, enc: Encoders, yielded: seq<DataSource>)
    returns (err: Option<Error>)
    modifies w
    ensures w.written == old(w.written) + Emit(DatasourceSteps(cfg, enc, yielded)).output
    ensures err == Emit(DatasourceSteps(cfg, enc, yielded)).error
  {
    ghost var steps := DatasourceSteps(cfg, enc, yielded);
    var i := 0;
    assert steps[..0] == [];
    while i < |yielded|
      invariant 0 <= i <= |yielded|
      invariant w.written == old(w.written) + Emit(steps[..i]).output
      invariant Emit(steps[..i]).error.None?
    {
      PrefixSnoc(steps, i);
      EmitSnoc(steps[..i], steps[i]);
      ghost var done := Emit(steps[..i]).output;
      var e := WriteDatasource(w, cfg, enc, yielded[i]);
      if e.Some? {
        EmitFailureSticks(steps, i + 1);
        return e;
      }
      AppendAssoc(old(w.written), done, steps[i].text);
      i := i + 1;
    }
    assert steps[..i] == steps;
    return None;
  }

  /** exportDatasources: one YAML document per datasource found, in the order of the names,
      returning at the first manifest that cannot be marshalled. */
  method ExportDatasources(w: Writer, c: GrafanaClient, cfg: Configuration, names: seq<string>, enc: Encoders)
    returns (err: Option<Error>)
    modifies w
    ensures w.written == old(w.written) + ExportDatasourcesOf(c, cfg, names, enc).output
    ensures err == ExportDatasourcesOf(c, cfg, names, enc).error
  {
    var yielded, calls := GrafanaDataSources(c, names, ExportConsumer(cfg, enc));
    err := WriteDatasources(w, cfg, enc, yielded);
  }

  /** Every datasource the export loop sees is found, in the order of the names; all but the
      last are written; the loop stops early only at one that cannot be written, and otherwise
      sees every datasource found. */
  lemma DatasourcesWroteButLast(c: GrafanaClient, cfg: Configuration, names: seq<string>, enc: Encoders)
    ensures var r := DataSourcesRun(c, names, ExportConsumer(cfg, enc));
      && r.yielded <= Found(c, names)
      && (forall k :: 0 <= k < |r.yielded| - 1 ==> DatasourceStep(cfg, enc, r.yielded[k]).Wrote?)
      && (!r.stopped ==> r.yielded == Found(c, names))
      && (r.stopped ==> r.yielded != [] && DatasourceStep(cfg, enc, r.yielded[|r.yielded| - 1]).Failed?)
  {
    var consumer := ExportConsumer(cfg, enc);
    var r := DataSourcesRun(c, names, consumer);
    DataSourcesOrder(c, names, consumer);
    DataSourcesStop(c, names, consumer);
    forall k | 0 <= k < |r.yielded| - 1
      ensures DatasourceStep(cfg, enc, r.yielded[k]).Wrote?
    {
      assert consumer(r.yielded[k]);
    }
  }

  /** The stream exportDatasources writes: when every manifest marshals, a document for every
      datasource found, in the order of the names; otherwise the documents of the datasources
      before the first one that does not, and its error. */
  lemma ExportDatasourcesStream(c: GrafanaClient, cfg: Configuration, names: seq<string>, enc: Encoders)
    ensures var ys := DataSourcesRun(c, names, ExportConsumer(cfg, enc)).yielded;
      var steps := DatasourceSteps(cfg, enc, ys);
      && ys <= Found(c, names)
      && (forall k :: 0 <= k < |steps| - 1 ==> steps[k].Wrote?)
      && ((forall k :: 0 <= k < |ys| ==> steps[k].Wrote?) ==>
            ys == Found(c, names) && ExportDatasourcesOf(c, cfg, names, enc) == Emission(Texts(steps), None))
      && (steps != [] && steps[|steps| - 1].Failed? ==>
            ExportDatasourcesOf(c, cfg, names, enc) == Emission(Texts(steps[..|steps| - 1]), Some(steps[|steps| - 1].error)))
  {
    var r := DataSourcesRun(c, names, ExportConsumer(cfg, enc));
    var steps := DatasourceSteps(cfg, enc, r.yielded);
    DatasourcesWroteButLast(c, cfg, names, enc);
    assert forall k :: 0 <= k < |steps| - 1 ==> steps[k].Wrote?;
    if forall k :: 0 <= k < |r.yielded| ==> steps[k].Wrote? {
      assert !r.stopped by {
        if r.stopped {
          assert steps[|steps| - 1].Wrote?;
        }
      }
      EmitFirstFailure(steps, |steps|);
    }
    if steps != [] && steps[|steps| - 1].Failed? {
      EmitFirstFailure(steps, |steps| - 1);
    }
  }
}
