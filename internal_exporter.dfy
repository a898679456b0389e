/** internal/exporter.go: the older revision's exporter, which formats the fetched dashboards
    and datasources with the OperatorFormatter. */
module Exporter {
  import opened Wrappers
  import opened Models
  import opened Output
  import Fetcher
  import opened Formatter

  /** The viper settings makeExporter reads, as plain values. */
  datatype ExporterViper = ExporterViper(
    grafanaUrl: string,
    grafanaToken: string,
    namespace: string,
    labelName: string,
    labelValue: string,
    folders: bool)

  /** exporter, without its logger and its client (the client's answers are inputs of the
      operations below). */
  datatype Exporter = Exporter(formatter: OperatorFormatter, folders: bool)

  /** stringOrDefault. */
  function StringOrDefault(s: string, defaultString: string): (r: string)
    ensures s != "" ==> r == s
    ensures s == "" ==> r == defaultString
    ensures r == "" <==> s == "" && defaultString == ""
  {
    if s != "" then s else defaultString
  }

  /** makeExporter; `connect` is the error gapi.New reports, if any. */
  function MakeExporter(v: ExporterViper, connect: Option<Error>): (r: Result<Exporter>)
    ensures connect.Some? <==> r.Err?
    ensures connect.Some? ==> r.error == Wrapped("grafana connect", connect.value)
    ensures r.Ok? ==>
      && r.value.formatter.namespace == StringOrDefault(v.namespace, "default")
      && r.value.formatter.grafanaLabelName == StringOrDefault(v.labelName, "dashboards")
      && r.value.formatter.grafanaLabelValue == StringOrDefault(v.labelValue, "grafana")
      && r.value.folders == v.folders
  {
    match connect
    case Some(e) => Err(Wrapped("grafana connect", e))
    case None =>
      Ok(Exporter(
        OperatorFormatter(
          StringOrDefault(v.namespace, "default"),
          StringOrDefault(v.labelName, "dashboards"),
          StringOrDefault(v.labelValue, "grafana")),
        v.folders))
  }

  /** The formatter never gets an empty namespace or label: each setting left empty takes its
      default. */
  lemma MakeExporterDefaults(v: ExporterViper)
    ensures var f := MakeExporter(v, None).value.formatter;
      && (v.namespace == "" ==> f.namespace == "default")
      && (v.labelName == "" ==> f.grafanaLabelName == "dashboards")
      && (v.labelValue == "" ==> f.grafanaLabelValue == "grafana")
      && f.namespace != "" && f.grafanaLabelName != "" && f.grafanaLabelValue != ""
  {
  }

  /** gapi.FolderDashboardSearchResponse (the fields the filter reads). */
  datatype FolderDashboardSearchResponse = FolderDashboardSearchResponse(title: string, folderTitle: string, uid: string)

  /** exporter.shouldExport(args...). */
  predicate ShouldExport(e: Exporter, args: seq<string>, dashboard: FolderDashboardSearchResponse)
  {
    if |args| == 0 then true
    else if e.folders then dashboard.folderTitle in Fetcher.ArgSet(args)
    else dashboard.title in Fetcher.ArgSet(args)
  }

  /** The exporter's filter accepts exactly what the fetcher's filter accepts for a hit with
      the same title and folder title: everything without args, otherwise membership of the
      folder title (folder mode) or of the title. */
  lemma ShouldExportAgrees(e: Exporter, args: seq<string>, dashboard: FolderDashboardSearchResponse, hit: Hit)
    requires hit.title == dashboard.title && hit.folderTitle == dashboard.folderTitle
    ensures ShouldExport(e, args, dashboard) <==> Fetcher.ShouldExport(e.folders, args, hit)
    ensures |args| == 0 ==> ShouldExport(e, args, dashboard)
    ensures |args| > 0 ==>
      (ShouldExport(e, args, dashboard) <==> (if e.folders then dashboard.folderTitle in args else dashboard.title in args))
  {
  }

  /** What exportDashboards does with one fetched dashboard: the formatter's step, its error
      wrapped with the dashboard's title. */
  function ExportStep(e: Exporter, enc: Encoders, dashboard: Fetcher.Dashboard): Step
  {
    match DashboardStep(e.formatter, enc, dashboard)
    case Wrote(t) => Wrote(t)
    case Failed(p, err) => Failed(p, WrappedFor("format dashboard", dashboard.title, err))
  }

  /** The export writes what the formatter writes, and returns the formatter's error wrapped
      with the dashboard's title. */
  lemma ExportStepWraps(e: Exporter, enc: Encoders, dashboard: Fetcher.Dashboard)
    ensures DashboardStep(e.formatter, enc, dashboard).Wrote? ==>
      ExportStep(e, enc, dashboard) == DashboardStep(e.formatter, enc, dashboard)
    ensures DashboardStep(e.formatter, enc, dashboard).Failed? ==>
      ExportStep(e, enc, dashboard) == Failed(DashboardStep(e.formatter, enc, dashboard).partial,
        WrappedFor("format dashboard", dashboard.title, DashboardStep(e.formatter, enc, dashboard).error))
  {
  }

  function ExportSteps(e: Exporter, enc: Encoders, dashboards: seq<Fetcher.Dashboard>): (steps: seq<Step>)
    ensures |steps| == |dashboards|
    ensures forall k :: 0 <= k < |steps| ==> steps[k] == ExportStep(e, enc, dashboards[k])
  {
    seq(|dashboards|, k requires 0 <= k < |dashboards| => ExportStep(e, enc, dashboards[k]))
  }

  /** Everything exportDashboards writes and returns, given what FetchDashboards returned. */
  function ExportDashboardsOf(e: Exporter, enc: Encoders, fetched: Result<seq<Fetcher.Dashboard>>): Emission
  {
    match fetched
    case Err(err) => Emission("", Some(err))
    case Ok(dashboards) => Emit(ExportSteps(e, enc, dashboards))
  }

  /** The body of exportDashboards' loop for one dashboard. */
  method ExportDashboard(w: Writer, e: Exporter, enc: Encoders, dashboard: Fetcher.Dashboard)
    returns (err: Option<Error>)
    modifies w
    ensures ExportStep(e, enc, dashboard).Wrote? ==>
      err.None? && w.written == old(w.written) + ExportStep(e, enc, dashboard).text
    ensures ExportStep(e, enc, dashboard).Failed? ==>
      err == Some(ExportStep(e, enc, dashboard).error) && w.written == old(w.written) + ExportStep(e, enc, dashboard).partial
  {
    ExportStepWraps(e, enc, dashboard);
    err := FormatDashboard(w, e.formatter, enc, dashboard);
    if err.Some? {
      err := Some(WrappedFor("format dashboard", dashboard.title, err.value));
    }
  }

  /** exportDashboards' loop over the fetched dashboards. */
  method ExportFetched(w: Writer, e: Exporter, enc: Encoders, dashboards: seq<Fetcher.Dashboard>)
    returns (err: Option<Error>)
    modifies w
    ensures w.written == old(w.written) + Emit(ExportSteps(e, enc, dashboards)).output
    ensures err == Emit(ExportSteps(e, enc, dashboards)).error
  {
    ghost var steps := ExportSteps(e, enc, dashboards);
    var i := 0;
    assert steps[..0] == [];
    while i < |dashboards|
      invariant 0 <= i <= |dashboards|
      invariant w.written == old(w.written) + Emit(steps[..i]).output
      invariant Emit(steps[..i]).error.None?
    {
      PrefixSnoc(steps, i);
      EmitSnoc(steps[..i], steps[i]);
      ghost var done := Emit(steps[..i]).output;
      var exportErr := ExportDashboard(w, e, enc, dashboards[i]);
      if exportErr.Some? {
        EmitFailureSticks(steps, i + 1);
        AppendAssoc(old(w.written), done, steps[i].partial);
        return exportErr;
      }
      AppendAssoc(old(w.written), done, steps[i].text);
      i := i + 1;
    }
    assert steps[..i] == steps;
    return None;
  }

  /** exportDashboards; `fetched` is what FetchDashboards returns for the exporter's filter. */
  method ExportDashboards(w: Writer, e: Exporter, enc: Encoders, fetched: Result<seq<Fetcher.Dashboard>>)
    returns (err: Option<Error>)
    modifies w
    ensures w.written == old(w.written) + ExportDashboardsOf(e, enc, fetched).output
    ensures err == ExportDashboardsOf(e, enc, fetched).error
  {
    if fetched.Err? {
      assert w.written + "" == w.written;
      return Some(fetched.error);
    }
    err := ExportFetched(w, e, enc, fetched.value);
  }

  /** A failed fetch writes nothing and returns its error; otherwise the dashboards are
      formatted in fetched order, and the first one that fails ends the export with an error
      naming its title, after the documents of the dashboards before it. */
  lemma ExportDashboardsStream(e: Exporter, enc: Encoders, fetched: Result<seq<Fetcher.Dashboard>>, i: nat)
    requires fetched.Ok? ==> i <= |fetched.value|
    requires fetched.Ok? ==> forall k :: 0 <= k < i ==> ExportStep(e, enc, fetched.value[k]).Wrote?
    requires fetched.Ok? && i < |fetched.value| ==> ExportStep(e, enc, fetched.value[i]).Failed?
    ensures fetched.Err? ==> ExportDashboardsOf(e, enc, fetched) == Emission("", Some(fetched.error))
    ensures fetched.Ok? && i == |fetched.value| ==>
      ExportDashboardsOf(e, enc, fetched) == Emission(Texts(ExportSteps(e, enc, fetched.value)), None)
    ensures fetched.Ok? && i < |fetched.value| ==>
      var steps := ExportSteps(e, enc, fetched.value);
      var d := fetched.value[i];
      ExportDashboardsOf(e, enc, fetched)
        == Emission(Texts(steps[..i]) + DashboardStep(e.formatter, enc, d).partial,
                    Some(WrappedFor("format dashboard", d.title, DashboardStep(e.formatter, enc, d).error)))
  {
    if fetched.Ok? {
      if i < |fetched.value| {
        ExportStepWraps(e, enc, fetched.value[i]);
      }
      EmitFirstFailure(ExportSteps(e, enc, fetched.value), i);
    }
  }

  /** exportDataSources; `sources` is what the client's DataSources call returns. */
  method ExportDataSources(w: Writer, e: Exporter, enc: Encoders, sources: Result<seq<GapiDataSource>>)
    returns (err: Option<Error>)
    modifies w
    ensures sources.Err? ==> err == Some(sources.error) && w.written == old(w.written)
    ensures sources.Ok? ==>
      && w.written == old(w.written) + Emit(DataSourceSteps(e.formatter, enc, sources.value)).output
      && err == Emit(DataSourceSteps(e.formatter, enc, sources.value)).error
  {
    if sources.Err? {
      return Some(sources.error);
    }
    err := FormatDataSources(w, e.formatter, enc, sources.value);
  }
}
