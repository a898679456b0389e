/** internal/grope/exporter.go: the grope revision's exporter, which builds its client and
    formatter from the configuration, tags every exported dashboard with the configured tags
    (strictly: a model without a tag list is an error), and writes the dashboards and the
    datasources as grafana-operator custom resources. */
module GropeExporter {
  import opened Wrappers
  import opened Json
  import opened Models
  import opened GoStrings
  import opened Output
  import opened Fetcher
  import opened GropeFormatter
  import Grafana
  import Dashboards

  // ----- makeExporter and newGrafanaClient -----

  /** The configuration keys makeExporter reads. */
  datatype GropeViper = GropeViper(
    grafanaUrl: string,
    grafanaToken: string,
    tags: string,
    namespace: string,
    labelName: string,
    labelValue: string,
    folders: bool)

  /** What url.Parse makes of the address, as far as the client uses it. */
  datatype Url = Url(scheme: string, host: string)

  /** goapi.TransportConfig: where and how the generated client talks to Grafana. */
  datatype TransportConfig = TransportConfig(host: string, basePath: string, schemes: seq<string>, apiKey: string)

  /** newGrafanaClient; `parsed` is what url.Parse returns for `grafanaUrl`. */
  function NewGrafanaClient(grafanaUrl: string, apiKey: string, parsed: Result<Url>): Result<TransportConfig>
  {
    match parsed
    case Err(e) => Err(Wrapped("grafana.url invalid", e))
    case Ok(target) =>
      if target.scheme == "" then Err(Cause("grafana.url scheme invalid: " + grafanaUrl))
      else Ok(TransportConfig(target.host, "/api", [target.scheme], apiKey))
  }

  /** An address that does not parse is an error wrapping the parser's; one without a scheme
      is an error naming the address; otherwise the client talks to the address's host, under
      /api, with its scheme only, authenticated by the token. */
  lemma NewGrafanaClientCases(grafanaUrl: string, apiKey: string, parsed: Result<Url>)
    ensures parsed.Err? ==> NewGrafanaClient(grafanaUrl, apiKey, parsed) == Err(Wrapped("grafana.url invalid", parsed.error))
    ensures parsed.Ok? && parsed.value.scheme == "" ==>
      NewGrafanaClient(grafanaUrl, apiKey, parsed) == Err(Cause("grafana.url scheme invalid: " + grafanaUrl))
    ensures NewGrafanaClient(grafanaUrl, apiKey, parsed).Ok? <==> parsed.Ok? && parsed.value.scheme != ""
    ensures NewGrafanaClient(grafanaUrl, apiKey, parsed).Ok? ==>
      var t := NewGrafanaClient(grafanaUrl, apiKey, parsed).value;
      t.host == parsed.value.host && t.basePath == "/api" && t.schemes == [parsed.value.scheme] && t.apiKey == apiKey
  {
  }

  /** exporter, without its logger. */
  datatype Exporter = Exporter(transport: TransportConfig, formatter: Formatter, tags: string, folders: bool)

  /** cmp.Or on two strings: the first one unless it is empty. */
  function Or(s: string, fallback: string): string
  {
    if s != "" then s else fallback
  }

  /** makeExporter; `parsed` is what url.Parse returns for the configured address. */
  function MakeExporter(v: GropeViper, parsed: Result<Url>): Result<Exporter>
  {
    match NewGrafanaClient(v.grafanaUrl, v.grafanaToken, parsed)
    case Err(e) => Err(e)
    case Ok(transport) =>
      Ok(Exporter(transport,
        Formatter(v.namespace, Or(v.labelName, "dashboards"), Or(v.labelValue, "grafana")),
        v.tags, v.folders))
  }

  /** A client error is returned as it is; otherwise the label name and value fall back to
      "dashboards" and "grafana" when empty, while the namespace, the tags and the folders flag
      are taken as configured (an empty namespace stays empty). */
  lemma MakeExporterDefaults(v: GropeViper, parsed: Result<Url>)
    ensures var client := NewGrafanaClient(v.grafanaUrl, v.grafanaToken, parsed);
      && (client.Err? ==> MakeExporter(v, parsed) == Err(client.error))
      && (client.Ok? ==>
            var e := MakeExporter(v, parsed).value;
            && MakeExporter(v, parsed).Ok?
            && e.transport == client.value
            && e.formatter.namespace == v.namespace
            && e.formatter.grafanaLabelName == (if v.labelName == "" then "dashboards" else v.labelName)
            && e.formatter.grafanaLabelValue == (if v.labelValue == "" then "grafana" else v.labelValue)
            && e.tags == v.tags && e.folders == v.folders)
  {
  }

  // ----- tagDashboard -----

  /** A dashboard's decoded model; tagging updates it in place, so the formatter encodes the
      tagged model. */
  class DashboardModel {
    var model: JValue

    constructor (m: JValue)
      ensures model == m
    {
      model := m;
    }
  }

  /** Every entry of the model's tag list, if it has one, is a string: tagDashboard's scan
      asserts each entry it inspects to be a string, which would panic otherwise. */
  predicate StringTags(model: JValue)
  {
    model.JObj? && "tags" in model.fields && model.fields["tags"].JArr? ==>
      forall k :: 0 <= k < |model.fields["tags"].items| ==> model.fields["tags"].items[k].JStr?
  }

  /** The model after tagDashboard adds one tag. */
  function StrictTag(model: JValue, tag: string): Result<JValue>
  {
    if !model.JObj? then Err(Cause("unexpected model type"))
    else if "tags" !in model.fields then Err(Cause("dashboard does not contain tags"))
    else if !model.fields["tags"].JArr? then Err(Cause("unexpected tags type"))
    else if JStr(tag) in model.fields["tags"].items then Ok(model)
    else Ok(JObj(model.fields["tags" := JArr(model.fields["tags"].items + [JStr(tag)])]))
  }

  /** tagDashboard. */
  method TagDashboard(db: DashboardModel, tag: string) returns (err: Option<Error>)
    requires StringTags(db.model)
    modifies db
    ensures StrictTag(old(db.model), tag).Err? ==> err == Some(StrictTag(old(db.model), tag).error) && db.model == old(db.model)
    ensures StrictTag(old(db.model), tag).Ok? ==> err.None? && db.model == StrictTag(old(db.model), tag).value
  {
    if !db.model.JObj? {
      return Some(Cause("unexpected model type"));
    }
    var jsonModel := db.model.fields;
    if "tags" !in jsonModel {
      return Some(Cause("dashboard does not contain tags"));
    }
    var tagsAny := jsonModel["tags"];
    if !tagsAny.JArr? {
      return Some(Cause("unexpected tags type"));
    }
    var tags := tagsAny.items;
    var i := 0;
    while i < |tags|
      invariant 0 <= i <= |tags|
      invariant JStr(tag) !in tags[..i]
    {
      assert tags[..i + 1] == tags[..i] + [tags[i]];
      if tags[i].s == tag {
        return None;
      }
      i := i + 1;
    }
    assert tags[..i] == tags;
    tags := tags + [JStr(tag)];
    db.model := JObj(jsonModel["tags" := JArr(tags)]);
    return None;
  }

  /** The three ways tagging fails, and only those: a model that is not a JSON object, one
      without a "tags" key (which the current revision accepts), and a "tags" value that is not
      a list. */
  lemma StrictTagErrors(model: JValue, tag: string)
    ensures !model.JObj? ==> StrictTag(model, tag) == Err(Cause("unexpected model type"))
    ensures model.JObj? && "tags" !in model.fields ==> StrictTag(model, tag) == Err(Cause("dashboard does not contain tags"))
    ensures model.JObj? && "tags" in model.fields && !model.fields["tags"].JArr? ==>
      StrictTag(model, tag) == Err(Cause("unexpected tags type"))
    ensures StrictTag(model, tag).Ok? <==> model.JObj? && "tags" in model.fields && model.fields["tags"].JArr?
  {
  }

  /** A tag already in the list changes nothing; any other tag is appended at the end, the
      existing entries staying in place, and the rest of the model is left as it was. */
  lemma StrictTagAppends(model: JValue, tag: string)
    requires StrictTag(model, tag).Ok?
    ensures var items := model.fields["tags"].items;
      var r := StrictTag(model, tag).value;
      && (JStr(tag) in items ==> r == model)
      && (JStr(tag) !in items ==>
            && r.JObj? && r.fields.Keys == model.fields.Keys
            && r.fields["tags"] == JArr(items + [JStr(tag)])
            && (forall k :: k in model.fields && k != "tags" ==> r.fields[k] == model.fields[k]))
  {
  }

  /** Tagging is idempotent, and it keeps the tags strings. */
  lemma StrictTagIdempotent(model: JValue, tag: string)
    requires StrictTag(model, tag).Ok?
    ensures StrictTag(StrictTag(model, tag).value, tag) == StrictTag(model, tag)
    ensures StringTags(model) ==> StringTags(StrictTag(model, tag).value)
  {
    var items := model.fields["tags"].items;
    if JStr(tag) !in items {
      assert JStr(tag) in items + [JStr(tag)];
    }
  }

  // ----- the configured tags -----

  /** Each piece of the tags setting, trimmed of white space. */
  function TrimmedPieces(pieces: seq<string>): (ts: seq<string>)
    ensures |ts| == |pieces|
    ensures forall k :: 0 <= k < |ts| ==> ts[k] == TrimSpace(pieces[k])
  {
    seq(|pieces|, k requires 0 <= k < |pieces| => TrimSpace(pieces[k]))
  }

  /** The tags one trimmed piece contributes: itself, unless it is empty. */
  function PieceTags(t: string): seq<string>
  {
    if t != "" then [t] else []
  }

  /** The trimmed pieces without the empty ones, in order. */
  function NonEmpty(ts: seq<string>): seq<string>
    decreases |ts|
  {
    if ts == [] then [] else NonEmpty(ts[..|ts| - 1]) + PieceTags(ts[|ts| - 1])
  }

  /** The tags exportDashboards applies: the comma-separated pieces of the tags setting,
      trimmed, without the empty ones, in order. */
  function TagList(tags: string): seq<string>
  {
    NonEmpty(TrimmedPieces(Split(tags, ',')))
  }

  lemma NonEmptySnoc(ts: seq<string>, i: nat)
    requires i < |ts|
    ensures NonEmpty(ts[..i + 1]) == NonEmpty(ts[..i]) + PieceTags(ts[i])
  {
    assert ts[..i + 1][..i] == ts[..i];
  }

  /** Dropping the empty strings keeps exactly the others, and no more of them; pieces that
      are all non-empty are kept as they are. */
  lemma {:induction false} NonEmptyMeaning(ts: seq<string>)
    ensures forall t :: t in NonEmpty(ts) <==> t in ts && t != ""
    ensures |NonEmpty(ts)| <= |ts|
    ensures (forall k :: 0 <= k < |ts| ==> ts[k] != "") ==> NonEmpty(ts) == ts
    decreases |ts|
  {
    if ts != [] {
      var init := ts[..|ts| - 1];
      NonEmptyMeaning(init);
      assert ts == init + [ts[|ts| - 1]];
    }
  }

  /** The tags of two runs of pieces are the tags of the first run followed by those of the
      second: dropping the empty pieces keeps the others in their order. */
  lemma {:induction false} NonEmptyConcat(a: seq<string>, b: seq<string>)
    ensures NonEmpty(a + b) == NonEmpty(a) + NonEmpty(b)
    decreases |b|
  {
    if b != [] {
      var init := b[..|b| - 1];
      NonEmptyConcat(a, init);
      assert (a + b)[..|a + b| - 1] == a + init;
      assert (a + b)[|a + b| - 1] == b[|b| - 1];
    } else {
      assert a + b == a;
    }
  }

  /** Every tag applied is a non-empty trimmed piece of the setting (and trimming it again
      changes nothing, by TrimSpaceIdempotent). */
  lemma TrimmedSound(pieces: seq<string>)
    ensures forall t :: t in NonEmpty(TrimmedPieces(pieces)) ==>
      t != "" && exists j :: 0 <= j < |pieces| && t == TrimSpace(pieces[j])
  {
    var trimmed := TrimmedPieces(pieces);
    NonEmptyMeaning(trimmed);
    forall t | t in NonEmpty(trimmed)
      ensures t != "" && exists j :: 0 <= j < |pieces| && t == TrimSpace(pieces[j])
    {
      var j :| 0 <= j < |trimmed| && trimmed[j] == t;
      assert t == TrimSpace(pieces[j]);
    }
  }

  /** Every piece of the setting that is not blank is applied, trimmed, and no more tags are
      applied than there are pieces. */
  lemma TrimmedComplete(pieces: seq<string>)
    ensures |NonEmpty(TrimmedPieces(pieces))| <= |pieces|
    ensures forall j :: 0 <= j < |pieces| && TrimSpace(pieces[j]) != "" ==> TrimSpace(pieces[j]) in NonEmpty(TrimmedPieces(pieces))
  {
    var trimmed := TrimmedPieces(pieces);
    NonEmptyMeaning(trimmed);
    forall j | 0 <= j < |pieces| && TrimSpace(pieces[j]) != ""
      ensures TrimSpace(pieces[j]) in NonEmpty(trimmed)
    {
      assert trimmed[j] in trimmed;
    }
  }

  /** The model after tagDashboard with each of the tags in turn, or the first error. */
  function ApplyTags(model: JValue, ts: seq<string>): Result<JValue>
    decreases |ts|
  {
    if ts == [] then Ok(model)
    else match ApplyTags(model, ts[..|ts| - 1])
      case Err(e) => Err(e)
      case Ok(tagged) => StrictTag(tagged, ts[|ts| - 1])
  }

  /** Once a tag fails, the later ones are not applied: the error is the first one. */
  lemma {:induction false} ApplyTagsFailureSticks(model: JValue, ts: seq<string>, n: nat)
    requires n <= |ts|
    requires ApplyTags(model, ts[..n]).Err?
    ensures ApplyTags(model, ts) == ApplyTags(model, ts[..n])
    decreases |ts| - n
  {
    if n < |ts| {
      assert ts[..n + 1][..n] == ts[..n];
      ApplyTagsFailureSticks(model, ts, n + 1);
    } else {
      assert ts[..n] == ts;
    }
  }

  /** On a model with a tag list, applying the tags one by one is the current revision's tag
      merge: each new tag appended once, at the end, unless already present. */
  lemma {:induction false} ApplyTagsIsMerge(model: JValue, ts: seq<string>)
    requires model.JObj? && "tags" in model.fields && model.fields["tags"].JArr?
    ensures ApplyTags(model, ts) == Dashboards.Tag(model, ts)
    decreases |ts|
  {
    if ts == [] {
      assert model.fields["tags" := JArr(model.fields["tags"].items)] == model.fields;
    } else {
      var init := ts[..|ts| - 1];
      ApplyTagsIsMerge(model, init);
      var tagged := ApplyTags(model, init).value;
      assert tagged.fields == model.fields["tags" := JArr(Dashboards.MergeTags(model.fields["tags"].items, init))];
      var items := model.fields["tags"].items;
      assert Dashboards.MergeTags(items, ts)
          == Dashboards.AddTag(Dashboards.MergeTags(items, init), ts[|ts| - 1]);
      if JStr(ts[|ts| - 1]) in tagged.fields["tags"].items {
        assert Dashboards.MergeTags(items, ts) == Dashboards.MergeTags(items, init);
        assert Dashboards.TagsValue(model.fields, ts) == Dashboards.TagsValue(model.fields, init);
        assert Dashboards.Tag(model, ts) == Dashboards.Tag(model, init);
        assert ApplyTags(model, ts) == StrictTag(tagged, ts[|ts| - 1]) == Ok(tagged);
      } else {
        var merged := Dashboards.MergeTags(items, init) + [JStr(ts[|ts| - 1])];
        assert Dashboards.MergeTags(items, ts) == merged;
        assert tagged.fields["tags" := JArr(merged)] == model.fields["tags" := JArr(merged)];
      }
    }
  }

  /** Without a tag list no tag is applied: with any tag configured the export of the
      dashboard fails at the first one, where the current revision adds the tags. */
  lemma ApplyTagsWithoutList(model: JValue, ts: seq<string>)
    requires ts != []
    requires !(model.JObj? && "tags" in model.fields && model.fields["tags"].JArr?)
    ensures ApplyTags(model, ts) == StrictTag(model, ts[0]) && ApplyTags(model, ts).Err?
    ensures model.JObj? ==> Dashboards.Tag(model, ts).Ok?
  {
    assert ts[..1] == [ts[0]];
    assert ApplyTags(model, ts[..1]) == StrictTag(model, ts[0]);
    ApplyTagsFailureSticks(model, ts, 1);
  }

  /** Applying one more tag: the error of the tags so far, or the tagged model's. */
  lemma ApplyTagsSnoc(model: JValue, ts: seq<string>, t: string)
    ensures ApplyTags(model, ts + [t])
         == if ApplyTags(model, ts).Err? then ApplyTags(model, ts) else StrictTag(ApplyTags(model, ts).value, t)
  {
    assert (ts + [t])[..|ts|] == ts;
  }

  /** One more trimmed piece handled after `r`: its error, or the tags of the piece applied. */
  function AfterPiece(r: Result<JValue>, t: string): Result<JValue>
  {
    match r
      case Err(e) => Err(e)
      case Ok(tagged) => ApplyTags(tagged, PieceTags(t))
  }

  /** The model after the loop over the trimmed tag pieces has handled the first `i`, or the
      first error. */
  function TaggedThrough(model: JValue, ts: seq<string>, i: nat): Result<JValue>
    requires i <= |ts|
    decreases i
  {
    if i == 0 then Ok(model) else AfterPiece(TaggedThrough(model, ts, i - 1), ts[i - 1])
  }

  /** Applying the tags so far and then those of one more piece is applying them together. */
  lemma ApplyPieceTags(model: JValue, before: seq<string>, t: string)
    ensures ApplyTags(model, before + PieceTags(t)) == AfterPiece(ApplyTags(model, before), t)
  {
    if t != "" {
      ApplyTagsSnoc(model, before, t);
      if ApplyTags(model, before).Ok? {
        assert [t][..0] == [];
        assert ApplyTags(ApplyTags(model, before).value, [t]) == StrictTag(ApplyTags(model, before).value, t);
      }
    } else {
      assert before + [] == before;
    }
  }

  /** Handling the trimmed pieces one at a time is applying the tag list they make. */
  lemma {:induction false} TaggedThroughIsApply(model: JValue, ts: seq<string>, i: nat)
    requires i <= |ts|
    ensures TaggedThrough(model, ts, i) == ApplyTags(model, NonEmpty(ts[..i]))
    decreases i
  {
    if i == 0 {
      assert ts[..0] == [];
    } else {
      TaggedThroughIsApply(model, ts, i - 1);
      var before := NonEmpty(ts[..i - 1]);
      var piece := PieceTags(ts[i - 1]);
      assert NonEmpty(ts[..i]) == before + piece by {
        NonEmptySnoc(ts, i - 1);
      }
      ApplyPieceTags(model, before, ts[i - 1]);
    }
  }

  /** Once the loop has failed, its error stands. */
  lemma {:induction false} TaggedThroughFailureSticks(model: JValue, ts: seq<string>, i: nat, n: nat)
    requires i <= n <= |ts|
    requires TaggedThrough(model, ts, i).Err?
    ensures TaggedThrough(model, ts, n) == TaggedThrough(model, ts, i)
    decreases n - i
  {
    if i < n {
      TaggedThroughFailureSticks(model, ts, i, n - 1);
    }
  }

  /** The loop's result, once it has handled every piece or failed at one, is the tag list's. */
  lemma TaggedThroughEnds(model: JValue, ts: seq<string>, i: nat)
    requires i <= |ts|
    requires i == |ts| || TaggedThrough(model, ts, i).Err?
    ensures ApplyTags(model, NonEmpty(ts)) == TaggedThrough(model, ts, i)
  {
    if i < |ts| {
      TaggedThroughFailureSticks(model, ts, i, |ts|);
    }
    TaggedThroughIsApply(model, ts, |ts|);
    assert ts[..|ts|] == ts;
  }

  /** The body of exportDashboards' loop over the tag pieces, for the piece at `i`. */
  method TagNext(db: DashboardModel, pieces: seq<string>, i: nat, ghost initial: JValue) returns (err: Option<Error>)
    requires i < |pieces|
    requires TaggedThrough(initial, TrimmedPieces(pieces), i) == Ok(db.model) && StringTags(db.model)
    modifies db
    ensures err.None? ==> TaggedThrough(initial, TrimmedPieces(pieces), i + 1) == Ok(db.model) && StringTags(db.model)
    ensures err.Some? ==> TaggedThrough(initial, TrimmedPieces(pieces), i + 1) == Err(err.value)
  {
    ghost var model := db.model;
    var tag := TrimSpace(pieces[i]);
    assert TrimmedPieces(pieces)[i] == tag;
    if tag == "" {
      return None;
    }
    assert ApplyTags(model, PieceTags(tag)) == StrictTag(model, tag) by {
      assert PieceTags(tag) == [tag] && [tag][..0] == [];
    }
    err := TagDashboard(db, tag);
    if err.None? {
      StrictTagIdempotent(model, tag);
    }
  }

  /** exportDashboards' loop over the pieces of the tags setting for one dashboard: the
      model ends as every trimmed piece makes it, or the first error is returned. */
  method TagPieces(db: DashboardModel, pieces: seq<string>) returns (err: Option<Error>)
    requires StringTags(db.model)
    modifies db
    ensures TaggedThrough(old(db.model), TrimmedPieces(pieces), |pieces|).Ok? ==>
      err.None? && db.model == TaggedThrough(old(db.model), TrimmedPieces(pieces), |pieces|).value
    ensures TaggedThrough(old(db.model), TrimmedPieces(pieces), |pieces|).Err? ==>
      err == Some(TaggedThrough(old(db.model), TrimmedPieces(pieces), |pieces|).error)
  {
    ghost var initial := db.model;
    ghost var ts := TrimmedPieces(pieces);
    var i := 0;
    while i < |pieces|
      invariant 0 <= i <= |pieces|
      invariant TaggedThrough(initial, ts, i) == Ok(db.model)
      invariant StringTags(db.model)
    {
      err := TagNext(db, pieces, i, initial);
      if err.Some? {
        TaggedThroughFailureSticks(initial, ts, i + 1, |pieces|);
        return;
      }
      i := i + 1;
    }
    return None;
  }

  /** The tagging part of exportDashboards for one dashboard: every configured tag in turn. */
  method TagAll(db: DashboardModel, tags: string) returns (err: Option<Error>)
    requires StringTags(db.model)
    modifies db
    ensures ApplyTags(old(db.model), TagList(tags)).Ok? ==> err.None? && db.model == ApplyTags(old(db.model), TagList(tags)).value
    ensures ApplyTags(old(db.model), TagList(tags)).Err? ==> err == Some(ApplyTags(old(db.model), TagList(tags)).error)
  {
    var pieces := Split(tags, ',');
    TaggedThroughEnds(db.model, TrimmedPieces(pieces), |pieces|);
    err := TagPieces(db, pieces);
  }

  // ----- exportDashboards -----

  /** What exportDashboards does with one pair the iterator yields: an error is returned
      wrapped, writing nothing; otherwise the model is tagged (a tagging error is returned
      wrapped, writing nothing) and the tagged dashboard formatted, a formatting error being
      returned wrapped with the dashboard's title. */
  function ExportStep(e: Exporter, enc: Encoders, item: (Dashboard, Option<Error>)): Step
  {
    if item.1.Some? then Failed("", Wrapped("error fetching dashboard", item.1.value))
    else match ApplyTags(item.0.model, TagList(e.tags))
      case Err(err) => Failed("", Wrapped("error tagging dashboard", err))
      case Ok(tagged) =>
        match DashboardStep(e.formatter, enc, item.0.(model := tagged))
        case Wrote(text) => Wrote(text)
        case Failed(partial, err) => Failed(partial, WrappedFor("error formating dashboard", item.0.title, err))
  }

  function ExportSteps(e: Exporter, enc: Encoders, ys: seq<(Dashboard, Option<Error>)>): (steps: seq<Step>)
    ensures |steps| == |ys|
    ensures forall k :: 0 <= k < |ys| ==> steps[k] == ExportStep(e, enc, ys[k])
  {
    seq(|ys|, k requires 0 <= k < |ys| => ExportStep(e, enc, ys[k]))
  }

  /** The loop body's answer to the iterator: go on exactly when the dashboard was written. */
  function ExportConsumer(e: Exporter, enc: Encoders): (Dashboard, Option<Error>) -> bool
  {
    (d: Dashboard, err: Option<Error>) => ExportStep(e, enc, (d, err)).Wrote?
  }

  /** Everything exportDashboards writes and returns. */
  function ExportDashboardsOf(c: DashboardClient, e: Exporter, enc: Encoders, args: seq<string>): Emission
  {
    Emit(ExportSteps(e, enc, YieldRun(c, e.folders, args, ExportConsumer(e, enc)).yielded))
  }

  /** The body of exportDashboards' loop for one yielded pair. */
  method ExportDashboard(w: Writer, e: Exporter, enc: Encoders, item: (Dashboard, Option<Error>))
    returns (err: Option<Error>)
    requires item.1.None? ==> StringTags(item.0.model)
    modifies w
    ensures ExportStep(e, enc, item).Wrote? ==> err.None? && w.written == old(w.written) + ExportStep(e, enc, item).text
    ensures ExportStep(e, enc, item).Failed? ==>
      err == Some(ExportStep(e, enc, item).error) && w.written == old(w.written) + ExportStep(e, enc, item).partial
  {
    var (dashboard, fetchErr) := item;
    if fetchErr.Some? {
      assert w.written + "" == w.written;
      return Some(Wrapped("error fetching dashboard", fetchErr.value));
    }
    var db := new DashboardModel(dashboard.model);
    var tagErr := TagAll(db, e.tags);
    if tagErr.Some? {
      assert w.written + "" == w.written;
      return Some(Wrapped("error tagging dashboard", tagErr.value));
    }
    var formatErr := FormatDashboard(w, e.formatter, enc, dashboard.(model := db.model));
    if formatErr.Some? {
      return Some(WrappedFor("error formating dashboard", dashboard.title, formatErr.value));
    }
    return None;
  }

  /** exportDashboards' loop over the yielded pairs. */
  method ExportYielded(w: Writer, e: Exporter, enc: Encoders, yielded: seq<(Dashboard, Option<Error>)>)
    returns (err: Option<Error>)
    requires forall k :: 0 <= k < |yielded| && yielded[k].1.None? ==> StringTags(yielded[k].0.model)
    modifies w
    ensures w.written == old(w.written) + Emit(ExportSteps(e, enc, yielded)).output
    ensures err == Emit(ExportSteps(e, enc, yielded)).error
  {
    ghost var steps := ExportSteps(e, enc, yielded);
    var i := 0;
    assert steps[..0] == [];
    while i < |yielded|
      invariant 0 <= i <= |yielded|
      invariant w.written == old(w.written) + Emit(steps[..i]).output
      invariant Emit(steps[..i]).error.None?
    {
      PrefixSnoc(steps, i);
      EmitSnoc(steps[..i], steps[i]);
      ghost var done := Emit(steps[..i]).output;
      var stepErr := ExportDashboard(w, e, enc, yielded[i]);
      if stepErr.Some? {
        EmitFailureSticks(steps, i + 1);
        AppendAssoc(old(w.written), done, steps[i].partial);
        return stepErr;
      }
      AppendAssoc(old(w.written), done, steps[i].text);
      i := i + 1;
    }
    assert steps[..i] == steps;
    return None;
  }

  /** Every dashboard the client serves has string tags, so tagging never panics. */
  ghost predicate ServesStringTags(c: DashboardClient)
  {
    forall uid :: c.dashboards(uid).Ok? ==> StringTags(c.dashboards(uid).value)
  }

  /** exportDashboards. */
  method ExportDashboards(w: Writer, c: DashboardClient, e: Exporter, enc: Encoders, args: seq<string>)
    returns (err: Option<Error>)
    requires ServesStringTags(c)
    modifies w
    ensures w.written == old(w.written) + ExportDashboardsOf(c, e, enc, args).output
    ensures err == ExportDashboardsOf(c, e, enc, args).error
  {
    var yielded, calls := YieldDashboards(c, e.folders, args, ExportConsumer(e, enc));
    YieldContents(c, e.folders, args, ExportConsumer(e, enc));
    err := ExportYielded(w, e, enc, yielded);
  }

  /** Pairs where only the last may carry an error and only the last may be refused: the
      consumer accepted every pair but the last. */
  lemma AcceptedButLast(ys: seq<(Dashboard, Option<Error>)>, accept: (Dashboard, Option<Error>) -> bool)
    requires forall k :: 0 <= k < |ys| && ys[k].1.Some? ==> k == |ys| - 1
    requires forall k :: 0 <= k < |ys| && ys[k].1.None? && !accept(ys[k].0, None) ==> k == |ys| - 1
    ensures forall k :: 0 <= k < |ys| - 1 ==> accept(ys[k].0, ys[k].1)
  {
    forall k | 0 <= k < |ys| - 1
      ensures accept(ys[k].0, ys[k].1)
    {
      assert ys[k].1.None?;
    }
  }

  /** The iterator only goes on past a pair whose step wrote its document: every step but the
      last one wrote. */
  lemma ExportStepsWroteButLast(c: DashboardClient, e: Exporter, enc: Encoders, args: seq<string>)
    ensures var steps := ExportSteps(e, enc, YieldRun(c, e.folders, args, ExportConsumer(e, enc)).yielded);
      forall k :: 0 <= k < |steps| - 1 ==> steps[k].Wrote?
  {
    var consumer := ExportConsumer(e, enc);
    var ys := YieldRun(c, e.folders, args, consumer).yielded;
    assert forall k :: 0 <= k < |ys| && ys[k].1.Some? ==> k == |ys| - 1 by {
      YieldContents(c, e.folders, args, consumer);
    }
    assert forall k :: 0 <= k < |ys| && ys[k].1.None? && !consumer(ys[k].0, None) ==> k == |ys| - 1 by {
      YieldEnds(c, e.folders, args, consumer);
    }
    AcceptedButLast(ys, consumer);
    forall k | 0 <= k < |ys| - 1
      ensures ExportStep(e, enc, ys[k]).Wrote?
    {
      assert consumer(ys[k].0, ys[k].1);
      assert ys[k] == (ys[k].0, ys[k].1);
    }
  }

  /** The stream exportDashboards writes: the yielded dashboards without an error are the
      selected hits, in order, with the models the client serves; every step but the last
      wrote its document, and the export ends either with all of them written, or with the
      first failing step's error after the documents before it. */
  lemma ExportDashboardsStream(c: DashboardClient, e: Exporter, enc: Encoders, args: seq<string>)
    ensures var ys := YieldRun(c, e.folders, args, ExportConsumer(e, enc)).yielded;
      var steps := ExportSteps(e, enc, ys);
      var sel := Grafana.Selected(AsGrafana(c), e.folders, ArgSet(args), FirstPage);
      && (forall k :: 0 <= k < |ys| && ys[k].1.None? ==> k < |sel| && DashboardOf(c, sel[k], ys[k]))
      && (forall k :: 0 <= k < |steps| - 1 ==> steps[k].Wrote?)
      && ((forall k :: 0 <= k < |steps| ==> steps[k].Wrote?) ==>
            ExportDashboardsOf(c, e, enc, args) == Emission(Texts(steps), None))
      && (steps != [] && steps[|steps| - 1].Failed? ==>
            ExportDashboardsOf(c, e, enc, args) == Emission(Texts(steps[..|steps| - 1]) + steps[|steps| - 1].partial,
                                                            Some(steps[|steps| - 1].error)))
  {
    var ys := YieldRun(c, e.folders, args, ExportConsumer(e, enc)).yielded;
    var steps := ExportSteps(e, enc, ys);
    YieldContents(c, e.folders, args, ExportConsumer(e, enc));
    ExportStepsWroteButLast(c, e, enc, args);
    if forall k :: 0 <= k < |steps| ==> steps[k].Wrote? {
      EmitFirstFailure(steps, |steps|);
    }
    if steps != [] && steps[|steps| - 1].Failed? {
      EmitFirstFailure(steps, |steps| - 1);
    }
  }

  /** No silent drops: when every hit that passes the filter fetches and its dashboard can be
      tagged and formatted, a document is written for every such hit, in page order and then
      hit order, carrying its title, its folder title and its fetched model; the export then
      returns no error, or, when the search that ended the iteration failed, that search's
      error wrapped, after all the documents. */
  lemma ExportDashboardsComplete(c: DashboardClient, e: Exporter, enc: Encoders, args: seq<string>)
    requires AllExported(c, e.folders, args, ExportConsumer(e, enc), Grafana.AllHits(AsGrafana(c), FirstPage))
    ensures var ys := YieldRun(c, e.folders, args, ExportConsumer(e, enc)).yielded;
      var sel := Grafana.Selected(AsGrafana(c), e.folders, ArgSet(args), FirstPage);
      var last := Grafana.LastPage(AsGrafana(c), FirstPage);
      var steps := ExportSteps(e, enc, ys);
      && |sel| <= |ys|
      && (forall k :: 0 <= k < |sel| ==> DashboardOf(c, sel[k], ys[k]) && steps[k].Wrote?)
      && (SearchAnswer(c.search, last).Ok? ==>
            |ys| == |sel| && ExportDashboardsOf(c, e, enc, args) == Emission(Texts(steps), None))
      && (SearchAnswer(c.search, last).Err? ==>
            ExportDashboardsOf(c, e, enc, args)
            == Emission(Texts(steps[..|sel|]), Some(Wrapped("error fetching dashboard", SearchAnswer(c.search, last).error))))
  {
    var consumer := ExportConsumer(e, enc);
    var g := AsGrafana(c);
    var ys := YieldRun(c, e.folders, args, consumer).yielded;
    var sel := Grafana.Selected(g, e.folders, ArgSet(args), FirstPage);
    var last := Grafana.LastPage(g, FirstPage);
    var steps := ExportSteps(e, enc, ys);
    YieldCompleteItems(c, e.folders, args, consumer);
    Grafana.SelectedMembers(g, e.folders, ArgSet(args), FirstPage);
    forall k | 0 <= k < |sel|
      ensures steps[k].Wrote?
    {
      var h := sel[k];
      assert h in sel;
      ShouldExportIsNotSkipped(e.folders, args, h);
      assert ys[k] == (Dashboard(h.folderTitle, h.title, c.dashboards(h.uid).value), None);
    }
    if SearchAnswer(c.search, last).Ok? {
      EmitFirstFailure(steps, |steps|);
    } else {
      assert steps[|sel|] == Failed("", Wrapped("error fetching dashboard", SearchAnswer(c.search, last).error));
      EmitFirstFailure(steps, |sel|);
      assert Texts(steps[..|sel|]) + "" == Texts(steps[..|sel|]);
    }
  }

  // ----- exportDataSources -----

  /** exportDataSources. */
  method ExportDataSources(w: Writer, c: DataSourcesClient, e: Exporter, enc: Encoders)
    returns (err: Option<Error>)
    modifies w
    ensures c.datasources.Err? ==> err == Some(Wrapped("getDatasources", c.datasources.error)) && w.written == old(w.written)
    ensures c.datasources.Ok? ==>
      && w.written == old(w.written) + FormatDataSourcesOf(e.formatter, enc, c.datasources.value).output
      && err == FormatDataSourcesOf(e.formatter, enc, c.datasources.value).error
  {
    var sources := GetDataSources(c);
    if sources.Err? {
      return Some(sources.error);
    }
    err := FormatDataSources(w, e.formatter, enc, sources.value);
  }
}
