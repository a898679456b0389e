/** dashboards.go: tagging a dashboard model, building its operator manifest, and writing the
    manifests of all selected dashboards as a YAML stream. */
module Dashboards {
  import opened Wrappers
  import opened Json
  import opened Models
  import opened Operator
  import opened Configuration
  import opened Grafana
  import opened Output

  // ----- tagDashboard -----

  /** models.DashboardFullWithMeta: the fetched dashboard; its model is updated in place. */
  class DashboardFullWithMeta {
    var dashboard: JValue

    constructor (model: JValue)
      ensures dashboard == model
    {
      dashboard := model;
    }
  }

  /** One new tag against the list so far: appended unless a string entry equal to it is
      already there (entries of other types never match). */
  function AddTag(tags: seq<JValue>, t: string): seq<JValue>
  {
    if JStr(t) in tags then tags else tags + [JStr(t)]
  }

  /** The tag list after merging `newTags`, one after the other, into `current`. */
  function MergeTags(current: seq<JValue>, newTags: seq<string>): (merged: seq<JValue>)
    decreases |newTags|
  {
    if newTags == [] then current
    else AddTag(MergeTags(current, newTags[..|newTags| - 1]), newTags[|newTags| - 1])
  }

  /** The new value of the "tags" key of a model map: an absent key counts as an empty list;
      a value that is not a list counts as a nil slice, which stays nil (JSON null) when no
      tag is appended to it. */
  function TagsValue(fields: map<string, JValue>, newTags: seq<string>): JValue
  {
    if "tags" !in fields then JArr(MergeTags([], newTags))
    else if fields["tags"].JArr? then JArr(MergeTags(fields["tags"].items, newTags))
    else if MergeTags([], newTags) == [] then JNull
    else JArr(MergeTags([], newTags))
  }

  /** The dashboard model after tagDashboard: an error for a model that is not a JSON object,
      otherwise the model with only its "tags" key rewritten. */
  function Tag(model: JValue, newTags: seq<string>): (r: Result<JValue>)
    ensures r.Err? <==> !model.JObj?
    ensures r.Ok? ==> r.value.JObj? && r.value.fields == model.fields["tags" := TagsValue(model.fields, newTags)]
  {
    if !model.JObj? then Err(Cause("unexpected model type"))
    else Ok(JObj(model.fields["tags" := TagsValue(model.fields, newTags)]))
  }

  /** tagDashboard's scan of the current tags for one new tag. */
  method HasTag(currentTags: seq<JValue>, newTag: string) returns (found: bool)
    ensures found <==> JStr(newTag) in currentTags
  {
    found := false;
    var j := 0;
    while j < |currentTags|
      invariant 0 <= j <= |currentTags|
      invariant found == (JStr(newTag) in currentTags[..j])
    {
      assert currentTags[..j + 1] == currentTags[..j] + [currentTags[j]];
      if currentTags[j].JStr? && currentTags[j].s == newTag {
        found := true;
        break;
      }
      j := j + 1;
    }
    if !found {
      assert currentTags[..j] == currentTags;
    }
  }

  /** tagDashboard: adds each of `newTags` to the model's tag list unless it is already there. */
  method TagDashboard(db: DashboardFullWithMeta, newTags: seq<string>) returns (err: Option<Error>)
    modifies db
    ensures Tag(old(db.dashboard), newTags).Err? ==> err == Some(Tag(old(db.dashboard), newTags).error) && db.dashboard == old(db.dashboard)
    ensures Tag(old(db.dashboard), newTags).Ok? ==> err.None? && db.dashboard == Tag(old(db.dashboard), newTags).value
  {
    if !db.dashboard.JObj? {
      return Some(Cause("unexpected model type"));
    }
    var jsonModel := db.dashboard.fields;
    var tagsAny: JValue;
    if "tags" in jsonModel {
      tagsAny := jsonModel["tags"];
    } else {
      tagsAny := JArr([]);
    }
    // A failed type assertion leaves a nil slice, which append turns into a real one.
    var currentTags: seq<JValue> := if tagsAny.JArr? then tagsAny.items else [];
    var isNil := !tagsAny.JArr?;
    ghost var initial := currentTags;
    var i := 0;
    while i < |newTags|
      invariant 0 <= i <= |newTags|
      invariant currentTags == MergeTags(initial, newTags[..i])
      invariant isNil <==> !tagsAny.JArr? && currentTags == []
    {
      var newTag := newTags[i];
      var found := HasTag(currentTags, newTag);
      ghost var before := currentTags;
      if !found {
        currentTags := currentTags + [JStr(newTag)];
        isNil := false;
      }
      assert currentTags == AddTag(before, newTag);
      assert MergeTags(initial, newTags[..i + 1]) == AddTag(MergeTags(initial, newTags[..i]), newTag) by {
        assert newTags[..i + 1][..i] == newTags[..i];
      }
      i := i + 1;
    }
    assert newTags[..i] == newTags;
    var tagsValue := if isNil then JNull else JArr(currentTags);
    assert tagsValue == TagsValue(jsonModel, newTags);
    db.dashboard := JObj(jsonModel["tags" := tagsValue]);
    return None;
  }

  // ----- What the tag merge promises -----

  /** The index of the first occurrence of `t` in `ts`. */
  function FirstIndex(ts: seq<string>, t: string): (k: nat)
    requires t in ts
    ensures k < |ts| && ts[k] == t && t !in ts[..k]
  {
    if ts[0] == t then 0 else 1 + FirstIndex(ts[1..], t)
  }

  lemma {:induction false} FirstIndexSnoc(ts: seq<string>, x: string, t: string)
    requires t in ts
    ensures t in ts + [x] && FirstIndex(ts + [x], t) == FirstIndex(ts, t)
  {
    assert (ts + [x])[0] == ts[0];
    if ts[0] != t {
      assert (ts + [x])[1..] == ts[1..] + [x];
      FirstIndexSnoc(ts[1..], x, t);
    }
  }

  /** Existing entries keep their order and position: the old list is a prefix of the new. */
  lemma {:induction false} MergeKeepsExisting(current: seq<JValue>, newTags: seq<string>)
    ensures current <= MergeTags(current, newTags)
    decreases |newTags|
  {
    if newTags != [] {
      MergeKeepsExisting(current, newTags[..|newTags| - 1]);
    }
  }

  /** Every new tag is in the merged list. */
  lemma {:induction false} MergeContainsAll(current: seq<JValue>, newTags: seq<string>)
    ensures forall t :: t in newTags ==> JStr(t) in MergeTags(current, newTags)
    decreases |newTags|
  {
    if newTags != [] {
      var init := newTags[..|newTags| - 1];
      var last := newTags[|newTags| - 1];
      MergeContainsAll(current, init);
      assert newTags == init + [last];
      var m := MergeTags(current, init);
      assert m <= AddTag(m, last);
    }
  }

  /** The appended entries: each is a string among the new tags that the old list did not
      hold, none is appended twice, and they come in the order of their first occurrence among
      the new tags. */
  lemma {:induction false} MergeAppends(current: seq<JValue>, newTags: seq<string>)
    ensures var m := MergeTags(current, newTags);
      && (forall k :: |current| <= k < |m| ==> m[k].JStr? && m[k].s in newTags && m[k] !in current)
      && (forall k1, k2 :: |current| <= k1 < k2 < |m| ==> m[k1] != m[k2])
      && (forall k1, k2 :: |current| <= k1 < k2 < |m| ==> FirstIndex(newTags, m[k1].s) < FirstIndex(newTags, m[k2].s))
    decreases |newTags|
  {
    if newTags != [] {
      var init := newTags[..|newTags| - 1];
      var last := newTags[|newTags| - 1];
      assert newTags == init + [last];
      var m0 := MergeTags(current, init);
      var m := MergeTags(current, newTags);
      MergeAppends(current, init);
      MergeKeepsExisting(current, init);
      forall k | |current| <= k < |m0|
        ensures m0[k].s in newTags && FirstIndex(newTags, m0[k].s) == FirstIndex(init, m0[k].s)
      {
        FirstIndexSnoc(init, last, m0[k].s);
      }
      if JStr(last) !in m0 {
        assert m == m0 + [JStr(last)];
        MergeContainsAll(current, init);
        assert last !in init;
        assert JStr(last) !in current;
        assert FirstIndex(newTags, last) == |init| by {
          assert newTags[..|init|] == init;
        }
      }
    }
  }

  /** A tag merge changes the list iff one of the new tags is missing from it. */
  lemma {:induction false} MergeUnchangedIff(current: seq<JValue>, newTags: seq<string>)
    ensures MergeTags(current, newTags) == current <==> forall t :: t in newTags ==> JStr(t) in current
    decreases |newTags|
  {
    MergeContainsAll(current, newTags);
    if newTags != [] && forall t :: t in newTags ==> JStr(t) in current {
      var init := newTags[..|newTags| - 1];
      assert newTags == init + [newTags[|newTags| - 1]];
      assert forall t :: t in init ==> t in newTags;
      MergeUnchangedIff(current, init);
    }
  }

  /** Merging two lists of tags one after the other is merging their concatenation. */
  lemma {:induction false} MergeCompose(current: seq<JValue>, first: seq<string>, second: seq<string>)
    ensures MergeTags(MergeTags(current, first), second) == MergeTags(current, first + second)
    decreases |second|
  {
    if second == [] {
      assert first + second == first;
    } else {
      var init := second[..|second| - 1];
      MergeCompose(current, first, init);
      assert (first + second)[..|first + second| - 1] == first + init;
      assert (first + second)[|first + second| - 1] == second[|second| - 1];
    }
  }

  /** Merging the same tags twice is merging them once. */
  lemma MergeIdempotent(current: seq<JValue>, newTags: seq<string>)
    ensures MergeTags(MergeTags(current, newTags), newTags) == MergeTags(current, newTags)
  {
    MergeContainsAll(current, newTags);
    MergeUnchangedIff(MergeTags(current, newTags), newTags);
  }

  /** A model that is not a JSON object is an error, and nothing is written to it. */
  lemma TagRejectsNonObject(model: JValue, newTags: seq<string>)
    requires !model.JObj?
    ensures Tag(model, newTags) == Err(Cause("unexpected model type"))
  {
  }

  /** Only the "tags" key is written: every other key keeps its value, and no key is added
      except "tags". */
  lemma TagOnlyTouchesTags(model: JValue, newTags: seq<string>)
    requires model.JObj?
    ensures var f := Tag(model, newTags).value.fields;
      && f.Keys == model.fields.Keys + {"tags"}
      && forall k :: k in model.fields && k != "tags" ==> f[k] == model.fields[k]
  {
  }

  /** With no "tags" key, the tags become the new tags, each once, in the order of their first
      occurrence. */
  lemma TagAbsentKey(model: JValue, newTags: seq<string>)
    requires model.JObj? && "tags" !in model.fields
    ensures var tags := Tag(model, newTags).value.fields["tags"];
      && tags.JArr?
      && (forall t :: t in newTags ==> JStr(t) in tags.items)
      && (forall k :: 0 <= k < |tags.items| ==> tags.items[k].JStr? && tags.items[k].s in newTags)
      && (forall k1, k2 :: 0 <= k1 < k2 < |tags.items| ==>
            tags.items[k1] != tags.items[k2] && FirstIndex(newTags, tags.items[k1].s) < FirstIndex(newTags, tags.items[k2].s))
  {
    var none: seq<JValue> := [];
    var m := MergeTags(none, newTags);
    assert Tag(model, newTags).value.fields["tags"] == JArr(m);
    MergeContainsAll(none, newTags);
    MergeAppends(none, newTags);
    forall k | 0 <= k < |m|
      ensures m[k].JStr? && m[k].s in newTags
    {
      assert |none| <= k;
      assert |none| <= k < |MergeTags(none, newTags)|;
      assert MergeTags(none, newTags)[k].JStr?;
    }
    forall k1, k2 | 0 <= k1 < k2 < |m|
      ensures m[k1] != m[k2] && FirstIndex(newTags, m[k1].s) < FirstIndex(newTags, m[k2].s)
    {
      assert |none| <= k1;
    }
  }

  /** A "tags" value that is not a list is no error: it is replaced by the new tags alone (or
      by null when there are none). */
  lemma TagNotAList(model: JValue, newTags: seq<string>)
    requires model.JObj? && "tags" in model.fields && !model.fields["tags"].JArr?
    ensures Tag(model, newTags).Ok?
    ensures newTags == [] ==> Tag(model, newTags).value.fields["tags"] == JNull
    ensures newTags != [] ==> Tag(model, newTags).value.fields["tags"] == JArr(MergeTags([], newTags))
  {
    MergeContainsAll([], newTags);
    if newTags != [] {
      assert newTags[0] in newTags;
    }
  }

  /** A list of tags keeps its entries, in place, and gains every new tag at the end. */
  lemma TagList(model: JValue, newTags: seq<string>)
    requires model.JObj? && "tags" in model.fields && model.fields["tags"].JArr?
    ensures var tags := Tag(model, newTags).value.fields["tags"];
      && tags.JArr?
      && model.fields["tags"].items <= tags.items
      && (forall t :: t in newTags ==> JStr(t) in tags.items)
      && (forall k :: |model.fields["tags"].items| <= k < |tags.items| ==>
            tags.items[k].JStr? && tags.items[k].s in newTags && tags.items[k] !in model.fields["tags"].items)
  {
    MergeKeepsExisting(model.fields["tags"].items, newTags);
    MergeContainsAll(model.fields["tags"].items, newTags);
    MergeAppends(model.fields["tags"].items, newTags);
  }

  /** Tagging twice with the same tags is tagging once. */
  lemma TagIdempotent(model: JValue, newTags: seq<string>)
    requires model.JObj?
    ensures Tag(Tag(model, newTags).value, newTags) == Tag(model, newTags)
  {
    var once := Tag(model, newTags).value;
    if "tags" in model.fields && model.fields["tags"].JArr? {
      MergeIdempotent(model.fields["tags"].items, newTags);
    } else if "tags" !in model.fields {
      MergeIdempotent([], newTags);
    } else {
      MergeIdempotent([], newTags);
      if MergeTags([], newTags) == [] {
        assert once.fields["tags"] == JNull;
      }
    }
    assert once.fields["tags" := TagsValue(once.fields, newTags)] == once.fields;
  }

  // ----- operatorDashboard -----

  /** v1beta1.GrafanaDashboardSpec: the common spec, the dashboard JSON and the folder title. */
  datatype GrafanaDashboardSpec = GrafanaDashboardSpec(common: GrafanaCommonSpec, json: string, folderTitle: string)

  /** dashboardManifest: a GrafanaDashboard custom resource without its status. */
  datatype DashboardManifest = DashboardManifest(typeMeta: TypeMeta, metadata: ObjectMeta, spec: GrafanaDashboardSpec)

  /** The foreign encoders the export calls: slug.Make, a JSON encoder with a two-space indent,
      and yaml.Marshal; the encoders can fail. */
  datatype Encoders = Encoders(
    slug: string -> string,
    json: JValue -> Result<string>,
    yaml: DashboardManifest -> Result<string>)

  /** The period after which the operator re-imports a resource: ten minutes. */
  const ResyncPeriod: Duration := Duration(10 * Minute)

  /** The manifest operatorDashboard builds for a hit and its fetched model: the tagged model
      is encoded as JSON; a tagging or encoding failure is an error and builds no manifest. */
  function OperatorDashboardOf(cfg: Configuration, entry: Hit, model: JValue, enc: Encoders): Result<DashboardManifest>
  {
    match Tag(model, cfg.tags)
    case Err(e) => Err(Wrapped("failed to tag dashboard", e))
    case Ok(tagged) =>
      match enc.json(tagged)
      case Err(e) => Err(Wrapped("json", e))
      case Ok(encoded) =>
        Ok(DashboardManifest(
          TypeMeta(GroupVersion, "GrafanaDashboard"),
          ObjectMeta(enc.slug(entry.title), cfg.namespace),
          GrafanaDashboardSpec(GrafanaCommonSpec(ResyncPeriod, true, InstanceSelector(cfg)), encoded, entry.folderTitle)))
  }

  /** A tagging failure and a JSON failure are wrapped errors and build no manifest; a manifest
      is a GrafanaDashboard named by the slug of the hit's title, in the configured namespace
      and the hit's folder, importable across namespaces, resynced every ten minutes, selecting
      the configured instances, and holding the JSON of the tagged model. */
  lemma OperatorDashboardManifest(cfg: Configuration, entry: Hit, model: JValue, enc: Encoders)
    ensures var r := OperatorDashboardOf(cfg, entry, model, enc);
      && (Tag(model, cfg.tags).Err? ==> r == Err(Wrapped("failed to tag dashboard", Tag(model, cfg.tags).error)))
      && (Tag(model, cfg.tags).Ok? && enc.json(Tag(model, cfg.tags).value).Err? ==>
            r == Err(Wrapped("json", enc.json(Tag(model, cfg.tags).value).error)))
      && (r.Ok? ==>
            && Tag(model, cfg.tags).Ok?
            && Ok(r.value.spec.json) == enc.json(Tag(model, cfg.tags).value)
            && r.value.typeMeta == TypeMeta("grafana.integreatly.org/v1beta1", "GrafanaDashboard")
            && r.value.metadata == ObjectMeta(enc.slug(entry.title), cfg.namespace)
            && r.value.spec.folderTitle == entry.folderTitle
            && r.value.spec.common == GrafanaCommonSpec(Duration(600_000_000_000), true, InstanceSelector(cfg)))
  {
  }

  /** operatorDashboard: tags the fetched dashboard in place, then builds its manifest. */
  method OperatorDashboard(cfg: Configuration, entry: Hit, db: DashboardFullWithMeta, enc: Encoders)
    returns (r: Result<DashboardManifest>)
    modifies db
    ensures r == OperatorDashboardOf(cfg, entry, old(db.dashboard), enc)
    ensures db.dashboard == if Tag(old(db.dashboard), cfg.tags).Ok? then Tag(old(db.dashboard), cfg.tags).value else old(db.dashboard)
  {
    var err := TagDashboard(db, cfg.tags);
    if err.Some? {
      return Err(Wrapped("failed to tag dashboard", err.value));
    }
    var encoded := enc.json(db.dashboard);
    if encoded.Err? {
      return Err(Wrapped("json", encoded.error));
    }
    return Ok(DashboardManifest(
      TypeMeta(GroupVersion, "GrafanaDashboard"),
      ObjectMeta(enc.slug(entry.title), cfg.namespace),
      GrafanaDashboardSpec(GrafanaCommonSpec(ResyncPeriod, true, InstanceSelector(cfg)), encoded.value, entry.folderTitle)));
  }

  // ----- exportDashboards -----

  /** What exportDashboards does with a built (or failed) manifest: it writes the separator
      and the manifest's YAML, or returns (writing nothing) when the manifest could not be
      built or cannot be marshalled. */
  function ManifestStep(manifest: Result<DashboardManifest>, enc: Encoders): (s: Step)
    ensures s.Failed? ==> s.partial == ""
  {
    match manifest
    case Err(e) => Failed("", Wrapped("operator dashboard", e))
    case Ok(m) =>
      match enc.yaml(m)
      case Err(e) => Failed("", e)
      case Ok(body) => Wrote(Document(body))
  }

  /** What exportDashboards does with one yielded dashboard. */
  function DashboardStep(cfg: Configuration, enc: Encoders, entry: Hit, model: JValue): Step
  {
    ManifestStep(OperatorDashboardOf(cfg, entry, model, enc), enc)
  }

  /** The loop body's answer to the iterator: go on exactly when the dashboard was written. */
  function ExportConsumer(cfg: Configuration, enc: Encoders): (Hit, JValue) -> bool
  {
    (entry: Hit, model: JValue) => DashboardStep(cfg, enc, entry, model).Wrote?
  }

  function DashboardSteps(cfg: Configuration, enc: Encoders, ys: seq<(Hit, JValue)>): (steps: seq<Step>)
    ensures |steps| == |ys|
    ensures forall k :: 0 <= k < |ys| ==> steps[k] == DashboardStep(cfg, enc, ys[k].0, ys[k].1)
  {
    seq(|ys|, k requires 0 <= k < |ys| => DashboardStep(cfg, enc, ys[k].0, ys[k].1))
  }

  /** Everything exportDashboards writes and returns, for the dashboards the iterator yields. */
  function ExportDashboardsOf(c: GrafanaClient, cfg: Configuration, args: set<string>, enc: Encoders): Emission
  {
    Emit(DashboardSteps(cfg, enc, DashboardsRun(c, cfg.folders, args, ExportConsumer(cfg, enc)).yielded))
  }

  /** The body of exportDashboards' loop for one yielded dashboard: build the manifest (tagging
      the model in place), marshal it, then write the separator and the document. */
  method WriteDashboard(w: Writer, cfg: Configuration, enc: Encoders, entry: Hit, dashboard: JValue)
    returns (err: Option<Error>)
    modifies w
    ensures DashboardStep(cfg, enc, entry, dashboard).Wrote? ==>
      err.None? && w.written == old(w.written) + DashboardStep(cfg, enc, entry, dashboard).text
    ensures DashboardStep(cfg, enc, entry, dashboard).Failed? ==>
      err == Some(DashboardStep(cfg, enc, entry, dashboard).error) && w.written == old(w.written)
  {
    var db := new DashboardFullWithMeta(dashboard);
    var manifest := OperatorDashboard(cfg, entry, db, enc);
    if manifest.Err? {
      return Some(Wrapped("operator dashboard", manifest.error));
    }
    var body := enc.yaml(manifest.value);
    if body.Err? {
      return Some(body.error);
    }
    w.Write(Separator);
    w.Write(body.value);
    return None;
  }

  /** exportDashboards' loop over the yielded dashboards: one YAML document per dashboard, in
      order, returning at the first one that cannot be built or marshalled. */
  method WriteDashboards(w: Writer, cfg: Configuration, enc: Encoders, yielded: seq<(Hit, JValue)>)
    returns (err: Option<Error>)
    modifies w
    ensures w.written == old(w.written) + Emit(DashboardSteps(cfg, enc, yielded)).output
    ensures err == Emit(DashboardSteps(cfg, enc, yielded)).error
  {
    ghost var steps := DashboardSteps(cfg, enc, yielded);
    var i := 0;
    assert steps[..0] == [];
    while i < |yielded|
      invariant 0 <= i <= |yielded|
      invariant w.written == old(w.written) + Emit(steps[..i]).output
      invariant Emit(steps[..i]).error.None?
    {
      var (entry, dashboard) := yielded[i];
      PrefixSnoc(steps, i);
      EmitSnoc(steps[..i], steps[i]);
      ghost var done := Emit(steps[..i]).output;
      var e := WriteDashboard(w, cfg, enc, entry, dashboard);
      if e.Some? {
        EmitFailureSticks(steps, i + 1);
        return e;
      }
      AppendAssoc(old(w.written), done, steps[i].text);
      i := i + 1;
    }
    assert steps[..i] == steps;
    return None;
  }

  /** exportDashboards: one YAML document per selected dashboard, in the order the iterator
      yields them, returning at the first record that cannot be built or marshalled. */
  method ExportDashboards(w: Writer, c: GrafanaClient, cfg: Configuration, args: set<string>, enc: Encoders)
    returns (err: Option<Error>)
    modifies w
    ensures w.written == old(w.written) + ExportDashboardsOf(c, cfg, args, enc).output
    ensures err == ExportDashboardsOf(c, cfg, args, enc).error
  {
    var yielded, calls := GrafanaDashboards(c, cfg.folders, args, ExportConsumer(cfg, enc));
    err := WriteDashboards(w, cfg, enc, yielded);
  }

  /** The stream exportDashboards writes: the yielded dashboards are selected hits, in page
      order and then hit order, with the models the client serves; a document is written for
      every one of them, in order; only the last one yielded can fail, and then its error is
      returned after the documents of all the others. */
  lemma ExportDashboardsStream(c: GrafanaClient, cfg: Configuration, args: set<string>, enc: Encoders)
    ensures var ys := DashboardsRun(c, cfg.folders, args, ExportConsumer(cfg, enc)).yielded;
      var steps := DashboardSteps(cfg, enc, ys);
      && Firsts(ys) <= Selected(c, cfg.folders, args, FirstPage)
      && Fetched(c, ys)
      && (forall k :: 0 <= k < |steps| - 1 ==> steps[k].Wrote?)
      && ((forall k :: 0 <= k < |steps| ==> steps[k].Wrote?) ==> ExportDashboardsOf(c, cfg, args, enc) == Emission(Texts(steps), None))
      && (steps != [] && steps[|steps| - 1].Failed? ==>
            ExportDashboardsOf(c, cfg, args, enc) == Emission(Texts(steps[..|steps| - 1]), Some(steps[|steps| - 1].error)))
  {
    var consumer := ExportConsumer(cfg, enc);
    var ys := DashboardsRun(c, cfg.folders, args, consumer).yielded;
    var steps := DashboardSteps(cfg, enc, ys);
    DashboardsSelection(c, cfg.folders, args, consumer);
    DashboardsStop(c, cfg.folders, args, consumer);
    forall k | 0 <= k < |steps| - 1
      ensures steps[k].Wrote?
    {
      assert consumer(ys[k].0, ys[k].1);
    }
    if forall k :: 0 <= k < |steps| ==> steps[k].Wrote? {
      EmitFirstFailure(steps, |steps|);
    }
    if steps != [] && steps[|steps| - 1].Failed? {
      EmitFirstFailure(steps, |steps| - 1);
    }
  }

  /** No silent drops: when every selected dashboard fetches and its record can be built and
      marshalled, the iterator yields every selected hit, in page order and then hit order,
      with its fetched model, and the export writes all their documents and returns no error. */
  lemma ExportDashboardsComplete(c: GrafanaClient, cfg: Configuration, args: set<string>, enc: Encoders)
    requires AllAccepted(c, cfg.folders, args, ExportConsumer(cfg, enc), AllHits(c, FirstPage))
    ensures var ys := DashboardsRun(c, cfg.folders, args, ExportConsumer(cfg, enc)).yielded;
      var sel := Selected(c, cfg.folders, args, FirstPage);
      var steps := DashboardSteps(cfg, enc, ys);
      && |ys| == |sel|
      && (forall k :: 0 <= k < |sel| ==> ys[k].0 == sel[k] && c.dashboards(sel[k].uid) == Ok(ys[k].1))
      && (forall k :: 0 <= k < |steps| ==> steps[k].Wrote?)
      && ExportDashboardsOf(c, cfg, args, enc) == Emission(Texts(steps), None)
  {
    var consumer := ExportConsumer(cfg, enc);
    var ys := DashboardsRun(c, cfg.folders, args, consumer).yielded;
    var sel := Selected(c, cfg.folders, args, FirstPage);
    var steps := DashboardSteps(cfg, enc, ys);
    assert Firsts(ys) == sel by {
      DashboardsComplete(c, cfg.folders, args, consumer);
    }
    assert Fetched(c, ys) by {
      DashboardsSelection(c, cfg.folders, args, consumer);
    }
    SelectedMembers(c, cfg.folders, args, FirstPage);
    forall k | 0 <= k < |steps|
      ensures steps[k].Wrote?
    {
      assert ys[k].0 == sel[k] && sel[k] in sel;
      assert consumer(ys[k].0, ys[k].1);
    }
    EmitFirstFailure(steps, |steps|);
  }
}
