# grope export pipeline in Dafny

grope exports the dashboards and datasources of a Grafana server as a YAML stream of
grafana-operator custom resources, so the resources can be applied to a Kubernetes cluster.
The pipeline has three parts:

1. Search Grafana page by page for `dash-db` objects.
2. Optionally filter the hits by title or by folder title, then fetch each selected dashboard.
3. Optionally add tags to the dashboard model, wrap it in a `GrafanaDashboard` resource, and
   write the resources to the output. Each resource is written as a `---` separator followed
   by its YAML document, and the first failure stops the export.

Datasources are exported the same way.

The model covers three revisions of this pipeline. Each is kept in its own modules, because
the revisions differ in visible ways: the first page number, the error on a failed fetch, the
tag handling, the resource kind, and whether the empty namespace is written. The dashboard
filter differs only in form (a variadic slice and a closure against a `set.Set` and an inline
test); `Fetcher.ShouldExportIsNotSkipped` and `Exporter.ShouldExportAgrees` prove that it keeps
the same hits.

| revision | source | modules |
|---|---|---|
| current | `configuration.go`, `grafana.go`, `dashboards.go`, `datasources.go` | `Configuration`, `Grafana`, `Dashboards`, `Datasources` |
| older internal | `internal/fetcher.go`, `internal/exporter.go`, `internal/formatter.go` | `Fetcher`, `Exporter`, `Formatter` |
| older grope | `internal/grope/exporter.go`, `internal/grope/formatter.go` | `GropeExporter`, `GropeFormatter` |

Shared modules:

- `Wrappers`: `Option` and `Result`.
- `Json`: JSON values, which is how dashboard models are represented.
- `GoStrings`: `strings.Split`, `strings.Join`, `strings.TrimSpace`.
- `Models`: Grafana's search hits, datasources and API calls.
- `Operator`: the operator's API types.
- `Output`: an `io.Writer` that only grows, plus the `Step`/`Emit` account of what a loop of
  writes leaves behind.

How the pieces are modelled:

- **The Grafana server** is a value:
  - the answer to each requested search page (pages past the end are empty);
  - a function from UID to the fetched model;
  - a function from name to the datasource.
- **Foreign encoders** (`slug.Make`, `json.Marshal`, the YAML encoder) are uninterpreted function
  parameters that may fail.
- **Go 1.23 iterators** (`iter.Seq2`) are modelled in two parts:
  - A method runs the iterator's loops with the loop body's answer as a pure `consumer`. It is
    proved equal to a recursive run function.
  - The export loop then writes the yielded records. The run lemmas show what is yielded, in
    which order, which calls are made, and why the iteration ends.
- **State updated in place** keeps that form. The dashboard model that `tagDashboard` rewrites
  is a field of a class, and the output is a `Writer` class.

## Model

| member | source | states |
|---|---|---|
| Configuration.ConfigurationFromViper | configuration.go:31-58 | the selector always holds exactly one label pair: the configured name and value, or `dashboards=grafana` when no name is set; tags are empty exactly when the setting is empty, otherwise comma-free pieces that join back to the setting; url, token, namespace and folder mode are passed through |
| Configuration.InstanceSelector | configuration.go:82-87 | no selector exactly when there are no labels; otherwise it matches exactly the configured labels |
| Configuration.SelectorHasOnePair | configuration.go:33-41 | the instance selector of any configuration read from viper exists and has one pair, the configured one or the default |
| Configuration.TagsAreThePieces | configuration.go:42-45 | a non-empty tags setting yields at least one tag, and splitting the joined tags again gives the same tags |
| GoStrings.Split | configuration.go:44 | `strings.Split` with a one-rune separator: at least one piece, none containing the separator |
| GoStrings.SplitThenJoin | configuration.go:44 | joining the pieces of a split with the same separator gives back the input |
| GoStrings.JoinThenSplit | configuration.go:44 | splitting a join of separator-free pieces gives back the pieces |
| GoStrings.TrimSpace | internal/grope/exporter.go:80 | the result is the slice of the input after its leading white space, only white space follows it, it neither starts nor ends with white space, and an input without either is returned unchanged |
| GoStrings.TrimSpaceEmpty | internal/grope/exporter.go:80 | trimming gives the empty string exactly when every rune is white space |
| GoStrings.TrimSpaceIdempotent | internal/grope/exporter.go:80 | trimming twice is trimming once |
| Grafana.PageHits | grafana.go:50-65 | the inner loop over one page's hits yields, calls and stops exactly as the run function of those hits |
| Grafana.GrafanaDashboards | grafana.go:35-68 | the paged search loop yields the pairs and makes the calls of the iteration's run function |
| Grafana.Select | grafana.go:51-56 | every hit kept by the filter is a hit of the page that the filter does not skip |
| Grafana.SelectMembership | grafana.go:51-56 | with a non-empty name set, a hit is kept exactly when its title (or, in folder mode, its folder title) is in the set |
| Grafana.SelectWithoutArgs | grafana.go:51 | with no names, the filter keeps every hit of a page |
| Grafana.SelectedWithoutArgs | grafana.go:50-56 | with no names, every hit of every page up to the last one is selected |
| Grafana.HitRunFacts | grafana.go:51-64 | one hit makes no search; it is yielded and fetched only if it passes the filter; every yielded model is the fetched one; the iteration stops only for a reason |
| Grafana.HitsRunSelection | grafana.go:50-61 | one page yields and fetches a prefix of its selected hits, in order, and all of them unless the iteration stops |
| Grafana.HitsRunDetails | grafana.go:57-62 | every model yielded on a page is what the fetch of that hit's UID returned |
| Grafana.HitsRunStops | grafana.go:57-64 | a page only stops the iteration after a call: a failed fetch or a refused pair |
| Grafana.HitsRunComplete | grafana.go:50-65 | a page whose selected hits all fetch and are each accepted with their fetched model does not stop the iteration |
| Grafana.PagesRunSelection | grafana.go:39-66 | from any page on, the yielded hits and fetched UIDs are prefixes of the selected hits in page order then hit order, and each yielded model is the fetched one |
| Grafana.PagesRunSearches | grafana.go:37-49 | the searches are for dash-db, for consecutive pages from the start page, never past the first failing or empty page |
| Grafana.PagesRunStops | grafana.go:41-64 | the iteration always returns, only after a failed or empty search, a failed fetch or a refused pair, and no call follows that event |
| Grafana.PagesRunAllSelected | grafana.go:39-66 | when every selected hit fetches and is accepted with its fetched model, every selected hit is fetched and yielded, in order |
| Grafana.PagesRunAllSearched | grafana.go:39-49 | when every selected hit fetches and is accepted with its fetched model, every page up to and including the first failing or empty one is searched |
| Grafana.PagesRunComplete | grafana.go:39-66 | the conjunction of the two above |
| Grafana.PagesRunLastCall | grafana.go:41-49 | in a complete iteration the last call is the search of the first failing or empty page |
| Grafana.DashboardsSearches | grafana.go:37-40 | the iteration searches dash-db for pages 1, 2, 3, ... in increasing order, at least once and never past the first failing or empty page |
| Grafana.DashboardsSelection | grafana.go:50-62 | only selected hits are fetched and yielded, in page order then hit order, and each yielded model is the fetched one, so a failed fetch never reaches the consumer |
| Grafana.DashboardsStop | grafana.go:41-64 | a failed or empty search, a failed fetch and a refused pair each end the iteration; only the last pair can be refused |
| Grafana.DashboardsComplete | grafana.go:35-68 | when every selected hit fetches and is accepted with its fetched model, every selected hit is yielded and pages 1 to the first failing or empty one are searched |
| Grafana.DashboardsWithoutArgs | grafana.go:50-65 | without names, with every fetch succeeding and the consumer accepting each fetched pair, every hit of every page is yielded, in order |
| Grafana.GrafanaDataSources | grafana.go:70-83 | the loop over the names yields and looks up exactly what the datasource run function does |
| Grafana.DataSourcesOrder | grafana.go:72-77 | the names are looked up in order and a failed lookup is skipped without stopping the loop; a run the consumer never stops looks up every name and yields every datasource found |
| Grafana.DataSourcesStop | grafana.go:78-80 | the iteration stops exactly when the consumer refuses a datasource, which is then the last one yielded, found by the last call |
| Dashboards.DashboardFullWithMeta.constructor | dashboards.go:151 | the fetched dashboard holds the given model |
| Dashboards.Tag | dashboards.go:151-175 | an error exactly when the model is not a JSON object; otherwise only the "tags" key is rewritten, every other key is kept unchanged |
| Dashboards.HasTag | dashboards.go:163-168 | the scan finds the tag exactly when a string entry of the current list equals it |
| Dashboards.TagDashboard | dashboards.go:151-175 | the model after the method is the tagged model, or it is left unchanged and the type error returned |
| Dashboards.MergeKeepsExisting | dashboards.go:161-172 | the existing tags keep their order and positions: the old list is a prefix of the new one |
| Dashboards.MergeContainsAll | dashboards.go:161-172 | every new tag is in the merged list |
| Dashboards.MergeAppends | dashboards.go:169-171 | what is appended are exactly the missing new tags, each once, in the order of first occurrence |
| Dashboards.MergeUnchangedIff | dashboards.go:162-171 | the list is unchanged exactly when every new tag is already in it |
| Dashboards.MergeCompose | dashboards.go:161-172 | merging one list of tags and then another is merging their concatenation |
| Dashboards.MergeIdempotent | dashboards.go:161-172 | merging the same tags twice is merging them once |
| Dashboards.TagRejectsNonObject | dashboards.go:152-155 | a model that is not an object is an error |
| Dashboards.TagOnlyTouchesTags | dashboards.go:173 | tagging an object keeps its key set plus "tags" and every other value |
| Dashboards.TagAbsentKey | dashboards.go:156-159 | a model without tags gets the new tags in order, without repetitions |
| Dashboards.TagNotAList | dashboards.go:160 | a "tags" value that is not a list is dropped: replaced by the new tags, or by null when there are none |
| Dashboards.TagList | dashboards.go:160-173 | a tag list keeps its entries in place and gains every new tag at the end |
| Dashboards.TagIdempotent | dashboards.go:161-173 | tagging twice with the same tags is tagging once |
| Dashboards.OperatorDashboardManifest | dashboards.go:115-147 | a failure to tag or to encode is an error; otherwise a GrafanaDashboard named by the slug of the title in the configured namespace, importable across namespaces, resynced every ten minutes, selecting the configured instances, in the hit's folder, holding the JSON of the tagged model |
| Dashboards.OperatorDashboard | dashboards.go:115-147 | tags the dashboard in place and returns the manifest of the tagged model |
| Dashboards.ManifestStep | dashboards.go:58-64 | a record that cannot be built or marshalled writes nothing |
| Dashboards.WriteDashboard | dashboards.go:54-64 | one record either appends the separator and document or writes nothing and returns the error |
| Dashboards.WriteDashboards | dashboards.go:53-66 | the loop over the yielded records writes and returns exactly what handling them in order, stopping at the first failure, does |
| Dashboards.ExportDashboards | dashboards.go:46-67 | the export writes and returns what the yielded records' steps emit |
| Dashboards.ExportDashboardsStream | dashboards.go:53-66 | the yielded hits are a prefix of the selected hits, in selection order, and each yielded model is the one fetched for its hit; all but the last wrote; with no failure the output is every document; otherwise the documents before the failing one and its error |
| Dashboards.ExportDashboardsComplete | dashboards.go:46-67 | when every selected hit fetches and its document can be written, a document is written for every selected hit, in selection order, and no error is returned |
| Datasources.OperatorDatasourceManifest | datasources.go:89-128 | a GrafanaDatasource named by the slug of the name, in the configured namespace, importable, resynced every ten minutes, selecting the configured instances; every field copied, never editable, never secure data; JSON data empty when there is none or its encoding fails, and its encoding otherwise |
| Datasources.DatasourceStep | datasources.go:53-59 | a datasource that cannot be marshalled writes nothing |
| Datasources.SecureFieldsDoNotMatter | datasources.go:50-52 | secure JSON fields only draw a warning: the datasource's step does not depend on them |
| Datasources.WriteDatasource | datasources.go:53-59 | one datasource either appends the separator and document or writes nothing and returns the error |
| Datasources.WriteDatasources | datasources.go:49-62 | the loop writes and returns what handling the yielded datasources in order, stopping at the first failure, does |
| Datasources.ExportDatasources | datasources.go:41-63 | the export writes and returns what the yielded datasources' steps emit |
| Datasources.DatasourcesWroteButLast | datasources.go:49-61 | the yielded datasources are a prefix of those found, all but the last written; the loop stops early only at one that cannot be written |
| Datasources.ExportDatasourcesStream | datasources.go:49-62 | with no failure a document for every datasource found, in the order of the names; otherwise the documents before the first failing one, and its error |
| Fetcher.ArgSet | internal/fetcher.go:77 | the set has exactly the names of args and is empty exactly when args is |
| Fetcher.ShouldExportMeaning | internal/fetcher.go:76-87 | without args every hit passes; otherwise exactly the hits whose folder title (folder mode) or title is an arg |
| Fetcher.ShouldExportIsNotSkipped | internal/fetcher.go:76-87 | the older filter keeps exactly the hits the current revision's filter does not skip |
| Fetcher.GetDataSources | internal/fetcher.go:89-95 | the listed datasources, or the client's error wrapped with "getDatasources" |
| Fetcher.PageHits | internal/fetcher.go:59-71 | the loop over one page's hits yields, calls and stops exactly as the run function of those hits |
| Fetcher.YieldDashboards | internal/fetcher.go:42-74 | the paged loop yields the pairs and makes the calls of the iteration's run function |
| Fetcher.YieldIsGrafanaFromPageZero | internal/fetcher.go:46-73 | the iteration makes the calls of the current revision's iteration started at page 0 and yields the same dashboards, plus one explained error at the end exactly when its last call failed |
| Fetcher.YieldPages | internal/fetcher.go:47-58 | searches are for dash-db, for pages 0, 1, 2, ... in increasing order, never past the first failing or empty page |
| Fetcher.YieldContents | internal/fetcher.go:59-70 | only filtered hits are fetched, in order; each dashboard yielded without error is the next such hit with its fetched model; an error can only be the last pair |
| Fetcher.YieldEnds | internal/fetcher.go:50-70 | the iteration always returns; an error is yielded exactly when the last call failed: a search's own error beside an empty dashboard, or a fetch error naming the hit's title; an empty page ends it without error; a refused dashboard is the last pair |
| Fetcher.YieldCompleteItems | internal/fetcher.go:47-71 | when every filtered hit fetches and its dashboard is accepted, a dashboard for every filtered hit in order, then the last search's error when it failed |
| Fetcher.YieldCompleteCalls | internal/fetcher.go:47-71 | in that case every filtered hit is fetched and pages 0 to the first failing or empty one are searched |
| Fetcher.YieldComplete | internal/fetcher.go:42-74 | the conjunction of the two above |
| Exporter.StringOrDefault | internal/exporter.go:45-50 | the string unless it is empty, then the default; empty only when both are |
| Exporter.MakeExporter | internal/exporter.go:25-43 | an error exactly when connecting fails, wrapped with "grafana connect"; otherwise namespace, label name and value with their defaults, folder mode as configured |
| Exporter.MakeExporterDefaults | internal/exporter.go:36-40 | the formatter never gets an empty namespace or label: "default", "dashboards" and "grafana" replace empty settings |
| Exporter.ShouldExportAgrees | internal/exporter.go:64-75 | the exporter's filter keeps exactly what the fetcher's filter keeps: everything without args, otherwise folder-title or title membership |
| Exporter.ExportStepWraps | internal/exporter.go:56-58 | the export writes what the formatter writes and wraps its error with "format dashboard" and the title |
| Exporter.ExportDashboard | internal/exporter.go:56-58 | one dashboard appends the formatter's output, also its partial output on failure, and returns the wrapped error |
| Exporter.ExportFetched | internal/exporter.go:55-59 | the loop writes and returns what the dashboards' steps emit, stopping at the first failure |
| Exporter.ExportDashboards | internal/exporter.go:52-62 | a failed fetch writes nothing and returns its error; otherwise what the fetched dashboards' steps emit |
| Exporter.ExportDashboardsStream | internal/exporter.go:52-62 | with no failure every document in fetched order; otherwise the documents before the first failing dashboard, its partial output, and its error naming its title |
| Exporter.ExportDataSources | internal/exporter.go:77-83 | a listing error is returned with nothing written; otherwise what formatting the listed datasources emits |
| Formatter.DashboardCRShape | internal/formatter.go:60-77 | a GrafanaDashboard named by the slug of the title, its namespace always written, importable, in the dashboard's folder, selecting exactly the formatter's label pair, carrying the JSON, no datasource |
| Formatter.DataSourceCRShape | internal/formatter.go:86-101 | kind GrafanaDataSource, named "datasource-" plus the slug, selecting the label pair, embedding the datasource, no folder and no JSON |
| Formatter.DashboardStepCases | internal/formatter.go:52-82 | a model that does not encode fails before anything is written; otherwise the separator, then the document or the YAML error |
| Formatter.FormatDashboard | internal/formatter.go:52-82 | appends exactly the dashboard step's output and returns its error |
| Formatter.DataSourceStep | internal/formatter.go:102-107 | a datasource always writes the separator, then its document or the wrapped "encode data source cr" error |
| Formatter.FormatDataSource | internal/formatter.go:85-107 | one datasource appends its step's output and returns its error |
| Formatter.FormatDataSources | internal/formatter.go:84-110 | the loop writes and returns what the datasources' steps emit |
| Formatter.DataSourcesOutput | internal/formatter.go:84-110 | with every datasource encoding, a document per datasource; otherwise the documents before the first failing one, its separator, and the wrapped error |
| GropeExporter.NewGrafanaClientCases | internal/grope/exporter.go:48-72 | a parse error is returned wrapped as "grafana.url invalid"; an address without a scheme is an error naming the address; the client is built exactly when parsing succeeds with a scheme, and then talks to the parsed host under /api, with its scheme only, authenticated by the token |
| GropeExporter.MakeExporterDefaults | internal/grope/exporter.go:30-46 | a client error is the exporter's error; otherwise the label name and value default to "dashboards" and "grafana", and namespace, tags and folder mode are taken as configured |
| GropeExporter.DashboardModel.constructor | internal/grope/exporter.go:101 | the dashboard holds the given model |
| GropeExporter.TagDashboard | internal/grope/exporter.go:101-122 | the model after the method is the strictly tagged model, or it is unchanged and the error returned |
| GropeExporter.StrictTagErrors | internal/grope/exporter.go:102-113 | an error exactly when the model is not an object, has no tags, or its tags are not a list |
| GropeExporter.StrictTagAppends | internal/grope/exporter.go:114-121 | a present tag leaves the model as it is; a missing one is appended at the end, every other key unchanged |
| GropeExporter.StrictTagIdempotent | internal/grope/exporter.go:114-118 | tagging twice with the same tag is tagging once, and the tags stay strings |
| GropeExporter.NonEmptyMeaning | internal/grope/exporter.go:81 | dropping the empty strings keeps exactly the others and no more of them, and pieces that are all non-empty are kept as they are |
| GropeExporter.NonEmptyConcat | internal/grope/exporter.go:79-81 | the tags of two runs of pieces are those of the first followed by those of the second, so the pieces keep their order |
| GropeExporter.TrimmedSound | internal/grope/exporter.go:79-80 | every tag applied is a non-empty trimmed piece, free of surrounding white space |
| GropeExporter.TrimmedComplete | internal/grope/exporter.go:79-80 | every non-empty trimmed piece is applied, and no more tags are applied than there are pieces |
| GropeExporter.ApplyTagsFailureSticks | internal/grope/exporter.go:81-83 | once a tag fails, the later ones are not applied and the first error is returned |
| GropeExporter.ApplyTagsIsMerge | internal/grope/exporter.go:101-122 | on a model with a tag list, applying the tags is the current revision's merge: each new tag appended once at the end unless present |
| GropeExporter.ApplyTagsWithoutList | internal/grope/exporter.go:106-113 | with tags to add, a model without a tag list fails at the first one, while the current revision adds the tags |
| GropeExporter.TaggedThroughIsApply | internal/grope/exporter.go:79-85 | handling the trimmed pieces one at a time is applying the tag list they make |
| GropeExporter.TagNext | internal/grope/exporter.go:80-84 | one piece: an empty one is skipped, otherwise the model is tagged with it or the error returned |
| GropeExporter.TagPieces | internal/grope/exporter.go:79-85 | the model ends as every trimmed piece makes it, or the first error is returned |
| GropeExporter.TagAll | internal/grope/exporter.go:79-85 | the dashboard ends tagged with the configured tag list, or the first tagging error is returned |
| GropeExporter.ExportDashboard | internal/grope/exporter.go:76-88 | a yielded error is returned wrapped, with nothing written; otherwise the dashboard is tagged and formatted, a formatting error wrapped with its title |
| GropeExporter.ExportYielded | internal/grope/exporter.go:75-90 | the loop writes and returns what the yielded pairs' steps emit |
| GropeExporter.ExportDashboards | internal/grope/exporter.go:74-91 | the export writes and returns what the yielded pairs' steps emit |
| GropeExporter.ExportStepsWroteButLast | internal/grope/exporter.go:75-89 | every step but the last one wrote |
| GropeExporter.ExportDashboardsComplete | internal/grope/exporter.go:74-91 | when every filtered hit fetches, its tags apply and its document can be written, a document is written for every filtered hit in selection order; the export then succeeds, or, when the last search failed, returns that error wrapped as "error fetching dashboard" |
| GropeExporter.ExportDashboardsStream | internal/grope/exporter.go:74-91 | each yielded dashboard is a filtered hit in order with its fetched model; with no failure every document; otherwise the documents before the failing pair, its partial output, and its error |
| GropeExporter.ExportDataSources | internal/grope/exporter.go:93-99 | a listing error is returned with nothing written; otherwise what formatting the listed datasources emits |
| GropeFormatter.DashboardCRShape | internal/grope/formatter.go:55-72 | a GrafanaDashboard named by the slug of the title, importable, in its folder, selecting the label pair, carrying the JSON; the namespace, folder and JSON are left out of the YAML when empty |
| GropeFormatter.DataSourceCRShape | internal/grope/formatter.go:94-109 | kind GrafanaDatasource, named "datasource-" plus the slug, not importable, selecting the label pair, embedding the datasource |
| GropeFormatter.DashboardStepCases | internal/grope/formatter.go:47-77 | a model that does not encode fails before anything is written; otherwise the separator, then the document or the YAML error |
| GropeFormatter.FormatDashboard | internal/grope/formatter.go:47-77 | appends exactly the dashboard step's output and returns its error |
| GropeFormatter.GrafanaOperatorCustomResources | internal/grope/formatter.go:91-115 | the iterator yields the resources until and including the first one the consumer refuses |
| GropeFormatter.ResourcesRunUpTo | internal/grope/formatter.go:93-112 | a consumer that accepts the first i resources and refuses the next yields exactly those i + 1; one that accepts all yields all |
| GropeFormatter.ResourcesRunStops | internal/grope/formatter.go:110-112 | the yielded resources are a prefix, all accepted but the last, which is refused unless all were yielded |
| GropeFormatter.ResourceStep | internal/grope/formatter.go:81-86 | a resource always writes the separator, then its document or nothing with the wrapped error |
| GropeFormatter.FormatResource | internal/grope/formatter.go:81-86 | one resource appends its step's output and returns its error |
| GropeFormatter.FormatResources | internal/grope/formatter.go:80-88 | the loop writes and returns what the yielded resources' steps emit |
| GropeFormatter.FormatDataSources | internal/grope/formatter.go:79-89 | writes and returns what the steps of the yielded resources emit |
| GropeFormatter.StoppingEarlyLosesNothing | internal/grope/formatter.go:79-89 | stopping the iterator at the first failure emits exactly what handling every datasource's resource would |
| GropeFormatter.FormatDataSourcesOutput | internal/grope/formatter.go:79-89 | with every resource encoding, a document per datasource; otherwise the documents before the first failing one, its separator, and the wrapped error |
| GropeFormatter.DashboardCRAsInternal | internal/grope/formatter.go:30-33 | the dashboard resource equals the older internal one field by field, and their YAML keys agree exactly when the namespace is not empty |
| GropeFormatter.DataSourceKindChanged | internal/grope/formatter.go:96 | the kind is now GrafanaDatasource where the older revision wrote GrafanaDataSource; the name is built the same way |
| Output.Writer.Write | dashboards.go:63-64 | a write appends exactly its text |
| Output.EmitFailureSticks | dashboards.go:58-61 | once a record has failed, the later records change nothing |
| Output.EmitFirstFailure | dashboards.go:53-66 | with no failure the output is every record's text and no error; otherwise the texts before the first failure, its partial output, and its error |

## Left out

- Command line: the cobra commands and `RunE`, `main.go`, `grope.go`, and both `cli.go` files are not part of this model. They only wire flags and settings to the operations.
- Configuration loading: viper's key lookup, files and environment are not modelled. The settings that `configurationFromViper` and both `makeExporter` versions read are plain values.
- `grafanaClient` in configuration.go:60-80 is not part of this model. It builds an HTTP client. The server it reaches is the `GrafanaClient` value.
- HTTP and the Grafana API: every remote answer is an input. `url.Parse`'s result is a parameter of `GropeExporter.NewGrafanaClient`, whose transport configuration is a value. `gapi.New`'s connect error is a parameter of `Exporter.MakeExporter`.
- The Grafana server is finite: the search answers are a finite sequence, and every page past its end is empty. A server that never returns an empty page, and the int64 page counter's overflow, are not modelled.
- `Exporter.ExportDashboards`: the internal client's `FetchDashboards` is not in the modelled files. Its result is an input, and `Fetcher.YieldDashboards` models the iterator it is built on.
- The `grafanaDashboards` and `grafanaDataSources` copies in dashboards.go:72-105 and datasources.go:66-79 are modelled once, in `Grafana`. They have the same code as grafana.go:35-83.
- Logging (slog), including the warning about secure JSON fields, is left out. It does not affect what is written or returned.
- `slug.Make`, the JSON encoders and the YAML encoders are uninterpreted functions that may fail. The bytes they produce and their indentation are not modelled.
- Error texts: an error is its context chain (`Wrapped`, `WrappedFor`). The `%T` type names in the type-check errors of `tagDashboard` are not modelled.
- Iterators: each Go range-over-func iterator is modelled as a method that runs with the loop body's continue-or-stop answer as a pure consumer, followed by the writing loop over what it yielded. The interleaving of remote calls with writes is not modelled. Only the order and content of each is.
- `GropeExporter.TagDashboard`: requires that every entry of the tag list be a string. This is where the source's type assertion would panic; the exact no-panic condition is weaker, because the scan stops at the first match.
- `GropeExporter.ExportDashboards`: for the same reason, requires that every dashboard the client serves has string tags.
- The grope revision's own `yieldDashboards`, `dashboardClient` and `getDataSources`, called at internal/grope/exporter.go:75 and :94, are not part of this model. `GropeExporter` uses the internal package's versions in internal/fetcher.go instead: searches from page 0, an error yielded as a pair, the "dash-db lookup for" and "getDatasources" wraps.
- `Output.Writer.Write`: the model's writer never fails. The explicit writes of the separator and of encoded documents discard their errors in the source (dashboards.go:63-64, datasources.go:58-59, internal/formatter.go:78 and :102, internal/grope/formatter.go:73 and :81). The YAML encoder, however, writes straight into the output (internal/formatter.go:79-81 and :103-105, internal/grope/formatter.go:74-76 and :82-84). A write error it reports as its `Encode` error, and any partial document it leaves, are not modelled: a failed YAML encoding writes nothing in the model.
- Text and numbers: Dafny strings are sequences of Unicode scalar values, while Go strings are bytes. `strings.TrimSpace` decodes UTF-8 and treats an invalid byte as U+FFFD, which is not white space; invalid UTF-8 is not modelled. `JNum` holds an integer, while Go's `encoding/json` decodes numbers as float64; the encoders are uninterpreted, so no logic of the model depends on the difference.
