/** The Grafana API shapes the export reads, and the log of remote calls an export makes. */
module Models {
  import opened Wrappers
  import opened Json

  /** models.Hit: one row of a dashboard search. */
  datatype Hit = Hit(title: string, folderTitle: string, kind: string, uid: string)

  /** models.DataSource, as GetDataSourceByName returns it (the fields the export reads). */
  datatype DataSource = DataSource(
    uid: string,
    name: string,
    dsType: string,
    url: string,
    access: string,
    database: string,
    user: string,
    isDefault: bool,
    basicAuth: bool,
    basicAuthUser: string,
    orgId: int,
    jsonData: JValue,
    secureJsonFields: map<string, bool>)

  /** models.DataSourceListItemDTO, as GetDataSources returns it; exporters embed it whole
      and read only its name. */
  datatype DataSourceListItemDTO = DataSourceListItemDTO(uid: string, name: string, dsType: string, url: string)

  /** One request made to the Grafana API. */
  datatype Call =
    | Search(kind: string, page: int)
    | GetDashboardByUID(uid: string)
    | GetDataSourceByName(name: string)

  /** The server's answer to a dashboard search for `page`, given its answers page by page;
      every page past the last one holds no hits. */
  function SearchAnswer(pages: seq<Result<seq<Hit>>>, page: int): (r: Result<seq<Hit>>)
    ensures r.Ok? && r.value != [] ==> 0 <= page < |pages|
  {
    if 0 <= page < |pages| then pages[page] else Ok([])
  }
}
