/**
 * The list operations of BigQueryImpl (datasets, tables, table rows, jobs): each one
 * calls the transport once under the retry wrapper and wraps the (cursor, batch) it
 * gets into a page whose fetcher closes over the same identity, the same service and
 * the option map with the page token bound to that cursor.
 */
module Listing {
  import opened Wrappers
  import opened RpcOptions
  import opened Gateway

  /** PageImpl: the fetcher of the next page, the cursor (null: no more pages) and this page's values. */
  datatype Page<T, F> = Page(fetcher: F, cursor: Option<string>, values: seq<T>)

  /** page carries the listing's cursor verbatim and its batch converted element by element, in order. */
  ghost predicate CarriesListing<P, T, F>(page: Page<T, F>, listing: Tuple<Option<string>, seq<P>>, convert: P -> T)
  {
    && page.cursor == listing.x
    && |page.values| == |listing.y|
    && forall i :: 0 <= i < |page.values| ==> page.values[i] == convert(listing.y[i])
  }

  // ---------------------------------------------------------------- datasets

  /** DatasetPageFetcher: the project, the service and the options of the next request. */
  datatype DatasetPageFetcher = DatasetPageFetcher(
    projectId: string, serviceOptions: BigQueryOptions, requestOptions: RpcOptionMap)
  {
    /** getNextPage: the same list call, on the captured project, service and options. */
    function GetNextPage(): Result<Page<Dataset, DatasetPageFetcher>, Failure>
    {
      ListDatasets(projectId, serviceOptions, requestOptions)
    }
  }

  /** The DatasetPageFetcher constructor: it keeps the options with the page token set to cursor. */
  function NewDatasetPageFetcher(projectId: string, serviceOptions: BigQueryOptions,
                                 cursor: Option<string>, optionMap: RpcOptionMap): (f: DatasetPageFetcher)
    ensures f.projectId == projectId && f.serviceOptions == serviceOptions
    ensures ThreadsCursor(f.requestOptions, optionMap, cursor)
  {
    DatasetPageFetcher(projectId, serviceOptions, NextRequestOptions(cursor, optionMap))
  }

  /** The static listDatasets: one retried call; its failure is translated into a BigQueryException. */
  function ListDatasets(projectId: string, serviceOptions: BigQueryOptions, optionsMap: RpcOptionMap)
    : (r: Result<Page<Dataset, DatasetPageFetcher>, Failure>)
    ensures var call := serviceOptions.rpc.listDatasets(projectId, optionsMap);
      && (r.Success? <==> call.Success?)
      && (call.Failure? ==> r.error == BigQueryFailure(call.error))
      && (call.Success? ==>
            && CarriesListing(r.value, call.value, serviceOptions.conversions.datasetFromPb)
            && r.value.fetcher.projectId == projectId
            && r.value.fetcher.serviceOptions == serviceOptions
            && ThreadsCursor(r.value.fetcher.requestOptions, optionsMap, call.value.x))
  {
    match TranslateAndThrow(RunWithRetries(serviceOptions.rpc.listDatasets(projectId, optionsMap)))
    case Failure(e) => Failure(e)
    case Success(result) =>
      var cursor := result.x;
      Success(Page(NewDatasetPageFetcher(projectId, serviceOptions, cursor, optionsMap), cursor,
                   MapSeq(serviceOptions.conversions.datasetFromPb, result.y)))
  }

  /**
   * The page after a dataset page is the same list call with the first request's options
   * and the page token bound to that page's cursor, whatever pages came before.
   */
  lemma DatasetCursorThreading(projectId: string, serviceOptions: BigQueryOptions, optionsMap: RpcOptionMap,
                               page: Page<Dataset, DatasetPageFetcher>)
    requires ListDatasets(projectId, serviceOptions, optionsMap) == Success(page)
    ensures page.fetcher.GetNextPage() ==
            ListDatasets(projectId, serviceOptions, NextRequestOptions(page.cursor, optionsMap))
    ensures page.fetcher.GetNextPage().Success? ==>
              page.fetcher.GetNextPage().value.fetcher ==
              NewDatasetPageFetcher(projectId, serviceOptions, page.fetcher.GetNextPage().value.cursor, optionsMap)
  {
    ThreadsCursorUnique(page.fetcher.requestOptions, NextRequestOptions(page.cursor, optionsMap),
                        optionsMap, page.cursor);
    var next := page.fetcher.GetNextPage();
    if next.Success? {
      ThreadingForgetsEarlierCursor(optionsMap, page.cursor, next.value.cursor);
    }
  }

  // ---------------------------------------------------------------- tables

  /** TablePageFetcher: the dataset, the service and the options of the next request. */
  datatype TablePageFetcher = TablePageFetcher(
    datasetId: DatasetId, serviceOptions: BigQueryOptions, requestOptions: RpcOptionMap)
  {
    /** getNextPage: the same list call, on the captured dataset, service and options. */
    function GetNextPage(): Result<Page<Table, TablePageFetcher>, Failure>
    {
      ListTables(datasetId, serviceOptions, requestOptions)
    }
  }

  /** The TablePageFetcher constructor. */
  function NewTablePageFetcher(datasetId: DatasetId, serviceOptions: BigQueryOptions,
                               cursor: Option<string>, optionMap: RpcOptionMap): (f: TablePageFetcher)
    ensures f.datasetId == datasetId && f.serviceOptions == serviceOptions
    ensures ThreadsCursor(f.requestOptions, optionMap, cursor)
  {
    TablePageFetcher(datasetId, serviceOptions, NextRequestOptions(cursor, optionMap))
  }

  /** The static listTables: one retried call; its failure is translated into a BigQueryException. */
  function ListTables(datasetId: DatasetId, serviceOptions: BigQueryOptions, optionsMap: RpcOptionMap)
    : (r: Result<Page<Table, TablePageFetcher>, Failure>)
    ensures var call := serviceOptions.rpc.listTables(datasetId, optionsMap);
      && (r.Success? <==> call.Success?)
      && (call.Failure? ==> r.error == BigQueryFailure(call.error))
      && (call.Success? ==>
            && CarriesListing(r.value, call.value, serviceOptions.conversions.tableFromPb)
            && r.value.fetcher.datasetId == datasetId
            && r.value.fetcher.serviceOptions == serviceOptions
            && ThreadsCursor(r.value.fetcher.requestOptions, optionsMap, call.value.x))
  {
    match TranslateAndThrow(RunWithRetries(serviceOptions.rpc.listTables(datasetId, optionsMap)))
    case Failure(e) => Failure(e)
    case Success(result) =>
      var cursor := result.x;
      var tables := MapSeq(serviceOptions.conversions.tableFromPb, result.y);
      Success(Page(NewTablePageFetcher(datasetId, serviceOptions, cursor, optionsMap), cursor, tables))
  }

  /** The page after a table page: the same list call with the first options and the latest cursor. */
  lemma TableCursorThreading(datasetId: DatasetId, serviceOptions: BigQueryOptions, optionsMap: RpcOptionMap,
                             page: Page<Table, TablePageFetcher>)
    requires ListTables(datasetId, serviceOptions, optionsMap) == Success(page)
    ensures page.fetcher.GetNextPage() ==
            ListTables(datasetId, serviceOptions, NextRequestOptions(page.cursor, optionsMap))
    ensures page.fetcher.GetNextPage().Success? ==>
              page.fetcher.GetNextPage().value.fetcher ==
              NewTablePageFetcher(datasetId, serviceOptions, page.fetcher.GetNextPage().value.cursor, optionsMap)
  {
    ThreadsCursorUnique(page.fetcher.requestOptions, NextRequestOptions(page.cursor, optionsMap),
                        optionsMap, page.cursor);
    var next := page.fetcher.GetNextPage();
    if next.Success? {
      ThreadingForgetsEarlierCursor(optionsMap, page.cursor, next.value.cursor);
    }
  }

  // ---------------------------------------------------------------- table rows

  /** schema != null ? schema.getFields() : null */
  function SchemaFields(schema: Option<Schema>): (fields: Option<FieldList>)
    ensures fields.Some? <==> schema.Some?
    ensures schema.Some? ==> fields.value == schema.value.fields
  {
    match schema
    case None => None
    case Some(s) => Some(s.fields)
  }

  /**
   * transformTableData: a null row list gives no rows; otherwise each wire row becomes
   * one FieldValueList, in order, decoded with the schema's fields (null without schema).
   */
  function TransformTableData(fieldValueListFromPb: (TableRow, Option<FieldList>) -> FieldValueList,
                              tableDataPb: Option<seq<TableRow>>, schema: Option<Schema>)
    : (r: seq<FieldValueList>)
    ensures tableDataPb.None? ==> r == []
    ensures tableDataPb.Some? ==>
              && |r| == |tableDataPb.value|
              && forall i :: 0 <= i < |r| ==> r[i] == fieldValueListFromPb(tableDataPb.value[i], SchemaFields(schema))
  {
    var schemaFields := SchemaFields(schema);
    var rows := if tableDataPb.Some? then tableDataPb.value else [];
    MapSeq((rowPb: TableRow) => fieldValueListFromPb(rowPb, schemaFields), rows)
  }

  /** TableDataPageFetcher: the table id as the caller gave it, the service and the next options. */
  datatype TableDataPageFetcher = TableDataPageFetcher(
    table: TableId, serviceOptions: BigQueryOptions, requestOptions: RpcOptionMap)
  {
    /** getNextPage: the same list call, on the captured table, service and options. */
    function GetNextPage(): Result<Page<FieldValueList, TableDataPageFetcher>, Failure>
    {
      ListTableData(table, serviceOptions, requestOptions)
    }
  }

  /** The TableDataPageFetcher constructor. */
  function NewTableDataPageFetcher(table: TableId, serviceOptions: BigQueryOptions,
                                   cursor: Option<string>, optionMap: RpcOptionMap): (f: TableDataPageFetcher)
    ensures f.table == table && f.serviceOptions == serviceOptions
    ensures ThreadsCursor(f.requestOptions, optionMap, cursor)
  {
    TableDataPageFetcher(table, serviceOptions, NextRequestOptions(cursor, optionMap))
  }

  /**
   * The static listTableData: the table id is completed with the default project before
   * the retried call; the fetcher keeps the id as given, without schema for the rows.
   */
  function ListTableData(tableId: TableId, serviceOptions: BigQueryOptions, optionsMap: RpcOptionMap)
    : (r: Result<Page<FieldValueList, TableDataPageFetcher>, Failure>)
    ensures var call := serviceOptions.rpc.listTableData(tableId.SetProjectId(serviceOptions.projectId), optionsMap);
      && (r.Success? <==> call.Success?)
      && (call.Failure? ==> r.error == BigQueryFailure(call.error))
      && (call.Success? ==>
            && r.value.cursor == call.value.x
            && r.value.values == TransformTableData(serviceOptions.conversions.fieldValueListFromPb, call.value.y, None)
            && r.value.fetcher.table == tableId
            && r.value.fetcher.serviceOptions == serviceOptions
            && ThreadsCursor(r.value.fetcher.requestOptions, optionsMap, call.value.x))
  {
    var completeTableId := tableId.SetProjectId(serviceOptions.projectId);
    match TranslateAndThrow(RunWithRetries(serviceOptions.rpc.listTableData(completeTableId, optionsMap)))
    case Failure(e) => Failure(e)
    case Success(result) =>
      var cursor := result.x;
      Success(Page(NewTableDataPageFetcher(tableId, serviceOptions, cursor, optionsMap), cursor,
                   TransformTableData(serviceOptions.conversions.fieldValueListFromPb, result.y, None)))
  }

  /**
   * The page after a page of rows: the same list call with the first options and the
   * latest cursor, sent to the same completed table id as the first call.
   */
  lemma TableDataCursorThreading(tableId: TableId, serviceOptions: BigQueryOptions, optionsMap: RpcOptionMap,
                                 page: Page<FieldValueList, TableDataPageFetcher>)
    requires ListTableData(tableId, serviceOptions, optionsMap) == Success(page)
    ensures page.fetcher.GetNextPage() ==
            ListTableData(tableId, serviceOptions, NextRequestOptions(page.cursor, optionsMap))
    ensures page.fetcher.table.SetProjectId(serviceOptions.projectId) == tableId.SetProjectId(serviceOptions.projectId)
    ensures page.fetcher.GetNextPage().Success? ==>
              page.fetcher.GetNextPage().value.fetcher ==
              NewTableDataPageFetcher(tableId, serviceOptions, page.fetcher.GetNextPage().value.cursor, optionsMap)
  {
    ThreadsCursorUnique(page.fetcher.requestOptions, NextRequestOptions(page.cursor, optionsMap),
                        optionsMap, page.cursor);
    var next := page.fetcher.GetNextPage();
    if next.Success? {
      ThreadingForgetsEarlierCursor(optionsMap, page.cursor, next.value.cursor);
    }
  }

  // ---------------------------------------------------------------- jobs

  /** JobPageFetcher: the service and the options of the next request (the project is the service's). */
  datatype JobPageFetcher = JobPageFetcher(serviceOptions: BigQueryOptions, requestOptions: RpcOptionMap)
  {
    /** getNextPage: the same list call, on the captured service and options. */
    function GetNextPage(): Result<Page<Job, JobPageFetcher>, Failure>
    {
      ListJobs(serviceOptions, requestOptions)
    }
  }

  /** The JobPageFetcher constructor. */
  function NewJobPageFetcher(serviceOptions: BigQueryOptions, cursor: Option<string>,
                             optionMap: RpcOptionMap): (f: JobPageFetcher)
    ensures f.serviceOptions == serviceOptions
    ensures ThreadsCursor(f.requestOptions, optionMap, cursor)
  {
    JobPageFetcher(serviceOptions, NextRequestOptions(cursor, optionMap))
  }

  /**
   * The static listJobs: one retried call on the service's project. It has no catch
   * block, so its failure is the RetryHelperException itself, not a BigQueryException.
   */
  function ListJobs(serviceOptions: BigQueryOptions, optionsMap: RpcOptionMap)
    : (r: Result<Page<Job, JobPageFetcher>, Failure>)
    ensures var call := serviceOptions.rpc.listJobs(serviceOptions.projectId, optionsMap);
      && (r.Success? <==> call.Success?)
      && (call.Failure? ==> r.error == RetryHelperFailure(call.error))
      && (call.Success? ==>
            && CarriesListing(r.value, call.value, serviceOptions.conversions.jobFromPb)
            && r.value.fetcher.serviceOptions == serviceOptions
            && ThreadsCursor(r.value.fetcher.requestOptions, optionsMap, call.value.x))
  {
    match RunWithRetries(serviceOptions.rpc.listJobs(serviceOptions.projectId, optionsMap))
    case Failure(e) => Failure(e)
    case Success(result) =>
      var cursor := result.x;
      var jobs := MapSeq(serviceOptions.conversions.jobFromPb, result.y);
      Success(Page(NewJobPageFetcher(serviceOptions, cursor, optionsMap), cursor, jobs))
  }

  /** The page after a job page: the same list call with the first options and the latest cursor. */
  lemma JobCursorThreading(serviceOptions: BigQueryOptions, optionsMap: RpcOptionMap, page: Page<Job, JobPageFetcher>)
    requires ListJobs(serviceOptions, optionsMap) == Success(page)
    ensures page.fetcher.GetNextPage() == ListJobs(serviceOptions, NextRequestOptions(page.cursor, optionsMap))
    ensures page.fetcher.GetNextPage().Success? ==>
              page.fetcher.GetNextPage().value.fetcher ==
              NewJobPageFetcher(serviceOptions, page.fetcher.GetNextPage().value.cursor, optionsMap)
  {
    ThreadsCursorUnique(page.fetcher.requestOptions, NextRequestOptions(page.cursor, optionsMap),
                        optionsMap, page.cursor);
    var next := page.fetcher.GetNextPage();
    if next.Success? {
      ThreadingForgetsEarlierCursor(optionsMap, page.cursor, next.value.cursor);
    }
  }

  // ---------------------------------------------------------------- public entry points

  /** optionMap rejected the options: the operation fails with the first live duplicate, before any call. */
  ghost predicate RejectedBeforeCall<T>(options: seq<BigQueryOption>, r: Result<T, Failure>)
  {
    && r.Failure? && r.error.IllegalArgument?
    && exists j :: FirstLiveDuplicate(options, j) && r.error.option == options[j]
  }

  /** The option map of accepted options, for the public entry points below. */
  function AcceptedMap(options: seq<BigQueryOption>): (m: RpcOptionMap)
    requires NoLiveDuplicate(options)
    ensures OptionMapOf(options) == Success(m)
  {
    OptionMapOfAccepts(options);
    OptionMapOf(options).value
  }

  /** listDatasets(projectId, options...): build the option map, then list. */
  function ListDatasetsWithOptions(serviceOptions: BigQueryOptions, projectId: string, options: seq<BigQueryOption>)
    : (r: Result<Page<Dataset, DatasetPageFetcher>, Failure>)
    ensures !NoLiveDuplicate(options) ==> RejectedBeforeCall(options, r)
    ensures NoLiveDuplicate(options) ==> r == ListDatasets(projectId, serviceOptions, AcceptedMap(options))
  {
    OptionMapOfAccepts(options);
    match OptionMapOf(options)
    case Failure(duplicate) => OptionMapOfRejects(options); Failure(IllegalArgument(duplicate))
    case Success(optionMap) => ListDatasets(projectId, serviceOptions, optionMap)
  }

  /** listTables(datasetId, options...): complete the dataset id, build the option map, then list. */
  function ListTablesWithOptions(serviceOptions: BigQueryOptions, datasetId: DatasetId, options: seq<BigQueryOption>)
    : (r: Result<Page<Table, TablePageFetcher>, Failure>)
    ensures !NoLiveDuplicate(options) ==> RejectedBeforeCall(options, r)
    ensures NoLiveDuplicate(options) ==>
              r == ListTables(datasetId.SetProjectId(serviceOptions.projectId), serviceOptions, AcceptedMap(options))
  {
    var completeDatasetId := datasetId.SetProjectId(serviceOptions.projectId);
    OptionMapOfAccepts(options);
    match OptionMapOf(options)
    case Failure(duplicate) => OptionMapOfRejects(options); Failure(IllegalArgument(duplicate))
    case Success(optionMap) => ListTables(completeDatasetId, serviceOptions, optionMap)
  }

  /** listTableData(tableId, options...): build the option map, then list (completion happens inside). */
  function ListTableDataWithOptions(serviceOptions: BigQueryOptions, tableId: TableId, options: seq<BigQueryOption>)
    : (r: Result<Page<FieldValueList, TableDataPageFetcher>, Failure>)
    ensures !NoLiveDuplicate(options) ==> RejectedBeforeCall(options, r)
    ensures NoLiveDuplicate(options) ==> r == ListTableData(tableId, serviceOptions, AcceptedMap(options))
  {
    OptionMapOfAccepts(options);
    match OptionMapOf(options)
    case Failure(duplicate) => OptionMapOfRejects(options); Failure(IllegalArgument(duplicate))
    case Success(optionMap) => ListTableData(tableId, serviceOptions, optionMap)
  }

  /** listJobs(options...): build the option map, then list. */
  function ListJobsWithOptions(serviceOptions: BigQueryOptions, options: seq<BigQueryOption>)
    : (r: Result<Page<Job, JobPageFetcher>, Failure>)
    ensures !NoLiveDuplicate(options) ==> RejectedBeforeCall(options, r)
    ensures NoLiveDuplicate(options) ==> r == ListJobs(serviceOptions, AcceptedMap(options))
  {
    OptionMapOfAccepts(options);
    match OptionMapOf(options)
    case Failure(duplicate) => OptionMapOfRejects(options); Failure(IllegalArgument(duplicate))
    case Success(optionMap) => ListJobs(serviceOptions, optionMap)
  }
}
