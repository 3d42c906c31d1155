/**
 * What BigQueryImpl consumes but does not implement: the remote transport (BigQueryRpc),
 * the conversions between wire and domain values (the fromPb functions), the identity
 * completion of resource ids, and the retry executor (RetryHelper.runWithRetries) with
 * the translation of its failure into a BigQueryException.
 */
module Gateway {
  import opened Wrappers
  import opened RpcOptions

  // Wire values of the transport (com.google.api.services.bigquery.model), kept abstract.
  type DatasetPb
  type TablePb
  type JobPb
  type TableRow
  type TableSchema
  type JobReference
  type ErrorProto
  type InsertAllResponsePb
  /** The JSON content of a row (Map<String, Object>). */
  type Json

  // Domain values built from the wire values by code that is not part of this model.
  type Dataset
  type Table
  type Job
  type FieldValueList
  type FieldList
  type BigQueryError
  type InsertAllResponse

  /** The exception the transport throws for a failed call. */
  type RpcError

  /** A table schema; only its field list is used here (Schema.getFields). */
  datatype Schema = Schema(fields: FieldList)

  /** Dataset identity; a null project is completed with the service's default project. */
  datatype DatasetId = DatasetId(project: Option<string>, dataset: string)
  {
    /**
     * DatasetId.setProjectId, which is not part of this model: its assumed behaviour is
     * to keep an id that names a project and otherwise to fill in the one given.
     */
    function SetProjectId(projectId: string): (r: DatasetId)
      ensures r.project.Some? && r.dataset == dataset
      ensures project.Some? ==> r == this
      ensures project.None? ==> r.project == Some(projectId)
    {
      if project.Some? then this else DatasetId(Some(projectId), dataset)
    }
  }

  /** Table identity, completed in the same way as DatasetId. */
  datatype TableId = TableId(project: Option<string>, dataset: string, table: string)
  {
    /** TableId.setProjectId, assumed to behave as DatasetId.SetProjectId does. */
    function SetProjectId(projectId: string): (r: TableId)
      ensures r.project.Some? && r.dataset == dataset && r.table == table
      ensures project.Some? ==> r == this
      ensures project.None? ==> r.project == Some(projectId)
    {
      if project.Some? then this else TableId(Some(projectId), dataset, table)
    }
  }

  /** Job identity, completed in the same way as DatasetId. */
  datatype JobId = JobId(project: Option<string>, job: string)
  {
    /** JobId.setProjectId, assumed to behave as DatasetId.SetProjectId does. */
    function SetProjectId(projectId: string): (r: JobId)
      ensures r.project.Some? && r.job == job
      ensures project.Some? ==> r == this
      ensures project.None? ==> r.project == Some(projectId)
    {
      if project.Some? then this else JobId(Some(projectId), job)
    }
  }

  /** com.google.cloud.Tuple: what a list call returns, x the cursor and y the batch. */
  datatype Tuple<X, Y> = Tuple(x: X, y: Y)

  /** The wire form of a getQueryResults answer; each None is a field the answer left null. */
  datatype GetQueryResultsResponse = GetQueryResultsResponse(
    jobReference: JobReference,
    numDmlAffectedRows: Option<int>,
    etag: Option<string>,
    jobComplete: bool,
    rows: Option<seq<TableRow>>,
    schema: Option<TableSchema>,
    pageToken: Option<string>,
    totalBytesProcessed: Option<int>,
    cacheHit: Option<bool>,
    totalRows: Option<int>,
    errors: Option<seq<ErrorProto>>)

  /** One wire row of an insertAll request (TableDataInsertAllRequest.Rows). */
  datatype Rows = Rows(insertId: Option<string>, json: Json)

  /** The wire form of an insertAll request; a fresh one has every field null. */
  datatype TableDataInsertAllRequest = TableDataInsertAllRequest(
    ignoreUnknownValues: Option<bool>,
    skipInvalidRows: Option<bool>,
    templateSuffix: Option<string>,
    rows: Option<seq<Rows>>)

  /**
   * The transport, as an abstract gateway: each field is the remote call of that name,
   * a function of the identity it is given and the option map. A result is the outcome
   * of one call; a failure is the exception the call throws.
   */
  datatype BigQueryRpc = BigQueryRpc(
    listDatasets: (string, RpcOptionMap) -> Result<Tuple<Option<string>, seq<DatasetPb>>, RpcError>,
    listTables: (DatasetId, RpcOptionMap) -> Result<Tuple<Option<string>, seq<TablePb>>, RpcError>,
    listTableData: (TableId, RpcOptionMap) -> Result<Tuple<Option<string>, Option<seq<TableRow>>>, RpcError>,
    listJobs: (string, RpcOptionMap) -> Result<Tuple<Option<string>, seq<JobPb>>, RpcError>,
    getQueryResults: (JobId, RpcOptionMap) -> Result<GetQueryResultsResponse, RpcError>,
    insertAll: (TableId, TableDataInsertAllRequest) -> Result<InsertAllResponsePb, RpcError>)

  /** The foreign conversions from wire values (Dataset.fromPb, FieldValueList.fromPb, ...). */
  datatype Conversions = Conversions(
    datasetFromPb: DatasetPb -> Dataset,
    tableFromPb: TablePb -> Table,
    jobFromPb: JobPb -> Job,
    fieldValueListFromPb: (TableRow, Option<FieldList>) -> FieldValueList,
    schemaFromPb: TableSchema -> Schema,
    jobIdFromPb: JobReference -> JobId,
    errorFromPb: ErrorProto -> BigQueryError,
    insertAllResponseFromPb: InsertAllResponsePb -> InsertAllResponse)

  /** BigQueryOptions: the default project, the transport and the conversions it supplies. */
  datatype BigQueryOptions = BigQueryOptions(projectId: string, rpc: BigQueryRpc, conversions: Conversions)

  /** How an operation of BigQueryImpl fails. */
  datatype Failure =
    | /** IllegalArgumentException from optionMap's duplicate check. */
      IllegalArgument(option: BigQueryOption)
    | /** RetryHelper.RetryHelperException, as runWithRetries throws it. */
      RetryHelperFailure(cause: RpcError)
    | /** BigQueryException, thrown by the transport or by translateAndThrow. */
      BigQueryFailure(cause: RpcError)

  /**
   * runWithRetries, as an opaque wrapper: it returns the call's value or fails with a
   * RetryHelperException that carries the call's error. Attempts and backoff are not
   * modelled; the gateway's result stands for the outcome of the whole retried call.
   */
  function RunWithRetries<T>(call: Result<T, RpcError>): (r: Result<T, Failure>)
    ensures r.Success? <==> call.Success?
    ensures call.Success? ==> r.value == call.value
    ensures call.Failure? ==> r.error == RetryHelperFailure(call.error)
  {
    match call
    case Success(v) => Success(v)
    case Failure(e) => Failure(RetryHelperFailure(e))
  }

  /** The catch blocks around runWithRetries: BigQueryException.translateAndThrow. */
  function TranslateAndThrow<T>(r: Result<T, Failure>): (t: Result<T, Failure>)
    ensures t.Success? <==> r.Success?
    ensures r.Success? ==> t.value == r.value
    ensures r.Failure? && r.error.RetryHelperFailure? ==> t.error == BigQueryFailure(r.error.cause)
    ensures r.Failure? && !r.error.RetryHelperFailure? ==> t.error == r.error
  {
    match r
    case Failure(RetryHelperFailure(cause)) => Failure(BigQueryFailure(cause))
    case _ => r
  }

  /** Iterables.transform and Lists.transform, taken eagerly: f applied to each element in order. */
  function MapSeq<A, B>(f: A -> B, s: seq<A>): (r: seq<B>)
    ensures |r| == |s|
    ensures forall i :: 0 <= i < |s| ==> r[i] == f(s[i])
  {
    if s == [] then [] else [f(s[0])] + MapSeq(f, s[1..])
  }
}
