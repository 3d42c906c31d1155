/**
 * getQueryResults: one retried call for the state and first rows of a query job, and
 * the assembly of its answer into a QueryResponse whose result (present only once the
 * job is complete) is a page of rows with a fetcher for the following pages.
 */
module QueryResults {
  import opened Wrappers
  import opened RpcOptions
  import opened Gateway
  import opened Listing

  const TwoTo63: int := 0x8000_0000_0000_0000
  const TwoTo64: int := 0x1_0000_0000_0000_0000

  /** BigInteger.longValue: the low 64 bits of n, read as a signed two's-complement long. */
  function LongValueOf(n: int): (v: int)
    ensures -TwoTo63 <= v < TwoTo63
    ensures v % TwoTo64 == n % TwoTo64
    ensures -TwoTo63 <= n < TwoTo63 ==> v == n
  {
    var low := n % TwoTo64;
    if low < TwoTo63 then low else low - TwoTo64
  }

  /** QueryResultsPageFetcherImpl: the job, the service and the options of the next request. */
  datatype QueryResultsPageFetcher = QueryResultsPageFetcher(
    job: JobId, serviceOptions: BigQueryOptions, requestOptions: RpcOptionMap)
  {
    /** getNextPage: getQueryResults again on the captured job and options, and its result. */
    function GetNextPage(): Result<Option<QueryResult>, Failure>
    {
      match QueryResponseOf(job, serviceOptions, requestOptions)
      case Failure(e) => Failure(e)
      case Success(response) => Success(response.result)
    }
  }

  /** The QueryResultsPageFetcherImpl constructor. */
  function NewQueryResultsPageFetcher(job: JobId, serviceOptions: BigQueryOptions,
                                      cursor: Option<string>, optionMap: RpcOptionMap): (f: QueryResultsPageFetcher)
    ensures f.job == job && f.serviceOptions == serviceOptions
    ensures ThreadsCursor(f.requestOptions, optionMap, cursor)
  {
    QueryResultsPageFetcher(job, serviceOptions, NextRequestOptions(cursor, optionMap))
  }

  /** QueryResult: a page of rows with its schema and the statistics the answer carried. */
  datatype QueryResult = QueryResult(
    pageFetcher: QueryResultsPageFetcher,
    cursor: Option<string>,
    schema: Option<Schema>,
    results: seq<FieldValueList>,
    totalBytesProcessed: Option<int>,
    cacheHit: Option<bool>,
    totalRows: Option<int>)

  /** QueryResponse; each None is a builder field that was never set. */
  datatype QueryResponse = QueryResponse(
    jobId: JobId,
    numDmlAffectedRows: Option<int>,
    etag: Option<string>,
    jobCompleted: bool,
    result: Option<QueryResult>,
    executionErrors: Option<seq<BigQueryError>>)

  /**
   * transformQueryResults: a QueryResult builder with the fetcher, the cursor, the
   * decoded schema and the rows decoded with it; no statistic is set yet.
   */
  function TransformQueryResults(jobId: JobId, rowsPb: Option<seq<TableRow>>, schemaPb: Option<TableSchema>,
                                 cursor: Option<string>, serviceOptions: BigQueryOptions,
                                 optionsMap: RpcOptionMap): (b: QueryResult)
    ensures b.pageFetcher.job == jobId && b.pageFetcher.serviceOptions == serviceOptions
    ensures ThreadsCursor(b.pageFetcher.requestOptions, optionsMap, cursor)
    ensures b.cursor == cursor
    ensures b.schema.Some? <==> schemaPb.Some?
    ensures schemaPb.Some? ==> b.schema.value == serviceOptions.conversions.schemaFromPb(schemaPb.value)
    ensures b.results == TransformTableData(serviceOptions.conversions.fieldValueListFromPb, rowsPb, b.schema)
    ensures b.totalBytesProcessed.None? && b.cacheHit.None? && b.totalRows.None?
  {
    var nextPageFetcher := NewQueryResultsPageFetcher(jobId, serviceOptions, cursor, optionsMap);
    var schema := if schemaPb.Some? then Some(serviceOptions.conversions.schemaFromPb(schemaPb.value)) else None;
    QueryResult(nextPageFetcher, cursor, schema,
                TransformTableData(serviceOptions.conversions.fieldValueListFromPb, rowsPb, schema),
                None, None, None)
  }

  /** results.getTotalRows().longValue(), when the answer has a row count. */
  function TotalRowsOf(totalRows: Option<int>): (r: Option<int>)
    ensures r.Some? <==> totalRows.Some?
    ensures r.Some? ==> -TwoTo63 <= r.value < TwoTo63 && r.value % TwoTo64 == totalRows.value % TwoTo64
    ensures r.Some? && -TwoTo63 <= totalRows.value < TwoTo63 ==> r.value == totalRows.value
  {
    match totalRows
    case None => None
    case Some(n) => Some(LongValueOf(n))
  }

  /**
   * The answer of a completed call, put into a QueryResponse as getQueryResults does: the
   * specification that GetQueryResults is proved against.
   */
  function AssembleQueryResponse(completeJobId: JobId, results: GetQueryResultsResponse,
                                 serviceOptions: BigQueryOptions): (r: QueryResponse)
    ensures r.jobId == serviceOptions.conversions.jobIdFromPb(results.jobReference)
    ensures r.numDmlAffectedRows == results.numDmlAffectedRows && r.etag == results.etag
    ensures r.jobCompleted == results.jobComplete
    ensures r.result.Some? <==> results.jobComplete
    ensures r.result.Some? ==>
              var result := r.result.value;
              && result.cursor == results.pageToken
              && result.pageFetcher.job == completeJobId
              && result.pageFetcher.serviceOptions == serviceOptions
              && ThreadsCursor(result.pageFetcher.requestOptions, map[], results.pageToken)
              && (result.schema.Some? <==> results.schema.Some?)
              && (results.schema.Some? ==> result.schema.value == serviceOptions.conversions.schemaFromPb(results.schema.value))
              && result.results ==
                 TransformTableData(serviceOptions.conversions.fieldValueListFromPb, results.rows, result.schema)
              && result.totalBytesProcessed == results.totalBytesProcessed
              && result.cacheHit == results.cacheHit
              && (results.totalRows.Some? <==> result.totalRows.Some?)
              && (results.totalRows.Some? ==> result.totalRows.value == LongValueOf(results.totalRows.value))
    ensures r.executionErrors.Some? <==> results.errors.Some?
    ensures results.errors.Some? ==>
              && |r.executionErrors.value| == |results.errors.value|
              && forall i :: 0 <= i < |results.errors.value| ==>
                   r.executionErrors.value[i] == serviceOptions.conversions.errorFromPb(results.errors.value[i])
  {
    var conversions := serviceOptions.conversions;
    var result :=
      if results.jobComplete then
        var builder := TransformQueryResults(completeJobId, results.rows, results.schema, results.pageToken,
                                             serviceOptions, map[]);
        Some(builder.(totalBytesProcessed := results.totalBytesProcessed,
                      cacheHit := results.cacheHit,
                      totalRows := TotalRowsOf(results.totalRows)))
      else None;
    var errors := if results.errors.Some? then Some(MapSeq(conversions.errorFromPb, results.errors.value)) else None;
    QueryResponse(conversions.jobIdFromPb(results.jobReference), results.numDmlAffectedRows, results.etag,
                  results.jobComplete, result, errors)
  }

  /**
   * The static getQueryResults as a value: the job id is completed with the default
   * project, the call is retried and its failure translated into a BigQueryException.
   */
  function QueryResponseOf(jobId: JobId, serviceOptions: BigQueryOptions, optionsMap: RpcOptionMap)
    : (r: Result<QueryResponse, Failure>)
    ensures var completeJobId := jobId.SetProjectId(serviceOptions.projectId);
      var call := serviceOptions.rpc.getQueryResults(completeJobId, optionsMap);
      && (r.Success? <==> call.Success?)
      && (call.Failure? ==> r.error == BigQueryFailure(call.error))
      && (call.Success? ==> r.value == AssembleQueryResponse(completeJobId, call.value, serviceOptions))
  {
    var completeJobId := jobId.SetProjectId(serviceOptions.projectId);
    match TranslateAndThrow(RunWithRetries(serviceOptions.rpc.getQueryResults(completeJobId, optionsMap)))
    case Failure(e) => Failure(e)
    case Success(results) => Success(AssembleQueryResponse(completeJobId, results, serviceOptions))
  }

  /**
   * The static getQueryResults, filling a QueryResponse builder and a QueryResult builder
   * step by step with the setters the answer calls for.
   */
  method GetQueryResults(jobId: JobId, serviceOptions: BigQueryOptions, optionsMap: RpcOptionMap)
    returns (r: Result<QueryResponse, Failure>)
    ensures r == QueryResponseOf(jobId, serviceOptions, optionsMap)
  {
    var completeJobId := jobId.SetProjectId(serviceOptions.projectId);
    var answer := TranslateAndThrow(RunWithRetries(serviceOptions.rpc.getQueryResults(completeJobId, optionsMap)));
    if answer.Failure? {
      return Failure(answer.error);
    }
    var results := answer.value;
    var conversions := serviceOptions.conversions;
    var builder := QueryResponse(conversions.jobIdFromPb(results.jobReference), None, None, false, None, None);
    builder := builder.(numDmlAffectedRows := results.numDmlAffectedRows);
    builder := builder.(etag := results.etag);
    builder := builder.(jobCompleted := results.jobComplete);
    var rowsPb := results.rows;
    if results.jobComplete {
      var resultBuilder := TransformQueryResults(completeJobId, rowsPb, results.schema, results.pageToken,
                                                 serviceOptions, map[]);
      if results.totalBytesProcessed.Some? {
        resultBuilder := resultBuilder.(totalBytesProcessed := results.totalBytesProcessed);
      }
      if results.cacheHit.Some? {
        resultBuilder := resultBuilder.(cacheHit := results.cacheHit);
      }
      if results.totalRows.Some? {
        resultBuilder := resultBuilder.(totalRows := Some(LongValueOf(results.totalRows.value)));
      }
      builder := builder.(result := Some(resultBuilder));
    }
    if results.errors.Some? {
      builder := builder.(executionErrors := Some(MapSeq(conversions.errorFromPb, results.errors.value)));
    }
    return Success(builder);
  }

  /**
   * The fetcher of a query result asks for the next page with getQueryResults on the
   * same completed job id and with the page token as its only option: the options of the
   * first request are not carried over.
   */
  lemma QueryResultsNextPage(jobId: JobId, serviceOptions: BigQueryOptions, optionsMap: RpcOptionMap,
                             response: QueryResponse)
    requires QueryResponseOf(jobId, serviceOptions, optionsMap) == Success(response)
    requires response.result.Some?
    ensures var completeJobId := jobId.SetProjectId(serviceOptions.projectId);
      var cursor := response.result.value.cursor;
      var call := serviceOptions.rpc.getQueryResults(completeJobId, NextRequestOptions(cursor, map[]));
      && response.result.value.pageFetcher.GetNextPage() ==
         (match call
          case Failure(e) => Failure(BigQueryFailure(e))
          case Success(next) => Success(AssembleQueryResponse(completeJobId, next, serviceOptions).result))
      && (forall k :: k in response.result.value.pageFetcher.requestOptions ==> k == PageToken)
  {
    var fetcher := response.result.value.pageFetcher;
    var cursor := response.result.value.cursor;
    ThreadsCursorUnique(fetcher.requestOptions, NextRequestOptions(cursor, map[]), map[], cursor);
    assert fetcher.job.SetProjectId(serviceOptions.projectId) == fetcher.job;
  }

  /** getQueryResults(jobId, options...): build the option map, then call. */
  function GetQueryResultsWithOptions(serviceOptions: BigQueryOptions, jobId: JobId, options: seq<BigQueryOption>)
    : (r: Result<QueryResponse, Failure>)
    ensures !NoLiveDuplicate(options) ==> RejectedBeforeCall(options, r)
    ensures NoLiveDuplicate(options) ==> r == QueryResponseOf(jobId, serviceOptions, AcceptedMap(options))
  {
    OptionMapOfAccepts(options);
    match OptionMapOf(options)
    case Failure(duplicate) => OptionMapOfRejects(options); Failure(IllegalArgument(duplicate))
    case Success(optionMap) => QueryResponseOf(jobId, serviceOptions, optionMap)
  }
}
