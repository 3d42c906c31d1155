/**
 * insertAll: the streaming insert of rows into a table. The request is built field by
 * field and sent in a single transport call, outside the retry wrapper, so that the
 * caller decides per row what to retry from the errors in the answer.
 */
module StreamingInsert {
  import opened Wrappers
  import opened Gateway

  /** InsertAllRequest.RowToInsert: an optional insert id and the row's content. */
  datatype RowToInsert = RowToInsert(id: Option<string>, content: Json)

  /** InsertAllRequest: the target table, the rows and the request's flags. */
  datatype InsertAllRequest = InsertAllRequest(
    table: TableId,
    rows: seq<RowToInsert>,
    ignoreUnknownValues: Option<bool>,
    skipInvalidRows: Option<bool>,
    templateSuffix: Option<string>)

  /** The rows of the wire request: one per row, in order, with the same id and content. */
  function WireRows(rows: seq<RowToInsert>): (rowsPb: seq<Rows>)
    ensures |rowsPb| == |rows|
    ensures forall i :: 0 <= i < |rows| ==> rowsPb[i].insertId == rows[i].id && rowsPb[i].json == rows[i].content
  {
    MapSeq((rowToInsert: RowToInsert) => Rows(rowToInsert.id, rowToInsert.content), rows)
  }

  /** The wire request insertAll sends: the rows converted one to one and the three flags copied. */
  function WireRequest(request: InsertAllRequest): (requestPb: TableDataInsertAllRequest)
    ensures requestPb.ignoreUnknownValues == request.ignoreUnknownValues
    ensures requestPb.skipInvalidRows == request.skipInvalidRows
    ensures requestPb.templateSuffix == request.templateSuffix
    ensures requestPb.rows.Some?
    ensures |requestPb.rows.value| == |request.rows|
    ensures forall i :: 0 <= i < |request.rows| ==>
              requestPb.rows.value[i].insertId == request.rows[i].id &&
              requestPb.rows.value[i].json == request.rows[i].content
  {
    TableDataInsertAllRequest(request.ignoreUnknownValues, request.skipInvalidRows, request.templateSuffix,
                              Some(WireRows(request.rows)))
  }

  /**
   * insertAll: complete the table id, fill a fresh wire request through its setters and
   * send it with one direct transport call. A failure is the transport's own
   * BigQueryException; no RetryHelperException can arise, as nothing is retried.
   */
  method InsertAll(serviceOptions: BigQueryOptions, request: InsertAllRequest)
    returns (r: Result<InsertAllResponse, Failure>)
    ensures var call := serviceOptions.rpc.insertAll(request.table.SetProjectId(serviceOptions.projectId),
                                                     WireRequest(request));
      && (r.Success? <==> call.Success?)
      && (call.Success? ==> r.value == serviceOptions.conversions.insertAllResponseFromPb(call.value))
      && (call.Failure? ==> r.error == BigQueryFailure(call.error))
  {
    var tableId := request.table.SetProjectId(serviceOptions.projectId);
    var requestPb := TableDataInsertAllRequest(None, None, None, None);
    requestPb := requestPb.(ignoreUnknownValues := request.ignoreUnknownValues);
    requestPb := requestPb.(skipInvalidRows := request.skipInvalidRows);
    requestPb := requestPb.(templateSuffix := request.templateSuffix);
    var rowsPb := WireRows(request.rows);
    requestPb := requestPb.(rows := Some(rowsPb));
    var answer := serviceOptions.rpc.insertAll(tableId, requestPb);
    match answer
    case Success(responsePb) =>
      r := Success(serviceOptions.conversions.insertAllResponseFromPb(responsePb));
    case Failure(e) =>
      r := Failure(BigQueryFailure(e));
  }
}
