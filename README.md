# BigQueryImpl: option maps, pages and cursors, query results, streaming insert

A Dafny model of the logic inside `BigQueryImpl`, the client-side implementation of the
BigQuery service interface. Most of that class is glue around a remote transport
(`BigQueryRpc`) and a retry helper; this model keeps the parts that decide anything:

- **Option map builder** (`RpcOptions`): `optionMap` folds the caller's typed options into
  an enum-keyed map and fails with an illegal-argument error on a duplicate. It is a
  method with a loop, proved equal to a left fold (`OptionMapOf`). Lemmas then say exactly
  when the fold succeeds, which map it builds and which option it reports on failure.
- **Pages and cursor threading** (`Listing`): `listDatasets`, `listTables`,
  `listTableData` and `listJobs`, and their page fetchers. Each list call returns a page
  with the transport's cursor, the batch mapped element by element, and a fetcher. The
  fetcher keeps the same identity and service, and the options with `PAGE_TOKEN` bound to
  the cursor. Its `GetNextPage` makes the same list call again from that captured state.
- **Row transformation** (`Listing.TransformTableData`): a null row list gives no rows;
  otherwise the rows are mapped one to one, in order.
- **Query results** (`QueryResults`): `getQueryResults` fills its builders step by step.
  It is a method, proved equal to a functional assembly of the answer. A result exists
  exactly when the job is complete. Statistics are copied only when present. The
  next-page fetcher uses the completed job id and only the page token.
- **Streaming insert** (`StreamingInsert`): `insertAll` builds one wire row per input
  row and copies the three flags. It makes one direct transport call, outside the retry
  wrapper.

The transport is an abstract gateway: a record of function values, one per remote call
(`Gateway.BigQueryRpc`), from (identity, option map) to a result, or to a
`(cursor, batch)` pair for list calls. The `fromPb` conversions are abstract element maps
(`Gateway.Conversions`). Wire and domain types are abstract types. `runWithRetries` is an
opaque wrapper (`Gateway.RunWithRetries`): it returns the call's value or fails with a
retry exception carrying the call's error.

Three helpers defined outside `BigQueryImpl.java` are written as stated assumptions, not
verified against their code:
- `BigQueryException.translateAndThrow` (`Gateway.TranslateAndThrow`): a retry exception
  becomes a `BigQueryException` with the same cause; anything else passes unchanged.
- `PageImpl.nextRequestOptions` (`RpcOptions.NextRequestOptions`): drop any old
  `PAGE_TOKEN`, then put the cursor if it is not null.
- `setProjectId` on `DatasetId`, `TableId` and `JobId`: keep a project that is given,
  otherwise fill in the service's default project.

## Where the code does something a reader might not expect

The model follows the code in each case.

- A reader might expect every repeated option to be rejected. The code tests only the
  value that `EnumMap.put` returns. So an option whose key was set before to null is not
  reported, and its value replaces the null (`RpcOptions.NullDuplicateKept`).
  `RpcOptions.OptionMapOfAccepts` states the exact acceptance condition.
- A reader might expect every remote call to be retried and every failure to become a
  `BigQueryException`. In the code:
  - `listJobs` has no catch block, so its retry exception escapes untranslated
    (`Listing.ListJobs`).
  - `insertAll` calls the transport directly and is not retried at all
    (`StreamingInsert.InsertAll`, whose body has no `RunWithRetries`).
- A reader might expect a page fetcher to keep the caller's options, as the list
  fetchers do. The query-results fetcher starts from an empty map instead, so the next
  page is fetched with the page token as its only option
  (`QueryResults.QueryResultsNextPage`).

## Model

| member | source | states |
|---|---|---|
| `RpcOptions.OptionMap` | google-cloud-bigquery/src/main/java/com/google/cloud/bigquery/BigQueryImpl.java:655-662 | the loop that puts each option into one map and stops at the first non-null previous value computes exactly the left fold `OptionMapOf` |
| `RpcOptions.OptionMapOfAccepts` | google-cloud-bigquery/src/main/java/com/google/cloud/bigquery/BigQueryImpl.java:655-661 | the fold succeeds iff no option repeats a key already set to a non-null value; the map then has one entry per key the options set, holding the last such option's value; zero options give the empty map |
| `RpcOptions.OptionMapOfRejects` | google-cloud-bigquery/src/main/java/com/google/cloud/bigquery/BigQueryImpl.java:658-659 | on failure the reported option is the first one that repeats a key set before to a non-null value |
| `RpcOptions.DistinctKindsAccepted` | google-cloud-bigquery/src/main/java/com/google/cloud/bigquery/BigQueryImpl.java:655-661 | options with pairwise different keys are all accepted; each key maps to its option's value; the map has no more entries than there are options |
| `RpcOptions.NullDuplicateKept` | google-cloud-bigquery/src/main/java/com/google/cloud/bigquery/BigQueryImpl.java:658-659 | a key set to null and then set again is not reported as a duplicate; the later value is kept |
| `RpcOptions.NextRequestOptions` | google-cloud-bigquery/src/main/java/com/google/cloud/bigquery/BigQueryImpl.java:59-60 | (assumed behaviour) the next request's options keep every non-token option unchanged; `PAGE_TOKEN` is present iff the cursor is non-null, and then it is the cursor |
| `RpcOptions.ThreadingForgetsEarlierCursor` | google-cloud-bigquery/src/main/java/com/google/cloud/bigquery/BigQueryImpl.java:56-67 | threading a second cursor over options that already carry a first one gives the original options with the second cursor |
| `Gateway.DatasetId.SetProjectId` | google-cloud-bigquery/src/main/java/com/google/cloud/bigquery/BigQueryImpl.java:392-396 | (assumed behaviour) the completed id always has a project and keeps the dataset name; a given project is kept (the id is unchanged), a missing one becomes the service's default project |
| `Gateway.TableId.SetProjectId` | google-cloud-bigquery/src/main/java/com/google/cloud/bigquery/BigQueryImpl.java:456-460 | (assumed behaviour) the completed id always has a project and keeps dataset and table; a given project is kept unchanged, a missing one becomes the default project |
| `Gateway.JobId.SetProjectId` | google-cloud-bigquery/src/main/java/com/google/cloud/bigquery/BigQueryImpl.java:588-590 | (assumed behaviour) the completed id always has a project and keeps the job name; a given project is kept unchanged, a missing one becomes the default project |
| `Gateway.RunWithRetries` | google-cloud-bigquery/src/main/java/com/google/cloud/bigquery/BigQueryImpl.java:254-265 | (opaque wrapper) succeeds iff the call does, with its value; otherwise fails with a retry exception carrying the call's error |
| `Gateway.TranslateAndThrow` | google-cloud-bigquery/src/main/java/com/google/cloud/bigquery/BigQueryImpl.java:278-280 | a retry exception becomes a BigQueryException with the same cause; a value or any other failure passes unchanged |
| `Gateway.MapSeq` | google-cloud-bigquery/src/main/java/com/google/cloud/bigquery/BigQueryImpl.java:270-277 | the transform has the input's length, and its i-th element is the function applied to the input's i-th element |
| `Listing.NewDatasetPageFetcher` | google-cloud-bigquery/src/main/java/com/google/cloud/bigquery/BigQueryImpl.java:56-62 | the fetcher keeps project and service; its options are the given ones with the page token bound to the cursor |
| `Listing.ListDatasets` | google-cloud-bigquery/src/main/java/com/google/cloud/bigquery/BigQueryImpl.java:248-281 | succeeds iff the transport call does; on failure gives a BigQueryException with the call's error; a page carries the call's cursor verbatim, the batch mapped one to one in order, and a fetcher on the same project and service with the options re-threaded on that cursor |
| `Listing.DatasetCursorThreading` | google-cloud-bigquery/src/main/java/com/google/cloud/bigquery/BigQueryImpl.java:64-67 | the next page is the same list call on the same project with the original options and the page's cursor; the page after it has a fetcher built from the original options and its own cursor |
| `Listing.NewTablePageFetcher` | google-cloud-bigquery/src/main/java/com/google/cloud/bigquery/BigQueryImpl.java:77-83 | the fetcher keeps dataset id and service; its options are re-threaded on the cursor |
| `Listing.ListTables` | google-cloud-bigquery/src/main/java/com/google/cloud/bigquery/BigQueryImpl.java:398-424 | as for datasets: outcome mirrors the call, failure translated, cursor verbatim, tables mapped one to one, fetcher on the same dataset id |
| `Listing.TableCursorThreading` | google-cloud-bigquery/src/main/java/com/google/cloud/bigquery/BigQueryImpl.java:85-88 | the next page re-issues listTables on the same dataset with the original options and the latest cursor |
| `Listing.SchemaFields` | google-cloud-bigquery/src/main/java/com/google/cloud/bigquery/BigQueryImpl.java:479 | the field list is present iff the schema is, and is then the schema's own fields |
| `Listing.TransformTableData` | google-cloud-bigquery/src/main/java/com/google/cloud/bigquery/BigQueryImpl.java:477-488 | a null row list gives the empty list; otherwise one FieldValueList per row, in order, each decoded with the schema's fields (null when the schema is null) |
| `Listing.NewTableDataPageFetcher` | google-cloud-bigquery/src/main/java/com/google/cloud/bigquery/BigQueryImpl.java:117-123 | the fetcher keeps table id and service; its options are re-threaded on the cursor |
| `Listing.ListTableData` | google-cloud-bigquery/src/main/java/com/google/cloud/bigquery/BigQueryImpl.java:456-475 | the call goes to the table id completed with the default project; failure translated; the page has the call's cursor, the rows transformed without a schema, and a fetcher on the table id as given |
| `Listing.TableDataCursorThreading` | google-cloud-bigquery/src/main/java/com/google/cloud/bigquery/BigQueryImpl.java:125-128 | the next page re-issues listTableData with the original options and the latest cursor, to the same completed table id |
| `Listing.NewJobPageFetcher` | google-cloud-bigquery/src/main/java/com/google/cloud/bigquery/BigQueryImpl.java:97-102 | the fetcher keeps the service; its options are re-threaded on the cursor |
| `Listing.ListJobs` | google-cloud-bigquery/src/main/java/com/google/cloud/bigquery/BigQueryImpl.java:519-539 | the call goes to the service's project; on failure the retry exception itself escapes, untranslated; a page carries the cursor verbatim and the jobs mapped one to one |
| `Listing.JobCursorThreading` | google-cloud-bigquery/src/main/java/com/google/cloud/bigquery/BigQueryImpl.java:104-107 | the next page re-issues listJobs with the original options and the latest cursor |
| `Listing.ListDatasetsWithOptions` | google-cloud-bigquery/src/main/java/com/google/cloud/bigquery/BigQueryImpl.java:243-246 | if an option repeats a live key, the result is an illegal-argument failure naming the first such option, whatever the transport would answer; otherwise it is the list call with the built map |
| `Listing.ListTablesWithOptions` | google-cloud-bigquery/src/main/java/com/google/cloud/bigquery/BigQueryImpl.java:392-396 | duplicate options are rejected before any call; otherwise listTables on the dataset id completed with the default project |
| `Listing.ListTableDataWithOptions` | google-cloud-bigquery/src/main/java/com/google/cloud/bigquery/BigQueryImpl.java:451-454 | duplicate options are rejected before any call; otherwise listTableData with the built map |
| `Listing.ListJobsWithOptions` | google-cloud-bigquery/src/main/java/com/google/cloud/bigquery/BigQueryImpl.java:514-517 | duplicate options are rejected before any call; otherwise listJobs with the built map |
| `QueryResults.TotalRowsOf` | google-cloud-bigquery/src/main/java/com/google/cloud/bigquery/BigQueryImpl.java:621-623 | a row count is present iff the answer has one; it is then a signed 64-bit value congruent to the answer's count modulo 2^64, equal to it when it fits |
| `QueryResults.LongValueOf` | google-cloud-bigquery/src/main/java/com/google/cloud/bigquery/BigQueryImpl.java:621-623 | `BigInteger.longValue`: a signed 64-bit value congruent to the total row count modulo 2^64, equal to it when it fits |
| `QueryResults.NewQueryResultsPageFetcher` | google-cloud-bigquery/src/main/java/com/google/cloud/bigquery/BigQueryImpl.java:139-145 | the fetcher keeps job id and service; its options are re-threaded on the cursor |
| `QueryResults.TransformQueryResults` | google-cloud-bigquery/src/main/java/com/google/cloud/bigquery/BigQueryImpl.java:636-647 | the builder has a fetcher on the given job, the cursor, the schema decoded iff present, the rows decoded with that schema, and no statistics yet |
| `QueryResults.AssembleQueryResponse` | google-cloud-bigquery/src/main/java/com/google/cloud/bigquery/BigQueryImpl.java:600-630 | the response's completion flag is the answer's; a result is present iff the job is complete; it has the page token as cursor, a fetcher on the completed job whose only option is that token, the schema decoded from the answer's schema iff the answer has one, and the rows decoded with that schema; bytes processed and cache hit are copied exactly when present, total rows as `longValue`; execution errors are mapped one to one iff present |
| `QueryResults.QueryResponseOf` | google-cloud-bigquery/src/main/java/com/google/cloud/bigquery/BigQueryImpl.java:588-634 | the call goes to the job id completed with the default project; succeeds iff the call does, with the assembled response; otherwise gives a BigQueryException with the call's error |
| `QueryResults.GetQueryResults` | google-cloud-bigquery/src/main/java/com/google/cloud/bigquery/BigQueryImpl.java:588-634 | filling the builders step by step with the conditional setters gives exactly `QueryResponseOf` |
| `QueryResults.QueryResultsNextPage` | google-cloud-bigquery/src/main/java/com/google/cloud/bigquery/BigQueryImpl.java:147-150 | a result's next page is getQueryResults on the same completed job with the page token as the only option (the first request's options are dropped), translated the same way, and its result |
| `QueryResults.GetQueryResultsWithOptions` | google-cloud-bigquery/src/main/java/com/google/cloud/bigquery/BigQueryImpl.java:582-586 | duplicate options are rejected before any call; otherwise the response for the built map |
| `StreamingInsert.WireRows` | google-cloud-bigquery/src/main/java/com/google/cloud/bigquery/BigQueryImpl.java:433-438 | one wire row per input row, in order, with the same insert id and JSON content |
| `StreamingInsert.WireRequest` | google-cloud-bigquery/src/main/java/com/google/cloud/bigquery/BigQueryImpl.java:429-439 | ignoreUnknownValues, skipInvalidRows and templateSuffix are copied; the rows are set, one per input row with the same id and content |
| `StreamingInsert.InsertAll` | google-cloud-bigquery/src/main/java/com/google/cloud/bigquery/BigQueryImpl.java:426-443 | the request sent is `WireRequest` to the table id completed with the default project; succeeds iff that call does, with the converted response; a failure is a BigQueryException with the call's error |

## Left out

- Retry and backoff: attempt counts, the backoff curve, the clock and the retryable/fatal
  classification of `EXCEPTION_HANDLER` belong to `RetryHelper`, which is not part of this
  model. `runWithRetries` is an opaque succeed-or-fail wrapper.
- StreamingInsert.InsertAll: the model cannot tell this call from a retried one. The
  gateway is a function with no attempt counter, and a retried call whose failure is
  translated has the same outcome. The missing retry shows only in the body, which does
  not call `RunWithRetries`.
- The remote service is modelled as a function. Two equal calls get equal answers. The
  real service may change between calls.
- `PageImpl` internals (iteration, `iterateAll`, returning no page after a null cursor)
  are not part of this model. `nextRequestOptions` is an assumed helper. So `GetNextPage`
  is modelled on the fetcher only.
- `query` (job creation and `Job.waitForQueryResults` polling) depends on `Job`,
  `RetryOption` and `QueryOption`, which are not part of this model.
- `create`, `getDataset`, `getTable`, `getJob`, `update`, `delete` and `cancel` are not
  modelled one by one. Each is one retried call whose failure is translated by its catch
  block. All but `delete(TableId)` and `cancel(JobId)` first build an option map. The get
  calls also return null when the answer is null, a step no modelled member has.
- Listing.ListDatasets, Listing.ListTables, Listing.ListJobs: the model assumes the
  transport never returns a null batch for these calls (their batches are typed `seq`).
  The code passes the batch straight to `Iterables.transform` or `Lists.transform`, so a
  null batch would throw a NullPointerException there. Only the rows of `listTableData`
  are guarded against null, and the model keeps that guard.
- The overloads that take String identifiers, or that use the default project, build the
  same identities as the modelled entry points. They are not modelled separately.
- `writer` (`TableDataWriteChannel`), streaming I/O, `serialVersionUID` and Java
  serialization of the fetchers.
- The `fromPb`/`toPb` conversions, `Schema`/`FieldValueList` decoding and
  `BigQueryError.FROM_PB_FUNCTION` are foreign code, modelled as abstract element maps.
  `setProjectId` is modelled by its assumed behaviour.
- `Iterables.transform` and `Lists.transform` are lazy views. They are modelled as eager
  sequence maps.
- A null `jobComplete` in a query answer makes the code fail when it unboxes the flag.
  That answer is not modelled: the flag is a `bool`. In the same way the model assumes
  every query answer carries a job reference (`jobReference` is not optional). The code
  passes it to `JobId.fromPb` without a null guard.
- Builder defaults are not known here. A field that `getQueryResults` never sets is
  `None` in the model, whatever default `QueryResponse.Builder` or `QueryResult.Builder`
  gives it.
- The `BigQueryRpc.Option` constants: `BigQueryRpc` is not part of this model. The
  enumeration is representative; only `PAGE_TOKEN` is treated specially here.
