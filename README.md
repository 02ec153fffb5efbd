# socrata-ruby client core in Dafny

This project models the core of the Ruby client library for the Socrata open-data API:

- **Request batching** (`lib/socrata.rb`). A client is either in direct mode or in batching mode.
  - In direct mode each of `get_request`, `post_request`, `put_request` and `delete_request` sends its request and passes the answer through `check_error!`.
  - In batching mode each of them only appends a `{url, body, requestType}` record to the batch queue.
  - `batch_request` switches batching on, empties the queue, runs the caller's block, switches batching off and flushes the queue.
  - The flush sends one POST to `/batches` and checks the parsed reply entry by entry.
- **Views** (`lib/socrata/data.rb`):
  - metadata field access;
  - the row request paths;
  - the batch guards of the bulk uploads;
  - the reshaping of `rows.json` into one hash per row.
- **String and key utilities** (`lib/ext.rb`): `underscore`, `camelize`, `Util.symbolize_keys` and `Util.camelize_keys`.
- **The legacy `Dataset` handle** (`lib/socrata/dataset.rb`):
  - the four-four id test and the attach state;
  - the delayed row list;
  - the create and add-column payloads;
  - tag filtering of a user's views;
  - the link builders.

## Files

| file | module | contents |
|---|---|---|
| `ruby_value.dfy` | `RubyValue` | Ruby values and exceptions. A Hash is an ordered association list. Also `v['key']` dispatch, `to_s` as interpolation uses it, and ASCII character classes. |
| `http.dfy` | `Http` | Verbs, calls, and the `Transport` object with its ghost log of sent calls. |
| `socrata.dfy` | `Socrata` | The batching state machine as functions over `State`, their properties, and the `Session` class. The class's methods are proved equal to those functions. |
| `data.dfy` | `SocrataData` | `Data`/`View` as functions over the same `State`, the loops of `rows` as methods, and the `View` class. |
| `ext.dfy` | `Ext` | `underscore` and `camelize` as left-to-right regexp scans, `symbolize_keys` and `camelize_keys`. |
| `dataset.dfy` | `SocrataDataset` | `is_id`, payloads, the `find_sets` filters, link builders, and the `Dataset` class. |

## How the collaborators are modelled

- **The server.** A `Transport` holds a function `reply(n, call)`: the parsed JSON answer to the n-th call made. So every possible server behaviour is covered. Its ghost field `sent` logs every call in order. This makes "nothing is sent" and "exactly one POST to /batches" statable.
- **JSON encoding.** `to_json` is a given function `toJson: Value -> string`.
- **JSON parsing.** Parsing is folded into `reply`. The flush's `JSON.parse(result.body)` is the same parsed value.
- **Ruby exceptions.** They are results: `Err(RuntimeError(message))`, `Err(TypeError)` or `Err(NoMethodError)`. An exception raised inside `batch_request`'s block propagates: the block stops, and `@batching` is not reset, because the source has no `ensure`.
- **The block.** The block given to `batch_request` is a sequence of `Op`s: a request, an import, or a nested `batch_request`.
- **Ruby's `v[key]`.** It is `RubyValue.Index`:
  - a Hash looks the key up and gives nil when it is absent;
  - a String or Symbol gives the key when it occurs as a substring;
  - nil, true and false raise NoMethodError;
  - Integer and Array raise TypeError.

## Model

| member | source | states |
|---|---|---|
| `RubyValue.Index` | lib/socrata.rb:171 | `v['key']` succeeds exactly on hashes, strings and symbols. A hash yields nil when the key is absent, otherwise the value stored under it. A string or symbol yields nil or the key itself. nil and booleans raise NoMethodError; integers and arrays raise TypeError. |
| `RubyValue.Put` | lib/ext.rb:43 | `h[k] = v` keeps the keys and their order when `k` is present, and appends `(k, v)` when it is new |
| `RubyValue.GetPut` | lib/ext.rb:43 | after `h[k] = v`, `k` maps to `v` and every other key maps to what it mapped to before |
| `RubyValue.GetPutAll` | lib/socrata/data.rb:68-70 | after a sequence of assignments, a key maps to the value of its last assignment; a key never assigned keeps its old value |
| `RubyValue.PutAllDistinct` | lib/ext.rb:30-45 | assigning pairs with distinct keys to an empty hash gives exactly those pairs in order |
| `Http.Transport.Send` | lib/socrata.rb:106 | a call is appended to the log and answered by the server's reply to the n-th call |
| `Socrata.Session.constructor` | lib/socrata.rb:44-45 | a new client does not batch and has an empty queue; nothing is sent |
| `Socrata.Session.Dispatch` | lib/socrata.rb:100-146 | the request functions, proved equal to `Request`: while batching, append a record and return the queue; otherwise send and check |
| `Socrata.Session.GetRequest` | lib/socrata.rb:100-110 | `get_request` is the GET case of `Request`; a queued GET record has no body |
| `Socrata.Session.PostRequest` | lib/socrata.rb:112-122 | `post_request` is the POST case of `Request`, queuing `options[:body]` |
| `Socrata.Session.PutRequest` | lib/socrata.rb:124-134 | `put_request` is the PUT case of `Request` |
| `Socrata.Session.DeleteRequest` | lib/socrata.rb:136-146 | `delete_request` is the DELETE case of `Request` |
| `Socrata.Session.FlushBatchQueue` | lib/socrata.rb:149-167 | the `each_with_index` loop, proved equal to `Flush` by the invariant that the walk from `i` on gives the same result as the walk from 0 |
| `Socrata.Session.RunBlock` | lib/socrata.rb:94 | the block runs call by call and stops at the first exception (equal to `Run`) |
| `Socrata.Session.BatchRequest` | lib/socrata.rb:91-97 | batching on and queue emptied, then the block, then, only when the block did not raise, batching off and the flush (equal to `Batch`) |
| `Socrata.Session.Import` | lib/socrata.rb:80-88 | `import` refuses inside a batch before any upload; otherwise it uploads to `/imports` and checks the answer |
| `Socrata.Session.UploadFile` | lib/socrata.rb:188-197 | a multipart upload is one logged `Upload` call; its parsed answer goes through `check_error!` |
| `Socrata.Session.Create` | lib/socrata.rb:68-77 | `create` posts its payload, as JSON, to `/views.json` through `post_request` |
| `Socrata.CreatePayload` | lib/socrata.rb:69-73 | the payload has distinct keys: name, then description, then `:tags` only if tags were given, then `:flags` only when `public` is truthy |
| `Socrata.CreatePayloadFields` | lib/socrata.rb:69-73 | looking up `:tags` gives the tags iff they are non-empty; `:flags` gives `['dataPublic']` iff `public` is truthy |
| `Socrata.ReqRoundTrip` | lib/socrata.rb:103-139 | each queued record can be read back into the request it came from |
| `Socrata.QueueRoundTrip` | lib/socrata.rb:151 | the `requests` array of the batch POST reads back as exactly the queue, in insertion order |
| `Socrata.Request` | lib/socrata.rb:100-146 | the batching flag is unchanged. While batching nothing is sent and the call never raises. Otherwise the queue is unchanged and exactly one call is appended to the log. |
| `Socrata.Flush` | lib/socrata.rb:149-167 | the batching flag is unchanged and at most one call is appended to the log; the queue is emptied when nothing was raised and kept when something was |
| `Socrata.GuardedUpload` | lib/socrata.rb:80-88 | inside a batch it raises the refusal and changes nothing; outside it appends exactly one call and leaves the queue |
| `Socrata.Run` | lib/socrata.rb:94 | running a block only appends to the log of sent calls |
| `Socrata.Batch` | lib/socrata.rb:91-97 | `batch_request` only appends to the log; when it returns normally batching is off and the queue is empty |
| `Socrata.CheckError` | lib/socrata.rb:170-174 | `check_error!` never raises on nil; on a hash it raises iff `error` is truthy |
| `Socrata.CheckErrorIff` | lib/socrata.rb:170-174 | it raises iff the response is not nil and its `error` lookup raises or is truthy |
| `Socrata.Checked` | lib/socrata.rb:106-108 | a direct-mode request that does not raise returns the response unchanged |
| `Socrata.RequestWhileBatching` | lib/socrata.rb:101-103 | while batching, a request appends exactly one record at the end and leaves earlier records unchanged. The record has url = path, the verb, and body = `options[:body]` (none for GET). Nothing is sent, and the queue is returned. |
| `Socrata.RequestDirect` | lib/socrata.rb:104-109 | in direct mode, exactly the request is sent; the answer is returned unless it is a hash with a truthy `error`, which raises "Got error from server…" |
| `Socrata.ScanReplyNone` | lib/socrata.rb:154-160 | the walk over the reply finds nothing iff every entry's `error` lookup succeeds and is falsy |
| `Socrata.ScanReplyFirst` | lib/socrata.rb:154-160 | the walk reports the FIRST erroneous entry |
| `Socrata.ScanReplyIgnoresRest` | lib/socrata.rb:154-160 | entries after the first erroneous one do not affect the outcome |
| `Socrata.BatchErrorNamesQueuedRequest` | lib/socrata.rb:155-158 | the message for the first erroneous entry `k` names `queue[k]`'s requestType and url with the entry's errorCode and errorMessage |
| `Socrata.CheckBatchReplyOk` | lib/socrata.rb:153-162 | a reply is accepted iff it is an array without an erroneous entry; it is returned as is; a non-array raises "Expected array response…" |
| `Socrata.FlushEmpty` | lib/socrata.rb:150-166 | flushing an empty queue sends nothing and returns nil |
| `Socrata.FlushNonEmpty` | lib/socrata.rb:150-165 | flushing a non-empty queue sends exactly one POST to /batches carrying the queue; the queue is cleared iff nothing was raised |
| `Socrata.Records` | lib/socrata.rb:101-139 | the records a block of requests queues: one per request, in call order |
| `Socrata.RunRequestsWhileBatching` | lib/socrata.rb:101-139 | while batching, a block of requests appends its records in order and sends nothing |
| `Socrata.BatchOfRequests` | lib/socrata.rb:91-97 | `batch_request` with N requests: nothing is sent for N = 0 (result nil); otherwise exactly one POST of the N records, in call order. Batching is off afterwards. |
| `Socrata.BatchWithImportRaises` | lib/socrata.rb:81-83 | an import inside a batch raises. Nothing is uploaded, batching stays on, and the records queued before it stay in the queue. |
| `Socrata.RunPrefix` | lib/socrata.rb:94 | running `a + b` runs `a`, then `b` only if `a` raised nothing |
| `Socrata.NestedBatchDropsOuterRecords` | lib/socrata.rb:92-93 | a nested `batch_request` restarts the queue. The outer block's earlier records are never sent, and the inner flush is the only POST. |
| `Socrata.NestedBatchInnerRaises` | lib/socrata.rb:81-83 | when a nested block raises, the exception leaves both blocks: batching stays on, nothing is sent, the outer block's later calls never run, and the queue holds what the inner block queued |
| `Socrata.ImportGuard` | lib/socrata.rb:80-86 | inside a batch `import` refuses with no upload; outside it uploads the file to /imports once |
| `SocrataData.Field` | lib/socrata/data.rb:24-26 | a field of a metadata hash is its value, or nil when the key is absent; nil data raises NoMethodError |
| `SocrataData.Id` | lib/socrata/data.rb:28-30 | `id` is the metadata hash's "id" entry, nil when absent; it raises exactly when the data is not a hash, string or symbol |
| `SocrataData.View.constructor` | lib/socrata/data.rb:19-22 | a View has its own flag and queue, not batching and empty, over the shared transport |
| `SocrataData.View.PushRow` | lib/socrata/data.rb:81-83 | `push_row` is `post_request` on `/views/{id}/rows.json` with the row as JSON body |
| `SocrataData.View.GetRow` | lib/socrata/data.rb:85-87 | `get_row` is `get_request` on `/views/{id}/rows/{row_id}.json` |
| `SocrataData.View.UpdateRow` | lib/socrata/data.rb:89-91 | `update_row` is `put_request` on `/views/{id}/rows/{row_id}.json` |
| `SocrataData.View.Delete` | lib/socrata/data.rb:129-131 | `delete!` is `delete_request` on `/views/{id}` |
| `SocrataData.View.RawRows` | lib/socrata/data.rb:42-44 | `raw_rows` is `get_request` on the rows path with the query parameters |
| `SocrataData.View.Rows` | lib/socrata/data.rb:48-79 | `rows` gets the rows and reshapes the answer (equal to `ViewRows`) |
| `SocrataData.View.BulkUpload` | lib/socrata/data.rb:94-126 | `append`, `replace` and `truncate!` check the batch guard first; then they upload to their path (equal to `ViewBulkUpload`) |
| `SocrataData.ViewRequestsInBatch` | lib/socrata/data.rb:81-91 | inside a batch `push_row`, `update_row` and `delete!` only enqueue their record on their path |
| `SocrataData.ViewRequestsDirect` | lib/socrata/data.rb:81-131 | outside a batch each sends exactly one call on its path |
| `SocrataData.BulkGuard` | lib/socrata/data.rb:95-123 | inside a batch the bulk uploads raise their message and upload nothing. Outside they upload once; `truncate!` sends `/dev/null` as `empty_file.csv`. |
| `SocrataData.PushRowsInOneBatch` | lib/socrata/data.rb:81-83 | several `push_row`s in `batch_request` reach the server as ONE POST whose records are the rows in order |
| `SocrataData.ColumnKeys` | lib/socrata/data.rb:57-59 | the mapping has one key per column |
| `SocrataData.ColumnKeysOk` | lib/socrata/data.rb:57-59 | the mapping exists iff every `columns[idx][by]` lookup succeeds, and key `idx` is `columns[idx][by]` |
| `SocrataData.BuildMapping` | lib/socrata/data.rb:56-59 | the `each_index` loop over the columns computes `ColumnKeys`, raising at the first failing lookup |
| `SocrataData.BuildRowHash` | lib/socrata/data.rb:65-73 | the inner loop assigns the cells in index order, then `"_id"` (equal to `RowHash`) |
| `SocrataData.BuildRows` | lib/socrata/data.rb:63-76 | the loop over the rows computes `ReshapeRows`, raising at the first row that is not an array |
| `SocrataData.ReshapeResponseLoop` | lib/socrata/data.rb:55-78 | the reshaping of the whole response, in the source's order of lookups |
| `SocrataData.ReshapeResponse` | lib/socrata/data.rb:48-79 | a reshaped response is an array of hashes; an array response (the queue a batched GET returns) raises TypeError at `response['meta']` |
| `SocrataData.ViewRows` | lib/socrata/data.rb:48-79 | `rows` keeps the batching flag and only appends to the log; it returns an array of hashes, and inside a batch it raises TypeError |
| `SocrataData.MapArraysOk` | lib/socrata/data.rb:63-76 | walking the rows succeeds iff every row is an array, and yields one value per row, built from that row, in order |
| `SocrataData.ReshapeRowsOk` | lib/socrata/data.rb:62-78 | one hash per element of `response["data"]`, in the same order, iff every row is an array |
| `SocrataData.RowHashId` | lib/socrata/data.rb:72-73 | every row hash maps `"_id"` to the row's first cell (nil for an empty row), overriding a column named `_id` |
| `SocrataData.RowHashCell` | lib/socrata/data.rb:68-70 | key `columns[idx][by]` maps to `row_arr[idx]` for the last index carrying that key |
| `Ext.Underscore` | lib/ext.rb:2-8 | the output of `underscore` has no "::", no '-' and no upper-case letter |
| `Ext.ColonsToSlashRemovesDoubleColons` | lib/ext.rb:3 | after the first rewrite no "::" is left |
| `Ext.ColonsToSlashStep` | lib/ext.rb:3 | the first "::" becomes '/': the text before it is kept, and the rewrite goes on right after it |
| `Ext.SplitCamelSeparates` | lib/ext.rb:5 | after the lower/digit-to-capital rewrite no lower-case letter or digit is directly followed by a capital |
| `Ext.SplitCamelOnlyInserts` | lib/ext.rb:5 | that rewrite only inserts underscores |
| `Ext.SplitAcronymOnlyInserts` | lib/ext.rb:4 | the acronym rewrite only inserts underscores |
| `Ext.SplitAcronymExample` | lib/ext.rb:4 | "ABCd" becomes "AB_Cd": the run gives back its last capital to the following word |
| `Ext.UnderscoreIdempotent` | lib/ext.rb:2-8 | `underscore` applied twice equals `underscore` applied once |
| `Ext.Camelize` | lib/ext.rb:10-11 | `camelize` keeps a non-empty string non-empty |
| `Ext.SlashToScopeStep` | lib/ext.rb:11 | the first "/c" (c not a newline) becomes "::C": the text before it is kept, and the rewrite goes on after `c` |
| `Ext.CamelizeWords` | lib/ext.rb:11 | non-empty words without '_', '/' or newline, joined by '_', camelize to the words with their first characters upcased, run together |
| `Ext.CamelizePlain` | lib/ext.rb:11 | a string with no '_', '/' or newline only has its first character upcased |
| `Ext.CamelizeSnakeExample` | lib/ext.rb:11 | "row_id" camelizes to "RowId" |
| `Ext.CamelizePathExample` | lib/ext.rb:11 | "a/b" camelizes to "A::B" |
| `Ext.CamelizeLowerIsCamelizeDowncasedFirst` | lib/ext.rb:12 | `camelize(false)` is `camelize` with only the first character lower-cased |
| `Ext.CamelizeLowerAsWrittenFailsOnEmpty` | lib/ext.rb:12 | as written, `camelize(false)` raises exactly on the empty string and agrees with the corrected version elsewhere |
| `Ext.SymbolizeKeys` | lib/ext.rb:17-49 | scalars are returned unchanged; an array comes back an array of the same length; a hash comes back a hash with distinct keys |
| `Ext.SymbolizeKeysShape` | lib/ext.rb:17-49 | scalars are returned unchanged; arrays keep length and order element-wise; hashes come back with distinct keys |
| `Ext.SymbolizeKeysLookup` | lib/socrata.rb:211-227 | a key of the result maps to the symbolized value of the last entry whose key symbolizes to it |
| `Ext.SymbolizeKeysNoCollision` | lib/ext.rb:29-45 | when no two keys collide, every entry keeps its place with its key symbolized |
| `Ext.SymbolizeKeysNoStringKeys` | lib/ext.rb:31-36 | no String key is left at any depth |
| `Ext.SymbolizeKeysFixedPoint` | lib/ext.rb:17-49 | a value with no String keys is returned unchanged |
| `Ext.SymbolizeKeysIdempotent` | lib/ext.rb:17-49 | symbolizing twice equals symbolizing once |
| `Ext.CamelizeKeys` | lib/ext.rb:51-85 | scalars are returned unchanged; an array comes back an array of the same length; a hash comes back a hash with distinct keys |
| `Ext.CamelizeKeysShape` | lib/ext.rb:51-85 | scalars are returned unchanged; arrays keep length and order element-wise |
| `Ext.CamelizeKeysLookup` | lib/ext.rb:63-81 | a key of the result maps to the rewritten value of the last entry whose key camelizes to it |
| `Ext.CamelizeKeysNoSymbolKeys` | lib/ext.rb:65-72 | no Symbol key is left at any depth |
| `SocrataDataset.MatchId` | lib/socrata/dataset.rb:130-132 | `id =~ re` is nil or the leftmost position of a four-four id in a String or Symbol; nil means no id occurs anywhere |
| `SocrataDataset.IsId` | lib/socrata/dataset.rb:130-132 | an id is a String or Symbol of at least nine characters |
| `SocrataDataset.FindId` | lib/socrata/dataset.rb:131 | the leftmost position where a four-four id starts, or none |
| `SocrataDataset.IsIdIff` | lib/socrata/dataset.rb:130-132 | `is_id` holds iff the value is a String or Symbol containing 4 of `[0-9a-z]`, '-', 4 of `[0-9a-z]` |
| `SocrataDataset.IsIdUnanchored` | lib/socrata/dataset.rb:131 | the pattern is unanchored: surrounding text does not hide an id |
| `SocrataDataset.IsIdExamples` | lib/socrata/dataset.rb:131 | "n5m4-mism" is an id; its upper-case form and nil are not |
| `SocrataDataset.Dataset.Attach` | lib/socrata/dataset.rb:121-128 | `attach(x)` sets the id only when `is_id(x)` (equal to `AttachEffect`) |
| `SocrataDataset.AttachOutcome` | lib/socrata/dataset.rb:121-136 | after `attach(x)` the handle is attached to `x` when `x` is an id; otherwise nothing changes |
| `SocrataDataset.Dataset.AddRowDelayed` | lib/socrata/dataset.rb:77-81 | `add_row_delayed` is `DelayEffect` |
| `SocrataDataset.DelayOutcome` | lib/socrata/dataset.rb:77-81 | unattached, nothing changes. Attached, exactly one `{url, requestType POST, body}` record is appended, and earlier ones are kept. A nil list starts empty. |
| `SocrataDataset.Dataset.AddRow` | lib/socrata/dataset.rb:65-74 | unattached: returns false and sends nothing; attached: posts the row and stores the answer |
| `SocrataDataset.Dataset.AddColumn` | lib/socrata/dataset.rb:84-101 | unattached: returns false and sends nothing; attached: posts the column payload and stores the answer |
| `SocrataDataset.ColumnPayload` | lib/socrata/dataset.rb:90-96 | always name, dataTypeName, description, hidden and width; `:format` exactly when `rich` is truthy |
| `SocrataDataset.CreatePayload` | lib/socrata/dataset.rb:20-25 | name and description; `flags ['dataPublic']` iff `public`; `tags` iff tags are non-empty |
| `SocrataDataset.Dataset.Create` | lib/socrata/dataset.rb:19-37 | posts the payload once; the outcome is `CreateEffect` of the answer |
| `SocrataDataset.CreateOutcome` | lib/socrata/dataset.rb:30-36 | an answer without `id`: returns false and stores only the error code. Otherwise it stores the answer and its id and returns the id. |
| `SocrataDataset.Dataset.Delete` | lib/socrata/dataset.rb:52-54 | `delete` sends one DELETE on `/views.json?id=…&method=delete` |
| `SocrataDataset.Dataset.FindSets` | lib/socrata/dataset.rb:163-177 | one GET of the user's views, then the filters (equal to `FindSetsFiltering`) |
| `SocrataDataset.Includes` | lib/socrata/dataset.rb:169 | `include?` answers on arrays, hashes, and strings given a string; on an array it is true iff the tag is an element |
| `SocrataDataset.Tagged` | lib/socrata/dataset.rb:169 | a view hash without `tags` is not tagged; one whose `tags` is an array is tagged iff the tag is in it; nil and booleans raise NoMethodError |
| `SocrataDataset.FilterViews` | lib/socrata/dataset.rb:168-174 | the `select`/`delete_if` loop computes `Filter` |
| `SocrataDataset.SelectMembers` | lib/socrata/dataset.rb:168-174 | `select`/`delete_if` with any block: succeed iff no block raises, and keep exactly the elements whose block result is the kept outcome |
| `SocrataDataset.SelectOrdered` | lib/socrata/dataset.rb:168-174 | the kept elements are a subsequence of the input |
| `SocrataDataset.FilterMembers` | lib/socrata/dataset.rb:168-174 | filtering succeeds iff no block raises, and keeps exactly the views whose test is the kept outcome |
| `SocrataDataset.FilterOrdered` | lib/socrata/dataset.rb:168-174 | the kept views are a subsequence of the input: the order is preserved |
| `SocrataDataset.UntaggedView` | lib/socrata/dataset.rb:169-173 | a view without tags is dropped by the `:tags` filter and kept by the `:ignore` filter |
| `SocrataDataset.FindSetsBothFilters` | lib/socrata/dataset.rb:168-176 | with both options the result holds exactly the views tagged `tags` and not tagged `ignore` |
| `SocrataDataset.Dataset.SetPublic` | lib/socrata/dataset.rb:180-185 | unattached: nothing; attached: one GET setting the permission 'public' or 'private' |
| `SocrataDataset.Dataset.Put` | lib/socrata/dataset.rb:188-192 | unattached: nothing; attached: one PUT of the body to the view, answer stored |
| `SocrataDataset.Dataset.SetAttribution` | lib/socrata/dataset.rb:194-196 | a `put` of the attribution link and attribution |
| `SocrataDataset.Dataset.SetDescription` | lib/socrata/dataset.rb:198-200 | a `put` of the description as a string |
| `SocrataDataset.Dataset.SetTags` | lib/socrata/dataset.rb:202-204 | a `put` of the tags |
| `SocrataDataset.LinkUrlParts` | lib/socrata/dataset.rb:207-212 | the long link starts with the public host and the category segment and ends with the id |
| `SocrataDataset.ShortUrlOf` | lib/socrata/dataset.rb:215-217 | the short link is the public host, "/d/", then the id |
| `SocrataDataset.EmbedCodeFrame` | lib/socrata/dataset.rb:220-223 | the embed code is an iframe whose source is the widget URL of the dataset |

## Left out

- Transport failures, timeouts and HTTP status handling: the server is a total function from calls to parsed answers.
- `to_json` and `JSON.parse`: these are given functions, and the re-parse of the raw batch reply body is the same parsed value. HTTParty's response object is its parsed value.
- `to_s` of arrays and hashes inside interpolated strings is rendered as "".
- Floats and big-number formatting are not modelled: integers are unbounded `int`s.
- `initialize`'s configuration merge, logger, `basic_auth` and `base_uri`. Only the batching fields it sets are modelled. The credentials check of `multipart_post_file` is not modelled, so an upload without a username does not raise NoMethodError here.
- `multipart_post`: it is never called by the core.
- `user` and `view` in lib/socrata.rb. `import` and `create` return the server's answer; wrapping it in a `View` object is left to the caller.
- `Data` of a new `View` has `@batching` and `@batch_queue` nil. They are modelled as false and empty, which behaves the same.
- The array `get_request` returns while batching is the queue itself; later appends are visible through it. The model returns a copy (no aliasing).
- `SocrataAPI` (the base class of `Dataset`) is not part of this model. Its `check_error` is a given function of the stored response, and its configuration values are constants.
- `Dataset.import`, `upload_image`, `multipart_upload`, `get_columns`, `get_rows` and `has_columns?` depend on that base class and on Curl. They are not modelled.
- `parse_date`: date parsing and formatting library calls.
- `SocrataDataset.Dataset.FindSets`: a reply that is not an array, filtered with `:tags` or `:ignore`, is modelled as raising NoMethodError. Ruby's `Hash#select` would yield key/value pairs instead.
- `SocrataDataset.Dataset.Put`: the return value of `put` (the logger's) is not modelled.
- `SocrataDataset.FilterViews`: when a block raises part-way through `delete_if`, Ruby has already removed earlier elements in place. The model returns only the exception.
- lib/socrata/user.rb, bin/ and the tests are not part of this model.
- `upcase` and `downcase` are modelled on ASCII letters only; Ruby 2.4 and later also map non-ASCII letters. The regexps' own character classes (`[A-Z]`, `[a-z]`, `\d`) are ASCII in Ruby too.
- `Ext.CamelKey`: a Symbol key goes through the corrected `camelize(false)` (see Findings), so `:""` becomes the String `""`, where the source raises TypeError. `Ext.CamelizeLowerAsWritten` models the raising version.
- `Ext.CamelizeKeys`: for the same reason a hash with the Symbol key `:""` is rewritten instead of raising TypeError.

## Findings

| source | as written | input that shows it | evidently intended | confidence | as-written member | corrected member |
|---|---|---|---|---|---|---|
| lib/ext.rb:12 | `s[0...1].downcase + s[1..-1]`: for the empty string `s[1..-1]` is nil, so `+` raises TypeError. `Util.camelize_keys` therefore raises on a hash with the Symbol key `:""`. | `"".camelize(false)` | the empty string maps to itself | not executed | `Ext.CamelizeLowerAsWritten` (see `Ext.CamelizeLowerAsWrittenFailsOnEmpty`) | `Ext.CamelizeLower` (used by `Ext.CamelKey`; see `Ext.CamelizeLowerIsCamelizeDowncasedFirst`) |
