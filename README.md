# node-influx: wire translation and transport, modelled in Dafny

This project models the core of the node-influx client for InfluxDB: the
parts that turn application calls into wire formats, send them with retries,
and read the answers back.

- **Line-protocol encoder** (`LineProtocol`). This is `_prepareValues` with
  `_createKeyTagString` and `_createKeyValueString`. A batch
  `{measurement: [[fields, tags], ...]}` becomes one line per point, and the
  lines are joined by newlines. Measurement names and string tag values have
  their spaces and commas escaped. String field values are quoted. A truthy
  `time` is deleted from the caller's field object and written as the
  timestamp. A bare scalar becomes the field `value`. Field objects are
  objects held by reference (`JsValues.JsObject`), so the deletion is visible
  to the caller. An object used by two points loses its `time` on the first
  visit, and the model keeps that.
- **A reader for the encoder's lines** (`LineProtocolRead`). It is the
  partner the encoder is proved against. A line reads back as its
  measurement, tags, fields and timestamp whenever the texts are unambiguous.
  Lemmas also exhibit the texts the encoder writes ambiguously, because it
  escapes neither keys, nor backslashes, nor quotes in string fields.
- **Query-object builder** `url` (`QueryUrl`). The credentials come first,
  then the per-call options are merged over them, then the extra query keys.
  After that, `precision`, `db` and `rp` are filled from the configuration
  where the merged value is falsy.
- **Response handling** (`Responses`). `_parseResults` flattens each
  statement result into row objects. Each row is the columns zipped with a
  value row, with the series tags assigned over it. `_parseCallback`
  classifies a transport error, a status and a body into an outcome.
- **Retrying transport** (`Retry`, `Transport`). `InfluxRequest` merges the
  request options and stores the original path once. Every attempt rebuilds
  the URL and counts itself in `retries`. A failure with one of five socket
  error codes is resubmitted while `maxRetries >= retries`. `Retry` states
  the loop for any option and reply types. `Transport` instantiates it with
  the request options of `_request`.
- **Client glue** (`Client`). This is the defaulting that `writeMeasurements`
  does in place on the caller's options before a write, and
  `_parseAttributes`.

JavaScript objects are ordered lists of (key, value) pairs, because lodash
visits keys that are not array indices in insertion order. Values are a datatype: undefined, null, a
boolean, an integer, a string, or a Date held as its epoch. The network is a
function parameter `net`, where `net(k)` is the reply to the `k`-th attempt.
The callback chains become loops.

The per-call database of a write does not reach the `db` query key; see
"Findings".

## Model

| member | source | states |
|---|---|---|
| JsValues.Set | index.js:323 | `o[k] = v`: `k` then reads `v`; every other key keeps its value and presence; an existing key keeps its place and a new key is appended; distinct keys stay distinct |
| JsValues.Delete | index.js:372 | `delete o.time`: the key is gone and reads `undefined`; exactly the other keys remain; an absent key changes nothing |
| JsValues.DeleteGet | index.js:372 | deleting one key leaves every other key's value unchanged |
| JsValues.AssignGet | index.js:316-319 | after `_.extend`, a key the source holds has the source's value; every other key keeps the target's value; a key is present iff the target or the source holds it |
| JsValues.AssignKeys | index.js:316-319 | `_.extend` keeps the target's keys in place and appends the source's new keys in the source's order |
| JsValues.SetNew | index.js:323 | assigning a key the object lacks appends it at the end |
| JsValues.IntTextRoundTrip | index.js:343 | the decimal text of an integer parses back to that integer |
| LineProtocol.EscapeSpacesCommasIsEscape | index.js:351 | the two chained global replacements (spaces, then commas) put a backslash before each space and each comma and change nothing else |
| LineProtocol.EscapeAppend | index.js:363 | escaping distributes over concatenation |
| LineProtocol.UnescapeEscape | index.js:363 | escaping loses nothing: unescaping an escaped text gives the text back |
| LineProtocol.EscapeHead | index.js:363 | an escaped non-empty text never starts with a bare space or comma |
| LineProtocol.DropTime | index.js:369-373 | after the field object loses a truthy `time`, its `time` is falsy |
| LineProtocol.DropTimeIdempotent | index.js:369-373 | taking `time` out a second time changes nothing |
| LineProtocol.LineWithoutTime | index.js:368-381 | a line with a truthy `time` is the line of the object without `time`, then a space and the timestamp (`getTime()` of a Date, the text otherwise) |
| LineProtocol.Lines | index.js:389 | there is one line per point |
| LineProtocol.LinesAt | index.js:358-392 | line `k` is the line of point `k` in measurement-then-point order, as the encoder sees that point's field object after the earlier points |
| LineProtocol.UnsharedObjectsEncodeOwnValues | index.js:368-381 | a point whose field object no earlier point used is encoded from that object's original properties |
| LineProtocol.LineHead | index.js:363-366 | the head of a line is the escaped measurement, then `,` and the tag string only when there is at least one tag |
| LineProtocol.EncodePoint | index.js:363-389 | the line of one point, and the field object afterwards has lost a truthy `time` and nothing else |
| LineProtocol.EncodeVisit | index.js:362-389 | one visit of the inner loop: it yields the point's line as seen after the earlier visits, and it keeps every visited object equal to its original without `time` |
| LineProtocol.EncodePoints | index.js:362-390 | the inner loop appends the lines of one measurement's points in order |
| LineProtocol.PrepareValues | index.js:358-392 | the body is the newline-joined lines of all points in order, over the objects' properties before the call; afterwards every field object is its original without a truthy `time` |
| LineProtocolRead.TagPairText | index.js:349-354 | a tag is its key, `=`, and the escaped text of its value; a non-string value is written as its text |
| LineProtocolRead.ParseTagsSection | index.js:348-356 | the tag section of a line reads back as the tag keys with the texts of their values |
| LineProtocolRead.ParseFieldsSection | index.js:338-346 | the field list of a line reads back as the field keys with their values, quoted strings told apart from bare values |
| LineProtocolRead.LineRoundTrip | index.js:358-388 | a line reads back as its measurement, its tags, its fields (the object without a truthy `time`, or the single field `value`, or none for a bare Date) and its timestamp, whenever keys hold no separator, tag values and the measurement do not end in a backslash, and string fields hold no quote |
| LineProtocolRead.SplitJoin | index.js:392 | joining lines with a newline and splitting at newlines gives the lines back when no line holds a newline |
| LineProtocolRead.EncodeSplits | index.js:389-392 | the body splits at newlines into exactly the lines of the points, in order |
| LineProtocolRead.EncodeNoPoints | index.js:392 | a batch without points encodes to the empty text, with no trailing newline |
| LineProtocolRead.QuoteInFieldIsAmbiguous | index.js:340-341 | a string field holding quotes is written exactly like two fields |
| LineProtocolRead.TrailingBackslashIsAmbiguous | index.js:350-351 | a tag value ending in a backslash makes two tags read as one |
| LineProtocolRead.EqualsInKeyIsAmbiguous | index.js:348-355 | a key holding `=` is written exactly like a shorter key whose value holds the rest |
| LineProtocolRead.KeyTagStringExample | tests/core.js:67-75 | tags `value`, `value value`, `value,value` are written `tag_1=value,tag2=value\ value,tag3=value\,value` (for any plain text in place of `value`) |
| LineProtocolRead.KeyValueStringExample | tests/core.js:77-81 | `{a: 1, b: 2}` is written `a=1,b=2` |
| QueryUrl.Url | index.js:314-336 | the path is the endpoint and the query object is the merged object with the configured defaults filled in |
| QueryUrl.MergedGet | index.js:316-319 | each key of the merge holds the value of the latest source that holds it (query, then options, then credentials); the options may replace `u` and `p` |
| QueryUrl.FillGet | index.js:322-330 | a fill sets its key to the configured value exactly when that is truthy and the key's current value is falsy, and changes no other key |
| QueryUrl.QueryGet | index.js:314-330 | every key of the query object: a configurable key takes the configured value only when the caller's is falsy and the configured one truthy; any other key holds the caller's value by precedence |
| QueryUrl.QueryTruthy | index.js:322-330 | a configurable key is truthy in the query object iff the caller or the configuration gives it a truthy value |
| QueryUrl.FillKeys | index.js:322-330 | a fill appends its key only when it assigns a key the object lacks |
| QueryUrl.FillThreeKeys | index.js:322-330 | the three fills append their new keys in the order precision, db, rp |
| QueryUrl.MergedKeys | index.js:316-319 | the merged keys are `u`, `p`, the options' new keys, then the query's new keys |
| QueryUrl.QueryKeys | index.js:316-330 | the keys of the query object are the merged keys, then each configured key the caller did not hold at all, in the order precision, db, rp |
| QueryUrl.OptionsKeyOrder | tests/core.js:43-54 | with per-call `db`, `rp`, `precision` the keys are `u, p, db, rp, precision` and the caller's truthy values are kept |
| QueryUrl.ConfigKeyOrder | tests/core.js:56-63 | without options and with all three configured, the keys are `u, p, precision, db, rp` with the configured values |
| Responses.ParseResults | index.js:407-422 | the outer and inner loops build exactly the table: one row list per statement result |
| Responses.ConcatRows | index.js:411-417 | the inner loop concatenates the rows of each series in turn |
| Responses.TableShape | index.js:408-420 | there is one row list per statement result, and a result without `series` gives an empty list |
| Responses.SeriesRowsLength | index.js:411-417 | a result has as many rows as its series have value rows together |
| Responses.SeriesRowsAt | index.js:411-417 | row `i` of series `j` comes after all rows of the series before `j` |
| Responses.ZipObjectGet | index.js:414 | with distinct columns, each column holds the value at its index, and `undefined` past the end of the row |
| Responses.ZipObjectKeys | index.js:414 | with distinct columns, the zipped object's keys are the columns in order |
| Responses.ZipObjectOther | index.js:414 | a key that is no column is absent from the zipped object |
| Responses.RowGet | index.js:414 | in a row the tags win: a tag key holds the tag's value and every other key the zipped value |
| Responses.TwoColumnRow | index.js:414 | a two-column row with one new tag is the two columns in order, then the tag |
| Responses.ParseResultsExample | tests/core.js:84-122 | the test's two series give one result of two rows, each `time, value, mytag` |
| Responses.FirstFlagged | index.js:435-439 | the index found is the first result at or after the start whose error is truthy and not empty, and none is found iff there is no such result |
| Responses.ParseCallback | index.js:424-446 | the indexed loop with early returns yields exactly the classification |
| Responses.TransportErrorFirst | index.js:427-429 | a transport error passes through whatever the status and body |
| Responses.FirstErrorWins | index.js:434-440 | with a 2xx status, the outcome is a failure iff some result has a truthy error, and then the message is the first such error |
| Responses.TruthyIsFlagged | index.js:436 | the test against the empty string never decides anything |
| Responses.SuccessMeans | index.js:424-446 | a success means no transport error, a 2xx status, a text or object body, no result with a truthy error, and the results of an object body |
| Responses.ThrowsExactly | index.js:430-443 | reading the body throws iff there is no transport error and the body is `null`, or absent with a non-2xx status; an absent body with a 2xx status gives `body is undefined` |
| Retry.Attempts | lib/InfluxRequest.js:36-60 | at least one attempt is made |
| Retry.Resubmitted | lib/InfluxRequest.js:53-57 | a resubmitted attempt is followed by the attempts from its counted options, and the final reply is theirs |
| Retry.NotResubmitted | lib/InfluxRequest.js:53-59 | an attempt that is not resubmitted is the last, and its reply reaches the callback |
| Retry.FinalAtOnce | lib/InfluxRequest.js:54-59 | a reply that is not retryable (a response, or another error) ends the loop after that attempt |
| Retry.AttemptsBound | lib/InfluxRequest.js:47-56 | the number of attempts is at least 1 and at most `maxRetries + 1 - retries` (at least 1) |
| Retry.LastReply | lib/InfluxRequest.js:55-59 | the callback receives the reply of the last attempt |
| Retry.LastNotResubmitted | lib/InfluxRequest.js:55-59 | when the final reply is retryable, the count had passed `maxRetries`: retries were exhausted |
| Retry.RetriedOnlyOnRetryable | lib/InfluxRequest.js:54-56 | every attempt before the last received a retryable reply |
| Retry.AttemptCounts | lib/InfluxRequest.js:39-47 | attempt `i` carries the count `retries + i + 1` |
| Retry.AllRetryable | lib/InfluxRequest.js:54-57 | when every reply is retryable, exactly `maxRetries + 1 - retries` attempts are made (at least 1) |
| Retry.EveryAttempt | lib/InfluxRequest.js:36-56 | a property the first attempt has and each preparation keeps holds on every attempt |
| Retry.SecondAttempt | lib/InfluxRequest.js:53-57 | after a resubmission the second attempt is prepared from the first attempt's options |
| Retry.AttemptsStep | lib/InfluxRequest.js:53-59 | one turn of the loop: either resubmit with the counted options or stop with this reply |
| Transport.DefaultMaxRetries | lib/InfluxRequest.js:19 | a given non-zero `maxRetries` is kept; an absent or zero one becomes 2 |
| Transport.InfluxRequest.constructor | lib/InfluxRequest.js:7-21 | the fields hold the given host, port and protocol, the timeout, `index` 0 and the defaulted `maxRetries` |
| Transport.InfluxRequest.SetRequestTimeout | lib/InfluxRequest.js:23-26 | the default timeout becomes the value, which is returned; nothing else changes |
| Transport.InfluxRequest.Attempt | lib/InfluxRequest.js:36-47 | one attempt's options are the prepared options and carry a count one higher |
| Transport.InfluxRequest.Request | lib/InfluxRequest.js:36-60 | the loop's final reply and the options of every attempt are exactly those of the resubmission definition |
| Transport.InfluxRequest.Get | lib/InfluxRequest.js:62-64 | `get` sends the caller's options unchanged into the loop |
| Transport.InfluxRequest.Post | lib/InfluxRequest.js:66-69 | `post` sets `method` to `POST` on the caller's object, then runs the loop on it |
| Transport.RequestMergeGet | lib/InfluxRequest.js:39 | after the merge, the caller's keys win, `retries` defaults to 0 and `timeout` to the default timeout |
| Transport.StepsGet | lib/InfluxRequest.js:43-47 | the stored path is kept once set, `url` is rebuilt from the origin and that path, `retries` goes up by one, and every other key is unchanged |
| Transport.PrepareFacts | lib/InfluxRequest.js:39-47 | a prepared attempt counts one more, targets the origin plus the stored path, and keeps the caller's or the default timeout and the caller's method |
| Transport.PrepareCounts | lib/InfluxRequest.js:39-47 | preparation keeps options well formed and counts one attempt |
| Transport.PrepareWith | lib/InfluxRequest.js:36-47 | the preparation as a function value meets the counting requirement of the loop |
| Transport.NoResubmitOnResponse | lib/InfluxRequest.js:53-59 | a received response, or a non-retryable error, reaches the callback after one attempt |
| Transport.AllRetryable | lib/InfluxRequest.js:54-57 | with every attempt failing retryably and no initial count, exactly `maxRetries + 1` attempts are made |
| Transport.KeptOnEveryAttempt | lib/InfluxRequest.js:39 | every attempt carries the caller's timeout (or the default one) and the caller's method |
| Transport.SameTarget | lib/InfluxRequest.js:43-46 | with a non-empty path, every attempt targets the same URL and stores the same path |
| Transport.PathDrift | lib/InfluxRequest.js:43-46 | with an empty path, the second preparation builds its URL from the first attempt's full URL |
| Transport.EmptyPathDrifts | lib/InfluxRequest.js:43-46 | with an empty path, a resubmission targets a different URL than the first attempt |
| Transport.PostOnEveryAttempt | lib/InfluxRequest.js:66-69 | every attempt of a `post` carries `method` `POST` |
| Client.DefaultGet | index.js:169-175 | `if (!o[k]) o[k] = v` sets the key exactly when its value is falsy, and leaves every other key unchanged |
| Client.WriteDefaultsGet | index.js:169-175 | after the corrected defaulting, `db` holds the target database, `database` the caller's or the configured one, `precision` the target precision, and every other key is unchanged |
| Client.WriteQueryTargets | index.js:169-178 | the write's query `db` is the caller's `db`, else the caller's `database`, else the configured one; `precision` is the caller's, else the configured one; `rp` is filled as `url` fills it |
| Client.WriteIgnoresDatabaseAsWritten | index.js:169-178 | as written, when the caller gives no `db` and a database is configured, the query's `db` is the configured one whatever `database` the caller gives |
| Client.WriteSendsDatabaseKeyAsWritten | index.js:169-178 | as written, the caller's database travels under the query key `database` |
| Client.PerCallDatabaseAsWritten | index.js:169-178 | as written, configuration `main` and options `{database: 'other'}` give `db=main` and `database=other` |
| Client.PerCallDatabaseCorrected | index.js:169-178 | corrected, the same call gives `db=other` |
| Client.WriteDefaultsAsWrittenGet | index.js:169-175 | as written, the defaulting sets `database` and `precision` to the caller's value when truthy, else the configured one, and leaves `db` and every other key unchanged |
| Client.FillWriteDefaults | index.js:169-175 | the caller's options object becomes its contents defaulted as written (`database` and `precision`, never `db`) |
| Client.WriteMeasurements | index.js:163-182 | the options are defaulted in place as written; the request goes to `write` with the query object `url` builds from those options, whose `db` is therefore the configured database unless the caller gave `db`; the body is the encoded batch; the field objects lose a truthy `time` |
| Client.ParseAttributes | index.js:395-405 | the loop renders each own property as `key<delimiter>value ` in key order |
| Client.AttributesSnoc | index.js:398-403 | one more property appends its rendering |
| Client.AttributesAppend | index.js:398-403 | the rendering of two objects' properties is the two renderings concatenated |
| Client.AttributesEnd | index.js:402 | the rendering is empty iff there are no properties, and otherwise ends in a space |
| Client.AttributesExample | index.js:395-405 | `{duration: '1d', replication: 1}` with no delimiter renders `duration 1d replication 1 ` |

## Left out

- The HTTP call of the `request` library is the parameter `net`; callbacks and asynchrony become loops. A missing callback (index.js:426) is not modelled.
- `url.format` in index.js:332-335 and lib/InfluxRequest.js:28-34 is not modelled. `QueryUrl.Url` returns the path and the ordered query object, not the percent-encoded text. `Transport.Origin` writes the origin without percent-encoding.
- Numbers are integers. `Num(n)` stands for a JavaScript number holding `n` exactly, with |n| at most 2^53. JavaScript's text for larger values (the shortest round-tripping digits, such as `1152921504606847000` for 2^60, and exponent notation such as `1e+21` from 1e21 on) is not modelled, nor are floating-point values and their texts (`1.5`, `NaN`, `Infinity`).
- A Date in a tag or field position is rendered as its epoch. JavaScript's `Date.prototype.toString` text is not modelled; a Date timestamp uses `getTime()` as the source does.
- Transport.InfluxRequest.Request: requires distinct keys and an absent or numeric `retries` in the options. A non-numeric `retries`, which `++` turns into `NaN`, is not modelled. The same holds for `Get`, `Post` and `Attempt`.
- Transport lemmas: they are stated for any `prepare` that meets `Transport.Prepares`. `Transport.PrepareWith` gives the one the methods use.
- Transport.InfluxRequest.constructor: `maxRetries` is an integer or absent. A non-numeric truthy value is not modelled. The `index` field is stored and never read.
- Responses: a body's `results` that is not an array is `None`. A `TypeError` thrown by reading a property of `null` or `undefined` is the outcome `Thrown`.
- Responses.ZipObjectGet: requires distinct column names. With a repeated column, `_.zipObject` keeps the last value, and this is not stated.
- Client.WriteMeasurements: requires that the options object is not one of the batch's field objects. It does not model the `pool` option, nor the formatting and sending of the request, which `Transport.InfluxRequest.Post` covers.
- The callback-arity shuffling of the public methods is not modelled, nor `writePoint`, `query` and the DDL and admin statement templates (index.js:31-161, 204-262). The constructor of `InfluxDB` with its defaults merge is not modelled either.
- The line-protocol reader reads back only what the encoder writes unambiguously. The `LineProtocolRead.*IsAmbiguous` lemmas show the cases it cannot.
- The per-call options are merged over `u` and `p`, so a call can replace the credentials (`QueryUrl.MergedGet`).
- Keys that are array indices ("0", "12") are ordered by insertion. JavaScript enumerates them first, in ascending order, so for such keys the key-order statements of `JsValues.Set`, `JsValues.AssignKeys`, `JsValues.SetNew`, `QueryUrl.FillKeys`, `QueryUrl.MergedKeys`, `QueryUrl.QueryKeys` and `Responses.ZipObjectKeys` do not describe the real order. Their value statements hold for every key.
- `_.map` treats an object whose `length` property is a non-negative integer as array-like and walks its indices, so a field or tag object with such a `length` key is written as `0=undefined,1=undefined,...` (index.js:340, 350). The model writes it as an ordinary key, `length=3`.
- The tags of a point are a value taken when the batch is given. A tags object that is also a field object of the batch loses a truthy `time` in the source once that field object is visited; the model's tags do not see that deletion.

## Findings

| source | as written | input that shows it | evidently intended | confidence | as-written member | corrected member |
|---|---|---|---|---|---|---|
| index.js:169-178 | `writeMeasurements` stores a missing per-call database under `options.database`. `url` only fills and reads `db`, so the per-call database is sent as `database=` and `db` stays the configured database | configured database `main`, options `{database: 'other'}`: the query holds `db=main` and `database=other` | a per-call database selects the database written to (`db=other`) | medium; not executed | Client.PerCallDatabaseAsWritten, Client.WriteIgnoresDatabaseAsWritten | Client.WriteDefaults, Client.WriteQueryTargets, Client.PerCallDatabaseCorrected |
