# nodejs-cloudant-quickstart: a Dafny model of its write and shaping core

This project models the parts of the Cloudant quick-start library that do
the work between a caller and the database.

- `lib/attempt.js` writes one document with retries on conflict: `del`,
  `update` (with and without `merge`) and `insert`. Each is wrapped in a
  three-attempt retry with exponential back-off.
- `lib/bulk.js` runs `importArray`. It cuts the caller's array of documents,
  in place, into batches of 500 and posts each batch to the bulk endpoint.
  The replies are counted into `{success, failed}`.
- `lib/utils.js` shapes the store's answers.
  - `formatOutput` turns a list, a `{docs}` answer, a `{rows}` answer or a
    single document into stripped documents.
  - `simplify` turns the rows of a reduced view into a value or a keyed
    object. It calls `objectify` and `enhance` for each row.
  - `isArray` and `clone` are also modelled.
- `lib/strip.js` holds `singleDoc` and `arrayOfDocs`. They rename `id` to
  `_id` and drop `_rev` and `rev`.

The modules are these:

- **`Json`** (json.dfy) holds JavaScript values.
  - `undefined` is a value, because a missing property reads as it.
  - An object is a sequence of members in JavaScript's insertion order.
  - Assignment is `Put`, `delete` is `Remove`, and a property read is `Get`.
  - Truthiness is `Truthy`.
  - `JSON.parse(JSON.stringify(x))` is `Clone`.
  - A mutable object is the class `JsObject`.
- **`JsonText`** (json_text.dfy) holds `JSON.stringify`. `update` compares
  documents by their serialisation, and this module proves that the
  comparison is a comparison of values.
- **`Strip`** (strip.dfy) holds the value-level strip functions. It also has
  methods that change `JsObject`s in place.
- **`Attempt`** (attempt.dfy) models the store as the script of replies it
  will give, one per request. `RunAttempt` is one attempt as a function of
  the replies it consumes. `Perform` wraps it in the retry. The methods
  `Del`, `Update` and `Insert` run the same steps against a `Store`
  object, and each is proved equal to `Perform`.
- **`Bulk`** (bulk.dfy) models the batching and the counting as functions
  (`Batches`, `EntriesCount`, `Drain`). The imperative `ImportArray`
  consumes a `JsArray` with a do/while loop, and `DrainQueue` drains the
  queue against a `BulkStore` one `Worker` call at a time.
- **`Utils`** (utils.dfy) holds `Formatted`, `Objectified` and `Simplified`,
  with methods that run the source's loops.
  - A `TypeError` the JavaScript would raise is the result `Thrown`. Such
    an error comes from reading a member of `null`/`undefined`, or from
    calling `match` on a non-string `_id`.
  - `enhance`'s floating-point statistics are a function parameter
    `derive`.

## Model

| member | source | states |
|---|---|---|
| Json.Put | lib/strip.js:8 | Assignment `o[k] = v`: `k` then reads `v` and every other key reads as before. |
| Json.PutKeys | lib/strip.js:8 | An assigned key that already exists keeps its place among the keys; a new key goes last. |
| Json.Remove | lib/strip.js:9-12 | `delete o[k]`: `k` reads `undefined` and is no longer a key. Other keys are unchanged. Deleting an absent key changes nothing. |
| Json.KeysMembership | lib/strip.js:7 | A name is a key exactly when some member carries it. An absent key reads as `undefined`. |
| Json.PutKeepsDistinct | lib/attempt.js:80 | Assignment never creates a duplicate key. |
| Json.CloneMembersAreJson | lib/utils.js:7-9 | A JSON round trip of an object gives a value without `undefined` anywhere. |
| Json.CloneOfJson | lib/utils.js:7-9 | A JSON round trip returns an `undefined`-free value unchanged. |
| Json.CloneMembersOfJson | lib/attempt.js:59 | A round trip of an object whose members are `undefined`-free returns it unchanged. |
| Json.Clone | lib/utils.js:7-9 | `JSON.parse(JSON.stringify(x))` as a value. It has no contract of its own; `CloneMembersAreJson`, `CloneOfJson` and `CloneMembersOfJson` state what it promises. |
| Json.NatToStringInjective | lib/utils.js:76 | Distinct naturals have distinct decimal texts. |
| Json.JsObject.Set | lib/attempt.js:99-101 | The object's members become `Put(old members, k, v)`. |
| Json.JsObject.Delete | lib/attempt.js:90-93 | The object's members become `Remove(old members, k)`. |
| JsonText.StringifyInjective | lib/attempt.js:94 | On `undefined`-free values, the serialisations are equal if and only if the values are equal. |
| JsonText.Stringify | lib/attempt.js:94 | `JSON.stringify`: members holding `undefined` are skipped and `undefined` array elements print as `null`. It has no contract of its own; `StringifyInjective` states that it tells `undefined`-free values apart. |
| JsonText.StringifyClone | lib/utils.js:7-9 | Serialising a JSON round trip gives the same text as serialising the original, so `clone` is invisible to a comparison by serialisation. It stands on its own: the no-op proof of `update` (`NoWriteIffSame`) goes through `CloneMembersOfJson` instead. |
| Strip.StrippedMembersSpec | lib/strip.js:5-15 | `_rev` and `rev` are gone. A truthy `id` moves to `_id`; otherwise `_id` and `id` stay as they were. Every other key keeps its value. |
| Strip.StrippedMembers | lib/strip.js:7-12 | What `singleDoc` leaves of an object's members. It has no contract of its own; `StrippedMembersSpec` and `StrippedMembersIdempotent` state its properties. |
| Strip.Stripped | lib/strip.js:6 | Only objects are stripped; every other value comes back as it is. |
| Strip.StrippedAll | lib/strip.js:1-3 | Same length as the input, each element stripped in its own position. |
| Strip.StrippedMembersIdempotent | lib/strip.js:5-15 | Stripping a stripped document changes nothing. |
| Strip.StrippedIdempotent | lib/strip.js:5-15 | Stripping any value twice is the same as stripping it once. |
| Strip.StripExample | test/strip.js:41-53 | `{id: 'a', rev: 'b', property: 'c'}` becomes `{property: 'c', _id: 'a'}`. |
| Strip.SingleDoc | lib/strip.js:5-15 | Changes the object in place to its stripped members and returns the same object. |
| Strip.ArrayOfDocs | lib/strip.js:1-3 | Every element is stripped in place, even one that occurs twice. The same objects come back in the same order. |
| Strip.StripNext | lib/strip.js:2 | Stripping the next element in place keeps every element either stripped once, if it has been visited, or as it was. |
| Attempt.DeleteDecision | lib/attempt.js:13-26 | After the fetch, `del` either fails or deletes; it never skips the write. |
| Attempt.UpdateDecision | lib/attempt.js:66-101 | After the fetch, `update` either skips the write or posts; it never fails before posting. |
| Attempt.Overlay | lib/attempt.js:79-81 | The `for...in` merge of the caller's members onto the stored ones. It has no contract of its own; `OverlayGet`, `OverlayKeys` and `OverlayKeepsJson` state its properties. |
| Attempt.Merged | lib/attempt.js:77-87 | The effective document: `Overlay` when merging, the caller's clone otherwise. It has no contract of its own; `MergeBody` and `NoWriteIffSame` state what follows from it. |
| Attempt.RunAttempt | lib/attempt.js:7-155 | One attempt of `fetchAndDelete`, `fetchAndUpdate` or `doInsert` against the scripted replies. It has no contract of its own; `AttemptSends`, `DeleteUsesFetchedRev` and the methods `FetchAndDelete`, `FetchAndUpdate` and `DoInsert` state its properties. |
| Attempt.RetryFrom | lib/attempt.js:37-48 | `async.retry` with three attempts, continued from a given attempt. It has no contract of its own; `RetryFromShape`, `RetryUnrolled` and `AtMostThreeAttempts` state its properties. |
| Attempt.Perform | lib/attempt.js:120-131 | An operation run under the retry from its first attempt. It has no contract of its own; `AtMostThreeAttempts` and the methods `Del`, `Update` and `Insert` state its properties. |
| Attempt.WriteOutcome | lib/attempt.js:14-17 | A missing response, or a status of 0, counts as 500. A write succeeds exactly when it got a response with a non-zero status below 400. A failure reports that status. |
| Attempt.DeleteAfterFailedFetch | lib/attempt.js:13-17 | A fetch that failed or returned at least 400 ends the attempt with its status and sends no delete. |
| Attempt.DeleteUsesFetchedRev | lib/attempt.js:19-31 | After a successful fetch, the delete carries the `_rev` just fetched. The attempt's result is the delete's result. |
| Attempt.UpdateAfterFailedFetch | lib/attempt.js:70-108 | Without a response below 300, `update` posts the caller's clone with `_id` set, keeps the caller's own `_rev`, and ignores the reply body. |
| Attempt.RemoveKeepsJson | lib/attempt.js:90-93 | Deleting a member keeps an object `undefined`-free. |
| Attempt.PutKeepsJson | lib/attempt.js:80 | Assigning an `undefined`-free value keeps an object `undefined`-free. |
| Attempt.OverlayKeepsJson | lib/attempt.js:79-81 | Merging `undefined`-free members into an `undefined`-free document keeps it `undefined`-free. |
| Attempt.NoWriteIffSame | lib/attempt.js:89-96 | After a successful fetch, the update is skipped if and only if the compared document equals the stored one once both lose `_id` and `_rev`. Both directions are proved; member order counts. |
| Attempt.UpdateUsesFetchedRev | lib/attempt.js:74-101 | A post after a successful fetch carries the `_rev` fetched in the same attempt and the caller's id. Its keys are the compared document's keys followed by `_rev` and `_id`. |
| Attempt.UpdateWritesWhenChanged | lib/attempt.js:89-101 | When the documents differ, the body posted is the compared document followed by the fetched `_rev` and the id. |
| Attempt.UpdateSkippedExample | test/attempt.js:114-122 | Updating `{a: 1, b: 2}` over the stored `{_id, _rev, a: 1, b: 2}` sends only the fetch and succeeds. |
| Attempt.MergeExample | test/attempt.js:180-190 | Merging `{c: z}` into the stored `{_id, _rev, a: x, b: y}` posts `{a: x, b: y, c: z, _rev, _id}`. |
| Attempt.OverlayGet | lib/attempt.js:79-81 | In a merge, a key reads as the caller's value when the caller has it, and as the stored value otherwise. |
| Attempt.OverlayKeys | lib/attempt.js:79-81 | A merge keeps the stored keys in place and appends only the caller's keys. |
| Attempt.MergeBody | lib/attempt.js:77-101 | The body a merging update posts has the fetched `_rev` and the id. Any other key holds the caller's value if the caller has that key, and the stored value otherwise. |
| Attempt.RetryFromShape | lib/attempt.js:37-41 | The retry makes between 1 and 3 attempts. Failed attempt i is followed by a pause of 50·2^i ms. A rejection happens only after the third attempt. |
| Attempt.AttemptSends | lib/attempt.js:7-35 | Each attempt sends one or two requests. |
| Attempt.RetryUnrolled | lib/attempt.js:37-48 | The operation resolves at the first attempt that succeeds, after pauses of 100 and then 200 ms. Otherwise it is rejected with the third attempt's status. Each attempt consumes the replies the earlier ones left. |
| Attempt.AtMostThreeAttempts | lib/attempt.js:120-131 | Every operation makes 1 to 3 attempts and sends at most six requests. Its pauses are a prefix of `[100, 200]`. A rejection means three attempts. |
| Attempt.DeleteMissing | test/attempt.js:77-89 | Deleting a document that is missing three times sends three fetches and no delete, and is rejected with 404. |
| Attempt.DeleteAfterConflict | test/attempt.js:29-40 | After a 409 on the first delete, the second delete carries the revision from the second fetch, and the operation resolves. |
| Attempt.InsertRetriesOnTooMany | test/attempt.js:215-226 | Two 429 replies and then a 200 give three identical PUTs of the clone, pauses of 100 and 200 ms, and a resolved operation. |
| Attempt.Store.Send | lib/attempt.js:13 | A request is logged and is answered by the next scripted reply; an exhausted script gives no response. |
| Attempt.FetchAndDelete | lib/attempt.js:7-35 | One attempt of `del` on the store: its result, its requests and the replies left are those of `RunAttempt`. |
| Attempt.OverlayInto | lib/attempt.js:79-81 | The `for (var i in t) data[i] = t[i]` loop leaves the object equal to `Overlay(old, t)`. |
| Attempt.DecideUpdate | lib/attempt.js:68-101 | The in-place deletes, the comparison and the assignments on the clone decide exactly what `UpdateDecision` decides. |
| Attempt.FetchAndUpdate | lib/attempt.js:58-118 | One attempt of `update` on a fresh clone equals `RunAttempt`. |
| Attempt.DoInsert | lib/attempt.js:139-155 | One attempt of `insert` equals `RunAttempt`. |
| Attempt.Retry | lib/attempt.js:37-48 | The retry loop on the store yields `Perform`'s outcome, requests, remaining replies and pauses. |
| Attempt.RetryAdvances | lib/attempt.js:37-41 | After a failed attempt that is not the last, the rest of the run is the retry from the next attempt, after one pause. |
| Attempt.RetryEnds | lib/attempt.js:42-48 | A success, or a failure at the third attempt, settles the run with that attempt's result. |
| Attempt.Del | lib/attempt.js:4-50 | `del` on the store settles as `Perform(DelOp)` does, with the same requests. |
| Attempt.Update | lib/attempt.js:52-133 | `update` sets the caller's `_id` in place and then settles as `Perform(UpdateOp)` does. |
| Attempt.Insert | lib/attempt.js:136-170 | `insert` settles as `Perform(InsertOp)` does. |
| Bulk.Batches | lib/bulk.js:44-48 | The do/while always queues at least one batch. No batch has more than 500 documents, and every batch but the last has exactly 500. For non-empty input, no batch is empty. |
| Bulk.BatchesCover | lib/bulk.js:44-48 | The batches concatenated give back the documents, in order. |
| Bulk.BatchCount | lib/bulk.js:44-48 | Empty input gives one empty batch. Otherwise there are ⌈n/500⌉ batches. |
| Bulk.EmptyInputOneBatch | lib/bulk.js:44-48 | Importing `[]` posts a single empty batch. |
| Bulk.ManyDocsBatches | test/db.js:389-418 | 750 documents go out as the first 500 and then the last 250. |
| Bulk.EntriesCountSpec | lib/bulk.js:16-25 | A reply can be counted exactly when no entry is `null`/`undefined`. Then `ok + failed` is the number of entries. `ok` equals that number exactly when every entry has a truthy `id` and `rev`, and is 0 exactly when none has. The exact split is `EntriesCountIsOkCount`. |
| Bulk.EntriesCountIsOkCount | lib/bulk.js:16-25 | A counted reply has `ok` equal to the number of entries with a truthy `id` and `rev`, and `failed` equal to the number of the other entries. |
| Bulk.Worker | lib/bulk.js:13-33 | One worker posts its batch and consumes one reply. A failed request counts every document of the batch as failed; otherwise it counts the reply's entries, or throws on an unreadable entry. |
| Bulk.Drain | lib/bulk.js:13-41 | A drain that settles has posted every batch. A non-empty queue posts at least one batch. |
| Bulk.Import | lib/bulk.js:36-50 | `importArray`'s promise: the batches of the input drained against the replies. It has no contract of its own; `DrainIsTotal`, `DrainCountsAll` and the method `ImportArray` state its properties. |
| Bulk.DrainIsTotal | lib/bulk.js:26-41 | The drained totals are the sums of the per-batch counts over every batch and its reply. |
| Bulk.TotalAppend | lib/bulk.js:26-27 | Totals over two runs of completions add up. |
| Bulk.PlusAssociative | lib/bulk.js:26-27 | Adding counts is associative. |
| Bulk.TotalOrderFree | lib/bulk.js:8-13 | Two completion orders of the same batch-reply pairs give the same totals, whatever order the parallel workers finish in. |
| Bulk.DrainCountsAll | lib/bulk.js:26-30 | When every reply can be counted and has one entry per document, the import settles with `success + failed` equal to the number of documents. |
| Bulk.MixedReplyExample | test/db.js:361-373 | One accepted and one refused entry give `{success: 1, failed: 1}` from a single post. |
| Bulk.FailedRequestExample | test/db.js:375-387 | A failed bulk request for two documents gives `{success: 0, failed: 2}`. |
| Bulk.ManyDocsExample | test/db.js:389-418 | 750 documents, all accepted, give `{success: 750, failed: 0}` from two posts. |
| Bulk.JsArray.SpliceFront | lib/bulk.js:45-46 | `splice(0, min(length, size))` returns the front of the array and leaves the rest. |
| Bulk.BulkStore.Bulk | lib/bulk.js:14 | A batch is recorded and is answered by the next scripted reply; an exhausted script gives an error. |
| Bulk.CountEntries | lib/bulk.js:16-25 | The `for` loop over a reply throws exactly when `EntriesCount` has no count. Otherwise it returns that count. |
| Bulk.QueueBatches | lib/bulk.js:44-48 | The do/while queues exactly `Batches(docs)` and leaves the caller's array empty. |
| Bulk.ImportArray | lib/bulk.js:4-53 | The caller's array ends up empty. The outcome and the remaining replies are `Import`'s. The store received the first `posted` batches in order. |
| Bulk.DrainQueue | lib/bulk.js:13-41 | The worker loop over the queue yields `Drain`'s outcome and remaining replies, and posts the first `posted` batches in order. |
| Bulk.ResumeStep | lib/bulk.js:26-30 | Posting the next batch either throws or adds that batch's counts to the running totals, and the rest of the queue drains from the next reply. |
| Utils.IsArrayExamples | test/utils.js:11-27 | Every array is an array. Objects, booleans, numbers, `undefined`, `null` and strings are not. |
| Utils.RowCaseOf | lib/utils.js:18-24 | A row throws exactly when it is `null`/`undefined`, or when it has a truthy `doc` whose `_id` is not a string while design documents are filtered. A kept row is its truthy `doc`. With filtering, a kept `_id` never starts with `_`. Without filtering, a row is kept exactly when its `doc` is truthy. |
| Utils.KeptDocsSpec | lib/utils.js:17-24 | The loop throws exactly when some row throws. Otherwise every kept row's `doc` is collected, and nothing else. |
| Utils.KeptDocsOne | lib/utils.js:18-24 | A single row throws, is skipped, or contributes exactly its `doc`, as `RowCaseOf` decides. |
| Utils.KeptDocsAppend | lib/utils.js:17-24 | Rows `a + b` give the documents kept from `a` followed by those kept from `b`, and throw when either part throws. With `KeptDocsOne`, the result is one `doc` per kept row, in row order. |
| Utils.Formatted | lib/utils.js:11-29 | `formatOutput` as a value. It has no contract of its own; `FormatList`, `FormatRows` and `FormatSingle` state its properties. |
| Utils.FormatList | lib/utils.js:12-15 | An array, or an object whose `docs` is an array, gives its elements stripped, in order. |
| Utils.FormatRows | lib/utils.js:16-25 | A `rows` answer gives the stripped documents of the kept rows, in row order (`KeptDocs`). With filtering, no kept document's `_id` started with `_` before stripping. |
| Utils.FormatSingle | lib/utils.js:26-27 | Anything else is stripped as a single document, and `null`/`undefined` throws. |
| Utils.FormatExample | test/utils.js:29-41 | Two documents lose their `_rev` and keep `_id` and `property`. |
| Utils.KeepDocs | lib/utils.js:17-24 | The `forEach` loop computes `KeptDocs`. |
| Utils.FormatOutput | lib/utils.js:11-29 | `formatOutput` computes `Formatted`. |
| Utils.EnhanceShape | lib/utils.js:31-39 | Only non-array objects gain `mean`, `variance` and `stddev`, computed from `sum`, `count` and `sumsqr`. Every other member keeps its value, and other values come back as they are. |
| Utils.EnhanceIdempotent | lib/utils.js:31-39 | Enhancing twice is the same as enhancing once. |
| Utils.Enhance | lib/utils.js:31-39 | `enhance`, with the statistics abstracted as `derive`. It has no contract of its own; `EnhanceShape` and `EnhanceIdempotent` state its properties. |
| Utils.Elem | lib/utils.js:47 | Indexing a row's value throws exactly when the value is `null`/`undefined`. |
| Utils.Fielded | lib/utils.js:44-49 | Building the record throws exactly when some field is read from a `null`/`undefined` value. |
| Utils.FieldedKeys | lib/utils.js:45-49 | The record's keys are exactly the field names. |
| Utils.FieldedValues | lib/utils.js:47-48 | Each field holds the transformed element at its position; for a repeated name, the last position wins. |
| Utils.ObjectifyShape | lib/utils.js:41-56 | With more than one field, the value becomes that record. Otherwise the value is enhanced. The row's other members are untouched, and only splitting a `null`/`undefined` value throws. |
| Utils.Objectified | lib/utils.js:41-56 | `objectify`'s new row as a value. It has no contract of its own; `ObjectifyShape` states its properties. |
| Utils.Objectify | lib/utils.js:41-56 | The in-place `objectify` leaves the row equal to `Objectified`, and leaves it unchanged when it throws. |
| Utils.KeyText | lib/utils.js:70-77 | A key names a member exactly when it is not `null`/`undefined`. A string names itself, and an array is joined with `/`. |
| Utils.KeyTextCollisions | lib/utils.js:70-77 | `['a/b']` and `['a', 'b']` give the same name, and so do `1` and `'1'`. |
| Utils.RowEntry | lib/utils.js:69-80 | A row that gives an entry is an object, and the entry's name is its key's text. |
| Utils.MapRowsThrows | lib/utils.js:68-81 | The map loop throws exactly when some row's entry throws. |
| Utils.MapRowsKeys | lib/utils.js:80 | The result's keys are exactly the rows' names. |
| Utils.MapRowsValues | lib/utils.js:80 | Each name holds the entry of the last row that has that name. |
| Utils.MapRows | lib/utils.js:67-82 | The `forEach` that fills `retval`. It has no contract of its own; `MapRowsThrows`, `MapRowsKeys` and `MapRowsValues` state its properties. |
| Utils.SimplifyUnchanged | lib/utils.js:85 | An empty array, or anything that is not an array, comes back unchanged. |
| Utils.SimplifySingleNull | lib/utils.js:60-63 | A single row whose key is `null` gives that row's objectified value, and throws exactly when objectify does. |
| Utils.SimplifyMap | lib/utils.js:66-82 | Any other non-empty array gives an object with one member per key name, holding the objectified value of the last row with that name. |
| Utils.SimplifyMapThrows | lib/utils.js:66-82 | That path throws exactly when some row is not an object, has a `null`/`undefined` key, or cannot be objectified. |
| Utils.Simplified | lib/utils.js:58-86 | `simplify` as a value. It has no contract of its own; `SimplifyUnchanged`, `SimplifySingleNull`, `SimplifyMap` and `SimplifyMapThrows` state its properties. |
| Utils.Simplify | lib/utils.js:58-86 | `simplify` computes `Simplified`. |
| Utils.SimplifyRows | lib/utils.js:67-82 | The `forEach` loop computes `MapRows` over all rows. |
| Utils.RowStep | lib/utils.js:69-80 | One iteration of the loop computes `RowEntry`. |

## Left out

- HTTP and `lib/request.js` are not part of this model. The store is a script of replies, one per request. A reply is either no response at all or a status with an object body.
- A successful fetch in `attempt.js` is assumed to return an object body. A bulk reply without an error is assumed to be an array.
- Timers are not modelled. The back-off pauses are recorded as values and never waited for.
- `async.retry` is not part of this model. Its `retryCount` is taken as the number of attempts made so far: 1 before the second attempt and 2 before the third.
- `async.queue` runs five workers at once. The model drains the queue one batch at a time. `Bulk.TotalOrderFree` shows that the totals do not depend on the completion order.
- When a reply entry is `null` or `undefined`, the worker throws. Which other batches were already posted then depends on scheduling. The model stops at the batch that throws.
- `bulk.js` assigns `totalfailed` and `failed` without declaring them (lines 9 and 16), so they are globals in sloppy-mode JavaScript. Two imports running at once would share them. The model keeps the counters per call.
- The promise that `importArray` returns never rejects. An import that throws never settles, and is the outcome `Threw`.
- `enhance` does its statistics in floating point, including `Math.sqrt`. The model takes them as a parameter `derive`, and `JNum` holds integers only.
- JavaScript enumerates integer-like member names (such as `"1"`) first, in numeric order, and the other names in insertion order. The model keeps insertion order for every name. So for objects with integer-like names its answers can differ from the source's:
  - `update`'s `for (var i in t)` merge loop (lib/attempt.js:79) visits the caller's members in a different order.
  - `Attempt.UpdateDecision` and `Attempt.NoWriteIffSame`: the no-op test compares `JSON.stringify` texts (lib/attempt.js:94). A caller's `{b: 1, "1": 2}` against a stored `{"1": 2, b: 1}` gives the same text in JavaScript, so `update` skips the write. The model sees different member orders and posts.
  - `Utils.MapRows` and `Utils.Fielded`: the key order of `simplify`'s `retval` (lib/utils.js:80) and of `objectify`'s record (lib/utils.js:48) is insertion order in the model, with integer-like keys not moved first.
- `formatOutput` and `simplify` change the caller's rows and values in place. Most of that is modelled on values. Only `objectify`'s row is a mutable `JsObject`.
- `Utils.Objectify`: the assignment `d.value[i] = enhance(d.value[i])` writes into the caller's array, and aliasing of that array is not modelled. Only the resulting `val` record is.
- `Utils.Objectified`: `field` is taken as a list of strings. A `field` given as a single string, or holding non-strings, is not modelled.
- `simplify`'s `operation` argument is never read by the library, so it is not modelled.
- `Strip.ArrayOfDocs` takes objects only. The value-level `Strip.StrippedAll` covers any element.
- `lib/sha1.js`, `lib/ddoc.js`, `lib/db.js`, `lib/collection.js` and `index.js` are not part of this model.
