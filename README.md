# ApplyEdits edit batch, modelled in Dafny

This project models the edit-batch builder `ApplyEdits` of
`src/model/apply-edits/index.js`. A batch belongs to one feature layer and
one schema. It gathers three ordered lists: records to add, records to
update and identifiers to delete. It also holds a flag that selects the
identifier regime, global IDs (the default) or object IDs.
`add`, `update` and `delete` push the parser output onto their own list and
return the batch, so calls can be chained. `useGlobalIds` and
`useObjectIds` set the flag. `handle()` previews the batch. `exec()` renders
the delete list, builds the `query` record and posts it to the layer's
`applyEdits` endpoint.

Files:
- `wrappers.dfy` (module `Wrappers`): `Option` stands for JavaScript `null`;
  `Result` stands for a call that returns or throws.
- `string_join.dfy` (module `StringJoin`): `Join` is `Array.prototype.join`
  with a one-character separator. `Split` is the reader of such a list (what
  `String.prototype.split` does), proved to be its inverse.
- `edit_batch.dfy` (module `EditBatch`): the data model, the class
  `ApplyEdits` with its fields updated in place, and the two pure parts of
  the class: the `handle()` preview and the `exec()` query.
- `edit_batch_properties.dfy` (module `EditBatchProperties`): lemmas that
  relate several operations, and client methods that chain the batch's
  operations, one of them on a sample batch.

The functions the class calls but does not define are not modelled. They
are passed to the constructor as one `Collaborators` value, kept in the
constant field `env`:
- the three parsers `parseCreate`, `parseUpdate` and `parseDelete`;
- `JSON.stringify` on a list of records;
- the template-string conversion `${id}` of one identifier.

A parser returns either the parsed list or a `ValidationError`. In the
source, a parser that throws does so before `push` runs, so the batch is
left unchanged. The model states this. Records, identifiers, schemas and
layer ids are opaque types.

Two facts of the source that the model keeps:
- the preview exposes the feature layer's `serviceUrl`, `name` and `id`, not
  its `url`;
- nothing in the class makes a batch single-use. No terminal state exists
  after `exec()`, and the model adds none.

## Model

| member | source | states |
|---|---|---|
| `EditBatch.ApplyEdits.constructor` | src/model/apply-edits/index.js:46-53 | a new batch keeps the layer and schema it was given, has empty `adds`, `updates` and `deletes`, and uses global IDs |
| `EditBatch.ApplyEdits.Add` | src/model/apply-edits/index.js:55-58 | on a successful parse, `adds` becomes the old `adds` followed by the parsed records and the batch itself is returned; on a rejected parse, `adds` is unchanged and the error is passed on; `updates`, `deletes` and the flag never change |
| `EditBatch.ApplyEdits.Update` | src/model/apply-edits/index.js:60-63 | the same for `updates`, parsed by `parseUpdate` with the batch's schema; the other lists and the flag are unchanged |
| `EditBatch.ApplyEdits.Delete` | src/model/apply-edits/index.js:65-68 | the same for `deletes`, parsed by `parseDelete`; the other lists and the flag are unchanged |
| `EditBatch.ApplyEdits.UseGlobalIds` | src/model/apply-edits/index.js:70-73 | sets the flag to true, leaves all three lists unchanged, returns the batch |
| `EditBatch.ApplyEdits.UseObjectIds` | src/model/apply-edits/index.js:75-78 | sets the flag to false, leaves all three lists unchanged, returns the batch |
| `EditBatch.ApplyEdits.Handle` | src/model/apply-edits/index.js:80-91 | the preview carries the layer's service URL, name and id, and each list is absent exactly when it is empty; reading the batch cannot change it |
| `EditBatch.ApplyEdits.DeleteIds` | src/model/apply-edits/index.js:94-101 | `deleteIds` is absent exactly when no deletes are pending, and is otherwise the comma-join of the per-identifier renderings under the current regime |
| `EditBatch.ApplyEdits.ExecQuery` | src/model/apply-edits/index.js:93-110 | the posted query has `f = "json"`, `rollbackOnFailure = false` and `useGlobalIds` equal to the current flag; `adds` and `updates` are absent exactly when empty and are otherwise their serialisation; `deletes` is `deleteIds` |
| `EditBatch.NonEmpty` | src/model/apply-edits/index.js:86-88 | `xs.length ? xs : null` is absent exactly when the list is empty and is otherwise the list itself |
| `EditBatch.Quote` | src/model/apply-edits/index.js:97 | the template `"${id}"` gives the text between two double quotes: two characters longer, a quote first and last, and the text itself in between |
| `EditBatch.RenderId` | src/model/apply-edits/index.js:96-100 | one identifier's rendering is its text wrapped in double quotes under global IDs, and its bare text under object IDs |
| `EditBatch.RenderIds` | src/model/apply-edits/index.js:96-100 | the mapped list has one entry per identifier, in order: the shown identifier wrapped in double quotes under global IDs, and bare under object IDs |
| `EditBatch.RenderDeletes` | src/model/apply-edits/index.js:94-101 | absent exactly when no identifiers are pending; otherwise the comma-join of the renderings |
| `EditBatch.PreviewFor` | src/model/apply-edits/index.js:81-90 | the `handle()` object: layer fields copied, and each payload list absent exactly when empty and otherwise the list unchanged |
| `EditBatch.QueryFor` | src/model/apply-edits/index.js:103-110 | the `query` record: fixed `f` and `rollbackOnFailure`, the flag passed through, `adds`/`updates` absent exactly when empty and otherwise serialised, `deletes` rendered |
| `StringJoin.Join` | src/model/apply-edits/index.js:97-99 | `.join(',')`: the empty list joins to the empty string, a single part to itself, and a non-empty list to all its characters plus one separator fewer than there are parts |
| `StringJoin.JoinAppend` | src/model/apply-edits/index.js:97-99 | joining two non-empty lists one after the other gives the first join, one separator, then the second join: the join keeps the parts in order |
| `StringJoin.Split` | src/model/apply-edits/index.js:97-99 | the reader, or inverse, of the join (nothing in the source splits): it gives at least one piece, and no piece contains the separator |
| `StringJoin.SplitJoin` | src/model/apply-edits/index.js:97-99 | splitting a join gives back the parts, when no part contains the separator |
| `StringJoin.JoinSplit` | src/model/apply-edits/index.js:97-99 | a lemma about the reader `Split`, not about source code: joining the pieces of any string gives the string back, so the reader loses nothing |
| `EditBatchProperties.DeleteListSplitsIntoRenderings` | src/model/apply-edits/index.js:94-101 | when no identifier's text contains a comma, the delete list splits into exactly one piece per identifier, in order; every piece is quoted under global IDs and every piece is bare under object IDs |
| `EditBatchProperties.DeleteListRoundTrip` | src/model/apply-edits/index.js:94-101 | reading the delete list back under the same regime gives exactly the text of each identifier, in order |
| `EditBatchProperties.SuccessiveDeletesRenderInOrder` | src/model/apply-edits/index.js:94-101 | identifiers from two `delete` calls render as the first call's list, a comma, then the second call's list |
| `EditBatchProperties.QuotedRenderingSample` | src/model/apply-edits/index.js:97 | under global IDs, identifiers shown as 1, 2, 3 render as `"1","2","3"` |
| `EditBatchProperties.BareRenderingSample` | src/model/apply-edits/index.js:99 | under object IDs, identifiers shown as 1, 2, 3 render as `1,2,3` |
| `EditBatchProperties.DeleteRenderingSample` | src/model/apply-edits/index.js:96-100 | identifiers shown as 1, 2, 3 render as `"1","2","3"` under global IDs and as `1,2,3` under object IDs |
| `EditBatchProperties.EmptyBatchSendsNoPayload` | src/model/apply-edits/index.js:103-110 | with nothing gathered, the query has no `adds`, `updates` or `deletes`, and neither does the preview |
| `EditBatchProperties.QueryAgreesWithPreview` | src/model/apply-edits/index.js:80-110 | a payload is in the query exactly when it is in the preview, as the serialisation or rendering of the previewed list |
| `EditBatchProperties.AddTwiceInCallOrder` | src/model/apply-edits/index.js:55-58 | two successful `add` calls leave both parsed lists in `adds` in call order, and nothing else changes |
| `EditBatchProperties.RejectedUpdateKeepsBatch` | src/model/apply-edits/index.js:60-63 | a rejected `update` passes the parser's error on and leaves every list and the flag as they were |
| `EditBatchProperties.RegimeTogglesAreIdempotent` | src/model/apply-edits/index.js:70-78 | selecting a regime twice has the same effect as selecting it once, and only the flag changes |
| `EditBatchProperties.SampleBatchQuery` | src/model/apply-edits/index.js:46-110 | the sample batch (one add, one update, deletes of 7 and 8, global IDs) sends one serialised list per kind, `"7","8"` as deletes, `useGlobalIds = true` and `rollbackOnFailure = false` |

## Left out

- `deleteWhere` (src/model/apply-edits/index.js:30-44): it only makes a network request and maps the result with a function from another file.
- The `requestWithRetry` call of `exec()` (src/model/apply-edits/index.js:112-116): network I/O with a retry policy, and asynchronous. The request URL and options are not modelled.
- Decomposing the response with `processResults` and `processResultsOIDs` (src/model/apply-edits/index.js:118-126): that code is in `./process-results`, and process-results is not part of this model. The missing-`data` case arises only after the network call.
- The bodies of `parseCreate`, `parseUpdate` and `parseDelete` (parse-create, parse-update and parse-delete are not part of this model), `JSON.stringify`, and the number/string-to-string conversion: these are foreign code, kept as function values. The parsers may fail. Beyond that, the round-trip lemmas assume only that no identifier's text contains a comma.
- `Collaborators.stringify` and `Collaborators.show` are modelled as total, deterministic functions. Their throws are not modelled: `JSON.stringify` throws on a cyclic record or a BigInt, and `${id}` throws on a Symbol (src/model/apply-edits/index.js:97-108). In the source, such a throw rejects `exec()` before any request is made, while `QueryFor`, `DeleteIds` and `ExecQuery` always give a query.
- Aliasing: `handle()` returns the batch's own arrays, so a later `add` is visible through an earlier preview. The model returns values, so it does not show this.
- The argument-count limit of `push(...list)` on very large lists: an engine limit, not part of the batch's logic.
