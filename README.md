# aapi request-case synthesis, modelled in Dafny

aapi turns directories of JSON case templates into Postman v2.1.0 collections. This project
models its core: the parser side (`aapi/parser.py`) and the collection emitter (`aapi/creator.py`).

- **Parser side.** It expands each parameter's `true` (valid) and `false` (invalid) value pools
  into deduplicated rows (`create_params`, `same_removal`). It turns GET and POST templates into
  positive and negative request cases (`_parse_get_json_data`, `_parse_post_json_data`,
  `parse_json_data`) and reads `prerequest` script files (`parse_event_data`). It also covers the
  three request-body encodings (`RequestBody.content`) and the static-asset filter
  `FileParser.stop_with`.
- **Collection emitter.** It renders each case as a Postman item: the test script from
  `create_case_events`, the request from `create_request` and `create_body`, and the
  collection events from `create_events`. It then assembles the collection in `create_apis`,
  which deletes the `prerequest` group from the caller's dict in place. The request and the
  collection follow the code as written, including the `'params'` guard of the params step. The
  `'query'` guard that step evidently intends is modelled beside it (`RequestDocCorrected`),
  and only for the comparison under "## Findings".

Modules:

- `Wrappers`: `Option`, `Result`, and the Python exceptions the code raises.
- `Dicts`: insertion-ordered dicts as sequences of pairs. Dict equality ignores order.
- `Strings`: `split`, `join`, `upper` and `endswith`.
- `Json`: the emitted JSON values, plus `json.dumps` of a flat string dict.
- `Requests`: the value model (`RequestType`, `EventScript`, `RequestPre`, the `RequestBody`
  variants, `RequestCase`).
- `Combinator`: `create_params` and `same_removal`.
- `Synthesizer`: the `parse_*` functions.
- `Creator`: `PostmanCreator`.
- `FileParser`: `stop_with`.

The imperative parts are methods. Each one is proved equal to a specification function, and the
properties are proved about those functions:

- the loops of `create_params`, `same_removal` and the two case builders;
- the body encoder's loop;
- the step-by-step assembly in `create_request`, including its params step;
- the in-place `del` of `create_apis`.

Two inputs are parameters rather than sources of their own:

- `random.choice` becomes an injected `Picker` that names the index drawn for each call.
- `datetime.now()` becomes one `stamp` string.

## Model

| member | source | states |
|---|---|---|
| Requests.RequestBody.Content | aapi/parser.py:100-141 | Form data gives its dict unchanged. Url-encoding and raw give text. Raw is `json.dumps` of the data. An empty url-encoded body is the empty string. |
| Json.DumpsIsPrintableAscii | aapi/parser.py:140-141 | A raw body's encoded text is printable ASCII whatever its keys and values hold, as `ensure_ascii` escapes every other character. |
| Combinator.SameRemoval | aapi/parser.py:375-380 | The loop keeps exactly the rows `Dedup` keeps, in input order. |
| Combinator.DedupIsFirstOccurrences | aapi/parser.py:376-380 | `same_removal` keeps the first occurrence of each dict (compared as Python compares dicts) and drops later equal ones. |
| Combinator.DedupNoDuplicates | aapi/parser.py:376-380 | No two rows of the result are equal dicts. |
| Combinator.DedupCovers | aapi/parser.py:376-380 | Every input row has an equal dict in the result. |
| Combinator.CreateParams | aapi/parser.py:382-401 | The nested loops return exactly `Combine`: the pool lookups, one row per (parameter, value) pair in order, then `same_removal`. |
| Combinator.CombineProperties | aapi/parser.py:389-400 | It raises exactly when some parameter lacks the flag's pool. Otherwise the rows are the first occurrences of the generated rows. There are at most as many as the pools have values, no two are equal, every generated row is covered, and each row has exactly the spec's keys, one varied parameter, and every other value drawn from its pool or `''` for an empty pool. |
| Combinator.CombineEmpty | aapi/parser.py:389-401 | An empty parameter spec gives no rows. |
| Synthesizer.ParseGetJsonData | aapi/parser.py:226-270 | The method's loops build exactly `GetCases`. |
| Synthesizer.GetEmptyParams | aapi/parser.py:238-251 | Empty `params` gives one valid GET case with `params={}`, the template's query and headers, no body, and the name `<name>_true_<date>`. |
| Synthesizer.GetCasesShape | aapi/parser.py:253-270 | With non-empty params, the result is an error exactly when one of the two `create_params` calls raises, and it is that call's error. Otherwise the `true` rows' cases come first and then the `false` rows' cases, one per row, in row order. Each carries its row as params, its polarity as `expect_result`, GET, the host, the uri override, the query, the headers and the polarity's name. |
| Synthesizer.ParsePostJsonData | aapi/parser.py:272-310 | The method's loops build exactly `PostCases`. |
| Synthesizer.MakeBodyMode | aapi/parser.py:289-296 | A body object exists exactly for the modes `formdata`, `urlencoded` and `raw`. It carries that mode and the row. |
| Synthesizer.PostCasesShape | aapi/parser.py:284-310 | This is the POST counterpart of `GetCasesShape`. Each case's body is the mode's body over its row, and the method is POST. |
| Synthesizer.PostMissingFields | aapi/parser.py:280-289 | A missing `body` raises `ValueError`, and a missing `data` raises `KeyError('data')`. A missing `mode` raises `KeyError('mode')` only once some row exists: the error order follows the loop. |
| Synthesizer.ParseJsonData | aapi/parser.py:312-330 | The method returns exactly `ParseJson`. |
| Synthesizer.ParseJsonDispatch | aapi/parser.py:320-330 | A missing method raises `ValueError` naming the file. Any method other than GET or POST (after `upper()`) gives `None`. GET and POST give exactly their builder's cases or its error, and a GET template without `params` raises `ValueError`. Every case carries the upper-cased method. |
| Synthesizer.ScenarioGetWithoutParams | aapi/parser.py:234-251 | `{"method": "GET", "params": {}}` gives exactly one case, named `<name>_true_<date>`. |
| Synthesizer.ScenarioUrlEncodedPost | aapi/parser.py:284-310 | A lower-case `post` template with one valid value gives one valid POST case. Its url-encoded body encodes as `a=1`. |
| Synthesizer.ParseEventData | aapi/parser.py:333-347 | Without a `prerequest` or `test` key it raises `ValueError` naming the file. It succeeds exactly when such a key exists and every entry has `type` and `exec`. It gives one hook per entry, in order, named by its key. |
| FileParser.StopWith | aapi/parser.py:413-417 | True exactly when the path ends with one of `.png .ico .gif .css .js /`. |
| FileParser.SkippedExamples | aapi/parser.py:415-417 | `.css` files and directory paths are skipped. Endpoints, `.json` files and `.jsx` files are kept. |
| Creator.CaseEventsDecided | aapi/creator.py:42-56 | The test script depends on the case only through `expect_result`. Its `exec` lines read back, and the third one expects code `1` for a case expected to succeed and `0` otherwise. |
| Creator.CreateEventsReadBack | aapi/creator.py:58-87 | Each emitted event reads back as the hook it came from. Without hooks, the two default events are a `prerequest` one and a `test` one, each with an empty script. |
| Creator.CreateBody | aapi/creator.py:89-126 | The body encoder returns exactly `BodyJson`: the form items, the raw text, or one item per `&`-piece. |
| Creator.EncodePieces | aapi/creator.py:111-126 | The url-encoded loop returns exactly one item per `&`-piece, in order (`UrlItemsOf`). |
| Creator.EncodePiece | aapi/creator.py:113-124 | One piece's item is exactly `UrlItem`. It has `type` `text`, then `key` and `value` when the piece splits on `=` into one or two parts, with an empty value for one part. |
| Creator.FormItemsReadBack | aapi/creator.py:102-107 | The form items read back as the form's fields, in order, and each has `type` `text`. |
| Creator.UrlEncodedReadBack | aapi/creator.py:110-126 | A non-empty url-encoded body whose keys and values hold neither `&` nor `=` reads back as its data. |
| Creator.UrlEncodedEmpty | aapi/creator.py:111-125 | An empty url-encoded body still gives one item, with an empty key and an empty value. |
| Creator.UrlEncodedValueWithEquals | aapi/creator.py:114-125 | A value holding `=` gives an item with only its `type`, which cannot be read back. |
| Creator.CreateRequest | aapi/creator.py:128-174 | The step-by-step assembly returns exactly `RequestDocAsWritten`, the request with the `'params'` guard. |
| Creator.AddParams | aapi/creator.py:164-172 | The params step returns exactly `ParamsStep`: the params extend the stored list when the guard key is present, and otherwise become the list. |
| Creator.RequestDocAsWrittenShape | aapi/creator.py:128-174 | The request fails exactly when the headers are absent or the body cannot be encoded. Otherwise it carries the case's method, headers that read back as the case's, and a `body` under its mode exactly when the case has one. Its url holds `raw` and `path`, plus a `query` list exactly when there is a query or params. That list reads back as the params when there are params, and otherwise as the query. |
| Creator.KeyValuesReadBack | aapi/creator.py:134-137 | The `{key, value}` list built from a dict reads back as that dict, in order. |
| Creator.RequestDocFields | aapi/creator.py:128-174 | For either guard key, the request fails exactly when the headers are absent, the body cannot be encoded or the query step fails. Otherwise it carries the method, the header list and the url from the query step. It has a body keyed by its mode exactly when the case has one. |
| Creator.QueryStepShape | aapi/creator.py:158-172 | The query step adds one `query` entry after `raw`, `host` and `path` exactly when there is a query or params. As written, its list is the params' pairs alone whenever there are params. With the corrected guard, it is the query's pairs followed by the params'. |
| Creator.RequestDocOk | aapi/creator.py:133-156 | With either guard, the request is built exactly when the headers are present and the body (if any) can be encoded. |
| Creator.RequestDocCorrectedShape | aapi/creator.py:128-174 | The request carries the case's method. Its headers read back as the case's. It has a `body` exactly when the case does, keyed by the mode. The url has the raw string and the non-empty path segments. Its `query` exists exactly when the query or the params do, and reads back as the query's pairs followed by the params'. |
| Creator.ParamsProbeNeverHolds | aapi/creator.py:169 | The url object never holds a `params` key. |
| Creator.QueryLostAsWritten | aapi/creator.py:158-172 | With query `{q: 1}` and params `{p: 2}`, the code as written emits only `p`, while the corrected guard emits `q` then `p`. |
| Creator.ApisDocShape | aapi/creator.py:180-200 | The collection is built exactly when the `prerequest` entry can be read and every remaining group can be emitted. It then has one folder per remaining group, those events, and no `prerequest` group. |
| Creator.FoldersShape | aapi/creator.py:190-198 | There is one folder per group, in order, named after the group, with one item per case. The folders exist exactly when every group can be emitted. |
| Creator.CaseItemsShape | aapi/creator.py:192-197 | There is one item per case, in order, named after the case, with an empty response. The items exist exactly when every case can be emitted. |
| Creator.SecondRunUsesDefaultEvents | aapi/creator.py:181-186 | Emitting twice from the same groups dict gives the same folders. The second run uses the default events, because the first deleted `prerequest`. |
| Creator.NonePrerequestFails | aapi/creator.py:181-198 | A `None` under `prerequest` reads as absent (default events) and is not deleted, so the folder step then fails on it. |
| Creator.PostmanCreator.CreateInfo | aapi/creator.py:36-40 | The info block carries the collection's name and the v2.1.0 schema URL. |
| Creator.PostmanCreator.CreateApis | aapi/creator.py:180-200 | The dict is left as `AfterEvents` of its old value (with `prerequest` deleted when it was read), and the result is `ApisDoc` of the old value. |
| Strings.SplitJoin | aapi/creator.py:112 | Splitting an `&`-join gives back its pieces when no piece holds `&`. |
| Strings.PathSegments | aapi/creator.py:148 | The path list of `/a/b` is `[a, b]` when every segment is non-empty and free of `/`, and the path list of `/` is empty. |

## Left out

- Values are modelled as strings. Pool entries, params, query and header values are all
  strings, so `str(v)` is the identity, and a value can never be a nested dict or list.
- Pools are always lists. A pool given as a string would make `for real_v in v` iterate its
  characters, and that is not modelled.
- `Strings.Upper`: upper-cases ASCII letters only. Unicode case mapping is not modelled.
- The time source: one `stamp` stands for every `datetime.now()` call in a run. Cases built in
  different seconds would carry different stamps in the source.
- Random draws: `random.choice` is an injected `Picker`, which fixes the drawn index. The
  properties hold for every picker.
- File input and output: reading case files (`get_all_files`, `json.load`), creating the output
  directory and writing the collection (`_output_url` path choice, `json.dump`) are not modelled.
  `create_apis` returns the collection it would write.
- `create_request_cases` is not modelled: the file walk, the Windows path handling, and the
  `<uri>@<md5>` group keys. `create_apis` takes the resulting groups dict as given, with a group
  holding either cases, `prerequest` hooks or `None`.
- The adapters `Har2Template`, `Har2Postman`, `Json2Template` and `Json2Postman` (the only users
  of `urlparse` and `json.loads`), the `PostmanParser` template helpers and the `do.py` command
  line are not part of this model.
- `Creator.CreateBody`: a form-data body with a `files` key always fails. With string values,
  `.items()` on the file entry raises `AttributeError`. A dict there would instead reach
  `data.remove('files')`, which dicts do not have. So the `file` items this branch is written to
  emit are never produced. The model follows the code and returns the error.
- `Creator.SecondRunUsesDefaultEvents`: the code deletes `prerequest` from the caller's dict,
  so a second run over the same dict writes the default events.
- Exceptions are modelled by their type and the attribute or key involved, not by the full
  message Python prints, except where the source writes the message itself.

## Findings

| source | as written | input that shows it | evidently intended | confidence | as-written member | corrected member |
|---|---|---|---|---|---|---|
| aapi/creator.py:169 | tests `'params' in request_content['url']`, which never holds, so the params list replaces the query list | a case with query `{q: 1}` and params `{p: 2}`: the url query holds only `p=2` | test `'query'` and extend the query list, giving `q=1` then `p=2` | not executed | Creator.QueryLostAsWritten | Creator.RequestDocCorrectedShape |
