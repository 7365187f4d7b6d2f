# PosthogHandler and upper_symbol, modelled in Dafny

This project models two small pieces of the OpenBB code base and proves properties of them.

1. **The PosthogHandler log sink** of the OpenBB SDK (module `Posthog`, `posthog_handler.dfy`).
   The handler writes log records to the PostHog analytics service. Its source is not part of this model. Its behaviour is taken from its test file:
   - `log_to_dict` turns a log line into a one-entry mapping. A line `LABEL: <json>` becomes `{LABEL: decoded json}`. Any other line is decoded whole and filed under `"SDK"`.
   - `extract_log_extra` returns nine session fields from the logging settings, with camelCase keys.
   - `emit` calls `send(record=record)` exactly once. If `send` raises (the tests raise `Exception`, `ValueError` and `TypeError`), `emit` calls `handleError(record)` exactly once and returns normally. The model catches every error kind; that goes beyond the tests and is the model's choice.

   The handler is a class `PosthogHandler`. Its fields are the settings, a replaceable transport, and ghost logs of every call made to `send` and `handleError`. The tests replace `send` itself with a mock. The model splits that mock into the recorded call (`Send`'s ghost logs) and its outcome (`transport`). Every method keeps `Valid()`: each send call has a recorded outcome. `Reported()` states that `handleError` has been called exactly once for each `send` that raised, in order, and for nothing else. `Emit` keeps `Reported()`, and it can be called on any handler.

2. **`IndexSectorsQueryParams.upper_symbol`** of the OpenBB platform (module `IndexSectors`, `index_sectors.dfy`).
   The validator upper-cases a single symbol string. Given a list or set of symbols, it upper-cases each one and joins them with `","`.

`wrappers.dfy` holds the `Option` and `Result` datatypes both modules use.

Decisions the source leaves open:
- **Label rule.** The tests do not fix how a label is recognised. The bare JSON line `{"INPUT": ...}` contains `": "` too, so splitting at the first `": "` alone would be wrong. The model uses this rule: a label is a non-empty run of ASCII letters, digits and `_`, directly followed by `": "`. No label character is `:`, so the label always ends at the first `": "` (`SplitLabelComplete`). A line starting with `{` is never labelled.
- **JSON decoding** is a parameter, `decode: string -> Option<J>`, standing for a JSON decoder. The model proves which text is handed to it. If that text does not decode, the model returns `Failure(MalformedJson(text))`. The tests never exercise this case, so this policy is the model's own choice (see `Posthog.LogToDict` under "## Left out").
- **`send` failing** means "raises". Here the transport returns `Raised(kind)`, with `kind` one of `Exception`, `ValueError`, `TypeError` or any other named class. Which classes the unseen handler catches is not shown; the model treats every kind alike.
- **A set of symbols** is given as a sequence in its iteration order, because Python does not fix the order in which a set is iterated.

## Model

| member | source | states |
|---|---|---|
| `Posthog.WordPrefixLength` | openbb_sdk/sdk/core/tests/app/logs/handlers/test_posthog_handler.py:169-179 | The result is the length of the longest prefix made only of word characters: every character before it is a word character, and the one at that position (when there is one) is not. |
| `Posthog.SplitLabel` | openbb_sdk/sdk/core/tests/app/logs/handlers/test_posthog_handler.py:168-188 | A split yields a non-empty word label and a body such that the line is exactly label + `": "` + body, with no `:` before the label's end. A line that is empty or does not start with a word character (bare JSON starts with `{`) has no label. |
| `Posthog.SplitLabelComplete` | openbb_sdk/sdk/core/tests/app/logs/handlers/test_posthog_handler.py:168-188 | Every "LABEL: body" with a word label splits back into exactly that label and that body. Together with `SplitLabel`, this makes the split an exact inverse of joining with `": "`. |
| `Posthog.LogToDict` | openbb_sdk/sdk/core/tests/app/logs/handlers/test_posthog_handler.py:165-196 | Every successful result has exactly one key. That key is either `"SDK"` or a label that the message begins with, followed by `": "`. Every failure names a text that does not decode, and that text is a suffix of the message. |
| `Posthog.LogToDictLabelled` | openbb_sdk/sdk/core/tests/app/logs/handlers/test_posthog_handler.py:168-171 | For any word label and any body, "LABEL: body" yields `{LABEL: decode(body)}`. Decode sees exactly the text after the separator. |
| `Posthog.LogToDictBare` | openbb_sdk/sdk/core/tests/app/logs/handlers/test_posthog_handler.py:172-177 | Any line that is not "LABEL: body" for any word label and body yields `{"SDK": decode(line)}`. Decode sees the whole line. This covers bare JSON, plain text and the empty line. Together with `LogToDictLabelled`, it fixes the key of every line. |
| `Posthog.NonWordStartIsBare` | openbb_sdk/sdk/core/tests/app/logs/handlers/test_posthog_handler.py:172-177 | A line whose first character is not a word character (a JSON object starts with `{`) is not "LABEL: body" for any label and body. |
| `Posthog.LogToDictStartup` | openbb_sdk/sdk/core/tests/app/logs/handlers/test_posthog_handler.py:168-171 | The tested STARTUP line is filed under `STARTUP`, with `{"status": "success"}` as the decoded text. |
| `Posthog.LogToDictInput` | openbb_sdk/sdk/core/tests/app/logs/handlers/test_posthog_handler.py:172-177 | The tested bare `{"INPUT": ...}` line contains `": "`, yet it is filed under `"SDK"` with the whole line as the decoded text. |
| `Posthog.LogToDictNull` | openbb_sdk/sdk/core/tests/app/logs/handlers/test_posthog_handler.py:172-177 | The bare JSON line `null` is made only of word characters, yet it has no separator, so it is filed whole under `"SDK"`. |
| `Posthog.LogToDictCmd` | openbb_sdk/sdk/core/tests/app/logs/handlers/test_posthog_handler.py:178-188 | The tested CMD line is filed under `CMD`. Its whole four-field body reaches decode unchanged, so `path`, `known_cmd`, `other_args` and `input` all survive. |
| `Posthog.ExtractLogExtra` | openbb_sdk/sdk/core/tests/app/logs/handlers/test_posthog_handler.py:199-225 | The result has exactly the nine keys appName, appId, sessionId, commitHash, platform, pythonVersion, terminalVersion, branch and userId. No other key appears, so there is no frequency or log-directory key. |
| `Posthog.ExtractLogExtraFields` | openbb_sdk/sdk/core/tests/app/logs/handlers/test_posthog_handler.py:40-53 | Each key maps to its own settings field: appName to app_name, appId to app_id, and so on through userId to user_id. |
| `Posthog.ExtractLogExtraExactly` | openbb_sdk/sdk/core/tests/app/logs/handlers/test_posthog_handler.py:203-216 | Two calls give the same mapping if and only if their settings agree on the nine fields. The record, the log directory and the frequency have no effect. |
| `Posthog.ExtractLogExtraFixture` | openbb_sdk/sdk/core/tests/app/logs/handlers/test_posthog_handler.py:39-53 | The test fixture's settings and record give exactly the expected nine-entry mapping. |
| `Posthog.FailedRecords` | openbb_sdk/sdk/core/tests/app/logs/handlers/test_posthog_handler.py:83-162 | The records whose send raised, in order. There are never more of them than sends, each one was sent, and if no send raised there are none. |
| `Posthog.FailedRecordsAppend` | openbb_sdk/sdk/core/tests/app/logs/handlers/test_posthog_handler.py:83-162 | One more send adds its record to the failed records exactly when it raised, and adds nothing otherwise. |
| `Posthog.PosthogHandler.constructor` | openbb_sdk/sdk/core/tests/app/logs/handlers/test_posthog_handler.py:56-58 | The handler keeps the given settings and transport, has made no calls yet, and satisfies `Valid()` and `Reported()`. |
| `Posthog.PosthogHandler.Send` | openbb_sdk/sdk/core/tests/app/logs/handlers/test_posthog_handler.py:74-80 | One call of the transport with the record. The call and its outcome are appended to the send log, and nothing else changes. |
| `Posthog.PosthogHandler.HandleError` | openbb_sdk/sdk/core/tests/app/logs/handlers/test_posthog_handler.py:98-106 | The record is appended to the handleError log, and nothing else changes. |
| `Posthog.PosthogHandler.Emit` | openbb_sdk/sdk/core/tests/app/logs/handlers/test_posthog_handler.py:61-162 | Send is called exactly once, with the record. HandleError is called exactly once, with the same unmodified record, if and only if that send raised, whatever the error kind. Emit always returns and can be called on any handler. `Valid()` is preserved, and so is `Reported()` when it held before. |
| `Posthog.EmitWithWorkingSend` | openbb_sdk/sdk/core/tests/app/logs/handlers/test_posthog_handler.py:61-80 | With a transport that returns, a fresh handler's emit leads to one send call with the record and no handleError call. |
| `Posthog.EmitWithRaisingSend` | openbb_sdk/sdk/core/tests/app/logs/handlers/test_posthog_handler.py:83-162 | With a transport raising any error kind, emit returns, and both the send log and the handleError log are exactly `[record]`. |
| `IndexSectors.UpperChar` | openbb_platform/platform/provider/openbb_provider/standard_models/index_sectors.py:20 | The result is never a lower-case letter. A lower-case letter becomes the upper-case letter at the same alphabet position. Every other character is kept. |
| `IndexSectors.Upper` | openbb_platform/platform/provider/openbb_provider/standard_models/index_sectors.py:20 | `str.upper` on ASCII keeps the length and upper-cases every character in its place. |
| `IndexSectors.UpperAll` | openbb_platform/platform/provider/openbb_provider/standard_models/index_sectors.py:21 | The list comprehension keeps the count and order of the symbols, and element i of the result is symbol i upper-cased. |
| `IndexSectors.Join` | openbb_platform/platform/provider/openbb_provider/standard_models/index_sectors.py:21 | `",".join` of no parts is the empty string, and of one part is that part. |
| `IndexSectors.Split` | openbb_platform/platform/provider/openbb_provider/standard_models/index_sectors.py:21 | `str.split(",")`, the reference used to read the joined output back, always yields at least one piece. |
| `IndexSectors.UpperSymbol` | openbb_platform/platform/provider/openbb_provider/standard_models/index_sectors.py:16-21 | In both branches the output holds no lower-case ASCII letter. |
| `IndexSectors.JoinNoLower` | openbb_platform/platform/provider/openbb_provider/standard_models/index_sectors.py:21 | Joining parts that hold no lower-case letter gives a string that holds none either. |
| `IndexSectors.UpperConcat` | openbb_platform/platform/provider/openbb_provider/standard_models/index_sectors.py:20-21 | Upper-casing a concatenation is the concatenation of the upper-cased parts. |
| `IndexSectors.UpperSymbolManyIsUpperOfJoin` | openbb_platform/platform/provider/openbb_provider/standard_models/index_sectors.py:19-21 | The collection branch equals upper-casing the comma-joined symbols. So upper-casing each symbol first changes nothing. |
| `IndexSectors.UpperSymbolSingle` | openbb_platform/platform/provider/openbb_provider/standard_models/index_sectors.py:19-20 | For a string input, the output has the input's length, and each character is the upper-case of the input character at the same position. |
| `IndexSectors.UpperSymbolSingleton` | openbb_platform/platform/provider/openbb_provider/standard_models/index_sectors.py:19-21 | A one-element collection gives the same result as that element passed as a plain string. |
| `IndexSectors.UpperSymbolEmpty` | openbb_platform/platform/provider/openbb_provider/standard_models/index_sectors.py:21 | An empty collection gives the empty string. |
| `IndexSectors.UpperIdempotent` | openbb_platform/platform/provider/openbb_provider/standard_models/index_sectors.py:20 | Upper-casing twice is the same as upper-casing once. |
| `IndexSectors.UpperSymbolIdempotent` | openbb_platform/platform/provider/openbb_provider/standard_models/index_sectors.py:19-21 | Passing the output of either branch back in as a string returns that output unchanged. |
| `IndexSectors.SplitNoComma` | openbb_platform/platform/provider/openbb_provider/standard_models/index_sectors.py:21 | A string without a comma splits into exactly itself. |
| `IndexSectors.SplitAfterPiece` | openbb_platform/platform/provider/openbb_provider/standard_models/index_sectors.py:21 | For a comma-free x, splitting x + "," + rest gives x followed by the pieces of rest. |
| `IndexSectors.SplitJoin` | openbb_platform/platform/provider/openbb_provider/standard_models/index_sectors.py:21 | For one or more comma-free parts, splitting their comma-join gives back exactly the parts. |
| `IndexSectors.UpperKeepsCommas` | openbb_platform/platform/provider/openbb_provider/standard_models/index_sectors.py:20 | Upper-casing neither creates nor removes commas. |
| `IndexSectors.SplitUpperSymbol` | openbb_platform/platform/provider/openbb_provider/standard_models/index_sectors.py:21 | When no symbol holds a comma, splitting the output on commas gives back the upper-cased symbols, in order and with the same count. |

## Left out

- The handler's own source file is not part of this model. Its behaviour is the one its tests assert, with the label rule and the decode-failure policy chosen above.
- `Posthog.LogToDict`: if a labelled line's body does not decode, the model returns `Failure(MalformedJson(body))` and does not retry the whole line. An unlabelled line, the empty line included, fails whenever `decode` of the whole line is `None`. No test fixes this policy; it is the model's own choice.
- JSON decoding is a parameter and is not modelled. The lemmas say which text reaches the decoder, not what the decoder makes of it.
- Whatever payload the handler builds for PostHog is not modelled; the tests replace `send` with a mock, so no shown code fixes that payload. The network call to PostHog is not modelled either.
- The hourly batching implied by `frequency` and the log directory are timers and file-system I/O. They appear only as settings fields, which are shown to have no effect on the extra mapping.
- The default behaviour of Python's `logging.Handler.handleError` (printing a traceback) is host framework. Here it is only recorded. The construction of a `logging.LogRecord` is host framework too: a record is five plain fields.
- Concurrent calls of `emit` from several threads are not modelled, because no shown code exercises them.
- `Posthog.PosthogHandler.Send`, `Posthog.PosthogHandler.HandleError`: these keep `Valid()` but do not promise to keep `Reported()`. A direct call of `send` that raises has no matching `handleError` call. `Emit`, the one operation the tests drive, keeps `Reported()`.
- `IndexSectors.UpperChar`: upper-cases ASCII letters only. Python's `str.upper` also maps non-ASCII letters, and some of those change the length (`ß` becomes `SS`). Non-ASCII characters are left unchanged here.
- `IndexSectors.SplitUpperSymbol`: requires at least one symbol. `",".join([])` is `""`, and `"".split(",")` is `[""]`, so the empty collection cannot be recovered by splitting. `UpperSymbolEmpty` gives the actual result for that case.
- Pydantic's `field_validator` machinery around `upper_symbol` is not modelled: when the validator runs and its keyword arguments. Only the function body is.
- `IndexSectorsData` is a schema declaration holding a floating-point weight, with no behaviour to model.
- The integration-test discovery in `openbb_platform/extensions/tests/test_integration_tests_api.py` calls helpers that are not part of this model, and both of its tests are skipped.
