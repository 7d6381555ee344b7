# Scoring API validation, retrying store and log analyzer — a Dafny model

This project models three sequential pieces of the repository and proves
properties of them.

- **The scoring API's request engine** (`homework_05/src/api.py`):
  - the field validators and their required/nullable policy;
  - schema aggregation for `online_score` and `clients_interests`, including
    the pair rule of `OnlineScoreRequest`;
  - the `MethodRequest` envelope with its token check (`check_auth`);
  - the module-level `validate_request`, which runs the method schema a
    second time;
  - `method_handler`.

  Request values are a datatype that keeps Python's distinctions: str, int,
  bool, float, None, list, tuple and dict. `isinstance(True, int)` holds for
  it. Uncaught exceptions become a `Crash` outcome. The field objects are
  class attributes whose `_value` outlives a request, so their stored values
  are threaded through every operation as an explicit `State`.
- **The retrying cache client** (`homework_05/src/store.py`, class `Store`):
  `_get_helper`, `get`, `cache_get` and `cache_set`. The Redis client is an
  oracle: a finite sequence of read answers and the result of `set`. Every
  method also returns the calls it made to the client.
- **The log analyzer's pure parts** (`homework_01/src/log_analyzer.py`):
  - choosing the latest `nginx-access-ui.log-*` name, in Python's string
    order, and formatting its date;
  - the URL part of `parse_log_line`, a leftmost-then-lazy regex search with
    `strip()`;
  - the grouping loop of `parse_logs`;
  - the structural part of `create_log_stats`;
  - the early return and merge of `update_config`.

Modules:

| file | module | contents |
|---|---|---|
| wrappers.dfy | Wrappers | `Option`, `Result` |
| pyvalue.dfy | PyValue | Python values, `len`, truthiness, `str(int)` |
| dates.dfy | Dates | strict `%Y%m%d` parsing, day ordinals, the 70-year bound |
| fields.dfy | Fields | field validators, `RequiredNullable.validate`, the field state |
| schemas.dfy | Schemas | field tables, `CommonRequest.validate`, `OnlineScoreRequest.validate` |
| api.dfy | Api | `check_auth`, `MethodRequest`, `validate_request`, `method_handler` |
| service.dfy | Service | `method_handler` on fresh field objects, and what its answers mean |
| field_facts.dfy, schema_facts.dfy, api_facts.dfy, handler_facts.dfy | … | properties of the above |
| store.dfy | Store | the retry loops of `Store` |
| py_order.dfy | PyOrder | Python's `<` on strings |
| py_dict.dfy | PyDict | a dict keyed by request values, with Python's key equality, and the dict comprehension |
| answers.dfy | Answers | which bodies `validate_request` accepts, and what `method_handler` answers them |
| log_names.dfy, log_lines.dfy, log_stats.dfy, log_config.dfy | LogNames, LogLines, LogStats, LogConfig | the log analyzer |
| log_facts.dfy | LogFacts | properties of the log analyzer |

Where the code does something its design promises otherwise, the model
follows the code. For example, `cache_set` reads back at most once, and
field values leak from one request into the next. Both cases are listed
under "Findings".

## Model

| member | source | states |
|---|---|---|
| Fields.Check | homework_05/src/api.py:52-75 | An absent optional field passes. An absent required field fails with "Field <name> is not available". A required field whose value has no `len` raises. A required non-nullable field of length 0 fails with "Field <name> must not be empty". A present `None` of an optional field passes. |
| FieldFacts.CheckPassIff | homework_05/src/api.py:52-75 | A field passes exactly when its presence and length rules hold and the value is `None` or passes the type check. `None` skips the type check. |
| FieldFacts.OptionalAbsentPasses | homework_05/src/api.py:65-69 | A non-required field passes on an empty request. |
| Fields.Commit | homework_05/src/api.py:52-62 | The field's stored value becomes the request's value only on success. Every other field object keeps its value. |
| Fields.CharCheck | homework_05/src/api.py:95-103 | A char field passes exactly for a string or `None`. Otherwise it fails, and never raises. |
| Fields.ArgumentsCheck | homework_05/src/api.py:107-113 | The arguments field passes exactly for a dict. |
| Fields.EmailCheck | homework_05/src/api.py:127-130 | A string passes exactly when it contains "@". A list or tuple passes exactly when it has the element "@", and a dict when it has the key "@". `"@" in` on an int, bool, float or `None` raises. |
| FieldFacts.EmailSamples | homework_05/src/api.py:127-130 | "stupnikovotus.ru" fails and "stupnikov@otus.ru" passes. |
| Fields.PhoneCheck | homework_05/src/api.py:134-154 | A phone passes exactly when it is a str or an int (bools included), and its `str()` is empty or is 11 characters starting with '7'. It never raises. |
| FieldFacts.PhoneSamples | homework_05/src/api.py:134-154 | "79871234123" passes, and "" passes. "19871234" fails with "Phone number length must be 11, but got 8". "89175002040" fails. |
| FieldFacts.PhoneIntAsString | homework_05/src/api.py:134-141 | An int phone is judged exactly as its decimal string. |
| FieldFacts.PhoneAcceptsNonDigits | homework_05/src/api.py:134-154 | There is no digits check: "7abcdefghij" passes. |
| Fields.DateCheck | homework_05/src/api.py:160-179 | A non-string raises, as `strptime` does. A string passes exactly when it parses as `%Y%m%d` and, for a birthday, is not too far in the past. |
| Dates.ParseYmd | homework_05/src/api.py:163-164 | A parsed date is a valid calendar date, and the text is 8 digits whose groups are its year, month and day. Conversely, 8 digits whose groups form a valid date always parse. |
| Dates.TooFarInPastIffDays | homework_05/src/api.py:168-170 | `(now - date).days > 70 * 365.25` holds exactly when `today - ordinal >= 25568`. |
| FieldFacts.DateSamples | homework_05/src/api.py:163-166 | "XXX" and "01.01.2000" do not parse. "20000101" parses to 2000-01-01. |
| FieldFacts.Ordinal1890 | homework_05/src/api.py:164 | 1890-01-01 is day 689944 of the proleptic Gregorian calendar. |
| FieldFacts.Birthday1890 | homework_05/src/api.py:157-179 | Once 25568 days have passed, "18900101" fails as a birthday. It still passes a plain date field, whose `max_diff_days = 0.0` is falsy. |
| FieldFacts.FutureBirthdayPasses | homework_05/src/api.py:168-175 | A birthday on or after today passes. |
| FieldFacts.DateNonStringRaises | homework_05/src/api.py:160-164 | A non-string, non-`None` value of `ClientsInterestsRequest.date` raises. |
| Fields.GenderCheck | homework_05/src/api.py:183-192 | A gender passes exactly for `None` or an int (bools included) in 0..2. |
| FieldFacts.GenderSamples | homework_05/src/api.py:183-192 | -1, 3 and "1" fail. 0, 2 and `True` pass. |
| Fields.FirstNonNumber | homework_05/src/api.py:201-207 | The scan stops at the first non-number, after only numbers. |
| Fields.ClientIdsCheck | homework_05/src/api.py:195-208 | Client ids pass exactly for a non-empty list or tuple of numbers. Bools count as numbers. |
| FieldFacts.ClientIdsEmptyFails | homework_05/src/api.py:72-73 | `client_ids: []` fails with "Field <client_ids> must not be empty". |
| FieldFacts.ClientIdsUnsizedRaises | homework_05/src/api.py:72 | `client_ids: 1` raises in `len()`. |
| FieldFacts.ClientIdsSamples | homework_05/src/api.py:195-208 | A dict fails, and ["1", "2"] fails. [1, 2] passes. |
| Schemas.ValidateFields | homework_05/src/api.py:216-232 | Validation raises exactly when some field raises. Its message is each failing field's message followed by ", ", in table order. Its code is 422 exactly when some field fails. Afterwards each field object holds the request's value if it passed and its old value otherwise. |
| SchemaFacts.JoinFailuresEmptyIff | homework_05/src/api.py:227-232 | The joined message is empty exactly when no field failed. |
| SchemaFacts.ReportShape | homework_05/src/api.py:216-232 | The code is 200 or 422, and the message is empty exactly when the code is 200. |
| SchemaFacts.OtherClassesUnchanged | homework_05/src/api.py:216-232 | Validating one class's fields changes no other class's field objects. |
| SchemaFacts.PassedFieldsStored | homework_05/src/api.py:61-62 | A field that passed holds the request's value afterwards. |
| SchemaFacts.FailedFieldKept | homework_05/src/api.py:52-60 | A field that failed keeps its value from before. |
| SchemaFacts.ValidateFieldsIdempotent | homework_05/src/api.py:216-232 | Validating the same arguments again gives the same report and changes no stored value. |
| SchemaFacts.TablesAlphabetical | homework_05/src/api.py:219-220 | The field tables list fields in the order `inspect.getmembers` visits them, sorted by name. |
| Schemas.ScanPairs | homework_05/src/api.py:261-273 | The pair scan succeeds exactly when some pair has both keys present. |
| Schemas.ValidateOnlineScore | homework_05/src/api.py:254-295 | Without a complete pair, the result is the pair message with 422 and no field is looked at. Otherwise the fields are aggregated. |
| SchemaFacts.PairRuleShortCircuits | homework_05/src/api.py:275-279 | No complete pair gives 422 with the pair message and an unchanged state. |
| SchemaFacts.PairOfNonesPasses | homework_05/src/api.py:261-295 | Key presence alone satisfies the pair rule: `phone: None, email: None` validates to ("", 200). |
| SchemaFacts.PairSamples | homework_05/src/api.py:261-279 | `{}` and a phone alone fail the pair rule. |
| Api.Bind | homework_05/src/api.py:313-316 | Only "online_score" and "clients_interests" have a request class. |
| Api.InterestsOfDescribes | homework_05/src/api.py:241 | The answer is the dict comprehension of the ids to their lookups, under Python's key equality: `1`, `True` and `1.0` are one key. |
| PyDict.FindKey | homework_05/src/api.py:241 | The position of the item whose key equals a value under Python's `==`, or none when no key does. |
| PyDict.Comprehension | homework_05/src/api.py:241 | The comprehension has at most one item per id. |
| PyDict.ComprehensionDescribes | homework_05/src/api.py:241 | The comprehension has exactly one item per class of equal keys, with no two keys equal. Items come in order of first appearance, each spelled as its first key and holding the value paired with its last. |
| PyDict.EqualKeysMerge | homework_05/src/api.py:241 | Keys 1, True, 1.0 and 2 with values "a" to "d" give two items: (1, "c") and (2, "d"). |
| Api.EvaluateMethod | homework_05/src/api.py:361-367 | Evaluation changes no field object. When it answers, the code is 200 with a score or interests. |
| Api.Revalidate | homework_05/src/api.py:384-408 | After the second `validate_method`, any answer that is not text carries 200. |
| ApiFacts.NoFailureAllPass | homework_05/src/api.py:328-336 | An envelope with no raising and no failing field has every field passing. |
| ApiFacts.EnvelopePassShapes | homework_05/src/api.py:307-311 | A passing envelope has string account, login and token, a dict of arguments and a non-empty string method. |
| ApiFacts.EnvelopeStored | homework_05/src/api.py:325-336 | A passing envelope validates to 200 and its field objects hold the body's values. |
| ApiFacts.AuthOnBody | homework_05/src/api.py:370-381 | `Api.CheckAuth` with `Api.ExpectedToken`: after a passing envelope, `check_auth` compares the token with Digest(hour stamp + "42") for the admin and with Digest(account + login + "Otus") otherwise. |
| ApiFacts.ForbiddenIff | homework_05/src/api.py:339-344 | The answer is 403 exactly when every envelope field passed and the token is wrong. A 403 carries "Forbidden" and leaves the method schema's fields untouched. |
| ApiFacts.AuthorizeForbiddenIff | homework_05/src/api.py:339-344 | 403 comes exactly from a passing envelope whose `check_auth` is false, before `validate_method` runs. |
| ApiFacts.EnvelopeKeepsOthers | homework_05/src/api.py:328-336 | Envelope validation changes no method-schema field. |
| ApiFacts.OnlineScoreShape | homework_05/src/api.py:254-295 | An OnlineScore report is ("", 200) or a non-empty message with 422. |
| ApiFacts.MethodReportShape | homework_05/src/api.py:354-359 | `validate_method` answers ("", 200) or a non-empty message with 422. |
| ApiFacts.WithMethodNotForbidden | homework_05/src/api.py:346-352 | After the token check, the code is the envelope's or 422. |
| ApiFacts.EnvelopeFailureIsInvalid | homework_05/src/api.py:334-352 | A failing envelope skips the token check and gives 422, with a message that starts with the envelope failures. |
| ApiFacts.WithMethodKeepsFailure | homework_05/src/api.py:346-352 | A failed envelope's message survives as the prefix of the final message, with 422. |
| ApiFacts.MessageNoneIffOk | homework_05/src/api.py:352 | The code is 200, 403 or 422. The message is `None` exactly when the code is 200. |
| HandlerFacts.ValidateMethodKeepsEnvelope | homework_05/src/api.py:354-359 | `validate_method` changes no envelope field. |
| HandlerFacts.ValidateMethodVerdictDependsOnEnvelope | homework_05/src/api.py:354-359 | `validate_method`'s verdict depends only on the stored method and arguments. |
| HandlerFacts.ValidatedFacts | homework_05/src/api.py:325-352 | A 200 from `validate_request` means every envelope field passed, the token is right, the message is `None`, and the field objects hold the body. |
| HandlerFacts.OnlyValidatedRequestsEvaluate | homework_05/src/api.py:399-408 | A score or interests answer comes only from a request that validated to (None, 200) with a right token, and it carries 200. |
| HandlerFacts.SecondValidationAgrees | homework_05/src/api.py:391-396 | After a 200, the module-level second `validate_method` answers ("", 200) and changes nothing. |
| HandlerFacts.ValidateMethodIdempotent | homework_05/src/api.py:354-359 | Running `validate_method` again gives the same verdict and stores nothing new. |
| HandlerFacts.RejectedRequestsAnswerVerdict | homework_05/src/api.py:391-408 | A non-200 validation is the handler's answer and nothing is evaluated. |
| HandlerFacts.EvaluationState | homework_05/src/api.py:403-406 | A non-text answer is `evaluate_method` on field objects that hold the body. |
| HandlerFacts.FailedEnvelopeAnswer | homework_05/src/api.py:334-352 | A failed envelope is answered with 422 and the envelope failures followed by the method schema's failure. |
| HandlerFacts.FailedEnvelopeVerdict | homework_05/src/api.py:334-352 | The same for `validate_request`, including the state it leaves. |
| HandlerFacts.AuthorizeAfterFailure | homework_05/src/api.py:339-352 | After a failed envelope, the method schema's failure is appended with ", ". |
| HandlerFacts.NoMethodIsInvalid | homework_05/src/api.py:355-356 | With no stored method, `validate_method` answers "Invalid method" with 422. |
| HandlerFacts.StaleOnlineScoreVerdict | homework_05/src/api.py:355-359 | A stored "online_score" with no stored arguments is judged by the pair rule. |
| HandlerFacts.MissingMethodIsInvalid | homework_05/src/api.py:334-356 | When the method field fails and no method is stored, the answer is 422 with the envelope failures followed by "Invalid method, ". |
| HandlerFacts.OkRequestRanMethod | homework_05/src/api.py:325-352 | A 200 from `validate_request` means the envelope loop finished, its first `validate_method` answered 200, and the request leaves the state that `validate_method` left. |
| HandlerFacts.EnvelopeNamesDistinct | homework_05/src/api.py:306-311 | The five `MethodRequest` fields have pairwise different names, so no two share a field object. |
| HandlerFacts.EnvelopeFieldKept | homework_05/src/api.py:52-62 | An envelope field that fails keeps the value an earlier request left. |
| HandlerFacts.EmptyBodyFails | homework_05/src/api.py:65-73 | Every envelope field is required, so an empty body fails each one. |
| HandlerFacts.MethodOnlyLeavesName | homework_05/src/api.py:52-62 | `{"method": "online_score"}` on fresh fields is answered with 422, but its method field keeps "online_score" and arguments stays unset. |
| HandlerFacts.MethodOnlyEnvelope | homework_05/src/api.py:306-311 | On `{"method": "online_score"}` no envelope field raises, some fail, and the method field passes. |
| HandlerFacts.MethodOnlyStoresMethod | homework_05/src/api.py:52-62 | After the envelope loop on that body, the fresh method field holds "online_score". |
| HandlerFacts.MethodOnlyKeepsArguments | homework_05/src/api.py:52-62 | After the envelope loop on that body, the fresh arguments field is still unset. |
| HandlerFacts.StaleMethodVerdict | homework_05/src/api.py:354-359 | An empty body on fields that still hold "online_score" is answered with the pair message. |
| HandlerFacts.StaleMethodLeaks | homework_05/src/api.py:306-311 | After `{"method": "online_score"}`, an empty body gets a different answer from the one it gets on fresh fields. |
| Answers.ValidateFieldsOkIff | homework_05/src/api.py:216-232 | A field loop answers 200 exactly when every field passes, and then its message is empty. |
| Answers.ValidateMethodOkIff | homework_05/src/api.py:354-359 | `Api.ValidateMethod` answers 200 exactly when the arguments read as a mapping and the stored method names "online_score" with a complete pair and passing fields, or "clients_interests" with passing fields. Its message is then empty. |
| Answers.StoredArguments | homework_05/src/api.py:114-117 | Field objects holding a body with dict arguments read those arguments back, and its method. |
| Answers.AcceptedBody | homework_05/src/api.py:325-352 | An acceptable body gets (None, 200) from `validate_request` on any prior field state, and the field objects then hold the body. |
| Answers.OkBodyAcceptable | homework_05/src/api.py:325-352 | A 200 from `validate_request` means the body was acceptable. |
| Answers.ValidRequestIff | homework_05/src/api.py:325-352 | `Api.ValidateRequest` gives (None, 200) exactly for acceptable bodies. Every envelope field passes, the token matches, the arguments are a dict, and the named method's schema passes on them. |
| Answers.AcceptedEvaluates | homework_05/src/api.py:399-408 | `Api.Handle`: an acceptable body passes the second `validate_method` as well. Its answer is `evaluate_method` on field objects holding the body. |
| Answers.AcceptedScoreAnswered | homework_05/src/api.py:297-303 | An acceptable "online_score" body, on any prior field state, is answered with 200. The score is 42 when `is_admin` (`Api.IsAdmin`: the login is "admin") and the scorer's value otherwise. `ctx["has"]` is the argument names. |
| Answers.AcceptedInterestsAnswered | homework_05/src/api.py:238-242 | An acceptable "clients_interests" body whose ids all have interests, on any prior field state, is answered with 200. The answer is the comprehension of the ids to their interests, and `ctx["nclients"]` is the number of ids. |
| Answers.ClientIdsPresent | homework_05/src/api.py:234-236 | `Schemas.ValidateClientsInterests` passing means `client_ids` is present and is a list or tuple. |
| Service.FailedMethodIsInvalid | homework_05/src/api.py:384-408 | `method_handler` on fresh field objects: when the method field fails, the answer is 422 with the envelope failures followed by "Invalid method, ". |
| Service.ScoreRequestAnswered | homework_05/src/api.py:384-408 | On fresh field objects, an acceptable "online_score" body is answered with 200. The score is 42 for the admin and the scorer's value otherwise, and `ctx["has"]` is the argument names. |
| Service.InterestsRequestAnswered | homework_05/src/api.py:384-408 | On fresh field objects, an acceptable "clients_interests" body whose ids all have interests is answered with 200. The answer is the comprehension of the ids to their interests, and `ctx["nclients"]` is the number of ids. |
| Service.ArgumentsOfMapping | homework_05/src/api.py:114-117 | `Api.Arguments` (`ArgumentsField.get_value`): a stored mapping of arguments reads back as itself, and a falsy one as `{}`. |
| Service.ScoreEvaluation | homework_05/src/api.py:297-303 | A score comes from "online_score": 42 for the admin and the scorer's value otherwise, and `ctx["has"]` is the set of argument names. |
| Service.InterestsEvaluation | homework_05/src/api.py:238-242 | Interests come from "clients_interests": every id was looked up, and the answer is the comprehension of the ids to their lookups under Python's key equality. `ctx["nclients"]` is the number of ids, repeats included. |
| Service.InterestsBranch | homework_05/src/api.py:361-367 | An interests answer comes from the "clients_interests" branch: the arguments are a mapping with a sequence of `client_ids`, every lookup returned, and the answer is the comprehension with `ctx["nclients"]` set. |
| Service.ScoreAnswer | homework_05/src/api.py:384-408 | A score answer means the body was acceptable and asked for "online_score" with dict arguments and a right token, and the code is 200. The admin scores 42; anyone else gets the scorer's value on the arguments. `ctx["has"]` is the argument names. |
| Service.InterestsAnswer | homework_05/src/api.py:384-408 | An interests answer means the body was acceptable and asked for "clients_interests" with a right token and a sequence of ids. The answer is the comprehension of the ids to their lookups, with 200 and `ctx["nclients"] = len(ids)`. |
| Store.EqualsZero | homework_05/src/store.py:74 | Python's `result == 0` holds exactly for a number whose value is zero: 0, False or 0.0. |
| Store.FirstHit | homework_05/src/store.py:53-60 | The index of the first non-`None` read among the first `n`, or `n`. |
| Store.GetHelper | homework_05/src/store.py:53-60 | `_get_helper` makes between 1 and retry_count + 1 reads, all of them `get`. It stops at the first non-`None` read and returns it, and returns `None` exactly when all reads were `None`. |
| Store.GetValue | homework_05/src/store.py:62-66 | `get` raises OSError exactly when every read missed. Otherwise it returns the first hit. |
| Store.CacheGet | homework_05/src/store.py:68-69 | `cache_get` returns exactly the helper's result, `None` included, with the same reads. |
| Store.NoneReplyIsMiss | homework_05/src/store.py:53-66 | A `None` reply is a miss: after one, the helper reads again and finds "v", and `get` on a lone `None` raises OSError. |
| Store.CacheSet | homework_05/src/store.py:72-81 | One `set`. A result other than 0 gives True with no read. A result of 0 with retry_count at most 0 still gives True. A result of 0 with retry_count of 1 or more does exactly one read, and returns True when that read is truthy and 0 otherwise. |
| Store.FailedSetReportedAsSuccess | homework_05/src/store.py:72-81 | A failed `set` with retry_count 0 is reported as True. |
| Store.OneVerificationRead | homework_05/src/store.py:75-80 | With retry_count 4 and reads None then "v", `cache_set` stops after one read and returns 0. |
| Store.CacheSetVerified | homework_05/src/store.py:72-81 | The corrected `cache_set` returns True exactly when the set succeeded or one of up to retry_count reads was truthy, and 0 otherwise. A 0 comes after all retry_count reads. |
| Store.VerifiedOnSameInputs | homework_05/src/store.py:72-81 | The corrected `cache_set` returns 0 for a failed `set` with retry_count 0. With retry_count 4 and reads None then "v", it returns True. |
| PyOrder.PyLessIrreflexive | homework_01/src/log_analyzer.py:107 | No string is below itself in Python's order. |
| PyOrder.PyLessTotal | homework_01/src/log_analyzer.py:107 | Of two different strings, exactly one is below the other. |
| PyOrder.PyLessTransitive | homework_01/src/log_analyzer.py:107 | Python's string order is transitive. |
| LogNames.LatestLogName | homework_01/src/log_analyzer.py:102-110 | The pick is "" exactly when no name starts with "nginx-access-ui.log-". Otherwise it is such a name from the listing, and no such name is above it in Python's order. |
| LogNames.FirstDigit | homework_01/src/log_analyzer.py:113 | The position of the first digit. |
| LogNames.RunEnd | homework_01/src/log_analyzer.py:113 | The end of the run of digits starting at a position. |
| LogNames.FirstNumber | homework_01/src/log_analyzer.py:113 | `re.findall(r"\d+", name)[0]` is the first maximal run of digits: non-empty, all digits, starting at the first digit of the name and followed by a non-digit or the end. There is none exactly when the name has no digit. |
| LogNames.Clamped | homework_01/src/log_analyzer.py:116 | Python's clamped slice `s[i:j]`: its length and its characters. |
| LogNames.GreatestLogUnique | homework_01/src/log_analyzer.py:107 | Python's string order is total, so at most one log name has no log name above it. |
| LogNames.LogFileAndDate | homework_01/src/log_analyzer.py:102-118 | No directory, or no log name, gives ("not_found", ""). Otherwise the pick is the greatest log name, dated by its first run of digits as d[:4].d[4:6].d[6:8]. It raises IndexError exactly when the greatest log name has no digit. |
| LogFacts.FormatDateRoundTrip | homework_01/src/log_analyzer.py:113-116 | `LogNames.FormatDate`: removing the dots from the formatted date gives back the first eight digits, for any length of the number: a length other than 8 is only warned about. |
| LogLines.KeywordAt | homework_01/src/log_analyzer.py:127 | Which of GET, POST, HEAD, OPTIONS, PUT starts at a position, and its length. |
| LogLines.LazyEnd | homework_01/src/log_analyzer.py:127 | The nearest "HTTP" at or after a position with no newline before it. No such "HTTP" exists when there is none. |
| LogLines.MatchAt | homework_01/src/log_analyzer.py:127 | A match at a given start has the shortest group, and none exists when `None`. |
| LogLines.Search | homework_01/src/log_analyzer.py:127 | `re.search` finds the leftmost start that matches, with its shortest group. It finds none exactly when nothing matches. |
| LogLines.LeadingSpace | homework_01/src/log_analyzer.py:130 | The number of leading whitespace characters, as `str.isspace` counts them. |
| LogLines.TrailingEnd | homework_01/src/log_analyzer.py:130 | Where the trailing whitespace starts. |
| LogLines.Strip | homework_01/src/log_analyzer.py:130 | `strip()` is no longer than its input and starts and ends with non-whitespace. An all-whitespace string strips to "". |
| LogFacts.StripMiddle | homework_01/src/log_analyzer.py:130 | `strip()` removes only whitespace, and only at the ends. |
| LogLines.LineUrl | homework_01/src/log_analyzer.py:127-132 | The URL is `None` exactly when no keyword…HTTP match exists. |
| LogFacts.NoKeywordNoUrl | homework_01/src/log_analyzer.py:127-132 | A line with no method keyword has no URL. |
| LogFacts.RequestLineMatch | homework_01/src/log_analyzer.py:127 | In "GET /banner HTTP/1.1", the match starts at 0 and the group ends at 12. |
| LogFacts.StripPadded | homework_01/src/log_analyzer.py:130 | The group " /banner " strips to "/banner". |
| LogFacts.RequestLineUrl | homework_01/src/log_analyzer.py:127-130 | "GET /banner HTTP/1.1" has URL "/banner". |
| LogStats.Find | homework_01/src/log_analyzer.py:167 | The position of a key in the grouped data, and it is absent exactly when no position holds it. |
| LogStats.UnseenHasNoTimes | homework_01/src/log_analyzer.py:162-170 | A URL no line had has no times. |
| LogStats.TotalCountAppend | homework_01/src/log_analyzer.py:170 | Appending a time to one group adds one to the total count. |
| LogStats.TotalCountPush | homework_01/src/log_analyzer.py:168 | A new group adds its times to the total count. |
| LogStats.AddEntryRepresents | homework_01/src/log_analyzer.py:164-170 | One loop step keeps the grouped data equal to the grouping of the lines seen so far. |
| LogStats.GroupByUrl | homework_01/src/log_analyzer.py:159-170 | The keys are the distinct URLs in order of first appearance, with unmatched lines under `None`. Each key holds its lines' times in file order, and the total number of times equals the number of lines. |
| LogStats.ParseLogs | homework_01/src/log_analyzer.py:159-170 | The same for lines whose URL is taken by `parse_log_line`. |
| LogStats.LineEntries | homework_01/src/log_analyzer.py:162-164 | Each line is paired with its URL and its time. |
| LogFacts.FirstSeenIff | homework_01/src/log_analyzer.py:167-168 | A URL is a key exactly when some line has it. |
| LogFacts.TimesOfCount | homework_01/src/log_analyzer.py:167-170 | A URL's number of times is the number of its lines. |
| LogStats.Totals | homework_01/src/log_analyzer.py:191-194 | One (url, sum of times) pair per key, in key order. |
| LogStats.InsertDesc | homework_01/src/log_analyzer.py:195 | Inserting into a descending list keeps it descending and adds exactly the element. |
| LogStats.SortDesc | homework_01/src/log_analyzer.py:195 | `sorted(..., reverse=True)` gives a descending permutation. |
| LogStats.SameElements | homework_01/src/log_analyzer.py:195 | A permutation has exactly the elements of its input. |
| LogStats.InsertDescDistinct | homework_01/src/log_analyzer.py:195 | Inserting a URL not yet in a descending list keeps its URLs distinct. |
| LogStats.SortDescDistinct | homework_01/src/log_analyzer.py:195 | Sorting keeps distinct URLs distinct. |
| LogStats.Ranking | homework_01/src/log_analyzer.py:191-195 | The ranking has one pair per key, is descending, names each URL once, and has exactly the (url, sum) pairs of the data. |
| LogStats.ReportedAreLargest | homework_01/src/log_analyzer.py:195-197 | A URL left out of the first `n` of a descending ranking has a sum no greater than each of those `n`. |
| LogStats.RowsFollowRanking | homework_01/src/log_analyzer.py:197-209 | The rows for the first `n` ranked URLs number `n`, come in descending time sum and name distinct URLs. |
| LogStats.RowsAreLargest | homework_01/src/log_analyzer.py:195-209 | A key with no row has a sum no greater than any row's. |
| LogStats.RowsContent | homework_01/src/log_analyzer.py:197-209 | Each row names a key with that key's count and sum. The rows succeed when every group is non-empty and the total time is not 0. |
| LogStats.PrefixLen | homework_01/src/log_analyzer.py:197 | The length of `l[:n]`, including negative `n`. |
| LogStats.Rows | homework_01/src/log_analyzer.py:197-209 | One row per ranked URL with its count and time sum. It fails exactly when some URL has no times or the total time is 0. |
| LogStats.RankedFromData | homework_01/src/log_analyzer.py:191-198 | Each ranked pair names a key and carries the sum of that key's times. |
| LogStats.RankedRows | homework_01/src/log_analyzer.py:195-198 | The same for every pair of the reported prefix. |
| LogStats.CreateLogStats | homework_01/src/log_analyzer.py:186-210 | Empty data gives []. Otherwise there are `len(l[:report_size])` rows, in descending time sum, naming distinct URLs. Each row names a key, with that key's count and sum of times. A key without a row has a sum no greater than any row's. It succeeds when every group is non-empty and the total time is not 0, and fails when the total time is 0 and some row is reported. |
| LogConfig.UpdateConfig | homework_01/src/log_analyzer.py:78-93 | The path is `str(config_path)`, already normalised. A `None` or "unknown" path, a missing file, or a file that is not valid JSON gives the defaults unchanged. Any other failure to open or read the file is raised, and it is the only failure. A decoded object gives the keys of both, with the file's values winning. |

## Left out

- The HTTP layer (`MainHTTPHandler`, JSON wire encoding, the mapping of exceptions to 500), argument parsing, `__main__` and all logging. `Crash` outcomes stand for the exceptions that the HTTP layer would turn into 500.
- `scoring.get_score` and `scoring.get_interests` are not part of this model. They are parameters, and `None` from them stands for an exception.
- SHA-512 is a parameter `digest: string -> string`. `datetime.now()` is a parameter holding the `%Y%m%d%H` hour stamp and today's day number.
- Fields.DateCheck: every string that does not parse gets the "does not match format" message. `strptime` reports "unconverted data remains" or "day is out of range for month" for some inputs, with texts that vary across Python versions, and those texts are not modelled.
- `strptime` is modelled strictly: exactly 8 digits forming a valid date. Python also accepts 1-digit months and days in some inputs, and those are not modelled. Digits are ASCII '0'..'9', while `strptime`'s `%Y` and `%d` also accept other Unicode decimal digits, so a date such as "２０００0101" passes in Python and fails in the model. The clock is a whole day number, so the time of day is not modelled.
- The body is always a mapping of string keys. A JSON body that is a truthy non-object is not modelled. A list such as `[1]` would get 422 with every envelope field failing plus "Invalid method", and a string such as `"account"` would raise TypeError.
- A request is the body dict (`request["body"]`). The outer request wrapper and its `get("body", {})` default are not modelled separately: a missing body behaves as the empty body.
- Dict keys are strings. JSON objects cannot have other keys, and the Python-level behaviour of other keys is not modelled.
- The interests lookup is a pure function of the id. Each id is looked up in order, and an entry keeps the value of the last equal id. Side effects of a lookup on the store are not modelled.
- Api.InterestsOf: Python's key equality is modelled for numbers: bools and integral floats equal their int. Other values are compared structurally. The client-ids check admits only numbers, so no other key reaches the comprehension. Float NaN, which JSON can carry, is not a value of the model.
- Concurrent requests sharing the class-level field objects are not modelled. Requests are sequential, with the state threaded explicitly.
- `RedisClient` and the network are left out. The client is a finite sequence of read answers and one `set` result, and time-outs and connection errors are not modelled.
- The client's read answers are indexed by read number. A read beyond the sequence answers `None`.
- The log analyzer's I/O is left out: directory listing, gzip and file opening, report generation, `main`. The listing is a parameter, `None` when the directory is missing.
- `request_time` parsing and its float conversion are left out: each line's time is a parameter (a real). Mean, median, max, percentages and their `%.3f` formatting are left out. Only the failure of `mean` on an empty group and the division by a zero total time are kept, as `Failure`.
- The failed-line count and its 50% warning in `parse_logs` only log, and are left out.
- CreateLogStats: the order among rows with equal time sums is not stated. Python's sort is stable, but the model only states descending order and a permutation. Time sums are exact reals, while Python adds floats in `sum(data)` and `total_time`. "Descending" and "largest" are therefore proved for exact sums, and URLs whose sums are nearly equal can be ordered differently once rounded.
- FormatDate: its own contract states only the shape for an 8-digit number. The round trip for any length is LogFacts.FormatDateRoundTrip.
- `\d` is modelled as ASCII '0'..'9'. Python's `\d` also matches other Unicode decimal digits.
- `pathlib.Path` normalisation is left out. The model returns the chosen file's name, and `update_config` receives `str(config_path)` already normalised.
- LogConfig.UpdateConfig: `update_config` also mutates the caller's default dict in place, which the model does not show. The raised open and read errors (`IsADirectoryError`, `PermissionError`, `UnicodeDecodeError`) are one `Unreadable` case carrying a message, and which one occurs is a parameter. A file whose top level is not a JSON object is not modelled. `dict.update` takes such a value as a sequence of pairs. An empty list or string leaves the config unchanged. A number, `true`, `false` or `null` raises TypeError. A non-empty string raises ValueError, because its characters are not pairs. A list adds the pair each element spells, such as `["REPORT_SIZE", 5]` or `"ab"`, and its keys need not be strings. An element whose length is not 2 raises ValueError, and an unhashable key raises TypeError.
- Schemas.ValidateOnlineScore: its contract names the field aggregation it falls back to. The properties of that aggregation are stated on Schemas.ValidateFields.
- The type-checker exercises of homework_02, the ORM and services of homework_06, the socket server of homework_07, the Django models of homework_08 and the FastAPI service of homework_10 are outside this model.

## Findings

| source | as written | input that shows it | evidently intended | confidence | as-written member | corrected member |
|---|---|---|---|---|---|---|
| homework_05/src/api.py:306-311 | Field objects are class attributes, and `validate` stores `_value` on them. A value from one request therefore survives into the next whenever the later request's field fails. | `{"method": "online_score"}` followed by `{}`: the second answer names the pair rule instead of "Invalid method". | Each request is judged on its own values, as on fresh field objects. | medium, not executed | HandlerFacts.StaleMethodLeaks | Service.FailedMethodIsInvalid |
| homework_05/src/store.py:75-81 | Both branches of the verification `if` return, so at most one read happens. With retry_count 0 the loop never runs, and a failed `set` returns True. | retry_count 0 with `set` returning 0 gives True. retry_count 4 with reads None then "v" gives 0 after one read. | Re-read up to retry_count times, returning True on a truthy read and 0 when none is. | medium, not executed | Store.FailedSetReportedAsSuccess, Store.OneVerificationRead | Store.CacheSetVerified, Store.VerifiedOnSameInputs |
