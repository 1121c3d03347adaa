# Pet adoption and US economy ingester — a Dafny model

The repository collects several drafts of one small ingester. It pulls
macro-economic series from the FRED API and animal listings from the
Petfinder API, keeps a "last updated" watermark per series in DynamoDB, and
asks only for data newer than that watermark. The drafts disagree with each
other, so each one gets its own module here:

- the watermark rules of the combined Lambda (`LambdaApiPull`) and of the FRED Lambda (`FredLambda`);
- the FRED connection manager (`FredConnection`) and its request object (`FredRequest`);
- the Petfinder Lambda (`PetfinderLambda`) and its connection manager (`PetfinderLambdaConnection`);
- the token Lambda (`TokenLambda`) and the Petfinder API Lambda's manager (`ApiLambdaConnection`);
- the two `api_pull/utils` managers (`PetfinderConnection`, `UtilsConnection`), their token classes (`PaddedAccessToken`, `AccessToken`) and the request object (`PetfinderRequest`);
- the configuration lookups of the API-pull Lambda (`ConfigLookup`);
- the table logic of the DynamoDB manager (`DynamoDb`).

Shared modules hold Python's vocabulary:

- `Py` holds `None`, exceptions and results.
- `Json` holds JSON/TOML values. A dict is an ordered association list where the first binding wins.
- `Calendar` holds proleptic Gregorian dates. It provides `timedelta(days=1)` and `strftime`/`strptime` with `'%Y-%m-%d'`.
- `Dates` holds the list comprehension of `strptime` and `max`.
- `Http` holds attempt outcomes and the trace of GETs, POSTs and sleeps. It also holds the Bearer header (section 2.1 of RFC 6750), the client-credentials form (section 4.4.2 of RFC 6749), `str.lower`, and `urljoin` for a single relative segment (section 5.2 of RFC 3986).
- `Retry` holds the shape every retry loop shares.
- `RequestMapping` holds what the request builders read from a configured mapping.

Every retry loop is a `method` over `respond: nat -> Attempt`, the server's
answer to attempt `k`. The method records a ghost trace of the requests and
sleeps it performs. Its `ensures` ties the result and the trace to a
recursive specification: `Retry.Run` for the generic shape, or
`UtilsConnection.TokenRun` for the two-attempt loop. Lemmas then state the
attempt bounds, the sleep schedules, which failure retries and which one
propagates, and what exhaustion does. The clock, `datetime.now()`, the
configuration, the HTTP client and `json.loads` are parameters everywhere.

## Model

| member | source | states |
|---|---|---|
| Calendar.NextDay | aws_lambda/lambda_api_pull.py:170 | `d + timedelta(days=1)` fails only at 9999-12-31, with OverflowError. Otherwise it is later than `d`, and no valid date lies between the two. |
| Calendar.MonthEndRollsOver | aws_lambda/lambda_api_pull.py:170 | The last day of a month before December steps to the first of the next month. |
| Calendar.YearEndRollsOver | aws_lambda/lambda_api_pull.py:170 | 31 December steps to 1 January of the next year. |
| Calendar.LeapDay | aws_lambda/lambda_api_pull.py:170 | 28 February steps to 29 February exactly in leap years. 29 February steps to 1 March. |
| Calendar.Format | aws_lambda/lambda_api_pull.py:171 | `strftime('%Y-%m-%d')` is ten characters: zero-padded year, month and day with two dashes. |
| Calendar.Parse | fred_lambda/fred_api_management/fred_api_connection_manager.py:46-48 | `strptime(s, '%Y-%m-%d')` fails only with ValueError. |
| Calendar.ParseFormat | fred_lambda/lambda_function.py:31 | What `strftime('%Y-%m-%d')` writes, `strptime` reads back as the same date. |
| Calendar.FormatInjective | fred_lambda/lambda_function.py:31 | Different dates are written as different strings. |
| Calendar.ParseAcceptsUnpadded | fred_lambda/fred_api_management/fred_api_connection_manager.py:48 | `strptime` also accepts unpadded month and day fields (`2024-1-5`). |
| Calendar.ParseLeapDayInCommonYear | fred_lambda/fred_api_management/fred_api_connection_manager.py:48-54 | `2023-02-29` is refused with ValueError. |
| Calendar.ParseLeapDayInLeapYear | fred_lambda/fred_api_management/fred_api_connection_manager.py:48 | `2024-02-29` is accepted. |
| Calendar.FormatMonth | petfinder_lambda/lambda_function.py:65 | `strftime('%Y-%m')` is the first seven characters of the full date. |
| Calendar.FormatDay | petfinder_lambda/lambda_function.py:66 | `strftime('%d')` is the two-digit day. |
| Calendar.KeysOfDates | petfinder_lambda/lambda_function.py:65-66 | Two dates get the same `%Y-%m` key exactly when their year and month agree, and the same `%d` key exactly when their day does. |
| Dates.StrptimeEach | fred_lambda/fred_api_management/fred_api_connection_manager.py:48 | The comprehension succeeds exactly when every element is a date string, parsing each in order. The first non-string gives TypeError and the first bad string gives ValueError. |
| Dates.StrptimeEachOk | fred_lambda/fred_api_management/fred_api_connection_manager.py:47-54 | The comprehension succeeds iff every element is a `'%Y-%m-%d'` string. |
| Dates.Latest | fred_lambda/fred_api_management/fred_api_connection_manager.py:56 | `max` of a non-empty list is a member of the list and no member is after it. |
| Dates.LatestUnique | fred_lambda/fred_api_management/fred_api_connection_manager.py:56 | Any member that no member follows is the maximum. |
| Dates.LatestPermutation | fred_lambda/fred_api_management/fred_api_connection_manager.py:56 | Reordering the list does not change the maximum. |
| Retry.FirstStop | fred_lambda/fred_api_management/fred_api_connection_manager.py:77-104 | The first attempt from `from` on, within the allowed tries, that ends the loop. None iff every allowed attempt continues it. |
| Retry.RunOutcome | fred_lambda/fred_api_management/fred_api_connection_manager.py:77-111 | A retry loop returns the result of its first stopping attempt, or the exhaustion outcome. Its trace is the request and pause schedule of exactly the attempts it made. |
| Retry.ScheduleNoPauses | petfinder_api_lambda/petfinder_api_management/petfinder_api_connection_manager.py:38-58 | A loop without pauses never sleeps. |
| Retry.ScheduleFixed | fred_lambda/fred_api_management/fred_api_connection_manager.py:80-83 | A loop with a fixed delay sleeps that delay before each attempt after the first. |
| Retry.ScheduleListedFromStart | petfinder_lambda/petfinder_api_management/petfinder_api_connection_manager.py:42-46 | A loop with listed delays sleeps the leading delays in order, one fewer than its attempts. |
| LambdaApiPull.LastUpdatedDayIsToday | aws_lambda/lambda_api_pull.py:163-164 | True only when a stored day is present and equals today; a missing stored day never passes it. |
| LambdaApiPull.NoDatesFoundForDataset | aws_lambda/lambda_api_pull.py:166-167 | True exactly for a missing stored day, so it is disjoint from the today test whatever today is; any present day passes the today test for itself. |
| LambdaApiPull.DayAfterLastUpdatedDay | aws_lambda/lambda_api_pull.py:169-172 | The following calendar day, formatted. The only failure is OverflowError at 9999-12-31. |
| LambdaApiPull.DetermineFredObservationStart | aws_lambda/lambda_api_pull.py:163-191 | None iff the stored day equals today. A missing day gives `'2000-01-01'`, even on that date. Any failure is the OverflowError past 9999-12-31. The today test is made first. For any other stored day that has a successor, the start is exactly the zero-padded `'%Y-%m-%d'` text of the next day. |
| LambdaApiPull.ObservationStartIsNextDay | aws_lambda/lambda_api_pull.py:169-191 | For a stored day other than today, the start is exactly the zero-padded `'%Y-%m-%d'` text of the next day, and it parses to a date strictly after the stored day with no date in between. |
| LambdaApiPull.ObservationStartNotStoredDay | aws_lambda/lambda_api_pull.py:189-191 | The start is never the stored day itself written out. |
| LambdaApiPull.DefaultIsFirstOfJanuary2000 | aws_lambda/lambda_api_pull.py:181-188 | The default start parses to 1 January 2000. |
| FredLambda.DetermineObservationStart | fred_lambda/lambda_function.py:26-32 | None iff the stored instant equals now, time of day included. A missing value is not defaulted: AttributeError at `strftime`. Otherwise the result is exactly the zero-padded `'%Y-%m-%d'` text of the stored day: ten characters that parse back to that day. |
| FredLambda.StoredDayIsRequestedAgain | fred_lambda/lambda_function.py:28-32 | A day stored at midnight is requested again as the same day, not the day after, unless the run happens at that midnight. |
| FredLambda.CreateFredRequests | fred_lambda/lambda_function.py:35-44 | One request per mapping key, in iteration order, with name = key, series id = `value['series_id']` and parameters defaulting to `{}`. A non-dict mapping gives AttributeError. Otherwise the first entry that cannot be built decides the error, so a first entry without `'series_id'` gives KeyError. |
| RequestMapping.EntryFields | fred_lambda/lambda_function.py:38-39 | One entry succeeds iff its value is a dict with the identifying key. The parameters default to an empty map. KeyError for a missing key; TypeError for a non-dict value. |
| RequestMapping.EntriesFields | petfinder_lambda/lambda_function.py:32-38 | The entries in order: the result has one element per entry, each that entry's own fields. On failure, every earlier entry builds and the error is that of the first failing entry. |
| RequestMapping.MappingFields | fred_lambda/lambda_function.py:37 | `.items()` on a non-dict raises AttributeError. Each request is named by the key at the same position. A failure of a dict is its first failing entry's. |
| RequestMapping.EntriesFieldsSucceed | petfinder_lambda/lambda_function.py:33-34 | The builder succeeds iff every value holds the key, with a dict (if any) under `'parameters'`. |
| RequestMapping.FirstMissingKeyRaises | fred_lambda/lambda_function.py:38-39 | When every earlier entry builds and the next is a dict without the identifying key, the builder raises KeyError. |
| RequestMapping.MappingFailsAt | petfinder_lambda/lambda_function.py:32-38 | When the loop has built every entry before a failing one, the whole builder raises that entry's error, and it is the first failure. |
| FredRequest.FredApiRequest.constructor | fred_lambda/fred_api_management/fred_api_request.py:5-8 | Stores name, series id and parameters as given. |
| FredRequest.FredApiRequest.AddParameter | fred_lambda/fred_api_management/fred_api_request.py:10-11 | Sets or overwrites one key. Every other key, the name and the series id are unchanged. |
| FredRequest.AddParameterTwice | fred_lambda/fred_api_management/fred_api_request.py:10-11 | Adding the same parameter twice leaves the same state as adding it once. |
| FredConnection.FredStep | fred_lambda/fred_api_management/fred_api_connection_manager.py:84-103 | Request errors and undecodable bodies retry. A decodable body stops the loop with that body. |
| FredConnection.RequestParameters | fred_lambda/fred_api_management/fred_api_connection_manager.py:72-75 | The parameter map gains `series_id`, `api_key` and `observation_start` with the given values. Other keys keep their values. |
| FredConnection.FredApiConnectionManager.constructor | fred_lambda/fred_api_management/fred_api_connection_manager.py:18-19 | Stores the API URL. |
| FredConnection.FredApiConnectionManager.GetLastUpdatedDate | fred_lambda/fred_api_management/fred_api_connection_manager.py:21-57 | TypeError for a non-dict, KeyError without `'vintage_dates'`. None iff the list is empty. Otherwise the call succeeds iff every element is a date string; the result is one of the dates at midnight and no date is after it. |
| FredConnection.FredApiConnectionManager.MakeRequest | fred_lambda/fred_api_management/fred_api_connection_manager.py:59-111 | The request's own map is updated in place, and its name and series id are unchanged. The result and the GET/sleep trace are those of `Run` with a fixed delay, `max_retries` attempts and MaxFredDataRequestTriesError on exhaustion. |
| FredConnection.FredAttemptBound | fred_lambda/fred_api_management/fred_api_connection_manager.py:77-111 | At most `max_retries` GETs, and none when it is ≤ 0 (then the loop raises at once). The sleeps are `retry_delay`, one fewer than the GETs. |
| FredConnection.FredFirstDecodableWins | fred_lambda/fred_api_management/fred_api_connection_manager.py:84-111 | The result is Ok iff some attempt gives a decodable body. The first such body is returned after exactly that many GETs. Otherwise MaxFredDataRequestTriesError follows all the attempts. |
| PetfinderLambda.CreatePfRequests | petfinder_lambda/lambda_function.py:30-39 | One request per key, in order, with name = key, category = `value['category']` and parameters defaulting to `{}`. A non-dict mapping gives AttributeError. Otherwise the first entry that cannot be built decides the error, so a first entry without `'category'` gives KeyError. |
| PetfinderLambda.PublishedAtStrIntoDatetime | petfinder_lambda/lambda_function.py:42-47 | A non-string gives TypeError. No `T`, or a leading `T`, gives AttributeError (no match). Otherwise, with `p` the text before the first `T`, the result is `p` parsed as `'%Y-%m-%d'` at midnight, or ValueError when `p` does not parse. |
| PetfinderLambda.PublishedAtOfTimestamp | petfinder_lambda/lambda_function.py:42-47 | A timestamp `YYYY-MM-DDT…` gives its calendar day at midnight, whatever follows the `T`. |
| PetfinderLambda.PublishedDay | petfinder_lambda/lambda_function.py:60-63 | A non-dict animal gives TypeError. A missing `'published_at'` gives KeyError. Otherwise the call succeeds iff the timestamp is read, fails with the timestamp's own error, and gives the day the timestamp names. |
| PetfinderLambda.CountAsWritten | petfinder_lambda/lambda_function.py:50-75 | As written: TypeError for a non-dict body, KeyError without `'animals'`, and `{}` for an empty list. |
| PetfinderLambda.CountAnimalsByDate | petfinder_lambda/lambda_function.py:50-75 | The loop over the animals computes exactly the as-written tally. |
| PetfinderLambda.TallyAsWritten | petfinder_lambda/lambda_function.py:59-74 | The `dates_data` dict the loop builds as written: when it succeeds, every month key holds the int 1, never a `{day: count}` dict. |
| PetfinderLambda.TallyAsWrittenOutcome | petfinder_lambda/lambda_function.py:68-74 | As written, the tally succeeds iff every day is readable and no two animals share a month. Then its keys are exactly the months seen and every value is 1. Any repeated month raises TypeError. |
| PetfinderLambda.TallyAsWrittenFailurePersists | petfinder_lambda/lambda_function.py:59-74 | The first failing animal decides the error of the whole call. |
| PetfinderLambda.SameMonthFails | petfinder_lambda/lambda_function.py:68-69 | Two animals of one month make the tally raise TypeError. |
| PetfinderLambda.TwoAnimalsInOneMonthRaise | petfinder_lambda/lambda_function.py:68-69 | A body with two readable animals from one month is not counted: the call raises TypeError. |
| PetfinderLambda.ListingsInOneMonth | petfinder_lambda/lambda_function.py:65-66 | Two listings from one month, such as 2024-01-05 and 2024-01-20, are readable and get the same month key. Their day keys agree exactly when their days do. |
| PetfinderLambda.PublishedStamp | petfinder_lambda/lambda_function.py:60-66 | An animal is filed iff its day is readable, under `'%Y-%m'` and `'%d'` of that day. |
| PetfinderLambda.Outcomes | petfinder_lambda/lambda_function.py:59-66 | One outcome per animal, in order, each that animal's own. |
| PetfinderLambda.AllStamps | petfinder_lambda/lambda_function.py:59-66 | Every animal's keys in order iff every animal is readable. |
| PetfinderLambda.TallyAsWrittenKeys | petfinder_lambda/lambda_function.py:68-74 | A successful as-written tally has read every animal, with no repeated month. Its keys are exactly the months seen, each mapped to 1. |
| PetfinderLambda.TallyAsWrittenDistinct | petfinder_lambda/lambda_function.py:73-74 | As written, readable animals from distinct months are tallied without error. |
| PetfinderLambda.TallyAsWrittenRepeat | petfinder_lambda/lambda_function.py:68-69 | As written, when every animal is readable and the tally fails, the error is TypeError. |
| PetfinderLambda.AnimalAtStamp | petfinder_lambda/lambda_function.py:60-66 | An animal published at `YYYY-MM-DDT…` is filed under that month and day. |
| PetfinderLambda.TwoAnimalsOutcomes | petfinder_lambda/lambda_function.py:58-59 | A body with two animals yields their two outcomes, in order. |
| PetfinderLambda.Bump | petfinder_lambda/lambda_function.py:68-74 | The corrected step adds one to the count of that month and day, starting at 1. The months gain that month, and every other (month, day) count is unchanged. |
| PetfinderLambda.SameMonthByDay | petfinder_lambda/lambda_function.py:68-72 | Two stamps of one month on different days give `{month: {d1: 1, d2: 1}}`. |
| PetfinderLambda.CountAnimalsByDay | petfinder_lambda/lambda_function.py:50-56 | The corrected count `{yyyy-mm: {dd: n}}`: TypeError for a non-dict body, KeyError without `'animals'`. |
| PetfinderLambda.TallyByDayCounts | petfinder_lambda/lambda_function.py:50-56 | The corrected count fails only where a day is unreadable. Otherwise it holds, for every month and day, exactly the number of animals published that day, and nothing for days without one. |
| PetfinderLambda.TwoAnimalsInOneMonthByDay | petfinder_lambda/lambda_function.py:68-72 | Two animals of one month on different days count one each under the corrected count. |
| PetfinderLambdaConnection.PetfinderStep | petfinder_lambda/petfinder_api_management/petfinder_api_connection_manager.py:47-65 | A request error or decode error retries; the re-raise at lines 58-62 is never taken. A decodable body stops the loop. |
| PetfinderLambdaConnection.PetfinderApiConnectionManager.constructor | petfinder_lambda/petfinder_api_management/petfinder_api_connection_manager.py:16-23 | Stores the API URL and the token as given. |
| PetfinderLambdaConnection.PetfinderApiConnectionManager.FormatUrlWithCategory | petfinder_lambda/petfinder_api_management/petfinder_api_connection_manager.py:26-27 | `urljoin(api_url, category)`: TypeError exactly for a truthy non-string, the base for a falsy category, and the resolved segment for a string. |
| PetfinderLambdaConnection.PetfinderApiConnectionManager.FormatUrlDirectoryBase | petfinder_lambda/petfinder_api_management/petfinder_api_connection_manager.py:26-38 | A base whose path ends in `/` yields `api_url + category`. |
| PetfinderLambdaConnection.PetfinderApiConnectionManager.MakeRequest | petfinder_lambda/petfinder_api_management/petfinder_api_connection_manager.py:29-67 | The header carries the `access_token` argument, not the stored token. The result and trace are `Run` with `len(retry_seconds) + 1` attempts and the listed delays; exhaustion returns None. |
| PetfinderLambdaConnection.PetfinderAttemptBound | petfinder_lambda/petfinder_api_management/petfinder_api_connection_manager.py:40-46 | Between 1 and `len(retry_seconds) + 1` GETs. The sleeps are the leading `retry_seconds`, in order, one fewer than the GETs. |
| PetfinderLambdaConnection.PetfinderFirstDecodableWins | petfinder_lambda/petfinder_api_management/petfinder_api_connection_manager.py:52-67 | A body comes back iff some attempt decodes, and it is the first such body. Otherwise None follows all the attempts. |
| PetfinderLambdaConnection.TwoFailuresThenSuccess | petfinder_lambda/petfinder_api_management/petfinder_api_connection_manager.py:42-56 | With `[1, 2]`, two failures and then a good answer, the trace is GET, sleep 1, GET, sleep 2, GET, and the result is the third body. |
| TokenLambda.TokenStep | petfinder_generate_access_token/lambda_function.py:50-66 | Every attempt ends the loop. Request and decode errors are returned as values; a body without `'access_token'` raises KeyError (TypeError for a non-dict); otherwise the token is returned. |
| TokenLambda.TokenUrl | petfinder_generate_access_token/lambda_function.py:51 | The configured token URL, or KeyError when it is missing. |
| TokenLambda.LambdaHandler | petfinder_generate_access_token/lambda_function.py:37-68 | A missing key or secret, and then a missing URL, each raise with no request. Otherwise the result and trace are the whole loop's `Run` with `len(retry_seconds) + 1` attempts. |
| TokenLambda.TokenLambdaOnePost | petfinder_generate_access_token/lambda_function.py:43-68 | Exactly one POST and no sleep. The first answer decides, and MaxGenerateAccessTokenTriesError is never raised. |
| TokenLambda.TokenLoopMakesOneAttempt | petfinder_generate_access_token/lambda_function.py:45-66 | A loop whose every attempt stops makes only its first attempt. |
| Http.ClientCredentialsForm | petfinder_generate_access_token/lambda_function.py:37-41 | The POSTed form: `grant_type=client_credentials` first, then `client_id` and `client_secret` passed through unchanged. |
| Http.ClientCredentialsFormFields | petfinder_generate_access_token/lambda_function.py:37-41 | The form holds `grant_type=client_credentials`, `client_id` and `client_secret`, in that order. |
| Http.Bearer | petfinder_lambda/petfinder_api_management/petfinder_api_connection_manager.py:35 | The credential is `Bearer ` followed by the token itself. |
| Http.UrlJoinRaises | petfinder_api_lambda/petfinder_api_management/petfinder_api_connection_manager.py:70-71 | When it holds, the join fails with TypeError; when it does not hold, the join of a simple segment onto a non-empty base succeeds. |
| Http.UrlJoinRaisesAgrees | petfinder_api_lambda/petfinder_api_management/petfinder_api_connection_manager.py:70-71 | The test for "urljoin raises" holds exactly when the join fails. |
| Http.AuthorizationHeader | petfinder_lambda/petfinder_api_management/petfinder_api_connection_manager.py:34-36 | The one-key header `Authorization: Bearer <token>`. |
| Http.UrlJoin | api_pull/utils/petfinder/petfinder_api_connection_manager.py:120 | The resolved URL ends with the segment. |
| Http.UrlJoinValue | petfinder_api_lambda/petfinder_api_management/petfinder_api_connection_manager.py:71 | `urljoin` raises TypeError exactly for a truthy non-string reference, and returns the base for a falsy one. |
| Http.UrlJoinDirectoryBase | petfinder_lambda/petfinder_api_management/petfinder_api_connection_manager.py:27 | A base whose path ends in `/` gains the segment. |
| Http.UrlJoinPetfinderDirectory | petfinder_lambda/petfinder_api_management/petfinder_api_connection_manager.py:27 | `https://api.petfinder.com/v2/` joined with `animals` is `…/v2/animals`. |
| Http.UrlJoinPetfinderFile | petfinder_lambda/petfinder_api_management/petfinder_api_connection_manager.py:27 | Without the trailing `/`, `/v2` is replaced: `…/animals`. |
| Http.Lower | api_pull/utils/petfinder/petfinder_api_connection_manager.py:102 | `str.lower` keeps the length and lowers each letter. |
| Http.LowerIdempotent | api_pull/utils/petfinder_api_connection_manager.py:81 | Lowering twice is lowering once. |
| Http.ValidCategorySegment | api_pull/utils/petfinder/petfinder_api_connection_manager.py:100-120 | A valid path is made of letters only, so it is a simple relative segment in either case. |
| Http.ValidCategoryExamples | api_pull/utils/petfinder/petfinder_api_connection_manager.py:100-102 | `_valid_path` ignores case (`Animals`, `ORGANIZATIONS`) and nothing else (`animal`, `dogs`, empty). |
| Http.RequestsAppend | petfinder_lambda/petfinder_api_management/petfinder_api_connection_manager.py:41-56 | Request counts add up over concatenated traces. |
| Http.SleepsAppend | petfinder_lambda/petfinder_api_management/petfinder_api_connection_manager.py:42-46 | The sleeps of concatenated traces are concatenated. |
| ApiLambdaConnection.ApiDataStep | petfinder_api_lambda/petfinder_api_management/petfinder_api_connection_manager.py:80-88 | A request error retries. The first success returns its body, and an undecodable one raises JSONDecodeError. |
| ApiLambdaConnection.PetfinderApiConnectionManager.constructor | petfinder_api_lambda/petfinder_api_management/petfinder_api_connection_manager.py:16-24 | Stores the two URLs. |
| ApiLambdaConnection.PetfinderApiConnectionManager.GenerateAccessToken | petfinder_api_lambda/petfinder_api_management/petfinder_api_connection_manager.py:26-58 | The result and trace are the loop's `Run` with `max_tries` attempts, no pauses, and MaxGenerateAccessTokenTriesError on exhaustion. |
| ApiLambdaConnection.PetfinderApiConnectionManager.MakeRequest | petfinder_api_lambda/petfinder_api_management/petfinder_api_connection_manager.py:60-91 | The discarded `urljoin` can only raise. Every GET goes to `api_url` itself with the argument token. The loop's `Run` has no pauses; exhaustion returns None. |
| ApiLambdaConnection.ApiTokenAttempts | petfinder_api_lambda/petfinder_api_management/petfinder_api_connection_manager.py:38-58 | With `max_tries ≤ 0`, no request and MaxGenerateAccessTokenTriesError. Otherwise exactly one POST, its answer decides, and that error is never raised. |
| ApiLambdaConnection.ApiDataAttemptBound | petfinder_api_lambda/petfinder_api_management/petfinder_api_connection_manager.py:75-86 | At most `max_tries` GETs and no sleep. |
| ApiLambdaConnection.ApiDataFirstAnswerWins | petfinder_api_lambda/petfinder_api_management/petfinder_api_connection_manager.py:80-91 | The first successful answer decides (its body or JSONDecodeError). None iff all `max_tries` attempts fail, after all of them. |
| PetfinderConnection.ValidAccessTokenExistsAsWritten | api_pull/utils/petfinder/petfinder_api_connection_manager.py:30-31 | `self._access_token` is never assigned, so the test raises AttributeError. |
| PetfinderConnection.GenerateAccessTokenAsWritten | api_pull/utils/petfinder/petfinder_api_connection_manager.py:33-40 | As written, every call raises AttributeError before any request. |
| PetfinderConnection.TokenStepAsWritten | api_pull/utils/petfinder/petfinder_api_connection_manager.py:65-91 | As written, any decodable answer raises AttributeError (`_handle_access_token` is undefined). Request errors retry and undecodable bodies raise JSONDecodeError. |
| PetfinderConnection.TokenLoopAsWrittenNeverGrants | api_pull/utils/petfinder/petfinder_api_connection_manager.py:57-98 | As written, no run of the token loop ends with a token. |
| PetfinderConnection.GrantedAnswer | api_pull/utils/petfinder/petfinder_api_connection_manager.py:83-87 | For a 200 answer with both keys, the corrected step yields the token and the as-written step raises. |
| PetfinderConnection.MakeRequestAsWritten | api_pull/utils/petfinder/petfinder_api_connection_manager.py:146-155 | As written, an invalid path raises ValueError, and a valid one raises TypeError at the argument-less `generate_access_token()`. |
| PetfinderConnection.AccessTokenHeaderAsWritten | api_pull/utils/petfinder/petfinder_api_connection_manager.py:157-159 | As written, the header has the single key `Authorization`. |
| PetfinderConnection.AsWrittenHeaderValue | api_pull/utils/petfinder/petfinder_api_connection_manager.py:157-159 | As written, the value is `Bearer {'Authorization': 'Bearer <token>'}`, for a token that `repr` shows without escapes. |
| PetfinderConnection.DoubleBearer | api_pull/utils/petfinder/petfinder_api_connection_manager.py:157-159 | As written, the header value is never equal to the Bearer credential, and for a token that `repr` shows without escapes it is 28 characters longer. |
| PetfinderConnection.GenerateAccessTokenHeader | api_pull/utils/petfinder/petfinder_api_connection_manager.py:124-131 | The one-key header whose value is `Bearer ` + the token as rendered. |
| PetfinderConnection.ReadGrant | api_pull/utils/petfinder/petfinder_api_connection_manager.py:83-91 | Ok iff both `access_token` and `expires_in` are present and the lifetime is an integer. The values come from those keys. Otherwise KeyError or TypeError. |
| PetfinderConnection.TokenStep | api_pull/utils/petfinder/petfinder_api_connection_manager.py:65-91 | A request error retries. An undecodable body raises JSONDecodeError at once, and a decoded one is read by `ReadGrant` with no further attempt. |
| PetfinderConnection.DataStep | api_pull/utils/petfinder/petfinder_api_connection_manager.py:172-196 | A request error retries. The first success returns its body, or raises JSONDecodeError. |
| PetfinderConnection.PetfinderApiConnectionManager.constructor | api_pull/utils/petfinder/petfinder_api_connection_manager.py:21-28 | Stores both URLs, with no cached token. |
| PetfinderConnection.PetfinderApiConnectionManager.ValidAccessTokenExists | api_pull/utils/petfinder/petfinder_api_connection_manager.py:30-31 | With the cache initialised: false for an empty cache, otherwise true exactly while the cached token's age is at most its stored lifetime. |
| PetfinderConnection.PetfinderApiConnectionManager.GenerateApiUrl | api_pull/utils/petfinder/petfinder_api_connection_manager.py:104-122 | ValueError iff the path is invalid. Otherwise the path, in its own case, resolved against `api_url`. |
| PetfinderConnection.PetfinderApiConnectionManager.HandleAccessToken | api_pull/utils/petfinder/petfinder_api_connection_manager.py:84-86 | With none cached, a fresh padded token is created (lifetime − 20). Otherwise the cached object is overwritten (lifetime as given). Either way it holds the new token and time. |
| PetfinderConnection.PetfinderApiConnectionManager.TokenLoop | api_pull/utils/petfinder/petfinder_api_connection_manager.py:57-98 | The result and trace are `Run` with `max_retries` attempts, a fixed `retry_delay` and MaxPetfinderTokenGenerationTriesError on exhaustion. The delay is a `nat`. |
| PetfinderConnection.PetfinderApiConnectionManager.GenerateAccessToken | api_pull/utils/petfinder/petfinder_api_connection_manager.py:33-98 | A valid cached token is returned with no request and nothing changed. Otherwise the loop runs. On success the granted token is returned and stored with the generation time: a new object with lifetime − 20 when none was cached, otherwise the same object with the lifetime as given. A failure leaves the cache as it was. |
| PetfinderConnection.PetfinderApiConnectionManager.DataLoop | api_pull/utils/petfinder/petfinder_api_connection_manager.py:163-203 | The result and trace are `Run` with `max_retries` GETs, a fixed delay and MaxPetfinderDataRequestTriesError on exhaustion. The delay is a `nat`. |
| PetfinderConnection.PetfinderApiConnectionManager.MakeRequest | api_pull/utils/petfinder/petfinder_api_connection_manager.py:133-203 | An invalid path raises ValueError first, with no request and the cache untouched. Otherwise the cache ends as the token step leaves it (kept while valid; else the granted token stored as in GenerateAccessToken, or untouched on failure). Token errors propagate. Otherwise the data loop runs with the Bearer header of the token at the resolved URL, after the token's events. |
| PetfinderConnection.TokenAttemptBound | api_pull/utils/petfinder/petfinder_api_connection_manager.py:57-63 | At most `max_retries` POSTs, none when it is ≤ 0, and `retry_delay` before each one after the first. |
| PetfinderConnection.TokenFirstAnswerDecides | api_pull/utils/petfinder/petfinder_api_connection_manager.py:65-98 | MaxPetfinderTokenGenerationTriesError iff every attempt fails with a request error. Otherwise the first answered attempt decides, after exactly that many POSTs. |
| PetfinderConnection.DataFirstAnswerDecides | api_pull/utils/petfinder/petfinder_api_connection_manager.py:163-203 | The same for the data loop: MaxPetfinderDataRequestTriesError iff all attempts fail, with the GET count and fixed-delay sleeps bounded as for the token loop. |
| UtilsConnection.PetfinderApiConnectionManager.constructor | api_pull/utils/petfinder_api_connection_manager.py:9-22 | Stores the URLs and keys, with no cached token. |
| UtilsConnection.PetfinderApiConnectionManager.HandleAccessToken | api_pull/utils/petfinder_api_connection_manager.py:24-39 | Creates a token object when none is cached, otherwise overwrites the cached object itself. It then holds exactly the three given values. |
| UtilsConnection.PetfinderApiConnectionManager.TokenLoop | api_pull/utils/petfinder_api_connection_manager.py:49-73 | The result and trace are `TokenRun`, the two-attempt loop. |
| UtilsConnection.TokenRunOutcome | api_pull/utils/petfinder_api_connection_manager.py:55-73 | At most two POSTs, each refusal followed by a 2 s sleep. The bare Exception is never raised. None iff both attempts are refused (two POSTs, two sleeps). An accepted answer is a 200 on the first attempt, or on the second after one refusal. |
| UtilsConnection.TokenAnswer | api_pull/utils/petfinder_api_connection_manager.py:60-71 | The loop goes on after an answer exactly when it is a decoded dict with a status other than 200. Every other answer ends it. |
| UtilsConnection.PetfinderApiConnectionManager.CachedTokenFresh | api_pull/utils/petfinder_api_connection_manager.py:46 | False with no cached token; when true, the cached generation time and lifetime are numbers and `now` is before their sum. |
| UtilsConnection.PetfinderApiConnectionManager.GenerateAccessToken | api_pull/utils/petfinder_api_connection_manager.py:41-73 | A fresh cached token is returned with no request and nothing changed. Otherwise the loop's outcome: an accepted token is stored (created or overwritten) with the clock reading before its POST. Otherwise nothing is stored. |
| UtilsConnection.PetfinderApiConnectionManager.GenerateApiUrl | api_pull/utils/petfinder_api_connection_manager.py:75-84 | Ok iff the lowered category is `animals` or `organizations`, and then it is `api_url + category + '/'`. Otherwise a bare Exception. |
| UtilsConnection.GenerateAccessTokenHeader | api_pull/utils/petfinder_api_connection_manager.py:86-97 | ValueError iff the token is not a string. Otherwise `{'Authorization': 'Bearer ' + token}`. |
| UtilsConnection.DataOutcome | api_pull/utils/petfinder_api_connection_manager.py:117-124 | A client error raises, and a non-200 raises HTTPError. A 200 returns the uncalled `response.json`. |
| UtilsConnection.PetfinderApiConnectionManager.MakeRequest | api_pull/utils/petfinder_api_connection_manager.py:99-124 | An invalid category raises ValueError first, with nothing else done. Then the token step runs; its errors propagate, and with no cached token afterwards AttributeError is raised. Then one GET to `api_url + category + '/'` with the cached token's header, with no retry. The cache is untouched for an invalid category or a fresh token. Otherwise it holds the accepted token with its clock reading and lifetime (the same object when one was cached), or is untouched when none is accepted. |
| UtilsConnection.MissingLifetimeIsStale | api_pull/utils/petfinder_api_connection_manager.py:63-65 | A token answer without `expires_in` stores None, and that token is stale at every later call. |
| AccessToken.PetfinderAccessToken.constructor | api_pull/utils/petfinder_access_token.py:7-10 | Stores the three values as given. |
| AccessToken.PetfinderAccessToken.UpdateAccessToken | api_pull/utils/petfinder_access_token.py:27-30 | Replaces the token, generation time and lifetime together. |
| AccessToken.PetfinderAccessToken.GetAccessToken | api_pull/utils/petfinder_access_token.py:32-33 | Returns the stored token and changes nothing. |
| AccessToken.PetfinderAccessToken.NeedToGenerateNewToken | api_pull/utils/petfinder_access_token.py:12-25 | True whenever the generation time or the lifetime is not a number (the except-TypeError branch); otherwise true exactly when the token's age has reached its lifetime. |
| AccessToken.StaleAtExpiryInstant | api_pull/utils/petfinder_access_token.py:12-15 | A token is fresh one second before generation + lifetime and stale at that instant. |
| AccessToken.MissingTimeIsStale | api_pull/utils/petfinder_access_token.py:16-25 | With a None generation time or lifetime, the token is always stale. |
| AccessToken.StaleStaysStale | api_pull/utils/petfinder_access_token.py:15 | Once stale, a token stays stale as the clock advances. |
| PaddedAccessToken.PetfinderAccessToken.constructor | api_pull/utils/petfinder/petfinder_access_token.py:10-15 | Stores `expiration − 20`, so a new token is valid exactly up to generation + lifetime − 20. |
| PaddedAccessToken.PetfinderAccessToken.UpdateAccessToken | api_pull/utils/petfinder/petfinder_access_token.py:22-25 | Stores the lifetime without the padding, so the token is valid exactly up to generation + lifetime. |
| PaddedAccessToken.PetfinderAccessToken.GetAccessToken | api_pull/utils/petfinder/petfinder_access_token.py:27-28 | Returns the stored token and changes nothing. |
| PaddedAccessToken.PetfinderAccessToken.TokenIsValid | api_pull/utils/petfinder/petfinder_access_token.py:17-20 | Valid exactly while the token's age is at most its stored (padded or unpadded) lifetime. |
| PaddedAccessToken.ValidityAntitone | api_pull/utils/petfinder/petfinder_access_token.py:17-20 | Once invalid, a token stays invalid. |
| PaddedAccessToken.ValidAtExpiryInstant | api_pull/utils/petfinder/petfinder_access_token.py:19 | The expiry instant itself is the last valid instant. |
| PetfinderRequest.PetfinderApiRequest.constructor | api_pull/utils/petfinder/petfinder_api_request.py:5-10 | Stores name, category and parameters as given. |
| PetfinderRequest.PetfinderApiRequest.AddParameter | api_pull/utils/petfinder/petfinder_api_request.py:12-13 | Sets or overwrites one key. Every other key, the name and the category are unchanged. |
| PetfinderRequest.AddParameterTwice | api_pull/utils/petfinder/petfinder_api_request.py:12-13 | Adding the same parameter twice leaves the same state as adding it once. |
| ConfigLookup.PathLookup | pet_adoption_and_us_economy/api_pull/lambda/lambda_function.py:22-29 | An empty path gives the configuration itself. Any failure is KeyError, or TypeError on a value that is not a table. |
| ConfigLookup.PathLookupAppend | pet_adoption_and_us_economy/api_pull/lambda/lambda_function.py:23-24 | Looking up `a + b` is looking up `b` in the result for `a`; the first failure decides. |
| ConfigLookup.PathLookupSingle | pet_adoption_and_us_economy/api_pull/lambda/lambda_function.py:24 | A one-key path is one subscript. |
| ConfigLookup.PathLookupTwo | pet_adoption_and_us_economy/api_pull/lambda/lambda_function.py:23-29 | A two-key path succeeds iff the table exists and holds the key, and gives `config[t][k]`. A missing table fails like `config[t]`. |
| ConfigLookup.GetConfigValue | pet_adoption_and_us_economy/api_pull/lambda/lambda_function.py:14-29 | The loop computes exactly `PathLookup`. |
| ConfigLookup.PetfinderSettingsOf | pet_adoption_and_us_economy/api_pull/lambda/lambda_function.py:38-41 | Ok iff all four `petfinder_api` lookups succeed, and then it holds their values. |
| ConfigLookup.NewsSettingsOf | pet_adoption_and_us_economy/api_pull/lambda/lambda_function.py:55-56 | Ok iff both `news_api` lookups succeed, and then it holds their values. |
| ConfigLookup.PetfinderSettingsPresent | pet_adoption_and_us_economy/api_pull/lambda/lambda_function.py:38-41 | The Petfinder settings are read iff `petfinder_api` is present with `api_url`, `token_url`, `api_key` and `secret_key`. |
| ConfigLookup.NewsSettingsPresent | pet_adoption_and_us_economy/api_pull/lambda/lambda_function.py:55-56 | The news settings are read iff `news_api` is present with `api_url` and `api_key`. |
| ConfigLookup.PetfinderSettingsReadOnlyTheirTable | pet_adoption_and_us_economy/api_pull/lambda/lambda_function.py:38-41 | Configurations with the same `petfinder_api` table give the same settings: nothing else is read. |
| ConfigLookup.NewsSettingsReadOnlyTheirTable | pet_adoption_and_us_economy/api_pull/lambda/lambda_function.py:55-56 | Configurations with the same `news_api` table give the same settings. |
| ConfigLookup.SameTableSameValue | pet_adoption_and_us_economy/api_pull/lambda/lambda_function.py:23-24 | A two-key path depends only on the table it names. |
| ConfigLookup.CreatePetfinderManager | pet_adoption_and_us_economy/api_pull/lambda/lambda_function.py:32-46 | A manager is built iff the four settings are present. It is fresh, holds exactly those settings and has no cached token. Failures are KeyError or TypeError. |
| ConfigLookup.CreateNewsManager | pet_adoption_and_us_economy/api_pull/lambda/lambda_function.py:49-59 | Returns exactly the two `news_api` settings, or the first lookup's error. |
| DynamoDb.DynamoDbManager.constructor | dynamodb_management/dynamodb_manager.py:10-14 | Stores the partition and sort key names. |
| DynamoDb.IndexZero | dynamodb_management/dynamodb_manager.py:31 | `x[0]` gives the first element of a non-empty list or string. IndexError when empty, KeyError for a dict, TypeError otherwise. |
| DynamoDb.Loads | dynamodb_management/dynamodb_manager.py:33 | `json.loads` decodes a string or raises JSONDecodeError. TypeError for a non-string. |
| DynamoDb.LastMonthData | dynamodb_management/dynamodb_manager.py:31-33 | Failures are KeyError, TypeError, IndexError or JSONDecodeError. An empty `Items` list is IndexError, not None. |
| DynamoDb.DynamoDbManager.GetLastUpdatedDay | dynamodb_management/dynamodb_manager.py:30-40 | None iff the response is empty or has no `Items`. Errors on the way propagate, and non-dict data gives AttributeError. Otherwise Ok iff there are keys and all are dates (else ValueError). The result is the latest key at midnight. |
| DynamoDb.KeysParsed | dynamodb_management/dynamodb_manager.py:35 | The comprehension parses each key of the dict, in order. |
| DynamoDb.LatestOfKeys | dynamodb_management/dynamodb_manager.py:35-36 | The `max` of the parsed keys is a key's day and no key's day is after it. |
| DynamoDb.LatestDayIsUnique | dynamodb_management/dynamodb_manager.py:36 | Only one day is the latest of the keys, whatever their order. |
| DynamoDb.InsertLookup | dynamodb_management/dynamodb_manager.py:45-49 | After a dict-display entry, its key gives the new value and every other key keeps its value. |
| DynamoDb.InsertKeys | dynamodb_management/dynamodb_manager.py:45-49 | A new key goes last; a repeated key keeps its place. |
| DynamoDb.NewItemFields | dynamodb_management/dynamodb_manager.py:45-49 | With three distinct names, the item binds partition key → request name, sort key → date and values → value. |
| DynamoDb.NewItemKeys | dynamodb_management/dynamodb_manager.py:45-49 | With three distinct names the item's keys are exactly those three, in that order. |
| DynamoDb.ObservationItem | dynamodb_management/dynamodb_manager.py:47-48 | Ok iff the observation has `date` and `value`. Otherwise KeyError, or TypeError for a non-dict. |
| DynamoDb.FredItems | dynamodb_management/dynamodb_manager.py:44-50 | One item per observation, in order, each that observation's item. On failure, every earlier observation builds and the error is that of the first failing observation. |
| DynamoDb.FredItemsSucceed | dynamodb_management/dynamodb_manager.py:44-50 | Items are built iff every observation has a date and a value. |
| DynamoDb.PutFredItems | dynamodb_management/dynamodb_manager.py:44 | A non-iterable `data` gives TypeError; otherwise the items of its elements. |
| DynamoDb.PutFredItemsOfObservations | dynamodb_management/dynamodb_manager.py:43-50 | For dict observations with both fields and distinct names, every item has exactly the three keys, bound to the request name, that observation's date and its value. |
| DynamoDb.DynamoDbManager.PutFredData | dynamodb_management/dynamodb_manager.py:42-50 | It raises iff building the items fails, with that error. Otherwise it returns nothing, and the discarded list equals the items built. |

## Left out

- HTTP, DynamoDB, S3, AWS parameter retrieval, `boto3` and the query itself are not modelled. Answers are `respond` functions, the query response and `json.loads` are inputs, and `time.sleep` is a trace entry.
- Clocks are parameters in whole seconds: `time.time()`, `datetime.now()` and the module-level `date_today`. Float arithmetic on times is not modelled.
- Logging is a no-op, including every `LogsLoader` call. fred_api_connection_manager.py never imports `LogsLoader`, so as written each of its log calls raises NameError. That replaces the KeyError of a missing `'vintage_dates'` (line 33) and the ValueError of a bad date (line 50). In `make_request`, a request error (line 89) ends the call at once with no retry. After an undecodable body the retry log (line 79) raises before the next attempt. The exhaustion log (line 107) runs before the raise, so MaxFredDataRequestTriesError is never raised, including with `max_retries ≤ 0`. The model follows the evident intent instead.
- TOML/JSON configuration loading, the `lambda_handler` bodies, and the module-level wiring are not part of this model. The modules that cannot be imported (aws_lambda/lambda_api_pull.py:220-222, fred_lambda/lambda_function.py:9, pet_adoption_and_us_economy/api_pull/lambda/lambda_function.py:73) are modelled function by function.
- LambdaApiPull.DetermineFredObservationStart: takes the stored day as a date. The caller passes the `datetime` from DynamoDB, and Python's `date == datetime` is always False, so as called the today test never matches.
- LambdaApiPull: `fred_output_date_format` is taken to be `'%Y-%m-%d'`.
- Calendar.Parse: `strptime` is modelled for ASCII digits and the `'%Y-%m-%d'` format only. Other Unicode digits are not accepted.
- Http.Lower: ASCII only. This is exact for the comparison with `animals` and `organizations`.
- Http.UrlJoin: covers a non-empty base and a single relative path segment only, resolved against the base's last `/`. It is not `urljoin` for a base with an upper-case scheme (`HTTPS://h/v2/`, which Python lowercases). It is also not `urljoin` for a scheme outside `uses_relative` (`localhost:8080/v2/` joined with `animals` gives `animals` in Python). Nor for a base path with empty or dot segments (`https://h/a//b/`, `https://h/a/../b/`), which Python normalises and the model copies.
- RequestMapping.EntryFields: refuses a `'parameters'` value that is not a dict with TypeError. The source would store it as is.
- FredLambda.CreateFredRequests and PetfinderLambda.CreatePfRequests: both store a copy of the parameters as a map. The source's aliasing of the configured dict is not modelled.
- petfinder_lambda's and petfinder_api_lambda's own `petfinder_api_request.py` files are not part of this model. Both use `PetfinderRequest.PetfinderApiRequest` (api_pull/utils/petfinder/petfinder_api_request.py) in their place.
- TokenLambda.LambdaHandler: `retry_seconds` is an input list of delays. The KeyError of a configuration without `petfinder_access_token_retry_seconds` (line 42) is not modelled.
- TokenLambda.LambdaHandler and ApiLambdaConnection.PetfinderApiConnectionManager.GenerateAccessToken: written without a loop, because every branch of the source's loop body leaves at the first attempt. Their contracts still state the whole loop's `Run`.
- PetfinderConnection: the corrected manager refuses any `expires_in` that is not an int with TypeError, a bool included, although Python computes `True - 20` as `-19`. `max_retries` and `retry_delay` come from configuration, and `time.time()` after the POST is the parameter `generationTime`.
- UtilsConnection: the data attempt is a single answer, and `response.json` is returned uncalled as a `JsonMethod` value.
- ConfigLookup.CreatePetfinderManager: the manager stores the two URLs as strings (`str` of the configured value). For a non-string `api_url` the source stores the value itself and raises TypeError later at `self.api_url + category` in `make_request`; the model builds the URL from its `str` instead.
- ConfigLookup.CreateNewsManager: returns the settings the news manager is built from. `NewsApiConnectionManager` (api_pull/utils/news_api_connection_manager.py) is not part of this model.
- DynamoDb.DynamoDbManager.PutFredData: the list the source builds and discards is returned as a ghost output only.
- TokenLoop (PetfinderConnection.PetfinderApiConnectionManager.TokenLoop, and through it GenerateAccessToken and MakeRequest): `retry_delay` is a `nat`. A negative `retry_delay`, for which `time.sleep` raises ValueError before the second attempt, is not modelled.
- DataLoop (PetfinderConnection.PetfinderApiConnectionManager.DataLoop, and through it MakeRequest): `retry_delay` is a `nat`. A negative `retry_delay`, for which `time.sleep` raises ValueError before the second attempt, is not modelled.
- FredConnection.FredApiConnectionManager.MakeRequest: `retry_delay` is a `nat`. The ValueError of `time.sleep` for a negative delay is not modelled.
- PetfinderLambdaConnection.PetfinderApiConnectionManager.MakeRequest: `retry_seconds` is a list of `nat`. The ValueError of `time.sleep` for a negative entry is not modelled.
- Json: a decoded object may bind a key twice, and lookups take the first binding. `json.loads` keeps the last one, and a Python dict never holds a key twice; inputs with repeated keys are not modelled faithfully.
- ApiLambdaConnection.PetfinderApiConnectionManager.MakeRequest: `urljoin` passes both arguments through `urlsplit`, which raises ValueError for a network location with an unbalanced `[` or `]` or a malformed bracketed host. A category such as `//[x`, or an `api_url` such as `http://[::1/v2/`, makes the source raise ValueError at line 71 before any request; the model makes the GETs instead. The same case is not modelled in Http.UrlJoin, Http.UrlJoinValue, PetfinderConnection.PetfinderApiConnectionManager.GenerateApiUrl or PetfinderLambdaConnection.PetfinderApiConnectionManager.FormatUrlWithCategory for a base with a malformed bracketed host.
- AsWrittenHeaderValue (PetfinderConnection.AsWrittenHeaderValue): Json.Repr shows a string as `'` + text + `'`. Python's `repr` switches to double quotes for a text holding `'` and escapes backslashes and unprintable characters. So the exact header value holds only for tokens without quotes, backslashes or unprintable characters.
- DoubleBearer (PetfinderConnection.DoubleBearer): "28 characters longer" holds only for tokens that `repr` shows without escapes, for the same reason. The inequality of the two header values holds for every token.
- AccessToken.PetfinderAccessToken.NeedToGenerateNewToken, UtilsConnection and PetfinderConnection.ReadGrant: the Json value model has no float. A decoded `expires_in` such as `3600.0` cannot be represented, so the float arithmetic the source does on such a lifetime (a sum and a comparison, or `- 20`) is not modelled.
- Calendar.Format, Calendar.ParseFormat and FredLambda.DetermineObservationStart: `%Y` is written as four zero-padded digits for every year. Python builds on glibc before the fix for CPython issue gh-120713 write years below 1000 without padding, so there the ten-character length and the round trip through `strptime` hold only from year 1000 on.
- Pagination is not modelled: no modelled file implements it.

## Findings

| source | as written | input that shows it | evidently intended | confidence | as-written member | corrected member |
|---|---|---|---|---|---|---|
| petfinder_lambda/lambda_function.py:68-74 | The first animal of a month stores the int 1 under the month. A second animal tests `day in 1` and raises TypeError. | two animals published 2024-01-05 and 2024-01-20 | the `{yyyy-mm: {dd: count}}` tally of the doc-comment | not executed | PetfinderLambda.TwoAnimalsInOneMonthRaise | PetfinderLambda.TallyByDayCounts |
| api_pull/utils/petfinder/petfinder_api_connection_manager.py:30-40 | `self._access_token` is read but never assigned, so every `generate_access_token` raises AttributeError. | any call on a fresh manager | a cache initialised to None and consulted first | not executed | PetfinderConnection.GenerateAccessTokenAsWritten | PetfinderConnection.PetfinderApiConnectionManager.GenerateAccessToken |
| api_pull/utils/petfinder/petfinder_api_connection_manager.py:84-87 | `self._handle_access_token` is not defined, so a successful token answer raises AttributeError. | a 200 answer with `access_token` and `expires_in` | the answer is stored in the token cache and its token is returned | not executed | PetfinderConnection.GrantedAnswer | PetfinderConnection.PetfinderApiConnectionManager.HandleAccessToken |
| api_pull/utils/petfinder/petfinder_api_connection_manager.py:155 | `generate_access_token()` is called without its two arguments, which raises TypeError. | `make_request('animals', {})` | the key and secret are passed along | not executed | PetfinderConnection.MakeRequestAsWritten | PetfinderConnection.PetfinderApiConnectionManager.MakeRequest |
| api_pull/utils/petfinder/petfinder_api_connection_manager.py:157-159 | The header is `Bearer ` followed by the rendered header dict, so the scheme appears twice. | any token, e.g. `abc` | `Authorization: Bearer <token>` | not executed | PetfinderConnection.DoubleBearer | PetfinderConnection.GenerateAccessTokenHeader |
