# plantprince — a verified model of the garden planner's recommendation core

The garden planner takes a location, a yard direction, a water level, a
maintenance level and a garden type. It answers with a handful of plant
recommendations produced by a hosted language model. The repository has three
entry points to that model:

* **The direct LLM route** (`routes/recommendations.py` in front of
  `backend/services/llm_service.py`). A dependency refuses the request when the
  service is not configured. The service posts a chat completion, parses the
  completion text strictly and keeps the plants that validate. The route logs
  the request, then turns any failure message into an HTTP error by a
  first-match classification of lower-cased phrases.
* **The GenAI-agent route** (`backend/routes/recommendations.py`). It derives a
  hardiness zone, a season and a sun level from the request and calls the agent.
  The agent's reply is parsed with fence and brace fallbacks, and each plant is
  remapped from the agent's own keys. The route applies the same
  classification, with its own error codes. HTTP errors raised by the agent
  call itself pass through unlogged and unclassified.
* **The stand-alone demo API** (`backend/services/requestinfo.py`). It uses the
  same zone, season and parsing helpers and its own loose plant model. On any
  failure, and when the agent is not configured, it falls back to a fixed mock
  response.

Behind the routes sit the shared parts:

* the pydantic schemas (`backend/models/schemas.py`);
* the request-log service (`backend/services/logging_service.py`), with its
  table of committed rows and the module-level `log_request` that the routes
  call;
* the object-store backup (`backend/services/storage.py`), which stores each log
  under a date-partitioned key.

The model is Dafny, one module per concern:

| module | file |
|---|---|
| `Text` | text.dfy |
| `JsonValue` | json.dfy |
| `Gateway` | gateway.dfy |
| `Schemas` | schemas.dfy |
| `Plants` | plants.dfy |
| `Context` | context.dfy |
| `Extraction` | extraction.dfy |
| `Classification` | classification.dfy |
| `Phrases` | phrases.dfy |
| `LlmService` | llm_service.dfy |
| `LlmRoute` | llm_route.dfy |
| `GenAiRoute` | genai_route.dfy |
| `DemoApi` | demo_api.dfy |
| `Storage` | storage.dfy |
| `Logging` | logging.dfy |

How the source's behaviour appears in the model:

* **Pure code stays pure.** Zone, season, sun level, classification, parsing and
  validation are functions.
* **Loops are methods.** The plant-collecting loops and the handlers that update
  `log_data` step by step are methods, proved equal to the reference functions.
* **Mutable objects are classes.** The Spaces client's uploads, the request-log
  table and the log writer are classes whose methods state their whole new
  state.
* **The outside world is a parameter.** Each of these is passed in:
  * the HTTP gateway's reply (a status and a body, a timeout, or another
    transport failure);
  * `json.loads`;
  * the current month, the clock readings and elapsed milliseconds;
  * whether the database commit and the object upload succeed.
* **Environment settings are inputs.** The configuration the source reads from
  the environment is given to the functions and constructors as arguments.

## Model

| member | source | states |
|---|---|---|
| Schemas.ParseDirection | backend/models/schemas.py:9-18 | a direction is accepted exactly when it equals one of the eight compass codes, and it maps back to that code |
| Schemas.ParseLevel | backend/models/schemas.py:21-32 | water and maintenance accept exactly "Low", "Medium", "High" |
| Schemas.ParseGardenType | backend/models/schemas.py:35-40 | the garden type accepts exactly its four values |
| Schemas.ParseSun | backend/models/schemas.py:43-48 | the sun requirement accepts exactly its four values |
| Schemas.EnumRoundTrips | backend/models/schemas.py:9-48 | every enum value parses back to itself |
| Schemas.ValidateLocation | backend/models/schemas.py:53-87 | a location is accepted iff it has 3 to 100 characters, a non-space character and a comma; the stored value is the stripped text and is not empty |
| Schemas.ValidateRequest | backend/models/schemas.py:51-87 | a body is accepted iff the location is a string its validator accepts and each enum field is a string naming one of its values; the accepted fields are exactly those values; fields are checked in declaration order, so a missing, non-string or invalid location is the error reported before any enum field, and a missing field gets "Field required" |
| Schemas.LocationErrorComesFirst | backend/models/schemas.py:53-58 | a too-short location is the error reported, whatever the other fields hold |
| Schemas.BoundedString | backend/models/schemas.py:92-131 | a text field is accepted iff present, a string and within its length bounds |
| Schemas.PlantFromFields | backend/models/schemas.py:90-131 | a plant is accepted iff each text field is a string within its bounds, sun, water and maintenance are strings naming one of their values, and plant_now passes lax bool parsing; the accepted plant holds exactly those values |
| Schemas.PlantRoundTrip | backend/models/schemas.py:90-131 | a plant within the bounds validates back to itself from its own fields |
| Schemas.ExtraKeysIgnored | backend/models/schemas.py:90-131 | a key outside the plant's fields never changes the validation |
| Schemas.LaxPlantNow | backend/models/schemas.py:116-119 | "yes" and 1 under plant_now validate as true, the rest of the plant unchanged |
| Schemas.MakeResponse | backend/models/schemas.py:134-164 | a response is built iff location and season are strings, the season has 5 to 100 characters and there are 1 to 10 plants; the result is valid and carries the inputs |
| Schemas.MakeErrorResponse | backend/models/schemas.py:167-180 | the error body keeps code and message; retry is suggested only when given as true |
| JsonValue.PyIn | backend/services/llm_service.py:163 | `key in j` is defined exactly on containers, and on a dictionary it is key membership |
| JsonValue.Index | backend/services/llm_service.py:166 | `j[key]` succeeds iff `j` is a dictionary holding `key`, and returns its value |
| JsonValue.Get | backend/services/llm_service.py:166 | `j.get(key, d)` works only on dictionaries and gives the value or the default |
| JsonValue.Iterate | backend/services/llm_service.py:186 | iteration is defined on arrays, dictionaries and strings; an array yields its items and anything else yields only strings |
| JsonValue.AsBool | backend/models/schemas.py:116-119 | lax bool parsing reads true exactly for `true`, 1 and the true words after lower-casing, and false exactly for `false`, 0 and the false words; everything else, null, arrays and objects included, is refused |
| JsonValue.LaxBoolExamples | backend/models/schemas.py:116-119 | "ON" is true and "Off" false, while 2 and "maybe" are refused |
| JsonValue.AsStr | backend/services/requestinfo.py:68-76 | strict string parsing accepts exactly strings |
| JsonValue.FirstItem | backend/services/llm_service.py:166 | `x[0]` gives a list's first item or a string's first character, fails with the KeyError text "0" on a dictionary, and succeeds exactly on non-empty lists and strings |
| Text.Strip | backend/models/schemas.py:79-87 | `strip()` gives the slice left after cutting only whitespace from both ends, and it neither starts nor ends with whitespace |
| Text.StripEmptyIff | backend/models/schemas.py:79 | a text strips to empty iff every character is a space |
| Text.SplitCount | backend/models/schemas.py:83-84 | splitting on a separator gives two or more parts iff the separator occurs |
| Text.PySlice | backend/services/requestinfo.py:290 | Python slicing never lengthens the text, and with bounds in range it is exactly the sub-sequence between them |
| Text.Find | backend/services/requestinfo.py:288-289 | `find` returns the first match at or after the start, or -1 when there is none |
| Text.Pad2 | backend/services/storage.py:72 | `{n:02d}` gives two digits whose value is n |
| Storage.Pad4 | backend/services/storage.py:87 | the year in the ISO timestamp is four digits whose value is the year |
| Plants.DirectPlant | backend/services/llm_service.py:186-192 | only a dictionary entry becomes a plant, and then exactly as the schema validates its fields |
| Plants.Remap | backend/routes/recommendations.py:284-293 | the remapped dictionary has exactly the schema's keys |
| Plants.RemappedPlant | backend/routes/recommendations.py:282-299 | a non-dictionary entry is skipped; a dictionary entry gives exactly the schema validation of its remapped fields, so an accepted plant satisfies the field bounds |
| Plants.ProviderKeysLand | backend/routes/recommendations.py:284-295 | in an accepted remapped plant each field is the agent's value under its own key when present and the default otherwise; `description` fills both care instructions and notes, and without it both take their defaults |
| Plants.EmptyEntryYieldsDefaults | backend/routes/recommendations.py:284-295 | an empty entry yields the plant made of all the defaults |
| Plants.DescriptionFillsBoth | backend/routes/recommendations.py:291-292 | care instructions and notes both come from `description` |
| Plants.ValidPlants | backend/services/llm_service.py:185-192 | the kept plants are no more than the entries, and each is the conversion of some entry |
| Plants.CollectValidPlants | backend/services/llm_service.py:185-192 | the loop yields exactly the reference list of kept plants |
| Plants.ValidPlantsIsSubsequence | backend/services/llm_service.py:185-192 | the kept plants are the converting entries in ascending position order, each position used iff its entry converts |
| Plants.ValidPlantsEmptyIff | backend/services/llm_service.py:194-195 | nothing is kept iff no entry converts |
| Plants.ValidPlantsAppend | backend/services/llm_service.py:186-192 | filtering distributes over concatenation |
| Plants.InvalidEntrySkipped | backend/services/llm_service.py:190-192 | an entry that fails is skipped and never changes the rest |
| Context.ZoneLookup | backend/services/requestinfo.py:115-120 | the zone is the first table entry whose city occurs, or the default when none does |
| Context.HardinessZone | backend/services/requestinfo.py:90-120 | the zone is a table zone or the default |
| Context.DenverIs5b | backend/services/requestinfo.py:99-100 | "Denver, CO" is zone 5b |
| Context.UnknownCityIsDefault | backend/services/requestinfo.py:115-120 | a city missing from the table gets zone 6b |
| Context.CurrentSeason | backend/services/requestinfo.py:123-137 | each season label belongs to exactly its three months |
| Context.SunLevel | backend/services/requestinfo.py:140-152 | the upper-cased direction decides the sun level; an unknown code gives "partial sun" |
| Context.LowerCaseDirectionsAccepted | backend/services/requestinfo.py:152 | lower-case codes are accepted through upper-casing |
| Extraction.CompletionContent | backend/services/requestinfo.py:269-279 | missing or empty choices fail with their message; a non-empty string as choices fails as an invalid structure, since its first character never holds "message"; dictionary choices fail with the KeyError text "0"; otherwise the content is read from the first choice's message, else from its delta |
| Extraction.FenceBody | backend/services/requestinfo.py:286-295 | the opener is found; when a closing fence follows the body start, the body is the stripped text from the start up to the first closing fence at or after it, with no fence in between |
| Extraction.ChooseStrategy | backend/services/requestinfo.py:287-304 | a json fence is tried iff present; a bare fence only when there is no json fence |
| Extraction.GreedyBraceMatch | backend/services/requestinfo.py:300-302 | the match runs from the first `{` to the last `}`; there is no match iff no `{` precedes a `}` |
| Extraction.Candidate | backend/services/requestinfo.py:287-304 | a fence strategy always yields a candidate text |
| Extraction.ParseAgentResponse | backend/services/requestinfo.py:262-309 | a failure to read the content is reported with the parse-failure prefix; content that parses as a whole is exactly that parse; otherwise the result is the parse of the one candidate; every failure carries the prefix |
| Extraction.JsonFenceDecides | backend/services/requestinfo.py:285-291 | with a json fence the result is exactly the parse of the fence body |
| Extraction.BareFenceDecides | backend/services/requestinfo.py:291-295 | with a bare fence and no json fence, once the whole content fails to parse, the result is exactly the parse of the stripped text between the fences |
| Extraction.BraceSpanDecides | backend/services/requestinfo.py:297-304 | without fences, success depends only on the brace span, and a missing span is the not-found error |
| Extraction.UnclosedFenceDropsLastChar | backend/services/requestinfo.py:288-290 | an unclosed fence makes the body drop the text's last character |
| Gateway.AgentConfigured | backend/routes/recommendations.py:134 | the agent is configured iff the key and the base URL are both set and not empty |
| Classification.Classify | routes/recommendations.py:121-144 | each kind is chosen exactly when its phrase test matches and no earlier test does |
| Classification.RetrySuggested | routes/recommendations.py:121-144 | a retry is suggested iff the status is not 503 |
| Classification.CodesAgreeExceptProvenance | backend/routes/recommendations.py:351-374 | the two routes' codes agree exactly on authentication, timeout and rate limit |
| Classification.ErrorBody | routes/recommendations.py:146-151 | the body's message is the fixed prefix plus the failure message, and its code and retry follow the classification |
| Classification.FirstMatchWins | routes/recommendations.py:121-132 | a message naming both a missing configuration and a timeout gets 503 and no retry |
| Phrases.TimedOutPhrases | backend/services/llm_service.py:214 | the timeout message contains none of the classified phrases, not even "timeout" |
| Phrases.RateLimitPhrases | backend/services/llm_service.py:221 | the rate-limit message contains "rate limit" and no earlier phrase |
| Phrases.AuthenticationPhrases | backend/services/llm_service.py:219 | the authentication message contains "authentication" and not "not configured" |
| Phrases.ServiceErrorPrefixPhrases | backend/services/llm_service.py:223 | the service-error prefix contains none of the phrases |
| Phrases.UnexpectedPrefixPhrases | backend/services/llm_service.py:227 | the wrapping prefix contains none of the phrases |
| Phrases.InvalidJsonPrefixPhrases | backend/services/llm_service.py:176 | the invalid-JSON prefix contains "invalid" and "json" and no earlier phrase |
| Phrases.InvalidFormatPrefixPhrases | backend/services/llm_service.py:210 | the invalid-format prefix contains "invalid" but none of the other phrases |
| Phrases.MissingPlantsPhrases | backend/services/llm_service.py:182 | the missing-plants message contains none of the phrases |
| Phrases.NoValidPlantsPhrases | backend/services/llm_service.py:195 | the no-valid-plants message contains none of the phrases |
| Phrases.ParseFailurePrefixPhrases | backend/routes/recommendations.py:216 | the parse-failure prefix contains none of the phrases, nor "invalid" |
| Phrases.AgentMissingPlantsPhrases | backend/routes/recommendations.py:278 | the agent's missing-plants message contains none of the phrases |
| Phrases.AgentNoValidPlantsPhrases | backend/routes/recommendations.py:302 | the agent's no-valid-plants message contains none of the phrases |
| Phrases.NoJsonFoundPhrases | backend/routes/recommendations.py:211 | the not-found message contains "json" but not "invalid", nor any earlier phrase |
| LlmService.IsConfigured | backend/services/llm_service.py:31-36 | the service is enabled iff the key and the endpoint each have a non-space character |
| LlmService.ServiceSeason | backend/services/llm_service.py:38-49 | each label belongs to exactly its months, every other month is fall, and the label fits the response's season bounds |
| LlmService.SunExposure | backend/services/llm_service.py:51-63 | the exposure is unknown iff the direction is not one of the eight exact codes |
| LlmService.EveryDirectionHasExposure | backend/services/llm_service.py:51-63 | every direction the schema accepts has a known exposure |
| LlmService.LowerCaseExposureUnknown | backend/services/llm_service.py:51-63 | the lookup is case-sensitive, so lower-case codes are unknown |
| LlmService.StatusMessage | backend/services/llm_service.py:216-223 | 401 and 429 have their own messages; any other code is quoted in decimal after the service-error prefix |
| LlmService.ContentText | backend/services/llm_service.py:163-169 | missing or falsy choices give the no-choices error; a successful text is exactly `choices[0].get("message", {}).get("content", "")`; when that content is a non-empty string it is the result, and when it is falsy the result is the empty-response error |
| LlmService.ParsedContent | backend/services/llm_service.py:171-176 | a content error passes through unchanged; the stripped content is parsed strictly, a successful parse is the result and a decoder error gets the invalid-JSON prefix |
| LlmService.Validation | backend/services/llm_service.py:179-206 | missing plants and no valid plants give their messages; success is valid, from "llm", holds exactly the kept plants, and uses the location and season fallbacks; conversely, once some plant is kept, the result is exactly the response built from the fallbacks and the kept plants, so it succeeds iff that response validates |
| LlmService.Recommendation | backend/services/llm_service.py:110-227 | a disabled service, a timeout, a transport failure and an error status each give their message; on a 2xx reply an undecodable body and a content error get the wrapping prefix, a validating content is exactly the validated response, and a validation failure gets both prefixes |
| LlmService.FailureMessages | backend/services/llm_service.py:123-227 | the only failure messages are configuration, timeout, authentication, rate limit, a quoted status, or a wrapped message |
| LlmService.FallbacksFromRequest | backend/services/llm_service.py:197-203 | without location and season the response uses the request's location and the service's season |
| LlmService.LlmService.constructor | backend/services/llm_service.py:18-26 | the service is enabled iff it is configured |
| LlmService.LlmService.ValidateRecommendation | backend/services/llm_service.py:179-206 | the validation loop gives exactly the reference validation |
| LlmService.LlmService.GetRecommendations | backend/services/llm_service.py:110-227 | the method gives exactly the reference result |
| LlmRoute.ValidateLlmService | routes/recommendations.py:22-32 | a disabled service is refused with 503, "llm_service_unavailable" and no retry, and only then |
| LlmRoute.InitialLogData | routes/recommendations.py:64-76 | the log starts as a failure with no error, no time and no plants |
| LlmRoute.UpdatedLogData | routes/recommendations.py:88-115 | success records the plant count; failure records the message; both record the elapsed time |
| LlmRoute.LogDataRecordsOutcome | routes/recommendations.py:64-115 | the log is a success iff a response came back; the plant count and error follow from it |
| LlmRoute.FailureError | routes/recommendations.py:120-156 | the raised status and body follow the classification of the message |
| LlmRoute.GetPlantRecommendations | routes/recommendations.py:44-156 | a disabled service is refused before anything is logged; otherwise exactly one log line, the updated log data, is written, the uploads grow by exactly its backup, and the outcome is the response or the classified error |
| LlmRoute.ServiceTimeoutIsGeneralFailure | routes/recommendations.py:129-144 | an upstream timeout reaches the client as 500 "llm_service_failed", not 504 |
| LlmRoute.TimedOutMessageIsQuiet | backend/services/llm_service.py:212-214 | the timeout message names no classified phrase |
| LlmRoute.UpstreamRateLimitIs429 | routes/recommendations.py:133-136 | an upstream 429 becomes 429 "rate_limit_exceeded" with a retry |
| LlmRoute.RateLimitMessagePhrases | backend/services/llm_service.py:220-221 | the rate-limit message reaches the rate-limit test |
| LlmRoute.UpstreamUnauthorizedIs503 | routes/recommendations.py:125-128 | an upstream 401 becomes 503 "authentication_failed" without a retry |
| LlmRoute.AuthenticationMessagePhrases | backend/services/llm_service.py:218-219 | the authentication message reaches the authentication test |
| LlmRoute.OtherUpstreamStatusIs500 | routes/recommendations.py:141-144 | any other upstream error status becomes 500 "llm_service_failed" |
| LlmRoute.ServiceErrorIsQuiet | backend/services/llm_service.py:222-223 | a quoted status code names no classified phrase |
| LlmRoute.UndecodableContentIs502 | routes/recommendations.py:137-140 | undecodable content becomes 502 "llm_response_invalid" with a retry, unless the decoder's message names an earlier phrase |
| LlmRoute.ValidationFailureIs500 | routes/recommendations.py:137-144 | a validation failure becomes 500 "llm_service_failed", unless its message names a phrase |
| LlmRoute.ValidationMessagesAreQuiet | backend/services/llm_service.py:181-195 | the service's own validation messages name no phrase |
| LlmRoute.NoValidPlantsIs500 | backend/services/llm_service.py:194-210 | a reply whose entries all fail ends as 500 with the wrapped no-valid-plants message |
| GenAiRoute.CallAgent | backend/routes/recommendations.py:132-174 | not configured is 503; a timeout is 504; an error status passes through with the API-error detail; other failures are caught exceptions; success iff configured, 2xx and decodable |
| GenAiRoute.AgentValidation | backend/routes/recommendations.py:276-310 | missing plants and no valid plants give their messages; success is valid, from "genai_agent", holds exactly the remapped plants that validate, and uses the fallbacks; conversely, once some plant is kept, the result is exactly the response built from the fallbacks and the kept plants, so it succeeds iff that response validates |
| GenAiRoute.AgentRecommendation | backend/routes/recommendations.py:262-310 | a passed-through HTTP error happens iff the agent is not configured, times out or answers non-2xx; any failure of the call is the result; on a decodable 2xx reply a parse failure and a validation failure are caught with their messages, and a validating reply is exactly the validated response |
| GenAiRoute.FailureOutcome | backend/routes/recommendations.py:330-386 | HTTP errors are re-raised as they are; every other failure is raised with its classified status and GenAI code |
| GenAiRoute.ValidateAgentRecommendation | backend/routes/recommendations.py:276-310 | the remapping loop gives exactly the reference validation |
| GenAiRoute.GetPlantRecommendations | backend/routes/recommendations.py:228-386 | the outcome is the response or the failure's outcome; passed-through errors are not logged; every other request writes exactly one log line, the updated log data, and the uploads grow by exactly that line's backup |
| GenAiRoute.ParseFailureIs500 | backend/routes/recommendations.py:350-374 | an unparseable reply becomes 500 "genai_agent_failed" with the full prefixed message, unless the inner message names a phrase |
| GenAiRoute.NoJsonFoundIs500 | backend/routes/recommendations.py:367-374 | content with no JSON to extract is 500, not 502 |
| GenAiRoute.ValidationFailuresAre500 | backend/routes/recommendations.py:276-302 | missing plants and no valid plants both end as 500 |
| DemoApi.DemoPlantFrom | backend/services/requestinfo.py:66-76 | a demo plant is accepted iff the entry is a dictionary with a string name, every other text field present is a string, and plant_now, when present, parses as a bool; each field is the given value or its default |
| DemoApi.DemoPlantRoundTrip | backend/services/requestinfo.py:66-76 | every demo plant validates back to itself from its serialisation |
| DemoApi.DemoPlantsFrom | backend/services/requestinfo.py:79-83 | the list is accepted iff every element is, and then element by element |
| DemoApi.DemoPlantsRoundTrip | backend/services/requestinfo.py:79-83 | every list of demo plants validates back to itself |
| DemoApi.DemoResponseFrom | backend/services/requestinfo.py:79-83 | a response is accepted iff zone and season are strings and the plants list is valid |
| DemoApi.DemoResponseRoundTrip | backend/services/requestinfo.py:79-83 | every demo response validates back to itself |
| DemoApi.AgentResponse | backend/services/requestinfo.py:338-349 | the agent path succeeds only on a 2xx decodable reply whose parsed content validates, and on such a reply the result is exactly the demo validation of the parsed content |
| DemoApi.MockPlants | backend/services/requestinfo.py:354-399 | four mock plants; the first three take the request's water and maintenance; the last is fixed |
| DemoApi.DemoRecommendations | backend/services/requestinfo.py:326-411 | the agent's response when configured and successful, otherwise the mock with the derived zone and season |
| DemoApi.FailureFallsBackToMock | backend/services/requestinfo.py:338-352 | any agent failure gives the same mock as an unconfigured agent |
| DemoApi.AgentZoneIsNotChecked | backend/services/requestinfo.py:349 | the agent's response is returned as it is, with the agent's zone |
| Storage.IsoFormat | backend/services/storage.py:87 | the ISO timestamp has 19 characters with `T` at position 10 |
| Storage.IsoFormatLayout | backend/services/storage.py:87 | the timestamp is the four-digit year, then the two-digit month, day, hour, minute and second, separated by "-", "T" and ":", and each field's digits read back as the instant's own field |
| Storage.IsConfigured | backend/services/storage.py:45-52 | backups are configured iff key, secret and endpoint each have a non-space character |
| Storage.LogId | backend/services/storage.py:71 | a missing id is "unknown"; a numeric id is its decimal digits |
| Storage.DatePath | backend/services/storage.py:72 | for a four-digit year, the date part holds the year and the zero-padded month and day at fixed positions |
| Storage.Stamp | backend/services/storage.py:72 | the time part holds the zero-padded hour, minute and second, and ends in ".json" |
| Storage.BackupKey | backend/services/storage.py:72 | every key starts with "request-logs/" and ends with ".json" |
| Storage.BackupKeyLayout | backend/services/storage.py:72 | the date, the id and the time stamp sit at fixed positions in the key |
| Storage.BackupKeyInjective | backend/services/storage.py:69-72 | two backups of the same log, dated in four-digit years, share a key only when made in the same second |
| Storage.Metadata | backend/services/storage.py:83-88 | the metadata exists iff location and garden type, when present, are strings, and they and the success text are ASCII, since the store client refuses other metadata before sending; it has four keys, with the success flag shown as "True"/"False" and "False" by default |
| Storage.MetadataValues | backend/services/storage.py:83-88 | the metadata carries the log's own location and garden type, empty when absent, and the string form of its success flag, "False" when absent |
| Storage.BackupOutcome | backend/services/storage.py:54-99 | a key comes back iff the client is active, the upload succeeds and the metadata is valid, and it is the log's key |
| Storage.MissingIdIsUnknown | backend/services/storage.py:71-72 | a log without an id is stored under "unknown" |
| Storage.NonAsciiLocationNotBackedUp | backend/services/storage.py:76-95 | a location such as "Zürich, ZH" makes the upload fail, so no key comes back |
| Storage.BackupUploads | backend/services/storage.py:54-99 | a backup adds at most one upload; it adds one iff the store is enabled and the backup succeeds, under the log's key in the bucket, with the record as body |
| Storage.SpacesClient.constructor | backend/services/storage.py:18-43 | the client is enabled iff it is configured and its store client can be built; the bucket defaults to "garden-planner-logs" |
| Storage.SpacesClient.BackupRequestLog | backend/services/storage.py:54-99 | the returned key is the reference outcome; a success records exactly one upload under that key, a failure uploads nothing, and the uploads grow by exactly the reference uploads |
| Logging.NewEntry | backend/services/logging_service.py:44-60 | the row copies the request, is a success iff there is a response, and takes the response's plant count and season only then |
| Logging.BackupColumnsWin | backend/models/database.py:63-79 | the record's id, location, garden type and success columns are its own |
| Logging.BackupOfRecord | backend/services/logging_service.py:95-98 | a committed row whose location and garden type are ASCII is backed up under its own id, with its success flag as metadata |
| Logging.WithBackup | backend/services/logging_service.py:100-103 | a non-empty key is attached with its instant; otherwise the entry is unchanged |
| Logging.NumberedAppend | backend/services/logging_service.py:63-65 | inserting the next id keeps the rows numbered in insertion order |
| Logging.RequestLogStore.LogRequest | backend/services/logging_service.py:22-80 | a failed commit changes nothing and returns nothing; a commit appends exactly the new row; the returned entry is that row with its backup outcome, the key made at the backup's clock reading and the attach instant read afterwards; the uploads grow by exactly that backup's upload |
| Logging.RequestLogStore.BackupToSpaces | backend/services/logging_service.py:83-107 | a disabled store leaves the entry and the uploads unchanged; otherwise the entry gets the backup outcome, keyed at the first clock reading and stamped with the second, and the uploads grow by exactly that backup's upload |
| Logging.SuccessfulBackupIsRecorded | backend/services/logging_service.py:95-103 | a successful backup of an ASCII row attaches the key made at the first clock reading and the second reading as its instant, and nothing else changes |
| Logging.RequestLogger.LogRequest | backend/services/logging_service.py:193-215 | the data is written as exactly one log line; the uploads grow by exactly its backup's upload, which is none when the store is disabled |

## Left out

- Prompt construction (`_create_prompt`, `construct_agent_prompt`) is left out. Prompts are free text sent to the model, and no property of the core depends on their wording. The zone and sun level are therefore computed but feed nothing else in the model.
- `LoggingService.get_recent_logs` and `get_log_stats` are left out. They are read-only database queries with averages over floats.
- `list_backups` and `get_backup` of the Spaces client are left out. They are read-only listing and retrieval through the store client.
- The health and root endpoints are left out. They are constant dictionaries.
- `backend/config.py` and environment loading are left out. Configuration values are parameters of the constructors and functions instead.
- JSON encoding and decoding (`json.loads`, `json.dumps`, `response.json()`, `model_dump_json`) are not implemented. The decoder is a parameter, and the encoder is represented by the structured value it would encode.
- `JsonValue.Iterate`: iterating a dictionary yields its keys in Python, and the model yields none. Every caller skips those string keys anyway, so the kept plants are the same.
- `JsonValue.TypeMismatch`: Python's `TypeError`/`AttributeError` messages name the offending type. The model uses one fixed message that contains none of the classified phrases.
- Numbers are integers. Floats in JSON and the millisecond arithmetic on `timedelta` are not modelled, and elapsed milliseconds are a parameter.
- Pydantic's validation messages for a request body (`Schemas.ValidateRequest`): only the first failing field's message is modelled, in its own words. The exact multi-error text pydantic builds is not.
- `Schemas.MakeResponse`: a refused response gives the fixed text "validation error for RecommendationResponse". Pydantic's real message also carries the error count, the field names, the reasons and the echoed `input_value`, and the model does not. Both routes classify the failure text by the phrases it contains, so the model can classify differently from the source. For example, agent content `{"location": ["timeout"], "plants": [<one valid plant>]}` gives 504 "request_timeout" in the source, because the echo contains "timeout"; in the model it gives 500 "genai_agent_failed". The same holds for the other classified phrases and for the LLM route.
- `Text.Lower`, `Text.Upper`: case mapping covers ASCII letters only, not Unicode case folding.
- `Storage.Display`: `str()` of nested arrays and objects is a fixed placeholder, not Python's representation. Only the id and the success flag, which are scalars, reach a key or the metadata.
- The store client library (boto3) is modelled only by what the backup observes: an upload that succeeds or fails, as a parameter, and its refusal of non-ASCII metadata values before sending, which the source's `except Exception` turns into no key.
- `Storage.DateTime` has whole-second resolution. `isoformat()` on an instant with microseconds, which would append them, is not modelled.
- `Logging.RequestLogStore`: database ids are modelled as consecutive positions starting at 1. The session is a sequence of rows, and SQL, refresh and rollback are not modelled beyond "the table is unchanged".
- `Logging.RequestLogStore.LogRequest`: the backup key is attached to the returned entry but never committed, because the source commits no more after the backup. The stored row therefore never carries it, and the model keeps that.
- `Gateway.Reply`: the HTTP client is not modelled, only the outcome the callers observe. `raise_for_status` treating only 2xx as success is modelled explicitly; redirects and HTTP/2 details are not.
- `DemoApi.DemoRecommendations`: the demo handler's outer `except` (a 500) is not modelled. Every step inside it is total in the model, because the zone, season and mock construction cannot raise, so that branch is unreachable.
- Logging to the console (`logger.info`, `print`) is left out. The log writer's lines stand for what `log_request` writes.
- The duplicate copies under `services/` are identical to their `backend/services/` counterparts, so only the latter are cited.
