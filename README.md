# terraform-provider-forward, modelled in Dafny

This project models the decision logic of the Terraform provider for Forward Networks. It covers two layers.

The first is the SDK's HTTP client:
- the client configuration defaults;
- the header rules;
- the retry loop with exponential backoff;
- the request builders and response classifiers of the snapshot, intent-check, NQE (Network Query Engine) and path-analysis accessors.

The second is the provider adapters that sit between Terraform and the SDK: the provider's `Configure`, the `forward_snapshot`, `forward_intent_check` and `forward_nqe_query_definition` resources, and the `forward_snapshots`, `forward_intent_checks`, `forward_nqe_query` and `forward_path_analysis` data sources.

A Terraform attribute is a `TfValue` (`Null`, `Unknown` or `Known(v)`), defined in `Framework`. The rules that move between attribute values and API values are defined there once. Some of them appear two or three times in the Go under different names (`stringOrEmpty`, `stringValue`, `attrStringValue`).

Everything outside the logic is a parameter:
- HTTP and the transport (an attempt number gives an `Outcome`);
- a context that ends (a retry number gives an optional context error);
- the SDK calls that adapters make;
- JSON encoding and decoding;
- the environment (`os.Getenv`);
- the snapshot poll's clock, which is a schedule of `Event`s: a tick with its poll result, cancellation, or the timeout.

Structs that the Go mutates through pointers are classes, and their operations are methods with `modifies` clauses. These are the snapshot and intent-check resource states. Local struct values are datatypes. The loops of the Go are `while`/`for` loops proved against specification functions (`Do` against `Run`, the item loops against `ItemsOf`/`ItemTexts`, the first-match loop against `FirstMatch`). Adapter methods also return what they asked the SDK for (`called`, `sent`, `listed`), so "no API call is made" is stated in their contracts.

Module layout:
- one module per core source file: `Client`, `Api`, `Snapshots`, `IntentChecks`, `Nqe`, `PathAnalysis`, `Provider`, `SnapshotResource`, `IntentCheckResource` (with `IntentCheckState`, which holds that file's state object and `setCheckState`), `IntentChecksDataSource`, `NqeQueryResource`, `NqeQueryDataSource`, `SnapshotsDataSource`, `PathAnalysisDataSource`;
- shared modules: `Wrappers`, `Text` (the standard-library string functions used), `UrlValues` (`url.Values` as a map from key to list of values), `Urls` (the checks by which `url.Parse` accepts or refuses a URL: scheme, control characters, the colon in a first path segment, user info, the port after the host, host characters, and the escapes of host, path and fragment) and `Framework`.

The `forward_path_analysis` model groups its 33 attributes in two records, matching how `Read` uses them. `PathAnalysisConfig` holds what the configuration gives. `PathAnalysisOutputs` holds what the search sets.

## Model

| member | source | states |
|---|---|---|
| Text.TrimSpace | internal/sdk/client.go:85 | The trimmed string has no white space at either end, and it is empty exactly when the input is all white space |
| Text.TrimSpaceIdempotent | internal/sdk/intent_checks.go:100 | Trimming twice is trimming once, so the SDK's trimmed IDs are stable |
| Text.TrimLeftShape | internal/sdk/client.go:85 | The result is a suffix of the input, only white space was removed, and what is left does not start with white space |
| Text.TrimRightShape | internal/sdk/client.go:85 | The result is a prefix of the input, only white space was removed, and what is left does not end with white space |
| Text.TrimSuffix | internal/sdk/client.go:56 | One trailing occurrence of the suffix is removed when present, and otherwise the string is unchanged |
| Text.ContainsInfix | internal/provider/intent_check_resource.go:372 | A string contains every string placed inside it |
| Text.Lower | internal/provider/snapshot_resource.go:188 | Lower-casing keeps the length |
| Text.LowerConcat | internal/provider/snapshot_resource.go:253 | Lower-casing distributes over concatenation |
| Text.LowerOfLowercase | internal/provider/snapshot_resource.go:260-263 | A string without capitals is its own lower-case form |
| Text.Split | internal/provider/snapshot_resource.go:228 | Splitting gives one more piece than there are separators, and no piece holds the separator |
| Text.JoinSplit | internal/provider/snapshot_resource.go:228 | Joining the pieces of a split gives the original string back |
| Text.SplitNoSeparator | internal/provider/snapshot_resource.go:228-229 | A string without the separator splits into itself alone |
| Text.SplitTwo | internal/provider/snapshot_resource.go:228-235 | Two separator-free pieces joined by one separator split back into exactly those two |
| Text.NatToString | internal/sdk/path_analysis.go:163 | A decimal numeral is non-empty, all digits, and has no leading zero |
| Text.DigitChar | internal/sdk/path_analysis.go:163 | A digit value becomes a digit character |
| Text.NatToStringValue | internal/sdk/snapshots.go:56 | The digits of a natural number read back as that number |
| Text.IntToStringRoundTrip | internal/sdk/path_analysis.go:163 | `strconv.Itoa` is injective: its text parses back to the same integer |
| UrlValues.Add | internal/sdk/intent_checks.go:112 | `Add` appends the value to the key's list and leaves every other key alone |
| UrlValues.Set | internal/sdk/snapshots.go:56 | `Set` replaces the key's list by the one value and leaves every other key alone |
| UrlValues.EncodesIffNonEmpty | internal/sdk/intent_checks.go:128-130 | A query where every key has a value encodes to a non-empty string exactly when it has a key |
| UrlValues.AddEach | internal/sdk/intent_checks.go:109-114 | Adding a sequence of values appends exactly those values, in order, under one key |
| UrlValues.AddEachKeepsWellFormed | internal/sdk/intent_checks.go:108-130 | Adding values keeps every key carrying a value; afterwards the query encodes to something exactly when it did before or a value was added |
| UrlValues.AddEachStep | internal/sdk/intent_checks.go:109-114 | One more `Add` extends the values added so far |
| Urls.IndexOf | internal/sdk/client.go:47 | Gives the position of the first occurrence of the character |
| Urls.Cut | internal/sdk/client.go:47 | Splits around the first occurrence, which is absent from the first part; otherwise the whole string is kept |
| Urls.GetScheme | internal/sdk/client.go:47-54 | A leading ':' is an error (a missing scheme); a scheme found starts with a letter and is followed by ':' |
| Urls.CutAtFirst | internal/sdk/client.go:47-50 | When the first part has no `c`, cutting at the first `c` gives back both parts |
| Urls.LastIndexOf | internal/sdk/client.go:47-50 | Gives the position of the last occurrence of the character, and none exactly when it is absent |
| Urls.HexValue | internal/sdk/client.go:47-50 | A hex digit stands for a value below 16 |
| Urls.CheckEscapesAccepts | internal/sdk/client.go:47-50 | The checking pass of `unescape` succeeds exactly when every position is acceptable: a '%' is followed by two hex digits (in a host, standing for 0x80 or more, or "%25"), and in a host every other ASCII character is a host character |
| Urls.BadEscapeText | internal/sdk/client.go:47-50 | A bad escape is reported by at most its first three characters: "%zzabc" gives `invalid URL escape "%zz"`, and a cut-short "%z" gives `invalid URL escape "%z"` |
| Urls.Unescape | internal/sdk/client.go:47-50 | `unescape` accepts a string exactly when it is well escaped for its mode |
| Urls.SplitAtColonEscapes | internal/sdk/client.go:47-50 | User info is well escaped exactly when its name and its password, around the first ':', each are |
| Urls.AfterLastColon | internal/sdk/client.go:47-50 | A position has a ':' before it and none from it on exactly when it lies after the last ':' |
| Urls.DecimalAfterLastColonAt | internal/sdk/client.go:47-50 | With a ':' present, the digits rule is about the positions after the last ':' |
| Urls.PortFrom | internal/sdk/client.go:47-50 | The text from a ':' is a valid optional port exactly when only digits follow it |
| Urls.LastColonPort | internal/sdk/client.go:47-50 | "Every character after the last ':' is a digit" is the same as "the text from the last ':' is a valid optional port" |
| Urls.ParseHost | internal/sdk/client.go:47-50 | An accepted host is well escaped and kept as written. A host starting with '[' needs a ']' and is accepted exactly when what follows its last ']' is a valid optional port and it is well escaped; any other host exactly when only digits follow its last ':' and it is well escaped |
| Urls.BracketedHost | internal/sdk/client.go:47-50 | The bracketed case: "missing ']' in host" without a ']', otherwise the port after the last ']' and the escapes decide |
| Urls.PlainHost | internal/sdk/client.go:47-50 | The unbracketed case: only digits after the last ':', and the escapes, decide |
| Urls.HostEscapes | internal/sdk/client.go:47-50 | A host is accepted exactly when well escaped in host mode, and kept |
| Urls.ParseAuthority | internal/sdk/client.go:47-50 | The host after the last '@' is checked first and its error reported; the whole is accepted exactly when the host is and the user info before it has only allowed characters and well-escaped name and password |
| Urls.HostPart | internal/sdk/client.go:47-50 | The host of an authority is what follows its last '@', or the whole authority without one |
| Urls.ParseUserinfo | internal/sdk/client.go:47-50 | User info is accepted exactly when it holds only its allowed characters and is well escaped; otherwise the characters give "net/url: invalid userinfo" |
| Urls.Parse | internal/sdk/client.go:47-50 | A URL with a scheme starts with a letter and holds ':'; a leading ':' or a control character before any '#' is refused. An accepted URL has a well-escaped path and fragment, and an accepted authority when it has one |
| Urls.ParseWithoutFragment | internal/sdk/client.go:47-50 | The same rules for the part before the fragment, whose fragment is then empty |
| Urls.ParseRest | internal/sdk/client.go:47-50 | A result keeps the scheme, has a well-escaped path and an accepted authority |
| Urls.ParseAuthorityPath | internal/sdk/client.go:47-50 | The authority ends at the first '/'. Its error comes first, then the path's; the result is accepted exactly when both are, and then holds the authority and the path |
| Urls.LetterScheme | internal/sdk/client.go:47-50 | A letters-only scheme followed by ':' is read as the scheme, with the rest after it |
| Urls.WithoutFragment | internal/sdk/client.go:47-50 | Without '#', `Parse` accepts what the fragment-free parse accepts, with the same URL |
| Urls.SchemeThenRest | internal/sdk/client.go:47-50 | After a letters-only scheme, with no '?' or control character, what follows ':' is parsed as the rest |
| Urls.RestWithAuthority | internal/sdk/client.go:47-50 | After a scheme, a rest starting with "//" is an authority and a path |
| Urls.SplitAfterScheme | internal/sdk/client.go:47-50 | "scheme://authority/path" is the scheme, ':' and a rest starting with "//" |
| Urls.HierarchicalUrl | internal/sdk/client.go:47-50 | "scheme://authority/path" with a letters-only scheme and no '#', '?' or control characters is accepted exactly when its authority and path are, and then parses to them |
| Urls.AuthorityAndPath | internal/sdk/client.go:47-50 | A '/'-free authority followed by a path starting with '/' cuts back into them |
| Urls.RefusesBadPort | internal/sdk/client.go:47-50 | A host whose text after the last ':' is not all digits makes the URL refused |
| Urls.RefusesBadEscape | internal/sdk/client.go:47-50 | A path that is not well escaped makes the URL refused, even with an accepted authority |
| Urls.BadPortExample | internal/sdk/client.go:47-50 | A URL spelling "http://h:abc" is refused, so `NewClient` refuses it as a base URL |
| Urls.LetterAuthority | internal/sdk/client.go:47-50 | A one-letter authority is an accepted host |
| Urls.HttpPrefix | internal/sdk/client.go:47-50 | A URL spelling "http://" and then lower-case letters, ':', '/' or '%' is the scheme "http", "://" and the rest, with no '#', '?' or control character |
| Urls.BadEscapeExample | internal/sdk/client.go:47-50 | A URL spelling "http://h/%zz" is refused |
| Client.DefaultUserAgentIsTrimmed | internal/sdk/client.go:85-88 | The default user agent is already trimmed |
| Client.EffectiveMaxRetries | internal/sdk/client.go:90-96 | The retry count is the configured one when positive and 3 otherwise, so it is always at least 1 |
| Client.NewClient | internal/sdk/client.go:41-113 | The errors come in order: empty base URL, unparsable URL, no scheme, empty API key. On success the trailing "/" is removed from the path, the user agent is trimmed (default "terraform-provider-forward/dev"), and the retries and the delay (default 500 ms) are defaulted |
| Client.RequestHeaders | internal/sdk/client.go:133-138 | Every request carries `Authorization: Bearer <key>`, the user agent and `Accept: application/json`. It carries `Content-Type: application/json` exactly when there is a body, and no other header |
| Client.NewRequest | internal/sdk/client.go:116-141 | Fails exactly when the path does not parse, with the parse error wrapped. Otherwise the request holds the base URL and the parsed reference path, the verb and body given, and the headers of `RequestHeaders` |
| Client.RetryableStatusClasses | internal/sdk/client.go:190-198 | The retried statuses are 429 and every status from 500 up except 501, and nothing else |
| Client.AttemptError | internal/sdk/client.go:166-173 | A failed attempt leaves the transport error, or "received status N" |
| Client.Pow2 | internal/sdk/client.go:180 | The shift factor is positive |
| Client.RunShape | internal/sdk/client.go:144-188 | A run of `Do` from attempt `attempt` makes more than `attempt` and at most `maxRetries`+1 attempts. Wait k is `retryDelay·2^(k-1)`; one follows every failed attempt but possibly the last, and none follows success |
| Client.RunOutcomes | internal/sdk/client.go:144-188 | A successful run ends on an accepted response and returns it. Every attempt before the last failed, and the wait after it was not cut short by the context |
| Client.Do | internal/sdk/client.go:144-188 | The loop returns exactly the result, the attempt count and the waits of the recursive specification `Run`, so `RunShape` and `RunOutcomes` hold of it |
| Client.AttemptBound | internal/sdk/client.go:175-177 | `Do` makes between 1 and `maxRetries`+1 attempts |
| Client.FirstAcceptedWins | internal/sdk/client.go:161-164 | With the context alive, `Do` returns the first accepted response after exactly that many attempts, having waited the doubling backoffs |
| Client.Backoffs | internal/sdk/client.go:179-180 | The list of waits before retries from+1 to last, each the doubling backoff |
| Client.ExhaustedRetries | internal/sdk/client.go:175-177 | When every attempt fails and the context stays alive, there are `maxRetries`+1 attempts and the result is the last attempt's error |
| Client.CancelledDuringFirstWait | internal/sdk/client.go:182-185 | A context that ends during the first wait gives its error after one attempt |
| Client.TotalBackoff | internal/sdk/client.go:179-180 | The waits before retries from+1 to n add up to `retryDelay·(2^n − 2^from)`, so `retryDelay·(2^n − 1)` from the first retry |
| Client.ServerErrorsThenSuccess | internal/sdk/client_test.go:17-56 | Two 500s then a 200, with 5 retries allowed, succeed after exactly 3 attempts |
| Client.AlwaysServerError | internal/sdk/client_test.go:58-85 | A server that always answers 500, with 2 retries allowed, fails after 3 attempts with "received status 500" |
| Api.FilterTrimmed | internal/sdk/intent_checks.go:109-126 | The surviving filter values are trimmed and non-empty, and there are no more of them than inputs |
| Api.FilterTrimmedMembers | internal/sdk/intent_checks.go:109-126 | A value survives exactly when it is the trimmed form of some non-blank input |
| Api.FilterTrimmedEmpty | internal/sdk/intent_checks.go:109-126 | Nothing survives exactly when every input is blank |
| Api.AddTrimmed | internal/sdk/intent_checks.go:109-114 | The filter loop adds exactly the trimmed non-blank values, in order |
| Api.ErrorBody | internal/sdk/intent_checks.go:147 | The error body is a prefix of at most 16 KiB, and the whole body when it fits |
| Api.StatusErrorNamesStatus | internal/sdk/intent_checks.go:148 | An "unexpected status" error contains the status in decimal and does not count as cancellation |
| Api.Interpret | internal/sdk/intent_checks.go:137-156 | The accessor succeeds exactly on an accepted status with a body that decodes, and then gives the decoded value. Otherwise it gives the wrapped client error, the status error or the wrapped decode error |
| Api.Acknowledge | internal/sdk/intent_checks.go:265-276 | No error exactly on an accepted status. Otherwise the wrapped client error or the status error |
| IntentChecks.CheckFilterQueryContents | internal/sdk/intent_checks.go:108-130 | Exactly the trimmed non-blank statuses, priorities and types are sent, in order, each under its own key; a query string is added exactly when some filter survives |
| IntentChecks.ListSnapshotChecks | internal/sdk/intent_checks.go:95-157 | A blank snapshot ID is refused without a request. Otherwise a GET of /api/snapshots/{id}/checks is sent with the filter query, and 200 is the only success |
| IntentChecks.AddSnapshotCheck | internal/sdk/intent_checks.go:160-208 | The snapshot ID is checked, then the definition. `persistent` is sent exactly when given, as "true"/"false", and 200 is the only success |
| IntentChecks.GetSnapshotCheck | internal/sdk/intent_checks.go:211-245 | Both trimmed IDs are required. A GET of /api/snapshots/{id}/checks/{checkId} succeeds only with 200 |
| IntentChecks.DeactivateSnapshotCheck | internal/sdk/intent_checks.go:248-277 | Both trimmed IDs are required. The DELETE succeeds only with 200 |
| IntentChecks.DeactivateSnapshotChecks | internal/sdk/intent_checks.go:280-308 | The trimmed snapshot ID is required. The DELETE of all checks succeeds only with 200 |
| Snapshots.ListQuery | internal/sdk/snapshots.go:54-61 | `limit` and `includeArchived` are sent exactly when set, as decimal and "true"/"false", and nothing else is sent |
| Snapshots.ListQueryLimitRoundTrip | internal/sdk/snapshots.go:56 | The limit sent reads back as the limit asked for |
| Snapshots.ListSnapshots | internal/sdk/snapshots.go:41-92 | A blank network ID is refused without a request. The path gets a query string exactly when an option is set, and 200 is the only success |
| Snapshots.CreateSnapshot | internal/sdk/snapshots.go:105-144 | A blank network ID is refused. The POST succeeds with 200, 201 or 202 |
| Snapshots.CreateSnapshotStatuses | internal/sdk/snapshots.go:133-136 | Exactly 200, 201 and 202 let a decodable created snapshot through |
| Snapshots.SnapshotNotFoundSaysNotFound | internal/sdk/snapshots.go:170-172 | The 404 error of `GetSnapshot` says "not found" when lower-cased, which the snapshot resource relies on |
| Snapshots.GetSnapshotAnswer | internal/sdk/snapshots.go:164-184 | A 404 is the "snapshot X not found" error. Any other answer is read as an accessor that accepts only 200 |
| Snapshots.GetSnapshot | internal/sdk/snapshots.go:147-185 | Both trimmed IDs are required, then the GET and its answer |
| Snapshots.DeleteSnapshot | internal/sdk/snapshots.go:188-220 | A blank snapshot ID is refused. 200, 204 and 404 mean success, and anything else is an error |
| Nqe.ScopeQuery | internal/sdk/nqe.go:104-110 | `snapshotId` and `networkId` are sent exactly when non-empty, and nothing else is sent |
| Nqe.DefaultParameters | internal/sdk/nqe.go:100-102 | A nil parameter map is sent as an empty one, and a given one as it is |
| Nqe.RunNqeQuery | internal/sdk/nqe.go:91-148 | Neither query nor query ID is an error first, then no scope. Otherwise a POST of /api/nqe with the scope query and the defaulted parameters, accepting only 200 |
| Nqe.ListNqeQueries | internal/sdk/nqe.go:151-185 | `dir` is sent, untrimmed, exactly when it is not blank, and otherwise there is no query string |
| Nqe.RunNqeDiff | internal/sdk/nqe.go:188-236 | Both trimmed snapshot IDs, then the query ID, are required. The POST goes to /api/nqe-diffs/{before}/{after} with the trimmed IDs and defaulted parameters |
| PathAnalysis.ParamNamesDistinct | internal/sdk/path_analysis.go:145-206 | No two search parameters share a key |
| PathAnalysis.SetIfPresent | internal/sdk/path_analysis.go:161-165 | A parameter is set when it has a value, and otherwise the query is unchanged |
| PathAnalysis.SetRangeKeeps | internal/sdk/path_analysis.go:145-206 | Setting other keys leaves a key's values alone |
| PathAnalysis.SetRangeSends | internal/sdk/path_analysis.go:145-206 | A parameter whose key no other uses is sent exactly when it has a value |
| PathAnalysis.SetRangeKeys | internal/sdk/path_analysis.go:145-206 | Setting parameters adds no key but theirs |
| PathAnalysis.PathQueryContents | internal/sdk/path_analysis.go:145-206 | Each search parameter is sent exactly when it has a value (non-empty string, set integer in decimal, set flag as "true"/"false"), and as that value |
| PathAnalysis.PathQueryKeys | internal/sdk/path_analysis.go:145-206 | Only the search's own parameters are sent |
| PathAnalysis.PathQuerySendsDestination | internal/sdk/path_analysis.go:152 | `dstIp` is always sent, as given |
| PathAnalysis.DecimalParamRoundTrip | internal/sdk/path_analysis.go:161-165 | An integer parameter's text reads back as the integer |
| PathAnalysis.SetRangeStep | internal/sdk/path_analysis.go:145-206 | Setting the k-th parameter, then the rest, is setting from k on |
| PathAnalysis.SetEndpoints | internal/sdk/path_analysis.go:145-159 | The endpoint statements set the first five parameters of the query |
| PathAnalysis.SetProtocol | internal/sdk/path_analysis.go:167-176 | The protocol, port and ICMP statements set the next four |
| PathAnalysis.SetTcpFlags | internal/sdk/path_analysis.go:177-182 | The six TCP-flag statements set the next six |
| PathAnalysis.SetIdentities | internal/sdk/path_analysis.go:184-195 | The identity and URL statements set the next four |
| PathAnalysis.SetLimits | internal/sdk/path_analysis.go:197-206 | The switch and limit statements set the last six |
| PathAnalysis.BuildsPathQuery | internal/sdk/path_analysis.go:145-206 | The statements in source order build exactly the query of the search |
| PathAnalysis.BuildPathQuery | internal/sdk/path_analysis.go:145-206 | The statements, run one after another on an empty query, leave the query of the search, which is well formed and always sends the destination |
| PathAnalysis.SearchPaths | internal/sdk/path_analysis.go:127-235 | Errors in order: blank network ID, empty destination, neither `from` nor source IP. Otherwise a GET of /api/networks/{trimmed id}/paths with the parameter query, accepting only 200 |
| Framework.ValueOr | internal/provider/nqe_query_data_source.go:139-142 | A known value is taken, and otherwise the fallback |
| Framework.BlankOrNull | internal/provider/snapshot_resource.go:296-301 | The result is never unknown, and a known result is the string itself, untrimmed |
| Framework.BlankOrNullTrims | internal/provider/snapshot_resource.go:296-301 | A string becomes null exactly when trimming its white space leaves nothing, and otherwise it is kept whole |
| Framework.StringOrNullRoundTrip | internal/provider/intent_checks_data_source.go:268-273 | The empty-to-null rule reads back losslessly; the other way only a null or non-empty known value comes back as it was |
| Framework.PointerRoundTrip | internal/provider/intent_check_resource.go:326-332 | Pointer and null-or-value are inverse: a nil pointer becomes null and back; only an unknown value is not recovered |
| Framework.StringList | internal/provider/intent_check_resource.go:341-352 | A slice becomes a null list when empty, and otherwise a known list of each element, known, in order |
| Framework.ListOfStrings | internal/provider/intent_checks_data_source.go:289-302 | The append loop builds `StringList` |
| Framework.ElementStrings | internal/provider/intent_check_resource.go:354-366 | A null or unknown list gives nothing, and a known one each element's string in order |
| Framework.StringListValues | internal/provider/intent_check_resource.go:354-366 | The append loop builds `ElementStrings` |
| Framework.StringListRoundTrip | internal/provider/intent_check_resource.go:341-366 | A slice written as a list and read back is the same slice |
| Framework.KnownElements | internal/provider/intent_checks_data_source.go:239-243 | `ElementsAs` succeeds exactly when every element is known, and then gives their values |
| Provider.EnvNamesDistinct | internal/provider/provider.go:23-28 | The four environment variables have different names |
| Provider.FirstNonEmpty | internal/provider/provider.go:103-132 | The fallback chain gives "" exactly when every source is empty |
| Provider.FirstNonEmptyIsFirst | internal/provider/provider.go:103-132 | A non-empty answer is a source, and every source before it is empty |
| Provider.FirstNonEmptyOfTwo | internal/provider/provider.go:103-109 | For two sources, the chain is the `if x == ""` fallback |
| Provider.FirstNonEmptyOfThree | internal/provider/provider.go:110-119 | For three sources, the chain is the double fallback |
| Provider.TrimRightAfter | internal/provider/provider.go:168-171 | Right-trimming after a non-space end only trims what was appended |
| Provider.UserAgentTrimmed | internal/provider/provider.go:168-171 | The client keeps "terraform-provider-forward/" and the version without trailing white space |
| Provider.ResolveSettings | internal/provider/provider.go:103-132 | Each setting comes from its first non-empty source. `insecure` is true only when configured true |
| Provider.Configure | internal/provider/provider.go:94-188 | Only the first missing setting is reported, in the order base URL, API key, network ID; then the client's refusal. On success the same data goes to resources and data sources, holding the resolved network ID, a client aimed at the resolved base URL (one trailing "/" trimmed from its path) and the default retry settings |
| Provider.ConfigWinsOverEnvironment | internal/provider/provider.go:103-109 | A non-empty configured base URL or network ID wins; an empty, null or unknown one falls back to the environment |
| Provider.ApiKeyPrecedence | internal/provider/provider.go:110-119 | The API key comes from the configuration, then `FORWARD_API_KEY`, then `FORWARD_API_TOKEN` |
| IntentCheckResource.DecimalOf404 | internal/provider/intent_check_resource.go:372 | The decimal text of 404 is "404" |
| IntentCheckResource.NotFoundErrors | internal/provider/intent_check_resource.go:368-373 | A 404 refused by any accessor, and an error that wraps a cancelled context, both count as not found |
| IntentCheckState.ShownResultReadsBack | internal/provider/intent_check_resource.go:286-324 | Every reported field of a check reads back from the state as it came |
| IntentCheckState.SetCheckState | internal/provider/intent_check_resource.go:286-324 | A nil result changes nothing. Otherwise the reported fields show the result (empty as null, nil as null, no tags as a null list), and ID, snapshot, persistence and definition are untouched |
| IntentCheckResource.ParseCheckDefinition | internal/provider/intent_check_resource.go:270-284 | A null or unknown definition is refused before decoding. Otherwise the result succeeds exactly when the text decodes |
| IntentCheckResource.CheckRequest | internal/provider/intent_check_resource.go:182-190 | The request carries the planned attributes, with null or unknown ones absent |
| IntentCheckResource.Create | internal/provider/intent_check_resource.go:161-204 | A bad definition is reported with no call. An SDK error is "Error creating intent check" and the plan is kept. Success sets the ID and the reported fields |
| IntentCheckResource.Read | internal/provider/intent_check_resource.go:206-233 | A not-found error removes the resource, another error is reported, and success updates the state |
| IntentCheckResource.Delete | internal/provider/intent_check_resource.go:245-264 | A not-found error is suppressed, and any other is reported |
| IntentCheckResource.DeleteOfMissingCheck | internal/provider/intent_check_resource.go:260-263 | Deactivating a check the server answers 404 for is quiet |
| IntentChecksDataSource.ListValues | internal/provider/intent_checks_data_source.go:237-263 | A filter is empty for a null or unknown list, fails when an element is not known, and otherwise is the elements |
| IntentChecksDataSource.ExpandCheckListOptions | internal/provider/intent_checks_data_source.go:233-266 | Options are invalid exactly when some known filter list has an unknown or null element, and otherwise hold the three filters |
| IntentChecksDataSource.CheckItem | internal/provider/intent_checks_data_source.go:198-212 | An item always has the ID. Each string is null exactly when empty, each pointer exactly when nil, the tags exactly when empty, and each reads back |
| IntentChecksDataSource.Count | internal/provider/intent_checks_data_source.go:214-217 | A tally never exceeds the number of checks |
| IntentChecksDataSource.CountsBounded | internal/provider/intent_checks_data_source.go:189-226 | The four tallies sum to at most the number of checks, and checks with other statuses are in none |
| IntentChecksDataSource.OnePassingCheck | internal/provider/data_sources_test.go:174-182 | One PASS check gives a pass count of 1 and no other count |
| IntentChecksDataSource.CollectChecks | internal/provider/intent_checks_data_source.go:196-220 | The loop gives one item per check, in order, and the four exact case-sensitive tallies |
| IntentChecksDataSource.Read | internal/provider/intent_checks_data_source.go:150-231 | An empty snapshot ID, then a bad filter, stop before any call. Otherwise the list error is reported, or the state holds the four counts and one item per check in order |
| NqeQueryDataSource.KnownEntries | internal/provider/nqe_query_data_source.go:238-243 | `ElementsAs` on the parameter map succeeds exactly when every value is known, with the same keys |
| NqeQueryDataSource.Decoded | internal/provider/nqe_query_data_source.go:244-256 | The decoded parameters have the same keys |
| NqeQueryDataSource.DecodeParameters | internal/provider/nqe_query_data_source.go:244-256 | Succeeds exactly when every value is JSON, giving the decoded map. Otherwise the diagnostic names some key whose value is not |
| NqeQueryDataSource.ExpandParameters | internal/provider/nqe_query_data_source.go:238-258 | A null or unknown map sends none. An unreadable element fails, then a non-JSON value fails, and otherwise all are decoded |
| NqeQueryDataSource.ExpandQueryOptions | internal/provider/nqe_query_data_source.go:260-290 | A negative known limit, then a negative known offset, is refused. The options are sent exactly when either is known, carrying exactly the known values |
| NqeQueryDataSource.ExpandNqeRequest | internal/provider/nqe_query_data_source.go:221-293 | Query, ID and commit are set exactly when known. The checks come in order: parameters readable, JSON, limit, offset; success exactly when all pass |
| NqeQueryDataSource.ExpandedBoundsNonNegative | internal/provider/nqe_query_data_source.go:260-286 | An accepted request never asks for a negative limit or offset |
| NqeQueryDataSource.ItemText | internal/provider/nqe_query_data_source.go:176-184 | A row's text is never empty: an empty raw row becomes "{}", any other stays |
| NqeQueryDataSource.ItemTexts | internal/provider/nqe_query_data_source.go:176-184 | One known text per row, in order |
| NqeQueryDataSource.ItemsJson | internal/provider/nqe_query_data_source.go:176-184 | The loop builds `ItemTexts` |
| NqeQueryDataSource.Read | internal/provider/nqe_query_data_source.go:124-219 | The network is the data source's when known, else the provider's. No scope, then no query, then a bad request stop before the call; a bad request's diagnostic follows the order of `ExpandNqeRequest` (unreadable parameters, a non-JSON parameter, a negative limit, a negative offset). The call runs the request `ExpandNqeRequest` builds: the known query, query ID and commit, the decoded parameters, and the row options exactly when a limit or offset is known. Success sets the network, the result snapshot (null when empty), the total (the API's, or the row count) and the rows as an always-known list |
| NqeQueryResource.FirstMatch | internal/provider/nqe_query_resource.go:200-206 | None exactly when no entry matches (path exact, repository up to case); otherwise the first matching entry |
| NqeQueryResource.LookupQuery | internal/provider/nqe_query_resource.go:186-207 | A blank path is refused without listing. A list error is reported, and otherwise the result is the first match |
| NqeQueryResource.FindQuery | internal/provider/nqe_query_resource.go:200-206 | The loop with early return computes `FirstMatch` |
| NqeQueryResource.FirstMatchIsAt | internal/provider/nqe_query_resource.go:200-204 | The first index that matches is the one found |
| NqeQueryResource.WithQuery | internal/provider/nqe_query_resource.go:126-129 | The ID equals the query ID, the repository is the server's, an empty intent is null, and the path is kept |
| NqeQueryResource.Create | internal/provider/nqe_query_resource.go:97-132 | A lookup error is reported and a missing query is "NQE query not found"; otherwise the state is derived from the found query |
| NqeQueryResource.Read | internal/provider/nqe_query_resource.go:134-166 | A lookup error is reported, a missing query removes the resource, and otherwise the state is derived again |
| NqeQueryResource.ReadAfterCreateFindsSameQuery | internal/provider/nqe_query_resource.go:126-163 | Reading back what `Create` stored finds the same query |
| NqeQueryResource.Delete | internal/provider/nqe_query_resource.go:178-180 | No API call is made and nothing is reported |
| SnapshotsDataSource.ItemOf | internal/provider/snapshots_data_source.go:174-221 | The ID is always set. Every other string is null exactly when empty, and every pointer exactly when nil |
| SnapshotsDataSource.ItemReadsBack | internal/provider/snapshots_data_source.go:174-221 | Every field of a snapshot reads back from its item, and none is unknown |
| SnapshotsDataSource.ItemsOf | internal/provider/snapshots_data_source.go:171-225 | One item per snapshot, in order, with its ID |
| SnapshotsDataSource.Items | internal/provider/snapshots_data_source.go:171-225 | The loop builds `ItemsOf` |
| SnapshotsDataSource.ListOptions | internal/provider/snapshots_data_source.go:143-160 | `limit` and `include_archived` are passed exactly when known |
| SnapshotsDataSource.Read | internal/provider/snapshots_data_source.go:114-230 | The network is the data source's when known, else the provider's. Empty is refused with no call, then a negative limit. Otherwise the list error is reported, or the items are set |
| SnapshotsDataSource.ListedLimitNonNegative | internal/provider/snapshots_data_source.go:143-155 | A limit passed on is never negative |
| PathAnalysisDataSource.SetInt | internal/provider/path_analysis_data_source.go:210-215 | A known value overwrites the destination, and anything else leaves it |
| PathAnalysisDataSource.ParamsIntegers | internal/provider/path_analysis_data_source.go:210-228 | Every integer option, including the TCP flags, is set exactly when its attribute is known, to its value |
| PathAnalysisDataSource.ParamsStringsAndFlags | internal/provider/path_analysis_data_source.go:196-237 | Both flags are set exactly when known. Null or unknown strings become "", and the destination is copied as `ValueString` gives it |
| PathAnalysisDataSource.ConfiguredProtocolIsSent | internal/provider/path_analysis_data_source.go:217 | A known IP protocol reaches the API in decimal, and an unset one is not sent |
| PathAnalysisDataSource.BuildPathParams | internal/provider/path_analysis_data_source.go:195-240 | The build gives `PathParams` of the configuration |
| PathAnalysisDataSource.MarshalAll | internal/provider/path_analysis_data_source.go:247-255 | Either every path is encoded, in order, or the result is the first encoding error |
| PathAnalysisDataSource.MarshalPaths | internal/provider/path_analysis_data_source.go:242-258 | No paths give a null list. Otherwise one text per path in order, or the first failure as "Failed to marshal path" |
| PathAnalysisDataSource.MarshalAllFailsAt | internal/provider/path_analysis_data_source.go:249-252 | The first path that cannot be encoded gives the error |
| PathAnalysisDataSource.MarshalledPathsReadBack | internal/provider/path_analysis_data_source.go:242-258 | The encoded list reads back as the encodings, and is null exactly for no paths |
| PathAnalysisDataSource.MarshalUnrecognized | internal/provider/path_analysis_data_source.go:260-267 | Exactly the keys app_id, user_id and user_group_id, each with its list |
| PathAnalysisDataSource.Read | internal/provider/path_analysis_data_source.go:142-193 | Null `from` and `src_ip` are refused with no call. Otherwise the search gets the built parameters; search and encoding errors are reported; success sets every output known |
| SnapshotResource.ShownSnapshotReadsBack | internal/provider/snapshot_resource.go:270-287 | The reported fields read back from the state, except a state that is only white space, which is null |
| SnapshotResource.UpdateSnapshotState | internal/provider/snapshot_resource.go:270-287 | The state shows the snapshot (blank state as null, nil timestamps as null) and the configured attributes are untouched |
| SnapshotResource.DefaultInt | internal/provider/snapshot_resource.go:289-294 | A known value is taken, and otherwise the fallback |
| SnapshotResource.UnsetWaitSettings | internal/provider/snapshot_resource.go:161-164 | A null or unknown poll interval is 10 s and a null or unknown timeout is 600 s |
| SnapshotResource.Wrap64 | internal/provider/snapshot_resource.go:161-162 | The result lies in the int64 range, and values in range are unchanged |
| SnapshotResource.SecondsExact | internal/provider/snapshot_resource.go:161-162 | Within the duration range, seconds convert exactly, so the interval is positive exactly for positive seconds |
| SnapshotResource.LastSeenStep | internal/provider/snapshot_resource.go:259 | The snapshot shown after one more event follows from that event |
| SnapshotResource.FirstStopDecides | internal/provider/snapshot_resource.go:238-268 | The first event that does not continue decides the wait, and the state shows the last snapshot read up to it |
| SnapshotResource.AllContinueTimesOut | internal/provider/snapshot_resource.go:248-249 | When nothing stops the wait it times out, showing the last snapshot read |
| SnapshotResource.SuccessMeansProcessed | internal/provider/snapshot_resource.go:259-262 | A wait succeeds only on a poll whose state is PROCESSED in any case, and the state shows that snapshot |
| SnapshotResource.GoneSnapshotStopsWait | internal/provider/snapshot_resource.go:253-256 | A poll error that says "not found" ends the wait with that error |
| SnapshotResource.WaitForProcessed | internal/provider/snapshot_resource.go:238-268 | The loop returns the error of `WaitFrom` and leaves the state showing the last snapshot read, or as it was if none was |
| SnapshotResource.Create | internal/provider/snapshot_resource.go:135-172 | A create error is reported and the plan kept. Otherwise the ID is set; the wait happens exactly when `wait_for_processed` is true; it ticks at the configured interval (default 10 s) and its timer is set to the configured timeout (default 600 s), returned as `timeout`; its error is "Error waiting for snapshot"; a non-positive interval is the ticker's panic |
| SnapshotResource.Read | internal/provider/snapshot_resource.go:174-198 | An error saying "not found" removes the resource, another is reported, and success updates the state |
| SnapshotResource.MissingSnapshotIsGone | internal/provider/snapshot_resource.go:188-191 | A 404 from the server is read as a gone snapshot |
| SnapshotResource.Delete | internal/provider/snapshot_resource.go:210-225 | A not-found error is not reported, and any other is |
| SnapshotResource.ImportState | internal/provider/snapshot_resource.go:227-236 | Valid exactly with one "/". The two parts, neither holding "/", join back to the import ID; otherwise "Invalid import format" |
| SnapshotResource.ImportStateRoundTrip | internal/provider/snapshot_resource.go:228-235 | Importing "n/s" sets exactly n and s |

## Left out

- HTTP transport, TLS `InsecureSkipVerify` and request-body rewinding through `GetBody` (internal/sdk/client.go:62-83, 153-159). These are I/O. Each attempt's outcome is a parameter, and the `insecure` flag is only passed on.
- Wall-clock time: `time.After`, the ticker and the timeout timer. The backoff is a computed duration that is recorded in the trace, not slept. The poll's timing is an event schedule. Context cancellation is a per-retry input.
- Client.Backoff: the Go multiplies in `time.Duration` (int64), which overflows only for retry delays and counts far beyond the defaults. The model uses unbounded integers.
- JSON encoding and decoding: decoders, `json.Marshal` of paths and definitions, and the validity of JSON text. They are function parameters. Decoded payloads are given as datatypes, and raw JSON is kept as text (`Json`).
- `url.PathEscape` and the text of `url.Values.Encode`. Request paths are sequences of unescaped segments, and queries are key → list-of-values maps. Only "does it encode to something" is modelled.
- Urls.Parse: the address inside an IPv6 host's brackets and its zone are not validated beyond the host-character and escape rules. Escapes are checked but not decoded, so the path stays as written: `NewClient` trims a trailing "/" of the raw path, where Go trims the decoded one (see the Client.NewClient line). The error texts do not reproduce Go's `%q` quoting of special characters.
- Client.NewClient: the trailing "/" is trimmed from the raw path, where Go trims it from the decoded path: a base URL whose path ends in "%2F" is trimmed in Go and kept as written here.
- Client.NewRequest: `ResolveReference` is not computed. The request holds the base URL and the parsed reference, and the base path's trimmed "/" has no visible effect. The failure of `http.NewRequestWithContext` ("unable to create request", internal/sdk/client.go:128-131) is not modelled: it depends on the verb's and the URL's text.
- Api.Interpret: the `Send` parameter, which stands for `NewRequest` followed by `Do`, is unconstrained. An error from `NewRequest` is wrapped with the accessor's failure text, as a transport error is, while the Go returns it unwrapped (internal/sdk/intent_checks.go:132-135). `Send` may also answer with a retryable status, which `Do` would only pass on after its last retry.
- Api.ErrorBody: the 16 KiB limit counts characters, while Go's `io.LimitReader` counts bytes of the UTF-8 body.
- Text.Lower, Text.EqualFold: ASCII case folding only. Go's Unicode case folding is not modelled.
- Text.TrimSpace: white space is ASCII white space, U+0085 and U+00A0. The other Unicode white space that Go's `strings.TrimSpace` removes is kept.
- The `nil` provider-data checks ("Client Not Configured", "Unconfigured Provider"), the `Configure` type assertions, `Schema`, `Metadata` and plan modifiers. These are framework machinery.
- The `Update` methods of the snapshot, intent-check and NQE resources are not modelled: each writes the plan to the state unchanged. The `ImportState` passthroughs of the intent-check and NQE resources are not modelled either: they copy the ID.
- `tflog` tracing, and the version accessor and data source. The version code is a plain GET and three empty-to-null assignments.
- The diagnostics of `ElementsAs` for a list or map element that is not a string are one parameter (`conversionFailure`). They are not reconstructed.
- NqeQueryDataSource.InvalidParameter: the key is written between plain double quotes, not with `%q` escaping.
- PathAnalysisDataSource.MarshalUnrecognized: a nil slice and an empty slice are the same sequence. The Go hands the framework either.
- The `client is nil` guard of every SDK accessor. A client always exists in the model.
- The diagnosis details of a single intent check, and the NQE sort and column-filter options. The provider never sets the latter. The diagnosis is kept as JSON.
- SnapshotResource.Create: the panic of `time.NewTicker` on a non-positive interval is the output `crashed`. No diagnostic is modelled, and what the framework does after a panicking provider is not modelled either. The timeout the timer is set to is an output, but when the timer fires is the `TimedOut` event of the schedule: the model does not tie its place in the schedule to the timeout or the interval.
