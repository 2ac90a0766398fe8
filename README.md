# Crypto landing page: data-access layer in Dafny

This project models the data-access layer of a React landing page for a crypto platform.

- **Transport client** (`src/lib/api.ts`):
  - It builds one request from the base URL, the stored bearer token and the caller's options.
  - It makes up to three attempts. Only server errors (status 500 or more) are retried.
  - It classifies every failure as a timeout (408), a transport failure (status 0) or a server-reported error.
  - It reads the response body by content type.
  - It reports errors to the user. On a 401 it ends the session.
- **Domain service** (`src/lib/services/crypto.service.ts`):
  - It answers from mock data in development mode.
  - Otherwise it calls the client. Any error is downgraded to `[]`, `null` or `false` after reporting it.
- **Configuration record** (`src/lib/config.ts`), resolved from the build environment.
- **`truncateText`** helper (`src/lib/utils.ts`).

Modules:

- **`Wrappers`**: `Option` and `Result`.
- **`Js`**: the JavaScript built-ins the code relies on: JSON values, truthiness, `String(x)`, `includes`, `slice`, and the decimal rendering of integers.
- **`Config`**: `getBooleanValue`, the `config` record and `isFeatureEnabled`, as pure functions of an environment map.
- **`Utils`**: `truncateText`.
- **`Api`**: the client. The browser state the client touches is the class `Browser`, whose fields its methods update:
  - `localStorage`
  - `window.location`
  - the toasts shown
  - the console
- **`CryptoService`**: the service methods and their mock data.

How the effects are modelled:

- `fetch` is an oracle `nat -> Outcome`. It gives the outcome of the k-th attempt: a response, an abort, or a thrown error with an optional message. Every method that talks to the network returns the list of `fetch` calls it made.
- The recursion of `fetchWithRetry` on `retryCount` is a loop in `Api.FetchWithRetry`. That loop is proved equal to the recursive specification `Api.FetchFrom`, and the retry properties are lemmas about `FetchFrom`.
- Several lemmas about a whole request are stated for any step function `steps` that satisfies `Api.AttemptsOf(steps, oracle)`, meaning it runs `Attempt` on each outcome. `Api.StepsOf` gives such a function for every oracle, and shows that its `FetchFrom` is the request's specification `Api.FetchSpec`.
- `Date.now()` is a parameter.
- `Math.random()` is an oracle `nat -> real`. Entry i is the i-th draw.

## Model

| member | source | states |
|---|---|---|
| Config.GetBooleanValue | src/lib/config.ts:20-26 | "true" gives true and "false" gives false; the result differs from the default only when the variable is exactly the string of the result |
| Config.Resolve | src/lib/config.ts:31-50 | environment is the variable when set and non-empty, else "development"; isDevelopment holds exactly when the variable is unset, empty or "development"; at most one of the three environment predicates holds and none does for an unknown name; apiBaseUrl and sentryDsn take their defaults when unset or empty |
| Config.IsFeatureEnabled | src/lib/config.ts:55-57 | the flag equals its own variable parsed with its own default (analytics and dark mode on, testnet off), and is that default when the variable is unset |
| Config.EmptyEnvironmentDefaults | src/lib/config.ts:31-50 | with no variables set the record is development mode, the example API URL, flags on/on/off and no DSN |
| Utils.TruncateText | src/lib/utils.ts:69-72 | short text is returned unchanged; long text becomes its first maxLength characters followed by "...", exactly maxLength + 3 long; the result always starts with the kept prefix |
| Utils.TruncateIdempotent | src/lib/utils.ts:69-72 | truncating a second time with the same bound changes nothing |
| Js.Slice | src/lib/services/crypto.service.ts:101 | `slice(0, end)` is the prefix of length min(end, length), with a negative end counted from the back |
| Js.NatToStringRoundTrip | src/lib/services/crypto.service.ts:105 | the decimal numeral of a number in a template literal reads back as that number |
| Js.IntToString | src/lib/api.ts:136 | the numeral of an integer is non-empty and reads back as its magnitude, with a leading minus sign exactly for negative numbers |
| Js.IncludesIff | src/lib/api.ts:178-182 | the left-to-right scan of `includes` succeeds exactly when the substring occurs at some index |
| Js.JsText | src/lib/api.ts:208-209 | `String(x)` of a string is that string, and of any other truthy non-array value is non-empty |
| Api.ApiBaseUrl | src/lib/api.ts:16-17 | the client's base URL is the configured apiBaseUrl and is never empty |
| Api.RequestConfigAsWritten | src/lib/api.ts:64-80 | the configuration the client sends: the verb unless the caller overrides it; a body exactly when the data is truthy, and then that data; caller headers replace the merged headers wholesale; without caller headers the merged ones are sent, with the JSON content type and with Authorization exactly when a token is stored |
| Api.RequestConfig | src/lib/api.ts:63-80 | the verb, unless the caller overrides it; a body exactly when the data is truthy, and then that data; the bearer token whenever a token is stored; the JSON content type unless the caller sets one; every caller header kept; no other header |
| Api.DefaultHeaders | src/lib/api.ts:64-80 | without caller headers the request carries Content-Type: application/json, plus Authorization: Bearer token exactly when a token is stored |
| Api.AsWrittenAgreesWithoutCallerHeaders | src/lib/api.ts:75-80 | the code as written and the corrected configuration agree whenever the caller passes no headers |
| Api.AsWrittenDropsAuthorization | src/lib/api.ts:75-80 | as written, one caller header removes both the stored bearer token and the content type from the request |
| Api.HeadersToMap | src/lib/api.ts:192-198 | the object's keys are exactly the header names |
| Api.HeadersToMapLookup | src/lib/api.ts:192-198 | with distinct names, every header's value is found under its name |
| Api.GetHeadersObject | src/lib/api.ts:192-198 | the `forEach` loop builds the same object as the header-by-header specification |
| Api.ParseResponse | src/lib/api.ts:175-187 | a content type containing "application/json" is parsed as JSON (its failure is passed on); otherwise one containing "text/" is read as text; anything else is read as a blob; each branch yields the body read that way |
| Api.MissingContentTypeIsBlob | src/lib/api.ts:176-186 | a response without a Content-Type header is read as a blob |
| Api.Attempt | src/lib/api.ts:121-148 | an envelope exactly for an ok status with a readable body, carrying its data, status, status text and headers; a non-ok response with a readable, non-null body raises an ApiError, and every ApiError raised comes from a non-ok response and carries its status, status text, parsed body and the rejection message; a null body on a non-ok response and a body that fails to parse are thrown as plain errors with their message; an abort is thrown as an abort; a transport error passes its message on |
| Api.RejectionMessage | src/lib/api.ts:134-140 | the error message is the body's truthy `message` shown as text, otherwise "Request failed with status N" (always so for text and blob bodies); reading `message` from a JSON null body throws instead |
| Api.TryAttempt | src/lib/api.ts:121-148 | the try block of one attempt computes `Attempt` |
| Api.CatchBlock | src/lib/api.ts:149-169 | the catch block asks for another attempt exactly on a server error (status 500 or more) while retries remain, and otherwise produces the last attempt's envelope or its classified error |
| Api.FetchFrom | src/lib/api.ts:116-170 | a request makes between 1 and retryCount + 1 attempts |
| Api.RetriedOnlyOnServerErrors | src/lib/api.ts:150-155 | every attempt before the last raised a server-reported error with status 500 or more |
| Api.LastAttemptDecides | src/lib/api.ts:150-156 | the result is the last attempt's envelope or its classified error |
| Api.StopsOnlyWhenNotRetried | src/lib/api.ts:150-156 | if the budget is not used up, the last attempt was not a retryable error |
| Api.AttemptsCharacterized | src/lib/api.ts:150-156 | conversely, the number of attempts is the first non-retried attempt, or the budget plus one |
| Api.TimeoutNotRetried | src/lib/api.ts:159-161 | an abort becomes the 408 "Request Timeout" error with no data after one attempt |
| Api.NetworkFailureNotRetried | src/lib/api.ts:163-168 | a thrown error becomes a status 0 error carrying its message, or "Unknown error", after one attempt |
| Api.ClientErrorNotRetried | src/lib/api.ts:134-156 | a rejected response with status below 500 ends the request after one attempt with that status |
| Api.PersistentServerErrorExhaustsRetries | src/lib/api.ts:116-156 | three server errors in a row cost three attempts, and the third one's error is raised |
| Api.StepsOf | src/lib/api.ts:116-170 | the request's specification runs `Attempt` on each outcome of `fetch` |
| Api.LastOutcomeDecides | src/lib/api.ts:149-169 | the request's result is what the catch block makes of the last outcome of `fetch` |
| Api.AttemptClassified | src/lib/api.ts:134-168 | each attempt's result is an ok envelope, a timeout, a transport failure without data, or a server-reported error carrying the response's status and body |
| Api.FailureTaxonomy | src/lib/api.ts:134-168 | a request either returns an ok envelope, or raises a timeout, a transport failure without data, or a server-reported error carrying the last response's status and body |
| Api.FetchWithRetry | src/lib/api.ts:116-170 | the loop returns the specification's result after calling `fetch` once per attempt, at most three times, always with the same URL and configuration |
| Api.Request | src/lib/api.ts:57-83 | every attempt goes to the base URL followed by the endpoint, with the configuration the source assembles from the stored token and the caller's options (caller headers replacing the merged ones), and the result is the retry specification's |
| Api.Get | src/lib/api.ts:88-90 | a GET request without a body, sent with the as-written configuration |
| Api.Post | src/lib/api.ts:95-97 | a POST request whose body is the data when it is truthy, sent with the as-written configuration |
| Api.Put | src/lib/api.ts:102-104 | a PUT request whose body is the data when it is truthy, sent with the as-written configuration |
| Api.Delete | src/lib/api.ts:109-111 | a DELETE request without a body, sent with the as-written configuration |
| Api.ErrorMessage | src/lib/api.ts:204-219 | for a client error, the body's message comes first, then the error's own message, then the fallback; anything else shows only the fallback |
| Api.AttemptNotification | src/lib/api.ts:204-209 | the toast for the error one attempt raises shows that error's own message, and shows the fallback only for a transport failure without a message |
| Api.NotificationForRequestFailure | src/lib/api.ts:134-168 | for an error a request raised, the toast shows the error's own message, and shows the fallback only for a transport failure without a message |
| Api.HandleApiError | src/lib/api.ts:204-219 | the error is logged and one toast shown; on 401 the token is removed and the location set to /login, otherwise storage and location are unchanged |
| Api.UnauthorizedEndsSession | src/lib/api.ts:212-216 | after the token is removed, the next request without caller headers carries no Authorization header |
| CryptoService.MockTopAssets | src/lib/services/crypto.service.ts:98-101 | the development answer is the first min(limit, 3) mock assets in their listed order |
| CryptoService.MockTopAssetsExamples | src/lib/services/crypto.service.ts:30-61 | a limit of 2 gives bitcoin then ethereum, and the default limit of 10 gives all three |
| CryptoService.FindAsset | src/lib/services/crypto.service.ts:119 | a found asset is in the list and has the id; nothing is found exactly when no asset has the id |
| CryptoService.FindAssetIsFirst | src/lib/services/crypto.service.ts:119 | the asset found is the first one with that id |
| CryptoService.FindMockAsset | src/lib/services/crypto.service.ts:30-61 | each mock id finds its own entry |
| CryptoService.BasePrice | src/lib/services/crypto.service.ts:162-163 | the base price is the mock asset's price for a known id and 1000 for an unknown one, and is always positive |
| CryptoService.MockHistory | src/lib/services/crypto.service.ts:158-186 | day gives 24 points an hour apart, week 7 a day apart, year 12 thirty days apart, anything else 30 a day apart, with point i at now - (count - i) * interval; each price is the base price times 0.9 + 0.2 * the i-th draw |
| CryptoService.Samples | src/lib/services/crypto.service.ts:179-186 | the generated points are sampled back from now at the interval, each priced from its own draw |
| CryptoService.SampledTimeline | src/lib/services/crypto.service.ts:179-186 | timestamps rise by exactly the interval, all lie before now, and the last is now - interval |
| CryptoService.MockPriceBounds | src/lib/services/crypto.service.ts:179-184 | when every draw is in [0, 1), each priced point of the history lies within 10% of the base price (at least 0.9 and below 1.1 times it) |
| CryptoService.TopAssetsEndpointInjective | src/lib/services/crypto.service.ts:105 | different limits request different URLs |
| CryptoService.Downgrade | src/lib/services/crypto.service.ts:104-110 | on success the server's data is passed through and the browser is untouched; on failure the error is handled once and the neutral value is returned |
| CryptoService.GetOrDowngrade | src/lib/services/crypto.service.ts:104-110 | one GET of the endpoint, with the data passed through, or the error handled once and the neutral value returned |
| CryptoService.GetTopAssets | src/lib/services/crypto.service.ts:98-111 | development mode returns the mock prefix without calling fetch and changes nothing; otherwise it GETs /assets?limit=N and returns the data unchanged, or, on error, handles it once with "Failed to fetch crypto assets" and returns [] |
| CryptoService.GetAssetDetails | src/lib/services/crypto.service.ts:116-130 | development mode returns the mock asset with the id or null; otherwise it GETs /assets/{id} and returns the data unchanged, or, on error, handles it once with "Failed to fetch details for {id}" and returns null |
| CryptoService.GetMarketStats | src/lib/services/crypto.service.ts:135-148 | development mode returns the mock statistics; otherwise it GETs /market/stats and returns the data unchanged, or, on error, handles it once with "Failed to fetch market statistics" and returns null |
| CryptoService.GetHistoricalPrices | src/lib/services/crypto.service.ts:153-200 | development mode returns the generated history by the timeframe table; otherwise it GETs /assets/{id}/history?timeframe=T and returns the data unchanged, or, on error, handles it once with "Failed to fetch historical price data" and returns [] |
| CryptoService.NewsletterSendsEmail | src/lib/services/crypto.service.ts:213 | the subscription is a POST whose body is `{ email }` |
| CryptoService.SubscribeToNewsletter | src/lib/services/crypto.service.ts:205-219 | development mode logs the email and returns true; otherwise it POSTs {email} to /newsletter/subscribe on every attempt and returns true exactly when the request succeeded, handling any error once with "Failed to subscribe to newsletter" |

## Left out

- Delays. The 10 s abort timer, the 1 s retry delay and the 500 ms mock delay are not modelled; an abort is an outcome the oracle can hand out.
- Real HTTP. `fetch`, `AbortController`, `localStorage`, `window.location`, the `sonner` toast and the console are real effects; the model has an oracle and the fields of `Browser` instead.
- JSON text. JSON encoding and decoding are abstract. The request body is the JSON value to be sent, and a response body offers what `json()`, `text()` and `blob()` would read.
- Floating point. JSON numbers are integers. Prices, `Math.random()` and `averageFee` are exact reals, so IEEE rounding is not modelled.
- Api.RequestConfigAsWritten: requests model only the `method` and `headers` fields of the caller's `RequestInit`. Other fields such as `credentials` or `cache` are left out.
- Header names are compared exactly as given. The Headers API's case-insensitive lookup is not modelled; response header names are taken to be lower case already.
- NULL_MESSAGE_READ: reading `message` from a JSON `null` error body throws a TypeError. The model keeps the error path (a status 0 transport failure, not retried). The message text is the V8 wording, which other engines phrase differently.
- Utils.TruncateText: lengths count Unicode scalar values, where JavaScript's `length` and `slice` count UTF-16 code units, so text with characters outside the Basic Multilingual Plane is cut at a different place (the source can split a surrogate pair). `maxLength` is a natural number; the negative and fractional bounds JavaScript would accept are not modelled.
- Api.ErrorMessage: a non-string `data.message` is shown through `String(x)`, and numbers are always integers.
- CryptoService.MockHistory: `timeframe` is any string. Values outside the four the type admits fall to the month case, as the code does.
- `formatCurrency`, `formatNumber`, `formatDate`, `cn`, `sleep` and `generateId` in `src/lib/utils.ts`. They wrap `Intl`, class-name libraries, timers and randomness.
- The React components and pages. They are presentation.
- The test set-up files, `src/test/setup.ts` and `src/test/utils.tsx`, are not part of this model.
- Concurrency. Independent requests share only the token. The model takes one call at a time.

## Findings

| source | as written | input that shows it | evidently intended | confidence | as-written member | corrected member |
|---|---|---|---|---|---|---|
| src/lib/api.ts:75-80 | `...options` is spread after `headers`, so any caller `options.headers` replaces the merged headers, dropping Content-Type and the bearer token | `get("/x", { headers: { "X-Request-Id": "1" } })` with a stored token sends neither Authorization nor Content-Type | caller headers are merged over the defaults and the token is still sent | not executed | Api.AsWrittenDropsAuthorization | Api.RequestConfig |

The client's requests (`Api.Request` and the four verbs) are modelled as written. `Api.RequestConfig` states the intended configuration, and `Api.AsWrittenAgreesWithoutCallerHeaders` shows that the two agree for every request the service makes, since the service never passes caller headers.
