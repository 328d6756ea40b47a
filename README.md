# scafold front end: the authenticated API access layer, in Dafny

This project models the part of the scafold front end that talks to the
backend on behalf of a user, and proves properties of that model. The front
end is a Next.js application where teachers search passages and administrators
register them. The modelled parts are:

- **API client** (`src/lib/api-client.ts`). `apiFetch` builds the URL with its
  search parameters, the headers (JSON content type, the `X-Scafold-Token`
  credential, caller overrides) and the JSON body. It then turns the server's
  answer into a parsed value or an `ApiError`.
- **Token store** (`src/lib/token-storage.ts`). The credential is persisted
  under one key of the browser's local storage. Both operations do nothing
  outside a browser.
- **Token provider** (`src/components/auth/token-context.tsx`). It holds the
  in-memory token, loads it on mount and writes storage before memory.
- **Token form and indicator** (`src/components/auth/token-form.tsx` and
  `src/components/auth/token-indicator.tsx`). The form validates and trims
  input. The badge masks the token and removes it on request.
- **Page handlers** (`src/app/page.tsx` and `src/app/admin/page.tsx`). These
  are the search and request forms, plus the admin console's passage form and
  request list. Each handler is a state transition over the page's `useState`
  fields, given the server's answer.

One module per source file:

| file | module |
|---|---|
| `api_client.dfy` | `ApiClient` |
| `token_storage.dfy` | `TokenStorage` |
| `token_context.dfy` | `TokenContext` |
| `token_form.dfy` | `TokenForm` |
| `token_indicator.dfy` | `TokenIndicator` |
| `search_page.dfy` | `SearchPage` |
| `admin_page.dfy` | `AdminPage` |
| `config.dfy` | `Config` (the constants of `src/lib/config.ts`) |

Three support modules hold the language semantics the code relies on:

- `js_strings.dfy`: string truthiness, `trim`, `split`/`join` on one character, `slice`, and `String(n)`.
- `json.dfy`: parsed JSON values, truthiness, the `detail` property read, and the `String(…)` conversion the `Error` constructor applies.
- `wrappers.dfy`: `Option` and `Result`.

How the code's behaviour is modelled:

- **The network is a parameter.** The server's answer is an `HttpOutcome`: a
  transport failure, or a status, a status text and a body that is or is not
  JSON. `ApiFetch` returns what it passes to `fetch` (`PrepareRequest`) and how
  the call settles (`Settle`). A settled call is the parsed value, an
  `ApiError`, or another failure: `fetch` rejecting, `res.json()` rejecting on
  a 2xx status, or a `TypeError` thrown on the way.
- **Browser storage is an object.** `localStorage` is a `Storage` object
  holding a string-to-string map. "No window" is a `null` storage reference.
- **Components are classes.** The provider and the pages are classes whose
  fields are the component's state. A handler is a method that changes them.
  The token a page reads from `useToken()` is a constant of the page object.
- **`buildUrl` loops.** It is a method that loops over the search-parameter
  entries in enumeration order, as the source's `forEach` does. Each step
  applies `URLSearchParams.set`: the first pair with that name is replaced,
  later ones are dropped, and a missing name is appended. The loop is proved
  to produce `BuildQuery(entries)`. That result has each name at most once,
  no empty value, and for each name the last non-empty value given.

Behaviour of the code that the model keeps:

- **A truthy body is passed on whatever the method.** `apiFetch` hands
  `JSON.stringify(body)` to `fetch` for every method whenever the body is
  truthy (`ApiClient.BodyIgnoresMethod`). The Fetch standard's `Request`
  constructor throws a `TypeError` for a `GET` with a body, so such a call
  rejects before anything is sent (`ApiClient.GetWithBodyRejects`); a `DELETE`
  with a body is sent. No page makes such a call.
- **`fetch` checks every header.** A header name must be an HTTP `token`. A
  header value must convert to a `ByteString`, so every code point is at most
  U+00FF. Once the leading and trailing HTTP white space is stripped, it must
  hold no NUL, line feed or carriage return. The token goes into its header
  unchecked, and the token form accepts any input that is not blank. A token
  typed in Hangul, say, makes every call reject with a `TypeError` before
  anything is sent (`ApiClient.BadTokenRejects`, `ApiClient.HangulTokenRejects`).
  The pages then show their generic message.
- **There are three error messages.** A non-2xx answer's message is the status
  text when the body is not JSON, the `detail` field when it is present and not
  `null`, and "API request failed" otherwise.
- **Some error bodies throw a `TypeError` instead.** A JSON error body of
  `null` makes `message.detail` throw. A `detail` that `String(…)` cannot
  convert throws too: an object with its own `toString` key (a JSON value is
  never callable), or an array holding one. In both cases no `ApiError` is
  raised and the pages show their generic message.

## Model

| member | source | states |
|---|---|---|
| ApiClient.SetParam | src/lib/api-client.ts:28 | `params.set`: afterwards the name maps to the new value, every other name keeps its value, and distinct names and non-empty values are preserved |
| ApiClient.BuildQuery | src/lib/api-client.ts:25-31 | the query left by the loop has every name at most once and no empty value, and each name holds the last non-empty value the entries give it |
| ApiClient.QueryKeyPresent | src/lib/api-client.ts:26-30 | a name is on the URL if and only if some entry gives it a non-empty value |
| ApiClient.QueryValueIsLast | src/lib/api-client.ts:26-30 | an entry with a non-empty value that no later entry overrides is the value on the URL |
| ApiClient.BuildUrl | src/lib/api-client.ts:23-33 | the loop over the entries yields the base, the path and exactly `BuildQuery` of the entries, or no query without search parameters |
| ApiClient.BuildHeaders | src/lib/api-client.ts:44-48 | the header names are `Content-Type`, the caller's names, and the token header exactly when the token is truthy. Caller values win. Otherwise `Content-Type` is `application/json` and the token header is the token exactly |
| ApiClient.EncodeBody | src/lib/api-client.ts:49 | a body is passed to `fetch` if and only if one is given and it is truthy, and then it is that value unchanged |
| ApiClient.PrepareRequest | src/lib/api-client.ts:39-50 | the request has the configured base and the path, a query with distinct names and non-empty values, the method defaulting to GET, a `Content-Type` header, the token header iff the token is truthy or the caller gives one, and a body iff it is truthy |
| ApiClient.BodyIgnoresMethod | src/lib/api-client.ts:42-50 | what body is passed to `fetch` does not depend on the method: changing only the method keeps it, and a truthy body is passed unchanged |
| ApiClient.FetchRefusesExactly | src/lib/api-client.ts:42-50 | `fetch` refuses the request exactly when it is a `GET` (given or by default) with a truthy body, or a caller header has an invalid name or value, or the token is truthy, not overridden and no valid header value |
| ApiClient.GetWithBodyRejects | src/lib/api-client.ts:42-50 | such a call rejects with a `TypeError` whatever the server would answer |
| ApiClient.DefaultHeadersValid | src/lib/api-client.ts:44-46 | `Content-Type: application/json` is an accepted header, and the token header's name is a valid name |
| ApiClient.BadTokenRejects | src/lib/api-client.ts:46 | a truthy token that is not a valid header value and that the caller does not override makes the call reject with a `TypeError` whatever the server would answer |
| ApiClient.HangulTokenRejects | src/lib/api-client.ts:46 | a `POST` whose token is "토큰" rejects with a `TypeError` |
| ApiClient.SettleWithoutCallerHeaders | src/lib/api-client.ts:42-50 | without caller headers a call rejects with a `TypeError` exactly for a `GET` with a body or a bad token, and otherwise settles as `HandleResponse` of the answer |
| ApiClient.HandleResponse | src/lib/api-client.ts:52-59 | a transport failure rejects. A 2xx JSON response yields its body unchanged, and a 2xx non-JSON response a syntax error. A non-2xx response yields an `ApiError` with the response's status unless the body is JSON `null` or its `detail` cannot be converted to a string, which throw a `TypeError`. The message is the status text when the body is not JSON, else the converted `detail` when present and not null, else "API request failed" |
| ApiClient.DetailWithOwnToString | src/lib/api-client.ts:56-57 | an error body whose `detail` is an object with its own `toString` key rejects with a `TypeError`, not an `ApiError` |
| ApiClient.CaughtMessage | src/app/admin/page.tsx:29-35 | a page's `catch`: an `ApiError` shows its own message, any other failure the page's generic text |
| ApiClient.ApiFetch | src/lib/api-client.ts:35-60 | one call passes `PrepareRequest(path, options)` to `fetch` and settles as `Settle` of it: a `TypeError` when `fetch` refuses the request (a `GET` with a body, or a header it does not accept), else `HandleResponse(outcome)` |
| Json.GetProperty | src/lib/api-client.ts:56 | reading `detail` throws exactly on `null`, and yields a value exactly when the body is an object holding the key |
| Json.OrNull | src/app/admin/page.tsx:58 | `s \|\| null` is `null` exactly for the empty string and the string itself otherwise |
| Json.ToJsString | src/lib/api-client.ts:17-18 | `String(v)` fails exactly when the value holds an object with its own `toString` key, possibly inside arrays, and gives a string back unchanged |
| Json.JoinRendered | src/lib/api-client.ts:17-18 | the joined rendering of an array fails exactly when some element's rendering fails |
| JsStrings.TrimSpec | src/components/auth/token-form.tsx:14-19 | `trim` leaves the infix between the leading and trailing white space: neither end is white space, and the result is empty iff the input is all white space |
| JsStrings.TrimStartSpec | src/components/auth/token-form.tsx:19 | dropping leading white space leaves a suffix whose first character is not white space, with only white space before it |
| JsStrings.TrimEndSpec | src/components/auth/token-form.tsx:19 | dropping trailing white space leaves a prefix whose last character is not white space, with only white space after it |
| JsStrings.TrimIdempotent | src/components/auth/token-form.tsx:19 | trimming a trimmed string changes nothing |
| JsStrings.Split | src/app/admin/page.tsx:60 | `split(",")` gives one more piece than there are commas, none holding a comma |
| JsStrings.JoinSplit | src/app/admin/page.tsx:60 | joining the pieces of a split with the separator gives back the string |
| JsStrings.SplitJoin | src/app/admin/page.tsx:60 | splitting a join of separator-free pieces gives back the pieces |
| TokenStorage.Stored | src/lib/token-storage.ts:9 | `getItem` of the token key: present exactly when the key is, with its value |
| TokenStorage.AfterStore | src/lib/token-storage.ts:16-20 | after storing, the stored token is the value when it is truthy and absent otherwise, and every other key has the same membership and value |
| TokenStorage.StoreIdempotent | src/lib/token-storage.ts:16-20 | storing the same value twice leaves the storage as storing it once |
| TokenStorage.GetStoredToken | src/lib/token-storage.ts:5-10 | `null` without a window, otherwise the token key's value or `null` |
| TokenStorage.StoreToken | src/lib/token-storage.ts:12-21 | with a window, the storage becomes `AfterStore` of the old storage. Without one it changes nothing, since it may change only the window |
| TokenContext.TokenProvider.constructor | src/components/auth/token-context.tsx:15 | the in-memory token starts as `null` |
| TokenContext.TokenProvider.State | src/components/auth/token-context.tsx:8 | the credential is unauthenticated exactly when the token is not truthy, and otherwise carries the token |
| TokenContext.TokenProvider.Mount | src/components/auth/token-context.tsx:17-19 | after mounting, the token is what `getStoredToken` returns. When storage never held an empty token, memory and storage agree and the token is truthy iff the key exists |
| TokenContext.TokenProvider.SetToken | src/components/auth/token-context.tsx:21-24 | the token becomes the value and storage is updated by `storeToken` of it. Afterwards memory and storage agree: the token is truthy iff the key exists, so `""` stays in memory with the key removed |
| TokenContext.UseToken | src/components/auth/token-context.tsx:33-39 | outside a provider the call fails with the fixed message, and inside one it yields the provider |
| TokenForm.TokenForm.HandleSubmit | src/components/auth/token-form.tsx:12-20 | blank input sets the error and changes neither token nor storage. Other input clears the error and sets the trimmed token through the provider, which is then non-empty and trimmed. Any token set is non-empty and trimmed, and the typed value is kept |
| TokenForm.TokenForm.constructor | src/components/auth/token-form.tsx:9-10 | the form starts with an empty input and no error |
| TokenIndicator.Mask | src/components/auth/token-indicator.tsx:14 | the mask is the first min(2,n) characters, three bullets and the last min(4,n) characters, with length min(2,n)+3+min(4,n). A token of at most four characters ends the mask whole |
| TokenIndicator.Render | src/components/auth/token-indicator.tsx:8-14 | the not-set message exactly when the token is not truthy, else the mask |
| TokenIndicator.Remove | src/components/auth/token-indicator.tsx:22 | the token becomes `null`, the storage key is removed, and the badge shows the not-set message |
| AdminPage.TrimEach | src/app/admin/page.tsx:61 | each piece is trimmed, and the count is kept |
| AdminPage.DropEmpty | src/app/admin/page.tsx:62 | `filter(Boolean)` keeps exactly the non-empty strings and no more of them |
| AdminPage.DropEmptyCounts | src/app/admin/page.tsx:62 | every non-empty string is kept as many times as it occurs, and only `""` is removed |
| AdminPage.ParseCcLabels | src/app/admin/page.tsx:59-62 | there are at most one more labels than commas |
| AdminPage.CcLabelsWellFormed | src/app/admin/page.tsx:59-62 | every parsed label is non-empty, has no white space at either end, and holds no comma |
| AdminPage.DropEmptyIsSubsequence | src/app/admin/page.tsx:62 | dropping empty strings keeps the rest in order |
| AdminPage.LabelsKeepOrder | src/app/admin/page.tsx:59-62 | the labels appear in the order typed |
| AdminPage.CcLabelsRoundTrip | src/app/admin/page.tsx:59-62 | a comma-joined list of clean labels parses back to that list |
| AdminPage.StringArray | src/app/admin/page.tsx:59-62 | the labels become a JSON array of strings, element by element |
| AdminPage.PassagePayload | src/app/admin/page.tsx:56-63 | the payload is a truthy object with exactly the fields `text`, `source`, `cc_labels` |
| AdminPage.PassagePayloadFields | src/app/admin/page.tsx:57-62 | `text` is the trimmed text. `source` is `null` iff the source is blank, else the trimmed source. `cc_labels` are the parsed labels |
| AdminPage.PassageRequestShape | src/app/admin/page.tsx:53-64 | the passage submit is a `POST /v1/passages` with no query whose body is the payload |
| AdminPage.Preview | src/app/admin/page.tsx:196-197 | a text of at most 200 characters is shown whole. A longer one shows its first 200 characters followed by "…" |
| AdminPage.PendingQuery | src/app/admin/page.tsx:23-26 | the list request is a body-less GET whose query is exactly `status=pending` |
| AdminPage.AdminPage.constructor | src/app/admin/page.tsx:10-18 | the first render: empty form, no message, empty list, loading |
| AdminPage.AdminPage.FetchRequests | src/app/admin/page.tsx:20-38 | it sends the `status=pending` GET. When the call settles successfully the list is replaced and the error cleared; otherwise the list is kept and the `ApiError` or generic message shown. Loading is off afterwards and the form is untouched |
| AdminPage.AdminPage.HandlePassageSubmit | src/app/admin/page.tsx:44-78 | trimmed-empty text sets the message and sends nothing. Otherwise it posts the payload: success shows the created message and resets text, source and labels to `""`, failure shows the caught message and keeps them. `submitLoading` is false afterwards |
| AdminPage.AdminPage.PostPassage | src/app/admin/page.tsx:52-77 | the `try`/`catch` of the submit: the request sent, and the message and inputs on success and on failure |
| AdminPage.AdminPage.HandleCompleteRequest | src/app/admin/page.tsx:80-94 | it sends `PUT /v1/requests/{id}/complete`. Success refetches the pending list as `fetchRequests` does; failure only sets the error, with the `ApiError` or generic message |
| SearchPage.SearchTypeOptionsComplete | src/app/page.tsx:9-15 | every search type is offered exactly once and no two send the same `type` value |
| SearchPage.StatusLabelDistinguishes | src/app/page.tsx:101-105 | two states share a label iff they are equal or both idle/error |
| SearchPage.RequestStatusLabel | src/app/page.tsx:101-105 | the label is "요청 중..." while loading, "요청 완료" on success, and "요청 제출" when idle or after an error |
| SearchPage.SearchRequestShape | src/app/page.tsx:44-47 | a validated search is a body-less GET `/v1/search` whose query is exactly `q` = trimmed query and `type` = the search type's value |
| SearchPage.RequestPayload | src/app/page.tsx:75-80 | the payload is a truthy object with exactly `text`, `source`, `cc_name`, `requester_id` |
| SearchPage.RequestPayloadFields | src/app/page.tsx:75-80 | `text` is trimmed. `source` and `cc_name` are `null` iff blank, else trimmed. `requester_id` is the given identifier |
| SearchPage.SearchPage.constructor | src/app/page.tsx:19-31 | the first render: empty inputs and results, text search, idle status |
| SearchPage.SearchPage.HandleSearch | src/app/page.tsx:35-58 | a trimmed-empty query sets the error and sends nothing. Otherwise it sends the search: success replaces the results with the error cleared, failure keeps them and shows the caught message. `loading` is false afterwards |
| SearchPage.SearchPage.HandleRequestSubmit | src/app/page.tsx:65-99 | trimmed-empty text sets status error with its message and sends nothing. Otherwise it posts the payload to `/v1/requests`. Success sets status success with the accepted message and resets all three inputs to `""`; failure sets status error with the `ApiError` or generic message. The status never stays loading |
| SearchPage.SearchPage.PostRequest | src/app/page.tsx:74-98 | the `try`/`catch` of the request submit: the request sent, and the status, message and inputs on success and on failure |

## Left out

- URL resolution: `new URL(path, API_BASE_URL)` and `toString` (src/lib/api-client.ts:24, 32) are not modelled; a URL is the base, the path and the parameter list, and paths are taken to carry no query string of their own.
- Base URL semantics: the model assumes a base against which every URL resolves. The default base `/api/backend` is relative, which WHATWG URL parsing rejects with a `TypeError`, and an absolute base would have its path replaced by the leading-slash paths the pages use; neither is modelled.
- Percent-encoding of parameter names and values, and case-insensitive header names.
- Forbidden request-header names, which a browser's `Headers` object drops silently. The only names the pages send are `Content-Type` and the token header, and neither is forbidden.
- `HeadersInit` forms other than a plain record: arrays of pairs and `Headers` objects.
- The real `fetch`, `res.json()` parsing and transport. The answer is the `HttpOutcome` parameter.
- JSON numbers. They are integers only, so `String(n)` for non-integers and for magnitudes from 10^21 up is not modelled.
- JavaScript strings are UTF-16 code units; the model's strings are sequences of code points, so `slice`, `length` and `trim` count characters, not code units.
- `crypto.randomUUID()` (src/app/page.tsx:79). It is the `requesterId` parameter.
- The clipboard `handleCopy` (src/app/page.tsx:60-63).
- React rendering, effects scheduling, and interleavings of concurrent clicks. Each handler is one atomic step.
- The record shapes of `src/types/api.ts`. The pages cast the server's JSON without checking it, so page state holds JSON values.
- `src/components/auth/token-gate.tsx` is not part of this model; it is a single truthiness branch on the token.
- Storage failures. The code has no `try`/`catch` around `localStorage`, so no recovery path exists to model.
- AdminPage.ParseCcLabels: its own contract states only the count bound. That labels are non-empty, trimmed and comma-free is `AdminPage.CcLabelsWellFormed`, a lemma, which keeps the handlers' proofs small.
- JsStrings.Trim: its own contract states only the length bound. What it leaves is `JsStrings.TrimSpec`, for the same reason.
