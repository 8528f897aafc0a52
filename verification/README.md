# GraphQL fetch wrapper — Dafny model

This project models the request/response shim of an admin/CRM web client that
talks to a GraphQL backend (`src/providers/data/fetch-wrapper.ts`):

- **`customFetch`** decorates each request before the platform `fetch`. A
  truthy caller `Authorization` header is kept; otherwise it becomes
  `Bearer <token>`. `Content-Type: application/json` and
  `Apollo-Require-Preflight: true` are always set. All other caller headers
  pass through.
- **`getGraphQLErrors`** normalises a parsed JSON response body into one of
  three results:
  - no error;
  - the fixed "Unknown error" record, for a falsy body;
  - an error built from the body's `errors` list. Its message is the
    messages concatenated without a delimiter, or the serialised list when
    that concatenation is empty. Its status code is the first error's truthy
    `extensions.code`, or the number 500.
- **`fetchWrapper`** inspects a clone of the response. It throws the
  normalised error when there is one. Otherwise it returns the original,
  unread response.

Modules:
- `Wrappers` holds `Option`.
- `Json` holds the parsed body: a falsy value, or an object whose `errors` key is absent, `null` or a list. It also holds `JSON.stringify` of an error list.
- `GraphQLErrors` holds the normaliser.
- `CustomFetch` holds the header merge and the request decoration.
- `FetchWrapper` holds the throw-or-return decision and the whole call.

The status code is `Str(string) | Num(int)`. The declared type at line 5 says
string, but line 40 yields the number 500, and the model keeps that number.

An empty error list, `{"errors": []}`, gives `"" || JSON.stringify([])`,
which is `"[]"` (`GraphQLErrors.EmptyErrorList`). As a result, every thrown
error has a non-empty message.

The stored access token (`localStorage.getItem`) and the platform `fetch` are
parameters. The token is an `Option<string>`, and `fetch` is a function from
request to response.

## Model

| member | source | states |
|---|---|---|
| GraphQLErrors.GetGraphQLErrors | src/providers/data/fetch-wrapper.ts:24-45 | falsy body gives exactly {"Unknown error", "INTERNAL_SERVER_ERROR"}; no error iff the body is truthy and has no "errors" key; errors: null gives "null"/500; if some error has a non-empty message the message is the in-order concatenation, if none has one it is the serialised list; status is the first error's truthy code else 500; anything returned has a non-empty message and a truthy status |
| GraphQLErrors.JoinedEmptyIffNoMessage | src/providers/data/fetch-wrapper.ts:35-39 | the joined messages are "" exactly when every error's message is missing or empty, which is when the serialised-list fallback applies |
| GraphQLErrors.JoinedMessagesAppend | src/providers/data/fetch-wrapper.ts:35 | joining with "" distributes over list concatenation (messages keep list order, no delimiter) |
| GraphQLErrors.JoinedMessagesContainsEach | src/providers/data/fetch-wrapper.ts:35 | each error's message appears verbatim in the joined string, right after the messages of the errors before it; a missing message contributes "" |
| GraphQLErrors.LaterCodesIgnored | src/providers/data/fetch-wrapper.ts:36-40 | two error lists with the same first entry yield the same status code, whatever follows |
| GraphQLErrors.EmptyErrorList | src/providers/data/fetch-wrapper.ts:35-40 | an empty error list yields message "[]" and status 500 |
| GraphQLErrors.Examples | src/providers/data/fetch-wrapper.ts:24-45 | worked cases: a single coded error, two uncoded messages "a"+"b" giving "ab"/500, an empty-string code falling back to 500, a message-less error falling back to "[{}]" |
| Json.StringifyErrors | src/providers/data/fetch-wrapper.ts:39 | the serialised list is bracketed by "[" and "]", hence non-empty, and equals "[]" exactly for the empty list |
| CustomFetch.BearerValue | src/providers/data/fetch-wrapper.ts:9-17 | the default header is "Bearer " followed by the token, and is "Bearer null" when no token is stored |
| CustomFetch.MergeHeaders | src/providers/data/fetch-wrapper.ts:11-20 | merged keys are the caller's plus the three fixed ones; a truthy caller Authorization is kept, otherwise the bearer value is set; Content-Type and Apollo-Require-Preflight are always overwritten; every other caller header is unchanged |
| CustomFetch.MergeHeadersIdempotent | src/providers/data/fetch-wrapper.ts:15-20 | merging already merged headers changes nothing, whatever token is stored then |
| CustomFetch.TokenUsedIffUnauthorized | src/providers/data/fetch-wrapper.ts:9-17 | the token has no effect when the caller sent a truthy Authorization; otherwise two tokens give the same headers exactly when they render the same (a missing token equals the stored string "null") |
| CustomFetch.AuthorizationKeyCaseSensitive | src/providers/data/fetch-wrapper.ts:17 | a lower-case "authorization" header is passed through and does not stop the bearer token being added |
| CustomFetch.DecorateRequest | src/providers/data/fetch-wrapper.ts:8-21 | the sent request keeps the URL, method and body; its headers are the merged caller headers, and missing caller headers behave as an empty record |
| FetchWrapper.Settle | src/providers/data/fetch-wrapper.ts:50-59 | throws exactly when the normaliser returns an error, throwing that error; otherwise returns the original response with its body still unread |
| FetchWrapper.FetchWrapper | src/providers/data/fetch-wrapper.ts:47-60 | for the response `fetch` gives to the decorated request: throws the normalised error exactly when there is one, otherwise returns that response |
| FetchWrapper.ReturnsIffNoErrorsKey | src/providers/data/fetch-wrapper.ts:53-59 | a call returns exactly when the body is a truthy object without an "errors" key; the outcome is the same for every HTTP status |
| FetchWrapper.ThrownErrorWellFormed | src/providers/data/fetch-wrapper.ts:38-56 | every thrown error has a non-empty message and a truthy status code |

## Left out

- The network call, `response.clone()` and `.json()` are platform I/O. The
  body is given already parsed. A failed JSON parse, which rejects the call,
  is not modelled.
- `localStorage.getItem` is ambient browser state. The token is a parameter.
- A truthy primitive body (`true`, `1`, `"x"`) makes `"errors" in body` throw
  a `TypeError`. This is outside the modelled domain, and the `Body`
  datatype has no such value. A non-array, non-null `errors` value also makes
  `.map` throw and is likewise excluded.
- Json.StringifyErrors: renders only the fields the model keeps (`message`
  and `extensions.code`), always with `message` first and then
  `extensions`, whatever key order the server sent. Fields such as `locations` and `path` are not
  rendered. A `null` message is treated as missing. Lone surrogates are not
  escaped. Integer codes are unbounded; JavaScript numbers are doubles, so
  codes past 2^53 lose precision and magnitudes of 10^21 or more render in
  exponent form (`1e+21`), while the model writes every digit.
- The model keeps only these `extensions.code` values: strings and integers.
  Other JSON values and non-integer numbers are not modelled, and neither
  are null entries in the `errors` list. A non-string message (such as
  `false` or `0`) and a non-object entry (such as `"x"`) fall outside the
  declared `GraphQLFormattedError` type and are not modelled either.
- Request options other than method, body and headers pass through the
  spread unchanged. They are not represented. Caller headers given as a
  `Headers` object or an array, rather than a plain record, are not
  modelled.
- JavaScript object key order in the merged header record is not modelled;
  headers are a map.
- `src/providers/data/index.tsx` is not part of this model. It only wires
  library constructors and a WebSocket client, and holds no local logic.
- `src/pages/components/custom-avatar.tsx` is not part of this model. It is a
  presentational component with fixed props.
