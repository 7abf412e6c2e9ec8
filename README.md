# Request admission of the AI chat backend, in Dafny

This project models how the chat backend's `server.js` decides, for each
`/chat` and `/client-config` request, whether to admit it and, if not, with
which HTTP status and error text. It covers:

- the client registry: the map from `clientId` to the clients.json entry,
  built at start-up and replaced on reload (module `Clients`, class `Registry`);
- client resolution (`getClientOrThrow`) and the origin allow-list
  (`enforceOrigin`) as pure functions (module `Admission`);
- the in-memory fixed-window rate limiter: a class holding the `buckets` map,
  with the clock passed as `now` (module `RateLimit`, class `Limiter`);
- the two route handlers as methods of a `Server` that owns the registry and
  the limiter (module `Routes`). The language-model call is an input
  (`LlmResult`): it either throws or returns a possibly absent text. `Chat`
  also returns the call it makes (model, system prompt, user message).

JavaScript values the handlers test for truthiness are `Option`s: a missing
value is `None`, and the empty string is treated like `None` wherever the
source writes `!x` or `x || default`.

A new window opens when `now - windowStartMs >= 60000`, so a call exactly
60 000 ms after the window start already opens one. The window is fixed, not
rolling: more than `rpm` calls are admitted within 60 s when they straddle a
boundary (`RateLimit.BoundaryBurst`).

## Model

| member | source | states |
|---|---|---|
| `Clients.LoadClients` | server.js:22-32 | the loop builds exactly `BuildRegistry` of `parsed.clients`, or of `[]` when the list is absent |
| `Clients.RegistryDomain` | server.js:25-26 | an id is a key of the loaded registry iff some clients.json entry carries it |
| `Clients.RegistryLastWins` | server.js:26 | the registry holds, for an id, the last entry with that id: later duplicates overwrite earlier ones |
| `Clients.RegistryValueIsLast` | server.js:26 | conversely, the value stored under an id is the last entry carrying that id |
| `Clients.RegistryKeyedById` | server.js:26 | every entry is stored under its own `clientId` |
| `Clients.Registry.constructor` | server.js:34 | the start-up registry is the loaded map, and it is keyed by id |
| `Clients.Registry.Reload` | server.js:35-42 | a successful reload replaces the whole map with the new one; a failed read or parse leaves the previous map unchanged |
| `Admission.ResolveClient` | server.js:55-61 | checks in order: missing or empty id gives 400 "clientId required", unknown id 404 "Unknown client", disabled client 403 "Client disabled"; succeeds iff the id is present, known and enabled, and then returns exactly the registry entry |
| `Admission.EnforceOrigin` | server.js:63-69 | admits iff the origin is non-empty and in `allowedOrigins`, a missing list counting as empty; otherwise the reason is "Missing Origin" or "Origin not allowed: " followed by the origin |
| `Admission.ResolveLoaded` | server.js:55-61 | against a freshly loaded registry, resolution succeeds iff the last clients.json entry with that id is enabled, and then returns exactly that entry |
| `Admission.UnlistedIsUnknown` | server.js:57-58 | an id no clients.json entry carries is answered 404 "Unknown client" |
| `RateLimit.Replay` | server.js:74-87 | successive calls of one client give one verdict per call |
| `RateLimit.TickShape` | server.js:78-84 | a call opens a new window (start `now`, count 1) exactly when there is no bucket or 60000 ms have elapsed; otherwise it keeps the start and adds one to the count |
| `RateLimit.ReplayInWindow` | server.js:79-86 | calls inside an open window with count c: the k-th is admitted iff c + k + 1 <= rpm |
| `RateLimit.FirstRpmAdmitted` | server.js:78-86 | from the call that opens a window, the first rpm calls in that window are admitted and every later call in the same window is rejected |
| `RateLimit.BoundaryBurst` | server.js:76-82 | the window is fixed: with rpm 2, calls at 0, 59999, 60000 and 60001 ms are all admitted |
| `RateLimit.Limiter.constructor` | server.js:72 | the limiter starts with no buckets |
| `RateLimit.Limiter.RateLimit` | server.js:74-87 | only the caller's bucket changes, and it becomes its `Tick`; the count goes up even when the call is rejected; the result is true iff the new count is at most rpm; every bucket keeps a count of at least 1, so a call opened a new window iff its bucket is now (start `now`, count 1) |
| `RateLimit.ReplayOnLimiter` | server.js:74-87 | successive `rateLimit` calls of one client on a fresh bucket map return exactly the verdicts of `Replay`, so the window lemmas describe the limiter itself |
| `Routes.Server.constructor` | server.js:34 | the server starts with the loaded registry and an empty bucket map |
| `Routes.Server.ClientConfig` | server.js:100-112 | the same client and origin gates as `/chat`, with no rate limit; status 200 iff both gates pass, and then the body is only the client's `ui`, or `{}` when absent |
| `Routes.Server.Chat` | server.js:114-167 | gates run in the order client, origin, rate limit, message. A request rejected by the client or origin gate leaves `buckets` unchanged. One that passes them always consumes a slot, even if its message is missing. `rpm` defaults to 30. On success the model gets `promptBase + "\n\n" + promptClient`, and the reply is its text or "". A throwing model call gives 500 "Server error". The model is called iff the status is 200 or 500 |
| `Routes.SystemPromptParts` | server.js:136 | the system prompt is the base fragment, a blank line, then the client fragment |

`Routes.DemoScenario` walks through two scenarios, and the verifier proves
each asserted response from the contracts above: client `demo` with rpm 2
gets two replies and then a 429, and a disabled client gets 403
"Client disabled" on both endpoints.

## Left out

- Reading clients.json, `JSON.parse` and `fs.watchFile`: a reload is given as an already-parsed `Document`, or `None` when reading or parsing failed.
- A failing load at start-up crashes the process in the source. The model's constructor only takes a successfully parsed document.
- The start-up and reload console logging is left out, as is usage logging with `fs.appendFile` and its timestamp. Both are fire-and-forget I/O.
- The OpenAI call is left out: it is a network call. Its outcome is the `LlmResult` parameter, and the model records the call's arguments.
- Wall-clock time is left out: `Date.now()` is the `now` parameter. The `started`/latency measurement feeds only the log.
- Express and CORS middleware, static files, `/health` and `listen` are left out. They are framework plumbing.
- Concurrency is left out: requests are sequential calls, so races on a bucket's count are not modelled.
- Non-string JSON values are not modelled. This covers a numeric `clientId`, a repeated `?clientId=` query parameter that arrives as an array, a non-array `allowedOrigins` (whose `.includes` would do a substring test), and a non-boolean `enabled` (a missing `enabled` is falsy in the source and is modelled as `false`). These fields are strings, sequences and booleans, and a missing or non-string `message` is `None`.
- Missing prompt fragments are rendered as the text "undefined", as the template literal does. A JSON `null` would render "null" and is not distinguished.
- `limits.rpm` is an integer. A fractional rpm admits the same counts as its floor, so the model does not lose cases.
- A runtime error inside the `/chat` handler other than the model call (for example a missing request body) is not modelled. Only the model call's throw leads to 500.
- JavaScript numbers are unbounded integers here. Timestamps and counts stay far below 2^53.
- Lead extraction (email, phone and intent matching) does not appear in server.js, so it is not part of this model.
