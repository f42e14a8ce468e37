# Job-fetch proxy: request decision logic

This project models the `POST /fetch-job` handler of the backend in
`backend/src/server.js`. The handler receives a JSON body with a `url`. It
extracts a LinkedIn job ID from that URL with two regular expressions, tried
in priority order. It then builds the canonical job URL
`https://www.linkedin.com/jobs/view/<id>` and asks the Proxycurl job API for
the job's description. Finally it maps the answer, or the error, to an HTTP
status and a JSON body.

The model is pure, as the handler's logic is. It has no loops and keeps no
state between requests. The upstream call is replaced by an input: the
outcome the call produced.

- `Wrappers.dfy`: `Option`, for JavaScript properties that may be missing.
- `Decimal.dfy`: ASCII digits (the regex class `\d`), and the decimal text
  that a template literal gives for a status code. `NatToDecimal` is proved
  inverse to `Value`.
- `JobId.dfy`: the two patterns `/\/jobs\/view\/(\d+)/` and
  `/currentJobId=(\d+)/`. `IsCapture` is the reference meaning of
  "`lit(\d+)` matches at index i with group cap"; `IsFirstCapture` adds "and
  no match starts earlier", which is the match `String.prototype.match`
  returns. `Capture` computes it by a left-to-right scan (`FindMatch`) and a
  greedy digit run (`DigitRun`), and is proved equal to the reference in both
  directions. `ExtractJobId` applies the priority order. `CanonicalUrl` builds
  the upstream URL, and extracting the ID back from it is proved to give the
  same ID.
- `FetchJob.dfy`: the request field (`UrlField`), the upstream outcome
  (`Upstream`, `Thrown`), the reply (`Reply`, `Body`), and the handler in
  three parts: `Prepare` (lines 19-37), `SuccessReply` (lines 46-53) and
  `ErrorReply` (the catch block, lines 54-83). `HandleFetchJob` composes them.

The model follows the code on these points:
- The URL check rejects every falsy `url`, so the empty string also gets
  "No URL provided", not only a missing field.
- The description check rejects every falsy `description`, so an empty
  description also gets 404.
- A truthy `url` that is not a string makes `url.match` throw a TypeError.
  That error has neither a response nor a code, so the catch block answers
  500 "Failed to fetch job description".
- The patterns are plain substring searches. `/jobs/view/` followed by a
  non-digit is no match, even when it occurs. `currentJobId=` has no word
  boundary and need not be a query parameter.

## Model

| member | source | states |
|---|---|---|
| `Decimal.NatToDecimal` | backend/src/server.js:75 | the status text in the fallback message is a decimal numeral with no leading zero, whose value is the status |
| `Decimal.DecimalRoundTrip` | backend/src/server.js:75 | every numeral is the printout of its own value, so the status rendering is a bijection between statuses and numerals |
| `JobId.DigitRun` | backend/src/server.js:26-27 | the greedy `(\d+)` group: a run of digits read from the string, with no digit right after it |
| `JobId.FindMatch` | backend/src/server.js:26-27 | the scan returns a start index where the literal is followed by a digit, and no earlier such index exists; None means there is none at all |
| `JobId.Capture` | backend/src/server.js:26-27 | a group found by one pattern is non-empty and all digits; nothing is found exactly when the literal is nowhere followed by a digit |
| `JobId.CaptureIsFirstMatch` | backend/src/server.js:26-27 | the computed group is cap if and only if cap is the group of the leftmost match under the reference semantics of `lit(\d+)` |
| `JobId.CaptureNoneIffNoMatch` | backend/src/server.js:26-27 | a pattern yields no group if and only if it matches nowhere in the string |
| `JobId.ExtractJobId` | backend/src/server.js:25-35 | an extracted job ID is non-empty and all digits; there is none exactly when neither pattern matches anywhere |
| `JobId.ExtractJobIdIsFirstMatch` | backend/src/server.js:26-31 | the ID is id if and only if id is the leftmost `/jobs/view/` group, or no `/jobs/view/` match exists and id is the leftmost `currentJobId=` group |
| `JobId.CanonicalUrl` | backend/src/server.js:37 | the job URL starts with exactly `https://www.linkedin.com/jobs/view/`, continues with the job ID, and has no other characters |
| `JobId.CanonicalUrlRoundTrip` | backend/src/server.js:37 | extracting the job ID from the canonical URL of any non-empty digit string returns that same string |
| `JobId.NoWordBoundary` | backend/src/server.js:27 | `xcurrentJobId=5` yields job ID `5`: the pattern has no word boundary |
| `JobId.ViewWinsOverEarlierQuery` | backend/src/server.js:26-31 | a `/jobs/view/` match wins even when a `currentJobId=` match comes earlier in the string |
| `JobId.ViewWithoutDigitFallsBack` | backend/src/server.js:26-31 | `/jobs/view/` followed by a non-digit does not match, so the `currentJobId=` value is used |
| `FetchJob.ApiErrorMessage` | backend/src/server.js:75 | the fallback message is `Proxycurl API error (status N)` where N is a numeral whose value is the upstream status |
| `FetchJob.ErrorReply` | backend/src/server.js:54-83 | the catch block always replies with a non-empty error; status is the upstream status when there is a response and 500 otherwise; 401, 429 and 404 have fixed messages; other statuses relay a non-empty `data.message` or fall back to the status message; ECONNREFUSED and EHOSTUNREACH, ETIMEDOUT, and every other error have their own messages |
| `FetchJob.Prepare` | backend/src/server.js:19-37 | a falsy URL gives 400 "No URL provided"; a non-string URL gives 500 "Failed to fetch job description"; a URL matching neither pattern gives 400 "Invalid LinkedIn job URL"; the handler goes on to fetch exactly when the URL is a string with a job ID, and the fetched URL carries the same job ID |
| `FetchJob.SuccessReply` | backend/src/server.js:46-53 | status 200 exactly when the description is truthy, and then it is relayed verbatim; otherwise 404 "Job description not available" |
| `FetchJob.HandleFetchJob` | backend/src/server.js:17-85 | a reply decided before the fetch is final; after the fetch, an upstream answer gets the `SuccessReply` reply (200 relay or 404 "Job description not available") and an upstream rejection gets the catch block's `ErrorReply` reply (401/429/404 fixed messages, status pass-through, error-code messages, 500 without a response); a relayed description has status 200, is non-empty and is exactly the upstream description; every error reply has a non-empty message |
| `FetchJob.MissingUrlIsBadRequest` | backend/src/server.js:19-23 | a missing or empty URL gives 400 "No URL provided" whatever the upstream would answer |
| `FetchJob.UnrecognisedUrlIsBadRequest` | backend/src/server.js:32-35 | a non-empty URL on which neither pattern matches gives 400 "Invalid LinkedIn job URL" whatever the upstream would answer |
| `FetchJob.RejectionIgnoresUpstream` | backend/src/server.js:19-44 | when the handler replies before the fetch, the reply does not depend on the upstream outcome: the upstream is never consulted |
| `FetchJob.FetchesCanonicalUrl` | backend/src/server.js:37-42 | the URL sent upstream is the canonical URL of the extracted job ID |
| `FetchJob.DescriptionRelayedIff` | backend/src/server.js:46-53 | for every upstream outcome, the reply is 200 with description d if and only if the URL has a job ID and the upstream answered with the non-empty description d |
| `FetchJob.SuccessStatusIffDescription` | backend/src/server.js:46-83 | given that axios rejects every non-2xx status, the reply status is 200 exactly when a description is relayed |
| `FetchJob.UpstreamStatusPassedThrough` | backend/src/server.js:63-83 | an upstream error response's status becomes the reply's status |
| `FetchJob.NoResponseIsInternalError` | backend/src/server.js:77-83 | a non-string URL, a network error or a timeout, or any error without an upstream response, gives status 500 |

## Left out

- The HTTP request to the Proxycurl API: its host, the bearer header, the `url` parameter and the 10-second timeout (lines 40-44). The model takes the outcome of that call as the input `Upstream`.
- Startup: reading the API key, `process.exit` when it is missing, reading the port and `app.listen` (lines 9-15 and 87-94). These are process and environment I/O.
- The Express app, the CORS and JSON middleware, and all `console` logging. These are library wiring with no decision logic.
- An upstream error response whose `data` is null or undefined, with a status other than 401, 404 and 429 (line 75). Reading `data.message` then throws inside the catch block. The request gets no reply, and the async handler's promise is rejected. Under Express 4, which does not catch that rejection, the process ends by default on Node 15 and later; under Express 5 the default error handler replies 500. The Express version is not part of this model. The model assumes `data` is an object.
- A request whose body was not parsed, so that `req.body` is undefined (line 19). The destructuring then throws, and the reply is 500 "Failed to fetch job description". `UrlField` assumes `req.body` is an object.
- JavaScript strings are UTF-16 code units and may hold lone surrogates; the model's strings are sequences of Unicode scalar values. The patterns and `\d` are ASCII, so matching results are the same, but the model's domain of URLs is smaller.
- A successful upstream response whose `data` is null or undefined (line 47). Reading `job.description` then throws a TypeError, which gets 500 "Failed to fetch job description". The model's `Answered` outcome always carries a data object.
- A `description`, `data.message` or `error.code` that is not a string. The model takes these as optional strings. A truthy non-string description would be relayed as it is.
- Falsy non-string `url` values (null, false, 0, NaN) are folded into `UrlField.Absent`. An object with its own `match` method is not modelled.
- A reply status that Express refuses to send (outside 100-999).
- The Python services (recommendation, resume parsing, analytics, chatbot), the FastAPI wiring and the React pages. These are foreign libraries, floating point, async I/O or presentation, with no part in this handler.
