# Daskalo AI proxy: rate limiter and request admission

This project models the core of the Daskalo AI proxy, a serverless HTTP
handler (`api/proxy.js`) that relays chat messages from a blog widget to the
OpenAI chat-completion endpoint. It has two parts. The model proves properties
of both.

- **The per-client sliding-window rate limiter** (`RateLimit.dfy`). A
  process-wide map holds, for each client key, the timestamps of its recent
  calls. A call at time `now` keeps the timestamps less than 10 000 ms old,
  appends `now`, stores the list back, and is limited when the stored list
  has more than 3 entries. The map is the field `recentCalls` of the class
  `RateLimiter`. Its method `IsRateLimited` takes `now` as a parameter, and
  the pure functions `Recent`, `Push`, `Step` and `Verdict` specify it.
- **The request-admission decision chain of the handler** (`Handler.dfy`).
  `Decide` is a pure function. It takes the request's method and headers,
  whether the body's `messages` is an array, `meta.activity`, the limiter's
  table, the time, and an abstract upstream outcome. It returns the status
  code, the response body, the outbound call (if one is made) and the new
  table. Branches are taken in this order:
  - OPTIONS gives 200.
  - A rate-limited client gets 429.
  - A body whose `messages` is not an array gets 400.
  - A non-ok upstream reply gives 500 `LLM error`.
  - Otherwise the status is 200, with the first choice's content or the
    placeholder `—`.

  The class `Proxy` wraps `Decide` as a method that updates a shared
  `RateLimiter`. `Run` chains `Decide` over a sequence of requests, so
  properties of bursts can be stated end to end.

The model follows the code. The code has no origin allowlist and no Referer
fallback; its CORS origin is one fixed string. OPTIONS answers 200, not 204.
There are no 403, 405 or 504 responses, no `prompt` request shape, no upstream
timeout and no `max_tokens`. The temperature is fixed at 0.5. The
`x-forwarded-for` entry is not trimmed: `ClientKeyNotTrimmed` shows blanks on
either side of it kept in the key.

Timestamps are unbounded integers (milliseconds). The source's `Date.now()`
values are integral doubles far below 2^53, so its subtraction
`now - ts` is exact and integer arithmetic models it faithfully.

## Model

| member | source | states |
|---|---|---|
| `RateLimit.Recent` | api/proxy.js:12 | the filtered list is never longer than the input, every kept entry is inside the window, and a value is kept iff it occurs in the input and is inside the window |
| `RateLimit.RecentConcat` | api/proxy.js:12 | filtering distributes over concatenation, so the kept entries keep their original order |
| `RateLimit.RecentKeepsAll` | api/proxy.js:12 | a list entirely inside the window is kept whole |
| `RateLimit.RecentDropsAll` | api/proxy.js:12 | a list entirely outside the window is dropped whole |
| `RateLimit.RecentLater` | api/proxy.js:12 | pruning at an earlier time and then at a later one equals pruning once at the later time |
| `RateLimit.RecentSorted` | api/proxy.js:12 | filtering a sorted list yields a sorted list |
| `RateLimit.Push` | api/proxy.js:12-13 | the stored list is non-empty, grows by at most one entry, and ends with `now` |
| `RateLimit.PushMembers` | api/proxy.js:12-13 | before `now`, the stored list holds exactly the previous entries still inside the window |
| `RateLimit.Step` | api/proxy.js:11-14 | a call adds the caller's key if absent and removes no key; every other key's list is unchanged; the caller's list becomes `Push` of its previous list (an empty list when the key was absent) |
| `RateLimit.Verdict` | api/proxy.js:15 | a call is limited iff at least 3 earlier timestamps of that key are still inside the window |
| `RateLimit.LimitedIffStoredOverLimit` | api/proxy.js:13-15 | a call is limited iff the list stored for it, rejected call included, exceeds 3 entries |
| `RateLimit.QuietClientAdmitted` | api/proxy.js:11-15 | a client whose stored timestamps have all left the window is admitted, and its list becomes just the new call |
| `RateLimit.RateLimiter.constructor` | api/proxy.js:5 | the call log starts empty, and so satisfies the ordering invariant at any clock |
| `RateLimit.RateLimiter.IsRateLimited` | api/proxy.js:6-16 | the map becomes `Step` of the old map: the caller's list is its old entries inside the window followed by `now`, other keys are untouched, and the result is true iff the new list has more than 3 entries |
| `RateLimit.EmptyTableOrdered` | api/proxy.js:5 | the empty call log a new limiter starts with satisfies the ordering invariant |
| `RateLimit.StepListOrdered` | api/proxy.js:12-14 | with a clock no earlier than the previous calls, the stored list is non-empty, sorted, ends at `now`, and lies inside the window ending at its last entry |
| `RateLimit.StepKeepsOrdered` | api/proxy.js:11-14 | with non-decreasing call times, every key's list stays sorted and inside the 10 s before its most recent call |
| `RateLimit.ReplayLookup` | api/proxy.js:11-14 | replaying one client's calls changes only that client's list, and that list is the list-level replay of its old list |
| `RateLimit.SortedRising` | api/proxy.js:12 | call times sorted pairwise are non-decreasing from each call to the next |
| `RateLimit.ReplayWindow` | api/proxy.js:11-14 | with non-decreasing times, lazy pruning at each call leaves exactly what one pruning at the last call leaves: every earlier entry still inside the window, rejected calls included, followed by the last call |
| `RateLimit.PushTwice` | api/proxy.js:12-13 | a list stored at one time and updated again at a later time equals the old list plus the earlier call, pruned once at the later time |
| `RateLimit.FourthCallInWindowLimited` | api/proxy.js:8-15 | with non-decreasing times, the fourth of four calls within 10 s is limited, whatever the log held before |
| `RateLimit.LastThreeInWindowLimited` | api/proxy.js:8-15 | with non-decreasing times, a call whose three predecessors are inside its window is limited |
| `RateLimit.LastThreeInWindowList` | api/proxy.js:12-15 | the same for one client's list: after such a call the stored list holds more than 3 entries |
| `RateLimit.LastThreeKept` | api/proxy.js:12 | three entries inside the window at the end of a list survive pruning, so at least 3 are kept |
| `RateLimit.RejectedCallsCount` | api/proxy.js:13-15 | rejected calls are recorded, so in a burst that fits one window every call from the fourth on is limited |
| `Handler.FirstSegment` | api/proxy.js:27 | the result is a comma-free prefix of the header that ends at the first comma or at the end |
| `Handler.FirstSegmentUnique` | api/proxy.js:27 | that prefix is unique: any comma-free prefix ending at a comma or at the end equals `FirstSegment` |
| `Handler.ClientKey` | api/proxy.js:26-29 | the key is never empty and is the first forwarded-for entry, the remote address, or `unknown` |
| `Handler.ClientKeyFromForwarded` | api/proxy.js:26-27 | a non-empty forwarded-for header not starting with a comma gives the key: its untrimmed text up to the first comma |
| `Handler.ClientKeyFallback` | api/proxy.js:26-29 | without a usable forwarded-for entry, the key is the remote address when non-empty, else `unknown` |
| `Handler.ClientKeyNotTrimmed` | api/proxy.js:27 | for any non-empty comma-free first entry followed by nothing or a comma, the key is that entry exactly, blanks on either side included |
| `Handler.ClientKeyBlanksKept` | api/proxy.js:27 | the header `" 10.0.0.1 , 10.0.0.2"` gives the key `" 10.0.0.1 "` |
| `Handler.SelectModel` | api/proxy.js:41-46 | every `meta.activity` selects `gpt-4o-mini` |
| `Handler.ExtractReply` | api/proxy.js:68 | the reply is never empty, and is either the placeholder `—` or the text content of the first choice's message |
| `Handler.Decide` | api/proxy.js:23-69 | every response status is one of 200, 400, 429 or 500 |
| `Handler.OptionsShortCircuits` | api/proxy.js:23 | OPTIONS gives 200 with no body and no upstream call, and leaves the limiter unchanged |
| `Handler.NonOptionsRecorded` | api/proxy.js:26-30 | every other request is recorded under its client key with `now` as its latest entry, whichever branch answers it |
| `Handler.RateLimitedBeforeBody` | api/proxy.js:30-32 | a rate-limited request gets 429 with the rate-limit message, whatever its body and the upstream |
| `Handler.BadBodyAfterRecording` | api/proxy.js:35-38 | a non-array `messages` gets 400 with the bad-request message, after the call has been recorded |
| `Handler.UpstreamCalledIffAdmitted` | api/proxy.js:41-60 | the upstream is called iff the request passed all checks, always with `gpt-4o-mini` at temperature 0.5; rejected requests do not depend on the upstream |
| `Handler.UpstreamFailure` | api/proxy.js:62-65 | a non-ok upstream gives 500 `LLM error` carrying the upstream's text |
| `Handler.UpstreamSuccess` | api/proxy.js:67-69 | an ok upstream gives 200 with the first choice's content when it is a non-empty string, and with `—` in every other case |
| `Handler.StatusByBranch` | api/proxy.js:23-69 | each status code comes from exactly one branch of the chain, in both directions |
| `Handler.RunIsReplay` | api/proxy.js:26-30 | handling a client's requests one after another updates the call log as replaying its calls |
| `Handler.BurstGets429` | api/proxy.js:26-32 | a burst of non-OPTIONS requests from one client within 10 s gets 429 from its fourth request on |
| `Handler.Proxy.Handle` | api/proxy.js:18-69 | the response and the limiter's new map are those `Decide` gives for the old map |

## Left out

- `Date.now()` is not read; the time of each call is a parameter.
- The `fetch` to the OpenAI endpoint and the reading of `r.text()` and `r.json()` are network I/O. The upstream outcome is an input: either not ok with its response text, or ok with an optional `choices` array.
- The `try`/`catch` path is exception and logging plumbing. That path answers 500 `Server error` (for example when `r.json()` fails), and it calls `console.error`.
- The response headers are not modelled. These are the fixed CORS headers set on every response (allowed origin, methods and headers), plus `res.status`, `.json` and `.end`. Only the status code and the body fields are.
- `process.env.OPENAI_API_KEY` and the `JSON.stringify` of the outbound body are left out. The model records only the outbound model and temperature. The `messages` array is forwarded verbatim, and only whether it is an array is modelled.
- A message `content` in the upstream JSON is modelled as absent, `null` or a string. Numbers, booleans and objects there are not modelled.
- Concurrent handler invocations sharing the call log are not modelled; calls are applied one after another.
