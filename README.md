# Daily forum check-in, modelled in Dafny

A model of the check-in script `main.js`. The script signs every configured account in
to one of two forums, HiFiTi and BinMT, by replaying its session cookie. It then reports
each account's outcome and exits with 1 when any of them failed.

The model has four parts:

- `Json` (`json.dfy`): the parsed reply body, plus the JavaScript operations the
  classifiers use on it. These are property access, truthiness, and the optional call
  `msg?.includes(...)` on strings and arrays.
- `Sites` (`sites.dfy`): the registry. It has exactly the keys `hifiti` and `binmt`.
  Each site has its own classifier (`parseResult`), which turns a reply into a verdict
  `{ok, msg}` or a fault.
  - HiFiTi counts as success only when `code` is the *string* `"0"`, or when `message`
    is exactly `今天已经签过啦！`.
  - BinMT counts as success only when `status` is the *number* 0, or when `msg`
    contains `已签到`. A failed BinMT reply falls back to the message `签到失败`.
- `CheckIn` (`checkin.dfy`): one account's `checkIn`. It decides the outcome in this
  order:
  1. An unknown site fails with `未知站点：<site>`, and no request is made.
  2. A non-2xx reply fails with `网络错误：<status>`, and the classifier is not consulted.
  3. Otherwise the classifier's `msg` becomes the value on success, or the rejection
     reason on failure. Both paths first convert `msg` to a string (main.js:71 and
     main.js:74). A message with no string form, such as an object with its own
     `toString` member, makes the check-in reject (`Unprintable`) even when the
     verdict was ok.
- `Runner` (`runner.dfy`): `main`.
  - An unset, empty or unparseable `ACCOUNTS` stops the run with exit code 1 before any
    check-in.
  - Otherwise there is one settled outcome per account, at the account's own index.
  - A loop over the outcomes sets `hasError`. The exit code is 1 exactly when some
    outcome was rejected, and 0 otherwise.

Notes on what `main.js` does and does not do:

- It makes no warm-up request before the sign-in request, and it has no fallback parser
  for HTML replies: every reply body goes through `res.json()`.
- It reads a single `ACCOUNTS` list, and each record names its own `site`.
- When `res.json()` rejects, that rejection rejects the account's promise. The model
  records this as `BodyFault(BodyNotJson)`.

## Model

| member | source | states |
|---|---|---|
| `Json.IncludesIffOccurs` | main.js:40 | The left-to-right search `Includes` is true exactly when the needle occurs at some position of the string |
| `Json.OptionalIncludes` | main.js:40 | `msg?.includes(p)` throws exactly for numbers, booleans and objects. It is true exactly when `msg` is a string containing `p` or an array holding the string `p`. `undefined` and `null` give false |
| `Sites.Lookup` | main.js:5-44 | The registry finds a site exactly for the keys `hifiti` and `binmt`, and the site it finds has that key |
| `Sites.LookupKey` | main.js:51 | Looking a site up by its own key returns that site |
| `Sites.ClassifyHiFiTi` | main.js:18-24 | A non-JSON body and a `null` body reject. Any other body resolves with `msg` = `message`. `ok` holds iff `code` is the string "0" or `message` is exactly `今天已经签过啦！` |
| `Sites.ClassifyBinMT` | main.js:37-42 | A non-JSON body and a `null` body reject. Otherwise it rejects iff `status` is not the number 0 and `msg` is a number, boolean or object. `ok` holds iff `status` is the number 0 or `msg` mentions `已签到`. `msg` is kept when ok or truthy, and is `签到失败` otherwise |
| `Sites.BinMTFailureMessageTruthy` | main.js:41 | A BinMT failure verdict always carries a truthy message: a non-empty string, or an array (possibly empty), never `undefined`, `null` or `""` |
| `Sites.OkVerdictKeepsMessage` | main.js:18-42 | A success verdict from either site carries the reply's own `message` or `msg` unchanged |
| `Sites.HiFiTiNumericCodeIsNotSuccess` | main.js:20-23 | A numeric `code` 0 is not HiFiTi success: with any `message` other than `今天已经签过啦！`, the verdict is a failure with `message` unchanged |
| `Sites.BinMTStringStatusIsNotSuccess` | main.js:39-41 | A string `status` "0" is not BinMT success. With no `msg`, the failure message is the default `签到失败` |
| `Sites.AlreadySignedIsSuccess` | main.js:21-40 | A same-day re-run is success on both sites, whatever `code` or `status` says: HiFiTi's exact phrase, or any BinMT message containing `已签到` |
| `CheckIn.CheckIn` | main.js:50-76 | An unknown site fails with `UnknownSite(site)`. For a registered site: a rejected `fetch` fails with `FetchFailed`, and a non-2xx status fails with `NetworkError(status)`. With a 2xx reply, a classifier fault becomes `BodyFault`, and a `msg` with no string form becomes `Unprintable`. Otherwise the result is `Success(msg)` iff the verdict is ok, else `Rejected(msg)` |
| `CheckIn.UnknownSiteMakesNoRequest` | main.js:51-55 | For an unknown site, the outcome is the same whatever the network would have answered, and its message is `未知站点：` followed by the site |
| `CheckIn.NetworkErrorIgnoresBody` | main.js:64-66 | For a non-2xx reply, the outcome does not depend on the body, and its message is `网络错误：` followed by the decimal status |
| `CheckIn.ClassifiedOutcome` | main.js:68-75 | For a 2xx reply: the classifier's fault becomes `BodyFault`, and a `msg` with no string form becomes `Unprintable`. Otherwise it is success with the classifier's `msg` iff the verdict is ok, and a rejection carrying exactly that `msg` if not |
| `CheckIn.UnprintableMessageRejects` | main.js:70-71 | A HiFiTi 200 reply `{"code":"0","message":{"toString":1}}` is an ok verdict, but it rejects with `Unprintable`, because the message cannot be converted for the log line |
| `CheckIn.TextMessagesArePrintable` | main.js:70-74 | When the verdict's `msg` is absent, `null` or a string, the check-in never rejects with `Unprintable` |
| `CheckIn.Decimal` | main.js:65 | A status is rendered as a non-empty string of decimal digits with no leading zero |
| `CheckIn.DecimalRoundTrip` | main.js:65 | Reading the rendered status back as a decimal number gives the status |
| `CheckIn.MessageDeterminesError` | main.js:54-65 | Among the two messages `checkIn` composes itself (unknown site, main.js:54; network status, main.js:65), equal texts mean the same error: the two kinds never collide, and the site or the status can be recovered from the text. The rejection of main.js:74 carries the site's own `msg`, whose text may coincide with either |
| `Runner.Run` | main.js:82-114 | Unset or empty `ACCOUNTS` aborts with exit 1, and so does unparseable `ACCOUNTS`. Neither runs any check-in. Otherwise there is one outcome per account, in index order, each that account's check-in. The exit code is 1 iff some outcome was rejected, else 0 |
| `Runner.SingleAccountScenarios` | main.js:18-24 | `{"code":"0","message":"签到成功"}` succeeds with `签到成功`. `{"code":"1","message":"今天已经签过啦！"}` succeeds as well |
| `Runner.TwoAccountRun` | main.js:97-113 | With two accounts, one succeeding and one answered with HTTP 500, the first is still reported as success, the second as `NetworkError(500)`, and the exit code is 1 |

## Left out

- HTTP requests are not modelled. This covers the URLs, the methods, the header builders
  with the User-Agent string and the cookie (main.js:8-16, 29-36, 59-62), and `fetch`
  itself. What `fetch` returns for the i-th account is an input, `network(i)`: either
  `Unreachable` or a reply status plus its body.
- `res.json()` and `JSON.parse` are library parsers, so they are not modelled. Their
  results are inputs: a `Body` that may be `Malformed`, and a `Config` that may be
  `Unparseable`.
- Numbers in replies are exact reals. Rounding to IEEE doubles is not modelled, for
  example a literal `1e-400` that JavaScript reads as 0. Strings are sequences of Unicode
  scalar values, so lone UTF-16 surrogates are not modelled.
- The text of runtime errors (a rejecting `fetch`, a TypeError or a SyntaxError) is
  engine-defined. These errors are kept as distinct error cases, without their text.
- The message of `new Error(msg)` for a site rejection is not rendered: it is only logged.
  The rejection keeps `msg` itself.
- The text that `console.log` / `console.error` print is not modelled. This includes each
  registry entry's display `name`. The string conversions those lines perform are
  modelled where they can throw on a reply's `msg` (main.js:71, main.js:74).
- `process.exit` is not an effect in the model: `Run` returns the exit code.
- The `successCode` field (main.js:17) is never read, so it is not modelled.
- `Promise.allSettled` concurrency is modelled as a map over the accounts. Every branch
  writes only its own index and shares no state, so completion order is not observable.
- `ACCOUNTS` values that parse to a non-array are unhandled in the source
  (`accounts.map` throws), so the model does not cover them. A parsed list is a sequence
  of `Account` records.
- Account entries that are `null` would make `account.site` throw, and are not covered.
- The site key is modelled as the string JavaScript converts it to. When that conversion
  succeeds, the model is exact for both the property lookup and the error text, because
  both use the same conversion. A missing `site` becomes `"undefined"`.
- CheckIn.CheckIn: an account's `name` and `site` are modelled as strings, so their
  conversion is taken to always succeed. A record whose `name` or `site` is an object
  with its own `toString` member is not covered. In JavaScript that conversion throws
  at main.js:51, 54 or 57, which rejects the check-in, and again at main.js:106 or 108,
  which aborts `main` with an unhandled rejection.
- Prototype keys such as `toString` in `sites[account.site]` are not modelled. The
  registry has exactly its two keys.
