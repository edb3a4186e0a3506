# Habit tracker API server: origin policy and error envelope

The habit tracker's Express server (`server/index.js`) is mostly framework wiring.
Two small decisions in it carry logic, and this project models and proves both:

- **The CORS origin callback.** For each cross-origin request it decides from the request's `Origin` whether to admit it. It tries these rules in order:
  1. an absent or empty origin;
  2. `http://localhost` or `http://127.0.0.1`, optionally followed by `:` and a port of one or more ASCII digits;
  3. `https://*.vercel.app`;
  4. the one-entry explicit allow-list.

  Anything else is rejected with the error message "The CORS policy for this site does not allow access from the specified Origin."
- **The error-handling middleware.** It turns any error into an HTTP status and a JSON body `{error: {message, status}}`. JavaScript `||` semantics apply: a `statusCode` of 0 or none gives 500, and an empty or missing `message` gives "An unknown error occurred".

Files:
- `wrappers.dfy`: `Option`, used for JavaScript values that may be `undefined`.
- `origin_policy.dfy` (module `OriginPolicy`): hand-written matchers for the three regular expressions, and the callback as `AdmitUnder` / `Admit`.
- `error_handler.dfy` (module `ErrorHandler`): the status and message selection as `Respond`.

Each matcher is a scan over prefixes, a digit run and a suffix. It is proved to accept exactly the language its regular expression denotes, and that language is written declaratively with an existential witness. JavaScript regex semantics followed:
- `\d` without the `u` flag is `[0-9]`;
- `.` excludes `\n`, `\r`, U+2028 and U+2029;
- `$` without the `m` flag matches only at the end of input;
- matching is case-sensitive.

JavaScript strings are UTF-16 code units, while Dafny's `char` is a Unicode scalar value. For `.*`, which excludes only the four line terminators (all in the Basic Multilingual Plane), both views accept the same strings.

The allow-listed origin is written in the model as `VercelScheme + DeploymentHost + VercelSuffix`. This is the same 69-character string as in the source.

## Model

| member | source | states |
|---|---|---|
| OriginPolicy.AdmitUnder | server/index.js:25-46 | The early-return chain admits an origin exactly when at least one of the four rules holds: falsy, either loopback language, the vercel language, or allow-list membership. Rule order never changes admission. Every rejection carries the fixed CORS message. |
| OriginPolicy.Admit | server/index.js:20-46 | The server's callback with its own allow-list. It admits exactly the origins satisfying some rule, and also exactly those satisfying some rule when the allow-list is empty. Every rejection carries the fixed message. |
| OriginPolicy.ScanDigitsIsPointwise | server/index.js:30 | The left-to-right `\d*` scan accepts a string iff every character is an ASCII digit. |
| OriginPolicy.ScanNonTerminatorsIsLineFree | server/index.js:35 | The left-to-right `.*` scan accepts a string iff it contains no `\n`, `\r`, U+2028 or U+2029. |
| OriginPolicy.MatchHostPortIsLanguage | server/index.js:30 | The `^<base>(:\d+)?$` matcher accepts exactly two forms: the base alone, or the base, `:`, and a non-empty digit run. |
| OriginPolicy.MatchVercelIsLanguage | server/index.js:35 | The `^https://.*\.vercel\.app$` matcher accepts exactly `https://` + a line-free middle (possibly empty) + `.vercel.app`. |
| OriginPolicy.AllowedOriginsAreVercel | server/index.js:20-22 | Every allow-listed origin already matches the `*.vercel.app` rule. |
| OriginPolicy.AllowListRedundant | server/index.js:35-42 | The callback with the allow-list and the callback with an empty list return the same decision for every origin. |
| OriginPolicy.FalsyAdmitted | server/index.js:27 | An absent or empty origin is admitted, whatever the allow-list. |
| OriginPolicy.LoopbackPortsAdmitted | server/index.js:30-32 | `http://localhost` and `http://127.0.0.1` are admitted, alone or with `:` and any non-empty digit run. |
| OriginPolicy.VercelSubdomainsAdmitted | server/index.js:35-37 | `https://` + any line-free middle + `.vercel.app` is admitted. |
| OriginPolicy.HostPortShape | server/index.js:30 | A loopback-rule match starts with its base and is either exactly the base or ends in a digit. So an `https` or upper-case scheme, or a trailing `/`, never matches. |
| OriginPolicy.EmptyPortRejected | server/index.js:30 | `<base>:` with no digits does not match the loopback rule. |
| OriginPolicy.FalsyExample | server/index.js:27 | An absent origin and the empty string are both admitted. |
| OriginPolicy.LocalhostPortExample | server/index.js:30-32 | `http://localhost:5173` is admitted. |
| OriginPolicy.EmptySubdomainExample | server/index.js:35-37 | The degenerate `https://.vercel.app` is admitted, because `.*` may match nothing. |
| OriginPolicy.DeploymentHostIsLineFree | server/index.js:21 | The allow-listed deployment host contains no line terminator. |
| OriginPolicy.EmptyPortExample | server/index.js:30-45 | `http://localhost:` is rejected with the CORS message. |
| OriginPolicy.TrailingSlashExample | server/index.js:30-45 | `http://localhost/` is rejected with the CORS message. |
| OriginPolicy.SecureLocalhostExample | server/index.js:30-45 | `https://localhost` is rejected with the CORS message. |
| OriginPolicy.UpperCaseSchemeExample | server/index.js:30-45 | `HTTP://localhost` is rejected: matching is case-sensitive. |
| OriginPolicy.LiteralDotsExample | server/index.js:30-45 | `http://127x0x0x1` is rejected: the dots are literal. |
| OriginPolicy.TrailingNewlineExample | server/index.js:35-45 | `https://a.vercel.app` followed by a line feed is rejected: `$` matches only at the end of input. |
| ErrorHandler.Respond | server/index.js:66-75 | The sent status equals `statusCode` when truthy (present, non-zero) and 500 otherwise. The body's `status` always equals the sent status. The body's message is `message` when non-empty and the fallback text otherwise. Neither is ever falsy. |
| ErrorHandler.RespondIsIdempotent | server/index.js:68-72 | Raising again the error a response describes produces the same response. |
| ErrorHandler.CorsError | server/index.js:44-45 | The error raised for a rejected origin carries no `statusCode`, and its message is the rejection message of the decision. |
| ErrorHandler.RejectedOriginResponse | server/index.js:44-45 | An origin that satisfies no rule is rejected, and the response is status 500 with body `{error: {message: <CORS message>, status: 500}}`. |
| ErrorHandler.NotFoundExample | server/index.js:68-72 | A 404 error with a message is sent as 404, with that message and status 404 in the body. An error with neither field, and one with status 0 and an empty message, are both sent as 500 with the fallback text. |

## Left out

- Express app construction, middleware ordering and mounting of the habit, auth and stats routes (server/index.js:16, 52-58): framework composition over route modules that are not part of this model.
- `dotenv.config()`, `connectDB()`, the `PORT` default and `app.listen` (server/index.js:11, 14, 17, 77-79): environment, process and database I/O.
- The headers the `cors` package emits for `credentials`, `methods` and `allowedHeaders` (server/index.js:47-49): foreign library behaviour. The two lists are recorded as the constants `OriginPolicy.AllowedMethods` and `OriginPolicy.AllowedHeaders`.
- `express.json()` and `cookieParser()` (server/index.js:52-53): third-party parsers.
- `console.error(err.stack)` and the start-up `console.log` (server/index.js:67, 78): logging side effects.
- The health endpoint (server/index.js:61-63): a constant response.
- ErrorHandler.RejectedOriginResponse assumes that the `cors` package forwards the callback's error to the next error handler unchanged. That package is not part of this model.
- ErrorHandler.Respond: `statusCode` is modelled as an optional integer. Non-numeric values (a string, `NaN`, `null`, `false`) and Express's own validation of the status passed to `res.status` are not modelled.
- OriginPolicy.Admit: the origin is modelled as an optional string. Other falsy JavaScript values cannot arrive as a header value, so they are not modelled.
- Determinism of the decision holds by construction, since every member is a mathematical function. No separate lemma states it.
