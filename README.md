# Signup gateway: rate limiter, route gate and signup pipeline

A Dafny model of the three pieces of logic around account creation in a Next.js
application:

- **Rate limiter** (`src/lib/rate-limit.ts`): a per-client table of attempt
  counters. A window of 15 minutes opens on the first call after the previous one
  ended (a fixed window that restarts lazily), admits five calls and refuses the
  rest without changing anything; `cleanup` deletes ended windows. Beside it,
  `getClientIdentifier` picks the table key from forwarding headers.
  Modelled as pure table functions (`RateLimit.Admit`, `Remaining`, `ResetTime`,
  `Sweep`, `Run`) and the class `RateLimit.RateLimiter`, whose `attempts` map the
  methods update in place and whose methods are proved equal to those functions.
- **Route gate** (`middleware.ts`): a pure decision from the path and session
  presence to `Allow`, `RedirectToLogin(callbackUrl)` or `RedirectToProfile`,
  by prefix matching with the protected check first, and the matcher pattern
  that keeps assets and the session provider's endpoints away from the gate.
- **Signup handler** (`src/app/api/auth/signup/route.ts`): rate-limit check,
  schema validation (first issue wins: email, then password, then name),
  duplicate check, hash, insert, sanitized reply. `Signup.Signup` is the pipeline
  as a function of the state (limiter table, account map, id counter);
  `Signup.Post` is the step-by-step method over a `RateLimiter` and a
  `UserStore` object, proved to agree with it.

The clock (`now`, milliseconds) and session presence are parameters. Email
syntax and the bcrypt hash are function parameters (`Signup.Collaborators`), so
every lemma holds for any email rule and any hash. Throwing store or hash calls
are a `Signup.Faults` parameter. Account ids come from a counter in the store.

The limiter is a fixed window that restarts lazily: an identifier's window
begins at its first check and is replaced only by the first check after it has
ended. Route classification is first-match prefix matching over two lists, and
the third list, `publicRoutes`, is never used. A uniqueness failure raised by
the store's insert gives a 500 reply.

## Model

| member | source | states |
|---|---|---|
| `Decimal.NatToString` | src/app/api/auth/signup/route.ts:32 | the decimal rendering is non-empty, all digits, with no leading zero |
| `Decimal.DigitsValueOfNatToString` | src/app/api/auth/signup/route.ts:32 | reading the rendering back as digits gives the number again |
| `Decimal.NatToStringInjective` | src/app/api/auth/signup/route.ts:32 | different numbers give different renderings |
| `Decimal.IntToString` | src/app/api/auth/signup/route.ts:32 | a non-empty rendering that starts with a minus sign exactly for negative numbers |
| `Decimal.IntToStringReadsBack` | src/app/api/auth/signup/route.ts:32 | after the sign come only digits, with no leading zero unless the number is 0, and they read back as the magnitude |
| `Decimal.CeilDiv` | src/app/api/auth/signup/route.ts:22 | `Math.ceil(a / b)` is the least q with a <= b * q |
| `ClientIdentity.LeadingField` | src/lib/rate-limit.ts:73 | `split(',')[0]` is a comma-free prefix ending at the first comma or at the end |
| `ClientIdentity.TrimStart` | src/lib/rate-limit.ts:73 | the first index from i on that is not whitespace: everything skipped is whitespace |
| `ClientIdentity.TrimEnd` | src/lib/rate-limit.ts:73 | the end of the slice once trailing whitespace is dropped: everything dropped is whitespace, the last kept character is not |
| `ClientIdentity.Trim` | src/lib/rate-limit.ts:73 | the slice of the input between a whitespace prefix and a whitespace suffix, with non-whitespace ends, empty exactly when the input is all whitespace |
| `ClientIdentity.ClientIdentifier` | src/lib/rate-limit.ts:66-78 | the key is never empty |
| `ClientIdentity.ClientIdentifierIsFirstTruthy` | src/lib/rate-limit.ts:73-76 | the key is the first non-empty candidate (forwarded, real IP, client IP), and `unknown` exactly when none is |
| `ClientIdentity.ForwardedKeyIsLeadingField` | src/lib/rate-limit.ts:68-73 | when the forwarding header wins, the key is its first field trimmed |
| `ClientIdentity.LeadingAddressShape` | src/lib/rate-limit.ts:73 | the trimmed first field has no comma and no surrounding whitespace |
| `ClientIdentity.BlankForwardedFallsThrough` | src/lib/rate-limit.ts:73-74 | a blank first forwarded field does not win; the later headers decide |
| `ClientIdentity.LeadingFieldOfJoin` | src/lib/rate-limit.ts:73 | the first field of `a,b` is `a` when `a` has no comma |
| `ClientIdentity.TrimmedAlready` | src/lib/rate-limit.ts:73 | trimming a string with non-whitespace ends leaves it unchanged |
| `ClientIdentity.FirstAddressOfChain` | src/lib/rate-limit.ts:68-73 | a chain `a,rest` with a trimmed, comma-free first address gives the key `a` (so `1.2.3.4, 5.6.7.8` gives `1.2.3.4`) |
| `ClientIdentity.NoHeadersExample` | src/lib/rate-limit.ts:76 | no relevant header gives `unknown` |
| `RateLimit.Remaining` | src/lib/rate-limit.ts:35-45 | remaining attempts lie in [0, 5] and are 5 when the entry is absent or expired |
| `RateLimit.Sweep` | src/lib/rate-limit.ts:53-60 | exactly the live entries remain, each unchanged |
| `RateLimit.Run` | src/lib/rate-limit.ts:14-33 | successive checks give one answer per call; this is the run `LiveWindowRun` and `FreshWindowRun` are about |
| `RateLimit.AdmitKeepsBounded` | src/lib/rate-limit.ts:11-32 | a check keeps every count within [1, 5] |
| `RateLimit.AdmitIsLocal` | src/lib/rate-limit.ts:14-33 | a check leaves every other identifier's entry as it was |
| `RateLimit.AdmitLeavesLiveEntry` | src/lib/rate-limit.ts:18-32 | after a check the identifier has a live entry |
| `RateLimit.ExpiredEntryRestarts` | src/lib/rate-limit.ts:18-24 | an expired entry is replaced by count 1 and reset time now + 15 minutes, and the call is admitted, whatever the old count |
| `RateLimit.LimitedIffNoneRemaining` | src/lib/rate-limit.ts:14-45 | a check refuses exactly when no attempt remains |
| `RateLimit.RemainingAfterAdmit` | src/lib/rate-limit.ts:14-45 | an admitted call uses up exactly one remaining attempt; a refused call leaves the table unchanged |
| `RateLimit.LiveWindowRun` | src/lib/rate-limit.ts:27-32 | within a live window with count c, the i-th further call is refused exactly when c + i >= 5 |
| `RateLimit.FreshWindowRun` | src/lib/rate-limit.ts:14-33 | in a window opened by the first call, calls 1 to 5 are admitted and every later call is refused |
| `RateLimit.SixthCallRefused` | src/lib/rate-limit.ts:11-33 | six calls at one instant answer false five times, then true |
| `RateLimit.SweepIsInvisible` | src/lib/rate-limit.ts:52-60 | checks and remaining attempts at any later instant are the same with or without a sweep |
| `RateLimit.SweepKeepsBounded` | src/lib/rate-limit.ts:53-60 | a sweep keeps every count within [1, 5] |
| `RateLimit.RateLimiter.constructor` | src/lib/rate-limit.ts:10 | a new limiter has an empty table |
| `RateLimit.RateLimiter.IsRateLimited` | src/lib/rate-limit.ts:14-33 | absent or expired: entry set to count 1, reset now + 15 min, not limited; live at 5: limited, table unchanged; live below 5: count + 1, not limited |
| `RateLimit.RateLimiter.GetRemainingAttempts` | src/lib/rate-limit.ts:35-45 | 5 when absent or expired, otherwise 5 minus the count |
| `RateLimit.RateLimiter.GetResetTime` | src/lib/rate-limit.ts:47-50 | the entry's reset time, or 0 without an entry |
| `RateLimit.RateLimiter.Cleanup` | src/lib/rate-limit.ts:53-60 | the loop deletes exactly the expired entries and keeps the count invariant |
| `RouteGate.MatchesAny` | middleware.ts:15-22 | `some(startsWith)` holds exactly when some listed route is a prefix of the path |
| `RouteGate.Target` | middleware.ts:10-34 | the login target is an auth route and not a protected one; the profile target is a protected route and not an auth one |
| `RouteGate.GatePrecedence` | middleware.ts:24-38 | for any route lists: login redirect exactly when protected and no session, with the path as callback; profile redirect exactly when auth-only and a session |
| `RouteGate.ProtectedRouteIff` | middleware.ts:10-17 | protected means starting with `/profile` |
| `RouteGate.AuthRouteIff` | middleware.ts:11-22 | auth-only means starting with `/login` or `/signup` |
| `RouteGate.RouteClassesDisjoint` | middleware.ts:10-22 | no path is both protected and auth-only |
| `RouteGate.ProtectedWithoutSession` | middleware.ts:25-30 | a `/profile` path without a session redirects to login with the path as callback |
| `RouteGate.ProtectedWithSession` | middleware.ts:25-38 | a `/profile` path with a session is allowed |
| `RouteGate.AuthWithSession` | middleware.ts:33-35 | a `/login` or `/signup` path with a session redirects to the profile |
| `RouteGate.AuthWithoutSession` | middleware.ts:33-38 | a `/login` or `/signup` path without a session is allowed |
| `RouteGate.UnclassifiedAllowed` | middleware.ts:37-38 | any other path is allowed with or without a session |
| `RouteGate.PublicRoutesNotConsulted` | middleware.ts:12 | every protected path matches the public `/` entry and, without a session, is still redirected |
| `RouteGate.PrefixNotSegment` | middleware.ts:15-22 | `/profile/edit` and `/profiles` count as protected, `/signupX` as auth-only |
| `RouteGate.StartsWithTail` | middleware.ts:51 | the remainder after `/` starts with p exactly when the path starts with `/p` |
| `RouteGate.DotAfterAnythingIff` | middleware.ts:51 | without line breaks the `.*\.` alternative fires exactly when the remainder has a dot |
| `RouteGate.FaviconPatternIff` | middleware.ts:51 | the unescaped `favicon.ico` alternative is `/favicon`, any character, `ico` |
| `RouteGate.NoTerminatorTail` | middleware.ts:51 | the trailing `.*` covers the remainder exactly when it covers the whole path |
| `RouteGate.DotTail` | middleware.ts:51 | the remainder has a dot exactly when the path has one |
| `RouteGate.MatcherAcceptsIffGated` | middleware.ts:51 | the literal reading of the matcher equals: rooted, no dot, no line break, not under `/api/auth`, `/_next/static`, `/_next/image` or the favicon pattern |
| `RouteGate.AssetsNeverRedirect` | middleware.ts:41-51 | a path containing a dot is never redirected |
| `RouteGate.ExcludedPrefixesBypass` | middleware.ts:43-51 | `/api/auth`, `/_next/static` and `/_next/image` paths are never redirected |
| `RouteGate.ApplicationPagesGated` | middleware.ts:51 | `/profile`, `/login` and `/signup` do reach the gate |
| `RouteGate.NoRedirectLoop` | middleware.ts:26-34 | following a redirect under the same session is allowed |
| `Signup.CheckField` | src/app/api/auth/signup/route.ts:8-12 | a property's check fails exactly when it raises an issue, with that issue's message |
| `Signup.Validate` | src/app/api/auth/signup/route.ts:79-83 | the parse succeeds exactly when the schema raises no issue, and otherwise gives the first issue's message only |
| `Signup.ValidateSucceedsIff` | src/app/api/auth/signup/route.ts:8-12 | valid exactly when all three are strings, the email passes, the password has at least 8 characters and the name at least 1 |
| `Signup.FirstIssueWins` | src/app/api/auth/signup/route.ts:8-12 | a bad email is reported whatever the rest; then a short password; then an empty name |
| `Signup.InvalidEmailReportedBeforeShortPassword` | src/app/api/auth/signup/route.ts:79-83 | an invalid email with password `123` reports the email message |
| `Signup.SelectForgetsOnlyPassword` | src/app/api/auth/signup/route.ts:64-68 | two accounts have the same selected columns exactly when they differ at most in the stored hash |
| `Signup.TooManyAttempts` | src/app/api/auth/signup/route.ts:20-35 | 429, `retryAfter` and the `Retry-After` header both give the remaining milliseconds, the message gives them in minutes rounded up |
| `Signup.SignupKeepsInvariants` | src/app/api/auth/signup/route.ts:14-92 | a request keeps the count bound and the store's keying and id distinctness |
| `Signup.AttemptCountedBeforeValidation` | src/app/api/auth/signup/route.ts:19-40 | the limiter's table afterwards depends only on the client and the clock, whatever the body |
| `Signup.RefusedRequest` | src/app/api/auth/signup/route.ts:19-37 | a refused request returns the 429 reply for reset time minus now (never negative) and leaves the state as it was |
| `Signup.RateLimitedReply` | src/app/api/auth/signup/route.ts:17-37 | a refused client gets the 429 reply for reset time minus now (never negative), whatever the body, and the store is untouched |
| `Signup.ValidationFailureReply` | src/app/api/auth/signup/route.ts:79-83 | a failing body gets 400 with the first issue's message; the store is untouched and store faults cannot show |
| `Signup.DuplicateReply` | src/app/api/auth/signup/route.ts:43-52 | a taken email gets 400 with the duplicate message and no insert |
| `Signup.SuccessReply` | src/app/api/auth/signup/route.ts:55-77 | success adds exactly one account under the email with the hashed password and replies 201 with id, email and name |
| `Signup.RegisterOutcomes` | src/app/api/auth/signup/route.ts:39-92 | after admission the status is 201, 400 or 500, and only 201 adds an account, under a new email |
| `Signup.StatusesAndEffects` | src/app/api/auth/signup/route.ts:14-92 | the status is 201, 400, 429 or 500; 500 is the fixed message; only 201 adds an account, exactly one |
| `Signup.SecondSignupIsDuplicate` | src/__tests__/api/auth/signup.test.ts:39-65 | after a successful signup, another admitted valid signup with that email is the duplicate reply |
| `Signup.ResponseIgnoresPassword` | src/app/api/auth/signup/route.ts:55-77 | the reply depends on the password only through whether it is long enough |
| `Signup.FirstSignupExample` | src/__tests__/api/auth/signup.test.ts:16-37 | a first signup on an empty store gets 201 with id, email and name and stores the hash |
| `Signup.UserStore.constructor` | src/app/api/auth/signup/route.ts:3 | a new store is empty |
| `Signup.UserStore.FindUnique` | src/app/api/auth/signup/route.ts:43-45 | finds the account exactly when the email is stored |
| `Signup.UserStore.Create` | src/app/api/auth/signup/route.ts:58-69 | stores the account under its email with a fresh id and returns the public columns; a taken email fails and changes nothing |
| `Signup.Post` | src/app/api/auth/signup/route.ts:14-92 | the method's reply and new limiter and store state are those of the pipeline function |
| `Signup.Accept` | src/app/api/auth/signup/route.ts:39-92 | the steps after admission give the reply and store of the registration function |

## Left out

- React pages, forms, UI components, layout, providers, Tamagui and `next.config.ts`: rendering and bundler configuration, no logic.
- Concurrency: the limiter map has no locking in the source either; the model is sequential, so atomic check-and-increment under concurrent requests is not addressed.
- The handler reads `Date.now()` twice (inside the limiter and when computing the remaining time); the model uses one instant per request.
- `request.json()`: the body is already a typed value (`Signup.Body`); a body that is not JSON is the `Malformed` case and gives 500.
- Zod's email regular expression is the `isEmail` parameter; string lengths count characters, whereas JavaScript counts UTF-16 code units.
- bcrypt: `hash` is an arbitrary function; its random salt and cost factor are not modelled.
- Prisma: an in-memory map keyed by email with a counter for ids; database errors are the `Faults` parameter. The store's uniqueness error on insert cannot arise after the pre-check in a sequential model and would give 500.
- `addSecurityHeaders` is not part of this model and is treated as returning the reply unchanged; `console.error` logging is left out.
- Header names are the lower-case keys of a map; the case-insensitive lookup and the joining of repeated headers by `Headers` are not modelled.
- `auth()` is the `hasSession` parameter; redirect URLs are reduced to their target path and the `callbackUrl` value (the origin taken from `request.url` is not modelled).
- The matcher is read as an anchored regular expression over the path; Next.js's own compilation of matchers (data routes, locales, trailing slashes) is not modelled.
- `Number.prototype.toString` is modelled for integers only, which is all the reply uses.
- The singleton `authRateLimiter` becomes a `RateLimiter` object passed to `Post`.
- The test file's expectations of status 200, `data.success` and the message "Invalid input data" contradict the handler and are not modelled.
