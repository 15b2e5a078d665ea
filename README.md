# four-twenty-nine flood detector, in Dafny

The NodeBB plugin four-twenty-nine puts a rate limiter in front of every HTTP request. The
configuration is an ordered list of route rules. Each rule has a path pattern, a ceiling
`max`, a window `time` in seconds, a label and a list of client records `{ip, start, count}`.
For each request, `isFlooding` picks the first rule whose pattern matches the URL. A rule
with `time == 0` allows the request and tracks nothing. Otherwise the rule drops every record
whose window started more than `time` seconds ago, reuses or creates the requester's record
and adds one to its count. When the count is above `max`, the request is refused and
`retryAfter` is set to `time`. `rateLimiter` lets signed-in users through in guest-only mode.
Otherwise it forwards allowed requests and answers refused ones with status 429 and a
`Retry-After` header. `initSettings` installs a configuration and empties every rule's client list.

The project has four modules:

- `FloodSpec` (`flood.dfy`) describes one evaluation as pure functions over values:
  - `FirstMatch` selects the rule;
  - `Expire` is the expiry filter;
  - `Lookup` finds the record the filter leaves in `match`;
  - `Track` does lookup-or-create and the increment;
  - `Evaluate` is a whole call of `isFlooding`;
  - `Install` is `initSettings`, and `RateLimit` is `rateLimiter`;
  - `Replay` is a series of requests from one client.
- `FloodProperties` (`properties.dfy`) proves what the plugin promises about those functions:
  - expiry, with records exactly at the cutoff kept and the survivors kept in order;
  - lookup-or-create, and at most one record per address;
  - isolation between clients;
  - first match wins;
  - the verdict;
  - the fresh window after expiry;
  - the burst law (requests 1..max allowed, the next one refused);
  - the fresh start after a configuration is installed.
- `Library` (`library.dfy`) is the plugin's state, the `settings` object, as the class
  `FloodDetector`. Its methods `InitSettings`, `IsFlooding` and `RateLimiter` work step by step
  as the JavaScript does, with a loop over the rules and a filtering loop over the client list.
  Each method is proved to produce the state and result that the matching `FloodSpec`
  function describes.
- `Defaults` (`defaults.dfy`) holds the first-start rule set and scenarios on it:
  - uploads are never limited;
  - API paths other than user profiles are never limited;
  - `/user/42` is refused from the sixth request within 30 seconds, with a 30-second hint;
  - `/home` is refused from the sixteenth request within a minute, with a 60-second hint;
  - after the 30-second window has passed, a client starts again from a count of 1.

The clock reading `Date.now()` is a parameter `now`, in milliseconds. A rule's compiled regular
expression is a field `re: string -> bool`. `initSettings` receives the regular-expression
compiler as a parameter `compile`. `Defaults.Compile` stands in for it on the three default
patterns only, with the predicates `IsAsset`, `IsUserProfile` and `IsPage`.

The source's `isFlooding` iterates over the unbound identifier `routes` (library.js:24).
This model reads it as `settings.routes`, the rule list that `initSettings` installs.

Two details of the code are easy to misread:

- A rule with `max == 0` and `time > 0` is not a pass-through. It refuses every request it
  sees (`ZeroMaxDeniesAll`). Only `time == 0` short-circuits.
- No warning is ever logged. The warning at library.js:58 is guarded by
  `match.count === route.max` inside the branch for `match.count > route.max`, so it cannot fire.

## Model

| member | source | states |
|---|---|---|
| FloodSpec.FirstMatch | library.js:24-31 | the chosen rule matches the URL and no earlier rule does; `None` exactly when no rule matches |
| FloodSpec.Expire | library.js:35-45 | a record survives the filter exactly when it was in the list and `start >= cutoff`; nothing is added |
| FloodSpec.Lookup | library.js:40-42 | the filter's `match` is the last record with the requester's address; `None` exactly when there is none |
| FloodSpec.Track | library.js:33-56 | the requester's record is the one `Lookup` finds afterwards; its count is its surviving count plus one; its start is kept if it survived, else `now`; every other surviving record is unchanged and in place; at most one record is appended |
| FloodSpec.Evaluate | library.js:19-68 | no match, or a match with `time == 0`, allows and changes nothing; otherwise only the first matching rule's client list changes, no rule's configuration changes, the requester's count grows by one over its surviving count, and the verdict is `time` exactly when that count exceeds `max` |
| FloodSpec.Replay | library.js:19-68 | repeated calls keep the number of rules and every rule's configuration |
| FloodSpec.Install | library.js:10-13 | every configured rule is kept, in order, with its path, `max`, `time` and label, gains the compiled form of its own pattern and an empty client list; so no record survives a reconfiguration and the invariant holds |
| FloodSpec.RateLimit | library.js:70-82 | a signed-in user in guest-only mode is forwarded and nothing is tracked; otherwise tracking is that of `isFlooding`, a `null` verdict forwards, and a 429 carries the matched rule's non-zero `time` |
| FloodProperties.ExpireAppend | library.js:35-45 | filtering is record by record, so the survivors keep their relative order |
| FloodProperties.ExpireAllLive | library.js:35-45 | a list whose records are all inside the window is left unchanged |
| FloodProperties.ExpireUnique | library.js:35-45 | filtering keeps at most one record per address |
| FloodProperties.ExpireKeepsLookup | library.js:35-45 | a requester's record inside the window survives the filter and is what `match` is set to |
| FloodProperties.UniqueLookup | library.js:40-42 | with one record per address, the matched record is the requester's only one |
| FloodProperties.TrackUnique | library.js:40-54 | if the list held at most one record per address, it still does after lookup-or-create |
| FloodProperties.TrackIsolation | library.js:35-56 | another address keeps exactly its surviving records, and its count is unchanged |
| FloodProperties.EvaluateExpiryAndIsolation | library.js:33-56 | after an evaluation with `time > 0`, every record of the rule is inside the window; other clients' records are exactly their surviving ones, and their counts are unchanged |
| FloodProperties.EvaluateWellFormed | library.js:29-56 | evaluation keeps one record per address in every rule and never gives a `time == 0` rule any records |
| FloodProperties.LaterRulesIgnored | library.js:24-64 | rules after the first match are neither consulted nor modified: replacing them changes neither the verdict nor the earlier rules |
| FloodProperties.ZeroMaxDeniesAll | library.js:56-62 | a rule with `max <= 0` and `time != 0` refuses every request with `retryAfter == time` |
| FloodProperties.WindowReset | library.js:35-62 | when all of the requester's records are older than the window, the request gets a fresh record `{ip, now, 1}` and is allowed exactly when `max >= 1` |
| FloodProperties.FirstMatchSameRules | library.js:24-27 | rule lists with the same patterns select the same rule |
| FloodProperties.ReplayKeepsRules | library.js:29-56 | a series of requests keeps one record per address in every rule |
| FloodProperties.FirstRequest | library.js:47-62 | a client without a live record gets `{ip, now, 1}` and is refused exactly when `1 > max` |
| FloodProperties.NextRequest | library.js:40-62 | a request inside the client's window reuses its record, with `start` kept and the count plus one, and is refused exactly when the new count exceeds `max` |
| FloodProperties.BurstWithinWindow | library.js:33-62 | n requests inside the window opened by the first give the record `{ip, first time, n}`; the last is refused with `time` exactly when `n > max` |
| FloodProperties.SameInstantBurst | library.js:56-62 | at one instant with `time > 0`, requests 1..max are allowed and every later one is refused with `retryAfter == time` |
| FloodProperties.FreshAfterInstall | library.js:8-13 | after a configuration is installed, a client is refused only once its requests in one window exceed the new rule's `max`, whatever it did before |
| Library.FilterClients | library.js:35-45 | the loop computes exactly the expiry filter and the filter's `match` |
| Library.TrackRequest | library.js:33-56 | the filter loop, then reuse or push of the requester's record and its increment, give exactly the list and record position of `Track` |
| Library.FloodDetector.constructor | library.js:6-15 | the detector exists once its first configuration is installed: its state is that of `initSettings` on that configuration |
| Library.FloodDetector.InitSettings | library.js:8-15 | the new state is the installed configuration with empty client lists; the invariant holds |
| Library.FloodDetector.IsFlooding | library.js:19-68 | the new rules and the verdict are those of `Evaluate` on the old rules; the invariant is kept |
| Library.FloodDetector.RateLimiter | library.js:70-82 | the new rules and the response are those of `RateLimit` on the old state |
| Defaults.DefaultSettings | library.js:115-134 | guest-only mode on; three rules in order: uploads (`^/assets/`, `time 0`), user profiles (`^/(?:api/)?user/`, 5 per 30 s), other pages (`^/(?!api/).*$`, 15 per 60 s) |
| Defaults.IsAsset | library.js:119 | an upload path is neither a profile path nor an API path, and on a single line it also matches the page pattern, which the uploads rule shadows |
| Defaults.IsUserProfile | library.js:124 | a profile path matches the page pattern exactly when it is the single-line `/user/` form; `/api/user/` paths are no pages |
| Defaults.IsPage | library.js:129 | nothing under `/api/` matches; every single-line path starting with `/` that is not under `/api/` does |
| Defaults.DefaultRoutes | library.js:115-134 | the default rules: uploads with `time 0`, user profiles 5 per 30 s, other pages 15 per 60 s, all untracked |
| Defaults.AssetsAlwaysAllowed | library.js:118-122 | with the default rules, an upload path is allowed and nothing changes, whatever has been tracked |
| Defaults.ApiUnlimited | library.js:123-133 | with the default rules, an API path other than a user profile matches no rule and is allowed |
| Defaults.UserProfileMatch | library.js:123-127 | `/user/42` is governed by the user-profile rule |
| Defaults.UserProfileBurst | library.js:123-127 | requests to `/user/42` within 30 s of the first: 1..5 allowed, later ones refused with 30 |
| Defaults.HomePageBurst | library.js:128-133 | requests to `/home` within 60 s of the first: 1..15 allowed, later ones refused with 60 |
| Defaults.UserProfileCooldown | library.js:123-127 | after a burst on `/user/42`, a request once the 30 s window has passed is allowed with a count of 1 |

## Left out

- Loading and saving settings in the database, the pubsub publish and subscribe, the
  `async.waterfall` of `appLoad` and the Express registration (library.js:1-4, 17, 84-143) are
  I/O and framework plumbing. The first-start rule set of `appLoad` is `Defaults.DefaultSettings`.
- The `parseInt` and `JSON.parse` coercions of stored settings (library.js:108-110) are left out.
  All numeric fields are integers, and `version` is not modelled.
- The regular-expression engine (`new RegExp`, `re.test`) is a parameter. `Defaults.Compile`
  is hand-made for the three default patterns and matches nothing for any other pattern.
- `Date.now()` is the parameter `now`.
- The `winston` logging is left out: the load message, and the flooding warning, which can
  never fire.
- JavaScript truthiness of `req.uid` and `settings.guestOnly` is modelled for integers
  (non-zero is true). `NaN` and non-numeric values are not modelled.
- Client records and route rules are values. Updating a record in place (`match.count++`) and
  reassigning `route.clients` become updates of the `routes` sequence. No other object
  aliases them in the source, so the model loses no behaviour here. `initSettings` adopting
  the caller's settings object is modelled as copying its contents.
- Library.FloodDetector.constructor: the detector only exists with a configuration. In the
  source, `settings` is undefined until the first `initSettings` (library.js:6), and a request
  arriving before it throws a `TypeError` (library.js:24 or 71); that state is not modelled.
- `compile` is total. In the source, an invalid pattern makes `new RegExp` throw after
  `settings` has already been replaced, leaving that rule and the later ones without `re` and
  `clients` (library.js:9-12); that partial state is not modelled.
- Concurrent evaluations are not modelled. JavaScript runs each evaluation to completion.
