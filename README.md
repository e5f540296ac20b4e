# Waitlist subscription core — a Dafny model

This project models the logic of a marketing landing page's waitlist signup
and its CMS read layer:

- the **fixed-window rate limiter**: at most five calls per identifier in a
  60-second window that starts at the identifier's first call. It has two copies.
  The server action's copy also sweeps stale entries at most every five minutes.
  The Mailchimp route's copy never sweeps.
- the **email sanitise-and-validate step**: trim, lower-case, the pattern
  `^[^\s@]+@[^\s@]+\.[^\s@]+$`, and at most 254 characters.
- the **server action** `subscribeToWaitlist`: the rate check, validation,
  the MailerLite configuration fallback, the create-or-update call and the
  classification of its errors into `{success, message}`.
- the **Mailchimp `POST` handler**: the same flow with HTTP status codes,
  the caller-address identifier, the API-key datacenter and the mapping of
  Mailchimp's reply.
- the **MailerLite client singleton** and the group-id resolution with its
  write-once cache.
- the **CMS helpers**: `getSection`, the flattening of the homepage's
  sections into named slots, and the null handling of the two fetches.
- the **environment schema**: the optional keys whose empty value becomes
  `undefined`, the `NODE_ENV` enumeration and its default, the required
  Sanity settings, the `YYYY-MM-DD` API version, and one failure for any
  broken rule.

State that the source keeps in module-level variables becomes classes:

- `FixedWindow.RateLimiter` holds the route's map.
- `SubscribeAction.ActionRateLimiter` holds the action's map and `lastCleanup`.
- `MailerLite.MailerLiteState` holds the client and the cached group id.

Their methods are proved against pure specification functions
(`FixedWindow.Admit`, `FixedWindow.Sweep`, `SubscribeAction.AfterCleanup`,
`MailerLite.ResolveGroup`). The lemmas are stated about those functions.
The branching logic of both handlers consists of total functions:
`SubscribeAction.Subscribe` and `MailchimpRoute.Post`. They take these as inputs:

- the rate verdict
- the raw input
- the configuration: `Post` takes `process.env` as a map. `Subscribe` takes
  the values the action derives from it: whether a client exists, `NODE_ENV`
  and the resolved group id
- the outcome of each external call

The methods `SubscribeToWaitlist` and `HandlePost` connect the state to those functions.

External inputs:

- `Date.now()` is an explicit `now` parameter. The action's `isRateLimited`
  reads the clock twice, once itself and once inside the sweep. The model
  therefore takes two readings, `now` and `cleanupNow`.
- `process.env` is a `map<string, string>`.
- The MailerLite SDK calls are inputs. `groups.get` is a `GroupsReply`.
  `subscribers.createOrUpdate` is a function from the parameters sent to an
  `UpsertOutcome`.
- Mailchimp's `fetch` is a function from the `MemberRequest` sent to a
  `MailchimpReply`.
- Sanity's `client.fetch` results are `Fetched` values.

Character semantics:

- Whitespace is the exact ECMAScript WhiteSpace and LineTerminator set. Both
  `trim` and `\s` use that set.
- Lower-casing covers ASCII letters only.

Behaviour of the source worth noting:

- The action keys its rate limit on the raw input, before it is trimmed and
  lower-cased (src/actions/subscribe.ts:61). Two spellings of one address
  therefore have separate windows.
- A duplicate is recognised only by the substring "already" in the
  provider's response message (src/actions/subscribe.ts:135). No error code
  is consulted.
- When no group id is configured and a client exists, the groups call is
  repeated on every call until a non-empty id is cached
  (src/lib/mailerlite.ts:40-59). A failed or empty listing leaves the cache
  empty.
- Both handlers answer "Please enter a valid email address." for an empty
  input (src/actions/subscribe.ts:69-74). `src/lib/schemas/subscribe.ts` is
  not part of this model.

## Model

| member | source | states |
|---|---|---|
| `Text.TrimStart` | src/actions/subscribe.ts:76 | the result is a suffix of the input, everything dropped is whitespace, and it does not start with whitespace |
| `Text.TrimEnd` | src/actions/subscribe.ts:76 | the result is a prefix of the input, everything dropped is whitespace, and it does not end with whitespace |
| `Text.Trim` | src/actions/subscribe.ts:76 | `trim` yields a string with no whitespace at either end, never longer than the input |
| `Text.TrimOfPadded` | src/actions/subscribe.ts:76 | any whitespace padding on either side of a trimmed string is removed exactly: `Trim(p + m + q) == m` |
| `Text.TrimOfTrimmed` | src/actions/subscribe.ts:76 | a string with no whitespace at either end is left unchanged by `trim` |
| `Text.TrimIdempotent` | src/actions/subscribe.ts:76 | trimming twice equals trimming once |
| `Text.ToLower` | src/actions/subscribe.ts:76 | `toLowerCase` keeps the length of the string. Its per-character meaning is `Text.ToLowerAt` |
| `Text.ToLowerAt` | src/actions/subscribe.ts:76 | lower-casing works character by character, and maps `A`–`Z` to `a`–`z` |
| `Text.ToLowerIdempotent` | src/actions/subscribe.ts:76 | lower-casing twice equals lower-casing once |
| `Text.ToLowerKeepsTrimmed` | src/actions/subscribe.ts:76 | lower-casing a string without surrounding whitespace keeps it so |
| `Text.Contains` | src/actions/subscribe.ts:135 | `includes` is true exactly when the substring occurs at some position |
| `Text.Split` | src/app/api/mailchimp/subscribe/route.ts:80 | `split("-")` gives at least one part, no part contains `-`, and joining the parts with `-` gives the key back |
| `Text.SplitJoin` | src/app/api/mailchimp/subscribe/route.ts:80 | splitting the join of `-`-free parts recovers the parts (the inverse direction of the round trip) |
| `Email.MatchesPattern` | src/actions/subscribe.ts:47 | the declarative reading of the pattern: one `@` with a non-empty part before it, a later `.` with non-empty parts on both sides, and every other character outside `\s` and `@` |
| `Email.Matches` | src/actions/subscribe.ts:78 | `EMAIL_REGEX.test`, computed by locating the first `@`. An accepted string contains `@` and has at least five characters (`a@b.c`). `Email.MatchesIsPattern` proves it equals the pattern |
| `Email.MatchesOnlyIfPattern` | src/actions/subscribe.ts:47 | an accepting scan implies the declarative reading of `^[^\s@]+@[^\s@]+\.[^\s@]+$` |
| `Email.PatternOnlyIfMatches` | src/actions/subscribe.ts:47 | the declarative reading of the pattern implies an accepting scan |
| `Email.MatchesIsPattern` | src/actions/subscribe.ts:47 | the executable check agrees with the pattern on every string (both directions) |
| `Email.OnlyAt` | src/actions/subscribe.ts:47 | in a string whose only `@` is at position `at`, the first `@` is found at `at` |
| `Email.Sanitize` | src/actions/subscribe.ts:76 | `email.trim().toLowerCase()` has no whitespace at either end and is never longer than the input |
| `Email.Validate` | src/actions/subscribe.ts:69-83 | an input is accepted exactly when it is a non-empty string whose trimmed, lower-cased form matches the pattern and is at most 254 long, and the accepted value is that form (the route repeats these lines at src/app/api/mailchimp/subscribe/route.ts:42-56) |
| `Email.SanitizeIdempotent` | src/actions/subscribe.ts:76 | sanitising a sanitised address changes nothing |
| `Email.SanitizePadded` | src/actions/subscribe.ts:76 | surrounding whitespace is ignored: a padded address sanitises to its lower-case form |
| `Email.SameSanitized` | src/actions/subscribe.ts:69-83 | any two inputs with the same sanitised form get the same verdict, the empty input included |
| `Email.ValidateNormalForm` | src/actions/subscribe.ts:76-83 | an accepted address, validated again, is accepted unchanged |
| `Email.ValidatePaddedUpper` | src/actions/subscribe.ts:76-83 | padding and upper-case letters do not change the verdict, and an accepted padded address normalises to its lower-case form |
| `Email.NoAtRejected` | src/actions/subscribe.ts:78 | a sanitised string without `@` is rejected |
| `Email.TwoAtsRejected` | src/actions/subscribe.ts:78 | a sanitised string with two `@` is rejected |
| `Email.InnerWhitespaceRejected` | src/actions/subscribe.ts:78 | a sanitised string with whitespace left inside is rejected |
| `FixedWindow.Admit` | src/actions/subscribe.ts:31-43 | a call is refused exactly when a live record has reached 5. A refused call changes nothing. A missing or expired record becomes `{count: 1, timestamp: now}`. A live record below the cap gains one call and keeps its window. No other key changes, and counts stay in 1..5 |
| `FixedWindow.Sweep` | src/actions/subscribe.ts:18-22 | the sweep keeps exactly the entries whose window has not elapsed, each unchanged |
| `FixedWindow.SweepKeepsRange` | src/actions/subscribe.ts:18-22 | sweeping keeps every count within 1..5 |
| `FixedWindow.SweepCommutes` | src/actions/subscribe.ts:28-43 | a sweep at the instant of a call changes neither its verdict nor, up to the sweep, the next table |
| `FixedWindow.BurstFrom` | src/actions/subscribe.ts:38-43 | from a live record with `c` calls, the i-th further call at the same instant is refused exactly when `c + i >= 5` |
| `FixedWindow.FreshBurst` | src/actions/subscribe.ts:33-43 | for an identifier without a live record, calls 1 to 5 at one instant are allowed and every later call is refused |
| `FixedWindow.SixthCallRefusedThenReset` | src/actions/subscribe.ts:7-8 | five allowed calls, a refused sixth, then a call more than 60 s later opens a fresh window with count 1 |
| `FixedWindow.BurstTableHasId` | src/actions/subscribe.ts:33-43 | after calls at `now`, the identifier has a record whose window began no later than `now` |
| `FixedWindow.BurstIsolated` | src/actions/subscribe.ts:31-43 | calls for one identifier leave every other identifier's record and verdict as they were |
| `FixedWindow.RateLimiter.constructor` | src/app/api/mailchimp/subscribe/route.ts:4 | the route's table starts empty |
| `FixedWindow.RateLimiter.IsRateLimited` | src/app/api/mailchimp/subscribe/route.ts:8-23 | the route's in-place update equals `Admit` on the old table and keeps counts in 1..5, with no sweep |
| `SubscribeAction.AfterCleanup` | src/actions/subscribe.ts:12-23 | within five minutes of the last sweep the table is untouched. Otherwise it is swept |
| `SubscribeAction.CleanupInvisible` | src/actions/subscribe.ts:26-29 | when both clock readings agree, the opportunistic sweep never changes a verdict |
| `SubscribeAction.ActionRateLimiter.constructor` | src/actions/subscribe.ts:6-10 | the action's table starts empty and `lastCleanup` is the load time |
| `SubscribeAction.ActionRateLimiter.CleanupStaleEntries` | src/actions/subscribe.ts:12-23 | no entry and no `lastCleanup` changes within five minutes of the last sweep. Otherwise `lastCleanup := now` and exactly the entries with `now - timestamp > 60000` are deleted (this is the loop over the map) |
| `SubscribeAction.ActionRateLimiter.IsRateLimited` | src/actions/subscribe.ts:25-44 | the verdict and new table equal `Admit` on the possibly swept table. `lastCleanup` advances only when a sweep ran |
| `SubscribeAction.UpsertParamsFor` | src/actions/subscribe.ts:108-120 | the parameters carry the sanitised email and status "active", and carry `groups = [groupId]` exactly when a non-empty group id was resolved |
| `SubscribeAction.Classify` | src/actions/subscribe.ts:128-150 | an error never succeeds. The result is "already on the waitlist" exactly when the error has a response message containing "already" in any case. Otherwise it is "Unable to subscribe" |
| `SubscribeAction.Subscribe` | src/actions/subscribe.ts:58-151 | a rate-limited call returns "Too many requests" whatever the input. A rejected input returns the invalid-address message. Success happens exactly on the dev-mode path and on a successful create-or-update. Every message is one of the seven fixed texts |
| `SubscribeAction.UnconfiguredOutcome` | src/actions/subscribe.ts:86-102 | without a client: development gives `{true, "Subscribed successfully (dev mode)"}`. Anything else gives `{false, "Email subscription is not configured…"}` |
| `SubscribeAction.ConfiguredOutcome` | src/actions/subscribe.ts:104-127 | with a client, the provider is called with the sanitised address, "active" and the resolved group, and its answer decides the result |
| `SubscribeAction.ToLowerConcat` | src/actions/subscribe.ts:135 | lower-casing distributes over concatenation |
| `SubscribeAction.AlreadyInAnyCase` | src/actions/subscribe.ts:132-140 | a provider message containing "already" in any mix of cases maps to "You're already on the waitlist!" |
| `SubscribeAction.SubscribeToWaitlist` | src/actions/subscribe.ts:58-127 | the rate check runs first, on the raw input, and updates the table as `Admit` does. The result is `Subscribe` applied to the verdict, the key's presence and the resolved group. `lastCleanup` moves only when the sweep runs. The group cache changes only when the provider was reached. The client singleton is never replaced, and it is created only on an allowed, valid call with a key set, carrying that key |
| `MailerLite.Client.constructor` | src/lib/mailerlite.ts:18-20 | a client remembers the key it was built with |
| `MailerLite.ResolveGroup` | src/lib/mailerlite.ts:32-67 | a configured id wins over the cache and any fetch. A cached id is returned without fetching. With no client the result is null. With a client and a non-empty listing, the first group's id is returned and cached. The cache changes only in that case. An empty or failed fetch yields null. A non-empty cached id is never overwritten |
| `MailerLite.MailerLiteState.constructor` | src/lib/mailerlite.ts:4 | no client and no cached group at start (see also line 30) |
| `MailerLite.MailerLiteState.GetMailerLiteClient` | src/lib/mailerlite.ts:10-24 | the result is null exactly when the key is absent or empty. Once a client exists it is returned and never replaced. A client is created only on the first call with a key |
| `MailerLite.MailerLiteState.GetGroupId` | src/lib/mailerlite.ts:32-67 | the returned id and the new cache equal `ResolveGroup` on the old cache. The client is not touched when the configured or cached id answers or no key is set. On the fetch path with a key, a missing client is created. A newly created client carries the key |
| `MailchimpRoute.Identifier` | src/app/api/mailchimp/subscribe/route.ts:31 | the key is `x-forwarded-for` if non-empty, else `x-real-ip` if non-empty, else "unknown". It is never empty |
| `MailchimpRoute.Datacenter` | src/app/api/mailchimp/subscribe/route.ts:80-82 | a datacenter, when found, is non-empty and contains no `-` |
| `MailchimpRoute.DatacenterOfKey` | src/app/api/mailchimp/subscribe/route.ts:80 | the datacenter of a key is its second `-`-separated segment |
| `MailchimpRoute.NoDatacenter` | src/app/api/mailchimp/subscribe/route.ts:80-82 | a key without `-`, or with an empty second segment, has no datacenter |
| `MailchimpRoute.MapReply` | src/app/api/mailchimp/subscribe/route.ts:106-145 | a thrown fetch, an unparsable body, or a failed reply whose body is `null` (reading its `title` throws) gives 500 "Something went wrong". The status is 200 exactly for an ok reply with a parsable body, and then the body is `{success: true, "Thanks for joining the waitlist!"}`. Every 400 is the duplicate or the invalid-address message |
| `MailchimpRoute.FailedReplyByTitle` | src/app/api/mailchimp/subscribe/route.ts:109-133 | a failed reply with title "Member Exists" gives 400 "already on the waitlist". "Invalid Resource" gives 400 "valid email". Anything else gives 500 "Unable to subscribe" |
| `MailchimpRoute.MembersUrl` | src/app/api/mailchimp/subscribe/route.ts:91 | the members endpoint `https://{dc}.api.mailchimp.com/3.0/lists/{listId}/members` |
| `MailchimpRoute.RequestFor` | src/app/api/mailchimp/subscribe/route.ts:91-104 | the request carries the sanitised address, status "subscribed" and the waitlist tag |
| `MailchimpRoute.Forward` | src/app/api/mailchimp/subscribe/route.ts:58-138 | after a valid address, the status is 200, 400 or 500, and `success: true` appears exactly on 200 |
| `MailchimpRoute.Post` | src/app/api/mailchimp/subscribe/route.ts:28-146 | the status is one of 200/400/429/500. It is 429 exactly when rate-limited, whatever the body. An unreadable request body gives 500 "Something went wrong". A parsed but rejected email gives 400. `success: true` appears exactly on 200 responses |
| `MailchimpRoute.UnconfiguredPost` | src/app/api/mailchimp/subscribe/route.ts:58-77 | a missing key or list id gives 200 with success in development. Otherwise it gives 500 "not configured" |
| `MailchimpRoute.ConfiguredPost` | src/app/api/mailchimp/subscribe/route.ts:79-104 | without a datacenter the result is 500 "Configuration error". Otherwise Mailchimp is asked at `https://{dc}.api.mailchimp.com/3.0/lists/{listId}/members` for the sanitised address, and its reply decides the response |
| `MailchimpRoute.HandlePost` | src/app/api/mailchimp/subscribe/route.ts:28-39 | the route's table is updated as `Admit` on the caller's identifier, and the response is `Post` with that verdict |
| `Queries.GetSection` | src/lib/queries.ts:60-65 | the result is the first section whose `_type` is the requested type, or none exactly when no section has it. A returned section has that type and belongs to the list |
| `Queries.FirstOfTypeUnique` | src/lib/queries.ts:64 | any answer that is the first section of the type is `getSection`'s answer |
| `Queries.GetHomepageData` | src/lib/queries.ts:43-51 | fails exactly when the fetch throws or returns null. A throw gives the fetch error and null gives "homepage not found". Otherwise the page passes through |
| `Queries.GetPricingTiers` | src/lib/queries.ts:54-57 | a null result becomes the empty list. Any list passes through unchanged. A thrown fetch gives the fetch error |
| `Queries.GetLandingPageData` | src/lib/queries.ts:68-108 | succeeds exactly when both reads succeed. Each of the seven slots is the first section of its type, and `seo` and `pricingTiers` pass through |
| `EnvSchema.OptionalText` | src/env.ts:9-17 | an absent or empty value becomes undefined. Any non-empty value is kept unchanged |
| `EnvSchema.IsRequiredText` | src/env.ts:25-26 | `z.string().min(1)`: the variable is set and non-empty |
| `EnvSchema.IsApiVersion` | src/env.ts:27-32 | `/^\d{4}-\d{2}-\d{2}$/`: ten characters, with digits around `-` at positions 4 and 7. `EnvSchema.ApiVersionOfGroups` characterises it by groups |
| `EnvSchema.ParseNodeEnv` | src/env.ts:20-22 | an absent `NODE_ENV` defaults to development. A present one must be one of the three names, and it is kept |
| `EnvSchema.ApiVersionOfGroups` | src/env.ts:27-32 | digit groups joined by `-` are accepted exactly when they have 4, 2 and 2 digits |
| `EnvSchema.ApiVersionGroups` | src/env.ts:27-32 | every accepted version is year, `-`, month, `-`, day |
| `EnvSchema.FailingFields` | src/env.ts:7-33 | the collected failures are exactly the schema variables whose rule does not hold |
| `EnvSchema.ParseEnv` | src/env.ts:7-44 | validation succeeds exactly when every rule holds. A failure reports exactly the failing variables and produces no configuration. A success carries every field as its rule transforms it |
| `EnvSchema.NodeEnvDefault` | src/env.ts:20-22 | with `NODE_ENV` unset, a valid configuration is in development mode |
| `Js.Or` | src/app/api/mailchimp/subscribe/route.ts:31 | `a \|\| b` on optional strings picks `a` when it is non-empty, else `b` |
| `Js.Lookup` | src/lib/mailerlite.ts:11 | reading an environment variable gives its text exactly when it is set |

## Left out

- Concurrency: the model is sequential. Races between concurrent requests on the rate table, the client singleton or the group cache are not modelled.
- Unicode case mapping. `Text.ToLower` maps ASCII letters only.
- Text.ToLower: states only that the length is kept. Its per-character meaning is `Text.ToLowerAt`. Under full Unicode mapping, JavaScript's `toLowerCase` can change a string's length.
- Lengths count Unicode code points, not UTF-16 code units. An address with characters outside the Basic Multilingual Plane can count shorter here than the 254-unit limit measures.
- `Date.now()` is a parameter. JavaScript numbers are IEEE-754 doubles and are modelled as unbounded integers. Nothing is lost: counts never exceed 5, and millisecond timestamps stay far below 2^53, where doubles stop representing every integer exactly. Clock skew is not modelled.
- The Basic Authorization header (base64 of `anystring:<key>`) that the route sends is not modelled.
- `console` logging is not modelled.
- The GROQ query strings and the ordering Sanity applies (`order(order asc)`) are not modelled. Fetched lists are taken as given.
- SubscribeAction.Classify: assumes `response.data.message` is a string when present. A non-string message would make `toLowerCase` throw inside the `catch` block; that case is not modelled.
- SubscribeAction.SubscribeToWaitlist: assumes constructing the MailerLite client never throws.
- Queries.GetLandingPageData: when both fetches fail, it reports the homepage error. With `Promise.all`, the rejection that reaches the caller depends on timing.
- Queries.GetLandingPageData: `homepage.seo as SEO` is a type cast with no runtime check, and the model passes the value through. Section contents are an opaque field map.
- EnvSchema.ParseEnv: reports failing variables as a set. zod's issue texts, their order and the pretty-printed error are not modelled.
- `src/lib/schemas/subscribe.ts` is not part of this model: it relies on zod's built-in `.email()` check.
- `src/sanity/client.ts` is not part of this model: it only configures the client.
- The React components and pages are not part of this model.
