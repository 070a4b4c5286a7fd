# Device identity and OAuth linking (pageshot add-on, `addon/lib/user.js`)

This project models the decision core of the add-on's user module:

- **Identity store** (`Identity.Storage`): the persisted record holding the
  device identity `userInfo` (`userId`, `secret`) and a cached `profileInfo`.
- **Startup reconciler** (`Identity.Reconcile`, `Identity.Initialize`): when
  the store lacks a truthy `userId` or `secret`, a fresh identity
  `"anon" + id` / `id` is generated and registered, and it is persisted only
  after registration answers 200. Otherwise the device logs in with the stored
  pair. A 404 re-registers that same pair. Any other status of 300 or above
  is an error, and anything lower ends the flow. `Identity.Restarts` runs
  the reconciler over a sequence of startups.
- **Status rules** (`Responses`): registration accepts exactly 200.
  `updateLogin`, `getOAuthParams` and `tradeCode` accept 200–299, and the
  OAuth requests reject with an error that carries the status and the body.
- **Brace stripping** (`Uuid.MakeUuid`): the generator's output with every `{`
  and then every `}` removed. It is proved equal to a one-pass filter that
  keeps the non-brace characters in order.
- **OAuth handler** (`OAuth.OAuthHandler`): a class with the memoised
  `oAuthParams`, the one-shot profile slot (`withProfile` plus the
  `profileSettled` guard) and a ghost `trace` of the linking steps. The pure
  functions `FetchParams`, `CompleteLogin` and `LogInRun` specify its
  methods. Their contracts state the memoisation and the strict order
  (parameters, then web flow, then trade, then profile), and they state that
  the slot is resolved only after a successful trade.

Every network round-trip is an input: the status (and parsed body) the backend
answers. The generator's outputs and the web flow's outcome are inputs too.

Three behaviours of the code worth noting, all modelled as written:
- A login status below 300 ends the flow without error even outside
  200–299, because the code only tests `>= 300`.
- Parameters are re-fetched when a 2xx response carried a falsy body
  (`null`). The code caches that body, and its truthiness test then fails.
- Reading `profile_uri` or `access_token` of a null body throws. The model
  gives `logInWithParams` the error `NullMemberAccess` in that case, and the
  profile slot stays pending.

## Model

| member | source | states |
|---|---|---|
| Responses.Truthy | addon/lib/user.js:114 | defines the truthiness test on the cached parameters: an object counts as present, null or undefined does not; `FetchParams` states the memoisation in terms of it |
| Responses.IsSuccess | addon/lib/user.js:88 | the 2xx test shared by `updateLogin`, `getOAuthParams` and `tradeCode`: exactly the statuses of class 2 (status / 100 = 2) |
| Responses.SaveLogin | addon/lib/user.js:51-57 | registration resolves iff the status is exactly 200; otherwise it rejects with that status |
| Responses.UpdateLogin | addon/lib/user.js:87-93 | `updateLogin` resolves iff 200 ≤ status < 300; otherwise it rejects with the response body |
| Responses.SettleJson | addon/lib/user.js:143-153 | `tradeCode` resolves iff 200 ≤ status < 300, with the body; otherwise its error carries `status` and `json` |
| Responses.RegistrationStricterThanSuccess | addon/lib/user.js:52 | a status registration accepts is accepted by the 2xx endpoints; 201 is rejected by registration but accepted by `updateLogin` |
| Responses.UpdateAgreesWithSettle | addon/lib/user.js:88-92 | `updateLogin` and the OAuth requests succeed on the same statuses and report the same body on failure |
| Responses.Member | addon/lib/user.js:168-169 | reading a member of an object yields its value when present and `undefined` otherwise |
| Uuid.RemoveAll | addon/lib/user.js:65 | a global replace by "" leaves no occurrence of the character, only characters of the input, and no longer string |
| Uuid.MakeUuid | addon/lib/user.js:63-66 | the id contains no brace and is no longer than the generator's output |
| Uuid.MakeUuidKeepsNonBracesInOrder | addon/lib/user.js:63-66 | the two passes equal the reference filter: every non-brace character kept, in its original order |
| Uuid.MakeUuidIdempotent | addon/lib/user.js:63-66 | a brace-free input is returned unchanged; stripping twice equals stripping once |
| Uuid.MakeUuidNonEmpty | addon/lib/user.js:63-66 | an output with any non-brace character yields a non-empty id |
| Identity.HasIdentity | addon/lib/user.js:11 | defines the presence test: a record with a non-empty `userId` and a non-empty `secret`; `Reconcile` and the restart lemmas state the behaviour in terms of it |
| Identity.FreshIdentityRecognised | addon/lib/user.js:11-18 | the identity saved after a 200 registration passes the presence test of the next startup (given a generator output with a non-brace character), so it is not regenerated |
| Identity.Storage.GetUserInfo | addon/lib/user.js:68-70 | returns the stored identity record as persisted |
| Identity.Storage.SetProfileInfo | addon/lib/user.js:72-74 | the cached profile becomes the given one; the identity is untouched |
| Identity.Storage.GetProfileInfo | addon/lib/user.js:76-78 | returns the cached profile, absent until set |
| Identity.FreshIdentity | addon/lib/user.js:12-15 | the generated `userId` is `"anon"` followed by this startup's first generator output with its braces dropped (every other character kept in order); the secret is the second output likewise; both tails are brace-free |
| Identity.ClassifyLogin | addon/lib/user.js:29-38 | 404 means re-register; other statuses ≥ 300 are errors carrying the status; statuses below 300 end the flow |
| Identity.Reconcile | addon/lib/user.js:10-42 | without an identity, exactly one registration of the fresh identity is sent, and it is stored iff the status is 200. With one, the login carries the stored pair, a 404 re-registers that same pair, and the store is never rewritten. The run fails exactly on the error statuses, and each outcome names the deciding request and carries its status |
| Identity.Initialize | addon/lib/user.js:10-42 | on the persisted store: posts the requests, writes `userInfo` and ends exactly as `Reconcile` says; `profileInfo` is untouched |
| Identity.IdentityKeptAcrossRestarts | addon/lib/user.js:11 | once the store holds an identity, any sequence of startups leaves it unchanged (never regenerated) |
| Identity.FailedRegistrationsLeaveStore | addon/lib/user.js:17-20 | startups whose registrations all fail leave an identity-less store as it was |
| Identity.FirstRegistrationFixesIdentity | addon/lib/user.js:11-20 | from an empty store, the identity generated by the first startup whose registration answers 200 is the one the store ends with |
| OAuth.FetchParams | addon/lib/user.js:113-135 | a truthy cache is returned with no request; otherwise one request is made; a 2xx answer is cached and resolved with; any other answer leaves the cache and rejects with status and body; the cache changes only on 2xx |
| OAuth.FetchParamsRepeatedly | addon/lib/user.js:113-135 | successive calls make at most one request each, and a truthy cache comes from a request |
| OAuth.CachedParamsNeverRefetched | addon/lib/user.js:114-116 | with parameters cached, any number of calls makes no request and keeps the cache |
| OAuth.ParamsFetchedUntilFirstSuccess | addon/lib/user.js:113-133 | from an empty cache, calls request until the first 2xx truthy body (i + 1 requests in all) and that body stays cached |
| OAuth.CompleteLogin | addon/lib/user.js:158-173 | web flow, then trade with its token data, then profile. A flow error stops before the trade. The slot is resolved iff the trade succeeds with non-null parameters and body, and then with the client from `profile_uri` and `access_token`, returning the trade response; a null body gives `NullMemberAccess`; any failure after the flow ends the steps at the trade |
| OAuth.LogInRun | addon/lib/user.js:175-179 | the parameters are obtained first (fetched iff not cached); the web flow runs iff they were obtained, and `logInWithParams` then runs with exactly them, giving its result, client and steps; a failed fetch ends the run after the fetch; the whole run is strictly ordered |
| OAuth.OAuthHandler.constructor | addon/lib/user.js:99-105 | no cached parameters, profile slot pending and unsettled |
| OAuth.OAuthHandler.GetProfileInfo | addon/lib/user.js:107-111 | yields the client of the settled slot, and nothing while it is pending |
| OAuth.OAuthHandler.ResolveProfile | addon/lib/user.js:167-170 | settles the slot with the client once; a settled slot is never changed |
| OAuth.OAuthHandler.GetOAuthParams | addon/lib/user.js:113-135 | result, new cache and request exactly as `FetchParams`; the profile slot is untouched |
| OAuth.OAuthHandler.TradeCode | addon/lib/user.js:137-156 | posts the token data once and settles as `SettleJson` |
| OAuth.OAuthHandler.LogInWithParams | addon/lib/user.js:158-173 | steps and result as `CompleteLogin`; the slot becomes settled iff the call succeeds, and a settled slot keeps its client |
| OAuth.OAuthHandler.LogIn | addon/lib/user.js:175-179 | steps and result as `LogInRun`; parameters cached as `FetchParams` says |
| OAuth.ProfileAfterLinking | addon/lib/user.js:99-179 | the profile is pending before `logIn`; afterwards it is the client for `https://fxa/profile` with token `tok` |

## Left out

- HTTP transport, URL construction from the backend address, form encoding, headers and cookies: every request is reduced to its kind and body, and every answer to a status and a parsed body. The `backend` argument of `initialize` is not modelled.
- Persistence mechanics of `sdk/simple-storage`: the store is a class with two fields, with no durability.
- `uuid()` generation: its outputs are inputs (`Environment.idUuid`, `Environment.secretUuid`).
- `FxAccountsOAuthClient.launchWebFlow`: its outcome (token data or the provider's error) is an input. What it does with null parameters is not visible and is part of that input.
- OAuth.OAuthHandler.GetProfileInfo: does not call `fetchProfile` (an external platform client); it returns the client whose `fetchProfile` the promise would settle with, or None while pending.
- `profileDeferred.reject` is never called by this code, so a rejected profile slot is not modelled.
- Promise scheduling and interleaving: calls are sequential. So are concurrent duplicate `getOAuthParams` requests before the first settles.
- `updateLogin`'s request body and the `info` it sends: only its response handling is modelled.
- `watchFunction`/`watchPromise` error reporting and `console` logging: failures appear only as `Outcome` values.
- JSON bodies are null or objects with string-valued members; other JSON values and non-string store fields are not represented. A missing or falsy stored field is the empty string.
