# EqualFi front-end logic, modelled in Dafny

EqualFi is a web front end for a credit-scoring product. Authentication,
proof cryptography and ledger storage belong to vendor SDKs. The logic the
application itself contains is small, and this project models five pieces of
it and proves their properties:

- **Wallet-connection hook** (`wallet_hook.dfy`, module `WalletHook`). The
  fields `address`, `status` (`initializing | idle | connecting | connected`),
  `isInstalled` and `error`, updated by the wallet's account reports, by
  `connect`, by `disconnect` and by start-up detection. `parseAddress` and the
  classification of connection errors are modelled too. The class `Wallet`
  updates its fields in place. Each of its methods is tied to a specification
  function on a `WalletState` value. The proved invariant is: a connected
  wallet has a (truthy) address and shows no error, `connecting` and
  `initializing` show no error, nothing is connecting without an installed
  wallet, and an error is one of the two fixed messages. It holds after any
  sequence of events.
- **Session gate** (`session_middleware.dfy`, module `SessionMiddleware`).
  Given the session's `userId` and the request path, the gate either
  redirects to `/authn`, redirects to `/dashboard`, or continues. The proofs
  give the exact conditions for each answer. They also show there is no
  redirect loop: following a redirect with the same session always continues.
- **Proof relay** (`verify_route.dfy`, module `VerifyRoute`). This is the
  `POST /api/reclaim/verify` ladder. The proof SDK's `verifyCorrectness` is a
  function parameter that may return a value or throw. The proofs pin down
  every status code and envelope. They show that `success` is true exactly on
  the valid-proof path and that the data passes through unmodified. They also
  show that the presence check runs before the verifier is consulted and that
  the provider key is never looked up. Its only other effect is through the
  log line's template literal: a key whose string conversion throws ends in
  500.
- **Verification button** (`reclaim_button.dfy`, module `ReclaimButton`). The
  fields `loading`, `status` and `requestUrl` and the click handler. SDK
  callbacks and `fetch` outcomes are events. The derived predicates are
  `disabled`, spinner and QR code. The class `VerifyButton` updates the
  fields in place and is tied to specification functions on `ButtonState`.
  Its methods also return what the page's optional `onSuccess` and `onError`
  callbacks are called with.
  The proved invariant is: `idle` and `verified` are not loading and have no
  link, and `error` is not loading. It holds after any event sequence. The
  lemmas cover the happy path, the failure paths, and the fact that a
  verified button ignores clicks.
- **Sign-in / sign-up page** (`auth_page.dfy`, module `AuthPage`). This
  covers:
  - the split of the full name into first and last name, with its round trip;
  - the carousel step and the proof that it cycles through all four features;
  - the OAuth provider table and the guard of `oauthLogin`;
  - the error-message fallback;
  - the class `LoginSignupPage` whose handlers clear and then set `error`.

`js_runtime.dfy` (module `JsRuntime`) holds the JavaScript these pieces rely
on. `JsVal` is a JSON-like value. The module also defines truthiness, property
reads with optional chaining, `||`, `startsWith`, `includes`, and
`split`/`join` on one character. It proves that joining a split restores the
string.

Asynchronous functions are cut at their `await` points. Each piece that runs
without suspending is one step: a method of the class and a function of the
specification. Awaited SDK results are parameters of these steps (`Settlement`,
`RequestOutcome`, `Reply`, `Verdict`).

Where the code's behaviour differs from its documented behaviour or its comments, the model follows the code:
- The relay is documented as rejecting a missing `proof` or `providerKey`. The code rejects a falsy one.
  An empty string therefore also gets 400.
- The button's states are `idle`, `generating`, `waiting_for_user`,
  `verifying_server`, `verified` and `error`. The comment in the component
  lists a shorter set.

## Model

| member | source | states |
|---|---|---|
| `JsRuntime.SplitOn` | src/components/Auth.jsx:106 | `split(' ')` gives at least one piece, no piece contains the separator, and a string not starting with the separator has a first piece starting with its first character |
| `JsRuntime.JoinSplit` | src/components/Auth.jsx:106-107 | joining the pieces of a split with the same separator gives back the original string |
| `JsRuntime.ToStringThrows` | src/app/api/reclaim/verify/route.js:15 | converting a value to a string throws only for an object with an own `toString` property, or an array holding such a value: a primitive never throws, an object throws iff it has that property, and an array of primitives never throws |
| `WalletHook.ParseAddress` | src/hooks/useUserWallet.js:5-10 | the result is `null` or truthy; a falsy input gives `null`; a truthy string is returned unchanged; for an object a non-null result is one of its `address`, `account`, `id`; any other truthy value (a number, `true`, an array) gives `null`, since it has none of those properties |
| `WalletHook.ParseAddressOfObject` | src/hooks/useUserWallet.js:9 | for an object: the first truthy of `address`, `account`, `id` in that order; `null` exactly when none is truthy |
| `WalletHook.FirstAddress` | src/hooks/useUserWallet.js:20-22 | a non-array or empty array gives `null`; otherwise the parsed first account |
| `WalletHook.ClassifyConnectError` | src/hooks/useUserWallet.js:94-102 | for a non-nullish error: "Connection rejected by user." iff `code` is 4001 or the `message` (string, or array element) includes "rejected"; otherwise "Failed to connect wallet." when `message` is nullish, a string or an array; the condition throws exactly for a nullish error or, without code 4001, a `message` of another type |
| `WalletHook.RejectionCodeWins` | src/hooks/useUserWallet.js:98-99 | code 4001 selects the rejection message whatever the message text |
| `WalletHook.RejectionByMessage` | src/hooks/useUserWallet.js:98-102 | any error object whose message contains "rejected" selects the rejection message, whatever its code; an error with neither code nor message selects the failure message |
| `WalletHook.Apply` | src/hooks/useUserWallet.js:19-109 | every step (accounts report, init outcome, connect start, connect settle, disconnect) keeps the invariant, and none sets `isInstalled` back to true |
| `WalletHook.RunKeepsInvariant` | src/hooks/useUserWallet.js:19-109 | any sequence of steps keeps the invariant (connected implies a truthy address and no error, and so on) |
| `WalletHook.ReachableStatesKeepInvariant` | src/hooks/useUserWallet.js:13-16 | every state reachable from the initial `useState` values satisfies the invariant |
| `WalletHook.NotInstalledIsPermanent` | src/hooks/useUserWallet.js:49-53 | once no wallet is found, no later step sets `isInstalled` to true |
| `WalletHook.Wallet.constructor` | src/hooks/useUserWallet.js:13-16 | starts with `address` null, `status` initializing, `isInstalled` true, `error` null |
| `WalletHook.Wallet.HandleAccountsChanged` | src/hooks/useUserWallet.js:19-32 | a usable first account sets that address, `connected` and clears the error; anything else sets `address` null and `idle` and leaves `error` as it was |
| `WalletHook.Wallet.Init` | src/hooks/useUserWallet.js:38-64 | server side: no change; no provider after the retry: `isInstalled` false and `idle`; silent check resolved: handled as an accounts report; silent check threw: `idle` |
| `WalletHook.Wallet.BeginConnect` | src/hooks/useUserWallet.js:84-87 | without an installed wallet nothing changes; otherwise `connecting` with the error cleared and the address kept |
| `WalletHook.Wallet.FinishConnect` | src/hooks/useUserWallet.js:89-103 | resolved accounts are handled as an accounts report; a rejection sets `idle` and the classified message, keeping the address |
| `WalletHook.Wallet.Disconnect` | src/hooks/useUserWallet.js:106-109 | `address` null and `idle`; `error` and `isInstalled` unchanged |
| `SessionMiddleware.IsPublicRoute` | src/middleware.js:5-8 | the root page and every path starting with `/authn` are public; any other public path starts with `/authn` |
| `SessionMiddleware.Gate` | src/middleware.js:10-27 | redirect to `/authn` iff anonymous on a non-public path; redirect to `/dashboard` iff signed in on a path starting with `/authn`; otherwise continue |
| `SessionMiddleware.PublicPagesPass` | src/middleware.js:5-8 | the root page continues for everyone; an anonymous visitor continues on every public path |
| `SessionMiddleware.RedirectTargetPasses` | src/middleware.js:14-26 | running the gate again on a redirect's target with the same session continues, so there is no redirect loop |
| `VerifyRoute.Post` | src/app/api/reclaim/verify/route.js:6-52 | no envelope is sent exactly when the verifier throws `null` or `undefined` (reading its `message` in the catch block throws); otherwise status is 200, 400 or 500; success iff 200 iff both inputs are truthy, the key converts to a string and the verifier returns a truthy value; then `data` is the proof's `extractedParameterValues`; a missing input gives 400 "Missing Proof or Provider Key"; a provider key whose string conversion in the log line throws gives 500 with the TypeError's message before the verifier is consulted; any other thrown value gives 500 with its `message`; 500 exactly when something other than a nullish value threw |
| `VerifyRoute.InvalidProofIsRejected` | src/app/api/reclaim/verify/route.js:25-30 | a proof the verifier rejects gives 400 with "Invalid Proof Signature" |
| `VerifyRoute.ExceptionsBecome500` | src/app/api/reclaim/verify/route.js:48-51 | an unreadable body gives 500 with the parse error's message; a verifier throwing a non-nullish value gives 500 with that value's `message` (`undefined` for a primitive); a verifier throwing `null` or `undefined` gets no envelope |
| `VerifyRoute.MissingInputIgnoresVerifier` | src/app/api/reclaim/verify/route.js:11-25 | with an input missing the answer is the same for every verifier, so the presence check runs first |
| `VerifyRoute.UnconvertibleKeyIs500` | src/app/api/reclaim/verify/route.js:15 | a provider key such as `{"toString": 1}`, whose conversion to a string throws, gives 500 "Cannot convert object to primitive value" whatever the verifier |
| `VerifyRoute.ProviderKeyOnlyPresenceChecked` | src/app/api/reclaim/verify/route.js:9-46 | any two truthy provider keys whose string conversions both succeed, or both throw, give the same answer: the key is never looked up |
| `ReclaimButton.Disabled` | src/components/ReclaimButton.js:92 | the button is disabled while loading and once verified, and enabled otherwise |
| `ReclaimButton.SpinnerShown` | src/components/ReclaimButton.js:102 | the spinner shows only while loading, never once a link is set, and always while loading without a link |
| `ReclaimButton.QrVisible` | src/components/ReclaimButton.js:120 | the QR code shows exactly while waiting for the user with a non-empty link |
| `ReclaimButton.SessionProvider` | src/components/ReclaimButton.js:18-34 | a session is started iff the app id is set and the provider key is configured, and with that provider's id |
| `ReclaimButton.Delivered` | src/components/ReclaimButton.js:56-61 | the page's `onSuccess` is called iff the page passed one and the relay answered with a truthy `success`, and with `result.data` |
| `ReclaimButton.BackendFailure` | src/components/ReclaimButton.js:49-68 | an error is raised iff the reply did not succeed or the page's `onSuccess` threw; a failed `fetch` or a `null` reply (reading its `success` throws) raises an unreadable-reply error; any other answer without a truthy `success` raises `new Error(result.error)`, or the TypeError of converting an unconvertible `error` |
| `ReclaimButton.ErrorStatusIsReported` | src/components/ReclaimButton.js:58-70 | the button ends in `error` exactly when an error is raised, and in `verified` exactly when none is |
| `ReclaimButton.Apply` | src/components/ReclaimButton.js:13-85 | every event, including a click on a disabled button (no effect), keeps the button invariant |
| `ReclaimButton.RunKeepsInvariant` | src/components/ReclaimButton.js:13-85 | any sequence of events keeps the invariant |
| `ReclaimButton.ReachableStatesKeepInvariant` | src/components/ReclaimButton.js:9-11 | every state reachable from the initial state satisfies the invariant |
| `ReclaimButton.SpinnerAndQrExclusive` | src/components/ReclaimButton.js:102-120 | the spinner and the QR code are never shown together |
| `ReclaimButton.VerifiedIsFinal` | src/components/ReclaimButton.js:92 | a verified button is disabled, shows neither spinner nor QR code, and a click leaves it unchanged |
| `ReclaimButton.FailuresReenable` | src/components/ReclaimButton.js:65-85 | a setup error, an SDK failure, a failed relay answer or a throwing success callback each end in `error`, not loading, enabled, without spinner or QR code |
| `ReclaimButton.MissingConfigStopsAtOnce` | src/components/ReclaimButton.js:14-26 | a click with missing app id or unknown provider ends not loading, status still `generating`, link unchanged, and starts no session |
| `ReclaimButton.RetryAfterFailureShowsNoSpinner` | src/components/ReclaimButton.js:38-102 | the link is not cleared on failure, so after one the next generation phase shows no spinner |
| `ReclaimButton.HappyPath` | src/components/ReclaimButton.js:13-61 | from a fresh button: spinner while generating, QR code while waiting for the user, neither while the server verifies, then verified, not loading, no link, disabled |
| `ReclaimButton.VerifyButton.constructor` | src/components/ReclaimButton.js:8-11 | starts not loading, `idle`, with an empty link; keeps the provider key and whether `onSuccess` and `onError` were passed |
| `ReclaimButton.VerifyButton.HandleVerification` | src/components/ReclaimButton.js:13-34 | sets `generating`; loading stays on exactly when a session is started, with the configured provider id; the link is kept |
| `ReclaimButton.VerifyButton.OnSetupError` | src/components/ReclaimButton.js:81-85 | not loading and `error`; `onError` is not called |
| `ReclaimButton.VerifyButton.OnRequestUrl` | src/components/ReclaimButton.js:36-40 | stores the link and sets `waiting_for_user`; the QR code shows iff the link is non-empty |
| `ReclaimButton.VerifyButton.OnProofReceived` | src/components/ReclaimButton.js:44-46 | sets `verifying_server`, which hides the QR code |
| `ReclaimButton.VerifyButton.OnBackendReply` | src/components/ReclaimButton.js:49-71 | success: `verified`, link cleared, `result.data` delivered to `onSuccess` if the page passed one; otherwise, or when that callback throws, `error`, with the raised error handed to `onError` if the page passed one; loading is off either way |
| `ReclaimButton.VerifyButton.OnProofFailure` | src/components/ReclaimButton.js:73-78 | `error` and not loading; the SDK's error is handed unchanged to `onError` if the page passed one |
| `AuthPage.NextFeature` | src/components/Auth.jsx:73-78 | the next index is below the number of features; it is the successor, wrapping from the last to 0 |
| `AuthPage.FeatureFromTicks` | src/components/Auth.jsx:73-78 | k ticks after showing feature `start` (the initial 0 or a clicked dot), with no dot clicked meanwhile, the carousel shows `(start + k) mod 4` |
| `AuthPage.FeatureAfterTicks` | src/components/Auth.jsx:75 | in an uninterrupted run from the initial 0 (no dot clicked), after k ticks the carousel shows feature k mod 4 |
| `AuthPage.CarouselCycles` | src/components/Auth.jsx:21-46 | in an uninterrupted run from 0, every feature is shown within the first four ticks, and the sequence repeats every four ticks |
| `AuthPage.StrategyFor` | src/components/Auth.jsx:48-52 | Google, GitHub and Apple map to `oauth_google`, `oauth_github` and `oauth_apple`; other names to `undefined` |
| `AuthPage.OAuthLogin` | src/components/Auth.jsx:54-61 | redirects iff the sign-in resource is present and the strategy is truthy, with `/sso-callback` and `/dashboard` |
| `AuthPage.EveryButtonRedirects` | src/components/Auth.jsx:228-231 | every OAuth button has a strategy and redirects once sign-in is loaded, the strategies are pairwise distinct, and nothing redirects before sign-in is loaded |
| `AuthPage.FirstName` | src/components/Auth.jsx:106 | the first name contains no space |
| `AuthPage.LastName` | src/components/Auth.jsx:107 | a name without a space has an empty last name |
| `AuthPage.NameSplitAtFirstSpace` | src/components/Auth.jsx:106-107 | the first name is the text before the first space; the last name is the text after it, inner spaces kept |
| `AuthPage.NameWithoutSpace` | src/components/Auth.jsx:106-107 | without a space the first name is the whole name and the last name is empty |
| `AuthPage.NameRoundTrip` | src/components/Auth.jsx:106-107 | with a space, first name + " " + last name is the full name |
| `AuthPage.SignUpPayload` | src/components/Auth.jsx:103-108 | the payload carries email and password unchanged, a space-free first name, and names that rejoin to the full name (or the whole name and an empty last name) |
| `AuthPage.CaughtError` | src/components/Auth.jsx:94 | the stored error is the first error's message when truthy, else the fallback, so it is never empty; a nullish error makes the expression throw |
| `AuthPage.ProviderMessageShown` | src/components/Auth.jsx:116 | a provider error with a message shows that message; an empty error list shows "Signup failed" |
| `AuthPage.Login` | src/components/Auth.jsx:84-95 | navigates iff the result status is `complete`, and then shows no error; any other non-nullish result shows no error; a nullish result shows "Login failed" (reading its `status` throws); a thrown error shows the caught message, and a thrown `null` or `undefined` leaves the error empty |
| `AuthPage.LoginSignupPage.constructor` | src/components/Auth.jsx:16-18 | starts with an empty error and the first feature |
| `AuthPage.LoginSignupPage.AdvanceFeature` | src/components/Auth.jsx:73-78 | the index advances by the carousel step and still names a feature; the error is untouched |
| `AuthPage.LoginSignupPage.SelectFeature` | src/components/Auth.jsx:384-387 | a click on a dot shows that dot's feature; the error is untouched |
| `AuthPage.LoginSignupPage.HandleLogin` | src/components/Auth.jsx:80-96 | not loaded: nothing happens; loaded: the error is cleared and then set, and navigation happens, as `Login` states |
| `AuthPage.LoginSignupPage.HandleSignup` | src/components/Auth.jsx:98-118 | not loaded: nothing is sent; loaded: the payload is sent, the error is cleared, and on a throw it is set to the caught message or the fallback |

## Left out

- Rendering is not modelled: markup, styling, animation, the button's label text (src/components/ReclaimButton.js:110-116), `alert` and console logging. Only the `disabled`, spinner and QR conditions are kept.
- Cryptographic proof checking and proof generation belong to the proof SDK. `verifyCorrectness` is the parameter `verify`. The SDK's `init`, `getRequestUrl`, `startSession` and its callbacks are events.
- What the web framework answers when the relay handler's promise rejects is not modelled. The relay model stops at `Unanswered`.
- Identity-provider calls (`signIn.create`, `signUp.create`, `prepareEmailAddressVerification`, `authenticateWithRedirect`, `auth()`) are foreign calls. Their results are parameters, and `router.push` is the returned `navigate` flag.
- The `mounted` flag, the 100 ms retry delay, and listener registration and removal in the wallet hook are lifecycle and timing. Each awaited outcome is a discrete step instead.
- Interleavings are not modelled. In the code the event callbacks may arrive in any order. The event-sequence lemmas allow any order, but steps do not overlap.
- SessionMiddleware.IsPublicRoute approximates the route-matcher patterns `'/authn(.*)'` and `'/'` by a prefix test and an equality. The matcher's own glob semantics, such as trailing-slash handling, are left out.
- The middleware's `config.matcher` regex (src/middleware.js:29-34) is framework configuration and is left out.
- Numbers are integers. `NaN`, `-0` and fractions are left out of truthiness and of the `code === 4001` test.
- Property reads see only an object's own data properties. Array and string properties such as `length`, and properties inherited from `Object.prototype`, are left out. For example, a provider key named `toString` would find an inherited function in the real lookup. String conversion is the exception: an own `toString` property makes an object's conversion throw, and the model states that where the code converts a value.
- The proof-protocol configuration (src/config/reclaim.js) appears only as the constant provider table `ReclaimButton.Providers`. The app id is a parameter, and the app secret is passed only to the SDK.
- The data-access gateway (src/app/api/db/[method]/route.ts) is a pass-through to the ledger SDK and is not part of this model. Neither are the test page that calls it (src/app/test-db/page.js), the admin and browser wallet constructors (src/lib/server/adminWallet.ts, src/lib/weilliptic/walletClient.js), smooth scrolling (src/hooks/useLenis.js) or the random particles of the sign-in page. These are SDK constructors, timers and randomness.
