# Babysitting scheduler front-end: phone normaliser, session guard, responder flow

A Dafny model of the three pieces of logic inside a React front-end that
lets parents send babysitting requests and lets babysitters answer them
through a link.

- **Phone normaliser** (`PhoneNumber`, src/utils/phoneNumber.ts). It is a pure
  function from the text a user typed to either `""` or `"+1"` followed by
  ten digits. `Digits` is the `replace(/\D/g, '')` filter: it keeps the
  ASCII digits `0`-`9`.
  The main results:
  - every result is `""` or canonical;
  - the result is `""` exactly when fewer than ten digits are present;
  - otherwise the result is `"+1"` and the last ten digits. The
    "country code already there" and "exactly ten" branches are special
    cases of this fallback;
  - only the digits matter;
  - canonical numbers are fixed points, so the normaliser is idempotent.
- **Session guard and routing** (`App`, src/App.tsx). The class
  `SessionMonitor` holds the guard's state:
  - the stored last-activity time, which is the browser-storage entry;
  - whether the auth store has a user;
  - whether the guard's activity listeners are installed;
  - the notices shown.

  Its methods are the effect of a protected route (`Mount(now)`), an
  activity event (`Activity(now)`), the effect's cleanup (`Unmount`) and
  the loss and the return of the user (`Logout`, `SignIn`). The clock is
  always a parameter. Pure functions give the route table of `AppContent`,
  the guard's redirect-or-render decision, the root route and the rule for
  the navigation chrome. The route table compares paths without regard to
  ASCII case, as the router does by default, while `isResponsePage` is a
  case-sensitive prefix test. So a signed-in user who opens `/R/<id>` sees
  the response page with the navigation chrome.
- Two consequences of the session rules are stated as properties. Expiry
  is checked only when a guarded page mounts, and the activity listener
  writes without checking, so activity after any idle time on a mounted
  page revives the session. An expired mount leaves the stale timestamp
  in storage and installs no listeners, so every later guarded mount, after
  signing in again and whatever activity happens in between, expires too.
  This assumes the auth store's sign-in does not touch the stored timestamp.
- **Responder flow** (`BabysitterResponse`, src/pages/BabysitterResponse.tsx).
  The class `ResponderFlow` holds the page's `isVerifying`, `isSubmitted`
  and `request` state and the toasts shown. The two backend calls become
  outcome parameters: `Found(r)`, `NotFound` or `Threw`, and `UpdateOk` or
  `UpdateFailed`. Pure functions build the update payload and select the
  rendered screen. `ReadResponse` reads a response text back, which proves
  that the text loses neither the answer nor the comments.

Two behaviours of the page worth knowing:
- A response submitted for a request without a parent does not reach the
  success screen. It shows the details, and so the response form, again.
- The verification call gets `handleVerify`'s mobile argument unchanged.
  Whether that argument was normalised is decided outside this page.

## Model

| member | source | states |
|---|---|---|
| PhoneNumber.Digits | src/utils/phoneNumber.ts:6 | the cleaned text holds only ASCII digits, is no longer than the input, and equals the input in length exactly when the input is all digits |
| PhoneNumber.FormatPhoneWithCountryCode | src/utils/phoneNumber.ts:1-28 | every result is `""` or `+1` and ten digits; it is `""` exactly when the input holds fewer than ten digits |
| PhoneNumber.DigitsOfConcat | src/utils/phoneNumber.ts:6 | the digit filter distributes over concatenation |
| PhoneNumber.DigitsOfDigits | src/utils/phoneNumber.ts:6 | a string of digits passes the filter unchanged |
| PhoneNumber.DigitsIdempotent | src/utils/phoneNumber.ts:6 | filtering twice equals filtering once |
| PhoneNumber.FormatByDigitCount | src/utils/phoneNumber.ts:3-27 | the branches: no digits gives `""`; eleven digits led by `1` give `+` and the digits; ten give `+1` and the digits; fewer than ten give `""`; more than eleven, or eleven not led by `1`, give `+1` and the last ten |
| PhoneNumber.FormatIsPlusOneAndLastTenDigits | src/utils/phoneNumber.ts:12-27 | with ten or more digits the result is always `+1` followed by the last ten digits, otherwise `""` |
| PhoneNumber.FormatSeesOnlyDigits | src/utils/phoneNumber.ts:6 | formatting the input and formatting its digits alone give the same result |
| PhoneNumber.DigitsOfCanonical | src/utils/phoneNumber.ts:6 | the digits of a canonical number are the country code and its ten digits |
| PhoneNumber.CanonicalIsFixedPoint | src/utils/phoneNumber.ts:12-13 | a canonical number is returned unchanged |
| PhoneNumber.FormatIdempotent | src/utils/phoneNumber.ts:6-27 | normalising a normalised number gives the same number |
| App.Expired | src/App.tsx:43 | only a stored timestamp can expire, and it does so exactly when the clock is at least one hour and one millisecond past it |
| App.SessionMonitor.constructor | src/App.tsx:34-42 | a page load starts with the auth store's user and the stored timestamp, no listeners and no notices |
| App.SessionMonitor.Mount | src/App.tsx:38-62 | without a user nothing changes; an expired session adds the expiry notice, logs out, removes listeners and keeps the stored timestamp; otherwise the timestamp becomes `now` and listeners are installed |
| App.SessionMonitor.Activity | src/App.tsx:57-62 | with listeners installed the timestamp becomes `now`, otherwise it is unchanged; nothing else changes |
| App.SessionMonitor.Unmount | src/App.tsx:64-67 | the listeners are removed and nothing else changes |
| App.SessionMonitor.Logout | src/App.tsx:64-68 | losing the user removes the listeners, because the effect's dependency changed |
| App.SessionMonitor.SignIn | src/App.tsx:34 | the auth store gains a user and the stored timestamp stays as it is |
| App.ExpiryBoundary | src/App.tsx:31 | exactly 3,600,000 ms of inactivity is not expired; 3,600,001 ms is |
| App.ExpiryIsMonotone | src/App.tsx:43 | an expired session stays expired as time passes; a missing timestamp never expires |
| App.RemountAfterActivity | src/App.tsx:38-62 | activity within the hour before a remount keeps the user signed in and refreshes the timestamp to the remount time |
| App.MountAfterTimeout | src/App.tsx:43-50 | a timestamp 3,600,001 ms old means logout, one expiry notice and no refresh |
| App.IdlePageRevivedByActivity | src/App.tsx:43-62 | activity after more than an hour idle on a mounted page refreshes the timestamp, and the next mount keeps the user |
| App.SignInAgainAfterExpiry | src/App.tsx:43-50 | after an expiry and a new sign-in, the next mount expires again on the stale timestamp, with a second notice |
| App.ExpiryLocksOutLaterMounts | src/App.tsx:43-62 | after an expiry, activity and new sign-ins do not help: each later mount expires again, with one more notice each time, and the stored timestamp stays the stale one |
| App.PrivateRoute | src/App.tsx:70-74 | the wrapped page is shown exactly when there is a user; otherwise a replacing redirect to `/login` |
| App.RootRoute | src/App.tsx:91-100 | the index is shown exactly when there is a user; otherwise a replacing redirect to `/signup` |
| App.Route | src/App.tsx:86-140 | only a visitor without a user is redirected, always to `/login` or `/signup` and with replace; the response page gets the id matched from the path |
| App.IsResponsePage | src/App.tsx:80 | a path is a response page exactly when its first three characters are `/`, lower-case `r`, `/` |
| App.ShowsNavChrome | src/App.tsx:84 | the chrome is never shown without a user, and is shown to a user on any path starting `/R/` |
| App.ResponseRequestId | src/App.tsx:89 | a matched request id is a non-empty segment without `/`, and the path is `/r/` or `/R/` followed by it |
| App.ResponseLinkRoundTrip | src/App.tsx:89 | every link `/r/<id>` or `/R/<id>` with a valid id reaches the response page for that id, with or without a user |
| App.ResponsePrefixIsNotFixedPath | src/App.tsx:86-140 | no path that folds to something under `/r/` is one of the fixed routes; `/requests` does not count as a response link |
| App.NoUserSeesOnlyPublicPages | src/App.tsx:70-74 | without a user only the login, sign-up, response and upgrade-confirmation pages render |
| App.GuardedPathsRedirectToLogin | src/App.tsx:101-140 | each guarded path, in any case, sends a visitor without a user to `/login` with a replacing redirect; a user sees the page the path names: upgrade, babysitter list, family, create request or request dashboard |
| App.PublicPathsShowTheirPage | src/App.tsx:87-90 | `/login`, `/signup` and `/confirm_upgrade`, in any case, show their own page with or without a user |
| App.RootRouteDecision | src/App.tsx:91-100 | the root shows the index to a user and otherwise redirects to `/signup` with replace |
| App.NavChromeFollowsPage | src/App.tsx:80-84 | the response page ignores the user and has the chrome exactly when a user reached it through `/R/`; every other page a user sees has it |
| App.UpperCaseLinkShowsNavChrome | src/App.tsx:80-89 | a signed-in user opening `/R/<id>` gets the response page together with the navigation chrome |
| BabysitterResponse.HasId | src/pages/BabysitterResponse.tsx:20 | no request, a request without an id and a request with the empty id all count as having no id |
| BabysitterResponse.Status | src/pages/BabysitterResponse.tsx:22 | the status is `Available` exactly for the answer `yes`, else `Declined` |
| BabysitterResponse.ResponseText | src/pages/BabysitterResponse.tsx:23-25 | the text starts with the sentence for the answer; with no comments it is that sentence alone; otherwise it ends in `. ` and the comments |
| BabysitterResponse.ResponseTextRoundTrip | src/pages/BabysitterResponse.tsx:23-25 | the answer and the comments can be read back from the response text |
| BabysitterResponse.BuildSubmission | src/pages/BabysitterResponse.tsx:19-27 | submission is rejected with "Invalid data" and no call exactly when no loaded request has an id; otherwise the update goes to that id with the answer's status and response text |
| BabysitterResponse.PayloadIsConsistent | src/pages/BabysitterResponse.tsx:20-26 | in every payload sent, the status is `Available` exactly for the answer `yes`, the text reads back as the answer given, and the comments come back out |
| BabysitterResponse.PayloadExamples | src/pages/BabysitterResponse.tsx:20-26 | `yes` with "bring snacks" gives `Available` and "Yes, I can babysit then. bring snacks"; `no` with no comments gives `Declined` and "No, I am not available then" |
| BabysitterResponse.SelectScreen | src/pages/BabysitterResponse.tsx:58-75 | loading exactly while verifying; a success message only after submission and for the loaded request's parent; details only of the loaded request |
| BabysitterResponse.ScreenSelection | src/pages/BabysitterResponse.tsx:58-75 | loading while verifying and nothing else; success only after submission for a request with a parent; the form only with no request; the details otherwise |
| BabysitterResponse.ResponderFlow.constructor | src/pages/BabysitterResponse.tsx:13-16 | the page starts with `requestId` or `""`, nothing loaded, and the form |
| BabysitterResponse.ResponderFlow.StartVerify | src/pages/BabysitterResponse.tsx:37-40 | from the form the page shows loading, and the call gets the page's id and the mobile argument unchanged |
| BabysitterResponse.ResponderFlow.CompleteVerify | src/pages/BabysitterResponse.tsx:40-51 | a found request is stored and shown; not found or thrown leaves the request and shows the matching error; verification is over in every case |
| BabysitterResponse.ResponderFlow.Submit | src/pages/BabysitterResponse.tsx:18-35 | from the details screen, the payload is built from the loaded request; only a sent and accepted update sets `isSubmitted` with the success toast, and the page then shows the success message when the request has a parent; anything else adds the error toast and changes nothing more |
| BabysitterResponse.AcceptFlow | src/pages/BabysitterResponse.tsx:12-75 | verify, accept and update successfully: the payload is `Available` with the yes-text, and the success message names the parent |
| BabysitterResponse.UnknownNumberFlow | src/pages/BabysitterResponse.tsx:37-56 | an unknown number brings back the form with the not-found error |
| BabysitterResponse.MissingIdFlow | src/pages/BabysitterResponse.tsx:18-56 | a request loaded without an id, or with an empty one, is shown, but a response to it is rejected with "Invalid data" before any call, with the error toast |

## Left out

- JSX markup, styling, the card, navigation-bar and floating-button components, and the tooltip provider are presentational.
- Toasts are recorded as tags in a list kept by each component: the session guard's notices and the response page's toasts. Their display is left out.
- The react-query client configuration (src/App.tsx:22-29) and the internals of `useMutation` are library behaviour. This includes `isPending`, retries and the timing of callbacks.
- The backend calls `verifyBabysitterRequest` and `updateBabysitterResponse` are network calls. Their outcomes are parameters.
- Browser storage is a field, and the mouse and keyboard listeners are the `Activity` method.
- The clock is a parameter. `Mount` reads it once where the source reads it twice (src/App.tsx:43 and :54).
- `parseInt` on a malformed stored string, and its NaN result, is left out. The stored value is an optional integer.
- The auth store's own `logout` and sign-in are not part of this model. Only the loss and the return of the user are modelled. Whether they clear the stored timestamp is not known here, so the model assumes they do not.
- Date formatting of the request's ISO date (src/pages/BabysitterResponse.tsx:94) is a date-library call.
- Asynchronous interleaving is left out. A verification completes in the step after it starts (`StartVerify`, then `CompleteVerify`). An update starts and completes within one `Submit`, so nothing can happen while it is pending. A completion that arrives after the page has unmounted is not modelled.
- App.Route: paths are compared with ASCII case folded. Case folding of non-ASCII letters, the router's tolerance of a trailing slash and its decoding of percent-escapes are not modelled.
- App.NavChromeFollowsPage: the chrome is not always absent from the response page. It shows when a signed-in user reaches the page through `/R/<id>`, because the router ignores case and `isResponsePage` does not. This quirk of the source is stated, not corrected.
- BabysitterResponse.ResponderFlow.StartVerify: it requires the verification form to be on screen, the only place from which the source can call it.
- BabysitterResponse.ResponderFlow.Submit: it requires the details screen to be on screen, the only place where the response form, and so `handleSubmit`, is rendered.
