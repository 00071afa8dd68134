# GramSathi client logic in Dafny

GramSathi is a React web app that teaches rural users digital government services. Users
practise in simulated flows: a UPI payment, a PM Kisan application form, a DigiLocker login,
a literacy quiz and a market-rate page. They earn points and certificates, and results
recorded while offline are queued in `localStorage` for a later replay.

This project models the app's client-side logic:

- the offline action queue and its replay pass (`saveOfflineAction`, `syncOfflineActions`);
- the voice choice of `speak`;
- the state machines of the practice pages;
- the certificate list and carousel of the profile page;
- the route guard and route table of the shell;
- the translation lookup.

Layout, one module per file:

- `js.dfy` (`Js`): the JavaScript built-ins the pages rely on, over Dafny values. These are
  string truthiness, `includes`, `split(sep)[0]`, ASCII `toLowerCase`, decimal `parseInt`
  and the decimal text of an integer.
- `browser.dfy` (`Browser`): the shared browser state, as the class `Device`. It holds the
  `localStorage` entries the pages use (queue, token, user, onboarding flag) and
  `navigator.onLine`. It also records every effect a page causes: requests sent, sync
  events, alerts and navigations. A `fetch` call's result is an `Outcome` parameter: a
  response with a status, or a thrown error.
- `offline_sync.dfy` (`OfflineSync`): the queue and the replay pass. The pass is proved
  against the specification functions `Retained`, `KeptIndices`, `CountFate` and `Replays`.
  The file also holds the voice choice `PickVoice`.
- `quiz.dfy`, `form_sim.dfy`, `simulation.dfy`, `onboarding.dfy`, `profile.dfy`,
  `digilocker.dfy`, `mandi.dfy`: one class per page whose handlers update its state. Each
  file also has pure functions for the page's decisions, and lemmas about them.
- `app.dfy` (`App`): `ProtectedRoute`, the route table, the sidebar and bottom navigation
  rules and logout. `App` has no state and renders once per page load. The root route's
  choice, the sidebar and the bottom navigation use the token read at that load. The guard
  reads storage again each time a guarded route mounts. The class `Shell` holds that
  load-time token.
- `language.dfy` (`Language`): the English/Hindi tables and `t(key)`.

Facts about the source the model records:

- No file of the modelled source calls `syncOfflineActions`. Actions queued by the quiz are
  stored, and the replay pass is modelled on its own.
- A login in `frontend/src/pages/Login.jsx` stores the token and navigates to "/" without a
  reload. The root still shows the landing page, with no sidebar or bottom navigation,
  until the page is loaded again. After a logout the sidebar and bottom navigation stay.
- The route table of `frontend/src/App.jsx` does not route the quiz, the form, the market,
  the DigiLocker pages or the tutorial. They are modelled as components.
- A missing `user` entry parses as `null`, and reading `storedUser.id` on it throws. What
  follows depends on the page:
  - the quiz submits and queues nothing;
  - the UPI page alerts "Could not connect to server";
  - the form takes its offline path;
  - the DigiLocker log sends nothing, but the success alert still shows.

## Model

| member | source | states |
|---|---|---|
| Js.SplitHead | frontend/src/utils/offlineSync.js:120 | the language code is a prefix of the tag, holds no '-', and ends at the first '-' or at the end |
| Js.IncludesAtOffset | frontend/src/pages/Mandi.jsx:66 | the `includes` scan holds exactly when the needle occurs at some offset |
| Js.ParseIntOfNumberToString | frontend/src/pages/Mandi.jsx:79 | `parseInt` reads back the decimal text of any integer, whatever non-digit text follows |
| OfflineSync.Enqueued | frontend/src/utils/offlineSync.js:12-30 | saving never loses an entry, adds at most one, and unreadable storage stays unreadable (errors are swallowed) |
| OfflineSync.SaveOfflineAction | frontend/src/utils/offlineSync.js:12-30 | the new queue is `Enqueued(old queue, action)`: with readable storage and a working write, exactly the action `{id, url, method, body, timestamp}` is appended at the end |
| OfflineSync.EnqueueAllIsFifo | frontend/src/utils/offlineSync.js:14-25 | successive saves append in call order; earlier entries are untouched |
| OfflineSync.SyncOfflineActions | frontend/src/utils/offlineSync.js:36-96 | no-op when offline, on an empty or unreadable queue, or without a token; otherwise one request per entry in queue order, the stored queue becomes `Retained(queue, outcomes)`, and the event and alert fire exactly when the success count is positive, carrying that count |
| OfflineSync.FateOf | frontend/src/utils/offlineSync.js:64-81 | an entry is synced exactly on a 2xx response, kept exactly on a thrown error or a status of 500 or more, and dropped exactly on any other response |
| OfflineSync.ReplayAll | frontend/src/utils/offlineSync.js:50-82 | the loop sends one request per entry in queue order, keeps `Retained(queue, outcomes)` and counts `CountFate(outcomes, Synced)` |
| OfflineSync.KeptIndicesExact | frontend/src/utils/offlineSync.js:64-81 | the kept positions are strictly increasing and are exactly the positions whose outcome is a thrown error or a status of 500 or more |
| OfflineSync.RetainedSelectsKept | frontend/src/utils/offlineSync.js:64-85 | the stored queue after a pass is the original entries at the kept positions, unmodified and in original order |
| OfflineSync.PassAccountsForEveryEntry | frontend/src/utils/offlineSync.js:64-77 | successes + retained + discarded = the original length |
| OfflineSync.AllTransientKeepsQueue | frontend/src/utils/offlineSync.js:64-85 | if every request fails transiently, the queue is unchanged and nothing is counted |
| OfflineSync.AllOkDrainsQueue | frontend/src/utils/offlineSync.js:74-85 | if every request succeeds, the queue is emptied and every entry is counted |
| OfflineSync.PartialFailureScenario | frontend/src/utils/offlineSync.js:53-95 | with outcomes 200, network error, 201 the queue keeps only the middle entry and the count is 2 |
| OfflineSync.FindFirst | frontend/src/utils/offlineSync.js:123-132 | `find` returns the first matching position, or none when no voice matches |
| OfflineSync.PickVoice | frontend/src/utils/offlineSync.js:118-138 | no voice exactly when no voice's lang contains the code; otherwise the first preferred ("female"/"zira") voice if there is one, else the first voice of the language |
| Quiz.ScorePayload | frontend/src/pages/Quiz.jsx:65-73 | passed iff the score is at least 2; a pass earns exactly 10 points per correct answer and a fail earns 0, so at most 10 per question; the ids and counts are carried through |
| Quiz.QueuedOnlyWhenUndelivered | frontend/src/pages/Quiz.jsx:76-94 | offline: queued and not sent; online: sent, and queued exactly when the request throws, a response of any status being final |
| Quiz.QuizSession.ResultPassed | frontend/src/pages/Quiz.jsx:98 | the result screen's verdict agrees with the submitted payload's status |
| Quiz.QuizSession.SubmitScore | frontend/src/pages/Quiz.jsx:60-95 | the queue and the requests after submitting are those `SubmitEffects` gives, for the payload of the final score |
| Quiz.QuizSession.HandleAnswer | frontend/src/pages/Quiz.jsx:45-58 | the right answer adds one to the score and any other adds nothing; before the last question the next one is shown and nothing is sent; the last answer submits the final score (which includes it) and shows the result |
| FormSim.NextGate | frontend/src/pages/FormSim.jsx:44-60 | Next advances exactly when step 2 has a 12-character Aadhaar and step 3 an upload (other steps always); a rejection logs exactly on step 3 |
| FormSim.GateRules | frontend/src/pages/FormSim.jsx:44-60 | step 1 always advances; step 2 rejects a short Aadhaar with its message, and (the input holding at most 12) passing it means exactly 12 characters; step 3 rejects a missing upload with its message and logs |
| FormSim.FailureLog | frontend/src/pages/FormSim.jsx:24-41 | a log request is sent exactly when a user is stored and the token is present and not the guest token |
| FormSim.LogFailure | frontend/src/pages/FormSim.jsx:24-41 | the requests gain `FailureLog(user, token, action)` and nothing else |
| FormSim.FormWizard.EnterAadhaar | frontend/src/pages/FormSim.jsx:170-178 | the Aadhaar input keeps at most its first 12 characters |
| FormSim.FormWizard.TapUpload | frontend/src/pages/FormSim.jsx:210 | the upload is recorded |
| FormSim.FormWizard.HandleNext | frontend/src/pages/FormSim.jsx:44-60 | the error is cleared, then the step advances by one or stays with the gate's message; only a rejected upload logs; the wizard keeps "past step 2 ⇒ 12-character Aadhaar" and "step 4 ⇒ uploaded" |
| FormSim.FormWizard.SubmitForm | frontend/src/pages/FormSim.jsx:62-89 | 50 points for "sim_pm_kisan" are posted only with a non-guest token and a stored user; either path navigates to /services; the offline alert appears exactly when that token's request could not be made or threw |
| Simulation.PressDigit | frontend/src/pages/Simulation.jsx:186-202 | a digit is appended only while the PIN stays within 4, so the length never exceeds 4; the press that makes it exactly 4 schedules the success screen |
| Simulation.DropLast | frontend/src/pages/Simulation.jsx:209 | backspace removes the last character and leaves an empty PIN empty |
| Simulation.BackspaceUndoesDigit | frontend/src/pages/Simulation.jsx:186-209 | backspace undoes a kept digit |
| Simulation.PressAllKeepsFirstFour | frontend/src/pages/Simulation.jsx:186-202 | a run of presses leaves the first four digits typed |
| Simulation.CompleteAlert | frontend/src/pages/Simulation.jsx:29-38 | the success alert is shown exactly for a 2xx response, "Error saving progress" for any other response, "Could not connect to server" for a thrown error |
| Simulation.UpiSimulation.TapToScan | frontend/src/pages/Simulation.jsx:65 | step 1 → 2 |
| Simulation.UpiSimulation.TapQr | frontend/src/pages/Simulation.jsx:83 | step 2 → 3 |
| Simulation.UpiSimulation.Cancel | frontend/src/pages/Simulation.jsx:101 | step 2 → 1 |
| Simulation.UpiSimulation.EnterAmount | frontend/src/pages/Simulation.jsx:133 | the amount is the typed text |
| Simulation.UpiSimulation.ProceedToPay | frontend/src/pages/Simulation.jsx:142-143 | step 3 → 4 only with a non-empty amount |
| Simulation.UpiSimulation.PressKey | frontend/src/pages/Simulation.jsx:186-202 | the PIN becomes `PressDigit(pin, d)` and one timer is scheduled exactly when the PIN reaches four; the PIN stays within four digits |
| Simulation.UpiSimulation.Backspace | frontend/src/pages/Simulation.jsx:209 | the PIN loses its last digit |
| Simulation.UpiSimulation.FireTimer | frontend/src/pages/Simulation.jsx:189 | as written, a firing timer shows the success screen whatever the PIN now is |
| Simulation.UpiSimulation.FireTimerGuarded | frontend/src/pages/Simulation.jsx:189 | corrected timer: the success screen only with a four-digit PIN, which keeps `PaidWithFullPin` |
| Simulation.UpiSimulation.HandleComplete | frontend/src/pages/Simulation.jsx:11-39 | one progress request when the user can be read, the alert `CompleteAlert` gives, and navigation to "/" exactly on success |
| Simulation.ShortPinReachesSuccess | frontend/src/pages/Simulation.jsx:186-209 | four digits, then backspace, then the timer: success screen with a three-digit PIN |
| Simulation.ShortPinStaysOnKeypad | frontend/src/pages/Simulation.jsx:189 | with the guarded timer the same presses stay on the PIN pad |
| Onboarding.NextStep | frontend/src/components/OnboardingTutorial.jsx:141-147 | Next moves one card forward and stays on the last card, always within the eight cards |
| Onboarding.BackStep | frontend/src/components/OnboardingTutorial.jsx:149-153 | Back moves one card back and stays on the first |
| Onboarding.NextBackInverse | frontend/src/components/OnboardingTutorial.jsx:141-153 | Back undoes Next away from the last card; Next undoes Back away from the first |
| Onboarding.NextTimesSaturates | frontend/src/components/OnboardingTutorial.jsx:141-147 | k presses of Next move k cards, stopping at the last |
| Onboarding.NextLabel | frontend/src/components/OnboardingTutorial.jsx:287-297 | the main button reads "Start Learning" exactly on the last card |
| Onboarding.BackVisible | frontend/src/components/OnboardingTutorial.jsx:269 | Back is rendered exactly on the cards where it moves |
| Onboarding.ButtonsMatchBehaviour | frontend/src/components/OnboardingTutorial.jsx:269-297 | Back is rendered exactly where it moves; "Start Learning" appears exactly where Next completes instead of moving |
| Onboarding.Tutorial.HandleComplete | frontend/src/components/OnboardingTutorial.jsx:155-159 | `onboarding_completed` becomes "true"; `onComplete` is called once if provided, never otherwise |
| Onboarding.Tutorial.HandleNext | frontend/src/components/OnboardingTutorial.jsx:141-147 | before the last card, the step advances and nothing is stored; on the last card the step stays and the tutorial completes |
| Onboarding.Tutorial.HandleBack | frontend/src/components/OnboardingTutorial.jsx:149-153 | the step becomes `BackStep(step)` |
| Onboarding.Tutorial.ToggleAudio | frontend/src/components/OnboardingTutorial.jsx:161-168 | the audio flag flips |
| Profile.UserCertificates | frontend/src/pages/Profile.jsx:123-125 | no certificates for a missing badge list; otherwise at most one per badge, each with a design and tagged with its badge id |
| Profile.Certified | frontend/src/pages/Profile.jsx:124-125 | every certificate's id has a design, and it carries that design |
| Profile.CertifiedExactly | frontend/src/pages/Profile.jsx:124 | a badge id appears among the certificates iff the user has the badge and it has a design |
| Profile.CertifiedAppend | frontend/src/pages/Profile.jsx:123-125 | the certificates keep badge order |
| Profile.CertifiedAll | frontend/src/pages/Profile.jsx:124 | every badge gets a certificate iff every badge has a design |
| Profile.NextIndex | frontend/src/pages/Profile.jsx:129-131 | next stays in [0, n), moving one forward and wrapping from the last to 0 |
| Profile.PrevIndex | frontend/src/pages/Profile.jsx:133-137 | previous stays in [0, n): one less than the current index, wrapping from 0 to n - 1 |
| Profile.NextPrevInverse | frontend/src/pages/Profile.jsx:129-137 | previous after next, and next after previous, restore the index |
| Profile.NextTimesRotates | frontend/src/pages/Profile.jsx:129-131 | k ≤ n presses of next move k places with wrap-around; n presses return to the start |
| Profile.NextTimesModulo | frontend/src/pages/Profile.jsx:129-131 | any number k of presses of next lands on (i + k) mod n |
| Profile.ControlsVisible | frontend/src/pages/Profile.jsx:198 | the arrows are rendered exactly when pressing either one would move away from the first certificate |
| Profile.Carousel.NextCert | frontend/src/pages/Profile.jsx:129-131 | the index becomes `NextIndex(index, n)`, reachable only when the controls show (n > 1) |
| Profile.Carousel.PrevCert | frontend/src/pages/Profile.jsx:133-137 | the index becomes `PrevIndex(index, n)`, reachable only when the controls show (n > 1) |
| DigiLocker.Fetched | frontend/src/pages/DigiLockerSim.jsx:46 | a fetch appends exactly one document, "COVID Vaccine Cert", at the end and keeps the others in order |
| DigiLocker.FetchedTimesAppends | frontend/src/pages/DigiLockerSim.jsx:43-51 | k fetches append k copies after the existing documents, so the list is always the two initial documents followed by fetched ones |
| DigiLocker.SuccessLog | frontend/src/pages/DigiLockerSim.jsx:15-32 | the points request is sent exactly with a present, non-guest token and a readable user |
| DigiLocker.DigiLockerSim.constructor | frontend/src/pages/DigiLockerSim.jsx:7-12 | login step, empty OTP, the two initial documents |
| DigiLocker.DigiLockerSim.EnterOtp | frontend/src/pages/DigiLockerSim.jsx:85-92 | the OTP input keeps at most 4 characters |
| DigiLocker.DigiLockerSim.HandleLogin | frontend/src/pages/DigiLockerSim.jsx:34-41 | step 2 iff the OTP is exactly "1234"; otherwise the step stays and the wrong-OTP alert shows; the page keeps "past login ⇒ OTP is 1234" |
| DigiLocker.DigiLockerSim.AddNew | frontend/src/pages/DigiLockerSim.jsx:106 | step 2 → 3 |
| DigiLocker.DigiLockerSim.CancelSearch | frontend/src/pages/DigiLockerSim.jsx:167 | step 3 → 2 |
| DigiLocker.DigiLockerSim.HandleFetchDoc | frontend/src/pages/DigiLockerSim.jsx:43-51 | the fetch starts a timer that captures the current list |
| DigiLocker.DigiLockerSim.FireFetchTimer | frontend/src/pages/DigiLockerSim.jsx:45-50 | the list becomes the captured list plus the fetched document; the step is 2; the success is logged and announced |
| DigiLocker.DigiLockerSim.LogSuccess | frontend/src/pages/DigiLockerSim.jsx:15-32 | the requests gain `SuccessLog(user, token)` and nothing else |
| Mandi.PriceOf | frontend/src/pages/Mandi.jsx:77-78 | the price is that of the first entry for the crop, or 0 when no entry is for it |
| Mandi.OfferedCropPrices | frontend/src/pages/Mandi.jsx:28-61 | each crop in the sell form's select has exactly its listed price |
| Mandi.Earnings | frontend/src/pages/Mandi.jsx:75-80 | an empty quantity earns 0; otherwise the `parseInt` quantity times the price, NaN when the quantity has no leading number |
| Mandi.EarningsOfWholeQuantity | frontend/src/pages/Mandi.jsx:75-80 | a whole-number quantity earns quantity × price, which is 0 for a crop with no entry |
| Mandi.FilterCrop | frontend/src/pages/Mandi.jsx:66 | every entry kept has a crop name containing the filter text |
| Mandi.FilteredData | frontend/src/pages/Mandi.jsx:63-66 | "All" gives the full list; any other filter keeps only entries whose crop contains it |
| Mandi.FilterCropExactly | frontend/src/pages/Mandi.jsx:66 | an entry is kept iff it is listed and its crop contains the filter text |
| Mandi.FilterCropAppend | frontend/src/pages/Mandi.jsx:66 | the filter keeps list order |
| Mandi.MandiPage.SelectFilter | frontend/src/pages/Mandi.jsx:132 | the selected filter becomes the chip's crop |
| Mandi.MandiPage.ChooseCrop | frontend/src/pages/Mandi.jsx:209-211 | the sell form's crop becomes the chosen option |
| Mandi.MandiPage.EnterQuantity | frontend/src/pages/Mandi.jsx:232-234 | the sell form's quantity becomes the typed text |
| Mandi.MandiPage.GeneratePass | frontend/src/pages/Mandi.jsx:68-72 | the pass shows after a submit with a non-empty (required) quantity |
| Mandi.MandiPage.CreateNewPass | frontend/src/pages/Mandi.jsx:334 | the pass is hidden |
| App.Guard | frontend/src/App.jsx:26-34 | no token → /login whatever the role; a required role the user lacks → "/"; the children render exactly with a token and either no required role or a matching one |
| App.DropTrailingSlashes | frontend/src/App.jsx:136-201 | the result is the path's prefix that does not end in '/', and everything cut off is slashes |
| App.RouteScreen | frontend/src/App.jsx:136-201 | a location matching "/" sends to /dashboard when a token was stored at page load and shows Landing otherwise; /login is public; the other table paths go through the guard with the current token and user, /admin with role "admin"; any other location matches nothing |
| App.RoutingIgnoresTrailingSlash | frontend/src/App.jsx:136-201 | appending "/" to a location never changes its screen |
| App.RoutingIgnoresCase | frontend/src/App.jsx:136-201 | lower-casing a location never changes its screen |
| App.OnlyRootReadsLoadToken | frontend/src/App.jsx:138-148 | the token read at page load changes the screen of the root location only |
| App.RedirectsSettle | frontend/src/App.jsx:138-200 | redirects never loop: two hops from any location reach a shown screen; without a current token every guarded location ends on the login page; the root reaches Home only when a token was there at load and still is, and shows Landing when none was there at load, even after a later login |
| App.BottomNavShown | frontend/src/App.jsx:204 | the bottom navigation is rendered only when the sidebar is (a token at page load) and never on a location containing "/simulation" |
| App.BottomNavHiddenOnSimulation | frontend/src/App.jsx:98 | every location with "/simulation" anywhere in it hides the bottom navigation |
| App.BottomNavOnShortPaths | frontend/src/App.jsx:98 | on every location shorter than "/simulation" (every route path of the table but the UPI page) the bottom navigation shows exactly when a token was stored at page load |
| App.UpperCaseUpiPathKeepsBottomNav | frontend/src/App.jsx:98 | "/Simulation/upi" routes to the UPI page, where the case-sensitive check keeps the bottom navigation that "/simulation/upi" hides |
| App.Shell.constructor | frontend/src/App.jsx:127 | a page load keeps the token stored at that moment |
| App.Shell.Show | frontend/src/App.jsx:136-201 | the screen shown after the redirects is never a redirect; with no token at load the root is Landing, with a token at load and now it is Home |
| App.Shell.HandleLogout | frontend/src/App.jsx:42-46 | the token and the user are removed and the app navigates to /login, where the login page shows with the bottom navigation still rendered |
| App.LoginWithoutReload | frontend/src/pages/Login.jsx:32-39 | a login stores a token and navigates to "/", which still shows Landing without sidebar or bottom navigation; a reload then shows Home |
| Language.Translate | frontend/src/context/LanguageContext.jsx:31-33 | the current language's text for the key when it has one; the key itself otherwise; an error for a language with no table |
| Language.TablesAgree | frontend/src/context/LanguageContext.jsx:5-26 | "en" and "hi" define the same keys with non-empty texts, so a key falls back in one language iff in the other |
| Language.DefaultLookups | frontend/src/context/LanguageContext.jsx:29-33 | in the initial language "welcome" gives "Welcome" and an unknown key gives itself |
| Language.LanguageProvider.constructor | frontend/src/context/LanguageContext.jsx:29 | the initial language is "en" |
| Language.LanguageProvider.T | frontend/src/context/LanguageContext.jsx:31-33 | `t(key)` fails exactly for a language with no table, and otherwise gives the key or the language's text for it |
| Language.LanguageProvider.SetLang | frontend/src/context/LanguageContext.jsx:29 | the language becomes the one set |

## Left out

- Network, storage and browser APIs are not modelled as real systems. `fetch` is an
  `Outcome` parameter per request. `localStorage` and `navigator.onLine` are fields of
  `Device`. Alerts, navigations and the sync event are recorded in logs.
- JSON parsing and serialisation are not modelled. A queue entry that does not parse as an
  array is the single case `Unreadable`. The `user` entry is reduced to the fields read here:
  `id` and `role`.
- Ids and timestamps from `Date.now`, `Math.random` and `Date` are parameters. A failing
  `setItem` is the parameter `writeFails`.
- Concurrency is left out. Overlapping sync passes would race, and the source has no guard.
  A `saveOfflineAction` that runs while a sync pass awaits its requests is also lost: the
  pass read the queue before it (`offlineSync.js:39`) and overwrites it at the end
  (`offlineSync.js:85`).
- Speech playback (`speechSynthesis.speak`/`cancel`, utterance rate and pitch) is left out.
  Only the voice choice of `speak` in `offlineSync.js` is modelled. The tutorial's own Hindi
  voice search and its auto-play timer are not.
- Timers are not modelled as clocks. The UPI PIN pad's 300 ms timers are a count of pending
  timers. The DigiLocker fetch timers are a first-in, first-out list of captured document
  lists. Timers that fire after the page unmounts are not modelled.
- Floating-point display maths is left out: the tutorial progress bar and `toLocaleString`.
- JavaScript numbers are unbounded integers here. Values beyond 2^53 and arithmetic with
  non-integer results are not modelled. The market quantity is read by `parseInt`, so
  "12.5" counts as 12, as in the source.
- Js.ParseInt: reads decimal text only. The "0x" hexadecimal prefix is not modelled. Only
  space, tab, line feed and carriage return are skipped before the number. The vertical
  tab, form feed and the Unicode white space and line terminators that `parseInt` also
  skips are not. The market quantity comes from a `type="number"` input, which holds none
  of them.
- Js.ToLowerCase: lowers ASCII letters only, so voice names with other cased letters are
  not folded.
- Profile.UserCertificates: a badge id that names an inherited object property (such as
  "constructor") is not modelled. In the source `CERT_TYPES[badgeId]` would find one.
- Language.Translate: the same inherited-property lookups of `translations[lang][key]` are
  not modelled.
- The pages' back buttons and headers (`navigate(-1)`, `navigate("/")`) are not modelled.
  Neither are tab switches (the market page's rates/sell tabs), the form's unused `landId`
  and the market form's quality select, whose value is never read.
- The profile page's user fetch, certificate download and share, and its own
  `localStorage.clear()` logout are not part of this model.
- The tutorial's `isPlaying` flag follows speech events and is left out.
- Sidebar contents and active-link styling in `App.jsx` are presentation and left out. Only
  whether the sidebar is rendered is modelled.
- App.RouteScreen: location matching follows the router's default rules (letters in any
  case, any number of trailing slashes). Percent-encoded locations are not decoded first.
  Case is folded for ASCII letters only, which is exact here because every route path is
  ASCII.

## Findings

| source | as written | input that shows it | evidently intended | confidence | as-written member | corrected member |
|---|---|---|---|---|---|---|
| frontend/src/pages/Simulation.jsx:189 | The press that completes a four-digit PIN schedules `setStep(5)` after 300 ms, and the timer does not look at the PIN again. | Type four digits, then press backspace within 300 ms. The success screen appears with a three-digit PIN. | The success screen follows only a complete four-digit PIN. | medium, not executed | Simulation.ShortPinReachesSuccess | Simulation.UpiSimulation.FireTimerGuarded |
