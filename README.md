# Moon-block divination: a Dafny model

This project models the logic of a novelty web app. A worker types a workplace
complaint and shreds or burns it. They then throw a pair of moon blocks three times.
Each throw lands as SHENG (affirming), XIAO (laughing) or YIN (denying), and the
three throws decide a verdict: QUIT the job, STAY, or MAYBE (put it off). Each throw
gets a line of commentary, and the verdict comes as a five-field card. Both come from
a text-generation service when it answers, and from fixed text tables when it does not.

The model covers:

- **The counting rule and the card tables** (`Omens`). Two SHENG quit. Otherwise two
  YIN stay. Everything else is MAYBE. `Omens` also holds the per-throw text bank and
  the emergency card.
- **The three API routes**, each a pure function of three inputs: the request, the
  configured key and the abstract upstream outcome (`Http.Upstream`).
  - `FinalRoute`: POST /api/divination/final.
  - `DivinationRoute`: POST /api/divination, with its four-card fallback and its
    `throwResults` list.
  - `SingleRoute`: POST /api/divination/single.
- **The page's divination sequencer** (`Sequencer.Home`). This class has one field per
  React state variable. Its event methods are the click handlers and the timer and
  network callbacks. `PageScenarios` drives it through whole runs.
- **The earlier page** (`LegacyApp.App`). It blocks at the third throw and draws the
  verdict at random.
- **The clock-out countdown** (`Countdown`): the split of the time left before 18:00
  into hours, minutes and seconds, and its unpadded display. The same arithmetic
  appears inline in src/App.tsx:91-104, and the one `Countdown` model covers both.

Behaviours of the code that the model makes explicit:

- **All three throws the same.** The app's own prompt to the model says this case
  defers (app/api/divination/final/route.ts:36). The counting rule quits on three
  SHENG and stays on three YIN (`Omens.ThreeOfAKind`).
- **A fourth throw.** The page accepts a throw made in the 8-second pause after the
  third (`PageScenarios.FourthThrowInPause`).
- **Late answers after a reset.** The page's reset cancels nothing, so a late
  commentary answer still lands (`PageScenarios.LateNoteAfterReset`).
- **A non-2xx answer to a commentary request.** The page uses the body as it is; only
  an exception falls back to the text bank (`Sequencer.Home.NoteArrives`).
- **Unchecked upstream answers.** Both card routes forward the model's JSON as it is,
  and the page copies its verdict as it is: a wrong verdict is shown
  (`PageScenarios.ServerVerdictUnchecked`). A missing one leads to the result step with
  no verdict and no result section (`PageScenarios.ResultWithoutVerdict`). Any other
  non-empty string is kept, and the result section is drawn for a verdict outside the
  result table (`PageScenarios.UnknownVerdictDrawn`). Here "other" means a string
  other than QUIT, STAY and MAYBE.
- **Throw count.** The rule counts over a list of any length, not only three.

To verify the project, give Dafny all files together:

```
dafny verify --resource-limit 2000000 --verification-time-limit 0 --warn-contradictory-assumptions *.dfy
```

## Model

| member | source | states |
|---|---|---|
| `Omens.FallbackTable` | app/api/divination/final/route.ts:129-150 | each verdict's fallback card carries that verdict |
| `Omens.FallbackFinalCard` | app/api/divination/final/route.ts:118-160 | the fallback card's verdict is the counting rule's, and all five text fields come from that verdict's single table row (never mixed) |
| `Omens.CountIsMultiplicity` | app/api/divination/final/route.ts:119-120 | the `filter(...).length` count is the multiplicity of the name in the list |
| `Omens.ClassifyPermutationInvariant` | app/api/divination/final/route.ts:119-150 | lists with the same outcomes in any order get the same verdict |
| `Omens.CountsDisjoint` | app/api/divination/final/route.ts:119-120 | the counts of two different names add up to at most the list length |
| `Omens.RulesExclusiveForThree` | app/api/divination/final/route.ts:129-136 | with three results, "two SHENG" and "two YIN" never both hold |
| `Omens.ClassifyThreeThrows` | app/api/divination/final/route.ts:129-150 | all 27 three-throw sequences: QUIT iff at least two SHENG, STAY iff at least two YIN, MAYBE iff at least two XIAO or one of each |
| `Omens.ThreeOfAKind` | app/api/divination/final/route.ts:129-150 | three SHENG quit, three YIN stay, three XIAO defer, whatever the prompt text says |
| `Omens.UnknownNamesDefer` | app/api/divination/final/route.ts:143-150 | a list with no SHENG and no YIN (other strings included) is MAYBE |
| `Omens.Count` | app/api/divination/final/route.ts:119-120 | the `filter(r => r === name).length` count never exceeds the list length |
| `Omens.Classify` | app/api/divination/final/route.ts:119-150 | the counting rule (also app/page.tsx:247-278 and app/api/divination/route.ts:150-175): QUIT exactly at two or more SHENG, MAYBE exactly when neither SHENG nor YIN reaches two, and on up to three results STAY exactly at two or more YIN |
| `Omens.CountsDisjoint3` | app/api/divination/route.ts:150-152 | the counts of three different names add up to at most the list length |
| `Omens.TextBank` | app/api/divination/route.ts:193-212 | the bank has four lines for SHENG, YIN and XIAO and nothing for any other key |
| `Omens.CastText` | app/page.tsx:176-199 | the page's fallback line is an entry of the bank of the throw's outcome |
| `Http.Delivered` | app/api/divination/final/route.ts:64-95 | the upstream answer is usable only if it arrived: a transport error, an answer at or after the abort time, a non-2xx status or content that does not parse each rule it out |
| `Http.KeyConfigured` | app/api/divination/final/route.ts:12-13 | `!apiKey` holds for an unset key and for the empty string, and for nothing else |
| `FinalRoute.Post` | app/api/divination/final/route.ts:1-116 | 400 with `需要三次掷茭结果` exactly when the results are missing or not three; no key or any upstream failure (transport error, 10000 ms abort, non-2xx, bad content) gives the fallback card for the same results; a delivered upstream object is forwarded unchecked, verdict included; an unparseable body gives the emergency MAYBE card |
| `FinalRoute.NoKeyIgnoresUpstream` | app/api/divination/final/route.ts:12-15 | without a key the upstream outcome cannot affect the answer |
| `FinalRoute.EmptyKeyIsNoKey` | app/api/divination/final/route.ts:12-15 | an empty key gives exactly the answer a missing key gives |
| `FinalRoute.FallbackCardIsWhole` | app/api/divination/final/route.ts:100-104 | on every fallback path the card is one whole table row whose verdict is the counting rule's |
| `DivinationRoute.FallbackCard` | app/api/divination/route.ts:149-190 | the verdict equals the final route's rule for every list; one-of-each gets the `带薪如厕，精神离职` card, every other case the final route's card |
| `DivinationRoute.OneOfEach` | app/api/divination/route.ts:176 | the one-SHENG-one-YIN-one-XIAO test can only hold on three or more results |
| `DivinationRoute.OneOfEachThrows` | app/api/divination/route.ts:176 | on three throws the test holds exactly when the throws are all different |
| `DivinationRoute.FallbackResult` | app/api/divination/route.ts:149-232 | `generateFallbackResult` answers exactly when every result has a bank; then it returns the four-way fallback card, whose verdict is the counting rule's, with one line per result, in order, each from its own result's bank |
| `DivinationRoute.ThrowTexts` | app/api/divination/route.ts:214-221 | defined exactly when every result has a bank; then same length and order, entry i keeps result i and takes its text from that result's bank by the i-th draw |
| `DivinationRoute.Post` | app/api/divination/route.ts:1-146 | 400 for missing or non-three results; 500 `API Key 未配置` with no key; a delivered upstream object (card and optional per-throw lines) is forwarded unchecked; upstream failure (60000 ms abort, non-2xx, bad content) gives the fallback card with per-throw lines, or the emergency card when a result has no bank; unparseable body gives the emergency card |
| `DivinationRoute.EmptyKeyIsNoKey` | app/api/divination/route.ts:13-19 | an empty key gives exactly the answer a missing key gives |
| `DivinationRoute.RoutesAgreeOnVerdict` | app/api/divination/route.ts:150-190 | for every three-throw sequence the two routes' fallbacks give the same verdict, and their cards differ exactly when the throws are all different |
| `SingleRoute.FallbackText` | app/api/divination/single/route.ts:86-109 | a bank line of the result, and a XIAO line for any unrecognised result |
| `SingleRoute.Post` | app/api/divination/single/route.ts:1-84 | always 200; a delivered answer forwards only its `text`; no key or failure (5000 ms abort, non-2xx, bad content) gives a bank line; unparseable body gives `神灵显化中，请稍候...` |
| `SingleRoute.NoKeyIgnoresUpstream` | app/api/divination/single/route.ts:5-9 | without a key the upstream outcome cannot affect the answer |
| `SingleRoute.EmptyKeyIsNoKey` | app/api/divination/single/route.ts:5-9 | an empty key gives exactly the answer a missing key gives |
| `SingleRoute.FallbackMatchesPage` | app/api/divination/single/route.ts:107-108 | on the three real outcomes the route's fallback and the page's agree |
| `SingleRoute.FallbackIgnoresIndexAndComplaint` | app/api/divination/single/route.ts:5-9 | on the fallback path the answer does not depend on the throw index or the complaint |
| `PageBasics.BlankIffTrimsToEmpty` | app/page.tsx:32 | the blank test used by `addComplaint` holds exactly when removing ECMAScript `trim` whitespace leaves nothing |
| `PageBasics.MarkStatus` | app/page.tsx:55-57 | the status map keeps length, ids and texts, sets the new status on entries with the id and leaves the others alone |
| `Sequencer.WithNote` | app/page.tsx:146-156 | slot `index` holds the new line; every other slot and the card are as before (a null card data starts empty) |
| `Sequencer.WithCard` | app/page.tsx:218-226 | the served card, verdict or not, replaces the old one and the per-throw lines are kept |
| `Sequencer.Home.constructor` | app/page.tsx:14-29 | the initial value of every state variable |
| `Sequencer.Home.EditInput` | components/InputSection.tsx:54 | typing sets the input text |
| `Sequencer.Home.AddComplaint` | app/page.tsx:31-44 | blank input (ECMAScript `trim` whitespace) changes nothing; otherwise the one current complaint is the new PENDING item, it heads the history, the input is cleared and `isShredded` drops |
| `Sequencer.Home.StartDisposal` | app/page.tsx:46-74 | with no complaint nothing changes; otherwise the shredding or burning flag rises and the end is scheduled for the current complaint's id |
| `Sequencer.Home.FinishDisposal` | app/page.tsx:52-73 | the end of the animation drops its flag, sets `isShredded` and marks only history entries with the captured id SHREDDED or BURNT |
| `Sequencer.Home.StartDivination` | app/page.tsx:76-90 | no complaint installs the default one as destroyed and starts; an undestroyed complaint alerts and changes nothing; otherwise the divination step starts |
| `Sequencer.Home.ThrowBei` | app/page.tsx:92-99 | ignored while spinning or consulting, whatever the count; otherwise starts spinning |
| `Sequencer.Home.Settle` | app/page.tsx:100-122 | shows the outcome, adds one to the count, appends to the history, stops spinning, requests commentary for index count-1, and schedules finalisation over the three outcomes only when the count becomes 3 |
| `Sequencer.Home.Finalize` | app/page.tsx:114-120 | clears the shown throw, raises both busy flags and requests the card for the scheduled outcomes |
| `Sequencer.Home.NoteArrives` | app/page.tsx:126-173 | writes only slot `index` of `throwResults`; any parsed body is used as it is, and an exception takes a line from the outcome's bank |
| `Sequencer.Home.CardArrives` | app/page.tsx:202-302 | the server card and its verdict, possibly missing, are copied unchecked; an exception gives the fallback card and the counting rule's verdict for the requested outcomes; either way the result step is entered and both busy flags drop |
| `Sequencer.Home.Reset` | app/page.tsx:304-313 | input step, count 0, empty history, no shown throw, verdict, complaint or card data, `isShredded` false; busy flags and pending work untouched |
| `Sequencer.Home.ContinueComplaining` | app/page.tsx:315-324 | the same assignments as reset |
| `Sequencer.Home.ResetToInput` | app/page.tsx:326-330 | drops the current complaint, clears `isShredded` and the input |
| `PageScenarios.ThreeThrows` | app/page.tsx:92-122 | three throws from a fresh page record the history and schedule one finalisation over exactly those three |
| `PageScenarios.ShredAndBegin` | app/page.tsx:31-90 | entering, shredding and starting marks the history entry SHREDDED while the current complaint stays PENDING |
| `PageScenarios.ShredOnly` | app/page.tsx:46-58 | shredding the one complaint on the page and letting the animation end marks its history entry SHREDDED and sets `isShredded`, with nothing left pending |
| `PageScenarios.RuleOnQuitRun` | app/api/divination/final/route.ts:129-135 | SHENG, SHENG, XIAO gives the QUIT card |
| `PageScenarios.QuitOnFallback` | app/page.tsx:240-295 | complaint `老板画饼`, throws SHENG SHENG XIAO, failed final request: the result step shows QUIT with the whole QUIT fallback card |
| `PageScenarios.FourthThrowInPause` | app/page.tsx:93-121 | a throw in the 8 s pause is accepted (count 4), no second finalisation is scheduled, and the card request carries only the first three |
| `PageScenarios.LateNoteAfterReset` | app/page.tsx:304-313 | a commentary answer for a throw made before a reset still writes its slot afterwards |
| `PageScenarios.ServerVerdictUnchecked` | app/page.tsx:215-227 | a server card saying STAY for three SHENG is shown as STAY, although the rule says QUIT |
| `PageScenarios.ResultWithoutVerdict` | app/page.tsx:227-233 | a served card whose verdict is missing still enters the result step, with no verdict, both busy flags down and the result section not drawn |
| `PageScenarios.UnknownVerdictDrawn` | app/page.tsx:227-233 | a served card whose verdict is a non-empty string other than QUIT, STAY and MAYBE enters the result step with that string kept as the verdict, and the result section is drawn although the verdict is none of QUIT, STAY and MAYBE |
| `Sequencer.Home.ResultDrawn` | app/page.tsx:378 | the result section needs the result step and a present verdict; with a known verdict the result step alone decides |
| `PageScenarios.EnterComplaint` | app/page.tsx:31-44 | typing a non-blank text into an empty page and adding it makes it the one PENDING complaint and the whole history, with the input cleared |
| `LegacyApp.App.constructor` | src/App.tsx:118-129 | the initial value of every state variable |
| `LegacyApp.App.EditInput` | src/App.tsx:297 | typing sets the input text |
| `LegacyApp.App.AddComplaint` | src/App.tsx:132-145 | blank input changes nothing; otherwise `complaints` is the new PENDING item, it heads the history, the input is cleared and `isShredded` drops |
| `LegacyApp.App.StartDisposal` | src/App.tsx:149-177 | with no complaint nothing changes; otherwise the flag rises and the end is scheduled for the current complaint's id |
| `LegacyApp.App.FinishDisposal` | src/App.tsx:155-176 | only history entries with the captured id become SHREDDED or BURNT, and `isShredded` is set |
| `LegacyApp.App.StartDivination` | src/App.tsx:179-194 | default complaint when none, refusal for an undestroyed one, otherwise the divination step |
| `LegacyApp.App.ThrowBei` | src/App.tsx:196-198 | ignored while spinning or consulting |
| `LegacyApp.App.Settle` | src/App.tsx:205-214 | shows the outcome, adds one to the count, stops spinning, and consults exactly when the count becomes 3 |
| `LegacyApp.App.Reveal` | src/App.tsx:216-221 | the verdict and reply are the random draws, independent of the throws; result step, consulting over |
| `LegacyApp.App.Reset` | src/App.tsx:246-253 | input step, count 0, no shown throw, verdict or complaint, `isShredded` false |
| `LegacyApp.App.ContinueComplaining` | src/App.tsx:255-262 | the same assignments as reset |
| `LegacyApp.ThirdThrowBlocks` | src/App.tsx:196-214 | after the third throw settles, another throw request is ignored |
| `LegacyApp.VerdictIgnoresThrows` | src/App.tsx:216-219 | any verdict can follow any three throws |
| `Countdown.Split` | components/ClockOutCountdown.tsx:18-21 | minutes and seconds are below 60, and h·3600000 + m·60000 + s·1000 ≤ diff < that + 1000 |
| `Countdown.SplitRecombines` | components/ClockOutCountdown.tsx:19-21 | the floor divisions recombine to the difference within one second |
| `Countdown.ReadingAt` | components/ClockOutCountdown.tsx:11-21 | off duty exactly when strictly after 18:00:00.000; otherwise the split of the non-negative difference, with hours ≤ 18 and 18 only at midnight |
| `Countdown.Decimal` | components/ClockOutCountdown.tsx:22 | non-empty, digits only, no leading zero |
| `Countdown.DecimalRoundTrip` | components/ClockOutCountdown.tsx:22 | reading the digits back gives the number |
| `Countdown.DecimalInjective` | components/ClockOutCountdown.tsx:22 | different numbers print differently |
| `Countdown.AtClockOut` | components/ClockOutCountdown.tsx:15-22 | at exactly 18:00 the display is `0时0分0秒` |
| `Countdown.Display` | components/ClockOutCountdown.tsx:15-22 | the shown text is never empty; it starts with a non-digit exactly for the off-work line, and with a digit for every countdown |
| `Countdown.DigitChar` | components/ClockOutCountdown.tsx:22 | each digit character is a digit that reads back as its value |
| `Countdown.DisplayDeterminesReading` | components/ClockOutCountdown.tsx:15-22 | equal displays mean equal readings: the off-work line differs from every countdown, and the unpadded `${h}时${m}分${s}秒` display determines the hours, minutes and seconds |
| `Countdown.ClockOutCountdown.constructor` | components/ClockOutCountdown.tsx:7 | the display starts empty |
| `Countdown.ClockOutCountdown.Tick` | components/ClockOutCountdown.tsx:10-24 | the tick writes the display of the reading at the current time |

## Left out

- **Transport.** HTTP `fetch`, `AbortController` timers, `process.env`, prompt
  construction and logging are not modelled. Each upstream call is one abstract
  outcome: a transport error, or an answer with its elapsed time, status and
  parsed content.
- **Upstream JSON shape.** A forwarded card's `finalResult` may be missing or any
  string, and the main route's `throwResults` may be missing. A non-string
  `finalResult` (a number, say) is not modelled. The five text fields and each per-throw
  entry are still taken to be present strings. The single route's `text` may be missing.
  A missing text field (an `undefined` title or interpretation) is not modelled.
- **Request shape.** A `divinationResults` that is not an array (a three-letter
  string, say) is not modelled. A missing value and an array are.
- **Bank keys from `Object.prototype`.** Result strings such as `toString` or
  `__proto__` look up inherited properties in the JavaScript bank. The model treats
  every string other than SHENG, YIN and XIAO as absent from the bank.
- **Randomness.** `Math.random` draws are parameters: `Pick` (0 to 3) for bank lines
  and replies, an index for the legacy verdict, and the outcome passed to `Settle`.
  Complaint ids, timestamps and tilt angles are not modelled.
- **Timers as events.** The 800 ms, 8 s, 1.5 s, 4.5 s and 5 s delays are not modelled
  as durations. Each callback is an event method, and pending work sits in queues.
  The model does not constrain which pending answer arrives first.
- **Stale closures.** React's stale closures are not modelled. `Settle` reads the
  current count and history, not the values captured at click time. The shredding
  and burning callbacks do keep the complaint id captured when they were scheduled.
- **In-place array sharing.** The page's `{ ...prev }` copies shallowly, so the
  `throwResults` array is shared and assigned in place. The model writes a value map
  instead. This matches the state React ends up with, but not the aliasing.
- **Rendering with an unknown verdict.** When the result section is drawn for a
  verdict outside QUIT, STAY and MAYBE, components/ResultSection.tsx:52 reads an entry
  of the result table that does not exist and fails. The model shows that this state
  is reached (`PageScenarios.UnknownVerdictDrawn`) but does not model the failure.
- **Presentation.** Rendering, motion, confetti, vibration, image download and the
  `RESULTS` display table are not modelled. The alert text is not modelled either;
  `StartDivination` returns only whether it alerted.
- **Clock.** `new Date()` is not modelled. The countdown takes milliseconds since
  local midnight (below 24 h), so days with a daylight-saving shift are not covered.
- **Unmodelled files.** The configuration and layout files (`tailwind.config.ts`,
  `app/layout.tsx`, `components/RetroButton.tsx`) are not part of this model.
