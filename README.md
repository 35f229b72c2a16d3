# Verified model of the site's interactive components

This project models, in Dafny, the four interactive pieces of the
Canada Ordnance Safety single-page site that carry logic of their own:

- **Header** (`header.dfy`, module `SiteHeader`). The scroll handler decides
  three things: whether the header counts as scrolled, which navigation
  section is active, and whether the dark theme applies. A navigation click
  closes the mobile menu. Rendering chooses the header background by
  precedence and highlights the link of the active section.
- **Contact form** (`contact.dfy`, module `Contact`). It covers:
  - field edits;
  - the CAPTCHA widget poller and its cleanup;
  - the submit handler, with its missing-token guard, its success path and
    its three failure paths;
  - the 6-second reset;
  - the submitted/submitting render switches.
- **Page loader** (`loader.dfy`, module `Loader`). A simulated progress
  interval is capped at 90. A completion interval runs after the load event,
  adding 2 per tick and snapping to 100. Two timers fade the overlay out and
  then hide it. The phase label and the security badge are chosen from the
  progress.
- **Storage process flow** (`storage.dfy`, module `StorageProcess`). A step
  counter advances modulo 4. The counter decides which circles are filled,
  which connectors are filled, and which step pulses. Each step has a
  two-digit label.

`common.dfy` holds the `Option` type.

Components whose fields change in place (`Header`, `ContactForm`,
`PageLoader`, `StepIndicator`) are classes. Their event handlers are methods
with `modifies` clauses, and each class keeps a `Valid()` invariant. Render
logic and timer step functions are pure functions, and lemmas prove their
properties.

Every timer, interval and browser event is a method call, so any
interleaving of firings can be expressed:
- `window.scrollY` and the sections' bounding-rectangle tops are parameters;
- so are the `fetch` outcome, whether the widget script is loaded, the ids
  its `render` returns, and `Math.random() * 15`.

Calls to the outside world are recorded in fields of the `ContactForm`
class. Alerts, request bodies, widget removals and widget resets are each
kept in order, in a field of their own; widget renders are only counted. The
relative order of calls of different kinds (an alert and a request, say) is
not kept.

Behaviours of the code that the proofs make explicit:
- **Header.** When the page is scrolled past the hero and no section has
  crossed the activation line, no setter runs. The active section and the
  dark flag keep their previous values; they are not cleared.
- **Contact.** `widgetIdRef.current` is set to `null` just before the guarded
  `turnstile.reset`, so that call never happens. `ContactForm.Valid` keeps
  `resetWidgets == []` as an invariant.
- **Contact: the poller after success.** The widget effect depends only on
  `turnstileElId` and `turnstileKey`, so its 300 ms poller keeps running
  through the 6-second confirmation. The id is now null, so each tick with the
  script loaded calls `render` again, into a container that is no longer in
  the page; when `render` yields no id, this repeats on every tick. The first
  widget's id is lost, so the remount's cleanup never removes that widget.
  `ConfirmationPolling` shows `n` ticks making `n` extra renders and the
  cleanup removing nothing.
- **Contact.** On every failure path the form keeps its fields and also keeps
  the CAPTCHA token. The code never clears the token on failure, so the same token is
  sent again on retry.
- **Loader: independent intervals.** The simulation interval and the
  completion interval run independently. Suppose the completion interval has
  reached 100 and stopped while the simulation is still below 90. The next
  simulation tick then sets `progress` back to the simulated value, and the
  completion interval never restarts. With the real periods (200 ms and
  30 ms) this happens when the completion interval stops while the simulated
  total lies in [88, 90). `CompletionUndoneBySimulation` is such a run, timed
  event by event: progress climbs from 88 to 100, the interval stops, and the
  next simulation tick shows 89 with the label back at "Preparing Interface".
  `PageLoader.Dispatch` proves that this state, once reached, persists under
  every event, so the loader fades out below 100.
- **Loader: transient 101 %.** When the completion interval climbs from an
  odd value and no simulation tick resets `progress` during the climb, it
  passes through 101 for one tick before snapping to 100 (`CompletionClimbs`
  describes such an undisturbed climb). No phase label is rendered at that
  moment. While the simulation still runs it overwrites `progress` every
  200 ms, so an odd start can be replaced by an even one; with the real
  periods (six or seven 30 ms ticks between two simulation ticks) 101 shows
  only when the last simulation tick leaves 87 or 89.
- **Loader: timed fade.** The fade runs on a fixed 500 ms timer after
  `handleLoad`, whatever the progress.

## Model

| member | source | states |
|---|---|---|
| SiteHeader.RemoveFirstHash | components/header.tsx:49 | `replace("#", "")`: a string with no `#` is unchanged; otherwise the result is one character shorter, and a leading `#` is exactly dropped |
| SiteHeader.Reverse | components/header.tsx:50 | `sections.reverse()`: same length, element `i` is element `n-1-i` of the input |
| SiteHeader.ScanSections | components/header.tsx:50-61 | the `for`/`break` scan returns, when it returns an id, one of the candidates whose element exists and whose top is at most 150 |
| SiteHeader.ScanFindsFirstReached | components/header.tsx:50-61 | the scan returns `x` if and only if `x` is the reached candidate with no reached candidate before it |
| SiteHeader.ScanFindsNothing | components/header.tsx:50-61 | the scan returns nothing if and only if no candidate is reached |
| SiteHeader.ActiveIsLastReached | components/header.tsx:49-61 | scanning the reversed list picks `x` if and only if `x` is the last reached id in navigation order (the lowest section that has crossed the line) |
| SiteHeader.NavSectionIds | components/header.tsx:10-17 | `SectionIds`, the handler's `map` of the hrefs without `#`, gives for the six navigation entries "about", "challenge", "storage-safety", "transportation", "periodic-monitoring", "system" |
| SiteHeader.NavSectionIdsDistinct | components/header.tsx:10-17 | no two navigation entries lead to the same section, and none leads to the empty id |
| SiteHeader.DarkSectionsAreNavigable | components/header.tsx:19-20 | every section in `darkHeaderSections` is one of the navigation ids, so `IsDarkSection` (`includes`) can hold of an activated section |
| SiteHeader.AssessmentSectionsAreLight | components/header.tsx:19-20 | "storage-safety" and "periodic-monitoring" are not in `darkHeaderSections`, so activating them gives the light header |
| SiteHeader.IsDarkSection | components/header.tsx:57 | no contract of its own: `darkHeaderSections.includes(id)`; the two lemmas above state which ids it accepts |
| SiteHeader.Reached | components/header.tsx:51-54 | no contract of its own: the element exists and its top is at most 150; ScanFindsFirstReached and ScanFindsNothing state the scan in its terms |
| SiteHeader.Examined | components/header.tsx:50-59 | no contract of its own: the ids the loop looks up before its `break`; ScanAndActivate's ensures ties the loop's lookups to it |
| SiteHeader.HighlightedLinkIsUnique | components/header.tsx:129-143 | of the links `HighlightedLinks` renders active (those whose href without `#` equals `activeSection`), at most one exists; none while `activeSection` is ""; exactly one if and only if it is a navigation id |
| SiteHeader.HeaderBackground | components/header.tsx:95-101 | dark background exactly when the header is dark; translucent white exactly when not dark and scrolled; plain white otherwise |
| SiteHeader.Header.constructor | components/header.tsx:23-26 | mounts not scrolled, menu closed, no active section, light theme |
| SiteHeader.Header.HandleScroll | components/header.tsx:33-61 | `isScrolled` is `scrollY > 20`; below 100 px the active section is cleared and the theme is light, with no lookup; otherwise the scan decides both; if the scan finds nothing, both fields keep their old values; the menu is untouched; the active section stays "" or a navigation id |
| SiteHeader.Header.ActivateReachedSection | components/header.tsx:49-61 | the loop looks up exactly the ids the scan examines, stops at the first reached one, and sets the active section and `darkHeaderSections.includes(id)`; it changes nothing when nothing is reached |
| SiteHeader.Header.ScanAndActivate | components/header.tsx:50-61 | the `for`/`break` loop over any candidate list meets the scan function: the ids looked up, the section activated and its theme |
| SiteHeader.Header.HandleNavClick | components/header.tsx:78-80 | a navigation click closes the mobile menu and changes nothing else |
| SiteHeader.Header.ToggleMobileMenu | components/header.tsx:172 | the menu button flips `mobileMenuOpen` and changes nothing else |
| Contact.WithField | components/contact-section.tsx:161-166 | `handleChange` sets the edited field to the new value and leaves the other three as they were |
| Contact.LookupFindsFirst | components/contact-section.tsx:125 | `Lookup` is the model's own reader of a body, used on bodies whose keys are distinct: it returns the value at the position holding the key |
| Contact.RequestBody | components/contact-section.tsx:125 | the request body has five entries; each field's key maps to that field's value and `turnstile_token` maps to the token |
| Contact.RequestRoundTrip | components/contact-section.tsx:125 | reading the body back yields exactly the form data and the token that were sent |
| Contact.ParseRequest | components/contact-section.tsx:125 | no contract of its own: reads the five keys back; RequestRoundTrip states that it inverts the body built on submit |
| Contact.ThrownMessage | components/contact-section.tsx:128-131 | the thrown message is the reply's `error` when that is non-empty, and "Submission failed" otherwise (also when the body does not parse) |
| Contact.AlertText | components/contact-section.tsx:152-153 | the alert is the error's message when non-empty, and exactly the fixed "Unable to submit. Please try again." text when the message is empty; never empty |
| Contact.Judge | components/contact-section.tsx:121-153 | accepted if and only if the HTTP status is ok and the body parses with a truthy `ok`; every rejection carries a non-empty alert; an unparsable body alerts "Submission failed"; a network failure alerts its message |
| Contact.GuardedWidgetCall | components/contact-section.tsx:103 | a guarded widget call happens, with the held id, exactly when the script is loaded and the id is truthy |
| Contact.HoldsWidget | components/contact-section.tsx:83 | no contract of its own: the truthiness of `widgetIdRef.current` (null and "" are falsy); GuardedWidgetCall's and PollWidget's ensures are stated with it |
| Contact.View | components/contact-section.tsx:268-386 | the confirmation shows exactly when submitted; otherwise the button is disabled and reads "Sending..." exactly while submitting (`ContactForm.CurrentView` applies it to the component's flags) |
| Contact.ContactForm.constructor | components/contact-section.tsx:21-34 | mounts idle with empty fields, no token, no widget, key 0 and nothing sent |
| Contact.ContactForm.WouldRender | components/contact-section.tsx:79-83 | no contract of its own: the three early returns of `render` all pass; PollWidget's ensures state that a render happens exactly when it holds |
| Contact.ContactForm.PollWidget | components/contact-section.tsx:78-92 | `render` renders once and keeps the returned id when the effect is live, the script is loaded and no id is held; otherwise nothing changes |
| Contact.ContactForm.StartWidgetEffect | components/contact-section.tsx:74-95 | starting the effect makes the poller live and runs `render` once at once |
| Contact.ContactForm.StopWidgetEffect | components/contact-section.tsx:97-107 | cleanup stops the poller, removes the held widget only when the script is loaded and an id is held, and always forgets the id |
| Contact.ContactForm.OnVerified | components/contact-section.tsx:88 | the widget's success callback stores the token |
| Contact.ContactForm.OnExpiredOrError | components/contact-section.tsx:89-90 | the expired and error callbacks clear the token |
| Contact.ContactForm.HandleChange | components/contact-section.tsx:161-166 | the edit updates exactly the named field |
| Contact.ContactForm.BeginSubmit | components/contact-section.tsx:111-126 | with no token: one alert and no request, nothing else changes; with a token: `isSubmitting` and exactly one request carrying the current fields and token |
| Contact.ContactForm.FinishSubmit | components/contact-section.tsx:128-156 | on acceptance: submitted, token cleared, widget id null, one reset pending, no alert, and no widget reset; on rejection: one alert and the fields, token, widget and flags unchanged; in both cases `isSubmitting` ends false |
| Contact.ContactForm.ResetTimerFires | components/contact-section.tsx:143-150 | the 6 s callback shows the form again, empties the fields, clears the token and bumps `turnstileKey` by one |
| Contact.UnverifiedSubmission | components/contact-section.tsx:111-117 | submitting any fields without a token gives exactly one "Please complete the verification" alert and no request, and keeps the form and its fields |
| Contact.VerifiedSubmission | components/contact-section.tsx:111-150 | for any typed fields and any token, a verified, accepted submission sends exactly those fields and the token, then shows the confirmation with the fields kept, the token cleared and one reset pending |
| Contact.AcceptedWithWidget | components/contact-section.tsx:74-150 | after one render and an accepted submission, the confirmation shows with one widget rendered and none reset |
| Contact.ResetAfterConfirmation | components/contact-section.tsx:74-150 | with no poll tick during the 6 s, after the reset and the remount under key 1, the empty form shows with an enabled "Send Message" button and a second widget rendered; no reset was ever issued |
| Contact.RejectedSubmission | components/contact-section.tsx:111-156 | a rejected submission alerts exactly the verdict's message and keeps the fields and the token; the form shows again with an enabled button |
| Contact.ConfirmationPolling | components/contact-section.tsx:74-150 | after an accepted reply the poller keeps running: `n` poll ticks whose `render` yields no id make `n` more renders while the confirmation shows, and the remount's cleanup removes nothing; no reset is issued |
| Loader.SimulationStep | components/page-loader.tsx:17-21 | one tick lands exactly on 90 when the sum reaches 90, and otherwise is exactly the old total plus the increment; from a total at most 90 with a non-negative increment it never decreases and never exceeds 90 |
| Loader.CompletionTick | components/page-loader.tsx:28-34 | the updater keeps the interval running exactly while the previous value is below 100, and never lifts the value above 101 |
| Loader.CompletionRun | components/page-loader.tsx:27-35 | no contract of its own: the ticks of one completion interval; CompletionClimbs, CompletionSettles and CompletionBounded state its course |
| Loader.SimulationIsCappedSum | components/page-loader.tsx:13-23 | the simulated total is the sum of the random increments, capped at 90 |
| Loader.SimulationIsMonotone | components/page-loader.tsx:16-23 | the simulated total and the displayed floor never decrease from tick to tick and never exceed 90 |
| Loader.SimulationStopsAtCap | components/page-loader.tsx:18-21 | the interval is cleared, with the total at 90, exactly when the increments sum to 90 or more |
| Loader.CompletionClimbs | components/page-loader.tsx:27-35 | until 100 is reached or passed, every completion tick adds 2 and the interval runs on |
| Loader.CompletionSettles | components/page-loader.tsx:27-35 | from any start at most 100, the completion interval ends at exactly 100 and stops |
| Loader.CompletionBounded | components/page-loader.tsx:27-35 | the completion progress never falls below its start nor rises above 101, and a stopped interval shows 100 |
| Loader.PhaseLabels | components/page-loader.tsx:213-217 | exactly one phase label for progress in 0..100, none above 100, and "Complete" exactly at 100 |
| Loader.Badge | components/page-loader.tsx:228 | "Establishing Secure Connection" exactly below 100, "Connection Secure" from 100 |
| Loader.PageLoader.constructor | components/page-loader.tsx:7-50 | mounts visible at 0 % with the simulation running; `handleLoad` runs at once when the document is complete, otherwise the load listener waits |
| Loader.PageLoader.View | components/page-loader.tsx:58-228 | nothing is rendered once loading ends; otherwise the overlay shows the progress, its phase label, its badge and the fade flag |
| Loader.PageLoader.SimulationTick | components/page-loader.tsx:16-23 | a tick adds the increment, clamps at 90 and stops there, never decreases the running total, and shows its floor |
| Loader.PageLoader.HandleLoad | components/page-loader.tsx:25-44 | `handleLoad` starts the completion interval and the 500 ms fade timer |
| Loader.PageLoader.WindowLoad | components/page-loader.tsx:46-50 | the load event is consumed once and runs `handleLoad` |
| Loader.PageLoader.CompletionTickFires | components/page-loader.tsx:27-35 | a completion tick applies the updater to the current progress and stops the interval at or above 100 |
| Loader.PageLoader.FadeTimerFires | components/page-loader.tsx:38-42 | the 500 ms timer starts the fade and sets the 800 ms timer |
| Loader.PageLoader.HideTimerFires | components/page-loader.tsx:40-42 | the 800 ms timer ends loading, after the fade, and the component renders nothing |
| Loader.PageLoader.Dispatch | components/page-loader.tsx:11-56 | under any timer or event, the invariant holds, a hidden loader stays hidden, and a stopped completion stays lost |
| Loader.CompletionUndoneBySimulation | components/page-loader.tsx:13-50 | in a run timed by the real periods (load at 1185 ms), completion climbs from 88 to 100 and stops, and the next simulation tick shows 89 with "Preparing Interface"; the completion interval is not running afterwards |
| StorageProcess.NextStep | components/storage-section.tsx:108-110 | the tick stays in 0..3, advances by one, and wraps from 3 to 0 |
| StorageProcess.StepAfterIsOffset | components/storage-section.tsx:107-112 | after `n` ticks the counter is `(start + n) mod 4` |
| StorageProcess.FourTicksReturn | components/storage-section.tsx:109 | four ticks bring the counter back to where it was |
| StorageProcess.EveryStepVisited | components/storage-section.tsx:108-114 | the modulus equals the number of steps, and every step is reached from every other within four ticks |
| StorageProcess.StepCircles | components/storage-section.tsx:287-292 | one circle per step; which are filled (`i <= activeStep`) is stated by FilledCirclesArePrefix |
| StorageProcess.Connectors | components/storage-section.tsx:297-303 | one connector fewer than steps; which are filled (`i < activeStep`) is stated by ConnectorJoinsFilledCircles |
| StorageProcess.Highlighted | components/storage-section.tsx:295-345 | one mark per step; that exactly the active step is marked is stated by ExactlyOneHighlighted |
| StorageProcess.FilledCirclesArePrefix | components/storage-section.tsx:285-292 | the red circles are exactly the first `activeStep + 1` |
| StorageProcess.ConnectorJoinsFilledCircles | components/storage-section.tsx:297-303 | the three connectors follow steps 0..2, and connector `i` is filled exactly when circles `i` and `i+1` both are |
| StorageProcess.ExactlyOneHighlighted | components/storage-section.tsx:295-322 | the active step, and only it, carries the pulse ring and the highlighted card |
| StorageProcess.PadStart | components/storage-section.tsx:294 | `padStart` keeps the string as its suffix, fills the rest with the fill character, and has the larger of the two lengths |
| StorageProcess.DecimalString | components/storage-section.tsx:294 | `String(n)` is non-empty and all decimal digits; DecimalRoundTrip states that it reads back as `n` |
| StorageProcess.StepLabel | components/storage-section.tsx:294 | no contract of its own: `String(i + 1).padStart(2, "0")`; StepLabelReadsBack, SingleDigitLabel and ProcessStepLabels state its values |
| StorageProcess.DecimalRoundTrip | components/storage-section.tsx:294 | the decimal text of a number reads back as that number |
| StorageProcess.LeadingZerosIgnored | components/storage-section.tsx:294 | padding with leading zeros does not change the value read back |
| StorageProcess.StepLabelReadsBack | components/storage-section.tsx:294 | every step label has at least two characters and reads back as its step number, so the labels are distinct |
| StorageProcess.SingleDigitLabel | components/storage-section.tsx:294 | steps 1 to 9 get one leading zero |
| StorageProcess.ProcessStepLabels | components/storage-section.tsx:285-294 | the four steps are labelled "01", "02", "03", "04" |
| StorageProcess.StepIndicator.constructor | components/storage-section.tsx:12 | the counter starts at step 0 |
| StorageProcess.StepIndicator.Tick | components/storage-section.tsx:107-111 | the 3 s tick keeps the counter in 0..3 and applies the modulo-4 step |
| StorageProcess.TicksFromMount | components/storage-section.tsx:107-111 | from mount, the step shown after `n` ticks is `n mod 4`, and four more ticks return to it |

## Left out

- The scroll-progress bar width, the GSAP entrance animations, the logo filters, the text colours and the other decorative classes are left out. They feed nothing back into the state.
- `handleNavClick`'s smooth scroll to the target is left out. It only moves the window, and the next scroll event is modelled by `HandleScroll` with the new inputs.
- Scroll events, the CAPTCHA widget, `fetch`, `alert`, and the `setInterval`/`setTimeout` scheduler are browser services. Each becomes a method call or a parameter, and real timing is not modelled. Any order of firings can be expressed, including orders the real delays make unlikely.
- React's batching of state updates within one handler is not modelled. Each handler's net effect is applied at once.
- `turnstileElId` (from `useId`) is left out. It is constant for the component's lifetime, so the widget effect restarts only when `turnstileKey` changes.
- The `try`/`catch` blocks around widget removal and reset are left out. The calls are recorded as made, and exceptions thrown by the widget script are not modelled.
- Contact.ContactForm.BeginSubmit: requires the form to be showing (not submitted) with an enabled button (not submitting). In the source these conditions hold because the form element is only rendered, and its button only enabled, in that state; the handler itself checks nothing.
- The browser's `required`-field validation, which blocks the submit event before `handleSubmit` runs, is not modelled. The model starts at the submit event.
- Contact.ParseRequest: reads a body back only for the round-trip property. JSON text encoding (`JSON.stringify`) is not modelled; a body is its ordered key/value list.
- The PHP endpoint behind `/cos/api/contact.php` is not part of this model. Its reply is the `FetchOutcome` parameter, with `ok` reduced to its truthiness and `error` to its string ("" when absent or falsy).
- Loader.PageLoader.SimulationTick: `Math.random()` is the `increment` parameter, and floating-point rounding is not modelled (real arithmetic).
- The loader's skeleton, ring, mask and bar widths are decorative functions of `progress` and are left out.
- The storage section's card contents and the animation of the connectors are left out. Only the predicates that depend on `activeStep` are modelled.
