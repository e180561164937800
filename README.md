# DashboardPro state model

This project models the in-memory state logic of `DashboardPro`, the single controller
object of a client-side dashboard page. The object owns mock slices of page state:
analytics, revenue, team progress, system status, an activity feed, the settings and
theme, the modals on the page, toasts, and one drag closure per draggable widget.
Six interval timers and a set of event handlers change these slices in place.

In the model, each timer callback and each handler is a method of the Dafny class
`Dashboard.DashboardPro`. The two closures with mutable state are classes of their own:
`Install.InstallJob` holds the install progress counter, and `Drag.DragState` holds the
drag state of one widget. Randomness, the clock and timer firings work as follows:

- each `Math.random()` result is a `real` parameter r with `0.0 <= r < 1.0`;
- `Math.floor(r * n)` is `Draws.RandomInt`, whose exact range is proved;
- `Date.now()` is the parameter `now`;
- a timer firing is a method call.

With that, every transition is deterministic. Its contract states the new state.

Pure modules hold the value-level parts:

- `Numerals`: the JavaScript `${n}` for integers, `parseInt` without a radix, and
  `includes`, with a proved round trip between printing and parsing an integer;
- `Refresh`: the state-slice datatypes and the values each refresh tick draws;
- `Feed`: activity entries, the five-entry newest-first feed, and timestamp aging;
- `Format`: which form `formatNumber` chooses;
- `Modals`: the modals on the page and their removal;
- `Install`: the install step texts;
- `Drag`: the drag state machine as values (`DragView`).

`Scenarios` drives a freshly constructed dashboard through fixed sequences and states
the values they end with. Examples: an analytics tick from the seed, opening and closing
modals twice, and a full five-tick install.

Notes on what the code does:

- createModal appends a new modal and only overwrites the `currentModal` reference.
  A modal opened earlier stays on the page after closeModal
  (`Scenarios.SecondModalLeavesFirstOpen`).
- After an addition the feed holds min(old length + 1, 5) entries: a feed shorter than
  five grows by one, and a full one keeps its five newest.
- The delayed close at the end of an install closes whichever modal is current at that
  moment. If another modal was opened meanwhile, that one is closed and the install modal
  stays (`Scenarios.InstallCloseHitsCurrentModal`).
- The install text after tick k is `installSteps[k-1]`. The sixth text,
  'Installation complete!', is never shown.
- The API status resampler only yields online or warning, never offline.
- Page views have no floor.

## Model

| member | source | states |
|---|---|---|
| Numerals.NatToString | main.js:588 | the decimal digits of a natural number: non-empty, all digits, no leading zero unless the number is 0 |
| Numerals.IntToString | main.js:588 | `${n}` for an integer: a leading '-' exactly when n is negative, followed by the digits of abs(n) |
| Numerals.DigitValue | main.js:587 | a character's digit value, below 10 exactly for '0'..'9' |
| Numerals.DigitChar | main.js:588 | the character of a decimal digit d is a decimal digit whose value is d |
| Numerals.LeadingDigits | main.js:587 | the digit run parseInt reads: a prefix of the text, all digits of the radix, stopped at the first non-digit |
| Numerals.TrimStart | main.js:587 | parseInt's skipping of leading white space: a suffix of the text that does not start with white space, and everything dropped before it is white space |
| Numerals.ParseMagnitude | main.js:587 | parseInt after the sign: no digit at the start is NaN; a leading decimal digit without a '0x'/'0X' prefix always gives a number; '0x' not followed by a hexadecimal digit is NaN |
| Numerals.ParseInt | main.js:587 | parseInt with no radix: the empty text is NaN; text whose first character is not white space, a sign or a digit is NaN; a negative result only when the text contains '-'; the round trip with `${n}` is ParseIntOfIntToString |
| Numerals.Contains | main.js:586 | `includes`: true exactly when sub occurs in the text at some position |
| Numerals.NatToStringValue | main.js:587-588 | the digits written for n have the value n |
| Numerals.LeadingDigitsOfRun | main.js:587 | a digit run followed by a non-digit is read exactly |
| Numerals.ParseMagnitudeOfDigits | main.js:587 | after the sign, the digits of m followed by non-digit text read back as m |
| Numerals.ParseIntOfNegative | main.js:587 | `${n}` of a negative n followed by non-digit text parses back to n |
| Numerals.ParseIntOfNonNegative | main.js:587 | the digits of m followed by non-digit text parse to m |
| Numerals.ParseIntOfMinus | main.js:587 | text starting with '-' parses to the negated magnitude of the rest |
| Numerals.ParseIntOfDigit | main.js:587 | text starting with a digit parses to its magnitude |
| Numerals.ParseIntOfIntToString | main.js:587-588 | parseInt reads back the integer that `${n}` wrote, whatever non-digit text follows it (round trip) |
| Numerals.ContainsAfterPrefix | main.js:586 | `includes` still holds after text is put in front |
| Draws.RandomInt | main.js:230 | `Math.floor(Math.random() * n)` lies in [0, n) |
| Draws.RandomIntReaches | main.js:230 | every integer in [0, n) is produced by some draw, so the range is exact |
| Refresh.PageViewVariation | main.js:230 | the analytics variation lies in [-100, 99] |
| Refresh.PageViewVariationReaches | main.js:230 | every variation in [-100, 99] can occur |
| Refresh.RevenueDraw | main.js:247 | the new revenue lies in [8000, 22999] |
| Refresh.BarHeight | main.js:253-254 | a bar height is 4·h with h in [16, 35]: in [64, 140] and a multiple of 4 |
| Refresh.ProgressVariation | main.js:266 | a member's variation lies in [-5, 4] |
| Refresh.ProgressVariationReaches | main.js:266 | every variation in [-5, 4] can occur |
| Refresh.Clamp | main.js:267 | `Math.max(0, Math.min(100, x))`: the result lies in the bounds, equals x inside them, and equals the nearer bound outside |
| Refresh.ResamplesApi | main.js:284 | `Math.random() < 0.3`: a predicate without a contract, true exactly for draws below 0.3 |
| Refresh.ResamplesApiEitherWay | main.js:284 | some draws in [0, 1) resample the API's status and some do not |
| Refresh.ResampledStatus | main.js:285 | the resampled API status is online or warning, never offline |
| Refresh.ResampledStatusReaches | main.js:280-285 | both online and warning can be drawn |
| Feed.NewActivity | main.js:309-315 | the added entry has id `now`, time 'Just now' and type 'system'; its text is one of the ten texts; its color follows the `> 0.5` draw |
| Feed.Prepend | main.js:317-318 | unshift then slice(0, 5): length min(old + 1, 5), the new entry first, then the first min(old, 4) previous entries in order |
| Feed.MinutesLabel | main.js:588 | `${minutes} minutes ago`: parseInt of the label reads back minutes, NaN included |
| Feed.Increment | main.js:587 | `+ 1` on a number that may be NaN: NaN stays NaN, a number goes up by one |
| Feed.PrependAllNewestFirst | main.js:317-318 | after a run of additions the feed has min(old + added, 5) entries, and the k-th newest addition is at index k |
| Feed.MinutesLabelShape | main.js:588 | a '(n) minutes ago' label is never 'Just now' and contains 'minute' |
| Feed.AgeLabel | main.js:584-589 | 'Just now' becomes '1 minute ago'; a label that is neither 'Just now' nor contains 'minute' is kept; no aged label is 'Just now'; an aged label is unchanged or contains 'minute' |
| Feed.AgeLeadingInteger | main.js:586-588 | any label that starts with an integer n and contains 'minute' ages to '(n+1) minutes ago' |
| Feed.AgeMinutesLabel | main.js:586-588 | 'n minutes ago' ages to 'n+1 minutes ago' |
| Feed.AgeOneMinuteAgo | main.js:586-588 | '1 minute ago' ages to '2 minutes ago' |
| Feed.AgeNaNLabel | main.js:587-588 | 'NaN minutes ago' stays unchanged |
| Feed.JustNowAfter | main.js:582-590 | an entry added as 'Just now' reads '1 minute ago' after one aging and 'k minutes ago' after k >= 2 agings |
| Format.FormatNumber | main.js:593-600 | 'M' exactly from 1e6 up, 'K' exactly in [1000, 1e6), plain otherwise (negatives included); the plain text is `num.toString()` and parses back to the number |
| Format.RevenueShownInThousands | main.js:247-260 | every revenue value is shown with the 'K' suffix |
| Install.StepLabelAtTick | main.js:470-473 | after tick k in 1..5 the text is installSteps[k-1], never 'Installation complete!' |
| Install.StepLabel | main.js:473 | installSteps[floor(progress / 20) - 1], or 'Installing...' where that is undefined: always one of the six steps or the fallback, and the fallback below 20 and from 140 up |
| Install.ShownText | main.js:454-473 | the install text is 'Preparing installation...' exactly before the first tick |
| Install.InstallJob.constructor | main.js:448-459 | a new install starts at 0% with its interval running, showing 'Preparing installation...' |
| Install.InstallJob.Tick | main.js:470-482 | a tick adds 20; the text is installSteps[progress/20 - 1]; the interval stops and the close is scheduled exactly at 100 |
| Modals.RemoveById | main.js:564 | `remove()` keeps the other modals, drops the given one, and changes nothing if that one is absent |
| Modals.RemoveAt | main.js:564 | with distinct modals, removing the modal at position k leaves the rest of the page in its order |
| Modals.RemoveDisplayedTakesOne | main.js:562-567 | with distinct modals, closing a displayed modal removes exactly that one element and keeps the others in their order |
| Modals.RemoveKeepsValid | main.js:562-567 | removal keeps the displayed modals distinct |
| Drag.PressThenMove | main.js:346-365 | after a mouse-down at (sx, sy), a move to (x, y) offsets the widget by (x-sx, y-sy) while dragging with cursor 'grabbing' and z-index 1000 |
| Drag.IdleIgnoresPointer | main.js:356-368 | a move or mouse-up while not dragging changes nothing |
| Drag.ReleaseThenSnapBack | main.js:367-381 | a mouse-up while dragging clears dragging and restores cursor 'move' and z-index 'auto' at once; the snap-back then resets the offset to (0, 0) and finally clears the transition |
| Drag.QuickRedragIsSnappedBack | main.js:367-381 | a drag started before the previous snap-back fired is reset to (0, 0) mid-drag by that snap-back |
| Drag.DragView.Pressed | main.js:346-354 | mouse-down starts a drag with cursor 'grabbing', does not move the widget, and cancels no pending timeout |
| Drag.DragView.Moved | main.js:356-365 | while dragging the offset follows the pointer's travel since the press; when idle nothing changes |
| Drag.DragView.Released | main.js:367-372 | mouse-up ends any drag without moving the widget, and schedules one snap-back only when a drag was on |
| Drag.DragView.SnappedBack | main.js:374-377 | the first timeout puts the widget at (0, 0) with a transition, whether or not a new drag is on, and schedules the clear |
| Drag.DragView.TransitionCleared | main.js:378-380 | the second timeout clears the transition and moves nothing |
| Drag.DragState.constructor | main.js:343-344 | a new drag closure is not dragging |
| Drag.DragState.MouseDown | main.js:346-354 | mouse-down starts a drag from the pointer position |
| Drag.DragState.MouseMove | main.js:356-365 | a move offsets a dragged widget by the pointer's travel and leaves an idle one unchanged |
| Drag.DragState.MouseUp | main.js:367-372 | mouse-up ends a drag, restores cursor and z-index and schedules one snap-back; it leaves an idle widget unchanged |
| Drag.DragState.SnapBack | main.js:374-377 | the snap-back timeout puts the widget at (0, 0) with the transition set |
| Drag.DragState.ClearTransition | main.js:378-380 | the last timeout clears the transition |
| Dashboard.DashboardPro.constructor | main.js:10-65 | the seed data: page views 24567, revenue 12450, four members, five activities, API 'warning', default settings |
| Dashboard.DashboardPro.UpdateAnalytics | main.js:229-231 | page views change by the variation, within [-100, 99], with no floor |
| Dashboard.DashboardPro.UpdateRevenueChart | main.js:245-255 | revenue is in [8000, 22999]; each of the four bars gets height 4·h with h in [16, 35] |
| Dashboard.DashboardPro.UpdateTeamPerformance | main.js:264-268 | each member's progress walks by its own draw, clamped to [0, 100]; names and order are unchanged |
| Dashboard.DashboardPro.UpdateSystemStatus | main.js:279-293 | only the API's status may change, and only when the roll is below 0.3; a changed status is online or warning; server and database are untouched |
| Dashboard.DashboardPro.AddNewActivity | main.js:295-321 | the feed becomes the new 'Just now' 'system' entry followed by the first min(old, 4) previous entries; the feed never exceeds 5 |
| Dashboard.DashboardPro.UpdateTimeStamps | main.js:582-591 | length and order are kept; each entry's time is aged and nothing else about it changes |
| Dashboard.DashboardPro.SelectTheme | main.js:430-442 | the theme becomes ['default', 'purple', 'green'][i]; option i carries ring-2 and no other option does |
| Dashboard.DashboardPro.ToggleSettingsPanel | main.js:401-407 | both position classes flip, so a panel with exactly one of them still has exactly one |
| Dashboard.DashboardPro.HideSettingsPanel | main.js:409-415 | the panel ends with translate-x-full and without translate-x-0 |
| Dashboard.DashboardPro.SetDataSource | main.js:143-147 | the data source is set; other settings are kept |
| Dashboard.DashboardPro.SetRefreshRate | main.js:149-153 | the refresh rate is set; other settings are kept |
| Dashboard.DashboardPro.ApplySettings | main.js:417-419 | one confirmation toast, then the panel is hidden |
| Dashboard.DashboardPro.ShowToast | main.js:569-573 | the message is appended to the toasts shown |
| Dashboard.DashboardPro.HandleQuickAction | main.js:386-389 | the toast names the action clicked |
| Dashboard.DashboardPro.SaveCurrentLayout | main.js:528-530 | one 'Layout saved' toast |
| Dashboard.DashboardPro.ApplyLayoutPreset | main.js:522-526 | a toast naming the preset, then the current modal is closed |
| Dashboard.DashboardPro.CreateModal | main.js:543-560 | a new modal with a fresh id is appended and becomes current; earlier modals stay displayed |
| Dashboard.DashboardPro.CloseModal | main.js:562-567 | only the current modal is removed (exactly one element) and the reference becomes null; with no current modal nothing changes |
| Dashboard.DashboardPro.ShowNotifications | main.js:391-399 | a 'Notifications' modal is appended and becomes current |
| Dashboard.DashboardPro.InitiateInstall | main.js:444-459 | an 'Installing' toast, an install modal that becomes current, and a fresh counter at 0% |
| Dashboard.DashboardPro.CompleteInstall | main.js:475-481 | the delayed close fires once: it closes the current modal, leaves the page unchanged when no modal is current, and adds exactly one completion toast |
| Dashboard.DashboardPro.WidgetMouseDown | main.js:346-354 | a mouse-down reaches only the widget pressed |
| Dashboard.DashboardPro.DocumentMouseMove | main.js:356-365 | a document move moves every dragged widget and leaves every idle widget unchanged |
| Dashboard.DashboardPro.DocumentMouseUp | main.js:367-383 | after a document mouse-up no widget is dragging; each dragged widget is released |
| Scenarios.AnalyticsTickFromSeed | main.js:229-235 | from the seed 24567, a tick with variation -100 gives 24467, shown with 'K' |
| Scenarios.OpenThenCloseTwice | main.js:543-567 | open then close removes one modal; a second close is a no-op |
| Scenarios.SecondModalLeavesFirstOpen | main.js:549-565 | a second modal only overwrites the reference; after one close the first modal is still displayed |
| Scenarios.InstallRunsFiveTicks | main.js:444-483 | the interval runs exactly five ticks, reaching 100% and stopping; the last text is 'Finalizing installation...'; exactly one completion toast |
| Scenarios.InstallCloseHitsCurrentModal | main.js:475-480 | a modal opened during an install is the one the delayed close removes; the install modal stays |

## Left out

- DOM lookups are assumed to find their element; the `if (element)` guards are not modelled.
- Rendering is not modelled:
  - `innerHTML` templates and modal bodies;
  - the analytics and revenue texts and the scale animation (main.js:233-242, 257-261);
  - the team progress-bar widths (main.js:270-276);
  - the activity list display (main.js:323-340);
  - the API indicator's class string (main.js:288-291).
- Event-listener wiring (main.js:68-195): each handler is a method call.
- Real-time scheduling (main.js:197-227): timer periods are not modelled; each firing is a method call.
- The pending snap-back and transition-clearing timeouts are counted, not timed.
- The restart of the analytics interval in `applySettings` (main.js:421-427) is timer plumbing. The 5 s interval started at main.js:199-201 is never cancelled, because its handle is not stored.
- `Math.random()` draws use exact real multiplication, not double rounding.
- `formatNumber`'s `toFixed(1)` digits are floating point. Only the chosen form (M, K or plain) and the number are kept.
- Integers are unbounded. JavaScript numbers lose precision above 2^53, and `${n}` switches to exponent form from 1e21; neither is modelled.
- `parseInt` of the refresh-rate slider (main.js:151) can give NaN. `SetRefreshRate` takes the integer already read.
- Toast fade-in, hold and removal timings (main.js:574-579) are not modelled. A toast is a message appended to `toasts`.
- `showInstallInfo`, `showUserMenu` and `showLayoutPresets` are `createModal` calls with fixed HTML bodies.
- The CSS injection and the `DOMContentLoaded` bootstrap (main.js:617-642) are page setup.
- `InitiateInstall`, `InstallJob.Tick`: each install job is modelled with its own bar and text. In main.js (lines 458-459, 472-473) `getElementById` finds the progress elements of the first install modal still on the page. So whenever an earlier install modal is still displayed, a later install drives that earlier modal's bar and text, and its own modal stays at 0% showing 'Preparing installation...'. A concurrent install is one case; another is an install modal left on the page because the delayed close removed a different modal (`Scenarios.InstallCloseHitsCurrentModal`). The model does not capture this sharing of elements by id.
- The initial classes of the settings panel and the theme options come from the page's HTML, which is not part of this model. The constructor assumes the panel is hidden and the 'default' option is marked.
- `Drag.DragState`: a widget's inline styles (`left`, `top`, `cursor`, ...) are "" in the page before a handler first sets them. The model starts them at 0 and the default cursor, and keeps `left` and `top` as integers of pixels. It therefore does not tell an unset `left`/`top` ("") apart from "0px".
