# StudyFlow weekly plan lifecycle, modelled in Dafny

StudyFlow is a small React app. It turns a free-text description of a
person's week into a seven-day study plan, using an external generation
service, and lets the user edit that plan. This project models the app's
own logic, file by file, as pure functions over immutable values:

- **Week key** (`week_key.dfy`, `calendar.dfy`, `text.dfy`). `getWeekKey`
  finds the Monday of the current week and names it `week-<year>-<0-based
  month>-<day>`. A date is an absolute day number. The weekday and the civil
  date are computed from it; the civil date uses proleptic Gregorian
  arithmetic. The key string is built from decimal renderings.
- **Store and weekly reset** (`plan_store.dfy`, `App.Startup`).
  `localStorage` is a `map<string, string>` with the entries `weekKey`,
  `apiKey` and `studyPlan`. At mount, a changed week key renews `weekKey`,
  erases `studyPlan`, and clears the plan and schedule text in memory. A
  non-empty stored `apiKey` is loaded into memory.
- **Generation** (`generation.dfy`, `App.Generate`, `App.Complete`). The
  guards run before any request: non-blank text, and a key starting with
  `sk-`. The reply is accepted only if it parsed and has a non-empty `days`.
  A failure message picks its alert by first match: `API key`, then
  `quota`/`insufficient`, then `model`, then a generic text quoting the
  message.
- **Plan editor** (`plan.dfy`, `plan_editor.dfy`). Delete a session, write
  one property of a session, append the default session. Each edit changes
  one day's session list and nothing else.
- **Page machine** (`app.dfy`). The component state is `Ui`: page, schedule
  text, plan, key, edit mode, open dialog. `Enabled` states which actions
  the rendered page offers. `RunKeepsInv` proves the invariant for every
  action sequence. The invariant: the result page always has a plan with
  days, edit mode exists only there, an open dialog addresses an existing
  session, and exactly one request is unanswered while the loading page
  shows (none otherwise).
- **Tab view** (`tabbed_view.dfy`). The default tab is the first day named
  like today's weekday (from the Sunday-first table), else tab 0. Clicked
  tabs are valid indices. The edit callbacks receive the active tab as the
  day index.
- **Session colors** (`type_colors.dfy`): the `getTypeColor` lookup.

Parameters instead of foreign code:
- "Today" is a day-number argument.
- The service's reply is a `Reply` value: a service error, an unparsable
  text, or a parsed document.
- `JSON.stringify` of a plan is a function argument `encode`.
- `window.confirm` is a boolean argument.
- Alerts are returned as values.

Behaviour worth knowing, as the code has it:
- The stored plan is never read back into memory: not at startup, and not
  when returning to the input page.
- A blank schedule only raises an alert; the page does not change.
- The reply is checked only for a non-empty `days`. There is no seven-day,
  weekday-order or time-interval check.
- A stored key is loaded only when it is non-empty, not merely when present.
- Edited `time`/`type` values are not validated.

## Model

| member | source | states |
|---|---|---|
| Calendar.Weekday | src/App.js:70 | the weekday number is in 0..6, numbered as `getDay` numbers it |
| Calendar.WeekdayName | src/TabbedView.jsx:6-7 | today's name comes from the Sunday-first table: "Sunday" exactly for weekday 0, "Monday" for 1, "Saturday" for 6 |
| Calendar.EpochIsThursday | src/App.js:70 | day 0 is 1970-01-01, a Thursday, anchoring the `getDay` numbering |
| Calendar.JsMonth | src/App.js:73 | `getMonth` is the civil month minus one, in 0..11 |
| Calendar.CivilFromDays | src/App.js:73 | the year, month and day `getFullYear`, `getMonth` and `getDate` read: month in 1..12, day in 1..31, inverted by `DaysFromCivil` (next row) |
| Calendar.DaysFromCivilInverse | src/App.js:72-73 | counting the days of the computed year, month and day gives back the day number |
| Calendar.CivilFromDaysInjective | src/App.js:73 | two days share a civil date exactly when they are the same day |
| Text.IntToDecimal | src/App.js:73 | the rendering of an integer in a template literal is never empty, starts with `-` exactly for a negative number and has no `-` after the first character; `Text.IntToDecimalInjective` makes it one-to-one |
| Text.DecimalRoundTrip | src/App.js:73 | reading back the decimal rendering of a natural number gives the number |
| Text.IntToDecimalInjective | src/App.js:73 | two integers render alike in a template literal exactly when they are equal |
| Text.StartsWith | src/App.js:95 | `s.startsWith(prefix)` holds exactly when `prefix` is no longer than `s` and agrees with it character by character |
| Text.Contains | src/App.js:193-197 | `s.includes(sub)` can hold only when `sub` is no longer than `s` |
| Text.IsBlank | src/App.js:87 | `!s.trim()` (both ends trimmed of ECMAScript whitespace) holds exactly when every character is whitespace |
| WeekKey.MondayOffset | src/App.js:70-71 | the offset `(day===0 ? -6 : 1) - day` lies in [-6, 0], is 0 only on Monday, and lands on weekday 1 |
| WeekKey.MondayOf | src/App.js:68-72 | the computed date is a Monday 0 to 6 days before `now` |
| WeekKey.MondayStartsWeek | src/App.js:67-72 | the computed Monday is the first day of the Monday-starting week holding `now` |
| WeekKey.Format | src/App.js:73 | the key starts with `week-` and ends with the day's digits; `FormatInjective` shows it determines the date |
| WeekKey.CurrentWeekKey | src/App.js:67-74 | `getWeekKey()` on a day: a `week-` key; what it identifies (the Monday-starting week) is `SameKeyIffSameWeek` |
| WeekKey.FormatInjective | src/App.js:73 | two keys are equal exactly when they name the same year, month and day |
| WeekKey.SameKeyIffSameWeek | src/App.js:67-74 | two days get the same key exactly when they lie in the same Monday-starting week; adjacent weeks never share a key |
| WeekKey.WeekKeyExample | src/App.js:67-74 | on Saturday 2026-10-10 the key is `week-2026-9-5` |
| PlanStore.GetItem | src/App.js:51-52 | `getItem` yields the stored value, or null exactly when the entry is missing |
| PlanStore.SetItem | src/App.js:56 | `setItem` gives the entry the value and changes no other entry |
| PlanStore.RemoveItem | src/App.js:57 | `removeItem` removes the entry and changes no other entry |
| PlanStore.WeekChanged | src/App.js:51-54 | `savedWeek !== currentWeek` holds exactly when no week key is stored or the stored one differs from the current week's key |
| PlanStore.WeeklyReset | src/App.js:50-60 | given the current week's key: afterwards the stored week key is that key; on a week change the plan entry is gone; with an unchanged week the store is untouched; no entry other than week key and plan changes |
| PlanStore.ResetKeepsApiKey | src/App.js:52-57 | the reset never touches the `apiKey` entry |
| PlanStore.ResetIdempotent | src/App.js:49-60 | a second start with the same week key sees no change of week and leaves any entry written in between (a saved plan, say) in place |
| PlanStore.ResetIdempotentWithinWeek | src/App.js:49-60 | a second start in the same week sees no change of week, so a plan stored in between survives it |
| PlanStore.ResetInNewWeekErasesPlan | src/App.js:49-60 | a store stamped in another week (adjacent ones included) has its plan erased at the next start, its `apiKey` kept |
| PlanStore.ResetInSameWeekKeepsPlan | src/App.js:54-60 | a store stamped in the current week is left exactly as it was |
| App.SavedApiKey | src/App.js:62-64 | the stored key is taken exactly when present and non-empty |
| App.Startup | src/App.js:49-65 | given the current week's key, the store becomes exactly the weekly-reset store (so no other entry changes); on a week change: new week key, plan entry removed, plan null, text empty; otherwise store, plan and text unchanged; `apiKey` entry untouched and loaded when non-empty; the stored plan is never loaded |
| App.BootHasNoPlan | src/App.js:7-12 | whatever the store holds, the app starts on the input page with no plan, no edit mode and no open dialog |
| App.TypeSchedule | src/App.js:322 | typing replaces the schedule text and nothing else |
| App.ChangeApiKey | src/App.js:76-80 | the typed key is kept in memory and written to `apiKey` unconditionally; no other entry changes |
| App.ApiKeySurvivesRestart | src/App.js:52-64 | after `handleApiKeyChange` with a non-empty key, the next start, in any week, loads that key into memory |
| App.RunKeepsApiKey | src/App.js:76-80 | along any run of offered actions none of which types in the key field, the stored `apiKey` entry is unchanged: only `handleApiKeyChange` writes it |
| App.ApiKeySurvivesRun | src/App.js:52-80 | after `handleApiKeyChange` with a non-empty key and any later run of actions that does not type in the key field again, a start in any week loads that key into memory |
| Generation.KeyLooksValid | src/App.js:95 | the rejection test (key empty, or not starting with `sk-`) is false exactly for keys whose first three characters are `sk-`; the empty-key test adds nothing |
| Generation.AsDocument | src/App.js:177-183 | the document of a plan has that plan's days |
| Generation.Accept | src/App.js:177-181 | a parsed value is accepted exactly when it is an object with a present, non-empty `days`; the accepted plan is the document itself; a rejection carries the invalid-structure message |
| Generation.AcceptRoundTrip | src/App.js:179-183 | any plan with at least one day is accepted as itself |
| Generation.EmptyOrMissingDaysRejected | src/App.js:179-181 | a document with `days: []` or without `days` is rejected as invalid structure |
| Generation.Outcome | src/App.js:176-189 | service and parse errors fail with their own message; a parsed reply succeeds exactly when it is accepted |
| Generation.IncorrectKeyIsCovered | src/App.js:193 | the test for `Incorrect API key` adds nothing to the test for `API key` |
| Generation.Classify | src/App.js:191-199 | first match: key alert exactly for `API key`; credits alert for `quota`/`insufficient` without `API key`; model alert for `model` without the earlier words; otherwise the generic alert keeps the message |
| Generation.GenericAlertQuotesMessage | src/App.js:191 | the generic alert contains the original message, and different messages give different alerts |
| Generation.InvalidStructureAlert | src/App.js:180-199 | a reply without days ends in the generic alert, not a remedy |
| Generation.AlertText | src/App.js:191-199 | the key, credit and model alerts open with `Invalid API key!`, `Out of credits!` and `Model not available.`; the generic alert starts `Failed to generate plan: ` and quotes the message; the three remedy alerts never start that way |
| Generation.RemedyAlertsDiffer | src/App.js:193-199 | the key, credit and model remedies show three different alerts |
| App.Generate | src/App.js:86-99 | a request goes out exactly for non-blank text and an `sk-` key; blank text changes nothing; a bad key ends on the input page; no guard writes the store |
| App.Complete | src/App.js:176-202 | an accepted plan is kept, written to `studyPlan` and shown; any failure ends on the input page with memory plan and store untouched and the alert its message selects |
| App.GoToInput | src/App.js:205-208 | back to the input page with edit mode off; the plan in memory and in the store stay |
| App.ToggleEditMode | src/App.js:210-213 | edit mode flips and the dialog closes; nothing else changes |
| App.SaveChanges | src/App.js:215-220 | `studyPlan` receives the serialized plan in memory (`null` for none), no other entry changes, edit mode ends and the dialog closes |
| App.Serialized | src/App.js:216 | `JSON.stringify(null)` is the text `null`; a plan is written with `encode` |
| App.EditOrSave | src/App.js:381 | the header button is exactly `saveChanges` in edit mode and exactly `toggleEditMode` otherwise (edit mode on, dialog closed, plan, page, text, key and store kept, no alert, no request) |
| App.EditThenSaveStoresPlan | src/App.js:210-220 | pressing the header button twice from view mode stores the unchanged plan and leaves edit mode |
| App.DeleteSession | src/App.js:222-228 | confirmed, the plan becomes the plan with that session deleted; not confirmed, nothing changes |
| App.EditSession | src/App.js:230-232 | the dialog opens on the given session and nothing else changes |
| App.UpdateSession | src/App.js:234-238 | the plan becomes the plan with that one property rewritten; nothing is stored |
| App.AddNewSession | src/App.js:240-252 | the default session is appended to the day and the dialog opens on its index, the new last one |
| App.CloseEditModal | src/App.js:254-256 | only the dialog closes |
| App.SaveAfterEditStoresEdit | src/App.js:215-238 | saving after a field edit stores the edited plan |
| App.Enabled | src/App.js:271-548 | the rendered page's offers: the loading page only awaits the reply; while the dialog is open only its own controls act; the add, edit and delete buttons exist only in edit mode on the result page; the result page never offers anything without a plan |
| App.Apply | src/App.js:271-548 | each control runs its handler: only the generate button issues a request, and it ends on the loading page; the reply always leaves it; no other action enters or leaves it; only the key field, an accepted reply and the save button write the store, and only the key field writes the `apiKey` entry |
| App.BootSatisfiesInv | src/App.js:7-12 | the starting state satisfies the page invariant |
| App.StepKeepsInv | src/App.js:368-370 | every action the page offers keeps the invariant, so the result page always has a plan with days and an open dialog always a real session |
| App.RunKeepsInv | src/App.js:355-370 | along any sequence of offered actions the invariant holds; exactly one request is unanswered while loading and none otherwise; the condition `currentPage === 'result' && studyPlan` (`ShowsResult`) holds whenever the page is `result` |
| App.RunFromBoot | src/App.js:7-12 | every run from startup ends in a state satisfying the trace invariant |
| App.TabDayIsEditable | src/TabbedView.jsx:10-33 | the day index given to the add button (default or clicked tab) is a day of the plan |
| Plan.Set | src/App.js:236 | `session[field] = value` gives that property the value and keeps every other property |
| Plan.SetCurrentValue | src/App.js:236 | writing a property's current value changes nothing |
| Plan.SetOverwrites | src/App.js:236 | a later write to a property replaces the earlier one |
| Plan.SetCommutes | src/App.js:236 | writes to different properties commute |
| PlanEditor.RemoveAt | src/App.js:225 | `splice(i, 1)`: one element shorter, earlier elements kept, later ones shifted down by one, the multiset loses exactly the removed element |
| PlanEditor.RemoveAtThenInsert | src/App.js:225 | putting the removed session back at its index restores the list |
| PlanEditor.DeleteSession | src/App.js:222-228 | that day loses exactly that session, later ones shift down, all other days and plan parts unchanged |
| PlanEditor.UpdateSession | src/App.js:234-238 | only the named property of the addressed session changes; every other property, session and day is unchanged |
| PlanEditor.AddSession | src/App.js:240-250 | that day grows by one, its earlier sessions are kept, the new last session is the default one, all else unchanged |
| PlanEditor.DeleteUndoesAdd | src/App.js:222-250 | deleting the session just added gives back the original plan |
| PlanEditor.UpdateUndone | src/App.js:234-238 | writing back a property's former value undoes an update |
| PlanEditor.UpdateIdempotent | src/App.js:234-238 | repeating an update changes nothing more |
| TabbedView.FindDayFrom | src/TabbedView.jsx:10 | the result is the first matching position at or after the start, or -1 exactly when none matches |
| TabbedView.FindDay | src/TabbedView.jsx:10 | `findIndex`: the first day with the name, or -1 exactly when no day has it |
| TabbedView.DefaultTab | src/TabbedView.jsx:10-11 | the first day named like today when one is; 0 when none is; always a valid index of a non-empty plan |
| TabbedView.Mount | src/TabbedView.jsx:13 | the tab state starts at the default tab, a valid index |
| TabbedView.Click | src/TabbedView.jsx:18-22 | clicking the tab of day `idx` selects `idx`, a valid index |
| TabbedView.CallbacksEditShownDay | src/TabbedView.jsx:31-33 | the day rendered (`days[activeTab]`) is the day `dayIdx` (`CallbackDay`) hands to the callbacks: adding appends to the shown day's sessions, deleting removes the shown `i`-th session, updating rewrites the shown `i`-th session |
| TabbedView.FullWeekOpensOnToday | src/TabbedView.jsx:6-11 | for a Monday-to-Sunday plan the default tab is today's position in that week |
| TypeColors.TypeColor | src/App.js:258-268 | class, study, work, rest and commute get #3B82F6, #8B5CF6, #1F2937, #10B981 and #F97316; every color is one of the six in the table; gray exactly for any other type, `free` included |
| TypeColors.ColoredKindsDistinct | src/App.js:258-268 | each colored type has a color no other type shares |

## Left out

- The request itself (src/App.js:101-174): client construction, prompt text, model name and options. It is a call into a foreign service; its result arrives as a `Reply`.
- `JSON.parse` (src/App.js:177) is foreign code. Its result is a `Reply` holding a parse error or a parsed document.
- `JSON.stringify` (src/App.js:184, 216) is foreign code. It is the parameter `encode`; only its `null` case is written out. The stored plan is never parsed back by the app, so no decoder is modelled.
- Replies that are not plan-shaped apart from `days`: the model assumes every parsed reply has `urgent`, `stats`, `tips` and well-formed days and sessions. The code checks only `days`, so a reply such as `{"days": [{"day": "Monday"}]}` or one without `stats` is stored and shown, and rendering then throws (src/App.js:395, src/Day.jsx:16). The invariant proves that the result page has a plan with days, not that every part of it renders.
- Reply properties that are not arrays: a truthy non-array `days` (an object, say) would pass the length test in JavaScript. The model gives `days` only two shapes, missing or a list.
- `toLocaleDateString`, time zones and the time of day (src/App.js:107-110) are outside the model. "Today" is an abstract local calendar day, so `setDate` moves by whole days.
- `alert` and `window.confirm` are browser dialogs. Alerts are returned values; the confirmation is a boolean argument.
- `console.error` (src/App.js:188) is logging only.
- A `setItem` that throws, for example when storage is full, is not modelled. The model treats writes to the store as always succeeding.
- The shallow `{ ...studyPlan }` copies that mutate nested arrays in place (src/App.js:224, 235, 248) are not modelled. Each edit is a value update, which gives the same rendered result.
- `updateSession` with a property name other than the five the edit dialog writes is not modelled. `Field` has exactly those five.
- `getTypeColor` for a type named like an inherited object property (`constructor`, `toString`) is not modelled. JavaScript would return that property instead of gray.
- Rendering is not modelled: the JSX, CSS, the emoji picker, `src/Day.jsx`, and the progress-bar percentage (src/App.js:426, floating-point division).
- `Enabled` stands in for the rendered page. It assumes the edit dialog's overlay covers the page. `Day.jsx` only passes indices of rendered sessions, which is why the editor operations take in-range indices as preconditions.
- The tab component's selected index is not part of `Ui`. `Enabled` offers the add, edit and delete buttons for every day of the plan, which over-approximates the one active tab. `App.TabDayIsEditable` shows the active tab is always among those days.
- The example text (src/App.js:14-46) is constant data. `loadExample` is `TypeSchedule` with that text.
- Calendar.CivilFromDays: bounds the day of the month by 31, not by the length of that month. Only the round trip to day numbers is needed for the week key.
