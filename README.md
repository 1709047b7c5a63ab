# NurtureAI infant monitor — a Dafny model

NurtureAI is a browser application in which parents log their baby's
feeds, sleep and vital signs. This project models its vital-sign alarm
engine and the pure logic around it, and proves properties of that model.

The root component (`App.tsx`) is modelled as a class whose fields are the
component's state and refs. It covers:

- grading the newest log entry STABLE, WARNING or EMERGENCY;
- starting and stopping a repeating alarm beep whose waveform, pitch and
  period depend on the grade;
- the Mute button;
- saving a log entry;
- the first sign-in, which seeds the log;
- the "Alert Doctor" escalation, which builds a WhatsApp message and link.

The screens around it are modelled as well:

- the dashboard's vital cards and "time ago" captions;
- the quick-log dialog;
- the report's table of recent vitals and its chat transcript;
- the trend charts;
- the chat's Markdown-like formatter and its send/receive cycle;
- the interface-string lookup;
- the meal heuristics (energy share, choking hazard, safety score, serving
  volume);
- the sign-up, login and profile-settings forms with their shared age
  classifier.

Files:

| file | models |
|---|---|
| `types.dfy` | `types.ts`, plus the types the components use but do not declare. A JavaScript number is `Finite(real)` or `NaN`; its truthiness is `Truthy`. |
| `app.dfy` | `App.tsx`: the classifier, the tones, the escalation message and the `AppState` class |
| `scenarios.dfy` | runs of several events against `AppState` |
| `dashboard.dfy` | `components/Dashboard.tsx` |
| `logmodal.dfy` | `components/LogModal.tsx`, with the `LogDialog` class |
| `reportview.dfy` | `components/ReportView.tsx` |
| `healthcharts.dfy` | `components/HealthCharts.tsx` |
| `agentchat.dfy` | `components/AgentChat.tsx`, with the `ChatSession` class |
| `translations.dfy` | `utils/translations.ts`; the table is transcribed entry by entry |
| `nutrition.dfy` | `services/nutritionAlgorithms.ts` |
| `agegroups.dfy` | `calculateAgeGroup`, which three components define identically |
| `auth.dfy` | `components/Auth.tsx` and `components/Login.tsx` |
| `profilesettings.dfy` | `components/ProfileSettings.tsx`, with the `ProfileForm` class |
| `text.dfy`, `seqs.dfy`, `wrappers.dfy` | the JavaScript string and array methods the components use, and `Option` |

Two behaviours a reader might expect differ from the code; the model
follows the code:

- **Grading.** The code grades only `logs[0]`, the newest entry of any
  type. It does not take the maximum over the latest reading of each vital.
  As a result, logging a feeding right after an emergency reading silences
  the alarm (`AlarmScenarios.FeedingSilencesEmergency`).
- **Escalation.** When the grade rises from WARNING to EMERGENCY while the
  alarm sounds, `playAlarmSound` returns at once. The warning beep keeps
  running instead of switching to the emergency beep
  (`AlarmScenarios.EscalationKeepsWarningBeep`).

## Model

| member | source | states |
|---|---|---|
| App.TemperatureSeverity | App.tsx:69-72 | STABLE exactly on [36.0, 37.8]; EMERGENCY exactly at or below 35.0 or at or above 39.5; WARNING otherwise |
| App.HeartRateSeverity | App.tsx:73-76 | STABLE exactly on [90, 165] bpm; EMERGENCY exactly below 70 or above 185 |
| App.OxygenSeverity | App.tsx:77-80 | STABLE exactly from 94 % up; EMERGENCY exactly below 90 % |
| App.ClassifyNewest | App.tsx:64-80 | a monitored reading that is missing, zero or NaN gives STABLE; otherwise the grade is the band of the entry's own vital |
| App.TemperatureMonotone | App.tsx:69-72 | for truthy (non-zero, not NaN) readings, the effect never grades a temperature further from normal on the same side less severe |
| App.HeartRateMonotone | App.tsx:73-76 | the same for truthy heart-rate readings |
| App.OxygenMonotone | App.tsx:77-80 | for truthy readings, lower oxygen is never graded less severe |
| App.ZeroReadingGradesStable | App.tsx:69-80 | a reading of exactly 0 is falsy and grades STABLE, although its band is EMERGENCY for all three vitals, so the order above stops at zero |
| App.OnlyNewestCounts | App.tsx:65-66 | the grade depends on the newest entry alone, whatever entries lie behind it |
| App.AlarmTone | App.tsx:47-58 | each beep lasts 300 ms at gain 0.1; it is a 1200 Hz sawtooth exactly for an emergency, otherwise an 880 Hz sine |
| App.AlarmTimer | App.tsx:61 | the beep repeats every 500 ms for an emergency and every 1200 ms otherwise |
| App.EmergencyAlarmDistinct | App.tsx:51-61 | the emergency alarm differs from the warning alarm in waveform, is higher and repeats faster |
| App.VitalsLines | App.tsx:95 | one `TYPE: details` line for each of the at most three newest entries, in list order |
| App.DoctorPhone | App.tsx:97 | the profile's phone when it is present and non-empty, else 919999999999 |
| App.EmergencyAlert | App.tsx:93-98 | nothing without a profile; otherwise the message, the destination phone, and a `https://wa.me/<phone>?text=<encoded message>` link |
| App.AlertMessageLines | App.tsx:95-96 | read line by line, the message names the baby, states the severity, gives the heading, lists the newest entries and ends with the footer |
| App.AppState.constructor | App.tsx:19-29 | no logs, no profile, STABLE, silent, no interval or audio context |
| App.AppState.StopAlarmSound | App.tsx:31-37 | clears the held interval and lowers the flag; severity, logs and the audio context are unchanged |
| App.AppState.PlayAlarmSound | App.tsx:39-62 | a no-op while active; otherwise raises the flag, creates the audio context at most once, sounds one beep at once and holds one interval for the grade |
| App.AppState.LogsEffect | App.tsx:64-91 | nothing on an empty log; otherwise stores the newest entry's grade; the alarm sounds exactly when the grade is not STABLE, and one interval at most is ever live |
| App.AppState.Mute | App.tsx:154 | the alarm stops and no interval remains; the severity is unchanged |
| App.AppState.SaveLog | App.tsx:130-133 | the entry gets its id and goes to the front of the list; the effect then grades it and starts or stops the alarm |
| App.AppState.HandleAuth | App.tsx:115-123 | stores the profile; an empty log is seeded with one feeding entry, graded STABLE; a non-empty log and the alarm are untouched |
| App.AppState.TriggerEmergencyAlert | App.tsx:93-98 | the link handed to `window.open`, none without a profile |
| App.SeedEntry | App.tsx:120 | the seeded entry is a feeding an hour before now and never raises the alarm |
| AlarmScenarios.ExampleGrades | App.tsx:69-80 | 39.6 °C is an emergency; 93 % oxygen and 170 bpm are warnings; 37.8 °C is stable and 37.9 °C a warning |
| AlarmScenarios.EscalationKeepsWarningBeep | App.tsx:39-91 | after a warning and then an emergency reading, the severity is EMERGENCY but the only beep and interval are the warning ones |
| AlarmScenarios.MuteThenRearm | App.tsx:31-91 | a muted alarm starts again with a new beep on the next abnormal reading |
| AlarmScenarios.RecoveryStopsAlarm | App.tsx:84-90 | a normal reading after an emergency stops the alarm and clears the interval |
| AlarmScenarios.FeedingSilencesEmergency | App.tsx:64-91 | a feeding logged after an emergency reading makes the grade STABLE and hides the Alert Doctor button |
| Dashboard.Latest | components/Dashboard.tsx:17-20 | the first entry of the type in the newest-first list; none exactly when no entry has that type |
| Dashboard.TempStatus | components/Dashboard.tsx:27 | warning exactly when the latest temperature is truthy and outside [36, 37.5] |
| Dashboard.HrStatus | components/Dashboard.tsx:28 | warning exactly when the latest bpm is truthy and outside [100, 160] |
| Dashboard.OxyStatus | components/Dashboard.tsx:29 | warning exactly when the latest oxygen is truthy and below 95 |
| Dashboard.ComputeStats | components/Dashboard.tsx:16-31 | the four latest entries and the three card statuses computed from them |
| Dashboard.PrependOtherTypeKeepsCard | components/Dashboard.tsx:16-31 | logging an entry of another type leaves a card's entry and status as they were |
| Dashboard.AlarmImpliesCardWarning | components/Dashboard.tsx:27-29 | whenever the alarm grades the newest vital above STABLE, that vital's card shows a warning |
| Dashboard.CardWarnsBeforeAlarm | components/Dashboard.tsx:27 | the converse fails: 37.6 °C warns on the card while the alarm stays silent |
| Dashboard.TimeAgo | components/Dashboard.tsx:33-38 | "--" without a date; otherwise the elapsed whole minutes m, shown as "<m>m" below an hour and as hours plus remaining minutes from an hour up |
| Dashboard.TimeAgoDeterminesMinutes | components/Dashboard.tsx:35-37 | two captions of an hour or more that read the same show the same elapsed minute |
| LogModal.BuildDetails | components/LogModal.tsx:20-27 | the note is always set; a numeric type's value goes to exactly its own field and no other; other types set no numeric field |
| LogModal.Label | components/LogModal.tsx:35-44 | "Value" exactly for non-numeric types; the numeric labels end in a parenthesised unit |
| LogModal.Title | components/LogModal.tsx:54 | the title starts with "Log " and holds no parenthesis |
| LogModal.TitleDropsUnit | components/LogModal.tsx:54 | the heart-rate dialog is titled "Log Heart Rate " |
| LogModal.TitleWithoutUnit | components/LogModal.tsx:54 | a non-numeric type's dialog is titled "Log Value" |
| LogModal.LogDialog.constructor | components/LogModal.tsx:14-15 | the dialog starts with empty value and notes, closed |
| LogModal.LogDialog.QuickLog | App.tsx:125-128 | choosing a type opens the dialog on that type |
| LogModal.LogDialog.SetValue | components/LogModal.tsx:67 | only the value changes |
| LogModal.LogDialog.SetNotes | components/LogModal.tsx:78 | only the notes change |
| LogModal.LogDialog.HandleSave | components/LogModal.tsx:19-33 | hands over the new entry for the open type, time and details from the parsed value; then both fields are empty and the dialog is closed |
| LogModal.EnteredVitalIsGraded | components/LogModal.tsx:23-26 | a saved non-zero vital is graded by its own band; a zero or NaN entry is STABLE |
| LogModal.NonVitalEntryIsStable | components/LogModal.tsx:20-27 | entries of the other types never raise the alarm |
| ReportView.LatestVitals | components/ReportView.tsx:30 | at most five entries, min(5, number of vitals) of them, all vitals, taken from the list |
| ReportView.LatestVitalsNothingSkipped | components/ReportView.tsx:30 | a vital entry with fewer than five vitals before it appears in the row numbered by that count |
| ReportView.LatestVitalsAfterSave | components/ReportView.tsx:30 | a new vital tops the table and pushes out the sixth row; a new non-vital leaves the table unchanged |
| ReportView.ShownValue | components/ReportView.tsx:114 | the first truthy of temperature, bpm and oxygen, or "--" exactly when none is truthy |
| ReportView.Unit | components/ReportView.tsx:114 | "%" exactly for types other than temperature and heart rate |
| ReportView.ShownValueOfSingleVital | components/ReportView.tsx:114 | an entry saved by the quick-log dialog shows its own value, or "--" when that value is zero or NaN |
| ReportView.ChatText | components/ReportView.tsx:20 | empty for an empty chat |
| ReportView.ChatTextLines | components/ReportView.tsx:20 | for messages without line breaks, one "role: text" line for each of the last ten messages, in order |
| HealthCharts.SortByTime | components/HealthCharts.tsx:14 | ascending by timestamp and a permutation of its input |
| HealthCharts.CardioSeries | components/HealthCharts.tsx:12-14 | time-ordered, and the same entries as the heart-rate/SpO2 filter keeps |
| HealthCharts.TempSeries | components/HealthCharts.tsx:21-23 | time-ordered, and the same entries as the temperature filter keeps |
| HealthCharts.VitalsData | components/HealthCharts.tsx:12-19 | one point per kept entry, in time order, copying bpm and oxygen unchanged |
| HealthCharts.TempData | components/HealthCharts.tsx:21-27 | one point per kept entry, in time order, copying the temperature unchanged |
| HealthCharts.CardioSeriesMembers | components/HealthCharts.tsx:13 | an entry is plotted exactly when it is logged and is a heart-rate or SpO2 entry with a truthy bpm or oxygen |
| HealthCharts.TempSeriesMembers | components/HealthCharts.tsx:22 | an entry is plotted exactly when it is logged and is a temperature entry with a truthy temperature |
| HealthCharts.ChartsDisjoint | components/HealthCharts.tsx:12-23 | no entry is plotted on both charts |
| AgentChat.SplitBold | components/AgentChat.tsx:28 | the pieces concatenate back to the text; they alternate between plain text in which the pattern cannot match and matched "**...**" spans |
| AgentChat.Style | components/AgentChat.tsx:29-33 | bold exactly when the piece starts and ends with "**", with two characters cut from each end; plain pieces are kept as they are |
| AgentChat.InlineStylesSplit | components/AgentChat.tsx:28-33 | every matched span renders bold without its markers, and the plain pieces hold no span |
| AgentChat.LoneMarkersVanish | components/AgentChat.tsx:29-30 | a lone "**" renders as empty bold text |
| AgentChat.StripMarker | components/AgentChat.tsx:19 | removes two characters exactly when the line starts with '*' or '-' followed by white space |
| AgentChat.FormatLine | components/AgentChat.tsx:16-23 | a list item exactly when the trimmed line starts with "* " or "- "; an item's text has the marker stripped |
| AgentChat.FormatText | components/AgentChat.tsx:13-25 | one block per '\n'-separated line, in order |
| AgentChat.FormatTextLines | components/AgentChat.tsx:14-15 | lines without '\n', joined, give back exactly one block per line |
| AgentChat.BulletAtColumnZero | components/AgentChat.tsx:16-19 | "* text" and "- text" become items without their marker |
| AgentChat.IndentedBulletKeepsMarker | components/AgentChat.tsx:16-19 | an indented bullet is an item but keeps its marker text |
| AgentChat.BareMarkerIsParagraph | components/AgentChat.tsx:16-23 | "* " alone trims to "*" and renders as a paragraph |
| AgentChat.TranscriptLines | components/AgentChat.tsx:112 | the history splits back into one "role: text" line per message |
| AgentChat.BlankIsTrimmedEmpty | components/AgentChat.tsx:104 | blank input is exactly the input that `trim()` empties |
| AgentChat.Welcome | components/AgentChat.tsx:38-47 | the welcome message, in the profile's language, names both the parent and the baby |
| AgentChat.ChatSession.constructor | components/AgentChat.tsx:38-53 | the chat opens with the welcome message, empty input, not loading |
| AgentChat.ChatSession.SetInput | components/AgentChat.tsx:209 | only the input changes |
| AgentChat.ChatSession.Send | components/AgentChat.tsx:103-112 | blank input or a pending reply does nothing; otherwise the question is appended, the input cleared, loading starts, and the request carries the question and the last four messages from before it |
| AgentChat.ChatSession.Receive | components/AgentChat.tsx:114-127 | a reply is appended with its sources recorded under its id; a failure appends the error message; loading ends either way |
| AgentChat.HistoryPrecedesQuestion | components/AgentChat.tsx:106-112 | the history `Send` builds from the messages before the append (at most four of them) is exactly the stretch of the new message list that ends just before the question, so the question's own position is never in it, for chats of any length |
| Translations.T | utils/translations.ts:28 | an unknown key comes back as itself; a known key with a non-empty string gives that string |
| Translations.EntriesNonEmpty | utils/translations.ts:5-25 | every table string is non-empty in both languages |
| Translations.KnownKeyTranslated | utils/translations.ts:4-28 | a known key always gives the table's string for the language |
| Translations.VitalKeysUntranslated | utils/translations.ts:28 | heart_rate, spo2, temperature and feeding come back verbatim |
| Nutrition.Round | services/nutritionAlgorithms.ts:10 | the nearest integer, halves rounded up |
| Nutrition.CalculateRDAContribution | services/nutritionAlgorithms.ts:8-11 | the rounded value of 100·calories/(110·weight) |
| Nutrition.FullTargetIsHundred | services/nutritionAlgorithms.ts:9-10 | 110 kcal per kilogram gives exactly 100 |
| Nutrition.RDAMonotone | services/nutritionAlgorithms.ts:9-10 | more calories never give a smaller share |
| Nutrition.RiskyIngredient | services/nutritionAlgorithms.ts:23 | an ingredient is risky exactly when its lower-cased text contains one of the eight substrings |
| Nutrition.AnyRisky | services/nutritionAlgorithms.ts:22-24 | true exactly when some ingredient is risky |
| Nutrition.CheckChokingHazards | services/nutritionAlgorithms.ts:17-27 | always a hazard for a newborn; otherwise a hazard exactly when some ingredient is risky, so never for an empty list |
| Nutrition.CoconutIsANut | services/nutritionAlgorithms.ts:18-23 | matching is by substring: "Coconut Milk" is a hazard for an infant |
| Nutrition.SafetyScore | services/nutritionAlgorithms.ts:38-44 | between 0 and 100; a toddler gets 40 or 100 by the hazard alone; a newborn with a hazard and a texture other than "Puree" gets 0; a hazard-free infant gets 70 for "Hard Solid" and 100 otherwise |
| Nutrition.HazardNeverRaises | services/nutritionAlgorithms.ts:39 | a hazard never raises the score |
| Nutrition.GenerateSafetyScore | services/nutritionAlgorithms.ts:33-45 | the step-by-step deductions and the clamp give the score above |
| Nutrition.ItemDensity | services/nutritionAlgorithms.ts:53-66 | every item's volume lies between 60 and 180 |
| Nutrition.ItemDensityIsFirstKey | services/nutritionAlgorithms.ts:65-66 | the volume of the first key, in table order, that the lower-cased item contains; 100 when it contains none |
| Nutrition.EarlierKeyWins | services/nutritionAlgorithms.ts:53-65 | "Apple Puree" counts as a puree (120), not an apple |
| Nutrition.TotalDensity | services/nutritionAlgorithms.ts:63-67 | the total lies between 60 and 180 times the number of items |
| Nutrition.VolumeDensity | services/nutritionAlgorithms.ts:69 | an empty list gives 0 |
| Nutrition.VolumeDensityBounds | services/nutritionAlgorithms.ts:63-69 | a non-empty list's estimate lies between 60 and 180 |
| Nutrition.EstimateVolumeDensity | services/nutritionAlgorithms.ts:51-70 | the loop's total and the rounded mean equal the estimate above |
| AgeGroups.CalculateAgeGroup | components/Auth.tsx:23-29 | NEWBORN exactly up to and including 3·30 days; INFANT exactly above that up to and including 12·30 days; TODDLER beyond that or for an invalid date |
| AgeGroups.EarlierBirthNeverYounger | components/Auth.tsx:23-29 | at a fixed time, an earlier birth date never gives a younger group |
| AgeGroups.LaterNowNeverYounger | components/Login.tsx:17-23 | as time passes, a child never moves to a younger group |
| AgeGroups.FutureBirthIsNewborn | components/Auth.tsx:25-26 | a birth date in the future gives NEWBORN |
| AgeGroups.BoundariesInclusive | components/ProfileSettings.tsx:15-21 | exactly three and twelve months belong to the younger group |
| Auth.HandleSubmit | components/Auth.tsx:31-59 | login mode gives the fixed demo profile; sign-up passes the names, phone, gender and language through, parses the dates and numbers, and computes the age group |
| Auth.DemoAgeGroupIsFixed | components/Auth.tsx:34-44 | the demo profile stays INFANT even after its birth date would make it a toddler |
| Auth.SpacePhoneIsNotDefaulted | components/Auth.tsx:52 | a phone of one space, which the `required` field accepts, is kept: the alert goes to "https://wa.me/ ?text=…", not to the default number |
| Login.HandleSubmit | components/Login.tsx:25-40 | nothing exactly when the name or the birth date is empty; otherwise the parsed weight if truthy else 3.5, height 50, and the computed age group |
| Login.WeightAlwaysTruthy | components/Login.tsx:34 | the weight is never zero or NaN |
| ProfileSettings.MergeMqtt | components/ProfileSettings.tsx:33-41 | each field the update sets wins; the others keep the existing value, or the default when there is no configuration |
| ProfileSettings.MergeIdempotent | components/ProfileSettings.tsx:34-40 | applying the same update twice equals applying it once |
| ProfileSettings.MergeCompose | components/ProfileSettings.tsx:34-40 | two updates in a row equal their combination, with the later one's fields winning |
| ProfileSettings.FirstToggleUsesDefaults | components/ProfileSettings.tsx:37 | the first toggle on a profile without a configuration fills in the default broker and topic |
| ProfileSettings.ProfileForm.constructor | components/ProfileSettings.tsx:13 | the working copy starts as the profile |
| ProfileSettings.ProfileForm.SetName | components/ProfileSettings.tsx:60 | only the name changes |
| ProfileSettings.ProfileForm.SetWeight | components/ProfileSettings.tsx:130 | only the weight changes |
| ProfileSettings.ProfileForm.SetHeight | components/ProfileSettings.tsx:142 | only the height changes |
| ProfileSettings.ProfileForm.SetGender | components/ProfileSettings.tsx:155 | only the gender changes |
| ProfileSettings.ProfileForm.UpdateMqtt | components/ProfileSettings.tsx:33-41 | only the sensor configuration changes, to the merge above |
| ProfileSettings.ProfileForm.HandleSave | components/ProfileSettings.tsx:23-31 | the saved profile is the working copy with the age group recomputed from its birth date; nothing else changes |
| ProfileSettings.SaveIgnoresStoredAgeGroup | components/ProfileSettings.tsx:23-31 | the age group the working copy came in with plays no part in the saved profile |
| Seqs.Find | components/Dashboard.tsx:17 | `find`: none exactly when no element qualifies; otherwise the first one that does |
| Seqs.FilterMultiset | components/ReportView.tsx:30 | `filter` keeps exactly the qualifying elements, each as often as it occurs |

## Left out

- Sound synthesis is not modelled. The Web Audio oscillator, gain node and audio context are abstracted: a beep is a `Tone` value, and the audio context is a flag.
- Timers are not modelled as firing. A live `setInterval` is a `Timer` value held in the model, so only its lifecycle is captured.
- React scheduling is not modelled. State updates take effect at once. The logs effect is one synchronous call per change of the log list, and stale closures are not modelled.
- `window.open`, `window.print` and `alert()` are left out. Escalation returns the link it would open.
- `JSON.stringify`, `encodeURIComponent`, `parseFloat`, `new Date(text)` and the locale time formatting are function parameters.
- The clock and the `Date.now()` ids are parameters. `Math.random` ids are not part of this model.
- Asynchronous calls are not modelled, nor is the text they return. This covers the daily digest, the Gemini service, report generation and the chat reply.
  - Only the state changes around the chat call are modelled, as `ChatSession.Send` and `ChatSession.Receive`.
- The MQTT client, meal scanner, landing page, static documents and build configuration are not part of this model.
- Voice input and read-aloud (`toggleListening`, `handleSpeak`) are left out. They drive browser speech APIs.
- The optional `isThinking` flag of a chat message is not part of this model. No modelled code reads it.
- Rendering is not modelled. The model stops at the values rendered: blocks, points, cells and captions.
- Numbers are exact reals, or NaN where a parse can fail.
  - Floating-point rounding is not modelled.
  - `Math.round` is floor(x + 1/2).
- Nutrition.CalculateRDAContribution: requires a positive weight. The source divides by it, and the result for zero or negative weights is not modelled.
- Text.ToLower: folds only ASCII letters. Other scripts keep their case.
- HealthCharts.SortByTime: proves sorted order and permutation, but not that equal timestamps keep their input order (the stability of `Array.prototype.sort`).
- The model is not concerned with whether `logs` is reordered in place. All lists are values, and filtering makes a copy before sorting.
- Labels keep the source's spelling. The temperature label and unit in `components/LogModal.tsx` and `components/ReportView.tsx` read "Â°C" (U+00C2 U+00B0 C), and the model keeps those characters.
- The browser's `required` validation of the sign-up inputs (name, parent name, phone and birth date, components/Auth.tsx:94-120) is not modelled: `Auth.HandleSubmit` also accepts forms with empty fields, which the browser would block before the submit.
- The three copies of `calculateAgeGroup` are modelled once, as `AgeGroups.CalculateAgeGroup`.
- The profile's `doctorPhone`, `gender` and `mqttConfig` are declared in the model. `types.ts` does not declare them, though the components read and write them.
- The severity labels "STABLE", "WARNING" and "EMERGENCY" (`Types.Severity.Label`) are assumed. `types.ts` does not declare `SeverityLevel`, so the text these labels put into the alert message (`App.AlertMessageLines`, App.tsx:96) and the banner (App.tsx:145) rests on that assumption.
