# medic-tech-twin: verified model of the dashboard's decision rules

medic-tech-twin is a patient health dashboard. It is a set of React views over hard-coded data. Beneath the markup sits a thin layer of decision rules and list updates, and this project models that layer in Dafny and proves what it promises:

- **Vital-sign classifiers.**
  - Temperature, blood pressure and pulse in the health diary.
  - Heart rate and stress on the fitness-watch page.
  - Sleep, water and steps gauges, with their progress bars, in the lifestyle journal.
  - A zero or unparseable reading gives no status.
- **The assistant's keyword router.** It lower-cases the question, tries twelve keyword groups in a fixed order, lets the first group with a keyword inside the question win, and otherwise answers with a fixed fallback.
- **Record lists.**
  - The diary, the journal and the recommendations prepend a new record and reset their form.
  - The chat appends a user message and later the reply.
  - The recommendations toggle a field by id and are split into active and completed.
- **The sparkline.** Each vital-sign card rescales its history between minimum and maximum, with a 10% floor.
- **Filters and matching.**
  - The age-group match of the check-up schedule.
  - The first three active prescriptions.
  - The recommended/other split of the vaccination schedule.
  - The body map's quick overview of parts that are not in good shape.

Each component file is one module:

- `health_diary.dfy`, `ai_assistant.dfy`, `recommendations.dfy`, `lifestyle.dfy` and `fitness_tracker.dfy`:
  - the pure rules are functions;
  - the component state that the handlers update is a class whose methods change its fields.
- `health_tracking.dfy`, `checkup_tab.dfy`, `overview_tab.dfy`, `vaccination_tab.dfy` and `human_body_model.dfy` are pure.
- `assistant_replies.dfy` holds the fact that the assistant's canned answers are pairwise distinct.
- `text.dfy` holds lower-casing, substring containment and first-match rule tables.
- `seqs.dfy` holds `filter` and `slice(0, n)`, with their order and partition facts.
- `display.dfy` holds the badge and the "`!x`" test on a parsed number.
- `wrappers.dfy` holds `Option`.

Outside inputs are parameters:

- a parsed number is an `Option` (`None` for NaN);
- `Date.now()` ids and dates;
- the clock's hour;
- the `Math.random()` draws.

## Model

| member | source | states |
|---|---|---|
| HealthDiary.TemperatureStatus | src/components/HealthDiary.tsx:71-77 | no status for 0 or NaN; "Низкая" below 36, "Норма" on [36, 37.2], "Высокая" above 37.2, each as an if-and-only-if |
| HealthDiary.PressureStatus | src/components/HealthDiary.tsx:79-86 | no status when either side is 0 or NaN; "Высокое" iff systolic > 140 or diastolic > 90 (even when the other side is low); "Норма" iff 90 ≤ s ≤ 140 and 60 ≤ d ≤ 90; "Низкое" in the remaining cases |
| HealthDiary.PulseStatus | src/components/HealthDiary.tsx:88-94 | no status for 0 or NaN; 60 and 100 are "Норма", below 60 "Низкий", above 100 "Высокий" |
| HealthDiary.PressureIsWorseSide | src/components/HealthDiary.tsx:79-86 | the pressure badge equals the worse of the systolic severity on [90, 140] and the diastolic severity on [60, 90], with normal < low < high |
| HealthDiary.HighBeforeLow | src/components/HealthDiary.tsx:83-84 | a systolic above 140 is high whatever the diastolic reading |
| HealthDiary.Diary.constructor | src/components/HealthDiary.tsx:21-47 | the two initial entries, newest first (24 Nov 08:00: 36.6 °C, 120/80, pulse 72; 23 Nov 20:00: 36.8 °C, 125/82, pulse 75), and an empty form |
| HealthDiary.Diary.Edit | src/components/HealthDiary.tsx:124-165 | an input's change sets exactly that form field; entries unchanged |
| HealthDiary.Diary.Submit | src/components/HealthDiary.tsx:49-69 | without temperature, systolic and pulse (`HasReading`) nothing changes (diastolic alone does not count); otherwise exactly one entry from the form is prepended, earlier entries keep their order, and the form is emptied |
| Text.Lower | src/components/AIAssistant.tsx:48 | lower-casing keeps the length, leaves no upper-case Latin or Cyrillic letter and changes no other character |
| Text.LowerIdempotent | src/components/AIAssistant.tsx:48 | lower-casing twice equals lower-casing once |
| Text.FirstFiring | src/components/AIAssistant.tsx:50-98 | the index found is the first rule whose keyword occurs in the text, every earlier rule having none |
| Text.Dispatch | src/components/AIAssistant.tsx:50-98 | the first rule that fires gives the outcome; with no rule firing, the fallback |
| AIAssistant.Route | src/components/AIAssistant.tsx:47-98 | the answer is the fallback iff no group's keyword occurs in the lower-cased message; otherwise it is the first firing group's answer, with ties broken only by order |
| AIAssistant.RouteIgnoresCase | src/components/AIAssistant.tsx:48 | a message and its lower-cased form get the same answer |
| AIAssistant.MedicationWins | src/components/AIAssistant.tsx:50-56 | any message containing "лекарств" gets the medication answer, whatever else it contains (pressure keywords included) |
| AIAssistant.QuickQuestionsRouted | src/components/AIAssistant.tsx:38-72 | the six suggested questions route to medication, pressure, tests, sleep, exercise and headache respectively, none to the fallback |
| AIAssistant.HeadacheBySubstring | src/components/AIAssistant.tsx:70-72 | matching is by substring: "Головной" routes to the headache answer through "голов" |
| AIAssistant.Reply | src/components/AIAssistant.tsx:50-98 | the fallback text is given iff the topic is the fallback |
| AssistantReplies.ReplyDistinct | src/components/AIAssistant.tsx:50-98 | each topic has its own answer: two topics with the same answer are the same topic |
| AIAssistant.Response | src/components/AIAssistant.tsx:47-98 | `getAssistantResponse` gives the fallback text iff no group's keyword occurs in the lower-cased message |
| AIAssistant.Chat.constructor | src/components/AIAssistant.tsx:18-27 | the chat starts with the welcome message, an empty input and typing off |
| AIAssistant.Chat.SetInput | src/components/AIAssistant.tsx:127-129 | a suggestion or typed text replaces the input; messages unchanged |
| AIAssistant.Chat.Send | src/components/AIAssistant.tsx:101-113 | a blank (whitespace-only) input changes nothing; otherwise exactly one user message with the input is appended after the existing ones, the input is cleared, typing turns on and a reply is scheduled |
| AIAssistant.Chat.KeyPress | src/components/AIAssistant.tsx:131-136 | Enter without Shift on a non-blank input sends exactly as `Send` does: the user message is appended, the input cleared, typing turned on and the text queued for its reply; any other key, or a blank input, changes nothing |
| AIAssistant.Chat.DeliverReply | src/components/AIAssistant.tsx:115-124 | the delayed step appends exactly one assistant message whose content is the routed answer to the text that was sent, and turns typing off |
| Recommendations.RecordOf | src/components/Recommendations.tsx:94-105 | a submitted record carries the form's fields and priority, the given id and date, and is not completed |
| Recommendations.WithCompletedToggled | src/components/Recommendations.tsx:120-124 | length and order are kept; `completed` flips exactly on the records with the id; no other field of any record changes |
| Recommendations.WithReminderToggled | src/components/Recommendations.tsx:126-130 | the same for `reminder` |
| Recommendations.ToggleCompletedTwice | src/components/Recommendations.tsx:120-124 | toggling `completed` twice with one id restores the list |
| Recommendations.ToggleReminderTwice | src/components/Recommendations.tsx:126-130 | toggling `reminder` twice with one id restores the list |
| Recommendations.TogglesCommute | src/components/Recommendations.tsx:120-130 | the two toggles commute |
| Recommendations.Active | src/components/Recommendations.tsx:160 | holds only uncompleted records and every uncompleted record |
| Recommendations.Completed | src/components/Recommendations.tsx:161 | holds only completed records and every completed record |
| Recommendations.ActiveCompletedPartition | src/components/Recommendations.tsx:160-161 | the two lists partition the records (multisets add up, lengths add up, no record in both) and each keeps list order |
| Recommendations.InitialSplit | src/components/Recommendations.tsx:26-74 | of the initial records three are active and one completed |
| Recommendations.SpecialistIcon | src/components/Recommendations.tsx:150-158 | the icon of the first specialty stem inside the lower-cased type, in table order; "UserCircle" iff no stem occurs |
| Recommendations.FixtureIcons | src/components/Recommendations.tsx:150-158 | the four initial specialties get Heart, Activity, Stethoscope and UtensilsCrossed |
| Recommendations.PriorityLabel | src/components/Recommendations.tsx:141-148 | "Высокий" iff "high", "Низкий" iff "low", "Средний" for every other string |
| Recommendations.PriorityVariant | src/components/Recommendations.tsx:132-139 | destructive iff "high", secondary iff "low", default for every other string |
| Recommendations.PriorityLabelMatchesVariant | src/components/Recommendations.tsx:132-148 | label and colour always agree |
| Recommendations.Board.constructor | src/components/Recommendations.tsx:26-85 | the initial records, a blank form (reminder off, priority "medium") and the form hidden |
| Recommendations.Board.ToggleForm | src/components/Recommendations.tsx:170 | the header button flips the form's visibility and nothing else |
| Recommendations.Board.Fill | src/components/Recommendations.tsx:193-262 | the form's inputs set the form; records unchanged |
| Recommendations.Board.Submit | src/components/Recommendations.tsx:87-118 | with an empty specialist or title (`Complete` fails) nothing changes; otherwise one uncompleted record with the form's priority is prepended (length + 1, old records kept in order), the form is reset and hidden |
| Recommendations.Board.ToggleCompleted | src/components/Recommendations.tsx:120-124 | the records become `WithCompletedToggled` of the old ones; form and visibility unchanged |
| Recommendations.Board.ToggleReminder | src/components/Recommendations.tsx:126-130 | the records become `WithReminderToggled` of the old ones; form and visibility unchanged |
| Lifestyle.SleepStatus | src/components/Lifestyle.tsx:64-70 | no status for 0 or NaN; below 6 hours "Мало" with bar h/8·100; above 9 "Много" with a full bar; otherwise "Норма" with the uncapped bar h/8·100, in [75, 112.5] |
| Lifestyle.WaterStatus | src/components/Lifestyle.tsx:72-77 | no status for 0 or NaN; "Мало" iff below 6 glasses, "Хорошо" iff 6 or more; the bar never exceeds 100 |
| Lifestyle.StepsStatus | src/components/Lifestyle.tsx:79-85 | no status for 0 or NaN; "Мало" iff below 5000, "Хорошо" iff 5000–9999, "Отлично" iff 10000 or more; for positive steps the bar is in (0, 100] and is full from 10000 |
| Lifestyle.StepsProgressIsCappedShare | src/components/Lifestyle.tsx:82-84 | whatever the label, the steps bar is min(steps/100, 100) |
| Lifestyle.WaterProgressIsCappedShare | src/components/Lifestyle.tsx:75-76 | whatever the label, the water bar is min(glasses·12.5, 100) |
| Lifestyle.SleepProgressOverfills | src/components/Lifestyle.tsx:69 | the sleep bar is not capped in the normal band: 8.5 hours give 106.25 |
| Lifestyle.TodaySummary | src/components/Lifestyle.tsx:87-90 | with no entries no gauge; otherwise each gauge is drawn iff the newest entry's field is non-empty and parses to a non-zero number, and each drawn gauge is that entry's sleep, water or steps status |
| Lifestyle.SummaryUsesNewestOnly | src/components/Lifestyle.tsx:87-90 | older entries never influence the summary |
| Lifestyle.Journal.constructor | src/components/Lifestyle.tsx:23-43 | the one initial entry (24 Nov: 7.5 h of sleep, 6 glasses, 8500 steps, 30 minutes of exercise, 3 meals, with its note) and an empty form |
| Lifestyle.Journal.Fill | src/components/Lifestyle.tsx:197-273 | the inputs set the form; entries unchanged |
| Lifestyle.Journal.Submit | src/components/Lifestyle.tsx:45-62 | with no validation, the form always becomes the new first entry, older entries keep their order, and every field is reset |
| FitnessTracker.HeartRateStatus | src/components/FitnessTracker.tsx:84-88 | "Низкий" iff below 60, "Норма" iff 60–100 inclusive, "Высокий" iff above 100 |
| FitnessTracker.StressLevel | src/components/FitnessTracker.tsx:90-94 | "Низкий" iff below 30, "Средний" iff 30–59, "Высокий" iff 60 or more |
| FitnessTracker.StressLevelsPartition | src/components/FitnessTracker.tsx:91-93 | every stress value gets one of the three levels |
| FitnessTracker.StressBarColor | src/components/FitnessTracker.tsx:293-295 | green iff below 30, red iff 60 or more, yellow between |
| FitnessTracker.BarColorAgreesWithLevel | src/components/FitnessTracker.tsx:293-295 | the hourly bars and the live badge use the same 30/60 thresholds: green, yellow and red agree |
| FitnessTracker.Scaled | src/components/FitnessTracker.tsx:73-76 | `Math.floor(draw · n)` for a draw in [0, 1) is a whole number from 0 to n − 1 |
| FitnessTracker.Clamp | src/components/FitnessTracker.tsx:76 | the result lies in [lo, hi]: lo for a value below, hi for a value above, and the value itself when it already lies inside |
| FitnessTracker.Jitter | src/components/FitnessTracker.tsx:71-77 | after a tick heart rate moves by −3 to +2, steps grow by 0 to 9, calories by 0 to 4, stress stays in [0, 100] (moving by −5 to +4 from an in-range value), and every other metric is unchanged |
| FitnessTracker.RunBounds | src/components/FitnessTracker.tsx:69-82 | `Run` applies the ticks in order; over any number of ticks stress stays in [0, 100], steps and calories never fall, heart rate drifts by at most 3 down or 2 up per tick, distance and oxygen stay |
| FitnessTracker.TodayData | src/components/FitnessTracker.tsx:99-100 | the prefix of the hourly table of length currentHour + 1 (the whole table when shorter) |
| FitnessTracker.TodayEndsAtCurrentHour | src/components/FitnessTracker.tsx:99-100 | at every hour 0–23 the slice has hour + 1 rows and ends with that hour's row |
| FitnessTracker.Round | src/components/FitnessTracker.tsx:289 | `Math.round` gives the whole number within half of its argument, halves rounded up |
| FitnessTracker.StressSumBounds | src/components/FitnessTracker.tsx:289 | when every row's stress lies in [lo, hi], the sum `StressSum` lies between n·lo and n·hi |
| FitnessTracker.AverageStress | src/components/FitnessTracker.tsx:289 | the badge is the mean stress of the rows rounded to the nearest whole (within half of it) |
| FitnessTracker.AverageWithinRange | src/components/FitnessTracker.tsx:289 | the "average stress" badge never leaves the range of the hourly values |
| FitnessTracker.GoalPercent | src/components/FitnessTracker.tsx:326 | the percentage is value/target·100 rounded to the nearest whole (within half of it); a non-negative value shows a non-negative percentage, and a value at or past the target shows at least 100 |
| FitnessTracker.Goals | src/components/FitnessTracker.tsx:322-353 | the four goals show steps/10000, kcal/2500, minutes/150 and km/8, each times 100 and rounded to the nearest whole (within half); reaching a target shows at least 100 |
| FitnessTracker.GoalPercentMonotone | src/components/FitnessTracker.tsx:326 | a larger value never shows a smaller percentage |
| FitnessTracker.GoalNotCapped | src/components/FitnessTracker.tsx:326 | percentages are not capped: 15000 steps show 150 |
| FitnessTracker.Watch.constructor | src/components/FitnessTracker.tsx:29-40 | connected, synced now, the initial metrics |
| FitnessTracker.Watch.ToggleConnection | src/components/FitnessTracker.tsx:128 | the button flips the connection and nothing else |
| FitnessTracker.Watch.Tick | src/components/FitnessTracker.tsx:70-79 | one interval step: the metrics become `Jitter` of the old ones, the sync time is updated, the connection is untouched |
| HealthTracking.MaxOf | src/components/HealthTracking.tsx:198 | the result is at least every value and is one of them |
| HealthTracking.MinOf | src/components/HealthTracking.tsx:199 | the result is at most every value and is one of them |
| HealthTracking.Range | src/components/HealthTracking.tsx:200 | positive; the spread max − min, or 1 when the history is flat |
| HealthTracking.Bars | src/components/HealthTracking.tsx:197-213 | one bar per value, every height in [10, 100], a larger value never drawn lower, and exactly the last bar highlighted |
| HealthTracking.Scale | src/components/HealthTracking.tsx:210 | the larger of the share (v − min)/range·100 and the floor 10; exactly 10 when v − min is at most a tenth of the range |
| HealthTracking.Height | src/components/HealthTracking.tsx:201-210 | a bar's height is at least 10, and exactly 10 for values within the lowest tenth of the spread |
| HealthTracking.HeightInRange | src/components/HealthTracking.tsx:201-210 | heights lie in [10, 100] and follow the order of the values |
| HealthTracking.FlatHistoryAtFloor | src/components/HealthTracking.tsx:200-210 | a constant history draws every bar at the 10% floor |
| HealthTracking.ExtremesDrawnFullAndFloor | src/components/HealthTracking.tsx:198-210 | in a history that moves, the maximum is drawn at 100 and the minimum at the floor of 10 |
| HealthTracking.StatusBadge | src/components/HealthTracking.tsx:135-142 | a badge for "normal", "warning" and "critical", each its own; none for any other status |
| CheckupTab.IsCurrentAgeGroup | src/components/schedule/CheckupTab.tsx:20-25 | "18-39 лет" matches iff 18 ≤ age ≤ 39, "40-64 лет" iff 40 ≤ age ≤ 64, "65+ лет" iff age ≥ 65; no other label matches, and never an age under 18 |
| CheckupTab.AgeGroupsPartition | src/components/schedule/CheckupTab.tsx:20-25 | for any age at most one of the three labels matches; none under 18; exactly one from 18 on; any other label never matches |
| CheckupTab.Card | src/components/schedule/CheckupTab.tsx:44-64 | "current group" iff the label matches the age; the next check-up date is shown iff the check-up is completed and has a non-empty next date |
| OverviewTab.VitalBadge | src/components/doctor/OverviewTab.tsx:60 | "Норма" iff status is "normal", "Отклонение" otherwise |
| OverviewTab.ActiveDiagnoses | src/components/doctor/OverviewTab.tsx:83 | only and all active diagnoses, each as often as in the list, in original order |
| OverviewTab.ActivePrescriptions | src/components/doctor/OverviewTab.tsx:106 | only and all active prescriptions, each as often as in the list, in original order |
| OverviewTab.ShownPrescriptions | src/components/doctor/OverviewTab.tsx:106 | at most 3 shown, min(3, #active) of them, all active, and they are the first active ones in order |
| OverviewTab.FirstShownIsFirstActive | src/components/doctor/OverviewTab.tsx:106 | the first shown prescription is the first active one in the list |
| OverviewTab.NoActiveNoneShown | src/components/doctor/OverviewTab.tsx:106 | with no active prescription nothing is shown |
| VaccinationTab.Recommended | src/components/schedule/VaccinationTab.tsx:28 | only and all recommended vaccinations |
| VaccinationTab.Other | src/components/schedule/VaccinationTab.tsx:29 | only and all other vaccinations |
| VaccinationTab.RecommendedOtherPartition | src/components/schedule/VaccinationTab.tsx:28-29 | the two lists partition the schedule (multisets and lengths add up, none in both) and keep its order |
| VaccinationTab.RecommendedCard | src/components/schedule/VaccinationTab.tsx:62-76 | "Выполнено" iff completed; the next dose is shown iff a non-empty next date is present |
| VaccinationTab.OtherCard | src/components/schedule/VaccinationTab.tsx:104 | "Выполнено" iff completed; never a next-dose line |
| VaccinationTab.DoneBadgeAgrees | src/components/schedule/VaccinationTab.tsx:62 | both lists mark completion the same way |
| VaccinationTab.AgeGroupCard | src/components/schedule/VaccinationTab.tsx:125-144 | an age-group card is titled with its group, outlined in the primary colour iff `isCurrentAge`, carries the "Ваша группа" badge iff it is outlined, and lists one secondary badge per vaccine, in order |
| HumanBodyModel.StatusColor | src/components/HumanBodyModel.tsx:28-35 | green, amber and red for the three statuses, each an if-and-only-if; grey iff the status is unknown |
| HumanBodyModel.StatusBadge | src/components/HumanBodyModel.tsx:37-44 | a badge for "good", "warning" and "attention", each its own; none for an unknown status |
| HumanBodyModel.FindPart | src/components/HumanBodyModel.tsx:88-90 | none iff no part has the id; otherwise the first part with that id |
| HumanBodyModel.ShapeColor | src/components/HumanBodyModel.tsx:88 | a shape whose id is missing is coloured as good; otherwise by its part's status |
| HumanBodyModel.Advice | src/components/HumanBodyModel.tsx:235-239 | the specialist advice iff "attention", the observation advice iff "warning", the normal advice for anything else |
| HumanBodyModel.QuickOverview | src/components/HumanBodyModel.tsx:269-271 | only and all parts whose status is not "good", each as often as in the table, in table order |
| HumanBodyModel.AllNormalIffAllGood | src/components/HumanBodyModel.tsx:281-285 | the "all normal" message is shown iff every part is good |
| HumanBodyModel.InitialOverview | src/components/HumanBodyModel.tsx:18-26 | for the initial table the overview is the chest, then the left leg |
| Seqs.Filter | src/components/doctor/OverviewTab.tsx:83 | only kept elements, every kept element, never longer than the input |
| Seqs.Take | src/components/doctor/OverviewTab.tsx:106 | the first min(n, length) elements |
| Seqs.FilterKeepsOrder | src/components/schedule/VaccinationTab.tsx:28-29 | filtering keeps relative order |
| Seqs.FilterPartition | src/components/schedule/VaccinationTab.tsx:28-29 | filtering by a predicate and by its negation splits the input, element counts included |
| Seqs.FilterCount | src/components/doctor/OverviewTab.tsx:83 | filtering keeps each kept value exactly as many times as the input holds it, and no other value |
| Seqs.FilterHead | src/components/doctor/OverviewTab.tsx:106 | the first kept element is the first element that satisfies the predicate |

## Left out

- Parsing: `parseInt` and `parseFloat` are not modelled. Each classifier receives the parsed value as an `Option`, with `None` for NaN. `Lifestyle.TodaySummary` takes the two parsers as function parameters.
- Clock and ids: `Date.now()`, `new Date()`, `toISOString` and `toTimeString` are not modelled. The methods take the id, date, time or sync time as a parameter.
- Randomness: `Math.random()` is a parameter. Each tick receives four draws in [0, 1).
- Timers: `setInterval` and `setTimeout` are not modelled. A tick is one call of `FitnessTracker.Watch.Tick`, and a delayed reply is one call of `AIAssistant.Chat.DeliverReply`.
- Reply order: `AIAssistant.Chat` keeps a queue of sent texts (`pending`). This relies on replies arriving in send order. That holds because every reply uses the same 1.5 s delay, and because the input and the Send button are disabled while `isTyping` (`AIAssistant.tsx:243,245`), so at most one text is pending at a time.
- Lower-casing: only the basic Latin and Cyrillic upper-case letters are folded. Full Unicode `toLowerCase` is not modelled; every keyword and fixture text in the core lies in these blocks.
- Numbers: JavaScript floats are modelled as exact `real` values, and floating-point error is not modelled. `Math.round` is floor(x + 0.5), which agrees with JavaScript for finite values.
- Message timestamps, `scrollIntoView`, and locale formatting of dates and numbers are display-only and not modelled.
- Markup and styling are not modelled:
  - icons, CSS classes and component wrappers;
  - the class-name overrides on the "normal" and "warning" badges, which are modelled with the default variant.
- Lookup tables with defaults and no further behaviour are not modelled: `getStatusColor` and `getTrendIcon` in `HealthTracking.tsx`, and its icon-background ternary.
- Form filling:
  - `Recommendations.Board.Fill` and `Lifestyle.Journal.Fill` stand for the per-field `onChange` handlers, which each set one field.
  - The diary models them one field at a time (`HealthDiary.Diary.Edit`).
- Body map: the `selectedPart` and `viewMode` selection state is UI only and is not modelled. Each of the seven shapes' fills is `HumanBodyModel.ShapeColor` with that shape's id.
- Inputs computed elsewhere: `isRecommended`, `isCurrentAge` and `currentAge` come from `HealthSchedule.tsx`, which is not part of this model. The vital signs, diagnoses and prescriptions of the overview tab come from `DoctorPanel.tsx`, which is not part of this model either.
- FitnessTracker.AverageStress: it requires a non-empty slice. The source divides by the slice length, which is at least 1 because the table has 24 rows and the hour is at least 0.
