# MindFlow (emotisense-flow) in Dafny

This project models the logic of MindFlow, a mood-tracking wellness app, and proves properties of that model. It covers three parts of the app:

- **The React client.** This is the shared mood store (`MoodProvider`) and the state machines of the screens: the daily check-in gate, the mood scanner, the dashboard, the calendar form, the Feel & Heal room, the cognitive quests, the wellness reminders, the AI chat and the AI journal. It also covers the derived values: the weekly mood distribution and the productivity castle.
- **The `analyze-mood` edge function.** The model covers how it dispatches on the analysis type, maps the AI gateway's HTTP status, extracts the JSON span and falls back when extraction fails, and builds its error envelope.
- **The NestJS backend.** The model covers the two DTO validation rules and the owner-scoped `create`/`findAll` of the mood and event services. The document store is modelled as a sequence of records.

Each source file is one Dafny module, named after its file. State the source changes in place is a `class` whose methods carry `modifies` clauses. Pure lookups and derived values are functions, and lemmas state their properties.

Anything the code reads from outside the model is a parameter:

- the clock and generated ids;
- random picks;
- the browser's notification permission;
- the AI service's reply;
- `JSON.parse` and ISO-date recognition and parsing.

An asynchronous handler is split in two methods:

- one that runs up to the `await` and returns the request it sends;
- one that takes the call's outcome and finishes.

Shared modules:

- `Wrappers`: `Option` and `Result`.
- `Text`: JavaScript's `trim` over the ECMAScript whitespace set.
- `DocumentStore`: the store's `find({ userId })`.

Where the code and its description disagree, the model follows the code:

- **`startBalloonQuest`** (`src/components/CognitiveQuests.tsx:55-60`) reads as if it starts the game with no balloons. It clears the list and then calls `spawnBalloon`. React applies that call's functional update after the reset, so the game starts with exactly one balloon. `CognitiveQuests.QuestBoard.StartBalloonQuest` states this.

## Model

| member | source | states |
|---|---|---|
| MoodContext.ParseMood | src/lib/mood-context.tsx:3 | a string names a mood exactly when it is one of the seven mood names, and then it names that mood |
| MoodContext.ParseName | src/lib/mood-context.tsx:3 | every mood's name reads back as that mood |
| MoodContext.AllMoodsListsEachMoodOnce | src/lib/mood-context.tsx:3 | the mood keys list each of the seven moods exactly once |
| MoodContext.ThemeRule | src/lib/mood-context.tsx:19-27 | neutral has no theme, sad shares calm's theme, energetic shares happy's theme, and every other mood has its own `theme-<mood>` |
| MoodContext.TablesDistinguishMoods | src/lib/mood-context.tsx:73-91 | the emoji and colour tables cover all seven moods with non-empty values that tell any two moods apart |
| MoodContext.MoodProvider.constructor | src/lib/mood-context.tsx:32-36 | the current mood starts as neutral and the history is the stored one |
| MoodContext.MoodProvider.CurrentTheme | src/lib/mood-context.tsx:38 | the body theme is the `moodToTheme` entry of the current mood, so it is empty exactly when the mood is neutral |
| MoodContext.MoodProvider.SetCurrentMood | src/lib/mood-context.tsx:32 | sets the current mood and leaves the history alone |
| MoodContext.MoodProvider.AddMoodEntry | src/lib/mood-context.tsx:48-56 | appends exactly one entry (mood, clock reading, note) at the end, keeps the old history as a prefix, and makes the mood current |
| MoodContext.UseMood | src/lib/mood-context.tsx:65-70 | outside a provider the hook fails with "useMood must be used within a MoodProvider"; inside one it returns the provider |
| CognitiveQuests.NewBalloon | src/components/CognitiveQuests.tsx:62-70 | a spawned balloon is unpopped, carries the clock reading as its id, and carries one of the eight thought/reframe pairs |
| CognitiveQuests.MarkPoppedAt | src/components/CognitiveQuests.tsx:86-88 | popping sets `popped` on exactly the balloons with the tapped id and changes nothing else |
| CognitiveQuests.RemoveIdMembers | src/components/CognitiveQuests.tsx:95 | the clean-up keeps exactly the balloons with another id |
| CognitiveQuests.RemoveIdAppend | src/components/CognitiveQuests.tsx:95 | the clean-up filters piece by piece, so the kept balloons stay in order |
| CognitiveQuests.RemoveAbsentId | src/components/CognitiveQuests.tsx:95 | removing an id no balloon has leaves the list unchanged |
| CognitiveQuests.PopThenRemove | src/components/CognitiveQuests.tsx:85-96 | a pop followed by its delayed clean-up leaves exactly the other balloons, unchanged and in order |
| CognitiveQuests.FindPair | src/components/CognitiveQuests.tsx:107 | `find` returns the first card with both the feeling and the solution, or nothing when no card has both |
| CognitiveQuests.CountsSplit | src/components/CognitiveQuests.tsx:115 | the matched and unmatched counts add up to the number of cards, and all cards are matched exactly when the matched count is the number of cards |
| CognitiveQuests.NoneMatched | src/components/CognitiveQuests.tsx:102 | a reset puzzle has a matched count of zero |
| CognitiveQuests.MarkMatchedAt | src/components/CognitiveQuests.tsx:109-111 | matching sets `matched` on exactly the cards with that feeling and changes nothing else |
| CognitiveQuests.MarkMatchedCount | src/components/CognitiveQuests.tsx:108-112 | matching the one unmatched card with a given feeling raises the matched count by exactly one |
| CognitiveQuests.MarkUnusedFeeling | src/components/CognitiveQuests.tsx:109-111 | matching a feeling no card has changes nothing |
| CognitiveQuests.MarkMatchedKeepsCards | src/components/CognitiveQuests.tsx:109-111 | matching never changes a card's feeling, trigger or solution |
| CognitiveQuests.PuzzleScoreBound | src/components/CognitiveQuests.tsx:36-41 | with the four puzzle cards, 25 points per match never exceeds 100 |
| CognitiveQuests.QuestBoard.constructor | src/components/CognitiveQuests.tsx:48-53 | no game is open, the score is 0, there are no balloons, nothing is selected, and the cards are the puzzle data |
| CognitiveQuests.QuestBoard.StartBalloonQuest | src/components/CognitiveQuests.tsx:55-60 | opens the balloon game with score 0 and exactly one fresh balloon; the invariant (at most five balloons, the four cards, puzzle score = 25 per match) is kept |
| CognitiveQuests.QuestBoard.SpawnTick | src/components/CognitiveQuests.tsx:74-83 | the timer spawns one balloon at the end exactly when the balloon game is open and fewer than five balloons exist; otherwise nothing changes |
| CognitiveQuests.QuestBoard.TapBalloon | src/components/CognitiveQuests.tsx:238 | a tap pops an unpopped balloon (its id marked, +10, reframe shown); a popped balloon ignores the tap |
| CognitiveQuests.QuestBoard.FinishPop | src/components/CognitiveQuests.tsx:93-96 | the delayed clean-up hides the reframe and drops the balloons with that id |
| CognitiveQuests.QuestBoard.Close | src/components/CognitiveQuests.tsx:203 | closing a game changes only which game is open |
| CognitiveQuests.QuestBoard.StartPuzzleQuest | src/components/CognitiveQuests.tsx:99-104 | opens the puzzle with every card unmatched, score 0 and nothing selected |
| CognitiveQuests.QuestBoard.SelectFeeling | src/components/CognitiveQuests.tsx:293 | a feeling card is selected unless it is already matched |
| CognitiveQuests.QuestBoard.HandlePuzzleMatch | src/components/CognitiveQuests.tsx:106-127 | a correct, unmatched pair marks that card, adds exactly 25 and clears the selection; any other pair changes nothing; completion is reported exactly when one card was unmatched before, and then all cards are matched and the score is 100 |
| WellnessReminders.PadStart | src/components/WellnessReminders.tsx:43 | `padStart` gives the text at least the width: the added characters are all the fill character, followed by the original text |
| WellnessReminders.TwoDigitsValue | src/components/WellnessReminders.tsx:43 | a number below 100 zero-padded to two places is two digits whose value is the number |
| WellnessReminders.ClockText | src/components/WellnessReminders.tsx:43 | the current time is five characters `HH:MM` whose digits spell the hour and the minute |
| WellnessReminders.ToggledAt | src/components/WellnessReminders.tsx:90-94 | toggling flips `isActive` on exactly the reminders with the id and changes nothing else |
| WellnessReminders.ToggleTwice | src/components/WellnessReminders.tsx:90-94 | toggling the same id twice restores the list |
| WellnessReminders.RemovedMembers | src/components/WellnessReminders.tsx:96-97 | deleting keeps exactly the reminders with another id |
| WellnessReminders.RemovedAppend | src/components/WellnessReminders.tsx:96-97 | deleting filters piece by piece, so the rest keep their order |
| WellnessReminders.FirstDue | src/components/WellnessReminders.tsx:45 | the due reminder is the first in list order that is active and set to the current time; there is none exactly when no reminder is |
| WellnessReminders.NoticeBody | src/components/WellnessReminders.tsx:52 | the notification text is the message when it is non-empty, the title otherwise |
| WellnessReminders.RemindersPanel.constructor | src/components/WellnessReminders.tsx:26-33 | the stored list if there is one, else the four defaults; empty and closed form; no notification |
| WellnessReminders.RemindersPanel.EditForm | src/components/WellnessReminders.tsx:131-138 | typing sets the form's title and time |
| WellnessReminders.RemindersPanel.AddReminder | src/components/WellnessReminders.tsx:70-88 | an empty title or time changes nothing; otherwise one active reminder with no message is appended and the form is cleared and closed |
| WellnessReminders.RemindersPanel.ToggleReminder | src/components/WellnessReminders.tsx:90-94 | the list becomes the toggled list; nothing else changes |
| WellnessReminders.RemindersPanel.DeleteReminder | src/components/WellnessReminders.tsx:96-99 | the list becomes the filtered list; nothing else changes |
| WellnessReminders.RemindersPanel.CheckReminders | src/components/WellnessReminders.tsx:40-57 | at clock time `HH:MM`, the first due reminder becomes the notification only when none is showing; a system notice is raised for it only with permission; the list and the form are unchanged |
| WellnessReminders.RemindersPanel.NotifyIfDue | src/components/WellnessReminders.tsx:45-56 | the same decision for a given time text |
| WellnessReminders.RemindersPanel.DismissNotification | src/components/WellnessReminders.tsx:213 | the banner's close button clears the notification only |
| WellnessReminders.RemindersPanel.ToggleAddForm | src/components/WellnessReminders.tsx:113 | the add button flips the form's visibility only |
| WeeklyReport.CountedMoods | src/components/WeeklyReport.tsx:17-24 | the history's moods are counted when there is any history; otherwise the ten-entry sample is counted |
| WeeklyReport.SampleCounts | src/components/WeeklyReport.tsx:17-24 | the sample holds 2 happy, 3 calm, 2 neutral, 1 tired, 1 anxious, 1 energetic and no sad |
| WeeklyReport.CountMoods | src/components/WeeklyReport.tsx:12-28 | the `forEach` starts every mood at zero and ends with each count equal to the number of entries carrying that mood |
| WeeklyReport.CountsOf | src/components/WeeklyReport.tsx:26-28 | the counts table has every mood, with the number of entries carrying it |
| WeeklyReport.KeyRank | src/components/WeeklyReport.tsx:12-13 | each mood's place in the counts table's key order |
| WeeklyReport.ItemsForItems | src/components/WeeklyReport.tsx:30-37 | every item carries a positive count equal to its mood's count and its mood's colour and emoji; a key has an item exactly when its count is positive |
| WeeklyReport.ItemsForOrder | src/components/WeeklyReport.tsx:30-31 | the filter keeps the items in key order |
| WeeklyReport.ItemsForAllKeys | src/components/WeeklyReport.tsx:30-37 | over all seven keys, one well-formed item per mood with a positive count, in key order, no mood twice |
| WeeklyReport.DistributionShape | src/components/WeeklyReport.tsx:30-37 | the distribution holds only moods with a positive count, each once, in the order happy, calm, tired, anxious, neutral, sad, energetic, each with its colour and emoji |
| WeeklyReport.ItemsForTotal | src/components/WeeklyReport.tsx:71 | the item values add up to the sum of the positive counts |
| WeeklyReport.SumOverAllMoods | src/components/WeeklyReport.tsx:26-28 | every entry is counted under exactly one of the seven moods |
| WeeklyReport.TotalEntriesCountsEveryEntry | src/components/WeeklyReport.tsx:71 | `totalEntries` is the length of the history, or 10 for the sample |
| WeeklyReport.MoodDistribution | src/components/WeeklyReport.tsx:11-38 | counting by the loop, then filtering and mapping, gives the distribution of the counted moods |
| WeeklyReport.Legend | src/components/WeeklyReport.tsx:138 | the legend is the first min(4, n) items, in order |
| ProductivityCastle.WellnessScore | src/components/ProductivityCastle.tsx:25-28 | the score is 10 per mood check + 20 per heal session + 15 per quest, capped at 100 |
| ProductivityCastle.Castle | src/components/ProductivityCastle.tsx:21-33 | the next level needs level × 100 XP; the score is `WellnessScore` of the three counts, so at most 100; flowers iff a heal session happened; flags iff a quest was completed; glow iff the score is at least 50 |
| ProductivityCastle.WellnessScoreMonotone | src/components/ProductivityCastle.tsx:25-28 | more activity never lowers the score |
| ProductivityCastle.GlowThreshold | src/components/ProductivityCastle.tsx:25-33 | the castle glows exactly when the uncapped points reach 50 |
| ProductivityCastle.DefaultCastle | src/components/ProductivityCastle.tsx:14-33 | with the default props the castle needs 100 XP, scores 0 and shows no decoration |
| FeelHealRoom.NextIndex | src/components/FeelHealRoom.tsx:61 | the prompt index advances by one and wraps from the last of the four prompts to the first |
| FeelHealRoom.FourStepsCycle | src/components/FeelHealRoom.tsx:61 | four steps return to the same prompt, and a step from any prompt but the first moves |
| FeelHealRoom.FindVibe | src/components/FeelHealRoom.tsx:50 | `find` returns the first vibe with the chosen id, or nothing when no vibe has it |
| FeelHealRoom.Room.constructor | src/components/FeelHealRoom.tsx:26-31 | empty texts, nothing released, no vibe, the first prompt |
| FeelHealRoom.Room.CurrentPrompt | src/components/FeelHealRoom.tsx:17-22 | the shown prompt is always one of the four |
| FeelHealRoom.Room.SetReleaseText | src/components/FeelHealRoom.tsx:111 | typing sets the release text |
| FeelHealRoom.Room.SetReflectionAnswer | src/components/FeelHealRoom.tsx:194 | typing sets the reflection answer |
| FeelHealRoom.Room.HandleRelease | src/components/FeelHealRoom.tsx:33-37 | blank text changes nothing; otherwise the untrimmed text is appended to the released items and releasing starts |
| FeelHealRoom.Room.FinishRelease | src/components/FeelHealRoom.tsx:39-41 | after the delay the text is cleared and releasing ends |
| FeelHealRoom.Room.HandleVibeChange | src/components/FeelHealRoom.tsx:48-54 | the chosen id becomes the active vibe, and the vibe it names is looked up |
| FeelHealRoom.Room.NextPrompt | src/components/FeelHealRoom.tsx:56-62 | a non-blank answer is saved and cleared, a blank one is kept; the prompt advances in every case |
| CalendarView.MoodTagsDistinct | src/components/CalendarView.tsx:23-31 | every mood has a non-empty tag, and different moods have different tags |
| CalendarView.PickerOffersAllButSad | src/components/CalendarView.tsx:201 | the picker offers six distinct moods: every mood except sad |
| CalendarView.EventForm.constructor | src/components/CalendarView.tsx:34-37 | the form is closed and empty, and the predicted mood is neutral |
| CalendarView.EventForm.SetShowAdd | src/components/CalendarView.tsx:72 | opening or closing the form |
| CalendarView.EventForm.Edit | src/components/CalendarView.tsx:181-192 | typing sets the title and time |
| CalendarView.EventForm.PickMood | src/components/CalendarView.tsx:201-205 | a picked mood becomes the predicted mood |
| CalendarView.EventForm.HandleSubmit | src/components/CalendarView.tsx:39-52 | an empty title or time emits nothing and changes nothing; otherwise it emits title, time, mood and that mood's tag, then resets the form to empty, neutral and closed |
| Dashboard.RenderViewOneToOne | src/components/Dashboard.tsx:45-57 | each view renders its own panel, and only home renders the home panel |
| Dashboard.SchedulePreview | src/components/Dashboard.tsx:183 | the preview is the first min(3, n) events, in order |
| Dashboard.MoodMessageCoverage | src/components/Dashboard.tsx:126-130 | happy, tired, anxious, calm and neutral each get their own extra message; sad and energetic get none |
| Dashboard.DashboardState.constructor | src/components/Dashboard.tsx:38-39 | the view starts as home with the three initial events |
| Dashboard.DashboardState.SetView | src/components/Dashboard.tsx:89 | navigating sets the view |
| Dashboard.DashboardState.AddEvent | src/components/Dashboard.tsx:41-43 | exactly one event with the given fields and the fresh id is appended; earlier events are untouched |
| Dashboard.DashboardState.Shown | src/components/Dashboard.tsx:45-57 | the home panel shows exactly when the view is home |
| Dashboard.SubmitToDashboard | src/components/CalendarView.tsx:39-52 | a calendar submit adds one event to the dashboard exactly when title and time are filled in, carrying the predicted mood's tag |
| IndexPage.Page.constructor | src/pages/Index.tsx:8-9 | the app starts loading with the scanner requested |
| IndexPage.Page.CurrentScreen | src/pages/Index.tsx:33-79 | loading comes before the scanner, and the scanner before the dashboard |
| IndexPage.Page.Mount | src/pages/Index.tsx:11-18 | the scanner is skipped when the stored last-scan date is today's |
| IndexPage.Page.LoadTimerFires | src/pages/Index.tsx:21 | the start-up timer ends loading |
| IndexPage.Page.HandleScanComplete | src/pages/Index.tsx:25-28 | completing the scan stores today's date and hides the scanner |
| IndexPage.StartOfDay | src/pages/Index.tsx:11-23 | after start-up the dashboard shows exactly when today's scan was already stored, and the scanner otherwise |
| IndexPage.CheckInThenRestart | src/pages/Index.tsx:11-28 | after a completed check-in, reopening the app the same day goes straight to the dashboard |
| MoodScanner.ManualMoodsAllButSad | src/components/MoodScanner.tsx:12 | the manual choices are six distinct moods: every mood except sad |
| MoodScanner.Scanner.constructor | src/components/MoodScanner.tsx:16-18 | camera off, nothing detected, manual selection closed |
| MoodScanner.Scanner.Visible | src/components/MoodScanner.tsx:47-123 | under the invariant exactly one panel shows; the scan panel needs camera, detection and manual all off, and the manual panel needs manual on and nothing detected |
| MoodScanner.Scanner.StartCamera | src/components/MoodScanner.tsx:80 | the camera button switches to the camera panel |
| MoodScanner.Scanner.ChooseManual | src/components/MoodScanner.tsx:90 | the manual button opens manual selection |
| MoodScanner.Scanner.HandleMoodDetected | src/components/MoodScanner.tsx:20-23 | a detection records the mood and leaves camera mode |
| MoodScanner.Scanner.CancelCamera | src/components/MoodScanner.tsx:56-59 | cancelling leaves camera mode and opens manual selection |
| MoodScanner.Scanner.ChangeDetected | src/components/MoodScanner.tsx:115 | "change" clears the detection and opens manual selection |
| MoodScanner.Scanner.BackToScan | src/components/MoodScanner.tsx:145 | "back" closes manual selection and returns to the scan panel |
| MoodScanner.Scanner.ConfirmMood | src/components/MoodScanner.tsx:25-28 | confirming records exactly one entry with the chosen mood and no note, and makes it current |
| AIWellnessChat.ReplyText | src/components/AIWellnessChat.tsx:62-77 | an answer gives `response`, else `insight`, else the fallback sentence (empty strings count as missing); a failure or null body gives the apology; the text is never empty |
| AIWellnessChat.Chat.constructor | src/components/AIWellnessChat.tsx:16-25 | closed, one assistant greeting, empty input, not loading |
| AIWellnessChat.Chat.SetOpen | src/components/AIWellnessChat.tsx:87 | the floating and close buttons open and close the window |
| AIWellnessChat.Chat.SetInput | src/components/AIWellnessChat.tsx:184 | typing, possible only while not loading, sets the input |
| AIWellnessChat.Chat.SendMessage | src/components/AIWellnessChat.tsx:41-52 | blank input or a pending reply changes nothing; otherwise the trimmed input is appended as the user's message and sent, the input is cleared and loading starts |
| AIWellnessChat.Chat.ReceiveReply | src/components/AIWellnessChat.tsx:54-80 | whatever the outcome, one assistant message with the reply text is appended and loading ends |
| AIWellnessChat.Chat.Exchange | src/components/AIWellnessChat.tsx:41-81 | an accepted send adds exactly two messages, the user's and then the assistant's, and ends with loading off; a refused one changes nothing |
| AIJournalAnalysis.AsResult | src/components/AIJournalAnalysis.tsx:43 | the shown result carries the reply's mood and texts unchanged |
| AIJournalAnalysis.ReportedMood | src/components/AIJournalAnalysis.tsx:42 | an outcome reports a mood exactly when it is an answer with a body that names one |
| AIJournalAnalysis.Journal.constructor | src/components/AIJournalAnalysis.tsx:21-24 | empty entry, not analysing, no result |
| AIJournalAnalysis.Journal.SetEntry | src/components/AIJournalAnalysis.tsx:87-92 | typing, possible only while not analysing, sets the entry |
| AIJournalAnalysis.Journal.AnalyzeJournal | src/components/AIJournalAnalysis.tsx:26-38 | a blank entry or a running analysis changes nothing; otherwise the result is cleared, analysis starts, and the trimmed entry is sent |
| AIJournalAnalysis.Journal.CompleteAnalysis | src/components/AIJournalAnalysis.tsx:40-56 | a reply with a mood sets the result and records exactly one mood entry with the trimmed text as its note; a reply without a mood, or a failure, records nothing and leaves no result; analysis ends either way |
| AIJournalAnalysis.Journal.Reset | src/components/AIJournalAnalysis.tsx:59-62 | reset clears the entry and the result |
| Text.Trim | src/components/AIWellnessChat.tsx:42 | `trim()` gives the slice of the text between leading and trailing whitespace: empty exactly when the text is blank, otherwise starting and ending with non-whitespace |
| AnalyzeMood.Interpolate | supabase/functions/analyze-mood/index.ts:43 | a missing image renders as "undefined" in the data URL |
| AnalyzeMood.Messages | supabase/functions/analyze-mood/index.ts:23-85 | facial, journal and chat each select their own instruction and user turn (the facial one an image data URL); any other type fails with "Invalid analysis type" |
| AnalyzeMood.MessagesShape | supabase/functions/analyze-mood/index.ts:23-85 | every accepted type sends an instruction then one user turn, which is an image exactly for facial analysis |
| AnalyzeMood.BraceSpan | supabase/functions/analyze-mood/index.ts:125 | `/\{[\s\S]*\}/` matches exactly when some '{' precedes some '}', and the match runs from the first '{' to the last '}' |
| AnalyzeMood.BraceSpanWidest | supabase/functions/analyze-mood/index.ts:125 | the match contains every brace-delimited part of the text |
| AnalyzeMood.Extract | supabase/functions/analyze-mood/index.ts:123-133 | the parsed span is the result when there is a span and it parses; otherwise the result is `{response: content}` |
| AnalyzeMood.NoBracesFallsBack | supabase/functions/analyze-mood/index.ts:128-130 | a reply without any '{' is passed through as `{response: content}` |
| AnalyzeMood.ErrorReply | supabase/functions/analyze-mood/index.ts:139-146 | a caught error is a 500 whose `error` is the Error's message, or "Analysis failed" for a non-Error |
| AnalyzeMood.Outgoing | supabase/functions/analyze-mood/index.ts:9-98 | the gateway is called exactly for a non-preflight request with a readable body, a configured key and a known type, and is sent that type's messages |
| AnalyzeMood.FromUpstream | supabase/functions/analyze-mood/index.ts:100-137 | 429 and 402 pass through with their messages; other failing statuses become 500 "AI analysis failed"; success is a 200 with the extracted analysis |
| AnalyzeMood.Handle | supabase/functions/analyze-mood/index.ts:8-147 | a preflight gets an empty body with the CORS headers; every other answer is JSON with the CORS headers; a bad body, a missing key ("LOVABLE_API_KEY is not configured") or an unknown type is a 500; otherwise the gateway's answer decides |
| AnalyzeMood.HandleStatuses | supabase/functions/analyze-mood/index.ts:8-147 | only 200, 402, 429 and 500 are answered; a 500 always carries an error and a 200 never does |
| AnalyzeMood.NoCallNoDependence | supabase/functions/analyze-mood/index.ts:9-85 | a request that does not reach the gateway gets the same answer whatever the gateway would have said |
| MoodDto.Validate | backend/src/mood/dto/create-mood.dto.ts:3-16 | a body is accepted exactly when mood is a non-empty string among the seven values, note is missing, null or a string, and timestamp is missing, null or an ISO 8601 string; otherwise it is refused, naming exactly the failing properties |
| MoodDto.OptionalString | backend/src/mood/dto/create-mood.dto.ts:9-15 | an optional property keeps its string and is absent otherwise |
| MoodDto.MoodValuesAreMoodNames | backend/src/mood/dto/create-mood.dto.ts:6 | the accepted mood values are, in order, the names of the client's seven moods |
| MoodDto.ValidatedMoodParses | backend/src/mood/dto/create-mood.dto.ts:6 | a validated mood is always one the client can read back |
| EventDto.Validate | backend/src/events/dto/create-event.dto.ts:3-19 | a body is accepted exactly when title, time, predictedMood and tag are all non-empty strings; otherwise it is refused, naming exactly the failing properties |
| EventDto.PredictedMoodIsFreeText | backend/src/events/dto/create-event.dto.ts:13-15 | any non-empty predicted mood is accepted, including one outside the seven moods |
| DocumentStore.OwnedBy | backend/src/mood/mood.service.ts:21 | `find({ userId })` keeps exactly the caller's documents, each as often as it is stored |
| DocumentStore.OwnedByAppend | backend/src/events/events.service.ts:11-20 | a new document joins its owner's query at the end and no other owner's |
| MoodBackend.Insert | backend/src/mood/mood.service.ts:21 | inserting into a newest-first list keeps it newest first and adds exactly that record |
| MoodBackend.SortNewestFirst | backend/src/mood/mood.service.ts:21 | `sort({ timestamp: -1 })` gives the same records, newest first |
| MoodBackend.MoodService.constructor | backend/src/mood/mood.service.ts:9 | the service starts over the stored collection |
| MoodBackend.MoodService.Create | backend/src/mood/mood.service.ts:11-18 | stores and returns the DTO's fields plus the caller's id, with the DTO's timestamp when it is given and non-empty and the current time otherwise; the record joins only the caller's list |
| MoodBackend.MoodService.FindAll | backend/src/mood/mood.service.ts:20-22 | exactly the caller's records, each as often as it is stored, newest first |
| MoodBackend.NewestComesFirst | backend/src/mood/mood.service.ts:21 | a user's list starts with a record at least as new as any of theirs |
| EventsBackend.EventsService.constructor | backend/src/events/events.service.ts:9 | the service starts over the stored collection |
| EventsBackend.EventsService.Create | backend/src/events/events.service.ts:11-17 | stores and returns the DTO's fields plus the caller's id; the record joins only the caller's list |
| EventsBackend.EventsService.FindAll | backend/src/events/events.service.ts:19-21 | exactly the caller's events, each as often as it is stored; no order is promised |
| EventsBackend.CreateIsolatesUsers | backend/src/events/events.service.ts:11-21 | creating an event for one user leaves every other user's list as it was |

## Left out

- Persistence is not modelled. localStorage reads and writes (mood history, reminders, last scan) and their JSON serialisation are out. Stored values are constructor parameters. Only the last-scan date is written back, as the `lastMoodScan` field of `IndexPage.Page`; writing back the mood history and the reminders is not modelled.
- Timers are not modelled as scheduling. `setTimeout` and `setInterval` become separate methods that the caller invokes when the timer fires: `SpawnTick`, `FinishPop`, `FinishRelease`, `LoadTimerFires`, `CheckReminders`.
- Clocks, ids and random choices are parameters: `Date.now()`, `new Date()` and `toDateString()` values, generated ids, and the random thought pick.
- Random values the source only displays are left out: the balloon's random x position, and the weekly trend in `WeeklyReport`.
- Floating-point display values are left out: the castle's `progress` bar (`ProductivityCastle.tsx:22`) and the rounded percentages in `WeeklyReport`.
- Toasts, animation and JSX rendering are left out, except for which panel or screen shows.
- Browser notifications are reduced to a decision. The Notification permission request is out. The "permission granted" test is a parameter, and the notification is the returned text.
- `onQuestComplete` and `onComplete` callbacks: these calls into the parent are not modelled. `CheckInThenRestart` models the parent's side of completing the check-in.
- `Dashboard.tsx` `HomeView` is partly out: its count of today's moods filters by calendar date, and date arithmetic is not modelled.
- The AI service call is not modelled. Network transport and `supabase.functions.invoke` are out. The outcome of the call is an input of the completion methods.
- In the edge function, `Deno.env`, `fetch`, the gateway's model name and token limit, and `console.error` are out. The three instruction texts are tags (`Prompt`), without their wording. `JSON.parse` is a parameter, and so is reading the gateway's JSON body.
- The edge function's `response.text()` on a failed gateway status is assumed not to throw.
- The request body's fields are strings or absent. A non-string `imageBase64` rendered into the data URL is not modelled.
- AIJournalAnalysis.Journal.CompleteAnalysis: the reply's `mood` is modelled as one of the seven moods or absent. The source records any non-empty string the AI returns, so a reply naming an unknown mood is outside the model.
- AIWellnessChat.ReplyText: `response` and `insight` are modelled as strings or absent. A non-string truthy value, which the source would put into the message as is, is outside the model.
- MoodBackend.SortNewestFirst: the store leaves the order of records with equal timestamps unspecified. The model keeps their collection order, and only the newest-first order and the multiset of records are promised.
- EventsBackend.EventsService.FindAll: the store's natural order is unspecified. The model returns collection order, and only membership and multiplicity are promised.
- MoodDto.Validate: ISO 8601 recognition is a parameter (`isIsoDate`). Converting the date string to a time is a parameter of `Create` (`toTime`).
- The backend's validation-error response format is not modelled. A refused body is reported by the names of its failing properties. Messages, the 400 status, `whitelist` stripping and the exact `transform` behaviour are not modelled.
- Authentication (JWT guard, `auth.service.ts`, `useAuth`), the controllers, the schemas and the application wiring are out. The caller's user id is a parameter of the services.
- `AmbientSoundPlayer.tsx`, `RealEmotionDetector.tsx` and `Landing.tsx` are not part of this model. They are device audio, camera and pixel heuristics, and static markup.
