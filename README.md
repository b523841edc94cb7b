# Sentient meditation app: a Dafny model of its logic

The application is a guided-meditation web app. A user checks in with a
mood, gets a six-phase timed meditation, and can look at a profile with
statistics and preferences. Most of the code is React markup and calls to
a hosted database. This project models the small amount of self-contained
logic inside it:

- **Emotion tables** (`EmotionMap`, `EmotionProgressions`). Each maps a
  current emotion to three target emotions, and each has a
  display-metadata table. Target lookup ignores case and falls back to
  calm/peaceful/content. Display lookup respects case and falls back to a
  "Finding balance" placeholder.
- **Meditation player** (`MeditationPlayer`). It has six fixed phases
  (960 s in all), a one-second interval timer, play/pause, reset, stop,
  and the completion update it sends. The class `Player` updates its
  fields in place. Pure step functions over `PlayerState` specify each
  method. The interval callback is a closure over the phase, the phase
  duration and the session id that were current when the timer started,
  so the model keeps those captured values as state of their own (see
  Findings). `formatTime` is modelled with JavaScript's `%` and
  `padStart`.
- **Route guard** (`Middleware`). Given a session flag and a path, it
  decides pass-through, a redirect to `/login`, or a redirect to `/`.
- **Navigation state** (`IndexPage`, `OnboardingFlow`,
  `MeditationDashboard`). These are classes over the components' state
  variables, with the render chains as pure functions.
- **Derivations** (`UserProfile`, `WelcomePage`, `SplitNotes`):
  - the session statistics, the display-name fallback and the preference
    defaults of the profile;
  - the first-name greeting;
  - the note splitter. Its file writes are modelled as a sequence of
    writes returned by a loop.

`Wrappers` holds `Option`. `Text` holds the string helpers the components
share: ASCII lower-casing, decimal rendering and parsing, `split(c)[0]`,
and JavaScript's `||` on strings, where an empty string is falsy.

Supabase calls, the auth listener and file I/O are not modelled as calls.
What they return becomes a parameter of the method that receives it, for
example `Player.SessionCreated(id)`, `Dashboard.UserDataFetched(moodEntry,
count)` or `Onboarding.FinishSubmit(pending, user, insertSucceeded)`.
What they are sent becomes a result or a recorded sequence: the
`updates` of the player, the `sent` row of a submit, the `writes` of the
splitter. Each asynchronous handler is split into its synchronous start
and its completion (`BeginSubmit`/`FinishSubmit`,
`BeginSave`/`FinishSave`), so the in-flight flags can be seen.

## Model

| member | source | states |
|---|---|---|
| Text.ToLower | src/lib/emotionMap.ts:31 | lower-casing keeps the length and maps every ASCII capital to its small letter, leaving other characters alone |
| Text.ToLowerIdempotent | src/lib/emotionMap.ts:31 | lower-casing twice is the same as lower-casing once |
| Text.FirstToken | src/components/meditation/WelcomePage.tsx:12 | `split(sep)[0]` is the longest prefix without `sep`, followed by `sep` or the end of the text |
| Text.OrElse | src/components/UserProfile.tsx:193 | JavaScript's logical or on strings: the result is one of the two strings, and it is empty only when both are |
| Text.ParseNatToString | src/components/MeditationPlayer.tsx:211-215 | decimal rendering of a number reads back as the same number |
| EmotionMap.Placeholder | src/lib/emotionMap.ts:124-129 | the placeholder for an unknown id is labelled with that id |
| EmotionMap.ProgressionsWellFormed | src/lib/emotionMap.ts:1-26 | every key is lower-case; every entry lists three pairwise-distinct targets, none of them its own key |
| EmotionMap.ProgressionKeysLowercase | src/lib/emotionMap.ts:1-26 | every transition key is lower-case |
| EmotionMap.ProgressionEntriesDistinct | src/lib/emotionMap.ts:1-26 | every entry lists three pairwise-distinct targets, none of them its own key |
| EmotionMap.TargetEmotions | src/lib/emotionMap.ts:28-37 | `getTargetEmotions`: the result is always the fallback list or one of the table's lists |
| EmotionMap.TargetsOfMissingInput | src/lib/emotionMap.ts:28-29 | null and "" both give calm, peaceful, content |
| EmotionMap.TargetsCaseInsensitive | src/lib/emotionMap.ts:31 | any input and its lower-case form give the same targets |
| EmotionMap.TargetsOfAnxious | src/lib/emotionMap.ts:28-37 | "Anxious" gives calm, grounded, peaceful, as "anxious" does |
| EmotionMap.TargetsOfKey | src/lib/emotionMap.ts:28-37 | every table key gives exactly its configured list |
| EmotionMap.TargetsOfUnknown | src/lib/emotionMap.ts:31-35 | a non-empty input whose lower-case form is not a key gives the fallback |
| EmotionMap.TargetsAreThreeDistinct | src/lib/emotionMap.ts:1-37 | every result, fallback included, has three pairwise-distinct targets |
| EmotionMap.Display | src/lib/emotionMap.ts:122-131 | `getEmotionDisplay`: a table entry or the placeholder, and the label is the id unless the id is a table key |
| EmotionMap.DisplayLookup | src/lib/emotionMap.ts:122-131 | a hit returns the table entry; a miss returns the placeholder with label id, "Finding balance", ✨, bg-purple-600 |
| EmotionMap.DisplayIsPlaceholderIffUnknown | src/lib/emotionMap.ts:39-131 | the description is "Finding balance" exactly when the id is not in the table |
| EmotionMap.DisplayCaseSensitive | src/lib/emotionMap.ts:122-131 | "Calm" gets the placeholder labelled "Calm"; "calm" gets the table entry |
| EmotionMap.DisplayKeyIsLowercase | src/lib/emotionMap.ts:39-120 | every display key is a non-empty lower-case word |
| EmotionMap.DisplayLabelCapitalizesKey | src/lib/emotionMap.ts:39-120 | every display label is its key with the first letter upper-cased |
| EmotionMap.DisplayLabelNamesId | src/lib/emotionMap.ts:39-131 | for a lower-case id the label shown lower-cases back to the id, on a hit and on a miss |
| EmotionProgressions.TargetEmotions | src/lib/emotionProgressions.ts:31-40 | the same lookup over the second table: the fallback list or one of the table's lists |
| EmotionProgressions.Display | src/lib/emotionProgressions.ts:72-82 | a table entry or the placeholder, and the label is the id unless the id is a table key |
| EmotionProgressions.TargetsOfMissingInput | src/lib/emotionProgressions.ts:31-32 | null and "" both give calm, peaceful, content |
| EmotionProgressions.TargetsAgreeWithEmotionMap | src/lib/emotionProgressions.ts:3-40 | the progression table equals the other module's, so both target lookups agree on every input |
| EmotionProgressions.DisplayKeys | src/lib/emotionProgressions.ts:42-70 | the display table has exactly the keys calm, peaceful and content |
| EmotionProgressions.DisplayOfOtherIds | src/lib/emotionProgressions.ts:72-81 | every other id gets the placeholder labelled with the id |
| EmotionProgressions.FallbackTargetsDisplayed | src/lib/emotionProgressions.ts:31-70 | each fallback target has a real entry, not the placeholder |
| EmotionProgressions.DisplayAgreesWithEmotionMap | src/lib/emotionProgressions.ts:50-81 | on its three ids, and on ids neither table knows, it shows what the other module shows |
| Middleware.Guard | middleware.ts:14-27 | a redirect only ever goes to "/login" or "/" |
| Middleware.SignedOutRedirectsToLogin | middleware.ts:14-20 | without a session, exactly the paths other than "/" and the /login pages go to "/login"; none go to "/" |
| Middleware.SignedInLeavesLoginPages | middleware.ts:14-27 | with a session, exactly the /login pages go to "/"; every other path passes |
| Middleware.HomeAlwaysPasses | middleware.ts:15-27 | "/" passes with or without a session |
| Middleware.NoRedirectLoop | middleware.ts:14-27 | the target of every redirect passes under the same session state |
| Middleware.LoginPrefixIsAuthPage | middleware.ts:14-25 | the test is a prefix test: "/loginx" counts as a login page |
| MeditationPlayer.PhaseTable | src/components/MeditationPlayer.tsx:26-63 | six phases, each a positive whole number of minutes, 960 s in all |
| MeditationPlayer.InitialSessionRow | src/components/MeditationPlayer.tsx:99-107 | the inserted row names phase Awareness, duration 0, not completed, and the mood text or "Unknown" (never empty) |
| MeditationPlayer.TogglePlayPauseStep | src/components/MeditationPlayer.tsx:173-181 | after a toggle, playing and the timer agree; nothing is sent; a resumed timer captures the live phase and session id |
| MeditationPlayer.CompleteStep | src/components/MeditationPlayer.tsx:183-209 | completion stops playback and the timer, appends at most one update to those sent, and keeps the phase and time shown |
| MeditationPlayer.ResetStep | src/components/MeditationPlayer.tsx:217-222 | reset leaves playing and the timer in agreement and keeps the session id and the updates sent |
| MeditationPlayer.TickStep | src/components/MeditationPlayer.tsx:144-164 | a tick never changes the captured values or the session id; it sends an update only when it stops the timer, and then exactly the completion for the captured id; the phase shown stays or becomes captured phase + 1 |
| MeditationPlayer.StepsPreserveValid | src/components/MeditationPlayer.tsx:141-222 | every step keeps the phase in 0..5, playing in step with the timer, the captured duration that of the captured phase, and every update a full completion |
| MeditationPlayer.TickWithinPhase | src/components/MeditationPlayer.tsx:144-163 | a tick below the captured duration adds exactly one second and keeps the phase and the updates |
| MeditationPlayer.TickAdvancesPhase | src/components/MeditationPlayer.tsx:148-153 | reaching the captured duration before the last phase sets the phase after the captured one and elapsed 0 |
| MeditationPlayer.TickCompletesSession | src/components/MeditationPlayer.tsx:154-158 | reaching it on the last phase keeps the new time, stops playing, clears the timer and sends the completion with the captured id |
| MeditationPlayer.ToggleFlips | src/components/MeditationPlayer.tsx:173-181 | toggling flips playing and the timer together and keeps phase and time |
| MeditationPlayer.PausedTicksChangeNothing | src/components/MeditationPlayer.tsx:166-171 | while paused any number of seconds change nothing |
| MeditationPlayer.PauseResumeKeepsTime | src/components/MeditationPlayer.tsx:166-181 | pause, wait, resume: playing again with the same phase and elapsed time |
| MeditationPlayer.ResetClears | src/components/MeditationPlayer.tsx:217-222 | reset gives phase 0, elapsed 0, not playing, no timer, and sends nothing |
| MeditationPlayer.ResetIdempotent | src/components/MeditationPlayer.tsx:217-222 | pressing reset twice is the same as pressing it once |
| MeditationPlayer.CompletionRecordsFullLength | src/components/MeditationPlayer.tsx:183-199 | completion stops playback and records 960 s whatever the phase and elapsed time, also from the stop button; nothing without a session id |
| MeditationPlayer.StopTwiceRecordsTwice | src/components/MeditationPlayer.tsx:314-321 | two presses of stop send two completion updates |
| MeditationPlayer.TicksAdd | src/components/MeditationPlayer.tsx:144-163 | a+b seconds of ticks are a seconds followed by b seconds |
| MeditationPlayer.TicksBelowCaptured | src/components/MeditationPlayer.tsx:144-163 | ticks that stay below the captured duration only count seconds |
| MeditationPlayer.StaleTimerNeverPassesNextPhase | src/components/MeditationPlayer.tsx:141-164 | a running timer keeps its captured phase, never shows a phase past the one after it, and never completes |
| MeditationPlayer.PlayFromStartNeverCompletes | src/components/MeditationPlayer.tsx:141-181 | after one press of play the player stays in phase 0 or 1 and sends no completion, however long it runs |
| MeditationPlayer.ElapsedOvershootsLivePhase | src/components/MeditationPlayer.tsx:141-164 | after 359 s the player shows phase 1 (120 s long) with 179 s elapsed and "-1:-59" remaining |
| MeditationPlayer.StateAfter359 | src/components/MeditationPlayer.tsx:141-164 | 359 ticks from a fresh play leave the player in phase 1 with 179 s elapsed, still running |
| MeditationPlayer.NegativeRemainder | src/components/MeditationPlayer.tsx:211-215 | a remaining time of -59 s is shown as "-1:-59" |
| MeditationPlayer.IntendedTickStep | src/components/MeditationPlayer.tsx:141-164 | the timer as evidently intended, reading the live phase; the phase stays in 0..5 |
| MeditationPlayer.IntendedTicks | src/components/MeditationPlayer.tsx:141-164 | any number of intended ticks keep the phase in 0..5 |
| MeditationPlayer.IntendedTickStaysWithinPhase | src/components/MeditationPlayer.tsx:141-164 | with live values the elapsed time never passes the duration of the phase shown |
| MeditationPlayer.IntendedTicksAdd | src/components/MeditationPlayer.tsx:141-164 | intended ticks compose by addition |
| MeditationPlayer.IntendedTicksBelow | src/components/MeditationPlayer.tsx:141-164 | intended ticks below the live duration only count seconds |
| MeditationPlayer.IntendedPhaseRun | src/components/MeditationPlayer.tsx:141-164 | D ticks in a phase of duration D advance exactly one phase, elapsed back at 0 |
| MeditationPlayer.IntendedRunFrom | src/components/MeditationPlayer.tsx:141-164 | from the start of any phase, the sum of the remaining phases' durations in intended ticks reaches the start of the last phase |
| MeditationPlayer.IntendedRunToLastPhase | src/components/MeditationPlayer.tsx:141-164 | 840 intended ticks from a fresh play reach the start of the last phase |
| MeditationPlayer.IntendedLastPhase | src/components/MeditationPlayer.tsx:141-164 | the last phase's 120 ticks complete the session with the live id |
| MeditationPlayer.IntendedSessionCompletes | src/components/MeditationPlayer.tsx:141-164 | one press of play runs all six phases and, after exactly 960 s, stops and sends one completion of 960 s |
| MeditationPlayer.JsRem | src/components/MeditationPlayer.tsx:213 | JavaScript's `%`: the remainder lies strictly between -m and m, is never negative for a non-negative dividend and never positive for a negative one, and the dividend minus it is a multiple of m |
| MeditationPlayer.RemainderLeavesMultiple | src/components/MeditationPlayer.tsx:213 | the dividend minus its truncated remainder is a multiple of the divisor, for either sign |
| MeditationPlayer.PadStart2 | src/components/MeditationPlayer.tsx:214 | `padStart(2, '0')` leaves two or more characters alone and left-pads shorter text to two characters, every added character being '0' |
| MeditationPlayer.PaddedSeconds | src/components/MeditationPlayer.tsx:211-215 | a seconds value below 60 prints as two digits that read back as the value |
| MeditationPlayer.FormatTime | src/components/MeditationPlayer.tsx:211-215 | for a non-negative time the text is the whole minutes, a colon, and a two-character seconds field |
| MeditationPlayer.SecondsFieldWidth | src/components/MeditationPlayer.tsx:213-214 | for a non-negative time the padded seconds field is exactly two characters |
| MeditationPlayer.FormatTimeRoundTrip | src/components/MeditationPlayer.tsx:211-215 | for n ≥ 0 the text is n/60, ":", n%60 in two digits, and reads back as minutes and seconds with 60·m+s = n, s < 60 |
| MeditationPlayer.Player.constructor | src/components/MeditationPlayer.tsx:66-72 | phase 0, paused, 0 s, no timer, no session id |
| MeditationPlayer.Player.SessionCreated | src/components/MeditationPlayer.tsx:111-112 | the inserted row's id becomes the session id |
| MeditationPlayer.Player.StartTimer | src/components/MeditationPlayer.tsx:141-144 | the timer runs and captures the live phase, its duration and the session id |
| MeditationPlayer.Player.StopTimer | src/components/MeditationPlayer.tsx:166-171 | the timer stops; nothing else changes |
| MeditationPlayer.Player.TogglePlayPause | src/components/MeditationPlayer.tsx:173-181 | the state becomes the toggle step's result and stays valid |
| MeditationPlayer.Player.CompleteSession | src/components/MeditationPlayer.tsx:183-199 | the state becomes the completion step's result for the id seen |
| MeditationPlayer.Player.StopPressed | src/components/MeditationPlayer.tsx:314-321 | the stop button completes with the live session id |
| MeditationPlayer.Player.ResetMeditation | src/components/MeditationPlayer.tsx:217-222 | the state becomes the reset step's result |
| MeditationPlayer.Player.Tick | src/components/MeditationPlayer.tsx:144-163 | one second of the interval callback with the captured values |
| IndexPage.ViewConditions | src/pages/Index.tsx:50-83 | each view shows exactly under its condition: spinner while loading, auth page when signed out, dashboard over onboarding, else welcome |
| IndexPage.Index.constructor | src/pages/Index.tsx:11-14 | loading, no user, both flags off: the spinner |
| IndexPage.Index.AuthResolved | src/pages/Index.tsx:16-29 | the session's user is stored and loading ends; the flags are kept |
| IndexPage.Index.HandleStartJourney | src/pages/Index.tsx:34-38 | only a signed-in user turns onboarding on; without one nothing changes |
| IndexPage.Index.HandleCompleteOnboarding | src/pages/Index.tsx:40-43 | onboarding off, dashboard on, so a signed-in user sees the dashboard |
| IndexPage.Index.HandleBackToWelcome | src/pages/Index.tsx:45-48 | both flags off, so a signed-in user sees the welcome page |
| WelcomePage.FirstName | src/components/meditation/WelcomePage.tsx:12 | the greeting is never empty |
| WelcomePage.MissingNameGreetsFriend | src/components/meditation/WelcomePage.tsx:12 | a missing user, metadata or name greets "Friend" |
| WelcomePage.EmptyFirstWordGreetsFriend | src/components/meditation/WelcomePage.tsx:12 | an empty name or one starting with a space greets "Friend" |
| WelcomePage.FirstWordOfName | src/components/meditation/WelcomePage.tsx:12 | otherwise the greeting is the name's text up to its first space |
| WelcomePage.GreetingIsPrefixOfName | src/components/meditation/WelcomePage.tsx:12 | any greeting other than "Friend" is a space-free prefix of the name |
| OnboardingFlow.MoodOptionsDistinct | src/components/meditation/OnboardingFlow.tsx:24-31 | six options with pairwise-distinct labels and non-empty descriptions |
| OnboardingFlow.MoodEntryRow | src/components/meditation/OnboardingFlow.tsx:56-61 | the row holds the user id, the typed text if non-empty else the mood's description, the mood's colour and energy 3 |
| OnboardingFlow.MoodEntryTextNeverEmpty | src/components/meditation/OnboardingFlow.tsx:56-58 | for every offered mood the stored text is non-empty |
| OnboardingFlow.Onboarding.OneCardShows | src/components/meditation/OnboardingFlow.tsx:98-145 | in every reachable state exactly one of the mood grid and the details card shows |
| OnboardingFlow.Onboarding.constructor | src/components/meditation/OnboardingFlow.tsx:34-37 | step 1, no mood, no text, not loading |
| OnboardingFlow.Onboarding.SelectMood | src/components/meditation/OnboardingFlow.tsx:40-43 | the mood is selected and step 2 shows the details card |
| OnboardingFlow.Onboarding.EditText | src/components/meditation/OnboardingFlow.tsx:167 | only the text changes |
| OnboardingFlow.Onboarding.Back | src/components/meditation/OnboardingFlow.tsx:181 | step 1, the selected mood kept |
| OnboardingFlow.Onboarding.BeginSubmit | src/components/meditation/OnboardingFlow.tsx:45-48 | without a mood nothing happens; else loading is set and the mood and text are captured |
| OnboardingFlow.Onboarding.FinishSubmit | src/components/meditation/OnboardingFlow.tsx:49-81 | signed out: no row, failure; signed in: the row above is sent; completion exactly when signed in and stored; loading ends |
| MeditationDashboard.PhaseCardsMatchPlayer | src/components/MeditationDashboard.tsx:26-63 | the cards list the player's phases in order, each labelled with the player's duration in minutes, and the "16 min" total (line 199) is the player's 960 s |
| MeditationDashboard.SelectView | src/components/MeditationDashboard.tsx:121-138 | the profile shows whenever its flag is on; the player only when its flag is on and the profile's is off |
| MeditationDashboard.Dashboard.constructor | src/components/MeditationDashboard.tsx:66-69 | both flags off, no mood, count 0: the overview |
| MeditationDashboard.Dashboard.UserDataFetched | src/components/MeditationDashboard.tsx:76-102 | a fetched mood replaces the recent one; a missing count shows as 0 |
| MeditationDashboard.Dashboard.StartMeditation | src/components/MeditationDashboard.tsx:104-110 | the player flag is set |
| MeditationDashboard.Dashboard.MeditationComplete | src/components/MeditationDashboard.tsx:112-119 | the player flag is cleared |
| MeditationDashboard.Dashboard.PlayerBack | src/components/MeditationDashboard.tsx:135 | the player flag is cleared |
| MeditationDashboard.Dashboard.OpenProfile | src/components/MeditationDashboard.tsx:158 | the profile flag is set and the profile shows |
| MeditationDashboard.Dashboard.ProfileBack | src/components/MeditationDashboard.tsx:124 | the profile flag is cleared |
| UserProfile.CompletedSessions | src/components/UserProfile.tsx:214 | over the fetched sessions (at most the five most recent): the filter keeps every completed session and only those; all when all are completed, none when none is |
| UserProfile.CompletedCount | src/components/UserProfile.tsx:214 | "Sessions Complete" over the fetched sessions is at most their number |
| UserProfile.CompletedCountBounds | src/components/UserProfile.tsx:214 | the count is at most the number of sessions, equal to it exactly when all are completed, 0 exactly when none is |
| UserProfile.CompletedSessionsAppend | src/components/UserProfile.tsx:214 | filtering distributes over concatenation |
| UserProfile.CompletedCountIsNumberCompleted | src/components/UserProfile.tsx:214 | the count equals the number of positions whose session is completed |
| UserProfile.DurationSum | src/components/UserProfile.tsx:221 | the sum of the fetched durations (a missing one counting 0) is non-negative when every duration is |
| UserProfile.TotalMinutes | src/components/UserProfile.tsx:221 | over the fetched sessions (at most the five most recent): the nearest whole number of minutes to the duration sum (a missing duration counts 0), a half minute rounding up |
| UserProfile.FullSessionsSum | src/components/UserProfile.tsx:221 | k full sessions of 960 s show 16·k minutes |
| UserProfile.RecentSessions | src/components/UserProfile.tsx:230 | the first min(3, n) sessions, in order |
| UserProfile.DisplayName | src/components/UserProfile.tsx:193 | the heading is the profile name, the e-mail text before '@', or "Mindful Soul" |
| UserProfile.DisplayNameFallback | src/components/UserProfile.tsx:193 | the profile name if non-empty, else the e-mail text before '@' if non-empty, else "Mindful Soul"; never empty |
| UserProfile.EmailNameIsLocalPart | src/components/UserProfile.tsx:193 | for address local@domain with no '@' in local, the name shown is local |
| UserProfile.LocalPartBeforeAt | src/components/UserProfile.tsx:193 | the text before the first '@' of local@domain is local |
| UserProfile.WithPreference | src/components/UserProfile.tsx:258-293 | a select sets its own field and keeps all others; preferences that were null start empty |
| UserProfile.ShownValue | src/components/UserProfile.tsx:258-293 | each select applies `||` to its own field: a stored non-empty value shows itself; a missing row, or a fetched row whose field is null or empty, shows the field's default; never empty |
| UserProfile.ShownDefaults | src/components/UserProfile.tsx:258-293 | unset fields show calm, balanced and neutral, whether no row was fetched or the fetched row leaves the field null or empty; a field just chosen shows the choice, or the default when it is empty |
| UserProfile.Profile.constructor | src/components/UserProfile.tsx:29-35 | nothing fetched, loading, not saving |
| UserProfile.Profile.UserDataFetched | src/components/UserProfile.tsx:42-91 | the session query returns at most five rows; without a user nothing is stored; with one, name, preferences and sessions (missing as empty) are; loading ends |
| UserProfile.Profile.SelectPreference | src/components/UserProfile.tsx:258-293 | only the preferences change, by one field |
| UserProfile.Profile.BeginSave | src/components/UserProfile.tsx:93-96 | without preferences nothing happens; else saving is set and the stored fields and the user's id are captured |
| UserProfile.Profile.FinishSave | src/components/UserProfile.tsx:97-124 | saving ends; success exactly when signed in and stored |
| SplitNotes.SplitFrom | splitNotes.js:8 | the split always yields at least one piece |
| SplitNotes.Split | splitNotes.js:8 | `input.split(/^---$/m)` yields at least one piece |
| SplitNotes.SplitCutsExactlyAtDelimiters | splitNotes.js:8 | the position after every piece but the last (the pieces so far joined with "---") is a line consisting of exactly "---", and every such line is one of these positions |
| SplitNotes.SplitFromCutIsDelimiter | splitNotes.js:8 | each cut of the pieces from any start lies at a "---" line |
| SplitNotes.SplitFromFindsDelimiter | splitNotes.js:8 | every "---" line after the search start is a cut |
| SplitNotes.DelimitersDoNotOverlap | splitNotes.js:8 | two "---" lines are at least three characters apart |
| SplitNotes.DelimiterLineSplits | splitNotes.js:8 | "a\n---\nb" splits into "a\n" and "\nb"; "---" alone splits into two empty pieces |
| SplitNotes.JoinSplitFrom | splitNotes.js:8 | the pieces from position p rejoined with "---" are the text from p |
| SplitNotes.SplitRejoins | splitNotes.js:8 | rejoining the pieces with "---" gives back the input |
| SplitNotes.InlineDashesDoNotSplit | splitNotes.js:8 | "---" inside a line, or inside "----", is not a delimiter |
| SplitNotes.TrimStartDropsLeadingSpace | splitNotes.js:11 | `trimStart` drops exactly the leading white space |
| SplitNotes.TrimEndDropsTrailingSpace | splitNotes.js:11 | `trimEnd` drops exactly the trailing white space |
| SplitNotes.Trim | splitNotes.js:11 | `trim` never lengthens the text |
| SplitNotes.TrimProperties | splitNotes.js:11-12 | the trimmed text is a slice of the input with no white space at either end, empty exactly when the input is all white space |
| SplitNotes.ChunkFileName | splitNotes.js:13 | a file name starts with "chunk_" and ends with ".txt" |
| SplitNotes.ChunkFileNamesDistinct | splitNotes.js:13 | different positions give different file names |
| SplitNotes.ChunkFileNameMiddle | splitNotes.js:13 | between "chunk_" and ".txt" the file name reads back as the position plus one |
| SplitNotes.SavedIndices | splitNotes.js:10-16 | at most n positions are saved, each below n |
| SplitNotes.SavedIndicesProperties | splitNotes.js:10-16 | the written positions increase strictly, each has non-empty trimmed text, and every such position is written |
| SplitNotes.SavedIndicesNonBlank | splitNotes.js:11-12 | every saved position holds a piece with non-empty trimmed text |
| SplitNotes.SavedIndicesIncreasing | splitNotes.js:10 | saved positions follow the pieces' order, strictly increasing |
| SplitNotes.SavedIndicesComplete | splitNotes.js:10-12 | every position whose trimmed piece is non-empty is saved |
| SplitNotes.WriteChunks | splitNotes.js:10-16 | the loop's writes are, in order, one per saved position: its file name and its trimmed text |
| SplitNotes.SplitNotesScript | splitNotes.js:5-17 | the script writes the saved pieces of the split input |
| SplitNotes.WritesProperties | splitNotes.js:10-16 | each write is a non-empty trimmed piece named after its position; positions increase; none is missed; no file name repeats |
| SplitNotes.NumberingKeepsGaps | splitNotes.js:13 | numbering keeps the positions of skipped pieces: of "a", " ", "b" the files are chunk_1.txt and chunk_3.txt |
| SplitNotes.BlankMiddlePieceSkipped | splitNotes.js:10-16 | of any three pieces whose middle one is blank, positions 0 and 2 are saved |

## Left out

- Supabase I/O is not modelled as calls: auth `getUser`, `getSession`, `onAuthStateChange`, and table selects, inserts and updates. Their results are method parameters and what they are sent is a result. Rejected promises are folded into the success flags.
- The script fetch of the player (src/components/MeditationPlayer.tsx:88-92, 118-139) is left out. It is a network call that runs concurrently with the timer and does not touch the timer state.
- The unmount clean-up of the player (src/components/MeditationPlayer.tsx:79-86) is left out. It clears the interval when the component goes away, and no state that the model describes outlives the component.
- The 2 s `setTimeout` before `onComplete` and the completion toasts are left out. They are presentation timing.
- The float progress percentage (src/components/MeditationPlayer.tsx:77) is left out. The model relates integer elapsed time to durations instead.
- The ordering by `created_at` and the `.limit(5)` of the session query (src/components/UserProfile.tsx:67-72) are done by the database. `UserProfile.Profile.UserDataFetched` requires at most five rows and takes their order as given, so the profile statistics cover only those rows.
- Locale date formatting in the profile is left out. So are the moods list, which is shown as fetched, and sign-out, which is one auth call.
- The middleware `matcher` regex is left out. It is framework configuration that decides which requests reach the guard.
- Record lookups are plain finite maps. The JavaScript prototype keys such as "constructor" are not modelled.
- Text.ToLower: lower-cases ASCII letters only. No non-ASCII character lower-cases to a string made only of ASCII letters except the Kelvin sign (to 'k'), and no table key contains 'k', so which keys are hit is unaffected.
- UserProfile.Preferences: holds the four fields the page saves. The other columns of the row are not modelled.
- The interleaving of a second submit or save while one is in flight is not modelled. The buttons are disabled by the loading and saving flags, and `BeginSubmit`/`BeginSave` model one request at a time.
- Icons, toasts, `console.log`/`console.error` and the mood captions are left out. They carry no logic.
- Three behaviours of the player code are modelled as written:
  - completion always records the full 960 s, not the elapsed time (`CompletionRecordsFullLength`);
  - stop can send the completion more than once (`StopTwiceRecordsTwice`);
  - a running timer does not advance phase by phase (see Findings).
- EmotionMap: no lemma says that every target listed in the progression table has a display entry. Some do not (for example "understanding"), and they get the placeholder, which `DisplayLookup` covers.

## Findings

| source | as written | input that shows it | evidently intended | confidence | as-written member | corrected member |
|---|---|---|---|---|---|---|
| src/components/MeditationPlayer.tsx:141-164 | the interval callback reads `currentPhase` and `totalDuration` from the render in which `startTimer` ran, so it keeps timing the captured phase and keeps setting the same next phase | press play once from phase 0 and let it run: after 180 s it shows phase 1; after 359 s it shows phase 1 with 179 s elapsed and "-1:-59" remaining; it never reaches phase 2 and never completes | each tick reads the live phase and its duration, so the six phases run in order and the session completes after 960 s | high (not executed) | MeditationPlayer.StaleTimerNeverPassesNextPhase, MeditationPlayer.PlayFromStartNeverCompletes, MeditationPlayer.ElapsedOvershootsLivePhase | MeditationPlayer.IntendedTickStep, MeditationPlayer.IntendedSessionCompletes |
