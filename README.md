# NeuroSpeak therapy-session engine in Dafny

This project models the logic behind the NeuroSpeak speech-therapy web app.

- **Decision engine.** `calculateAdaptiveDecision` weighs a speech snapshot (pronunciation, fluency, transcription) and an emotion snapshot (emotion state, engagement level, engagement score, confidence) into a composite score. From that score it derives a therapy level, a focus area, a confidence score and a recommendation.
- **Therapy provider.** It holds the live session: the active flag, the start time, the current metrics, the cached decision and the append-only session history. Its operations are `startSession`, `endSession`, `updateSpeechMetrics`, `updateEmotionMetrics` and `setLanguage`.
- **Small page and context helpers.** The mock auth state (`login`, `signup`, `logout`, `selectRole`, `isAuthenticated`), the role-to-dashboard routes in the header and on the role-selection page, the `mm:ss` session timer, and the score tiers and suggestion list on the feedback page.

Modules, one per file:

- `Options`: the optional value that stands for `null`, `undefined` and optional properties.
- `Js`: the JavaScript built-ins the code relies on. These are `Math.round`, integer `toString`, `padStart` and `split(sep)[0]`.
- `TherapyContext`: the engine, the provider state as a value (`TherapyState`) with one function per operation, and the `TherapyProvider` class whose fields are that state. Each method of the class is proved to produce exactly the state its operation function gives.
- `AuthContext`, `Header`, `RoleSelect`, `TherapySession`, `Feedback`: one module per page or context.

Modelling conventions:

- Scores are exact reals.
- `Math.round(x)` is `Floor(x + 1/2)`.
- A clock reading (`Date.now()`, `new Date()`) is a parameter `now`, in milliseconds.
- A session record's `id` is the decimal spelling of `now`.
- A partial patch is a record of optional fields.
- Each provider call is one sequential step over the current state.

Facts about the code that the model keeps:

- `startSession` neither resets nor recomputes the cached decision (`StartResetsMetrics`, `StartCanLeaveDecisionStale`).
- `updateSpeechMetrics` and `updateEmotionMetrics` apply while no session is active (`SpeechUpdateRecomputes`).
- The confidence score is not clamped and reaches 120 (`PerfectCalmSession`, `ScoreBounds`).
- The cached decision is not always the engine's output for the current metrics. The initial decision is a fixed default, and a start keeps the old decision. Only after an update is it current (`UpdatesMakeDecisionCurrent`).

## Model

| member | source | states |
|---|---|---|
| Js.Round | src/context/TherapyContext.tsx:123 | `Math.round` gives the integer within one half of its argument, halves rounding up |
| Js.ToDecimal | src/context/TherapyContext.tsx:151 | `toString` of a non-negative integer is a digit string without leading zeros that reads back as the number and has exactly as many digits as the number needs |
| Js.PadStart | src/pages/TherapySession.tsx:35 | `padStart` keeps the string as its suffix, fills only the front with the pad character, and never shortens: the length is the larger of the width and the original length |
| Js.SplitFirst | src/context/AuthContext.tsx:33 | `split(sep)[0]` is the longest separator-free prefix: the whole string without a separator, else everything before the first one |
| TherapyContext.CalculateAdaptiveDecision | src/context/TherapyContext.tsx:75-126 | the four outputs are the level, focus, confidence and recommendation rules applied to the composite score and the normalised speech values; their properties are stated by `LevelThresholds`, `FocusAreaRule`, `ConfidenceIsRoundedPercentage`, `BreakOverridesScore` and `RecommendationFollowsLevel` |
| TherapyContext.CompositeScore | src/context/TherapyContext.tsx:80-93 | the weighted, unclamped composite; `ScoreBounds` bounds it by [0, 1.2] for in-range metrics and `PerfectCalmSession` shows it reaches 1.2 |
| TherapyContext.LevelFor | src/context/TherapyContext.tsx:96-98 | advanced exactly above 0.7, intermediate exactly in (0.4, 0.7], beginner exactly at or below 0.4 |
| TherapyContext.FocusFor | src/context/TherapyContext.tsx:101-106 | conversation exactly when pronNorm > fluencyNorm, pronNorm > 0.6 and fluencyNorm > 0.6; fluency exactly when pronNorm leads, pronNorm > 0.6 and fluencyNorm <= 0.6; pronunciation otherwise |
| TherapyContext.RecommendationFor | src/context/TherapyContext.tsx:109-118 | frustration or distraction gives the break message; otherwise the message is the one for the level of the score, the intermediate one naming the focus area |
| TherapyContext.LevelThresholds | src/context/TherapyContext.tsx:96-98 | the level is advanced exactly above 0.7, intermediate exactly in (0.4, 0.7], beginner exactly at or below 0.4 |
| TherapyContext.LevelMonotone | src/context/TherapyContext.tsx:96-98 | a higher composite score never gives a lower level |
| TherapyContext.FocusAreaRule | src/context/TherapyContext.tsx:101-106 | the focus is conversation exactly when pronNorm > fluencyNorm, pronNorm > 0.6 and fluencyNorm > 0.6; it is fluency exactly when pronNorm leads, pronNorm > 0.6 and fluencyNorm <= 0.6; otherwise it is pronunciation, so the `pronNorm < 0.5` branch changes nothing |
| TherapyContext.BreakOverridesScore | src/context/TherapyContext.tsx:110-111 | frustration or distraction gives the take-a-break message whatever the score |
| TherapyContext.RecommendationFollowsLevel | src/context/TherapyContext.tsx:112-118 | otherwise an advanced level gives the advanced-practice message, intermediate gives the focus message naming the focus area, and beginner gives the foundational message |
| TherapyContext.ConfidenceIsRoundedPercentage | src/context/TherapyContext.tsx:123 | the confidence score is within one half of 100 times the composite |
| TherapyContext.ScoreBounds | src/context/TherapyContext.tsx:85-93 | with metrics in [0, 100], the composite lies in [0, 1.2] and the confidence in [0, 120]: it is not clamped to 1 or 100 |
| TherapyContext.PerfectCalmSession | src/context/TherapyContext.tsx:85-123 | 100/100/100, calm and focused gives composite 1.2, advanced, confidence 120 and the advanced-practice message |
| TherapyContext.MergeSpeech | src/context/TherapyContext.tsx:166 | the object spread of a speech patch over the old speech metrics; `MergeSpeechFields` and `MergeIdempotent` state its field-by-field meaning |
| TherapyContext.MergeEmotion | src/context/TherapyContext.tsx:175 | the object spread of an emotion patch over the old emotion metrics; `MergeEmotionFields` and `MergeIdempotent` state its field-by-field meaning |
| TherapyContext.MergeSpeechFields | src/context/TherapyContext.tsx:166 | merging a speech patch: each supplied field overwrites, each absent field keeps its old value |
| TherapyContext.MergeEmotionFields | src/context/TherapyContext.tsx:175 | merging an emotion patch: each supplied field overwrites, each absent field keeps its old value |
| TherapyContext.MergeIdempotent | src/context/TherapyContext.tsx:164-180 | applying a patch twice equals applying it once; the empty patch changes nothing |
| TherapyContext.LanguageSet | src/context/TherapyContext.tsx:137-139 | `setLanguage` replaces the language only (`TherapyProvider.SetLanguage`) |
| TherapyContext.Started | src/context/TherapyContext.tsx:141-146 | the state after `startSession`; `StartResetsMetrics` states every field |
| TherapyContext.Ended | src/context/TherapyContext.tsx:148-161 | the state after `endSession`; `EndAppendsOneRecord`, `EndWithoutStartKeepsHistory` and `HistoryAppendOnly` state its effect |
| TherapyContext.SpeechUpdated | src/context/TherapyContext.tsx:164-171 | the state after `updateSpeechMetrics`; `SpeechUpdateRecomputes` and `UpdatesMakeDecisionCurrent` state its effect |
| TherapyContext.EmotionUpdated | src/context/TherapyContext.tsx:173-180 | the state after `updateEmotionMetrics`; `EmotionUpdateRecomputes` and `UpdatesMakeDecisionCurrent` state its effect |
| TherapyContext.StartResetsMetrics | src/context/TherapyContext.tsx:141-146 | start sets the session active and the start time to `now`; it resets speech to (0, 0, "") and emotion to (neutral, focused, 75, 0); it keeps the decision, history and language |
| TherapyContext.EndAppendsOneRecord | src/context/TherapyContext.tsx:148-158 | with a start time, ending appends exactly one record and keeps the earlier ones; the record holds the start time, (now - start)/1000 as duration, the current metrics and decision, and an id that reads back as `now` |
| TherapyContext.EndWithoutStartKeepsHistory | src/context/TherapyContext.tsx:148-161 | without a start time the history is unchanged; in every case the session ends inactive with no start time, metrics and decision kept |
| TherapyContext.SpeechUpdateRecomputes | src/context/TherapyContext.tsx:164-171 | a speech update merges into speech, leaves emotion unchanged, sets the decision to the engine's output for the merged speech and current emotion, and changes nothing else, in any session state |
| TherapyContext.EmotionUpdateRecomputes | src/context/TherapyContext.tsx:173-180 | an emotion update merges into emotion, leaves speech unchanged, sets the decision to the engine's output for the current speech and merged emotion, and changes nothing else |
| TherapyContext.UpdatesMakeDecisionCurrent | src/context/TherapyContext.tsx:164-180 | after either update the cached decision equals the engine's output for the current metrics |
| TherapyContext.StartCanLeaveDecisionStale | src/context/TherapyContext.tsx:141-161 | there is a state whose decision is current but stops being current after start, because start resets the metrics without recomputing the decision; ending that session right away logs one record with the default metrics beside the old decision, which is not the engine's output for them |
| TherapyContext.HistoryAppendOnly | src/context/TherapyContext.tsx:158 | over any sequence of calls, the old history stays a prefix of the new one, which grows by at most one record per end call |
| TherapyContext.ActiveIffStartedInvariant | src/context/TherapyContext.tsx:129-161 | every sequence of calls keeps "active exactly when a start time is set" |
| TherapyContext.IdleEndKeepsHistory | src/context/TherapyContext.tsx:148-149 | in a state where that invariant holds and no session is active, ending writes no history |
| TherapyContext.EndToEndSession | src/context/TherapyContext.tsx:141-180 | start, a speech report of 80/80, a neutral/focused/80 emotion report, then end: this logs exactly one record, which is advanced with confidence 80 and spans (end - start)/1000 seconds |
| TherapyContext.CycleAppends | src/context/TherapyContext.tsx:141-158 | one start/end cycle appends exactly one record, stamped with its start time |
| TherapyContext.CyclesAppendRecords | src/context/TherapyContext.tsx:141-158 | n start/end cycles append exactly n records, keep the old ones, and the i-th new record carries the i-th start time |
| TherapyContext.CyclesChronological | src/context/TherapyContext.tsx:150-158 | from the initial state, sessions started at non-decreasing times are logged in order of start time |
| TherapyContext.TherapyProvider.constructor | src/context/TherapyContext.tsx:129-135 | the provider starts idle, in English, with the default metrics and decision, an empty history and no start time |
| TherapyContext.TherapyProvider.SetLanguage | src/context/TherapyContext.tsx:137-139 | only the language changes |
| TherapyContext.TherapyProvider.StartSession | src/context/TherapyContext.tsx:141-146 | the new state is that of `Started` from the old state |
| TherapyContext.TherapyProvider.EndSession | src/context/TherapyContext.tsx:148-162 | the new state is that of `Ended` from the old state, and the old history is a prefix of the new one |
| TherapyContext.TherapyProvider.UpdateSpeechMetrics | src/context/TherapyContext.tsx:164-171 | the new state is that of `SpeechUpdated`, and the decision is current afterwards |
| TherapyContext.TherapyProvider.UpdateEmotionMetrics | src/context/TherapyContext.tsx:173-180 | the new state is that of `EmotionUpdated`, and the decision is current afterwards |
| AuthContext.LoginName | src/context/AuthContext.tsx:33 | the login name is the email's prefix before the first '@', or the whole email without '@' |
| AuthContext.AuthProvider.constructor | src/context/AuthContext.tsx:25 | nobody is signed in at first |
| AuthContext.SignedInAfterCalls | src/context/AuthContext.tsx:27-63 | after any sequence of auth calls someone is signed in (`isAuthenticated`) exactly when the last login, signup or logout was a login or signup; with none of those, exactly when someone was signed in before, since choosing a role never signs anyone in or out |
| AuthContext.AuthProvider.Login | src/context/AuthContext.tsx:27-36 | the user becomes id "1", the given email, the login name of the email and role participant, with no avatar, as the `LoginCall` step of `SignedInAfterCalls`; the user is authenticated afterwards |
| AuthContext.AuthProvider.Signup | src/context/AuthContext.tsx:38-47 | the user becomes id "1", the given email and name and role participant, with no avatar, as the `SignupCall` step of `SignedInAfterCalls`; the user is authenticated afterwards |
| AuthContext.AuthProvider.Logout | src/context/AuthContext.tsx:49-51 | the user is cleared, as the `LogoutCall` step of `SignedInAfterCalls`, so nobody is authenticated |
| AuthContext.AuthProvider.SelectRole | src/context/AuthContext.tsx:53-57 | with a user present only the role changes; without one nothing changes; this is the `SelectRoleCall` step of `SignedInAfterCalls`, and whether someone is authenticated is unchanged |
| Header.GetDashboardPath | src/components/layout/Header.tsx:25-36 | the path is always one of `/admin`, `/caregiver-dashboard` and `/dashboard` |
| Header.DashboardPathByRole | src/components/layout/Header.tsx:25-36 | no user gives `/dashboard`; admin gives `/admin`; therapist and caregiver give `/caregiver-dashboard`; participant gives `/dashboard` |
| RoleSelect.RolesListedOnce | src/pages/RoleSelect.tsx:13-42 | the page offers four roles, each role exactly once |
| RoleSelect.RoleTarget | src/pages/RoleSelect.tsx:52-62 | the route for a role: admin to `/admin`, therapist and caregiver to `/caregiver-dashboard`, participant to `/dashboard`; `RoleTargetMatchesHeader` shows it is the header's mapping |
| RoleSelect.RoleTargetMatchesHeader | src/pages/RoleSelect.tsx:52-62 | for every role the page navigates where the header's dashboard link points for a user with that role |
| RoleSelect.HandleRoleSelect | src/pages/RoleSelect.tsx:48-63 | the role is recorded through `selectRole` (only the role changes, no-op without a user); the target is the role's route, and for a signed-in user it is the header's dashboard link |
| TherapySession.FormatTime | src/pages/TherapySession.tsx:32-36 | the padded minutes, a colon and the padded seconds; `FormatTimeRoundTrip`, `FormatTimeInjective` and `FormatTimeWide` state what it shows |
| TherapySession.MinutesAndSeconds | src/pages/TherapySession.tsx:33-34 | mins * 60 + secs == seconds and secs < 60 |
| TherapySession.FieldOfTwoDigits | src/pages/TherapySession.tsx:35 | a value below 100 is displayed as exactly two digits that read back as the value |
| TherapySession.FormatTimeRoundTrip | src/pages/TherapySession.tsx:32-36 | below 6000 seconds the display has exactly 5 characters, `MM:SS`, and parses back to the seconds |
| TherapySession.FormatTimeInjective | src/pages/TherapySession.tsx:32-36 | below 6000 seconds distinct counts give distinct displays |
| TherapySession.FormatTimeWide | src/pages/TherapySession.tsx:35 | from 6000 seconds on, the minutes field is the full decimal of three or more digits, so the display is longer than 5 |
| TherapySession.SessionTimer.constructor | src/pages/TherapySession.tsx:14 | the counter starts at 0 |
| TherapySession.SessionTimer.Tick | src/pages/TherapySession.tsx:17-29 | each tick adds exactly 1 while a session is active and nothing otherwise |
| TherapySession.SessionTimer.Display | src/pages/TherapySession.tsx:61-66 | the timer is shown exactly while a session is active, its text is `FormatTime` of the counter, and below 6000 it reads back as the counter |
| TherapySession.SessionTimer.HandleEndSession | src/pages/TherapySession.tsx:38-42 | the session is ended as `endSession` does, the counter goes back to 0, and the returned route is `/feedback` |
| Feedback.OverallScore | src/pages/Feedback.tsx:25-29 | the overall score is within one half of the mean of pronunciation, fluency and engagement |
| Feedback.ScoreColor | src/pages/Feedback.tsx:31-35 | `getScoreColor`; `ColorAndBgAgree` shows it is the colour of the score's inclusive tier and `TierMonotone` that the tier is monotone |
| Feedback.ScoreBg | src/pages/Feedback.tsx:37-41 | `getScoreBg`; `ColorAndBgAgree` shows it picks the same tier as `getScoreColor` |
| Feedback.ColorAndBgAgree | src/pages/Feedback.tsx:31-41 | tiers are inclusive: >= 80 success, [60, 80) warning, < 60 destructive; text colour and background pick the same tier |
| Feedback.TierMonotone | src/pages/Feedback.tsx:31-41 | a higher score never gets a lower tier |
| Feedback.Suggestions | src/pages/Feedback.tsx:191-214 | each targeted suggestion appears exactly when its metric is below 70; the targeted ones come in page order (pronunciation, fluency, engagement) and the consistency reminder always comes last, so the list is fixed exactly; it has 1 to 4 items |

## Left out

- The microphone and camera analysers are not part of this model: `SpeechAnalyzer.tsx` and `EmotionDetector.tsx`. They produce patches from random mock data (timers, `Math.random`, the media devices). `SpeechAnalyzer` also starts a session when recording begins without an active one and ends it when recording stops; those calls are the modelled `startSession` and `endSession`.
- The participant dashboard's statistics are not part of this model: `Dashboard.tsx` is display only.
- The purely presentational pages and components are not part of this model: Landing, AdminDashboard, CaregiverDashboard, Charts, StatCard, Footer, App, Index and AdaptiveEngine.
- React mechanics are not modelled. This covers stale `useCallback` closures, batched or deferred `setState`, and setting the decision from inside a state-updater callback. Each call is one sequential step over the current state.
- IEEE double arithmetic is not modelled. Scores are exact reals, so a composite that lands next to 0.4 or 0.7 through floating-point rounding may classify differently in JavaScript.
- The clock is not modelled. Clock readings are parameters. A record id is the decimal spelling of the end time, which is not a unique token. `endSession` reads the clock twice, once for the id and once for the duration; the model uses one reading `now` for both.
- A patch that sets a key explicitly to `undefined` is not modelled. Such a key overwrites the old value under object spread; a patch here supplies a value or leaves the field out.
- The auth delays and passwords are left out. The `setTimeout` delays in `login` and `signup` are dropped, and their password arguments are ignored as in the code.
- Navigation is modelled as the returned route. `HandleRoleSelect` and `SessionTimer.HandleEndSession` return their target route instead of calling the router. The header's logout handler and its menu state are not part of this model.
- The one-second interval is modelled only as ticks. `SessionTimer.Tick` is one firing of the interval; installing and clearing the interval is not modelled.
- `formatTime` is modelled on non-negative whole seconds only, which is all the counter produces.
