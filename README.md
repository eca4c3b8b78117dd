# Meetly.AI decision logic in Dafny

Meetly.AI is a meeting-transcript summariser. A React client sends a transcript to a FastAPI
server, which asks a language model for a summary, action items, decisions and a sentiment, stores
the result in SQLite and serves it back. Sign-in goes through Firebase, with an optional email
one-time-password (OTP) step.

This project models the decision logic inside that plumbing and proves what it does:

- **Meeting details page.** The sentiment normalisation turns a stored sentiment object into three
  pie-chart slices. A `{positive, neutral, negative}` triple is passed through. A
  `{sentiment, score}` pair goes through one of two asymmetric formulas, or through a fixed
  33/34/33 split (`MeetingDetailsPage`).
- **Server.**
  - The `analyze` input check and the fallbacks for the model's reply.
  - The list and detail shaping of stored meetings.
  - The feedback message check.
  - The in-memory OTP store behind `send_otp` and `verify_otp`. It is a class over a map, and each
    method is proved equal to a step function whose properties are lemmas (`Backend`).
- **Sign-in page.**
  - Display-name derivation.
  - The password gate.
  - The `m:ss` countdown display and the countdown tick.
  - The verify, resend, cancel and mode-toggle handlers. These are methods of a `LoginState` class
    (`LoginPage`).
- **Analyze page.**
  - The transcript choice.
  - The Generate-button predicate.
  - Normalisation of the server answer.
  - The chart defaults (`AnalyzePage`).
- **Settings page.**
  - The defaults and the initial load.
  - Single-key toggles, the selects and reset, as methods of a `SettingsState` class.
  - The feedback gate (`SettingsPage`).
- **Dashboard.**
  - The collapsed list.
  - The activity chart per time range.
  - The sentiment label and the clamped bar width.
  - The selection and close handlers, as functions on the page state (`DashboardPage`).
- **Navigation bar and application shell.** The page-title table, the colour-scheme toggle, the
  theme choice and the night-time rule (`Navbar`, `App`).

Shared modules:

- `Js` holds JavaScript and Python value semantics. A JSON number field is missing, `null` or a
  number (`Slot`). `||` defaults and `Math.round` are modelled over `real`.
- `Strings` holds `trim`/`strip`, `toLowerCase`, `split("@")[0]`, `toString`/`str` of naturals
  and `padStart`, each with the facts the other modules need.
- `Entities` holds the JSON shapes exchanged between server and client.

Time, random numbers, the language model, the mail service, Firebase and the database are not
called. What they return is a parameter of the operation that uses it.

## Model

| member | source | states |
|---|---|---|
| Strings.Trim | backend/main.py:188 | for the language's whitespace set (JavaScript `trim` or Python `strip`): no longer than the input, and its first and last characters are not whitespace |
| Strings.SpaceSetsDiffer | backend/main.py:188 | the two whitespace sets differ: U+001C and U+0085 are stripped by Python only, U+FEFF is trimmed by JavaScript only |
| Strings.TrimIsSlice | backend/main.py:188 | the trimmed string is the slice of the input that follows its leading whitespace, and everything cut before and after it is whitespace, so together with `Trim`'s ends only whitespace is removed and all of it |
| Strings.TrimKeepsTrimmed | backend/main.py:188 | a string with no whitespace at either end trims to itself, so trimming twice is trimming once |
| Strings.BlankIffTrimsEmpty | frontend_vite/src/pages/Login.jsx:230 | a blank string, one of whitespace only, is exactly a string that trims to empty |
| Strings.ToLower | frontend_vite/src/pages/MeetingDetails.jsx:148 | same length; each letter A-Z is mapped to its lower-case form and every other character is kept |
| Strings.ToLowerIdempotent | frontend_vite/src/pages/MeetingDetails.jsx:148 | lower-casing an already lower-cased label changes nothing |
| Strings.ToLowerEqual | frontend_vite/src/pages/MeetingDetails.jsx:148 | strings that agree after lower-casing each character lower-case to the same string |
| Strings.BeforeFirst | frontend_vite/src/pages/Login.jsx:124 | `split(sep)[0]`: a prefix of the input without `sep`, followed in the input by `sep` unless it is the whole input |
| Strings.DecimalString | backend/main.py:402 | the decimal text of a natural number: non-empty, all digits, no leading zero from 10 on |
| Strings.DecimalStringValue | backend/main.py:402 | reading the printed digits back gives the number |
| Strings.DecimalStringInjective | backend/main.py:429 | distinct numbers print as distinct strings |
| Strings.DecimalStringLength | backend/main.py:402 | a number from 10^(k-1) up to below 10^k prints as exactly k characters |
| Strings.PadStart | frontend_vite/src/pages/Login.jsx:760 | `padStart(width, fill)`: length max(width, length of s), ends with `s`, and everything before `s` is the fill character |
| Strings.ZeroPaddedValue | frontend_vite/src/pages/Login.jsx:760 | padding digits with zeros keeps them digits and keeps their value |
| Js.Round | frontend_vite/src/pages/MeetingDetails.jsx:153 | `Math.round`: the integer within half of x, halves rounded up |
| Js.Or | frontend_vite/src/pages/Analyze.jsx:94-96 | `field \|\| fallback` on a number field: the number when it is non-zero, the fallback when it is 0, null or missing |
| Js.Clamp | frontend_vite/src/pages/Dashboard.jsx:494 | `min(max(x, lo), hi)` lies in [lo, hi]; it is x when x does, lo below the range and hi above it |
| MeetingDetailsPage.SentimentData | frontend_vite/src/pages/MeetingDetails.jsx:139-171 | a non-empty result is three slices Positive, Neutral, Negative with fixed colours; the result is empty exactly when there is no sentiment, or when `positive` is undefined and the label-and-score condition fails |
| MeetingDetailsPage.TriplePassesThrough | frontend_vite/src/pages/MeetingDetails.jsx:141-146 | a defined `positive` wins over any label; the fields are shown as they are, missing or null as 0, without normalisation |
| MeetingDetailsPage.LabelCaseIsIgnored | frontend_vite/src/pages/MeetingDetails.jsx:147-148 | two labels that lower-case alike give the same chart |
| MeetingDetailsPage.CapitalisedLabels | frontend_vite/src/pages/MeetingDetails.jsx:148 | "Positive" and "POSITIVE" lower-case to "positive", and "Negative" and "NEGATIVE" to "negative" |
| MeetingDetailsPage.PositiveLabel | frontend_vite/src/pages/MeetingDetails.jsx:152-155 | positive = round((score+1)\*50), neutral = 100 - 0.8\*positive, negative = max(0, -0.2\*positive), which is 0 for score >= -1; the total is then 100 + 0.2\*positive; for score in [-1, 1], positive is in [0, 100] and neutral in [20, 100] |
| MeetingDetailsPage.PositiveLabelUnclamped | frontend_vite/src/pages/MeetingDetails.jsx:153 | no clamp: a score above 1 gives positive >= 100, and a score of at least 1.01 gives positive > 100 |
| MeetingDetailsPage.NegativeLabel | frontend_vite/src/pages/MeetingDetails.jsx:156-159 | negative = round(abs(score)\*80) >= 0, neutral = 100 - 0.8\*negative, positive is always 0, and the total is 100 + 0.2\*negative; for score in [-1, 1], negative <= 80 and neutral is in [36, 100] |
| MeetingDetailsPage.OtherLabel | frontend_vite/src/pages/MeetingDetails.jsx:160-164 | any other label gives exactly 33/34/33, which sums to 100 |
| MeetingDetailsPage.WorkedExamples | frontend_vite/src/pages/MeetingDetails.jsx:150-170 | positive/1 gives 100/20/0, positive/0 gives 50/60/0, negative/-1 gives 0/36/80, neutral gives 33/34/33 |
| MeetingDetailsPage.UnreadSentimentShowsNoChart | backend/main.py:236 | a sentiment dict holding only keys the page does not read is kept by the server, and its meeting shows no chart; without any sentiment the neutral fallback shows 33/34/33 |
| Backend.OrList | backend/main.py:233-235 | Python `xs or fallback` on a list: a missing or empty list gives the fallback, any other list is kept |
| Backend.OrSentiment | backend/main.py:236 | Python `d or fallback` on the sentiment dict: any dict with a key is kept, even one whose keys no page reads; a missing or empty dict gives the fallback |
| Backend.RecordFor | backend/main.py:238-246 | the stored record carries the request's title and date, the stripped transcript, and the reply's lists and sentiment after their fallbacks; its sentiment always has keys |
| Backend.Analyze | backend/main.py:186-258 | a blank transcript gets exactly 400 "Transcript is empty."; for a reply of the declared types, the request succeeds exactly when the transcript is non-blank and the model call, the reading of its reply and the save raise nothing; any other failure is a 500 |
| Backend.AnalyzeFallbacks | backend/main.py:233-236 | missing or empty summary and decisions become []; action items come from `action_items`, else `actions`, else []; a missing or empty sentiment becomes neutral/0.0; the answer's sentiment always has keys |
| Backend.AnalyzeUnparsedReply | backend/main.py:226-236 | a reply from which no JSON can be read yields empty lists and the neutral sentiment |
| Backend.SummaryPreview | backend/main.py:109 | the first min(2, n) summary items in order, or [] when no summary is stored |
| Backend.ListMeetings | backend/main.py:104-113 | one entry per row, in row order, each with the row's id, title, date and creation time and the preview of its summary |
| Backend.GetMeeting | backend/main.py:115-133 | a missing row is exactly 404 "Meeting not found."; otherwise id, title, date, transcript and creation time as stored, each JSON column's value, and [] for an empty list column and `{}` for an empty sentiment column |
| Backend.AnalyzedMeetingReadsBack | backend/main.py:238-255 | for a reply of the declared types, the detail endpoint returns for the stored meeting the lists and sentiment `analyze` answered, with the stripped transcript; the list previews the first two summary items |
| Backend.SubmitFeedback | backend/main.py:314-322 | a blank message gets 400 "Feedback message is empty."; success exactly when the message is non-blank and saving raises nothing |
| Backend.SendOtpStep | backend/main.py:396-411 | a missing or empty email gets 400 "Email is required." and leaves the store as it was; otherwise the email's entry is set to (code text, now + 300) before the mail goes out; success exactly when the mail was delivered, and a missing key, a refusal or an unreachable mail service is a 500 |
| Backend.VerifyOtpStep | backend/main.py:414-436 | success exactly when email and code are given, an entry exists, now <= expiry, and the codes match; success deletes the entry; every failure is a 400; the store is either unchanged or loses just this email |
| Backend.SendStoresSixDigitCode | backend/main.py:402-406 | the stored code is six digits reading back as the drawn number, expiring at now + 300; earlier entries for the email are replaced and other emails' entries are kept |
| Backend.VerifyRejectsUnknown | backend/main.py:419-425 | without email or code, or without an entry, the reply is the corresponding 400 and the store is untouched |
| Backend.ExpiryIsStrict | backend/main.py:426-428 | at the expiry instant the stored code is accepted; after it any non-empty code, the stored one included, deletes the entry and gets "OTP expired." |
| Backend.WrongCodeKeepsEntry | backend/main.py:429-430 | a wrong code before expiry gets "Invalid OTP." and the store is unchanged |
| Backend.CodeIsSingleUse | backend/main.py:432-433 | after a successful verification, the same request finds no entry |
| Backend.SentCodeVerifies | backend/main.py:402-433 | the code just sent verifies at a later time exactly when that time is within 300 seconds |
| Backend.ResendInvalidatesOldCode | backend/main.py:406-430 | after a second send with a different code, the first code gets "Invalid OTP." and the entry stays |
| Backend.OtpStore.SendOtp | backend/main.py:396-411 | the new store and the reply are those of `SendOtpStep` on the old store |
| Backend.OtpStore.VerifyOtp | backend/main.py:414-436 | the new store and the reply are those of `VerifyOtpStep` on the old store |
| Backend.OtpStore.constructor | backend/main.py:347 | the store starts empty |
| LoginPage.OtherMode | frontend_vite/src/pages/Login.jsx:734 | the toggle always changes the mode |
| LoginPage.DerivedName | frontend_vite/src/pages/Login.jsx:208 | a non-empty display name is used as is; otherwise the name is the part of the email before its first "@", which holds no "@" |
| LoginPage.PasswordError | frontend_vite/src/pages/Login.jsx:200 | an error exactly when the password has fewer than 6 characters, with the message "Password must be at least 6 characters." |
| LoginPage.ResendTarget | frontend_vite/src/pages/Login.jsx:269-270 | `pending.email`, else `email`, else `otpSentTo`, each only when non-empty; nothing when all are empty |
| LoginPage.TimerDisplay | frontend_vite/src/pages/Login.jsx:759-760 | the countdown text: whole minutes, a colon and the seconds padded to two digits with "0"; its reading back is stated by `TimerDisplayReadsBack` |
| LoginPage.TimerDisplayReadsBack | frontend_vite/src/pages/Login.jsx:759-760 | the display is digits, a colon, then exactly two digits; they read back as timer / 60 and timer % 60 |
| LoginPage.TimerDisplayAtStart | frontend_vite/src/pages/Login.jsx:759-760 | 300 seconds display as "5:00" |
| LoginPage.TimerDisplayPadsSeconds | frontend_vite/src/pages/Login.jsx:759-760 | 65 seconds display as "1:05" |
| LoginPage.LoginState.constructor | frontend_vite/src/pages/Login.jsx:48-63 | the initial state: sign-in mode, empty fields, timer 300, resend counter 30, no OTP step |
| LoginPage.LoginState.Tick | frontend_vite/src/pages/Login.jsx:85-93 | outside the OTP step nothing changes; with time left the timer drops by exactly 1 and the countdown goes on; at 0 or below the expiry message is set and no tick follows |
| LoginPage.LoginState.EmailSignIn | frontend_vite/src/pages/Login.jsx:147-187 | a failed sign-in or a failed OTP send shows "Invalid email or password." and leaves the pending record, OTP step, timer, target address and signed-in user as they were; with two-factor on, the pending user, target address, OTP step and timer 300 are set; otherwise the user is signed in under the derived name and the OTP fields are kept |
| LoginPage.LoginState.SignUp | frontend_vite/src/pages/Login.jsx:195-222 | a short password is refused before any account is created; otherwise the created account is signed in under the derived name, or the error message is shown (a fixed message when it is empty) |
| LoginPage.LoginState.VerifyOtp | frontend_vite/src/pages/Login.jsx:228-255 | a blank code is refused with "Please enter the 6-digit code." before any request; without a pending record, or when the server refuses, "Invalid or expired OTP." and the pending record and signed-in user are kept; on success the pending record is removed and its user signed in |
| LoginPage.LoginState.ResendOtp | frontend_vite/src/pages/Login.jsx:260-286 | timer 300, resend counter 30 and button disabled; the code goes to `ResendTarget`; the message says success exactly when there was a target and the send succeeded |
| LoginPage.LoginState.ResendCooldownElapsed | frontend_vite/src/pages/Login.jsx:284 | the resend button is enabled again |
| LoginPage.LoginState.CancelOtpStep | frontend_vite/src/pages/Login.jsx:291-296 | the pending record is removed, the code cleared, the OTP step left and the target address nulled |
| LoginPage.LoginState.ToggleMode | frontend_vite/src/pages/Login.jsx:732-735 | the mode swaps and the error is cleared |
| AnalyzePage.OrArray | frontend_vite/src/pages/Analyze.jsx:76-78 | JavaScript's or-default with [] on an array: only a missing array is replaced, an empty one is kept |
| AnalyzePage.NormaliseResults | frontend_vite/src/pages/Analyze.jsx:75-80 | missing lists become [] and a missing sentiment becomes `{}`; present values are kept |
| AnalyzePage.ChartData | frontend_vite/src/pages/Analyze.jsx:92-98 | [] exactly when there are no results; otherwise three slices Positive, Neutral, Negative with their colours |
| AnalyzePage.ChartFieldDefaults | frontend_vite/src/pages/Analyze.jsx:94-96 | a non-zero field is shown as is; a missing, null or zero field is replaced by 70, 20 or 10 |
| AnalyzePage.DefaultsSumToHundred | frontend_vite/src/pages/Analyze.jsx:94-96 | the all-default chart is 70/20/10, summing to 100 |
| AnalyzePage.Transcript | frontend_vite/src/pages/Analyze.jsx:60-61 | the file's text in upload mode when a file is chosen, the pasted text otherwise |
| AnalyzePage.GenerateDisabled | frontend_vite/src/pages/Analyze.jsx:187-191 | the button's disabled test: loading, or upload mode without a file, or paste mode with blank text; its meaning is stated by `EnabledIff` |
| AnalyzePage.EnabledSendsInput | frontend_vite/src/pages/Analyze.jsx:187-191 | an enabled button means nothing is loading, a chosen file in upload mode, and non-blank pasted text in paste mode |
| AnalyzePage.EnabledIff | frontend_vite/src/pages/Analyze.jsx:187-191 | the button is enabled exactly when nothing is loading and the mode has input: a file, or text that trims to something, which is text with a non-whitespace character |
| AnalyzePage.PastedTextServerCheck | backend/main.py:188-190 | for pasted text that enables the button, under any title and date, the server refuses it as empty exactly when every character is one that `strip` removes; text with a character `strip` keeps is never refused |
| AnalyzePage.SeparatorPassesClientOnly | frontend_vite/src/pages/Analyze.jsx:187-191 | the text U+001C enables the button, since `trim` keeps it, and is then refused by the server with 400 "Transcript is empty.", since `strip` removes it |
| AnalyzePage.BlankFileReachesServer | frontend_vite/src/pages/Analyze.jsx:60-61 | a file whose text `strip` removes entirely enables the button and is then refused by the server with 400, under any title and date |
| AnalyzePage.FromResponse | frontend_vite/src/pages/Analyze.jsx:73-80 | normalising a server answer keeps all four fields as the server sent them |
| AnalyzePage.ServerSentimentGivesDefaultChart | frontend_vite/src/pages/Analyze.jsx:92-98 | after an analysis whose sentiment has no truthy triple field, the neutral fallback included, the chart is 70/20/10 whatever the label and score |
| SettingsPage.Defaults | frontend_vite/src/pages/Settings.jsx:37-47 | notifications on, sound off, auto dark mode exactly when the scheme is "dark", English, data retention on, two-factor off, Gemini 2.5 Flash, empty feedback and no feedback list |
| SettingsPage.InitialSettings | frontend_vite/src/pages/Settings.jsx:50-53 | the saved object when present, the defaults otherwise |
| SettingsPage.Toggle | frontend_vite/src/pages/Settings.jsx:80-82 | only the given key is negated; every other key and every non-switch field is unchanged |
| SettingsPage.ToggleTwice | frontend_vite/src/pages/Settings.jsx:80-82 | toggling a key twice restores the settings |
| SettingsPage.TogglesCommute | frontend_vite/src/pages/Settings.jsx:80-82 | toggles of two keys give the same settings in either order |
| SettingsPage.TwoFactorAlert | frontend_vite/src/pages/Settings.jsx:250-256 | the alert says "disabled" exactly when two-factor was on before the click, and "enabled" exactly when it was off |
| SettingsPage.SubmitFeedbackAsWritten | frontend_vite/src/pages/Settings.jsx:97-122 | as written: blank feedback is refused before any send; any other feedback is sent, always reported as failed, and left in the box |
| SettingsPage.SubmitFeedback | frontend_vite/src/pages/Settings.jsx:97-122 | as intended: blank feedback is refused before any send; sent feedback gives the success alert and an emptied box exactly when the server accepted it |
| SettingsPage.AsWrittenReportsStoredMessageAsFailed | frontend_vite/src/pages/Settings.jsx:114 | for "Great summaries" accepted by the server, the handler as written shows the failure alert and keeps the text; the corrected one shows success and empties the box |
| SettingsPage.SentFeedbackServerCheck | frontend_vite/src/pages/Settings.jsx:98-101 | for feedback the page sends, the server refuses it as empty exactly when `strip` removes all of it, and the corrected handler reports success exactly when the text survives `strip` and saving succeeded |
| SettingsPage.SeparatorFeedbackRefused | backend/main.py:316-317 | the feedback U+001C is sent by the page, since `trim` keeps it, refused by the server as empty, and reported as failed |
| SettingsPage.SettingsState.constructor | frontend_vite/src/pages/Settings.jsx:50-53 | the settings are `InitialSettings` of the saved object and the scheme |
| SettingsPage.SettingsState.ToggleSetting | frontend_vite/src/pages/Settings.jsx:80-82 | the settings become `Toggle` of the old ones |
| SettingsPage.SettingsState.SwitchDarkMode | frontend_vite/src/pages/Settings.jsx:194-197 | auto dark mode is toggled, and so is the shell's colour scheme |
| SettingsPage.SettingsState.SwitchTwoFactor | frontend_vite/src/pages/Settings.jsx:250-256 | two-factor is toggled, and the alert reports the new state from the old value |
| SettingsPage.SettingsState.SetLanguage | frontend_vite/src/pages/Settings.jsx:211-212 | only the language changes |
| SettingsPage.SettingsState.SetAiModel | frontend_vite/src/pages/Settings.jsx:302-303 | only the AI model changes |
| SettingsPage.SettingsState.SetFeedback | frontend_vite/src/pages/Settings.jsx:325-326 | only the feedback text changes |
| SettingsPage.SettingsState.FeedbacksLoaded | frontend_vite/src/pages/Settings.jsx:66-69 | only the feedback list changes |
| SettingsPage.SettingsState.Reset | frontend_vite/src/pages/Settings.jsx:90-94 | the settings become the defaults for the current scheme |
| SettingsPage.SettingsState.SubmitFeedbackForm | frontend_vite/src/pages/Settings.jsx:97-122 | sent flag, alert and new settings are those of the corrected `SubmitFeedback` |
| DashboardPage.Visible | frontend_vite/src/pages/Dashboard.jsx:356 | expanded, all meetings; collapsed, the first min(2, n) in order |
| DashboardPage.ShortListFullyShown | frontend_vite/src/pages/Dashboard.jsx:356 | a list of at most two meetings is shown whole either way |
| DashboardPage.ChartData | frontend_vite/src/pages/Dashboard.jsx:99-125 | week has 7 points, month 4, year 6 |
| DashboardPage.SentimentLabel | frontend_vite/src/pages/Dashboard.jsx:488 | the stored label when it is non-empty, "neutral" otherwise; never empty |
| DashboardPage.BarWidth | frontend_vite/src/pages/Dashboard.jsx:494 | always in [0, 100]; a missing or 0 score gives 50; a score in [-1, 1] gives score\*50+50; at or beyond ±1 it is 100 or 0 |
| DashboardPage.BarWidthMonotone | frontend_vite/src/pages/Dashboard.jsx:494 | a higher score never gives a shorter bar |
| DashboardPage.DefaultSentimentPanel | frontend_vite/src/pages/Dashboard.jsx:488-494 | a meeting stored with the server's fallback sentiment shows "neutral" at width 50 |
| DashboardPage.ToggleExpanded | frontend_vite/src/pages/Dashboard.jsx:336 | only `expandedAll` changes, to its negation |
| DashboardPage.ToggleExpandedTwice | frontend_vite/src/pages/Dashboard.jsx:336 | two clicks restore the state |
| DashboardPage.ToggleShowsAllOrFirstTwo | frontend_vite/src/pages/Dashboard.jsx:336-356 | from collapsed, one click shows all meetings and a second shows the first two again |
| DashboardPage.SelectRange | frontend_vite/src/pages/Dashboard.jsx:124-125 | only the time range changes, and the chart shows that range's data |
| DashboardPage.Initial | frontend_vite/src/pages/Dashboard.jsx:124-151 | on mount: no meetings and so none listed, the list loading so the card shows the shimmer, no error, collapsed, the week chart of 7 points, no meeting selected and no details loading |
| DashboardPage.RecentPanel | frontend_vite/src/pages/Dashboard.jsx:341-356 | the shimmer exactly while loading; then the error text exactly when there is an error; then "No meetings yet" exactly for an empty list; otherwise the visible meetings, never none |
| DashboardPage.MountLoadPanel | frontend_vite/src/pages/Dashboard.jsx:143-170 | after the mount fetch the card shows the load error on failure, "No meetings yet" for a missing or empty list, and otherwise the first two meetings |
| DashboardPage.MeetingsLoaded | frontend_vite/src/pages/Dashboard.jsx:163-170 | list loading always ends; besides that, success sets only the list, to `data.meetings` or [] when it is missing, and failure sets only the error message |
| DashboardPage.StartSelect | frontend_vite/src/pages/Dashboard.jsx:178-181 | selection and details error are cleared and loading starts; nothing else changes |
| DashboardPage.FinishSelect | frontend_vite/src/pages/Dashboard.jsx:184-199 | loading ends; on success only the selection is set as well, on failure only the details error |
| DashboardPage.SelectMeetingOutcome | frontend_vite/src/pages/Dashboard.jsx:178-199 | a full selection selects exactly the loaded meeting, and leaves an error exactly when loading failed |
| DashboardPage.Close | frontend_vite/src/pages/Dashboard.jsx:401 | the selection and the details error are cleared and nothing else changes |
| Navbar.PageTitle | frontend_vite/src/components/Navbar.jsx:35-44 | the title is always one of the seven titles |
| Navbar.FixedTitles | frontend_vite/src/components/Navbar.jsx:36-42 | "/" and "/dashboard", "/analyze", "/history", "/profile" and "/settings" get their titles |
| Navbar.DetailsTitleIffPrefix | frontend_vite/src/components/Navbar.jsx:40 | "Meeting Details" exactly for paths starting with "/meeting/" |
| Navbar.MeetingsListIsNotDetails | frontend_vite/src/components/Navbar.jsx:40-43 | "/meetings" gets the fallback title and "/meeting/42" gets "Meeting Details" |
| Navbar.FallbackIffUnknown | frontend_vite/src/components/Navbar.jsx:43 | "Meetly.AI" exactly for paths that are none of the six fixed paths and do not start with "/meeting/" |
| App.ToggleColorScheme | frontend_vite/src/App.jsx:43-44 | the result is "light" or "dark", and it is "dark" exactly when the previous value was "light" |
| App.ToggleTwice | frontend_vite/src/App.jsx:43-44 | from "light" or "dark", two toggles restore the value |
| App.ToggleFromOtherValue | frontend_vite/src/App.jsx:43-44 | from any other stored value, one toggle gives "light" and two give "dark" |
| App.ThemeFor | frontend_vite/src/App.jsx:42 | the dark theme exactly when the scheme is "dark" |
| App.SchemeAtStartup | frontend_vite/src/App.jsx:47-50 | at night the scheme becomes "dark"; otherwise the stored scheme is kept |
| App.NightHours | frontend_vite/src/App.jsx:48-49 | of the hours 0-23, exactly 0-5 and 18-23 are night |
| App.NightGivesDarkTheme | frontend_vite/src/App.jsx:42-49 | at night the dark theme is used, whatever was stored |

## Left out

- Network, Firebase and database calls are not modelled. The answer each call gives is a parameter
  of the handler that makes it: an account or none, a creation outcome, a delivered flag, a
  completion, a saved row.
- The language-model call and the extraction of JSON from its text, by regex and `json.loads`,
  are not modelled. The model starts from the parsed reply, or from `{}` when parsing fails.
- A reply that parses to something other than an object is an exception of the `Raised` kind:
  `data.get` then raises and `analyze` answers 500.
- Backend.Analyze: the reply's parts have the types the response model declares. A reply of other
  types (a string summary, an action item without a `task`) is saved and then refused by the
  response model's validation with a 500; that case is not representable here.
- Backend.AnalyzedMeetingReadsBack: action items are compared as model values with four fields.
  In the source the response validates them (missing optional keys become `null`, extra keys are
  dropped) while the detail endpoint returns the stored dicts as they were, so JSON equality
  holds only for items with exactly those four keys.
- The default title "Untitled Meeting" for a request without a `title` key is not modelled: the
  request's `title` is the value after defaults, and the analyze page always sends one.
- SQLite is not modelled: `init_db`, `save_meeting_record`, the feedback table and the SQL
  queries. The list endpoint takes the rows the query selected, already ordered and limited.
- SendGrid is not modelled. Its result is the `MailOutcome` parameter of `SendOtpStep`.
- `random.randint` and `time.time()` are parameters of the OTP step functions. The OTP lock is not
  modelled: each request runs atomically.
- Local storage is not modelled: the saved settings, the pending two-factor record and the stored
  user are parameters or fields. The `UserContext` syncing and result persistence in Analyze are
  left out too.
- React effects, intervals and timeouts are not modelled. One countdown tick is `Tick`, and the
  30-second re-enable is `ResendCooldownElapsed`.
- Google sign-in and the forgot-password dialog are not modelled. They only call Firebase and show
  its outcome.
- The redirect guard and navigation are not modelled.
- Rendering is not modelled: recharts, framer-motion, the active-shape geometry of the details
  chart, PDF export and clipboard sharing.
- JavaScript and Python numbers are `real`. IEEE rounding, `toFixed` and `toLocaleString` are not
  modelled.
- Whitespace has one set per language. Both contain the ASCII spaces, U+00A0, U+1680,
  U+2000-U+200A, U+2028, U+2029, U+202F, U+205F and U+3000. JavaScript's `trim` adds U+FEFF.
  Python's `strip` adds U+001C-U+001F and U+0085. Other code points that Python's `isspace`
  accepts, if any, are not modelled.
- Strings.Trim: its own contract states only the length bound and the two ends; that exactly the
  surrounding whitespace is removed is the contract of `TrimIsSlice`, kept apart so that every
  use of `Trim` stays cheap to verify.
- Lower-casing covers A-Z only.
- String lengths count Dafny characters, not UTF-16 code units.
- The OTP sent to `verify_otp` is a string. The server's `str()` of a numeric OTP is not modelled.
- A sentiment label key that holds `null` reads as absent on the pages; on the server it still
  makes the dict non-empty (`otherKeys`). A non-string label, on which `toLowerCase` would
  throw, is not modelled.
- LoginPage.LoginState.Tick: models one tick of the effect. It does not model the interval
  clean-up when `otpStep` or `timer` change.
- `resendTimer` is set to 30 and never decremented anywhere, so `LoginState.Valid` pins it to 30.
- The dashboard's statistics cards and meeting-type chart are static constants and are not modelled.

## Findings

| source | as written | input that shows it | evidently intended | confidence | as-written member | corrected member |
|---|---|---|---|---|---|---|
| frontend_vite/src/pages/Settings.jsx:114 | after `await fetch(...)` the handler reads `response.ok`, but no `response` is bound; the ReferenceError lands in the catch, so every non-blank submission shows the failure alert and keeps the text, even when the server stored the message | feedback "Great summaries", accepted by the server | bind the fetch result and test its `ok`: success alert and emptied box when the server accepted, failure alert otherwise | not executed | SettingsPage.AsWrittenReportsStoredMessageAsFailed | SettingsPage.SubmitFeedback |
