# QualityBot in Dafny

QualityBot is a quality-management assistant. A React front end offers a chat screen with a process-capability (Cp/Cpk) calculator and three role dashboards: engineer, student and MSME (small business owner). Sign-up, login and token checks go through a session service. A FastAPI back end keeps the user table and imports spreadsheets of quality measurements. This project models the parts of that system that decide state and results:

- `common.dfy`: the JavaScript string and number operations the rest relies on. It covers `trim`, `toLowerCase` (for ASCII letters), `split`, truncating `%`, `Math.round` and rounding to two decimals. It also has the `Option` and `Result` types.
- `messages.dfy`: the chat message record shared by the chat screens and the saved-conversation list.
- `capability.dfy`: `calculateCpCpk` and the verdict line of the calculator (frontend/src/App.tsx).
- `app_shell.dfy`: the top-level component (frontend/src/App.tsx). It covers which screen the state selects, sign-in, the two sign-out paths, the switches between each dashboard and its chatbot, the startup session check and the calculator result slot.
- `auth_service.dfy`: the session service class with its two browser-storage slots (frontend/src/services/authService.ts).
- `welcome_page.dfy`: the landing page. It covers signup validation, the login and signup submissions, guest entry and the panel and form resets (frontend/src/components/WelcomePage.tsx).
- `msme.dfy`: the ROI calculator and the WebSocket message dispatch of the MSME dashboard.
- `student_progress.dfy`: experience points, levels, quiz attempts and the daily tip and tool choice of the student dashboard.
- `student_quiz.dfy`: the five-question quiz (frontend/src/components/StudentQuiz.tsx).
- `conversations.dfy`: the saved-conversation list (frontend/src/components/ConversationManager.tsx).
- `engineer_chat.dfy`: the engineer chatbot's transcript and its session-storage copy.
- `backend.dfy`: backend/app.py. It covers password hashing, token checks, sign-up, login, token verification, refresh and the spreadsheet row filter.

Components whose fields change step by step are classes: the session service, the pages, the quiz, the dashboards, the conversation list, the chat transcript and the user table. Their methods state the whole new state, and their invariants are shown preserved. Pure computations are functions, with lemmas about them. Examples are the capability indices, ROI, signup validation, screen selection, levels and row conversion.

Some values come from outside the code, and each enters as an argument or a parameter:
- `parseFloat`, `Math.sqrt` and SHA-256;
- token creation and decoding;
- `JSON.parse` outcomes and `Date.now` or `uuid4` ids;
- `Math.random` shuffles;
- the outcome of every HTTP request (success with its body, a non-ok reply with its detail, or an exception).

Numbers are mathematical reals. The calculator's non-finite results are the explicit constructors `Infinity` and `NaN`.

## Model

| member | source | states |
|---|---|---|
| Capability.Measurements | frontend/src/App.tsx:280-285 | definition; its properties are stated by Capability.KeepNumbers, Capability.KeepNumbersSnoc, Capability.KeepNumbersPrefix and Capability.KeptNumbersComeFromTokens |
| Capability.KeepNumbers | frontend/src/App.tsx:280-285 | The filter keeps at most one number per token, and nothing is kept exactly when no token parses |
| Capability.KeepNumbersSnoc | frontend/src/App.tsx:280-285 | One more parse keeps everything kept so far and appends the new parse exactly when it is a number. So every number is kept, once, in token order |
| Capability.KeepNumbersPrefix | frontend/src/App.tsx:280-285 | The same law on prefixes: the numbers kept from the first i + 1 parses are those from the first i, plus parse i if it is a number |
| Capability.KeptNumbersComeFromTokens | frontend/src/App.tsx:280-285 | Every kept number is the parse of one of the comma-separated tokens |
| Capability.MeanWithinRange | frontend/src/App.tsx:288 | The mean of the sample lies between its smallest and largest value |
| Capability.StdDevNonNegative | frontend/src/App.tsx:290-298 | The sample standard deviation (n − 1 divisor, 0 for a single value) is never negative |
| Capability.StdDevZeroIffConstant | frontend/src/App.tsx:290-298 | The standard deviation is zero exactly when all measurements are equal |
| Capability.Indices | frontend/src/App.tsx:300-321 | definition; its properties are stated by Capability.CpkBounds, Capability.ZeroSpreadPolicy and Capability.NaNOnlyFromLimits |
| Capability.CpkBounds | frontend/src/App.tsx:306-311 | With positive spread Cpk is min(CPU, CPL), CPU + CPL = 2·Cp, and Cpk ≤ Cp |
| Capability.ZeroSpreadPolicy | frontend/src/App.tsx:312-321 | With zero spread Cp = Cpk. Both are Infinity exactly when LSL ≤ mean ≤ USL, and both are 0 otherwise |
| Capability.NaNOnlyFromLimits | frontend/src/App.tsx:300-311 | The indices are never NaN when both limits parse. An unparsable limit makes them NaN whenever the spread is positive |
| Capability.Calculate | frontend/src/App.tsx:278-324 | definition; its properties are stated by Capability.CalculateNoResult, Capability.CalculateResultSound and Capability.WorkedSample |
| Capability.CalculateNoResult | frontend/src/App.tsx:279-286 | No result (an early return) exactly when the data is blank, a limit field is empty, or no token parses |
| Capability.CalculateResultSound | frontend/src/App.tsx:278-324 | A produced result summarises the kept numbers: its mean is within their range, and its spread is non-negative and zero iff they are all equal |
| Capability.VerdictOf | frontend/src/App.tsx:868-876 | definition; its properties are stated by Capability.VerdictBands |
| Capability.VerdictBands | frontend/src/App.tsx:868-876 | The verdict thresholds 1.33 and 1.0 partition the finite Cpk values monotonically. Infinity and NaN both read "perfectly capable" |
| Capability.WorkedSample | frontend/src/App.tsx:278-324 | 10.2, 10.1, 10.3, 10.0, 10.2 against 10.5/9.5 gives mean 10.16, variance 0.013 and Cp ≥ 1.33, but Cpk < 1, so "not capable" |
| AppShell.ScreenFor | frontend/src/App.tsx:355-436 | definition; its properties are stated by AppShell.ToggleScreens, AppShell.GuestSeesGeneralChat and the Screen() clauses of the AppShell.App methods |
| AppShell.RoleTogglesInverse | frontend/src/App.tsx:373-499 | The dashboard→chatbot and chatbot→dashboard role switches are inverse pairs, offered on exactly the three dashboard and three chatbot roles |
| AppShell.ToggleScreens | frontend/src/App.tsx:373-429 | From every dashboard the chatbot screen reached offers the way back, which restores the same user |
| AppShell.GuestSeesGeneralChat | frontend/src/App.tsx:356-436 | A guest user is routed to the general chat, with no back-to-dashboard button |
| AppShell.App.constructor | frontend/src/App.tsx:82-104 | The app starts loading, signed out, with the single welcome message and no calculator result |
| AppShell.App.CheckAuth | frontend/src/App.tsx:132-150 | The user the service verifies signs in. A failure leaves the app signed out and the service cleared. Loading ends in every case |
| AppShell.App.HandleLogin | frontend/src/App.tsx:253-256 | The given user is signed in and nothing else changes |
| AppShell.App.HandleLogout | frontend/src/App.tsx:258-272 | The service is cleared, the app is signed out, the chat is reset to the welcome message, and the welcome page shows |
| AppShell.App.MsmeDashboardLogout | frontend/src/App.tsx:417-429 | As written: only the user is dropped. The app stays authenticated with the service's session intact and shows the general chat |
| AppShell.App.EnterAsMsmeOwner | frontend/src/App.tsx:527-541 | The header's MSME button signs in a fixed MSME identity, which routes to the MSME dashboard |
| AppShell.App.HandleLoadConversation | frontend/src/App.tsx:249-251 | The chat shows the loaded transcript and nothing else changes |
| AppShell.App.AccessChatbot | frontend/src/App.tsx:373-429 | On a dashboard, the role becomes the matching chatbot role, and that screen offers the way back |
| AppShell.App.BackToDashboard | frontend/src/App.tsx:405-500 | On a chatbot screen that offers it, the role returns to the matching dashboard |
| AppShell.App.ChatbotRoundTrip | frontend/src/App.tsx:373-500 | Going to the chatbot and back restores the user and the screen exactly |
| AppShell.App.CalculateCpCpk | frontend/src/App.tsx:278-326 | A produced result replaces the shown one, an early return keeps it, and the rest of the state is unchanged |
| AuthSession.FailureMessage | frontend/src/services/authService.ts:88-91 | A non-ok reply raises its detail, or the fallback when the detail is absent or empty. An exception keeps its own message |
| AuthSession.AuthService.constructor | frontend/src/services/authService.ts:35-37 | The service reads the two storage slots as it finds them |
| AuthSession.AuthService.IsAuthenticated | frontend/src/services/authService.ts:71-75 | definition; its properties are stated by AuthSession.AuthService.StoreSession, AuthSession.AuthService.Logout and AuthSession.AuthService.VerifyToken |
| AuthSession.AuthService.AuthHeaders | frontend/src/services/authService.ts:207-210 | An Authorization header "Bearer <token>" is present exactly when a non-empty token is stored. There is no other header |
| AuthSession.AuthService.SetToken | frontend/src/services/authService.ts:40-42 | The token slot holds the token and the user slot is untouched |
| AuthSession.AuthService.RemoveToken | frontend/src/services/authService.ts:50-52 | The token slot is emptied and the user slot is untouched |
| AuthSession.AuthService.SetUser | frontend/src/services/authService.ts:55-57 | The user slot holds the user and the token slot is untouched |
| AuthSession.AuthService.RemoveUser | frontend/src/services/authService.ts:66-68 | The user slot is emptied and the token slot is untouched |
| AuthSession.AuthService.Logout | frontend/src/services/authService.ts:201-204 | Both slots are empty afterwards, so the service is not authenticated and sends no header |
| AuthSession.AuthService.StoreSession | frontend/src/services/authService.ts:95-111 | The reply's token (absent → "undefined") and user are stored. The session counts as authenticated exactly when the token is not the empty string |
| AuthSession.AuthService.Login | frontend/src/services/authService.ts:78-117 | Success stores and returns the session. Any failure raises its message and leaves both slots as they were |
| AuthSession.AuthService.Signup | frontend/src/services/authService.ts:120-159 | As login, with the signup fallback message |
| AuthSession.AuthService.VerifyToken | frontend/src/services/authService.ts:162-198 | No token: nothing is asked and nothing changes. Success refreshes the user and keeps the token. A non-ok reply logs out with no user. An exception logs out and raises "session expired" |
| Welcome.ValidateSignup | frontend/src/components/WelcomePage.tsx:74-98 | The checks run in order (mismatch, length < 6, trimmed name < 2) and the first failure decides the message. The data is accepted iff all pass, with the name trimmed, the e-mail lower-cased (ASCII letters) and trimmed, and the password and role unchanged |
| Welcome.SubmittedSignupIsClean | frontend/src/components/WelcomePage.tsx:93-98 | Submitted data has a name of at least 2 characters with no edge white space, and an e-mail with no ASCII upper-case letter |
| Welcome.GuestUser | frontend/src/components/WelcomePage.tsx:120-128 | The guest identity has id "guest" and role guest, and is made without the service |
| Welcome.ErrorOr | frontend/src/components/WelcomePage.tsx:62 | An empty error message is replaced by the fallback, and any other is kept |
| Welcome.WelcomePage.constructor | frontend/src/components/WelcomePage.tsx:23-41 | Both panels are closed, the forms are empty with role "student", and no message is shown |
| Welcome.WelcomePage.HandleSignup | frontend/src/components/WelcomePage.tsx:68-118 | A failed check shows its message and calls no service. Valid data goes to the service: success shows the success text, and failure shows the service's message |
| Welcome.WelcomePage.FinishSignup | frontend/src/components/WelcomePage.tsx:105-112 | After signup, the login panel opens with the submitted e-mail and an empty password, on reset forms |
| Welcome.WelcomePage.HandleLogin | frontend/src/components/WelcomePage.tsx:43-66 | Success stores the session, shows the redirect text and yields the user. Failure shows the error and leaves the slots |
| Welcome.WelcomePage.CloseLogin | frontend/src/components/WelcomePage.tsx:143-146 | The login panel closes and the forms reset |
| Welcome.WelcomePage.CloseSignup | frontend/src/components/WelcomePage.tsx:148-151 | The signup panel closes and the forms reset |
| Welcome.WelcomePage.ShowPanel | frontend/src/components/WelcomePage.tsx:153-163 | Exactly the chosen panel is open, on reset forms |
| Welcome.WelcomePage.ClearForms | frontend/src/components/WelcomePage.tsx:130-141 | Both forms are empty, the role is back to "student", and error and success are cleared |
| Msme.CalculateRoi | frontend/src/components/MSMEDashboard.tsx:202-225 | Rejected iff a field is not positive. Otherwise annual savings are 12 × the monthly savings and the net benefit is those minus the investment |
| Msme.RoiRounding | frontend/src/components/MSMEDashboard.tsx:219-224 | The shown ROI and payback are whole hundredths within half a hundredth of the exact ratios, i.e. the ratios rounded to two decimals with halves up |
| Common.RoundTo2Unique | frontend/src/components/MSMEDashboard.tsx:219-224 | A whole number of hundredths in (x − 0.005, x + 0.005] is `Math.round(x * 100) / 100`, so the rounding's two contracts determine it |
| Msme.RoiSigns | frontend/src/components/MSMEDashboard.tsx:213-224 | The ROI has the sign of the net benefit, and the payback is never negative |
| Msme.DefectCostIrrelevant | frontend/src/components/MSMEDashboard.tsx:202-225 | The monthly defect cost is checked but changes no figure |
| Msme.DefaultRoi | frontend/src/components/MSMEDashboard.tsx:90-94 | The default inputs give ROI 3500 %, payback 0.33, annual savings 900000 and net benefit 875000 |
| Msme.Dispatch | frontend/src/components/MSMEDashboard.tsx:266-288 | A metrics update with data sets the metrics. An import update with a truthy message sets the status (rows default 0). Anything else has no effect |
| Msme.MsmeDashboard.constructor | frontend/src/components/MSMEDashboard.tsx:78-100 | The log, metrics, status and result start empty, and the ROI inputs hold the defaults |
| Msme.MsmeDashboard.OnMessage | frontend/src/components/MSMEDashboard.tsx:263-289 | The raw text is always logged. Metrics and status change as the dispatch says, including for unparsable text |
| Msme.MsmeDashboard.SetRoiInputs | frontend/src/components/MSMEDashboard.tsx:1603-1643 | Editing the fields changes only the inputs |
| Msme.MsmeDashboard.CalculateRoiClicked | frontend/src/components/MSMEDashboard.tsx:202-225 | A result replaces the shown one. Rejected inputs keep it |
| StudentProgress.LevelFor | frontend/src/components/StudentDashboard.tsx:291 | definition; its properties are stated by StudentProgress.LevelCoversHundred |
| StudentProgress.LevelBar | frontend/src/components/StudentDashboard.tsx:1315 | definition; its properties are stated by StudentProgress.LevelBarWithinLevel |
| StudentProgress.LevelCoversHundred | frontend/src/components/StudentDashboard.tsx:291 | Level n covers the 100 points from 100·(n − 1), and the level is at least 1 for non-negative points |
| StudentProgress.LevelBarWithinLevel | frontend/src/components/StudentDashboard.tsx:1315 | The level bar shows the points into the current level, in [0, 100) |
| StudentProgress.DailyIndices | frontend/src/components/StudentDashboard.tsx:144-158 | The daily tip and tool indices are within their lists |
| StudentProgress.DailyIndicesWeekly | frontend/src/components/StudentDashboard.tsx:151-152 | The daily choice repeats every seven days |
| StudentProgress.Completed | frontend/src/components/StudentDashboard.tsx:289-297 | A completed quiz adds 10 points per correct answer, recomputes the level, counts one more quiz and keeps the other counters |
| StudentProgress.CompletionsAccumulate | frontend/src/components/StudentDashboard.tsx:285-330 | Over any series of quizzes with non-negative scores, points and level never drop, and each quiz counts once |
| StudentProgress.StudentDashboard.constructor | frontend/src/components/StudentDashboard.tsx:44-57 | The user's saved progress and attempts are loaded, or the defaults when the id is empty or nothing is saved |
| StudentProgress.StudentDashboard.HandleQuizComplete | frontend/src/components/StudentDashboard.tsx:285-330 | The progress is updated as Completed says and exactly one attempt is appended. Both of this user's storage entries are rewritten and other users' entries are kept |
| Quiz.SelectQuestions | frontend/src/components/StudentQuiz.tsx:307-310 | The quiz is the first five questions of the shuffled pool |
| Quiz.SelectedAreDistinct | frontend/src/components/StudentQuiz.tsx:307-310 | No question is asked twice when the pool's questions are distinct |
| Quiz.CorrectCount | frontend/src/components/StudentQuiz.tsx:318-325 | The number of correct answers never exceeds the number of answers |
| Quiz.AllCorrectCount | frontend/src/components/StudentQuiz.tsx:318-325 | Answers that are all correct count in full |
| Quiz.GradeOf | frontend/src/components/StudentQuiz.tsx:374-385 | definition; its properties are stated by Quiz.GradeBands |
| Quiz.GradeBands | frontend/src/components/StudentQuiz.tsx:374-385 | For five questions: 5 is perfect, 4 (or above 5) excellent, 3 good, and below 3 keep practising |
| Quiz.MinutesAndSeconds | frontend/src/components/StudentQuiz.tsx:350-354 | The elapsed seconds split exactly into whole minutes and 0–59 seconds |
| Quiz.IntendedScoreIsCorrectCount | frontend/src/components/StudentQuiz.tsx:327-338 | Corrected: the final score is the number of correct answers, at most the quiz length, and an all-correct run is perfect |
| Quiz.FinalScoreAsWritten | frontend/src/components/StudentQuiz.tsx:327-338 | definition; its properties are stated by Quiz.DoubleCountedLastAnswer |
| Quiz.DoubleCountedLastAnswer | frontend/src/components/StudentQuiz.tsx:327-338 | As written: a correct last answer is counted twice. All correct reports 6 of 5, graded excellent, while 4 correct report a perfect 5 |
| Quiz.StudentQuiz.constructor | frontend/src/components/StudentQuiz.tsx:26-33 | Five questions are selected, at the first question, with no answer, score 0 and the clock started |
| Quiz.StudentQuiz.Answer | frontend/src/components/StudentQuiz.tsx:318-325 | The answer is selected and explained, and the score rises by one exactly when it is correct. The score stays the number of correct answers |
| Quiz.StudentQuiz.NextQuestion | frontend/src/components/StudentQuiz.tsx:327-338 | Before the last question it moves on and clears the selection. On the last it completes and reports the final score, the total and the elapsed seconds |
| Quiz.StudentQuiz.Restart | frontend/src/components/StudentQuiz.tsx:340-348 | Five newly selected questions, with everything else back to the start |
| Conversations.Title | frontend/src/components/ConversationManager.tsx:56-57 | definition; its properties are stated by Conversations.TitleShape |
| Conversations.TitleShape | frontend/src/components/ConversationManager.tsx:56-57 | The title is the first ≤ 50 characters of the message after the welcome message (whoever sent it) plus "...", at most 53 characters, and never the fallback |
| Conversations.WithoutId | frontend/src/components/ConversationManager.tsx:77-79 | Deleting by id keeps exactly the conversations with other ids |
| Conversations.WithoutIdConcat | frontend/src/components/ConversationManager.tsx:77-79 | Deletion keeps the order of the rest, because it distributes over concatenation |
| Conversations.WithoutAbsentId | frontend/src/components/ConversationManager.tsx:77-79 | Deleting an id nobody carries changes nothing |
| Conversations.WithoutIdIdempotent | frontend/src/components/ConversationManager.tsx:77-79 | Deleting the same id twice equals deleting it once |
| Conversations.ConversationStore.constructor | frontend/src/components/ConversationManager.tsx:33-49 | A stored list is loaded. An absent or unparsable entry gives no conversations |
| Conversations.ConversationStore.Save | frontend/src/components/ConversationManager.tsx:51-70 | A transcript of at most the welcome message changes nothing. Otherwise exactly one conversation holding the transcript is appended and stored |
| Conversations.ConversationStore.Delete | frontend/src/components/ConversationManager.tsx:77-84 | The list loses exactly the conversations with the id and is stored |
| Conversations.ConversationStore.Import | frontend/src/components/ConversationManager.tsx:97-116 | A parsed file is appended and stored. A parse failure changes neither the list nor the storage |
| Conversations.ConversationStore.Load | frontend/src/components/ConversationManager.tsx:72-75 | Loading hands back the saved transcript unchanged |
| Conversations.ConversationStore.SaveThenLoad | frontend/src/components/ConversationManager.tsx:51-75 | Saving a transcript and loading the new entry gives the transcript back |
| EngineerChat.WelcomeMessage | frontend/src/components/EngineerChatbot.tsx:56-78 | The greeting is a bot message addressed "Hello <name>" offering the three report actions |
| EngineerChat.History | frontend/src/components/EngineerChatbot.tsx:114-117 | The history sent has one entry per message, with its sender and text |
| EngineerChat.ReplyText | frontend/src/components/EngineerChatbot.tsx:127-144 | The bot message is the reply text, or the fixed error text for any failure |
| EngineerChat.EngineerChatbot.constructor | frontend/src/components/EngineerChatbot.tsx:50-86 | A saved transcript loads as it is, otherwise the greeting alone, and session storage mirrors it |
| EngineerChat.EngineerChatbot.SetInput | frontend/src/components/EngineerChatbot.tsx:42 | Typing changes only the input |
| EngineerChat.EngineerChatbot.Send | frontend/src/components/EngineerChatbot.tsx:88-101 | Blank input is ignored. Otherwise the user message is appended, the input cleared and typing starts, and the request carries the input and the transcript from before the send |
| EngineerChat.ActionPrompt | frontend/src/components/EngineerChatbot.tsx:176 | definition; its properties are stated by EngineerChat.EngineerChatbot.ClickAction |
| EngineerChat.EngineerChatbot.ClickAction | frontend/src/components/EngineerChatbot.tsx:157-184 | The message "Generate: <action>" is appended, and the request asks for a detailed report with the earlier transcript as history |
| EngineerChat.EngineerChatbot.Receive | frontend/src/components/EngineerChatbot.tsx:121-147 | Exactly one bot message (the reply or the error text) is appended, typing stops, and storage mirrors the transcript |
| EngineerChat.EngineerChatbot.Reload | frontend/src/components/EngineerChatbot.tsx:50-55 | Remounting from session storage shows the same transcript |
| EngineerChat.OneExchange | frontend/src/components/EngineerChatbot.tsx:88-147 | One exchange from an empty session stores three messages: the greeting, the user's text and the reply |
| Backend.HashPassword | backend/app.py:128-129 | definition; its properties are stated by Backend.PasswordRoundTrip |
| Backend.VerifyPassword | backend/app.py:131-132 | definition; its properties are stated by Backend.PasswordRoundTrip |
| Backend.PasswordRoundTrip | backend/app.py:128-132 | Every password verifies against its own hash, and a password verifies only against the hash of itself |
| Backend.CheckToken | backend/app.py:157-179 | A token is accepted iff it decodes with a subject. Every failure is 401, reading "expired" only for an expired token |
| Backend.VerifyToken | backend/app.py:157-167 | definition; its properties are stated by Backend.CheckToken and Backend.AccessTokenErrors |
| Backend.VerifyRefreshToken | backend/app.py:169-179 | definition; its properties are stated by Backend.CheckToken |
| Backend.AccessTokenErrors | backend/app.py:157-167 | "Token expired" is returned exactly for expired tokens. A missing subject and an undecodable token share "Invalid token" |
| Backend.FindFirst | backend/app.py:229 | `.filter(column == key).first()`, used by e-mail here and in login, and by id in verify-token and refresh: a row is found iff one has the key, and it has the key |
| Backend.FindAppended | backend/app.py:244-246 | A row appended after rows with other keys is the one found for its key |
| Backend.Login | backend/app.py:261-277 | Login succeeds iff the email exists and the password hashes to the stored hash. The success body is the whole record of a row with that email and password hash (id, name, email, role) with tokens for its id. Unknown email and wrong password give the same 401 |
| Backend.VerifyTokenEndpoint | backend/app.py:280-291 | Token errors pass through, and an unknown id gives 404. Otherwise the body is the id, name, email and role of a row with the token's id |
| Backend.Refresh | backend/app.py:201-224 | Refresh-token errors pass through, and an unknown id gives 404. Otherwise the body is the id, name, email and role of a row with the token's id, a new access token for that id, and the presented refresh token |
| Backend.UserTable.constructor | backend/app.py:26 | The table starts with the given rows |
| Backend.UserTable.Signup | backend/app.py:227-258 | A taken email gives 400 with the table unchanged. Otherwise exactly one row with the hashed password is appended and its fields are returned |
| Backend.SignupThenLogin | backend/app.py:227-277 | Signup keeps emails unique, and the new account can log in at once with the same password, answering with its id, name, email and role |
| Backend.Convert | backend/app.py:310-323 | A row converts iff its value and target (when present) are numbers. value and target are the parsed cells, or 0 when absent. timestamp, metric_name, unit, process, operator and notes are the cells, or their defaults (the current time, "Unknown", "") |
| Backend.ConvertAll | backend/app.py:308-323 | definition; its properties are stated by Backend.ConvertAllCount and Backend.ImportExcel |
| Backend.ConvertAllCount | backend/app.py:308-323 | One record per convertible row, each the conversion of some row |
| Backend.ImportExcel | backend/app.py:294-333 | Other extensions give 400, parse errors are reported, and bad rows are skipped. No valid row gives 400. Otherwise the count, its message and the first ≤ 5 records are returned |
| Backend.ImportMessageStatesCount | backend/app.py:330 | The success message states the number of imported rows in decimal |

## Left out

- Rendering, styling, translations and the static content of the pages (tool lists, tips, mock KPIs, charts) are not modelled.
- The network is not modelled. Each request's outcome is an argument: success with its body, a non-ok reply with its detail, or an exception.
- Timers are not modelled. The delayed steps after login and signup are separate methods (`Welcome.WelcomePage.FinishSignup`), or the user handed on.
- IEEE floating point is not modelled. Numbers are reals, so rounding error, overflow and `toFixed` formatting are not captured. `parseFloat`, `Math.sqrt` and Python's `float` are parameters.
- JSON encoding of browser storage is not modelled. Every storage entry is taken to round-trip. A stored value that fails to parse is modelled only where the source catches it: the conversation list, and WebSocket messages. Elsewhere the source would throw, and that path is not modelled.
- String lengths count characters, not UTF-16 code units. `trim` knows only the ASCII white space, no-break space and the byte-order mark.
- Welcome.ValidateSignup, Welcome.SubmittedSignupIsClean: `toLowerCase` is modelled for the ASCII letters 'A'–'Z' only. An e-mail such as "ÉVA@X.COM" keeps its 'É' in the model, while the browser submits "éva@x.com". The lemma promises no ASCII upper-case letter, not no upper-case letter at all.
- Backend.SignupThenLogin: the tokens are not compared. In the service they carry an expiry taken from the clock, so the tokens from sign-up and from login differ once time has passed.
- App.tsx's own login and signup forms and its general-chat `handleSendMessage` are not modelled. They are outside the modelled core, and they send fields the back end does not read.
- App.tsx's calculator input fields are not modelled as state. `AppShell.App.CalculateCpCpk` takes them as an argument.
- Only the ROI calculator and the message dispatch of the MSME dashboard are modelled. The rest depends on the network:
  - the file upload and ERP fetch;
  - the log lines added by the WebSocket `onopen`, `onclose` and `onerror` handlers.
- The quiz results view recomputes the elapsed time from the clock when it is shown. Only the time reported by `Quiz.StudentQuiz.NextQuestion` is modelled.
- Conversation export (a file download) is not modelled. Conversation dates are integers. An imported file is taken to parse into a conversation. A JSON value of another shape, which the source would also append, is not represented.
- `AuthSession.AuthService.Login`: the request body is not modelled. An error detail that is not a string is not represented.
- The session service's stored token is what the reply calls `token`. The back end answers with `access_token`, so against this back end the stored token is "undefined". Both sides are modelled as written and the mismatch is not reconciled.
- Backend hashing, token creation, token decoding, `uuid4`, pandas' file reading and SQLAlchemy sessions are not modelled. They are parameters, and the user table is a sequence of rows in table order.
- `Backend.Convert` does not model what pandas does: cells are text, so numeric cells and NaN handling are not represented. `str()` conversions are taken never to fail.
- The WebSocket connection manager and endpoint, the chat endpoint (`/chat`) and the root endpoint are not modelled. They are asynchronous I/O or a call into the Gemini client.
- `Backend.Refresh`: the catch-all branch that turns an unexpected exception into a 401 is not modelled, because no modelled step raises one.
- The broadcast after `return` in the import endpoint is unreachable, so `Backend.ImportExcel` sends nothing. This back end therefore never produces the "import_status_update" messages the MSME dashboard listens for.

## Findings

| source | as written | input that shows it | evidently intended | confidence | as-written member | corrected member |
|---|---|---|---|---|---|---|
| frontend/src/components/StudentQuiz.tsx:327-338 | On the last question the final score adds 1 more when the selected answer is correct, although `handleQuizAnswer` has already counted it | Five correct answers: the report is 6 of 5 and the grade is "excellent", not "perfect". Four correct answers including the last report a perfect 5 | The final score is the running score, i.e. the number of correct answers | not executed | Quiz.DoubleCountedLastAnswer | Quiz.IntendedScoreIsCorrectCount |
| frontend/src/App.tsx:421 | The MSME dashboard's logout only sets the current user to null | Log out from the MSME dashboard: the app stays authenticated and the stored token and user remain, and the general chat is shown instead of the welcome page | The same sign-out as the other screens (`handleLogout`): service cleared, signed out, welcome page | not executed | AppShell.App.MsmeDashboardLogout | AppShell.App.HandleLogout |
