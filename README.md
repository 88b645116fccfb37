# Personal loan management front end — verified model

This project models the logic underneath the React front end of a
personal loan management system, written in Dafny with every property
proved. Rendering, styling and network calls are left aside. What remains
is the following:

- **EMI payment dialog** (`EmiDialog`, `EmiInput`). The dialog lists a loan's installments, all of them or only the next one due. Its payment wizard steps through `list → method → bank → upi_verify → upi_pin | card → processing → success | failure`. It keeps a local record of the payments made in the dialog, which shadows the server's status. A five-second countdown returns the result screen to the list. The dialog also has the digit filters for the PIN and CVV, the MM/YY expiry field and the card-number grouping. The dialog's state is the class `EmiDialogState`. Each handler is proved to perform one step of the pure transition functions over `Session`, and to keep the dialog invariant. The properties are lemmas about those functions.
- **Simulated credit score** (`CreditScore`, `LoanApplication`). The credit-check page and the loan wizard each compute a score from the PAN. They use a 32-bit rolling hash (`hash = (hash << 5) - hash + code`, truncated by `|0`) and the score `550 + |hash| % 301`. Both copies are loops proved equal to one hash function. The score always lies in 550..850, and the two copies agree.
- **Eligibility gate** (`Eligibility`, `Navbar`, `ApplicationsList`). The credit flags are stored as text. The navigation bar and the applications list read them back and let a visitor apply only when a check was made and the score is above 600. Each button is disabled exactly when the gate refuses.
- **Loan application wizard** (`LoanApplication`). The wizard validates each step and advances only when the step passes. Its invariant is that every step already passed still validates, so a submission from the review step is a complete application.
- **Dashboard and charts** (`Dashboard`, `Charts`). These compute the status counts, the monthly buckets (sorted by month), the per-purpose sums, the search and status filter, the approval rate, the average approved amount, the top three purposes, and two guarded admin actions.
- **Small deciders**:
  - `ProtectedRoute`: the route guard.
  - `Register`: the registration validator and its submit guard.
  - `Faq`: the FAQ search.
  - `Chatbot`: the assistant's ordered keyword router, where the first matching rule wins, plus the typing delay and the message list.

Two support modules hold shared pieces:

- `JsText` models the JavaScript string operations the code relies on: ASCII case mapping, `trim`, `includes`, `split`, `replace(/\D/g, "")` and `parseInt`.
- `BrowserStorage` models `localStorage` as a map from keys to strings, with a counter for the `storage` events the pages broadcast.

Where the written description of the system and the code differ, the model follows the code:

- An installment counts as paid when either the server or the dialog's own record says PAID. A server PAID therefore wins over a local FAILED.
- The dialog takes the caller's payment mode when it is opened, not when it is closed.
- The countdown is reset only when it runs out.
- A score of exactly 600 gets the credit page's "Apply for a Loan" link, which is shown from 600 on. The gate, however, lets only scores above 600 through (`Eligibility.ThresholdsDisagreeAt600`).
- The chatbot's menu switch is reached only for "Document Assistance", "View Required Documents", "Start Live Chat", "Back to Main Menu" and "Login" (`Chatbot.MenuEntryReached`). A keyword rule catches every other menu text first: "Pay EMI", "Check EMI Status", "Loan Application Status", "Apply for a New Loan", "Upload Documents" and "Contact Support". So the bot never opens /pay-emi, /apply-loan or /upload-documents, and never shows the switch's log-in prompts for them (`Chatbot.Respond`, `Chatbot.PayEmiShadowed`, `Chatbot.CheckEmiStatusShadowed`).

## Model

| member | source | states |
|---|---|---|
| BrowserStorage.Storage.GetItem | src/components/Navbar.jsx:199-200 | a read gives a value exactly when the key is stored, and then the stored value |
| BrowserStorage.Storage.SetItem | src/pages/CreditScoreCheck.jsx:49-50 | a write replaces only that key's value and raises no event |
| BrowserStorage.Storage.RemoveItem | src/components/Navbar.jsx:276-278 | a removal drops only that key and raises no event |
| BrowserStorage.Storage.Broadcast | src/pages/CreditScoreCheck.jsx:51 | dispatching the storage event leaves the items alone and counts one more event |
| CreditScore.ToInt32 | src/pages/CreditScoreCheck.jsx:30 | `hash \|= 0` gives a signed 32-bit value congruent to its input modulo 2^32, and keeps any value already in range |
| CreditScore.LoopStepIsHashStep | src/pages/CreditScoreCheck.jsx:29-30 | the shift-subtract-add step on a 32-bit value equals the 31-multiplier rolling-hash step |
| CreditScore.ScoreOf | src/pages/CreditScoreCheck.jsx:32-33 | every score lies between 550 and 850 |
| CreditScore.CalculateCreditScore | src/pages/CreditScoreCheck.jsx:25-34 | the loop computes the rolling hash of the upper-cased PAN, so the score is the reference score and lies between 550 and 850 |
| CreditScore.ScoreIgnoresCase | src/pages/CreditScoreCheck.jsx:26 | the lower-case, upper-case and original spellings of a PAN all get the same score |
| CreditScore.PanIsUpperCase | src/pages/CreditScoreCheck.jsx:20-23 | a PAN that matches the pattern is unchanged by upper-casing |
| CreditScore.CreditScorePage.constructor | src/pages/CreditScoreCheck.jsx:16-18 | the page starts with an empty field, no score and no error |
| CreditScore.CreditScorePage.HandleChange | src/pages/CreditScoreCheck.jsx:69 | the field holds the typed text upper-cased; score and error are untouched |
| CreditScore.CreditScorePage.HandleSubmit | src/pages/CreditScoreCheck.jsx:36-53 | an invalid PAN shows the error text and leaves storage alone; a valid one shows its score, stores the flag "true" and the score's text, and raises one storage event |
| CreditScore.TypeAndSubmit | src/pages/CreditScoreCheck.jsx:36-69 | typing a valid PAN in any letter case and submitting shows the score of what was typed and no error |
| CreditScore.PanHash | src/pages/CreditScoreCheck.jsx:27-31 | the rolling hash folded over the characters, each step `((h << 5) - h + code) | 0`; every value is a signed 32-bit integer (the loops are proved to compute it in `CalculateCreditScore` and `LoanApplication.HashCode`) |
| CreditScore.IsPan | src/pages/CreditScoreCheck.jsx:20-23 | the `^[A-Z]{5}[0-9]{4}[A-Z]{1}$` pattern as a predicate: ten characters, five capital letters, four digits, one capital letter |
| Eligibility.ReadCreditFlags | src/components/Navbar.jsx:198-203 | the checked flag is set only by the exact text "true"; a score is present only when parseInt of the stored text gives a non-zero number, and it is that number |
| Eligibility.Gate | src/components/Navbar.jsx:227-245 | the apply action is allowed exactly when a check was made and the score is above 600; "not checked" exactly when no check was made |
| Eligibility.DisabledIffRefused | src/components/Navbar.jsx:477 | the buttons' disabled condition holds exactly when the gate refuses |
| Eligibility.StoredCheckIsRead | src/pages/CreditScoreCheck.jsx:49-51 | after the credit page stores a score, every reader sees a check and exactly that score (the score survives the trip through text) |
| Eligibility.StoredCheckGate | src/components/Navbar.jsx:227-245 | after a check the gate opens exactly when the stored score is above 600, and otherwise reports a low score |
| Eligibility.ThresholdsDisagreeAt600 | src/pages/CreditScoreCheck.jsx:95-99 | a score of 600 gets the credit page's "Apply for a Loan" link but is refused by the gate |
| Eligibility.ClearedStorageNotChecked | src/components/Navbar.jsx:275-278 | once the user and both flags are removed, the gate reports that no check was made |
| Eligibility.ComparedScore | src/components/Navbar.jsx:235 | the number `creditScore <= 600` compares: the stored score, or 0 for a null score |
| Eligibility.ApplyDisabled | src/components/Navbar.jsx:311 | the disabled expression of the apply buttons, `!hasCheckedCreditScore || creditScore <= 600`; `DisabledIffRefused` proves it is the gate's refusal |
| Navbar.GetNavItems | src/components/Navbar.jsx:247-273 | Home comes first; a logged-in user also gets Dashboard (admin or user path) and Credit Score; Apply Loan appears exactly for a logged-in USER; the count is 1, 3 or 4 accordingly |
| Navbar.SplitFirstChars | src/components/Navbar.jsx:166-169 | splitting on spaces and taking each piece's first character picks exactly the characters that start a word |
| Navbar.UserInitials | src/components/Navbar.jsx:164-171 | "U" without a user or a name; otherwise the upper-cased first letters of the words |
| Navbar.ApplyLoanClick | src/components/Navbar.jsx:227-245 | the click follows the path exactly when the gate allows; otherwise it goes to the credit-score page, with the "check first" message exactly when no check was made |
| Navbar.ApplyLoanTooltip | src/components/Navbar.jsx:463-469 | the tooltip says "Apply for a loan" exactly when the button is enabled |
| Navbar.NavbarView.constructor | src/components/Navbar.jsx:176-178 | the bar starts logged out, unchecked and without a score |
| Navbar.NavbarView.CheckAuth | src/components/Navbar.jsx:193-196 | logged in exactly when the stored user has an id and a non-empty role; the flags are untouched |
| Navbar.NavbarView.CheckCreditScoreStatus | src/components/Navbar.jsx:198-203 | the bar's flags become what storage holds, read as the gate reads them |
| Navbar.HandleLogout | src/components/Navbar.jsx:275-282 | the user and both credit flags are removed, one storage event is raised and the home page is next |
| Navbar.LogoutClosesGate | src/components/Navbar.jsx:198-282 | after logout and the re-read it triggers, the gate reports that no check was made |
| Navbar.IsAuthenticated | src/components/Navbar.jsx:195 | `user.id != null && user.role`: an id is present and the role is a non-empty text |
| ApplicationsList.NewApplicationOutcome | src/dashboard/ApplicationsList.jsx:107-123 | the link is followed exactly when the gate allows; the two redirects carry the "check first" and "too low" messages exactly in the gate's two refusal cases |
| ApplicationsList.NewApplicationTooltip | src/dashboard/ApplicationsList.jsx:157-164 | the tooltip asks for a check exactly when none was made and offers a new loan exactly when the button is enabled |
| ApplicationsList.DisabledButtonRedirects | src/dashboard/ApplicationsList.jsx:156-175 | the button is disabled exactly when a click would be redirected, and then the tooltip does not offer a new loan |
| ApplicationsList.ShortCommentsSubmit | src/dashboard/ApplicationsList.jsx:573 | a comment of at most 500 characters, or of whitespace only, never disables Submit |
| ApplicationsList.CardActions | src/dashboard/ApplicationsList.jsx:418-528 | View Details always; Documents for an admin; Approve and Reject together for an admin on PENDING; Disburse for an admin on APPROVED; Pay EMIs for a non-admin on DISBURSED; the closed chip for a non-admin on CLOSED |
| ApplicationsList.StatusActionsExclusive | src/dashboard/ApplicationsList.jsx:426-528 | no card offers Approve and Disburse together, a non-admin is offered no status change, an admin gets no borrower action |
| ApplicationsList.ApplicationsListView.constructor | src/dashboard/ApplicationsList.jsx:57-63 | the list starts unchecked, with the comment dialog closed and cleared |
| ApplicationsList.ApplicationsListView.CheckCreditScoreStatus | src/dashboard/ApplicationsList.jsx:67-72 | the list's flags become what storage holds, read as the navigation bar reads them; the dialog is untouched |
| ApplicationsList.ApplicationsListView.OpenCommentDialog | src/dashboard/ApplicationsList.jsx:86-91 | the dialog opens on that application and status with an empty comment |
| ApplicationsList.ApplicationsListView.SetComment | src/dashboard/ApplicationsList.jsx:566 | the comment becomes the typed text; nothing else changes |
| ApplicationsList.ApplicationsListView.CloseCommentDialog | src/dashboard/ApplicationsList.jsx:93-98 | the dialog is closed and its selection and comment are cleared |
| ApplicationsList.ApplicationsListView.SubmitComment | src/dashboard/ApplicationsList.jsx:100-105 | an update is sent exactly when an id and a status are set, carrying them and the comment; the dialog is closed and cleared either way |
| ApplicationsList.ApproveWithComment | src/dashboard/ApplicationsList.jsx:450-462 | approving a card with a short comment sends exactly that id, APPROVED and that comment, and leaves the dialog closed |
| ApplicationsList.SubmitDisabled | src/dashboard/ApplicationsList.jsx:573 | Submit is disabled exactly when the trimmed comment is longer than 500 characters (`ShortCommentsSubmit` shows short and blank comments pass) |
| ProtectedRoute.UserOf | src/components/ProtectedRoute.jsx:6-15 | a user is read exactly when the stored text is non-empty and parses to an object |
| ProtectedRoute.TokenRole | src/components/ProtectedRoute.jsx:27-31 | a token role comes only from a token still valid now, is never empty, and is the `role` claim when that is set |
| ProtectedRoute.EffectiveRole | src/components/ProtectedRoute.jsx:47 | the user's own role wins when set, otherwise the token's role |
| ProtectedRoute.Decide | src/components/ProtectedRoute.jsx:40-56 | login exactly when neither an identifying user nor a valid token exists; home exactly when one exists but the required role differs from the effective role; otherwise the page |
| ProtectedRoute.TokenValidEarlier | src/components/ProtectedRoute.jsx:28 | a token valid now was valid at every earlier time |
| ProtectedRoute.GuardedPageNeedsRole | src/components/ProtectedRoute.jsx:46-56 | a role-guarded page is rendered only when the effective role is the required one, taken from the user or from a valid token |
| ProtectedRoute.NoUserNoValidTokenLogsIn | src/components/ProtectedRoute.jsx:40-44 | without a stored user, a missing, broken or expired token always leads to the login page |
| ProtectedRoute.Guard | src/components/ProtectedRoute.jsx:4-57 | the component's decision is Decide's, and only an unparseable stored user is removed from storage |
| ProtectedRoute.TokenValid | src/components/ProtectedRoute.jsx:28 | a token is valid when it decodes, its `exp` is a non-zero number and `exp * 1000` lies after `now` |
| Register.ShortestEmail | src/pages/Register.jsx:61 | "a@b.c" matches the email pattern, "a@b" and "ab.c" do not |
| Register.EmailMatchLength | src/pages/Register.jsx:61 | a matching email has at least five characters and contains an '@' and a '.' |
| Register.EmailMatchesInside | src/pages/Register.jsx:61 | the pattern is unanchored: text around a matching address keeps it matching |
| Register.FormErrorsFields | src/pages/Register.jsx:50-69 | the map holds only the three field keys; the name has a message exactly when its trimmed text is shorter than 3, the email exactly when it does not match, the password exactly when it is shorter than 6, each with the "required" text when the field is empty and the "too short" or "invalid" text otherwise |
| Register.FormValidIff | src/pages/Register.jsx:50-72 | the form is valid exactly when the trimmed name has 3 characters, the email matches and the password has 6 |
| Register.InitialFormErrors | src/pages/Register.jsx:34-39 | the freshly opened form gets all three "required" messages |
| Register.CheckName | src/pages/Register.jsx:53-57 | the name rule adds the name's message, if any, and changes nothing else |
| Register.CheckEmail | src/pages/Register.jsx:59-63 | the email rule adds the email's message, if any, and changes nothing else |
| Register.CheckPassword | src/pages/Register.jsx:65-69 | the password rule adds the password's message, if any, and changes nothing else |
| Register.NoKeysIsEmpty | src/pages/Register.jsx:72 | a map without keys is exactly the empty map |
| Register.RegisterPage.constructor | src/pages/Register.jsx:34-41 | the form starts empty with role USER and no errors |
| Register.RegisterPage.HandleChange | src/pages/Register.jsx:46-48 | only the named field takes the new value; the errors are untouched |
| Register.RegisterPage.ValidateForm | src/pages/Register.jsx:50-73 | the stored errors are the form's error map and the result says whether it is empty |
| Register.RegisterPage.HandleSubmit | src/pages/Register.jsx:75-83 | a request is made exactly when the form has no errors, and it carries the form unchanged |
| Register.FillAndSubmit | src/pages/Register.jsx:46-83 | typing a valid name, email and password and submitting posts exactly what was typed and leaves no errors |
| Register.NameError | src/pages/Register.jsx:53-57 | the name's message: "required" for a name that trims to nothing, the length message below three trimmed characters, none otherwise |
| Register.EmailError | src/pages/Register.jsx:59-63 | the email's message: "required" when empty, "Invalid email address" when the `\S+@\S+\.\S+` pattern finds no match, none otherwise |
| Register.PasswordError | src/pages/Register.jsx:65-69 | the password's message: "required" when empty, the length message below six characters, none otherwise |
| Register.FormErrors | src/pages/Register.jsx:50-73 | the error map `validateForm` fills: a key per field that has a message, bound to it (`FormErrorsFields` proves each key is present exactly when its rule fails) |
| Faq.FilterQuestions | src/pages/FAQ.jsx:106-109 | a question is kept exactly when it is in the category and its question or answer contains the query, ignoring case |
| Faq.FilteredCategories | src/pages/FAQ.jsx:104-110 | no shown category is empty, and no more categories are shown than exist |
| Faq.Filtered | src/pages/FAQ.jsx:104-105 | the filtered category keeps its title |
| Faq.ShownCategories | src/pages/FAQ.jsx:104-110 | a category is shown exactly when it is the filtered form of an input category that still has a question |
| Faq.ShownQuestionsMatch | src/pages/FAQ.jsx:106-109 | every question shown matches the query |
| Faq.MatchingQuestionShown | src/pages/FAQ.jsx:104-110 | every matching question of every category is shown under that category's title |
| Faq.FilterQuestionsOrder | src/pages/FAQ.jsx:106 | the kept questions are in their original order |
| Faq.FilteredCategoriesOrder | src/pages/FAQ.jsx:104-110 | the shown categories are in their original order |
| Faq.EmptyQueryKeepsQuestions | src/pages/FAQ.jsx:96-109 | the empty query (the initial state) keeps every question |
| Faq.EmptyQueryKeepsCategories | src/pages/FAQ.jsx:96-110 | with the empty query every non-empty category is shown unchanged |
| Faq.QueryCaseIgnored | src/pages/FAQ.jsx:107-108 | an upper-cased query shows the same categories and questions as the query itself |
| Faq.Matches | src/pages/FAQ.jsx:106-109 | a question matches when its question or its answer contains the query, both lower-cased |
| Charts.RoundDiv | src/dashboard/ChartsSection.jsx:65 | `Math.round(n / d)` for d > 0: the result is the integer nearest to n / d, halves rounded up |
| Charts.RoundDivMonotone | src/dashboard/ChartsSection.jsx:65 | rounding a quotient is monotone in the numerator |
| Charts.RoundDivExact | src/dashboard/ChartsSection.jsx:65 | an exact quotient rounds to itself |
| Charts.ValueOf | src/dashboard/ChartsSection.jsx:59-64 | a name absent from the status data reads as 0, and a non-zero value is the value of a slice with that name |
| Charts.PercentWithin | src/dashboard/ChartsSection.jsx:65 | a rounded percentage of a part of a positive whole lies in 0..100 |
| Charts.ApprovalRate | src/dashboard/ChartsSection.jsx:65 | without applications the rate is 0 |
| Charts.ApprovalRateWithin | src/dashboard/ChartsSection.jsx:58-65 | the approval rate lies in 0..100 and is 100 when every application is approved |
| Charts.ValueOfFound | src/dashboard/ChartsSection.jsx:59-64 | `find` returns the first slice with the name looked up |
| Charts.ValueOfStatus | src/dashboard/ChartsSection.jsx:59-64 | on the dashboard's status data, looking up a chart label gives the count of applications with that status |
| Charts.StatusTotalsCount | src/dashboard/ChartsSection.jsx:58-62 | the approved total counts the APPROVED and DISBURSED applications, and the total counts every application when all have a chart status |
| Charts.ApprovedApplications | src/dashboard/ChartsSection.jsx:67-69 | exactly the APPROVED and DISBURSED applications are kept |
| Charts.ApprovedApplicationsCount | src/dashboard/ChartsSection.jsx:67-69 | there are as many approved applications as APPROVED plus DISBURSED |
| Charts.AverageLoanAmount | src/dashboard/ChartsSection.jsx:76-78 | without approved applications the average is 0 |
| Charts.TotalWithin | src/dashboard/ChartsSection.jsx:70-73 | amounts in 0..hi sum to between 0 and the count times hi |
| Charts.AverageWithin | src/dashboard/ChartsSection.jsx:70-78 | when the approved amounts lie in 0..hi, so does their rounded average |
| Charts.InsertByAmount | src/dashboard/ChartsSection.jsx:85 | one insertion step of the stable sort adds exactly the inserted entry |
| Charts.InsertByAmountSorted | src/dashboard/ChartsSection.jsx:85 | inserting into a list sorted largest first keeps it sorted |
| Charts.SortByAmountDesc | src/dashboard/ChartsSection.jsx:85 | the sort is a permutation of its input |
| Charts.SortByAmountDescSorted | src/dashboard/ChartsSection.jsx:85 | the sorted list has the largest amount first |
| Charts.TopPurposes | src/dashboard/ChartsSection.jsx:82-90 | at most three rows: the first three ranked purposes with their amounts, each with its rounded share of the total approved amount (none for a zero total) |
| Charts.TopPurposesProperties | src/dashboard/ChartsSection.jsx:82-90 | the rows are in descending amount, no left-out purpose has a larger amount than a shown one, and with non-negative amounts and a positive total every share lies in 0..100 |
| Charts.EntryAtMostSum | src/dashboard/ChartsSection.jsx:82-90 | with non-negative amounts no purpose exceeds the sum of all purposes |
| Charts.ChartMonthly | src/dashboard/ChartsSection.jsx:96-104 | the chart series is never empty and is the real data whenever there is some |
| Charts.ChartMonthlyOfApplications | src/dashboard/ChartsSection.jsx:96-104 | with applications the chart shows the real monthly buckets, without them five empty placeholder months |
| Charts.TotalOf | src/dashboard/ChartsSection.jsx:57 | `total`: the sum of the status slices' values |
| Charts.TotalApproved | src/dashboard/ChartsSection.jsx:58-61 | `totalApproved`: the Approved slice's value plus the Disbursed slice's value, 0 for a missing slice (`StatusTotalsCount` ties it to the applications) |
| Charts.TotalLoanAmount | src/dashboard/ChartsSection.jsx:67-73 | `totalLoanAmount`: the sum of the loan amounts of the APPROVED and DISBURSED applications only |
| Charts.Percentage | src/dashboard/ChartsSection.jsx:89 | a purpose's share, `Math.round(amount / total * 100)`, and no share for a zero total (`PercentWithin` bounds it by 0..100) |
| Charts.RankedPurposes | src/dashboard/ChartsSection.jsx:82-85 | the approved applications' purpose sums, largest first (`SortByAmountDesc` is a permutation, `SortByAmountDescSorted` proves the order) |
| Dashboard.DistinctKeys | src/dashboard/Dashboard.jsx:130-163 | the keys an object filled by `acc[key] = ...` holds, in first-appearance order: no key twice, and exactly the keys of the applications |
| Dashboard.GroupTotalsAddUp | src/dashboard/Dashboard.jsx:93-99 | grouping by any list of distinct keys covering every application loses nothing: the group sums add up to the overall sum |
| Dashboard.ApprovedAtMostCount | src/dashboard/Dashboard.jsx:158-161 | a group never has more approved applications than applications |
| Dashboard.CountAtMostLength | src/dashboard/Dashboard.jsx:93-99 | a status count lies between 0 and the number of applications |
| Dashboard.TotalUnitIsLength | src/dashboard/Dashboard.jsx:93-99 | counting one per application gives the number of applications |
| Dashboard.PositiveSlices | src/dashboard/Dashboard.jsx:100-121 | from a given position on, the slices kept are those with a positive count, in the fixed order, each carrying its status count |
| Dashboard.StatusData | src/dashboard/Dashboard.jsx:92-122 | one slice per chart status with at least one application, in the order Pending, Approved, Rejected, Disbursed, each carrying its count |
| Dashboard.SumPositiveSlices | src/dashboard/Dashboard.jsx:92-122 | the kept slices add up to the counts of the four chart statuses |
| Dashboard.StatusDataCoversAll | src/dashboard/Dashboard.jsx:92-122 | when every application has a chart status, the slices add up to the number of applications |
| Dashboard.LexLeqTotal | src/dashboard/Dashboard.jsx:165-167 | any two month keys are comparable |
| Dashboard.LexLeqTransitive | src/dashboard/Dashboard.jsx:165-167 | the month order is transitive |
| Dashboard.InsertByMonth | src/dashboard/Dashboard.jsx:165-167 | one insertion step of the sort adds exactly the inserted bucket |
| Dashboard.InsertKeepsSorted | src/dashboard/Dashboard.jsx:165-167 | inserting into a month-sorted list keeps it sorted |
| Dashboard.SortByMonth | src/dashboard/Dashboard.jsx:165-167 | the sort is a permutation of its input |
| Dashboard.SortIsSorted | src/dashboard/Dashboard.jsx:165-167 | the sorted buckets are in month order |
| Dashboard.BucketsOf | src/dashboard/Dashboard.jsx:165 | `Object.values(monthly)`: one bucket per key, in key order, each that month's counts |
| Dashboard.BucketSnoc | src/dashboard/Dashboard.jsx:155-161 | one more application adds one to its own month's bucket, and one approval when approved, and leaves every other month alone |
| Dashboard.TallyOne | src/dashboard/Dashboard.jsx:155-161 | one forEach iteration keeps the dictionary equal to the counts of the applications seen so far, with keys in first-appearance order |
| Dashboard.GetMonthlyData | src/dashboard/Dashboard.jsx:124-170 | the loop's result is the reference monthly data: one bucket per month in first-appearance order, then sorted by month |
| Dashboard.SumApplicationsSort | src/dashboard/Dashboard.jsx:165-167 | sorting keeps the number of applications over all buckets |
| Dashboard.SumApplicationsBuckets | src/dashboard/Dashboard.jsx:130-165 | the buckets of a list of months hold as many applications as those months count |
| Dashboard.MonthlyDataProperties | src/dashboard/Dashboard.jsx:124-170 | empty exactly without applications; sorted by month; every application counted once; each bucket is its month's counts with approved at most applications; every application's month has a bucket |
| Dashboard.PurposeData | src/dashboard/Dashboard.jsx:173-182 | one entry per distinct purpose in first-appearance order, no purpose twice, each carrying the sum of its applications' amounts |
| Dashboard.PurposeDataTotal | src/dashboard/Dashboard.jsx:173-182 | the purpose sums add up to the sum of all amounts |
| Dashboard.FilteredApplications | src/dashboard/Dashboard.jsx:184-190 | an application is kept exactly when its name or purpose contains the query, ignoring case, and its status passes the filter |
| Dashboard.FilterDistributes | src/dashboard/Dashboard.jsx:184-190 | filtering works element by element, so it keeps the order of the list |
| Dashboard.SearchIgnoresCase | src/dashboard/Dashboard.jsx:186-187 | an upper-cased query keeps the same applications as the query itself |
| Dashboard.EmptyQueryMatches | src/dashboard/Dashboard.jsx:185-187 | the empty query matches exactly the applications with a name or a purpose |
| Dashboard.EmptyQueryKeepsNamed | src/dashboard/Dashboard.jsx:46-48 | in the initial state (empty query, "ALL") an application is dropped exactly when it has neither name nor purpose, so a list of named applications is shown whole |
| Dashboard.MarkVerified | src/dashboard/Dashboard.jsx:268-274 | the documents whose id or documentId is the target become verified, the others keep their flag, and nothing else in any document changes |
| Dashboard.MarkVerifiedIdempotent | src/dashboard/Dashboard.jsx:268-274 | marking twice is marking once |
| Dashboard.DocumentPanel.constructor | src/dashboard/Dashboard.jsx:49 | the dialog shows the given documents |
| Dashboard.DocumentPanel.HandleVerify | src/dashboard/Dashboard.jsx:250-280 | a missing or zero id is refused before any request; a failed request keeps the list and shows the server's message or the default; a success refetches when the first document names its application and otherwise marks the targets verified |
| Dashboard.FindApplication | src/dashboard/Dashboard.jsx:298-300 | the index found is the first with that id; none when no application has it |
| Dashboard.DisburseDecision | src/dashboard/Dashboard.jsx:296-322 | an unknown id fails; otherwise the first application with that id decides, as `find` does: if it is APPROVED its id and amount are sent, otherwise it is refused with the "must be approved" message |
| Dashboard.DisburseToast | src/dashboard/Dashboard.jsx:318-321 | success says "Loan disbursed!"; a failure that carries a non-empty server message shows that message, and one without says "Disbursement failed" |
| Dashboard.KeyedTotal | src/dashboard/Dashboard.jsx:93-99 | the `reduce` into `acc[key] = (acc[key] || 0) + weight`: the sum of the weights of the applications with that key (`GroupTotalsAddUp` proves the groups add up to the total) |
| Dashboard.CountOf | src/dashboard/Dashboard.jsx:93-99 | the number of applications with a status (`CountAtMostLength` bounds it by the number of applications) |
| Dashboard.MonthlyData | src/dashboard/Dashboard.jsx:124-170 | `getMonthlyData` as a specification: nothing for no applications, otherwise one bucket per month in first-appearance order, sorted by month (`GetMonthlyData` is proved to compute it and `MonthlyDataProperties` states its properties) |
| Dashboard.MatchesSearch | src/dashboard/Dashboard.jsx:185-187 | the search test: the name or the purpose, where present, contains the query, ignoring case |
| Dashboard.FirstWithId | src/dashboard/Dashboard.jsx:298-300 | the application `find` returns: the first with that id |
| Dashboard.DisburseByStatus | src/dashboard/Dashboard.jsx:296-322 | with distinct ids, an APPROVED application is always sent with its amount and any other is refused with the "must be approved" message |
| Chatbot.FirstRule | src/components/Chatbot.jsx:107-202 | the keyword chain picks the first rule whose keyword test holds for the lower-cased query: every earlier rule's test fails, and when none is picked every rule's test fails |
| Chatbot.RouteOf | src/components/Chatbot.jsx:104-390 | the branch of the answer: a keyword rule when one matches, else an exact menu entry, else the loan-id lookup, greeting, thanks or the fallback; a keyword route names an existing rule |
| Chatbot.FindLoan | src/components/Chatbot.jsx:358 | `userLoans.find` by id: a found loan is one of the sample loans with that id, and nothing found means no sample loan has that id |
| Chatbot.MenuAction | src/components/Chatbot.jsx:204-353 | the menu switch taken on its own: only the Login entry jumps away at once, and always to /login; a page behind the login (pay EMI, apply, upload) is opened exactly for a logged-in visitor and otherwise the visitor is asked to log in. From a query those page-opening cases are never reached (`Chatbot.MenuEntryReached`) |
| Chatbot.LookupReply | src/components/Chatbot.jsx:356-369 | the loan-id answer offers only "Back to Main Menu"; it reports "not found" exactly when no sample loan has the id, and otherwise the id and status of the loan that has it |
| Chatbot.Respond | src/components/Chatbot.jsx:96-390 | getBotResponse's decision: the bot jumps straight only to /login, and never opens a page: the switch cases for /pay-emi, /apply-loan and /upload-documents are caught by keyword rules first, for every query and login state |
| Chatbot.MenuOnlyWithoutKeyword | src/components/Chatbot.jsx:107-204 | the menu switch is reached only when no keyword rule matched, and then the query is exactly that menu entry |
| Chatbot.FirstMatchWins | src/components/Chatbot.jsx:107-202 | a matching rule preceded by no matching rule decides the answer, whatever the login state |
| Chatbot.PayEmiRuleAnswers | src/components/Chatbot.jsx:173-176 | every query containing "emi" and "pay" that falls through the ten earlier rules gets the pay-EMI help, logged in or not |
| Chatbot.EmiStatusRuleAnswers | src/components/Chatbot.jsx:178-181 | every query containing "emi" and "status" that falls through the earlier rules gets the EMI-status help |
| Chatbot.NoRuleAnswers | src/components/Chatbot.jsx:107-202 | a query lacking the letters every keyword needs passes the whole keyword chain |
| Chatbot.PayEmiShadowed | src/components/Chatbot.jsx:173-176 | the "Pay EMI" menu option is caught by the keyword chain first, so its switch case (229-251) never runs and a logged-in visitor is never redirected to the payment page |
| Chatbot.CheckEmiStatusShadowed | src/components/Chatbot.jsx:178-181 | likewise "Check EMI Status" is answered by the keyword chain and never by its switch case (205-227) |
| Chatbot.ContactSupportCaught | src/components/Chatbot.jsx:160-167 | the "contact support" rule fires on the menu text "contact support" |
| Chatbot.LoanApplicationStatusCaught | src/components/Chatbot.jsx:168-171 | the "application status" rule fires on the menu text "loan application status" |
| Chatbot.PayEmiCaught | src/components/Chatbot.jsx:173-176 | the "emi" and "pay" rule fires on the menu text "pay emi" |
| Chatbot.CheckEmiStatusCaught | src/components/Chatbot.jsx:178-181 | the "emi" and "status" rule fires on the menu text "check emi status" |
| Chatbot.ApplyForNewLoanCaught | src/components/Chatbot.jsx:183-186 | the "apply" and "loan" rule fires on the menu text "apply for a new loan" |
| Chatbot.UploadDocumentsCaught | src/components/Chatbot.jsx:188-191 | the "upload" and "document" rule fires on the menu text "upload documents" |
| Chatbot.MenuEntryReached | src/components/Chatbot.jsx:204-353 | whenever the switch answers, the entry is one of Document Assistance, View Required Documents, Start Live Chat, Back to Main Menu or Login; the status, pay, apply, upload and contact cases never run |
| Chatbot.JumpsOnlyOnLogin | src/components/Chatbot.jsx:350-352 | the bot leaves the chat at once exactly for the query "login", in any letter case |
| Chatbot.LoanIdLookupAnswers | src/components/Chatbot.jsx:355-369 | a query starting with "loan id" that no keyword rule or menu entry catches is answered by looking up its last word |
| Chatbot.LoanIdAfterLastSpace | src/components/Chatbot.jsx:357 | the looked-up id is the upper-cased text after the last space |
| Chatbot.LoanIdFound | src/components/Chatbot.jsx:33-45 | "loan id ln12345" finds the active sample loan LN12345 and reports its EMI due |
| Chatbot.FallbackAnswers | src/components/Chatbot.jsx:383-388 | a query no keyword rule, menu entry, loan-id prefix, greeting or thanks catches gets the "didn't get that" reply with the main menu |
| Chatbot.ResponseDelay | src/components/Chatbot.jsx:99 | the typing delay lies between 1 and 2 seconds and reaches 2 seconds exactly for queries of 100 characters or more |
| Chatbot.DelayMonotone | src/components/Chatbot.jsx:99 | a longer query never waits less |
| Chatbot.OptionGridProps | src/components/Chatbot.jsx:444-461 | no grid props exactly without options; full width exactly on a phone for more than two options with one longer than 15 characters; half width otherwise |
| Chatbot.MainMenuLayout | src/components/Chatbot.jsx:24-31 | the main menu options take full width on a phone and half width on a tablet |
| Chatbot.ChatWindow.constructor | src/components/Chatbot.jsx:57-69 | the chat opens with one bot greeting (by name when a user name is stored) and the main menu, an empty input and no typing indicator |
| Chatbot.ChatWindow.SetInput | src/components/Chatbot.jsx:66 | typing changes only the input field |
| Chatbot.ChatWindow.HandleSend | src/components/Chatbot.jsx:404-410 | blank input changes nothing and asks nothing; otherwise the text is appended as one user message, the field is cleared, typing starts and the text is the query |
| Chatbot.ChatWindow.HandleOptionClick | src/components/Chatbot.jsx:399-402 | a clicked option is appended as the user's message and becomes the query |
| Chatbot.ChatWindow.DeliverResponse | src/components/Chatbot.jsx:101-103 | after the delay typing stops and the router's answer is appended (nothing for the login jump); the answer is never a redirect |
| Chatbot.ChatWindow.CompleteRedirect | src/components/Chatbot.jsx:238-249 | the delayed half of a redirect appends its follow-up message, if any, and opens the chosen page; no query produces a redirect (`Chatbot.Respond`), so this code is never reached from the chat |
| Chatbot.AskTyped | src/components/Chatbot.jsx:391-410 | sending a typed question and receiving a spoken answer leaves the question and then the answer at the end of the conversation, with the field cleared |
| Chatbot.MenuEntryOf | src/components/Chatbot.jsx:204-353 | the switch's cases: the lower-cased query is exactly one of the eleven menu texts, or none |
| Chatbot.LoanIdOf | src/components/Chatbot.jsx:357 | `q.split(" ").slice(-1)[0].toUpperCase()`: the last space-separated word, upper-cased (`LoanIdAfterLastSpace` proves it is the text after the last space) |
| EmiInput.LimitedDigits | src/dashboard/EmiDialog.jsx:785-788 | the PIN and CVV filters: the typed text's digits replace the field when there are few enough of them; otherwise the field keeps its old value |
| EmiInput.LimitedDigitsKeepsShape | src/dashboard/EmiDialog.jsx:897-905 | a field of at most `limit` digits stays a field of at most `limit` digits whatever is typed |
| EmiInput.LimitedDigitsAcceptsIff | src/dashboard/EmiDialog.jsx:785-788 | typed text is taken unchanged exactly when it is a short enough run of digits (or equals the current value) |
| EmiInput.ExpiryInput | src/dashboard/EmiDialog.jsx:872-884 | the expiry field holds at most five characters, keeps the first four typed digits in order, and has a '/' exactly when more than two digits were typed, always at position 2 |
| EmiInput.ExpiryInputStable | src/dashboard/EmiDialog.jsx:872-884 | feeding the shown expiry back into the filter leaves it as it is |
| EmiInput.CardDigits | src/dashboard/EmiDialog.jsx:303-305 | the run the card pattern picks up is empty or 4 to 16 digits long and is all digits |
| EmiInput.FormatCardNumber | src/dashboard/EmiDialog.jsx:302-311 | the loop pushing groups of four into `parts` computes the grouped card number, or the typed text unchanged when no run was found |
| EmiInput.JoinChunksDigits | src/dashboard/EmiDialog.jsx:307-310 | dropping the spaces from the grouped digits gives the digits back, with one space per group boundary |
| EmiInput.FormattedCardNumberProperties | src/dashboard/EmiDialog.jsx:302-311 | once four digits are typed, the field shows at most 19 characters (the input's maxLength), exactly the picked-up digits, and formatting it again changes nothing |
| EmiInput.ShortCardNumberUnchanged | src/dashboard/EmiDialog.jsx:310 | fewer than four digits leave the typed text as it is, letters included |
| EmiInput.PinInput | src/dashboard/EmiDialog.jsx:785-788 | the UPI PIN filter: at most four digits (`LimitedDigitsKeepsShape` keeps the field so) |
| EmiInput.CvvInput | src/dashboard/EmiDialog.jsx:897-905 | the CVV filter: at most three digits |
| EmiInput.FormattedCardNumber | src/dashboard/EmiDialog.jsx:302-311 | what formatCardNumber returns: the first run of four to sixteen digits in groups of four joined by spaces, or the typed text when there is no such run (`FormatCardNumber` is the loop proved to compute it) |
| EmiDialog.InitialValid | src/dashboard/EmiDialog.jsx:86-109 | the dialog's initial state (list step, nothing selected, empty fields, countdown at five) satisfies the dialog invariant |
| EmiDialog.ShownStatus | src/dashboard/EmiDialog.jsx:410-413 | the chip reads PAID exactly when the installment is paid on the server or in this dialog, FAILED when only a failed attempt is recorded here, and the server's status otherwise |
| EmiDialog.FirstUnpaid | src/dashboard/EmiDialog.jsx:116-118 | `find` for the first installment paid neither on the server nor here: everything before it is paid, and nothing found means everything is paid |
| EmiDialog.DisplayEmis | src/dashboard/EmiDialog.jsx:113-122 | "all" mode lists every installment; sequential mode lists at most one, the first unpaid one, and nothing exactly when all are paid |
| EmiDialog.SequentialOffersFirstUnpaid | src/dashboard/EmiDialog.jsx:493-499 | in sequential mode a Pay button is offered only for the first unpaid installment |
| EmiDialog.MethodSelectRoutes | src/dashboard/EmiDialog.jsx:163-173 | choosing a method: UPI leads to the bank list, card to the card form, and any other method to processing with a request for the selected installment naming the chosen method; only the method and step change |
| EmiDialog.StaleNetBankingRequest | src/dashboard/EmiDialog.jsx:163-173 | as written, a net-banking click sends the method held before the click: the bank's name after a UPI attempt, an empty method in a fresh session |
| EmiDialog.StaleRequestDiffers | src/dashboard/EmiDialog.jsx:200-212 | the as-written request agrees with the intended one exactly when the method held before the click already named the chosen method |
| EmiDialog.UpiPinSubmitIff | src/dashboard/EmiDialog.jsx:264-270 | the PIN step sends a request exactly for a four-digit PIN, and that request names the chosen bank |
| EmiDialog.CardSubmitIff | src/dashboard/EmiDialog.jsx:272-283 | the card form moves to processing exactly when number, expiry, CVV and name are all filled, and otherwise changes nothing |
| EmiDialog.PaymentSucceededRecords | src/dashboard/EmiDialog.jsx:214-230 | a successful payment records PAID with the server's transaction id and method for the selected installment only, shows the success screen, and the installment then counts as paid |
| EmiDialog.PaymentDeclinedRecords | src/dashboard/EmiDialog.jsx:231-251 | a failed payment records FAILED with the server's message or the default text, for the selected installment only, and shows that reason |
| EmiDialog.SequentialMovesOn | src/dashboard/EmiDialog.jsx:113-122 | after a successful payment the sequential list no longer shows the paid installment |
| EmiDialog.RetryAndChangeMethod | src/dashboard/EmiDialog.jsx:317-320 | retry returns to the methods with the same installment and the reason cleared; "Change Method" (1144-1151) keeps everything typed so far |
| EmiDialog.ResetClears | src/dashboard/EmiDialog.jsx:285-300 | reset returns to the list with every choice and field cleared, keeps the local payment records, mode and countdown, is idempotent and keeps the invariant |
| EmiDialog.CountdownReturnsToList | src/dashboard/EmiDialog.jsx:142-156 | the countdown counts its remaining seconds down on the result screen, and its last second returns to the list with the countdown back at five |
| EmiDialog.FiveTicksReturnToList | src/dashboard/EmiDialog.jsx:142-156 | from a fresh countdown a result screen stays for four seconds and returns to the list at the fifth |
| EmiDialog.ModeChangeShowsList | src/dashboard/EmiDialog.jsx:361-364 | changing the payment mode sets that mode and shows the list, keeping payments and the selection |
| EmiDialog.FieldHandlersKeepShape | src/dashboard/EmiDialog.jsx:785-788 | the PIN, CVV, expiry and card-number handlers keep the dialog invariant (PIN of at most four digits, CVV of at most three) |
| EmiDialog.EmiDialogState.constructor | src/dashboard/EmiDialog.jsx:85-109 | the dialog starts on the list in the requested mode with nothing selected and the invariant established |
| EmiDialog.EmiDialogState.HandlePaymentClick | src/dashboard/EmiDialog.jsx:158-161 | clicking Pay selects the installment and moves to the method step, keeping the invariant |
| EmiDialog.EmiDialogState.HandleMethodSelect | src/dashboard/EmiDialog.jsx:163-173 | the corrected method choice, with the request it sends |
| EmiDialog.EmiDialogState.HandleBankSelect | src/dashboard/EmiDialog.jsx:175-178 | choosing a bank records it and asks for the UPI id |
| EmiDialog.EmiDialogState.HandleUpiVerifySubmit | src/dashboard/EmiDialog.jsx:257-262 | a non-empty UPI id is accepted and the PIN is asked for; an empty one changes nothing |
| EmiDialog.EmiDialogState.HandleUpiPinSubmit | src/dashboard/EmiDialog.jsx:264-270 | the PIN form's submit, as the PIN step's function states |
| EmiDialog.EmiDialogState.HandleCardSubmit | src/dashboard/EmiDialog.jsx:272-283 | the card form's submit, as the card step's function states |
| EmiDialog.EmiDialogState.ReceivePaymentResult | src/dashboard/EmiDialog.jsx:214-251 | the service's answer is recorded for the selected installment and the result screen shown, keeping the invariant |
| EmiDialog.EmiDialogState.HandleRetryPayment | src/dashboard/EmiDialog.jsx:317-320 | retry from the failure screen returns to the methods |
| EmiDialog.EmiDialogState.HandleChangeMethod | src/dashboard/EmiDialog.jsx:1144-1151 | from the bank, UPI and card steps the button returns to the methods |
| EmiDialog.EmiDialogState.ResetPaymentFlow | src/dashboard/EmiDialog.jsx:285-300 | the reset run by Back (1139-1142) and on close (128-132) |
| EmiDialog.EmiDialogState.CountdownTick | src/dashboard/EmiDialog.jsx:144-153 | one second on a result screen counts down, or returns to the list and restarts at five |
| EmiDialog.EmiDialogState.HandleModeChange | src/dashboard/EmiDialog.jsx:361-364 | the mode select sets the mode and shows the list |
| EmiDialog.EmiDialogState.DialogOpened | src/dashboard/EmiDialog.jsx:135-139 | opening the dialog takes the caller's payment mode and changes nothing else |
| EmiDialog.EmiDialogState.HandleUpiIdChange | src/dashboard/EmiDialog.jsx:715 | typing the UPI id changes only the UPI id |
| EmiDialog.EmiDialogState.HandlePinChange | src/dashboard/EmiDialog.jsx:785-788 | typing the PIN applies the four-digit filter and keeps the invariant |
| EmiDialog.EmiDialogState.HandleCvvChange | src/dashboard/EmiDialog.jsx:897-905 | typing the CVV applies the three-digit filter and keeps the invariant |
| EmiDialog.EmiDialogState.HandleExpiryChange | src/dashboard/EmiDialog.jsx:872-884 | typing the expiry stores the MM/YY normalised text |
| EmiDialog.EmiDialogState.HandleCardNumberChange | src/dashboard/EmiDialog.jsx:852-858 | typing the card number stores the grouped number computed by formatCardNumber |
| EmiDialog.EmiDialogState.HandleCardNameChange | src/dashboard/EmiDialog.jsx:916-923 | typing the cardholder name changes only the name |
| EmiDialog.PayByCard | src/dashboard/EmiDialog.jsx:158-283 | paying an offered installment by card sends a card request for it, and a successful answer leaves it paid and the success screen showing |
| EmiDialog.IsPaid | src/dashboard/EmiDialog.jsx:411-412 | an installment is paid when the server says PAID or this dialog recorded a payment for it |
| EmiDialog.PayOffered | src/dashboard/EmiDialog.jsx:493-499 | a Pay button is shown for a displayed installment that is not paid |
| EmiDialog.RequestOf | src/dashboard/EmiDialog.jsx:205-211 | the request `processPayment` sends: the selected installment, and the bank's name for UPI or else the method |
| EmiDialog.PaymentClick | src/dashboard/EmiDialog.jsx:158-161 | handlePaymentClick: selects the installment and moves to the method step |
| EmiDialog.MethodSelect | src/dashboard/EmiDialog.jsx:163-173 | handleMethodSelect as intended; `MethodSelectRoutes` proves its routing and request |
| EmiDialog.MethodSelectAsWritten | src/dashboard/EmiDialog.jsx:163-212 | handleMethodSelect as written: the request is built from the session before the click; `StaleNetBankingRequest` and `StaleRequestDiffers` show where it differs |
| EmiDialog.BankSelect | src/dashboard/EmiDialog.jsx:175-178 | handleBankSelect: records the bank and moves to the UPI id step |
| EmiDialog.UpiVerifySubmit | src/dashboard/EmiDialog.jsx:257-262 | handleUpiVerifySubmit with verifyUpiId (lines 180-196): a non-empty id is marked verified and the PIN step follows; an empty one changes nothing |
| EmiDialog.UpiPinSubmit | src/dashboard/EmiDialog.jsx:264-270 | handleUpiPinSubmit; `UpiPinSubmitIff` characterises it |
| EmiDialog.CardSubmit | src/dashboard/EmiDialog.jsx:272-283 | handleCardSubmit; `CardSubmitIff` characterises it |
| EmiDialog.PaymentResult | src/dashboard/EmiDialog.jsx:214-251 | the end of processPayment; `PaymentSucceededRecords` and `PaymentDeclinedRecords` characterise it |
| EmiDialog.Retry | src/dashboard/EmiDialog.jsx:317-320 | handleRetryPayment: back to the method step with the reason cleared |
| EmiDialog.ChangeMethod | src/dashboard/EmiDialog.jsx:1144-1151 | the "Change Method" button: back to the method step, everything else kept |
| EmiDialog.Reset | src/dashboard/EmiDialog.jsx:285-300 | resetPaymentFlow; `ResetClears` characterises it |
| EmiDialog.Tick | src/dashboard/EmiDialog.jsx:144-153 | one second of the countdown: down by one, or back to the list with the countdown at five; `CountdownReturnsToList` iterates it |
| EmiDialog.ModeChange | src/dashboard/EmiDialog.jsx:361-364 | the mode select: the new mode and the list step |
| LoanApplication.HashCode | src/pages/LoanApplication.jsx:45-53 | the 32-bit rolling hash of the upper-cased text, folded to its absolute value, lies between 0 and 2^31 |
| LoanApplication.PanScore | src/pages/LoanApplication.jsx:55-66 | no score exactly for a missing or shorter-than-five text; otherwise a score between 550 and 850 |
| LoanApplication.GetCreditScoreFromPan | src/pages/LoanApplication.jsx:55-66 | the loop computes that score: the length guard, the rolling hash of the upper-cased text and `550 + |hash| % 301` |
| LoanApplication.WizardScoreAgreesWithPage | src/pages/LoanApplication.jsx:465-476 | the chip's score equals the credit-check page's score for every text of five or more characters, so every accepted PAN gets one |
| LoanApplication.TruncatedNumber | src/pages/LoanApplication.jsx:161-166 | `Number` of the amount text yields a number exactly for a plain decimal text (an optional '+' or '-', digits, an optional fraction), negated only for '-' |
| LoanApplication.AmountAcceptedIff | src/pages/LoanApplication.jsx:161-166 | the amount passes exactly when it is a decimal text without a leading minus (a leading '+' is allowed) whose whole part is at least 1,00,000 |
| LoanApplication.WholeAmountAccepted | src/pages/LoanApplication.jsx:161-166 | a whole number of rupees passes exactly from 100000 on |
| LoanApplication.Message | src/pages/LoanApplication.jsx:153-177 | every unmet requirement is reported with a non-empty message, so "no message" means the step passed |
| LoanApplication.SetField | src/pages/LoanApplication.jsx:182 | `{ ...formData, [name]: value }` sets the named field and leaves every other field as it was |
| LoanApplication.ChangeFieldWritesOne | src/pages/LoanApplication.jsx:179-183 | handleChange writes only the named field, upper-casing the PAN and keeping every other text as typed |
| LoanApplication.LowerCasePanAccepted | src/pages/LoanApplication.jsx:68 | a PAN typed in lower case matches the PAN pattern once the field has upper-cased it |
| LoanApplication.ValidatePersonal | src/pages/LoanApplication.jsx:155-158 | the first step passes exactly for a name that is not blank and a profession; a blank name is reported first |
| LoanApplication.ValidateLoanDetails | src/pages/LoanApplication.jsx:159-171 | the second step passes exactly for a purpose, an accepted amount, a PAN of the shape AAAAA9999A and a tenure, reporting the first that is missing |
| LoanApplication.ValidateStepMeaning | src/pages/LoanApplication.jsx:153-177 | each step's check passes exactly when that step has what it asks for; the review step checks nothing |
| LoanApplication.StepsCoverApplication | src/pages/LoanApplication.jsx:153-177 | the three steps' checks together are exactly the complete application, whose PAN then has a score |
| LoanApplication.LoanWizard.constructor | src/pages/LoanApplication.jsx:121-138 | the wizard starts on the first step with empty fields except the stored user's name, no files and no messages |
| LoanApplication.LoanWizard.HandleChange | src/pages/LoanApplication.jsx:179-183 | a field change updates only the form, as handleChange states, and keeps every passed step valid |
| LoanApplication.LoanWizard.HandleFileChange | src/pages/LoanApplication.jsx:188-193 | a chosen file fills its slot and no choice leaves the files as they were |
| LoanApplication.LoanWizard.RemoveFile | src/pages/LoanApplication.jsx:195-200 | removing empties exactly that slot |
| LoanApplication.LoanWizard.HandleNext | src/pages/LoanApplication.jsx:202-211 | Next (1194-1216) stays put and shows the step's message when its check fails, and otherwise clears the error and advances, so every passed step still validates |
| LoanApplication.LoanWizard.HandleBack | src/pages/LoanApplication.jsx:213-217 | Back (1172-1192) clears the error and goes one step back |
| LoanApplication.LoanWizard.HandleSubmit | src/pages/LoanApplication.jsx:219-238 | a failing check shows its message; a user whose id is missing or 0 gets the login message and is sent to /login; otherwise the form, the user's id and the files present are posted with the messages cleared |
| LoanApplication.LoanWizard.ReceiveSubmitResult | src/pages/LoanApplication.jsx:240-252 | acceptance shows the success message and heads to the dashboard; refusal shows the server's message or "Application failed" |
| LoanApplication.SubmitFromReview | src/pages/LoanApplication.jsx:1218-1240 | submitting from the review step posts only complete applications, whose PAN has a score, and posts nothing exactly when the user's id is missing or 0 |
| LoanApplication.AmountAccepted | src/pages/LoanApplication.jsx:161-166 | the amount check: a non-empty text, a number, and not below 100000 (`AmountAcceptedIff` characterises it) |
| LoanApplication.SignedAmountAccepted | src/pages/LoanApplication.jsx:161-166 | a whole amount with a leading '+' passes exactly from 100000 on, like the plain one |
| LoanApplication.ChangeField | src/pages/LoanApplication.jsx:179-183 | handleChange's new form: the PAN upper-cased, any other field as typed (`ChangeFieldWritesOne` proves only that field changes) |
| LoanApplication.ValidateStep | src/pages/LoanApplication.jsx:153-177 | validateStep: the first unmet requirement of the step in the source's order, or none (`ValidateStepMeaning` proves what passing means) |
| JsText.ToUpperIdempotent | src/pages/CreditScoreCheck.jsx:69 | upper-casing text that the field already upper-cased changes nothing |
| JsText.LowerOfUpper | src/pages/FAQ.jsx:107-108 | lower-casing forgets an earlier upper-casing, so case-insensitive matching does not depend on how the text was stored |
| JsText.DigitsOnlyOfDigits | src/dashboard/EmiDialog.jsx:786 | removing the non-digits from text that is all digits leaves it as it is |
| JsText.DigitsOnlyAppend | src/dashboard/EmiDialog.jsx:786 | removing the non-digits distributes over concatenation |
| JsText.TrimStart | src/components/Chatbot.jsx:405 | the text without its leading whitespace: a suffix that is empty or starts with a non-space |
| JsText.TrimEnd | src/components/Chatbot.jsx:405 | the text without its trailing whitespace: a prefix that is empty or ends with a non-space |
| JsText.TrimEmpty | src/components/Chatbot.jsx:405 | a text trims to "" exactly when it is whitespace only |
| JsText.SplitLast | src/components/Chatbot.jsx:357 | the last piece of a split is the text after the last separator |
| JsText.DigitPrefix | src/components/Navbar.jsx:200 | the longest run of digits at the start of the text |
| JsText.ParseIntToString | src/pages/CreditScoreCheck.jsx:50 | an integer stored as text and read back by `parseInt(..., 10)` (Navbar.jsx:200) is the same integer |

## Left out

- Rendering, styling, animation, icons and tooltips' wording are left out. Only the tooltip and button choices that depend on the gate are modelled.
- Network calls are left out: the payment simulation, the loan post, the status update, the document verification and the disbursement requests. Their answers are method parameters (`PayOutcome`, `PostOutcome`), and the requests are returned values.
- Timers are left out: the 1-second UPI check, the 2-second payment latency, the 1.5-second and 2-second redirects, and the chat's typing delay. Each delayed effect is a separate method that the caller runs later; the countdown is a sequence of discrete ticks. Stale timer callbacks and races between them are not modelled.
- The `processing` flag, the snackbars and `handleSnackbarClose` carry no decision and are left out. So are the "show details" and active-field display state of the wizard, and the PDF previews.
- A failure of the simulated UPI check (`verifyUpiId`'s catch branch) cannot happen, because its promise never rejects; only the success path is modelled.
- Dates are left out: `new Date(...)` and the month-key computation, the payment date and the current time. The month key, `today` and `now` are inputs.
- `jwtDecode` and `JSON.parse` are left out: the decoded claims and the parsed user are inputs. A malformed stored user is its own case.
- Input `maxLength` attributes are left out. The card-number length bound is proved from the formatter itself.
- Unicode is left out: case mapping and whitespace are the ASCII subsets, and `charCodeAt` is the character's code point (the Basic Multilingual Plane only).
- ProtectedRoute.TokenValid: the token's role claims (`role`, `authorities`, `roles`) are modelled as text. A claim that holds a list, as `authorities` usually does, is truthy even when empty; that case is not modelled.
- LoanApplication.TruncatedNumber: `Number()` of the amount is modelled for plain decimal text only. Surrounding whitespace, exponent, hexadecimal (0x), binary (0b), octal (0o) and "Infinity" forms are treated as not a number, so `LoanApplication.AmountAcceptedIff` is weaker than `Number()` for those inputs.
- Loan amounts and status counts are integers: the dashboard's `Number(app.loanAmount)` is taken as an integer, and `Math.round` of a ratio is exact rational rounding (`Charts.RoundDiv`).
- The bot's reply wording and the chat window's dimensions are left out; replies are identified by topic, and only the option lists are exact.
- `hashCode` in the wizard's file is never called by the page. It is modelled because it is the hash behind the score.

## Findings

| source | as written | input that shows it | evidently intended | confidence | as-written member | corrected member |
|---|---|---|---|---|---|---|
| src/dashboard/EmiDialog.jsx:163-173 | `handleMethodSelect` calls `processPayment`, which reads `selectedMethod` and `selectedBank` from the render in which the click happened, so the request names the method chosen before the click | choose UPI and a bank, go back with "Change Method", then choose net banking: the request's method is the bank's name; in a fresh session it is "" | the request names the method just chosen | not executed | EmiDialog.StaleNetBankingRequest | EmiDialog.MethodSelectRoutes |
