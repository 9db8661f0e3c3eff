# EvenSteven front end: a Dafny model of its rules

EvenSteven is a Next.js front end for splitting shared expenses. It talks to a REST backend. The front end holds no split or balance engine. What it holds is a set of small rules spread across its pages, its authentication context and its API client. This project models those rules in Dafny and proves what they promise.

There is one module per source file:

| file | module | models |
|---|---|---|
| `common.dfy` | `Common` | `Option` and `Result` |
| `text.dfy` | `Text` | the JavaScript string operations the rules use: the whitespace set of `trim` and `\s`, `split` on one character, `join`, ASCII upper/lower case, `${n}` for naturals and reading it back, `startsWith`, `includes`, and the truthiness of an optional string |
| `transaction_card.dfy` | `TransactionCard` | `components/transaction-card.tsx`: avatar initials, status colour, participant phrase, category label, status label |
| `create_group.dfy` | `CreateGroup` | `app/create-group/page.tsx`: the e-mail validator, the participant rows (a class), the submit handler's checks and request body, and its failure messages |
| `api_client.dfy` | `ApiClient` | `lib/api.ts`: the token store and request config (classes), the request and response interceptors, `createGroup`'s error mapping, and `joinGroupByCode`'s selection and error classification |
| `dashboard.dfy` | `Dashboard` | `app/dashboard/page.tsx`: the balance label over integer cents, the day count, the "time ago" phrase, and the member wording |
| `group_settings.dfy` | `GroupSettings` | `app/group-settings/page.tsx`: member removal, the current user and admin rule, the offered controls, and the dialogs (a class) |
| `auth_context.dfy` | `AuthContext` | `contexts/auth-context.tsx`: `useAuth`, the error messages, and the provider's state changes (a class over the token store) |
| `home_page.dfy` | `HomePage` | `app/page.tsx`: the logo easter egg, its progress label, and the signed-in redirect (a class) |

Network calls, the router and `window.location` are not performed. Each backend call is a parameter that carries its outcome, and navigation is a field recording where the page was sent. `localStorage` is the `ApiClient.TokenStore` class.

Three observations follow from the proofs.

- The create-group page's own 405 message is unreachable. `groupAPI.createGroup` turns a server 405 into an error without a response, so the page shows the "not yet available" text instead (`CreateGroup.ServerRejectsPost`).
- In `joinGroupByCode`, a group without an id is not reported as invalid data. The `catch` turns that error into the generic "Failed to join group" message (`ApiClient.JoinLookupInvalid`).
- On start-up, the access token returned by the refresh call is discarded. `authAPI.refreshToken` returns it without storing it, and `initializeAuth` ignores it, so the second profile load runs with the stored token. `AuthContext.AuthProvider.InitializeAuth` therefore leaves the stored tokens unchanged on that path.

## Model

| member | source | states |
|---|---|---|
| TransactionCard.InitialsAreWordStarts | components/transaction-card.tsx:9-16 | The initials are the first characters of the space-separated words, in order, upper-cased, and at most two of them. Proved against a left-to-right reference definition. |
| TransactionCard.InitialsOfFullName | components/transaction-card.tsx:9-16 | A first name and a last name without spaces give exactly their two upper-cased first letters. |
| TransactionCard.StatusColor | components/transaction-card.tsx:19-28 | Green classes exactly when the lower-cased status is "settled". Yellow exactly when it is "pending". Gray exactly otherwise. |
| TransactionCard.StatusColorIgnoresCase | components/transaction-card.tsx:19-20 | Two statuses that agree after lower-casing get the same colour. |
| TransactionCard.DisplayName | components/transaction-card.tsx:34 | The name shown is the username if non-empty, else the name if non-empty. Otherwise it is the part of the e-mail before its first '@': a prefix of the e-mail with no '@', followed by '@' or the end. |
| TransactionCard.DisplayNames | components/transaction-card.tsx:34 | One display name per participant, position by position. |
| TransactionCard.ParticipantPhrase | components/transaction-card.tsx:31-38 | "No participants" exactly for an empty list. "With a" for one name, "With a and b" for two, and "With a, b, and n others" with n = length - 2 for more. |
| TransactionCard.PhraseSeesFirstTwo | components/transaction-card.tsx:36-38 | Two lists of the same length whose first two display names agree produce the same phrase. |
| TransactionCard.PhraseCountsOthers | components/transaction-card.tsx:38 | With three or more participants, the number before " others" reads back as the list length minus two. |
| Text.JoinSplit | components/transaction-card.tsx:44-46 | Splitting on a character and joining the pieces with that same character gives the string back, so the split loses nothing. |
| TransactionCard.FormatCategorySpec | components/transaction-card.tsx:42-48 | An empty category reads "Other". Otherwise the label keeps the category's length, every '_' becomes one space, the first character of each segment is upper-cased, and every other character is kept. No '_' survives. |
| TransactionCard.StatusLabel | components/transaction-card.tsx:110 | Only the first character changes, to its upper case; the length and the rest are kept. |
| TransactionCard.StatusLabelKeepsColour | components/transaction-card.tsx:106-110 | The capitalised label has the same colour as the status it displays. |
| CreateGroup.IndexOf | app/create-group/page.tsx:91 | The position found holds the character and no earlier position does; with no position, the character does not occur. |
| CreateGroup.IsValidEmailMatchesPattern | app/create-group/page.tsx:90-93 | The validator accepts exactly the strings that `^[^\s@]+@[^\s@]+\.[^\s@]+$` matches, stated by positions of the '@' and the '.'. Both directions are proved. |
| CreateGroup.CreateGroupForm.constructor | app/create-group/page.tsx:18-23 | The form starts with empty fields, currency "USD", one empty participant row, no error, and not loading. |
| CreateGroup.CreateGroupForm.AddParticipant | app/create-group/page.tsx:72-75 | One empty row is appended; the earlier rows are kept. |
| CreateGroup.CreateGroupForm.RemoveParticipant | app/create-group/page.tsx:77-80 | The row at the index goes and the others keep their order. An index outside the list removes nothing. |
| CreateGroup.CreateGroupForm.UpdateParticipant | app/create-group/page.tsx:82-88 | Only the row at the index becomes the new value. |
| CreateGroup.CreateGroupForm.HandleCreateGroup | app/create-group/page.tsx:95-158 | The error shown and the next page are those of the checks followed by the request outcome. The loading flag is left alone when a check stops the submission, and is lowered once the request has settled. |
| CreateGroup.ValidParticipantsMembers | app/create-group/page.tsx:110 | The kept rows are exactly the non-blank rows, untrimmed, and never more rows than were given. |
| CreateGroup.ValidParticipantsAppend | app/create-group/page.tsx:110 | Filtering distributes over concatenation, so the kept rows stay in their original order. |
| CreateGroup.Validate | app/create-group/page.tsx:99-110 | A blank name fails first with "Group name is required". Then a non-blank row that is not an e-mail address fails with "Please enter valid email addresses". When both checks pass, the result is exactly the non-blank rows, all of them valid addresses. |
| CreateGroup.BlankRowIgnored | app/create-group/page.tsx:105-110 | Inserting a blank row anywhere never changes the outcome of the checks. |
| CreateGroup.BlankRowNotKept | app/create-group/page.tsx:110 | A blank row inserted anywhere is dropped by the filter. |
| CreateGroup.BlankRowNotInvalid | app/create-group/page.tsx:105 | A blank row inserted anywhere neither creates nor hides an invalid address. |
| CreateGroup.BadRowCameFromList | app/create-group/page.tsx:105 | An invalid row in the list with the inserted row was already in the original list. |
| CreateGroup.BadRowStaysInList | app/create-group/page.tsx:105 | An invalid row stays found after any row is inserted. |
| CreateGroup.SubmissionChecks | app/create-group/page.tsx:99-139 | The checks run in order: name, e-mail rows, login (which sends the user to the login page), then token. The request is sent exactly when all pass. Its body has the trimmed name, which is non-empty, the trimmed description and the chosen currency. The non-blank rows are validated, all of them valid addresses, but not sent: the body carries no participants. |
| CreateGroup.FailureMessageCases | app/create-group/page.tsx:191-201 | The message for a failed request other than a 401: a 405, 403 or 400 status picks its own text, the 400 text ending in the server's detail, else its message, else "Please check your input". Without one of those statuses, an error mentioning "backend API does not support" gives "not yet available". Anything else gives "Failed to create group: " and the server's detail, else the error's message, else "Unknown error". No message is empty. |
| CreateGroup.ServerRejectsPost | app/create-group/page.tsx:191-198 | A server 405, after `groupAPI.createGroup` rewrites it, leaves the user on the form with "Group creation is not yet available…". |
| ApiClient.TokenStore.Clear | lib/api.ts:66-67 | Both token entries are removed. |
| ApiClient.Bearer | lib/api.ts:27 | The header value is "Bearer " followed by exactly the token. |
| ApiClient.AttachToken | lib/api.ts:17-33 | With a non-empty stored access token, Authorization is set to the bearer value and nothing else changes. Without one, the headers are unchanged. |
| ApiClient.HandleResponseError | lib/api.ts:44-74 | Only a 401 on a request not yet retried is handled; it is marked retried first, so each request is retried at most once. With no refresh token, the original error is rejected. A successful refresh stores the new token, puts it in the request's header and retries. A failed refresh clears both tokens, sends the user to the login page and rejects with the refresh error. Every other error is rejected unchanged and changes no state. The request's headers change only on the retry path. |
| ApiClient.CreateGroupErrors | lib/api.ts:212-224 | A created group passes through. A 405 becomes an error without a response whose message contains "backend API does not support". Every other error is rethrown unchanged. |
| ApiClient.NoGroupEndpointMentionsBackend | lib/api.ts:220 | The 405 message contains the phrase the create-group page looks for. |
| ApiClient.SelectGroup | lib/api.ts:245-261 | No data or an empty array fails with "Group not found with the provided join code". A non-empty array selects its first element, and a single object is selected itself. The selection fails with "Invalid group data received" when it is null or has no non-zero id. A failure carries no response. |
| ApiClient.SelectFirstOfList | lib/api.ts:251 | An array answer resolves to its first element. |
| ApiClient.JoinReturnsFoundGroup | lib/api.ts:263-276 | The join succeeds with group g exactly when the lookup succeeded and selected g, and the join call succeeded. The group returned is the one found, with an id. |
| Text.ContainsMeansOccurs | lib/api.ts:282 | `includes` holds exactly when the text occurs at some position of the message. |
| ApiClient.GroupNotFoundIsRethrown | lib/api.ts:282-284 | The "not found" message contains "Group not found", so the catch rethrows it as it is. |
| ApiClient.InvalidGroupDataIsGeneric | lib/api.ts:260 | The invalid-data message does not contain "Group not found". |
| ApiClient.JoinErrorWithoutResponse | lib/api.ts:278-308 | An error without a response whose message does not mention "Group not found" gets the generic failure message. |
| ApiClient.JoinLookupNotFound | lib/api.ts:246-247 | No data, or an empty array, ends in "Group not found with the provided join code". |
| ApiClient.JoinLookupInvalid | lib/api.ts:259-308 | A lookup whose first array element, or whose single object, is null or has no id ends in "Failed to join group. Please try again later." |
| ApiClient.JoinHttpErrors | lib/api.ts:286-308 | A 404 maps to "not found". A 400 carrying one of the three known backend errors shows that error; any other 400 shows the combined message. A 401 asks the user to log in. Every other status gets the generic message. |
| ApiClient.JoinMessagesAreKnown | lib/api.ts:278-309 | Every failure carries one of the seven fixed messages, or a rethrown message that mentions "Group not found". |
| Dashboard.MoneyText | app/dashboard/page.tsx:70-72 | The amount text has at least four characters, with a '.' before the two cent digits. |
| Dashboard.ReadCentsMoneyText | app/dashboard/page.tsx:70-72 | The amount text reads back as the number of cents it was made from. |
| Dashboard.FormatBalance | app/dashboard/page.tsx:68-76 | The class is positive, negative or zero exactly by the sign of the balance, so exactly one applies. A positive text starts with "+$" and a negative one with "-$". The CSS class names are "balance-positive", "balance-negative" and "balance-zero" for those three cases. |
| Dashboard.BalanceReadsBack | app/dashboard/page.tsx:68-76 | The text determines the balance: reading it back gives the signed cents, so "-$" is followed by the magnitude and zero gets its own text. |
| Dashboard.DayCount | app/dashboard/page.tsx:82-83 | The day count is the least number of whole days covering the absolute time difference. |
| Dashboard.DayCountSymmetric | app/dashboard/page.tsx:82 | A date in the future reads the same as one equally far in the past. |
| Dashboard.TimeAgoDays | app/dashboard/page.tsx:85-88 | Up to seven days, including 0, the phrase reads back as that many days. It is singular only for one day. |
| Dashboard.TimeAgoWeeks | app/dashboard/page.tsx:89-91 | From 8 to 30 days, the phrase counts whole weeks, between 1 and 4, with weeks·7 ≤ d < weeks·7 + 7. It is singular exactly when the count is 1, that is below 14 days. |
| Dashboard.TimeAgoMonths | app/dashboard/page.tsx:92-95 | After 30 days, the phrase counts whole 30-day months, at least 1, with months·30 ≤ d < months·30 + 30. It is singular exactly when the count is 1, that is below 60 days. |
| Dashboard.MemberLabel | app/dashboard/page.tsx:213 | The label is "member" exactly when the count is 1, and "members" otherwise. |
| GroupSettings.RemoveByIdMembers | app/group-settings/page.tsx:70 | After removal no member carries the id, and every other member remains. |
| GroupSettings.RemoveByIdAppend | app/group-settings/page.tsx:70 | Removal distributes over concatenation, so the members kept stay in their original order. |
| GroupSettings.RemoveByIdAbsent | app/group-settings/page.tsx:70 | Removing an id that nobody carries changes nothing. |
| GroupSettings.CurrentUser | app/group-settings/page.tsx:98 | No current user is found exactly when no member is flagged as the current user. |
| GroupSettings.CurrentUserIsFirst | app/group-settings/page.tsx:98 | The member found is flagged as the current user, and no earlier member is. |
| GroupSettings.CurrentUserAt | app/group-settings/page.tsx:98 | The first flagged member is the one found. |
| GroupSettings.IsAdminIff | app/group-settings/page.tsx:98-99 | `isAdmin` holds exactly when the first member flagged as the current user exists and is an admin. |
| GroupSettings.RemovingOthersKeepsCurrentUser | app/group-settings/page.tsx:68-99 | Removing an id that the current user does not carry leaves the current user, and so the admin status, unchanged. |
| GroupSettings.OfferedActionsSpec | app/group-settings/page.tsx:143-198 | Share and Leave are always offered. Add Member and Delete Group are offered exactly to an admin. A remove button is offered exactly when the user is an admin, for each member who is not the current user. |
| GroupSettings.NoSelfRemoval | app/group-settings/page.tsx:147 | When ids are distinct, the current user is never offered their own removal. |
| GroupSettings.MembersHeadingCount | app/group-settings/page.tsx:130 | The number in the "Members (n)" heading reads back as the length of the list. |
| GroupSettings.GroupSettingsPage.constructor | app/group-settings/page.tsx:21-46 | The page starts with its three seeded members, whose current user is an admin, and with no dialog open. |
| GroupSettings.GroupSettingsPage.HandleRemoveMember | app/group-settings/page.tsx:63-66 | The remove dialog opens for that id. It is visible exactly when the id is non-empty. |
| GroupSettings.GroupSettingsPage.ConfirmRemoveMember | app/group-settings/page.tsx:68-72 | The members become the old list without that id, no member carries it any more, and the dialog closes. |
| GroupSettings.GroupSettingsPage.CloseRemoveDialog | app/group-settings/page.tsx:217-238 | Cancel, or a click on the backdrop, closes the remove dialog. |
| GroupSettings.GroupSettingsPage.HandleLeaveGroup | app/group-settings/page.tsx:74-77 | The leave dialog opens. |
| GroupSettings.GroupSettingsPage.ConfirmLeaveGroup | app/group-settings/page.tsx:79-84 | The leave dialog closes and the page goes to "/". |
| GroupSettings.GroupSettingsPage.CloseLeaveDialog | app/group-settings/page.tsx:268-287 | Cancel, or a click on the backdrop, closes the leave dialog. |
| GroupSettings.GroupSettingsPage.HandleDeleteGroup | app/group-settings/page.tsx:86-89 | The delete dialog opens. |
| GroupSettings.GroupSettingsPage.ConfirmDeleteGroup | app/group-settings/page.tsx:91-96 | The delete dialog closes and the page goes to "/". |
| GroupSettings.GroupSettingsPage.CloseDeleteDialog | app/group-settings/page.tsx:317-339 | Cancel, or a click on the backdrop, closes the delete dialog. |
| AuthContext.UseAuth | contexts/auth-context.tsx:26-32 | Outside a provider the result is the error "useAuth must be used within an AuthProvider". Inside one it is the context value. |
| AuthContext.DetailOr | contexts/auth-context.tsx:107 | The message is the server's detail when it is a non-empty string, and the fallback otherwise. It is never empty when the fallback is not. |
| AuthContext.RegisterErrorMessageSpec | contexts/auth-context.tsx:124-136 | The register message is the first entry of the first field present, tried in the order email, password, password2, non_field_errors. It is "Registration failed" when none is present. Proved against a reference over the ordered field list. |
| AuthContext.AuthProvider.constructor | contexts/auth-context.tsx:39-40 | The provider starts with no user and loading. |
| AuthContext.AuthProvider.InitializeAuth | contexts/auth-context.tsx:45-88 | Loading always ends false. With no access token, no profile is used and nothing changes. A loaded profile sets the user. After a failed profile load with a refresh token, a successful refresh and second load set the user; otherwise both tokens are removed. Without a refresh token, nothing changes. |
| AuthContext.AuthProvider.Login | contexts/auth-context.tsx:93-109 | On success both tokens are stored, the user is set (so authenticated), and the router goes to "/dashboard". On failure the detail-or-"Login failed" message is thrown and nothing changes. |
| AuthContext.AuthProvider.Register | contexts/auth-context.tsx:111-137 | On success, as for login. On failure the field message is thrown and nothing changes. |
| AuthContext.AuthProvider.Logout | contexts/auth-context.tsx:139-154 | The server is called only when a refresh token is stored. Whatever it answers, both tokens are removed, the user is cleared (so not authenticated), and the router goes to "/login". |
| AuthContext.AuthProvider.UpdateProfile | contexts/auth-context.tsx:156-163 | On success the answer replaces the user. On failure the detail-or-"Profile update failed" message is thrown and the user is kept. |
| HomePage.CountAfterIsMod | app/page.tsx:33-44 | After n clicks from a fresh page the count is n mod 69, so it stays within 0..68. |
| HomePage.ConfettiClicks | app/page.tsx:37-40 | The count wraps to 0, firing the confetti, exactly on the clicks numbered by multiples of 69. |
| HomePage.ProgressLabel | app/page.tsx:116-120 | The progress line is shown exactly when the count is positive. |
| HomePage.ProgressLabelCount | app/page.tsx:118 | The number in "Keep clicking! (n/69)" reads back as the current count. |
| HomePage.LandingPage.constructor | app/page.tsx:19-20 | The page starts with count 0 and no confetti. |
| HomePage.LandingPage.HandleEasterEgg | app/page.tsx:33-44 | The click that reaches 69 turns the confetti on and resets the count to 0; the later reset wins over the increment. Any other click adds one and leaves the confetti alone. The range 0..68 is preserved. |
| HomePage.LandingPage.ConfettiComplete | app/page.tsx:72 | When the confetti completes, it is turned off. |
| HomePage.LandingPage.OnAuthChange | app/page.tsx:22-26 | A signed-in visitor is sent to "/dashboard" once loading is over. Otherwise the page stays. |

## Left out

- No split calculator or balance aggregation is modelled, because the code has none. The split page hardcodes its amounts, the group balances are literals, and the payment and expense handlers only play sounds.
- Floating point: balances are integer cents, so `toFixed(2)` is exact. The rounding of fractional cents is not modelled. Nor are `toLocaleString`, `parseFloat`, or the over-100 warning on the expense page.
- Dates: `new Date`, `date-fns` `format` and `Date.now` are not modelled. Timestamps are integer milliseconds and the day count is an integer. An unparsable date, which yields `NaN`, is not modelled.
- TransactionCard.Initials and TransactionCard.InitialsAreWordStarts work on whole characters, while JavaScript's `n[0]` takes the first UTF-16 code unit. A word starting with a character outside the Basic Multilingual Plane (an emoji, say) gives a lone surrogate in the source but the whole character in the model. `charAt(0)` followed by `slice(1)` in the category and status labels rejoins the pair, so only the initials differ.
- Letter case: `toUpperCase` and `toLowerCase` are modelled for ASCII letters only. Other characters are left unchanged.
- A present empty `username` or `name` is modelled as the empty string, which is falsy like a missing field. Non-string values behind `||` are not modelled.
- The register error fields are modelled as arrays of strings. A backend that sends a plain string there, where `[0]` takes its first character, is not modelled.
- CreateGroup.SubmissionChecks: the rows in `checkedRows` are not part of the request. The page posts only the name, description and currency (app/create-group/page.tsx:135-143) and only logs the rows it validated (app/create-group/page.tsx:146-155); the logging is left out.
- The create-group page as written renders no participant rows and no description field. Its JSX (app/create-group/page.tsx:236-348) never calls `addParticipant`, `removeParticipant`, `updateParticipant` or `setDescription`. So on the page itself `participants` stays `[""]` and `description` stays `""`, and the e-mail check never fires. The model keeps the handlers and the checks as the code defines them.
- CreateGroup.CreateGroupForm.UpdateParticipant requires an index inside the list. JavaScript would grow the array with holes for a larger index. No caller exists on the page to pass one.
- The create-group page's own 401 refresh-and-retry branch (app/create-group/page.tsx:161-190) is not modelled. It duplicates the response interceptor's refresh, and a 401 ends in the `RefreshSession` step. The other failure messages are modelled (`CreateGroup.FailureMessageCases`).
- The mock fallbacks in lib/api.ts:322-353 and 368-371 are not modelled, and neither are the other `groupAPI` and `authAPI` calls, whose outcomes are parameters. `authAPI.login` also stores the access token itself; this is subsumed, because `AuthProvider.Login` stores both tokens right after.
- How `getProfile`'s own 401 interacts with the response interceptor inside `InitializeAuth` is not modelled. That method takes the outcomes as the provider sees them.
- AuthContext.AuthProvider.Login, AuthContext.AuthProvider.Register, AuthContext.AuthProvider.UpdateProfile and AuthContext.AuthProvider.Logout take the backend outcome as the provider sees it, after the response interceptor has run. A 401 from `/auth/login/` or the other calls first passes through the interceptor (`ApiClient.HandleResponseError`). With a refresh token stored, that may store a new access token or, when the refresh fails, remove both tokens and send the browser to /login, before the provider throws. So "nothing changes on failure" holds for the provider's own state, not for the token store once the interceptor has acted.
- Logging, sounds (hooks/use-sound.ts), confetti animation (components/confetti.tsx, with its randomness and timers), the CSS pulse timers, the theme toggle, and the clipboard alert are not modelled.
- The static currency table of the create-group page is not modelled.
- The presentational details of the member rows are not modelled: role and status badge texts, the 👤/👥 markers, and the logo scale. The decoration before "Keep clicking!" is not modelled either.
- The TypeScript `Transaction` interface is not modelled. The card helpers take plain strings and sequences.
