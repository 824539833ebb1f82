# Nexus Medic Hub — staff dashboard, modelled in Dafny

This project models the browser side of the Nexus Medic Hub staff dashboard.

- **Transport** (`utils/axiosConfig.ts`): the shared HTTP client. Its request interceptor attaches the stored access token as a bearer credential (section 2.1 of RFC 6750). Its response interceptor answers a first HTTP 401 (section 15.5.2 of RFC 9110) with one token refresh and one replay of the request. The client is modelled as a class `Api` over the browser state the interceptors touch: the key/value store, the client's default Authorization header, and a "sent to /login" flag. The remote API is a script of replies, consumed one per network call. Every call made is logged.
- **Session** (`contexts/AuthContext.tsx`): the session manager. Class `AuthProvider` holds the in-memory user, the access token and the loading flag, and drives the client. Its five operations are `initializeAuth`, `login`, `logout`, `refreshToken` and `clearAuth`. Each method is proved equal to a pure specification function of the old state (`LoginSpec`, `RefreshSpec`, …), and the properties of the session are lemmas about those functions.
- **Pages**: the rules the pages decide by are pure functions with characterising contracts, such as filters, validators, label and colour choices, age and redirect targets. The state each page's handlers update is a small class. A page never sees the network directly. Each handler receives the outcome of its API call as an `ApiReply`: accepted with data, refused with the server's `error` text, or no usable answer.
  - LoginPage (`pages/Login.tsx`)
  - Dashboard (`pages/Dashboard.tsx`)
  - Patients (`pages/Patients.tsx`)
  - Folders (`pages/Folders.tsx`)
  - FolderView (`pages/FolderView.tsx`)
  - ManageStaff (`pages/ManageStaff.tsx`)
  - Responses (`pages/Responses.tsx`)
  - LabTests (`pages/Test.tsx`)

Three consequences of the code that are easy to miss are stated as lemmas:

- `refreshToken` with no stored refresh token raises its error inside its own `try` (AuthContext.tsx:140-145), so the catch at AuthContext.tsx:164-167 clears the session before re-raising (`Session.RefreshWithoutToken`).
- `login` posts through the shared client (AuthContext.tsx:85), so a 401 on the login call reaches the response interceptor first (axiosConfig.ts:53-59). With no stored refresh token the interceptor wipes the whole store and redirects to /login. It rejects with an error that carries no response, so `login` raises "Login failed. Please check your connection." (AuthContext.tsx:116), not "Invalid email or password" (`Session.LoginUnauthorizedWithoutRefreshToken`).
- The start-up profile probe (AuthContext.tsx:55) also goes through the interceptor. The branch at AuthContext.tsx:57-64 that calls `refreshToken` after a 401 is reached only when the interceptor itself fails. When the interceptor's refresh succeeds, the probe is replayed and succeeds, and the in-memory token stays the one read at start while the store holds the new one (`Session.ProbeRescuedByInterceptor`). When the interceptor's refresh fails, or no refresh token is stored, the session ends logged out with the store wiped (`Session.ProbeRefreshFailsLogsOut`, `Session.ProbeWithoutRefreshTokenLogsOut`).

## Model

| member | source | states |
|---|---|---|
| Common.OrElse | nexus-medic-hub-main/src/pages/Responses.tsx:148 | The JavaScript "or" default on text: the text itself when it is non-empty, the fallback otherwise |
| Common.ErrorText | nexus-medic-hub-main/src/pages/ManageStaff.tsx:153 | An error toast shows the server's `error` text when a refusal carries a non-empty one, and the page's own fallback for every other failure |
| Common.Lower | nexus-medic-hub-main/src/pages/ManageStaff.tsx:183-185 | Lower-casing keeps the length and maps each position through the ASCII letter mapping |
| Common.LowerChar | nexus-medic-hub-main/src/pages/ManageStaff.tsx:183 | Upper-case ASCII letters move to lower case; every other character is kept |
| Common.LowerIdempotent | nexus-medic-hub-main/src/pages/Patients.tsx:193-196 | Lower-casing twice is the same as lower-casing once |
| Common.EmptyContained | nexus-medic-hub-main/src/pages/ManageStaff.tsx:183 | `includes("")` holds for every text, which is why an empty search box matches everything |
| Common.Filter | nexus-medic-hub-main/src/pages/Patients.tsx:192 | `Array.prototype.filter`: every accepted element occurs in the result exactly as often as in the input, and a rejected one not at all; the result is never longer than the input |
| Common.FilterIsSubsequence | nexus-medic-hub-main/src/pages/Responses.tsx:145 | A filter result keeps the input's order and invents nothing: it is a subsequence of the input |
| Common.FilterKeepsAll | nexus-medic-hub-main/src/pages/Patients.tsx:192-201 | A filter whose test accepts every element returns the input unchanged |
| Common.FilterTwice | nexus-medic-hub-main/src/pages/ManageStaff.tsx:180-186 | Two filters in a row equal one filter with the conjunction of both tests |
| Transport.Bearer | nexus-medic-hub-main/src/utils/axiosConfig.ts:25 | The header is "Bearer " followed by exactly the token |
| Transport.TokenAt | nexus-medic-hub-main/src/utils/axiosConfig.ts:23-24 | A stored token is used exactly when the key holds non-empty text; an absent or empty value counts as none |
| Transport.RequestHeader | nexus-medic-hub-main/src/utils/axiosConfig.ts:21-27 | The request interceptor: `Bearer` of the stored access token when one is stored, otherwise the header the request already carried |
| Transport.RetrySpec | nexus-medic-hub-main/src/utils/axiosConfig.ts:53-79 | The 401 branch of the response interceptor. Without a stored refresh token it makes no call and rejects. A rescued request needed a stored refresh token and leaves an access token stored. The page is sent to /login only with the store emptied and the request rejected |
| Transport.SendSpec | nexus-medic-hub-main/src/utils/axiosConfig.ts:21-83 | One request through both interceptors. It redirects only after emptying the store and rejecting. A request that succeeds after changing the store took three calls: request, refresh and replay |
| Transport.DispatchSpec | nexus-medic-hub-main/src/utils/axiosConfig.ts:72 | One network call is appended to the log with its path and header and answered by the next scripted reply. No reply left means no response. The store, the default header and the redirect flag are untouched |
| Transport.Wipe | nexus-medic-hub-main/src/utils/axiosConfig.ts:73-78 | A failed refresh empties the whole store and sends the page to /login, leaving the default header, the log and the script as they were |
| Transport.SendBounded | nexus-medic-hub-main/src/utils/axiosConfig.ts:53-72 | A request makes one to three calls: the request, at most one bare refresh, at most one replay of the same path. Earlier calls are never altered, so the retry cannot loop |
| Transport.SendAttachesStoredToken | nexus-medic-hub-main/src/utils/axiosConfig.ts:21-27 | The first call carries `Bearer t` when the store holds access token t; with no stored token it carries the client's default header |
| Transport.SendPassesThrough | nexus-medic-hub-main/src/utils/axiosConfig.ts:35-42 | A success, or any failure other than 401, is handed back as it came; the store, the default header and the redirect flag are unchanged after exactly one call |
| Transport.SendWithoutRefreshToken | nexus-medic-hub-main/src/utils/axiosConfig.ts:57-59 | A 401 with no stored refresh token makes no refresh call. The store is emptied, the page goes to /login, and the request rejects with "No refresh token available" |
| Transport.SendRefreshSucceeds | nexus-medic-hub-main/src/utils/axiosConfig.ts:60-72 | A 401 followed by a good refresh stores the new access and refresh tokens and keeps every other key, `expires_at` included. It sets the default header to the new bearer and replays the request once with it. The three calls are the request, the bare refresh and the replay, and the request's result is the replay's |
| Transport.SendRefreshFails | nexus-medic-hub-main/src/utils/axiosConfig.ts:73-79 | A 401 whose refresh is refused or gets no answer empties the store, sends the page to /login and rejects with the refresh's own failure, after two calls |
| Transport.Api.constructor | nexus-medic-hub-main/src/utils/axiosConfig.ts:2-8 | A new client over a given store has no default header, no redirect and an empty log |
| Transport.Api.Dispatch | nexus-medic-hub-main/src/utils/axiosConfig.ts:72 | The client's state after one call is `DispatchSpec` of the state before |
| Transport.Api.Send | nexus-medic-hub-main/src/utils/axiosConfig.ts:21-83 | The client's state and the reply after a request through both interceptors are `SendSpec` of the state before, so every Transport lemma above applies to it |
| Session.ParseUser | nexus-medic-hub-main/src/contexts/AuthContext.tsx:48 | The stored user reads back exactly when the item is a user's JSON |
| Session.LoginSpec | nexus-medic-hub-main/src/contexts/AuthContext.tsx:81-121 | `login` resolves exactly when the login call, after the interceptor, succeeds. A failure raises a non-empty message and keeps the in-memory user and token. Loading always ends off |
| Session.LogoutSpec | nexus-medic-hub-main/src/contexts/AuthContext.tsx:123-137 | `logout` makes the logout call (with the interceptor's calls) and always ends in a cleared session |
| Session.RefreshSpec | nexus-medic-hub-main/src/contexts/AuthContext.tsx:139-169 | `refreshToken` resolves exactly when a refresh token is stored and the refresh call succeeds. Success keeps the user and sets a token; failure drops both |
| Session.ProbeSpec | nexus-medic-hub-main/src/contexts/AuthContext.tsx:54-68 | The probe and its recovery never swap in another user. A restored user that is lost takes the token and every session key with it |
| Session.InitializeSpec | nexus-medic-hub-main/src/contexts/AuthContext.tsx:39-79 | Start-up always ends with loading off. A user appears only when an access token is stored and the stored user reads back as that user |
| Session.Cleared | nexus-medic-hub-main/src/contexts/AuthContext.tsx:171-184 | Clearing removes exactly the four session keys, keeps every other key with its value, and empties the user, the token and the default header |
| Session.ClearIdempotent | nexus-medic-hub-main/src/contexts/AuthContext.tsx:171-184 | Clearing a cleared session changes nothing |
| Session.LoginMessage | nexus-medic-hub-main/src/contexts/AuthContext.tsx:105-117 | A failed login's message is never empty. It is the server's error text first, then "Invalid email or password" for 401, then the server-error message for 500 and above, and the connection message otherwise |
| Session.LoginSucceeds | nexus-medic-hub-main/src/contexts/AuthContext.tsx:81-104 | A successful login resolves and writes all four session keys from the answer. It sets the user, the token and the default header, and ends authenticated when the token is non-empty |
| Session.LoginFailureKeepsSession | nexus-medic-hub-main/src/contexts/AuthContext.tsx:105-120 | A login refused with anything but 401 leaves the store, the header, the user and the token as they were, and raises the classified message |
| Session.LoginUnauthorizedWithoutRefreshToken | nexus-medic-hub-main/src/contexts/AuthContext.tsx:81-121 | A login answered 401 with no stored refresh token wipes the store, redirects to /login, and raises the connection message |
| Session.LogoutAlwaysClears | nexus-medic-hub-main/src/contexts/AuthContext.tsx:123-137 | Whatever the server answers, logout ends unauthenticated with no session key stored and no default header |
| Session.LogoutTwice | nexus-medic-hub-main/src/contexts/AuthContext.tsx:123-137 | A second logout still ends cleared and never brings back a key the first one removed |
| Session.RefreshWithoutToken | nexus-medic-hub-main/src/contexts/AuthContext.tsx:139-146 | With no stored refresh token, `refreshToken` makes no call, clears the session and raises "No refresh token available" |
| Session.RefreshSucceeds | nexus-medic-hub-main/src/contexts/AuthContext.tsx:147-162 | A good refresh resolves and stores the new tokens and expiry. It keeps the user and points the token and the default header at the new access token |
| Session.RefreshFailureClears | nexus-medic-hub-main/src/contexts/AuthContext.tsx:163-168 | Every failed refresh ends unauthenticated with no session key stored and no default header |
| Session.OperationsKeepUserHasToken | nexus-medic-hub-main/src/contexts/AuthContext.tsx:32-36 | No operation leaves a user in memory without a token |
| Session.InitializeRestoresOnlyBoth | nexus-medic-hub-main/src/contexts/AuthContext.tsx:39-79 | Start-up always ends with loading off. Unless both an access token and a user are stored, it changes nothing else |
| Session.InitializeProbeFailureClears | nexus-medic-hub-main/src/contexts/AuthContext.tsx:54-70 | A restored session whose profile probe fails with anything but 401 is cleared |
| Session.NoResurrection | nexus-medic-hub-main/src/contexts/AuthContext.tsx:123-137 | Starting the application after a logout restores no session |
| Session.ReloadRestoresLogin | nexus-medic-hub-main/src/contexts/AuthContext.tsx:39-103 | Reloading after a successful login, when the probe succeeds, restores the same user and token and ends authenticated |
| Session.ProbeRescuedByInterceptor | nexus-medic-hub-main/src/contexts/AuthContext.tsx:54-68 | A 401 on the probe with a stored refresh token makes exactly three calls: the probe, the interceptor's refresh and the replayed probe. It keeps the restored user and the old in-memory token, while the store and the default header hold the new token |
| Session.ProbeRefreshFailsLogsOut | nexus-medic-hub-main/src/contexts/AuthContext.tsx:54-68 | A 401 on the probe whose interceptor refresh is refused or gets no answer ends logged out: no user, no token, the store empty, no default header, the page sent to /login. Exactly one refresh call is made: two calls in all, the second to the refresh endpoint |
| Session.ProbeWithoutRefreshTokenLogsOut | nexus-medic-hub-main/src/contexts/AuthContext.tsx:54-68 | A 401 on the probe with no refresh token stored ends the same way after the single probe call |
| Session.AuthProvider.IsAuthenticated | nexus-medic-hub-main/src/contexts/AuthContext.tsx:36 | Authenticated exactly when a user and a non-empty token are both held |
| Session.AuthProvider.constructor | nexus-medic-hub-main/src/contexts/AuthContext.tsx:32-34 | A new provider starts with no user, no token and loading on |
| Session.AuthProvider.ClearAuth | nexus-medic-hub-main/src/contexts/AuthContext.tsx:171-184 | The provider's state afterwards is `Cleared` of its state before |
| Session.AuthProvider.Login | nexus-medic-hub-main/src/contexts/AuthContext.tsx:81-121 | The state and outcome afterwards are `LoginSpec` of the state before |
| Session.AuthProvider.Logout | nexus-medic-hub-main/src/contexts/AuthContext.tsx:123-137 | The state afterwards is `LogoutSpec` of the state before |
| Session.AuthProvider.RefreshToken | nexus-medic-hub-main/src/contexts/AuthContext.tsx:139-169 | The state and outcome afterwards are `RefreshSpec` of the state before |
| Session.AuthProvider.InitializeAuth | nexus-medic-hub-main/src/contexts/AuthContext.tsx:39-79 | The state afterwards is `InitializeSpec` of the state before |
| LoginPage.RedirectTarget | nexus-medic-hub-main/src/pages/Login.tsx:22 | The target is the page that asked for sign-in when it has a non-empty path, "/dashboard" otherwise; never empty |
| LoginPage.EffectRedirect | nexus-medic-hub-main/src/pages/Login.tsx:25-29 | An already signed-in visitor is sent to the redirect target, and nobody else is |
| LoginPage.CredentialsGiven | nexus-medic-hub-main/src/pages/Login.tsx:34-41 | The form goes on to `login` only when both email and password are non-empty |
| LoginPage.FailureToast | nexus-medic-hub-main/src/pages/Login.tsx:56-64 | The toast shows a raised error's non-empty message, "Invalid email or password" otherwise |
| LoginPage.PageShowsLoginMessage | nexus-medic-hub-main/src/pages/Login.tsx:56-64 | When `login` rejects, the login call itself failed, and the page shows exactly the message `login` chose for that failure |
| LoginPage.LoginForm.constructor | nexus-medic-hub-main/src/pages/Login.tsx:12-15 | The form starts pre-filled with the demonstration account "doctor@example.com" / "password" and not loading |
| LoginPage.LoginForm.HandleSubmit | nexus-medic-hub-main/src/pages/Login.tsx:31-65 | Missing credentials are reported without touching the session. Otherwise the session is `LoginSpec` of the old one and loading ends off. Success navigates to the redirect target with the welcome toast; failure stays with the failure toast |
| Dashboard.Normalise | nexus-medic-hub-main/src/pages/Dashboard.tsx:29-39 | Each count is the server's value or 0 and each list the server's list or empty, field by field |
| Dashboard.Load | nexus-medic-hub-main/src/pages/Dashboard.tsx:26-62 | There is no error exactly when the call succeeded with `success` and `data`, and then the figures are the normalised data. Any failure shows all zeros with a non-empty error: the server's text when a refusal carries one, the page's own message otherwise |
| Dashboard.PerPeriod | nexus-medic-hub-main/src/pages/Dashboard.tsx:105 | `max(0, floor(n / days))`: never negative; for n ≥ 0 the whole number of periods in n; 0 when n is below one period |
| Dashboard.PerPeriodMonotone | nexus-medic-hub-main/src/pages/Dashboard.tsx:105-111 | A larger count never shows a smaller "new this month" or "admitted this week" figure |
| Dashboard.CriticalDescription | nexus-medic-hub-main/src/pages/Dashboard.tsx:117 | "Currently under intensive care" exactly when there are critical cases, "No critical cases" exactly when there are none |
| Dashboard.Subtitle | nexus-medic-hub-main/src/pages/Dashboard.tsx:84-88 | "System Overview" exactly for admins, "Your Patient Cases" exactly for doctors, "Today's Activities" for everyone else and for no user |
| Dashboard.Badge | nexus-medic-hub-main/src/pages/Dashboard.tsx:95 | "Admin Dashboard" exactly for admins, "Medical Dashboard" otherwise |
| Dashboard.SubtitleAgreesWithBadge | nexus-medic-hub-main/src/pages/Dashboard.tsx:84-95 | The subtitle and the badge agree on who is an administrator |
| Dashboard.AdminBadgeMatchesStaffGate | nexus-medic-hub-main/src/pages/Dashboard.tsx:95 | The dashboard calls a user an administrator exactly when the staff page lets that user in |
| Patients.CalculateAge | nexus-medic-hub-main/src/pages/Patients.tsx:157-166 | The age is the number of birthdays reached: the age-th anniversary is on or before today and the next one is after it |
| Patients.AnniversaryMonotone | nexus-medic-hub-main/src/pages/Patients.tsx:157-166 | If a later anniversary has been reached, so has every earlier one |
| Patients.AgeIsUnique | nexus-medic-hub-main/src/pages/Patients.tsx:157-166 | Any number with the two birthday properties is the computed age |
| Patients.AgeNonNegative | nexus-medic-hub-main/src/pages/Patients.tsx:157-166 | A birth date not after today gives an age of at least 0 |
| Patients.MatchesSearch | nexus-medic-hub-main/src/pages/Patients.tsx:193-196 | Search on "first last" and email ignoring case, phone as typed; an empty search matches every patient |
| Patients.MatchesStatus | nexus-medic-hub-main/src/pages/Patients.tsx:198 | "all", or exactly the patient's current status |
| Patients.EmptySearchShowsAll | nexus-medic-hub-main/src/pages/Patients.tsx:192-201 | An empty search with the "all" filter hides no patient |
| Patients.FilteredPatients | nexus-medic-hub-main/src/pages/Patients.tsx:192-201 | A patient is shown exactly when it matches the search (name or email ignoring case, phone as typed) and the status filter, as often as it is listed. Patients stay in list order, and an empty search with "all" shows the whole list |
| Patients.SearchIgnoresCaseWithoutPhone | nexus-medic-hub-main/src/pages/Patients.tsx:193-196 | For a patient without a phone, the case of the search term makes no difference |
| Patients.MissingFields | nexus-medic-hub-main/src/pages/Patients.tsx:205-217 | A label is listed exactly when its required field is empty, in the order First Name, Last Name, Date of Birth; nothing is listed exactly when all three are filled in |
| Patients.JoinLabels | nexus-medic-hub-main/src/pages/Patients.tsx:214 | `join(', ')`: no labels give "", one label gives itself, and more start with the first label followed by ", " |
| Patients.JoinSplit | nexus-medic-hub-main/src/pages/Patients.tsx:214 | Joining two non-empty runs of labels gives the first run's text, ", ", then the second's; with the one-label case this fixes the whole toast text, every label in order |
| Patients.NormaliseProvider | nexus-medic-hub-main/src/pages/Patients.tsx:232 | An empty provider is sent as none; any other value is sent as it is |
| Patients.DatePart | nexus-medic-hub-main/src/pages/Patients.tsx:483 | `split('T')[0]`: the longest prefix without a 'T'; the next character, if any, is the 'T' |
| Patients.FormFromPatient | nexus-medic-hub-main/src/pages/Patients.tsx:478-503 | The edit form keeps the names and the date part of the birth date. Each optional text field is the patient's value or "", and the contact and address are the patient's or blank. The status is the patient's non-empty status, "stable" when it is missing or empty. The provider is kept unless it is empty, which becomes none |
| Patients.PatientsPage.constructor | nexus-medic-hub-main/src/pages/Patients.tsx:132-155 | The page starts with the blank form (status "stable"), nothing selected and both dialogs closed |
| Patients.PatientsPage.OpenEdit | nexus-medic-hub-main/src/pages/Patients.tsx:478-503 | Editing selects the patient, fills the form from it and opens the edit dialog |
| Patients.PatientsPage.CreatePatient | nexus-medic-hub-main/src/pages/Patients.tsx:203-280 | It reports the missing fields, naming them in a "Please fill in" toast, or "Please enter a valid date of birth" when the date does not read. The request is sent exactly when neither applies, as the form with the provider normalised and the admission date. Success resets the form and closes the dialog with no error toast. A failure leaves them and shows the server's `error` text or the thrown message |
| Patients.PatientsPage.UpdatePatient | nexus-medic-hub-main/src/pages/Patients.tsx:282-355 | With nothing selected it does nothing. Otherwise it has the same checks and toasts as a create and sends the form to the selected patient's id. Success resets the form, clears the selection and closes the dialog; a failure shows the server's `error` text or the thrown message |
| Folders.FindPatient | nexus-medic-hub-main/src/pages/Folders.tsx:118 | The first patient with the id: it is listed at a position before which no patient has that id, and none is found exactly when no patient has it |
| Folders.FolderMatches | nexus-medic-hub-main/src/pages/Folders.tsx:117-127 | A folder matches only when its patient is listed; with an empty search it matches exactly then |
| Folders.FilteredFolders | nexus-medic-hub-main/src/pages/Folders.tsx:117-127 | A folder is shown exactly when its patient is listed and the patient's names or the patient id contain the search, ignoring case, as often as it is listed. Folders stay in list order, and an empty search shows exactly the folders whose patient is listed |
| Folders.StatusColor | nexus-medic-hub-main/src/pages/Folders.tsx:137-144 | Green exactly for "active", grey exactly for "inactive", yellow exactly for "archived", blue for every other status |
| Folders.FoldersPage.constructor | nexus-medic-hub-main/src/pages/Folders.tsx:30-37 | The page starts with no folders, no patient chosen, status "active", no error and not loading |
| Folders.FoldersPage.CreateFolder | nexus-medic-hub-main/src/pages/Folders.tsx:76-115 | No patient chosen, or no signed-in id, sets the matching error and sends nothing. Otherwise the patient, the user's id and the status are sent. Success appends the returned folder and resets the dialog; a refusal shows the server's error or "Failed to create folder", a failed call "Error creating folder" |
| FolderView.DisplayValue | nexus-medic-hub-main/src/pages/FolderView.tsx:125-128 | A missing or empty value shows the fallback; any other value shows itself |
| FolderView.Toggle | nexus-medic-hub-main/src/pages/FolderView.tsx:468-473 | Clicking the open item closes it; clicking any other opens that one instead |
| FolderView.ToggleTwice | nexus-medic-hub-main/src/pages/FolderView.tsx:290-295 | Two clicks on the same item restore the state when that item was open or nothing was |
| FolderView.AfterFetch | nexus-medic-hub-main/src/pages/FolderView.tsx:84-98 | A cached id is never fetched again. Otherwise a success caches the reply's list (empty when it has none), a failed call caches [], and a refusal caches nothing, so the next opening retries. Loading ends off for that id, and other ids are untouched |
| FolderView.CachedFetchIsStable | nexus-medic-hub-main/src/pages/FolderView.tsx:84-114 | Once an id is cached, later fetches of it change nothing |
| FolderView.DiagnosesAfter | nexus-medic-hub-main/src/pages/FolderView.tsx:68-82 | The diagnoses are the reply's data on success and empty in every other case |
| FolderView.FolderViewPage.constructor | nexus-medic-hub-main/src/pages/FolderView.tsx:14-33 | The page starts loading with empty lists, nothing open and empty caches |
| FolderView.FolderViewPage.LoadFolder | nexus-medic-hub-main/src/pages/FolderView.tsx:42-66 | Diagnoses are fetched exactly when the call succeeded and the folder's patient has an id. Success replaces the folder, patient and lists; a refusal or failed call sets its error and keeps them. Loading ends off and the caches are untouched |
| FolderView.FolderViewPage.FetchActivities | nexus-medic-hub-main/src/pages/FolderView.tsx:84-98 | The activity cache afterwards is `AfterFetch` of the one before; every other field of the page is unchanged |
| FolderView.FolderViewPage.FetchTestResults | nexus-medic-hub-main/src/pages/FolderView.tsx:100-114 | The result cache afterwards is `AfterFetch` of the one before; every other field of the page is unchanged |
| FolderView.FolderViewPage.ClickPlan | nexus-medic-hub-main/src/pages/FolderView.tsx:468-473 | The open plan toggles; only opening fetches, and only through the cache; every other field of the page is unchanged |
| FolderView.FolderViewPage.ClickTest | nexus-medic-hub-main/src/pages/FolderView.tsx:290-295 | The open test toggles; only opening fetches, and only through the cache; every other field of the page is unchanged |
| FolderView.FolderViewPage.ClickDiagnosis | nexus-medic-hub-main/src/pages/FolderView.tsx:418-420 | The open diagnosis toggles; every other field of the page is unchanged |
| ManageStaff.IsAdmin | nexus-medic-hub-main/src/pages/ManageStaff.tsx:165-177 | The page is shown exactly to a signed-in user whose role is "admin"; `Dashboard.AdminBadgeMatchesStaffGate` ties it to the dashboard badge |
| ManageStaff.NotMe | nexus-medic-hub-main/src/pages/ManageStaff.tsx:181 | A member other than the signed-in user; with nobody signed in every member passes |
| ManageStaff.MatchesSearch | nexus-medic-hub-main/src/pages/ManageStaff.tsx:182-186 | Name, email or department contains the search ignoring case; an empty search matches every member |
| ManageStaff.EmptySearchKeepsAll | nexus-medic-hub-main/src/pages/ManageStaff.tsx:182-186 | An empty search keeps every member |
| ManageStaff.FilteredStaff | nexus-medic-hub-main/src/pages/ManageStaff.tsx:180-186 | A member is listed exactly when it is not the signed-in user and matches the search on name, email or department, ignoring case. The two filters equal one; the signed-in user is never listed; order is kept; an empty search lists every other member |
| ManageStaff.MenuAction | nexus-medic-hub-main/src/pages/ManageStaff.tsx:255-269 | The menu offers "deactivate" exactly for an active member |
| ManageStaff.StatusPayload | nexus-medic-hub-main/src/pages/ManageStaff.tsx:138-140 | `is_active` is true exactly for "activate" |
| ManageStaff.MenuActionFlipsStatus | nexus-medic-hub-main/src/pages/ManageStaff.tsx:255-269 | Confirming the action a member's menu offers always requests the opposite of the member's current status |
| ManageStaff.StaffPage.constructor | nexus-medic-hub-main/src/pages/ManageStaff.tsx:76-83 | The page starts with the blank form (role "staff"), nothing selected, action "deactivate" and both dialogs closed |
| ManageStaff.StaffPage.OpenStatusDialog | nexus-medic-hub-main/src/pages/ManageStaff.tsx:159-163 | The member and the action are remembered and the dialog opens |
| ManageStaff.StaffPage.AddStaff | nexus-medic-hub-main/src/pages/ManageStaff.tsx:107-130 | The form is sent as it stands. Success closes the dialog and resets the form; a failure keeps both and shows the server's error or "Failed to add staff member" |
| ManageStaff.StaffPage.ToggleStaffStatus | nexus-medic-hub-main/src/pages/ManageStaff.tsx:133-156 | Without a selected member nothing is sent. Otherwise the member's id is sent with the chosen status; success closes the dialog, and a failure shows the server's error or "Failed to <action> staff member" |
| Responses.FullName | nexus-medic-hub-main/src/pages/Responses.tsx:64 | Exactly the first name, one space, then the last name |
| Responses.BuildPatientMap | nexus-medic-hub-main/src/pages/Responses.tsx:62-66 | The loop's map equals `NameMap` of the list, and its keys are exactly the ids in the list |
| Responses.NameMapKeys | nexus-medic-hub-main/src/pages/Responses.tsx:62-66 | The map has exactly one key per id in the list |
| Responses.NameMapHoldsLast | nexus-medic-hub-main/src/pages/Responses.tsx:62-66 | Under each id the map holds the full name of the last patient with that id |
| Responses.PatientLabel | nexus-medic-hub-main/src/pages/Responses.tsx:147 | Never empty: the mapped name when it is non-empty, "Unknown Patient" when the id is not mapped |
| Responses.LabelFromList | nexus-medic-hub-main/src/pages/Responses.tsx:147 | A report whose patient is listed shows that patient's full name |
| Responses.UnknownWhenUnlisted | nexus-medic-hub-main/src/pages/Responses.tsx:147 | A report whose patient is not listed shows "Unknown Patient" |
| Responses.Pending | nexus-medic-hub-main/src/pages/Responses.tsx:145 | A report is listed exactly when its status is not "Responded" (a missing status is listed), as often as it appears, in list order |
| Responses.StatusLabel | nexus-medic-hub-main/src/pages/Responses.tsx:148 | The report's non-empty status, or "Not Responded" |
| Responses.PendingNeverShowsResponded | nexus-medic-hub-main/src/pages/Responses.tsx:145-148 | No listed report is labelled "Responded" |
| Responses.CanSubmit | nexus-medic-hub-main/src/pages/Responses.tsx:274 | "Create Diagnosis" is enabled only with no create in flight and a diagnosis name filled in |
| Responses.BlankFormCannotBeSubmitted | nexus-medic-hub-main/src/pages/Responses.tsx:274 | The blank form cannot be submitted; once no create is in flight, typing a name is exactly what enables the button |
| Responses.ResponsesPage.constructor | nexus-medic-hub-main/src/pages/Responses.tsx:15-30 | The page starts with no patients, an empty map, no open report and the blank diagnosis form |
| Responses.ResponsesPage.LoadPatients | nexus-medic-hub-main/src/pages/Responses.tsx:55-71 | On success the list is the reply's list (empty when it has none) and the map is built from it; otherwise both stay as they were |
| Responses.ResponsesPage.CloseReport | nexus-medic-hub-main/src/pages/Responses.tsx:162-166 | The report closes, the form hides and the error clears; the form's contents, the patient list, the name map and the loading flag are kept |
| Responses.ResponsesPage.CreateDiagnosis | nexus-medic-hub-main/src/pages/Responses.tsx:73-108 | The form is sent with the signed-in user's id and the report's id. Success resets and hides the form; a refusal shows the server's error or "Failed to create diagnosis", a failed call "Error creating diagnosis"; loading ends off |
| LabTests.CanOrderTests | nexus-medic-hub-main/src/pages/Test.tsx:30-33 | A signed-in "Lab Technician" or "admin" may order tests |
| LabTests.Redirect | nexus-medic-hub-main/src/pages/Test.tsx:30-33 | Only a signed-in "Lab Technician" or "admin" stays; everyone else is sent to "/dashboard" |
| LabTests.SetField | nexus-medic-hub-main/src/pages/Test.tsx:55-61 | The named field takes the value and every other field keeps its own |
| LabTests.InitialForm | nexus-medic-hub-main/src/pages/Test.tsx:18-26 | Ordered by the signed-in user's id ("" when nobody is signed in), status "pending", every other field empty |
| LabTests.ReadyToSubmit | nexus-medic-hub-main/src/pages/Test.tsx:65-68 | The pre-submit check; `LabTests.ReadyMeansRequiredFilled` states it as "every required field is filled in" |
| LabTests.ReadyMeansRequiredFilled | nexus-medic-hub-main/src/pages/Test.tsx:65-68 | The submit check holds exactly when patient, test type, test name and ordered date are all filled in |
| LabTests.AfterCreate | nexus-medic-hub-main/src/pages/Test.tsx:79 | After a create the patient and the orderer stay, the test's own fields are cleared and the status is "pending" again |
| LabTests.NextTestNeedsOnlyTestFields | nexus-medic-hub-main/src/pages/Test.tsx:79 | After a create, filling in only the test's own fields makes the form ready again |
| LabTests.TestPage.constructor | nexus-medic-hub-main/src/pages/Test.tsx:18-26 | The page starts with the initial form for the user, not loading |
| LabTests.TestPage.HandleChange | nexus-medic-hub-main/src/pages/Test.tsx:55-61 | The form afterwards is `SetField` of the form before |
| LabTests.TestPage.HandleSubmit | nexus-medic-hub-main/src/pages/Test.tsx:63-89 | An incomplete form is not sent and reports "Please fill all required fields". A complete one is sent as it stands; success resets it with `AfterCreate`, and a failure keeps it and shows the server's error or "Failed to create test" |

## Left out

- The two Python programs (`nexus-device/*.py` and `pyttsx.py`) are not part of this model. They run on a separate device, not in the dashboard.
- Transport.Api.Send: request bodies (credentials, refresh token, form payloads), the base URL, the 15-second timeout and the console logging are not recorded. A call is identified by its path and Authorization header. A timeout is the same as an exhausted reply script.
- Transport.Api.Send: the `_retry` mark is modelled by structure, since a replay is never retried. Concurrent requests that each start a refresh are not modelled, because calls are taken one at a time.
- Transport.Wipe: `window.location.href = '/login'` reloads the application. The model records it as a flag and does not restart the session manager.
- Session.ParseUser: stored user text is either a user's JSON or unreadable. Text that is valid JSON but not a user (`null`, `{}`, `42`) is not modelled. The code would set such a value as the user and go on to the probe; the model clears the session as it does for unreadable text.
- Session: answers are taken to be well formed, so a success always carries a user and tokens.
- Transport.TokenAt: only a text item under a token key counts as a token. A user's JSON stored under a token key would be sent as a bearer token by the code; the model treats it as no token. No modelled operation stores one there.
- Session.AuthProvider.InitializeAuth: the React effect and re-render cycle is left out. A state update is visible at once.
- Patients.CalculateAge and Patients.PatientsPage.CreatePatient: parsing date text is not modelled. The date is given as year, month and day, and `new Date()` is a parameter. Whether the date of birth reads as a date is the `dateParses` parameter, and February 29 is not special-cased.
- Common.Lower: lower-cases ASCII letters only; JavaScript's full Unicode case mapping is not modelled.
- Success toasts, `alert`, console output and rendering are not modelled. A handler returns or stores the error text it would show. The message of a thrown client error (axios's own text) is a parameter where a page shows it.
- Lists are fetched on mount and again after a save. Those fetches are not modelled except for Responses' `fetchPatients`, because they only replace a list with the server's reply.
- Patients: deleting a patient and the details dialog are not modelled. Deleting only calls the server and refetches the list.
- Dashboard: the charts, the recent-patient list and `toLocaleString` formatting are not modelled.
- Dashboard.Normalise: missing counts become 0. The JavaScript falsy values `NaN` and `0` are not distinguished from other numbers, because numbers are integers here.
