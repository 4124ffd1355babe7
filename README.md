# rd-ots overtime/undertime approvals, modelled in Dafny

This project models the decision logic of rd-ots, a web application where
employees file overtime and undertime requests and approvers (HR, project
coordinators, direct supervisors) approve or reject them. The backend is an
Express service over a PostgreSQL or Supabase table, an ERPNext directory
reached through n8n webhooks, Google sign-in and a daily reminder job; the
frontend is a React client with a zustand store.

The model keeps what those parts decide and drops how they talk:

- the request table and the settings table are the fields of one object,
  and the adapter's queries are modelled as the WHERE terms they build and
  what those terms select;
- every remote lookup (ERPNext, n8n, Google, the CET access service, the
  `/auth/me` endpoint) is a parameter: a value, or a function from the
  query to its answer, with failures as `Err` or `None`;
- handlers return a `Handled` value (a 2xx body, a refusal with its status,
  or an error passed to `next`) instead of writing to a response;
- client components are classes whose fields are their state hooks, with
  one method per handler or effect;
- JavaScript truthiness is explicit: a nullable string is `Option<string>`
  and `Truthy` treats `null`, `undefined` and `''` as false; JSON values are
  a datatype with exact rational numbers.

One module per source file, plus `Common` (options, results, string and
list helpers), `Http` (JSON values and the request object) and `Requests`
(the request row and its status predicates, shared by the backend and the
frontend).

## Model

| member | source | states |
|---|---|---|
| Common.Split | backend/src/services/oauthService.js:61 | `s.split(sep)`: at least one piece, and no piece holds the separator |
| Common.SplitAt | backend/src/services/oauthService.js:61 | text without the separator is one piece, and a separator splits off exactly the text before it |
| Common.Join | backend/src/services/n8nService.js:424 | `parts.join(sep)`: no parts give the empty text; the first part opens the result and the separator follows it when more parts come |
| Common.JoinSplit | frontend/src/components/UserProfileButton.tsx:39-41 | joining the pieces of a split gives the text back, for any text and separator |
| Common.SplitJoin | backend/src/services/n8nService.js:424 | pieces without the separator survive the join: splitting the joined text gives back the list (the comma-joined `to` field, the newline-joined salary notes) |
| Common.Trim | frontend/src/pages/AdminDashboard.tsx:65 | `s.trim()` is empty exactly when every character of `s` is white space |
| Common.TrimIsStretch | frontend/src/pages/AdminDashboard.tsx:65 | the trimmed text is the stretch of `s` between its leading and its trailing white space, and neither starts nor ends with white space |
| Requests.BadgeMatchesFilters | frontend/src/pages/MyRequests.tsx:95-112 | the badge reads Rejected exactly when `reject_reason` is truthy, Approved exactly when `approved_by` is truthy and the reason is not, and Pending otherwise, so it agrees with the page's three filters |
| Requests.Badge | frontend/src/pages/MyRequests.tsx:95-112 | a truthy reject reason gives Rejected whatever the approver; Approved exactly when the reason is falsy and the approver truthy; Pending exactly when both are falsy |
| Requests.SqlAgreesWithJs | backend/src/config/database.js:63-71 | on rows where a rejection always names an approver and no text column is empty, the SQL `IS NULL` filters select the same rows as the JavaScript truthiness filters, and the three SQL states partition the rows |
| Requests.EmptyApproverDisagrees | backend/src/config/database.js:64-67 | an empty-string `approved_by` is pending to the frontend but approved to SQL |
| Database.StatusConds | backend/src/config/database.js:63-71 | the status terms use no placeholder and select exactly the rows of the requested status; an unknown status word adds no term |
| Database.MatchesFilters | backend/src/config/database.js:57-91 | no filters select every row, and a truthy employee filter selects only that employee's rows |
| Database.BuildRequestQuery | backend/src/config/database.js:57-91 | the PostgreSQL builder numbers its placeholders `$1..$n` in order with one parameter each, and the WHERE clause selects exactly the rows matching the filters |
| Database.BuildSupabaseQuery | backend/src/config/database.js:93-121 | the Supabase builder uses no placeholders and selects exactly the same rows as the PostgreSQL one |
| Database.CountStatistics | backend/src/config/database.js:192-198 | each of the pending, approved and rejected counts is at most the total |
| Database.StatisticsPartition | backend/src/config/database.js:192-198 | on resolved rows without empty strings, pending + approved + rejected equals the total |
| Database.UnresolvedDoubleCounts | backend/src/config/database.js:194-196 | a rejected row with no approver is counted both as pending and as rejected |
| Database.ApplyUpdates | backend/src/config/database.js:247-266 | an update changes only the listed columns and keeps every other column of the row |
| Database.BuildUpdate | backend/src/config/database.js:249-255 | each listed column `i` is bound to `$i+2`, the parameters are the id followed by the values in key order |
| Database.RequestTable.GetAllRequests | backend/src/config/database.js:57-122 | the rows matching the filters, newest first, on either backend |
| Database.RequestTable.GetRequestById | backend/src/config/database.js:126-141 | the row with that id when there is one; otherwise `Request not found` on PostgreSQL and the no-single-row error on Supabase |
| Database.RequestTable.GetRequestsByEmployee | backend/src/config/database.js:145-160 | exactly that employee's rows, newest first |
| Database.RequestTable.GetPendingRequests | backend/src/config/database.js:164-178 | exactly the rows with no approver, oldest first |
| Database.RequestTable.GetStatistics | backend/src/config/database.js:182-215 | the counts over all rows, or over one employee's rows when an employee id is given |
| Database.RequestTable.CheckDuplicate | backend/src/config/database.js:271-287 | exactly the rows whose employee id and payroll date both match |
| Database.RequestTable.InsertRequest | backend/src/config/database.js:218-244 | appends one unresolved row; PostgreSQL drops `employee_name`; the resolution invariant is kept |
| Database.RequestTable.UpdateRequest | backend/src/config/database.js:247-268 | the row with the id is replaced by its updated copy and returned; with no such row nothing changes and PostgreSQL returns undefined while Supabase raises |
| Database.RequestTable.ApproveRequest | backend/src/config/database.js:290-297 | sets the approver and the time and clears the rejection reason, so the row is approved; the resolution invariant is kept |
| Database.RequestTable.RejectRequest | backend/src/config/database.js:300-306 | sets both the approver (the rejecter) and the reason, so the row is rejected and no longer pending; the resolution invariant is kept |
| Database.RequestTable.GetSetting | backend/src/config/database.js:309-325 | the row for the key, or null when there is none |
| Database.RequestTable.GetAllSettings | backend/src/config/database.js:328-340 | every setting once, sorted by key |
| Database.RequestTable.UpsertSetting | backend/src/config/database.js:343-362 | the key now maps to the new value; PostgreSQL keeps the old description when none is given, Supabase overwrites it |
| Database.RequestTable.DeleteSetting | backend/src/config/database.js:365-376 | removes the key and nothing else |
| RequestService.ToAppError | backend/src/services/requestService.js:13-31 | only a fetch-by-id failure whose message is `Request not found` becomes a 404 with that message; every other failure is a 500 with the operation's fixed message |
| RequestService.Call | backend/src/services/requestService.js:9-120 | a service method returns the adapter's value unchanged, or fails with the mapped error |
| RequestService.NotFoundStatusByBackend | backend/src/services/requestService.js:26-31 | a missing request is a 404 on PostgreSQL but a 500 on Supabase, whose not-found error carries another message |
| RequestService.CheckDuplicate | backend/src/services/requestService.js:77-93 | `hasDuplicate` holds exactly when the adapter's list is non-empty, and the list is returned unchanged; a failure is a 500 |
| AuthMiddleware.ExtractToken | backend/src/middleware/auth.js:8 | a missing header gives no token |
| AuthMiddleware.BearerRoundTrip | backend/src/middleware/auth.js:8 | the token extracted from `Bearer <token>` is the token itself |
| AuthMiddleware.FindSession | backend/src/middleware/auth.js:35-38 | a found row is an active, unexpired session with the token, joined with an active user of its e-mail; no row means no such pair exists |
| AuthMiddleware.Accepts | backend/src/middleware/auth.js:35-38 | an accepted pair has the token and matching e-mails; an expired or inactive session, or an inactive user, is never accepted |
| AuthMiddleware.ToSessionUser | backend/src/middleware/auth.js:49-59 | `req.user` takes the e-mail of the session, and the id, role, ERP id and manager of the joined user |
| AuthMiddleware.FirstUser | backend/src/middleware/auth.js:34-38 | the first user the session joins with under the WHERE clause, or none when no user qualifies |
| AuthMiddleware.VerifySession | backend/src/middleware/auth.js:6-61 | 401 without a token and 401 without an accepted session, leaving `req.user` alone; otherwise `req.user` is set from the joined row and `next` is called |
| AuthMiddleware.SessionAcceptance | backend/src/middleware/auth.js:35-46 | a token is accepted exactly when some active, unexpired session with it belongs to an active user |
| AuthMiddleware.RequireRole | backend/src/middleware/auth.js:74-92 | 401 without a user, 403 when the role is not allowed, and `next` exactly when a user with an allowed role is present |
| AuthMiddleware.CanApprove | backend/src/middleware/auth.js:97-115 | `next` for every authenticated user whatever the role; only a missing user gets 401 |
| Validator.FailingFields | backend/src/middleware/validator.js:5-8 | every key whose rule fails is reported, none is skipped |
| Validator.Accepts | backend/src/middleware/validator.js:20-30 | a body is accepted exactly when it is an object and each of the seven schema fields passes its rule |
| Validator.StripUnknown | backend/src/middleware/validator.js:7 | the stripped object holds exactly the input's pairs whose key the schema names |
| Validator.Typed | backend/src/middleware/validator.js:21-29 | an accepted body has integer hours from 1 to 8, minutes in {0, 15, 30, 45}, a reason of 10 to 500 characters, a project of 3 to 200 and a type of Overtime or Undertime |
| Validator.HoursAsInt | backend/src/middleware/validator.js:25 | an accepted hours value is an integer from 1 to 8 |
| Validator.MinutesAsInt | backend/src/middleware/validator.js:26 | an accepted minutes value is one of 0, 15, 30, 45 |
| Validator.AcceptedFieldsValid | backend/src/middleware/validator.js:21-29 | an accepted body passes each of the seven rules, each of which requires its key |
| Validator.StripKeepsVerdict | backend/src/middleware/validator.js:5-8 | stripping keeps every schema key's value, so the stripped body gets the same verdict, and stripping twice changes nothing |
| Validator.Validate | backend/src/middleware/validator.js:3-17 | on success the body becomes the stripped value and `next()` is called; on failure the body is unchanged and the error, flagged `isJoi`, lists every failing key |
| Validator.FractionalHoursRefused | backend/src/middleware/validator.js:25 | a body with 1.5 hours is refused and the hours key is reported |
| RequestForm.WellFormedPassesZod | frontend/src/components/OvertimeRequestForm.tsx:28-42 | a typed body within the backend's rules meets the form's hours, minutes, type, reason and project rules |
| RequestForm.JoiFieldsPassZod | frontend/src/components/OvertimeRequestForm.tsx:28-42 | every hours, minutes, type, reason, project and e-mail value the backend schema accepts passes the form's schema too |
| RequestForm.FractionalHoursOnlyPassZod | frontend/src/components/OvertimeRequestForm.tsx:28-31 | 1.5 hours passes the form (no integer rule) but fails the backend's hours rule |
| RequestForm.SelectableDates | frontend/src/components/OvertimeRequestForm.tsx:250 | exactly the dates from 1900-01-01 up to now can be picked |
| RequestForm.FormState.constructor | frontend/src/components/OvertimeRequestForm.tsx:49-68 | the form starts with its default values, the dialog closed and nothing staged or submitted |
| RequestForm.FormState.OnSubmit | frontend/src/components/OvertimeRequestForm.tsx:73-82 | clears the messages, stages the values, drops any duplicate data and opens the dialog; nothing is submitted |
| RequestForm.FormState.HandleConfirm | frontend/src/components/OvertimeRequestForm.tsx:84-109 | closes the dialog; with nothing staged it stops; otherwise it submits the staged values once, and on success shows the notice, resets the form and clears the staged and duplicate data, while a failure keeps them |
| RequestForm.FormState.HandleCancel | frontend/src/components/OvertimeRequestForm.tsx:111-115 | closes the dialog and drops the staged and duplicate data without submitting |
| RequestForm.SubmitThenCancel | frontend/src/components/OvertimeRequestForm.tsx:73-115 | staging and then cancelling submits nothing and leaves nothing staged |
| RequestForm.SubmitThenConfirm | frontend/src/components/OvertimeRequestForm.tsx:73-100 | staging and then confirming submits exactly the staged values once, and a success leaves nothing staged |
| OAuthService.DomainPart | backend/src/services/oauthService.js:61 | an address without '@' has no domain part (`undefined`) |
| OAuthService.CheckDomainAccess | backend/src/services/oauthService.js:60-63 | an accepted address has an '@' and the text after the first one is exactly an allowed domain |
| OAuthService.PlainAddress | backend/src/services/oauthService.js:60-63 | an address with one '@' is accepted exactly when its domain is `rooche.digital` or `rooche.net` |
| OAuthService.NoAtRefused | backend/src/services/oauthService.js:61-62 | an address without '@' is refused |
| OAuthService.TwoAtsJudgedBetween | backend/src/services/oauthService.js:61 | with two '@' only the text between them is judged |
| OAuthService.SubdomainAndCaseRefused | backend/src/services/oauthService.js:12 | a subdomain and an upper-case domain are refused |
| OAuthService.Hex | backend/src/services/oauthService.js:69 | two lower-case hex digits per byte |
| OAuthService.HexRoundTrip | backend/src/services/oauthService.js:69 | decoding the hex text gives the bytes back |
| OAuthService.GenerateSessionToken | backend/src/services/oauthService.js:68-70 | a token is 64 lower-case hex digits that decode to the 32 random bytes |
| ErpNextService.Normalise | backend/src/services/erpnextService.js:38-45 | the document name becomes the employee id, the designation defaults to `Employee`, `reports_to` to null, and the other fields are copied |
| ErpNextService.GetEmployeeByEmail | backend/src/services/erpnextService.js:36-54 | the first document, normalised, when the response has one; null when it has none or the request failed |
| ErpNextService.GetDirectReports | backend/src/services/erpnextService.js:76-88 | one entry per document in order with id, name and e-mail; [] on a failure or a response without data |
| ErpNextService.EmployeeIds | backend/src/controllers/requestController.js:248 | the ids of the direct reports, in order |
| ErpNextService.DirectReportIdsAreDocNames | backend/src/services/erpnextService.js:77-81 | an id is a direct report's exactly when some returned document has that name |
| ErpNextService.OwnerDesignationSpec | backend/src/services/erpnextService.js:107-110 | the owner test holds exactly when the designation is present and contains Owner, CEO, Managing Director or President |
| ErpNextService.IsCompanyOwner | backend/src/services/erpnextService.js:94-118 | true exactly when the request succeeded with a document whose designation passes the owner test; false on a failure or a missing document |
| ErpNextService.OwnerTestIsCaseSensitive | backend/src/services/erpnextService.js:108-109 | a lower-case `ceo` is not an owner |
| ErpNextService.CeoInDesignationIsOwner | backend/src/services/erpnextService.js:108-109 | a designation that contains `CEO` inside a longer title is an owner |
| AuthController.DetermineRole | backend/src/controllers/authController.js:61-78 | the role is always one of the four; no ERP record gives Employee; Owner exactly when the ERP calls the employee the company owner; HR exactly when a non-owner's lower-cased designation contains "hr"; Project Coordinator only for one containing "coordinator" or "manager" |
| AuthController.RoleFromDesignation | backend/src/controllers/authController.js:71-77 | a non-owner's role is decided by the lower-cased designation alone, in the order hr, then coordinator or manager, then Employee |
| AuthController.HrManagerIsHr | backend/src/controllers/authController.js:71-72 | an "HR Manager" becomes HR, not Project Coordinator |
| AuthController.ProjectManagerIsCoordinator | backend/src/controllers/authController.js:73-76 | a "Project Manager" becomes Project Coordinator |
| AuthController.CheckCetAccessAsWritten | backend/src/controllers/authController.js:42 | the access check as called always fails, since the OAuth service has no such method |
| AuthController.CheckCetAccessCorrected | backend/src/controllers/authController.js:42-46 | the intended access check never fails and answers the access service's boolean |
| AuthController.CallbackGate | backend/src/controllers/authController.js:25-46 | the guards in order: no code gives no_code; a bad domain gives unauthorized_domain; a refused user gives access_denied; a failed Google exchange or access check gives auth_failed (the catch at 138-141); the callback proceeds, with the Google user, exactly when all of them pass |
| AuthController.AsWrittenEveryLoginFails | backend/src/controllers/authController.js:42 | with the call as written, every callback with a code and an allowed domain ends in auth_failed |
| AuthController.CorrectedAdmitsGrantedUsers | backend/src/controllers/authController.js:42-46 | with the intended call, a user with a code and an allowed domain proceeds exactly when the access service admits them, and is otherwise sent access_denied |
| AuthController.OrNull | backend/src/controllers/authController.js:100-102 | `x \|\| null`: a value exactly when the text is non-empty, and then that text |
| AuthController.UpdateLogin | backend/src/controllers/authController.js:107-118 | only the rows with the e-mail change, and in them only the picture and the last login |
| AuthController.LoginKeepsRoles | backend/src/controllers/authController.js:107-118 | a returning user's role, ERP id, e-mail and active flag are not recomputed |
| AuthController.Deactivate | backend/src/controllers/authController.js:169-174 | exactly the sessions holding the token become inactive; the rest are untouched |
| AuthController.LoggedOutTokenRefused | backend/src/controllers/authController.js:165-179 | after logout the token finds no session, whatever the users and the clock |
| AuthController.AuthStore.constructor | backend/src/controllers/authController.js:25 | the tables start as given |
| AuthController.AuthStore.GoogleCallback | backend/src/controllers/authController.js:25-141 | a stopped gate redirects with its error and writes nothing; otherwise one active session with a fresh 64-hex token is appended, a first login inserts one row with the determined role, a returning login only updates the picture and last login, and `new_user` is set exactly for a first login (131-135) |
| AuthController.AuthStore.Logout | backend/src/controllers/authController.js:165-179 | reports success; deactivates the sessions holding the stripped bearer token when it is non-empty, and changes nothing else |
| AuthController.LogoutThenVerify | backend/src/controllers/authController.js:165-179 | a session token used to log out is afterwards refused by the session check with 401 |
| N8nService.StatusOr500 | backend/src/services/n8nService.js:92 | the response's status when there is one, else 500 |
| N8nService.Rethrow | backend/src/services/n8nService.js:84-94 | the shared catch: the response body's non-empty message, else the call's own fallback text, with the response status or 500 |
| N8nService.StripTrailingSlash | backend/src/services/n8nService.js:29 | a final '/' is dropped and any other text is kept as it is |
| N8nService.StripsOneSlash | backend/src/services/n8nService.js:29 | exactly one slash goes, even when the text before it ends in a slash |
| N8nService.Client.constructor | backend/src/services/n8nService.js:6-9 | the client starts uninitialised with no base URL |
| N8nService.Client.EnsureInitialized | backend/src/services/n8nService.js:16-39 | a second call changes nothing; a missing or empty `N8N_BASE_URL` throws "N8N_BASE_URL must be configured" and leaves the client uninitialised; otherwise the base URL, stripped of one trailing slash, is kept |
| N8nService.InitialiseTwice | backend/src/services/n8nService.js:16-19 | once initialised, a changed environment does not change the base URL |
| N8nService.ChooseWebhook | backend/src/services/n8nService.js:146-170 | the unified service exactly when the flag is the text `true`, with the `validate_employee` operation; the dedicated webhook otherwise; a missing chosen path is an error naming its variable |
| N8nService.JsonOr | backend/src/services/n8nService.js:187-191 | `a \|\| b`: a when it is truthy, else b |
| N8nService.EmployeeRecord | backend/src/services/n8nService.js:181-183 | the first element of a non-empty array, otherwise the body itself |
| N8nService.Normalise | backend/src/services/n8nService.js:186-192 | fails exactly on a null record; otherwise the id is `employee` or else `frappe_employee_id`, the name, manager and designation are copied, and the e-mail falls back to the one asked about |
| N8nService.CompanyEmailFallback | backend/src/services/n8nService.js:191 | the normalised e-mail is never empty |
| N8nService.ValidateError | backend/src/services/n8nService.js:217-253 | a refused connection gives 503, a time-out 504, a 404 response 404, a 401 or 403 that status, and anything else the response status or 500 |
| N8nService.ValidateEmployee | backend/src/services/n8nService.js:139-255 | a missing webhook path ends in the generic 500; otherwise the chosen webhook's failure is mapped as above, and its body is normalised, a null record ending in the generic 500 |
| N8nService.SalaryComponent | backend/src/services/n8nService.js:346 | Overtime exactly for hours of zero or more, Undertime exactly for negative hours |
| N8nService.Abs | backend/src/services/n8nService.js:347 | the magnitude of the hours |
| N8nService.NullText | backend/src/services/n8nService.js:337 | a template literal writes a missing value as `null` and a present one as itself |
| N8nService.AdditionalSalaryPayload | backend/src/services/n8nService.js:325-349 | the employee and payroll date pass through, and when no value holds a line break the notes read back as the four lines Reason, Projects, Approved by (`null` without an approver) and Requested on |
| N8nService.NotesReadBack | backend/src/services/n8nService.js:335-338 | the four note lines, joined with line breaks, split back into the same four lines when no value holds a line break |
| N8nService.SalaryPayloadRoundTrip | backend/src/services/n8nService.js:346-347 | for every payload, the component and the magnitude together give back the signed hours |
| N8nService.CheckDuplicateSalary | backend/src/services/n8nService.js:394-408 | a duplicate exactly when the returned array is non-empty, returned as the existing records; no data or a failed call gives no duplicate and an empty list |
| N8nService.SendNotification | backend/src/services/n8nService.js:415-442 | the webhook's answer to the comma-joined recipients, or `{success: false, error}` when the call fails; it never throws |
| N8nService.CompanyEmails | backend/src/services/n8nService.js:462-465 | an address is kept exactly when some entry carries it as a non-empty e-mail, and there are never more addresses than entries |
| N8nService.CompanyEmailsAppend | backend/src/services/n8nService.js:462-465 | the entries' order is kept: the addresses of a concatenation are concatenated |
| N8nService.StaffEmails | backend/src/services/n8nService.js:448-480 | the addresses of the entries under `data.data`, none when it is missing, or the rethrown failure (also 487-524) |
| EmailTemplates.TypeOrOvertime | backend/src/templates/emailTemplates.js:127 | `requestType \|\| 'Overtime'` is never empty |
| EmailTemplates.RequestSubmitted | backend/src/templates/emailTemplates.js:9-56 | throws the `toLowerCase` TypeError exactly when the type is missing (25); otherwise the confirmation subject naming the type, "Hey" and the name or "there", and the hours and minutes |
| EmailTemplates.AdminNotification | backend/src/templates/emailTemplates.js:61-118 | throws the same TypeError exactly when the type is missing (76); otherwise a subject naming the type and the employee, with the hours and minutes |
| EmailTemplates.RequestApproved | backend/src/templates/emailTemplates.js:123-168 | the approval subject names the type or Overtime; the figures are the size of the hours and the minutes or 0 |
| EmailTemplates.RequestRejected | backend/src/templates/emailTemplates.js:173-223 | the rejection subject names the type or Overtime; the same figures |
| EmailTemplates.EmployeeNotFound | backend/src/templates/emailTemplates.js:228-267 | the fixed "Your Account is Not Recognized" subject and "Hi there," greeting, showing the address |
| EmailTemplates.TestEmail | backend/src/templates/emailTemplates.js:272-319 | the fixed test subject, showing the given timestamp when truthy and the current time otherwise (298) |
| EmailTemplates.GetEmailTemplate | backend/src/templates/emailTemplates.js:324-340 | a template exactly for the six registered names, except that the submitted and admin templates throw the `toLowerCase` TypeError without a request type; any other name is the error "Email template '…' not found" |
| EmailTemplates.SubjectLead | backend/src/templates/emailTemplates.js:324-340 | every subject a registered template produces opens with a character fixed by the template's name |
| EmailTemplates.SubjectsDistinct | backend/src/templates/emailTemplates.js:324-340 | two different registered names never produce the same subject for the same data, so a recipient can tell the e-mails apart |
| EmailTemplates.DecisionSubjects | backend/src/templates/emailTemplates.js:127-177 | without a truthy type the approval and rejection subjects are exactly those of an Overtime request; with one they name that type |
| EmailTemplates.DecisionHoursUnsigned | backend/src/templates/emailTemplates.js:147-197 | the decision e-mails show the size of the hours, not their sign, followed by the minutes |
| EmailTemplates.MinutesDefault | backend/src/templates/emailTemplates.js:147 | the minutes read 0 exactly when they are absent or zero |
| EmailTemplates.GreetingFallbacks | backend/src/templates/emailTemplates.js:24-188 | without a name the greetings are "Hey there," (when the submission e-mail is built), "Hi there," and "Good news!" (lines 24, 188 and 138) |
| NotificationRouting.ApproversByDesignation | backend/src/services/notificationRoutingService.js:109-125 | the lookup's addresses, or none when it throws |
| NotificationRouting.HrStaff | backend/src/services/notificationRoutingService.js:90-101 | the lookup's addresses, or none when it throws |
| NotificationRouting.Approvers | backend/src/services/notificationRoutingService.js:17-83 | the approvers of an employee never repeat an address; each is the manager's looked-up address or a coordinator or lead coordinator from the designation lookups; an employee who is neither a coordinator nor in lead generation gets at most one |
| NotificationRouting.GetApprovers | backend/src/services/notificationRoutingService.js:17-83 | computes exactly `Approvers`; reporting to HR-EMP-00001 gives that manager's address alone, whatever the designation (28-34); otherwise a Project Coordinator gets all coordinators, Lead Generation the lead coordinators, and anyone else their supervisor's address when it is found (38-68); a failed supervisor lookup gives none (76-82) |
| NotificationRouting.SingleDedup | backend/src/services/notificationRoutingService.js:68 | a list of at most one address is unchanged by the de-duplication |
| NotificationRouting.GetAllRecipients | backend/src/services/notificationRoutingService.js:134-161 | the approvers are exactly `Approvers` of the employee; the recipients are the HR staff and those approvers, each address once, HR staff first, and nothing else |
| NotificationRouting.SpecialManagerIgnoresDesignation | backend/src/services/notificationRoutingService.js:28-34 | two employees reporting to HR-EMP-00001 get the same list of at most one address, whatever their designations |
| RequestController.TextField | backend/src/controllers/requestController.js:89 | a JSON field reads as text exactly when it is present and a string, and then as that string |
| RequestController.IdText | backend/src/controllers/requestController.js:78 | the employee id as stored: the text of the field when it is a string, and the empty text otherwise |
| RequestController.CanUserApproveRequest | backend/src/controllers/requestController.js:14-35 | never one's own request nor a decided one; otherwise exactly a direct report's request, or for HR one of the owner's direct reports |
| RequestController.OwnerListOnlyForHr | backend/src/controllers/requestController.js:31 | only HR reads the owner's list; the Owner role gets no bypass beyond its own direct reports |
| RequestController.ApprovableIsPending | backend/src/controllers/requestController.js:14-35 | an approvable request is pending on every page and comes from one of the two lists |
| RequestController.Annotate | backend/src/controllers/requestController.js:255-268 | every request of the listing, in order, with its approval flag |
| RequestController.RequestsOf | backend/src/controllers/requestController.js:255-268 | the annotated listing's requests, in order |
| RequestController.GetAllRequests | backend/src/controllers/requestController.js:206-281 | Owner, HR and Project Coordinator see every fetched request; anyone else, in the same order, only their own and their direct reports'; each item carries its approval flag, computed with the owner's reports for HR only; the count is the data's length |
| RequestController.ListingIsVisible | backend/src/controllers/requestController.js:250-264 | a non-staff caller receives only stored requests matching the filters that are theirs or a direct report's |
| RequestController.GetRequestById | backend/src/controllers/requestController.js:287-322 | a missing id is the not-found error; staff see any request; anyone else their own or a direct report's, and a 403 otherwise |
| RequestController.GetRequestsByEmployee | backend/src/controllers/requestController.js:328-354 | non-staff asking for another ERP id get a 403; otherwise exactly that employee's requests, newest first, with their count |
| RequestController.GetPendingRequests | backend/src/controllers/requestController.js:359-393 | Owner and HR see every pending request; a Project Coordinator or anyone with an ERP id only their direct reports' pending ones; anyone else none; only stored pending requests are ever returned, with the caller's role |
| RequestController.GetStatistics | backend/src/controllers/requestController.js:398-411 | the counts over all requests, or over one employee's with a non-empty id; on resolved rows the three states add up to the total |
| RequestController.CheckDuplicate | backend/src/controllers/requestController.js:438-469 | both parameters are required (400); a failed lookup is forwarded; an employee without an id is a 400; otherwise the duplicates are exactly that employee's stored requests for the date, and `hasDuplicate` says whether there are any |
| RequestController.DecisionSubject | backend/src/controllers/requestController.js:525 | Overtime for hours of zero or more, Undertime for negative hours, with the verb |
| RequestController.NotifyEmployee | backend/src/controllers/requestController.js:546-571 | a mail exactly when the requester's company e-mail is found and non-empty, to that one address with the given subject |
| RequestController.MayDecide | backend/src/controllers/requestController.js:486-505 | Owner and HR may always decide; any other role exactly when the request's author is among the caller's direct reports |
| RequestController.GateIgnoresApprovalFlag | backend/src/controllers/requestController.js:486-505 | the decision gate does not consult the approval flag: the Owner may decide their own request |
| RequestController.ApproveMessage | backend/src/controllers/requestController.js:579-582 | says the Additional Salary was created, or quotes the ERP error and asks for manual creation |
| RequestController.ApproveRequest | backend/src/controllers/requestController.js:474-593 | a missing id is the not-found error and a caller who is neither Owner nor HR nor the supervisor gets a 403, both before any write; otherwise the row gets the approver and time with the reason cleared, the Additional Salary is requested with the corrected payload, the reply carries the request as read, the salary failure's warning and message, and the requester is mailed |
| RequestController.ApproveFound | backend/src/controllers/requestController.js:486-593 | for a row that exists: a caller who is neither Owner nor HR nor the author's supervisor gets a 403 with no write; otherwise the row is approved, the Additional Salary is requested with the corrected payload naming the approver, its outcome shapes the message and warning, and the requester is mailed |
| RequestController.SalaryPayloadOf | backend/src/controllers/requestController.js:512 | the payload built from a request row carries its employee and payroll date |
| RequestController.AsWrittenNotesNameNoApprover | backend/src/controllers/requestController.js:512 | the salary notes built from the row as read before the update, which is pending, say "Approved by: null" |
| RequestController.CorrectedSalaryPayload | backend/src/controllers/requestController.js:507-512 | the payload built from the updated row names the approver in the notes' third line |
| RequestController.CorrectedNotesNameApprover | backend/src/controllers/requestController.js:507-512 | after an approval the stored row is approved by the caller and its payload is exactly the corrected one |
| RequestController.RejectRequest | backend/src/controllers/requestController.js:598-705 | a missing reason is a 400 before anything is read; then the same not-found and 403 cases; otherwise the row gets the rejecter and the reason, and the requester is mailed |
| RequestController.SubmitRequest | backend/src/controllers/requestController.js:43-200 | a failed lookup is forwarded and an employee without an id is a 400 (52-60), both without a write; otherwise one pending row with the body's values is appended, the requester is mailed a confirmation, and the recipients, which are exactly the HR staff and the `Approvers` of the validated employee's designation and manager, each once, are mailed when there are any (89) |
| SettingsService.NotFound | backend/src/services/settingsService.js:13 | a 404 whose message names the key |
| SettingsService.GetSetting | backend/src/services/settingsService.js:9-21 | the stored row; a missing key is the 404 naming it, rethrown unchanged (18); an adapter failure is a 500 "Failed to fetch setting" |
| SettingsService.GetAllSettings | backend/src/services/settingsService.js:26-34 | the adapter's rows, or a 500 "Failed to fetch settings" |
| SettingsService.UpsertSetting | backend/src/services/settingsService.js:39-47 | the adapter's row, or a 500 "Failed to update setting" |
| SettingsService.DeleteSetting | backend/src/services/settingsService.js:52-59 | success, or a 500 "Failed to delete setting" |
| SettingsService.FailureStatuses | backend/src/services/settingsService.js:9-21 | every failure of `getSetting` is a 404 exactly for a missing key, and otherwise a 500 |
| SettingsService.GetStoredSetting | backend/src/services/settingsService.js:9-21 | through the table: the row stored under the key, or the 404 naming it |
| SettingsController.GetAllSettings | backend/src/controllers/settingsController.js:9-21 | the service's rows with `count` equal to their number, or the forwarded error |
| SettingsController.GetSetting | backend/src/controllers/settingsController.js:27-39 | the row, or the forwarded error, the 404 included |
| SettingsController.UpsertSetting | backend/src/controllers/settingsController.js:84-106 | a falsy value is a 400 "value is required" (87-94); otherwise the path's key and the body's value and description go to the service, whose row is returned or whose error is forwarded |
| SettingsController.FalsyValueSkipsService | backend/src/controllers/settingsController.js:87-94 | a falsy value never reaches the service: the answer does not depend on it and is a refusal |
| SettingsController.DeleteSetting | backend/src/controllers/settingsController.js:112-125 | a fixed success message, or the forwarded error |
| SettingsController.ErrorsForwarded | backend/src/controllers/settingsController.js:18-20 | every handler forwards a service error unchanged rather than answering it (also 122-124) |
| ActivityLogService.Default | backend/src/services/activityLogService.js:46-50 | a destructuring default applies to an absent key only |
| ActivityLogService.Record | backend/src/services/activityLogService.js:44-60 | the row keeps the type, description and request id; status `success` and performer `system` when absent; details only when truthy (56) |
| ActivityLogService.FailureDetails | backend/src/services/activityLogService.js:124-128 | the given details with the error message under `error`; every other key is looked up as before |
| ActivityLogService.LookupAppend | backend/src/services/activityLogService.js:124-128 | a key spread in last is the one found, and other keys are untouched |
| ActivityLogService.Strings | backend/src/services/activityLogService.js:149 | the recipient list as a JSON array, element by element |
| ActivityLogService.NotificationDetails | backend/src/services/activityLogService.js:141-153 | the recipients, their count, and the notification type, `general` when absent |
| ActivityLogService.ReminderDetails | backend/src/services/activityLogService.js:172-176 | the approvers' count and the pending count |
| ActivityLogService.CronSuccessRecord | backend/src/services/activityLogService.js:100-110 | a cron-job row with status `success`, performer `system:cron` and no request |
| ActivityLogService.CronFailureRecord | backend/src/services/activityLogService.js:118-132 | a failed cron-job row by `system:cron` whose description and details carry the error message |
| ActivityLogService.DailyReminderRecord | backend/src/services/activityLogService.js:166-180 | a daily-reminder row by `system:daily-reminder`, `success` exactly when the flag is set, with the approvers' count |
| ActivityLogService.BuildActivityQuery | backend/src/services/activityLogService.js:223-240 | every term uses the placeholder of its position; the statement ends in LIMIT and OFFSET with the limit (default 100) and offset (default 0); its WHERE clause selects exactly the rows of the given truthy type and status |
| ActivityLogService.Page | backend/src/services/activityLogService.js:239 | at most `limit` rows, starting at `offset`, clipped to the list |
| ActivityLogService.FilterIncreasing | backend/src/services/activityLogService.js:227-237 | selecting rows keeps insertion order and keeps only rows of the table |
| ActivityLogService.RecentSelects | backend/src/services/activityLogService.js:214-248 | the query fails exactly when the limit or offset is not a non-negative integer; otherwise at most `limit` selected rows of the table, newest first |
| ActivityLogService.DefaultPage | backend/src/services/activityLogService.js:216-221 | without filters, the 100 newest rows |
| ActivityLogService.DefaultsOnlyWhenAbsent | backend/src/services/activityLogService.js:46-56 | an empty status or performer is stored as given, while falsy details are dropped |
| ActivityLogService.ActivityLog.constructor | backend/src/services/activityLogService.js:44 | the table starts empty |
| ActivityLogService.ActivityLog.Log | backend/src/services/activityLogService.js:44-93 | an unavailable table swallows the failure and returns null, changing nothing (84-92); otherwise exactly the built row is appended and returned |
| ActivityLogService.ActivityLog.LogCronJobSuccess | backend/src/services/activityLogService.js:100-110 | appends exactly the cron success row |
| ActivityLogService.ActivityLog.LogCronJobFailure | backend/src/services/activityLogService.js:118-132 | appends exactly the cron failure row |
| ActivityLogService.ActivityLog.LogNotificationSent | backend/src/services/activityLogService.js:140-158 | appends the notification row by `system:notification`, with the count and quoted subject in its description and status `success` unless given |
| ActivityLogService.ActivityLog.LogDailyReminder | backend/src/services/activityLogService.js:166-180 | appends exactly the daily-reminder row |
| ActivityLogService.ActivityLog.LogRequestSubmitted | backend/src/services/activityLogService.js:188-203 | appends an `info` row performed by the employee, for the request, naming the approvers' count |
| ActivityLogService.ActivityLog.GetRecentActivities | backend/src/services/activityLogService.js:214-248 | the statement built from the filters, run on the table, gives the reference selection |
| SchedulerService.GetAllApprovers | backend/src/services/schedulerService.js:184-218 | the three lookups in turn, the first failure rethrown; on success every HR, coordinator and lead coordinator address exactly once, and nothing else |
| SchedulerService.Row | backend/src/services/schedulerService.js:226-245 | the request's id and reason, the name or else the employee id, OT exactly for hours of zero or more and UT otherwise, the size of the hours, and the minutes or 0 (232) |
| SchedulerService.ReminderSubject | backend/src/services/schedulerService.js:114 | the subject opens with "Daily Reminder: " followed by the decimal digits of the pending count |
| SchedulerService.FormatRows | backend/src/services/schedulerService.js:226-246 | one row per pending request, in order |
| SchedulerService.RunOutcome | backend/src/services/schedulerService.js:78-176 | a reminder exactly when there are pending requests and the approver lookup gives some addresses; a cron failure, with the lookup's message, exactly when there are pending requests and the lookup throws (167-176) |
| SchedulerService.OutcomeRecord | backend/src/services/schedulerService.js:84-175 | a reminder is logged as a successful daily reminder; every other ending as a cron-job row, failed exactly for a thrown lookup |
| SchedulerService.SendDailyReminder | backend/src/services/schedulerService.js:72-177 | the reminder goes out exactly when the run reaches it, to the approvers with the count in the subject (114) and one row per pending request; each ending appends its one activity row when the log accepts it |
| SchedulerService.RemindApprovers | backend/src/services/schedulerService.js:94-176 | once pending rows exist: a failed approver lookup is logged as a cron failure with nothing sent, an empty lookup as a success with nothing sent, and otherwise exactly one mail goes to all approvers, logged as a successful reminder |
| SchedulerService.ReminderReachesEachApproverOnce | backend/src/services/schedulerService.js:196-202 | a sent reminder reaches every HR address, each approver once, and lists every pending request |
| SchedulerService.Scheduler.constructor | backend/src/services/schedulerService.js:12-14 | no jobs are registered |
| SchedulerService.Scheduler.ScheduleDailyReminder | backend/src/services/schedulerService.js:43-67 | registers or replaces `daily_reminder` on the workday 8:00 schedule in Asia/Manila, leaving the other jobs |
| SchedulerService.Scheduler.StopAll | backend/src/services/schedulerService.js:324-331 | every registered job is stopped, then the registry is empty |
| SchedulerService.Scheduler.GetJobsStatus | backend/src/services/schedulerService.js:336-345 | one entry per registered job, running only when the library's flag is true, always scheduled |
| SchedulerService.ScheduleReportStop | backend/src/services/schedulerService.js:43-345 | after scheduling the status lists the reminder; after stopping it lists nothing and the reminder was stopped |
| AdminController.DigitPrefix | backend/src/controllers/adminController.js:21 | `parseInt` reads the longest prefix of digits of the radix |
| AdminController.ParseInt | backend/src/controllers/adminController.js:21-22 | `parseInt` without a radix: NaN exactly when no digit follows the leading white space, the sign and a `0x` prefix |
| AdminController.DecimalValue | backend/src/controllers/adminController.js:21 | decimal digits read in radix 10 denote the number they spell |
| AdminController.AllDigitsPrefix | backend/src/controllers/adminController.js:21 | a run of decimal digits is read completely |
| AdminController.DigitsParse | backend/src/controllers/adminController.js:21 | a non-empty run of decimal digits parses to its value |
| AdminController.ParseIntDecimal | backend/src/controllers/adminController.js:21-22 | every decimal number written out parses back to itself |
| AdminController.Filters | backend/src/controllers/adminController.js:18-23 | an empty type or status becomes null; a falsy limit or offset takes the default 100 or 0, and a given one is `parseInt` of its text |
| AdminController.GetActivityLogs | backend/src/controllers/adminController.js:14-36 | the recent activities for the built filters, with their count and the filters, or the forwarded failure |
| AdminController.LogsListing | backend/src/controllers/adminController.js:14-36 | a listing has at most `limit` rows, newest first, each stored and matching the filters; a limit that parses to NaN makes the query fail; the default query never fails |
| AdminController.LimitParsed | backend/src/controllers/adminController.js:21 | `?limit=N` uses N |
| AdminController.GetSchedulerStatus | backend/src/controllers/adminController.js:59-70 | the scheduler's status, one entry per registered job |
| AdminController.TriggerDailyReminder | backend/src/controllers/adminController.js:76-102 | the reply carries the fixed message, the caller's e-mail and the time, whatever the run does; the run's mail and activity row are the reminder's own (schedulerService.js 316-319) |
| MyRequests.EndOfDay | frontend/src/pages/MyRequests.tsx:81-82 | the last millisecond of the day of the given instant |
| MyRequests.FilterSubsequence | frontend/src/pages/MyRequests.tsx:62-84 | each filter step keeps what it keeps in order |
| MyRequests.FiledSteps | frontend/src/pages/MyRequests.tsx:76-84 | each date step keeps the rows filed on the right side of its bound |
| MyRequests.StatusStep | frontend/src/pages/MyRequests.tsx:65-73 | pending keeps the rows without an approver, approved those with an approver and no reason, rejected those with a reason, and any other choice keeps everything |
| MyRequests.DateSteps | frontend/src/pages/MyRequests.tsx:62-86 | the status step followed by the two date steps gives exactly the rows the filters describe |
| MyRequests.Page.constructor | frontend/src/pages/MyRequests.tsx:34-40 | no requests, the status `all` and no dates |
| MyRequests.Page.LoadRequests | frontend/src/pages/MyRequests.tsx:47-58 | without an ERP id, or when the fetch fails, nothing changes; otherwise both lists become the fetched requests; the filters are untouched |
| MyRequests.Page.ApplyFilters | frontend/src/pages/MyRequests.tsx:61-87 | the shown list is exactly the requests the status and the inclusive date range select, in their order |
| MyRequests.Page.ClearFilters | frontend/src/pages/MyRequests.tsx:89-93 | every filter is back to its initial value and the lists are untouched |
| MyRequests.AllShowsEverything | frontend/src/pages/MyRequests.tsx:65 | with the status `all` and no dates every request is shown |
| MyRequests.DateBoundsInclusive | frontend/src/pages/MyRequests.tsx:76-84 | both bounds are inclusive, and the end date includes its whole day |
| MyRequests.StatsOf | frontend/src/pages/MyRequests.tsx:114-119 | the total is the number of requests and no card exceeds it |
| MyRequests.StatsMatchFilters | frontend/src/pages/MyRequests.tsx:114-119 | each card counts exactly the rows its status filter shows (65-73) |
| MyRequests.BadgeAgreesWithFilter | frontend/src/pages/MyRequests.tsx:95-112 | the Rejected and Approved badges are exactly the rows those filters show; a Pending badge is shown by the pending filter |
| AdminDashboard.ActionsOnPendingOnly | frontend/src/pages/AdminDashboard.tsx:215 | the buttons appear exactly on cards whose badge reads Pending (86-109) |
| AdminDashboard.Dashboard.constructor | frontend/src/pages/AdminDashboard.tsx:38-44 | nothing selected, an empty closed dialog, and one pending fetch on mount |
| AdminDashboard.Dashboard.HandleApprove | frontend/src/pages/AdminDashboard.tsx:46-56 | clears the messages, approves the request, and refreshes the list only when the approval succeeds |
| AdminDashboard.Dashboard.HandleRejectClick | frontend/src/pages/AdminDashboard.tsx:58-62 | selects the request and opens the dialog with an empty reason |
| AdminDashboard.Dashboard.SetRejectReason | frontend/src/pages/AdminDashboard.tsx:249-252 | the typed text becomes the reason |
| AdminDashboard.Dashboard.HandleRejectConfirm | frontend/src/pages/AdminDashboard.tsx:64-84 | a blank reason raises an alert and sends nothing (65-68); without a selection nothing happens; otherwise it rejects with the reason, and on success closes the dialog, clears the selection and reason and refreshes (76-80); a failure keeps the dialog |
| AdminDashboard.Dashboard.CancelReject | frontend/src/pages/AdminDashboard.tsx:258-262 | closes the dialog and clears the selection and the reason |
| AdminDashboard.RejectSession | frontend/src/pages/AdminDashboard.tsx:58-84 | every rejection sent carries a non-blank reason; a blank one keeps the dialog open and sends nothing; a non-blank one is sent as typed |
| DuplicateDialog.Serialised | frontend/src/components/DuplicateWarningDialog.tsx:60 | a table row's approver always arrives, as `null` for SQL NULL or as its text |
| DuplicateDialog.StatusLabel | frontend/src/components/DuplicateWarningDialog.tsx:64 | Pending exactly for `null`, Approved exactly for non-empty text, Rejected for a missing or empty approver |
| DuplicateDialog.ColourFollowsLabel | frontend/src/components/DuplicateWarningDialog.tsx:59-64 | the colour and the label always agree, and yellow marks Pending |
| DuplicateDialog.LabelOfRows | frontend/src/components/DuplicateWarningDialog.tsx:64 | a stored row reads Pending exactly when the database calls it pending; a row rejected by someone reads Approved, since rejection records the rejecter as approver |
| DuplicateDialog.OnOpenChange | frontend/src/components/DuplicateWarningDialog.tsx:41 | `onClose` fires exactly when the dialog closes |
| ConfirmationModal.DurationOf | frontend/src/components/ConfirmationModal.tsx:81-82 | the hours as given, "hours" exactly above one, and the minutes exactly when positive |
| ConfirmationModal.FormattedDate | frontend/src/components/ConfirmationModal.tsx:28-30 | the formatted picked date, or the empty text without one |
| RequestStore.MessageOr | frontend/src/store/useRequestStore.ts:83 | the server's message, or the fallback, so never empty when the fallback is not |
| RequestStore.ErrorOr | frontend/src/store/useRequestStore.ts:89 | the error's message when it has one, else the fallback |
| RequestStore.CheckDuplicate | frontend/src/store/useRequestStore.ts:174-183 | the response's `data`, or no duplicates when the call fails; it never rejects and never touches the store |
| RequestStore.Store.constructor | frontend/src/store/useRequestStore.ts:60-65 | the initial state, with no `set` made |
| RequestStore.Store.SetLoading | frontend/src/store/useRequestStore.ts:68 | only the loading flag changes |
| RequestStore.Store.SetError | frontend/src/store/useRequestStore.ts:70 | the error is set and loading ends |
| RequestStore.Store.SetSuccess | frontend/src/store/useRequestStore.ts:72 | the success message is set and the error cleared |
| RequestStore.Store.ClearMessages | frontend/src/store/useRequestStore.ts:74 | both messages are cleared |
| RequestStore.Store.SubmitRequest | frontend/src/store/useRequestStore.ts:77-93 | loading with both messages cleared on entry; on exit the server's message or the default, or the error, which is passed on; the lists are untouched |
| RequestStore.Store.ApproveRequest | frontend/src/store/useRequestStore.ts:186-202 | the same shape with the approval defaults |
| RequestStore.Store.RejectRequest | frontend/src/store/useRequestStore.ts:205-221 | the same shape with the rejection defaults |
| RequestStore.Store.FetchRequests | frontend/src/store/useRequestStore.ts:96-113 | loading with the error cleared and the success message kept; the list is replaced only on success; a failure sets the error and is passed on |
| RequestStore.Store.FetchPendingRequests | frontend/src/store/useRequestStore.ts:135-151 | the same shape for the pending list |
| RequestStore.Store.FetchRequestById | frontend/src/store/useRequestStore.ts:116-132 | the same shape, replacing the current request on success |
| RequestStore.Store.FetchStatistics | frontend/src/store/useRequestStore.ts:154-171 | the same shape, replacing the statistics with the response's `data` on success |
| RequestStore.Store.Reset | frontend/src/store/useRequestStore.ts:224-231 | back to the initial state in one `set` |
| RequestStore.ResetIsFresh | frontend/src/store/useRequestStore.ts:60-65 | after a reset the store equals a fresh one (224-231) |
| AuthContext.Storage.constructor | frontend/src/contexts/AuthContext.tsx:34-40 | local storage holds the given token |
| AuthContext.FetchedUser | frontend/src/contexts/AuthContext.tsx:43-71 | a user exactly for a 2xx reply whose body has a truthy `success` and a truthy `user`, and then that user (57-60) |
| AuthContext.Auth.constructor | frontend/src/contexts/AuthContext.tsx:29-31 | no user, not authenticated, loading |
| AuthContext.Auth.FetchUser | frontend/src/contexts/AuthContext.tsx:43-71 | an accepted user is stored and marks the context authenticated; any failure removes the stored token and clears both (64-70) |
| AuthContext.Auth.InitAuth | frontend/src/contexts/AuthContext.tsx:75-94 | a token in the URL is stored and fetched; otherwise a stored token is fetched; otherwise nothing is; loading ends in every case |
| AuthContext.Auth.Login | frontend/src/contexts/AuthContext.tsx:100-103 | stores the token and fetches its user; a refused token is removed again |
| AuthContext.Auth.Logout | frontend/src/contexts/AuthContext.tsx:106-126 | sends the logout call exactly when a non-empty token is stored, then clears the token, the user and the flag |
| AuthContext.Auth.RefreshUser | frontend/src/contexts/AuthContext.tsx:129-134 | fetches again with a stored token, and changes nothing without one |
| AuthContext.UseAuth | frontend/src/contexts/AuthContext.tsx:151-157 | the context inside a provider, an error outside one |
| AuthContext.LoginThenLogout | frontend/src/contexts/AuthContext.tsx:100-126 | signing in then out leaves no user and no token, with a logout call exactly when the sign-in kept a non-empty token |
| AuthContext.RefreshAfterLogout | frontend/src/contexts/AuthContext.tsx:106-134 | after a logout a refresh keeps the signed-out state |
| AuthContext.SessionStaysBacked | frontend/src/contexts/AuthContext.tsx:43-134 | mounting, logging in and refreshing keep an authenticated context backed by a stored token |
| ApiClient.RequestConfig.constructor | frontend/src/lib/api.ts:13 | the request config carries the given header |
| ApiClient.Location.constructor | frontend/src/lib/api.ts:34 | the location holds the given address |
| ApiClient.AttachToken | frontend/src/lib/api.ts:12-20 | a bearer header exactly when a non-empty token is stored; otherwise the config is unchanged; the same config is passed on |
| ApiClient.DataField | frontend/src/lib/api.ts:37 | a field is read only from a response that has a body |
| ApiClient.Message | frontend/src/lib/api.ts:37 | the body's truthy `error`, else its truthy `message`, else the error's own message, else "An error occurred"; never empty |
| ApiClient.OnFulfilled | frontend/src/lib/api.ts:28 | a response is passed on unchanged |
| ApiClient.OnRejected | frontend/src/lib/api.ts:29-39 | a 401 removes the stored token and sends the browser to `/login` (31-35); any other failure leaves both; every failure rejects with the chosen message |
| ApiClient.RefusalTextReachesClient | frontend/src/lib/api.ts:37 | a server refusal `{error: text}` or `{message: text}` with non-empty text becomes the rejection's message |
| ApiClient.NoResponseMessage | frontend/src/lib/api.ts:37 | without a response the error's own message is kept, or the default without one |
| ApiClient.ExpiredSessionDropsHeader | frontend/src/lib/api.ts:12-35 | a request made after a 401 carries no new bearer header |
| ProtectedRoute.Guard | frontend/src/components/ProtectedRoute.tsx:10-55 | loading shows the spinner (13-22); signed out redirects to `/login` exactly past loading (24-26); a present user whose role is not listed is denied, with their role shown, exactly when a role list is given (29-52); everything else renders the page |
| ProtectedRoute.NoRoleListAdmitsAll | frontend/src/components/ProtectedRoute.tsx:29 | without a role list every signed-in user sees the page |
| ProtectedRoute.EmptyRoleListDeniesAll | frontend/src/components/ProtectedRoute.tsx:29 | an empty role list turns every present user away |
| ProtectedRoute.AdminRouteRoles | frontend/src/App.tsx:65 | the admin route shows its page exactly to Owner, HR and Project Coordinator, and denies an Employee |
| ProtectedRoute.RouteAfterMount | frontend/src/components/ProtectedRoute.tsx:13-26 | once mounting has finished no route shows the spinner, and a context without a user redirects to `/login` |
| ProtectedRoute.RouteAfterLogout | frontend/src/components/ProtectedRoute.tsx:24-26 | after a logout every guarded route redirects to `/login` |
| LoginPage.ErrorMessage | frontend/src/pages/Login.tsx:82-93 | each of the three known codes has its own text, and exactly the other codes get the default text |
| LoginPage.ErrorBox | frontend/src/pages/Login.tsx:63-69 | the box is shown exactly for a non-empty `error` parameter, with its message |
| LoginPage.Navigate | frontend/src/pages/Login.tsx:11-16 | a signed-in visitor, and only one, is sent to `/` |
| LoginPage.CallbackCodesShown | frontend/src/pages/Login.tsx:82-93 | every code the callback redirects with shows the box, and the default text appears exactly for `access_denied` (authController.js 30-45) |
| UserProfileButton.Firsts | frontend/src/components/UserProfileButton.tsx:40-41 | at most one character per piece, since an empty piece contributes nothing |
| UserProfileButton.WordStarts | frontend/src/components/UserProfileButton.tsx:38-41 | only non-space characters of the name |
| UserProfileButton.FirstsAreWordStarts | frontend/src/components/UserProfileButton.tsx:38-41 | the first characters of the pieces between spaces are exactly the characters that start a word |
| UserProfileButton.Initials | frontend/src/components/UserProfileButton.tsx:37-44 | at most two characters, none lower-case or a space: the upper-cased first two word starts |
| UserProfileButton.TwoWords | frontend/src/components/UserProfileButton.tsx:37-44 | two words give their two upper-cased initials, however many spaces separate them |
| UserProfileButton.NoSpaceNoStarts | frontend/src/components/UserProfileButton.tsx:38-41 | text without spaces starts no word after its first character |
| UserProfileButton.Spaces | frontend/src/components/UserProfileButton.tsx:39 | a run of the given number of spaces |
| UserProfileButton.WordStartsAppend | frontend/src/components/UserProfileButton.tsx:38-41 | the word starts of a concatenation are those of its parts |
| UserProfileButton.WordStartsOfSpaces | frontend/src/components/UserProfileButton.tsx:38-41 | after a run of spaces the next word's first letter starts a word |
| UserProfileButton.WordStartsAfterSpace | frontend/src/components/UserProfileButton.tsx:38-41 | the same with the run already after a space |
| UserProfileButton.Render | frontend/src/components/UserProfileButton.tsx:27-70 | nothing without a user (27-29); the picture exactly when there is one and it has not failed (46); otherwise the initials of a text name, and an error for any other name |
| UserProfileButton.FallbackShowsInitials | frontend/src/components/UserProfileButton.tsx:57-60 | the initials shown are those of the user's name |
| UserProfileButton.Button.constructor | frontend/src/components/UserProfileButton.tsx:6-7 | the dropdown starts closed with no image error |
| UserProfileButton.Button.ImageFailed | frontend/src/components/UserProfileButton.tsx:68 | the image error is set and nothing else changes |
| UserProfileButton.Button.PictureSeen | frontend/src/components/UserProfileButton.tsx:23-25 | the image error is cleared exactly when the picture changed |
| UserProfileButton.Button.Toggle | frontend/src/components/UserProfileButton.tsx:52 | the dropdown flips |
| UserProfileButton.Button.MouseDown | frontend/src/components/UserProfileButton.tsx:11-20 | a mousedown outside closes the dropdown, one inside keeps it |
| UserProfileButton.NewPictureRetried | frontend/src/components/UserProfileButton.tsx:23-25 | after a picture fails, a different picture is shown again |
| UserProfileButton.HandleLogout | frontend/src/components/UserProfileButton.tsx:31-34 | signs out through the context, then goes to `/login` |
| ThemeToggle.Preferences.constructor | frontend/src/components/ThemeToggle.tsx:9 | local storage holds the given theme |
| ThemeToggle.Root.constructor | frontend/src/components/ThemeToggle.tsx:22 | the document element's `dark` class as given |
| ThemeToggle.InitialTheme | frontend/src/components/ThemeToggle.tsx:9-19 | a saved non-empty theme as stored, otherwise dark exactly when the system prefers it |
| ThemeToggle.Next | frontend/src/components/ThemeToggle.tsx:26 | the other of light and dark, and light for any other value |
| ThemeToggle.NextInvolution | frontend/src/components/ThemeToggle.tsx:26 | toggling twice restores a light or dark theme |
| ThemeToggle.NextOfOther | frontend/src/components/ThemeToggle.tsx:26 | any other stored value toggles to light, then dark |
| ThemeToggle.Toggle.constructor | frontend/src/components/ThemeToggle.tsx:5 | the theme starts light |
| ThemeToggle.Toggle.Mount | frontend/src/components/ThemeToggle.tsx:7-23 | the initial theme is chosen and the class follows it (22); the stored value is only read |
| ThemeToggle.Toggle.ToggleTheme | frontend/src/components/ThemeToggle.tsx:25-30 | the other theme, saved, with the class following it |
| ThemeToggle.ToggleThenRemount | frontend/src/components/ThemeToggle.tsx:7-30 | a toggled theme survives a reload, whatever the system prefers |
| ThemeToggle.ToggleTwice | frontend/src/components/ThemeToggle.tsx:25-30 | toggling twice restores the theme and the class, with it saved |

## Left out

- HTTP, database drivers and sockets: every axios call, the pg pool and Supabase client setup, and Socket.IO events are outside the model. Their answers are parameters, and their failures are `Err`/`None` inputs. backend/src/config/supabase.js is not part of this model.
- Express wiring: routes/index.js and the route files are framework bootstrap. The model therefore says nothing about which middleware guards which route, nor about the request routes lacking `verifySession`.
- Logging: console output and the logger are side channels with no effect on results.
- Randomness: `crypto.randomBytes` is a parameter, so only the token's shape is stated.
- Dates and time zones: `formatDate`, `toLocaleDateString` and date-fns output are opaque strings. Timestamps are integers, session expiry is compared as given, and `MyRequests.EndOfDay` works in UTC milliseconds with no local-time conversion. `Asia/Manila` is only a value the cron registration holds.
- Scheduling: the cron library, `job.stop()` and the job's running flag are inputs. `setTimeout` delays and the log-only catch of the scheduler's `initialize` are left out.
- Floating point: hours are integers (with `parseFloat` as identity), and `totalHours` in the statistics is not computed.
- Concurrency: `Promise.all`, fire-and-forget notification and logging promises, and concurrent approvals are modelled as a sequence of steps. The order in which un-awaited work finishes is not modelled, and neither is Login's un-awaited fetch interleaving.
- Validator.Typed: Joi's `email()` and `date().iso()` formats are abstract predicates. Lengths are counted in characters, not UTF-16 code units.
- Validator.Validate: Joi converts values by default (backend/src/middleware/validator.js:5-8 sets no `convert: false`). The model does not: a numeric string such as `"2"` for hours or minutes is refused here, where Joi accepts it and replaces it with the number. Likewise `dateAffected` stays the ISO text, where Joi replaces it with a `Date`.
- RequestForm.JoiFieldsPassZod: zod's `coerce` and date parsing are not modelled. The form's values are taken as already typed.
- EmailTemplates: only the dispatch, the subjects, greetings, the hours/minutes figures and the `toLowerCase` TypeError of the first two templates are modelled. The static HTML markup of every template is left out, and so is the `Math.abs`/minutes wording inside the bodies. Two more quirks are not modelled:
  - `getEmailTemplate` looks names up on a plain object, so an inherited name such as `constructor` is not refused;
  - the test template's "now" is a parameter.
- AuthController: `googleLogin`, which only redirects to Google's URL, is left out. So are `getCurrentUser`, which echoes `req.user`, and `syncWithERPNext`, which is a manual ERP refresh.
- AuthMiddleware.VerifySession: the catch at backend/src/middleware/auth.js:62-68, a 500 "Authentication error" when the session query throws, is not modelled. The query is a total function over the tables here.
- RequestController: `handleStatusUpdate` (backend/src/controllers/requestController.js:416-433) and the submit-time activity and duplicate logging are left out. They only write to the log.
- RequestController.IdText: a JSON identifier that is not a string reads as empty text, and `TextField` reads it as absent. JavaScript's conversion of numbers and objects to text is not modelled.
- RequestController: the path `:id` is modelled as a natural number. In the source a non-numeric id reaches the database, whose type error is forwarded as a 500.
- Database: adapter exceptions other than the modelled `DbError` (connection loss, constraint violations) are left out.
- Database.RequestTable.GetAllSettings: the keys are sorted by code point. PostgreSQL's `ORDER BY key` follows the database collation, which can order some keys differently.
- NotificationRouting: `getAllRecipients` takes the HR and approver lists as inputs. Which webhook they came from is not modelled.
- N8nService: `processRequest`, `handleApprovalResponse`, `getEmployeeDetails` and `getApprover` only post to a webhook and return its data. Of these, only their shared rethrow mapping is modelled.
- SettingsController: the notification-recipient endpoints (backend/src/controllers/settingsController.js:45-77) call settings-service methods that settingsService.js does not define. There is nothing there to model.
- ActivityLogService: `getStatistics` (backend/src/services/activityLogService.js:254-273) and the admin endpoint over it (backend/src/controllers/adminController.js:42-53) are aggregate SQL over the log table and are left out. The error stack passed to `logCronJobFailure` is always `None`.
- SchedulerService.SendDailyReminder: the `emailError` catch is dead, because `sendNotification` never throws. The model has no such path.
- RequestStore: query-string and URL building for the fetch actions are left out.
- RequestStore.MessageOr: a server message that is not a string is read as absent, so the default text is used.
- ApiClient.Message: the conversion of a non-string message by `new Error` (`String(obj)`) is not modelled. The message is kept as a JSON value. The request interceptor's error half, a pass-through reject, is left out.
- ProtectedRoute.Guard: the two quirks are stated, not excluded:
  - an empty role list is truthy and denies everyone;
  - an authenticated context whose user is `None` passes the role check.
- UserProfileButton.Initials: upper-casing is ASCII only, with no Unicode case mapping. `substring` counts characters, not UTF-16 units.
- UserProfileButton: the dropdown's DOM ref and the `designation || role` display line are left out.
- ThemeToggle: `matchMedia` is the `prefersDark` input. The button's title and icon are left out.
- Browser plumbing: JSX markup, CSS, React hook scheduling, desktop notifications, `window.history.replaceState` and `window.location` beyond the login redirect are left out.

## Findings

| source | as written | input that shows it | evidently intended | confidence | as-written member | corrected member |
|---|---|---|---|---|---|---|
| backend/src/controllers/authController.js:42 | The callback calls `oauthService.checkCetAccess`, which oauthService.js does not define. The call throws a TypeError, which the catch turns into `auth_failed` for every login past the domain check. | any authorization code, with a Google user whose email is in an allowed domain | check the user with the CET access service (`cetAccessService.checkUserAccess`) and redirect with `access_denied` only when access is refused | not executed | AuthController.AsWrittenEveryLoginFails | AuthController.CorrectedAdmitsGrantedUsers |
| backend/src/controllers/requestController.js:512 | After writing the approval (507), the handler passes the row it read before the update to `createAdditionalSalary`. That row is still pending, so the notes' third line reads "Approved by: null" (n8nService.js:337). | any pending request approved by any caller allowed to decide it, whose reason, projects and approver hold no line break | the notes name the approver from the updated row (`updatedRequest`) | not executed | RequestController.AsWrittenNotesNameNoApprover | RequestController.CorrectedSalaryPayload |
