# HR management backend: a Dafny model of its controller logic

This project models the sequential logic of an Express/Mongoose HR backend
and proves properties of it. It covers:

- the time clock of `controllers/timeLog.js`: a four-action punch state
  machine over TimeLog rows, plus daily and weekly work and break totals;
- the leave ledger of `controllers/timeOff.js`: requests, the approval
  transition, the manual balance adjustment, public holidays and the two
  read views;
- the seven embedded history lists of an employee profile, with their access
  rule, the folder views, the privacy toggle, the file-list filter and the
  job-history ordering (`controllers/employee.js`);
- the company option lists, the approval permissions and the owner transfer
  (`controllers/setting.js`);
- the onboarding invite token, from issue to expiry, clearing and
  consumption, and the guards of onboarding register and login
  (`controllers/onboard.js`);
- the choice of token in the `protect` middleware (`middlewares/auth.js`);
- the default option tables (`constants/employeeFieldsConst.js`).

## How the model is built

**Collections and lookups.** Collections are sequences or maps held by
classes: `TimeLogStore`, `LeaveLedger`, `Directory`, `EmployeeProfile`,
`EmployeeFields` and `Company`. Handlers that change documents are methods
with `modifies` clauses. Read-only handlers are functions or read-only
methods. A database lookup that the model does not recompute is a
parameter: an `Option`, a nullable object, or a boolean such as "the
company exists".

**Parameters for things outside the logic.** These are also passed in:
- the current time and the start of the day and of the week, as integer
  milliseconds;
- fresh ids;
- the hashed invite token;
- the outcome of sending an email;
- the password check;
- the JWT check.

**Errors.** Every handler returns `Result<T>`. `Err(status, message)`
carries the HTTP status and, where the handler answers itself, the exact
message of the source. Where the source crashes instead of answering,
the model returns `Err(500, "Server Error")`. That answer is assumed:
the error middleware is not part of this model (see "## Left out").
The crashes modelled this way are:
- a property read on a null document;
- `role.equals` on a membership whose role is null;
- an enum value that Mongoose rejects when saving;
- a missing leave policy.

**Members that specify others.** Shared checks are written once, as
`EditGate` and `OptionGate`. The loops that accumulate totals are proved
against recursive specification functions: `SumWindow` against
`WorkTotal`/`BreakTotal`, and `DeductHours` against `TotalHours`.

## Model

| member | source | states |
|---|---|---|
| Tenancy.FirstFor | controllers/timeLog.js:36-38 | `user.companies.find(c => c.company.equals(companyId))`: the first membership for the company, or none exactly when the user is not in the company |
| Tenancy.FirstUserWithId | controllers/onboard.js:194 | `User.findById`: the first account with the id, none before it |
| Tenancy.ManagerVariants | controllers/employee.js:158-161 | the strict manager test implies the lenient one; they differ exactly when the first job entry has no `reportsTo`; an employee with no job entries has no manager |
| TimeClock.Latest | controllers/timeLog.js:57-63 | `findOne(filter).sort({date: -1})`: a matching row with the greatest date (earliest stored on ties), none exactly when no row matches |
| TimeClock.DailyWindowBounds | controllers/timeLog.js:150-155 | the daily query window starts at 00:00 and leaves out the day's last millisecond |
| TimeClock.WeeklyWindowSpansEightDays | controllers/timeLog.js:171-181 | the weekly window reaches 23:59:59.998 of the day seven days after Sunday: eight calendar days |
| TimeClock.TotalsNonNegative | controllers/timeLog.js:157-167 | work and break totals are never negative when every row's bounds are in order |
| TimeClock.TotalsAppend | controllers/timeLog.js:183-193 | the totals of a concatenation are the sums of the totals |
| TimeClock.ClockOutAddsSession | controllers/timeLog.js:90-105 | clocking out an open row adds clockOut − clockIn to every window holding the row's date and leaves the break total |
| TimeClock.EightHourDay | controllers/timeLog.js:160-167 | 09:00–17:00 with a 30-minute break totals 8 h of work (breaks not deducted) and 30 min of break |
| TimeClock.SumWindow | controllers/timeLog.js:157-167 | the `forEach` accumulation computes exactly `WorkTotal` and `BreakTotal` over the window |
| TimeClock.ClockInKeepsOpenSession | controllers/timeLog.js:47-54 | a clock-in while a session is open leaves two open rows |
| TimeClock.ClockInBecomesLatest | controllers/timeLog.js:47-63 | after a clock-in dated after all the employee's rows, start-break, clock-out and the current-row lookup act on the new row |
| TimeClock.SecondClockOutFails | controllers/timeLog.js:90-102 | once the only open row is clocked out, no open row remains, so a second clock-out fails |
| TimeClock.TimeLogStore.UpdateTimeLog | controllers/timeLog.js:12-112 | the error order (401 non-member, 404 employee, 401 not self, 400 invalid action, 400 no active clock-in) with no change on errors; clock-in appends a row with date = clockIn = now; start-break, end-break and clock-out set one field on the latest matching row and nothing else |
| TimeClock.TimeLogStore.GetWorkLog | controllers/timeLog.js:118-213 | the same checks, then daily and weekly totals equal to `WorkTotal`/`BreakTotal` over the two windows, and as the current row the stored row `Latest` picks: the employee's row with the greatest date, the earliest stored one among equal dates, none exactly when the employee has no row |
| TimeOff.DeductHours | controllers/timeOff.js:137-140 | the loop subtracting each day's hours leaves `remaining − TotalHours(hoursPerDay)` |
| TimeOff.BalanceIndex | controllers/timeOff.js:133-135 | the first balance whose leave type matches, none before it; a null leave type matches nothing |
| TimeOff.Deducted | controllers/timeOff.js:130-142 | an approval changes only the first matching balance, by exactly the total hours; with no match nothing changes |
| TimeOff.Adjusted | controllers/timeOff.js:202-213 | updateLeaveBalance adds `hours` to the first matching balance, keeping the length and every other entry, or appends exactly one `{leaveType, hours}` |
| TimeOff.ApprovalConservesHours | controllers/timeOff.js:130-142 | an approval removes exactly the request's hours from the sum of the balances, or nothing when no balance matches |
| TimeOff.AdjustmentConservesHours | controllers/timeOff.js:202-213 | an adjustment changes the sum of the balances by exactly `hours`; the list grows only when no balance matched |
| TimeOff.ApprovedTwiceDeductsTwice | controllers/timeOff.js:115-142 | with no status guard, approving the same request twice subtracts its hours twice |
| TimeOff.FiftySixMinusEight | controllers/timeOff.js:130-142 | a 56-hour balance and an approved 8-hour day leave 48 |
| TimeOff.OwnJobEntryAuthorizes | controllers/timeOff.js:95-108 | the approval check passes whenever the CALLER's own first job entry reports to the caller or names no manager, whoever's request it is |
| TimeOff.AddPublicHoliday | controllers/timeOff.js:228-291 | the error order (401, 404, 500 on a null role, 401 non-owner); an owner gets exactly one Approved request per employee, in order, with startDate = endDate = date and hours [(date, 8)] |
| TimeOff.ScheduledIgnoresStatus | controllers/timeOff.js:340-347 | the scheduled hours do not depend on the requests' status |
| TimeOff.LeaveDetails | controllers/timeOff.js:336-356 | one entry per policy leave type, in policy order: total = defaultHours, remaining = the matching balance or 0, scheduled = `ScheduledFor` |
| TimeOff.FreshEmployeeDetails | controllers/timeOff.js:337-339 | with no balance and no requests, remaining is 0 (not the default) and scheduled is 0 |
| TimeOff.OfEmployee | controllers/timeOff.js:393-396 | exactly the requests of the employee |
| TimeOff.Scheduled | controllers/timeOff.js:398-400 | exactly the requests whose end date is now or later |
| TimeOff.History | controllers/timeOff.js:401-403 | exactly the requests whose end date is before now |
| TimeOff.OfEmployeeAppend | controllers/timeOff.js:393-396 | the query distributes over concatenation and keeps a single request exactly when it is the employee's, so stored order is kept |
| TimeOff.ScheduledAppend | controllers/timeOff.js:398-400 | the filter distributes over concatenation and keeps a single request exactly when it ends now or later, so stored order is kept |
| TimeOff.HistoryAppend | controllers/timeOff.js:401-403 | the filter distributes over concatenation and keeps a single request exactly when it ended before now, so stored order is kept |
| TimeOff.PartitionIsExact | controllers/timeOff.js:398-403 | scheduled, history and the undated requests partition the requests (as multisets); scheduled and history are disjoint |
| TimeOff.LeaveLedger.RequestTimeOff | controllers/timeOff.js:14-62 | the error order with no change; on success one Pending request is appended with the given leave type, dates and hoursPerDay, and balances are untouched |
| TimeOff.LeaveLedger.ApproveDeny | controllers/timeOff.js:115-143 | 404 for an unknown request; an invalid status changes nothing; otherwise status, approvedAt and approvedBy are set whatever the current status, and "Approved" also deducts the hours as `Deducted` |
| TimeOff.LeaveLedger.UpdateLeaveBalance | controllers/timeOff.js:155-222 | the CALLER's own profile is checked and adjusted (`Adjusted`); the URL's employeeId plays no part; errors change nothing |
| TimeOff.LeaveLedger.GetTimeOffDetails | controllers/timeOff.js:296-362 | 401, 404, 500 for a missing policy; otherwise exactly `LeaveDetails` over the employee's requests: per policy leave type its id, name, default hours, the balance or 0, and the scheduled hours; failing only when an upcoming request has no leave type |
| TimeOff.LeaveLedger.GetTimeOffRequests | controllers/timeOff.js:368-412 | 401, 404; otherwise the two lists are `Scheduled` and `History` of the employee's requests: exactly those ending now or later, and before now, in stored order |
| Profile.ParseHistoryField | controllers/employee.js:131-143 | the allowlist accepts exactly the seven list names, each naming its own list |
| Profile.FieldNamesRoundTrip | controllers/employee.js:131-139 | every list name passes the allowlist and leads back to its list |
| Employee.EditGate | controllers/employee.js:122-163 | the shared checks in order: 401 non-member, 400 allowlist, 404 employee, 500 null role, 401 denied; passes exactly for the owner role or the strict manager |
| Employee.AllowlistBeforeLookup | controllers/employee.js:141-155 | a name outside the allowlist is refused identically whether or not the employee exists |
| Employee.EditRule | controllers/employee.js:157-163 | edit allowed iff owner role or the first stored job entry reports to the caller; an employee with no job entries can be edited only by the owner |
| Employee.IndexOfId | controllers/employee.js:227 | `findIndex` by `_id`: the first match, none before it |
| Employee.RemovedAt | controllers/employee.js:233 | `splice(k, 1)`: one entry fewer, the others in order |
| Employee.RemovedAtIsOneLess | controllers/employee.js:233 | the splice removes exactly one copy of the entry (multiset) |
| Employee.AddEmployeeField | controllers/employee.js:116-176 | after `EditGate`, the value is appended to the named list; all other lists and profile fields are unchanged; errors change nothing |
| Employee.UpdateEmployeeField | controllers/employee.js:253-322 | after `EditGate`, only the first entry with the id is replaced, or 404 "Field item not found" with no change |
| Employee.DeleteEmployeeField | controllers/employee.js:178-248 | after `EditGate`, exactly the first entry with the id is removed, or 404 with no change; the answer is `DeleteMessage(fieldName)` |
| Employee.DeleteMessage | controllers/employee.js:239-241 | first character upper-cased, last character dropped, then " deleted successfully" |
| Employee.DeleteMessageOfAssets | controllers/employee.js:239-241 | "assets" gives "Asset deleted successfully" |
| Employee.DeleteMessageOfEducation | controllers/employee.js:239-241 | "education" gives "Educatio deleted successfully" |
| Employee.VisibleFolders | controllers/employee.js:668-688 | the employee sees the folders for them that are public or that they created; another caller sees the public ones and those NOT created by the caller |
| Employee.PrivateFolderVisibility | controllers/employee.js:678-688 | as written, a manager sees the employee's private folders the employee created and loses only their own private ones |
| Employee.GetFoldersAndFiles | controllers/employee.js:618-694 | 500 non-member, 404; 401 unless lenient manager, owner role or self; otherwise `VisibleFolders` |
| Employee.ChangeFolderAccessibility | controllers/employee.js:562-613 | 500, 404 employee, 404 folder, 401 unless the caller created the folder; otherwise only that folder's `isPrivate` changes |
| Employee.RemoveFile | controllers/employee.js:548 | the filter keeps every other file id with its multiplicity and drops every copy of the file |
| Employee.RemoveFileAppend | controllers/employee.js:548 | the filter distributes over concatenation and keeps a single id exactly when it is not the file's, so the kept ids stay in stored order |
| Employee.RemoveAbsentFile | controllers/employee.js:548 | removing an absent file leaves the list as it was |
| Employee.RemoveFileIdempotent | controllers/employee.js:548 | removing the same file twice is removing it once |
| Employee.DeleteFile | controllers/employee.js:505-557 | 500, 404 employee, 404 folder, 404 "File not found"; succeeds exactly when all are found, and then answers the folder with only its file list changed, to `RemoveFile` of it: the file gone, every other file kept |
| Employee.SortByEffectiveDateDesc | controllers/employee.js:65-67 | the result is sorted by effectiveDate, latest first, and is a permutation of the list |
| Employee.DatedAt | controllers/employee.js:65-67 | the entries of one date, in stored order: only entries of that date, no more than the list holds |
| Employee.InsertDescKeepsTies | controllers/employee.js:65-67 | inserting an entry puts it after the strictly newer entries and ahead of those of its own date, so each date's entries keep their order |
| Employee.SortIsStable | controllers/employee.js:65-67 | `Array.prototype.sort` is stable: for every date, the entries with that date appear in the sorted list in their stored order |
| Employee.GetCompanyEmployees | controllers/employee.js:43-76 | 401 for a non-member; otherwise every job history sorted latest first, a permutation of the stored one, with equal-dated entries in stored order |
| Settings.OwnerTestsDiffer | controllers/setting.js:51-57 | the per-entry owner test implies the array filter but not conversely: an owner elsewhere passes the filter for a company where their role is null |
| Settings.ParseCategory | controllers/setting.js:63-75 | the option allowlist accepts exactly the seven category names |
| Settings.CategoryNamesRoundTrip | controllers/setting.js:63-71 | every category name passes and leads back to its list |
| Settings.Relabel | controllers/setting.js:148-154 | every option with the id gets label = value = the new value; others unchanged; same length |
| Settings.RelabelStable | controllers/setting.js:148-154 | relabelling is idempotent and keeps the ids |
| Settings.DropId | controllers/setting.js:214-216 | the filter keeps exactly the options without the id |
| Settings.DropIdAppend | controllers/setting.js:214-216 | the filter distributes over concatenation and keeps a single option exactly when its id differs, so it keeps the remaining options in their order |
| Settings.DropIdRemovesAll | controllers/setting.js:214-216 | after a delete no option has the id |
| Settings.DropAbsentId | controllers/setting.js:206-216 | with no option to remove the list is unchanged |
| Settings.DropPresentIdShortens | controllers/setting.js:206-216 | a delete that finds the id shortens the list |
| Settings.OptionGate | controllers/setting.js:51-84 | the shared checks in order: 401 owner filter, 400 "Invalid field name", 404 no option lists |
| Settings.AddCompanyEmployeeField | controllers/setting.js:45-93 | after `OptionGate`, one option with label = value = fieldValue is appended to that list only |
| Settings.UpdateCompanyEmployeeField | controllers/setting.js:99-159 | after `OptionGate`, 404 "Field not found" with no change, or the list becomes `Relabel` |
| Settings.DeleteCompanyEmployeeField | controllers/setting.js:165-221 | after `OptionGate`, 404 "Field not found" with no change, or the list becomes `DropId` |
| Settings.PermissionEntry | controllers/setting.js:432-435 | the approver is stored; the specific person only for "specific" |
| Settings.UpdateCompanyPermissions | controllers/setting.js:389-442 | 404 company, 404 user, 500 null role, 401 non-owner, 400 invalid name, 500 invalid approver; otherwise exactly one permission entry changes |
| Settings.SetRoleFor | controllers/setting.js:343-348 | every membership for the company gets the role; the others are untouched |
| Settings.TransferMakesOwner | controllers/setting.js:342-349 | after the transfer the new owner passes both owner tests for the company |
| Settings.DemotedOwnerFilter | controllers/setting.js:331-340 | the demoted owner still passes the owner filter for the company iff they hold the owner role for another company |
| Settings.FirstUserWith | controllers/setting.js:320-323 | the first account whose memberships contain the company and, possibly on another entry, the profile |
| Settings.Demoted | controllers/setting.js:331-340 | the previous owner's account, when found, loses the role for every entry of the company; nobody else changes |
| Settings.Transferred | controllers/setting.js:331-349 | for two different accounts: the previous owner's account loses the role for the company, the new owner's account gets the owner role; nobody else changes |
| Settings.SameAccountTransferDemotes | controllers/setting.js:331-349 | when one account holds both profiles, the state the conflict leaves has that account's first entry for the company without the owner role |
| Settings.UpdateCompanyInfo | controllers/setting.js:264-359 | 404 company, 404 owner role, 404 not allowed; then name, count and country are saved BEFORE the transfer checks, so "New owner not found" and "Employee has not completed onboarding" leave them saved; when one account holds both profiles, 500 with only the demotion saved (the second `save` of the same account carries a stale version); otherwise `Transferred` |
| Onboarding.IssuedTokenLifetime | controllers/onboard.js:141-142 | a fresh token validates until, and not at, now + 86 400 000 ms |
| Onboarding.ClearedTokenRejected | controllers/onboard.js:164-165 | a cleared token validates nothing |
| Onboarding.FindByToken | controllers/onboard.js:20-23 | the first profile whose stored token equals the token and whose expiry is strictly after now |
| Onboarding.LinkCarriesToken | controllers/onboard.js:147 | the link is the client URL, "/onboard/" and exactly the stored token |
| Onboarding.SendOnboardingInvite | controllers/onboard.js:115-171 | 404 company, 404 employee; stores the token with expiry now + 24 h; a failed email clears both before answering 500 |
| Onboarding.CheckOnboardExpiry | controllers/onboard.js:13-35 | 400 empty token, 400 expired when no profile validates it; the first profile that validates it decides: its company's name, or 500 when that company is missing; "expired" exactly when the token is non-empty and no profile validates it |
| Onboarding.AcceptOnboardingInvite | controllers/onboard.js:176-227 | 400, 400, 404 with no change; otherwise the token and expiry are cleared and exactly one (company, role, profile) membership is appended, with no duplicate check |
| Onboarding.FirstUserWithEmail | controllers/onboard.js:43-45 | the first account with the email |
| Onboarding.OnboardRegister | controllers/onboard.js:40-71 | a registered email gives 400 "User already exists" with no change; otherwise one account with no memberships and the hashed password is added |
| Onboarding.OnboardLogin | controllers/onboard.js:76-109 | 400 for a missing email or password before any lookup; success iff the account exists and the password matches |
| Onboarding.LoginFailuresIndistinguishable | controllers/onboard.js:87-96 | an unknown email and a wrong password give the same answer |
| Auth.SecondPiece | middlewares/auth.js:16 | `split(" ")[1]`: none without a space, otherwise the text right after the first space, up to the next space or the end |
| Auth.SelectToken | middlewares/auth.js:11-19 | a "Bearer" header decides alone (the cookie is ignored); otherwise a non-empty cookie |
| Auth.Protect | middlewares/auth.js:7-37 | success iff a non-empty token is selected and verifies; every failure is 401 "Not authorized to access this route" |
| Auth.BearerHeaderToken | middlewares/auth.js:11-16 | "Bearer " + t gives t, whatever the cookie |
| Auth.BearerWithoutToken | middlewares/auth.js:16-24 | "Bearer" and "Bearer  x" are refused even with a cookie token |
| Auth.OtherHeaderUsesCookie | middlewares/auth.js:17-19 | a header not starting with "Bearer" leaves the choice to the cookie |
| FieldDefaults.LabelsAreValues | constants/employeeFieldsConst.js:1-61 | every default option's label equals its value |
| FieldDefaults.ListSizes | constants/employeeFieldsConst.js:1-61 | the list sizes are 4, 7, 4, 6, 8, 6 and 6 |
| FieldDefaults.NoDuplicateValues | constants/employeeFieldsConst.js:1-61 | no list repeats a value |
| FieldDefaults.ExportedNamesMatchAllowlist | constants/employeeFieldsConst.js:63-71 | exactly seven distinct categories are exported, the names the option-list handlers accept |

## Where the code departs from the evident intent

The model follows the code in each of these cases.

- **No Pending guard on approval.** `approveDenyTimeOff` does not check that
  a request is still Pending. Each "Approved" call subtracts the hours again
  (`ApprovedTwiceDeductsTwice`).
- **No single-open-session invariant.** Nothing keeps an employee to one
  open session. Clock-in always appends a row (`ClockInKeepsOpenSession`),
  and start-break overwrites an earlier break start.
- **Empty job information.** The manager test is false for an employee with
  no job information, not true.
- **Remaining hours without a balance.** A leave type with no balance shows
  0 remaining hours, not the policy's default (`FreshEmployeeDetails`).
- **Folder visibility for managers.** The comment in `getFoldersAndFiles`
  says a manager should not see the employee's private folders. The filter
  does let them see the private folders the employee created
  (`PrivateFolderVisibility`).

## Left out

- **HTTP, persistence and server wiring.**
  - Routing, `asyncHandler`, response shapes, `console.log`, `save()`
    calls and server start-up are not modelled.
  - Handlers answer with the changed list, record or message rather than
    the whole document.
- **Foreign calls become parameters.**
  - bcrypt password matching, JWT signing and verification,
    `crypto.randomBytes` and SHA-256 hashing, and email sending are
    parameters (`matches`, `decoded`, `hashedToken`, `emailSent`).
  - `req.user` being set by `protect` is plumbing.
- **Calendar arithmetic.** `setHours`, `setDate`, `getDay` and time zones
  are not modelled. The current time and the starts of today and of the week
  are integer parameters. The clock-in row's `date` and `clockIn` are taken
  as the same instant.
- **Concurrency.** addPublicHoliday's un-awaited async `forEach`, and races
  between requests, are not modelled.
- **Database queries.** Documents found by id or by `{employeeId, company}`
  are inputs.
  - The owner role (`Role.findOne({name: "owner"})`) is assumed to exist
    in the employee and time-off handlers, in the option-list handlers
    (controllers/setting.js:51-57 and its copies) and in
    updateCompanyPermissions (controllers/setting.js:410-414). Where it is
    missing those handlers would crash on `role._id`. Its absence is
    modelled only in `UpdateCompanyInfo`.
  - Mongoose versioning is modelled only for the owner transfer. A `save`
    that replaces a whole array matches on and increments the version key,
    so a second document read of the same account fails to save after the
    first one. Any error thrown is modelled as `Err(500, "Server Error")`.
  - Mongo's order among rows with equal dates is unspecified. `Latest`
    takes the earliest stored one.
- **Mongoose validation, as far as the model goes.** Schema validation is
  modelled only for the `status` and `approver` enums.
  - The schemas omit fields the controllers rely on, such as `companies`,
    `jobInformation`, `leaveBalances` and the Company's `permissions`. The
    records are modelled as the controllers use them. With the Company
    schema as written, the assignment to `company.permissions` at
    controllers/setting.js:437 would throw on every request that passes
    the name check. The success path and the approver check of
    `UpdateCompanyPermissions` rest on the intended permission schema.
  - TimeLog rows keep `clockIn` optional because the lookups test it.
- **The error middleware** (`./middlewares/error`, required by server.js)
  is not part of this model. Thrown errors and values that Mongoose
  rejects on save are ASSUMED to be answered with status 500 and the
  message "Server Error". A middleware that maps a ValidationError to 400,
  or answers with the error's own message, would change those answers. This
  affects the invalid approver in `Settings.UpdateCompanyPermissions` and
  the invalid status in `TimeOff.LeaveLedger.ApproveDeny`, and the status
  and message of every crash listed under "How the model is built".
- Settings.UpdateCompanyPermissions: the 500 for an approver outside the
  enum is the assumed middleware answer above, not one the handler sends.
- TimeOff.LeaveLedger.ApproveDeny: the 500 for a status outside the enum
  is the assumed middleware answer above, not one the handler sends.
- Auth.Protect: assumes a cookie parser fills `req.cookies`, and so does
  `Auth.SelectToken`. The server.js at hand installs none and mounts none of the
  routers that use `protect`. Without one, a request with no "Bearer"
  header would throw on `req.cookies.token` and be answered with a 500,
  where the model uses the cookie token or answers 401.
- Onboarding.OnboardRegister: models the evident success path. The User
  schema requires `jobTitle`, which `create` does not supply, so the stored
  schema would reject the document. That schema is stale: it also lacks the
  `companies` list every controller uses.
- TimeOff.LeaveLedger.ApproveDeny: models the transition at lines 115-143,
  after the checks. As written, line 75 reads an undeclared `companyId` and
  throws before any lookup. The approval check at lines 95-108 is
  `ManagerOrOwner`, stated by `OwnJobEntryAuthorizes`. The 404 for a
  missing approver profile is not modelled.
- TimeOff.AddPublicHoliday: returns the requests the loop builds and stores
  none. Each callback reads an undeclared `note` at line 280. Its
  `leaveType: null` also conflicts with the required `leaveType` of the
  request schema.
- Settings.UpdateCompanyEmployeeField: option ids are modelled as numbers,
  so the case of a hex id is not. The existence check at line 141 uses
  `_id.equals(fieldId)`, which accepts an upper-case id. The relabel at line
  149 compares `toString() === fieldId`, which does not. Such an id gets a
  200 with the list unchanged, where the model relabels.
- Employee.ChangeFolderAccessibility: acts on the profile the lookup is
  meant to return. `findById` is given an object at lines 580-583, which
  cannot match as written.
- **A branch that answers 401 without returning.** It sits at
  controllers/employee.js:660-666 and is modelled as the 401 answer. The
  code falls through and would go on to answer a second time. (The 401 at
  controllers/timeOff.js:108-113 is the first arm of an if/else and
  answers once.)
- **Null dereferences before the membership check.** When
  `user.companies.find` runs before `if (!user)`, a non-member crashes.
  This is modelled as `Err(500, "Server Error")` in `UpdateLeaveBalance`,
  `GetFoldersAndFiles`, `ChangeFolderAccessibility` and `DeleteFile`.
- **Record-creation side effects.** Notification, File and Folder records,
  uploads (`req.file.location`) and holiday CRUD are not modelled. Nor is
  the removal of the File record in `deleteFile`: only the folder's list
  filter is.
- **Handlers outside this core.** `getTimeLogs`, `getEmployeeInfo`,
  `updatePersonalInfo`, `createFolder`, `uploadFile`,
  `uploadProfilePicture`, the signature and notification handlers, the
  settings getters and holiday handlers, and the auth and role controllers
  are not part of this model.
- TimeOff.History: a request with no end date is modelled as unset, so
  neither filter keeps it. An end date stored explicitly as null would
  compare as 0 in JavaScript, and that request would land in history.
- **Numbers.** Hours and durations are unbounded integers. JavaScript
  numbers are doubles, but the values here are whole and small.
