# CityFix core in Dafny

CityFix lets citizens report urban problems (a broken street light, fallen
tree, unsafe crossing) from a mobile app. Administrators follow them up from a
web dashboard. A NestJS backend stores the reports, their media files and an
append-only log of status changes. This project models the parts of the three
programs that decide what is stored, shown and refused:

- **Backend:**
  - the report lifecycle service, a class over the report rows and the status-log rows;
  - the media URL resolver and the response projection;
  - the storage service, a class over the upload directory, the files on disk and the S3 objects;
  - the upload endpoint's check order and file-name repair;
  - the entity enums, defaults and point/simple-array column transformers;
  - the DTO validators, modelled as predicates over a JSON body;
  - login and registration, modelled as functions over opaque hash, compare, sign and user-store functions.
- **Mobile app:**
  - the reports hook, a class whose list updates are append, replace-by-id and remove-by-id;
  - the registration form and its `\S+@\S+\.\S+` pattern;
  - the new-report form: media add/remove, address joining, upload descriptors and payload assembly with the Manduri fallback;
  - the home, my-reports, map and report-details screens' selections, colours, icons and markers;
  - the two translation tables.
- **Admin dashboard:**
  - the auth context, a class over user, token, localStorage and `isAuthenticated`;
  - the login page;
  - the dashboard filter toggle and status summary;
  - the report-details page;
  - the formatters.

A shared module `Js` (js_builtins.dfy) defines the JavaScript and Node built-ins the code relies on:

- `startsWith`, `endsWith`, `includes` and `split`/`join`;
- `trim` with the ECMAScript white-space set;
- `Number`, and `parseInt` with its radix rule;
- Node's POSIX `path.extname`;
- `split('/').pop()`.

Two modules state properties across files:

- `UploadConsistency`: a URL the storage service returns passes through the media URL resolver unchanged.
- `ClientAgreement`: the mobile and admin translation tables agree label for label, and the two video tests disagree on upper-case extensions.

Modelling conventions:

- Numbers and dates:
  - Coordinates are integers: a float such as -23.00056 is the integer −2300056, in units of 1e-5 degree.
  - Timestamps (`createdAt`, `Date.now()`) are integers.
- Inputs and calls the model takes as parameters:
  - the clock and the random suffix;
  - whether a disk write or S3 send succeeds;
  - decoded JWT claims;
  - API responses, given as `Call`/`Option` values;
  - users from the store.
- Client-side statuses and categories are strings, as the JSON delivers them. Unknown values can therefore reach every fallback branch.

## Model

| member | source | states |
|---|---|---|
| ReportEntity.ParseStatus | backend/src/reports/entities/report.entity.ts:13-18 | a stored status text decodes to the enum member whose value it is, and text that is no member's value decodes to nothing |
| ReportEntity.ParseCategory | backend/src/reports/entities/report.entity.ts:20-25 | the same for the category column |
| ReportEntity.ParseRole | backend/src/users/entities/user.entity.ts:12-15 | the same for the user role |
| ReportEntity.StatusEnumeration | backend/src/reports/entities/report.entity.ts:13-18 | there are exactly four statuses with pairwise distinct values, and decoding inverts encoding |
| ReportEntity.CategoryEnumeration | backend/src/reports/entities/report.entity.ts:20-25 | there are exactly four categories with pairwise distinct values, and decoding inverts encoding |
| ReportEntity.Defaults | backend/src/reports/entities/report.entity.ts:38-43 | the column defaults are status `pending` and category `other` (role `citizen` for users) |
| ReportEntity.IntTextPlain | backend/src/reports/entities/report.entity.ts:50-52 | the decimal text of a coordinate holds no `(`, `)` or `,`, so the point text has exactly one separator |
| ReportEntity.ColumnWithoutParentheses | backend/src/reports/entities/report.entity.ts:55 | stripping every parenthesis from `to(p)` leaves `x + "," + y` |
| ReportEntity.PointRoundTrip | backend/src/reports/entities/report.entity.ts:48-61 | `from(to(p))` gives back both coordinates of every point |
| ReportEntity.PointPassThrough | backend/src/reports/entities/report.entity.ts:53-59 | a value that is not a string is returned as it is |
| ReportEntity.PointToColumn | backend/src/reports/entities/report.entity.ts:50-52 | `to`: the text `(x,y)` written for a location |
| ReportEntity.PointFromColumn | backend/src/reports/entities/report.entity.ts:53-59 | `from`: a text loses its parentheses, is split on `,` and its first two parts become numbers; any other value passes through |
| ReportEntity.SimpleArrayRoundTrip | backend/src/reports/entities/report.entity.ts:82-83 | the comma-joined `mediaUrls` column reads back as the same list when no URL holds a comma and the list is not `[""]` |
| ReportEntity.JoinLonger | backend/src/reports/entities/report.entity.ts:82-83 | a list of two or more URLs never becomes the empty column text |
| ReportEntity.SimpleArrayLossy | backend/src/reports/entities/report.entity.ts:82-83 | `[""]` reads back as `[]` and `["a,b"]` as `["a","b"]`: the two side conditions above are needed |
| ReportEntity.ReloadRow | backend/src/reports/entities/report.entity.ts:82-83 | a row as a query loads it: `mediaUrls` read back through the comma-joined column (null stays null), every other column as written |
| ReportEntity.ReloadKeepsPlainMedia | backend/src/reports/entities/report.entity.ts:82-83 | a row whose media URLs hold no comma and are not `[""]` is loaded exactly as it was saved |
| ReportEntity.ReloadIdempotent | backend/src/reports/entities/report.entity.ts:82-83 | loading a loaded row again changes nothing, so what one read loses is lost once |
| ReportEntity.ReloadSplitsCommaUrl | backend/src/reports/entities/report.entity.ts:82-83 | a stored URL `a,b` comes back from any read as the two entries `a` and `b`, and `[""]` as `[]` |
| ReportDto.Strings | backend/src/reports/dto/report.dto.ts:31-34 | an all-strings array becomes the list of those strings, in order |
| ReportDto.ValidCreate | backend/src/reports/dto/report.dto.ts:11-40 | the declared constraints of `CreateReportDto`: string title and description, a category value, an object location, optional string-each media and optional string street name |
| ReportDto.ValidUpdate | backend/src/reports/dto/report.dto.ts:42-72 | the same six constraints, each optional |
| ReportDto.ValidStatusUpdate | backend/src/reports/dto/report.dto.ts:74-83 | a required status value and an optional string comment |
| ReportDto.DecodeCreate | backend/src/reports/dto/report.dto.ts:11-40 | a create body is refused exactly when a declared constraint fails; an accepted one carries the body's title, description, category and location; `streetName`, `imageUrl` and `mediaUrls` are present exactly when given and not null, and then equal the body's text or strings; `status` is present exactly when the body had one |
| ReportDto.DecodeUpdate | backend/src/reports/dto/report.dto.ts:42-72 | an update body is refused exactly when a declared optional constraint fails; each field of the result is set exactly when its key is present, and then to the body's value: title, description, category, location and status as given; `streetName`, `imageUrl` and `mediaUrls` are kept when absent, nulled when null and set to the given text or list otherwise |
| ReportDto.DecodeStatusUpdate | backend/src/reports/dto/report.dto.ts:74-83 | a status body is refused exactly when `status` is no enum value, or when `comment` is present, not null and not a string; the accepted status is the body's, and the comment is present iff given and then is the body's text |
| ReportDto.EmptyTitleAccepted | backend/src/reports/dto/report.dto.ts:12-21 | empty title and description strings pass validation |
| ReportDto.EmptyUpdateAccepted | backend/src/reports/dto/report.dto.ts:42-72 | the empty body is a valid update that changes no field |
| ReportDto.OtherKeysIgnored | backend/src/main.ts:13 | without `whitelist`, a key the decoders do not read changes neither the create nor the update verdict nor the decoded value |
| ReportDto.StatusUndeclared | backend/src/reports/dto/report.dto.ts:11-72 | neither create nor update declares `status`: adding any value under that key changes neither verdict |
| ReportDto.StatusRequired | backend/src/reports/dto/report.dto.ts:74-77 | a status update without a valid enum value is refused |
| ReportDto.BareStringMediaPasses | backend/src/reports/dto/report.dto.ts:58-61 | `@IsString({each: true})` also lets a bare string through as `mediaUrls` |
| ReportsService.Setting | backend/src/reports/reports.service.ts:32-36 | a configuration value is the setting when present and the default otherwise |
| ReportsService.FormatMediaUrl | backend/src/reports/reports.service.ts:59-67 | a URL starting with "http" is returned unchanged, any URL is unchanged under storage type `s3`, and otherwise the result is `apiUrl + "/uploads/" +` the last `/` segment |
| ReportsService.FormatKeepsHttpPrefixed | backend/src/reports/reports.service.ts:60-62 | any text starting with "http", not only a valid scheme, is returned unchanged |
| ReportsService.FormatDropsDirectories | backend/src/reports/reports.service.ts:66 | `dir/name` resolves to `apiUrl/uploads/name`, so "a/b/c.jpg" becomes `{apiUrl}/uploads/c.jpg` |
| ReportsService.FormatIdempotent | backend/src/reports/reports.service.ts:59-67 | with an `apiUrl` starting with "http", resolving twice is the same as resolving once |
| ReportsService.FormatKeepsFileName | backend/src/reports/reports.service.ts:66 | a resolved local URL ends in the same file name as the stored one |
| ReportsService.FormatAll | backend/src/reports/reports.service.ts:54 | the media list keeps its length and order and is resolved element by element |
| ReportsService.MapToResponseDto | backend/src/reports/reports.service.ts:39-57 | `imageUrl` is null when absent or empty and resolved otherwise; `mediaUrls` is resolved element-wise and `[]` when absent; `createdBy` becomes `{id,name,email,role}` or null; every other field is copied |
| ReportsService.CheckOwnerOrAdmin | backend/src/reports/reports.service.ts:112-114 | the check passes exactly for the creator or an admin; another caller gets Forbidden with the operation's message |
| ReportsService.CheckAdmin | backend/src/reports/reports.service.ts:132-140 | the check passes exactly for a present caller with role `admin`; a missing caller and a non-admin get their two Forbidden messages |
| ReportsService.NewReportAsWritten | backend/src/reports/reports.service.ts:73-76 | as written, the row takes the body's fields, the caller as creator, and the body's `status` when it has one, else pending |
| ReportsService.CreateSetsStatusAsWritten | backend/src/reports/reports.service.ts:73-76 | as written, a create body carrying `status: resolved` from a citizen makes a resolved report |
| ReportsService.NewReport | backend/src/reports/reports.service.ts:69-80 | a created report is pending, is created by the caller, and holds the body's fields |
| ReportsService.ApplyUpdateAsWritten | backend/src/reports/reports.service.ts:116 | as written, a `status` in the body replaces the stored one; id, creator and creation date are kept and `updatedAt` moves to the save time |
| ReportsService.AsWrittenDiffersOnlyInStatus | backend/src/reports/reports.service.ts:73-116 | the as-written create and update agree with the intended ones on every column but the status |
| ReportsService.UpdateSetsStatusAsWritten | backend/src/reports/reports.service.ts:116 | as written, an update body carrying `status` changes the status of a pending report |
| ReportsService.ApplyUpdate | backend/src/reports/reports.service.ts:116-117 | each declared field present in the body overwrites the stored one (null included), absent ones are kept, and id, status, creator and creation date never change |
| ReportsService.EmptyUpdateKeepsReport | backend/src/reports/reports.service.ts:116-117 | an empty update changes only the update time |
| ReportsService.Locate | backend/src/reports/reports.service.ts:89-93 | the lookup finds a row with the id, or reports that none has it |
| ReportsService.LocateUnique | backend/src/reports/reports.service.ts:89-93 | with distinct ids, the lookup finds exactly the row holding the id |
| ReportsService.LogsOf | backend/src/reports/reports.service.ts:92 | the loaded status logs all belong to the report and come from the log store |
| ReportsService.LogsOfEmpty | backend/src/reports/reports.service.ts:92 | a report has no logs exactly when no log row names it |
| ReportsService.LogsOfAppend | backend/src/reports/reports.service.ts:143-149 | appending a log adds it at the end of its own report's logs and of no other's |
| ReportsService.RowsOf | backend/src/reports/reports.service.ts:171-177 | every row selected for a user was created by that user |
| ReportsService.RowsOfExact | backend/src/reports/reports.service.ts:171-177 | a row is selected exactly when it is stored and was created by the user |
| ReportsService.RowsOfAfterCreate | backend/src/reports/reports.service.ts:69-80 | after `create`, the caller's reports are their earlier ones followed by the new one |
| ReportsService.MapAll | backend/src/reports/reports.service.ts:82-87 | `find()` then `map(mapToResponseDto)`: one projection per row as the query loads it (ReloadRow), in order |
| ReportsService.RemoveAt | backend/src/reports/reports.service.ts:168 | removing a row keeps every other row, in order |
| ReportsService.ReportsService.constructor | backend/src/reports/reports.service.ts:25-37 | the configuration takes `API_URL` and `STORAGE_TYPE` or their defaults |
| ReportsService.ReportsService.FindOneEntity | backend/src/reports/reports.service.ts:89-98 | NotFound with `Report with ID … not found` exactly when no row has the id, else that row as loaded (its `mediaUrls` read back through the column) with its logs |
| ReportsService.ReportsService.FindOne | backend/src/reports/reports.service.ts:100-103 | the same outcome; a found report is answered as exactly the projection of its loaded row together with its own status logs |
| ReportsService.ReportsService.FindAll | backend/src/reports/reports.service.ts:82-87 | one projection per stored row as loaded (media read back through the column), in order |
| ReportsService.ReportsService.FindByUser | backend/src/reports/reports.service.ts:171-177 | exactly the projections, in table order, of the loaded rows whose creator is that user (with RowsOfExact: a row is answered iff it is stored and created by the user) |
| ReportsService.ReportsService.Create | backend/src/reports/reports.service.ts:69-80 | the new pending report is appended to the rows, the logs are unchanged, and the answer is its projection |
| ReportsService.ReportsService.Update | backend/src/reports/reports.service.ts:105-119 | NotFound comes before the ownership check; a refused update changes nothing; otherwise only that row changes, to `ApplyUpdate` of the loaded row (so kept media are the list read back through the column), the logs stay as they were, and the answer is the saved entity |
| ReportsService.ReportsService.UpdateStatus | backend/src/reports/reports.service.ts:121-159 | NotFound first, then Forbidden for a missing or non-admin caller (the owner included), both with no log written; otherwise exactly one log `{status, comment, changedBy}` is appended and the row takes the requested status, for any pair of old and new status; the answer is the row loaded again after both writes |
| ReportsService.ReportsService.Remove | backend/src/reports/reports.service.ts:161-169 | NotFound, then Forbidden for a non-owner non-admin, then a refusal by the store while logs still name the report; otherwise exactly that row is removed; the logs never change |
| ReportsService.CreateThenFind | backend/src/reports/reports.service.ts:69-103 | a created report is found by id as pending and listed among its creator's reports |
| ReportsService.CreatedMediaFound | backend/src/reports/reports.service.ts:39-103 | the media of a created report are read back in order, each resolved to its URL, when no URL holds a comma and the list is not `[""]` |
| ReportsService.RemovedNotFound | backend/src/reports/reports.service.ts:161-169 | after a removal its id is no longer found and the ids stay distinct |
| ReportsService.StatusChangeVisible | backend/src/reports/reports.service.ts:143-158 | after a status change the refetched row holds the new status and its logs end with the new entry |
| StorageService.MulterFile.constructor | backend/src/reports/reports.controller.ts:157 | an uploaded file carries its field name, original name, mime type, size and bytes |
| StorageService.IsFileTypeAllowed | backend/src/storage/storage.service.ts:100-110 | a mime type is allowed exactly when it is in the list |
| StorageService.GenerateFilename | backend/src/storage/storage.service.ts:94-98 | `{now}-{random}` followed by the original name's extension |
| StorageService.AllowedExactly | backend/src/storage/storage.service.ts:101-108 | the allowed types are exactly the six listed strings, `image/jpg` included |
| StorageService.AllowedAreMedia | backend/src/storage/storage.service.ts:101-108 | every allowed type starts with `image/` or `video/` |
| StorageService.ExtnameOfStem | backend/src/storage/storage.service.ts:94-98 | a digits-and-dash stem followed by an extension has that extension |
| StorageService.GeneratedKeepsOnlyExtension | backend/src/storage/storage.service.ts:94-98 | a generated name depends on the original only through its extension, holds no `/`, and keeps (and ends in) the original's extension |
| StorageService.SavedUrl | backend/src/storage/storage.service.ts:43-84 | storage type `s3` gives `https://{bucket}.s3.amazonaws.com/{now}-{originalname}`; any other type gives `{apiUrl}/{uploadDir}/{generated name}` |
| StorageService.LocalUrlShape | backend/src/storage/storage.service.ts:67 | a local URL starts with `apiUrl` and ends with `/` and the file name |
| StorageService.S3UrlShape | backend/src/storage/storage.service.ts:83 | an S3 URL starts with `https://` and ends with `/` and the key |
| StorageService.StorageService.constructor | backend/src/storage/storage.service.ts:16-41 | the settings or their defaults are taken, and under storage type `local` the upload directory exists |
| StorageService.StorageService.EnsureDirectory | backend/src/storage/storage.service.ts:59-61 | the directory exists afterwards and no file or object changes |
| StorageService.StorageService.WriteFile | backend/src/storage/storage.service.ts:64 | a successful write stores the bytes at the path inside an existing directory; a failed one changes nothing |
| StorageService.StorageService.SaveToLocal | backend/src/storage/storage.service.ts:51-68 | the directory exists before the write, the bytes are stored under the generated name, and the local URL is returned |
| StorageService.StorageService.SaveToS3 | backend/src/storage/storage.service.ts:70-84 | the bytes are stored under `{now}-{originalname}` with the upload's MIME type as content type, and the S3 URL is returned; disk is untouched |
| StorageService.StorageService.SaveFile | backend/src/storage/storage.service.ts:43-49 | the S3 path is taken exactly when the storage type is `s3`; the answer is `SavedUrl` on success, and a failure stores nothing |
| ReportsController.MaxFileSizeAsWritten | backend/src/reports/reports.controller.ts:158-161 | the ceiling as written, `parseInt(setting, 100)` |
| ReportsController.OversizeAcceptedAsWritten | backend/src/reports/reports.controller.ts:158-167 | as written, the ceiling is NaN and no file is refused for its size |
| ReportsController.MaxFileSize | backend/src/reports/reports.controller.ts:158-161 | the intended ceiling, the setting read in base 10 |
| ReportsController.DefaultCeiling | backend/src/reports/reports.controller.ts:158-167 | with no setting the ceiling is 5242880, and a file is too large exactly when it is bigger than that |
| ReportsController.ConfiguredCeiling | backend/src/reports/reports.controller.ts:158-167 | a setting holding the decimal text of n makes n the ceiling |
| ReportsController.RepairedName | backend/src/reports/reports.controller.ts:176-184 | a present `originalname` is kept; a missing one starts with `fieldname || 'file'` and adds `.jpg` for an image type, `.mp4` for a video type and nothing otherwise |
| ReportsController.RepairedNameHasMediaExtension | backend/src/reports/reports.controller.ts:176-184 | for an allowed type, a repaired name ends in `.jpg` for an image and `.mp4` for a video |
| ReportsController.UploadFile | backend/src/reports/reports.controller.ts:142-188 | the intended endpoint, with the base-10 ceiling of MaxFileSize in place of the written radix 100: a file over the interceptor's 100 MiB is refused first and a missing file part fails; then the size is checked against the ceiling, then the type, both before anything is stored or renamed; then the name is repaired and the answer is `{fileUrl}` with exactly the saved URL, with the store changed only by that save (and, under local storage, the upload directory made) |
| UploadConsistency.HttpPrefixTransfers | backend/src/reports/reports.service.ts:60 | "http" at the start of `apiUrl` stays at the start of every URL built from it |
| UploadConsistency.LocalUrlSurvivesFormat | backend/src/storage/storage.service.ts:67 | an upload's local URL passes through the resolver byte for byte when `apiUrl` starts with "http" |
| UploadConsistency.S3UrlSurvivesFormat | backend/src/storage/storage.service.ts:83 | an S3 URL always passes through the resolver unchanged |
| UploadConsistency.SavedUrlSurvivesFormat | backend/src/storage/storage.service.ts:43-49 | every URL `saveFile` returns is shown as stored, given an "http" `apiUrl` for local storage |
| UploadConsistency.RelativeReferenceResolves | backend/src/reports/reports.service.ts:66 | a bare `uploads/name` reference resolves to the same URL the local store hands out |
| AuthService.ValidateUser | backend/src/auth/auth.service.ts:14-21 | a user comes back, without its password, exactly when one is found and the password matches its hash |
| AuthService.Login | backend/src/auth/auth.service.ts:23-39 | Unauthorized('Invalid credentials') exactly when validation fails; otherwise the token signs `{email, sub: id, role}` and the user is `{id,name,email,role}` |
| AuthService.RegistrationError | backend/src/auth/auth.service.ts:60-67 | code 23505 maps to 'Email already exists' and every other failure to 'Registration failed' |
| AuthService.RegistrationRecord | backend/src/auth/auth.service.ts:44-47 | the record stored is the body with only its password replaced by the hash |
| AuthService.Register | backend/src/auth/auth.service.ts:41-68 | hashing, storing and signing run in order inside one catch: the first of them to throw gives RegistrationError of what it threw, and nothing is stored when hashing or storing throws; a signing failure comes after the user is stored; otherwise it answers like login for the stored user |
| AuthService.RegisterSucceedsExactly | backend/src/auth/auth.service.ts:41-68 | registration succeeds exactly when all three steps do, and a refused registration leaves a stored user exactly when only signing failed |
| AuthService.LoginHidesPassword | backend/src/auth/auth.service.ts:17-18 | two users differing only in matching password hashes get the same response |
| AuthService.SamePayload | backend/src/auth/auth.service.ts:29-58 | login and registration give the same response for the same stored user and the same signed token |
| UseReports.Appended | frontend-mobile/src/hooks/useReports.ts:85 | the new report goes at the end and earlier entries are unchanged |
| UseReports.Replaced | frontend-mobile/src/hooks/useReports.ts:100-102 | the length is kept and exactly the entries with the id are replaced |
| UseReports.Removed | frontend-mobile/src/hooks/useReports.ts:137 | no entry with the id is left |
| UseReports.RemovedMembers | frontend-mobile/src/hooks/useReports.ts:137 | an entry stays exactly when it was there and has another id |
| UseReports.RemovedAppend | frontend-mobile/src/hooks/useReports.ts:137 | removal distributes over concatenation, so the remaining entries keep their order |
| UseReports.RemovedAbsent | frontend-mobile/src/hooks/useReports.ts:137 | removing an absent id changes nothing |
| UseReports.ReplaceThenRemove | frontend-mobile/src/hooks/useReports.ts:100-137 | removing after a replacement by the same id is removing alone |
| UseReports.ReplacedAbsent | frontend-mobile/src/hooks/useReports.ts:100-102 | replacing an absent id changes nothing |
| UseReports.ReportsHook.constructor | frontend-mobile/src/hooks/useReports.ts:28-30 | the hook starts with no reports, not loading and no error |
| UseReports.ReportsHook.Begin | frontend-mobile/src/hooks/useReports.ts:42-43 | each operation starts loading with the error cleared |
| UseReports.ReportsHook.HandleError | frontend-mobile/src/hooks/useReports.ts:32-38 | an API error's message becomes the error, and anything else 'An unexpected error occurred' |
| UseReports.ReportsHook.Fetch | frontend-mobile/src/hooks/useReports.ts:40-64 | success replaces the list wholesale; failure keeps it and records the error; loading ends either way |
| UseReports.ReportsHook.GetReport | frontend-mobile/src/hooks/useReports.ts:66-78 | the report or the error is passed on, the list is untouched and loading ends |
| UseReports.ReportsHook.CreateReport | frontend-mobile/src/hooks/useReports.ts:80-92 | success appends the new report; failure keeps the list, records and rethrows the error |
| UseReports.ReportsHook.Update | frontend-mobile/src/hooks/useReports.ts:94-130 | success (of `updateReport` or `updateReportStatus`) replaces the entries with the id; failure keeps the list, records and rethrows |
| UseReports.ReportsHook.DeleteReport | frontend-mobile/src/hooks/useReports.ts:132-144 | success removes every entry with the id; failure keeps the list, records and rethrows |
| AdminAuth.AuthState.constructor | admin-dashboard/src/contexts/AuthContext.tsx:37-41 | the token is the stored one and `isAuthenticated` holds exactly when one is stored |
| AdminAuth.Expired | admin-dashboard/src/contexts/AuthContext.tsx:48-50 | a token whose `exp` is present, non-zero and earlier than now (in seconds) |
| AdminAuth.ClaimsUser | admin-dashboard/src/contexts/AuthContext.tsx:53-58 | the user `{id: sub, email, name or '', role}` built from the claims |
| AdminAuth.AuthState.HandleLogout | admin-dashboard/src/contexts/AuthContext.tsx:92-97 | storage, token and user are cleared and `isAuthenticated` is false |
| AdminAuth.AuthState.TokenEffect | admin-dashboard/src/contexts/AuthContext.tsx:43-65 | no token: nothing changes; an undecodable or expired token: logout; a valid one: the user `{sub, email, name or '', role}` and `isAuthenticated` |
| AdminAuth.AuthState.Login | admin-dashboard/src/contexts/AuthContext.tsx:67-90 | a refused request or a non-admin user throws and changes nothing; an admin login stores and sets the token, sets the user and `isAuthenticated` |
| AdminAuth.LogoutIsFinal | admin-dashboard/src/contexts/AuthContext.tsx:43-97 | after logout, the token effect leaves the state logged out |
| LoginPage.ClassifyLoginError | admin-dashboard/src/pages/LoginPage.tsx:46-53 | status 401 is checked first; otherwise a message containing 'Unauthorized' gives the no-permission message; anything else the generic one |
| LoginPage.NonAdminClassified | admin-dashboard/src/contexts/AuthContext.tsx:76-80 | the error a non-admin login throws is shown as the no-permission message |
| LoginPage.RedirectTarget | admin-dashboard/src/pages/LoginPage.tsx:44 | the redirect goes to `from.pathname` when it is non-empty, and is never empty |
| LoginPage.RenderRedirect | admin-dashboard/src/pages/LoginPage.tsx:25-28 | an authenticated visitor is sent to '/dashboard', and only then |
| LoginPage.LoginForm.constructor | admin-dashboard/src/pages/LoginPage.tsx:16-19 | the form starts empty, not loading, with no error |
| LoginPage.LoginForm.HandleSubmit | admin-dashboard/src/pages/LoginPage.tsx:30-58 | an empty field sets the fill-in error, leaves the loading flag as it was and never calls login; an admin login stores the token (in memory and saved), the user and the authenticated flag, and navigates to the redirect target; a refused login or a non-admin user leaves the whole session and the route as they were and shows the classified error; loading ends on every path past that guard |
| DashboardPage.Visible | admin-dashboard/src/pages/DashboardPage.tsx:51-59 | no filter shows every report; a filter shows exactly the reports with that status |
| DashboardPage.VisibleKeepsOrder | admin-dashboard/src/pages/DashboardPage.tsx:54 | filtering distributes over concatenation, so order is preserved |
| DashboardPage.NextFilter | admin-dashboard/src/pages/DashboardPage.tsx:80-88 | pressing the active status clears the filter, and pressing another one sets it |
| DashboardPage.ToggleTwice | admin-dashboard/src/pages/DashboardPage.tsx:80-88 | pressing the same status twice returns to the start exactly when no filter, or that one, was active |
| DashboardPage.StatusSummary | admin-dashboard/src/pages/DashboardPage.tsx:140-144 | one entry per status, in declaration order, with its count and label |
| DashboardPage.SummaryTotals | admin-dashboard/src/pages/DashboardPage.tsx:140-147 | the counts sum to at most `totalReports`, and to exactly that when every status is known |
| DashboardPage.PercentageLine | admin-dashboard/src/pages/DashboardPage.tsx:261-265 | the percentage is shown exactly when there are reports; it is the share rounded to the nearest integer, and at most 100 |
| DashboardPage.RoundingBounds | admin-dashboard/src/pages/DashboardPage.tsx:263 | the rounded percentage is within one half of the exact share |
| DashboardPage.Dashboard.constructor | admin-dashboard/src/pages/DashboardPage.tsx:39-43 | the page starts with no reports, loading, no filter and no error |
| DashboardPage.Dashboard.SyncFilter | admin-dashboard/src/pages/DashboardPage.tsx:51-59 | the shown list becomes the visible reports for the current filter and nothing else changes |
| DashboardPage.Dashboard.LoadReports | admin-dashboard/src/pages/DashboardPage.tsx:61-74 | success sets both lists and clears the error; failure keeps them and sets the error; loading ends |
| DashboardPage.Dashboard.HandleFilterByStatus | admin-dashboard/src/pages/DashboardPage.tsx:80-88 | the filter becomes `NextFilter` of the old one and nothing else changes |
| DashboardPage.Dashboard.ClearFilter | admin-dashboard/src/pages/DashboardPage.tsx:90-92 | the filter becomes null and nothing else changes |
| ReportDetailsPage.ChipColor | admin-dashboard/src/pages/ReportDetailsPage.tsx:32-37 | a known status takes its table colour and anything else '#757575' |
| ReportDetailsPage.ChipColorsCoverStatuses | admin-dashboard/src/pages/ReportDetailsPage.tsx:192 | the table covers exactly the four statuses, with distinct colours, none of them the fallback |
| ReportDetailsPage.CategoryTranslation | admin-dashboard/src/pages/ReportDetailsPage.tsx:40-53 | the four category labels, else the value itself |
| ReportDetailsPage.StatusTranslation | admin-dashboard/src/pages/ReportDetailsPage.tsx:56-69 | the four status labels, else the value itself |
| ReportDetailsPage.IsVideo | admin-dashboard/src/pages/ReportDetailsPage.tsx:365 | a dot and one of mp4, mov, avi, wmv, flv, webm end the URL, in any letter case |
| ReportDetailsPage.ButtonDisabled | admin-dashboard/src/pages/ReportDetailsPage.tsx:314 | the update button is disabled while updating or when the selection is the current status |
| ReportDetailsPage.DetailsPage.constructor | admin-dashboard/src/pages/ReportDetailsPage.tsx:72-79 | the page starts loading, with no report, no selection, no comment and no error |
| ReportDetailsPage.DetailsPage.FetchReport | admin-dashboard/src/pages/ReportDetailsPage.tsx:82-99 | success shows the report and selects its status, so the update button starts disabled; failure sets the load error; loading ends |
| ReportDetailsPage.DetailsPage.HandleStatusChange | admin-dashboard/src/pages/ReportDetailsPage.tsx:101-103 | only the selection changes |
| ReportDetailsPage.DetailsPage.UpdateStatus | admin-dashboard/src/pages/ReportDetailsPage.tsx:105-121 | no selection: nothing is sent or changed; otherwise the request is sent; on success only the shown status changes and the comment is cleared, which disables the button again; on failure the error is set; updating ends |
| ReportDetailsScreen.RenderMedia | frontend-mobile/src/screens/ReportDetailsScreen.tsx:87-111 | one view per URL, in order, a video player exactly when `isVideo` |
| ReportDetailsScreen.IsVideo | frontend-mobile/src/screens/ReportDetailsScreen.tsx:83-85 | the URL ends with `.mp4`, `.mov` or `.avi`, letter case as written |
| ReportDetailsScreen.UpperCaseVideoShownAsImage | frontend-mobile/src/screens/ReportDetailsScreen.tsx:83-85 | the mobile test is case-sensitive: `.MP4` is shown as an image |
| ReportDetailsScreen.GetStatusColor | frontend-mobile/src/screens/ReportDetailsScreen.tsx:251-264 | each status takes its colour and anything else '#8E8E93' |
| ReportDetailsScreen.StatusColorsDistinct | frontend-mobile/src/screens/ReportDetailsScreen.tsx:251-264 | the four status colours are distinct and none is the fallback |
| ReportDetailsScreen.StatusOptions | frontend-mobile/src/screens/ReportDetailsScreen.tsx:44 | status options appear only off iOS/Android with the menu open, and then they are every status |
| ReportDetailsScreen.DetailsScreen.constructor | frontend-mobile/src/screens/ReportDetailsScreen.tsx:49-52 | the screen starts with no report and the options closed |
| ReportDetailsScreen.DetailsScreen.ToggleStatusOptions | frontend-mobile/src/screens/ReportDetailsScreen.tsx:172 | the button flips the options and nothing else |
| ReportDetailsScreen.DetailsScreen.HandleStatusUpdate | frontend-mobile/src/screens/ReportDetailsScreen.tsx:69-81 | update, then refetch, then show the refetched report and close the options; any failure alerts and leaves the shown report and options; the hook's error is the failing call's message, or cleared when both succeed |
| ClientAgreement.StatusLabelsAgree | frontend-mobile/src/utils/getStatusTranslations.ts:3-16 | the mobile status labels equal the admin formatter's and the details page's for every input |
| ClientAgreement.CategoryLabelsAgree | frontend-mobile/src/utils/getCategoryTranslations.ts:3-16 | the mobile category labels equal the admin formatter's and the details page's for every input |
| ClientAgreement.LowerSuffixIsAdminVideo | admin-dashboard/src/pages/ReportDetailsPage.tsx:365 | a URL ending in a lower-case listed extension is a video to the admin test |
| ClientAgreement.MobileVideoIsAdminVideo | admin-dashboard/src/pages/ReportDetailsPage.tsx:365 | every URL the mobile app plays as a video is a video on the dashboard too |
| ClientAgreement.UpperCaseExtensionDiffers | frontend-mobile/src/screens/ReportDetailsScreen.tsx:83-85 | `.MP4` is a video on the dashboard but not in the mobile app |
| RegisterScreen.DotScanPart | frontend-mobile/src/screens/RegisterScreen.tsx:57 | the scanning test agrees with "`\S+\.\S+` matches somewhere" |
| RegisterScreen.EmailMatchesPattern | frontend-mobile/src/screens/RegisterScreen.tsx:57 | the scanning email test agrees with "`\S+@\S+\.\S+` matches somewhere in the text" |
| RegisterScreen.NoAtNoMatch | frontend-mobile/src/screens/RegisterScreen.tsx:57 | a text without `@` never matches |
| RegisterScreen.ShortestMatch | frontend-mobile/src/screens/RegisterScreen.tsx:57 | any `a@b.c` of non-space characters matches, whatever surrounds it |
| RegisterScreen.MatchIsNotBlank | frontend-mobile/src/screens/RegisterScreen.tsx:55-59 | a matching email is never blank after trim |
| RegisterScreen.FieldErrors | frontend-mobile/src/screens/RegisterScreen.tsx:49-71 | the errors object `validateForm` builds, one optional message per field |
| RegisterScreen.FieldRules | frontend-mobile/src/screens/RegisterScreen.tsx:49-71 | a name error iff the trimmed name is empty; one email error: required if blank, else invalid iff no match; one password error: required if empty, else too short iff under 6 UTF-16 code units; a confirm error iff the passwords differ |
| RegisterScreen.ThreeAstralCharactersSuffice | frontend-mobile/src/screens/RegisterScreen.tsx:64 | three characters outside the Basic Multilingual Plane pass the length rule, since `.length` counts them twice |
| RegisterScreen.ValidExactly | frontend-mobile/src/screens/RegisterScreen.tsx:41-75 | the form is valid exactly when the name is non-blank, the email matches, the password has a JavaScript length of 6 or more and the two passwords agree |
| RegisterScreen.RegistrationAlert | frontend-mobile/src/screens/RegisterScreen.tsx:89-107 | 409 gives the email-in-use alert; another API error its message, or the generic alert when the message is empty; anything else the generic alert |
| RegisterScreen.RegisterForm.constructor | frontend-mobile/src/screens/RegisterScreen.tsx:28-38 | the form starts empty, not loading, with no errors |
| RegisterScreen.RegisterForm.ValidateForm | frontend-mobile/src/screens/RegisterScreen.tsx:41-75 | the recorded errors are the field rules' errors, and the answer is true iff there are none |
| RegisterScreen.RegisterForm.HandleRegister | frontend-mobile/src/screens/RegisterScreen.tsx:77-111 | an invalid form sends nothing and leaves the loading flag; a valid one sends `register(name, email, password)`, then navigates on success or alerts on failure; loading ends |
| NewReportScreen.PickedFile | frontend-mobile/src/screens/NewReportScreen.tsx:135-139 | a picked asset keeps its URI, is a video iff its type is 'video', and its name is the URI's last `/` segment |
| NewReportScreen.PickedFiles | frontend-mobile/src/screens/NewReportScreen.tsx:134-141 | one media file per asset, in order |
| NewReportScreen.WithoutIndexSlices | frontend-mobile/src/screens/NewReportScreen.tsx:453 | removing index i deletes exactly that element and keeps the others in order; an index out of range changes nothing |
| NewReportScreen.PresentParts | frontend-mobile/src/screens/NewReportScreen.tsx:199-200 | only non-empty parts are kept |
| NewReportScreen.PresentPartsMembers | frontend-mobile/src/screens/NewReportScreen.tsx:199-200 | a part is kept exactly when it is present and non-empty |
| NewReportScreen.AddressText | frontend-mobile/src/screens/NewReportScreen.tsx:198-202 | the non-empty parts of street, district, city and region joined with ", " |
| NewReportScreen.AddressTextComplete | frontend-mobile/src/screens/NewReportScreen.tsx:198-202 | four present parts are joined with ", " in the order street, district, city, region |
| NewReportScreen.AddressTextCityOnly | frontend-mobile/src/screens/NewReportScreen.tsx:198-202 | a lone city is the whole address, with no separator |
| NewReportScreen.DeviceAddress | frontend-mobile/src/screens/NewReportScreen.tsx:195-202 | the device location has an address exactly when geocoding found one, and it is that address's joined text |
| NewReportScreen.DeviceLocationStreetName | frontend-mobile/src/screens/NewReportScreen.tsx:195-205 | a device location, once submitted, sends the geocoded text as the street name, or null when geocoding found nothing |
| NewReportScreen.MapPressAddress | frontend-mobile/src/screens/NewReportScreen.tsx:221-260 | a found address gives its joined text; no address or a failure gives 'Localização selecionada no mapa' |
| NewReportScreen.Descriptor | frontend-mobile/src/screens/NewReportScreen.tsx:295-308 | a video is sent as 'video/mp4' and anything else as 'image/jpeg'; the picked name is used when non-empty, else `{now}-{suffix}` plus '.mp4' or '.jpg'; on iOS the first 'file://' is removed |
| NewReportScreen.DescriptorTypeAllowed | frontend-mobile/src/screens/NewReportScreen.tsx:307 | every type the app sends is on the backend's allow-list |
| NewReportScreen.Descriptors | frontend-mobile/src/screens/NewReportScreen.tsx:291-321 | one descriptor per media file, in order, each named with the clock and random text read for that file |
| NewReportScreen.UploadAll | frontend-mobile/src/screens/NewReportScreen.tsx:323 | all uploads succeed exactly when each one does, and then URL k is upload k's |
| NewReportScreen.Payload | frontend-mobile/src/screens/NewReportScreen.tsx:339-373 | the report data sent: title, description, category, image and media URLs, and the chosen or Manduri location |
| NewReportScreen.PayloadMedia | frontend-mobile/src/screens/NewReportScreen.tsx:339-349 | `mediaUrls` are all uploaded URLs in order; `imageUrl` is the first one iff the first file is an image, else '' |
| NewReportScreen.PayloadLocation | frontend-mobile/src/screens/NewReportScreen.tsx:359-373 | a chosen location gives x = longitude, y = latitude and its address; none gives the Manduri coordinates and 'Manduri, São Paulo' |
| NewReportScreen.Uploads | frontend-mobile/src/screens/NewReportScreen.tsx:342-349 | a successful upload round gives one URL per file |
| NewReportScreen.SubmitNeedsText | frontend-mobile/src/screens/NewReportScreen.tsx:331-334 | an empty title or description alerts and nothing is uploaded, sent or cleared |
| NewReportScreen.SubmitUploadFails | frontend-mobile/src/screens/NewReportScreen.tsx:336-388 | a failed upload sends nothing, keeps the form and alerts with the error |
| NewReportScreen.SubmitUploadsSucceed | frontend-mobile/src/screens/NewReportScreen.tsx:336-388 | after all uploads succeed the payload carries every URL in order; the form is cleared with the success alert exactly when creation succeeds, else the error is alerted |
| NewReportScreen.SubmitOutcome | frontend-mobile/src/screens/NewReportScreen.tsx:330-389 | the alert, the payload sent and whether the form is cleared, for one press of submit |
| NewReportScreen.NewReportForm.constructor | frontend-mobile/src/screens/NewReportScreen.tsx:55-64 | the form starts empty with category 'other', no media, no location, not loading |
| NewReportScreen.NewReportForm.AddMedia | frontend-mobile/src/screens/NewReportScreen.tsx:140 | new media are appended after the existing ones and nothing else changes |
| NewReportScreen.NewReportForm.RemoveMedia | frontend-mobile/src/screens/NewReportScreen.tsx:453 | the media list loses exactly the element at the index and nothing else changes |
| NewReportScreen.NewReportForm.ClearForm | frontend-mobile/src/screens/NewReportScreen.tsx:281-287 | title and description empty, category 'other', no media, no location |
| NewReportScreen.NewReportForm.HandleSubmit | frontend-mobile/src/screens/NewReportScreen.tsx:330-389 | the alert and the sent payload are those of the submit outcome; the form is cleared exactly when the outcome says so, else left as it was; loading ends false after any attempt past the guard |
| HomeScreen.Counts | frontend-mobile/src/screens/HomeScreen.tsx:58-66 | each count is the number of reports with that status, and with the rejected count they add up to the number of reports when every status is known |
| HomeScreen.InsertPermutes | frontend-mobile/src/screens/HomeScreen.tsx:69-72 | inserting a report adds exactly that report |
| HomeScreen.InsertKeepsOrder | frontend-mobile/src/screens/HomeScreen.tsx:69-72 | inserting into a newest-first list keeps it newest-first |
| HomeScreen.SortByDateDesc | frontend-mobile/src/screens/HomeScreen.tsx:68-72 | the copy sorted newest first, by insertion |
| HomeScreen.SortByDateDescCorrect | frontend-mobile/src/screens/HomeScreen.tsx:68-72 | the sorted copy is a permutation of the reports, newest first |
| HomeScreen.PrefixIsNewest | frontend-mobile/src/screens/HomeScreen.tsx:73 | a prefix of a newest-first list is newest-first, and nothing after it is newer than anything in it |
| HomeScreen.RecentReports | frontend-mobile/src/screens/HomeScreen.tsx:68-73 | the first three of the sorted copy, or all of it when shorter |
| HomeScreen.RecentReportsCorrect | frontend-mobile/src/screens/HomeScreen.tsx:68-73 | min(3, n) reports, newest first, drawn from the list (all of it when n ≤ 3), and no omitted report newer than an included one |
| HomeScreen.BadgeColour | frontend-mobile/src/screens/HomeScreen.tsx:273-278 | the error colour exactly for pending, the primary colour exactly for in-progress, a literal for anything else |
| HomeScreen.RejectedBadgeIsGreen | frontend-mobile/src/screens/HomeScreen.tsx:273-278 | rejected and every unknown status share resolved's '#2E7D32' |
| ClientReports.WithStatus | frontend-mobile/src/screens/HomeScreen.tsx:58-66 | every report kept has the status |
| ClientReports.WithStatusMembers | frontend-mobile/src/screens/HomeScreen.tsx:58-66 | a report is kept exactly when it is in the list and has the status |
| ClientReports.WithStatusAppend | admin-dashboard/src/pages/DashboardPage.tsx:54 | the status filter distributes over concatenation |
| ClientReports.WithStatusAll | admin-dashboard/src/pages/DashboardPage.tsx:54 | a list whose reports all have the status is kept whole |
| ClientReports.CountStatusIndices | frontend-mobile/src/screens/HomeScreen.tsx:58-66 | `filter(...).length` is the number of positions holding that status |
| ClientReports.CountsPartition | admin-dashboard/src/pages/DashboardPage.tsx:140-147 | the four status counts add up to at most the list length, and to exactly it when every status is known |
| MyReportsScreen.FilteredReports | frontend-mobile/src/screens/MyReportsScreen.tsx:70-72 | 'all' returns the list itself; a status returns exactly the reports with it |
| MyReportsScreen.FilterKeepsOrder | frontend-mobile/src/screens/MyReportsScreen.tsx:70-72 | the filter distributes over concatenation, so order is kept |
| MyReportsScreen.RejectedOnlyUnderAll | frontend-mobile/src/screens/MyReportsScreen.tsx:154-159 | a rejected report is shown under exactly one of the four choices, 'all' |
| MyReportsScreen.CategoryIcon | frontend-mobile/src/screens/MyReportsScreen.tsx:57-68 | road, tree and shield for the three named categories, alert for anything else |
| MyReportsScreen.StatusColour | frontend-mobile/src/screens/MyReportsScreen.tsx:42-55 | each status its colour, rejected '#FF9500', anything else the disabled colour |
| MyReportsScreen.StatusColoursDistinct | frontend-mobile/src/screens/MyReportsScreen.tsx:42-55 | a status's colour differs from that of every other input |
| MapScreen.MarkerColour | frontend-mobile/src/screens/MapScreen.tsx:73-86 | red, blue, green and orange for the four statuses and gray for anything else |
| MapScreen.MarkerColoursDistinct | frontend-mobile/src/screens/MapScreen.tsx:73-86 | a status's pin colour differs from that of every other input |
| MapScreen.MarkerDescription | frontend-mobile/src/screens/MapScreen.tsx:128-132 | the description starts with `category - status`, and is longer exactly when the street name is truthy, the rest then being `" - " + streetName` |
| MapScreen.DescriptionTellsCategory | frontend-mobile/src/screens/MapScreen.tsx:128-132 | reports of different categories get different descriptions |
| MapScreen.DescriptionTellsStatus | frontend-mobile/src/screens/MapScreen.tsx:128-132 | reports of one category but different statuses get different descriptions |
| MapScreen.MarkerOf | frontend-mobile/src/screens/MapScreen.tsx:121-133 | a marker is keyed by id, at latitude = y and longitude = x, with the title and the status's pin colour |
| MapScreen.Markers | frontend-mobile/src/screens/MapScreen.tsx:120-138 | one marker per report, in order |
| MapScreen.MarkerAtSubmittedLocation | frontend-mobile/src/screens/MapScreen.tsx:123-126 | a report submitted from the app is pinned at the chosen latitude and longitude, or at Manduri when none was chosen: the marker inverts the payload's `x = longitude, y = latitude` |
| StatusTranslations.StatusTranslation | frontend-mobile/src/utils/getStatusTranslations.ts:3-16 | the four statuses map to Pendente, Em Andamento, Resolvido, Rejeitado; anything else is returned unchanged |
| StatusTranslations.StatusTranslationInjective | frontend-mobile/src/utils/getStatusTranslations.ts:4-13 | different statuses get different labels |
| CategoryTranslations.CategoryTranslation | frontend-mobile/src/utils/getCategoryTranslations.ts:3-16 | the four categories map to Infraestrutura, Meio Ambiente, Segurança, Outros; anything else is returned unchanged |
| CategoryTranslations.CategoryTranslationInjective | frontend-mobile/src/utils/getCategoryTranslations.ts:4-13 | different categories get different labels |
| Formatters.GetStatusDetails | admin-dashboard/src/utils/formatters.ts:9-42 | the four statuses get their labels, colours warning/info/success/error and icons; anything else its own text, 'default' and no icon |
| Formatters.GetCategoryLabel | admin-dashboard/src/utils/formatters.ts:44-57 | the four categories get their labels; anything else its own text |
| Formatters.StatusDetailsInjective | admin-dashboard/src/utils/formatters.ts:9-34 | different statuses get different labels and colours |
| Formatters.CategoryLabelInjective | admin-dashboard/src/utils/formatters.ts:44-53 | different categories get different labels |
| Js.Split | backend/src/reports/entities/report.entity.ts:55 | `split` gives at least one part and no part holds the separator |
| Js.SplitJoin | backend/src/reports/entities/report.entity.ts:55 | splitting a join of separator-free parts gives the parts back |
| Js.LastSegment | backend/src/reports/reports.service.ts:66 | `split('/').pop()` holds no `/`, ends the text, and follows a `/` when shorter |
| Js.LastSegmentIsLastPart | backend/src/reports/reports.service.ts:66 | it is the last part of `split('/')` |
| Js.LastSegmentAfterSlash | backend/src/reports/reports.service.ts:66 | directories in front of a `/` do not change it |
| Js.RemoveCharsDrops | backend/src/reports/entities/report.entity.ts:55 | `replace(/[()]/g, '')` leaves only characters of the text and none of the removed ones |
| Js.Length | frontend-mobile/src/screens/RegisterScreen.tsx:64 | `.length` is between the number of characters and twice it, and equals the number of characters iff none is astral |
| Js.LengthAllAstral | frontend-mobile/src/screens/RegisterScreen.tsx:64 | a string of astral characters has twice as many code units as characters |
| Js.TrimEmpty | frontend-mobile/src/screens/RegisterScreen.tsx:50 | `trim()` is empty exactly when every character is white space |
| Js.ParseInt | backend/src/reports/reports.controller.ts:158-161 | `parseInt` with a radix from 37 up (or below 2, other than 0) is NaN |
| Js.ParseIntOfNatToString | backend/src/reports/reports.controller.ts:158-161 | base-10 `parseInt` of a decimal text gives the number back |
| Js.NumberOfIntToString | backend/src/reports/entities/report.entity.ts:55 | `Number` of an integer's decimal text gives the integer back |
| Js.Extname | backend/src/storage/storage.service.ts:96 | `path.extname` is empty or a dot followed by neither `/` nor `.` |
| Js.ExtnameOfFileName | backend/src/storage/storage.service.ts:96 | the extension of `stem.e` is `.e` |
| Js.ExtnameWithoutDot | backend/src/storage/storage.service.ts:96 | a name without a dot has no extension |

## Left out

- Repositories, `fs`, the S3 client, multer, both API clients, axios, `jwtDecode`, bcrypt, `JwtService`, `Alert`, navigation, localStorage and AsyncStorage are not modelled as code. Each is an abstract parameter or a field: a user lookup, a compare/hash/sign function, a `Call`/`Option` response, a success flag.
- `Date.now()`, `Math.random()` and the random suffix `toString(36).substring(2, 15)` are parameters.
- Floats are out of scope. Coordinates are integers in units of 1e-5 degree, so `Number` and the point transformer are modelled on integers. Decimal fractions, exponents and NaN coordinates are not modelled.
- Date parsing is out of scope. `createdAt` is an integer and `new Date(…).getTime()` is that integer, so unparsable dates (NaN in the comparator) are not modelled.
- DashboardPage.PercentageLine: rounds the exact share half up. `Math.round((count / total) * 100)` is a float computation, and its binary rounding at exact halves is not modelled.
- HomeScreen.SortByDateDescCorrect: proves the order and the permutation, not that ties keep their original order as the engine's stable `sort` does. Three reports with the same `createdAt` may therefore be selected differently. The source list is never changed, because the model's functions cannot modify it; the copy in `[...reports]` is implicit.
- Js.Extname: states the shape of the extension and its value for plain file names. It does not state every case of Node's `path.extname` for dotfiles and trailing slashes.
- The PayloadTooLarge message (`Max size: …MB`) is a float string and is left out. The error keeps the numeric ceiling instead.
- ReportsController.UploadFile: models the endpoint with the corrected base-10 ceiling (the Findings row below); the radix-100 ceiling as written is MaxFileSizeAsWritten with OversizeAcceptedAsWritten.
- The interceptor's refusal of a file over 100 MiB is the single error `InterceptorTooLarge`; the framework's status code and message for it are not part of this model. A missing file part is the error `MissingFile`, standing for the TypeError that reading `file.size` of `undefined` throws.
- The `userId` of the status caller has no JWT strategy in view, so the caller is a record as the controller's type declares it. `jwt.strategy.ts` is not part of this model.
- `path.join(uploadDir, filename)` is modelled as `uploadDir + "/" + filename`, without path normalisation.
- The `simple-array` column is modelled as `join(',')` and `split(',')`. Every read of the service (findOneEntity, findAll, findByUser, and the reloads inside update and updateStatus) passes `mediaUrls` through it, as ReportEntity.ReloadRow. `create` answers with the entity `save` returns, without a read. The lossy cases `[""]` and URLs with commas are stated by ReportEntity.SimpleArrayLossy and ReportEntity.ReloadSplitsCommaUrl.
- `updateStatus` is two independent writes, a log append and then a status overwrite. They are modelled in sequence; atomicity and concurrent requests are not modelled.
- No cascade is declared on the status-log relation. A report that still has status logs therefore cannot be removed (the store refuses it). This follows the code, not a cascading delete.
- The order in which `findOne` loads the status logs is not given by the code. The model uses insertion order.
- `find()` in `findAll` and `findByUser` has no `order` option, so the database promises no row order. FindAll, FindByUser and RowsOfAfterCreate use table insertion order.
- `console.log`/`console.error` and all rendering, styles and layout are left out.
- Report statistics (StatsPage) are left out: the API client does not define the functions that page calls.
- `getUserLocation` in MapScreen.tsx is never called and is left out. NewReportScreen's `initializeUserLocation` is also never called; its address joining is the same as `getLocation`'s (AddressText).
- `Promise.all` over the uploads is modelled as a sequence. With several failures, the error reported is the first one in file order, not the first one in time.
- The `try`/`catch` in `uploadFiles` never catches an upload failure, because the `Promise.all` it returns is not awaited inside it. Upload errors therefore reach `handleSubmit` unchanged. A create failure is modelled by its message; a non-`Error` rejection and its generic alert are not modelled.
- The `/i` flag of the admin video test is modelled as ASCII lower-casing (`ToLowerAscii`). This is exact: without the `u` flag, case-insensitive matching never maps a non-ASCII character onto an ASCII one, so only ASCII letters can match the six ASCII extensions.
- The `statusColors[report.status]` lookup is modelled as a map over the four keys. Prototype keys such as `constructor` are not modelled.
- Decoded JWT claims are a record, so missing `sub`/`email`/`role` claims are not modelled. A missing `name` is modelled as `Option`.
- The mobile types at frontend-mobile/src/types/index.ts:1 omit 'rejected'. The model uses the four backend statuses for every client, as the JSON delivers them.
- ReportsService.ReportsService.Create: requires a fresh id, because the database generates a new UUID for each report. The model makes that id a parameter.
- AuthService.Register: stores exactly name, email and the hashed password. The source stores `{...registerDto, password}`, and without `whitelist` undeclared body keys such as `role` reach `usersService.create`; users.service.ts and the register DTO are not part of this model, so what the store does with such keys is not modelled.
- ReportDetailsScreen.DetailsScreen.HandleStatusUpdate: takes no `newStatus`. The request body `{ status: newStatus }` goes to the API client, which is a parameter here, so the chosen status is only present through the server's answer `update`.
- AuthService.Login: `jwtService.sign` is a total function here. A throw from it, which `login` does not catch, is not modelled; in `register` it is (AuthService.Register).
- ReportsService.MapToResponseDto: a loaded status log keeps only the id of the user who made the change. `findOneEntity` also loads `statusLogs.changedBy`, and the `...report` spread passes each log's whole user record, password hash included (user.entity.ts declares no `select: false`), into the findOne, update and updateStatus answers; the users table is not part of this model, so that disclosure is not captured.
- DecodeCreate and DecodeUpdate give `OutsideModel`, instead of a DTO, for a valid body that holds one of `id`, `createdBy`, `statusLogs`, `createdAt` or `updatedAt`, or one of these value shapes: a `location` object without numeric `x` and `y`, a bare string for `mediaUrls`, a non-string `imageUrl`, a `status` outside the enum, or (on update) null in `title`, `description`, `category` or `location`. DecodeStatusUpdate never gives it. Every other undeclared key is accepted and ignored (ReportDto.OtherKeysIgnored).
- ReportsService.ReportsService.Update: an accepted body's undeclared keys other than `imageUrl` and `status` are dropped. The source's `Object.assign` copies them onto the entity and the `...report` spread of `mapToResponseDto` echoes them in the answer; that echo is not modelled.

## Findings

| source | as written | input that shows it | evidently intended | confidence | as-written member | corrected member |
|---|---|---|---|---|---|---|
| backend/src/reports/reports.controller.ts:158-161 | `parseInt(MAX_FILE_SIZE, 100)`: radix 100 is outside 2..36, so the ceiling is NaN and `file.size > NaN` is always false | any file larger than 5242880 bytes and at most the interceptor's 100 MiB, with `MAX_FILE_SIZE` unset, is accepted | `parseInt(…, 10)`: files over the ceiling get PayloadTooLarge | high, not executed | ReportsController.OversizeAcceptedAsWritten | ReportsController.DefaultCeiling |
| backend/src/main.ts:13 with backend/src/reports/reports.service.ts:73-76, 116 | `ValidationPipe()` has no `whitelist`, so an undeclared `status` key is kept; `create` spreads and `update` `Object.assign`s it into the entity | a citizen's create body `{…, "status": "resolved"}`, or a PATCH `{"status": "resolved"}` on a pending report | a new report is always pending and `update` never changes the status; status changes go through the admin-only endpoint | medium, not executed | ReportsService.CreateSetsStatusAsWritten, ReportsService.UpdateSetsStatusAsWritten | ReportsService.NewReport, ReportsService.ApplyUpdate |
