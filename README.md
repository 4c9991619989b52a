# ORCA test management: a verified model of its core

ORCA is a test management system. Its Express backend stores test cases in
folders and groups them into test plans whose items record a result
(NOT_RUN, PASS, FAIL, BLOCK). Its React front end lists, selects and
bulk-edits those items. This project models, in Dafny, the parts of that
system that decide something:

- the test-case controller: listing, creation with the next sequence
  number, CSV import with per-row failures, update, and cascading delete.
  It is a `Store` class over a map of rows and a sequence of plan items.
- the zod request schemas of the plan, test-case, auth and admin routes,
  and the `validateBody` middleware that applies them.
- the security middleware: JWT secret resolution and verification, token
  extraction, the role and status gates, the double-submit CSRF guard, and
  the CORS origin test.
- `AppError` and the 404 and error handlers.
- the front-end logic: selection toggling and select-all, the progress
  percentage, the bulk and single item requests of the plan detail page,
  the detail panel and column, the create-plan page's search and submit
  guard, and the API client's cookie lookup and CSRF header interceptor.
- the CI lockfile guard against React 19 and `react-server-dom-*`.

JSON values are the datatype `JsValue.Value`. JavaScript truthiness,
`String()`, property lookup and JSON serialisation are written out in
`js_value.dfy`. The string built-ins (`trim`, `split`, `join`,
`includes`, ASCII case mapping) are in `js_string.dfy`, and a
`Set<string>` is an insertion-ordered duplicate-free `seq` in `js_set.dfy`.
Things the code hands to libraries are parameters of the model:
- the database-generated ids;
- the random CSRF token;
- the `jsonwebtoken` sign and verify calls;
- the URL parser's `origin`;
- `decodeURIComponent`;
- the e-mail check;
- the user's answer to `confirm`.

Where the code and its design disagree, the model follows the code. Two such
places are listed under "## Findings". For each of them the model carries
the code as written, an exhibit of the discrepancy, and the corrected
definition with its property proved.

## Model

| member | source | states |
|---|---|---|
| TestCaseController.FolderWhere | backend/src/controllers/testcaseController.ts:10-11 | the folder filter `String(folderId)` of a truthy query value: a single string as is, a list joined by commas, an object as "[object Object]"; none for an absent or empty value |
| TestCaseController.QueryCoercion | backend/src/controllers/testcaseController.ts:10-11 | `?folderId=a&folderId=b` filters on "a,b"; a bracketed empty parameter filters on "" and lists only cases filed under ""; an absent or empty parameter lists every case |
| TestCaseController.Store.GetTestCases | backend/src/controllers/testcaseController.ts:8-18 | the result is sorted by ascending sequence, holds every stored case the coerced folder filter admits, only such cases as stored, and each id once; an absent or empty `folderId` lists every case |
| TestCaseController.Store.LastSequence | backend/src/controllers/testcaseController.ts:36-40 | the result is the largest sequence in the folder, or 0 for an empty folder |
| TestCaseController.LastSequenceUnique | backend/src/controllers/testcaseController.ts:36-40 | the folder maximum is unique, so the next sequence is determined by the store |
| TestCaseController.Scope | backend/src/controllers/testcaseController.ts:37 | `folderId \|\| null`: the root exactly when the id is falsy, otherwise the id itself |
| TestCaseController.InsertionPoint | backend/src/controllers/testcaseController.ts:15 | the insertion point follows every case with a sequence no larger and precedes every larger one |
| TestCaseController.InsertKeepsSorted | backend/src/controllers/testcaseController.ts:15 | inserting at the insertion point keeps the list in ascending sequence order |
| TestCaseController.InsertMembers | backend/src/controllers/testcaseController.ts:13-16 | insertion keeps every listed case and adds exactly the new one |
| TestCaseController.InsertKeepsIdsDistinct | backend/src/controllers/testcaseController.ts:13-16 | inserting a case with a new id keeps the listed ids distinct |
| TestCaseController.ListStepListed | backend/src/controllers/testcaseController.ts:13-16 | visiting a listed case keeps the listing invariant (sorted, complete so far, only stored cases, distinct ids) |
| TestCaseController.ListStepSkipped | backend/src/controllers/testcaseController.ts:14 | visiting an unlisted case keeps the listing invariant |
| TestCaseController.Store.CreateTestCase | backend/src/controllers/testcaseController.ts:26-55 | a falsy title is answered 400 with the title message and changes nothing; otherwise 201 with the new case stored under the new id, one past the folder's last sequence, priority defaulting to MEDIUM, and the store invariant is kept |
| TestCaseController.NewTestCase | backend/src/controllers/testcaseController.ts:42-53 | the created row carries the given id, title and sequence, MEDIUM for a falsy priority, and the folder scope |
| TestCaseController.WhitelistMapping | backend/src/controllers/testcaseController.ts:100 | without a mapping each whitelisted field is read from the column of the same name, in whitelist order |
| TestCaseController.MapRow | backend/src/controllers/testcaseController.ts:95-112 | a row's draft: the folder scope and MEDIUM priority, then the truthy cell of each entry in use (the explicit mapping when it has entries, else the whitelist) written to its target field, later entries winning |
| TestCaseController.CopyMappedField | backend/src/controllers/testcaseController.ts:102-107 | after the copy loop a field holds the cell of the last entry naming it whose cell is truthy; without such an entry it keeps its earlier value |
| TestCaseController.CopyMappedKeys | backend/src/controllers/testcaseController.ts:102-107 | the copy loop only adds keys that some mapping entry targets |
| TestCaseController.LastCellSkip | backend/src/controllers/testcaseController.ts:103-107 | entries that target other fields do not change what a field receives |
| TestCaseController.WhitelistField | backend/src/controllers/testcaseController.ts:108-111 | without a mapping a whitelisted field takes its same-named cell exactly when that cell is non-empty |
| TestCaseController.WhitelistOnly | backend/src/controllers/testcaseController.ts:100-111 | without a mapping no field outside the whitelist is written |
| TestCaseController.BuildRowData | backend/src/controllers/testcaseController.ts:95-112 | the loop over the mapping entries builds exactly the row's draft (folder scope, MEDIUM priority, copied cells) |
| TestCaseController.Batch | backend/src/controllers/testcaseController.ts:118-121 | the batch never holds more drafts than the file has rows |
| TestCaseController.Failures | backend/src/controllers/testcaseController.ts:114-125 | one failure per title-less row, in row order, at display row index + 2, with the title message and the raw row |
| TestCaseController.BatchIsNumberedValidRows | backend/src/controllers/testcaseController.ts:114-121 | the batch holds exactly the titled rows in file order, numbered consecutively after the folder's last sequence |
| TestCaseController.FailuresAreTitlelessRows | backend/src/controllers/testcaseController.ts:114-125 | each failure is a row without a title, reported at display row index + 2 with the title message and the raw row |
| TestCaseController.FailuresInRowOrder | backend/src/controllers/testcaseController.ts:93-127 | failures are listed in increasing row order |
| TestCaseController.TitlelessRowsAreReported | backend/src/controllers/testcaseController.ts:114-125 | every title-less row is reported as a failure at its display row |
| TestCaseController.CountsAddUp | backend/src/controllers/testcaseController.ts:122-124 | successCount + failureCount is the number of rows |
| TestCaseController.BatchStep | backend/src/controllers/testcaseController.ts:93-122 | processing one more row extends the batch by that row's numbered draft exactly when it has a title |
| TestCaseController.FailuresStep | backend/src/controllers/testcaseController.ts:93-126 | processing one more row extends the failures by that row exactly when it has no title |
| TestCaseController.ImportRows | backend/src/controllers/testcaseController.ts:81-127 | the row loop produces the batch and the failure list of the specification, with counts that add up to the row count |
| TestCaseController.Store.ImportTestCases | backend/src/controllers/testcaseController.ts:63-149 | no file gives 400 and no change; otherwise, when createMany refuses the batch (a key naming no column, or an id taken or repeated), 500 "CSV Import 실패" and no change; else the report of the row loop and a store holding exactly the old rows plus each batch draft under its own mapped id or its generated one, with the store invariant kept |
| TestCaseController.ToTestCase | backend/src/controllers/testcaseController.ts:129-133 | a batch row is stored under the id it is given, which `RowId` picks |
| TestCaseController.InsertBatch | backend/src/controllers/testcaseController.ts:129-133 | the table after createMany: the old rows plus each draft stored as a test case under its id |
| TestCaseController.RowId | backend/src/controllers/testcaseController.ts:103-107 | a draft's own "id" cell, written there by a mapping onto "id", else the generated id |
| TestCaseController.BatchIds | backend/src/controllers/testcaseController.ts:129-133 | the ids createMany stores the batch under, one per draft, each the draft's `RowId` |
| TestCaseController.UnknownColumn | backend/src/controllers/testcaseController.ts:103-105 | some draft holds a key that names no column of the table |
| TestCaseController.BatchRejected | backend/src/controllers/testcaseController.ts:129-149 | createMany fails as a whole: a key names no column, an id is already taken, or one id occurs twice in the batch |
| TestCaseController.InsertBatchKeys | backend/src/controllers/testcaseController.ts:129-133 | createMany adds exactly the batch's ids to the table |
| TestCaseController.InsertBatchKeepsRows | backend/src/controllers/testcaseController.ts:129-133 | createMany leaves the existing rows unchanged |
| TestCaseController.InsertBatchNewRows | backend/src/controllers/testcaseController.ts:129-133 | draft j is stored under id j |
| TestCaseController.InsertBatchKeyed | backend/src/controllers/testcaseController.ts:129-133 | after createMany every row is still keyed by its own id |
| TestCaseController.BatchKeys | backend/src/controllers/testcaseController.ts:95-121 | a batch draft holds only folderId, priority, sequence and the targets of the entries in use |
| TestCaseController.WellMappedImportAccepted | backend/src/controllers/testcaseController.ts:129-133 | when every entry targets a column other than id and the generated ids are fresh and distinct, createMany accepts the batch and stores it under the generated ids |
| TestCaseController.DefaultImportAccepted | backend/src/controllers/testcaseController.ts:100-133 | without a mapping, on a table with the whitelisted columns, createMany accepts the batch |
| TestCaseController.UnknownTargetRejected | backend/src/controllers/testcaseController.ts:103-149 | a titled row with a truthy cell mapped onto a non-column makes createMany refuse the batch, so the import answers 500 |
| TestCaseController.LastCellSome | backend/src/controllers/testcaseController.ts:103-107 | a field targeted by an entry with a truthy cell receives some cell |
| TestCaseController.BatchIndexOf | backend/src/controllers/testcaseController.ts:114-121 | a titled row has a place j in the batch, where its draft carries sequence last + j + 1 |
| TestCaseController.ImportedRowsStored | backend/src/controllers/testcaseController.ts:129-133 | after an accepted createMany, each draft is stored under its `RowId`, which is its own "id" cell when it has one |
| TestCaseController.Store.UpdateTestCase | backend/src/controllers/testcaseController.ts:153-176 | a missing id is answered 404 and changes nothing; otherwise only that row changes, to its patched version |
| TestCaseController.Patch | backend/src/controllers/testcaseController.ts:164-174 | the updated row: each field the body gives replaces the stored one, and absent fields stay |
| TestCaseController.PatchKeepsPlacement | backend/src/controllers/testcaseController.ts:164-174 | an update keeps id, folder and sequence; an empty update changes nothing; applying an update twice equals applying it once |
| TestCaseController.Store.DeleteTestCase | backend/src/controllers/testcaseController.ts:184-199 | a missing id is answered 404 and changes nothing; otherwise the case and exactly the plan items referring to it are removed and the store invariant is kept |
| TestCaseController.WithoutCase | backend/src/controllers/testcaseController.ts:195 | the remaining plan items are exactly those not referring to the deleted case |
| TestCaseController.CascadeRemovesReferencing | backend/src/controllers/testcaseController.ts:194-197 | a case referenced by M plan items loses exactly M of them |
| PlanSchemas.ResultEnum | backend/src/routes/schemas/planSchemas.ts:3 | a result is accepted exactly when it is NOT_RUN, PASS, FAIL or BLOCK; IN_PROGRESS is refused |
| PlanSchemas.CreatePlan | backend/src/routes/schemas/planSchemas.ts:5-10 | a non-empty name, an optional or null description and assignee, and a list of at least one non-empty id |
| PlanSchemas.UpdatePlan | backend/src/routes/schemas/planSchemas.ts:12-16 | an optional non-empty name, an optional or null description and an optional id list |
| PlanSchemas.PlanIdList | backend/src/routes/schemas/planSchemas.ts:18-20 | a list of at least one non-empty plan id |
| PlanSchemas.UpdatePlanItem | backend/src/routes/schemas/planSchemas.ts:22-26 | an optional result from the enum as written, and an optional or null comment and assignee |
| PlanSchemas.BulkUpdatePlanItems | backend/src/routes/schemas/planSchemas.ts:28-37 | at least one non-empty item id, the item fields as in a single update, and a truthy result or a comment or assignee key |
| PlanSchemas.IntendedUpdatePlanItem | backend/src/routes/schemas/planSchemas.ts:22-26 | the single item update with IN_PROGRESS in the enum |
| PlanSchemas.IntendedBulkUpdatePlanItems | backend/src/routes/schemas/planSchemas.ts:28-37 | the bulk item update with IN_PROGRESS in the enum |
| PlanSchemas.CreatePlanNeeds | backend/src/routes/schemas/planSchemas.ts:5-10 | an accepted plan has a non-empty name and at least one case id, none of them empty |
| PlanSchemas.PlanIdListNeeds | backend/src/routes/schemas/planSchemas.ts:18-20 | an empty plan id list, or one holding an empty id, is refused |
| PlanSchemas.EmptyUpdatesAccepted | backend/src/routes/schemas/planSchemas.ts:12-26 | every field of the plan and plan-item updates is optional, and a plan's case list may be set to empty |
| PlanSchemas.BulkRefinement | backend/src/routes/schemas/planSchemas.ts:28-37 | a well-shaped parsed bulk update is accepted exactly when it carries a result, a comment or an assignee key (`null` counts) |
| PlanSchemas.InProgressRejected | backend/src/routes/schemas/planSchemas.ts:3 | both plan-item schemas refuse IN_PROGRESS; the intended ones accept it |
| PlanSchemas.IntendedAcceptsOffered | backend/src/routes/schemas/planSchemas.ts:22-37 | the intended schemas accept every result the screens offer and everything the schemas as written accept |
| PlanSchemas.ParsedBodiesStayValid | backend/src/routes/schemas/planSchemas.ts:5-37 | the stripped body that parsing returns still satisfies its schema |
| TestCaseSchemas.Text | backend/src/controllers/testcaseController.ts:28 | a field is read as text exactly when it is a string |
| TestCaseSchemas.CreateTestCase | backend/src/routes/schemas/testcaseSchemas.ts:6-16 | a non-empty title, optional text fields, priority and automation type from their enums, and an optional or null category and folder |
| TestCaseSchemas.UpdateTestCase | backend/src/routes/schemas/testcaseSchemas.ts:18-27 | the create fields without the folder, each optional, the title non-empty when given |
| TestCaseSchemas.ReorderTestCases | backend/src/routes/schemas/testcaseSchemas.ts:29-31 | a list of at least one non-empty id |
| TestCaseSchemas.BulkUpdateTestCases | backend/src/routes/schemas/testcaseSchemas.ts:33-44 | at least one non-empty id, the bulk fields, and a truthy priority or automation type or a category or folder key |
| TestCaseSchemas.BulkDeleteTestCases | backend/src/routes/schemas/testcaseSchemas.ts:46-48 | a list of at least one non-empty id |
| TestCaseSchemas.MoveTestCases | backend/src/routes/schemas/testcaseSchemas.ts:50-53 | at least one non-empty id and an optional or null target folder |
| TestCaseSchemas.ValidatedCreate | backend/src/routes/schemas/testcaseSchemas.ts:6-16 | an accepted create body never meets the controller's missing-title reply, and its stored priority is LOW, MEDIUM or HIGH |
| TestCaseSchemas.EnumsClosed | backend/src/routes/schemas/testcaseSchemas.ts:3-4 | a priority or automation type outside its enum is refused on create and on update |
| TestCaseSchemas.UpdateTitleAndFolder | backend/src/routes/schemas/testcaseSchemas.ts:18-27 | an update may omit the title but not send an empty one; a parsed update carries no folder; the empty update is accepted |
| TestCaseSchemas.IdListsNonEmpty | backend/src/routes/schemas/testcaseSchemas.ts:29-53 | reorder, bulk update, bulk delete and move refuse an empty id list and an empty id |
| TestCaseSchemas.BulkRefinement | backend/src/routes/schemas/testcaseSchemas.ts:33-44 | a well-shaped parsed bulk update is accepted exactly when it sets a priority or automation type, or names a category or folder (`null` counts) |
| TestCaseSchemas.ParsedBodiesStayValid | backend/src/routes/schemas/testcaseSchemas.ts:6-53 | the stripped body that parsing returns still satisfies its schema |
| AuthSchemas.Register | backend/src/routes/schemas/authSchemas.ts:3-7 | a well-formed e-mail, a password of six or more characters and a non-empty name |
| AuthSchemas.Login | backend/src/routes/schemas/authSchemas.ts:9-12 | a well-formed e-mail and a non-empty password |
| AuthSchemas.UpdateProfile | backend/src/routes/schemas/authSchemas.ts:14-16 | a non-empty name |
| AuthSchemas.ChangePassword | backend/src/routes/schemas/authSchemas.ts:18-21 | a non-empty current password and a new one of six or more characters |
| AuthSchemas.RegisterExactly | backend/src/routes/schemas/authSchemas.ts:3-7 | registration is accepted exactly for a well-formed e-mail, a password of six or more characters and a non-empty name |
| AuthSchemas.LoginExactly | backend/src/routes/schemas/authSchemas.ts:9-12 | login is accepted exactly for a well-formed e-mail and a non-empty password, however short |
| AuthSchemas.ProfileAndPassword | backend/src/routes/schemas/authSchemas.ts:14-21 | a profile update needs a non-empty name; a password change needs a current password and a new one of six or more characters |
| AuthSchemas.RegisterImpliesLogin | backend/src/routes/schemas/authSchemas.ts:3-12 | every registrable body is also a valid login body |
| AdminSchemas.ApproveUser | backend/src/routes/schemas/adminSchemas.ts:3-6 | a well-formed e-mail and the action approve or reject |
| AdminSchemas.UpdateUserRole | backend/src/routes/schemas/adminSchemas.ts:8-11 | a well-formed e-mail and the role USER or ADMIN |
| AdminSchemas.UpdateUserStatus | backend/src/routes/schemas/adminSchemas.ts:13-16 | a well-formed e-mail and the status ACTIVE, REJECTED or PENDING |
| AdminSchemas.ResetPassword | backend/src/routes/schemas/adminSchemas.ts:18-21 | a well-formed e-mail and a new password of six or more characters |
| AdminSchemas.AdminExactly | backend/src/routes/schemas/adminSchemas.ts:3-21 | with a well-formed e-mail each admin body is accepted exactly when its second field is one of its listed values, or six or more characters for a reset |
| AdminSchemas.AdminNeedsEmail | backend/src/routes/schemas/adminSchemas.ts:3-21 | an ill-formed e-mail fails every admin body |
| ZodFields.Ids | backend/src/routes/schemas/planSchemas.ts:8 | the ids of an accepted id list are its non-empty string elements, in order |
| ZodFields.StrList | backend/src/routes/schemas/planSchemas.ts:8 | a list of non-empty strings is an accepted id list whose ids are those strings |
| ZodFields.Strip | backend/src/middleware/validate.ts:7 | parsing keeps exactly the declared keys that are present, with their values |
| ZodFields.StripIdempotent | backend/src/middleware/validate.ts:7 | parsing a parsed body again changes nothing |
| Validate.Decide | backend/src/middleware/validate.ts:6-14 | the middleware continues exactly on a successful parse, with the parsed body; a schema error answers 400 with the issue messages joined by ", "; any other throw answers 400 with the fixed message |
| Validate.OnlyContinueOr400 | backend/src/middleware/validate.ts:8-14 | every call continues or answers 400 with success false |
| Validate.IssueMessagesInOrder | backend/src/middleware/validate.ts:11 | the message lists the issue messages in order, separated by ", " |
| Validate.SchemaParse | backend/src/middleware/validate.ts:7 | the parse succeeds exactly when the schema accepts an object body |
| Validate.PlanRoutesGetValidBodies | backend/src/routes/plans.ts:29-45 | the create-plan and bulk item routes hand their controller only bodies their schemas accept |
| Validate.TestCaseRoutesGetValidBodies | backend/src/routes/testcases.ts:29-34 | the test-case create and update routes hand on only bodies their schemas accept |
| Validate.Request.ValidateBody | backend/src/middleware/validate.ts:4-16 | the request body is replaced by the parsed value exactly on success, and the answer is the middleware's decision |
| Jwt.ResolveJwtSecret | backend/src/utils/jwt.ts:14-24 | the secret as set when its trim is non-empty, else the production failure, else the development secret |
| Jwt.ExpiresIn | backend/src/utils/jwt.ts:4 | the expiry is `JWT_EXPIRES_IN` when it is non-empty, else "7d" |
| Jwt.SecretResolution | backend/src/utils/jwt.ts:14-24 | a secret with a non-blank trim is used verbatim; otherwise production fails and anything else falls back to the development secret |
| Jwt.SecretNotTrimmed | backend/src/utils/jwt.ts:15 | a padded secret is used with its padding; a whitespace-only one counts as missing |
| Jwt.VerifyToken | backend/src/utils/jwt.ts:38-44 | the payload the library accepts under the resolved secret; every failure, the missing secret included, is "Invalid or expired token" |
| Jwt.GenerateToken | backend/src/utils/jwt.ts:29-33 | the library's signature under the resolved secret and expiry, or the missing-secret failure |
| Jwt.VerifyNormalisesErrors | backend/src/utils/jwt.ts:38-44 | every verification failure, the missing production secret included, reports "Invalid or expired token"; success exactly when the library accepts the token under the resolved secret |
| Jwt.GenerateSurfacesMissingSecret | backend/src/utils/jwt.ts:29-33 | signing surfaces the missing production secret as such, and otherwise signs with the resolved secret and expiry |
| AuthMiddleware.BearerToken | backend/src/middleware/auth.ts:21 | the header's bearer piece is never an empty token |
| AuthMiddleware.ExtractToken | backend/src/middleware/auth.ts:21-23 | the bearer piece when it is non-empty, else a non-empty cookie, else none |
| AuthMiddleware.AnySchemeWord | backend/src/middleware/auth.ts:21 | the scheme word is not checked: any "X y" header yields y and the cookie is not consulted |
| AuthMiddleware.EmptyBearerFallsBack | backend/src/middleware/auth.ts:21-23 | a header with nothing after its first space falls back to the cookie |
| AuthMiddleware.AuthenticateToken | backend/src/middleware/auth.ts:19-43 | no token gives the missing-token 401, a token that fails verification the invalid-token 401, else the decoded user |
| AuthMiddleware.Outcomes | backend/src/middleware/auth.ts:25-41 | no token gives the first 401, a rejected token the second, an accepted one the decoded user |
| AuthMiddleware.ProductionWithoutSecretLocksOut | backend/src/middleware/auth.ts:33-41 | in production without a usable secret no request authenticates |
| AuthMiddleware.AdminChain | backend/src/middleware/roleCheck.ts:8-25 | authentication followed by the admin gate reaches the handler exactly for a token that verifies to an ADMIN user |
| RoleCheck.RequireAdmin | backend/src/middleware/roleCheck.ts:8-26 | no user gives 401, a role other than ADMIN 403, else pass |
| RoleCheck.RequireActive | backend/src/middleware/roleCheck.ts:32-50 | no user gives 401, a status other than ACTIVE 403, else pass |
| RoleCheck.MissingUserFirst | backend/src/middleware/roleCheck.ts:9-15 | a missing user is answered 401 by both gates; a present user never is |
| RoleCheck.GatesExactly | backend/src/middleware/roleCheck.ts:8-50 | each gate passes exactly for a present user with role ADMIN or status ACTIVE, and otherwise answers 401 or 403 |
| RoleCheck.GatesIndependent | backend/src/middleware/roleCheck.ts:17-47 | an inactive admin passes the role gate and is refused 403 by the status gate |
| Csrf.TokenCookie | backend/src/middleware/csrf.ts:11-17 | the csrf_token cookie: the token, readable by scripts, secure in production, lax, 604800000 ms, path / |
| Csrf.ComparisonToken | backend/src/middleware/csrf.ts:26-27 | the token cookie the request sent, even an empty one, else the fresh token |
| Csrf.Check | backend/src/middleware/csrf.ts:34-47 | login and register paths pass; an unsafe request with a session cookie and no bearer header passes only with a trimmed header that is non-empty and equals the token; everything else passes |
| Csrf.OnlyForbidden | backend/src/middleware/csrf.ts:39-47 | the guard either continues or answers 403 "Invalid CSRF token" |
| Csrf.ExemptRequestsPass | backend/src/middleware/csrf.ts:22-37 | safe methods in any letter case and the login and register paths always pass |
| Csrf.OnlySessionCookieIsChecked | backend/src/middleware/csrf.ts:30-39 | without a session cookie, or with a bearer header, no token is required |
| Csrf.CheckedRequests | backend/src/middleware/csrf.ts:39-44 | a checked request passes exactly when its trimmed header is non-empty and equals the token |
| Csrf.EmptyCookieBlocks | backend/src/middleware/csrf.ts:26-27 | an empty token cookie is kept as the token, no new one is issued, and no checked request passes |
| Csrf.IssuedCookieAttributes | backend/src/middleware/csrf.ts:9-19 | a cookie is issued exactly when none was sent; it holds the fresh token, is readable by scripts, lax, site-wide, and lives 604800000 ms |
| Csrf.Response.IssueToken | backend/src/middleware/csrf.ts:9-19 | the token cookie is appended to the response and its value returned |
| Csrf.Response.CsrfProtection | backend/src/middleware/csrf.ts:21-48 | the decision is the check against the existing or freshly issued token, and a cookie is written exactly when none existed |
| Cors.StripTrailingSlashes | backend/src/app.ts:36 | the result is the input without its trailing run of slashes |
| Cors.TrimmedNonEmpty | backend/src/app.ts:33 | the extra origins are exactly the non-blank comma pieces, trimmed |
| Cors.Normalise | backend/src/app.ts:35-36 | the list holds exactly the non-empty candidates without their trailing slashes |
| Cors.AllowedOrigins | backend/src/app.ts:29-36 | the two fixed origins, FRONTEND_URL and the trimmed non-blank pieces of CORS_ALLOWED_ORIGINS, empty ones dropped and trailing slashes removed |
| Cors.AllowListShape | backend/src/app.ts:29-36 | the two fixed origins are always listed, and no entry ends in a slash |
| Cors.AllowListSources | backend/src/app.ts:32-36 | FRONTEND_URL and each non-blank comma piece of CORS_ALLOWED_ORIGINS are listed, normalised |
| Cors.DefaultAllowList | backend/src/app.ts:29-36 | with no environment set exactly the two fixed origins are listed |
| Cors.IsOriginAllowed | backend/src/app.ts:40-52 | a missing or empty origin passes; otherwise its parsed origin, or the string itself when parsing fails, passes when it equals or starts with a listed entry, or ends in `.vercel.app` with previews allowed |
| Cors.CorsCallback | backend/src/app.ts:56-59 | allow when the origin test passes, else refuse with "Not allowed by CORS" |
| Cors.IsOriginAllowedExact | backend/src/app.ts:40-52 | the corrected origin test: as the one written, but the effective origin must equal a listed entry |
| Cors.ExactCorsCallback | backend/src/app.ts:56-59 | the callback built on the corrected origin test: allow, or "Not allowed by CORS" |
| Cors.NoOriginAllowed | backend/src/app.ts:41 | a missing or empty Origin header is allowed |
| Cors.SlashOnlyEntryAdmitsAll | backend/src/app.ts:36-49 | an entry made only of slashes normalises to "" and then every origin passes |
| Cors.VercelPreviews | backend/src/app.ts:38-50 | with the flag set, any `.vercel.app` origin passes; the flag is "true" in any letter case |
| Cors.OthersRejected | backend/src/app.ts:49-58 | an origin that is unlisted, extends no entry and is no admitted preview is refused with "Not allowed by CORS" |
| Cors.PrefixAdmitsLookalike | backend/src/app.ts:49 | in every environment the prefix test admits `http://localhost:51730`, `http://localhost:5173.attacker.example` and `https://tmsv2-production.up.railway.app.attacker.example`, whether the URL parser returns them unchanged or fails on them |
| Cors.ParsesToItself | backend/src/app.ts:42-47 | the URL parser either fails on the origin or returns it unchanged, so the origin itself is what is compared |
| Cors.ExtensionAdmitted | backend/src/app.ts:42-49 | an origin that extends a listed entry, and that the parser fails on or keeps, is allowed |
| Cors.LookalikeUnlisted | backend/src/app.ts:29-31 | none of the three look-alikes is a fixed origin |
| Cors.ExactRefusesUnlisted | backend/src/app.ts:26-27 | under the default environment the exact-match test refuses every non-empty origin that parses to itself or fails to parse and is neither fixed origin |
| Cors.ExactRefusesLookalike | backend/src/app.ts:26-27 | the exact-match test refuses all three look-alikes under the default environment |
| Cors.ExactAdmitsOnlyListed | backend/src/app.ts:26-51 | the exact-match test admits an origin exactly when it is listed or an admitted preview, and admits nothing the prefix test refuses |
| AppErrors.NewAppError | backend/src/errors/AppError.ts:5-15 | the error named AppError, with the given status and body and the message derived from the argument or the body |
| AppErrors.MessageDerivation | backend/src/errors/AppError.ts:5-15 | the message is the explicit argument when given (even ""), else `String(body.message)` for an object body with that key, else "AppError"; name, status and body are kept as given |
| AppErrors.MessageExamples | backend/src/errors/AppError.ts:7-10 | a string message is taken as is, a number in decimal, null as "null", and non-object bodies give "AppError" |
| ErrorHandlers.NotFoundHandler | backend/src/middleware/errorHandlers.ts:4-9 | the reply is 404 with success false and the not-found message |
| ErrorHandlers.ErrorHandler | backend/src/middleware/errorHandlers.ts:11-38 | nothing once headers are sent; an AppError's status and body; anything else 500 with the fixed message and, in development only, the error detail |
| ErrorHandlers.AppErrorPassesThrough | backend/src/middleware/errorHandlers.ts:15-22 | nothing is written once headers are sent; an AppError is answered with exactly its status and body |
| ErrorHandlers.OtherErrorsAre500 | backend/src/middleware/errorHandlers.ts:24-37 | any other error gives 500, success false and the fixed message; the `error` detail is present exactly in development, and it is the Error's message, the thrown string or "Unknown error" |
| ErrorHandlers.AppErrorReply | backend/src/middleware/errorHandlers.ts:19-21 | an AppError's own body decides the reply, not its message |
| Selection.Toggle | frontend/src/pages/PlanDetailPage.tsx:130-138 | the toggled selection has no duplicates |
| Selection.ToggleFlipsOne | frontend/src/pages/PlanDetailPage.tsx:130-138 | toggling flips the membership of that id and of no other, and changes the size by one |
| Selection.ToggleTwice | frontend/src/pages/CreatePlanPage.tsx:49-57 | toggling twice restores members and size; order too when the id was absent, while a removed id comes back last |
| Selection.IdsOf | frontend/src/pages/PlanDetailPage.tsx:145 | the ids of the rows, one per row, in order |
| PlanDetailPage.ToggleSelect | frontend/src/pages/PlanDetailPage.tsx:130-138 | only the item's membership flips; the bulk choices stay |
| PlanDetailPage.SelectAll | frontend/src/pages/PlanDetailPage.tsx:140-147 | equal sizes clear the selection; otherwise it becomes exactly the plan's item ids, without duplicates |
| PlanDetailPage.Count | frontend/src/pages/PlanDetailPage.tsx:219-222 | a result count never exceeds the number of items |
| PlanDetailPage.RoundHalfUp | frontend/src/pages/PlanDetailPage.tsx:223 | `Math.round(a / b)`: the integer r with r - 1/2 <= a/b < r + 1/2 |
| PlanDetailPage.Progress | frontend/src/pages/PlanDetailPage.tsx:217-223 | the share of items not NOT_RUN as a rounded percentage, 0 for an empty plan |
| PlanDetailPage.CountsWithinTotal | frontend/src/pages/PlanDetailPage.tsx:219-222 | the four result counts add up to at most the total |
| PlanDetailPage.PercentBounds | frontend/src/pages/PlanDetailPage.tsx:223 | a rounded percentage of e out of t lies in 0..100, is 100 for e = t and 0 for e = 0 |
| PlanDetailPage.ProgressBounds | frontend/src/pages/PlanDetailPage.tsx:217-223 | progress lies in 0..100, is 100 with nothing left to run and 0 with nothing run |
| PlanDetailPage.PercentMono | frontend/src/pages/PlanDetailPage.tsx:223 | more executed items never give a lower percentage |
| PlanDetailPage.OnlyNotRunLowersProgress | frontend/src/pages/PlanDetailPage.tsx:222-223 | changing a NOT_RUN item to any other result, IN_PROGRESS included, lowers the NOT_RUN count by one and never lowers progress |
| PlanDetailPage.CountChange | frontend/src/pages/PlanDetailPage.tsx:222 | changing one NOT_RUN item to another result lowers the NOT_RUN count by exactly one |
| PlanDetailPage.ProgressExamples | tests/plan_execution.spec.ts:65-98 | an empty plan and three NOT_RUN items show 0, one executed item of three shows 33, and PASS, FAIL, FAIL shows 100 |
| PlanDetailPage.BulkPayload | frontend/src/pages/PlanDetailPage.tsx:193-195 | the selected ids, plus the result and the assignee only when chosen |
| PlanDetailPage.HandleBulkUpdate | frontend/src/pages/PlanDetailPage.tsx:186-204 | no plan, no selection, nothing chosen or no confirmation stop before the request, in that order; otherwise the bulk payload is sent |
| PlanDetailPage.AfterBulkUpdate | frontend/src/pages/PlanDetailPage.tsx:203-211 | success clears the selection and both choices; failure keeps the state |
| PlanDetailPage.BulkRequestShape | frontend/src/pages/PlanDetailPage.tsx:186-212 | a bulk request goes out exactly with a plan, a selection, a chosen result or assignee and confirmation; it carries exactly the selection and the chosen fields, never a comment; success resets the state and failure keeps it |
| PlanDetailPage.BulkRequestValid | frontend/src/pages/PlanDetailPage.tsx:193-195 | the bulk request passes the schema for known results, is refused for IN_PROGRESS, and passes the intended schema for every offered result |
| PlanDetailPage.ResultChange | frontend/src/pages/PlanDetailPage.tsx:149-152 | a result change is sent for the item exactly when a plan is open |
| PlanDetailPage.AssigneeChange | frontend/src/pages/PlanDetailPage.tsx:176-184 | an assignee update is sent for the item exactly when a plan is open; its body has only the assignee key, `undefined` for no assignee and the chosen name otherwise |
| PlanDetailPage.SaveComment | frontend/src/pages/PlanDetailPage.tsx:165-168 | a comment is sent for the edited item exactly when a plan is open and an item is being edited |
| PlanDetailPage.EmptyAssigneeIsOmitted | frontend/src/pages/PlanDetailPage.tsx:179 | choosing no assignee sends `undefined`, which the JSON body leaves out, so the request is the empty update; a chosen name is sent as is |
| PlanItemDetail.OrEmpty | frontend/src/components/TestCaseDetailPanel.tsx:31-32 | `x \|\| ''`: the value when present, else "" |
| PlanItemDetail.Sync | frontend/src/components/TestCaseDetailColumn.tsx:30-36 | showing an item copies its result, assignee and comment into the local state; no item keeps the state |
| PlanItemDetail.Send | frontend/src/components/TestCaseDetailPanel.tsx:55-75 | the one-key update for the shown item, none without an item |
| PlanItemDetail.ResultChange | frontend/src/components/TestCaseDetailPanel.tsx:55-61 | the new result is kept locally and sent as a one-field update exactly when an item is shown |
| PlanItemDetail.AssigneeChange | frontend/src/components/TestCaseDetailColumn.tsx:58-64 | the chosen name is kept and sent as is, "" for Unassigned, exactly when an item is shown |
| PlanItemDetail.CommentSave | frontend/src/components/TestCaseDetailPanel.tsx:71-75 | the locally edited comment is sent exactly when an item is shown |
| PlanItemDetail.UpdatesAreSchemaValid | frontend/src/components/TestCaseDetailPanel.tsx:190-200 | every update the views send passes the intended item schema; as written, only the IN_PROGRESS result is refused |
| PlanItemDetail.SaveAfterSync | frontend/src/components/TestCaseDetailColumn.tsx:30-70 | saving right after an item is shown sends back the comment it was shown with |
| PlanItemDetail.NonBlank | frontend/src/components/TestCaseDetailPanel.tsx:110 | the kept lines are exactly the non-blank ones |
| PlanItemDetail.Steps | frontend/src/components/TestCaseDetailPanel.tsx:110 | the non-blank lines of the steps text, untrimmed; none without a text |
| PlanItemDetail.StepsAreLines | frontend/src/components/TestCaseDetailPanel.tsx:110 | the listed steps are exactly the non-blank lines, none holds a newline, and a missing or empty text lists none |
| PlanItemDetail.StepsRoundTrip | frontend/src/components/TestCaseDetailColumn.tsx:105 | a text without blank lines is its steps joined by newlines |
| PlanItemDetail.StepsOfLines | frontend/src/components/TestCaseDetailColumn.tsx:105 | steps written one per line are listed back unchanged |
| PlanItemDetail.StatusLabel | frontend/src/components/TestCaseDetailPanel.tsx:96-107 | NOT STARTED, IN PROGRESS and BLOCKED for NOT_RUN, IN_PROGRESS and BLOCK; any other status as is |
| PlanItemDetail.StatusColor | frontend/src/components/TestCaseDetailPanel.tsx:80-94 | each result's badge colour; anything not listed is coloured like NOT_RUN |
| PlanItemDetail.StatusDisplay | frontend/src/components/TestCaseDetailPanel.tsx:80-107 | the five offered results get the select's labels and distinct labels and colours; any other status is shown as is, coloured like NOT_RUN |
| CreatePlanPage.Matches | frontend/src/pages/CreatePlanPage.tsx:29-32 | the lower-cased title, or a non-empty lower-cased precondition, contains the lower-cased query |
| CreatePlanPage.Filter | frontend/src/pages/CreatePlanPage.tsx:29-32 | a case is kept exactly when its lower-cased title, or its non-empty precondition, contains the lower-cased query |
| CreatePlanPage.FilterKeepsOrder | frontend/src/pages/CreatePlanPage.tsx:30 | filtering distributes over concatenation, so the shown cases keep their order |
| CreatePlanPage.FilteredCases | frontend/src/pages/CreatePlanPage.tsx:25-35 | every case for a blank query, else the matching ones |
| CreatePlanPage.SearchFilter | frontend/src/pages/CreatePlanPage.tsx:25-35 | a blank query shows every case; otherwise exactly the matching cases, in order |
| CreatePlanPage.AddAll | frontend/src/pages/CreatePlanPage.tsx:63-64 | adding ids keeps the old selection as a prefix, has no duplicates, and holds exactly the old and the added ids |
| CreatePlanPage.SelectAll | frontend/src/pages/CreatePlanPage.tsx:59-67 | equal sizes clear the selection; otherwise every shown id is added to a copy of it |
| CreatePlanPage.SelectAllEffect | frontend/src/pages/CreatePlanPage.tsx:59-67 | select-all keeps every selected id and adds exactly the shown ones |
| CreatePlanPage.ToggleSelect | frontend/src/pages/CreatePlanPage.tsx:49-57 | only the toggled id's membership flips |
| CreatePlanPage.HandleSubmit | frontend/src/pages/CreatePlanPage.tsx:69-86 | a blank name alerts first, then an empty selection; otherwise the plan body is submitted |
| CreatePlanPage.SubmitGuard | frontend/src/pages/CreatePlanPage.tsx:69-78 | a request is made exactly with a non-blank name and a selection; a blank name is reported first |
| CreatePlanPage.SubmittedBody | frontend/src/pages/CreatePlanPage.tsx:82-86 | the request carries the name untrimmed, the description and exactly the selected ids |
| CreatePlanPage.SubmittedPlanIsValid | frontend/src/pages/CreatePlanPage.tsx:69-86 | every submitted plan with non-empty ids passes the create-plan schema |
| ApiClient.BaseUrl | frontend/src/features/api/axios.ts:4-8 | a non-empty VITE_API_URL wins, then the production address, then localhost |
| ApiClient.Run | frontend/src/features/api/axios.ts:17 | the captured value is the longest prefix without ';' |
| ApiClient.MatchAt | frontend/src/features/api/axios.ts:17 | the value `(^\| )name=([^;]+)` captures when the match starts at the position: the start branch at 0, else a space before the name; none when `[^;]+` would be empty |
| ApiClient.FirstMatch | frontend/src/features/api/axios.ts:17 | the match read is the leftmost position where the pattern matches; none means no position matches |
| ApiClient.GetCookie | frontend/src/features/api/axios.ts:16-19 | the decoded capture of the leftmost match, null without one |
| ApiClient.CookieFound | frontend/src/features/api/axios.ts:16-19 | a cookie written as `name=value` at the start or after a space, with no earlier match, yields its decoded value up to the next ';' |
| ApiClient.CookieMatchesAt | frontend/src/features/api/axios.ts:17 | the pattern matches there with the value up to the next ';' |
| ApiClient.Leftmost | frontend/src/features/api/axios.ts:17-18 | a match with none before it is the one read |
| ApiClient.AbsentCookie | frontend/src/features/api/axios.ts:18 | a name never followed by '=' gives null |
| ApiClient.NoSpaceOnlyStart | frontend/src/features/api/axios.ts:17 | without spaces only the start matches, so a glued name is not found and an empty value gives null |
| ApiClient.Intercepted | frontend/src/features/api/axios.ts:21-33 | an unsafe method with a non-empty cookie value gets X-CSRF-Token set to it on the headers, an absent set made empty first; otherwise the headers as they were |
| ApiClient.InterceptorEffect | frontend/src/features/api/axios.ts:21-33 | safe methods (a missing or empty method is GET) and a missing cookie keep the headers; otherwise X-CSRF-Token is the cookie value and every other header is kept |
| ApiClient.SafeAgreesWithServer | frontend/src/features/api/axios.ts:22-23 | client and server classify methods alike |
| ApiClient.EchoedTokenPasses | frontend/src/features/api/axios.ts:24-30 | the issued token present in the cookie string is echoed on an unsafe session request, and the server's check lets it through |
| ApiClient.RequestConfig.AttachCsrf | frontend/src/features/api/axios.ts:21-33 | the method is kept, and the headers become those the interceptor specifies |
| ReactSecurity.LeadingDigits | scripts/verify-react-security.cjs:19 | the longest run of leading decimal digits |
| ReactSecurity.Major | scripts/verify-react-security.cjs:18-21 | the leading digits as a number when a '.' follows them, else none |
| ReactSecurity.MajorOfVersion | scripts/verify-react-security.cjs:18-21 | "n.rest" has major n; a bare number, or a version not starting with a digit, has none |
| ReactSecurity.IsRscKey | scripts/verify-react-security.cjs:34-36 | the key holds `node_modules/react-server-dom-` at its start or right after a '/' |
| ReactSecurity.RscKeys | scripts/verify-react-security.cjs:34-36 | top-level and nested server-dom packages are detected; react and react-dom are not |
| ReactSecurity.RscPackageKeys | scripts/verify-react-security.cjs:31-36 | exactly the package keys that name a server-dom package |
| ReactSecurity.Guard | scripts/verify-react-security.cjs:13-68 | a missing lockfile, then a lockfile that cannot be read or parsed, then server-dom packages, then a missing react or react-dom version, then major 19, else pass with both versions |
| ReactSecurity.GuardOrder | scripts/verify-react-security.cjs:13-68 | the guard fails for a missing lockfile, then an unreadable or non-JSON one, then server-dom packages, then a missing version, then major 19, each only when the earlier checks passed, and passes exactly when none fires |
| ReactSecurity.Unparseable19Passes | scripts/verify-react-security.cjs:56-64 | a version "19" without a '.' is not treated as 19 |

## Left out

- Database access through Prisma is a map of rows and a sequence of plan items; row ids are supplied by the caller. Transactions and concurrent requests are not modelled. Two creates racing for the same max + 1 sequence are therefore not covered.
- The CSV parser, JSON.parse of the mapping and the file system calls are not modelled. The import receives the parsed rows, and the mapping as an ordered list of entries.
- TestCaseController.Store.ImportTestCases: of the `catch` block's 500, only createMany's refusal of the batch is modelled (a key naming no column, an id taken or repeated). Column types, enum values, the folder foreign key, a malformed mapping and file errors are not. The table's columns are a parameter, because the database schema is not part of this model.
- TestCaseController.ToTestCase: cells mapped onto columns the `TestCase` datatype does not carry (automationType, category) reach createMany but are not kept in the stored row.
- The 500 replies of the other controllers' `catch` blocks are not modelled.
- TestCaseController.Store.GetTestCases: a query value is absent, one string, a list of strings or an object. A list holding objects, and the contents of an object (`String` gives "[object Object]" whatever they are), are not modelled.
- Cryptography is a parameter: random CSRF tokens, and `jsonwebtoken` signing and verification.
- Jwt.GenerateToken: `sign` never fails in the model, so a `JWT_EXPIRES_IN` that `jsonwebtoken` cannot read, which makes it throw, is not modelled as a failure.
- URL parsing in the CORS test is a parameter giving an origin or a parse failure.
- The CORS middleware's own handling of the callback's error is not modelled.
- zod's e-mail check is a parameter.
- zod issue messages are the caller's: only their joining is modelled.
- `decodeURIComponent` is a parameter that cannot throw. A malformed escape would throw from the interceptor.
- `getCookie` builds its regular expression from the cookie name. The model reads the name literally, which agrees for `csrf_token`, the only name used.
- The response interceptor is not modelled: it clears localStorage and redirects on 401.
- JavaScript numbers are integers here. `Math.round` on a float is modelled exactly as round-half-up of a rational, and floating-point error is not modelled.
- A version number that is not an integer (`18.2` as a JSON number) is not modelled.
- `Number()` of a very long digit run loses precision in JavaScript but not in the model.
- String lengths count characters, not UTF-16 code units.
- Case mapping is ASCII only.
- `req.path || ''` is modelled as the path string.
- React rendering, effects, navigation, alerts and the DOM events of the detail views are not modelled: Escape and backdrop clicks closing the panel, and the ID badge.
- Fetching of plans, cases and users is not modelled.
- The CSRF and CORS middleware are modelled as functions of the request. Only the cookie writes of the CSRF guard are state.
- `createApp` in backend/src/app.ts mounts neither cookie-parser nor `csrfProtection`. The `Csrf` members and the cookie branch of `AuthMiddleware.ExtractToken` model the middleware functions themselves, not the app as assembled there. `ApiClient.EchoedTokenPasses` is a statement about `Csrf.Check` alone.
- The controllers behind the other routes are not part of this model: reorder, bulk update, bulk delete and move of test cases, and the plan, folder, dashboard, auth and admin controllers. Their request schemas are modelled.
- The console logging of the lockfile guard and of the error handler is not modelled.

## Findings

| source | as written | input that shows it | evidently intended | confidence | as-written member | corrected member |
|---|---|---|---|---|---|---|
| backend/src/routes/schemas/planSchemas.ts:3 | the plan-item result enum is NOT_RUN, PASS, FAIL, BLOCK | setting a plan item, or a bulk selection, to IN PROGRESS as offered at frontend/src/pages/PlanDetailPage.tsx:316 and 392, frontend/src/components/TestCaseDetailPanel.tsx:193 and frontend/src/components/TestCaseDetailColumn.tsx:178: the body `{result: "IN_PROGRESS"}` is refused with 400 | the enum includes IN_PROGRESS, every result the screens offer | not executed | PlanSchemas.InProgressRejected | PlanSchemas.IntendedAcceptsOffered |
| backend/src/app.ts:49 | an origin is allowed when it equals or merely starts with a listed entry | Origin `http://localhost:51730`, a page served on another port, is allowed with no environment set: the URL parser returns it unchanged and it starts with `http://localhost:5173`. Any host extending `https://tmsv2-production.up.railway.app`, such as `https://tmsv2-production.up.railway.app.attacker.example`, is allowed likewise | deny-by-default: only the listed origins, as the comment at backend/src/app.ts:26-27 says | not executed | Cors.PrefixAdmitsLookalike | Cors.ExactAdmitsOnlyListed |

The as-written definitions stay the main model: `PlanSchemas.UpdatePlanItem`,
`PlanSchemas.BulkUpdatePlanItems` and `Cors.CorsCallback` are what the server
does. The corrected definitions are `PlanSchemas.IntendedUpdatePlanItem`,
`PlanSchemas.IntendedBulkUpdatePlanItems` and `Cors.ExactCorsCallback`. The
client-side lemmas `PlanDetailPage.BulkRequestValid` and
`PlanItemDetail.UpdatesAreSchemaValid` state both. `Cors.ExactRefusesLookalike`
exhibits the exact test refusing the three look-alikes.
