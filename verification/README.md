# Welwitschia Group client portal — a Dafny model

This project models the logic of the Welwitschia Group client portal. The portal is a Next.js site over a hosted Postgres/storage backend. The backend is modelled as an immutable `Store`: one sequence of rows per table, plus the set of stored object keys. Every query, upload, insert or delete that can fail takes a boolean that says whether it fails. Timestamps and random file-name suffixes are parameters. Dates are optional integers.

Modules, one per source file, plus shared helpers:

- `Common`, `Seqs`, `Ordering`, `Text`, `Rows`, `Http`, `Auth`, `Display`: option/result types, filtering and counting, the `.order(...)` sort, string helpers, the row types with the project join, API responses, auth events, and falsy-value fallbacks.
- `ClientApi` (`src/lib/clientApi.ts`): the profile lookup, the client-scoped and project-scoped listings, the client upload, the task update and the seven dashboard counts.
- `ClientData` (`src/lib/clientData.ts`): the session read, the two-step invoice read and `getCounts`.
- `Storage` (`src/lib/supabaseStorage.ts`): object paths, upload, delete, and the two-phase project upload that deletes the object when the insert fails.
- `Guard` (`ProtectedRoute.tsx`) and `DashboardLayout` (the dashboard `layout.tsx`): the access guard and the dashboard shell, as transition functions over the session, the role lookup and auth events.
- `InitRoute` and `ContactRoute`: the two API routes.
- `Schemas` and `Intake` (`src/lib/schemas.ts`, `src/lib/supabase.ts`): the form rules and the public inserts.
- `DashboardPage`, `ProjectsPage`, `AssetsPage`, `StatusBadge`, `Navbar`: the selection, formatting and toggle logic of those views.

The main properties proved:

- Client listings are isolated: two different clients never share a row.
- The guard fails closed.
- The "ensure client" route is idempotent and keeps at most one row per user.
- A failed project-asset insert leaves storage as it was, provided the compensating delete succeeds. When that delete fails too, the object stays.
- Referrals and applications are always stored as pending.
- The dashboard's upcoming tasks are the five soonest-due open tasks.
- The two navbar dropdowns are never open together.

Some source behaviour is modelled as written even though it looks unintended:

- The dashboard layout does not redirect when the profile lookup fails or finds no row (`DashboardLayout.ProfileMissIsNotRedirected`).
- The inline status colour on the dashboard is case-sensitive and has no `cancelled` case, unlike the projects page (`DashboardPage.InlineColorOmitsCancelled`, `DashboardPage.InlineColorIsCaseSensitive`).
- The assets dropdown offers only projects that already have assets, so a client with no assets cannot start an upload from that page (`AssetsPage.NoAssetsNoUpload`).
- The contact route never checks `company` or `service_interest` (`ContactRoute.CompanyAndServiceUnchecked`).

## Model

| member | source | states |
|---|---|---|
| `ClientApi.GetClientProfile` | src/lib/clientApi.ts:78-96 | A profile is returned iff there is a session, the read succeeds and exactly one `clients` row has the session's user id (`.single()`); that row is returned and no other row of the user exists |
| `ClientApi.Listing` | src/lib/clientApi.ts:105-109 | A listing is sorted by the requested key and order, and holds each row passing the filter exactly as often as the table does, and no other row |
| `ClientApi.ListingLength` | src/lib/clientApi.ts:105-109 | A listing has as many rows as the table has rows passing its filter |
| `ClientApi.GetClientProjects` | src/lib/clientApi.ts:101-117 | `[]` without a client or on a query error; otherwise exactly the projects whose `client_id` is the client's id, sorted by `created_at` descending |
| `ClientApi.GetClientInvoices` | src/lib/clientApi.ts:158-174 | `[]` without a client or on error; otherwise exactly the invoices whose project belongs to the client (inner join), sorted by `issued_at` descending |
| `ClientApi.GetClientMetrics` | src/lib/clientApi.ts:197-213 | As for invoices, over metrics, sorted by `uploaded_at` descending |
| `ClientApi.GetClientTasks` | src/lib/clientApi.ts:236-252 | As for invoices, over tasks, sorted by `due_date` ascending |
| `ClientApi.GetClientAssets` | src/lib/clientApi.ts:311-327 | As for invoices, over assets, sorted by `uploaded_at` descending |
| `ClientApi.ClientListingsIsolated` | src/lib/clientApi.ts:164-165 | When project ids are unique, the project, invoice, metric, task and asset listings of two sessions that resolve to different clients share no row |
| `ClientApi.GetProjectDetails` | src/lib/clientApi.ts:122-135 | A project is returned iff the read succeeds and exactly one project has the id; it is that project, whoever owns it |
| `ClientApi.GetProjectInvoices` | src/lib/clientApi.ts:140-153 | `[]` on error; otherwise exactly the invoices whose `project_id` is the given id, with no ownership check, sorted by `issued_at` descending |
| `ClientApi.GetProjectMetrics` | src/lib/clientApi.ts:179-192 | As for project invoices, over metrics, by `uploaded_at` descending |
| `ClientApi.GetProjectTasks` | src/lib/clientApi.ts:218-231 | As for project invoices, over tasks, by `due_date` ascending |
| `ClientApi.GetProjectAssets` | src/lib/clientApi.ts:332-345 | As for project invoices, over assets, by `uploaded_at` descending |
| `ClientApi.UploadAsset` | src/lib/clientApi.ts:257-306 | Nothing happens without a client or when the upload fails. When the insert fails, `null` is returned and the stored object stays. On success the new row has the project id, the public URL of `<client>/<project>/<stamp>-<suffix>.<ext>`, the file's name, type and size, and whatever user `auth.getUser()` yields as the uploader, possibly none; it is appended and the object is stored |
| `ClientApi.ClientAssetPathKeepsExtension` | src/lib/clientApi.ts:262-264 | The stored object's extension is the uploaded file's extension |
| `ClientApi.ClientAssetPathInClientFolder` | src/lib/clientApi.ts:264 | The object path starts with `<clientId>/<projectId>/` |
| `ClientApi.UploadedAssetIsListed` | src/lib/clientApi.ts:289-305 | After a successful upload, the new row appears in the project's asset listing with the file's name, type and size |
| `ClientApi.UpdateTaskStatus` | src/lib/clientApi.ts:350-364 | The update succeeds iff the write succeeds and exactly one task has the id. That task comes back with the new `completed` flag and replaces the old row; nothing else in the store changes |
| `ClientApi.GetClientStats` | src/lib/clientApi.ts:369-428 | `null` iff no client resolves; otherwise each of the seven counts is its own query's count over the client's scope, or 0 when that query fails |
| `ClientApi.ActiveWithinTotal` | src/lib/clientApi.ts:374-384 | When the total's query succeeds, active projects never exceed all projects |
| `ClientApi.PendingWithinTotal` | src/lib/clientApi.ts:387-397 | When the total's query succeeds, pending invoices never exceed all invoices |
| `ClientApi.TaskCountsDisjoint` | src/lib/clientApi.ts:406-417 | Completed and pending tasks are disjoint: together they never exceed the client's tasks |
| `ClientApi.ProjectTotalIsListingLength` | src/lib/clientApi.ts:374-377 | The project total equals the length of the client's project listing |
| `ClientApi.InvoiceTotalIsListingLength` | src/lib/clientApi.ts:387-390 | The invoice total equals the length of the client's invoice listing |
| `ClientApi.AssetTotalIsListingLength` | src/lib/clientApi.ts:400-403 | The asset total equals the length of the client's asset listing |
| `ClientApi.TaskTotalsWithinListing` | src/lib/clientApi.ts:406-417 | Completed plus pending tasks never exceed the client's task listing |
| `ClientApi.StatsMatchListings` | src/lib/clientApi.ts:369-428 | With a client and no failures, the stats agree with the lengths of the session's project, invoice and asset listings and are bounded by its task listing |
| `ClientData.FirstClientOfUser` | src/lib/clientData.ts:37-42 | `.limit(1).maybeSingle()`: `None` iff no row has the user id; otherwise the first such row in table order |
| `ClientData.GetCurrentClient` | src/lib/clientData.ts:32-49 | `null` without a session or on error, and when no row matches; otherwise a row of the session's user, the first in table order |
| `ClientData.CurrentClientExtendsProfile` | src/lib/clientData.ts:32-49 | Wherever the `.single()` profile read finds a row, this read finds the same row; it finds one where the profile read does not only when the user has two or more rows |
| `ClientData.GetClientProjects` | src/lib/clientData.ts:51-62 | `[]` on error; otherwise exactly the projects of the given client id, `created_at` descending |
| `ClientData.ProjectsAgreeWithSessionRead` | src/lib/clientData.ts:51-62 | For the same client id, this read equals the session-scoped projects read |
| `ClientData.ProjectIdList` | src/lib/clientData.ts:66-76 | The id list has one entry per project of the client and holds exactly the ids of the client's projects |
| `ClientData.GetClientInvoices` | src/lib/clientData.ts:64-88 | `[]` when the project read fails, the client has no projects, or the invoice read fails. Otherwise exactly the invoices of the client's projects, `issued_at` descending |
| `ClientData.TwoStepInvoicesMatchJoin` | src/lib/clientData.ts:64-88 | Without failures, the two-step read returns the same list as the inner-join read of the session-scoped layer |
| `ClientData.CountByClientId` | src/lib/clientData.ts:92-94 | An `.eq('client_id', ...)` count has a value iff the query succeeds and the table has that column; the value is then the client's project count |
| `ClientData.GetCountsAsWritten` | src/lib/clientData.ts:90-113 | `getCounts` as written: all zeros on a throw; otherwise the project count, or 0 when its query fails; the metrics count is 0 when the id query or the metrics query fails, or when the client has no projects |
| `ClientData.AsWrittenAgreesOnProjectsAndMetrics` | src/lib/clientData.ts:92-105 | The as-written and the corrected `getCounts` give the same project and metrics counts under every fault |
| `ClientData.AsWrittenMetricsMatchClientScope` | src/lib/clientData.ts:97-100 | With no faults, the as-written metrics count is the number of metrics of the client's projects |
| `ClientData.AsWrittenNeverCountsAssetsOrTasks` | src/lib/clientData.ts:93-94 | As written, the asset and task counts are 0 on every store |
| `ClientData.AsWrittenMissesOwnedRows` | src/lib/clientData.ts:93-94 | On a store where the client owns one asset and one task, the as-written counts report 0 for both |
| `ClientData.GetCounts` | src/lib/clientData.ts:90-113 | Corrected `getCounts`: all zeros on a throw, and a failed query counts 0. Without project ids the asset, task and metric counts are 0 with no query |
| `ClientData.CountsMatchClientScope` | src/lib/clientData.ts:90-113 | Without faults, each corrected count is the number of rows of that table in the client's scope |
| `ClientData.CountsMatchListings` | src/lib/clientData.ts:90-113 | Without faults, the corrected counts equal the lengths of the client's project, asset, task and metric listings |
| `Storage.AssetsBucket` | src/lib/supabaseStorage.ts:4 | The configured bucket when it is non-empty, else `assets` |
| `Storage.UniqueFileNameKeepsExtension` | src/lib/supabaseStorage.ts:20-21 | The generated file name keeps the original name's extension |
| `Storage.ObjectPath` | src/lib/supabaseStorage.ts:22 | `path/fileName` for a non-empty path, `fileName` otherwise |
| `Storage.ObjectPathEndsWithFileName` | src/lib/supabaseStorage.ts:22 | The last `/` segment of the object path is the generated file name |
| `Storage.UploadFile` | src/lib/supabaseStorage.ts:14-38 | An upload error, or an existing object at the key (no overwrite), throws 'Failed to upload file' and changes nothing; otherwise the object is stored and its path returned |
| `Storage.DeleteFile` | src/lib/supabaseStorage.ts:106-121 | An error throws 'Failed to delete file' and changes nothing; otherwise the object is removed and `true` returned |
| `Storage.UploadProjectAsset` | src/lib/supabaseStorage.ts:130-165 | A failed upload or a taken key throws `Failed to upload file` and changes nothing. Otherwise the call succeeds iff the insert does; a failed insert throws `Failed to create asset record`, writes no row and adds at most the new object. On success the row carries the project id and the stored path and is appended to the assets. Only the object set and the `assets` table ever change |
| `Storage.UploadFailureWritesNothing` | src/lib/supabaseStorage.ts:27-35 | When the upload throws, because of a storage error or because the key is already taken (overwriting is off), no insert is attempted and the store is unchanged |
| `Storage.InsertFailureCompensates` | src/lib/supabaseStorage.ts:152-162 | When the insert fails and the delete succeeds, the call throws 'Failed to create asset record' and the store ends exactly as it started |
| `Storage.FailedCleanupIsSwallowed` | src/lib/supabaseStorage.ts:154-161 | When the delete fails too, the caller still sees 'Failed to create asset record', and the store differs from the start only by the stored object |
| `Storage.UploadSuccessRecordsFile` | src/lib/supabaseStorage.ts:133-164 | On success the row has the stored path under `projects/<projectId>/`, the file's name, type and size, and the description or `''`; it is appended, the object is stored, and nothing else changes |
| `Guard.LookupRole` | src/components/client/ProtectedRoute.tsx:26-31 | The lookup errors iff the read fails, finds no row iff no row has the user id, and otherwise returns the role of a row of that user |
| `Guard.Check` | src/components/client/ProtectedRoute.tsx:14-44 | No session refuses with a redirect to the login route. Without required roles the session is authorized. Otherwise access is authorized iff the lookup finds a row whose role is required. Refusal always redirects; the check never ends in `checking` |
| `Guard.LookupIrrelevantWithoutRoles` | src/components/client/ProtectedRoute.tsx:23-24 | Without required roles the lookup's result, error included, does not affect the decision |
| `Guard.FailsClosed` | src/components/client/ProtectedRoute.tsx:33-42 | With roles required, a lookup error or a missing row refuses with a redirect |
| `Guard.OnAuthEvent` | src/components/client/ProtectedRoute.tsx:50-64 | An event without a session, or a sign-out, refuses with a redirect. Sign-in or token refresh with a session re-runs the check. Any other event keeps the status |
| `Guard.AuthorizedHasWitness` | src/components/client/ProtectedRoute.tsx:9-64 | The guard is authorized only after an authorizing check followed by neutral events only: the initial check, or the last re-run |
| `Guard.LosingSessionLocks` | src/components/client/ProtectedRoute.tsx:51-63 | After a final sign-out or session-less event the guard is unauthorized, whatever came before |
| `Guard.Render` | src/components/client/ProtectedRoute.tsx:73-81 | The children are rendered iff authorized; the checking notice is shown iff checking |
| `Guard.InitiallyHidden` | src/components/client/ProtectedRoute.tsx:9 | The initial status shows the checking notice, not the children |
| `DashboardLayout.LoadClient` | src/app/client/dashboard/layout.tsx:37-48 | Loading always stops. Without a session the client is cleared and the login route is pushed. With a session there is no navigation and the client is the profile read's result |
| `DashboardLayout.OnAuthChange` | src/app/client/dashboard/layout.tsx:54-70 | Without a session, or on sign-out, the client is cleared, loading stops and the login route replaces the page. Sign-in or token refresh sets loading and reloads. Other events change nothing |
| `DashboardLayout.SettledReloadStopsLoading` | src/app/client/dashboard/layout.tsx:61-64 | Once a reload the listener started completes, the shell is no longer loading |
| `DashboardLayout.ProfileMissIsNotRedirected` | src/app/client/dashboard/layout.tsx:45-47 | With a session but a failed or empty profile read, the shell shows no client and does not redirect |
| `DashboardLayout.SignOut` | src/app/client/dashboard/layout.tsx:79-82 | Sign-out always pushes the login route |
| `DashboardLayout.WelcomeText` | src/app/client/dashboard/layout.tsx:230 | The greeting starts with `Welcome`, and is exactly that iff there is no non-empty name; otherwise it continues with `, ` and the name |
| `InitRoute.DefaultName` | src/app/api/client/init/route.ts:35 | The given name when truthy. Otherwise `Client` when the email is empty or starts with `@`, and else the text before the email's first `@`, which is non-empty and holds no `@` |
| `InitRoute.DefaultNameIsLocalPart` | src/app/api/client/init/route.ts:35 | For `local@domain` with a non-empty local part and no name, the name is the local part |
| `InitRoute.Init` | src/app/api/client/init/route.ts:1-49 | A parse failure gives 500 'Server error'. A missing user id or email gives 400, with no read and no write. The call succeeds iff a row exists or the insert succeeds. Any failure leaves the store unchanged, and a write appends exactly one row with role `client` |
| `InitRoute.ClientsOfUserAfterAppend` | src/app/api/client/init/route.ts:30-37 | Appending a row adds it to its own user's rows only |
| `InitRoute.InitKeepsOneRowPerUser` | src/app/api/client/init/route.ts:14-37 | No user gains rows except the caller's, and the caller goes from zero rows to at most one |
| `InitRoute.InitIsIdempotent` | src/app/api/client/init/route.ts:14-27 | After one successful call, a second call for the same user whose reads succeed returns 200 and writes nothing, leaving one row for the user |
| `ContactRoute.Contact` | src/app/api/contact/route.ts:4-16 | A parse failure gives 500. Otherwise the answer is 200 `{ok:true}` iff name, email and message are all non-empty, and 400 'Invalid payload' otherwise |
| `ContactRoute.CompanyAndServiceUnchecked` | src/app/api/contact/route.ts:7 | The answer does not depend on `company` or `service_interest` |
| `Schemas.Errors` | src/lib/schemas.ts:3-36 | A schema passes iff every field rule holds; each failing rule's error is reported, and every reported error comes from a failing rule |
| `Schemas.ReportedIffFails` | src/lib/schemas.ts:3-36 | With one rule per field, a rule's error is reported iff that rule fails |
| `Schemas.ContactSchemaRules` | src/lib/schemas.ts:3-11 | The contact form passes iff name and company have at least 2 characters, the email is valid, the service is one of the four, and the message has at least 10 characters; each failure reports its own message |
| `Schemas.ReferralSchemaRules` | src/lib/schemas.ts:15-26 | The referral form passes iff the referrer type is one of three, the name, company and contact have at least 2 characters, the email is valid, and the service is one of three; each failure reports its own message |
| `Schemas.ReferralRefusesOther` | src/lib/schemas.ts:23-25 | `other`, accepted by the contact form, is refused as a referral's service |
| `Schemas.ApplicationSchemaRules` | src/lib/schemas.ts:30-36 | The application passes iff the full name and role have at least 2 characters, the email and CV URL are valid, and the cover note has at least 10 characters; each failure reports its own message |
| `Intake.CreateLead` | src/lib/supabase.ts:50-58 | An insert error throws and writes nothing; otherwise the lead is stored exactly as given and returned |
| `Intake.CreateReferral` | src/lib/supabase.ts:61-73 | An insert error throws and writes nothing; otherwise the referral is stored with the caller's fields, status `pending` and `eligible` false |
| `Intake.ReferralIgnoresCallerStatus` | src/lib/supabase.ts:64-68 | Any status or eligibility the caller passes gives the same stored referral |
| `Intake.CreateApplication` | src/lib/supabase.ts:76-87 | An insert error throws and writes nothing; otherwise the application is stored with the caller's fields and status `pending` |
| `Intake.ApplicationIgnoresCallerStatus` | src/lib/supabase.ts:79-82 | Any status the caller passes gives the same stored application |
| `Display.Ellipsis` | src/app/client/dashboard/projects/page.tsx:102-103 | A text of at most `n` characters is kept; a longer one becomes its first `n` characters plus `...` |
| `Display.EllipsisIdempotent` | src/app/client/dashboard/projects/page.tsx:102-103 | Truncating a truncated text changes nothing |
| `Display.TextOr` | src/app/client/dashboard/projects/page.tsx:109 | A truthy text is shown as is, anything else gives the fallback |
| `DashboardPage.RecentProjects` | src/app/client/dashboard/page.tsx:45 | The first three projects of the listing, in listing order |
| `DashboardPage.UpcomingTasks` | src/app/client/dashboard/page.tsx:48-55 | At most five tasks, all drawn from the open tasks with no task more often than it occurs there, sorted by due date with undated tasks last; exactly five unless fewer are open |
| `DashboardPage.UndatedTasksLast` | src/app/client/dashboard/page.tsx:51-52 | No dated task follows an undated one |
| `DashboardPage.UpcomingAreSoonest` | src/app/client/dashboard/page.tsx:48-55 | Every open task left out is due no earlier than every task shown |
| `DashboardPage.StatCards` | src/app/client/dashboard/page.tsx:76-126 | Seven cards; each shows its statistic, or 0 when there are no stats |
| `DashboardPage.CardsShowClientCounts` | src/app/client/dashboard/page.tsx:76-126 | Each card shows the store's count for the current client, or 0 when no client resolves |
| `DashboardPage.DashboardDescription` | src/app/client/dashboard/page.tsx:191-192 | `No description` for a missing or empty description; otherwise the first 100 characters, with `...` only past 100 |
| `DashboardPage.InlineColorAgreesOnLowerCase` | src/app/client/dashboard/page.tsx:196-201 | The dashboard's inline colour (`DashboardStatusClass`: exact matches on `active`, `completed` and `on-hold`, grey otherwise) equals the projects page's on lower-case statuses other than `cancelled` |
| `DashboardPage.InlineColorOmitsCancelled` | src/app/client/dashboard/page.tsx:196-201 | `cancelled` is grey inline but red on the projects page |
| `DashboardPage.InlineColorIsCaseSensitive` | src/app/client/dashboard/page.tsx:196-201 | `Active` is grey inline but green on the projects page |
| `DashboardPage.DashboardStatusLabel` | src/app/client/dashboard/page.tsx:202 | Never empty: the status when truthy, and `No status` for `null` or `''` |
| `ProjectsPage.StatusColor` | src/app/client/dashboard/projects/page.tsx:36-49 | `null` gets the grey default; every status gets one of the five classes |
| `ProjectsPage.StatusColorIgnoresCase` | src/app/client/dashboard/projects/page.tsx:37 | A status, its lower-case form and its upper-case form get the same class |
| `ProjectsPage.KnownStatusColors` | src/app/client/dashboard/projects/page.tsx:38-47 | `active`, `completed`, `on-hold` and `cancelled`, in any case, get their own classes; the default is given iff the status is none of them |
| `ProjectsPage.ProjectDescription` | src/app/client/dashboard/projects/page.tsx:102-103 | Empty iff the description is missing or empty; otherwise cut to 60 characters with `...` past 60 |
| `ProjectsPage.StatusLabel` | src/app/client/dashboard/projects/page.tsx:109 | Never empty: the status when truthy, and `Not set` for `null` or `''` |
| `ProjectsPage.ShownProgress` | src/app/client/dashboard/projects/page.tsx:116-119 | The progress, or 0 when it is `null` |
| `ProjectsPage.BudgetLabel` | src/app/client/dashboard/projects/page.tsx:125 | `Not set` iff the budget is `null` or 0; otherwise `$` and the formatted amount |
| `ProjectsPage.DueDateLabel` | src/app/client/dashboard/projects/page.tsx:27-34 | `Not set` without a date, the formatted date otherwise |
| `AssetsPage.OptionTitle` | src/app/client/dashboard/assets/page.tsx:29 | `Project #` and the first 8 characters of the id, or `Project #undefined` for a `null` id |
| `AssetsPage.ProjectOptions` | src/app/client/dashboard/assets/page.tsx:23-31 | One option per distinct `project_id`, in first-appearance order, with a `null` id becoming `''` |
| `AssetsPage.ProjectOptionsCoverAssets` | src/app/client/dashboard/assets/page.tsx:23-31 | Every asset's project has an option, every option comes from an asset, and no project id is repeated |
| `AssetsPage.FileKindWithoutDot` | src/app/client/dashboard/assets/page.tsx:78 | A URL without a `.` is classified by the whole lower-cased URL |
| `AssetsPage.FileKindByExtension` | src/app/client/dashboard/assets/page.tsx:77-117 | `base.ext` is classified by `ext` alone, whatever its letter case |
| `AssetsPage.DisplayName` | src/app/client/dashboard/assets/page.tsx:177 | Never empty. `Unnamed file` without a URL or when the URL ends in `/`. Otherwise the URL's last segment: a `/`-free suffix preceded by `/` unless it is the whole URL |
| `AssetsPage.UploadedAssetDisplayName` | src/app/client/dashboard/assets/page.tsx:177 | For an asset the client upload stored, the page shows the generated file name |
| `AssetsPage.UploadedAssetIcon` | src/app/client/dashboard/assets/page.tsx:174 | For an asset the client upload stored, the icon follows the uploaded file's extension |
| `AssetsPage.EnabledInputStartsUpload` | src/app/client/dashboard/assets/page.tsx:55-161 | An enabled upload input that receives a file starts the upload |
| `AssetsPage.NoAssetsNoUpload` | src/app/client/dashboard/assets/page.tsx:133-161 | With no assets listed, every value the dropdown offers leaves the input disabled and starts no upload |
| `StatusBadge.Capitalize` | src/components/client/StatusBadge.tsx:14 | Same length, first character upper-cased, the rest unchanged |
| `StatusBadge.CapitalizeIdempotent` | src/components/client/StatusBadge.tsx:14 | Capitalising a capitalised label changes nothing |
| `StatusBadge.BadgeLabel` | src/components/client/StatusBadge.tsx:14 | The label is as long as the status: its first letter upper-cased, the rest of the status unchanged |
| `StatusBadge.StylesDistinct` | src/components/client/StatusBadge.tsx:5-10 | Each of the four statuses has a style of its own |
| `StatusBadge.LabelLowersToStatus` | src/components/client/StatusBadge.tsx:14 | Lower-casing a label gives back its status, and the label starts with a capital |
| `Navbar.ToggleDivisions` | src/components/layout/Navbar.tsx:21-24 | Flips the divisions dropdown, leaves industries closed and the mobile state unchanged |
| `Navbar.ToggleIndustries` | src/components/layout/Navbar.tsx:26-29 | Flips the industries dropdown, leaves divisions closed and the mobile state unchanged |
| `Navbar.ClickOutside` | src/components/layout/Navbar.tsx:33-43 | With both dropdowns mounted and the target outside both, both close; otherwise nothing changes |
| `Navbar.KeyDown` | src/components/layout/Navbar.tsx:45-50 | Escape closes both dropdowns; any other key changes nothing |
| `Navbar.ToggleMobileMenu` | src/components/layout/Navbar.tsx:61 | Flips only the mobile menu |
| `Navbar.ToggleMobileSubmenu` | src/components/layout/Navbar.tsx:62-67 | Flips only the chosen submenu; the other and the rest of the state are unchanged |
| `Navbar.StepKeepsOneDropdown` | src/components/layout/Navbar.tsx:21-50 | No event opens a second dropdown |
| `Navbar.NeverBothOpen` | src/components/layout/Navbar.tsx:13-50 | Starting with everything closed, the two desktop dropdowns are never open together after any sequence of events |
| `Navbar.MobileIndependentOfDesktop` | src/components/layout/Navbar.tsx:21-67 | Mobile toggles leave the dropdowns as they are, and dropdown events leave the mobile state as it is |
| `Navbar.SubmenuToggleTwice` | src/components/layout/Navbar.tsx:62-67 | Toggling the same submenu twice restores the state |
| `Text.LastSegment` | src/lib/supabaseStorage.ts:20 | `split(sep).pop()`: a `sep`-free suffix, preceded by `sep` unless it is the whole text |
| `Text.BeforeFirst` | src/app/api/client/init/route.ts:35 | `split(sep)[0]`: a `sep`-free prefix, followed by `sep` unless it is the whole text |

## Left out

- The network, the auth client and the storage client are not modelled. Each answer they give is a parameter: a session, a failure flag, a role lookup, or a base URL.
- `getPublicFileUrl`, `getSignedUrl` and `listFiles` in `src/lib/supabaseStorage.ts` are thin wrappers over the storage client with no logic of their own. The public URL is modelled as `base/storage/v1/object/public/<bucket>/<path>` (`ClientApi.PublicUrl`).
- Where the database puts `NULL` sort keys is a `NullPlacement` parameter. Ties between equal keys are not fixed by the database, so the listings promise only "sorted, and the same rows".
- `DashboardPage.UpcomingTasks`: the comparator returns 1 whenever the first task is undated, even when both are, so it is not a consistent order. The model keeps undated tasks last and leaves their relative order unspecified.
- Case mapping covers ASCII letters only. Lengths count characters, not UTF-16 code units.
- Dates are optional integers. `toLocaleDateString` and `toLocaleString` are a `format` parameter, and `Date.now()` and `Math.random()` are the `stamp` and `suffix` parameters.
- Concurrency is not modelled: overlapping `check()` or `loadClient()` runs, the seven count queries not being atomic, listener subscription and cleanup, and `setState` after unmount. Events are handled one at a time to completion.
- The dashboard page's data load runs with or without a session, and its errors are swallowed. The page-level loading flags are not modelled.
- Email and URL validity are opaque predicates (`isEmail`, `isUrl`). Request bodies are optional strings per field, and a field that is not a string counts as absent.
- The embedded `projects(*)` columns that the joins return alongside each row are dropped. The listings return the base rows.
- `AssetsPage.OptionTitle`: the rows never carry `project_title`, so only the fallback title is modelled.
- `ClientApi.UpdateTaskStatus` treats `.single()` on the update as "exactly one row matched". A second matching row, which unique ids rule out, is reported as an error without modelling a partial write.
- The metrics page (`parseFloat` and floating-point sums), the invoices page, the marketing pages and the presentational components contain no modelled logic.
- `ClientData.FirstClientOfUser`: `.limit(1)` without `.order(...)` leaves the returned row up to the database. The model picks the first matching row in table order; `ClientData.GetCurrentClient` inherits this.
- Numeric columns (`budget`, `amount`, `value`) are integers. The source types them `number`, so fractional amounts are not represented; the truthiness checks on them are unaffected.
- `uploaded_by || 'Unknown'` and the other display fallbacks of the assets table are instances of `Display.TextOr` and are not modelled separately.

## Findings

| source | as written | input that shows it | evidently intended | confidence | as-written member | corrected member |
|---|---|---|---|---|---|---|
| src/lib/clientData.ts:93-94 | The asset and task counts filter on `client_id`, but only `projects` has that column (the `Asset` and `Task` types carry `project_id` only). The query errors, its count is `null`, and `?? 0` reports 0 | Client `c1` owns project `p1`, which has one asset and one task: the counts come out as 0 and 0 | Count the assets and tasks of the client's projects, through their project ids, as the metrics count and the other read paths do | not executed; the table columns are taken from the declared row types | `ClientData.AsWrittenMissesOwnedRows` | `ClientData.CountsMatchClientScope` |
