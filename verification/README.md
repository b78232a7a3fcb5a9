# BPM access, navigation, notification and sign-in core in Dafny

This project models the decision and string-building core of the BPM web
application (a business-process manager built on Next.js, Prisma and
NextAuth):

- **Rbac**: the four roles, the nineteen permissions, the role → permission
  table, `hasPermission` and the `requireRole` guard (`rbac.dfy`).
- **NavConfig**: the main and report menus and their per-role filters
  (`nav_config.dfy`).
- **Breadcrumbs**: `getBreadcrumbFromPath`, from the path to a list of
  captioned, linked crumbs (`breadcrumbs.dfy`).
- **Email**: `escapeHtml`, the shared page layout, the five notification
  builders, `isEmailConfigured` and the choice of transport in `sendEmail`
  (`email.dfy`).
- **Proxy**: the request guard that lets the sign-in API and the public
  auth pages through and sends everything else without a session to the
  login page (`proxy.dfy`).
- **BunnyCdn**: host normalisation, the storage and CDN hosts,
  `isBunnyConfigured` and the request and result of `uploadToBunny`
  (`bunnycdn.dfy`).
- **Users**, **Auth**, **Register**: the user table keyed by email, the
  credentials `authorize` check, the `jwt` and `session` callbacks, and
  `register` (`users.dfy`, `auth.dfy`, `register.dfy`).

The helper modules **Wrappers** (`Option`, `Result`, `Outcome`), **Strings**
(truthiness, `startsWith`, `split`/`join`, global one-character replace,
ASCII upper-casing, decimal rendering) and **Arrays** (`includes`, `some`,
`filter`, subsequences) state the JavaScript primitives the core uses.

Modelling choices:

- Environment variables (`NEXT_PUBLIC_SITE_URL`, `BUNNY_*`, `RESEND_API_KEY`,
  the Office 365 settings) are `Option<string>` parameters. JavaScript
  truthiness of such a value is `Strings.Truthy`: set and not empty.
- bcrypt's `hash` and `compare` are function parameters. The database id
  generator is a `newId` parameter. The HTTP `fetch` of an upload is a
  function from the request to the response.
- The user table is a map from email to row; `findUnique` is a lookup.
- A notification's HTML is built from a `Content` value (heading,
  escaped greeting, introduction, bulleted items or an emphasised line,
  link, link text). It renders to the template text of the source.
  Contracts speak of that structure: which texts a reader sees once
  entities are read back, the item names, and the absence of markup
  characters in user-supplied text. They also state that the page contains
  both links.
- Upper-casing is ASCII only.

Where the code and its description differ, the model follows the code:

- `NEXT_PUBLIC_SITE_URL ?? "http://localhost:3000"` keeps an *empty*
  site URL; only an unset variable falls back.
- `BUNNY_STORAGE_REGION ?? ""` followed by a truthiness test treats an
  empty region like an unset one.
- The sign-in API bypass is the plain prefix test `startsWith("/api/auth")`,
  so "/api/authx" is let through as well (`Proxy.PrefixExamples`).

## Model

| member | source | states |
|---|---|---|
| Rbac.HasPermission | src/lib/rbac.ts:83-86 | No permission is held without a role; with a role, the permission is held exactly when it is in that role's table row. |
| Rbac.RequireRole | src/lib/rbac.ts:3-7 | The guard passes exactly when a role is given and listed in `allowed`; every failure is "Forbidden". |
| Rbac.HasPermissionFollowsPolicy | src/lib/rbac.ts:30-86 | For every role (including none) and permission, the table lookup agrees with the policy: administrators hold everything, MANAGER holds participation plus users.read and processTemplates.read, EMPLOYEE holds participation only. |
| Rbac.AdminsHoldEveryPermission | src/lib/rbac.ts:31-72 | SUPER_ADMIN and ADMIN have the same permission set, and each holds every permission, processTemplates.create among them. |
| Rbac.RolesAreNested | src/lib/rbac.ts:52-80 | EMPLOYEE's permissions are a strict subset of MANAGER's, which are a strict subset of ADMIN's. |
| Rbac.EveryRoleParticipates | src/lib/rbac.ts:30-81 | Every role holds processInstances.create, processInstances.read and tasks.updateStatus. |
| Rbac.OnlyAdminsAuthorTemplates | src/lib/rbac.ts:30-86 | Creating, updating and deleting templates is held exactly by SUPER_ADMIN and ADMIN. |
| Arrays.Includes | src/lib/rbac.ts:85 | The `includes` scan answers true exactly for members of the list. |
| Arrays.Filter | src/lib/nav-config.ts:43 | `filter` keeps the accepted elements in order: the result is a subsequence, no longer than the input, holding exactly the accepted elements. |
| Arrays.FilterCounts | src/lib/nav-config.ts:43 | Every accepted value occurs in the result as many times as in the input, and a rejected one not at all, so duplicates are kept. |
| Arrays.Any | src/proxy.ts:9 | `some` is true exactly when some element satisfies the test. |
| NavConfig.ItemsForRole | src/lib/nav-config.ts:41-49 | No role gives no items; otherwise the result is an order-preserving subsequence of the menu that contains an item exactly when the item's roles include the role (soundness and completeness). |
| NavConfig.NavItemsForRole | src/lib/nav-config.ts:41-44 | The same three facts for the main menu: empty without a role, a subsequence, sound and complete. |
| NavConfig.ReportNavItemsForRole | src/lib/nav-config.ts:46-49 | The same three facts for the reports menu. |
| NavConfig.MainMenuByRole | src/lib/nav-config.ts:24-33 | Process Templates is shown exactly to SUPER_ADMIN; Dashboard, Process Instances, My Tasks and My Processes are shown to every role. |
| NavConfig.AdministrationMenuByRole | src/lib/nav-config.ts:26-28 | Users, Departments and Job Positions are shown exactly to SUPER_ADMIN and ADMIN. |
| NavConfig.ReportsByRole | src/lib/nav-config.ts:35-49 | EMPLOYEE sees no report; every other role sees all three, in menu order. |
| Strings.Split | src/lib/breadcrumb-config.ts:2 | `split` always gives at least one part, and no part contains the separator. |
| Strings.SplitJoin | src/lib/breadcrumb-config.ts:2 | Splitting the "/"-join of slash-free parts gives the parts back. |
| Strings.JoinSplit | src/lib/breadcrumb-config.ts:2 | Joining the parts of a split gives the original string back. |
| Breadcrumbs.Segments | src/lib/breadcrumb-config.ts:2 | Every segment is non-empty and free of "/". |
| Breadcrumbs.Caption | src/lib/breadcrumb-config.ts:5-27 | A segment in the label table gets its label; an unknown segment longer than 15 characters gets "Detail"; any other gets its first letter upper-cased and the rest unchanged. |
| Breadcrumbs.CrumbsFrom | src/lib/breadcrumb-config.ts:20-32 | From index i on, the loop emits one crumb per remaining segment, captioned from it, linked to the path up to and including it, except the last, which has no link. |
| Breadcrumbs.BreadcrumbFromPath | src/lib/breadcrumb-config.ts:1-35 | A path without segments gives only the Dashboard crumb; otherwise there is one crumb per segment, captioned from it, and exactly the last crumb has no link. |
| Breadcrumbs.PathOfIsJoin | src/lib/breadcrumb-config.ts:21-25 | The accumulated href is "/" before each segment, that is, the segments joined by "/" after an empty leading part. |
| Breadcrumbs.SegmentsAtSlash | src/lib/breadcrumb-config.ts:2 | Cutting a path at one "/" splits its segments into those of the two halves. |
| Breadcrumbs.ExtraSlashesIgnored | src/lib/breadcrumb-config.ts:2 | Doubled, leading and trailing slashes add no segment. |
| Breadcrumbs.PathOfRoundTrip | src/lib/breadcrumb-config.ts:2-25 | Parsing an accumulated href gives back the segments it was built from. |
| Breadcrumbs.SplitPathOf | src/lib/breadcrumb-config.ts:2-25 | Cutting an accumulated href at "/" gives an empty leading part, then exactly the segments it was built from. |
| Breadcrumbs.CrumbsOfPath | src/lib/breadcrumb-config.ts:1-32 | Opening an accumulated href shows one crumb per segment it was built from, captioned from that segment. |
| Breadcrumbs.CrumbLinkRoundTrip | src/lib/breadcrumb-config.ts:21-30 | Crumb k links to "/" + the first k + 1 segments joined by "/"; opening that link shows k + 1 crumbs with the same captions. |
| Breadcrumbs.PathOfPrefix | src/lib/breadcrumb-config.ts:21-25 | The href accumulated after fewer segments is a prefix of the one after more. |
| Breadcrumbs.LinksNest | src/lib/breadcrumb-config.ts:25-30 | Each crumb's link is a prefix of every later crumb's link. |
| Breadcrumbs.DashboardOnlyForRoot | src/lib/breadcrumb-config.ts:2-3 | The lone Dashboard crumb appears exactly for paths made only of slashes, "" and "/" among them. |
| Strings.ReplaceAll | src/lib/email.ts:187-191 | A global one-character replace leaves text without that character unchanged, leaves no occurrence behind when the replacement lacks it, and produces only replacement characters or other input characters. |
| Email.ReplaceChainConcat | src/lib/email.ts:185-192 | The chain of five replacements distributes over concatenation. |
| Email.ReplaceChainChar | src/lib/email.ts:185-192 | The chain maps each single character to its entity (& < > " ' to &amp; &lt; &gt; &quot; &#39;) and leaves others unchanged. |
| Email.ReplaceChainIsCharMap | src/lib/email.ts:185-192 | Because "&" is replaced first, the chain equals the per-character map: no produced entity is escaped again. |
| Email.EscapeEachFacts | src/lib/email.ts:185-192 | The per-character map's output holds none of < > " ', is never shorter than the input, and equals the input when nothing needed escaping. |
| Email.EscapeEachRoundTrip | src/lib/email.ts:185-192 | Reading the entities back after the per-character map gives the original text, so escaping loses nothing. |
| Email.EscapeHtml | src/lib/email.ts:185-192 | `escapeHtml` is the per-character entity map; its output carries no markup characters, is never shorter, is the input when nothing needed escaping, and reads back to the input. |
| Email.LayoutFrames | src/lib/email.ts:34-49 | The layout opens with the fixed head, has the content block verbatim right after it, and ends with the link to the site URL and the fixed tail. |
| Email.ContainsOnPage | src/lib/email.ts:34-49 | Any text inside the content block is also on the laid-out page. |
| Email.PageLinks | src/lib/email.ts:34-49 | The laid-out page of a notification contains a link to the content's URL and a link to the site URL. |
| Email.PageGreets | src/lib/email.ts:34-49 | The laid-out page contains the greeting line "Hello " + the content's greeting + ",". |
| Email.BulletContentFacts | src/lib/email.ts:62-68 | A bulleted notification with an escaped greeting and markup-free items carries no markup; the reader sees the greeted name then the items' values, under the items' names. |
| Email.EscapedItemsFacts | src/lib/email.ts:65-68 | List items built from raw values carry no markup characters, show exactly those values once read back, and are named by the given names. |
| Email.TaskAssignedContent | src/lib/email.ts:59-70 | The link is site URL + "/process-instances/" + instance id; user texts are escaped; the reader sees the assignee, process and task names, in that order, under items Process and Task. |
| Email.BuildTaskAssignedEmail | src/lib/email.ts:59-75 | The subject is "[BPM] Task assigned: " + raw task name + " – " + raw process name; the html is exactly the laid-out page of the notification content described in the row above. |
| Email.TaskAssignedPage | src/lib/email.ts:59-75 | The sent html links to the process instance and to the site and greets the assignee as "Hello " + escaped name + ",". |
| Email.TaskStartedContent | src/lib/email.ts:86-98 | Same link rule; the reader sees assignee, process, task and starter names under items Process, Task, Started by. |
| Email.BuildTaskStartedEmail | src/lib/email.ts:86-103 | The subject is "[BPM] Task started: " + raw task name + " – " + raw process name; the html is exactly the laid-out page of the notification content described in the row above. |
| Email.TaskStartedPage | src/lib/email.ts:86-103 | The sent html links to the process instance and to the site and greets the assignee as "Hello " + escaped name + ",". |
| Email.TaskApprovedContent | src/lib/email.ts:114-126 | Same link rule; the reader sees recipient, process, task and approver names under items Process, Task, Approved by. |
| Email.BuildTaskApprovedEmail | src/lib/email.ts:114-131 | The subject is "[BPM] Task approved: " + raw task name + " – " + raw process name; the html is exactly the laid-out page of the notification content described in the row above. |
| Email.TaskApprovedPage | src/lib/email.ts:114-131 | The sent html links to the process instance and to the site and greets the recipient as "Hello " + escaped name + ",". |
| Email.CommentLine | src/lib/email.ts:153 | The optional comment line carries no markup; the reader sees the comment, under the item name Comment, exactly when the comment is non-empty, and nothing otherwise. |
| Email.RejectedLines | src/lib/email.ts:149-154 | The list shows process, task and rejecter names, then the comment exactly when it is non-empty, under items Process, Task, Rejected by and (then) Comment. |
| Email.TaskRejectedContent | src/lib/email.ts:143-156 | Same link rule; the reader sees the recipient then the list above, and a Comment item appears exactly when the comment is non-empty. |
| Email.BuildTaskRejectedEmail | src/lib/email.ts:143-161 | The subject is "[BPM] Task rejected: " + raw task name + " – " + raw process name; the html is exactly the laid-out page of the notification content described in the row above. |
| Email.TaskRejectedPage | src/lib/email.ts:143-161 | The sent html links to the process instance and to the site and greets the recipient as "Hello " + escaped name + ",". |
| Email.ProcessCompletedContent | src/lib/email.ts:170-178 | Same link rule; the reader sees the recipient and the emphasised process name, with no list items. |
| Email.BuildProcessCompletedEmail | src/lib/email.ts:170-183 | The subject is "[BPM] Process completed: " + raw process name; the html is exactly the laid-out page of the notification content described in the row above. |
| Email.ProcessCompletedPage | src/lib/email.ts:170-183 | The sent html links to the process instance and to the site and greets the recipient as "Hello " + escaped name + ",". |
| Email.IsEmailConfigured | src/lib/email.ts:7-9 | Email counts as configured exactly when Office 365 is configured or RESEND_API_KEY is set and non-empty, and that is exactly when sending has a transport. |
| Email.EmailTransport | src/lib/email.ts:3-21 | Office 365 wins whenever configured; otherwise a set, non-empty RESEND_API_KEY selects Resend, sending from BPM_EMAIL_FROM or the default sender, and without it sending fails with "Email is not configured (set Office 365 or RESEND_API_KEY)."; no other failure. |
| Proxy.Decide | src/proxy.ts:5-16 | A request is redirected exactly when it has no session and its path neither starts with "/api/auth" nor with a public prefix; the redirect always goes to "/auth/login" with the requested path as callbackUrl. |
| Proxy.PrefixesStayOpen | src/proxy.ts:3-10 | Anything below "/api/auth" or below a public page passes through, with or without a session. |
| Proxy.NoRedirectLoop | src/proxy.ts:3-14 | The page a redirect points to, and every page below it, is let through without a session. |
| Proxy.SessionOpensEverything | src/proxy.ts:11-16 | With a session every request passes; a path needs a session exactly when its decision changes with the session. |
| Proxy.PrefixExamples | src/proxy.ts:3-14 | "/auth/login/x" and "/api/authx" pass without a session; "/auth" and "/dashboard" redirect to the login page carrying the path. |
| BunnyCdn.SchemeLength | src/lib/bunnycdn.ts:10 | The `^https?:\/\/` match has length 7 exactly for an "http://" prefix, 8 exactly for "https://", and 0 otherwise. |
| BunnyCdn.DropTrailingSlash | src/lib/bunnycdn.ts:10-15 | Removing `\/$` drops one final slash when there is one and changes nothing otherwise. |
| BunnyCdn.ApiHost | src/lib/bunnycdn.ts:10 | STORAGE_API_HOST is unset exactly when the variable is; otherwise the variable is the matched scheme, then the value, then a "/" exactly when the scheme-stripped text ends with one. |
| BunnyCdn.NormalizeApiHost | src/lib/bunnycdn.ts:10 | The input is the matched scheme, then the result, then at most one "/", and that slash is there exactly when the scheme-stripped text ends with "/". |
| BunnyCdn.NormalizeRecoversBareHost | src/lib/bunnycdn.ts:10 | For a slash-free host, normalising it with any of "", "http://", "https://" in front and an optional "/" behind gives the host back. |
| BunnyCdn.NormalizeStripsOnce | src/lib/bunnycdn.ts:10 | Only one scheme and one trailing slash go: "https://https://x.net//" becomes "https://x.net/". |
| BunnyCdn.CdnHost | src/lib/bunnycdn.ts:12-17 | The CDN host is unset exactly when neither BUNNY_CDN_HOST nor BUNNY_CDN_HOSTNAME survives slash removal non-empty; it is never empty; it equals BUNNY_CDN_HOST with one trailing slash removed when that is usable, else "https://" + BUNNY_CDN_HOSTNAME with one trailing slash removed. |
| BunnyCdn.StorageHost | src/lib/bunnycdn.ts:7-23 | Always an https URL: "https://" + the normalised API host when non-empty, else "https://" + region + ".storage.bunnycdn.com" for a non-empty region, else "https://storage.bunnycdn.com". |
| BunnyCdn.IsBunnyConfigured | src/lib/bunnycdn.ts:25-27 | Configured exactly when zone and access key are non-empty and one of the CDN host variables is usable. |
| BunnyCdn.UploadRequestFor | src/lib/bunnycdn.ts:41-57 | Unconfigured, the upload fails with the configuration error before any request; otherwise the PUT goes to storage host + "/" + zone + "/" + path with the access key and content type. |
| BunnyCdn.UploadToBunny | src/lib/bunnycdn.ts:36-67 | Unconfigured: the configuration error; a response that is not ok: "BunnyCDN upload failed: " + status + " " + body text; otherwise the CDN host + "/" + path. |
| BunnyCdn.PublicUrlLocatesPath | src/lib/bunnycdn.ts:66 | The public URL of a successful upload is the CDN host, "/", then exactly the path, so the path can be read back from it. |
| BunnyCdn.RequestUrlLocatesPath | src/lib/bunnycdn.ts:45-46 | When configured, the PUT URL starts with "https://" and ends in "/" + path. |
| Auth.Authorize | src/auth.ts:34-48 | Sign-in succeeds exactly when email and password are non-empty, a row has that email, its hashed password is non-empty and `compare` accepts; the result carries the row's id, email, role and "first last" name. |
| Auth.Jwt | src/auth.ts:53-59 | With a user the token takes its id and role; without one the token is unchanged; other claims are never touched. |
| Auth.SessionFor | src/auth.ts:60-67 | A session with a user takes the token's id and role and keeps its other fields; a session without a user is unchanged. |
| Auth.SignedInSessionCarriesUser | src/auth.ts:34-67 | After a successful sign-in the session carries the row's id and role, and still does on a later request, when the callback runs without a user. |
| Auth.SignedInPermissions | src/auth.ts:53-67 | On a request after sign-in, the session's role grants exactly the permissions the stored row's role has in the table (src/lib/rbac.ts:83-86). |
| Users.FindUnique | src/app/auth/register/actions.ts:18 | The lookup finds a row exactly when the email is a key, that row is the stored one, and in a well-keyed table it carries the email asked for. |
| Register.Register | src/app/auth/register/actions.ts:8-34 | A missing or empty field gives "All fields are required." and a taken email "An account with this email already exists.", both with the table unchanged; otherwise exactly one row is added under the email, with the new id, the names, hash(password) and role EMPLOYEE, every other row is kept, and the user goes to "/dashboard". |
| Register.RegisterPreservesUniqueness | src/app/auth/register/actions.ts:18-30 | Every row stays under its own email, so emails stay unique; ids stay distinct when the new id is fresh. |
| Register.RegisterTwiceRefused | src/app/auth/register/actions.ts:18-19 | Registering the same email again is refused with the duplicate error and changes nothing. |
| Register.PasswordNeverStored | src/app/auth/register/actions.ts:21-25 | The stored credential is the hash; when `hash` never returns its input, the raw password is not what is stored. |
| Register.RegisterThenSignIn | src/app/auth/register/actions.ts:21-32 | After a successful registration, signing in with the same email and password returns the new user with role EMPLOYEE and name "first last", given that hashes are non-empty and `compare` accepts a password against its own hash. |

## Left out

- The workflow engine (process instances, the task state machine, completion, assignee resolution, template editing) is not part of this model.
- `sendEmail`'s delivery through the Resend SDK and `sendEmailViaOutlook` (Microsoft Graph, `getAccessToken` and its time-based token cache) are network I/O; only the choice of transport and its error message are modelled.
- The Office 365 settings are read in src/lib/email-outlook.ts; the model takes them as the four `MailEnv` fields and tests that all four are non-empty.
- The `fetch` PUT of `uploadToBunny`, the Buffer to Uint8Array conversion and the async error are replaced by a response function and a `Result`.
- bcrypt (`hash` at cost 12, `compare`), Prisma queries and id generation are parameters; the database schema is not part of this model.
- `signIn` after registration and `redirect("/dashboard")` are not executed: the outcome records the redirect target, and `Register.RegisterThenSignIn` states what the sign-in would return.
- NextAuth's own token claims, secrets, the 30-day session lifetime and the `pages` option are library configuration.
- The `matcher` regex in src/proxy.ts, which decides which requests reach the guard at all, is not modelled; the guard is modelled for every path.
- The URL query-string encoding of `callbackUrl` and the absolute login URL built from `req.url` are not modelled; the redirect carries the login path and the raw pathname.
- Breadcrumbs.Caption: upper-casing is ASCII only, not Unicode `toUpperCase`, and the label table is a map, so prototype keys such as "constructor" are not special. Lengths are counted in characters, while JavaScript's `length` counts UTF-16 code units: a segment of eight U+1F600 characters is 16 code units long, so the application shows "Detail" where the model upper-cases it.
- Register.Register: the duplicate lookup and the insert are one atomic step; a database error from `create` (such as a concurrent registration of the same email hitting the unique email column) is not modelled.
- `String(credentials.email)` and `formData.get(...) as string` coercions are not modelled: fields are optional strings.
- Menu icons, report export (ExcelJS, jsPDF), React components, the seed script and the test-email and license API routes are presentation or tooling.
