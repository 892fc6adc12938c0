# Buildify front-end logic in Dafny

Buildify is a React website builder. Its front end holds the logic modelled here:

- a page-builder document of typed sections, which the editor changes and the preview reads back with defaults;
- a template gallery with search, category tabs and an editor link;
- a mock serverless function that turns a prompt into a three-section site;
- four admin tables and a project list, each with a case-insensitive search, paging by 10, coloured badges and delete-by-id;
- a session kept under the browser-storage key `user`, written by the login form, checked by the admin guard, and shown and cleared by the two navigation bars and the admin sidebar.

Component state becomes Dafny classes whose methods replace fields, as the handlers do. Computations done during a render become functions. Browser storage is a `Storage` object over `map<string, User>`. The remote sign-in and the remote user lookup become `bool` parameters. Randomly drawn project ids are parameters too.

Modules (one file each):
- `Wrappers`, `Text` and `Lists` are the shared helpers: `Option`, the ASCII string operations, and `filter` with subsequence facts.
- `Document`, `Editor` and `Preview` cover the content document and the two pages that use it.
- `Templates` and `GenerateWebsite` cover the gallery and the mock function.
- `Tables`, `TicketsTable`, `UsersTable`, `AdminProjectsTable`, `PaymentsTable` and `ProjectsPage` cover the lists.
- `Session`, `Login`, `AdminDashboard`, `Navbar`, `AdminNavbar` and `AdminSidebar` cover the session.

## Model

| member | source | states |
|---|---|---|
| Wrappers.Option.GetOr | src/functions/generate-website.ts:88 | an absent value gives the default, a present one is kept |
| Text.LowerChar | src/pages/Templates.tsx:81-82 | an ASCII capital becomes its small letter (code + 32), other characters are kept, and the result is never a capital |
| Text.UpperChar | src/components/admin/AdminNavbar.tsx:133 | an ASCII small letter becomes its capital (code - 32), other characters are kept, and the result is never a small letter |
| Text.Lower | src/components/admin/TicketsTable.tsx:82-84 | `toLowerCase` keeps the length and lowers each character |
| Text.ContainsAt | src/components/admin/TicketsTable.tsx:82-84 | the recursive `includes` holds exactly when the needle occurs at some index |
| Text.ContainsEmpty | src/components/admin/PaymentsTable.tsx:76-80 | the empty string occurs in every string, with or without case folding |
| Text.ContainsInfix | src/functions/generate-website.ts:106 | `b` occurs in `a + b + c` |
| Text.CommonPrefix | src/components/admin/AdminSidebar.tsx:18-20 | two prefixes of one path are prefixes of each other |
| Text.TrimStart | src/pages/Projects.tsx:37 | the result is a suffix, the removed prefix is all whitespace, the result is empty exactly for blank input, and otherwise starts with a non-space |
| Text.CaseRoundTrip | src/pages/Templates.tsx:81-82 | lower-casing a capital and upper-casing a small letter are undone by the opposite fold |
| Text.TrimEnd | src/pages/Projects.tsx:37 | the result is a prefix, the removed suffix is all whitespace, the result is empty exactly for blank input, and otherwise ends with a non-space |
| Text.Trim | src/pages/Editor.tsx:101 | `trim()` is the input with a whitespace prefix and a whitespace suffix removed; it is empty exactly when the input is all whitespace, and otherwise has non-space ends |
| Lists.Filter | src/components/admin/TicketsTable.tsx:81-85 | `filter` keeps, in order, exactly the elements that pass, with their multiplicities |
| Lists.FilterKeepsAll | src/components/admin/PaymentsTable.tsx:76-80 | when every element passes, the filter returns the list itself |
| Lists.FilterCommutes | src/pages/Projects.tsx:40-43 | two filters can be applied in either order |
| Lists.FilterMonotone | src/pages/Projects.tsx:103-104 | filtering a subsequence gives a subsequence of the filtered list |
| Lists.SubseqOfTail | src/pages/Projects.tsx:103-104 | a subsequence stays one when an element is put in front |
| Lists.SubseqRefl | src/pages/Projects.tsx:38 | every list is a subsequence of itself |
| Document.InitialContent | src/pages/Editor.tsx:35-49 | the loaded document has the title "Welcome to my website" and two sections, hero then text |
| Document.InitialProject | src/pages/Editor.tsx:30-54 | the mock project carries the route id, is unpublished and holds the initial document |
| Document.OrDefault | src/pages/Preview.tsx:125-131 | `x \|\| d` yields `d` for a missing or empty value and the value otherwise |
| Document.SectionAt | src/pages/Preview.tsx:125 | `sections?.[i]` exists exactly when `sections` exists and is long enough |
| Document.SetField | src/pages/Editor.tsx:258 | the shallow merge sets one field and leaves every other field unchanged |
| Document.EditSection | src/pages/Editor.tsx:255-264 | the section edit keeps the title and the count, changes only element `i`, and leaves existing sections exactly as they were when `i` is out of range |
| Document.GeneratedSection | src/pages/Editor.tsx:119-122 | the appended section is a text section reading `Generated content based on: "<prompt>"`, with no heading, subheading, button or items |
| Document.AppendGenerated | src/pages/Editor.tsx:115-124 | the earlier sections stay in order and exactly one generated section follows them |
| Document.Publish | src/pages/Editor.tsx:82 | `published` becomes true, nothing else changes, and publishing a published project is a no-op |
| Document.InitialPreview | src/pages/Preview.tsx:110-150 | the initial document's title is its own title, which equals the default hero heading; its hero heading, subheading, button text and body text equal the fallback texts |
| Document.EditReadsBack | src/pages/Editor.tsx:253-302 | an edited field reads back its new value, and every other position and field reads back as before |
| Document.HeadingEditInPreview | src/pages/Editor.tsx:255-264 | a heading edit shows up as the preview's hero heading and changes nothing else the preview shows |
| Document.BodyEditInPreview | src/pages/Editor.tsx:292-302 | a text edit shows up as the preview's body text and leaves the hero alone |
| Editor.GenerateDisabled | src/pages/Editor.tsx:353 | the Generate button is enabled exactly when nothing is generating and the trimmed prompt is non-empty, that is, disabled exactly while generating or for an all-whitespace prompt |
| Editor.EditorPage.constructor | src/pages/Editor.tsx:16-26 | the state before loading: an empty project with `content: {}`, loading true |
| Editor.EditorPage.Load | src/pages/Editor.tsx:28-56 | the load effect installs the mock project and clears `loading` |
| Editor.EditorPage.EditTitle | src/pages/Editor.tsx:243-246 | the title input sets `content.title` and nothing else |
| Editor.EditorPage.EditSectionField | src/pages/Editor.tsx:255-264 | the copy-then-assign section edit equals `EditSection` on the old content |
| Editor.EditorPage.EditHeroHeading | src/pages/Editor.tsx:255-264 | changes the heading at position 0, whatever that section's type |
| Editor.EditorPage.EditHeroSubheading | src/pages/Editor.tsx:273-283 | changes the subheading at position 0 |
| Editor.EditorPage.EditTextContent | src/pages/Editor.tsx:292-302 | changes the body text at position 1 |
| Editor.EditorPage.EditName | src/pages/Editor.tsx:314 | sets the name and nothing else |
| Editor.EditorPage.EditDescription | src/pages/Editor.tsx:323 | sets the description and nothing else |
| Editor.EditorPage.EditPrompt | src/pages/Editor.tsx:25 | sets the prompt and nothing else |
| Editor.EditorPage.Save | src/pages/Editor.tsx:58-77 | saving ends with the flag lowered and the project untouched |
| Editor.EditorPage.HandlePublish | src/pages/Editor.tsx:79-94 | the project becomes `Publish(project)` |
| Editor.EditorPage.HandleGenerateContent | src/pages/Editor.tsx:100-143 | a blank prompt changes nothing; otherwise one generated section is appended and the prompt cleared (the no-sections case is handled as the code behaves) |
| Editor.PublishTwice | src/pages/Editor.tsx:82 | publishing twice equals publishing once |
| Editor.LoadThenEditHeading | src/pages/Editor.tsx:255-264 | after load and a heading edit, only `sections[0].heading` differs from the initial project |
| Preview.Render | src/pages/Preview.tsx:63-150 | loading shows the spinner, a null project shows not-found, and otherwise every text is the field or its default |
| Preview.PublishLoaded | src/pages/Preview.tsx:49 | a loaded project is published, and a null project stays null |
| Preview.InitialView | src/pages/Preview.tsx:16-43 | the loaded mock project shows its own title (equal to the default hero heading) in header and footer, and hero and body texts equal to the fallback texts |
| Preview.ShownTextsNonEmpty | src/pages/Preview.tsx:110-150 | no shown title, hero text or body text is ever empty |
| Preview.PublishChangesOnlyBadge | src/pages/Preview.tsx:49 | publishing changes only the published badge of the page |
| Preview.PreviewPage.constructor | src/pages/Preview.tsx:11-12 | the page starts loading with no project |
| Preview.PreviewPage.Load | src/pages/Preview.tsx:14-44 | the load timer installs the mock project and clears `loading` |
| Preview.PreviewPage.HandlePublish | src/pages/Preview.tsx:46-61 | the project becomes `PublishLoaded(project)` and `loading` is kept |
| Templates.Catalog | src/pages/Templates.tsx:13-62 | the catalog has six entries |
| Templates.FilterTemplates | src/pages/Templates.tsx:80-85 | the result is an ordered subsequence holding each entry that matches both the search and the tab as often as the input does, and no other |
| Templates.FilteredTemplates | src/pages/Templates.tsx:80-85 | the same, over the catalog |
| Templates.UnfilteredShowsAll | src/pages/Templates.tsx:80-85 | an empty query on the `all` tab returns the whole catalog in order |
| Templates.TemplateType | src/pages/Templates.tsx:89-98 | a mapped name gives its type, any other name `landing`, and the type is always one of the six |
| Templates.CatalogTypes | src/pages/Templates.tsx:13-62 | every catalog name is a map key, and the names map, in order, to blog, ecommerce, portfolio, landing, social, content |
| Templates.EditorUrl | src/pages/Templates.tsx:107 | the route is `/editor/`, then the id, then `?template=` and the type |
| Templates.SelectTemplate | src/pages/Templates.tsx:87-108 | choosing a template routes to the editor with the given id and the template's mapped type |
| Templates.EditorUrlInjective | src/pages/Templates.tsx:107 | ids without `?` and types are recovered from the route |
| Templates.SelectCatalogEntry | src/pages/Templates.tsx:87-108 | each catalog entry leads to the editor with its own type |
| GenerateWebsite.ShortPrompt | src/functions/generate-website.ts:92 | the prompt is cut to 30 characters, and `...` is added exactly when it was longer |
| GenerateWebsite.WebsiteTitle | src/functions/generate-website.ts:92 | the title is `Website based on: "` + the prompt + `"` for a prompt of at most 30 characters, and otherwise the first 30 characters followed by `..."`; it starts with the fixed prefix and contains the kept characters |
| GenerateWebsite.MockHero | src/functions/generate-website.ts:97-103 | the hero greets with the title and names the style and the type |
| GenerateWebsite.MockText | src/functions/generate-website.ts:104-107 | the text section quotes the whole prompt |
| GenerateWebsite.MockFeatures | src/functions/generate-website.ts:108-125 | the features section has exactly three items |
| GenerateWebsite.MockContent | src/functions/generate-website.ts:88-130 | three sections, hero, text and features, with defaults `landing-page` and `modern` |
| GenerateWebsite.Handler | src/functions/generate-website.ts:38-85 | OPTIONS gives 204 and no body; a falsy prompt gives 400; a failed parse or a non-string prompt gives 500; a non-empty string prompt gives 200 with the content |
| GenerateWebsite.ContentShape | src/functions/generate-website.ts:96-126 | the section order is hero, text, features, with three feature items |
| GenerateWebsite.HeadingAndText | src/functions/generate-website.ts:99-106 | the heading is "Welcome to " plus the title, and the text section contains the untruncated prompt |
| GenerateWebsite.SubheadingDefaults | src/functions/generate-website.ts:88-100 | the type and the style, or their defaults, both appear in the subheading |
| Tables.TotalPages | src/components/admin/TicketsTable.tsx:87 | `ceil(n / 10)`: the smallest page count covering n rows, zero exactly for no rows |
| Tables.SliceIndex | src/components/admin/TicketsTable.tsx:90 | `slice` index normalisation stays in bounds and keeps in-range indices |
| Tables.PageRows | src/components/admin/TicketsTable.tsx:88-90 | page p shows rows `(p-1)*10` to `min(p*10, n)`: at most 10, none past the last page, some on every real page |
| Tables.PageRowsFromList | src/components/admin/TicketsTable.tsx:90 | every row on a page is a row of the list |
| Tables.PagesUpToIsPrefix | src/components/admin/TicketsTable.tsx:88-90 | the first k pages together are the first `min(10k, n)` rows |
| Tables.PagesPartition | src/components/admin/UsersTable.tsx:82-85 | pages 1 to `totalPages` put together give back the filtered list |
| Tables.PagerShownIff | src/components/admin/TicketsTable.tsx:207 | the pager is rendered exactly when there are more than 10 rows |
| Tables.SummaryBounds | src/components/admin/TicketsTable.tsx:210 | "Showing a to b" never passes n, and on a real page counts exactly its rows |
| Tables.TableState.constructor | src/components/admin/TicketsTable.tsx:77-78 | empty search, page 1 |
| Tables.TableState.SetSearchTerm | src/components/admin/TicketsTable.tsx:131 | typing replaces the term and does not reset the page |
| Tables.TableState.ClickPrev | src/components/admin/TicketsTable.tsx:213-220 | the previous button takes effect only when the pager shows and the page is not 1 |
| Tables.TableState.ClickNext | src/components/admin/TicketsTable.tsx:231-238 | the next button takes effect only when the pager shows and the page is not the last |
| Tables.TableState.ClickPage | src/components/admin/TicketsTable.tsx:221-230 | a numbered button sets that page |
| TicketsTable.SeedTickets | src/components/admin/TicketsTable.tsx:24-75 | the table starts with five tickets |
| TicketsTable.FilteredTickets | src/components/admin/TicketsTable.tsx:81-85 | keeps, in order and with their multiplicities, exactly the tickets whose subject, user or id contains the term, ignoring case |
| TicketsTable.EmptyTermKeepsAll | src/components/admin/TicketsTable.tsx:81-85 | an empty search keeps every ticket |
| TicketsTable.CurrentTickets | src/components/admin/TicketsTable.tsx:88-90 | at most 10 rows, and none past the last page |
| TicketsTable.ShownTicketsMatch | src/components/admin/TicketsTable.tsx:81-90 | every shown row is a ticket that matches the search |
| TicketsTable.StatusColor | src/components/admin/TicketsTable.tsx:96-107 | Open blue, In Progress yellow, Closed green, anything else gray |
| TicketsTable.PriorityColor | src/components/admin/TicketsTable.tsx:109-120 | High red, Medium yellow, Low green, anything else gray |
| UsersTable.SeedUsers | src/components/admin/UsersTable.tsx:24-70 | the table starts with five users |
| UsersTable.FilteredUsers | src/components/admin/UsersTable.tsx:76-80 | keeps, in order and with their multiplicities, exactly the users whose name, email or role contains the term, ignoring case |
| UsersTable.CurrentUsers | src/components/admin/UsersTable.tsx:82-85 | at most 10 rows, and none past the last page |
| UsersTable.PagesCoverFiltered | src/components/admin/UsersTable.tsx:82-85 | the pages partition the filtered users |
| UsersTable.RoleColor | src/components/admin/UsersTable.tsx:146-150 | Admin purple, Editor blue, anything else gray |
| UsersTable.StatusColor | src/components/admin/UsersTable.tsx:155-158 | Active green, anything else red |
| UsersTable.AvatarInitial | src/components/admin/UsersTable.tsx:139 | `charAt(0)`: the first character, or empty for an empty name |
| AdminProjectsTable.SeedProjects | src/components/admin/ProjectsTable.tsx:24-70 | the table starts with five rows |
| AdminProjectsTable.FilteredProjects | src/components/admin/ProjectsTable.tsx:76-80 | keeps, in order and with their multiplicities, exactly the rows whose name, owner or template contains the term, ignoring case |
| AdminProjectsTable.CurrentProjects | src/components/admin/ProjectsTable.tsx:82-85 | at most 10 rows, and none past the last page |
| AdminProjectsTable.SeedHasOnePage | src/components/admin/ProjectsTable.tsx:24-82 | with the seeded rows there is at most one page for any term, so the pager never shows |
| AdminProjectsTable.SummaryWithinCount | src/components/admin/ProjectsTable.tsx:186 | the summary's upper figure never exceeds the match count |
| AdminProjectsTable.TemplateColor | src/components/admin/ProjectsTable.tsx:139-145 | E-commerce green, Blog blue, Portfolio purple, Forum red, anything else gray |
| AdminProjectsTable.StatusColor | src/components/admin/ProjectsTable.tsx:150-153 | Published green, anything else yellow |
| PaymentsTable.SeedPayments | src/components/admin/PaymentsTable.tsx:24-70 | the table starts with five payments |
| PaymentsTable.FilteredPayments | src/components/admin/PaymentsTable.tsx:76-80 | keeps, in order and with their multiplicities, exactly the payments whose user, id or plan contains the term, ignoring case |
| PaymentsTable.EmptyTermKeepsAll | src/components/admin/PaymentsTable.tsx:76-80 | an empty search keeps every payment |
| PaymentsTable.CurrentPayments | src/components/admin/PaymentsTable.tsx:82-85 | at most 10 rows, and none past the last page |
| PaymentsTable.PagerHiddenForFewRows | src/components/admin/PaymentsTable.tsx:185 | the pager is hidden exactly when at most 10 payments match |
| PaymentsTable.StatusColor | src/components/admin/PaymentsTable.tsx:91-102 | Paid green, Pending yellow, Failed red, anything else gray |
| ProjectsPage.SearchFilter | src/pages/Projects.tsx:36-46 | a blank query after trimming keeps all projects; otherwise exactly those whose name or description contains the untrimmed query, ignoring case, in order and with their multiplicities |
| ProjectsPage.SearchByTrim | src/pages/Projects.tsx:36-46 | with `trim()` itself: an empty trimmed query keeps every project, any other keeps exactly the matching ones |
| ProjectsPage.RemoveId | src/pages/Projects.tsx:103-104 | removes every project with the id and keeps the rest in order, each as often as it occurred |
| ProjectsPage.RemoveAbsentId | src/pages/Projects.tsx:103-104 | deleting an absent id leaves the list unchanged |
| ProjectsPage.RemovePreservesSubseq | src/pages/Projects.tsx:103-104 | a shown list that is a subsequence of the full list stays one after a delete |
| ProjectsPage.SearchAfterRemove | src/pages/Projects.tsx:36-46 | searching after a delete equals deleting from the search result |
| ProjectsPage.MockProjects | src/pages/Projects.tsx:52-85 | the mock list has three projects |
| ProjectsPage.MockProjectsWellFormed | src/pages/Projects.tsx:52-85 | the mock ids are distinct, and exactly the published projects have a published URL |
| ProjectsPage.ProjectsPage.constructor | src/pages/Projects.tsx:14-17 | empty lists, empty query, loading |
| ProjectsPage.ProjectsPage.Mount | src/pages/Projects.tsx:21-34 | without a user: go to /login and keep loading; with one: take the mock list and stop loading |
| ProjectsPage.ProjectsPage.SetSearchQuery | src/pages/Projects.tsx:36-46 | the shown list becomes the search result for the new query |
| ProjectsPage.ProjectsPage.DeleteProject | src/pages/Projects.tsx:100-117 | both lists lose exactly the entries with the id, and the following search effect changes nothing |
| ProjectsPage.DeleteAbsent | src/pages/Projects.tsx:103-104 | deleting an id that is on neither list changes neither list |
| Session.Storage.GetItem | src/pages/admin/Dashboard.tsx:25 | `getItem` finds exactly the stored keys |
| Session.Storage.SetItem | src/pages/Login.tsx:27 | `setItem` overwrites one key |
| Session.Storage.RemoveItem | src/components/Navbar.tsx:37 | `removeItem` drops one key |
| Login.Dispatch | src/pages/Login.tsx:25-57 | only the exact admin pair and the exact demo pair sign in locally |
| Login.MixedPairGoesRemote | src/pages/Login.tsx:25-60 | a mixed pair of admin and demo credentials goes to the remote sign-in |
| Login.LoginRoute | src/pages/Login.tsx:39-72 | admin goes to /admin/dashboard, demo to /dashboard, remote to /dashboard on success and nowhere on failure |
| Login.LoginPage.constructor | src/pages/Login.tsx:12-14 | empty form, not loading |
| Login.LoginPage.HandleLogin | src/pages/Login.tsx:18-82 | a local login stores its session under `user`; a remote one writes nothing; `loading` is false on every path |
| Login.LoginPage.FillDemo | src/pages/Login.tsx:84-87 | the demo button fills in the demo account |
| Login.LoginPage.FillAdmin | src/pages/Login.tsx:89-92 | the admin button fills in the admin account |
| AdminDashboard.Guard | src/pages/admin/Dashboard.tsx:25-43 | no session redirects to login, a non-admin role is denied, and an admin session renders for that user |
| AdminDashboard.RedirectTarget | src/pages/admin/Dashboard.tsx:27-38 | a redirect goes to /login or /dashboard, and rendering never redirects |
| AdminDashboard.AdminSessionPasses | src/pages/admin/Dashboard.tsx:32 | the session an admin login writes passes the guard |
| AdminDashboard.DemoSessionDenied | src/pages/admin/Dashboard.tsx:32-39 | the session a demo login writes is denied |
| AdminDashboard.SignedOutRedirects | src/pages/admin/Dashboard.tsx:26-28 | after sign-out the guard redirects to /login |
| AdminDashboard.AdminDashboardPage.constructor | src/pages/admin/Dashboard.tsx:17-18 | loading, no user |
| AdminDashboard.AdminDashboardPage.CheckUser | src/pages/admin/Dashboard.tsx:22-47 | a redirect leaves `loading` and `user` as they were; otherwise the admin user is set and loading ends |
| AdminDashboard.AdminLoginThenDashboard | src/pages/Login.tsx:25-39 | an admin signed in through the form sees the dashboard |
| Navbar.AuthLinks | src/components/Navbar.tsx:59-89 | an admin gets /admin/dashboard, any other user /dashboard, and no user /login and /register; the mobile menu (lines 163-190) makes the same choice |
| Navbar.ShowsSignOut | src/components/Navbar.tsx:60-75 | sign-out is offered exactly when the login link is not |
| Navbar.AdminLinkMatchesGuard | src/components/Navbar.tsx:62 | the admin link is offered to exactly the sessions the admin guard lets in |
| Navbar.NavbarState.constructor | src/components/Navbar.tsx:9-13 | menu closed, no user |
| Navbar.NavbarState.CheckUser | src/components/Navbar.tsx:17-22 | a stored account replaces the user; without one the user is kept, not reset |
| Navbar.NavbarState.SignOut | src/components/Navbar.tsx:34-57 | removes `user` from storage, clears the user and goes to / |
| Navbar.NavbarState.ToggleMenu | src/components/Navbar.tsx:123 | the menu button negates `isMenuOpen` |
| Navbar.ToggleTwice | src/components/Navbar.tsx:123 | two clicks restore the menu state |
| Navbar.SignOutThenGuard | src/components/Navbar.tsx:37-42 | after sign-out the navbar offers log in and sign up, and the admin guard redirects |
| AdminNavbar.SeedNotifications | src/components/admin/AdminNavbar.tsx:24-46 | the header starts with three notifications |
| AdminNavbar.UnreadCount | src/components/admin/AdminNavbar.tsx:48 | the count never exceeds the list length and is zero exactly when all are read |
| AdminNavbar.SeedUnread | src/components/admin/AdminNavbar.tsx:24-48 | initially two notifications are unread |
| AdminNavbar.BadgeShown | src/components/admin/AdminNavbar.tsx:77 | the badge shows exactly when some notification is unread |
| AdminNavbar.MarkAllAsRead | src/components/admin/AdminNavbar.tsx:55-57 | every entry becomes read, with id, title, message, time and order kept |
| AdminNavbar.MarkAllIdempotent | src/components/admin/AdminNavbar.tsx:56 | marking all as read twice is the same as once |
| AdminNavbar.MarkAllClearsBadge | src/components/admin/AdminNavbar.tsx:56-77 | afterwards nothing is unread and the badge is hidden |
| AdminNavbar.AvatarLetter | src/components/admin/AdminNavbar.tsx:133 | the upper-cased first character, or empty for an empty name |
| AdminNavbar.AdminNavbarState.constructor | src/components/admin/AdminNavbar.tsx:24-46 | the seeded notifications |
| AdminNavbar.AdminNavbarState.MarkAll | src/components/admin/AdminNavbar.tsx:55-57 | the list becomes `MarkAllAsRead` of the old one, with no unread entry |
| AdminNavbar.AdminNavbarState.Logout | src/components/admin/AdminNavbar.tsx:50-53 | removes `user` from storage and goes to /login |
| AdminSidebar.KeysOfPaths | src/components/admin/AdminSidebar.tsx:22-65 | the two characters after `/admin/` of each menu path |
| AdminSidebar.KeysDistinct | src/components/admin/AdminSidebar.tsx:22-65 | those two characters differ between any two items |
| AdminSidebar.NoPathIsPrefixOfAnother | src/components/admin/AdminSidebar.tsx:22-65 | there are seven items, and no menu path is a prefix of another |
| AdminSidebar.AtMostOneActive | src/components/admin/AdminSidebar.tsx:18-27 | for any pathname, no two items are active together |
| AdminSidebar.HelpPageHighlightsNothing | src/components/admin/AdminSidebar.tsx:94-101 | on /admin/help no menu item is active |

## Left out

- Unicode: `toLowerCase`, `toUpperCase` and `trim` work on ASCII letters and the six ASCII whitespace characters only.
- Text.LowerChar: folds the ASCII capitals only; JavaScript's `toLowerCase` also folds non-ASCII letters, which the model keeps unchanged.
- Text.UpperChar: raises the ASCII small letters only; JavaScript's `toUpperCase` also raises non-ASCII letters, and may map one character to several, which the model does not.
- Text.TrimStart: removes the six ASCII whitespace characters only; JavaScript's `trim` also removes Unicode spaces and line terminators such as U+00A0 and U+2028.
- Text.TrimEnd: the same ASCII-only whitespace as Text.TrimStart.
- Text.Trim: the same ASCII-only whitespace as Text.TrimStart.
- ShortPrompt (GenerateWebsite.ShortPrompt): the 30-character limit counts Unicode code points, while `prompt.length` and `substring(0, 30)` count UTF-16 code units, so a prompt with characters outside the Basic Multilingual Plane is cut at a different place.
- WebsiteTitle (GenerateWebsite.WebsiteTitle): built from ShortPrompt, so its length and cut point count code points, not UTF-16 code units.
- AvatarInitial (UsersTable.AvatarInitial): takes the first code point, while `charAt(0)` takes the first UTF-16 code unit, which is half of a surrogate pair for a name that starts outside the Basic Multilingual Plane.
- AvatarLetter (AdminNavbar.AvatarLetter): the same first code point instead of the first UTF-16 code unit as UsersTable.AvatarInitial.
- Timers: every `setTimeout` delay is dropped, and each handler is atomic. The generate step's stale-closure overwrite is therefore not modelled.
- Remote calls: the remote sign-in, the remote user lookup and the remote sign-out are `bool` parameters or are dropped. A throw from the remote sign-out is not modelled.
- Random ids: the drawn project id is a parameter.
- Dates and amounts: timestamps and date strings are opaque text and are not formatted. Payment amounts are integer cents, so `toFixed(2)` is not modelled.
- JSON: sessions are stored as records, so parsing and malformed stored text are not modelled. A request body is either parsed or absent.
- GenerateWebsite.Handler: a `type` or `style` that is not a string is not modelled. Neither is the JSON text of the response.
- Templates.TemplateType: lookups of inherited object keys such as `constructor` are not modelled.
- Templates.Template: the `components` field and the preview-image table are left out.
- Rendering and toasts: JSX, CSS classes and toast texts are left out. Badges are reduced to their colour key, and links to their routes.
- Editor.EditorPage.Load: the `created_at` and `updated_at` fields and the Design tab are not modelled.
- Other files: Dashboard.tsx, AIGenerator.tsx, App.tsx and the static components are not part of this model.
- Login.LoginPage.HandleLogin: a successful remote sign-in stores nothing under `user` (src/pages/Login.tsx:59-71); the remote session itself is not modelled.
