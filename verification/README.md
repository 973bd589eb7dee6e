# Company document chat: decision logic in Dafny

The application is a Next.js front end for a multi-tenant "ask your
documents" assistant. Members of a company choose some of the company's
ready documents and put questions to an AI webhook. Administrators upload
and delete documents and create users. Most of the code calls Supabase
(authentication, the `profiles` and `documents` tables, storage) or the n8n
webhooks. Underneath those calls are small pieces of deterministic decision
logic, and this project models them as pure functions over immutable
values:

- **Access routing.** Three places decide this. The request guard
  (`src/middleware.js`) decides from the session, the profile role and the
  path prefix. The landing page (`src/app/page.js`) picks a dashboard, and a
  super-administrator takes precedence over the role. The administration
  layout (`src/app/admin/layout.js`) is a client-side gate.
- **The chat screen** (`src/app/chat/page.js`). The send guard. The two
  messages an accepted send appends: the question, then an assistant
  placeholder with no content. The in-place update of that placeholder,
  which gets the trimmed answer, `No response.` or a fixed apology. The
  document selection toggle. The catalog refresh that selects every ready
  document.
- **Profile state.** The Redux slice and the component that feeds it from
  authentication events. Two context providers resolve the profile and
  differ on a failed lookup. `AuthContextProvider` fails closed. The root
  layout keeps the previous profile.
- **Document administration.** The five-row page loading with `hasMore`.
  The page counter and the reload offset after a delete. The storage object
  name built at upload. The object path recovered from the public URL at
  delete. The inserted row and the processing webhook call.
- **Small validators and formatters.** The create-user endpoint's field
  check and its mapping from outcome to status. The user card's initials,
  display name, truncation and role chip.

Every remote result is an input to the model: the session, the directory
row, a query page, the webhook reply, a thrown error, a storage or database
outcome, the generated UUID and the `confirm()` answer. The model never
performs I/O.

Modules follow the source files. `Options` and `Text` model the few
JavaScript built-ins the code relies on: `trim` with the ECMAScript
white-space set, `split`/`join` on one character, `toUpperCase`, `includes`
and `s || fallback`. `Identity` holds the user, session and profile
records. `SessionState` holds the user/profile/loading triple shared by both
context providers. `Paging` holds the listing loader shared by both
administration screens. `DocumentStore` holds what both screens do with a
file.

The model follows the code, including where it behaves differently from
what one might expect of the product:

- The chat reads the whole response body. There is no streaming, timeout or
  cancellation.
- Any HTTP status counts as an answer.
- A catalog refresh that finds no document keeps the old selection, so the
  selection can name documents that are no longer listed
  (`Chat.EmptyRefreshKeepsStaleSelection`).
- The request guard ignores `is_super_admin`. Only the landing page honours
  it (`Landing.GuardIgnoresSuperAdmin`).
- An administrator is not redirected away from `/chat`.

## Model

| member | source | states |
|---|---|---|
| Text.Trim | src/app/chat/page.js:83 | `trim()` cuts only white space on either side; the result is empty exactly when the input is all white space, and otherwise starts and ends with a non-space |
| Text.Split | src/app/admin/upload/page.js:105 | `split` on one character yields at least one piece, and no piece contains the separator |
| Text.JoinSplit | src/app/admin/upload/page.js:105 | joining the pieces of a split with the same separator restores the string |
| Text.LastPieceIsAfterLast | src/app/admin/upload/page.js:134 | `split('.').pop()` is the text after the last dot, or the whole name without a dot |
| Text.Upper | src/app/admin/dashboard/components/UserCard.js:41 | uppercasing keeps the length and maps each character through the letter case mapping |
| Text.OrElse | src/app/admin/dashboard/components/UserCard.js:8 | `s \|\| d` yields the string when it is present and non-empty, otherwise the fallback |
| Identity.UserOf | src/components/AuthContextProvider.js:17 | `session?.user ?? null`: a user exactly when there is a session, and then the session's user |
| Middleware.DashboardFor | src/middleware.js:22 | a signed-in identity's dashboard is `/admin` exactly for an `admin` row, `/chat` otherwise, including a missing row |
| Middleware.Decide | src/middleware.js:14-61 | the guard's decision table: login with a session goes to the dashboard; `/admin…` needs a session (else login) and an admin row (else chat); `/chat…` needs only a session; `/` goes to dashboard or login; everything else passes |
| Middleware.Guard | src/middleware.js:64-66 | paths outside the matcher (`/`, `/login`, `/admin/:path*`, `/chat/:path*`) are never redirected; matched paths get the guard's decision |
| Middleware.RedirectTargets | src/middleware.js:14-59 | every redirect goes to `/login`, `/admin` or `/chat` |
| Middleware.NoSelfRedirect | src/middleware.js:14-59 | no redirect targets the requested path |
| Middleware.RedirectSettles | src/middleware.js:14-61 | with the same session and row, the target of a redirect is let through, so there are no redirect chains |
| Middleware.AdminAreaOnlyForAdmins | src/middleware.js:27-39 | a matched `/admin` path is served if and only if there is a session whose row has role `admin` |
| Middleware.ChatAreaOnlyForSessions | src/middleware.js:42-44 | a matched `/chat` path is served if and only if there is a session, whatever the role |
| Landing.Target | src/app/page.js:12-20 | no profile, no navigation; super-administrator goes to `/super-admin` whatever the role; otherwise `admin` goes to `/admin`, `user` to `/chat`, and other roles stay; at most one target |
| Landing.AgreesWithGuardOnRoot | src/app/page.js:16-19 | for an ordinary `admin` or `user` the landing page picks the same dashboard the request guard sends `/` to |
| Landing.GuardIgnoresSuperAdmin | src/app/page.js:14-15 | a super-administrator lands on `/super-admin` here while the request guard sends the same identity to its role's dashboard |
| AdminGate.Gate | src/app/admin/layout.js:13-22 | the panel renders iff the profile has role `admin`; a redirect to `/chat` happens iff a profile with another role is present; no profile shows "Access Denied" without redirect |
| AdminGate.AdminNeverRedirected | src/app/admin/layout.js:13 | an administrator is never redirected by the gate |
| AdminGate.AgreesWithGuard | src/app/admin/layout.js:18-22 | with a session, on any `/admin` path the panel renders exactly when the request guard lets the request through |
| Chat.SendEnabled | src/app/chat/page.js:347 | the send button is enabled exactly when `handleSend`'s guard would accept |
| Chat.BeginSend | src/app/chat/page.js:83-101 | a rejected send (blank question, no selection, or in flight) changes nothing and sends nothing; an accepted one appends the raw question as `user` and a content-less `assistant` message, clears the input, sets loading, and posts the trimmed question, company id and current selection |
| Chat.AnswerText | src/app/chat/page.js:107-114 | the placeholder's text is the trimmed body, `No response.` for a blank body, or the fixed apology after a thrown error; it is never blank |
| Chat.Resolve | src/app/chat/page.js:105-119 | only the last message changes (it keeps its speaker and gets the answer text); every earlier message is unchanged and loading ends |
| Chat.Send | src/app/chat/page.js:82-120 | a whole send appends exactly the question and its answer, or is a no-op when the guard refuses |
| Chat.BeginSendKeepsThread | src/app/chat/page.js:85-90 | an accepted send keeps the thread alternating user/assistant with non-blank questions, the only empty assistant message being the pending last one |
| Chat.ResolveKeepsThread | src/app/chat/page.js:105-118 | resolving the pending placeholder leaves a well-formed thread with no empty message and nothing in flight |
| Chat.SendKeepsThread | src/app/chat/page.js:82-120 | a complete send preserves the thread invariant |
| Chat.ConverseKeepsHistory | src/app/chat/page.js:86-90 | over any run of turns, earlier messages are never rewritten (the old thread stays a prefix), the invariant holds and nothing is left in flight |
| Chat.Without | src/app/chat/page.js:124 | `filter(d => d !== id)` keeps exactly the other ids, every copy of each (the multiset minus all copies of the id), and changes nothing when the id is absent |
| Chat.WithoutConcat | src/app/chat/page.js:124 | filtering distributes over concatenation, so the kept ids stay in their original order |
| Chat.WithoutOne | src/app/chat/page.js:124 | a one-id selection is emptied exactly when it holds the filtered id; with the distribution law this fixes the filter's result for every input |
| Chat.Toggle | src/app/chat/page.js:122-126 | toggling flips the membership of the id, leaves every other id's membership alone, appends an absent id at the end, and removes a present one with the order-keeping filter |
| Chat.ToggleTwice | src/app/chat/page.js:122-126 | toggling twice restores membership; an absent id restores the selection exactly; a present id ends up once, at the end |
| Chat.Refresh | src/app/chat/page.js:55-71 | without a company nothing changes; otherwise the documents become the result (or empty), a non-empty result selects its ids in order, an empty one keeps the selection; the thread is untouched |
| Chat.RefreshSelectsCatalog | src/app/chat/page.js:66-69 | after a refresh that found documents, the selection is exactly the listed documents' ids |
| Chat.EmptyRefreshKeepsStaleSelection | src/app/chat/page.js:67-69 | after an empty refresh the old selection survives and a question can still be sent with it |
| Chat.SelectionLeavesThread | src/app/chat/page.js:122-126 | refreshing the catalog or toggling a document keeps the thread invariant |
| AuthSlice.Reduce | src/store/authSlice.js:13-23 | `setProfile` stores the payload and ends loading; `clearProfile` stores no profile and ends loading; `setLoading` changes only the flag |
| AuthSlice.ClearIdempotent | src/store/authSlice.js:17-20 | clearing twice equals clearing once |
| AuthSlice.ProfileIsLastWritten | src/store/authSlice.js:13-23 | after any sequence of actions the profile is the payload of the last `setProfile`/`clearProfile`, or the starting one; `setLoading` never decides it |
| AuthProvider.InitialAction | src/components/AuthProvider.js:15-25 | on initial load a signed-in user dispatches `setProfile(row or null)`, no user dispatches `clearProfile` |
| AuthProvider.EventAction | src/components/AuthProvider.js:31-42 | `SIGNED_IN`/`TOKEN_REFRESHED` dispatch `setProfile(row or null)`, `SIGNED_OUT` dispatches `clearProfile`, other events dispatch nothing |
| AuthProvider.OnEvent | src/components/AuthProvider.js:31-42 | an unrecognised event leaves the store unchanged; the others leave the row (or none) with loading over |
| AuthProvider.MissingRecordFailsClosed | src/components/AuthProvider.js:22 | starting from a store without a profile, when no directory row exists, neither the initial load nor any event puts a profile in the store |
| AuthProvider.InitialLoadSettles | src/components/AuthProvider.js:15-25 | after the initial load the store is not loading and holds a profile iff a user is signed in and has a row |
| SessionState.ObserveSession | src/components/AuthContextProvider.js:16-26 | the initial session read and every change set the user to the session's user and end loading, leaving the profile |
| SessionState.ObservedLast | src/app/layout.js:17-26 | after any non-empty run of session observations loading is over and the user is the latest session's |
| SessionState.LookupKey | src/components/AuthContextProvider.js:37-41 | a directory lookup is issued exactly when there is a user, keyed by the user's id |
| SessionState.OnUserChange | src/components/AuthContextProvider.js:32-35 | with no user the profile is dropped at once and no lookup runs; with one, the profile waits for the lookup |
| AuthContext.Resolve | src/components/AuthContextProvider.js:42-47 | a resolved lookup stores its data or no profile; a rejected one stores no profile |
| AuthContext.FailClosed | src/components/AuthContextProvider.js:42-47 | a lookup without a row leaves no profile, whatever was held before |
| AuthContext.SignOutClears | src/components/AuthContextProvider.js:24-35 | a sign-out and its effect leave neither user nor profile, with loading over |
| RootLayout.Resolve | src/app/layout.js:39-44 | a lookup with data and no error stores the data; an error or missing data keeps the previous profile |
| RootLayout.Render | src/app/layout.js:47-64 | while loading only the placeholder renders; afterwards the children get `{user, profile}` |
| RootLayout.AgreesOnSuccess | src/app/layout.js:40 | both providers store the same profile when the lookup returns a row |
| RootLayout.RetainsWhereOtherFailsClosed | src/app/layout.js:40 | after a failed lookup this provider still holds an administrator profile that the fail-closed provider drops |
| RootLayout.RetainedProfileMayBelongToPreviousUser | src/app/layout.js:33-44 | if the session switches straight to another user whose lookup fails, the previous user's profile stays in context |
| Paging.Load | src/app/admin/upload/page.js:62-86 | no-op while loading; otherwise requests rows `[start, start+4]`, replaces the list at 0 and appends elsewhere, sets `hasMore` iff the page has 5 rows; a failure keeps the list and stops paging |
| Paging.Window | src/app/admin/upload/page.js:71 | a range query returns at most the requested count of rows, an initial segment of the ordered table from the offset, full unless the table ends first, and empty from an offset at or past the end |
| Paging.LoadKeepsPrefix | src/app/admin/upload/page.js:77-81 | loading the first or the next page of an unchanged table keeps the shown list an initial segment of the table |
| Paging.ShortPageMeansComplete | src/app/admin/upload/page.js:82 | when a load stops paging, the whole table is shown |
| DocumentStore.FileAccepted | src/app/admin/upload/page.js:26 | a file passes iff one was chosen and its size is positive |
| DocumentStore.Extension | src/app/admin/upload/page.js:134 | the extension holds no dot, is a tail of the name preceded by a dot, or is the whole dot-less name |
| DocumentStore.StoragePath | src/app/admin/upload/page.js:134-136 | the object name starts with the company folder and a slash and ends with a dot and the file's extension; without slashes in company id, UUID and name it splits into exactly the company folder and `uuid.ext` |
| DocumentStore.DeletePath | src/app/admin/upload/page.js:105 | the delete path is a tail of the URL and splits into exactly the URL's last two slash-separated pieces |
| DocumentStore.DeletePathRecoversStoragePath | src/app/admin/upload/page.js:105-136 | for a public URL ending in `/` plus the stored object name, with no slash in company id, UUID or file name, the delete path is exactly the uploaded object's name |
| DocumentStore.NullIfBlank | src/app/admin/upload/page.js:157-159 | `value \|\| null` stores a blank or missing field as null and keeps a non-empty one |
| DocumentStore.NewRecord | src/app/admin/upload/page.js:152-162 | the inserted row has status `uploaded`, the object name, URL, file name and company, blank optional fields as null, and the signed-in uploader's own id when known, none otherwise |
| DocumentStore.Upload | src/app/admin/documents/page.js:120-180 | storing, inserting and notifying run in order, each only after the previous succeeded; the webhook gets the stored URL, file name, company, the three form fields with blanks as empty strings, and on the documents screen the inserted row's id as `documentId`; the error shown is the failing step's message, `AI processing failed` for a non-ok webhook answer, or the thrown message when the webhook call itself throws |
| DocumentStore.RemovalRequest | src/app/admin/upload/page.js:100-109 | only a confirmed delete asks storage to remove an object, the one named by the URL's last two pieces |
| UploadPage.Start | src/app/admin/upload/page.js:54-57 | once the profile names a company the first page is requested |
| UploadPage.LoadMore | src/app/admin/upload/page.js:88-92 | fires only with a company, more to fetch and no load running, and requests the rows after those shown |
| UploadPage.LoadMoreShowsTable | src/app/admin/upload/page.js:88-92 | scrolling an unchanged table keeps the listing an initial segment of it, and the whole table once paging stops |
| UploadPage.Delete | src/app/admin/upload/page.js:99-128 | a confirmed, successful delete reloads from the first page; a cancelled or failed one leaves the listing |
| UploadPage.AfterUpload | src/app/admin/upload/page.js:181-184 | a complete upload reloads from the first page; a failed one leaves the listing |
| UploadPage.ReloadShowsTable | src/app/admin/upload/page.js:121 | reloading from the first page lists the current table faithfully |
| DocumentsPage.Start | src/app/admin/documents/page.js:40-43 | once the profile names a company the first page is requested, page counter unchanged |
| DocumentsPage.LoadMore | src/app/admin/documents/page.js:74-79 | under the load-more guard the page counter goes up by exactly one and the rows after those shown are requested |
| DocumentsPage.NewPage | src/app/admin/documents/page.js:105 | the page after a delete is at least 1, at most the current page, at most one below it; it stays put when exactly five rows are shown |
| DocumentsPage.PageOffset | src/app/admin/documents/page.js:107 | the reload offset is a non-negative multiple of five, the first row of the new page |
| DocumentsPage.ReloadAfterDeleteAsWritten | src/app/admin/documents/page.js:105-107 | the delete reload as written: the counter becomes the new page and one page is requested at its offset; from page 2 on, the rows are appended to the list already shown |
| DocumentsPage.ReloadAfterDelete | src/app/admin/documents/page.js:105-107 | the corrected reload: the counter becomes the new page and all its rows are loaded from offset 0, replacing the list |
| DocumentsPage.Delete | src/app/admin/documents/page.js:81-115 | a cancelled or failed delete changes nothing; a successful one runs the corrected reload |
| DocumentsPage.AfterUpload | src/app/admin/documents/page.js:173-176 | a complete upload reloads from offset 0 and resets the counter to 1; a failed one changes nothing |
| DocumentsPage.StartFaithful | src/app/admin/documents/page.js:40-43 | the first load lists an initial segment of the table within the counted pages |
| DocumentsPage.LoadMoreFaithful | src/app/admin/documents/page.js:74-79 | scrolling keeps the listing an initial segment of the table, within `currentPage * 5` rows, and whole once paging stops |
| DocumentsPage.DeleteFaithful | src/app/admin/documents/page.js:105-107 | with the corrected reload, a listing faithful to the table before the delete becomes faithful to the table after it; a row no longer stored is not listed |
| DocumentsPage.UploadFaithful | src/app/admin/documents/page.js:175-176 | whatever table the listing showed before, the upload reset lists the table after the upload faithfully, with the counter at 1 |
| DocumentsPage.DeletedRowStaysListed | src/app/admin/documents/page.js:105-107 | on a company with five documents, after one scroll and a delete, the reload as written still lists the deleted document; the corrected one lists the four survivors |
| CreateUser.ServerError | src/app/api/create-user/route.js:45-47 | the catch block answers 500 with the error's message, or `Failed` when it is empty |
| CreateUser.Post | src/app/api/create-user/route.js:5-49 | a body that is not JSON throws and is answered 500 with its message, without any call; a missing field gives 400 `Missing fields` and creates no account; `already registered` gives 409; other errors give 500 with their message and no upsert; the upsert is the new id with role `user`, the name and company; 200 `{success: true}` iff both calls succeed |
| CreateUser.NeverGrantsAdmin | src/app/api/create-user/route.js:29-39 | accounts created through the endpoint never get the `admin` role |
| UserCard.Initials | src/app/admin/dashboard/components/UserCard.js:7 | one character: the name's first uppercased, or `U` for a missing or empty name |
| UserCard.DisplayName | src/app/admin/dashboard/components/UserCard.js:8 | the full name, or `No Name`; never empty |
| UserCard.Truncated | src/app/admin/dashboard/components/UserCard.js:9 | names up to 20 characters show unchanged; longer ones show their first 20 and `...`; never more than 23 characters |
| UserCard.TruncatedIdempotent | src/app/admin/dashboard/components/UserCard.js:9 | truncating a shown name again changes nothing |
| UserCard.RoleChip | src/app/admin/dashboard/components/UserCard.js:41-42 | the chip shows the role uppercased, in the primary colour iff the role is `admin` |

## Findings

| source | as written | input that shows it | evidently intended | confidence | as-written member | corrected member |
|---|---|---|---|---|---|---|
| src/app/admin/documents/page.js:105-107 | after a delete, one page is loaded at `(newPage-1)*5`; a non-zero offset appends to the cumulative list, which still holds the deleted row | a company with exactly five documents: first page full, one scroll returns nothing (`currentPage` 2), delete the third; `newPage` is 2, offset 5 returns no rows, and the deleted document stays listed (with more pages the re-fetched rows are listed twice) | after a delete the listing shows the stored documents in order, without the deleted one and without repeats | medium, not executed | DocumentsPage.ReloadAfterDeleteAsWritten (exhibited by DocumentsPage.DeletedRowStaysListed) | DocumentsPage.ReloadAfterDelete (proved by DocumentsPage.DeleteFaithful) |

## Left out

- Supabase auth, table, storage and n8n webhook calls are not modelled. Their results are parameters. The model does not cover SQL ordering, and it reads `getPublicUrl` only through the assumption that the URL ends in `/` plus the object name.
- React and Next.js runtime behaviour is not modelled: effect scheduling, state batching and stale closures. So the model has no `refreshDocs` call that runs before `companyId` is set, no stale `loading` in `handleDelete`, and no late lookup that lands after a sign-out. Each transition is applied to the current state as one step.
- The page loads in `Paging.Load` are atomic. The transient `loading = true` between request and reply is not a separate state. The chat's in-flight state is modelled: `Chat.BeginSend` sets `loading` and `Chat.Resolve` clears it.
- Navigation mechanics (`router.push`/`replace`) are left out. So are scroll-into-view, the `setTimeout` that clears status messages, the status texts, locale date formatting and all markup.
- `loadUserAndDocs` in the chat screen is left out. It reads the user and the company id and is plumbing before `refreshDocs`.
- `src/app/chat/components/ChatHeader.js`, `src/app/login/page.jsx`, `src/app/admin/page.js`, `src/proxy.js`, `src/lib/supabase.js` and `next.config.mjs` are not part of this model. They are presentation, form glue, elided logic or client configuration.
- Two defects that would stop the code at run time are not modelled: the module-scope `useSelector` in `src/app/admin/documents/page.js` and the unimported `supabase` in the administration layout's logout button.
- The chat's document summary label is presentation, and its `'No summary'` fallback is unreachable. It is left out.
- Text.Upper: only the ASCII letters are mapped. JavaScript's full Unicode case mapping, including one-to-many mappings such as `ß`, is not modelled.
- UserCard.Initials: takes the first Unicode scalar value of the name, while JavaScript indexes UTF-16 code units. The two differ for characters outside the Basic Multilingual Plane, and only ASCII letters are uppercased.
- UserCard.Truncated: counts and cuts Unicode scalar values, while `.length` and `.slice(0, 20)` count UTF-16 code units. A name with characters outside the Basic Multilingual Plane, such as emoji, is cut later in the model than in the browser.
- UserCard.RoleChip: only ASCII letters of the role are uppercased, and the role is assumed present. A missing role makes the source throw.
- CreateUser.Post: body fields are modelled as optional strings. Non-string JSON values, such as numbers, are not modelled.
