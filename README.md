# ELLP volunteer and workshop portal — a Dafny model

ELLP is a web portal for a university outreach project. Volunteers register
themselves. Administrators approve or reject them and can create accounts
directly. Signed-in users publish workshop posters with an uploaded image. A
public team page lists the members who chose to appear. The portal keeps its
data in a document store with two collections, `users` and `workshops`. Sign-in
goes through a hosted identity provider, and images go to a hosted image
service.

This project models the logic of the portal's pages and libraries:

- the checks and records of the three account-creation forms;
- the error-code tables;
- the session callback that decides who is signed in;
- the administrator's request queue (approve, reject, delete);
- the dashboards' queries and local list updates;
- the role guards;
- the workshop form and the two workshop-creation pages;
- the public listings;
- the image-file checks and the image-upload reply handling.

Layout, one module per source file plus three shared ones:

| file | module | models |
|---|---|---|
| common.dfy | `Common` | the records of src/lib/types.ts and the status fields the pages add |
| text.dfy | `Text` | `String.prototype.trim`, ASCII `toUpperCase`, decimal numerals |
| store.dfy | `Store` | the backend as a class: both collections, the identity provider's accounts and session; the query, filter and sort operations |
| upload.dfy | `Upload` | src/lib/upload.ts |
| cloudinary.dfy | `Cloudinary` | src/lib/cloudinary.ts |
| image_upload.dfy | `ImageUploadComponent` | src/components/image-upload-cloudinary.tsx |
| register.dfy | `Register` | src/app/register/page.tsx |
| setup_admin.dfy | `SetupAdmin` | src/app/setup-admin/page.tsx |
| admin_users_new.dfy | `AdminUsersNew` | src/app/admin/users/new/page.tsx |
| volunteer_requests.dfy | `VolunteerRequests` | src/app/admin/volunteer-requests/page.tsx |
| auth_context.dfy | `AuthContext` | src/contexts/auth-context.tsx |
| login.dfy | `Login` | src/app/login/page.tsx |
| role_guard.dfy | `RoleGuard` | the role guard shared by src/app/admin/page.tsx, src/app/admin/volunteer-requests/page.tsx and src/app/volunteer/page.tsx |
| admin_dashboard.dfy | `AdminDashboard` | src/app/admin/page.tsx |
| volunteer_page.dfy | `VolunteerPage` | src/app/volunteer/page.tsx |
| workshop_form.dfy | `WorkshopForm` | src/components/workshop-form.tsx |
| new_workshop.dfy | `NewWorkshop` | src/app/workshops/new/page.tsx and src/app/admin/workshops/new/page.tsx |
| contact.dfy | `Contact` | src/app/contato/page.tsx |
| home.dfy | `Home` | src/app/page.tsx |
| lifecycle.dfy | `Lifecycle` | properties that span several pages |

Each page with React state is a class. Its fields are the page's `useState`
variables, and its handlers are methods with `modifies` clauses. The document
store and the identity provider are one `Store.Backend` object:

- each collection is a `map` from document id to record;
- `setDoc`, `updateDoc`, `deleteDoc` and `addDoc` are methods on the maps;
- a query is `Store.Where`, which enumerates the matching documents in an order
  the store chooses.

The model takes these as inputs:

- the answers of `confirm`;
- what the identity provider and the store answer, given as success-or-error
  values (`SignUp`, `SignIn`, `Outcome`, a `queryOk` flag);
- the current time, as an integer timestamp;
- the id `addDoc` generates.

`alert` is a list of messages on the pages that alert from their data
handlers. Pure decisions are functions with contracts: validation chains,
error tables, the approval decision, initials, avatar colour and the guards.

Status is optional (`Option<Status>`) because the code never writes
`"pending"`:

- self-registration (src/app/register/page.tsx:64-72) stores no status;
- first-administrator setup (src/app/setup-admin/page.tsx:61-69) stores no
  status;
- direct creation (src/app/admin/users/new/page.tsx:62-70) stores no status;
- the session callback (src/contexts/auth-context.tsx:28-35) never reads it.

The message printed by scripts/setup-volunteer-approval-system.js describes a
different flow: pending status at sign-up, and sign-in refused until approval. The model follows the code. So:

- `Lifecycle.RegistrantInNoStatusQuery` proves that a self-registrant is in
  none of the status queries, so the request queue never shows them.
- `Lifecycle.RegistrantEntersVolunteerArea` proves that a self-registrant
  signs in straight into the volunteer area.
- `Lifecycle.VisibleRegistrantListed` proves that a self-registrant who ticked
  visibility is on the team page without any approval.

## Model

| member | source | states |
|---|---|---|
| Text.Trim | src/app/register/page.tsx:49 | `trim()` over the ECMAScript white-space and line-terminator set: the result is the slice of the input that starts right after its leading white space (`LeadingWhitespace`) with only white space after it, so nothing inside is touched; it has no white space at either end and is empty exactly when the input is blank |
| Text.ToUpper | src/app/admin/page.tsx:21 | `toUpperCase()` on ASCII: same length, each character upper-cased on its own |
| Text.TrimIdempotent | src/app/admin/volunteer-requests/page.tsx:168 | trimming a trimmed string changes nothing |
| Text.DecimalRoundTrip | src/lib/cloudinary.ts:47 | the numeral a status code is interpolated as reads back as that code |
| Upload.ValidateImageFile | src/lib/upload.ts:15-28 | accepted exactly when the type is image/jpeg, image/png or image/webp and the size is at most 5242880 bytes; then the result is `true`; a rejected file carries the type error when its type is not allowed and the size error otherwise |
| Upload.ExactlyMaxSizeAccepted | src/lib/upload.ts:23-27 | the size cap is inclusive: 5242880 bytes pass, 5242881 are refused with the size error |
| Upload.TypeCheckedBeforeSize | src/lib/upload.ts:19-25 | a disallowed type reports the type error whatever the size |
| Cloudinary.Preflight | src/lib/cloudinary.ts:11-24 | no error before the request exactly when both settings are set and non-empty, the type is in the four-type allowlist and the size is at most 5242880; configuration is reported first, then type, then size |
| Cloudinary.FailureMessage | src/lib/cloudinary.ts:45-48 | the service's `error.message` when present and non-empty, otherwise "Erro <status>: <statusText>" |
| Cloudinary.UploadToCloudinary | src/lib/cloudinary.ts:1-57 | succeeds exactly when the guards pass and the response is OK, with the response's `secure_url`; every error reaches the caller with its message unchanged |
| Cloudinary.RejectedBeforeAnyRequest | src/lib/cloudinary.ts:11-24 | a file the guards reject fails the same way whatever the service would answer |
| Cloudinary.ConfigurationCheckedFirst | src/lib/cloudinary.ts:11-13 | a missing setting gives the configuration error whatever the file |
| Cloudinary.StatusLineDistinguishesStatuses | src/lib/cloudinary.ts:47 | without a service message, two different HTTP statuses give two different error messages |
| Cloudinary.AllowlistsDiffer | src/lib/cloudinary.ts:16 | "image/jpg" passes this allowlist but not the one of `validateImageFile` |
| Cloudinary.ValidatedFilePassesGuards | src/lib/cloudinary.ts:16-24 | every file `validateImageFile` accepts passes these guards once configured |
| ImageUploadComponent.Fallback | src/components/image-upload-cloudinary.tsx:53 | `currentImage \|\| null`: the prop when set and non-empty, otherwise none |
| ImageUploadComponent.ImageUploadCloudinary.constructor | src/components/image-upload-cloudinary.tsx:20-21 | not uploading, and the preview starts as `currentImage \|\| null` (`Fallback`) |
| ImageUploadComponent.Check | src/components/image-upload-cloudinary.tsx:28-39 | no alert exactly when the type is jpeg/png/webp and the size at most 5 MiB; a bad type alerts the type message; an allowed type over 5242880 bytes alerts the size message |
| ImageUploadComponent.CheckWithinLibraryGuards | src/components/image-upload-cloudinary.tsx:28 | a file the component lets through passes `validateImageFile` and the upload library's guards |
| ImageUploadComponent.ImageUploadCloudinary.HandleFileSelect | src/components/image-upload-cloudinary.tsx:24-57 | no file: nothing changes; a failed check: one alert and nothing else; otherwise `uploading` ends false and, on success, the callback gets exactly the URL and the preview becomes it, on failure the error is alerted and the preview falls back to `currentImage` |
| ImageUploadComponent.ImageUploadCloudinary.RemoveImage | src/components/image-upload-cloudinary.tsx:59-65 | preview cleared, callback called with "", file input emptied |
| Register.Validate | src/app/register/page.tsx:37-53 | passes exactly when the passwords match, have at least 6 characters, and name, email and course are not blank; mismatch is reported first, then length, then the blank field |
| Register.RegisterPage.constructor | src/app/register/page.tsx:18-28 | the form starts with every field empty and visibility off, no error, not loading |
| Register.ErrorMessage | src/app/register/page.tsx:83-92 | four codes map to fixed messages, any other shows the error's own message |
| Register.KnownCodeHidesMessage | src/app/register/page.tsx:84-92 | for a translated code the provider's text never reaches the user |
| Register.VolunteerProfile | src/app/register/page.tsx:64-72 | role volunteer, trimmed name/email/course/photo, the visibility the user chose, the submission time, no status |
| Register.ValidFormGivesFilledProfile | src/app/register/page.tsx:49-72 | a form that passes yields non-empty, already-trimmed name, email and course |
| Register.RegistrantIsNeitherPendingNorActive | src/app/register/page.tsx:64-72 | a new registrant is neither pending, active nor rejected |
| Register.RegisterPage.HandleSubmit | src/app/register/page.tsx:31-98 | a failed check shows its message and creates nothing; otherwise the credential is created, then the profile written under its uid and the page goes to /login; a failure of either step shows its translated message; `loading` ends false |
| SetupAdmin.Validate | src/app/setup-admin/page.tsx:34-50 | passes exactly when the passwords match, have at least 6 characters, and name and email are not blank; the course is not checked |
| SetupAdmin.BlankCourseAccepted | src/app/setup-admin/page.tsx:46 | a blank course passes here but fails the registration form |
| SetupAdmin.ErrorMessage | src/app/setup-admin/page.tsx:80-89 | three codes are translated as on the registration page, any other shows the raw message |
| SetupAdmin.ErrorTablesDiffer | src/app/setup-admin/page.tsx:81-87 | the two tables differ only on "auth/invalid-api-key" |
| SetupAdmin.AdminProfile | src/app/setup-admin/page.tsx:61-69 | role admin, visible, empty photo, trimmed name/email/course, no status |
| SetupAdmin.SetupAdminPage.constructor | src/app/setup-admin/page.tsx:17-23 | the form starts with name "Administrador ELLP" and course "Administração do Sistema" |
| SetupAdmin.SetupAdminPage.HandleSubmit | src/app/setup-admin/page.tsx:28-93 | no account unless every check passes; on success the admin profile is written and the page goes to /login; `loading` ends false |
| AdminUsersNew.Redirect | src/app/admin/users/new/page.tsx:39-44 | once auth has loaded, a signed-out or non-admin viewer is sent to "/" |
| AdminUsersNew.DirectProfile | src/app/admin/users/new/page.tsx:62-70 | the form copied untrimmed, with the chosen role and visibility, and no status |
| AdminUsersNew.ErrorMessage | src/app/admin/users/new/page.tsx:76 | the error's message, or "Erro ao criar usuário" when it is empty |
| AdminUsersNew.NewUserPage.constructor | src/app/admin/users/new/page.tsx:29-37 | the form defaults to role volunteer and visibility off |
| AdminUsersNew.NewUserPage.HandleSubmit | src/app/admin/users/new/page.tsx:46-80 | without an administrator nothing changes; otherwise credential then profile, success goes to /admin, a failure shows its message |
| VolunteerRequests.ApprovalDecision | src/app/admin/volunteer-requests/page.tsx:109-127 | no approval exactly when both dialogs are cancelled; visible exactly when the first is accepted |
| VolunteerRequests.WithApproval | src/app/admin/volunteer-requests/page.tsx:130-135 | the profile becomes active, with the chosen visibility and the approver and time recorded; no other field changes |
| VolunteerRequests.RejectionReason | src/app/admin/volunteer-requests/page.tsx:156-168 | no reason exactly when the text is blank; otherwise the trimmed, non-empty text |
| VolunteerRequests.WithRejection | src/app/admin/volunteer-requests/page.tsx:164-169 | the profile becomes rejected, with the time, the rejecter and the reason recorded; no other field changes |
| VolunteerRequests.VolunteerRequestsPage.FetchUsers | src/app/admin/volunteer-requests/page.tsx:61-102 | on success the pending list is exactly the pending profiles and the processed list exactly the rejected ones, each newest first; on failure both stay; `loadingData` ends false |
| VolunteerRequests.VolunteerRequestsPage.ApproveUser | src/app/admin/volunteer-requests/page.tsx:104-153 | two cancels write nothing; otherwise the stored profile gets the approval fields when it exists and the update succeeds; after that update `loadingData` ends false and, when the refetch succeeds, both lists are again the pending and rejected query results, newest first (`ListsMatch`); without a successful update the lists and `loadingData` are unchanged; `processingId` ends cleared |
| VolunteerRequests.VolunteerRequestsPage.RejectUser | src/app/admin/volunteer-requests/page.tsx:155-181 | a blank reason changes nothing: store, lists, `loadingData`, reason text and form; a successful update records the trimmed reason, clears the text, closes the form and refetches, so a successful refetch leaves both lists equal to the query results, newest first; without a successful update the lists and `loadingData` are unchanged |
| VolunteerRequests.VolunteerRequestsPage.DeleteUser | src/app/admin/volunteer-requests/page.tsx:183-197 | a confirmed, successful delete removes the profile and refetches, so a successful refetch leaves both lists equal to the pending and rejected query results, newest first; otherwise the store, the lists and `loadingData` are unchanged |
| AuthContext.NextUser | src/contexts/auth-context.tsx:26-39 | signed out gives no user; a session with a profile gives the session's uid and email with the profile's role; a session without a profile keeps the previous user |
| AuthContext.StatusIsNeverRead | src/contexts/auth-context.tsx:28-35 | changing a profile's status, approval or rejection never changes who is signed in |
| AuthContext.PendingOrRejectedSignsIn | src/contexts/auth-context.tsx:29-35 | a pending or rejected profile signs in like any other |
| AuthContext.AuthProvider.OnAuthStateChanged | src/contexts/auth-context.tsx:25-41 | `user` becomes `NextUser` and `loading` false, unless the profile read throws |
| AuthContext.AuthProvider.Login | src/contexts/auth-context.tsx:46-48 | only the provider's session changes; `user` and `loading` are untouched |
| AuthContext.AuthProvider.Logout | src/contexts/auth-context.tsx:50-52 | the session ends; `user` and `loading` are untouched |
| Login.ErrorMessage | src/app/login/page.tsx:34-43 | four codes map to fixed messages; any other gives "Email ou senha incorretos" |
| Login.MessagesAreFixed | src/app/login/page.tsx:34-43 | every message is one of five fixed, non-empty texts; the provider's own text never shows |
| Login.LoginPage.HandleSubmit | src/app/login/page.tsx:22-49 | the error is cleared, success goes to "/", failure shows the translated message, `loading` ends false, and `user` is untouched |
| RoleGuard.OnSessionChange | src/app/admin/page.tsx:51-60 | redirect home exactly when auth has loaded and the viewer lacks the role; fetch exactly when the viewer has it |
| RoleGuard.Render | src/app/admin/page.tsx:114-124 | spinner exactly while auth or data loads; the page exactly when both are loaded and the viewer has the role |
| RoleGuard.OutsiderTurnedAway | src/app/admin/page.tsx:52-55 | a viewer without the role never sees the page, never triggers a fetch, and is sent home once auth has loaded |
| RoleGuard.GuardsAreDisjoint | src/app/volunteer/page.tsx:22 | no viewer passes both the administrator and the volunteer guard |
| AdminDashboard.Split | src/app/admin/page.tsx:18 | `split(" ")`: at least one piece, none containing a space |
| AdminDashboard.JoinSplit | src/app/admin/page.tsx:18 | joining the pieces with single spaces gives back the name |
| AdminDashboard.FirstCharsAreWordStarts | src/app/admin/page.tsx:17-20 | the pieces' first characters are exactly the characters that start a word of the name, in order |
| AdminDashboard.Initials | src/app/admin/page.tsx:16-23 | at most two characters: the upper-cased first two word-starting characters |
| AdminDashboard.InitialsHaveNoSpace | src/app/admin/page.tsx:16-23 | initials never contain a space, however the name is spaced |
| AdminDashboard.AvatarColor | src/app/admin/page.tsx:26-41 | none exactly for the empty name; otherwise the palette entry at the first character's code modulo 8 |
| AdminDashboard.AvatarColorByFirstChar | src/app/admin/page.tsx:39 | names whose first character codes agree modulo 8 get the same colour |
| AdminDashboard.EveryColorUsed | src/app/admin/page.tsx:27-40 | each of the eight palette entries is the colour of some name |
| AdminDashboard.AdminPage.FetchData | src/app/admin/page.tsx:62-88 | on success the users list is exactly the active profiles and the workshop list every workshop; the pending count is the number of pending profiles once its query returns, even if the workshop query then fails; `loadingData` ends false |
| AdminDashboard.AdminPage.DeleteUser | src/app/admin/page.tsx:90-100 | a confirmed, successful delete removes exactly that id from the store and from the list, keeping the others in order; a failure alerts and changes nothing; a list that mirrored the active query still does |
| AdminDashboard.AdminPage.DeleteWorkshop | src/app/admin/page.tsx:102-112 | the same for workshops |
| AdminDashboard.OnlyAdminsSeeDashboard | src/app/admin/page.tsx:122-124 | the dashboard renders only for an administrator |
| VolunteerPage.VolunteerPage.FetchMyWorkshops | src/app/volunteer/page.tsx:32-49 | without a user nothing happens; on success the list is exactly the workshops whose `createdBy` is the user's uid |
| VolunteerPage.VolunteerPage.DeleteWorkshop | src/app/volunteer/page.tsx:51-61 | a confirmed, successful delete removes exactly that id; a declined or failed one leaves the list, and a failure alerts |
| VolunteerPage.EmptyStateIffNoOwnWorkshop | src/app/volunteer/page.tsx:93-103 | after a fetch the empty state shows exactly when the user owns no workshop |
| VolunteerPage.DeleteKeepsListOwned | src/app/volunteer/page.tsx:54-55 | after a delete the filtered list is still exactly the user's workshops in the store |
| VolunteerPage.OnlyVolunteersStay | src/app/volunteer/page.tsx:21-25 | once auth has loaded, signed-out viewers and administrators are sent home |
| WorkshopForm.InitialData | src/components/workshop-form.tsx:21-29 | the given workshop's fields, or all empty without one |
| WorkshopForm.Heading | src/components/workshop-form.tsx:53 | "Editar Oficina" exactly when a workshop is given, "Nova Oficina" otherwise |
| WorkshopForm.SubmitEnabled | src/components/workshop-form.tsx:145 | enabled exactly when not loading and an image is set |
| WorkshopForm.NewFormStartsDisabled | src/components/workshop-form.tsx:24 | a new form cannot be submitted before an image is uploaded |
| WorkshopForm.Form.HandleImageUploaded | src/components/workshop-form.tsx:46-48 | only the image field changes, to the uploaded URL |
| WorkshopForm.Form.HandleSubmit | src/components/workshop-form.tsx:32-44 | a failed submit alerts; `loading` ends false on both paths |
| NewWorkshop.WorkshopRecord | src/app/workshops/new/page.tsx:18-22 | the form's fields plus `createdAt` and `createdBy` = the user's uid |
| NewWorkshop.Render | src/app/workshops/new/page.tsx:32-43 | spinner while loading, /login when signed out, the form for any signed-in user of either role |
| NewWorkshop.NewWorkshopPage.HandleSubmit | src/app/workshops/new/page.tsx:14-30 | no user: nothing written; otherwise the record is added; success announces it and goes to "/", a failure is rethrown |
| NewWorkshop.AdminNewWorkshopPage.HandleSubmit | src/app/admin/workshops/new/page.tsx:14-24 | no user: nothing written; any signed-in user writes the record; success goes to "/admin", a failure propagates |
| NewWorkshop.SubmitNewWorkshop | src/components/workshop-form.tsx:32-44 | the stored record carries exactly the form's current fields; the form alerts exactly when a signed-in user's write fails |
| Contact.RoleLabel | src/app/contato/page.tsx:72 | "Administrador" exactly for admin, "Voluntário" exactly for volunteer |
| Contact.ContactPage.FetchUsers | src/app/contato/page.tsx:16-30 | on success the list is exactly the profiles with `isVisibleOnContact`; a failure leaves it; `loading` ends false |
| Contact.EmptyStateIffNoneVisible | src/app/contato/page.tsx:52-55 | after a fetch the empty state shows exactly when no profile is visible |
| Contact.ListedWhateverStatus | src/app/contato/page.tsx:18 | a visible profile is listed whatever its status |
| Home.HomePage.FetchWorkshops | src/app/page.tsx:14-28 | on success every stored workshop once, newest first; a failure leaves the list; `loading` ends false |
| Home.ListingMatchesStore | src/app/page.tsx:50-59 | the list has as many entries as the store has workshops, and the empty state shows exactly when it has none |
| Store.Backend.CreateAccount | src/app/register/page.tsx:60-74 | the credential is created first; the profile is written under its uid only when that and the write succeed |
| Store.Backend.DeleteUser | src/app/admin/page.tsx:93 | `deleteDoc` on users: the outcome is the store's answer, and on success the id is gone from the collection whether or not it was there; nothing else changes |
| Store.Backend.DeleteWorkshop | src/app/admin/page.tsx:105 | `deleteDoc` on workshops: the same, on the workshops collection |
| Store.Backend.AddWorkshop | src/app/workshops/new/page.tsx:18-22 | `addDoc` on workshops: on success the record is stored under the generated id, other documents unchanged; on failure nothing changes |
| Store.Backend.UpdateUser | src/app/admin/volunteer-requests/page.tsx:130-135 | succeeds exactly when the document exists and the write is accepted, and then merges the patch into that document only |
| Store.Where | src/app/admin/volunteer-requests/page.tsx:64-72 | the result holds every matching document once, with its stored data, and nothing else |
| Store.QueryResultReordered | src/app/admin/volunteer-requests/page.tsx:86-93 | reordering a query result keeps it a result of the same query |
| Store.FilterOutId | src/app/admin/page.tsx:94 | `filter(d => d.id !== id)`: exactly the documents with another id, in their original order, each as many times as before; none with that id remains; unchanged when none has that id |
| Store.InsertNewestFirst | src/app/admin/volunteer-requests/page.tsx:86-89 | inserting into a newest-first list keeps it newest first and adds exactly that document |
| Store.SortNewestFirst | src/app/admin/volunteer-requests/page.tsx:86-93 | the same documents (as a multiset), newest first |
| Store.SortedQueryResult | src/app/admin/volunteer-requests/page.tsx:64-93 | a query result sorted newest first is still exactly that query's result |
| Store.QueryResultCount | src/app/admin/page.tsx:73 | a query result's length is the number of matching documents, and it is empty exactly when none match |
| Store.FilterOutIdDistinct | src/app/admin/page.tsx:94 | filtering out one id keeps the remaining ids all different |
| Store.FilterOutIdAfterDelete | src/app/admin/page.tsx:93-94 | after a delete, the filtered local list is exactly what the same query would now return |
| Lifecycle.RegistrantInNoStatusQuery | src/app/register/page.tsx:64-74 | a new registrant is in no status query's result |
| Lifecycle.RegistrantEntersVolunteerArea | src/contexts/auth-context.tsx:28-35 | a new registrant who signs in is a volunteer and passes the volunteer area's guard |
| Lifecycle.VisibleRegistrantListed | src/app/contato/page.tsx:18 | a registrant who ticked visibility is on the team page without approval |
| Lifecycle.ApprovalDecidesTeamPage | src/app/admin/volunteer-requests/page.tsx:132 | after approval the profile is listed exactly when the first dialog was accepted |
| Lifecycle.CreatedWorkshopListedForOwner | src/app/volunteer/page.tsx:36 | a workshop a user creates is in that user's listing at the next fetch |

## Left out

- Network and SDK plumbing is not modelled: initialising the backend and its
  demo-configuration fallback, the form body and `fetch` of the image upload,
  `uploadImage`'s blob store, and object URLs. The identity provider and the
  store appear only through the answers they give, passed in as parameters.
- Interleaving is not modelled: every handler runs to completion before the
  next starts. The `fetchUsers()` that approve, reject and delete start without
  awaiting it is modelled as completing inside the handler, before the
  `finally` that clears `processingId`; its interleaving with that `finally`,
  with React re-renders and with other tabs is not modelled.
- Timestamps are integers. The ISO-8601 strings and their `Date` parsing are
  not modelled. Their order is assumed to be the integer order.
- `alert` is recorded only where the data handlers raise it: the image
  upload, the dashboards' delete failures, the workshop form, and the success
  message of the workshop page. The success and failure alerts of the
  account forms and the request queue are not recorded.
- JavaScript string lengths count UTF-16 code units, and the model counts
  characters. They differ only outside the Basic Multilingual Plane.
- `toUpperCase` is modelled for ASCII letters only.
- Store.SortNewestFirst: does not state that equal timestamps keep their
  relative order, although `Array.prototype.sort` is stable.
- Home.HomePage.FetchWorkshops: the store orders ties on `createdAt` by
  document id; the model leaves their order unconstrained.
- Creating a credential also signs the new account in, and this is not
  modelled. A credential whose profile write failed is left as it is; no
  recovery is modelled.
- A session without an email is not modelled. The code takes the email as
  present through a non-null assertion.
- Render-only output is not modelled: the dashboards' statistics and plural
  wording, card markup, and placeholder images.
- The form's field-by-field edit handlers are not modelled. The form data is
  a single value that the model sets.
- The pages that write fixed accounts (create-admin, fix-admin, the seed
  script) are not part of this model. Neither are the preview-only upload
  widgets, the navigation and footer components, and the edit pages for users
  and workshops.
