# MVP_EVENT registration core, in Dafny

This project models the part of the MVP_EVENT event-registration application that decides
things, and proves what it promises.

- **Ticket issuance** (`UserController`, from backend/controllers/userController.js).
  `registerUser` runs a fixed sequence:
  1. it refuses an e-mail already on file;
  2. it inserts a user document;
  3. it mints the scan token `email-id` and stores it on the record;
  4. it writes the PDF ticket `<id>.pdf`;
  5. it sends a best-effort confirmation mail.

  `Register` states that sequence as a function of the state (users, files, outbox) and of
  what the collaborators do. The collaborators are the database saves, the QR encoder (applied
  to the token), the PDF stream and the mail transport. `Backend.RegisterUser` runs the same steps on mutable
  fields and is proved equal to `Register`. The pure helpers are modelled and proved too:
  - the token and its inverse;
  - the data-URL payload;
  - the PDF's text with its two order ids;
  - the role-to-ticket-class mapping;
  - the composed mail.
- **The registration record** (`UserModel`, from backend/models/User.js):
  - the document with its defaults (`claim` false, `paymentStatus` PENDING);
  - schema validation (required paths, the status enum);
  - the collection as a map from `_id` to document, with the unique (email, eventId) index
    as an invariant that inserts keep.
- **The admin roster** (`AdminDashboard`, from AdminDashboard.jsx):
  - first-matching-key extraction of name, e-mail and contact from free-form registration data;
  - the search and role filter;
  - the per-privilege claimed/total summary, built in place by two nested loops and proved
    equal to a fold, then proved exact against direct counts;
  - the card colour rule;
  - the de-duplicated role menu;
  - the privileges cell of the export;
  - Previous/Next pagination as a small class.
- **Event role editing** (`EditEvent`, from EditEvent.jsx):
  - the form as a class with its change, add-role, delete-role and validation handlers;
  - the conversion of a role's privileges between the stored list and the comma-separated
    string the form edits, with its round trip.

`Text` holds the JavaScript string operations these rely on, stated on `seq<char>`: `trim`,
ASCII `toLowerCase`/`toUpperCase`, `includes`, one-character `split` and `join`. It also holds
a `lastIndexOf`, which the code does not call; the model uses it to read a token or a file path
back.
`Wrappers` holds `Option` and `Result`.

Where the code and the intended design differ, the model follows the code:

- **The duplicate check is on the e-mail alone.** `registerUser` refuses any e-mail already
  stored, whatever the event. The database index is on (email, eventId).
  `OneRegistrationPerEmail` states the controller's rule. `SameEmailTwoEvents` states the
  index's weaker one.
- **`name` and `contact` are dropped.** The controller passes them to `new User`, but they
  are not paths of the schema. The document drops them, so the 201 body carries no `name`.
- **The controller's document cannot pass validation.** It has no `eventId`, `companyName`
  or `registrationData`, which the schema requires (`ControllerDocFailsValidation`). So a
  real `save()` of it is rejected: every request with a new e-mail ends in 500 and stores
  nothing (`RegisterAsWrittenStoresNothing`). An e-mail already on file, from a record other
  code created, still gets 400.
  - `Register` keeps the outcome of each save as a collaborator input (`insertSaved`,
    `updateSaved`). The steps after the insert are therefore modelled as the code writes
    them.
  - The store still enforces a fresh `_id` and the unique index (`InsertDoc`).

## Model

| member | source | states |
|---|---|---|
| UserModel.ParsePaymentStatus | backend/models/User.js:18 | the enum validator accepts exactly the three names PENDING, COMPLETED and FAILED, each giving the status it names |
| UserModel.PaymentStatusRoundTrip | backend/models/User.js:18 | every status's name parses back to that status |
| UserModel.NewPrivilege | backend/models/User.js:3-6 | a privilege keeps its name; `claim` is false unless given, otherwise the given value |
| UserModel.NewPrivileges | backend/models/User.js:14 | defaults are applied to every privilege sub-document, one for one |
| UserModel.NewDoc | backend/models/User.js:8-18 | `paymentStatus` defaults to "PENDING" when not given and is kept when given; privileges get their defaults; every other field (eventId, companyName, eventName, role, email, registrationData, qrCode, transactionId) is kept as given |
| UserModel.PrivilegeErrors | backend/models/User.js:4 | no privilege error exactly when every privilege has a non-empty name |
| UserModel.Validate | backend/models/User.js:8-18 | a document that passes validation is described field for field by a typed record; a rejection names at least one path |
| UserModel.ValidateAcceptsExactly | backend/models/User.js:3-18 | validation passes if and only if eventId is set, companyName, eventName, role and email are non-empty, every privilege has a name, registrationData is set and the status is one of the enum |
| UserModel.OptionalPathsNeverFail | backend/models/User.js:16-17 | qrCode and transactionId are optional: dropping them never changes whether validation passes |
| UserModel.NewRecordIsPending | backend/models/User.js:18 | a record created without a status is PENDING once validated |
| UserModel.StatusInEnum | backend/models/User.js:18 | a validated document's status is one of the three names |
| UserModel.InsertDoc | backend/models/User.js:24 | a successful insert adds exactly the new `_id` with the document and keeps every other record |
| UserModel.Save | backend/models/User.js:8-24 | a successful save has validated the document and used a fresh `_id`; the new collection is the old one plus the document under that `_id`, every other record kept |
| UserModel.InsertKeepsUniqueIndex | backend/models/User.js:24 | an insert that succeeds keeps the (email, eventId) index unique |
| UserModel.SaveAcceptsExactly | backend/models/User.js:24 | a save succeeds if and only if the document validates, its `_id` is new and no stored document has the same (email, eventId); a taken pair gives the duplicate-key error |
| UserModel.SameEmailTwoEvents | backend/models/User.js:24 | one e-mail can be saved under two different events |
| UserController.ControllerDocFailsValidation | backend/controllers/userController.js:18-19 | the document the controller builds always fails validation, missing eventId, companyName and registrationData, so `save()` on it fails |
| UserController.TokenRoundTrip | backend/controllers/userController.js:22-25 | the token `email-id` splits at its last dash back into the e-mail and the id |
| UserController.PayloadOfPngDataUrl | backend/controllers/userController.js:104-157 | both payload extractions, the second comma field in the PDF step and the stripped prefix in the mail step, give the base64 data of the QR data URL |
| UserController.PdfFileNamedByTicket | backend/controllers/userController.js:28-31 | the ticket file's name is the id followed by ".pdf" |
| UserController.TicketContents | backend/controllers/userController.js:52-104 | the ticket for a QR data URL always renders and shows the event, name, e-mail, role, the Order ID `id` + "1", the Ticket ID `id` and the QR payload; the PDF's order id differs from the mail's |
| UserController.LabelsFor | backend/controllers/userController.js:141-153 | Visitor and Speaker get their own ticket class and payment label; every other role gets the unknown-role pair |
| UserController.TicketClassTellsRolesApart | backend/controllers/userController.js:141-153 | equal ticket classes imply the same Visitor/Speaker/other case |
| UserController.MailMatchesTicket | backend/controllers/userController.js:162-216 | the mail goes to the registrant under the confirmation subject, with exactly two attachments; the HTML image is `cid:` + the first attachment's cid, holding the ticket's QR payload; the second is the ticket under its file name; the mail's order id is the ticket id; it shows the registrant's name, the event name, and the ticket class and payment label of the registrant's role |
| UserController.DuplicateEmailHasNoEffect | backend/controllers/userController.js:13-16 | an e-mail already on file gives 400 and leaves users, files and outbox unchanged |
| UserController.FreeEmailFreesIndexKey | backend/controllers/userController.js:13-19 | when no document has the e-mail, the new document's (email, eventId) key is free |
| UserController.CreatedExactly | backend/controllers/userController.js:9-49 | the response is 201 if and only if the e-mail is new, the id is free, and the insert, the QR encoder, the token save and the PDF all succeed; the mail transport plays no part |
| UserController.IssueCreatedExactly | backend/controllers/userController.js:22-43 | after the insert, 201 if and only if the QR encoder, the token save and the PDF succeed |
| UserController.MailNeverChangesOutcome | backend/controllers/userController.js:219-223 | whether the mail transport succeeds changes neither the response, nor the users, nor the files; a lost mail leaves the outbox as it was, and a sent one after 201 adds exactly one mail |
| UserController.IssueMailOnly | backend/controllers/userController.js:35-43 | the same statement for the steps after the insert |
| UserController.CreatedRecordsTicket | backend/controllers/userController.js:22-43 | after 201, the response carries the e-mail, event and QR image but no name; the users are the old ones plus the new record holding the token, which splits back into (email, id); the record is PENDING |
| UserController.IssueCreated | backend/controllers/userController.js:22-43 | when the steps after the insert succeed, the response is the success body and the new record holds the token |
| UserController.CreatedWritesTicket | backend/controllers/userController.js:31-35 | after 201 the ticket sits at the path named by the id, with Order ID `id` + "1"; no other file changes; when the transport accepts, the outbox is the old outbox followed by the mail composed for that ticket (the one `MailMatchesTicket` describes); otherwise it is unchanged |
| UserController.UnknownRoleMailedAsUnknownPayment | backend/controllers/userController.js:141-219 | after 201 with the mail accepted, a registrant of any role other than "Visitor" or "Speaker" is sent one mail showing "UNKNOWN ROLE" and the unknown-payment label |
| UserController.FailureKeepsInsertedRecord | backend/controllers/userController.js:45-47 | a 500 carries "Error registering user" and writes no file and no mail; a failed insert changes nothing; a later failure keeps the inserted record, and every older one, with the token only when the second save succeeded |
| UserController.IssueEffects | backend/controllers/userController.js:22-47 | the steps after the insert either leave the users or add the token to the new record; on failure files and outbox stay |
| UserController.RegisterKeepsUniqueIndex | backend/controllers/userController.js:18-26 | no request breaks the unique (email, eventId) index |
| UserController.OneRegistrationPerEmail | backend/controllers/userController.js:13-19 | once a request has inserted a record, a later request with the same e-mail gets 400 and changes nothing, whatever event or role it names |
| UserController.RegisterAsWrittenStoresNothing | backend/controllers/userController.js:18-19 | when the first save succeeds exactly as `save()` would decide, no request gets 201 and none changes the state; a new e-mail gets 500 at the insert |
| UserController.Backend.SendSuccessEmail | backend/controllers/userController.js:131-224 | the outbox gains the composed mail exactly when the PDF exists and the transport accepts; otherwise it is unchanged and nothing is raised |
| UserController.Backend.RegisterUser | backend/controllers/userController.js:9-49 | the step-by-step handler produces exactly the state and response of `Register` |
| AdminDashboard.FirstKey | frontend/event-registration/src/pages/AdminDashboard.jsx:10-15 | `find` gives the first key satisfying the predicate, or none when no key does |
| AdminDashboard.FieldValueIsFirstMatch | frontend/event-registration/src/pages/AdminDashboard.jsx:9-21 | the extracted value is the value of the first key whose lower-case form includes a needle |
| AdminDashboard.FieldValueWithoutMatch | frontend/event-registration/src/pages/AdminDashboard.jsx:17-18 | with no matching key, or no registration data, the extracted value is "" |
| AdminDashboard.ContactIsFirstMatchingKey | frontend/event-registration/src/pages/AdminDashboard.jsx:24-37 | the contact is the value of the first key whose lower-case form includes contact, mobile, phone or number |
| AdminDashboard.FilterUsers | frontend/event-registration/src/pages/AdminDashboard.jsx:137-147 | the filtered list is never longer than the list |
| AdminDashboard.FilterIsSubsequence | frontend/event-registration/src/pages/AdminDashboard.jsx:137-147 | the filter keeps users in their order: the result is a subsequence of the users |
| AdminDashboard.FilterKeepsExactlyShown | frontend/event-registration/src/pages/AdminDashboard.jsx:137-147 | a user appears in the result as often as in the list if its name or e-mail includes the search term (case-insensitively) and its role matches the filter or the filter is "All", and not at all otherwise |
| AdminDashboard.EmptySearchShowsAll | frontend/event-registration/src/pages/AdminDashboard.jsx:137-147 | an empty search with the role filter at "All" shows every user |
| AdminDashboard.PrivilegeKeyCounts | frontend/event-registration/src/pages/AdminDashboard.jsx:154-155 | a privilege is counted exactly when its name is present and non-empty |
| AdminDashboard.CountPrivileges | frontend/event-registration/src/pages/AdminDashboard.jsx:153-164 | the inner loop counts one user's privileges into the summary as the fold over them does |
| AdminDashboard.GetPrivilegeSummary | frontend/event-registration/src/pages/AdminDashboard.jsx:149-168 | the nested loops build the summary the fold over all users describes |
| AdminDashboard.AddPrivilegeWellFormed | frontend/event-registration/src/pages/AdminDashboard.jsx:154-163 | one step keeps the summary well formed: distinct non-empty keys, each with total at least 1 and claimed at most total |
| AdminDashboard.AddPrivilegeCounts | frontend/event-registration/src/pages/AdminDashboard.jsx:157-163 | one step adds 1 to the total of the privilege's own key, and to its claimed count when claimed, and changes no other key |
| AdminDashboard.AddPrivilegeSum | frontend/event-registration/src/pages/AdminDashboard.jsx:154-160 | one step grows the sum of totals by one exactly when the privilege has a name |
| AdminDashboard.AddPrivilegesWellFormed | frontend/event-registration/src/pages/AdminDashboard.jsx:153-164 | counting a list of privileges keeps the summary well formed |
| AdminDashboard.AddPrivilegesCounts | frontend/event-registration/src/pages/AdminDashboard.jsx:153-164 | counting a list adds, under each key, the number of its privileges with that key and how many of them are claimed |
| AdminDashboard.AddPrivilegesSum | frontend/event-registration/src/pages/AdminDashboard.jsx:153-164 | counting a list adds its number of named privileges to the sum of totals |
| AdminDashboard.SummaryWellFormed | frontend/event-registration/src/pages/AdminDashboard.jsx:149-168 | the summary of any users is well formed |
| AdminDashboard.SummaryCountsAt | frontend/event-registration/src/pages/AdminDashboard.jsx:149-168 | the total and claimed count under a key are the numbers of privileges, over all users, with that upper-cased name, and of those claimed |
| AdminDashboard.SummarySum | frontend/event-registration/src/pages/AdminDashboard.jsx:149-168 | the totals add up to the number of named privileges |
| AdminDashboard.SummaryCounts | frontend/event-registration/src/pages/AdminDashboard.jsx:149-168 | the summary's keys are exactly the upper-cased names that occur; each entry holds the total and the claimed count of that name; every total is at least 1 and no claimed count exceeds it; the totals sum to the number of named privileges |
| AdminDashboard.SummaryCardColors | frontend/event-registration/src/pages/AdminDashboard.jsx:202-208 | a summary card is green exactly when all are claimed, yellow exactly when some but not all are, red exactly when none is; a colour key that is neither one of the five nor a property inherited from `Object.prototype` gives "bg-gray-500" |
| AdminDashboard.RolesPresent | frontend/event-registration/src/pages/AdminDashboard.jsx:171 | the mapped and filtered roles are exactly the non-empty roles present among the users, at most one per user |
| AdminDashboard.RolesPresentAppend | frontend/event-registration/src/pages/AdminDashboard.jsx:171 | the roles keep user order: appending a user appends its non-empty role, or nothing |
| AdminDashboard.Dedup | frontend/event-registration/src/pages/AdminDashboard.jsx:171 | the set spread holds the same values, each once |
| AdminDashboard.DedupKeepsFirstOccurrenceOrder | frontend/event-registration/src/pages/AdminDashboard.jsx:171 | the de-duplicated list is ordered by first occurrence |
| AdminDashboard.UniqueRolesSpec | frontend/event-registration/src/pages/AdminDashboard.jsx:171 | the role menu lists every non-empty role present and nothing else, each once, in order of first occurrence |
| AdminDashboard.PrivilegesCellSpec | frontend/event-registration/src/pages/AdminDashboard.jsx:111-118 | the cell is "No privileges assigned" if and only if the list is empty; a single privilege gives its entry `NAME (Claimed)` / `NAME (Not Claimed)` alone |
| AdminDashboard.PrivilegesCellAppend | frontend/event-registration/src/pages/AdminDashboard.jsx:113-117 | one more privilege adds ", " and its entry at the end of the cell, so the entries appear in list order |
| AdminDashboard.ClicksStayInRange | frontend/event-registration/src/pages/AdminDashboard.jsx:338-350 | from a page in range, any sequence of clicks on Previous and Next stays within [1, totalPages] |
| AdminDashboard.NextReachesLastPage | frontend/event-registration/src/pages/AdminDashboard.jsx:345-350 | clicking Next until it is disabled reaches the last page |
| AdminDashboard.NextPastLastPage | frontend/event-registration/src/pages/AdminDashboard.jsx:345-350 | once the page count has dropped below the current page, Next stays enabled and each click moves one page further past the last |
| AdminDashboard.Pagination.constructor | frontend/event-registration/src/pages/AdminDashboard.jsx:62-63 | the page starts at 1, in range |
| AdminDashboard.Pagination.HandlePagination | frontend/event-registration/src/pages/AdminDashboard.jsx:180-182 | the setter sets the current page to the given value |
| AdminDashboard.Pagination.LoadTotalPages | frontend/event-registration/src/pages/AdminDashboard.jsx:86 | the page count becomes the fetched count, or 1 when it is missing or zero; the current page is not touched |
| AdminDashboard.Pagination.ClickPrevious | frontend/event-registration/src/pages/AdminDashboard.jsx:338-344 | Previous moves back one page unless on page 1, where it is disabled; a page in range stays in range |
| AdminDashboard.Pagination.ClickNext | frontend/event-registration/src/pages/AdminDashboard.jsx:345-350 | Next moves forward one page unless on the last page, where it is disabled; a page in range stays in range |
| EditEvent.CleanEntries | frontend/event-registration/src/pages/EditEvent.jsx:110 | trimming and dropping empty parts leaves only trimmed, non-empty, comma-free entries, never more than the parts |
| EditEvent.ParsePrivileges | frontend/event-registration/src/pages/EditEvent.jsx:110 | every parsed privilege is trimmed, non-empty and free of commas |
| EditEvent.ParseBlank | frontend/event-registration/src/pages/EditEvent.jsx:110 | a comma-free string of whitespace only parses to no privileges |
| EditEvent.ParseCons | frontend/event-registration/src/pages/EditEvent.jsx:110 | parsing cuts at the first comma: the first part's trimmed entry, if any, followed by the parse of the rest |
| EditEvent.PrivilegesRoundTrip | frontend/event-registration/src/pages/EditEvent.jsx:37 | a list of trimmed, non-empty, comma-free privileges joined with ", " (line 37) and parsed (line 110) gives back the same list |
| EditEvent.ParseAfterJoin | frontend/event-registration/src/pages/EditEvent.jsx:110 | the round trip holds even after a blank left by a cut at a comma |
| EditEvent.ParseIsIdempotent | frontend/event-registration/src/pages/EditEvent.jsx:110 | joining a parse and parsing again gives the same list |
| EditEvent.ToFormRoles | frontend/event-registration/src/pages/EditEvent.jsx:35-38 | fetched role i becomes form role i, with the same name and description and its privileges joined by ", " |
| EditEvent.SanitizeRolesSpec | frontend/event-registration/src/pages/EditEvent.jsx:107-111 | sanitising keeps the number and order of the roles; role i has the trimmed name and description of form role i and its parsed, clean privileges |
| EditEvent.UneditedRolesRoundTrip | frontend/event-registration/src/pages/EditEvent.jsx:107-111 | roles in normal form, loaded into the form and submitted unedited, are sent back unchanged |
| EditEvent.DeleteRemovesExactlyOne | frontend/event-registration/src/pages/EditEvent.jsx:85 | deleting index i removes exactly the role at i and keeps the others in order; an index out of range changes nothing |
| EditEvent.NewRoleFrom | frontend/event-registration/src/pages/EditEvent.jsx:65-70 | a role is made if and only if all three trimmed inputs are non-empty, and it holds the three trimmed inputs |
| EditEvent.AddedRoleIsClean | frontend/event-registration/src/pages/EditEvent.jsx:65-70 | an added role's name and description are trimmed and non-empty, and sanitising keeps them |
| EditEvent.EventEditor.constructor | frontend/event-registration/src/pages/EditEvent.jsx:10-23 | the form starts with empty fields, no roles, empty inputs and no error |
| EditEvent.EventEditor.Load | frontend/event-registration/src/pages/EditEvent.jsx:40-47 | the form is filled with the fetched fields and the fetched roles in form shape |
| EditEvent.EventEditor.HandleChange | frontend/event-registration/src/pages/EditEvent.jsx:58-61 | the named field takes the value; every other field and the roles stay |
| EditEvent.EventEditor.HandleAddRole | frontend/event-registration/src/pages/EditEvent.jsx:64-79 | appends exactly the trimmed role and clears the three inputs when all trimmed inputs are non-empty; otherwise nothing changes |
| EditEvent.EventEditor.HandleDeleteRole | frontend/event-registration/src/pages/EditEvent.jsx:82-87 | the roles lose the entry at the index and nothing else changes |
| EditEvent.EventEditor.ValidateForm | frontend/event-registration/src/pages/EditEvent.jsx:90-98 | returns true if and only if the five fields are non-empty and there is a role; the error is cleared on success and set to the required-fields message otherwise |
| Text.Trim | frontend/event-registration/src/pages/EditEvent.jsx:65 | `trim` gives a string with no whitespace at either end, found inside the input |
| Text.TrimCutsWhitespaceOnly | frontend/event-registration/src/pages/EditEvent.jsx:70 | `trim` removes whitespace only: everything before and after the result is whitespace |
| Text.TrimOfTrimmed | frontend/event-registration/src/pages/EditEvent.jsx:108-109 | trimming a trimmed string changes nothing |
| Text.Contains | frontend/event-registration/src/pages/AdminDashboard.jsx:142-143 | `includes` is true if and only if the needle occurs at some index |
| Text.Split | frontend/event-registration/src/pages/EditEvent.jsx:110 | `split` on one character gives at least one part, none holding the separator |
| Text.JoinAppend | frontend/event-registration/src/pages/AdminDashboard.jsx:117 | `join` of one more part adds the separator and the part at the end |
| Text.SplitAtFirst | frontend/event-registration/src/pages/EditEvent.jsx:110 | `split` cuts at the first separator |

## Findings

| source | as written | input that shows it | evidently intended | confidence | as-written member | corrected member |
|---|---|---|---|---|---|---|
| backend/controllers/userController.js:18-19 | `new User({ name, email, eventName, contact, role })` sets none of `eventId`, `companyName` and `registrationData`, which backend/models/User.js:9-15 requires, so the first `save()` always rejects the document and the request ends in 500 | any request whose e-mail is not on file, such as name "A", email "a@x.io", eventName "Expo", contact "1", role "Visitor" | the record is stored and the request goes on to the token, the ticket and the mail, ending in 201 | not executed | UserController.RegisterAsWrittenStoresNothing | UserController.CreatedExactly |

## Left out

- Request fields and registration-data values are taken to be present strings. A missing field (which the code passes on as `undefined`), a JSON object such as a query operator in `email` (which `findOne` would run as a query), and a non-string value under a name or e-mail key (on which `toLowerCase` throws) are not modelled.
- The `timestamps: true` option of the schema (`createdAt`, `updatedAt`) is not modelled; no operation of the core reads them.
- I/O and libraries are not modelled; their outcomes are inputs:
  - the Mongoose driver and MongoDB persistence, kept as a map and the outcome of each save;
  - the `qrcode` raster encoding, kept as the base64 payload it returns or a failure;
  - base64 decoding by `Buffer.from`;
  - the `fs` stream, kept as "the ticket is written or the step fails";
  - the nodemailer transport, kept as "the mail is accepted or not".
- The pdfkit layout is left out: fonts, sizes, coordinates and the floating-point centring of the QR image. The ticket is modelled as its lines of text plus the embedded payload.
- The HTML markup and styling of the mail are left out; only the values the template shows are modelled.
- The hard-coded sender credentials of the mail transport are not modelled.
- A rejected `User.findOne` lookup (a lost database connection) is not modelled: the catch block would answer 500 "Error registering user" with nothing changed. The lookup is modelled as a read of the map that always succeeds.
- The race between `findOne` and `save` under concurrent requests is not modelled, because the model is sequential.
- A second save that fails validation after the token is set is not modelled separately; it is the `updateSaved` outcome.
- The console logging in both catch blocks is not modelled.
- `error.message` in the 500 body is not modelled, because it is produced by the failing library.
- React rendering, axios requests, toasts, navigation and localStorage are not modelled.
- The token check and the fetch of users per page are not modelled; the dashboard works on the list it was given.
- The jsPDF/autoTable export is not modelled beyond the privileges cell of its rows.
- `handleSubmit`'s PUT request is not modelled; only its `sanitizedRoles` mapping is.
- The `new Date(...).toISOString()` date formatting on submit is not modelled, because it depends on the Date library and the time zone.
- The `loading` flag is not modelled.
- Text.ToLower and Text.ToUpper map ASCII letters only; JavaScript's full Unicode case mapping is not modelled.
- The privilege summary keeps its keys in insertion order, which is JavaScript's order for string keys; integer-like names, which `Object.keys` lists first in numeric order, are not modelled.
- AdminDashboard.FieldValue takes `registrationData` as its properties in `Object.keys` order; integer-like keys, which JavaScript lists first, are not reordered.
- AdminDashboard.ColorClass: looks a colour up among the five own keys of `colors` only; a key naming a property inherited from `Object.prototype` (such as "constructor"), which the page never passes, finds that inherited member in JavaScript and is left out of the grey-fallback claim.
- AdminDashboard.Pagination.HandlePagination sets any value, as the setter does; the two click methods keep a page in range, but a fetch that lowers the page count below the current page leaves it out of range, as `NextPastLastPage` shows.
