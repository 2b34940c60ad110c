/**
 * Ticket issuance of backend/controllers/userController.js.
 *
 * `registerUser` runs a fixed sequence: the duplicate check on the e-mail, the insert of a new
 * document, the scan token and its QR image, the second save that stores the token, the PDF
 * ticket, and a best-effort confirmation mail. `Register` is that sequence as a function of the
 * state and of what the collaborators (database, QR encoder, file system, mail transport) do;
 * `Backend.RegisterUser` runs it step by step on mutable state and is proved to agree with it.
 */
module UserController {
  import opened Wrappers
  import opened Text
  import opened UserModel

  /** The fields `registerUser` reads from the request body. */
  datatype Request = Request(name: string, email: string, eventName: string, contact: string, role: string)

  // ---------------------------------------------------------------- the inserted document

  /** `new User({ name, email, eventName, contact, role })`. `name` and `contact` are not paths of
      the schema, so the document drops them; the other paths are left unset. */
  function ControllerDoc(req: Request): UserDoc {
    NewDoc(UserInit(None, None, Some(req.eventName), Some(req.role), Some(req.email), [], None, None, None, None))
  }

  /** The document the controller builds always fails schema validation: it lacks `eventId`,
      `companyName` and `registrationData`, so `save()` on it cannot succeed. */
  lemma ControllerDocFailsValidation(req: Request, c: Collection, id: ObjectId)
    ensures Validate(ControllerDoc(req)).Failure?
    ensures var errs := Validate(ControllerDoc(req)).error;
            EventIdPath in errs && CompanyNamePath in errs && RegistrationDataPath in errs
    ensures Save(c, id, ControllerDoc(req)).Failure?
  {
    var d := ControllerDoc(req);
    assert ValidationErrors(d)[0] == EventIdPath;
    assert CompanyNamePath in ValidationErrors(d);
    assert RegistrationDataPath in ValidationErrors(d);
  }

  // ---------------------------------------------------------------- the scan token

  /** The scan token: the e-mail, a dash, and the record's id. */
  function MintToken(email: string, id: ObjectId): string {
    email + "-" + id
  }

  /** Reads a token back: everything before the last dash, and everything after it. */
  function SplitToken(token: string): Option<(string, string)> {
    match LastIndexOf(token, '-')
    case None => None
    case Some(i) => Some((token[..i], token[i + 1..]))
  }

  /** An id has no dash, so the last dash of a token separates the e-mail from the id. */
  lemma TokenRoundTrip(email: string, id: ObjectId)
    ensures SplitToken(MintToken(email, id)) == Some((email, id))
  {
    assert MintToken(email, id) == email + ['-'] + id;
    LastIndexOfJoint(email, '-', id);
    assert (email + ['-'] + id)[..|email|] == email;
    assert (email + ['-'] + id)[|email| + 1..] == id;
  }

  // ---------------------------------------------------------------- the QR image as a data URL

  const PngDataUrlPrefix: string := "data:image/png;base64,"

  predicate IsBase64Char(c: char) {
    'A' <= c <= 'Z' || 'a' <= c <= 'z' || '0' <= c <= '9' || c == '+' || c == '/' || c == '='
  }

  /** Base64 text: what follows the comma of the QR encoder's data URL. */
  type Base64 = s: string | forall i :: 0 <= i < |s| ==> IsBase64Char(s[i])

  /** The data URL `QRCode.toDataURL` returns for a PNG whose base64 text is `payload`. */
  function PngDataUrl(payload: Base64): string {
    PngDataUrlPrefix + payload
  }

  /** `dataUrl.split(",")[1]`, with `None` for `undefined` (no comma). */
  function SecondCommaField(dataUrl: string): Option<string> {
    var parts := Split(dataUrl, ',');
    if |parts| >= 2 then Some(parts[1]) else None
  }

  /** `dataUrl.replace(/^data:image\/png;base64,/, "")`. */
  function StripPngPrefix(dataUrl: string): string {
    if StartsWith(dataUrl, PngDataUrlPrefix) then dataUrl[|PngDataUrlPrefix|..] else dataUrl
  }

  /** Both ways the code takes the payload out of a data URL (the PDF step splits at commas, the
      mail step strips the prefix) give the base64 data after the comma, as in the
      `data:[<mediatype>][;base64],<data>` syntax of section 3 of RFC 2397. */
  lemma PayloadOfPngDataUrl(payload: Base64)
    ensures SecondCommaField(PngDataUrl(payload)) == Some(payload)
    ensures StripPngPrefix(PngDataUrl(payload)) == payload
  {
    var head := "data:image/png;base64";
    assert PngDataUrl(payload) == head + [','] + payload;
    SplitAtFirst(head, ',', payload);
    SplitWithoutSeparator(payload, ',');
    assert StartsWith(PngDataUrl(payload), PngDataUrlPrefix);
  }

  // ---------------------------------------------------------------- the PDF ticket

  /** The directory `path.join(__dirname, "../public/pdfs")` names, relative to the repository. */
  const PdfDirectory: string := "backend/public/pdfs"

  function PdfPath(ticketId: string): string {
    PdfDirectory + "/" + ticketId + ".pdf"
  }

  /** The last component of a path. */
  function BaseName(path: string): string {
    match LastIndexOf(path, '/')
    case None => path
    case Some(i) => path[i + 1..]
  }

  /** The ticket file is named by the ticket id. */
  lemma PdfFileNamedByTicket(id: ObjectId)
    ensures BaseName(PdfPath(id)) == id + ".pdf"
  {
    var name := id + ".pdf";
    assert PdfPath(id) == PdfDirectory + ['/'] + name;
    LastIndexOfJoint(PdfDirectory, '/', name);
    assert (PdfDirectory + ['/'] + name)[|PdfDirectory| + 1..] == name;
  }

  /** The PDF's "Order ID": `${ticketID+1}` appends the character 1 to the id string. */
  function PdfOrderId(ticketId: string): string {
    ticketId + "1"
  }

  /** The e-mail's "Order ID" is the ticket id itself. */
  function MailOrderId(ticketId: string): string {
    ticketId
  }

  const EventSchedule: string := "March 15 - 16, 2025, 08:00 AM - 5:00 PM (IST)"

  /** What the ticket shows beyond its fixed text: the attendee, the two ids and the embedded QR
      image (base64 text). */
  datatype TicketPdf = TicketPdf(
    eventName: string, name: string, email: string, role: string,
    orderId: string, ticketId: string, qrPng: string)

  /** The lines `generateTicketPDF` writes, top to bottom. */
  function TicketText(t: TicketPdf): seq<string> {
    [ t.eventName, EventSchedule,
      "Attendee Information", "Name: " + t.name, "Email: " + t.email, "Role: " + t.role,
      "Order Details", "Order ID: " + t.orderId, "Ticket ID: " + t.ticketId,
      "Event Venue", "M Weddings & Conventions", "98/99, Vanagaram-Ambattur Road",
      "Vanagaram, Chennai, Tamil Nadu - 600095, India",
      " Scan this QR code at entry:",
      "Powered by EVENT-MVP" ]
  }

  /** `generateTicketPDF`: fails when the data URL has no comma (`Buffer.from(undefined)` throws). */
  function RenderTicket(name: string, email: string, eventName: string, role: string, ticketId: string, qrImage: string): Option<TicketPdf> {
    match SecondCommaField(qrImage)
    case None => None
    case Some(png) => Some(TicketPdf(eventName, name, email, role, PdfOrderId(ticketId), ticketId, png))
  }

  /** The ticket for a QR data URL always renders; it names the attendee, shows the order id
      (the ticket id followed by "1", never the ticket id itself) and the ticket id, and embeds
      the QR payload. */
  lemma TicketContents(req: Request, id: ObjectId, payload: Base64)
    ensures var t := RenderTicket(req.name, req.email, req.eventName, req.role, id, PngDataUrl(payload));
      && t.Some?
      && t.value.qrPng == payload
      && TicketText(t.value)[0] == req.eventName
      && TicketText(t.value)[3] == "Name: " + req.name
      && TicketText(t.value)[4] == "Email: " + req.email
      && TicketText(t.value)[5] == "Role: " + req.role
      && TicketText(t.value)[7] == "Order ID: " + id + "1"
      && TicketText(t.value)[8] == "Ticket ID: " + id
      && PdfOrderId(id) != MailOrderId(id)
  {
    PayloadOfPngDataUrl(payload);
    assert |PdfOrderId(id)| != |id|;
  }

  // ---------------------------------------------------------------- the confirmation mail

  datatype TicketLabels = TicketLabels(ticketClass: string, paymentStatus: string)

  /** The role decides the ticket class and payment label; every other role gets the fallback. */
  function LabelsFor(role: string): (l: TicketLabels)
    ensures role == "Visitor" ==> l == TicketLabels("VISITORS REGISTRATION (PAID ENTRY)", "\U{2705} Payment Received")
    ensures role == "Speaker" ==> l == TicketLabels("SPEAKER REGISTRATION (FREE ENTRY)", "\U{2705} No Payment Required")
    ensures role != "Visitor" && role != "Speaker" ==> l == TicketLabels("UNKNOWN ROLE", "\U{2753} Payment Status Unknown")
  {
    if role == "Visitor" then TicketLabels("VISITORS REGISTRATION (PAID ENTRY)", "\U{2705} Payment Received")
    else if role == "Speaker" then TicketLabels("SPEAKER REGISTRATION (FREE ENTRY)", "\U{2705} No Payment Required")
    else TicketLabels("UNKNOWN ROLE", "\U{2753} Payment Status Unknown")
  }

  /** The three roles get three different ticket classes. */
  lemma TicketClassTellsRolesApart(r1: string, r2: string)
    requires LabelsFor(r1).ticketClass == LabelsFor(r2).ticketClass
    ensures r1 == "Visitor" <==> r2 == "Visitor"
    ensures r1 == "Speaker" <==> r2 == "Speaker"
  {
  }

  const SenderAddress: string := "amthemithun@gmail.com"
  const QrContentId: string := "qrcode123"

  datatype AttachmentContent = Base64Png(text: string) | PdfFile(pdf: TicketPdf)

  datatype Attachment = Attachment(filename: string, content: AttachmentContent, cid: Option<string>)

  /** The values the HTML template shows; the markup and styling around them are constant. */
  datatype MailHtml = MailHtml(
    eventName: string, name: string, orderId: string,
    ticketClass: string, paymentStatus: string, qrImageSrc: string)

  datatype Mail = Mail(from: string, to: string, subject: string, html: MailHtml, attachments: seq<Attachment>)

  function Subject(eventName: string): string {
    "\U{1F389} " + eventName + " - Your Ticket Confirmation"
  }

  /** The `mailOptions` of `sendSuccessEmail`. */
  function ComposeMail(name: string, email: string, eventName: string, qrImage: string, role: string,
                       ticketId: string, pdf: TicketPdf): Mail
  {
    var labels := LabelsFor(role);
    Mail(SenderAddress, email, Subject(eventName),
         MailHtml(eventName, name, MailOrderId(ticketId), labels.ticketClass, labels.paymentStatus, "cid:" + QrContentId),
         [ Attachment("QRCode.png", Base64Png(StripPngPrefix(qrImage)), Some(QrContentId)),
           Attachment(ticketId + ".pdf", PdfFile(pdf), None) ])
  }

  /** The mail for a registration goes to the registrant; the image the HTML shows is the first
      attachment, whose bytes are the QR payload the ticket embeds; the second attachment is the
      ticket itself, under the name of its file. */
  lemma MailMatchesTicket(req: Request, id: ObjectId, payload: Base64, pdf: TicketPdf)
    requires RenderTicket(req.name, req.email, req.eventName, req.role, id, PngDataUrl(payload)) == Some(pdf)
    ensures var m := ComposeMail(req.name, req.email, req.eventName, PngDataUrl(payload), req.role, id, pdf);
      && m.to == req.email
      && m.subject == "\U{1F389} " + req.eventName + " - Your Ticket Confirmation"
      && |m.attachments| == 2
      && m.attachments[0].filename == "QRCode.png"
      && m.attachments[0].cid.Some?
      && m.html.qrImageSrc == "cid:" + m.attachments[0].cid.value
      && m.attachments[0].content == Base64Png(pdf.qrPng)
      && m.attachments[1].filename == BaseName(PdfPath(id))
      && m.attachments[1].content == PdfFile(pdf)
      && m.html.orderId == id
      && m.html.ticketClass == LabelsFor(req.role).ticketClass
      && m.html.paymentStatus == LabelsFor(req.role).paymentStatus
      && m.html.eventName == req.eventName
      && m.html.name == req.name
  {
    PayloadOfPngDataUrl(payload);
    PdfFileNamedByTicket(id);
  }

  // ---------------------------------------------------------------- the pipeline

  /** What the collaborators do during one request: the id `new User` assigns, whether each save
      goes through, the QR encoder (the base64 PNG it makes of a text, `None` when it throws),
      whether the PDF stream finishes, and whether the mail transport accepts the message. */
  datatype Collaborators = Collaborators(
    newId: ObjectId,
    insertSaved: bool,
    qrEncode: string -> Option<Base64>,
    updateSaved: bool,
    pdfWritten: bool,
    mailSent: bool)

  /** `QRCode.toDataURL(qrCodeData)`: the encoder applied to the scan token of the new record. */
  function QrPayload(req: Request, env: Collaborators): Option<Base64> {
    env.qrEncode(MintToken(req.email, env.newId))
  }

  /** The step whose exception reached the catch block. */
  datatype Step = InsertStep | QrStep | UpdateStep | PdfStep

  datatype Response =
    | BadRequest(message: string)
    | Created(message: string, name: Option<string>, email: Option<string>, eventName: Option<string>, qrCode: string)
    | ServerError(message: string, failed: Step)

  function StatusCode(r: Response): int {
    match r
    case BadRequest(_) => 400
    case Created(_, _, _, _, _) => 201
    case ServerError(_, _) => 500
  }

  const DuplicateMessage: string := "User with this email already exists!"
  const SuccessMessage: string := "Registration successful!"
  const FailureMessage: string := "Error registering user"

  /** The users collection, the files written, and the mails the transport accepted. */
  datatype State = State(users: Collection, files: map<string, TicketPdf>, outbox: seq<Mail>)

  /** `User.findOne({ email })` finds a document. */
  predicate EmailRegistered(users: Collection, email: string) {
    exists id :: id in users && users[id].email == Some(email)
  }

  /** `registerUser` as a function of the state and the collaborators' outcomes: the duplicate
      check and the first save, then `Issue`. */
  function Register(st: State, req: Request, env: Collaborators): (State, Response) {
    if EmailRegistered(st.users, req.email) then (st, BadRequest(DuplicateMessage))
    else if !env.insertSaved || InsertDoc(st.users, env.newId, ControllerDoc(req)).Failure? then
      (st, ServerError(FailureMessage, InsertStep))
    else Issue(st.(users := st.users[env.newId := ControllerDoc(req)]), req, env)
  }

  /** The steps after the first save: the QR image, the token save, the PDF and the mail. */
  function Issue(st: State, req: Request, env: Collaborators): (State, Response) {
    match QrPayload(req, env)
    case None => (st, ServerError(FailureMessage, QrStep))
    case Some(payload) =>
      var id := env.newId;
      var doc := ControllerDoc(req);
      var qrImage := PngDataUrl(payload);
      if !env.updateSaved then (st, ServerError(FailureMessage, UpdateStep))
      else
        var users2 := st.users[id := doc.(qrCode := Some(MintToken(req.email, id)))];
        var pdf := RenderTicket(req.name, req.email, req.eventName, req.role, id, qrImage);
        if !env.pdfWritten || pdf.None? then (st.(users := users2), ServerError(FailureMessage, PdfStep))
        else
          var path := PdfPath(id);
          var files := st.files[path := pdf.value];
          var outbox := if env.mailSent
            then st.outbox + [ComposeMail(req.name, req.email, req.eventName, qrImage, req.role, id, files[path])]
            else st.outbox;
          (State(users2, files, outbox), Created(SuccessMessage, None, doc.email, doc.eventName, qrImage))
  }

  /** An e-mail already on file gives 400 and nothing else happens: no insert, no file, no mail. */
  lemma DuplicateEmailHasNoEffect(st: State, req: Request, env: Collaborators)
    requires exists id :: id in st.users && st.users[id].email == Some(req.email)
    ensures Register(st, req, env).0 == st
    ensures StatusCode(Register(st, req, env).1) == 400
  {
  }

  /** If no document has the e-mail, the (email, eventId) key of the new document is free too. */
  lemma FreeEmailFreesIndexKey(users: Collection, req: Request)
    requires !EmailRegistered(users, req.email)
    ensures !KeyTaken(users, IndexKey(ControllerDoc(req)))
  {
  }

  /** The request succeeds exactly when the e-mail is new, the id is free, and the insert, the QR
      encoder, the token save and the PDF all go through; the mail transport plays no part. */
  lemma CreatedExactly(st: State, req: Request, env: Collaborators)
    ensures StatusCode(Register(st, req, env).1) == 201 <==>
      && !EmailRegistered(st.users, req.email)
      && env.insertSaved && env.newId !in st.users
      && QrPayload(req, env).Some? && env.updateSaved && env.pdfWritten
  {
    if !EmailRegistered(st.users, req.email) {
      FreeEmailFreesIndexKey(st.users, req);
      if env.insertSaved && env.newId !in st.users {
        IssueCreatedExactly(st.(users := st.users[env.newId := ControllerDoc(req)]), req, env);
      }
    }
  }

  lemma IssueCreatedExactly(st: State, req: Request, env: Collaborators)
    ensures StatusCode(Issue(st, req, env).1) == 201 <==> QrPayload(req, env).Some? && env.updateSaved && env.pdfWritten
  {
    if QrPayload(req, env).Some? {
      TicketContents(req, env.newId, QrPayload(req, env).value);
    }
  }

  /** The mail transport failing or not changes neither the response, nor the stored documents,
      nor the files; it only decides whether the mail is in the outbox. */
  lemma MailNeverChangesOutcome(st: State, req: Request, env: Collaborators)
    ensures var sent := Register(st, req, env.(mailSent := true));
            var lost := Register(st, req, env.(mailSent := false));
      && sent.1 == lost.1
      && sent.0.users == lost.0.users && sent.0.files == lost.0.files
      && lost.0.outbox == st.outbox
      && (StatusCode(sent.1) == 201 ==> |sent.0.outbox| == |st.outbox| + 1)
  {
    if !EmailRegistered(st.users, req.email) && env.insertSaved && InsertDoc(st.users, env.newId, ControllerDoc(req)).Success? {
      IssueMailOnly(st.(users := st.users[env.newId := ControllerDoc(req)]), req, env);
    }
  }

  lemma IssueMailOnly(st: State, req: Request, env: Collaborators)
    ensures var sent := Issue(st, req, env.(mailSent := true));
            var lost := Issue(st, req, env.(mailSent := false));
      && sent.1 == lost.1
      && sent.0.users == lost.0.users && sent.0.files == lost.0.files
      && lost.0.outbox == st.outbox
      && (StatusCode(sent.1) == 201 ==> |sent.0.outbox| == |st.outbox| + 1)
  {
  }

  /** After a success the response carries the e-mail, the event and the QR image (the schema
      has no `name`, so the name is absent), and the new record, still PENDING, holds the token
      `email-id`, which splits back into the e-mail and the id. */
  lemma CreatedRecordsTicket(st: State, req: Request, env: Collaborators)
    requires StatusCode(Register(st, req, env).1) == 201
    ensures QrPayload(req, env).Some?
    ensures Register(st, req, env).1 ==
            Created(SuccessMessage, None, Some(req.email), Some(req.eventName), PngDataUrl(QrPayload(req, env).value))
    ensures Register(st, req, env).0.users ==
            st.users[env.newId := ControllerDoc(req).(qrCode := Some(MintToken(req.email, env.newId)))]
    ensures SplitToken(Register(st, req, env).0.users[env.newId].qrCode.value) == Some((req.email, env.newId))
    ensures ControllerDoc(req).paymentStatus == DefaultPaymentStatus
  {
    CreatedExactly(st, req, env);
    IssueCreated(st.(users := st.users[env.newId := ControllerDoc(req)]), req, env);
    TokenRoundTrip(req.email, env.newId);
  }

  lemma IssueCreated(st: State, req: Request, env: Collaborators)
    requires QrPayload(req, env).Some? && env.updateSaved && env.pdfWritten
    ensures Issue(st, req, env).1 ==
            Created(SuccessMessage, None, Some(req.email), Some(req.eventName), PngDataUrl(QrPayload(req, env).value))
    ensures Issue(st, req, env).0.users ==
            st.users[env.newId := ControllerDoc(req).(qrCode := Some(MintToken(req.email, env.newId)))]
  {
    TicketContents(req, env.newId, QrPayload(req, env).value);
  }

  /** After a success the ticket sits at the file named after the id, with the Order ID `id1`,
      no other file changes, and the outbox gains the confirmation mail composed for that ticket
      exactly when the transport accepted it. */
  lemma CreatedWritesTicket(st: State, req: Request, env: Collaborators)
    requires StatusCode(Register(st, req, env).1) == 201
    ensures QrPayload(req, env).Some?
    ensures var files := Register(st, req, env).0.files;
      && PdfPath(env.newId) in files
      && BaseName(PdfPath(env.newId)) == env.newId + ".pdf"
      && TicketText(files[PdfPath(env.newId)])[7] == "Order ID: " + env.newId + "1"
      && files == st.files[PdfPath(env.newId) := files[PdfPath(env.newId)]]
    ensures var outbox := Register(st, req, env).0.outbox;
      && (env.mailSent ==> outbox == st.outbox + [ComposeMail(req.name, req.email, req.eventName,
            PngDataUrl(QrPayload(req, env).value), req.role, env.newId, Register(st, req, env).0.files[PdfPath(env.newId)])])
      && (!env.mailSent ==> outbox == st.outbox)
  {
    CreatedExactly(st, req, env);
    PdfFileNamedByTicket(env.newId);
    TicketContents(req, env.newId, QrPayload(req, env).value);
  }

  /** A registrant whose role is neither "Visitor" nor "Speaker" still gets the mail, and it shows
      the unknown-payment label. */
  lemma UnknownRoleMailedAsUnknownPayment(st: State, req: Request, env: Collaborators)
    requires StatusCode(Register(st, req, env).1) == 201 && env.mailSent
    requires req.role != "Visitor" && req.role != "Speaker"
    ensures var outbox := Register(st, req, env).0.outbox;
      && |outbox| == |st.outbox| + 1
      && outbox[|st.outbox|].to == req.email
      && outbox[|st.outbox|].html.paymentStatus == "\U{2753} Payment Status Unknown"
      && outbox[|st.outbox|].html.ticketClass == "UNKNOWN ROLE"
  {
    CreatedWritesTicket(st, req, env);
  }

  /** A failure after the insert gives 500 and leaves the inserted record in place (with the token
      only if the second save went through); no mail is sent, and no file is written. A failed
      insert changes nothing. */
  lemma FailureKeepsInsertedRecord(st: State, req: Request, env: Collaborators)
    requires Register(st, req, env).1.ServerError?
    ensures var (st', res) := Register(st, req, env);
      && StatusCode(res) == 500 && res.message == "Error registering user"
      && st'.outbox == st.outbox && st'.files == st.files
      && (res.failed == InsertStep ==> st' == st)
      && (res.failed != InsertStep ==>
            && env.newId !in st.users
            && st'.users.Keys == st.users.Keys + {env.newId}
            && (forall k :: k in st.users ==> st'.users[k] == st.users[k])
            && st'.users[env.newId].email == Some(req.email)
            && (res.failed == QrStep || res.failed == UpdateStep ==> st'.users[env.newId].qrCode.None?)
            && (res.failed == PdfStep ==> st'.users[env.newId].qrCode == Some(MintToken(req.email, env.newId))))
  {
    if !EmailRegistered(st.users, req.email) && env.insertSaved && InsertDoc(st.users, env.newId, ControllerDoc(req)).Success? {
      IssueEffects(st.(users := st.users[env.newId := ControllerDoc(req)]), req, env);
    }
  }

  /** What the steps after the first save do to the state: the users either stay or gain the
      token on the new record; a failure leaves files and outbox alone. */
  lemma IssueEffects(st: State, req: Request, env: Collaborators)
    ensures var (st', res) := Issue(st, req, env);
            var withToken := st.users[env.newId := ControllerDoc(req).(qrCode := Some(MintToken(req.email, env.newId)))];
      && (st'.users == st.users || st'.users == withToken)
      && (res.ServerError? ==>
            && res.failed != InsertStep
            && st'.files == st.files && st'.outbox == st.outbox
            && (res.failed == QrStep || res.failed == UpdateStep ==> st'.users == st.users)
            && (res.failed == PdfStep ==> st'.users == withToken))
  {
  }

  /** No request breaks the unique (email, eventId) index. */
  lemma RegisterKeepsUniqueIndex(st: State, req: Request, env: Collaborators)
    requires UniqueIndex(st.users)
    ensures UniqueIndex(Register(st, req, env).0.users)
  {
    if !EmailRegistered(st.users, req.email) && env.insertSaved && InsertDoc(st.users, env.newId, ControllerDoc(req)).Success? {
      var doc := ControllerDoc(req);
      InsertKeepsUniqueIndex(st.users, env.newId, doc);
      var users1 := st.users[env.newId := doc];
      var users2 := users1[env.newId := doc.(qrCode := Some(MintToken(req.email, env.newId)))];
      IssueEffects(st.(users := users1), req, env);
      assert forall k :: k in users2 ==> IndexKey(users2[k]) == IndexKey(users1[k]);
    }
  }

  /** Once a request has inserted a record, every later request with the same e-mail is refused
      with 400, whatever event or role it names. */
  lemma OneRegistrationPerEmail(st: State, req: Request, env: Collaborators, later: Request, env2: Collaborators)
    requires var res := Register(st, req, env).1; res.Created? || (res.ServerError? && res.failed != InsertStep)
    requires later.email == req.email
    ensures var st' := Register(st, req, env).0;
            Register(st', later, env2) == (st', BadRequest(DuplicateMessage))
  {
    var st' := Register(st, req, env).0;
    assert st'.users[env.newId].email == Some(req.email);
  }

  /** With the first save decided by the schema, as `save()` decides it, the code as written never
      succeeds: a new e-mail always ends in 500 at the insert, and nothing is stored, written or
      sent. */
  lemma RegisterAsWrittenStoresNothing(st: State, req: Request, env: Collaborators)
    requires env.insertSaved == Save(st.users, env.newId, ControllerDoc(req)).Success?
    ensures StatusCode(Register(st, req, env).1) != 201
    ensures Register(st, req, env).0 == st
    ensures !EmailRegistered(st.users, req.email) ==>
            Register(st, req, env).1 == ServerError(FailureMessage, InsertStep)
  {
    ControllerDocFailsValidation(req, st.users, env.newId);
  }

  // ---------------------------------------------------------------- the running service

  /** The state `registerUser` works on, updated in place. */
  class Backend {
    var users: Collection
    var files: map<string, TicketPdf>
    var outbox: seq<Mail>

    constructor ()
      ensures users == map[] && files == map[] && outbox == []
    {
      users := map[];
      files := map[];
      outbox := [];
    }

    function Snapshot(): State
      reads this
    {
      State(users, files, outbox)
    }

    /** `sendSuccessEmail`: reads the PDF back, composes the mail and hands it to the transport;
        any failure (no file, transport error) is swallowed. */
    method SendSuccessEmail(name: string, email: string, eventName: string, qrImage: string, role: string,
                            ticketId: string, pdfPath: string, transportOk: bool)
      modifies this`outbox
      ensures outbox == if transportOk && pdfPath in files
        then old(outbox) + [ComposeMail(name, email, eventName, qrImage, role, ticketId, files[pdfPath])]
        else old(outbox)
    {
      if pdfPath !in files {
        return;
      }
      var pdfBuffer := files[pdfPath];
      var mailOptions := ComposeMail(name, email, eventName, qrImage, role, ticketId, pdfBuffer);
      if transportOk {
        outbox := outbox + [mailOptions];
      }
    }

    /** `registerUser`, one awaited step after another. */
    method RegisterUser(req: Request, env: Collaborators) returns (res: Response)
      modifies this
      ensures (Snapshot(), res) == Register(old(Snapshot()), req, env)
    {
      if EmailRegistered(users, req.email) {
        return BadRequest(DuplicateMessage);
      }
      var newUser := ControllerDoc(req);
      var id := env.newId;
      if !env.insertSaved || InsertDoc(users, id, newUser).Failure? {
        return ServerError(FailureMessage, InsertStep);
      }
      users := users[id := newUser];

      var qrCodeData := MintToken(req.email, id);
      var qrResult := env.qrEncode(qrCodeData);
      if qrResult.None? {
        return ServerError(FailureMessage, QrStep);
      }
      var qrCodeImage := PngDataUrl(qrResult.value);
      newUser := newUser.(qrCode := Some(qrCodeData));
      if !env.updateSaved {
        return ServerError(FailureMessage, UpdateStep);
      }
      users := users[id := newUser];

      var ticketId: string := id;
      var pdfPath := PdfPath(ticketId);
      var pdf := RenderTicket(req.name, req.email, req.eventName, req.role, ticketId, qrCodeImage);
      if !env.pdfWritten || pdf.None? {
        return ServerError(FailureMessage, PdfStep);
      }
      files := files[pdfPath := pdf.value];

      SendSuccessEmail(req.name, req.email, req.eventName, qrCodeImage, req.role, ticketId, pdfPath, env.mailSent);
      res := Created(SuccessMessage, None, newUser.email, newUser.eventName, qrCodeImage);
    }
  }
}
