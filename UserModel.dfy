/**
 * The registration record of backend/models/User.js: the privilege sub-document, the user
 * document with its defaults, schema validation on save, and the collection with its unique
 * (email, eventId) index.
 *
 * A document (`UserDoc`) is what `new User({...})` holds once defaults are applied: paths the
 * caller did not give are `None`. `Validate` is what `save()` checks before writing; a document
 * that passes it is described by the typed record `User`.
 */
module UserModel {
  import opened Wrappers

  predicate IsLowerHexDigit(c: char) {
    '0' <= c <= '9' || 'a' <= c <= 'f'
  }

  /** A MongoDB ObjectId as its `toString()` prints it: 24 lower-case hexadecimal digits. */
  type ObjectId = s: string | |s| == 24 && forall i :: 0 <= i < |s| ==> IsLowerHexDigit(s[i])
    witness "000000000000000000000000"

  /** One property of the free-form `registrationData` object, in key order. */
  datatype Entry = Entry(key: string, value: string)

  type Fields = seq<Entry>

  // ---------------------------------------------------------------- payment status

  datatype PaymentStatus = PENDING | COMPLETED | FAILED

  function PaymentStatusName(p: PaymentStatus): string {
    match p
    case PENDING => "PENDING"
    case COMPLETED => "COMPLETED"
    case FAILED => "FAILED"
  }

  const DefaultPaymentStatus: string := "PENDING"

  /** The enum validator of `paymentStatus`: accepts exactly the three names. */
  function ParsePaymentStatus(s: string): (r: Option<PaymentStatus>)
    ensures r.Some? ==> PaymentStatusName(r.value) == s
    ensures r.None? ==> forall p: PaymentStatus :: PaymentStatusName(p) != s
  {
    if s == "PENDING" then Some(PENDING)
    else if s == "COMPLETED" then Some(COMPLETED)
    else if s == "FAILED" then Some(FAILED)
    else None
  }

  lemma PaymentStatusRoundTrip(p: PaymentStatus)
    ensures ParsePaymentStatus(PaymentStatusName(p)) == Some(p)
  {
  }

  // ---------------------------------------------------------------- documents

  /** The fields given for one privilege sub-document. */
  datatype PrivilegeInit = PrivilegeInit(name: Option<string>, claim: Option<bool>)

  /** A privilege sub-document after defaults. */
  datatype PrivilegeDoc = PrivilegeDoc(name: Option<string>, claim: bool)

  /** The object passed to `new User({...})`, restricted to the schema's paths. */
  datatype UserInit = UserInit(
    eventId: Option<ObjectId>,
    companyName: Option<string>,
    eventName: Option<string>,
    role: Option<string>,
    email: Option<string>,
    privileges: seq<PrivilegeInit>,
    registrationData: Option<Fields>,
    qrCode: Option<string>,
    transactionId: Option<string>,
    paymentStatus: Option<string>)

  /** A user document after defaults, before validation. */
  datatype UserDoc = UserDoc(
    eventId: Option<ObjectId>,
    companyName: Option<string>,
    eventName: Option<string>,
    role: Option<string>,
    email: Option<string>,
    privileges: seq<PrivilegeDoc>,
    registrationData: Option<Fields>,
    qrCode: Option<string>,
    transactionId: Option<string>,
    paymentStatus: string)

  /** `claim` defaults to false. */
  function NewPrivilege(init: PrivilegeInit): (d: PrivilegeDoc)
    ensures d.name == init.name
    ensures init.claim.None? ==> !d.claim
    ensures init.claim.Some? ==> d.claim == init.claim.value
  {
    PrivilegeDoc(init.name, init.claim.GetOr(false))
  }

  function NewPrivileges(inits: seq<PrivilegeInit>): (ds: seq<PrivilegeDoc>)
    ensures |ds| == |inits|
    ensures forall i :: 0 <= i < |inits| ==> ds[i] == NewPrivilege(inits[i])
  {
    seq(|inits|, i requires 0 <= i < |inits| => NewPrivilege(inits[i]))
  }

  /** `new User(init)`: `paymentStatus` defaults to "PENDING", every privilege's `claim` to false. */
  function NewDoc(init: UserInit): (d: UserDoc)
    ensures init.paymentStatus.None? ==> d.paymentStatus == DefaultPaymentStatus
    ensures init.paymentStatus.Some? ==> d.paymentStatus == init.paymentStatus.value
    ensures d.privileges == NewPrivileges(init.privileges)
    ensures d.email == init.email && d.eventId == init.eventId && d.qrCode == init.qrCode
    ensures d.companyName == init.companyName && d.eventName == init.eventName && d.role == init.role
    ensures d.registrationData == init.registrationData && d.transactionId == init.transactionId
  {
    UserDoc(init.eventId, init.companyName, init.eventName, init.role, init.email,
            NewPrivileges(init.privileges), init.registrationData, init.qrCode,
            init.transactionId, init.paymentStatus.GetOr(DefaultPaymentStatus))
  }

  // ---------------------------------------------------------------- validation

  /** The schema paths a validation error can name. */
  datatype Path =
    | EventIdPath | CompanyNamePath | EventNamePath | RolePath | EmailPath
    | PrivilegeNamePath(index: nat) | RegistrationDataPath | PaymentStatusPath

  /** A required String path is satisfied by a present, non-empty string. */
  predicate Present(v: Option<string>) {
    v.Some? && v.value != ""
  }

  function RequiredString(path: Path, v: Option<string>): seq<Path> {
    if Present(v) then [] else [path]
  }

  /** The privileges (from index `from` on) whose required `name` is missing. */
  function PrivilegeErrors(ps: seq<PrivilegeDoc>, from: nat): (errs: seq<Path>)
    ensures errs == [] <==> forall i :: 0 <= i < |ps| ==> Present(ps[i].name)
    decreases |ps|
  {
    if ps == [] then []
    else
      var rest := PrivilegeErrors(ps[1..], from + 1);
      assert forall i :: 1 <= i < |ps| ==> ps[i] == ps[1..][i - 1];
      RequiredString(PrivilegeNamePath(from), ps[0].name) + rest
  }

  /** The failing paths, in schema order. */
  function ValidationErrors(d: UserDoc): seq<Path> {
    (if d.eventId.None? then [EventIdPath] else [])
    + RequiredString(CompanyNamePath, d.companyName)
    + RequiredString(EventNamePath, d.eventName)
    + RequiredString(RolePath, d.role)
    + RequiredString(EmailPath, d.email)
    + PrivilegeErrors(d.privileges, 0)
    + (if d.registrationData.None? then [RegistrationDataPath] else [])
    + (if ParsePaymentStatus(d.paymentStatus).None? then [PaymentStatusPath] else [])
  }

  /** A validated privilege. */
  datatype Privilege = Privilege(name: string, claim: bool)

  /** A validated user record: every required path is there, `paymentStatus` is one of the enum. */
  datatype User = User(
    eventId: ObjectId,
    companyName: string,
    eventName: string,
    role: string,
    email: string,
    privileges: seq<Privilege>,
    registrationData: Fields,
    qrCode: Option<string>,
    transactionId: Option<string>,
    paymentStatus: PaymentStatus)

  /** `u` holds exactly the values of `d`. */
  predicate Describes(u: User, d: UserDoc) {
    && d.eventId == Some(u.eventId)
    && d.companyName == Some(u.companyName)
    && d.eventName == Some(u.eventName)
    && d.role == Some(u.role)
    && d.email == Some(u.email)
    && |u.privileges| == |d.privileges|
    && (forall i :: 0 <= i < |d.privileges| ==>
          d.privileges[i].name == Some(u.privileges[i].name) && d.privileges[i].claim == u.privileges[i].claim)
    && d.registrationData == Some(u.registrationData)
    && d.qrCode == u.qrCode
    && d.transactionId == u.transactionId
    && d.paymentStatus == PaymentStatusName(u.paymentStatus)
  }

  /** The checks `save()` runs before writing. */
  function Validate(d: UserDoc): (r: Result<User, seq<Path>>)
    ensures r.Success? ==> Describes(r.value, d)
    ensures r.Failure? ==> r.error != []
  {
    var errs := ValidationErrors(d);
    if errs != [] then Failure(errs)
    else
      Success(User(
        d.eventId.value, d.companyName.value, d.eventName.value, d.role.value, d.email.value,
        seq(|d.privileges|, i requires 0 <= i < |d.privileges| => Privilege(d.privileges[i].name.value, d.privileges[i].claim)),
        d.registrationData.value, d.qrCode, d.transactionId, ParsePaymentStatus(d.paymentStatus).value))
  }

  /** Validation passes exactly when every required path is present and non-empty,
      every privilege has a name, and the status is one of the enum. */
  lemma {:induction false} ValidateAcceptsExactly(d: UserDoc)
    ensures Validate(d).Success? <==>
      && d.eventId.Some?
      && Present(d.companyName) && Present(d.eventName) && Present(d.role) && Present(d.email)
      && (forall i :: 0 <= i < |d.privileges| ==> Present(d.privileges[i].name))
      && d.registrationData.Some?
      && d.paymentStatus in {"PENDING", "COMPLETED", "FAILED"}
  {
    var p := PrivilegeErrors(d.privileges, 0);
    assert (forall i :: 0 <= i < |d.privileges| ==> Present(d.privileges[i].name)) <==> p == [];
  }

  /** `qrCode` and `transactionId` are optional: leaving them out never fails validation. */
  lemma OptionalPathsNeverFail(d: UserDoc)
    ensures Validate(d).Success? <==> Validate(d.(qrCode := None, transactionId := None)).Success?
  {
    ValidateAcceptsExactly(d);
    ValidateAcceptsExactly(d.(qrCode := None, transactionId := None));
  }

  /** A record created without a status is PENDING once validated. */
  lemma NewRecordIsPending(init: UserInit)
    requires init.paymentStatus.None?
    requires Validate(NewDoc(init)).Success?
    ensures Validate(NewDoc(init)).value.paymentStatus == PENDING
  {
  }

  /** A validated document's status string is one of the three names. */
  lemma {:induction false} StatusInEnum(d: UserDoc)
    requires Validate(d).Success?
    ensures d.paymentStatus == "PENDING" || d.paymentStatus == "COMPLETED" || d.paymentStatus == "FAILED"
  {
    ValidateAcceptsExactly(d);
  }

  // ---------------------------------------------------------------- the collection

  /** The users collection, by `_id`. */
  type Collection = map<ObjectId, UserDoc>

  /** The key of the compound index `{ email: 1, eventId: 1 }`; a missing path indexes as null. */
  function IndexKey(d: UserDoc): (Option<string>, Option<ObjectId>) {
    (d.email, d.eventId)
  }

  /** The unique index holds: no two documents share (email, eventId). */
  ghost predicate UniqueIndex(c: Collection) {
    forall a, b :: a in c && b in c && a != b ==> IndexKey(c[a]) != IndexKey(c[b])
  }

  predicate KeyTaken(c: Collection, key: (Option<string>, Option<ObjectId>)) {
    exists id :: id in c && IndexKey(c[id]) == key
  }

  datatype SaveError = ValidationFailed(paths: seq<Path>) | DuplicateKey

  /** The database-side insert: a taken `_id` or a taken index key is a duplicate-key error. */
  function InsertDoc(c: Collection, id: ObjectId, d: UserDoc): (r: Result<Collection, SaveError>)
    ensures r.Success? ==> r.value.Keys == c.Keys + {id} && r.value[id] == d
    ensures r.Success? ==> forall k :: k in c ==> r.value[k] == c[k]
  {
    if id in c || KeyTaken(c, IndexKey(d)) then Failure(DuplicateKey)
    else Success(c[id := d])
  }

  /** `save()` of a new document: validation, then the insert. */
  function Save(c: Collection, id: ObjectId, d: UserDoc): (r: Result<Collection, SaveError>)
    ensures r.Success? ==> Validate(d).Success? && id !in c && id in r.value && r.value[id] == d
    ensures r.Success? ==> r.value == c[id := d]
  {
    match Validate(d)
    case Failure(paths) => Failure(ValidationFailed(paths))
    case Success(_) => InsertDoc(c, id, d)
  }

  /** An insert that succeeds keeps the unique index. */
  lemma InsertKeepsUniqueIndex(c: Collection, id: ObjectId, d: UserDoc)
    requires UniqueIndex(c)
    requires InsertDoc(c, id, d).Success?
    ensures UniqueIndex(InsertDoc(c, id, d).value)
  {
    var c' := InsertDoc(c, id, d).value;
    forall a, b | a in c' && b in c' && a != b
      ensures IndexKey(c'[a]) != IndexKey(c'[b])
    {
      if a == id {
        assert !(b in c && IndexKey(c[b]) == IndexKey(d));
      } else if b == id {
        assert !(a in c && IndexKey(c[a]) == IndexKey(d));
      }
    }
  }

  /** `save()` of a new document succeeds exactly when it validates, its `_id` is new and no
      stored document has the same (email, eventId); a second document with a taken pair is rejected. */
  lemma SaveAcceptsExactly(c: Collection, id: ObjectId, d: UserDoc)
    ensures Save(c, id, d).Success? <==>
      Validate(d).Success? && id !in c && forall k :: k in c ==> IndexKey(c[k]) != IndexKey(d)
    ensures (exists k :: k in c && c[k].email == d.email && c[k].eventId == d.eventId) ==>
      Save(c, id, d) == Failure(if Validate(d).Success? then DuplicateKey else ValidationFailed(Validate(d).error))
  {
  }

  /** The index key is the pair, not the e-mail: an address not yet stored can be saved under
      one event and then under another. */
  lemma SameEmailTwoEvents(c: Collection, id: ObjectId, d: UserDoc, id2: ObjectId, event2: ObjectId)
    requires Validate(d).Success? && id !in c && id2 !in c && id2 != id
    requires d.eventId != Some(event2)
    requires forall k :: k in c ==> c[k].email != d.email
    ensures Save(c, id, d).Success?
    ensures Save(Save(c, id, d).value, id2, d.(eventId := Some(event2))).Success?
  {
    var d2 := d.(eventId := Some(event2));
    ValidateAcceptsExactly(d);
    ValidateAcceptsExactly(d2);
    SaveAcceptsExactly(c, id, d);
    SaveAcceptsExactly(Save(c, id, d).value, id2, d2);
  }
}
