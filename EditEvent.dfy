/**
 * The editing logic of frontend/event-registration/src/pages/EditEvent.jsx: the form state
 * (`eventDetails` and the three new-role inputs) with its change, add-role, delete-role and
 * validation handlers, and the conversion of a role's privileges between the list the server
 * stores and the comma-separated string the form edits.
 */
module EditEvent {
  import opened Wrappers
  import opened Text

  /** A role as the form holds it: its privileges as one comma-separated string. */
  datatype FormRole = FormRole(roleName: string, roleDescription: string, privileges: string)

  /** A role as the server stores it. */
  datatype ServerRole = ServerRole(roleName: string, roleDescription: string, privileges: seq<string>)

  /** The `eventDetails` state. */
  datatype EventDetails = EventDetails(
    companyName: string, eventName: string, place: string, time: string, date: string,
    eventRoles: seq<FormRole>)

  /** The `name` attributes of the five text inputs `handleChange` serves. */
  datatype Field = CompanyName | EventName | Place | Time | Date

  function FieldOf(d: EventDetails, f: Field): string {
    match f
    case CompanyName => d.companyName
    case EventName => d.eventName
    case Place => d.place
    case Time => d.time
    case Date => d.date
  }

  const EmptyDetails: EventDetails := EventDetails("", "", "", "", "", [])

  const MissingFieldsError: string := "All fields and at least one role are required."

  /** What `validateForm` accepts: five non-empty fields and at least one role. */
  predicate FormComplete(d: EventDetails) {
    && d.companyName != "" && d.eventName != "" && d.place != "" && d.time != "" && d.date != ""
    && |d.eventRoles| > 0
  }

  // ---------------------------------------------------------------- privileges string <-> list

  /** `privileges.join(', ')`, as the fetched roles are prepared for the form. */
  function JoinPrivileges(ps: seq<string>): string {
    Join(ps, ", ")
  }

  /** A privilege as the parser produces it: trimmed, non-empty and free of commas. */
  predicate CleanPrivilege(p: string) {
    IsTrimmed(p) && p != "" && ',' !in p
  }

  lemma TrimKeepsAbsent(s: string, c: char)
    requires c !in s
    ensures c !in Trim(s)
  {
  }

  /** `.map(p => p.trim()).filter(p => p)`. */
  function CleanEntries(parts: seq<string>): (r: seq<string>)
    requires forall i :: 0 <= i < |parts| ==> ',' !in parts[i]
    ensures |r| <= |parts|
    ensures forall i :: 0 <= i < |r| ==> CleanPrivilege(r[i])
  {
    if parts == [] then []
    else
      var t := Trim(parts[0]);
      TrimKeepsAbsent(parts[0], ',');
      (if t != "" then [t] else []) + CleanEntries(parts[1..])
  }

  /** `privileges.split(',').map(p => p.trim()).filter(p => p)`: the entries are all clean. */
  function ParsePrivileges(s: string): (ps: seq<string>)
    ensures forall i :: 0 <= i < |ps| ==> CleanPrivilege(ps[i])
  {
    CleanEntries(Split(s, ','))
  }

  /** A string of whitespace only parses to no privilege at all. */
  lemma ParseBlank(s: string)
    requires ',' !in s && Trim(s) == ""
    ensures ParsePrivileges(s) == []
  {
    SplitWithoutSeparator(s, ',');
  }

  lemma ParseCons(head: string, tail: string)
    requires ',' !in head
    ensures ParsePrivileges(head + [','] + tail) ==
            (if Trim(head) != "" then [Trim(head)] else []) + ParsePrivileges(tail)
  {
    SplitAtFirst(head, ',', tail);
    var parts := [head] + Split(tail, ',');
    assert parts[1..] == Split(tail, ',');
  }

  /** The blank the joined string may start with after a cut at a comma. */
  function Lead(blank: bool): string {
    if blank then " " else ""
  }

  lemma TrimAfterBlankTrimmed(x: string)
    requires IsTrimmed(x)
    ensures Trim(" " + x) == x
  {
    TrimAfterBlank(x);
    TrimOfTrimmed(x);
  }

  lemma TrimAfterLead(blank: bool, x: string)
    requires IsTrimmed(x)
    ensures Trim(Lead(blank) + x) == x
  {
    if blank {
      TrimAfterBlankTrimmed(x);
    } else {
      assert Lead(blank) + x == x;
      TrimOfTrimmed(x);
    }
  }

  lemma ParseLeadOnly(blank: bool)
    ensures ParsePrivileges(Lead(blank)) == []
  {
    TrimAfterLead(blank, "");
    assert Lead(blank) + "" == Lead(blank);
    ParseBlank(Lead(blank));
  }

  lemma ParseSingle(blank: bool, x: string)
    requires CleanPrivilege(x)
    ensures ParsePrivileges(Lead(blank) + x) == [x]
  {
    TrimAfterLead(blank, x);
    SplitWithoutSeparator(Lead(blank) + x, ',');
  }

  /** Joining two or more privileges puts a comma, then a blank, after the first. */
  lemma JoinAfterFirst(blank: bool, xs: seq<string>)
    requires |xs| >= 2
    ensures Lead(blank) + JoinPrivileges(xs) == (Lead(blank) + xs[0]) + [','] + (Lead(true) + JoinPrivileges(xs[1..]))
  {
  }

  lemma ParseFirstThenRest(blank: bool, xs: seq<string>)
    requires |xs| >= 2 && CleanPrivilege(xs[0])
    requires ParsePrivileges(Lead(true) + JoinPrivileges(xs[1..])) == xs[1..]
    ensures ParsePrivileges(Lead(blank) + JoinPrivileges(xs)) == xs
  {
    JoinAfterFirst(blank, xs);
    TrimAfterLead(blank, xs[0]);
    ParseCons(Lead(blank) + xs[0], Lead(true) + JoinPrivileges(xs[1..]));
    assert [xs[0]] + xs[1..] == xs;
  }

  /** A clean list, joined and parsed, comes back, even after a leading blank. */
  lemma {:induction false} ParseAfterJoin(blank: bool, xs: seq<string>)
    requires forall i :: 0 <= i < |xs| ==> CleanPrivilege(xs[i])
    ensures ParsePrivileges(Lead(blank) + JoinPrivileges(xs)) == xs
    decreases |xs|
  {
    if |xs| == 0 {
      assert Lead(blank) + JoinPrivileges(xs) == Lead(blank);
      ParseLeadOnly(blank);
    } else if |xs| == 1 {
      ParseSingle(blank, xs[0]);
    } else {
      ParseAfterJoin(true, xs[1..]);
      ParseFirstThenRest(blank, xs);
    }
  }

  /** Joining clean privileges with ", " and parsing the string gives back the same list. */
  lemma PrivilegesRoundTrip(xs: seq<string>)
    requires forall i :: 0 <= i < |xs| ==> CleanPrivilege(xs[i])
    ensures ParsePrivileges(JoinPrivileges(xs)) == xs
  {
    ParseAfterJoin(false, xs);
    assert Lead(false) + JoinPrivileges(xs) == JoinPrivileges(xs);
  }

  /** Parsing normalises: parsing the joined result of a parse changes nothing further. */
  lemma ParseIsIdempotent(s: string)
    ensures ParsePrivileges(JoinPrivileges(ParsePrivileges(s))) == ParsePrivileges(s)
  {
    PrivilegesRoundTrip(ParsePrivileges(s));
  }

  // ---------------------------------------------------------------- roles between server and form

  /** A fetched role as `fetchEvent` prepares it: its privileges joined for editing. */
  function ToFormRole(r: ServerRole): FormRole {
    FormRole(r.roleName, r.roleDescription, JoinPrivileges(r.privileges))
  }

  /** The fetched roles in form shape: role i keeps its name and description, and its privileges
      become one string joined by ", ". */
  function ToFormRoles(rs: seq<ServerRole>): (fs: seq<FormRole>)
    ensures |fs| == |rs|
    ensures forall i :: 0 <= i < |rs| ==>
      fs[i] == FormRole(rs[i].roleName, rs[i].roleDescription, JoinPrivileges(rs[i].privileges))
  {
    seq(|rs|, i requires 0 <= i < |rs| => ToFormRole(rs[i]))
  }

  /** One entry of `sanitizedRoles`. */
  function SanitizeRole(r: FormRole): ServerRole {
    ServerRole(Trim(r.roleName), Trim(r.roleDescription), ParsePrivileges(r.privileges))
  }

  /** `sanitizedRoles`. */
  function SanitizeRoles(roles: seq<FormRole>): (rs: seq<ServerRole>)
    ensures |rs| == |roles|
  {
    seq(|roles|, i requires 0 <= i < |roles| => SanitizeRole(roles[i]))
  }

  /** Sanitising keeps the number and order of the roles; role i comes from form role i with its
      name and description trimmed and its privileges parsed into clean entries. */
  lemma SanitizeRolesSpec(roles: seq<FormRole>, i: nat)
    requires i < |roles|
    ensures var r := SanitizeRoles(roles)[i];
      && r.roleName == Trim(roles[i].roleName) && IsTrimmed(r.roleName)
      && r.roleDescription == Trim(roles[i].roleDescription) && IsTrimmed(r.roleDescription)
      && r.privileges == ParsePrivileges(roles[i].privileges)
      && forall j :: 0 <= j < |r.privileges| ==> CleanPrivilege(r.privileges[j])
  {
  }

  /** A stored role in normal form: trimmed name and description, clean privileges. */
  predicate CleanRole(r: ServerRole) {
    IsTrimmed(r.roleName) && IsTrimmed(r.roleDescription)
    && forall j :: 0 <= j < |r.privileges| ==> CleanPrivilege(r.privileges[j])
  }

  /** Loading roles into the form and submitting them unedited sends the same roles back. */
  lemma UneditedRolesRoundTrip(rs: seq<ServerRole>)
    requires forall i :: 0 <= i < |rs| ==> CleanRole(rs[i])
    ensures SanitizeRoles(ToFormRoles(rs)) == rs
  {
    forall i | 0 <= i < |rs| ensures SanitizeRoles(ToFormRoles(rs))[i] == rs[i] {
      TrimOfTrimmed(rs[i].roleName);
      TrimOfTrimmed(rs[i].roleDescription);
      PrivilegesRoundTrip(rs[i].privileges);
    }
  }

  // ---------------------------------------------------------------- deleting a role

  /** `roles.filter((_, i) => i !== index)`, with `from` the index of `roles[0]`. */
  function FilterOutIndex(roles: seq<FormRole>, index: int, from: nat): seq<FormRole>
    decreases |roles|
  {
    if roles == [] then []
    else (if from != index then [roles[0]] else []) + FilterOutIndex(roles[1..], index, from + 1)
  }

  lemma {:induction false} FilterOutIndexMiss(roles: seq<FormRole>, index: int, from: nat)
    requires !(from <= index < from + |roles|)
    ensures FilterOutIndex(roles, index, from) == roles
    decreases |roles|
  {
    if roles != [] {
      FilterOutIndexMiss(roles[1..], index, from + 1);
      assert [roles[0]] + roles[1..] == roles;
    }
  }

  lemma {:induction false} FilterOutIndexHit(roles: seq<FormRole>, index: int, from: nat)
    requires from <= index < from + |roles|
    ensures FilterOutIndex(roles, index, from) == roles[..index - from] + roles[index - from + 1..]
    decreases |roles|
  {
    var k := index - from;
    if k == 0 {
      FilterOutIndexMiss(roles[1..], index, from + 1);
      assert roles[..0] + roles[1..] == roles[1..];
    } else {
      FilterOutIndexHit(roles[1..], index, from + 1);
      assert roles[1..][..k - 1] == roles[1..k];
      assert roles[1..][k..] == roles[k + 1..];
      assert [roles[0]] + roles[1..k] == roles[..k];
    }
  }

  /** Deleting index i removes exactly the role at i and keeps the others in order; an index out
      of range changes nothing. */
  lemma DeleteRemovesExactlyOne(roles: seq<FormRole>, index: int)
    ensures FilterOutIndex(roles, index, 0) ==
            if 0 <= index < |roles| then roles[..index] + roles[index + 1..] else roles
  {
    if 0 <= index < |roles| {
      FilterOutIndexHit(roles, index, 0);
    } else {
      FilterOutIndexMiss(roles, index, 0);
    }
  }

  // ---------------------------------------------------------------- adding a role

  /** The role `handleAddRole` appends: the three inputs trimmed, provided none is then empty
      (otherwise the page shows "All fields for role are required." and adds nothing). */
  function NewRoleFrom(newRole: string, roleDescription: string, privileges: string): (r: Option<FormRole>)
    ensures r.Some? <==> Trim(newRole) != "" && Trim(roleDescription) != "" && Trim(privileges) != ""
    ensures r.Some? ==> r.value == FormRole(Trim(newRole), Trim(roleDescription), Trim(privileges))
  {
    var name := Trim(newRole);
    var description := Trim(roleDescription);
    var privs := Trim(privileges);
    if name != "" && description != "" && privs != "" then Some(FormRole(name, description, privs)) else None
  }

  /** An added role has trimmed, non-empty name and description; sanitising it keeps both and
      turns its privileges into clean entries. */
  lemma AddedRoleIsClean(newRole: string, roleDescription: string, privileges: string)
    requires NewRoleFrom(newRole, roleDescription, privileges).Some?
    ensures var r := NewRoleFrom(newRole, roleDescription, privileges).value;
      && IsTrimmed(r.roleName) && r.roleName != ""
      && IsTrimmed(r.roleDescription) && r.roleDescription != ""
      && SanitizeRole(r).roleName == r.roleName
      && SanitizeRole(r).roleDescription == r.roleDescription
  {
    var r := NewRoleFrom(newRole, roleDescription, privileges).value;
    TrimOfTrimmed(r.roleName);
    TrimOfTrimmed(r.roleDescription);
  }

  // ---------------------------------------------------------------- the form

  /** The component's state and its handlers. */
  class EventEditor {
    var eventDetails: EventDetails
    var newRole: string
    var roleDescription: string
    var privileges: string
    var error: string

    constructor ()
      ensures eventDetails == EmptyDetails
      ensures newRole == "" && roleDescription == "" && privileges == "" && error == ""
    {
      eventDetails := EmptyDetails;
      newRole := "";
      roleDescription := "";
      privileges := "";
      error := "";
    }

    /** `fetchEvent`: the form is filled from the fetched event. */
    method Load(companyName: string, eventName: string, place: string, time: string, date: string,
                eventRoles: seq<ServerRole>)
      modifies this`eventDetails
      ensures eventDetails == EventDetails(companyName, eventName, place, time, date, ToFormRoles(eventRoles))
    {
      eventDetails := EventDetails(companyName, eventName, place, time, date, ToFormRoles(eventRoles));
    }

    /** `handleChange`: the named field takes the value; every other field and the roles stay. */
    method HandleChange(f: Field, value: string)
      modifies this`eventDetails
      ensures FieldOf(eventDetails, f) == value
      ensures forall g :: g != f ==> FieldOf(eventDetails, g) == FieldOf(old(eventDetails), g)
      ensures eventDetails.eventRoles == old(eventDetails.eventRoles)
    {
      match f
      case CompanyName => eventDetails := eventDetails.(companyName := value);
      case EventName => eventDetails := eventDetails.(eventName := value);
      case Place => eventDetails := eventDetails.(place := value);
      case Time => eventDetails := eventDetails.(time := value);
      case Date => eventDetails := eventDetails.(date := value);
    }

    /** `handleAddRole`: with all three trimmed inputs non-empty, appends one role made of them
        and clears the inputs; otherwise (the error toast) nothing changes. */
    method HandleAddRole() returns (added: bool)
      modifies this`eventDetails, this`newRole, this`roleDescription, this`privileges
      ensures var role := NewRoleFrom(old(newRole), old(roleDescription), old(privileges));
        && (added <==> role.Some?)
        && (added ==>
              && eventDetails == old(eventDetails).(eventRoles := old(eventDetails.eventRoles) + [role.value])
              && newRole == "" && roleDescription == "" && privileges == "")
        && (!added ==>
              && eventDetails == old(eventDetails)
              && newRole == old(newRole) && roleDescription == old(roleDescription) && privileges == old(privileges))
    {
      var role := NewRoleFrom(newRole, roleDescription, privileges);
      if role.Some? {
        eventDetails := eventDetails.(eventRoles := eventDetails.eventRoles + [role.value]);
        newRole := "";
        roleDescription := "";
        privileges := "";
        added := true;
      } else {
        added := false;
      }
    }

    /** `handleDeleteRole`. */
    method HandleDeleteRole(index: int)
      modifies this`eventDetails
      ensures eventDetails == old(eventDetails).(eventRoles := FilterOutIndex(old(eventDetails.eventRoles), index, 0))
    {
      eventDetails := eventDetails.(eventRoles := FilterOutIndex(eventDetails.eventRoles, index, 0));
    }

    /** `validateForm`: true exactly when the form is complete, with the error message set or
        cleared to match. */
    method ValidateForm() returns (ok: bool)
      modifies this`error
      ensures ok <==> FormComplete(eventDetails)
      ensures error == if ok then "" else MissingFieldsError
    {
      var d := eventDetails;
      if d.companyName == "" || d.eventName == "" || d.place == "" || d.time == "" || d.date == ""
         || |d.eventRoles| == 0 {
        error := MissingFieldsError;
        return false;
      }
      error := "";
      return true;
    }
  }
}
