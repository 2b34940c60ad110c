/**
 * The roster logic of frontend/event-registration/src/pages/AdminDashboard.jsx: reading the
 * name, e-mail and contact out of free-form registration data, the search and role filter,
 * the per-privilege claimed/total summary and its card colours, the role list of the filter
 * menu, the privileges cell of the exported table, and the Previous/Next pagination.
 *
 * A user row is the stored document (`UserModel.UserDoc`); its `registrationData` is the
 * ordered list of the object's properties, in `Object.keys` order.
 */
module AdminDashboard {
  import opened Wrappers
  import opened Text
  import opened UserModel

  // ---------------------------------------------------------------- reading registration data

  /** `Object.keys(fields).find(p)`, as the index of the entry found. */
  function FirstKey(fields: Fields, p: string -> bool): (r: Option<nat>)
    ensures r.Some? ==> r.value < |fields| && p(fields[r.value].key)
    ensures r.Some? ==> forall j :: 0 <= j < r.value ==> !p(fields[j].key)
    ensures r.None? ==> forall j :: 0 <= j < |fields| ==> !p(fields[j].key)
  {
    if fields == [] then None
    else if p(fields[0].key) then Some(0)
    else
      match FirstKey(fields[1..], p)
      case None => None
      case Some(i) => Some(i + 1)
  }

  /** `fields[key]`: the value under that key, if any. */
  function Lookup(fields: Fields, key: string): Option<string> {
    match FirstKey(fields, k => k == key)
    case None => None
    case Some(i) => Some(fields[i].value)
  }

  /** The lower-cased key includes one of the needles. */
  predicate KeyMentions(key: string, needles: seq<string>) {
    exists n :: n in needles && Contains(ToLower(key), n)
  }

  /** The value of the first key that mentions a needle, or "" when none does; missing
      registration data reads as `{}`. */
  function FieldValue(data: Option<Fields>, needles: seq<string>): string {
    var fields := data.GetOr([]);
    match FirstKey(fields, k => KeyMentions(k, needles))
    case None => ""
    case Some(i) => fields[i].value
  }

  const NameNeedles: seq<string> := ["name"]
  const EmailNeedles: seq<string> := ["mail"]
  const ContactNeedles: seq<string> := ["contact", "mobile", "phone", "number"]

  /** `extractNameAndEmail`. */
  function ExtractNameAndEmail(data: Option<Fields>): (string, string) {
    (FieldValue(data, NameNeedles), FieldValue(data, EmailNeedles))
  }

  /** `extractContact`. */
  function ExtractContact(data: Option<Fields>): string {
    FieldValue(data, ContactNeedles)
  }

  /** The extracted value is the value of the first key whose lower-case form includes a needle. */
  lemma FieldValueIsFirstMatch(fields: Fields, needles: seq<string>, i: nat)
    requires i < |fields| && KeyMentions(fields[i].key, needles)
    requires forall j :: 0 <= j < i ==> !KeyMentions(fields[j].key, needles)
    ensures FieldValue(Some(fields), needles) == fields[i].value
  {
    assert (k => KeyMentions(k, needles))(fields[i].key);
  }

  /** With no matching key (or no registration data) the extracted value is "". */
  lemma FieldValueWithoutMatch(data: Option<Fields>, needles: seq<string>)
    requires data.Some? ==> forall j :: 0 <= j < |data.value| ==> !KeyMentions(data.value[j].key, needles)
    ensures FieldValue(data, needles) == ""
  {
    var fields := data.GetOr([]);
    assert forall j :: 0 <= j < |fields| ==> !(k => KeyMentions(k, needles))(fields[j].key);
  }

  /** The contact is the value of the first key mentioning contact, mobile, phone or number. */
  lemma ContactIsFirstMatchingKey(fields: Fields, i: nat)
    requires i < |fields|
    requires var k := ToLower(fields[i].key);
             Contains(k, "contact") || Contains(k, "mobile") || Contains(k, "phone") || Contains(k, "number")
    requires forall j :: 0 <= j < i ==> !KeyMentions(fields[j].key, ContactNeedles)
    ensures ExtractContact(Some(fields)) == fields[i].value
  {
    var k := ToLower(fields[i].key);
    if Contains(k, "contact") { assert ContactNeedles[0] == "contact"; }
    else if Contains(k, "mobile") { assert ContactNeedles[1] == "mobile"; }
    else if Contains(k, "phone") { assert ContactNeedles[2] == "phone"; }
    else { assert ContactNeedles[3] == "number"; }
    FieldValueIsFirstMatch(fields, ContactNeedles, i);
  }

  // ---------------------------------------------------------------- search and role filter

  /** The role the filter compares: the `role` property of the registration data, if any. */
  function RoleValue(u: UserDoc): Option<string> {
    match u.registrationData
    case None => None
    case Some(fields) => Lookup(fields, "role")
  }

  /** `user.registrationData?.role || ""`. */
  function RoleOf(u: UserDoc): string {
    RoleValue(u).GetOr("")
  }

  predicate MatchesSearch(u: UserDoc, searchTerm: string) {
    var (name, email) := ExtractNameAndEmail(u.registrationData);
    Contains(ToLower(name), ToLower(searchTerm)) || Contains(ToLower(email), ToLower(searchTerm))
  }

  predicate MatchesRole(u: UserDoc, roleFilter: string) {
    roleFilter == "All" || RoleOf(u) == roleFilter
  }

  predicate Shown(u: UserDoc, searchTerm: string, roleFilter: string) {
    MatchesSearch(u, searchTerm) && MatchesRole(u, roleFilter)
  }

  /** `getFilteredUsers`. */
  function FilterUsers(users: seq<UserDoc>, searchTerm: string, roleFilter: string): (r: seq<UserDoc>)
    ensures |r| <= |users|
  {
    if users == [] then []
    else (if Shown(users[0], searchTerm, roleFilter) then [users[0]] else []) + FilterUsers(users[1..], searchTerm, roleFilter)
  }

  /** `a` is `b` with some elements left out, in the same order. */
  predicate IsSubsequence(a: seq<UserDoc>, b: seq<UserDoc>)
    decreases |b|
  {
    a == [] || (b != [] && ((a[0] == b[0] && IsSubsequence(a[1..], b[1..])) || IsSubsequence(a, b[1..])))
  }

  /** The filter keeps users in their order: the result is a subsequence of the list. */
  lemma {:induction false} FilterIsSubsequence(users: seq<UserDoc>, searchTerm: string, roleFilter: string)
    ensures IsSubsequence(FilterUsers(users, searchTerm, roleFilter), users)
    decreases |users|
  {
    if users != [] {
      var rest := FilterUsers(users[1..], searchTerm, roleFilter);
      FilterIsSubsequence(users[1..], searchTerm, roleFilter);
      var r := FilterUsers(users, searchTerm, roleFilter);
      if Shown(users[0], searchTerm, roleFilter) {
        assert r == [users[0]] + rest;
        assert r[1..] == rest;
      } else {
        assert r == rest;
      }
    }
  }

  /** Each user is kept as often as it occurs when it matches the search and the role, and
      never otherwise. */
  lemma {:induction false} FilterKeepsExactlyShown(users: seq<UserDoc>, searchTerm: string, roleFilter: string, u: UserDoc)
    ensures multiset(FilterUsers(users, searchTerm, roleFilter))[u] ==
            if Shown(u, searchTerm, roleFilter) then multiset(users)[u] else 0
    decreases |users|
  {
    if users != [] {
      FilterKeepsExactlyShown(users[1..], searchTerm, roleFilter, u);
      assert users == [users[0]] + users[1..];
      assert multiset(users) == multiset([users[0]]) + multiset(users[1..]);
    }
  }

  /** An empty search with the role filter at "All" shows every user. */
  lemma {:induction false} EmptySearchShowsAll(users: seq<UserDoc>)
    ensures FilterUsers(users, "", "All") == users
    decreases |users|
  {
    if users != [] {
      var (name, _) := ExtractNameAndEmail(users[0].registrationData);
      ContainsEmpty(ToLower(name));
      assert ToLower("") == "";
      assert Shown(users[0], "", "All");
      EmptySearchShowsAll(users[1..]);
      assert [users[0]] + users[1..] == users;
    }
  }

  // ---------------------------------------------------------------- the privilege summary

  datatype Tally = Tally(claimed: nat, total: nat)

  /** The summary object: its keys in insertion order and the tally under each. */
  datatype Summary = Summary(keys: seq<string>, tally: map<string, Tally>)

  /** `priv.name?.toUpperCase()`, with "" standing for both `undefined` and the empty name. */
  function PrivilegeKey(p: PrivilegeDoc): string {
    match p.name
    case None => ""
    case Some(n) => ToUpper(n)
  }

  /** A privilege counts exactly when it has a non-empty name. */
  lemma PrivilegeKeyCounts(p: PrivilegeDoc)
    ensures PrivilegeKey(p) != "" <==> Present(p.name)
  {
    if p.name.Some? { assert |ToUpper(p.name.value)| == |p.name.value|; }
  }

  /** The body of the inner `forEach`: skip an unnamed privilege, otherwise count it (and its
      claim) under its upper-cased name, creating the entry on first sight. */
  function AddPrivilege(s: Summary, p: PrivilegeDoc): Summary {
    var name := PrivilegeKey(p);
    if name == "" then s
    else
      var keys := if name in s.tally then s.keys else s.keys + [name];
      var was := if name in s.tally then s.tally[name] else Tally(0, 0);
      Summary(keys, s.tally[name := Tally(was.claimed + (if p.claim then 1 else 0), was.total + 1)])
  }

  function AddPrivileges(s: Summary, ps: seq<PrivilegeDoc>): Summary
    decreases |ps|
  {
    if ps == [] then s else AddPrivilege(AddPrivileges(s, ps[..|ps| - 1]), ps[|ps| - 1])
  }

  /** `getPrivilegeSummary` as a fold over the users and their privileges. */
  function SummaryOf(users: seq<UserDoc>): Summary
    decreases |users|
  {
    if users == [] then Summary([], map[])
    else AddPrivileges(SummaryOf(users[..|users| - 1]), users[|users| - 1].privileges)
  }

  /** The inner `forEach` of `getPrivilegeSummary`: counts one user's privileges into the
      dictionary. */
  method CountPrivileges(summary0: Summary, privs: seq<PrivilegeDoc>) returns (summary: Summary)
    ensures summary == AddPrivileges(summary0, privs)
  {
    summary := summary0;
    var j := 0;
    while j < |privs|
      invariant 0 <= j <= |privs|
      invariant summary == AddPrivileges(summary0, privs[..j])
    {
      var priv := privs[j];
      ghost var prev := summary;
      var name := PrivilegeKey(priv);
      if name != "" {
        if name !in summary.tally {
          summary := Summary(summary.keys + [name], summary.tally[name := Tally(0, 0)]);
        }
        var entry := summary.tally[name];
        entry := entry.(total := entry.total + 1);
        if priv.claim {
          entry := entry.(claimed := entry.claimed + 1);
        }
        summary := summary.(tally := summary.tally[name := entry]);
      }
      assert summary == AddPrivilege(prev, priv);
      assert privs[..j + 1][..j] == privs[..j];
      j := j + 1;
    }
    assert privs[..j] == privs;
  }

  /** `getPrivilegeSummary`: one dictionary, updated user by user. */
  method GetPrivilegeSummary(users: seq<UserDoc>) returns (summary: Summary)
    ensures summary == SummaryOf(users)
  {
    summary := Summary([], map[]);
    var i := 0;
    while i < |users|
      invariant 0 <= i <= |users|
      invariant summary == SummaryOf(users[..i])
    {
      summary := CountPrivileges(summary, users[i].privileges);
      assert users[..i + 1][..i] == users[..i];
      i := i + 1;
    }
    assert users[..i] == users;
  }

  // Reference counts, stated directly on the users.

  function KeyTotalIn(ps: seq<PrivilegeDoc>, k: string): nat
    decreases |ps|
  {
    if ps == [] then 0
    else KeyTotalIn(ps[..|ps| - 1], k) + (if k != "" && PrivilegeKey(ps[|ps| - 1]) == k then 1 else 0)
  }

  function KeyClaimedIn(ps: seq<PrivilegeDoc>, k: string): nat
    decreases |ps|
  {
    if ps == [] then 0
    else KeyClaimedIn(ps[..|ps| - 1], k) + (if k != "" && PrivilegeKey(ps[|ps| - 1]) == k && ps[|ps| - 1].claim then 1 else 0)
  }

  function NamedIn(ps: seq<PrivilegeDoc>): nat
    decreases |ps|
  {
    if ps == [] then 0 else NamedIn(ps[..|ps| - 1]) + (if PrivilegeKey(ps[|ps| - 1]) != "" then 1 else 0)
  }

  /** How many privileges of all users have upper-cased name `k` (`k` non-empty). */
  function KeyTotal(users: seq<UserDoc>, k: string): nat
    decreases |users|
  {
    if users == [] then 0 else KeyTotal(users[..|users| - 1], k) + KeyTotalIn(users[|users| - 1].privileges, k)
  }

  /** How many of those are claimed. */
  function KeyClaimed(users: seq<UserDoc>, k: string): nat
    decreases |users|
  {
    if users == [] then 0 else KeyClaimed(users[..|users| - 1], k) + KeyClaimedIn(users[|users| - 1].privileges, k)
  }

  /** How many privileges of all users have a name. */
  function NamedCount(users: seq<UserDoc>): nat
    decreases |users|
  {
    if users == [] then 0 else NamedCount(users[..|users| - 1]) + NamedIn(users[|users| - 1].privileges)
  }

  function TotalOf(s: Summary, k: string): nat {
    if k in s.tally then s.tally[k].total else 0
  }

  function ClaimedOf(s: Summary, k: string): nat {
    if k in s.tally then s.tally[k].claimed else 0
  }

  /** The summary's shape: distinct keys listing exactly the entries, none empty, each counted at
      least once and claimed at most as often as counted. */
  ghost predicate WellFormed(s: Summary) {
    && (forall i, j :: 0 <= i < j < |s.keys| ==> s.keys[i] != s.keys[j])
    && (forall k :: k in s.tally <==> k in s.keys)
    && (forall k :: k in s.tally ==> k != "" && 1 <= s.tally[k].total && s.tally[k].claimed <= s.tally[k].total)
  }

  /** The totals summed in key order. */
  function SumTotals(keys: seq<string>, tally: map<string, Tally>): nat
    requires forall k :: k in keys ==> k in tally
    decreases |keys|
  {
    if keys == [] then 0 else SumTotals(keys[..|keys| - 1], tally) + tally[keys[|keys| - 1]].total
  }

  lemma {:induction false} SumTotalsIgnoresOthers(keys: seq<string>, tally: map<string, Tally>, k: string, t: Tally)
    requires forall x :: x in keys ==> x in tally
    requires k !in keys
    ensures SumTotals(keys, tally[k := t]) == SumTotals(keys, tally)
    decreases |keys|
  {
    if keys != [] {
      SumTotalsIgnoresOthers(keys[..|keys| - 1], tally, k, t);
    }
  }

  lemma {:induction false} SumTotalsIncrement(keys: seq<string>, tally: map<string, Tally>, k: string, t: Tally)
    requires forall x :: x in keys ==> x in tally
    requires forall i, j :: 0 <= i < j < |keys| ==> keys[i] != keys[j]
    requires k in keys && t.total == tally[k].total + 1
    ensures SumTotals(keys, tally[k := t]) == SumTotals(keys, tally) + 1
    decreases |keys|
  {
    var init := keys[..|keys| - 1];
    if keys[|keys| - 1] == k {
      assert k !in init;
      SumTotalsIgnoresOthers(init, tally, k, t);
    } else {
      assert k in init by {
        var i :| 0 <= i < |keys| && keys[i] == k;
        assert init[i] == k;
      }
      SumTotalsIncrement(init, tally, k, t);
    }
  }

  /** One step of the loop keeps the summary's shape. */
  lemma AddPrivilegeWellFormed(s: Summary, p: PrivilegeDoc)
    requires WellFormed(s)
    ensures WellFormed(AddPrivilege(s, p))
  {
    var name := PrivilegeKey(p);
    if name != "" && name !in s.tally {
      var keys' := s.keys + [name];
      forall i, j | 0 <= i < j < |keys'| ensures keys'[i] != keys'[j] {
        if j == |keys'| - 1 {
          assert keys'[i] == s.keys[i];
          assert s.keys[i] in s.tally;
        }
      }
    }
  }

  /** One step counts the privilege under its own key, and under no other. */
  lemma AddPrivilegeCounts(s: Summary, p: PrivilegeDoc, k: string)
    ensures TotalOf(AddPrivilege(s, p), k) == TotalOf(s, k) + (if k != "" && PrivilegeKey(p) == k then 1 else 0)
    ensures ClaimedOf(AddPrivilege(s, p), k) == ClaimedOf(s, k) + (if k != "" && PrivilegeKey(p) == k && p.claim then 1 else 0)
  {
  }

  /** One step grows the sum of totals by one exactly when the privilege has a name. */
  lemma AddPrivilegeSum(s: Summary, p: PrivilegeDoc)
    requires WellFormed(s)
    ensures var s' := AddPrivilege(s, p);
      SumTotals(s'.keys, s'.tally) == SumTotals(s.keys, s.tally) + (if PrivilegeKey(p) != "" then 1 else 0)
  {
    var name := PrivilegeKey(p);
    if name != "" {
      var s' := AddPrivilege(s, p);
      var t := s'.tally[name];
      if name in s.tally {
        SumTotalsIncrement(s.keys, s.tally, name, t);
      } else {
        SumTotalsIgnoresOthers(s.keys, s.tally, name, t);
        assert s'.keys[..|s'.keys| - 1] == s.keys;
      }
    }
  }

  lemma {:induction false} AddPrivilegesWellFormed(s: Summary, ps: seq<PrivilegeDoc>)
    requires WellFormed(s)
    ensures WellFormed(AddPrivileges(s, ps))
    decreases |ps|
  {
    if ps != [] {
      AddPrivilegesWellFormed(s, ps[..|ps| - 1]);
      AddPrivilegeWellFormed(AddPrivileges(s, ps[..|ps| - 1]), ps[|ps| - 1]);
    }
  }

  lemma {:induction false} AddPrivilegesCounts(s: Summary, ps: seq<PrivilegeDoc>, k: string)
    ensures TotalOf(AddPrivileges(s, ps), k) == TotalOf(s, k) + KeyTotalIn(ps, k)
    ensures ClaimedOf(AddPrivileges(s, ps), k) == ClaimedOf(s, k) + KeyClaimedIn(ps, k)
    decreases |ps|
  {
    if ps != [] {
      AddPrivilegesCounts(s, ps[..|ps| - 1], k);
      AddPrivilegeCounts(AddPrivileges(s, ps[..|ps| - 1]), ps[|ps| - 1], k);
    }
  }

  lemma {:induction false} AddPrivilegesSum(s: Summary, ps: seq<PrivilegeDoc>)
    requires WellFormed(s)
    ensures WellFormed(AddPrivileges(s, ps))
    ensures var s' := AddPrivileges(s, ps);
      SumTotals(s'.keys, s'.tally) == SumTotals(s.keys, s.tally) + NamedIn(ps)
    decreases |ps|
  {
    AddPrivilegesWellFormed(s, ps);
    if ps != [] {
      AddPrivilegesSum(s, ps[..|ps| - 1]);
      AddPrivilegesWellFormed(s, ps[..|ps| - 1]);
      AddPrivilegeSum(AddPrivileges(s, ps[..|ps| - 1]), ps[|ps| - 1]);
    }
  }

  lemma {:induction false} SummaryWellFormed(users: seq<UserDoc>)
    ensures WellFormed(SummaryOf(users))
    decreases |users|
  {
    if users != [] {
      SummaryWellFormed(users[..|users| - 1]);
      AddPrivilegesWellFormed(SummaryOf(users[..|users| - 1]), users[|users| - 1].privileges);
    }
  }

  lemma {:induction false} SummaryCountsAt(users: seq<UserDoc>, k: string)
    ensures TotalOf(SummaryOf(users), k) == KeyTotal(users, k)
    ensures ClaimedOf(SummaryOf(users), k) == KeyClaimed(users, k)
    decreases |users|
  {
    if users != [] {
      SummaryCountsAt(users[..|users| - 1], k);
      AddPrivilegesCounts(SummaryOf(users[..|users| - 1]), users[|users| - 1].privileges, k);
    }
  }

  lemma {:induction false} SummarySum(users: seq<UserDoc>)
    ensures WellFormed(SummaryOf(users))
    ensures var s := SummaryOf(users); SumTotals(s.keys, s.tally) == NamedCount(users)
    decreases |users|
  {
    SummaryWellFormed(users);
    if users != [] {
      SummarySum(users[..|users| - 1]);
      SummaryWellFormed(users[..|users| - 1]);
      AddPrivilegesSum(SummaryOf(users[..|users| - 1]), users[|users| - 1].privileges);
    }
  }

  /** The summary is exact: its keys are the upper-cased names that occur (unnamed privileges are
      skipped), each entry holds the number of such privileges and how many of them are claimed,
      so every total is at least 1 and no claimed count exceeds its total; the keys are distinct,
      and the totals add up to the number of named privileges. */
  lemma SummaryCounts(users: seq<UserDoc>)
    ensures var s := SummaryOf(users);
      && WellFormed(s)
      && (forall k :: k in s.tally <==> KeyTotal(users, k) > 0)
      && (forall k :: k in s.tally ==> s.tally[k] == Tally(KeyClaimed(users, k), KeyTotal(users, k)))
      && SumTotals(s.keys, s.tally) == NamedCount(users)
  {
    SummaryWellFormed(users);
    SummarySum(users);
    forall k {
      SummaryCountsAt(users, k);
    }
  }

  // ---------------------------------------------------------------- summary card colours

  /** The colour the page picks for a privilege card. */
  function CardColor(t: Tally): string {
    if t.claimed == t.total then "green" else if t.claimed > 0 then "yellow" else "red"
  }

  const CardColors: map<string, string> := map[
    "blue" := "bg-blue-500", "green" := "bg-green-500", "yellow" := "bg-yellow-500",
    "red" := "bg-red-500", "gray" := "bg-gray-500"]

  /** `colors[color] || "bg-gray-500"`. */
  function ColorClass(color: string): string {
    if color in CardColors then CardColors[color] else "bg-gray-500"
  }

  /** The properties every plain object inherits from `Object.prototype`; looking one of them up
      in `colors` finds the inherited member, not `undefined`. */
  const ObjectPrototypeKeys: set<string> := {
    "constructor", "__proto__", "hasOwnProperty", "isPrototypeOf", "propertyIsEnumerable",
    "toLocaleString", "toString", "valueOf",
    "__defineGetter__", "__defineSetter__", "__lookupGetter__", "__lookupSetter__"}

  /** For every summary entry: green exactly when all are claimed, yellow exactly when some but
      not all are, red exactly when none is; a colour key that is neither one of the five nor an
      inherited property falls back to grey. */
  lemma SummaryCardColors(users: seq<UserDoc>, k: string, unknown: string)
    requires k in SummaryOf(users).tally
    requires unknown !in {"blue", "green", "yellow", "red", "gray"}
    requires unknown !in ObjectPrototypeKeys
    ensures var t := SummaryOf(users).tally[k];
      && (ColorClass(CardColor(t)) == "bg-green-500" <==> t.claimed == t.total)
      && (ColorClass(CardColor(t)) == "bg-yellow-500" <==> 0 < t.claimed < t.total)
      && (ColorClass(CardColor(t)) == "bg-red-500" <==> t.claimed == 0 < t.total)
      && ColorClass(unknown) == "bg-gray-500"
  {
    SummaryCounts(users);
  }

  // ---------------------------------------------------------------- roles for the filter menu

  /** `users.map(u => u.registrationData?.role).filter(Boolean)`. */
  function RolesPresent(users: seq<UserDoc>): (roles: seq<string>)
    ensures forall r :: r in roles <==> r != "" && exists u :: u in users && RoleValue(u) == Some(r)
    ensures |roles| <= |users|
    decreases |users|
  {
    if users == [] then []
    else
      var rest := RolesPresent(users[1..]);
      assert forall u :: u in users <==> u == users[0] || u in users[1..];
      PresentRole(users[0]) + rest
  }

  /** What one user contributes to `RolesPresent`: its role when that is set and non-empty. */
  function PresentRole(u: UserDoc): seq<string> {
    if RoleValue(u).Some? && RoleValue(u).value != "" then [RoleValue(u).value] else []
  }

  /** The roles come in user order: a user added at the end adds its role at the end. */
  lemma {:induction false} RolesPresentAppend(users: seq<UserDoc>, u: UserDoc)
    ensures RolesPresent(users + [u]) == RolesPresent(users) + PresentRole(u)
    decreases |users|
  {
    if users == [] {
      assert RolesPresent([u]) == PresentRole(u) + RolesPresent([]);
    } else {
      assert (users + [u])[1..] == users[1..] + [u];
      RolesPresentAppend(users[1..], u);
    }
  }

  /** `[...new Set(xs)]`: each value once, at its first occurrence. */
  function Dedup(xs: seq<string>): (r: seq<string>)
    ensures forall x :: x in r <==> x in xs
    ensures forall i, j :: 0 <= i < j < |r| ==> r[i] != r[j]
    decreases |xs|
  {
    if xs == [] then []
    else
      var d := Dedup(xs[..|xs| - 1]);
      var x := xs[|xs| - 1];
      assert forall y :: y in xs <==> y in xs[..|xs| - 1] || y == x by {
        assert xs == xs[..|xs| - 1] + [x];
      }
      if x in d then d else d + [x]
  }

  /** Index of the first occurrence of `x`. */
  function FirstIndex(xs: seq<string>, x: string): (i: nat)
    requires x in xs
    ensures i < |xs| && xs[i] == x && x !in xs[..i]
  {
    if xs[0] == x then 0 else 1 + FirstIndex(xs[1..], x)
  }

  lemma FirstIndexOfPrefix(xs: seq<string>, n: nat, x: string)
    requires n <= |xs| && x in xs[..n]
    ensures FirstIndex(xs, x) == FirstIndex(xs[..n], x)
  {
    var i := FirstIndex(xs, x);
    var j := FirstIndex(xs[..n], x);
  }

  /** The de-duplicated list keeps the order of first occurrence. */
  lemma {:induction false} DedupKeepsFirstOccurrenceOrder(xs: seq<string>)
    ensures forall i, j :: 0 <= i < j < |Dedup(xs)| ==> FirstIndex(xs, Dedup(xs)[i]) < FirstIndex(xs, Dedup(xs)[j])
    decreases |xs|
  {
    if xs != [] {
      var init := xs[..|xs| - 1];
      var x := xs[|xs| - 1];
      var d := Dedup(init);
      DedupKeepsFirstOccurrenceOrder(init);
      var r := Dedup(xs);
      assert xs[..|init|] == init;
      assert r == d || (x !in d && r == d + [x]);
      forall i, j | 0 <= i < j < |r| ensures FirstIndex(xs, r[i]) < FirstIndex(xs, r[j]) {
        assert i < |d| && r[i] == d[i] && d[i] in init;
        FirstIndexOfPrefix(xs, |init|, r[i]);
        assert FirstIndex(xs, r[i]) == FirstIndex(init, d[i]);
        if j < |d| {
          assert r[j] == d[j] && d[j] in init;
          FirstIndexOfPrefix(xs, |init|, r[j]);
          assert FirstIndex(xs, r[j]) == FirstIndex(init, d[j]);
          assert FirstIndex(init, d[i]) < FirstIndex(init, d[j]);
        } else {
          assert r[j] == x && x !in init;
          assert FirstIndex(xs, x) == |init|;
        }
      }
    }
  }

  /** `uniqueRoles`. */
  function UniqueRoles(users: seq<UserDoc>): seq<string> {
    Dedup(RolesPresent(users))
  }

  /** The role menu lists every non-empty role present, nothing else, each once, and in the order
      the roles first appear among the users. */
  lemma UniqueRolesSpec(users: seq<UserDoc>)
    ensures var r := UniqueRoles(users);
      && (forall x :: x in r <==> x != "" && exists u :: u in users && RoleValue(u) == Some(x))
      && (forall i, j :: 0 <= i < j < |r| ==> r[i] != r[j])
      && (forall i, j :: 0 <= i < j < |r| ==>
            FirstIndex(RolesPresent(users), r[i]) < FirstIndex(RolesPresent(users), r[j]))
  {
    var present := RolesPresent(users);
    DedupKeepsFirstOccurrenceOrder(present);
    assert forall x :: x in Dedup(present) <==> x in present;
  }

  // ---------------------------------------------------------------- privileges cell of the export

  /** `${p.name?.toUpperCase()} (${p.claim ? "Claimed" : "Not Claimed"})`; a missing name prints
      as "undefined". */
  function PrivilegeEntry(p: PrivilegeDoc): string {
    (match p.name case None => "undefined" case Some(n) => ToUpper(n))
    + " (" + (if p.claim then "Claimed" else "Not Claimed") + ")"
  }

  const NoPrivileges: string := "No privileges assigned"

  /** The privileges column of `downloadPDF`. */
  function PrivilegesCell(ps: seq<PrivilegeDoc>): string {
    if |ps| > 0 then Join(seq(|ps|, i requires 0 <= i < |ps| => PrivilegeEntry(ps[i])), ", ")
    else NoPrivileges
  }

  lemma {:induction false} JoinEndsWith(parts: seq<string>, sep: string, c: char)
    requires |parts| > 0
    requires forall i :: 0 <= i < |parts| ==> |parts[i]| > 0 && parts[i][|parts[i]| - 1] == c
    ensures var j := Join(parts, sep); |j| > 0 && j[|j| - 1] == c
    decreases |parts|
  {
    if |parts| > 1 {
      JoinEndsWith(parts[1..], sep, c);
    }
  }

  /** The cell says "No privileges assigned" exactly when the list is empty; one privilege gives
      its entry alone. */
  lemma PrivilegesCellSpec(ps: seq<PrivilegeDoc>)
    ensures PrivilegesCell(ps) == NoPrivileges <==> ps == []
    ensures |ps| == 1 ==> PrivilegesCell(ps) == PrivilegeEntry(ps[0])
  {
    if ps != [] {
      var entries := seq(|ps|, i requires 0 <= i < |ps| => PrivilegeEntry(ps[i]));
      JoinEndsWith(entries, ", ", ')');
      assert NoPrivileges[|NoPrivileges| - 1] == 'd';
    }
  }

  /** One more privilege adds ", " and its entry at the end of the cell: the entries appear in
      list order. */
  lemma PrivilegesCellAppend(ps: seq<PrivilegeDoc>, p: PrivilegeDoc)
    requires ps != []
    ensures PrivilegesCell(ps + [p]) == PrivilegesCell(ps) + ", " + PrivilegeEntry(p)
  {
    var entries := seq(|ps|, i requires 0 <= i < |ps| => PrivilegeEntry(ps[i]));
    var qs := ps + [p];
    assert seq(|qs|, i requires 0 <= i < |qs| => PrivilegeEntry(qs[i])) == entries + [PrivilegeEntry(p)];
    JoinAppend(entries, ", ", PrivilegeEntry(p));
  }

  // ---------------------------------------------------------------- pagination

  datatype Button = Previous | Next

  predicate PreviousDisabled(currentPage: int) {
    currentPage == 1
  }

  predicate NextDisabled(currentPage: int, totalPages: int) {
    currentPage == totalPages
  }

  /** The page after a click; a disabled button does nothing. */
  function AfterClick(currentPage: int, totalPages: int, b: Button): int {
    match b
    case Previous => if PreviousDisabled(currentPage) then currentPage else currentPage - 1
    case Next => if NextDisabled(currentPage, totalPages) then currentPage else currentPage + 1
  }

  function AfterClicks(currentPage: int, totalPages: int, clicks: seq<Button>): int
    decreases |clicks|
  {
    if clicks == [] then currentPage
    else AfterClicks(AfterClick(currentPage, totalPages, clicks[0]), totalPages, clicks[1..])
  }

  /** From a page in range, any sequence of clicks on the two buttons stays in [1, totalPages]. */
  lemma {:induction false} ClicksStayInRange(currentPage: int, totalPages: int, clicks: seq<Button>)
    requires 1 <= currentPage <= totalPages
    ensures 1 <= AfterClicks(currentPage, totalPages, clicks) <= totalPages
    decreases |clicks|
  {
    if clicks != [] {
      ClicksStayInRange(AfterClick(currentPage, totalPages, clicks[0]), totalPages, clicks[1..]);
    }
  }

  function Repeat(b: Button, n: nat): (r: seq<Button>)
    ensures |r| == n
  {
    seq(n, _ => b)
  }

  /** Clicking Next until it is disabled reaches the last page; every page is reachable. */
  lemma {:induction false} NextReachesLastPage(currentPage: int, totalPages: int)
    requires 1 <= currentPage <= totalPages
    ensures AfterClicks(currentPage, totalPages, Repeat(Next, totalPages - currentPage)) == totalPages
    decreases totalPages - currentPage
  {
    if currentPage < totalPages {
      NextReachesLastPage(currentPage + 1, totalPages);
      assert Repeat(Next, totalPages - currentPage)[1..] == Repeat(Next, totalPages - currentPage - 1);
    }
  }

  /** Once a fetch has lowered the page count below the current page, Next stays enabled, since
      its guard is equality with the last page: every further click moves one page further out. */
  lemma {:induction false} NextPastLastPage(currentPage: int, totalPages: int, n: nat)
    requires totalPages < currentPage
    ensures !NextDisabled(currentPage, totalPages)
    ensures AfterClicks(currentPage, totalPages, Repeat(Next, n)) == currentPage + n
    decreases n
  {
    if n > 0 {
      assert Repeat(Next, n)[1..] == Repeat(Next, n - 1);
      NextPastLastPage(currentPage + 1, totalPages, n - 1);
    }
  }

  /** The page state: `currentPage` with its setter, `totalPages` as loaded. */
  class Pagination {
    var currentPage: int
    var totalPages: int

    ghost predicate Valid()
      reads this
    {
      1 <= currentPage <= totalPages
    }

    constructor (totalPages: nat)
      requires totalPages >= 1
      ensures Valid() && currentPage == 1 && this.totalPages == totalPages
    {
      currentPage := 1;
      this.totalPages := totalPages;
    }

    /** `handlePagination`: the raw setter. */
    method HandlePagination(page: int)
      modifies this`currentPage
      ensures currentPage == page
    {
      currentPage := page;
    }

    /** `setTotalPages(response.data.totalPages || 1)` after a fetch: a missing or zero count
        gives 1. The current page is left as it is, so it may now lie past the last page. */
    method LoadTotalPages(fetched: Option<int>)
      modifies this`totalPages
      ensures totalPages == if fetched.None? || fetched.value == 0 then 1 else fetched.value
      ensures currentPage == old(currentPage)
    {
      totalPages := if fetched.None? || fetched.value == 0 then 1 else fetched.value;
    }

    /** A click on Previous; nothing happens while it is disabled. */
    method ClickPrevious()
      modifies this`currentPage
      ensures old(Valid()) ==> Valid()
      ensures currentPage == AfterClick(old(currentPage), totalPages, Previous)
    {
      if !PreviousDisabled(currentPage) {
        HandlePagination(currentPage - 1);
      }
    }

    /** A click on Next; nothing happens while it is disabled. */
    method ClickNext()
      modifies this`currentPage
      ensures old(Valid()) ==> Valid()
      ensures currentPage == AfterClick(old(currentPage), totalPages, Next)
    {
      if !NextDisabled(currentPage, totalPages) {
        HandlePagination(currentPage + 1);
      }
    }
  }
}
