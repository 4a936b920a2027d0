/** The scan document of models/scan.js: the status enumeration and its
    default, the `scannedBy` label and its default, the history entries, and
    the pre-save hook that derives the label. */
module ScanSchema {
  import opened Base
  import opened Text

  /** The `status` enumeration (models/scan.js:25-30). */
  datatype Status = Available | Sold | InTransit

  const DefaultStatus: Status := Available

  function StatusName(s: Status): string {
    match s
    case Available => "available"
    case Sold => "sold"
    case InTransit => "in-transit"
  }

  /** The enum check Mongoose applies to a supplied status string. */
  function ParseStatus(name: string): (r: Option<Status>)
    ensures r.Some? <==> name in {"available", "sold", "in-transit"}
    ensures r.Some? ==> StatusName(r.value) == name
  {
    if name == "available" then Some(Available)
    else if name == "sold" then Some(Sold)
    else if name == "in-transit" then Some(InTransit)
    else None
  }

  lemma StatusNameRoundTrip(s: Status)
    ensures ParseStatus(StatusName(s)) == Some(s)
  {
  }

  /** One element of the `history` array (models/scan.js:31-40); the
      schema's `by` is `author` here, `by` being a Dafny keyword. */
  datatype HistoryEntry = HistoryEntry(
    at: nat,
    author: Option<Id>,
    byLabel: Option<string>,
    oldStatus: Option<string>,
    oldLocation: Option<string>,
    note: Option<string>)

  /** A stored scan. `location` holds the trimmed string of the `trim: true`
      setter; `user` is absent for an anonymous scan. */
  datatype Scan = Scan(
    package: Id,
    scannedBy: string,
    location: Option<string>,
    user: Option<Id>,
    status: Status,
    history: seq<HistoryEntry>)

  /** The schema default of `scannedBy` (models/scan.js:13). */
  const GuestLabel: string := "Anonymous (guest)"

  /** The label the hook writes when the user lookup throws. */
  const AnonymousLabel: string := "Anonymous"

  /** What `UserModel.findById(this.user).select("fullName role")` yields:
      a thrown error, no document, or the projected name and role. */
  datatype Lookup = Threw | NoUser | Found(fullName: Option<string>, role: Option<string>)

  /** A label the hook may replace: empty or exactly "Anonymous". */
  predicate Replaceable(tag: string) {
    tag == "" || tag == AnonymousLabel
  }

  /** `${user.fullName || "Unnamed"} (${user.role?.toLowerCase() || "user"})`. */
  function UserLabel(fullName: Option<string>, role: Option<string>): string {
    var name := if Filled(fullName) then fullName.value else "Unnamed";
    var roleLabel := if Filled(role) then Lower(role.value) else DefaultRole;
    name + " (" + roleLabel + ")"
  }

  /** A user label names the user (or "Unnamed"), then the lower-cased role
      (or "user") in parentheses. */
  lemma UserLabelShape(fullName: Option<string>, role: Option<string>)
    ensures var tag := UserLabel(fullName, role);
      var name := if Filled(fullName) then fullName.value else "Unnamed";
      && tag[..|name|] == name
      && tag[|name|..|name| + 2] == " ("
      && tag[|tag| - 1] == ')'
      && (Filled(role) ==> tag[|name| + 2..|tag| - 1] == Lower(role.value))
      && (!Filled(role) ==> tag[|name| + 2..|tag| - 1] == "user")
  {
  }

  /** The pre-save hook (models/scan.js:47-67). Only `scannedBy` changes.
      For a new scan with a user and a replaceable label, the label comes
      from the lookup ("Anonymous" when it throws, unchanged when no user is
      found); without a user a replaceable label becomes the guest label,
      new scan or not; any other label is kept. */
  function PreSave(scan: Scan, isNew: bool, lookup: Lookup): (r: Scan)
    ensures r == scan.(scannedBy := r.scannedBy)
    ensures !Replaceable(scan.scannedBy) ==> r == scan
    ensures Replaceable(scan.scannedBy) && scan.user.None? ==> r.scannedBy == GuestLabel
    ensures Replaceable(scan.scannedBy) && scan.user.Some? && !isNew ==> r == scan
    ensures Replaceable(scan.scannedBy) && scan.user.Some? && isNew ==>
      match lookup
      case Threw => r.scannedBy == AnonymousLabel
      case NoUser => r == scan
      case Found(fullName, role) => r.scannedBy == UserLabel(fullName, role)
  {
    if isNew && scan.user.Some? && Replaceable(scan.scannedBy) then
      match lookup
      case Threw => scan.(scannedBy := AnonymousLabel)
      case NoUser => scan
      case Found(fullName, role) => scan.(scannedBy := UserLabel(fullName, role))
    else if scan.user.None? && Replaceable(scan.scannedBy) then
      scan.(scannedBy := GuestLabel)
    else scan
  }

  /** The hook's query as written: the projection asks for `fullName`, a
      path the user schema does not have (it has `name`), so the name never
      comes back. */
  function LookupAsWritten(users: map<Id, User>, id: Id): (r: Lookup)
    ensures id !in users ==> r == NoUser
    ensures id in users ==> r.Found? && r.fullName.None?
  {
    if id in users then Found(None, Some(users[id].role)) else NoUser
  }

  /** The query the hook evidently means: the user's `name` and `role`. */
  function LookupIntended(users: map<Id, User>, id: Id): (r: Lookup)
    ensures id !in users ==> r == NoUser
    ensures id in users ==> r == Found(Some(users[id].name), Some(users[id].role))
  {
    if id in users then Found(Some(users[id].name), Some(users[id].role)) else NoUser
  }

  /** As written, every label derived from a found user reads "Unnamed". */
  lemma AsWrittenLabelIsUnnamed(users: map<Id, User>, id: Id)
    requires id in users
    ensures var l := LookupAsWritten(users, id);
      UserLabel(l.fullName, l.role)[..7] == "Unnamed"
  {
  }

  /** A user named "Ama" with role "user" is labelled "Unnamed (user)" as
      written and "Ama (user)" with the intended query. */
  lemma LabelForAma()
    ensures var users := map["u1" := User("Ama", "user")];
      var written := LookupAsWritten(users, "u1");
      var intended := LookupIntended(users, "u1");
      && UserLabel(written.fullName, written.role) == "Unnamed (user)"
      && UserLabel(intended.fullName, intended.role) == "Ama (user)"
  {
    var users := map["u1" := User("Ama", "user")];
    assert Lower("user") == "user";
  }

  /** With the intended query a new scan by a known user with a replaceable
      label is labelled with that user's name and lower-cased role. */
  lemma IntendedLabelUsesName(scan: Scan, users: map<Id, User>)
    requires scan.user.Some? && scan.user.value in users
    requires Replaceable(scan.scannedBy)
    requires users[scan.user.value].name != "" && users[scan.user.value].role != ""
    ensures var u := users[scan.user.value];
      PreSave(scan, true, LookupIntended(users, scan.user.value)).scannedBy
        == u.name + " (" + Lower(u.role) + ")"
  {
  }

  /** `scan.save()`: the schema's required rules on `package` and
      `scannedBy` are checked before the hook runs; absent means the save
      threw. */
  function Save(scan: Scan, isNew: bool, lookup: Lookup): (r: Option<Scan>)
    ensures r.Some? <==> scan.package != "" && scan.scannedBy != ""
    ensures r.Some? ==> r.value == PreSave(scan, isNew, lookup)
    ensures r.Some? ==> r.value.scannedBy != ""
  {
    if scan.package == "" || scan.scannedBy == "" then None
    else Some(PreSave(scan, isNew, lookup))
  }
}
