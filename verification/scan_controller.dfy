/** The scan handlers of controllers/scan.js: recording a scan (open to
    anonymous callers, with no validator and no effect on the package),
    and the validated, owner-or-admin update that writes a new status onto
    the package before the scan, and the delete behind the same gates. */
module ScanController {
  import opened Base
  import opened Text
  import opened Joi
  import opened Access
  import opened Ledger
  import opened ScanSchema
  import PackageSchema
  import Validators

  /** A request field as the document constructor sees it: absent (or
      null), a value it can store, or one it cannot cast. */
  datatype Input<T> = Absent | Given(value: T) | Invalid

  /** `req.body.package` for `findById`: absent or null finds nothing. */
  function PackageRef(body: Body): (r: Input<Id>)
    ensures r.Absent? <==> "package" !in body || body["package"].Null?
    ensures r.Given? <==> "package" in body && body["package"].Str?
    ensures r.Given? ==> r.value == body["package"].s
  {
    if "package" !in body || body["package"].Null? then Absent
    else if body["package"].Str? then Given(body["package"].s)
    else Invalid
  }

  /** `location` through the `trim` setter. */
  function LocationInput(body: Body): (r: Input<string>)
    ensures r.Absent? <==> "location" !in body || body["location"].Null?
    ensures r.Given? <==> "location" in body && body["location"].Str?
    ensures r.Given? ==> r.value == Trim(body["location"].s)
  {
    if "location" !in body || body["location"].Null? then Absent
    else if body["location"].Str? then Given(Trim(body["location"].s))
    else Invalid
  }

  /** `status` against the enumeration: any value other than one of the
      three names fails the enum validator. */
  function StatusInput(body: Body): (r: Input<Status>)
    ensures r.Absent? <==> "status" !in body || body["status"].Null?
    ensures r.Given? <==> "status" in body && body["status"].Str? && body["status"].s in Validators.StatusNames
    ensures r.Given? ==> StatusName(r.value) == body["status"].s
  {
    if "status" !in body || body["status"].Null? then Absent
    else if body["status"].Str? && ParseStatus(body["status"].s).Some? then Given(ParseStatus(body["status"].s).value)
    else Invalid
  }

  /** `req.auth?.id || req.auth?._id || null`: the caller's id, or no user
      for an anonymous call. */
  function CreatorId(auth: Option<Principal>): (r: Option<Id>)
    ensures r.Some? <==> auth.Some? && auth.value.id != ""
    ensures r.Some? ==> r.value == auth.value.id
  {
    if auth.Some? && auth.value.id != "" then Some(auth.value.id) else None
  }

  /** The user lookup of the scan hook, with the query it evidently means. */
  function UserLookup(s: Store, user: Option<Id>): Lookup {
    match user
    case None => NoUser
    case Some(u) => LookupIntended(s.users, u)
  }

  /** `ScanModel.create` with the package, location, status and user:
      the label is the schema default and the history is empty. */
  function NewScan(packageId: Id, location: Input<string>, status: Input<Status>, user: Option<Id>): Scan {
    Scan(packageId, GuestLabel, if location.Given? then Some(location.value) else None, user,
      if status.Given? then status.value else DefaultStatus, [])
  }

  /** The request can be stored: the package exists, location and status
      cast, the id is fresh and the package reference is not empty. */
  predicate Recordable(s: Store, body: Body, newId: Id) {
    && PackageRef(body).Given? && PackageRef(body).value in s.packages && PackageRef(body).value != ""
    && !LocationInput(body).Invalid? && !StatusInput(body).Invalid?
    && newId !in s.scans
  }

  /** `createScan` (controllers/scan.js:8-31): 404 when the package
      reference is absent or names no package; 500 when a field cannot be
      stored; otherwise 201 with one scan added, labelled with the guest
      default whoever calls, owned by the caller if any, and carrying the
      supplied status as given, anonymous or not. No package changes. */
  function CreateScan(s: Store, auth: Option<Principal>, body: Body, newId: Id): (r: Reply)
    ensures r.code in {NotFound, ServerError, Created}
    ensures r.code == NotFound <==> PackageRef(body).Absent? || (PackageRef(body).Given? && PackageRef(body).value !in s.packages)
    ensures r.code == Created <==> Recordable(s, body, newId)
    ensures r.store.packages == s.packages && r.store.batches == s.batches
    ensures r.code != Created ==> r.store == s
    ensures r.code == Created ==>
      && newId !in s.scans && newId in r.store.scans
      && r.store == s.(scans := s.scans[newId := r.store.scans[newId]])
      && var scan := r.store.scans[newId];
         && scan.package == PackageRef(body).value
         && scan.scannedBy == GuestLabel
         && scan.user == CreatorId(auth)
         && scan.status == (if StatusInput(body).Given? then StatusInput(body).value else DefaultStatus)
         && scan.location == (if LocationInput(body).Given? then Some(LocationInput(body).value) else None)
         && scan.history == []
  {
    match PackageRef(body)
    case Absent => Reply(NotFound, s)
    case Invalid => Reply(ServerError, s)
    case Given(packageId) =>
      if packageId !in s.packages then Reply(NotFound, s)
      else if LocationInput(body).Invalid? || StatusInput(body).Invalid? || newId in s.scans then Reply(ServerError, s)
      else
        var user := CreatorId(auth);
        match Save(NewScan(packageId, LocationInput(body), StatusInput(body), user), true, UserLookup(s, user))
        case None => Reply(ServerError, s)
        case Some(scan) => Reply(Created, s.(scans := s.scans[newId := scan]))
  }

  /** An anonymous scan that says "sold" is stored as sold, and the package
      it names is left as it was. */
  lemma AnonymousStatusIsKept(s: Store, newId: Id)
    requires "p1" in s.packages && newId !in s.scans
    ensures var r := CreateScan(s, None, map["package" := Str("p1"), "status" := Str("sold")], newId);
      && r.code == Created
      && r.store.scans[newId].status == Sold
      && r.store.scans[newId].user.None?
      && r.store.packages == s.packages
  {
    assert ParseStatus("sold") == Some(Sold);
  }

  /** `getScan` (controllers/scan.js:50-62): a read. */
  function GetScan(s: Store, id: Id): (r: Reply)
    ensures r.store == s
    ensures r.code == Ok <==> id in s.scans
    ensures r.code != Ok ==> r.code == NotFound
  {
    if id in s.scans then Reply(Ok, s) else Reply(NotFound, s)
  }

  /** The status a validated update asks for. */
  function StatusUpdate(body: Body): (r: Option<Status>)
    ensures r.Some? <==> "status" in body && body["status"].Str? && body["status"].s in Validators.StatusNames
    ensures r.Some? ==> StatusName(r.value) == body["status"].s
  {
    if "status" in body && body["status"].Str? then ParseStatus(body["status"].s) else None
  }

  /** The scan with the fields of a validated update set, before its save:
      a non-empty location (trimmed) and label replace the old ones, a
      status replaces the old one; the package, the user and the history
      stay (controllers/scan.js:81-91). */
  function Revised(scan: Scan, body: Body): (r: Scan)
    ensures r.package == scan.package && r.user == scan.user && r.history == scan.history
    ensures r.location == (if Validators.FilledText(body, "location") then Some(Trim(body["location"].s)) else scan.location)
    ensures r.scannedBy == (if Validators.FilledText(body, "scannedBy") then body["scannedBy"].s else scan.scannedBy)
    ensures r.status == (if StatusUpdate(body).Some? then StatusUpdate(body).value else scan.status)
  {
    scan.(location := if Validators.FilledText(body, "location") then Some(Trim(body["location"].s)) else scan.location,
          scannedBy := if Validators.FilledText(body, "scannedBy") then body["scannedBy"].s else scan.scannedBy,
          status := if StatusUpdate(body).Some? then StatusUpdate(body).value else scan.status)
  }

  /** Whether `pkg.status = value.status` reaches the package document.
      The package schema as written (models/package.js:9-35) has no
      `status` path, so strict mode drops the assignment and the save stores
      the package as it was (`Dropped`); with the path declared the status
      is stored (`Kept`). */
  datatype StatusPath = Dropped | Kept

  /** The status the package holds when its save runs. */
  function Stamped(p: PackageSchema.Package, status: Status, path: StatusPath): (r: Option<Status>)
    ensures path.Kept? ==> r == Some(status)
    ensures path.Dropped? ==> r == p.status
  {
    if path.Kept? then Some(status) else p.status
  }

  /** The package collection after `pkg.status = status; pkg.save()` on the
      scan's package; unchanged when that package is missing, absent when
      its save throws. */
  function PackagesAfter(s: Store, packageId: Id, status: Status, env: Entropy, path: StatusPath)
    : (r: Option<map<Id, PackageSchema.Package>>)
    ensures packageId !in s.packages ==> r == Some(s.packages)
    ensures packageId in s.packages ==>
      var p := s.packages[packageId].(status := Stamped(s.packages[packageId], status, path));
      && (r.Some? <==> PackageSchema.Save(p, packageId, env, s.packages).Some?)
      && (r.Some? ==> r.value == s.packages[packageId := PackageSchema.PreSave(p, env)])
  {
    if packageId !in s.packages then Some(s.packages)
    else
      var p := s.packages[packageId];
      match PackageSchema.Save(p.(status := Stamped(p, status, path)), packageId, env, s.packages)
      case None => None
      case Some(saved) => Some(s.packages[packageId := saved])
  }

  /** The label a non-new save keeps: the hook turns an empty or
      "Anonymous" label of a scan without a user into the guest label. */
  function SavedLabel(scan: Scan): string {
    if Replaceable(scan.scannedBy) && scan.user.None? then GuestLabel else scan.scannedBy
  }

  /** `scan.save()` after the update, into the store `s`. */
  function Finish(s: Store, id: Id, revised: Scan): (r: Reply)
    ensures r.code in {ServerError, Ok}
    ensures r.code == Ok <==> revised.package != "" && revised.scannedBy != ""
    ensures r.code == ServerError ==> r.store == s
    ensures r.code == Ok ==> r.store == s.(scans := s.scans[id := revised.(scannedBy := SavedLabel(revised))])
  {
    match Save(revised, false, UserLookup(s, revised.user))
    case None => Reply(ServerError, s)
    case Some(scan) => Reply(Ok, s.(scans := s.scans[id := scan]))
  }

  /** `updateScan` (controllers/scan.js:65-103): 422 for an invalid body,
      404 for a missing scan, 403 unless the caller is an admin in any
      letter case or the owner, each with nothing changed. Then the body's
      fields are set; a status is first written onto the scan's package
      (when it exists) and saved, then onto the scan. The two saves are
      separate: if the scan's save throws after the package's, the request
      gets 500 and the package keeps its new status. `path` says whether
      the package schema has the `status` path the assignment needs. */
  function UpdateScan(s: Store, auth: Principal, id: Id, body: Body, env: Entropy, path: StatusPath): (r: Reply)
    ensures r.code == Unprocessable <==> !Conforms(body, Validators.UpdateScan)
    ensures r.code == NotFound <==> Conforms(body, Validators.UpdateScan) && id !in s.scans
    ensures r.code == Forbidden <==>
      Conforms(body, Validators.UpdateScan) && id in s.scans && !MayChange(OwnerString(s.scans[id].user), auth)
    ensures r.code in {Unprocessable, NotFound, Forbidden, ServerError, Ok}
    ensures r.code in {Unprocessable, NotFound, Forbidden} ==> r.store == s
    ensures r.store.users == s.users && r.store.farmers == s.farmers && r.store.batches == s.batches
    ensures r.code != Ok ==> r.store.scans == s.scans
    ensures r.code == Ok ==>
      && id in s.scans && id in r.store.scans
      && r.store.scans == s.scans[id := r.store.scans[id]]
      && var old_, new_ := s.scans[id], r.store.scans[id];
         && new_.package == old_.package && new_.user == old_.user && new_.history == old_.history
         && new_.location == (if Validators.FilledText(body, "location") then Some(Trim(body["location"].s)) else old_.location)
         && new_.status == (if StatusUpdate(body).Some? then StatusUpdate(body).value else old_.status)
         && new_.scannedBy == SavedLabel(Revised(old_, body))
    ensures r.code != Ok && r.code != ServerError ==> r.store.packages == s.packages
    ensures r.code == Ok || r.code == ServerError ==>
      || r.store.packages == s.packages
      || (&& StatusUpdate(body).Some? && s.scans[id].package in s.packages
          && var pid := s.scans[id].package;
             r.store.packages == s.packages[pid := PackageSchema.PreSave(
               s.packages[pid].(status := Stamped(s.packages[pid], StatusUpdate(body).value, path)), env)])
    ensures r.code == Ok && StatusUpdate(body).Some? && s.scans[id].package in s.packages ==>
      var pid := s.scans[id].package;
      r.store.packages == s.packages[pid := PackageSchema.PreSave(
        s.packages[pid].(status := Stamped(s.packages[pid], StatusUpdate(body).value, path)), env)]
    ensures r.code == Ok && (StatusUpdate(body).None? || s.scans[id].package !in s.packages) ==>
      r.store.packages == s.packages
  {
    if !Conforms(body, Validators.UpdateScan) then Reply(Unprocessable, s)
    else if id !in s.scans then Reply(NotFound, s)
    else if !MayChange(OwnerString(s.scans[id].user), auth) then Reply(Forbidden, s)
    else
      var revised := Revised(s.scans[id], body);
      match StatusUpdate(body)
      case None => Finish(s, id, revised)
      case Some(status) =>
        match PackagesAfter(s, s.scans[id].package, status, env, path)
        case None => Reply(ServerError, s)
        case Some(packages) => Finish(s.(packages := packages), id, revised)
  }

  /** With the `status` path declared, the status update of a well-formed
      store reaches both documents: a caller allowed to change the scan who
      marks it "sold" finds the scan and its package sold. */
  lemma StatusPropagates(s: Store, auth: Principal, id: Id, env: Entropy)
    requires Invariant(s)
    requires id in s.scans && MayChange(OwnerString(s.scans[id].user), auth)
    requires var pid := s.scans[id].package;
      && pid != "" && pid in s.packages
      && PackageSchema.SchemaValid(s.packages[pid]) && Filled(s.packages[pid].packageCode)
    ensures var r := UpdateScan(s, auth, id, map["status" := Str("sold")], env, Kept);
      var pid := s.scans[id].package;
      && r.code == Ok
      && r.store.scans[id].status == Sold
      && r.store.packages[pid].status == Some(Sold)
  {
    var body := map["status" := Str("sold")];
    Validators.UpdateScanMeaning(body);
    assert ParseStatus("sold") == Some(Sold);
    var pid := s.scans[id].package;
    var p := s.packages[pid].(status := Some(Sold));
    assert PackageSchema.PreSave(p, env) == p;
    assert PackageSchema.Save(p, pid, env, s.packages).Some?;
  }

  /** As written, the same request marks the scan sold and leaves the
      package as it was: the assignment is dropped and the save stores the
      unchanged document, so a package without a status stays without one. */
  lemma StatusDroppedAsWritten(s: Store, auth: Principal, id: Id, env: Entropy)
    requires Invariant(s)
    requires id in s.scans && MayChange(OwnerString(s.scans[id].user), auth)
    requires var pid := s.scans[id].package;
      && pid != "" && pid in s.packages
      && PackageSchema.SchemaValid(s.packages[pid]) && Filled(s.packages[pid].packageCode)
    ensures var r := UpdateScan(s, auth, id, map["status" := Str("sold")], env, Dropped);
      var pid := s.scans[id].package;
      && r.code == Ok
      && r.store.scans[id].status == Sold
      && r.store.packages == s.packages
      && (s.packages[pid].status.None? ==> r.store.packages[pid].status.None?)
  {
    var body := map["status" := Str("sold")];
    Validators.UpdateScanMeaning(body);
    assert ParseStatus("sold") == Some(Sold);
    var pid := s.scans[id].package;
    var p := s.packages[pid];
    assert p.(status := p.status) == p;
    assert PackageSchema.PreSave(p, env) == p;
    assert PackageSchema.Save(p, pid, env, s.packages).Some?;
    assert s.packages[pid := p] == s.packages;
  }

  /** `deleteScan` (controllers/scan.js:106-123): the same 404 and 403
      gates without a body, then only the scan goes. */
  function DeleteScan(s: Store, auth: Principal, id: Id): (r: Reply)
    ensures r.code == NotFound <==> id !in s.scans
    ensures r.code == Forbidden <==> id in s.scans && !MayChange(OwnerString(s.scans[id].user), auth)
    ensures r.code in {NotFound, Forbidden, Ok}
    ensures r.code != Ok ==> r.store == s
    ensures r.code == Ok ==> r.store == s.(scans := s.scans - {id})
  {
    if id !in s.scans then Reply(NotFound, s)
    else if !MayChange(OwnerString(s.scans[id].user), auth) then Reply(Forbidden, s)
    else Reply(Ok, s.(scans := s.scans - {id}))
  }

  /** An anonymous scan can be removed by an admin only; recording it and
      having an admin delete it restores the store. */
  lemma AnonymousScanRoundTrip(s: Store, body: Body, newId: Id, someone: Principal, admin: Principal)
    requires CreateScan(s, None, body, newId).code == Created
    requires someone.id != "null" && Lower(someone.role) != AdminRole
    requires Lower(admin.role) == AdminRole
    ensures var created := CreateScan(s, None, body, newId).store;
      && DeleteScan(created, someone, newId).code == Forbidden
      && DeleteScan(created, admin, newId) == Reply(Ok, s)
  {
    var created := CreateScan(s, None, body, newId).store;
    assert created.scans - {newId} == s.scans;
  }

  /** The route that records scans has no authentication middleware, so
      `createScan` always runs without a caller: the scan it stores has no
      user, and afterwards only an admin may update or delete it. */
  lemma RoutedScanNeedsAdmin(s: Store, body: Body, newId: Id, someone: Principal, update: Body, env: Entropy, path: StatusPath)
    requires CreateScan(s, None, body, newId).code == Created
    requires someone.id != "null" && Lower(someone.role) != AdminRole
    requires Conforms(update, Validators.UpdateScan)
    ensures var created := CreateScan(s, None, body, newId).store;
      && created.scans[newId].user.None?
      && UpdateScan(created, someone, newId, update, env, path) == Reply(Forbidden, created)
      && DeleteScan(created, someone, newId) == Reply(Forbidden, created)
  {
  }

  /** Every scan handler keeps the store invariant. */
  lemma ScanHandlersKeepInvariant(s: Store, auth: Principal, body: Body, id: Id, env: Entropy, path: StatusPath)
    requires Invariant(s)
    ensures Invariant(CreateScan(s, Some(auth), body, id).store)
    ensures Invariant(CreateScan(s, None, body, id).store)
    ensures Invariant(UpdateScan(s, auth, id, body, env, path).store)
    ensures Invariant(DeleteScan(s, auth, id).store)
  {
    var r := UpdateScan(s, auth, id, body, env, path);
    if r.store.packages != s.packages {
      var pid := s.scans[id].package;
      var p := s.packages[pid];
      PackageSchema.SaveKeepsCodesUnique(p.(status := Stamped(p, StatusUpdate(body).value, path)), pid, env, s.packages);
    }
    RemovalKeepsInvariant(s, DeleteScan(s, auth, id).store);
  }
}
