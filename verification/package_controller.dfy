/** The package handlers of controllers/package.js: creation (the owner
    from the token, the package code of the pre-save hook, the tracking URL
    as QR payload, and the depletion of the parent batch), and the
    not-found-then-forbidden gates of update and delete. */
module PackageController {
  import opened Base
  import opened Joi
  import opened Access
  import opened Ledger
  import opened PackageSchema
  import BatchSchema
  import Validators

  /** `new PackageModel({...value, user: auth.id})`. */
  function Fresh(body: Body, owner: Id): (p: Package)
    ensures p.batch == TextAt(body, "batch") && p.weight == NumberAt(body, "weight")
    ensures p.user == owner
    ensures p.packageCode.None? && p.qrCode.None? && p.status.None?
  {
    Package(TextAt(body, "batch"), NumberAt(body, "weight"), None, None, owner, None)
  }

  /** `(batch.quantity || 0) - (pkg.weight || 0)`, clamped at 0
      (controllers/package.js:36-37). */
  function Deplete(quantity: Option<real>, weight: Option<real>): (q: real)
    ensures q >= 0.0
    ensures q >= quantity.GetOr(0.0) - weight.GetOr(0.0)
    ensures q == 0.0 || q == quantity.GetOr(0.0) - weight.GetOr(0.0)
  {
    var q := quantity.GetOr(0.0) - weight.GetOr(0.0);
    if q < 0.0 then 0.0 else q
  }

  /** Depleting twice is depleting by the sum, for weights that are not
      negative: cutting 30 then 80 from 100 leaves 0, as does cutting 110. */
  lemma DepleteTwice(quantity: Option<real>, w1: real, w2: real)
    requires w1 >= 0.0 && w2 >= 0.0
    ensures Deplete(Some(Deplete(quantity, Some(w1))), Some(w2)) == Deplete(quantity, Some(w1 + w2))
  {
  }

  /** How the handler reaches the batch collection at line 34: as written
      the name `BatchModel` is not imported and the line throws; with the
      import, the batch save checks `quantity` against `minQuantity`. */
  datatype BatchStep = Unimported | Imported(minQuantity: real)

  /** The batch after the depletion and its save, absent when the save
      throws. */
  function DepleteBatch(b: BatchSchema.Batch, batchId: Id, weight: Option<real>, env: Entropy,
                        batches: map<Id, BatchSchema.Batch>, minQuantity: real): (r: Option<BatchSchema.Batch>)
    ensures r.Some? <==>
      BatchSchema.Save(b.(quantity := Some(Deplete(b.quantity, weight))), batchId, env, batches, minQuantity).Some?
    ensures r.Some? ==>
      && r.value.quantity == Some(Deplete(b.quantity, weight))
      && r.value.user == b.user && r.value.farmer == b.farmer
      && BatchSchema.SchemaValid(r.value, minQuantity)
      && (Filled(b.batchCode) ==> r.value.batchCode == b.batchCode)
    ensures r.Some? ==> r.value == BatchSchema.PreSave(b.(quantity := Some(Deplete(b.quantity, weight))), env)
  {
    BatchSchema.Save(b.(quantity := Some(Deplete(b.quantity, weight))), batchId, env, batches, minQuantity)
  }

  /** What a created package holds: the owner, the body's batch and
      weight, a code naming that batch, the clock and the random draw, and
      the tracking URL of its own id. */
  predicate CreatedAs(p: Package, owner: Id, body: Body, newId: Id, env: Entropy) {
    && p.user == owner
    && p.batch == TextAt(body, "batch")
    && p.weight == NumberAt(body, "weight")
    && p.packageCode.Some?
    && ParsePackageCode(p.packageCode.value) == Some((p.batch, env.now, BatchSchema.RandomSuffix(env.random)))
    && p.qrCode == Some(QrPayload(newId))
    && p.status.None?
  }

  /** The package stored by steps 1 to 3 of `createPackage`
      (controllers/package.js:18-31): the saved package with the tracking
      URL as `qrCode`, absent when the first save throws. The second save
      cannot fail (`PackageSchema.ResaveSucceeds`). */
  function Stored(body: Body, owner: Id, newId: Id, env: Entropy, packages: map<Id, Package>): (r: Option<Package>)
    ensures r.Some? <==> Save(Fresh(body, owner), newId, env, packages).Some?
    ensures r.Some? ==> CreatedAs(r.value, owner, body, newId, env) && SchemaValid(r.value)
    ensures r.Some? ==> r.value.packageCode == PreSave(Fresh(body, owner), env).packageCode
  {
    match Save(Fresh(body, owner), newId, env, packages)
    case None => None
    case Some(p) => Some(p.(qrCode := Some(QrPayload(newId))))
  }

  /** Steps 1 to 3 succeed: the package reaches the collection. */
  predicate Persisted(s: Store, auth: Principal, body: Body, newId: Id, env: Entropy) {
    Conforms(body, Validators.CreatePackage) && newId !in s.packages
    && Stored(body, auth.id, newId, env, s.packages).Some?
  }

  /** `createPackage` (controllers/package.js:9-48) for a given way of
      reaching the batch collection: 422 for an invalid body; 500 with
      nothing stored when the id is taken or the save throws; otherwise the
      package is stored, and then the batch step decides: 500 as written,
      else the parent batch (when it exists) is depleted and saved, with 500
      and the package still stored when that save throws. */
  function CreatePackageWith(s: Store, auth: Principal, body: Body, newId: Id, env: Entropy, step: BatchStep): (r: Reply)
    ensures r.code == Unprocessable <==> !Conforms(body, Validators.CreatePackage)
    ensures r.code in {Unprocessable, ServerError, Created}
    ensures r.store.users == s.users && r.store.farmers == s.farmers && r.store.scans == s.scans
    ensures !Persisted(s, auth, body, newId, env) ==> r.store == s
    ensures Persisted(s, auth, body, newId, env) ==>
      r.store.packages == s.packages[newId := Stored(body, auth.id, newId, env, s.packages).value]
    ensures r.code == Created ==> Persisted(s, auth, body, newId, env)
    ensures step.Unimported? ==> r.code != Created && r.store.batches == s.batches
    ensures step.Imported? && Persisted(s, auth, body, newId, env) && TextAt(body, "batch") !in s.batches ==>
      r.code == Created && r.store.batches == s.batches
    ensures step.Imported? && Persisted(s, auth, body, newId, env) && TextAt(body, "batch") in s.batches ==>
      var id := TextAt(body, "batch");
      var depleted := DepleteBatch(s.batches[id], id, NumberAt(body, "weight"), env, s.batches, step.minQuantity);
      && (r.code == Created <==> depleted.Some?)
      && (depleted.Some? ==> r.store.batches == s.batches[id := depleted.value])
      && (depleted.None? ==> r.store.batches == s.batches)
  {
    if !Conforms(body, Validators.CreatePackage) then Reply(Unprocessable, s)
    else if newId in s.packages then Reply(ServerError, s)
    else
      match Stored(body, auth.id, newId, env, s.packages)
      case None => Reply(ServerError, s)
      case Some(p) =>
        var s1 := s.(packages := s.packages[newId := p]);
        match step
        case Unimported => Reply(ServerError, s1)
        case Imported(minQuantity) =>
          if p.batch !in s.batches then Reply(Created, s1)
          else
            match DepleteBatch(s.batches[p.batch], p.batch, p.weight, env, s.batches, minQuantity)
            case None => Reply(ServerError, s1)
            case Some(b) => Reply(Created, s1.(batches := s.batches[p.batch := b]))
  }

  /** `createPackage` as written: the package is stored, then line 34
      throws a ReferenceError, so a valid request with a fresh id gets 500
      and leaves the package behind and the batch untouched. */
  function CreatePackageAsWritten(s: Store, auth: Principal, body: Body, newId: Id, env: Entropy): (r: Reply)
    ensures r.code == Unprocessable <==> !Conforms(body, Validators.CreatePackage)
    ensures r.code != Unprocessable ==> r.code == ServerError
    ensures r.store.batches == s.batches
    ensures Persisted(s, auth, body, newId, env) ==>
      newId in r.store.packages && CreatedAs(r.store.packages[newId], auth.id, body, newId, env)
  {
    CreatePackageWith(s, auth, body, newId, env, Unimported)
  }

  /** `createPackage` with `BatchModel` imported and the batch schema's
      `min: 1`: a created package is stored as `CreatedAs` says, and its
      parent batch, when it exists, keeps at least 1 after the depletion. */
  function CreatePackage(s: Store, auth: Principal, body: Body, newId: Id, env: Entropy): (r: Reply)
    ensures r.code == Unprocessable <==> !Conforms(body, Validators.CreatePackage)
    ensures r.code == Created ==> newId in r.store.packages && CreatedAs(r.store.packages[newId], auth.id, body, newId, env)
    ensures r.code == Created && TextAt(body, "batch") in s.batches ==>
      var id := TextAt(body, "batch");
      && id in r.store.batches
      && r.store.batches[id].quantity == Some(Deplete(s.batches[id].quantity, NumberAt(body, "weight")))
      && r.store.batches[id].quantity.value >= BatchSchema.QuantityMin
    ensures r.code == Created && TextAt(body, "batch") !in s.batches ==> r.store.batches == s.batches
  {
    CreatePackageWith(s, auth, body, newId, env, Imported(BatchSchema.QuantityMin))
  }

  /** `createPackage` with `BatchModel` imported and a floor of 0 on the
      batch quantity, the floor the clamp at line 37 is written for. */
  function CreatePackageClamped(s: Store, auth: Principal, body: Body, newId: Id, env: Entropy): (r: Reply)
    ensures r.code == Unprocessable <==> !Conforms(body, Validators.CreatePackage)
    ensures r.code == Created ==> newId in r.store.packages && CreatedAs(r.store.packages[newId], auth.id, body, newId, env)
    ensures r.code == Created && TextAt(body, "batch") in s.batches ==>
      var id := TextAt(body, "batch");
      && id in r.store.batches
      && r.store.batches[id].quantity == Some(Deplete(s.batches[id].quantity, NumberAt(body, "weight")))
    ensures r.code == Created && TextAt(body, "batch") !in s.batches ==> r.store.batches == s.batches
  {
    CreatePackageWith(s, auth, body, newId, env, Imported(0.0))
  }

  /** A batch of 30 and a package of weight 30: with the schema's `min: 1`
      the depleted batch (quantity 0) fails its save, so the request gets
      500 although the package is stored and the batch keeps 30. */
  lemma DepletionToZeroFails(s: Store, auth: Principal, newId: Id, env: Entropy, b: BatchSchema.Batch)
    requires "b1" in s.batches && s.batches["b1"] == b && b.quantity == Some(30.0)
    requires auth.id != "" && newId !in s.packages
    requires PackageSchema.CodeFree(s.packages, newId, Some(PackageCode("b1", env.now, BatchSchema.RandomSuffix(env.random))))
    ensures var r := CreatePackage(s, auth, map["batch" := Str("b1"), "weight" := Num(30.0)], newId, env);
      && r.code == ServerError
      && newId in r.store.packages
      && r.store.batches == s.batches
  {
    var body := map["batch" := Str("b1"), "weight" := Num(30.0)];
    Validators.CreatePackageMeaning(body);
    assert Deplete(b.quantity, NumberAt(body, "weight")) == 0.0;
  }

  /** With the floor at 0 the same request succeeds whenever the batch is
      otherwise valid and coded, and the batch keeps max(0, q - w). */
  lemma ClampedDepletionSucceeds(s: Store, auth: Principal, body: Body, newId: Id, env: Entropy)
    requires Conforms(body, Validators.CreatePackage)
    requires auth.id != "" && newId !in s.packages
    requires PackageSchema.CodeFree(s.packages, newId, Some(PackageCode(TextAt(body, "batch"), env.now, BatchSchema.RandomSuffix(env.random))))
    requires var id := TextAt(body, "batch");
      && id in s.batches && BatchSchema.UniqueCodes(s.batches) && Filled(s.batches[id].batchCode)
      && BatchSchema.SchemaValid(s.batches[id].(quantity := Some(0.0)), 0.0)
    ensures var r := CreatePackageClamped(s, auth, body, newId, env);
      var id := TextAt(body, "batch");
      && r.code == Created
      && r.store.batches[id].quantity == Some(Deplete(s.batches[id].quantity, NumberAt(body, "weight")))
  {
    Validators.CreatePackageMeaning(body);
    var id := TextAt(body, "batch");
    var b := s.batches[id];
    var b' := b.(quantity := Some(Deplete(b.quantity, NumberAt(body, "weight"))));
    assert BatchSchema.SchemaValid(b', 0.0);
    assert BatchSchema.PreSave(b', env).batchCode == b.batchCode;
    assert BatchSchema.Save(b', id, env, s.batches, 0.0).Some?;
  }

  /** `getPackage` (controllers/package.js:70-80): a read. */
  function GetPackage(s: Store, id: Id): (r: Reply)
    ensures r.store == s
    ensures r.code == Ok <==> id in s.packages
    ensures r.code != Ok ==> r.code == NotFound
  {
    if id in s.packages then Reply(Ok, s) else Reply(NotFound, s)
  }

  /** `updatePackage` (controllers/package.js:83-99): 404 for a missing
      package, 403 unless the caller is an admin in any letter case or the
      owner; then the raw body is assigned (no validator runs, so a bad
      body is a 500 and never a 422) and the package saved with its hook. */
  function UpdatePackage(s: Store, auth: Principal, id: Id, body: Body, env: Entropy): (r: Reply)
    ensures r.code == NotFound <==> id !in s.packages
    ensures r.code == Forbidden <==> id in s.packages && !MayChange(s.packages[id].user, auth)
    ensures r.code in {NotFound, Forbidden, ServerError, Ok}
    ensures r.code != Ok ==> r.store == s
    ensures r.code == Ok <==>
      && id in s.packages && MayChange(s.packages[id].user, auth)
      && Assign(s.packages[id], id, body).Some?
      && Save(Assign(s.packages[id], id, body).value, id, env, s.packages).Some?
    ensures r.code == Ok ==>
      && id in r.store.packages
      && r.store == s.(packages := s.packages[id := r.store.packages[id]])
      && r.store.packages[id] == PreSave(Assign(s.packages[id], id, body).value, env)
      && SchemaValid(r.store.packages[id])
  {
    if id !in s.packages then Reply(NotFound, s)
    else if !MayChange(s.packages[id].user, auth) then Reply(Forbidden, s)
    else
      match Assign(s.packages[id], id, body)
      case None => Reply(ServerError, s)
      case Some(p) =>
        match Save(p, id, env, s.packages)
        case None => Reply(ServerError, s)
        case Some(p') => Reply(Ok, s.(packages := s.packages[id := p']))
  }

  /** The update validator is not applied: a weight below 1, which it would
      answer with 422, reaches the schema and the save throws (500). */
  lemma UpdatePackageSkipsValidator(s: Store, auth: Principal, id: Id, env: Entropy)
    requires id in s.packages && s.packages[id].user == auth.id
    ensures !Conforms(map["weight" := Num(0.5)], Validators.UpdatePackage)
    ensures UpdatePackage(s, auth, id, map["weight" := Num(0.5)], env).code == ServerError
  {
    var body := map["weight" := Num(0.5)];
    assert "weight" in body;
    assert Assign(s.packages[id], id, body).value.weight == Some(0.5);
  }

  /** Keys outside the schema are not all harmless: the built-in members
      a raw body overwrites make the save throw, and the caller gets 500
      with nothing changed. */
  lemma UpdatePackageBuiltInKeysFail(s: Store, auth: Principal, id: Id, other: Id, env: Entropy)
    requires id in s.packages && MayChange(s.packages[id].user, auth) && other != id
    ensures UpdatePackage(s, auth, id, map["__v" := Str("x")], env) == Reply(ServerError, s)
    ensures UpdatePackage(s, auth, id, map["updatedAt" := Str("not a date")], env) == Reply(ServerError, s)
    ensures UpdatePackage(s, auth, id, map["_id" := Str(other)], env) == Reply(ServerError, s)
    ensures UpdatePackage(s, auth, id, map["isNew" := Bool(true)], env) == Reply(ServerError, s)
    ensures UpdatePackage(s, auth, id, map["save" := Num(1.0)], env) == Reply(ServerError, s)
  {
    BuiltInKeys(s.packages[id], id, other);
  }

  /** The raw body can carry `user`: an owner can hand a package to someone
      else, after which the former owner is refused. */
  lemma UpdatePackageReassignsOwner(s: Store, owner: Id, other: Id, id: Id, env: Entropy)
    requires owner != "" && other != "" && owner != other
    requires id in s.packages && s.packages[id].user == owner
    requires SchemaValid(s.packages[id]) && Filled(s.packages[id].packageCode)
    requires PackageSchema.UniqueCodes(s.packages)
    ensures var caller := Principal(owner, "user");
      var r := UpdatePackage(s, caller, id, map["user" := Str(other)], env);
      && r.code == Ok
      && r.store.packages[id].user == other
      && UpdatePackage(r.store, caller, id, map[], env).code == Forbidden
  {
    var body := map["user" := Str(other)];
    var p := Assign(s.packages[id], id, body).value;
    assert p == s.packages[id].(user := other);
    assert PreSave(p, env) == p;
    assert Save(p, id, env, s.packages).Some?;
  }

  /** `deletePackage` (controllers/package.js:101-116): the same gates, then
      only the package goes; the quantity cut from its batch is not given
      back. */
  function DeletePackage(s: Store, auth: Principal, id: Id): (r: Reply)
    ensures r.code == NotFound <==> id !in s.packages
    ensures r.code == Forbidden <==> id in s.packages && !MayChange(s.packages[id].user, auth)
    ensures r.code in {NotFound, Forbidden, Ok}
    ensures r.code != Ok ==> r.store == s
    ensures r.code == Ok ==> r.store == s.(packages := s.packages - {id})
  {
    if id !in s.packages then Reply(NotFound, s)
    else if !MayChange(s.packages[id].user, auth) then Reply(Forbidden, s)
    else Reply(Ok, s.(packages := s.packages - {id}))
  }

  /** Whatever the batch step, once the package is stored, deleting it
      again restores the packages but not the batches: a depletion stays. */
  lemma CreateThenDeleteKeepsDepletion(s: Store, auth: Principal, body: Body, newId: Id, env: Entropy, step: BatchStep)
    requires Persisted(s, auth, body, newId, env)
    ensures var created := CreatePackageWith(s, auth, body, newId, env, step).store;
      var deleted := DeletePackage(created, auth, newId);
      && deleted.code == Ok
      && deleted.store.packages == s.packages
      && deleted.store.batches == created.batches
  {
    var created := CreatePackageWith(s, auth, body, newId, env, step).store;
    var p := Stored(body, auth.id, newId, env, s.packages).value;
    assert created.packages == s.packages[newId := p] && p.user == auth.id;
    AddThenRemove(s.packages, newId, p);
  }

  /** Every package handler keeps the store invariant. */
  lemma PackageHandlersKeepInvariant(s: Store, auth: Principal, body: Body, id: Id, env: Entropy, step: BatchStep)
    requires Invariant(s)
    ensures Invariant(CreatePackageWith(s, auth, body, id, env, step).store)
    ensures Invariant(UpdatePackage(s, auth, id, body, env).store)
    ensures Invariant(DeletePackage(s, auth, id).store)
  {
    CreateKeepsInvariant(s, auth, body, id, env, step);
    if UpdatePackage(s, auth, id, body, env).code == Ok {
      SaveKeepsCodesUnique(Assign(s.packages[id], id, body).value, id, env, s.packages);
    }
    RemovalKeepsInvariant(s, DeletePackage(s, auth, id).store);
  }

  lemma CreateKeepsInvariant(s: Store, auth: Principal, body: Body, id: Id, env: Entropy, step: BatchStep)
    requires Invariant(s)
    ensures Invariant(CreatePackageWith(s, auth, body, id, env, step).store)
  {
    var r := CreatePackageWith(s, auth, body, id, env, step);
    if Persisted(s, auth, body, id, env) {
      var made := Fresh(body, auth.id);
      var saved := Save(made, id, env, s.packages).value;
      var p := Stored(body, auth.id, id, env, s.packages).value;
      SaveKeepsCodesUnique(made, id, env, s.packages);
      SamePackageCodeKeepsUnique(s.packages[id := saved], id, p);
      assert s.packages[id := saved][id := p] == r.store.packages;
      var bid := TextAt(body, "batch");
      if step.Imported? && bid in s.batches {
        var b := s.batches[bid];
        var depleted := b.(quantity := Some(Deplete(b.quantity, NumberAt(body, "weight"))));
        if BatchSchema.Save(depleted, bid, env, s.batches, step.minQuantity).Some? {
          BatchSchema.SaveKeepsCodesUnique(depleted, bid, env, s.batches, step.minQuantity);
        }
      }
    }
  }
}
