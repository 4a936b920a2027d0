/** The batch handlers of controllers/batch.js: creation with the owner
    stamped from the token, and the owner-or-admin query behind update and
    delete, which answers "not found" for a batch the caller may not touch. */
module BatchController {
  import opened Base
  import opened Text
  import opened Joi
  import opened Access
  import opened Ledger
  import opened BatchSchema
  import Validators

  /** `new BatchModel({...value, user: auth.id})`: the schema paths of the
      validated body, strings through the `trim` setter, and the owner
      from the token; keys outside the schema (such as `crop`) are dropped
      by strict mode. A missing key leaves its field unset. */
  function FromBody(body: Body, owner: Id): Batch {
    Batch(owner, TextAt(body, "farmer"), Trim(TextAt(body, "cropType")), NumberAt(body, "quantity"),
      Trim(TextAt(body, "collectionLocation")), NumberAt(body, "latitude"), NumberAt(body, "longitude"),
      None, None)
  }

  /** `BatchModel.create` of a body validated against `shape` into a fresh
      id: 422 when the body fails the shape, 500 when the id is taken or the
      save throws, else 201 with exactly one batch added. */
  function CreateWith(s: Store, auth: Principal, body: Body, newId: Id, env: Entropy, shape: Joi.Shape): (r: Reply)
    ensures r.code == Unprocessable <==> !Conforms(body, shape)
    ensures r.code == Created <==>
      && Conforms(body, shape) && newId !in s.batches
      && Save(FromBody(body, auth.id), newId, env, s.batches, QuantityMin).Some?
    ensures r.code in {Unprocessable, ServerError, Created}
    ensures r.code != Created ==> r.store == s
    ensures r.code == Created ==>
      r.store == s.(batches := s.batches[newId := PreSave(FromBody(body, auth.id), env)])
  {
    if !Conforms(body, shape) then Reply(Unprocessable, s)
    else if newId in s.batches then Reply(ServerError, s)
    else
      match Save(FromBody(body, auth.id), newId, env, s.batches, QuantityMin)
      case None => Reply(ServerError, s)
      case Some(b) => Reply(Created, s.(batches := s.batches[newId := b]))
  }

  /** `createBatch` as written (controllers/batch.js:5-22): the validator
      accepts `crop` and no `farmer`, the schema requires `farmer` and
      `cropType`, so no request creates a batch: an invalid body gets 422
      and a valid one makes the save throw. */
  function CreateBatchAsWritten(s: Store, auth: Principal, body: Body, newId: Id, env: Entropy): (r: Reply)
    ensures r.code == Unprocessable <==> !Conforms(body, Validators.CreateBatch)
    ensures r.code != Unprocessable ==> r.code == ServerError
    ensures r.store == s
  {
    assert Conforms(body, Validators.CreateBatch) ==> "farmer" !in body;
    CreateWith(s, auth, body, newId, env, Validators.CreateBatch)
  }

  /** A well-formed request that still fails: crop, quantity and location
      given as the validator asks, answered with 500. */
  lemma CreateBatchAsWrittenRefusesValidBody(s: Store, auth: Principal, newId: Id, env: Entropy)
    ensures var body := map["crop" := Str("maize"), "quantity" := Num(10.0), "collectionLocation" := Str("Kumasi")];
      && Conforms(body, Validators.CreateBatch)
      && CreateBatchAsWritten(s, auth, body, newId, env).code == ServerError
  {
  }

  /** `createBatch` with the validator the schema needs (the farmer and
      `cropType` required): the stored batch is owned by the caller, holds
      the body's farmer, trimmed crop and location, quantity and
      coordinates, and carries the code and geocode of the pre-save hook. */
  function CreateBatch(s: Store, auth: Principal, body: Body, newId: Id, env: Entropy): (r: Reply)
    ensures r.code == Unprocessable <==> !Conforms(body, Validators.CreateBatchIntended)
    ensures r.code != Created ==> r.store == s
    ensures r.code == Created ==>
      && newId !in s.batches && newId in r.store.batches
      && r.store == s.(batches := s.batches[newId := r.store.batches[newId]])
      && var b := r.store.batches[newId];
         && b.user == auth.id
         && b.farmer == TextAt(body, "farmer") && b.farmer != ""
         && b.cropType == Trim(TextAt(body, "cropType")) && b.cropType != ""
         && b.quantity == NumberAt(body, "quantity") && b.quantity.Some? && b.quantity.value >= QuantityMin
         && b.collectionLocation == Trim(TextAt(body, "collectionLocation")) && b.collectionLocation != ""
         && b.latitude == NumberAt(body, "latitude") && b.longitude == NumberAt(body, "longitude")
         && b.gpsAddress.Some?
         && b.batchCode.Some? && ParseBatchCode(b.batchCode.value) == Some((env.now, RandomSuffix(env.random)))
  {
    Validators.CreateBatchIntendedMeaning(body);
    CreateWith(s, auth, body, newId, env, Validators.CreateBatchIntended)
  }

  /** A valid body whose trimmed crop and location are not empty creates a
      batch unless the id is taken or the generated code is already in use. */
  lemma CreateBatchSucceeds(s: Store, auth: Principal, body: Body, newId: Id, env: Entropy)
    requires Conforms(body, Validators.CreateBatchIntended)
    requires Trim(TextAt(body, "cropType")) != "" && Trim(TextAt(body, "collectionLocation")) != ""
    requires auth.id != "" && newId !in s.batches
    requires CodeFree(s.batches, newId, Some(BatchCode(env.now, RandomSuffix(env.random))))
    ensures CreateBatch(s, auth, body, newId, env).code == Created
  {
    Validators.CreateBatchIntendedMeaning(body);
    assert SchemaValid(FromBody(body, auth.id), QuantityMin);
  }

  /** `getBatch` (controllers/batch.js:42-54): a read. */
  function GetBatch(s: Store, id: Id): (r: Reply)
    ensures r.store == s
    ensures r.code == Ok <==> id in s.batches
    ensures r.code != Ok ==> r.code == NotFound
  {
    if id in s.batches then Reply(Ok, s) else Reply(NotFound, s)
  }

  /** The `$set` of `findOneAndUpdate(query, value)`: each schema path the
      validated body carries overwrites its field (strings through the
      `trim` setter); `crop` is not a path and is dropped. No validator and
      no pre-save hook runs. */
  function ApplyUpdate(b: Batch, body: Body): (b': Batch)
    ensures b'.user == b.user && b'.cropType == b.cropType
    ensures b'.gpsAddress == b.gpsAddress && b'.batchCode == b.batchCode
    ensures b'.farmer == (if "farmer" in body then TextAt(body, "farmer") else b.farmer)
    ensures b'.quantity == (if "quantity" in body then NumberAt(body, "quantity") else b.quantity)
    ensures b'.collectionLocation ==
      (if "collectionLocation" in body then Trim(TextAt(body, "collectionLocation")) else b.collectionLocation)
    ensures b'.latitude == (if "latitude" in body then NumberAt(body, "latitude") else b.latitude)
    ensures b'.longitude == (if "longitude" in body then NumberAt(body, "longitude") else b.longitude)
  {
    b.(farmer := if "farmer" in body then TextAt(body, "farmer") else b.farmer,
       quantity := if "quantity" in body then NumberAt(body, "quantity") else b.quantity,
       collectionLocation :=
         if "collectionLocation" in body then Trim(TextAt(body, "collectionLocation")) else b.collectionLocation,
       latitude := if "latitude" in body then NumberAt(body, "latitude") else b.latitude,
       longitude := if "longitude" in body then NumberAt(body, "longitude") else b.longitude)
  }

  /** `updateBatch` (controllers/batch.js:57-79): 422 for an invalid body,
      404 when no batch matches the owner-or-exact-admin query (a missing
      batch and someone else's batch alike, never 403), else 200 with only
      that batch changed, and only in the fields the body carries. */
  function UpdateBatch(s: Store, auth: Principal, id: Id, body: Body): (r: Reply)
    ensures r.code == Unprocessable <==> !Conforms(body, Validators.UpdateBatch)
    ensures r.code == NotFound <==>
      Conforms(body, Validators.UpdateBatch) && !(id in s.batches && BatchQueryMatches(s.batches[id].user, auth))
    ensures r.code in {Unprocessable, NotFound, Ok}
    ensures r.code != Ok ==> r.store == s
    ensures r.code == Ok ==> id in s.batches && r.store == s.(batches := s.batches[id := ApplyUpdate(s.batches[id], body)])
  {
    if !Conforms(body, Validators.UpdateBatch) then Reply(Unprocessable, s)
    else if id !in s.batches || !BatchQueryMatches(s.batches[id].user, auth) then Reply(NotFound, s)
    else Reply(Ok, s.(batches := s.batches[id := ApplyUpdate(s.batches[id], body)]))
  }

  /** Sending the same update twice leaves the store as sending it once. */
  lemma UpdateBatchIdempotent(s: Store, auth: Principal, id: Id, body: Body)
    requires UpdateBatch(s, auth, id, body).code == Ok
    ensures var once := UpdateBatch(s, auth, id, body);
      UpdateBatch(once.store, auth, id, body) == once
  {
    var b1 := ApplyUpdate(s.batches[id], body);
    var s1 := s.(batches := s.batches[id := b1]);
    assert s1.batches[id] == b1;
    ApplyUpdateIdempotent(s.batches[id], body);
    assert s1.batches[id := b1] == s1.batches;
  }

  lemma ApplyUpdateIdempotent(b: Batch, body: Body)
    ensures ApplyUpdate(ApplyUpdate(b, body), body) == ApplyUpdate(b, body)
  {
    TrimIdempotent(TextAt(body, "collectionLocation"));
  }

  /** A `crop` in an update never reaches the stored crop. */
  lemma UpdateBatchIgnoresCrop(s: Store, auth: Principal, id: Id, crop: string)
    requires crop != ""
    requires id in s.batches && BatchQueryMatches(s.batches[id].user, auth)
    ensures var r := UpdateBatch(s, auth, id, map["crop" := Str(crop)]);
      r.code == Ok && r.store == s
  {
    var body := map["crop" := Str(crop)];
    assert ApplyUpdate(s.batches[id], body) == s.batches[id];
    assert s.batches[id := s.batches[id]] == s.batches;
  }

  /** `deleteBatch` (controllers/batch.js:81-99): the same query; 404 when
      it matches nothing, else 200 with that batch gone and everything else,
      the packages cut from it included, left as it was. */
  function DeleteBatch(s: Store, auth: Principal, id: Id): (r: Reply)
    ensures r.code == Ok <==> id in s.batches && BatchQueryMatches(s.batches[id].user, auth)
    ensures r.code != Ok ==> r.code == NotFound && r.store == s
    ensures r.code == Ok ==> r.store == s.(batches := s.batches - {id})
  {
    if id in s.batches && BatchQueryMatches(s.batches[id].user, auth) then
      Reply(Ok, s.(batches := s.batches - {id}))
    else Reply(NotFound, s)
  }

  /** Deleting a batch one just created restores the store it was created in. */
  lemma CreateThenDeleteBatch(s: Store, auth: Principal, body: Body, newId: Id, env: Entropy)
    requires CreateBatch(s, auth, body, newId, env).code == Created
    ensures DeleteBatch(CreateBatch(s, auth, body, newId, env).store, auth, newId) == Reply(Ok, s)
  {
    var s1 := CreateBatch(s, auth, body, newId, env).store;
    var b := s1.batches[newId];
    assert s1 == s.(batches := s.batches[newId := b]) && b.user == auth.id;
    AddThenRemove(s.batches, newId, b);
  }

  /** Every batch handler keeps the store invariant. */
  lemma BatchHandlersKeepInvariant(s: Store, auth: Principal, body: Body, id: Id, env: Entropy)
    requires Invariant(s)
    ensures Invariant(CreateBatch(s, auth, body, id, env).store)
    ensures Invariant(UpdateBatch(s, auth, id, body).store)
    ensures Invariant(DeleteBatch(s, auth, id).store)
  {
    if CreateBatch(s, auth, body, id, env).code == Created {
      SaveKeepsCodesUnique(FromBody(body, auth.id), id, env, s.batches, QuantityMin);
    }
    if UpdateBatch(s, auth, id, body).code == Ok {
      SameBatchCodeKeepsUnique(s.batches, id, ApplyUpdate(s.batches[id], body));
    }
    RemovalKeepsInvariant(s, DeleteBatch(s, auth, id).store);
  }
}
