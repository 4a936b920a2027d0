/** The farmer handlers of controllers/farmer.js: registration with the
    owner stamped from the token, a read, and the owner-only update and
    delete, which admit no admin and answer "not found" for anyone else.
    The Joi verdict on the profile fields is an input: `Some(value)` for a
    body the validator accepts, `None` for one it rejects. */
module FarmerController {
  import opened Base
  import opened Access
  import opened Ledger
  import opened FarmerSchema

  /** `registerFarmer` (controllers/farmer.js:4-24): 422 when the validator
      rejects; 500 when the id is taken or the schema's `firstName` rule
      fails; else 201 with one farmer added, owned by the caller. */
  function RegisterFarmer(s: Store, auth: Principal, verdict: Option<map<string, string>>, newId: Id): (r: Reply)
    ensures r.code == Unprocessable <==> verdict.None?
    ensures r.code in {Unprocessable, ServerError, Created}
    ensures r.code != Created ==> r.store == s
    ensures r.code == Created <==> verdict.Some? && newId !in s.farmers && SchemaValid(Farmer(auth.id, verdict.value))
    ensures r.code == Created ==>
      && newId in r.store.farmers
      && r.store == s.(farmers := s.farmers[newId := r.store.farmers[newId]])
      && r.store.farmers[newId].user == auth.id
      && r.store.farmers[newId].profile == verdict.value
  {
    match verdict
    case None => Reply(Unprocessable, s)
    case Some(profile) =>
      if newId in s.farmers || !SchemaValid(Farmer(auth.id, profile)) then Reply(ServerError, s)
      else Reply(Created, s.(farmers := s.farmers[newId := Farmer(auth.id, profile)]))
  }

  /** `getFarmer` (controllers/farmer.js:41-52): a read, 404 when absent. */
  function GetFarmer(s: Store, id: Id): (r: Reply)
    ensures r.store == s
    ensures r.code == Ok <==> id in s.farmers
    ensures r.code != Ok ==> r.code == NotFound
  {
    if id in s.farmers then Reply(Ok, s) else Reply(NotFound, s)
  }

  /** `updateFarmer` (controllers/farmer.js:54-80): 422 when the validator
      rejects; 404 unless the farmer exists and belongs to the caller,
      whatever the caller's role; else 200 with the supplied fields set over
      the old profile and nothing else changed. (The source sends a second
      reply after its 404 because a `return` is missing; the client sees the
      404 and the store is unchanged either way.) */
  function UpdateFarmer(s: Store, auth: Principal, id: Id, verdict: Option<map<string, string>>): (r: Reply)
    ensures r.code == Unprocessable <==> verdict.None?
    ensures r.code == NotFound <==> verdict.Some? && !(id in s.farmers && FarmerQueryMatches(s.farmers[id].user, auth))
    ensures r.code in {Unprocessable, NotFound, Ok}
    ensures r.code != Ok ==> r.store == s
    ensures r.code == Ok ==>
      && id in s.farmers && id in r.store.farmers
      && r.store == s.(farmers := s.farmers[id := r.store.farmers[id]])
      && r.store.farmers[id].user == s.farmers[id].user
      && r.store.farmers[id].profile.Keys == s.farmers[id].profile.Keys + verdict.value.Keys
      && (forall key :: key in verdict.value ==>
            r.store.farmers[id].profile[key] == verdict.value[key])
      && (forall key :: key in s.farmers[id].profile && key !in verdict.value ==>
            r.store.farmers[id].profile[key] == s.farmers[id].profile[key])
  {
    match verdict
    case None => Reply(Unprocessable, s)
    case Some(fields) =>
      if id in s.farmers && FarmerQueryMatches(s.farmers[id].user, auth) then
        var f := s.farmers[id];
        Reply(Ok, s.(farmers := s.farmers[id := f.(profile := f.profile + fields)]))
      else Reply(NotFound, s)
  }

  /** `deleteFarmer` (controllers/farmer.js:83-96): the owner-only query;
      404 with nothing changed when it matches nothing, else 200 with that
      farmer gone and the batches that name it left in place. */
  function DeleteFarmer(s: Store, auth: Principal, id: Id): (r: Reply)
    ensures r.code == Ok <==> id in s.farmers && FarmerQueryMatches(s.farmers[id].user, auth)
    ensures r.code != Ok ==> r.code == NotFound && r.store == s
    ensures r.code == Ok ==> r.store == s.(farmers := s.farmers - {id})
  {
    if id in s.farmers && FarmerQueryMatches(s.farmers[id].user, auth) then
      Reply(Ok, s.(farmers := s.farmers - {id}))
    else Reply(NotFound, s)
  }

  /** No role reaches someone else's farmer: an admin who does not own it
      gets 404 on update and delete alike. */
  lemma AdminCannotTouchOthersFarmer(s: Store, admin: Principal, id: Id, fields: map<string, string>)
    requires id in s.farmers && s.farmers[id].user != admin.id
    ensures UpdateFarmer(s, admin, id, Some(fields)) == Reply(NotFound, s)
    ensures DeleteFarmer(s, admin, id) == Reply(NotFound, s)
  {
  }

  /** Updating with the same fields twice is updating once. */
  lemma UpdateFarmerIdempotent(s: Store, auth: Principal, id: Id, fields: map<string, string>)
    requires UpdateFarmer(s, auth, id, Some(fields)).code == Ok
    ensures var once := UpdateFarmer(s, auth, id, Some(fields));
      UpdateFarmer(once.store, auth, id, Some(fields)) == once
  {
    var f := s.farmers[id];
    var f1 := f.(profile := f.profile + fields);
    assert f1.profile + fields == f1.profile;
    var s1 := s.(farmers := s.farmers[id := f1]);
    assert s1.farmers[id := f1] == s1.farmers;
  }

  /** Registering a farmer and deleting it as the same caller restores the
      store. */
  lemma RegisterThenDeleteFarmer(s: Store, auth: Principal, verdict: Option<map<string, string>>, newId: Id)
    requires RegisterFarmer(s, auth, verdict, newId).code == Created
    ensures DeleteFarmer(RegisterFarmer(s, auth, verdict, newId).store, auth, newId) == Reply(Ok, s)
  {
    var s1 := RegisterFarmer(s, auth, verdict, newId).store;
    assert s1.farmers - {newId} == s.farmers;
  }
}
