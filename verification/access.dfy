/** The three ownership rules of the handlers, kept apart because they
    differ: the batch handlers compare the role with "admin" exactly and
    fold a refusal into "not found"; the package and scan handlers compare
    the lower-cased role and answer a refusal with 403; the farmer handlers
    admit the owner only. */
module Access {
  import opened Base
  import opened Text

  /** The verified token payload `req.auth` as the handlers read it: an id
      and a role. The login token carries only the id; the role is whatever
      the authentication middleware adds, and "" stands for none. */
  datatype Principal = Principal(id: Id, role: string)

  const AdminRole: string := "admin"

  /** The query of `updateBatch` and `deleteBatch`
      (controllers/batch.js:62-65, 83-86): `{_id}` for a role spelled
      exactly "admin", `{_id, user: auth.id}` for anyone else. */
  predicate BatchQueryMatches(owner: Id, auth: Principal) {
    auth.role == AdminRole || owner == auth.id
  }

  /** `req.auth?.role?.toLowerCase() === "admin"`. */
  predicate LooseAdmin(auth: Principal) {
    Lower(auth.role) == AdminRole
  }

  /** `String(doc.user)`: the id, or "null" for a document without a user
      (an anonymous scan). */
  function OwnerString(user: Option<Id>): (r: string)
    ensures user.Some? ==> r == user.value
    ensures user.None? ==> r == "null"
  {
    match user
    case Some(u) => u
    case None => "null"
  }

  /** The gate of the package and scan handlers
      (controllers/package.js:88-89, controllers/scan.js:73-74): a
      case-insensitive admin, or the owner. */
  predicate MayChange(owner: string, auth: Principal) {
    LooseAdmin(auth) || owner == auth.id
  }

  /** The query of `updateFarmer` and `deleteFarmer`
      (controllers/farmer.js:63-66, 85-88): the owner and nobody else. */
  predicate FarmerQueryMatches(owner: Id, auth: Principal) {
    owner == auth.id
  }

  /** Whoever passes the batch rule passes the package and scan rule, and
      whoever passes the farmer rule passes both. */
  lemma RulesNested(owner: Id, auth: Principal)
    ensures FarmerQueryMatches(owner, auth) ==> BatchQueryMatches(owner, auth)
    ensures BatchQueryMatches(owner, auth) ==> MayChange(owner, auth)
  {
    if auth.role == AdminRole {
      assert Lower(auth.role) == AdminRole;
    }
  }

  /** The rules differ: a caller whose role is "Admin" may change someone
      else's package or scan but matches no one else's batch, and an admin
      matches someone else's batch but not their farmer. */
  lemma RulesDiffer()
    ensures var capital := Principal("u9", "Admin");
      MayChange("u1", capital) && !BatchQueryMatches("u1", capital)
    ensures var admin := Principal("u9", "admin");
      BatchQueryMatches("u1", admin) && !FarmerQueryMatches("u1", admin)
  {
    assert Lower("Admin") == AdminRole;
  }

  /** An anonymous scan belongs to nobody with a real id: only an admin may
      change it. */
  lemma AnonymousScanNeedsAdmin(auth: Principal)
    requires auth.id != "null"
    ensures MayChange(OwnerString(None), auth) <==> LooseAdmin(auth)
  {
  }

  /** Without the admin role every rule reduces to ownership. */
  lemma NonAdminNeedsOwnership(owner: Id, auth: Principal)
    requires Lower(auth.role) != AdminRole
    ensures BatchQueryMatches(owner, auth) <==> owner == auth.id
    ensures MayChange(owner, auth) <==> owner == auth.id
    ensures FarmerQueryMatches(owner, auth) <==> owner == auth.id
  {
    LowerOfAdmin();
  }

  lemma LowerOfAdmin()
    ensures Lower(AdminRole) == AdminRole
  {
  }
}
