/** The package document of models/package.js: its fields and their
    `required`/`min` rules, the package code and the pre-save hook that
    assigns it, the QR payload the create handler stores, and how a raw
    request body is cast onto a package by `Object.assign`. */
module PackageSchema {
  import opened Base
  import opened Text
  import opened Joi
  import opened ScanSchema
  import BatchSchema

  /** A stored package. `status` is not a path of the source schema
      (models/package.js:9-35): the scan handlers write it onto packages,
      and the model keeps it as the field they evidently mean. "" stands for
      an unset reference. */
  datatype Package = Package(
    batch: Id,
    weight: Option<real>,
    packageCode: Option<string>,
    qrCode: Option<string>,
    user: Id,
    status: Option<Status>)

  /** The schema's `min: 1` on `weight` (models/package.js:17). */
  const WeightMin: real := 1.0

  const CodePrefix: string := "PKG-"

  /** `generatePackageCode(batchId)`: `PKG-<batchId>-<now>-<r>`. */
  function PackageCode(batchId: Id, now: nat, r: nat): string {
    CodePrefix + batchId + "-" + NatToString(now) + "-" + NatToString(r)
  }

  /** Reads a package code back into the batch id, the timestamp and the
      random suffix, splitting at the last two dashes (a batch id may itself
      contain dashes; the two numbers cannot). */
  function ParsePackageCode(code: string): Option<(Id, nat, nat)> {
    if |code| < |CodePrefix| || code[..|CodePrefix|] != CodePrefix then None
    else
      var rest := code[|CodePrefix|..];
      match LastIndex(rest, '-')
      case None => None
      case Some(j) =>
        var head := rest[..j];
        match LastIndex(head, '-')
        case None => None
        case Some(i) =>
          match (ParseNat(head[i + 1..]), ParseNat(rest[j + 1..]))
          case (Some(now), Some(r)) => Some((head[..i], now, r))
          case _ => None
  }

  /** A package code determines the batch id, the timestamp and the suffix
      it was made from; in particular the batch id follows the prefix. */
  lemma ParsePackageCodeRoundTrip(batchId: Id, now: nat, r: nat)
    ensures ParsePackageCode(PackageCode(batchId, now, r)) == Some((batchId, now, r))
  {
    var a, c := NatToString(now), NatToString(r);
    var code := PackageCode(batchId, now, r);
    var head := batchId + ['-'] + a;
    assert code[..4] == CodePrefix;
    assert code[4..] == head + ['-'] + c;
    NoSeparatorInDigits(now, '-');
    NoSeparatorInDigits(r, '-');
    LastIndexBefore(head, '-', c);
    LastIndexBefore(batchId, '-', a);
    assert (head + ['-'] + c)[..|head|] == head;
    assert (head + ['-'] + c)[|head| + 1..] == c;
    assert head[..|batchId|] == batchId;
    assert head[|batchId| + 1..] == a;
    ParseRendered(now);
    ParseRendered(r);
  }

  /** The batch id sits right after the prefix of every generated code. */
  lemma PackageCodeStartsWithBatch(batchId: Id, now: nat, r: nat)
    ensures var code := PackageCode(batchId, now, r);
      && code[..|CodePrefix|] == CodePrefix
      && code[|CodePrefix|..|CodePrefix| + |batchId|] == batchId
      && code[|CodePrefix| + |batchId|] == '-'
  {
  }

  const QrPrefix: string := "https://traceability-app.com/package/"

  /** The tracking URL the create handler stores as `qrCode`
      (controllers/package.js:25, 30). */
  function QrPayload(id: Id): string {
    QrPrefix + id
  }

  /** Reads the package id back out of a tracking URL. */
  function ParseQrPayload(url: string): (r: Option<Id>)
    ensures r.Some? <==> |url| >= |QrPrefix| && url[..|QrPrefix|] == QrPrefix
  {
    if |url| >= |QrPrefix| && url[..|QrPrefix|] == QrPrefix then Some(url[|QrPrefix|..]) else None
  }

  /** Every tracking URL names exactly the package it was made for. */
  lemma QrPayloadRoundTrip(id: Id)
    ensures ParseQrPayload(QrPayload(id)) == Some(id)
  {
    assert QrPayload(id)[..|QrPrefix|] == QrPrefix;
    assert QrPayload(id)[|QrPrefix|..] == id;
  }

  lemma QrPayloadInjective(a: Id, b: Id)
    requires QrPayload(a) == QrPayload(b)
    ensures a == b
  {
    QrPayloadRoundTrip(a);
    QrPayloadRoundTrip(b);
  }

  /** The pre-save hook (models/package.js:39-44): a missing or empty code
      is generated from the batch id, the clock and the random draw; a
      present code is kept. Nothing else changes. */
  function PreSave(p: Package, env: Entropy): (p': Package)
    ensures p' == p.(packageCode := p'.packageCode)
    ensures Filled(p.packageCode) ==> p' == p
    ensures !Filled(p.packageCode) ==>
      p'.packageCode.Some? &&
      ParsePackageCode(p'.packageCode.value) == Some((p.batch, env.now, BatchSchema.RandomSuffix(env.random)))
    ensures Filled(p'.packageCode)
  {
    ParsePackageCodeRoundTrip(p.batch, env.now, BatchSchema.RandomSuffix(env.random));
    if Filled(p.packageCode) then p
    else p.(packageCode := Some(PackageCode(p.batch, env.now, BatchSchema.RandomSuffix(env.random))))
  }

  /** The `required` and `min` rules (models/package.js:11-32). */
  predicate SchemaValid(p: Package) {
    && p.batch != ""
    && p.weight.Some? && p.weight.value >= WeightMin
    && p.user != ""
  }

  /** No other package carries `code`. */
  predicate CodeFree(packages: map<Id, Package>, id: Id, code: Option<string>) {
    forall other :: other in packages && other != id && Filled(packages[other].packageCode) ==>
      packages[other].packageCode != code
  }

  /** The unique index on `packageCode` (models/package.js:20) over a
      collection. */
  predicate UniqueCodes(packages: map<Id, Package>) {
    forall i, j :: i in packages && j in packages && i != j && Filled(packages[i].packageCode) ==>
      packages[i].packageCode != packages[j].packageCode
  }

  /** `pkg.save()` of document `id` into `packages`: validation, then the
      hook, then the unique index. Absent means the save threw. */
  function Save(p: Package, id: Id, env: Entropy, packages: map<Id, Package>): (r: Option<Package>)
    ensures r.Some? <==> SchemaValid(p) && CodeFree(packages, id, PreSave(p, env).packageCode)
    ensures r.Some? ==> r.value == PreSave(p, env) && SchemaValid(r.value) && Filled(r.value.packageCode)
  {
    if !SchemaValid(p) then None
    else
      var p' := PreSave(p, env);
      if CodeFree(packages, id, p'.packageCode) then Some(p') else None
  }

  /** A successful save keeps every package code in the collection unique. */
  lemma SaveKeepsCodesUnique(p: Package, id: Id, env: Entropy, packages: map<Id, Package>)
    requires UniqueCodes(packages)
    requires Save(p, id, env, packages).Some?
    ensures UniqueCodes(packages[id := Save(p, id, env, packages).value])
  {
    var saved := Save(p, id, env, packages).value;
    var after := packages[id := saved];
    forall i, j | i in after && j in after && i != j && Filled(after[i].packageCode)
      ensures after[i].packageCode != after[j].packageCode
    {
      if i == id {
        assert Filled(saved.packageCode);
      }
    }
  }

  /** Saving a saved package again, with only fields other than the code
      and the validated ones changed, succeeds and stores it unchanged: the
      second `save` of the create handler (controllers/package.js:30-31)
      cannot fail. */
  lemma ResaveSucceeds(p: Package, id: Id, env: Entropy, env': Entropy, packages: map<Id, Package>, qr: Option<string>)
    requires Save(p, id, env, packages).Some?
    ensures var q := Save(p, id, env, packages).value.(qrCode := qr);
      Save(q, id, env', packages) == Some(q)
  {
  }

  /** Whether `Object.assign` can put `v` under `key` of the package stored
      as `id` without making the following save throw.
      - references and strings take a string or null, the weight a number,
        a boolean or null, the status one of the enumeration's names or null;
      - `__v` takes what the weight takes (Mongoose's number cast), and the
        `timestamps` paths `createdAt` and `updatedAt` a number or null;
      - `_id` only the document's own id: another id makes the save match no
        document, and null cannot be saved;
      - `isNew` only a falsy value: a truthy one makes the save insert the
        same `_id` again, a duplicate key;
      - `save` nothing: the own property shadows the method the handler calls;
      - every other key is dropped by strict mode and always passes. */
  predicate Castable(key: string, v: Value, id: Id) {
    if key == "batch" || key == "user" || key == "packageCode" || key == "qrCode" then v.Str? || v.Null?
    else if key == "weight" || key == "__v" then v.Num? || v.Bool? || v.Null?
    else if key == "status" then v.Null? || (v.Str? && ParseStatus(v.s).Some?)
    else if key == "createdAt" || key == "updatedAt" then v.Num? || v.Null?
    else if key == "_id" then v == Str(id)
    else if key == "isNew" then !Truthy(v)
    else if key == "save" then false
    else true
  }

  /** JavaScript truthiness of a JSON scalar. */
  predicate Truthy(v: Value) {
    match v
    case Num(n) => n != 0.0
    case Str(t) => t != ""
    case Bool(b) => b
    case Null => false
  }

  function RefOf(v: Value): Id {
    if v.Str? then v.s else ""
  }

  function TextOf(v: Value): Option<string> {
    if v.Str? then Some(v.s) else None
  }

  /** Mongoose's number cast: a number is kept and a boolean becomes 1 or 0. */
  function WeightOf(v: Value): Option<real> {
    match v
    case Num(n) => Some(n)
    case Bool(b) => Some(if b then 1.0 else 0.0)
    case _ => None
  }

  function StatusOf(v: Value): Option<Status> {
    if v.Str? then ParseStatus(v.s) else None
  }

  /** `Object.assign(pkg, body)` on the package document stored as `id`:
      each schema key of the body overwrites its field (null unsets it);
      the document's own members and built-in paths are checked, then left
      as they were; every other key is dropped. Absent means the save that
      follows throws. */
  function Assign(p: Package, id: Id, body: Body): (r: Option<Package>)
    ensures r.Some? <==> forall key :: key in body ==> Castable(key, body[key], id)
    ensures r.Some? ==> r.value.batch == (if "batch" in body then RefOf(body["batch"]) else p.batch)
    ensures r.Some? ==> r.value.weight == (if "weight" in body then WeightOf(body["weight"]) else p.weight)
    ensures r.Some? ==> r.value.packageCode == (if "packageCode" in body then TextOf(body["packageCode"]) else p.packageCode)
    ensures r.Some? ==> r.value.qrCode == (if "qrCode" in body then TextOf(body["qrCode"]) else p.qrCode)
    ensures r.Some? ==> r.value.user == (if "user" in body then RefOf(body["user"]) else p.user)
    ensures r.Some? ==> r.value.status == (if "status" in body then StatusOf(body["status"]) else p.status)
    ensures r.Some? && body.Keys !! {"batch", "weight", "packageCode", "qrCode", "user", "status"} ==> r.value == p
  {
    if exists key :: key in body && !Castable(key, body[key], id) then None
    else
      Some(Package(
        if "batch" in body then RefOf(body["batch"]) else p.batch,
        if "weight" in body then WeightOf(body["weight"]) else p.weight,
        if "packageCode" in body then TextOf(body["packageCode"]) else p.packageCode,
        if "qrCode" in body then TextOf(body["qrCode"]) else p.qrCode,
        if "user" in body then RefOf(body["user"]) else p.user,
        if "status" in body then StatusOf(body["status"]) else p.status))
  }

  /** Assigning the same body twice is assigning it once. */
  lemma AssignTwice(p: Package, id: Id, body: Body)
    requires Assign(p, id, body).Some?
    ensures Assign(Assign(p, id, body).value, id, body) == Assign(p, id, body)
  {
  }

  /** A boolean weight is cast, not refused: `true` stores 1 and `false`
      stores 0. */
  lemma BooleanWeightCast(p: Package, id: Id)
    ensures Assign(p, id, map["weight" := Bool(true)]) == Some(p.(weight := Some(1.0)))
    ensures Assign(p, id, map["weight" := Bool(false)]) == Some(p.(weight := Some(0.0)))
  {
  }

  /** The document's own members are reached too: a bad version key, an
      unparsable timestamp, a foreign `_id`, a truthy `isNew` or a `save`
      key make the save throw. */
  lemma BuiltInKeys(p: Package, id: Id, other: Id)
    requires other != id
    ensures Assign(p, id, map["__v" := Str("x")]).None?
    ensures Assign(p, id, map["updatedAt" := Str("not a date")]).None?
    ensures Assign(p, id, map["_id" := Str(other)]).None?
    ensures Assign(p, id, map["isNew" := Bool(true)]).None?
    ensures Assign(p, id, map["save" := Num(1.0)]).None?
  {
    Refused(p, id, "__v", Str("x"));
    Refused(p, id, "updatedAt", Str("not a date"));
    Refused(p, id, "_id", Str(other));
    Refused(p, id, "isNew", Bool(true));
    Refused(p, id, "save", Num(1.0));
  }

  /** A one-key body whose value cannot be put under its key is refused. */
  lemma Refused(p: Package, id: Id, key: string, v: Value)
    requires !Castable(key, v, id)
    ensures Assign(p, id, map[key := v]).None?
  {
    assert key in map[key := v];
  }

  /** The package's own `_id` and a false `isNew` pass and change nothing. */
  lemma HarmlessBuiltInKeys(p: Package, id: Id)
    ensures Assign(p, id, map["_id" := Str(id), "isNew" := Bool(false)]) == Some(p)
  {
    var body := map["_id" := Str(id), "isNew" := Bool(false)];
    assert body.Keys == {"_id", "isNew"};
    assert forall key :: key in body ==> Castable(key, body[key], id);
  }
}
