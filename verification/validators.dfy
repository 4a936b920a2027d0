/** The request validators of validators/batch.js, validators/package.js and
    validators/scan.js as Joi shapes, each with a lemma that reads the shape
    back as a plain statement about which bodies pass. */
module Validators {
  import opened Base
  import opened Joi
  import opened Text

  const NonEmptyText: Kind := Text(false)
  const AtLeastOne: Kind := Number(Some(1.0))

  /** createBatchValidator (validators/batch.js:3-10). */
  const CreateBatch: Shape := map[
    "crop" := Rule(NonEmptyText, true),
    "quantity" := Rule(AtLeastOne, true),
    "collectionLocation" := Rule(NonEmptyText, true),
    "latitude" := Rule(Number(None), false),
    "longitude" := Rule(Number(None), false)]

  /** updateBatchValidator (validators/batch.js:12-19). */
  const UpdateBatch: Shape := map[
    "farmer" := Rule(NonEmptyText, false),
    "crop" := Rule(NonEmptyText, false),
    "quantity" := Rule(AtLeastOne, false),
    "collectionLocation" := Rule(NonEmptyText, false),
    "latitude" := Rule(Number(None), false),
    "longitude" := Rule(Number(None), false)]

  /** The create shape the batch schema needs: the farmer reference and the
      crop under the schema's own key `cropType`. */
  const CreateBatchIntended: Shape := map[
    "farmer" := Rule(NonEmptyText, true),
    "cropType" := Rule(NonEmptyText, true),
    "quantity" := Rule(AtLeastOne, true),
    "collectionLocation" := Rule(NonEmptyText, true),
    "latitude" := Rule(Number(None), false),
    "longitude" := Rule(Number(None), false)]

  /** createPackageValidator (validators/package.js:4-7). */
  const CreatePackage: Shape := map[
    "batch" := Rule(NonEmptyText, true),
    "weight" := Rule(AtLeastOne, true)]

  /** updatePackageValidator (validators/package.js:10-12). */
  const UpdatePackage: Shape := map["weight" := Rule(AtLeastOne, false)]

  /** The status names both scan validators accept. */
  const StatusNames: set<string> := {"available", "sold", "in-transit"}

  /** createScanValidator (validators/scan.js:3-9). */
  const CreateScan: Shape := map[
    "package" := Rule(NonEmptyText, true),
    "scannedBy" := Rule(NonEmptyText, false),
    "location" := Rule(Text(true), false),
    "status" := Rule(OneOf(StatusNames), false),
    "updateFirst" := Rule(Boolean, false)]

  /** updateScanValidator (validators/scan.js:11-15). */
  const UpdateScan: Shape := map[
    "scannedBy" := Rule(NonEmptyText, false),
    "location" := Rule(NonEmptyText, false),
    "status" := Rule(OneOf(StatusNames), false)]

  // Plain readings of a body, independent of the shape interpreter.

  predicate FilledText(body: Body, key: string) {
    key in body && body[key].Str? && body[key].s != ""
  }

  predicate OptionalText(body: Body, key: string) {
    key !in body || (body[key].Str? && body[key].s != "")
  }

  predicate CountAtLeastOne(body: Body, key: string) {
    key in body && body[key].Num? && 1.0 <= body[key].n <= MaxSafe
  }

  predicate OptionalCountAtLeastOne(body: Body, key: string) {
    key !in body || (body[key].Num? && 1.0 <= body[key].n <= MaxSafe)
  }

  predicate OptionalNumber(body: Body, key: string) {
    key !in body || (body[key].Num? && -MaxSafe <= body[key].n <= MaxSafe)
  }

  predicate OptionalStatus(body: Body) {
    "status" !in body || (body["status"].Str? && body["status"].s in StatusNames)
  }

  /** Batch creation needs a crop, a number quantity of at least 1 and a
      collection location; latitude and longitude are optional numbers; no
      other key, `farmer` and `cropType` included, is accepted. */
  lemma CreateBatchMeaning(body: Body)
    ensures Conforms(body, CreateBatch) <==>
      && body.Keys <= {"crop", "quantity", "collectionLocation", "latitude", "longitude"}
      && FilledText(body, "crop")
      && CountAtLeastOne(body, "quantity")
      && FilledText(body, "collectionLocation")
      && OptionalNumber(body, "latitude")
      && OptionalNumber(body, "longitude")
  {
  }

  /** The create shape the schema needs asks for the farmer and `cropType`
      as non-empty strings besides the quantity and the location. */
  lemma CreateBatchIntendedMeaning(body: Body)
    ensures Conforms(body, CreateBatchIntended) <==>
      && body.Keys <= {"farmer", "cropType", "quantity", "collectionLocation", "latitude", "longitude"}
      && FilledText(body, "farmer")
      && FilledText(body, "cropType")
      && CountAtLeastOne(body, "quantity")
      && FilledText(body, "collectionLocation")
      && OptionalNumber(body, "latitude")
      && OptionalNumber(body, "longitude")
  {
  }

  /** A batch update may omit every key; a quantity it carries is at least 1. */
  lemma UpdateBatchMeaning(body: Body)
    ensures Conforms(body, UpdateBatch) <==>
      && body.Keys <= {"farmer", "crop", "quantity", "collectionLocation", "latitude", "longitude"}
      && OptionalText(body, "farmer")
      && OptionalText(body, "crop")
      && OptionalCountAtLeastOne(body, "quantity")
      && OptionalText(body, "collectionLocation")
      && OptionalNumber(body, "latitude")
      && OptionalNumber(body, "longitude")
  {
  }

  /** Package creation needs a batch reference and a weight of at least 1,
      and nothing else: the owner, the code and the QR payload cannot be
      supplied. */
  lemma CreatePackageMeaning(body: Body)
    ensures Conforms(body, CreatePackage) <==>
      && body.Keys <= {"batch", "weight"}
      && FilledText(body, "batch")
      && CountAtLeastOne(body, "weight")
  {
  }

  /** A package update may carry only a weight, and it is at least 1. */
  lemma UpdatePackageMeaning(body: Body)
    ensures Conforms(body, UpdatePackage) <==>
      body.Keys <= {"weight"} && OptionalCountAtLeastOne(body, "weight")
  {
  }

  /** Scan creation needs a package reference; a status it carries is one of
      the three names; the location may be the empty string. */
  lemma CreateScanMeaning(body: Body)
    ensures Conforms(body, CreateScan) <==>
      && body.Keys <= {"package", "scannedBy", "location", "status", "updateFirst"}
      && FilledText(body, "package")
      && OptionalText(body, "scannedBy")
      && ("location" !in body || body["location"].Str?)
      && OptionalStatus(body)
      && ("updateFirst" !in body || body["updateFirst"].Bool?
          || (body["updateFirst"].Str? && Lower(body["updateFirst"].s) in {"true", "false"}))
  {
  }

  /** A scan update carries at most a label, a non-empty location and a
      status among the three names; it cannot name another package. */
  lemma UpdateScanMeaning(body: Body)
    ensures Conforms(body, UpdateScan) <==>
      && body.Keys <= {"scannedBy", "location", "status"}
      && OptionalText(body, "scannedBy")
      && OptionalText(body, "location")
      && OptionalStatus(body)
  {
  }

  /** The empty location passes the create shape and fails the update shape. */
  lemma EmptyLocationOnlyOnCreate()
    ensures Conforms(map["package" := Str("p1"), "location" := Str("")], CreateScan)
    ensures !Conforms(map["location" := Str("")], UpdateScan)
  {
    var b := map["location" := Str("")];
    assert "location" in b;
  }

  /** A quantity of 10^16 is beyond the safe-integer range: Joi answers
      `number.unsafe` although the quantity is at least 1. */
  lemma UnsafeQuantityRefused()
    ensures var body := map["crop" := Str("maize"), "quantity" := Num(10000000000000000.0), "collectionLocation" := Str("K")];
      !Conforms(body, CreateBatch)
  {
    var body := map["crop" := Str("maize"), "quantity" := Num(10000000000000000.0), "collectionLocation" := Str("K")];
    assert "quantity" in body;
  }

  /** The string "true" passes as `updateFirst`: Joi converts it. */
  lemma BooleanStringAccepted()
    ensures Conforms(map["package" := Str("p"), "updateFirst" := Str("true")], CreateScan)
  {
    assert Lower("true") == "true";
  }
}
