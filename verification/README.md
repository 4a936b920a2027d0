# Castor Care traceability core in Dafny

A model of the traceability core of the Castor Care backend: the
Batch → Package → Scan chain, the farmer records batches are made for, and
the ownership rules that gate every change. Each collection is a map from
document id to an immutable record (`Ledger.Store`). Each HTTP handler is a
pure function from a store and a request to a `Ledger.Reply`, which holds
the status code (201, 200, 403, 404, 422 or 500) and the store afterwards.
`Date.now()`, `Math.random()` and fresh document ids are parameters
(`Base.Entropy`, `newId`).

Modules, in dependency order:

- `Base`: options, ids, the user record, the clock and random inputs.
- `Text`: decimal rendering and parsing, zero padding, JavaScript `trim`,
  ASCII lower-casing, and index search.
- `Joi`: the part of Joi object validation that the request validators
  use.
- `Validators`: the six request shapes, each with a lemma that reads it as
  a plain statement about bodies.
- `BatchSchema`, `PackageSchema`, `ScanSchema`: the three documents, their
  derivation hooks, their `required`/`min`/`enum`/`unique` rules, and
  `save` (validation, then the pre-save hook, then the unique index).
- `Access`: the three ownership rules. They are kept apart because they
  differ.
- `FarmerSchema`, `Ledger`: the farmer record, the store, the reply, and the
  store invariant (unique codes, labelled scans).
- `BatchController`, `PackageController`, `ScanController`,
  `FarmerController`: the handlers.

Every mutating batch, package and scan handler comes with a lemma that it keeps `Ledger.Invariant`.
Create handlers come with an inverse: deleting what was just created
restores the store. The one exception is package deletion, which leaves the
batch depleted. Batch and farmer updates come with idempotence lemmas.

Three facts about the scan handlers shape the model:

- `createScan` (controllers/scan.js:16-21) stores the status the body
  supplies, also for an anonymous scan, and never writes the package.
- `POST /scans` is routed without `isAuthenticated` (routes/scan.js:7), so
  `req.auth` is undefined there and every routed scan is stored with user
  `null`. By controllers/scan.js:73-74 and 111-112 only an admin can then
  update or delete it (`ScanController.RoutedScanNeedsAdmin`). The
  `Some` caller of `ScanController.CreateScan` describes an authenticated
  create that the router does not offer.
- `updateScan` (controllers/scan.js:84-91) assigns `pkg.status`, but the
  package schema (models/package.js:9-35) declares no `status` path, so
  strict mode drops the write. The model gives `PackageSchema.Package` a
  `status` field and takes a `ScanController.StatusPath`: `Dropped` is the
  code as written, `Kept` the evident intent (see Findings).

## Model

| member | source | states |
|---|---|---|
| `Validators.CreateBatchMeaning` | validators/batch.js:3-10 | a create body passes iff it has exactly crop, a number quantity between 1 and 2^53 − 1, a collection location and optional coordinates within ±(2^53 − 1), with no `farmer` or `cropType` |
| `Validators.UpdateBatchMeaning` | validators/batch.js:12-19 | every update key is optional; a quantity present is a number between 1 and 2^53 − 1; no other key passes |
| `Validators.UnsafeQuantityRefused` | validators/batch.js:5 | a quantity of 10^16, beyond the safe-integer range, is refused |
| `Validators.CreateBatchIntendedMeaning` | models/batch.js:96-102 | the shape the schema needs requires farmer and cropType as non-empty strings besides a quantity between 1 and 2^53 − 1 and a location |
| `Validators.CreatePackageMeaning` | validators/package.js:4-7 | a package create body is exactly a non-empty batch string and a weight between 1 and 2^53 − 1; owner, code and QR cannot be supplied |
| `Validators.UpdatePackageMeaning` | validators/package.js:10-12 | the update shape admits only an optional weight between 1 and 2^53 − 1 |
| `Validators.CreateScanMeaning` | validators/scan.js:3-9 | a scan create body needs a package; a status is one of the three names; the location may be ""; `updateFirst` is a boolean or the string "true" or "false" in any case |
| `Validators.BooleanStringAccepted` | validators/scan.js:8 | `updateFirst: "true"` passes as a boolean |
| `Validators.UpdateScanMeaning` | validators/scan.js:11-15 | a scan update has no package key, non-empty label and location when present, and a status among the three names |
| `Validators.EmptyLocationOnlyOnCreate` | validators/scan.js:6-13 | an empty location passes the create shape and fails the update shape |
| `Text.Trim` | models/batch.js:98 | the trim setter's result is no longer than the input and neither starts nor ends with JavaScript white space |
| `Text.TrimIsInnerSlice` | models/batch.js:98 | the input is an all-white-space prefix, the trimmed result, and an all-white-space suffix |
| `Text.TrimIdempotent` | models/batch.js:100 | trimming a trimmed string changes nothing |
| `Text.TrimEmptyIffAllSpace` | models/batch.js:100 | a trimmed location is empty exactly when the input was all white space |
| `Text.PadStart` | models/batch.js:80-82 | `padStart` keeps a long enough string, otherwise reaches the width with the fill in front of the original |
| `Text.PaddedIsFixed` | models/batch.js:80-82 | padding the decimal form of n < 10^w to w with "0" gives exactly w digits of n |
| `Text.ParseRendered` | models/batch.js:122 | the decimal form of a number parses back to it |
| `BatchSchema.GpsFromCoords` | models/batch.js:76-83 | the coordinate code is 11 characters and reads back as (abs(lat·1000) mod 1000, abs(lng·10000) mod 10000), padded to exactly 3 and 4 digits |
| `BatchSchema.ParseGaCode` | models/batch.js:80-82 | a code made from parts below 1000 and 10000 reads back to those parts |
| `BatchSchema.CharCode` | models/batch.js:88 | `charCodeAt(0)` of a code point is a UTF-16 unit below 0x10000 |
| `BatchSchema.GpsFromAddress` | models/batch.js:86-92 | the address code is 11 characters, reads back as (h mod 1000, h mod 10000) for the code-unit sum h, and its last three digits repeat its first part |
| `BatchSchema.AddressHashConcat` | models/batch.js:88 | the hash of a concatenation is the sum of the hashes |
| `BatchSchema.AddressHashPermutation` | models/batch.js:88 | addresses with the same multiset of characters have the same hash |
| `BatchSchema.AddressCodePermutation` | models/batch.js:86-92 | any rearrangement of an address gives the same geocode |
| `BatchSchema.RandomSuffix` | models/batch.js:122 | `Math.floor(Math.random() * 1000)` is between 0 and 999 |
| `BatchSchema.ParseBatchCodeRoundTrip` | models/batch.js:122 | `BATCH-<now>-<r>` reads back to exactly now and r |
| `BatchSchema.PreSave` | models/batch.js:112-126 | only the geocode and the code change; present values are kept; coordinates are used only when both are non-zero, else a non-empty location, else the geocode stays unset; a new code encodes the clock and a suffix ≤ 999 |
| `BatchSchema.Save` | models/batch.js:94-107 | a save succeeds iff the required fields are set, the quantity meets the floor, and the hook's code is not used by another batch; it stores the hook's result |
| `BatchSchema.SaveKeepsCodesUnique` | models/batch.js:104 | a successful save keeps batch codes unique |
| `ScanSchema.ParseStatus` | models/scan.js:25-30 | a status string is accepted iff it is available, sold or in-transit, and maps back to its name |
| `ScanSchema.StatusNameRoundTrip` | models/scan.js:27 | every status parses back from its name |
| `ScanSchema.UserLabelShape` | models/scan.js:54-56 | a derived label is the name (or "Unnamed"), " (", the lower-cased role (or "user"), ")" |
| `ScanSchema.PreSave` | models/scan.js:47-67 | only the label changes; a new scan with a user and an empty or "Anonymous" label takes the looked-up label, "Anonymous" when the lookup throws, or is unchanged when no user is found; without a user such a label becomes "Anonymous (guest)" on any save; other labels are kept |
| `ScanSchema.LookupAsWritten` | models/scan.js:51 | the lookup as written finds the role but never a name |
| `ScanSchema.LookupIntended` | models/scan.js:51-56 | the intended lookup returns the user's name and role |
| `ScanSchema.AsWrittenLabelIsUnnamed` | models/scan.js:51-56 | as written, every label derived from a found user starts with "Unnamed" |
| `ScanSchema.LabelForAma` | models/scan.js:51-56 | user Ama with role user is labelled "Unnamed (user)" as written and "Ama (user)" as intended |
| `ScanSchema.IntendedLabelUsesName` | models/scan.js:48-57 | with the intended lookup a new scan by a named user is labelled name + " (" + lower-cased role + ")" |
| `ScanSchema.Save` | models/scan.js:5-14 | a scan save succeeds iff package and label are set, and then its label is non-empty |
| `PackageSchema.ParsePackageCodeRoundTrip` | models/package.js:5-7 | `PKG-<batch>-<now>-<r>` reads back to exactly that batch id, clock and suffix, even when the id contains dashes |
| `PackageSchema.PackageCodeStartsWithBatch` | models/package.js:6 | the batch id follows the "PKG-" prefix directly, then a dash |
| `PackageSchema.ParseQrPayload` | controllers/package.js:25 | a URL is a tracking payload iff it starts with the tracking prefix |
| `PackageSchema.QrPayloadRoundTrip` | controllers/package.js:25 | the tracking URL of a package id reads back to that id |
| `PackageSchema.QrPayloadInjective` | controllers/package.js:25-30 | different packages get different QR payloads |
| `PackageSchema.PreSave` | models/package.js:39-44 | a present code is kept; a missing one encodes the batch id, the clock and a suffix ≤ 999; nothing else changes |
| `PackageSchema.Save` | models/package.js:9-44 | a save succeeds iff batch and user are set, the weight is ≥ 1 and the hook's code is free |
| `PackageSchema.SaveKeepsCodesUnique` | models/package.js:21-24 | a successful save keeps package codes unique |
| `PackageSchema.ResaveSucceeds` | controllers/package.js:30-31 | the second save of the create handler, which only sets the QR payload, cannot fail and stores the package unchanged otherwise |
| `PackageSchema.Assign` | controllers/package.js:93 | `Object.assign` of a raw body sets exactly the schema keys it carries, null unsetting; it fails iff a value cannot be saved under its key (a boolean weight casts to 1 or 0; `__v`, the timestamps, `_id`, `isNew` and `save` are checked too); other keys are dropped |
| `PackageSchema.BuiltInKeys` | models/package.js:34 | a non-numeric `__v`, an unparsable `updatedAt`, a foreign `_id`, a truthy `isNew` and a `save` key each make the assignment fail |
| `PackageSchema.HarmlessBuiltInKeys` | controllers/package.js:93-94 | the package's own `_id` and a false `isNew` pass and leave the package unchanged |
| `PackageSchema.AssignTwice` | controllers/package.js:93 | assigning the same body twice equals assigning it once |
| `PackageSchema.BooleanWeightCast` | models/package.js:16-20 | a weight of `true` is stored as 1 and `false` as 0 |
| `Access.OwnerString` | controllers/scan.js:74 | `String(user)` is the id, or "null" for an anonymous scan |
| `Access.RulesNested` | controllers/package.js:88-89 | the farmer rule implies the batch rule, which implies the package and scan rule |
| `Access.RulesDiffer` | controllers/batch.js:62-65 | role "Admin" may change another's package but matches no other's batch; an admin matches another's batch but not their farmer |
| `Access.AnonymousScanNeedsAdmin` | controllers/scan.js:73-74 | for any real caller id, an anonymous scan may be changed iff the caller is an admin |
| `Access.NonAdminNeedsOwnership` | controllers/scan.js:111-112 | without the admin role, all three rules reduce to ownership |
| `BatchController.CreateWith` | controllers/batch.js:5-22 | 422 iff the shape fails; 201 iff the id is free and the save succeeds; otherwise 500; only 201 changes the store, adding the saved batch |
| `BatchController.CreateBatchAsWritten` | controllers/batch.js:5-22 | as written, no request creates a batch: 422 for an invalid body and 500 for a valid one, with the store unchanged |
| `BatchController.CreateBatchAsWrittenRefusesValidBody` | validators/batch.js:3-10 | a body the validator accepts is answered with 500 |
| `BatchController.CreateBatch` | controllers/batch.js:13-18 | with the shape the schema needs, a created batch is owned by the caller and holds the body's farmer, trimmed crop and location, quantity ≥ 1, coordinates, a geocode and a code that encodes the clock; only that batch is added |
| `BatchController.CreateBatchSucceeds` | controllers/batch.js:13-18 | a valid body with non-blank crop and location, a fresh id and a free code is created |
| `BatchController.GetBatch` | controllers/batch.js:42-54 | a read: 200 iff the batch exists, else 404, store unchanged |
| `BatchController.ApplyUpdate` | controllers/batch.js:67-69 | the update sets exactly the schema fields the body carries (the location trimmed); crop, owner, geocode and code stay |
| `BatchController.UpdateBatch` | controllers/batch.js:57-79 | 422 iff invalid; 404 iff the batch is missing or neither owned nor exact-case admin; never 403; 200 changes only that batch |
| `BatchController.ApplyUpdateIdempotent` | controllers/batch.js:67-69 | applying the same update twice equals applying it once |
| `BatchController.UpdateBatchIdempotent` | controllers/batch.js:57-79 | repeating a successful update returns the same reply and store |
| `BatchController.UpdateBatchIgnoresCrop` | validators/batch.js:14 | an update that carries only a crop succeeds and changes nothing |
| `BatchController.DeleteBatch` | controllers/batch.js:81-99 | 200 iff the batch exists and the query matches, removing only that batch (packages stay); else 404 and nothing changes |
| `BatchController.CreateThenDeleteBatch` | controllers/batch.js:88 | deleting a batch one just created restores the original store |
| `BatchController.BatchHandlersKeepInvariant` | models/batch.js:104 | create, update and delete keep the store invariant |
| `PackageController.Fresh` | controllers/package.js:18-21 | the new package holds the body's batch and weight and the caller as owner, with no code, QR or status |
| `PackageController.Deplete` | controllers/package.js:36-37 | the new quantity is max(0, q − w), with a missing q or w read as 0 |
| `PackageController.DepleteTwice` | controllers/package.js:36-37 | two depletions by non-negative weights equal one by their sum |
| `PackageController.DepleteBatch` | controllers/package.js:34-39 | the depleted batch is saved iff its save succeeds, and then is the pre-save hook's result on the batch with the depleted quantity: owner, farmer, code and every other field kept |
| `PackageController.Stored` | controllers/package.js:18-31 | the stored package is the saved one with the tracking URL of its id as QR |
| `PackageController.CreatePackageWith` | controllers/package.js:9-48 | 422 iff invalid; otherwise the package is stored iff the id is free and the save succeeds; the parent batch, when present, is depleted iff its save succeeds, and 201 follows only then; scans and farmers never change |
| `PackageController.CreatePackageAsWritten` | controllers/package.js:34 | as written, every valid request gets 500, but the package stays stored and the batch is untouched |
| `PackageController.CreatePackage` | controllers/package.js:34-39 | with the import, a created package is owned by the caller and coded from its batch; the parent's quantity becomes max(0, q − w) |
| `PackageController.CreatePackageClamped` | controllers/package.js:37 | with a floor of 0, a created package's parent holds max(0, q − w) |
| `PackageController.DepletionToZeroFails` | models/batch.js:99 | with the schema's min 1, a 30 kg package cut from a 30 kg batch gets 500; the package is kept and the batch is unchanged |
| `PackageController.ClampedDepletionSucceeds` | controllers/package.js:36-38 | with the floor at 0, that request succeeds for any coded, otherwise valid batch |
| `PackageController.GetPackage` | controllers/package.js:70-80 | a read: 200 iff the package exists, else 404 |
| `PackageController.UpdatePackage` | controllers/package.js:83-99 | 404 iff missing; 403 iff present and the caller is neither owner nor admin in any case; never 422; 200 iff every key of the raw body can be assigned (schema casts and the built-in members `__v`, timestamps, `_id`, `isNew`, `save`) and the save succeeds, replacing only that package |
| `PackageController.UpdatePackageBuiltInKeysFail` | controllers/package.js:93-97 | an allowed caller whose body sets `__v` to "x", `updatedAt` to "not a date", a foreign `_id`, `isNew` to true or `save` gets 500 and the store is unchanged |
| `PackageController.UpdatePackageSkipsValidator` | controllers/package.js:93 | a weight of 0.5, which the validator would answer with 422, gets 500 |
| `PackageController.UpdatePackageReassignsOwner` | controllers/package.js:93 | the owner can hand the package to another user through the raw body, and is then refused |
| `PackageController.DeletePackage` | controllers/package.js:101-116 | the same 404 and 403 gates; 200 removes only the package |
| `PackageController.CreateThenDeleteKeepsDepletion` | controllers/package.js:111 | for either batch step (the floor of 0 or the schema's min), deleting a package one just created restores the packages but leaves the batches as the create left them |
| `PackageController.PackageHandlersKeepInvariant` | models/package.js:21-24 | create, update and delete keep the store invariant |
| `ScanController.PackageRef` | controllers/scan.js:11-14 | an absent or null package reference finds nothing; only a string is looked up |
| `ScanController.LocationInput` | models/scan.js:15-19 | a string location is stored trimmed; absent or null stores none |
| `ScanController.StatusInput` | models/scan.js:25-30 | a status is stored iff it is one of the three names; any other value fails the enum |
| `ScanController.CreatorId` | controllers/scan.js:20 | the scan's user is the caller's id, or none for an anonymous call |
| `ScanController.CreateScan` | controllers/scan.js:8-31 | 404 iff the reference is absent or names no package; 201 iff the package exists, the fields cast and the id is free; the scan holds the package, the caller, the status as supplied (even anonymously), the trimmed location, the guest label and no history; packages never change |
| `ScanController.AnonymousStatusIsKept` | controllers/scan.js:16-21 | an anonymous "sold" scan is stored as sold and leaves its package as it was |
| `ScanController.GetScan` | controllers/scan.js:50-62 | a read: 200 iff the scan exists, else 404 |
| `ScanController.StatusUpdate` | validators/scan.js:14 | an update asks for a status iff it carries one of the three names |
| `ScanController.Revised` | controllers/scan.js:81-91 | location (trimmed), label and status change only when supplied; package, user and history stay |
| `ScanController.Stamped` | controllers/scan.js:88 | the package status after `pkg.status = status`: the new status when the schema keeps the path, the old one when strict mode drops it |
| `ScanController.PackagesAfter` | controllers/scan.js:85-90 | a status is written onto an existing package through its save; a missing package is skipped |
| `ScanController.Finish` | controllers/scan.js:94 | the non-new save of the revised scan stores it with the hook's label iff package and label are set |
| `ScanController.UpdateScan` | controllers/scan.js:65-103 | 422, 404 and 403 gates in that order, each with nothing changed; on 200 only the fields supplied change and a status reaches the package; on 500 the scan is unchanged but the package may already be saved |
| `ScanController.StatusPropagates` | controllers/scan.js:85-92 | with the status path kept, a caller allowed to change the scan who marks it sold in a well-formed store finds both the scan and its package sold |
| `ScanController.StatusDroppedAsWritten` | controllers/scan.js:87-88 | as written, the same request marks the scan sold but leaves the packages as they were, so a package without a status stays without one |
| `ScanController.RoutedScanNeedsAdmin` | routes/scan.js:7 | a scan created by the unauthenticated route has no user, and a non-admin caller gets 403 on updating or deleting it |
| `ScanController.DeleteScan` | controllers/scan.js:106-123 | the same 404 and 403 gates; 200 removes only the scan |
| `ScanController.AnonymousScanRoundTrip` | controllers/scan.js:111-118 | an anonymous scan is refused to a non-admin, and an admin's delete restores the store |
| `ScanController.ScanHandlersKeepInvariant` | models/scan.js:10-14 | create (with or without a caller), update (on either status path) and delete keep the store invariant |
| `FarmerController.RegisterFarmer` | controllers/farmer.js:4-24 | 422 iff rejected; 201 iff the id is free and a first name is given; the farmer is owned by the caller and holds the validated profile |
| `FarmerController.GetFarmer` | controllers/farmer.js:41-52 | a read: 200 iff the farmer exists, else 404 |
| `FarmerController.UpdateFarmer` | controllers/farmer.js:54-80 | 422 iff rejected; 404 iff the farmer is missing or not the caller's, whatever the role; 200 sets the supplied fields, keeps the others and the owner |
| `FarmerController.DeleteFarmer` | controllers/farmer.js:83-96 | 200 iff the farmer is the caller's, removing only it; else 404 and nothing changes |
| `FarmerController.AdminCannotTouchOthersFarmer` | controllers/farmer.js:63-67 | an admin gets 404 on another user's farmer for update and delete |
| `FarmerController.UpdateFarmerIdempotent` | controllers/farmer.js:63-69 | repeating a farmer update returns the same reply and store |
| `FarmerController.RegisterThenDeleteFarmer` | controllers/farmer.js:85-88 | deleting a farmer one just registered restores the store |

## Left out

- The list handlers (`getBatches`, `getPackages`, `getScans`, `getFarmers`) are left out. They pass `JSON.parse` of the query straight to Mongo, together with sort, limit, skip and populate: query semantics of the library.
- The user module, authentication, password hashing, tokens, mail and the message queue are left out: opaque primitives. The verified token is the `Access.Principal` parameter, and the users collection is read only by the scan hook.
- `Access.Principal`: its `role` is an assumption about the authentication middleware, which is not part of this model. The only tokens the user controller issues carry just the id (controllers/user.js:66-70), so unless that middleware adds a role, `req.auth.role` is undefined, every admin branch is unreachable, and all three rules reduce to ownership (`Access.NonAdminNeedsOwnership`). Then no caller can update or delete a scan created through the route (`ScanController.RoutedScanNeedsAdmin`, for any non-admin caller).
- Request bodies are flat maps of JSON scalars (`Joi.Value`, numbers as reals). Objects and arrays under a key are not represented, so the promises of `ScanController.CreateScan` and `PackageController.UpdatePackage`, whose raw values reach Mongoose unvalidated (controllers/scan.js:11-14, controllers/package.js:93), cover only such bodies. For instance `{"package": {"$ne": null}}` would make `findById` match some package and the create's cast throw, and `{"batch": {"_id": "<id>"}}` would be cast to that id.
- Farmer request validation is not modelled, because it needs Joi's e-mail format. Its verdict is a parameter of the farmer handlers.
- File uploads (`image: req.file?.path`) are not modelled: storage I/O.
- Concurrency is not modelled: each handler is one sequential step over the store. The lost updates of the non-atomic two-document writes are therefore not represented. The order of those writes is modelled (package before scan, package before batch).
- Mongoose's ObjectId cast errors are not modelled: ids are arbitrary strings. The `toJSON` plugin and `history` entries are left out because no handler writes them. The `timestamps` values are not stored: only the cast of a `createdAt` or `updatedAt` that the raw body of `updatePackage` carries is modelled (`PackageSchema.Castable`).
- models/scan.js calls `ScanSchema.plugin(toJSON)` at line 45 without importing `toJSON`. The model assumes the module loads.
- The commented-out legacy batch schema is not modelled.
- `BatchSchema.PreSave`: the coordinates are scaled as `floor(lat·1000)` and `floor(lng·10000)` in exact real arithmetic, not IEEE doubles. This can differ from the source for values that are not exactly representable.
- `PackageSchema.Assign`: a number or boolean under a string path counts as a cast failure (500). Mongoose would store its string form. A string under `weight` also counts as a failure, where Mongoose would parse numeric strings.
- `PackageSchema.Assign`: of the document's own members only `__v`, `createdAt`, `updatedAt`, `_id`, `isNew` and `save` are modelled. Other members a raw body could overwrite (the `id` virtual, `$`-prefixed internals, methods that `save` calls) are treated as dropped. A string under a timestamp counts as a cast failure, where Mongoose would accept a string that `Date` parses.
- `PackageController.UpdatePackage`: inherits the `PackageSchema.Assign` approximations above, so its 200 is promised for bodies whose unmodelled members would make the source's save throw.
- `PackageSchema.Assign`: a `status` key is cast against the status names, because the model's package declares the status path (the corrected schema). As written, strict mode drops the key, so `{"status": "bogus"}` gets 200 there and 500 here, and `{"status": "sold"}` is not stored there.
- `PackageController.Deplete`: `q − w` is exact real arithmetic, not an IEEE double. In JavaScript 2.3 − 1.3 is 0.9999999999999998, so such a batch fails `min: 1` where the model stores 1.
- `PackageController.DepleteTwice`: holds for exact reals only. With doubles, 3.3 − 1.1 − 1.2 and 3.3 − (1.1 + 1.2) differ in the last bit.
- `PackageController.CreatePackage`: the parent's new quantity is computed in exact reals, so a save the model lets through can fail on a rounded double (see `PackageController.Deplete`).
- `PackageController.CreatePackageClamped`: the same exact-real depletion as `PackageController.CreatePackage`.
- `PackageController.CreatePackageWith`: one `Base.Entropy` serves both the package save and the batch save. It matters to the batch save only when the batch has no code, and every stored batch has one.
- `ScanController.CreateScan`: a number or boolean location counts as a cast failure, where Mongoose would store its string form. A JSON `null` status is read as absent, giving the default, where Mongoose would store null.
- `ScanController.CreatorId`: the `req.auth?._id` fallback is not modelled, because the principal carries a single id.
- `Text.Lower`: only ASCII letters are lower-cased; the full Unicode case mapping of `toLowerCase` is not modelled.
- `Joi.Conforms`: Joi's conversion of numeric strings to numbers, and its error details, are not modelled. The safe-integer bound and the "true"/"false" strings are.

## Findings

| source | as written | input that shows it | evidently intended | confidence | as-written member | corrected member |
|---|---|---|---|---|---|---|
| controllers/batch.js:13-16 | the validated body (`crop`, `quantity`, `collectionLocation`, coordinates) is spread into a schema that requires `farmer` and `cropType` | `{"crop": "maize", "quantity": 10, "collectionLocation": "Kumasi"}` passes the validator and the save throws (500), so no batch can be created (`BatchController.CreateBatchAsWrittenRefusesValidBody`) | the create validator requires `farmer` and `cropType` | not executed | BatchController.CreateBatchAsWritten | BatchController.CreateBatch |
| controllers/package.js:34 | `BatchModel.findById` is called but `BatchModel` is never imported | any valid create: the package is saved, then a ReferenceError gives 500 and the batch is not depleted | import the batch model and deplete the parent batch | not executed | PackageController.CreatePackageAsWritten | PackageController.CreatePackage |
| controllers/package.js:37 | the quantity is clamped at 0, but the batch schema has `min: 1` (models/batch.js:99), so the clamped save throws | a 30 kg package cut from a 30 kg batch: 500, the package is kept and the batch keeps 30 (`PackageController.DepletionToZeroFails`) | the batch may reach 0 (a floor of 0) | not executed | PackageController.CreatePackage | PackageController.CreatePackageClamped |
| models/scan.js:51 | the hook selects `fullName`, but the user schema's field is `name` (models/user.js:5) | user "Ama" with role "user" would be labelled "Unnamed (user)" (`ScanSchema.LabelForAma`). No handler reaches this branch: `createScan` leaves the default label "Anonymous (guest)" (models/scan.js:13), which is neither empty nor "Anonymous" (line 48), and routed scans have no user | select `name` and label "Ama (user)" | not executed | ScanSchema.LookupAsWritten | ScanSchema.LookupIntended |
| controllers/scan.js:87-88 | `pkg.status = status` is saved, but the package schema has no `status` path (models/package.js:9-35), so strict mode drops it | an update `{"status": "sold"}` on a scan whose package has no status: the scan is sold, the package still has none (`ScanController.StatusDroppedAsWritten`) | the package schema declares the status and the package is marked sold | not executed | ScanController.StatusDroppedAsWritten | ScanController.StatusPropagates |
