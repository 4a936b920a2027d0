/** The farmer document, and the whole store the handlers act on: one map
    per collection, the outcome codes of the handlers, and the invariant
    the unique indexes and the scan label's `required` rule keep. */
module FarmerSchema {
  import opened Base

  /** A stored farmer: the owner stamped by the create handler and the
      profile strings the request supplied (first and last name, phone,
      email, id number, address, geocode, farm size, crop types, image). */
  datatype Farmer = Farmer(user: Id, profile: map<string, string>)

  /** The `required: true` of `firstName` (models/farmer.js:6-9). */
  predicate SchemaValid(f: Farmer) {
    f.user != "" && "firstName" in f.profile && f.profile["firstName"] != ""
  }
}

module Ledger {
  import opened Base
  import BatchSchema
  import PackageSchema
  import ScanSchema
  import FarmerSchema

  /** The HTTP statuses the handlers answer with: 201, 200, 403, 404, 422
      and 500. */
  datatype Code = Created | Ok | Forbidden | NotFound | Unprocessable | ServerError

  datatype Store = Store(
    users: map<Id, User>,
    farmers: map<Id, FarmerSchema.Farmer>,
    batches: map<Id, BatchSchema.Batch>,
    packages: map<Id, PackageSchema.Package>,
    scans: map<Id, ScanSchema.Scan>)

  /** What a handler answers, and the store after it. */
  datatype Reply = Reply(code: Code, store: Store)

  /** Batch and package codes are unique and every scan carries a label. */
  predicate Invariant(s: Store) {
    && BatchSchema.UniqueCodes(s.batches)
    && PackageSchema.UniqueCodes(s.packages)
    && (forall id :: id in s.scans ==> s.scans[id].scannedBy != "")
  }

  /** Adding a fresh key to a map and removing it again gives the map back. */
  lemma AddThenRemove<V>(m: map<Id, V>, k: Id, v: V)
    requires k !in m
    ensures m[k := v] - {k} == m
  {
  }

  /** Removing documents keeps the invariant. */
  lemma RemovalKeepsInvariant(s: Store, s': Store)
    requires Invariant(s)
    requires s'.batches.Keys <= s.batches.Keys && forall id :: id in s'.batches ==> s'.batches[id] == s.batches[id]
    requires s'.packages.Keys <= s.packages.Keys && forall id :: id in s'.packages ==> s'.packages[id] == s.packages[id]
    requires s'.scans.Keys <= s.scans.Keys && forall id :: id in s'.scans ==> s'.scans[id] == s.scans[id]
    ensures Invariant(s')
  {
  }

  /** Replacing a batch by one with the same code keeps the codes unique. */
  lemma SameBatchCodeKeepsUnique(batches: map<Id, BatchSchema.Batch>, id: Id, b: BatchSchema.Batch)
    requires BatchSchema.UniqueCodes(batches)
    requires id in batches && b.batchCode == batches[id].batchCode
    ensures BatchSchema.UniqueCodes(batches[id := b])
  {
    var after := batches[id := b];
    forall i, j | i in after && j in after && i != j && Filled(after[i].batchCode)
      ensures after[i].batchCode != after[j].batchCode
    {
      assert after[i].batchCode == batches[i].batchCode;
      assert after[j].batchCode == batches[j].batchCode;
    }
  }

  /** Replacing a package by one with the same code keeps the codes unique. */
  lemma SamePackageCodeKeepsUnique(packages: map<Id, PackageSchema.Package>, id: Id, p: PackageSchema.Package)
    requires PackageSchema.UniqueCodes(packages)
    requires id in packages && p.packageCode == packages[id].packageCode
    ensures PackageSchema.UniqueCodes(packages[id := p])
  {
    var after := packages[id := p];
    forall i, j | i in after && j in after && i != j && Filled(after[i].packageCode)
      ensures after[i].packageCode != after[j].packageCode
    {
      assert after[i].packageCode == packages[i].packageCode;
      assert after[j].packageCode == packages[j].packageCode;
    }
  }
}
