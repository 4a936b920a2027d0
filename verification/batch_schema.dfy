/** The batch document of models/batch.js (lines 72-128): its fields, the
    two GhanaPost-style geocode generators, the batch code, the pre-save
    hook that derives both, and what `save` checks. */
module BatchSchema {
  import opened Base
  import opened Text

  /** A stored batch. `cropType` and `collectionLocation` hold the trimmed
      strings Mongoose's `trim: true` setter keeps; "" stands for unset. */
  datatype Batch = Batch(
    user: Id,
    farmer: Id,
    cropType: string,
    quantity: Option<real>,
    collectionLocation: string,
    latitude: Option<real>,
    longitude: Option<real>,
    gpsAddress: Option<string>,
    batchCode: Option<string>)

  /** The schema's `min: 1` on `quantity` (models/batch.js:99). */
  const QuantityMin: real := 1.0

  /** JavaScript truthiness of an optional number: present and not zero. */
  predicate NumberTruthy(x: Option<real>) {
    x.Some? && x.value != 0.0
  }

  function Abs(x: int): nat {
    if x < 0 then -x else x
  }

  /** `Math.floor(x * factor)`, computed exactly. */
  function ScaledFloor(x: real, factor: nat): int {
    (x * factor as real).Floor
  }

  /** The common layout `GA-ddd-dddd` of both generators. */
  function GaCode(part1: nat, part2: nat): string {
    "GA-" + PadStart(NatToString(part1), 3, '0') + "-" + PadStart(NatToString(part2), 4, '0')
  }

  /** Reads a `GA-ddd-dddd` code back into its two numbers. */
  function ParseGpsCode(code: string): Option<(nat, nat)> {
    if |code| == 11 && code[..3] == "GA-" && code[6] == '-'
       && AllDigits(code[3..6]) && AllDigits(code[7..])
    then Some((DigitsValue(code[3..6]), DigitsValue(code[7..])))
    else None
  }

  lemma GaCodeLayout(part1: nat, part2: nat)
    requires part1 < 1000 && part2 < 10000
    ensures GaCode(part1, part2) == "GA-" + FixedDigits(part1, 3) + "-" + FixedDigits(part2, 4)
  {
    PaddedIsFixed(part1, 3);
    PaddedIsFixed(part2, 4);
  }

  lemma ParseGaCode(part1: nat, part2: nat)
    requires part1 < 1000 && part2 < 10000
    ensures ParseGpsCode(GaCode(part1, part2)) == Some((part1, part2))
  {
    GaCodeLayout(part1, part2);
    var code := GaCode(part1, part2);
    assert code[3..6] == FixedDigits(part1, 3);
    assert code[7..] == FixedDigits(part2, 4);
    FixedDigitsValue(part1, 3);
    FixedDigitsValue(part2, 4);
  }

  /** `generateGpsFromCoords` over the already scaled coordinates: an
      11-character code whose first number is the scaled latitude's
      magnitude modulo 1000 and whose second is the scaled longitude's
      magnitude modulo 10000, each padded to exactly 3 and 4 digits. */
  function GpsFromCoords(latScaled: int, lngScaled: int): (code: string)
    ensures |code| == 11
    ensures ParseGpsCode(code) == Some((Abs(latScaled) % 1000, Abs(lngScaled) % 10000))
  {
    var part1, part2 := Abs(latScaled) % 1000, Abs(lngScaled) % 10000;
    GaCodeLayout(part1, part2);
    ParseGaCode(part1, part2);
    GaCode(part1, part2)
  }

  /** `char.charCodeAt(0)` for one code point of `[...address]`: the code
      point itself in the Basic Multilingual Plane, otherwise its leading
      UTF-16 surrogate. */
  function CharCode(c: char): (code: nat)
    ensures code < 0x10000
  {
    if c as int < 0x10000 then c as int else 0xD800 + (c as int - 0x10000) / 0x400
  }

  /** The sum of the character codes of `address`. */
  function AddressHash(address: string): nat {
    if address == [] then 0 else CharCode(address[0]) + AddressHash(address[1..])
  }

  /** `generateGpsFromAddress`: an 11-character code whose numbers are the
      address hash modulo 1000 and modulo 10000, and whose last three digits
      repeat the first number. */
  function GpsFromAddress(address: string): (code: string)
    ensures |code| == 11
    ensures ParseGpsCode(code) == Some((AddressHash(address) % 1000, AddressHash(address) % 10000))
    ensures code[8..] == code[3..6]
  {
    var h := AddressHash(address);
    GaCodeRepeats(h);
    ParseGaCode(h % 1000, h % 10000);
    GaCode(h % 1000, h % 10000)
  }

  /** The last three of the four digits of `n % 10000` are the three
      digits of `n % 1000`. */
  lemma LastThreeOfFour(n: nat)
    ensures FixedDigits(n % 10000, 4)[1..] == FixedDigits(n % 1000, 3)
  {
    var m := n % 10000;
    FixedDigitsDropFirst(m, 3);
    ThreeDigitsModulo(m);
    ThousandsModulo(n / 10000, m);
  }

  lemma ThousandsModulo(q: nat, m: nat)
    ensures (10000 * q + m) % 1000 == m % 1000
  {
    assert 10000 * q + m == 1000 * (10 * q) + m;
  }

  /** The code's last three digits repeat its first field. */
  lemma GaCodeRepeats(h: nat)
    ensures |GaCode(h % 1000, h % 10000)| == 11
    ensures GaCode(h % 1000, h % 10000)[8..] == GaCode(h % 1000, h % 10000)[3..6]
  {
    var f3, f4 := FixedDigits(h % 1000, 3), FixedDigits(h % 10000, 4);
    GaCodeLayout(h % 1000, h % 10000);
    var code := "GA-" + f3 + "-" + f4;
    assert code[8..] == f4[1..];
    assert code[3..6] == f3;
    LastThreeOfFour(h);
  }

  lemma {:induction false} AddressHashConcat(a: string, b: string)
    ensures AddressHash(a + b) == AddressHash(a) + AddressHash(b)
    decreases |a|
  {
    if a == [] {
      assert a + b == b;
    } else {
      var ab := a + b;
      assert ab[0] == a[0];
      assert ab[1..] == a[1..] + b;
      AddressHashConcat(a[1..], b);
    }
  }

  /** The hash only depends on which characters occur how often. */
  lemma {:induction false} AddressHashPermutation(a: string, b: string)
    requires multiset(a) == multiset(b)
    ensures AddressHash(a) == AddressHash(b)
    decreases |a|
  {
    if a == [] {
      assert |b| == |multiset(b)| == 0;
    } else {
      var x := a[0];
      assert x in multiset(b);
      var j :| 0 <= j < |b| && b[j] == x;
      var rest := b[..j] + b[j + 1..];
      assert b == b[..j] + ([x] + b[j + 1..]);
      AddressHashConcat(b[..j], [x] + b[j + 1..]);
      AddressHashConcat([x], b[j + 1..]);
      AddressHashConcat(b[..j], b[j + 1..]);
      assert a == [x] + a[1..];
      assert multiset(b) == multiset(b[..j]) + multiset([x]) + multiset(b[j + 1..]);
      assert multiset(rest) == multiset(b[..j]) + multiset(b[j + 1..]);
      assert multiset(a) == multiset([x]) + multiset(a[1..]);
      assert multiset(a[1..]) == multiset(a) - multiset{x};
      assert multiset(rest) == multiset(b) - multiset{x};
      AddressHashPermutation(a[1..], rest);
    }
  }

  /** Rearranging the characters of an address does not change its code. */
  lemma AddressCodePermutation(a: string, b: string)
    requires multiset(a) == multiset(b)
    ensures GpsFromAddress(a) == GpsFromAddress(b)
  {
    AddressHashPermutation(a, b);
  }

  /** `Math.floor(Math.random() * 1000)`: a number from 0 to 999. */
  function RandomSuffix(random: UnitReal): (r: nat)
    ensures r <= 999
  {
    (random * 1000.0).Floor
  }

  /** `BATCH-<now>-<r>`. */
  function BatchCode(now: nat, r: nat): string {
    "BATCH-" + NatToString(now) + "-" + NatToString(r)
  }

  /** Reads a batch code back into its timestamp and random suffix. */
  function ParseBatchCode(code: string): Option<(nat, nat)> {
    if |code| < 6 || code[..6] != "BATCH-" then None
    else
      var rest := code[6..];
      match FirstIndex(rest, '-')
      case None => None
      case Some(i) =>
        match (ParseNat(rest[..i]), ParseNat(rest[i + 1..]))
        case (Some(now), Some(r)) => Some((now, r))
        case _ => None
  }

  /** A batch code determines the timestamp and the suffix it was made from. */
  lemma ParseBatchCodeRoundTrip(now: nat, r: nat)
    ensures ParseBatchCode(BatchCode(now, r)) == Some((now, r))
  {
    var a, b := NatToString(now), NatToString(r);
    var code := BatchCode(now, r);
    assert code[..6] == "BATCH-";
    assert code[6..] == a + ['-'] + b;
    NoSeparatorInDigits(now, '-');
    FirstIndexAfter(a, '-', b);
    assert (a + ['-'] + b)[..|a|] == a;
    assert (a + ['-'] + b)[|a| + 1..] == b;
    ParseRendered(now);
    ParseRendered(r);
  }

  /** The pre-save hook (models/batch.js:112-126). A present `gpsAddress`
      and a present `batchCode` are kept; a missing geocode comes from the
      coordinates when both are non-zero, else from the collection location
      when it is non-empty, else stays missing; a missing batch code is made
      from the clock and the random draw. Nothing else changes. */
  function PreSave(b: Batch, env: Entropy): (b': Batch)
    ensures b' == b.(gpsAddress := b'.gpsAddress, batchCode := b'.batchCode)
    ensures Filled(b.gpsAddress) ==> b'.gpsAddress == b.gpsAddress
    ensures !Filled(b.gpsAddress) && NumberTruthy(b.latitude) && NumberTruthy(b.longitude) ==>
      b'.gpsAddress == Some(GpsFromCoords(ScaledFloor(b.latitude.value, 1000), ScaledFloor(b.longitude.value, 10000)))
    ensures !Filled(b.gpsAddress) && !(NumberTruthy(b.latitude) && NumberTruthy(b.longitude)) ==>
      if b.collectionLocation != "" then b'.gpsAddress == Some(GpsFromAddress(b.collectionLocation))
      else b'.gpsAddress == b.gpsAddress
    ensures Filled(b.batchCode) ==> b'.batchCode == b.batchCode
    ensures !Filled(b.batchCode) ==> b'.batchCode == Some(BatchCode(env.now, RandomSuffix(env.random)))
    ensures !Filled(b.batchCode) ==> ParseBatchCode(b'.batchCode.value) == Some((env.now, RandomSuffix(env.random)))
    ensures Filled(b'.batchCode)
  {
    ParseBatchCodeRoundTrip(env.now, RandomSuffix(env.random));
    var gps :=
      if Filled(b.gpsAddress) then b.gpsAddress
      else if NumberTruthy(b.latitude) && NumberTruthy(b.longitude) then
        Some(GpsFromCoords(ScaledFloor(b.latitude.value, 1000), ScaledFloor(b.longitude.value, 10000)))
      else if b.collectionLocation != "" then Some(GpsFromAddress(b.collectionLocation))
      else b.gpsAddress;
    var code :=
      if Filled(b.batchCode) then b.batchCode else Some(BatchCode(env.now, RandomSuffix(env.random)));
    b.(gpsAddress := gps, batchCode := code)
  }

  /** The schema's `required` and `min` rules (models/batch.js:96-100), with
      the quantity floor as a parameter. */
  predicate SchemaValid(b: Batch, minQuantity: real) {
    && b.user != ""
    && b.farmer != ""
    && b.cropType != ""
    && b.quantity.Some? && b.quantity.value >= minQuantity
    && b.collectionLocation != ""
  }

  /** No other batch carries `code`. */
  predicate CodeFree(batches: map<Id, Batch>, id: Id, code: Option<string>) {
    forall other :: other in batches && other != id && Filled(batches[other].batchCode) ==>
      batches[other].batchCode != code
  }

  /** The unique index on `batchCode` (models/batch.js:104) over a collection. */
  predicate UniqueCodes(batches: map<Id, Batch>) {
    forall i, j :: i in batches && j in batches && i != j && Filled(batches[i].batchCode) ==>
      batches[i].batchCode != batches[j].batchCode
  }

  /** `batch.save()` of document `id` into `batches`: validation first, then
      the pre-save hook, then the unique index. Absent means the save threw. */
  function Save(b: Batch, id: Id, env: Entropy, batches: map<Id, Batch>, minQuantity: real): (r: Option<Batch>)
    ensures r.Some? <==> SchemaValid(b, minQuantity) && CodeFree(batches, id, PreSave(b, env).batchCode)
    ensures r.Some? ==> r.value == PreSave(b, env) && SchemaValid(r.value, minQuantity)
  {
    if !SchemaValid(b, minQuantity) then None
    else
      var b' := PreSave(b, env);
      if CodeFree(batches, id, b'.batchCode) then Some(b') else None
  }

  /** A successful save keeps every batch code in the collection unique. */
  lemma SaveKeepsCodesUnique(b: Batch, id: Id, env: Entropy, batches: map<Id, Batch>, minQuantity: real)
    requires UniqueCodes(batches)
    requires Save(b, id, env, batches, minQuantity).Some?
    ensures UniqueCodes(batches[id := Save(b, id, env, batches, minQuantity).value])
  {
    var saved := Save(b, id, env, batches, minQuantity).value;
    var after := batches[id := saved];
    forall i, j | i in after && j in after && i != j && Filled(after[i].batchCode)
      ensures after[i].batchCode != after[j].batchCode
    {
      if i == id {
        assert Filled(saved.batchCode);
      }
    }
  }
}
