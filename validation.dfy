/** The Validator: the error codes of the registry, the submitted payload, one
    check per field, and the rule by which an ordered chain of checks reports
    the first one that fails. Nothing here depends on registry state. */
module Validation {
  import opened Wrappers

  // Error codes, as numbered by the registry contract.
  const ERR_NOT_AUTHORIZED: int := 100
  const ERR_INVALID_LOCATION: int := 101
  const ERR_INVALID_NEED_TYPE: int := 102
  const ERR_INVALID_QUANTITY: int := 103
  const ERR_INVALID_URGENCY: int := 104
  const ERR_INVALID_DESCRIPTION: int := 105
  const ERR_INVALID_HASH: int := 106
  const ERR_SUBMISSION_ALREADY_EXISTS: int := 107
  // Declared by the registry but returned by no operation (amendment reports a bare false).
  const ERR_SUBMISSION_NOT_FOUND: int := 108
  const ERR_INVALID_LATITUDE: int := 112
  const ERR_INVALID_LONGITUDE: int := 113
  const ERR_MAX_SUBMISSIONS_EXCEEDED: int := 115
  // Declared but never returned either.
  const ERR_INVALID_UPDATE_PARAM: int := 116
  const ERR_INVALID_CATEGORY: int := 118
  const ERR_INVALID_UNIT: int := 119
  const ERR_INVALID_EXPIRY: int := 120

  /** An evidence fingerprint: the raw bytes of the evidence buffer. The registry
      keys its index by the hex rendering of these bytes, which is injective,
      so keying by the bytes themselves is the same index. */
  type Hash = seq<bv8>

  /** Latitudes and longitudes are degrees scaled by 10^6. */
  const MAX_LATITUDE: int := 90000000
  const MAX_LONGITUDE: int := 180000000

  const NEED_TYPES: set<string> := {"food", "water", "shelter", "medical"}
  const CATEGORIES: set<string> := {"emergency", "ongoing", "recovery"}

  /** The eleven arguments of a submission, in the order the registry takes them. */
  datatype Payload = Payload(
    location: string,
    latitude: int,
    longitude: int,
    needType: string,
    quantity: int,
    unit: string,
    urgency: int,
    description: string,
    evidenceHash: Hash,
    category: string,
    expiry: int)

  // One check per field. An empty string is falsy, so "present" means non-empty.
  predicate ValidLocation(location: string) { 0 < |location| <= 50 }
  predicate ValidLatitude(latitude: int) { -MAX_LATITUDE <= latitude <= MAX_LATITUDE }
  predicate ValidLongitude(longitude: int) { -MAX_LONGITUDE <= longitude <= MAX_LONGITUDE }
  predicate ValidNeedType(needType: string) { needType in NEED_TYPES }
  predicate ValidQuantity(quantity: int) { quantity > 0 }
  predicate ValidUnit(unit: string) { 0 < |unit| <= 20 }
  predicate ValidUrgency(urgency: int) { 1 <= urgency <= 10 }
  predicate ValidDescription(description: string) { |description| <= 500 }
  predicate ValidHash(hash: Hash) { |hash| == 32 }
  predicate ValidCategory(category: string) { category in CATEGORIES }
  predicate ValidExpiry(expiry: int, blockHeight: int) { expiry > blockHeight }

  /** Every field of the payload passes its own check (expiry against the current block height). */
  predicate FieldsValid(p: Payload, blockHeight: int)
  {
    ValidLocation(p.location) && ValidLatitude(p.latitude) && ValidLongitude(p.longitude)
    && ValidNeedType(p.needType) && ValidQuantity(p.quantity) && ValidUnit(p.unit)
    && ValidUrgency(p.urgency) && ValidDescription(p.description)
    && ValidHash(p.evidenceHash) && ValidCategory(p.category)
    && ValidExpiry(p.expiry, blockHeight)
  }

  /** The checks the amendment of an existing submission applies to its new values. */
  predicate AmendmentValid(quantity: int, urgency: int, description: string)
  {
    ValidQuantity(quantity) && ValidUrgency(urgency) && ValidDescription(description)
  }

  /** One link of a guard chain: whether its condition holds, and the code it
      reports when it does not. */
  datatype Guard = Guard(holds: bool, code: int)

  /** Guard k is the first in the chain that fails. */
  predicate FailsFirstAt(guards: seq<Guard>, k: int)
  {
    0 <= k < |guards| && !guards[k].holds
    && forall j :: 0 <= j < k ==> guards[j].holds
  }

  /** The code of the first failing guard, or None when every guard holds. */
  function FirstFailure(guards: seq<Guard>): (r: Option<int>)
    ensures r.None? <==> forall k :: 0 <= k < |guards| ==> guards[k].holds
    ensures r.Some? ==> exists k :: FailsFirstAt(guards, k) && r.value == guards[k].code
  {
    if |guards| == 0 then None
    else if !guards[0].holds then
      assert FailsFirstAt(guards, 0);
      Some(guards[0].code)
    else
      FirstFailure(guards[1..])
  }

  /** A chain has at most one first failure, so FirstFailure reports exactly its code. */
  lemma FirstFailureAt(guards: seq<Guard>, k: int)
    requires FailsFirstAt(guards, k)
    ensures FirstFailure(guards) == Some(guards[k].code)
  {
  }
}
