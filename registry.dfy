/** Registry State: the stored records, the registry's `state` record with its
    three tables and counter, the invariant that ties the tables together, and
    the transitions of a submission and an amendment written as functions of
    the old state. The class in module DataSubmission performs these
    transitions in place and is specified by them. */
module Registry {
  import opened Wrappers
  import opened Validation

  /** A stored need record: the payload's fields plus what the registry adds. */
  datatype Submission = Submission(
    location: string,
    latitude: int,
    longitude: int,
    needType: string,
    quantity: int,
    unit: string,
    urgency: int,
    description: string,
    evidenceHash: Hash,
    timestamp: int,
    submitter: string,
    category: string,
    status: bool,
    expiry: int)

  /** The single amendment record kept per submission id. */
  datatype SubmissionUpdate = SubmissionUpdate(
    updateQuantity: int,
    updateUrgency: int,
    updateDescription: string,
    updateTimestamp: int,
    updater: string)

  /** One entry of the fee-transfer log. The recipient is always the configured
      registry, which is a non-empty string whenever a transfer is logged. */
  datatype Transfer = Transfer(amount: int, from: string, to: string)

  /** The `{ ok, value }` pair every mutating operation answers with. */
  datatype Response<T> = Response(ok: bool, value: T)

  /** The registry's configuration and tables. */
  datatype State = State(
    nextSubmissionId: nat,
    maxSubmissions: int,
    submissionFee: int,
    registryContract: Option<string>,
    submissions: map<int, Submission>,
    submissionUpdates: map<int, SubmissionUpdate>,
    submissionsByHash: map<Hash, int>)

  const DEFAULT_MAX_SUBMISSIONS: int := 10000
  const DEFAULT_SUBMISSION_FEE: int := 500

  /** The state a fresh or reset registry starts in. */
  const INITIAL_STATE: State :=
    State(0, DEFAULT_MAX_SUBMISSIONS, DEFAULT_SUBMISSION_FEE, None, map[], map[], map[])

  /** The registry counts as configured for fees and submissions only when its
      address is set AND non-empty (an empty string is falsy); setting the
      address, by contrast, only asks whether it was ever set. */
  predicate RegistryConfigured(registryContract: Option<string>)
  {
    registryContract.Some? && registryContract.value != ""
  }

  /** A stored record still satisfies every field check except expiry, which is
      only checked against the block height of the submission. */
  predicate RecordWellFormed(s: Submission)
  {
    ValidLocation(s.location) && ValidLatitude(s.latitude) && ValidLongitude(s.longitude)
    && ValidNeedType(s.needType) && ValidQuantity(s.quantity) && ValidUnit(s.unit)
    && ValidUrgency(s.urgency) && ValidDescription(s.description)
    && ValidHash(s.evidenceHash) && ValidCategory(s.category) && s.status
  }

  /** The registry invariant. */
  ghost predicate ValidState(st: State)
  {
    // the cap is never overrun
    st.nextSubmissionId <= st.maxSubmissions
    // ids are dense: exactly 0 .. nextSubmissionId-1 are stored
    && (forall id :: id in st.submissions <==> 0 <= id < st.nextSubmissionId)
    // every index entry points to a record with that hash ...
    && (forall h :: h in st.submissionsByHash ==>
          st.submissionsByHash[h] in st.submissions
          && st.submissions[st.submissionsByHash[h]].evidenceHash == h)
    // ... and every record's hash is indexed, pointing back at it
    && (forall id :: id in st.submissions ==>
          st.submissions[id].evidenceHash in st.submissionsByHash
          && st.submissionsByHash[st.submissions[id].evidenceHash] == id)
    && (forall id :: id in st.submissions ==> RecordWellFormed(st.submissions[id]))
    // amendment records exist only for stored submissions, made by their submitters
    && (forall id :: id in st.submissionUpdates ==>
          id in st.submissions && st.submissionUpdates[id].updater == st.submissions[id].submitter)
  }

  lemma InitialStateValid()
    ensures ValidState(INITIAL_STATE)
    ensures INITIAL_STATE.nextSubmissionId == 0 && !RegistryConfigured(INITIAL_STATE.registryContract)
  {
  }

  /** The guards of a submission, in the order the registry applies them. */
  function SubmitGuards(st: State, blockHeight: int, registered: bool, p: Payload): seq<Guard>
  {
    [ Guard(st.nextSubmissionId < st.maxSubmissions, ERR_MAX_SUBMISSIONS_EXCEEDED),
      Guard(ValidLocation(p.location), ERR_INVALID_LOCATION),
      Guard(ValidLatitude(p.latitude), ERR_INVALID_LATITUDE),
      Guard(ValidLongitude(p.longitude), ERR_INVALID_LONGITUDE),
      Guard(ValidNeedType(p.needType), ERR_INVALID_NEED_TYPE),
      Guard(ValidQuantity(p.quantity), ERR_INVALID_QUANTITY),
      Guard(ValidUnit(p.unit), ERR_INVALID_UNIT),
      Guard(ValidUrgency(p.urgency), ERR_INVALID_URGENCY),
      Guard(ValidDescription(p.description), ERR_INVALID_DESCRIPTION),
      Guard(ValidHash(p.evidenceHash), ERR_INVALID_HASH),
      Guard(ValidCategory(p.category), ERR_INVALID_CATEGORY),
      Guard(ValidExpiry(p.expiry, blockHeight), ERR_INVALID_EXPIRY),
      Guard(registered, ERR_NOT_AUTHORIZED),
      Guard(p.evidenceHash !in st.submissionsByHash, ERR_SUBMISSION_ALREADY_EXISTS),
      Guard(RegistryConfigured(st.registryContract), ERR_NOT_AUTHORIZED) ]
  }

  /** Everything a submission needs to be accepted. */
  predicate SubmitAllowed(st: State, blockHeight: int, registered: bool, p: Payload)
  {
    st.nextSubmissionId < st.maxSubmissions && FieldsValid(p, blockHeight) && registered
    && p.evidenceHash !in st.submissionsByHash && RegistryConfigured(st.registryContract)
  }

  /** The code a submission fails with, or None when it is accepted: the
      guards are tried in order and the first one that fails decides. */
  function SubmitCheck(st: State, blockHeight: int, registered: bool, p: Payload): (r: Option<int>)
    ensures r.None? <==> SubmitAllowed(st, blockHeight, registered, p)
    ensures r.Some? ==> r.value in {ERR_MAX_SUBMISSIONS_EXCEEDED, ERR_INVALID_LOCATION,
      ERR_INVALID_LATITUDE, ERR_INVALID_LONGITUDE, ERR_INVALID_NEED_TYPE, ERR_INVALID_QUANTITY,
      ERR_INVALID_UNIT, ERR_INVALID_URGENCY, ERR_INVALID_DESCRIPTION, ERR_INVALID_HASH,
      ERR_INVALID_CATEGORY, ERR_INVALID_EXPIRY, ERR_NOT_AUTHORIZED, ERR_SUBMISSION_ALREADY_EXISTS}
  {
    if st.nextSubmissionId >= st.maxSubmissions then Some(ERR_MAX_SUBMISSIONS_EXCEEDED)
    else if !ValidLocation(p.location) then Some(ERR_INVALID_LOCATION)
    else if !ValidLatitude(p.latitude) then Some(ERR_INVALID_LATITUDE)
    else if !ValidLongitude(p.longitude) then Some(ERR_INVALID_LONGITUDE)
    else if !ValidNeedType(p.needType) then Some(ERR_INVALID_NEED_TYPE)
    else if !ValidQuantity(p.quantity) then Some(ERR_INVALID_QUANTITY)
    else if !ValidUnit(p.unit) then Some(ERR_INVALID_UNIT)
    else if !ValidUrgency(p.urgency) then Some(ERR_INVALID_URGENCY)
    else if !ValidDescription(p.description) then Some(ERR_INVALID_DESCRIPTION)
    else if !ValidHash(p.evidenceHash) then Some(ERR_INVALID_HASH)
    else if !ValidCategory(p.category) then Some(ERR_INVALID_CATEGORY)
    else if !ValidExpiry(p.expiry, blockHeight) then Some(ERR_INVALID_EXPIRY)
    else if !registered then Some(ERR_NOT_AUTHORIZED)
    else if p.evidenceHash in st.submissionsByHash then Some(ERR_SUBMISSION_ALREADY_EXISTS)
    else if !RegistryConfigured(st.registryContract) then Some(ERR_NOT_AUTHORIZED)
    else None
  }

  /** The submission check reports exactly the first failing guard of the
      ordered chain, as FirstFailure defines it. */
  lemma SubmitCheckIsFirstFailure(st: State, blockHeight: int, registered: bool, p: Payload)
    ensures SubmitCheck(st, blockHeight, registered, p) == FirstFailure(SubmitGuards(st, blockHeight, registered, p))
  {
    var guards := SubmitGuards(st, blockHeight, registered, p);
    if !guards[0].holds { FirstFailureAt(guards, 0); }
    else if !guards[1].holds { FirstFailureAt(guards, 1); }
    else if !guards[2].holds { FirstFailureAt(guards, 2); }
    else if !guards[3].holds { FirstFailureAt(guards, 3); }
    else if !guards[4].holds { FirstFailureAt(guards, 4); }
    else if !guards[5].holds { FirstFailureAt(guards, 5); }
    else if !guards[6].holds { FirstFailureAt(guards, 6); }
    else { LaterGuardsDecide(st, blockHeight, registered, p); }
  }

  /** The same, once the capacity check and the first six field checks pass. */
  lemma LaterGuardsDecide(st: State, blockHeight: int, registered: bool, p: Payload)
    requires forall j :: 0 <= j < 7 ==> SubmitGuards(st, blockHeight, registered, p)[j].holds
    ensures SubmitCheck(st, blockHeight, registered, p) == FirstFailure(SubmitGuards(st, blockHeight, registered, p))
  {
    var guards := SubmitGuards(st, blockHeight, registered, p);
    assert guards[0].holds && guards[1].holds && guards[2].holds && guards[3].holds
      && guards[4].holds && guards[5].holds && guards[6].holds;
    if !guards[7].holds { FirstFailureAt(guards, 7); }
    else if !guards[8].holds { FirstFailureAt(guards, 8); }
    else if !guards[9].holds { FirstFailureAt(guards, 9); }
    else if !guards[10].holds { FirstFailureAt(guards, 10); }
    else if !guards[11].holds { FirstFailureAt(guards, 11); }
    else if !guards[12].holds { FirstFailureAt(guards, 12); }
    else if !guards[13].holds { FirstFailureAt(guards, 13); }
    else if !guards[14].holds { FirstFailureAt(guards, 14); }
  }

  /** The record a successful submission stores. */
  function Record(p: Payload, blockHeight: int, caller: string): Submission
  {
    Submission(p.location, p.latitude, p.longitude, p.needType, p.quantity, p.unit,
               p.urgency, p.description, p.evidenceHash, blockHeight, caller,
               p.category, true, p.expiry)
  }

  /** The state after a successful submission: the record under the next id,
      its hash indexed to that id, the counter advanced. */
  function Commit(st: State, p: Payload, blockHeight: int, caller: string): State
  {
    var id := st.nextSubmissionId;
    st.(submissions := st.submissions[id := Record(p, blockHeight, caller)],
        submissionsByHash := st.submissionsByHash[p.evidenceHash := id],
        nextSubmissionId := id + 1)
  }

  /** Whether an amendment by `caller` is accepted. */
  predicate AmendAllowed(st: State, caller: string, id: int, quantity: int, urgency: int, description: string)
  {
    id in st.submissions && st.submissions[id].submitter == caller
    && AmendmentValid(quantity, urgency, description)
  }

  /** The state after an accepted amendment: four fields of the record
      overwritten, the amendment record for that id replaced. */
  function Amend(st: State, id: int, quantity: int, urgency: int, description: string,
                 blockHeight: int, caller: string): State
    requires id in st.submissions
  {
    st.(submissions := st.submissions[id := st.submissions[id].(
          quantity := quantity, urgency := urgency, description := description,
          timestamp := blockHeight)],
        submissionUpdates := st.submissionUpdates[id := SubmissionUpdate(
          quantity, urgency, description, blockHeight, caller)])
  }

  /** One submission as a transition: the new state and the response. A
      failure reports the first failed guard's code and leaves the state as it
      was; a success reports the id it assigned. */
  function SubmitStep(st: State, blockHeight: int, registered: bool, caller: string, p: Payload)
    : (State, Response<int>)
  {
    match SubmitCheck(st, blockHeight, registered, p)
    case Some(code) => (st, Response(false, code))
    case None => (Commit(st, p, blockHeight, caller), Response(true, st.nextSubmissionId))
  }

  /** One amendment as a transition. Every refusal answers a bare false. */
  function AmendStep(st: State, blockHeight: int, caller: string,
                     id: int, quantity: int, urgency: int, description: string)
    : (State, Response<bool>)
  {
    if AmendAllowed(st, caller, id, quantity, urgency, description)
    then (Amend(st, id, quantity, urgency, description, blockHeight, caller), Response(true, true))
    else (st, Response(false, false))
  }

  /** Setting the registry address as a transition: write-once, where any
      address ever set, even an empty one, blocks a second setting. */
  function SetRegistryStep(st: State, address: string): (State, Response<bool>)
  {
    if st.registryContract.Some? then (st, Response(false, false))
    else (st.(registryContract := Some(address)), Response(true, true))
  }

  /** Setting the fee as a transition: allowed, without bound, only once a
      non-empty registry address is configured. */
  function SetFeeStep(st: State, fee: int): (State, Response<bool>)
  {
    if !RegistryConfigured(st.registryContract) then (st, Response(false, false))
    else (st.(submissionFee := fee), Response(true, true))
  }

  // ----- Lemmas about the registry -----

  /** A set holding exactly 0 .. n-1 has n elements. */
  lemma {:induction false} RangeSize(ids: set<int>, n: nat)
    requires forall id :: id in ids <==> 0 <= id < n
    ensures |ids| == n
  {
    if n > 0 {
      RangeSize(ids - {n - 1}, n - 1);
    } else {
      assert forall id :: id !in ids;
    }
  }

  /** Ids are dense, so the counter is the number of stored submissions. */
  lemma CountIsNumberOfSubmissions(st: State)
    requires ValidState(st)
    ensures |st.submissions| == st.nextSubmissionId
  {
    RangeSize(st.submissions.Keys, st.nextSubmissionId);
  }

  /** The hash index and the submission table agree: a hash is indexed exactly
      when some stored submission carries it, and then it names that one. */
  lemma IndexMatchesTable(st: State, h: Hash)
    requires ValidState(st)
    ensures h in st.submissionsByHash <==> exists id :: id in st.submissions && st.submissions[id].evidenceHash == h
    ensures h in st.submissionsByHash ==> st.submissions[st.submissionsByHash[h]].evidenceHash == h
  {
    if h in st.submissionsByHash {
      var id := st.submissionsByHash[h];
      assert id in st.submissions && st.submissions[id].evidenceHash == h;
    }
  }

  /** A successful submission keeps the invariant, keeps every earlier record
      and stores the new one, with its hash indexed, under the old counter. */
  lemma CommitPreservesValid(st: State, blockHeight: int, registered: bool, caller: string, p: Payload)
    requires ValidState(st)
    requires SubmitCheck(st, blockHeight, registered, p).None?
    ensures ValidState(Commit(st, p, blockHeight, caller))
    ensures Commit(st, p, blockHeight, caller).nextSubmissionId == st.nextSubmissionId + 1
    ensures forall id :: id in st.submissions ==>
      Commit(st, p, blockHeight, caller).submissions[id] == st.submissions[id]
  {
  }

  /** An accepted amendment keeps the invariant. */
  lemma AmendPreservesValid(st: State, blockHeight: int, caller: string,
                            id: int, quantity: int, urgency: int, description: string)
    requires ValidState(st)
    requires AmendAllowed(st, caller, id, quantity, urgency, description)
    ensures ValidState(Amend(st, id, quantity, urgency, description, blockHeight, caller))
  {
  }

  /** An amendment touches only quantity, urgency, description and timestamp of
      its own record: the submitter, the evidence hash, every other record, the
      index and the counter stay as they were. */
  lemma AmendTouchesOnlyItsRecord(st: State, blockHeight: int, caller: string,
                                  id: int, quantity: int, urgency: int, description: string)
    requires id in st.submissions
    ensures var st' := Amend(st, id, quantity, urgency, description, blockHeight, caller);
      st'.submissions.Keys == st.submissions.Keys
      && (forall j :: j in st.submissions && j != id ==> st'.submissions[j] == st.submissions[j])
      && st'.submissions[id].submitter == st.submissions[id].submitter
      && st'.submissions[id].evidenceHash == st.submissions[id].evidenceHash
      && st'.submissions[id] == st.submissions[id].(quantity := quantity, urgency := urgency,
                                                    description := description, timestamp := blockHeight)
      && st'.submissionsByHash == st.submissionsByHash
      && st'.nextSubmissionId == st.nextSubmissionId
  {
  }

  /** The capacity guard comes first: a full registry refuses every submission with 115. */
  lemma FullRegistryRefuses(st: State, blockHeight: int, registered: bool, p: Payload)
    requires st.nextSubmissionId >= st.maxSubmissions
    ensures SubmitCheck(st, blockHeight, registered, p) == Some(ERR_MAX_SUBMISSIONS_EXCEEDED)
  {
  }

  /** With room left and valid fields, an unregistered caller is refused with 100,
      whatever the hash and the registry configuration. */
  lemma UnregisteredCallerRefused(st: State, blockHeight: int, registered: bool, p: Payload)
    requires st.nextSubmissionId < st.maxSubmissions && FieldsValid(p, blockHeight) && !registered
    ensures SubmitCheck(st, blockHeight, registered, p) == Some(ERR_NOT_AUTHORIZED)
  {
  }

  /** Otherwise passing a submission whose hash is already indexed is refused with 107. */
  lemma DuplicateEvidenceRefused(st: State, blockHeight: int, registered: bool, p: Payload)
    requires st.nextSubmissionId < st.maxSubmissions && FieldsValid(p, blockHeight) && registered
    requires p.evidenceHash in st.submissionsByHash
    ensures SubmitCheck(st, blockHeight, registered, p) == Some(ERR_SUBMISSION_ALREADY_EXISTS)
  {
  }

  /** The registry address is checked last: missing or empty, it is refused with 100. */
  lemma UnconfiguredRegistryRefused(st: State, blockHeight: int, registered: bool, p: Payload)
    requires st.nextSubmissionId < st.maxSubmissions && FieldsValid(p, blockHeight) && registered
    requires p.evidenceHash !in st.submissionsByHash && !RegistryConfigured(st.registryContract)
    ensures SubmitCheck(st, blockHeight, registered, p) == Some(ERR_NOT_AUTHORIZED)
  {
  }

  /** One call on the registry other than a reset, with the block height,
      caller and registration of the moment it is made. A reset starts the
      registry afresh and is not a step of a run. */
  datatype Op =
    | Submit(blockHeight: int, registered: bool, caller: string, p: Payload)
    | Amendment(blockHeight: int, caller: string, id: int, quantity: int, urgency: int, description: string)
    | SetRegistry(address: string)
    | SetFee(fee: int)

  /** The state after one call, and the id it handed out, if it was an accepted submission. */
  function Apply(st: State, op: Op): (State, Option<int>)
  {
    match op
    case Submit(blockHeight, registered, caller, p) =>
      var (st', r) := SubmitStep(st, blockHeight, registered, caller, p);
      (st', if r.ok then Some(r.value) else None)
    case Amendment(blockHeight, caller, id, quantity, urgency, description) =>
      (AmendStep(st, blockHeight, caller, id, quantity, urgency, description).0, None)
    case SetRegistry(address) => (SetRegistryStep(st, address).0, None)
    case SetFee(fee) => (SetFeeStep(st, fee).0, None)
  }

  /** A run of calls between two resets: the final state and the ids handed out, in order. */
  function Run(st: State, ops: seq<Op>): (State, seq<int>)
    decreases |ops|
  {
    if ops == [] then (st, [])
    else
      var (st1, handed) := Apply(st, ops[0]);
      var (st2, ids) := Run(st1, ops[1..]);
      (st2, (if handed.Some? then [handed.value] else []) + ids)
  }

  /** The ids from, from+1, ..., from+n-1. */
  function Consecutive(from: int, n: nat): (r: seq<int>)
    ensures |r| == n && forall i :: 0 <= i < n ==> r[i] == from + i
    decreases n
  {
    if n == 0 then [] else [from] + Consecutive(from + 1, n - 1)
  }

  /** One submission keeps the invariant; the counter advances by one exactly
      when it succeeds, and a success reports the old counter as its id. */
  lemma SubmitStepPreservesValid(st: State, blockHeight: int, registered: bool, caller: string, p: Payload)
    requires ValidState(st)
    ensures var (st', r) := SubmitStep(st, blockHeight, registered, caller, p);
      ValidState(st')
      && st'.nextSubmissionId == st.nextSubmissionId + (if r.ok then 1 else 0)
      && (r.ok ==> r.value == st.nextSubmissionId)
  {
    if SubmitCheck(st, blockHeight, registered, p).None? {
      CommitPreservesValid(st, blockHeight, registered, caller, p);
    }
  }

  /** The counter advances by one exactly when a call hands out an id, and
      that id is the old counter. */
  lemma ApplyAdvancesCounter(st: State, op: Op)
    ensures var (st', handed) := Apply(st, op);
      st'.nextSubmissionId == st.nextSubmissionId + (if handed.Some? then 1 else 0)
      && (handed.Some? ==> handed.value == st.nextSubmissionId)
  {
  }

  /** Any single call other than a reset keeps the invariant. */
  lemma ApplyPreservesValid(st: State, op: Op)
    requires ValidState(st)
    ensures ValidState(Apply(st, op).0)
  {
    match op
    case Submit(blockHeight, registered, caller, p) =>
      SubmitStepPreservesValid(st, blockHeight, registered, caller, p);
    case Amendment(blockHeight, caller, id, quantity, urgency, description) =>
      if AmendAllowed(st, caller, id, quantity, urgency, description) {
        AmendPreservesValid(st, blockHeight, caller, id, quantity, urgency, description);
      }
    case SetRegistry(address) =>
    case SetFee(fee) =>
  }

  /** No single call other than a reset replaces a set registry address or
      drops a stored record, and none changes a record's submitter or evidence
      hash. */
  lemma ApplyKeepsRegistryAndSubmitters(st: State, op: Op)
    requires ValidState(st)
    ensures var st' := Apply(st, op).0;
      (st.registryContract.Some? ==> st'.registryContract == st.registryContract)
      && (forall id :: id in st.submissions ==>
            id in st'.submissions
            && st'.submissions[id].submitter == st.submissions[id].submitter
            && st'.submissions[id].evidenceHash == st.submissions[id].evidenceHash)
  {
    match op
    case Submit(blockHeight, registered, caller, p) =>
      if SubmitCheck(st, blockHeight, registered, p).None? {
        CommitPreservesValid(st, blockHeight, registered, caller, p);
      }
    case Amendment(blockHeight, caller, id, quantity, urgency, description) =>
      if AmendAllowed(st, caller, id, quantity, urgency, description) {
        AmendTouchesOnlyItsRecord(st, blockHeight, caller, id, quantity, urgency, description);
      }
    case SetRegistry(address) =>
    case SetFee(fee) =>
  }

  /** Over any run of calls without a reset, by any callers at any block heights, with
      amendments and configuration changes in between, the ids handed out are
      consecutive from the counter's old value (so from 0 on a fresh registry),
      hence strictly increasing and never reused, and the counter ends just
      past the last one. */
  lemma {:induction false} RunAssignsConsecutiveIds(st: State, ops: seq<Op>)
    ensures var (st', ids) := Run(st, ops);
      st.nextSubmissionId <= st'.nextSubmissionId
      && ids == Consecutive(st.nextSubmissionId, st'.nextSubmissionId - st.nextSubmissionId)
    decreases |ops|
  {
    if ops != [] {
      ApplyAdvancesCounter(st, ops[0]);
      RunAssignsConsecutiveIds(Apply(st, ops[0]).0, ops[1..]);
    }
  }

  /** Any run of calls without a reset keeps the invariant. */
  lemma {:induction false} RunPreservesValid(st: State, ops: seq<Op>)
    requires ValidState(st)
    ensures ValidState(Run(st, ops).0)
    decreases |ops|
  {
    if ops != [] {
      ApplyPreservesValid(st, ops[0]);
      RunPreservesValid(Apply(st, ops[0]).0, ops[1..]);
    }
  }

  /** Over any run of calls without a reset, a registry address once set is never replaced,
      and every stored record stays stored with its submitter and evidence
      hash unchanged. */
  lemma {:induction false} RunKeepsRegistryAndSubmitters(st: State, ops: seq<Op>)
    requires ValidState(st)
    ensures var st' := Run(st, ops).0;
      (st.registryContract.Some? ==> st'.registryContract == st.registryContract)
      && (forall id :: id in st.submissions ==>
            id in st'.submissions
            && st'.submissions[id].submitter == st.submissions[id].submitter
            && st'.submissions[id].evidenceHash == st.submissions[id].evidenceHash)
    decreases |ops|
  {
    if ops != [] {
      ApplyPreservesValid(st, ops[0]);
      ApplyKeepsRegistryAndSubmitters(st, ops[0]);
      RunKeepsRegistryAndSubmitters(Apply(st, ops[0]).0, ops[1..]);
    }
  }

  /** After a successful submission its evidence stays indexed, so
      the same evidence is never accepted again until a reset: after any run
      of further calls, a submission with that hash by any caller at any block height is
      refused and changes nothing. */
  lemma SameEvidenceNeverAcceptedTwice(st: State, blockHeight: int, registered: bool, caller: string,
                                       p: Payload, ops: seq<Op>,
                                       blockHeight': int, registered': bool, caller': string, q: Payload)
    requires ValidState(st)
    requires SubmitCheck(st, blockHeight, registered, p).None?
    requires q.evidenceHash == p.evidenceHash
    ensures var st1 := Run(SubmitStep(st, blockHeight, registered, caller, p).0, ops).0;
      q.evidenceHash in st1.submissionsByHash
      && !SubmitStep(st1, blockHeight', registered', caller', q).1.ok
      && SubmitStep(st1, blockHeight', registered', caller', q).0 == st1
  {
    var st0 := SubmitStep(st, blockHeight, registered, caller, p).0;
    CommitPreservesValid(st, blockHeight, registered, caller, p);
    assert st.nextSubmissionId in st0.submissions;
    RunPreservesValid(st0, ops);
    RunKeepsRegistryAndSubmitters(st0, ops);
  }
}
