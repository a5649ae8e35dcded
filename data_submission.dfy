/** The in-memory registry: one object holding the registry's `state` record,
    the current block height and caller, the set of registered users (the
    identity provider) and the log of fee transfers. Mutators change these
    fields in place and are specified by the transitions of module Registry;
    the lookups are functions. */
module DataSubmission {
  import opened Wrappers
  import opened Validation
  import opened Registry

  /** The principal that calls, and the only registered user, after a reset. */
  const DEFAULT_CALLER: string := "ST1TEST"

  class DataSubmissionMock {
    var state: State
    var blockHeight: int
    var caller: string
    var registeredUsers: set<string>
    var stxTransfers: seq<Transfer>

    ghost predicate Valid()
      reads this`state
    {
      ValidState(state)
    }

    /** Starts as a reset registry. */
    constructor ()
      ensures Valid()
      ensures state == INITIAL_STATE && blockHeight == 0 && caller == DEFAULT_CALLER
      ensures registeredUsers == {DEFAULT_CALLER} && stxTransfers == []
    {
      new;
      Reset();
    }

    /** Reinitialises every field: empty tables, counter 0, default cap and fee,
        no registry, block height 0, the default caller as the only registered
        user, and an empty transfer log. */
    method Reset()
      modifies this
      ensures Valid()
      ensures state == INITIAL_STATE && blockHeight == 0 && caller == DEFAULT_CALLER
      ensures registeredUsers == {DEFAULT_CALLER} && stxTransfers == []
    {
      state := INITIAL_STATE;
      blockHeight := 0;
      caller := DEFAULT_CALLER;
      registeredUsers := {DEFAULT_CALLER};
      stxTransfers := [];
      InitialStateValid();
    }

    /** The identity provider's answer: whether the principal is a registered user. */
    function IsRegisteredUser(principal: string): bool
      reads this`registeredUsers
    {
      principal in registeredUsers
    }

    /** Sets the registry address once: it succeeds only while no address was
        ever set (an empty address counts as set here), and otherwise changes
        nothing, so a set address can never be replaced. */
    method SetRegistryContract(contractPrincipal: string) returns (r: Response<bool>)
      requires Valid()
      modifies this`state
      ensures Valid()
      ensures r.ok == old(state.registryContract).None? && r.value == r.ok
      ensures state == if r.ok then old(state).(registryContract := Some(contractPrincipal)) else old(state)
      ensures (state, r) == SetRegistryStep(old(state), contractPrincipal)
    {
      if state.registryContract.Some? {
        return Response(false, false);
      }
      state := state.(registryContract := Some(contractPrincipal));
      r := Response(true, true);
    }

    /** Sets the fee, without bound, but only once a non-empty registry address
        is configured; otherwise changes nothing. */
    method SetSubmissionFee(newFee: int) returns (r: Response<bool>)
      requires Valid()
      modifies this`state
      ensures Valid()
      ensures r.ok == RegistryConfigured(old(state.registryContract)) && r.value == r.ok
      ensures state == if r.ok then old(state).(submissionFee := newFee) else old(state)
      ensures (state, r) == SetFeeStep(old(state), newFee)
    {
      if !RegistryConfigured(state.registryContract) {
        return Response(false, false);
      }
      state := state.(submissionFee := newFee);
      r := Response(true, true);
    }

    /** Submits a need record. A refusal answers the code of the first failed
        guard and changes neither the state nor the transfer log. A success
        logs one transfer of the current fee from the caller to the registry,
        stores the fields as given, stamped with the block height and the
        caller, under the old counter, indexes the evidence hash to that id,
        advances the counter and answers the id. */
    method SubmitData(location: string, latitude: int, longitude: int, needType: string,
                      quantity: int, unit: string, urgency: int, description: string,
                      evidenceHash: Hash, category: string, expiry: int)
      returns (r: Response<int>)
      requires Valid()
      modifies this`state, this`stxTransfers
      ensures Valid()
      ensures var payload := Payload(location, latitude, longitude, needType, quantity, unit,
                                     urgency, description, evidenceHash, category, expiry);
        (state, r) == SubmitStep(old(state), blockHeight, IsRegisteredUser(caller), caller, payload)
      ensures !r.ok ==> stxTransfers == old(stxTransfers)
      ensures r.ok ==> stxTransfers == old(stxTransfers) + [Transfer(old(state.submissionFee), caller,
                                                                     old(state.registryContract).value)]
      ensures r.ok ==> r.value == old(state.nextSubmissionId) && state.nextSubmissionId == r.value + 1
                       && state.submissions[r.value].submitter == caller
                       && state.submissions[r.value].timestamp == blockHeight
                       && state.submissionsByHash[evidenceHash] == r.value
    {
      if state.nextSubmissionId >= state.maxSubmissions { return Response(false, ERR_MAX_SUBMISSIONS_EXCEEDED); }
      if location == [] || |location| > 50 { return Response(false, ERR_INVALID_LOCATION); }
      if latitude < -MAX_LATITUDE || latitude > MAX_LATITUDE { return Response(false, ERR_INVALID_LATITUDE); }
      if longitude < -MAX_LONGITUDE || longitude > MAX_LONGITUDE { return Response(false, ERR_INVALID_LONGITUDE); }
      if needType !in NEED_TYPES { return Response(false, ERR_INVALID_NEED_TYPE); }
      if quantity <= 0 { return Response(false, ERR_INVALID_QUANTITY); }
      if unit == [] || |unit| > 20 { return Response(false, ERR_INVALID_UNIT); }
      if urgency < 1 || urgency > 10 { return Response(false, ERR_INVALID_URGENCY); }
      if |description| > 500 { return Response(false, ERR_INVALID_DESCRIPTION); }
      if |evidenceHash| != 32 { return Response(false, ERR_INVALID_HASH); }
      if category !in CATEGORIES { return Response(false, ERR_INVALID_CATEGORY); }
      if expiry <= blockHeight { return Response(false, ERR_INVALID_EXPIRY); }
      if !IsRegisteredUser(caller) { return Response(false, ERR_NOT_AUTHORIZED); }
      if evidenceHash in state.submissionsByHash { return Response(false, ERR_SUBMISSION_ALREADY_EXISTS); }
      if state.registryContract.None? || state.registryContract.value == "" {
        return Response(false, ERR_NOT_AUTHORIZED);
      }

      var payload := Payload(location, latitude, longitude, needType, quantity, unit,
                             urgency, description, evidenceHash, category, expiry);
      CommitPreservesValid(state, blockHeight, IsRegisteredUser(caller), caller, payload);

      stxTransfers := stxTransfers + [Transfer(state.submissionFee, caller, state.registryContract.value)];

      var id := state.nextSubmissionId;
      var submission := Record(payload, blockHeight, caller);
      state := state.(submissions := state.submissions[id := submission]);
      state := state.(submissionsByHash := state.submissionsByHash[evidenceHash := id]);
      state := state.(nextSubmissionId := state.nextSubmissionId + 1);
      r := Response(true, id);
    }

    /** The stored record under `id`, if any: present exactly for the ids
        already handed out. */
    function GetSubmission(id: int): (r: Option<Submission>)
      reads this`state
      requires Valid()
      ensures r.Some? <==> 0 <= id < state.nextSubmissionId
      ensures r.Some? ==> r.value == state.submissions[id] && RecordWellFormed(r.value)
    {
      if id in state.submissions then Some(state.submissions[id]) else None
    }

    /** Amends quantity, urgency and description of the caller's own record.
        Every refusal (unknown id, another caller, a bad value) answers a bare
        false and changes nothing. A success overwrites those three fields and
        the timestamp, replaces the amendment record for the id, and leaves the
        submitter, the evidence hash, the index and the counter alone. */
    method UpdateSubmission(id: int, updateQuantity: int, updateUrgency: int, updateDescription: string)
      returns (r: Response<bool>)
      requires Valid()
      modifies this`state
      ensures Valid()
      ensures (state, r) == AmendStep(old(state), blockHeight, caller, id, updateQuantity, updateUrgency,
                                      updateDescription)
      ensures r.ok <==> AmendAllowed(old(state), caller, id, updateQuantity, updateUrgency, updateDescription)
      ensures state.submissions.Keys == old(state.submissions.Keys)
      ensures forall j :: j in old(state.submissions) ==>
        state.submissions[j].submitter == old(state.submissions[j].submitter)
        && state.submissions[j].evidenceHash == old(state.submissions[j].evidenceHash)
      ensures state.submissionsByHash == old(state.submissionsByHash)
      ensures state.nextSubmissionId == old(state.nextSubmissionId)
      ensures r.ok ==> state.submissionUpdates[id].updater == caller
    {
      if id !in state.submissions {
        return Response(false, false);
      }
      var submission := state.submissions[id];
      if submission.submitter != caller {
        return Response(false, false);
      }
      if updateQuantity <= 0 {
        return Response(false, false);
      }
      if updateUrgency < 1 || updateUrgency > 10 {
        return Response(false, false);
      }
      if |updateDescription| > 500 {
        return Response(false, false);
      }
      AmendPreservesValid(state, blockHeight, caller, id, updateQuantity, updateUrgency, updateDescription);
      AmendTouchesOnlyItsRecord(state, blockHeight, caller, id, updateQuantity, updateUrgency, updateDescription);

      var updated := submission.(quantity := updateQuantity, urgency := updateUrgency,
                                 description := updateDescription, timestamp := blockHeight);
      state := state.(submissions := state.submissions[id := updated]);
      state := state.(submissionUpdates := state.submissionUpdates[id := SubmissionUpdate(
                        updateQuantity, updateUrgency, updateDescription, blockHeight, caller)]);
      r := Response(true, true);
    }

    /** The counter, which equals the number of stored submissions. */
    function GetSubmissionCount(): (r: nat)
      reads this`state
      requires Valid()
      ensures r == |state.submissions|
    {
      CountIsNumberOfSubmissions(state);
      state.nextSubmissionId
    }

    /** Whether some stored submission carries this evidence hash. */
    function CheckSubmissionExistence(hash: Hash): (r: bool)
      reads this`state
      requires Valid()
      ensures r <==> exists id :: id in state.submissions && state.submissions[id].evidenceHash == hash
    {
      IndexMatchesTable(state, hash);
      hash in state.submissionsByHash
    }
  }
}
