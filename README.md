# Disaster-needs data submission registry, modelled in Dafny

This project models `DataSubmissionMock`, the in-memory stand-in for the
data-submission contract of a disaster-relief-needs registry. Registered
parties submit need records (location, coordinates, need type, quantity and
unit, urgency, description, a 32-byte evidence hash, category, expiry) and pay
a fee to the configured registry for each one. They may later amend the
quantity, urgency and description of their own records.

The mock holds four things:
- a `state` record: the id counter, the capacity cap, the fee, the registry address,
  write-once until a reset, and three tables (submissions by id, the latest
  amendment by id, and ids by evidence hash);
- the current block height and caller;
- the set of registered users;
- the log of fee transfers.

Modules:

- `Wrappers`: the `Option` type.
- `Validation`: the error codes, the submission payload and one predicate per
  field check. It also holds `Guard` and `FirstFailure`, an independent
  definition of "the code of the first failing check in an ordered chain".
- `Registry`: the stored record types, the `State` record and the registry
  invariant `ValidState`. Also the submission and amendment transitions as
  functions of the old state (`SubmitCheck`, `SubmitStep`, `AmendStep`), the
  two configuration transitions (`SetRegistryStep`, `SetFeeStep`), and runs
  of arbitrary calls between resets (`Op`, `Apply`, `Run`), with the lemmas about them. The invariant says:
  - ids are exactly `0 .. nextSubmissionId-1`;
  - the hash index and the table agree in both directions;
  - stored records are well formed;
  - amendment records belong to stored submissions and were made by their submitters;
  - the counter never passes the cap.
- `DataSubmission`: the class `DataSubmissionMock`, with the mock's fields.
  - `Reset`, `SetRegistryContract`, `SetSubmissionFee`, `SubmitData` and
    `UpdateSubmission` change the fields in place, with the same branches in
    the same order as the mock.
  - Each is proved to keep `Valid()`, and each ensures gives the whole new
    state. For `SubmitData`, `UpdateSubmission`, `SetRegistryContract` and
    `SetSubmissionFee` that state is the matching transition of `Registry`
    (`SubmitStep`, `AmendStep`, `SetRegistryStep`, `SetFeeStep`). For
    `Reset` it is the initial values.
  - The queries are functions.
- `Scenarios`: the mock's own test cases, replayed as client code. Each
  method builds a fresh registry, makes the calls of one case and asserts the
  expected answers and state, using only the contracts above. One more
  scenario shows that an empty registry address locks the configuration until a reset.

Behaviour of the mock that the model keeps as written:

- Every refused amendment answers a bare `false`. It does not answer a
  "not found" or "invalid parameter" code, so codes 108 and 116 are declared
  but never returned.
- A failed write-once check on the registry address also answers a bare
  `false`.
- A missing registry address is the last guard of a submission, after every
  field check, the registration check and the duplicate check. It does not
  come before validation. It answers `ERR_NOT_AUTHORIZED` (100), the same
  code as an unregistered caller.
- The registry address is checked in two different ways:
  - `SetRegistryContract` asks only whether an address was ever set.
  - Fees and submissions ask whether it is set and non-empty (JavaScript
    truthiness; `RegistryConfigured`).

  So an address set to the empty string cannot be replaced before a reset, yet it still
  blocks fee changes and submissions. The model reproduces this.

## Model

| member | source | states |
|---|---|---|
| Validation.FirstFailure | tests/DataSubmission.test.ts:125-140 | The reference meaning of a guard chain. It reports None exactly when every guard holds. Otherwise it reports the code of a guard that fails while all earlier guards hold. |
| Validation.FirstFailureAt | tests/DataSubmission.test.ts:125-140 | If guard k is the first one to fail, the chain reports exactly guard k's code. |
| Registry.InitialStateValid | tests/DataSubmission.test.ts:60-68 | The initial state satisfies the registry invariant. Its counter is 0 and it has no usable registry address. |
| Registry.SubmitCheck | tests/DataSubmission.test.ts:125-140 | The submission guard chain in source order. It accepts exactly when there is room, every field is valid, expiry is past the block height, the caller is registered, the hash is new and the registry is configured. Otherwise it reports one of the fourteen submission error codes. |
| Registry.SubmitCheckIsFirstFailure | tests/DataSubmission.test.ts:125-140 | For every input, the submission check equals the first failure of the ordered list of fifteen guards (capacity 115, location 101, … expiry 120, registration 100, duplicate 107, registry 100). |
| Registry.LaterGuardsDecide | tests/DataSubmission.test.ts:132-140 | The same equality, once the capacity guard and the first six field guards hold. |
| Registry.FullRegistryRefuses | tests/DataSubmission.test.ts:125 | Capacity is checked first. A registry at its cap refuses every submission with 115. |
| Registry.UnregisteredCallerRefused | tests/DataSubmission.test.ts:137 | With room left and valid fields, an unregistered caller gets 100, whatever the hash and the registry address. |
| Registry.DuplicateEvidenceRefused | tests/DataSubmission.test.ts:138-139 | When every earlier guard passes, an evidence hash that is already indexed gets 107. |
| Registry.UnconfiguredRegistryRefused | tests/DataSubmission.test.ts:140 | When every earlier guard passes, a missing or empty registry address gets 100. |
| Registry.CommitPreservesValid | tests/DataSubmission.test.ts:144-163 | An accepted submission keeps the invariant. It stores the new record under the old counter, advances the counter by one and leaves every earlier record unchanged. |
| Registry.SubmitStepPreservesValid | tests/DataSubmission.test.ts:124-164 | Any submission, accepted or refused, keeps the invariant. The counter advances by one exactly when the submission succeeds, and a success reports the old counter as its id. |
| Registry.ApplyAdvancesCounter | tests/DataSubmission.test.ts:144-163 | Any single call other than a reset (submission, amendment, registry or fee setting) advances the counter by one exactly when it hands out an id, and that id is the old counter. |
| Registry.ApplyPreservesValid | tests/DataSubmission.test.ts:98-195 | Any single call other than a reset keeps the invariant. |
| Registry.ApplyKeepsRegistryAndSubmitters | tests/DataSubmission.test.ts:98-195 | No single call other than a reset replaces a registry address once set, drops a stored record, or changes a record's submitter or evidence hash. |
| Registry.RunAssignsConsecutiveIds | tests/DataSubmission.test.ts:144-163 | Over any run of calls without a reset, with any callers, registrations and block heights, and with amendments and configuration changes in between, the ids handed out are consecutive from the old counter. So they are never reused between resets, and the counter ends just past the last one. |
| Registry.RunPreservesValid | tests/DataSubmission.test.ts:98-195 | Any run of calls without a reset keeps the invariant. |
| Registry.RunKeepsRegistryAndSubmitters | tests/DataSubmission.test.ts:98-195 | Over any run of calls without a reset, a registry address once set stays the same, and every stored record stays stored with its submitter and evidence hash unchanged. |
| Registry.SameEvidenceNeverAcceptedTwice | tests/DataSubmission.test.ts:138-162 | After an accepted submission, and after any run of further calls without a reset (submissions, amendments, configuration changes), its hash is still indexed. A submission with the same hash by any caller, at any block height and whatever its other fields, is refused and leaves the state unchanged. |
| Registry.CountIsNumberOfSubmissions | tests/DataSubmission.test.ts:197-199 | Under the invariant, the counter equals the number of stored submissions. |
| Registry.IndexMatchesTable | tests/DataSubmission.test.ts:201-204 | Under the invariant, a hash is indexed exactly when some stored submission carries it, and the index entry names that submission. |
| Registry.AmendPreservesValid | tests/DataSubmission.test.ts:179-194 | An accepted amendment keeps the invariant. |
| Registry.AmendTouchesOnlyItsRecord | tests/DataSubmission.test.ts:179-194 | An amendment overwrites exactly the quantity, urgency, description and timestamp of its own record. The submitter, the evidence hash, every other record, the hash index and the counter stay as they were. |
| DataSubmission.DataSubmissionMock.constructor | tests/DataSubmission.test.ts:74-76 | A new registry is built by a reset, so it is in the reset state and the invariant holds. |
| DataSubmission.DataSubmissionMock.Reset | tests/DataSubmission.test.ts:78-92 | Reset gives empty tables, counter 0, cap 10000, fee 500, no registry, block height 0, caller ST1TEST as the only registered user and an empty transfer log. The invariant holds afterwards. |
| DataSubmission.DataSubmissionMock.SetRegistryContract | tests/DataSubmission.test.ts:98-104 | It succeeds exactly when no address was ever set, and then stores the new one. Otherwise it answers (false, false) and the state is unchanged, so this call never replaces an address. The new state and answer are those of `SetRegistryStep`. |
| DataSubmission.DataSubmissionMock.SetSubmissionFee | tests/DataSubmission.test.ts:106-110 | It succeeds exactly when a non-empty registry address is set, and then stores the fee without any bound. Otherwise it answers (false, false) and the state is unchanged. The new state and answer are those of `SetFeeStep`. |
| DataSubmission.DataSubmissionMock.SubmitData | tests/DataSubmission.test.ts:112-165 | It performs exactly the submission transition and keeps the invariant. A refusal answers the first failed guard's code and leaves the state and the transfer log unchanged. A success logs one transfer of the current fee from the caller to the registry, stores the record stamped with the block height and the caller under the old counter, indexes its hash and returns that id. |
| DataSubmission.DataSubmissionMock.GetSubmission | tests/DataSubmission.test.ts:167-169 | A record is found exactly for ids 0 .. counter-1. A found record is the stored one. It passes every field check except expiry, which is only checked against the block height at submission. |
| DataSubmission.DataSubmissionMock.UpdateSubmission | tests/DataSubmission.test.ts:171-195 | It succeeds exactly when the id exists, the caller is its submitter and the new values pass their checks. Every refusal answers a bare false and changes nothing. Ids, submitters, evidence hashes, the hash index and the counter never change. On success the amendment record names the caller. |
| DataSubmission.DataSubmissionMock.GetSubmissionCount | tests/DataSubmission.test.ts:197-199 | The answer is the number of stored submissions. |
| DataSubmission.DataSubmissionMock.CheckSubmissionExistence | tests/DataSubmission.test.ts:201-204 | The answer is true exactly when some stored submission carries this evidence hash. |

## Left out

- The test harness itself (`describe`, `it`, `expect`, `beforeEach`). Its cases appear only as the client methods of module `Scenarios`.
- The unused `@stacks/transactions` import.
- Node's `Buffer` and its hex rendering. The evidence hash is a byte sequence, and the index is keyed by the bytes. Hex encoding is injective, so this is the same index.
- JavaScript numbers. Coordinates, quantities, urgencies, fees, ids and block heights are unbounded integers, so NaN, infinities and fractional values are not modelled.
- String lengths are sequence lengths. UTF-16 code-unit counting is not modelled.
- The external identity provider. It is the `registeredUsers` set, as in the mock.
- The STX token transfer. It is an append-only log of amounts, senders and recipients, with no balances; the transfer cannot fail in the code either.
- The `ok` flag of the query results, which is always true. The queries return plain values.
- DataSubmission.DataSubmissionMock.IsRegisteredUser: a plain membership read of `registeredUsers`. It carries no contract, because membership is all it answers.
- Direct writes to the mock's public fields are not modelled as operations. The test cases write `caller`, `registeredUsers` and `state.maxSubmissions` directly, and `Scenarios` does the same. A write to `maxSubmissions` can break the invariant (a cap below the counter). The mutators and the queries `GetSubmission`, `GetSubmissionCount` and `CheckSubmissionExistence` all require `Valid()` beforehand.
- SubmitData, GetSubmission and the evidence hash: records and hashes are values in the model. The mock stores the caller's own `Buffer` in the record and keys the index by its hex string, taken at submission time. `getSubmission` returns the stored object itself. A client that later mutates that buffer or the returned object changes the table but not the index. The model does not capture this sharing. Its invariant, `IndexMatchesTable` and the contract of `CheckSubmissionExistence` hold in the mock only while clients do not mutate what they share with it.
- Registry.Op, Registry.Run: a reset is not a step of a run. `Reset` puts the registry back in its initial state: no registry address, empty tables, counter 0. After it, ids from 0 are handed out again. So the write-once registry address, the permanence of stored records and their submitters, ids never being reused, and a submitted hash staying known hold only between resets. The run lemmas state them for runs without a reset.
