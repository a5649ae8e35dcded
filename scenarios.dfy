/** The registry's own test cases, replayed as client code: each method drives
    a fresh registry through the calls of one case and asserts the outcomes
    the case expects, using only the contracts of the operations. */
module Scenarios {
  import opened Wrappers
  import opened Validation
  import opened Registry
  import opened DataSubmission

  /** A 32-byte evidence buffer filled with one byte value. */
  function Filled(b: bv8): (h: Hash)
    ensures |h| == 32 && forall i :: 0 <= i < 32 ==> h[i] == b
  {
    seq(32, _ => b)
  }

  method SubmitsDataSuccessfully()
  {
    var m := new DataSubmissionMock();
    var _ := m.SetRegistryContract("ST2TEST");
    var p := Payload("DisasterZone1", 40000000, -75000000, "food", 1000, "kg", 8,
                     "Urgent food needs", Filled(1), "emergency", 100);
    var r := m.SubmitData(p.location, p.latitude, p.longitude, p.needType, p.quantity, p.unit,
                          p.urgency, p.description, p.evidenceHash, p.category, p.expiry);
    assert r == Response(true, 0);
    var s := m.GetSubmission(0);
    assert s == Some(Submission("DisasterZone1", 40000000, -75000000, "food", 1000, "kg", 8,
                                "Urgent food needs", Filled(1), 0, "ST1TEST", "emergency", true, 100));
    assert m.stxTransfers == [Transfer(500, "ST1TEST", "ST2TEST")];
  }

  method RejectsDuplicateEvidenceHash()
  {
    var m := new DataSubmissionMock();
    var _ := m.SetRegistryContract("ST2TEST");
    var p := Payload("Zone1", 40000000, -75000000, "food", 1000, "kg", 8, "Needs",
                     Filled(1), "emergency", 100);
    var first := m.SubmitData(p.location, p.latitude, p.longitude, p.needType, p.quantity, p.unit,
                              p.urgency, p.description, p.evidenceHash, p.category, p.expiry);
    var q := Payload("Zone2", 50000000, -80000000, "water", 2000, "liters", 9, "Water needs",
                     Filled(1), "ongoing", 200);
    var r := m.SubmitData(q.location, q.latitude, q.longitude, q.needType, q.quantity, q.unit,
                          q.urgency, q.description, q.evidenceHash, q.category, q.expiry);
    assert first.ok && r == Response(false, ERR_SUBMISSION_ALREADY_EXISTS);
    assert m.GetSubmissionCount() == 1;
  }

  method RejectsNonRegisteredUser()
  {
    var m := new DataSubmissionMock();
    var _ := m.SetRegistryContract("ST2TEST");
    m.caller := "ST2FAKE";
    m.registeredUsers := {};
    var p := Payload("Zone", 40000000, -75000000, "food", 1000, "kg", 8, "Needs",
                     Filled(2), "emergency", 100);
    var r := m.SubmitData(p.location, p.latitude, p.longitude, p.needType, p.quantity, p.unit,
                          p.urgency, p.description, p.evidenceHash, p.category, p.expiry);
    assert r == Response(false, ERR_NOT_AUTHORIZED);
  }

  method RejectsSubmissionWithoutRegistryContract()
  {
    var m := new DataSubmissionMock();
    var p := Payload("NoReg", 40000000, -75000000, "food", 1000, "kg", 8, "Needs",
                     Filled(3), "emergency", 100);
    var r := m.SubmitData(p.location, p.latitude, p.longitude, p.needType, p.quantity, p.unit,
                          p.urgency, p.description, p.evidenceHash, p.category, p.expiry);
    assert r == Response(false, ERR_NOT_AUTHORIZED);
    assert m.stxTransfers == [];
  }

  method RejectsInvalidLatitude()
  {
    var m := new DataSubmissionMock();
    var _ := m.SetRegistryContract("ST2TEST");
    var p := Payload("InvalidLat", 91000000, -75000000, "food", 1000, "kg", 8, "Needs",
                     Filled(4), "emergency", 100);
    var r := m.SubmitData(p.location, p.latitude, p.longitude, p.needType, p.quantity, p.unit,
                          p.urgency, p.description, p.evidenceHash, p.category, p.expiry);
    assert r == Response(false, ERR_INVALID_LATITUDE);
  }

  method RejectsInvalidNeedType()
  {
    var m := new DataSubmissionMock();
    var _ := m.SetRegistryContract("ST2TEST");
    var p := Payload("InvalidType", 40000000, -75000000, "invalid", 1000, "kg", 8, "Needs",
                     Filled(5), "emergency", 100);
    var r := m.SubmitData(p.location, p.latitude, p.longitude, p.needType, p.quantity, p.unit,
                          p.urgency, p.description, p.evidenceHash, p.category, p.expiry);
    assert r == Response(false, ERR_INVALID_NEED_TYPE);
  }

  method UpdatesSubmissionSuccessfully()
  {
    var m := new DataSubmissionMock();
    var _ := m.SetRegistryContract("ST2TEST");
    var p := Payload("Zone", 40000000, -75000000, "food", 1000, "kg", 8, "Old desc",
                     Filled(6), "emergency", 100);
    var first := m.SubmitData(p.location, p.latitude, p.longitude, p.needType, p.quantity, p.unit,
                              p.urgency, p.description, p.evidenceHash, p.category, p.expiry);
    var r := m.UpdateSubmission(0, 1500, 9, "New desc");
    assert first.ok && r == Response(true, true);
    var s := m.GetSubmission(0);
    assert s.Some? && s.value.quantity == 1500 && s.value.urgency == 9 && s.value.description == "New desc";
    assert s.value.submitter == "ST1TEST" && s.value.evidenceHash == Filled(6);
    assert m.state.submissionUpdates[0] == SubmissionUpdate(1500, 9, "New desc", 0, "ST1TEST");
  }

  method RejectsUpdateForNonExistentSubmission()
  {
    var m := new DataSubmissionMock();
    var _ := m.SetRegistryContract("ST2TEST");
    var r := m.UpdateSubmission(99, 1500, 9, "New desc");
    assert r == Response(false, false);
  }

  method RejectsUpdateByNonSubmitter()
  {
    var m := new DataSubmissionMock();
    var _ := m.SetRegistryContract("ST2TEST");
    var p := Payload("Zone", 40000000, -75000000, "food", 1000, "kg", 8, "Desc",
                     Filled(7), "emergency", 100);
    var first := m.SubmitData(p.location, p.latitude, p.longitude, p.needType, p.quantity, p.unit,
                              p.urgency, p.description, p.evidenceHash, p.category, p.expiry);
    m.caller := "ST3FAKE";
    var r := m.UpdateSubmission(0, 1500, 9, "New desc");
    assert first.ok && r == Response(false, false);
    assert m.GetSubmission(0).value.quantity == 1000;
  }

  method SetsSubmissionFeeSuccessfully()
  {
    var m := new DataSubmissionMock();
    var _ := m.SetRegistryContract("ST2TEST");
    var r := m.SetSubmissionFee(1000);
    assert r == Response(true, true);
    assert m.state.submissionFee == 1000;
    var p := Payload("Zone", 40000000, -75000000, "food", 1000, "kg", 8, "Desc",
                     Filled(8), "emergency", 100);
    var s := m.SubmitData(p.location, p.latitude, p.longitude, p.needType, p.quantity, p.unit,
                          p.urgency, p.description, p.evidenceHash, p.category, p.expiry);
    assert s.ok;
    assert m.stxTransfers == [Transfer(1000, "ST1TEST", "ST2TEST")];
  }

  method RejectsSubmissionFeeChangeWithoutRegistry()
  {
    var m := new DataSubmissionMock();
    var r := m.SetSubmissionFee(1000);
    assert r == Response(false, false);
    assert m.state.submissionFee == 500;
  }

  method ReturnsCorrectSubmissionCount()
  {
    var m := new DataSubmissionMock();
    var _ := m.SetRegistryContract("ST2TEST");
    var p := Payload("Zone1", 40000000, -75000000, "food", 1000, "kg", 8, "Desc1",
                     Filled(9), "emergency", 100);
    var a := m.SubmitData(p.location, p.latitude, p.longitude, p.needType, p.quantity, p.unit,
                          p.urgency, p.description, p.evidenceHash, p.category, p.expiry);
    var q := Payload("Zone2", 50000000, -80000000, "water", 2000, "liters", 9, "Desc2",
                     Filled(10), "ongoing", 200);
    assert Filled(10)[0] != Filled(9)[0];
    var b := m.SubmitData(q.location, q.latitude, q.longitude, q.needType, q.quantity, q.unit,
                          q.urgency, q.description, q.evidenceHash, q.category, q.expiry);
    assert a == Response(true, 0) && b == Response(true, 1);
    assert m.GetSubmissionCount() == 2;
  }

  method ChecksSubmissionExistenceCorrectly()
  {
    var m := new DataSubmissionMock();
    var _ := m.SetRegistryContract("ST2TEST");
    var p := Payload("Zone", 40000000, -75000000, "food", 1000, "kg", 8, "Desc",
                     Filled(11), "emergency", 100);
    var s := m.SubmitData(p.location, p.latitude, p.longitude, p.needType, p.quantity, p.unit,
                          p.urgency, p.description, p.evidenceHash, p.category, p.expiry);
    assert s.ok;
    assert m.CheckSubmissionExistence(Filled(11));
    assert Filled(12)[0] != Filled(11)[0];
    assert !m.CheckSubmissionExistence(Filled(12));
  }

  method RejectsSubmissionWithEmptyLocation()
  {
    var m := new DataSubmissionMock();
    var _ := m.SetRegistryContract("ST2TEST");
    var p := Payload("", 40000000, -75000000, "food", 1000, "kg", 8, "Desc",
                     Filled(13), "emergency", 100);
    var r := m.SubmitData(p.location, p.latitude, p.longitude, p.needType, p.quantity, p.unit,
                          p.urgency, p.description, p.evidenceHash, p.category, p.expiry);
    assert r == Response(false, ERR_INVALID_LOCATION);
  }

  method RejectsSubmissionWithMaxSubmissionsExceeded()
  {
    var m := new DataSubmissionMock();
    var _ := m.SetRegistryContract("ST2TEST");
    m.state := m.state.(maxSubmissions := 1);
    var p := Payload("Zone1", 40000000, -75000000, "food", 1000, "kg", 8, "Desc1",
                     Filled(14), "emergency", 100);
    var a := m.SubmitData(p.location, p.latitude, p.longitude, p.needType, p.quantity, p.unit,
                          p.urgency, p.description, p.evidenceHash, p.category, p.expiry);
    var q := Payload("Zone2", 50000000, -80000000, "water", 2000, "liters", 9, "Desc2",
                     Filled(15), "ongoing", 200);
    var r := m.SubmitData(q.location, q.latitude, q.longitude, q.needType, q.quantity, q.unit,
                          q.urgency, q.description, q.evidenceHash, q.category, q.expiry);
    assert a.ok && r == Response(false, ERR_MAX_SUBMISSIONS_EXCEEDED);
  }

  method SetsRegistryContractSuccessfully()
  {
    var m := new DataSubmissionMock();
    var r := m.SetRegistryContract("ST2TEST");
    assert r == Response(true, true);
    assert m.state.registryContract == Some("ST2TEST");
    var again := m.SetRegistryContract("ST9OTHER");
    assert again == Response(false, false);
    assert m.state.registryContract == Some("ST2TEST");
  }

  /** An empty registry address is "set" for the write-once check yet "not set"
      for fees and submissions, so it locks the configuration until a reset. */
  method EmptyRegistryAddressLocksConfiguration()
  {
    var m := new DataSubmissionMock();
    var r := m.SetRegistryContract("");
    assert r.ok;
    var again := m.SetRegistryContract("ST2TEST");
    assert !again.ok && m.state.registryContract == Some("");
    var fee := m.SetSubmissionFee(1000);
    assert !fee.ok;
    var p := Payload("Zone", 40000000, -75000000, "food", 1000, "kg", 8, "Desc",
                     Filled(16), "emergency", 100);
    var s := m.SubmitData(p.location, p.latitude, p.longitude, p.needType, p.quantity, p.unit,
                          p.urgency, p.description, p.evidenceHash, p.category, p.expiry);
    assert s == Response(false, ERR_NOT_AUTHORIZED) && m.stxTransfers == [];
  }
}
