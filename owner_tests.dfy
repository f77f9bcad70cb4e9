/** The unit tests of owner.rs as client code: each method drives a fresh `Owner` through the
    test's calls and promises, in its postcondition, the outcomes the test asserts. */
module OwnerTests {
  import opened Wrappers
  import opened Owner

  /** The test host's address validation, taken to accept every address the tests use. */
  function MockValidate(raw: string): Result<Addr, string> {
    Ok(Addr(raw))
  }

  const Rejected: OwnerResult<Response> := Err(StateTransitionError)

  // ---------------------------------------------------------------------------------------
  // Invalid state transitions
  // ---------------------------------------------------------------------------------------

  /** Every update against an empty slot fails with `StateTransitionError`. */
  method InvalidUninitializedStateTransitions() returns (results: seq<OwnerResult<Response>>)
    ensures results == [Rejected, Rejected, Rejected, Rejected, Rejected, Rejected]
  {
    var sender := Addr("peter_parker");
    var owner := new Owner("xyz");
    var r0 := owner.Update(MockValidate, sender, ProposeNewOwner("abc"));
    var r1 := owner.Update(MockValidate, sender, ClearProposed);
    var r2 := owner.Update(MockValidate, sender, AcceptProposed);
    var r3 := owner.Update(MockValidate, sender, OwnerUpdate.AbolishOwnerRole);
    var r4 := owner.Update(MockValidate, sender, SetEmergencyOwner("xyz"));
    var r5 := owner.Update(MockValidate, sender, ClearEmergencyOwner);
    results := [r0, r1, r2, r3, r4, r5];
  }

  /** With an owner and no proposal, a second initialisation and the proposal events fail. */
  method InvalidOwnerSetNoProposedStateTransitions()
    returns (init: OwnerResult<()>, results: seq<OwnerResult<Response>>)
    ensures init == Err(StateTransitionError)
    ensures results == [Rejected, Rejected]
  {
    var sender := Addr("peter_parker");
    var owner := new Owner("xyz");
    var first := owner.Initialize(MockValidate, SetInitialOwner(sender.value));
    assert first.Ok?;
    init := owner.Initialize(MockValidate, SetInitialOwner("abc"));
    var r0 := owner.Update(MockValidate, sender, ClearProposed);
    var r1 := owner.Update(MockValidate, sender, AcceptProposed);
    results := [r0, r1];
  }

  /** With a proposal pending, initialisation, a second proposal and both emergency events
      fail with `StateTransitionError`, even when the owner sends them. */
  method InvalidOwnerSetWithProposedStateTransitions()
    returns (init: OwnerResult<()>, results: seq<OwnerResult<Response>>)
    ensures init == Err(StateTransitionError)
    ensures results == [Rejected, Rejected, Rejected]
  {
    var sender := Addr("peter_parker");
    var owner := new Owner("xyz");
    var first := owner.Initialize(MockValidate, SetInitialOwner(sender.value));
    assert first.Ok?;
    var proposal := owner.Update(MockValidate, sender, ProposeNewOwner("abc"));
    assert proposal.Ok?;
    init := owner.Initialize(MockValidate, SetInitialOwner("abc"));
    var r0 := owner.Update(MockValidate, sender, ProposeNewOwner("efg"));
    var r1 := owner.Update(MockValidate, sender, SetEmergencyOwner("xyz"));
    var r2 := owner.Update(MockValidate, sender, ClearEmergencyOwner);
    results := [r0, r1, r2];
  }

  /** After abolition at initialisation, initialisation and every update fail. */
  method InvalidOwnerRoleAbolishedStateTransitions()
    returns (init: OwnerResult<()>, results: seq<OwnerResult<Response>>)
    ensures init == Err(StateTransitionError)
    ensures results == [Rejected, Rejected, Rejected, Rejected, Rejected, Rejected]
  {
    var sender := Addr("peter_parker");
    var owner := new Owner("xyz");
    var first := owner.Initialize(MockValidate, OwnerInit.AbolishOwnerRole);
    assert first.Ok?;
    init := owner.Initialize(MockValidate, SetInitialOwner("abc"));
    var r0 := owner.Update(MockValidate, sender, ProposeNewOwner("efg"));
    var r1 := owner.Update(MockValidate, sender, ClearProposed);
    var r2 := owner.Update(MockValidate, sender, AcceptProposed);
    var r3 := owner.Update(MockValidate, sender, OwnerUpdate.AbolishOwnerRole);
    var r4 := owner.Update(MockValidate, sender, SetEmergencyOwner("xyz"));
    var r5 := owner.Update(MockValidate, sender, ClearEmergencyOwner);
    results := [r0, r1, r2, r3, r4, r5];
  }

  // ---------------------------------------------------------------------------------------
  // Permissions
  // ---------------------------------------------------------------------------------------

  /** Anybody may initialise, either way. */
  method InitializeOwnerPermissions() returns (abolish: OwnerResult<()>, setOwner: OwnerResult<()>)
    ensures abolish == Ok(()) && setOwner == Ok(())
  {
    var first := new Owner("xyz");
    abolish := first.Initialize(MockValidate, OwnerInit.AbolishOwnerRole);
    var second := new Owner("xyz");
    setOwner := second.Initialize(MockValidate, SetInitialOwner("xyz"));
  }

  /** Somebody other than the owner cannot propose, and the stored state stays as it was. */
  method ProposeNewOwnerPermissions() returns (err: OwnerResult<Response>, after: OwnerResponse)
    ensures err == Err(NotOwner)
    ensures after == OwnerResponse(Some("peter_parker"), None, true, false, None)
  {
    var owner := new Owner("xyz");
    var init := owner.Initialize(MockValidate, SetInitialOwner("peter_parker"));
    assert init.Ok?;
    err := owner.Update(MockValidate, Addr("doc_oc"), ProposeNewOwner("doc_oc"));
    after := Query(owner.State());
  }

  /** Somebody other than the owner cannot clear a proposal, and it stays pending. */
  method ClearProposedPermissions() returns (err: OwnerResult<Response>, after: OwnerResponse)
    ensures err == Err(NotOwner)
    ensures after == OwnerResponse(Some("peter_parker"), Some("miles_morales"), true, false, None)
  {
    var owner := new Owner("xyz");
    var init := owner.Initialize(MockValidate, SetInitialOwner("peter_parker"));
    assert init.Ok?;
    var proposal := owner.Update(MockValidate, Addr("peter_parker"), ProposeNewOwner("miles_morales"));
    assert proposal.Ok?;
    err := owner.Update(MockValidate, Addr("doc_oc"), ClearProposed);
    after := Query(owner.State());
  }

  /** Somebody other than the proposed owner cannot accept, and the proposal stays pending. */
  method AcceptProposedPermissions() returns (err: OwnerResult<Response>, after: OwnerResponse)
    ensures err == Err(NotProposedOwner)
    ensures after == OwnerResponse(Some("peter_parker"), Some("miles_morales"), true, false, None)
  {
    var owner := new Owner("xyz");
    var init := owner.Initialize(MockValidate, SetInitialOwner("peter_parker"));
    assert init.Ok?;
    var proposal := owner.Update(MockValidate, Addr("peter_parker"), ProposeNewOwner("miles_morales"));
    assert proposal.Ok?;
    err := owner.Update(MockValidate, Addr("doc_oc"), AcceptProposed);
    after := Query(owner.State());
  }

  /** Somebody other than the owner cannot abolish the role. */
  method AbolishOwnerRolePermissions() returns (err: OwnerResult<Response>, after: OwnerResponse)
    ensures err == Err(NotOwner)
    ensures after == OwnerResponse(Some("peter_parker"), None, true, false, None)
  {
    var owner := new Owner("xyz");
    var init := owner.Initialize(MockValidate, SetInitialOwner("peter_parker"));
    assert init.Ok?;
    err := owner.Update(MockValidate, Addr("doc_oc"), OwnerUpdate.AbolishOwnerRole);
    after := Query(owner.State());
  }

  /** Somebody other than the owner cannot set an emergency owner. */
  method SetEmergencyOwnerPermissions() returns (err: OwnerResult<Response>, after: OwnerResponse)
    ensures err == Err(NotOwner)
    ensures after == OwnerResponse(Some("peter_parker"), None, true, false, None)
  {
    var owner := new Owner("xyz");
    var init := owner.Initialize(MockValidate, SetInitialOwner("peter_parker"));
    assert init.Ok?;
    err := owner.Update(MockValidate, Addr("doc_oc"), SetEmergencyOwner("doc_oc"));
    after := Query(owner.State());
  }

  /** Somebody other than the owner cannot clear the emergency owner. */
  method ClearEmergencyOwnerPermissions() returns (err: OwnerResult<Response>)
    ensures err == Err(NotOwner)
  {
    var owner := new Owner("xyz");
    var init := owner.Initialize(MockValidate, SetInitialOwner("peter_parker"));
    assert init.Ok?;
    err := owner.Update(MockValidate, Addr("doc_oc"), ClearEmergencyOwner);
  }

  // ---------------------------------------------------------------------------------------
  // Successful transitions
  // ---------------------------------------------------------------------------------------

  /** A fresh slot reads as `Uninitialized` and answers the query with no role at all. */
  method UninitializedState() returns (state: OwnerState, res: OwnerResponse)
    ensures state == Uninitialized
    ensures res == OwnerResponse(None, None, false, false, None)
  {
    var owner := new Owner("xyz");
    state := owner.State();
    res := Query(state);
  }

  /** Initialising with an owner stores `Std` with that owner and nobody proposed. */
  method InitializeOwner() returns (isOwner: bool, res: OwnerResponse)
    ensures isOwner
    ensures res == OwnerResponse(Some("peter_parker"), None, true, false, None)
  {
    var original := Addr("peter_parker");
    var owner := new Owner("xyz");
    var init := owner.Initialize(MockValidate, SetInitialOwner(original.value));
    assert init.Ok?;
    assert owner.State().Std?;
    isOwner := IsOwner(owner.State(), original);
    res := Query(owner.State());
  }

  /** The owner's proposal stores `Proposed`, the owner staying the owner. */
  method ProposeNewOwnerSucceeds() returns (isOwner: bool, isProposed: bool, res: OwnerResponse)
    ensures isOwner && isProposed
    ensures res == OwnerResponse(Some("peter_parker"), Some("miles_morales"), true, false, None)
  {
    var original, proposed := Addr("peter_parker"), Addr("miles_morales");
    var owner := new Owner("xyz");
    var init := owner.Initialize(MockValidate, SetInitialOwner(original.value));
    assert init.Ok?;
    var r := owner.Update(MockValidate, original, ProposeNewOwner("miles_morales"));
    assert r.Ok?;
    assert owner.State().Proposed?;
    isOwner := IsOwner(owner.State(), original);
    isProposed := IsProposed(owner.State(), proposed);
    res := Query(owner.State());
  }

  /** The owner clearing the proposal returns to `Std` with the original owner. */
  method ClearProposedSucceeds() returns (isOwner: bool, isProposed: bool, res: OwnerResponse)
    ensures isOwner && !isProposed
    ensures res == OwnerResponse(Some("peter_parker"), None, true, false, None)
  {
    var original, proposed := Addr("peter_parker"), Addr("miles_morales");
    var owner := new Owner("xyz");
    var init := owner.Initialize(MockValidate, SetInitialOwner(original.value));
    assert init.Ok?;
    var r0 := owner.Update(MockValidate, original, ProposeNewOwner("miles_morales"));
    assert r0.Ok?;
    var r1 := owner.Update(MockValidate, original, ClearProposed);
    assert r1.Ok?;
    assert owner.State().Std?;
    isOwner := IsOwner(owner.State(), original);
    isProposed := IsProposed(owner.State(), proposed);
    res := Query(owner.State());
  }

  /** The proposed owner accepting becomes the owner and is no longer proposed; the update's
      attributes report the new owner. */
  method AcceptProposedSucceeds() returns (isOwner: bool, isProposed: bool, res: OwnerResponse, r: OwnerResult<Response>)
    ensures isOwner && !isProposed
    ensures res == OwnerResponse(Some("miles_morales"), None, true, false, None)
    ensures r == Ok(Response([
      ("action", "update_owner"), ("owner", "miles_morales"), ("proposed", "None"),
      ("sender", "miles_morales")]))
  {
    var original, proposed := Addr("peter_parker"), Addr("miles_morales");
    var owner := new Owner("xyz");
    var init := owner.Initialize(MockValidate, SetInitialOwner(original.value));
    assert init.Ok?;
    var r0 := owner.Update(MockValidate, original, ProposeNewOwner("miles_morales"));
    assert r0.Ok?;
    r := owner.Update(MockValidate, proposed, AcceptProposed);
    assert owner.State().Std?;
    isOwner := IsOwner(owner.State(), proposed);
    isProposed := IsProposed(owner.State(), proposed);
    res := Query(owner.State());
  }

  /** The owner abolishing the role stores `Abolished`: no owner and nobody proposed. */
  method AbolishOwnerRoleSucceeds() returns (isOwner: bool, isProposed: bool, res: OwnerResponse)
    ensures !isOwner && !isProposed
    ensures res == OwnerResponse(None, None, true, true, None)
  {
    var original := Addr("peter_parker");
    var owner := new Owner("xyz");
    var init := owner.Initialize(MockValidate, SetInitialOwner(original.value));
    assert init.Ok?;
    var r := owner.Update(MockValidate, original, OwnerUpdate.AbolishOwnerRole);
    assert r.Ok?;
    assert owner.State().Abolished?;
    isOwner := IsOwner(owner.State(), original);
    isProposed := IsProposed(owner.State(), original);
    res := Query(owner.State());
  }

  /** The owner naming an emergency owner makes it the emergency owner; the owner stays. */
  method SetEmergencyOwnerSucceeds()
    returns (emBefore: Option<Addr>, before: bool, resBefore: OwnerResponse,
             isOwner: bool, isEmergency: bool, res: OwnerResponse)
    ensures emBefore == None && !before
    ensures resBefore == OwnerResponse(Some("peter_parker"), None, true, false, None)
    ensures isOwner && isEmergency
    ensures res == OwnerResponse(Some("peter_parker"), None, true, false, Some("miles_morales"))
  {
    var original, emergency := Addr("peter_parker"), Addr("miles_morales");
    var owner := new Owner("xyz");
    var init := owner.Initialize(MockValidate, SetInitialOwner(original.value));
    assert init.Ok?;
    emBefore := EmergencyOwner(owner.State());
    before := IsEmergencyOwner(owner.State(), emergency);
    resBefore := Query(owner.State());
    var r := owner.Update(MockValidate, original, SetEmergencyOwner(emergency.value));
    assert r.Ok?;
    assert owner.State().Std?;
    isOwner := IsOwner(owner.State(), original);
    isEmergency := IsEmergencyOwner(owner.State(), emergency);
    res := Query(owner.State());
  }

  /** The owner clearing the emergency owner leaves none; the owner stays. */
  method ClearEmergencyOwnerSucceeds()
    returns (isOwner: bool, isEmergency: bool, em: Option<Addr>, res: OwnerResponse)
    ensures isOwner && !isEmergency && em == None
    ensures res == OwnerResponse(Some("peter_parker"), None, true, false, None)
  {
    var original, emergency := Addr("peter_parker"), Addr("miles_morales");
    var owner := new Owner("xyz");
    var init := owner.Initialize(MockValidate, SetInitialOwner(original.value));
    assert init.Ok?;
    var r0 := owner.Update(MockValidate, original, SetEmergencyOwner(emergency.value));
    assert r0.Ok?;
    var r1 := owner.Update(MockValidate, original, ClearEmergencyOwner);
    assert r1.Ok?;
    assert owner.State().Std?;
    isOwner := IsOwner(owner.State(), original);
    isEmergency := IsEmergencyOwner(owner.State(), emergency);
    em := EmergencyOwner(owner.State());
    res := Query(owner.State());
  }
}
