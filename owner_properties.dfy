/** What the ownership role promises: the outcome of each (state, event) pair the table
    lists, the pairs it rejects, who may cause which change, and what holds across any
    sequence of `update` calls. */
module OwnerProperties {
  import opened Wrappers
  import opened Owner

  /** One `update` call: its sender and its event. */
  datatype Call = Call(sender: Addr, event: OwnerUpdate)

  /** The state the slot reads as after one `update` call: a failed call saves nothing. */
  function Step(s: OwnerState, validate: Validator, c: Call): OwnerState {
    match TransitionState(s, validate, c.sender, c.event)
    case Ok(t) => t
    case Err(_) => s
  }

  /** `Step` is what one call of `Owner.Update` does to the state the slot reads as. */
  method UpdateTakesOneStep(o: Owner, validate: Validator, sender: Addr, event: OwnerUpdate)
    modifies o
    ensures o.State() == Step(old(o.State()), validate, Call(sender, event))
  {
    var _ := o.Update(validate, sender, event);
  }

  /** The state the slot reads as after a sequence of `update` calls. */
  function Replay(s: OwnerState, validate: Validator, calls: seq<Call>): OwnerState
    decreases |calls|
  {
    if |calls| == 0 then s else Replay(Step(s, validate, calls[0]), validate, calls[1..])
  }

  // ---------------------------------------------------------------------------------------
  // Queries
  // ---------------------------------------------------------------------------------------

  /** An empty slot answers the query as never initialised and holding no role. */
  lemma UninitializedQuery(o: Owner)
    requires o.slot == None
    ensures Current(o.State()) == None && ProposedOwner(o.State()) == None
    ensures Query(o.State()) == OwnerResponse(None, None, false, false, None)
  {
  }

  /** The query reports an address as owner, proposed or emergency owner exactly when the
      corresponding predicate holds of it. */
  lemma QueryAgreesWithPredicates(s: OwnerState, a: Addr)
    ensures Query(s).owner == Some(a.value) <==> IsOwner(s, a)
    ensures Query(s).proposed == Some(a.value) <==> IsProposed(s, a)
    ensures Query(s).emergencyOwner == Some(a.value) <==> IsEmergencyOwner(s, a)
  {
  }

  /** The attributes of a successful `update` describe the state it saved, with "None" for an
      absent owner or proposed owner. */
  lemma UpdateAttributesReflectState(t: OwnerState, sender: Addr)
    ensures UpdateResponse(Query(t), sender).attributes == [
      ("action", "update_owner"),
      ("owner", if t.Std? || t.Proposed? then t.owner.value else "None"),
      ("proposed", if t.Proposed? then t.proposed.value else "None"),
      ("sender", sender.value)]
  {
  }

  // ---------------------------------------------------------------------------------------
  // Initialisation
  // ---------------------------------------------------------------------------------------

  /** `SetInitialOwner` with a valid address makes that address the owner, with nobody
      proposed and no emergency owner; an invalid address fails with the validator's error. */
  lemma InitialOwner(validate: Validator, raw: string)
    ensures validate(raw).Ok? ==>
      var x := validate(raw).value;
      InitTransition(Uninitialized, validate, SetInitialOwner(raw)) == Ok(Std(x, None)) &&
      Current(Std(x, None)) == Some(x) && ProposedOwner(Std(x, None)) == None &&
      Query(Std(x, None)) == OwnerResponse(Some(x.value), None, true, false, None)
    ensures validate(raw).Err? ==>
      InitTransition(Uninitialized, validate, SetInitialOwner(raw)) == Err(StdError(validate(raw).error))
  {
  }

  /** Abolishing at initialisation retires the role at once. */
  lemma InitialAbolish(validate: Validator)
    ensures InitTransition(Uninitialized, validate, OwnerInit.AbolishOwnerRole) == Ok(Abolished)
    ensures Query(Abolished) == OwnerResponse(None, None, true, true, None)
  {
  }

  // ---------------------------------------------------------------------------------------
  // The transition table
  // ---------------------------------------------------------------------------------------

  /** Without an owned state no update event is legal, whoever sends it. */
  lemma NoUpdateOutsideOwnedState(s: OwnerState, validate: Validator, sender: Addr, event: OwnerUpdate)
    requires s.Uninitialized? || s.Abolished?
    ensures TransitionState(s, validate, sender, event) == Err(StateTransitionError)
  {
  }

  /** The events only the owner may send fail with `NotOwner` for anybody else, before any
      address in the event is looked at. */
  lemma OwnerGatedEvents(s: OwnerState, validate: Validator, sender: Addr, event: OwnerUpdate)
    requires
      (s.Std? && (event.ProposeNewOwner? || event.SetEmergencyOwner? ||
                  event.ClearEmergencyOwner? || event.AbolishOwnerRole?)) ||
      (s.Proposed? && event.ClearProposed?)
    requires sender != s.owner
    ensures TransitionState(s, validate, sender, event) == Err(NotOwner)
  {
  }

  /** The owner proposing an address that fails validation gets the validator's error. */
  lemma InvalidAddressAfterOwnerCheck(owner: Addr, em: Option<Addr>, validate: Validator, raw: string)
    requires validate(raw).Err?
    ensures TransitionState(Std(owner, em), validate, owner, ProposeNewOwner(raw)) ==
      Err(StdError(validate(raw).error))
    ensures TransitionState(Std(owner, em), validate, owner, SetEmergencyOwner(raw)) ==
      Err(StdError(validate(raw).error))
  {
  }

  /** The owner's proposal keeps owner and emergency owner and records the proposed address. */
  lemma ProposeNewOwnerByOwner(a: Addr, em: Option<Addr>, validate: Validator, raw: string)
    requires validate(raw).Ok?
    ensures TransitionState(Std(a, em), validate, a, ProposeNewOwner(raw)) ==
      Ok(Proposed(a, validate(raw).value, em))
  {
  }

  /** The proposed owner's acceptance makes it the owner, keeps the emergency owner and
      clears the proposal; anybody else's acceptance fails with `NotProposedOwner`. */
  lemma AcceptProposedOutcome(a: Addr, b: Addr, em: Option<Addr>, validate: Validator, sender: Addr)
    ensures sender == b ==>
      TransitionState(Proposed(a, b, em), validate, sender, AcceptProposed) == Ok(Std(b, em)) &&
      ProposedOwner(Std(b, em)) == None && Current(Std(b, em)) == Some(b)
    ensures sender != b ==>
      TransitionState(Proposed(a, b, em), validate, sender, AcceptProposed) == Err(NotProposedOwner)
  {
  }

  /** Propose then accept hands the role over: owner `a` proposes `b`, `b` accepts, and `b`
      owns the role with the emergency owner unchanged and nobody proposed. */
  lemma ProposeAcceptRoundTrip(a: Addr, em: Option<Addr>, validate: Validator, raw: string)
    requires validate(raw).Ok?
    ensures var b := validate(raw).value;
      Replay(Std(a, em), validate, [Call(a, ProposeNewOwner(raw)), Call(b, AcceptProposed)]) ==
      Std(b, em)
  {
    var b := validate(raw).value;
    var calls := [Call(a, ProposeNewOwner(raw)), Call(b, AcceptProposed)];
    ProposeNewOwnerByOwner(a, em, validate, raw);
    AcceptProposedOutcome(a, b, em, validate, b);
    assert calls[1..][0] == Call(b, AcceptProposed) && calls[1..][1..] == [];
    assert Replay(Std(a, em), validate, calls) == Replay(Proposed(a, b, em), validate, calls[1..]);
    assert Replay(Proposed(a, b, em), validate, calls[1..]) == Replay(Std(b, em), validate, []);
  }

  /** The owner clearing a proposal returns to `Std` with the same owner and emergency owner. */
  lemma ClearProposedByOwner(a: Addr, b: Addr, em: Option<Addr>, validate: Validator)
    ensures TransitionState(Proposed(a, b, em), validate, a, ClearProposed) == Ok(Std(a, em))
  {
  }

  /** From `Proposed` only `AcceptProposed` and `ClearProposed` are legal: every other event
      fails with `StateTransitionError`, whoever sends it. */
  lemma ProposedOnlyAcceptOrClear(s: OwnerState, validate: Validator, sender: Addr, event: OwnerUpdate)
    requires s.Proposed? && !event.AcceptProposed? && !event.ClearProposed?
    ensures TransitionState(s, validate, sender, event) == Err(StateTransitionError)
  {
  }

  /** From `Std` the proposal events `AcceptProposed` and `ClearProposed` are illegal. */
  lemma StdRejectsProposalEvents(s: OwnerState, validate: Validator, sender: Addr, event: OwnerUpdate)
    requires s.Std? && (event.AcceptProposed? || event.ClearProposed?)
    ensures TransitionState(s, validate, sender, event) == Err(StateTransitionError)
  {
  }

  /** The owner abolishing the role from `Std` retires it: no owner, proposed or emergency
      owner is left. */
  lemma AbolishByOwner(a: Addr, em: Option<Addr>, validate: Validator, x: Addr)
    ensures TransitionState(Std(a, em), validate, a, OwnerUpdate.AbolishOwnerRole) == Ok(Abolished)
    ensures !IsOwner(Abolished, x) && !IsProposed(Abolished, x) && !IsEmergencyOwner(Abolished, x)
  {
  }

  /** The owner setting an emergency owner makes that address the emergency owner; clearing it
      leaves none. The owner stays the same in both. */
  lemma EmergencyOwnerByOwner(a: Addr, em: Option<Addr>, validate: Validator, raw: string, y: Addr)
    ensures validate(raw).Ok? ==>
      var x := validate(raw).value;
      TransitionState(Std(a, em), validate, a, SetEmergencyOwner(raw)) == Ok(Std(a, Some(x))) &&
      IsEmergencyOwner(Std(a, Some(x)), x) && IsOwner(Std(a, Some(x)), a)
    ensures TransitionState(Std(a, em), validate, a, ClearEmergencyOwner) == Ok(Std(a, None))
    ensures EmergencyOwner(Std(a, None)) == None && !IsEmergencyOwner(Std(a, None), y)
    ensures IsOwner(Std(a, None), a)
  {
  }

  // ---------------------------------------------------------------------------------------
  // Who can change what, in one call
  // ---------------------------------------------------------------------------------------

  /** The owner changes in one call only by abolition (to no owner) or by the proposed owner
      accepting (to that owner). */
  lemma OwnerChangesOnlyByAcceptance(s: OwnerState, validate: Validator, sender: Addr, event: OwnerUpdate)
    requires TransitionState(s, validate, sender, event).Ok?
    ensures var t := TransitionState(s, validate, sender, event).value;
      Current(t) == Current(s) || t == Abolished ||
      (event == AcceptProposed && s.Proposed? && s.proposed == sender && Current(t) == Some(sender))
  {
  }

  /** A proposal arises only from the owner proposing from `Std`, and records the validated
      address while owner and emergency owner stay as they were. */
  lemma ProposalOnlyByOwnerProposing(s: OwnerState, validate: Validator, sender: Addr, event: OwnerUpdate)
    requires TransitionState(s, validate, sender, event).Ok?
    requires TransitionState(s, validate, sender, event).value.Proposed?
    ensures var t := TransitionState(s, validate, sender, event).value;
      s.Std? && event.ProposeNewOwner? && sender == s.owner &&
      validate(event.proposed) == Ok(t.proposed) &&
      t.owner == s.owner && t.emergencyOwner == s.emergencyOwner
  {
  }

  /** The emergency owner changes in one call only at the owner's request from `Std`, and a
      newly present emergency owner is the validated address of a `SetEmergencyOwner`. */
  lemma EmergencyOwnerChangesOnlyByOwner(s: OwnerState, validate: Validator, sender: Addr, event: OwnerUpdate)
    requires TransitionState(s, validate, sender, event).Ok?
    ensures var t := TransitionState(s, validate, sender, event).value;
      EmergencyOwner(t) != EmergencyOwner(s) ==> s.Std? && sender == s.owner
    ensures var t := TransitionState(s, validate, sender, event).value;
      EmergencyOwner(t).Some? && EmergencyOwner(t) != EmergencyOwner(s) ==>
        event.SetEmergencyOwner? && validate(event.emergencyOwner) == Ok(EmergencyOwner(t).value)
  {
  }

  // ---------------------------------------------------------------------------------------
  // Across any sequence of update calls
  // ---------------------------------------------------------------------------------------

  /** `Abolished` is absorbing: no sequence of updates leaves it. */
  lemma {:induction false} AbolishedIsAbsorbing(validate: Validator, calls: seq<Call>)
    ensures Replay(Abolished, validate, calls) == Abolished
    decreases |calls|
  {
    if |calls| > 0 {
      NoUpdateOutsideOwnedState(Abolished, validate, calls[0].sender, calls[0].event);
      AbolishedIsAbsorbing(validate, calls[1..]);
    }
  }

  /** Before initialisation every update fails, so the slot still reads `Uninitialized`. */
  lemma {:induction false} UninitializedIgnoresUpdates(validate: Validator, calls: seq<Call>)
    ensures Replay(Uninitialized, validate, calls) == Uninitialized
    decreases |calls|
  {
    if |calls| > 0 {
      NoUpdateOutsideOwnedState(Uninitialized, validate, calls[0].sender, calls[0].event);
      UninitializedIgnoresUpdates(validate, calls[1..]);
    }
  }

  /** Once the slot holds a state, no sequence of updates brings back `Uninitialized`. */
  lemma {:induction false} NeverUninitializedAgain(s: OwnerState, validate: Validator, calls: seq<Call>)
    requires !s.Uninitialized?
    ensures !Replay(s, validate, calls).Uninitialized?
    decreases |calls|
  {
    if |calls| > 0 {
      NeverUninitializedAgain(Step(s, validate, calls[0]), validate, calls[1..]);
    }
  }

  /** Whoever owns the role after a sequence of updates owned it before, or accepted it by an
      `AcceptProposed` call of their own in that sequence. */
  lemma {:induction false} OwnerProvenance(s: OwnerState, validate: Validator, calls: seq<Call>, x: Addr)
    requires Current(Replay(s, validate, calls)) == Some(x)
    ensures Current(s) == Some(x) ||
      exists i :: 0 <= i < |calls| && calls[i] == Call(x, AcceptProposed)
    decreases |calls|
  {
    if |calls| > 0 {
      var t := Step(s, validate, calls[0]);
      OwnerProvenance(t, validate, calls[1..], x);
      if Current(t) == Some(x) {
        if Current(s) != Some(x) {
          OwnerChangesOnlyByAcceptance(s, validate, calls[0].sender, calls[0].event);
          assert calls[0] == Call(x, AcceptProposed);
        }
      } else {
        var i :| 0 <= i < |calls[1..]| && calls[1..][i] == Call(x, AcceptProposed);
        assert calls[i + 1] == Call(x, AcceptProposed);
      }
    }
  }

  /** Whoever is emergency owner after a sequence of updates was so before, or was named by a
      `SetEmergencyOwner` call in that sequence whose address validated to it. */
  lemma {:induction false} EmergencyOwnerProvenance(s: OwnerState, validate: Validator, calls: seq<Call>, x: Addr)
    requires EmergencyOwner(Replay(s, validate, calls)) == Some(x)
    ensures EmergencyOwner(s) == Some(x) ||
      exists i :: 0 <= i < |calls| && calls[i].event.SetEmergencyOwner? &&
        validate(calls[i].event.emergencyOwner) == Ok(x)
    decreases |calls|
  {
    if |calls| > 0 {
      var t := Step(s, validate, calls[0]);
      EmergencyOwnerProvenance(t, validate, calls[1..], x);
      if EmergencyOwner(t) == Some(x) {
        if EmergencyOwner(s) != Some(x) {
          EmergencyOwnerChangesOnlyByOwner(s, validate, calls[0].sender, calls[0].event);
          assert calls[0].event.SetEmergencyOwner? && validate(calls[0].event.emergencyOwner) == Ok(x);
        }
      } else {
        var i :| 0 <= i < |calls[1..]| && calls[1..][i].event.SetEmergencyOwner? &&
          validate(calls[1..][i].event.emergencyOwner) == Ok(x);
        assert calls[i + 1] == calls[1..][i];
      }
    }
  }
}
