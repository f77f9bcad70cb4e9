/** The ownership role of owner.rs: a single persisted OwnerState, the read-side projections of
    it, the assertion wrappers, the pure (state, event) transition function, and the `Owner`
    handle whose `Initialize` and `Update` overwrite the stored state.

    The "emergency-owner" build feature is modelled as enabled: the emergency owner is an
    always-present optional field, and the two emergency events always exist. */
module Owner {
  import opened Wrappers

  /** A validated address: an opaque principal known by its string form. */
  datatype Addr = Addr(value: string)

  /** The host's `addr_validate`: turns an untrusted string into an address, or fails with the
      host's error message. Its rules are the host's and are not modelled. */
  type Validator = string -> Result<Addr, string>

  /** What `query` returns. */
  datatype OwnerResponse = OwnerResponse(
    owner: Option<string>,
    proposed: Option<string>,
    initialized: bool,
    abolished: bool,
    emergencyOwner: Option<string>)

  /** The errors of the ownership role. `StdError` is the host error passed through;
      in this model it only ever carries an address-validation failure. */
  datatype OwnerError =
    | StdError(message: string)
    | NotOwner
    | NotProposedOwner
    | StateTransitionError
    | NotEmergencyOwner

  type OwnerResult<T> = Result<T, OwnerError>

  /** The finite states of the role. */
  datatype OwnerState =
    | Uninitialized
    | Std(owner: Addr, emergencyOwner: Option<Addr>)
    | Proposed(owner: Addr, proposed: Addr, emergencyOwner: Option<Addr>)
    | Abolished

  /** The events `update` accepts; the strings are still unvalidated. */
  datatype OwnerUpdate =
    | ProposeNewOwner(proposed: string)
    | ClearProposed
    | AcceptProposed
    | AbolishOwnerRole
    | SetEmergencyOwner(emergencyOwner: string)
    | ClearEmergencyOwner

  /** The events `initialize` accepts. */
  datatype OwnerInit =
    | SetInitialOwner(owner: string)
    | AbolishOwnerRole

  /** The attributes `update` hands to the host with its response. */
  datatype Response = Response(attributes: seq<(string, string)>)

  // ---------------------------------------------------------------------------------------
  // Queries
  // ---------------------------------------------------------------------------------------

  /** `current`: the owner exists exactly while the role is held (`Std` or `Proposed`). */
  function Current(s: OwnerState): (r: Option<Addr>)
    ensures r.Some? <==> s.Std? || s.Proposed?
    ensures r.Some? ==> r.value == s.owner
  {
    match s
    case Std(owner, _) => Some(owner)
    case Proposed(owner, _, _) => Some(owner)
    case _ => None
  }

  /** `is_owner`: false whenever there is no owner. */
  predicate IsOwner(s: OwnerState, addr: Addr)
    ensures IsOwner(s, addr) ==> s.Std? || s.Proposed?
    ensures (s.Std? || s.Proposed?) ==> (IsOwner(s, addr) <==> s.owner == addr)
  {
    match Current(s)
    case Some(owner) => owner == addr
    case None => false
  }

  /** `proposed`: a proposed owner exists only in `Proposed`. */
  function ProposedOwner(s: OwnerState): (r: Option<Addr>)
    ensures r.Some? <==> s.Proposed?
    ensures r.Some? ==> r.value == s.proposed
  {
    match s
    case Proposed(_, proposed, _) => Some(proposed)
    case _ => None
  }

  /** `is_proposed`: false whenever nobody is proposed. */
  predicate IsProposed(s: OwnerState, addr: Addr)
    ensures IsProposed(s, addr) <==> s.Proposed? && s.proposed == addr
  {
    match ProposedOwner(s)
    case Some(proposed) => proposed == addr
    case None => false
  }

  /** `emergency_owner`: the stored emergency owner while the role is held, otherwise none. */
  function EmergencyOwner(s: OwnerState): (r: Option<Addr>)
    ensures r.Some? ==> s.Std? || s.Proposed?
    ensures (s.Std? || s.Proposed?) ==> r == s.emergencyOwner
  {
    match s
    case Std(_, emergencyOwner) => emergencyOwner
    case Proposed(_, _, emergencyOwner) => emergencyOwner
    case _ => None
  }

  /** `is_emergency_owner`: false whenever there is no emergency owner. */
  predicate IsEmergencyOwner(s: OwnerState, addr: Addr)
    ensures IsEmergencyOwner(s, addr) ==> s.Std? || s.Proposed?
    ensures IsEmergencyOwner(s, addr) <==> EmergencyOwner(s) == Some(addr)
  {
    match EmergencyOwner(s)
    case Some(emergencyOwner) => emergencyOwner == addr
    case None => false
  }

  /** The `Into<String>` conversion applied to an optional address. */
  function AddrString(a: Option<Addr>): Option<string> {
    match a
    case Some(addr) => Some(addr.value)
    case None => None
  }

  /** `query`: the response's flags and fields are present exactly in the states where the
      corresponding role exists. */
  function Query(s: OwnerState): (r: OwnerResponse)
    ensures r.initialized <==> !s.Uninitialized?
    ensures r.abolished <==> s.Abolished?
    ensures r.owner.Some? <==> s.Std? || s.Proposed?
    ensures r.proposed.Some? <==> s.Proposed?
    ensures r.emergencyOwner.Some? ==> s.Std? || s.Proposed?
  {
    OwnerResponse(
      owner := AddrString(Current(s)),
      proposed := AddrString(ProposedOwner(s)),
      initialized := !s.Uninitialized?,
      abolished := s.Abolished?,
      emergencyOwner := AddrString(EmergencyOwner(s)))
  }

  // ---------------------------------------------------------------------------------------
  // Assertions
  // ---------------------------------------------------------------------------------------

  /** `assert_owner`: succeeds exactly when the caller is the owner, otherwise `NotOwner`. */
  function AssertOwner(s: OwnerState, caller: Addr): (r: OwnerResult<()>)
    ensures r.Ok? <==> IsOwner(s, caller)
    ensures r.Err? ==> r.error == NotOwner
  {
    if !IsOwner(s, caller) then Err(NotOwner) else Ok(())
  }

  /** `assert_proposed`: succeeds exactly when the caller is the proposed owner. */
  function AssertProposed(s: OwnerState, caller: Addr): (r: OwnerResult<()>)
    ensures r.Ok? <==> IsProposed(s, caller)
    ensures r.Err? ==> r.error == NotProposedOwner
  {
    if !IsProposed(s, caller) then Err(NotProposedOwner) else Ok(())
  }

  /** `assert_emergency_owner`: succeeds exactly when the caller is the emergency owner. */
  function AssertEmergencyOwner(s: OwnerState, caller: Addr): (r: OwnerResult<()>)
    ensures r.Ok? <==> IsEmergencyOwner(s, caller)
    ensures r.Err? ==> r.error == NotEmergencyOwner
  {
    if !IsEmergencyOwner(s, caller) then Err(NotEmergencyOwner) else Ok(())
  }

  // ---------------------------------------------------------------------------------------
  // Transitions
  // ---------------------------------------------------------------------------------------

  /** `api.addr_validate(&raw)?`: the validator's address, or its failure as `StdError`. */
  function Validated(validate: Validator, raw: string): (r: OwnerResult<Addr>)
    ensures r.Ok? <==> validate(raw).Ok?
    ensures r.Ok? ==> r.value == validate(raw).value
    ensures r.Err? ==> r.error == StdError(validate(raw).error)
  {
    match validate(raw)
    case Ok(addr) => Ok(addr)
    case Err(message) => Err(StdError(message))
  }

  /** `transition_state`: the new state for `event` sent by `sender` against the loaded state
      `s`. The caller is checked against `s` itself, before any address is validated, and
      every pair the table does not list fails with `StateTransitionError`.
      A successful transition never leads back to `Uninitialized`, and needs a sender who is
      the owner, or the proposed owner accepting. */
  function TransitionState(s: OwnerState, validate: Validator, sender: Addr, event: OwnerUpdate)
    : (r: OwnerResult<OwnerState>)
    ensures r.Ok? ==> r.value != Uninitialized
    ensures r.Ok? ==> IsOwner(s, sender) || (event == AcceptProposed && IsProposed(s, sender))
  {
    match (s, event)
    case (Std(owner, emergencyOwner), ProposeNewOwner(proposed)) =>
      var _ :- AssertOwner(s, sender);
      var validated :- Validated(validate, proposed);
      Ok(Proposed(owner, validated, emergencyOwner))
    case (Std(owner, _), SetEmergencyOwner(emergencyOwner)) =>
      var _ :- AssertOwner(s, sender);
      var validated :- Validated(validate, emergencyOwner);
      Ok(Std(owner, Some(validated)))
    case (Std(owner, _), ClearEmergencyOwner()) =>
      var _ :- AssertOwner(s, sender);
      Ok(Std(owner, None))
    case (Std(_, _), AbolishOwnerRole()) =>
      var _ :- AssertOwner(s, sender);
      Ok(Abolished)
    case (Proposed(_, proposed, emergencyOwner), AcceptProposed()) =>
      var _ :- AssertProposed(s, sender);
      Ok(Std(proposed, emergencyOwner))
    case (Proposed(owner, _, emergencyOwner), ClearProposed()) =>
      var _ :- AssertOwner(s, sender);
      Ok(Std(owner, emergencyOwner))
    case (_, _) => Err(StateTransitionError)
  }

  /** The decision `initialize` takes on the loaded state `s`: legal only from
      `Uninitialized`, open to any caller, and never resulting in `Uninitialized`. */
  function InitTransition(s: OwnerState, validate: Validator, initAction: OwnerInit)
    : (r: OwnerResult<OwnerState>)
    ensures !s.Uninitialized? ==> r == Err(StateTransitionError)
    ensures r.Ok? ==> r.value != Uninitialized
  {
    match s
    case Uninitialized =>
      (match initAction
       case SetInitialOwner(owner) =>
         var validated :- Validated(validate, owner);
         Ok(Std(validated, None))
       case AbolishOwnerRole() => Ok(Abolished))
    case _ => Err(StateTransitionError)
  }

  /** The string form of an optional value in the response attributes. */
  function OrNone(a: Option<string>): string {
    match a
    case Some(value) => value
    case None => "None"
  }

  /** The attributes `update` attaches, built from the query of the state it saved. */
  function UpdateResponse(res: OwnerResponse, sender: Addr): Response {
    Response([
      ("action", "update_owner"),
      ("owner", OrNone(res.owner)),
      ("proposed", OrNone(res.proposed)),
      ("sender", sender.value)])
  }

  // ---------------------------------------------------------------------------------------
  // The stored role
  // ---------------------------------------------------------------------------------------

  /** `Owner`: a handle on the storage slot of one namespace. The model gives each handle its
      own slot, the field `slot`, holding an optional OwnerState; `namespace` only names it. */
  class Owner {
    const namespace: string
    var slot: Option<OwnerState>

    /** `Uninitialized` is never written: it is only ever the reading of an empty slot, so
        the role counts as initialised exactly when something is stored. */
    ghost predicate Valid()
      reads this
      ensures Valid() ==> (Query(State()).initialized <==> slot.Some?)
    {
      slot != Some(Uninitialized)
    }

    /** `Owner::new` over fresh storage, whose slot holds nothing yet. */
    constructor (namespace: string)
      ensures this.namespace == namespace && slot == None && Valid()
    {
      this.namespace := namespace;
      slot := None;
    }

    /** `state`: the stored state, where an empty slot reads as `Uninitialized`. */
    function State(): (s: OwnerState)
      reads this
      ensures slot == None ==> s == Uninitialized
      ensures slot.Some? ==> s == slot.value
    {
      match slot
      case None => Uninitialized
      case Some(stored) => stored
    }

    /** `initialize`: saves the initial state when the slot reads as `Uninitialized`;
        otherwise, or when the initial owner's address is invalid, fails without writing. */
    method Initialize(validate: Validator, initAction: OwnerInit) returns (r: OwnerResult<()>)
      modifies this
      ensures old(Valid()) ==> Valid()
      ensures InitTransition(old(State()), validate, initAction).Ok? ==>
        r == Ok(()) && slot == Some(InitTransition(old(State()), validate, initAction).value)
      ensures InitTransition(old(State()), validate, initAction).Err? ==>
        r == Err(InitTransition(old(State()), validate, initAction).error) && slot == old(slot)
    {
      var newState :- InitTransition(State(), validate, initAction);
      slot := Some(newState);
      r := Ok(());
    }

    /** `update`: runs the transition on the stored state, saves the new state only when the
        transition succeeds, and answers with attributes taken from the query of the saved
        state. */
    method Update(validate: Validator, sender: Addr, update: OwnerUpdate)
      returns (r: OwnerResult<Response>)
      modifies this
      ensures old(Valid()) ==> Valid()
      ensures TransitionState(old(State()), validate, sender, update).Ok? ==>
        var newState := TransitionState(old(State()), validate, sender, update).value;
        slot == Some(newState) && r == Ok(UpdateResponse(Query(newState), sender))
      ensures TransitionState(old(State()), validate, sender, update).Err? ==>
        slot == old(slot) && r == Err(TransitionState(old(State()), validate, sender, update).error)
    {
      var newState :- TransitionState(State(), validate, sender, update);
      slot := Some(newState);
      var res := Query(State());
      r := Ok(UpdateResponse(res, sender));
    }
  }
}
