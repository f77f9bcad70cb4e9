# Ownership role (owner.rs), modelled in Dafny

The modelled component is the ownership state machine of `src/owner.rs`. A contract keeps one
persisted `OwnerState` in a storage slot: `Uninitialized` (the slot is empty), `Std` (an owner
and an optional emergency owner), `Proposed` (an owner, a nominated successor and the
emergency owner), or `Abolished` (the role is retired for good). `initialize` sets the first
state and is open to anyone. `update` applies the handover events: propose, clear, accept,
abolish, and set or clear the emergency owner. Every legal update event is checked against the
sender on the loaded state; an illegal one fails before any sender check. The new state is
saved only when the transition succeeds.

Files:

- `wrappers.dfy`: `Option` and `Result`. `Result` works with Dafny's `:-`, which stands for
  Rust's `?`.
- `owner.dfy` (module `Owner`): the datatypes; the read-side projections (`Current`,
  `ProposedOwner`, `EmergencyOwner`, the `Is*` predicates, `Query`); the `Assert*` wrappers;
  the pure transition function `TransitionState`; and the class `Owner`. Its field `slot`
  holds an optional `OwnerState`, and its methods `Initialize` and `Update` overwrite it.
- `owner_properties.dfy` (module `OwnerProperties`): lemmas about the transition table and
  about who can cause which change. `Replay` folds successive `update` calls, and the lemmas
  over it hold for any sequence of calls.
- `owner_tests.dfy` (module `OwnerTests`): the unit tests of `src/owner.rs` as client methods
  on a fresh `Owner`. Each method's postcondition is what the test asserts.

Modelling decisions:

- Address validation (`api.addr_validate`) is a parameter `validate: string -> Result<Addr,
  string>` that may fail. Its error reaches the caller as `OwnerError.StdError`. The Rust
  calls this variant `Std`; the model renames it so it does not clash with `OwnerState.Std`.
  As in the code, the owner check comes before validation.
- The `emergency-owner` build feature is modelled as switched on. The emergency owner is an
  always-present `Option<Addr>` field, and `SetEmergencyOwner`/`ClearEmergencyOwner` always
  exist.
- Storage is the `slot` field. An empty slot (`None`) reads as `Uninitialized`.
- `AbolishOwnerRole` is accepted only from `Std` (`src/owner.rs:271-274`). From `Proposed`
  it reaches the catch-all at `src/owner.rs:307` (`ProposedOnlyAcceptOrClear`).
- The class invariant `Valid()` records that `Uninitialized` is never written; its
  postcondition gives callers the consequence that the role queries as initialised exactly
  when the slot holds a state. `UpdateTakesOneStep` ties one `Update` call to `Step`, the
  single step that `Replay` folds over a sequence of calls.

## Model

| member | source | states |
|---|---|---|
| `Owner.Owner.constructor` | src/owner.rs:94-96 | a new handle over fresh storage records its namespace; its slot is empty and satisfies the invariant |
| `Owner.Owner.Valid` | src/owner.rs:98-103 | under the invariant (nothing stores `Uninitialized`), the role queries as initialised exactly when the slot holds a state |
| `Owner.Owner.State` | src/owner.rs:98-103 | an empty slot reads as `Uninitialized`; otherwise the stored state |
| `Owner.Current` | src/owner.rs:108-114 | the owner is present exactly in `Std` and `Proposed`, and it is that state's owner |
| `Owner.IsOwner` | src/owner.rs:116-121 | false when there is no owner; otherwise true exactly for the stored owner |
| `Owner.ProposedOwner` | src/owner.rs:123-128 | a proposed owner is present exactly in `Proposed` |
| `Owner.IsProposed` | src/owner.rs:130-135 | true exactly in `Proposed`, for its proposed address |
| `Owner.EmergencyOwner` | src/owner.rs:137-148 | the stored emergency owner while an owner exists, otherwise none |
| `Owner.IsEmergencyOwner` | src/owner.rs:150-156 | true only for the present emergency owner; false when there is none |
| `Owner.Query` | src/owner.rs:158-167 | `initialized` is false only for `Uninitialized`; `abolished` is true only for `Abolished`; `owner` is present only in `Std`/`Proposed`; `proposed` only in `Proposed` |
| `Owner.AssertOwner` | src/owner.rs:316-322 | succeeds exactly when the caller is the owner, else `NotOwner` |
| `Owner.AssertProposed` | src/owner.rs:324-330 | succeeds exactly when the caller is the proposed owner, else `NotProposedOwner` |
| `Owner.AssertEmergencyOwner` | src/owner.rs:332-343 | succeeds exactly when the caller is the emergency owner, else `NotEmergencyOwner` |
| `Owner.Validated` | src/owner.rs:184 | `addr_validate(..)?`: the validated address, or the validator's failure as `StdError` |
| `Owner.TransitionState` | src/owner.rs:226-310 | a successful transition never yields `Uninitialized`; it needs the owner, or the proposed owner sending `AcceptProposed`, as judged on the pre-transition state |
| `Owner.InitTransition` | src/owner.rs:179-198 | initialisation fails with `StateTransitionError` from every state except `Uninitialized`, and never yields `Uninitialized` |
| `Owner.Owner.Initialize` | src/owner.rs:173-199 | on success, saves the initial state; on failure (wrong state, invalid address), returns the error and leaves the slot untouched; keeps `Valid()` |
| `Owner.Owner.Update` | src/owner.rs:202-223 | on success, saves the transition's state and answers with attributes built from the saved state's query; on failure, returns the error and leaves the slot untouched; keeps `Valid()` |
| `OwnerProperties.UninitializedQuery` | src/owner.rs:821-846 | an empty slot has no owner and no proposal, and queries as `{None, None, false, false, None}` |
| `OwnerProperties.QueryAgreesWithPredicates` | src/owner.rs:116-167 | the query names an address as owner, proposed or emergency owner exactly when the matching `is_*` predicate holds |
| `OwnerProperties.UpdateAttributesReflectState` | src/owner.rs:214-222 | the update attributes are `action=update_owner`, the saved state's owner and proposed owner (`"None"` when absent), and the sender |
| `OwnerProperties.InitialOwner` | src/owner.rs:182-189 | `SetInitialOwner(x)` yields `Std{x, None}`: current `x`, nothing proposed, `initialized` true, `abolished` false; an invalid address yields the validator's error |
| `OwnerProperties.InitialAbolish` | src/owner.rs:190 | init `AbolishOwnerRole` yields `Abolished`, which queries as initialised and abolished with no roles |
| `OwnerProperties.NoUpdateOutsideOwnedState` | src/owner.rs:307 | from `Uninitialized` or `Abolished`, every update event fails with `StateTransitionError`, whoever sends it |
| `OwnerProperties.OwnerGatedEvents` | src/owner.rs:236-306 | propose, set/clear emergency owner and abolish from `Std`, and clear-proposed from `Proposed`, fail with `NotOwner` for any sender other than the owner, whatever the address |
| `OwnerProperties.InvalidAddressAfterOwnerCheck` | src/owner.rs:245-257 | for the owner, an invalid proposed or emergency address fails with the validator's error |
| `OwnerProperties.ProposeNewOwnerByOwner` | src/owner.rs:236-253 | `ProposeNewOwner(b)` by owner `a` from `Std{a, e}` yields `Proposed{a, b, e}` |
| `OwnerProperties.AcceptProposedOutcome` | src/owner.rs:275-290 | `AcceptProposed` by `b` from `Proposed{a, b, e}` yields `Std{b, e}` with nothing proposed; by anybody else it fails with `NotProposedOwner` |
| `OwnerProperties.ProposeAcceptRoundTrip` | src/owner.rs:236-290 | propose `b` by `a`, then accept by `b`, takes `Std{a, e}` to `Std{b, e}` |
| `OwnerProperties.ClearProposedByOwner` | src/owner.rs:291-306 | `ClearProposed` by the owner returns to `Std` with the same owner and emergency owner |
| `OwnerProperties.ProposedOnlyAcceptOrClear` | src/owner.rs:307 | from `Proposed`, every event except `AcceptProposed` and `ClearProposed` fails with `StateTransitionError`, whoever sends it |
| `OwnerProperties.StdRejectsProposalEvents` | src/owner.rs:307 | from `Std`, `AcceptProposed` and `ClearProposed` fail with `StateTransitionError` |
| `OwnerProperties.AbolishByOwner` | src/owner.rs:271-274 | the owner abolishing from `Std` yields `Abolished`, in which no role predicate holds |
| `OwnerProperties.EmergencyOwnerByOwner` | src/owner.rs:254-270 | `SetEmergencyOwner(x)` by the owner yields `Std{owner, Some(x)}` and `x` is the emergency owner; `ClearEmergencyOwner` yields `Std{owner, None}`; the owner stays |
| `OwnerProperties.OwnerChangesOnlyByAcceptance` | src/owner.rs:226-310 | in one call the owner stays, or the role is abolished, or the proposed owner accepting becomes the owner |
| `OwnerProperties.ProposalOnlyByOwnerProposing` | src/owner.rs:236-253 | a `Proposed` state arises only from `Std` by the owner's `ProposeNewOwner`, with the validated address and owner and emergency owner kept |
| `OwnerProperties.EmergencyOwnerChangesOnlyByOwner` | src/owner.rs:254-274 | the emergency owner changes only by the owner from `Std`; a newly present one is the validated address of a `SetEmergencyOwner` |
| `OwnerProperties.UpdateTakesOneStep` | src/owner.rs:202-223 | one `update` call leaves the slot reading `Step` of the state it read before |
| `OwnerProperties.AbolishedIsAbsorbing` | src/owner.rs:307 | no sequence of update calls leaves `Abolished` |
| `OwnerProperties.UninitializedIgnoresUpdates` | src/owner.rs:307 | before initialisation, any sequence of update calls leaves the slot reading `Uninitialized` |
| `OwnerProperties.NeverUninitializedAgain` | src/owner.rs:226-310 | once a state is stored, no sequence of update calls returns to `Uninitialized` |
| `OwnerProperties.OwnerProvenance` | src/owner.rs:275-290 | whoever owns the role after a sequence of calls owned it before, or sent an `AcceptProposed` in that sequence |
| `OwnerProperties.EmergencyOwnerProvenance` | src/owner.rs:254-263 | whoever is emergency owner after a sequence of calls was so before, or was named by a `SetEmergencyOwner` in it |
| `OwnerTests.InvalidUninitializedStateTransitions` | src/owner.rs:361-412 | all six update events against an empty slot fail with `StateTransitionError` |
| `OwnerTests.InvalidOwnerSetNoProposedStateTransitions` | src/owner.rs:414-453 | in `Std`, a second initialisation, `ClearProposed` and `AcceptProposed` fail with `StateTransitionError` |
| `OwnerTests.InvalidOwnerSetWithProposedStateTransitions` | src/owner.rs:455-526 | in `Proposed`, initialisation, a second proposal and both emergency events fail with `StateTransitionError` |
| `OwnerTests.InvalidOwnerRoleAbolishedStateTransitions` | src/owner.rs:528-600 | after abolition, initialisation and all six update events fail with `StateTransitionError` |
| `OwnerTests.InitializeOwnerPermissions` | src/owner.rs:602-625 | anybody may initialise, by abolition or with an owner |
| `OwnerTests.ProposeNewOwnerPermissions` | src/owner.rs:627-657 | a non-owner's proposal fails with `NotOwner`, and the state stays |
| `OwnerTests.ClearProposedPermissions` | src/owner.rs:659-693 | a non-owner's `ClearProposed` fails with `NotOwner`, and the proposal stays |
| `OwnerTests.AcceptProposedPermissions` | src/owner.rs:695-729 | a non-proposed acceptance fails with `NotProposedOwner`, and the proposal stays |
| `OwnerTests.AbolishOwnerRolePermissions` | src/owner.rs:731-756 | a non-owner's abolition fails with `NotOwner`, and the state stays |
| `OwnerTests.SetEmergencyOwnerPermissions` | src/owner.rs:758-789 | a non-owner's `SetEmergencyOwner` fails with `NotOwner`, and the state stays |
| `OwnerTests.ClearEmergencyOwnerPermissions` | src/owner.rs:791-815 | a non-owner's `ClearEmergencyOwner` fails with `NotOwner` |
| `OwnerTests.UninitializedState` | src/owner.rs:848-853 | a fresh slot reads `Uninitialized` and queries with no role |
| `OwnerTests.InitializeOwner` | src/owner.rs:855-897 | after initialisation, the owner is the initial owner, nothing is proposed, and the query matches |
| `OwnerTests.ProposeNewOwnerSucceeds` | src/owner.rs:899-956 | after a proposal, the owner stays and the proposed address is proposed |
| `OwnerTests.ClearProposedSucceeds` | src/owner.rs:958-1021 | after clearing, the original owner stays and nobody is proposed |
| `OwnerTests.AcceptProposedSucceeds` | src/owner.rs:1023-1087 | after acceptance, the proposed address owns the role and is no longer proposed; the attributes report it |
| `OwnerTests.AbolishOwnerRoleSucceeds` | src/owner.rs:1089-1141 | after abolition, there is no owner, nobody is proposed, and the query reports abolished |
| `OwnerTests.SetEmergencyOwnerSucceeds` | src/owner.rs:1143-1223 | before the update there is no emergency owner, the address is not it, and the query shows the owner alone; after, the owner is unchanged and the address is the emergency owner |
| `OwnerTests.ClearEmergencyOwnerSucceeds` | src/owner.rs:1225-1286 | after clearing, there is no emergency owner and the owner is unchanged |

## Left out

- Namespaces: each `Owner` object stands for one namespace over fresh storage. `namespace`
  has no effect, and two handles sharing one slot is not modelled.
- Storage: `cw_storage_plus::Item`, serialisation and the `StdError` passthrough for storage
  failures are not modelled. The slot is a field, and loading and saving never fail.
- Address validation: the host's rules are not modelled. `validate` is any function that
  may fail.
- Response building: only the four attribute pairs `update` adds are modelled. The
  `Response` type of the host is not.
- The `#[cfg(feature = "emergency-owner")]` gating is not modelled. The model is the build
  with the feature switched on; without it, the emergency field and the two events do not
  exist.
- Test scaffolding: `mock_dependencies` and `mock_info` are not modelled. `MockValidate`
  accepts every address, which holds for the addresses the tests use. MockApi's own
  validation rules are not modelled.
- Atomicity of load-decide-save is the host's concern. The model treats each method call as
  one indivisible step.
