/** The state machine: which state an action leads to. */
module StateMachine {
  import opened Wrappers
  import opened AssetTypes

  /** Only `Recover` looks at the saved state; it must be live. */
  function NextStateWithPrevious(current: AssetState, action: AssetAction, previous: Option<AssetState>)
    : Option<AssetState>
  {
    match (current, action)
    case (PreMinted, BlindLog) => Some(FactoryLogged)
    case (FactoryLogged, StockIn) => Some(Unassigned)
    case (Unassigned, ActivateRotateKeys) => Some(RotatingKeys)
    case (RotatingKeys, ActivateEntangle) => Some(EntangledPending)
    case (EntangledPending, ActivateConfirm) => Some(Activated)
    case (Activated, LegalSell) => Some(LegallySold)
    case (LegallySold, Transfer) => Some(Transferred)
    case (Transferred, Transfer) => Some(Transferred)
    case (LegallySold, Consume) => Some(Consumed)
    case (Transferred, Consume) => Some(Consumed)
    case (LegallySold, Legacy) => Some(AssetState.Legacy)
    case (Transferred, Legacy) => Some(AssetState.Legacy)
    case (state, Freeze) => if state.IsTerminal() || state.IsFrozen() then None else Some(Disputed)
    case (Disputed, Recover) =>
      if previous.Some? && !previous.value.IsTerminal() && previous.value != Disputed then previous else None
    case (Disputed, MarkCompromised) => Some(Compromised)
    case (state, MarkTampered) => if state.IsTerminal() then None else Some(Tampered)
    case (state, MarkCompromised) => if state.IsTerminal() then None else Some(Compromised)
    case (state, MarkDestructed) => if state.IsTerminal() then None else Some(Destructed)
    case _ => None
  }

  function NextState(current: AssetState, action: AssetAction): Option<AssetState> {
    NextStateWithPrevious(current, action, None)
  }

  predicate CanTransition(from: AssetState, to: AssetState) {
    || NextState(from, BlindLog) == Some(to)
    || NextState(from, StockIn) == Some(to)
    || NextState(from, ActivateRotateKeys) == Some(to)
    || NextState(from, ActivateEntangle) == Some(to)
    || NextState(from, ActivateConfirm) == Some(to)
    || NextState(from, LegalSell) == Some(to)
    || NextState(from, Transfer) == Some(to)
    || NextState(from, Consume) == Some(to)
    || NextState(from, AssetAction.Legacy) == Some(to)
    || NextState(from, Freeze) == Some(to)
    || NextState(from, Recover) == Some(to)
    || NextState(from, MarkTampered) == Some(to)
    || NextState(from, MarkCompromised) == Some(to)
    || NextState(from, MarkDestructed) == Some(to)
  }
}

/** Who may initiate what, and from which state. */
module Permissions {
  import opened AssetTypes

  predicate CanRoleInitiate(role: ActorRole, current: AssetState, action: AssetAction) {
    match role
    case Platform => true
    case Factory =>
      || (current == PreMinted && action == BlindLog)
      || (current == FactoryLogged && action == StockIn)
    case Brand =>
      || (current == Unassigned && action == ActivateRotateKeys)
      || (current == RotatingKeys && action == ActivateEntangle)
      || (current == EntangledPending && action == ActivateConfirm)
      || (current == Activated && action == LegalSell)
    case Consumer =>
      (current == LegallySold || current == Transferred)
      && (action == Transfer || action == Consume || action == AssetAction.Legacy)
    case Moderator =>
      action == Freeze || action == Recover || action == MarkTampered
      || action == MarkCompromised || action == MarkDestructed
  }
}

/** One guarded lifecycle step. */
module Protocol {
  import opened Wrappers
  import opened AssetTypes
  import opened StateMachine
  import opened Permissions

  datatype Step = Step(record: AssetRecord, event: AuditEvent)

  /** `eventId` is the fresh UUID of the audit event. */
  function ApplyAction(record: AssetRecord, action: AssetAction, context: AuditContext, eventId: string)
    : Result<Step, RcError>
  {
    if record.current.IsTerminal() then Err(TerminalState)
    else if record.current.IsFrozen() && action.IsBusiness() then Err(FrozenAsset)
    else if context.role == Platform && action.IsBusiness() && context.approvalId.None? then Err(PermissionDenied)
    else if !CanRoleInitiate(context.role, record.current, action) then Err(PermissionDenied)
    else if action == LegalSell && context.buyerId.None? then Err(InvalidInput)
    else
      var target := if action == Recover then NextStateWithPrevious(record.current, action, record.previous)
                    else NextState(record.current, action);
      if target.None? then Err(InvalidStateTransition)
      else
        var previous := if target.value == Disputed then Some(record.current) else None;
        Ok(Step(record.(current := target.value, previous := previous),
                AuditEvent(eventId, record.assetId, action, record.current, target.value, context)))
  }
}
