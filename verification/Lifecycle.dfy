/** What holds of whole runs of `ApplyAction`, whatever is attempted, accepted or refused along the way. */
module Lifecycle {
  import opened Wrappers
  import opened AssetTypes
  import opened StateMachine
  import opened Protocol

  datatype Attempt = Attempt(action: AssetAction, context: AuditContext, eventId: string)

  datatype History = History(record: AssetRecord, events: seq<AuditEvent>)

  function Try(record: AssetRecord, a: Attempt): Result<Step, RcError> {
    ApplyAction(record, a.action, a.context, a.eventId)
  }

  /** The record and audit trail after a sequence of attempts; a refused attempt changes nothing. */
  function After(start: AssetRecord, attempts: seq<Attempt>): History {
    if attempts == [] then History(start, [])
    else
      var before := After(start, attempts[..|attempts| - 1]);
      match Try(before.record, attempts[|attempts| - 1])
      case Ok(step) => History(step.record, before.events + [step.event])
      case Err(_) => before
  }

  /** A disputed asset still counts as being in the state the dispute interrupted. */
  function Effective(record: AssetRecord): AssetState {
    if record.current == Disputed && record.previous.Some? then record.previous.value else record.current
  }

  /** A dispute always remembers a live state to go back to. */
  predicate Sound(record: AssetRecord) {
    record.current == Disputed ==> record.previous.Some? && record.previous.value.IsLive()
  }

  function Rank(s: AssetState): nat {
    match s
    case PreMinted => 0
    case FactoryLogged => 1
    case Unassigned => 2
    case RotatingKeys => 3
    case EntangledPending => 4
    case Activated => 5
    case LegallySold => 6
    case Transferred => 7
    case Disputed => 0
    case _ => 8
  }

  /** The role each business action belongs to. */
  function NamedRole(action: AssetAction): ActorRole
    requires action.IsBusiness()
  {
    match action
    case BlindLog => Factory
    case StockIn => Factory
    case ActivateRotateKeys => Brand
    case ActivateEntangle => Brand
    case ActivateConfirm => Brand
    case LegalSell => Brand
    case _ => Consumer
  }

  predicate Moderates(role: ActorRole) {
    role == Platform || role == Moderator
  }

  /** By the named role, or by the platform under an approval; a sale names its buyer. */
  predicate Authorised(action: AssetAction, context: AuditContext) {
    action.IsBusiness() ==>
      && (context.role == NamedRole(action) || (context.role == Platform && context.approvalId.Some?))
      && (action == LegalSell ==> context.buyerId.Some?)
  }

  /** The states each business action may be taken from. */
  predicate StartsFrom(action: AssetAction, current: AssetState)
    requires action.IsBusiness()
  {
    match action
    case BlindLog => current == PreMinted
    case StockIn => current == FactoryLogged
    case ActivateRotateKeys => current == Unassigned
    case ActivateEntangle => current == RotatingKeys
    case ActivateConfirm => current == EntangledPending
    case LegalSell => current == Activated
    case _ => current == LegallySold || current == Transferred
  }

  const CHAIN: seq<AssetAction> :=
    [BlindLog, StockIn, ActivateRotateKeys, ActivateEntangle, ActivateConfirm, LegalSell]

  /** Which requests the lifecycle admits, stated without the order in which the code checks them. */
  predicate Admissible(record: AssetRecord, action: AssetAction, context: AuditContext) {
    if action.IsBusiness() then
      && Authorised(action, context)
      && StartsFrom(action, record.current)
    else
      && Moderates(context.role)
      && !record.current.IsTerminal()
      && (action == Freeze ==> record.current.IsLive())
      && (action == Recover ==> record.current == Disputed)
  }

  /** The state each business action leads to. */
  function TargetOf(action: AssetAction): AssetState
    requires action.IsBusiness()
  {
    match action
    case BlindLog => FactoryLogged
    case StockIn => Unassigned
    case ActivateRotateKeys => RotatingKeys
    case ActivateEntangle => EntangledPending
    case ActivateConfirm => Activated
    case LegalSell => LegallySold
    case Transfer => Transferred
    case Consume => Consumed
    case _ => AssetState.Legacy
  }

  lemma BusinessLeads(action: AssetAction, from: AssetState)
    requires action.IsBusiness()
    ensures NextState(from, action) == if StartsFrom(action, from) then Some(TargetOf(action)) else None
  {
  }

  lemma BusinessIffAdmissible(record: AssetRecord, a: Attempt)
    requires a.action.IsBusiness()
    ensures Try(record, a).Ok? <==> Admissible(record, a.action, a.context)
  {
    hide NextStateWithPrevious, NextState, TargetOf;
    BusinessLeads(a.action, record.current);
  }

  lemma ModerationIffAdmissible(record: AssetRecord, a: Attempt)
    requires Sound(record) && !a.action.IsBusiness()
    ensures Try(record, a).Ok? <==> Admissible(record, a.action, a.context)
  {
  }

  lemma AcceptedIffAdmissible(record: AssetRecord, a: Attempt)
    requires Sound(record)
    ensures Try(record, a).Ok? <==> Admissible(record, a.action, a.context)
  {
    hide *;
    if a.action.IsBusiness() {
      BusinessIffAdmissible(record, a);
    } else {
      ModerationIffAdmissible(record, a);
    }
  }

  /** Who may attempt an action at all: the platform anything, business under an approval; a moderator moderation; the
      others their own business from its own states. */
  predicate MayAttempt(current: AssetState, action: AssetAction, context: AuditContext) {
    match context.role
    case Platform => action.IsBusiness() ==> context.approvalId.Some?
    case Moderator => !action.IsBusiness()
    case _ => action.IsBusiness() && context.role == NamedRole(action) && StartsFrom(action, current)
  }

  /** Which error refuses a request: the end of the asset's life comes before a freeze, a freeze before the permission, the
      permission before a missing buyer, and what remains is no transition. */
  lemma WhyRefused(record: AssetRecord, a: Attempt)
    requires Try(record, a).Err?
    ensures var s := record.current;
            Try(record, a).error ==
              if s == Consumed || s == AssetState.Legacy || s == Tampered || s == Compromised || s == Destructed
              then TerminalState
              else if s == Disputed && a.action.IsBusiness() then FrozenAsset
              else if !MayAttempt(s, a.action, a.context) then PermissionDenied
              else if a.action == LegalSell && a.context.buyerId == None then InvalidInput
              else InvalidStateTransition
  {
  }

  /** What one accepted step does to the effective state: business advances it, a dispute and its recovery keep it,
      a mark ends it. */
  lemma AcceptedStep(record: AssetRecord, a: Attempt)
    requires Sound(record) && Try(record, a).Ok?
    ensures var next := Try(record, a).value.record;
            && Sound(next) && !record.current.IsTerminal()
            && next.assetId == record.assetId && next.brandId == record.brandId
            && (next.current == Disputed <==> a.action == Freeze)
            && (next.previous.Some? ==> a.action == Freeze)
            && (a.action.IsBusiness() ==>
                  && record.current.IsLive() && Authorised(a.action, a.context)
                  && Rank(record.current) <= Rank(next.current)
                  && (Rank(record.current) == Rank(next.current) ==> record.current == Transferred))
            && (a.action == Freeze || a.action == Recover ==> Effective(next) == Effective(record))
            && (Effective(next) == Effective(record) || Rank(Effective(record)) < Rank(Effective(next)))
            && (a.action == MarkTampered ==> next.current == Tampered)
            && (a.action == MarkCompromised ==> next.current == Compromised)
            && (a.action == MarkDestructed ==> next.current == Destructed)
  {
    AcceptedIffAdmissible(record, a);
  }

  /** The audit event names what was attempted, by whom, and the states before and after. */
  lemma AcceptedEvent(record: AssetRecord, a: Attempt)
    requires Try(record, a).Ok?
    ensures var step := Try(record, a).value;
            step.event == AuditEvent(a.eventId, record.assetId, a.action, record.current, step.record.current, a.context)
  {
  }

  /** The business actions of an audit trail, in order. */
  function BusinessActions(events: seq<AuditEvent>): seq<AssetAction> {
    if events == [] then []
    else
      var last := events[|events| - 1].action;
      BusinessActions(events[..|events| - 1]) + (if last.IsBusiness() then [last] else [])
  }

  predicate OnlyTransfers(actions: seq<AssetAction>) {
    forall k :: 0 <= k < |actions| ==> actions[k] == Transfer
  }

  /** The business actions that lead to a live state: a prefix of the chain, or the whole chain and then transfers. */
  predicate LeadsToLive(actions: seq<AssetAction>, s: AssetState) {
    && s.IsLive()
    && (if s == Transferred then CHAIN < actions && OnlyTransfers(actions[|CHAIN|..])
        else actions == CHAIN[..Rank(s)])
  }

  /** The business actions that lead to any effective state. */
  ghost predicate LeadsTo(actions: seq<AssetAction>, s: AssetState) {
    if s.IsLive() then LeadsToLive(actions, s)
    else if s == Consumed || s == AssetState.Legacy then
      && |actions| > 0
      && actions[|actions| - 1] == (if s == Consumed then Consume else AssetAction.Legacy)
      && (LeadsToLive(actions[..|actions| - 1], LegallySold) || LeadsToLive(actions[..|actions| - 1], Transferred))
    else
      exists live :: LeadsToLive(actions, live)
  }

  lemma LeadsToAfterBusiness(actions: seq<AssetAction>, from: AssetState, action: AssetAction, to: AssetState)
    requires LeadsToLive(actions, from) && action.IsBusiness() && NextState(from, action) == Some(to)
    ensures LeadsTo(actions + [action], to)
  {
    var extended := actions + [action];
    assert extended[..|actions|] == actions;
    if Rank(from) < 6 {
      assert extended == CHAIN[..Rank(from) + 1];
    } else if action == Transfer {
      assert CHAIN[..6] == CHAIN;
      assert extended[6..] == actions[6..] + [Transfer];
    }
  }

  lemma LeadsToAfterModeration(actions: seq<AssetAction>, record: AssetRecord, a: Attempt)
    requires Sound(record) && Try(record, a).Ok? && LeadsTo(actions, Effective(record)) && !a.action.IsBusiness()
    ensures LeadsTo(actions, Effective(Try(record, a).value.record))
  {
    AcceptedStep(record, a);
    assert Effective(record).IsLive();
    assert LeadsToLive(actions, Effective(record));
  }

  lemma LeadsToStep(actions: seq<AssetAction>, record: AssetRecord, a: Attempt)
    requires Sound(record) && Try(record, a).Ok? && LeadsTo(actions, Effective(record))
    ensures LeadsTo(actions + (if a.action.IsBusiness() then [a.action] else []),
                    Effective(Try(record, a).value.record))
  {
    AcceptedStep(record, a);
    if a.action.IsBusiness() {
      LeadsToAfterBusiness(actions, record.current, a.action, Try(record, a).value.record.current);
    } else {
      LeadsToAfterModeration(actions, record, a);
      assert actions + [] == actions;
    }
  }

  lemma NothingLeadsToPreMinted()
    ensures LeadsTo([], PreMinted)
  {
    assert CHAIN[..0] == [];
  }

  lemma BusinessActionsAppend(events: seq<AuditEvent>, e: AuditEvent)
    ensures BusinessActions(events + [e])
         == BusinessActions(events) + (if e.action.IsBusiness() then [e.action] else [])
  {
    assert (events + [e])[..|events|] == events;
  }

  /**
   Provenance. However freezes, recoveries and refused attempts are interleaved, the business actions on record are
   exactly the ones that lead to the asset's effective state, and each was authorised.
   */
  lemma {:induction false} Provenance(start: AssetRecord, attempts: seq<Attempt>)
    requires start.current == PreMinted
    ensures var h := After(start, attempts);
            && Sound(h.record)
            && LeadsTo(BusinessActions(h.events), Effective(h.record))
            && forall k :: 0 <= k < |h.events| ==> Authorised(h.events[k].action, h.events[k].context)
  {
    hide ApplyAction, LeadsTo, Admissible;
    if attempts == [] {
      assert LeadsTo([], PreMinted) by { NothingLeadsToPreMinted(); }
    } else {
      var n := |attempts| - 1;
      Provenance(start, attempts[..n]);
      var before := After(start, attempts[..n]);
      if Try(before.record, attempts[n]).Ok? {
        AcceptedStep(before.record, attempts[n]);
        AcceptedEvent(before.record, attempts[n]);
        LeadsToStep(BusinessActions(before.events), before.record, attempts[n]);
        BusinessActionsAppend(before.events, Try(before.record, attempts[n]).value.event);
      }
    }
  }

  /** An asset found in LegallySold went through the six steps of the chain, in order, and nothing else. */
  lemma SaleProvenance(start: AssetRecord, attempts: seq<Attempt>)
    requires start.current == PreMinted && After(start, attempts).record.current == LegallySold
    ensures BusinessActions(After(start, attempts).events) == CHAIN
  {
    hide ApplyAction, After;
    Provenance(start, attempts);
    assert CHAIN[..6] == CHAIN;
  }

  // ---- No moving backwards ----

  lemma AfterExtends(start: AssetRecord, attempts: seq<Attempt>, n: nat)
    requires 0 < n <= |attempts|
    ensures After(start, attempts[..n])
         == match Try(After(start, attempts[..n - 1]).record, attempts[n - 1])
            case Ok(step) => History(step.record, After(start, attempts[..n - 1]).events + [step.event])
            case Err(_) => After(start, attempts[..n - 1])
  {
    assert attempts[..n][..n - 1] == attempts[..n - 1];
  }

  lemma {:induction false} StaysSound(start: AssetRecord, attempts: seq<Attempt>, n: nat)
    requires Sound(start) && n <= |attempts|
    ensures Sound(After(start, attempts[..n]).record)
  {
    if n > 0 {
      StaysSound(start, attempts, n - 1);
      AfterExtends(start, attempts, n);
      var before := After(start, attempts[..n - 1]).record;
      if Try(before, attempts[n - 1]).Ok? {
        AcceptedStep(before, attempts[n - 1]);
      }
    }
  }

  /** Between any two moments of a run the effective rank never falls, and a terminal asset never changes again. */
  lemma {:induction false} NoMovingBackwards(start: AssetRecord, attempts: seq<Attempt>, m: nat, n: nat)
    requires Sound(start) && m <= n <= |attempts|
    ensures var earlier, later := After(start, attempts[..m]), After(start, attempts[..n]);
            && Rank(Effective(earlier.record)) <= Rank(Effective(later.record))
            && (earlier.record.current.IsTerminal() ==> later == earlier)
    decreases n - m
  {
    hide ApplyAction;
    if m < n {
      NoMovingBackwards(start, attempts, m, n - 1);
      StaysSound(start, attempts, n - 1);
      AfterExtends(start, attempts, n);
      var before := After(start, attempts[..n - 1]).record;
      if Try(before, attempts[n - 1]).Ok? {
        AcceptedStep(before, attempts[n - 1]);
      }
    }
  }

  /** Every business step but a repeated transfer starts from a strictly higher state than all earlier ones:
      each state up to LegallySold is left at most once. */
  lemma {:induction false} EachStateLeftOnce(start: AssetRecord, attempts: seq<Attempt>)
    requires Sound(start)
    ensures var h := After(start, attempts);
            && Sound(h.record)
            && (forall i :: 0 <= i < |h.events| && h.events[i].action.IsBusiness() ==>
                  && Rank(h.events[i].from) <= Rank(Effective(h.record))
                  && (Rank(h.events[i].from) == Rank(Effective(h.record)) ==> h.events[i].from == Transferred))
            && (forall i, j :: 0 <= i < j < |h.events|
                               && h.events[i].action.IsBusiness() && h.events[j].action.IsBusiness() ==>
                  && Rank(h.events[i].from) <= Rank(h.events[j].from)
                  && (Rank(h.events[i].from) == Rank(h.events[j].from) ==> h.events[i].from == Transferred))
  {
    hide ApplyAction;
    if attempts != [] {
      var n := |attempts| - 1;
      EachStateLeftOnce(start, attempts[..n]);
      var before := After(start, attempts[..n]);
      if Try(before.record, attempts[n]).Ok? {
        AcceptedStep(before.record, attempts[n]);
        AcceptedEvent(before.record, attempts[n]);
      }
    }
  }

  // ---- Disputes ----

  /** A frozen asset admits exactly the moderators' and the platform's recoveries and marks. */
  lemma FrozenAdmits(record: AssetRecord, a: Attempt)
    requires Sound(record) && record.current == Disputed
    ensures Try(record, a).Ok?
       <==> Moderates(a.context.role)
            && !a.action.IsBusiness() && a.action != Freeze
  {
    AcceptedIffAdmissible(record, a);
  }

  lemma {:induction false} RefusedChangeNothing(start: AssetRecord, refused: seq<Attempt>)
    requires forall k :: 0 <= k < |refused| ==> Try(start, refused[k]).Err?
    ensures After(start, refused) == History(start, [])
  {
    if refused != [] {
      RefusedChangeNothing(start, refused[..|refused| - 1]);
    }
  }

  lemma RecoveryUndoesFreeze(record: AssetRecord, freeze: Attempt, recover: Attempt)
    requires freeze.action == Freeze && Try(record, freeze).Ok?
    requires recover.action == Recover && Moderates(recover.context.role)
    ensures var frozen := Try(record, freeze).value.record;
            && frozen.current == Disputed && frozen.previous == Some(record.current)
            && Try(frozen, recover).Ok? && Try(frozen, recover).value.record == record.(previous := None)
  {
    assert record.current.IsLive();
  }

  /** A dispute is never stuck: freeze, then any number of refused attempts, then a recovery by someone entitled to it
      gives back exactly the record that was frozen. */
  lemma FreezeThenRecover(record: AssetRecord, freeze: Attempt, refused: seq<Attempt>, recover: Attempt)
    requires freeze.action == Freeze && Try(record, freeze).Ok?
    requires forall k :: 0 <= k < |refused| ==> Try(Try(record, freeze).value.record, refused[k]).Err?
    requires recover.action == Recover && Moderates(recover.context.role)
    ensures var later := After(Try(record, freeze).value.record, refused).record;
            Try(later, recover).Ok? && Try(later, recover).value.record == record.(previous := None)
  {
    hide ApplyAction, After;
    RefusedChangeNothing(Try(record, freeze).value.record, refused);
    RecoveryUndoesFreeze(record, freeze, recover);
  }

  /** Where each action leads from each state, on its own. */
  predicate LeadsFrom(a: AssetAction, from: AssetState, to: AssetState) {
    match a
    case Freeze => from.IsLive() && to == Disputed
    case Recover => false
    case MarkTampered => !from.IsTerminal() && to == Tampered
    case MarkCompromised => !from.IsTerminal() && to == Compromised
    case MarkDestructed => !from.IsTerminal() && to == Destructed
    case _ => StartsFrom(a, from) && to == TargetOf(a)
  }

  lemma ModerationLeads(a: AssetAction, from: AssetState, to: AssetState)
    requires !a.IsBusiness()
    ensures NextState(from, a) == Some(to) <==> LeadsFrom(a, from, to)
  {
  }

  lemma WhereActionsLead(a: AssetAction, from: AssetState, to: AssetState)
    ensures NextState(from, a) == Some(to) <==> LeadsFrom(a, from, to)
  {
    hide NextState;
    if a.IsBusiness() {
      BusinessLeads(a, from);
    } else {
      ModerationLeads(a, from, to);
    }
  }

  /** Nothing leads out of an ended asset; from any other, a mark ends it, a freeze disputes it unless it is disputed, the
      chain goes one state further, and a sold or transferred asset is handed on, consumed or archived. */
  predicate InTable(from: AssetState, to: AssetState) {
    && from != Consumed && from != AssetState.Legacy
    && from != Tampered && from != Compromised && from != Destructed
    && (|| to == Tampered || to == Compromised || to == Destructed
        || (to == Disputed && from != Disputed)
        || (from != Disputed && to != Disputed && Rank(to) == Rank(from) + 1 <= Rank(LegallySold))
        || ((from == LegallySold || from == Transferred)
            && (to == Transferred || to == Consumed || to == AssetState.Legacy)))
  }

  /** The only action that can lead to a state. */
  function ActionTo(to: AssetState): AssetAction {
    match to
    case FactoryLogged => BlindLog
    case Unassigned => StockIn
    case RotatingKeys => ActivateRotateKeys
    case EntangledPending => ActivateEntangle
    case Activated => ActivateConfirm
    case LegallySold => LegalSell
    case Transferred => Transfer
    case Consumed => Consume
    case Legacy => AssetAction.Legacy
    case Tampered => MarkTampered
    case Compromised => MarkCompromised
    case Destructed => MarkDestructed
    case Disputed => Freeze
    case PreMinted => Recover
  }

  lemma LeadsAlongTable(a: AssetAction, from: AssetState, to: AssetState)
    requires LeadsFrom(a, from, to)
    ensures a == ActionTo(to)
    ensures InTable(from, to)
  {
  }

  lemma ChainIsLed(from: AssetState, to: AssetState)
    requires from != Disputed && to != Disputed && Rank(to) == Rank(from) + 1 <= Rank(LegallySold)
    ensures LeadsFrom(ActionTo(to), from, to)
  {
  }

  lemma TableIsLed(from: AssetState, to: AssetState)
    requires InTable(from, to)
    ensures LeadsFrom(ActionTo(to), from, to)
  {
    if from != Disputed && to != Disputed && Rank(to) == Rank(from) + 1 <= Rank(LegallySold) {
      ChainIsLed(from, to);
    } else {
      hide Rank;
    }
  }

  /** The transition table is this one. */
  lemma TableOfTransitions(from: AssetState, to: AssetState)
    ensures CanTransition(from, to) <==> InTable(from, to)
  {
    hide CanTransition;
    if CanTransition(from, to) {
      var a := TransitionHasAction(from, to);
      WhereActionsLead(a, from, to);
      hide *;
      LeadsAlongTable(a, from, to);
    } else if InTable(from, to) {
      hide *;
      TableIsLed(from, to);
      WhereActionsLead(ActionTo(to), from, to);
      ActionMakesTransition(from, to, ActionTo(to));
    }
  }

  lemma TransitionHasAction(from: AssetState, to: AssetState) returns (a: AssetAction)
    requires CanTransition(from, to)
    ensures NextState(from, a) == Some(to)
  {
    hide NextState;
    a :| NextState(from, a) == Some(to);
  }

  lemma ActionMakesTransition(from: AssetState, to: AssetState, a: AssetAction)
    requires NextState(from, a) == Some(to)
    ensures CanTransition(from, to)
  {
    hide NextState;
  }

  /** Nothing leads out of a dispute to a live state. */
  lemma NoTransitionBackToLife(s: AssetState)
    requires s.IsLive()
    ensures !CanTransition(Disputed, s)
  {
    hide CanTransition;
    TableOfTransitions(Disputed, s);
  }

  /** `CanTransition` describes every step the protocol takes, except that it knows no way out of a dispute by recovery. */
  lemma CanTransitionMissesExactlyRecovery(record: AssetRecord, a: Attempt)
    requires Sound(record) && Try(record, a).Ok?
    ensures CanTransition(record.current, Try(record, a).value.record.current) <==> a.action != Recover
  {
    if a.action == Recover {
      hide CanTransition;
      NoTransitionBackToLife(record.previous.value);
    } else {
      hide NextStateWithPrevious;
      assert NextState(record.current, a.action) == Some(Try(record, a).value.record.current);
    }
  }
}
