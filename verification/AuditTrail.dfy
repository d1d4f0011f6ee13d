/** What the audit log says about each asset, and when it says the truth. */
module AuditTrail {
  import opened Wrappers
  import opened AssetTypes
  import opened StateMachine
  import opened Protocol
  import opened Lifecycle
  import opened Ledger
  import opened LedgerRuns

  /** One asset's events, in order. */
  function TrailOf(events: seq<EventRow>, a: string): seq<EventRow> {
    if events == [] then []
    else
      var last := events[|events| - 1];
      TrailOf(events[..|events| - 1], a) + (if last.assetId == a then [last] else [])
  }

  lemma TrailAppend(events: seq<EventRow>, e: EventRow, a: string)
    ensures TrailOf(events + [e], a) == TrailOf(events, a) + (if e.assetId == a then [e] else [])
  {
    assert (events + [e])[..|events|] == events;
  }

  // ---- The chain ----

  function LastTo(trail: seq<EventRow>): string {
    if trail == [] then PreMinted.AsDbStr() else trail[|trail| - 1].toState
  }

  /** Each event starts where the one before it ended. */
  predicate Chained(trail: seq<EventRow>) {
    forall k :: 0 <= k < |trail| ==> trail[k].fromState == LastTo(trail[..k])
  }

  predicate ChainHolds(t: Tables, a: string) {
    && Healthy(t, a)
    && Chained(TrailOf(t.events, a))
    && LastTo(TrailOf(t.events, a)) == t.assets[a].currentState
  }

  /** Every transfer that reaches the asset row also reaches the log. */
  predicate Audited(e: Event) {
    e.request.Move? ==> e.fault == NoFault || e.fault == ReadFails || e.fault == Refused
  }

  predicate AllAudited(events: seq<Event>) {
    forall k :: 0 <= k < |events| ==> Audited(events[k])
  }

  /** The event a request adds to an asset's trail. */
  function Added(t: Tables, e: Event, a: string): seq<EventRow> {
    if !Touches(EffectOf(t, e), a) then []
    else
      match EffectOf(t, e)
      case Performed(_, step) => [Printed(step.event)]
      case Handed(r, h) => if e.fault == NoFault then [TransferEvent(r, h.from, e.eventId)] else []
  }

  lemma PerformedTrail(t: Tables, e: Event, a: string)
    requires EffectOf(t, e).Performed?
    ensures TrailOf(Next(t, e).events, a) == TrailOf(t.events, a) + Added(t, e, a)
  {
    hide Next, EffectOf, CallOf, FetchAsset, ApplyAction, TrailOf, OwnerAfter;
    Performance(t, e);
    var c, step := EffectOf(t, e).call, EffectOf(t, e).step;
    AcceptedEvent(Presented(c, FetchAsset(t, c.assetId).value), AttemptOf(c, e.eventId));
    FetchedNames(t, c.assetId);
    TrailAppend(t.events, Printed(step.event), a);
  }

  lemma HandedTrail(t: Tables, e: Event, a: string)
    requires EffectOf(t, e).Handed?
    ensures TrailOf(Next(t, e).events, a) == TrailOf(t.events, a) + Added(t, e, a)
  {
    hide Next, EffectOf, CallOf, Consent, TrailOf, AssetState.AsDbStr;
    Movement(t, e);
    var r, h := EffectOf(t, e).move, EffectOf(t, e).handover;
    if e.fault == NoFault {
      TrailAppend(t.events, TransferEvent(r, h.from, e.eventId), a);
    } else {
      assert t.events + [] == t.events;
    }
  }

  lemma TrailGrows(t: Tables, e: Event, a: string)
    ensures TrailOf(Next(t, e).events, a) == TrailOf(t.events, a) + Added(t, e, a)
  {
    hide Next, EffectOf, TrailOf;
    match EffectOf(t, e)
    case Performed(_, _) => PerformedTrail(t, e, a);
    case Handed(_, _) => HandedTrail(t, e, a);
    case Nothing => NothingElseChanges(t, e);
  }

  lemma ChainedAppend(trail: seq<EventRow>, e: EventRow)
    requires Chained(trail)
    ensures Chained(trail + [e]) <==> e.fromState == LastTo(trail)
    ensures LastTo(trail + [e]) == e.toState
  {
    forall k | 0 <= k <= |trail|
      ensures (trail + [e])[..k] == trail[..k]
    {
    }
    assert (trail + [e])[|trail|] == e && trail[..|trail|] == trail;
  }

  /** The texts an event and the row it describes share. */
  lemma PerformedTexts(t: Tables, e: Event)
    requires EffectOf(t, e).Performed?
    ensures var c, row := EffectOf(t, e).call, Printed(EffectOf(t, e).step.event);
            && c.assetId in t.assets && c.assetId in Next(t, e).assets
            && row.fromState == t.assets[c.assetId].currentState
            && row.toState == Next(t, e).assets[c.assetId].currentState
  {
    hide Next, EffectOf, CallOf, FetchAsset, ApplyAction, OwnerAfter, AssetState.AsDbStr;
    Performance(t, e);
    var c := EffectOf(t, e).call;
    AcceptedEvent(Presented(c, FetchAsset(t, c.assetId).value), AttemptOf(c, e.eventId));
    FetchedNames(t, c.assetId);
  }

  lemma StepKeepsChain(t: Tables, e: Event, a: string)
    requires ChainHolds(t, a) && Audited(e)
    ensures ChainHolds(Next(t, e), a)
  {
    hide Next, EffectOf, FetchAsset, TrailOf, Chained, LastTo, Printed, TransferEvent, Consent;
    StepKeepsHealthy(t, e, a);
    TrailGrows(t, e, a);
    if !Touches(EffectOf(t, e), a) {
      UntouchedReadsSame(t, e, a);
      assert TrailOf(t.events, a) + [] == TrailOf(t.events, a);
    } else if EffectOf(t, e).Performed? {
      PerformedTexts(t, e);
      ChainedAppend(TrailOf(t.events, a), Printed(EffectOf(t, e).step.event));
    } else {
      HandedTexts(t, e);
      HandedChain(t, e);
    }
  }

  lemma HandedTexts(t: Tables, e: Event)
    requires EffectOf(t, e).Handed?
    ensures var r, h := EffectOf(t, e).move, EffectOf(t, e).handover;
            && r.assetId in t.assets && r.assetId in Next(t, e).assets
            && h.from.AsDbStr() == t.assets[r.assetId].currentState
            && Transferred.AsDbStr() == Next(t, e).assets[r.assetId].currentState
            && (h.from == LegallySold || h.from == Transferred)
            && e.request == Move(r) && e.fault != ReadFails && e.fault != Refused
  {
    hide Next, Consent, FetchAsset, AssetState.AsDbStr;
    Movement(t, e);
    FetchedNames(t, EffectOf(t, e).move.assetId);
  }

  /** A transfer keeps the chain exactly when its event is logged or the asset was already in Transferred. */
  lemma HandedChain(t: Tables, e: Event)
    requires EffectOf(t, e).Handed? && ChainHolds(t, EffectOf(t, e).move.assetId)
    ensures ChainHolds(Next(t, e), EffectOf(t, e).move.assetId)
            <==> (e.fault == NoFault || EffectOf(t, e).handover.from == Transferred)
  {
    hide Next, EffectOf, FetchAsset, TrailOf, Chained, LastTo, Consent, AssetState.AsDbStr;
    var a, h := EffectOf(t, e).move.assetId, EffectOf(t, e).handover;
    StepKeepsHealthy(t, e, a);
    TrailGrows(t, e, a);
    HandedTexts(t, e);
    if e.fault == NoFault {
      ChainedAppend(TrailOf(t.events, a), TransferEvent(EffectOf(t, e).move, h.from, e.eventId));
    } else {
      assert TrailOf(t.events, a) + [] == TrailOf(t.events, a);
      SoldIsNotTransferred();
    }
  }

  lemma SoldIsNotTransferred()
    ensures LegallySold.AsDbStr() != Transferred.AsDbStr()
  {
    assert |LegallySold.AsDbStr()| == |Transferred.AsDbStr()| && LegallySold.AsDbStr()[0] != Transferred.AsDbStr()[0];
  }

  lemma FreshChain(t: Tables, a: string)
    requires Fresh(t) && a in t.assets
    ensures ChainHolds(t, a)
  {
    hide FetchAsset;
    FreshReads(t, a);
  }

  /** The log tells each asset's whole story without a gap, whatever saved states requests carry. */
  lemma {:induction false} ChainAlways(t: Tables, events: seq<Event>, a: string)
    requires Fresh(t) && AllAudited(events) && a in t.assets
    ensures ChainHolds(Run(t, events), a)
  {
    hide Fresh, ChainHolds, Next, Audited;
    if events == [] {
      FreshChain(t, a);
    } else {
      ChainAlways(t, events[..|events| - 1], a);
      StepKeepsChain(Run(t, events[..|events| - 1]), events[|events| - 1], a);
    }
  }

  // ---- Replay ----

  /** Reading an action column back. */
  function ActionNamed(text: string): (r: Option<AssetAction>)
    ensures r.Some? ==> r.value.AsDbStr() == text
  {
    if text == "BlindLog" then Some(BlindLog)
    else if text == "StockIn" then Some(StockIn)
    else if text == "ActivateRotateKeys" then Some(ActivateRotateKeys)
    else if text == "ActivateEntangle" then Some(ActivateEntangle)
    else if text == "ActivateConfirm" then Some(ActivateConfirm)
    else if text == "LegalSell" then Some(LegalSell)
    else if text == "Transfer" then Some(Transfer)
    else if text == "Consume" then Some(Consume)
    else if text == "Legacy" then Some(AssetAction.Legacy)
    else if text == "Freeze" then Some(Freeze)
    else if text == "Recover" then Some(Recover)
    else if text == "MarkTampered" then Some(MarkTampered)
    else if text == "MarkCompromised" then Some(MarkCompromised)
    else if text == "MarkDestructed" then Some(MarkDestructed)
    else None
  }

  lemma ActionParsesBack(action: AssetAction)
    ensures ActionNamed(action.AsDbStr()) == Some(action)
  {
  }

  /** One logged event taken through the state machine; the logged states must be the ones it gives. */
  function ReplayStep(record: AssetRecord, e: EventRow): Option<AssetRecord> {
    match ActionNamed(e.action)
    case None => None
    case Some(action) =>
      var target := NextStateWithPrevious(record.current, action, record.previous);
      if target.None? || FromDbStr(e.fromState) != Some(record.current) || FromDbStr(e.toState) != target then None
      else Some(record.(current := target.value,
                        previous := if target.value == Disputed then Some(record.current) else None))
  }

  function Replay(start: AssetRecord, trail: seq<EventRow>): Option<AssetRecord> {
    if trail == [] then Some(start)
    else
      match Replay(start, trail[..|trail| - 1])
      case None => None
      case Some(record) => ReplayStep(record, trail[|trail| - 1])
  }

  /** What the row holds after a trail: a transfer also leaves the state it started from in `previous_state`. */
  function RowAfter(start: AssetRecord, trail: seq<EventRow>): Option<AssetRecord> {
    match Replay(start, trail)
    case None => None
    case Some(record) =>
      if trail != [] && ActionNamed(trail[|trail| - 1].action) == Some(Transfer)
      then Some(record.(previous := FromDbStr(trail[|trail| - 1].fromState)))
      else Some(record)
  }

  /** The part of a record the state machine can still use. */
  function Remembered(record: AssetRecord): AssetRecord {
    record.(previous := if record.current == Disputed then record.previous else None)
  }

  predicate ReplayHolds(start: AssetRecord, t: Tables, a: string) {
    && Healthy(t, a)
    && Replay(start, TrailOf(t.events, a)) == Some(Remembered(FetchAsset(t, a).value))
    && RowAfter(start, TrailOf(t.events, a)) == Some(FetchAsset(t, a).value)
  }

  lemma OnlyRecoverReadsPrevious(record: AssetRecord, a: Attempt)
    requires Try(record, a).Ok?
    ensures var step := Try(record, a).value;
            && NextStateWithPrevious(record.current, a.action, Remembered(record).previous) == Some(step.record.current)
            && step.record == record.(current := step.record.current,
                                      previous := if step.record.current == Disputed then Some(record.current) else None)
  {
  }

  lemma ReplayAccepted(record: AssetRecord, a: Attempt)
    requires Try(record, a).Ok?
    ensures var step := Try(record, a).value;
            && ReplayStep(Remembered(record), Printed(step.event)) == Some(step.record)
            && ActionNamed(Printed(step.event).action) == Some(a.action)
            && Remembered(step.record) == step.record
  {
    hide ApplyAction, NextStateWithPrevious, FromDbStr, ActionNamed, AssetState.AsDbStr, AssetAction.AsDbStr;
    AcceptedEvent(record, a);
    OnlyRecoverReadsPrevious(record, a);
    ActionParsesBack(a.action);
    DbStrParsesBack(record.current);
    DbStrParsesBack(Try(record, a).value.record.current);
  }

  lemma ReplayMoved(record: AssetRecord, r: TransferRequest, eventId: string)
    requires record.current == LegallySold || record.current == Transferred
    ensures var row := TransferEvent(r, record.current, eventId);
            && ReplayStep(Remembered(record), row) == Some(record.(current := Transferred, previous := None))
            && ActionNamed(row.action) == Some(Transfer)
            && FromDbStr(row.fromState) == Some(record.current)
  {
    hide FromDbStr, ActionNamed, AssetState.AsDbStr, AssetAction.AsDbStr;
    ActionParsesBack(Transfer);
    DbStrParsesBack(record.current);
    DbStrParsesBack(Transferred);
  }

  lemma ReplayAppend(start: AssetRecord, trail: seq<EventRow>, e: EventRow)
    requires Replay(start, trail).Some?
    ensures Replay(start, trail + [e]) == ReplayStep(Replay(start, trail).value, e)
  {
    assert (trail + [e])[..|trail|] == trail;
  }

  lemma StepKeepsReplay(start: AssetRecord, t: Tables, e: Event, a: string)
    requires ReplayHolds(start, t, a) && Audited(e) && Unset(e)
    ensures ReplayHolds(start, Next(t, e), a)
  {
    hide Next, EffectOf, FetchAsset, TrailOf, Replay, ReplayStep, Printed, TransferEvent, Consent, ApplyAction, CallOf,
         FromDbStr, ActionNamed;
    var trail, record := TrailOf(t.events, a), FetchAsset(t, a).value;
    StepKeepsHealthy(t, e, a);
    TrailGrows(t, e, a);
    if !Touches(EffectOf(t, e), a) {
      UntouchedReadsSame(t, e, a);
      assert trail + [] == trail;
    } else if EffectOf(t, e).Performed? {
      var step := EffectOf(t, e).step;
      Performance(t, e);
      PerformedOnStored(t, e);
      PerformedReadsBack(t, e);
      ReplayAppend(start, trail, Printed(step.event));
      ReplayAccepted(record, AttemptOf(EffectOf(t, e).call, e.eventId));
    } else {
      var r, h := EffectOf(t, e).move, EffectOf(t, e).handover;
      Movement(t, e);
      HandedTexts(t, e);
      MovedReadsBack(t, e);
      ReplayAppend(start, trail, TransferEvent(r, h.from, e.eventId));
      ReplayMoved(record, r, e.eventId);
    }
  }

  /** Folding an asset's logged actions through the state machine gives back the stored row. */
  lemma {:induction false} ReplayAlways(t: Tables, events: seq<Event>, a: string)
    requires Fresh(t) && AllAudited(events) && AllUnset(events) && a in t.assets
    ensures ReplayHolds(Minted(t, a), Run(t, events), a)
  {
    hide Fresh, ReplayHolds, Next, Audited, Unset;
    if events == [] {
      FreshReplay(t, a);
    } else {
      ReplayAlways(t, events[..|events| - 1], a);
      StepKeepsReplay(Minted(t, a), Run(t, events[..|events| - 1]), events[|events| - 1], a);
    }
  }

  lemma FreshReplay(t: Tables, a: string)
    requires Fresh(t) && a in t.assets
    ensures ReplayHolds(Minted(t, a), t, a)
  {
    FreshReads(t, a);
  }

  /** A recovery that brings its own saved state keeps the log replayable exactly when it brings the stored one. */
  lemma OverriddenReplay(start: AssetRecord, t: Tables, e: Event)
    requires EffectOf(t, e).Performed? && EffectOf(t, e).call.action == Recover
    requires EffectOf(t, e).call.previous.Some? && ReplayHolds(start, t, EffectOf(t, e).call.assetId)
    ensures var c := EffectOf(t, e).call;
            ReplayHolds(start, Next(t, e), c.assetId) <==> c.previous == FetchAsset(t, c.assetId).value.previous
  {
    hide Next, EffectOf, FetchAsset, TrailOf, Replay, Printed, Consent, ApplyAction, CallOf, FromDbStr, ActionNamed,
         AssetState.AsDbStr, AssetAction.AsDbStr;
    var c, step := EffectOf(t, e).call, EffectOf(t, e).step;
    var stored := FetchAsset(t, c.assetId).value;
    var given := Presented(c, stored);
    Performance(t, e);
    PerformedReadsBack(t, e);
    StepKeepsHealthy(t, e, c.assetId);
    TrailGrows(t, e, c.assetId);
    RecoveredTo(given, AttemptOf(c, e.eventId));
    ReplayAppend(start, TrailOf(t.events, c.assetId), Printed(step.event));
    ReplayRecovery(given, AttemptOf(c, e.eventId), stored);
  }

  lemma ReplayRecovery(given: AssetRecord, a: Attempt, stored: AssetRecord)
    requires a.action == Recover && Try(given, a).Ok? && Sound(stored) && stored == given.(previous := stored.previous)
    ensures var row := Printed(Try(given, a).value.event);
            && ActionNamed(row.action) == Some(Recover)
            && ReplayStep(Remembered(stored), row)
               == if given.previous == stored.previous then Some(Try(given, a).value.record) else None
  {
    hide ApplyAction, FromDbStr, ActionNamed, AssetState.AsDbStr, AssetAction.AsDbStr;
    RecoveredTo(given, a);
    AcceptedEvent(given, a);
    ActionParsesBack(Recover);
    DbStrParsesBack(given.current);
    DbStrParsesBack(given.previous.value);
  }

  // ---- Provenance from the log ----

  /** The business actions a trail tells of, in order. */
  function LoggedBusiness(trail: seq<EventRow>): seq<AssetAction> {
    if trail == [] then []
    else
      var last := ActionNamed(trail[|trail| - 1].action);
      LoggedBusiness(trail[..|trail| - 1]) + (if last.Some? && last.value.IsBusiness() then [last.value] else [])
  }

  lemma LoggedAppend(trail: seq<EventRow>, e: EventRow)
    ensures LoggedBusiness(trail + [e])
         == LoggedBusiness(trail)
            + (if ActionNamed(e.action).Some? && ActionNamed(e.action).value.IsBusiness()
               then [ActionNamed(e.action).value] else [])
  {
    hide ActionNamed;
    assert (trail + [e])[..|trail|] == trail;
  }

  ghost predicate ProvenanceHolds(t: Tables, a: string) {
    Healthy(t, a) && LeadsTo(LoggedBusiness(TrailOf(t.events, a)), Effective(FetchAsset(t, a).value))
  }

  lemma MoveLeadsToTransferred(actions: seq<AssetAction>, from: AssetState)
    requires LeadsTo(actions, from) && (from == LegallySold || from == Transferred)
    ensures LeadsTo(actions + [Transfer], Transferred)
  {
    LeadsToAfterBusiness(actions, from, Transfer, Transferred);
  }

  lemma StepKeepsProvenance(t: Tables, e: Event, a: string)
    requires ProvenanceHolds(t, a) && Audited(e) && Unset(e)
    ensures ProvenanceHolds(Next(t, e), a)
  {
    hide Next, EffectOf, FetchAsset, TrailOf, LoggedBusiness, LeadsTo, Printed, TransferEvent, Consent, ApplyAction,
         CallOf, FromDbStr, ActionNamed;
    var trail, record := TrailOf(t.events, a), FetchAsset(t, a).value;
    StepKeepsHealthy(t, e, a);
    TrailGrows(t, e, a);
    if !Touches(EffectOf(t, e), a) {
      UntouchedReadsSame(t, e, a);
      assert trail + [] == trail;
    } else if EffectOf(t, e).Performed? {
      var attempt := AttemptOf(EffectOf(t, e).call, e.eventId);
      PerformedOnStored(t, e);
      PerformedReadsBack(t, e);
      LoggedAppend(trail, Printed(EffectOf(t, e).step.event));
      ReplayAccepted(record, attempt);
      LeadsToStep(LoggedBusiness(trail), record, attempt);
    } else {
      var r, h := EffectOf(t, e).move, EffectOf(t, e).handover;
      Movement(t, e);
      HandedTexts(t, e);
      MovedReadsBack(t, e);
      LoggedAppend(trail, TransferEvent(r, h.from, e.eventId));
      ReplayMoved(record, r, e.eventId);
      MoveLeadsToTransferred(LoggedBusiness(trail), record.current);
    }
  }

  // ---- Who wrote what ----

  predicate ByRole(row: EventRow, role: string) {
    row.actorRole == role || (row.actorRole == "Platform" && row.approvalId.Some?)
  }

  /** A business event other than a transfer was caused by the role the action belongs to, or by the platform under an
      approval; moderation by a moderator or the platform. */
  predicate EventAuthorised(row: EventRow) {
    || row.action == "Transfer"
    || (row.action in ["BlindLog", "StockIn"] && ByRole(row, "Factory"))
    || (row.action in ["ActivateRotateKeys", "ActivateEntangle", "ActivateConfirm", "LegalSell"] && ByRole(row, "Brand"))
    || (row.action in ["Consume", "Legacy"] && ByRole(row, "Consumer"))
    || (row.action in ["Freeze", "Recover", "MarkTampered", "MarkCompromised", "MarkDestructed"]
        && (row.actorRole == "Moderator" || row.actorRole == "Platform"))
  }

  predicate LogAuthorised(events: seq<EventRow>) {
    forall k :: 0 <= k < |events| ==> EventAuthorised(events[k])
  }

  lemma AcceptedIsAuthorised(record: AssetRecord, a: Attempt)
    requires Try(record, a).Ok? && a.action.IsBusiness()
    ensures Authorised(a.action, a.context)
  {
    hide ApplyAction;
    BusinessIffAdmissible(record, a);
  }

  lemma AcceptedIsModerated(record: AssetRecord, a: Attempt)
    requires Try(record, a).Ok? && !a.action.IsBusiness()
    ensures Moderates(a.context.role)
  {
  }

  lemma PrintedIsAuthorised(record: AssetRecord, a: Attempt)
    requires Try(record, a).Ok?
    ensures EventAuthorised(Printed(Try(record, a).value.event))
  {
    hide ApplyAction, AssetState.AsDbStr;
    AcceptedEvent(record, a);
    if a.action.IsBusiness() {
      AcceptedIsAuthorised(record, a);
    } else {
      AcceptedIsModerated(record, a);
    }
  }

  lemma TransferEventIsAuthorised(r: TransferRequest, from: AssetState, eventId: string)
    ensures EventAuthorised(TransferEvent(r, from, eventId))
  {
    hide AssetState.AsDbStr, ActorRole.AsDbStr;
  }

  lemma StepKeepsLogAuthorised(t: Tables, e: Event)
    requires LogAuthorised(t.events)
    ensures LogAuthorised(Next(t, e).events)
  {
    hide Next, EffectOf, FetchAsset, Consent, ApplyAction, CallOf, Printed, TransferEvent, EventAuthorised, OwnerAfter;
    match EffectOf(t, e)
    case Performed(c, step) =>
      Performance(t, e);
      PrintedIsAuthorised(Presented(c, FetchAsset(t, c.assetId).value), AttemptOf(c, e.eventId));
    case Handed(r, h) =>
      Movement(t, e);
      TransferEventIsAuthorised(r, h.from, e.eventId);
    case Nothing =>
      NothingElseChanges(t, e);
  }

  /** Whatever arrives and whatever fails, every event in the log but a transfer names somebody entitled to it. The transfer
      handler checks ownership instead (`LedgerRuns.ConsentIff`, `LedgerRuns.TransferIgnoresRole`). */
  lemma {:induction false} LogAlwaysAuthorised(t: Tables, events: seq<Event>)
    requires Fresh(t)
    ensures LogAuthorised(Run(t, events).events)
  {
    hide Next, EventAuthorised;
    if events != [] {
      LogAlwaysAuthorised(t, events[..|events| - 1]);
      StepKeepsLogAuthorised(Run(t, events[..|events| - 1]), events[|events| - 1]);
    }
  }

  lemma FreshProvenance(t: Tables, a: string)
    requires Fresh(t) && a in t.assets
    ensures ProvenanceHolds(t, a)
  {
    FreshReads(t, a);
    NothingLeadsToPreMinted();
  }

  /** At every moment the business actions in an asset's log are exactly ones that lead to the state its row is in. */
  lemma {:induction false} ProvenanceAlways(t: Tables, events: seq<Event>, a: string)
    requires Fresh(t) && AllAudited(events) && AllUnset(events) && a in t.assets
    ensures ProvenanceHolds(Run(t, events), a)
  {
    hide Fresh, ProvenanceHolds, Next, Audited, Unset;
    if events == [] {
      FreshProvenance(t, a);
    } else {
      ProvenanceAlways(t, events[..|events| - 1], a);
      StepKeepsProvenance(Run(t, events[..|events| - 1]), events[|events| - 1], a);
    }
  }

  /** An asset whose row says LegallySold has the six steps of the chain in its log, in order, and no other business. */
  lemma SoldRowHasItsHistory(t: Tables, events: seq<Event>, a: string)
    requires Fresh(t) && AllAudited(events) && AllUnset(events) && a in t.assets
    requires FetchAsset(Run(t, events), a).Ok? && FetchAsset(Run(t, events), a).value.current == LegallySold
    ensures LoggedBusiness(TrailOf(Run(t, events).events, a)) == CHAIN
  {
    hide Run, FetchAsset, Fresh, AllUnset, AllAudited;
    ProvenanceAlways(t, events, a);
    assert CHAIN[..6] == CHAIN;
  }
}
