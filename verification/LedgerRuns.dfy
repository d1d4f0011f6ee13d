/** Runs of the protocol and transfer handlers, one request after the other, with any database failures. */
module LedgerRuns {
  import opened Wrappers
  import opened AssetTypes
  import opened Protocol
  import opened Lifecycle
  import opened Ledger

  datatype Request =
    | Act(act: ActionRequest, action: AssetAction)
    | Activate(activation: ActivateRequest, preparation: Preparation)
    | Entangle(act: ActionRequest, preparation: Preparation)
    | Move(move: TransferRequest)
    | Settle(settle: SettleRequest)

  datatype Event = Event(request: Request, eventId: string, fault: Fault)

  /** The protocol call a request makes, if it is routed and gets past its handler's own checks. */
  function CallOf(q: Request): Option<Call> {
    match q
    case Act(r, action) =>
      if Routed(action) && ActionCall(r, action).Ok? then Some(ActionCall(r, action).value) else None
    case Activate(r, p) => if ActivateCall(r, p).Ok? then Some(ActivateCall(r, p).value) else None
    case Entangle(r, p) => Some(EntangleCall(r, p))
    case Move(_) => None
    case Settle(_) => None
  }

  function Next(t: Tables, e: Event): Tables {
    match CallOf(e.request)
    case Some(c) => Handled(t, c, e.eventId, e.fault).tables
    case None =>
      match e.request
      case Move(r) => Moved(t, r, e.eventId, e.fault).tables
      case Settle(r) => Settled(t, r, e.fault).tables
      case _ => t
  }

  function Run(t: Tables, events: seq<Event>): Tables {
    if events == [] then t else Next(Run(t, events[..|events| - 1]), events[|events| - 1])
  }

  /** No recovery carries a saved state of its own; other actions do not read one. */
  predicate Unset(e: Event) {
    CallOf(e.request).Some? && CallOf(e.request).value.action == Recover ==> CallOf(e.request).value.previous.None?
  }

  predicate AllUnset(events: seq<Event>) {
    forall k :: 0 <= k < |events| ==> Unset(events[k])
  }

  // ---- What one request can do ----

  /** A decided action whose transaction commits, an allowed transfer that reaches the asset row, or neither. */
  datatype Effect = Performed(call: Call, step: Step) | Handed(move: TransferRequest, handover: Handover) | Nothing

  function EffectOf(t: Tables, e: Event): Effect {
    match CallOf(e.request)
    case Some(c) =>
      var decision := Decide(t, c, e.eventId);
      if (e.fault == NoFault || e.fault == Unacknowledged) && decision.Perform? then Performed(c, decision.step)
      else Nothing
    case None =>
      if e.request.Move? && e.fault != ReadFails && e.fault != Refused && Consent(t, e.request.move).Ok?
      then Handed(e.request.move, Consent(t, e.request.move).value)
      else Nothing
  }

  predicate Touches(f: Effect, a: string) {
    match f
    case Performed(c, _) => c.assetId == a
    case Handed(r, _) => r.assetId == a
    case Nothing => false
  }

  function AttemptOf(c: Call, eventId: string): Attempt {
    Attempt(c.action, ContextOf(c), eventId)
  }

  lemma NothingElseChanges(t: Tables, e: Event)
    requires EffectOf(t, e).Nothing?
    ensures Next(t, e) == t.(transfers := Next(t, e).transfers)
  {
    hide Decide, Consent, Written;
  }

  lemma DecidedStep(t: Tables, c: Call, eventId: string)
    requires Decide(t, c, eventId).Perform?
    ensures var step := Decide(t, c, eventId).step;
            && c.headers.key !in t.records
            && FetchAsset(t, c.assetId).Ok? && c.assetId in t.assets
            && Try(Presented(c, FetchAsset(t, c.assetId).value), AttemptOf(c, eventId)) == Ok(step)
            && step.record.assetId == c.assetId
            && (c.action == LegalSell ==> c.buyerId.Some?)
  {
    hide ApplyAction;
    StepNamesItsAsset(Presented(c, FetchAsset(t, c.assetId).value), c.action, ContextOf(c), eventId);
  }

  /** What an accepted protocol request presented, decided and wrote. */
  lemma Performance(t: Tables, e: Event)
    requires EffectOf(t, e).Performed?
    ensures var c, step := EffectOf(t, e).call, EffectOf(t, e).step;
            && CallOf(e.request) == Some(c) && c.action != Transfer
            && c.headers.key !in t.records
            && FetchAsset(t, c.assetId).Ok? && c.assetId in t.assets
            && Try(Presented(c, FetchAsset(t, c.assetId).value), AttemptOf(c, e.eventId)) == Ok(step)
            && step.record.assetId == c.assetId
            && (c.action == LegalSell ==> c.buyerId.Some?)
            && Next(t, e) == Written(t, step, c.requestHash, SnapshotOf(c, step))
  {
    hide ApplyAction, Decide, FetchAsset, Written, SnapshotOf, BuildRequestHash, ActivateRequestHash;
    DecidedStep(t, EffectOf(t, e).call, e.eventId);
  }

  lemma OnlyRecoverIsPresented(c: Call, stored: AssetRecord, eventId: string)
    requires c.action == Recover ==> c.previous.None?
    ensures Try(Presented(c, stored), AttemptOf(c, eventId)) == Try(stored, AttemptOf(c, eventId))
  {
  }

  /** Without such a recovery, every action is decided on the stored record. */
  lemma PerformedOnStored(t: Tables, e: Event)
    requires EffectOf(t, e).Performed? && Unset(e)
    ensures var c := EffectOf(t, e).call;
            && FetchAsset(t, c.assetId).Ok?
            && Try(FetchAsset(t, c.assetId).value, AttemptOf(c, e.eventId)) == Ok(EffectOf(t, e).step)
  {
    hide Next, EffectOf, CallOf, FetchAsset, ApplyAction, Presented;
    Performance(t, e);
    OnlyRecoverIsPresented(EffectOf(t, e).call, FetchAsset(t, EffectOf(t, e).call.assetId).value, e.eventId);
  }

  lemma Movement(t: Tables, e: Event)
    requires EffectOf(t, e).Handed?
    ensures var r, h := EffectOf(t, e).move, EffectOf(t, e).handover;
            && e.request == Move(r) && Consent(t, r) == Ok(h)
            && r.assetId in t.assets && FetchAsset(t, r.assetId).Ok?
            && h.from == FetchAsset(t, r.assetId).value.current && (h.from == LegallySold || h.from == Transferred)
            && t.assets[r.assetId].owner == Some(h.owner) && r.actor.id == h.owner
            && Next(t, e).assets == RowMoved(t, r, h.from).assets
            && Next(t, e).records == t.records
            && Next(t, e).transfers
               == t.transfers + (if e.fault == Unacknowledged || e.fault == RecordRefused then []
                                 else [TransferOf(r, h.owner)])
            && Next(t, e).events
               == t.events + (if e.fault == NoFault then [TransferEvent(r, h.from, e.eventId)] else [])
  {
    hide FromDbStr, TransferEvent;
  }

  // ---- Reading back what was written ----

  lemma FetchAfterWritten(t: Tables, step: Step, hash: string, snapshot: Snapshot)
    requires step.record.assetId in t.assets && t.assets[step.record.assetId].brandId == step.record.brandId
    ensures var after := Written(t, step, hash, snapshot);
            && after.assets.Keys == t.assets.Keys
            && FetchAsset(after, step.record.assetId) == Ok(step.record)
            && forall a :: a != step.record.assetId ==> FetchAsset(after, a) == FetchAsset(t, a)
  {
    hide FromDbStr, AssetState.AsDbStr;
    DbStrParsesBack(step.record.current);
    if step.record.previous.Some? {
      DbStrParsesBack(step.record.previous.value);
    }
  }

  lemma FetchAfterMove(t: Tables, r: TransferRequest, from: AssetState)
    requires r.assetId in t.assets
    ensures var after := RowMoved(t, r, from);
            && after.assets.Keys == t.assets.Keys
            && FetchAsset(after, r.assetId)
               == Ok(AssetRecord(r.assetId, t.assets[r.assetId].brandId, Transferred, Some(from)))
            && forall a :: a != r.assetId ==> FetchAsset(after, a) == FetchAsset(t, a)
  {
    hide FromDbStr, AssetState.AsDbStr;
    DbStrParsesBack(Transferred);
    DbStrParsesBack(from);
  }

  lemma FetchedNames(t: Tables, a: string)
    requires FetchAsset(t, a).Ok?
    ensures var r := FetchAsset(t, a).value;
            && a in t.assets && r.assetId == a && r.brandId == t.assets[a].brandId
            && r.current.AsDbStr() == t.assets[a].currentState
            && PrintedPrevious(r) == t.assets[a].previousState
  {
    hide FromDbStr, AssetState.AsDbStr;
  }

  lemma UntouchedReadsSame(t: Tables, e: Event, a: string)
    requires !Touches(EffectOf(t, e), a)
    ensures FetchAsset(Next(t, e), a) == FetchAsset(t, a)
    ensures a in Next(t, e).assets <==> a in t.assets
    ensures a in t.assets ==> Next(t, e).assets[a] == t.assets[a]
  {
    hide Next, EffectOf, Consent, ApplyAction, CallOf;
    match EffectOf(t, e)
    case Performed(_, _) => Performance(t, e);
    case Handed(_, _) => Movement(t, e);
    case Nothing => NothingElseChanges(t, e);
  }

  lemma StepNamesItsBrand(record: AssetRecord, a: Attempt)
    requires Try(record, a).Ok?
    ensures Try(record, a).value.record.brandId == record.brandId
  {
  }

  lemma PerformedReadsBack(t: Tables, e: Event)
    requires EffectOf(t, e).Performed?
    ensures FetchAsset(Next(t, e), EffectOf(t, e).call.assetId) == Ok(EffectOf(t, e).step.record)
    ensures EffectOf(t, e).call.assetId in Next(t, e).assets
  {
    hide Next, EffectOf, ApplyAction, FetchAsset, Written, CallOf;
    Performance(t, e);
    var c, step := EffectOf(t, e).call, EffectOf(t, e).step;
    StepNamesItsBrand(Presented(c, FetchAsset(t, c.assetId).value), AttemptOf(c, e.eventId));
    FetchedNames(t, c.assetId);
    FetchAfterWritten(t, step, c.requestHash, SnapshotOf(c, step));
  }

  lemma MovedReadsBack(t: Tables, e: Event)
    requires EffectOf(t, e).Handed?
    ensures var a := EffectOf(t, e).move.assetId;
            && a in Next(t, e).assets && FetchAsset(t, a).Ok?
            && FetchAsset(Next(t, e), a)
               == Ok(FetchAsset(t, a).value.(current := Transferred, previous := Some(FetchAsset(t, a).value.current)))
  {
    hide Next, EffectOf, AssetState.AsDbStr, FromDbStr;
    Movement(t, e);
    var r := EffectOf(t, e).move;
    FetchAfterMove(t, r, EffectOf(t, e).handover.from);
    FetchedNames(t, r.assetId);
  }

  // ---- Rows stay readable and disputes stay recoverable ----

  predicate Healthy(t: Tables, a: string) {
    && a in t.assets && FetchAsset(t, a).Ok?
    && var r := FetchAsset(t, a).value;
    && Sound(r)
    && (r.previous.Some? ==> r.current == Disputed || r.current == Transferred)
  }

  ghost predicate AllHealthy(t: Tables) {
    forall a :: a in t.assets ==> Healthy(t, a)
  }

  lemma NextIsSound(record: AssetRecord, a: Attempt)
    requires Try(record, a).Ok?
    ensures var next := Try(record, a).value.record;
            Sound(next) && (next.previous.Some? ==> next.current == Disputed)
  {
  }

  lemma StepKeepsHealthy(t: Tables, e: Event, a: string)
    requires Healthy(t, a)
    ensures Healthy(Next(t, e), a)
  {
    hide Next, EffectOf, FetchAsset, ApplyAction, CallOf, Consent;
    if !Touches(EffectOf(t, e), a) {
      UntouchedReadsSame(t, e, a);
    } else if EffectOf(t, e).Performed? {
      Performance(t, e);
      PerformedReadsBack(t, e);
      NextIsSound(Presented(EffectOf(t, e).call, FetchAsset(t, a).value), AttemptOf(EffectOf(t, e).call, e.eventId));
    } else {
      MovedReadsBack(t, e);
    }
  }

  lemma SameAssets(t: Tables, e: Event, a: string)
    ensures a in Next(t, e).assets <==> a in t.assets
  {
    hide Next, EffectOf, FetchAsset, ApplyAction, CallOf, Consent;
    if !Touches(EffectOf(t, e), a) {
      UntouchedReadsSame(t, e, a);
    } else if EffectOf(t, e).Performed? {
      Performance(t, e);
      PerformedReadsBack(t, e);
    } else {
      Movement(t, e);
      MovedReadsBack(t, e);
    }
  }

  /** Disputes are never stuck: whatever requests arrive and whatever fails, every row reads back as a record, and a
      disputed one remembers a live state. */
  lemma {:induction false} AlwaysHealthy(t: Tables, events: seq<Event>)
    requires AllHealthy(t)
    ensures AllHealthy(Run(t, events))
  {
    hide Healthy, Next;
    if events != [] {
      var before, e := Run(t, events[..|events| - 1]), events[|events| - 1];
      AlwaysHealthy(t, events[..|events| - 1]);
      forall a | a in Run(t, events).assets
        ensures Healthy(Run(t, events), a)
      {
        SameAssets(before, e, a);
        StepKeepsHealthy(before, e, a);
      }
    }
  }

  // ---- Who has an owner ----

  /** Before the sale nobody owns the asset, from the sale on somebody does, and after consumption nobody. */
  predicate OwnerFits(s: AssetState, owner: Option<string>) {
    if s.IsLive() then owner.Some? <==> Rank(s) >= Rank(LegallySold)
    else (s == Consumed || s == AssetState.Legacy) ==> owner.None?
  }

  predicate Owned(t: Tables, a: string) {
    Healthy(t, a) && OwnerFits(Effective(FetchAsset(t, a).value), t.assets[a].owner)
  }

  ghost predicate AllOwned(t: Tables) {
    forall a :: a in t.assets ==> Owned(t, a)
  }

  lemma PerformedOwner(t: Tables, e: Event)
    requires EffectOf(t, e).Performed?
    ensures var a := EffectOf(t, e).call.assetId;
            && a in t.assets && a in Next(t, e).assets
            && Next(t, e).assets[a].owner == OwnerAfter(t.assets[a].owner, EffectOf(t, e).step.event)
  {
    hide Next, EffectOf, ApplyAction, FetchAsset, CallOf, OwnerAfter;
    Performance(t, e);
  }

  lemma AcceptedKeepsOwnerFit(record: AssetRecord, a: Attempt, owner: Option<string>)
    requires Sound(record) && Try(record, a).Ok? && a.action != Transfer
    requires OwnerFits(Effective(record), owner)
    ensures OwnerFits(Effective(Try(record, a).value.record), OwnerAfter(owner, Try(record, a).value.event))
  {
    AcceptedEvent(record, a);
  }

  lemma MovedRowFits(owner: string)
    ensures OwnerFits(Transferred, Some(owner))
  {
  }

  lemma StepKeepsOwned(t: Tables, e: Event, a: string)
    requires Owned(t, a) && Unset(e)
    ensures Owned(Next(t, e), a)
  {
    hide Next, EffectOf, FetchAsset, ApplyAction, CallOf, OwnerFits, Consent, OwnerAfter;
    StepKeepsHealthy(t, e, a);
    if !Touches(EffectOf(t, e), a) {
      UntouchedReadsSame(t, e, a);
    } else if EffectOf(t, e).Performed? {
      Performance(t, e);
      PerformedOnStored(t, e);
      PerformedReadsBack(t, e);
      PerformedOwner(t, e);
      AcceptedKeepsOwnerFit(FetchAsset(t, a).value, AttemptOf(EffectOf(t, e).call, e.eventId), t.assets[a].owner);
    } else {
      MovedReadsBack(t, e);
      Movement(t, e);
      MovedRowFits(EffectOf(t, e).move.newOwner);
    }
  }

  /** Whatever fails, as long as no request carries its own saved state, owners fit the effective states. */
  lemma {:induction false} AlwaysOwned(t: Tables, events: seq<Event>)
    requires AllOwned(t) && AllUnset(events)
    ensures AllOwned(Run(t, events))
  {
    hide Owned, Next, Unset;
    if events != [] {
      var before, e := Run(t, events[..|events| - 1]), events[|events| - 1];
      AlwaysOwned(t, events[..|events| - 1]);
      forall a | a in Run(t, events).assets
        ensures Owned(Run(t, events), a)
      {
        SameAssets(before, e, a);
        StepKeepsOwned(before, e, a);
      }
    }
  }

  /** Freshly minted rows and empty logs. */
  ghost predicate Fresh(t: Tables) {
    && (forall a :: a in t.assets ==>
          var row := t.assets[a];
          row.currentState == PreMinted.AsDbStr() && row.previousState.None? && row.owner.None?)
    && t.events == [] && t.records == map[] && t.transfers == []
  }

  function Minted(t: Tables, a: string): AssetRecord
    requires a in t.assets
  {
    AssetRecord(a, t.assets[a].brandId, PreMinted, None)
  }

  lemma FreshReads(t: Tables, a: string)
    requires Fresh(t) && a in t.assets
    ensures FetchAsset(t, a) == Ok(Minted(t, a)) && Owned(t, a)
  {
    hide FromDbStr;
    DbStrParsesBack(PreMinted);
  }

  lemma OwnerInvariant(t: Tables, events: seq<Event>, a: string)
    requires Fresh(t) && AllUnset(events) && a in Run(t, events).assets
    ensures Owned(Run(t, events), a)
  {
    hide Owned, Fresh;
    forall b | b in t.assets ensures Owned(t, b) { FreshReads(t, b); }
    AlwaysOwned(t, events);
  }

  /** A recovery that brings its own saved state keeps the owner rule exactly when that state lies on the same side of
      the sale as the one the dispute interrupted. */
  lemma OverriddenRecovery(t: Tables, e: Event)
    requires EffectOf(t, e).Performed? && EffectOf(t, e).call.action == Recover
    requires EffectOf(t, e).call.previous.Some? && Owned(t, EffectOf(t, e).call.assetId)
    ensures var c := EffectOf(t, e).call;
            var interrupted := Effective(FetchAsset(t, c.assetId).value);
            Owned(Next(t, e), c.assetId)
            <==> (Rank(c.previous.value) >= Rank(LegallySold) <==> Rank(interrupted) >= Rank(LegallySold))
  {
    hide Next, EffectOf, FetchAsset, CallOf, ApplyAction;
    var c := EffectOf(t, e).call;
    Performance(t, e);
    PerformedReadsBack(t, e);
    PerformedOwner(t, e);
    StepKeepsHealthy(t, e, c.assetId);
    RecoveredTo(Presented(c, FetchAsset(t, c.assetId).value), AttemptOf(c, e.eventId));
  }

  lemma RecoveredTo(record: AssetRecord, a: Attempt)
    requires a.action == Recover && Try(record, a).Ok?
    ensures record.current == Disputed && record.previous.Some? && record.previous.value.IsLive()
    ensures Try(record, a).value.record == record.(current := record.previous.value, previous := None)
    ensures Try(record, a).value.event.action == Recover
  {
  }

  // ---- What a request must and must not do ----

  lemma BoundIff(q: Request)
    requires CallOf(q).Some?
    ensures CallOf(q).value.brandBound
       <==> CallOf(q).value.action == ActivateRotateKeys || CallOf(q).value.action == ActivateEntangle
  {
    hide BuildRequestHash, ActivateRequestHash;
  }

  /** With a new key, a readable row, no saved state brought to a recovery, its preparation made and no failure, a request is
      performed exactly when it is within its brand, where that is asked, and the lifecycle admits it. */
  lemma PerformedIffAdmissible(t: Tables, e: Event, c: Call)
    requires CallOf(e.request) == Some(c) && e.fault == NoFault && c.headers.key !in t.records
    requires (c.action == Recover ==> c.previous.None?) && !c.preparation.PreparationFails? && Healthy(t, c.assetId)
    ensures EffectOf(t, e).Performed?
       <==> && ((c.action == ActivateRotateKeys || c.action == ActivateEntangle)
                && (c.actor.role == Brand || c.actor.role == Factory) ==>
                  c.actor.brandId == Some(t.assets[c.assetId].brandId))
            && Admissible(FetchAsset(t, c.assetId).value, c.action, ContextOf(c))
  {
    hide ApplyAction, FetchAsset, Admissible, CallOf, Presented;
    BoundIff(e.request);
    FetchedNames(t, c.assetId);
    OnlyRecoverIsPresented(c, FetchAsset(t, c.assetId).value, e.eventId);
    AcceptedIffAdmissible(FetchAsset(t, c.assetId).value, AttemptOf(c, e.eventId));
  }

  /** Activation stays within the brand: a brand or a factory can only activate assets of its own. */
  lemma ActivationStaysWithinBrand(t: Tables, e: Event)
    requires EffectOf(t, e).Performed?
    requires EffectOf(t, e).call.action == ActivateRotateKeys || EffectOf(t, e).call.action == ActivateEntangle
    requires EffectOf(t, e).call.actor.role == Brand || EffectOf(t, e).call.actor.role == Factory
    ensures var c := EffectOf(t, e).call;
            c.assetId in t.assets && c.actor.brandId == Some(t.assets[c.assetId].brandId)
  {
    hide ApplyAction, FromDbStr, AssetState.AsDbStr, BuildRequestHash, ActivateRequestHash;
    var c := EffectOf(t, e).call;
    BoundIff(e.request);
    DecidedStep(t, c, e.eventId);
    FetchedNames(t, c.assetId);
  }

  /** A refused request changes nothing; only an error on an acknowledgement that was lost can hide a change. */
  lemma RefusalsChangeNothing(t: Tables, c: Call, eventId: string, fault: Fault)
    requires Handled(t, c, eventId, fault).reply.Err? && fault != Unacknowledged
    ensures Handled(t, c, eventId, fault).tables == t
  {
    hide Decide, Written;
  }

  /** An activation whose preparation fails is never persisted. */
  lemma NothingWithoutPreparation(t: Tables, c: Call, eventId: string, fault: Fault)
    requires c.preparation.PreparationFails?
    ensures Handled(t, c, eventId, fault).tables == t
  {
    hide ApplyAction, FetchAsset;
  }

  /** Retrying is safe. After an error a request can be repeated under its key, prepared anew: either nothing was changed
      and it fares as it would have the first time, or it had been committed unheard, and it is answered with what was
      recorded then, a second event being out of the question. */
  lemma RetryAfterError(t: Tables, c: Call, eventId: string, fault: Fault, preparation: Preparation, newId: string)
    requires Handled(t, c, eventId, fault).reply.Err?
    ensures var after, again := Handled(t, c, eventId, fault).tables, c.(preparation := preparation);
            if fault == Unacknowledged && Decide(t, c, eventId).Perform? then
              Handled(after, again, newId, NoFault)
              == Outcome(after, Ok(SnapshotOf(c, Decide(t, c, eventId).step)))
            else
              after == t
  {
    hide ApplyAction, FetchAsset, SnapshotOf, Printed, OwnerAfter;
    if c.preparation.PreparationFails? {
      NothingWithoutPreparation(t, c, eventId, fault);
    } else if fault != Unacknowledged {
      RefusalsChangeNothing(t, c, eventId, fault);
    } else if Decide(t, c, eventId).Perform? {
      DecidedStep(t, c, eventId);
      StepKeepsContext(t, c, eventId);
    }
  }

  lemma StepKeepsContext(t: Tables, c: Call, eventId: string)
    requires Decide(t, c, eventId).Perform?
    ensures Decide(t, c, eventId).step.event.context == ContextOf(c)
  {
    hide ApplyAction, FetchAsset;
    StepNamesItsAsset(Presented(c, FetchAsset(t, c.assetId).value), c.action, ContextOf(c), eventId);
  }

  /** A transfer is allowed exactly for the owner of a sold or transferred asset, with a genuine tag and an authorized
      proof. */
  lemma ConsentIff(t: Tables, r: TransferRequest)
    ensures Consent(t, r).Ok?
       <==> && FetchAsset(t, r.assetId).Ok?
            && (FetchAsset(t, r.assetId).value.current == LegallySold
                || FetchAsset(t, r.assetId).value.current == Transferred)
            && t.assets[r.assetId].owner == Some(r.actor.id)
            && r.childTag.None? && r.authority == Ok(true)
  {
    hide FromDbStr;
  }

  /** Transfers do not use their idempotency key, but after one succeeds its sender is refused whatever is presented, unless
      the asset was handed to the sender itself: then a fresh tag and a fresh authority verdict decide again. The verdict
      on a physical proof is not fresh if its counter was used (`AuthorityRuns.CounterAuthorizesOnce`). */
  lemma RepeatedTransfer(t: Tables, r: TransferRequest, eventId: string, again: TransferRequest)
    requires Consent(t, r).Ok? && again.assetId == r.assetId && again.actor.id == r.actor.id
    ensures var after := Moved(t, r, eventId, NoFault).tables;
            if r.newOwner != r.actor.id then Consent(after, again) == Err(Forbidden)
            else Consent(after, again).Ok? <==> again.childTag.None? && again.authority == Ok(true)
  {
    hide FetchAsset, TransferOf, TransferEvent;
    var h := Consent(t, r).value;
    var after := Moved(t, r, eventId, NoFault).tables;
    ConsentNamesRow(t, r);
    FetchAfterMove(t, r, h.from);
    SameAssetsSameReading(after, RowMoved(t, r, h.from), r.assetId);
    if r.newOwner == r.actor.id {
      hide Consent;
      ConsentIff(after, again);
    }
  }

  /** The transfer handler asks who owns the asset, and no role. */
  lemma TransferIgnoresRole(t: Tables, r: TransferRequest, role: ActorRole)
    ensures Consent(t, r.(actor := r.actor.(role := role))).Ok? <==> Consent(t, r).Ok?
  {
    hide Consent;
    ConsentIff(t, r);
    ConsentIff(t, r.(actor := r.actor.(role := role)));
  }

  lemma ConsentNamesRow(t: Tables, r: TransferRequest)
    requires Consent(t, r).Ok?
    ensures r.assetId in t.assets
  {
    hide FromDbStr;
  }

  lemma SameAssetsSameReading(t: Tables, u: Tables, a: string)
    requires t.assets == u.assets
    ensures FetchAsset(t, a) == FetchAsset(u, a)
  {
    hide FromDbStr;
  }

  // ---- Freezing and recovering ----

  lemma {:induction false} UntouchedThroughout(t: Tables, events: seq<Event>, a: string)
    requires forall k :: 0 <= k < |events| ==> !Touches(EffectOf(Run(t, events[..k]), events[k]), a)
    ensures FetchAsset(Run(t, events), a) == FetchAsset(t, a)
    ensures a in Run(t, events).assets <==> a in t.assets
    ensures a in t.assets ==> Run(t, events).assets[a] == t.assets[a]
  {
    hide Next, EffectOf, Touches, FetchAsset;
    if events != [] {
      var n := |events| - 1;
      forall k | 0 <= k < n
        ensures !Touches(EffectOf(Run(t, events[..n][..k]), events[..n][k]), a)
      {
        assert events[..n][..k] == events[..k];
      }
      UntouchedThroughout(t, events[..n], a);
      UntouchedReadsSame(Run(t, events[..n]), events[n], a);
    }
  }

  lemma RecoveryIsPlain(q: Request)
    requires CallOf(q).Some? && CallOf(q).value.action == Recover
    ensures !CallOf(q).value.brandBound && CallOf(q).value.preparation == NotNeeded
  {
  }

  lemma FrozenRecord(record: AssetRecord, a: Attempt)
    requires a.action == Freeze && Try(record, a).Ok?
    ensures Try(record, a).value.record == record.(current := Disputed, previous := Some(record.current))
    ensures record.current.IsLive() && Try(record, a).value.event.action == Freeze
  {
  }

  /** A new recovery by a moderator or the platform, without a saved state of its own, of a disputed asset. */
  predicate Recovers(t: Tables, e: Event, a: string) {
    && CallOf(e.request).Some? && e.fault == NoFault
    && var c := CallOf(e.request).value;
    c.assetId == a && c.action == Recover && c.previous.None? && Moderates(c.actor.role) && c.headers.key !in t.records
  }

  /** In the database: an asset is frozen, any requests that do not touch it follow, and a recovery gives back its state and
      its owner. */
  lemma FreezeThenRecover(t: Tables, freeze: Event, between: seq<Event>, recover: Event, a: string)
    requires Healthy(t, a) && EffectOf(t, freeze).Performed?
    requires EffectOf(t, freeze).call.assetId == a && EffectOf(t, freeze).call.action == Freeze
    requires var frozen := Next(t, freeze);
             forall k :: 0 <= k < |between| ==> !Touches(EffectOf(Run(frozen, between[..k]), between[k]), a)
    requires Recovers(Run(Next(t, freeze), between), recover, a)
    ensures var last := Next(Run(Next(t, freeze), between), recover);
            && FetchAsset(last, a) == Ok(FetchAsset(t, a).value.(previous := None))
            && a in t.assets && a in last.assets && last.assets[a].owner == t.assets[a].owner
  {
    hide Next, Run, EffectOf, FetchAsset, ApplyAction, CallOf, Consent, Written, WithinBrand, PrintedPrevious,
         AssetState.AsDbStr;
    var record, frozen := FetchAsset(t, a).value, Next(t, freeze);
    Performance(t, freeze);
    PerformedReadsBack(t, freeze);
    PerformedOwner(t, freeze);
    FrozenRecord(Presented(EffectOf(t, freeze).call, record), AttemptOf(EffectOf(t, freeze).call, freeze.eventId));
    UntouchedThroughout(frozen, between, a);
    var waiting, c := Run(frozen, between), CallOf(recover.request).value;
    RecoveryIsPlain(recover.request);
    FetchedNames(waiting, a);
    PerformedIffAdmissible(waiting, recover, c);
    PerformedCallIs(waiting, recover);
    Performance(waiting, recover);
    PerformedReadsBack(waiting, recover);
    PerformedOwner(waiting, recover);
    RecoveredTo(FetchAsset(waiting, a).value, AttemptOf(c, recover.eventId));
  }

  lemma PerformedCallIs(t: Tables, e: Event)
    requires EffectOf(t, e).Performed?
    ensures CallOf(e.request) == Some(EffectOf(t, e).call)
  {
    hide Decide, CallOf;
  }
}
