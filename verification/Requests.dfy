/** From a request to the tables and back: what its handler passes on, what it is told, and what is written for it. */
module Requests {
  import opened Wrappers
  import opened AssetTypes
  import opened Protocol
  import opened Lifecycle
  import opened Ledger
  import opened LedgerRuns
  import opened Ownership
  import opened AuditTrail

  // ---- What a handler passes on ----

  /** Exactly these get no further than their handler: a sale without a buyer or with an empty one, an activation without a
      product, the three actions the common handler is not routed, and the requests about transfers. */
  lemma PassedOnIff(q: LedgerRuns.Request)
    ensures CallOf(q).None? <==>
      match q
      case Act(r, action) =>
        || action == Transfer || action == ActivateRotateKeys || action == ActivateEntangle
        || (action == LegalSell && (r.buyerId.None? || r.buyerId == Some("")))
      case Activate(r, _) => r.productId == ""
      case Entangle(_, _) => false
      case Move(_) => true
      case Settle(_) => true
  {
    hide BuildRequestHash, ActivateRequestHash;
  }

  /** What is not passed on is told so as invalid input, before anything is read. */
  lemma RefusedAtTheDoor(r: ActionRequest, action: AssetAction, activation: ActivateRequest, preparation: Preparation)
    ensures ActionCall(r, action).Err? <==> action == LegalSell && (r.buyerId.None? || r.buyerId == Some(""))
    ensures ActionCall(r, action).Err? ==> ActionCall(r, action).error == InvalidInput
    ensures ActivateCall(activation, preparation).Err? <==> activation.productId == ""
    ensures ActivateCall(activation, preparation).Err? ==> ActivateCall(activation, preparation).error == InvalidInput
  {
    hide BuildRequestHash, ActivateRequestHash;
  }

  /** A call carries its own request's asset, actor, headers, saved state and buyer, and is bound to the brand exactly for
      the first two activation steps. */
  lemma CallCarriesRequest(q: LedgerRuns.Request)
    requires CallOf(q).Some?
    ensures var c := CallOf(q).value;
            && (c.brandBound <==> c.action == ActivateRotateKeys || c.action == ActivateEntangle)
            && match q
               case Act(r, action) =>
                 && c.action == action && c.preparation == NotNeeded
                 && c.assetId == r.assetId && c.actor == r.actor && c.headers == r.headers
                 && c.previous == r.previous && c.buyerId == r.buyerId
               case Activate(r, preparation) =>
                 && c.action == ActivateRotateKeys && c.preparation == preparation
                 && c.assetId == r.assetId && c.actor == r.actor && c.headers == r.headers
                 && c.previous == None && c.buyerId == None
               case Entangle(r, preparation) =>
                 && c.action == ActivateEntangle && c.preparation == preparation
                 && c.assetId == r.assetId && c.actor == r.actor && c.headers == r.headers
                 && c.previous == r.previous && c.buyerId == r.buyerId
               case _ => false
  {
    hide BuildRequestHash, ActivateRequestHash;
  }

  // ---- Sales ----

  /** A performed sale names a buyer, and the row holds it. */
  lemma SaleHasBuyer(t: Tables, e: Event)
    requires EffectOf(t, e).Performed? && EffectOf(t, e).call.action == LegalSell
    ensures var c := EffectOf(t, e).call;
            && c.buyerId.Some? && c.buyerId.value != ""
            && c.assetId in Next(t, e).assets && Next(t, e).assets[c.assetId].owner == c.buyerId
            && Next(t, e).assets[c.assetId].currentState == "LegallySold"
  {
    hide Next, EffectOf, CallOf, ApplyAction, FetchAsset;
    Performance(t, e);
    PerformedOwner(t, e);
    PassedOnIff(e.request);
    CallCarriesRequest(e.request);
    var c := EffectOf(t, e).call;
    SoldAfterSale(Presented(c, FetchAsset(t, c.assetId).value), AttemptOf(c, e.eventId));
  }

  lemma SoldAfterSale(record: AssetRecord, a: Attempt)
    requires a.action == LegalSell && Try(record, a).Ok?
    ensures Try(record, a).value.record.current == LegallySold
    ensures Try(record, a).value.event.action == LegalSell
    ensures Try(record, a).value.event.context == a.context
  {
  }

  /** Nobody is ever sold an asset under an empty name, in any run. */
  lemma {:induction false} SalesNameBuyers(t: Tables, events: seq<Event>, a: string)
    ensures forall buyer :: buyer in Sales(t, events, a) ==> buyer != ""
  {
    hide Next, EffectOf;
    if events != [] {
      var n := |events| - 1;
      SalesNameBuyers(t, events[..n], a);
      var before := Run(t, events[..n]);
      if SaleBy(before, events[n], a) != [] {
        SaleHasBuyer(before, events[n]);
      }
    }
  }

  // ---- What is written and answered ----

  /** Only the asset's own row changes: the state to the event's, the saved state to what a freeze interrupts, the owner on a
      sale, a consumption or a legacy. One event and one record are added. */
  lemma PerformedRows(t: Tables, e: Event)
    requires EffectOf(t, e).Performed?
    ensures var c, next := EffectOf(t, e).call, Next(t, e);
            && c.assetId in t.assets && c.assetId in next.assets
            && next.assets == t.assets[c.assetId := next.assets[c.assetId]] && next.transfers == t.transfers
            && var row, row' := t.assets[c.assetId], next.assets[c.assetId];
               && row'.brandId == row.brandId
               && row'.previousState == (if c.action == Freeze then Some(row.currentState) else None)
               && row'.owner == (if c.action == LegalSell then c.buyerId
                                 else if c.action == Consume || c.action == AssetAction.Legacy then None
                                 else row.owner)
               && next.events
                  == t.events + [EventRow(e.eventId, c.assetId, c.action.AsDbStr(), row.currentState, row'.currentState,
                                          c.headers.traceId, c.actor.id, c.actor.role.AsDbStr(), c.actor.org,
                                          c.headers.key, c.headers.approvalId, c.headers.policyVersion)]
  {
    hide Next, EffectOf, CallOf, ApplyAction, FetchAsset, AssetState.AsDbStr, AssetAction.AsDbStr, ActorRole.AsDbStr;
    Performance(t, e);
    var c := EffectOf(t, e).call;
    var stored := Presented(c, FetchAsset(t, c.assetId).value);
    AcceptedEvent(stored, AttemptOf(c, e.eventId));
    FetchedNames(t, c.assetId);
    SavedByFreezesOnly(stored, AttemptOf(c, e.eventId));
  }

  lemma SavedByFreezesOnly(record: AssetRecord, a: Attempt)
    requires Try(record, a).Ok?
    ensures Try(record, a).value.record.previous == if a.action == Freeze then Some(record.current) else None
  {
  }

  /** What a performed request is told, and that this is what is kept under its key. */
  lemma PerformedIsAnswered(t: Tables, e: Event)
    requires EffectOf(t, e).Performed? && e.fault == NoFault
    ensures var c, next := EffectOf(t, e).call, Next(t, e);
            var reply := Handled(t, c, e.eventId, e.fault).reply;
            && reply.Ok? && c.assetId in t.assets && c.assetId in next.assets
            && var s := reply.value;
               && s.assetId == c.assetId && s.action == c.action.AsDbStr() && s.eventId == e.eventId
               && s.from.AsDbStr() == t.assets[c.assetId].currentState
               && s.to.AsDbStr() == next.assets[c.assetId].currentState
               && s.detail == (if c.preparation.Prepared? then Some(c.preparation.detail) else None)
               && next.records == t.records[c.headers.key := IdempotencyRecord(c.requestHash, s)]
  {
    hide CallOf, ApplyAction, FetchAsset, AssetState.AsDbStr, AssetAction.AsDbStr, ActorRole.AsDbStr;
    Performance(t, e);
    var c := EffectOf(t, e).call;
    AcceptedEvent(Presented(c, FetchAsset(t, c.assetId).value), AttemptOf(c, e.eventId));
    FetchedNames(t, c.assetId);
  }

  // ---- Why a request is refused ----

  /** Every refusal of a protocol request names something that is so. */
  lemma RefusalTellsTheTruth(t: Tables, c: Call, eventId: string)
    requires Decide(t, c, eventId).Refuse? && !c.preparation.PreparationFails?
    ensures var known, stored := c.assetId in t.assets, FetchAsset(t, c.assetId);
            match Decide(t, c, eventId).error
            case IdempotencyConflict => c.headers.key in t.records && t.records[c.headers.key].requestHash != c.requestHash
            case AssetNotFound => !known
            case Database => known && stored.Err?
            case BrandBoundaryViolation =>
              && known && c.brandBound && (c.actor.role == Brand || c.actor.role == Factory)
              && c.actor.brandId != Some(t.assets[c.assetId].brandId)
            case TerminalState => stored.Ok? && stored.value.current.IsTerminal()
            case FrozenAsset => stored.Ok? && stored.value.current == Disputed && c.action.IsBusiness()
            case PermissionDenied => stored.Ok? && !MayAttempt(stored.value.current, c.action, ContextOf(c))
            case InvalidInput => stored.Ok? && c.action == LegalSell && c.buyerId == None
            case InvalidStateTransition => stored.Ok? && MayAttempt(stored.value.current, c.action, ContextOf(c))
            case _ => false
  {
    hide ApplyAction, FetchAsset;
    if FetchAsset(t, c.assetId).Ok? {
      FetchedNames(t, c.assetId);
      if Try(Presented(c, FetchAsset(t, c.assetId).value), AttemptOf(c, eventId)).Err? {
        WhyRefused(Presented(c, FetchAsset(t, c.assetId).value), AttemptOf(c, eventId));
      }
    } else {
      UnreadableIff(t, c.assetId);
    }
  }

  lemma UnreadableIff(t: Tables, a: string)
    requires FetchAsset(t, a).Err?
    ensures FetchAsset(t, a).error == if a in t.assets then Database else AssetNotFound
  {
    hide FromDbStr;
  }

  // ---- Transfers ----

  /** Every refusal of a transfer names something that is so. */
  lemma TransferRefusalTellsTheTruth(t: Tables, r: TransferRequest)
    requires Consent(t, r).Err?
    ensures var stored, error := FetchAsset(t, r.assetId), Consent(t, r).error;
            || stored == Err(error)
            || (&& stored.Ok? && r.assetId in t.assets
                && var owner := t.assets[r.assetId].owner;
                   || (&& error == InvalidInput
                       && (owner == None || (stored.value.current != LegallySold && stored.value.current != Transferred)))
                   || (error == Forbidden && owner.Some? && owner.value != r.actor.id)
                   || (owner == Some(r.actor.id)
                       && (|| r.childTag == Some(error) || r.authority == Err(error)
                           || (r.authority == Ok(false) && error == Forbidden))))
  {
    hide FromDbStr;
  }

  /** What a transfer writes: the asset's own row; a pending record from the old owner to the new one unless the row update
      was not heard of or the record is refused; and an event unless it or the record goes wrong. */
  lemma MovementRows(t: Tables, e: Event)
    requires EffectOf(t, e).Handed?
    ensures var r, next := EffectOf(t, e).move, Next(t, e);
            && r.assetId in t.assets && t.assets[r.assetId].owner == Some(r.actor.id) && next.records == t.records
            && var row := t.assets[r.assetId];
               && next.assets
                  == t.assets[r.assetId := AssetRow(row.brandId, "Transferred", Some(row.currentState), Some(r.newOwner))]
               && (if e.fault == Unacknowledged || e.fault == RecordRefused then next.transfers == t.transfers
                   else
                     && |next.transfers| == |t.transfers| + 1 && t.transfers <= next.transfers
                     && var record := next.transfers[|t.transfers|];
                        && record.assetId == r.assetId && record.status == Pending
                        && record.fromUser == record.fromOwner == r.actor.id
                        && record.toUser == record.toOwner == r.newOwner
                        && record.key == r.headers.key && record.traceId == r.headers.traceId
                        && record.transferType == "CONSUMER_TO_CONSUMER")
               && next.events
                  == t.events + (if e.fault == NoFault
                                 then [EventRow(e.eventId, r.assetId, "Transfer", row.currentState, "Transferred",
                                                r.headers.traceId, r.actor.id, r.actor.role.AsDbStr(), r.actor.org,
                                                r.headers.key, r.headers.approvalId, r.headers.policyVersion)]
                                 else [])
  {
    hide Next, EffectOf, FetchAsset, Consent;
    Movement(t, e);
    FetchedNames(t, EffectOf(t, e).move.assetId);
  }

  /** A transfer is answered with the id of its record exactly if nothing it waits for goes wrong. */
  lemma MovementIsAnswered(t: Tables, r: TransferRequest, eventId: string, fault: Fault)
    ensures Moved(t, r, eventId, fault).reply.Ok?
       <==> Consent(t, r).Ok? && (fault == NoFault || fault == EventRefused)
    ensures Moved(t, r, eventId, fault).reply.Ok? ==>
              var outcome := Moved(t, r, eventId, fault);
              && outcome.reply.value < |outcome.tables.transfers|
              && outcome.tables.transfers[outcome.reply.value].assetId == r.assetId
              && outcome.tables.transfers[..outcome.reply.value] == t.transfers
  {
    hide Consent, TransferEvent;
  }

  /** What settling does and says. */
  lemma SettlingIsAnswered(t: Tables, r: SettleRequest, fault: Fault)
    ensures var outcome := Settled(t, r, fault);
            var mine := r.transferId < |t.transfers| && t.transfers[r.transferId].toUser == r.actorId;
            var open := mine && t.transfers[r.transferId].status == Pending;
            match outcome.reply
            case Ok(row) =>
              && open && fault != Refused && fault != Unacknowledged && fault != ReadFails
              && row.status == (if r.confirmed then Confirmed else Rejected)
              && outcome.tables.transfers == t.transfers[r.transferId := row]
            case Err(NotFound) => r.transferId >= |t.transfers|
            case Err(Forbidden) => r.transferId < |t.transfers| && !mine
            case Err(Conflict) => mine && !open
            case Err(Database) => fault != NoFault
            case Err(_) => false
  {
  }

  // ---- The schema ----

  lemma LoggedActionIsListed(row: EventRow)
    requires EventAuthorised(row)
    ensures row.action in ACTION_TEXTS
  {
    assert ACTION_TEXTS[0] == "BlindLog" && ACTION_TEXTS[1] == "StockIn" && ACTION_TEXTS[2] == "ActivateRotateKeys";
    assert ACTION_TEXTS[3] == "ActivateEntangle" && ACTION_TEXTS[4] == "ActivateConfirm";
    assert ACTION_TEXTS[5] == "LegalSell" && ACTION_TEXTS[6] == "Transfer" && ACTION_TEXTS[7] == "Consume";
    assert ACTION_TEXTS[8] == "Legacy" && ACTION_TEXTS[9] == "Freeze" && ACTION_TEXTS[10] == "Recover";
    assert ACTION_TEXTS[11] == "MarkTampered" && ACTION_TEXTS[12] == "MarkCompromised";
    assert ACTION_TEXTS[13] == "MarkDestructed";
  }

  /** In every run, the rows and the log hold only texts that the tables' constraints list. */
  lemma SchemaAlways(t: Tables, events: seq<Event>, a: string)
    requires Fresh(t) && a in Run(t, events).assets
    ensures Run(t, events).assets[a].currentState in STATE_TEXTS
    ensures forall k :: 0 <= k < |Run(t, events).events| ==> Run(t, events).events[k].action in ACTION_TEXTS
  {
    hide Run, Fresh, Sound, FetchAsset, EventAuthorised;
    forall b | b in t.assets ensures Healthy(t, b) { FreshReads(t, b); }
    AlwaysHealthy(t, events);
    FetchedNames(Run(t, events), a);
    StatesPrintAsListed(FetchAsset(Run(t, events), a).value.current);
    LogAlwaysAuthorised(t, events);
    forall k | 0 <= k < |Run(t, events).events|
      ensures Run(t, events).events[k].action in ACTION_TEXTS
    {
      LoggedActionIsListed(Run(t, events).events[k]);
    }
  }
}
