/**
 The protocol tables and the handlers that write them: the asset rows, the audit log, the idempotency records and the
 transfer records. States, roles and actions are kept as the text the columns hold.
 */
module Ledger {
  import opened Wrappers
  import opened AssetTypes
  import opened Protocol

  datatype AssetRow = AssetRow(
    brandId: string, currentState: string, previousState: Option<string>, owner: Option<string>)

  datatype EventRow = EventRow(
    eventId: string, assetId: string, action: string, fromState: string, toState: string,
    traceId: string, actorId: string, actorRole: string, actorOrg: Option<string>, key: string,
    approvalId: Option<string>, policyVersion: Option<string>)

  /** The response sent and kept; `detail` is the commitment or the mother card made on activation. */
  datatype Snapshot = Snapshot(
    assetId: string, action: string, from: AssetState, to: AssetState, eventId: string, detail: Option<string>)

  datatype IdempotencyRecord = IdempotencyRecord(requestHash: string, snapshot: Snapshot)

  datatype TransferStatus = Pending | Confirmed | Rejected

  datatype TransferRow = TransferRow(
    assetId: string, fromUser: string, toUser: string, fromOwner: string, toOwner: string, transferType: string,
    key: string, traceId: string, status: TransferStatus)

  /** The tables; a transfer's id is its place in insertion order. */
  datatype Tables = Tables(
    assets: map<string, AssetRow>, events: seq<EventRow>, records: map<string, IdempotencyRecord>,
    transfers: seq<TransferRow>)

  /** Which database statement of a request goes wrong; an unacknowledged one is applied without the handler knowing. */
  datatype Fault =
    | NoFault | ReadFails | Refused | Unacknowledged | RecordRefused | RecordUnacknowledged | EventRefused

  datatype Actor = Actor(id: string, role: ActorRole, org: Option<string>, brandId: Option<string>)

  datatype Headers = Headers(
    traceId: string, key: string, approvalId: Option<string>, policyVersion: Option<string>)

  // ---- Reading ----

  function FetchAsset(t: Tables, assetId: string): Result<AssetRecord, RcError> {
    if assetId !in t.assets then Err(AssetNotFound)
    else
      var row := t.assets[assetId];
      var previous := if row.previousState.Some? then FromDbStr(row.previousState.value) else None;
      var current := FromDbStr(row.currentState);
      if (row.previousState.Some? && previous.None?) || current.None? then Err(Database)
      else Ok(AssetRecord(assetId, row.brandId, current.value, previous))
  }

  // ---- Writing one action ----

  function PrintedPrevious(record: AssetRecord): Option<string> {
    if record.previous.Some? then Some(record.previous.value.AsDbStr()) else None
  }

  function OwnerAfter(owner: Option<string>, event: AuditEvent): Option<string> {
    match event.action
    case LegalSell => event.context.buyerId
    case Transfer => Some(event.context.actorId)
    case Consume => None
    case Legacy => None
    case _ => owner
  }

  function Printed(event: AuditEvent): EventRow {
    EventRow(event.eventId, event.assetId, event.action.AsDbStr(), event.from.AsDbStr(), event.to.AsDbStr(),
             event.context.traceId, event.context.actorId, event.context.role.AsDbStr(), event.context.actorOrg,
             event.context.idempotencyKey, event.context.approvalId, event.context.policyVersion)
  }

  /** The four statements of the transaction, all applied. */
  function Written(t: Tables, step: Step, requestHash: string, snapshot: Snapshot): Tables
    requires step.record.assetId in t.assets
  {
    var id, key := step.record.assetId, step.event.context.idempotencyKey;
    var row := t.assets[id];
    t.(assets := t.assets[id := AssetRow(row.brandId, step.record.current.AsDbStr(), PrintedPrevious(step.record),
                                         OwnerAfter(row.owner, step.event))],
       events := t.events + [Printed(step.event)],
       records := if key in t.records then t.records
                  else t.records[key := IdempotencyRecord(requestHash, snapshot)])
  }

  // ---- One protocol request ----

  /** What activation does before its action is persisted. */
  datatype Preparation = NotNeeded | Prepared(detail: string) | PreparationFails(error: RcError)

  /** A request as its handler presents it to the steps all of them share. */
  datatype Call = Call(
    assetId: string, action: AssetAction, actor: Actor, headers: Headers, previous: Option<AssetState>,
    buyerId: Option<string>, requestHash: string, brandBound: bool, preparation: Preparation)

  /** Brands and factories may only activate assets of their own brand. */
  predicate WithinBrand(actor: Actor, brandId: string) {
    actor.role == Brand || actor.role == Factory ==> actor.brandId == Some(brandId)
  }

  function ContextOf(c: Call): AuditContext {
    AuditContext(c.headers.traceId, c.actor.id, c.actor.role, c.actor.org, c.headers.key, c.headers.approvalId,
                 c.headers.policyVersion, c.buyerId)
  }

  /** A saved state carried by the request takes the place of the stored one. */
  function Presented(c: Call, stored: AssetRecord): AssetRecord {
    if c.previous.Some? then stored.(previous := c.previous) else stored
  }

  datatype Decision = Refuse(error: RcError) | Repeat(snapshot: Snapshot) | Perform(step: Step)

  function Decide(t: Tables, c: Call, eventId: string): Decision {
    if c.headers.key in t.records then
      var record := t.records[c.headers.key];
      if record.requestHash != c.requestHash then Refuse(IdempotencyConflict) else Repeat(record.snapshot)
    else
      match FetchAsset(t, c.assetId)
      case Err(error) => Refuse(error)
      case Ok(stored) =>
        if c.brandBound && !WithinBrand(c.actor, stored.brandId) then Refuse(BrandBoundaryViolation)
        else
          match ApplyAction(Presented(c, stored), c.action, ContextOf(c), eventId)
          case Err(error) => Refuse(error)
          case Ok(step) =>
            if c.preparation.PreparationFails? then Refuse(c.preparation.error) else Perform(step)
  }

  function SnapshotOf(c: Call, step: Step): Snapshot {
    Snapshot(c.assetId, c.action.AsDbStr(), step.event.from, step.record.current, step.event.eventId,
             if c.preparation.Prepared? then Some(c.preparation.detail) else None)
  }

  lemma StepNamesItsAsset(record: AssetRecord, action: AssetAction, context: AuditContext, eventId: string)
    requires ApplyAction(record, action, context, eventId).Ok?
    ensures var step := ApplyAction(record, action, context, eventId).value;
            && step.record.assetId == record.assetId
            && step.event == AuditEvent(eventId, record.assetId, action, record.current, step.record.current, context)
            && (action == LegalSell ==> context.buyerId.Some?)
  {
  }

  datatype Outcome<T> = Outcome(tables: Tables, reply: Result<T, RcError>)

  function Handled(t: Tables, c: Call, eventId: string, fault: Fault): Outcome<Snapshot> {
    if fault == ReadFails then Outcome(t, Err(Database))
    else
      match Decide(t, c, eventId)
      case Refuse(error) => Outcome(t, Err(error))
      case Repeat(snapshot) => Outcome(t, Ok(snapshot))
      case Perform(step) =>
        var snapshot := SnapshotOf(c, step);
        match fault
        case NoFault => Outcome(Written(t, step, c.requestHash, snapshot), Ok(snapshot))
        case Unacknowledged => Outcome(Written(t, step, c.requestHash, snapshot), Err(Database))
        case _ => Outcome(t, Err(Database))
  }

  // ---- The protocol handlers ----

  datatype ActionRequest = ActionRequest(
    assetId: string, actor: Actor, headers: Headers, previous: Option<AssetState>, buyerId: Option<string>)

  datatype ActivateRequest = ActivateRequest(assetId: string, actor: Actor, headers: Headers, productId: string)

  /** The debug form of an optional state. */
  function Shown(previous: Option<AssetState>): string {
    match previous
    case None => "None"
    case Some(s) => "Some(\"" + s.AsDbStr() + "\")"
  }

  /** Fields separated by bars. */
  function Joined(fields: seq<string>): string
    requires fields != []
  {
    if |fields| == 1 then fields[0] else fields[0] + "|" + Joined(fields[1..])
  }

  function Fields(r: ActionRequest, action: AssetAction): seq<string> {
    ["asset=" + r.assetId, "action=" + action.AsDbStr(), "trace=" + r.headers.traceId,
     "role=" + r.actor.role.AsDbStr(), "approval=" + r.headers.approvalId.GetOr(""),
     "policy=" + r.headers.policyVersion.GetOr(""), "prev=" + Shown(r.previous)]
  }

  function BuildRequestHash(r: ActionRequest, action: AssetAction): string {
    Joined(Fields(r, action))
  }

  function ActivateRequestHash(r: ActivateRequest): string {
    Joined(["asset=" + r.assetId, "action=ActivateRotateKeys", "trace=" + r.headers.traceId,
            "role=" + r.actor.role.AsDbStr(), "product=" + r.productId])
  }

  /** The actions the router sends to the common handler; transfers and the first two activation steps have their own. */
  predicate Routed(action: AssetAction) {
    action != Transfer && action != ActivateRotateKeys && action != ActivateEntangle
  }

  function ActionCall(r: ActionRequest, action: AssetAction): Result<Call, RcError> {
    if action == LegalSell && r.buyerId.GetOr("") == "" then Err(InvalidInput)
    else Ok(Call(r.assetId, action, r.actor, r.headers, r.previous, r.buyerId, BuildRequestHash(r, action), false,
                 NotNeeded))
  }

  function ActivateCall(r: ActivateRequest, preparation: Preparation): Result<Call, RcError> {
    if r.productId == "" then Err(InvalidInput)
    else Ok(Call(r.assetId, ActivateRotateKeys, r.actor, r.headers, None, None, ActivateRequestHash(r), true,
                 preparation))
  }

  function EntangleCall(r: ActionRequest, preparation: Preparation): Call {
    Call(r.assetId, ActivateEntangle, r.actor, r.headers, r.previous, r.buyerId,
         BuildRequestHash(r, ActivateEntangle), true, preparation)
  }

  // ---- Transfers ----

  /** A transfer request; the last two are the verdicts on the tag and on the authority proof it carries. */
  datatype TransferRequest = TransferRequest(
    assetId: string, newOwner: string, actor: Actor, headers: Headers,
    childTag: Option<RcError>, authority: Result<bool, RcError>)

  datatype Handover = Handover(from: AssetState, owner: string)

  function Consent(t: Tables, r: TransferRequest): Result<Handover, RcError> {
    match FetchAsset(t, r.assetId)
    case Err(error) => Err(error)
    case Ok(stored) =>
      if stored.current != LegallySold && stored.current != Transferred then Err(InvalidInput)
      else
        var owner := t.assets[r.assetId].owner;
        if owner.None? then Err(InvalidInput)
        else if r.actor.id != owner.value then Err(Forbidden)
        else if r.childTag.Some? then Err(r.childTag.value)
        else if r.authority.Err? then Err(r.authority.error)
        else if !r.authority.value then Err(Forbidden)
        else Ok(Handover(stored.current, owner.value))
  }

  function RowMoved(t: Tables, r: TransferRequest, from: AssetState): Tables
    requires r.assetId in t.assets
  {
    t.(assets := t.assets[r.assetId :=
      AssetRow(t.assets[r.assetId].brandId, Transferred.AsDbStr(), Some(from.AsDbStr()), Some(r.newOwner))])
  }

  function TransferOf(r: TransferRequest, owner: string): TransferRow {
    TransferRow(r.assetId, owner, r.newOwner, owner, r.newOwner, "CONSUMER_TO_CONSUMER", r.headers.key,
                r.headers.traceId, Pending)
  }

  function TransferEvent(r: TransferRequest, from: AssetState, eventId: string): EventRow {
    EventRow(eventId, r.assetId, Transfer.AsDbStr(), from.AsDbStr(), Transferred.AsDbStr(), r.headers.traceId,
             r.actor.id, r.actor.role.AsDbStr(), r.actor.org, r.headers.key, r.headers.approvalId,
             r.headers.policyVersion)
  }

  /** Three statements without a transaction: the row, the transfer record, and an event nobody waits for. */
  function Moved(t: Tables, r: TransferRequest, eventId: string, fault: Fault): Outcome<nat> {
    if fault == ReadFails then Outcome(t, Err(Database))
    else
      match Consent(t, r)
      case Err(error) => Outcome(t, Err(error))
      case Ok(h) =>
        if fault == Refused then Outcome(t, Err(Database))
        else
          var t1 := RowMoved(t, r, h.from);
          if fault == Unacknowledged || fault == RecordRefused then Outcome(t1, Err(Database))
          else
            var t2 := t1.(transfers := t1.transfers + [TransferOf(r, h.owner)]);
            if fault == RecordUnacknowledged then Outcome(t2, Err(Database))
            else
              var t3 := if fault == EventRefused then t2
                        else t2.(events := t2.events + [TransferEvent(r, h.from, eventId)]);
              Outcome(t3, Ok(|t.transfers|))
  }

  datatype SettleRequest = SettleRequest(transferId: nat, actorId: string, confirmed: bool)

  function Verdict(r: SettleRequest): TransferStatus {
    if r.confirmed then Confirmed else Rejected
  }

  /** Confirming or rejecting: by the new owner only, and only while the transfer is pending. */
  function Settled(t: Tables, r: SettleRequest, fault: Fault): Outcome<TransferRow> {
    if fault == ReadFails then Outcome(t, Err(Database))
    else if r.transferId >= |t.transfers| then Outcome(t, Err(NotFound))
    else
      var row := t.transfers[r.transferId];
      if r.actorId != row.toUser then Outcome(t, Err(Forbidden))
      else if fault == Refused then Outcome(t, Err(Database))
      else if row.status != Pending then Outcome(t, Err(Conflict))
      else
        var settled := row.(status := Verdict(r));
        Outcome(t.(transfers := t.transfers[r.transferId := settled]),
                if fault == Unacknowledged then Err(Database) else Ok(settled))
  }

  class ProtocolDb {
    var assets: map<string, AssetRow>
    var events: seq<EventRow>
    var records: map<string, IdempotencyRecord>
    var transfers: seq<TransferRow>

    constructor (assets: map<string, AssetRow>)
      ensures View() == Tables(assets, [], map[], [])
    {
      this.assets, events, records, transfers := assets, [], map[], [];
    }

    function View(): Tables
      reads this
    {
      Tables(assets, events, records, transfers)
    }

    /** Nothing is applied unless the transaction commits. */
    method PersistAction(step: Step, requestHash: string, snapshot: Snapshot, fault: Fault)
      returns (error: Option<RcError>)
      requires step.record.assetId in assets && step.event.assetId == step.record.assetId
      requires step.event.action == LegalSell ==> step.event.context.buyerId.Some?
      modifies this`assets, this`events, this`records
      ensures error == if fault == NoFault then None else Some(Database)
      ensures View() == if fault == NoFault || fault == Unacknowledged
                        then Written(old(View()), step, requestHash, snapshot)
                        else old(View())
    {
      var id, event := step.record.assetId, step.event;
      var row := assets[id].(currentState := step.record.current.AsDbStr(),
                             previousState := PrintedPrevious(step.record));
      match event.action {
        case LegalSell => row := row.(owner := event.context.buyerId);
        case Transfer => row := row.(owner := Some(event.context.actorId));
        case Consume => row := row.(owner := None);
        case Legacy => row := row.(owner := None);
        case _ =>
      }
      if fault != NoFault && fault != Unacknowledged {
        return Some(Database);
      }
      assets := assets[id := row];
      events := events + [Printed(event)];
      if event.context.idempotencyKey !in records {
        records := records[event.context.idempotencyKey := IdempotencyRecord(requestHash, snapshot)];
      }
      error := if fault == NoFault then None else Some(Database);
    }

    /** The checks of one request, in the order the handlers make them. */
    method Consider(c: Call, eventId: string) returns (d: Decision)
      ensures d == Decide(View(), c, eventId)
      ensures d.Perform? ==>
                && d.step.record.assetId in assets && d.step.event.assetId == d.step.record.assetId
                && (d.step.event.action == LegalSell ==> d.step.event.context.buyerId.Some?)
    {
      hide ApplyAction;
      if c.headers.key in records {
        var record := records[c.headers.key];
        return if record.requestHash != c.requestHash then Refuse(IdempotencyConflict) else Repeat(record.snapshot);
      }
      var stored := FetchAsset(View(), c.assetId);
      if stored.Err? {
        return Refuse(stored.error);
      }
      if c.brandBound && !WithinBrand(c.actor, stored.value.brandId) {
        return Refuse(BrandBoundaryViolation);
      }
      var record := stored.value;
      if c.previous.Some? {
        record := record.(previous := c.previous);
      }
      var applied := ApplyAction(record, c.action, ContextOf(c), eventId);
      if applied.Err? {
        return Refuse(applied.error);
      }
      StepNamesItsAsset(record, c.action, ContextOf(c), eventId);
      d := if c.preparation.PreparationFails? then Refuse(c.preparation.error) else Perform(applied.value);
    }

    method Handle(c: Call, eventId: string, fault: Fault) returns (reply: Result<Snapshot, RcError>)
      modifies this`assets, this`events, this`records
      ensures Outcome(View(), reply) == Handled(old(View()), c, eventId, fault)
    {
      hide Decide, Written, SnapshotOf;
      if fault == ReadFails {
        return Err(Database);
      }
      var decision := Consider(c, eventId);
      match decision {
        case Refuse(error) => return Err(error);
        case Repeat(snapshot) => return Ok(snapshot);
        case Perform(step) =>
          var snapshot := SnapshotOf(c, step);
          var error := PersistAction(step, c.requestHash, snapshot, fault);
          reply := if error.Some? then Err(error.value) else Ok(snapshot);
      }
    }

    method ExecuteAssetAction(r: ActionRequest, action: AssetAction, eventId: string, fault: Fault)
      returns (reply: Result<Snapshot, RcError>)
      requires Routed(action)
      modifies this`assets, this`events, this`records
      ensures match ActionCall(r, action)
              case Err(error) => View() == old(View()) && reply == Err(error)
              case Ok(c) => Outcome(View(), reply) == Handled(old(View()), c, eventId, fault)
      ensures action == LegalSell && (r.buyerId == None || r.buyerId == Some("")) ==>
                View() == old(View()) && reply == Err(InvalidInput)
    {
      var c := ActionCall(r, action);
      if c.Err? {
        return Err(c.error);
      }
      reply := Handle(c.value, eventId, fault);
    }

    method ActivateAsset(r: ActivateRequest, preparation: Preparation, eventId: string, fault: Fault)
      returns (reply: Result<Snapshot, RcError>)
      modifies this`assets, this`events, this`records
      ensures match ActivateCall(r, preparation)
              case Err(error) => View() == old(View()) && reply == Err(error)
              case Ok(c) => Outcome(View(), reply) == Handled(old(View()), c, eventId, fault)
      ensures r.productId == "" ==> View() == old(View()) && reply == Err(InvalidInput)
    {
      var c := ActivateCall(r, preparation);
      if c.Err? {
        return Err(c.error);
      }
      reply := Handle(c.value, eventId, fault);
    }

    method ActivateEntangleAsset(r: ActionRequest, preparation: Preparation, eventId: string, fault: Fault)
      returns (reply: Result<Snapshot, RcError>)
      modifies this`assets, this`events, this`records
      ensures Outcome(View(), reply) == Handled(old(View()), EntangleCall(r, preparation), eventId, fault)
    {
      reply := Handle(EntangleCall(r, preparation), eventId, fault);
    }

    method InsertTransfer(assetId: string, fromOwner: string, toOwner: string, transferType: string, key: string,
                          traceId: string)
      returns (id: nat)
      modifies this`transfers
      ensures id == |old(transfers)|
      ensures transfers == old(transfers)
                           + [TransferRow(assetId, fromOwner, toOwner, fromOwner, toOwner, transferType, key, traceId,
                                          Pending)]
    {
      id := |transfers|;
      transfers := transfers
                   + [TransferRow(assetId, fromOwner, toOwner, fromOwner, toOwner, transferType, key, traceId, Pending)];
    }

    method TransferAsset(r: TransferRequest, eventId: string, fault: Fault) returns (reply: Result<nat, RcError>)
      modifies this`assets, this`events, this`transfers
      ensures Outcome(View(), reply) == Moved(old(View()), r, eventId, fault)
    {
      if fault == ReadFails {
        return Err(Database);
      }
      var consent := Consent(View(), r);
      if consent.Err? {
        return Err(consent.error);
      }
      if fault == Refused {
        return Err(Database);
      }
      var h := consent.value;
      assets := assets[r.assetId := assets[r.assetId].(currentState := Transferred.AsDbStr(),
                                                       previousState := Some(h.from.AsDbStr()),
                                                       owner := Some(r.newOwner))];
      if fault == Unacknowledged || fault == RecordRefused {
        return Err(Database);
      }
      var id := InsertTransfer(r.assetId, h.owner, r.newOwner, "CONSUMER_TO_CONSUMER", r.headers.key,
                               r.headers.traceId);
      if fault == RecordUnacknowledged {
        return Err(Database);
      }
      if fault != EventRefused {
        events := events + [TransferEvent(r, h.from, eventId)];
      }
      reply := Ok(id);
    }

    /** Changes a transfer's status only while it is pending. */
    method UpdateTransferStatus(id: nat, verdict: TransferStatus) returns (row: Result<TransferRow, RcError>)
      modifies this`transfers
      ensures if id < |old(transfers)| && old(transfers)[id].status == Pending
              then row == Ok(old(transfers)[id].(status := verdict)) && transfers == old(transfers)[id := row.value]
              else transfers == old(transfers) && row == Err(if id < |transfers| then Conflict else NotFound)
    {
      if id >= |transfers| {
        return Err(NotFound);
      }
      if transfers[id].status != Pending {
        return Err(Conflict);
      }
      transfers := transfers[id := transfers[id].(status := verdict)];
      row := Ok(transfers[id]);
    }

    method SettleTransfer(r: SettleRequest, fault: Fault) returns (reply: Result<TransferRow, RcError>)
      modifies this`transfers
      ensures Outcome(View(), reply) == Settled(old(View()), r, fault)
    {
      if fault == ReadFails {
        return Err(Database);
      }
      if r.transferId >= |transfers| {
        return Err(NotFound);
      }
      if r.actorId != transfers[r.transferId].toUser {
        return Err(Forbidden);
      }
      if fault == Refused {
        return Err(Database);
      }
      reply := UpdateTransferStatus(r.transferId, Verdict(r));
      if fault == Unacknowledged && reply.Ok? {
        reply := Err(Database);
      }
    }
  }
}
