/** The chain of owners the transfer records tell, and what settling a transfer can and cannot do. */
module Ownership {
  import opened Wrappers
  import opened AssetTypes
  import opened Protocol
  import opened Lifecycle
  import opened Ledger
  import opened LedgerRuns

  datatype Hand = Hand(from: string, to: string)

  /** Who handed an asset to whom, in the order of its transfer records. */
  function HandsOf(transfers: seq<TransferRow>, a: string): seq<Hand> {
    if transfers == [] then []
    else
      var last := transfers[|transfers| - 1];
      HandsOf(transfers[..|transfers| - 1], a) + (if last.assetId == a then [Hand(last.fromOwner, last.toOwner)] else [])
  }

  lemma HandsAppend(transfers: seq<TransferRow>, row: TransferRow, a: string)
    ensures HandsOf(transfers + [row], a)
         == HandsOf(transfers, a) + (if row.assetId == a then [Hand(row.fromOwner, row.toOwner)] else [])
  {
    assert (transfers + [row])[..|transfers|] == transfers;
  }

  lemma {:induction false} HandsIgnoreStatus(transfers: seq<TransferRow>, i: nat, status: TransferStatus, a: string)
    requires i < |transfers|
    ensures HandsOf(transfers[i := transfers[i].(status := status)], a) == HandsOf(transfers, a)
  {
    var n := |transfers| - 1;
    var changed := transfers[i := transfers[i].(status := status)];
    if i < n {
      HandsIgnoreStatus(transfers[..n], i, status, a);
      assert changed[..n] == transfers[..n][i := transfers[..n][i].(status := status)];
    } else {
      assert changed[..n] == transfers[..n];
    }
  }

  // ---- Settling ----

  predicate Settles(t: Tables, e: Event) {
    && e.request.Settle? && e.fault != ReadFails && e.fault != Refused
    && e.request.settle.transferId < |t.transfers|
    && t.transfers[e.request.settle.transferId].status == Pending
    && t.transfers[e.request.settle.transferId].toUser == e.request.settle.actorId
  }

  /** Only the new owner settles a transfer, only while it is pending, and nothing but its status changes: a rejected
      transfer does not give the asset back. */
  lemma SettlingChangesStatusOnly(t: Tables, e: Event)
    requires EffectOf(t, e).Nothing?
    ensures Next(t, e) == if Settles(t, e)
                          then var i := e.request.settle.transferId;
                               var status := if e.request.settle.confirmed then Confirmed else Rejected;
                               t.(transfers := t.transfers[i := t.transfers[i].(status := status)])
                          else t
  {
    hide Decide, Consent, Written;
  }

  /** The transfer record a request adds. */
  function NewTransfer(t: Tables, e: Event): seq<TransferRow> {
    match EffectOf(t, e)
    case Handed(r, h) => if e.fault == Unacknowledged || e.fault == RecordRefused then [] else [TransferOf(r, h.owner)]
    case _ => []
  }

  lemma TransfersGrow(t: Tables, e: Event)
    requires !EffectOf(t, e).Nothing?
    ensures Next(t, e).transfers == t.transfers + NewTransfer(t, e)
  {
    hide Next, EffectOf, Consent, CallOf, ApplyAction, FetchAsset, Printed, SnapshotOf, OwnerAfter;
    if EffectOf(t, e).Performed? {
      Performance(t, e);
    } else {
      Movement(t, e);
    }
  }

  /** Once written, a transfer record keeps everything but its status, and a settled one keeps that too. */
  predicate Carried(earlier: seq<TransferRow>, later: seq<TransferRow>) {
    && |earlier| <= |later|
    && forall i :: 0 <= i < |earlier| ==>
         && later[i] == earlier[i].(status := later[i].status)
         && (earlier[i].status != Pending ==> later[i] == earlier[i])
  }

  lemma StepCarries(t: Tables, e: Event)
    ensures Carried(t.transfers, Next(t, e).transfers)
  {
    hide Next, EffectOf, NewTransfer;
    if EffectOf(t, e).Nothing? {
      SettlingChangesStatusOnly(t, e);
    } else {
      TransfersGrow(t, e);
    }
  }

  lemma {:induction false} SettledForGood(t: Tables, events: seq<Event>, m: nat, n: nat)
    requires m <= n <= |events|
    ensures Carried(Run(t, events[..m]).transfers, Run(t, events[..n]).transfers)
    decreases n - m
  {
    hide Next;
    if m < n {
      SettledForGood(t, events, m, n - 1);
      assert events[..n][..n - 1] == events[..n - 1];
      StepCarries(Run(t, events[..n - 1]), events[n - 1]);
    }
  }

  // ---- The chain of owners ----

  /** The buyer of an asset sold by this request. */
  function SaleBy(t: Tables, e: Event, a: string): seq<string> {
    match EffectOf(t, e)
    case Performed(c, _) =>
      if c.assetId == a && c.action == LegalSell && c.buyerId.Some? then [c.buyerId.value] else []
    case _ => []
  }

  function Sales(t: Tables, events: seq<Event>, a: string): seq<string> {
    if events == [] then []
    else
      var n := |events| - 1;
      Sales(t, events[..n], a) + SaleBy(Run(t, events[..n]), events[n], a)
  }

  function HolderAfter(buyer: string, hands: seq<Hand>): string {
    if hands == [] then buyer else hands[|hands| - 1].to
  }

  predicate Linked(buyer: string, hands: seq<Hand>) {
    forall k :: 0 <= k < |hands| ==> hands[k].from == HolderAfter(buyer, hands[..k])
  }

  /** Before the sale no transfers; after it they run from the buyer to the stored owner without a gap. */
  predicate OwnersFollow(s: AssetState, owner: Option<string>, sales: seq<string>, hands: seq<Hand>) {
    && |sales| <= 1
    && (s.IsLive() ==> (sales != [] <==> Rank(s) >= Rank(LegallySold)))
    && (sales == [] ==> hands == [])
    && (sales != [] ==>
          Linked(sales[0], hands) && (s.IsLive() ==> owner == Some(HolderAfter(sales[0], hands))))
  }

  predicate ChainOfOwners(t: Tables, sales: seq<string>, a: string) {
    && Owned(t, a)
    && OwnersFollow(Effective(FetchAsset(t, a).value), t.assets[a].owner, sales, HandsOf(t.transfers, a))
  }

  /** Every transfer that reaches the asset row also gets its record. */
  predicate Recorded(e: Event) {
    e.request.Move? ==> e.fault != Unacknowledged && e.fault != RecordRefused
  }

  predicate AllRecorded(events: seq<Event>) {
    forall k :: 0 <= k < |events| ==> Recorded(events[k])
  }

  lemma LinkedAppend(buyer: string, hands: seq<Hand>, hand: Hand)
    requires Linked(buyer, hands) && hand.from == HolderAfter(buyer, hands)
    ensures Linked(buyer, hands + [hand]) && HolderAfter(buyer, hands + [hand]) == hand.to
  {
    forall k | 0 <= k <= |hands|
      ensures (hands + [hand])[..k] == hands[..k]
    {
    }
    assert hands[..|hands|] == hands;
  }

  /** Only a sale takes an asset across the line that ownership starts at. */
  lemma OnlySalesSell(record: AssetRecord, a: Attempt)
    requires Sound(record) && Try(record, a).Ok? && a.action != Transfer
    ensures var s, next := Effective(record), Effective(Try(record, a).value.record);
            && s.IsLive()
            && (a.action == LegalSell ==> s == Activated && next == LegallySold && a.context.buyerId.Some?)
            && (next.IsLive() && a.action != LegalSell ==>
                  && a.action != Consume && a.action != AssetAction.Legacy
                  && (Rank(next) >= Rank(LegallySold) <==> Rank(s) >= Rank(LegallySold)))
  {
  }

  lemma AcceptedKeepsOwnersFollowing(record: AssetRecord, a: Attempt, owner: Option<string>, sales: seq<string>,
                                     hands: seq<Hand>)
    requires Sound(record) && Try(record, a).Ok? && a.action != Transfer
    requires OwnersFollow(Effective(record), owner, sales, hands)
    ensures var sold := if a.action == LegalSell && a.context.buyerId.Some? then [a.context.buyerId.value] else [];
            OwnersFollow(Effective(Try(record, a).value.record), OwnerAfter(owner, Try(record, a).value.event),
                         sales + sold, hands)
  {
    hide ApplyAction, Effective;
    AcceptedEvent(record, a);
    OnlySalesSell(record, a);
    assert sales + [] == sales;
  }

  lemma MoveKeepsOwnersFollowing(s: AssetState, owner: string, newOwner: string, sales: seq<string>, hands: seq<Hand>)
    requires s == LegallySold || s == Transferred
    requires OwnersFollow(s, Some(owner), sales, hands)
    ensures OwnersFollow(Transferred, Some(newOwner), sales, hands + [Hand(owner, newOwner)])
  {
    LinkedAppend(sales[0], hands, Hand(owner, newOwner));
  }

  lemma QuietKeepsHands(t: Tables, e: Event, a: string)
    requires !Touches(EffectOf(t, e), a)
    ensures HandsOf(Next(t, e).transfers, a) == HandsOf(t.transfers, a) && SaleBy(t, e, a) == []
  {
    hide Next, HandsOf;
    match EffectOf(t, e)
    case Nothing =>
      SettlingChangesStatusOnly(t, e);
      if Settles(t, e) {
        HandsIgnoreStatus(t.transfers, e.request.settle.transferId,
                          if e.request.settle.confirmed then Confirmed else Rejected, a);
      }
    case Performed(_, _) =>
      TransfersGrow(t, e);
      assert t.transfers + [] == t.transfers;
    case Handed(r, h) =>
      TransfersGrow(t, e);
      assert t.transfers + [] == t.transfers;
      HandsAppend(t.transfers, TransferOf(r, h.owner), a);
  }

  lemma PerformedKeepsChain(t: Tables, e: Event, sales: seq<string>, a: string)
    requires EffectOf(t, e).Performed? && Touches(EffectOf(t, e), a)
    requires ChainOfOwners(t, sales, a) && Unset(e)
    ensures ChainOfOwners(Next(t, e), sales + SaleBy(t, e, a), a)
  {
    hide Next, EffectOf, FetchAsset, HandsOf, OwnersFollow, ApplyAction, CallOf, OwnerFits, OwnerAfter;
    var c := EffectOf(t, e).call;
    StepKeepsOwned(t, e, a);
    Performance(t, e);
    PerformedOnStored(t, e);
    PerformedReadsBack(t, e);
    PerformedOwner(t, e);
    TransfersGrow(t, e);
    assert t.transfers + [] == t.transfers;
    AcceptedKeepsOwnersFollowing(FetchAsset(t, a).value, AttemptOf(c, e.eventId), t.assets[a].owner, sales,
                                 HandsOf(t.transfers, a));
  }

  lemma HandedKeepsChain(t: Tables, e: Event, sales: seq<string>, a: string)
    requires EffectOf(t, e).Handed? && Touches(EffectOf(t, e), a)
    requires ChainOfOwners(t, sales, a) && Unset(e) && Recorded(e)
    ensures ChainOfOwners(Next(t, e), sales + SaleBy(t, e, a), a)
  {
    hide Next, EffectOf, FetchAsset, HandsOf, OwnersFollow, Consent, CallOf, OwnerFits, FromDbStr;
    var r, h := EffectOf(t, e).move, EffectOf(t, e).handover;
    StepKeepsOwned(t, e, a);
    Movement(t, e);
    MovedReadsBack(t, e);
    HandsAppend(t.transfers, TransferOf(r, h.owner), a);
    MoveKeepsOwnersFollowing(h.from, h.owner, r.newOwner, sales, HandsOf(t.transfers, a));
    assert sales + [] == sales;
  }

  lemma StepKeepsChainOfOwners(t: Tables, e: Event, sales: seq<string>, a: string)
    requires ChainOfOwners(t, sales, a) && Unset(e) && Recorded(e)
    ensures ChainOfOwners(Next(t, e), sales + SaleBy(t, e, a), a)
  {
    hide Next, EffectOf, FetchAsset, HandsOf, OwnersFollow, SaleBy, Unset, Recorded;
    if !Touches(EffectOf(t, e), a) {
      StepKeepsOwned(t, e, a);
      UntouchedReadsSame(t, e, a);
      QuietKeepsHands(t, e, a);
      assert sales + [] == sales;
    } else if EffectOf(t, e).Performed? {
      PerformedKeepsChain(t, e, sales, a);
    } else {
      HandedKeepsChain(t, e, sales, a);
    }
  }

  /** The transfer records of an asset run from the buyer of its one sale to its present owner. */
  lemma {:induction false} OwnershipChain(t: Tables, events: seq<Event>, a: string)
    requires Fresh(t) && AllUnset(events) && AllRecorded(events) && a in t.assets
    ensures ChainOfOwners(Run(t, events), Sales(t, events, a), a)
  {
    hide Fresh, ChainOfOwners, Next, Unset, Recorded, SaleBy;
    if events == [] {
      FreshOwners(t, a);
    } else {
      OwnershipChain(t, events[..|events| - 1], a);
      StepKeepsChainOfOwners(Run(t, events[..|events| - 1]), events[|events| - 1],
                             Sales(t, events[..|events| - 1], a), a);
    }
  }

  lemma FreshOwners(t: Tables, a: string)
    requires Fresh(t) && a in t.assets
    ensures ChainOfOwners(t, [], a)
  {
    FreshReads(t, a);
  }

  /** A transfer that loses its record leaves the chain behind exactly when it changes the owner. */
  lemma UnrecordedTransfer(t: Tables, e: Event, sales: seq<string>)
    requires EffectOf(t, e).Handed? && !Recorded(e)
    requires ChainOfOwners(t, sales, EffectOf(t, e).move.assetId)
    ensures ChainOfOwners(Next(t, e), sales, EffectOf(t, e).move.assetId)
            <==> EffectOf(t, e).move.newOwner == EffectOf(t, e).handover.owner
  {
    hide Next, EffectOf, FetchAsset, HandsOf, Linked, HolderAfter, Consent, OwnerFits, FromDbStr;
    var r, h := EffectOf(t, e).move, EffectOf(t, e).handover;
    Movement(t, e);
    StepKeepsOwned(t, e, r.assetId);
    MovedReadsBack(t, e);
    assert t.transfers + [] == t.transfers;
  }
}
