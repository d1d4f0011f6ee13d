/** Runs from fresh tables that end where a guarantee no longer holds. */
module LedgerCounterexamples {
  import opened Wrappers
  import opened AssetTypes
  import opened StateMachine
  import opened Protocol
  import opened Lifecycle
  import opened Ledger
  import opened LedgerRuns
  import opened AuditTrail
  import opened Ownership

  /** A different idempotency key for every request. */
  function KeyOf(n: nat): (key: string)
    ensures |key| == n
  {
    seq(n, _ => 'k')
  }

  const PLATFORM := Actor("platform", Platform, None, None)

  function HeadersOf(n: nat): Headers {
    Headers("trace", KeyOf(n), Some("approved"), None)
  }

  function RequestOf(a: string, n: nat, previous: Option<AssetState>, buyer: Option<string>): ActionRequest {
    ActionRequest(a, PLATFORM, HeadersOf(n), previous, buyer)
  }

  lemma RunPlus(t: Tables, events: seq<Event>, e: Event)
    ensures Run(t, events + [e]) == Next(Run(t, events), e)
  {
    assert (events + [e])[..|events|] == events;
  }

  /** The keys used so far. */
  ghost predicate KeysBelow(t: Tables, n: nat) {
    forall key :: key in t.records ==> |key| < n
  }

  lemma PerformedKeys(t: Tables, e: Event, n: nat)
    requires EffectOf(t, e).Performed? && KeysBelow(t, n) && |EffectOf(t, e).call.headers.key| == n
    ensures KeysBelow(Next(t, e), n + 1)
  {
    hide Next, EffectOf, CallOf, FetchAsset, ApplyAction, OwnerAfter, SnapshotOf, Printed;
    Performance(t, e);
    var c := EffectOf(t, e).call;
    AcceptedEvent(Presented(c, FetchAsset(t, c.assetId).value), AttemptOf(c, e.eventId));
  }

  // ---- A recovery that brings its own saved state ----

  function FreezeOf(a: string): Event {
    Event(Act(RequestOf(a, 0, None, None), Freeze), "e0", NoFault)
  }

  function RecoverTo(a: string, s: AssetState): Event {
    Event(Act(RequestOf(a, 1, Some(s), None), Recover), "e1", NoFault)
  }

  lemma CallOfFreeze(a: string)
    ensures var c := CallOf(FreezeOf(a).request);
            && c.Some? && c.value.assetId == a && c.value.action == Freeze && c.value.previous.None?
            && c.value.headers.key == KeyOf(0) && c.value.actor == PLATFORM && !c.value.brandBound
            && c.value.preparation == NotNeeded && Unset(FreezeOf(a)) && Audited(FreezeOf(a))
  {
    hide BuildRequestHash;
  }

  lemma CallOfRecover(a: string, s: AssetState)
    ensures var c := CallOf(RecoverTo(a, s).request);
            && c.Some? && c.value.assetId == a && c.value.action == Recover && c.value.previous == Some(s)
            && c.value.headers.key == KeyOf(1) && c.value.actor == PLATFORM && !c.value.brandBound
            && c.value.preparation == NotNeeded
  {
    hide BuildRequestHash;
  }

  lemma FreezePerformed(t: Tables, a: string)
    requires Fresh(t) && a in t.assets
    ensures var e := FreezeOf(a);
            && EffectOf(t, e).Performed? && CallOf(e.request) == Some(EffectOf(t, e).call)
            && FetchAsset(Next(t, e), a) == Ok(Minted(t, a).(current := Disputed, previous := Some(PreMinted)))
            && KeysBelow(Next(t, e), 1)
  {
    hide Next, EffectOf, FetchAsset, ApplyAction, CallOf;
    var e := FreezeOf(a);
    CallOfFreeze(a);
    FreshReads(t, a);
    PerformedIffAdmissible(t, e, CallOf(e.request).value);
    PerformedCallIs(t, e);
    Performance(t, e);
    PerformedReadsBack(t, e);
    FrozenRecord(Minted(t, a), AttemptOf(EffectOf(t, e).call, e.eventId));
    PerformedKeys(t, e, 0);
  }

  lemma OverridePerformed(t: Tables, a: string, s: AssetState)
    requires FetchAsset(t, a).Ok? && FetchAsset(t, a).value.current == Disputed && s.IsLive() && KeysBelow(t, 1)
    ensures var e := RecoverTo(a, s);
            && EffectOf(t, e).Performed? && EffectOf(t, e).call.action == Recover
            && EffectOf(t, e).call.assetId == a && EffectOf(t, e).call.previous == Some(s)
  {
    hide FetchAsset, CallOf;
    CallOfRecover(a, s);
  }

  lemma AfterFreeze(t: Tables, a: string)
    requires Fresh(t) && a in t.assets
    ensures var t1 := Next(t, FreezeOf(a));
            && Owned(t1, a) && ReplayHolds(Minted(t, a), t1, a)
            && a in t1.assets && t1.assets[a].owner.None?
            && FetchAsset(t1, a) == Ok(Minted(t, a).(current := Disputed, previous := Some(PreMinted)))
            && KeysBelow(t1, 1)
  {
    hide Next, EffectOf, FetchAsset, ApplyAction, CallOf, Owned, ReplayHolds, Fresh, Unset, Audited;
    CallOfFreeze(a);
    FreshReads(t, a);
    FreshReplay(t, a);
    FreezePerformed(t, a);
    StepKeepsOwned(t, FreezeOf(a), a);
    StepKeepsReplay(Minted(t, a), t, FreezeOf(a), a);
    FreezeKeepsNoOwner(t, a);
  }

  lemma OverrideArrives(t1: Tables, a: string, start: AssetRecord)
    requires a in t1.assets && t1.assets[a].owner.None? && KeysBelow(t1, 1)
    requires FetchAsset(t1, a) == Ok(start.(current := Disputed, previous := Some(PreMinted)))
    ensures var last := Next(t1, RecoverTo(a, LegallySold));
            && FetchAsset(last, a) == Ok(start.(current := LegallySold, previous := None))
            && a in last.assets && last.assets[a].owner.None?
  {
    hide Next, EffectOf, FetchAsset, ApplyAction, CallOf, RecoverTo;
    var e := RecoverTo(a, LegallySold);
    OverridePerformed(t1, a, LegallySold);
    Performance(t1, e);
    PerformedReadsBack(t1, e);
    PerformedOwner(t1, e);
    RecoveredTo(Presented(EffectOf(t1, e).call, FetchAsset(t1, a).value), AttemptOf(EffectOf(t1, e).call, e.eventId));
  }

  lemma OverrideBreaks(t1: Tables, a: string, start: AssetRecord)
    requires Owned(t1, a) && ReplayHolds(start, t1, a) && KeysBelow(t1, 1)
    requires FetchAsset(t1, a) == Ok(start.(current := Disputed, previous := Some(PreMinted)))
    ensures var last := Next(t1, RecoverTo(a, LegallySold));
            !Owned(last, a) && !ReplayHolds(start, last, a)
  {
    hide Next, EffectOf, FetchAsset, CallOf, ReplayHolds, Owned, RecoverTo;
    var e := RecoverTo(a, LegallySold);
    OverridePerformed(t1, a, LegallySold);
    OverriddenRecovery(t1, e);
    OverriddenReplay(start, t1, e);
  }

  /** A freshly minted asset is frozen and recovered to LegallySold: a sold asset without an owner, under a log that no
      longer replays. */
  lemma SoldWithoutOwner(t: Tables, a: string)
    requires Fresh(t) && a in t.assets
    ensures var events := [FreezeOf(a), RecoverTo(a, LegallySold)];
            var last := Run(t, events);
            && AllAudited(events)
            && FetchAsset(last, a) == Ok(Minted(t, a).(current := LegallySold))
            && a in last.assets && last.assets[a].owner.None?
            && !Owned(last, a) && !ReplayHolds(Minted(t, a), last, a)
  {
    hide Next, EffectOf, FetchAsset, CallOf, Owned, ReplayHolds, Fresh, KeysBelow;
    RunOfTwo(t, FreezeOf(a), RecoverTo(a, LegallySold));
    NotATransfer(FreezeOf(a));
    NotATransfer(RecoverTo(a, LegallySold));
    AfterFreeze(t, a);
    OverrideArrives(Next(t, FreezeOf(a)), a, Minted(t, a));
    OverrideBreaks(Next(t, FreezeOf(a)), a, Minted(t, a));
  }

  lemma NotATransfer(e: Event)
    requires !e.request.Move?
    ensures Audited(e) && Recorded(e)
  {
  }

  lemma RunOfTwo(t: Tables, e0: Event, e1: Event)
    ensures Run(t, [e0, e1]) == Next(Next(t, e0), e1)
  {
    hide Next;
    assert [e0, e1][..1] == [e0] && [e0][..0] == [];
    assert Run(t, [e0]) == Next(t, e0);
  }

  lemma FreezeKeepsNoOwner(t: Tables, a: string)
    requires Fresh(t) && a in t.assets && EffectOf(t, FreezeOf(a)).Performed?
    requires CallOf(FreezeOf(a).request) == Some(EffectOf(t, FreezeOf(a)).call)
    ensures a in Next(t, FreezeOf(a)).assets && Next(t, FreezeOf(a)).assets[a].owner.None?
  {
    hide Next, EffectOf, FetchAsset, ApplyAction, CallOf;
    var e := FreezeOf(a);
    CallOfFreeze(a);
    PerformedOwner(t, e);
    Performance(t, e);
    AcceptedEvent(Presented(EffectOf(t, e).call, FetchAsset(t, a).value), AttemptOf(EffectOf(t, e).call, e.eventId));
  }

  // ---- A transfer that loses its record ----

  /** The n-th step of an asset's way to its sale. */
  function StepTo(a: string, n: nat): Event
    requires n < |CHAIN|
  {
    var r := RequestOf(a, n, None, Some("buyer"));
    var request := match CHAIN[n]
                   case ActivateRotateKeys => Activate(ActivateRequest(a, PLATFORM, HeadersOf(n), "p"), Prepared("c"))
                   case ActivateEntangle => Entangle(r, Prepared("m"))
                   case action => Act(r, action);
    Event(request, "e", NoFault)
  }

  function StepsTo(a: string, n: nat): (events: seq<Event>)
    requires n <= |CHAIN|
    ensures |events| == n
  {
    if n == 0 then [] else StepsTo(a, n - 1) + [StepTo(a, n - 1)]
  }

  function StateAt(n: nat): AssetState
    requires n <= |CHAIN|
  {
    [PreMinted, FactoryLogged, Unassigned, RotatingKeys, EntangledPending, Activated, LegallySold][n]
  }

  lemma CallOfStep(a: string, n: nat)
    requires n < |CHAIN|
    ensures var e := StepTo(a, n);
            var c := CallOf(e.request);
            && c.Some? && c.value.assetId == a && c.value.action == CHAIN[n] && c.value.previous.None?
            && c.value.headers == HeadersOf(n) && c.value.actor == PLATFORM
            && !c.value.preparation.PreparationFails? && e.fault == NoFault
            && (CHAIN[n] == LegalSell ==> c.value.buyerId == Some("buyer"))
            && Unset(e) && Audited(e) && Recorded(e)
  {
    hide BuildRequestHash, ActivateRequestHash;
  }

  lemma StepAdmitted(record: AssetRecord, n: nat, context: AuditContext)
    requires n < |CHAIN| && record.current == StateAt(n)
    requires context.role == Platform && context.approvalId.Some?
    requires CHAIN[n] == LegalSell ==> context.buyerId.Some?
    ensures Sound(record) && Admissible(record, CHAIN[n], context)
    ensures NextState(record.current, CHAIN[n]) == Some(StateAt(n + 1))
  {
  }

  lemma AcceptedGoesTo(record: AssetRecord, a: Attempt, next: AssetState)
    requires Try(record, a).Ok? && a.action.IsBusiness() && NextState(record.current, a.action) == Some(next)
    requires next != Disputed
    ensures Try(record, a).value.record == record.(current := next, previous := None)
  {
  }

  /** The n-th stop on the way. */
  ghost predicate AtStop(start: AssetRecord, s: Tables, n: nat)
    requires n <= |CHAIN|
  {
    && FetchAsset(s, start.assetId) == Ok(start.(current := StateAt(n), previous := None))
    && KeysBelow(s, n)
    && (n == |CHAIN| ==> start.assetId in s.assets && s.assets[start.assetId].owner == Some("buyer"))
  }

  lemma StepIsPerformed(start: AssetRecord, s: Tables, n: nat)
    requires n < |CHAIN| && AtStop(start, s, n)
    ensures var e := StepTo(start.assetId, n);
            && EffectOf(s, e).Performed? && CallOf(e.request) == Some(EffectOf(s, e).call)
            && KeysBelow(Next(s, e), n + 1)
  {
    hide Next, EffectOf, FetchAsset, ApplyAction, CallOf, StepTo, StateAt, Admissible, NextStateWithPrevious;
    var e := StepTo(start.assetId, n);
    CallOfStep(start.assetId, n);
    var c := CallOf(e.request).value;
    FetchedNames(s, start.assetId);
    StepAdmitted(start.(current := StateAt(n), previous := None), n, ContextOf(c));
    PerformedIffAdmissible(s, e, c);
    PerformedCallIs(s, e);
    PerformedKeys(s, e, n);
  }

  lemma StepArrives(record: AssetRecord, c: Call, eventId: string, n: nat)
    requires n < |CHAIN| && record.current == StateAt(n) && c.action == CHAIN[n] && c.actor == PLATFORM
    requires c.headers == HeadersOf(n) && (CHAIN[n] == LegalSell ==> c.buyerId == Some("buyer"))
    requires Try(record, AttemptOf(c, eventId)).Ok?
    ensures var step := Try(record, AttemptOf(c, eventId)).value;
            && step.record == record.(current := StateAt(n + 1), previous := None)
            && (n + 1 == |CHAIN| ==> forall owner :: OwnerAfter(owner, step.event) == Some("buyer"))
  {
    hide ApplyAction, StateAt, NextStateWithPrevious, Admissible;
    StepAdmitted(record, n, ContextOf(c));
    StatesAreLive(n + 1);
    AcceptedGoesTo(record, AttemptOf(c, eventId), StateAt(n + 1));
    AcceptedEvent(record, AttemptOf(c, eventId));
  }

  lemma StepTaken(start: AssetRecord, s: Tables, n: nat)
    requires n < |CHAIN| && AtStop(start, s, n)
    ensures AtStop(start, Next(s, StepTo(start.assetId, n)), n + 1)
  {
    hide Next, EffectOf, FetchAsset, ApplyAction, CallOf, StepTo, StateAt, Admissible, KeysBelow, OwnerAfter;
    var e := StepTo(start.assetId, n);
    CallOfStep(start.assetId, n);
    StepIsPerformed(start, s, n);
    Performance(s, e);
    PerformedReadsBack(s, e);
    PerformedOwner(s, e);
    StepArrives(start.(current := StateAt(n), previous := None), EffectOf(s, e).call, e.eventId, n);
  }

  lemma {:induction false} OnTheWay(t: Tables, a: string, n: nat)
    requires Fresh(t) && a in t.assets && n <= |CHAIN|
    ensures AtStop(Minted(t, a), Run(t, StepsTo(a, n)), n)
  {
    hide Next, AtStop, StepTo;
    if n == 0 {
      FirstStop(t, a);
    } else {
      OnTheWay(t, a, n - 1);
      RunPlus(t, StepsTo(a, n - 1), StepTo(a, n - 1));
      StepTaken(Minted(t, a), Run(t, StepsTo(a, n - 1)), n - 1);
    }
  }

  lemma FirstStop(t: Tables, a: string)
    requires Fresh(t) && a in t.assets
    ensures AtStop(Minted(t, a), t, 0)
  {
    hide FetchAsset;
    FreshReads(t, a);
  }

  lemma {:induction false} StepsAreClean(a: string, n: nat)
    requires n <= |CHAIN|
    ensures AllUnset(StepsTo(a, n)) && AllAudited(StepsTo(a, n)) && AllRecorded(StepsTo(a, n))
  {
    hide StepTo, Unset, Audited, Recorded;
    if n > 0 {
      StepsAreClean(a, n - 1);
      CallOfStep(a, n - 1);
    }
  }

  lemma StatesAreLive(n: nat)
    requires n <= |CHAIN|
    ensures StateAt(n).IsLive()
  {
  }

  /** The buyer hands the asset on, and the transfer record is refused. */
  function LostTransfer(a: string): Event {
    Event(Move(TransferRequest(a, "friend", Actor("buyer", Consumer, None, None), HeadersOf(9), None, Ok(true))), "e",
          RecordRefused)
  }

  lemma LostTransferIsHanded(s: Tables, a: string)
    requires FetchAsset(s, a).Ok? && FetchAsset(s, a).value.current == LegallySold
    requires a in s.assets && s.assets[a].owner == Some("buyer")
    ensures var e := LostTransfer(a);
            && EffectOf(s, e).Handed? && EffectOf(s, e).move == e.request.move
            && EffectOf(s, e).handover == Handover(LegallySold, "buyer")
            && !Audited(e) && !Recorded(e) && Unset(e)
  {
    hide FetchAsset;
  }

  lemma DifferentNames()
    ensures "buyer" != "friend"
  {
    assert |"buyer"| != |"friend"|;
  }

  lemma SoldAtTheEnd(t: Tables, a: string)
    requires Fresh(t) && a in t.assets
    ensures var s := Run(t, StepsTo(a, |CHAIN|));
            && FetchAsset(s, a).Ok? && FetchAsset(s, a).value.current == LegallySold
            && a in s.assets && s.assets[a].owner == Some("buyer")
  {
    hide Run, FetchAsset, StateAt;
    OnTheWay(t, a, |CHAIN|);
    LastState();
  }

  /** From fresh tables: the six steps to a sale and one transfer whose record is refused. The asset's events no longer
      lead to its state, and its transfer records no longer lead to its owner. */
  lemma TransferThatBreaksBothChains(t: Tables, a: string)
    requires Fresh(t) && a in t.assets
    ensures var events := StepsTo(a, |CHAIN|) + [LostTransfer(a)];
            && AllUnset(events)
            && !ChainHolds(Run(t, events), a) && !ChainOfOwners(Run(t, events), Sales(t, events, a), a)
  {
    hide Next, EffectOf, FetchAsset, ApplyAction, CallOf, Fresh, Unset, Audited, Recorded, ChainHolds, ChainOfOwners,
         StepsTo, Run, Sales;
    var steps, e := StepsTo(a, |CHAIN|), LostTransfer(a);
    var s := Run(t, steps);
    SoldAtTheEnd(t, a);
    StepsAreClean(a, |CHAIN|);
    ChainAlways(t, steps, a);
    OwnershipChain(t, steps, a);
    LostTransferIsHanded(s, a);
    RunPlus(t, steps, e);
    HandedChain(s, e);
    DifferentNames();
    UnrecordedTransfer(s, e, Sales(t, steps, a));
    SalesPlus(t, steps, e, a);
  }

  lemma LastState()
    ensures StateAt(|CHAIN|) == LegallySold
  {
  }

  lemma SalesPlus(t: Tables, events: seq<Event>, e: Event, a: string)
    requires EffectOf(Run(t, events), e).Handed?
    ensures Sales(t, events + [e], a) == Sales(t, events, a)
  {
    hide EffectOf, Next;
    assert (events + [e])[..|events|] == events;
    assert Sales(t, events, a) + [] == Sales(t, events, a);
  }
}
