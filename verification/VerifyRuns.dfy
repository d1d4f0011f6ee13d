/** What the three counter levels guarantee over whole runs of one process serving verifications one at a time. */
module VerifyRuns {
  import opened Wrappers
  import opened MachineInts
  import opened CounterTiers
  import opened Verify

  datatype Event =
    | Verification(uid: string, ctr: Ctr24, tagOk: bool, c: Conditions)
    | EvictL2(uid: string)
    | Restart(redisOn: bool)

  function Play(t: Tiers, e: Event): Tiers {
    match e
    case Verification(uid, ctr, tagOk, c) => FullVerify(t, uid, ctr, tagOk, c).tiers
    case EvictL2(uid) => t.(l2 := t.l2 - {uid})
    case Restart(redisOn) => t.(redisOn := redisOn, l1 := map[])
  }

  function Run(t: Tiers, events: seq<Event>): Tiers {
    if events == [] then t
    else Play(Run(t, events[..|events| - 1]), events[|events| - 1])
  }

  predicate Accepts(t: Tiers, e: Event) {
    e.Verification? && FullVerify(t, e.uid, e.ctr, e.tagOk, e.c).accepted
  }

  /** The counters accepted for one tag, in order. */
  function AcceptedCtrs(t: Tiers, uid: string, events: seq<Event>): seq<Ctr24> {
    if events == [] then []
    else
      var n := |events| - 1;
      AcceptedCtrs(t, uid, events[..n])
      + (if Accepts(Run(t, events[..n]), events[n]) && events[n].uid == uid then [events[n].ctr] else [])
  }

  /** An answered verification reports a suspected replay in its status and its flags together, exactly when the counter
      is not above the previous counter it reports, and exactly when it has not accepted the counter. */
  lemma ReplayIsReportedConsistently(t: Tiers, uid: string, ctr: Ctr24, tagOk: bool, c: Conditions)
    requires FullVerify(t, uid, ctr, tagOk, c).response.Answer?
    ensures var v := FullVerify(t, uid, ctr, tagOk, c);
            var r := v.response;
            && (r.status == "replay_suspected" <==> "replay_suspected" in r.riskFlags)
            && (r.status == "replay_suspected" <==> r.previousCtr.Some? && ctr <= r.previousCtr.value)
            && (r.status == "replay_suspected" <==> !v.accepted)
  {
    hide Lookup, EvaluateStatus;
    var r := FullVerify(t, uid, ctr, tagOk, c).response;
    var replay := r.previousCtr.Some? && ctr <= r.previousCtr.value;
    var flags := EvaluateStatus(t.l3[uid].state).flags;
    NoReplayFlag(t.l3[uid].state);
    assert r.riskFlags == (if replay then ["replay_suspected"] else []) + flags;
    assert replay ==> r.riskFlags[0] == "replay_suspected";
  }

  lemma NoReplayFlag(state: string)
    ensures "replay_suspected" !in EvaluateStatus(state).flags
  {
  }

  // ---- Any conditions at all ----

  /** L2 <= L1 <= L3, skipping levels that hold nothing. */
  predicate Ordered(t: Tiers, uid: string) {
    && (uid in t.l1 ==> t.l1[uid].ctr <= Stored(t, uid))
    && (uid in t.l2 ==> t.l2[uid] <= Stored(t, uid))
    && (uid in t.l1 && uid in t.l2 ==> t.l2[uid] <= t.l1[uid].ctr)
  }

  /** A lookup never returns more than Postgres holds, leaves its answer in L1 and does not touch Postgres. */
  lemma LookupNeverAhead(t: Tiers, uid: string, c: Conditions)
    requires Ordered(t, uid)
    ensures var looked := Lookup(t, uid, c);
            && Ordered(looked.tiers, uid) && looked.tiers.l3 == t.l3
            && (looked.hit.Some? ==>
                  && looked.hit.value.ctr <= Stored(t, uid)
                  && uid in looked.tiers.l1 && looked.tiers.l1[uid].ctr == looked.hit.value.ctr)
  {
  }

  /** What the levels hold for one tag. */
  function Column(t: Tiers, uid: string): (Option<CtrEntry>, Option<U32>, Option<AssetRow>) {
    (if uid in t.l1 then Some(t.l1[uid]) else None,
     if uid in t.l2 then Some(t.l2[uid]) else None,
     if uid in t.l3 then Some(t.l3[uid]) else None)
  }

  lemma LookupTouchesNoOtherTag(t: Tiers, uid: string, other: string, c: Conditions)
    requires other != uid
    ensures var t' := Lookup(t, uid, c).tiers;
            Column(t', other) == Column(t, other) && t'.redisOn == t.redisOn && t'.l3 == t.l3
  {
    hide Stored;
  }

  /** A verification touches no other tag at any level. */
  lemma OtherTagsUntouched(t: Tiers, uid: string, other: string, ctr: Ctr24, tagOk: bool, c: Conditions)
    requires other != uid
    ensures var t' := FullVerify(t, uid, ctr, tagOk, c).tiers;
            Column(t', other) == Column(t, other) && t'.redisOn == t.redisOn
  {
    hide Lookup, Report;
    LookupTouchesNoOtherTag(t, uid, other, c);
  }

  lemma VerificationKeepsOrder(t: Tiers, uid: string, ctr: Ctr24, tagOk: bool, c: Conditions)
    requires Ordered(t, uid)
    ensures Ordered(FullVerify(t, uid, ctr, tagOk, c).tiers, uid)
  {
    hide Lookup, Report;
    LookupNeverAhead(t, uid, c);
  }

  lemma StepKeepsOrder(t: Tiers, uid: string, e: Event)
    requires Ordered(t, uid)
    ensures Ordered(Play(t, e), uid)
  {
    hide FullVerify;
    if e.Verification? {
      if e.uid == uid {
        VerificationKeepsOrder(t, uid, e.ctr, e.tagOk, e.c);
      } else {
        OtherTagsUntouched(t, e.uid, uid, e.ctr, e.tagOk, e.c);
        assert Column(Play(t, e), uid) == Column(t, uid);
      }
    }
  }

  /** Whatever expires, is evicted, restarts or fails, in every reachable state L2 <= L1 <= L3. */
  lemma {:induction false} OrderAlways(t: Tiers, uid: string, events: seq<Event>)
    requires Ordered(t, uid)
    ensures Ordered(Run(t, events), uid)
  {
    if events != [] {
      OrderAlways(t, uid, events[..|events| - 1]);
      StepKeepsOrder(Run(t, events[..|events| - 1]), uid, events[|events| - 1]);
    }
  }

  // ---- When the levels agree ----

  /** From a moment on, every level the process would consult agrees with Postgres; an L1 entry that has expired by then is
      never consulted again. */
  predicate Synced(t: Tiers, uid: string, from: nat) {
    && (uid in t.l1 && IsFresh(t.l1[uid], from) ==> t.l1[uid].ctr == Stored(t, uid))
    && (t.redisOn && uid in t.l2 ==> t.l2[uid] == Stored(t, uid))
  }

  /** No write is lost that the caches depend on: the row update is not left unconfirmed, and with Redis in use the new
      counter reaches it. Lost back-fills, failed reads, expiry and eviction are all allowed. */
  predicate Calm(t: Tiers, e: Event) {
    match e
    case Verification(_, _, _, c) => c.rowWrite != WrittenUnconfirmed && (t.redisOn ==> c.l2Updates)
    case EvictL2(_) => true
    case Restart(redisOn) => redisOn == t.redisOn
  }

  predicate NotBefore(e: Event, from: nat) {
    e.Verification? ==> e.c.now >= from
  }

  predicate CalmRun(t: Tiers, events: seq<Event>, from: nat) {
    forall k :: 0 <= k < |events| ==> Calm(t, events[k]) && NotBefore(events[k], from)
  }

  /** The specification without caches: a counter is refused when it is not above a non-zero stored one. */
  predicate DirectlyAccepted(stored: U32, ctr: Ctr24) {
    stored == 0 || ctr > stored
  }

  lemma SyncedLookup(t: Tiers, uid: string, from: nat, c: Conditions)
    requires Synced(t, uid, from) && c.now >= from
    ensures var looked := Lookup(t, uid, c);
            && Synced(looked.tiers, uid, from) && looked.tiers.l3 == t.l3 && looked.tiers.redisOn == t.redisOn
            && (looked.hit.Some? ==> looked.hit.value.ctr == Stored(t, uid))
  {
  }

  /** One verification on agreeing levels decides as Postgres alone would, and changes Postgres exactly if it accepts, even
      where it then fails to answer. */
  lemma RefinesDirectVerification(t: Tiers, uid: string, from: nat, ctr: Ctr24, tagOk: bool, c: Conditions)
    requires Synced(t, uid, from) && c.now >= from && Calm(t, Verification(uid, ctr, tagOk, c))
    ensures var v := FullVerify(t, uid, ctr, tagOk, c);
            && Synced(v.tiers, uid, from) && v.tiers.redisOn == t.redisOn
            && (v.accepted ==> uid in t.l3 && tagOk && DirectlyAccepted(Stored(t, uid), ctr))
            && v.tiers.l3 == (if v.accepted then t.l3[uid := t.l3[uid].(lastVerifiedCtr := Some(ctr))] else t.l3)
            && (v.response.Answer? ==>
                  && uid in t.l3 && tagOk
                  && (v.accepted <==> DirectlyAccepted(Stored(t, uid), ctr))
                  && v.response.previousCtr == (if Stored(t, uid) == 0 then None else Some(Stored(t, uid))))
  {
    hide Lookup, EvaluateStatus, Status;
    SyncedLookup(t, uid, from, c);
  }

  /** A counter is spent without an answer exactly when its attestation summary cannot be built: the same message is then
      a suspected replay, whatever the conditions of the second attempt. */
  lemma UnansweredCounterIsSpent(t: Tiers, uid: string, ctr: Ctr24, tagOk: bool, c: Conditions, again: Conditions)
    requires Synced(t, uid, c.now) && Calm(t, Verification(uid, ctr, tagOk, c))
    requires FullVerify(t, uid, ctr, tagOk, c).accepted
    ensures FullVerify(t, uid, ctr, tagOk, c).response.Answer? <==> c.format != V2(None)
    ensures var t' := FullVerify(t, uid, ctr, tagOk, c).tiers;
            ctr > 0 && again.now >= c.now && again.rowWrite != WrittenUnconfirmed && (t'.redisOn ==> again.l2Updates) ==>
              var second := FullVerify(t', uid, ctr, tagOk, again);
              !second.accepted && (second.response.Answer? ==> second.response.status == "replay_suspected")
  {
    hide Lookup, EvaluateStatus, FullVerify;
    RefinesDirectVerification(t, uid, c.now, ctr, tagOk, c);
    AnsweredUnlessSummaryFails(t, uid, ctr, tagOk, c);
    var t' := FullVerify(t, uid, ctr, tagOk, c).tiers;
    if ctr > 0 && again.now >= c.now && again.rowWrite != WrittenUnconfirmed && (t'.redisOn ==> again.l2Updates) {
      RefinesDirectVerification(t', uid, c.now, ctr, tagOk, again);
      if FullVerify(t', uid, ctr, tagOk, again).response.Answer? {
        ReplayIsReportedConsistently(t', uid, ctr, tagOk, again);
      }
    }
  }

  lemma AnsweredUnlessSummaryFails(t: Tiers, uid: string, ctr: Ctr24, tagOk: bool, c: Conditions)
    requires FullVerify(t, uid, ctr, tagOk, c).accepted
    ensures FullVerify(t, uid, ctr, tagOk, c).response.Answer? <==> c.format != V2(None)
  {
    hide Lookup, EvaluateStatus;
  }

  lemma StepKeepsSynced(t: Tiers, uid: string, from: nat, e: Event)
    requires Synced(t, uid, from) && Calm(t, e) && NotBefore(e, from)
    ensures Synced(Play(t, e), uid, from) && Play(t, e).redisOn == t.redisOn
    ensures Stored(Play(t, e), uid) == if Accepts(t, e) && e.uid == uid then e.ctr else Stored(t, uid)
    ensures Accepts(t, e) && e.uid == uid ==> DirectlyAccepted(Stored(t, uid), e.ctr)
  {
    hide FullVerify;
    if e.Verification? {
      if e.uid == uid {
        RefinesDirectVerification(t, uid, from, e.ctr, e.tagOk, e.c);
      } else {
        OtherTagsUntouched(t, e.uid, uid, e.ctr, e.tagOk, e.c);
        assert Column(Play(t, e), uid) == Column(t, uid);
      }
    }
  }

  /** Strictly rising, except that 0 may repeat while it is all that was seen. */
  predicate Rising(ctrs: seq<Ctr24>) {
    forall i, j :: 0 <= i < j < |ctrs| ==> ctrs[i] < ctrs[j] || (ctrs[i] == 0 && ctrs[j] == 0)
  }

  /** The accepted counters rise, all above what was stored at the start, and the last of them is what is stored now. */
  predicate Tracks(ctrs: seq<Ctr24>, initially: U32, now: U32) {
    && Rising(ctrs)
    && (forall i :: 0 <= i < |ctrs| ==> initially == 0 || initially < ctrs[i])
    && now == (if ctrs == [] then initially else ctrs[|ctrs| - 1])
  }

  lemma TracksAppend(ctrs: seq<Ctr24>, initially: U32, now: U32, next: Ctr24)
    requires Tracks(ctrs, initially, now) && DirectlyAccepted(now, next)
    ensures Tracks(ctrs + [next], initially, next)
  {
    forall i, j | 0 <= i < j < |ctrs| + 1
      ensures (ctrs + [next])[i] < (ctrs + [next])[j] || ((ctrs + [next])[i] == 0 && (ctrs + [next])[j] == 0)
    {
      if j == |ctrs| && i < j - 1 {
        assert ctrs[i] < ctrs[j - 1] || ctrs[i] == ctrs[j - 1] == 0;
      }
    }
  }

  lemma CalmDependsOnlyOnRedis(t: Tiers, t': Tiers, e: Event)
    requires t.redisOn == t'.redisOn
    ensures Calm(t, e) == Calm(t', e)
  {
  }

  /** Over any calm run the caches are invisible: the accepted counters track Postgres. */
  lemma {:induction false} AcceptedCountersRise(t: Tiers, uid: string, from: nat, events: seq<Event>)
    requires Synced(t, uid, from) && CalmRun(t, events, from)
    ensures Synced(Run(t, events), uid, from) && Run(t, events).redisOn == t.redisOn
    ensures Tracks(AcceptedCtrs(t, uid, events), Stored(t, uid), Stored(Run(t, events), uid))
  {
    if events != [] {
      hide Play, Accepts, Synced, Tracks, Stored, Calm;
      var n := |events| - 1;
      var before, earlier := Run(t, events[..n]), AcceptedCtrs(t, uid, events[..n]);
      AcceptedCountersRise(t, uid, from, events[..n]);
      CalmDependsOnlyOnRedis(t, before, events[n]);
      StepKeepsSynced(before, uid, from, events[n]);
      if Accepts(before, events[n]) && events[n].uid == uid {
        TracksAppend(earlier, Stored(t, uid), Stored(before, uid), events[n].ctr);
      } else {
        assert earlier + [] == earlier;
      }
    }
  }

  /** How agreement is restored after a lost write: by a restart without Redis, or with the tag evicted from it. */
  lemma RestartResyncs(t: Tiers, uid: string, from: nat)
    ensures Synced(Play(t, Restart(false)), uid, from)
    ensures Synced(Play(Play(t, EvictL2(uid)), Restart(true)), uid, from)
    ensures Play(t, Restart(false)).l3 == Play(Play(t, EvictL2(uid)), Restart(true)).l3 == t.l3
  {
  }

  // ---- Exactly when replays are caught ----

  /** The next verification from that moment on, under whatever conditions, accepts no counter that is not above a non-zero
      stored one. */
  ghost predicate NextReplaySafe(t: Tiers, uid: string, from: nat) {
    forall ctr: Ctr24, c: Conditions ::
      c.now >= from && Accepts(t, Verification(uid, ctr, true, c)) ==> DirectlyAccepted(Stored(t, uid), ctr)
  }

  /** No verification of the run accepts a counter that is not above a non-zero one stored at the time. */
  predicate NoReplayAccepted(t: Tiers, uid: string, events: seq<Event>) {
    forall k :: 0 <= k < |events| && Accepts(Run(t, events[..k]), events[k]) && events[k].uid == uid ==>
      DirectlyAccepted(Stored(Run(t, events[..k]), uid), events[k].ctr)
  }

  ghost predicate RunsReplaySafe(t: Tiers, uid: string, from: nat) {
    forall events: seq<Event> :: CalmRun(t, events, from) ==> NoReplayAccepted(t, uid, events)
  }

  const CLEAR: Conditions := Conditions(0, true, true, true, true, true, Written, true, V1)

  /** A lookup can be made to answer from L1 while the entry is fresh, and from L2 once it has expired. */
  lemma EveryLevelCanServe(t: Tiers, uid: string, from: nat)
    ensures uid in t.l1 && IsFresh(t.l1[uid], from) ==>
              Lookup(t, uid, CLEAR.(now := from)).hit == Some(Hit(t.l1[uid].ctr, FromL1))
    ensures t.redisOn && uid in t.l2 ==>
              && WhenL1Expired(t, uid, from) >= from
              && Lookup(t, uid, CLEAR.(now := WhenL1Expired(t, uid, from))).hit == Some(Hit(t.l2[uid], FromL2))
  {
  }

  function WhenL1Expired(t: Tiers, uid: string, from: nat): nat {
    if uid in t.l1 && IsFresh(t.l1[uid], from) then t.l1[uid].cachedAt + L1_TTL else from
  }

  /** A request under otherwise perfect conditions that replays a counter. */
  lemma StaleAnswerAcceptsReplay(t: Tiers, uid: string, c: Conditions) returns (ctr: Ctr24)
    requires Ordered(t, uid) && uid in t.l3 && c == CLEAR.(now := c.now)
    requires var hit := Lookup(t, uid, c).hit; hit.Some? && hit.value.ctr < Stored(t, uid)
    requires Stored(t, uid) < TWO_TO_24
    ensures Accepts(t, Verification(uid, ctr, true, c)) && !DirectlyAccepted(Stored(t, uid), ctr)
  {
    var cached := Lookup(t, uid, c).hit.value.ctr;
    ctr := if cached == 0 then 0 else cached + 1;
    LookupNeverAhead(t, uid, c);
    hide Lookup;
  }

  /** Where the levels disagree, such a request can be made. */
  lemma StaleLevelsAcceptReplay(t: Tiers, uid: string, from: nat) returns (ctr: Ctr24, c: Conditions)
    requires Ordered(t, uid) && uid in t.l3 && Stored(t, uid) < TWO_TO_24 && !Synced(t, uid, from)
    ensures c == CLEAR.(now := c.now) && c.now >= from
    ensures Accepts(t, Verification(uid, ctr, true, c)) && !DirectlyAccepted(Stored(t, uid), ctr)
  {
    EveryLevelCanServe(t, uid, from);
    if uid in t.l1 && IsFresh(t.l1[uid], from) && t.l1[uid].ctr != Stored(t, uid) {
      c := CLEAR.(now := from);
    } else {
      c := CLEAR.(now := WhenL1Expired(t, uid, from));
    }
    ctr := StaleAnswerAcceptsReplay(t, uid, c);
  }

  /** From any moment on, the next verification catches a replay, whatever the conditions, if and only if every level still
      consulted agrees with Postgres. */
  lemma ReplaySafeIffSynced(t: Tiers, uid: string, from: nat)
    requires Ordered(t, uid) && uid in t.l3 && Stored(t, uid) < TWO_TO_24
    ensures NextReplaySafe(t, uid, from) <==> Synced(t, uid, from)
  {
    if Synced(t, uid, from) {
      forall ctr: Ctr24, c: Conditions | c.now >= from && Accepts(t, Verification(uid, ctr, true, c))
        ensures DirectlyAccepted(Stored(t, uid), ctr)
      {
        hide Lookup, Stored, EvaluateStatus, Status;
        SyncedLookup(t, uid, from, c);
      }
    } else {
      var ctr, c := StaleLevelsAcceptReplay(t, uid, from);
    }
  }

  lemma CalmRunAcceptsNoReplay(t: Tiers, uid: string, from: nat, events: seq<Event>, k: nat)
    requires Synced(t, uid, from) && CalmRun(t, events, from) && k < |events|
    requires Accepts(Run(t, events[..k]), events[k]) && events[k].uid == uid
    ensures DirectlyAccepted(Stored(Run(t, events[..k]), uid), events[k].ctr)
  {
    hide Play, Accepts, Synced, Tracks, Stored, Calm;
    AcceptedCountersRise(t, uid, from, events[..k]);
    CalmDependsOnlyOnRedis(t, Run(t, events[..k]), events[k]);
    StepKeepsSynced(Run(t, events[..k]), uid, from, events[k]);
  }

  /** And every replay in every calm run from then on is caught under exactly the same condition. */
  lemma RunsReplaySafeIffSynced(t: Tiers, uid: string, from: nat)
    requires Ordered(t, uid) && uid in t.l3 && Stored(t, uid) < TWO_TO_24
    ensures RunsReplaySafe(t, uid, from) <==> Synced(t, uid, from)
  {
    if Synced(t, uid, from) {
      hide Synced, Play, Accepts, Stored, Calm;
      forall events: seq<Event> | CalmRun(t, events, from)
        ensures NoReplayAccepted(t, uid, events)
      {
        forall k | 0 <= k < |events| && Accepts(Run(t, events[..k]), events[k]) && events[k].uid == uid
          ensures DirectlyAccepted(Stored(Run(t, events[..k]), uid), events[k].ctr)
        {
          CalmRunAcceptsNoReplay(t, uid, from, events, k);
        }
      }
    } else {
      var ctr, c := StaleLevelsAcceptReplay(t, uid, from);
      hide Synced, FullVerify, Stored, DirectlyAccepted;
      var events := [Verification(uid, ctr, true, c)];
      assert CalmRun(t, events, from);
      assert events[..0] == [] && Run(t, events[..0]) == t;
      assert !NoReplayAccepted(t, uid, events);
    }
  }

  /** An expired entry may be behind without harm: only what is still consulted counts. */
  lemma ExpiredEntryIsHarmless(uid: string, now: nat)
    requires now >= L1_TTL
    ensures var t := Levels(uid, 5, 0, 10, 10).(l2 := map[]);
            Ordered(t, uid) && t.l1[uid].ctr < Stored(t, uid) && NextReplaySafe(t, uid, now) && RunsReplaySafe(t, uid, now)
  {
    ReplaySafeIffSynced(Levels(uid, 5, 0, 10, 10).(l2 := map[]), uid, now);
    RunsReplaySafeIffSynced(Levels(uid, 5, 0, 10, 10).(l2 := map[]), uid, now);
  }

  /** The levels when a single tag is known to all of them. */
  function Levels(uid: string, l1: U32, since: nat, l2: U32, l3: I32): Tiers {
    Tiers(true, map[uid := CtrEntry(l1, since)], map[uid := l2], map[uid := AssetRow("Activated", Some(l3))])
  }

  lemma CounterTenLosesItsRedisWrite(uid: string)
    ensures var e := Verification(uid, 10, true, CLEAR.(l2Updates := false));
            Play(Levels(uid, 5, 0, 5, 5), e) == Levels(uid, 10, 0, 5, 10) && Accepts(Levels(uid, 5, 0, 5, 5), e)
  {
  }

  lemma CounterSevenIsAccepted(uid: string)
    ensures var t, e := Levels(uid, 10, 0, 5, 10), Verification(uid, 7, true, CLEAR.(now := L1_TTL));
            Stored(Play(t, e), uid) == 7 && Accepts(t, e)
  {
  }

  /**
   A run from agreeing levels in which the Redis write of counter 10 is lost: once L1 has expired, counter 7 is accepted
   after counter 10 and Postgres moves backwards.
   */
  lemma LostWriteLetsCounterFall(uid: string)
    ensures var t := Levels(uid, 5, 0, 5, 5);
            var events := [Verification(uid, 10, true, CLEAR.(l2Updates := false)),
                           Verification(uid, 7, true, CLEAR.(now := L1_TTL))];
            && Synced(t, uid, 0)
            && AcceptedCtrs(t, uid, events) == [10, 7]
            && Stored(Run(t, events[..1]), uid) == 10 && Stored(Run(t, events), uid) == 7
  {
    var t := Levels(uid, 5, 0, 5, 5);
    var e1 := Verification(uid, 10, true, CLEAR.(l2Updates := false));
    var e2 := Verification(uid, 7, true, CLEAR.(now := L1_TTL));
    var t1 := Levels(uid, 10, 0, 5, 10);
    hide FullVerify;
    CounterTenLosesItsRedisWrite(uid);
    CounterSevenIsAccepted(uid);
    assert [e1, e2][..1] == [e1] && [e1][..0] == [];
    assert Run(t, [e1]) == t1 && AcceptedCtrs(t, uid, [e1]) == [10];
  }
}
