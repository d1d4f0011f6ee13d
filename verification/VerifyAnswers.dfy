/** What a verification answers, in terms of the asset's lifecycle state, and what it leaves at each counter level. */
module VerifyAnswers {
  import opened Wrappers
  import opened MachineInts
  import opened AssetTypes
  import opened CounterTiers
  import opened Verify

  /** The states in which an asset is shown as restricted. */
  predicate IsRestricted(s: AssetState) {
    s.Disputed? || s.Tampered? || s.Compromised? || s.Destructed?
  }

  lemma DisplayOfState(s: AssetState)
    ensures EvaluateStatus(s.AsDbStr()).status == "restricted" <==> IsRestricted(s)
    ensures forall flag :: flag in EvaluateStatus(s.AsDbStr()).flags <==> s.Disputed? && flag == "frozen_asset"
  {
    assert EvaluateStatus(s.AsDbStr()).flags == if s.Disputed? then ["frozen_asset"] else [];
  }

  lemma ReportOfState(s: AssetState, row: AssetRow, ctr: Ctr24, cached: U32, format: Format)
    requires row.state == s.AsDbStr() && Report(row, ctr, cached, format).Answer?
    ensures var r := Report(row, ctr, cached, format);
            && r.ctr == ctr
            && (r.status == "replay_suspected" <==> cached > 0 && ctr <= cached)
            && (r.previousCtr == if cached == 0 then None else Some(cached))
            && (forall flag :: flag in r.riskFlags <==>
                  || (s.Disputed? && flag == "frozen_asset")
                  || (r.status == "replay_suspected" && flag == "replay_suspected"))
    ensures var r := Report(row, ctr, cached, format);
            match format
            case V1 => r.status != "replay_suspected" ==> r.status == if IsRestricted(s) then "restricted" else "verified"
            case V2(summary) =>
              && summary.Some?
              && (r.status != "replay_suspected" ==>
                    r.status == if summary.value.brand == "valid" && summary.value.platform == "valid"
                                then if IsRestricted(s) then "restricted" else "authentic"
                                else "incomplete_attestation")
  {
    hide EvaluateStatus;
    DisplayOfState(s);
    var replay := if IsReplay(ctr, cached) then ["replay_suspected"] else [];
    assert Report(row, ctr, cached, format).riskFlags == replay + EvaluateStatus(row.state).flags;
    assert forall flag :: flag in replay <==> IsReplay(ctr, cached) && flag == "replay_suspected";
  }

  /**
   What is shown of an asset in a given state. Once its counter is accepted, a disputed, tampered, compromised or
   destructed asset is never shown as verified or authentic, and any other one always is, as long as its attestations are
   valid where the format asks for them. A freeze is flagged, and nothing but a freeze or a replay is.
   */
  lemma ShownStatus(s: AssetState, t: Tiers, uid: string, ctr: Ctr24, tagOk: bool, c: Conditions)
    requires uid in t.l3 && t.l3[uid].state == s.AsDbStr()
    requires FullVerify(t, uid, ctr, tagOk, c).response.Answer?
    ensures var v := FullVerify(t, uid, ctr, tagOk, c);
            var r := v.response;
            && r.ctr == ctr
            && ("frozen_asset" in r.riskFlags <==> s.Disputed?)
            && (forall flag | flag in r.riskFlags :: flag == "frozen_asset" || flag == "replay_suspected")
            && (if !v.accepted then r.status == "replay_suspected"
                else
                  var restricted := s.Disputed? || s.Tampered? || s.Compromised? || s.Destructed?;
                  match c.format
                  case V1 => r.status == if restricted then "restricted" else "verified"
                  case V2(summary) =>
                    summary.Some? &&
                    r.status == if summary.value.brand == "valid" && summary.value.platform == "valid"
                                then if restricted then "restricted" else "authentic"
                                else "incomplete_attestation")
  {
    hide Lookup, Report, WithL1, WithL2, WithRow;
    ReportOfState(s, t.l3[uid], ctr, Lookup(t, uid, c).hit.value.ctr, c.format);
  }

  /** A tag that is not registered, a message that does not authenticate, and every error; the first two leave all levels as
      they are. */
  lemma WhyNotAnswered(t: Tiers, uid: string, ctr: Ctr24, tagOk: bool, c: Conditions)
    ensures var v := FullVerify(t, uid, ctr, tagOk, c);
            && (v.response == UnknownTag <==> c.assetReads && uid !in t.l3)
            && (v.response == AuthenticationFailed <==> c.assetReads && uid in t.l3 && c.keyDerives && !tagOk)
            && (v.response.UnknownTag? || v.response.AuthenticationFailed? || !tagOk ==> v.tiers == t && !v.accepted)
    ensures var v := FullVerify(t, uid, ctr, tagOk, c);
            var hit := Lookup(t, uid, c).hit;
            v.response == ServerError <==>
              || !c.assetReads
              || (uid in t.l3 && !c.keyDerives)
              || (uid in t.l3 && tagOk
                  && (|| hit.None?
                      || c.format == V2(None)
                      || (c.rowWrite != Written && (hit.value.ctr == 0 || ctr > hit.value.ctr))))
  {
    hide Lookup, EvaluateStatus, WithL1, WithL2, WithRow;
    LookupKeepsRows(t, uid, c);
  }

  lemma LookupKeepsRows(t: Tiers, uid: string, c: Conditions)
    ensures Lookup(t, uid, c).tiers.l3 == t.l3 && Lookup(t, uid, c).tiers.redisOn == t.redisOn
  {
  }

  /** The signed value in the row, 0 if there is none. */
  function InRow(t: Tiers, uid: string): int {
    if uid in t.l3 && t.l3[uid].lastVerifiedCtr.Some? then t.l3[uid].lastVerifiedCtr.value else 0
  }

  /** Where a looked-up counter comes from: an entry less than five minutes old, then Redis, then the row. What was found
      below L1 is put there, and what was found in the row is also offered to Redis. */
  lemma WhereAnswersComeFrom(t: Tiers, uid: string, c: Conditions)
    ensures var looked := Lookup(t, uid, c);
            var recent := uid in t.l1 && c.now < t.l1[uid].cachedAt + 300_000_000_000;
            var redis := t.redisOn && c.l2Reads && uid in t.l2;
            && (looked.hit.None? <==> !recent && !redis && !c.l3Reads)
            && looked.tiers.l3 == t.l3 && looked.tiers.redisOn == t.redisOn
            && (recent ==> looked.hit.value.ctr == t.l1[uid].ctr && looked.tiers == t)
            && (!recent && redis ==> looked.hit.value.ctr == t.l2[uid] && looked.tiers.l2 == t.l2)
            && (!recent && !redis && c.l3Reads ==>
                  && (looked.hit.value.ctr - InRow(t, uid)) % 0x1_0000_0000 == 0
                  && looked.tiers.l2 == if t.redisOn && c.l2Backfills then t.l2[uid := looked.hit.value.ctr] else t.l2)
            && (!recent && looked.hit.Some? ==>
                  && uid in looked.tiers.l1 && looked.tiers.l1[uid] == CtrEntry(looked.hit.value.ctr, c.now))
            && (looked.hit.None? ==> uid !in looked.tiers.l1 && looked.tiers.l2 == t.l2)
  {
  }

  /** Exactly when a counter is accepted: the message is authentic, the counter looked up is absent or lower, and the row
      is known to be updated. */
  lemma AcceptedIff(t: Tiers, uid: string, ctr: Ctr24, tagOk: bool, c: Conditions)
    ensures FullVerify(t, uid, ctr, tagOk, c).accepted <==>
              && c.assetReads && uid in t.l3 && c.keyDerives && tagOk
              && Lookup(t, uid, c).hit.Some?
              && (Lookup(t, uid, c).hit.value.ctr == 0 || Lookup(t, uid, c).hit.value.ctr < ctr)
              && c.rowWrite == Written
  {
    hide Lookup, Report, WithL1, WithL2, WithRow;
    LookupKeepsRows(t, uid, c);
  }

  /** An accepted counter is in the row and in L1 from then on, and in Redis if it is in use and the write gets through; a
      row changes otherwise only where its update is not heard of. */
  lemma AcceptanceReachesEveryLevel(t: Tiers, uid: string, ctr: Ctr24, tagOk: bool, c: Conditions)
    ensures var v := FullVerify(t, uid, ctr, tagOk, c);
            if v.accepted then
              && uid in t.l3
              && v.tiers.l3 == t.l3[uid := t.l3[uid].(lastVerifiedCtr := Some(ctr))]
              && uid in v.tiers.l1 && v.tiers.l1[uid] == CtrEntry(ctr, c.now)
              && (t.redisOn && c.l2Updates ==> uid in v.tiers.l2 && v.tiers.l2[uid] == ctr)
            else
              v.tiers.l3 != t.l3 ==>
                && uid in t.l3 && tagOk && c.rowWrite == WrittenUnconfirmed && v.response == ServerError
                && v.tiers.l3 == t.l3[uid := t.l3[uid].(lastVerifiedCtr := Some(ctr))]
  {
    hide Lookup, Report;
    LookupKeepsRows(t, uid, c);
  }
}
