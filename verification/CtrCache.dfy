/**
 The replay counter of an asset tag behind three levels of storage: an in-process map with a time to live (L1), Redis
 written on a best-effort basis (L2) and the `last_verified_ctr` column in Postgres (L3).
 */
module CounterTiers {
  import opened Wrappers
  import opened MachineInts

  /** Five minutes, in nanoseconds. */
  const L1_TTL: nat := 300_000_000_000

  datatype CtrEntry = CtrEntry(ctr: U32, cachedAt: nat)

  datatype CtrSource = FromL1 | FromL2 | FromL3

  datatype Hit = Hit(ctr: U32, source: CtrSource)

  /** The columns of an asset the verify path reads; the table is keyed by the unique `uid`. */
  datatype AssetRow = AssetRow(state: string, lastVerifiedCtr: Option<I32>)

  datatype Tiers = Tiers(redisOn: bool, l1: map<string, CtrEntry>, l2: map<string, U32>, l3: map<string, AssetRow>)

  /** The outcome of the row update, which can also be applied without the handler getting to hear of it. */
  datatype RowWrite = Written | Refused | WrittenUnconfirmed

  /** The attestations of an asset, as the second response format reports them. */
  datatype Summary = Summary(brand: string, platform: string)

  /** The response format asked for; for the second, the attestation summary is built last and can fail. */
  datatype Format = V1 | V2(summary: Option<Summary>)

  /** Everything that varies from one request to the next besides the message: the clock, which reads, derivations and
      writes get through, and the response format. */
  datatype Conditions = Conditions(
    now: nat, assetReads: bool, keyDerives: bool, l2Reads: bool, l3Reads: bool, l2Backfills: bool,
    rowWrite: RowWrite, l2Updates: bool, format: Format)

  predicate IsFresh(entry: CtrEntry, now: nat) {
    now - entry.cachedAt < L1_TTL
  }

  /** What Postgres holds for a tag; no row and NULL both read as 0. */
  function Stored(t: Tiers, uid: string): U32 {
    AsU32(if uid in t.l3 then t.l3[uid].lastVerifiedCtr.GetOr(0) else 0)
  }

  function WithL1(t: Tiers, uid: string, ctr: U32, now: nat): Tiers {
    t.(l1 := t.l1[uid := CtrEntry(ctr, now)])
  }

  function WithL2(t: Tiers, uid: string, ctr: U32, lands: bool): Tiers {
    if t.redisOn && lands then t.(l2 := t.l2[uid := ctr]) else t
  }

  function WithRow(t: Tiers, uid: string, ctr: I32): Tiers
    requires uid in t.l3
  {
    t.(l3 := t.l3[uid := t.l3[uid].(lastVerifiedCtr := Some(ctr))])
  }

  datatype Looked = Looked(tiers: Tiers, hit: Option<Hit>)

  /** The value looked up and where it came from, with the levels as they are afterwards; fails only if L3 does. */
  function Lookup(t: Tiers, uid: string, c: Conditions): Looked {
    if uid in t.l1 && IsFresh(t.l1[uid], c.now) then
      Looked(t, Some(Hit(t.l1[uid].ctr, FromL1)))
    else
      var t1 := t.(l1 := t.l1 - {uid});
      if t1.redisOn && c.l2Reads && uid in t1.l2 then
        Looked(WithL1(t1, uid, t1.l2[uid], c.now), Some(Hit(t1.l2[uid], FromL2)))
      else if !c.l3Reads then
        Looked(t1, None)
      else
        var ctr := Stored(t1, uid);
        Looked(WithL2(WithL1(t1, uid, ctr, c.now), uid, ctr, c.l2Backfills), Some(Hit(ctr, FromL3)))
  }

  datatype FallbackStrategy = Auto | DirectPg

  class CtrCache {
    var l1: map<string, CtrEntry>
    var l2: map<string, U32>
    var l3: map<string, AssetRow>
    const redisConnected: bool
    const strategy: FallbackStrategy

    constructor (redisConnected: bool, strategy: FallbackStrategy, l2: map<string, U32>, l3: map<string, AssetRow>)
      ensures this.redisConnected == redisConnected && this.strategy == strategy
      ensures this.l1 == map[] && this.l2 == l2 && this.l3 == l3
    {
      this.redisConnected, this.strategy := redisConnected, strategy;
      this.l1, this.l2, this.l3 := map[], l2, l3;
    }

    predicate RedisAvailable() {
      redisConnected && strategy != DirectPg
    }

    function View(): Tiers
      reads this
    {
      Tiers(RedisAvailable(), l1, l2, l3)
    }

    method GetCtr(uid: string, c: Conditions) returns (r: Option<Hit>)
      modifies this`l1, this`l2
      ensures Looked(View(), r) == Lookup(old(View()), uid, c)
    {
      if uid in l1 {
        if IsFresh(l1[uid], c.now) {
          return Some(Hit(l1[uid].ctr, FromL1));
        }
        l1 := l1 - {uid};
      }
      assert l1 == old(l1) - {uid};
      if RedisAvailable() && c.l2Reads && uid in l2 {
        l1 := l1[uid := CtrEntry(l2[uid], c.now)];
        return Some(Hit(l2[uid], FromL2));
      }
      if !c.l3Reads {
        return None;
      }
      var row := if uid in l3 then l3[uid].lastVerifiedCtr else None;
      var ctr := AsU32(row.GetOr(0));
      l1 := l1[uid := CtrEntry(ctr, c.now)];
      BackfillL2(uid, ctr, c.l2Backfills);
      r := Some(Hit(ctr, FromL3));
    }

    method BackfillL2(uid: string, ctr: U32, lands: bool)
      modifies this`l2
      ensures View() == WithL2(old(View()), uid, ctr, lands)
    {
      if !RedisAvailable() {
        return;
      }
      if lands {
        l2 := l2[uid := ctr];
      }
    }

    method UpdateCtr(uid: string, ctr: U32, c: Conditions)
      modifies this`l1, this`l2
      ensures View() == WithL2(WithL1(old(View()), uid, ctr, c.now), uid, ctr, c.l2Updates)
    {
      l1 := l1[uid := CtrEntry(ctr, c.now)];
      BackfillL2(uid, ctr, c.l2Updates);
    }

    /** The column update made by the verify handler; reports whether the handler saw it succeed. */
    method UpdateAssetCtr(uid: string, ctr: I32, write: RowWrite) returns (confirmed: bool)
      requires uid in l3
      modifies this`l3
      ensures View() == if write == Refused then old(View()) else WithRow(old(View()), uid, ctr)
      ensures confirmed <==> write == Written
    {
      if write != Refused {
        l3 := l3[uid := l3[uid].(lastVerifiedCtr := Some(ctr))];
      }
      confirmed := write == Written;
    }
  }
}

/** The verify endpoint's counter handling and the status it reports. */
module Verify {
  import opened Wrappers
  import opened MachineInts
  import opened CounterTiers

  type Ctr24 = n: int | 0 <= n < TWO_TO_24

  datatype Response =
    | ServerError
    | UnknownTag
    | AuthenticationFailed
    | Answer(status: string, riskFlags: seq<string>, ctr: Ctr24, previousCtr: Option<U32>)

  datatype Display = Display(status: string, flags: seq<string>)

  function EvaluateStatus(currentState: string): Display {
    if currentState == "Disputed" then Display("restricted", ["frozen_asset"])
    else if currentState == "Tampered" || currentState == "Compromised" || currentState == "Destructed" then
      Display("restricted", [])
    else Display("display_allowed", [])
  }

  predicate IsReplay(newCtr: Ctr24, cached: U32) {
    newCtr <= cached && cached > 0
  }

  function Status(format: Format, replay: bool, restricted: bool): Option<string> {
    match format
    case V1 => Some(if replay then "replay_suspected" else if restricted then "restricted" else "verified")
    case V2(None) => None
    case V2(Some(summary)) =>
      Some(if replay then "replay_suspected"
           else if summary.brand != "valid" || summary.platform != "valid" then "incomplete_attestation"
           else if restricted then "restricted" else "authentic")
  }

  function Report(row: AssetRow, newCtr: Ctr24, cached: U32, format: Format): Response {
    var display := EvaluateStatus(row.state);
    var replay := IsReplay(newCtr, cached);
    var status := Status(format, replay, display.status == "restricted");
    if status.None? then ServerError
    else Answer(status.value, (if replay then ["replay_suspected"] else []) + display.flags, newCtr,
                if cached == 0 then None else Some(cached))
  }

  /** `accepted` if the counter was taken as a new one and the handler knows that it is stored. */
  datatype Verified = Verified(tiers: Tiers, response: Response, accepted: bool)

  /** One verification request for a message whose authentication code has been judged (`tagOk`). */
  function FullVerify(t: Tiers, uid: string, newCtr: Ctr24, tagOk: bool, c: Conditions): Verified {
    if !c.assetReads then Verified(t, ServerError, false)
    else if uid !in t.l3 then Verified(t, UnknownTag, false)
    else if !c.keyDerives then Verified(t, ServerError, false)
    else if !tagOk then Verified(t, AuthenticationFailed, false)
    else
      var looked := Lookup(t, uid, c);
      if looked.hit.None? then Verified(looked.tiers, ServerError, false)
      else
        var cached := looked.hit.value.ctr;
        if IsReplay(newCtr, cached) then
          Verified(looked.tiers, Report(t.l3[uid], newCtr, cached, c.format), false)
        else Advance(t.l3[uid], looked.tiers, uid, newCtr, cached, c)
  }

  /** The write order on acceptance: Postgres first, then L1, then L2; the response comes after. */
  function Advance(asset: AssetRow, t: Tiers, uid: string, newCtr: Ctr24, cached: U32, c: Conditions): Verified {
    if uid !in t.l3 || c.rowWrite == Refused then Verified(t, ServerError, false)
    else
      var written := WithRow(t, uid, AsI32(newCtr));
      if c.rowWrite == WrittenUnconfirmed then Verified(written, ServerError, false)
      else
        Verified(WithL2(WithL1(written, uid, newCtr, c.now), uid, newCtr, c.l2Updates),
                 Report(asset, newCtr, cached, c.format), true)
  }

  /** An answer shows the counter presented, and nothing disputed, tampered, compromised or destructed as verified. */
  predicate AnswersFor(r: Response, state: string, newCtr: Ctr24)
    requires r.Answer?
  {
    && r.ctr == newCtr
    && (r.status == "verified" || r.status == "authentic" ==>
          state != "Disputed" && state != "Tampered" && state != "Compromised" && state != "Destructed")
  }

  method HandleFullVerify(cache: CtrCache, uid: string, newCtr: Ctr24, tagOk: bool, c: Conditions)
    returns (r: Response, accepted: bool)
    modifies cache
    ensures Verified(cache.View(), r, accepted) == FullVerify(old(cache.View()), uid, newCtr, tagOk, c)
    ensures r.Answer? ==> uid in old(cache.l3) && AnswersFor(r, old(cache.l3)[uid].state, newCtr)
  {
    hide AnswersFor;
    accepted := false;
    if !c.assetReads {
      return ServerError, false;
    }
    if uid !in cache.l3 {
      return UnknownTag, false;
    }
    var asset := cache.l3[uid];
    if !c.keyDerives {
      return ServerError, false;
    }
    if !tagOk {
      return AuthenticationFailed, false;
    }
    var hit := cache.GetCtr(uid, c);
    if hit.None? {
      return ServerError, false;
    }
    var cached := hit.value.ctr;
    if newCtr <= cached && cached > 0 {
      r := Respond(asset, newCtr, cached, ["replay_suspected"], c.format);
    } else {
      var confirmed := cache.UpdateAssetCtr(uid, AsI32(newCtr), c.rowWrite);
      if !confirmed {
        return ServerError, false;
      }
      cache.UpdateCtr(uid, newCtr, c);
      accepted := true;
      r := Respond(asset, newCtr, cached, [], c.format);
    }
  }

  /** The end of the handler: the status follows from the flags collected so far. */
  method Respond(asset: AssetRow, newCtr: Ctr24, cached: U32, flags: seq<string>, format: Format) returns (r: Response)
    requires flags == if IsReplay(newCtr, cached) then ["replay_suspected"] else []
    ensures r == Report(asset, newCtr, cached, format)
    ensures r.Answer? ==> AnswersFor(r, asset.state, newCtr)
  {
    var previous := if cached == 0 then None else Some(cached);
    var display := EvaluateStatus(asset.state);
    var riskFlags := flags + display.flags;
    var replay := "replay_suspected" in riskFlags;
    assert replay == IsReplay(newCtr, cached) by {
      assert IsReplay(newCtr, cached) ==> riskFlags[0] == "replay_suspected";
    }
    var restricted := display.status == "restricted";
    match format {
      case V1 =>
        var status := if replay then "replay_suspected" else if restricted then "restricted" else "verified";
        r := Answer(status, riskFlags, newCtr, previous);
      case V2(None) =>
        r := ServerError;
      case V2(Some(summary)) =>
        var status := if replay then "replay_suspected"
                      else if summary.brand != "valid" || summary.platform != "valid" then "incomplete_attestation"
                      else if restricted then "restricted"
                      else "authentic";
        r := Answer(status, riskFlags, newCtr, previous);
    }
  }
}
