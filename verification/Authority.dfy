/** The mother card's counter: rows, the statements on them, and one call's checks. */
module Authority {
  import opened Wrappers
  import opened MachineInts
  import opened HexText
  import opened SunMessage

  datatype Device = Device(
    authorityType: string, brandId: string, status: string, keyEpoch: I32,
    physicalChipUid: Option<string>, lastKnownCtr: Option<I32>)

  /** Device rows by id, and each asset's active entanglement. */
  datatype Database = Database(devices: map<string, Device>, bound: map<string, string>)

  datatype Found = Found(id: string, row: Device)

  function Fetch(db: Database, assetId: string): Option<Found> {
    if assetId in db.bound && db.bound[assetId] in db.devices
    then Some(Found(db.bound[assetId], db.devices[db.bound[assetId]]))
    else None
  }

  /** The guard of the conditional update. */
  predicate CanAdvance(db: Database, id: string, newCtr: I32) {
    id in db.devices && (db.devices[id].lastKnownCtr.None? || db.devices[id].lastKnownCtr.value < newCtr)
  }

  function Advance(db: Database, id: string, newCtr: I32): Database {
    if CanAdvance(db, id, newCtr)
    then db.(devices := db.devices[id := db.devices[id].(lastKnownCtr := Some(newCtr))])
    else db
  }

  datatype PhysicalNfc = PhysicalNfc(assetId: string, uid: string, ctr: string, cmac: string)

  /** Library functions the code calls: Unicode upper-casing, and deriving the chip key and checking the message
      authentication code (`None` when key derivation fails). */
  datatype Library = Library(
    upper: string -> string,
    cmacValid: (string, seq<Byte>, I32, seq<Byte>, seq<Byte>) -> Option<bool>)

  datatype RiskFlag =
    | WrongAuthorityType | AuthorityDeviceInactive | MissingPhysicalChipUid | UidMismatch
    | InvalidCtrFormat | CtrReplay | CmacInvalid

  datatype Screening = Refuse(flag: RiskFlag) | Fail | Clear(ctr: U32)

  /** Every check made on the row read, up to the counter update. */
  function Screen(lib: Library, row: Device, proof: PhysicalNfc): Screening {
    if row.authorityType != "PHYSICAL_NFC" then Refuse(WrongAuthorityType)
    else if row.status != "Active" then Refuse(AuthorityDeviceInactive)
    else if row.physicalChipUid.None? then Refuse(MissingPhysicalChipUid)
    else if lib.upper(proof.uid) != lib.upper(row.physicalChipUid.value) then Refuse(UidMismatch)
    else
      var newCtr := ParseCtr(proof.ctr);
      if newCtr.None? then Refuse(InvalidCtrFormat)
      else if row.lastKnownCtr.Some? && AsI32(newCtr.value) <= row.lastKnownCtr.value then Refuse(CtrReplay)
      else
        var uid, ctr, cmac := DecodeExactly(proof.uid, 7), DecodeExactly(proof.ctr, 3), DecodeExactly(proof.cmac, 8);
        if uid.None? || ctr.None? || cmac.None? then Fail
        else
          var valid := lib.cmacValid(row.brandId, uid.value, row.keyEpoch, ctr.value, cmac.value);
          if valid.None? then Fail
          else if !valid.value then Refuse(CmacInvalid)
          else Clear(newCtr.value)
  }

  datatype Outcome = Authorized(ctr: U32) | Denied(flag: RiskFlag) | Failed

  /** A call that nothing interleaves with. */
  function Uninterrupted(lib: Library, db: Database, proof: PhysicalNfc): (Database, Outcome) {
    match Fetch(db, proof.assetId)
    case None => (db, Failed)
    case Some(found) =>
      match Screen(lib, found.row, proof)
      case Refuse(flag) => (db, Denied(flag))
      case Fail => (db, Failed)
      case Clear(ctr) =>
        (Advance(db, found.id, AsI32(ctr)),
         if CanAdvance(db, found.id, AsI32(ctr)) then Authorized(ctr) else Denied(CtrReplay))
  }

  // ---- What an authorization stands on ----

  /** The card is an active physical one, its chip is the one presented, and the message authenticates under the key of
      its brand, chip and epoch. */
  predicate Genuine(lib: Library, row: Device, proof: PhysicalNfc) {
    var uid, ctr, cmac := Decode(proof.uid), Decode(proof.ctr), Decode(proof.cmac);
    && row.authorityType == "PHYSICAL_NFC"
    && row.status == "Active"
    && row.physicalChipUid.Some? && lib.upper(row.physicalChipUid.value) == lib.upper(proof.uid)
    && uid.Some? && ctr.Some? && cmac.Some?
    && |uid.value| == 7 && |ctr.value| == 3 && |cmac.value| == 8
    && lib.cmacValid(row.brandId, uid.value, row.keyEpoch, ctr.value, cmac.value) == Some(true)
  }

  /** The row's checks are passed exactly by genuine messages with a counter above the one the row shows. */
  lemma ClearIff(lib: Library, row: Device, proof: PhysicalNfc, ctr: U32)
    ensures Screen(lib, row, proof) == Clear(ctr)
       <==> && Genuine(lib, row, proof) && ParseCtr(proof.ctr) == Some(ctr)
            && (row.lastKnownCtr.None? || row.lastKnownCtr.value < ctr)
  {
    CounterParsersAgree(ScanResult(proof.uid, proof.ctr, proof.cmac));
  }

  /** An asset's physical authorization is given exactly for a genuine message of its own device with a counter above the
      stored one, which it replaces; nothing else ever changes. */
  lemma AuthorizedIff(lib: Library, db: Database, proof: PhysicalNfc, ctr: U32)
    ensures Uninterrupted(lib, db, proof).1 == Outcome.Authorized(ctr)
       <==> && proof.assetId in db.bound && db.bound[proof.assetId] in db.devices
            && var row := db.devices[db.bound[proof.assetId]];
               && Genuine(lib, row, proof) && ParseCtr(proof.ctr) == Some(ctr)
               && (row.lastKnownCtr.None? || row.lastKnownCtr.value < ctr)
    ensures Uninterrupted(lib, db, proof).1 == Outcome.Authorized(ctr) ==>
              var id := db.bound[proof.assetId];
              && ctr < TWO_TO_24
              && Uninterrupted(lib, db, proof).0
                 == Database(db.devices[id := db.devices[id].(lastKnownCtr := Some(ctr))], db.bound)
    ensures !Uninterrupted(lib, db, proof).1.Authorized? ==> Uninterrupted(lib, db, proof).0 == db
  {
    hide Screen, Genuine, ParseCtr;
    CounterParsersAgree(ScanResult(proof.uid, proof.ctr, proof.cmac));
    if proof.assetId in db.bound && db.bound[proof.assetId] in db.devices {
      var row := db.devices[db.bound[proof.assetId]];
      ClearIff(lib, row, proof, ctr);
      if Screen(lib, row, proof).Clear? {
        ClearIff(lib, row, proof, Screen(lib, row, proof).ctr);
      }
    }
  }

  /** What each refusal says is wrong with the card or the message. */
  predicate Applies(lib: Library, flag: RiskFlag, row: Device, proof: PhysicalNfc) {
    match flag
    case WrongAuthorityType => row.authorityType != "PHYSICAL_NFC"
    case AuthorityDeviceInactive => row.status != "Active"
    case MissingPhysicalChipUid => row.physicalChipUid.None?
    case UidMismatch => row.physicalChipUid.Some? && lib.upper(row.physicalChipUid.value) != lib.upper(proof.uid)
    case InvalidCtrFormat => |proof.ctr| != 6 || Decode(proof.ctr).None?
    case CtrReplay =>
      ParseCtr(proof.ctr).Some? && row.lastKnownCtr.Some? && row.lastKnownCtr.value >= ParseCtr(proof.ctr).value
    case CmacInvalid =>
      var uid, ctr, cmac := Decode(proof.uid), Decode(proof.ctr), Decode(proof.cmac);
      && uid.Some? && ctr.Some? && cmac.Some?
      && lib.cmacValid(row.brandId, uid.value, row.keyEpoch, ctr.value, cmac.value) == Some(false)
  }

  /** A text does not decode to its length, or the key cannot be derived. */
  predicate Unreadable(lib: Library, row: Device, proof: PhysicalNfc) {
    var uid, ctr, cmac := Decode(proof.uid), Decode(proof.ctr), Decode(proof.cmac);
    || uid.None? || ctr.None? || cmac.None? || |uid.value| != 7 || |ctr.value| != 3 || |cmac.value| != 8
    || lib.cmacValid(row.brandId, uid.value, row.keyEpoch, ctr.value, cmac.value) == None
  }

  lemma ScreenTellsTheTruth(lib: Library, row: Device, proof: PhysicalNfc)
    ensures match Screen(lib, row, proof)
            case Refuse(flag) => Applies(lib, flag, row, proof)
            case Fail => Unreadable(lib, row, proof)
            case Clear(_) => true
  {
    CounterParsersAgree(ScanResult(proof.uid, proof.ctr, proof.cmac));
  }

  /** A refusal names something that is so, and an error is one of finding the card or of reading the message. */
  lemma DenialTellsTheTruth(lib: Library, db: Database, proof: PhysicalNfc)
    ensures var known := proof.assetId in db.bound && db.bound[proof.assetId] in db.devices;
            match Uninterrupted(lib, db, proof).1
            case Authorized(_) => known
            case Failed => known ==> Unreadable(lib, db.devices[db.bound[proof.assetId]], proof)
            case Denied(flag) => known && Applies(lib, flag, db.devices[db.bound[proof.assetId]], proof)
  {
    hide Screen, Unreadable;
    if proof.assetId in db.bound && db.bound[proof.assetId] in db.devices {
      var row := db.devices[db.bound[proof.assetId]];
      ScreenTellsTheTruth(lib, row, proof);
      if Screen(lib, row, proof).Clear? {
        ClearIff(lib, row, proof, Screen(lib, row, proof).ctr);
        CounterParsersAgree(ScanResult(proof.uid, proof.ctr, proof.cmac));
      }
    }
  }

  /** One device's counter has risen to this value, and nothing else has changed. */
  predicate AdvancedTo(before: map<string, Device>, after: map<string, Device>, id: string, ctr: U32)
    requires id in before
  {
    && ctr < TWO_TO_24 && after == before[id := before[id].(lastKnownCtr := Some(ctr))]
    && (before[id].lastKnownCtr.Some? ==> before[id].lastKnownCtr.value < ctr)
  }

  class AuthorityDevices {
    var devices: map<string, Device>
    var bound: map<string, string>

    constructor ()
      ensures View() == Database(map[], map[])
    {
      devices, bound := map[], map[];
    }

    function View(): Database
      reads this
    {
      Database(devices, bound)
    }

    method InsertAuthorityDevice(id: string, device: Device)
      requires id !in devices && device.lastKnownCtr == None
      modifies this`devices
      ensures devices == old(devices)[id := device]
    {
      devices := devices[id := device];
    }

    method AtomicUpdateCtr(id: string, newCtr: I32) returns (updated: bool)
      modifies this`devices
      ensures updated <==> old(CanAdvance(View(), id, newCtr))
      ensures View() == Advance(old(View()), id, newCtr)
    {
      updated := false;
      if id in devices {
        var row := devices[id];
        if row.lastKnownCtr.None? || row.lastKnownCtr.value < newCtr {
          devices := devices[id := row.(lastKnownCtr := Some(newCtr))];
          updated := true;
        }
      }
    }

    method VerifyPhysicalAuthority(lib: Library, proof: PhysicalNfc) returns (r: Outcome)
      modifies this`devices
      ensures (View(), r) == Uninterrupted(lib, old(View()), proof)
      ensures if r.Authorized? then
                && proof.assetId in bound && bound[proof.assetId] in old(devices)
                && var id := bound[proof.assetId];
                   Genuine(lib, old(devices)[id], proof) && AdvancedTo(old(devices), devices, id, r.ctr)
              else devices == old(devices)
    {
      hide Screen, Genuine;
      if Uninterrupted(lib, View(), proof).1.Authorized? {
        AuthorizedIff(lib, View(), proof, Uninterrupted(lib, View(), proof).1.ctr);
      }
      var found := Fetch(View(), proof.assetId);
      if found.None? {
        return Failed;
      }
      var screening := Screen(lib, found.value.row, proof);
      if screening.Refuse? {
        return Denied(screening.flag);
      }
      if screening.Fail? {
        return Failed;
      }
      var updated := AtomicUpdateCtr(found.value.id, AsI32(screening.ctr));
      r := if updated then Authorized(screening.ctr) else Denied(CtrReplay);
    }
  }
}

/** Any number of physical-authority calls, interleaved in any way between their row read and their update. */
module AuthorityRuns {
  import opened Wrappers
  import opened MachineInts
  import opened SunMessage
  import opened Authority

  datatype Phase =
    | Arrived
    | HasRow(id: string, row: Device)
    | IsClear(device: string, ctr: U32)
    | Finished(outcome: Outcome)

  datatype Call = Call(proof: PhysicalNfc, phase: Phase)

  /** A counter update that took effect; `confirmed` if the call heard of it. */
  datatype Grant = Grant(call: nat, id: string, ctr: I32, confirmed: bool)

  datatype System = System(db: Database, calls: seq<Call>, grants: seq<Grant>)

  datatype Delivery = Delivered | LostRequest | LostReply

  datatype Event =
    | Arrive(proof: PhysicalNfc)
    | ReadRow(call: nat, served: bool)
    | CheckRow(call: nat)
    | UpdateCtr(call: nat, delivery: Delivery)
    | AddDevice(id: string, device: Device)
    | Bind(assetId: string, to: string)

  function SetPhase(s: System, i: nat, phase: Phase): System
    requires i < |s.calls|
  {
    s.(calls := s.calls[i := s.calls[i].(phase := phase)])
  }

  /** One atomic step of one call or of the administration; an event that is not enabled changes nothing. */
  function Next(lib: Library, s: System, e: Event): System {
    match e
    case Arrive(proof) => s.(calls := s.calls + [Call(proof, Arrived)])
    case ReadRow(i, served) =>
      if i >= |s.calls| || !s.calls[i].phase.Arrived? then s
      else
        var found := Fetch(s.db, s.calls[i].proof.assetId);
        if !served || found.None? then SetPhase(s, i, Finished(Failed))
        else SetPhase(s, i, HasRow(found.value.id, found.value.row))
    case CheckRow(i) =>
      if i >= |s.calls| || !s.calls[i].phase.HasRow? then s
      else
        var c := s.calls[i];
        (match Screen(lib, c.phase.row, c.proof)
         case Refuse(flag) => SetPhase(s, i, Finished(Denied(flag)))
         case Fail => SetPhase(s, i, Finished(Failed))
         case Clear(ctr) => SetPhase(s, i, IsClear(c.phase.id, ctr)))
    case UpdateCtr(i, delivery) =>
      if i >= |s.calls| || !s.calls[i].phase.IsClear? then s else Update(s, i, delivery)
    case AddDevice(id, device) =>
      if id in s.db.devices then s
      else s.(db := s.db.(devices := s.db.devices[id := device.(lastKnownCtr := None)]))
    case Bind(assetId, to) =>
      if assetId in s.db.bound then s else s.(db := s.db.(bound := s.db.bound[assetId := to]))
  }

  function Update(s: System, i: nat, delivery: Delivery): System
    requires i < |s.calls| && s.calls[i].phase.IsClear?
  {
    var id, ctr := s.calls[i].phase.device, s.calls[i].phase.ctr;
    if delivery == LostRequest then SetPhase(s, i, Finished(Failed))
    else
      var advanced := CanAdvance(s.db, id, AsI32(ctr));
      var outcome := if delivery == LostReply then Failed
                     else if advanced then Outcome.Authorized(ctr)
                     else Denied(CtrReplay);
      SetPhase(s, i, Finished(outcome))
        .(db := Advance(s.db, id, AsI32(ctr)),
          grants := if advanced then s.grants + [Grant(i, id, AsI32(ctr), delivery == Delivered)] else s.grants)
  }

  function Run(lib: Library, s: System, events: seq<Event>): System {
    if events == [] then s
    else Next(lib, Run(lib, s, events[..|events| - 1]), events[|events| - 1])
  }

  // ---- Counters ----

  function CtrOf(db: Database, id: string): Option<I32> {
    if id in db.devices then db.devices[id].lastKnownCtr else None
  }

  /** The counter of the last update on a device. */
  function LastGranted(grants: seq<Grant>, id: string): Option<I32> {
    if grants == [] then None
    else if grants[|grants| - 1].id == id then Some(grants[|grants| - 1].ctr)
    else LastGranted(grants[..|grants| - 1], id)
  }

  /** On each device the updates rise strictly, above whatever was stored at the start. */
  predicate GrantsRise(start: Database, grants: seq<Grant>) {
    && (forall i, j :: 0 <= i < j < |grants| && grants[i].id == grants[j].id ==> grants[i].ctr < grants[j].ctr)
    && (forall i :: 0 <= i < |grants| && CtrOf(start, grants[i].id).Some? ==>
          CtrOf(start, grants[i].id).value < grants[i].ctr)
  }

  /** What is stored is the counter of the last update, or what was there at the start. */
  ghost predicate StoresLastGrant(start: Database, grants: seq<Grant>, db: Database) {
    forall id :: CtrOf(db, id) == if LastGranted(grants, id).Some? then LastGranted(grants, id) else CtrOf(start, id)
  }

  ghost predicate CountersRise(start: Database, s: System) {
    GrantsRise(start, s.grants) && StoresLastGrant(start, s.grants, s.db)
  }

  /** Where updates rise the last is the greatest. */
  lemma {:induction false} LastGrantedIsGreatest(start: Database, grants: seq<Grant>, id: string)
    requires GrantsRise(start, grants)
    ensures match LastGranted(grants, id)
            case None => forall k :: 0 <= k < |grants| ==> grants[k].id != id
            case Some(last) =>
              && (exists k :: 0 <= k < |grants| && grants[k].id == id && grants[k].ctr == last)
              && (forall k :: 0 <= k < |grants| && grants[k].id == id ==> grants[k].ctr <= last)
  {
    if grants != [] && grants[|grants| - 1].id != id {
      LastGrantedIsGreatest(start, grants[..|grants| - 1], id);
      assert forall k :: 0 <= k < |grants| - 1 ==> grants[..|grants| - 1][k] == grants[k];
    }
  }

  lemma GrantAppends(start: Database, grants: seq<Grant>, db: Database, g: Grant)
    requires GrantsRise(start, grants) && StoresLastGrant(start, grants, db)
    requires CanAdvance(db, g.id, g.ctr)
    ensures GrantsRise(start, grants + [g])
  {
    LastGrantedIsGreatest(start, grants, g.id);
    assert CtrOf(db, g.id) == db.devices[g.id].lastKnownCtr;
  }

  lemma AdvanceStoresGrant(start: Database, grants: seq<Grant>, db: Database, g: Grant)
    requires StoresLastGrant(start, grants, db) && CanAdvance(db, g.id, g.ctr)
    ensures StoresLastGrant(start, grants + [g], Advance(db, g.id, g.ctr))
  {
    assert (grants + [g])[..|grants|] == grants;
  }

  lemma UpdateKeepsCountersRising(start: Database, s: System, i: nat, delivery: Delivery)
    requires CountersRise(start, s) && i < |s.calls| && s.calls[i].phase.IsClear?
    ensures CountersRise(start, Update(s, i, delivery))
  {
    hide GrantsRise, StoresLastGrant;
    var g := Grant(i, s.calls[i].phase.device, AsI32(s.calls[i].phase.ctr), delivery == Delivered);
    if CanAdvance(s.db, g.id, g.ctr) {
      GrantAppends(start, s.grants, s.db, g);
      AdvanceStoresGrant(start, s.grants, s.db, g);
    }
  }

  predicate Updates(s: System, e: Event) {
    e.UpdateCtr? && e.call < |s.calls| && s.calls[e.call].phase.IsClear?
  }

  lemma OtherStepsKeepCounters(lib: Library, s: System, e: Event)
    requires !Updates(s, e)
    ensures Next(lib, s, e).grants == s.grants
    ensures forall id :: CtrOf(Next(lib, s, e).db, id) == CtrOf(s.db, id)
  {
    hide Screen;
  }

  lemma StepKeepsCountersRising(lib: Library, start: Database, s: System, e: Event)
    requires CountersRise(start, s)
    ensures CountersRise(start, Next(lib, s, e))
  {
    if Updates(s, e) {
      UpdateKeepsCountersRising(start, s, e.call, e.delivery);
      assert Next(lib, s, e) == Update(s, e.call, e.delivery);
      hide *;
    } else {
      hide Next, CtrOf;
      OtherStepsKeepCounters(lib, s, e);
    }
  }

  lemma {:induction false} CountersAlwaysRise(lib: Library, db: Database, events: seq<Event>)
    ensures CountersRise(db, Run(lib, System(db, [], []), events))
  {
    if events != [] {
      hide Next;
      CountersAlwaysRise(lib, db, events[..|events| - 1]);
      StepKeepsCountersRising(lib, db, Run(lib, System(db, [], []), events[..|events| - 1]), events[|events| - 1]);
    }
  }

  // ---- Authorizations ----

  /** Each update belongs to a finished call of its own: authorized with that counter, or failed if it never heard. */
  predicate GrantsNameCalls(s: System) {
    && (forall g :: 0 <= g < |s.grants| ==>
          && s.grants[g].call < |s.calls|
          && s.calls[s.grants[g].call].phase.Finished?
          && var outcome := s.calls[s.grants[g].call].phase.outcome;
             if s.grants[g].confirmed then outcome.Authorized? && AsI32(outcome.ctr) == s.grants[g].ctr
             else outcome == Failed)
    && (forall g, h :: 0 <= g < h < |s.grants| ==> s.grants[g].call != s.grants[h].call)
  }

  ghost predicate HasGrant(s: System, i: nat) {
    exists g :: 0 <= g < |s.grants| && s.grants[g].call == i && s.grants[g].confirmed
  }

  ghost predicate AuthorizedHaveGrants(s: System) {
    forall i: nat :: i < |s.calls| && s.calls[i].phase.Finished? && s.calls[i].phase.outcome.Authorized? ==> HasGrant(s, i)
  }

  predicate PresentTheirCounters(s: System) {
    forall i :: 0 <= i < |s.calls| ==> PresentsItsCounter(s.calls[i])
  }

  ghost predicate GrantsMatchCalls(s: System) {
    GrantsNameCalls(s) && AuthorizedHaveGrants(s) && PresentTheirCounters(s)
  }

  predicate PresentsItsCounter(c: Call) {
    match c.phase
    case IsClear(_, ctr) => ParseCtr(c.proof.ctr) == Some(ctr)
    case Finished(Authorized(ctr)) => ParseCtr(c.proof.ctr) == Some(ctr)
    case _ => true
  }

  lemma UpdateKeepsNames(s: System, i: nat, delivery: Delivery)
    requires GrantsNameCalls(s) && i < |s.calls| && s.calls[i].phase.IsClear?
    ensures GrantsNameCalls(Update(s, i, delivery))
  {
    hide Advance;
  }

  lemma UpdateKeepsGrants(s: System, i: nat, delivery: Delivery)
    requires AuthorizedHaveGrants(s) && i < |s.calls| && s.calls[i].phase.IsClear?
    ensures AuthorizedHaveGrants(Update(s, i, delivery))
  {
    hide Advance, CanAdvance;
    var s' := Update(s, i, delivery);
    forall j: nat | j < |s'.calls| && s'.calls[j].phase.Finished? && s'.calls[j].phase.outcome.Authorized?
      ensures HasGrant(s', j)
    {
      if j == i {
        assert s'.grants[|s.grants|].call == i && s'.grants[|s.grants|].confirmed;
      } else {
        var g :| 0 <= g < |s.grants| && s.grants[g].call == j && s.grants[g].confirmed;
        assert s'.grants[g] == s.grants[g];
      }
    }
  }

  lemma UpdateKeepsMatch(s: System, i: nat, delivery: Delivery)
    requires GrantsMatchCalls(s) && i < |s.calls| && s.calls[i].phase.IsClear?
    ensures GrantsMatchCalls(Update(s, i, delivery))
  {
    UpdateKeepsNames(s, i, delivery);
    UpdateKeepsGrants(s, i, delivery);
    hide GrantsNameCalls, AuthorizedHaveGrants, Advance;
    assert PresentsItsCounter(s.calls[i]);
  }

  lemma ScreenClearsTheParsedCounter(lib: Library, row: Device, proof: PhysicalNfc)
    ensures Screen(lib, row, proof).Clear? ==> ParseCtr(proof.ctr) == Some(Screen(lib, row, proof).ctr)
  {
  }

  lemma SettingPhaseKeepsMatch(s: System, i: nat, phase: Phase)
    requires GrantsMatchCalls(s) && i < |s.calls| && !s.calls[i].phase.Finished?
    requires phase.Finished? ==> !phase.outcome.Authorized?
    requires PresentsItsCounter(s.calls[i].(phase := phase))
    ensures GrantsMatchCalls(SetPhase(s, i, phase))
  {
  }

  lemma StepKeepsMatch(lib: Library, s: System, e: Event)
    requires GrantsMatchCalls(s)
    ensures GrantsMatchCalls(Next(lib, s, e))
  {
    if Updates(s, e) {
      UpdateKeepsMatch(s, e.call, e.delivery);
    } else {
      hide Screen;
      match e
      case ReadRow(i, served) =>
        if Next(lib, s, e) != s {
          SettingPhaseKeepsMatch(s, i, Next(lib, s, e).calls[i].phase);
        }
      case CheckRow(i) =>
        if Next(lib, s, e) != s {
          ScreenClearsTheParsedCounter(lib, s.calls[i].phase.row, s.calls[i].proof);
          SettingPhaseKeepsMatch(s, i, Next(lib, s, e).calls[i].phase);
        }
      case _ =>
    }
  }

  lemma {:induction false} GrantsAlwaysMatchCalls(lib: Library, db: Database, events: seq<Event>)
    ensures GrantsMatchCalls(Run(lib, System(db, [], []), events))
  {
    if events != [] {
      hide Next;
      GrantsAlwaysMatchCalls(lib, db, events[..|events| - 1]);
      StepKeepsMatch(lib, Run(lib, System(db, [], []), events[..|events| - 1]), events[|events| - 1]);
    }
  }

  /** The update that authorized a call. */
  ghost predicate GrantedOn(s: System, i: nat, id: string, ctr: U32) {
    && i < |s.calls| && s.calls[i].phase == Finished(Outcome.Authorized(ctr))
    && exists g :: 0 <= g < |s.grants| && s.grants[g] == Grant(i, id, AsI32(ctr), true)
  }

  /** However calls interleave, no two of them are authorized on the same device by the same counter. */
  lemma CounterAuthorizesOnce(lib: Library, db: Database, events: seq<Event>, i: nat, j: nat, id: string, ctr: U32)
    requires var s := Run(lib, System(db, [], []), events); GrantedOn(s, i, id, ctr) && GrantedOn(s, j, id, ctr)
    ensures i == j
  {
    hide Next, Run;
    CountersAlwaysRise(lib, db, events);
    GrantsAlwaysMatchCalls(lib, db, events);
  }

  /** Every authorized call was granted its own counter on some device. */
  lemma AuthorizedWasGranted(lib: Library, db: Database, events: seq<Event>, i: nat)
    requires var s := Run(lib, System(db, [], []), events);
             i < |s.calls| && s.calls[i].phase.Finished? && s.calls[i].phase.outcome.Authorized?
    ensures var s := Run(lib, System(db, [], []), events);
            exists id :: GrantedOn(s, i, id, s.calls[i].phase.outcome.ctr)
    ensures var s := Run(lib, System(db, [], []), events);
            ParseCtr(s.calls[i].proof.ctr) == Some(s.calls[i].phase.outcome.ctr)
  {
    hide Next, Run;
    GrantsAlwaysMatchCalls(lib, db, events);
    var s := Run(lib, System(db, [], []), events);
    var g :| 0 <= g < |s.grants| && s.grants[g].call == i && s.grants[g].confirmed;
    assert PresentsItsCounter(s.calls[i]);
    assert GrantedOn(s, i, s.grants[g].id, s.calls[i].phase.outcome.ctr);
  }

  // ---- Replay refusals ----

  /** At this moment the call is under way and the counter of its asset's device is already at least the one it
      presents. */
  predicate AlreadyReached(s: System, i: nat) {
    && i < |s.calls| && !s.calls[i].phase.Finished?
    && var found, ctr := Fetch(s.db, s.calls[i].proof.assetId), ParseCtr(s.calls[i].proof.ctr);
       found.Some? && ctr.Some?
       && found.value.row.lastKnownCtr.Some? && found.value.row.lastKnownCtr.value >= AsI32(ctr.value)
  }

  /** The row a call works on was its asset's device row at an earlier moment, while the call was under way. */
  predicate RowWasCurrent(s: System, i: nat, proof: PhysicalNfc, id: string, row: Device) {
    i < |s.calls| && s.calls[i] == Call(proof, Arrived) && Fetch(s.db, proof.assetId) == Some(Found(id, row))
  }

  lemma CallsKeepTheirProof(lib: Library, s: System, e: Event, i: nat)
    requires i < |s.calls|
    ensures i < |Next(lib, s, e).calls| && Next(lib, s, e).calls[i].proof == s.calls[i].proof
    ensures s.calls[i].phase.Finished? ==> Next(lib, s, e).calls[i] == s.calls[i]
    ensures Fetch(s.db, s.calls[i].proof.assetId).Some? ==>
              && Fetch(Next(lib, s, e).db, s.calls[i].proof.assetId).Some?
              && Fetch(Next(lib, s, e).db, s.calls[i].proof.assetId).value.id
              == Fetch(s.db, s.calls[i].proof.assetId).value.id
  {
    hide Screen;
  }

  /** How a call can come to hold a row, to be cleared for a device, and to be refused as a replay, in one step. */
  lemma StepInto(lib: Library, s: System, e: Event, i: nat)
    requires i < |Next(lib, s, e).calls| && (i < |s.calls| ==> s.calls[i] != Next(lib, s, e).calls[i])
    ensures var c := Next(lib, s, e).calls[i];
            match c.phase
            case Arrived => i == |s.calls|
            case HasRow(id, row) => RowWasCurrent(s, i, c.proof, id, row)
            case IsClear(id, ctr) =>
              i < |s.calls| && s.calls[i].phase.HasRow? && s.calls[i].phase.id == id
              && ParseCtr(s.calls[i].proof.ctr) == Some(ctr)
              && Screen(lib, s.calls[i].phase.row, s.calls[i].proof) == Clear(ctr)
            case Finished(Denied(CtrReplay)) =>
              i < |s.calls| &&
              (match s.calls[i].phase
               case HasRow(id, row) =>
                 && ParseCtr(c.proof.ctr).Some? && row.lastKnownCtr.Some?
                 && AsI32(ParseCtr(c.proof.ctr).value) <= row.lastKnownCtr.value
               case IsClear(id, ctr) => !CanAdvance(s.db, id, AsI32(ctr))
               case _ => false)
            case Finished(Denied(flag)) =>
              && i < |s.calls| && s.calls[i].phase.HasRow?
              && Screen(lib, s.calls[i].phase.row, s.calls[i].proof) == Refuse(flag)
            case _ => true
  {
  }

  function RunFrom(lib: Library, db: Database, events: seq<Event>): System {
    Run(lib, System(db, [], []), events)
  }

  lemma {:induction false} HeldRowWasCurrent(lib: Library, db: Database, events: seq<Event>, i: nat) returns (m: nat)
    requires var s := RunFrom(lib, db, events); i < |s.calls| && s.calls[i].phase.HasRow?
    ensures var c := RunFrom(lib, db, events).calls[i];
            m <= |events| && RowWasCurrent(RunFrom(lib, db, events[..m]), i, c.proof, c.phase.id, c.phase.row)
  {
    hide Next;
    var n := |events| - 1;
    var before := RunFrom(lib, db, events[..n]);
    if i < |before.calls| && before.calls[i] == RunFrom(lib, db, events).calls[i] {
      m := HeldRowWasCurrent(lib, db, events[..n], i);
      assert events[..n][..m] == events[..m];
    } else {
      StepInto(lib, before, events[n], i);
      m := n;
    }
  }

  /** Devices and entanglements are only ever added, so a call updates the device it read. */
  lemma {:induction false} DeviceStaysKnown(lib: Library, db: Database, events: seq<Event>, i: nat)
    requires i < |RunFrom(lib, db, events).calls|
    ensures var s := RunFrom(lib, db, events);
            var found := Fetch(s.db, s.calls[i].proof.assetId);
            match s.calls[i].phase
            case HasRow(id, _) => found.Some? && found.value.id == id
            case IsClear(id, ctr) => found.Some? && found.value.id == id && ParseCtr(s.calls[i].proof.ctr) == Some(ctr)
            case _ => true
  {
    hide Next;
    var n := |events| - 1;
    var before := RunFrom(lib, db, events[..n]);
    if i < |before.calls| {
      DeviceStaysKnown(lib, db, events[..n], i);
      CallsKeepTheirProof(lib, before, events[n], i);
    }
    if !(i < |before.calls| && before.calls[i] == RunFrom(lib, db, events).calls[i]) {
      StepInto(lib, before, events[n], i);
    }
  }

  ghost predicate ReachedAt(lib: Library, db: Database, events: seq<Event>, m: nat, i: nat) {
    m <= |events| && AlreadyReached(RunFrom(lib, db, events[..m]), i)
  }

  /** A call is refused as a replay only if, at some moment while it was under way, the counter of its asset's device had
      reached the one it presents. */
  lemma {:induction false} ReplayRefusalIsJust(lib: Library, db: Database, events: seq<Event>, i: nat)
    requires var s := RunFrom(lib, db, events); i < |s.calls| && s.calls[i].phase == Finished(Denied(CtrReplay))
    ensures exists m: nat :: ReachedAt(lib, db, events, m, i)
  {
    hide Next;
    var n := |events| - 1;
    var s, before := RunFrom(lib, db, events), RunFrom(lib, db, events[..n]);
    if i < |before.calls| && before.calls[i] == s.calls[i] {
      ReplayRefusalIsJust(lib, db, events[..n], i);
      var m: nat :| ReachedAt(lib, db, events[..n], m, i);
      assert events[..n][..m] == events[..m];
      assert ReachedAt(lib, db, events, m, i);
    } else {
      StepInto(lib, before, events[n], i);
      CallsKeepTheirProof(lib, before, events[n], i);
      if before.calls[i].phase.HasRow? {
        var m := HeldRowWasCurrent(lib, db, events[..n], i);
        assert events[..n][..m] == events[..m];
        assert ReachedAt(lib, db, events, m, i);
      } else {
        DeviceStaysKnown(lib, db, events[..n], i);
        assert ReachedAt(lib, db, events, n, i);
      }
    }
  }

  // ---- What is granted ----

  /** At that moment the call was under way and this was its asset's device, on which its message is genuine and its
      counter new. */
  ghost predicate GenuineAt(lib: Library, db: Database, events: seq<Event>, m: nat, i: nat, c: Call, id: string,
                            row: Device, ctr: U32) {
    && m <= |events| && RowWasCurrent(RunFrom(lib, db, events[..m]), i, c.proof, id, row)
    && Genuine(lib, row, c.proof) && ParseCtr(c.proof.ctr) == Some(ctr)
    && (row.lastKnownCtr.None? || row.lastKnownCtr.value < ctr)
  }

  lemma {:induction false} ClearedOnGenuineRow(lib: Library, db: Database, events: seq<Event>, i: nat)
    returns (m: nat, row: Device)
    requires var s := RunFrom(lib, db, events); i < |s.calls| && s.calls[i].phase.IsClear?
    ensures var c := RunFrom(lib, db, events).calls[i];
            GenuineAt(lib, db, events, m, i, c, c.phase.device, row, c.phase.ctr)
  {
    hide Next, Screen, Genuine, ParseCtr;
    var n := |events| - 1;
    var s, before := RunFrom(lib, db, events), RunFrom(lib, db, events[..n]);
    if i < |before.calls| && before.calls[i] == s.calls[i] {
      m, row := ClearedOnGenuineRow(lib, db, events[..n], i);
      assert events[..n][..m] == events[..m];
    } else {
      StepInto(lib, before, events[n], i);
      CallsKeepTheirProof(lib, before, events[n], i);
      m := HeldRowWasCurrent(lib, db, events[..n], i);
      row := before.calls[i].phase.row;
      ClearIff(lib, row, s.calls[i].proof, s.calls[i].phase.ctr);
      assert events[..n][..m] == events[..m];
    }
  }

  /** An update appears only where a cleared call's own statement reaches its device. */
  lemma StepGrants(lib: Library, s: System, e: Event)
    ensures Next(lib, s, e).grants == s.grants || exists i: nat, confirmed: bool ::
              && i < |s.calls| && s.calls[i].phase.IsClear?
              && Next(lib, s, e).grants
                 == s.grants + [Grant(i, s.calls[i].phase.device, AsI32(s.calls[i].phase.ctr), confirmed)]
  {
    hide Screen, Advance, CanAdvance;
    if Updates(s, e) {
      var i := e.call;
      assert Next(lib, s, e) == Update(s, i, e.delivery);
      assert Next(lib, s, e).grants == s.grants || Next(lib, s, e).grants
                 == s.grants + [Grant(i, s.calls[i].phase.device, AsI32(s.calls[i].phase.ctr), e.delivery == Delivered)];
    }
  }

  /** Every counter update, heard of or not, belongs to a call whose message was genuine on the device updated, as it was
      while the call was under way. */
  lemma {:induction false} GrantsAreGenuine(lib: Library, db: Database, events: seq<Event>, g: nat)
    returns (m: nat, row: Device, ctr: U32)
    requires g < |RunFrom(lib, db, events).grants|
    ensures var s := RunFrom(lib, db, events);
            && s.grants[g].call < |s.calls| && s.grants[g].ctr == ctr
            && GenuineAt(lib, db, events, m, s.grants[g].call, s.calls[s.grants[g].call], s.grants[g].id, row, ctr)
  {
    hide Next, Screen, Genuine, ParseCtr, CanAdvance, Advance;
    var n := |events| - 1;
    var s, before := RunFrom(lib, db, events), RunFrom(lib, db, events[..n]);
    StepGrants(lib, before, events[n]);
    if g < |before.grants| {
      m, row, ctr := GrantsAreGenuine(lib, db, events[..n], g);
      CallsKeepTheirProof(lib, before, events[n], before.grants[g].call);
    } else {
      var i := s.grants[g].call;
      m, row := ClearedOnGenuineRow(lib, db, events[..n], i);
      ctr := before.calls[i].phase.ctr;
      CallsKeepTheirProof(lib, before, events[n], i);
      CounterParsersAgree(ScanResult("", before.calls[i].proof.ctr, ""));
    }
    assert events[..n][..m] == events[..m];
  }

  /** Every authorized call presented a genuine message with a new counter on its asset's device. */
  lemma AuthorizedIsGenuine(lib: Library, db: Database, events: seq<Event>, i: nat)
    returns (m: nat, id: string, row: Device)
    requires var s := RunFrom(lib, db, events);
             i < |s.calls| && s.calls[i].phase.Finished? && s.calls[i].phase.outcome.Authorized?
    ensures var c := RunFrom(lib, db, events).calls[i];
            GenuineAt(lib, db, events, m, i, c, id, row, c.phase.outcome.ctr)
    ensures GrantedOn(RunFrom(lib, db, events), i, id, RunFrom(lib, db, events).calls[i].phase.outcome.ctr)
  {
    hide Run, Genuine, ParseCtr;
    var s := RunFrom(lib, db, events);
    AuthorizedWasGranted(lib, db, events, i);
    id :| GrantedOn(s, i, id, s.calls[i].phase.outcome.ctr);
    var g :| 0 <= g < |s.grants| && s.grants[g] == Grant(i, id, AsI32(s.calls[i].phase.outcome.ctr), true);
    var ctr: U32;
    m, row, ctr := GrantsAreGenuine(lib, db, events, g);
  }

  /** At that moment the call was under way, and this was its asset's device, to which the refusal applies. */
  predicate RefusedAt(lib: Library, db: Database, events: seq<Event>, m: nat, i: nat, c: Call, id: string, row: Device,
                      flag: RiskFlag) {
    m <= |events| && RowWasCurrent(RunFrom(lib, db, events[..m]), i, c.proof, id, row) && Applies(lib, flag, row, c.proof)
  }

  /** Every refusal but that of a replay, which `ReplayRefusalIsJust` is about, names something that was so of the card or
      the message while the call was under way. */
  lemma {:induction false} RefusalIsJust(lib: Library, db: Database, events: seq<Event>, i: nat)
    returns (m: nat, id: string, row: Device)
    requires var s := RunFrom(lib, db, events);
             && i < |s.calls| && s.calls[i].phase.Finished? && s.calls[i].phase.outcome.Denied?
             && s.calls[i].phase.outcome.flag != CtrReplay
    ensures var c := RunFrom(lib, db, events).calls[i];
            RefusedAt(lib, db, events, m, i, c, id, row, c.phase.outcome.flag)
  {
    hide Next, Screen, Applies;
    var n := |events| - 1;
    var s, before := RunFrom(lib, db, events), RunFrom(lib, db, events[..n]);
    if i < |before.calls| && before.calls[i] == s.calls[i] {
      m, id, row := RefusalIsJust(lib, db, events[..n], i);
    } else {
      StepInto(lib, before, events[n], i);
      CallsKeepTheirProof(lib, before, events[n], i);
      m := HeldRowWasCurrent(lib, db, events[..n], i);
      id, row := before.calls[i].phase.id, before.calls[i].phase.row;
      ScreenTellsTheTruth(lib, row, before.calls[i].proof);
    }
    assert events[..n][..m] == events[..m];
  }

  /** A statement that is lost, or whose reply is, ends the call in an error; a lost reply does not undo the update. */
  lemma LossesFailTheCall(lib: Library, s: System, i: nat)
    requires i < |s.calls|
    ensures s.calls[i].phase.Arrived? ==> Next(lib, s, ReadRow(i, false)) == SetPhase(s, i, Finished(Failed))
    ensures s.calls[i].phase.IsClear? ==>
              && Next(lib, s, UpdateCtr(i, LostRequest)) == SetPhase(s, i, Finished(Failed))
              && |Next(lib, s, UpdateCtr(i, LostReply)).calls| == |s.calls|
              && Next(lib, s, UpdateCtr(i, LostReply)).calls[i].phase == Finished(Failed)
              && Next(lib, s, UpdateCtr(i, LostReply)).db == Next(lib, s, UpdateCtr(i, Delivered)).db
  {
    hide Screen, Advance, CanAdvance;
  }

  /** The three steps of a call that nothing interleaves with. */
  function Alone(lib: Library, s: System, i: nat): System {
    Next(lib, Next(lib, Next(lib, s, ReadRow(i, true)), CheckRow(i)), UpdateCtr(i, Delivered))
  }

  /** Taken one after the other, the steps are the uninterrupted call. */
  lemma StepsRefineCall(lib: Library, s: System, i: nat)
    requires i < |s.calls| && s.calls[i].phase.Arrived?
    ensures |Alone(lib, s, i).calls| == |s.calls|
    ensures Alone(lib, s, i).db == Uninterrupted(lib, s.db, s.calls[i].proof).0
    ensures Alone(lib, s, i).calls[i].phase == Finished(Uninterrupted(lib, s.db, s.calls[i].proof).1)
  {
    hide Screen, Advance, CanAdvance;
  }
}
