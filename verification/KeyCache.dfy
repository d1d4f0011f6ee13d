/** Key derivation from the root key; HMAC-SHA256 is any function with 32-byte results. */
module KeyDerivation {
  import opened MachineInts

  type Bytes = seq<Byte>

  type Key32 = k: seq<Byte> | |k| == 32 witness seq(32, _ => 0)

  type Uid7 = u: seq<Byte> | |u| == 7 witness seq(7, _ => 0)

  datatype Root = Root(key: Key32, systemId: Bytes, hmac: (Bytes, Bytes) -> Key32)

  function DeriveBrandKey(root: Root, brandId: Bytes): Key32 {
    root.hmac(root.key, brandId + root.systemId)
  }

  function DeriveChipKey(root: Root, brandKey: Key32, uid: Uid7, epochLe: Bytes): Bytes {
    root.hmac(brandKey, uid + epochLe)[..16]
  }

  function DeriveHoneyKey(root: Root, brandKey: Key32, serial: Bytes): Bytes {
    root.hmac(brandKey, serial)
  }

  /** `epoch.to_le_bytes()` */
  function EpochLe(epoch: U32): Bytes {
    [epoch % 256, epoch / 256 % 256, epoch / 65536 % 256, epoch / 16777216]
  }

  /** The first seven bytes, or all of them with zeros after. */
  function SevenBytes(authorityUid: Bytes): Uid7 {
    if |authorityUid| >= 7 then authorityUid[..7] else authorityUid + seq(7 - |authorityUid|, _ => 0)
  }

  datatype Request =
    | ChipKey(brandId: Bytes, uid: Uid7, epoch: U32)
    | HoneyKey(brandId: Bytes, serial: Bytes)
    | MotherKey(brandId: Bytes, authorityUid: Bytes, epoch: U32)

  /** What a request makes of its brand's key. */
  function UseKey(root: Root, brandKey: Key32, r: Request): Bytes {
    match r
    case ChipKey(_, uid, epoch) => DeriveChipKey(root, brandKey, uid, EpochLe(epoch))
    case HoneyKey(_, serial) => DeriveHoneyKey(root, brandKey, serial)
    case MotherKey(_, authorityUid, epoch) => DeriveChipKey(root, brandKey, SevenBytes(authorityUid), EpochLe(epoch))
  }

  /** The answer a service without a cache would give. */
  function Uncached(root: Root, r: Request): Bytes {
    UseKey(root, DeriveBrandKey(root, r.brandId), r)
  }

  /** Different brands are derived from different messages. */
  lemma BrandMessagesApart(root: Root, a: Bytes, b: Bytes)
    ensures a + root.systemId == b + root.systemId <==> a == b
  {
    if a + root.systemId == b + root.systemId {
      assert |a| == |b|;
      assert (a + root.systemId)[..|a|] == a && (b + root.systemId)[..|b|] == b;
    }
  }

  lemma EpochsApart(a: U32, b: U32)
    ensures |EpochLe(a)| == 4 && (EpochLe(a) == EpochLe(b) <==> a == b)
  {
    if EpochLe(a) == EpochLe(b) {
      assert EpochLe(a)[0] == EpochLe(b)[0] && EpochLe(a)[1] == EpochLe(b)[1];
      assert EpochLe(a)[2] == EpochLe(b)[2] && EpochLe(a)[3] == EpochLe(b)[3];
      FromDigits(a);
      FromDigits(b);
    }
  }

  lemma FromDigits(n: U32)
    ensures n == n % 256 + 256 * (n / 256 % 256) + 65536 * (n / 65536 % 256) + 16777216 * (n / 16777216)
  {
    assert n / 65536 == n / 256 / 256 && n / 16777216 == n / 65536 / 256;
  }

  /** Different chips and epochs are derived from different messages. */
  lemma ChipMessagesApart(uid: Uid7, epoch: U32, uid': Uid7, epoch': U32)
    ensures uid + EpochLe(epoch) == uid' + EpochLe(epoch') <==> uid == uid' && epoch == epoch'
  {
    EpochsApart(epoch, epoch');
    var m, m' := uid + EpochLe(epoch), uid' + EpochLe(epoch');
    assert m[..7] == uid && m'[..7] == uid' && m[7..] == EpochLe(epoch) && m'[7..] == EpochLe(epoch');
  }

  /** A byte of a mother card's id as the derivation sees it. */
  function ByteAt(authorityUid: Bytes, k: nat): Byte {
    if k < |authorityUid| then authorityUid[k] else 0
  }

  /** Mother cards are told apart by the first seven bytes of their ids only, a missing byte being zero. */
  lemma MotherMessagesApart(a: Bytes, epoch: U32, b: Bytes, epoch': U32)
    ensures SevenBytes(a) + EpochLe(epoch) == SevenBytes(b) + EpochLe(epoch')
            <==> epoch == epoch' && forall k: nat :: k < 7 ==> ByteAt(a, k) == ByteAt(b, k)
  {
    ChipMessagesApart(SevenBytes(a), epoch, SevenBytes(b), epoch');
    forall k: nat | k < 7
      ensures SevenBytes(a)[k] == ByteAt(a, k) && SevenBytes(b)[k] == ByteAt(b, k)
    {
    }
  }

  // ---- Which keys are which ----

  /** Different inputs with the same first sixteen bytes of output. Every function with 32-byte results has such inputs;
      that nobody can name any is what is asked of HMAC-SHA256. */
  predicate Collides(root: Root, key: Key32, m: Bytes, key': Key32, m': Bytes) {
    (key != key' || m != m') && root.hmac(key, m)[..16] == root.hmac(key', m')[..16]
  }

  /** Two brands with the same key give a collision under the root key. */
  lemma BrandKeysApart(root: Root, a: Bytes, b: Bytes) returns (m: Bytes, m': Bytes)
    requires a != b && DeriveBrandKey(root, a) == DeriveBrandKey(root, b)
    ensures m != m' && root.hmac(root.key, m) == root.hmac(root.key, m')
  {
    m, m' := a + root.systemId, b + root.systemId;
    BrandMessagesApart(root, a, b);
  }

  /** The id of a chip or of a mother card. */
  function CardId(r: Request): Bytes
    requires !r.HoneyKey?
  {
    if r.ChipKey? then r.uid else r.authorityUid
  }

  /** The brand, and the serial or the epoch and the first seven bytes of the id. */
  predicate MeansSameKey(r: Request, r': Request) {
    && r.brandId == r'.brandId
    && (if r.HoneyKey? || r'.HoneyKey? then r.HoneyKey? && r'.HoneyKey? && r.serial == r'.serial
        else r.epoch == r'.epoch && forall k: nat :: k < 7 ==> ByteAt(CardId(r), k) == ByteAt(CardId(r'), k))
  }

  /** The message a card's key is made from. */
  lemma CardMessage(root: Root, r: Request)
    requires !r.HoneyKey?
    ensures Uncached(root, r)
         == root.hmac(DeriveBrandKey(root, r.brandId), SevenBytes(CardId(r)) + EpochLe(r.epoch))[..16]
  {
    if r.ChipKey? {
      assert SevenBytes(r.uid) == r.uid;
    }
  }

  /** Requests that mean the same key get it, whether they ask for a chip or for a mother card. */
  lemma SameKeyForSameMeaning(root: Root, r: Request, r': Request)
    requires MeansSameKey(r, r')
    ensures Uncached(root, r) == Uncached(root, r')
  {
    hide DeriveBrandKey, EpochLe;
    if !r.HoneyKey? {
      CardMessage(root, r);
      CardMessage(root, r');
      MotherMessagesApart(CardId(r), r.epoch, CardId(r'), r'.epoch);
    }
  }

  /** Requests that do not, cannot get equal keys without a collision: brands, serials, chips, cards and epochs are all told
      apart, and honey keys from card keys. */
  lemma KeysApart(root: Root, r: Request, r': Request) returns (key: Key32, m: Bytes, key': Key32, m': Bytes)
    requires !MeansSameKey(r, r') && Uncached(root, r) == Uncached(root, r')
    ensures Collides(root, key, m, key', m')
  {
    hide DeriveBrandKey, EpochLe, SevenBytes;
    key, key' := DeriveBrandKey(root, r.brandId), DeriveBrandKey(root, r'.brandId);
    if r.brandId != r'.brandId && key == key' {
      m, m' := BrandKeysApart(root, r.brandId, r'.brandId);
      key, key' := root.key, root.key;
    } else if r.HoneyKey? && r'.HoneyKey? {
      m, m' := r.serial, r'.serial;
    } else if r.HoneyKey? {
      CardMessage(root, r');
      assert false;
    } else if r'.HoneyKey? {
      CardMessage(root, r);
      assert false;
    } else {
      CardMessage(root, r);
      CardMessage(root, r');
      MotherMessagesApart(CardId(r), r.epoch, CardId(r'), r'.epoch);
      m, m' := SevenBytes(CardId(r)) + EpochLe(r.epoch), SevenBytes(CardId(r')) + EpochLe(r'.epoch);
    }
  }

  /** The value of four bytes, least significant first. */
  function FromLe(b: Bytes): int
    requires |b| == 4
  {
    (b[0] as int) + 256 * (b[1] as int) + 65536 * (b[2] as int) + 16777216 * (b[3] as int)
  }

  lemma DigitsOfEpoch(b: Bytes, epoch: U32)
    requires |b| == 4 && FromLe(b) == epoch
    ensures b == EpochLe(epoch)
  {
    var b0: int, b1: int, b2: int, b3: int := b[0], b[1], b[2], b[3];
    assert epoch / 256 == b1 + 256 * b2 + 65536 * b3;
    assert epoch / 65536 == b2 + 256 * b3;
  }

  /** The layout of the messages: the brand and then the system under the root key; under the result, a honey card's serial,
      or seven bytes of the card's id and then the epoch with its least significant byte first. */
  lemma MessageLayout(root: Root, r: Request, b: Bytes, m: Bytes)
    requires |b| == |r.brandId| + |root.systemId|
    requires forall k :: 0 <= k < |r.brandId| ==> b[k] == r.brandId[k]
    requires forall k :: 0 <= k < |root.systemId| ==> b[|r.brandId| + k] == root.systemId[k]
    requires if r.HoneyKey? then m == r.serial
             else && |m| == 11 && (forall k: nat :: k < 7 ==> m[k] == ByteAt(CardId(r), k))
                  && FromLe(m[7..]) == r.epoch
    ensures var full := root.hmac(root.hmac(root.key, b), m);
            Uncached(root, r) == if r.HoneyKey? then full else full[..16]
  {
    hide EpochLe, UseKey;
    assert b == r.brandId + root.systemId;
    if r.HoneyKey? {
      assert UseKey(root, DeriveBrandKey(root, r.brandId), r) == root.hmac(DeriveBrandKey(root, r.brandId), r.serial) by {
        HoneyMessage(root, r);
      }
    } else {
      CardMessage(root, r);
      DigitsOfEpoch(m[7..], r.epoch);
      assert m == SevenBytes(CardId(r)) + m[7..];
    }
  }

  lemma HoneyMessage(root: Root, r: Request)
    requires r.HoneyKey?
    ensures Uncached(root, r) == root.hmac(DeriveBrandKey(root, r.brandId), r.serial)
  {
  }
}

/** The key service with its cache of brand keys behind a read-write lock. */
module KeyCache {
  import opened Wrappers
  import opened MachineInts
  import opened KeyDerivation

  class SoftwareKms {
    const root: Root
    var brandKeyCache: map<Bytes, Key32>

    constructor (root: Root)
      ensures this.root == root && brandKeyCache == map[] && Valid()
    {
      this.root, brandKeyCache := root, map[];
    }

    ghost predicate Valid()
      reads this
    {
      forall b :: b in brandKeyCache ==> brandKeyCache[b] == DeriveBrandKey(root, b)
    }

    /** The section under the read lock: a hit is as good as a derivation. */
    method ReadSection(brandId: Bytes) returns (key: Option<Key32>)
      requires Valid()
      ensures key.Some? <==> brandId in brandKeyCache
      ensures key.Some? ==> key.value == DeriveBrandKey(root, brandId)
    {
      key := if brandId in brandKeyCache then Some(brandKeyCache[brandId]) else None;
    }

    /** The section under the write lock, which looks again before deriving. */
    method WriteSection(brandId: Bytes) returns (key: Key32)
      requires Valid()
      modifies this`brandKeyCache
      ensures Valid() && key == DeriveBrandKey(root, brandId)
      ensures brandKeyCache == old(brandKeyCache)[brandId := DeriveBrandKey(root, brandId)]
    {
      if brandId in brandKeyCache {
        assert brandKeyCache == brandKeyCache[brandId := DeriveBrandKey(root, brandId)];
        return brandKeyCache[brandId];
      }
      brandKeyCache := brandKeyCache[brandId := DeriveBrandKey(root, brandId)];
      key := brandKeyCache[brandId];
    }

    method WithBrandKey(brandId: Bytes) returns (key: Key32)
      requires Valid()
      modifies this`brandKeyCache
      ensures Valid() && key == DeriveBrandKey(root, brandId)
      ensures key == root.hmac(root.key, brandId + root.systemId)
      ensures brandKeyCache == old(brandKeyCache)[brandId := key]
    {
      var cached := ReadSection(brandId);
      if cached.Some? {
        assert brandKeyCache == brandKeyCache[brandId := DeriveBrandKey(root, brandId)];
        return cached.value;
      }
      key := WriteSection(brandId);
    }

    method DeriveChip(brandId: Bytes, uid: Uid7, epoch: U32) returns (key: Bytes)
      requires Valid()
      modifies this`brandKeyCache
      ensures Valid() && key == Uncached(root, ChipKey(brandId, uid, epoch))
      ensures brandKeyCache == old(brandKeyCache)[brandId := DeriveBrandKey(root, brandId)]
    {
      var epochLe := EpochLe(epoch);
      var brandKey := WithBrandKey(brandId);
      key := DeriveChipKey(root, brandKey, uid, epochLe);
    }

    method DeriveHoney(brandId: Bytes, serial: Bytes) returns (key: Bytes)
      requires Valid()
      modifies this`brandKeyCache
      ensures Valid() && key == Uncached(root, HoneyKey(brandId, serial))
      ensures brandKeyCache == old(brandKeyCache)[brandId := DeriveBrandKey(root, brandId)]
    {
      var brandKey := WithBrandKey(brandId);
      key := DeriveHoneyKey(root, brandKey, serial);
    }

    method DeriveMother(brandId: Bytes, authorityUid: Bytes, epoch: U32) returns (key: Bytes)
      requires Valid()
      modifies this`brandKeyCache
      ensures Valid() && key == Uncached(root, MotherKey(brandId, authorityUid, epoch))
      ensures brandKeyCache == old(brandKeyCache)[brandId := DeriveBrandKey(root, brandId)]
    {
      var epochLe := EpochLe(epoch);
      var uid7: Uid7;
      if |authorityUid| >= 7 {
        uid7 := authorityUid[..7];
      } else {
        uid7 := authorityUid + seq(7 - |authorityUid|, _ => 0);
      }
      var brandKey := WithBrandKey(brandId);
      key := DeriveChipKey(root, brandKey, uid7, epochLe);
    }
  }
}

/** Any number of calls on the key service, interleaved in any way between their two locked sections. */
module KeyCacheRuns {
  import opened KeyDerivation

  datatype Phase = Started | Missed | Done(key: Bytes)

  datatype Call = Call(request: Request, phase: Phase)

  /** `derivations` logs every brand key derivation, in order. */
  datatype System = System(cache: map<Bytes, Key32>, derivations: seq<Bytes>, calls: seq<Call>)

  datatype Event = Arrive(request: Request) | Read(call: nat) | Write(call: nat)

  function SetPhase(s: System, i: nat, phase: Phase): System
    requires i < |s.calls|
  {
    s.(calls := s.calls[i := s.calls[i].(phase := phase)])
  }

  /** One locked section of one call; an event that is not enabled changes nothing. */
  function Next(root: Root, s: System, e: Event): System {
    match e
    case Arrive(r) => s.(calls := s.calls + [Call(r, Started)])
    case Read(i) =>
      if i >= |s.calls| || !s.calls[i].phase.Started? then s
      else
        var r := s.calls[i].request;
        SetPhase(s, i, if r.brandId in s.cache then Done(UseKey(root, s.cache[r.brandId], r)) else Missed)
    case Write(i) =>
      if i >= |s.calls| || !s.calls[i].phase.Missed? then s
      else
        var r := s.calls[i].request;
        if r.brandId in s.cache then SetPhase(s, i, Done(UseKey(root, s.cache[r.brandId], r)))
        else
          var key := DeriveBrandKey(root, r.brandId);
          SetPhase(s, i, Done(UseKey(root, key, r)))
            .(cache := s.cache[r.brandId := key], derivations := s.derivations + [r.brandId])
  }

  function Run(root: Root, events: seq<Event>): System {
    if events == [] then System(map[], [], [])
    else Next(root, Run(root, events[..|events| - 1]), events[|events| - 1])
  }

  predicate CacheIsDirect(root: Root, s: System) {
    forall b :: b in s.cache ==> s.cache[b] == DeriveBrandKey(root, b)
  }

  ghost predicate DerivedOnce(s: System) {
    && (forall i, j :: 0 <= i < j < |s.derivations| ==> s.derivations[i] != s.derivations[j])
    && (forall b :: b in s.derivations <==> b in s.cache)
  }

  predicate AnswersAreUncached(root: Root, s: System) {
    forall i :: 0 <= i < |s.calls| && s.calls[i].phase.Done? ==>
      s.calls[i].phase.key == Uncached(root, s.calls[i].request)
  }

  lemma StepKeepsCacheDirect(root: Root, s: System, e: Event)
    requires CacheIsDirect(root, s)
    ensures CacheIsDirect(root, Next(root, s, e))
  {
  }

  lemma StepDerivesOnce(root: Root, s: System, e: Event)
    requires DerivedOnce(s)
    ensures DerivedOnce(Next(root, s, e))
  {
  }

  lemma StepKeepsAnswers(root: Root, s: System, e: Event)
    requires CacheIsDirect(root, s) && AnswersAreUncached(root, s)
    ensures AnswersAreUncached(root, Next(root, s, e))
  {
  }

  /** However the calls interleave, the cache holds direct derivations only, each brand is derived at most once and
      exactly the cached brands are, and every answer is the one an uncached service gives. */
  lemma {:induction false} CacheIsTransparent(root: Root, events: seq<Event>)
    ensures var s := Run(root, events);
            CacheIsDirect(root, s) && DerivedOnce(s) && AnswersAreUncached(root, s)
  {
    hide Next;
    if events != [] {
      var n := |events| - 1;
      CacheIsTransparent(root, events[..n]);
      StepKeepsCacheDirect(root, Run(root, events[..n]), events[n]);
      StepDerivesOnce(root, Run(root, events[..n]), events[n]);
      StepKeepsAnswers(root, Run(root, events[..n]), events[n]);
    }
  }

  /** A call never goes back, and never forgets its request. */
  predicate Advanced(earlier: System, later: System) {
    && |earlier.calls| <= |later.calls|
    && forall i :: 0 <= i < |earlier.calls| ==>
         && later.calls[i].request == earlier.calls[i].request
         && (!earlier.calls[i].phase.Started? ==> !later.calls[i].phase.Started?)
         && (earlier.calls[i].phase.Done? ==> later.calls[i] == earlier.calls[i])
  }

  lemma StepAdvances(root: Root, s: System, e: Event)
    ensures Advanced(s, Next(root, s, e))
  {
  }

  lemma {:induction false} NeverGoesBack(root: Root, events: seq<Event>, m: nat, n: nat)
    requires m <= n <= |events|
    ensures Advanced(Run(root, events[..m]), Run(root, events[..n]))
    decreases n - m
  {
    hide Next;
    if m < n {
      NeverGoesBack(root, events, m, n - 1);
      assert events[..n][..n - 1] == events[..n - 1];
      StepAdvances(root, Run(root, events[..n - 1]), events[n - 1]);
    }
  }

  lemma ReadSectionLeavesStart(root: Root, s: System, i: nat)
    requires i < |s.calls|
    ensures i < |Next(root, s, Read(i)).calls| && !Next(root, s, Read(i)).calls[i].phase.Started?
  {
  }

  lemma WriteSectionFinishes(root: Root, s: System, i: nat)
    requires i < |s.calls| && !s.calls[i].phase.Started?
    ensures i < |Next(root, s, Write(i)).calls| && Next(root, s, Write(i)).calls[i].phase.Done?
  {
  }

  lemma RunAppend(root: Root, events: seq<Event>, k: nat)
    requires k < |events|
    ensures Run(root, events[..k + 1]) == Next(root, Run(root, events[..k]), events[k])
  {
    hide Next;
    assert events[..k + 1][..k] == events[..k];
  }

  /** A call that has run both its sections has the uncached answer, whatever the others did before, between and after. */
  lemma TwoSectionsAnswer(root: Root, events: seq<Event>, i: nat, p: nat, q: nat)
    requires p < q < |events| && events[p] == Read(i) && events[q] == Write(i)
    requires i < |Run(root, events[..p]).calls|
    ensures var s := Run(root, events);
            && i < |s.calls|
            && s.calls[i] == Call(Run(root, events[..p]).calls[i].request,
                                  Done(Uncached(root, Run(root, events[..p]).calls[i].request)))
  {
    hide Next, Run, Uncached, CacheIsDirect, DerivedOnce;
    RunAppend(root, events, p);
    RunAppend(root, events, q);
    ReadSectionLeavesStart(root, Run(root, events[..p]), i);
    NeverGoesBack(root, events, p, p + 1);
    NeverGoesBack(root, events, p + 1, q);
    WriteSectionFinishes(root, Run(root, events[..q]), i);
    NeverGoesBack(root, events, q, q + 1);
    NeverGoesBack(root, events, q + 1, |events|);
    assert events[..|events|] == events;
    CacheIsTransparent(root, events);
  }

  lemma HitFinishes(root: Root, s: System, i: nat)
    requires i < |s.calls| && s.calls[i].phase.Started? && s.calls[i].request.brandId in s.cache
    ensures i < |Next(root, s, Read(i)).calls| && Next(root, s, Read(i)).calls[i].phase.Done?
  {
  }

  /** Once its brand is cached, a call needs the section under the read lock only. */
  lemma OneSectionSuffices(root: Root, events: seq<Event>, i: nat, p: nat)
    requires p < |events| && events[p] == Read(i)
    requires var s := Run(root, events[..p]);
             i < |s.calls| && s.calls[i].phase.Started? && s.calls[i].request.brandId in s.cache
    ensures var s := Run(root, events);
            && i < |s.calls|
            && s.calls[i] == Call(Run(root, events[..p]).calls[i].request,
                                  Done(Uncached(root, Run(root, events[..p]).calls[i].request)))
  {
    hide Next, Run, Uncached, CacheIsDirect, DerivedOnce;
    RunAppend(root, events, p);
    HitFinishes(root, Run(root, events[..p]), i);
    NeverGoesBack(root, events, p, p + 1);
    NeverGoesBack(root, events, p + 1, |events|);
    assert events[..|events|] == events;
    CacheIsTransparent(root, events);
  }

  /** In any interleaving, two answers are the same key exactly if they were asked for the same one, or there is a
      collision. */
  lemma EqualAnswers(root: Root, events: seq<Event>, i: nat, j: nat)
    returns (key: Key32, m: Bytes, key': Key32, m': Bytes)
    requires var s := Run(root, events);
             && i < |s.calls| && s.calls[i].phase.Done?
             && j < |s.calls| && s.calls[j].phase.Done?
    ensures var s := Run(root, events);
            && (MeansSameKey(s.calls[i].request, s.calls[j].request) ==> s.calls[i].phase.key == s.calls[j].phase.key)
            && (s.calls[i].phase.key == s.calls[j].phase.key ==>
                  MeansSameKey(s.calls[i].request, s.calls[j].request) || Collides(root, key, m, key', m'))
  {
    hide Run, MeansSameKey, Uncached, Collides;
    CacheIsTransparent(root, events);
    var r, r' := Run(root, events).calls[i].request, Run(root, events).calls[j].request;
    key, m, key', m' := root.key, [], root.key, [];
    if MeansSameKey(r, r') {
      SameKeyForSameMeaning(root, r, r');
    } else if Uncached(root, r) == Uncached(root, r') {
      key, m, key', m' := KeysApart(root, r, r');
    }
  }
}
