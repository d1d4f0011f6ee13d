/** The command-line tool that reconciles each tag's counter in Redis with the one in Postgres. */
module Calibrate {
  import opened Wrappers
  import opened MachineInts

  const AUTO_SKIP_THRESHOLD := 1000

  /** The counter column by tag, and the `ctr:{uid}` keys. */
  datatype Stores = Stores(pg: map<string, Option<I32>>, redis: map<string, U32>)

  /** The tags whose reads or writes fail; the tool logs such a failure and goes on. */
  datatype Faults = Faults(
    listing: bool, pgReads: set<string>, redisReads: set<string>, redisWrites: set<string>, pgWrites: set<string>)

  const NO_FAULTS := Faults(false, {}, {}, {}, {})

  /** NULL reads as 0, and negative columns as the `u32` with the same bits. */
  function PgCtr(s: Stores, uid: string): U32 {
    if uid in s.pg then AsU32(s.pg[uid].GetOr(0)) else 0
  }

  function RedisCtr(s: Stores, uid: string, f: Faults): Option<U32> {
    if uid in s.redis && uid !in f.redisReads then Some(s.redis[uid]) else None
  }

  /** The column of a single tag; no row, NULL and a failed read all give nothing. */
  function PgColumn(s: Stores, uid: string, f: Faults): Option<I32> {
    if uid in s.pg && uid !in f.pgReads then s.pg[uid] else None
  }

  function WithPg(s: Stores, uid: string, ctr: U32, f: Faults): Stores {
    if uid in s.pg && uid !in f.pgWrites then s.(pg := s.pg[uid := Some(AsI32(ctr))]) else s
  }

  function WithRedis(s: Stores, uid: string, ctr: U32, f: Faults): Stores {
    if uid !in f.redisWrites then s.(redis := s.redis[uid := ctr]) else s
  }

  function Max(a: U32, b: U32): U32 {
    if a < b then b else a
  }

  function Difference(a: U32, b: U32): nat {
    if a < b then b - a else a - b
  }

  // ---- What the automatic pass is for ----

  /** The tags a check reports. */
  predicate Mismatched(s: Stores, uid: string, f: Faults) {
    uid in s.pg && RedisCtr(s, uid, f).Some? && s.redis[uid] != PgCtr(s, uid)
  }

  predicate Corrects(s: Stores, uid: string, f: Faults) {
    Mismatched(s, uid, f) && Difference(s.redis[uid], PgCtr(s, uid)) <= AUTO_SKIP_THRESHOLD
  }

  predicate Skips(s: Stores, uid: string, f: Faults) {
    Mismatched(s, uid, f) && Difference(s.redis[uid], PgCtr(s, uid)) > AUTO_SKIP_THRESHOLD
  }

  function AllCorrected(s: Stores, f: Faults): set<string> {
    set uid | uid in s.pg && Corrects(s, uid, f)
  }

  function AllSkipped(s: Stores, f: Faults): set<string> {
    set uid | uid in s.pg && Skips(s, uid, f)
  }

  /** What a pass leaves in the column of a tag: the larger Redis value, if the pair is correctable and the write lands. */
  function NewPg(s: Stores, uid: string, f: Faults): Option<I32>
    requires uid in s.pg
  {
    if Corrects(s, uid, f) && s.redis[uid] > PgCtr(s, uid) && uid !in f.pgWrites then Some(AsI32(s.redis[uid]))
    else s.pg[uid]
  }

  /** And under its key. */
  function NewRedis(s: Stores, uid: string, f: Faults): U32
    requires uid in s.redis
  {
    if Corrects(s, uid, f) && s.redis[uid] < PgCtr(s, uid) && uid !in f.redisWrites then PgCtr(s, uid)
    else s.redis[uid]
  }

  /** The whole pass, tag by tag. */
  function Calibrated(s: Stores, f: Faults): Stores {
    if f.listing then s
    else Stores(map uid | uid in s.pg :: NewPg(s, uid, f), map uid | uid in s.redis :: NewRedis(s, uid, f))
  }

  datatype UidCtr = UidCtr(uid: string, ctr: I32)

  datatype Mismatch = Mismatch(uid: string, redis: U32, pg: I32)

  datatype CalibrateAction = UseRedis | UsePg | UseMax | SetValue(value: Option<U32>)

  /** One tag calibrated by a given strategy. */
  function UidStep(s: Stores, uid: string, action: CalibrateAction, f: Faults): Stores {
    var pg, redis := PgColumn(s, uid, f), RedisCtr(s, uid, f);
    match action
    case UseRedis => if redis.None? then s else WithPg(s, uid, redis.value, f)
    case UsePg => if pg.None? then s else WithRedis(s, uid, AsU32(pg.value), f)
    case UseMax =>
      var r, p := redis.GetOr(0), AsU32(pg.GetOr(0));
      var top := Max(r, p);
      var s1 := if r < top then WithRedis(s, uid, top, f) else s;
      if p < top then WithPg(s1, uid, top, f) else s1
    case SetValue(value) => if value.None? then s else WithPg(WithRedis(s, uid, value.value, f), uid, value.value, f)
  }

  /** What a check suggests for a mismatch. */
  function Suggested(m: Mismatch): CalibrateAction {
    if m.redis > AsU32(m.pg) then UseRedis else UsePg
  }

  /** Tags without repetition, each with its column. */
  ghost predicate Entries(all: seq<UidCtr>, s: Stores) {
    && (forall i :: 0 <= i < |all| ==> all[i].uid in s.pg && all[i].ctr == s.pg[all[i].uid].GetOr(0))
    && (forall i, j :: 0 <= i < j < |all| ==> all[i].uid != all[j].uid)
  }

  predicate Among(all: seq<UidCtr>, uid: string) {
    exists i :: 0 <= i < |all| && all[i].uid == uid
  }

  /** Every tag once, in some order. */
  ghost predicate Lists(all: seq<UidCtr>, s: Stores) {
    && Entries(all, s)
    && forall uid :: uid in s.pg ==> exists i :: 0 <= i < |all| && all[i].uid == uid
  }

  // ---- Checking ----

  /** What the loop of a check collects. */
  function CheckPass(all: seq<UidCtr>, s: Stores, f: Faults): seq<Mismatch> {
    if all == [] then []
    else
      var last := all[|all| - 1];
      var redis := RedisCtr(s, last.uid, f);
      CheckPass(all[..|all| - 1], s, f)
      + (if redis.Some? && redis.value != AsU32(last.ctr) then [Mismatch(last.uid, redis.value, last.ctr)] else [])
  }

  lemma CheckPassNone(all: seq<UidCtr>, s: Stores, f: Faults)
    ensures CheckPass(all[..0], s, f) == []
  {
  }

  lemma CheckPassNext(all: seq<UidCtr>, s: Stores, f: Faults, i: nat)
    requires i < |all|
    ensures var redis := RedisCtr(s, all[i].uid, f);
            CheckPass(all[..i + 1], s, f)
            == CheckPass(all[..i], s, f)
               + (if redis.Some? && redis.value != AsU32(all[i].ctr)
                  then [Mismatch(all[i].uid, redis.value, all[i].ctr)] else [])
  {
    assert all[..i + 1][..i] == all[..i];
  }

  /** Exactly the mismatched tags, once each, with both values. */
  ghost predicate Reports(mismatches: seq<Mismatch>, s: Stores, f: Faults) {
    && (forall k :: 0 <= k < |mismatches| ==>
          var m := mismatches[k];
          Mismatched(s, m.uid, f) && m.redis == s.redis[m.uid] && m.pg == s.pg[m.uid].GetOr(0))
    && (forall i, j :: 0 <= i < j < |mismatches| ==> mismatches[i].uid != mismatches[j].uid)
    && (forall uid :: Mismatched(s, uid, f) ==> exists k :: 0 <= k < |mismatches| && mismatches[k].uid == uid)
  }

  predicate Found(mismatches: seq<Mismatch>, uid: string) {
    exists k :: 0 <= k < |mismatches| && mismatches[k].uid == uid
  }

  lemma {:induction false} CheckFinds(all: seq<UidCtr>, s: Stores, f: Faults)
    requires Entries(all, s)
    ensures var found := CheckPass(all, s, f);
            && |found| <= |all|
            && (forall k :: 0 <= k < |found| ==>
                  && Mismatched(s, found[k].uid, f) && Among(all, found[k].uid)
                  && found[k].redis == s.redis[found[k].uid] && found[k].pg == s.pg[found[k].uid].GetOr(0))
            && (forall i, j :: 0 <= i < j < |found| ==> found[i].uid != found[j].uid)
            && (forall i :: 0 <= i < |all| && Mismatched(s, all[i].uid, f) ==> Found(found, all[i].uid))
  {
    if all != [] {
      var n := |all| - 1;
      CheckFinds(all[..n], s, f);
      var found, before := CheckPass(all, s, f), CheckPass(all[..n], s, f);
      assert forall k :: 0 <= k < |before| ==> found[k] == before[k];
      forall uid | Among(all[..n], uid)
        ensures Among(all, uid) && uid != all[n].uid
      {
        var i :| 0 <= i < n && all[..n][i].uid == uid;
        assert all[i].uid == uid;
      }
      assert all[n].uid == all[n].uid && Among(all, all[n].uid);
      forall i | 0 <= i < |all| && Mismatched(s, all[i].uid, f)
        ensures Found(found, all[i].uid)
      {
        if i < n {
          assert all[..n][i] == all[i];
          var k :| 0 <= k < |before| && before[k].uid == all[i].uid;
          assert found[k].uid == all[i].uid;
        } else {
          assert found[|before|].uid == all[n].uid;
        }
      }
    }
  }

  lemma CheckReports(all: seq<UidCtr>, s: Stores, f: Faults)
    requires Lists(all, s)
    ensures Reports(CheckPass(all, s, f), s, f) && |CheckPass(all, s, f)| <= |all|
  {
    CheckFinds(all, s, f);
    forall uid | Mismatched(s, uid, f)
      ensures exists k :: 0 <= k < |CheckPass(all, s, f)| && CheckPass(all, s, f)[k].uid == uid
    {
      var i :| 0 <= i < |all| && all[i].uid == uid;
      assert Found(CheckPass(all, s, f), all[i].uid);
    }
  }

  lemma {:induction false} DistinctCount(all: seq<UidCtr>, s: Stores)
    requires Entries(all, s)
    ensures |set i | 0 <= i < |all| :: all[i].uid| == |all|
  {
    if all != [] {
      var n := |all| - 1;
      DistinctCount(all[..n], s);
      var before := set i | 0 <= i < n :: all[i].uid;
      assert before == set i | 0 <= i < n :: all[..n][i].uid;
      assert (set i | 0 <= i < |all| :: all[i].uid) == before + {all[n].uid};
    }
  }

  /** A list of all tags is as long as there are tags. */
  lemma ListedOnce(all: seq<UidCtr>, s: Stores)
    requires Lists(all, s)
    ensures |all| == |s.pg|
  {
    DistinctCount(all, s);
    assert (set i | 0 <= i < |all| :: all[i].uid) == s.pg.Keys;
  }

  // ---- The automatic pass ----

  datatype Pass = Pass(stores: Stores, corrected: nat, skipped: nat)

  /** One turn of the loop, with the counter listed before the pass began. */
  function AutoStep(p: Pass, entry: UidCtr, f: Faults): Pass {
    var redis, pg := RedisCtr(p.stores, entry.uid, f), AsU32(entry.ctr);
    if redis.None? || redis.value == pg then p
    else if Difference(redis.value, pg) > AUTO_SKIP_THRESHOLD then p.(skipped := p.skipped + 1)
    else if redis.value > pg then Pass(WithPg(p.stores, entry.uid, redis.value, f), p.corrected + 1, p.skipped)
    else Pass(WithRedis(p.stores, entry.uid, pg, f), p.corrected + 1, p.skipped)
  }

  function AutoPass(all: seq<UidCtr>, s: Stores, f: Faults): Pass {
    if all == [] then Pass(s, 0, 0) else AutoStep(AutoPass(all[..|all| - 1], s, f), all[|all| - 1], f)
  }

  /** The stores agree on one tag. */
  predicate SameAt(s: Stores, t: Stores, uid: string) {
    && (uid in s.pg <==> uid in t.pg) && (uid in s.redis <==> uid in t.redis)
    && (uid in s.pg ==> s.pg[uid] == t.pg[uid])
    && (uid in s.redis ==> s.redis[uid] == t.redis[uid])
  }

  lemma StepIsLocal(p: Pass, entry: UidCtr, f: Faults, uid: string)
    requires uid != entry.uid
    ensures SameAt(AutoStep(p, entry, f).stores, p.stores, uid)
  {
  }

  lemma StepCalibrates(p: Pass, s: Stores, entry: UidCtr, f: Faults)
    requires !f.listing && entry.uid in s.pg && entry.ctr == s.pg[entry.uid].GetOr(0)
    requires SameAt(p.stores, s, entry.uid)
    ensures var after := AutoStep(p, entry, f);
            && SameAt(after.stores, Calibrated(s, f), entry.uid)
            && after.corrected == p.corrected + (if Corrects(s, entry.uid, f) then 1 else 0)
            && after.skipped == p.skipped + (if Skips(s, entry.uid, f) then 1 else 0)
  {
  }

  /** After a pass over some tags, those are calibrated and all others untouched. */
  lemma {:induction false} PassCalibrates(all: seq<UidCtr>, s: Stores, f: Faults, uid: string)
    requires Entries(all, s) && !f.listing
    ensures SameAt(AutoPass(all, s, f).stores, if Among(all, uid) then Calibrated(s, f) else s, uid)
  {
    hide AutoStep, Calibrated;
    if all != [] {
      var n := |all| - 1;
      PassCalibrates(all[..n], s, f, uid);
      assert Among(all[..n], uid) ==> Among(all, uid) by {
        if Among(all[..n], uid) {
          var i :| 0 <= i < n && all[..n][i].uid == uid;
          assert all[i].uid == uid;
        }
      }
      if uid == all[n].uid {
        assert !Among(all[..n], uid);
        StepCalibrates(AutoPass(all[..n], s, f), s, all[n], f);
      } else {
        assert Among(all, uid) ==> Among(all[..n], uid) by {
          if Among(all, uid) {
            var i :| 0 <= i < |all| && all[i].uid == uid;
            assert all[..n][i].uid == uid;
          }
        }
        StepIsLocal(AutoPass(all[..n], s, f), all[n], f, uid);
      }
    }
  }

  /** The listed tags of one kind. */
  function Chosen(all: seq<UidCtr>, kind: string -> bool): set<string> {
    if all == [] then {}
    else
      var last := all[|all| - 1].uid;
      Chosen(all[..|all| - 1], kind) + (if kind(last) then {last} else {})
  }

  lemma {:induction false} ChosenAre(all: seq<UidCtr>, kind: string -> bool)
    ensures forall uid :: uid in Chosen(all, kind) <==> Among(all, uid) && kind(uid)
  {
    if all != [] {
      var n := |all| - 1;
      ChosenAre(all[..n], kind);
      forall uid
        ensures Among(all, uid) <==> Among(all[..n], uid) || uid == all[n].uid
      {
        AmongFront(all, uid);
      }
    }
  }

  lemma AmongFront(all: seq<UidCtr>, uid: string)
    requires all != []
    ensures Among(all, uid) <==> Among(all[..|all| - 1], uid) || uid == all[|all| - 1].uid
  {
    var front := all[..|all| - 1];
    if Among(all, uid) && uid != all[|all| - 1].uid {
      var i :| 0 <= i < |all| && all[i].uid == uid;
      assert front[i].uid == uid;
    }
    if Among(front, uid) {
      var i :| 0 <= i < |front| && front[i].uid == uid;
      assert all[i].uid == uid;
    }
  }

  lemma {:induction false} PassCounts(all: seq<UidCtr>, s: Stores, f: Faults)
    requires Entries(all, s) && !f.listing
    ensures AutoPass(all, s, f).corrected == |Chosen(all, uid => Corrects(s, uid, f))|
    ensures AutoPass(all, s, f).skipped == |Chosen(all, uid => Skips(s, uid, f))|
  {
    hide AutoStep, Calibrated, Corrects, Skips, Among;
    if all != [] {
      var n := |all| - 1;
      var last := all[n];
      PassCounts(all[..n], s, f);
      PassCalibrates(all[..n], s, f, last.uid);
      LastIsNew(all, s);
      StepCalibrates(AutoPass(all[..n], s, f), s, last, f);
      ChosenAre(all[..n], uid => Corrects(s, uid, f));
      ChosenAre(all[..n], uid => Skips(s, uid, f));
    }
  }

  lemma LastIsNew(all: seq<UidCtr>, s: Stores)
    requires Entries(all, s) && all != []
    ensures !Among(all[..|all| - 1], all[|all| - 1].uid)
  {
  }

  lemma SameEverywhere(s: Stores, t: Stores)
    requires forall uid :: SameAt(s, t, uid)
    ensures s == t
  {
    forall uid: string
      ensures (uid in s.pg <==> uid in t.pg) && (uid in s.redis <==> uid in t.redis)
      ensures uid in s.pg ==> s.pg[uid] == t.pg[uid]
      ensures uid in s.redis ==> s.redis[uid] == t.redis[uid]
    {
      assert SameAt(s, t, uid);
    }
    assert s.pg == t.pg && s.redis == t.redis;
  }

  lemma AmongListed(all: seq<UidCtr>, s: Stores, uid: string)
    requires Lists(all, s)
    ensures uid in s.pg <==> Among(all, uid)
  {
  }

  lemma PassIsCalibrated(all: seq<UidCtr>, s: Stores, f: Faults)
    requires Lists(all, s) && !f.listing
    ensures AutoPass(all, s, f).stores == Calibrated(s, f)
  {
    hide AutoPass, Calibrated, SameAt, Among;
    forall uid
      ensures SameAt(AutoPass(all, s, f).stores, Calibrated(s, f), uid)
    {
      PassCalibrates(all, s, f, uid);
      AmongListed(all, s, uid);
      if uid !in s.pg {
        OthersUncalibrated(s, f, uid);
      }
    }
    SameEverywhere(AutoPass(all, s, f).stores, Calibrated(s, f));
  }

  lemma CorrectedAreChosen(all: seq<UidCtr>, s: Stores, f: Faults)
    requires Lists(all, s)
    ensures Chosen(all, uid => Corrects(s, uid, f)) == AllCorrected(s, f)
  {
    hide Among, Lists, Corrects, Chosen;
    ChosenAre(all, uid => Corrects(s, uid, f));
    forall uid
      ensures uid in s.pg <==> Among(all, uid)
    {
      AmongListed(all, s, uid);
    }
  }

  lemma SkippedAreChosen(all: seq<UidCtr>, s: Stores, f: Faults)
    requires Lists(all, s)
    ensures Chosen(all, uid => Skips(s, uid, f)) == AllSkipped(s, f)
  {
    hide Among, Lists, Skips, Chosen;
    ChosenAre(all, uid => Skips(s, uid, f));
    forall uid
      ensures uid in s.pg <==> Among(all, uid)
    {
      AmongListed(all, s, uid);
    }
  }

  lemma PassCountsAll(all: seq<UidCtr>, s: Stores, f: Faults)
    requires Lists(all, s) && !f.listing
    ensures AutoPass(all, s, f).corrected == |AllCorrected(s, f)|
    ensures AutoPass(all, s, f).skipped == |AllSkipped(s, f)|
  {
    hide *;
    PassCounts(all, s, f) by { EntriesOfList(all, s); }
    CorrectedAreChosen(all, s, f);
    SkippedAreChosen(all, s, f);
  }

  lemma EntriesOfList(all: seq<UidCtr>, s: Stores)
    requires Lists(all, s)
    ensures Entries(all, s)
  {
  }

  lemma OthersUncalibrated(s: Stores, f: Faults, uid: string)
    requires uid !in s.pg
    ensures forall t :: SameAt(t, s, uid) ==> SameAt(t, Calibrated(s, f), uid)
  {
  }

  lemma NothingListed(s: Stores, f: Faults)
    requires f.listing
    ensures Calibrated(s, f) == s
  {
  }

  class CtrStores {
    var pg: map<string, Option<I32>>
    var redis: map<string, U32>

    constructor (pg: map<string, Option<I32>>, redis: map<string, U32>)
      ensures View() == Stores(pg, redis)
    {
      this.pg, this.redis := pg, redis;
    }

    function View(): Stores
      reads this
    {
      Stores(pg, redis)
    }

    /** Every tag once, in no particular order; nothing if the query fails. */
    method FetchAllUidsWithCtr(f: Faults) returns (all: seq<UidCtr>)
      ensures if f.listing then all == [] else Lists(all, View())
    {
      all := [];
      if f.listing {
        return;
      }
      var rest := pg.Keys;
      while rest != {}
        invariant rest <= pg.Keys
        invariant forall i :: 0 <= i < |all| ==> all[i].uid in pg && all[i].ctr == pg[all[i].uid].GetOr(0)
        invariant forall i :: 0 <= i < |all| ==> all[i].uid !in rest
        invariant forall i, j :: 0 <= i < j < |all| ==> all[i].uid != all[j].uid
        invariant forall uid :: uid in pg && uid !in rest ==> exists i :: 0 <= i < |all| && all[i].uid == uid
        decreases |rest|
      {
        var uid :| uid in rest;
        ghost var listed := all;
        all := all + [UidCtr(uid, pg[uid].GetOr(0))];
        rest := rest - {uid};
        assert all[|listed|].uid == uid;
        assert forall i :: 0 <= i < |listed| ==> all[i] == listed[i];
      }
    }

    /** A failed query is logged and taken for a missing value. */
    method FetchPgCtr(uid: string, f: Faults) returns (ctr: Option<I32>)
      ensures ctr.Some? ==> uid in pg && pg[uid] == ctr && uid !in f.pgReads
      ensures ctr.None? ==> uid !in pg || pg[uid].None? || uid in f.pgReads
    {
      if uid !in pg || uid in f.pgReads {
        return None;
      }
      ctr := pg[uid];
    }

    method UpdatePgCtr(uid: string, ctr: U32, f: Faults)
      modifies this`pg
      ensures View() == WithPg(old(View()), uid, ctr, f)
    {
      if uid in pg && uid !in f.pgWrites {
        pg := pg[uid := Some(AsI32(ctr))];
      }
    }

    method SetRedisCtr(uid: string, ctr: U32, f: Faults)
      modifies this`redis
      ensures View() == WithRedis(old(View()), uid, ctr, f)
    {
      if uid !in f.redisWrites {
        redis := redis[uid := ctr];
      }
    }

    method RunCheck(f: Faults) returns (total: nat, consistent: nat, mismatches: seq<Mismatch>)
      ensures total == if f.listing then 0 else |pg|
      ensures consistent + |mismatches| == total
      ensures !f.listing ==> Reports(mismatches, View(), f)
    {
      hide CheckPass, Reports, Lists, Mismatched;
      var all := FetchAllUidsWithCtr(f);
      total, consistent, mismatches := |all|, 0, [];
      CheckPassNone(all, View(), f);
      var i := 0;
      while i < |all|
        invariant 0 <= i <= |all|
        invariant consistent + |mismatches| == i
        invariant mismatches == CheckPass(all[..i], View(), f)
      {
        var uid, pgCtr := all[i].uid, all[i].ctr;
        var redisCtr := RedisCtr(View(), uid, f);
        CheckPassNext(all, View(), f, i);
        if redisCtr.Some? && redisCtr.value != AsU32(pgCtr) {
          mismatches := mismatches + [Mismatch(uid, redisCtr.value, pgCtr)];
        } else {
          consistent := consistent + 1;
        }
        i := i + 1;
      }
      assert all[..|all|] == all;
      if !f.listing {
        CheckReports(all, View(), f);
        ListedOnce(all, View());
      }
    }

    /** The automatic pass; `corrected` counts the corrections it attempted. */
    method RunAuto(f: Faults) returns (corrected: nat, skipped: nat)
      modifies this
      ensures View() == Calibrated(old(View()), f)
      ensures corrected == if f.listing then 0 else |AllCorrected(old(View()), f)|
      ensures skipped == if f.listing then 0 else |AllSkipped(old(View()), f)|
    {
      hide Calibrated, AllCorrected, AllSkipped, Lists;
      var all := FetchAllUidsWithCtr(f);
      corrected, skipped := 0, 0;
      var i := 0;
      while i < |all|
        invariant 0 <= i <= |all|
        invariant Pass(View(), corrected, skipped) == AutoPass(all[..i], old(View()), f)
      {
        var uid, pgCtr := all[i].uid, all[i].ctr;
        var redisCtr := RedisCtr(View(), uid, f);
        var pgU32 := AsU32(pgCtr);
        assert all[..i + 1][..i] == all[..i];
        i := i + 1;
        if redisCtr.None? || redisCtr.value == pgU32 {
          continue;
        }
        if Difference(redisCtr.value, pgU32) > AUTO_SKIP_THRESHOLD {
          skipped := skipped + 1;
          continue;
        }
        if redisCtr.value > pgU32 {
          UpdatePgCtr(uid, redisCtr.value, f);
        } else {
          SetRedisCtr(uid, pgU32, f);
        }
        corrected := corrected + 1;
      }
      assert all[..|all|] == all;
      if f.listing {
        NothingListed(old(View()), f);
      } else {
        PassIsCalibrated(all, old(View()), f);
        PassCountsAll(all, old(View()), f);
      }
    }

    method RunUid(uid: string, action: CalibrateAction, f: Faults)
      modifies this
      ensures View() == UidStep(old(View()), uid, action, f)
    {
      var pgCtr := FetchPgCtr(uid, f);
      var redisCtr := RedisCtr(View(), uid, f);
      match action {
        case UseRedis =>
          if redisCtr.Some? {
            UpdatePgCtr(uid, redisCtr.value, f);
          }
        case UsePg =>
          if pgCtr.Some? {
            SetRedisCtr(uid, AsU32(pgCtr.value), f);
          }
        case UseMax =>
          var r, p := redisCtr.GetOr(0), AsU32(pgCtr.GetOr(0));
          var top := Max(r, p);
          if r < top {
            SetRedisCtr(uid, top, f);
          }
          if p < top {
            UpdatePgCtr(uid, top, f);
          }
        case SetValue(value) =>
          if value.Some? {
            SetRedisCtr(uid, value.value, f);
            UpdatePgCtr(uid, value.value, f);
          }
      }
    }
  }


  // ---- What the tool guarantees ----

  /** A tag both sides show, with different values at most 1000 apart, whose lower side can be written. */
  predicate Correctable(s: Stores, uid: string, f: Faults) {
    && !f.listing && uid in s.pg && uid in s.redis && uid !in f.redisReads
    && var p, r := PgCtr(s, uid), s.redis[uid];
       p != r && -1000 <= p - r <= 1000 && (if p < r then uid !in f.pgWrites else uid !in f.redisWrites)
  }

  /** After one pass both sides of every such tag hold the old maximum, every other tag is as it was, and neither side ever
      falls, for all columns and keys whatever fails. */
  lemma AutoReconciles(s: Stores, f: Faults, uid: string)
    ensures var after := Calibrated(s, f);
            && after.pg.Keys == s.pg.Keys && after.redis.Keys == s.redis.Keys
            && PgCtr(s, uid) <= PgCtr(after, uid)
            && (uid in s.redis ==> s.redis[uid] <= after.redis[uid])
            && (if Correctable(s, uid, f)
                then PgCtr(after, uid) == after.redis[uid] == if PgCtr(s, uid) < s.redis[uid] then s.redis[uid]
                                                              else PgCtr(s, uid)
                else SameAt(after, s, uid))
  {
    if uid in s.redis {
      CastRoundTrip(0, s.redis[uid]);
    }
  }

  /** Which tags a check reports, and which of them a pass counts as corrected and as skipped. */
  lemma CountedTags(s: Stores, f: Faults, mismatches: seq<Mismatch>, uid: string)
    requires Reports(mismatches, s, f)
    ensures var both := uid in s.pg && uid in s.redis && uid !in f.redisReads;
            var apart := if both then s.redis[uid] - PgCtr(s, uid) else 0;
            && (Found(mismatches, uid) <==> apart != 0)
            && (uid in AllCorrected(s, f) <==> apart != 0 && -1000 <= apart <= 1000)
            && (uid in AllSkipped(s, f) <==> apart < -1000 || apart > 1000)
  {
    assert Found(mismatches, uid) <==> Mismatched(s, uid, f);
  }

  /** One tag of the result. */
  lemma CalibratedAt(s: Stores, f: Faults, uid: string)
    requires !f.listing
    ensures var after := Calibrated(s, f);
            && (uid in after.pg <==> uid in s.pg) && (uid in after.redis <==> uid in s.redis)
            && (uid in s.pg ==> after.pg[uid] == NewPg(s, uid, f))
            && (uid in s.redis ==> after.redis[uid] == NewRedis(s, uid, f))
  {
  }

  /** A tag that is corrected has nothing left to correct, one that is not is corrected as it would have been. */
  lemma RepeatAt(s: Stores, f: Faults, uid: string)
    ensures SameAt(Calibrated(Calibrated(s, f), NO_FAULTS), Calibrated(s, NO_FAULTS), uid)
  {
    if !f.listing {
      var once := Calibrated(s, f);
      CalibratedAt(s, f, uid);
      CalibratedAt(once, NO_FAULTS, uid);
      CalibratedAt(s, NO_FAULTS, uid);
      hide Calibrated;
      if uid in s.pg && uid in s.redis {
        RepeatPair(s, once, f, uid);
      }
    }
  }

  lemma RepeatPair(s: Stores, once: Stores, f: Faults, uid: string)
    requires uid in s.pg && uid in s.redis && uid in once.pg && uid in once.redis
    requires once.pg[uid] == NewPg(s, uid, f) && once.redis[uid] == NewRedis(s, uid, f)
    ensures NewPg(once, uid, NO_FAULTS) == NewPg(s, uid, NO_FAULTS)
    ensures NewRedis(once, uid, NO_FAULTS) == NewRedis(s, uid, NO_FAULTS)
  {
    CastRoundTrip(0, s.redis[uid]);
    assert Corrects(s, uid, f) ==> Corrects(s, uid, NO_FAULTS);
    if NewPg(s, uid, f) != s.pg[uid] {
      assert PgCtr(once, uid) == s.redis[uid] == once.redis[uid];
    } else if NewRedis(s, uid, f) != s.redis[uid] {
      assert PgCtr(once, uid) == PgCtr(s, uid) == once.redis[uid];
    }
  }

  /** A pass that went wrong anywhere can simply be repeated: a clean pass after it ends where a clean pass alone would
      have. In particular a clean pass is idempotent. */
  lemma RepeatedPassRecovers(s: Stores, f: Faults)
    ensures Calibrated(Calibrated(s, f), NO_FAULTS) == Calibrated(s, NO_FAULTS)
  {
    forall uid
      ensures SameAt(Calibrated(Calibrated(s, f), NO_FAULTS), Calibrated(s, NO_FAULTS), uid)
    {
      RepeatAt(s, f, uid);
    }
    SameEverywhere(Calibrated(Calibrated(s, f), NO_FAULTS), Calibrated(s, NO_FAULTS));
  }

  /** After a clean pass a check reports exactly the tags that were skipped. */
  lemma CheckAfterAutoReportsSkipped(s: Stores, mismatches: seq<Mismatch>, uid: string)
    requires Reports(mismatches, Calibrated(s, NO_FAULTS), NO_FAULTS)
    ensures Found(mismatches, uid)
       <==> uid in s.pg && uid in s.redis
            && (s.redis[uid] - PgCtr(s, uid) > 1000 || PgCtr(s, uid) - s.redis[uid] > 1000)
  {
    var after := Calibrated(s, NO_FAULTS);
    AutoReconciles(s, NO_FAULTS, uid);
    assert Found(mismatches, uid) <==> Mismatched(after, uid, NO_FAULTS);
  }

  // ---- One tag ----

  /** The value Redis holds, read or not; no key counts as 0. */
  function RedisValue(s: Stores, uid: string): U32 {
    if uid in s.redis then s.redis[uid] else 0
  }

  /** Redis' read fails, so it is taken for 0, and the smaller column is written over it. */
  predicate LowersRedis(s: Stores, uid: string, f: Faults) {
    && uid in f.redisReads && uid !in f.redisWrites && uid !in f.pgReads
    && 0 < PgCtr(s, uid) < RedisValue(s, uid)
  }

  /** The column's read fails, so it is taken for 0, and the smaller Redis value is written over it. */
  predicate LowersPg(s: Stores, uid: string, f: Faults) {
    && uid in f.pgReads && uid !in f.pgWrites && uid !in f.redisReads
    && 0 < RedisValue(s, uid) < PgCtr(s, uid)
  }

  /** Taking the maximum lowers a side exactly if that side's read fails, its write lands, and the other side, which is
      read, holds less but not nothing. */
  lemma UseMaxLowersIff(s: Stores, uid: string, f: Faults)
    ensures var after := UidStep(s, uid, UseMax, f);
            && (RedisValue(after, uid) < RedisValue(s, uid) <==> LowersRedis(s, uid, f))
            && (PgCtr(after, uid) < PgCtr(s, uid) <==> LowersPg(s, uid, f))
  {
    CastRoundTrip(0, RedisValue(s, uid));
  }

  /** Postgres holds 10 and Redis 50; with Redis unreadable for a moment, 50 is overwritten by 10. */
  lemma UseMaxCanLower(uid: string)
    ensures var s := Stores(map[uid := Some(10)], map[uid := 50]);
            UidStep(s, uid, UseMax, NO_FAULTS.(redisReads := {uid}))
            == Stores(map[uid := Some(10)], map[uid := 10])
  {
  }

  /** What taking the maximum leaves on each side, whatever fails: that side's own value, or the larger of the values
      read if it is larger than the one read and the write lands. */
  lemma UseMaxLeaves(s: Stores, uid: string, f: Faults)
    ensures var after, r, p := UidStep(s, uid, UseMax, f), RedisCtr(s, uid, f).GetOr(0), AsU32(PgColumn(s, uid, f).GetOr(0));
            && RedisValue(after, uid) == (if r < p && uid !in f.redisWrites then p else RedisValue(s, uid))
            && PgCtr(after, uid) == (if p < r && uid !in f.pgWrites && uid in s.pg then r else PgCtr(s, uid))
            && forall other :: other != uid ==> SameAt(after, s, other)
  {
    CastRoundTrip(0, RedisValue(s, uid));
  }

  /** What the other strategies leave: one side copied to the other, or a given value on both, each side only if the value is
      there to copy and the write lands; no tag gets a column it did not have. */
  lemma StrategyLeaves(s: Stores, uid: string, action: CalibrateAction, f: Faults)
    requires !action.UseMax?
    ensures var after := UidStep(s, uid, action, f);
            && (forall other :: other != uid ==> SameAt(after, s, other))
            && after.pg.Keys == s.pg.Keys
            && match action
               case UseRedis =>
                 && after.redis == s.redis
                 && (if uid in s.redis && uid !in f.redisReads && uid in s.pg && uid !in f.pgWrites
                     then PgCtr(after, uid) == s.redis[uid]
                     else after == s)
               case UsePg =>
                 && after.pg == s.pg
                 && after.redis == if uid in s.pg && s.pg[uid].Some? && uid !in f.pgReads && uid !in f.redisWrites
                                   then s.redis[uid := PgCtr(s, uid)] else s.redis
               case SetValue(None) => after == s
               case SetValue(Some(value)) =>
                 && after.redis == (if uid in f.redisWrites then s.redis else s.redis[uid := value])
                 && (if uid in s.pg && uid !in f.pgWrites then PgCtr(after, uid) == value else after.pg == s.pg)
  {
    if uid in s.redis {
      CastRoundTrip(0, s.redis[uid]);
    }
    if action.SetValue? && action.value.Some? {
      CastRoundTrip(0, action.value.value);
    }
  }

  /** With both sides read and written, taking the maximum lowers neither and makes them agree, unless the tag is known to
      Redis only. */
  lemma UseMaxAgrees(s: Stores, uid: string, f: Faults)
    requires uid !in f.pgReads && uid !in f.redisReads && uid !in f.pgWrites && uid !in f.redisWrites
    ensures var after := UidStep(s, uid, UseMax, f);
            && PgCtr(s, uid) <= PgCtr(after, uid) && RedisValue(s, uid) <= RedisValue(after, uid)
            && (PgCtr(after, uid) == RedisValue(after, uid) <==> uid in s.pg || RedisValue(s, uid) == 0)
  {
    hide UidStep;
    UseMaxLeaves(s, uid, f);
  }

  /** Following a check's suggestion is the same as taking the maximum, exactly unless taking the maximum would lower a
      side: the suggestion reads one side only and does nothing if that fails. */
  lemma SuggestionTakesMaximum(s: Stores, mismatches: seq<Mismatch>, k: nat, checked: Faults, f: Faults)
    requires Reports(mismatches, s, checked) && k < |mismatches|
    ensures var m := mismatches[k];
            UidStep(s, m.uid, Suggested(m), f) == UidStep(s, m.uid, UseMax, f)
            <==> !LowersRedis(s, m.uid, f) && !LowersPg(s, m.uid, f)
  {
    var m := mismatches[k];
    assert Mismatched(s, m.uid, checked) && m.redis == s.redis[m.uid] && m.pg == s.pg[m.uid].GetOr(0);
    SuggestionOn(s, m, f);
  }

  lemma SuggestionOn(s: Stores, m: Mismatch, f: Faults)
    requires m.uid in s.pg && m.uid in s.redis && m.redis == s.redis[m.uid] && m.pg == s.pg[m.uid].GetOr(0)
    requires m.redis != AsU32(m.pg)
    ensures UidStep(s, m.uid, Suggested(m), f) == UidStep(s, m.uid, UseMax, f)
       <==> !LowersRedis(s, m.uid, f) && !LowersPg(s, m.uid, f)
  {
    UseMaxLowersIff(s, m.uid, f);
    CastRoundTrip(0, m.redis);
  }
}
