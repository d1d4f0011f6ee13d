/** The webhook delivery queue and the one worker that drains it. */
module Webhook {
  import opened Wrappers

  /** `maxRetries` comes from the environment and can be any integer. */
  datatype RetryConfig = RetryConfig(maxRetries: int, backoffSeconds: seq<nat>)

  const BACKOFF_SECONDS: seq<nat> := [60, 300, 900]

  const BATCH_LIMIT: nat := 10

  datatype Status = Pending | Sent | Abandoned

  datatype Delivery = Delivery(
    webhookId: string, status: Status, attempts: nat, lastAttemptAt: Option<nat>, nextRetryAt: Option<nat>,
    responseStatus: Option<int>)

  /** An HTTP request that was made; `recorded` if the row update after it succeeded. */
  datatype Send = Send(id: nat, at: nat, delivered: bool, recorded: bool)

  /** The table in creation order, an id being a place in it, with the clock and everything sent so far. */
  datatype System = System(now: nat, rows: seq<Delivery>, sends: seq<Send>)

  /** A delivery as it was fetched. */
  datatype Fetched = Fetched(id: nat, row: Delivery)

  /** What happens while one delivery is handled: how long it waits and takes, the response, and whether the row update
      gets through. No response at all has code 0. */
  datatype Work = Work(wait: nat, duration: nat, code: nat, recorded: bool)

  const NO_WORK := Work(0, 0, 0, true)

  predicate Ready(row: Delivery, now: nat) {
    row.status == Pending && (row.nextRetryAt.None? || row.nextRetryAt.value <= now)
  }

  /** The first `limit` ready rows among those before `n`. */
  function Fetch(rows: seq<Delivery>, now: nat, limit: nat, n: nat): seq<Fetched>
    requires n <= |rows|
  {
    if n == 0 then []
    else
      var before := Fetch(rows, now, limit, n - 1);
      if |before| < limit && Ready(rows[n - 1], now) then before + [Fetched(n - 1, rows[n - 1])] else before
  }

  predicate Delivered(w: Work) {
    200 <= w.code < 300
  }

  function AfterSuccess(row: Delivery, now: nat, code: nat): Delivery {
    row.(status := Sent, attempts := row.attempts + 1, lastAttemptAt := Some(now), responseStatus := Some(code))
  }

  /** `attempts` is counted from the row as fetched, the column from the row as stored. */
  function AfterFailure(cfg: RetryConfig, row: Delivery, fetched: Delivery, now: nat, code: nat): Delivery {
    var attempts := fetched.attempts + 1;
    var maxReached := attempts >= cfg.maxRetries;
    row.(status := if maxReached then Abandoned else Pending,
         attempts := row.attempts + 1,
         lastAttemptAt := Some(now),
         nextRetryAt := if !maxReached && attempts - 1 < |cfg.backoffSeconds|
                        then Some(now + cfg.backoffSeconds[attempts - 1]) else None,
         responseStatus := if code > 0 then Some(code) else None)
  }

  predicate IsActive(configs: map<string, string>, webhookId: string) {
    webhookId in configs && configs[webhookId] == "Active"
  }

  function ProcessOne(cfg: RetryConfig, s: System, configs: map<string, string>, d: Fetched, w: Work): System
    requires d.id < |s.rows|
  {
    var at := s.now + w.wait;
    if !IsActive(configs, d.row.webhookId) then s.(now := at)
    else
      var ended := at + w.duration;
      var row := s.rows[d.id];
      var after := if Delivered(w) then AfterSuccess(row, ended, w.code)
                   else AfterFailure(cfg, row, d.row, ended, w.code);
      System(ended, if w.recorded then s.rows[d.id := after] else s.rows,
             s.sends + [Send(d.id, at, Delivered(w), w.recorded)])
  }

  predicate InTable(fetched: seq<Fetched>, n: nat) {
    forall k :: 0 <= k < |fetched| ==> fetched[k].id < n
  }

  function WorkAt(works: seq<Work>, k: nat): Work {
    if k < |works| then works[k] else NO_WORK
  }

  function Process(cfg: RetryConfig, s: System, configs: map<string, string>, fetched: seq<Fetched>, works: seq<Work>)
    : (t: System)
    requires InTable(fetched, |s.rows|)
    ensures |t.rows| == |s.rows|
  {
    if fetched == [] then s
    else
      var n := |fetched| - 1;
      ProcessOne(cfg, Process(cfg, s, configs, fetched[..n], works), configs, fetched[n], WorkAt(works, n))
  }

  /** A fetch returns ready rows, unchanged and in order, at most as many as asked for. */
  lemma {:induction false} FetchesReadyRows(rows: seq<Delivery>, now: nat, limit: nat, n: nat)
    requires n <= |rows|
    ensures var f := Fetch(rows, now, limit, n);
            && |f| <= limit
            && (forall k :: 0 <= k < |f| ==> f[k].id < n && f[k].row == rows[f[k].id] && Ready(f[k].row, now))
            && (forall j, k :: 0 <= j < k < |f| ==> f[j].id < f[k].id)
    ensures forall f | f in Fetch(rows, now, limit, n) ::
              f.row.status == Pending && (f.row.nextRetryAt.Some? ==> f.row.nextRetryAt.value <= now)
  {
    if n > 0 {
      FetchesReadyRows(rows, now, limit, n - 1);
    }
  }

  /** And none is passed over: a pending row that is not held back and not returned comes after as many others as were asked
      for. */
  lemma {:induction false} FetchesOldest(rows: seq<Delivery>, now: nat, limit: nat, n: nat, id: nat)
    requires id < n <= |rows| && rows[id].status == Pending
    requires rows[id].nextRetryAt.Some? ==> rows[id].nextRetryAt.value <= now
    ensures var f := Fetch(rows, now, limit, n);
            Fetched(id, rows[id]) in f || (|f| == limit && forall k :: 0 <= k < |f| ==> f[k].id < id)
  {
    FetchesReadyRows(rows, now, limit, n - 1);
    var before, f := Fetch(rows, now, limit, n - 1), Fetch(rows, now, limit, n);
    if id < n - 1 {
      FetchesOldest(rows, now, limit, n - 1, id);
    } else if |before| < limit {
      assert f[|before|] == Fetched(id, rows[id]);
    }
  }

  lemma FetchedInTable(rows: seq<Delivery>, now: nat, limit: nat)
    ensures InTable(Fetch(rows, now, limit, |rows|), |rows|)
  {
    FetchesReadyRows(rows, now, limit, |rows|);
  }

  /** One turn of the worker's loop. */
  function Batch(cfg: RetryConfig, s: System, wait: nat, configs: map<string, string>, works: seq<Work>): System {
    var s1 := s.(now := s.now + wait);
    FetchedInTable(s1.rows, s1.now, BATCH_LIMIT);
    Process(cfg, s1, configs, Fetch(s1.rows, s1.now, BATCH_LIMIT, |s1.rows|), works)
  }

  lemma ProcessNone(cfg: RetryConfig, s: System, configs: map<string, string>, fetched: seq<Fetched>, works: seq<Work>)
    ensures Process(cfg, s, configs, fetched[..0], works) == s
  {
  }

  lemma ProcessOneMore(cfg: RetryConfig, s: System, configs: map<string, string>, fetched: seq<Fetched>, works: seq<Work>,
                       i: nat)
    requires InTable(fetched, |s.rows|) && i < |fetched|
    ensures InTable(fetched[..i], |s.rows|) && InTable(fetched[..i + 1], |s.rows|)
    ensures Process(cfg, s, configs, fetched[..i + 1], works)
         == ProcessOne(cfg, Process(cfg, s, configs, fetched[..i], works), configs, fetched[i], WorkAt(works, i))
  {
    hide ProcessOne;
    assert fetched[..i + 1][..i] == fetched[..i];
  }

  class Worker {
    const cfg: RetryConfig
    var rows: seq<Delivery>
    var now: nat
    ghost var sends: seq<Send>

    constructor (maxRetries: int)
      ensures cfg == RetryConfig(maxRetries, BACKOFF_SECONDS)
      ensures View() == System(0, [], [])
    {
      cfg := RetryConfig(maxRetries, BACKOFF_SECONDS);
      rows, now, sends := [], 0, [];
    }

    ghost function View(): System
      reads this
    {
      System(now, rows, sends)
    }

    method CreateDelivery(webhookId: string)
      modifies this`rows
      ensures rows == old(rows) + [Delivery(webhookId, Pending, 0, None, None, None)]
    {
      rows := rows + [Delivery(webhookId, Pending, 0, None, None, None)];
    }

    method FetchPendingDeliveries(limit: nat) returns (deliveries: seq<Fetched>)
      ensures deliveries == Fetch(rows, now, limit, |rows|)
    {
      deliveries := [];
      var i := 0;
      while i < |rows|
        invariant 0 <= i <= |rows|
        invariant deliveries == Fetch(rows, now, limit, i)
      {
        if |deliveries| < limit && Ready(rows[i], now) {
          deliveries := deliveries + [Fetched(i, rows[i])];
        }
        i := i + 1;
      }
    }

    method UpdateDeliverySuccess(id: nat, code: nat)
      requires id < |rows|
      modifies this`rows
      ensures rows == old(rows)[id := AfterSuccess(old(rows)[id], now, code)]
    {
      rows := rows[id := rows[id].(status := Sent, attempts := rows[id].attempts + 1, lastAttemptAt := Some(now),
                                   responseStatus := Some(code))];
    }

    method UpdateDeliveryFailure(id: nat, code: Option<int>, nextRetryAt: Option<nat>, maxReached: bool)
      requires id < |rows|
      modifies this`rows
      ensures rows == old(rows)[id := old(rows)[id].(status := if maxReached then Abandoned else Pending,
                                                     attempts := old(rows)[id].attempts + 1,
                                                     lastAttemptAt := Some(now), nextRetryAt := nextRetryAt,
                                                     responseStatus := code)]
    {
      var status := Pending;
      if maxReached {
        status := Abandoned;
      }
      rows := rows[id := rows[id].(status := status, attempts := rows[id].attempts + 1, lastAttemptAt := Some(now),
                                   nextRetryAt := nextRetryAt, responseStatus := code)];
    }

    method HandleFailure(d: Fetched, code: nat)
      requires d.id < |rows|
      modifies this`rows
      ensures rows == old(rows)[d.id := AfterFailure(cfg, old(rows)[d.id], d.row, now, code)]
    {
      var attempts := d.row.attempts + 1;
      var maxReached := attempts >= cfg.maxRetries;
      var nextRetryAt := None;
      if !maxReached && attempts - 1 < |cfg.backoffSeconds| {
        nextRetryAt := Some(now + cfg.backoffSeconds[attempts - 1]);
      }
      UpdateDeliveryFailure(d.id, if code > 0 then Some(code) else None, nextRetryAt, maxReached);
    }

    method ProcessDelivery(configs: map<string, string>, d: Fetched, w: Work)
      requires d.id < |rows|
      modifies this
      ensures View() == ProcessOne(cfg, old(View()), configs, d, w)
    {
      now := now + w.wait;
      if !IsActive(configs, d.row.webhookId) {
        return;
      }
      sends := sends + [Send(d.id, now, Delivered(w), w.recorded)];
      now := now + w.duration;
      if !w.recorded {
        return;
      }
      if w.code < 200 || w.code >= 300 {
        HandleFailure(d, w.code);
      } else {
        UpdateDeliverySuccess(d.id, w.code);
      }
    }

    method ProcessBatch(wait: nat, configs: map<string, string>, works: seq<Work>)
      modifies this
      ensures View() == Batch(cfg, old(View()), wait, configs, works)
    {
      hide Fetch, Process, ProcessOne;
      now := now + wait;
      ghost var s := View();
      var deliveries := FetchPendingDeliveries(BATCH_LIMIT);
      FetchedInTable(rows, now, BATCH_LIMIT);
      assert Process(cfg, s, configs, deliveries[..0], works) == s by { ProcessNone(cfg, s, configs, deliveries, works); }
      var i := 0;
      while i < |deliveries|
        invariant 0 <= i <= |deliveries|
        invariant |rows| == |s.rows| && InTable(deliveries, |s.rows|) && InTable(deliveries[..i], |s.rows|)
        invariant View() == Process(cfg, s, configs, deliveries[..i], works)
      {
        ProcessOneMore(cfg, s, configs, deliveries, works, i);
        ProcessDelivery(configs, deliveries[i], WorkAt(works, i));
        i := i + 1;
      }
      assert deliveries[..i] == deliveries;
    }
  }
}

/** Runs of one worker: deliveries are created, and batches are processed at any pace and with any responses. */
module WebhookRuns {
  import opened Wrappers
  import opened Webhook

  datatype Event = Create(webhookId: string) | Tick(wait: nat, configs: map<string, string>, works: seq<Work>)

  function Next(cfg: RetryConfig, s: System, e: Event): System {
    match e
    case Create(webhookId) => s.(rows := s.rows + [Delivery(webhookId, Pending, 0, None, None, None)])
    case Tick(wait, configs, works) => Batch(cfg, s, wait, configs, works)
  }

  function Run(cfg: RetryConfig, s: System, events: seq<Event>): System {
    if events == [] then s else Next(cfg, Run(cfg, s, events[..|events| - 1]), events[|events| - 1])
  }

  const EMPTY := System(0, [], [])

  /** How many attempts a delivery gets, successful or not. */
  function Cap(cfg: RetryConfig): nat {
    if cfg.maxRetries < 1 then 1 else cfg.maxRetries
  }

  function Recorded(sends: seq<Send>, id: nat): nat {
    if sends == [] then 0
    else
      var last := sends[|sends| - 1];
      Recorded(sends[..|sends| - 1], id) + (if last.id == id && last.recorded then 1 else 0)
  }

  /** When a delivery was sent, in order. */
  function TimesOf(sends: seq<Send>, id: nat): seq<nat> {
    if sends == [] then []
    else
      var last := sends[|sends| - 1];
      TimesOf(sends[..|sends| - 1], id) + (if last.id == id then [last.at] else [])
  }

  lemma SendAppends(sends: seq<Send>, send: Send, id: nat)
    ensures Recorded(sends + [send], id) == Recorded(sends, id) + (if send.id == id && send.recorded then 1 else 0)
    ensures TimesOf(sends + [send], id) == if send.id == id then TimesOf(sends, id) + [send.at] else TimesOf(sends, id)
  {
    assert (sends + [send])[..|sends|] == sends;
  }

  // ---- One delivery at a time ----

  /** A step on one row, the others and the clock's past untouched. */
  predicate TouchesOnly(s: System, t: System, id: nat) {
    && |t.rows| == |s.rows| && s.now <= t.now
    && forall k :: 0 <= k < |s.rows| && k != id ==> t.rows[k] == s.rows[k]
  }

  lemma OneTouchesOnly(cfg: RetryConfig, s: System, configs: map<string, string>, d: Fetched, w: Work)
    requires d.id < |s.rows|
    ensures TouchesOnly(s, ProcessOne(cfg, s, configs, d, w), d.id)
  {
  }

  /** Part-way through a batch every delivery still to come is as it was fetched. */
  predicate Waiting(s: System, fetched: seq<Fetched>, n: nat) {
    && InTable(fetched, |s.rows|)
    && (forall j, k :: 0 <= j < k < |fetched| ==> fetched[j].id < fetched[k].id)
    && (forall k :: n <= k < |fetched| ==> fetched[k].row == s.rows[fetched[k].id] && Ready(fetched[k].row, s.now))
  }

  lemma {:induction false} StillWaiting(cfg: RetryConfig, s: System, configs: map<string, string>,
                                        fetched: seq<Fetched>, works: seq<Work>, n: nat)
    requires Waiting(s, fetched, 0) && n <= |fetched|
    ensures InTable(fetched[..n], |s.rows|)
    ensures Waiting(Process(cfg, s, configs, fetched[..n], works), fetched, n)
    ensures s.now <= Process(cfg, s, configs, fetched[..n], works).now
    ensures forall id :: 0 <= id < |s.rows| && (forall k :: 0 <= k < n ==> fetched[k].id != id) ==>
              Process(cfg, s, configs, fetched[..n], works).rows[id] == s.rows[id]
  {
    hide ProcessOne;
    if n > 0 {
      StillWaiting(cfg, s, configs, fetched, works, n - 1);
      assert fetched[..n][..n - 1] == fetched[..n - 1];
      OneTouchesOnly(cfg, Process(cfg, s, configs, fetched[..n - 1], works), configs, fetched[n - 1],
                     WorkAt(works, n - 1));
    }
  }

  lemma FetchedWait(s: System)
    ensures Waiting(s, Fetch(s.rows, s.now, BATCH_LIMIT, |s.rows|), 0)
  {
    FetchesReadyRows(s.rows, s.now, BATCH_LIMIT, |s.rows|);
  }

  // ---- Attempts ----

  /** Attempts are the recorded sends; a pending delivery has some left, an abandoned one has used them all. */
  predicate RowCounts(cfg: RetryConfig, s: System, id: nat)
    requires id < |s.rows|
  {
    var row := s.rows[id];
    && row.attempts == Recorded(s.sends, id)
    && (row.status == Pending ==> row.attempts < Cap(cfg))
    && (row.status == Sent ==> 1 <= row.attempts <= Cap(cfg))
    && (row.status == Abandoned ==> row.attempts == Cap(cfg))
  }

  predicate Counts(cfg: RetryConfig, s: System) {
    && (forall id :: 0 <= id < |s.rows| ==> RowCounts(cfg, s, id))
    && (forall k :: 0 <= k < |s.sends| ==> s.sends[k].id < |s.rows|)
  }

  lemma OneKeepsCounts(cfg: RetryConfig, s: System, configs: map<string, string>, d: Fetched, w: Work)
    requires Counts(cfg, s) && d.id < |s.rows| && d.row == s.rows[d.id] && Ready(d.row, s.now)
    ensures Counts(cfg, ProcessOne(cfg, s, configs, d, w))
  {
    hide Recorded;
    var t := ProcessOne(cfg, s, configs, d, w);
    if IsActive(configs, d.row.webhookId) {
      forall id | 0 <= id < |t.rows|
        ensures RowCounts(cfg, t, id)
      {
        assert RowCounts(cfg, s, id);
        SendAppends(s.sends, Send(d.id, s.now + w.wait, Delivered(w), w.recorded), id);
      }
    } else {
      assert forall id :: 0 <= id < |t.rows| ==> RowCounts(cfg, s, id) ==> RowCounts(cfg, t, id);
    }
  }

  lemma {:induction false} ProcessKeepsCounts(cfg: RetryConfig, s: System, configs: map<string, string>,
                                              fetched: seq<Fetched>, works: seq<Work>, n: nat)
    requires Counts(cfg, s) && Waiting(s, fetched, 0) && n <= |fetched|
    ensures InTable(fetched[..n], |s.rows|)
    ensures Counts(cfg, Process(cfg, s, configs, fetched[..n], works))
  {
    hide ProcessOne, Counts, Ready;
    if n > 0 {
      ProcessKeepsCounts(cfg, s, configs, fetched, works, n - 1);
      StillWaiting(cfg, s, configs, fetched, works, n - 1);
      assert fetched[..n][..n - 1] == fetched[..n - 1];
      OneKeepsCounts(cfg, Process(cfg, s, configs, fetched[..n - 1], works), configs, fetched[n - 1],
                     WorkAt(works, n - 1));
    }
  }

  lemma {:induction false} NeverSentNeverRecorded(sends: seq<Send>, id: nat)
    requires forall k :: 0 <= k < |sends| ==> sends[k].id != id
    ensures Recorded(sends, id) == 0 && TimesOf(sends, id) == []
  {
    if sends != [] {
      NeverSentNeverRecorded(sends[..|sends| - 1], id);
    }
  }

  lemma CreateKeepsCounts(cfg: RetryConfig, s: System, webhookId: string)
    requires Counts(cfg, s)
    ensures Counts(cfg, Next(cfg, s, Create(webhookId)))
  {
    NeverSentNeverRecorded(s.sends, |s.rows|);
    var t := Next(cfg, s, Create(webhookId));
    forall id | 0 <= id < |s.rows|
      ensures RowCounts(cfg, t, id)
    {
      assert RowCounts(cfg, s, id);
    }
  }

  lemma StepKeepsCounts(cfg: RetryConfig, s: System, e: Event)
    requires Counts(cfg, s)
    ensures Counts(cfg, Next(cfg, s, e))
  {
    hide Process, Fetch, Counts;
    match e
    case Create(webhookId) => CreateKeepsCounts(cfg, s, webhookId);
    case Tick(wait, configs, works) =>
      var s1 := s.(now := s.now + wait);
      var fetched := Fetch(s1.rows, s1.now, BATCH_LIMIT, |s1.rows|);
      LaterClockCounts(cfg, s, s1.now);
      FetchedWait(s1);
      assert fetched[..|fetched|] == fetched;
      ProcessKeepsCounts(cfg, s1, configs, fetched, works, |fetched|);
  }

  /** Attempts always equal the recorded sends, and never exceed the cap: whatever the responses and whichever updates
      are lost. */
  lemma {:induction false} AttemptsCountSends(cfg: RetryConfig, events: seq<Event>)
    ensures Counts(cfg, Run(cfg, EMPTY, events))
  {
    hide Next, RowCounts;
    if events != [] {
      AttemptsCountSends(cfg, events[..|events| - 1]);
      StepKeepsCounts(cfg, Run(cfg, EMPTY, events[..|events| - 1]), events[|events| - 1]);
    }
  }

  // ---- Finality and progress ----

  /** What is left of a delivery's attempts. */
  function Left(cfg: RetryConfig, row: Delivery): int {
    if row.status == Pending then Cap(cfg) - row.attempts else 0
  }

  /** A sent or abandoned delivery never changes and is never sent again; otherwise attempts only go up. */
  predicate Carried(s: System, t: System) {
    && |s.rows| <= |t.rows| && s.now <= t.now
    && forall id :: 0 <= id < |s.rows| ==> RowCarried(s, t, id)
  }

  predicate RowCarried(s: System, t: System, id: nat)
    requires id < |s.rows| && id < |t.rows|
  {
    && t.rows[id].webhookId == s.rows[id].webhookId
    && s.rows[id].attempts <= t.rows[id].attempts
    && (t.rows[id].attempts == s.rows[id].attempts ==> t.rows[id] == s.rows[id])
    && TimesOf(s.sends, id) <= TimesOf(t.sends, id)
    && (s.rows[id].status != Pending ==> t.rows[id] == s.rows[id] && TimesOf(t.sends, id) == TimesOf(s.sends, id))
  }

  lemma OneCarries(cfg: RetryConfig, s: System, configs: map<string, string>, d: Fetched, w: Work)
    requires d.id < |s.rows| && d.row == s.rows[d.id] && Ready(d.row, s.now)
    ensures Carried(s, ProcessOne(cfg, s, configs, d, w))
  {
    hide TimesOf;
    var t := ProcessOne(cfg, s, configs, d, w);
    forall id | 0 <= id < |s.rows|
      ensures RowCarried(s, t, id)
    {
      if IsActive(configs, d.row.webhookId) {
        SendAppends(s.sends, Send(d.id, s.now + w.wait, Delivered(w), w.recorded), id);
      }
    }
  }

  lemma CarriedOn(a: System, b: System, c: System)
    requires Carried(a, b) && Carried(b, c)
    ensures Carried(a, c)
  {
    hide TimesOf;
    forall id | 0 <= id < |a.rows|
      ensures RowCarried(a, c, id)
    {
      assert RowCarried(a, b, id) && RowCarried(b, c, id);
    }
  }

  lemma {:induction false} ProcessCarries(cfg: RetryConfig, s: System, configs: map<string, string>,
                                          fetched: seq<Fetched>, works: seq<Work>, n: nat)
    requires Waiting(s, fetched, 0) && n <= |fetched|
    ensures InTable(fetched[..n], |s.rows|)
    ensures Carried(s, Process(cfg, s, configs, fetched[..n], works))
  {
    hide ProcessOne, RowCarried, Ready;
    if n > 0 {
      ProcessCarries(cfg, s, configs, fetched, works, n - 1);
      StillWaiting(cfg, s, configs, fetched, works, n - 1);
      assert fetched[..n][..n - 1] == fetched[..n - 1];
      var t := Process(cfg, s, configs, fetched[..n - 1], works);
      OneCarries(cfg, t, configs, fetched[n - 1], WorkAt(works, n - 1));
      CarriedOn(s, t, Process(cfg, s, configs, fetched[..n], works));
    } else {
      CarriedToItself(s);
    }
  }

  lemma CarriedToItself(s: System)
    ensures Carried(s, s)
  {
  }

  lemma StepCarries(cfg: RetryConfig, s: System, e: Event)
    ensures Carried(s, Next(cfg, s, e))
  {
    if e.Tick? {
      hide Process, Fetch, TimesOf;
      var s1 := s.(now := s.now + e.wait);
      var fetched := Fetch(s1.rows, s1.now, BATCH_LIMIT, |s1.rows|);
      FetchedWait(s1);
      assert fetched[..|fetched|] == fetched;
      ProcessCarries(cfg, s1, e.configs, fetched, e.works, |fetched|);
      assert Carried(s, s1);
      CarriedOn(s, s1, Next(cfg, s, e));
    }
  }

  lemma {:induction false} FinalStaysFinal(cfg: RetryConfig, s: System, events: seq<Event>, m: nat, n: nat)
    requires m <= n <= |events|
    ensures Carried(Run(cfg, s, events[..m]), Run(cfg, s, events[..n]))
    decreases n - m
  {
    hide Next, Carried;
    if m == n {
      CarriedToItself(Run(cfg, s, events[..m]));
    } else {
      FinalStaysFinal(cfg, s, events, m, n - 1);
      assert events[..n][..n - 1] == events[..n - 1];
      StepCarries(cfg, Run(cfg, s, events[..n - 1]), events[n - 1]);
      CarriedOn(Run(cfg, s, events[..m]), Run(cfg, s, events[..n - 1]), Run(cfg, s, events[..n]));
    }
  }

  /** Handling a ready delivery of an active webhook uses up what is left of it, one attempt at least, and all of it on a
      response from 200 to 299 or when the cap is reached; otherwise it is held back by the backoff for its number of
      attempts, if there is one. For any other webhook nothing happens. */
  lemma OneUsesUp(cfg: RetryConfig, s: System, configs: map<string, string>, d: Fetched, w: Work)
    requires Counts(cfg, s) && d.id < |s.rows| && d.row == s.rows[d.id] && Ready(d.row, s.now) && w.recorded
    ensures var t, ended := ProcessOne(cfg, s, configs, d, w), s.now + w.wait + w.duration;
            var row, done := t.rows[d.id], 200 <= w.code <= 299;
            if d.row.webhookId !in configs || configs[d.row.webhookId] != "Active" then row == d.row && t.sends == s.sends
            else
              && t.sends == s.sends + [Send(d.id, s.now + w.wait, done, true)]
              && 0 <= Left(cfg, row) < Left(cfg, d.row)
              && (row.status == Sent <==> done)
              && (row.status == Abandoned <==> !done && Recorded(s.sends, d.id) + 1 == Cap(cfg))
              && row.webhookId == d.row.webhookId && row.attempts == d.row.attempts + 1
              && row.lastAttemptAt == Some(ended)
              && row.responseStatus == (if w.code == 0 then None else Some(w.code))
              && row.nextRetryAt == (if row.status == Sent then d.row.nextRetryAt
                                     else if row.status == Pending && d.row.attempts < |cfg.backoffSeconds|
                                     then Some(ended + cfg.backoffSeconds[d.row.attempts]) else None)
  {
    assert RowCounts(cfg, s, d.id);
  }

  /** A request whose row update is lost was still made, and leaves no trace in the table. */
  lemma UnrecordedSend(cfg: RetryConfig, s: System, configs: map<string, string>, d: Fetched, w: Work)
    requires d.id < |s.rows| && !w.recorded
    requires d.row.webhookId in configs && configs[d.row.webhookId] == "Active"
    ensures ProcessOne(cfg, s, configs, d, w)
         == System(s.now + w.wait + w.duration, s.rows,
                   s.sends + [Send(d.id, s.now + w.wait, 200 <= w.code <= 299, false)])
  {
  }

  // ---- Backoff ----

  function Backoff(cfg: RetryConfig, k: nat): nat {
    if k < |cfg.backoffSeconds| then cfg.backoffSeconds[k] else 0
  }

  function TotalBackoff(cfg: RetryConfig, n: nat): nat {
    if n == 0 then 0 else TotalBackoff(cfg, n - 1) + Backoff(cfg, n - 1)
  }

  predicate GapsKept(cfg: RetryConfig, times: seq<nat>) {
    forall k :: 0 <= k < |times| - 1 ==> times[k] + Backoff(cfg, k) <= times[k + 1]
  }

  /** A pending delivery is held back until its backoff has passed, as long as there is one for its number of attempts. */
  predicate HeldBack(cfg: RetryConfig, row: Delivery, times: seq<nat>) {
    var n := |times|;
    if n > 0 && n - 1 < |cfg.backoffSeconds| then
      row.nextRetryAt.Some? && times[n - 1] + cfg.backoffSeconds[n - 1] <= row.nextRetryAt.value
    else row.nextRetryAt.None?
  }

  predicate SpacedAt(cfg: RetryConfig, row: Delivery, times: seq<nat>, now: nat) {
    && row.attempts == |times|
    && (forall k :: 0 <= k < |times| ==> times[k] <= now)
    && GapsKept(cfg, times)
    && (row.status == Pending ==> HeldBack(cfg, row, times))
  }

  predicate RowSpaced(cfg: RetryConfig, s: System, id: nat)
    requires id < |s.rows|
  {
    SpacedAt(cfg, s.rows[id], TimesOf(s.sends, id), s.now)
  }

  predicate Spaced(cfg: RetryConfig, s: System) {
    && (forall id :: 0 <= id < |s.rows| ==> RowSpaced(cfg, s, id))
    && (forall k :: 0 <= k < |s.sends| ==> s.sends[k].id < |s.rows|)
  }

  predicate AllRecorded(works: seq<Work>) {
    forall k :: 0 <= k < |works| ==> works[k].recorded
  }

  predicate EventRecorded(e: Event) {
    e.Tick? ==> AllRecorded(e.works)
  }

  lemma GapsExtend(cfg: RetryConfig, times: seq<nat>, at: nat)
    requires GapsKept(cfg, times) && (times != [] ==> times[|times| - 1] + Backoff(cfg, |times| - 1) <= at)
    ensures GapsKept(cfg, times + [at])
  {
  }

  lemma FailureHoldsBack(cfg: RetryConfig, row: Delivery, times: seq<nat>, at: nat, ended: nat, code: nat)
    requires row.attempts == |times| && at <= ended
    ensures var after := AfterFailure(cfg, row, row, ended, code);
            after.status == Pending ==> HeldBack(cfg, after, times + [at])
  {
  }

  lemma ReadyGap(cfg: RetryConfig, row: Delivery, times: seq<nat>, now: nat)
    requires Ready(row, now) && HeldBack(cfg, row, times) && times != []
    requires forall k :: 0 <= k < |times| ==> times[k] <= now
    ensures times[|times| - 1] + Backoff(cfg, |times| - 1) <= now
  {
  }

  lemma SendKeepsSpacing(cfg: RetryConfig, row: Delivery, times: seq<nat>, now: nat, at: nat, ended: nat, w: Work)
    requires SpacedAt(cfg, row, times, now) && Ready(row, now) && now <= at <= ended
    ensures SpacedAt(cfg, if Delivered(w) then AfterSuccess(row, ended, w.code)
                          else AfterFailure(cfg, row, row, ended, w.code), times + [at], ended)
  {
    hide GapsKept, HeldBack, AfterFailure, Backoff, Delivered;
    if times != [] {
      ReadyGap(cfg, row, times, now);
    }
    GapsExtend(cfg, times, at);
    FailureHoldsBack(cfg, row, times, at, ended, w.code);
    FailureCounts(cfg, row, ended, w.code);
  }

  lemma SentRowSpaced(cfg: RetryConfig, s: System, configs: map<string, string>, d: Fetched, w: Work)
    requires d.id < |s.rows| && RowSpaced(cfg, s, d.id) && d.row == s.rows[d.id] && Ready(d.row, s.now) && w.recorded
    requires IsActive(configs, d.row.webhookId)
    ensures RowSpaced(cfg, ProcessOne(cfg, s, configs, d, w), d.id)
  {
    hide TimesOf, SpacedAt, AfterFailure, AfterSuccess, IsActive, Ready, Delivered;
    var times, at := TimesOf(s.sends, d.id), s.now + w.wait;
    SendAppends(s.sends, Send(d.id, at, Delivered(w), w.recorded), d.id);
    SendKeepsSpacing(cfg, d.row, times, s.now, at, at + w.duration, w);
  }

  lemma FailureCounts(cfg: RetryConfig, row: Delivery, ended: nat, code: nat)
    ensures AfterFailure(cfg, row, row, ended, code).attempts == row.attempts + 1
  {
  }

  lemma OneKeepsSpaced(cfg: RetryConfig, s: System, configs: map<string, string>, d: Fetched, w: Work)
    requires Spaced(cfg, s) && d.id < |s.rows| && d.row == s.rows[d.id] && Ready(d.row, s.now) && w.recorded
    ensures Spaced(cfg, ProcessOne(cfg, s, configs, d, w))
  {
    hide TimesOf, GapsKept, HeldBack;
    var t := ProcessOne(cfg, s, configs, d, w);
    forall id | 0 <= id < |t.rows|
      ensures RowSpaced(cfg, t, id)
    {
      assert RowSpaced(cfg, s, id);
      if IsActive(configs, d.row.webhookId) {
        if id == d.id {
          SentRowSpaced(cfg, s, configs, d, w);
        } else {
          SendAppends(s.sends, Send(d.id, s.now + w.wait, Delivered(w), w.recorded), id);
        }
      }
    }
  }

  lemma {:induction false} ProcessKeepsSpaced(cfg: RetryConfig, s: System, configs: map<string, string>,
                                              fetched: seq<Fetched>, works: seq<Work>, n: nat)
    requires Spaced(cfg, s) && Waiting(s, fetched, 0) && n <= |fetched| && AllRecorded(works)
    ensures InTable(fetched[..n], |s.rows|)
    ensures Spaced(cfg, Process(cfg, s, configs, fetched[..n], works))
  {
    hide ProcessOne, Spaced, Ready;
    if n > 0 {
      ProcessKeepsSpaced(cfg, s, configs, fetched, works, n - 1);
      StillWaiting(cfg, s, configs, fetched, works, n - 1);
      assert fetched[..n][..n - 1] == fetched[..n - 1];
      OneKeepsSpaced(cfg, Process(cfg, s, configs, fetched[..n - 1], works), configs, fetched[n - 1],
                     WorkAt(works, n - 1));
    }
  }

  lemma CreatedRowIsSpaced(cfg: RetryConfig, s: System, id: nat)
    requires id < |s.rows| && s.rows[id].attempts == 0 && s.rows[id].nextRetryAt.None?
    requires forall k :: 0 <= k < |s.sends| ==> s.sends[k].id != id
    ensures RowSpaced(cfg, s, id)
  {
    NeverSentNeverRecorded(s.sends, id);
  }

  lemma CreateKeepsSpaced(cfg: RetryConfig, s: System, webhookId: string)
    requires Spaced(cfg, s)
    ensures Spaced(cfg, Next(cfg, s, Create(webhookId)))
  {
    hide GapsKept, HeldBack, TimesOf;
    var t := Next(cfg, s, Create(webhookId));
    CreatedRowIsSpaced(cfg, t, |s.rows|);
    forall id | 0 <= id < |s.rows|
      ensures RowSpaced(cfg, t, id)
    {
      assert RowSpaced(cfg, s, id);
    }
  }

  lemma StepKeepsSpaced(cfg: RetryConfig, s: System, e: Event)
    requires Spaced(cfg, s) && EventRecorded(e)
    ensures Spaced(cfg, Next(cfg, s, e))
  {
    match e
    case Create(webhookId) => CreateKeepsSpaced(cfg, s, webhookId);
    case Tick(wait, configs, works) =>
      hide Process, Fetch, TimesOf, GapsKept, HeldBack;
      var s1 := s.(now := s.now + wait);
      var fetched := Fetch(s1.rows, s1.now, BATCH_LIMIT, |s1.rows|);
      forall id | 0 <= id < |s1.rows|
        ensures RowSpaced(cfg, s1, id)
      {
        assert RowSpaced(cfg, s, id);
      }
      FetchedWait(s1);
      assert fetched[..|fetched|] == fetched;
      ProcessKeepsSpaced(cfg, s1, configs, fetched, works, |fetched|);
  }

  lemma {:induction false} AlwaysSpaced(cfg: RetryConfig, events: seq<Event>)
    requires forall k :: 0 <= k < |events| ==> EventRecorded(events[k])
    ensures Spaced(cfg, Run(cfg, EMPTY, events))
  {
    hide Next, RowSpaced, EventRecorded;
    if events != [] {
      AlwaysSpaced(cfg, events[..|events| - 1]);
      StepKeepsSpaced(cfg, Run(cfg, EMPTY, events[..|events| - 1]), events[|events| - 1]);
    }
  }

  lemma {:induction false} GapsAddUp(cfg: RetryConfig, times: seq<nat>, k: nat)
    requires GapsKept(cfg, times) && k < |times|
    ensures times[0] + TotalBackoff(cfg, k) <= times[k]
  {
    if k > 0 {
      GapsAddUp(cfg, times, k - 1);
    }
  }

  /** With no update lost, a delivery is sent exactly `attempts` times, never more than the cap, and each attempt comes no
      earlier than the first plus all the backoffs in between; past the last backoff there is no further delay. */
  lemma AttemptsAreSpaced(cfg: RetryConfig, events: seq<Event>, id: nat, k: nat)
    requires forall j :: 0 <= j < |events| ==> EventRecorded(events[j])
    requires id < |Run(cfg, EMPTY, events).rows| && k < |TimesOf(Run(cfg, EMPTY, events).sends, id)|
    ensures var s := Run(cfg, EMPTY, events);
            var times := TimesOf(s.sends, id);
            && |times| == s.rows[id].attempts <= Cap(cfg)
            && times[0] + TotalBackoff(cfg, k) <= times[k]
  {
    hide Run, TimesOf;
    AlwaysSpaced(cfg, events);
    AttemptsCountSends(cfg, events);
    var s := Run(cfg, EMPTY, events);
    assert RowSpaced(cfg, s, id) && RowCounts(cfg, s, id);
    GapsAddUp(cfg, TimesOf(s.sends, id), k);
  }

  /** The shipped backoffs: one minute, five more, fifteen more, and nothing after that. */
  lemma ShippedBackoffs(maxRetries: int, k: nat)
    ensures TotalBackoff(RetryConfig(maxRetries, BACKOFF_SECONDS), k)
         == if k == 0 then 0 else if k == 1 then 60 else if k == 2 then 360 else 1260
  {
    var cfg := RetryConfig(maxRetries, BACKOFF_SECONDS);
    if k > 0 {
      ShippedBackoffs(maxRetries, k - 1);
    }
  }

  // ---- The head of the queue ----

  /** A delivery of this batch goes out. */
  predicate SendsAny(fetched: seq<Fetched>, configs: map<string, string>) {
    exists k :: 0 <= k < |fetched| && IsActive(configs, fetched[k].row.webhookId)
  }

  lemma {:induction false} ProcessSends(cfg: RetryConfig, s: System, configs: map<string, string>,
                                        fetched: seq<Fetched>, works: seq<Work>)
    requires InTable(fetched, |s.rows|)
    ensures var t := Process(cfg, s, configs, fetched, works);
            && |s.sends| <= |t.sends|
            && (|t.sends| > |s.sends| <==> SendsAny(fetched, configs))
            && (|t.sends| == |s.sends| ==> t.sends == s.sends && t.rows == s.rows)
  {
    if fetched != [] {
      var n := |fetched| - 1;
      ProcessSends(cfg, s, configs, fetched[..n], works);
      assert SendsAny(fetched, configs)
        <==> SendsAny(fetched[..n], configs) || IsActive(configs, fetched[n].row.webhookId) by {
        if SendsAny(fetched[..n], configs) {
          var k :| 0 <= k < n && IsActive(configs, fetched[..n][k].row.webhookId);
          assert fetched[k] == fetched[..n][k];
        }
        if SendsAny(fetched, configs) && !IsActive(configs, fetched[n].row.webhookId) {
          var k :| 0 <= k < |fetched| && IsActive(configs, fetched[k].row.webhookId);
          assert fetched[..n][k] == fetched[k];
        }
      }
    }
  }

  /** A batch sends something exactly if one of the ten oldest ready deliveries belongs to an active webhook; otherwise it
      leaves every row as it was. */
  lemma BatchSendsIff(cfg: RetryConfig, s: System, wait: nat, configs: map<string, string>, works: seq<Work>)
    ensures var t := Batch(cfg, s, wait, configs, works);
            && |s.sends| <= |t.sends|
            && (|t.sends| > |s.sends| <==> exists d ::
                  && d in Fetch(s.rows, s.now + wait, 10, |s.rows|)
                  && d.row.webhookId in configs && configs[d.row.webhookId] == "Active")
            && (|t.sends| == |s.sends| ==> t.sends == s.sends && t.rows == s.rows)
  {
    var s1 := s.(now := s.now + wait);
    FetchedInTable(s1.rows, s1.now, BATCH_LIMIT);
    ProcessSends(cfg, s1, configs, Fetch(s1.rows, s1.now, BATCH_LIMIT, |s1.rows|), works);
  }

  predicate SentAmong(sends: seq<Send>, from: nat, id: nat, delivered: bool, recorded: bool) {
    exists j :: from <= j < |sends| && sends[j].id == id && sends[j].delivered == delivered && sends[j].recorded == recorded
  }

  lemma OneSends(cfg: RetryConfig, s: System, configs: map<string, string>, d: Fetched, w: Work)
    requires d.id < |s.rows|
    ensures var t := ProcessOne(cfg, s, configs, d, w);
            && s.sends <= t.sends && |t.rows| == |s.rows|
            && (d.row.webhookId in configs && configs[d.row.webhookId] == "Active" ==>
                  SentAmong(t.sends, |s.sends|, d.id, 200 <= w.code <= 299, w.recorded))
  {
    var t := ProcessOne(cfg, s, configs, d, w);
    if IsActive(configs, d.row.webhookId) {
      assert t.sends[|s.sends|] == Send(d.id, s.now + w.wait, Delivered(w), w.recorded);
    }
  }

  lemma StillAmong(sends: seq<Send>, more: seq<Send>, from: nat, later: nat, id: nat, delivered: bool, recorded: bool)
    requires sends <= more && from <= later && SentAmong(sends, later, id, delivered, recorded)
    ensures SentAmong(more, from, id, delivered, recorded)
  {
    var j :| later <= j < |sends| && sends[j].id == id && sends[j].delivered == delivered
             && sends[j].recorded == recorded;
    assert more[j] == sends[j];
  }

  lemma {:induction false} ProcessSendsEach(cfg: RetryConfig, s: System, configs: map<string, string>,
                                            fetched: seq<Fetched>, works: seq<Work>, k: nat)
    requires InTable(fetched, |s.rows|) && k < |fetched| && k < |works|
    requires fetched[k].row.webhookId in configs && configs[fetched[k].row.webhookId] == "Active"
    ensures var t := Process(cfg, s, configs, fetched, works);
            && s.sends <= t.sends
            && SentAmong(t.sends, |s.sends|, fetched[k].id, 200 <= works[k].code <= 299, works[k].recorded)
  {
    hide ProcessOne, SentAmong;
    var n := |fetched| - 1;
    var before, t := Process(cfg, s, configs, fetched[..n], works), Process(cfg, s, configs, fetched, works);
    OneSends(cfg, before, configs, fetched[n], WorkAt(works, n));
    var done, recorded := 200 <= works[k].code <= 299, works[k].recorded;
    if k < n {
      ProcessSendsEach(cfg, s, configs, fetched[..n], works, k);
      StillAmong(before.sends, t.sends, |s.sends|, |s.sends|, fetched[k].id, done, recorded);
    } else {
      SendsOnlyGrow(cfg, s, configs, fetched[..n], works);
      StillAmong(t.sends, t.sends, |s.sends|, |before.sends|, fetched[k].id, done, recorded);
    }
  }

  lemma {:induction false} SendsOnlyGrow(cfg: RetryConfig, s: System, configs: map<string, string>,
                                         fetched: seq<Fetched>, works: seq<Work>)
    requires InTable(fetched, |s.rows|)
    ensures s.sends <= Process(cfg, s, configs, fetched, works).sends
  {
    hide ProcessOne, SentAmong;
    if fetched != [] {
      var n := |fetched| - 1;
      SendsOnlyGrow(cfg, s, configs, fetched[..n], works);
      OneSends(cfg, Process(cfg, s, configs, fetched[..n], works), configs, fetched[n], WorkAt(works, n));
    }
  }

  /** Each of the ten oldest ready deliveries whose webhook is active goes out in the batch, and counts as delivered exactly
      if its own response is from 200 to 299. */
  lemma BatchSendsEach(cfg: RetryConfig, s: System, wait: nat, configs: map<string, string>, works: seq<Work>, k: nat)
    requires k < |Fetch(s.rows, s.now + wait, 10, |s.rows|)| && k < |works|
    requires var d := Fetch(s.rows, s.now + wait, 10, |s.rows|)[k];
             d.row.webhookId in configs && configs[d.row.webhookId] == "Active"
    ensures var t := Batch(cfg, s, wait, configs, works);
            && s.sends <= t.sends
            && SentAmong(t.sends, |s.sends|, Fetch(s.rows, s.now + wait, 10, |s.rows|)[k].id,
                         200 <= works[k].code <= 299, works[k].recorded)
  {
    hide SentAmong;
    var s1 := s.(now := s.now + wait);
    FetchedInTable(s1.rows, s1.now, BATCH_LIMIT);
    ProcessSendsEach(cfg, s1, configs, Fetch(s1.rows, s1.now, BATCH_LIMIT, |s1.rows|), works, k);
  }

  /** The ten oldest pending deliveries, all of them ready. */
  predicate Heads(rows: seq<Delivery>, now: nat, head: seq<Fetched>) {
    && |head| == BATCH_LIMIT && InTable(head, |rows|)
    && (forall k :: 0 <= k < |head| ==> head[k].row == rows[head[k].id] && Ready(head[k].row, now))
    && (forall j, k :: 0 <= j < k < |head| ==> head[j].id < head[k].id)
    && (forall id :: 0 <= id < head[|head| - 1].id && rows[id].status == Pending ==> Fetched(id, rows[id]) in head)
  }

  /** How many of them lie before a place in the table. */
  function Below(head: seq<Fetched>, n: nat): (c: nat)
    ensures c <= |head|
  {
    if head == [] then 0
    else if head[|head| - 1].id < n then |head|
    else Below(head[..|head| - 1], n)
  }

  lemma {:induction false} BelowSplits(head: seq<Fetched>, n: nat)
    requires forall j, k :: 0 <= j < k < |head| ==> head[j].id < head[k].id
    ensures forall k :: 0 <= k < |head| ==> (head[k].id < n <==> k < Below(head, n))
  {
    if head != [] && head[|head| - 1].id >= n {
      BelowSplits(head[..|head| - 1], n);
      assert forall k :: 0 <= k < |head| - 1 ==> head[..|head| - 1][k] == head[k];
    }
  }

  /** Going one place further passes at most one of them. */
  lemma BelowNext(head: seq<Fetched>, n: nat)
    requires forall j, k :: 0 <= j < k < |head| ==> head[j].id < head[k].id
    ensures var c := Below(head, n);
            && (forall k :: 0 <= k < c ==> head[k].id < n)
            && (c < |head| ==> n <= head[c].id)
            && Below(head, n + 1) == if c < |head| && head[c].id == n then c + 1 else c
  {
    BelowSplits(head, n);
    BelowSplits(head, n + 1);
    hide Below;
    var c, d := Below(head, n), Below(head, n + 1);
    assert c < |head| ==> !(head[c].id < n);
    assert c < |head| && head[c].id == n ==> c < d;
    assert c < |head| && head[c].id > n ==> !(c < d);
    assert c + 1 < |head| ==> head[c].id < head[c + 1].id && !(c + 1 < d);
    assert c > 0 ==> head[c - 1].id < n && c - 1 < d;
  }

  lemma BelowNothing(head: seq<Fetched>)
    requires forall j, k :: 0 <= j < k < |head| ==> head[j].id < head[k].id
    ensures Below(head, 0) == 0
  {
    BelowSplits(head, 0);
    assert |head| > 0 ==> head[0].id >= 0;
  }

  lemma {:induction false} HeadIsFetched(rows: seq<Delivery>, now: nat, head: seq<Fetched>, later: nat, n: nat)
    requires Heads(rows, now, head) && now <= later && n <= |rows|
    ensures Fetch(rows, later, BATCH_LIMIT, n) == head[..Below(head, n)]
  {
    hide Below;
    if n == 0 {
      BelowNothing(head);
    } else {
      var c := Below(head, n - 1);
      HeadIsFetched(rows, now, head, later, n - 1);
      BelowNext(head, n - 1);
      if c < |head| && head[c].id == n - 1 {
        assert head[..c + 1] == head[..c] + [head[c]];
        assert head[c] == Fetched(n - 1, rows[n - 1]) && Ready(rows[n - 1], later);
      } else if c < |head| {
        NotReadyBeforeHead(rows, now, head, c, n - 1, later);
      }
    }
  }

  lemma NotReadyBeforeHead(rows: seq<Delivery>, now: nat, head: seq<Fetched>, c: nat, id: nat, later: nat)
    requires Heads(rows, now, head) && id < |rows| && c < |head|
    requires id < head[c].id && forall k :: 0 <= k < c ==> head[k].id < id
    ensures !Ready(rows[id], later)
  {
    assert head[c].id <= head[|head| - 1].id;
    assert forall k :: 0 <= k < |head| ==> head[k].id != id;
  }

  predicate NoneActive(head: seq<Fetched>, configs: map<string, string>) {
    forall k :: 0 <= k < |head| ==> !IsActive(configs, head[k].row.webhookId)
  }

  predicate LeavesInactive(head: seq<Fetched>, e: Event) {
    e.Tick? ==> NoneActive(head, e.configs)
  }

  lemma BlockedBatch(cfg: RetryConfig, rows: seq<Delivery>, now: nat, t: System, head: seq<Fetched>, wait: nat,
                     configs: map<string, string>, works: seq<Work>)
    requires Heads(rows, now, head) && NoneActive(head, configs)
    requires rows <= t.rows && now <= t.now
    ensures Batch(cfg, t, wait, configs, works).rows == t.rows && Batch(cfg, t, wait, configs, works).sends == t.sends
  {
    hide Batch, Fetch;
    HeadOfLonger(rows, t.rows, now, head);
    HeadIsFetched(t.rows, now, head, t.now + wait, |t.rows|);
    BelowSplits(head, |t.rows|);
    assert head[|head| - 1].id < |t.rows|;
    assert Below(head, |t.rows|) == |head|;
    assert head[..|head|] == head;
    assert !SendsAny(head, configs);
    BatchSendsIff(cfg, t, wait, configs, works);
  }

  lemma StepLeavesHead(cfg: RetryConfig, s: System, t: System, head: seq<Fetched>, e: Event)
    requires Heads(s.rows, s.now, head) && LeavesInactive(head, e)
    requires s.rows <= t.rows && s.now <= t.now && t.sends == s.sends
    ensures var u := Next(cfg, t, e);
            s.rows <= u.rows && s.now <= u.now && u.sends == s.sends
  {
    hide Batch, Heads, NoneActive;
    StepMovesClock(cfg, t, e);
    if e.Tick? {
      BlockedBatch(cfg, s.rows, s.now, t, head, e.wait, e.configs, e.works);
    }
  }

  lemma StepMovesClock(cfg: RetryConfig, s: System, e: Event)
    ensures s.now <= Next(cfg, s, e).now
  {
    hide Next;
    StepCarries(cfg, s, e);
  }

  lemma HeadOfLonger(rows: seq<Delivery>, longer: seq<Delivery>, now: nat, head: seq<Fetched>)
    requires Heads(rows, now, head) && rows <= longer
    ensures Heads(longer, now, head)
  {
    assert forall k :: 0 <= k < |rows| ==> longer[k] == rows[k];
  }

  /** Once the ten oldest pending deliveries are all ready and their webhooks stay inactive, nothing is ever sent again:
      they keep their places in every batch, and no delivery behind them is reached however long the worker runs. */
  lemma {:induction false} HeadBlocksQueue(cfg: RetryConfig, s: System, head: seq<Fetched>, events: seq<Event>)
    requires Heads(s.rows, s.now, head)
    requires forall k :: 0 <= k < |events| ==> LeavesInactive(head, events[k])
    ensures var t := Run(cfg, s, events);
            s.rows <= t.rows && s.now <= t.now && t.sends == s.sends
  {
    hide Next, Heads, LeavesInactive;
    if events != [] {
      HeadBlocksQueue(cfg, s, head, events[..|events| - 1]);
      StepLeavesHead(cfg, s, Run(cfg, s, events[..|events| - 1]), head, events[|events| - 1]);
    }
  }

  /** Where no webhook's configuration can be read nothing is ever sent. The configuration is read together with a column of
      event names that is parsed as a JSON array, while the schema keeps it as a Postgres array, whose text is not one. */
  lemma {:induction false} NothingReadableNothingSent(cfg: RetryConfig, s: System, events: seq<Event>)
    requires forall k :: 0 <= k < |events| ==> events[k].Tick? ==> events[k].configs == map[]
    ensures var t := Run(cfg, s, events);
            s.rows <= t.rows && t.sends == s.sends
  {
    hide Batch;
    if events != [] {
      var before, e := Run(cfg, s, events[..|events| - 1]), events[|events| - 1];
      NothingReadableNothingSent(cfg, s, events[..|events| - 1]);
      if e.Tick? {
        BatchSendsIff(cfg, before, e.wait, e.configs, e.works);
      }
    }
  }

  // ---- Draining the queue ----

  /** No backoff is longer than `longest`. */
  predicate BackoffsWithin(cfg: RetryConfig, longest: nat) {
    forall k :: 0 <= k < |cfg.backoffSeconds| ==> cfg.backoffSeconds[k] <= longest
  }

  /** No delivery is held back for longer than that. */
  predicate RetriesWithin(s: System, longest: nat) {
    forall id :: 0 <= id < |s.rows| && s.rows[id].nextRetryAt.Some? ==> s.rows[id].nextRetryAt.value <= s.now + longest
  }

  lemma OneKeepsRetries(cfg: RetryConfig, s: System, longest: nat, configs: map<string, string>, d: Fetched, w: Work)
    requires BackoffsWithin(cfg, longest) && RetriesWithin(s, longest) && d.id < |s.rows|
    ensures RetriesWithin(ProcessOne(cfg, s, configs, d, w), longest)
  {
  }

  lemma {:induction false} ProcessKeepsRetries(cfg: RetryConfig, s: System, longest: nat, configs: map<string, string>,
                                               fetched: seq<Fetched>, works: seq<Work>)
    requires BackoffsWithin(cfg, longest) && RetriesWithin(s, longest) && InTable(fetched, |s.rows|)
    ensures RetriesWithin(Process(cfg, s, configs, fetched, works), longest)
  {
    hide ProcessOne, RetriesWithin, BackoffsWithin;
    if fetched != [] {
      var n := |fetched| - 1;
      ProcessKeepsRetries(cfg, s, longest, configs, fetched[..n], works);
      OneKeepsRetries(cfg, Process(cfg, s, configs, fetched[..n], works), longest, configs, fetched[n],
                      WorkAt(works, n));
    }
  }

  lemma StepKeepsRetries(cfg: RetryConfig, s: System, longest: nat, e: Event)
    requires BackoffsWithin(cfg, longest) && RetriesWithin(s, longest)
    ensures RetriesWithin(Next(cfg, s, e), longest)
  {
    if e.Tick? {
      hide Process, Fetch;
      var s1 := s.(now := s.now + e.wait);
      FetchedInTable(s1.rows, s1.now, BATCH_LIMIT);
      ProcessKeepsRetries(cfg, s1, longest, e.configs, Fetch(s1.rows, s1.now, BATCH_LIMIT, |s1.rows|), e.works);
    }
  }

  lemma {:induction false} RetriesStayWithin(cfg: RetryConfig, s: System, longest: nat, events: seq<Event>)
    requires BackoffsWithin(cfg, longest) && RetriesWithin(s, longest)
    ensures RetriesWithin(Run(cfg, s, events), longest)
  {
    hide Next, RetriesWithin, BackoffsWithin;
    if events != [] {
      RetriesStayWithin(cfg, s, longest, events[..|events| - 1]);
      StepKeepsRetries(cfg, Run(cfg, s, events[..|events| - 1]), longest, events[|events| - 1]);
    }
  }

  lemma {:induction false} CountsStay(cfg: RetryConfig, s: System, events: seq<Event>)
    requires Counts(cfg, s)
    ensures Counts(cfg, Run(cfg, s, events))
  {
    hide Next, Counts;
    if events != [] {
      CountsStay(cfg, s, events[..|events| - 1]);
      StepKeepsCounts(cfg, Run(cfg, s, events[..|events| - 1]), events[|events| - 1]);
    }
  }

  lemma OneUsesUpSome(cfg: RetryConfig, s: System, configs: map<string, string>, d: Fetched, w: Work)
    requires Counts(cfg, s) && d.id < |s.rows| && d.row == s.rows[d.id] && Ready(d.row, s.now) && w.recorded
    requires IsActive(configs, d.row.webhookId)
    ensures |ProcessOne(cfg, s, configs, d, w).rows| == |s.rows|
    ensures Left(cfg, ProcessOne(cfg, s, configs, d, w).rows[d.id]) < Left(cfg, d.row)
  {
    OneUsesUp(cfg, s, configs, d, w);
  }

  /** Every delivery of a batch that belongs to an active webhook has used up something when the batch is over. */
  lemma {:induction false} ProcessedUseUp(cfg: RetryConfig, s: System, configs: map<string, string>,
                                          fetched: seq<Fetched>, works: seq<Work>, n: nat, k: nat)
    requires Counts(cfg, s) && Waiting(s, fetched, 0) && k < n <= |fetched| && AllRecorded(works)
    requires IsActive(configs, fetched[k].row.webhookId)
    ensures InTable(fetched[..n], |s.rows|)
    ensures Left(cfg, Process(cfg, s, configs, fetched[..n], works).rows[fetched[k].id]) < Left(cfg, fetched[k].row)
  {
    hide Process, ProcessOne, Counts, Ready, Left, IsActive;
    StillWaiting(cfg, s, configs, fetched, works, n - 1);
    ProcessOneMore(cfg, s, configs, fetched, works, n - 1);
    var t := Process(cfg, s, configs, fetched[..n - 1], works);
    if k < n - 1 {
      ProcessedUseUp(cfg, s, configs, fetched, works, n - 1, k);
      OneTouchesOnly(cfg, t, configs, fetched[n - 1], WorkAt(works, n - 1));
    } else {
      ProcessKeepsCounts(cfg, s, configs, fetched, works, n - 1);
      OneUsesUpSome(cfg, t, configs, fetched[k], WorkAt(works, k));
    }
  }

  /** What is left of the first `n` deliveries together. */
  function TotalLeft(cfg: RetryConfig, rows: seq<Delivery>, n: nat): int
    requires n <= |rows|
  {
    if n == 0 then 0 else TotalLeft(cfg, rows, n - 1) + Left(cfg, rows[n - 1])
  }

  lemma {:induction false} TotalLeftWithin(cfg: RetryConfig, s: System, n: nat)
    requires Counts(cfg, s) && n <= |s.rows|
    ensures 0 <= TotalLeft(cfg, s.rows, n) <= n * Cap(cfg)
    ensures TotalLeft(cfg, s.rows, n) == 0 ==> forall id :: 0 <= id < n ==> s.rows[id].status != Pending
  {
    if n > 0 {
      TotalLeftWithin(cfg, s, n - 1);
      assert RowCounts(cfg, s, n - 1);
    }
  }

  lemma {:induction false} TotalLeftFalls(cfg: RetryConfig, a: seq<Delivery>, b: seq<Delivery>, n: nat, p: nat)
    requires n <= |a| && n <= |b|
    requires forall id :: 0 <= id < n ==> Left(cfg, b[id]) <= Left(cfg, a[id])
    ensures TotalLeft(cfg, b, n) <= TotalLeft(cfg, a, n)
    ensures p < n && Left(cfg, b[p]) < Left(cfg, a[p]) ==> TotalLeft(cfg, b, n) < TotalLeft(cfg, a, n)
  {
    hide Left;
    if n > 0 {
      TotalLeftFalls(cfg, a, b, n - 1, p);
    }
  }

  lemma CarriedLeft(cfg: RetryConfig, s: System, t: System, id: nat)
    requires Carried(s, t) && Counts(cfg, s) && Counts(cfg, t) && id < |s.rows|
    ensures Left(cfg, t.rows[id]) <= Left(cfg, s.rows[id])
  {
    hide TimesOf, Recorded;
    assert RowCarried(s, t, id) && RowCounts(cfg, s, id) && RowCounts(cfg, t, id);
  }

  /** The webhooks of the first `n` deliveries are active, and row updates get through. */
  predicate Serves(rows: seq<Delivery>, n: nat, e: Event)
    requires n <= |rows|
  {
    e.Tick? && AllRecorded(e.works) && forall id :: 0 <= id < n ==> IsActive(e.configs, rows[id].webhookId)
  }

  /** A delivery that is ready is in the next batch, or an older one is. */
  lemma ReadyOrOlderIsFetched(s: System, now: nat, p: nat)
    requires p < |s.rows| && Ready(s.rows[p], now)
    ensures var f := Fetch(s.rows, now, BATCH_LIMIT, |s.rows|);
            f != [] && f[0].id <= p && f[0].id < |s.rows| && f[0].row == s.rows[f[0].id]
  {
    FetchesReadyRows(s.rows, now, BATCH_LIMIT, |s.rows|);
    FetchesOldest(s.rows, now, BATCH_LIMIT, |s.rows|, p);
  }

  lemma TickUsesUp(cfg: RetryConfig, s: System, n: nat, e: Event, p: nat)
    requires Counts(cfg, s) && n <= |s.rows| && Serves(s.rows, n, e)
    requires p < n && Ready(s.rows[p], s.now + e.wait)
    ensures |s.rows| <= |Next(cfg, s, e).rows| && TotalLeft(cfg, Next(cfg, s, e).rows, n) < TotalLeft(cfg, s.rows, n)
  {
    hide Process, Fetch, Left, TimesOf, Recorded, RowCarried, RowCounts, Ready;
    var s1 := s.(now := s.now + e.wait);
    var f := Fetch(s1.rows, s1.now, BATCH_LIMIT, |s1.rows|);
    ReadyOrOlderIsFetched(s, s1.now, p);
    FetchedWait(s1);
    LaterClockCounts(cfg, s, s1.now);
    ProcessedUseUp(cfg, s1, e.configs, f, e.works, |f|, 0);
    assert f[..|f|] == f;
    StepCarries(cfg, s, e);
    StepKeepsCounts(cfg, s, e);
    var t := Next(cfg, s, e);
    forall id | 0 <= id < n
      ensures Left(cfg, t.rows[id]) <= Left(cfg, s.rows[id])
    {
      CarriedLeft(cfg, s, t, id);
    }
    TotalLeftFalls(cfg, s.rows, t.rows, n, f[0].id);
  }

  lemma LaterClockCounts(cfg: RetryConfig, s: System, now: nat)
    requires Counts(cfg, s)
    ensures Counts(cfg, s.(now := now))
  {
    forall id | 0 <= id < |s.rows|
      ensures RowCounts(cfg, s.(now := now), id)
    {
      assert RowCounts(cfg, s, id);
    }
  }

  lemma CarriedTotal(cfg: RetryConfig, s: System, t: System, n: nat)
    requires Carried(s, t) && Counts(cfg, s) && Counts(cfg, t) && n <= |s.rows|
    ensures TotalLeft(cfg, t.rows, n) <= TotalLeft(cfg, s.rows, n)
    ensures forall p: nat :: p < n && Left(cfg, t.rows[p]) < Left(cfg, s.rows[p]) ==>
              TotalLeft(cfg, t.rows, n) < TotalLeft(cfg, s.rows, n)
  {
    hide Counts, Left, RowCarried, TotalLeft;
    forall id | 0 <= id < n
      ensures Left(cfg, t.rows[id]) <= Left(cfg, s.rows[id])
    {
      CarriedLeft(cfg, s, t, id);
    }
    TotalLeftFalls(cfg, s.rows, t.rows, n, 0);
    forall p: nat | p < n && Left(cfg, t.rows[p]) < Left(cfg, s.rows[p])
      ensures TotalLeft(cfg, t.rows, n) < TotalLeft(cfg, s.rows, n)
    {
      TotalLeftFalls(cfg, s.rows, t.rows, n, p);
    }
  }

  lemma {:induction false} PendingAmong(cfg: RetryConfig, s: System, n: nat) returns (p: nat)
    requires n <= |s.rows| && TotalLeft(cfg, s.rows, n) > 0
    ensures p < n && s.rows[p].status == Pending
  {
    if s.rows[n - 1].status == Pending {
      p := n - 1;
    } else {
      p := PendingAmong(cfg, s, n - 1);
    }
  }

  /** Where as much is left of a pending delivery as before, it has not been touched. */
  lemma SameLeftSameRow(cfg: RetryConfig, s: System, t: System, p: nat)
    requires Carried(s, t) && p < |s.rows| && t.rows[p].status == Pending
    requires Left(cfg, t.rows[p]) == Left(cfg, s.rows[p])
    ensures t.rows[p] == s.rows[p]
  {
    hide TimesOf;
    assert RowCarried(s, t, p);
  }

  // ---- Rounds ----

  /** The batch that event `k` of a run starts fetches at this time. */
  function FetchTime(cfg: RetryConfig, s: System, events: seq<Event>, k: nat): nat
    requires k < |events| && events[k].Tick?
  {
    Run(cfg, s, events[..k]).now + events[k].wait
  }

  /** A round is a stretch of a run, from place `m` to just after event `k`, that ends with a batch at least the longest
      backoff after it began; whatever comes in between, at whatever pace. */
  predicate IsRound(cfg: RetryConfig, s: System, events: seq<Event>, longest: nat, m: nat, k: nat) {
    m <= k < |events| && events[k].Tick? && FetchTime(cfg, s, events, k) >= Run(cfg, s, events[..m]).now + longest
  }

  /** One round after the other, each from one cut to the next. */
  predicate Rounds(cfg: RetryConfig, s: System, events: seq<Event>, longest: nat, cuts: seq<nat>) {
    forall i :: 0 < i < |cuts| ==> cuts[i] > 0 && IsRound(cfg, s, events, longest, cuts[i - 1], cuts[i] - 1)
  }

  /** All batches serve the deliveries present at the start. */
  predicate AllServe(s: System, events: seq<Event>) {
    forall k :: 0 <= k < |events| ==> events[k].Tick? ==> Serves(s.rows, |s.rows|, events[k])
  }

  lemma ServesLater(s: System, t: System, e: Event)
    requires Carried(s, t) && Serves(s.rows, |s.rows|, e)
    ensures Serves(t.rows, |s.rows|, e)
  {
    hide TimesOf;
    forall id | 0 <= id < |s.rows|
      ensures IsActive(e.configs, t.rows[id].webhookId)
    {
      assert RowCarried(s, t, id);
    }
  }

  /** The batch that closes a round finds a pending delivery ready that nothing has happened to since the round began. */
  lemma HeldNoLonger(t: System, u: System, longest: nat, now: nat, p: nat)
    requires RetriesWithin(t, longest) && t.now + longest <= now && p < |t.rows| && p < |u.rows|
    requires u.rows[p] == t.rows[p] && u.rows[p].status == Pending
    ensures Ready(u.rows[p], now)
  {
  }

  lemma ClosingBatchUsesUp(cfg: RetryConfig, s: System, t: System, u: System, longest: nat, e: Event)
    requires Carried(s, t) && Carried(t, u) && Carried(s, u) && Counts(cfg, t) && Counts(cfg, u)
    requires RetriesWithin(t, longest) && Serves(s.rows, |s.rows|, e)
    requires e.Tick? && t.now + longest <= u.now + e.wait
    requires TotalLeft(cfg, t.rows, |s.rows|) > 0
    ensures |s.rows| <= |Next(cfg, u, e).rows|
    ensures TotalLeft(cfg, Next(cfg, u, e).rows, |s.rows|) < TotalLeft(cfg, t.rows, |s.rows|)
  {
    hide Next, Counts, RetriesWithin, RowCarried, TotalLeft, Left, Serves, Ready;
    var n, v := |s.rows|, Next(cfg, u, e);
    StepCarries(cfg, u, e);
    StepKeepsCounts(cfg, u, e);
    CarriedTotal(cfg, t, u, n);
    CarriedTotal(cfg, u, v, n);
    if TotalLeft(cfg, u.rows, n) == TotalLeft(cfg, t.rows, n) {
      var p := PendingAmong(cfg, u, n);
      CarriedLeft(cfg, t, u, p);
      SameLeftSameRow(cfg, t, u, p);
      HeldNoLonger(t, u, longest, u.now + e.wait, p);
      ServesLater(s, u, e);
      TickUsesUp(cfg, u, n, e, p);
    }
  }

  lemma CarriedFromStart(cfg: RetryConfig, s: System, events: seq<Event>, m: nat)
    requires m <= |events|
    ensures Carried(s, Run(cfg, s, events[..m]))
  {
    hide Next, Carried;
    FinalStaysFinal(cfg, s, events, 0, m);
    assert events[..0] == [];
  }

  /** A round uses something up, as long as anything is left. */
  lemma RoundUsesUp(cfg: RetryConfig, s: System, events: seq<Event>, longest: nat, m: nat, k: nat)
    requires Counts(cfg, s) && RetriesWithin(s, longest) && BackoffsWithin(cfg, longest)
    requires AllServe(s, events) && IsRound(cfg, s, events, longest, m, k)
    ensures var t, v := Run(cfg, s, events[..m]), Run(cfg, s, events[..k + 1]);
            && |s.rows| <= |t.rows| && |s.rows| <= |v.rows|
            && (TotalLeft(cfg, t.rows, |s.rows|) > 0 ==>
                  TotalLeft(cfg, v.rows, |s.rows|) < TotalLeft(cfg, t.rows, |s.rows|))
  {
    hide Next, Counts, RetriesWithin, BackoffsWithin, RowCarried, TotalLeft, Serves;
    var t, u := Run(cfg, s, events[..m]), Run(cfg, s, events[..k]);
    assert events[..k + 1][..k] == events[..k];
    CarriedFromStart(cfg, s, events, m);
    CarriedFromStart(cfg, s, events, k);
    CarriedFromStart(cfg, s, events, k + 1);
    FinalStaysFinal(cfg, s, events, m, k);
    CountsStay(cfg, s, events[..m]);
    CountsStay(cfg, s, events[..k]);
    RetriesStayWithin(cfg, s, longest, events[..m]);
    if TotalLeft(cfg, t.rows, |s.rows|) > 0 {
      ClosingBatchUsesUp(cfg, s, t, u, longest, events[k]);
    }
  }

  lemma TotalAtNeverRises(cfg: RetryConfig, s: System, events: seq<Event>, m: nat, k: nat)
    requires Counts(cfg, s) && m <= k <= |events|
    ensures var t, u := Run(cfg, s, events[..m]), Run(cfg, s, events[..k]);
            && |s.rows| <= |t.rows| && |s.rows| <= |u.rows|
            && TotalLeft(cfg, u.rows, |s.rows|) <= TotalLeft(cfg, t.rows, |s.rows|)
  {
    hide Next, Counts, RowCarried, TotalLeft;
    CarriedFromStart(cfg, s, events, m);
    CarriedFromStart(cfg, s, events, k);
    FinalStaysFinal(cfg, s, events, m, k);
    CountsStay(cfg, s, events[..m]);
    CountsStay(cfg, s, events[..k]);
    CarriedTotal(cfg, Run(cfg, s, events[..m]), Run(cfg, s, events[..k]), |s.rows|);
  }

  /** What is left after some rounds. */
  lemma {:induction false} RoundsUseUp(cfg: RetryConfig, s: System, events: seq<Event>, longest: nat, cuts: seq<nat>, r: nat)
    requires Counts(cfg, s) && RetriesWithin(s, longest) && BackoffsWithin(cfg, longest)
    requires AllServe(s, events) && Rounds(cfg, s, events, longest, cuts) && r < |cuts| && cuts[0] <= |events|
    ensures cuts[r] <= |events|
    ensures var t := Run(cfg, s, events[..cuts[r]]);
            && |s.rows| <= |t.rows|
            && (TotalLeft(cfg, t.rows, |s.rows|) <= TotalLeft(cfg, s.rows, |s.rows|) - r
                || TotalLeft(cfg, t.rows, |s.rows|) <= 0)
  {
    hide Next, Run, Counts, RetriesWithin, BackoffsWithin, TotalLeft, AllServe;
    if r == 0 {
      TotalAtNeverRises(cfg, s, events, 0, cuts[0]);
      EmptyRun(cfg, s, events);
    } else {
      assert IsRound(cfg, s, events, longest, cuts[r - 1], cuts[r] - 1);
      RoundsUseUp(cfg, s, events, longest, cuts, r - 1);
      RoundUsesUp(cfg, s, events, longest, cuts[r - 1], cuts[r] - 1);
      TotalAtNeverRises(cfg, s, events, cuts[r - 1], cuts[r]);
    }
  }

  lemma EmptyRun(cfg: RetryConfig, s: System, events: seq<Event>)
    ensures Run(cfg, s, events[..0]) == s
  {
  }

  lemma NothingHeldBack(longest: nat)
    ensures RetriesWithin(EMPTY, longest)
  {
  }

  /** Once nothing is left of the first deliveries, none of them is pending. */
  lemma NothingLeft(cfg: RetryConfig, s: System, events: seq<Event>, m: nat)
    requires Counts(cfg, s) && m <= |events| && |s.rows| <= |Run(cfg, s, events[..m]).rows|
    requires TotalLeft(cfg, Run(cfg, s, events[..m]).rows, |s.rows|) <= 0
    ensures var t := Run(cfg, s, events);
            |s.rows| <= |t.rows| && forall id :: 0 <= id < |s.rows| ==> t.rows[id].status != Pending
  {
    hide Next, Run, Counts, TotalLeft;
    TotalAtNeverRises(cfg, s, events, m, |events|);
    assert events[..|events|] == events;
    CountsStay(cfg, s, events);
    TotalLeftWithin(cfg, Run(cfg, s, events), |s.rows|);
  }

  /** The queue drains. At any moment of any run: if from then on the webhooks of the deliveries in the table are active and
      no row update is lost, then after as many rounds as these deliveries have attempts at most, every one of them is sent
      or abandoned, whatever the pace, whatever the responses and whatever is created meanwhile. */
  lemma QueueDrains(cfg: RetryConfig, earlier: seq<Event>, longest: nat, events: seq<Event>, cuts: seq<nat>)
    requires BackoffsWithin(cfg, longest) && AllServe(Run(cfg, EMPTY, earlier), events)
    requires cuts != [] && cuts[0] <= |events| && Rounds(cfg, Run(cfg, EMPTY, earlier), events, longest, cuts)
    requires |cuts| - 1 >= |Run(cfg, EMPTY, earlier).rows| * Cap(cfg)
    ensures var s := Run(cfg, EMPTY, earlier);
            var t := Run(cfg, s, events);
            |s.rows| <= |t.rows| && forall id :: 0 <= id < |s.rows| ==> t.rows[id].status != Pending
  {
    hide Run, Next, Counts, RetriesWithin, BackoffsWithin, TotalLeft, Cap, AllServe, Rounds;
    var s, r := Run(cfg, EMPTY, earlier), |cuts| - 1;
    AttemptsCountSends(cfg, earlier);
    NothingHeldBack(longest);
    RetriesStayWithin(cfg, EMPTY, longest, earlier);
    RoundsUseUp(cfg, s, events, longest, cuts, r);
    TotalLeftWithin(cfg, s, |s.rows|);
    NothingLeft(cfg, s, events, cuts[r]);
  }

  // ---- At the worker's own pace ----

  function Ticks(events: seq<Event>): nat {
    if events == [] then 0
    else Ticks(events[..|events| - 1]) + (if events[|events| - 1].Tick? then 1 else 0)
  }

  /** The worker's ticker: no two batches come closer together than this. */
  predicate Paced(events: seq<Event>, pace: nat) {
    forall k :: 0 <= k < |events| ==> events[k].Tick? ==> events[k].wait >= pace
  }

  lemma NextClock(cfg: RetryConfig, s: System, e: Event)
    ensures s.now + (if e.Tick? then e.wait else 0) <= Next(cfg, s, e).now
  {
    if e.Tick? {
      BatchClock(cfg, s, e.wait, e.configs, e.works);
    }
  }

  lemma BatchClock(cfg: RetryConfig, s: System, wait: nat, configs: map<string, string>, works: seq<Work>)
    ensures s.now + wait <= Batch(cfg, s, wait, configs, works).now
  {
    hide Process, Fetch, Waiting;
    var s1 := s.(now := s.now + wait);
    var f := Fetch(s1.rows, s1.now, BATCH_LIMIT, |s1.rows|);
    FetchedWait(s1);
    FetchedInTable(s1.rows, s1.now, BATCH_LIMIT);
    assert f[..|f|] == f;
    StillWaiting(cfg, s1, configs, f, works, |f|);
  }

  lemma TicksNext(events: seq<Event>, k: nat)
    requires k < |events|
    ensures Ticks(events[..k + 1]) == Ticks(events[..k]) + (if events[k].Tick? then 1 else 0)
  {
    assert events[..k + 1][..k] == events[..k];
  }

  /** Time passes at least as fast as the ticker says. */
  lemma {:induction false} ClockKeepsPace(cfg: RetryConfig, s: System, events: seq<Event>, pace: nat, m: nat, k: nat)
    requires Paced(events, pace) && m <= k <= |events|
    ensures Ticks(events[..m]) <= Ticks(events[..k])
    ensures Run(cfg, s, events[..m]).now + pace * (Ticks(events[..k]) - Ticks(events[..m])) <= Run(cfg, s, events[..k]).now
    decreases k - m
  {
    hide Next, Ticks;
    if m < k {
      ClockKeepsPace(cfg, s, events, pace, m, k - 1);
      TicksNext(events, k - 1);
      assert events[..k][..k - 1] == events[..k - 1];
      NextClock(cfg, Run(cfg, s, events[..k - 1]), events[k - 1]);
      var d := Ticks(events[..k - 1]) - Ticks(events[..m]);
      assert pace * (d + 1) == pace * d + pace;
    }
  }

  /** The place just after the tick with this number. */
  lemma {:induction false} AfterTick(events: seq<Event>, number: nat, n: nat) returns (k: nat)
    requires n <= |events| && 0 < number <= Ticks(events[..n])
    ensures 0 < k <= n && events[k - 1].Tick? && Ticks(events[..k]) == number
  {
    TicksNext(events, n - 1);
    if events[n - 1].Tick? && Ticks(events[..n]) == number {
      k := n;
    } else {
      k := AfterTick(events, number, n - 1);
    }
  }

  /** Enough ticks for the longest backoff make a round. */
  lemma TicksMakeRound(cfg: RetryConfig, s: System, events: seq<Event>, pace: nat, longest: nat, per: nat, m: nat, k: nat)
    requires Paced(events, pace) && pace * per >= longest && m < k <= |events| && events[k - 1].Tick?
    requires Ticks(events[..k]) == Ticks(events[..m]) + per
    ensures IsRound(cfg, s, events, longest, m, k - 1)
  {
    hide Next, Ticks, Run;
    TicksNext(events, k - 1);
    ClockKeepsPace(cfg, s, events, pace, m, k - 1);
    assert per >= 1;
    assert pace * per == pace * (per - 1) + pace;
  }

  /** Cutting a run after every so many ticks. */
  lemma {:induction false} CutIntoRounds(cfg: RetryConfig, s: System, events: seq<Event>, pace: nat, longest: nat, per: nat,
                                         rounds: nat) returns (cuts: seq<nat>)
    requires Paced(events, pace) && pace * per >= longest && per > 0 && Ticks(events) >= rounds * per
    ensures |cuts| == rounds + 1 && cuts[0] == 0 && cuts[rounds] <= |events|
    ensures Ticks(events[..cuts[rounds]]) == rounds * per
    ensures Rounds(cfg, s, events, longest, cuts)
  {
    hide IsRound, Ticks;
    if rounds == 0 {
      cuts := [0];
      NoTicks(events);
    } else {
      assert rounds * per == (rounds - 1) * per + per;
      var before := CutIntoRounds(cfg, s, events, pace, longest, per, rounds - 1);
      assert events[..|events|] == events;
      var k := AfterTick(events, rounds * per, |events|);
      var m := before[rounds - 1];
      LaterTick(events, m, k);
      TicksMakeRound(cfg, s, events, pace, longest, per, m, k);
      cuts := before + [k];
      assert forall i :: 0 <= i < rounds ==> cuts[i] == before[i];
    }
  }

  lemma NoTicks(events: seq<Event>)
    ensures Ticks(events[..0]) == 0
  {
  }

  lemma LaterTick(events: seq<Event>, m: nat, k: nat)
    requires m <= |events| && k <= |events| && Ticks(events[..m]) < Ticks(events[..k])
    ensures m < k
  {
    if k <= m {
      TicksGrow(events, k, m);
    }
  }

  lemma {:induction false} TicksGrow(events: seq<Event>, m: nat, k: nat)
    requires m <= k <= |events|
    ensures Ticks(events[..m]) <= Ticks(events[..k])
    decreases k - m
  {
    if m < k {
      TicksGrow(events, m, k - 1);
      TicksNext(events, k - 1);
    }
  }

  /** The same in batches: where they come at the ticker's pace, `per` of them outlast the longest backoff, so that many for
      every attempt there can be are enough. */
  lemma QueueDrainsAtPace(cfg: RetryConfig, earlier: seq<Event>, longest: nat, events: seq<Event>, pace: nat, per: nat)
    requires BackoffsWithin(cfg, longest) && AllServe(Run(cfg, EMPTY, earlier), events)
    requires Paced(events, pace) && pace * per >= longest && per > 0
    requires Ticks(events) >= |Run(cfg, EMPTY, earlier).rows| * Cap(cfg) * per
    ensures var s := Run(cfg, EMPTY, earlier);
            var t := Run(cfg, s, events);
            |s.rows| <= |t.rows| && forall id :: 0 <= id < |s.rows| ==> t.rows[id].status != Pending
  {
    hide Run, BackoffsWithin, AllServe, Rounds, Ticks, Cap, Paced;
    var s := Run(cfg, EMPTY, earlier);
    var cuts := CutIntoRounds(cfg, s, events, pace, longest, per, |s.rows| * Cap(cfg));
    QueueDrains(cfg, earlier, longest, events, cuts);
  }

  /** A batch every two seconds. */
  const TICK_SECONDS := 2

  /** With the shipped backoffs and ticker, 450 batches for every attempt there can be. */
  lemma ShippedQueueDrains(maxRetries: int, earlier: seq<Event>, events: seq<Event>)
    requires var cfg := RetryConfig(maxRetries, BACKOFF_SECONDS);
             && AllServe(Run(cfg, EMPTY, earlier), events) && Paced(events, TICK_SECONDS)
             && Ticks(events) >= |Run(cfg, EMPTY, earlier).rows| * Cap(cfg) * 450
    ensures var cfg := RetryConfig(maxRetries, BACKOFF_SECONDS);
            var s := Run(cfg, EMPTY, earlier);
            var t := Run(cfg, s, events);
            |s.rows| <= |t.rows| && forall id :: 0 <= id < |s.rows| ==> t.rows[id].status != Pending
  {
    hide Run, AllServe, Paced, Ticks, Cap;
    QueueDrainsAtPace(RetryConfig(maxRetries, BACKOFF_SECONDS), earlier, 900, events, TICK_SECONDS, 450);
  }
}
