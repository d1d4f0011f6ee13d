/** What an idempotency key promises, and what the request hash tells apart. */
module Idempotency {
  import opened Wrappers
  import opened AssetTypes
  import opened Protocol
  import opened Lifecycle
  import opened Ledger
  import opened LedgerRuns
  import opened AuditTrail

  // ---- Records and events ----

  /** The snapshot names this very event. */
  predicate Names(snapshot: Snapshot, row: EventRow) {
    && snapshot.eventId == row.eventId && snapshot.assetId == row.assetId && snapshot.action == row.action
    && snapshot.from.AsDbStr() == row.fromState && snapshot.to.AsDbStr() == row.toState
  }

  /** An event written together with an idempotency record; transfers write theirs on their own. */
  predicate IsActionEvent(row: EventRow) {
    row.action != Transfer.AsDbStr()
  }

  predicate EventsHaveRecords(events: seq<EventRow>, records: map<string, IdempotencyRecord>) {
    forall i :: 0 <= i < |events| && IsActionEvent(events[i]) ==>
      events[i].key in records && Names(records[events[i].key].snapshot, events[i])
  }

  predicate KeysAreUsedOnce(events: seq<EventRow>) {
    forall i, j :: 0 <= i < j < |events| && IsActionEvent(events[i]) && IsActionEvent(events[j]) ==>
      events[i].key != events[j].key
  }

  ghost predicate RecordsHaveEvents(events: seq<EventRow>, records: map<string, IdempotencyRecord>) {
    forall key :: key in records ==>
      exists i :: 0 <= i < |events| && IsActionEvent(events[i]) && events[i].key == key
  }

  /** Records and action events are in one-to-one correspondence, each snapshot naming its event. */
  ghost predicate Corresponds(t: Tables) {
    && EventsHaveRecords(t.events, t.records)
    && KeysAreUsedOnce(t.events)
    && RecordsHaveEvents(t.events, t.records)
  }

  lemma PairAppended(events: seq<EventRow>, records: map<string, IdempotencyRecord>, row: EventRow,
                     record: IdempotencyRecord)
    requires EventsHaveRecords(events, records) && KeysAreUsedOnce(events) && RecordsHaveEvents(events, records)
    requires row.key !in records && IsActionEvent(row) && Names(record.snapshot, row)
    ensures EventsHaveRecords(events + [row], records[row.key := record])
    ensures KeysAreUsedOnce(events + [row])
    ensures RecordsHaveEvents(events + [row], records[row.key := record])
  {
    hide Names, IsActionEvent;
    var longer := events + [row];
    assert longer[|events|] == row;
    var more := records[row.key := record];
    forall key | key in more
      ensures exists i :: 0 <= i < |longer| && IsActionEvent(longer[i]) && longer[i].key == key
    {
      if key != row.key {
        var i :| 0 <= i < |events| && IsActionEvent(events[i]) && events[i].key == key;
        assert longer[i] == events[i];
      }
    }
  }

  lemma TransferEventAppended(events: seq<EventRow>, records: map<string, IdempotencyRecord>, row: EventRow)
    requires EventsHaveRecords(events, records) && KeysAreUsedOnce(events) && RecordsHaveEvents(events, records)
    requires !IsActionEvent(row)
    ensures EventsHaveRecords(events + [row], records) && KeysAreUsedOnce(events + [row])
    ensures RecordsHaveEvents(events + [row], records)
  {
    hide Names, IsActionEvent;
    var longer := events + [row];
    forall key | key in records
      ensures exists i :: 0 <= i < |longer| && IsActionEvent(longer[i]) && longer[i].key == key
    {
      var i :| 0 <= i < |events| && IsActionEvent(events[i]) && events[i].key == key;
      assert longer[i] == events[i];
    }
  }

  lemma PerformedPair(t: Tables, e: Event)
    requires EffectOf(t, e).Performed?
    ensures var c, step := EffectOf(t, e).call, EffectOf(t, e).step;
            var row := Printed(step.event);
            && row.key == c.headers.key && row.key !in t.records && IsActionEvent(row)
            && Names(SnapshotOf(c, step), row)
            && Next(t, e).events == t.events + [row]
            && Next(t, e).records == t.records[row.key := IdempotencyRecord(c.requestHash, SnapshotOf(c, step))]
  {
    hide Next, EffectOf, CallOf, FetchAsset, ApplyAction, ActionNamed, OwnerAfter, AssetState.AsDbStr,
         AssetAction.AsDbStr;
    Performance(t, e);
    var c := EffectOf(t, e).call;
    AcceptedEvent(Presented(c, FetchAsset(t, c.assetId).value), AttemptOf(c, e.eventId));
    ActionParsesBack(c.action);
    ActionParsesBack(Transfer);
    FetchedNames(t, c.assetId);
  }

  lemma StepKeepsCorrespondence(t: Tables, e: Event)
    requires Corresponds(t)
    ensures Corresponds(Next(t, e))
  {
    hide Next, EffectOf, Consent, Printed, IsActionEvent, Names, SnapshotOf, AssetState.AsDbStr, AssetAction.AsDbStr;
    match EffectOf(t, e)
    case Performed(c, step) =>
      PerformedPair(t, e);
      PairAppended(t.events, t.records, Printed(step.event), IdempotencyRecord(c.requestHash, SnapshotOf(c, step)));
    case Handed(r, h) =>
      Movement(t, e);
      if e.fault == NoFault {
        TransferIsNoAction(r, h.from, e.eventId);
        TransferEventAppended(t.events, t.records, TransferEvent(r, h.from, e.eventId));
      } else {
        assert t.events + [] == t.events;
      }
    case Nothing =>
      NothingElseChanges(t, e);
  }

  lemma TransferIsNoAction(r: TransferRequest, from: AssetState, eventId: string)
    ensures !IsActionEvent(TransferEvent(r, from, eventId))
  {
  }

  /** Whatever arrives and whatever fails, records and action events stay in one-to-one correspondence. */
  lemma {:induction false} CorrespondenceAlways(t: Tables, events: seq<Event>)
    requires Fresh(t)
    ensures Corresponds(Run(t, events))
  {
    hide Next;
    if events != [] {
      CorrespondenceAlways(t, events[..|events| - 1]);
      StepKeepsCorrespondence(Run(t, events[..|events| - 1]), events[|events| - 1]);
    }
  }

  // ---- Repeating a key ----

  lemma StepKeepsRecord(t: Tables, e: Event, key: string)
    requires key in t.records
    ensures key in Next(t, e).records && Next(t, e).records[key] == t.records[key]
  {
    hide Next, EffectOf, Consent, CallOf, FetchAsset, ApplyAction, Printed, Names, IsActionEvent, SnapshotOf;
    match EffectOf(t, e)
    case Performed(c, step) => PerformedPair(t, e);
    case Handed(r, h) => Movement(t, e);
    case Nothing => NothingElseChanges(t, e);
  }

  lemma {:induction false} RecordsAreKept(t: Tables, events: seq<Event>, m: nat, n: nat, key: string)
    requires m <= n <= |events| && key in Run(t, events[..m]).records
    ensures key in Run(t, events[..n]).records
            && Run(t, events[..n]).records[key] == Run(t, events[..m]).records[key]
    decreases n - m
  {
    hide Next;
    if m < n {
      RecordsAreKept(t, events, m, n - 1, key);
      assert events[..n][..n - 1] == events[..n - 1];
      StepKeepsRecord(Run(t, events[..n - 1]), events[n - 1], key);
    }
  }

  /** Once a key has succeeded, every later protocol request with it changes nothing: it is answered with the snapshot
      kept then, or refused because it asks for something else, or fails because the lookup does. */
  lemma KeyIsAnsweredFromItsRecord(t: Tables, events: seq<Event>, m: nat, n: nat, c: Call, eventId: string, fault: Fault)
    requires m <= n <= |events| && c.headers.key in Run(t, events[..m]).records
    ensures var record := Run(t, events[..m]).records[c.headers.key];
            Handled(Run(t, events[..n]), c, eventId, fault)
            == Outcome(Run(t, events[..n]),
                       if fault == ReadFails then Err(Database)
                       else if c.requestHash == record.requestHash then Ok(record.snapshot)
                       else Err(IdempotencyConflict))
  {
    hide Run;
    RecordsAreKept(t, events, m, n, c.headers.key);
  }

  /** A request that is answered with success has its answer on record, and the record names the event it caused. */
  lemma SuccessIsOnRecord(t: Tables, c: Call, eventId: string, fault: Fault)
    requires Corresponds(t) && Handled(t, c, eventId, fault).reply.Ok?
    ensures var after := Handled(t, c, eventId, fault);
            && c.headers.key in after.tables.records
            && after.tables.records[c.headers.key] == IdempotencyRecord(c.requestHash, after.reply.value)
  {
    hide FetchAsset, ApplyAction, SnapshotOf, Printed, Corresponds;
    if Decide(t, c, eventId).Perform? {
      DecidedStep(t, c, eventId);
      AcceptedEvent(Presented(c, FetchAsset(t, c.assetId).value), AttemptOf(c, eventId));
    }
  }

  // ---- What the request hash tells apart ----

  predicate BarFree(s: string) {
    '|' !in s
  }

  predicate AllBarFree(fields: seq<string>) {
    forall k :: 0 <= k < |fields| ==> BarFree(fields[k])
  }

  lemma FirstBarIsShared(a: string, x: string, b: string, y: string)
    requires BarFree(a) && BarFree(b) && a + "|" + x == b + "|" + y
    ensures a == b && x == y
  {
    var whole := a + "|" + x;
    assert whole[|a|] == '|' && whole[|b|] == '|';
    assert forall k :: 0 <= k < |a| ==> whole[k] == a[k] && a[k] in a;
    assert forall k :: 0 <= k < |b| ==> whole[k] == b[k] && b[k] in b;
    assert !(|a| < |b|) && !(|b| < |a|);
    assert whole[..|a|] == a && whole[..|b|] == b;
    assert whole[|a| + 1..] == x && whole[|b| + 1..] == y;
  }

  /** Fields without bars are shared by equal texts, one after the other. */
  lemma {:induction false} JoinedSharesHead(xs: seq<string>, ys: seq<string>, n: nat)
    requires n < |xs| && n < |ys| && AllBarFree(xs[..n]) && AllBarFree(ys[..n]) && Joined(xs) == Joined(ys)
    ensures xs[..n] == ys[..n] && Joined(xs[n..]) == Joined(ys[n..])
  {
    if n == 0 {
      assert xs[0..] == xs && ys[0..] == ys;
    } else {
      assert xs[..n][0] == xs[0] && ys[..n][0] == ys[0];
      FirstBarIsShared(xs[0], Joined(xs[1..]), ys[0], Joined(ys[1..]));
      assert xs[1..][..n - 1] == xs[..n][1..] && ys[1..][..n - 1] == ys[..n][1..];
      assert xs[1..][n - 1..] == xs[n..] && ys[1..][n - 1..] == ys[n..];
      JoinedSharesHead(xs[1..], ys[1..], n - 1);
      assert xs[..n] == [xs[0]] + xs[..n][1..] && ys[..n] == [ys[0]] + ys[..n][1..];
    }
  }

  lemma Appended(p: string, x: string, y: string)
    ensures p + x == p + y <==> x == y
    ensures BarFree(p) && BarFree(x) ==> BarFree(p + x)
  {
    assert (p + x)[|p|..] == x && (p + y)[|p|..] == y;
  }

  lemma StateIsBarFree(s: AssetState)
    ensures BarFree(s.AsDbStr())
  {
  }

  lemma ActionIsBarFree(a: AssetAction)
    ensures BarFree(a.AsDbStr())
  {
  }

  lemma RoleIsBarFree(r: ActorRole)
    ensures BarFree(r.AsDbStr())
  {
  }

  lemma RolesPrintApart(r: ActorRole, s: ActorRole)
    ensures r.AsDbStr() == s.AsDbStr() <==> r == s
  {
    assert r != s ==> |r.AsDbStr()| != |s.AsDbStr()| || r.AsDbStr()[0] != s.AsDbStr()[0];
  }

  lemma ShownIsBarFree(p: Option<AssetState>)
    ensures BarFree(Shown(p))
  {
    if p.Some? {
      StateIsBarFree(p.value);
    }
  }

  lemma ShownApart(p: Option<AssetState>, q: Option<AssetState>)
    ensures Shown(p) == Shown(q) <==> p == q
  {
    hide AssetState.AsDbStr, FromDbStr;
    if p.Some? && q.Some? {
      DbStrParsesBack(p.value);
      DbStrParsesBack(q.value);
      Appended("Some(\"", p.value.AsDbStr() + "\")", q.value.AsDbStr() + "\")");
      assert Shown(p) == "Some(\"" + (p.value.AsDbStr() + "\")");
      assert Shown(q) == "Some(\"" + (q.value.AsDbStr() + "\")");
      if Shown(p) == Shown(q) {
        assert (p.value.AsDbStr() + "\")")[..|p.value.AsDbStr()|] == p.value.AsDbStr();
        assert (q.value.AsDbStr() + "\")")[..|q.value.AsDbStr()|] == q.value.AsDbStr();
      }
    } else if p.Some? != q.Some? {
      assert Shown(p)[0] != Shown(q)[0];
    }
  }

  /** The fields that make up a request's identity; the buyer and the actor's own id are not among them, and a missing
      approval or policy is the same as an empty one. */
  predicate SameIdentity(r: ActionRequest, a: AssetAction, s: ActionRequest, b: AssetAction) {
    && r.assetId == s.assetId && a == b && r.headers.traceId == s.headers.traceId && r.actor.role == s.actor.role
    && r.headers.approvalId.GetOr("") == s.headers.approvalId.GetOr("")
    && r.headers.policyVersion.GetOr("") == s.headers.policyVersion.GetOr("")
    && r.previous == s.previous
  }

  lemma ThreeJoined(a: string, b: string, c: string)
    ensures Joined([a, b, c]) == a + "|" + (b + "|" + c)
  {
    var two := [b, c];
    assert two[1..] == [c] && Joined([c]) == c;
    assert Joined(two) == b + "|" + c;
    assert [a, b, c][1..] == two;
  }

  // ---- Where the approval ends and the policy begins ----

  const SEPARATOR := "|policy="

  predicate OccursAt(pattern: string, text: string, k: nat) {
    k + |pattern| <= |text| && text[k..k + |pattern|] == pattern
  }

  predicate Occurs(pattern: string, text: string) {
    exists k :: 0 <= k <= |text| && OccursAt(pattern, text, k)
  }

  function Approval(r: ActionRequest): string {
    r.headers.approvalId.GetOr("")
  }

  function Policy(r: ActionRequest): string {
    r.headers.policyVersion.GetOr("")
  }

  lemma SeparatorHasOneBar(k: nat)
    requires k < |SEPARATOR|
    ensures SEPARATOR[k] == '|' <==> k == 0
  {
  }

  lemma BarOfOccurrence(text: string, i: nat, j: nat)
    requires OccursAt(SEPARATOR, text, i) && i <= j < i + |SEPARATOR| && text[j] == '|'
    ensures j == i
  {
    assert text[j] == text[i..i + |SEPARATOR|][j - i];
    SeparatorHasOneBar(j - i);
  }

  /** Two occurrences of the separator in one text do not overlap. */
  lemma SeparatorsApart(text: string, i: nat, j: nat)
    requires i < j && OccursAt(SEPARATOR, text, i) && OccursAt(SEPARATOR, text, j)
    ensures i + |SEPARATOR| <= j
  {
    assert text[j] == text[j..j + |SEPARATOR|][0];
    SeparatorHasOneBar(0);
    if j < i + |SEPARATOR| {
      BarOfOccurrence(text, i, j);
    }
  }

  /** A second way to split a text at the separator puts one into either half of the first. */
  lemma SecondSplitOccurs(a: string, p: string, x: string, y: string)
    requires a + SEPARATOR + p == x + SEPARATOR + y && (x != a || y != p)
    ensures Occurs(SEPARATOR, a) || Occurs(SEPARATOR, p)
  {
    var n, whole := |SEPARATOR|, a + SEPARATOR + p;
    assert OccursAt(SEPARATOR, whole, |a|) && OccursAt(SEPARATOR, whole, |x|);
    assert whole[..|a|] == a && whole[|a| + n..] == p && whole[..|x|] == x && whole[|x| + n..] == y;
    if |x| < |a| {
      SeparatorsApart(whole, |x|, |a|);
      assert a[|x|..|x| + n] == whole[|x|..|x| + n];
      assert OccursAt(SEPARATOR, a, |x|);
    } else if |a| < |x| {
      SeparatorsApart(whole, |a|, |x|);
      var k := |x| - |a| - n;
      assert p[k..k + n] == whole[|x|..|x| + n];
      assert OccursAt(SEPARATOR, p, k);
    }
  }

  /** An occurrence in either half gives such a second way. */
  lemma OccurrenceSplits(a: string, p: string) returns (x: string, y: string)
    requires Occurs(SEPARATOR, a) || Occurs(SEPARATOR, p)
    ensures a + SEPARATOR + p == x + SEPARATOR + y && x != a
  {
    var n := |SEPARATOR|;
    if Occurs(SEPARATOR, a) {
      var k :| 0 <= k <= |a| && OccursAt(SEPARATOR, a, k);
      x, y := a[..k], a[k + n..] + SEPARATOR + p;
      CutAt(a, k);
    } else {
      var k :| 0 <= k <= |p| && OccursAt(SEPARATOR, p, k);
      x, y := a + SEPARATOR + p[..k], p[k + n..];
      CutAt(p, k);
    }
  }

  lemma CutAt(text: string, k: nat)
    requires OccursAt(SEPARATOR, text, k)
    ensures text == text[..k] + SEPARATOR + text[k + |SEPARATOR|..]
  {
  }

  /** The last three fields of the hash. */
  lemma TailOfHash(r: ActionRequest, action: AssetAction)
    ensures Joined(Fields(r, action)[4..])
         == ("approval=" + (Approval(r) + SEPARATOR + Policy(r))) + "|" + ("prev=" + Shown(r.previous))
  {
    hide AssetState.AsDbStr, AssetAction.AsDbStr, ActorRole.AsDbStr, Shown, Joined;
    var a, p, v := Approval(r), Policy(r), "prev=" + Shown(r.previous);
    assert Fields(r, action)[4..] == ["approval=" + a, "policy=" + p, v];
    ThreeJoined("approval=" + a, "policy=" + p, v);
    assert ("approval=" + a) + "|" + (("policy=" + p) + "|" + v) == ("approval=" + (a + SEPARATOR + p)) + "|" + v by {
      assert SEPARATOR == "|" + "policy=";
    }
  }

  lemma LastBarIsShared(a: string, x: string, b: string, y: string)
    requires BarFree(x) && BarFree(y) && a + "|" + x == b + "|" + y
    ensures a == b && x == y
  {
    var whole := a + "|" + x;
    assert whole[|a|] == '|' && whole[|b|] == '|';
    assert forall k :: |a| < k < |whole| ==> whole[k] == x[k - |a| - 1] && x[k - |a| - 1] in x;
    assert forall k :: |b| < k < |whole| ==> whole[k] == y[k - |b| - 1] && y[k - |b| - 1] in y;
    assert !(|a| < |b|) && !(|b| < |a|);
    assert whole[..|a|] == a && whole[..|b|] == b;
    assert whole[|a| + 1..] == x && whole[|b| + 1..] == y;
  }

  // ---- Where the asset ends and the other fields begin ----

  /** The fields between the asset and the approval, with their bars. */
  function Head(action: AssetAction, trace: string, role: ActorRole): string {
    ("|" + ("action=" + action.AsDbStr())) + ("|" + ("trace=" + trace)) + ("|" + ("role=" + role.AsDbStr()))
    + ("|" + "approval=")
  }

  /** The actions whose requests are hashed this way; transfers are not, and the first activation step has its own hash. */
  predicate Hashed(action: AssetAction) {
    action != Transfer && action != ActivateRotateKeys
  }

  ghost predicate HeadOccursAt(text: string, k: nat) {
    exists action: AssetAction, trace: string, role: ActorRole ::
      Hashed(action) && BarFree(trace) && OccursAt(Head(action, trace, role), text, k)
  }

  ghost predicate HeadOccurs(text: string) {
    exists k :: 0 <= k <= |text| && HeadOccursAt(text, k)
  }

  lemma BarOfField(field: string, d: nat)
    requires BarFree(field) && d < 1 + |field|
    ensures ("|" + field)[d] == '|' <==> d == 0
  {
    if d > 0 {
      assert ("|" + field)[d] == field[d - 1] && field[d - 1] in field;
    }
  }

  /** A bar at `d`, and what it is followed by. */
  predicate BarBefore(text: string, d: nat, c: char, c': char) {
    d + 2 < |text| && text[d] == '|' && text[d + 1] == c && text[d + 2] == c'
  }

  /** The bars of a head are those of its four fields. */
  lemma BarsOfHead(action: AssetAction, trace: string, role: ActorRole, d: nat)
    requires BarFree(trace) && d < |Head(action, trace, role)| && Head(action, trace, role)[d] == '|'
    ensures var h := Head(action, trace, role);
            if d == 0 then BarBefore(h, d, 'a', 'c')
            else BarBefore(h, d, 't', 'r') || BarBefore(h, d, 'r', 'o') || BarBefore(h, d, 'a', 'p')
  {
    hide AssetAction.AsDbStr, ActorRole.AsDbStr, BarFree;
    var f1, f2, f3, f4 := "action=" + action.AsDbStr(), "trace=" + trace, "role=" + role.AsDbStr(), "approval=";
    FieldsOfHead(action, trace, role);
    var s1, s2, s3, s4 := "|" + f1, "|" + f2, "|" + f3, "|" + f4;
    var h := Head(action, trace, role);
    assert h == s1 + s2 + s3 + s4;
    if d < |s1| {
      BarOfField(f1, d);
    } else if d < |s1| + |s2| {
      BarOfField(f2, d - |s1|);
    } else if d < |s1| + |s2| + |s3| {
      BarOfField(f3, d - |s1| - |s2|);
    } else {
      BarOfField(f4, d - |s1| - |s2| - |s3|);
    }
  }

  lemma FieldsOfHead(action: AssetAction, trace: string, role: ActorRole)
    requires BarFree(trace)
    ensures BarFree("action=" + action.AsDbStr()) && BarFree("trace=" + trace) && BarFree("role=" + role.AsDbStr())
    ensures BarFree("approval=")
  {
    hide AssetAction.AsDbStr, ActorRole.AsDbStr;
    ActionIsBarFree(action);
    RoleIsBarFree(role);
  }

  lemma HeadBegins(action: AssetAction, trace: string, role: ActorRole)
    ensures BarBefore(Head(action, trace, role), 0, 'a', 'c')
  {
    hide AssetAction.AsDbStr, ActorRole.AsDbStr;
  }

  lemma OccurrenceShows(pattern: string, text: string, i: nat, d: nat)
    requires OccursAt(pattern, text, i) && d < |pattern|
    ensures text[i + d] == pattern[d]
  {
    assert text[i..i + |pattern|][d] == text[i + d];
  }

  /** Two heads in one text do not overlap. */
  lemma HeadsApart(text: string, i: nat, j: nat, a: AssetAction, t: string, r: ActorRole,
                   b: AssetAction, u: string, q: ActorRole)
    requires i < j && BarFree(t) && BarFree(u)
    requires OccursAt(Head(a, t, r), text, i) && OccursAt(Head(b, u, q), text, j)
    ensures i + |Head(a, t, r)| <= j
  {
    hide Head, BarFree, OccursAt;
    HeadBegins(b, u, q);
    OccurrenceShows(Head(b, u, q), text, j, 0);
    OccurrenceShows(Head(b, u, q), text, j, 1);
    OccurrenceShows(Head(b, u, q), text, j, 2);
    if j < i + |Head(a, t, r)| {
      var d := j - i;
      OccurrenceShows(Head(a, t, r), text, i, d);
      BarsOfHead(a, t, r, d);
      OccurrenceShows(Head(a, t, r), text, i, d + 1);
      OccurrenceShows(Head(a, t, r), text, i, d + 2);
    }
  }

  /** And a separator does not begin inside a head. */
  lemma SeparatorAfterHead(text: string, i: nat, j: nat, a: AssetAction, t: string, r: ActorRole)
    requires i <= j && BarFree(t) && OccursAt(Head(a, t, r), text, i) && OccursAt(SEPARATOR, text, j)
    ensures i + |Head(a, t, r)| <= j
  {
    hide Head, BarFree, OccursAt;
    OccurrenceShows(SEPARATOR, text, j, 0);
    OccurrenceShows(SEPARATOR, text, j, 1);
    if j < i + |Head(a, t, r)| {
      var d := j - i;
      OccurrenceShows(Head(a, t, r), text, i, d);
      BarsOfHead(a, t, r, d);
      OccurrenceShows(Head(a, t, r), text, i, d + 1);
    }
  }

  // ---- The whole hash ----

  function HeadOf(r: ActionRequest, action: AssetAction): string {
    Head(action, r.headers.traceId, r.actor.role)
  }

  /** The hash without its first label and its last field. */
  function Front(r: ActionRequest, action: AssetAction): string {
    r.assetId + HeadOf(r, action) + (Approval(r) + SEPARATOR + Policy(r))
  }

  lemma FiveJoined(f0: string, f1: string, f2: string, f3: string, rest: seq<string>)
    requires rest != []
    ensures Joined([f0, f1, f2, f3] + rest) == f0 + "|" + (f1 + "|" + (f2 + "|" + (f3 + "|" + Joined(rest))))
  {
    var x3 := [f3] + rest;
    var x2 := [f2] + x3;
    var x1 := [f1] + x2;
    assert x3[1..] == rest && x2[1..] == x3 && x1[1..] == x2 && ([f0] + x1)[1..] == x1;
    assert Joined(x3) == f3 + "|" + Joined(rest);
    assert Joined(x2) == f2 + "|" + Joined(x3);
    assert Joined(x1) == f1 + "|" + Joined(x2);
    assert [f0, f1, f2, f3] + rest == [f0] + x1;
  }

  lemma Regrouped(l: string, id: string, f1: string, f2: string, f3: string, m: string, z: string, v: string)
    ensures (l + id) + "|" + (f1 + "|" + (f2 + "|" + (f3 + "|" + ((m + z) + "|" + v))))
         == (l + (id + (("|" + f1) + ("|" + f2) + ("|" + f3) + ("|" + m)) + z)) + "|" + v
  {
  }

  lemma HashHasFront(r: ActionRequest, action: AssetAction)
    ensures BuildRequestHash(r, action) == ("asset=" + Front(r, action)) + "|" + ("prev=" + Shown(r.previous))
  {
    hide AssetState.AsDbStr, AssetAction.AsDbStr, ActorRole.AsDbStr, Shown, Joined;
    var f := Fields(r, action);
    assert f == [f[0], f[1], f[2], f[3]] + f[4..];
    FiveJoined(f[0], f[1], f[2], f[3], f[4..]);
    TailOfHash(r, action);
    Regrouped("asset=", r.assetId, f[1], f[2], f[3], "approval=", Approval(r) + SEPARATOR + Policy(r),
              "prev=" + Shown(r.previous));
  }

  lemma PrevIsBarFree(p: Option<AssetState>)
    ensures BarFree("prev=" + Shown(p))
  {
    hide Shown;
    ShownIsBarFree(p);
  }

  /** Hashes are equal exactly when fronts and saved states are. */
  lemma AlikeIffFronts(r: ActionRequest, a: AssetAction, s: ActionRequest, b: AssetAction)
    ensures BuildRequestHash(r, a) == BuildRequestHash(s, b) <==> Front(r, a) == Front(s, b) && r.previous == s.previous
  {
    hide Front, Shown, BuildRequestHash, BarFree;
    HashHasFront(r, a);
    HashHasFront(s, b);
    PrevIsBarFree(r.previous);
    PrevIsBarFree(s.previous);
    ShownApart(r.previous, s.previous);
    Appended("prev=", Shown(r.previous), Shown(s.previous));
    Appended("asset=", Front(r, a), Front(s, b));
    if BuildRequestHash(r, a) == BuildRequestHash(s, b) {
      LastBarIsShared("asset=" + Front(r, a), "prev=" + Shown(r.previous),
                      "asset=" + Front(s, b), "prev=" + Shown(s.previous));
    }
  }

  /** One of the texts that end a part of the hash occurs inside a part. */
  ghost predicate Splittable(r: ActionRequest) {
    || Occurs(SEPARATOR, Approval(r)) || Occurs(SEPARATOR, Policy(r))
    || HeadOccurs(r.assetId) || HeadOccurs(Approval(r))
  }

  lemma FrontShows(r: ActionRequest, a: AssetAction)
    ensures var x, n := Front(r, a), |r.assetId|;
            && n + |HeadOf(r, a)| <= |x| && OccursAt(HeadOf(r, a), x, n) && x[..n] == r.assetId
            && x[n + |HeadOf(r, a)|..] == Approval(r) + SEPARATOR + Policy(r)
  {
    hide Head;
  }

  lemma RestShows(a: string, p: string)
    ensures var z := a + SEPARATOR + p;
            OccursAt(SEPARATOR, z, |a|) && z[..|a|] == a && z[|a| + |SEPARATOR|..] == p
  {
  }

  lemma OccursInFront(pattern: string, text: string, n: nat, k: nat)
    requires n <= |text| && k + |pattern| <= n && OccursAt(pattern, text, k)
    ensures OccursAt(pattern, text[..n], k)
  {
    assert text[..n][k..k + |pattern|] == text[k..k + |pattern|];
  }

  lemma OccursBehind(pattern: string, text: string, n: nat, k: nat)
    requires n <= k && OccursAt(pattern, text, k)
    ensures OccursAt(pattern, text[n..], k - n)
  {
    assert text[n..][k - n..k - n + |pattern|] == text[k..k + |pattern|];
  }

  /** A second request whose asset ends earlier has its head inside the first one's asset. */
  lemma ShorterAsset(r: ActionRequest, a: AssetAction, s: ActionRequest, b: AssetAction)
    requires Hashed(b)
    requires BarFree(r.headers.traceId) && BarFree(s.headers.traceId) && Front(r, a) == Front(s, b)
    requires |s.assetId| < |r.assetId|
    ensures HeadOccurs(r.assetId)
  {
    hide Head, Front, BarFree, OccursAt;
    FrontShows(r, a);
    FrontShows(s, b);
    var x := Front(r, a);
    HeadsApart(x, |s.assetId|, |r.assetId|, b, s.headers.traceId, s.actor.role, a, r.headers.traceId, r.actor.role);
    OccursInFront(HeadOf(s, b), x, |r.assetId|, |s.assetId|);
    assert HeadOccursAt(r.assetId, |s.assetId|);
  }

  lemma OccursAtIsOccurs(pattern: string, text: string, k: nat)
    requires OccursAt(pattern, text, k)
    ensures Occurs(pattern, text)
  {
  }

  lemma OccursAhead(pattern: string, text: string, n: nat, k: nat)
    requires n <= |text| && OccursAt(pattern, text[n..], k)
    ensures OccursAt(pattern, text, n + k)
  {
    assert text[n + k..n + k + |pattern|] == text[n..][k..k + |pattern|];
  }

  lemma FarSeparator(z: string, n: nat, a: string, p: string)
    requires n <= |z| && z[n..] == a + SEPARATOR + p
    ensures OccursAt(SEPARATOR, z, n + |a|)
  {
    RestShows(a, p);
    OccursAhead(SEPARATOR, z, n, |a|);
  }

  /** A head within the header values, with a separator of its own behind it, lies inside the approval, or its separator
      inside the policy. */
  lemma HeadWithinHeaders(a: string, p: string, k: nat, b: AssetAction, t: string, q: ActorRole, a': string, p': string)
    requires Hashed(b) && BarFree(t)
    requires var z, h := a + SEPARATOR + p, Head(b, t, q);
             OccursAt(h, z, k) && k + |h| <= |z| && z[k + |h|..] == a' + SEPARATOR + p'
    ensures HeadOccurs(a) || Occurs(SEPARATOR, p)
  {
    hide Head, BarFree, OccursAt;
    var z, h := a + SEPARATOR + p, Head(b, t, q);
    RestShows(a, p);
    if k <= |a| {
      SeparatorAfterHead(z, k, |a|, b, t, q);
      OccursInFront(h, z, |a|, k);
      assert HeadOccursAt(a, k);
    } else {
      var j := k + |h| + |a'|;
      FarSeparator(z, k + |h|, a', p');
      SeparatorsApart(z, |a|, j);
      OccursBehind(SEPARATOR, z, |a| + |SEPARATOR|, j);
      OccursAtIsOccurs(SEPARATOR, p, j - |a| - |SEPARATOR|);
    }
  }

  /** One whose asset ends later has its head inside the first one's approval, or a separator inside its policy. */
  lemma LongerAsset(r: ActionRequest, a: AssetAction, s: ActionRequest, b: AssetAction)
    requires Hashed(b)
    requires BarFree(r.headers.traceId) && BarFree(s.headers.traceId) && Front(r, a) == Front(s, b)
    requires |r.assetId| < |s.assetId|
    ensures HeadOccurs(Approval(r)) || Occurs(SEPARATOR, Policy(r))
  {
    hide Head, Front, BarFree, OccursAt, Occurs, HeadOccurs;
    FrontShows(r, a);
    FrontShows(s, b);
    var x, h, h' := Front(r, a), HeadOf(r, a), HeadOf(s, b);
    HeadsApart(x, |r.assetId|, |s.assetId|, a, r.headers.traceId, r.actor.role, b, s.headers.traceId, s.actor.role);
    var n := |r.assetId| + |h|;
    var k := |s.assetId| - n;
    OccursBehind(h', x, n, |s.assetId|);
    assert x[n..][k + |h'|..] == x[|s.assetId| + |h'|..];
    HeadWithinHeaders(Approval(r), Policy(r), k, b, s.headers.traceId, s.actor.role, Approval(s), Policy(s));
  }

  lemma HeadAndRest(action: AssetAction, trace: string, role: ActorRole, z: string)
    ensures Head(action, trace, role) + z
         == "|" + (("action=" + action.AsDbStr()) + "|" + (("trace=" + trace) + "|" + (("role=" + role.AsDbStr())
            + "|" + ("approval=" + z))))
  {
    hide AssetAction.AsDbStr, ActorRole.AsDbStr;
  }

  /** One whose asset ends at the same place has the same asset, action, trace and role. */
  lemma SameAsset(r: ActionRequest, a: AssetAction, s: ActionRequest, b: AssetAction)
    requires BarFree(r.headers.traceId) && BarFree(s.headers.traceId) && Front(r, a) == Front(s, b)
    requires |r.assetId| == |s.assetId|
    ensures r.assetId == s.assetId && a == b && r.headers.traceId == s.headers.traceId && r.actor.role == s.actor.role
    ensures Approval(r) + SEPARATOR + Policy(r) == Approval(s) + SEPARATOR + Policy(s)
  {
    hide AssetAction.AsDbStr, ActorRole.AsDbStr, BarFree, ActionNamed, OccursAt, Head;
    FrontShows(r, a);
    FrontShows(s, b);
    var x, n := Front(r, a), |r.assetId|;
    var z, z' := Approval(r) + SEPARATOR + Policy(r), Approval(s) + SEPARATOR + Policy(s);
    assert x[n..] == HeadOf(r, a) + z && Front(s, b)[n..] == HeadOf(s, b) + z';
    var t, u, q, w := r.headers.traceId, s.headers.traceId, r.actor.role, s.actor.role;
    HeadAndRest(a, t, q, z);
    HeadAndRest(b, u, w, z');
    PeelHead("action=" + a.AsDbStr(), "trace=" + t, "role=" + q.AsDbStr(), "approval=" + z,
             "action=" + b.AsDbStr(), "trace=" + u, "role=" + w.AsDbStr(), "approval=" + z') by {
      FieldsOfHead(a, t, q);
      FieldsOfHead(b, u, w);
    }
    Appended("action=", a.AsDbStr(), b.AsDbStr());
    ActionParsesBack(a);
    ActionParsesBack(b);
    Appended("trace=", t, u);
    Appended("role=", q.AsDbStr(), w.AsDbStr());
    RolesPrintApart(q, w);
    Appended("approval=", z, z');
  }

  lemma PeelHead(x1: string, x2: string, x3: string, x: string, y1: string, y2: string, y3: string, y: string)
    requires BarFree(x1) && BarFree(x2) && BarFree(x3) && BarFree(y1) && BarFree(y2) && BarFree(y3)
    requires "|" + (x1 + "|" + (x2 + "|" + (x3 + "|" + x))) == "|" + (y1 + "|" + (y2 + "|" + (y3 + "|" + y)))
    ensures x1 == y1 && x2 == y2 && x3 == y3 && x == y
  {
    hide BarFree;
    Appended("|", x1 + "|" + (x2 + "|" + (x3 + "|" + x)), y1 + "|" + (y2 + "|" + (y3 + "|" + y)));
    FirstBarIsShared(x1, x2 + "|" + (x3 + "|" + x), y1, y2 + "|" + (y3 + "|" + y));
    FirstBarIsShared(x2, x3 + "|" + x, y2, y3 + "|" + y);
    FirstBarIsShared(x3, x, y3, y);
  }

  /** For a request none of whose parts contains such a text, hashing alike is having the same identity, whatever the other
      request looks like. */
  lemma HashIdentifiesRequest(r: ActionRequest, a: AssetAction, s: ActionRequest, b: AssetAction)
    requires BarFree(r.headers.traceId) && BarFree(s.headers.traceId) && Hashed(b) && !Splittable(r)
    ensures BuildRequestHash(r, a) == BuildRequestHash(s, b) <==> SameIdentity(r, a, s, b)
  {
    hide Occurs, HeadOccurs, BuildRequestHash, BarFree, Head;
    AlikeIffFronts(r, a, s, b);
    if Front(r, a) == Front(s, b) {
      if |s.assetId| < |r.assetId| {
        ShorterAsset(r, a, s, b);
      } else if |r.assetId| < |s.assetId| {
        LongerAsset(r, a, s, b);
      } else {
        SameAsset(r, a, s, b);
        if Approval(s) != Approval(r) || Policy(s) != Policy(r) {
          SecondSplitOccurs(Approval(r), Policy(r), Approval(s), Policy(s));
        }
      }
    }
  }

  /** Some request of another identity hashes like this one. The trace is a UUID. */
  ghost predicate Ambiguous(r: ActionRequest, a: AssetAction) {
    exists s: ActionRequest, b: AssetAction ::
      && BarFree(s.headers.traceId) && Hashed(b)
      && BuildRequestHash(s, b) == BuildRequestHash(r, a) && !SameIdentity(r, a, s, b)
  }

  lemma ResplitHashesAlike(r: ActionRequest, a: AssetAction, x: string, y: string)
    requires Approval(r) + SEPARATOR + Policy(r) == x + SEPARATOR + y
    ensures var s := r.(headers := r.headers.(approvalId := Some(x), policyVersion := Some(y)));
            BuildRequestHash(s, a) == BuildRequestHash(r, a)
  {
    hide BuildRequestHash, Head;
    AlikeIffFronts(r, a, r.(headers := r.headers.(approvalId := Some(x), policyVersion := Some(y))), a);
  }

  lemma CutHeadAt(text: string, k: nat, h: string)
    requires OccursAt(h, text, k)
    ensures text == text[..k] + h + text[k + |h|..]
  {
  }

  /** A head inside the asset is the head of another request, whose asset ends before it. */
  lemma HeadInAsset(r: ActionRequest, a: AssetAction, k: nat)
    requires HeadOccursAt(r.assetId, k)
    ensures Ambiguous(r, a)
  {
    hide BuildRequestHash, Head, BarFree;
    var b: AssetAction, t: string, q: ActorRole :|
      Hashed(b) && BarFree(t) && OccursAt(Head(b, t, q), r.assetId, k);
    var h := Head(b, t, q);
    HeadBegins(b, t, q);
    CutHeadAt(r.assetId, k, h);
    var rest := r.assetId[k + |h|..] + HeadOf(r, a) + Approval(r);
    var s := r.(assetId := r.assetId[..k], actor := r.actor.(role := q),
                headers := r.headers.(traceId := t, approvalId := Some(rest)));
    assert Front(s, b) == Front(r, a) by {
      assert r.assetId[..k] + h + (r.assetId[k + |h|..] + HeadOf(r, a) + Approval(r) + SEPARATOR + Policy(r))
          == (r.assetId[..k] + h + r.assetId[k + |h|..]) + HeadOf(r, a) + (Approval(r) + SEPARATOR + Policy(r));
    }
    AlikeIffFronts(s, b, r, a);
    assert |s.assetId| < |r.assetId|;
  }

  /** A head inside the approval is the head of another request, whose asset reaches up to it. */
  lemma HeadInApproval(r: ActionRequest, a: AssetAction, k: nat)
    requires HeadOccursAt(Approval(r), k)
    ensures Ambiguous(r, a)
  {
    hide BuildRequestHash, Head, BarFree;
    var b: AssetAction, t: string, q: ActorRole :|
      Hashed(b) && BarFree(t) && OccursAt(Head(b, t, q), Approval(r), k);
    var h, v := Head(b, t, q), Approval(r);
    HeadBegins(a, r.headers.traceId, r.actor.role);
    CutHeadAt(v, k, h);
    var s := r.(assetId := r.assetId + HeadOf(r, a) + v[..k], actor := r.actor.(role := q),
                headers := r.headers.(traceId := t, approvalId := Some(v[k + |h|..])));
    assert Front(s, b) == Front(r, a) by {
      assert (r.assetId + HeadOf(r, a) + v[..k]) + h + (v[k + |h|..] + SEPARATOR + Policy(r))
          == r.assetId + HeadOf(r, a) + ((v[..k] + h + v[k + |h|..]) + SEPARATOR + Policy(r));
    }
    AlikeIffFronts(s, b, r, a);
    assert |s.assetId| > |r.assetId|;
  }

  lemma SeparatorInside(r: ActionRequest, a: AssetAction)
    requires BarFree(r.headers.traceId) && Hashed(a) && (Occurs(SEPARATOR, Approval(r)) || Occurs(SEPARATOR, Policy(r)))
    ensures Ambiguous(r, a)
  {
    hide BuildRequestHash, Occurs;
    var x, y := OccurrenceSplits(Approval(r), Policy(r));
    var s := r.(headers := r.headers.(approvalId := Some(x), policyVersion := Some(y)));
    ResplitHashesAlike(r, a, x, y);
    assert BarFree(s.headers.traceId) && !SameIdentity(r, a, s, a);
  }

  /** The hash fails to identify a request exactly when its approval or policy contains the text that separates the two, or
      its asset or approval contains a text of the form that separates those two. */
  lemma AmbiguousIffSplittable(r: ActionRequest, a: AssetAction)
    requires BarFree(r.headers.traceId) && Hashed(a)
    ensures Ambiguous(r, a) <==> Splittable(r)
  {
    hide BuildRequestHash, Occurs, HeadOccursAt;
    if Occurs(SEPARATOR, Approval(r)) || Occurs(SEPARATOR, Policy(r)) {
      SeparatorInside(r, a);
    } else if HeadOccurs(r.assetId) {
      var k :| 0 <= k <= |r.assetId| && HeadOccursAt(r.assetId, k);
      HeadInAsset(r, a, k);
    } else if HeadOccurs(Approval(r)) {
      var k :| 0 <= k <= |Approval(r)| && HeadOccursAt(Approval(r), k);
      HeadInApproval(r, a, k);
    } else {
      forall s: ActionRequest, b: AssetAction |
        BarFree(s.headers.traceId) && Hashed(b) && BuildRequestHash(s, b) == BuildRequestHash(r, a)
        ensures SameIdentity(r, a, s, b)
      {
        HashIdentifiesRequest(r, a, s, b);
      }
    }
  }

  /** Such headers exist: here an approval swallows the policy. */
  lemma BarsCollide(r: ActionRequest, action: AssetAction)
    ensures var r1 := r.(headers := r.headers.(approvalId := Some("a|policy=b"), policyVersion := Some("")));
            var r2 := r.(headers := r.headers.(approvalId := Some("a"), policyVersion := Some("b|policy=")));
            BuildRequestHash(r1, action) == BuildRequestHash(r2, action) && !SameIdentity(r1, action, r2, action)
  {
    hide BuildRequestHash;
    var r1 := r.(headers := r.headers.(approvalId := Some("a|policy=b"), policyVersion := Some("")));
    assert "a|policy=b" + SEPARATOR + "" == "a" + SEPARATOR + "b|policy=";
    ResplitHashesAlike(r1, action, "a", "b|policy=");
    assert |"a|policy=b"| != |"a"|;
  }

  // ---- The first activation step ----

  function ActivateFields(r: ActivateRequest): seq<string> {
    ["asset=" + r.assetId, "action=" + ActivateRotateKeys.AsDbStr(), "trace=" + r.headers.traceId,
     "role=" + r.actor.role.AsDbStr(), "product=" + r.productId]
  }

  lemma ActivateHashJoins(r: ActivateRequest)
    ensures ActivateRequestHash(r) == Joined(ActivateFields(r))
  {
    hide Joined;
    assert "action=" + ActivateRotateKeys.AsDbStr() == "action=ActivateRotateKeys";
  }

  lemma ActivateHeadIsBarFree(r: ActivateRequest)
    requires BarFree(r.assetId) && BarFree(r.headers.traceId)
    ensures AllBarFree(ActivateFields(r)[..4])
  {
    hide AssetAction.AsDbStr, ActorRole.AsDbStr;
    ActionIsBarFree(ActivateRotateKeys);
    RoleIsBarFree(r.actor.role);
  }

  /** The product comes last, so an activation is identified by its hash whatever bars its product contains. */
  lemma ActivateHashIdentifies(r: ActivateRequest, s: ActivateRequest)
    requires BarFree(r.assetId) && BarFree(r.headers.traceId) && BarFree(s.assetId) && BarFree(s.headers.traceId)
    ensures ActivateRequestHash(r) == ActivateRequestHash(s)
       <==> && r.assetId == s.assetId && r.headers.traceId == s.headers.traceId && r.actor.role == s.actor.role
            && r.productId == s.productId
  {
    hide Joined, BarFree, AllBarFree, ActivateRequestHash, AssetAction.AsDbStr, ActorRole.AsDbStr;
    ActivateHashJoins(r);
    ActivateHashJoins(s);
    var f, g := ActivateFields(r), ActivateFields(s);
    if ActivateRequestHash(r) == ActivateRequestHash(s) {
      ActivateHeadIsBarFree(r);
      ActivateHeadIsBarFree(s);
      JoinedSharesHead(f, g, 4);
      assert f[..4][0] == f[0] && g[..4][0] == g[0] && f[..4][2] == f[2] && g[..4][2] == g[2];
      assert f[..4][3] == f[3] && g[..4][3] == g[3];
      OneJoined(f[4]);
      OneJoined(g[4]);
      assert f[4..] == [f[4]] && g[4..] == [g[4]];
      Appended("asset=", r.assetId, s.assetId);
      Appended("trace=", r.headers.traceId, s.headers.traceId);
      Appended("role=", r.actor.role.AsDbStr(), s.actor.role.AsDbStr());
      RolesPrintApart(r.actor.role, s.actor.role);
      Appended("product=", r.productId, s.productId);
    }
  }

  lemma OneJoined(text: string)
    ensures Joined([text]) == text
  {
  }

  /** No activation hashes like any other action's request. */
  lemma ActivateHashStandsApart(r: ActivateRequest, s: ActionRequest, action: AssetAction)
    requires BarFree(r.assetId) && BarFree(s.assetId) && action != ActivateRotateKeys
    ensures ActivateRequestHash(r) != BuildRequestHash(s, action)
  {
    hide Joined, BarFree, ActivateRequestHash, AssetAction.AsDbStr, ActorRole.AsDbStr, AssetState.AsDbStr, Shown, ActionNamed;
    ActivateHashJoins(r);
    var f, g := ActivateFields(r), Fields(s, action);
    ActionIsBarFree(ActivateRotateKeys);
    ActionIsBarFree(action);
    if Joined(f) == Joined(g) {
      BarFreeParts(r.assetId, ActivateRotateKeys);
      BarFreeParts(s.assetId, action);
      JoinedSharesHead(f, g, 2);
      assert f[..2][1] == f[1] && g[..2][1] == g[1];
      Appended("action=", ActivateRotateKeys.AsDbStr(), action.AsDbStr());
      ActionParsesBack(ActivateRotateKeys);
      ActionParsesBack(action);
    }
  }

  lemma BarFreeParts(assetId: string, action: AssetAction)
    requires BarFree(assetId)
    ensures AllBarFree(["asset=" + assetId, "action=" + action.AsDbStr()])
  {
    hide AssetAction.AsDbStr;
    ActionIsBarFree(action);
  }

  /** A repeated sale under a used key is answered with the first sale, whoever the second buyer is. */
  lemma SecondBuyerGetsFirstAnswer(t: Tables, r: ActionRequest, buyer: string, eventId: string)
    requires r.buyerId.GetOr("") != "" && buyer != ""
    requires r.headers.key in t.records && t.records[r.headers.key].requestHash == BuildRequestHash(r, LegalSell)
    ensures var c := ActionCall(r.(buyerId := Some(buyer)), LegalSell);
            c.Ok? && Handled(t, c.value, eventId, NoFault) == Outcome(t, Ok(t.records[r.headers.key].snapshot))
  {
    hide Joined;
  }
}
