/** Workorder rows, the compare-and-swap statements on them, and the handlers' checks. */
module Workorders {
  import opened Wrappers

  datatype Status = Open | Assigned | InProgress | Resolved | Closed | Cancelled

  datatype Conclusion = Freeze | Recover | MarkTampered | MarkCompromised | Dismiss

  /** The valid conclusion types; any other text is refused. */
  function ConclusionNamed(text: string): Option<Conclusion> {
    if text == "freeze" then Some(Freeze)
    else if text == "recover" then Some(Recover)
    else if text == "mark_tampered" then Some(MarkTampered)
    else if text == "mark_compromised" then Some(MarkCompromised)
    else if text == "dismiss" then Some(Dismiss)
    else None
  }

  /** The columns the handlers read or write; nothing ever changes `assetId`. */
  datatype Workorder = Workorder(
    status: Status, assetId: Option<string>, assigneeId: Option<string>, assigneeRole: Option<string>,
    conclusion: Option<string>, conclusionType: Option<string>, downstreamResult: Option<string>)

  type Table = map<string, Workorder>

  // ---- The statements ----

  datatype Statement =
    | SetStatus(expected: Status, status: Status)
    | SetAssignee(assigneeId: string, assigneeRole: string)
    | SetConclusion(status: Status, conclusion: string, conclusionType: string, downstreamResult: Option<string>)

  /** The `WHERE` clause of a statement. */
  predicate Matches(st: Statement, row: Workorder) {
    match st
    case SetStatus(expected, _) => row.status == expected
    case SetAssignee(_, _) => row.status == Open || row.status == Assigned
    case SetConclusion(_, _, _, _) => row.status == Assigned || row.status == InProgress
  }

  function Updated(st: Statement, row: Workorder): Workorder {
    match st
    case SetStatus(_, status) => row.(status := status)
    case SetAssignee(id, role) => row.(assigneeId := Some(id), assigneeRole := Some(role), status := Assigned)
    case SetConclusion(status, conclusion, conclusionType, result) =>
      row.(status := status, conclusion := Some(conclusion), conclusionType := Some(conclusionType),
           downstreamResult := if result.Some? then result else row.downstreamResult)
  }

  predicate Affects(rows: Table, id: string, st: Statement) {
    id in rows && Matches(st, rows[id])
  }

  function Execute(rows: Table, id: string, st: Statement): Table {
    if Affects(rows, id, st) then rows[id := Updated(st, rows[id])] else rows
  }

  // ---- The handlers' checks ----

  datatype Claims = Claims(valid: bool, sub: string, role: string)

  datatype Reply = Success | Unauthenticated | Forbidden | NotFound | InvalidInput | Conflict | ServerError

  predicate IsManager(c: Claims) {
    c.role == "Platform" || c.role == "Moderator"
  }

  predicate IsPlatform(c: Claims) {
    c.role == "Platform"
  }

  datatype Request =
    | Assign(id: string, assigneeId: string, assigneeRole: string)
    | Advance(id: string, conclusion: string, conclusionType: string)
    | Close(id: string)
    | Cancel(id: string)

  /** What an assignment, a closing or a cancellation refuses before its first statement. */
  function Refusal(c: Claims, r: Request): Option<Reply> {
    if !c.valid then Some(Unauthenticated)
    else if r.Advance? then None
    else if !IsManager(c) then Some(Forbidden)
    else if r.Assign? && (r.assigneeId == "" || r.assigneeRole == "") then Some(InvalidInput)
    else None
  }

  predicate MayAdvance(c: Claims, row: Workorder) {
    row.assigneeId == Some(c.sub) || IsPlatform(c)
  }

  predicate HasAsset(row: Workorder) {
    row.assetId.GetOr("") != ""
  }

  /** What an advance refuses on the row it has read. */
  function AdvanceRefusal(c: Claims, r: Request, found: Option<Workorder>): Option<Reply>
    requires r.Advance?
  {
    if found.None? then Some(NotFound)
    else if !MayAdvance(c, found.value) then Some(Forbidden)
    else if found.value.status != Assigned && found.value.status != InProgress then Some(Conflict)
    else if r.conclusion == "" || r.conclusionType == "" then Some(InvalidInput)
    else
      match ConclusionNamed(r.conclusionType)
      case None => Some(InvalidInput)
      case Some(kind) => if kind != Dismiss && !HasAsset(found.value) then Some(InvalidInput) else None
  }

  /** The answer of the protocol service. */
  datatype Answer = Answer(success: bool, body: string)

  /** The statement an advance issues once the protocol service, if it was asked, has answered. */
  function Concluding(r: Request, a: Answer): Statement
    requires r.Advance?
  {
    if ConclusionNamed(r.conclusionType) == Some(Dismiss) then
      SetConclusion(Resolved, r.conclusion, r.conclusionType, None)
    else
      SetConclusion(if a.success then Resolved else InProgress, r.conclusion, r.conclusionType, Some(a.body))
  }

  // ---- What the statements and checks amount to ----

  /** The conclusion is the request's; only a dismissal or a success resolves the workorder, anything else leaves it in
      progress; the answer is kept if there was one; the asset and the assignee stay. */
  predicate RecordsOutcome(r: Request, a: Answer, before: Workorder, after: Workorder)
    requires r.Advance?
  {
    && after.status == (if r.conclusionType == "dismiss" || a.success then Resolved else InProgress)
    && after.conclusion == Some(r.conclusion) && after.conclusionType == Some(r.conclusionType)
    && after.downstreamResult == (if r.conclusionType == "dismiss" then before.downstreamResult else Some(a.body))
    && after.assetId == before.assetId
    && after.assigneeId == before.assigneeId && after.assigneeRole == before.assigneeRole
  }

  lemma DismissIsNamed(text: string)
    ensures ConclusionNamed(text) == Some(Dismiss) <==> text == "dismiss"
  {
  }

  lemma AdvanceLeaves(r: Request, a: Answer, row: Workorder)
    requires r.Advance?
    ensures Matches(Concluding(r, a), row) <==> row.status == Assigned || row.status == InProgress
    ensures RecordsOutcome(r, a, row, Updated(Concluding(r, a), row))
  {
    hide ConclusionNamed;
    DismissIsNamed(r.conclusionType);
  }

  lemma AssignmentLeaves(who: string, role: string, row: Workorder)
    ensures var st, after := SetAssignee(who, role), Updated(SetAssignee(who, role), row);
            && (Matches(st, row) <==> row.status == Open || row.status == Assigned)
            && after.status == Assigned && after.assigneeId == Some(who) && after.assigneeRole == Some(role)
            && row == after.(status := row.status, assigneeId := row.assigneeId, assigneeRole := row.assigneeRole)
  {
  }

  /** Which assignments, closings and cancellations get as far as a statement, and what the others are told. */
  lemma AdmittedIff(c: Claims, r: Request)
    ensures var manager := c.role == "Platform" || c.role == "Moderator";
            match Refusal(c, r)
            case None => c.valid && (r.Advance? || manager) && (r.Assign? ==> r.assigneeId != "" && r.assigneeRole != "")
            case Some(Unauthenticated) => !c.valid
            case Some(Forbidden) => c.valid && !r.Advance? && !manager
            case Some(InvalidInput) => c.valid && manager && r.Assign? && (r.assigneeId == "" || r.assigneeRole == "")
            case Some(_) => false
  {
  }

  /** The advances that go on to the protocol service or to the row, and what the others are told. */
  lemma AdvanceAdmittedIff(c: Claims, r: Request, found: Option<Workorder>)
    requires r.Advance?
    ensures var entitled := found.Some? && (found.value.assigneeId == Some(c.sub) || c.role == "Platform");
            var underWay := found.Some? && (found.value.status == Assigned || found.value.status == InProgress);
            var onAsset := r.conclusionType in ["freeze", "recover", "mark_tampered", "mark_compromised"];
            var complete := && r.conclusion != ""
                            && (r.conclusionType == "dismiss"
                                || (onAsset && found.Some? && found.value.assetId.Some?
                                    && found.value.assetId.value != ""));
            match AdvanceRefusal(c, r, found)
            case None => entitled && underWay && complete
            case Some(NotFound) => found.None?
            case Some(Forbidden) => found.Some? && !entitled
            case Some(Conflict) => entitled && !underWay
            case Some(InvalidInput) => entitled && underWay && !complete
            case Some(_) => false
  {
  }

  class WorkorderRepo {
    var rows: Table

    constructor ()
      ensures rows == map[]
    {
      rows := map[];
    }

    method Create(id: string, assetId: Option<string>)
      requires id !in rows
      modifies this
      ensures rows == old(rows)[id := Workorder(Open, assetId, None, None, None, None, None)]
    {
      rows := rows[id := Workorder(Open, assetId, None, None, None, None, None)];
    }

    method GetByID(id: string) returns (row: Option<Workorder>)
      ensures row == if id in rows then Some(rows[id]) else None
    {
      row := if id in rows then Some(rows[id]) else None;
    }

    method UpdateStatus(id: string, expected: Status, status: Status) returns (ok: bool)
      modifies this
      ensures ok <==> old(Affects(rows, id, SetStatus(expected, status)))
      ensures rows == Execute(old(rows), id, SetStatus(expected, status))
    {
      ok := id in rows && rows[id].status == expected;
      if ok {
        rows := rows[id := rows[id].(status := status)];
      }
    }

    method AssignTo(id: string, expected: seq<Status>, assigneeId: string, assigneeRole: string) returns (ok: bool)
      requires expected == [Open, Assigned]
      modifies this
      ensures ok <==> old(Affects(rows, id, SetAssignee(assigneeId, assigneeRole)))
      ensures rows == Execute(old(rows), id, SetAssignee(assigneeId, assigneeRole))
    {
      ok := id in rows && rows[id].status in expected;
      if ok {
        rows := rows[id := rows[id].(assigneeId := Some(assigneeId), assigneeRole := Some(assigneeRole),
                                     status := Assigned)];
      }
    }

    method RecordConclusion(id: string, status: Status, conclusion: string, conclusionType: string,
                            downstreamResult: Option<string>)
      returns (ok: bool)
      modifies this
      ensures ok <==> old(Affects(rows, id, SetConclusion(status, conclusion, conclusionType, downstreamResult)))
      ensures rows == Execute(old(rows), id, SetConclusion(status, conclusion, conclusionType, downstreamResult))
    {
      ok := id in rows && (rows[id].status == Assigned || rows[id].status == InProgress);
      if ok {
        var result := if downstreamResult.Some? then downstreamResult else rows[id].downstreamResult;
        rows := rows[id := rows[id].(status := status, conclusion := Some(conclusion),
                                     conclusionType := Some(conclusionType), downstreamResult := result)];
      }
    }

    // ---- The handlers, when nothing interleaves with them ----

    method HandleAssign(c: Claims, r: Request) returns (reply: Reply)
      requires r.Assign?
      modifies this
      ensures var st := SetAssignee(r.assigneeId, r.assigneeRole);
              if Refusal(c, r).Some? then reply == Refusal(c, r).value && rows == old(rows)
              else rows == Execute(old(rows), r.id, st)
                   && reply == if old(Affects(rows, r.id, st)) then Success else Conflict
    {
      var refusal := Refusal(c, r);
      if refusal.Some? {
        return refusal.value;
      }
      var ok := AssignTo(r.id, [Open, Assigned], r.assigneeId, r.assigneeRole);
      reply := if ok then Success else Conflict;
    }

    method HandleAdvance(c: Claims, r: Request, answer: Answer) returns (reply: Reply, asked: Option<Conclusion>)
      requires r.Advance?
      modifies this
      ensures var found := if r.id in old(rows) then Some(old(rows)[r.id]) else None;
              var refusal := if Refusal(c, r).Some? then Refusal(c, r) else AdvanceRefusal(c, r, found);
              if refusal.Some? then reply == refusal.value && asked == None && rows == old(rows)
              else
                && reply == Success && rows == Execute(old(rows), r.id, Concluding(r, answer))
                && asked == if ConclusionNamed(r.conclusionType) == Some(Dismiss) then None
                            else ConclusionNamed(r.conclusionType)
      ensures reply == Success ==>
                && r.id in old(rows) && r.id in rows && rows == old(rows)[r.id := rows[r.id]]
                && RecordsOutcome(r, answer, old(rows)[r.id], rows[r.id])
    {
      hide ConclusionNamed, RecordsOutcome;
      asked := None;
      var refusal := Refusal(c, r);
      if refusal.Some? {
        return refusal.value, None;
      }
      var found := GetByID(r.id);
      refusal := AdvanceRefusal(c, r, found);
      if refusal.Some? {
        return refusal.value, None;
      }
      var newStatus, downstreamResult := Resolved, None;
      if ConclusionNamed(r.conclusionType) != Some(Dismiss) {
        asked := ConclusionNamed(r.conclusionType);
        downstreamResult := Some(answer.body);
        if !answer.success {
          newStatus := InProgress;
        }
      }
      var ok := RecordConclusion(r.id, newStatus, r.conclusion, r.conclusionType, downstreamResult);
      reply := if ok then Success else Conflict;
      AdvanceLeaves(r, answer, found.value);
    }

    method HandleClose(c: Claims, r: Request) returns (reply: Reply)
      requires r.Close?
      modifies this
      ensures if Refusal(c, r).Some? then reply == Refusal(c, r).value && rows == old(rows)
              else rows == Execute(old(rows), r.id, SetStatus(Resolved, Closed))
                   && reply == if old(r.id in rows && rows[r.id].status == Resolved) then Success else Conflict
    {
      var refusal := Refusal(c, r);
      if refusal.Some? {
        return refusal.value;
      }
      var ok := UpdateStatus(r.id, Resolved, Closed);
      reply := if ok then Success else Conflict;
    }

    method HandleCancel(c: Claims, r: Request) returns (reply: Reply)
      requires r.Cancel?
      modifies this
      ensures var cancellable := r.id in old(rows)
                                 && (old(rows)[r.id].status == Open || old(rows)[r.id].status == Assigned);
              if Refusal(c, r).Some? then reply == Refusal(c, r).value && rows == old(rows)
              else if cancellable then
                reply == Success && rows == old(rows)[r.id := old(rows)[r.id].(status := Cancelled)]
              else reply == Conflict && rows == old(rows)
    {
      var refusal := Refusal(c, r);
      if refusal.Some? {
        return refusal.value;
      }
      var ok := UpdateStatus(r.id, Open, Cancelled);
      if !ok {
        ok := UpdateStatus(r.id, Assigned, Cancelled);
      }
      reply := if ok then Success else Conflict;
    }
  }
}

/** Any number of handler calls, interleaved in any way between their reads, downstream calls and statements. */
module WorkorderRuns {
  import opened Wrappers
  import opened Workorders

  /** `Retrying` is a cancellation whose first statement found nothing to cancel; a finished advance still has the row it
      decided on. */
  datatype Phase =
    | Arrived
    | Checked(row: Workorder)
    | Concluded(row: Workorder, statement: Statement)
    | Retrying
    | Finished(reply: Reply, seen: Option<Workorder>)

  datatype Call = Call(claims: Claims, request: Request, phase: Phase)

  /** A call made to the protocol service, and whether it reported success. */
  datatype Downstream = Downstream(call: nat, kind: Conclusion, assetId: string, success: bool)

  /** A statement that changed a row. */
  datatype Change = Change(call: nat, id: string, from: Status, to: Status)

  datatype System = System(rows: Table, calls: seq<Call>, downstream: seq<Downstream>, changes: seq<Change>)

  datatype Delivery = Delivered | LostRequest | LostReply

  datatype Event =
    | Create(id: string, assetId: Option<string>)
    | Arrive(claims: Claims, request: Request)
    | Step(call: nat, delivery: Delivery, answer: Answer)

  function SetPhase(s: System, i: nat, phase: Phase): System
    requires i < |s.calls|
  {
    s.(calls := s.calls[i := s.calls[i].(phase := phase)])
  }

  /** The statement a call is about to issue. */
  function Issues(c: Call): Option<Statement> {
    match (c.request, c.phase)
    case (Assign(_, who, role), Arrived) => Some(SetAssignee(who, role))
    case (Advance(_, _, _), Concluded(_, st)) => Some(st)
    case (Close(_), Arrived) => Some(SetStatus(Resolved, Closed))
    case (Cancel(_), Arrived) => Some(SetStatus(Open, Cancelled))
    case (Cancel(_), Retrying) => Some(SetStatus(Assigned, Cancelled))
    case _ => None
  }

  function Finish(c: Call, reply: Reply): Phase {
    Finished(reply, match c.phase
                    case Checked(row) => Some(row)
                    case Concluded(row, _) => Some(row)
                    case _ => None)
  }

  /** Where a call goes when its statement affects no row. */
  function Unaffected(c: Call): Phase {
    if c.request.Cancel? && c.phase.Arrived? then Retrying else Finish(c, Conflict)
  }

  function StepStatement(s: System, i: nat, st: Statement, d: Delivery): System
    requires i < |s.calls|
  {
    var c := s.calls[i];
    var id := c.request.id;
    if d == LostRequest then SetPhase(s, i, Finish(c, ServerError))
    else if !Affects(s.rows, id, st) then
      SetPhase(s, i, if d == LostReply then Finish(c, ServerError) else Unaffected(c))
    else
      SetPhase(s, i, Finish(c, if d == LostReply then ServerError else Success))
        .(rows := Execute(s.rows, id, st),
          changes := s.changes + [Change(i, id, s.rows[id].status, Updated(st, s.rows[id]).status)])
  }

  function StepRead(s: System, i: nat, d: Delivery): System
    requires i < |s.calls| && s.calls[i].request.Advance?
  {
    var c := s.calls[i];
    if d != Delivered then SetPhase(s, i, Finish(c, ServerError))
    else
      var found := if c.request.id in s.rows then Some(s.rows[c.request.id]) else None;
      match AdvanceRefusal(c.claims, c.request, found)
      case Some(reply) => SetPhase(s, i, Finish(c, reply))
      case None => SetPhase(s, i, Checked(s.rows[c.request.id]))
  }

  function StepDownstream(s: System, i: nat, answer: Answer): System
    requires i < |s.calls| && s.calls[i].request.Advance? && s.calls[i].phase.Checked?
  {
    var c := s.calls[i];
    var kind := ConclusionNamed(c.request.conclusionType);
    var s1 := SetPhase(s, i, Concluded(c.phase.row, Concluding(c.request, answer)));
    if kind.None? || kind.value == Dismiss then s1
    else
      s1.(downstream := s.downstream + [Downstream(i, kind.value, c.phase.row.assetId.GetOr(""), answer.success)])
  }

  /** One atomic step; an event that is not enabled changes nothing. New ids are ones nobody has asked for. */
  function Next(s: System, e: Event): System {
    match e
    case Create(id, assetId) =>
      if id in s.rows || exists i :: 0 <= i < |s.calls| && s.calls[i].request.id == id then s
      else s.(rows := s.rows[id := Workorder(Open, assetId, None, None, None, None, None)])
    case Arrive(claims, request) => s.(calls := s.calls + [Call(claims, request, Arrived)])
    case Step(i, d, answer) =>
      if i >= |s.calls| || s.calls[i].phase.Finished? then s
      else
        var c := s.calls[i];
        if c.phase.Arrived? && Refusal(c.claims, c.request).Some? then
          SetPhase(s, i, Finish(c, Refusal(c.claims, c.request).value))
        else
          match Issues(c)
          case Some(st) => StepStatement(s, i, st, d)
          case None =>
            if c.request.Advance? && c.phase.Arrived? then StepRead(s, i, d)
            else if c.request.Advance? && c.phase.Checked? then StepDownstream(s, i, answer)
            else s
  }

  function Run(events: seq<Event>): System {
    if events == [] then System(map[], [], [], [])
    else Next(Run(events[..|events| - 1]), events[|events| - 1])
  }

  // ---- What the calls in flight know ----

  /** The conclusion is to dismiss, or this call was told by the protocol service that it is done on that asset. */
  predicate Backed(downstream: seq<Downstream>, i: nat, conclusionType: string, assetId: Option<string>) {
    var kind := ConclusionNamed(conclusionType);
    && kind.Some?
    && (kind.value == Dismiss
        || (assetId.Some? &&
            exists k :: 0 <= k < |downstream| && downstream[k] == Downstream(i, kind.value, assetId.value, true)))
  }

  predicate ReadFor(c: Call, row: Workorder, rows: Table) {
    && c.request.Advance? && c.claims.valid && MayAdvance(c.claims, row)
    && c.request.id in rows && rows[c.request.id].assetId == row.assetId && rows[c.request.id].status != Open
    && c.request.conclusion != ""
    && ConclusionNamed(c.request.conclusionType).Some?
    && (ConclusionNamed(c.request.conclusionType).value != Dismiss ==> HasAsset(row))
  }

  predicate ConcludesFor(c: Call, i: nat, row: Workorder, st: Statement, downstream: seq<Downstream>) {
    && c.request.Advance? && st.SetConclusion?
    && st.conclusion == c.request.conclusion && st.conclusionType == c.request.conclusionType
    && (st.status == InProgress || st.status == Resolved)
    && (st.status == Resolved ==> Backed(downstream, i, c.request.conclusionType, row.assetId))
  }

  predicate NotOpen(rows: Table, id: string) {
    id in rows ==> rows[id].status != Open
  }

  predicate CallSound(s: System, i: nat)
    requires i < |s.calls|
  {
    var c := s.calls[i];
    match c.phase
    case Checked(row) => ReadFor(c, row, s.rows)
    case Concluded(row, st) => ReadFor(c, row, s.rows) && ConcludesFor(c, i, row, st, s.downstream)
    case Retrying => c.request.Cancel? && c.claims.valid && IsManager(c.claims) && NotOpen(s.rows, c.request.id)
    case Finished(_, Some(row)) => ReadFor(c, row, s.rows)
    case _ => true
  }

  predicate CallsSound(s: System) {
    forall i :: 0 <= i < |s.calls| ==> CallSound(s, i)
  }

  // ---- Which changes are made ----

  /** The edges of the workorder's life; an assigned workorder can be assigned again, one in progress concluded again. */
  predicate Edge(from: Status, to: Status) {
    || (from == Open && (to == Assigned || to == Cancelled))
    || (from == Assigned && (to == Assigned || to == InProgress || to == Resolved || to == Cancelled))
    || (from == InProgress && (to == InProgress || to == Resolved))
    || (from == Resolved && to == Closed)
  }

  function Rank(s: Status): nat {
    match s
    case Open => 0
    case Assigned => 1
    case InProgress => 2
    case Resolved => 3
    case Closed => 4
    case Cancelled => 4
  }

  predicate Settled(s: Status) {
    s == Resolved || s == Closed
  }

  /** Everything a later row keeps of an earlier one. */
  predicate RowCarried(earlier: Workorder, later: Workorder) {
    && later.assetId == earlier.assetId
    && Rank(earlier.status) <= Rank(later.status)
    && (earlier.status == Closed || earlier.status == Cancelled ==> later == earlier)
    && (Settled(earlier.status) ==> Settled(later.status) && later == earlier.(status := later.status))
    && (later.status == Open ==> earlier.status == Open)
  }

  predicate RowsCarried(earlier: Table, later: Table) {
    forall id :: id in earlier ==> id in later && RowCarried(earlier[id], later[id])
  }

  /** The statements the handlers issue take rows along the edges. */
  predicate Proper(st: Statement) {
    match st
    case SetStatus(from, to) =>
      (to == Closed && from == Resolved) || (to == Cancelled && (from == Open || from == Assigned))
    case SetAssignee(_, _) => true
    case SetConclusion(status, _, _, _) => status == InProgress || status == Resolved
  }

  lemma ProperFollowsEdges(st: Statement, row: Workorder)
    requires Proper(st) && Matches(st, row)
    ensures Edge(row.status, Updated(st, row).status) && RowCarried(row, Updated(st, row))
  {
  }

  lemma IssuedIsProper(s: System, i: nat)
    requires i < |s.calls| && CallSound(s, i) && Issues(s.calls[i]).Some?
    ensures Proper(Issues(s.calls[i]).value)
  {
    hide Backed, ReadFor;
  }

  /** A step that issues a statement which takes effect. */
  predicate Changes(s: System, e: Event) {
    && e.Step? && e.call < |s.calls| && !s.calls[e.call].phase.Finished?
    && !(s.calls[e.call].phase.Arrived? && Refusal(s.calls[e.call].claims, s.calls[e.call].request).Some?)
    && e.delivery != LostRequest
    && Issues(s.calls[e.call]).Some?
    && Affects(s.rows, s.calls[e.call].request.id, Issues(s.calls[e.call]).value)
  }

  lemma OnlyStatementsChange(s: System, e: Event)
    requires !Changes(s, e)
    ensures Next(s, e).changes == s.changes
    ensures RowsCarried(s.rows, Next(s, e).rows)
    ensures forall id :: id in Next(s, e).rows && id !in s.rows ==> Next(s, e).rows[id].status == Open
    ensures forall id :: id in s.rows ==> Next(s, e).rows[id] == s.rows[id]
    ensures forall id, i :: id in Next(s, e).rows && id !in s.rows && 0 <= i < |s.calls| ==> s.calls[i].request.id != id
  {
    hide ConclusionNamed, Concluding, AdvanceRefusal, IsManager, IsPlatform;
  }

  lemma ChangeApplies(s: System, e: Event)
    requires Changes(s, e)
    ensures var c := s.calls[e.call];
            var id, st := c.request.id, Issues(c).value;
            && id in s.rows
            && Next(s, e).rows == s.rows[id := Updated(st, s.rows[id])]
            && Next(s, e).changes == s.changes + [Change(e.call, id, s.rows[id].status, Updated(st, s.rows[id]).status)]
            && Next(s, e).downstream == s.downstream
            && |Next(s, e).calls| == |s.calls|
            && Next(s, e).calls[e.call].phase.Finished?
            && (forall i :: 0 <= i < |s.calls| && i != e.call ==> Next(s, e).calls[i] == s.calls[i])
            && Next(s, e).calls[e.call].request == c.request && Next(s, e).calls[e.call].claims == c.claims
  {
    hide Issues, Updated, Matches, Refusal;
  }

  lemma StepCarriesRows(s: System, e: Event)
    requires CallsSound(s)
    ensures RowsCarried(s.rows, Next(s, e).rows)
  {
    hide Next, Issues, Matches, Updated, RowCarried, Proper, CallSound;
    if Changes(s, e) {
      ChangeApplies(s, e);
      assert CallSound(s, e.call);
      IssuedIsProper(s, e.call);
      var id := s.calls[e.call].request.id;
      ProperFollowsEdges(Issues(s.calls[e.call]).value, s.rows[id]);
      forall other | other in s.rows
        ensures RowCarried(s.rows[other], s.rows[other])
      {
        CarriedToItself(s.rows[other]);
      }
    } else {
      OnlyStatementsChange(s, e);
    }
  }

  /** New rows are open, unassigned and without a conclusion, and get ids that nobody has asked for. */
  lemma CreationAdds(s: System, id: string, assetId: Option<string>)
    ensures var t := Next(s, Create(id, assetId));
            && t.calls == s.calls && t.downstream == s.downstream && t.changes == s.changes
            && t.rows == (if id in s.rows || exists i :: 0 <= i < |s.calls| && s.calls[i].request.id == id then s.rows
                          else s.rows[id := Workorder(Open, assetId, None, None, None, None, None)])
  {
  }

  lemma CarriedToItself(row: Workorder)
    ensures RowCarried(row, row)
  {
  }

  // ---- Calls stay sound ----

  lemma BackingGrows(earlier: seq<Downstream>, later: seq<Downstream>, i: nat, text: string, assetId: Option<string>)
    requires earlier <= later && Backed(earlier, i, text, assetId)
    ensures Backed(later, i, text, assetId)
  {
    if ConclusionNamed(text) != Some(Dismiss) {
      var k :| 0 <= k < |earlier| && earlier[k] == Downstream(i, ConclusionNamed(text).value, assetId.value, true);
      assert later[k] == earlier[k];
    }
  }

  /** What a call knows stays true as long as it does not move itself. */
  lemma WaitingCallStaysSound(s: System, t: System, i: nat)
    requires i < |s.calls| && i < |t.calls| && t.calls[i] == s.calls[i] && CallSound(s, i)
    requires RowsCarried(s.rows, t.rows) && s.downstream <= t.downstream
    requires s.calls[i].request.id in t.rows ==> s.calls[i].request.id in s.rows
    ensures CallSound(t, i)
  {
    hide Backed, MayAdvance, IsManager, ConclusionNamed;
    var c := s.calls[i];
    if c.phase.Concluded? && c.phase.statement.status == Resolved {
      BackingGrows(s.downstream, t.downstream, i, c.request.conclusionType, c.phase.row.assetId);
    }
  }

  /** Who moves, if anybody. */
  predicate MovesCall(s: System, e: Event, i: nat) {
    e.Step? && e.call == i
  }

  lemma StepShape(s: System, e: Event)
    ensures |s.calls| <= |Next(s, e).calls|
    ensures s.downstream <= Next(s, e).downstream
    ensures forall i :: 0 <= i < |s.calls| && !MovesCall(s, e, i) ==> Next(s, e).calls[i] == s.calls[i]
    ensures forall i :: 0 <= i < |s.calls| ==>
              && Next(s, e).calls[i].request == s.calls[i].request && Next(s, e).calls[i].claims == s.calls[i].claims
              && (s.calls[i].phase.Finished? ==> Next(s, e).calls[i] == s.calls[i])
    ensures forall i :: |s.calls| <= i < |Next(s, e).calls| ==> Next(s, e).calls[i].phase.Arrived?
    ensures forall id, i :: id in Next(s, e).rows && id !in s.rows && 0 <= i < |s.calls| ==> s.calls[i].request.id != id
  {
    hide ConclusionNamed, Concluding, AdvanceRefusal, Refusal, Matches, Updated, Issues, Finish, Unaffected;
  }

  lemma ReadIsSound(s: System, i: nat, d: Delivery)
    requires i < |s.calls| && s.calls[i].request.Advance? && s.calls[i].phase.Arrived?
    requires Refusal(s.calls[i].claims, s.calls[i].request).None?
    ensures CallSound(StepRead(s, i, d), i)
  {
    hide ConclusionNamed, HasAsset, MayAdvance;
  }

  lemma DownstreamIsSound(s: System, i: nat, answer: Answer)
    requires i < |s.calls| && s.calls[i].request.Advance? && s.calls[i].phase.Checked? && CallSound(s, i)
    ensures CallSound(StepDownstream(s, i, answer), i)
  {
    hide ConclusionNamed, MayAdvance;
    var t := StepDownstream(s, i, answer);
    if ConclusionNamed(s.calls[i].request.conclusionType) != Some(Dismiss) {
      assert t.downstream[|s.downstream|].call == i;
    }
  }

  lemma StatementIsSound(s: System, i: nat, st: Statement, d: Delivery)
    requires i < |s.calls| && CallSound(s, i) && Issues(s.calls[i]) == Some(st) && Proper(st)
    requires s.calls[i].phase.Arrived? ==> Refusal(s.calls[i].claims, s.calls[i].request).None?
    ensures CallSound(StepStatement(s, i, st, d), i)
  {
    hide Backed, MayAdvance, ConclusionNamed, IsManager;
    if Affects(s.rows, s.calls[i].request.id, st) {
      ProperFollowsEdges(st, s.rows[s.calls[i].request.id]);
    }
  }

  lemma MovedCallStaysSound(s: System, e: Event)
    requires CallsSound(s) && e.Step? && e.call < |s.calls|
    ensures CallSound(Next(s, e), e.call)
  {
    hide CallSound, Issues, Refusal, StepStatement, StepRead, StepDownstream, Proper;
    var i, c := e.call, s.calls[e.call];
    assert CallSound(s, i);
    if c.phase.Finished? {
    } else if c.phase.Arrived? && Refusal(c.claims, c.request).Some? {
      RefusedIsSound(s, i, Refusal(c.claims, c.request).value);
    } else if Issues(c).Some? {
      IssuedIsProper(s, i);
      StatementIsSound(s, i, Issues(c).value, e.delivery);
    } else if c.request.Advance? && c.phase.Arrived? {
      ReadIsSound(s, i, e.delivery);
    } else if c.request.Advance? && c.phase.Checked? {
      DownstreamIsSound(s, i, e.answer);
    }
  }

  lemma RefusedIsSound(s: System, i: nat, reply: Reply)
    requires i < |s.calls| && s.calls[i].phase.Arrived?
    ensures CallSound(SetPhase(s, i, Finish(s.calls[i], reply)), i)
  {
  }

  lemma StepKeepsCallsSound(s: System, e: Event)
    requires CallsSound(s)
    ensures CallsSound(Next(s, e))
  {
    hide Next, CallSound;
    var t := Next(s, e);
    StepShape(s, e);
    StepCarriesRows(s, e);
    forall i | 0 <= i < |t.calls|
      ensures CallSound(t, i)
    {
      if i >= |s.calls| {
        ArrivedIsSound(t, i);
      } else if MovesCall(s, e, i) {
        MovedCallStaysSound(s, e);
      } else {
        WaitingCallStaysSound(s, t, i);
      }
    }
  }

  lemma ArrivedIsSound(s: System, i: nat)
    requires i < |s.calls| && s.calls[i].phase.Arrived?
    ensures CallSound(s, i)
  {
  }

  lemma {:induction false} CallsAlwaysSound(events: seq<Event>)
    ensures CallsSound(Run(events))
  {
    hide Next, CallSound;
    if events != [] {
      CallsAlwaysSound(events[..|events| - 1]);
      StepKeepsCallsSound(Run(events[..|events| - 1]), events[|events| - 1]);
    }
  }

  // ---- The life of a row ----

  lemma CarriedFurther(a: Table, b: Table, c: Table)
    requires RowsCarried(a, b) && RowsCarried(b, c)
    ensures RowsCarried(a, c)
  {
  }

  lemma RowsCarriedToThemselves(rows: Table)
    ensures RowsCarried(rows, rows)
  {
  }

  /** However calls interleave, no workorder ever moves backwards, a closed or cancelled one never changes at all, and a
      resolved one keeps its conclusion, its asset and everything else but its status. */
  lemma {:induction false} NeverBackwards(events: seq<Event>, m: nat, n: nat)
    requires m <= n <= |events|
    ensures RowsCarried(Run(events[..m]).rows, Run(events[..n]).rows)
    decreases n - m
  {
    hide Next, RowsCarried, CallsSound;
    if m == n {
      RowsCarriedToThemselves(Run(events[..m]).rows);
    } else {
      NeverBackwards(events, m, n - 1);
      assert events[..n][..n - 1] == events[..n - 1];
      CallsAlwaysSound(events[..n - 1]);
      StepCarriesRows(Run(events[..n - 1]), events[n - 1]);
      CarriedFurther(Run(events[..m]).rows, Run(events[..n - 1]).rows, Run(events[..n]).rows);
    }
  }

  /** Every single step leaves a status alone or follows an edge: closed comes from resolved only, cancelled from open or
      assigned only. */
  lemma EveryStepFollowsAnEdge(events: seq<Event>, k: nat, id: string)
    requires k < |events| && id in Run(events[..k]).rows
    ensures var before, after := Run(events[..k]).rows[id], Run(events[..k + 1]).rows;
            && id in after
            && (after[id] == before || Edge(before.status, after[id].status))
  {
    hide Next, CallsSound, CallSound, Issues, Proper, Matches, Updated, RowCarried;
    var s, e := Run(events[..k]), events[k];
    assert events[..k + 1][..k] == events[..k];
    CallsAlwaysSound(events[..k]);
    if Changes(s, e) {
      ChangeApplies(s, e);
      assert CallSound(s, e.call) by { assert CallsSound(s); SoundAt(s, e.call); }
      IssuedIsProper(s, e.call);
      ProperFollowsEdges(Issues(s.calls[e.call]).value, s.rows[s.calls[e.call].request.id]);
    } else {
      OnlyStatementsChange(s, e);
    }
  }

  lemma SoundAt(s: System, i: nat)
    requires CallsSound(s) && i < |s.calls|
    ensures CallSound(s, i)
  {
  }

  // ---- Who resolved what ----

  /** A logged change was made by a call on that workorder, along an edge, by somebody entitled to it; a resolution is
      backed, and the row still shows its conclusion. */
  predicate ChangeSound(s: System, ch: Change) {
    && ch.call < |s.calls| && s.calls[ch.call].phase.Finished?
    && s.calls[ch.call].request.id == ch.id && ch.id in s.rows
    && Edge(ch.from, ch.to) && Rank(ch.to) <= Rank(s.rows[ch.id].status)
    && Entitled(s.calls[ch.call], ch.to)
    && (ch.to == Resolved ==> Resolution(s, ch))
  }

  predicate Entitled(c: Call, to: Status)
    requires c.phase.Finished?
  {
    match to
    case Open => false
    case Assigned => c.request.Assign? && IsManager(c.claims)
    case Closed => c.request.Close? && IsManager(c.claims)
    case Cancelled => c.request.Cancel? && IsManager(c.claims)
    case _ => c.request.Advance? && c.phase.seen.Some? && MayAdvance(c.claims, c.phase.seen.value)
  }

  predicate Resolution(s: System, ch: Change)
    requires ch.call < |s.calls| && ch.id in s.rows
  {
    var r, row := s.calls[ch.call].request, s.rows[ch.id];
    && r.Advance? && Settled(row.status)
    && row.conclusion == Some(r.conclusion) && row.conclusionType == Some(r.conclusionType)
    && Backed(s.downstream, ch.call, r.conclusionType, row.assetId)
  }

  predicate ChangesSound(s: System) {
    forall k :: 0 <= k < |s.changes| ==> ChangeSound(s, s.changes[k])
  }

  predicate ResolvedBy(s: System, id: string, k: nat) {
    k < |s.changes| && s.changes[k].id == id && s.changes[k].to == Resolved
  }

  /** Each settled workorder was resolved by exactly one change. */
  ghost predicate ResolvedOnce(s: System) {
    && (forall id :: id in s.rows && Settled(s.rows[id].status) ==> exists k: nat :: ResolvedBy(s, id, k))
    && (forall id: string, j: nat, k: nat :: ResolvedBy(s, id, j) && ResolvedBy(s, id, k) ==> j == k)
  }

  lemma OldChangeStaysSound(s: System, t: System, ch: Change)
    requires ChangeSound(s, ch) && |s.calls| <= |t.calls|
    requires ch.call < |s.calls| ==> t.calls[ch.call] == s.calls[ch.call]
    requires RowsCarried(s.rows, t.rows) && s.downstream <= t.downstream
    ensures ChangeSound(t, ch)
  {
    hide Backed, Entitled, Edge;
    assert RowCarried(s.rows[ch.id], t.rows[ch.id]);
    if ch.to == Resolved {
      BackingGrows(s.downstream, t.downstream, ch.call, s.calls[ch.call].request.conclusionType, s.rows[ch.id].assetId);
    }
  }

  lemma IssuerIsEntitled(s: System, i: nat)
    requires i < |s.calls| && CallSound(s, i) && Issues(s.calls[i]).Some?
    requires s.calls[i].phase.Arrived? ==> Refusal(s.calls[i].claims, s.calls[i].request).None?
    requires s.calls[i].request.id in s.rows && Matches(Issues(s.calls[i]).value, s.rows[s.calls[i].request.id])
    ensures var c, st := s.calls[i], Issues(s.calls[i]).value;
            forall reply :: Entitled(c.(phase := Finish(c, reply)), Updated(st, s.rows[c.request.id]).status)
  {
    hide Backed, ConclusionNamed, MayAdvance, IsManager, HasAsset;
  }

  lemma NewChangeIsSound(s: System, e: Event)
    requires CallsSound(s) && Changes(s, e)
    ensures Next(s, e).changes != [] && ChangeSound(Next(s, e), Next(s, e).changes[|s.changes|])
  {
    hide Next, Backed, CallSound, Issues, Matches, Updated, Refusal, Entitled, Edge;
    var i, c := e.call, s.calls[e.call];
    var st, t := Issues(c).value, Next(s, e);
    SoundAt(s, i);
    ChangeApplies(s, e);
    IssuedIsProper(s, i);
    ProperFollowsEdges(st, s.rows[c.request.id]);
    IssuerIsEntitled(s, i);
    FinishesBy(s, e);
    if Updated(st, s.rows[c.request.id]).status == Resolved {
      ResolvingStatement(s, i);
    }
  }

  lemma FinishesBy(s: System, e: Event)
    requires Changes(s, e)
    ensures exists reply :: Next(s, e).calls[e.call] == s.calls[e.call].(phase := Finish(s.calls[e.call], reply))
  {
    hide Issues, Updated, Matches, Refusal;
    var reply := if e.delivery == LostReply then ServerError else Success;
    assert Next(s, e).calls[e.call] == s.calls[e.call].(phase := Finish(s.calls[e.call], reply));
  }

  /** A statement that resolves comes from an advance and writes its conclusion, backed on the row's own asset. */
  lemma ResolvingStatement(s: System, i: nat)
    requires i < |s.calls| && CallSound(s, i) && Issues(s.calls[i]).Some?
    requires s.calls[i].request.id in s.rows && Matches(Issues(s.calls[i]).value, s.rows[s.calls[i].request.id])
    requires Updated(Issues(s.calls[i]).value, s.rows[s.calls[i].request.id]).status == Resolved
    ensures var r, row := s.calls[i].request, s.rows[s.calls[i].request.id];
            var after := Updated(Issues(s.calls[i]).value, row);
            && r.Advance?
            && after.conclusion == Some(r.conclusion) && after.conclusionType == Some(r.conclusionType)
            && after.assetId == row.assetId && Backed(s.downstream, i, r.conclusionType, row.assetId)
  {
    hide Backed, ConclusionNamed, MayAdvance, IsManager;
  }

  lemma StepKeepsChangesSound(s: System, e: Event)
    requires CallsSound(s) && ChangesSound(s)
    ensures ChangesSound(Next(s, e))
  {
    hide Next, ChangeSound, CallSound, RowsCarried;
    var t := Next(s, e);
    StepShape(s, e);
    StepCarriesRows(s, e);
    if Changes(s, e) {
      ChangeApplies(s, e);
      NewChangeIsSound(s, e);
    } else {
      OnlyStatementsChange(s, e);
    }
    forall k | 0 <= k < |s.changes|
      ensures ChangeSound(t, s.changes[k])
    {
      assert ChangeSound(s, s.changes[k]);
      FinishedCallOf(s, s.changes[k]);
      OldChangeStaysSound(s, t, s.changes[k]);
    }
  }

  lemma FinishedCallOf(s: System, ch: Change)
    requires ChangeSound(s, ch)
    ensures ch.call < |s.calls| && s.calls[ch.call].phase.Finished?
  {
  }

  lemma {:induction false} ChangesAlwaysSound(events: seq<Event>)
    ensures ChangesSound(Run(events))
  {
    hide Next, ChangeSound, CallsSound;
    if events != [] {
      CallsAlwaysSound(events[..|events| - 1]);
      ChangesAlwaysSound(events[..|events| - 1]);
      StepKeepsChangesSound(Run(events[..|events| - 1]), events[|events| - 1]);
    }
  }

  lemma SettlingRow(s: System, e: Event, id: string)
    requires CallsSound(s) && id in Next(s, e).rows && Settled(Next(s, e).rows[id].status)
    requires !(id in s.rows && Settled(s.rows[id].status))
    ensures Changes(s, e) && ResolvedBy(Next(s, e), id, |s.changes|)
  {
    hide Next, Issues, Matches, Updated, CallSound, Proper;
    if Changes(s, e) {
      ChangeApplies(s, e);
      SoundAt(s, e.call);
      IssuedIsProper(s, e.call);
      ProperFollowsEdges(Issues(s.calls[e.call]).value, s.rows[s.calls[e.call].request.id]);
    } else {
      OnlyStatementsChange(s, e);
    }
  }

  lemma ResolvedRowStaysResolved(s: System, id: string, k: nat)
    requires ChangesSound(s) && ResolvedBy(s, id, k)
    ensures id in s.rows && Settled(s.rows[id].status)
  {
    hide Backed, Entitled, Edge;
    assert ChangeSound(s, s.changes[k]);
  }

  lemma NewResolution(s: System, e: Event, id: string, k: nat)
    requires CallsSound(s) && Changes(s, e) && ResolvedBy(Next(s, e), id, k)
    ensures k < |s.changes| ==> ResolvedBy(s, id, k)
    ensures k >= |s.changes| ==> k == |s.changes| && id in s.rows && !Settled(s.rows[id].status)
  {
    hide Next, Issues, Matches, Updated, CallSound, Proper;
    ChangeApplies(s, e);
    SoundAt(s, e.call);
    IssuedIsProper(s, e.call);
    ProperFollowsEdges(Issues(s.calls[e.call]).value, s.rows[s.calls[e.call].request.id]);
  }

  lemma StepResolvesOnce(s: System, e: Event)
    requires CallsSound(s) && ChangesSound(s) && ResolvedOnce(s)
    ensures ResolvedOnce(Next(s, e))
  {
    hide Next, ChangesSound, CallsSound, Changes;
    var t := Next(s, e);
    if !Changes(s, e) {
      OnlyStatementsChange(s, e);
    } else {
      ChangeApplies(s, e);
    }
    forall id | id in t.rows && Settled(t.rows[id].status)
      ensures exists k: nat :: ResolvedBy(t, id, k)
    {
      if id in s.rows && Settled(s.rows[id].status) {
        var k: nat :| ResolvedBy(s, id, k);
        assert ResolvedBy(t, id, k);
      } else {
        SettlingRow(s, e, id);
      }
    }
    forall id: string, j: nat, k: nat | ResolvedBy(t, id, j) && ResolvedBy(t, id, k)
      ensures j == k
    {
      if Changes(s, e) {
        NewResolution(s, e, id, j);
        NewResolution(s, e, id, k);
        if j < |s.changes| { ResolvedRowStaysResolved(s, id, j); }
        if k < |s.changes| { ResolvedRowStaysResolved(s, id, k); }
      } else {
        assert ResolvedBy(s, id, j) && ResolvedBy(s, id, k);
      }
    }
  }

  lemma {:induction false} AlwaysResolvedOnce(events: seq<Event>)
    ensures ResolvedOnce(Run(events))
  {
    hide Next, ChangesSound, CallsSound;
    if events != [] {
      CallsAlwaysSound(events[..|events| - 1]);
      ChangesAlwaysSound(events[..|events| - 1]);
      AlwaysResolvedOnce(events[..|events| - 1]);
      StepResolvesOnce(Run(events[..|events| - 1]), events[|events| - 1]);
    }
  }

  /** A resolved or closed workorder was resolved by exactly one advance. Its conclusion is that call's, of a valid type,
      and either dismisses or was reported done, to that very call, by the protocol service on the workorder's asset. */
  lemma ResolutionIsBacked(events: seq<Event>, id: string)
    requires id in Run(events).rows && Settled(Run(events).rows[id].status)
    ensures var s := Run(events);
            exists k: nat :: ResolvedBy(s, id, k) && ChangeSound(s, s.changes[k]) && Resolution(s, s.changes[k])
                             && forall j: nat :: ResolvedBy(s, id, j) ==> j == k
  {
    hide Run, Backed, Entitled, Edge;
    AlwaysResolvedOnce(events);
    ChangesAlwaysSound(events);
    var s := Run(events);
    var k: nat :| ResolvedBy(s, id, k);
    assert ChangeSound(s, s.changes[k]);
  }

  /** A cancellation that ends in a conflict was right to: when its last statement ran, the workorder was unknown or past
      the point of cancelling. */
  lemma CancelConflictIsJust(events: seq<Event>, k: nat, i: nat)
    requires k < |events| && i < |Run(events[..k]).calls| && Run(events[..k]).calls[i].request.Cancel?
    requires !Run(events[..k]).calls[i].phase.Finished?
    requires i < |Run(events[..k + 1]).calls| && Run(events[..k + 1]).calls[i].phase == Finished(Conflict, None)
    ensures var s := Run(events[..k]);
            var id := s.calls[i].request.id;
            id in s.rows ==> s.rows[id].status != Open && s.rows[id].status != Assigned
  {
    hide Run, CallsSound;
    var s, e := Run(events[..k]), events[k];
    assert Run(events[..k + 1]) == Next(s, e) by { RunAppend(events, k); }
    CallsAlwaysSound(events[..k]);
    SoundAt(s, i);
    ConflictingCancel(s, e, i);
  }

  lemma RunAppend(events: seq<Event>, k: nat)
    requires k < |events|
    ensures Run(events[..k + 1]) == Next(Run(events[..k]), events[k])
  {
    hide Next;
    assert events[..k + 1][..k] == events[..k];
  }

  lemma ConflictingCancel(s: System, e: Event, i: nat)
    requires i < |s.calls| && CallSound(s, i) && s.calls[i].request.Cancel? && !s.calls[i].phase.Finished?
    requires i < |Next(s, e).calls| && Next(s, e).calls[i].phase == Finished(Conflict, None)
    ensures var id := s.calls[i].request.id;
            id in s.rows ==> s.rows[id].status != Open && s.rows[id].status != Assigned
  {
    hide ConclusionNamed, Concluding, AdvanceRefusal, Backed, MayAdvance;
  }

  /** What happens to an advance's conclusion when the call takes its last step, whatever others have done since it read
      the row: it is recorded exactly if the request arrives and the workorder has not been resolved, closed or cancelled
      in the meantime, and a delivered step replies with a conflict in exactly those three cases. */
  lemma ConclusionRecordedIff(events: seq<Event>, k: nat)
    requires k < |events| && events[k].Step?
    requires events[k].call < |Run(events[..k]).calls| && Run(events[..k]).calls[events[k].call].phase.Concluded?
    ensures var s, t := Run(events[..k]), Run(events[..k + 1]);
            var i, d := events[k].call, events[k].delivery;
            var c := s.calls[i];
            && c.request.Advance? && c.phase.statement.SetConclusion? && c.request.id in s.rows && i < |t.calls|
            && var row, st := s.rows[c.request.id], c.phase.statement;
            && (t.changes == s.changes + [Change(i, c.request.id, row.status, st.status)]
                <==> d != LostRequest && !Overtaken(row.status))
            && (t.changes == s.changes <==> d == LostRequest || Overtaken(row.status))
            && t.rows == (if d == LostRequest || Overtaken(row.status) then s.rows
                          else s.rows[c.request.id := Updated(st, row)])
            && t.calls[i].phase == Finished(if d != Delivered then ServerError
                                            else if Overtaken(row.status) then Conflict
                                            else Success, Some(c.phase.row))
  {
    hide Run, CallsSound;
    var s, i := Run(events[..k]), events[k].call;
    RunAppend(events, k);
    CallsAlwaysSound(events[..k]);
    SoundAt(s, i);
    ConclusionStep(s, i, events[k].delivery, events[k].answer);
  }

  /** The states in which there is nothing left for an advance to record. */
  predicate Overtaken(status: Status) {
    status == Resolved || status == Closed || status == Cancelled
  }

  lemma ConclusionStep(s: System, i: nat, d: Delivery, answer: Answer)
    requires i < |s.calls| && CallSound(s, i) && s.calls[i].phase.Concluded?
    ensures var c := s.calls[i];
            && c.request.Advance? && c.phase.statement.SetConclusion? && c.request.id in s.rows
            && var row, st, t := s.rows[c.request.id], c.phase.statement, Next(s, Step(i, d, answer));
            && t.changes == (if d == LostRequest || Overtaken(row.status) then s.changes
                             else s.changes + [Change(i, c.request.id, row.status, st.status)])
            && t.rows == (if d == LostRequest || Overtaken(row.status) then s.rows
                          else s.rows[c.request.id := Updated(st, row)])
            && i < |t.calls|
            && t.calls[i].phase == Finished(if d != Delivered then ServerError
                                            else if Overtaken(row.status) then Conflict
                                            else Success, Some(c.phase.row))
  {
    hide Backed, MayAdvance, ConclusionNamed, Refusal, Updated;
    UpdatesStatus(s.calls[i].phase.statement, s.rows[s.calls[i].request.id]);
  }

  lemma UpdatesStatus(st: Statement, row: Workorder)
    requires st.SetConclusion?
    ensures Updated(st, row).status == st.status
  {
  }

  // ---- What the protocol service was asked ----

  /** The `conclusion_type` that asks for an action. */
  function TextOf(kind: Conclusion): string {
    match kind
    case Freeze => "freeze"
    case Recover => "recover"
    case MarkTampered => "mark_tampered"
    case MarkCompromised => "mark_compromised"
    case Dismiss => "dismiss"
  }

  lemma TextNames(kind: Conclusion, text: string)
    ensures ConclusionNamed(text) == Some(kind) <==> text == TextOf(kind)
  {
  }

  /** A logged call was made for an advance that asked for this action, on the asset of the row it had read; what the
      advance is about to record follows the answer. */
  predicate ReportSound(s: System, d: Downstream) {
    && d.call < |s.calls|
    && var c := s.calls[d.call];
       && c.request.Advance? && d.kind != Dismiss && c.request.conclusionType == TextOf(d.kind)
       && (match c.phase
           case Concluded(row, st) =>
             && row.assetId == Some(d.assetId)
             && st.SetConclusion? && st.status == (if d.success then Resolved else InProgress)
           case Finished(_, Some(row)) => row.assetId == Some(d.assetId)
           case _ => false)
  }

  predicate HasReport(s: System, i: nat) {
    exists k :: 0 <= k < |s.downstream| && s.downstream[k].call == i
  }

  /** A call that has concluded has asked exactly once, or dismisses. */
  predicate Asked(s: System, i: nat)
    requires i < |s.calls|
  {
    s.calls[i].phase.Concluded? ==>
      if s.calls[i].request.Advance? && s.calls[i].request.conclusionType != "dismiss" then HasReport(s, i)
      else s.calls[i].phase.statement.SetConclusion? && s.calls[i].phase.statement.status == Resolved
  }

  predicate ReportsSound(s: System) {
    && (forall k :: 0 <= k < |s.downstream| ==> ReportSound(s, s.downstream[k]))
    && (forall j, k :: 0 <= j < k < |s.downstream| ==> s.downstream[j].call != s.downstream[k].call)
    && (forall i :: 0 <= i < |s.calls| ==> Asked(s, i))
  }

  /** Only a call that has checked its row asks the protocol service. */
  lemma WhoAsks(s: System, e: Event)
    ensures || Next(s, e).downstream == s.downstream
            || (&& e.Step? && e.call < |s.calls| && s.calls[e.call].request.Advance? && s.calls[e.call].phase.Checked?
                && Next(s, e) == StepDownstream(s, e.call, e.answer))
  {
    hide ConclusionNamed, Concluding, AdvanceRefusal, Refusal, Matches, Updated, IsManager;
  }

  /** A call in one of its last two phases keeps the row it read, and another gets there only by asking. */
  lemma LastPhases(s: System, e: Event, i: nat)
    requires i < |s.calls|
    ensures i < |Next(s, e).calls|
    ensures var c, c' := s.calls[i], Next(s, e).calls[i];
            && (c.phase.Concluded? ==> c' == c || (c'.phase.Finished? && c'.phase.seen == Some(c.phase.row)))
            && (c.phase.Finished? ==> c' == c)
            && (c'.phase.Concluded? && c' != c ==>
                  && c.request.Advance? && c.phase.Checked? && e.Step? && e.call == i
                  && Next(s, e) == StepDownstream(s, i, e.answer))
  {
    hide ConclusionNamed, Concluding, AdvanceRefusal, Refusal, Matches, Updated, IsManager;
  }

  lemma AskingIsSound(s: System, i: nat, answer: Answer)
    requires i < |s.calls| && s.calls[i].request.Advance? && s.calls[i].phase.Checked? && CallSound(s, i)
    ensures var t := StepDownstream(s, i, answer);
            && Asked(t, i)
            && (t.downstream == s.downstream
                || (&& |t.downstream| == |s.downstream| + 1 && s.downstream <= t.downstream
                    && t.downstream[|s.downstream|].call == i && t.downstream[|s.downstream|].success == answer.success
                    && ReportSound(t, t.downstream[|s.downstream|])))
  {
    hide ConclusionNamed, MayAdvance, TextOf;
    var text := s.calls[i].request.conclusionType;
    var kind := ConclusionNamed(text).value;
    TextNames(kind, text);
    DismissIsNamed(text);
    var t := StepDownstream(s, i, answer);
    if kind != Dismiss {
      assert t.downstream[|s.downstream|].call == i;
    }
  }

  lemma ReportStaysSound(s: System, e: Event, d: Downstream)
    requires ReportSound(s, d)
    ensures ReportSound(Next(s, e), d)
  {
    hide Next;
    LastPhases(s, e, d.call);
    StepShape(s, e);
  }

  lemma StaysAsked(s: System, e: Event, i: nat)
    requires CallsSound(s) && i < |s.calls| && Asked(s, i)
    ensures i < |Next(s, e).calls| && Asked(Next(s, e), i)
  {
    hide Next, CallSound, StepDownstream;
    var t := Next(s, e);
    LastPhases(s, e, i);
    StepShape(s, e);
    if t.calls[i].phase.Concluded? {
      if t.calls[i] == s.calls[i] {
        if HasReport(s, i) {
          var k :| 0 <= k < |s.downstream| && s.downstream[k].call == i;
          assert t.downstream[k] == s.downstream[k];
        }
      } else {
        SoundAt(s, i);
        AskingIsSound(s, i, e.answer);
      }
    }
  }

  lemma StepKeepsReportsSound(s: System, e: Event)
    requires CallsSound(s) && ReportsSound(s)
    ensures ReportsSound(Next(s, e))
  {
    hide Next, CallSound, ReportSound, Asked, StepDownstream;
    var t := Next(s, e);
    StepShape(s, e);
    WhoAsks(s, e);
    forall i | 0 <= i < |t.calls|
      ensures Asked(t, i)
    {
      if i < |s.calls| {
        StaysAsked(s, e, i);
      } else {
        ArrivedHasNotConcluded(t, i);
      }
    }
    forall k | 0 <= k < |s.downstream|
      ensures ReportSound(t, s.downstream[k])
    {
      ReportStaysSound(s, e, s.downstream[k]);
    }
    if t.downstream != s.downstream {
      SoundAt(s, e.call);
      AskingIsSound(s, e.call, e.answer);
      forall k | 0 <= k < |s.downstream|
        ensures s.downstream[k].call != e.call
      {
        AskedCallHasLeft(s, s.downstream[k]);
      }
    }
  }

  lemma ArrivedHasNotConcluded(s: System, i: nat)
    requires i < |s.calls| && s.calls[i].phase.Arrived?
    ensures Asked(s, i)
  {
  }

  lemma AskedCallHasLeft(s: System, d: Downstream)
    requires ReportSound(s, d)
    ensures d.call < |s.calls| && !s.calls[d.call].phase.Checked?
  {
  }

  /** However calls interleave, the protocol service is asked at most once by each call, only for what its request names,
      and only on the asset of its workorder; and a call about to conclude either dismisses or follows its answer. */
  lemma {:induction false} ReportsAlwaysSound(events: seq<Event>)
    ensures ReportsSound(Run(events))
  {
    hide Next, ReportSound, Asked, CallsSound;
    if events != [] {
      CallsAlwaysSound(events[..|events| - 1]);
      ReportsAlwaysSound(events[..|events| - 1]);
      StepKeepsReportsSound(Run(events[..|events| - 1]), events[|events| - 1]);
    }
  }

  /** What the protocol service reported to a call is on the workorder's record, as resolved after a success and as in
      progress after a failure, exactly if the call's last step arrives and the workorder has not been resolved, closed or
      cancelled by then. */
  lemma SuccessRecordedIff(events: seq<Event>, k: nat, j: nat)
    requires k < |events| && events[k].Step?
    requires events[k].call < |Run(events[..k]).calls| && Run(events[..k]).calls[events[k].call].phase.Concluded?
    requires j < |Run(events[..k]).downstream| && Run(events[..k]).downstream[j].call == events[k].call
    ensures var s, t, i := Run(events[..k]), Run(events[..k + 1]), events[k].call;
            var r, report := s.calls[i].request, s.downstream[j];
            && r.Advance? && r.id in s.rows && r.id in t.rows && s.rows[r.id].assetId == Some(report.assetId)
            && var recorded := Change(i, r.id, s.rows[r.id].status, if report.success then Resolved else InProgress);
               && (t.changes == s.changes + [recorded]
                   <==> events[k].delivery != LostRequest && !Overtaken(s.rows[r.id].status))
               && (recorded in t.changes ==> t.rows[r.id].conclusion == Some(r.conclusion)
                                             && t.rows[r.id].conclusionType == Some(TextOf(report.kind)))
               && (recorded !in t.changes ==> t.rows == s.rows && t.changes == s.changes)
               && ((exists n: nat :: ResolvedBy(t, r.id, n) && t.changes[n].call == i)
                   <==> report.success && events[k].delivery != LostRequest && !Overtaken(s.rows[r.id].status))
  {
    hide Run, CallsSound, TextOf, Updated;
    var s, t, i := Run(events[..k]), Run(events[..k + 1]), events[k].call;
    ConclusionRecordedIff(events, k);
    CallsAlwaysSound(events[..k]);
    SoundAt(s, i);
    ReportsAlwaysSound(events[..k]);
    assert ReportSound(s, s.downstream[j]);
    ConclusionColumns(s.calls[i].phase.statement, s.rows[s.calls[i].request.id]);
    NoChangeYet(events[..k], i);
    if t.changes == s.changes {
      assert forall n: nat :: ResolvedBy(t, s.calls[i].request.id, n) ==> t.changes[n] in s.changes;
    } else {
      assert t.changes[|s.changes|].call == i;
      assert s.downstream[j].success ==> ResolvedBy(t, s.calls[i].request.id, |s.changes|);
      assert forall n: nat :: n < |s.changes| ==> t.changes[n] in s.changes;
    }
  }

  lemma ConclusionColumns(st: Statement, row: Workorder)
    requires st.SetConclusion?
    ensures Updated(st, row).conclusion == Some(st.conclusion)
    ensures Updated(st, row).conclusionType == Some(st.conclusionType)
  {
  }

  /** A call that has not finished has changed nothing. */
  lemma NoChangeYet(events: seq<Event>, i: nat)
    requires i < |Run(events).calls| && !Run(events).calls[i].phase.Finished?
    ensures forall ch :: ch in Run(events).changes ==> ch.call != i
  {
    hide Run;
    ChangesAlwaysSound(events);
    var s := Run(events);
    forall k | 0 <= k < |s.changes|
      ensures s.changes[k].call != i
    {
      assert ChangeSound(s, s.changes[k]);
      FinishedCallOf(s, s.changes[k]);
    }
  }

  /** A lost statement, or a lost reply, ends the call in a server error; a lost request changes nothing else. */
  lemma LossesFailTheCall(s: System, i: nat, d: Delivery, answer: Answer)
    requires i < |s.calls| && d != Delivered
    requires !(s.calls[i].phase.Arrived? && Refusal(s.calls[i].claims, s.calls[i].request).Some?)
    requires Issues(s.calls[i]).Some? || (s.calls[i].request.Advance? && s.calls[i].phase.Arrived?)
    ensures var t := Next(s, Step(i, d, answer));
            && |t.calls| == |s.calls| && t.calls[i].phase.Finished? && t.calls[i].phase.reply == ServerError
            && (d == LostRequest ==> t == s.(calls := s.calls[i := t.calls[i]]))
            && (d == LostReply ==>
                  && t.rows == Next(s, Step(i, Delivered, answer)).rows
                  && t.changes == Next(s, Step(i, Delivered, answer)).changes)
  {
    hide AdvanceRefusal, Refusal, Matches, Updated, ConclusionNamed;
  }

  /** Steps that nothing comes between do what the handler does on its own. */
  lemma UndisturbedAdvance(s: System, i: nat, answer: Answer)
    requires i < |s.calls| && s.calls[i].request.Advance? && s.calls[i].phase.Arrived? && s.calls[i].claims.valid
    ensures var c, step := s.calls[i], Step(i, Delivered, answer);
            var t := Next(Next(Next(s, step), step), step);
            var refusal := AdvanceRefusal(c.claims, c.request,
                                          if c.request.id in s.rows then Some(s.rows[c.request.id]) else None);
            && t.calls[i].phase.Finished?
            && (if refusal.Some? then t.rows == s.rows && t.calls[i].phase.reply == refusal.value
                else
                  && t.calls[i].phase.reply == Success
                  && c.request.id in s.rows && c.request.id in t.rows
                  && t.rows == s.rows[c.request.id := t.rows[c.request.id]]
                  && RecordsOutcome(c.request, answer, s.rows[c.request.id], t.rows[c.request.id]))
  {
    hide ConclusionNamed, MayAdvance, HasAsset, Updated, RecordsOutcome;
    if s.calls[i].request.id in s.rows {
      AdvanceLeaves(s.calls[i].request, answer, s.rows[s.calls[i].request.id]);
    }
  }

  /** A call other than an advance, from its arrival to its end, when nothing comes between its statements. */
  function Alone(s: System, i: nat, answer: Answer): System {
    var t := Next(s, Step(i, Delivered, answer));
    if i < |t.calls| && t.calls[i].phase.Retrying? then Next(t, Step(i, Delivered, answer)) else t
  }

  /** Which rows each of the other requests changes, and to what: an assignment open and assigned ones, a closing resolved
      ones, a cancellation open and assigned ones. */
  lemma UndisturbedOthers(s: System, i: nat, answer: Answer)
    requires i < |s.calls| && !s.calls[i].request.Advance? && s.calls[i].phase.Arrived?
    ensures var c, t := s.calls[i], Alone(s, i, answer);
            var id, known := c.request.id, c.request.id in s.rows;
            var pending := known && (s.rows[id].status == Open || s.rows[id].status == Assigned);
            && |t.calls| == |s.calls| && t.calls[i].phase.Finished?
            && if Refusal(c.claims, c.request).Some?
               then t.rows == s.rows && t.calls[i].phase.reply == Refusal(c.claims, c.request).value
               else if if c.request.Close? then known && s.rows[id].status == Resolved else pending
               then
                 && t.calls[i].phase.reply == Success
                 && t.rows == s.rows[id :=
                      match c.request
                      case Assign(_, who, role) =>
                        s.rows[id].(status := Assigned, assigneeId := Some(who), assigneeRole := Some(role))
                      case Close(_) => s.rows[id].(status := Closed)
                      case _ => s.rows[id].(status := Cancelled)]
               else t.rows == s.rows && t.calls[i].phase.reply == Conflict
  {
    hide Refusal, AdvanceRefusal, StepRead, StepDownstream;
  }

  // ---- What the compare-and-swap does not promise ----

  /** An advance whose protocol call has succeeded can still find its workorder cancelled: the statement then affects no
      row, and the success stays unrecorded. */
  lemma SuccessWithoutRecord(s: System, i: nat, j: nat, answer: Answer)
    requires i < |s.calls| && j < |s.calls| && s.calls[i].phase.Concluded? && s.calls[i].request.Advance?
    requires s.calls[j].request == Cancel(s.calls[i].request.id) && s.calls[j].phase == Retrying
    requires CallsSound(s) && s.calls[i].request.id in s.rows && s.rows[s.calls[i].request.id].status == Assigned
    ensures var id := s.calls[i].request.id;
            var after := Next(Next(s, Step(j, Delivered, answer)), Step(i, Delivered, answer));
            && after.rows == s.rows[id := s.rows[id].(status := Cancelled)]
            && after.calls[i].phase.Finished? && after.calls[i].phase.reply == Conflict
            && after.downstream == s.downstream
  {
    hide ConclusionNamed, Concluding, AdvanceRefusal, Backed, MayAdvance;
    SoundAt(s, i);
  }

  lemma RunPlus(events: seq<Event>, e: Event)
    ensures Run(events + [e]) == Next(Run(events), e)
  {
    assert (events + [e])[..|events|] == events;
  }

  const PLATFORM := Claims(true, "p", "Platform")

  /** The requests of the run below: an assignment, an advance by freezing, and a cancellation. */
  function Racing(id: string): seq<Request> {
    [Assign(id, "a", "Moderator"), Advance(id, "c", "freeze"), Cancel(id)]
  }

  lemma RaceSetUp(id: string, assetId: string)
    returns (events: seq<Event>)
    ensures Run(events) == System(
      map[id := Workorder(Assigned, Some(assetId), Some("a"), Some("Moderator"), None, None, None)],
      [Call(PLATFORM, Racing(id)[0], Finished(Success, None)), Call(PLATFORM, Racing(id)[1], Arrived),
       Call(PLATFORM, Racing(id)[2], Arrived)],
      [], [Change(0, id, Open, Assigned)])
  {
    hide Run, ConclusionNamed;
    var none := Answer(false, "");
    events := [];
    assert Run(events) == System(map[], [], [], []) by { EmptyRun(); }
    RunPlus(events, Create(id, Some(assetId)));
    events := events + [Create(id, Some(assetId))];
    RunPlus(events, Arrive(PLATFORM, Racing(id)[0]));
    events := events + [Arrive(PLATFORM, Racing(id)[0])];
    RunPlus(events, Step(0, Delivered, none));
    events := events + [Step(0, Delivered, none)];
    RunPlus(events, Arrive(PLATFORM, Racing(id)[1]));
    events := events + [Arrive(PLATFORM, Racing(id)[1])];
    RunPlus(events, Arrive(PLATFORM, Racing(id)[2]));
    events := events + [Arrive(PLATFORM, Racing(id)[2])];
  }

  lemma EmptyRun()
    ensures Run([]) == System(map[], [], [], [])
  {
  }

  /** Such a race does happen: a cancelled workorder whose asset the protocol service has frozen for it. */
  lemma CancelledAfterFreezing(id: string, assetId: string) returns (events: seq<Event>)
    requires assetId != ""
    ensures var s := Run(events);
            && id in s.rows && s.rows[id].status == Cancelled && s.rows[id].assetId == Some(assetId)
            && s.rows[id].conclusion.None?
            && s.downstream == [Downstream(1, Freeze, assetId, true)]
  {
    hide Run;
    var done := Answer(true, "");
    events := RaceSetUp(id, assetId);
    RunPlus(events, Step(1, Delivered, done));
    events := events + [Step(1, Delivered, done)];
    RunPlus(events, Step(1, Delivered, done));
    events := events + [Step(1, Delivered, done)];
    RunPlus(events, Step(2, Delivered, done));
    events := events + [Step(2, Delivered, done)];
    CallsAlwaysSound(events);
    SuccessWithoutRecord(Run(events), 1, 2, done);
    RunPlus(events, Step(2, Delivered, done));
    events := events + [Step(2, Delivered, done)];
    RunPlus(events, Step(1, Delivered, done));
    events := events + [Step(1, Delivered, done)];
  }
}
