/** The shared vocabulary of the protocol core: states, roles, actions, records and audit events. */
module AssetTypes {
  import opened Wrappers

  datatype AssetState =
    | PreMinted | FactoryLogged | Unassigned | RotatingKeys | EntangledPending | Activated
    | LegallySold | Transferred | Consumed | Legacy | Tampered | Compromised | Destructed | Disputed
  {
    predicate IsTerminal() {
      Consumed? || Legacy? || Tampered? || Compromised? || Destructed?
    }

    predicate IsFrozen() {
      Disputed?
    }

    /** Neither terminal nor frozen: the states a dispute can be opened from and recovered to. */
    predicate IsLive() {
      !IsTerminal() && !Disputed?
    }

    /** The text stored in the `current_state`, `previous_state`, `from_state` and `to_state` columns. */
    function AsDbStr(): string {
      match this
      case PreMinted => "PreMinted"
      case FactoryLogged => "FactoryLogged"
      case Unassigned => "Unassigned"
      case RotatingKeys => "RotatingKeys"
      case EntangledPending => "EntangledPending"
      case Activated => "Activated"
      case LegallySold => "LegallySold"
      case Transferred => "Transferred"
      case Consumed => "Consumed"
      case Legacy => "Legacy"
      case Tampered => "Tampered"
      case Compromised => "Compromised"
      case Destructed => "Destructed"
      case Disputed => "Disputed"
    }
  }

  /** Reading a state column back; any other text is refused. */
  function FromDbStr(value: string): (r: Option<AssetState>)
    ensures r.Some? ==> r.value.AsDbStr() == value
  {
    if value == "PreMinted" then Some(PreMinted)
    else if value == "FactoryLogged" then Some(FactoryLogged)
    else if value == "Unassigned" then Some(Unassigned)
    else if value == "RotatingKeys" then Some(RotatingKeys)
    else if value == "EntangledPending" then Some(EntangledPending)
    else if value == "Activated" then Some(Activated)
    else if value == "LegallySold" then Some(LegallySold)
    else if value == "Transferred" then Some(Transferred)
    else if value == "Consumed" then Some(Consumed)
    else if value == "Legacy" then Some(AssetState.Legacy)
    else if value == "Tampered" then Some(Tampered)
    else if value == "Compromised" then Some(Compromised)
    else if value == "Destructed" then Some(Destructed)
    else if value == "Disputed" then Some(Disputed)
    else None
  }

  lemma DbStrParsesBack(s: AssetState)
    ensures FromDbStr(s.AsDbStr()) == Some(s)
  {
  }

  /** A column parses to a state exactly when it is that state's printed form: nothing is lost on the trip through the
      database, and no two texts stand for the same state. */
  lemma DbStrRoundTrip(s: AssetState, text: string)
    ensures FromDbStr(text) == Some(s) <==> text == s.AsDbStr()
  {
    hide FromDbStr;
    DbStrParsesBack(s);
  }

  datatype ActorRole = Platform | Factory | Brand | Consumer | Moderator
  {
    function AsDbStr(): string {
      match this
      case Platform => "Platform"
      case Factory => "Factory"
      case Brand => "Brand"
      case Consumer => "Consumer"
      case Moderator => "Moderator"
    }
  }

  datatype AssetAction =
    | BlindLog | StockIn | ActivateRotateKeys | ActivateEntangle | ActivateConfirm | LegalSell
    | Transfer | Consume | Legacy | Freeze | Recover | MarkTampered | MarkCompromised | MarkDestructed
  {
    /** The actions that move an asset through its commercial life; the others are moderation. */
    predicate IsBusiness() {
      BlindLog? || StockIn? || ActivateRotateKeys? || ActivateEntangle? || ActivateConfirm? || LegalSell?
      || Transfer? || Consume? || Legacy?
    }

    function AsDbStr(): string {
      match this
      case BlindLog => "BlindLog"
      case StockIn => "StockIn"
      case ActivateRotateKeys => "ActivateRotateKeys"
      case ActivateEntangle => "ActivateEntangle"
      case ActivateConfirm => "ActivateConfirm"
      case LegalSell => "LegalSell"
      case Transfer => "Transfer"
      case Consume => "Consume"
      case Legacy => "Legacy"
      case Freeze => "Freeze"
      case Recover => "Recover"
      case MarkTampered => "MarkTampered"
      case MarkCompromised => "MarkCompromised"
      case MarkDestructed => "MarkDestructed"
    }
  }

  /** The texts the tables' constraints list, in their order, and what they stand for. */
  const STATE_TEXTS: seq<string> :=
    ["PreMinted", "FactoryLogged", "Unassigned", "RotatingKeys", "EntangledPending", "Activated", "LegallySold",
     "Transferred", "Consumed", "Legacy", "Tampered", "Compromised", "Destructed", "Disputed"]

  const STATES: seq<AssetState> :=
    [PreMinted, FactoryLogged, Unassigned, RotatingKeys, EntangledPending, Activated, LegallySold,
     Transferred, Consumed, AssetState.Legacy, Tampered, Compromised, Destructed, Disputed]

  const ACTION_TEXTS: seq<string> :=
    ["BlindLog", "StockIn", "ActivateRotateKeys", "ActivateEntangle", "ActivateConfirm", "LegalSell", "Transfer",
     "Consume", "Legacy", "Freeze", "Recover", "MarkTampered", "MarkCompromised", "MarkDestructed"]

  const ACTIONS: seq<AssetAction> :=
    [BlindLog, StockIn, ActivateRotateKeys, ActivateEntangle, ActivateConfirm, LegalSell, Transfer,
     Consume, AssetAction.Legacy, Freeze, Recover, MarkTampered, MarkCompromised, MarkDestructed]

  lemma StatesPrintAsListed(s: AssetState)
    ensures exists k :: 0 <= k < 14 && STATES[k] == s && STATE_TEXTS[k] == s.AsDbStr()
  {
    var k := match s
      case PreMinted => 0 case FactoryLogged => 1 case Unassigned => 2 case RotatingKeys => 3
      case EntangledPending => 4 case Activated => 5 case LegallySold => 6 case Transferred => 7
      case Consumed => 8 case Legacy => 9 case Tampered => 10 case Compromised => 11 case Destructed => 12
      case Disputed => 13;
    assert STATES[k] == s;
  }

  lemma ActionsPrintAsListed(a: AssetAction)
    ensures exists k :: 0 <= k < 14 && ACTIONS[k] == a && ACTION_TEXTS[k] == a.AsDbStr()
  {
    var k := match a
      case BlindLog => 0 case StockIn => 1 case ActivateRotateKeys => 2 case ActivateEntangle => 3
      case ActivateConfirm => 4 case LegalSell => 5 case Transfer => 6 case Consume => 7 case Legacy => 8
      case Freeze => 9 case Recover => 10 case MarkTampered => 11 case MarkCompromised => 12 case MarkDestructed => 13;
    assert ACTIONS[k] == a;
  }

  datatype AssetRecord = AssetRecord(
    assetId: string, brandId: string, current: AssetState, previous: Option<AssetState>)

  datatype AuditContext = AuditContext(
    traceId: string, actorId: string, role: ActorRole, actorOrg: Option<string>, idempotencyKey: string,
    approvalId: Option<string>, policyVersion: Option<string>, buyerId: Option<string>)

  datatype AuditEvent = AuditEvent(
    eventId: string, assetId: string, action: AssetAction, from: AssetState, to: AssetState, context: AuditContext)

  datatype RcError =
    | TerminalState | FrozenAsset | PermissionDenied | InvalidStateTransition | InvalidInput
    | AssetNotFound | IdempotencyConflict | BrandBoundaryViolation | Forbidden | Conflict | NotFound | Database
}
