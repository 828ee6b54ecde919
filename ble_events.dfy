/**
 * Classification of the events fetched from the SoftDevice. An event id is
 * routed by the first inclusive range BASE..=LAST that holds it to one of
 * four category handlers (common, GAP, GATT client, GATT server), or is
 * reported as an invalid id. Each handler names the sub-event or reports an
 * unknown id. Handlers only log, so the model of a handler is the sub-event
 * it recognises and the level at which it logs.
 *
 * The numeric ids come from the SoftDevice bindings, which are not part of
 * this model: they are the parameters in `EventIds`.
 */
module BleEvents {
  import opened Machine

  datatype CommonEvt = UserMemRequest | UserMemRelease

  datatype GapEvt =
    | AdvSetTerminated | AuthKeyRequest | AuthStatus | Connected | ConnParamUpdate
    | ConnSecUpdate | Disconnected | KeyPressed | PasskeyDisplay | PhyUpdate
    | PhyUpdateRequest | RssiChanged | ScanReqReport | SecInfoRequest
    | SecParamsRequest | SecRequest | GapTimeout

  datatype GattsEvt =
    | ExchangeMtuRequest | Hvc | HvnTxComplete | RwAuthorizeRequest | ScConfirm
    | SysAttrMissing | GattsTimeout | Write

  /** The arms of each handler's match, in source order. */
  const COMMON_ARMS: seq<CommonEvt> := [UserMemRequest, UserMemRelease]
  const GAP_ARMS: seq<GapEvt> :=
    [ AdvSetTerminated, AuthKeyRequest, AuthStatus, Connected, ConnParamUpdate,
      ConnSecUpdate, Disconnected, KeyPressed, PasskeyDisplay, PhyUpdate,
      PhyUpdateRequest, RssiChanged, ScanReqReport, SecInfoRequest,
      SecParamsRequest, SecRequest, GapTimeout ]
  const GATTS_ARMS: seq<GattsEvt> :=
    [ ExchangeMtuRequest, Hvc, HvnTxComplete, RwAuthorizeRequest, ScConfirm,
      SysAttrMissing, GattsTimeout, Write ]

  ghost predicate Injective<E(!new)>(f: E -> u32) {
    forall a, b :: f(a) == f(b) ==> a == b
  }

  /** The event-id constants of the SoftDevice bindings. */
  datatype EventIds = EventIds(
    evtBase: u32, evtLast: u32,
    gapBase: u32, gapLast: u32,
    gattcBase: u32, gattcLast: u32,
    gattsBase: u32, gattsLast: u32,
    commonId: CommonEvt -> u32,
    gapId: GapEvt -> u32,
    gattsId: GattsEvt -> u32)
  {
    /** Ordered, disjoint, non-empty ranges; distinct sub-event ids inside their category's range. */
    ghost predicate Valid() {
      && evtBase <= evtLast < gapBase <= gapLast < gattcBase <= gattcLast < gattsBase <= gattsLast
      && Injective(commonId) && Injective(gapId) && Injective(gattsId)
      && (forall e :: evtBase <= commonId(e) <= evtLast)
      && (forall e :: gapBase <= gapId(e) <= gapLast)
      && (forall e :: gattsBase <= gattsId(e) <= gattsLast)
    }
  }

  /** The first arm whose id is `id`: the arm a Rust `match` on constants takes. */
  function FirstMatch<E>(arms: seq<E>, idOf: E -> u32, id: u32): (r: Option<E>)
    ensures r.Some? ==> r.value in arms && idOf(r.value) == id
    ensures r.None? <==> forall i :: 0 <= i < |arms| ==> idOf(arms[i]) != id
  {
    if arms == [] then None
    else if idOf(arms[0]) == id then Some(arms[0])
    else FirstMatch(arms[1..], idOf, id)
  }

  /** With distinct ids, the arm of an event's own id is that event. */
  lemma FirstMatchOwnId<E>(arms: seq<E>, idOf: E -> u32, e: E)
    requires e in arms
    requires forall a, b :: a in arms && b in arms && idOf(a) == idOf(b) ==> a == b
    ensures FirstMatch(arms, idOf, idOf(e)) == Some(e)
  {
    var k :| 0 <= k < |arms| && arms[k] == e;
  }

  /** When every value is an arm, the catch-all arm is taken exactly for ids no value has. */
  lemma CompleteArmsMatchNamedIds<E(!new)>(arms: seq<E>, idOf: E -> u32, id: u32)
    requires forall e: E :: e in arms
    ensures FirstMatch(arms, idOf, id).None? <==> forall e :: idOf(e) != id
  {
    if FirstMatch(arms, idOf, id).None? {
      forall e: E ensures idOf(e) != id {
        assert e in arms;
        var i :| 0 <= i < |arms| && arms[i] == e;
      }
    }
  }

  /** Every constructor appears as an arm. */
  lemma ArmsAreComplete()
    ensures forall e: CommonEvt :: e in COMMON_ARMS
    ensures forall e: GapEvt :: e in GAP_ARMS
    ensures forall e: GattsEvt :: e in GATTS_ARMS
  {
    forall e: CommonEvt ensures e in COMMON_ARMS {
      match e
      case UserMemRequest => assert COMMON_ARMS[0] == e;
      case UserMemRelease => assert COMMON_ARMS[1] == e;
    }
    forall e: GapEvt ensures e in GAP_ARMS {
      match e
      case AdvSetTerminated => assert GAP_ARMS[0] == e;
      case AuthKeyRequest => assert GAP_ARMS[1] == e;
      case AuthStatus => assert GAP_ARMS[2] == e;
      case Connected => assert GAP_ARMS[3] == e;
      case ConnParamUpdate => assert GAP_ARMS[4] == e;
      case ConnSecUpdate => assert GAP_ARMS[5] == e;
      case Disconnected => assert GAP_ARMS[6] == e;
      case KeyPressed => assert GAP_ARMS[7] == e;
      case PasskeyDisplay => assert GAP_ARMS[8] == e;
      case PhyUpdate => assert GAP_ARMS[9] == e;
      case PhyUpdateRequest => assert GAP_ARMS[10] == e;
      case RssiChanged => assert GAP_ARMS[11] == e;
      case ScanReqReport => assert GAP_ARMS[12] == e;
      case SecInfoRequest => assert GAP_ARMS[13] == e;
      case SecParamsRequest => assert GAP_ARMS[14] == e;
      case SecRequest => assert GAP_ARMS[15] == e;
      case GapTimeout => assert GAP_ARMS[16] == e;
    }
    forall e: GattsEvt ensures e in GATTS_ARMS {
      match e
      case ExchangeMtuRequest => assert GATTS_ARMS[0] == e;
      case Hvc => assert GATTS_ARMS[1] == e;
      case HvnTxComplete => assert GATTS_ARMS[2] == e;
      case RwAuthorizeRequest => assert GATTS_ARMS[3] == e;
      case ScConfirm => assert GATTS_ARMS[4] == e;
      case SysAttrMissing => assert GATTS_ARMS[5] == e;
      case GattsTimeout => assert GATTS_ARMS[6] == e;
      case Write => assert GATTS_ARMS[7] == e;
    }
  }

  datatype Handled =
    | CommonHandled(id: u32, common: Option<CommonEvt>)
    | GapHandled(id: u32, gap: Option<GapEvt>)
    | GattcIgnored(id: u32)
    | GattsHandled(id: u32, gatts: Option<GattsEvt>)
    | InvalidId(id: u32)

  /** The common event an id names, or None when it names none (the catch-all arm). */
  function HandleCommonEvt(ids: EventIds, id: u32): (r: Option<CommonEvt>)
    ensures r.Some? ==> ids.commonId(r.value) == id
    ensures r.None? <==> forall e :: ids.commonId(e) != id
  {
    ArmsAreComplete();
    CompleteArmsMatchNamedIds(COMMON_ARMS, ids.commonId, id);
    FirstMatch(COMMON_ARMS, ids.commonId, id)
  }

  /** The GAP event an id names, or None when it names none (the catch-all arm). */
  function HandleGapEvt(ids: EventIds, id: u32): (r: Option<GapEvt>)
    ensures r.Some? ==> ids.gapId(r.value) == id
    ensures r.None? <==> forall e :: ids.gapId(e) != id
  {
    ArmsAreComplete();
    CompleteArmsMatchNamedIds(GAP_ARMS, ids.gapId, id);
    FirstMatch(GAP_ARMS, ids.gapId, id)
  }

  /** The GATTS event an id names, or None when it names none (the catch-all arm). */
  function HandleGattsEvt(ids: EventIds, id: u32): (r: Option<GattsEvt>)
    ensures r.Some? ==> ids.gattsId(r.value) == id
    ensures r.None? <==> forall e :: ids.gattsId(e) != id
  {
    ArmsAreComplete();
    CompleteArmsMatchNamedIds(GATTS_ARMS, ids.gattsId, id);
    FirstMatch(GATTS_ARMS, ids.gattsId, id)
  }

  /** Routes an event id to the handler of the first range that holds it. */
  function Dispatch(ids: EventIds, id: u32): (h: Handled)
    ensures h.id == id
    ensures h.CommonHandled? ==> ids.evtBase <= id <= ids.evtLast
    ensures h.GapHandled? ==> ids.gapBase <= id <= ids.gapLast
    ensures h.GattcIgnored? ==> ids.gattcBase <= id <= ids.gattcLast
    ensures h.GattsHandled? ==> ids.gattsBase <= id <= ids.gattsLast
    ensures h.InvalidId? ==>
      !(ids.evtBase <= id <= ids.evtLast) && !(ids.gapBase <= id <= ids.gapLast) &&
      !(ids.gattcBase <= id <= ids.gattcLast) && !(ids.gattsBase <= id <= ids.gattsLast)
  {
    if ids.evtBase <= id <= ids.evtLast then CommonHandled(id, HandleCommonEvt(ids, id))
    else if ids.gapBase <= id <= ids.gapLast then GapHandled(id, HandleGapEvt(ids, id))
    else if ids.gattcBase <= id <= ids.gattcLast then GattcIgnored(id)
    else if ids.gattsBase <= id <= ids.gattsLast then GattsHandled(id, HandleGattsEvt(ids, id))
    else InvalidId(id)
  }

  /**
   * Over ordered, disjoint ranges each event reaches the handler of exactly
   * the range holding its id, and only an id outside all four is invalid.
   */
  lemma DispatchFollowsRanges(ids: EventIds, id: u32)
    requires ids.Valid()
    ensures Dispatch(ids, id).CommonHandled? <==> ids.evtBase <= id <= ids.evtLast
    ensures Dispatch(ids, id).GapHandled? <==> ids.gapBase <= id <= ids.gapLast
    ensures Dispatch(ids, id).GattcIgnored? <==> ids.gattcBase <= id <= ids.gattcLast
    ensures Dispatch(ids, id).GattsHandled? <==> ids.gattsBase <= id <= ids.gattsLast
    ensures Dispatch(ids, id).InvalidId? <==>
      !(ids.evtBase <= id <= ids.evtLast) && !(ids.gapBase <= id <= ids.gapLast) &&
      !(ids.gattcBase <= id <= ids.gattcLast) && !(ids.gattsBase <= id <= ids.gattsLast)
    ensures Dispatch(ids, id).id == id
  {
  }

  /** Every named sub-event reaches its own arm. */
  lemma DispatchRecognisesNamedEvents(ids: EventIds)
    requires ids.Valid()
    ensures forall e :: Dispatch(ids, ids.commonId(e)) == CommonHandled(ids.commonId(e), Some(e))
    ensures forall e :: Dispatch(ids, ids.gapId(e)) == GapHandled(ids.gapId(e), Some(e))
    ensures forall e :: Dispatch(ids, ids.gattsId(e)) == GattsHandled(ids.gattsId(e), Some(e))
  {
    ArmsAreComplete();
    forall e: CommonEvt ensures HandleCommonEvt(ids, ids.commonId(e)) == Some(e) {
      FirstMatchOwnId(COMMON_ARMS, ids.commonId, e);
    }
    forall e: GapEvt ensures HandleGapEvt(ids, ids.gapId(e)) == Some(e) {
      FirstMatchOwnId(GAP_ARMS, ids.gapId, e);
    }
    forall e: GattsEvt ensures HandleGattsEvt(ids, ids.gattsId(e)) == Some(e) {
      FirstMatchOwnId(GATTS_ARMS, ids.gattsId, e);
    }
  }

  datatype Level = Debug | Info | Error

  /** The level at which the handler of a dispatched event logs, None when it logs nothing. */
  function LogLevel(h: Handled): (l: Option<Level>)
    ensures l.None? <==> h == GapHandled(h.id, Some(ScanReqReport))
  {
    match h
    case CommonHandled(_, _) => Some(Error)   // memory requests and releases are not handled
    case GapHandled(_, None) => Some(Error)
    case GapHandled(_, Some(e)) =>
      if e == Connected || e == Disconnected then Some(Info)
      else if e == ScanReqReport then None
      else Some(Debug)
    case GattcIgnored(_) => Some(Error)
    case GattsHandled(_, None) => Some(Error)
    case GattsHandled(_, Some(e)) => if e == GattsTimeout then Some(Error) else Some(Debug)
    case InvalidId(_) => Some(Error)
  }

  /**
   * Over ordered, disjoint ranges, every id the firmware cannot name is
   * logged as an error, as are all common and GATTC events.
   */
  lemma UnknownIdsLogErrors(ids: EventIds, id: u32)
    requires ids.Valid()
    ensures (&& !(ids.evtBase <= id <= ids.evtLast) && !(ids.gapBase <= id <= ids.gapLast)
             && !(ids.gattcBase <= id <= ids.gattcLast) && !(ids.gattsBase <= id <= ids.gattsLast))
            ==> LogLevel(Dispatch(ids, id)) == Some(Error)
    ensures ids.evtBase <= id <= ids.evtLast ==> LogLevel(Dispatch(ids, id)) == Some(Error)
    ensures ids.gattcBase <= id <= ids.gattcLast ==> LogLevel(Dispatch(ids, id)) == Some(Error)
    ensures (ids.gapBase <= id <= ids.gapLast && forall e :: ids.gapId(e) != id)
            ==> LogLevel(Dispatch(ids, id)) == Some(Error)
    ensures (ids.gattsBase <= id <= ids.gattsLast && forall e :: ids.gattsId(e) != id)
            ==> LogLevel(Dispatch(ids, id)) == Some(Error)
  {
    DispatchFollowsRanges(ids, id);
  }

  /**
   * The level of every outcome: an id no arm recognises, every GATTC event,
   * every common event and the GATTS timeout are errors; connection and
   * disconnection are info; a scan-request report is silent; every other
   * named GAP or GATTS event is debug.
   */
  lemma HandlerLogLevels(h: Handled)
    ensures (|| h.InvalidId? || h.GattcIgnored? || h == GapHandled(h.id, None)
             || h == GattsHandled(h.id, None)) ==> LogLevel(h) == Some(Error)
    ensures h.CommonHandled? ==> LogLevel(h) == Some(Error)
    ensures h == GattsHandled(h.id, Some(GattsTimeout)) ==> LogLevel(h) == Some(Error)
    ensures (|| h == GapHandled(h.id, Some(Connected))
             || h == GapHandled(h.id, Some(Disconnected))) ==> LogLevel(h) == Some(Info)
    ensures (&& h.GapHandled? && h.gap.Some?
             && h.gap.value !in {Connected, Disconnected, ScanReqReport}) ==> LogLevel(h) == Some(Debug)
    ensures (h.GattsHandled? && h.gatts.Some? && h.gatts.value != GattsTimeout) ==> LogLevel(h) == Some(Debug)
    ensures LogLevel(h).None? <==> h == GapHandled(h.id, Some(ScanReqReport))
  {
  }
}
