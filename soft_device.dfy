/**
 * The SoftDevice adapter: the advertising, scan-response and device-name
 * buffers built once by the constructor, the bring-up `Init`, and the event
 * drain `HandleEvtNotify`, which dispatches every event the SoftDevice hands
 * out until it reports an empty queue.
 */
module SoftDeviceAdapter {
  import opened Machine
  import opened Nrf
  import opened BringUp
  import opened Advertising
  import opened BleEvents

  /** Flags (LE General Discoverable, BR/EDR not supported), then the shortened local name. */
  const ADV_DATA: seq<u8> :=
    [ 2, 0x01, 0x06,
      6, 0x08, 'R' as int, 'u' as int, 's' as int, 't' as int, 'y' as int ]

  /** The complete local name. */
  const SCAN_RESP: seq<u8> :=
    [ 11, 0x09, 'R' as int, 'u' as int, 's' as int, 't' as int, 'y' as int,
      'R' as int, 'o' as int, 'v' as int, 'e' as int, 'r' as int ]

  const DEV_NAME: seq<u8> :=
    [ 'R' as int, 'u' as int, 's' as int, 't' as int, 'y' as int,
      'R' as int, 'o' as int, 'v' as int, 'e' as int, 'r' as int ]

  /** The AD structures the advertising buffer holds. */
  lemma AdvDataIsFlagsAndShortenedName()
    ensures Parse(ADV_DATA) == Some([ AdStructure(AD_TYPE_FLAGS, [0x06]),
                                      AdStructure(AD_TYPE_SHORTENED_LOCAL_NAME, DEV_NAME[..5]) ])
    ensures 0x06 as bv8 == FLAG_LE_GENERAL_DISCOVERABLE | FLAG_BR_EDR_NOT_SUPPORTED
    ensures IsShortenedNameOf(DEV_NAME[..5], DEV_NAME)
    ensures |ADV_DATA| == 10 <= MAX_LEGACY_PAYLOAD
    ensures Field(Parse(ADV_DATA).value, AD_TYPE_FLAGS) == Some([0x06])
    ensures Field(Parse(ADV_DATA).value, AD_TYPE_SHORTENED_LOCAL_NAME) == Some(DEV_NAME[..5])
    ensures Field(Parse(ADV_DATA).value, AD_TYPE_COMPLETE_LOCAL_NAME) == None
  {
    var flags := AdStructure(AD_TYPE_FLAGS, [0x06]);
    var name := AdStructure(AD_TYPE_SHORTENED_LOCAL_NAME, DEV_NAME[..5]);
    var ads := [flags, name];
    assert [name][1..] == [];
    assert Encode([name]) == [6, 0x08] + DEV_NAME[..5];
    assert DEV_NAME[..5] == ADV_DATA[5..];
    assert ads[1..] == [name];
    assert Encode(ads) == [2, 0x01, 0x06] + Encode([name]);
    assert Encode(ads) == ADV_DATA;
    ParseEncode(ads);
  }

  /** The scan-response buffer holds exactly the complete local name, which is the device name. */
  lemma ScanRespIsCompleteName()
    ensures Parse(SCAN_RESP) == Some([AdStructure(AD_TYPE_COMPLETE_LOCAL_NAME, DEV_NAME)])
    ensures |SCAN_RESP| == 12 <= MAX_LEGACY_PAYLOAD
    ensures Field(Parse(SCAN_RESP).value, AD_TYPE_COMPLETE_LOCAL_NAME) == Some(DEV_NAME)
  {
    var ads := [AdStructure(AD_TYPE_COMPLETE_LOCAL_NAME, DEV_NAME)];
    assert Encode(ads[1..]) == [];
    assert Encode(ads) == SCAN_RESP;
    ParseEncode(ads);
  }

  /** One answer of sd_ble_evt_get: the status, the id of the event written, the length written back. */
  datatype EvtReply = EvtReply(status: u32, evtId: u16, len: u16)

  datatype EvtGetFailure = InvalidAddr | BufferTooSmall | UnexpectedStatus(code: u32)

  /** What the drain loop does with one answer other than "queue empty". */
  datatype DrainStep = Dispatched(handled: Handled) | GetFailed(failure: EvtGetFailure)

  /** The SoftDevice eventually reports an empty queue. */
  predicate Drains(rs: seq<EvtReply>) {
    exists i :: 0 <= i < |rs| && rs[i].status == NRF_ERROR_NOT_FOUND
  }

  /** The number of answers before the first "queue empty". */
  function Pending(rs: seq<EvtReply>): (n: nat)
    requires Drains(rs)
    ensures n < |rs| && rs[n].status == NRF_ERROR_NOT_FOUND
    ensures forall j :: 0 <= j < n ==> rs[j].status != NRF_ERROR_NOT_FOUND
  {
    if rs[0].status == NRF_ERROR_NOT_FOUND then 0
    else
      assert Drains(rs[1..]) by {
        var i :| 0 <= i < |rs| && rs[i].status == NRF_ERROR_NOT_FOUND;
        assert rs[1..][i - 1] == rs[i];
      }
      1 + Pending(rs[1..])
  }

  /** The drain step for an answer other than "queue empty". */
  function StepFor(ids: EventIds, r: EvtReply): (s: DrainStep)
    requires r.status != NRF_ERROR_NOT_FOUND
    ensures s.Dispatched? <==> r.status == NRF_SUCCESS
    ensures s.Dispatched? ==> s.handled == Dispatch(ids, r.evtId)
    ensures s == GetFailed(InvalidAddr) <==> r.status == NRF_ERROR_INVALID_ADDR
    ensures s == GetFailed(BufferTooSmall) <==> r.status == NRF_ERROR_DATA_SIZE
    ensures s.GetFailed? && s.failure.UnexpectedStatus? ==>
      s.failure.code == r.status && r.status !in {NRF_SUCCESS, NRF_ERROR_INVALID_ADDR, NRF_ERROR_DATA_SIZE}
  {
    if r.status == NRF_SUCCESS then Dispatched(Dispatch(ids, r.evtId))
    else if r.status == NRF_ERROR_INVALID_ADDR then GetFailed(InvalidAddr)
    else if r.status == NRF_ERROR_DATA_SIZE then GetFailed(BufferTooSmall)
    else GetFailed(UnexpectedStatus(r.status))
  }

  /** The events handed to `Dispatch`, in order. */
  function Handlers(steps: seq<DrainStep>): seq<Handled> {
    if steps == [] then []
    else (if steps[0].Dispatched? then [steps[0].handled] else []) + Handlers(steps[1..])
  }

  /** The ids of the events fetched with NRF_SUCCESS, in order. */
  function SuccessIds(rs: seq<EvtReply>): seq<u32> {
    if rs == [] then []
    else (if rs[0].status == NRF_SUCCESS then [rs[0].evtId as u32] else []) + SuccessIds(rs[1..])
  }

  function DispatchAll(ids: EventIds, evtIds: seq<u32>): (hs: seq<Handled>)
    ensures |hs| == |evtIds| && forall k :: 0 <= k < |evtIds| ==> hs[k] == Dispatch(ids, evtIds[k])
  {
    if evtIds == [] then [] else [Dispatch(ids, evtIds[0])] + DispatchAll(ids, evtIds[1..])
  }

  /**
   * Each NRF_SUCCESS answer is dispatched exactly once, in order, and no
   * other answer is: the handlers called are those of the successful
   * events, so their number is the number of successes.
   */
  lemma {:induction false} DispatchesExactlySuccesses(ids: EventIds, rs: seq<EvtReply>, steps: seq<DrainStep>)
    requires forall k :: 0 <= k < |rs| ==> rs[k].status != NRF_ERROR_NOT_FOUND
    requires |steps| == |rs| && forall k :: 0 <= k < |rs| ==> steps[k] == StepFor(ids, rs[k])
    ensures Handlers(steps) == DispatchAll(ids, SuccessIds(rs))
    ensures |Handlers(steps)| == |SuccessIds(rs)|
  {
    if rs != [] {
      DispatchesExactlySuccesses(ids, rs[1..], steps[1..]);
    }
  }

  class SoftDevice {
    const advData: array<u8>
    const scanResp: array<u8>
    const devName: array<u8>
    const connSecMode: SecMode

    constructor ()
      ensures advData[..] == ADV_DATA && scanResp[..] == SCAN_RESP && devName[..] == DEV_NAME
      ensures connSecMode == OPEN_LINK
      ensures fresh(advData) && fresh(scanResp) && fresh(devName)
    {
      advData := new u8[|ADV_DATA|](i requires 0 <= i < |ADV_DATA| => ADV_DATA[i]);
      scanResp := new u8[|SCAN_RESP|](i requires 0 <= i < |SCAN_RESP| => SCAN_RESP[i]);
      devName := new u8[|DEV_NAME|](i requires 0 <= i < |DEV_NAME| => DEV_NAME[i]);
      connSecMode := OPEN_LINK;
      new;
      assert advData[..] == ADV_DATA;
      assert scanResp[..] == SCAN_RESP;
      assert devName[..] == DEV_NAME;
    }

    /**
     * Enables the SoftDevice and starts advertising. `reply(s)` is the status
     * the SoftDevice returns for step `s`; `assignedHandle` is the handle that
     * sd_ble_gap_adv_set_configure writes back. Returns whether bring-up
     * succeeded and the SoftDevice calls made, in order.
     */
    method Init(reply: Step -> u32, assignedHandle: u8) returns (ok: bool, calls: seq<SdCall>)
      ensures calls == Plan(advData[..], scanResp[..], devName[..], connSecMode, assignedHandle)[..Issued(STEPS, reply)]
      ensures ok <==> Succeeds(reply)
    {
      ghost var plan := Plan(advData[..], scanResp[..], devName[..], connSecMode, assignedHandle);
      calls := [SdSoftdeviceEnable(SD_CLK_CONF)];
      if reply(SoftdeviceEnable) != NRF_SUCCESS {
        IssuedStopsAt(STEPS, reply, 0);
        return false, calls;
      }

      var appRamBase: u32 := 0x2000_0000 + 0x1AE0;
      calls := calls + [SdBleEnable(appRamBase)];
      if reply(BleEnable) != NRF_SUCCESS {
        IssuedStopsAt(STEPS, reply, 1);
        return false, calls;
      }

      // The MAC address and the appearance are read for the log only.
      calls := calls + [SdBleGapAddrGet];
      calls := calls + [SdBleGapAppearanceGet];

      calls := calls + [SdBleGapDeviceNameSet(connSecMode, devName[..], devName.Length % 0x1_0000)];
      if reply(GapDeviceNameSet) != NRF_SUCCESS {
        IssuedStopsAt(STEPS, reply, 4);
        return false, calls;
      }

      var advHandle: u8 := BLE_GAP_ADV_SET_HANDLE_NOT_SET;
      calls := calls + [SdBleGapAdvSetConfigure(advHandle, advData[..], scanResp[..], ADV_PARAMS)];
      advHandle := assignedHandle;
      var configOk := false;
      if reply(GapAdvSetConfigure) == NRF_SUCCESS {
        configOk := true;
      }
      if !configOk {
        IssuedStopsAt(STEPS, reply, 5);
        return false, calls;
      }

      // A failure to start advertising is only logged.
      calls := calls + [SdBleGapAdvStart(advHandle, BLE_CONN_CFG_TAG_DEFAULT)];
      IssuedWhenAllPass(STEPS, reply);
      assert calls == plan;
      ok := true;
    }

    /**
     * Fetches events until the SoftDevice reports an empty queue. `rs[k]` is
     * the answer to the k-th sd_ble_evt_get; `bufSize` is the size of the
     * event buffer. Returns one step per answer before "queue empty" and the
     * buffer length passed to each call: the length the previous call wrote
     * back, since it is not reset between calls.
     */
    method HandleEvtNotify(ids: EventIds, bufSize: u16, rs: seq<EvtReply>) returns (steps: seq<DrainStep>, lens: seq<u16>)
      requires Drains(rs)
      ensures |steps| == Pending(rs) && |lens| == |steps| + 1
      ensures forall k :: 0 <= k < |steps| ==> steps[k] == StepFor(ids, rs[k])
      ensures lens[0] == bufSize && forall k :: 0 <= k < |steps| ==> lens[k + 1] == rs[k].len
      ensures Handlers(steps) == DispatchAll(ids, SuccessIds(rs[..Pending(rs)]))
    {
      var bufLen := bufSize;
      var i := 0;
      steps, lens := [], [];
      while true
        invariant i <= Pending(rs)
        invariant |steps| == i && |lens| == i
        invariant forall k :: 0 <= k < i ==> steps[k] == StepFor(ids, rs[k])
        invariant i > 0 ==> lens[0] == bufSize
        invariant forall k :: 0 < k < i ==> lens[k] == rs[k - 1].len
        invariant bufLen == if i == 0 then bufSize else rs[i - 1].len
        decreases Pending(rs) - i
      {
        lens := lens + [bufLen];
        var r := rs[i];
        bufLen := r.len;
        if r.status == NRF_SUCCESS {
          steps := steps + [Dispatched(Dispatch(ids, r.evtId))];
        } else if r.status == NRF_ERROR_INVALID_ADDR {
          steps := steps + [GetFailed(InvalidAddr)];
        } else if r.status == NRF_ERROR_NOT_FOUND {
          break;
        } else if r.status == NRF_ERROR_DATA_SIZE {
          steps := steps + [GetFailed(BufferTooSmall)];
        } else {
          steps := steps + [GetFailed(UnexpectedStatus(r.status))];
        }
        i := i + 1;
      }
      DispatchesExactlySuccesses(ids, rs[..Pending(rs)], steps);
    }
  }

  /** Three events followed by "queue empty" make exactly three handler calls, and the pass ends. */
  method DrainThreeEvents(sd: SoftDevice, ids: EventIds, bufSize: u16, a: u16, b: u16, c: u16)
    returns (handled: seq<Handled>, calls: nat)
    ensures handled == [Dispatch(ids, a), Dispatch(ids, b), Dispatch(ids, c)]
    ensures calls == 4
  {
    var rs := [ EvtReply(NRF_SUCCESS, a, 0), EvtReply(NRF_SUCCESS, b, 0), EvtReply(NRF_SUCCESS, c, 0),
                EvtReply(NRF_ERROR_NOT_FOUND, 0, 0) ];
    assert rs[3].status == NRF_ERROR_NOT_FOUND;
    var steps, lens := sd.HandleEvtNotify(ids, bufSize, rs);
    var fetched := rs[..3];
    DispatchesExactlySuccesses(ids, fetched, steps);
    assert SuccessIds(fetched[2..]) == [c as u32] by {
      assert fetched[2..][1..] == [];
    }
    assert SuccessIds(fetched[1..]) == [b as u32, c as u32] by {
      assert fetched[1..][1..] == fetched[2..];
    }
    handled, calls := Handlers(steps), |lens|;
  }
}
