/**
 * The stand-alone SoftDevice bring-up binary: the same bring-up sequence as
 * the adapter, written inline in RTIC's idle task with its own local
 * buffers. A fatal failure parks idle in an endless loop at that step; so
 * does success, after the advertising start. Only a blink task runs beside
 * it, at a fixed 500 ms period, and the SWI2 handler merely logs.
 */
module RticBringUp {
  import opened Machine
  import opened Nrf
  import opened BringUp
  import opened Advertising
  import opened SoftDeviceAdapter
  import opened Indicator
  import opened Priorities

  /** Flags 0x06 and the shortened local name "Rusty". */
  const LOCAL_ADV_DATA: seq<u8> :=
    [2, 0x01, 0x06, 6, 0x08, 'R' as int, 'u' as int, 's' as int, 't' as int, 'y' as int]

  /** The complete local name "RustyRover". */
  const LOCAL_SCAN_RESP: seq<u8> :=
    [11, 0x09, 'R' as int, 'u' as int, 's' as int, 't' as int, 'y' as int,
     'R' as int, 'o' as int, 'v' as int, 'e' as int, 'r' as int]

  const LOCAL_DEV_NAME: seq<u8> :=
    ['R' as int, 'u' as int, 's' as int, 't' as int, 'y' as int,
     'R' as int, 'o' as int, 'v' as int, 'e' as int, 'r' as int]

  /** The binary advertises exactly what the adapter advertises. */
  lemma LocalBuffersMatchAdapter()
    ensures LOCAL_ADV_DATA == ADV_DATA && LOCAL_SCAN_RESP == SCAN_RESP && LOCAL_DEV_NAME == DEV_NAME
    ensures Parse(LOCAL_ADV_DATA).Some? && Parse(LOCAL_SCAN_RESP).Some?
  {
    AdvDataIsFlagsAndShortenedName();
    ScanRespIsCompleteName();
  }

  datatype Task = Init | Idle | Blink | SoftdevEventNotify | Monotonic

  /**
   * The priority each task runs at: `init` with interrupts disabled and idle
   * below every task (both shown as 0), the monotonic timer at 6, and the
   * blink task and the SWI2 handler at RTIC's default priority 1.
   */
  function Priority(t: Task): (p: nat)
    ensures t != Init && t != Idle ==> p == 1 || p == 6
  {
    match t
    case Init => 0
    case Idle => 0
    case Monotonic => 6
    case _ => 1
  }

  predicate CallsSoftDevice(t: Task) {
    t == Idle
  }

  /**
   * Only idle calls the SoftDevice, and it sits below the SVC handler; the
   * SWI2 handler only logs. Every other task runs at a usable priority.
   */
  lemma BringUpRunsBelowSvc(t: Task)
    ensures CallsSoftDevice(t) ==> Priority(t) < RticOf(SVC_NVIC)
    ensures t != Init && t != Idle ==> Usable(Priority(t))
  {
    ReservedAndUsableLevels();
  }

  /**
   * The idle task's bring-up. `reply(s)` is the status for step `s` and
   * `assignedHandle` the handle sd_ble_gap_adv_set_configure writes back.
   * `halt` is the fatal step idle is parked at, or None when advertising was
   * started; `calls` are the SoftDevice calls made, in order.
   */
  method IdleBringUp(reply: Step -> u32, assignedHandle: u8) returns (halt: Option<Step>, calls: seq<SdCall>)
    ensures calls == Plan(LOCAL_ADV_DATA, LOCAL_SCAN_RESP, LOCAL_DEV_NAME, OPEN_LINK, assignedHandle)[..Issued(STEPS, reply)]
    ensures halt.None? <==> Succeeds(reply)
    ensures halt.Some? ==>
              && 1 <= |calls| <= |STEPS|
              && halt.value == STEPS[|calls| - 1]
              && Fatal(halt.value) && reply(halt.value) != NRF_SUCCESS
  {
    ghost var plan := Plan(LOCAL_ADV_DATA, LOCAL_SCAN_RESP, LOCAL_DEV_NAME, OPEN_LINK, assignedHandle);
    calls := [SdSoftdeviceEnable(SD_CLK_CONF)];
    if reply(SoftdeviceEnable) != NRF_SUCCESS {
      IssuedStopsAt(STEPS, reply, 0);
      return Some(SoftdeviceEnable), calls;
    }

    var appRamBase: u32 := 0x2000_0000 + 0x1AE0;
    calls := calls + [SdBleEnable(appRamBase)];
    if reply(BleEnable) != NRF_SUCCESS {
      IssuedStopsAt(STEPS, reply, 1);
      return Some(BleEnable), calls;
    }

    // The MAC address and the appearance are read for the log only.
    calls := calls + [SdBleGapAddrGet];
    calls := calls + [SdBleGapAppearanceGet];

    var devName := LOCAL_DEV_NAME;
    calls := calls + [SdBleGapDeviceNameSet(OPEN_LINK, devName, |devName| % 0x1_0000)];
    if reply(GapDeviceNameSet) != NRF_SUCCESS {
      IssuedStopsAt(STEPS, reply, 4);
      return Some(GapDeviceNameSet), calls;
    }

    var advHandle: u8 := BLE_GAP_ADV_SET_HANDLE_NOT_SET;
    calls := calls + [SdBleGapAdvSetConfigure(advHandle, LOCAL_ADV_DATA, LOCAL_SCAN_RESP, ADV_PARAMS)];
    advHandle := assignedHandle;
    var configOk := false;
    if reply(GapAdvSetConfigure) == NRF_SUCCESS {
      configOk := true;
    }
    if !configOk {
      IssuedStopsAt(STEPS, reply, 5);
      return Some(GapAdvSetConfigure), calls;
    }

    // A failure to start advertising is only logged.
    calls := calls + [SdBleGapAdvStart(advHandle, BLE_CONN_CFG_TAG_DEFAULT)];
    IssuedWhenAllPass(STEPS, reply);
    assert calls == plan;
    halt := None;
  }

  /** The blink task of this binary: it re-arms itself after a fixed 500 ms. */
  method BlinkTask(leds: Leds) returns (delayMs: nat)
    modifies leds
    ensures leds.Pair() == Toggle(old(leds.Pair()))
    ensures delayMs == 500
  {
    leds.Blink();
    delayMs := 500;
  }
}
