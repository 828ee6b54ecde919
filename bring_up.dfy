/**
 * The SoftDevice bring-up as a step machine. Seven calls are issued in a
 * fixed order; four of them are fatal (a status other than NRF_SUCCESS ends
 * the sequence), the other three are only logged. Both firmware variants
 * run this sequence: one returns false at a fatal failure, the other halts.
 */
module BringUp {
  import opened Machine
  import opened Nrf

  datatype Step =
    | SoftdeviceEnable
    | BleEnable
    | GapAddrGet
    | GapAppearanceGet
    | GapDeviceNameSet
    | GapAdvSetConfigure
    | GapAdvStart

  /** The steps in the order the bring-up issues them. */
  const STEPS: seq<Step> :=
    [SoftdeviceEnable, BleEnable, GapAddrGet, GapAppearanceGet, GapDeviceNameSet, GapAdvSetConfigure, GapAdvStart]

  /** A step whose failure ends the bring-up. */
  predicate Fatal(s: Step) {
    s == SoftdeviceEnable || s == BleEnable || s == GapDeviceNameSet || s == GapAdvSetConfigure
  }

  /** True when answering `reply(s)` to step `s` lets the bring-up go on. */
  predicate Passes(s: Step, reply: Step -> u32) {
    !Fatal(s) || reply(s) == NRF_SUCCESS
  }

  /**
   * How many of `steps` are issued when the SoftDevice answers each step `s`
   * with `reply(s)`: steps are issued in order, and the step that fails
   * fatally is the last one issued.
   */
  function Issued(steps: seq<Step>, reply: Step -> u32): (n: nat)
    ensures n <= |steps|
    ensures n == 0 <==> steps == []
    ensures 0 < n < |steps| ==> !Passes(steps[n - 1], reply)
  {
    if steps == [] then 0
    else if !Passes(steps[0], reply) then 1
    else 1 + Issued(steps[1..], reply)
  }

  /** When no step fails fatally, every step is issued. */
  lemma {:induction false} IssuedWhenAllPass(steps: seq<Step>, reply: Step -> u32)
    requires forall i :: 0 <= i < |steps| ==> Passes(steps[i], reply)
    ensures Issued(steps, reply) == |steps|
  {
    if steps != [] {
      assert Passes(steps[0], reply);
      forall i | 0 <= i < |steps| - 1 ensures Passes(steps[1..][i], reply) {
        assert steps[1..][i] == steps[i + 1];
      }
      IssuedWhenAllPass(steps[1..], reply);
    }
  }

  /** The first fatal failure, at position k, is the last step issued. */
  lemma {:induction false} IssuedStopsAt(steps: seq<Step>, reply: Step -> u32, k: nat)
    requires k < |steps| && !Passes(steps[k], reply)
    requires forall i :: 0 <= i < k ==> Passes(steps[i], reply)
    ensures Issued(steps, reply) == k + 1
  {
    if k > 0 {
      forall i | 0 <= i < k - 1 ensures Passes(steps[1..][i], reply) {
        assert steps[1..][i] == steps[i + 1];
      }
      IssuedStopsAt(steps[1..], reply, k - 1);
    }
  }

  /** Only the answers to fatal steps decide how far the bring-up goes. */
  lemma {:induction false} IssuedIgnoresNonFatal(steps: seq<Step>, r1: Step -> u32, r2: Step -> u32)
    requires forall s :: Fatal(s) ==> r1(s) == r2(s)
    ensures Issued(steps, r1) == Issued(steps, r2)
  {
    if steps != [] {
      IssuedIgnoresNonFatal(steps[1..], r1, r2);
    }
  }

  /** The bring-up completes exactly when the four fatal steps succeed. */
  predicate Succeeds(reply: Step -> u32) {
    && reply(SoftdeviceEnable) == NRF_SUCCESS
    && reply(BleEnable) == NRF_SUCCESS
    && reply(GapDeviceNameSet) == NRF_SUCCESS
    && reply(GapAdvSetConfigure) == NRF_SUCCESS
  }

  /**
   * The calls of the bring-up with their arguments when every step is
   * issued; `handle` is the advertising handle that sd_ble_gap_adv_set_configure
   * wrote back. The name length is passed truncated to 16 bits.
   */
  function Plan(advData: seq<u8>, scanRsp: seq<u8>, devName: seq<u8>, secMode: SecMode, handle: u8): (p: seq<SdCall>)
    ensures |p| == |STEPS|
  {
    [ SdSoftdeviceEnable(SD_CLK_CONF),
      SdBleEnable(APP_RAM_BASE),
      SdBleGapAddrGet,
      SdBleGapAppearanceGet,
      SdBleGapDeviceNameSet(secMode, devName, |devName| % 0x1_0000),
      SdBleGapAdvSetConfigure(BLE_GAP_ADV_SET_HANDLE_NOT_SET, advData, scanRsp, ADV_PARAMS),
      SdBleGapAdvStart(handle, BLE_CONN_CFG_TAG_DEFAULT) ]
  }

  /** If the SoftDevice cannot be enabled, nothing else is called. */
  lemma EnableFailureIssuesNothingElse(reply: Step -> u32)
    requires reply(SoftdeviceEnable) != NRF_SUCCESS
    ensures Issued(STEPS, reply) == 1
  {
    IssuedStopsAt(STEPS, reply, 0);
  }

  /** If the BLE stack cannot be enabled, no GAP call is made. */
  lemma BleEnableFailureIssuesNoGapCall(reply: Step -> u32)
    requires reply(SoftdeviceEnable) == NRF_SUCCESS && reply(BleEnable) != NRF_SUCCESS
    ensures Issued(STEPS, reply) == 2
  {
    IssuedStopsAt(STEPS, reply, 1);
  }

  /** A failed device-name set stops before the advertising configuration. */
  lemma NameSetFailureStopsBeforeAdvertising(reply: Step -> u32)
    requires reply(SoftdeviceEnable) == NRF_SUCCESS && reply(BleEnable) == NRF_SUCCESS
    requires reply(GapDeviceNameSet) != NRF_SUCCESS
    ensures Issued(STEPS, reply) == 5
  {
    IssuedStopsAt(STEPS, reply, 4);
  }

  /**
   * All seven calls, sd_ble_gap_adv_start included, are issued exactly when the
   * four fatal steps succeed; the sequence stops right after the configuration
   * call exactly when that call is the first fatal failure.
   */
  lemma CompletesIffSucceeds(reply: Step -> u32)
    ensures Issued(STEPS, reply) == 7 <==> Succeeds(reply)
    ensures Issued(STEPS, reply) == 6 <==>
      reply(SoftdeviceEnable) == NRF_SUCCESS && reply(BleEnable) == NRF_SUCCESS &&
      reply(GapDeviceNameSet) == NRF_SUCCESS && reply(GapAdvSetConfigure) != NRF_SUCCESS
  {
    if reply(SoftdeviceEnable) != NRF_SUCCESS {
      EnableFailureIssuesNothingElse(reply);
    } else if reply(BleEnable) != NRF_SUCCESS {
      BleEnableFailureIssuesNoGapCall(reply);
    } else if reply(GapDeviceNameSet) != NRF_SUCCESS {
      NameSetFailureStopsBeforeAdvertising(reply);
    } else if reply(GapAdvSetConfigure) != NRF_SUCCESS {
      IssuedStopsAt(STEPS, reply, 5);
    } else {
      IssuedWhenAllPass(STEPS, reply);
    }
  }
}
