/**
 * The surface of the Nordic S112 SoftDevice that the firmware calls: status
 * codes, the arguments the firmware passes, and one datatype value per call.
 * What the SoftDevice does with a call is not modelled; its answers are
 * parameters of the operations that issue the calls.
 */
module Nrf {
  import opened Machine

  // Status codes (nrf_error.h, error base 0). Only their distinctness matters here.
  const NRF_SUCCESS: u32 := 0
  const NRF_ERROR_NOT_FOUND: u32 := 5
  const NRF_ERROR_DATA_SIZE: u32 := 12
  const NRF_ERROR_INVALID_ADDR: u32 := 16

  // Values of the S112 headers that the firmware passes as arguments.
  const BLE_GAP_ADV_SET_HANDLE_NOT_SET: u8 := 0xFF
  const BLE_CONN_CFG_TAG_DEFAULT: u8 := 0
  const BLE_GAP_ADV_TIMEOUT_GENERAL_UNLIMITED: u16 := 0

  /** Source of the low-frequency clock handed to sd_softdevice_enable. */
  datatype LfClockSource = LfRc | LfXtal | LfSynth

  datatype ClockConfig = ClockConfig(source: LfClockSource, rcCtiv: u8, rcTempCtiv: u8, accuracyPpm: nat)

  /** Security mode and level required to write the device name. */
  datatype SecMode = SecMode(sm: u8, lv: u8)

  datatype AdvType = ConnectableScannableUndirected

  /** The advertising parameters the firmware configures. */
  datatype AdvParams = AdvParams(
    kind: AdvType,
    interval: u16,      // in units of 0.625 ms
    duration: u16,      // in units of 10 ms, 0 = unlimited
    maxAdvEvts: u8,     // 0 = no limit
    channelMask: seq<u8>,
    scanReqNotification: bool)

  /** One call into the SoftDevice, with the arguments the firmware passes. */
  datatype SdCall =
    | SdSoftdeviceEnable(clock: ClockConfig)
    | SdBleEnable(appRamBase: u32)
    | SdBleGapAddrGet
    | SdBleGapAppearanceGet
    | SdBleGapDeviceNameSet(secMode: SecMode, name: seq<u8>, nameLen: u16)
    | SdBleGapAdvSetConfigure(handle: u8, advData: seq<u8>, scanRspData: seq<u8>, params: AdvParams)
    | SdBleGapAdvStart(handle: u8, connCfgTag: u8)

  /** Crystal oscillator, 50 ppm, no RC calibration. */
  const SD_CLK_CONF: ClockConfig := ClockConfig(LfXtal, 0, 0, 50)

  /** Start of application RAM offered to sd_ble_enable. */
  const APP_RAM_BASE: u32 := 0x2000_0000 + 0x1AE0

  /** Security Mode 1, Level 1: open link. */
  const OPEN_LINK: SecMode := SecMode(1, 1)

  const ADV_PARAMS: AdvParams :=
    AdvParams(ConnectableScannableUndirected, 64, BLE_GAP_ADV_TIMEOUT_GENERAL_UNLIMITED, 0,
              [0x00, 0x00, 0x00, 0x00, 0x00], true)
}
