/**
 * The messages the scanner sends to its worker actor (the scan processor).
 * Only the vocabulary is modelled: what the worker does with a message is
 * not part of this model.
 */
module ScanProcessor {
  import opened Json

  /** The `FSScanProcessorCommand` values the scanner uses. */
  datatype Command =
    | SettingsModeOn | SettingsModeOff | UpdateSettings | UpdateConfig
    | Start | Stop | StartCalibration | StopCalibration
    | CallHardwareTestFunction | GetHardwareInfo
    | NotifyHardwareState | NotifyIfNotCalibrated

  /** `tell` is fire-and-forget; `ask` blocks until the worker answers and may raise. */
  datatype Mode = Tell | Ask

  /** One message: `{COMMAND: command}` plus the extra entries (`SETTINGS`, `CONFIG`, `DEVICE_TEST`). */
  datatype Message = Message(mode: Mode, command: Command, extras: seq<Member>)
}
