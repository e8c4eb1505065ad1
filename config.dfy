/** Opcodes of the dimension sensor and of the scale. */
module Config {
  import opened Bytes

  const CmdStart: byte := 0x95
  const CmdGetDimensions: byte := 0x89
  const CmdSetTopMax: byte := 0x90
  const CmdSetWidthMax: byte := 0x91
  const CmdSetLengthMax: byte := 0x92
  const CmdResetSensors: byte := 0x93
  const CmdLedOn: byte := 0x66
  const CmdLedOff: byte := 0x55
  const CmdPing: byte := 0x77

  /** The scale's weight request and liveness probe. */
  const ScaleWeightRequest: byte := 0x4A
  const ScaleLiveness: byte := 0x48
}
