/** The error codes that the modelled operations throw or map (a subset of ZWaveErrorCodes). */
module Errors {
  datatype ErrorCode =
    | Driver_NotReady
    | Driver_InvalidOptions
    | Driver_NoPriority
    | Driver_NotSupported
    | Driver_NoSecurity
    | Controller_MessageDropped
    | Controller_NodeTimeout
    | PacketFormat_Invalid
    | PacketFormat_Checksum
    | PacketFormat_InvalidPayload
    | Deserialization_NotImplemented
    | CC_NotImplemented
    | CC_NotSupported
    | CC_Invalid
    | Argument_Invalid
    | Config_Invalid
    | OtherCode(code: nat)

  /** A thrown error: a ZWaveError with a code, or any other Error with its message. */
  datatype Thrown =
    | ZWaveError(code: ErrorCode)
    | OtherError(message: string)
    | RangeError
    | TypeError
}
