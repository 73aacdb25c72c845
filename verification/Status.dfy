/** Status words, and how a handler that throws one is modelled. */
module Status {
  const SWO_SUCCESS := 0x9000
  const SWO_INCORRECT_DATA := 0x6A80
  const SWO_WRONG_P1_P2 := 0x6B00
  const SWO_WRONG_DATA_LENGTH := 0x6700
  const ERROR_INVALID_STATE := 0x6B01
  const ERROR_INVALID_PATH := 0x6B02
  const ERROR_INVALID_PARAM := 0x6B03
  const ERROR_INVALID_TRANSACTION := 0x6B04
  const ERROR_UNSUPPORTED_CBOR := 0x6B05
  const ERROR_BUFFER_OVERFLOW := 0x6B06

  /** Whether a helper returned, or threw a status word. */
  datatype Outcome = Returned | Thrown(sw: int)
}
