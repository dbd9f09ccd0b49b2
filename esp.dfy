/** Types shared by both components: bytes, the `esp_err_t` result codes the
    firmware returns, and an Option for values a C caller may pass as NULL. */
module Esp {

  /** An unsigned 8-bit value (`uint8_t`). */
  newtype Byte = x: int | 0 <= x < 256

  /** `esp_err_t` is a plain integer code; these are the values the core returns. */
  type ErrCode = int

  const Ok: ErrCode := 0              // ESP_OK
  const Fail: ErrCode := -1           // ESP_FAIL
  const NoMem: ErrCode := 0x101       // ESP_ERR_NO_MEM
  const InvalidArg: ErrCode := 0x102  // ESP_ERR_INVALID_ARG
  const InvalidState: ErrCode := 0x103 // ESP_ERR_INVALID_STATE
  const Timeout: ErrCode := 0x107     // ESP_ERR_TIMEOUT

  datatype Option<+T> = None | Some(value: T)
}
