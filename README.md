# ICM-20948 acquisition and Wi-Fi connectivity core, modelled in Dafny

This project models the two parts of the ignite-rt ESP32 firmware that carry
logic of their own:

- **The Wi-Fi station connectivity manager** (`components/websockets/wifi_connect.c`).
  `event_handler` is a single-owner state machine over a retry counter
  (`s_retry_num`), the recorded IPv4 address (`s_ip_addr`) and two sticky
  event-group bits, CONNECTED and FAIL. Three events drive it: STA_START,
  STA_DISCONNECTED and GOT_IP. The retry budget is `WIFI_MAXIMUM_RETRY` = 5.
  `wifi_connection_wait_for_ip` maps the bits to a result code.
  `wifi_connection_init` and `wifi_connection_get_ip` check their arguments,
  copy credentials with `strlcpy` and print the dotted quad.
- **The ICM-20948 driver** (`components/icm20948/icm20948.c`, register map in
  `components/icm20948/icm20948_regs.h`). `imu_init` issues a fixed series of
  bank-select and register-write transactions and stops at the first failed
  register write. `imu_task` reads a 12-byte burst from `ACCEL_XOUT_H` and
  decodes six big-endian two's-complement 16-bit counts. Each cycle either
  replaces the single shared sample or leaves it alone. `get_imu_data` copies
  the sample out when it gets the mutex.

Files:

- `esp.dfy` (module `Esp`): bytes, the `esp_err_t` codes (`ESP_OK` 0, `ESP_FAIL` -1,
  `ESP_ERR_NO_MEM` 0x101, `ESP_ERR_INVALID_ARG` 0x102, `ESP_ERR_INVALID_STATE` 0x103,
  `ESP_ERR_TIMEOUT` 0x107) and `Option`.
- `c_strings.dfy` (module `CStrings`): `strlcpy` on a `char` array, the C-string view of a
  buffer, and the `IPSTR` dotted quad with a parser that inverts it.
- `icm20948_regs.dfy` (module `Icm20948Regs`): the `icm20948_reg_t` table. Each register has
  a page (a user bank, all banks, or the AK09916 magnetometer) and an address. Lookup
  functions take a page and an address.
- `icm20948.dfy` (module `Icm20948`): the transaction plan of `imu_init` and its fail-fast
  run, the bank each write lands in on the device, the burst codec, the slot as pure
  functions, and the class `Device`. `Device` holds the module statics `imu_data` and
  `imu_data_mutex` and a trace of bus transactions.
- `wifi_connect.dfy` (module `WifiConnect`): `Step`/`Run`, the pure transition function and
  its extension to event sequences, with lemmas about them. The class `WifiConnection`
  holds the module statics; its methods are proved equal to `Step`, `WaitResult` and the
  argument checks.

Inputs stand in for what the model cannot see:

- The I2C bus is an oracle. `respond(n)` is the result of the n-th transaction of one
  `imu_init` call, and a cycle's read result and bytes are inputs.
- Whether `xSemaphoreTake` succeeds within 10 ms is a boolean input.
- The event-group bits seen when `xEventGroupWaitBits` returns are the object's current
  bits. Events that arrive during the wait are `HandleEvent` calls made before it.
- The ESP-IDF calls in `wifi_connection_init` appear only through their return codes
  (`SdkResults`).

Behaviour the model keeps as the code has it:

- `wifi_connection_init` rejects only NULL credentials. Empty strings pass.
- The bits are never cleared. A disconnect after GOT_IP leaves CONNECTED set, and FAIL
  can be set on top of CONNECTED. In that case `wifi_connection_wait_for_ip` still
  returns `ESP_OK`.
- A failed bank select does not fail `imu_init` (see Findings).
- `wifi_connection_wait_for_ip` can return `ESP_FAIL` and `ESP_ERR_INVALID_STATE` too,
  not only `ESP_OK` or `ESP_ERR_TIMEOUT` as its header comment says.
- `wifi_connection_init` can return `ESP_ERR_INVALID_ARG`, `ESP_ERR_NO_MEM` and whatever code a
  failing SDK call returns, not only `ESP_OK` or `ESP_FAIL` as `wifi_connect.h:16` says
  (`InitResult`).
- `wifi_connect.h:23` says a timeout of 0 means no timeout, but `pdMS_TO_TICKS(0)` makes
  the wait return at once with the bits as they are. `WaitForIp` reads the current bits
  whatever the timeout, which matches the code.

## Model

| member | source | states |
|---|---|---|
| WifiConnect.Step | components/websockets/wifi_connect.c:14-41 | one handler call keeps the counter within 0..WIFI_MAXIMUM_RETRY and never clears a status bit |
| WifiConnect.Run | components/websockets/wifi_connect.c:14-41 | over any sequence of events the counter stays within 0..5 and a bit once set stays set |
| WifiConnect.StartRequestsConnection | components/websockets/wifi_connect.c:17-19 | STA_START issues exactly one connect request and changes no counter, address or bit |
| WifiConnect.DisconnectRetries | components/websockets/wifi_connect.c:26-29 | a disconnect with counter below 5 issues one reconnect and raises the counter by exactly 1 |
| WifiConnect.DisconnectGivesUp | components/websockets/wifi_connect.c:30-33 | a disconnect with counter 5 sets FAIL, issues no reconnect and keeps the counter |
| WifiConnect.GotIpResets | components/websockets/wifi_connect.c:34-40 | GOT_IP records the event's address, resets the counter to 0 and sets CONNECTED; any other event changes nothing |
| WifiConnect.DisconnectsInARow | components/websockets/wifi_connect.c:26-33 | n disconnects from counter r issue min(n, 5-r) reconnects, leave the counter at min(r+n, 5), and set FAIL exactly when r+n > 5 |
| WifiConnect.DisconnectsFromStart | components/websockets/wifi_connect.c:12-33 | from the initial statics, n disconnects issue min(n,5) reconnects and set FAIL iff n > 5 |
| WifiConnect.RetryBudgetEndsInFail | components/websockets/wifi_connect.c:26-33 | from any reachable counter, six disconnects in a row always end with FAIL set |
| WifiConnect.GotIpLast | components/websockets/wifi_connect.c:34-38 | after any history, a GOT_IP leaves counter 0, that address and CONNECTED |
| WifiConnect.LostAndRegained | components/websockets/wifi_connect.c:20-38 | attach, lose the link k ≤ 5 times, re-attach: counter 0, CONNECTED, the new address, no FAIL, k reconnect requests |
| WifiConnect.WaitResult | components/websockets/wifi_connect.c:139-162 | no event group gives ESP_ERR_INVALID_STATE; CONNECTED gives ESP_OK even with FAIL; FAIL alone gives ESP_FAIL; neither gives ESP_ERR_TIMEOUT (each an iff) |
| WifiConnect.WaitOutcomeIsStable | components/websockets/wifi_connect.c:146-158 | with clear-on-exit off, once a wait would return ESP_OK it does after any further events, and ESP_FAIL never turns back into a timeout |
| WifiConnect.InitResult | components/websockets/wifi_connect.c:52-136 | init returns ESP_OK exactly when every SDK step succeeds, otherwise the first failure's code |
| WifiConnect.WifiConnection.constructor | components/websockets/wifi_connect.c:10-12 | the statics start with counter 0, address 0.0.0.0, no event group |
| WifiConnect.WifiConnection.HandleEvent | components/websockets/wifi_connect.c:14-41 | the handler's updates of the statics and its SDK calls are exactly those of Step |
| WifiConnect.WifiConnection.Init | components/websockets/wifi_connect.c:43-137 | a NULL ssid or password returns ESP_ERR_INVALID_ARG before any state changes; otherwise the steps run in order with early returns; a deleted group's handle is left behind; the last config applied is the caller's strlcpy'd credentials over the built-in ones |
| WifiConnect.WifiConnection.WaitForIp | components/websockets/wifi_connect.c:139-162 | returns WaitResult of the current group and bits |
| WifiConnect.WifiConnection.GetIp | components/websockets/wifi_connect.c:164-173 | a null buffer or max_len < 16 gives ESP_ERR_INVALID_ARG and writes nothing; otherwise the buffer holds the dotted quad (at most 15 characters) and its NUL |
| CStrings.Strlcpy | components/websockets/wifi_connect.c:113-114 | for a NUL-free source, strlcpy writes the source cut to size-1 characters and a NUL, leaves the rest of the buffer alone, and returns strlen(src) |
| CStrings.StrlcpyReadsBack | components/websockets/wifi_connect.c:113-114 | the copied credential reads back as the source truncated to fit; it comes back whole iff it is shorter than the buffer |
| CStrings.DottedQuad | components/websockets/wifi_connect.c:171 | the IPSTR text of an address is 7 to 15 characters with no NUL |
| CStrings.DecimalRoundTrip | components/websockets/wifi_connect.c:171 | the decimal text of an octet reads back as that octet |
| CStrings.DottedQuadRoundTrip | components/websockets/wifi_connect.c:171 | the IPSTR text of an address fits in 15 characters and parses back to the same four octets |
| Icm20948Regs.Address | components/icm20948/icm20948_regs.h:6-53 | every enum value is a 7-bit address, and 0x7F belongs to REG_BANK_SEL and to no other register |
| Icm20948Regs.Home | components/icm20948/icm20948_regs.h:6-53 | REG_BANK_SEL alone is shared by all banks; every other ICM-20948 register lives in user bank 0, 1 or 2 |
| Icm20948Regs.LookupHome | components/icm20948/icm20948_regs.h:6-53 | each register is found at its own page and address; REG_BANK_SEL is found at 0x7F from every bank |
| Icm20948Regs.PlaceIdentifiesRegister | components/icm20948/icm20948_regs.h:6-53 | two registers with the same page and address are the same register |
| Icm20948Regs.SharedAddresses | components/icm20948/icm20948_regs.h:11-36 | 0x03 is USER_CTRL in bank 0 and SELF_TEST_Y_GYRO in bank 1; 0x00 is WHO_AM_I in bank 0 and GYRO_SMPLRT_DIV in bank 2 |
| Icm20948Regs.OutputBlockLayout | components/icm20948/icm20948_regs.h:17-28 | the twelve output registers are consecutive bank-0 addresses from 0x2D, in the order accel X, Y, Z then gyro X, Y, Z, high byte first |
| Icm20948Regs.OutputBlockIsExactlyTheRange | components/icm20948/icm20948_regs.h:10-28 | the bank-0 registers in 0x2D..0x38 are exactly the twelve output registers |
| Icm20948.DefinesMatchRegisterMap | components/icm20948/icm20948.c:19-23 | the driver's local addresses equal the table's, with PWR_MGMT_1 and ACCEL_XOUT_H in bank 0 and GYRO_CONFIG_1 and ACCEL_CONFIG in bank 2 |
| Icm20948.SelectBank | components/icm20948/icm20948.c:60-63 | select_bank is a write of the bank value to the address that shows REG_BANK_SEL in every bank |
| Icm20948.RunPlan | components/icm20948/icm20948.c:83-96 | a run stops right after the first failed register write and returns its code; every write before it succeeded; ESP_OK means every register write succeeded |
| Icm20948.InitSpec | components/icm20948/icm20948.c:65-105 | a failed parameter setup or driver install is returned with no transaction issued; the transactions issued are a prefix of the plan; the mutex is attempted iff the whole plan ran; ESP_OK iff the mutex exists |
| Icm20948.InitPlanRun | components/icm20948/icm20948.c:83-96 | only the writes to PWR_MGMT_1, GYRO_CONFIG_1 and ACCEL_CONFIG can stop the sequence, in that order |
| Icm20948.InitAllSucceed | components/icm20948/icm20948.c:83-104 | with every write succeeding: bank←0x00, PWR_MGMT_1←0x01, bank←0x20, GYRO_CONFIG_1←0x00, ACCEL_CONFIG←0x00, bank←0x00, the mutex, ESP_OK |
| Icm20948.InitStopsAtFailedWrite | components/icm20948/icm20948.c:84-94 | a failed register write is returned at once and nothing after it is issued, whatever the bank selects before it returned |
| Icm20948.InitIgnoresBankSelectResults | components/icm20948/icm20948.c:60-63 | when the register writes succeed, all six transactions are issued and the bank selects' results play no part |
| Icm20948.InitCreatesMutexLast | components/icm20948/icm20948.c:98-104 | the mutex is attempted only after every register write succeeded; ESP_ERR_NO_MEM iff that attempt fails; ESP_OK iff the mutex exists |
| Icm20948.InitPlanHitsIntendedRegisters | components/icm20948/icm20948.c:83-96 | with every transaction accepted, each configuration write lands on its intended register, whatever bank the device started in |
| Icm20948.InitSucceedsDespiteFailedBankSelect | components/icm20948/icm20948.c:60-63 | a failed bank select before the configuration writes still gives ESP_OK, while GYRO_CONFIG_1's value lands at bank 0, 0x01, where there is no register |
| Icm20948.RunPlanChecked | components/icm20948/icm20948.c:60-96 | with every result checked, ESP_OK iff every transaction succeeded; otherwise the first failure's code |
| Icm20948.CheckedInitHitsIntendedRegisters | components/icm20948/icm20948.c:60-96 | with every result checked, ESP_OK guarantees every configuration write reached its intended register |
| Icm20948.Int16FromBytes | components/icm20948/icm20948.c:114-119 | the decoded value is in [-32768, 32767], equals hi*256+lo modulo 65536, and is negative iff the top bit of hi is set |
| Icm20948.Int16RoundTrip | components/icm20948/icm20948.c:114-119 | encoding any int16 big-endian and decoding gives it back |
| Icm20948.BytesRoundTrip | components/icm20948/icm20948.c:114-119 | decoding any byte pair and encoding gives the pair back |
| Icm20948.DecodeBurst | components/icm20948/icm20948.c:111-119 | axis k of the decoded sample is the signed big-endian pair at bytes 2k and 2k+1 |
| Icm20948.BurstLayout | components/icm20948/icm20948.c:111-119 | axis k comes from bytes 2k and 2k+1, which the burst from ACCEL_XOUT_H reads from that axis's H and L registers (accel from bytes 0-5, gyro from 6-11) |
| Icm20948.SampleRoundTrip | components/icm20948/icm20948.c:114-119 | encoding six counts as a burst and decoding it gives them back |
| Icm20948.BurstRoundTrip | components/icm20948/icm20948.c:114-119 | every 12-byte burst is the encoding of what it decodes to |
| Icm20948.AfterCycle | components/icm20948/icm20948.c:113-135 | a cycle replaces the slot whole or leaves it alone; a failed read or a lock not taken leaves it alone; a locked successful read installs the decoded sample |
| Icm20948.LastPublished | components/icm20948/icm20948.c:132-135 | there is a last published sample iff some cycle read successfully with the lock taken |
| Icm20948.SlotHoldsLatest | components/icm20948/icm20948.c:132-135 | after any run of cycles the slot holds the sample of the last cycle that published, or its old value if none did |
| Icm20948.FailedReadThenSuccess | components/icm20948/icm20948.c:113-142 | a failed read followed by a successful one leaves only the second sample in the slot |
| Icm20948.ReadSlot | components/icm20948/icm20948.c:148-156 | get_imu_data succeeds exactly when the lock is taken; it then hands out the slot, otherwise the caller's struct unchanged |
| Icm20948.PublishThenReadReturnsIt | components/icm20948/icm20948.c:132-155 | a locked read right after a publish returns the published sample |
| Icm20948.Device.constructor | components/icm20948/icm20948.c:29-30 | before any publish the slot holds the zero sample and there is no mutex |
| Icm20948.Device.Init | components/icm20948/icm20948.c:65-105 | the bus trace, result and mutex state are exactly InitSpec's; the slot is not touched |
| Icm20948.Device.TaskCycle | components/icm20948/icm20948.c:108-146 | one cycle issues one 12-byte read at 0x2D; the slot is replaced whole by a locked successful read, else unchanged |
| Icm20948.Device.GetImuData | components/icm20948/icm20948.c:148-156 | returns true with the stored sample exactly when the lock is taken, otherwise false with the caller's struct untouched |
| Icm20948.PublishThenRead | components/icm20948/icm20948.c:132-155 | on the object: a publish then a locked read returns the decoded sample |

## Findings

| source | as written | input that shows it | evidently intended | confidence | as-written member | corrected member |
|---|---|---|---|---|---|---|
| components/icm20948/icm20948.c:60-63 | `select_bank` discards the result of its write, so `imu_init` never notices a failed bank select | the third transaction (bank ← 0x20) fails and every other one succeeds: `imu_init` returns ESP_OK, but GYRO_CONFIG_1 and ACCEL_CONFIG are written at 0x01 and 0x14 of bank 0 | initialization fails on any failed transaction, as it already does for a failed register write | medium, not executed | Icm20948.InitSucceedsDespiteFailedBankSelect | Icm20948.CheckedInitHitsIntendedRegisters |

`Icm20948.Device.Init` keeps the as-written behaviour because it models the firmware.
Nothing else in the model uses the result of `imu_init`. `RunPlanChecked` and
`InitSpecChecked` are the corrected sequence.

## Left out

- I2C command-link construction (`i2c_read_bytes`, `i2c_write_byte`), `i2c_param_config` and `i2c_driver_install`: these are foreign ESP-IDF calls. Their results are inputs, and each transaction is one trace entry.
- The bank a write lands in is read from the USER_BANK field of `REG_BANK_SEL` (bits 5:4, from the ICM-20948 datasheet). The register map has no entry for this field.
- Conversion to m/s² and rad/s, and the floats of `imu_data_t`: this is floating-point numerics. The slot holds the six raw counts, and 0 counts stands for the zeroed static. The header comment calls the gyro unit deg/s, but the code multiplies by π/180.
- FreeRTOS timing and concurrency: the 100 ms settle delay, the 100 ms cycle delay, the 10 ms mutex timeout (an input), the blocking wait (the timeout value plays no part), task creation, and the interleaving of the handler, the wait and the two tasks. The model is sequential.
- The `while (1)` loops of `imu_task`: one pass is `Device.TaskCycle`.
- WifiConnect.WifiConnection.Init: the `ESP_ERROR_CHECK` calls at lines 108-110 abort the program on failure. The model treats them as succeeding. The built-in credentials are parameters, and their values are not fixed.
- WifiConnect.WifiConnection.HandleEvent: the disconnect reason and the log lines are not modelled. The handler is assumed to run only while the event group is live, since it is registered after the group is created.
- WifiConnect.WifiConnection.WaitForIp: a call after the netif failure path (group deleted, handle not cleared) is a use of a freed handle in the source, so the model requires that the group is not in that state.
- WifiConnect.WifiConnection.GetIp: `max_len` is taken to be at most the buffer's real size, as the C caller must ensure.
- `components/websockets/websock.c`: a wrapper over `esp_websocket_client`, which is not available; JSON built with `%.3f` floats; delay-driven loops.
- `main/main.c`: process bootstrap and task start order. `components/websockets/websock.h` declares functions that are defined nowhere. `components/icm20948/icm20948.h` holds only a struct and prototypes.
- All `ESP_LOG*` output.
- `ICM20948_ADDR` (0x69): every transaction goes to this one device, so the trace records only register, value and length.
- CStrings.Strlcpy: the source is taken to hold no NUL, as C strings cannot; every caller passes one.
