# T613 QR scanner plugin — a Dafny model

The plugin `t613_qr.cpp` bridges a QR scanner driver and a host that polls
for codes. The driver delivers a decoded payload through a data callback
(`scan_callback`). The plugin keeps that payload in a one-slot mailbox:
the byte vector `qr_buffer` plus the flag `qr_detected`. The host polls the
flag with `CheckQr` and copies the payload out with `GetQr`. The scanner's
light and its scan switch are driven together by `bind_change`, a two-state
arm/disarm toggle. `Init` arms the device, an accepted payload disarms it, a
successful `GetQr` arms it again and `Exit` disarms it.

The model has four layers:

- `types.dfy` (`Types`): the C integer widths (`uint8`, `uint32`, `uint64`) and `Option`.
- `driver.dfy` (`ScanDriver`): the driver as an ordered trace of `Command`s
  (callback registration, `ScanInit`, `ScanDeinit`, `SetLightMode(mode, isTemp)`,
  `ScanSw(en)`). It also gives the commands `light_change`, `scan_change` and
  `bind_change` issue, and a `DeviceView` of what a trace leaves the device set
  to (`Replay`). On that view it defines the `Armed`/`Disarmed` toggle and
  `Coupled`: light and scan were last set by the same `bind_change`.
- `qr_state.dfy` (`QrState`): the globals as a `State` value and one function per
  entry point. It has the invariant `Inv`: a raised flag has a payload behind it,
  and the device is `Coupled`. The single-call properties are lemmas here.
- `qr_runs.dfy` (`QrRuns`): arbitrary interleavings of entry points, each step
  atomic. It proves the invariant over runs, that `CheckQr` reports each deposit
  at most once, that the last write wins, and where the toggle stands after each step.
- `t613_qr.dfy` (`T613Qr`): the plugin as a class `QrPlugin`. The globals are
  its fields and every driver call is appended to `trace`. The entry points are
  methods that update the fields in place. The payload is refilled with a loop,
  and `GetQr` copies into the caller's `array` with a loop. Each method's
  `ensures` ties `Snapshot()` to the matching `QrState` function and keeps `Valid()`.

The model follows the code as written, also where it departs from what a single-slot mailbox is usually expected to do:

- `GetQr` never clears `qr_buffer`. This holds on success and on refusal. A
  second `GetQr` hands out the same payload again.
- A payload longer than the caller's limit is not discarded. `GetQr` returns 0
  and leaves everything as it was.
- "`qr_detected` iff a payload is held" does not hold. `CheckQr` lowers the
  flag but keeps the payload, so only "flag raised ⇒ payload held" is an invariant.
- `CheckQr` reports true at most once per deposit. Two deposits between polls
  are reported once.
- `light_change(state)` sends mode `state + 1`. Arming therefore asks for mode 2,
  which the driver header (t613_qr.cpp:34) documents as "off". Disarming asks
  for mode 1, "steady on". The value is kept as written.
- Lines 84 and 86-87 do not compile as written. Line 84 uses an undeclared
  `information`. The copy loop never advances `i` and reads an undeclared
  `data`. The model takes their evident meaning: `qr_buffer` becomes exactly
  the `uiBufLen` bytes at `pBuf`. Line 54 calls the type name
  `pts_scan_set_light_mode`; it is taken as the driver's light-mode call.

## Model

| member | source | states |
|---|---|---|
| `ScanDriver.BindCommands` | t613_qr.cpp:60-68 | `bind_change` issues exactly two commands. Arming sends the light command first, then `ScanSw(1)`. Disarming sends `ScanSw(0)` first, then the light command. Every light command is permanent (isTemp 0). |
| `ScanDriver.LightModeAsWritten` | t613_qr.cpp:34-54 | `light_change(1)` asks for mode 2, which the driver header calls off. `light_change(0)` asks for mode 1, steady on. |
| `ScanDriver.ReplayAppend` | t613_qr.cpp:44-68 | The driver carries out a command trace in order: carrying out `t + u` is carrying out `t`, then `u`. |
| `ScanDriver.BindEffect` | t613_qr.cpp:60-68 | After `bind_change(state)`, whatever was issued before, light and scan are coupled. The device is armed exactly when `state` is non-zero. The driver's initialised status is untouched. |
| `QrState.InitialInv` | t613_qr.cpp:18-22 | The static initial values of the globals satisfy the invariant. |
| `QrState.ScanCallback` | t613_qr.cpp:82-92 | `scan_callback` returns SUCC exactly for a non-null buffer with a non-zero length. It never touches the timestamps. |
| `QrState.CheckQr` | t613_qr.cpp:121-131 | `CheckQr` returns the flag's prior value and always leaves it lowered. The payload, both timestamps and the driver trace are untouched. |
| `QrState.GetQr` | t613_qr.cpp:133-145 | `GetQr`'s result never exceeds `len_limit`. It is 0 exactly when the buffer is empty or longer than the limit, and otherwise the payload's length. The payload and the flag are never changed. |
| `QrState.UsingQr` | t613_qr.cpp:116-119 | `UsingQr` sets `last_using_time` to the given time and changes nothing else. |
| `QrState.Init` | t613_qr.cpp:103-114 | `Init` changes only the driver trace. |
| `QrState.Exit` | t613_qr.cpp:147-152 | `Exit` changes only the driver trace. |
| `QrState.InitArms` | t613_qr.cpp:108-111 | After `Init`, whatever came before, the driver is initialised, light and scan are coupled and the device is armed. |
| `QrState.ExitDisarms` | t613_qr.cpp:150-151 | After `Exit`, whatever came before, the driver is released, light and scan are coupled and the device is disarmed. |
| `QrState.ScanCallbackDisarms` | t613_qr.cpp:89-90 | An accepted payload leaves the device coupled and disarmed. |
| `QrState.GetQrRearms` | t613_qr.cpp:142-143 | A successful `GetQr` leaves the device coupled and armed. |
| `QrState.ScanCallbackRejects` | t613_qr.cpp:83 | A null buffer or a zero length returns FAIL and changes nothing: buffer, flag, timestamps and driver trace. |
| `QrState.ScanCallbackReplaces` | t613_qr.cpp:85-90 | An accepted payload replaces the buffer with exactly the delivered bytes, not appended to the old ones. It raises the flag and appends the disarm commands. |
| `QrState.LastDepositWins` | t613_qr.cpp:85-88 | After two deposits, the second one's bytes are held, whatever the first one was. |
| `QrState.CheckQrOnce` | t613_qr.cpp:121-131 | `CheckQr` returns the flag it found. An immediate second call returns false. |
| `QrState.CheckQrSeesDeposit` | t613_qr.cpp:89 | A `CheckQr` directly after an accepted payload returns true. |
| `QrState.ReportedCodeCanBeFetched` | t613_qr.cpp:121-144 | Once `CheckQr` has returned true, a `GetQr` whose limit covers the payload returns its full, non-zero length. |
| `QrState.GetQrRefusalKeepsState` | t613_qr.cpp:135-139 | With no payload, or one longer than the limit, `GetQr` returns 0 and the state is unchanged. An oversized payload is kept, not dropped. |
| `QrState.GetQrRepeats` | t613_qr.cpp:140-144 | A successful `GetQr` does not consume the payload. A later `GetQr` with a limit at least as large returns the same length again. |
| `QrState.GetQrStamps` | t613_qr.cpp:141-143 | A successful `GetQr` sets `last_send_time` to the given time, appends the arm commands and changes nothing else. |
| `QrState.ScanCallbackKeepsInv` | t613_qr.cpp:82-92 | `scan_callback` preserves the invariant. |
| `QrState.CheckQrKeepsInv` | t613_qr.cpp:121-131 | `CheckQr` preserves the invariant. |
| `QrState.GetQrKeepsInv` | t613_qr.cpp:133-145 | `GetQr` preserves the invariant. |
| `QrState.UsingQrKeepsInv` | t613_qr.cpp:116-119 | `UsingQr` preserves the invariant. |
| `QrState.InitKeepsInv` | t613_qr.cpp:103-114 | `Init` preserves the invariant. |
| `QrState.ExitKeepsInv` | t613_qr.cpp:147-152 | `Exit` preserves the invariant. |
| `QrState.HostSession` | t613_qr.cpp:103-145 | The session `Init`, deposit of `[0x41,0x42,0x43]`, two polls, then `GetQr(10)`. It arms, then disarms, the polls report true then false, and the fetch returns 3 with the payload intact. The device ends armed. |
| `QrRuns.StepKeepsInv` | t613_qr.cpp:82-152 | Every entry point and the data callback preserve the invariant. |
| `QrRuns.RunKeepsInv` | t613_qr.cpp:82-152 | Every interleaving of entry points and callbacks preserves the invariant. |
| `QrRuns.ReportedAtMostOncePerDeposit` | t613_qr.cpp:89-131 | Over any run, `CheckQr`'s true reports plus a flag still raised at the end never exceed the accepted deposits plus a flag raised at the start. |
| `QrRuns.NothingReportedWithoutDeposit` | t613_qr.cpp:121-131 | With the flag lowered and no accepted deposit, no `CheckQr` of a run returns true. |
| `QrRuns.FlagWithoutPoll` | t613_qr.cpp:82-152 | In a run without `CheckQr`, the flag ends raised exactly when it was raised at the start or the run deposited a payload. |
| `QrRuns.FirstPollSeesDeposit` | t613_qr.cpp:89-127 | No deposit is lost before the next poll. The first `CheckQr` after an accepted payload returns true, whatever non-poll events come in between. |
| `QrRuns.BufferKeptWithoutDeposit` | t613_qr.cpp:85-145 | A run without accepted deposits leaves `qr_buffer` as it was. This includes fetches and refused payloads. |
| `QrRuns.LastWriteWins` | t613_qr.cpp:85-88 | After a deposit and any later events that deposit nothing, the buffer holds exactly that deposit's bytes, whatever came before. |
| `QrRuns.StepBinding` | t613_qr.cpp:90-151 | A deposit and `Exit` leave the device disarmed. `Init` and a successful `GetQr` leave it armed. Every other step leaves the driver trace unchanged. |
| `T613Qr.QrPlugin.constructor` | t613_qr.cpp:17-22 | The globals start with an empty buffer, a lowered flag and zero timestamps, with no driver call issued. |
| `T613Qr.QrPlugin.ScanChange` | t613_qr.cpp:44-51 | `scan_change` appends `ScanSw(state)` to the driver trace and changes nothing else. |
| `T613Qr.QrPlugin.LightChange` | t613_qr.cpp:52-59 | `light_change` appends a light command with mode `state + 1` (mod 256) and isTemp 0. |
| `T613Qr.QrPlugin.BindChange` | t613_qr.cpp:60-68 | `bind_change` appends exactly `BindCommands(state)` to the trace. |
| `T613Qr.QrPlugin.ScanCallback` | t613_qr.cpp:82-92 | The callback does what `QrState.ScanCallback` says. FAIL leaves every global as it was. SUCC leaves the buffer equal to `pBuf[..uiBufLen]`, the flag raised and the disarm commands appended. It keeps `Valid()`. |
| `T613Qr.QrPlugin.CheckQr` | t613_qr.cpp:121-131 | Returns the prior flag and lowers it; only the flag may change. |
| `T613Qr.QrPlugin.GetQr` | t613_qr.cpp:133-145 | The result is as `QrState.GetQr` says and at most `len_limit`. The caller buffer's first `n` bytes equal the payload, and the bytes after `n` are untouched. A refusal (`n == 0`) leaves the caller buffer unchanged. `qr_buffer` is not cleared. |
| `T613Qr.QrPlugin.UsingQr` | t613_qr.cpp:116-119 | Only `last_using_time` changes, to the given time. |
| `T613Qr.QrPlugin.Init` | t613_qr.cpp:103-114 | Appends both callback registrations, then the driver init, then the arm commands. Nothing else changes. |
| `T613Qr.QrPlugin.Exit` | t613_qr.cpp:147-152 | Appends the disarm commands, then the driver deinit. Nothing else changes. |

## Left out

- Loading the driver library and resolving its symbols (`LoadLibrary`, `initMethod`, `initRegister`, t613_qr.cpp:69-81, 105-106) are left out. They are platform plumbing. A symbol that fails to resolve, which leaves a null function address to be called later, is not modelled.
- Callback registration appears only as the two trace commands `Init` issues. The driver's later calls of `scan_callback` are modelled as direct calls of `QrPlugin.ScanCallback`.
- `state_callback` (t613_qr.cpp:93-95) is left out. It only logs.
- All console logging is left out.
- The driver's status codes for `ts_scan_sw` and the light call are left out. They only choose a log line. The status of `ts_scan_init` and `ts_scan_deinit` is ignored by the code too.
- The wall clock (`system_clock::now`) is an input: the `now` parameter of `UsingQr` and `GetQr`.
- Concurrency is left out. The driver's callback thread and the host's thread share the globals without a lock. The model treats every entry point as one atomic step and makes no claim about interleavings inside a call.
- The unused globals and declarations `last_cam_time`, `cam_opened`, `alive`, `CamUpdate` and `log_prefix` are left out.
- `T613Qr.QrPlugin.GetQr`: `len_limit` is taken as a non-negative number. In the code a negative `int` limit is converted to a huge unsigned value and admits any payload. The caller's buffer is required to hold at least `len_limit` bytes, which the code silently assumes.
- `T613Qr.QrPlugin.ScanCallback`: the driver is required to supply at least `uiBufLen` readable bytes at a non-null `pBuf`, which the code silently assumes.
