# Watchdog controller (SAMD WDT) in Dafny

This project models the watchdog controller of the AtSamd support library
(`watchdog.cpp`). The controller arms the microcontroller's watchdog
peripheral with one of ten period steps, programs the reset timeout one step
beyond the early-warning offset, unmasks the early-warning interrupt at the
highest priority, and lets the application check in. The interrupt handler
latches a software flag, clears the hardware flag and calls an optional user
hook.

Everything lives in one module, `Watchdog` (`watchdog.dfy`):

- `PeriodLengthMs` is the pure table from step code (`uint8_t`, modelled as
  the newtype `u8`) to milliseconds. The lemmas beside it prove that it is
  16·2^k on steps 0..9 and strictly increasing there. `StepMs(n)` = 16·2^n ms
  is the duration of hardware step n on the 1 kHz watchdog clock. It covers
  step 10, the reset step of the longest period, which the table lacks.
- `Controller` is a class with one field per register bit and per module
  global that the controller touches. Those are the WDT CTRL bits ENABLE, WEN
  and ALWAYSON, CONFIG.PER, EWCTRL.EWOFFSET, INTENSET.EW and INTFLAG.EW. They
  also include the power manager's APBAMASK.WDT bit, a "generic clock
  configured" marker with its divisor, and the NVIC enable bit and priority.
  The globals are `wdt_initialized`, `wdt_early_warning_triggered` and
  `wdt_hook`.
- Each method's `modifies` clause names exactly the fields the C function
  writes, so every other field is unchanged by it. Register updates are
  written as read-modify-write on booleans (`|=` as `x || true`, `&= ~` as
  `x && false`).
- `Controller.Valid` is the invariant every method keeps. Initialisation and
  clock routing go together, and CONFIG.PER is EWCTRL.EWOFFSET + 1 once
  programmed. Windowed mode is never on. Nothing is armed or unmasked before
  initialisation.
- The hook is an opaque token (`Hook`). `hookCalls` logs its invocations in
  order, so "called exactly once" and "never un-called" are statements about
  that log. `checkins` counts writes of the reload key.
- `Controller.EarlyWarningEvent` stands for the peripheral raising INTFLAG.EW
  when the early-warning point passes. It is the environment's move, not code
  of the library, and so it has no row below.
- ALWAYSON is monotone. No method's frame includes it except `Enable`, which
  ensures `ctrlAlwaysOn == old(ctrlAlwaysOn) || alwaysOn`.
- The latched flag is set only by `Handler` and cleared only by
  `ClearEarlyWarning`. Neither `Enable` nor `Disable` has it in its frame.
- `Op` names one call of the public interface, the interrupt, or the
  peripheral's event. `Controller.Apply` performs one of them, and
  `Controller.Run` performs a sequence of them in a loop. Their contracts
  carry the properties above across any sequence of calls. The client methods
  `AlwaysOnIsSticky`, `NoInterruptNoLatch`, `LatchHeldUntilClear` and
  `EnableDoublesReset` use them from power-on.

The model follows the code where it departs from the intended lifecycle, in
which `disable` returns an armed, revocable watchdog to a "clock ready" state
from which `enable` re-arms it. In the code, `wdt_disable`
switches the WDT bus clock off but leaves `wdt_initialized` set, so the next
`wdt_enable` skips `wdt_initialize` and leaves the bus clock off.
`Controller.Enable` states this (`apbamaskWdt == old(apbamaskWdt) ||
!old(initialized)`), and `ReenableAfterDisable` shows it from power-on.

## Model

| member | source | states |
|---|---|---|
| `Watchdog.PeriodLengthMs` | watchdog.cpp:77-91 | The timeout is nonzero exactly for the ten valid step codes 0..9; every other code maps to 0, and the valid ones lie between 16 and 8192 ms. |
| `Watchdog.PeriodLengthIsPowerOfTwo` | watchdog.cpp:77-91 | For each valid step k the table gives 16·2^k ms: 16, 32, 64, …, 8192. |
| `Watchdog.PeriodLengthIncreasing` | watchdog.cpp:77-91 | A higher valid step always gives a strictly longer timeout. |
| `Watchdog.ResetStepDoublesWarning` | watchdog.cpp:104-109 | For every valid period, step 9 included, the reset step `period + 1` lasts twice the early-warning step `period`, and twice the interval the table reports. |
| `Watchdog.ProgrammedResetDoublesWarning` | watchdog.cpp:104-109 | In any consistent state where CONFIG.PER has been programmed, it is EWCTRL.EWOFFSET + 1, so the reset timeout is twice the early-warning timeout. |
| `Watchdog.EnableDoublesReset` | watchdog.cpp:93-128 | After any sequence of operations, enable programs a reset step lasting twice its early-warning step. For a valid period the early-warning step lasts exactly the interval enable returns. |
| `Watchdog.Controller.constructor` | watchdog.cpp:7-28 | Power-on: `wdt_early_warning_triggered` and `wdt_initialized` are false, `wdt_hook` is null, every register bit is clear, and the invariant holds. |
| `Watchdog.Controller.Initialize` | watchdog.cpp:30-75 | The first call sets `wdt_initialized`, sets APBAMASK.WDT, and routes generator 4 (`WDT_GCLK`) with divisor 4 to the WDT. Every later call changes nothing at all. |
| `Watchdog.Controller.Enable` | watchdog.cpp:93-128 | Returns `PeriodLengthMs(period)`, so the result is nonzero iff the period is valid. CONFIG.PER becomes `period + 1` and EWCTRL.EWOFFSET becomes `period`. WEN is clear, INTENSET.EW is set, and the IRQ is enabled at priority 0. ALWAYSON is set if `alwaysOn`, otherwise ENABLE is set; ALWAYSON is never cleared. `wdt_initialized` is true. The bus clock is on only if it was on or this call initialised. The latched flag, INTFLAG.EW, hook and checkins are untouched. |
| `Watchdog.Controller.Disable` | watchdog.cpp:130-137 | Clears ENABLE and APBAMASK.WDT. ALWAYSON, `wdt_initialized`, the hook and the latched flag are unchanged. |
| `Watchdog.Controller.Checkin` | watchdog.cpp:139-143 | Records one more write of the reload key and changes nothing else. |
| `Watchdog.Controller.ConfigureHook` | watchdog.cpp:11-13 | The installed hook becomes the argument (None for null). No hook is called, and nothing else changes. |
| `Watchdog.Controller.ClearEarlyWarning` | watchdog.cpp:15-18 | Afterwards both INTFLAG.EW and the latched flag are false, so `ReadEarlyWarning` returns false. |
| `Watchdog.Controller.IsEarlyWarning` | watchdog.cpp:20-22 | Returns the live INTFLAG.EW bit. |
| `Watchdog.Controller.ReadEarlyWarning` | watchdog.cpp:145-147 | Returns the latched flag. |
| `Watchdog.Controller.Handler` | watchdog.cpp:149-155 | Latches the flag and clears INTFLAG.EW. It appends the installed hook to the call log exactly once if one is installed, and leaves the log unchanged if none is. |
| `Watchdog.ReenableAfterDisable` | watchdog.cpp:31-39 | From power-on, enable, disable and enable again leave APBAMASK.WDT clear, because the early return skips re-enabling the bus clock. CONFIG.PER is still `period + 1` and the result is still the table value. |
| `Watchdog.Controller.Apply` | watchdog.cpp:11-155 | Whichever operation runs, ALWAYSON and `wdt_initialized` stay set once set. Only the interrupt sets the latched flag or calls a hook. Only a clear resets the latched flag. The hook log only grows, by at most one entry. |
| `Watchdog.Controller.Run` | watchdog.cpp:11-155 | The same properties hold across any sequence of operations. Without an interrupt in it the latched flag is not set and the log is unchanged; without a clear in it the latched flag is not reset. The log grows by at most one entry per operation. |
| `Watchdog.AlwaysOnIsSticky` | watchdog.cpp:112-116 | After an always-on enable, no sequence of calls, interrupts and events clears ALWAYSON. |
| `Watchdog.NoInterruptNoLatch` | watchdog.cpp:149-155 | From power-on, a sequence without an interrupt leaves the latched flag false and calls no hook; a hook is never called more often than there are operations. |
| `Watchdog.LatchHeldUntilClear` | watchdog.cpp:15-18 | After an interrupt, `ReadEarlyWarning` returns true through any sequence of operations without a clear, including enable and disable. |
| `Watchdog.EarlyWarningRoundTrip` | watchdog.cpp:145-155 | A hook installed before an interrupt is called exactly once. Afterwards the latched flag reads true while the hardware flag reads false. Removing the hook does not undo the call, and a later interrupt with no hook calls nothing. After a clear the latched flag reads false. |

## Left out

- `system.cpp` and `system.h` (device ID register read, free-memory estimate from the stack and heap addresses) are not part of this model: they are raw register and pointer reads with nothing to specify.
- The SYNCBUSY busy-wait loops (`wdt_sync` and the GCLK status polls) are instantaneous no-ops: their termination depends on the hardware.
- The bit encodings of GENDIV, GENCTRL and CLKCTRL and the `WDT_*` and `GCLK_*` macros come from the vendor header, which is not part of this model. The clock setup is a "configured" flag plus the divisor value 4.
- `Watchdog.Controller.Enable`: CONFIG.PER and EWCTRL.EWOFFSET are stored as the unbounded values `period + 1` and `period`. The field masks that the vendor macros apply to an out-of-range code are not modelled. The period step constants of `watchdog.h` are taken to be the consecutive codes 0..9.
- Hardware behaviour is not modelled. That covers the device reset on a missed checkin and the peripheral ignoring a disable in always-on mode. It also covers writes being ignored while the bus clock is off and CTRL bits preset by fuses at power-on.
- INTFLAG is write-one-to-clear and INTENSET is write-one-to-set. Each write is modelled by its effect: clearing INTFLAG.EW and setting INTENSET.EW.
- `volatile` and the concurrency between the interrupt handler and main-line code are not modelled. `Handler` is an ordinary method the environment may call between any two others.
- The hook's body is foreign code. It is an opaque token, and its invocations are a log. The hook is assumed to leave every controller field unchanged; a hook that itself clears the flag or replaces the hook is not modelled.
- Register reset values are taken as zero: the constructor clears every register bit and field at power-on.
- `Watchdog.ResetStepDoublesWarning`: the time encoding of a hardware step, `StepMs(n)` = 16·2^n ms on the 1 kHz clock, is an assumption about the peripheral, not something the code states. The doubling rests on it.
