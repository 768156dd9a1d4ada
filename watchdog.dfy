/**
 * The watchdog controller of a SAMD microcontroller.
 *
 * The controller arms the watchdog peripheral (WDT) with one of ten period
 * steps, routes its early-warning interrupt to a latched flag and an optional
 * user hook, and lets the application check in. Every register bit and every
 * module global the controller touches is a field of `Controller`; the one
 * pure computation, the table from step code to milliseconds, is a function
 * with lemmas about its shape.
 */
module Watchdog {

  /** `uint8_t`, the type of the period step code. */
  newtype u8 = x: int | 0 <= x < 0x100

  /** `uint16_t`, the type of the reported timeout. */
  newtype u16 = x: int | 0 <= x < 0x1_0000

  /** Step codes 0 .. PeriodSteps - 1 are the ten valid periods. */
  const PeriodSteps: u8 := 10

  /** Generic clock generator that feeds the watchdog (`WDT_GCLK`). */
  const WdtGclk: nat := 4

  /** GENDIV value for that generator: the 32 kHz oscillator divided by 2^(4+1) ticks once a millisecond. */
  const GclkDivisor: nat := 4

  /** Priority the WDT interrupt line is given (the highest). */
  const WdtIrqPriority: nat := 0

  datatype Option<T> = None | Some(value: T)

  predicate ValidPeriod(period: u8) {
    period < PeriodSteps
  }

  ghost function Pow2(k: nat): (r: nat)
    ensures r >= 1
  {
    if k == 0 then 1 else 2 * Pow2(k - 1)
  }

  /** Early-warning interval in milliseconds of a step code; 0 marks an unknown code. */
  function PeriodLengthMs(period: u8): (ms: u16)
    ensures ms != 0 <==> ValidPeriod(period)
    ensures ValidPeriod(period) ==> 16 <= ms <= 8192
  {
    match period
    case 0 => 16
    case 1 => 32
    case 2 => 64
    case 3 => 128
    case 4 => 256
    case 5 => 512
    case 6 => 1024
    case 7 => 2048
    case 8 => 4096
    case 9 => 8192
    case _ => 0
  }

  /**
   * Duration of hardware step n on the 1 kHz watchdog clock: 16 * 2^n ms.
   * CONFIG.PER and EWCTRL.EWOFFSET both count in these steps, including
   * step 10, the reset step of the longest period.
   */
  ghost function StepMs(n: nat): nat {
    16 * Pow2(n)
  }

  /** Each hardware step lasts twice the step below it. */
  lemma StepDoubles(n: nat)
    ensures StepMs(n + 1) == 2 * StepMs(n)
  {
  }

  /** The table agrees with the step duration on every valid step: 16, 32, ..., 8192. */
  lemma {:induction false} PeriodLengthIsPowerOfTwo(period: u8)
    requires ValidPeriod(period)
    ensures PeriodLengthMs(period) as int == StepMs(period as nat)
  {
    if period > 0 {
      PeriodLengthIsPowerOfTwo(period - 1);
    }
  }

  /** The table is strictly increasing over the valid steps. */
  lemma PeriodLengthIncreasing(p: u8, q: u8)
    requires p < q < PeriodSteps
    ensures PeriodLengthMs(p) < PeriodLengthMs(q)
  {
    PeriodLengthIsPowerOfTwo(p);
    PeriodLengthIsPowerOfTwo(q);
    Pow2Increasing(p as nat, q as nat);
  }

  lemma {:induction false} Pow2Increasing(j: nat, k: nat)
    requires j < k
    ensures Pow2(j) < Pow2(k)
  {
    if j + 1 < k {
      Pow2Increasing(j, k - 1);
    }
  }

  /**
   * The reset step that enable programs (period + 1) lasts twice the
   * early-warning step (period) for every valid period, step 9 included,
   * and twice the interval that enable reports.
   */
  lemma ResetStepDoublesWarning(period: u8)
    requires ValidPeriod(period)
    ensures StepMs(period as nat + 1) == 2 * StepMs(period as nat)
    ensures StepMs(period as nat + 1) == 2 * PeriodLengthMs(period) as int
  {
    PeriodLengthIsPowerOfTwo(period);
  }


  /** The user callback, reduced to its identity: its body is foreign code. */
  datatype Hook = Hook(id: nat)

  /** One call of the public interface, the interrupt, or the peripheral raising its flag. */
  datatype Op =
    | Initialize
    | Enable(period: u8, alwaysOn: bool)
    | Disable
    | Checkin
    | ConfigureHook(hook: Option<Hook>)
    | ClearEarlyWarning
    | Interrupt
    | EarlyWarningEvent

  /**
   * The watchdog's registers and the module's globals, updated in place.
   * Each method's `modifies` clause names exactly the bits it writes, so
   * every other field is unchanged by it.
   */
  class Controller {
    var ctrlEnable: bool             // WDT CTRL.ENABLE
    var ctrlWen: bool                // WDT CTRL.WEN (windowed mode)
    var ctrlAlwaysOn: bool           // WDT CTRL.ALWAYSON
    var configPer: nat               // WDT CONFIG.PER, the reset step
    var ewOffset: nat                // WDT EWCTRL.EWOFFSET, the early-warning step
    var intensetEw: bool             // WDT INTENSET.EW
    var intflagEw: bool              // WDT INTFLAG.EW
    var apbamaskWdt: bool            // PM APBAMASK.WDT, the WDT bus clock
    var gclkConfigured: bool         // the WDT's generic clock set up and routed
    var gclkGenerator: nat           // the generator routed to the WDT (CLKCTRL.GEN)
    var gclkDivisor: nat             // GENDIV.DIV of that generator
    var nvicEnabled: bool            // WDT interrupt line unmasked
    var nvicPriority: nat            // WDT interrupt line priority
    var initialized: bool            // wdt_initialized
    var earlyWarningTriggered: bool  // wdt_early_warning_triggered
    var hook: Option<Hook>           // wdt_hook
    var hookCalls: seq<Hook>         // every invocation of a hook, oldest first
    var checkins: nat                // writes of the reload key to CLEAR

    /**
     * What holds in every state the controller reaches: initialisation and
     * clock routing go together, the reset step sits one above the
     * early-warning step once programmed, windowed mode is never on, and
     * nothing is armed or unmasked before initialisation.
     */
    predicate Valid()
      reads this
    {
      && (initialized <==> gclkConfigured)
      && (gclkConfigured ==> gclkGenerator == WdtGclk && gclkDivisor == GclkDivisor)
      && (configPer == ewOffset + 1 || (configPer == 0 && ewOffset == 0))
      && !ctrlWen
      && (ctrlEnable || ctrlAlwaysOn || intensetEw ==> initialized)
      && (nvicEnabled ==> initialized && nvicPriority == WdtIrqPriority)
    }

    /** Power-on: the globals hold their initialisers and every register bit is clear. */
    constructor ()
      ensures Valid()
      ensures !ctrlEnable && !ctrlWen && !ctrlAlwaysOn && configPer == 0 && ewOffset == 0
      ensures !intensetEw && !intflagEw && !apbamaskWdt && !gclkConfigured && gclkGenerator == 0
      ensures !nvicEnabled && nvicPriority == 0
      ensures !initialized && !earlyWarningTriggered && hook == None
      ensures hookCalls == [] && checkins == 0
    {
      ctrlEnable, ctrlWen, ctrlAlwaysOn := false, false, false;
      configPer, ewOffset := 0, 0;
      intensetEw, intflagEw := false, false;
      apbamaskWdt := false;
      gclkConfigured, gclkGenerator, gclkDivisor := false, 0, 0;
      nvicEnabled, nvicPriority := false, 0;
      initialized, earlyWarningTriggered := false, false;
      hook, hookCalls, checkins := None, [], 0;
    }

    /** One-time clock setup; every call after the first changes nothing. */
    method Initialize()
      requires Valid()
      modifies this`initialized, this`apbamaskWdt, this`gclkConfigured, this`gclkGenerator, this`gclkDivisor
      ensures Valid()
      ensures initialized
      ensures old(initialized) ==> unchanged(this)
      ensures !old(initialized) ==> apbamaskWdt && gclkConfigured
      ensures !old(initialized) ==> gclkGenerator == WdtGclk && gclkDivisor == GclkDivisor
    {
      if initialized {
        return;
      }
      initialized := true;
      apbamaskWdt := apbamaskWdt || true;     // APBAMASK |= WDT
      // GENDIV, GENCTRL and CLKCTRL: generator WdtGclk from the 32 kHz
      // oscillator, divided down to 1 kHz, routed to the WDT.
      gclkDivisor := GclkDivisor;
      gclkGenerator := WdtGclk;
      gclkConfigured := true;
    }

    /**
     * Arms the watchdog: reset after step period + 1, early warning after
     * step period, permanently when alwaysOn; returns the early-warning
     * interval, 0 for an unknown step code. Initialisation is skipped when it
     * has run before, so the bus clock is switched on only by the first call.
     */
    method Enable(period: u8, alwaysOn: bool) returns (ms: u16)
      requires Valid()
      modifies this`initialized, this`apbamaskWdt, this`gclkConfigured, this`gclkGenerator, this`gclkDivisor
      modifies this`ctrlEnable, this`ctrlWen, this`ctrlAlwaysOn, this`configPer, this`ewOffset
      modifies this`intensetEw, this`nvicEnabled, this`nvicPriority
      ensures Valid()
      ensures ms == PeriodLengthMs(period)
      ensures ms != 0 <==> ValidPeriod(period)
      ensures configPer == period as nat + 1 && ewOffset == period as nat
      ensures !ctrlWen && intensetEw && nvicEnabled && nvicPriority == WdtIrqPriority
      ensures ctrlAlwaysOn == (old(ctrlAlwaysOn) || alwaysOn)
      ensures ctrlEnable == !alwaysOn
      ensures initialized && gclkConfigured
      ensures apbamaskWdt == (old(apbamaskWdt) || !old(initialized))
      ensures earlyWarningTriggered == old(earlyWarningTriggered) && intflagEw == old(intflagEw)
    {
      Initialize();
      ctrlEnable := ctrlEnable && false;      // CTRL &= ~ENABLE
      ctrlWen := ctrlWen && false;            // CTRL &= ~WEN
      configPer := period as nat + 1;
      ewOffset := period as nat;
      if alwaysOn {
        ctrlAlwaysOn := ctrlAlwaysOn || true; // CTRL |= ALWAYSON
      } else {
        ctrlEnable := ctrlEnable || true;     // CTRL |= ENABLE
      }
      intensetEw := true;
      nvicEnabled := true;
      nvicPriority := WdtIrqPriority;
      ms := PeriodLengthMs(period);
    }

    /** Clears ENABLE and gates the bus clock; ALWAYSON and the globals stay as they were. */
    method Disable()
      requires Valid()
      modifies this`ctrlEnable, this`apbamaskWdt
      ensures Valid()
      ensures !ctrlEnable && !apbamaskWdt
      ensures ctrlAlwaysOn == old(ctrlAlwaysOn) && initialized == old(initialized)
      ensures earlyWarningTriggered == old(earlyWarningTriggered) && hook == old(hook)
    {
      ctrlEnable := ctrlEnable && false;      // CTRL &= ~ENABLE
      apbamaskWdt := apbamaskWdt && false;    // APBAMASK &= ~WDT
    }

    /** Writes the reload key to CLEAR. */
    method Checkin()
      requires Valid()
      modifies this`checkins
      ensures Valid()
      ensures checkins == old(checkins) + 1
    {
      checkins := checkins + 1;
    }

    /** Installs, replaces or (with None) removes the hook; no hook is called. */
    method ConfigureHook(h: Option<Hook>)
      requires Valid()
      modifies this`hook
      ensures Valid()
      ensures hook == h
    {
      hook := h;
    }

    /** Clears the hardware flag and the latched flag. */
    method ClearEarlyWarning()
      requires Valid()
      modifies this`intflagEw, this`earlyWarningTriggered
      ensures Valid()
      ensures !intflagEw && !earlyWarningTriggered
    {
      intflagEw := false;
      earlyWarningTriggered := false;
    }

    /** The live hardware flag. */
    method IsEarlyWarning() returns (b: bool)
      ensures b == intflagEw
    {
      b := intflagEw;
    }

    /** The latched flag: true from an interrupt until the next explicit clear. */
    method ReadEarlyWarning() returns (b: bool)
      ensures b == earlyWarningTriggered
    {
      b := earlyWarningTriggered;
    }

    /**
     * The early-warning interrupt: latches the flag, clears the hardware flag
     * and calls the installed hook exactly once, or not at all when none is.
     */
    method Handler()
      requires Valid()
      modifies this`earlyWarningTriggered, this`intflagEw, this`hookCalls
      ensures Valid()
      ensures earlyWarningTriggered && !intflagEw
      ensures hookCalls == old(hookCalls) + (if hook.Some? then [hook.value] else [])
    {
      earlyWarningTriggered := true;
      intflagEw := false;
      if hook.Some? {
        hookCalls := hookCalls + [hook.value];
      }
    }

    /** The peripheral reaching the early-warning point: the environment's move, not the controller's. */
    method EarlyWarningEvent()
      requires Valid()
      modifies this`intflagEw
      ensures Valid()
      ensures intflagEw
    {
      intflagEw := true;
    }

    /**
     * Performs one operation. Whatever it is, ALWAYSON and `wdt_initialized`
     * stay set once set, only the interrupt sets the latched flag or calls a
     * hook, only a clear resets the latched flag, and the hook log only grows.
     */
    method Apply(op: Op)
      requires Valid()
      modifies this
      ensures Valid()
      ensures old(ctrlAlwaysOn) ==> ctrlAlwaysOn
      ensures old(initialized) ==> initialized
      ensures !op.Interrupt? ==> earlyWarningTriggered ==> old(earlyWarningTriggered)
      ensures !op.Interrupt? ==> hookCalls == old(hookCalls)
      ensures !op.ClearEarlyWarning? ==> old(earlyWarningTriggered) ==> earlyWarningTriggered
      ensures old(hookCalls) <= hookCalls && |hookCalls| <= |old(hookCalls)| + 1
    {
      match op
      case Initialize => Initialize();
      case Enable(period, alwaysOn) => var _ := Enable(period, alwaysOn);
      case Disable => Disable();
      case Checkin => Checkin();
      case ConfigureHook(h) => ConfigureHook(h);
      case ClearEarlyWarning => ClearEarlyWarning();
      case Interrupt => Handler();
      case EarlyWarningEvent => EarlyWarningEvent();
    }

    /** Performs the operations in order; see `Apply` for what each one keeps. */
    method Run(ops: seq<Op>)
      requires Valid()
      modifies this
      ensures Valid()
      ensures old(ctrlAlwaysOn) ==> ctrlAlwaysOn
      ensures old(initialized) ==> initialized
      ensures Interrupt !in ops ==> earlyWarningTriggered ==> old(earlyWarningTriggered)
      ensures Interrupt !in ops ==> hookCalls == old(hookCalls)
      ensures Op.ClearEarlyWarning !in ops ==> old(earlyWarningTriggered) ==> earlyWarningTriggered
      ensures old(hookCalls) <= hookCalls && |hookCalls| <= |old(hookCalls)| + |ops|
    {
      var i := 0;
      while i < |ops|
        invariant 0 <= i <= |ops|
        invariant Valid()
        invariant old(ctrlAlwaysOn) ==> ctrlAlwaysOn
        invariant old(initialized) ==> initialized
        invariant Interrupt !in ops[..i] ==> earlyWarningTriggered ==> old(earlyWarningTriggered)
        invariant Interrupt !in ops[..i] ==> hookCalls == old(hookCalls)
        invariant Op.ClearEarlyWarning !in ops[..i] ==> old(earlyWarningTriggered) ==> earlyWarningTriggered
        invariant old(hookCalls) <= hookCalls && |hookCalls| <= |old(hookCalls)| + i
      {
        assert ops[..i + 1] == ops[..i] + [ops[i]];
        Apply(ops[i]);
        i := i + 1;
      }
      assert ops[..i] == ops;
    }
  }

  /**
   * Once enable has programmed CONFIG.PER (it is never 0 afterwards), the
   * reset timeout is twice the early-warning timeout, for every period.
   */
  lemma ProgrammedResetDoublesWarning(wdt: Controller)
    requires wdt.Valid() && wdt.configPer != 0
    ensures wdt.configPer == wdt.ewOffset + 1
    ensures StepMs(wdt.configPer) == 2 * StepMs(wdt.ewOffset)
  {
    StepDoubles(wdt.ewOffset);
  }

  /**
   * Whatever ran before, enable programs a reset step lasting twice its
   * early-warning step, and for a valid period the early-warning step lasts
   * exactly the interval enable reports.
   */
  method EnableDoublesReset(before: seq<Op>, period: u8, alwaysOn: bool) returns (per: nat, off: nat, ms: u16)
    ensures StepMs(per) == 2 * StepMs(off)
    ensures ValidPeriod(period) ==> StepMs(off) == ms as int
  {
    var wdt := new Controller();
    wdt.Run(before);
    ms := wdt.Enable(period, alwaysOn);
    ProgrammedResetDoublesWarning(wdt);
    if ValidPeriod(period) {
      PeriodLengthIsPowerOfTwo(period);
    }
    per, off := wdt.configPer, wdt.ewOffset;
  }

  /**
   * Enabling, disabling and enabling again: the second enable finds
   * `wdt_initialized` set and skips initialisation, so the bus clock that
   * disable switched off stays off, while the timeout is programmed as usual.
   */
  method ReenableAfterDisable(period: u8, alwaysOn: bool) returns (busClock: bool, per: nat, ms: u16)
    ensures !busClock
    ensures per == period as nat + 1
    ensures ms == PeriodLengthMs(period)
  {
    var wdt := new Controller();
    ms := wdt.Enable(period, alwaysOn);
    assert wdt.apbamaskWdt;
    wdt.Disable();
    ms := wdt.Enable(period, alwaysOn);
    busClock, per := wdt.apbamaskWdt, wdt.configPer;
  }

  /**
   * A hook installed before an interrupt is called once by it; the latched
   * flag then reads true although the hardware flag is already clear;
   * removing the hook does not undo the call and a later interrupt calls
   * nothing; after a clear the latched flag reads false.
   */
  method EarlyWarningRoundTrip(h: Hook) returns (calls: seq<Hook>, latched: bool, live: bool, afterClear: bool)
    ensures calls == [h]
    ensures latched && !live
    ensures !afterClear
  {
    var wdt := new Controller();
    var _ := wdt.Enable(0, false);
    wdt.ConfigureHook(Some(h));
    wdt.EarlyWarningEvent();
    wdt.Handler();
    latched := wdt.ReadEarlyWarning();
    live := wdt.IsEarlyWarning();
    wdt.ConfigureHook(None);
    wdt.EarlyWarningEvent();
    wdt.Handler();
    calls := wdt.hookCalls;
    wdt.ClearEarlyWarning();
    afterClear := wdt.ReadEarlyWarning();
  }

  /**
   * Once a watchdog is enabled in always-on mode, no sequence of calls,
   * interrupts and events clears ALWAYSON.
   */
  method AlwaysOnIsSticky(before: seq<Op>, period: u8, after: seq<Op>) returns (alwaysOn: bool)
    ensures alwaysOn
  {
    var wdt := new Controller();
    wdt.Run(before);
    var _ := wdt.Enable(period, true);
    wdt.Run(after);
    alwaysOn := wdt.ctrlAlwaysOn;
  }

  /**
   * From power-on, without an interrupt the latched flag is never set and no
   * hook is ever called, whatever else happens.
   */
  method NoInterruptNoLatch(ops: seq<Op>) returns (latched: bool, calls: seq<Hook>)
    ensures Interrupt !in ops ==> !latched && calls == []
    ensures |calls| <= |ops|
  {
    var wdt := new Controller();
    wdt.Run(ops);
    latched, calls := wdt.earlyWarningTriggered, wdt.hookCalls;
  }

  /**
   * After an interrupt the latched flag stays set through any calls that do
   * not include a clear, enable and disable among them.
   */
  method LatchHeldUntilClear(before: seq<Op>, after: seq<Op>) returns (latched: bool)
    ensures Op.ClearEarlyWarning !in after ==> latched
  {
    var wdt := new Controller();
    wdt.Run(before);
    wdt.Handler();
    wdt.Run(after);
    latched := wdt.ReadEarlyWarning();
  }
}
