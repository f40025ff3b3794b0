/**
 * The calibration routine of radioNano (cal.h) as a state machine on values.
 *
 * The routine's state is the global correction `calvalue` (int32, hertz), the global
 * `stepSIZE`, the int32 record kept in EEPROM at address 1000, and the last arguments
 * handed to the Si5351 driver (`set_correction` and `set_freq` on CLK0).  Each discrete
 * thing that can happen while the routine runs is an `Event`; `Apply` gives its effect
 * and `Run` the effect of a sequence of them.  The class in CalRoutine performs the same
 * steps in place and is specified by these functions.
 */
module CalModel {
  import opened Wrappers
  import opened Word

  /** The value the load treats as "unset": the literal 0xffff, i.e. 65535, not the all-ones int32. */
  const Sentinel: Int32 := 0xffff

  /** What an int32 read from four erased (0xFF) EEPROM bytes holds. */
  const Erased: Int32 := -1

  /** Argument of `set_freq` on entry: 10 MHz in the driver's 0.01 Hz units. */
  const ReferenceFreq: nat := 10_000_000 * 100

  /** The correction is handed to the driver in 0.01 Hz units, so it is scaled by this. */
  const DriverScale: int := 100

  /** Largest |calvalue| whose scaled value still fits in an int32. */
  const DriverLimit: int := 21474836

  datatype CalState = CalState(
    calvalue: Int32,            // the correction in hertz
    stepSize: int,              // hertz added or removed per encoder tick
    eeprom: Int32,              // the int32 record at EEPROM address 1000
    correction: Option<Int32>,  // last argument of set_correction, if any since power-up
    clk0: Option<nat>)          // last argument of set_freq on CLK0, if any since power-up

  datatype Event =
    | Enter                               // routine entry: interrupt armed, 10 MHz reference set
    | Load                                // correction read back from EEPROM
    | Edge(pulseLow: bool, dirHigh: bool) // one falling edge on the encoder pulse pin, with the sampled levels
    | StepPress                           // STEP button seen pressed by the polling loop
    | SelectPress                         // VF/CH button seen pressed by the polling loop
    | PowerCycle                          // the only way out of the routine

  /** The step sizes the STEP button cycles through. */
  predicate IsStep(s: int) {
    s == 1 || s == 10 || s == 100 || s == 1000
  }

  /** The invariant every reachable state keeps. */
  predicate Inv(st: CalState) {
    IsStep(st.stepSize)
  }

  /** The driver holds the scaled version of the current correction. */
  predicate Synced(st: CalState) {
    st.correction == Some(DriverArg(st.calvalue))
  }

  /** `calvalue * 100`, computed in 32 bits; exact precisely when |c| <= DriverLimit. */
  function DriverArg(c: Int32): (r: Int32)
    ensures r == c * DriverScale <==> -DriverLimit <= c <= DriverLimit
  {
    Wrap(c * DriverScale)
  }

  /** State after power-up: zero-initialised `calvalue`, `stepSIZE` from its initialiser, nothing sent yet. */
  function PowerUp(stored: Int32): (st: CalState)
    ensures Inv(st) && st.calvalue == 0 && st.stepSize == 1
    ensures st.eeprom == stored
    ensures st.correction.None? && st.clk0.None?
  {
    CalState(0, 1, stored, None, None)
  }

  /** STEP: multiply by ten, and wrap anything above 1000 back to 1. */
  function NextStep(s: int): (r: int)
    ensures IsStep(s) ==> IsStep(r) && r != s
    ensures IsStep(s) ==> (r < s <==> s == 1000)
  {
    if s * 10 > 1000 then 1 else s * 10
  }

  /** The correction the load produces from a stored record. */
  function LoadedValue(stored: Int32): (r: Int32)
    ensures r != stored <==> stored == Sentinel
    ensures r == 0 <==> stored == 0 || stored == Sentinel
  {
    if stored == Sentinel then 0 else stored
  }

  function EnterRoutine(st: CalState): (r: CalState)
    ensures r.clk0 == Some(ReferenceFreq)
    ensures r.calvalue == st.calvalue && r.stepSize == st.stepSize
    ensures r.eeprom == st.eeprom && r.correction == st.correction
  {
    st.(clk0 := Some(ReferenceFreq))
  }

  /** The load reads the record and replaces the sentinel by 0; it does not update the driver. */
  function LoadCal(st: CalState): (r: CalState)
    ensures r.calvalue == LoadedValue(st.eeprom)
    ensures st.eeprom != Sentinel ==> r.calvalue == st.eeprom
    ensures r.stepSize == st.stepSize && r.eeprom == st.eeprom
    ensures r.correction == st.correction && r.clk0 == st.clk0
  {
    st.(calvalue := LoadedValue(st.eeprom))
  }

  /**
   * One encoder edge.  A low pulse with a low direction pin subtracts the step, a low pulse
   * with a high direction pin adds it; in every case the (new) correction is then sent to the driver.
   */
  function EncoderEdge(st: CalState, pulseLow: bool, dirHigh: bool): (r: CalState)
    ensures r.stepSize == st.stepSize && r.eeprom == st.eeprom && r.clk0 == st.clk0
    ensures Synced(r)
    ensures !pulseLow ==> r.calvalue == st.calvalue
    ensures pulseLow && !dirHigh && InRange(st.calvalue - st.stepSize) ==> r.calvalue == st.calvalue - st.stepSize
    ensures pulseLow && dirHigh && InRange(st.calvalue + st.stepSize) ==> r.calvalue == st.calvalue + st.stepSize
    ensures pulseLow ==> (r.calvalue - st.calvalue - (if dirHigh then st.stepSize else -st.stepSize)) % Modulus == 0
  {
    var down := if pulseLow && !dirHigh then Wrap(st.calvalue - st.stepSize) else st.calvalue;
    var up := if pulseLow && dirHigh then Wrap(down + st.stepSize) else down;
    st.(calvalue := up, correction := Some(DriverArg(up)))
  }

  function PressStep(st: CalState): (r: CalState)
    ensures r.stepSize == NextStep(st.stepSize)
    ensures Inv(st) ==> Inv(r) && r.stepSize != st.stepSize
    ensures r.calvalue == st.calvalue && r.eeprom == st.eeprom
    ensures r.correction == st.correction && r.clk0 == st.clk0
  {
    st.(stepSize := NextStep(st.stepSize))
  }

  /** VF/CH: store the current correction at EEPROM address 1000. */
  function PressSelect(st: CalState): (r: CalState)
    ensures r.eeprom == st.calvalue
    ensures r.calvalue == st.calvalue && r.stepSize == st.stepSize
    ensures r.correction == st.correction && r.clk0 == st.clk0
  {
    st.(eeprom := st.calvalue)
  }

  /** Power cycle: RAM starts over, only the EEPROM record survives. */
  function PowerOff(st: CalState): (r: CalState)
    ensures Inv(r) && r.stepSize == 1
    ensures r.eeprom == st.eeprom && r.calvalue == 0
    ensures r.correction.None? && r.clk0.None?
  {
    PowerUp(st.eeprom)
  }

  /** One pass of the polling loop or one encoder interrupt: the event's effect on the state. */
  function Apply(st: CalState, e: Event): (r: CalState)
    ensures !e.SelectPress? ==> r.eeprom == st.eeprom
    ensures e.SelectPress? ==> r.eeprom == st.calvalue
  {
    match e
    case Enter => EnterRoutine(st)
    case Load => LoadCal(st)
    case Edge(pulseLow, dirHigh) => EncoderEdge(st, pulseLow, dirHigh)
    case StepPress => PressStep(st)
    case SelectPress => PressSelect(st)
    case PowerCycle => PowerOff(st)
  }

  /** The state after the events of `es`, in order. */
  function Run(st: CalState, es: seq<Event>): CalState
    decreases |es|
  {
    if es == [] then st else Run(Apply(st, es[0]), es[1..])
  }

  /** `n` copies of one event. */
  function Repeat(e: Event, n: nat): (es: seq<Event>)
    ensures |es| == n
    ensures forall i :: 0 <= i < n ==> es[i] == e
  {
    if n == 0 then [] else [e] + Repeat(e, n - 1)
  }
}
