/**
 * The calibration routine as the firmware runs it: globals updated in place by the
 * encoder interrupt handler and by the button branches of the polling loop.  Each
 * method handles one discrete event; its contract ties the new fields to CalModel.
 */
module CalRoutine {
  import opened Wrappers
  import opened Word
  import opened CalModel

  class Calibrator {
    var calvalue: Int32              // global `calvalue`
    var stepSize: int                // global `stepSIZE`
    var eeprom: Int32                // the int32 record at EEPROM address 1000
    var correction: Option<Int32>    // last `set_correction` argument
    var clk0: Option<nat>            // last `set_freq` argument on CLK0

    /** The fields as a CalModel state. */
    function State(): CalState
      reads this
    {
      CalState(calvalue, stepSize, eeprom, correction, clk0)
    }

    predicate Valid()
      reads this
    {
      Inv(State())
    }

    /** Power-up with `stored` in EEPROM: globals at their initial values, nothing sent to the driver. */
    constructor (stored: Int32)
      ensures Valid()
      ensures State() == PowerUp(stored)
      ensures calvalue == 0 && stepSize == 1 && eeprom == stored
    {
      calvalue := 0;
      stepSize := 1;
      eeprom := stored;
      correction := None;
      clk0 := None;
    }

    /** Routine entry: the reference tone is set to 10 MHz. */
    method Enter()
      requires Valid()
      modifies this
      ensures Valid()
      ensures State() == EnterRoutine(old(State()))
      ensures clk0 == Some(ReferenceFreq)
      ensures calvalue == old(calvalue) && stepSize == old(stepSize) && eeprom == old(eeprom)
    {
      clk0 := Some(ReferenceFreq);
    }

    /** Read the record back; the literal 0xffff is replaced by 0, any other value (even -1) is kept. */
    method Load()
      requires Valid()
      modifies this
      ensures Valid()
      ensures State() == LoadCal(old(State()))
      ensures calvalue == (if eeprom == Sentinel then 0 else eeprom)
      ensures stepSize == old(stepSize) && eeprom == old(eeprom) && correction == old(correction)
    {
      calvalue := eeprom;
      if calvalue == Sentinel {
        calvalue := 0;
      }
    }

    /** The encoder interrupt handler, given the levels it samples on the pulse and direction pins. */
    method EncoderEdge(pulseLow: bool, dirHigh: bool)
      requires Valid()
      modifies this
      ensures Valid()
      ensures State() == CalModel.EncoderEdge(old(State()), pulseLow, dirHigh)
      ensures pulseLow && !dirHigh && InRange(old(calvalue) - stepSize) ==> calvalue == old(calvalue) - stepSize
      ensures pulseLow && dirHigh && InRange(old(calvalue) + stepSize) ==> calvalue == old(calvalue) + stepSize
      ensures !pulseLow ==> calvalue == old(calvalue)
      ensures correction == Some(DriverArg(calvalue))
      ensures stepSize == old(stepSize) && eeprom == old(eeprom)
    {
      if pulseLow && !dirHigh {
        calvalue := Wrap(calvalue - stepSize);
      }
      if pulseLow && dirHigh {
        calvalue := Wrap(calvalue + stepSize);
      }
      correction := Some(Wrap(calvalue * DriverScale));
    }

    /** STEP pressed: ten times the step, back to 1 past 1000. */
    method PressStep()
      requires Valid()
      modifies this
      ensures Valid()
      ensures State() == CalModel.PressStep(old(State()))
      ensures stepSize == NextStep(old(stepSize))
      ensures calvalue == old(calvalue) && eeprom == old(eeprom) && correction == old(correction)
    {
      stepSize := stepSize * 10;
      if stepSize > 1000 {
        stepSize := 1;
      }
    }

    /** VF/CH pressed: the current correction is written to EEPROM. */
    method PressSelect()
      requires Valid()
      modifies this
      ensures Valid()
      ensures State() == CalModel.PressSelect(old(State()))
      ensures eeprom == calvalue
      ensures calvalue == old(calvalue) && stepSize == old(stepSize) && correction == old(correction)
    {
      eeprom := calvalue;
    }
  }

  /** A session as the firmware would see it: power up on a sentinel record, enter, load, turn down once, save. */
  method SentinelSession() returns (saved: Int32, sent: Option<Int32>)
    ensures saved == -1 && sent == Some(-100)
  {
    var cal := new Calibrator(Sentinel);
    cal.Enter();
    cal.Load();
    cal.EncoderEdge(true, false);
    cal.PressSelect();
    saved, sent := cal.eeprom, cal.correction;
  }
}
