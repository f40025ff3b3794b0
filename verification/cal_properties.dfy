/**
 * What the calibration routine promises, stated over CalModel and proved for all inputs.
 */
module CalProperties {
  import opened Wrappers
  import opened Word
  import opened CalModel

  /** Running two event sequences one after the other is running their concatenation. */
  lemma {:induction false} RunAppend(st: CalState, a: seq<Event>, b: seq<Event>)
    ensures Run(st, a + b) == Run(Run(st, a), b)
    decreases |a|
  {
    if a == [] {
      assert a + b == b;
    } else {
      assert (a + b)[0] == a[0];
      assert (a + b)[1..] == a[1..] + b;
      RunAppend(Apply(st, a[0]), a[1..], b);
    }
  }

  /** No event takes the step size out of {1, 10, 100, 1000}. */
  lemma ApplyPreservesInv(st: CalState, e: Event)
    requires Inv(st)
    ensures Inv(Apply(st, e))
  {
  }

  /** From power-up on, whatever happens, the step size stays one of 1, 10, 100, 1000. */
  lemma {:induction false} RunPreservesInv(st: CalState, es: seq<Event>)
    requires Inv(st)
    ensures Inv(Run(st, es))
    decreases |es|
  {
    if es != [] {
      ApplyPreservesInv(st, es[0]);
      RunPreservesInv(Apply(st, es[0]), es[1..]);
    }
  }

  /** STEP cycles 1 -> 10 -> 100 -> 1000 -> 1: period exactly four. */
  lemma StepCycle(s: int)
    requires IsStep(s)
    ensures NextStep(NextStep(NextStep(NextStep(s)))) == s
    ensures NextStep(NextStep(s)) != s && NextStep(NextStep(NextStep(s))) != s
    ensures NextStep(1) == 10 && NextStep(10) == 100 && NextStep(100) == 1000 && NextStep(1000) == 1
  {
  }

  /** Four STEP presses give back the state they started from: step size, correction and EEPROM alike. */
  lemma FourStepPresses(st: CalState)
    requires Inv(st)
    ensures Run(st, Repeat(StepPress, 4)) == st
  {
    var es := Repeat(StepPress, 4);
    assert es == [StepPress, StepPress, StepPress, StepPress];
    StepCycle(st.stepSize);
    var s1 := PressStep(st);
    var s2 := PressStep(s1);
    var s3 := PressStep(s2);
    assert Run(st, es) == Run(s1, es[1..]);
    assert Run(s1, es[1..]) == Run(s2, es[2..]);
    assert Run(s2, es[2..]) == Run(s3, es[3..]);
    assert Run(s3, es[3..]) == PressStep(s3);
  }

  predicate IsEdge(e: Event) {
    e.Edge?
  }

  /** Encoder edges alone never touch the step size, the stored record or the reference frequency. */
  lemma {:induction false} EdgesKeepStepAndStore(st: CalState, es: seq<Event>)
    requires forall i :: 0 <= i < |es| ==> IsEdge(es[i])
    ensures Run(st, es).stepSize == st.stepSize
    ensures Run(st, es).eeprom == st.eeprom
    ensures Run(st, es).clk0 == st.clk0
    decreases |es|
  {
    if es != [] {
      EdgesKeepStepAndStore(Apply(st, es[0]), es[1..]);
    }
  }

  /** The arithmetic of one more step: `n` steps are `n - 1` steps and one more, all between 0 and `n` steps. */
  lemma StepMultiples(n: nat, s: int)
    requires n > 0 && s >= 0
    ensures (n - 1) * s + s == n * s
    ensures 0 <= (n - 1) * s <= n * s
  {
  }

  /** `n` edges turning up, starting from `c`, add `n` steps as long as the final value fits in an int32. */
  lemma {:induction false} UpEdges(st: CalState, n: nat)
    requires st.stepSize >= 0
    requires InRange(st.calvalue + n * st.stepSize)
    ensures Run(st, Repeat(Edge(true, true), n)).calvalue == st.calvalue + n * st.stepSize
    ensures n > 0 ==> Synced(Run(st, Repeat(Edge(true, true), n)))
    decreases n
  {
    if n > 0 {
      var es := Repeat(Edge(true, true), n);
      var st' := EncoderEdge(st, true, true);
      assert es[1..] == Repeat(Edge(true, true), n - 1);
      StepMultiples(n, st.stepSize);
      assert InRange(st.calvalue + st.stepSize);
      assert st'.calvalue == st.calvalue + st.stepSize && st'.stepSize == st.stepSize;
      UpEdges(st', n - 1);
    }
  }

  /** `n` edges turning down subtract `n` steps as long as the final value fits in an int32. */
  lemma {:induction false} DownEdges(st: CalState, n: nat)
    requires st.stepSize >= 0
    requires InRange(st.calvalue - n * st.stepSize)
    ensures Run(st, Repeat(Edge(true, false), n)).calvalue == st.calvalue - n * st.stepSize
    ensures n > 0 ==> Synced(Run(st, Repeat(Edge(true, false), n)))
    decreases n
  {
    if n > 0 {
      var es := Repeat(Edge(true, false), n);
      var st' := EncoderEdge(st, true, false);
      assert es[1..] == Repeat(Edge(true, false), n - 1);
      StepMultiples(n, st.stepSize);
      assert InRange(st.calvalue - st.stepSize);
      assert st'.calvalue == st.calvalue - st.stepSize && st'.stepSize == st.stepSize;
      DownEdges(st', n - 1);
    }
  }

  /** STEP presses that bring any valid step size back to 1. */
  function PressesToUnitStep(s: int): (es: seq<Event>)
    requires IsStep(s)
    ensures |es| <= 3
    ensures forall i :: 0 <= i < |es| ==> es[i] == StepPress
  {
    if s == 1 then [] else if s == 10 then Repeat(StepPress, 3)
    else if s == 100 then Repeat(StepPress, 2) else Repeat(StepPress, 1)
  }

  lemma UnitStepReached(st: CalState)
    requires Inv(st)
    ensures Run(st, PressesToUnitStep(st.stepSize)).stepSize == 1
    ensures Run(st, PressesToUnitStep(st.stepSize)).calvalue == st.calvalue
  {
    var es := PressesToUnitStep(st.stepSize);
    if |es| > 0 {
      var s1 := PressStep(st);
      assert Run(st, es) == Run(s1, es[1..]);
      if |es| > 1 {
        var s2 := PressStep(s1);
        assert Run(s1, es[1..]) == Run(s2, es[2..]);
        if |es| > 2 {
          var s3 := PressStep(s2);
          assert Run(s2, es[2..]) == Run(s3, es[3..]);
        }
      }
    }
  }

  /** Buttons and edges that take the routine's correction from wherever it is to `target`. */
  function PathTo(st: CalState, target: Int32): (es: seq<Event>)
    requires Inv(st)
    ensures forall i :: 0 <= i < |es| ==> es[i].StepPress? || es[i].Edge?
  {
    var toUnit := PressesToUnitStep(st.stepSize);
    if target >= st.calvalue then toUnit + Repeat(Edge(true, true), target - st.calvalue)
    else toUnit + Repeat(Edge(true, false), st.calvalue - target)
  }

  /**
   * No bound is enforced on the correction: from any reachable state, some sequence of STEP
   * presses and encoder edges sets it to any int32 value, with the driver following it.
   * The firmware polls STEP only after the load, so the states meant here are those after it.
   */
  lemma ReachAnyCorrection(st: CalState, target: Int32)
    requires Inv(st)
    ensures Run(st, PathTo(st, target)).calvalue == target
    ensures target != st.calvalue ==> Synced(Run(st, PathTo(st, target)))
  {
    var toUnit := PressesToUnitStep(st.stepSize);
    UnitStepReached(st);
    var mid := Run(st, toUnit);
    if target >= st.calvalue {
      var n: nat := target - st.calvalue;
      RunAppend(st, toUnit, Repeat(Edge(true, true), n));
      UpEdges(mid, n);
    } else {
      var n: nat := st.calvalue - target;
      RunAppend(st, toUnit, Repeat(Edge(true, false), n));
      DownEdges(mid, n);
    }
  }

  /** Events during which the driver keeps following the correction (everything but Load and PowerCycle). */
  predicate KeepsDriverInStep(e: Event) {
    !e.Load? && !e.PowerCycle?
  }

  /** Once the driver holds `calvalue * 100`, it keeps doing so until the next load or power cycle. */
  lemma {:induction false} SyncedUntilLoad(st: CalState, es: seq<Event>)
    requires Synced(st)
    requires forall i :: 0 <= i < |es| ==> KeepsDriverInStep(es[i])
    ensures Synced(Run(st, es))
    decreases |es|
  {
    if es != [] {
      SyncedUntilLoad(Apply(st, es[0]), es[1..]);
    }
  }

  /**
   * The load does not resend the correction: an edge that arrives after entry has armed the
   * interrupt but before the load leaves the driver holding a value the load then makes stale.
   */
  lemma LoadLeavesDriverStale()
    ensures !Synced(Run(PowerUp(5), [Enter, Edge(true, true), Load]))
  {
    var es := [Enter, Edge(true, true), Load];
    var s1 := EnterRoutine(PowerUp(5));
    var s2 := EncoderEdge(s1, true, true);
    assert Run(PowerUp(5), es) == Run(s1, es[1..]);
    assert Run(s1, es[1..]) == Run(s2, es[2..]);
    assert Run(s2, es[2..]) == LoadCal(s2);
  }

  /**
   * A stored 65535 loads as 0; an erased record (-1) is taken as it is, and so is every other
   * value: the sentinel is 0xffff, not the erased all-ones word.
   */
  lemma LoadSentinel(st: CalState)
    ensures Sentinel == 65535 && Erased != Sentinel
    ensures st.eeprom == Sentinel ==> LoadCal(st).calvalue == 0
    ensures st.eeprom == Erased ==> LoadCal(st).calvalue == -1
    ensures st.eeprom != Sentinel ==> LoadCal(st).calvalue == st.eeprom
  {
  }

  /** Only VF/CH writes the EEPROM record: any run without it leaves the record as it was. */
  lemma {:induction false} RecordKeptWithoutSave(st: CalState, es: seq<Event>)
    requires forall i :: 0 <= i < |es| ==> !es[i].SelectPress?
    ensures Run(st, es).eeprom == st.eeprom
    decreases |es|
  {
    if es != [] {
      RecordKeptWithoutSave(Apply(st, es[0]), es[1..]);
    }
  }

  /**
   * Save, then any events that do not press VF/CH (power cycles, entry, encoder edges arriving
   * before the load, STEP presses), then load: the saved correction comes back, except that a
   * saved 65535 comes back as 0.
   */
  lemma SavedValueReloads(st: CalState, es: seq<Event>)
    requires forall i :: 0 <= i < |es| ==> !es[i].SelectPress?
    ensures Run(st, [SelectPress] + es + [Load]).calvalue == LoadedValue(st.calvalue)
  {
    var saved := PressSelect(st);
    RunAppend(st, [SelectPress], es);
    RunAppend(st, [SelectPress] + es, [Load]);
    assert Run(st, [SelectPress]) == Run(saved, []);
    RecordKeptWithoutSave(saved, es);
    var mid := Run(saved, es);
    assert Run(mid, [Load]) == Run(LoadCal(mid), []);
  }

  /**
   * Save, power off, enter again and load: the correction comes back as it was saved,
   * except that a saved 65535 comes back as 0; the step size is back at 1.
   */
  lemma SaveThenReload(st: CalState)
    ensures Run(st, [SelectPress, PowerCycle, Enter, Load]).calvalue == LoadedValue(st.calvalue)
    ensures st.calvalue != Sentinel ==> Run(st, [SelectPress, PowerCycle, Enter, Load]).calvalue == st.calvalue
    ensures Run(st, [SelectPress, PowerCycle, Enter, Load]).stepSize == 1
  {
    var es := [SelectPress, PowerCycle, Enter, Load];
    var s1 := PressSelect(st);
    var s2 := PowerOff(s1);
    var s3 := EnterRoutine(s2);
    assert Run(st, es) == Run(s1, es[1..]);
    assert Run(s1, es[1..]) == Run(s2, es[2..]);
    assert Run(s2, es[2..]) == Run(s3, es[3..]);
    assert Run(s3, es[3..]) == LoadCal(s3);
  }

  /** Three up-turns at step 10 from 0 give 30, and the driver is handed 3000. */
  lemma ThreeUpEdgesAtStepTen(st: CalState)
    requires st.calvalue == 0 && st.stepSize == 10
    ensures Run(st, Repeat(Edge(true, true), 3)).calvalue == 30
    ensures Run(st, Repeat(Edge(true, true), 3)).correction == Some(3000)
  {
    UpEdges(st, 3);
  }

  /** A stored sentinel, then one down-turn at the power-up step of 1, gives -1. */
  lemma SentinelThenDownEdge()
    ensures Run(PowerUp(Sentinel), [Enter, Load, Edge(true, false)]).calvalue == -1
    ensures Run(PowerUp(Sentinel), [Enter, Load, Edge(true, false)]).correction == Some(-100)
  {
    var es := [Enter, Load, Edge(true, false)];
    var s1 := EnterRoutine(PowerUp(Sentinel));
    var s2 := LoadCal(s1);
    assert Run(PowerUp(Sentinel), es) == Run(s1, es[1..]);
    assert Run(s1, es[1..]) == Run(s2, es[2..]);
  }

  /** Beyond DriverLimit the 32-bit product wraps: the driver is handed a value of the wrong sign. */
  lemma DriverArgOverflows()
    ensures DriverArg(DriverLimit) == 2147483600
    ensures DriverArg(DriverLimit + 1) < 0
    ensures DriverArg(-DriverLimit - 1) > 0
  {
  }
}
