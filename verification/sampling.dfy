/** read_state: one step of the sampling machine.  It watches two digital inputs
    (PC3 and the CC/CV sense pin) and rotates the ADC over output current
    (channel 2), output voltage (channel 3) and input voltage (channel 4),
    converting each raw sample through its calibration pair with adc_to_volt. */
module Sampling {
  import opened Platform
  import opened Device

  // ---- adc_to_volt ----

  /** adc_to_volt: p = fixed_mult(adc, a); the offset b is taken off only when p
      exceeds it, otherwise p itself is the reading. */
  function AdcToVolt(env: Env, adc: nat, cal: Calibration): (r: nat)
    ensures r <= env.mult(adc, cal.a)
    ensures env.mult(adc, cal.a) > cal.b ==> r + cal.b == env.mult(adc, cal.a)
    ensures env.mult(adc, cal.a) <= cal.b ==> r == env.mult(adc, cal.a)
  {
    var p := env.mult(adc, cal.a);
    if p > cal.b then p - cal.b else p
  }

  /** Subtraction that stops at zero. */
  function ClampedSub(p: nat, b: nat): nat {
    if p > b then p - b else 0
  }

  /** adc_to_volt is not a subtraction clamped at zero: the two differ exactly when
      the product is positive but does not exceed the offset. */
  lemma AdcToVoltVersusClamp(env: Env, adc: nat, cal: Calibration)
    ensures var p := env.mult(adc, cal.a);
      AdcToVolt(env, adc, cal) != ClampedSub(p, cal.b) <==> 0 < p <= cal.b
  {
  }

  /** Consequently a reading can fall as the raw sample rises: for any offset b > 0,
      the sample whose product is b reads b and the one whose product is b + 1 reads 1. */
  lemma AdcToVoltNotMonotone(env: Env, lo: nat, hi: nat, cal: Calibration)
    requires cal.b > 0
    requires env.mult(lo, cal.a) == cal.b && env.mult(hi, cal.a) == cal.b + 1
    ensures AdcToVolt(env, lo, cal) == cal.b
    ensures AdcToVolt(env, hi, cal) == 1
    ensures cal.b > 1 ==> AdcToVolt(env, hi, cal) < AdcToVolt(env, lo, cal)
  {
  }

  // ---- inputs of one step ----

  /** What the hardware shows during one step: the PC3 level, the CC/CV sense level,
      the ADC end-of-conversion flag and the two ADC data bytes. */
  datatype Inputs = Inputs(pc3: bool, constantCurrent: bool, ready: bool, low: Byte, high: Byte)

  /** The 16-bit sample: ADC1_DRL | ADC1_DRH << 8. */
  function RawSample(hw: Inputs): (v: nat)
    ensures v < 0x1_0000
    ensures v % 256 == hw.low && v / 256 == hw.high
  {
    hw.low + 256 * hw.high
  }

  /** The channel converted after `ch`; a channel outside the rotation is restarted. */
  function NextChannel(ch: nat): nat {
    if ch == 2 then 3 else if ch == 3 then 4 else if ch == 4 then 2 else ch
  }

  /** The channel whose sample the next ready conversion delivers. */
  function Upcoming(ch: nat): nat {
    if ch == 0 then 2 else ch
  }

  // ---- the input-voltage display ----

  function DigitChar(d: nat): char
    requires d < 10
  {
    ('0' as int + d) as char
  }

  function DigitValue(c: char): int {
    c as int - '0' as int
  }

  /** The integer volts the display works from: vin >> FIXED_SHIFT stored in a 16-bit
      variable. */
  function WholeVolts(env: Env, vin: nat): nat {
    (vin / Pow2(env.fixedShift)) % 0x1_0000
  }

  /** The hundredths it works from: vin & FIXED_FRACTION_MASK is stored in the 16-bit
      variable, fixed_mult(that, 100) is stored back into it. */
  function Hundredths(env: Env, vin: nat): nat {
    env.mult((vin % Pow2(env.fixedShift)) % 0x1_0000, 100) % 0x1_0000
  }

  /** The four digits shown after an input-voltage sample: tens and units of the
      volts, then tens and units of the hundredths. */
  function DisplayDigits(env: Env, vin: nat): (d: seq<char>)
    ensures |d| == 4
    ensures forall k :: 0 <= k < 4 ==> '0' <= d[k] <= '9'
    ensures DigitValue(d[0]) * 10 + DigitValue(d[1]) == WholeVolts(env, vin) % 100
    ensures DigitValue(d[2]) * 10 + DigitValue(d[3]) == Hundredths(env, vin) % 100
  {
    var whole := WholeVolts(env, vin);
    var frac := Hundredths(env, vin);
    TwoDigits(whole);
    TwoDigits(frac);
    [DigitChar((whole / 10) % 10), DigitChar(whole % 10), DigitChar((frac / 10) % 10), DigitChar(frac % 10)]
  }

  lemma TwoDigits(v: nat)
    ensures ((v / 10) % 10) * 10 + v % 10 == v % 100
  {
  }

  /** Only the second digit carries a decimal point. */
  const DisplayDots: seq<bool> := [false, true, false, false]

  // ---- read_state ----

  function PinMessage(level: bool): string {
    "PC3 is now " + (if level then "1" else "0") + "\r\n"
  }

  /** The ADC part of read_state: the runtime readings, the channel left selected and
      the collaborator calls made. */
  function SampleAdc(env: Env, sys: SystemConfig, st: Runtime, ch: nat, hw: Inputs): (Runtime, nat, seq<Effect>) {
    if ch == 0 then (st, 2, [AdcStart(2)])
    else if !hw.ready then (st, ch, [])
    else
      var v := RawSample(hw);
      if ch == 2 then
        (st.(coutRaw := v, cout := AdcToVolt(env, v, sys.coutAdc)), 3, [AdcStart(3)])
      else if ch == 3 then
        (st.(voutRaw := v, vout := AdcToVolt(env, v, sys.voutAdc)), 4, [AdcStart(4)])
      else if ch == 4 then
        var vin := AdcToVolt(env, v, sys.vinAdc);
        (st.(vinRaw := v, vin := vin), 2, [Display(DisplayDigits(env, vin), DisplayDots), AdcStart(2)])
      else
        (st, ch, [AdcStart(ch)])
  }

  /** The output_check_state call read_state makes: one exactly when the CC/CV sense
      level differs from the latched one. */
  function CheckCalls(m: Machine, hw: Inputs): seq<Effect> {
    if m.state.constantCurrent != hw.constantCurrent then [CheckState(m.sys, hw.constantCurrent)] else []
  }

  /** read_state. */
  function ReadState(env: Env, m: Machine, hw: Inputs): (r: Step)
    // configuration, receive buffer and calibration memory are left alone
    ensures r.m == m.(state := r.m.state, adcChannel := r.m.adcChannel)
    // both digital inputs are latched; a PC3 change is announced, a CC/CV change is
    // passed to output_check_state, each exactly when it happens
    ensures r.m.state.pc3 == hw.pc3 && r.m.state.constantCurrent == hw.constantCurrent
    ensures r.text == (if m.state.pc3 != hw.pc3 then PinMessage(hw.pc3) else "")
    ensures CheckState(m.sys, hw.constantCurrent) in r.effects <==> m.state.constantCurrent != hw.constantCurrent
    // no channel selected: start channel 2, read nothing
    ensures m.adcChannel == 0 ==>
      && r.m.adcChannel == 2 && r.m.state == m.state.(pc3 := hw.pc3, constantCurrent := hw.constantCurrent)
      && r.effects == CheckCalls(m, hw) + [AdcStart(2)]
    // conversion not finished: nothing read, nothing restarted, nothing shown
    ensures m.adcChannel != 0 && !hw.ready ==>
      && r.m.adcChannel == m.adcChannel
      && r.m.state == m.state.(pc3 := hw.pc3, constantCurrent := hw.constantCurrent)
      && r.effects == CheckCalls(m, hw)
    // a finished conversion updates its own channel's pair of readings and no other
    ensures m.adcChannel == 2 && hw.ready ==>
      && r.m.adcChannel == 3
      && r.m.state == m.state.(pc3 := hw.pc3, constantCurrent := hw.constantCurrent,
                               coutRaw := RawSample(hw), cout := AdcToVolt(env, RawSample(hw), m.sys.coutAdc))
      && r.effects == CheckCalls(m, hw) + [AdcStart(3)]
    ensures m.adcChannel == 3 && hw.ready ==>
      && r.m.adcChannel == 4
      && r.m.state == m.state.(pc3 := hw.pc3, constantCurrent := hw.constantCurrent,
                               voutRaw := RawSample(hw), vout := AdcToVolt(env, RawSample(hw), m.sys.voutAdc))
      && r.effects == CheckCalls(m, hw) + [AdcStart(4)]
    ensures m.adcChannel == 4 && hw.ready ==>
      && r.m.adcChannel == 2
      && r.m.state == m.state.(pc3 := hw.pc3, constantCurrent := hw.constantCurrent,
                               vinRaw := RawSample(hw), vin := AdcToVolt(env, RawSample(hw), m.sys.vinAdc))
      && r.effects == CheckCalls(m, hw) + [Display(DisplayDigits(env, r.m.state.vin), DisplayDots), AdcStart(2)]
    // a finished conversion on a channel outside the rotation only restarts it
    ensures m.adcChannel !in {0, 2, 3, 4} && hw.ready ==>
      && r.m.adcChannel == m.adcChannel
      && r.m.state == m.state.(pc3 := hw.pc3, constantCurrent := hw.constantCurrent)
      && r.effects == CheckCalls(m, hw) + [AdcStart(m.adcChannel)]
    // whenever a conversion is started it is the last call, on the channel left selected
    ensures (m.adcChannel == 0 || hw.ready) ==>
      |r.effects| > 0 && r.effects[|r.effects| - 1] == AdcStart(r.m.adcChannel)
    ensures m.adcChannel in {0, 2, 3, 4} ==> r.m.adcChannel in {2, 3, 4}
  {
    var text := if m.state.pc3 != hw.pc3 then PinMessage(hw.pc3) else "";
    var check := CheckCalls(m, hw);
    var st := m.state.(pc3 := hw.pc3, constantCurrent := hw.constantCurrent);
    var (st', ch', started) := SampleAdc(env, m.sys, st, m.adcChannel, hw);
    assert forall e :: e in started ==> !e.CheckState?;
    Step(m.(state := st', adcChannel := ch'), text, check + started)
  }

  /** read_state drives the display after an input-voltage sample and at no other time. */
  lemma DisplayOnlyAfterInputVoltage(env: Env, m: Machine, hw: Inputs)
    ensures var r := ReadState(env, m, hw);
      (exists e :: e in r.effects && e.Display?) <==> m.adcChannel == 4 && hw.ready
  {
    var r := ReadState(env, m, hw);
    var check := CheckCalls(m, hw);
    assert forall e :: e in check ==> e.CheckState?;
    if m.adcChannel == 4 && hw.ready {
      assert r.effects[|check|] in r.effects;
    }
  }

  // ---- the rotation over many steps ----

  /** Runs read_state over a sequence of hardware inputs; yields the final machine and
      the channels whose samples were read, in order. */
  function Run(env: Env, m: Machine, hws: seq<Inputs>): (Machine, seq<nat>)
    decreases |hws|
  {
    if |hws| == 0 then (m, [])
    else
      var read := if m.adcChannel != 0 && hws[0].ready then [m.adcChannel] else [];
      var (final, later) := Run(env, ReadState(env, m, hws[0]).m, hws[1..]);
      (final, read + later)
  }

  /** Whatever mix of ready and not-ready steps the hardware produces, samples are
      read in the order channel 2, 3, 4, 2, ..., starting with the channel pending,
      and never from outside the rotation. */
  lemma {:induction false} RotationOrder(env: Env, m: Machine, hws: seq<Inputs>)
    requires m.adcChannel in {0, 2, 3, 4}
    ensures var order := Run(env, m, hws).1;
      && (forall k :: 0 <= k < |order| ==> order[k] in {2, 3, 4})
      && (|order| > 0 ==> order[0] == Upcoming(m.adcChannel))
      && (forall k :: 0 <= k < |order| - 1 ==> order[k + 1] == NextChannel(order[k]))
    decreases |hws|
  {
    if |hws| > 0 {
      var m1 := ReadState(env, m, hws[0]).m;
      RotationOrder(env, m1, hws[1..]);
      var later := Run(env, m1, hws[1..]).1;
      var order := Run(env, m, hws).1;
      if m.adcChannel != 0 && hws[0].ready {
        assert order == [m.adcChannel] + later;
        assert m1.adcChannel == NextChannel(m.adcChannel);
      } else {
        assert order == later;
        assert Upcoming(m1.adcChannel) == Upcoming(m.adcChannel);
      }
    }
  }
}
