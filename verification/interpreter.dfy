/** process_input: one received line, terminator included, is read from the receive
    buffer, answered, and the buffer is released. */
module Interpreter {
  import opened Platform
  import opened CStrings
  import opened Device
  import opened Handlers

  const FwVersion := "0.1"
  const ModelLine := "MODEL: B3606\r\n"
  const VersionLine := "VERSION: " + FwVersion + "\r\n"

  /** The commands that take no argument; each must be the whole line. */
  const QueryNames: set<string> :=
    {"MODEL", "VERSION", "SYSTEM", "CALIBRATION", "VLIST", "CLIST",
     "CONFIG", "STATUS", "RSTATUS", "COMMIT", "SAVE"}

  /** The commands that take an argument after the first space. */
  const ArgumentNames: set<string> :=
    {"SNAME", "OUTPUT", "VOLTAGE", "CURRENT", "AUTOCOMMIT",
     "CALVIN1", "CALVIN2", "CALVOUT1", "CALVOUT2"}

  function OnOff(b: bool): string {
    if b then "ON" else "OFF"
  }

  function ConstantMode(constantCurrent: bool): string {
    if constantCurrent then "CURRENT" else "VOLTAGE"
  }

  // ---- reports of the zero-argument commands ----

  function SystemReport(sys: SystemConfig): string {
    ModelLine + VersionLine
    + "NAME: " + CStr(sys.name) + "\r\n"
    + "ONSTARTUP: " + OnOff(sys.defaultOn) + "\r\n"
    + "AUTOCOMMIT: " + (if sys.autocommit then "YES" else "NO") + "\r\n"
  }

  function PairLine(env: Env, title: string, c: Calibration): string {
    "CALIBRATE " + title + ": " + env.showFixed(c.a) + "/" + env.showFixed(c.b) + "\r\n"
  }

  function CalibrationReport(env: Env, sys: SystemConfig): string {
    PairLine(env, "VIN ADC", sys.vinAdc)
    + PairLine(env, "VOUT ADC", sys.voutAdc)
    + PairLine(env, "COUT ADC", sys.coutAdc)
    + PairLine(env, "VOUT PWM", sys.voutPwm)
    + PairLine(env, "COUT PWM", sys.coutPwm)
  }

  function CapabilityReport(env: Env, q: Quantity): string {
    var name := Label(q);
    var (lo, hi, step) := match q
      case Voltage => (env.vmin, env.vmax, env.vstep)
      case Current => (env.cmin, env.cmax, env.cstep);
    (if q == Voltage then "VLIST" else "CLIST") + ":\r\n"
    + name + " MIN: " + env.showFixed(lo) + "\r\n"
    + name + " MAX: " + env.showFixed(hi) + "\r\n"
    + name + " STEP: " + env.showFixed(step) + "\r\n"
  }

  /** A shutdown threshold of 0 means disabled and is reported as such. */
  function Threshold(env: Env, t: nat): string {
    if t == 0 then "DISABLED" else env.showFixed(t)
  }

  function ConfigReport(env: Env, sys: SystemConfig, cfg: OutputConfig): string {
    ConfigHead(env, sys, cfg)
    + "\r\nVOLTAGE SHUTDOWN: " + Threshold(env, cfg.vshutdown)
    + "\r\nCURRENT SHUTDOWN: " + Threshold(env, cfg.cshutdown)
    + "\r\n"
  }

  /** The part of the CONFIG report before the shutdown thresholds. */
  function ConfigHead(env: Env, sys: SystemConfig, cfg: OutputConfig): string {
    "CONFIG:\r\nOUTPUT: " + OnOff(sys.output)
    + "\r\nVOLTAGE SET: " + env.showFixed(cfg.vset)
    + "\r\nCURRENT SET: " + env.showFixed(cfg.cset)
  }

  /** With the output off, the output voltage and current read as 0. */
  function StatusReport(env: Env, sys: SystemConfig, st: Runtime): string {
    "STATUS:\r\nOUTPUT: " + OnOff(sys.output)
    + "\r\nVOLTAGE IN: " + env.showFixed(st.vin)
    + "\r\nVOLTAGE OUT: " + env.showFixed(if sys.output then st.vout else 0)
    + "\r\nCURRENT OUT: " + env.showFixed(if sys.output then st.cout else 0)
    + "\r\nCONSTANT: " + ConstantMode(st.constantCurrent)
    + "\r\n"
  }

  function RawStatusReport(env: Env, sys: SystemConfig, st: Runtime): string {
    "RSTATUS:\r\nOUTPUT: " + OnOff(sys.output)
    + "\r\nVOLTAGE IN ADC: " + env.showInt(st.vinRaw)
    + "\r\nVOLTAGE OUT ADC: " + env.showInt(st.voutRaw)
    + "\r\nCURRENT OUT ADC: " + env.showInt(st.coutRaw)
    + "\r\nCONSTANT: " + ConstantMode(st.constantCurrent)
    + "\r\n"
  }

  /** The zero-argument commands, matched against the whole command text `c`.
      None of them changes the machine. */
  function RunQuery(env: Env, m: Machine, c: string): (r: Option<Step>)
    ensures r.Some? <==> c in QueryNames
    ensures r.Some? ==> r.value.m == m
    ensures r.Some? && c != "COMMIT" && c != "SAVE" ==> r.value.effects == []
    ensures c == "COMMIT" ==> r == Some(Step(m, "", [CommitOutput(m)]))
    ensures c == "SAVE" ==> r == Some(Step(m, "SAVED\r\n", [SaveSystem(m.sys), SaveOutput(m.outCfg)]))
  {
    if c == "MODEL" then Some(Step(m, ModelLine, []))
    else if c == "VERSION" then Some(Step(m, VersionLine, []))
    else if c == "SYSTEM" then Some(Step(m, SystemReport(m.sys), []))
    else if c == "CALIBRATION" then Some(Step(m, CalibrationReport(env, m.sys), []))
    else if c == "VLIST" then Some(Step(m, CapabilityReport(env, Voltage), []))
    else if c == "CLIST" then Some(Step(m, CapabilityReport(env, Current), []))
    else if c == "CONFIG" then Some(Step(m, ConfigReport(env, m.sys, m.outCfg), []))
    else if c == "STATUS" then Some(Step(m, StatusReport(env, m.sys, m.state), []))
    else if c == "RSTATUS" then Some(Step(m, RawStatusReport(env, m.sys, m.state), []))
    else if c == "COMMIT" then Some(Step(m, "", [CommitOutput(m)]))
    else if c == "SAVE" then Some(Step(m, "SAVED\r\n", [SaveSystem(m.sys), SaveOutput(m.outCfg)]))
    else None
  }

  // ---- commands with an argument ----

  /** The argument commands, given the command word and the buffer from the
      argument's first character on. */
  function RunCommand(env: Env, m: Machine, head: string, arg: seq<char>): (r: Step)
    requires env.nameSize >= 1 && |arg| >= 2
    // each command word reaches its own handler; SNAME and OUTPUT get the buffer, the
    // others the C string that starts at the argument
    ensures head == "SNAME" ==> r == SetName(env, m, arg)
    ensures head == "OUTPUT" ==> r == SetOutput(m, arg)
    ensures head == "VOLTAGE" ==> r == SetSetpoint(env, m, Voltage, CStr(arg))
    ensures head == "CURRENT" ==> r == SetSetpoint(env, m, Current, CStr(arg))
    ensures head == "AUTOCOMMIT" ==> r == SetAutocommit(m, CStr(arg))
    ensures head == "CALVIN1" ==> r == CalibrateChannel(env, m, VinAdc, 1, CStr(arg))
    ensures head == "CALVIN2" ==> r == CalibrateChannel(env, m, VinAdc, 2, CStr(arg))
    ensures head == "CALVOUT1" ==> r == CalibrateChannel(env, m, VoutAdc, 1, CStr(arg))
    ensures head == "CALVOUT2" ==> r == CalibrateChannel(env, m, VoutAdc, 2, CStr(arg))
    ensures head !in ArgumentNames ==> r == Step(m, "UNKNOWN COMMAND!\r\n", [])
    ensures r.m.state == m.state && r.m.rx == m.rx && r.m.adcChannel == m.adcChannel
  {
    if head == "SNAME" then SetName(env, m, arg)
    else if head == "OUTPUT" then SetOutput(m, arg)
    else if head == "VOLTAGE" then SetSetpoint(env, m, Voltage, CStr(arg))
    else if head == "CURRENT" then SetSetpoint(env, m, Current, CStr(arg))
    else if head == "AUTOCOMMIT" then SetAutocommit(m, CStr(arg))
    else if head == "CALVIN1" then CalibrateChannel(env, m, VinAdc, 1, CStr(arg))
    else if head == "CALVIN2" then CalibrateChannel(env, m, VinAdc, 2, CStr(arg))
    else if head == "CALVOUT1" then CalibrateChannel(env, m, VoutAdc, 1, CStr(arg))
    else if head == "CALVOUT2" then CalibrateChannel(env, m, VoutAdc, 2, CStr(arg))
    else Step(m, "UNKNOWN COMMAND!\r\n", [])
  }

  /** The scan for the first space among the first `n` characters of `b`. */
  function FindSpace(b: seq<char>, n: nat): (r: Option<nat>)
    requires n <= |b|
    ensures r.Some? ==> r.value < n && b[r.value] == ' ' && ' ' !in b[..r.value]
    ensures r.None? ==> ' ' !in b[..n]
  {
    if n == 0 then None
    else match FindSpace(b, n - 1)
      case Some(i) => Some(i)
      case None =>
        assert b[..n] == b[..n - 1] + [b[n - 1]];
        if b[n - 1] == ' ' then Some(n - 1) else None
  }

  /** The answer to the stripped buffer `b` (terminator already replaced by NUL at
      n-1), paired with what the buffer holds afterwards. */
  function Interpret(env: Env, m: Machine, b: seq<char>, n: nat): (r: (Step, seq<char>))
    requires env.nameSize >= 1
    requires 1 <= n < |b| && b[n - 1] == Nul
    ensures |r.1| == |b| && r.1[n - 1] == Nul
    ensures r.0.m.state == m.state && r.0.m.rx == m.rx && r.0.m.adcChannel == m.adcChannel
  {
    match RunQuery(env, m, CStr(b))
    case Some(s) => (s, b)
    case None =>
      match FindSpace(b, n)
      case None => (Step(m, "UNKNOWN COMMAND\r\n", []), b)
      case Some(i) =>
        var b2 := b[i := Nul];
        var arg := b2[i + 1..];
        var head := CStr(b2);
        var after := if head == "SNAME" then b2[..i + 1] + SanitizeInPlace(arg) else b2;
        (RunCommand(env, m, head, arg), after)
  }

  /** process_input: answer the line in the receive buffer, then release the buffer. */
  function ProcessInput(env: Env, m: Machine): (r: Step)
    requires env.nameSize >= 1
    requires 1 <= m.rx.len < |m.rx.buf|
    ensures r.m.rx.len == 0 && !r.m.rx.newline
    ensures |r.m.rx.buf| == |m.rx.buf| && r.m.rx.buf[m.rx.len - 1] == Nul
    ensures r.m.state == m.state && r.m.adcChannel == m.adcChannel
  {
    var b := m.rx.buf[m.rx.len - 1 := Nul];
    var (s, after) := Interpret(env, m, b, m.rx.len);
    s.(m := s.m.(rx := Rx(after, 0, false)))
  }
}
