/** The handlers of the commands that take an argument: set_name, set_output,
    set_voltage / set_current, set_autocommit, and the CALVIN / CALVOUT calls. */
module Handlers {
  import opened Platform
  import opened CStrings
  import opened Device

  const PendingNotice := "AUTOCOMMIT OFF: CHANGE PENDING ON COMMIT\r\n"

  /** The tail of every handler that changes what the output should do: commit at
      once, or tell the user the change waits for COMMIT. */
  function CommitOrPend(m: Machine, text: string): Step {
    if m.sys.autocommit then Step(m, text, [CommitOutput(m)])
    else Step(m, text + PendingNotice, [])
  }

  /** The step either committed exactly once, on the machine it leaves behind, or
      announced that the change is pending; which one is the autocommit flag's choice. */
  predicate CommitsOrPends(r: Step, text: string) {
    && (r.m.sys.autocommit ==> r.text == text && r.effects == [CommitOutput(r.m)])
    && (!r.m.sys.autocommit ==> r.text == text + PendingNotice && r.effects == [])
  }

  // ---- set_name ----

  /** set_name: the name buffer receives the sanitized argument, cut to the buffer
      size less one and NUL-terminated; the new name is echoed. */
  function SetName(env: Env, m: Machine, arg: seq<char>): (r: Step)
    requires env.nameSize >= 1
    ensures |r.m.sys.name| == env.nameSize && r.m.sys.name[env.nameSize - 1] == Nul
    ensures CStr(r.m.sys.name) == Sanitize(CStr(arg))[..Min(|CStr(arg)|, env.nameSize - 1)]
    ensures forall i :: 0 <= i < |CStr(r.m.sys.name)| ==> IsPrint(CStr(r.m.sys.name)[i])
    ensures r.m == m.(sys := m.sys.(name := r.m.sys.name))
    ensures r.text == "SNAME: " + CStr(r.m.sys.name) + "\r\n" && r.effects == []
  {
    var s := CStr(SanitizeInPlace(arg));
    SanitizeInPlaceReads(arg);
    var name := CopyTerminated(s, env.nameSize);
    Step(m.(sys := m.sys.(name := name)), "SNAME: " + CStr(name) + "\r\n", [])
  }

  // ---- set_output ----

  function OutputRejection(s: string): string {
    "OUTPUT takes either 0 for OFF or 1 for ON, received: \"" + s + "\"\r\n"
  }

  /** set_output: `arg` is the buffer from the argument's first character on; the
      handler looks at its first two bytes. */
  function SetOutput(m: Machine, arg: seq<char>): (r: Step)
    requires |arg| >= 2
    // more than one character: diagnostic, nothing changes, no commit and no notice
    ensures arg[1] != Nul ==> r == Step(m, OutputRejection(CStr(arg)), [])
    // exactly one character (or none): "0" and "1" switch, anything else only complains
    ensures arg[1] == Nul ==>
      && r.m == m.(sys := m.sys.(output := r.m.sys.output))
      && (arg[0] == '0' ==> !r.m.sys.output && CommitsOrPends(r, "OUTPUT: OFF\r\n"))
      && (arg[0] == '1' ==> r.m.sys.output && CommitsOrPends(r, "OUTPUT: ON\r\n"))
      && (arg[0] != '0' && arg[0] != '1' ==>
            r.m == m && CommitsOrPends(r, OutputRejection(CStr(arg))))
  {
    if arg[1] != Nul then
      Step(m, OutputRejection(CStr(arg)), [])
    else if arg[0] == '0' then
      CommitOrPend(m.(sys := m.sys.(output := false)), "OUTPUT: OFF\r\n")
    else if arg[0] == '1' then
      CommitOrPend(m.(sys := m.sys.(output := true)), "OUTPUT: ON\r\n")
    else
      CommitOrPend(m, OutputRejection(CStr(arg)))
  }

  // ---- set_voltage / set_current ----

  /** The two setpoints share one handler shape. */
  datatype Quantity = Voltage | Current

  function Label(q: Quantity): string {
    match q
    case Voltage => "VOLTAGE"
    case Current => "CURRENT"
  }

  function TooHigh(q: Quantity): string {
    match q
    case Voltage => "VOLTAGE VALUE TOO HIGH\r\n"
    case Current => "CURRENT VALUE TOO HIGH\r\n"
  }

  function TooLow(q: Quantity): string {
    match q
    case Voltage => "VOLTAGE VALUE TOO LOW\r\n"
    case Current => "CURRENT VALUE TOO LOW\r\n"
  }

  function Low(env: Env, q: Quantity): nat {
    match q
    case Voltage => env.vmin
    case Current => env.cmin
  }

  function High(env: Env, q: Quantity): nat {
    match q
    case Voltage => env.vmax
    case Current => env.cmax
  }

  function Setpoint(cfg: OutputConfig, q: Quantity): nat {
    match q
    case Voltage => cfg.vset
    case Current => cfg.cset
  }

  function WithSetpoint(cfg: OutputConfig, q: Quantity, v: nat): OutputConfig {
    match q
    case Voltage => cfg.(vset := v)
    case Current => cfg.(cset := v)
  }

  /** A parsed value the handler takes: not the parse-failure sentinel, and within
      the capability bounds, both ends included. */
  predicate Accepts(env: Env, q: Quantity, v: nat) {
    v != ParseFail && Low(env, q) <= v <= High(env, q)
  }

  /** set_voltage (q = Voltage) and set_current (q = Current) on the argument text `s`. */
  function SetSetpoint(env: Env, m: Machine, q: Quantity, s: string): (r: Step)
    // a parse failure is silent and changes nothing
    ensures env.parse(s) == ParseFail ==> r == Step(m, "", [])
    // above the maximum: one diagnostic, nothing else
    ensures env.parse(s) != ParseFail && env.parse(s) > High(env, q) ==>
      r == Step(m, TooHigh(q), [])
    // below the minimum (and not above the maximum): one diagnostic, nothing else
    ensures env.parse(s) != ParseFail && env.parse(s) <= High(env, q) && env.parse(s) < Low(env, q) ==>
      r == Step(m, TooLow(q), [])
    // accepted: this setpoint, and nothing else of the machine, takes the value
    ensures Accepts(env, q, env.parse(s)) ==>
      && Setpoint(r.m.outCfg, q) == env.parse(s)
      && r.m == m.(outCfg := WithSetpoint(m.outCfg, q, env.parse(s)))
      && CommitsOrPends(r, Label(q) + ": SET " + env.showFixed(env.parse(s)) + "\r\n")
  {
    var v := env.parse(s);
    if v == ParseFail then Step(m, "", [])
    else if v > High(env, q) then Step(m, TooHigh(q), [])
    else if v < Low(env, q) then Step(m, TooLow(q), [])
    else
      CommitOrPend(m.(outCfg := WithSetpoint(m.outCfg, q, v)), Label(q) + ": SET " + env.showFixed(v) + "\r\n")
  }

  /** A setpoint command changes the machine only with a value it accepts, and then
      only that setpoint; it commits at most once, and only under autocommit. */
  lemma SetpointChangesOnlyWhenAccepted(env: Env, m: Machine, q: Quantity, s: string)
    ensures var r := SetSetpoint(env, m, q, s);
      && (r.m != m ==> Accepts(env, q, env.parse(s)))
      && (r.m == m || Setpoint(r.m.outCfg, q) == env.parse(s))
      && |r.effects| <= 1
      && (|r.effects| == 1 <==> Accepts(env, q, env.parse(s)) && m.sys.autocommit)
  {
  }

  // ---- set_autocommit ----

  /** set_autocommit on the argument text `s`: it never commits. */
  function SetAutocommit(m: Machine, s: string): (r: Step)
    ensures r.effects == []
    ensures s == "1" || s == "YES" ==>
      r.m == m.(sys := m.sys.(autocommit := true)) && r.text == "AUTOCOMMIT: YES\r\n"
    ensures s == "0" || s == "NO" ==>
      r.m == m.(sys := m.sys.(autocommit := false)) && r.text == "AUTOCOMMIT: NO\r\n"
    ensures s !in {"1", "YES", "0", "NO"} ==>
      r.m == m && r.text == "UNKNOWN AUTOCOMMIT ARG: " + s + "\r\n"
  {
    if s == "1" || s == "YES" then
      Step(m.(sys := m.sys.(autocommit := true)), "AUTOCOMMIT: YES\r\n", [])
    else if s == "0" || s == "NO" then
      Step(m.(sys := m.sys.(autocommit := false)), "AUTOCOMMIT: NO\r\n", [])
    else
      Step(m, "UNKNOWN AUTOCOMMIT ARG: " + s + "\r\n", [])
  }

  // ---- CALVIN1/2, CALVOUT1/2 ----

  /** calibrate_vin / calibrate_vout: the parsed value goes through unchecked (the
      parse-failure sentinel included) together with the latest raw sample of that
      channel, and only that channel's ADC pair may change. */
  function CalibrateChannel(env: Env, m: Machine, target: CalTarget, point: nat, s: string): (r: Step)
    ensures r.text == "" && r.effects == []
    ensures |r.m.calLog| == |m.calLog| + 1 && r.m.calLog[..|m.calLog|] == m.calLog
    ensures Last(r.m.calLog) ==
      CalRequest(target, point, env.parse(s), if target == VinAdc then m.state.vinRaw else m.state.voutRaw)
    ensures target == VinAdc ==>
      r.m == m.(sys := m.sys.(vinAdc := env.calibrate(r.m.calLog, m.sys.vinAdc)), calLog := r.m.calLog)
    ensures target == VoutAdc ==>
      r.m == m.(sys := m.sys.(voutAdc := env.calibrate(r.m.calLog, m.sys.voutAdc)), calLog := r.m.calLog)
  {
    var raw := if target == VinAdc then m.state.vinRaw else m.state.voutRaw;
    var log := m.calLog + [CalRequest(target, point, env.parse(s), raw)];
    var sys := match target
      case VinAdc => m.sys.(vinAdc := env.calibrate(log, m.sys.vinAdc))
      case VoutAdc => m.sys.(voutAdc := env.calibrate(log, m.sys.voutAdc));
    Step(m.(sys := sys, calLog := log), "", [])
  }

  function Last<T>(s: seq<T>): T
    requires |s| > 0
  {
    s[|s| - 1]
  }
}
