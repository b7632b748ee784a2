/** What process_input does with whole lines as a host sends them: a text and one
    terminator character, written at the start of a receive buffer that already
    holds older bytes. */
module InterpreterProps {
  import opened Platform
  import opened CStrings
  import opened Device
  import opened Handlers
  import opened Interpreter

  /** The receive buffer once `text` and its terminator `term` have arrived on top
      of the older bytes `rest`. */
  function Received(text: string, term: char, rest: seq<char>): Rx {
    Rx(text + [term] + rest, |text| + 1, true)
  }

  /** process_input's first act, overwriting the terminator with NUL. */
  function Stripped(rx: Rx): seq<char>
    requires 1 <= rx.len <= |rx.buf|
  {
    rx.buf[rx.len - 1 := Nul]
  }

  lemma StrippedReceived(text: string, term: char, rest: seq<char>)
    ensures Stripped(Received(text, term, rest)) == text + [Nul] + rest
  {
    var b := Stripped(Received(text, term, rest));
    assert forall i :: 0 <= i < |b| ==> b[i] == (text + [Nul] + rest)[i];
  }

  lemma ReplaceAt(p: seq<char>, x: char, y: char, t: seq<char>)
    ensures (p + [x] + t)[|p| := y] == p + [y] + t
    ensures (p + [y] + t)[|p| + 1..] == t
  {
    var u := (p + [x] + t)[|p| := y];
    assert forall i :: 0 <= i < |u| ==> u[i] == (p + [y] + t)[i];
  }

  lemma NoQueryHasSpace(c: string)
    requires c in QueryNames
    ensures ' ' !in c
  {
  }

  /** Zero-argument commands answer only when the line is exactly the command; a
      line with no space that is no such command is an unknown command, and neither
      kind of line changes the configuration. */
  lemma {:induction false} WholeLineCommands(env: Env, m: Machine, text: string, term: char, rest: seq<char>)
    requires env.nameSize >= 1 && |rest| >= 1 && Nul !in text
    requires m.rx == Received(text, term, rest)
    ensures var r := ProcessInput(env, m);
      && (text in QueryNames ==>
            var q := RunQuery(env, m, text).value;
            r.text == q.text && r.effects == q.effects && r.m == m.(rx := r.m.rx))
      && (text !in QueryNames && ' ' !in text ==>
            r.text == "UNKNOWN COMMAND\r\n" && r.effects == [] && r.m == m.(rx := r.m.rx))
  {
    var b := Stripped(m.rx);
    StrippedReceived(text, term, rest);
    CStrOfTerminated(text, rest);
    assert CStr(b) == text;
    if text !in QueryNames && ' ' !in text {
      var n := m.rx.len;
      assert b[..n] == text + [Nul];
      assert FindSpace(b, n).None?;
    }
  }

  /** The scan and the query match on a stripped buffer whose first space comes after
      a NUL-free command word of length k. */
  lemma {:induction false} FirstSpaceAt(b: seq<char>, n: nat, k: nat)
    requires k < n <= |b| && b[k] == ' '
    requires ' ' !in b[..k] && Nul !in b[..k]
    ensures FindSpace(b, n) == Some(k)
    ensures CStr(b) !in QueryNames
  {
    var c := CStr(b);
    assert Nul !in b[..k + 1] by {
      assert b[..k + 1] == b[..k] + [b[k]];
    }
    assert |c| > k;
    assert c[k] == ' ';
    if c in QueryNames {
      NoQueryHasSpace(c);
      assert false;
    }
  }

  /** Interpret hands a line with a space to the argument commands. */
  lemma InterpretArgument(env: Env, m: Machine, b: seq<char>, n: nat, k: nat)
    requires env.nameSize >= 1
    requires 1 <= n < |b| && b[n - 1] == Nul
    requires FindSpace(b, n) == Some(k) && CStr(b) !in QueryNames
    ensures Interpret(env, m, b, n).0 == RunCommand(env, m, CStr(b[k := Nul]), b[k := Nul][k + 1..])
  {
  }

  /** process_input answers with what Interpret answers on the stripped buffer. */
  lemma ProcessInputAnswers(env: Env, m: Machine)
    requires env.nameSize >= 1
    requires 1 <= m.rx.len < |m.rx.buf|
    ensures var r := ProcessInput(env, m);
      var s := Interpret(env, m, Stripped(m.rx), m.rx.len).0;
      r.text == s.text && r.effects == s.effects && r.m == s.m.(rx := r.m.rx)
  {
  }

  /** A line with a space is split at its first space only: the command word is what
      comes before it and the handler is given everything after it, later spaces
      included, followed by the terminator and the older bytes of the buffer. */
  lemma {:induction false} SplitAtFirstSpace(env: Env, m: Machine, head: string, arg: string, term: char, rest: seq<char>)
    requires env.nameSize >= 1 && |rest| >= 1
    requires Nul !in head && ' ' !in head
    requires m.rx == Received(head + " " + arg, term, rest)
    ensures var r := ProcessInput(env, m);
      var c := RunCommand(env, m, head, arg + [Nul] + rest);
      r.text == c.text && r.effects == c.effects && r.m == c.m.(rx := r.m.rx)
  {
    var b := Stripped(m.rx);
    var n := m.rx.len;
    var k := |head|;
    var tail := arg + [Nul] + rest;
    StrippedReceived(head + " " + arg, term, rest);
    assert b == head + [' '] + tail;
    assert b[..k] == head;
    FirstSpaceAt(b, n, k);
    InterpretArgument(env, m, b, n, k);
    ProcessInputAnswers(env, m);
    ReplaceAt(head, ' ', Nul, tail);
    var b2 := b[k := Nul];
    CStrOfTerminated(head, tail);
    assert CStr(b2) == head;
    assert b2[k + 1..] == tail;
  }

  /** An argument command word that is not known is answered "UNKNOWN COMMAND!", even
      when it names a zero-argument command, and nothing changes. */
  lemma UnknownWordWithArgument(env: Env, m: Machine, head: string, arg: string, term: char, rest: seq<char>)
    requires env.nameSize >= 1 && |rest| >= 1
    requires Nul !in head && ' ' !in head && head !in ArgumentNames
    requires m.rx == Received(head + " " + arg, term, rest)
    ensures var r := ProcessInput(env, m);
      r.text == "UNKNOWN COMMAND!\r\n" && r.effects == [] && r.m == m.(rx := r.m.rx)
  {
    SplitAtFirstSpace(env, m, head, arg, term, rest);
  }

  /** "VOLTAGE t" / "CURRENT t": the setpoint handler sees exactly the text t. */
  lemma {:induction false} SetpointLine(env: Env, m: Machine, q: Quantity, t: string, term: char, rest: seq<char>)
    requires env.nameSize >= 1 && |rest| >= 1 && Nul !in t
    requires m.rx == Received(Label(q) + " " + t, term, rest)
    ensures var r := ProcessInput(env, m);
      var s := SetSetpoint(env, m, q, t);
      r.text == s.text && r.effects == s.effects && r.m == s.m.(rx := r.m.rx)
  {
    SplitAtFirstSpace(env, m, Label(q), t, term, rest);
    CStrOfTerminated(t, rest);
  }

  /** A voltage the handler accepts is what a following CONFIG reports as the set
      voltage; nothing else in the report moves. */
  lemma AcceptedVoltageIsReported(env: Env, m: Machine, t: string, term: char, rest: seq<char>,
                                   term2: char, rest2: seq<char>)
    requires env.nameSize >= 1 && |rest| >= 1 && |rest2| >= 1 && Nul !in t
    requires Accepts(env, Voltage, env.parse(t))
    requires m.rx == Received("VOLTAGE " + t, term, rest)
    ensures var r1 := ProcessInput(env, m);
      var r2 := ProcessInput(env, r1.m.(rx := Received("CONFIG", term2, rest2)));
      && r1.m.outCfg.vset == env.parse(t)
      && r2.text == ConfigReport(env, m.sys, m.outCfg.(vset := env.parse(t)))
  {
    SetpointLine(env, m, Voltage, t, term, rest);
    var r1 := ProcessInput(env, m);
    WholeLineCommands(env, r1.m.(rx := Received("CONFIG", term2, rest2)), "CONFIG", term2, rest2);
  }

  /** Without autocommit an accepted setpoint is only staged: no commit, a pending
      notice; a later COMMIT pushes exactly the staged setpoint. */
  lemma StagedSetpointCommitsOnCommit(env: Env, m: Machine, q: Quantity, t: string, term: char, rest: seq<char>,
                                      term2: char, rest2: seq<char>)
    requires env.nameSize >= 1 && |rest| >= 1 && |rest2| >= 1 && Nul !in t
    requires !m.sys.autocommit && Accepts(env, q, env.parse(t))
    requires m.rx == Received(Label(q) + " " + t, term, rest)
    ensures var r1 := ProcessInput(env, m);
      var r2 := ProcessInput(env, r1.m.(rx := Received("COMMIT", term2, rest2)));
      && r1.effects == []
      && r1.text == Label(q) + ": SET " + env.showFixed(env.parse(t)) + "\r\n" + PendingNotice
      && r2.effects == [Commit(WithSetpoint(m.outCfg, q, env.parse(t)), m.sys, m.state.constantCurrent)]
  {
    SetpointLine(env, m, q, t, term, rest);
    var r1 := ProcessInput(env, m);
    WholeLineCommands(env, r1.m.(rx := Received("COMMIT", term2, rest2)), "COMMIT", term2, rest2);
  }

  /** With autocommit an accepted setpoint is committed by the command itself, once,
      with the new value. */
  lemma AutocommitSetpointCommitsAtOnce(env: Env, m: Machine, q: Quantity, t: string, term: char, rest: seq<char>)
    requires env.nameSize >= 1 && |rest| >= 1 && Nul !in t
    requires m.sys.autocommit && Accepts(env, q, env.parse(t))
    requires m.rx == Received(Label(q) + " " + t, term, rest)
    ensures var r := ProcessInput(env, m);
      r.effects == [Commit(WithSetpoint(m.outCfg, q, env.parse(t)), m.sys, m.state.constantCurrent)]
  {
    SetpointLine(env, m, q, t, term, rest);
  }

  /** "VOLTAGE t" with t above CAP_VMAX: one diagnostic and the setpoint stays. */
  lemma VoltageTooHigh(env: Env, m: Machine, t: string, term: char, rest: seq<char>)
    requires env.nameSize >= 1 && |rest| >= 1 && Nul !in t
    requires env.parse(t) != ParseFail && env.parse(t) > env.vmax
    requires m.rx == Received("VOLTAGE " + t, term, rest)
    ensures var r := ProcessInput(env, m);
      r.text == "VOLTAGE VALUE TOO HIGH\r\n" && r.effects == [] && r.m.outCfg == m.outCfg
  {
    assert Label(Voltage) + " " + t == "VOLTAGE " + t;
    SetpointLine(env, m, Voltage, t, term, rest);
  }

  /** "SNAME t" echoes the sanitized, truncated name it stored. */
  lemma NameLine(env: Env, m: Machine, t: string, term: char, rest: seq<char>)
    requires env.nameSize >= 1 && |rest| >= 1 && Nul !in t
    requires m.rx == Received("SNAME " + t, term, rest)
    ensures var r := ProcessInput(env, m);
      && CStr(r.m.sys.name) == Sanitize(t)[..Min(|t|, env.nameSize - 1)]
      && r.text == "SNAME: " + Sanitize(t)[..Min(|t|, env.nameSize - 1)] + "\r\n"
  {
    SplitAtFirstSpace(env, m, "SNAME", t, term, rest);
    CStrOfTerminated(t, rest);
  }

  /** "OUTPUT " with nothing after the space: the handler's second byte is the stale
      byte the buffer held after the line, and that byte decides whether the command
      is refused outright or only complains and then commits or pends. */
  lemma EmptyOutputArgument(env: Env, m: Machine, term: char, rest: seq<char>)
    requires env.nameSize >= 1 && |rest| >= 1
    requires m.rx == Received("OUTPUT ", term, rest)
    ensures var r := ProcessInput(env, m);
      && r.m == m.(rx := r.m.rx)
      && (rest[0] != Nul ==> r.text == OutputRejection("") && r.effects == [])
      && (rest[0] == Nul ==> CommitsOrPends(r, OutputRejection("")))
  {
    SplitAtFirstSpace(env, m, "OUTPUT", "", term, rest);
    assert ("" + [Nul] + rest)[1] == rest[0];
    CStrOfTerminated("", rest);
  }

  /** STATUS hides the output readings while the output is off. */
  lemma StatusHidesReadingsWhenOff(env: Env, sys: SystemConfig, st: Runtime, vout: nat, cout: nat)
    requires !sys.output
    ensures StatusReport(env, sys, st.(vout := vout, cout := cout)) == StatusReport(env, sys, st)
  {
  }

  /** CONFIG prints a zero voltage shutdown threshold as DISABLED, whatever the
      current threshold is, and never hands that zero to the number formatter. */
  lemma ZeroVoltageShutdownDisabled(env: Env, sys: SystemConfig, cfg: OutputConfig, show: nat -> string)
    requires cfg.vshutdown == 0
    requires show(cfg.vset) == env.showFixed(cfg.vset) && show(cfg.cset) == env.showFixed(cfg.cset)
    requires cfg.cshutdown != 0 ==> show(cfg.cshutdown) == env.showFixed(cfg.cshutdown)
    ensures ConfigReport(env.(showFixed := show), sys, cfg) == ConfigReport(env, sys, cfg)
    ensures ConfigReport(env, sys, cfg) == ConfigHead(env, sys, cfg)
      + "\r\nVOLTAGE SHUTDOWN: " + "DISABLED" + "\r\nCURRENT SHUTDOWN: " + Threshold(env, cfg.cshutdown) + "\r\n"
  {
  }

  /** The same for a zero current shutdown threshold, whatever the voltage one is. */
  lemma ZeroCurrentShutdownDisabled(env: Env, sys: SystemConfig, cfg: OutputConfig, show: nat -> string)
    requires cfg.cshutdown == 0
    requires show(cfg.vset) == env.showFixed(cfg.vset) && show(cfg.cset) == env.showFixed(cfg.cset)
    requires cfg.vshutdown != 0 ==> show(cfg.vshutdown) == env.showFixed(cfg.vshutdown)
    ensures ConfigReport(env.(showFixed := show), sys, cfg) == ConfigReport(env, sys, cfg)
    ensures ConfigReport(env, sys, cfg) == ConfigHead(env, sys, cfg)
      + "\r\nVOLTAGE SHUTDOWN: " + Threshold(env, cfg.vshutdown) + "\r\nCURRENT SHUTDOWN: " + "DISABLED" + "\r\n"
  {
  }

  // ---- AUTOCOMMIT, OUTPUT and the calibration lines ----

  /** "AUTOCOMMIT t": the handler sees exactly the text t. */
  lemma {:induction false} AutocommitLine(env: Env, m: Machine, t: string, term: char, rest: seq<char>)
    requires env.nameSize >= 1 && |rest| >= 1 && Nul !in t
    requires m.rx == Received("AUTOCOMMIT" + " " + t, term, rest)
    ensures var r := ProcessInput(env, m);
      var s := SetAutocommit(m, t);
      r.text == s.text && r.effects == s.effects && r.m == s.m.(rx := r.m.rx)
  {
    SplitAtFirstSpace(env, m, "AUTOCOMMIT", t, term, rest);
    CStrOfTerminated(t, rest);
  }

  /** The word given to AUTOCOMMIT decides what a following accepted setpoint line
      does: after YES it commits at once with the new value, after NO it is only
      staged with a pending notice. */
  lemma {:induction false} AutocommitDecidesSetpointCommit(env: Env, m: Machine, yes: bool, q: Quantity, t: string,
                                                           term: char, rest: seq<char>, term2: char, rest2: seq<char>)
    requires env.nameSize >= 1 && |rest| >= 1 && |rest2| >= 1 && Nul !in t
    requires Accepts(env, q, env.parse(t))
    requires m.rx == Received("AUTOCOMMIT" + " " + (if yes then "YES" else "NO"), term, rest)
    ensures var r1 := ProcessInput(env, m);
      var r2 := ProcessInput(env, r1.m.(rx := Received(Label(q) + " " + t, term2, rest2)));
      && r1.m.sys.autocommit == yes
      && (yes ==>
            r2.effects == [Commit(WithSetpoint(m.outCfg, q, env.parse(t)), m.sys.(autocommit := true), m.state.constantCurrent)])
      && (!yes ==>
            && r2.effects == []
            && r2.text == Label(q) + ": SET " + env.showFixed(env.parse(t)) + "\r\n" + PendingNotice)
  {
    AutocommitLine(env, m, if yes then "YES" else "NO", term, rest);
    var r1 := ProcessInput(env, m);
    SetpointLine(env, r1.m.(rx := Received(Label(q) + " " + t, term2, rest2)), q, t, term2, rest2);
  }

  /** "OUTPUT 0" and "OUTPUT 1" switch the output flag, change nothing else, and
      commit or report the change as pending. */
  lemma {:induction false} OutputLine(env: Env, m: Machine, c: char, term: char, rest: seq<char>)
    requires env.nameSize >= 1 && |rest| >= 1 && (c == '0' || c == '1')
    requires m.rx == Received("OUTPUT" + " " + [c], term, rest)
    ensures var r := ProcessInput(env, m);
      && r.m == m.(sys := m.sys.(output := c == '1'), rx := r.m.rx)
      && CommitsOrPends(r, if c == '1' then "OUTPUT: ON\r\n" else "OUTPUT: OFF\r\n")
  {
    SplitAtFirstSpace(env, m, "OUTPUT", [c], term, rest);
    var arg := [c] + [Nul] + rest;
    assert arg[0] == c && arg[1] == Nul;
  }

  /** A STATUS line answers with the status report of the machine as it stands. */
  lemma StatusLine(env: Env, m: Machine, term: char, rest: seq<char>)
    requires env.nameSize >= 1 && |rest| >= 1
    requires m.rx == Received("STATUS", term, rest)
    ensures ProcessInput(env, m).text == StatusReport(env, m.sys, m.state)
  {
    WholeLineCommands(env, m, "STATUS", term, rest);
  }

  /** After "OUTPUT c" a STATUS line reports the new output flag; after "OUTPUT 0" it
      reports the output readings as zero, whatever they are. */
  lemma {:induction false} OutputThenStatus(env: Env, m: Machine, c: char, term: char, rest: seq<char>,
                                            term2: char, rest2: seq<char>)
    requires env.nameSize >= 1 && |rest| >= 1 && |rest2| >= 1 && (c == '0' || c == '1')
    requires m.rx == Received("OUTPUT" + " " + [c], term, rest)
    ensures var r1 := ProcessInput(env, m);
      var r2 := ProcessInput(env, r1.m.(rx := Received("STATUS", term2, rest2)));
      && r2.text == StatusReport(env, m.sys.(output := c == '1'), m.state)
      && (c == '0' ==> r2.text == StatusReport(env, m.sys.(output := false), m.state.(vout := 0, cout := 0)))
  {
    OutputLine(env, m, c, term, rest);
    var r1 := ProcessInput(env, m);
    var m2 := r1.m.(rx := Received("STATUS", term2, rest2));
    assert m2.sys == m.sys.(output := c == '1') && m2.state == m.state;
    StatusLine(env, m2, term2, rest2);
    if c == '0' {
      StatusHidesReadingsWhenOff(env, m.sys.(output := false), m.state, 0, 0);
    }
  }

  /** The command word of a calibration line. */
  function CalWord(target: CalTarget, point: nat): string
    requires point == 1 || point == 2
  {
    match target
    case VinAdc => if point == 1 then "CALVIN1" else "CALVIN2"
    case VoutAdc => if point == 1 then "CALVOUT1" else "CALVOUT2"
  }

  lemma CalWordIsOneWord(target: CalTarget, point: nat)
    requires point == 1 || point == 2
    ensures Nul !in CalWord(target, point) && ' ' !in CalWord(target, point)
  {
  }

  /** A calibration word reaches the routine of its channel and point. */
  lemma CalWordDispatch(env: Env, m: Machine, target: CalTarget, point: nat, arg: seq<char>)
    requires env.nameSize >= 1 && |arg| >= 2 && (point == 1 || point == 2)
    ensures RunCommand(env, m, CalWord(target, point), arg) == CalibrateChannel(env, m, target, point, CStr(arg))
  {
  }

  /** "CALVIN1 t", "CALVIN2 t", "CALVOUT1 t", "CALVOUT2 t": the routine of that channel
      gets the parse of t with the channel's latest raw sample; only its pair and the
      request log change, and nothing is written. */
  lemma {:induction false} CalibrationLine(env: Env, m: Machine, target: CalTarget, point: nat, t: string,
                                           term: char, rest: seq<char>)
    requires env.nameSize >= 1 && |rest| >= 1 && Nul !in t && (point == 1 || point == 2)
    requires m.rx == Received(CalWord(target, point) + " " + t, term, rest)
    ensures var r := ProcessInput(env, m);
      && r.text == "" && r.effects == []
      && r.m.calLog == m.calLog +
           [CalRequest(target, point, env.parse(t), if target == VinAdc then m.state.vinRaw else m.state.voutRaw)]
      && r.m == CalibrateChannel(env, m, target, point, t).m.(rx := r.m.rx)
  {
    var word := CalWord(target, point);
    var arg := t + [Nul] + rest;
    CalWordIsOneWord(target, point);
    SplitAtFirstSpace(env, m, word, t, term, rest);
    CalWordDispatch(env, m, target, point, arg);
    CStrOfTerminated(t, rest);
    var s := CalibrateChannel(env, m, target, point, t);
    assert s.m.calLog == m.calLog + [Last(s.m.calLog)];
  }
}
