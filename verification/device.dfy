/** The firmware's global state (cfg_system, cfg_output, state), the receive buffer
    the command interpreter reads, the ADC channel selection, and the record of what
    one step emits. */
module Device {
  import opened Platform

  /** cfg_system: the persisted system configuration. `name` is the whole name
      buffer; what is shown is its C string. */
  datatype SystemConfig = SystemConfig(
    name: seq<char>,
    output: bool,
    defaultOn: bool,
    autocommit: bool,
    vinAdc: Calibration,
    voutAdc: Calibration,
    coutAdc: Calibration,
    voutPwm: Calibration,
    coutPwm: Calibration)

  /** cfg_output: setpoints and shutdown thresholds (0 means disabled). */
  datatype OutputConfig = OutputConfig(vset: nat, cset: nat, vshutdown: nat, cshutdown: nat)

  /** state: the latest readings, raw samples and digital inputs. */
  datatype Runtime = Runtime(
    vin: nat, vout: nat, cout: nat,
    vinRaw: nat, voutRaw: nat, coutRaw: nat,
    constantCurrent: bool,
    pc3: bool)

  /** uart_read_buf (the whole array), uart_read_len and read_newline. */
  datatype Rx = Rx(buf: seq<char>, len: nat, newline: bool)

  /** Everything one step reads or writes. `adcChannel` is the channel field of
      ADC1_CSR (0 when no conversion was ever started); `calLog` is what the
      calibration routines have been told so far. */
  datatype Machine = Machine(
    sys: SystemConfig,
    outCfg: OutputConfig,
    state: Runtime,
    rx: Rx,
    adcChannel: nat,
    calLog: seq<CalRequest>)

  /** Calls into collaborators, with the values they were handed. */
  datatype Effect =
    | Commit(outCfg: OutputConfig, sys: SystemConfig, constantCurrent: bool)
    | SaveSystem(sys: SystemConfig)
    | SaveOutput(outCfg: OutputConfig)
    | CheckState(sys: SystemConfig, constantCurrent: bool)
    | AdcStart(channel: nat)
    | Display(digits: seq<char>, dots: seq<bool>)

  /** The machine after a step, the text written to the UART, and the collaborator
      calls made, in order. */
  datatype Step = Step(m: Machine, text: string, effects: seq<Effect>)

  /** commit_output(): output_commit on the current configuration and regulation mode. */
  function CommitOutput(m: Machine): Effect {
    Commit(m.outCfg, m.sys, m.state.constantCurrent)
  }

  /** config_load(): take what the configuration store returned, then let the startup
      policy decide whether the output is on, and arm the PC3 edge detector. */
  function ConfigLoad(m: Machine, loadedSys: SystemConfig, loadedOut: OutputConfig): (r: Machine)
    ensures r.sys.output == loadedSys.defaultOn
    ensures r.sys == loadedSys.(output := r.sys.output)
    ensures r.outCfg == loadedOut
    ensures r.state.pc3
    ensures r.state == m.state.(pc3 := r.state.pc3)
    ensures r.rx == m.rx && r.adcChannel == m.adcChannel && r.calLog == m.calLog
  {
    m.(sys := loadedSys.(output := loadedSys.defaultOn), outCfg := loadedOut, state := m.state.(pc3 := true))
  }

  /** Whatever output flag was stored, the loaded machine is the same: only the
      startup policy decides. */
  lemma LoadIgnoresStoredOutput(m: Machine, loadedSys: SystemConfig, loadedOut: OutputConfig, stored: bool)
    ensures ConfigLoad(m, loadedSys.(output := stored), loadedOut) == ConfigLoad(m, loadedSys, loadedOut)
  {
  }
}
