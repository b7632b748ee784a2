# B3606 power-supply firmware: command interpreter and sampling step

A Dafny model of the decision logic of the B3606 alternative firmware
(`stm8/main.c`):

- **Command interpreter** (`process_input`). It strips the line terminator and
  answers the zero-argument commands (MODEL, VERSION, SYSTEM, CALIBRATION, VLIST,
  CLIST, CONFIG, STATUS, RSTATUS, COMMIT, SAVE). Other lines are split at the first
  space. The part before it picks one of the argument handlers: `set_name`,
  `set_output`, `set_voltage`, `set_current`, `set_autocommit`, or the
  CALVIN1/2 and CALVOUT1/2 calibration calls.
- **Setpoint commit protocol.** An accepted change is committed at once under
  autocommit. Otherwise a "pending" notice is sent and the change waits for COMMIT.
- **Sampling step** (`read_state`). It does edge detection on PC3 and on the CC/CV
  sense pin. It rotates the ADC over output current (channel 2), output voltage
  (channel 3) and input voltage (channel 4), converting each sample with
  `adc_to_volt`. After each input-voltage sample it extracts four display digits.
- **Start-up** (`config_load`).

The whole firmware state is one immutable `Machine`. It holds `cfg_system`,
`cfg_output`, `state`, the receive buffer, the ADC channel selection and the
calibration routines' memory. Every operation is a pure function that returns a
`Step`: the next machine, the text `main.c` itself writes to the UART, and the
collaborator calls made (`Effect`: output_commit, config_save_*,
output_check_state, adc_start, display_show), each with the values passed to it.

Strings follow C semantics. A command is compared through `CStr`, the text before
the first NUL of the buffer. A handler gets the buffer from the first character of
its argument. `set_output` reads the argument's second byte. For an empty argument
that byte is the stale byte after the line. So the receive buffer is modelled as
the whole array, longer than the line.

Opaque collaborators are fields of `Env`. They are `parse_fixed_point`,
`fixed_mult`, the text of `uart_write_fixed_point` and `uart_write_int`, and the
pair left by `calibrate_vin`/`calibrate_vout`. `Env` also holds the header
constants: CAP_VMIN … CAP_CSTEP, the name buffer size and FIXED_SHIFT. The
calibration routines remember the first reference point, so they get the full list
of requests made so far.

`adc_to_volt` is not a subtraction clamped at zero. When the product does not
exceed the offset, it returns the product unsubtracted.
`Sampling.AdcToVoltVersusClamp` says exactly where the two differ.
`Sampling.AdcToVoltNotMonotone` shows the consequence: for any offset b > 1, the
sample whose product is b reads b, and the one whose product is b + 1 reads 1.

## Model

| member | source | states |
|---|---|---|
| `Device.ConfigLoad` | stm8/main.c:411-422 | the loaded configurations are kept, except that the output flag becomes the startup policy `default_on`; PC3 is latched high; nothing else changes |
| `Device.LoadIgnoresStoredOutput` | stm8/main.c:416-419 | the stored output flag has no influence on the machine after loading |
| `CStrings.SanitizeInPlaceReads` | stm8/main.c:67-70 | after the in-place loop the argument reads as the input with every non-printable character replaced by '.' |
| `CStrings.CopyTerminated` | stm8/main.c:72-73 | the name buffer keeps its size, ends in NUL, and reads as the source text cut to size − 1 characters |
| `Handlers.SetName` | stm8/main.c:63-78 | the stored name is the sanitized argument cut to buffer size − 1, all printable, NUL-terminated in its buffer; the echo is "SNAME: " plus the stored name; nothing else changes and nothing is committed |
| `Handlers.SetOutput` | stm8/main.c:80-106 | an argument longer than one character is refused with no change, commit or notice; "0"/"1" switch the output off/on; any other single character leaves it alone; in those three cases the handler commits once (autocommit) or emits the pending notice |
| `Handlers.SetSetpoint` | stm8/main.c:108-164 | the parse sentinel 0xFFFF is silent and changes nothing; above the maximum gives exactly "… VALUE TOO HIGH"; below the minimum gives "… TOO LOW"; an accepted value (both bounds inclusive) becomes the setpoint, nothing else changes, and the machine commits once or reports pending |
| `Handlers.SetpointChangesOnlyWhenAccepted` | stm8/main.c:112-134 | the machine changes only for an accepted value and then holds it; at most one commit, and one exactly when accepted under autocommit |
| `Handlers.SetAutocommit` | stm8/main.c:166-179 | exactly "1"/"YES" turn autocommit on and exactly "0"/"NO" turn it off; anything else changes nothing and is echoed as an unknown argument; it never commits |
| `Handlers.CalibrateChannel` | stm8/main.c:323-330 | the parsed value, sentinel included, is handed over with that channel's latest raw sample; only that channel's ADC pair and the request log change; no text |
| `Interpreter.RunQuery` | stm8/main.c:186-291 | exactly the eleven zero-argument command words answer; none changes the machine; only COMMIT (one commit) and SAVE (save system, save output, "SAVED") call collaborators |
| `Interpreter.RunCommand` | stm8/main.c:312-333 | each of the nine command words reaches its own handler: SNAME and OUTPUT get the argument buffer, VOLTAGE, CURRENT, AUTOCOMMIT and the four calibration words get the C string at the argument, the calibration words with their channel and point; any other word gives "UNKNOWN COMMAND!" and no change; no handler touches readings, receive buffer or ADC channel |
| `Interpreter.FindSpace` | stm8/main.c:301-310 | finds the first space within the line, or reports that there is none |
| `Interpreter.ProcessInput` | stm8/main.c:181-341 | the line length and newline flag are reset to 0; the terminator position holds NUL; readings and ADC channel are untouched |
| `InterpreterProps.WholeLineCommands` | stm8/main.c:186-299 | a zero-argument command answers only when it is the whole stripped line; a line with no space that is no such command gives "UNKNOWN COMMAND"; neither changes the configuration |
| `InterpreterProps.SplitAtFirstSpace` | stm8/main.c:300-336 | a line is split at its first space only; the handler gets everything after it, later spaces included |
| `InterpreterProps.UnknownWordWithArgument` | stm8/main.c:331-333 | an unknown word followed by a space gives "UNKNOWN COMMAND!", also when the word is a zero-argument command |
| `InterpreterProps.SetpointLine` | stm8/main.c:317-320 | "VOLTAGE t" / "CURRENT t" hand exactly the text t to the setpoint handler |
| `InterpreterProps.AcceptedVoltageIsReported` | stm8/main.c:244-261 | after an accepted VOLTAGE command, CONFIG reports the new setpoint with the rest unchanged |
| `InterpreterProps.StagedSetpointCommitsOnCommit` | stm8/main.c:286-287 | without autocommit an accepted setpoint is only staged with a pending notice; a following COMMIT commits exactly that setpoint |
| `InterpreterProps.AutocommitSetpointCommitsAtOnce` | stm8/main.c:130-131 | with autocommit the command itself commits once, with the new setpoint |
| `InterpreterProps.VoltageTooHigh` | stm8/main.c:116-119 | a voltage above CAP_VMAX gives exactly "VOLTAGE VALUE TOO HIGH" and keeps the setpoint |
| `InterpreterProps.NameLine` | stm8/main.c:313-314 | "SNAME t" stores and echoes the sanitized, truncated t |
| `InterpreterProps.EmptyOutputArgument` | stm8/main.c:82-99 | with an empty OUTPUT argument the stale byte after the line decides between outright refusal and a complaint followed by commit or pending notice; the output flag never changes |
| `InterpreterProps.StatusHidesReadingsWhenOff` | stm8/main.c:262-273 | while the output is off, STATUS does not depend on the output voltage and current readings |
| `InterpreterProps.ZeroVoltageShutdownDisabled` | stm8/main.c:251-255 | a zero voltage shutdown threshold is printed as DISABLED whatever the current threshold is, and the report does not depend on how that zero would format |
| `InterpreterProps.ZeroCurrentShutdownDisabled` | stm8/main.c:256-260 | a zero current shutdown threshold is printed as DISABLED whatever the voltage threshold is, and the report does not depend on how that zero would format |
| `InterpreterProps.AutocommitLine` | stm8/main.c:166-179 | "AUTOCOMMIT t" gives exactly the autocommit handler's step on t |
| `InterpreterProps.AutocommitDecidesSetpointCommit` | stm8/main.c:130-134 | after "AUTOCOMMIT YES" an accepted setpoint line commits once with the new value; after "AUTOCOMMIT NO" the same line makes no call and sends the pending notice |
| `InterpreterProps.OutputLine` | stm8/main.c:80-106 | "OUTPUT 0" / "OUTPUT 1" set the output flag off / on, change nothing else, and commit or send the pending notice |
| `InterpreterProps.StatusLine` | stm8/main.c:262-273 | a STATUS line answers with the status report of the current machine |
| `InterpreterProps.OutputThenStatus` | stm8/main.c:262-273 | after "OUTPUT c" the next STATUS reports the new flag; after "OUTPUT 0" it reports the output readings as zero whatever they are |
| `InterpreterProps.CalibrationLine` | stm8/main.c:323-330 | "CALVIN1/2 t" and "CALVOUT1/2 t" write nothing, call nothing, append the request (channel, point, parse of t, that channel's raw sample) to the log and change only that channel's pair |
| `Sampling.AdcToVolt` | stm8/main.c:424-434 | with p = fixed_mult(adc, a): the result is at most p; it is p − b when p > b, else p |
| `Sampling.AdcToVoltVersusClamp` | stm8/main.c:428-433 | the conversion differs from a zero-clamped subtraction exactly when 0 < p ≤ b |
| `Sampling.AdcToVoltNotMonotone` | stm8/main.c:430-431 | for any offset b > 0, a sample whose product is b reads b and one whose product is b + 1 reads 1, so for b > 1 the reading falls as the product rises |
| `Sampling.RawSample` | stm8/main.c:457-461 | the sample is below 2^16 and its low and high bytes are the two data registers |
| `Sampling.DisplayDigits` | stm8/main.c:487-498 | four characters in '0'..'9'; the first two spell the integer volts (vin >> FIXED_SHIFT cut to 16 bits) mod 100, the last two the hundredths (fixed_mult of the fraction cut to 16 bits, by 100, cut to 16 bits) mod 100 |
| `Sampling.ReadState` | stm8/main.c:436-505 | both pins are latched; a PC3 change writes one message, exactly on change; the list of calls is exact in every case: one output_check_state call exactly on a CC/CV change, then adc_start(2) with no channel selected, nothing more when not ready, adc_start(3)/(4) after channels 2/3, display_show with the digits of the new vin and adc_start(2) after channel 4, adc_start of the same channel outside the rotation; channels 2, 3 and 4 update only their own raw and physical readings; the cycle stays within {2,3,4} |
| `Sampling.DisplayOnlyAfterInputVoltage` | stm8/main.c:481-499 | read_state calls display_show exactly when an input-voltage sample was read |
| `Sampling.RotationOrder` | stm8/main.c:454-503 | over any sequence of ready and not-ready steps, samples are read in the order 2, 3, 4, 2, …, starting with the pending channel |

## Left out

- Register set-up (`clk_init`, `pinout_init`, `adc_init`) is left out. Inside `adc_start`/`adc_ready` only the channel field and the ready flag are modelled, as inputs and state.
- The watchdog, `ensure_afr0_set`, the `main` loop and the DEBUG-only STUCK command are left out. They concern reset timing and liveness.
- UART buffering and transmission are left out. Each write is text appended to the step's output.
- The bodies of `parse_fixed_point`, `fixed_mult`, `uart_write_fixed_point`, `uart_write_int`, `calibrate_vin`/`calibrate_vout`, `output_commit`, `output_check_state`, `config_save_*`, `config_load_*`, `display_show` and `display_refresh` are not part of this model. They are opaque functions or recorded calls.
- `Step.text` is only what `main.c` itself writes. Whatever `calibrate_vin`/`calibrate_vout`, `output_commit`, `output_check_state` or `config_save_*` may write is not part of this model, because their bodies are not.
- `output_commit` and `output_check_state` receive pointers to the configuration. The model assumes they do not change it.
- The width of `fixed_t` is not modelled: fixed-point values are unbounded naturals. The three 16-bit stores into `val` in the display extraction are modelled explicitly.
- FIXED_FRACTION_MASK is taken to be the low FIXED_SHIFT bits.
- The uint8_t loop indices in `set_name` and `process_input` would wrap on lines of 256 characters or more. The model treats lines as shorter than that.
- `Interpreter.ProcessInput` requires the receive array to be longer than the line. For an empty OUTPUT argument the handler reads the byte after the line; a full array would make that a read past its end.
