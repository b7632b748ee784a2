/** What the firmware takes from headers and helper files that are not part of this
    model: the capability constants, the name buffer size, the fixed-point shift, and
    the fixed-point and calibration routines, which are treated as opaque functions. */
module Platform {

  datatype Option<+T> = None | Some(value: T)

  /** One byte of an ADC data register. */
  type Byte = x: nat | x < 256

  /** Value parse_fixed_point returns for text that is not a number. */
  const ParseFail: nat := 0xFFFF

  /** A request handed to calibrate_vin / calibrate_vout. */
  datatype CalTarget = VinAdc | VoutAdc
  datatype CalRequest = CalRequest(target: CalTarget, point: nat, value: nat, raw: nat)

  /** A `{slope, offset}` calibration pair (calibrate_t: fields a and b). */
  datatype Calibration = Calibration(a: nat, b: nat)

  /** The build-time environment of the firmware.
      - vmin .. cstep: CAP_VMIN, CAP_VMAX, CAP_VSTEP, CAP_CMIN, CAP_CMAX, CAP_CSTEP;
      - nameSize: sizeof(cfg_system.name);
      - fixedShift: FIXED_SHIFT (FIXED_FRACTION_MASK is its low bits);
      - parse: parse_fixed_point; mult: fixed_mult;
      - showFixed / showInt: the text uart_write_fixed_point / uart_write_int emit;
      - calibrate: the pair calibrate_vin / calibrate_vout leave behind, given every
        request made so far (the routines remember the first reference point) and the
        pair they were handed. */
  datatype Env = Env(
    vmin: nat, vmax: nat, vstep: nat,
    cmin: nat, cmax: nat, cstep: nat,
    nameSize: nat,
    fixedShift: nat,
    parse: string -> nat,
    mult: (nat, nat) -> nat,
    showFixed: nat -> string,
    showInt: nat -> string,
    calibrate: (seq<CalRequest>, Calibration) -> Calibration)

  /** 2 to the power k: the scale of FIXED_SHIFT. */
  function Pow2(k: nat): (r: nat)
    ensures r >= 1
  {
    if k == 0 then 1 else 2 * Pow2(k - 1)
  }
}
