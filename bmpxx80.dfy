/** The blocking BME280 driver: register access helpers, initialisation
  * (argument clamps, calibration unpacking, control register writes) and the
  * integer compensation formulas of the Bosch BME280 datasheet (section
  * 4.2.3, "Compensation formulas").
  *
  * The chip is seen through a snapshot of its 256 registers taken when a
  * reading is made (`Sample`), and whether a bounded poll of a status bit
  * ended in time; register writes are recorded in a ghost log. Bit
  * operations are written as the arithmetic they amount to on the values
  * involved, and the `...Bits` lemmas state each equivalence on bit vectors.
  * The floating-point results are kept as the integers they are computed
  * from: hundredths of a degree for temperature, 1/1024 %RH for humidity. */
module Bmpxx80 {
  import opened Common

  // ---- Register map and register values (standard BME280 values) ----

  const RegDigT1: byte := 0x88
  const RegDigP1: byte := 0x8E
  const RegDigH1: byte := 0xA1
  const RegChipId: byte := 0xD0
  const RegSoftReset: byte := 0xE0
  const RegDigH2: byte := 0xE1
  const RegDigH3: byte := 0xE3
  const RegDigH4: byte := 0xE4
  const RegDigH5: byte := 0xE5
  const RegDigH6: byte := 0xE7
  const RegHumControl: byte := 0xF2
  const RegStatus: byte := 0xF3
  const RegControl: byte := 0xF4
  const RegConfig: byte := 0xF5
  const RegPressureData: byte := 0xF7
  const RegTempData: byte := 0xFA
  const RegHumidData: byte := 0xFD

  const ChipId: byte := 0x60
  const SoftResetWord: byte := 0xB6

  const ModeSleep: byte := 0
  const ModeForced: byte := 1
  const ModeNormal: byte := 3

  /** The largest oversampling codes: x16 for all three channels. */
  const Temperature20Bit: byte := 5
  const PressureUltraHighRes: byte := 5
  const HumidityUltraHigh: byte := 5

  const Standby0_5Ms: byte := 0
  const FilterOff: byte := 0

  /** The floating-point failure value -99.0 in the units the model keeps. */
  const TempFailed: int := -9900
  const HumidityFailed: int := -99 * 1024

  /** The upper humidity clamp, 100 %RH in Q22.10 shifted left by 12. */
  const HumidityCeiling: int := 419430400

  // ---- Bit-level facts ----

  lemma Swap16Bits(v: bv16)
    ensures (v >> 8) | (v << 8) == v / 256 + v % 256 * 256
  {
  }

  lemma ConfigBits(s: bv8, f: bv8)
    ensures (((s & 7) << 5) | ((f & 7) << 2)) & 0xFC == s % 8 * 32 + f % 8 * 4
  {
  }

  lemma CtrlMeasBits(t: bv8, p: bv8, m: bv8)
    requires t < 8 && p < 8 && m < 4
    ensures (t << 5) | (p << 2) | m == t * 32 + p * 4 + m
  {
  }

  /** `(hum & 0xF8) | (os & 0x07)` and `(ctrl & ~0x03) | FORCED`. */
  lemma MaskedFieldBits(b: bv8, os: bv8)
    ensures (b & 0xF8) | (os & 7) == b / 8 * 8 + os % 8
    ensures (b & 0xFC) | 1 == b / 4 * 4 + 1
  {
  }

  /** The two 12-bit humidity coefficients packed around register 0xE5. */
  lemma NibblePairBits(hi: bv16, lo: bv16)
    requires hi < 0x100 && lo < 0x100
    ensures (hi << 4) | (lo & 0x0F) == hi * 16 + lo % 16
    ensures (hi << 4) | (lo >> 4) == hi * 16 + lo / 16
  {
  }

  // ---- Register access ----

  /** A register snapshot, and whether the poll preceding it ended in time. */
  datatype Sample = Sample(measured: bool, regs: seq<byte>)

  predicate WellFormed(s: Sample)
  {
    |s.regs| == 0x100
  }

  /** `BME280_Read16`: two registers, the first one the high byte. */
  function Read16(regs: seq<byte>, addr: byte): (r: u16)
    requires |regs| == 0x100 && addr < 0xFF
    ensures r / 256 == regs[addr] && r % 256 == regs[addr + 1]
  {
    regs[addr] as int * 256 + regs[addr + 1]
  }

  /** `BME280_Read24`: three registers, the first one the high byte. */
  function Read24(regs: seq<byte>, addr: byte): (r: int)
    requires |regs| == 0x100 && addr < 0xFE
    ensures 0 <= r < 0x100_0000
    ensures r / 0x1_0000 == regs[addr] && r / 256 % 256 == regs[addr + 1] && r % 256 == regs[addr + 2]
  {
    regs[addr] as int * 0x1_0000 + regs[addr + 1] as int * 256 + regs[addr + 2]
  }

  /** The byte swap in `BME280_Read16LE`. */
  function Swap16(v: u16): (r: u16)
  {
    v / 256 + v % 256 * 256
  }

  lemma Swap16Involutive(v: u16)
    ensures Swap16(Swap16(v)) == v
  {
    var r := Swap16(v);
    assert r / 256 == v % 256 && r % 256 == v / 256;
  }

  /** `BME280_Read16LE`: the calibration words are stored low byte first. */
  function Read16LE(regs: seq<byte>, addr: byte): (r: u16)
    requires |regs| == 0x100 && addr < 0xFF
    ensures r == regs[addr] + 256 * (regs[addr + 1] as int)
  {
    Swap16(Read16(regs, addr))
  }

  /** `int16_t` and `int8_t` reinterpretations. */
  function Int16(x: u16): (r: int)
    ensures -0x8000 <= r < 0x8000 && (r - x) % 0x1_0000 == 0
  {
    if x < 0x8000 then x else x - 0x1_0000
  }

  function Int8(x: byte): (r: int)
    ensures -0x80 <= r < 0x80 && (r - x) % 0x100 == 0
  {
    if x < 0x80 then x else x - 0x100
  }

  // ---- Configuration bytes ----

  /** `BME280_SetConfig`'s register value: standby time in bits 7..5, filter
    * in bits 4..2, bits 1..0 clear. */
  function ConfigByte(standby: byte, filter: byte): (r: byte)
    ensures r / 32 == standby % 8 && r / 4 % 8 == filter % 8 && r % 4 == 0
  {
    standby % 8 * 32 + filter % 8 * 4
  }

  /** ctrl_meas: temperature oversampling in bits 7..5, pressure in 4..2,
    * the mode in 1..0. */
  function CtrlMeasByte(t: byte, p: byte, mode: byte): (r: byte)
    requires t < 8 && p < 8 && mode < 4
    ensures r / 32 == t && r / 4 % 8 == p && r % 4 == mode
  {
    t * 32 + p * 4 + mode
  }

  /** ctrl_hum with the oversampling in bits 2..0, the other bits kept. */
  function HumCtrlByte(current: byte, os: byte): (r: byte)
    ensures r / 8 == current / 8 && r % 8 == os % 8
  {
    current / 8 * 8 + os % 8
  }

  /** ctrl_meas with its mode field set to forced. */
  function ForceByte(ctrl: byte): (r: byte)
    ensures r / 4 == ctrl / 4 && r % 4 == ModeForced
  {
    ctrl / 4 * 4 + 1
  }

  function Clamp(x: byte, max: byte): (r: byte)
    ensures r <= max && r <= x && (x <= max ==> r == x)
  {
    if x > max then max else x
  }

  // ---- Calibration ----

  /** The trimming parameters `t1`..`h6`, with their C signedness. */
  datatype Calib = Calib(
    t1: u16, t2: int, t3: int,
    p1: u16, p2: int, p3: int, p4: int, p5: int, p6: int, p7: int, p8: int, p9: int,
    h1: byte, h2: int, h3: byte, h4: int, h5: int, h6: int)

  /** The calibration reads in `BME280_Init`. The 12-bit `h4` and `h5` are
    * assembled from unsigned bytes, so they are never negative. */
  function ReadCalib(regs: seq<byte>): (c: Calib)
    requires |regs| == 0x100
    ensures c.t1 == regs[0x88] + 256 * (regs[0x89] as int) && c.p1 == regs[0x8E] + 256 * (regs[0x8F] as int)
    ensures -0x8000 <= c.t2 < 0x8000 && -0x8000 <= c.p9 < 0x8000 && -0x80 <= c.h6 < 0x80
    ensures c.h4 == regs[0xE4] as int * 16 + regs[0xE5] % 16 && c.h5 == regs[0xE6] as int * 16 + regs[0xE5] / 16
    ensures 0 <= c.h4 < 0x1000 && 0 <= c.h5 < 0x1000
  {
    Calib(
      Read16LE(regs, RegDigT1), Int16(Read16LE(regs, 0x8A)), Int16(Read16LE(regs, 0x8C)),
      Read16LE(regs, RegDigP1), Int16(Read16LE(regs, 0x90)), Int16(Read16LE(regs, 0x92)),
      Int16(Read16LE(regs, 0x94)), Int16(Read16LE(regs, 0x96)), Int16(Read16LE(regs, 0x98)),
      Int16(Read16LE(regs, 0x9A)), Int16(Read16LE(regs, 0x9C)), Int16(Read16LE(regs, 0x9E)),
      regs[RegDigH1], Int16(Read16LE(regs, RegDigH2)), regs[RegDigH3],
      Int16(regs[RegDigH4] as int * 16 + regs[RegDigH5] % 16),
      Int16(regs[RegDigH5 + 1] as int * 16 + regs[RegDigH5] / 16),
      Int8(regs[RegDigH6]))
  }

  // ---- Compensation (integer paths) ----
  // `>> k` on a signed value is an arithmetic shift, which is Dafny's `/`
  // by 2^k (Euclidean, so flooring, for a positive divisor); `<< k` is a
  // multiplication; C's `/` truncates (`TruncDiv`).

  /** `t_fine` from the 20-bit raw temperature. */
  function TFine(c: Calib, adcT: int): int
  {
    var var1 := ((adcT / 8 - c.t1 * 2) * c.t2) / 2048;
    var var2 := (((adcT / 16 - c.t1) * (adcT / 16 - c.t1)) / 4096 * c.t3) / 16384;
    var1 + var2
  }

  /** `(t_fine * 5 + 128) >> 8`: hundredths of a degree, rounded to nearest. */
  function CentiCelsius(tFine: int): (r: int)
    ensures 256 * r <= tFine * 5 + 128 < 256 * r + 256
  {
    (tFine * 5 + 128) / 256
  }

  /** Temperature rises (weakly) with `t_fine`. */
  lemma CentiCelsiusMonotone(a: int, b: int)
    requires a <= b
    ensures CentiCelsius(a) <= CentiCelsius(b)
  {
  }

  /** The 64-bit pressure computation up to the final scaling, in Pa/256:
    * none when the divisor `var1` is zero. */
  function PressureQ24(c: Calib, tFine: int, adcP: int): Option<int>
  {
    var v1 := tFine - 128000;
    var v2 := v1 * v1 * c.p6 + v1 * c.p5 * 0x2_0000 + c.p4 * 0x8_0000_0000;
    var w1 := (v1 * v1 * c.p3) / 256 + v1 * c.p2 * 4096;
    var d := (0x8000_0000_0000 + w1) * c.p1 / 0x2_0000_0000;
    if d == 0 then None
    else
      var p := TruncDiv(((1048576 - adcP) * 0x8000_0000 - v2) * 3125, d);
      var u1 := (c.p9 * (p / 8192) * (p / 8192)) / 0x200_0000;
      var u2 := (c.p8 * p) / 0x8_0000;
      Some((p + u1 + u2) / 256 + c.p7 * 16)
  }

  /** `BME280_ReadPressure`'s result after its temperature read succeeded:
    * `(int32_t)(p / 256)`, and 0 when the divisor is zero. */
  function PressurePa(c: Calib, tFine: int, adcP: int): (r: int)
    ensures PressureQ24(c, tFine, adcP).None? ==> r == 0
    ensures -0x8000_0000 <= r < 0x8000_0000
  {
    match PressureQ24(c, tFine, adcP)
    case None => 0
    case Some(p) => Int32(TruncDiv(p, 256))
  }

  /** The humidity formula before clamping. */
  function HumidityRaw(c: Calib, tFine: int, adcH: int): int
  {
    var x := tFine - 76800;
    var a := (adcH * 0x4000 - c.h4 * 0x10_0000 - c.h5 * x + 16384) / 0x8000;
    var b := ((((x * c.h6) / 1024 * ((x * c.h3) / 2048 + 32768)) / 1024 + 2097152) * c.h2 + 8192) / 0x4000;
    var v := a * b;
    v - ((v / 0x8000) * (v / 0x8000) / 128 * c.h1) / 16
  }

  /** The clamped value shifted right by 12: 1/1024 %RH, from 0 to 100 %RH. */
  function HumidityQ10(c: Calib, tFine: int, adcH: int): (r: int)
    ensures 0 <= r <= 102400
    ensures var v := HumidityRaw(c, tFine, adcH);
      (v <= 0 ==> r == 0) && (v >= HumidityCeiling ==> r == 102400)
      && (0 <= v <= HumidityCeiling ==> r * 4096 <= v < r * 4096 + 4096)
  {
    var v := HumidityRaw(c, tFine, adcH);
    var v' := if v < 0 then 0 else if v > HumidityCeiling then HumidityCeiling else v;
    v' / 4096
  }

  /** The worked example of the Bosch BMP280 datasheet, whose temperature
    * and pressure compensation is the BME280's: raw temperature 519888 with
    * T1 = 27504, T2 = 26435, T3 = -1000 gives t_fine 128422 and 25.08
    * degrees. */
  lemma DatasheetTemperature()
    ensures TFine(DatasheetCalib(), 519888) == 128422 && CentiCelsius(128422) == 2508
  {
    var c := DatasheetCalib();
    assert (519888 / 8 - c.t1 * 2) * c.t2 == 263768430;
    assert 263768430 / 2048 == 128793;
    assert (519888 / 16 - c.t1) * (519888 / 16 - c.t1) == 24890121;
    assert 24890121 / 4096 * c.t3 == -6076000;
    assert -6076000 / 16384 == -371;
    assert 642238 / 256 == 2508;
  }

  /** ... and raw pressure 415148 with its P1..P9 gives 100653 Pa. */
  lemma DatasheetPressure()
    ensures PressureQ24(DatasheetCalib(), 128422, 415148) == Some(25767233)
    ensures PressurePa(DatasheetCalib(), 128422, 415148) == 100653
  {
    var c, v1 := DatasheetCalib(), 422;
    assert v1 * v1 * c.p6 + v1 * c.p5 * 0x2_0000 + c.p4 * 0x8_0000_0000 == 98104795527812;
    assert (v1 * v1 * c.p3) / 256 + v1 * c.p2 * 4096 == -18467047103;
    assert (0x8000_0000_0000 + -18467047103) * c.p1 / 0x2_0000_0000 == 597560748;
    assert ((1048576 - 415148) * 0x8000_0000 - 98104795527812) * 3125 == 3944285864554787500;
    assert TruncDiv(3944285864554787500, 597560748) == 6600644165;
    assert (c.p9 * (6600644165 / 8192) * (6600644165 / 8192)) / 0x200_0000 == 116089612;
    assert (c.p8 * 6600644165) / 0x8_0000 == -183810053;
  }

  function DatasheetCalib(): Calib
  {
    Calib(27504, 26435, -1000, 36477, -10685, 3024, 2855, 140, -7, 15500, -14600, 6000, 0, 0, 0, 0, 0, 0)
  }

  // ---- Readings ----

  /** A register write, as it appears on the bus. */
  datatype Write = Write(reg: byte, value: byte)

  /** What one of the reading functions returns, and `t_fine` after it. */
  datatype Reading = Reading(value: int, tFine: int)

  /** In forced mode a reading first writes ctrl_meas with its mode field
    * set to forced, from the value read back. */
  function TriggerWrites(mode: byte, s: Sample): seq<Write>
    requires WellFormed(s)
  {
    if mode == ModeForced then [Write(RegControl, ForceByte(s.regs[RegControl]))] else []
  }

  /** `BME280_ReadTemperature`: fails (-99.0) when the forced measurement
    * does not finish in time or the channel reads 0x800000 (skipped);
    * otherwise updates `t_fine` from the 20-bit value. */
  function ReadTemp(c: Calib, mode: byte, tFine: int, s: Sample): (r: Reading)
    requires WellFormed(s)
    ensures (mode == ModeForced && !s.measured) || Read24(s.regs, RegTempData) == 0x80_0000
            ==> r == Reading(TempFailed, tFine)
    ensures !((mode == ModeForced && !s.measured) || Read24(s.regs, RegTempData) == 0x80_0000)
            ==> r.tFine == TFine(c, Read24(s.regs, RegTempData) / 16) && r.value == CentiCelsius(r.tFine)
  {
    if mode == ModeForced && !s.measured then Reading(TempFailed, tFine)
    else
      var adc := Read24(s.regs, RegTempData);
      if adc == 0x80_0000 then Reading(TempFailed, tFine)
      else
        var tf := TFine(c, adc / 16);
        Reading(CentiCelsius(tf), tf)
  }

  /** `BME280_ReadPressure`: 0 when its own temperature read returns -99.0. */
  function ReadPress(c: Calib, mode: byte, tFine: int, s: Sample): (r: Reading)
    requires WellFormed(s)
    ensures r.tFine == ReadTemp(c, mode, tFine, s).tFine
    ensures ReadTemp(c, mode, tFine, s).value == TempFailed ==> r.value == 0
  {
    var t := ReadTemp(c, mode, tFine, s);
    if t.value == TempFailed then Reading(0, t.tFine)
    else Reading(PressurePa(c, t.tFine, Read24(s.regs, RegPressureData) / 16), t.tFine)
  }

  /** `BME280_ReadHumidity`: -99.0 when its temperature read fails or the
    * channel reads 0x8000 (skipped); otherwise between 0 and 100 %RH. */
  function ReadHum(c: Calib, mode: byte, tFine: int, s: Sample): (r: Reading)
    requires WellFormed(s)
    ensures r.tFine == ReadTemp(c, mode, tFine, s).tFine
    ensures r.value == HumidityFailed
            <==> ReadTemp(c, mode, tFine, s).value == TempFailed || Read16(s.regs, RegHumidData) == 0x8000
    ensures r.value != HumidityFailed ==> 0 <= r.value <= 102400
  {
    var t := ReadTemp(c, mode, tFine, s);
    if t.value == TempFailed then Reading(HumidityFailed, t.tFine)
    else
      var adc := Read16(s.regs, RegHumidData);
      if adc == 0x8000 then Reading(HumidityFailed, t.tFine)
      else Reading(HumidityQ10(c, t.tFine, adc), t.tFine)
  }

  /** The writes `BME280_Init` makes once the chip answers: soft reset,
    * ctrl_hum, ctrl_meas (forced mode written as sleep), and the config
    * register in normal mode only. */
  function InitWrites(t: byte, p: byte, h: byte, mode: byte, humNow: byte): (w: seq<Write>)
    requires t <= Temperature20Bit && p <= PressureUltraHighRes && mode <= ModeNormal
  {
    var wire := if mode == ModeForced then ModeSleep else mode;
    [Write(RegSoftReset, SoftResetWord), Write(RegHumControl, HumCtrlByte(humNow, h)),
     Write(RegControl, CtrlMeasByte(t, p, wire))]
    + (if mode == ModeNormal then [Write(RegConfig, ConfigByte(Standby0_5Ms, FilterOff))] else [])
  }

  /** Initialisation never writes the `BME280_FORCEDMODE` code 1 to
    * ctrl_meas (it writes sleep instead); every other mode code that passes
    * the clamp, 2 included, is written as asked. It keeps the requested
    * oversampling and sets the config register exactly when it starts
    * normal mode. */
  lemma InitWritesMode(t: byte, p: byte, h: byte, mode: byte, humNow: byte)
    requires t <= Temperature20Bit && p <= PressureUltraHighRes && mode <= ModeNormal
    ensures var w := InitWrites(t, p, h, mode, humNow);
      w[2].reg == RegControl && w[2].value % 4 != ModeForced
      && (mode != ModeForced ==> w[2].value % 4 == mode)
      && (w[2].value % 4 == ModeNormal <==> mode == ModeNormal)
      && w[2].value / 32 == t && w[2].value / 4 % 8 == p
      && w[1].value % 8 == h % 8
      && (|w| == 4 <==> mode == ModeNormal)
  {
  }

  /** The driver's globals: calibration, `t_fine`, the requested mode and
    * oversampling, and the register writes made so far. */
  class Bme280 {
    var calib: Calib
    var tFine: int
    var mode: byte
    var tempRes: byte
    var pressOs: byte
    var humOs: byte
    ghost var writes: seq<Write>

    /** The zero-initialised globals. */
    constructor ()
      ensures calib == Calib(0, 0, 0, 0, 0, 0, 0, 0, 0, 0, 0, 0, 0, 0, 0, 0, 0, 0)
      ensures tFine == 0 && mode == 0 && tempRes == 0 && pressOs == 0 && humOs == 0 && writes == []
    {
      calib := Calib(0, 0, 0, 0, 0, 0, 0, 0, 0, 0, 0, 0, 0, 0, 0, 0, 0, 0);
      tFine, mode, tempRes, pressOs, humOs := 0, 0, 0, 0, 0;
      writes := [];
    }

    /** `BME280_Init` over SPI. `busReady` says the SPI handle and the CS
      * port are set; `chipFound` whether the chip-id poll read 0x60 in
      * time; `regs` the registers after the reset. */
    method Init(busReady: bool, t: byte, p: byte, h: byte, m: byte, chipFound: bool, regs: seq<byte>)
      returns (ok: bool)
      requires |regs| == 0x100
      modifies this
      ensures ok <==> busReady && chipFound
      ensures !busReady ==> unchanged(this)
      ensures busReady ==> mode == Clamp(m, ModeNormal) && tempRes == Clamp(t, Temperature20Bit)
                           && pressOs == Clamp(p, PressureUltraHighRes) && humOs == Clamp(h, HumidityUltraHigh)
      ensures busReady && !chipFound ==> calib == old(calib) && writes == old(writes)
      ensures ok ==> calib == ReadCalib(regs)
                     && writes == old(writes) + InitWrites(tempRes, pressOs, humOs, mode, regs[RegHumControl])
      ensures tFine == old(tFine)
    {
      if !busReady {
        return false;
      }
      mode := Clamp(m, ModeNormal);
      var wire := if mode == ModeForced then ModeSleep else mode;
      tempRes := Clamp(t, Temperature20Bit);
      pressOs := Clamp(p, PressureUltraHighRes);
      humOs := Clamp(h, HumidityUltraHigh);
      if !chipFound {
        return false;
      }
      writes := writes + [Write(RegSoftReset, SoftResetWord)];
      calib := ReadCalib(regs);
      writes := writes + [Write(RegHumControl, HumCtrlByte(regs[RegHumControl], humOs))];
      writes := writes + [Write(RegControl, CtrlMeasByte(tempRes, pressOs, wire))];
      if mode == ModeNormal {
        writes := writes + [Write(RegConfig, ConfigByte(Standby0_5Ms, FilterOff))];
      }
      ok := true;
    }

    /** `BME280_SetConfig`. */
    method SetConfig(standby: byte, filter: byte)
      modifies this`writes
      ensures writes == old(writes) + [Write(RegConfig, ConfigByte(standby, filter))]
    {
      writes := writes + [Write(RegConfig, ConfigByte(standby, filter))];
    }

    /** `BME280_ReadTemperature`, in hundredths of a degree. */
    method ReadTemperature(s: Sample) returns (t: int)
      requires WellFormed(s)
      modifies this`tFine, this`writes
      ensures var r := ReadTemp(calib, mode, old(tFine), s);
        t == r.value && tFine == r.tFine && writes == old(writes) + TriggerWrites(mode, s)
    {
      if mode == ModeForced {
        var ctrl := ForceByte(s.regs[RegControl]);
        writes := writes + [Write(RegControl, ctrl)];
        if !s.measured {
          return TempFailed;
        }
      }
      var adc := Read24(s.regs, RegTempData);
      if adc == 0x80_0000 {
        return TempFailed;
      }
      tFine := TFine(calib, adc / 16);
      t := CentiCelsius(tFine);
    }

    /** `BME280_ReadPressure`, in Pa. */
    method ReadPressure(s: Sample) returns (pa: int)
      requires WellFormed(s)
      modifies this`tFine, this`writes
      ensures var r := ReadPress(calib, mode, old(tFine), s);
        pa == r.value && tFine == r.tFine && writes == old(writes) + TriggerWrites(mode, s)
    {
      var t := ReadTemperature(s);
      if t == TempFailed {
        return 0;
      }
      pa := PressurePa(calib, tFine, Read24(s.regs, RegPressureData) / 16);
    }

    /** `BME280_ReadHumidity`, in 1/1024 %RH. */
    method ReadHumidity(s: Sample) returns (rh: int)
      requires WellFormed(s)
      modifies this`tFine, this`writes
      ensures var r := ReadHum(calib, mode, old(tFine), s);
        rh == r.value && tFine == r.tFine && writes == old(writes) + TriggerWrites(mode, s)
    {
      var t := ReadTemperature(s);
      if t == TempFailed {
        return HumidityFailed;
      }
      var adc := Read16(s.regs, RegHumidData);
      if adc == 0x8000 {
        return HumidityFailed;
      }
      rh := HumidityQ10(calib, tFine, adc);
    }

    /** `BME280_ReadTemperatureAndPressureAndHumidity`. `outputs` says the
      * three output pointers are non-null; each reading takes its own
      * sample. An output is `Some` when it was written: the outputs are
      * written in order up to the first failing reading, and the status is
      * 0 exactly when all three were. */
    method ReadAll(outputs: bool, s1: Sample, s2: Sample, s3: Sample)
      returns (status: byte, t: Option<int>, pa: Option<int>, rh: Option<int>)
      requires WellFormed(s1) && WellFormed(s2) && WellFormed(s3)
      modifies this`tFine, this`writes
      ensures status == 0 || status == 0xFF
      ensures status == 0 <==> rh.Some?
      ensures rh.Some? ==> pa.Some?
      ensures pa.Some? ==> t.Some?
      ensures t.Some? ==> outputs
      ensures var r1 := ReadTemp(calib, mode, old(tFine), s1);
        var r2 := ReadPress(calib, mode, r1.tFine, s2);
        var r3 := ReadHum(calib, mode, r2.tFine, s3);
        && (t.Some? <==> outputs && r1.value != TempFailed)
        && (t.Some? ==> t.value == r1.value)
        && (pa.Some? <==> t.Some? && r2.value != 0)
        && (pa.Some? ==> pa.value == r2.value)
        && (rh.Some? <==> pa.Some? && r3.value != HumidityFailed)
        && (rh.Some? ==> rh.value == r3.value)
        && tFine == (if !outputs then old(tFine) else if t.None? then r1.tFine else if pa.None? then r2.tFine else r3.tFine)
        && writes == old(writes) + (if outputs then TriggerWrites(mode, s1) else [])
                     + (if t.Some? then TriggerWrites(mode, s2) else []) + (if pa.Some? then TriggerWrites(mode, s3) else [])
    {
      t, pa, rh := None, None, None;
      if !outputs {
        return 0xFF, t, pa, rh;
      }
      var t0 := ReadTemperature(s1);
      if t0 == TempFailed {
        return 0xFF, t, pa, rh;
      }
      t := Some(t0);
      var p0 := ReadPressure(s2);
      if p0 == 0 {
        return 0xFF, t, pa, rh;
      }
      pa := Some(p0);
      var h0 := ReadHumidity(s3);
      if h0 == HumidityFailed {
        return 0xFF, t, pa, rh;
      }
      rh := Some(h0);
      status := 0;
    }
  }
}
