/** The Waveshare 3.7" e-paper driver: the panel command sequences, the LUT
  * cache, the 4-gray plane packing, the partial-window encoding and the
  * DMA variants that queue descriptors on the older SPI bus manager.
  *
  * A blocking operation is written as its list of steps (`Op`); `Exec`
  * plays the steps against the panel state and an oracle `io` that answers
  * each SPI transmit and each BUSY wait in order (true = success; an
  * exhausted oracle answers success). The wire is the ghost record of what
  * the driver put on the pins and the bus. */
module EpdDriver {
  import opened Common
  import SpiBusTypes
  import SpiBusApp
  import opened EpdPack

  const Width: nat := 280
  const Height: nat := 480
  const BusyTimeoutMs: nat := 12000
  /** `EPD3IN7_WIDTH * EPD3IN7_HEIGHT / 8`, the bytes of a 1-bit frame. */
  const FrameBytes: nat := 16800

  // Panel command codes.
  const CmdGateSetting: byte := 0x01
  const CmdPowerOff: byte := 0x02
  const CmdGateVoltage: byte := 0x03
  const CmdGateVoltageSource: byte := 0x04
  const CmdSleep2: byte := 0x07
  const CmdBoosterSoftStart: byte := 0x0C
  const CmdDataEntrySequence: byte := 0x11
  const CmdSwReset: byte := 0x12
  const CmdTempSensorSelection: byte := 0x18
  const CmdDisplayUpdate: byte := 0x20
  const CmdDisplayUpdateSetting: byte := 0x22
  const CmdWriteRam: byte := 0x24
  const CmdWriteRam2: byte := 0x26
  const CmdWriteVcom: byte := 0x2C
  const CmdWriteLut: byte := 0x32
  const CmdDisplayOption: byte := 0x37
  const CmdBorderWaveform: byte := 0x3C
  const CmdRamXStartEnd: byte := 0x44
  const CmdRamYStartEnd: byte := 0x45
  const CmdAutoWriteRed: byte := 0x46
  const CmdAutoWriteBw: byte := 0x47
  const CmdUnknown49: byte := 0x49
  const CmdRamXCounter: byte := 0x4E
  const CmdRamYCounter: byte := 0x4F
  const CmdSleep: byte := 0x50
  /** The deep-sleep path sends the value of `EPD3IN7_DRIVER_SLEEP_DEEP` (0)
    * as its command byte, not the panel's deep-sleep command 0x10. */
  const SleepDeepCode: byte := 0x00

  datatype Status = Ok | ErrHal | ErrTimeout | ErrParam | SpiBusErr

  function StatusCode(s: Status): (c: int)
    ensures s == Ok <==> c == 0
    ensures -4 <= c <= 0
  {
    match s
    case Ok => 0
    case ErrHal => -1
    case ErrTimeout => -2
    case ErrParam => -3
    case SpiBusErr => -4
  }

  /** `epd3in7_driver_mode`; `ModeOther` is any other value of the enum type. */
  datatype Mode = ModeGc | ModeDu | ModeA2 | ModeOther(code: int)

  /** `epd3in7_driver_lut_type`; `LutOther` is any other value. */
  datatype Lut = Lut4GrayGc | Lut1GrayGc | Lut1GrayDu | Lut1GrayA2 | LutOther(code: int)

  datatype SleepMode = SleepDeep | SleepNormal

  /** `epd3in7_driver_mode_to_lut`. */
  function ModeToLut(mode: Mode, is1Color: bool): (r: Lut)
    ensures !is1Color ==> r == Lut4GrayGc
    ensures is1Color ==> r != Lut4GrayGc && LutTable(r).Some?
  {
    if is1Color then
      match mode
      case ModeGc => Lut1GrayGc
      case ModeDu => Lut1GrayDu
      case ModeA2 => Lut1GrayA2
      case ModeOther(_) => Lut1GrayGc
    else Lut4GrayGc
  }

  /** The refresh mode each 1-bit table serves. */
  function LutMode(l: Lut): Mode
  {
    match l
    case Lut1GrayDu => ModeDu
    case Lut1GrayA2 => ModeA2
    case _ => ModeGc
  }

  /** Each 1-bit refresh mode has its own table: the mapping is undone by
    * `LutMode`, and an unknown mode falls back to the GC table. */
  lemma ModeToLutInverse(l: Lut, m: Mode)
    requires l == Lut1GrayGc || l == Lut1GrayDu || l == Lut1GrayA2
    ensures ModeToLut(LutMode(l), true) == l
    ensures m.ModeOther? ==> ModeToLut(m, true) == ModeToLut(ModeGc, true)
    ensures ModeToLut(m, true) == l <==> LutMode(l) == (if m.ModeOther? then ModeGc else m)
  {
  }

  const Lut4GrayGcTable: seq<byte> := [
      0x2A, 0x06, 0x15, 0x00, 0x00, 0x00, 0x00, 0x00, 0x00, 0x00,
      0x28, 0x06, 0x14, 0x00, 0x00, 0x00, 0x00, 0x00, 0x00, 0x00,
      0x20, 0x06, 0x10, 0x00, 0x00, 0x00, 0x00, 0x00, 0x00, 0x00,
      0x14, 0x06, 0x28, 0x00, 0x00, 0x00, 0x00, 0x00, 0x00, 0x00,
      0x00, 0x00, 0x00, 0x00, 0x00, 0x00, 0x00, 0x00, 0x00, 0x00,
      0x00, 0x02, 0x02, 0x0A, 0x00, 0x00, 0x00, 0x08, 0x08, 0x02,
      0x00, 0x02, 0x02, 0x0A, 0x00, 0x00, 0x00, 0x00, 0x00, 0x00,
      0x00, 0x00, 0x00, 0x00, 0x00, 0x00, 0x00, 0x00, 0x00, 0x00,
      0x00, 0x00, 0x00, 0x00, 0x00, 0x00, 0x00, 0x00, 0x00, 0x00,
      0x00, 0x00, 0x00, 0x00, 0x00, 0x00, 0x00, 0x00, 0x00, 0x00,
      0x22, 0x22, 0x22, 0x22, 0x22]

  const Lut1GrayGcTable: seq<byte> := [
      0x2A, 0x05, 0x00, 0x00, 0x00, 0x00, 0x00, 0x00, 0x00, 0x00,
      0x05, 0x2A, 0x00, 0x00, 0x00, 0x00, 0x00, 0x00, 0x00, 0x00,
      0x2A, 0x15, 0x00, 0x00, 0x00, 0x00, 0x00, 0x00, 0x00, 0x00,
      0x05, 0x0A, 0x00, 0x00, 0x00, 0x00, 0x00, 0x00, 0x00, 0x00,
      0x00, 0x00, 0x00, 0x00, 0x00, 0x00, 0x00, 0x00, 0x00, 0x00,
      0x00, 0x02, 0x03, 0x0A, 0x00, 0x02, 0x06, 0x0A, 0x05, 0x00,
      0x00, 0x00, 0x00, 0x00, 0x00, 0x00, 0x00, 0x00, 0x00, 0x00,
      0x00, 0x00, 0x00, 0x00, 0x00, 0x00, 0x00, 0x00, 0x00, 0x00,
      0x00, 0x00, 0x00, 0x00, 0x00, 0x00, 0x00, 0x00, 0x00, 0x00,
      0x00, 0x00, 0x00, 0x00, 0x00, 0x00, 0x00, 0x00, 0x00, 0x00,
      0x22, 0x22, 0x22, 0x22, 0x22]

  const Lut1GrayDuTable: seq<byte> := [
      0x00, 0x00, 0x00, 0x00, 0x00, 0x00, 0x00, 0x00, 0x00, 0x00,
      0x01, 0x2A, 0x00, 0x00, 0x00, 0x00, 0x00, 0x00, 0x00, 0x00,
      0x0A, 0x55, 0x00, 0x00, 0x00, 0x00, 0x00, 0x00, 0x00, 0x00,
      0x00, 0x00, 0x00, 0x00, 0x00, 0x00, 0x00, 0x00, 0x00, 0x00,
      0x00, 0x00, 0x00, 0x00, 0x00, 0x00, 0x00, 0x00, 0x00, 0x00,
      0x00, 0x00, 0x05, 0x05, 0x00, 0x05, 0x03, 0x05, 0x05, 0x00,
      0x00, 0x00, 0x00, 0x00, 0x00, 0x00, 0x00, 0x00, 0x00, 0x00,
      0x00, 0x00, 0x00, 0x00, 0x00, 0x00, 0x00, 0x00, 0x00, 0x00,
      0x00, 0x00, 0x00, 0x00, 0x00, 0x00, 0x00, 0x00, 0x00, 0x00,
      0x00, 0x00, 0x00, 0x00, 0x00, 0x00, 0x00, 0x00, 0x00, 0x00,
      0x22, 0x22, 0x22, 0x22, 0x22]

  const Lut1GrayA2Table: seq<byte> := [
      0x00, 0x00, 0x00, 0x00, 0x00, 0x00, 0x00, 0x00, 0x00, 0x00,
      0x0A, 0x00, 0x00, 0x00, 0x00, 0x00, 0x00, 0x00, 0x00, 0x00,
      0x05, 0x00, 0x00, 0x00, 0x00, 0x00, 0x00, 0x00, 0x00, 0x00,
      0x00, 0x00, 0x00, 0x00, 0x00, 0x00, 0x00, 0x00, 0x00, 0x00,
      0x00, 0x00, 0x00, 0x00, 0x00, 0x00, 0x00, 0x00, 0x00, 0x00,
      0x00, 0x00, 0x03, 0x05, 0x00, 0x00, 0x00, 0x00, 0x00, 0x00,
      0x00, 0x00, 0x00, 0x00, 0x00, 0x00, 0x00, 0x00, 0x00, 0x00,
      0x00, 0x00, 0x00, 0x00, 0x00, 0x00, 0x00, 0x00, 0x00, 0x00,
      0x00, 0x00, 0x00, 0x00, 0x00, 0x00, 0x00, 0x00, 0x00, 0x00,
      0x00, 0x00, 0x00, 0x00, 0x00, 0x00, 0x00, 0x00, 0x00, 0x00,
      0x22, 0x22, 0x22, 0x22, 0x22]

  /** The table `load_lut` and `enqueue_lut` pick for a LUT; none for an
    * unknown value. Every table is 105 bytes and ends in five 0x22. */
  function LutTable(l: Lut): (r: Option<seq<byte>>)
    ensures r.Some? <==> !l.LutOther?
    ensures r.Some? ==> |r.value| == 105 && r.value[100..] == [0x22, 0x22, 0x22, 0x22, 0x22]
  {
    match l
    case Lut4GrayGc => Some(Lut4GrayGcTable)
    case Lut1GrayGc => Some(Lut1GrayGcTable)
    case Lut1GrayDu => Some(Lut1GrayDuTable)
    case Lut1GrayA2 => Some(Lut1GrayA2Table)
    case LutOther(_) => None
  }

  // ---------------------------------------------------------------------
  // The blocking transport.

  /** What the driver does to the outside world. `Tx` is one blocking SPI
    * transmit, after DC was driven low (`dcHigh` false, a command) or high
    * (data). */
  datatype Wire = CsWrite(low: bool) | Tx(dcHigh: bool, bytes: seq<byte>) | ResetPulse | BusyPoll

  /** The handle fields the sequences read and write: the LUT cache
    * (`last_lut` when `last_lut_has_value`) and the tracked CS level
    * (`is_cs_low` when `is_cs_low_has_value`). */
  datatype Panel = Panel(cache: Option<Lut>, csLow: Option<bool>)

  /** One step of a blocking sequence. `Begin`/`End` are
    * `epd3in7_driver_send_begin`/`_end`; `Command` is `send_command`; `Data`
    * is `send_data` (one byte) or `send_data_many`; `WaitIdle` is
    * `busy_wait_for_idle`; `HwReset` is `epd3in7_driver_reset`; `Load` is
    * `load_lut`. */
  datatype Op = Begin | End | Command(c: byte) | Data(bytes: seq<byte>) | WaitIdle | HwReset | Load(lut: Lut)

  function Answer(io: seq<bool>): bool
  {
    io == [] || io[0]
  }

  function Next(io: seq<bool>): seq<bool>
  {
    if io == [] then [] else io[1..]
  }

  datatype StepResult = StepResult(err: Option<Status>, panel: Panel, wire: seq<Wire>, io: seq<bool>)

  /** `epd3in7_driver_load_lut`. */
  function LoadLut(lut: Lut, p: Panel, io: seq<bool>): StepResult
  {
    if p.cache == Some(lut) then StepResult(None, p, [], io)
    else if p.csLow != Some(true) then StepResult(Some(ErrParam), p, [], io)
    else if !Answer(io) then StepResult(Some(ErrHal), p, [Tx(false, [CmdWriteLut])], Next(io))
    else
      var io1 := Next(io);
      match LutTable(lut)
      case None => StepResult(None, p.(cache := Some(lut)), [Tx(false, [CmdWriteLut])], io1)
      case Some(tbl) =>
        if !Answer(io1) then StepResult(Some(ErrHal), p, [Tx(false, [CmdWriteLut]), Tx(true, tbl)], Next(io1))
        else StepResult(None, p.(cache := Some(lut)), [Tx(false, [CmdWriteLut]), Tx(true, tbl)], Next(io1))
  }

  /** The LUT cache: a hit is answered OK without traffic even with CS high;
    * a miss needs CS known low, else ERR_PARAM without traffic; a miss sends
    * command 0x32 and the 105 table bytes and records the LUT; a HAL failure
    * leaves the cache as it was. The CS state is never changed. */
  lemma LoadLutOutcome(lut: Lut, p: Panel, io: seq<bool>)
    ensures var r := LoadLut(lut, p, io);
      && r.panel.csLow == p.csLow
      && (p.cache == Some(lut) ==> r == StepResult(None, p, [], io))
      && (p.cache != Some(lut) && p.csLow != Some(true) ==> r.err == Some(ErrParam) && r.wire == [] && r.panel == p)
      && (r.err.None? ==> r.panel.cache == Some(lut))
      && (r.err.Some? ==> r.panel == p)
      && (r.err == Some(ErrHal) ==> r.wire != [] && r.wire[0] == Tx(false, [CmdWriteLut]))
      && (r.err.None? && p.cache != Some(lut) && LutTable(lut).Some? ==>
            r.wire == [Tx(false, [CmdWriteLut]), Tx(true, LutTable(lut).value)] && |r.wire[1].bytes| == 105)
  {
  }

  function StepOp(op: Op, p: Panel, io: seq<bool>): StepResult
  {
    match op
    case Begin => StepResult(None, p.(csLow := Some(true)), [CsWrite(true)], io)
    case End => StepResult(None, p.(csLow := Some(false)), [CsWrite(false)], io)
    case Command(c) => StepResult(if Answer(io) then None else Some(ErrHal), p, [Tx(false, [c])], Next(io))
    case Data(bs) => StepResult(if Answer(io) then None else Some(ErrHal), p, [Tx(true, bs)], Next(io))
    case WaitIdle => StepResult(if Answer(io) then None else Some(ErrTimeout), p, [BusyPoll], Next(io))
    case HwReset => StepResult(None, p, [ResetPulse], io)
    case Load(lut) => LoadLut(lut, p, io)
  }

  /** `done` steps completed; `err` is the status of the step that failed. */
  datatype ExecResult = ExecResult(done: nat, err: Option<Status>, panel: Panel, wire: seq<Wire>, io: seq<bool>)

  /** The `EPD3IN7_DRIVER_TRY` chain: steps run in order up to the first
    * failure. */
  function Exec(ops: seq<Op>, p: Panel, io: seq<bool>): (r: ExecResult)
    ensures r.done <= |ops|
    ensures r.err.None? <==> r.done == |ops|
    ensures r.err != Some(Ok)
    decreases |ops|
  {
    if ops == [] then ExecResult(0, None, p, [], io)
    else
      var s := StepOp(ops[0], p, io);
      if s.err.Some? then ExecResult(0, s.err, s.panel, s.wire, s.io)
      else
        var r := Exec(ops[1..], s.panel, s.io);
        ExecResult(r.done + 1, r.err, r.panel, s.wire + r.wire, r.io)
  }

  predicate NoLoad(ops: seq<Op>)
  {
    forall i :: 0 <= i < |ops| ==> !ops[i].Load?
  }

  /** A sequence without a LUT load never changes the LUT cache. */
  lemma {:induction false} ExecNoLoadKeepsCache(ops: seq<Op>, p: Panel, io: seq<bool>)
    requires NoLoad(ops)
    ensures Exec(ops, p, io).panel.cache == p.cache
    decreases |ops|
  {
    if ops != [] {
      assert !ops[0].Load?;
      var s := StepOp(ops[0], p, io);
      if s.err.None? {
        assert NoLoad(ops[1..]) by {
          forall i | 0 <= i < |ops[1..]| ensures !ops[1..][i].Load? {
            assert ops[1..][i] == ops[i + 1];
          }
        }
        ExecNoLoadKeepsCache(ops[1..], s.panel, s.io);
      }
    }
  }

  /** The steps after the first failure never reach the wire: running a
    * sequence that fails at step k puts exactly what its first k steps and
    * the failing step produce on the wire. */
  lemma {:induction false} ExecPrefix(ops: seq<Op>, more: seq<Op>, p: Panel, io: seq<bool>)
    requires Exec(ops, p, io).err.Some?
    ensures Exec(ops + more, p, io) == Exec(ops, p, io)
    decreases |ops|
  {
    assert (ops + more)[0] == ops[0];
    var s := StepOp(ops[0], p, io);
    if s.err.None? {
      assert (ops + more)[1..] == ops[1..] + more;
      ExecPrefix(ops[1..], more, s.panel, s.io);
    }
  }

  /** A blocking driver call: the steps, then `send_end` on every path. */
  datatype Outcome = Outcome(status: Status, exec: ExecResult, panel: Panel, wire: seq<Wire>, io: seq<bool>)

  function Blocking(ops: seq<Op>, p: Panel, io: seq<bool>): (o: Outcome)
    ensures o.panel.csLow == Some(false)
    ensures o.wire != [] && o.wire[|o.wire| - 1] == CsWrite(false)
    ensures o.status == Ok <==> o.exec.err.None?
  {
    var r := Exec(ops, p, io);
    Outcome(if r.err.None? then Ok else r.err.value, r, r.panel.(csLow := Some(false)), r.wire + [CsWrite(false)], r.io)
  }

  // ---------------------------------------------------------------------
  // The blocking sequences.

  /** `epd3in7_driver_sleep`, before the final `send_end`. */
  function SleepOps(mode: SleepMode): seq<Op>
  {
    if mode == SleepDeep then [Begin, Command(SleepDeepCode), Data([0x03])]
    else [Begin, Command(CmdSleep), Data([0xF7]), Command(CmdPowerOff), Command(CmdSleep2), Data([0xA5])]
  }

  /** The transmits of the two sleep paths: deep sleep puts command byte
    * 0x00 (not 0x10) and data 0x03 on the wire; the normal path sends
    * SLEEP 0xF7, POWEROFF, SLEEP2 0xA5. */
  function SleepTransmits(mode: SleepMode): seq<Wire>
  {
    if mode == SleepDeep then [Tx(false, [0x00]), Tx(true, [0x03])]
    else [Tx(false, [0x50]), Tx(true, [0xF7]), Tx(false, [0x02]), Tx(false, [0x07]), Tx(true, [0xA5])]
  }

  predicate AllAnswered(io: seq<bool>)
  {
    forall i :: 0 <= i < |io| ==> io[i]
  }

  /** A run of commands and data bytes, with no pin, BUSY or LUT step. */
  predicate Transmits(ops: seq<Op>)
  {
    forall i :: 0 <= i < |ops| ==> ops[i].Command? || ops[i].Data?
  }

  /** What a run of transmits puts on the wire: one `Tx` per step, DC high
    * for data. */
  function TxWire(ops: seq<Op>): (w: seq<Wire>)
    requires Transmits(ops)
    ensures |w| == |ops|
  {
    if ops == [] then []
    else [if ops[0].Command? then Tx(false, [ops[0].c]) else Tx(true, ops[0].bytes)] + TxWire(ops[1..])
  }

  /** When the HAL answers every transfer, a run of transmits completes,
    * leaves the panel state alone and puts exactly `TxWire` on the wire. */
  lemma {:induction false} ExecTransmits(ops: seq<Op>, p: Panel, io: seq<bool>)
    requires Transmits(ops) && AllAnswered(io)
    ensures var r := Exec(ops, p, io);
      r.err.None? && r.panel == p && r.wire == TxWire(ops) && AllAnswered(r.io)
    decreases |ops|
  {
    if ops != [] {
      assert ops[0].Command? || ops[0].Data?;
      var s := StepOp(ops[0], p, io);
      assert AllAnswered(s.io) by {
        if io != [] {
          forall i | 0 <= i < |s.io| ensures s.io[i] {
            assert s.io[i] == io[i + 1];
          }
        }
      }
      assert Transmits(ops[1..]) by {
        forall i | 0 <= i < |ops[1..]| ensures ops[1..][i].Command? || ops[1..][i].Data? {
          assert ops[1..][i] == ops[i + 1];
        }
      }
      ExecTransmits(ops[1..], s.panel, s.io);
    }
  }

  /** A sequence opened by `send_begin` and made of transmits: CS goes low
    * first, then the transmits, then `send_end`; the result is OK. */
  lemma FramedTransmits(ops: seq<Op>, p: Panel, io: seq<bool>)
    requires ops != [] && ops[0] == Begin && Transmits(ops[1..]) && AllAnswered(io)
    ensures Blocking(ops, p, io).wire == [CsWrite(true)] + TxWire(ops[1..]) + [CsWrite(false)]
    ensures Blocking(ops, p, io).status == Ok
  {
    ExecTransmits(ops[1..], p.(csLow := Some(true)), io);
  }

  /** With every transfer answered, deep sleep frames command 0x00 and data
    * 0x03 between CS low and CS high, and reports OK. */
  lemma SleepDeepWire(io: seq<bool>, p: Panel)
    requires AllAnswered(io)
    ensures Blocking(SleepOps(SleepDeep), p, io).wire == [CsWrite(true)] + SleepTransmits(SleepDeep) + [CsWrite(false)]
    ensures Blocking(SleepOps(SleepDeep), p, io).status == Ok
  {
    var ops := SleepOps(SleepDeep);
    assert ops[1..] == [Command(SleepDeepCode), Data([0x03])];
    FramedTransmits(ops, p, io);
    assert TxWire(ops[1..][1..]) == [Tx(true, [0x03])];
  }

  /** With every transfer answered, the normal path frames SLEEP 0xF7,
    * POWEROFF, SLEEP2 0xA5 between CS low and CS high, and reports OK. */
  lemma SleepNormalWire(io: seq<bool>, p: Panel)
    requires AllAnswered(io)
    ensures Blocking(SleepOps(SleepNormal), p, io).wire == [CsWrite(true)] + SleepTransmits(SleepNormal) + [CsWrite(false)]
    ensures Blocking(SleepOps(SleepNormal), p, io).status == Ok
  {
    var ops := SleepOps(SleepNormal);
    var t := ops[1..];
    assert t == [Command(CmdSleep), Data([0xF7]), Command(CmdPowerOff), Command(CmdSleep2), Data([0xA5])];
    FramedTransmits(ops, p, io);
    assert t[1..][1..][1..][1..] == [Data([0xA5])];
  }

  /** The configuration both init sequences send after the RAM patterns;
    * they differ only in the DISPLAY_OPTION bytes. */
  function InitConfig(displayOption: seq<byte>): seq<Op>
  {
    [ Command(CmdGateSetting), Data([0xDF, 0x01, 0x00]),
      Command(CmdGateVoltage), Data([0x00]),
      Command(CmdGateVoltageSource), Data([0x41, 0xA8, 0x32]),
      Command(CmdDataEntrySequence), Data([0x03]),
      Command(CmdBorderWaveform), Data([0x03]),
      Command(CmdBoosterSoftStart), Data([0xAE, 0xC7, 0xC3, 0xC0, 0xC0]),
      Command(CmdTempSensorSelection), Data([0x80]),
      Command(CmdWriteVcom), Data([0x44]),
      Command(CmdDisplayOption), Data(displayOption),
      Command(CmdRamXStartEnd), Data([0x00, 0x00, 0x17, 0x01]),
      Command(CmdRamYStartEnd), Data([0x00, 0x00, 0xDF, 0x01]),
      Command(CmdDisplayUpdateSetting), Data([0xCF]) ]
  }

  const RamPatterns: seq<Op> := [
    Command(CmdAutoWriteRed), Data([0xF7]), WaitIdle,
    Command(CmdAutoWriteBw), Data([0xF7]), WaitIdle]

  /** `epd3in7_driver_init_4_gray`: BUSY wait before the reset pulse. */
  function Init4GrayOps(): seq<Op>
  {
    [WaitIdle, HwReset, Begin, Command(CmdSwReset)] + RamPatterns + InitConfig(seq(10, _ => 0x00))
  }

  /** `epd3in7_driver_init_1_gray`: reset pulse before the BUSY wait. */
  function Init1GrayOps(): seq<Op>
  {
    [HwReset, WaitIdle, Begin, Command(CmdSwReset)] + RamPatterns +
    InitConfig([0x00, 0xFF, 0xFF, 0xFF, 0xFF, 0x4F, 0xFF, 0xFF, 0xFF, 0xFF])
  }

  /** The steps of `init_4_gray` that use `EPD3IN7_DRIVER_TRY`; later
    * failures jump to `fail` with `err` still OK. */
  const Init4GrayChecked: nat := 4

  lemma InitOpsNoLoad()
    ensures NoLoad(Init4GrayOps()) && NoLoad(Init1GrayOps())
    ensures |Init4GrayOps()| == |Init1GrayOps()| == 34
  {
    var a := [WaitIdle, HwReset, Begin, Command(CmdSwReset)] + RamPatterns;
    var b := [HwReset, WaitIdle, Begin, Command(CmdSwReset)] + RamPatterns;
    var c := InitConfig(seq(10, _ => 0x00));
    var d := InitConfig([0x00, 0xFF, 0xFF, 0xFF, 0xFF, 0x4F, 0xFF, 0xFF, 0xFF, 0xFF]);
    assert NoLoad(a) && NoLoad(b) && NoLoad(c) && NoLoad(d);
    assert forall i :: 0 <= i < |a + c| ==> (a + c)[i] == (if i < |a| then a[i] else c[i - |a|]);
    assert forall i :: 0 <= i < |b + d| ==> (b + d)[i] == (if i < |b| then b[i] else d[i - |b|]);
  }

  /** `init_4_gray`: the status and the new panel state. The cache is
    * invalidated only when every step succeeded; a failure after the SW
    * reset is still reported as OK. */
  function Init4GrayRun(p: Panel, io: seq<bool>): (Status, Outcome)
  {
    var o := Blocking(Init4GrayOps(), p, io);
    if o.exec.err.None? then (Ok, o.(panel := o.panel.(cache := None)))
    else if o.exec.done < Init4GrayChecked then (o.status, o)
    else (Ok, o)
  }

  /** `init_1_gray`: every failure is reported; the cache is invalidated
    * only on success. */
  function Init1GrayRun(p: Panel, io: seq<bool>): Outcome
  {
    var o := Blocking(Init1GrayOps(), p, io);
    if o.exec.err.None? then o.(panel := o.panel.(cache := None)) else o
  }

  /** init_1_gray: OK exactly when every step succeeded, and then the cache
    * is invalid; on failure the cache is the one before the call. init_4_gray
    * invalidates the cache under the same condition, but reports an error
    * only for a failure of the BUSY wait or of the SW reset command;
    * otherwise it reports OK. */
  lemma InitCache(p: Panel, io: seq<bool>)
    ensures var o := Init1GrayRun(p, io);
      && (o.status == Ok <==> o.exec.err.None?)
      && o.panel.cache == (if o.exec.err.None? then None else p.cache)
      && o.panel.csLow == Some(false)
    ensures var (st, o) := Init4GrayRun(p, io);
      && o.panel.cache == (if o.exec.err.None? then None else p.cache)
      && (st != Ok <==> o.exec.err.Some? && o.exec.done < 4)
      && (st != Ok ==> st == ErrTimeout || st == ErrHal)
  {
    InitOpsNoLoad();
    ExecNoLoadKeepsCache(Init1GrayOps(), p, io);
    ExecNoLoadKeepsCache(Init4GrayOps(), p, io);
    var o := Blocking(Init4GrayOps(), p, io);
    if o.exec.err.Some? && o.exec.done < 4 {
      Init4GrayEarlyFailure(p, io);
    }
  }

  lemma Init4GrayEarlyFailure(p: Panel, io: seq<bool>)
    requires Exec(Init4GrayOps(), p, io).err.Some? && Exec(Init4GrayOps(), p, io).done < 4
    ensures Exec(Init4GrayOps(), p, io).err == Some(ErrTimeout) || Exec(Init4GrayOps(), p, io).err == Some(ErrHal)
  {
    var head := [WaitIdle, HwReset, Begin, Command(CmdSwReset)];
    var tail := RamPatterns + InitConfig(seq(10, _ => 0x00));
    assert Init4GrayOps() == head + tail;
    var r := Exec(head + tail, p, io);
    var s0 := StepOp(WaitIdle, p, io);
    if s0.err.None? {
      var s1 := StepOp(HwReset, s0.panel, s0.io);
      var s2 := StepOp(Begin, s1.panel, s1.io);
      var s3 := StepOp(Command(CmdSwReset), s2.panel, s2.io);
      assert (head + tail)[1..][1..][1..][0] == Command(CmdSwReset);
      if s3.err.None? {
        assert false;
      }
    }
  }

  /** init_4_gray hides a failed transmit after the SW reset: the first RAM
    * pattern command fails, yet the call answers OK and the LUT cache,
    * which the panel's reset cleared, still claims the old table. */
  lemma Init4GrayHidesFailure()
    ensures var (st, o) := Init4GrayRun(Panel(Some(Lut1GrayDu), None), [true, true, false]);
      st == Ok && o.exec.err == Some(ErrHal) && o.exec.done == 4 && o.panel.cache == Some(Lut1GrayDu)
  {
    var p := Panel(Some(Lut1GrayDu), None);
    var io := [true, true, false];
    var head := [WaitIdle, HwReset, Begin, Command(CmdSwReset), Command(CmdAutoWriteRed)];
    var tail := [Data([0xF7]), WaitIdle, Command(CmdAutoWriteBw), Data([0xF7]), WaitIdle] + InitConfig(seq(10, _ => 0x00));
    assert Init4GrayOps() == head + tail;
    var s0 := StepOp(WaitIdle, p, io);
    var s1 := StepOp(HwReset, s0.panel, s0.io);
    var s2 := StepOp(Begin, s1.panel, s1.io);
    var s3 := StepOp(Command(CmdSwReset), s2.panel, s2.io);
    var s4 := StepOp(Command(CmdAutoWriteRed), s3.panel, s3.io);
    assert s4.err == Some(ErrHal);
    var h1 := head[1..];
    var h2 := h1[1..];
    var h3 := h2[1..];
    var h4 := h3[1..];
    assert h4 == [Command(CmdAutoWriteRed)];
    var e4 := Exec(h4, s3.panel, s3.io);
    assert e4.done == 0 && e4.err == Some(ErrHal) && e4.panel == p.(csLow := Some(true));
    assert h3[0] == Command(CmdSwReset) && h3[1..] == h4;
    var e3 := Exec(h3, s2.panel, s2.io);
    assert e3.done == 1 && e3.err == Some(ErrHal) && e3.panel.cache == p.cache;
    var e2 := Exec(h2, s1.panel, s1.io);
    assert e2.done == 2 && e2.err == Some(ErrHal) && e2.panel.cache == p.cache;
    var e1 := Exec(h1, s0.panel, s0.io);
    assert e1.done == 3 && e1.err == Some(ErrHal) && e1.panel.cache == p.cache;
    var e := Exec(head, p, io);
    assert e.done == 4 && e.err == Some(ErrHal) && e.panel.cache == p.cache;
    ExecPrefix(head, tail, p, io);
  }

  /** `clear_*`'s fill loop: the 0xFF bytes in chunks of at most 32. */
  function FillChunks(left: nat): (ops: seq<Op>)
    decreases left
  {
    if left == 0 then []
    else
      var chunk := if left > 32 then 32 else left;
      [Data(seq(chunk, _ => 0xFF))] + FillChunks(left - chunk)
  }

  function DataBytes(ops: seq<Op>): seq<byte>
  {
    if ops == [] then []
    else (if ops[0].Data? then ops[0].bytes else []) + DataBytes(ops[1..])
  }

  lemma {:induction false} DataBytesAppend(a: seq<Op>, b: seq<Op>)
    ensures DataBytes(a + b) == DataBytes(a) + DataBytes(b)
  {
    if a == [] {
      assert a + b == b;
    } else {
      assert (a + b)[1..] == a[1..] + b;
      DataBytesAppend(a[1..], b);
    }
  }

  /** The fill sends exactly `left` bytes of 0xFF, as 1..32-byte data
    * transmits and nothing else. */
  lemma {:induction false} FillChunksContent(left: nat)
    ensures DataBytes(FillChunks(left)) == seq(left, _ => 0xFF)
    ensures forall i :: 0 <= i < |FillChunks(left)| ==>
      FillChunks(left)[i].Data? && 1 <= |FillChunks(left)[i].bytes| <= 32
    decreases left
  {
    if left > 0 {
      var chunk := if left > 32 then 32 else left;
      var head: seq<Op> := [Data(seq(chunk, _ => 0xFF))];
      FillChunksContent(left - chunk);
      DataBytesAppend(head, FillChunks(left - chunk));
      assert DataBytes(head) == seq(chunk, _ => 0xFF) by {
        assert head[1..] == [];
      }
      assert seq(chunk, _ => 0xFF) + seq(left - chunk, _ => 0xFF) == seq(left, _ => 0xFF);
      var all := FillChunks(left);
      assert all == head + FillChunks(left - chunk);
      forall i | 0 <= i < |all| ensures all[i].Data? && 1 <= |all[i].bytes| <= 32 {
        if i > 0 {
          assert all[i] == FillChunks(left - chunk)[i - 1];
        }
      }
    }
  }

  /** The `while (left > 0)` loop of the clear functions, collecting the
    * chunks it sends. */
  method FillOps(total: nat) returns (ops: seq<Op>)
    ensures ops == FillChunks(total)
  {
    ops := [];
    var left: nat := total;
    while left > 0
      invariant left <= total
      invariant ops + FillChunks(left) == FillChunks(total)
    {
      var chunk := if left > 32 then 32 else left;
      ops := ops + [Data(seq(chunk, _ => 0xFF))];
      left := left - chunk;
    }
    assert ops + [] == ops;
  }

  /** `epd3in7_driver_clear_4_gray`, given its fill. */
  function Clear4GrayOps(fill: seq<Op>): seq<Op>
  {
    [WaitIdle, Begin, Command(CmdUnknown49), Data([0x00]),
     Command(CmdRamXCounter), Data([0x00]), Data([0x00]),
     Command(CmdRamYCounter), Data([0x00]), Data([0x00]),
     Command(CmdWriteRam)] + fill +
    [Command(CmdRamXCounter), Data([0x00]), Data([0x00]),
     Command(CmdRamYCounter), Data([0x00]), Data([0x00]),
     Command(CmdWriteRam2)] + fill +
    [Load(Lut4GrayGc), Command(CmdDisplayUpdateSetting), Data([0xC7]), Command(CmdDisplayUpdate)]
  }

  /** `epd3in7_driver_clear_1_gray`, given its fill. */
  function Clear1GrayOps(fill: seq<Op>, mode: Mode): seq<Op>
  {
    [WaitIdle, Begin,
     Command(CmdRamXCounter), Data([0x00]), Data([0x00]),
     Command(CmdRamYCounter), Data([0x00]), Data([0x00]),
     Command(CmdWriteRam)] + fill +
    [Load(ModeToLut(mode, true)), Command(CmdDisplayUpdate)]
  }

  // ---------------------------------------------------------------------
  // 4-gray display.

  /** The conversion loop for one plane: output byte i from source bytes 2i
    * and 2i+1, each sent with `send_data`. */
  function PlaneOps(image: seq<byte>, plane: Plane): (ops: seq<Op>)
    requires |image| >= 2 * FrameBytes
    ensures |ops| == FrameBytes
  {
    seq(FrameBytes, i requires 0 <= i < FrameBytes => Data([PackByte(image[2 * i] as bv8, image[2 * i + 1] as bv8, plane) as int]))
  }

  /** The conversion loop of `display_4_gray` for one plane, as the board
    * runs it: the packing of each source pair is computed by the nested
    * shift loops and sent as one data byte. */
  method ConvertPlane(image: seq<byte>, plane: Plane) returns (ops: seq<Op>)
    requires |image| >= 2 * FrameBytes
    ensures ops == PlaneOps(image, plane)
  {
    ops := [];
    var i := 0;
    while i < FrameBytes
      invariant 0 <= i <= FrameBytes && |ops| == i
      invariant forall n :: 0 <= n < i ==> ops[n] == PlaneOps(image, plane)[n]
    {
      var out := PackPlaneByte(image[2 * i], image[2 * i + 1], plane);
      ops := ops + [Data([out])];
      i := i + 1;
    }
  }

  /** Every source pixel can be read back from the two planes: bit 7 - p of
    * output byte i of plane 2 and of plane 1 are the high and low bits of
    * pixel p of source pair i. */
  lemma PlanesRecoverImage(image: seq<byte>, i: nat, p: nat)
    requires |image| >= 2 * FrameBytes && i < FrameBytes && p < 8
    ensures var b1 := PlaneOps(image, Plane1)[i].bytes[0] as bv8;
      var b2 := PlaneOps(image, Plane2)[i].bytes[0] as bv8;
      (BitAt(b2, p) << 1) | BitAt(b1, p) == PixelCode(image[2 * i] as bv8, image[2 * i + 1] as bv8, p)
  {
    PlaneByteAt(image, Plane1, i);
    PlaneByteAt(image, Plane2, i);
    PackRoundTrip(image[2 * i] as bv8, image[2 * i + 1] as bv8, p);
  }

  /** Output byte i of a plane, read back as a bit vector. */
  lemma PlaneByteAt(image: seq<byte>, plane: Plane, i: nat)
    requires |image| >= 2 * FrameBytes && i < FrameBytes
    ensures PlaneOps(image, plane)[i].Data? && |PlaneOps(image, plane)[i].bytes| == 1
    ensures PlaneOps(image, plane)[i].bytes[0] as bv8 == PackByte(image[2 * i] as bv8, image[2 * i + 1] as bv8, plane)
  {
    ByteRoundTrip(PackByte(image[2 * i] as bv8, image[2 * i + 1] as bv8, plane));
  }

  /** `epd3in7_driver_display_4_gray`. */
  function Display4GrayOps(image: seq<byte>): seq<Op>
    requires |image| >= 2 * FrameBytes
  {
    [WaitIdle, Begin, Command(CmdUnknown49), Data([0x00]),
     Command(CmdRamXCounter), Data([0x00]), Data([0x00]),
     Command(CmdRamYCounter), Data([0x00]), Data([0x00]),
     Command(CmdWriteRam)] + PlaneOps(image, Plane1) +
    [Command(CmdRamXCounter), Data([0x00]), Data([0x00]),
     Command(CmdRamYCounter), Data([0x00]), Data([0x00]),
     Command(CmdWriteRam2)] + PlaneOps(image, Plane2) +
    [Load(Lut4GrayGc), Command(CmdDisplayUpdateSetting), Data([0xC7]), Command(CmdDisplayUpdate)]
  }

  // ---------------------------------------------------------------------
  // 1-bit display and the partial window.

  /** `epd3in7_driver_display_1_gray`. */
  function Display1GrayOps(image: seq<byte>, mode: Mode): seq<Op>
    requires |image| >= FrameBytes
  {
    [WaitIdle, Begin,
     Command(CmdRamXStartEnd), Data([0x00, 0x00, 0x17, 0x01]),
     Command(CmdRamYStartEnd), Data([0x00, 0x00, 0xDF, 0x01]),
     Command(CmdRamXCounter), Data([0x00]),
     Command(CmdRamYCounter), Data([0x00]), Data([0x00]),
     Command(CmdWriteRam), Data(image[..FrameBytes]),
     Load(ModeToLut(mode, true)), Command(CmdDisplayUpdate)]
  }

  /** The RAM window bytes `{start & 0xFF, (start >> 8) & 3, end & 0xFF,
    * (end >> 8) & 3}`. */
  function Window(start: u16, end: u16): seq<byte>
  {
    [start % 256, (start / 256) % 4, end % 256, (end / 256) % 4]
  }

  /** A window end below 1024 is recovered from its two bytes. */
  lemma WindowRoundTrip(end: u16)
    requires end < 1024
    ensures Window(0, end)[2] as int + 256 * (Window(0, end)[3] as int) == end
    ensures Window(0, end)[..2] == [0, 0]
  {
  }

  /** The bytes per row of `display_1_gray_top`: `x_end - x_start` is 279,
    * not 280, and the rounding up makes it 35 all the same. */
  function TopRowBytes(): (r: nat)
    ensures r * 8 == Width
  {
    BytesForSpan(Width - 1)
  }

  /** A span of `span` pixels rounded up to whole bytes. */
  function BytesForSpan(span: nat): (r: nat)
    ensures span <= 8 * r < span + 8
  {
    if span % 8 == 0 then span / 8 else span / 8 + 1
  }

  /** `epd3in7_driver_display_1_gray_top`'s parameter checks. */
  predicate TopArgsOk(image: Option<seq<byte>>, yEnd: u16)
  {
    image.Some? && 1 <= yEnd <= Height
  }

  function Display1GrayTopOps(image: seq<byte>, yEnd: u16, mode: Mode): seq<Op>
    requires 1 <= yEnd <= Height && |image| >= TopRowBytes() * yEnd
  {
    [WaitIdle, Begin,
     Command(CmdRamXStartEnd), Data(Window(0, Width - 1)),
     Command(CmdRamYStartEnd), Data(Window(0, yEnd - 1)),
     Command(CmdRamXCounter), Data([0x00]),
     Command(CmdRamYCounter), Data([0x00]), Data([0x00]),
     Command(CmdWriteRam), Data(image[..TopRowBytes() * yEnd]),
     Load(ModeToLut(mode, true)), Command(CmdDisplayUpdate)]
  }

  /** The whole call: ERR_PARAM before any I/O for a null image or a height
    * outside 1..480. */
  function Display1GrayTopRun(image: Option<seq<byte>>, yEnd: u16, mode: Mode, p: Panel, io: seq<bool>): Outcome
    requires image.Some? && 1 <= yEnd <= Height ==> |image.value| >= TopRowBytes() * yEnd
  {
    if !TopArgsOk(image, yEnd) then Outcome(ErrParam, ExecResult(0, Some(ErrParam), p, [], io), p, [], io)
    else Blocking(Display1GrayTopOps(image.value, yEnd, mode), p, io)
  }

  /** The window and the byte count of a partial refresh: X spans 0..279,
    * Y spans 0..yEnd-1, and 35 bytes per row are sent; the full-height call
    * sends the same window and frame as `display_1_gray`. */
  lemma Display1GrayTopShape(image: Option<seq<byte>>, yEnd: u16, mode: Mode, p: Panel, io: seq<bool>)
    requires image.Some? && 1 <= yEnd <= Height ==> |image.value| >= TopRowBytes() * yEnd
    ensures !TopArgsOk(image, yEnd) ==>
      var o := Display1GrayTopRun(image, yEnd, mode, p, io);
      o.status == ErrParam && o.wire == [] && o.panel == p && o.io == io
    ensures TopArgsOk(image, yEnd) ==>
      var ops := Display1GrayTopOps(image.value, yEnd, mode);
      && ops[3] == Data([0x00, 0x00, 279 % 256, 279 / 256])
      && ops[5] == Data([0x00, 0x00, (yEnd - 1) % 256, ((yEnd - 1) / 256) % 4])
      && |ops[12].bytes| == 35 * yEnd <= FrameBytes
    ensures TopArgsOk(image, yEnd) && yEnd == Height ==>
      Display1GrayTopOps(image.value, yEnd, mode) == Display1GrayOps(image.value, mode)
  {
  }

  // ---------------------------------------------------------------------
  // The handle.

  /** `epd3in7_driver_pins`: the CS and DC lines the DMA variants use. */
  datatype Pins = Pins(csPort: Option<nat>, csPin: u16, dcPort: Option<nat>, dcPin: u16)

  // ---------------------------------------------------------------------
  // The DMA variants, which queue descriptors on the older bus manager.

  /** What every descriptor copies from the handle: the pins, the SPI
    * registers and the handle's own address for the BUSY predicate. */
  datatype Link = Link(pins: Pins, cr1: u32, cr2: u32, ref: nat)

  /** `epd_tx_cmd`, `epd_tx_data`, `epd_tx_cmd_wait` and `epd_tx_payload`: a
    * TX-only descriptor with CS active low and DC high for data, no
    * callbacks, and, when `waitAfter`, the BUSY predicate with the 12 s
    * timeout and the handle as its argument. The length is the `uint16_t`
    * cast of the payload size. */
  function Descriptor(k: Link, mode: SpiBusTypes.DcMode, payload: seq<byte>, waitAfter: bool): (t: SpiBusApp.Txn)
    ensures t.cs == SpiBusTypes.Gpio(k.pins.csPort, k.pins.csPin, true)
    ensures t.dc == SpiBusTypes.Gpio(k.pins.dcPort, k.pins.dcPin, false)
    ensures |payload| < 0x1_0000 ==> t.len == |payload|
    ensures SpiBusApp.ParamsOk(t) <==> k.pins.csPort.Some? && 0 < |payload| % 0x1_0000
    ensures t.hasWaitReady == waitAfter && (waitAfter ==> t.waitTimeoutMs == BusyTimeoutMs)
  {
    SpiBusApp.Txn(
      SpiBusTypes.Gpio(k.pins.csPort, k.pins.csPin, true),
      SpiBusTypes.Gpio(k.pins.dcPort, k.pins.dcPin, false),
      mode, k.cr1, k.cr2, true, false, U16(|payload|), SpiBusTypes.DirTx,
      waitAfter, if waitAfter then BusyTimeoutMs else 0,
      false, false, false, if waitAfter then k.ref else 0, payload)
  }

  function CmdTxn(k: Link, c: byte): SpiBusApp.Txn
  {
    Descriptor(k, SpiBusTypes.DcCommand, [c], false)
  }

  function DataTxn(k: Link, bytes: seq<byte>): SpiBusApp.Txn
  {
    Descriptor(k, SpiBusTypes.DcData, bytes, false)
  }

  /** What a chain of submits did: how many descriptors were accepted and
    * the manager's state, log and DMA oracle afterwards. */
  datatype Batch = Batch(accepted: nat, bus: SpiBusApp.Bus, log: seq<SpiBusTypes.Event>, dma: seq<bool>)

  /** The driver's `if (spi_bus_manager_submit(...) != OK) return
    * EPD3IN7_DRIVER_SPI_BUS_ERR;` chain: descriptors are submitted in order
    * and the first rejection stops it. */
  function SubmitAll(cfg: SpiBusApp.Config, b: SpiBusApp.Bus, ts: seq<SpiBusApp.Txn>, dma: seq<bool>): (r: Batch)
    ensures r.accepted <= |ts|
    ensures r.accepted == 0 ==> r.bus == b && r.log == [] && r.dma == dma
    decreases |ts|
  {
    if ts == [] then Batch(0, b, [], dma)
    else
      var res := SpiBusApp.SubmitRun(cfg, b, ts[0], dma);
      if res.0 != SpiBusTypes.Ok then Batch(0, b, [], dma)
      else
        var r := SubmitAll(cfg, res.1.bus, ts[1..], res.1.dma);
        Batch(r.accepted + 1, r.bus, res.1.log + r.log, r.dma)
  }

  /** Two chains run one after the other. */
  function Then(a: Batch, b: Batch): Batch
  {
    Batch(a.accepted + b.accepted, b.bus, a.log + b.log, b.dma)
  }

  predicate AllParamsOk(ts: seq<SpiBusApp.Txn>)
  {
    forall i :: 0 <= i < |ts| ==> SpiBusApp.ParamsOk(ts[i])
  }

  /** While a transfer is in flight and the ring has room, every descriptor
    * of a chain is queued, in order, behind what was queued before, and
    * nothing reaches the bus. */
  lemma {:induction false} SubmitAllQueued(cfg: SpiBusApp.Config, b: SpiBusApp.Bus, ts: seq<SpiBusApp.Txn>, dma: seq<bool>)
    requires cfg.spiOk && cfg.storageOk && b.busy && AllParamsOk(ts)
    requires |b.queue| + |ts| < cfg.cap
    ensures SubmitAll(cfg, b, ts, dma) == Batch(|ts|, SpiBusApp.Bus(b.queue + ts, true), [], dma)
    decreases |ts|
  {
    if ts == [] {
      assert b.queue + ts == b.queue;
    } else {
      assert SpiBusApp.ParamsOk(ts[0]);
      SpiBusApp.SubmitOutcome(cfg, b, ts[0], dma);
      var b1 := SpiBusApp.Bus(b.queue + [ts[0]], true);
      assert AllParamsOk(ts[1..]) by {
        forall i | 0 <= i < |ts[1..]| ensures SpiBusApp.ParamsOk(ts[1..][i]) {
          assert ts[1..][i] == ts[i + 1];
        }
      }
      SubmitAllQueued(cfg, b1, ts[1..], dma);
      assert b1.queue + ts[1..] == b.queue + ts;
    }
  }

  /** `a` is a (possibly empty) tail of `c`. */
  predicate IsSuffix<T(==)>(a: seq<T>, c: seq<T>)
  {
    |a| <= |c| && a == c[|c| - |a|..]
  }

  /** A tail of `q + [x]` extended by `more`, then cut again, is still a
    * tail of `q + [x] + more`. */
  lemma SuffixChain<T>(q: seq<T>, x: T, q1: seq<T>, more: seq<T>, q2: seq<T>)
    requires IsSuffix(q1, q + [x]) && IsSuffix(q2, q1 + more)
    ensures IsSuffix(q2, q + [x] + more)
  {
    var c := q + [x];
    assert (c + more)[|c + more| - |q1 + more|..] == c[|c| - |q1|..] + more;
    assert (q1 + more)[|q1 + more| - |q2|..] == (c + more)[|c + more| - |q2|..];
  }

  lemma SliceCons<T>(ts: seq<T>, n: nat)
    requires n < |ts|
    ensures [ts[0]] + ts[1..][..n] == ts[..n + 1]
  {
  }

  /** The order argument of one step of a chain, on sequences alone. */
  lemma SuffixStep<T>(q: seq<T>, ts: seq<T>, q1: seq<T>, n: nat, q2: seq<T>)
    requires n < |ts|
    requires IsSuffix(q1, q + [ts[0]]) && IsSuffix(q2, q1 + ts[1..][..n])
    ensures IsSuffix(q2, q + ts[..n + 1])
  {
    SuffixChain(q, ts[0], q1, ts[1..][..n], q2);
    SliceCons(ts, n);
    assert q + [ts[0]] + ts[1..][..n] == q + ts[..n + 1];
  }

  /** One accepted submit followed by the rest of the chain. */
  lemma SubmitAllStep(cfg: SpiBusApp.Config, b: SpiBusApp.Bus, ts: seq<SpiBusApp.Txn>, dma: seq<bool>)
    requires ts != [] && SpiBusApp.SubmitRun(cfg, b, ts[0], dma).0 == SpiBusTypes.Ok
    ensures var first := SpiBusApp.SubmitRun(cfg, b, ts[0], dma).1;
      var r := SubmitAll(cfg, first.bus, ts[1..], first.dma);
      SubmitAll(cfg, b, ts, dma) == Batch(r.accepted + 1, r.bus, first.log + r.log, r.dma)
  {
  }

  /** A chain whose first submit is rejected does nothing. */
  lemma SubmitAllStop(cfg: SpiBusApp.Config, b: SpiBusApp.Bus, ts: seq<SpiBusApp.Txn>, dma: seq<bool>)
    requires ts == [] || SpiBusApp.SubmitRun(cfg, b, ts[0], dma).0 != SpiBusTypes.Ok
    ensures SubmitAll(cfg, b, ts, dma) == Batch(0, b, [], dma)
  {
  }

  /** The queue after one accepted submit is a tail of the old queue and
    * the new descriptor. */
  lemma SubmitKeepsOrder(cfg: SpiBusApp.Config, b: SpiBusApp.Bus, t: SpiBusApp.Txn, dma: seq<bool>)
    requires SpiBusApp.Fits(cfg, b) && SpiBusApp.SubmitRun(cfg, b, t, dma).0 == SpiBusTypes.Ok
    ensures var b1 := SpiBusApp.SubmitRun(cfg, b, t, dma).1.bus;
      IsSuffix(b1.queue, b.queue + [t]) && SpiBusApp.Fits(cfg, b1)
  {
    SpiBusApp.SubmitOutcome(cfg, b, t, dma);
  }

  /** Whatever the manager's state, a chain never reorders descriptors: the
    * queue afterwards is a tail of the old queue followed by the accepted
    * descriptors in order (starts and drops only remove from the front). */
  lemma {:induction false} SubmitAllKeepsOrder(cfg: SpiBusApp.Config, b: SpiBusApp.Bus, ts: seq<SpiBusApp.Txn>, dma: seq<bool>)
    requires SpiBusApp.Fits(cfg, b)
    ensures var r := SubmitAll(cfg, b, ts, dma);
      IsSuffix(r.bus.queue, b.queue + ts[..r.accepted]) && SpiBusApp.Fits(cfg, r.bus)
    decreases |ts|
  {
    if ts == [] || SpiBusApp.SubmitRun(cfg, b, ts[0], dma).0 != SpiBusTypes.Ok {
      SubmitAllStop(cfg, b, ts, dma);
      assert b.queue + ts[..0] == b.queue;
    } else {
      var first := SpiBusApp.SubmitRun(cfg, b, ts[0], dma).1;
      SubmitAllStep(cfg, b, ts, dma);
      SubmitKeepsOrder(cfg, b, ts[0], dma);
      SubmitAllKeepsOrder(cfg, first.bus, ts[1..], first.dma);
      var r1 := SubmitAll(cfg, first.bus, ts[1..], first.dma);
      SuffixStep(b.queue, ts, first.bus.queue, r1.accepted, r1.bus.queue);
    }
  }

  /** `epd3in7_enqueue_lut`: a cache hit queues nothing; an unknown LUT is
    * ERR_PARAM; otherwise command 0x32 and the 105 table bytes are
    * submitted and the cache is updated only when both were accepted. */
  function EnqueueLutRun(k: Link, cfg: SpiBusApp.Config, b: SpiBusApp.Bus, cache: Option<Lut>, lut: Lut, dma: seq<bool>)
    : (Status, Batch, Option<Lut>)
  {
    if cache == Some(lut) then (Ok, Batch(0, b, [], dma), cache)
    else match LutTable(lut)
      case None => (ErrParam, Batch(0, b, [], dma), cache)
      case Some(tbl) =>
        var r := SubmitAll(cfg, b, [CmdTxn(k, CmdWriteLut), DataTxn(k, tbl)], dma);
        if r.accepted == 2 then (Ok, r, Some(lut)) else (SpiBusErr, r, cache)
  }

  lemma EnqueueLutOutcome(k: Link, cfg: SpiBusApp.Config, b: SpiBusApp.Bus, cache: Option<Lut>, lut: Lut, dma: seq<bool>)
    ensures var res := EnqueueLutRun(k, cfg, b, cache, lut, dma);
      && (res.0 == Ok <==> cache == Some(lut) || (LutTable(lut).Some? && res.1.accepted == 2))
      && (res.0 == ErrParam <==> cache != Some(lut) && lut.LutOther?)
      && (res.0 == Ok ==> res.2 == Some(lut))
      && (res.0 != Ok ==> res.2 == cache)
      && (cache == Some(lut) || lut.LutOther? ==> res.1 == Batch(0, b, [], dma))
  {
  }

  /** The descriptors `display_1_gray_dma` submits before the LUT: RAM
    * window, RAM counters, WRITE_RAM and the frame. */
  function Display1GrayDmaFrame(k: Link, image: seq<byte>): (ts: seq<SpiBusApp.Txn>)
    requires |image| >= FrameBytes
    ensures |ts| == 10
  {
    [ CmdTxn(k, CmdRamXStartEnd), DataTxn(k, [0x00, 0x00, 0x17, 0x01]),
      CmdTxn(k, CmdRamYStartEnd), DataTxn(k, [0x00, 0x00, 0xDF, 0x01]),
      CmdTxn(k, CmdRamXCounter), DataTxn(k, [0x00]),
      CmdTxn(k, CmdRamYCounter), DataTxn(k, [0x00, 0x00]),
      CmdTxn(k, CmdWriteRam), DataTxn(k, image[..FrameBytes]) ]
  }

  /** The closing DISPLAY_UPDATE_SEQUENCE, with the BUSY wait after it. */
  function UpdateTxn(k: Link): SpiBusApp.Txn
  {
    Descriptor(k, SpiBusTypes.DcCommand, [CmdDisplayUpdate], true)
  }

  datatype DmaResult = DmaResult(status: Status, batch: Batch, cache: Option<Lut>)

  /** `epd3in7_driver_display_1_gray_dma` once the handle and the manager are
    * known to exist. */
  function Display1GrayDmaRun(k: Link, cfg: SpiBusApp.Config, b: SpiBusApp.Bus, cache: Option<Lut>,
                              image: Option<seq<byte>>, mode: Mode, dma: seq<bool>): DmaResult
    requires image.Some? ==> |image.value| >= FrameBytes
  {
    if image.None? then DmaResult(ErrParam, Batch(0, b, [], dma), cache)
    else
      var frame := SubmitAll(cfg, b, Display1GrayDmaFrame(k, image.value), dma);
      if frame.accepted < 10 then DmaResult(SpiBusErr, frame, cache)
      else
        var lut := EnqueueLutRun(k, cfg, frame.bus, cache, ModeToLut(mode, true), frame.dma);
        if lut.0 != Ok then DmaResult(lut.0, Then(frame, lut.1), lut.2)
        else
          var upd := SubmitAll(cfg, lut.1.bus, [UpdateTxn(k)], lut.1.dma);
          DmaResult(if upd.accepted == 1 then Ok else SpiBusErr, Then(Then(frame, lut.1), upd), lut.2)
  }

  /** Everything `display_1_gray_dma` queues on a cache miss. */
  function Display1GrayDmaAll(k: Link, image: seq<byte>, lut: Lut): seq<SpiBusApp.Txn>
    requires |image| >= FrameBytes && LutTable(lut).Some?
  {
    Display1GrayDmaFrame(k, image) + [CmdTxn(k, CmdWriteLut), DataTxn(k, LutTable(lut).value), UpdateTxn(k)]
  }

  lemma AllParamsOkAppend(a: seq<SpiBusApp.Txn>, c: seq<SpiBusApp.Txn>)
    requires AllParamsOk(a) && AllParamsOk(c)
    ensures AllParamsOk(a + c)
  {
    forall i | 0 <= i < |a + c| ensures SpiBusApp.ParamsOk((a + c)[i]) {
      if i >= |a| {
        assert (a + c)[i] == c[i - |a|];
      }
    }
  }

  /** The ten frame descriptors are all well formed once there is a CS line. */
  lemma FrameParamsOk(k: Link, image: seq<byte>)
    requires |image| >= FrameBytes && k.pins.csPort.Some?
    ensures AllParamsOk(Display1GrayDmaFrame(k, image))
  {
  }

  /** With a transfer in flight and room, the frame descriptors are queued
    * behind what was there. */
  lemma FrameQueued(k: Link, cfg: SpiBusApp.Config, b: SpiBusApp.Bus, image: seq<byte>, dma: seq<bool>)
    requires |image| >= FrameBytes
    requires cfg.spiOk && cfg.storageOk && b.busy && k.pins.csPort.Some?
    requires |b.queue| + 10 < cfg.cap
    ensures SubmitAll(cfg, b, Display1GrayDmaFrame(k, image), dma)
      == Batch(10, SpiBusApp.Bus(b.queue + Display1GrayDmaFrame(k, image), true), [], dma)
  {
    FrameParamsOk(k, image);
    SubmitAllQueued(cfg, b, Display1GrayDmaFrame(k, image), dma);
  }

  /** A refresh that hits the LUT cache queues the frame and the update
    * command and nothing else. */
  lemma Display1GrayDmaHit(k: Link, cfg: SpiBusApp.Config, b: SpiBusApp.Bus, image: seq<byte>, mode: Mode, dma: seq<bool>)
    requires |image| >= FrameBytes
    requires cfg.spiOk && cfg.storageOk && b.busy && k.pins.csPort.Some?
    requires |b.queue| + 11 < cfg.cap
    ensures var lut := ModeToLut(mode, true);
      Display1GrayDmaRun(k, cfg, b, Some(lut), Some(image), mode, dma)
      == DmaResult(Ok, Batch(11, SpiBusApp.Bus(b.queue + Display1GrayDmaFrame(k, image) + [UpdateTxn(k)], true), [], dma), Some(lut))
  {
    var frame := Display1GrayDmaFrame(k, image);
    FrameQueued(k, cfg, b, image, dma);
    var b1 := SpiBusApp.Bus(b.queue + frame, true);
    assert AllParamsOk([UpdateTxn(k)]);
    SubmitAllQueued(cfg, b1, [UpdateTxn(k)], dma);
  }

  /** A refresh that misses the LUT cache queues the frame, the LUT pair and
    * the update command, and records the mode's table. */
  lemma Display1GrayDmaMiss(k: Link, cfg: SpiBusApp.Config, b: SpiBusApp.Bus, cache: Option<Lut>,
                            image: seq<byte>, mode: Mode, dma: seq<bool>)
    requires |image| >= FrameBytes
    requires cfg.spiOk && cfg.storageOk && b.busy && k.pins.csPort.Some?
    requires |b.queue| + 13 < cfg.cap
    requires cache != Some(ModeToLut(mode, true))
    ensures var lut := ModeToLut(mode, true);
      Display1GrayDmaRun(k, cfg, b, cache, Some(image), mode, dma)
      == DmaResult(Ok, Batch(13, SpiBusApp.Bus(b.queue + Display1GrayDmaAll(k, image, lut), true), [], dma), Some(lut))
  {
    var lut := ModeToLut(mode, true);
    var frame := Display1GrayDmaFrame(k, image);
    FrameQueued(k, cfg, b, image, dma);
    var b1 := SpiBusApp.Bus(b.queue + frame, true);
    var pair := [CmdTxn(k, CmdWriteLut), DataTxn(k, LutTable(lut).value)];
    assert AllParamsOk(pair);
    SubmitAllQueued(cfg, b1, pair, dma);
    var b2 := SpiBusApp.Bus(b1.queue + pair, true);
    assert AllParamsOk([UpdateTxn(k)]);
    SubmitAllQueued(cfg, b2, [UpdateTxn(k)], dma);
    assert b2.queue + [UpdateTxn(k)] == b.queue + Display1GrayDmaAll(k, image, lut);
  }

  /** The descriptors of `epd3in7_driver_sleep_dma`. */
  function SleepDmaTxns(k: Link, mode: SleepMode): seq<SpiBusApp.Txn>
  {
    if mode == SleepDeep then [CmdTxn(k, SleepDeepCode), DataTxn(k, [0x03])]
    else [CmdTxn(k, CmdSleep), DataTxn(k, [0xF7]), CmdTxn(k, CmdPowerOff), CmdTxn(k, CmdSleep2), DataTxn(k, [0xA5])]
  }

  /** `epd3in7_driver_sleep_dma` once the handle and the manager exist. */
  function SleepDmaRun(k: Link, cfg: SpiBusApp.Config, b: SpiBusApp.Bus, mode: SleepMode, dma: seq<bool>): (Status, Batch)
  {
    var ts := SleepDmaTxns(k, mode);
    var r := SubmitAll(cfg, b, ts, dma);
    (if r.accepted == |ts| then Ok else SpiBusErr, r)
  }

  /** The wire transmit a queued descriptor stands for. */
  function TxOf(t: SpiBusApp.Txn): Wire
  {
    Tx(t.dcMode == SpiBusTypes.DcData, t.payload)
  }

  /** The transmits a list of queued descriptors stands for, in order. */
  function TxsOf(ts: seq<SpiBusApp.Txn>): (w: seq<Wire>)
    ensures |w| == |ts|
    ensures forall i :: 0 <= i < |ts| ==> w[i] == TxOf(ts[i])
  {
    if ts == [] then [] else [TxOf(ts[0])] + TxsOf(ts[1..])
  }

  /** The DMA sleep queues exactly the transmits of the blocking sleep
    * (`SleepDeepWire`, `SleepNormalWire`), in the same order and with the same DC levels; only the
    * CS framing is left to the manager. */
  lemma SleepDmaMirrorsBlocking(k: Link, mode: SleepMode)
    ensures TxsOf(SleepDmaTxns(k, mode)) == SleepTransmits(mode)
  {
  }

  /** When every descriptor is accepted the sleep result is OK; on a
    * rejection it is SPI_BUS_ERR and the descriptors before it stay
    * queued. */
  lemma SleepDmaOutcome(k: Link, cfg: SpiBusApp.Config, b: SpiBusApp.Bus, mode: SleepMode, dma: seq<bool>)
    requires SpiBusApp.Fits(cfg, b)
    ensures var (st, r) := SleepDmaRun(k, cfg, b, mode, dma);
      && (st == Ok <==> r.accepted == |SleepDmaTxns(k, mode)|)
      && (st != Ok ==> st == SpiBusErr)
      && IsSuffix(r.bus.queue, b.queue + SleepDmaTxns(k, mode)[..r.accepted])
      && (k.pins.csPort.None? ==> st == SpiBusErr && r.bus == b && r.log == [])
  {
    SubmitAllKeepsOrder(cfg, b, SleepDmaTxns(k, mode), dma);
  }

  /** `submit` of each descriptor in turn up to the first rejection. */
  method SubmitInOrder(mgr: SpiBusApp.Manager, ts: seq<SpiBusApp.Txn>, dma: seq<bool>) returns (n: nat, rest: seq<bool>)
    requires mgr.Valid()
    modifies mgr`head, mgr`tail, mgr`busy, mgr`log, mgr.q
    ensures mgr.Valid()
    ensures var r := SubmitAll(old(mgr.Cfg()), old(mgr.Abs()), ts, dma);
      n == r.accepted && mgr.Abs() == r.bus && mgr.log == old(mgr.log) + r.log && rest == r.dma
    decreases |ts|
  {
    if ts == [] {
      return 0, dma;
    }
    ghost var cfg := mgr.Cfg();
    ghost var log0 := mgr.log;
    var st, rest1 := mgr.Submit(ts[0], dma);
    if st != SpiBusTypes.Ok {
      return 0, dma;
    }
    ghost var log1 := mgr.log;
    var m;
    m, rest := SubmitInOrder(mgr, ts[1..], rest1);
    n := m + 1;
    ghost var r := SubmitAll(cfg, old(mgr.Abs()), ts, dma);
    SpiBusTypes.ConcatAssoc(log0, log1[|log0|..], mgr.log[|log1|..]);
  }

  /** `epd3in7_driver_handle`. `cr1`/`cr2` are the register values the DMA
    * descriptors copy from the SPI instance; `ref` is the handle's address,
    * passed to the BUSY predicate as its user argument. */
  class Driver {
    const pins: Pins
    const busyActiveHigh: bool
    const cr1: u32
    const cr2: u32
    const ref: nat
    var isCsLow: bool
    var isCsLowHasValue: bool
    var lastLut: Lut
    var lastLutHasValue: bool
    ghost var wire: seq<Wire>

    function State(): Panel
      reads this`isCsLow, this`isCsLowHasValue, this`lastLut, this`lastLutHasValue
    {
      Panel(if lastLutHasValue then Some(lastLut) else None, if isCsLowHasValue then Some(isCsLow) else None)
    }

    /** `epd3in7_driver_create`: the LUT cache and the CS state start
      * unknown. */
    constructor (pins: Pins, busyActiveHigh: bool, cr1: u32, cr2: u32, ref: nat)
      ensures State() == Panel(None, None) && wire == []
      ensures this.pins == pins && this.busyActiveHigh == busyActiveHigh
      ensures this.cr1 == cr1 && this.cr2 == cr2 && this.ref == ref
    {
      this.pins := pins;
      this.busyActiveHigh := busyActiveHigh;
      this.cr1 := cr1;
      this.cr2 := cr2;
      this.ref := ref;
      isCsLow := false;
      isCsLowHasValue := false;
      lastLut := Lut4GrayGc;
      lastLutHasValue := false;
      wire := [];
    }

    /** Stores a panel state back into the handle's fields. */
    method SetState(p: Panel)
      modifies this`isCsLow, this`isCsLowHasValue, this`lastLut, this`lastLutHasValue
      ensures State() == p
      ensures p.cache.None? ==> lastLut == old(lastLut)
      ensures p.csLow.None? ==> isCsLow == old(isCsLow)
    {
      if p.cache.Some? {
        lastLut := p.cache.value;
        lastLutHasValue := true;
      } else {
        lastLutHasValue := false;
      }
      if p.csLow.Some? {
        isCsLow := p.csLow.value;
        isCsLowHasValue := true;
      } else {
        isCsLowHasValue := false;
      }
    }

    /** Runs a blocking sequence and commits its effect. */
    method RunBlocking(ops: seq<Op>, io: seq<bool>) returns (o: Outcome)
      modifies this`isCsLow, this`isCsLowHasValue, this`lastLut, this`lastLutHasValue, this`wire
      ensures o == Blocking(ops, old(State()), io)
      ensures State() == o.panel && wire == old(wire) + o.wire
    {
      o := Blocking(ops, State(), io);
      SetState(o.panel);
      wire := wire + o.wire;
    }

    /** `epd3in7_driver_sleep`. */
    method Sleep(mode: SleepMode, io: seq<bool>) returns (st: Status, rest: seq<bool>)
      modifies this`isCsLow, this`isCsLowHasValue, this`lastLut, this`lastLutHasValue, this`wire
      ensures var o := Blocking(SleepOps(mode), old(State()), io);
        st == o.status && State() == o.panel && wire == old(wire) + o.wire && rest == o.io
    {
      var o := RunBlocking(SleepOps(mode), io);
      st, rest := o.status, o.io;
    }

    /** `epd3in7_driver_init_4_gray`. */
    method Init4Gray(io: seq<bool>) returns (st: Status, rest: seq<bool>)
      modifies this`isCsLow, this`isCsLowHasValue, this`lastLut, this`lastLutHasValue, this`wire
      ensures var (s, o) := Init4GrayRun(old(State()), io);
        st == s && State() == o.panel && wire == old(wire) + o.wire && rest == o.io
    {
      var o := RunBlocking(Init4GrayOps(), io);
      rest := o.io;
      if o.exec.err.None? {
        lastLutHasValue := false;
        st := Ok;
      } else if o.exec.done < Init4GrayChecked {
        st := o.status;
      } else {
        st := Ok;
      }
    }

    /** `epd3in7_driver_init_1_gray`. */
    method Init1Gray(io: seq<bool>) returns (st: Status, rest: seq<bool>)
      modifies this`isCsLow, this`isCsLowHasValue, this`lastLut, this`lastLutHasValue, this`wire
      ensures var o := Init1GrayRun(old(State()), io);
        st == o.status && State() == o.panel && wire == old(wire) + o.wire && rest == o.io
    {
      var o := RunBlocking(Init1GrayOps(), io);
      rest := o.io;
      st := o.status;
      if o.exec.err.None? {
        lastLutHasValue := false;
      }
    }

    /** `epd3in7_driver_clear_4_gray`. */
    method Clear4Gray(io: seq<bool>) returns (st: Status, rest: seq<bool>)
      modifies this`isCsLow, this`isCsLowHasValue, this`lastLut, this`lastLutHasValue, this`wire
      ensures var o := Blocking(Clear4GrayOps(FillChunks(FrameBytes)), old(State()), io);
        st == o.status && State() == o.panel && wire == old(wire) + o.wire && rest == o.io
    {
      var fill := FillOps(FrameBytes);
      var o := RunBlocking(Clear4GrayOps(fill), io);
      st, rest := o.status, o.io;
    }

    /** `epd3in7_driver_clear_1_gray`. */
    method Clear1Gray(mode: Mode, io: seq<bool>) returns (st: Status, rest: seq<bool>)
      modifies this`isCsLow, this`isCsLowHasValue, this`lastLut, this`lastLutHasValue, this`wire
      ensures var o := Blocking(Clear1GrayOps(FillChunks(FrameBytes), mode), old(State()), io);
        st == o.status && State() == o.panel && wire == old(wire) + o.wire && rest == o.io
    {
      var fill := FillOps(FrameBytes);
      var o := RunBlocking(Clear1GrayOps(fill, mode), io);
      st, rest := o.status, o.io;
    }

    /** `epd3in7_driver_display_4_gray`; the image holds 2 bits per pixel. */
    method Display4Gray(image: seq<byte>, io: seq<bool>) returns (st: Status, rest: seq<bool>)
      requires |image| >= 2 * FrameBytes
      modifies this`isCsLow, this`isCsLowHasValue, this`lastLut, this`lastLutHasValue, this`wire
      ensures var o := Blocking(Display4GrayOps(image), old(State()), io);
        st == o.status && State() == o.panel && wire == old(wire) + o.wire && rest == o.io
    {
      var plane1 := ConvertPlane(image, Plane1);
      var plane2 := ConvertPlane(image, Plane2);
      var ops := [WaitIdle, Begin, Command(CmdUnknown49), Data([0x00]),
        Command(CmdRamXCounter), Data([0x00]), Data([0x00]),
        Command(CmdRamYCounter), Data([0x00]), Data([0x00]),
        Command(CmdWriteRam)] + plane1 +
        [Command(CmdRamXCounter), Data([0x00]), Data([0x00]),
         Command(CmdRamYCounter), Data([0x00]), Data([0x00]),
         Command(CmdWriteRam2)] + plane2 +
        [Load(Lut4GrayGc), Command(CmdDisplayUpdateSetting), Data([0xC7]), Command(CmdDisplayUpdate)];
      var o := RunBlocking(ops, io);
      st, rest := o.status, o.io;
    }

    /** `epd3in7_driver_display_1_gray`. */
    method Display1Gray(image: seq<byte>, mode: Mode, io: seq<bool>) returns (st: Status, rest: seq<bool>)
      requires |image| >= FrameBytes
      modifies this`isCsLow, this`isCsLowHasValue, this`lastLut, this`lastLutHasValue, this`wire
      ensures var o := Blocking(Display1GrayOps(image, mode), old(State()), io);
        st == o.status && State() == o.panel && wire == old(wire) + o.wire && rest == o.io
    {
      var o := RunBlocking(Display1GrayOps(image, mode), io);
      st, rest := o.status, o.io;
    }

    /** `epd3in7_driver_display_1_gray_top`. */
    method Display1GrayTop(image: Option<seq<byte>>, yEnd: u16, mode: Mode, io: seq<bool>) returns (st: Status, rest: seq<bool>)
      requires image.Some? && 1 <= yEnd <= Height ==> |image.value| >= TopRowBytes() * yEnd
      modifies this`isCsLow, this`isCsLowHasValue, this`lastLut, this`lastLutHasValue, this`wire
      ensures var o := Display1GrayTopRun(image, yEnd, mode, old(State()), io);
        st == o.status && State() == o.panel && wire == old(wire) + o.wire && rest == o.io
    {
      if image.None? {
        return ErrParam, io;
      } else if yEnd == 0 || yEnd > Height {
        return ErrParam, io;
      }
      var o := RunBlocking(Display1GrayTopOps(image.value, yEnd, mode), io);
      st, rest := o.status, o.io;
    }

    /** The descriptor parameters this handle builds: its pins, the SPI
      * control registers as configured and the handle itself as the BUSY
      * predicate's argument. */
    function BusLink(): Link
    {
      Link(pins, cr1, cr2, ref)
    }

    /** `epd3in7_enqueue_lut`: the LUT cache is updated only when both the
      * command and the table were accepted. */
    method EnqueueLut(mgr: SpiBusApp.Manager, lut: Lut, dma: seq<bool>) returns (st: Status, rest: seq<bool>)
      requires mgr.Valid()
      modifies this`lastLut, this`lastLutHasValue, mgr`head, mgr`tail, mgr`busy, mgr`log, mgr.q
      ensures mgr.Valid()
      ensures var res := EnqueueLutRun(BusLink(), old(mgr.Cfg()), old(mgr.Abs()), old(State().cache), lut, dma);
        && st == res.0 && mgr.Abs() == res.1.bus && mgr.log == old(mgr.log) + res.1.log && rest == res.1.dma
        && State() == old(State()).(cache := res.2)
    {
      if lastLutHasValue && lastLut == lut {
        return Ok, dma;
      }
      var tbl := LutTable(lut);
      if tbl.None? {
        return ErrParam, dma;
      }
      var n;
      n, rest := SubmitInOrder(mgr, [CmdTxn(BusLink(), CmdWriteLut), DataTxn(BusLink(), tbl.value)], dma);
      if n != 2 {
        return SpiBusErr, rest;
      }
      lastLutHasValue := true;
      lastLut := lut;
      st := Ok;
    }

    /** `epd3in7_driver_display_1_gray_dma`: a missing manager or image is
      * ERR_PARAM with nothing queued; otherwise the frame, the LUT (when
      * not cached) and the update command are queued in order, stopping at
      * the first rejection. */
    method Display1GrayDma(mgr: SpiBusApp.Manager?, image: Option<seq<byte>>, mode: Mode, dma: seq<bool>)
      returns (st: Status, rest: seq<bool>)
      requires mgr != null ==> mgr.Valid()
      requires image.Some? ==> |image.value| >= FrameBytes
      modifies this`lastLut, this`lastLutHasValue, if mgr == null then {} else {mgr, mgr.q}
      ensures mgr == null ==> st == ErrParam && rest == dma && State() == old(State())
      ensures mgr != null ==> mgr.Valid() && mgr.Cfg() == old(mgr.Cfg())
      ensures mgr != null ==>
        var r := Display1GrayDmaRun(BusLink(), old(mgr.Cfg()), old(mgr.Abs()), old(State().cache), image, mode, dma);
        && st == r.status && mgr.Abs() == r.batch.bus && mgr.log == old(mgr.log) + r.batch.log
        && rest == r.batch.dma && State() == old(State()).(cache := r.cache)
    {
      if mgr == null || image.None? {
        return ErrParam, dma;
      }
      ghost var log0 := mgr.log;
      var n;
      n, rest := SubmitInOrder(mgr, Display1GrayDmaFrame(BusLink(), image.value), dma);
      if n < 10 {
        return SpiBusErr, rest;
      }
      ghost var log1 := mgr.log;
      st, rest := EnqueueLut(mgr, ModeToLut(mode, true), rest);
      if st != Ok {
        SpiBusTypes.ConcatAssoc(log0, log1[|log0|..], mgr.log[|log1|..]);
        return;
      }
      ghost var log2 := mgr.log;
      n, rest := SubmitInOrder(mgr, [UpdateTxn(BusLink())], rest);
      st := if n == 1 then Ok else SpiBusErr;
      SpiBusTypes.ConcatAssoc(log0, log1[|log0|..], log2[|log1|..]);
      SpiBusTypes.ConcatAssoc(log0, log1[|log0|..] + log2[|log1|..], mgr.log[|log2|..]);
    }

    /** `epd3in7_driver_sleep_dma`: a missing manager is ERR_PARAM; otherwise
      * the sleep descriptors are queued in order up to the first rejection.
      * The LUT cache and CS state are untouched. */
    method SleepDma(mgr: SpiBusApp.Manager?, mode: SleepMode, dma: seq<bool>) returns (st: Status, rest: seq<bool>)
      requires mgr != null ==> mgr.Valid()
      modifies if mgr == null then {} else {mgr, mgr.q}
      ensures mgr == null ==> st == ErrParam && rest == dma
      ensures mgr != null ==> mgr.Valid() && mgr.Cfg() == old(mgr.Cfg())
      ensures mgr != null ==>
        var (s, r) := SleepDmaRun(BusLink(), old(mgr.Cfg()), old(mgr.Abs()), mode, dma);
        && st == s && mgr.Abs() == r.bus && mgr.log == old(mgr.log) + r.log && rest == r.dma
    {
      if mgr == null {
        return ErrParam, dma;
      }
      var ts := SleepDmaTxns(BusLink(), mode);
      var n;
      n, rest := SubmitInOrder(mgr, ts, dma);
      st := if n == |ts| then Ok else SpiBusErr;
    }
  }
}
