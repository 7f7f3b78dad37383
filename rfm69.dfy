/** The RFM69 packet radio driver: register framing, operating modes, the
  * power-amplifier settings, the packet header a frame carries on the air
  * and the receive path that parses it.
  *
  * SPI is abstracted: every chip-select window the driver opens is one entry
  * of the `wire` log, and the radio's register file is a map from register
  * address to value that register writes update and register reads return.
  * Bytes are integers in 0..255. The driver's bit operations are written as
  * the arithmetic they amount to on the values involved; the `...Bits`
  * lemmas state each equivalence on the bit-vector side. Register addresses
  * and bit values are those of the standard RFM69 register map. */
module Rfm69 {
  import opened Common

  const RegFifo: byte := 0x00
  const RegOpMode: byte := 0x01
  const RegPaLevel: byte := 0x11
  const RegRssiValue: byte := 0x24
  const RegDioMapping1: byte := 0x25
  const RegIrqFlags1: byte := 0x27
  const RegIrqFlags2: byte := 0x28
  const RegPacketConfig2: byte := 0x3D
  const RegTestPa1: byte := 0x5A
  const RegTestPa2: byte := 0x5C

  const OpModeSleep: byte := 0x00
  const OpModeStandby: byte := 0x04
  const OpModeSynthesizer: byte := 0x08
  const OpModeTransmitter: byte := 0x0C
  const OpModeReceiver: byte := 0x10

  const PaLevelPa0: byte := 0x80
  const PaLevelPa1: byte := 0x40
  const PaLevelPa2: byte := 0x20

  const Packet2RxRestart: byte := 0x04
  const DioMapping1Dio0PayloadReady: byte := 0x40

  /** `RFM69_MAX_DATA_LEN`; the receive buffer `DATA` holds one byte more. */
  const MaxDataLen: nat := 61
  const BroadcastAddress: u16 := 0

  /** The length byte `InterruptHandler` clamps a received frame to, as
    * written, and the clamp that keeps the data inside `DATA`. The handler
    * below takes the clamp as a parameter so that both can be stated. */
  const RxClampAsWritten: nat := 66
  const RxClamp: nat := MaxDataLen + 3

  // ---- the bit operations, on the bit-vector side ----

  /** `addr & 0x7F` and `addr | 0x80`: the low seven bits, and those with
    * bit 7 set. */
  lemma AddressBits(b: bv8)
    ensures b & 0x7F == b % 0x80
    ensures b | 0x80 == b % 0x80 + 0x80
  {
  }

  /** `op & 0xE3` clears the mode field (bits 2 to 4), `| c` with a mode
    * constant fills it, and `& 0x1C` reads it back. */
  lemma ModeFieldBits(b: bv8, c: bv8)
    requires c & 0xE3 == 0
    ensures b & 0xE3 == b / 32 * 32 + b % 4
    ensures (b & 0xE3) | c == b / 32 * 32 + b % 4 + c
    ensures b & 0x1C == b / 4 % 8 * 4
  {
  }

  /** `pa | (v & 0x1F)` with amplifier bits `pa` in bits 5 to 7, and the
    * two fields of a PALEVEL value. */
  lemma PaLevelBits(pa: bv8, v: bv8)
    requires pa & 0x1F == 0
    ensures pa | (v & 0x1F) == pa + v % 32
    ensures v & 0xE0 == v / 32 * 32 && v & 0x1F == v % 32
  {
  }

  /** The flag tests `b & 0x04`, `b & 0x40` and `b & 0x80`, and
    * `(pc2 & 0xFB) | RF_PACKET2_RXRESTART`. */
  lemma FlagBits(b: bv8)
    ensures (b & 0x04 != 0) <==> b / 4 % 2 == 1
    ensures (b & 0x40 != 0) <==> b / 64 % 2 == 1
    ensures (b & 0x80 != 0) <==> b >= 0x80
    ensures (b & 0xFB) | 0x04 == b / 8 * 8 + b % 4 + 4
  {
  }

  /** The control byte's address bits: `(to & 0x300) >> 6` into bits 2 and
    * 3 of a byte whose low four bits are clear, `(me & 0x300) >> 8` into
    * bits 0 and 1 of one whose low two bits are clear, and the receiver's
    * `target | ((ctl & 0x0C) << 6)` and `sender | ((ctl & 0x03) << 8)`. */
  lemma CtlBits(c: bv8, a: bv16, lo: bv8, ctl: bv8)
    ensures c & 0x0F == 0 ==> c | ((a & 0x300) >> 6) as bv8 == c + (a / 256 % 4 * 4) as bv8
    ensures c & 0x03 == 0 ==> c | ((a & 0x300) >> 8) as bv8 == c + (a / 256 % 4) as bv8
    ensures (lo as bv16) | ((ctl & 0x0C) as bv16 << 6) == lo as bv16 + (ctl / 4 % 4) as bv16 * 256
    ensures (lo as bv16) | ((ctl & 0x03) as bv16 << 8) == lo as bv16 + (ctl % 4) as bv16 * 256
  {
  }

  // ---- modes ----

  datatype Mode = Sleep | Standby | Synth | Rx | Tx

  /** The OPMODE mode field of each mode. */
  function ModeBits(m: Mode): byte
  {
    match m
    case Sleep => OpModeSleep
    case Standby => OpModeStandby
    case Synth => OpModeSynthesizer
    case Rx => OpModeReceiver
    case Tx => OpModeTransmitter
  }

  /** The mode an OPMODE value selects, read from bits 2 to 4. */
  function ModeOf(op: byte): Option<Mode>
  {
    var f := op / 4 % 8 * 4;
    if f == OpModeSleep then Some(Sleep)
    else if f == OpModeStandby then Some(Standby)
    else if f == OpModeSynthesizer then Some(Synth)
    else if f == OpModeTransmitter then Some(Tx)
    else if f == OpModeReceiver then Some(Rx)
    else None
  }

  /** `op & 0xE3`: OPMODE without its mode field. */
  function ClearModeField(op: byte): (r: byte)
    ensures r <= 0xE3 && r % 4 == op % 4 && r / 32 == op / 32
  {
    op / 32 * 32 + op % 4
  }

  /** The OPMODE value `SetMode` writes: the bits outside the mode field as
    * read, and the new mode field. */
  function OpModeValue(op: byte, m: Mode): byte
  {
    ClearModeField(op) + ModeBits(m)
  }

  /** The written value selects the new mode and keeps every other bit. */
  lemma OpModeValueSelects(op: byte, m: Mode)
    ensures ClearModeField(OpModeValue(op, m)) == ClearModeField(op)
    ensures ModeOf(OpModeValue(op, m)) == Some(m)
  {
    var hi, f, lo := op / 32, ModeBits(m) / 4, op % 4;
    assert ModeBits(m) == f * 4 && f < 8;
    assert OpModeValue(op, m) == hi * 32 + f * 4 + lo;
    SplitOp(hi, f, lo);
  }

  /** The three fields of an OPMODE value put together from its parts. */
  lemma SplitOp(hi: int, f: int, lo: int)
    requires 0 <= hi < 8 && 0 <= f < 8 && 0 <= lo < 4
    ensures (hi * 32 + f * 4 + lo) / 32 == hi && (hi * 32 + f * 4 + lo) % 4 == lo
    ensures (hi * 32 + f * 4 + lo) / 4 % 8 == f
  {
  }

  /** A second mode change overrides the first. */
  lemma OpModeValueTwice(op: byte, m1: Mode, m2: Mode)
    ensures OpModeValue(OpModeValue(op, m1), m2) == OpModeValue(op, m2)
  {
    OpModeValueSelects(op, m1);
  }

  // ---- register windows ----

  /** One chip-select window: a register read or write (`RFM69_ReadReg`,
    * `RFM69_WriteReg`, with the seven-bit register address), or a FIFO
    * burst whose bytes are given. */
  datatype Window = Read(reg: byte) | Write(reg: byte, value: byte) | Burst(tx: seq<byte>)

  /** The bytes a window clocks out: the address with bit 7 clear and a
    * dummy byte for a read, with bit 7 set and the value for a write. */
  function Bytes(w: Window): seq<byte>
  {
    match w
    case Read(r) => [r % 0x80, 0x00]
    case Write(r, v) => [r % 0x80 + 0x80, v]
    case Burst(tx) => tx
  }

  /** A register file: registers missing from the map read 0. */
  type RegFile = map<int, byte>

  function Reg(regs: RegFile, a: int): byte
  {
    if a in regs then regs[a] else 0
  }

  /** What the radio makes of a window: a register write stores the value;
    * reads and FIFO bursts leave the registers as they are. */
  function Chip(regs: RegFile, w: Window): RegFile
  {
    if w.Write? then regs[w.reg := w.value] else regs
  }

  /** The radio's own reading of the bytes of a two-byte window: bit 7 of
    * the first byte marks a write to the register its low seven bits name. */
  function RadioSees(regs: RegFile, tx: seq<byte>): RegFile
  {
    if |tx| == 2 && tx[0] >= 0x80 then regs[tx[0] % 0x80 := tx[1]] else regs
  }

  /** The bytes of a register window tell the radio what the window means. */
  lemma WindowBytesDecode(regs: RegFile, w: Window)
    requires !w.Burst? && w.reg < 0x80
    ensures RadioSees(regs, Bytes(w)) == Chip(regs, w)
    ensures Bytes(w)[0] % 0x80 == w.reg && (Bytes(w)[0] >= 0x80 <==> w.Write?)
  {
  }

  /** The register file after a sequence of windows. */
  function ApplyAll(regs: RegFile, ws: seq<Window>): RegFile
    decreases |ws|
  {
    if ws == [] then regs else ApplyAll(Chip(regs, ws[0]), ws[1..])
  }

  lemma {:induction false} ApplyAllConcat(regs: RegFile, a: seq<Window>, b: seq<Window>)
    ensures ApplyAll(regs, a + b) == ApplyAll(ApplyAll(regs, a), b)
    decreases |a|
  {
    if a == [] {
      assert a + b == b;
    } else {
      assert (a + b)[0] == a[0];
      assert (a + b)[1..] == a[1..] + b;
      ApplyAllConcat(Chip(regs, a[0]), a[1..], b);
    }
  }

  lemma ApplyAllSnoc(regs: RegFile, ws: seq<Window>, w: Window)
    ensures ApplyAll(regs, ws + [w]) == Chip(ApplyAll(regs, ws), w)
  {
    ApplyAllConcat(regs, ws, [w]);
    assert [w][1..] == [];
  }

  lemma ApplyPair(regs: RegFile, w0: Window, w1: Window)
    ensures ApplyAll(regs, [w0, w1]) == Chip(Chip(regs, w0), w1)
  {
    var r1 := Chip(regs, w0);
    assert [w0, w1][0] == w0 && [w0, w1][1..] == [w1];
    assert ApplyAll(regs, [w0, w1]) == ApplyAll(r1, [w1]);
    assert [w1][0] == w1 && [w1][1..] == [];
    assert ApplyAll(r1, [w1]) == ApplyAll(Chip(r1, w1), []);
    assert ApplyAll(Chip(r1, w1), []) == Chip(r1, w1);
  }

  /** Traffic logged in steps is the steps' traffic in order. */
  lemma Chain2(w0: seq<Window>, w1: seq<Window>, w2: seq<Window>, t1: seq<Window>, t2: seq<Window>)
    requires w1 == w0 + t1 && w2 == w1 + t2
    ensures w2 == w0 + (t1 + t2)
  {
  }

  lemma Chain3(w0: seq<Window>, w1: seq<Window>, w2: seq<Window>, w3: seq<Window>,
               t1: seq<Window>, t2: seq<Window>, t3: seq<Window>)
    requires w1 == w0 + t1 && w2 == w1 + t2 && w3 == w2 + t3
    ensures w3 == w0 + (t1 + t2 + t3)
  {
  }

  lemma Chain4(w0: seq<Window>, w1: seq<Window>, w2: seq<Window>, w3: seq<Window>, w4: seq<Window>,
               t1: seq<Window>, t2: seq<Window>, t3: seq<Window>, t4: seq<Window>)
    requires w1 == w0 + t1 && w2 == w1 + t2 && w3 == w2 + t3 && w4 == w3 + t4
    ensures w4 == w0 + (t1 + t2 + t3 + t4)
  {
  }

  // ---- mode changes ----

  /** The high-power test registers `SetMode` writes on entering `m`: the
    * +20 dBm settings for TX on a high-power module at level 20 or more,
    * the normal settings for RX on a high-power module. */
  function PaFrames(hw: bool, power: byte, m: Mode): seq<Window>
  {
    if m == Tx && hw && power >= 20 then [Write(RegTestPa1, 0x5D), Write(RegTestPa2, 0x7C)]
    else if m == Rx && hw then [Write(RegTestPa1, 0x55), Write(RegTestPa2, 0x70)]
    else []
  }

  /** The traffic of `RFM69_SetMode(m)` from mode `cur` with OPMODE
    * holding `op`: nothing when the mode does not change; otherwise the
    * OPMODE read, the writes of the `switch`, and the ModeReady poll when
    * leaving sleep. */
  function ModeFrames(hw: bool, power: byte, cur: Mode, op: byte, m: Mode): seq<Window>
  {
    if cur == m then []
    else [Read(RegOpMode)] + EnterFrames(hw, power, OpModeValue(op, m), m) + ReadyPoll(cur)
  }

  /** The wait for ModeReady in IRQFLAGS1 that `SetMode` makes after
    * leaving sleep, as the one read that finds the flag set. */
  function ReadyPoll(cur: Mode): seq<Window>
  {
    if cur == Sleep then [Read(RegIrqFlags1)] else []
  }

  /** A mode change polls IRQFLAGS1 exactly when it leaves sleep, and the
    * poll is its last window. */
  lemma ModeFramesPoll(hw: bool, power: byte, cur: Mode, op: byte, m: Mode)
    requires cur != m
    ensures var f := ModeFrames(hw, power, cur, op, m);
      && (Read(RegIrqFlags1) in f <==> cur == Sleep)
      && (cur == Sleep ==> f[|f| - 1] == Read(RegIrqFlags1))
  {
    var e := EnterFrames(hw, power, OpModeValue(op, m), m);
    assert forall i :: 0 <= i < |e| ==> e[i].Write?;
    assert ModeFrames(hw, power, cur, op, m) == [Read(RegOpMode)] + e + ReadyPoll(cur);
  }

  /** The writes of `SetMode`'s `switch`: OPMODE gets `v`, then the
    * power-amplifier test registers. */
  function EnterFrames(hw: bool, power: byte, v: byte, m: Mode): seq<Window>
  {
    [Write(RegOpMode, v)] + PaFrames(hw, power, m)
  }

  /** The registers a mode change may touch. */
  predicate ModeRegister(k: int)
  {
    k == RegOpMode as int || k == RegTestPa1 as int || k == RegTestPa2 as int
  }

  lemma ModeFramesKeep(regs: RegFile, hw: bool, power: byte, cur: Mode, m: Mode, k: int)
    requires !ModeRegister(k)
    ensures Reg(ApplyAll(regs, ModeFrames(hw, power, cur, Reg(regs, RegOpMode), m)), k) == Reg(regs, k)
  {
    ModeFramesEffect(regs, hw, power, cur, m);
  }

  /** A mode change leaves OPMODE selecting the new mode, with its other
    * bits as they were, and touches no register but OPMODE and the two
    * power-amplifier test registers. */
  lemma ModeFramesEffect(regs: RegFile, hw: bool, power: byte, cur: Mode, m: Mode)
    ensures var r := ApplyAll(regs, ModeFrames(hw, power, cur, Reg(regs, RegOpMode), m));
      && Reg(r, RegOpMode) == (if cur == m then Reg(regs, RegOpMode) else OpModeValue(Reg(regs, RegOpMode), m))
      && ModeOf(Reg(r, RegOpMode)) == (if cur == m then ModeOf(Reg(regs, RegOpMode)) else Some(m))
      && (forall k :: !ModeRegister(k) ==> Reg(r, k) == Reg(regs, k))
  {
    var op := Reg(regs, RegOpMode);
    if cur == m {
      assert ModeFrames(hw, power, cur, op, m) == [];
    } else {
      var v := OpModeValue(op, m);
      var r1: RegFile := regs[RegOpMode as int := v];
      ModeFramesSplit(regs, hw, power, cur, op, m);
      PaFramesEffect(r1, hw, power, m);
      OpModeValueSelects(op, m);
    }
  }

  /** A mode change is the OPMODE write followed by the test-register writes. */
  lemma ModeFramesSplit(regs: RegFile, hw: bool, power: byte, cur: Mode, op: byte, m: Mode)
    requires cur != m
    ensures ApplyAll(regs, ModeFrames(hw, power, cur, op, m))
         == ApplyAll(regs[RegOpMode as int := OpModeValue(op, m)], PaFrames(hw, power, m))
  {
    var v := OpModeValue(op, m);
    var pa := PaFrames(hw, power, m);
    var poll := ReadyPoll(cur);
    var head := [Read(RegOpMode), Write(RegOpMode, v)];
    assert ModeFrames(hw, power, cur, op, m) == head + pa + poll;
    ApplyAllConcat(regs, head + pa, poll);
    ApplyAllConcat(regs, head, pa);
    ApplyPair(regs, Read(RegOpMode), Write(RegOpMode, v));
  }

  /** The power-amplifier writes touch only the two test registers. */
  lemma PaFramesEffect(r1: RegFile, hw: bool, power: byte, m: Mode)
    ensures var r := ApplyAll(r1, PaFrames(hw, power, m));
      && Reg(r, RegOpMode) == Reg(r1, RegOpMode)
      && (forall k :: !ModeRegister(k) ==> Reg(r, k) == Reg(r1, k))
  {
    var pa := PaFrames(hw, power, m);
    if pa == [] {
      assert ApplyAll(r1, pa) == r1;
    } else {
      assert pa == [pa[0], pa[1]];
      ApplyPair(r1, pa[0], pa[1]);
      assert ApplyAll(r1, pa) == r1[RegTestPa1 as int := pa[0].value][RegTestPa2 as int := pa[1].value];
    }
  }

  // ---- power ----

  /** The level `RFM69_SetPowerLevel` keeps: at most 23 on a high-power
    * (HW/HCW) module, at most 31 on a W/CW module. */
  function ClampLevel(hw: bool, level: byte): (l: byte)
    ensures l == (if level > (if hw then 23 else 31) then (if hw then 23 else 31) else level)
  {
    if hw then (if level > 23 then 23 else level) else (if level > 31 then 31 else level)
  }

  /** The PALEVEL value `RFM69_SetPowerLevel` writes, `pa | (regVal & 0x1F)`. */
  function PaLevelValue(hw: bool, level: byte): byte
  {
    var l := ClampLevel(hw, level);
    if hw then
      if l < 16 then PaLevelPa1 + (l + 16) % 32
      else PaLevelPa1 + PaLevelPa2 + (l + if l < 20 then 10 else 8) % 32
    else PaLevelPa0 + l % 32
  }

  /** The amplifiers and the 5-bit output-power field of each level: PA0
    * with the level itself on a W module; on a high-power module PA1 with
    * level + 16 below 16, PA1 and PA2 with level + 10 up to 19 and with
    * level + 8 from 20. */
  lemma PaLevelFields(hw: bool, level: byte)
    ensures var v := PaLevelValue(hw, level); var l := ClampLevel(hw, level);
      && (!hw ==> v / 32 * 32 == PaLevelPa0 && v % 32 == l)
      && (hw && l < 16 ==> v / 32 * 32 == PaLevelPa1 && v % 32 == l + 16)
      && (hw && 16 <= l < 20 ==> v / 32 * 32 == PaLevelPa1 + PaLevelPa2 && v % 32 == l + 10)
      && (hw && 20 <= l ==> v / 32 * 32 == PaLevelPa1 + PaLevelPa2 && v % 32 == l + 8)
  {
  }

  /** The output power, in dBm, of a PALEVEL value by the RFM69 datasheet's
    * power-amplifier table: PA0 or PA1 alone give -18 + field, PA1 and PA2
    * together -14 + field, or -11 + field with the +20 dBm test-register
    * settings (`boost`). */
  function OutputDBm(pa: byte, boost: bool): Option<int>
  {
    var p := pa % 32;
    var sel := pa / 32 * 32;
    if sel == PaLevelPa0 || sel == PaLevelPa1 then Some(-18 + p)
    else if sel == PaLevelPa1 + PaLevelPa2 then Some(if boost then -11 + p else -14 + p)
    else None
  }

  /** The dBm `RFM69_SetPowerDBm` keeps and returns: -2..20 on a
    * high-power module, -18..13 on a W module. */
  function ClampDBm(hw: bool, dBm: int): (d: int)
    ensures hw ==> -2 <= d <= 20
    ensures !hw ==> -18 <= d <= 13
    ensures (hw && -2 <= dBm <= 20) || (!hw && -18 <= dBm <= 13) ==> d == dBm
    ensures hw && dBm < -2 ==> d == -2
    ensures hw && dBm > 20 ==> d == 20
    ensures !hw && dBm < -18 ==> d == -18
    ensures !hw && dBm > 13 ==> d == 13
  {
    if hw then (if dBm < -2 then -2 else if dBm > 20 then 20 else dBm)
    else (if dBm < -18 then -18 else if dBm > 13 then 13 else dBm)
  }

  /** The level `RFM69_SetPowerDBm` asks for once the dBm is clamped. */
  function LevelForDBm(hw: bool, d: int): byte
    requires hw ==> -2 <= d <= 20
    requires !hw ==> -18 <= d <= 13
  {
    if hw then (if d < 12 then 2 + d else if d < 16 then 4 + d else 3 + d)
    else 18 + d
  }

  /** The level chosen for a dBm value is the one the module transmits that
    * power at: exactly the clamped dBm on a W module and on a high-power
    * module for every value but 16 dBm, which comes out at 15 dBm (level
    * 19 is the top of the un-boosted range). The boost is on exactly when
    * the kept level is 20 or more, as `SetMode` decides for TX. */
  lemma DBmTransmitted(hw: bool, dBm: int)
    ensures var d := ClampDBm(hw, dBm); var l := ClampLevel(hw, LevelForDBm(hw, d));
      && l == LevelForDBm(hw, d)
      && OutputDBm(PaLevelValue(hw, l), hw && l >= 20) == Some(if hw && d == 16 then 15 else d)
  {
    var d := ClampDBm(hw, dBm);
    PaLevelFields(hw, LevelForDBm(hw, d));
  }

  // ---- packet header ----

  /** The control byte of a frame: 0x80 for an ACK, else 0x40 when an ACK
    * is requested, with bits 8 and 9 of the target in bits 2 and 3 and
    * bits 8 and 9 of the sender in bits 0 and 1. */
  function Ctl(to: u16, me: u16, reqAck: bool, sendAck: bool): byte
  {
    var c := if sendAck then 0x80 else if reqAck then 0x40 else 0x00;
    var c := if to > 0xFF then c + to / 256 % 4 * 4 else c;
    if me > 0xFF then c + me / 256 % 4 else c
  }

  /** The bytes `RFM69_SendFrame` writes into the FIFO in one window: the
    * FIFO write address, the length (payload plus three header bytes), the
    * low bytes of target and sender, the control byte and the payload. */
  function FifoFrame(to: u16, me: u16, payload: seq<byte>, reqAck: bool, sendAck: bool): (f: seq<byte>)
    requires |payload| <= MaxDataLen
    ensures |f| == 5 + |payload|
  {
    [RegFifo + 0x80, |payload| + 3, to % 256, me % 256, Ctl(to, me, reqAck, sendAck)] + payload
  }

  /** A byte the receiver clocks out of the FIFO: past the end of what the
    * radio holds the model reads 0. */
  function FifoByte(fifo: seq<byte>, i: nat): byte
  {
    if i < |fifo| then fifo[i] else 0
  }

  /** `DATA` after an accepted frame of `n` payload bytes, against `d0`
    * before it: the payload from FIFO offset 4 on, the terminating zero
    * when `n` is below `RFM69_MAX_DATA_LEN` (otherwise that byte keeps its
    * old value), and the rest untouched. */
  ghost predicate StoredPayload(d: seq<byte>, d0: seq<byte>, n: int, fifo: seq<byte>)
  {
    && |d| == |d0| && 0 <= n <= |d|
    && (forall i :: 0 <= i < n ==> d[i] == FifoByte(fifo, 4 + i))
    && (n < MaxDataLen && n < |d| ==> d[n] == 0)
    && (MaxDataLen <= n < |d| ==> d[n] == d0[n])
    && (forall i :: n < i < |d| ==> d[i] == d0[i])
  }

  datatype Header = Header(payloadLen: nat, target: u16, sender: u16, ctl: byte)

  /** The header `InterruptHandler` reads: the length byte clamped to
    * `clamp`, then target, sender and control byte, with the two high
    * address bits of each taken back out of the control byte. */
  function ParseHeader(fifo: seq<byte>, clamp: nat): (h: Header)
    ensures h.payloadLen <= clamp && h.payloadLen <= FifoByte(fifo, 0)
  {
    var len := FifoByte(fifo, 0);
    var ctl := FifoByte(fifo, 3);
    Header(if len > clamp then clamp else len,
           FifoByte(fifo, 1) + ctl / 4 % 4 * 256,
           FifoByte(fifo, 2) + ctl % 4 * 256,
           ctl)
  }

  /** The two flags of a control byte (`ctl & 0x80`, `ctl & 0x40`). */
  predicate AckFlag(ctl: byte)
  {
    ctl >= 0x80
  }

  predicate AckRequestFlag(ctl: byte)
  {
    ctl / 64 % 2 == 1
  }

  /** The acceptance rule: at least the three header bytes, addressed to
    * this node or to the broadcast address. */
  predicate Accepts(h: Header, address: u16)
  {
    h.payloadLen >= 3 && (h.target == address || h.target == BroadcastAddress)
  }

  /** A byte built from a two-bit flag field, two address bits and two
    * more address bits gives each back. */
  lemma CtlDigits(f: nat, tb: nat, mb: nat)
    requires f < 4 && tb < 4 && mb < 4
    ensures (f * 64 + tb * 4 + mb) / 4 % 4 == tb
    ensures (f * 64 + tb * 4 + mb) % 4 == mb
    ensures (f * 64 + tb * 4 + mb) / 64 == f
  {
    var c := f * 64 + tb * 4 + mb;
    assert c == 4 * (f * 16 + tb) + mb;
    assert c / 4 == f * 16 + tb;
    assert c == 64 * f + (tb * 4 + mb);
  }

  /** The control byte carries the flags and the high address bits apart. */
  lemma CtlRoundTrip(to: u16, me: u16, reqAck: bool, sendAck: bool)
    requires to <= 0x3FF && me <= 0x3FF
    ensures var c := Ctl(to, me, reqAck, sendAck);
      && to % 256 + c / 4 % 4 * 256 == to
      && me % 256 + c % 4 * 256 == me
      && (AckFlag(c) <==> sendAck)
      && (AckRequestFlag(c) <==> reqAck && !sendAck)
  {
    var f := if sendAck then 2 else if reqAck then 1 else 0;
    var tb := to / 256;
    var mb := me / 256;
    assert to > 0xFF <==> tb != 0;
    assert me > 0xFF <==> mb != 0;
    var c := Ctl(to, me, reqAck, sendAck);
    assert c == f * 64 + tb * 4 + mb;
    CtlDigits(f, tb, mb);
  }

  /** What a receiver parses from a frame a sender put on the air: the FIFO
    * of the receiving radio holds the sender's window after its address
    * byte. For 10-bit addresses the header round-trips: the payload length,
    * both addresses and the two ACK flags come back as sent, and the data
    * follows the header. A sent frame is never longer than `RxClamp`, so this
    * holds at the corrected clamp and at the clamp as written alike. */
  lemma HeaderRoundTrip(to: u16, me: u16, payload: seq<byte>, reqAck: bool, sendAck: bool, clamp: nat)
    requires to <= 0x3FF && me <= 0x3FF && |payload| <= MaxDataLen && clamp >= RxClamp
    ensures var f := FifoFrame(to, me, payload, reqAck, sendAck)[1..];
      var h := ParseHeader(f, clamp);
      && h.payloadLen == |payload| + 3
      && h.target == to && h.sender == me
      && (AckFlag(h.ctl) <==> sendAck)
      && (AckRequestFlag(h.ctl) <==> reqAck && !sendAck)
      && f[4..] == payload
  {
    var f := FifoFrame(to, me, payload, reqAck, sendAck)[1..];
    assert FifoByte(f, 0) == |payload| + 3;
    assert FifoByte(f, 1) == to % 256;
    assert FifoByte(f, 2) == me % 256;
    assert FifoByte(f, 3) == Ctl(to, me, reqAck, sendAck);
    CtlRoundTrip(to, me, reqAck, sendAck);
  }

  /** A frame from `SendFrame` passes the receiver's acceptance rule exactly
    * when it is addressed to the receiver or broadcast. */
  lemma SentFrameAccepted(to: u16, me: u16, payload: seq<byte>, reqAck: bool, sendAck: bool, receiver: u16, clamp: nat)
    requires to <= 0x3FF && me <= 0x3FF && |payload| <= MaxDataLen && clamp >= RxClamp
    ensures Accepts(ParseHeader(FifoFrame(to, me, payload, reqAck, sendAck)[1..], clamp), receiver)
      <==> to == receiver || to == BroadcastAddress
  {
    HeaderRoundTrip(to, me, payload, reqAck, sendAck, clamp);
  }

  /** `RFM69_ACKRequested`: the stored ACK-request flag, for a frame whose
    * target is this node. */
  predicate AckRequestedFor(ackRequested: bool, target: u16, address: u16)
  {
    ackRequested && target == address
  }

  /** A receiver is asked for an ACK by a frame from `SendFrame` exactly when
    * the sender requested one, the frame is not itself an ACK, and it was
    * addressed to that receiver: a broadcast never asks a node for an ACK
    * unless the node's own address is the broadcast address. */
  lemma SentFrameAckRequested(to: u16, me: u16, payload: seq<byte>, reqAck: bool, sendAck: bool, receiver: u16, clamp: nat)
    requires to <= 0x3FF && me <= 0x3FF && |payload| <= MaxDataLen && clamp >= RxClamp
    ensures var h := ParseHeader(FifoFrame(to, me, payload, reqAck, sendAck)[1..], clamp);
      AckRequestedFor(AckRequestFlag(h.ctl), h.target, receiver) <==> reqAck && !sendAck && to == receiver
  {
    HeaderRoundTrip(to, me, payload, reqAck, sendAck, clamp);
  }

  /** The data length the receive path derives from an accepted header. */
  function DataLen(h: Header): int
  {
    h.payloadLen - 3
  }

  /** The handler stays inside `DATA` (`MaxDataLen + 1` bytes) on the FIFO
    * contents `fifo`: an accepted frame's data fits the buffer. */
  predicate NoOverrun(fifo: seq<byte>, clamp: nat, address: u16)
  {
    Accepts(ParseHeader(fifo, clamp), address) ==> DataLen(ParseHeader(fifo, clamp)) <= MaxDataLen + 1
  }

  /** As written, the length byte is clamped to 66, so an accepted frame can
    * claim 63 data bytes while `DATA` holds `MaxDataLen + 1` = 62: a length
    * byte of 66 overruns the buffer by one. */
  lemma RxClampOverrunsData()
    ensures var h := ParseHeader([66, 0, 0, 0], RxClampAsWritten);
      Accepts(h, 0) && DataLen(h) == 63 && DataLen(h) > MaxDataLen + 1
      && !NoOverrun([66, 0, 0, 0], RxClampAsWritten, 0)
  {
  }

  /** As written the handler stays inside `DATA` exactly for the frames it
    * rejects and the accepted ones whose length byte is at most 65. */
  lemma RxClampAsWrittenFits(fifo: seq<byte>, address: u16)
    ensures NoOverrun(fifo, RxClampAsWritten, address)
      <==> !Accepts(ParseHeader(fifo, RxClampAsWritten), address) || FifoByte(fifo, 0) <= MaxDataLen + 4
  {
  }

  /** With the clamp at `MaxDataLen + 3`, every accepted frame's data fits
    * in `DATA`, with room for the terminator the handler writes after it
    * when the data is shorter than `MaxDataLen`. */
  lemma RxClampFits(fifo: seq<byte>, address: u16)
    ensures NoOverrun(fifo, RxClamp, address)
    ensures Accepts(ParseHeader(fifo, RxClamp), address) ==> 0 <= DataLen(ParseHeader(fifo, RxClamp)) <= MaxDataLen
  {
  }

  /** `RFM69_ReadRSSI` without a forced measurement: the negated register
    * value halved by an arithmetic right shift (rounding down). */
  function RssiOf(v: byte): int
  {
    (-(v as int)) / 2
  }

  /** The signal strength lies in -128..0 and is the negated register value
    * halved, rounded toward minus infinity. */
  lemma RssiOfRange(v: byte)
    ensures -128 <= RssiOf(v) <= 0
    ensures 2 * RssiOf(v) <= -(v as int) < 2 * RssiOf(v) + 2
  {
  }

  /** `IRQFLAGS2 & RF_IRQFLAGS2_PAYLOADREADY`. */
  predicate PayloadReady(irq2: byte)
  {
    irq2 / 4 % 2 == 1
  }

  /** `(pc2 & 0xFB) | RF_PACKET2_RXRESTART`: PACKETCONFIG2 with the
    * restart bit set and every other bit kept. */
  function RxRestart(pc2: byte): (r: byte)
    ensures r / 4 % 2 == 1 && r / 8 == pc2 / 8 && r % 4 == pc2 % 4
  {
    pc2 / 8 * 8 + pc2 % 4 + Packet2RxRestart
  }

  // ---- traffic of the composite operations ----

  /** `RFM69_SendFrame` from mode `cur` with OPMODE holding `op`: standby
    * and the wait for ModeReady, the FIFO window, transmit and the wait
    * for PacketSent, standby again. */
  function SendTraffic(hw: bool, power: byte, cur: Mode, op: byte, fifo: seq<byte>): seq<Window>
  {
    var o1 := if cur == Standby then op else OpModeValue(op, Standby);
    ModeFrames(hw, power, cur, op, Standby) + [Read(RegIrqFlags1), Burst(fifo)]
      + (ModeFrames(hw, power, Standby, o1, Tx) + [Read(RegIrqFlags2)])
      + ModeFrames(hw, power, Tx, OpModeValue(o1, Tx), Standby)
  }

  /** The traffic of `SendFrame` is the change to standby followed by what
    * it sends from standby. */
  lemma SendTrafficSplit(hw: bool, power: byte, cur: Mode, op: byte, fifo: seq<byte>)
    ensures var o1 := if cur == Standby then op else OpModeValue(op, Standby);
      SendTraffic(hw, power, cur, op, fifo)
        == ModeFrames(hw, power, cur, op, Standby)
           + ([Read(RegIrqFlags1), Burst(fifo)] + (ModeFrames(hw, power, Standby, o1, Tx) + [Read(RegIrqFlags2)])
              + ModeFrames(hw, power, Tx, OpModeValue(o1, Tx), Standby))
  {
  }

  /** `RFM69_ReceiveBegin` from mode `cur`, given the OPMODE, IRQFLAGS2 and
    * PACKETCONFIG2 registers: when a payload is waiting the receiver is
    * restarted; DIO0 is mapped to PayloadReady and the radio enters RX. */
  function BeginTraffic(hw: bool, power: byte, cur: Mode, op: byte, irq2: byte, pc2: byte): seq<Window>
  {
    RestartTraffic(irq2, pc2)
      + [Write(RegDioMapping1, DioMapping1Dio0PayloadReady)]
      + ModeFrames(hw, power, cur, op, Rx)
  }

  /** The first step of `ReceiveBegin`: IRQFLAGS2 is read, and the
    * receiver restarted when a payload is waiting. */
  function RestartTraffic(irq2: byte, pc2: byte): seq<Window>
  {
    [Read(RegIrqFlags2)]
      + if PayloadReady(irq2)
        then [Read(RegPacketConfig2), Write(RegPacketConfig2, RxRestart(pc2))]
        else []
  }

  /** `RFM69_InterruptHandler` once a payload is ready: standby, the FIFO
    * read, then back to RX with the signal strength, or the restart through
    * `ReceiveBegin` when the frame is rejected. */
  function PayloadTraffic(hw: bool, power: byte, regs: RegFile, fifo: seq<byte>, clamp: nat, address: u16): seq<Window>
  {
    OpenTraffic(hw, power, Reg(regs, RegOpMode)) + HeaderTraffic(hw, power, regs, fifo, clamp, address)
  }

  /** Standby, and the window that reads the FIFO. */
  function OpenTraffic(hw: bool, power: byte, op: byte): seq<Window>
  {
    ModeFrames(hw, power, Rx, op, Standby) + [Burst([RegFifo % 0x80])]
  }

  /** After the header: back to RX and the signal strength for an accepted
    * frame, `ReceiveBegin` for a rejected one. */
  function HeaderTraffic(hw: bool, power: byte, regs: RegFile, fifo: seq<byte>, clamp: nat, address: u16): seq<Window>
  {
    var o1 := OpModeValue(Reg(regs, RegOpMode), Standby);
    if Accepts(ParseHeader(fifo, clamp), address)
    then ModeFrames(hw, power, Standby, o1, Rx) + [Read(RegRssiValue)]
    else BeginTraffic(hw, power, Standby, o1, Reg(regs, RegIrqFlags2), Reg(regs, RegPacketConfig2))
  }

  /** In RX the handler reads IRQFLAGS2 first, then either takes the
    * payload or only reads the signal strength. */
  lemma HandlerTrafficRx(hw: bool, power: byte, regs: RegFile, fifo: seq<byte>, clamp: nat, address: u16)
    ensures HandlerTraffic(hw, power, Rx, regs, fifo, clamp, address)
      == [Read(RegIrqFlags2)] + if PayloadReady(Reg(regs, RegIrqFlags2)) then PayloadTraffic(hw, power, regs, fifo, clamp, address)
                                else [Read(RegRssiValue)]
  {
  }

  /** `RFM69_InterruptHandler` from mode `cur` on the register file `regs`
    * and the FIFO contents `fifo`. */
  function HandlerTraffic(hw: bool, power: byte, cur: Mode, regs: RegFile, fifo: seq<byte>, clamp: nat, address: u16): seq<Window>
  {
    if cur != Rx then [Read(RegRssiValue)]
    else if !PayloadReady(Reg(regs, RegIrqFlags2)) then [Read(RegIrqFlags2), Read(RegRssiValue)]
    else [Read(RegIrqFlags2)] + PayloadTraffic(hw, power, regs, fifo, clamp, address)
  }

  /** `RFM69_HandleTypeDef`, with the radio it talks to. */
  class Radio {
    const isHW: bool
    var address: u16
    var mode: Mode
    var powerLevel: byte
    /** `DATA`: the received payload, NUL-terminated when shorter than
      * `MaxDataLen`. */
    const data: array<byte>
    var dataLen: byte
    var senderId: u16
    var targetId: u16
    var payloadLen: byte
    var ackRequested: bool
    var ackReceived: bool
    var rssi: int
    /** The radio's register file. */
    var chip: RegFile
    /** The chip-select windows the driver opened, in order. */
    var wire: seq<Window>
    /** The register file before the first window. */
    ghost const chip0: RegFile

    /** The register file is what the windows on the wire made of it. */
    ghost predicate Valid()
      reads this`chip, this`wire
    {
      data.Length == MaxDataLen + 1 && chip == ApplyAll(chip0, wire)
    }

    /** The handle as `RFM69_Init` sets it up before it talks to the radio:
      * standby, power level 31, nothing received. */
    constructor (isHW: bool, address: u16, chip: RegFile)
      ensures Valid() && fresh(data)
      ensures this.isHW == isHW && this.address == address && this.chip == chip
      ensures mode == Standby && powerLevel == 31 && wire == []
      ensures dataLen == 0 && payloadLen == 0 && !ackRequested && !ackReceived
    {
      this.isHW := isHW;
      this.address := address;
      this.chip := chip;
      chip0 := chip;
      mode := Standby;
      powerLevel := 31;
      data := new byte[MaxDataLen + 1](_ => 0);
      dataLen, payloadLen := 0, 0;
      senderId, targetId := 0, 0;
      ackRequested, ackReceived := false, false;
      rssi := 0;
      wire := [];
    }

    /** Opens one window and lets the radio act on it. */
    method Transfer(w: Window)
      requires Valid()
      modifies this`wire, this`chip
      ensures Valid()
      ensures wire == old(wire) + [w] && chip == Chip(old(chip), w)
    {
      ApplyAllSnoc(chip0, wire, w);
      wire := wire + [w];
      chip := Chip(chip, w);
    }

    /** `RFM69_ReadReg`: the value of the register the low seven bits of
      * `addr` name. */
    method ReadReg(addr: byte) returns (v: byte)
      requires Valid()
      modifies this`wire, this`chip
      ensures Valid()
      ensures wire == old(wire) + [Read(addr % 0x80)] && chip == old(chip)
      ensures v == Reg(chip, addr % 0x80)
    {
      Transfer(Read(addr % 0x80));
      v := Reg(chip, addr % 0x80);
    }

    /** `RFM69_WriteReg`. */
    method WriteReg(addr: byte, value: byte)
      requires Valid()
      modifies this`wire, this`chip
      ensures Valid()
      ensures wire == old(wire) + [Write(addr % 0x80, value)]
      ensures chip == old(chip)[addr % 0x80 := value]
    {
      Transfer(Write(addr % 0x80, value));
    }

    /** `RFM69_SetMode`: OPMODE ends up selecting `m` with its other bits
      * kept, and no register but OPMODE and the power-amplifier test
      * registers changes. */
    method SetMode(m: Mode)
      requires Valid()
      modifies this`wire, this`chip, this`mode
      ensures Valid() && mode == m
      ensures wire == old(wire) + ModeFrames(isHW, powerLevel, old(mode), Reg(old(chip), RegOpMode), m)
      ensures Reg(chip, RegOpMode) == if old(mode) == m then Reg(old(chip), RegOpMode) else OpModeValue(Reg(old(chip), RegOpMode), m)
      ensures ModeOf(Reg(chip, RegOpMode)) == if old(mode) == m then ModeOf(Reg(old(chip), RegOpMode)) else Some(m)
      ensures chip == ApplyAll(old(chip), ModeFrames(isHW, powerLevel, old(mode), Reg(old(chip), RegOpMode), m))
    {
      ModeFramesEffect(chip, isHW, powerLevel, mode, m);
      if mode == m {
        assert ModeFrames(isHW, powerLevel, mode, Reg(chip, RegOpMode), m) == [];
        return;
      }
      SwitchMode(m);
    }

    /** `RFM69_SetMode` when the mode changes: OPMODE read back, the writes
      * of the `switch`, and the wait for ModeReady when leaving sleep. */
    method SwitchMode(m: Mode)
      requires Valid() && mode != m
      modifies this`wire, this`chip, this`mode
      ensures Valid() && mode == m
      ensures wire == old(wire) + ModeFrames(isHW, powerLevel, old(mode), Reg(old(chip), RegOpMode), m)
      ensures chip == ApplyAll(old(chip), ModeFrames(isHW, powerLevel, old(mode), Reg(old(chip), RegOpMode), m))
    {
      ghost var w0, c0 := wire, chip;
      ghost var mf := ModeFrames(isHW, powerLevel, mode, Reg(chip, RegOpMode), m);
      var op := ReadReg(RegOpMode);
      ghost var w1 := wire;
      EnterMode(op, m);
      ghost var w2 := wire;
      if mode == Sleep {
        AwaitModeReady();
      }
      mode := m;
      Chain3(w0, w1, w2, wire, [Read(RegOpMode)], EnterFrames(isHW, powerLevel, OpModeValue(op, m), m), ReadyPoll(old(mode)));
      ApplyAllConcat(chip0, w0, mf);
    }

    /** `while ((RFM69_ReadReg(hrf, REG_IRQFLAGS1) & RF_IRQFLAGS1_MODEREADY) == 0);`,
      * as the read that finds ModeReady set. */
    method AwaitModeReady()
      requires Valid()
      modifies this`wire, this`chip
      ensures Valid()
      ensures wire == old(wire) + [Read(RegIrqFlags1)] && chip == old(chip)
    {
      var irq1 := ReadReg(RegIrqFlags1);
    }

    /** `while ((RFM69_ReadReg(hrf, REG_IRQFLAGS2) & RF_IRQFLAGS2_PACKETSENT) == 0);`,
      * as the read that finds PacketSent set. */
    method AwaitPacketSent()
      requires Valid()
      modifies this`wire, this`chip
      ensures Valid()
      ensures wire == old(wire) + [Read(RegIrqFlags2)] && chip == old(chip)
    {
      var irq2 := ReadReg(RegIrqFlags2);
    }

    /** The rest of `RFM69_SetMode` once OPMODE has been read as `v`: the
      * mode field cleared (`op = v & 0xE3`), then the `switch` with the
      * OPMODE write `op | RF_OPMODE_...` and the power-amplifier test
      * registers. */
    method EnterMode(v: byte, m: Mode)
      requires Valid()
      modifies this`wire, this`chip
      ensures Valid()
      ensures wire == old(wire) + EnterFrames(isHW, powerLevel, OpModeValue(v, m), m)
    {
      var op := ClearModeField(v);
      match m {
        case Tx =>
          WriteReg(RegOpMode, op + OpModeTransmitter);
          if isHW {
            if powerLevel >= 20 {
              WriteReg(RegTestPa1, 0x5D);
              WriteReg(RegTestPa2, 0x7C);
            }
          }
        case Rx =>
          WriteReg(RegOpMode, op + OpModeReceiver);
          if isHW {
            WriteReg(RegTestPa1, 0x55);
            WriteReg(RegTestPa2, 0x70);
          }
        case Synth =>
          WriteReg(RegOpMode, op + OpModeSynthesizer);
        case Standby =>
          WriteReg(RegOpMode, op + OpModeStandby);
        case Sleep =>
          WriteReg(RegOpMode, op + OpModeSleep);
      }
    }

    /** `RFM69_ReadRSSI(hrf, false)`. */
    method ReadRssi() returns (r: int)
      requires Valid()
      modifies this`wire, this`chip
      ensures Valid()
      ensures wire == old(wire) + [Read(RegRssiValue)] && chip == old(chip)
      ensures r == RssiOf(Reg(chip, RegRssiValue))
    {
      var v := ReadReg(RegRssiValue);
      r := (-(v as int)) / 2;
    }

    /** `RFM69_SetPowerLevel`. */
    method SetPowerLevel(level: byte)
      requires Valid()
      modifies this`powerLevel, this`wire, this`chip
      ensures Valid()
      ensures powerLevel == ClampLevel(isHW, level)
      ensures wire == old(wire) + [Write(RegPaLevel, PaLevelValue(isHW, level))]
      ensures chip == old(chip)[RegPaLevel as int := PaLevelValue(isHW, level)]
    {
      var level := level;
      var pa: byte := 0;
      if isHW {
        if level > 23 {
          level := 23;
        }
        powerLevel := level;
        var regVal: byte := level;
        if level < 16 {
          regVal := regVal + 16;
          pa := PaLevelPa1;
        } else {
          regVal := regVal + if level < 20 then 10 else 8;
          pa := PaLevelPa1 + PaLevelPa2;
        }
        WriteReg(RegPaLevel, pa + regVal % 32);
      } else {
        if level > 31 {
          level := 31;
        }
        powerLevel := level;
        pa := PaLevelPa0;
        WriteReg(RegPaLevel, pa + level % 32);
      }
    }

    /** `RFM69_SetPowerDBm`: returns the clamped dBm. */
    method SetPowerDBm(dBm: int) returns (r: int)
      requires -128 <= dBm < 128
      requires Valid()
      modifies this`powerLevel, this`wire, this`chip
      ensures Valid()
      ensures r == ClampDBm(isHW, dBm)
      ensures powerLevel == LevelForDBm(isHW, r)
      ensures wire == old(wire) + [Write(RegPaLevel, PaLevelValue(isHW, LevelForDBm(isHW, r)))]
      ensures chip == old(chip)[RegPaLevel as int := PaLevelValue(isHW, LevelForDBm(isHW, r))]
    {
      r := dBm;
      if isHW {
        if r < -2 {
          r := -2;
        } else if r > 20 {
          r := 20;
        }
        if r < 12 {
          SetPowerLevel(2 + r);
        } else if r < 16 {
          SetPowerLevel(4 + r);
        } else {
          SetPowerLevel(3 + r);
        }
      } else {
        if r < -18 {
          r := -18;
        } else if r > 13 {
          r := 13;
        }
        SetPowerLevel(18 + r);
      }
    }

    /** The control byte `RFM69_SendFrame` builds. */
    method BuildCtl(to: u16, reqAck: bool, sendAck: bool) returns (ctl: byte)
      ensures ctl == Ctl(to, address, reqAck, sendAck)
    {
      ctl := 0;
      if sendAck {
        ctl := 0x80;
      } else if reqAck {
        ctl := 0x40;
      }
      if to > 0xFF {
        ctl := ctl + to / 256 % 4 * 4;
      }
      if address > 0xFF {
        ctl := ctl + address / 256 % 4;
      }
    }

    /** `RFM69_SendFrame`: `buf` holds at least the (clamped) `len` bytes.
      * Each wait is the one read that ends it. */
    method SendFrame(to: u16, buf: seq<byte>, len: byte, reqAck: bool, sendAck: bool)
      requires Valid() && |buf| >= (if len > MaxDataLen then MaxDataLen else len)
      modifies this`wire, this`chip, this`mode
      ensures Valid() && mode == Standby
      ensures var n := if len > MaxDataLen then MaxDataLen else len;
        wire == old(wire) + SendTraffic(isHW, powerLevel, old(mode), Reg(old(chip), RegOpMode),
                                        FifoFrame(to, address, buf[..n], reqAck, sendAck))
    {
      var len := len;
      if len > MaxDataLen {
        len := MaxDataLen;
      }
      ghost var w0, c0, m0 := wire, chip, mode;
      ghost var o1 := if m0 == Standby then Reg(c0, RegOpMode) else OpModeValue(Reg(c0, RegOpMode), Standby);
      SendTrafficSplit(isHW, powerLevel, m0, Reg(c0, RegOpMode), FifoFrame(to, address, buf[..len], reqAck, sendAck));
      SetMode(Standby);
      ghost var w1 := wire;
      assert Reg(chip, RegOpMode) == o1;
      SendFromStandby(to, buf, len, reqAck, sendAck);
      Chain2(w0, w1, wire, ModeFrames(isHW, powerLevel, m0, Reg(c0, RegOpMode), Standby),
             [Read(RegIrqFlags1), Burst(FifoFrame(to, address, buf[..len], reqAck, sendAck))]
             + (ModeFrames(isHW, powerLevel, Standby, o1, Tx) + [Read(RegIrqFlags2)])
             + ModeFrames(isHW, powerLevel, Tx, OpModeValue(o1, Tx), Standby));
    }

    /** `SendFrame` once in standby: the FIFO write, transmit, standby. */
    method SendFromStandby(to: u16, buf: seq<byte>, len: byte, reqAck: bool, sendAck: bool)
      requires Valid() && mode == Standby && len <= MaxDataLen && |buf| >= len
      modifies this`wire, this`chip, this`mode
      ensures Valid() && mode == Standby
      ensures var op := Reg(old(chip), RegOpMode);
        wire == old(wire) + ([Read(RegIrqFlags1), Burst(FifoFrame(to, address, buf[..len], reqAck, sendAck))]
                             + (ModeFrames(isHW, powerLevel, Standby, op, Tx) + [Read(RegIrqFlags2)])
                             + ModeFrames(isHW, powerLevel, Tx, OpModeValue(op, Tx), Standby))
    {
      ghost var op := Reg(chip, RegOpMode);
      ghost var fifo := FifoFrame(to, address, buf[..len], reqAck, sendAck);
      LoadFifo(to, buf, len, reqAck, sendAck);
      ghost var w1 := wire;
      Transmit();
      ghost var w2 := wire;
      assert Reg(chip, RegOpMode) == OpModeValue(op, Tx);
      SetMode(Standby);
      Chain3(old(wire), w1, w2, wire, [Read(RegIrqFlags1), Burst(fifo)],
             ModeFrames(isHW, powerLevel, Standby, op, Tx) + [Read(RegIrqFlags2)],
             ModeFrames(isHW, powerLevel, Tx, OpModeValue(op, Tx), Standby));
    }

    /** The FIFO write of `SendFrame` once in standby: the wait for
      * ModeReady, then the frame in one window. */
    method LoadFifo(to: u16, buf: seq<byte>, len: byte, reqAck: bool, sendAck: bool)
      requires Valid() && len <= MaxDataLen && |buf| >= len
      modifies this`wire, this`chip
      ensures Valid() && chip == old(chip)
      ensures wire == old(wire) + [Read(RegIrqFlags1), Burst(FifoFrame(to, address, buf[..len], reqAck, sendAck))]
    {
      AwaitModeReady();
      var ctl := BuildCtl(to, reqAck, sendAck);
      var fifo := [RegFifo + 0x80, len + 3, to % 256, address % 256, ctl] + buf[..len];
      assert fifo == FifoFrame(to, address, buf[..len], reqAck, sendAck);
      Transfer(Burst(fifo));
    }

    /** `RFM69_SetMode(hrf, RF69_MODE_TX)` from standby and the wait for
      * PacketSent. */
    method Transmit()
      requires Valid() && mode == Standby
      modifies this`wire, this`chip, this`mode
      ensures Valid() && mode == Tx
      ensures wire == old(wire) + (ModeFrames(isHW, powerLevel, Standby, Reg(old(chip), RegOpMode), Tx) + [Read(RegIrqFlags2)])
      ensures Reg(chip, RegOpMode) == OpModeValue(Reg(old(chip), RegOpMode), Tx)
    {
      SetMode(Tx);
      AwaitPacketSent();
    }

    /** `RFM69_ReceiveBegin`. */
    method ReceiveBegin()
      requires Valid()
      modifies this`dataLen, this`senderId, this`targetId, this`payloadLen, this`ackRequested,
               this`ackReceived, this`rssi, this`wire, this`chip, this`mode
      ensures Valid()
      ensures dataLen == 0 && senderId == 0 && targetId == 0 && payloadLen == 0
      ensures !ackRequested && !ackReceived && rssi == 0 && mode == Rx
      ensures wire == old(wire) + BeginTraffic(isHW, powerLevel, old(mode), Reg(old(chip), RegOpMode),
                                               Reg(old(chip), RegIrqFlags2), Reg(old(chip), RegPacketConfig2))
    {
      ghost var w0, c0, m0 := wire, chip, mode;
      ghost var rt := RestartTraffic(Reg(c0, RegIrqFlags2), Reg(c0, RegPacketConfig2));
      ghost var lt := [Write(RegDioMapping1, DioMapping1Dio0PayloadReady)] + ModeFrames(isHW, powerLevel, m0, Reg(c0, RegOpMode), Rx);
      ghost var bt := BeginTraffic(isHW, powerLevel, m0, Reg(c0, RegOpMode), Reg(c0, RegIrqFlags2), Reg(c0, RegPacketConfig2));
      assert bt == rt + lt;
      ClearReception();
      RestartIfReady();
      ghost var w1 := wire;
      assert w1 == w0 + rt;
      ListenRx();
      assert wire == w1 + lt;
      Chain2(w0, w1, wire, rt, lt);
    }

    /** The end of `RFM69_ReceiveBegin`: DIO0 mapped to PayloadReady, then
      * RX. */
    method ListenRx()
      requires Valid()
      modifies this`wire, this`chip, this`mode
      ensures Valid() && mode == Rx
      ensures wire == old(wire) + ([Write(RegDioMapping1, DioMapping1Dio0PayloadReady)]
                                   + ModeFrames(isHW, powerLevel, old(mode), Reg(old(chip), RegOpMode), Rx))
    {
      ghost var w0, c0 := wire, chip;
      WriteReg(RegDioMapping1, DioMapping1Dio0PayloadReady);
      assert Reg(chip, RegOpMode) == Reg(c0, RegOpMode);
      ghost var w1 := wire;
      SetMode(Rx);
      Chain2(w0, w1, wire, [Write(RegDioMapping1, DioMapping1Dio0PayloadReady)],
             ModeFrames(isHW, powerLevel, old(mode), Reg(c0, RegOpMode), Rx));
    }

    /** The start of `RFM69_ReceiveBegin`: nothing received. */
    method ClearReception()
      modifies this`dataLen, this`senderId, this`targetId, this`payloadLen, this`ackRequested,
               this`ackReceived, this`rssi
      ensures dataLen == 0 && senderId == 0 && targetId == 0 && payloadLen == 0
      ensures !ackRequested && !ackReceived && rssi == 0
    {
      dataLen := 0;
      senderId := 0;
      targetId := 0;
      payloadLen := 0;
      ackRequested := false;
      ackReceived := false;
      rssi := 0;
    }

    /** The `if` of `RFM69_ReceiveBegin`: a waiting payload restarts the
      * receiver (PACKETCONFIG2 gets its restart bit). */
    method RestartIfReady()
      requires Valid()
      modifies this`wire, this`chip
      ensures Valid()
      ensures wire == old(wire) + RestartTraffic(Reg(old(chip), RegIrqFlags2), Reg(old(chip), RegPacketConfig2))
      ensures Reg(chip, RegOpMode) == Reg(old(chip), RegOpMode)
    {
      var irq2 := ReadReg(RegIrqFlags2);
      ghost var w1 := wire;
      if PayloadReady(irq2) {
        var pc2 := ReadReg(RegPacketConfig2);
        WriteReg(RegPacketConfig2, RxRestart(pc2));
        Chain2(old(wire), w1, wire, [Read(RegIrqFlags2)],
               [Read(RegPacketConfig2), Write(RegPacketConfig2, RxRestart(pc2))]);
      } else {
        assert wire == old(wire) + [Read(RegIrqFlags2)] + [];
      }
    }

    /** `RFM69_InterruptHandler`, with the FIFO contents `fifo` the radio
      * hands out and the length byte clamped to `clamp`: `RxClampAsWritten`
      * as the source has it, `RxClamp` corrected. The model covers the
      * frames whose data the handler keeps inside `DATA`, which at the
      * corrected clamp is every frame (`RxClampFits`). */
    method InterruptHandler(fifo: seq<byte>, clamp: nat)
      requires Valid() && NoOverrun(fifo, clamp, address)
      modifies this`dataLen, this`senderId, this`targetId, this`payloadLen, this`ackRequested,
               this`ackReceived, this`rssi, this`wire, this`chip, this`mode, data
      ensures Valid()
      ensures wire == old(wire) + HandlerTraffic(isHW, powerLevel, old(mode), old(chip), fifo, clamp, address)
      ensures old(mode) != Rx || !PayloadReady(Reg(old(chip), RegIrqFlags2)) ==>
        && mode == old(mode) && rssi == RssiOf(Reg(old(chip), RegRssiValue))
        && dataLen == old(dataLen) && payloadLen == old(payloadLen)
        && targetId == old(targetId) && senderId == old(senderId)
        && ackRequested == old(ackRequested) && ackReceived == old(ackReceived)
        && data[..] == old(data[..])
      ensures old(mode) == Rx && PayloadReady(Reg(old(chip), RegIrqFlags2)) ==>
        Received(fifo, clamp, Reg(old(chip), RegRssiValue), old(data[..]))
    {
      if mode == Rx {
        HandlerTrafficRx(isHW, powerLevel, chip, fifo, clamp, address);
        var irq2 := ReadReg(RegIrqFlags2);
        ghost var w1 := wire;
        if PayloadReady(irq2) {
          ReceivePayload(fifo, clamp);
        } else {
          rssi := ReadRssi();
        }
        Chain2(old(wire), w1, wire, [Read(RegIrqFlags2)],
               if PayloadReady(irq2) then PayloadTraffic(isHW, powerLevel, old(chip), fifo, clamp, address)
               else [Read(RegRssiValue)]);
      } else {
        rssi := ReadRssi();
      }
    }

    /** The handle after a received frame: cleared when the frame is
      * rejected, else the parsed header, the payload in `DATA` and the
      * signal strength. */
    ghost predicate Received(fifo: seq<byte>, clamp: nat, rssiReg: byte, data0: seq<byte>)
      reads this, data
    {
      && mode == Rx && data.Length == |data0| == MaxDataLen + 1
      && if Accepts(ParseHeader(fifo, clamp), address) then Accepted(fifo, clamp, rssiReg, data0) else Rejected(data0)
    }

    ghost predicate Rejected(data0: seq<byte>)
      reads this, data
    {
      && rssi == 0 && dataLen == 0 && payloadLen == 0
      && targetId == 0 && senderId == 0 && !ackRequested && !ackReceived
      && data[..] == data0
    }

    ghost predicate Accepted(fifo: seq<byte>, clamp: nat, rssiReg: byte, data0: seq<byte>)
      reads this, data
    {
      var h := ParseHeader(fifo, clamp);
      && data.Length == |data0| == MaxDataLen + 1 && dataLen <= MaxDataLen + 1
      && rssi == RssiOf(rssiReg)
      && payloadLen == h.payloadLen && dataLen == DataLen(h)
      && targetId == h.target && senderId == h.sender
      && (ackReceived <==> AckFlag(h.ctl)) && (ackRequested <==> AckRequestFlag(h.ctl))
      && StoredPayload(data[..], data0, dataLen, fifo)
    }

    /** `InterruptHandler` once a payload is ready: standby, the FIFO read,
      * then either the rejection through `ReceiveBegin` or the accepted
      * frame. */
    method ReceivePayload(fifo: seq<byte>, clamp: nat)
      requires Valid() && mode == Rx && PayloadReady(Reg(chip, RegIrqFlags2)) && NoOverrun(fifo, clamp, address)
      modifies this`dataLen, this`senderId, this`targetId, this`payloadLen, this`ackRequested,
               this`ackReceived, this`rssi, this`wire, this`chip, this`mode, data
      ensures Valid()
      ensures wire == old(wire) + PayloadTraffic(isHW, powerLevel, old(chip), fifo, clamp, address)
      ensures Received(fifo, clamp, Reg(old(chip), RegRssiValue), old(data[..]))
    {
      ghost var w0, c0, d0 := wire, chip, data[..];
      ghost var ot := OpenTraffic(isHW, powerLevel, Reg(c0, RegOpMode));
      ghost var hdr := HeaderTraffic(isHW, powerLevel, c0, fifo, clamp, address);
      ghost var pt := PayloadTraffic(isHW, powerLevel, c0, fifo, clamp, address);
      assert pt == ot + hdr;
      OpenFifo();
      ghost var w1 := wire;
      assert w1 == w0 + ot;
      ModeFramesKeep(c0, isHW, powerLevel, Rx, Standby, RegRssiValue as int);
      ModeFramesKeep(c0, isHW, powerLevel, Rx, Standby, RegIrqFlags2 as int);
      ModeFramesKeep(c0, isHW, powerLevel, Rx, Standby, RegPacketConfig2 as int);
      var h := ParseHeader(fifo, clamp);
      StoreHeader(h);
      ghost var w2 := wire;
      AfterHeader(fifo, clamp, h, c0);
      assert powerLevel == old(powerLevel) && address == old(address) && w2 == w1;
      assert wire == w1 + hdr;
      Chain2(w0, w1, wire, ot, hdr);
    }

    /** The rest of the payload path once the header is stored, with `c0`
      * the register file the handler started from: the rejection through
      * `ReceiveBegin`, or the accepted frame. */
    method AfterHeader(fifo: seq<byte>, clamp: nat, h: Header, ghost c0: RegFile)
      requires Valid() && mode == Standby && h == ParseHeader(fifo, clamp) && NoOverrun(fifo, clamp, address)
      requires payloadLen == h.payloadLen && targetId == h.target && senderId == h.sender
      requires Reg(chip, RegOpMode) == OpModeValue(Reg(c0, RegOpMode), Standby)
      requires Reg(chip, RegRssiValue) == Reg(c0, RegRssiValue)
      requires Reg(chip, RegIrqFlags2) == Reg(c0, RegIrqFlags2) && Reg(chip, RegPacketConfig2) == Reg(c0, RegPacketConfig2)
      modifies this`dataLen, this`senderId, this`targetId, this`payloadLen, this`ackRequested,
               this`ackReceived, this`rssi, this`wire, this`chip, this`mode, data
      ensures Valid()
      ensures wire == old(wire) + HeaderTraffic(isHW, powerLevel, c0, fifo, clamp, address)
      ensures Received(fifo, clamp, Reg(c0, RegRssiValue), old(data[..]))
    {
      if payloadLen < 3 || !(targetId == address || targetId == BroadcastAddress) {
        assert !Accepts(h, address);
        ReceiveBegin();
        assert Rejected(old(data[..]));
      } else {
        assert Accepts(h, address);
        ReceiveFrame(fifo, clamp, h);
        assert Accepted(fifo, clamp, Reg(c0, RegRssiValue), old(data[..]));
      }
    }

    /** The header fields as the handler stores them. */
    method StoreHeader(h: Header)
      requires h.payloadLen < 0x100
      modifies this`payloadLen, this`targetId, this`senderId
      ensures payloadLen == h.payloadLen && targetId == h.target && senderId == h.sender
    {
      payloadLen := h.payloadLen;
      targetId := h.target;
      senderId := h.sender;
    }

    /** The start of the payload path: standby, and the FIFO window opened
      * with the read address. */
    method OpenFifo()
      requires Valid() && mode == Rx
      modifies this`wire, this`chip, this`mode
      ensures Valid() && mode == Standby
      ensures wire == old(wire) + OpenTraffic(isHW, powerLevel, Reg(old(chip), RegOpMode))
      ensures Reg(chip, RegOpMode) == OpModeValue(Reg(old(chip), RegOpMode), Standby)
      ensures chip == ApplyAll(old(chip), ModeFrames(isHW, powerLevel, Rx, Reg(old(chip), RegOpMode), Standby))
    {
      SetMode(Standby);
      ghost var w1 := wire;
      Transfer(Burst([RegFifo % 0x80]));
    }

    /** The accepting half of `InterruptHandler`: the counts and flags, the
      * payload into `DATA`, back to RX and the signal strength. */
    method ReceiveFrame(fifo: seq<byte>, clamp: nat, h: Header)
      requires Valid() && h == ParseHeader(fifo, clamp) && Accepts(h, address) && NoOverrun(fifo, clamp, address)
      requires payloadLen == h.payloadLen && targetId == h.target && senderId == h.sender
      modifies this`dataLen, this`ackReceived, this`ackRequested, data, this`wire, this`chip, this`mode, this`rssi
      ensures Valid() && mode == Rx
      ensures Accepted(fifo, clamp, Reg(old(chip), RegRssiValue), old(data[..]))
      ensures wire == old(wire) + (ModeFrames(isHW, powerLevel, old(mode), Reg(old(chip), RegOpMode), Rx) + [Read(RegRssiValue)])
    {
      StoreFrame(fifo, clamp, h);
      ghost var d1, w1 := data[..], wire;
      ghost var mf := ModeFrames(isHW, powerLevel, mode, Reg(chip, RegOpMode), Rx);
      ResumeRx();
      assert data[..] == d1;
      Chain2(w1, w1 + mf, wire, mf, [Read(RegRssiValue)]);
    }

    /** The end of the accepting path: back to RX, then the signal strength
      * read. */
    method ResumeRx()
      requires Valid()
      modifies this`wire, this`chip, this`mode, this`rssi
      ensures Valid() && mode == Rx
      ensures rssi == RssiOf(Reg(old(chip), RegRssiValue))
      ensures wire == old(wire) + ModeFrames(isHW, powerLevel, old(mode), Reg(old(chip), RegOpMode), Rx) + [Read(RegRssiValue)]
    {
      ghost var c0 := chip;
      EnterRx();
      RecordRssi(c0);
    }

    /** `RFM69_SetMode(hrf, RF69_MODE_RX)`, which keeps the signal-strength
      * register. */
    method EnterRx()
      requires Valid()
      modifies this`wire, this`chip, this`mode
      ensures Valid() && mode == Rx
      ensures wire == old(wire) + ModeFrames(isHW, powerLevel, old(mode), Reg(old(chip), RegOpMode), Rx)
      ensures Reg(chip, RegRssiValue) == Reg(old(chip), RegRssiValue)
    {
      ModeFramesKeep(chip, isHW, powerLevel, mode, Rx, RegRssiValue as int);
      SetMode(Rx);
    }

    /** `hrf->RSSI = RFM69_ReadRSSI(hrf, false)` where the signal-strength
      * register still holds its value in the register file `c0`. */
    method RecordRssi(ghost c0: RegFile)
      requires Valid() && Reg(chip, RegRssiValue) == Reg(c0, RegRssiValue)
      modifies this`wire, this`chip, this`rssi
      ensures Valid()
      ensures wire == old(wire) + [Read(RegRssiValue)] && chip == old(chip)
      ensures rssi == RssiOf(Reg(c0, RegRssiValue))
    {
      rssi := ReadRssi();
    }

    /** The counts, the flags and the payload of an accepted frame. */
    method StoreFrame(fifo: seq<byte>, clamp: nat, h: Header)
      requires data.Length == MaxDataLen + 1 && NoOverrun(fifo, clamp, address)
      requires h == ParseHeader(fifo, clamp) && Accepts(h, address) && payloadLen == h.payloadLen
      modifies this`dataLen, this`ackReceived, this`ackRequested, data
      ensures dataLen == DataLen(h)
      ensures (ackReceived <==> AckFlag(h.ctl)) && (ackRequested <==> AckRequestFlag(h.ctl))
      ensures StoredPayload(data[..], old(data[..]), dataLen, fifo)
    {
      dataLen := payloadLen - 3;
      ackReceived := AckFlag(h.ctl);
      ackRequested := AckRequestFlag(h.ctl);
      var n := dataLen;
      forall i | 0 <= i < n {
        data[i] := FifoByte(fifo, 4 + i);
      }
      if dataLen < MaxDataLen {
        data[dataLen] := 0;
      }
    }

    /** `RFM69_ACKRequested`: an ACK was asked for by a frame whose target
      * is this node's address. */
    predicate AckRequested()
      reads this
    {
      AckRequestedFor(ackRequested, targetId, address)
    }
  }
}
