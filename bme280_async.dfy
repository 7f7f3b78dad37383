/** The non-blocking BME280 client: one 9-byte burst read (the register
  * address, then pressure, temperature and humidity) submitted to the shared
  * SPI bus manager, and the completion and error callbacks that decode and
  * compensate the result. The calibration and `t_fine` are those of the
  * blocking driver (`Bmpxx80.Bme280`), which the completion callback updates. */
module Bme280Async {
  import opened Common
  import opened SpiBusTypes
  import opened SpiBusShared
  import opened Bmpxx80

  /** The three raw ADC values of a burst read. */
  datatype Raw = Raw(adcP: int, adcT: int, adcH: int)

  /** `(d0 << 12) | (d1 << 4) | (d2 >> 4)` and `(d0 << 8) | d1` on bytes. */
  lemma BurstBits(d0: bv32, d1: bv32, d2: bv32)
    requires d0 < 0x100 && d1 < 0x100 && d2 < 0x100
    ensures (d0 << 12) | (d1 << 4) | (d2 >> 4) == d0 * 4096 + d1 * 16 + d2 / 16
    ensures (d0 << 8) | d1 == d0 * 256 + d1
  {
  }

  /** The decode in `_bme280_async_on_done`: `rx[0]` is the byte clocked in
    * with the address; pressure and temperature are 20-bit values whose
    * last byte contributes its upper nibble, humidity a 16-bit value. */
  function Decode(rx: seq<byte>): (r: Raw)
    requires |rx| == 9
    ensures 0 <= r.adcP < 0x10_0000 && 0 <= r.adcT < 0x10_0000 && 0 <= r.adcH < 0x1_0000
  {
    Raw(rx[1] as int * 4096 + rx[2] as int * 16 + rx[3] / 16,
        rx[4] as int * 4096 + rx[5] as int * 16 + rx[6] / 16,
        rx[7] as int * 256 + rx[8])
  }

  /** The bytes a chip sends for the given raw values; `echo` is the byte
    * received during the address, `lowP` and `lowT` the unused low nibbles
    * of the two XLSB registers. */
  function Burst(raw: Raw, echo: byte, lowP: byte, lowT: byte): (rx: seq<byte>)
    requires 0 <= raw.adcP < 0x10_0000 && 0 <= raw.adcT < 0x10_0000 && 0 <= raw.adcH < 0x1_0000
    requires lowP < 16 && lowT < 16
    ensures |rx| == 9 && rx[0] == echo
  {
    [echo,
     raw.adcP / 4096, raw.adcP / 16 % 256, raw.adcP % 16 * 16 + lowP,
     raw.adcT / 4096, raw.adcT / 16 % 256, raw.adcT % 16 * 16 + lowT,
     raw.adcH / 256, raw.adcH % 256]
  }

  /** Decoding recovers every raw value, whatever the echo byte and the
    * unused nibbles. */
  lemma DecodeBurst(raw: Raw, echo: byte, lowP: byte, lowT: byte)
    requires 0 <= raw.adcP < 0x10_0000 && 0 <= raw.adcT < 0x10_0000 && 0 <= raw.adcH < 0x1_0000
    requires lowP < 16 && lowT < 16
    ensures Decode(Burst(raw, echo, lowP, lowT)) == raw
  {
    var rx := Burst(raw, echo, lowP, lowT);
    assert rx[3] / 16 == raw.adcP % 16;
    assert rx[6] / 16 == raw.adcT % 16;
  }

  /** `compensate_pressure_bme280`: unlike the blocking driver, it converts
    * the Q24.8 value to `int32_t` before dividing by 256. */
  function PressureAsync(c: Calib, tFine: int, adcP: int): (r: int)
    ensures PressureQ24(c, tFine, adcP).None? ==> r == 0
  {
    match PressureQ24(c, tFine, adcP)
    case None => 0
    case Some(p) => TruncDiv(Int32(p), 256)
  }

  lemma Int32Identity(x: int)
    requires -0x8000_0000 <= x < 0x8000_0000
    ensures Int32(x) == x
  {
  }

  /** Whenever the Q24.8 pressure fits in 32 bits, which it does for every
    * pressure the chip can measure, the two conversions agree. */
  lemma PressureCastsAgree(c: Calib, tFine: int, adcP: int)
    requires PressureQ24(c, tFine, adcP).Some? ==> -0x8000_0000 <= PressureQ24(c, tFine, adcP).value < 0x8000_0000
    ensures PressureAsync(c, tFine, adcP) == PressurePa(c, tFine, adcP)
  {
    if PressureQ24(c, tFine, adcP).Some? {
      var p := PressureQ24(c, tFine, adcP).value;
      Int32Identity(p);
      Int32Identity(TruncDiv(p, 256));
    }
  }

  /** `bme280_measurement`, with the floats kept as the integers they come
    * from (hundredths of a degree, 1/1024 %RH). */
  datatype Measurement = Measurement(centiC: int, pa: int, humidity: int, stampMs: u32, valid: bool)

  /** A completed read: the measurement and the new `t_fine`. */
  datatype Done = Done(m: Measurement, tFine: int)

  /** The three `compensate_*` functions applied to a burst, stamped with
    * `stampMs`; the measurement is valid unless the temperature equals the
    * -99.0 failure value or humidity was skipped (0x8000). */
  function Compensate(c: Calib, raw: Raw, stampMs: u32): (d: Done)
    ensures d.tFine == TFine(c, raw.adcT) && d.m.centiC == CentiCelsius(d.tFine)
    ensures d.m.pa == PressureAsync(c, d.tFine, raw.adcP) && d.m.stampMs == stampMs
    ensures d.m.humidity == HumidityFailed <==> raw.adcH == 0x8000
    ensures raw.adcH != 0x8000 ==> 0 <= d.m.humidity <= 102400
    ensures d.m.valid <==> d.m.centiC != TempFailed && raw.adcH != 0x8000
  {
    var tf := TFine(c, raw.adcT);
    var t := CentiCelsius(tf);
    var h := if raw.adcH == 0x8000 then HumidityFailed else HumidityQ10(c, tf, raw.adcH);
    Done(Measurement(t, PressureAsync(c, tf, raw.adcP), h, stampMs, t != TempFailed && h != HumidityFailed), tf)
  }

  /** The registers a burst read reads: 0xF7 to 0xFE. */
  predicate BurstOf(rx: seq<byte>, s: Sample)
    requires |rx| == 9 && WellFormed(s)
  {
    forall i :: 1 <= i < 9 ==> s.regs[0xF6 + i] == rx[i]
  }

  /** The blocking reads of the same registers see the same raw values. */
  lemma BurstRegisters(rx: seq<byte>, s: Sample)
    requires |rx| == 9 && WellFormed(s) && BurstOf(rx, s)
    ensures Read24(s.regs, RegPressureData) / 16 == Decode(rx).adcP
    ensures Read24(s.regs, RegTempData) / 16 == Decode(rx).adcT
    ensures Read16(s.regs, RegHumidData) == Decode(rx).adcH
  {
    assert s.regs[0xF7] == rx[1] && s.regs[0xF8] == rx[2] && s.regs[0xF9] == rx[3];
    assert s.regs[0xFA] == rx[4] && s.regs[0xFB] == rx[5] && s.regs[0xFC] == rx[6];
    assert s.regs[0xFD] == rx[7] && s.regs[0xFE] == rx[8];
    ShiftedRead(rx[1], rx[2], rx[3]);
    ShiftedRead(rx[4], rx[5], rx[6]);
  }

  /** The burst covers the registers the blocking reads use: in normal mode,
    * for a valid asynchronous measurement whose temperature register does
    * not read as skipped, the blocking driver reads the same temperature,
    * `t_fine` and humidity from the same registers, and the same pressure
    * when the Q24.8 value fits in 32 bits. */
  lemma AsyncMatchesBlocking(c: Calib, tFine: int, rx: seq<byte>, s: Sample, stampMs: u32)
    requires |rx| == 9 && WellFormed(s) && BurstOf(rx, s)
    requires Read24(s.regs, RegTempData) != 0x80_0000 && Compensate(c, Decode(rx), stampMs).m.valid
    requires var tf := TFine(c, Decode(rx).adcT);
      PressureQ24(c, tf, Decode(rx).adcP).Some? ==> -0x8000_0000 <= PressureQ24(c, tf, Decode(rx).adcP).value < 0x8000_0000
    ensures var d := Compensate(c, Decode(rx), stampMs);
      && d.tFine == ReadTemp(c, ModeNormal, tFine, s).tFine
      && d.m.centiC == ReadTemp(c, ModeNormal, tFine, s).value
      && d.m.pa == ReadPress(c, ModeNormal, tFine, s).value
      && d.m.humidity == ReadHum(c, ModeNormal, tFine, s).value
  {
    BurstRegisters(rx, s);
    PressureCastsAgree(c, TFine(c, Decode(rx).adcT), Decode(rx).adcP);
  }

  /** `adc >>= 4` of a 24-bit register triple is the 20-bit decode. */
  lemma ShiftedRead(b0: byte, b1: byte, b2: byte)
    ensures (b0 as int * 0x1_0000 + b1 as int * 256 + b2) / 16 == b0 as int * 4096 + b1 as int * 16 + b2 / 16
  {
  }

  /** A transfer submitted to an idle manager that ends the submission
    * without a transfer in flight was refused by the DMA engine: the
    * manager drained everything queued before it and then called the
    * transfer's own `on_error`. While a transfer is in flight after the
    * submission, the submitted one is still queued and nobody has been
    * told about it. */
  lemma SubmitTxOutcome(cfg: Config, b: Bus, t: Txn, dma: seq<bool>)
    requires t.kind != ItemCallback && t.hasOnError
    ensures var (st, r) := SubmitRun(cfg, b, t, dma);
      && (st == Ok && !r.bus.busy ==>
            !b.busy && r.bus.queue == [] && Notices(r.log) == Drained(b.queue) + [ErrorCb(t.user)])
      && (st == Ok && r.bus.busy ==> r.bus.queue != [] && r.bus.queue[|r.bus.queue| - 1] == Stored(t))
  {
    var (st, r) := SubmitRun(cfg, b, t, dma);
    if st == Ok {
      var b' := Bus(b.queue + [Stored(t)], b.busy);
      TryStartSuffix(b', dma);
      if !b.busy {
        TryStartOneInFlight(b', dma);
        TryStartNotices(b', dma);
        if !r.bus.busy {
          assert b'.queue[..|b'.queue| - |r.bus.queue|] == b.queue + [Stored(t)];
          DrainedAppend(b.queue, Stored(t));
        }
      }
    }
  }

  /** `bme280_async`. `id` stands for the device's address, passed to the
    * bus manager as the callbacks' `user` argument. */
  class Device {
    const id: nat
    const mgr: Manager?
    const cs: Gpio
    const cr1: u32
    const cr2: u32
    const tx9: seq<byte>
    var busy: bool
    var error: bool
    var last: Measurement
    var hasDoneCb: bool
    ghost var delivered: seq<Measurement>

    /** `bme280_async_init`: the zeroed state, and the read command 0xF7
      * with bit 7 set followed by eight dummy bytes. */
    constructor Init(id: nat, mgr: Manager?, cs: Gpio, cr1: u32, cr2: u32)
      ensures this.id == id && this.mgr == mgr && this.cs == cs && this.cr1 == cr1 && this.cr2 == cr2
      ensures tx9 == [0xF7, 0, 0, 0, 0, 0, 0, 0, 0]
      ensures !busy && !error && !hasDoneCb && delivered == []
      ensures last == Measurement(0, 0, 0, 0, false) && !HasData()
    {
      this.id := id;
      this.mgr := mgr;
      this.cs := cs;
      this.cr1 := cr1;
      this.cr2 := cr2;
      tx9 := [Or(RegPressureData, 0x80), 0, 0, 0, 0, 0, 0, 0, 0];
      busy := false;
      error := false;
      last := Measurement(0, 0, 0, 0, false);
      hasDoneCb := false;
      delivered := [];
    }

    /** `bme280_async_is_busy`. */
    function IsBusy(): bool
      reads this
    {
      busy
    }

    /** `bme280_async_has_data`. */
    function HasData(): bool
      reads this
    {
      last.valid
    }

    /** `bme280_async_get_last`. */
    function GetLast(): Measurement
      reads this
    {
      last
    }

    /** `bme280_async_set_done_cb`; `present` says the callback is non-null. */
    method SetDoneCallback(present: bool)
      modifies this`hasDoneCb
      ensures hasDoneCb == present
    {
      hasDoneCb := present;
    }

    /** The descriptor `bme280_async_trigger_read` submits: a 9-byte
      * full-duplex transfer on the device's CS line, DC unused, no ready
      * wait, completion and error callbacks set. */
    function ReadTxn(): (t: Txn)
      ensures t.kind == ItemTx && t.len == 9 && t.dir == DirTxRx && t.hasTx && t.hasRx
      ensures t.hasOnDone && t.hasOnError && !t.hasOnHalf && !t.hasWaitReady && t.user == id
      ensures TransferParamsOk(t) <==> cs.port.Some?
      ensures Stored(t) == t
    {
      Txn(ItemTx, cs, Gpio(None, 0, true), DcUnused, cr1, cr2, true, true, 9, DirTxRx,
          false, 0, false, true, true, id)
    }

    /** `_bme280_async_on_done`: `rx` is what the transfer clocked in,
      * `stampMs` the tick count at completion. */
    method OnDone(sensor: Bme280, rx: seq<byte>, stampMs: u32)
      requires |rx| == 9
      modifies this`busy, this`error, this`last, this`delivered, sensor`tFine
      ensures var d := Compensate(sensor.calib, Decode(rx), stampMs);
        last == d.m && sensor.tFine == d.tFine
      ensures !IsBusy() && !error && GetLast() == last
      ensures delivered == old(delivered) + (if hasDoneCb then [last] else [])
    {
      var raw := Decode(rx);
      var d := Compensate(sensor.calib, raw, stampMs);
      sensor.tFine := d.tFine;
      last := d.m;
      busy := false;
      error := false;
      if hasDoneCb {
        delivered := delivered + [last];
      }
    }

    /** `_bme280_async_on_error`: the last measurement is kept. */
    method OnError()
      modifies this`busy, this`error
      ensures !busy && error
    {
      busy := false;
      error := true;
    }

    /** `bme280_async_trigger_read`. While a read is pending it returns
      * true and changes nothing; otherwise it submits the burst read, and a
      * rejection clears busy and sets error. `dma` are the DMA start
      * results the bus manager will see. An accepted submission whose DMA
      * start the manager saw refused has already run `_bme280_async_on_error`
      * inside `submit`, so the call still returns true but leaves the device
      * idle with the error set; `id` is the `user` of this device's
      * descriptors alone. */
    method TriggerRead(dma: seq<bool>) returns (ok: bool, rest: seq<bool>)
      requires mgr != null ==> mgr.Valid()
      modifies this`busy, this`error, mgr, if mgr != null then {mgr.q} else {}
      ensures old(busy) ==> ok && busy && error == old(error) && rest == dma
                            && (mgr != null ==> unchanged(mgr) && unchanged(mgr.q))
      ensures !old(busy) && mgr == null ==> !ok && !busy && error && rest == dma
      ensures !old(busy) && mgr != null ==>
        var (st, r) := SubmitRun(old(mgr.Cfg()), old(mgr.Abs()), ReadTxn(), dma);
        && mgr.Valid() && (ok <==> st == Ok)
        && busy == (ok && r.bus.busy) && error == (!ok || !r.bus.busy)
        && (ok && !busy ==> Notices(r.log) == Drained(old(mgr.Abs()).queue) + [ErrorCb(id)])
        && mgr.Abs() == r.bus && mgr.log == old(mgr.log) + r.log && rest == r.dma
    {
      if busy {
        return true, dma;
      }
      busy := true;
      error := false;
      var st: Status;
      if mgr == null {
        st, rest := ErrParam, dma;
      } else {
        ghost var b0, cfg0 := mgr.Abs(), mgr.Cfg();
        st, rest := mgr.Submit(ReadTxn(), dma);
        SubmitTxOutcome(cfg0, b0, ReadTxn(), dma);
        if st == Ok && !mgr.busy {
          // the refused start's `on_error`, run before `submit` returned
          OnError();
        }
      }
      if st != Ok {
        busy := false;
        error := true;
        return false, rest;
      }
      ok := true;
    }
  }
}
