/** The older SPI bus manager of the display firmware: the same ring of
  * transaction descriptors, without callback items. It asserts CS before
  * driving DC and writes DC's raw level, ignoring the line's polarity.
  * As in `SpiBusShared`, pure functions on `Bus` describe the operations and
  * the class `Manager` is proved to refine them. */
module SpiBusApp {
  import opened Common
  import opened SpiBusTypes

  /** `spi_bus_transaction` of this version (no `kind`). `payload` is what
    * the `tx` pointer points at; the manager never looks at it. */
  datatype Txn = Txn(
    cs: Gpio,
    dc: Gpio,
    dcMode: DcMode,
    cr1: u32,
    cr2: u32,
    hasTx: bool,
    hasRx: bool,
    len: u16,
    dir: Dir,
    hasWaitReady: bool,
    waitTimeoutMs: u32,
    hasOnHalf: bool,
    hasOnDone: bool,
    hasOnError: bool,
    user: nat,
    payload: seq<byte>)

  /** The parameter checks `submit` applies to every descriptor. */
  predicate ParamsOk(t: Txn)
  {
    t.cs.port.Some? && t.hasTx && t.len > 0 && (t.dir == DirTxRx ==> t.hasRx)
  }

  /** `spi_bus_dc_apply` of this version: DATA writes the pin high and
    * COMMAND low, whatever `active_low` says. */
  function DcApplyRaw(dc: Gpio, mode: DcMode): seq<Event>
  {
    if dc.port.None? || mode == DcUnused then [] else [PinWrite(dc.port.value, dc.pin, mode == DcData)]
  }

  /** The DC level does not depend on the configured polarity. */
  lemma DcIgnoresPolarity(dc: Gpio, mode: DcMode)
    requires dc.port.Some? && mode != DcUnused
    ensures DcApplyRaw(dc, mode) == DcApplyRaw(dc.(activeLow := !dc.activeLow), mode)
    ensures DcApplyRaw(dc, mode)[0].high <==> mode == DcData
  {
  }

  /** Registers, then CS, then DC. */
  function StartPrelude(t: Txn): seq<Event>
  {
    [RegsWrite(t.cr1, t.cr2)] + GpioSet(t.cs, true) + DcApplyRaw(t.dc, t.dcMode)
  }

  lemma CsBeforeDc(t: Txn)
    requires t.cs.port.Some? && t.dc.port.Some? && t.dcMode != DcUnused
    ensures |StartPrelude(t)| == 3
    ensures StartPrelude(t)[1] == PinWrite(t.cs.port.value, t.cs.pin, !t.cs.activeLow)
    ensures StartPrelude(t)[2] == PinWrite(t.dc.port.value, t.dc.pin, t.dcMode == DcData)
  {
  }

  datatype Bus = Bus(queue: seq<Txn>, busy: bool)

  datatype Run = Run(bus: Bus, log: seq<Event>, dma: seq<bool>)

  function ErrorNotice(t: Txn): seq<Event>
  {
    if t.hasOnError then [ErrorCb(t.user)] else []
  }

  function Attempt(t: Txn, ok: bool): seq<Event>
  {
    StartPrelude(t) + [DmaStart(t.user, t.dir, t.len, ok)]
  }

  /** `spi_bus_try_start`; `dma` answers the DMA start calls in order, and
    * every start is accepted once it is used up. */
  function TryStartRun(b: Bus, dma: seq<bool>): Run
    decreases |b.queue|
  {
    if b.busy || b.queue == [] then Run(b, [], dma)
    else
      var t := b.queue[0];
      var ok := dma == [] || dma[0];
      var rest := if dma == [] then [] else dma[1..];
      if ok then Run(Bus(b.queue, true), Attempt(t, true), rest)
      else
        var r := TryStartRun(Bus(b.queue[1..], false), rest);
        Run(r.bus, Attempt(t, false) + GpioSet(t.cs, false) + ErrorNotice(t) + r.log, r.dma)
  }

  lemma TryStartAcceptStep(b: Bus, dma: seq<bool>)
    requires !b.busy && b.queue != [] && (dma == [] || dma[0])
    ensures TryStartRun(b, dma) == Run(Bus(b.queue, true), Attempt(b.queue[0], true), if dma == [] then [] else dma[1..])
  {
  }

  lemma TryStartRejectStep(b: Bus, dma: seq<bool>)
    requires !b.busy && b.queue != [] && dma != [] && !dma[0]
    ensures var t := b.queue[0];
      var r := TryStartRun(Bus(b.queue[1..], false), dma[1..]);
      TryStartRun(b, dma) == Run(r.bus, Attempt(t, false) + GpioSet(t.cs, false) + ErrorNotice(t) + r.log, r.dma)
  {
  }

  lemma AttemptQuiet(t: Txn, ok: bool)
    ensures Accepted(Attempt(t, ok)) == (if ok then 1 else 0) && Notices(Attempt(t, ok)) == []
    ensures Attempt(t, ok)[|Attempt(t, ok)| - 1] == DmaStart(t.user, t.dir, t.len, ok)
    ensures Accepted(GpioSet(t.cs, false)) == 0 && Notices(GpioSet(t.cs, false)) == []
    ensures Accepted(ErrorNotice(t)) == 0 && Notices(ErrorNotice(t)) == ErrorNotice(t)
  {
    var r := [RegsWrite(t.cr1, t.cr2)];
    var x := DmaStart(t.user, t.dir, t.len, ok);
    SingleEvent(RegsWrite(t.cr1, t.cr2));
    SingleEvent(x);
    PinsQuiet(GpioSet(t.cs, true));
    PinsQuiet(DcApplyRaw(t.dc, t.dcMode));
    PinsQuiet(GpioSet(t.cs, false));
    LogAppend3(r, GpioSet(t.cs, true), DcApplyRaw(t.dc, t.dcMode), [x]);
    SingleEvent(ErrorCb(t.user));
  }

  lemma RejectQuiet(t: Txn, tail: seq<Event>)
    ensures Accepted(Attempt(t, false) + GpioSet(t.cs, false) + ErrorNotice(t) + tail) == Accepted(tail)
    ensures Notices(Attempt(t, false) + GpioSet(t.cs, false) + ErrorNotice(t) + tail) == ErrorNotice(t) + Notices(tail)
  {
    AttemptQuiet(t, false);
    LogAppend3(Attempt(t, false), GpioSet(t.cs, false), ErrorNotice(t), tail);
  }

  /** `try_start` removes items only from the front and leaves a busy
    * manager alone. */
  lemma {:induction false} TryStartSuffix(b: Bus, dma: seq<bool>)
    ensures var r := TryStartRun(b, dma);
      && |r.bus.queue| <= |b.queue|
      && r.bus.queue == b.queue[|b.queue| - |r.bus.queue|..]
      && (b.busy ==> r == Run(b, [], dma))
    decreases |b.queue|
  {
    if !b.busy && b.queue != [] && !(dma == [] || dma[0]) {
      TryStartSuffix(Bus(b.queue[1..], false), dma[1..]);
    }
  }

  /** From an idle manager at most one DMA start is accepted; busy is left
    * set exactly when one was, with the started item at the head and its
    * start the last thing done; otherwise the whole queue was dropped. */
  lemma {:induction false} TryStartOneInFlight(b: Bus, dma: seq<bool>)
    requires !b.busy
    ensures var r := TryStartRun(b, dma);
      && Accepted(r.log) <= 1
      && (r.bus.busy <==> Accepted(r.log) == 1)
      && (r.bus.busy ==>
            && r.bus.queue != []
            && r.log != []
            && r.log[|r.log| - 1] == DmaStart(r.bus.queue[0].user, r.bus.queue[0].dir, r.bus.queue[0].len, true))
      && (!r.bus.busy ==> r.bus.queue == [])
    decreases |b.queue|
  {
    if b.queue != [] {
      var t := b.queue[0];
      var b' := Bus(b.queue[1..], false);
      if dma == [] || dma[0] {
        TryStartAcceptStep(b, dma);
        AttemptQuiet(t, true);
      } else {
        TryStartRejectStep(b, dma);
        var r := TryStartRun(b', dma[1..]);
        TryStartOneInFlight(b', dma[1..]);
        RejectQuiet(t, r.log);
        var pre := Attempt(t, false) + GpioSet(t.cs, false) + ErrorNotice(t);
        assert TryStartRun(b, dma) == Run(r.bus, pre + r.log, r.dma);
        if r.bus.busy {
          assert (pre + r.log)[|pre + r.log| - 1] == r.log[|r.log| - 1];
        }
      }
    }
  }

  /** FIFO: the notifications `try_start` issues are the error callbacks of
    * the items it dropped, in queue order. */
  lemma {:induction false} TryStartNotices(b: Bus, dma: seq<bool>)
    requires !b.busy
    ensures var r := TryStartRun(b, dma);
      |r.bus.queue| <= |b.queue| &&
      Notices(r.log) == Dropped(b.queue[..|b.queue| - |r.bus.queue|])
    decreases |b.queue|
  {
    TryStartSuffix(b, dma);
    if b.queue != [] {
      var t := b.queue[0];
      var b' := Bus(b.queue[1..], false);
      if dma == [] || dma[0] {
        TryStartAcceptStep(b, dma);
        AttemptQuiet(t, true);
        assert b.queue[..0] == [];
      } else {
        TryStartRejectStep(b, dma);
        var r' := TryStartRun(b', dma[1..]);
        TryStartNotices(b', dma[1..]);
        TryStartSuffix(b', dma[1..]);
        RejectQuiet(t, r'.log);
        var k := |b.queue| - |r'.bus.queue|;
        assert b.queue[..k][1..] == b'.queue[..|b'.queue| - |r'.bus.queue|];
      }
    }
  }

  /** The error notifications of items dropped because their start failed. */
  function Dropped(items: seq<Txn>): seq<Event>
  {
    if items == [] then [] else ErrorNotice(items[0]) + Dropped(items[1..])
  }

  function PostWait(t: Txn, readyInTime: bool): bool
  {
    !t.hasWaitReady || t.waitTimeoutMs == 0 || readyInTime
  }

  function Finished(t: Txn, waitOk: bool): seq<Event>
  {
    if waitOk then (if t.hasOnDone then [DoneCb(t.user)] else [])
    else ErrorNotice(t)
  }

  /** `spi_bus_on_complete_common`. */
  function CompleteRun(b: Bus, half: bool, readyInTime: bool, dma: seq<bool>): Run
  {
    if b.queue == [] then Run(Bus([], false), [], dma)
    else
      var t := b.queue[0];
      if half then Run(b, if t.hasOnHalf then [HalfCb(t.user)] else [], dma)
      else
        var r := TryStartRun(Bus(b.queue[1..], false), dma);
        Run(r.bus, GpioSet(t.cs, false) + Finished(t, PostWait(t, readyInTime)) + r.log, r.dma)
  }

  /** A full completion deasserts the head's CS and then gives it exactly one
    * of on_done (ready, or no predicate) and on_error (timed out), before
    * anything else happens. */
  lemma CompleteNotifiesHead(b: Bus, readyInTime: bool, dma: seq<bool>)
    requires b.queue != []
    ensures var t := b.queue[0];
      var r := CompleteRun(b, false, readyInTime, dma);
      var n := |GpioSet(t.cs, false)|;
      && |r.log| >= n
      && r.log[..n] == GpioSet(t.cs, false)
      && (t.hasOnDone && PostWait(t, readyInTime) ==> r.log[n] == DoneCb(t.user))
      && (t.hasOnError && !PostWait(t, readyInTime) ==> r.log[n] == ErrorCb(t.user))
      && |r.bus.queue| <= |b.queue| - 1
      && r.bus.queue == b.queue[1..][|b.queue| - 1 - |r.bus.queue|..]
  {
    TryStartSuffix(Bus(b.queue[1..], false), dma);
  }

  /** `spi_bus_manager_on_error` once the handle matched. */
  function ErrorRun(b: Bus, dma: seq<bool>): Run
  {
    if b.queue == [] then TryStartRun(Bus([], false), dma)
    else
      var t := b.queue[0];
      var r := TryStartRun(Bus(b.queue[1..], false), dma);
      Run(r.bus, GpioSet(t.cs, false) + ErrorNotice(t) + r.log, r.dma)
  }

  datatype Config = Config(cap: nat, spiOk: bool, storageOk: bool)

  predicate Fits(cfg: Config, b: Bus)
  {
    if cfg.cap == 0 then b.queue == [] else |b.queue| < cfg.cap
  }

  /** `spi_bus_manager_submit`. */
  function SubmitRun(cfg: Config, b: Bus, t: Txn, dma: seq<bool>): (Status, Run)
  {
    if !cfg.spiOk || !cfg.storageOk || cfg.cap == 0 || !ParamsOk(t) then (ErrParam, Run(b, [], dma))
    else if |b.queue| + 1 == cfg.cap then (ErrFull, Run(b, [], dma))
    else (Ok, TryStartRun(Bus(b.queue + [t], b.busy), dma))
  }

  /** Every descriptor is validated; errors change nothing; an accepted
    * descriptor is queued behind all others and, on an idle manager, either
    * starts or is dropped with its error callback. */
  lemma SubmitOutcome(cfg: Config, b: Bus, t: Txn, dma: seq<bool>)
    requires Fits(cfg, b)
    ensures var (st, r) := SubmitRun(cfg, b, t, dma);
      && (st == ErrParam <==> !cfg.spiOk || !cfg.storageOk || cfg.cap == 0 || !ParamsOk(t))
      && (st == ErrFull <==> st != ErrParam && |b.queue| == cfg.cap - 1)
      && (st != Ok ==> r == Run(b, [], dma))
      && (st == Ok ==> |r.bus.queue| <= |b.queue| + 1 && Fits(cfg, r.bus)
                       && r.bus.queue == (b.queue + [t])[|b.queue| + 1 - |r.bus.queue|..])
      && (st == Ok && b.busy ==> r.bus == Bus(b.queue + [t], true))
  {
    var res := SubmitRun(cfg, b, t, dma);
    if res.0 == Ok {
      TryStartSuffix(Bus(b.queue + [t], b.busy), dma);
    }
  }

  /** `spi_bus_manager` of this version. */
  class Manager {
    var q: array<Txn>
    var head: nat
    var tail: nat
    var busy: bool
    var spiAttached: bool
    var storageAttached: bool
    ghost var log: seq<Event>

    ghost predicate Valid()
      reads this`q, this`head, this`tail
    {
      q.Length < 0x1_0000 && RingIndices(q.Length, head, tail)
    }

    ghost function Items(): seq<Txn>
      reads this`q, this`head, this`tail, q
      requires Valid()
    {
      RingSeq(q[..], head, tail)
    }

    ghost function Abs(): Bus
      reads this`q, this`head, this`tail, this`busy, q
      requires Valid()
    {
      Bus(Items(), busy)
    }

    ghost function Cfg(): Config
      reads this
    {
      Config(q.Length, spiAttached, storageAttached)
    }

    /** `spi_bus_manager_create`. */
    constructor (spiAttached: bool, storage: array<Txn>, storageAttached: bool)
      requires storage.Length < 0x1_0000
      ensures Valid() && q == storage && Items() == [] && !busy && log == []
      ensures this.spiAttached == spiAttached && this.storageAttached == storageAttached
      ensures head == 0 && tail == 0
    {
      q := storage;
      head := 0;
      tail := 0;
      busy := false;
      this.spiAttached := spiAttached;
      this.storageAttached := storageAttached;
      log := [];
    }

    /** `spi_bus_manager_is_idle`. */
    function IsIdle(): (r: bool)
      reads this, q
      requires Valid()
      ensures r <==> !busy && Items() == []
    {
      RingEmpty(q[..], head, tail);
      !busy && head == tail
    }

    /** `spi_bus_pop`. */
    method Pop()
      requires Valid()
      modifies this`head
      ensures Valid()
      ensures Items() == if old(Items()) == [] then [] else old(Items())[1..]
    {
      RingEmpty(q[..], head, tail);
      if head != tail {
        RingPop(q[..], head, tail);
        head := Incr(head, q.Length);
      }
    }

    /** `spi_bus_try_start`. */
    method TryStart(dma: seq<bool>) returns (rest: seq<bool>)
      requires Valid()
      modifies this`head, this`busy, this`log
      ensures Valid()
      ensures var r := TryStartRun(old(Abs()), dma);
        Abs() == r.bus && log == old(log) + r.log && rest == r.dma
      decreases |Items()|
    {
      RingEmpty(q[..], head, tail);
      if busy {
        return dma;
      }
      if head == tail {
        return dma;
      }
      RingHead(q[..], head, tail);
      ghost var b := Abs();
      ghost var log0 := log;
      var t := q[head];
      busy := true;
      var ok := dma == [] || dma[0];
      rest := if dma == [] then [] else dma[1..];
      log := log + Attempt(t, ok);
      if ok {
        TryStartAcceptStep(b, dma);
        return;
      }
      TryStartRejectStep(b, dma);
      DropFailed(t);
      ghost var rest0 := rest;
      ghost var fail := Attempt(t, false) + GpioSet(t.cs, false) + ErrorNotice(t);
      assert log == log0 + fail;
      rest := TryStart(rest);
      ConcatAssoc(log0, fail, TryStartRun(Bus(b.queue[1..], false), rest0).log);
    }

    /** A refused DMA start: CS released, busy cleared, `on_error`, and the
      * head popped. */
    method DropFailed(t: Txn)
      requires Valid() && Items() != []
      modifies this`head, this`busy, this`log
      ensures Valid() && !busy && Items() == old(Items())[1..]
      ensures log == old(log) + GpioSet(t.cs, false) + ErrorNotice(t)
    {
      log := log + GpioSet(t.cs, false);
      busy := false;
      if t.hasOnError {
        log := log + [ErrorCb(t.user)];
      }
      Pop();
      busy := false;
    }

    /** `spi_bus_manager_submit`. */
    method Submit(t: Txn, dma: seq<bool>) returns (st: Status, rest: seq<bool>)
      requires Valid()
      modifies this`head, this`tail, this`busy, this`log, q
      ensures Valid()
      ensures var (s, r) := SubmitRun(old(Cfg()), old(Abs()), t, dma);
        st == s && Abs() == r.bus && log == old(log) + r.log && rest == r.dma
      ensures st != Ok ==> q[..] == old(q[..]) && head == old(head) && tail == old(tail)
      ensures st == Ok ==> q[..] == old(q[..])[old(tail) := t] && tail == Incr(old(tail), q.Length)
    {
      if !spiAttached || !storageAttached || q.Length == 0 {
        return ErrParam, dma;
      }
      if t.cs.port.None? {
        return ErrParam, dma;
      }
      if !t.hasTx || t.len == 0 {
        return ErrParam, dma;
      }
      if t.dir == DirTxRx && !t.hasRx {
        return ErrParam, dma;
      }
      RingFull(q[..], head, tail);
      if Incr(tail, q.Length) == head {
        return ErrFull, dma;
      }
      RingPush(q[..], head, tail, t);
      q[tail] := t;
      tail := Incr(tail, q.Length);
      assert Abs() == Bus(old(Items()) + [t], busy);
      rest := TryStart(dma);
      st := Ok;
    }

    /** `spi_bus_manager_cancel_pending`. */
    method CancelPending()
      requires Valid()
      modifies this`tail
      ensures Valid() && head == old(head) && tail == head
      ensures Items() == [] && busy == old(busy)
    {
      tail := head;
    }

    /** `spi_bus_on_complete_common`. */
    method OnCompleteCommon(half: bool, readyInTime: bool, dma: seq<bool>) returns (rest: seq<bool>)
      requires Valid()
      modifies this`head, this`busy, this`log
      ensures Valid()
      ensures var r := CompleteRun(old(Abs()), half, readyInTime, dma);
        Abs() == r.bus && log == old(log) + r.log && rest == r.dma
    {
      RingEmpty(q[..], head, tail);
      if head == tail {
        busy := false;
        return dma;
      }
      RingHead(q[..], head, tail);
      var t := q[head];
      if half {
        if t.hasOnHalf {
          log := log + [HalfCb(t.user)];
        }
        return dma;
      }
      ghost var b := Abs();
      ghost var log0 := log;
      log := log + GpioSet(t.cs, false);
      if !PostWait(t, readyInTime) {
        if t.hasOnError {
          log := log + [ErrorCb(t.user)];
        }
      } else {
        if t.hasOnDone {
          log := log + [DoneCb(t.user)];
        }
      }
      ghost var pre := GpioSet(t.cs, false) + Finished(t, PostWait(t, readyInTime));
      assert log == log0 + pre;
      Pop();
      busy := false;
      assert Abs() == Bus(b.queue[1..], false);
      rest := TryStart(dma);
      ConcatAssoc(log0, pre, TryStartRun(Bus(b.queue[1..], false), dma).log);
    }

    /** `spi_bus_manager_on_tx_cplt`; `half` is what the DMA half-transfer
      * flag and the SPI state say. */
    method OnTxCplt(own: bool, half: bool, readyInTime: bool, dma: seq<bool>) returns (rest: seq<bool>)
      requires Valid()
      modifies this`head, this`busy, this`log
      ensures Valid()
      ensures var r := if own then CompleteRun(old(Abs()), half, readyInTime, dma) else Run(old(Abs()), [], dma);
        Abs() == r.bus && log == old(log) + r.log && rest == r.dma
    {
      if !own {
        return dma;
      }
      rest := OnCompleteCommon(half, readyInTime, dma);
    }

    /** `spi_bus_manager_on_txrx_cplt`. */
    method OnTxRxCplt(own: bool, half: bool, readyInTime: bool, dma: seq<bool>) returns (rest: seq<bool>)
      requires Valid()
      modifies this`head, this`busy, this`log
      ensures Valid()
      ensures var r := if own then CompleteRun(old(Abs()), half, readyInTime, dma) else Run(old(Abs()), [], dma);
        Abs() == r.bus && log == old(log) + r.log && rest == r.dma
    {
      if !own {
        return dma;
      }
      rest := OnCompleteCommon(half, readyInTime, dma);
    }

    /** `spi_bus_manager_on_error`. */
    method OnError(own: bool, dma: seq<bool>) returns (rest: seq<bool>)
      requires Valid()
      modifies this`head, this`busy, this`log
      ensures Valid()
      ensures var r := if own then ErrorRun(old(Abs()), dma) else Run(old(Abs()), [], dma);
        Abs() == r.bus && log == old(log) + r.log && rest == r.dma
    {
      if !own {
        return dma;
      }
      RingEmpty(q[..], head, tail);
      ghost var b := Abs();
      ghost var log0 := log;
      ghost var pre: seq<Event> := [];
      if head != tail {
        RingHead(q[..], head, tail);
        var t := q[head];
        log := log + GpioSet(t.cs, false);
        if t.hasOnError {
          log := log + [ErrorCb(t.user)];
        }
        pre := GpioSet(t.cs, false) + ErrorNotice(t);
        assert log == log0 + pre;
        Pop();
      }
      busy := false;
      assert Abs() == Bus(if b.queue == [] then [] else b.queue[1..], false);
      rest := TryStart(dma);
      ConcatAssoc(log0, pre, TryStartRun(Bus(if b.queue == [] then [] else b.queue[1..], false), dma).log);
    }
  }
}
