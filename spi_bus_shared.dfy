/** The shared SPI bus manager: a fixed-capacity ring of transaction
  * descriptors arbitrating one SPI peripheral among several devices, with
  * pure-callback items that run in queue order without touching the bus.
  *
  * The pure functions on `Bus` describe every operation on the abstract
  * queue; the class `Manager` implements them over an array ring and is
  * proved to refine them. The DMA start result, the ready predicate and the
  * GPIO writes are the outside world: the first two are oracle parameters,
  * the last are recorded in a ghost event log together with every callback. */
module SpiBusShared {
  import opened Common
  import opened SpiBusTypes

  /** `kind` of a queued item; `ItemOther` stands for any value other than the
    * two the manager distinguishes. */
  datatype Kind = ItemTx | ItemCallback | ItemOther

  /** `spi_bus_transaction`; pointers are reduced to "present" flags and the
    * `user` pointer to an opaque identity. */
  datatype Txn = Txn(
    kind: Kind,
    cs: Gpio,
    dc: Gpio,
    dcMode: DcMode,
    cr1: u32,
    cr2: u32,
    hasTx: bool,
    hasRx: bool,
    len: u16,
    dir: Dir,
    hasWaitReady: bool,
    waitTimeoutMs: u32,
    hasOnHalf: bool,
    hasOnDone: bool,
    hasOnError: bool,
    user: nat)

  /** The checks `submit` applies to every item that is not a callback. */
  predicate TransferParamsOk(t: Txn)
  {
    t.cs.port.Some? && t.hasTx && t.len > 0 && (t.dir == DirTxRx ==> t.hasRx)
  }

  /** The copy `submit` stores: the kind is forced to TX unless it is a callback. */
  function Stored(t: Txn): Txn
  {
    if t.kind == ItemCallback then t else t.(kind := ItemTx)
  }

  lemma StoredKind(t: Txn)
    ensures Stored(t).kind == ItemTx || Stored(t).kind == ItemCallback
    ensures Stored(t).kind == ItemCallback <==> t.kind == ItemCallback
    ensures Stored(t).(kind := t.kind) == t
    ensures Stored(Stored(t)) == Stored(t)
  {
  }

  /** The zero-initialised descriptor `enqueue_callback` builds. */
  function CallbackItem(user: nat): (t: Txn)
    ensures t.kind == ItemCallback && t.hasOnDone && t.user == user
    ensures t.cs.port.None? && t.dc.port.None? && !t.hasWaitReady && !t.hasOnError && !t.hasOnHalf
  {
    Txn(ItemCallback, Gpio(None, 0, false), Gpio(None, 0, false), DcUnused,
        0, 0, false, false, 0, DirTx, false, 0, false, true, false, user)
  }

  /** `spi_bus_dc_apply`: DATA requests DC active, COMMAND inactive; the
    * line's polarity is applied by `GpioSet`. */
  function DcApply(dc: Gpio, mode: DcMode): seq<Event>
  {
    if dc.port.None? || mode == DcUnused then [] else GpioSet(dc, mode == DcData)
  }

  /** What `try_start` does to the bus before starting the DMA: registers,
    * then DC, then CS. */
  function StartPrelude(t: Txn): seq<Event>
  {
    [RegsWrite(t.cr1, t.cr2)] + DcApply(t.dc, t.dcMode) + GpioSet(t.cs, true)
  }

  /** DC is driven before CS is asserted, and only CS is left asserted. */
  lemma DcBeforeCs(t: Txn)
    requires t.dc.port.Some? && t.dcMode != DcUnused && t.cs.port.Some?
    ensures |StartPrelude(t)| == 3
    ensures StartPrelude(t)[1] == PinWrite(t.dc.port.value, t.dc.pin, (t.dcMode == DcData) != t.dc.activeLow)
    ensures StartPrelude(t)[2] == PinWrite(t.cs.port.value, t.cs.pin, !t.cs.activeLow)
  {
  }

  /** Abstract state: the queued items, oldest first, and the busy flag. */
  datatype Bus = Bus(queue: seq<Txn>, busy: bool)

  /** The effect of an operation: new state, what it did, unused oracle answers. */
  datatype Run = Run(bus: Bus, log: seq<Event>, dma: seq<bool>)

  /** What a callback item's run or a rejected transfer reports. */
  function DoneNotice(t: Txn): seq<Event>
  {
    if t.hasOnDone then [DoneCb(t.user)] else []
  }

  function ErrorNotice(t: Txn): seq<Event>
  {
    if t.hasOnError then [ErrorCb(t.user)] else []
  }

  /** Starting the transfer of `t`, with the HAL's answer `ok`. */
  function Attempt(t: Txn, ok: bool): seq<Event>
  {
    StartPrelude(t) + [DmaStart(t.user, t.dir, t.len, ok)]
  }

  /** `spi_bus_try_start`, its recursion unfolded. `dma` answers the DMA start
    * calls in order (true = accepted); once it is used up every start is
    * accepted. */
  function TryStartRun(b: Bus, dma: seq<bool>): Run
    decreases |b.queue|
  {
    if b.busy || b.queue == [] then Run(b, [], dma)
    else
      var t := b.queue[0];
      if t.kind == ItemCallback then
        var r := TryStartRun(Bus(b.queue[1..], false), dma);
        Run(r.bus, DoneNotice(t) + r.log, r.dma)
      else
        var ok := dma == [] || dma[0];
        var rest := if dma == [] then [] else dma[1..];
        if ok then Run(Bus(b.queue, true), Attempt(t, true), rest)
        else
          var r := TryStartRun(Bus(b.queue[1..], false), rest);
          Run(r.bus, Attempt(t, false) + GpioSet(t.cs, false) + ErrorNotice(t) + r.log, r.dma)
  }

  lemma TryStartCallbackStep(b: Bus, dma: seq<bool>)
    requires !b.busy && b.queue != [] && b.queue[0].kind == ItemCallback
    ensures var r := TryStartRun(Bus(b.queue[1..], false), dma);
      TryStartRun(b, dma) == Run(r.bus, DoneNotice(b.queue[0]) + r.log, r.dma)
  {
  }

  lemma TryStartAcceptStep(b: Bus, dma: seq<bool>)
    requires !b.busy && b.queue != [] && b.queue[0].kind != ItemCallback && (dma == [] || dma[0])
    ensures TryStartRun(b, dma) == Run(Bus(b.queue, true), Attempt(b.queue[0], true), if dma == [] then [] else dma[1..])
  {
  }

  lemma TryStartRejectStep(b: Bus, dma: seq<bool>)
    requires !b.busy && b.queue != [] && b.queue[0].kind != ItemCallback && dma != [] && !dma[0]
    ensures var t := b.queue[0];
      var r := TryStartRun(Bus(b.queue[1..], false), dma[1..]);
      TryStartRun(b, dma) == Run(r.bus, Attempt(t, false) + GpioSet(t.cs, false) + ErrorNotice(t) + r.log, r.dma)
  {
  }

  /** The notification an item drained by `try_start` without a transfer in
    * flight receives: on_done for a callback item, on_error for a rejected
    * transfer, nothing when the pointer is null. */
  function Drained(items: seq<Txn>): seq<Event>
  {
    if items == [] then []
    else
      var t := items[0];
      (if t.kind == ItemCallback then DoneNotice(t) else ErrorNotice(t)) + Drained(items[1..])
  }

  /** Draining one more item appends its notification. */
  lemma {:induction false} DrainedAppend(items: seq<Txn>, t: Txn)
    ensures Drained(items + [t]) == Drained(items) + Drained([t])
  {
    if items != [] {
      assert (items + [t])[1..] == items[1..] + [t];
      DrainedAppend(items[1..], t);
    }
  }

  lemma AttemptQuiet(t: Txn, ok: bool)
    ensures Accepted(Attempt(t, ok)) == (if ok then 1 else 0) && Notices(Attempt(t, ok)) == []
    ensures Attempt(t, ok)[|Attempt(t, ok)| - 1] == DmaStart(t.user, t.dir, t.len, ok)
    ensures Accepted(GpioSet(t.cs, false)) == 0 && Notices(GpioSet(t.cs, false)) == []
    ensures Accepted(ErrorNotice(t)) == 0 && Accepted(DoneNotice(t)) == 0
    ensures Notices(ErrorNotice(t)) == ErrorNotice(t) && Notices(DoneNotice(t)) == DoneNotice(t)
  {
    var r := [RegsWrite(t.cr1, t.cr2)];
    var x := DmaStart(t.user, t.dir, t.len, ok);
    SingleEvent(RegsWrite(t.cr1, t.cr2));
    SingleEvent(x);
    PinsQuiet(DcApply(t.dc, t.dcMode));
    PinsQuiet(GpioSet(t.cs, true));
    PinsQuiet(GpioSet(t.cs, false));
    LogAppend3(r, DcApply(t.dc, t.dcMode), GpioSet(t.cs, true), [x]);
    SingleEvent(ErrorCb(t.user));
    SingleEvent(DoneCb(t.user));
  }

  /** The log of a rejected attempt before the rest of the run. */
  lemma RejectQuiet(t: Txn, tail: seq<Event>)
    ensures Accepted(Attempt(t, false) + GpioSet(t.cs, false) + ErrorNotice(t) + tail) == Accepted(tail)
    ensures Notices(Attempt(t, false) + GpioSet(t.cs, false) + ErrorNotice(t) + tail) == ErrorNotice(t) + Notices(tail)
  {
    AttemptQuiet(t, false);
    LogAppend3(Attempt(t, false), GpioSet(t.cs, false), ErrorNotice(t), tail);
  }


  /** `try_start` only ever removes items from the front of the queue, leaves
    * a busy manager alone, and consumes oracle answers from the front. */
  lemma {:induction false} TryStartSuffix(b: Bus, dma: seq<bool>)
    ensures var r := TryStartRun(b, dma);
      && |r.bus.queue| <= |b.queue|
      && r.bus.queue == b.queue[|b.queue| - |r.bus.queue|..]
      && |r.dma| <= |dma| && r.dma == dma[|dma| - |r.dma|..]
      && (b.busy ==> r == Run(b, [], dma))
    decreases |b.queue|
  {
    if !b.busy && b.queue != [] {
      var t := b.queue[0];
      if t.kind == ItemCallback {
        TryStartSuffix(Bus(b.queue[1..], false), dma);
      } else if !(dma == [] || dma[0]) {
        TryStartSuffix(Bus(b.queue[1..], false), dma[1..]);
      }
    }
  }

  /** At most one transfer is started per `try_start`, only when the manager
    * was not busy, and busy is left set exactly when one was started: the
    * started item is then the head of the queue and its DMA start is the
    * last thing done. Without a transfer in flight nothing stalls: when no
    * start is accepted the whole queue is drained. */
  lemma {:induction false} TryStartOneInFlight(b: Bus, dma: seq<bool>)
    requires !b.busy
    ensures var r := TryStartRun(b, dma);
      && (r.bus.busy <==> Accepted(r.log) == 1)
      && Accepted(r.log) <= 1
      && (r.bus.busy ==>
            && r.bus.queue != []
            && r.bus.queue[0].kind != ItemCallback
            && r.log != []
            && r.log[|r.log| - 1] == DmaStart(r.bus.queue[0].user, r.bus.queue[0].dir, r.bus.queue[0].len, true))
      && (!r.bus.busy ==> r.bus.queue == [])
    decreases |b.queue|
  {
    if b.queue != [] {
      var t := b.queue[0];
      var b' := Bus(b.queue[1..], false);
      if t.kind == ItemCallback {
        TryStartCallbackStep(b, dma);
        TryStartOneInFlight(b', dma);
        AcceptedAppend(DoneNotice(t), TryStartRun(b', dma).log);
        AttemptQuiet(t, true);
      } else if dma == [] || dma[0] {
        TryStartAcceptStep(b, dma);
        AttemptQuiet(t, true);
      } else {
        TryStartRejectStep(b, dma);
        TryStartOneInFlight(b', dma[1..]);
        RejectQuiet(t, TryStartRun(b', dma[1..]).log);
      }
    }
  }

  /** FIFO: the notifications `try_start` issues are exactly those of the
    * items it drained, in queue order, one per item with a callback. */
  lemma {:induction false} TryStartNotices(b: Bus, dma: seq<bool>)
    requires !b.busy
    ensures NoticesDrained(b, TryStartRun(b, dma))
    decreases |b.queue|
  {
    if b.queue != [] {
      var t := b.queue[0];
      var b' := Bus(b.queue[1..], false);
      if t.kind == ItemCallback {
        TryStartCallbackStep(b, dma);
        TryStartNotices(b', dma);
        AttemptQuiet(t, true);
        DrainedStep(b.queue, TryStartRun(b, dma), TryStartRun(b', dma), DoneNotice(t));
      } else if dma == [] || dma[0] {
        TryStartAcceptStep(b, dma);
        AttemptQuiet(t, true);
        assert b.queue[..0] == [];
      } else {
        TryStartRejectStep(b, dma);
        TryStartNotices(b', dma[1..]);
        AttemptQuiet(t, false);
        NoticesAppend(Attempt(t, false) + GpioSet(t.cs, false), ErrorNotice(t));
        NoticesAppend(Attempt(t, false), GpioSet(t.cs, false));
        DrainedStep(b.queue, TryStartRun(b, dma), TryStartRun(b', dma[1..]),
                    Attempt(t, false) + GpioSet(t.cs, false) + ErrorNotice(t));
      }
    }
  }

  /** The notices of run `r` are those of the items it drained from `b`. */
  predicate NoticesDrained(b: Bus, r: Run)
  {
    |r.bus.queue| <= |b.queue| && Notices(r.log) == Drained(b.queue[..|b.queue| - |r.bus.queue|])
  }

  /** A run `r` that drained the head of queue `q`, logging `pre`, and then
    * ran as `r'` over the tail: its notices are those of the drained prefix. */
  lemma DrainedStep(q: seq<Txn>, r: Run, r': Run, pre: seq<Event>)
    requires q != []
    requires Notices(pre) == (if q[0].kind == ItemCallback then DoneNotice(q[0]) else ErrorNotice(q[0]))
    requires NoticesDrained(Bus(q[1..], false), r')
    requires r == Run(r'.bus, pre + r'.log, r'.dma)
    ensures NoticesDrained(Bus(q, false), r)
  {
    var rest := q[1..];
    NoticesAppend(pre, r'.log);
    var k := |q| - |r'.bus.queue|;
    var d := q[..k];
    assert d[0] == q[0];
    assert d[1..] == rest[..k - 1];
  }
  /** A queue of callback items alone is drained completely without busy ever
    * being set, without a single CS, DC, register or DMA action. */
  lemma {:induction false} CallbacksOnlyDrain(b: Bus, dma: seq<bool>)
    requires !b.busy
    requires forall i :: 0 <= i < |b.queue| ==> b.queue[i].kind == ItemCallback
    ensures var r := TryStartRun(b, dma);
      && r.bus == Bus([], false)
      && r.dma == dma
      && (forall i :: 0 <= i < |r.log| ==> r.log[i].DoneCb?)
      && r.log == Drained(b.queue)
    decreases |b.queue|
  {
    if b.queue != [] {
      TryStartCallbackStep(b, dma);
      CallbacksOnlyDrain(Bus(b.queue[1..], false), dma);
    }
  }

  /** `spi_bus_do_post_wait`, reduced to its outcome: no predicate means
    * success; with a zero timeout the poll only ever ends when the predicate
    * holds; otherwise `readyInTime` says whether it held before the timeout. */
  function PostWait(t: Txn, readyInTime: bool): bool
  {
    !t.hasWaitReady || t.waitTimeoutMs == 0 || readyInTime
  }

  /** A post-wait fails only on a bounded wait that timed out. */
  lemma PostWaitFails(t: Txn, readyInTime: bool)
    ensures !PostWait(t, readyInTime) <==> t.hasWaitReady && t.waitTimeoutMs > 0 && !readyInTime
  {
  }

  /** The one notification a fully completed item receives. */
  function Finished(t: Txn, waitOk: bool): seq<Event>
  {
    if waitOk then (if t.hasOnDone then [DoneCb(t.user)] else [])
    else (if t.hasOnError then [ErrorCb(t.user)] else [])
  }

  /** `spi_bus_on_complete_common`. */
  function CompleteRun(b: Bus, half: bool, readyInTime: bool, dma: seq<bool>): Run
  {
    if b.queue == [] then Run(Bus([], false), [], dma)
    else
      var t := b.queue[0];
      if half then Run(b, if t.hasOnHalf then [HalfCb(t.user)] else [], dma)
      else
        var r := TryStartRun(Bus(b.queue[1..], false), dma);
        Run(r.bus, GpioSet(t.cs, false) + Finished(t, PostWait(t, readyInTime)) + r.log, r.dma)
  }

  /** `spi_bus_manager_on_error` once the SPI handle matched. */
  function ErrorRun(b: Bus, dma: seq<bool>): Run
  {
    if b.queue == [] then TryStartRun(Bus([], false), dma)
    else
      var t := b.queue[0];
      var r := TryStartRun(Bus(b.queue[1..], false), dma);
      Run(r.bus, GpioSet(t.cs, false) + (if t.hasOnError then [ErrorCb(t.user)] else []) + r.log, r.dma)
  }

  /** Whether the SPI handle and the storage are bound, and the capacity. */
  datatype Config = Config(cap: nat, spiOk: bool, storageOk: bool)

  /** A queue that fits its ring: one slot of the storage always stays free. */
  predicate Fits(cfg: Config, b: Bus)
  {
    if cfg.cap == 0 then b.queue == [] else |b.queue| < cfg.cap
  }

  /** `spi_bus_manager_submit`. */
  function SubmitRun(cfg: Config, b: Bus, t: Txn, dma: seq<bool>): (Status, Run)
  {
    if !cfg.spiOk || !cfg.storageOk || cfg.cap == 0 then (ErrParam, Run(b, [], dma))
    else if t.kind != ItemCallback && !TransferParamsOk(t) then (ErrParam, Run(b, [], dma))
    else if |b.queue| + 1 == cfg.cap then (ErrFull, Run(b, [], dma))
    else (Ok, TryStartRun(Bus(b.queue + [Stored(t)], b.busy), dma))
  }

  /** `spi_bus_manager_enqueue_callback`; unlike `submit` it does not look at
    * the SPI handle. */
  function EnqueueCallbackRun(cfg: Config, b: Bus, hasCb: bool, user: nat, dma: seq<bool>): (Status, Run)
  {
    if !hasCb || !cfg.storageOk || cfg.cap == 0 then (ErrParam, Run(b, [], dma))
    else if |b.queue| + 1 == cfg.cap then (ErrFull, Run(b, [], dma))
    else (Ok, TryStartRun(Bus(b.queue + [CallbackItem(user)], b.busy), dma))
  }

  /** Submit outcomes: the error cases leave everything untouched; a success
    * appends the stored copy behind every queued item, and nothing queued
    * later can overtake it. When a transfer is already in flight, nothing
    * starts and the queue simply grows by the new item. */
  lemma SubmitOutcome(cfg: Config, b: Bus, t: Txn, dma: seq<bool>)
    requires Fits(cfg, b)
    ensures var (st, r) := SubmitRun(cfg, b, t, dma);
      && (st == ErrParam <==> !cfg.spiOk || !cfg.storageOk || cfg.cap == 0
                              || (t.kind != ItemCallback && !TransferParamsOk(t)))
      && (st == ErrFull <==> st != ErrParam && |b.queue| == cfg.cap - 1)
      && (st != Ok ==> r == Run(b, [], dma))
      && (st == Ok ==> |r.bus.queue| <= |b.queue| + 1 && Fits(cfg, r.bus)
                       && r.bus.queue == (b.queue + [Stored(t)])[|b.queue| + 1 - |r.bus.queue|..])
      && (st == Ok && b.busy ==> r.bus == Bus(b.queue + [Stored(t)], true) && r.log == [])
  {
    var (st, r) := SubmitRun(cfg, b, t, dma);
    if st == Ok {
      TryStartSuffix(Bus(b.queue + [Stored(t)], b.busy), dma);
      if !b.busy {
        TryStartOneInFlight(Bus(b.queue + [Stored(t)], b.busy), dma);
      }
    }
  }

  /** An accepted callback item is queued behind everything already queued. */
  lemma EnqueueCallbackOutcome(cfg: Config, b: Bus, hasCb: bool, user: nat, dma: seq<bool>)
    requires Fits(cfg, b)
    ensures var (st, r) := EnqueueCallbackRun(cfg, b, hasCb, user, dma);
      && (st == ErrParam <==> !hasCb || !cfg.storageOk || cfg.cap == 0)
      && (st == ErrFull <==> st != ErrParam && |b.queue| == cfg.cap - 1)
      && (st != Ok ==> r == Run(b, [], dma))
      && (st == Ok ==> |r.bus.queue| <= |b.queue| + 1 && Fits(cfg, r.bus)
                       && r.bus.queue == (b.queue + [CallbackItem(user)])[|b.queue| + 1 - |r.bus.queue|..])
      && (st == Ok && !b.busy && b.queue == [] ==> r.bus == Bus([], false) && r.log == [DoneCb(user)])
  {
    var (st, r) := EnqueueCallbackRun(cfg, b, hasCb, user, dma);
    if st == Ok {
      TryStartSuffix(Bus(b.queue + [CallbackItem(user)], b.busy), dma);
    }
  }

  /** `spi_bus_manager_cancel_pending` as written: the ring is emptied, the
    * item whose transfer may still be in flight included. */
  function CancelAsWritten(b: Bus): Bus
  {
    Bus([], b.busy)
  }

  /** The corrected cancel: drop every pending item but keep the head while
    * its transfer is in flight, as the API documentation promises. */
  function CancelKeepInFlight(b: Bus): Bus
  {
    Bus(if b.busy && b.queue != [] then [b.queue[0]] else [], b.busy)
  }

  // ---------------------------------------------------------------------
  // The manager together with the hardware: which transfers the DMA engine
  // is actually running.
  // ---------------------------------------------------------------------

  datatype Sys = Sys(bus: Bus, inFlight: seq<Txn>)

  /** What can happen next: a client call, or (only while a transfer runs)
    * a HAL interrupt for the bound SPI. */
  datatype Op =
    | OpSubmit(t: Txn, dma: seq<bool>)
    | OpEnqueueCallback(hasCb: bool, user: nat, dma: seq<bool>)
    | OpHalf
    | OpComplete(readyInTime: bool, dma: seq<bool>)
    | OpHwError(dma: seq<bool>)
    | OpCancel

  predicate Enabled(s: Sys, op: Op)
  {
    (op.OpHalf? || op.OpComplete? || op.OpHwError?) ==> s.inFlight != []
  }

  datatype Outcome = Outcome(sys: Sys, log: seq<Event>)

  /** The transfer a run started, if it started one from an idle manager. */
  function Launched(wasBusy: bool, r: Run): seq<Txn>
  {
    if !wasBusy && r.bus.busy && r.bus.queue != [] then [r.bus.queue[0]] else []
  }

  /** One step of manager plus hardware; `keep` selects the corrected cancel. */
  function Step(cfg: Config, s: Sys, op: Op, keep: bool): Outcome
  {
    match op
    case OpSubmit(t, dma) =>
      var r := SubmitRun(cfg, s.bus, t, dma).1;
      Outcome(Sys(r.bus, s.inFlight + Launched(s.bus.busy, r)), r.log)
    case OpEnqueueCallback(hasCb, user, dma) =>
      var r := EnqueueCallbackRun(cfg, s.bus, hasCb, user, dma).1;
      Outcome(Sys(r.bus, s.inFlight + Launched(s.bus.busy, r)), r.log)
    case OpHalf =>
      var r := CompleteRun(s.bus, true, true, []);
      Outcome(Sys(r.bus, s.inFlight), r.log)
    case OpComplete(ready, dma) =>
      var r := CompleteRun(s.bus, false, ready, dma);
      Outcome(Sys(r.bus, (if s.inFlight == [] then [] else s.inFlight[1..]) + Launched(false, r)), r.log)
    case OpHwError(dma) =>
      var r := ErrorRun(s.bus, dma);
      Outcome(Sys(r.bus, (if s.inFlight == [] then [] else s.inFlight[1..]) + Launched(false, r)), r.log)
    case OpCancel =>
      Outcome(Sys(if keep then CancelKeepInFlight(s.bus) else CancelAsWritten(s.bus), s.inFlight), [])
  }

  /** Never two transfers in flight, busy exactly while one is, and the one
    * in flight is the head of the queue. */
  predicate Inv(s: Sys)
  {
    && |s.inFlight| <= 1
    && (s.bus.busy <==> |s.inFlight| == 1)
    && (s.bus.busy ==> s.bus.queue != [] && s.bus.queue[0] == s.inFlight[0])
  }

  lemma LaunchFromIdle(b: Bus, dma: seq<bool>)
    requires !b.busy
    ensures var r := TryStartRun(b, dma);
      Inv(Sys(r.bus, Launched(false, r)))
  {
    TryStartOneInFlight(b, dma);
  }

  /** A run of `try_start` appended to what the hardware already runs keeps
    * the invariant, whether or not the manager was busy. */
  lemma InvAfterTryStart(b: Bus, inFlight: seq<Txn>, dma: seq<bool>)
    requires Inv(Sys(b, inFlight)) || (!b.busy && inFlight == [])
    requires b.busy ==> b.queue != []
    ensures var r := TryStartRun(b, dma);
      Inv(Sys(r.bus, inFlight + Launched(b.busy, r)))
  {
    var r := TryStartRun(b, dma);
    TryStartSuffix(b, dma);
    if !b.busy {
      TryStartOneInFlight(b, dma);
      assert inFlight == [];
    } else {
      assert inFlight + Launched(b.busy, r) == inFlight;
    }
  }

  lemma InvSubmit(cfg: Config, s: Sys, t: Txn, dma: seq<bool>)
    requires Fits(cfg, s.bus) && Inv(s)
    ensures Inv(Step(cfg, s, OpSubmit(t, dma), true).sys)
    ensures Fits(cfg, Step(cfg, s, OpSubmit(t, dma), true).sys.bus)
  {
    var res := SubmitRun(cfg, s.bus, t, dma);
    if res.0 == Ok {
      var b1 := Bus(s.bus.queue + [Stored(t)], s.bus.busy);
      assert res.1 == TryStartRun(b1, dma);
      TryStartSuffix(b1, dma);
      InvAfterTryStart(b1, s.inFlight, dma);
    } else {
      assert res.1 == Run(s.bus, [], dma);
    }
  }

  lemma InvEnqueueCallback(cfg: Config, s: Sys, hasCb: bool, user: nat, dma: seq<bool>)
    requires Fits(cfg, s.bus) && Inv(s)
    ensures Inv(Step(cfg, s, OpEnqueueCallback(hasCb, user, dma), true).sys)
    ensures Fits(cfg, Step(cfg, s, OpEnqueueCallback(hasCb, user, dma), true).sys.bus)
  {
    var res := EnqueueCallbackRun(cfg, s.bus, hasCb, user, dma);
    if res.0 == Ok {
      var b1 := Bus(s.bus.queue + [CallbackItem(user)], s.bus.busy);
      assert res.1 == TryStartRun(b1, dma);
      TryStartSuffix(b1, dma);
      InvAfterTryStart(b1, s.inFlight, dma);
    } else {
      assert res.1 == Run(s.bus, [], dma);
    }
  }

  lemma InvComplete(cfg: Config, s: Sys, ready: bool, dma: seq<bool>)
    requires Fits(cfg, s.bus) && Inv(s) && s.inFlight != []
    ensures Inv(Step(cfg, s, OpComplete(ready, dma), true).sys)
    ensures Fits(cfg, Step(cfg, s, OpComplete(ready, dma), true).sys.bus)
  {
    var b' := Bus(s.bus.queue[1..], false);
    InvAfterTryStart(b', [], dma);
    TryStartSuffix(b', dma);
    assert s.inFlight[1..] == [];
    assert CompleteRun(s.bus, false, ready, dma).bus == TryStartRun(b', dma).bus;
  }

  lemma InvHwError(cfg: Config, s: Sys, dma: seq<bool>)
    requires Fits(cfg, s.bus) && Inv(s) && s.inFlight != []
    ensures Inv(Step(cfg, s, OpHwError(dma), true).sys)
    ensures Fits(cfg, Step(cfg, s, OpHwError(dma), true).sys.bus)
  {
    var b' := Bus(s.bus.queue[1..], false);
    InvAfterTryStart(b', [], dma);
    TryStartSuffix(b', dma);
    assert s.inFlight[1..] == [];
    assert ErrorRun(s.bus, dma).bus == TryStartRun(b', dma).bus;
  }

  /** With the corrected cancel, every step from a state satisfying the
    * invariant leads to one that satisfies it. */
  lemma InvPreserved(cfg: Config, s: Sys, op: Op)
    requires Fits(cfg, s.bus) && Inv(s) && Enabled(s, op)
    ensures Inv(Step(cfg, s, op, true).sys)
    ensures Fits(cfg, Step(cfg, s, op, true).sys.bus)
  {
    match op
    case OpSubmit(t, dma) => InvSubmit(cfg, s, t, dma);
    case OpEnqueueCallback(hasCb, user, dma) => InvEnqueueCallback(cfg, s, hasCb, user, dma);
    case OpHalf =>
    case OpComplete(ready, dma) => InvComplete(cfg, s, ready, dma);
    case OpHwError(dma) => InvHwError(cfg, s, dma);
    case OpCancel =>
  }

  /** While a transfer is in flight, no client call and no half-transfer
    * interrupt makes the manager start another DMA. */
  lemma NoStartWhileInFlight(cfg: Config, s: Sys, op: Op)
    requires Fits(cfg, s.bus) && Inv(s) && s.inFlight != []
    requires !op.OpComplete? && !op.OpHwError?
    ensures forall i :: 0 <= i < |Step(cfg, s, op, true).log| ==> !Step(cfg, s, op, true).log[i].DmaStart?
  {
    match op
    case OpSubmit(t, dma) => SubmitOutcome(cfg, s.bus, t, dma);
    case OpEnqueueCallback(hasCb, user, dma) =>
      var (st, r) := EnqueueCallbackRun(cfg, s.bus, hasCb, user, dma);
      if st == Ok {
        TryStartSuffix(Bus(s.bus.queue + [CallbackItem(user)], true), dma);
      }
    case OpHalf =>
    case OpCancel =>
  }

  /** Under the invariant a full completion deasserts the CS of the transfer
    * that was actually in flight and notifies that transfer's owner; the
    * rest of the log notifies, in queue order, the owners of the items the
    * following `try_start` drained from behind it. */
  lemma CompletionReportsInFlight(cfg: Config, s: Sys, ready: bool, dma: seq<bool>)
    requires Inv(s) && s.inFlight != []
    ensures var t := s.inFlight[0];
      var o := Step(cfg, s, OpComplete(ready, dma), true);
      var head := GpioSet(t.cs, false) + Finished(t, PostWait(t, ready));
      && |head| <= |o.log|
      && o.log[..|head|] == head
      && |o.sys.bus.queue| < |s.bus.queue|
      && Notices(o.log[|head|..]) == Drained(s.bus.queue[1..|s.bus.queue| - |o.sys.bus.queue|])
  {
    var t := s.inFlight[0];
    var head := GpioSet(t.cs, false) + Finished(t, PostWait(t, ready));
    var tail := Bus(s.bus.queue[1..], false);
    var r := TryStartRun(tail, dma);
    TryStartNotices(tail, dma);
    assert Step(cfg, s, OpComplete(ready, dma), true).log == head + r.log;
    assert (head + r.log)[|head|..] == r.log;
    assert tail.queue[..|tail.queue| - |r.bus.queue|] == s.bus.queue[1..|s.bus.queue| - |r.bus.queue|];
  }

  // ---------------------------------------------------------------------
  // The as-written cancel breaks the invariant.
  // ---------------------------------------------------------------------

  function SampleTransfer(user: nat): Txn
  {
    Txn(ItemTx, Gpio(Some(1), 4, true), Gpio(None, 0, false), DcUnused,
        0, 0, true, false, 1, DirTx, false, 0, false, true, false, user)
  }

  /** Transfer 1 is in flight; the client cancels (as written) and submits
    * transfer 2, which cannot start while busy. The completion interrupt of
    * transfer 1 then deasserts transfer 2's CS and reports transfer 2 done,
    * although its DMA never started. With the corrected cancel the same
    * interrupt reports transfer 1. */
  lemma CancelAsWrittenReportsUnsentItem()
    ensures var cfg := Config(4, true, true);
      var s0 := Sys(Bus([SampleTransfer(1)], true), [SampleTransfer(1)]);
      var s1 := Step(cfg, s0, OpCancel, false).sys;
      var s2 := Step(cfg, s1, OpSubmit(SampleTransfer(2), []), false).sys;
      var o := Step(cfg, s2, OpComplete(true, []), false);
      && Inv(s0) && !Inv(s1)
      && s2.inFlight == [SampleTransfer(1)]
      && o.log == GpioSet(SampleTransfer(2).cs, false) + [DoneCb(2)]
  {
  }

  lemma CancelKeepInFlightReportsSentItem()
    ensures var cfg := Config(4, true, true);
      var s0 := Sys(Bus([SampleTransfer(1)], true), [SampleTransfer(1)]);
      var s1 := Step(cfg, s0, OpCancel, true).sys;
      var s2 := Step(cfg, s1, OpSubmit(SampleTransfer(2), []), true).sys;
      var o := Step(cfg, s2, OpComplete(true, []), true);
      && Inv(s1) && Inv(s2)
      && o.log[..2] == GpioSet(SampleTransfer(1).cs, false) + [DoneCb(1)]
  {
  }

  /** With the as-written cancel, a half-transfer interrupt of the cancelled
    * transfer finds an empty ring and clears busy, and the next submit starts
    * a second DMA while the first is still running. */
  lemma CancelAsWrittenAllowsTwoInFlight()
    ensures var cfg := Config(4, true, true);
      var s0 := Sys(Bus([SampleTransfer(1)], true), [SampleTransfer(1)]);
      var s1 := Step(cfg, s0, OpCancel, false).sys;
      var s2 := Step(cfg, s1, OpHalf, false).sys;
      var s3 := Step(cfg, s2, OpSubmit(SampleTransfer(2), []), false).sys;
      Inv(s0) && s3.inFlight == [SampleTransfer(1), SampleTransfer(2)]
  {
  }

  // ---------------------------------------------------------------------
  // The implementation over a ring buffer.
  // ---------------------------------------------------------------------

  /** `spi_bus_manager`. `spiAttached` and `storageAttached` say whether the
    * SPI handle and the storage pointer are non-null; the capacity is the
    * length of `q`. */
  class Manager {
    var q: array<Txn>
    var head: nat
    var tail: nat
    var busy: bool
    var spiAttached: bool
    var storageAttached: bool
    ghost var log: seq<Event>

    ghost predicate Valid()
      reads this`q, this`head, this`tail
    {
      q.Length < 0x1_0000 && RingIndices(q.Length, head, tail)
    }

    /** The queued items, oldest first. */
    ghost function Items(): seq<Txn>
      reads this`q, this`head, this`tail, q
      requires Valid()
    {
      RingSeq(q[..], head, tail)
    }

    ghost function Abs(): Bus
      reads this`q, this`head, this`tail, this`busy, q
      requires Valid()
    {
      Bus(Items(), busy)
    }

    ghost function Cfg(): Config
      reads this
    {
      Config(q.Length, spiAttached, storageAttached)
    }

    /** `spi_bus_manager_create`. */
    constructor (spiAttached: bool, storage: array<Txn>, storageAttached: bool)
      requires storage.Length < 0x1_0000
      ensures Valid() && q == storage && Items() == [] && !busy && log == []
      ensures this.spiAttached == spiAttached && this.storageAttached == storageAttached
      ensures head == 0 && tail == 0
    {
      q := storage;
      head := 0;
      tail := 0;
      busy := false;
      this.spiAttached := spiAttached;
      this.storageAttached := storageAttached;
      log := [];
    }

    /** `SPI_Q_FULL`. */
    function Full(): (r: bool)
      reads this, q
      requires Valid() && q.Length > 0
      ensures r <==> |Items()| == q.Length - 1
    {
      RingFull(q[..], head, tail);
      Incr(tail, q.Length) == head
    }

    /** `spi_bus_manager_is_idle`. */
    function IsIdle(): (r: bool)
      reads this, q
      requires Valid()
      ensures r <==> !busy && Items() == []
    {
      RingEmpty(q[..], head, tail);
      !busy && head == tail
    }

    /** `spi_bus_pop`. */
    method Pop()
      requires Valid()
      modifies this`head
      ensures Valid()
      ensures Items() == if old(Items()) == [] then [] else old(Items())[1..]
    {
      RingEmpty(q[..], head, tail);
      if head != tail {
        RingPop(q[..], head, tail);
        head := Incr(head, q.Length);
      }
    }

    /** `spi_bus_try_start`, recursing to drain callback items and rejected
      * transfers as the source does. */
    method TryStart(dma: seq<bool>) returns (rest: seq<bool>)
      requires Valid()
      modifies this`head, this`busy, this`log
      ensures Valid()
      ensures var r := TryStartRun(old(Abs()), dma);
        Abs() == r.bus && log == old(log) + r.log && rest == r.dma
      decreases |Items()|, 1
    {
      RingEmpty(q[..], head, tail);
      if busy || head == tail {
        return dma;
      }
      RingHead(q[..], head, tail);
      if q[head].kind == ItemCallback {
        rest := DrainCallback(dma);
      } else {
        rest := StartHead(dma);
      }
    }

    /** The head is a callback item: its `on_done`, pop, and go on. */
    method DrainCallback(dma: seq<bool>) returns (rest: seq<bool>)
      requires Valid() && !busy && Items() != [] && Items()[0].kind == ItemCallback
      modifies this`head, this`busy, this`log
      ensures Valid()
      ensures var r := TryStartRun(old(Abs()), dma);
        Abs() == r.bus && log == old(log) + r.log && rest == r.dma
      decreases |Items()|, 0
    {
      RingEmpty(q[..], head, tail);
      RingHead(q[..], head, tail);
      ghost var b := Abs();
      ghost var log0 := log;
      var t := q[head];
      TryStartCallbackStep(b, dma);
      if t.hasOnDone {
        log := log + [DoneCb(t.user)];
      }
      assert log == log0 + DoneNotice(t);
      Pop();
      rest := TryStart(dma);
      ConcatAssoc(log0, DoneNotice(t), TryStartRun(Bus(b.queue[1..], false), dma).log);
    }

    /** The head is a transfer: start its DMA; when the HAL refuses, release
      * CS, report the error, pop, and go on. */
    method StartHead(dma: seq<bool>) returns (rest: seq<bool>)
      requires Valid() && !busy && Items() != [] && Items()[0].kind != ItemCallback
      modifies this`head, this`busy, this`log
      ensures Valid()
      ensures var r := TryStartRun(old(Abs()), dma);
        Abs() == r.bus && log == old(log) + r.log && rest == r.dma
      decreases |Items()|, 0
    {
      RingEmpty(q[..], head, tail);
      RingHead(q[..], head, tail);
      ghost var b := Abs();
      ghost var log0 := log;
      var t := q[head];
      var ok := dma == [] || dma[0];
      if ok {
        TryStartAcceptStep(b, dma);
      } else {
        TryStartRejectStep(b, dma);
      }
      busy := true;
      rest := if dma == [] then [] else dma[1..];
      log := log + Attempt(t, ok);
      if !ok {
        log := log + GpioSet(t.cs, false);
        busy := false;
        if t.hasOnError {
          log := log + [ErrorCb(t.user)];
        }
        ghost var fail := Attempt(t, false) + GpioSet(t.cs, false) + ErrorNotice(t);
        assert log == log0 + fail;
        Pop();
        busy := false;
        ghost var rest0 := rest;
        rest := TryStart(rest);
        ConcatAssoc(log0, fail, TryStartRun(Bus(b.queue[1..], false), rest0).log);
      }
    }

    /** `spi_bus_manager_submit`. */
    method Submit(t: Txn, dma: seq<bool>) returns (st: Status, rest: seq<bool>)
      requires Valid()
      modifies this`head, this`tail, this`busy, this`log, q
      ensures Valid()
      ensures var (s, r) := SubmitRun(old(Cfg()), old(Abs()), t, dma);
        st == s && Abs() == r.bus && log == old(log) + r.log && rest == r.dma
      ensures st != Ok ==> q[..] == old(q[..]) && head == old(head) && tail == old(tail)
      ensures st == Ok ==> q[..] == old(q[..])[old(tail) := Stored(t)] && tail == Incr(old(tail), q.Length)
    {
      if !spiAttached || !storageAttached || q.Length == 0 {
        return ErrParam, dma;
      }
      if t.kind != ItemCallback {
        if t.cs.port.None? {
          return ErrParam, dma;
        }
        if !t.hasTx || t.len == 0 {
          return ErrParam, dma;
        }
        if t.dir == DirTxRx && !t.hasRx {
          return ErrParam, dma;
        }
      }
      if Full() {
        return ErrFull, dma;
      }
      PushStored(t);
      rest := TryStart(dma);
      st := Ok;
    }

    /** The copy of `*t` into the slot at the tail, its kind normalised, and
      * the tail moved on. */
    method PushStored(t: Txn)
      requires Valid() && q.Length > 0 && |Items()| != q.Length - 1
      modifies this`tail, q
      ensures Valid() && head == old(head) && busy == old(busy)
      ensures Items() == old(Items()) + [Stored(t)]
      ensures q[..] == old(q[..])[old(tail) := Stored(t)] && tail == Incr(old(tail), q.Length)
    {
      RingFull(q[..], head, tail);
      RingPush(q[..], head, tail, Stored(t));
      ghost var slots := q[..];
      q[tail] := t;
      if q[tail].kind != ItemCallback {
        q[tail] := q[tail].(kind := ItemTx);
      }
      assert q[..] == slots[tail := Stored(t)];
      tail := Incr(tail, q.Length);
    }

    /** `spi_bus_manager_enqueue_callback`; `hasCb` says whether the callback
      * pointer is non-null. */
    method EnqueueCallback(hasCb: bool, user: nat, dma: seq<bool>) returns (st: Status, rest: seq<bool>)
      requires Valid()
      modifies this`head, this`tail, this`busy, this`log, q
      ensures Valid()
      ensures var (s, r) := EnqueueCallbackRun(old(Cfg()), old(Abs()), hasCb, user, dma);
        st == s && Abs() == r.bus && log == old(log) + r.log && rest == r.dma
      ensures st != Ok ==> q[..] == old(q[..]) && head == old(head) && tail == old(tail)
      ensures st == Ok ==> q[..] == old(q[..])[old(tail) := CallbackItem(user)] && tail == Incr(old(tail), q.Length)
    {
      if !hasCb || !storageAttached || q.Length == 0 {
        return ErrParam, dma;
      }
      if Full() {
        return ErrFull, dma;
      }
      RingFull(q[..], head, tail);
      RingPush(q[..], head, tail, CallbackItem(user));
      q[tail] := CallbackItem(user);
      tail := Incr(tail, q.Length);
      assert Abs() == Bus(old(Items()) + [CallbackItem(user)], busy);
      rest := TryStart(dma);
      st := Ok;
    }

    /** `spi_bus_manager_cancel_pending`, as written. */
    method CancelPending()
      requires Valid()
      modifies this`tail
      ensures Valid() && head == old(head) && tail == head
      ensures Abs() == CancelAsWritten(old(Abs()))
    {
      tail := head;
    }

    /** `spi_bus_on_complete_common`; `readyInTime` is the ready predicate's
      * outcome before the timeout. */
    method OnCompleteCommon(half: bool, readyInTime: bool, dma: seq<bool>) returns (rest: seq<bool>)
      requires Valid()
      modifies this`head, this`busy, this`log
      ensures Valid()
      ensures var r := CompleteRun(old(Abs()), half, readyInTime, dma);
        Abs() == r.bus && log == old(log) + r.log && rest == r.dma
    {
      RingEmpty(q[..], head, tail);
      if head == tail {
        busy := false;
        return dma;
      }
      RingHead(q[..], head, tail);
      var t := q[head];
      if half {
        if t.hasOnHalf {
          log := log + [HalfCb(t.user)];
        }
        return dma;
      }
      ghost var b := Abs();
      ghost var log0 := log;
      log := log + GpioSet(t.cs, false);
      if !PostWait(t, readyInTime) {
        if t.hasOnError {
          log := log + [ErrorCb(t.user)];
        }
      } else {
        if t.hasOnDone {
          log := log + [DoneCb(t.user)];
        }
      }
      ghost var pre := GpioSet(t.cs, false) + Finished(t, PostWait(t, readyInTime));
      assert log == log0 + pre;
      Pop();
      busy := false;
      assert Abs() == Bus(b.queue[1..], false);
      rest := TryStart(dma);
      ConcatAssoc(log0, pre, TryStartRun(Bus(b.queue[1..], false), dma).log);
    }

    /** `spi_bus_manager_on_tx_half`; `own` says whether the interrupting SPI
      * handle is the bound one. */
    method OnTxHalf(own: bool)
      requires Valid()
      modifies this`head, this`busy, this`log
      ensures Valid()
      ensures own ==> Abs() == CompleteRun(old(Abs()), true, true, []).bus
                      && log == old(log) + CompleteRun(old(Abs()), true, true, []).log
      ensures !own ==> Abs() == old(Abs()) && log == old(log)
    {
      if !own {
        return;
      }
      var _ := OnCompleteCommon(true, true, []);
    }

    /** `spi_bus_manager_on_txrx_half`. */
    method OnTxRxHalf(own: bool)
      requires Valid()
      modifies this`head, this`busy, this`log
      ensures Valid()
      ensures own ==> Abs() == CompleteRun(old(Abs()), true, true, []).bus
                      && log == old(log) + CompleteRun(old(Abs()), true, true, []).log
      ensures !own ==> Abs() == old(Abs()) && log == old(log)
    {
      if !own {
        return;
      }
      var _ := OnCompleteCommon(true, true, []);
    }

    /** `spi_bus_manager_on_tx_cplt`. */
    method OnTxCplt(own: bool, readyInTime: bool, dma: seq<bool>) returns (rest: seq<bool>)
      requires Valid()
      modifies this`head, this`busy, this`log
      ensures Valid()
      ensures var r := if own then CompleteRun(old(Abs()), false, readyInTime, dma) else Run(old(Abs()), [], dma);
        Abs() == r.bus && log == old(log) + r.log && rest == r.dma
    {
      if !own {
        return dma;
      }
      rest := OnCompleteCommon(false, readyInTime, dma);
    }

    /** `spi_bus_manager_on_txrx_cplt`. */
    method OnTxRxCplt(own: bool, readyInTime: bool, dma: seq<bool>) returns (rest: seq<bool>)
      requires Valid()
      modifies this`head, this`busy, this`log
      ensures Valid()
      ensures var r := if own then CompleteRun(old(Abs()), false, readyInTime, dma) else Run(old(Abs()), [], dma);
        Abs() == r.bus && log == old(log) + r.log && rest == r.dma
    {
      if !own {
        return dma;
      }
      rest := OnCompleteCommon(false, readyInTime, dma);
    }

    /** `spi_bus_manager_on_error`. */
    method OnError(own: bool, dma: seq<bool>) returns (rest: seq<bool>)
      requires Valid()
      modifies this`head, this`busy, this`log
      ensures Valid()
      ensures var r := if own then ErrorRun(old(Abs()), dma) else Run(old(Abs()), [], dma);
        Abs() == r.bus && log == old(log) + r.log && rest == r.dma
    {
      if !own {
        return dma;
      }
      RingEmpty(q[..], head, tail);
      ghost var b := Abs();
      ghost var log0 := log;
      ghost var pre: seq<Event> := [];
      if head != tail {
        RingHead(q[..], head, tail);
        var t := q[head];
        log := log + GpioSet(t.cs, false);
        if t.hasOnError {
          log := log + [ErrorCb(t.user)];
        }
        pre := GpioSet(t.cs, false) + ErrorNotice(t);
        assert log == log0 + pre;
        Pop();
      }
      busy := false;
      assert Abs() == Bus(if b.queue == [] then [] else b.queue[1..], false);
      rest := TryStart(dma);
      ConcatAssoc(log0, pre, TryStartRun(Bus(if b.queue == [] then [] else b.queue[1..], false), dma).log);
    }
  }
}
