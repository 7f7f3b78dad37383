/** The LVGL flush adapter for the 3.7" panel (the newer one, without change
  * detection): it picks a refresh mode per frame, rotates the frame into a
  * work buffer when the display is rotated, and either drives the panel
  * driver's blocking calls or queues the frame on the SPI bus manager and
  * hands `lv_display_flush_ready` to the bus's completion callback.
  *
  * The adapter's calls into the panel driver and into LVGL are recorded in a
  * ghost log of `Call`s; the statuses the driver returns are parameters. */
module LvglAdapter {
  import opened Common
  import opened I1Bitmap
  import EpdDriver
  import SpiBusTypes
  import SpiBusShared

  type int8 = x: int | -0x80 <= x < 0x80

  /** Bytes per row of an I1 buffer `w` pixels wide (`lv_draw_buf_width_to_stride`
    * with no extra row alignment). */
  function Stride(w: nat): (s: nat)
    ensures w <= 8 * s < w + 8
  {
    (w + 7) / 8
  }

  /** Bytes the rotator writes into the work buffer: the rotated frame. */
  function WorkBytes(w: nat, h: nat, rot: Rotation): nat
  {
    DstH(w, h, rot) * Stride(DstW(w, h, rot))
  }

  // ---- Refresh policy ----

  /** `(uint8_t)(refresh_cycles_before_gc - 1)`. */
  function GcThreshold(cycles: int8): (t: byte)
    ensures 1 <= cycles ==> t == cycles - 1
    ensures cycles <= 0 ==> t == cycles + 255
  {
    U8(cycles - 1)
  }

  /** One refresh decision: a GC (full) refresh when the counter has reached
    * the threshold, which restarts the count; otherwise the default mode and
    * the counter goes up by one. Returns (is GC, new counter). */
  function Advance(counter: byte, t: byte): (r: (bool, byte))
    ensures r.0 <==> counter >= t
    ensures r.1 <= t
    ensures r.0 ==> r.1 == 0
    ensures !r.0 ==> r.1 == counter + 1
  {
    if counter >= t then (true, 0) else (false, counter + 1)
  }

  /** The GC flags and the final counter of `n` successive refreshes. */
  function Run(counter: byte, t: byte, n: nat): (r: (seq<bool>, byte))
    ensures |r.0| == n
    decreases n
  {
    if n == 0 then ([], counter)
    else
      var (gc, c) := Advance(counter, t);
      var (rest, last) := Run(c, t, n - 1);
      ([gc] + rest, last)
  }

  lemma {:induction false} RunSplit(counter: byte, t: byte, a: nat, b: nat)
    ensures Run(counter, t, a + b).0 == Run(counter, t, a).0 + Run(Run(counter, t, a).1, t, b).0
    ensures Run(counter, t, a + b).1 == Run(Run(counter, t, a).1, t, b).1
    decreases a
  {
    if a > 0 {
      var c := Advance(counter, t).1;
      RunSplit(c, t, a - 1, b);
      assert a + b - 1 == (a - 1) + b;
    }
  }

  /** Below the threshold every refresh uses the default mode. */
  lemma {:induction false} RunQuiet(counter: byte, t: byte, k: nat)
    requires counter + k <= t
    ensures Run(counter, t, k).0 == seq(k, _ => false)
    ensures Run(counter, t, k).1 == counter + k
    decreases k
  {
    if k > 0 {
      RunQuiet(counter + 1, t, k - 1);
    }
  }

  /** Once counting from 0, the refreshes come in cycles of `t + 1`: `t` in
    * the default mode, then one GC, after which the counter is 0 again. */
  lemma GcPeriod(t: byte)
    ensures Run(0, t, t + 1).0 == seq(t, _ => false) + [true]
    ensures Run(0, t, t + 1).1 == 0
  {
    RunSplit(0, t, t, 1);
    RunQuiet(0, t, t);
  }

  /** Create and re-initialisation set the counter to 99, so the first frame
    * is a GC exactly when the threshold is at most 99; with 1 to 100 cycles
    * it always is. */
  lemma FirstFrameAfterInit(cycles: int8)
    ensures Advance(99, GcThreshold(cycles)).0 <==> GcThreshold(cycles) <= 99
    ensures 1 <= cycles <= 100 ==> Advance(99, GcThreshold(cycles)) == (true, 0)
    ensures cycles == 0 ==> !Advance(99, GcThreshold(cycles)).0
  {
  }

  // ---- Calls out of the adapter ----

  /** The buffer a display call is given: LVGL's pixel data (after the
    * palette) or the adapter's work buffer. */
  datatype Buffer = PixelData | WorkBuffer

  datatype Call =
    | Init1Gray                                        // epd3in7_driver_init_1_gray
    | Display(frame: Buffer, mode: EpdDriver.Mode)     // epd3in7_driver_display_1_gray
    | Sleep                                            // epd3in7_driver_sleep(SLEEP_NORMAL)
    | DisplayDma(frame: Buffer, mode: EpdDriver.Mode)
    | SleepDma
    | WaitIdle                                         // busy-wait until the bus manager is idle
    | EnqueueDone                                      // spi_bus_manager_enqueue_callback(done_cb_mgr, h)
    | FlushReady(disp: nat)                            // lv_display_flush_ready(disp)
    | AsyncFlushReady(target: Option<nat>)             // lv_async_call(flush_ready_async, pending_disp)

  /** What `spi_bus_manager_enqueue_callback` did with the completion
    * callback, whose status the DMA flush ignores: queued behind the
    * transfers still pending, run at once inside the call because the bus
    * had nothing left to do, or refused (a full ring). */
  datatype Enqueued = Queued | RanNow | Refused

  /** The outcome of `enqueue_callback` on a manager in state `b`. */
  function EnqueuedBy(cfg: SpiBusShared.Config, b: SpiBusShared.Bus, user: nat, dma: seq<bool>): Enqueued
  {
    var (st, r) := SpiBusShared.EnqueueCallbackRun(cfg, b, true, user, dma);
    if st != SpiBusTypes.Ok then Refused
    else if r.bus.queue == [] then RanNow
    else Queued
  }

  /** The three outcomes as the bus manager produces them: a refusal is a
    * status other than OK and reports nothing; a callback run at once is
    * the last notification, after those of the items drained before it,
    * and leaves the bus idle; a queued callback is the last item of the
    * queue, behind a transfer in flight. */
  lemma EnqueuedOutcomes(cfg: SpiBusShared.Config, b: SpiBusShared.Bus, user: nat, dma: seq<bool>)
    requires SpiBusShared.Fits(cfg, b)
    ensures var (st, r) := SpiBusShared.EnqueueCallbackRun(cfg, b, true, user, dma);
      && (EnqueuedBy(cfg, b, user, dma) == Refused <==> st != SpiBusTypes.Ok)
      && (EnqueuedBy(cfg, b, user, dma) == Refused ==> r.log == [])
      && (EnqueuedBy(cfg, b, user, dma) == RanNow ==>
            !b.busy && !r.bus.busy
            && SpiBusTypes.Notices(r.log) == SpiBusShared.Drained(b.queue) + [SpiBusTypes.DoneCb(user)])
      && (EnqueuedBy(cfg, b, user, dma) == Queued ==>
            r.bus.busy && r.bus.queue != [] && r.bus.queue[|r.bus.queue| - 1] == SpiBusShared.CallbackItem(user))
  {
    var (st, r) := SpiBusShared.EnqueueCallbackRun(cfg, b, true, user, dma);
    SpiBusShared.EnqueueCallbackOutcome(cfg, b, true, user, dma);
    if st == SpiBusTypes.Ok {
      var cb := SpiBusShared.CallbackItem(user);
      var b' := SpiBusShared.Bus(b.queue + [cb], b.busy);
      SpiBusShared.TryStartSuffix(b', dma);
      if !b.busy {
        SpiBusShared.TryStartOneInFlight(b', dma);
        SpiBusShared.TryStartNotices(b', dma);
        if r.bus.queue == [] {
          assert b'.queue[..|b'.queue| - |r.bus.queue|] == b.queue + [cb];
          SpiBusShared.DrainedAppend(b.queue, cb);
        }
      }
    }
  }

  /** The handle's scalar fields. */
  datatype State = State(counter: byte, initialized: bool, sleeping: bool, dmaInProgress: bool, pendingDisp: Option<nat>)

  datatype Effect = Effect(state: State, calls: seq<Call>)

  /** The mode of the next frame and the counter after it, from a handle whose
    * counter is `counter`. */
  function ChooseMode(counter: byte, cycles: int8, defaultMode: EpdDriver.Mode): (r: (EpdDriver.Mode, byte))
    ensures r.0 == EpdDriver.ModeGc || r.0 == defaultMode
    ensures r.1 <= GcThreshold(cycles)
    ensures counter >= GcThreshold(cycles) ==> r == (EpdDriver.ModeGc, 0)
  {
    var (gc, c) := Advance(counter, GcThreshold(cycles));
    (if gc then EpdDriver.ModeGc else defaultMode, c)
  }

  predicate ReadyOnceAtEnd(calls: seq<Call>, disp: nat)
  {
    calls != [] && calls[|calls| - 1] == FlushReady(disp)
    && forall i :: 0 <= i < |calls| - 1 ==> !calls[i].FlushReady?
  }

  predicate SleepsAfterDisplay(calls: seq<Call>)
  {
    forall i :: 0 <= i < |calls| && calls[i].Display? ==> i + 1 < |calls| && calls[i + 1] == Sleep
  }

  /** `epd3in7_lvgl_adapter_flush` from state `s`. `hasPx` is `px_map !=
    * NULL`, `hasWork` is `work_buffer != NULL`. */
  function FlushEffect(s: State, cycles: int8, defaultMode: EpdDriver.Mode, disp: nat, hasPx: bool,
                       rot: Rotation, hasWork: bool, initOk: bool, displayOk: bool, sleepOk: bool): Effect
  {
    if !hasPx then Effect(s, [FlushReady(disp)])
    else if !s.initialized && !initOk then Effect(s, [Init1Gray, FlushReady(disp)])
    else
      var pre := if s.initialized then [] else [Init1Gray];
      var (mode, c) := ChooseMode(if s.initialized then s.counter else 99, cycles, defaultMode);
      if rot != Rot0 && !hasWork then
        Effect(s.(counter := c, initialized := true, sleeping := true),
               pre + [Display(PixelData, EpdDriver.ModeGc), Sleep, FlushReady(disp)])
      else
        var frame := if rot != Rot0 then WorkBuffer else PixelData;
        Effect(s.(counter := c, initialized := displayOk && sleepOk, sleeping := true),
               pre + [Display(frame, mode), Sleep, FlushReady(disp)])
  }

  /** What every blocking flush does: `flush_ready` exactly once and last, a
    * sleep right after every display call, a display only when there is a
    * frame and an initialised panel (then in GC or the default mode, after
    * which the panel sleeps), the init first on a cold panel, nothing changed
    * otherwise, and the DMA fields left alone. */
  lemma FlushEffectShape(s: State, cycles: int8, defaultMode: EpdDriver.Mode, disp: nat, hasPx: bool,
                         rot: Rotation, hasWork: bool, initOk: bool, displayOk: bool, sleepOk: bool)
    ensures var e := FlushEffect(s, cycles, defaultMode, disp, hasPx, rot, hasWork, initOk, displayOk, sleepOk);
      && ReadyOnceAtEnd(e.calls, disp)
      && SleepsAfterDisplay(e.calls)
      && e.state.dmaInProgress == s.dmaInProgress && e.state.pendingDisp == s.pendingDisp
      && (forall i :: 0 <= i < |e.calls| && e.calls[i].Display? ==>
            e.calls[i].mode == EpdDriver.ModeGc || e.calls[i].mode == defaultMode)
      && (hasPx && (s.initialized || initOk) ==> |e.calls| >= 3 && e.calls[|e.calls| - 3].Display?)
      && (!(hasPx && (s.initialized || initOk)) ==> forall i :: 0 <= i < |e.calls| ==> !e.calls[i].Display?)
      && (hasPx && (s.initialized || initOk) ==> e.state.sleeping && e.state.counter <= GcThreshold(cycles))
      && (hasPx && !s.initialized ==> e.calls[0] == Init1Gray)
      && (!(hasPx && (s.initialized || initOk)) ==> e.state == s)
      && (e.state.initialized ==> s.initialized || initOk)
  {
  }

  /** `epd3in7_lvgl_adapter_flush_dma` from state `s`: falls back to the
    * blocking flush without a bus manager or without a work buffer (the
    * latter after the refresh decision has already been taken once).
    * Otherwise the frame and the sleep are queued, the DMA fields set, and
    * the completion callback enqueued with outcome `enq`; when it runs at
    * once, its effect follows. */
  function FlushDmaEffect(s: State, hasManager: bool, cycles: int8, defaultMode: EpdDriver.Mode, disp: nat,
                          hasPx: bool, rot: Rotation, hasWork: bool,
                          initOk: bool, displayOk: bool, sleepOk: bool, enq: Enqueued): Effect
  {
    if !hasPx then Effect(s, [FlushReady(disp)])
    else if !hasManager then FlushEffect(s, cycles, defaultMode, disp, hasPx, rot, hasWork, initOk, displayOk, sleepOk)
    else if !s.initialized && !initOk then Effect(s, [WaitIdle, Init1Gray, FlushReady(disp)])
    else
      var pre := if s.initialized then [] else [WaitIdle, Init1Gray];
      var (mode, c) := ChooseMode(if s.initialized then s.counter else 99, cycles, defaultMode);
      var s1 := s.(counter := c, initialized := true, sleeping := s.initialized && s.sleeping);
      if !hasWork then
        var e := FlushEffect(s1, cycles, defaultMode, disp, hasPx, rot, hasWork, initOk, displayOk, sleepOk);
        Effect(e.state, pre + e.calls)
      else QueueFrame(s1, pre, mode, disp, enq)
  }

  /** The end of the DMA flush from state `s` once the frame is staged:
    * after the calls `pre`, the frame and the sleep are queued, the DMA
    * fields set, and the completion callback enqueued with outcome `enq`;
    * when it runs at once, its effect follows. */
  function QueueFrame(s: State, pre: seq<Call>, mode: EpdDriver.Mode, disp: nat, enq: Enqueued): Effect
  {
    var s2 := s.(sleeping := true, dmaInProgress := true, pendingDisp := Some(disp));
    var queued := pre + [DisplayDma(WorkBuffer, mode), SleepDma, EnqueueDone];
    if enq == RanNow then Effect(DmaDoneEffect(s2).state, queued + DmaDoneEffect(s2).calls)
    else Effect(s2, queued)
  }

  /** How a flush that queued its frame ends: `flush_ready` is never
    * called by the flush itself; with the callback queued or refused the
    * flush ends with the enqueue and a transfer in flight; with the
    * callback run at once it ends with the asynchronous `flush_ready` for
    * `disp` and no transfer in flight. */
  predicate QueuedEnd(e: Effect, disp: nat, enq: Enqueued)
  {
    && (forall i :: 0 <= i < |e.calls| ==> !e.calls[i].FlushReady?)
    && |e.calls| >= 3 && e.state.pendingDisp == Some(disp) && e.state.sleeping
    && (enq != RanNow ==> e.calls[|e.calls| - 1] == EnqueueDone && e.state.dmaInProgress)
    && (enq == RanNow ==>
          && e.calls[|e.calls| - 2] == EnqueueDone
          && e.calls[|e.calls| - 1] == AsyncFlushReady(Some(disp))
          && !e.state.dmaInProgress)
    && EnqueueDone in e.calls
  }

  lemma QueueFrameShape(s: State, pre: seq<Call>, mode: EpdDriver.Mode, disp: nat, enq: Enqueued)
    requires forall i :: 0 <= i < |pre| ==> !pre[i].FlushReady? && pre[i] != EnqueueDone
    ensures QueuedEnd(QueueFrame(s, pre, mode, disp, enq), disp, enq)
  {
    var e := QueueFrame(s, pre, mode, disp, enq);
    assert e.calls[|pre| + 2] == EnqueueDone;
  }

  /** Every DMA flush that does not queue the frame hands it back with
    * `flush_ready` exactly once and last. One that does (exactly when there
    * is a frame, a bus manager, an initialised panel and a work buffer) calls
    * `flush_ready` itself never, and ends as the completion callback's
    * outcome says: queued, with a transfer in flight for `disp`; run at
    * once, with the asynchronous `flush_ready` for `disp` already posted
    * and no transfer in flight; refused, with `dma_in_progress` set and
    * nothing left that would ever hand the frame back. */
  lemma FlushDmaEffectShape(s: State, hasManager: bool, cycles: int8, defaultMode: EpdDriver.Mode, disp: nat,
                            hasPx: bool, rot: Rotation, hasWork: bool,
                            initOk: bool, displayOk: bool, sleepOk: bool, enq: Enqueued)
    ensures var e := FlushDmaEffect(s, hasManager, cycles, defaultMode, disp, hasPx, rot, hasWork, initOk, displayOk, sleepOk, enq);
      var queues := hasPx && hasManager && (s.initialized || initOk) && hasWork;
      && (!queues ==> ReadyOnceAtEnd(e.calls, disp) && EnqueueDone !in e.calls)
      && (queues ==> QueuedEnd(e, disp, enq))
  {
    if hasPx && hasManager && (s.initialized || initOk) && hasWork {
      var pre := if s.initialized then [] else [WaitIdle, Init1Gray];
      var (mode, c) := ChooseMode(if s.initialized then s.counter else 99, cycles, defaultMode);
      var s1 := s.(counter := c, initialized := true, sleeping := s.initialized && s.sleeping);
      QueueFrameShape(s1, pre, mode, disp, enq);
    } else if hasPx && hasManager && (s.initialized || initOk) && !hasWork {
      FallbackShape(s, cycles, defaultMode, disp, rot, initOk, displayOk, sleepOk);
    } else if hasPx && !hasManager {
      FlushEffectShape(s, cycles, defaultMode, disp, hasPx, rot, hasWork, initOk, displayOk, sleepOk);
      FlushNeverEnqueues(s, cycles, defaultMode, disp, hasPx, rot, hasWork, initOk, displayOk, sleepOk);
    }
  }

  /** Without a work buffer the DMA flush falls back to the blocking flush,
    * after the bus wait and the init on a cold panel. */
  lemma FallbackShape(s: State, cycles: int8, defaultMode: EpdDriver.Mode, disp: nat,
                      rot: Rotation, initOk: bool, displayOk: bool, sleepOk: bool)
    requires s.initialized || initOk
    ensures var e := FlushDmaEffect(s, true, cycles, defaultMode, disp, true, rot, false, initOk, displayOk, sleepOk, Queued);
      ReadyOnceAtEnd(e.calls, disp) && EnqueueDone !in e.calls
  {
    var pre := if s.initialized then [] else [WaitIdle, Init1Gray];
    var (mode, c) := ChooseMode(if s.initialized then s.counter else 99, cycles, defaultMode);
    var s1 := s.(counter := c, initialized := true, sleeping := s.initialized && s.sleeping);
    var f := FlushEffect(s1, cycles, defaultMode, disp, true, rot, false, initOk, displayOk, sleepOk);
    FlushEffectShape(s1, cycles, defaultMode, disp, true, rot, false, initOk, displayOk, sleepOk);
    FlushNeverEnqueues(s1, cycles, defaultMode, disp, true, rot, false, initOk, displayOk, sleepOk);
    assert FlushDmaEffect(s, true, cycles, defaultMode, disp, true, rot, false, initOk, displayOk, sleepOk, Queued).calls == pre + f.calls;
  }

  /** The blocking flush never touches the bus manager. */
  lemma FlushNeverEnqueues(s: State, cycles: int8, defaultMode: EpdDriver.Mode, disp: nat, hasPx: bool,
                           rot: Rotation, hasWork: bool, initOk: bool, displayOk: bool, sleepOk: bool)
    ensures EnqueueDone !in FlushEffect(s, cycles, defaultMode, disp, hasPx, rot, hasWork, initOk, displayOk, sleepOk).calls
  {
  }

  /** `epd3in7_lvgl_adapter_dma_done_cb`, run when the bus reaches the queued callback. */
  function DmaDoneEffect(s: State): (e: Effect)
    ensures !e.state.dmaInProgress
    ensures e.calls == [AsyncFlushReady(s.pendingDisp)]
    ensures e.state.(dmaInProgress := s.dmaInProgress) == s
  {
    Effect(s.(dmaInProgress := false), [AsyncFlushReady(s.pendingDisp)])
  }

  /** A frame whose completion callback was queued is handed back to LVGL,
    * for the same display, when the callback runs. */
  lemma DmaFlushCompletes(s: State, cycles: int8, defaultMode: EpdDriver.Mode, disp: nat,
                          rot: Rotation, initOk: bool, displayOk: bool, sleepOk: bool)
    requires s.initialized || initOk
    ensures var e := FlushDmaEffect(s, true, cycles, defaultMode, disp, true, rot, true, initOk, displayOk, sleepOk, Queued);
      e.state.dmaInProgress
      && DmaDoneEffect(e.state).calls == [AsyncFlushReady(Some(disp))]
      && !DmaDoneEffect(e.state).state.dmaInProgress
  {
  }

  /** Without a work buffer the DMA flush takes the refresh decision and then
    * calls the blocking flush, which takes it again: the counter moves two
    * steps for one frame. */
  lemma FallbackAdvancesTwice(s: State, cycles: int8, defaultMode: EpdDriver.Mode, disp: nat,
                              initOk: bool, displayOk: bool, sleepOk: bool, enq: Enqueued)
    requires s.initialized
    ensures var e := FlushDmaEffect(s, true, cycles, defaultMode, disp, true, Rot0, false, initOk, displayOk, sleepOk, enq);
      var c1 := ChooseMode(s.counter, cycles, defaultMode).1;
      e.state.counter == ChooseMode(c1, cycles, defaultMode).1
      && e.calls == [Display(PixelData, ChooseMode(c1, cycles, defaultMode).0), Sleep, FlushReady(disp)]
  {
  }

  /** A failed display or sleep clears `is_initialized`, so the next frame
    * re-initialises the panel before drawing and restarts the counter at 99. */
  lemma FailureForcesReinit(s: State, cycles: int8, defaultMode: EpdDriver.Mode, disp: nat,
                            rot: Rotation, hasWork: bool, displayOk: bool, sleepOk: bool,
                            disp2: nat, rot2: Rotation, hasWork2: bool,
                            initOk2: bool, displayOk2: bool, sleepOk2: bool)
    requires s.initialized
    requires rot == Rot0 || hasWork
    requires !displayOk || !sleepOk
    requires rot2 == Rot0 || hasWork2
    ensures var e1 := FlushEffect(s, cycles, defaultMode, disp, true, rot, hasWork, true, displayOk, sleepOk);
      var e2 := FlushEffect(e1.state, cycles, defaultMode, disp2, true, rot2, hasWork2, initOk2, displayOk2, sleepOk2);
      !e1.state.initialized && e2.calls[0] == Init1Gray
      && (initOk2 ==> e2.calls[1].Display? && e2.calls[1].mode == ChooseMode(99, cycles, defaultMode).0)
  {
  }

  /** A flush on an uninitialised panel whose init succeeds is the init
    * followed by a flush on the panel in its freshly initialised state. */
  lemma InitThenFlush(s: State, cycles: int8, defaultMode: EpdDriver.Mode, disp: nat,
                      rot: Rotation, hasWork: bool, displayOk: bool, sleepOk: bool)
    requires !s.initialized
    ensures var e := FlushEffect(s.(counter := 99, initialized := true, sleeping := false), cycles, defaultMode,
                                 disp, true, rot, hasWork, true, displayOk, sleepOk);
      FlushEffect(s, cycles, defaultMode, disp, true, rot, hasWork, true, displayOk, sleepOk)
        == Effect(e.state, [Init1Gray] + e.calls)
  {
  }

  /** The same split for the DMA flush with a bus manager. */
  lemma InitThenFlushDma(s: State, cycles: int8, defaultMode: EpdDriver.Mode, disp: nat,
                         rot: Rotation, hasWork: bool, displayOk: bool, sleepOk: bool, enq: Enqueued)
    requires !s.initialized
    ensures var e := FlushDmaEffect(s.(counter := 99, initialized := true, sleeping := false), true, cycles, defaultMode,
                                    disp, true, rot, hasWork, true, displayOk, sleepOk, enq);
      FlushDmaEffect(s, true, cycles, defaultMode, disp, true, rot, hasWork, true, displayOk, sleepOk, enq)
        == Effect(e.state, [WaitIdle, Init1Gray] + e.calls)
  {
  }

  /** `epd3in7_lvgl_adapter_free`: waits for the bus when there is a manager,
    * then puts an initialised panel to sleep. */
  function FreeEffect(s: State, hasManager: bool): (e: Effect)
    ensures !e.state.initialized
    ensures s.initialized ==> e.state.sleeping && e.calls != [] && e.calls[|e.calls| - 1] == (if hasManager then SleepDma else Sleep)
    ensures !s.initialized ==> e.state == s && forall i :: 0 <= i < |e.calls| ==> e.calls[i] == WaitIdle
  {
    var pre := if hasManager then [WaitIdle] else [];
    if s.initialized then
      Effect(s.(sleeping := true, initialized := false), pre + [if hasManager then SleepDma else Sleep])
    else Effect(s, pre)
  }

  /** The work buffer holding the frame the DMA flush queues: the rotated
    * frame, or for rotation 0 a byte copy of the pixel data. */
  ghost predicate Staged(work: seq<bv8>, src: seq<bv8>, w: nat, h: nat, rot: Rotation)
  {
    if rot != Rot0 then Rotated(work, Stride(DstW(w, h, rot)), src, Stride(w), w, h, rot)
    else
      var n := h * Stride(w);
      n <= |work| && n <= |src| && work[..n] == src[..n]
  }

  /** `memcpy(dst, src, n)`. */
  method CopyFrame(src: seq<bv8>, dst: array<bv8>, n: nat)
    requires n <= |src| && n <= dst.Length
    modifies dst
    ensures dst[..n] == src[..n]
    ensures dst[n..] == old(dst[n..])
  {
    forall i | 0 <= i < n {
      dst[i] := src[i];
    }
  }

  /** `epd3in7_lvgl_adapter_handle`. `work` is the work buffer (null when
    * none was given); `hasManager` is `spi_mgr != NULL`. */
  class Adapter {
    const work: array?<bv8>
    const cycles: int8
    const defaultMode: EpdDriver.Mode
    const hasManager: bool
    const csGpio: SpiBusTypes.Gpio
    const dcGpio: SpiBusTypes.Gpio
    var refreshCounter: byte
    var isInitialized: bool
    var isSleeping: bool
    var dmaInProgress: bool
    var pendingDisp: Option<nat>
    ghost var calls: seq<Call>

    function St(): State
      reads this`refreshCounter, this`isInitialized, this`isSleeping, this`dmaInProgress, this`pendingDisp
    {
      State(refreshCounter, isInitialized, isSleeping, dmaInProgress, pendingDisp)
    }

    /** `epd3in7_lvgl_adapter_create`: the counter starts at 99 so that the
      * first frame is a GC; no bus manager and zeroed pin descriptors. The
      * C code leaves the two DMA fields unset; they start cleared here. */
    constructor Create(work: array?<bv8>, cycles: int8, defaultMode: EpdDriver.Mode)
      ensures St() == State(99, false, false, false, None) && calls == []
      ensures this.work == work && this.cycles == cycles && this.defaultMode == defaultMode
      ensures !hasManager
      ensures csGpio == SpiBusTypes.Gpio(None, 0, false) && dcGpio == SpiBusTypes.Gpio(None, 0, false)
    {
      this.work := work;
      this.cycles := cycles;
      this.defaultMode := defaultMode;
      hasManager := false;
      csGpio := SpiBusTypes.Gpio(None, 0, false);
      dcGpio := SpiBusTypes.Gpio(None, 0, false);
      refreshCounter := 99;
      isInitialized := false;
      isSleeping := false;
      dmaInProgress := false;
      pendingDisp := None;
      calls := [];
    }

    /** `epd3in7_lvgl_adapter_create_with_bus_manager`: as `Create`, plus the
      * manager and the driver's CS (active low) and DC (active high) pins. */
    constructor CreateWithBusManager(work: array?<bv8>, cycles: int8, defaultMode: EpdDriver.Mode, pins: EpdDriver.Pins)
      ensures St() == State(99, false, false, false, None) && calls == []
      ensures this.work == work && this.cycles == cycles && this.defaultMode == defaultMode
      ensures hasManager
      ensures csGpio == SpiBusTypes.Gpio(pins.csPort, pins.csPin, true)
      ensures dcGpio == SpiBusTypes.Gpio(pins.dcPort, pins.dcPin, false)
    {
      this.work := work;
      this.cycles := cycles;
      this.defaultMode := defaultMode;
      hasManager := true;
      csGpio := SpiBusTypes.Gpio(pins.csPort, pins.csPin, true);
      dcGpio := SpiBusTypes.Gpio(pins.dcPort, pins.dcPin, false);
      refreshCounter := 99;
      isInitialized := false;
      isSleeping := false;
      dmaInProgress := false;
      pendingDisp := None;
      calls := [];
    }

    /** The refresh decision, applied to the handle. */
    method PickMode() returns (mode: EpdDriver.Mode)
      modifies this`refreshCounter
      ensures (mode, refreshCounter) == ChooseMode(old(refreshCounter), cycles, defaultMode)
    {
      if refreshCounter >= GcThreshold(cycles) {
        mode := EpdDriver.ModeGc;
        refreshCounter := 0;
      } else {
        mode := defaultMode;
        refreshCounter := refreshCounter + 1;
      }
    }

    /** `epd3in7_lvgl_adapter_flush`. `pxMap` is LVGL's buffer (8 palette
      * bytes, then the pixels); `w`/`h` are the area's size. */
    method Flush(disp: nat, pxMap: Option<seq<bv8>>, w: nat, h: nat, rot: Rotation,
                 initOk: bool, displayOk: bool, sleepOk: bool)
      requires pxMap.Some? ==> 8 + h * Stride(w) <= |pxMap.value|
      requires work != null ==> WorkBytes(w, h, rot) <= work.Length
      modifies this`refreshCounter, this`isInitialized, this`isSleeping, this`calls, work
      ensures var e := FlushEffect(old(St()), cycles, defaultMode, disp, pxMap.Some?, rot, work != null,
                                   initOk, displayOk, sleepOk);
        St() == e.state && calls == old(calls) + e.calls
      ensures work != null && pxMap.Some? && rot != Rot0 && (old(isInitialized) || initOk) ==>
        Rotated(work[..], Stride(DstW(w, h, rot)), pxMap.value[8..], Stride(w), w, h, rot)
      ensures work != null && (pxMap.None? || rot == Rot0 || (!old(isInitialized) && !initOk)) ==> unchanged(work)
    {
      if pxMap.None? {
        calls := calls + [FlushReady(disp)];
        return;
      }
      if !isInitialized && !initOk {
        calls := calls + [Init1Gray, FlushReady(disp)];
      } else if !isInitialized {
        FlushCold(disp, pxMap.value[8..], w, h, rot, displayOk, sleepOk);
      } else {
        FlushInitialized(disp, pxMap.value[8..], w, h, rot, displayOk, sleepOk);
      }
    }

    /** The blocking flush on an uninitialised panel whose init succeeds. */
    method FlushCold(disp: nat, src: seq<bv8>, w: nat, h: nat, rot: Rotation, displayOk: bool, sleepOk: bool)
      requires !isInitialized
      requires h * Stride(w) <= |src|
      requires work != null ==> WorkBytes(w, h, rot) <= work.Length
      modifies this`refreshCounter, this`isInitialized, this`isSleeping, this`calls, work
      ensures var e := FlushEffect(old(St()), cycles, defaultMode, disp, true, rot, work != null, true, displayOk, sleepOk);
        St() == e.state && calls == old(calls) + e.calls
      ensures work != null && rot != Rot0 ==> Rotated(work[..], Stride(DstW(w, h, rot)), src, Stride(w), w, h, rot)
      ensures work != null && rot == Rot0 ==> unchanged(work)
    {
      ghost var c0 := calls;
      ghost var s0 := St();
      calls := calls + [Init1Gray];
      refreshCounter := 99;
      isInitialized := true;
      isSleeping := false;
      ghost var e := FlushEffect(St(), cycles, defaultMode, disp, true, rot, work != null, true, displayOk, sleepOk);
      FlushInitialized(disp, src, w, h, rot, displayOk, sleepOk);
      InitThenFlush(s0, cycles, defaultMode, disp, rot, work != null, displayOk, sleepOk);
      assert calls == c0 + ([Init1Gray] + e.calls);
    }

    /** The part of the flush after the panel is known to be initialised:
      * refresh decision, rotation, display, sleep, `flush_ready`. */
    method FlushInitialized(disp: nat, src: seq<bv8>, w: nat, h: nat, rot: Rotation, displayOk: bool, sleepOk: bool)
      requires isInitialized
      requires h * Stride(w) <= |src|
      requires work != null ==> WorkBytes(w, h, rot) <= work.Length
      modifies this`refreshCounter, this`isInitialized, this`isSleeping, this`calls, work
      ensures var e := FlushEffect(old(St()), cycles, defaultMode, disp, true, rot, work != null, true, displayOk, sleepOk);
        St() == e.state && calls == old(calls) + e.calls
      ensures work != null && rot != Rot0 ==> Rotated(work[..], Stride(DstW(w, h, rot)), src, Stride(w), w, h, rot)
      ensures work != null && rot == Rot0 ==> unchanged(work)
    {
      var mode := PickMode();
      var frame := PixelData;
      if rot != Rot0 {
        if work == null {
          calls := calls + [Display(PixelData, EpdDriver.ModeGc), Sleep, FlushReady(disp)];
          isSleeping := true;
          return;
        }
        Rotate(src, work, w, h, Stride(w), Stride(DstW(w, h, rot)), rot);
        frame := WorkBuffer;
      }
      calls := calls + [Display(frame, mode), Sleep, FlushReady(disp)];
      isInitialized := displayOk && sleepOk;
      isSleeping := true;
    }

    /** `epd3in7_lvgl_adapter_flush_dma`: with a bus manager and a work
      * buffer, the frame is copied or rotated into the work buffer, queued
      * with the sleep sequence behind it, and `flush_ready` is left to the
      * completion callback enqueued last, with outcome `enq`. */
    method FlushDma(disp: nat, pxMap: Option<seq<bv8>>, w: nat, h: nat, rot: Rotation,
                    initOk: bool, displayOk: bool, sleepOk: bool, enq: Enqueued)
      requires pxMap.Some? ==> 8 + h * Stride(w) <= |pxMap.value|
      requires work != null ==> WorkBytes(w, h, rot) <= work.Length
      modifies this`refreshCounter, this`isInitialized, this`isSleeping, this`dmaInProgress, this`pendingDisp, this`calls, work
      ensures var e := FlushDmaEffect(old(St()), hasManager, cycles, defaultMode, disp, pxMap.Some?, rot, work != null,
                                      initOk, displayOk, sleepOk, enq);
        St() == e.state && calls == old(calls) + e.calls
      ensures work != null && hasManager && pxMap.Some? && (old(isInitialized) || initOk) ==>
        Staged(work[..], pxMap.value[8..], w, h, rot)
    {
      if pxMap.None? {
        calls := calls + [FlushReady(disp)];
        return;
      }
      if !hasManager {
        Flush(disp, pxMap, w, h, rot, initOk, displayOk, sleepOk);
        return;
      }
      if !isInitialized && !initOk {
        calls := calls + [WaitIdle, Init1Gray, FlushReady(disp)];
      } else if !isInitialized {
        FlushDmaCold(disp, pxMap.value, w, h, rot, displayOk, sleepOk, enq);
      } else {
        FlushDmaInitialized(disp, pxMap.value, w, h, rot, displayOk, sleepOk, enq);
      }
    }

    /** The DMA flush on an uninitialised panel whose blocking init succeeds. */
    method FlushDmaCold(disp: nat, pxMap: seq<bv8>, w: nat, h: nat, rot: Rotation, displayOk: bool, sleepOk: bool, enq: Enqueued)
      requires !isInitialized && hasManager
      requires 8 + h * Stride(w) <= |pxMap|
      requires work != null ==> WorkBytes(w, h, rot) <= work.Length
      modifies this`refreshCounter, this`isInitialized, this`isSleeping, this`dmaInProgress, this`pendingDisp, this`calls, work
      ensures var e := FlushDmaEffect(old(St()), true, cycles, defaultMode, disp, true, rot, work != null, true, displayOk, sleepOk, enq);
        St() == e.state && calls == old(calls) + e.calls
      ensures work != null ==> Staged(work[..], pxMap[8..], w, h, rot)
    {
      ghost var s0 := St();
      InitThenFlushDma(s0, cycles, defaultMode, disp, rot, work != null, displayOk, sleepOk, enq);
      calls := calls + [WaitIdle, Init1Gray];
      refreshCounter := 99;
      isInitialized := true;
      isSleeping := false;
      assert St() == s0.(counter := 99, initialized := true, sleeping := false);
      FlushDmaInitialized(disp, pxMap, w, h, rot, displayOk, sleepOk, enq);
    }

    /** The part of the DMA flush after the panel is known to be initialised. */
    method FlushDmaInitialized(disp: nat, pxMap: seq<bv8>, w: nat, h: nat, rot: Rotation, displayOk: bool, sleepOk: bool, enq: Enqueued)
      requires isInitialized && hasManager
      requires 8 + h * Stride(w) <= |pxMap|
      requires work != null ==> WorkBytes(w, h, rot) <= work.Length
      modifies this`refreshCounter, this`isInitialized, this`isSleeping, this`dmaInProgress, this`pendingDisp, this`calls, work
      ensures var e := FlushDmaEffect(old(St()), true, cycles, defaultMode, disp, true, rot, work != null, true, displayOk, sleepOk, enq);
        St() == e.state && calls == old(calls) + e.calls
      ensures work != null ==> Staged(work[..], pxMap[8..], w, h, rot)
    {
      var mode := PickMode();
      var src := pxMap[8..];
      if work == null {
        Flush(disp, Some(pxMap), w, h, rot, true, displayOk, sleepOk);
        return;
      }
      if rot != Rot0 {
        Rotate(src, work, w, h, Stride(w), Stride(DstW(w, h, rot)), rot);
      } else {
        CopyFrame(src, work, h * Stride(w));
      }
      QueueTail(disp, mode, enq);
    }

    /** The queued refresh, the sleep behind it and the completion callback,
      * which runs inside the enqueue when the bus had nothing queued. */
    method QueueTail(disp: nat, mode: EpdDriver.Mode, enq: Enqueued)
      modifies this`isSleeping, this`dmaInProgress, this`pendingDisp, this`calls
      ensures var e := QueueFrame(old(St()), [], mode, disp, enq);
        St() == e.state && calls == old(calls) + e.calls
    {
      calls := calls + [DisplayDma(WorkBuffer, mode), SleepDma, EnqueueDone];
      isSleeping := true;
      dmaInProgress := true;
      pendingDisp := Some(disp);
      if enq == RanNow {
        // the bus had nothing queued, so the callback ran inside the call
        DmaDone();
      }
    }

    /** `epd3in7_lvgl_adapter_dma_done_cb` (reached through
      * `dma_done_cb_mgr`). */
    method DmaDone()
      modifies this`dmaInProgress, this`calls
      ensures var e := DmaDoneEffect(old(St()));
        St() == e.state && calls == old(calls) + e.calls
    {
      dmaInProgress := false;
      calls := calls + [AsyncFlushReady(pendingDisp)];
    }

    /** `epd3in7_lvgl_adapter_free`. */
    method Free()
      modifies this`isInitialized, this`isSleeping, this`calls
      ensures var e := FreeEffect(old(St()), hasManager);
        St() == e.state && calls == old(calls) + e.calls
    {
      if hasManager {
        calls := calls + [WaitIdle];
      }
      if isInitialized {
        if hasManager {
          calls := calls + [SleepDma];
        } else {
          calls := calls + [Sleep];
        }
        isSleeping := true;
        isInitialized := false;
      }
    }
  }
}
