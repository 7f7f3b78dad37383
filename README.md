# Weather-station firmware core, modelled in Dafny

This project models the core of the firmware of a small weather station:
an STM32 display unit with a 3.7" four-gray e-paper panel driven through
LVGL, and sensor transmitters that read a BME280 and talk over an RFM69
packet radio. Every module below stands for one source file of the
firmware. Where the C code changes state in place, the module holds a class
with those fields. Where the code only computes, the module holds functions
and the lemmas about them.

- `SpiBusTypes`, `SpiBusShared`, `SpiBusApp`: the two SPI bus managers.
  Each is a fixed-capacity ring of transaction descriptors that arbitrates
  one SPI peripheral among several devices. Pure functions on an abstract
  queue (`Bus`) describe every operation. The `Manager` class implements
  them over an array ring (`q`, `head`, `tail`, `busy`) and is proved to
  refine them. The shared manager also runs pure-callback items in queue
  order. The DMA start result and the bounded "ready" predicate are oracle
  parameters. GPIO writes and callbacks go to a ghost event log, which is
  where FIFO order and "at most one transfer in flight" are stated.
- `EpdDriver`, `EpdPack`: the e-paper driver. It covers the LUT cache, the
  mode-to-LUT map, the exact command and parameter bytes of every
  sequence, the partial-window encoding, the queue-based DMA variants, and
  the 4-gray two-plane packing. The wire is a ghost record of (DC level,
  bytes) transmits.
- `I1Bitmap`: the MSB-first one-bit-per-pixel helpers and the
  0/90/180/270-degree rotation. Both LVGL adapters carry this same code
  (`Core/Src/app/drivers/epd3in7_lvgl_adapter.c:6-77` and
  `Core/Src/epd3in7_lvgl_adapter.c:28-94`). The table cites the newer copy.
- `LvglAdapter`: the newer LVGL flush adapter. It covers the GC-every-N
  refresh policy, the blocking flush and the DMA flush queued on the bus
  manager, with its completion callback.
- `LvglSectors`: the older adapter. It adds FNV-1a 32-bit hashing and the
  splitting of a flushed area into row sectors.
- `Bmpxx80`, `Bme280Async`: the blocking BME280 driver and the
  non-blocking client on the shared bus manager. They cover register
  helpers, the initialisation clamps and calibration unpacking, the 9-byte
  burst decode, and the integer compensation formulas of section 4.2.3
  ("Compensation formulas") of the Bosch BME280 datasheet.
- `HourlyClock`: seconds elapsed within the current hour, tracked from RTC
  samples, and the wrap-around-aware elapsed check.
- `Rfm69`: register framing, operating modes, power-level and dBm mapping,
  the packet header (10-bit addresses packed into the control byte), the
  receive path and the ACK-request test.
- `Common`: optional values, the C fixed-width integer types and their
  wrap-around casts, C's truncating division, and the two's-complement
  `int32_t` cast.

## Model

| member | source | states |
|---|---|---|
| SpiBusTypes.StatusCode | Core/Inc/app/drivers/spi_bus_manager.h:35-42 | `SPI_BUS_MANAGER_OK` is the only status coded 0; every error code is negative |
| SpiBusTypes.AssertDeassertOpposite | Core/Src/app/drivers/spi_bus_manager.c:9-23 | asserting and deasserting a used line write the same pin once each, at opposite levels, and an active-low line is driven low when asserted |
| SpiBusTypes.Incr | Core/Src/app/drivers/spi_bus_manager.c:5 | `SPI_Q_INCR` always yields a slot index below the capacity |
| SpiBusTypes.IncrStep | Core/Src/app/drivers/spi_bus_manager.c:5 | `SPI_Q_INCR` moves to the next slot and wraps to 0 after the last one |
| SpiBusTypes.RingEmpty | Core/Src/app/drivers/spi_bus_manager.c:6 | `SPI_Q_EMPTY` holds exactly when nothing is queued, and a ring never holds as many entries as it has slots |
| SpiBusTypes.RingFull | Core/Src/app/drivers/spi_bus_manager.c:7 | `SPI_Q_FULL` holds exactly when capacity - 1 entries are queued: one slot always stays free |
| SpiBusTypes.RingHead | Core/Src/app/drivers/spi_bus_manager.c:63-68 | the slot at `q_head` holds the oldest queued entry |
| SpiBusTypes.RingPop | Core/Src/app/drivers/spi_bus_manager.c:71-75 | advancing `q_head` drops exactly the oldest entry and keeps the order of the rest |
| SpiBusTypes.RingPush | Core/Src/app/drivers/spi_bus_manager.c:215-217 | writing the `q_tail` slot of a ring that is not full and advancing `q_tail` appends exactly that entry behind all others |
| SpiBusShared.StoredKind | src/shared/src/shared/drivers/spi_bus_manager.c:397-404 | the stored copy of a submitted item is a TX or a callback item, a callback exactly when the submitted one was, differs from it in the kind alone, and normalising twice changes nothing |
| SpiBusShared.CallbackItem | src/shared/src/shared/drivers/spi_bus_manager.c:491-497 | the item `enqueue_callback` builds is a callback item carrying `on_done` and `user`, with no CS, no DC, no ready predicate and no other callback |
| SpiBusShared.DcBeforeCs | src/shared/src/shared/drivers/spi_bus_manager.c:222-224 | before a transfer DC is driven to the level its mode and polarity ask for, and then CS is asserted, last |
| SpiBusShared.TryStartCallbackStep | src/shared/src/shared/drivers/spi_bus_manager.c:200-210 | a callback item at the head runs its `on_done`, is popped, and `try_start` goes on with the rest without setting busy |
| SpiBusShared.TryStartAcceptStep | src/shared/src/shared/drivers/spi_bus_manager.c:213-246 | a transfer at the head whose DMA start the HAL accepts leaves busy set, the queue unchanged, and the registers, DC, CS and DMA start logged in that order |
| SpiBusShared.TryStartRejectStep | src/shared/src/shared/drivers/spi_bus_manager.c:248-258 | a transfer whose DMA start the HAL refuses gets its CS deasserted and its `on_error`, is popped, and `try_start` goes on with the rest |
| SpiBusShared.AttemptQuiet | src/shared/src/shared/drivers/spi_bus_manager.c:213-246 | the start of a transfer starts exactly one DMA (counted only when the HAL accepts it), ends with that DMA start and notifies nobody |
| SpiBusShared.RejectQuiet | src/shared/src/shared/drivers/spi_bus_manager.c:248-258 | a refused start followed by the rest of the run counts no DMA of its own and notifies only the item's `on_error` |
| SpiBusShared.TryStartSuffix | src/shared/src/shared/drivers/spi_bus_manager.c:187-259 | `try_start` only removes items from the front of the queue, consumes HAL answers from the front, and does nothing while busy |
| SpiBusShared.TryStartOneInFlight | src/shared/src/shared/drivers/spi_bus_manager.c:187-259 | from an idle manager `try_start` starts at most one DMA; busy is left set exactly when one was started, the started item is then the head and its DMA start is the last event; when none was started the queue is empty |
| SpiBusShared.TryStartNotices | src/shared/src/shared/drivers/spi_bus_manager.c:187-259 | the callbacks `try_start` issues are those of the items it drained, in queue order: `on_done` for a callback item, `on_error` for a refused transfer |
| SpiBusShared.DrainedStep | src/shared/src/shared/drivers/spi_bus_manager.c:200-210 | draining the head and then the rest issues the head's notice followed by those of the rest |
| SpiBusShared.DrainedAppend | src/shared/src/shared/drivers/spi_bus_manager.c:200-210 | the notices of a queue with one more item at the tail are those of the queue followed by that item's |
| SpiBusShared.CallbacksOnlyDrain | src/shared/src/shared/drivers/spi_bus_manager.c:200-210 | a queue of callback items alone is drained completely, in order, with only `on_done` calls: busy is never set and no pin, register or DMA is touched |
| SpiBusShared.PostWaitFails | src/shared/src/shared/drivers/spi_bus_manager.c:263-288 | the post-transfer wait fails only for a ready predicate with a non-zero timeout that did not become true in time |
| SpiBusShared.SubmitOutcome | src/shared/src/shared/drivers/spi_bus_manager.c:362-414 | `submit` answers ERR_PARAM exactly for a missing handle, storage or capacity or a bad transfer, ERR_FULL exactly for a full ring, leaves everything untouched on an error, and on success queues the stored copy behind every queued item (added to the queue without starting anything when busy) |
| SpiBusShared.EnqueueCallbackOutcome | src/shared/src/shared/drivers/spi_bus_manager.c:483-508 | `enqueue_callback` answers ERR_PARAM exactly for a null callback, storage or zero capacity, ERR_FULL for a full ring, and queues the callback behind every queued item; on an idle empty manager it runs at once |
| SpiBusShared.LaunchFromIdle | src/shared/src/shared/drivers/spi_bus_manager.c:187-259 | a `try_start` from an idle manager leaves the hardware running at most the head of the queue, and exactly while busy |
| SpiBusShared.InvAfterTryStart | src/shared/src/shared/drivers/spi_bus_manager.c:187-259 | `try_start` keeps the invariant: at most one transfer in flight, busy exactly while one is, and that one is the head of the queue |
| SpiBusShared.InvSubmit | src/shared/src/shared/drivers/spi_bus_manager.c:362-414 | `submit` keeps the one-transfer-in-flight invariant and the ring bound |
| SpiBusShared.InvEnqueueCallback | src/shared/src/shared/drivers/spi_bus_manager.c:483-508 | `enqueue_callback` keeps the one-transfer-in-flight invariant and the ring bound |
| SpiBusShared.InvComplete | src/shared/src/shared/drivers/spi_bus_manager.c:291-339 | a completion interrupt keeps the one-transfer-in-flight invariant and the ring bound |
| SpiBusShared.InvHwError | src/shared/src/shared/drivers/spi_bus_manager.c:464-481 | an error interrupt keeps the one-transfer-in-flight invariant and the ring bound |
| SpiBusShared.InvPreserved | src/shared/src/shared/drivers/spi_bus_manager.c:362-508 | with the corrected cancel every client call and every interrupt keeps the one-transfer-in-flight invariant |
| SpiBusShared.NoStartWhileInFlight | src/shared/src/shared/drivers/spi_bus_manager.c:187-191 | while a transfer is in flight, no submit, enqueue, cancel or half-transfer interrupt starts a DMA |
| SpiBusShared.CompletionReportsInFlight | src/shared/src/shared/drivers/spi_bus_manager.c:291-339 | under the invariant a completion deasserts the CS of the transfer actually in flight and notifies that transfer's owner first; the rest of the log notifies, in queue order, the owners of the items the following `try_start` drained from behind it, and the queue shrinks |
| SpiBusShared.CancelAsWrittenReportsUnsentItem | src/shared/src/shared/drivers/spi_bus_manager.c:423-428 | with `cancel_pending` as written, a transfer submitted after the cancel gets the completion of the cancelled in-flight transfer: its CS is deasserted and its `on_done` runs although its DMA never started |
| SpiBusShared.CancelKeepInFlightReportsSentItem | src/shared/src/shared/drivers/spi_bus_manager.c:423-428 | with the in-flight item kept, the same sequence reports the cancelled transfer that was actually sent |
| SpiBusShared.CancelAsWrittenAllowsTwoInFlight | src/shared/src/shared/drivers/spi_bus_manager.c:423-428 | with `cancel_pending` as written, a half-transfer interrupt clears busy and the next submit starts a second DMA while the first is still running |
| SpiBusShared.Manager.constructor | src/shared/src/shared/drivers/spi_bus_manager.c:343-360 | `create` yields an empty, idle ring over the given storage |
| SpiBusShared.Manager.Full | src/shared/src/shared/drivers/spi_bus_manager.c:101 | the ring is full exactly when it holds capacity - 1 items |
| SpiBusShared.Manager.IsIdle | src/shared/src/shared/drivers/spi_bus_manager.c:416-421 | idle exactly when not busy and nothing is queued |
| SpiBusShared.Manager.Pop | src/shared/src/shared/drivers/spi_bus_manager.c:179-184 | pop drops the oldest item, and does nothing on an empty ring |
| SpiBusShared.Manager.TryStart | src/shared/src/shared/drivers/spi_bus_manager.c:187-259 | the ring implementation of `try_start` does what `TryStartRun` says: the same queue, busy flag, events and HAL answers used |
| SpiBusShared.Manager.DrainCallback | src/shared/src/shared/drivers/spi_bus_manager.c:200-210 | the callback branch of `try_start` agrees with `TryStartRun` |
| SpiBusShared.Manager.StartHead | src/shared/src/shared/drivers/spi_bus_manager.c:213-258 | the transfer branch of `try_start` agrees with `TryStartRun`, accepted or refused |
| SpiBusShared.Manager.Submit | src/shared/src/shared/drivers/spi_bus_manager.c:362-414 | `submit` agrees with `SubmitRun`: status, queue, events; the slot at the old tail holds the stored copy on success and nothing changes on an error |
| SpiBusShared.Manager.PushStored | src/shared/src/shared/drivers/spi_bus_manager.c:397-406 | the copy into the tail slot, with its kind normalised, appends exactly the stored copy |
| SpiBusShared.Manager.EnqueueCallback | src/shared/src/shared/drivers/spi_bus_manager.c:483-508 | `enqueue_callback` agrees with `EnqueueCallbackRun` |
| SpiBusShared.Manager.CancelPending | src/shared/src/shared/drivers/spi_bus_manager.c:423-428 | `cancel_pending` empties the ring, the in-flight item included, and keeps busy |
| SpiBusShared.Manager.OnCompleteCommon | src/shared/src/shared/drivers/spi_bus_manager.c:291-339 | the common completion agrees with `CompleteRun`: a half transfer only calls `on_half`; a full one deasserts CS, calls `on_done` or (after a failed wait) `on_error`, pops and starts the next |
| SpiBusShared.Manager.OnTxHalf | src/shared/src/shared/drivers/spi_bus_manager.c:432-438 | a TX half-transfer for the bound SPI is a half completion; any other SPI changes nothing |
| SpiBusShared.Manager.OnTxRxHalf | src/shared/src/shared/drivers/spi_bus_manager.c:440-446 | a TXRX half-transfer for the bound SPI is a half completion; any other SPI changes nothing |
| SpiBusShared.Manager.OnTxCplt | src/shared/src/shared/drivers/spi_bus_manager.c:448-454 | a TX completion for the bound SPI is a full completion; any other SPI changes nothing |
| SpiBusShared.Manager.OnTxRxCplt | src/shared/src/shared/drivers/spi_bus_manager.c:456-462 | a TXRX completion for the bound SPI is a full completion; any other SPI changes nothing |
| SpiBusShared.Manager.OnError | src/shared/src/shared/drivers/spi_bus_manager.c:464-481 | an error interrupt for the bound SPI agrees with `ErrorRun`: CS of the head deasserted, its `on_error`, pop, busy cleared, next started |
| SpiBusApp.DcIgnoresPolarity | Core/Src/app/drivers/spi_bus_manager.c:26-34 | this version's DC write ignores `active_low`: DATA drives the pin high and COMMAND low whatever the polarity |
| SpiBusApp.CsBeforeDc | Core/Src/app/drivers/spi_bus_manager.c:88-93 | this version writes the registers, then asserts CS, and only then drives DC |
| SpiBusApp.TryStartAcceptStep | Core/Src/app/drivers/spi_bus_manager.c:78-107 | a queued transfer whose DMA start the HAL accepts leaves busy set, the queue unchanged, and registers, CS, DC and DMA start logged in that order |
| SpiBusApp.TryStartRejectStep | Core/Src/app/drivers/spi_bus_manager.c:109-121 | a transfer whose DMA start the HAL refuses gets its CS deasserted and its `on_error`, is popped, and `try_start` goes on with the rest |
| SpiBusApp.AttemptQuiet | Core/Src/app/drivers/spi_bus_manager.c:85-107 | starting a transfer starts exactly one DMA (counted only when accepted), ends with that DMA start and notifies nobody |
| SpiBusApp.RejectQuiet | Core/Src/app/drivers/spi_bus_manager.c:109-121 | a refused start followed by the rest of the run counts no DMA of its own and notifies only the item's `on_error` |
| SpiBusApp.TryStartSuffix | Core/Src/app/drivers/spi_bus_manager.c:78-122 | `try_start` only removes items from the front of the queue and does nothing while busy |
| SpiBusApp.TryStartOneInFlight | Core/Src/app/drivers/spi_bus_manager.c:78-122 | from an idle manager at most one DMA start is accepted; busy is left set exactly when one was, with the started item at the head and its start the last event; otherwise the whole queue was dropped |
| SpiBusApp.TryStartNotices | Core/Src/app/drivers/spi_bus_manager.c:78-122 | the callbacks `try_start` issues are the `on_error` calls of the items it dropped, in queue order |
| SpiBusApp.CompleteNotifiesHead | Core/Src/app/drivers/spi_bus_manager.c:148-183 | a full completion deasserts the head's CS, then gives it `on_done` when the post-wait succeeded and `on_error` when it timed out, before anything else, and only the head leaves the queue ahead of what `try_start` drains |
| SpiBusApp.SubmitOutcome | Core/Src/app/drivers/spi_bus_manager.c:202-222 | `submit` answers ERR_PARAM exactly for a missing handle, storage or capacity, a missing CS port or TX buffer, a zero length or a TXRX without RX buffer, ERR_FULL exactly for a full ring, changes nothing on an error, and on success queues the descriptor behind every queued item (only added when busy) |
| SpiBusApp.Manager.constructor | Core/Src/app/drivers/spi_bus_manager.c:187-200 | `create` yields an empty, idle ring over the given storage |
| SpiBusApp.Manager.IsIdle | Core/Src/app/drivers/spi_bus_manager.c:224-227 | idle exactly when not busy and nothing is queued |
| SpiBusApp.Manager.Pop | Core/Src/app/drivers/spi_bus_manager.c:71-75 | pop drops the oldest item, and does nothing on an empty ring |
| SpiBusApp.Manager.TryStart | Core/Src/app/drivers/spi_bus_manager.c:78-122 | the ring implementation of `try_start` agrees with `TryStartRun`: queue, busy flag, events and HAL answers used |
| SpiBusApp.Manager.DropFailed | Core/Src/app/drivers/spi_bus_manager.c:111-119 | a refused start releases CS, clears busy, calls `on_error` and pops exactly the head |
| SpiBusApp.Manager.Submit | Core/Src/app/drivers/spi_bus_manager.c:202-222 | `submit` agrees with `SubmitRun`: status, queue, events; on success the old tail slot holds the descriptor, on an error nothing changes |
| SpiBusApp.Manager.CancelPending | Core/Src/app/drivers/spi_bus_manager.c:229-233 | `cancel_pending` empties the ring, the in-flight item included, and keeps busy |
| SpiBusApp.Manager.OnCompleteCommon | Core/Src/app/drivers/spi_bus_manager.c:148-183 | the common completion agrees with `CompleteRun`: with nothing queued busy is cleared; a half transfer only calls `on_half`; a full one deasserts CS, calls `on_done` or `on_error`, pops and starts the next |
| SpiBusApp.Manager.OnTxCplt | Core/Src/app/drivers/spi_bus_manager.c:237-268 | a TX completion for the bound SPI is a half or full completion as the DMA flag and SPI state say; any other SPI changes nothing |
| SpiBusApp.Manager.OnTxRxCplt | Core/Src/app/drivers/spi_bus_manager.c:270-285 | a TXRX completion for the bound SPI is a half or full completion as the DMA flag and SPI state say; any other SPI changes nothing |
| SpiBusApp.Manager.OnError | Core/Src/app/drivers/spi_bus_manager.c:287-302 | an error interrupt for the bound SPI agrees with `ErrorRun`: CS of the head deasserted, its `on_error`, pop, busy cleared, next started; any other SPI changes nothing |
| Rfm69.AddressBits | Core/Src/app/drivers/rfm69.c:12-22 | `addr & 0x7F` is the address with bit 7 clear and `addr \| 0x80` the same with bit 7 set |
| Rfm69.ModeFieldBits | Core/Src/app/drivers/rfm69.c:34-63 | `op & 0xE3` keeps bits 0-1 and 5-7 of OPMODE, OR-ing in a mode value adds its field, and `op & 0x1C` is the mode field |
| Rfm69.PaLevelBits | Core/Src/app/drivers/rfm69.c:189-197 | `pa \| (v & 0x1F)` with amplifier bits in 5-7 is the amplifier bits plus the low five bits of the level |
| Rfm69.FlagBits | Core/Src/app/drivers/rfm69.c:238-241 | the PayloadReady, ACK-request and ACK flag tests read bits 2, 6 and 7, and `(pc2 & 0xFB) \| 0x04` sets bit 2 and keeps the others |
| Rfm69.CtlBits | Core/Src/app/drivers/rfm69.c:271-274 | moving address bits 8-9 into control-byte bits 2-3 or 0-1, and back into bits 8-9 of a 16-bit id, are additions of those two bits |
| Rfm69.ClearModeField | Core/Src/app/drivers/rfm69.c:34 | `op & 0xE3` keeps the two low bits and the top three bits of OPMODE |
| Rfm69.OpModeValueSelects | Core/Src/app/drivers/rfm69.c:34-63 | the OPMODE value written by `SetMode` selects the new mode and keeps every bit outside the mode field |
| Rfm69.OpModeValueTwice | Core/Src/app/drivers/rfm69.c:34-63 | a second mode change overrides the first and keeps the same other bits |
| Rfm69.WindowBytesDecode | Core/Src/app/drivers/rfm69.c:10-26 | the two bytes a read or write clocks out tell the radio which register and whether it is written: the radio's reading of them is the intended access |
| Rfm69.ApplyAllSnoc | Core/Src/app/drivers/rfm69.c:10-26 | one more window acts on the register file the earlier windows left |
| Rfm69.ApplyPair | Core/Src/app/drivers/rfm69.c:10-26 | two windows act in the order they were opened |
| Rfm69.ModeFramesKeep | Core/Src/app/drivers/rfm69.c:29-75 | a mode change leaves every register but OPMODE and the two test registers as it was |
| Rfm69.ModeFramesEffect | Core/Src/app/drivers/rfm69.c:29-75 | after `SetMode` OPMODE selects the new mode with its other bits kept, nothing changes when the mode is already the requested one, and only OPMODE and the test registers are written |
| Rfm69.ModeFramesSplit | Core/Src/app/drivers/rfm69.c:34-74 | the registers after a mode change are those after the OPMODE write followed by the power-amplifier test-register writes; the ModeReady poll changes none |
| Rfm69.ModeFramesPoll | Core/Src/app/drivers/rfm69.c:69-74 | a mode change reads IRQFLAGS1 exactly when it leaves sleep, and that read is its last window |
| Rfm69.PaFramesEffect | Core/Src/app/drivers/rfm69.c:39-54 | the high-power test-register writes leave OPMODE and every register other than the two test registers untouched |
| Rfm69.ClampLevel | Core/Src/app/drivers/rfm69.c:173-195 | the kept power level is the requested one capped at 23 on a high-power module and at 31 otherwise |
| Rfm69.PaLevelFields | Core/Src/app/drivers/rfm69.c:170-199 | PALEVEL gets PA0 with the level on a W module; on a high-power module PA1 with level + 16 below 16, PA1 and PA2 with level + 10 up to 19 and with level + 8 from 20 |
| Rfm69.ClampDBm | Core/Src/app/drivers/rfm69.c:203-224 | the returned dBm is the request clamped to -2..20 on a high-power module and to -18..13 otherwise, unchanged inside the range |
| Rfm69.DBmTransmitted | Core/Src/app/drivers/rfm69.c:201-225 | the level chosen for a dBm value is kept by `SetPowerLevel` and, by the datasheet's amplifier table, transmits exactly that dBm, except 16 dBm on a high-power module which gives 15 dBm |
| Rfm69.FifoFrame | Core/Src/app/drivers/rfm69.c:276-287 | the FIFO burst of `SendFrame` is five header bytes followed by the payload |
| Rfm69.ParseHeader | Core/Src/app/drivers/rfm69.c:369-382 | the stored payload length never exceeds the clamp nor the length byte received |
| Rfm69.CtlRoundTrip | Core/Src/app/drivers/rfm69.c:266-274 | for 10-bit addresses the control byte gives back bits 8-9 of target and sender exactly, its ACK flag is set exactly for an ACK, and its ACK-request flag exactly when an ACK is requested and the frame is not an ACK |
| Rfm69.HeaderRoundTrip | Core/Src/app/drivers/rfm69.c:257-287 | a receiver parsing a frame built by `SendFrame` gets back the payload length + 3, the 10-bit target and sender, both flags, and the payload |
| Rfm69.SentFrameAccepted | Core/Src/app/drivers/rfm69.c:384-385 | a frame built by `SendFrame` passes the receiver's rule exactly when it is addressed to that receiver or broadcast |
| Rfm69.RxClampOverrunsData | Core/Src/app/drivers/rfm69.c:371 | with the length clamped to 66 as written, a frame of length 66 addressed to node 0 is accepted with 63 data bytes, more than `DATA` holds, so the handler's precondition fails for it |
| Rfm69.RxClampFits | Core/Src/app/drivers/rfm69.c:371-402 | with the clamp at `RFM69_MAX_DATA_LEN` + 3, every accepted frame's data fits in `DATA`, whatever the FIFO holds |
| Rfm69.RxClampAsWrittenFits | Core/Src/app/drivers/rfm69.c:371-402 | with the clamp at 66 as written, an accepted frame's data fits in `DATA` exactly when its length byte is at most 65 |
| Rfm69.RssiOfRange | Core/Src/app/drivers/rfm69.c:156-157 | the signal strength is the negated register value halved, rounded toward minus infinity, between -128 and 0 |
| Rfm69.RxRestart | Core/Src/app/drivers/rfm69.c:240-241 | the PACKETCONFIG2 restart value sets the restart bit and keeps every other bit |
| Rfm69.Radio.constructor | Core/Src/app/drivers/rfm69.c:437-442 | a new handle is in standby at power level 31 with nothing received and nothing on the wire |
| Rfm69.Radio.Transfer | Core/Src/app/drivers/rfm69.c:10-26 | one chip-select window is logged and acted on by the radio |
| Rfm69.Radio.ReadReg | Core/Src/app/drivers/rfm69.c:10-18 | a register read sends the address with bit 7 clear, changes no register, and returns the value of that register |
| Rfm69.Radio.WriteReg | Core/Src/app/drivers/rfm69.c:20-26 | a register write sends the address with bit 7 set and stores the value in that register |
| Rfm69.Radio.SetMode | Core/Src/app/drivers/rfm69.c:29-76 | `SetMode` records the new mode; it sends nothing when the mode is unchanged, otherwise it reads OPMODE, writes it back with the new mode field and other bits kept, writes the high-power test registers as the mode and power level demand, and polls IRQFLAGS1 when leaving sleep |
| Rfm69.Radio.SwitchMode | Core/Src/app/drivers/rfm69.c:34-75 | a real mode change produces the OPMODE read, the OPMODE write, the test-register writes and, when leaving sleep, the ModeReady read of IRQFLAGS1, and nothing else |
| Rfm69.Radio.AwaitModeReady | Core/Src/app/drivers/rfm69.c:71-72 | the ModeReady wait reads IRQFLAGS1 and changes no register |
| Rfm69.Radio.AwaitPacketSent | Core/Src/app/drivers/rfm69.c:290-291 | the PacketSent wait reads IRQFLAGS2 and changes no register |
| Rfm69.Radio.EnterMode | Core/Src/app/drivers/rfm69.c:35-67 | the `switch` of `SetMode` writes OPMODE with the new mode field, then the test registers |
| Rfm69.Radio.ReadRssi | Core/Src/app/drivers/rfm69.c:148-158 | `ReadRSSI` without a forced measurement reads the RSSI register once and returns its negated half |
| Rfm69.Radio.SetPowerLevel | Core/Src/app/drivers/rfm69.c:170-199 | `SetPowerLevel` keeps the clamped level and writes PALEVEL with the amplifier bits and level field the module type demands |
| Rfm69.Radio.SetPowerDBm | Core/Src/app/drivers/rfm69.c:201-225 | `SetPowerDBm` returns the clamped dBm, keeps the level mapped from it, and writes that level's PALEVEL |
| Rfm69.Radio.BuildCtl | Core/Src/app/drivers/rfm69.c:266-274 | the control byte carries the ACK flags and the high address bits of target and own address |
| Rfm69.Radio.SendFrame | Core/Src/app/drivers/rfm69.c:257-294 | `SendFrame` clamps the length to 61, goes to standby, waits for ModeReady, writes the framed payload to the FIFO in one window, transmits, waits for PacketSent and returns to standby |
| Rfm69.Radio.SendFromStandby | Core/Src/app/drivers/rfm69.c:263-293 | from standby: the ModeReady read, the FIFO window, the change to TX, the PacketSent read and the change back to standby |
| Rfm69.Radio.LoadFifo | Core/Src/app/drivers/rfm69.c:263-286 | the ModeReady read, then the header and payload in one FIFO window, with no register changed |
| Rfm69.Radio.Transmit | Core/Src/app/drivers/rfm69.c:289-291 | the change from standby to TX, leaving OPMODE selecting TX, then the PacketSent read |
| Rfm69.Radio.ReceiveBegin | Core/Src/app/drivers/rfm69.c:228-245 | `ReceiveBegin` clears every reception field, restarts the receiver when a payload is waiting, maps DIO0 to PayloadReady and enters RX |
| Rfm69.Radio.ListenRx | Core/Src/app/drivers/rfm69.c:243-244 | the end of `ReceiveBegin` maps DIO0 to PayloadReady and then enters RX |
| Rfm69.Radio.ClearReception | Core/Src/app/drivers/rfm69.c:230-236 | every reception field is cleared |
| Rfm69.Radio.RestartIfReady | Core/Src/app/drivers/rfm69.c:238-242 | IRQFLAGS2 is read and the receiver restarted exactly when a payload is waiting, with OPMODE left alone |
| Rfm69.Radio.InterruptHandler | Core/Src/app/drivers/rfm69.c:359-408 | for a length clamp `clamp` (66 as written, 64 corrected) and a frame whose data fits in `DATA` at that clamp: outside RX or without a ready payload the handler only reads IRQFLAGS2 (in RX) and the signal strength, and leaves the reception fields, the ACK flags included, as they were; otherwise a frame is either rejected (all fields cleared, back through `ReceiveBegin`) or accepted (header, flags and data stored, the terminator written only below 61 data bytes and every other byte of `DATA` kept, back to RX) |
| Rfm69.HandlerTrafficRx | Core/Src/app/drivers/rfm69.c:359-408 | in RX the handler's traffic is the IRQFLAGS2 read followed by the payload path when a payload is ready and by the RSSI read otherwise |
| Rfm69.Radio.ReceivePayload | Core/Src/app/drivers/rfm69.c:361-406 | with a ready payload: standby, the FIFO read, and either the rejection or the stored frame, as the acceptance rule at the given length clamp decides |
| Rfm69.Radio.AfterHeader | Core/Src/app/drivers/rfm69.c:384-407 | after the header, parsed at the given length clamp, the handler rejects a frame shorter than 3 or for another node and restarts reception, and otherwise stores it |
| Rfm69.Radio.StoreHeader | Core/Src/app/drivers/rfm69.c:378-382 | the clamped length, target and sender are stored |
| Rfm69.Radio.OpenFifo | Core/Src/app/drivers/rfm69.c:363-368 | the payload path starts by going to standby and opening the FIFO for reading |
| Rfm69.Radio.ReceiveFrame | Core/Src/app/drivers/rfm69.c:393-407 | an accepted frame, parsed at the given length clamp, stores its data length, flags and payload, returns to RX and records the signal strength |
| Rfm69.Radio.ResumeRx | Core/Src/app/drivers/rfm69.c:405-407 | back to RX, then the signal strength read from the register as it was |
| Rfm69.Radio.EnterRx | Core/Src/app/drivers/rfm69.c:404 | the switch back to RX sends the mode-change frames and leaves the signal-strength register as it was |
| Rfm69.Radio.RecordRssi | Core/Src/app/drivers/rfm69.c:406 | the handler stores the signal strength computed from the register, with one register read on the wire and the registers unchanged |
| Rfm69.Radio.StoreFrame | Core/Src/app/drivers/rfm69.c:393-402 | `DATALEN` is the clamped length less 3, the ACK flags come from control bits 7 and 6, and `DATA` holds the payload, then a terminating zero when `DATALEN` is below 61 and otherwise the byte it held, and after that what it held |
| Rfm69.SentFrameAckRequested | Core/Src/app/drivers/rfm69.c:325-328 | a receiver reports an ACK request for a frame built by `SendFrame` exactly when the sender requested one, the frame is not an ACK, and it is addressed to that receiver (never for a broadcast to another node) |
| EpdDriver.StatusCode | Core/Inc/app/drivers/epd3in7_driver.h:69-76 | `EPD3IN7_DRIVER_OK` is the only status coded 0; the errors are the negative codes down to -4 |
| EpdDriver.ModeToLut | Core/Src/app/drivers/epd3in7_driver.c:166-189 | a 4-gray call always uses the 4-gray GC table; a 1-bit call always gets one of the three 1-bit tables, each of which has a table to load |
| EpdDriver.ModeToLutInverse | Core/Src/app/drivers/epd3in7_driver.c:166-189 | each 1-bit table serves exactly one refresh mode (GC, DU or A2) and an unknown mode falls back to the GC table |
| EpdDriver.LutTable | Core/Src/app/drivers/epd3in7_driver.c:57-111 | exactly the four known LUT values have a table; each is 105 bytes long and ends with five 0x22 bytes |
| EpdDriver.LoadLutOutcome | Core/Src/app/drivers/epd3in7_driver.c:194-248 | a cache hit is OK with no traffic even with CS high; a miss with CS not known low is ERR_PARAM with no traffic; a miss sends command 0x32 and then the 105 table bytes; the cache records the LUT only on success; CS is never changed |
| EpdDriver.Exec | Core/Src/app/drivers/epd3in7_driver.c:14-22 | the `EPD3IN7_DRIVER_TRY` chain reports no error exactly when every step completed, and never reports OK as an error |
| EpdDriver.ExecNoLoadKeepsCache | Core/Src/app/drivers/epd3in7_driver.c:194-248 | a sequence without a LUT load never changes the LUT cache |
| EpdDriver.ExecPrefix | Core/Src/app/drivers/epd3in7_driver.c:14-22 | the steps after the first failure have no effect: a failing sequence followed by more steps gives the same result as the failing sequence alone |
| EpdDriver.Blocking | Core/Src/app/drivers/epd3in7_driver.c:113-125 | every blocking call ends with `send_end`: CS is released last and known high, and the status is OK exactly when every step succeeded |
| EpdDriver.TxWire | Core/Src/app/drivers/epd3in7_driver.c:127-164 | a run of commands and data sends one transmit per step |
| EpdDriver.ExecTransmits | Core/Src/app/drivers/epd3in7_driver.c:127-164 | when the HAL accepts every transfer, a run of commands and data completes, leaves the panel state alone and sends exactly one transmit per step, with DC low for commands and high for data |
| EpdDriver.FramedTransmits | Core/Src/app/drivers/epd3in7_driver.c:113-164 | a call made of `send_begin` and transmits puts CS low, the transmits and CS high on the wire, and reports OK |
| EpdDriver.SleepDeepWire | Core/Src/app/drivers/epd3in7_driver.c:298-325 | deep sleep sends command byte 0x00 and then data 0x03 between CS low and CS high, and reports OK |
| EpdDriver.SleepNormalWire | Core/Src/app/drivers/epd3in7_driver.c:298-325 | normal sleep sends SLEEP 0xF7, POWEROFF and SLEEP2 0xA5 between CS low and CS high, and reports OK |
| EpdDriver.InitOpsNoLoad | Core/Src/app/drivers/epd3in7_driver.c:337-509 | neither init sequence loads a LUT, and both have 34 steps |
| EpdDriver.InitCache | Core/Src/app/drivers/epd3in7_driver.c:337-509 | `init_1_gray` reports OK exactly when every step succeeded and only then marks the cache invalid; `init_4_gray` invalidates the cache under the same condition but reports an error (timeout or HAL) only when the BUSY wait or the SW reset fails |
| EpdDriver.Init4GrayEarlyFailure | Core/Src/app/drivers/epd3in7_driver.c:337-348 | a failure in the checked steps of `init_4_gray` is a BUSY timeout or a HAL error |
| EpdDriver.Init4GrayHidesFailure | Core/Src/app/drivers/epd3in7_driver.c:349-437 | a failed transmit right after the SW reset is still reported as OK by `init_4_gray`, and the LUT cache keeps claiming the old table |
| EpdDriver.FillChunksContent | Core/Src/app/drivers/epd3in7_driver.c:534-561 | the fill loop sends exactly the requested number of 0xFF bytes, as data transmits of 1 to 32 bytes each |
| EpdDriver.FillOps | Core/Src/app/drivers/epd3in7_driver.c:534-561 | the `while (left > 0)` loop produces exactly those fill chunks |
| EpdDriver.DataBytesAppend | Core/Src/app/drivers/epd3in7_driver.c:534-561 | the data bytes of two concatenated sequences are the data bytes of the first followed by those of the second |
| EpdDriver.PlaneOps | Core/Src/app/drivers/epd3in7_driver.c:642-676 | each plane is one single-byte data transmit per frame byte |
| EpdDriver.ConvertPlane | Core/Src/app/drivers/epd3in7_driver.c:642-723 | the nested conversion loops send, for each source byte pair, the packed byte of that plane |
| EpdDriver.PlanesRecoverImage | Core/Src/app/drivers/epd3in7_driver.c:619-737 | every 2-bit source pixel can be read back from the two planes: the bit of plane 2 is its high bit and the bit of plane 1 its low bit |
| EpdDriver.PlaneByteAt | Core/Src/app/drivers/epd3in7_driver.c:642-676 | output byte i of a plane is the packing of source bytes 2i and 2i+1 |
| EpdDriver.WindowRoundTrip | Core/Src/app/drivers/epd3in7_driver.c:803-817 | a window end below 1024 is recovered from its low byte and its two high bits, and the start bytes are zero |
| EpdDriver.TopRowBytes | Core/Src/app/drivers/epd3in7_driver.c:826-827 | the partial refresh sends whole rows: its byte count per row times 8 is the 280-pixel width |
| EpdDriver.BytesForSpan | Core/Src/app/drivers/epd3in7_driver.c:826-827 | rounding a span of pixels up to whole bytes covers the span and wastes fewer than 8 bits |
| EpdDriver.Display1GrayTopShape | Core/Src/app/drivers/epd3in7_driver.c:778-844 | a null image or a height outside 1..480 is ERR_PARAM before any I/O; otherwise X spans 0..279, Y spans 0..yEnd-1 and 35 bytes per row are sent, never more than a frame; the full-height call sends exactly what `display_1_gray` sends |
| EpdDriver.Descriptor | Core/Src/app/drivers/epd3in7_driver.c:884-985 | a descriptor has CS active low and DC high for data, the payload length when it fits 16 bits, the BUSY wait with the 12 s timeout exactly when asked, and is accepted by submit exactly when there is a CS line and the 16-bit length is non-zero |
| EpdDriver.SubmitAll | Core/Src/app/drivers/epd3in7_driver.c:1038-1107 | a submit chain accepts at most its descriptors, and one whose first submit fails changes nothing |
| EpdDriver.SubmitAllQueued | Core/Src/app/drivers/epd3in7_driver.c:1038-1107 | while a transfer is in flight and the ring has room, every descriptor of a chain is queued in order behind what was there, and nothing reaches the bus |
| EpdDriver.SubmitAllStep | Core/Src/app/drivers/epd3in7_driver.c:1038-1107 | a chain whose first submit is accepted is that submit followed by the chain of the remaining descriptors |
| EpdDriver.SubmitAllStop | Core/Src/app/drivers/epd3in7_driver.c:1038-1107 | a chain stops at a rejected submit and leaves the manager as it was |
| EpdDriver.SubmitKeepsOrder | Core/Src/app/drivers/epd3in7_driver.c:1038-1107 | after one accepted submit, the queue is a tail of the old queue followed by the new descriptor |
| EpdDriver.SubmitAllKeepsOrder | Core/Src/app/drivers/epd3in7_driver.c:1038-1107 | whatever the manager's state, a chain never reorders descriptors: the queue afterwards is a tail of the old queue followed by the accepted descriptors in order |
| EpdDriver.EnqueueLutOutcome | Core/Src/app/drivers/epd3in7_driver.c:988-1022 | `enqueue_lut` is OK exactly on a cache hit or when both the command and the table were accepted; ERR_PARAM exactly for an unknown LUT on a miss; the cache records the LUT on OK and is unchanged otherwise; a hit or an unknown LUT queues nothing |
| EpdDriver.Display1GrayDmaFrame | Core/Src/app/drivers/epd3in7_driver.c:1038-1092 | the frame part of the DMA refresh is ten descriptors |
| EpdDriver.AllParamsOkAppend | Core/Src/app/drivers/epd3in7_driver.c:1038-1107 | two lists of well-formed descriptors concatenate to a list of well-formed descriptors |
| EpdDriver.FrameParamsOk | Core/Src/app/drivers/epd3in7_driver.c:1038-1092 | once there is a CS line, all ten frame descriptors are well formed |
| EpdDriver.FrameQueued | Core/Src/app/drivers/epd3in7_driver.c:1038-1092 | with a transfer in flight and room in the ring, the ten frame descriptors are queued behind what was there |
| EpdDriver.Display1GrayDmaHit | Core/Src/app/drivers/epd3in7_driver.c:1024-1110 | a DMA refresh that hits the LUT cache is OK and queues the frame and the update command, eleven descriptors, and nothing else |
| EpdDriver.Display1GrayDmaMiss | Core/Src/app/drivers/epd3in7_driver.c:1024-1110 | a DMA refresh that misses the LUT cache is OK, queues the frame, the LUT command and table and the update command, thirteen descriptors, and records the mode's table |
| EpdDriver.TxsOf | Core/Src/app/drivers/epd3in7_driver.c:1112-1161 | queued descriptors stand for one transmit each, in order |
| EpdDriver.SleepDmaMirrorsBlocking | Core/Src/app/drivers/epd3in7_driver.c:1112-1161 | the DMA sleep queues exactly the transmits of the blocking sleep, in the same order and with the same DC levels |
| EpdDriver.SleepDmaOutcome | Core/Src/app/drivers/epd3in7_driver.c:1112-1161 | the DMA sleep is OK exactly when every descriptor was accepted and SPI_BUS_ERR otherwise; the descriptors before a rejection stay queued in order; without a CS line nothing is queued |
| EpdDriver.SubmitInOrder | Core/Src/app/drivers/epd3in7_driver.c:1038-1107 | submitting descriptors one by one up to the first rejection leaves the manager in the state the submit chain describes |
| EpdDriver.Driver.constructor | Core/Src/app/drivers/epd3in7_driver.c:250-268 | a new handle keeps its pins, BUSY polarity and SPI registers, and its LUT cache and CS state start unknown |
| EpdDriver.Driver.RunBlocking | Core/Src/app/drivers/epd3in7_driver.c:113-164 | a blocking sequence commits its panel state and appends its traffic to the wire |
| EpdDriver.Driver.Sleep | Core/Src/app/drivers/epd3in7_driver.c:298-325 | `sleep` has the status, panel state and traffic of the blocking sleep sequence |
| EpdDriver.Driver.Init4Gray | Core/Src/app/drivers/epd3in7_driver.c:337-437 | `init_4_gray` has the status and panel state `InitCache` describes |
| EpdDriver.Driver.Init1Gray | Core/Src/app/drivers/epd3in7_driver.c:439-509 | `init_1_gray` has the status and panel state `InitCache` describes |
| EpdDriver.Driver.Clear4Gray | Core/Src/app/drivers/epd3in7_driver.c:511-576 | `clear_4_gray` sends both RAM planes filled with 0xFF, loads the 4-gray table and refreshes |
| EpdDriver.Driver.Clear1Gray | Core/Src/app/drivers/epd3in7_driver.c:578-617 | `clear_1_gray` sends one frame of 0xFF, loads the mode's table and refreshes |
| EpdDriver.Driver.Display4Gray | Core/Src/app/drivers/epd3in7_driver.c:619-737 | `display_4_gray` sends the two converted planes, loads the 4-gray table and refreshes |
| EpdDriver.Driver.Display1Gray | Core/Src/app/drivers/epd3in7_driver.c:739-776 | `display_1_gray` sets the full window, sends the frame, loads the mode's table and refreshes |
| EpdDriver.Driver.Display1GrayTop | Core/Src/app/drivers/epd3in7_driver.c:778-844 | `display_1_gray_top` rejects bad arguments without I/O and otherwise runs the partial refresh `Display1GrayTopShape` describes |
| EpdDriver.Driver.EnqueueLut | Core/Src/app/drivers/epd3in7_driver.c:988-1022 | `enqueue_lut` leaves the manager and the LUT cache as `EnqueueLutOutcome` describes and never changes the CS state |
| EpdDriver.Driver.Display1GrayDma | Core/Src/app/drivers/epd3in7_driver.c:1024-1110 | a missing manager or image is ERR_PARAM with nothing queued; otherwise the frame, the LUT when not cached and the update command are queued in order, stopping at the first rejection |
| EpdDriver.Driver.SleepDma | Core/Src/app/drivers/epd3in7_driver.c:1112-1161 | a missing manager is ERR_PARAM; otherwise the sleep descriptors are queued in order up to the first rejection, and the LUT cache and CS state are untouched |
| EpdPack.PixelCode | Core/Src/app/drivers/epd3in7_driver.c:645-650 | each of the eight pixels of a source pair is a 2-bit code, read from the top bits of the byte down |
| EpdPack.PlaneBit | Core/Src/app/drivers/epd3in7_driver.c:650-670 | the bit a pixel contributes to a plane is a single bit |
| EpdPack.PlanesRecoverCode | Core/Src/app/drivers/epd3in7_driver.c:650-670 | the plane-2 bit and the plane-1 bit together give back the pixel's 2-bit code; white sets both and black neither |
| EpdPack.C | Core/Src/app/drivers/epd3in7_driver.c:650-670 | the plane bit of each pixel of a pair is a single bit |
| EpdPack.Pass0 | Core/Src/app/drivers/epd3in7_driver.c:645-673 | the first pass over the high source byte accumulates the top two bits of the packed byte |
| EpdPack.Pass1 | Core/Src/app/drivers/epd3in7_driver.c:645-673 | the second pass accumulates the top four bits |
| EpdPack.Pass2 | Core/Src/app/drivers/epd3in7_driver.c:645-673 | the first pass over the low source byte accumulates the top six bits |
| EpdPack.Pass3 | Core/Src/app/drivers/epd3in7_driver.c:645-673 | the last pass, without its final shift, completes the packed byte |
| EpdPack.PassChain | Core/Src/app/drivers/epd3in7_driver.c:645-673 | the four passes chain from an empty accumulator to the packed byte |
| EpdPack.PackPass | Core/Src/app/drivers/epd3in7_driver.c:650-670 | one pass ORs two chain bits into `temp3` with a shift between them, and moves `temp1` on by two pixels |
| EpdPack.PackHalf | Core/Src/app/drivers/epd3in7_driver.c:647-673 | the `k` loop over one source byte shifts its four pixels in, and skips the last shift only on the second source byte |
| EpdPack.PackPlaneByte | Core/Src/app/drivers/epd3in7_driver.c:642-676 | one iteration of the conversion loop yields exactly the packed plane byte of the source pair |
| EpdPack.BitAt | Core/Src/app/drivers/epd3in7_driver.c:642-676 | a bit read from a packed byte is a single bit |
| EpdPack.PackHighBits | Core/Src/app/drivers/epd3in7_driver.c:642-676 | the four high bits of a packed byte are the plane bits of pixels 0 to 3 |
| EpdPack.PackLowBits | Core/Src/app/drivers/epd3in7_driver.c:642-676 | the four low bits of a packed byte are the plane bits of pixels 4 to 7 |
| EpdPack.PackByteBit | Core/Src/app/drivers/epd3in7_driver.c:642-676 | bit 7 - p of a packed byte is pixel p's plane bit, so the leftmost pixel is the most significant bit |
| EpdPack.PackRoundTrip | Core/Src/app/drivers/epd3in7_driver.c:642-723 | the two planes together recover every source pixel's 2-bit code |
| HourlyClock.CreateState | Core/Src/app/hourly_clock.c:3-26 | a new clock is initialised, remembers the first reading as the previous one, and starts its counter at that reading's offset within the hour |
| HourlyClock.UpdateUninitialized | Core/Src/app/hourly_clock.c:28-33 | an uninitialised clock ignores every reading |
| HourlyClock.UpdateSameSample | Core/Src/app/hourly_clock.c:36-43 | a reading equal to the previous one changes nothing but the stored time |
| HourlyClock.UpdateChanged | Core/Src/app/hourly_clock.c:40-80 | on a changed reading: a new hour restarts from the reading's offset; a new minute keeps the counter's minute base and adds the new seconds; otherwise the counter counts one up and wraps to 0 at 3600; the reading becomes the previous one |
| HourlyClock.UpdateKeepsHour | Core/Src/app/hourly_clock.c:40-80 | with readings whose minutes and seconds are below 60, the counter stays within the hour, 0 to 3599 |
| HourlyClock.MinuteChangeLosesMinute | Core/Src/app/hourly_clock.c:56-62 | as written, going from 00:00:59 to 00:01:00 sets the counter to 0 instead of 60, so it no longer equals the offset of the reading |
| HourlyClock.UpdateIntendedTracks | Core/Src/app/hourly_clock.c:40-80 | the corrected update keeps the counter equal to the offset of the latest reading within its hour, for every next RTC reading |
| HourlyClock.UpdateIntendedAgrees | Core/Src/app/hourly_clock.c:40-80 | the corrected update differs from the code as written only on a new minute within the same hour |
| HourlyClock.CheckElapsedCircular | Core/Src/app/hourly_clock.c:103-125 | for a counter and a timestamp both within the hour, `check_elapsed` holds exactly when the forward distance from the timestamp around the hour is at least the requested seconds |
| HourlyClock.CheckElapsedUninitialized | Core/Src/app/hourly_clock.c:107-110 | an uninitialised clock never reports time as elapsed |
| HourlyClock.Clock.Create | Core/Src/app/hourly_clock.c:3-26 | `hourly_clock_create` builds the state `CreateState` describes from the first reading |
| HourlyClock.Clock.Zeroed | Core/Src/app/hourly_clock.c:5-11 | a handle that was never created holds zeros and is not initialised |
| HourlyClock.Clock.Update | Core/Src/app/hourly_clock.c:28-81 | `hourly_clock_update` moves the handle to the state the update of the reading describes |
| HourlyClock.Clock.ElapsedSeconds | Core/Src/app/hourly_clock.c:83-101 | the elapsed seconds and the timestamp are 0 before initialisation and the counter afterwards |
| Bme280Async.BurstBits | src/station/Core/Src/app/drivers/bme280_async.c:88-92 | the shifts and ORs that assemble the 20-bit and 16-bit ADC values from bytes are plain weighted sums |
| Bme280Async.Decode | src/station/Core/Src/app/drivers/bme280_async.c:84-92 | the decoded pressure and temperature are 20-bit values and the humidity a 16-bit value |
| Bme280Async.DecodeBurst | src/station/Core/Src/app/drivers/bme280_async.c:84-92 | decoding a burst gives back the raw values the chip sent, whatever the echoed address byte and the unused low nibbles |
| Bme280Async.PressureAsync | src/station/Core/Src/app/drivers/bme280_async.c:43-44 | when the pressure divisor is zero, the result is 0 |
| Bme280Async.PressureCastsAgree | src/station/Core/Src/app/drivers/bme280_async.c:33-51 | the asynchronous pressure, which casts to `int32_t` before dividing by 256, equals the blocking driver's whenever the Q24.8 value fits in 32 bits |
| Bme280Async.Compensate | src/station/Core/Src/app/drivers/bme280_async.c:19-103 | a completed read updates `t_fine` from the temperature, compensates temperature, pressure and humidity with it, and stamps the result; humidity is the failure value exactly when it was skipped (0x8000) and otherwise within 0..100 %RH; the result is valid exactly when neither temperature nor humidity failed |
| Bme280Async.BurstRegisters | src/station/Core/Src/app/drivers/bme280_async.c:84-92 | the burst decode reads the same raw values as the blocking driver's register reads of 0xF7..0xFE |
| Bme280Async.AsyncMatchesBlocking | src/station/Core/Src/app/drivers/bme280_async.c:19-103 | for a valid burst in normal mode, the asynchronous measurement has the temperature, `t_fine`, humidity and pressure the blocking driver reads from the same registers |
| Bme280Async.Device.Init | src/station/Core/Src/app/drivers/bme280_async.c:121-134 | a new device is idle, error-free, without data or callback, and its command buffer is the read of 0xF7 with bit 7 set followed by eight dummy bytes |
| Bme280Async.Device.SetDoneCallback | src/transmitter/Shared/inc/shared/drivers/bme280_async.h:84-89 | the completion callback is present exactly when one was set |
| Bme280Async.Device.ReadTxn | src/station/Core/Src/app/drivers/bme280_async.c:147-164 | the read descriptor is a 9-byte full-duplex transfer on the device's CS line, with completion and error callbacks, no ready wait and no half callback, and submit accepts it exactly when there is a CS line |
| Bme280Async.Device.OnDone | src/station/Core/Src/app/drivers/bme280_async.c:80-110 | the completion callback stores the compensated measurement and the new `t_fine`, clears busy and error, and hands the measurement to the callback exactly when one is set |
| Bme280Async.Device.OnError | src/station/Core/Src/app/drivers/bme280_async.c:112-118 | the error callback clears busy and sets error |
| Bme280Async.Device.TriggerRead | src/station/Core/Src/app/drivers/bme280_async.c:112-174 | while a read is pending it answers true and changes nothing; otherwise it submits the read descriptor and answers whether the submit was accepted; it ends busy exactly when the submit was accepted and the read is still queued or in flight, and with the error set otherwise; an accepted read whose DMA start was refused has already had `on_error` run inside `submit`, after the notices of every item queued before it |
| Bme280Async.SubmitTxOutcome | src/shared/src/shared/drivers/spi_bus_manager.c:244-256 | an accepted submission that leaves the manager idle happened on an idle manager, drained the whole queue and ends with the submitted transfer's own `on_error`; one that leaves a transfer in flight still holds the submitted transfer at the tail of the queue |
| Bmpxx80.Swap16Bits | src/station/Shared/src/shared/drivers/bmpxx80.c:505-509 | the 16-bit byte swap `(v >> 8) \| (v << 8)` exchanges the high and low bytes |
| Bmpxx80.ConfigBits | src/station/Shared/src/shared/drivers/bmpxx80.c:550-554 | the config byte expression puts the standby time in bits 7..5 and the filter in bits 4..2, with bits 1..0 clear |
| Bmpxx80.CtrlMeasBits | src/station/Shared/src/shared/drivers/bmpxx80.c:637 | the ctrl_meas expression puts temperature oversampling in bits 7..5, pressure in 4..2 and the mode in 1..0 |
| Bmpxx80.MaskedFieldBits | src/station/Shared/src/shared/drivers/bmpxx80.c:632-633 | masking with 0xF8 and OR-ing the humidity oversampling replaces bits 2..0 only, and `(ctrl & ~3) \| FORCED` sets the mode field to forced |
| Bmpxx80.NibblePairBits | src/station/Shared/src/shared/drivers/bmpxx80.c:627-628 | the `h4` and `h5` assemblies are a byte times 16 plus the low or the high nibble of the shared register |
| Bmpxx80.Read16 | src/station/Shared/src/shared/drivers/bmpxx80.c:489-504 | the 16-bit read puts the first register in the high byte and the second in the low byte |
| Bmpxx80.Read24 | src/station/Shared/src/shared/drivers/bmpxx80.c:523-538 | the 24-bit read is a 24-bit value whose bytes are the three registers, first register highest |
| Bmpxx80.Swap16Involutive | src/station/Shared/src/shared/drivers/bmpxx80.c:505-509 | swapping the bytes twice gives back the value |
| Bmpxx80.Read16LE | src/station/Shared/src/shared/drivers/bmpxx80.c:505-509 | the little-endian read puts the first register in the low byte |
| Bmpxx80.Int16 | src/station/Shared/src/shared/drivers/bmpxx80.c:610-629 | the `int16_t` cast is a 16-bit signed value congruent to the unsigned word |
| Bmpxx80.Int8 | src/station/Shared/src/shared/drivers/bmpxx80.c:629 | the `int8_t` cast is an 8-bit signed value congruent to the byte |
| Bmpxx80.ConfigByte | src/station/Shared/src/shared/drivers/bmpxx80.c:550-554 | the config register holds the standby time (mod 8) in bits 7..5, the filter (mod 8) in bits 4..2 and zeros below |
| Bmpxx80.CtrlMeasByte | src/station/Shared/src/shared/drivers/bmpxx80.c:637 | ctrl_meas holds the temperature oversampling, the pressure oversampling and the mode in their fields |
| Bmpxx80.HumCtrlByte | src/station/Shared/src/shared/drivers/bmpxx80.c:632-634 | the new ctrl_hum keeps the register's upper five bits and holds the humidity oversampling (mod 8) in bits 2..0 |
| Bmpxx80.ForceByte | src/station/Shared/src/shared/drivers/bmpxx80.c:649-651 | the forced-mode trigger keeps ctrl_meas's upper six bits and sets the mode field to forced |
| Bmpxx80.Clamp | src/station/Shared/src/shared/drivers/bmpxx80.c:573-589 | an argument above its limit is replaced by the limit and any other is kept |
| Bmpxx80.ReadCalib | src/station/Shared/src/shared/drivers/bmpxx80.c:610-629 | `t1` and `p1` are the little-endian words at 0x88 and 0x8E; the signed words are 16-bit and `h6` 8-bit signed; `h4` and `h5` are 12-bit values built from 0xE4..0xE6 and never negative |
| Bmpxx80.CentiCelsius | src/station/Shared/src/shared/drivers/bmpxx80.c:666 | `(t_fine * 5 + 128) >> 8` is `t_fine` * 5/256 rounded down after adding one half |
| Bmpxx80.CentiCelsiusMonotone | src/station/Shared/src/shared/drivers/bmpxx80.c:666 | the temperature never decreases as `t_fine` grows |
| Bmpxx80.PressurePa | src/station/Shared/src/shared/drivers/bmpxx80.c:669-694 | the pressure is 0 when the divisor is zero and always fits `int32_t` |
| Bmpxx80.HumidityQ10 | src/station/Shared/src/shared/drivers/bmpxx80.c:719-726 | humidity is 0 for a non-positive raw value, 100 %RH at or above the ceiling, and otherwise the raw value divided by 4096 rounded down |
| Bmpxx80.DatasheetTemperature | src/station/Shared/src/shared/drivers/bmpxx80.c:657-666 | the worked example of the Bosch BMP280 datasheet (the same temperature and pressure compensation as the BME280): raw temperature 519888 gives `t_fine` 128422 and 25.08 degrees |
| Bmpxx80.DatasheetPressure | src/station/Shared/src/shared/drivers/bmpxx80.c:674-693 | the BMP280 datasheet's worked example: raw pressure 415148 at `t_fine` 128422 gives 100653 Pa |
| Bmpxx80.ReadTemp | src/station/Shared/src/shared/drivers/bmpxx80.c:645-667 | the temperature read fails with -99.0 and keeps `t_fine` when a forced measurement does not finish in time or the channel reads 0x800000; otherwise `t_fine` comes from the 20-bit value and the temperature from `t_fine` |
| Bmpxx80.ReadPress | src/station/Shared/src/shared/drivers/bmpxx80.c:669-694 | the pressure read updates `t_fine` as its temperature read does, and returns 0 when that read fails |
| Bmpxx80.ReadHum | src/station/Shared/src/shared/drivers/bmpxx80.c:696-727 | the humidity read updates `t_fine` as its temperature read does; it is -99.0 exactly when that read fails or the channel reads 0x8000, and otherwise within 0..100 %RH |
| Bmpxx80.InitWritesMode | src/station/Shared/src/shared/drivers/bmpxx80.c:573-640 | initialisation never writes the `BME280_FORCEDMODE` code 1 to ctrl_meas (writing sleep in its place), writes every other clamped mode code, 2 included, as asked, writes normal mode exactly when normal mode was asked for, keeps the requested oversampling and writes the config register exactly in normal mode |
| Bmpxx80.Bme280.constructor | src/station/Shared/src/shared/drivers/bmpxx80.c:116-124 | the driver's globals start at zero with no register written |
| Bmpxx80.Bme280.Init | src/station/Shared/src/shared/drivers/bmpxx80.c:564-643 | init succeeds exactly when the bus is set up and the chip id answers; with the bus set up it stores the clamped mode and oversampling; on success it reads the calibration and makes the writes `InitWritesMode` describes; a missing chip writes nothing |
| Bmpxx80.Bme280.SetConfig | src/station/Shared/src/shared/drivers/bmpxx80.c:550-554 | `SetConfig` writes the config byte to the config register |
| Bmpxx80.Bme280.ReadTemperature | src/station/Shared/src/shared/drivers/bmpxx80.c:645-667 | the temperature read returns what `ReadTemp` describes and updates `t_fine` with it, after the forced-mode trigger write when in forced mode |
| Bmpxx80.Bme280.ReadPressure | src/station/Shared/src/shared/drivers/bmpxx80.c:669-694 | the pressure read returns what `ReadPress` describes |
| Bmpxx80.Bme280.ReadHumidity | src/station/Shared/src/shared/drivers/bmpxx80.c:696-727 | the humidity read returns what `ReadHum` describes |
| Bmpxx80.Bme280.ReadAll | src/station/Shared/src/shared/drivers/bmpxx80.c:729-750 | the combined read writes the outputs in order up to the first failing reading, returns 0 exactly when all three were written and 0xFF otherwise, and null outputs fail before any read |
| LvglAdapter.Stride | Core/Src/app/drivers/epd3in7_lvgl_adapter.c:209-211 | a row of `w` pixels takes the fewest whole bytes that hold `w` bits |
| LvglAdapter.GcThreshold | Core/Src/app/drivers/epd3in7_lvgl_adapter.c:187 | the threshold `(uint8_t)(refresh_cycles_before_gc - 1)` is one less than a positive cycle count, and wraps into 255 + cycles for a count of zero or below |
| LvglAdapter.Advance | Core/Src/app/drivers/epd3in7_lvgl_adapter.c:186-196 | a refresh is GC exactly when the counter has reached the threshold, which restarts the counter at 0; otherwise the counter goes up by one; the counter afterwards never exceeds the threshold |
| LvglAdapter.RunSplit | Core/Src/app/drivers/epd3in7_lvgl_adapter.c:186-196 | the refresh decisions of a + b frames are those of the first a frames followed by those of the next b frames from where the first left the counter |
| LvglAdapter.RunQuiet | Core/Src/app/drivers/epd3in7_lvgl_adapter.c:186-196 | as long as the counter stays at or below the threshold, every refresh uses the default mode and the counter counts up |
| LvglAdapter.GcPeriod | Core/Src/app/drivers/epd3in7_lvgl_adapter.c:186-196 | counting from 0, refreshes come in cycles of threshold + 1: that many default-mode refreshes, then one GC, after which the counter is 0 again |
| LvglAdapter.FirstFrameAfterInit | Core/Src/app/drivers/epd3in7_lvgl_adapter.c:89-196 | since create and init set the counter to 99, the first frame is GC exactly when the threshold is at most 99, so always for 1 to 100 cycles and never for 0 |
| LvglAdapter.ChooseMode | Core/Src/app/drivers/epd3in7_lvgl_adapter.c:186-196 | each frame is refreshed in GC mode or in the default mode; reaching the threshold forces GC and restarts the count |
| LvglAdapter.FlushEffectShape | Core/Src/app/drivers/epd3in7_lvgl_adapter.c:160-258 | every blocking flush calls `flush_ready` exactly once and last; every display call is followed by a sleep; a display happens exactly when there is a frame and the panel is or becomes initialised, in GC or the default mode; a cold panel is initialised first; a missing frame or a failed init changes nothing; a failure is the only way to lose `is_initialized`; the DMA fields are untouched |
| LvglAdapter.FlushDmaEffectShape | Core/Src/app/drivers/epd3in7_lvgl_adapter.c:288-385 | it enqueues the completion callback exactly when there is a frame, a bus manager, an initialised panel and a work buffer; otherwise it calls `flush_ready` exactly once and last; when it enqueues, the flush itself never calls `flush_ready`: with the callback queued or refused it ends with the enqueue and a transfer in flight for this display, and with the callback run inside the enqueue it ends with the asynchronous `flush_ready` for this display and no transfer in flight |
| LvglAdapter.QueueFrameShape | Core/Src/app/drivers/epd3in7_lvgl_adapter.c:369-384 | a queued frame ends as `FlushDmaEffectShape` describes for each outcome of `enqueue_callback` |
| LvglAdapter.FallbackShape | Core/Src/app/drivers/epd3in7_lvgl_adapter.c:321-355 | without a work buffer the DMA flush calls `flush_ready` exactly once and last and never enqueues the callback |
| LvglAdapter.FlushNeverEnqueues | Core/Src/app/drivers/epd3in7_lvgl_adapter.c:160-258 | the blocking flush never enqueues a completion callback |
| LvglAdapter.EnqueuedOutcomes | src/shared/src/shared/drivers/spi_bus_manager.c:483-508 | `enqueue_callback` is refused with no notice exactly when its status is not OK; run at once only on an idle manager, after the notices of every queued item; otherwise left queued behind a transfer in flight |
| LvglAdapter.DmaDoneEffect | Core/Src/app/drivers/epd3in7_lvgl_adapter.c:269-278 | the completion callback clears `dma_in_progress`, changes nothing else, and hands the pending display to LVGL asynchronously |
| LvglAdapter.DmaFlushCompletes | Core/Src/app/drivers/epd3in7_lvgl_adapter.c:269-385 | a frame queued by the DMA flush is handed back to LVGL, for the same display, when the completion callback runs |
| LvglAdapter.FallbackAdvancesTwice | Core/Src/app/drivers/epd3in7_lvgl_adapter.c:321-355 | without a work buffer the DMA flush takes the refresh decision and then the blocking flush takes it again, so the counter moves two steps for one frame |
| LvglAdapter.FailureForcesReinit | Core/Src/app/drivers/epd3in7_lvgl_adapter.c:170-258 | a failed display or sleep clears `is_initialized`, so the next frame initialises the panel again before drawing and restarts the GC count at 99 |
| LvglAdapter.InitThenFlush | Core/Src/app/drivers/epd3in7_lvgl_adapter.c:170-180 | a flush on a cold panel whose init succeeds is the init followed by a flush on the freshly initialised panel |
| LvglAdapter.InitThenFlushDma | Core/Src/app/drivers/epd3in7_lvgl_adapter.c:305-319 | the same holds for the DMA flush, with the wait for an idle bus before the init |
| LvglAdapter.FreeEffect | Core/Src/app/drivers/epd3in7_lvgl_adapter.c:127-154 | free always leaves the adapter uninitialised; an initialised panel is put to sleep last, through the bus manager when there is one; an uninitialised one only waits for the bus |
| LvglAdapter.CopyFrame | Core/Src/app/drivers/epd3in7_lvgl_adapter.c:369-372 | `memcpy` copies the first n bytes of the frame and leaves the rest of the work buffer unchanged |
| LvglAdapter.Adapter.Create | Core/Src/app/drivers/epd3in7_lvgl_adapter.c:81-100 | a new adapter has its counter at 99, is neither initialised nor sleeping, has no bus manager and zeroed pin descriptors |
| LvglAdapter.Adapter.CreateWithBusManager | Core/Src/app/drivers/epd3in7_lvgl_adapter.c:102-125 | the bus variant is the same, plus the manager, the driver's CS line as active low and DC as active high, and no DMA pending |
| LvglAdapter.Adapter.PickMode | Core/Src/app/drivers/epd3in7_lvgl_adapter.c:186-196 | the refresh decision is applied to the handle's counter |
| LvglAdapter.Adapter.Flush | Core/Src/app/drivers/epd3in7_lvgl_adapter.c:160-258 | the blocking flush has the effect `FlushEffectShape` describes; when it rotates, the work buffer holds the rotated frame, and otherwise the work buffer is untouched |
| LvglAdapter.Adapter.FlushCold | Core/Src/app/drivers/epd3in7_lvgl_adapter.c:170-258 | the blocking flush on a cold panel whose init succeeds has that effect and leaves the rotated frame in the work buffer |
| LvglAdapter.Adapter.FlushInitialized | Core/Src/app/drivers/epd3in7_lvgl_adapter.c:182-258 | the blocking flush on an initialised panel has that effect and leaves the rotated frame in the work buffer |
| LvglAdapter.Adapter.FlushDma | Core/Src/app/drivers/epd3in7_lvgl_adapter.c:288-385 | the DMA flush has the effect `FlushDmaEffectShape` describes for the given outcome of `enqueue_callback`, and whenever it queues the frame the work buffer holds the rotated or copied frame |
| LvglAdapter.Adapter.FlushDmaCold | Core/Src/app/drivers/epd3in7_lvgl_adapter.c:304-385 | the DMA flush on a cold panel whose init succeeds has that effect, in flight or already handed back as the enqueue outcome decides, and stages the frame |
| LvglAdapter.Adapter.FlushDmaInitialized | Core/Src/app/drivers/epd3in7_lvgl_adapter.c:321-385 | the DMA flush on an initialised panel has that effect, in flight or already handed back as the enqueue outcome decides, and stages the frame |
| LvglAdapter.Adapter.QueueTail | Core/Src/app/drivers/epd3in7_lvgl_adapter.c:374-384 | the refresh, the sleep and the enqueue are queued with a transfer in flight for this display, and the completion callback runs inside the enqueue when the outcome says so |
| LvglAdapter.Adapter.DmaDone | Core/Src/app/drivers/epd3in7_lvgl_adapter.c:269-286 | the completion callback moves the handle as `DmaDoneEffect` describes |
| LvglAdapter.Adapter.Free | Core/Src/app/drivers/epd3in7_lvgl_adapter.c:127-154 | free moves the handle as `FreeEffect` describes |
| I1Bitmap.MaskShift | Core/Src/app/drivers/epd3in7_lvgl_adapter.c:13 | the mask of pixel k is the single bit `1 << (7 - k)`, leftmost pixel in the most significant bit |
| I1Bitmap.SetBitEffect | Core/Src/app/drivers/epd3in7_lvgl_adapter.c:11-18 | setting pixel k of a byte to v makes that pixel read back as v and leaves the other seven pixels as they were |
| I1Bitmap.SetBitSame | Core/Src/app/drivers/epd3in7_lvgl_adapter.c:11-18 | a pixel written by the set helper reads back through the get helper as the value written |
| I1Bitmap.SetBitOther | Core/Src/app/drivers/epd3in7_lvgl_adapter.c:11-18 | writing one pixel never changes another pixel of the same byte |
| I1Bitmap.ZeroBit | Core/Src/app/drivers/epd3in7_lvgl_adapter.c:6-9 | every pixel of a zero byte reads as clear |
| I1Bitmap.SetPixelEffect | Core/Src/app/drivers/epd3in7_lvgl_adapter.c:11-18 | in a bitmap with rows of `stride` bytes, writing pixel (x, y) changes that pixel only; every other in-frame pixel keeps its value |
| I1Bitmap.FwdX | Core/Src/app/drivers/epd3in7_lvgl_adapter.c:54-72 | the destination column of a source pixel lies inside the rotated width (height for quarter turns) |
| I1Bitmap.FwdY | Core/Src/app/drivers/epd3in7_lvgl_adapter.c:54-72 | the destination row of a source pixel lies inside the rotated height (width for quarter turns) |
| I1Bitmap.SrcX | Core/Src/app/drivers/epd3in7_lvgl_adapter.c:54-72 | the source column that lands on a destination pixel lies inside the source width |
| I1Bitmap.SrcY | Core/Src/app/drivers/epd3in7_lvgl_adapter.c:54-72 | the source row that lands on a destination pixel lies inside the source height |
| I1Bitmap.FwdSrcInverse | Core/Src/app/drivers/epd3in7_lvgl_adapter.c:54-72 | the rotation switch is injective: mapping a source pixel forward and back gives the same source pixel |
| I1Bitmap.SrcFwdInverse | Core/Src/app/drivers/epd3in7_lvgl_adapter.c:54-72 | the rotation switch is onto: every destination pixel of the rotated frame is hit by exactly the source pixel the inverse names |
| I1Bitmap.ClearedPixels | Core/Src/app/drivers/epd3in7_lvgl_adapter.c:33-35 | after the memset every pixel of the first dst_h rows reads as clear |
| I1Bitmap.StepProgress | Core/Src/app/drivers/epd3in7_lvgl_adapter.c:51-74 | moving the next source pixel to its rotated place keeps every earlier pixel in place and leaves every pixel no earlier source pixel maps to clear |
| I1Bitmap.FinishProgress | Core/Src/app/drivers/epd3in7_lvgl_adapter.c:47-76 | once every source row has been moved, the destination is the full rotation, padding bits clear |
| I1Bitmap.Rotate | Core/Src/app/drivers/epd3in7_lvgl_adapter.c:28-77 | rotation 0 leaves each destination row equal to the source row followed by zero bytes; any other rotation leaves every destination pixel equal to the source pixel the rotation maps onto it and every padding bit clear; bytes past dst_stride * dst_h are untouched |
| I1Bitmap.Clear | Core/Src/app/drivers/epd3in7_lvgl_adapter.c:33-35 | the first `size` bytes become 0, the rest of the buffer is unchanged |
| I1Bitmap.CopyRow | Core/Src/app/drivers/epd3in7_lvgl_adapter.c:42 | the memcpy puts `n` source bytes at the destination offset and changes nothing outside them |
| I1Bitmap.CopyRows | Core/Src/app/drivers/epd3in7_lvgl_adapter.c:37-45 | the fast path leaves each of the h destination rows holding its source row then zeros, and nothing past them changes |
| I1Bitmap.MoveRow | Core/Src/app/drivers/epd3in7_lvgl_adapter.c:49-75 | the inner loop over one source row moves all its w pixels to their rotated places, keeping earlier rows' pixels |
| I1Bitmap.MovePixel | Core/Src/app/drivers/epd3in7_lvgl_adapter.c:51-74 | one iteration of the inner loop moves exactly the next source pixel and keeps the rows past the frame unchanged |
| I1Bitmap.SetPixelAt | Core/Src/app/drivers/epd3in7_lvgl_adapter.c:73-74 | writing a pixel into the destination array changes exactly the byte the set helper would and nothing past the frame |
| I1Bitmap.QuarterTurnUndone | Core/Src/app/drivers/epd3in7_lvgl_adapter.c:54-72 | rotating by 90 and then the result by 270 degrees gives back every source pixel |
| I1Bitmap.HalfTurnTwice | Core/Src/app/drivers/epd3in7_lvgl_adapter.c:59-62 | rotating by 180 degrees twice gives back every source pixel |
| I1Bitmap.TwoQuarterTurns | Core/Src/app/drivers/epd3in7_lvgl_adapter.c:54-72 | two 90-degree rotations give the 180-degree rotation of the source |
| I1Bitmap.CopyIsRotationByZero | Core/Src/app/drivers/epd3in7_lvgl_adapter.c:37-45 | when the source padding bits are clear, the row-copy fast path gives the same image as the general loop would for rotation 0 |
| LvglSectors.HashAppend | Core/Src/epd3in7_lvgl_adapter.c:12-16 | the hash loop folds left: hashing a + b from state h equals hashing b from the state reached after a |
| LvglSectors.FnvKnownAnswers | Core/Src/epd3in7_lvgl_adapter.c:10-11 | the offset basis 2166136261 and prime 16777619 give the standard 32-bit FNV-1a answers 0x811C9DC5 for no bytes and 0xE40C292C for "a" |
| LvglSectors.Hash32 | Core/Src/epd3in7_lvgl_adapter.c:7-18 | the byte loop with 32-bit wrap-around returns the FNV-1a hash of the whole buffer |
| LvglSectors.CeilDivBounds | Core/Src/epd3in7_lvgl_adapter.c:126 | the rounded-up band count of a non-empty area is at least 1, and count - 1 full bands fall short of the height while count bands reach it |
| LvglSectors.BandStartsInside | Core/Src/epd3in7_lvgl_adapter.c:134-139 | every band index below the count starts on a row inside the area, so the clamp `h - y_off` never yields an empty band |
| LvglSectors.BandArea | Core/Src/epd3in7_lvgl_adapter.c:136-146 | a band keeps the area's columns, starts i * rows_per_sector rows down, lies inside the area, has between 1 and rows_per_sector rows, and is shorter only when it reaches the area's bottom row |
| LvglSectors.SectorAt | Core/Src/epd3in7_lvgl_adapter.c:141-147 | a sector covers band i and points into the buffer at stride times its row offset |
| LvglSectors.BandFits | Core/Src/epd3in7_lvgl_adapter.c:142-147 | the bytes a band hashes lie inside the h * stride bytes of the buffer |
| LvglSectors.BandsTile | Core/Src/epd3in7_lvgl_adapter.c:126-148 | when the count does not wrap, the bands cover the area's rows exactly: the first starts at the top, each starts on the row after the previous one ends, the last ends at the bottom |
| LvglSectors.SectorList.Empty | Core/Src/epd3in7_lvgl_adapter.c:177-178 | an empty list has no items and count 0 |
| LvglSectors.SectorListFree | Core/Src/epd3in7_lvgl_adapter.c:158-170 | a null list is left alone; otherwise the items are released and the count is 0 |
| LvglSectors.MakeSector | Core/Src/epd3in7_lvgl_adapter.c:136-147 | one loop pass builds exactly sector i: its band, its offset and the FNV-1a hash of its rows' bytes |
| LvglSectors.MakeSectorsRows | Core/Src/epd3in7_lvgl_adapter.c:112-153 | succeeds exactly when area, buffer and list are present, rows_per_sector is positive, the area is non-empty, the 16-bit count is non-zero and the allocation succeeds; on success the list holds the count sectors of the area in order, on failure the list is untouched |
| LvglSectors.Handle.Create | Core/Src/epd3in7_lvgl_adapter.c:172-180 | a new handle keeps the work buffer and starts with an empty sector list |
| LvglSectors.Handle.Free | Core/Src/epd3in7_lvgl_adapter.c:182-188 | freeing the handle empties its sector list |
| LvglSectors.Handle.Flush | Core/Src/epd3in7_lvgl_adapter.c:190-249 | a missing area or pixel map only signals flush-ready; otherwise the pixels after the 8-byte palette are rotated into the work buffer when the rotation is not 0, the old sectors are replaced by the sectors of the (rotated) area over the bytes drawn, or left empty when building them fails, the frame is drawn in GC mode and flush-ready is signalled |

## Left out

- HAL, GPIO, SPI, DMA and timer calls are not modelled as time or as hardware. A blocking transmit and a BUSY wait become the answers of an oracle sequence. A DMA start and a "ready" predicate become oracle booleans. `HAL_Delay` and the tick-based delays are left out. The bounded register waits of the BME280 driver become one boolean each: `chipFound` for the chip-id wait, and `measured` of a `Sample` for the end-of-measurement wait. The NVM-copy wait after the soft reset is left out, because `BME280_Init` goes on whatever its outcome.
- Rfm69.Radio.SetMode, Rfm69.Radio.SwitchMode, Rfm69.Radio.SendFrame: the RFM69 ModeReady and PacketSent polls spin with no time-out until the flag is set. The model logs each poll as the one IRQFLAGS read that finds its flag set. It does not capture the reads before that one, and it does not capture a poll that never ends.
- Interrupt-versus-thread concurrency around the bus managers is not modelled. Every hook runs atomically between operations.
- SpiBusShared.InvPreserved, SpiBusShared.TryStartNotices, SpiBusApp.TryStartOneInFlight, SpiBusShared.Manager.TryStart, SpiBusApp.Manager.TryStart: a callback (`on_done`, `on_error`, `on_half`) is recorded as an event in the log and never calls back into the manager. In the C code `try_start` calls a refused start's `on_error`, and in the shared manager also a callback item's `on_done`, with `busy` false and the item still at the head. A callback that submits from there restarts that head, and the outer call then pops it while its DMA runs. The one-in-flight invariant and the notice order are proved only for callbacks that do not re-enter the manager.
- The older bus manager works out half or full completion from the DMA flags. That inference is replaced by a `half` parameter, because it depends on hardware state.
- The debug ring-buffer logger of the shared bus manager (`src/shared/src/shared/drivers/spi_bus_manager.c:4-95`) is left out. It does not affect the queue.
- LVGL calls are not modelled: `lv_display_*`, `lv_async_call`, `lv_malloc`/`lv_free`, `lv_display_rotate_area`. The results the adapters use are parameters: the rotation, the rotated area, whether an allocation succeeds, and the statuses the panel driver returns. The calls the adapters make are recorded in a ghost log.
- LvglAdapter.Stride: the row stride is `(width + 7) / 8`. This is the unaligned value `lv_draw_buf_width_to_stride` returns for I1 when no extra stride alignment is configured.
- LvglAdapter.Adapter.Create: `create` leaves `dma_in_progress` and `pending_disp` uninitialised. The model starts them as false and none.
- Both bus managers' optional D-cache clean before a transmit (`clean_dcache_before_tx`, at Core/Src/app/drivers/spi_bus_manager.c:95-96 and src/shared/src/shared/drivers/spi_bus_manager.c:226-231, false after create in both) is left out. It has no effect in a model without caches.
- EpdDriver.Driver.SleepDma: the queued descriptors point at stack locals of `sleep_dma`, which are dead once it returns. The model records the bytes those locals hold when queued, so it does not capture the dangling pointers.
- Null handles, null images and null managers are left out where the C code dereferences them without a check. They are modelled (as `Option` or `?` types) only where the code tests for them.
- Floating point is not modelled. Temperature is kept in hundredths of a degree, humidity in 1/1024 %RH and pressure in Pa: the integers the final float scalings start from. `BMPxx80_ReadAltitude` and the other `powf` helpers, the BMP180/BMP280 code paths and the I2C build are left out.
- Bmpxx80.PressurePa, Bmpxx80.HumidityQ10, Bmpxx80.TFine: the `int32_t`/`int64_t` intermediates of the compensation formulas are unbounded integers. Wrap-around on out-of-range calibration data is not captured. Only the final `int32_t` cast of the pressure is written out.
- The `bmpxx80.h` and `rfm69_registers.h` headers are not part of this model. The BME280 register addresses, mode and oversampling codes, and the RFM69 register addresses and bit values, are the standard values from the chips' datasheets, stated as named constants.
- The BMPxx chip-select helpers and the SPI/I2C byte transport are not modelled. A reading sees a snapshot of the chip's registers.
- The RFM69 functions outside the header, power and receive logic are left out: `RFM69_Init` (apart from the handle fields it sets, which the `Radio` constructor models), `RFM69_Send`, `RFM69_SendWithRetry`, `RFM69_SendACK`, `RFM69_CanSend`, `RFM69_ReceiveDone`, `RFM69_ACKReceived`, `RFM69_OnDIO0IRQ`, `RFM69_Encrypt`, `RFM69_SetFrequency` and its getters, `RFM69_SetNetwork`, `RFM69_SetHighPower` (the model takes the module type at construction), `RFM69_Sleep`, and the trivial version, frequency-deviation, bitrate, address, network and power-level getters and `RFM69_SetAddress`. They are register sequences and polling loops around the modelled frame builder and receive handler.
- Rfm69.Radio.InterruptHandler: it requires the received frame's data to fit in `DATA` at the clamp it is given. At the as-written clamp of 66 a length byte of 66 makes the C code write one byte past `DATA`; the model does not describe what that overrun does to the memory behind the array.
- LvglSectors.FnvKnownAnswers: the hash is proved equal to FNV-1a, with known answers. Nothing about collisions is proved.

## Findings

| source | as written | input that shows it | evidently intended | confidence | as-written member | corrected member |
|---|---|---|---|---|---|---|
| src/shared/src/shared/drivers/spi_bus_manager.c:423-428 | `cancel_pending` sets `q_tail = q_head`, which drops the in-flight head too, although its comment says the in-flight transfer is kept | transfer 1 in flight; cancel; submit transfer 2. The completion interrupt of transfer 1 deasserts transfer 2's CS and reports transfer 2 done. Alternatively, a half-transfer interrupt after the cancel clears busy, and the next submit starts a second DMA while the first still runs | keep the in-flight head and drop only the items behind it | not executed | SpiBusShared.CancelAsWrittenReportsUnsentItem, SpiBusShared.CancelAsWrittenAllowsTwoInFlight | SpiBusShared.CancelKeepInFlight, SpiBusShared.CancelKeepInFlightReportsSentItem, SpiBusShared.InvPreserved |
| Core/Src/app/hourly_clock.c:56-62 | on a new minute within the hour, the counter becomes `elapsed / 60 * 60 + Seconds`, which keeps the old minute | 00:00:59 then 00:01:00: the counter goes from 59 to 0 instead of 60 | the counter becomes `Seconds + 60 * Minutes` of the new reading, as on an hour change | not executed | HourlyClock.MinuteChangeLosesMinute | HourlyClock.UpdateIntended, HourlyClock.UpdateIntendedTracks |
| Core/Src/app/drivers/rfm69.c:371 | the length byte is clamped to 66, so an accepted frame can carry 63 data bytes, while `DATA` holds 62 (`RFM69_MAX_DATA_LEN` + 1) | a frame with length byte 66 addressed to the receiver: DATALEN = 63, one byte past `DATA` | clamp at `RFM69_MAX_DATA_LEN` + 3 = 64 | not executed | Rfm69.RxClampOverrunsData, Rfm69.RxClampAsWrittenFits (Rfm69.Radio.InterruptHandler at `RxClampAsWritten`) | Rfm69.RxClampFits (Rfm69.Radio.InterruptHandler at `RxClamp`) |
