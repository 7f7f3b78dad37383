/** Types and ring-buffer arithmetic common to both SPI bus managers
  * (the status codes, GPIO descriptor, direction, DC mode and the
  * `SPI_Q_*` index macros). */
module SpiBusTypes {
  import opened Common

  /** `spi_bus_gpio`: a null `port` means "line not used". */
  datatype Gpio = Gpio(port: Option<nat>, pin: u16, activeLow: bool)

  datatype Dir = DirTx | DirTxRx

  datatype DcMode = DcUnused | DcCommand | DcData

  datatype Status = Ok | ErrParam | ErrFull | ErrBusy | ErrHal

  function StatusCode(s: Status): (c: int)
    ensures s == Ok <==> c == 0
    ensures c <= 0
  {
    match s
    case Ok => 0
    case ErrParam => -1
    case ErrFull => -2
    case ErrBusy => -3
    case ErrHal => -4
  }

  /** What the bus manager does to the outside world, in order. */
  datatype Event =
    | PinWrite(port: nat, pin: u16, high: bool)
    | RegsWrite(cr1: u32, cr2: u32)
    | DmaStart(user: nat, dir: Dir, len: u16, accepted: bool)
    | HalfCb(user: nat)
    | DoneCb(user: nat)
    | ErrorCb(user: nat)

  /** `spi_bus_gpio_set`: the logical request `active` becomes the electrical
    * level through `active_low`; a null port writes nothing. */
  function GpioSet(g: Gpio, active: bool): seq<Event>
  {
    if g.port.None? then [] else [PinWrite(g.port.value, g.pin, active != g.activeLow)]
  }

  /** Asserting and then deasserting a line touch the same pin with opposite
    * levels; an active-low line is driven low when asserted. */
  lemma AssertDeassertOpposite(g: Gpio)
    requires g.port.Some?
    ensures |GpioSet(g, true)| == 1 && |GpioSet(g, false)| == 1
    ensures GpioSet(g, true)[0].pin == GpioSet(g, false)[0].pin == g.pin
    ensures GpioSet(g, true)[0].high == !GpioSet(g, false)[0].high
    ensures GpioSet(g, true)[0].high <==> !g.activeLow
  {
  }

  /** `SPI_Q_INCR`. The `uint16_t` cast is the identity here because the
    * remainder is below a `uint16_t` capacity. */
  function Incr(i: nat, cap: nat): (r: nat)
    requires cap > 0
    ensures r < cap
  {
    (i + 1) % cap
  }

  lemma IncrStep(i: nat, cap: nat)
    requires i < cap
    ensures Incr(i, cap) == if i + 1 == cap then 0 else i + 1
  {
  }

  /** The live part of a ring buffer `s` whose pop index is `h` and whose
    * push index is `t`, oldest entry first. */
  function RingSeq<T>(s: seq<T>, h: nat, t: nat): seq<T>
    requires h <= |s| && t <= |s|
  {
    if h <= t then s[h..t] else s[h..] + s[..t]
  }

  predicate RingIndices(cap: nat, h: nat, t: nat)
  {
    if cap == 0 then h == 0 && t == 0 else h < cap && t < cap
  }

  /** `SPI_Q_EMPTY`: the indices are equal exactly when nothing is queued. */
  lemma RingEmpty<T>(s: seq<T>, h: nat, t: nat)
    requires RingIndices(|s|, h, t)
    ensures h == t <==> RingSeq(s, h, t) == []
    ensures |RingSeq(s, h, t)| < |s| || |s| == 0
  {
    if h > t {
      assert |RingSeq(s, h, t)| == |s| - h + t;
    }
  }

  /** `SPI_Q_FULL`: the ring is full exactly when it holds capacity - 1
    * entries, one slot always staying free. */
  lemma RingFull<T>(s: seq<T>, h: nat, t: nat)
    requires |s| > 0 && RingIndices(|s|, h, t)
    ensures Incr(t, |s|) == h <==> |RingSeq(s, h, t)| == |s| - 1
  {
    IncrStep(t, |s|);
    if h > t {
      assert |RingSeq(s, h, t)| == |s| - h + t;
    }
  }

  /** The oldest entry sits at the pop index. */
  lemma RingHead<T>(s: seq<T>, h: nat, t: nat)
    requires RingIndices(|s|, h, t) && h != t
    ensures RingSeq(s, h, t) != [] && RingSeq(s, h, t)[0] == s[h]
  {
    RingEmpty(s, h, t);
  }

  /** `spi_bus_pop`: advancing the pop index drops exactly the oldest entry. */
  lemma RingPop<T>(s: seq<T>, h: nat, t: nat)
    requires RingIndices(|s|, h, t) && h != t
    ensures RingSeq(s, Incr(h, |s|), t) == RingSeq(s, h, t)[1..]
  {
    IncrStep(h, |s|);
    if h > t && h + 1 == |s| {
      assert s[h..] == [s[h]];
    }
  }

  /** Writing `x` into the push slot of a ring that is not full and advancing
    * the push index appends exactly `x`. */
  lemma RingPush<T>(s: seq<T>, h: nat, t: nat, x: T)
    requires |s| > 0 && RingIndices(|s|, h, t) && Incr(t, |s|) != h
    ensures RingSeq(s[t := x], h, Incr(t, |s|)) == RingSeq(s, h, t) + [x]
  {
    IncrStep(t, |s|);
    var s' := s[t := x];
    if h <= t {
      if t + 1 < |s| {
        assert s'[h..t + 1] == s[h..t] + [x];
      } else {
        assert s'[h..] + s'[..0] == s[h..t] + [x];
      }
    } else {
      assert s'[h..] == s[h..];
      assert s'[..t + 1] == s[..t] + [x];
    }
  }

  lemma ConcatAssoc(a: seq<Event>, b: seq<Event>, c: seq<Event>)
    ensures a + (b + c) == a + b + c
  {
  }

  /** The number of DMA starts the HAL accepted. */
  function Accepted(log: seq<Event>): nat
  {
    if log == [] then 0
    else (if log[0].DmaStart? && log[0].accepted then 1 else 0) + Accepted(log[1..])
  }

  /** The completion and error notifications, in order. */
  function Notices(log: seq<Event>): seq<Event>
  {
    if log == [] then []
    else (if log[0].DoneCb? || log[0].ErrorCb? then [log[0]] else []) + Notices(log[1..])
  }

  /** A one-event log: a DMA start the HAL accepted counts, a completion or
    * error callback is a notice. */
  lemma SingleEvent(e: Event)
    ensures Accepted([e]) == (if e.DmaStart? && e.accepted then 1 else 0)
    ensures Notices([e]) == (if e.DoneCb? || e.ErrorCb? then [e] else [])
  {
    assert [e][1..] == [];
  }

  /** Pin writes neither start a DMA nor notify anyone. */
  lemma PinsQuiet(log: seq<Event>)
    requires |log| <= 1 && forall i :: 0 <= i < |log| ==> log[i].PinWrite?
    ensures Accepted(log) == 0 && Notices(log) == []
  {
    if log != [] {
      assert log == [log[0]];
      SingleEvent(log[0]);
    }
  }

  /** `Accepted` and `Notices` over a log made of four pieces. */
  lemma LogAppend3(a: seq<Event>, g: seq<Event>, e: seq<Event>, tail: seq<Event>)
    ensures Accepted(a + g + e + tail) == Accepted(a) + Accepted(g) + Accepted(e) + Accepted(tail)
    ensures Notices(a + g + e + tail) == Notices(a) + Notices(g) + Notices(e) + Notices(tail)
  {
    AcceptedAppend(a + g + e, tail);
    AcceptedAppend(a + g, e);
    AcceptedAppend(a, g);
    NoticesAppend(a + g + e, tail);
    NoticesAppend(a + g, e);
    NoticesAppend(a, g);
  }

  lemma {:induction false} AcceptedAppend(a: seq<Event>, b: seq<Event>)
    ensures Accepted(a + b) == Accepted(a) + Accepted(b)
  {
    if a == [] {
      assert a + b == b;
    } else {
      assert (a + b)[0] == a[0] && (a + b)[1..] == a[1..] + b;
      AcceptedAppend(a[1..], b);
    }
  }

  lemma {:induction false} NoticesAppend(a: seq<Event>, b: seq<Event>)
    ensures Notices(a + b) == Notices(a) + Notices(b)
  {
    if a == [] {
      assert a + b == b;
    } else {
      var h := if a[0].DoneCb? || a[0].ErrorCb? then [a[0]] else [];
      assert (a + b)[0] == a[0] && (a + b)[1..] == a[1..] + b;
      assert Notices(a + b) == h + Notices(a[1..] + b);
      assert Notices(a) == h + Notices(a[1..]);
      NoticesAppend(a[1..], b);
    }
  }

}
