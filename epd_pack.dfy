/** The 4-gray plane packing of `epd3in7_driver_display_4_gray`: each pair
  * of source bytes (four 2-bit pixels each, leftmost in the top bits) gives
  * one byte of the first plane and one of the second; white is 11, black
  * 00, gray1 10 and gray2 01. */
module EpdPack {
  import opened Common


  datatype Plane = Plane1 | Plane2

  /** The 2-bit code of pixel `p` (0..7, leftmost first) of the source pair
    * `hi`, `lo`: four pixels per byte, most significant bits first. */
  function PixelCode(hi: bv8, lo: bv8, p: nat): (c: bv8)
    requires p < 8
    ensures c < 4
  {
    match p
    case 0 => (hi >> 6) & 3
    case 1 => (hi >> 4) & 3
    case 2 => (hi >> 2) & 3
    case 3 => hi & 3
    case 4 => (lo >> 6) & 3
    case 5 => (lo >> 4) & 3
    case 6 => (lo >> 2) & 3
    case _ => lo & 3
  }

  /** The bit a pixel code contributes to a plane: plane 1 is the code's low
    * bit (white 11 and gray2 01 set it), plane 2 its high bit (white 11 and
    * gray1 10). */
  function PlaneBit(plane: Plane, code: bv8): (r: bv8)
    requires code < 4
    ensures r < 2
  {
    if plane == Plane1 then code & 1 else code >> 1
  }

  /** The two planes together give back the pixel code. */
  lemma PlanesRecoverCode(code: bv8)
    requires code < 4
    ensures (PlaneBit(Plane2, code) << 1) | PlaneBit(Plane1, code) == code
    ensures code == 3 ==> PlaneBit(Plane1, code) == 1 && PlaneBit(Plane2, code) == 1
    ensures code == 0 ==> PlaneBit(Plane1, code) == 0 && PlaneBit(Plane2, code) == 0
  {
  }

  /** The plane bit of pixel `i`. */
  function C(hi: bv8, lo: bv8, plane: Plane, i: nat): (r: bv8)
    requires i < 8
    ensures r < 2
  {
    PlaneBit(plane, PixelCode(hi, lo, i))
  }

  /** One output byte of a plane: the plane bit of pixel p becomes bit 7 - p,
    * so the leftmost pixel is the most significant bit. */
  function PackByte(hi: bv8, lo: bv8, plane: Plane): bv8
  {
    (C(hi, lo, plane, 0) << 7) | (C(hi, lo, plane, 1) << 6) | (C(hi, lo, plane, 2) << 5) |
    (C(hi, lo, plane, 3) << 4) | (C(hi, lo, plane, 4) << 3) | (C(hi, lo, plane, 5) << 2) |
    (C(hi, lo, plane, 6) << 1) | C(hi, lo, plane, 7)
  }

  /** The `n` most significant bits of `b` (n = 0, 2, 4, 6 or 8), as a number:
    * what `temp3` has accumulated after the first n pixels. */
  function Top(b: bv8, n: nat): bv8
  {
    match n
    case 0 => 0
    case 2 => b >> 6
    case 4 => b >> 4
    case 6 => b >> 2
    case _ => b
  }

  /** The bit the C chain of comparisons ORs in for the top two bits `top`
    * of the shifted source byte. */
  function ChainBit(plane: Plane, top: bv8): bv8
  {
    if top == 0xC0 then 1
    else if top == 0x00 then 0
    else if top == 0x80 then (if plane == Plane1 then 0 else 1)
    else (if plane == Plane1 then 1 else 0)
  }

  /** One pass of the inner loop before its final shift: two chain bits read
    * from the top of `temp1` are shifted into `temp3`. */
  function Step(plane: Plane, temp1: bv8, temp3: bv8): bv8
  {
    ((temp3 | ChainBit(plane, temp1 & 0xC0)) << 1) | ChainBit(plane, (temp1 << 2) & 0xC0)
  }

  /** The four passes over a source pair, each shifting the next two pixels'
    * plane bits into what the previous passes accumulated. */
  lemma Pass0(h: bv8, l: bv8, plane: Plane)
    ensures Step(plane, h, Top(PackByte(h, l, plane), 0) << 1) == Top(PackByte(h, l, plane), 2)
  {
  }

  lemma Pass1(h: bv8, l: bv8, plane: Plane)
    ensures Step(plane, h << 4, Top(PackByte(h, l, plane), 2) << 1) == Top(PackByte(h, l, plane), 4)
  {
  }

  lemma Pass2(h: bv8, l: bv8, plane: Plane)
    ensures Step(plane, l, Top(PackByte(h, l, plane), 4) << 1) == Top(PackByte(h, l, plane), 6)
  {
  }

  lemma Pass3(h: bv8, l: bv8, plane: Plane)
    ensures Step(plane, l << 4, Top(PackByte(h, l, plane), 6) << 1) == PackByte(h, l, plane)
  {
  }

  /** The accumulator values `temp3` passes through while packing a source
    * pair: after 2, 4 and 6 pixels, and the finished byte. */
  lemma PassChain(h: bv8, l: bv8, plane: Plane) returns (a1: bv8, a2: bv8, a3: bv8)
    ensures Step(plane, h, 0) == a1 && Step(plane, h << 4, a1 << 1) == a2
    ensures Step(plane, l, a2 << 1) == a3 && Step(plane, l << 4, a3 << 1) == PackByte(h, l, plane)
  {
    Pass0(h, l, plane);
    Pass1(h, l, plane);
    Pass2(h, l, plane);
    Pass3(h, l, plane);
    a1, a2, a3 := Top(PackByte(h, l, plane), 2), Top(PackByte(h, l, plane), 4), Top(PackByte(h, l, plane), 6);
  }

  /** The body of the inner `k` loop up to its closing shifts: the chain bits
    * of the top two pixels of `temp1` are shifted into `temp3`. */
  method PackPass(plane: Plane, temp1: bv8, temp3: bv8) returns (temp1': bv8, temp3': bv8)
    ensures temp1' == temp1 << 2
    ensures temp3' == Step(plane, temp1, temp3)
  {
    var x := ChainBit(plane, temp1 & 0xC0);
    temp3' := temp3 | x;
    temp3' := temp3' << 1;
    temp1' := temp1 << 2;
    var y := ChainBit(plane, temp1' & 0xC0);
    temp3' := temp3' | y;
  }

  /** The inner `k` loop over source byte `b`: `temp3` holds `a0` shifted
    * once; each pass shifts two more pixels in, reaching `a1` and then `a2`,
    * and the last pass of the pair leaves out the final shift. */
  method PackHalf(plane: Plane, b: bv8, last: bool, temp3: bv8, ghost a0: bv8, ghost a1: bv8, ghost a2: bv8)
    returns (temp3': bv8)
    requires temp3 == a0 << 1
    requires Step(plane, b, a0 << 1) == a1
    requires Step(plane, b << 4, a1 << 1) == a2
    ensures temp3' == if last then a2 else a2 << 1
  {
    var temp1 := b;
    temp3' := temp3;
    var k := 0;
    while k < 2
      invariant 0 <= k <= 2
      invariant k == 0 ==> temp1 == b && temp3' == a0 << 1
      invariant k == 1 ==> temp1 == b << 4 && temp3' == a1 << 1
      invariant k == 2 ==> temp3' == if last then a2 else a2 << 1
    {
      temp1, temp3' := PackPass(plane, temp1, temp3');
      if !last || k != 1 {
        temp3' := temp3' << 1;
      }
      temp1 := temp1 << 2;
      k := k + 1;
    }
  }

  /** One iteration of `display_4_gray`'s conversion loop: the nested `j`/`k`
    * loops over the source pair, shifting `temp3` and `temp1` as written. */
  method PackPlaneByte(hi: byte, lo: byte, plane: Plane) returns (out: byte)
    ensures out == PackByte(hi as bv8, lo as bv8, plane) as int
  {
    var h, l := hi as bv8, lo as bv8;
    ghost var a1, a2, a3 := PassChain(h, l, plane);
    var temp3: bv8 := 0;
    var j := 0;
    while j < 2
      invariant 0 <= j <= 2
      invariant j == 0 ==> temp3 == 0
      invariant j == 1 ==> temp3 == a2 << 1
      invariant j == 2 ==> temp3 == PackByte(h, l, plane)
    {
      if j == 0 {
        temp3 := PackHalf(plane, h, false, temp3, 0, a1, a2);
      } else {
        temp3 := PackHalf(plane, l, true, temp3, a2, a3, PackByte(h, l, plane));
      }
      j := j + 1;
    }
    out := temp3 as int;
  }

  lemma ByteRoundTrip(x: bv8)
    ensures (x as int) as bv8 == x
  {
  }

  /** Bit 7 - p of a byte, p = 0 being the most significant. */
  function BitAt(b: bv8, p: nat): (r: bv8)
    requires p < 8
    ensures r < 2
  {
    match p
    case 0 => (b >> 7) & 1
    case 1 => (b >> 6) & 1
    case 2 => (b >> 5) & 1
    case 3 => (b >> 4) & 1
    case 4 => (b >> 3) & 1
    case 5 => (b >> 2) & 1
    case 6 => (b >> 1) & 1
    case _ => b & 1
  }

  /** The four high bits of a packed byte are pixels 0..3's plane bits. */
  lemma PackHighBits(hi: bv8, lo: bv8, plane: Plane)
    ensures var b := PackByte(hi, lo, plane);
      BitAt(b, 0) == C(hi, lo, plane, 0) && BitAt(b, 1) == C(hi, lo, plane, 1) &&
      BitAt(b, 2) == C(hi, lo, plane, 2) && BitAt(b, 3) == C(hi, lo, plane, 3)
  {
  }

  /** The four low bits of a packed byte are pixels 4..7's plane bits. */
  lemma PackLowBits(hi: bv8, lo: bv8, plane: Plane)
    ensures var b := PackByte(hi, lo, plane);
      BitAt(b, 4) == C(hi, lo, plane, 4) && BitAt(b, 5) == C(hi, lo, plane, 5) &&
      BitAt(b, 6) == C(hi, lo, plane, 6) && BitAt(b, 7) == C(hi, lo, plane, 7)
  {
  }

  /** Bit 7 - p of a packed byte is pixel p's plane bit. */
  lemma PackByteBit(hi: bv8, lo: bv8, plane: Plane, p: nat)
    requires p < 8
    ensures BitAt(PackByte(hi, lo, plane), p) == C(hi, lo, plane, p)
  {
    var b := PackByte(hi, lo, plane);
    if p < 4 {
      PackHighBits(hi, lo, plane);
      if p == 0 {
        assert BitAt(b, 0) == C(hi, lo, plane, 0);
      } else if p == 1 {
        assert BitAt(b, 1) == C(hi, lo, plane, 1);
      } else if p == 2 {
        assert BitAt(b, 2) == C(hi, lo, plane, 2);
      } else {
        assert BitAt(b, 3) == C(hi, lo, plane, 3);
      }
    } else {
      PackLowBits(hi, lo, plane);
      if p == 4 {
        assert BitAt(b, 4) == C(hi, lo, plane, 4);
      } else if p == 5 {
        assert BitAt(b, 5) == C(hi, lo, plane, 5);
      } else if p == 6 {
        assert BitAt(b, 6) == C(hi, lo, plane, 6);
      } else {
        assert BitAt(b, 7) == C(hi, lo, plane, 7);
      }
    }
  }

  /** The two emitted planes together recover every source pixel. */
  lemma PackRoundTrip(hi: bv8, lo: bv8, p: nat)
    requires p < 8
    ensures (BitAt(PackByte(hi, lo, Plane2), p) << 1) | BitAt(PackByte(hi, lo, Plane1), p) == PixelCode(hi, lo, p)
  {
    PackByteBit(hi, lo, Plane1, p);
    PackByteBit(hi, lo, Plane2, p);
    PlanesRecoverCode(PixelCode(hi, lo, p));
  }
}
