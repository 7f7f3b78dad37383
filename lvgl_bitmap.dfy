/** One-bit-per-pixel (LVGL "I1") bitmaps as the display adapters see them:
  * rows of `stride` bytes, eight pixels per byte, the leftmost pixel in the
  * most significant bit. Both adapters carry the same two bit helpers and
  * the same rotation routine; they are modelled here once. Pixel bytes are
  * `bv8`, so the helpers' shifts and masks are written as in the source. */
module I1Bitmap {

  /** `1u << (7 - k)`: the bit of pixel `k` (0 = leftmost) within its byte. */
  function Mask(k: nat): (m: bv8)
    requires k < 8
  {
    if k == 0 then 0x80 else if k == 1 then 0x40 else if k == 2 then 0x20 else if k == 3 then 0x10
    else if k == 4 then 0x08 else if k == 5 then 0x04 else if k == 6 then 0x02 else 0x01
  }

  lemma MaskShift(k: nat)
    requires k < 8
    ensures Mask(k) == (1 as bv8) << (7 - k)
  {
    if k == 0 {} else if k == 1 {} else if k == 2 {} else if k == 3 {}
    else if k == 4 {} else if k == 5 {} else if k == 6 {} else {}
  }

  /** `(b >> (7 - k)) & 0x01`: pixel `k` of byte `b`. */
  predicate BitOf(b: bv8, k: nat)
    requires k < 8
  {
    (b >> (7 - k)) & 1 == 1
  }

  /** `b |= mask` to set the pixel, `b &= ~mask` to clear it. */
  function SetBit(b: bv8, k: nat, v: bool): bv8
    requires k < 8
  {
    if v then b | Mask(k) else b & !Mask(k)
  }

  /** Setting a pixel gives it the requested value and leaves the other
    * seven pixels of the byte as they were. */
  lemma SetBitEffect(b: bv8, k: nat, v: bool, j: nat)
    requires k < 8 && j < 8
    ensures BitOf(SetBit(b, k, v), j) == if j == k then v else BitOf(b, j)
  {
    if j == k {
      SetBitSame(b, k, v);
    } else {
      SetBitOther(b, k, v, j);
    }
  }

  lemma SetBitSame(b: bv8, k: nat, v: bool)
    requires k < 8
    ensures BitOf(SetBit(b, k, v), k) == v
  {
    if k == 0 {} else if k == 1 {} else if k == 2 {} else if k == 3 {}
    else if k == 4 {} else if k == 5 {} else if k == 6 {} else {}
  }

  lemma SetBitOther(b: bv8, k: nat, v: bool, j: nat)
    requires k < 8 && j < 8 && j != k
    ensures BitOf(SetBit(b, k, v), j) == BitOf(b, j)
  {
    if j == 0 {} else if j == 1 {} else if j == 2 {} else if j == 3 {}
    else if j == 4 {} else if j == 5 {} else if j == 6 {} else {}
  }

  lemma ZeroBit(k: nat)
    requires k < 8
    ensures !BitOf(0, k)
  {
    if k == 0 {} else if k == 1 {} else if k == 2 {} else if k == 3 {}
    else if k == 4 {} else if k == 5 {} else if k == 6 {} else {}
  }

  // ---- Row-major layout ----

  /** Byte offset of pixel (x, y) in a buffer with `stride` bytes per row. */
  function Index(stride: nat, x: nat, y: nat): nat
  {
    y * stride + x / 8
  }

  /** `get_bit_msb_first(buf + y * stride, x)`; pixels outside the buffer read as 0. */
  predicate PixelAt(s: seq<bv8>, stride: nat, x: nat, y: nat)
  {
    var i := Index(stride, x, y);
    i < |s| && BitOf(s[i], x % 8)
  }

  /** `set_bit_msb_first(buf + y * stride, x, v)` on a buffer value. */
  function SetPixel(s: seq<bv8>, stride: nat, x: nat, y: nat, v: bool): (r: seq<bv8>)
    requires Index(stride, x, y) < |s|
    ensures |r| == |s|
  {
    var i := Index(stride, x, y);
    s[i := SetBit(s[i], x % 8, v)]
  }

  lemma RowIndexBound(r: nat, c: nat, rows: nat, stride: nat)
    requires r < rows && c <= stride
    ensures r * stride + c <= rows * stride
  {
    assert rows * stride == (r + 1) * stride + (rows - r - 1) * stride;
  }

  lemma RowIndexSplit(r1: nat, c1: nat, r2: nat, c2: nat, stride: nat)
    requires c1 < stride && c2 < stride && r1 * stride + c1 == r2 * stride + c2
    ensures r1 == r2 && c1 == c2
  {
    if r1 < r2 {
      RowIndexBound(r1, c1 + 1, r2, stride);
    } else if r2 < r1 {
      RowIndexBound(r2, c2 + 1, r1, stride);
    }
  }

  /** Setting one pixel changes that pixel and no other pixel of the rows. */
  lemma SetPixelEffect(s: seq<bv8>, stride: nat, x: nat, y: nat, v: bool, x2: nat, y2: nat)
    requires x < 8 * stride && x2 < 8 * stride && Index(stride, x, y) < |s|
    ensures PixelAt(SetPixel(s, stride, x, y, v), stride, x2, y2)
         == if x2 == x && y2 == y then v else PixelAt(s, stride, x2, y2)
  {
    var i, i2 := Index(stride, x, y), Index(stride, x2, y2);
    if i2 == i {
      RowIndexSplit(y, x / 8, y2, x2 / 8, stride);
      SetBitEffect(s[i], x % 8, v, x2 % 8);
    }
  }

  // ---- Rotation geometry ----

  /** `lv_display_rotation_t`. */
  datatype Rotation = Rot0 | Rot90 | Rot180 | Rot270

  predicate Swaps(rot: Rotation)
  {
    rot == Rot90 || rot == Rot270
  }

  function DstW(w: nat, h: nat, rot: Rotation): nat
  {
    if Swaps(rot) then h else w
  }

  function DstH(w: nat, h: nat, rot: Rotation): nat
  {
    if Swaps(rot) then w else h
  }

  /** Destination column of source pixel (x, y): the `xd` of the rotation switch. */
  function FwdX(w: nat, h: nat, rot: Rotation, x: nat, y: nat): (xd: nat)
    requires x < w && y < h
    ensures xd < DstW(w, h, rot)
  {
    match rot
    case Rot90 => h - 1 - y
    case Rot180 => w - 1 - x
    case Rot270 => y
    case Rot0 => x
  }

  /** Destination row of source pixel (x, y): the `yd` of the rotation switch. */
  function FwdY(w: nat, h: nat, rot: Rotation, x: nat, y: nat): (yd: nat)
    requires x < w && y < h
    ensures yd < DstH(w, h, rot)
  {
    match rot
    case Rot90 => x
    case Rot180 => h - 1 - y
    case Rot270 => w - 1 - x
    case Rot0 => y
  }

  /** Source column of destination pixel (xd, yd). */
  function SrcX(w: nat, h: nat, rot: Rotation, xd: nat, yd: nat): (x: nat)
    requires xd < DstW(w, h, rot) && yd < DstH(w, h, rot)
    ensures x < w
  {
    match rot
    case Rot90 => yd
    case Rot180 => w - 1 - xd
    case Rot270 => w - 1 - yd
    case Rot0 => xd
  }

  /** Source row of destination pixel (xd, yd). */
  function SrcY(w: nat, h: nat, rot: Rotation, xd: nat, yd: nat): (y: nat)
    requires xd < DstW(w, h, rot) && yd < DstH(w, h, rot)
    ensures y < h
  {
    match rot
    case Rot90 => h - 1 - xd
    case Rot180 => h - 1 - yd
    case Rot270 => xd
    case Rot0 => yd
  }

  /** The coordinate switch is a bijection between the source and the
    * destination rectangles: SrcX/SrcY undo FwdX/FwdY and vice versa. */
  lemma FwdSrcInverse(w: nat, h: nat, rot: Rotation, x: nat, y: nat)
    requires x < w && y < h
    ensures SrcX(w, h, rot, FwdX(w, h, rot, x, y), FwdY(w, h, rot, x, y)) == x
    ensures SrcY(w, h, rot, FwdX(w, h, rot, x, y), FwdY(w, h, rot, x, y)) == y
  {
  }

  lemma SrcFwdInverse(w: nat, h: nat, rot: Rotation, xd: nat, yd: nat)
    requires xd < DstW(w, h, rot) && yd < DstH(w, h, rot)
    ensures FwdX(w, h, rot, SrcX(w, h, rot, xd, yd), SrcY(w, h, rot, xd, yd)) == xd
    ensures FwdY(w, h, rot, SrcX(w, h, rot, xd, yd), SrcY(w, h, rot, xd, yd)) == yd
  {
  }

  /** What the destination must hold after a quarter- or half-turn: every
    * pixel of the rotated rectangle is its source pixel, every padding bit
    * of the destination rows is 0. */
  ghost predicate Rotated(d: seq<bv8>, dstStride: nat, src: seq<bv8>, srcStride: nat, w: nat, h: nat, rot: Rotation)
  {
    forall xd: nat, yd: nat {:trigger PixelAt(d, dstStride, xd, yd)} :: xd < 8 * dstStride && yd < DstH(w, h, rot) ==>
      PixelAt(d, dstStride, xd, yd) ==
        (xd < DstW(w, h, rot) && PixelAt(src, srcStride, SrcX(w, h, rot, xd, yd), SrcY(w, h, rot, xd, yd)))
  }

  /** What the destination must hold after the row copy of rotation 0: the
    * first `srcStride` bytes of each row are the source row, padding bits
    * included, and the rest of the row is 0. */
  ghost predicate Copied(d: seq<bv8>, dstStride: nat, src: seq<bv8>, srcStride: nat, h: nat)
  {
    forall x: nat, y: nat {:trigger PixelAt(d, dstStride, x, y)} :: x < 8 * dstStride && y < h ==>
      PixelAt(d, dstStride, x, y) == (x < 8 * srcStride && PixelAt(src, srcStride, x, y))
  }

  // ---- Loop invariants of the rotation ----

  /** Source pixel (x, y) comes before the loop position (x0, y0) in row-major order. */
  predicate Before(x: nat, y: nat, x0: nat, y0: nat)
  {
    y < y0 || (y == y0 && x < x0)
  }

  /** The destination after the general loop has visited every source pixel before (x0, y0). */
  ghost predicate Progress(d: seq<bv8>, dstStride: nat, src: seq<bv8>, srcStride: nat, w: nat, h: nat, rot: Rotation, x0: nat, y0: nat)
  {
    forall xd: nat, yd: nat {:trigger PixelAt(d, dstStride, xd, yd)} :: xd < 8 * dstStride && yd < DstH(w, h, rot) ==>
      PixelAt(d, dstStride, xd, yd) ==
        (xd < DstW(w, h, rot) && Before(SrcX(w, h, rot, xd, yd), SrcY(w, h, rot, xd, yd), x0, y0)
         && PixelAt(src, srcStride, SrcX(w, h, rot, xd, yd), SrcY(w, h, rot, xd, yd)))
  }

  /** The destination after the row copy has copied the rows before `y0`. */
  ghost predicate CopyProgress(d: seq<bv8>, dstStride: nat, src: seq<bv8>, srcStride: nat, h: nat, y0: nat)
  {
    forall x: nat, y: nat {:trigger PixelAt(d, dstStride, x, y)} :: x < 8 * dstStride && y < h ==>
      PixelAt(d, dstStride, x, y) == (y < y0 && x < 8 * srcStride && PixelAt(src, srcStride, x, y))
  }

  /** Rows cleared by the `memset` read as all-zero pixels. */
  lemma ClearedPixels(d: seq<bv8>, stride: nat, rows: nat)
    requires rows * stride <= |d|
    requires forall i :: 0 <= i < rows * stride ==> d[i] == 0
    ensures forall x: nat, y: nat :: x < 8 * stride && y < rows ==> !PixelAt(d, stride, x, y)
  {
    forall x: nat, y: nat | x < 8 * stride && y < rows
      ensures !PixelAt(d, stride, x, y)
    {
      RowIndexBound(y, x / 8 + 1, rows, stride);
      ZeroBit(x % 8);
    }
  }

  lemma StartProgress(d: seq<bv8>, dstStride: nat, src: seq<bv8>, srcStride: nat, w: nat, h: nat, rot: Rotation)
    requires DstH(w, h, rot) * dstStride <= |d|
    requires forall i :: 0 <= i < DstH(w, h, rot) * dstStride ==> d[i] == 0
    ensures Progress(d, dstStride, src, srcStride, w, h, rot, 0, 0)
    ensures CopyProgress(d, dstStride, src, srcStride, DstH(w, h, rot), 0)
  {
    ClearedPixels(d, dstStride, DstH(w, h, rot));
  }

  /** One iteration of the inner loop: pixel (x0, y0) moved to its rotated place. */
  lemma StepProgress(d: seq<bv8>, dstStride: nat, src: seq<bv8>, srcStride: nat, w: nat, h: nat, rot: Rotation, x0: nat, y0: nat)
    requires x0 < w && y0 < h
    requires DstW(w, h, rot) <= 8 * dstStride && DstH(w, h, rot) * dstStride <= |d|
    requires Progress(d, dstStride, src, srcStride, w, h, rot, x0, y0)
    ensures Index(dstStride, FwdX(w, h, rot, x0, y0), FwdY(w, h, rot, x0, y0)) < |d|
    ensures Progress(SetPixel(d, dstStride, FwdX(w, h, rot, x0, y0), FwdY(w, h, rot, x0, y0), PixelAt(src, srcStride, x0, y0)),
                     dstStride, src, srcStride, w, h, rot, x0 + 1, y0)
  {
    var xf, yf := FwdX(w, h, rot, x0, y0), FwdY(w, h, rot, x0, y0);
    RowIndexBound(yf, xf / 8 + 1, DstH(w, h, rot), dstStride);
    var bit := PixelAt(src, srcStride, x0, y0);
    var d' := SetPixel(d, dstStride, xf, yf, bit);
    FwdSrcInverse(w, h, rot, x0, y0);
    forall xd: nat, yd: nat | xd < 8 * dstStride && yd < DstH(w, h, rot)
      ensures PixelAt(d', dstStride, xd, yd) ==
        (xd < DstW(w, h, rot) && Before(SrcX(w, h, rot, xd, yd), SrcY(w, h, rot, xd, yd), x0 + 1, y0)
         && PixelAt(src, srcStride, SrcX(w, h, rot, xd, yd), SrcY(w, h, rot, xd, yd)))
    {
      SetPixelEffect(d, dstStride, xf, yf, bit, xd, yd);
      if xd < DstW(w, h, rot) {
        SrcFwdInverse(w, h, rot, xd, yd);
      }
    }
  }

  lemma NextRow(d: seq<bv8>, dstStride: nat, src: seq<bv8>, srcStride: nat, w: nat, h: nat, rot: Rotation, y0: nat)
    requires Progress(d, dstStride, src, srcStride, w, h, rot, w, y0)
    ensures Progress(d, dstStride, src, srcStride, w, h, rot, 0, y0 + 1)
  {
  }

  lemma FinishProgress(d: seq<bv8>, dstStride: nat, src: seq<bv8>, srcStride: nat, w: nat, h: nat, rot: Rotation)
    requires Progress(d, dstStride, src, srcStride, w, h, rot, 0, h)
    ensures Rotated(d, dstStride, src, srcStride, w, h, rot)
  {
  }

  /** One `memcpy` of the row fast path: row `y0` of the source (offset `b`)
    * lands in the first `srcStride` bytes of row `y0` of the destination (offset `a`). */
  lemma CopyRowProgress(d: seq<bv8>, d': seq<bv8>, dstStride: nat, src: seq<bv8>, srcStride: nat, h: nat, y0: nat, a: nat, b: nat)
    requires y0 < h && srcStride <= dstStride && h * dstStride <= |d| && h * srcStride <= |src|
    requires a == y0 * dstStride && b == y0 * srcStride
    requires CopyProgress(d, dstStride, src, srcStride, h, y0)
    requires |d'| == |d| && a + srcStride <= |d| && b + srcStride <= |src|
    requires d'[a..a + srcStride] == src[b..b + srcStride]
    requires d'[..a] == d[..a] && d'[a + srcStride..] == d[a + srcStride..]
    ensures CopyProgress(d', dstStride, src, srcStride, h, y0 + 1)
  {
    forall x: nat, y: nat | x < 8 * dstStride && y < h
      ensures PixelAt(d', dstStride, x, y) == (y < y0 + 1 && x < 8 * srcStride && PixelAt(src, srcStride, x, y))
    {
      var i := Index(dstStride, x, y);
      RowIndexBound(y, x / 8 + 1, h, dstStride);
      assert (x < 8 * srcStride) == (x / 8 < srcStride);
      if y == y0 && x / 8 < srcStride {
        var c := x / 8;
        assert i == a + c;
        assert d'[a..a + srcStride][c] == src[b..b + srcStride][c];
        assert d'[i] == src[Index(srcStride, x, y0)];
        assert PixelAt(d', dstStride, x, y) == PixelAt(src, srcStride, x, y);
      } else {
        if a <= i < a + srcStride {
          RowIndexSplit(y, x / 8, y0, i - a, dstStride);
        }
        if i < a {
          assert d'[..a][i] == d[..a][i];
        } else {
          assert d'[a + srcStride..][i - a - srcStride] == d[a + srcStride..][i - a - srcStride];
        }
        assert d'[i] == d[i];
        assert PixelAt(d', dstStride, x, y) == PixelAt(d, dstStride, x, y);
      }
    }
  }

  // ---- The rotator ----

  /** `rotate_i1(src, dst, src_w, src_h, src_stride, dst_stride, rotation)`:
    * clears `dst_stride * dst_h` bytes, then either copies the rows
    * (rotation 0) or moves every source pixel to its rotated place. */
  method Rotate(src: seq<bv8>, dst: array<bv8>, w: nat, h: nat, srcStride: nat, dstStride: nat, rot: Rotation)
    requires w <= 8 * srcStride && h * srcStride <= |src|
    requires DstW(w, h, rot) <= 8 * dstStride && DstH(w, h, rot) * dstStride <= dst.Length
    requires rot == Rot0 ==> srcStride <= dstStride
    modifies dst
    ensures rot == Rot0 ==> Copied(dst[..], dstStride, src, srcStride, h)
    ensures rot != Rot0 ==> Rotated(dst[..], dstStride, src, srcStride, w, h, rot)
    ensures dst[DstH(w, h, rot) * dstStride..] == old(dst[DstH(w, h, rot) * dstStride..])
  {
    var size := DstH(w, h, rot) * dstStride;
    Clear(dst, size);
    StartProgress(dst[..], dstStride, src, srcStride, w, h, rot);
    if rot == Rot0 {
      CopyRows(src, dst, h, srcStride, dstStride);
      return;
    }
    var y := 0;
    while y < h
      invariant y <= h
      invariant Progress(dst[..], dstStride, src, srcStride, w, h, rot, 0, y)
      invariant dst[size..] == old(dst[size..])
    {
      MoveRow(src, dst, w, h, srcStride, dstStride, rot, y);
      NextRow(dst[..], dstStride, src, srcStride, w, h, rot, y);
      y := y + 1;
    }
    FinishProgress(dst[..], dstStride, src, srcStride, w, h, rot);
  }

  /** `memset(dst, 0, size)`. */
  method Clear(dst: array<bv8>, size: nat)
    requires size <= dst.Length
    modifies dst
    ensures forall i :: 0 <= i < size ==> dst[i] == 0
    ensures dst[size..] == old(dst[size..])
  {
    forall i | 0 <= i < size {
      dst[i] := 0;
    }
  }

  /** One row's `memcpy`: `n` bytes from `src[b..]` to `dst[a..]`. */
  method CopyRow(src: seq<bv8>, dst: array<bv8>, a: nat, b: nat, n: nat)
    requires a + n <= dst.Length && b + n <= |src|
    modifies dst
    ensures dst[..][..a] == old(dst[..][..a]) && dst[..][a..a + n] == src[b..b + n]
    ensures dst[..][a + n..] == old(dst[..][a + n..])
  {
    forall c | 0 <= c < n {
      dst[a + c] := src[b + c];
    }
  }

  /** The rotation-0 fast path: one `memcpy` of `srcStride` bytes per row. */
  method CopyRows(src: seq<bv8>, dst: array<bv8>, h: nat, srcStride: nat, dstStride: nat)
    requires h * srcStride <= |src| && h * dstStride <= dst.Length && srcStride <= dstStride
    requires CopyProgress(dst[..], dstStride, src, srcStride, h, 0)
    modifies dst
    ensures Copied(dst[..], dstStride, src, srcStride, h)
    ensures dst[h * dstStride..] == old(dst[h * dstStride..])
  {
    var y := 0;
    while y < h
      invariant y <= h
      invariant CopyProgress(dst[..], dstStride, src, srcStride, h, y)
      invariant dst[h * dstStride..] == old(dst[h * dstStride..])
    {
      ghost var before := dst[..];
      var a, b := y * dstStride, y * srcStride;
      RowIndexBound(y, srcStride, h, dstStride);
      RowIndexBound(y, srcStride, h, srcStride);
      CopyRow(src, dst, a, b, srcStride);
      CopyRowProgress(before, dst[..], dstStride, src, srcStride, h, y, a, b);
      y := y + 1;
    }
  }

  /** The inner loop of the general case: every pixel of source row `y`. */
  method MoveRow(src: seq<bv8>, dst: array<bv8>, w: nat, h: nat, srcStride: nat, dstStride: nat, rot: Rotation, y: nat)
    requires y < h
    requires DstW(w, h, rot) <= 8 * dstStride && DstH(w, h, rot) * dstStride <= dst.Length
    requires Progress(dst[..], dstStride, src, srcStride, w, h, rot, 0, y)
    modifies dst
    ensures Progress(dst[..], dstStride, src, srcStride, w, h, rot, w, y)
    ensures dst[DstH(w, h, rot) * dstStride..] == old(dst[DstH(w, h, rot) * dstStride..])
  {
    var size := DstH(w, h, rot) * dstStride;
    var x := 0;
    while x < w
      invariant x <= w
      invariant Progress(dst[..], dstStride, src, srcStride, w, h, rot, x, y)
      invariant dst[size..] == old(dst[size..])
    {
      MovePixel(src, dst, w, h, srcStride, dstStride, rot, x, y);
      x := x + 1;
    }
  }

  /** One pass of the inner loop: source pixel (`x`, `y`) to its rotated
    * place. */
  method MovePixel(src: seq<bv8>, dst: array<bv8>, w: nat, h: nat, srcStride: nat, dstStride: nat, rot: Rotation, x: nat, y: nat)
    requires x < w && y < h
    requires DstW(w, h, rot) <= 8 * dstStride && DstH(w, h, rot) * dstStride <= dst.Length
    requires Progress(dst[..], dstStride, src, srcStride, w, h, rot, x, y)
    modifies dst
    ensures Progress(dst[..], dstStride, src, srcStride, w, h, rot, x + 1, y)
    ensures dst[DstH(w, h, rot) * dstStride..] == old(dst[DstH(w, h, rot) * dstStride..])
  {
    var size := DstH(w, h, rot) * dstStride;
    var bit := PixelAt(src, srcStride, x, y);
    var xd, yd := FwdX(w, h, rot, x, y), FwdY(w, h, rot, x, y);
    StepProgress(dst[..], dstStride, src, srcStride, w, h, rot, x, y);
    RowIndexBound(yd, xd / 8 + 1, DstH(w, h, rot), dstStride);
    SetPixelAt(dst, dstStride, xd, yd, bit, size);
  }

  /** `set_bit_msb_first(dst + yd * dst_stride, xd, bit)`. */
  method SetPixelAt(dst: array<bv8>, stride: nat, x: nat, y: nat, v: bool, size: nat)
    requires Index(stride, x, y) < size <= dst.Length
    modifies dst
    ensures dst[..] == SetPixel(old(dst[..]), stride, x, y, v)
    ensures dst[size..] == old(dst[size..])
  {
    var i := Index(stride, x, y);
    dst[i] := SetBit(dst[i], x % 8, v);
  }

  // ---- What the rotations compose to ----

  /** A quarter turn to 90 degrees followed by one to 270 degrees gives the
    * source pixels back. */
  lemma QuarterTurnUndone(src: seq<bv8>, srcStride: nat, d1: seq<bv8>, s1: nat, d2: seq<bv8>, s2: nat, w: nat, h: nat)
    requires h <= 8 * s1 && w <= 8 * s2
    requires Rotated(d1, s1, src, srcStride, w, h, Rot90)
    requires Rotated(d2, s2, d1, s1, h, w, Rot270)
    ensures forall x: nat, y: nat :: x < w && y < h ==> PixelAt(d2, s2, x, y) == PixelAt(src, srcStride, x, y)
  {
    forall x: nat, y: nat | x < w && y < h
      ensures PixelAt(d2, s2, x, y) == PixelAt(src, srcStride, x, y)
    {
      assert PixelAt(d2, s2, x, y) == PixelAt(d1, s1, h - 1 - y, x);
    }
  }

  /** Two half turns give the source pixels back. */
  lemma HalfTurnTwice(src: seq<bv8>, srcStride: nat, d1: seq<bv8>, s1: nat, d2: seq<bv8>, s2: nat, w: nat, h: nat)
    requires w <= 8 * s1 && w <= 8 * s2
    requires Rotated(d1, s1, src, srcStride, w, h, Rot180)
    requires Rotated(d2, s2, d1, s1, w, h, Rot180)
    ensures forall x: nat, y: nat :: x < w && y < h ==> PixelAt(d2, s2, x, y) == PixelAt(src, srcStride, x, y)
  {
    forall x: nat, y: nat | x < w && y < h
      ensures PixelAt(d2, s2, x, y) == PixelAt(src, srcStride, x, y)
    {
      assert PixelAt(d2, s2, x, y) == PixelAt(d1, s1, w - 1 - x, h - 1 - y);
    }
  }

  /** Two quarter turns to 90 degrees make a half turn. */
  lemma TwoQuarterTurns(src: seq<bv8>, srcStride: nat, d1: seq<bv8>, s1: nat, d2: seq<bv8>, s2: nat, w: nat, h: nat)
    requires h <= 8 * s1 && w <= 8 * s2
    requires Rotated(d1, s1, src, srcStride, w, h, Rot90)
    requires Rotated(d2, s2, d1, s1, h, w, Rot90)
    ensures forall x: nat, y: nat :: x < w && y < h ==>
      PixelAt(d2, s2, x, y) == PixelAt(src, srcStride, SrcX(w, h, Rot180, x, y), SrcY(w, h, Rot180, x, y))
  {
    forall x: nat, y: nat | x < w && y < h
      ensures PixelAt(d2, s2, x, y) == PixelAt(src, srcStride, SrcX(w, h, Rot180, x, y), SrcY(w, h, Rot180, x, y))
    {
      assert PixelAt(d2, s2, x, y) == PixelAt(d1, s1, y, w - 1 - x);
    }
  }

  /** The row-copy fast path agrees with the general rotation by 0 degrees
    * whenever the padding bits of the source rows are clear. */
  lemma CopyIsRotationByZero(d: seq<bv8>, dstStride: nat, src: seq<bv8>, srcStride: nat, w: nat, h: nat)
    requires w <= 8 * srcStride
    requires forall x: nat, y: nat :: w <= x < 8 * srcStride && y < h ==> !PixelAt(src, srcStride, x, y)
    requires Copied(d, dstStride, src, srcStride, h)
    ensures Rotated(d, dstStride, src, srcStride, w, h, Rot0)
  {
    forall xd: nat, yd: nat | xd < 8 * dstStride && yd < h
      ensures PixelAt(d, dstStride, xd, yd) == (xd < w && PixelAt(src, srcStride, xd, yd))
    {
      assert PixelAt(d, dstStride, xd, yd) == (xd < 8 * srcStride && PixelAt(src, srcStride, xd, yd));
    }
  }
}
