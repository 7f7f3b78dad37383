/** The older LVGL flush adapter (with change detection): every flushed area
  * is split into bands of at most 32 rows, each band carrying a 32-bit
  * FNV-1a hash of its bytes, and the frame is drawn in GC mode. The rotation
  * routine is the one in I1Bitmap; the adapter's calls out are recorded with
  * the newer adapter's `Call` vocabulary. */
module LvglSectors {
  import opened Common
  import opened I1Bitmap
  import opened LvglAdapter
  import EpdDriver

  // ---- FNV-1a ----

  const FnvBasis: bv32 := 2166136261
  const FnvPrime: bv32 := 16777619

  /** One round: `h ^= p[i]; h *= prime;` on `uint32_t`, so the product wraps. */
  function FnvStep(h: bv32, b: bv8): bv32
  {
    (h ^ (b as bv32)) * FnvPrime
  }

  /** The hash state after feeding `s` to state `h`. */
  function HashFrom(h: bv32, s: seq<bv8>): bv32
    decreases |s|
  {
    if s == [] then h else HashFrom(FnvStep(h, s[0]), s[1..])
  }

  /** `epd3in7_lvgl_adapter_hash32` as a function of the bytes it reads. */
  function Fnv1a(s: seq<bv8>): bv32
  {
    HashFrom(FnvBasis, s)
  }

  /** Feeding `a + b` is feeding `a`, then `b`. */
  lemma {:induction false} HashAppend(h: bv32, a: seq<bv8>, b: seq<bv8>)
    ensures HashFrom(h, a + b) == HashFrom(HashFrom(h, a), b)
    decreases |a|
  {
    if a == [] {
      assert a + b == b;
    } else {
      assert (a + b)[0] == a[0] && (a + b)[1..] == a[1..] + b;
      HashAppend(FnvStep(h, a[0]), a[1..], b);
    }
  }

  lemma FnvKnownAnswers()
    ensures Fnv1a([]) == 0x811C_9DC5
    ensures Fnv1a([0x61]) == 0xE40C_292C
  {
    assert HashFrom(FnvStep(FnvBasis, 0x61), []) == FnvStep(FnvBasis, 0x61);
  }

  /** The hash loop. */
  method Hash32(data: seq<bv8>) returns (h: bv32)
    ensures h == Fnv1a(data)
  {
    h := FnvBasis;
    var i := 0;
    while i < |data|
      invariant i <= |data|
      invariant h == HashFrom(FnvBasis, data[..i])
    {
      HashAppend(FnvBasis, data[..i], [data[i]]);
      assert data[..i + 1] == data[..i] + [data[i]];
      h := FnvStep(h, data[i]);
      i := i + 1;
    }
    assert data[..i] == data;
  }

  // ---- Row bands ----

  const RowsPerSection: u16 := 32

  /** `lv_area_t` with inclusive corners. */
  datatype Area = Area(x1: int, y1: int, x2: int, y2: int)

  function Width(a: Area): int { a.x2 - a.x1 + 1 }
  function Height(a: Area): int { a.y2 - a.y1 + 1 }

  /** `epd3in7_lvgl_adapter_sector`: where its bytes start (which buffer,
    * and the offset in it), the screen rows it covers, and their hash. */
  datatype Sector = Sector(buf: Buffer, offset: nat, area: Area, hash: bv32)

  /** `(uint16_t)((h + rows_per_sector - 1) / rows_per_sector)`. */
  function SectorCount(h: int, rps: u16): u16
    requires h > 0 && rps > 0
  {
    U16((h + rps - 1) / rps)
  }

  lemma CeilDivBounds(h: int, r: int)
    requires h > 0 && r > 0
    ensures (h + r - 1) / r >= 1
    ensures ((h + r - 1) / r - 1) * r < h <= (h + r - 1) / r * r
  {
    var q, m := (h + r - 1) / r, (h + r - 1) % r;
    assert h + r - 1 == q * r + m;
    assert (q - 1) * r == q * r - r;
  }

  lemma MulMono(a: int, b: int, s: int)
    requires a <= b && s >= 0
    ensures a * s <= b * s
  {
    assert b * s - a * s == (b - a) * s;
  }

  /** Every band the function builds starts inside the area. */
  lemma BandStartsInside(h: int, rps: u16, i: nat)
    requires h > 0 && rps > 0 && i < SectorCount(h, rps)
    ensures i * rps < h
  {
    CeilDivBounds(h, rps);
    var q := (h + rps - 1) / rps;
    assert i <= q - 1;
    MulMono(i, q - 1, rps);
  }

  /** The rows band `i` covers: `rows_per_sector` rows from `y1 + i *
    * rows_per_sector`, cut short at the bottom of the area. */
  function BandArea(a: Area, rps: u16, i: nat): (r: Area)
    requires rps > 0 && i * rps < Height(a)
    ensures r.x1 == a.x1 && r.x2 == a.x2
    ensures r.y1 == a.y1 + i * rps && a.y1 <= r.y1 <= r.y2 <= a.y2
    ensures 1 <= Height(r) <= rps
    ensures Height(r) < rps ==> r.y2 == a.y2
  {
    var yOff := i * rps;
    var rows := if yOff + rps > Height(a) then Height(a) - yOff else rps;
    Area(a.x1, a.y1 + yOff, a.x2, a.y1 + yOff + rows - 1)
  }

  /** Sector `i` of the bands over `a`, whose rows are `stride` bytes each
    * in `data`: its bytes start `stride` bytes per row above it into
    * `data`, and its hash covers exactly its own rows. */
  function SectorAt(a: Area, data: seq<bv8>, buf: Buffer, stride: nat, rps: u16, i: nat): (s: Sector)
    requires rps > 0 && i * rps < Height(a) && Height(a) * stride <= |data|
    ensures s.area == BandArea(a, rps, i) && s.buf == buf
    ensures s.offset == stride * (s.area.y1 - a.y1)
  {
    var r := BandArea(a, rps, i);
    var yOff := i * rps;
    assert r.y1 - a.y1 == yOff;
    BandFits(Height(a), stride, yOff, Height(r));
    Sector(buf, stride * yOff, r, Fnv1a(data[stride * yOff..stride * yOff + Height(r) * stride]))
  }

  lemma BandFits(h: int, stride: nat, yOff: nat, rows: nat)
    requires yOff + rows <= h
    ensures stride * yOff + rows * stride <= h * stride
  {
    MulMono(yOff + rows, h, stride);
    assert (yOff + rows) * stride == stride * yOff + rows * stride;
  }

  /** When the count does not wrap, the bands tile the area without gap or
    * overlap: the first starts at its top, each starts on the row after the
    * previous one ends, and the last ends at its bottom. */
  lemma BandsTile(a: Area, rps: u16)
    requires rps > 0 && Height(a) > 0
    requires (Height(a) + rps - 1) / rps < 0x1_0000
    ensures var n := SectorCount(Height(a), rps);
      n >= 1
      && (BandStartsInside(Height(a), rps, n - 1); BandArea(a, rps, n - 1).y2 == a.y2)
      && BandArea(a, rps, 0).y1 == a.y1
      && forall i: nat | i + 1 < n :: (BandStartsInside(Height(a), rps, i + 1); BandStartsInside(Height(a), rps, i);
           BandArea(a, rps, i).y2 + 1 == BandArea(a, rps, i + 1).y1)
  {
    var h := Height(a);
    var n := SectorCount(h, rps);
    CeilDivBounds(h, rps);
    assert n == (h + rps - 1) / rps;
    BandStartsInside(h, rps, n - 1);
    forall i: nat | i + 1 < n
      ensures (BandStartsInside(h, rps, i + 1); BandStartsInside(h, rps, i);
        BandArea(a, rps, i).y2 + 1 == BandArea(a, rps, i + 1).y1)
    {
      BandStartsInside(h, rps, i + 1);
      BandStartsInside(h, rps, i);
      assert (i + 1) * rps == i * rps + rps;
    }
  }

  /** `epd3in7_lvgl_adapter_sector_list`: `items` is null or holds `count`
    * sectors. */
  class SectorList {
    var items: array?<Sector>
    var count: u16

    predicate Valid()
      reads this, items
    {
      (items == null <==> count == 0) && (items != null ==> items.Length == count)
    }

    constructor Empty()
      ensures Valid() && items == null && count == 0
    {
      items := null;
      count := 0;
    }
  }

  /** `epd3in7_lvgl_adapter_sector_list_free`: does nothing on a null list. */
  method SectorListFree(list: SectorList?)
    modifies list
    ensures list != null ==> list.Valid() && list.items == null && list.count == 0
  {
    if list == null {
      return;
    }
    if list.items != null {
      list.items := null;
    }
    list.count := 0;
  }

  /** The sectors `make_sectors_rows` builds for `a` over `data`. */
  ghost predicate Holds(list: SectorList, a: Area, data: seq<bv8>, buf: Buffer, stride: nat, rps: u16)
    reads list, list.items
    requires rps > 0 && Height(a) > 0 && Height(a) * stride <= |data|
  {
    list.items != null && list.count == SectorCount(Height(a), rps) && list.items.Length == list.count
    && forall i :: 0 <= i < list.count ==>
         (BandStartsInside(Height(a), rps, i); list.items[i] == SectorAt(a, data, buf, stride, rps, i))
  }

  /** One pass of the loop in `make_sectors_rows`: sector `i`, hashed by
    * the hash loop. */
  method MakeSector(a: Area, data: seq<bv8>, buf: Buffer, stride: nat, rps: u16, i: nat) returns (s: Sector)
    requires rps > 0 && i * rps < Height(a) && Height(a) * stride <= |data|
    ensures s == SectorAt(a, data, buf, stride, rps, i)
  {
    var h := Height(a);
    var yOff := i * rps;
    var rows: int := rps;
    if yOff + rows > h {
      rows := h - yOff;
    }
    ghost var r := BandArea(a, rps, i);
    assert Area(a.x1, a.y1 + yOff, a.x2, a.y1 + yOff + rows - 1) == r && rows == Height(r);
    BandFits(h, stride, yOff, rows);
    var hash := Hash32(data[stride * yOff..stride * yOff + rows * stride]);
    s := Sector(buf, stride * yOff, Area(a.x1, a.y1 + yOff, a.x2, a.y1 + yOff + rows - 1), hash);
  }

  /** `epd3in7_lvgl_adapter_make_sectors_rows`. `area`, `buffer` and `out`
    * null stand for the C null pointers; `allocOk` is whether `lv_malloc`
    * succeeds. */
  method MakeSectorsRows(area: Option<Area>, buffer: Option<seq<bv8>>, buf: Buffer, stride: nat, rps: u16,
                         out: SectorList?, allocOk: bool) returns (ok: bool)
    requires area.Some? && buffer.Some? && Height(area.value) > 0 ==> Height(area.value) * stride <= |buffer.value|
    modifies out
    ensures ok <==> area.Some? && buffer.Some? && out != null && rps > 0
                    && Height(area.value) > 0 && Width(area.value) > 0
                    && SectorCount(Height(area.value), rps) > 0 && allocOk
    ensures ok ==> out.Valid() && fresh(out.items) && Holds(out, area.value, buffer.value, buf, stride, rps)
    ensures !ok && out != null ==> unchanged(out)
  {
    if area.None? || buffer.None? || out == null || rps == 0 {
      return false;
    }
    var a := area.value;
    var h := Height(a);
    var w := Width(a);
    if h <= 0 || w <= 0 {
      return false;
    }
    var count := SectorCount(h, rps);
    if count == 0 || !allocOk {
      return false;
    }
    var items := new Sector[count];
    for i := 0 to count
      invariant forall j :: 0 <= j < i ==> (BandStartsInside(h, rps, j); items[j] == SectorAt(a, buffer.value, buf, stride, rps, j))
    {
      BandStartsInside(h, rps, i);
      items[i] := MakeSector(a, buffer.value, buf, stride, rps, i);
    }
    out.items := items;
    out.count := count;
    return true;
  }

  /** `epd3in7_lvgl_adapter_handle` of the older adapter. */
  class Handle {
    const work: array?<bv8>
    const current: SectorList
    ghost var calls: seq<Call>

    /** `epd3in7_lvgl_adapter_create`: no sectors yet. */
    constructor Create(work: array?<bv8>)
      ensures this.work == work && fresh(current)
      ensures current.Valid() && current.items == null && current.count == 0
      ensures calls == []
    {
      this.work := work;
      current := new SectorList.Empty();
      calls := [];
    }

    /** `epd3in7_lvgl_adapter_free`. */
    method Free()
      modifies current
      ensures current.Valid() && current.items == null && current.count == 0
    {
      SectorListFree(current);
    }

    /** `epd3in7_lvgl_adapter_flush`. `rotatedArea` is what
      * `lv_display_rotate_area` makes of `area`; `allocOk` is whether the
      * sector allocation succeeds. The area is non-empty because LVGL never
      * calls a flush callback for an empty area; the width and height are
      * computed as `x2 - x1 + 1` and `y2 - y1 + 1` from inclusive corners. */
    method Flush(disp: nat, area: Option<Area>, pxMap: Option<seq<bv8>>, rot: Rotation, rotatedArea: Area, allocOk: bool)
      requires area.Some? ==> Width(area.value) > 0 && Height(area.value) > 0
      requires area.Some? && pxMap.Some? ==>
        8 + Height(area.value) * Stride(Width(area.value)) <= |pxMap.value|
      requires area.Some? && pxMap.Some? && rot != Rot0 ==>
        work != null && WorkBytes(Width(area.value), Height(area.value), rot) <= work.Length
        && Width(rotatedArea) == DstW(Width(area.value), Height(area.value), rot)
        && Height(rotatedArea) == DstH(Width(area.value), Height(area.value), rot)
      requires current.Valid()
      modifies this`calls, current, work
      ensures current.Valid()
      ensures area.None? || pxMap.None? ==> calls == old(calls) + [FlushReady(disp)] && unchanged(current)
      ensures area.Some? && pxMap.Some? ==>
        var w, h := Width(area.value), Height(area.value);
        var buf := if rot != Rot0 then WorkBuffer else PixelData;
        var a := if rot != Rot0 then rotatedArea else area.value;
        var data := if rot != Rot0 then work[..] else pxMap.value[8..];
        calls == old(calls) + [Display(buf, EpdDriver.ModeGc), FlushReady(disp)]
        && (rot != Rot0 ==> Rotated(work[..], Stride(DstW(w, h, rot)), pxMap.value[8..], Stride(w), w, h, rot))
        && Height(a) * Stride(Width(a)) <= |data|
        && var made := allocOk && SectorCount(Height(a), RowsPerSection) > 0;
        (made ==> fresh(current.items) && Holds(current, a, data, buf, Stride(Width(a)), RowsPerSection))
        && (!made ==> current.items == null && current.count == 0)
    {
      if area.None? || pxMap.None? {
        calls := calls + [FlushReady(disp)];
        return;
      }
      var w, h := Width(area.value), Height(area.value);
      var src := pxMap.value[8..];
      var a := area.value;
      var buf := PixelData;
      if rot != Rot0 {
        Rotate(src, work, w, h, Stride(w), Stride(DstW(w, h, rot)), rot);
        a := rotatedArea;
        src := work[..];
        buf := WorkBuffer;
      }
      if current.items != null {
        SectorListFree(current);
      }
      var made := MakeSectorsRows(Some(a), Some(src), buf, Stride(Width(a)), RowsPerSection, current, allocOk);
      calls := calls + [Display(buf, EpdDriver.ModeGc), FlushReady(disp)];
    }
  }
}
