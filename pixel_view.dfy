/** The operations `PixelStrip` and `PixelSubStrip` share (`_PixelStripBase`). Each
    strip reaches its pixels through a numpy view: a window onto the native LED array
    of 32-bit slots, plus a byte view that shows every slot as four columns. */
module PixelView {
  import opened Errors
  import opened Colors
  import opened Indexing

  /** The byte order mark of the pixel array's dtype: '<', '>' or '=' (the host's). */
  datatype ByteOrder = LittleEndian | BigEndian | NativeOrder

  /** How the byte view shows a slot: whether the slots are stored least significant
      byte first, and whether the byte view's columns were reversed. */
  datatype Layout = Layout(storedLittle: bool, columnsReversed: bool)

  /** Where the most significant byte of a slot lies in memory for a dtype order. */
  function StoresLittle(order: ByteOrder, hostLittle: bool): bool
  {
    match order
    case LittleEndian => true
    case BigEndian => false
    case NativeOrder => hostLittle
  }

  /** The test `begin` makes before reversing the byte view's columns. */
  predicate ReversesColumns(order: ByteOrder, hostLittle: bool)
  {
    order == LittleEndian || (order == NativeOrder && hostLittle)
  }

  /** The byte view `begin` sets up for a dtype order on a host. */
  function BeginLayout(order: ByteOrder, hostLittle: bool): Layout
  {
    Layout(StoresLittle(order, hostLittle), ReversesColumns(order, hostLittle))
  }

  /** The low k bytes of x, least significant first. */
  function LittleEndianBytes(x: int, k: nat): (s: seq<int>)
    ensures |s| == k
    decreases k
  {
    if k == 0 then [] else [x % 0x100] + LittleEndianBytes(x / 0x100, k - 1)
  }

  function Reverse(s: seq<int>): seq<int>
  {
    seq(|s|, i requires 0 <= i < |s| => s[|s| - 1 - i])
  }

  /** The four bytes of a slot in memory order (`view(dtype=np.uint8)`). */
  function MemoryBytes(x: u32, little: bool): seq<int>
  {
    var le := LittleEndianBytes(x, 4);
    if little then le else Reverse(le)
  }

  /** One row of the byte view. */
  function ColorRow(x: u32, layout: Layout): seq<int>
  {
    var m := MemoryBytes(x, layout.storedLittle);
    if layout.columnsReversed then Reverse(m) else m
  }

  /** Stored least significant byte first, a slot reads blue, green, red, white. */
  lemma {:induction false} SlotBytes(x: u32)
    ensures LittleEndianBytes(x, 4) == [Blue(x), Green(x), Red(x), White(x)]
  {
    var x1 := x / 0x100;
    var x2 := x1 / 0x100;
    var x3 := x2 / 0x100;
    ShiftSplit(x);
    assert LittleEndianBytes(x3, 1) == [White(x)] by {
      assert LittleEndianBytes(x3 / 0x100, 0) == [];
    }
    assert LittleEndianBytes(x2, 2) == [Red(x), White(x)];
    assert LittleEndianBytes(x1, 3) == [Green(x), Red(x), White(x)];
  }

  /** Whatever the dtype order and the host, `begin`'s byte view shows every slot as
      [w, r, g, b]: the columns are reversed exactly when the slot is stored least
      significant byte first. */
  lemma {:induction false} RowIsWrgb(x: u32, order: ByteOrder, hostLittle: bool)
    ensures ColorRow(x, BeginLayout(order, hostLittle)) == [White(x), Red(x), Green(x), Blue(x)]
  {
    SlotBytes(x);
    var le := [Blue(x), Green(x), Red(x), White(x)];
    assert Reverse(le) == [White(x), Red(x), Green(x), Blue(x)];
    assert StoresLittle(order, hostLittle) == ReversesColumns(order, hostLittle);
  }

  /** A window of `len` slots starting at `first` of the array `buf`, seen through a
      byte view with `layout`. Views made by slicing share `buf` with their parent. */
  datatype View = View(buf: array<u32>, first: nat, len: nat, layout: Layout)
  {
    predicate Valid()
    {
      first + len <= buf.Length
    }
  }

  /** The pixel values the view shows. */
  function Pixels(v: View): (s: seq<u32>)
    requires v.Valid()
    reads v.buf
    ensures |s| == v.len
  {
    v.buf[v.first .. v.first + v.len]
  }

  /** `__len__` (and `numPixels`): the first dimension of the view. */
  function Len(v: View): (n: nat)
    requires v.Valid()
    reads v.buf
    ensures n == |Pixels(v)|
  {
    v.len
  }

  /** `__getitem__` and `getPixelColor` with an integer index. */
  function GetItem(v: View, pos: int): (r: Result<u32>)
    requires v.Valid()
    reads v.buf
    ensures r.Ok? <==> 0 <= pos + v.len && pos < v.len
    ensures r.Err? ==> r.error == IndexError
    ensures r.Ok? && pos >= 0 ==> r.value == Pixels(v)[pos] == v.buf[v.first + pos]
    ensures r.Ok? && pos < 0 ==> r.value == Pixels(v)[v.len + pos]
  {
    match ResolveIndex(pos, v.len)
    case Some(i) => Ok(v.buf[v.first + i])
    case None => Err(IndexError)
  }

  /** `getPixelColorRGBW` (and `getPixelColorRGB`) with an integer index: the slot
      wrapped by the one-argument `RGBW`, which is the slot value itself. */
  function GetPixelColorRgbw(v: View, n: int): (r: Result<int>)
    requires v.Valid()
    reads v.buf
    ensures r.Ok? <==> GetItem(v, n).Ok?
    ensures r.Ok? ==> r.value == GetItem(v, n).value as int
    ensures r.Err? ==> r.error == IndexError
  {
    match GetItem(v, n)
    case Ok(x) => Rgbw(x)
    case Err(e) => Err(e)
  }

  /** `getSubPixels`: the byte view, one row of four bytes per pixel. */
  function SubPixels(v: View): (rows: seq<seq<int>>)
    requires v.Valid()
    reads v.buf
    ensures |rows| == v.len
  {
    var p := Pixels(v);
    seq(|p|, i requires 0 <= i < |p| => ColorRow(p[i], v.layout))
  }

  /** On a view laid out by `begin`, byte row i is [w, r, g, b] of pixel i, and the
      row gives the pixel back. */
  lemma {:induction false} SubPixelsAreWrgb(v: View, order: ByteOrder, hostLittle: bool, i: nat)
    requires v.Valid() && v.layout == BeginLayout(order, hostLittle) && i < v.len
    ensures SubPixels(v)[i] == [White(Pixels(v)[i]), Red(Pixels(v)[i]), Green(Pixels(v)[i]), Blue(Pixels(v)[i])]
    ensures Pack(SubPixels(v)[i][1], SubPixels(v)[i][2], SubPixels(v)[i][3], SubPixels(v)[i][0]) == Pixels(v)[i]
  {
    var x := Pixels(v)[i];
    RowIsWrgb(x, order, hostLittle);
    UnpackRoundTrip(x);
  }

  /** A slice `view[start:stop]`: a view onto the same array, never a copy. */
  function GetSlice(v: View, start: Option<int>, stop: Option<int>): (s: View)
    requires v.Valid()
    reads v.buf
    ensures s.Valid() && s.buf == v.buf && s.layout == v.layout
    ensures var b := SliceBounds(start, stop, v.len);
      s.first == v.first + b.start && s.len == b.len
      && Pixels(s) == Pixels(v)[b.start .. b.start + b.len]
  {
    var b := SliceBounds(start, stop, v.len);
    var s := View(v.buf, v.first + b.start, b.len, v.layout);
    assert forall i :: 0 <= i < b.len ==> Pixels(s)[i] == Pixels(v)[b.start + i];
    s
  }

  /** `__setitem__` with an integer index: the one slot it names changes, in the
      array every view onto it shares, and nothing else does. */
  method SetItem(v: View, pos: int, value: u32) returns (r: Outcome)
    requires v.Valid()
    modifies v.buf
    ensures r.Pass? <==> 0 <= pos + v.len && pos < v.len
    ensures r.Fail? ==> r.error == IndexError && v.buf[..] == old(v.buf[..])
    ensures r.Pass? ==> v.buf[..] == old(v.buf[..])[v.first + ResolveIndex(pos, v.len).value := value]
    ensures r.Pass? ==> GetItem(v, pos) == Ok(value)
  {
    match ResolveIndex(pos, v.len)
    case None =>
      r := Fail(IndexError);
    case Some(i) =>
      v.buf[v.first + i] := value;
      r := Pass;
  }

  /** `setPixelColor` with an integer index: the same assignment as `__setitem__`. */
  method SetPixelColor(v: View, n: int, color: u32) returns (r: Outcome)
    requires v.Valid()
    modifies v.buf
    ensures r.Pass? <==> 0 <= n + v.len && n < v.len
    ensures r.Fail? ==> r.error == IndexError && v.buf[..] == old(v.buf[..])
    ensures r.Pass? ==> v.buf[..] == old(v.buf[..])[v.first + ResolveIndex(n, v.len).value := color]
    ensures r.Pass? ==> GetItem(v, n) == Ok(color)
  {
    r := SetItem(v, n, color);
  }

  /** `setPixelColorRGB`: stores `Color(red, green, blue, white)`, whose components
      then read back from the pixel. */
  method SetPixelColorRgb(v: View, n: int, red: int, green: int, blue: int, white: int := 0)
    returns (r: Outcome)
    requires v.Valid()
    requires IsByte(red) && IsByte(green) && IsByte(blue) && IsByte(white)
    modifies v.buf
    ensures r.Pass? <==> 0 <= n + v.len && n < v.len
    ensures r.Fail? ==> r.error == IndexError && v.buf[..] == old(v.buf[..])
    ensures r.Pass? ==> v.buf[..] == old(v.buf[..])[v.first + ResolveIndex(n, v.len).value := Color(red, green, blue, white)]
    ensures r.Pass? ==>
      (GetItem(v, n).Ok?
       && Red(GetItem(v, n).value) == red && Green(GetItem(v, n).value) == green
       && Blue(GetItem(v, n).value) == blue && White(GetItem(v, n).value) == white)
  {
    r := SetPixelColor(v, n, Color(red, green, blue, white));
  }

  /** `__setitem__` (and `setPixelColor`) with a step-1 slice: one value is repeated
      over the whole slice, as many values as the slice has are stored in order, and
      any other count is numpy's ValueError, with nothing stored. */
  method SetSlice(v: View, start: Option<int>, stop: Option<int>, values: seq<u32>)
    returns (r: Outcome)
    requires v.Valid()
    modifies v.buf
    ensures var b := SliceBounds(start, stop, v.len);
      r.Pass? <==> |values| == 1 || |values| == b.len
    ensures r.Fail? ==> r.error == ValueError && v.buf[..] == old(v.buf[..])
    ensures var b := SliceBounds(start, stop, v.len);
      r.Pass? ==> forall j :: 0 <= j < v.buf.Length ==>
        v.buf[j] == if v.first + b.start <= j < v.first + b.start + b.len
                    then (if |values| == 1 then values[0] else values[j - v.first - b.start])
                    else old(v.buf[j])
  {
    var b := SliceBounds(start, stop, v.len);
    if |values| != 1 && |values| != b.len {
      r := Fail(ValueError);
      return;
    }
    var lo := v.first + b.start;
    forall j | lo <= j < lo + b.len {
      v.buf[j] := if |values| == 1 then values[0] else values[j - lo];
    }
    r := Pass;
  }

  /** `off`: every pixel of the view becomes 0, the rest of the shared array is left
      alone, and then the owning strip renders (its native status decides whether
      that raises). */
  method Off(v: View, renderStatus: int) returns (r: Outcome)
    requires v.Valid()
    modifies v.buf
    ensures forall i :: 0 <= i < v.len ==> Pixels(v)[i] == 0
    ensures forall j :: 0 <= j < v.buf.Length && !(v.first <= j < v.first + v.len) ==>
      v.buf[j] == old(v.buf[j])
    ensures r == NativeStatus(renderStatus)
  {
    forall j | v.first <= j < v.first + v.len {
      v.buf[j] := 0;
    }
    r := NativeStatus(renderStatus);
  }
}
