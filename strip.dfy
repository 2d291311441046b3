/** `PixelStrip` (a strip driven by one channel of the native driver) and
    `PixelSubStrip` (a window onto a strip's pixels). The native driver is not part of
    this model: its controller and channel records are plain values, its status codes
    are parameters, and the LED array it allocates is a fresh array. */
module Strip {
  import opened Errors
  import opened Colors
  import opened Config
  import opened Indexing
  import opened PixelView

  /** The controller record (`ws2811_t`) as the constructor fills it. */
  datatype Controller = Controller(freqHz: int, dmaNum: int)

  /** The channel record as the constructor fills it, and `setGamma` and
      `setBrightness` update it. */
  datatype Channel = Channel(
    index: int, gamma: PyValue, count: nat, gpioNum: int, invert: int,
    brightness: int, stripType: PyValue)

  /** Python truthiness of an optional int: present and nonzero. */
  predicate Truthy(x: Option<int>)
  {
    x.Some? && x.value != 0
  }

  /** The end position `PixelSubStrip.__init__` slices to: `last`, else
      `first + num`, else the whole strip. */
  function SubStripStop(first: int, last: Option<int>, num: Option<int>, n: nat): int
  {
    if last.Some? then last.value else if num.Some? then first + num.value else n
  }

  /** What `createPixelSubStrip(first, last, num)` on a strip of n pixels does: the
      InvalidStrip it raises, or the run of the parent's pixels the new sub-strip
      covers. A falsy `last` or `num` (missing or 0) is skipped; with neither, the
      sub-strip runs to the end. Neither `first >= 0` nor `last >= first` is checked:
      such sub-strips are clipped as slicing clips them. */
  function SubStripBounds(first: int, last: Option<int>, num: Option<int>, n: nat): (r: Result<Bounds>)
    ensures r.Err? <==>
      (Truthy(last) && last.value > n) || (!Truthy(last) && Truthy(num) && first + num.value > n)
    ensures r.Err? ==>
      r.error == InvalidStrip(if Truthy(last) then last.value else first + num.value, n)
    ensures r.Ok? ==> r.value.start + r.value.len <= n
    ensures r.Ok? && Truthy(last) && 0 <= first <= last.value ==>
      r.value == Bounds(first, last.value - first)
    ensures r.Ok? && !Truthy(last) && Truthy(num) && 0 <= first && 0 < num.value ==>
      r.value == Bounds(first, num.value)
    ensures !Truthy(last) && !Truthy(num) && 0 <= first <= n ==>
      r == Ok(Bounds(first, n - first))
    ensures Truthy(last) && 0 <= last.value < first && last.value <= n ==>
      r.Ok? && r.value.len == 0
    ensures r.Ok? ==>
      var stop := if Truthy(last) then last.value else if Truthy(num) then first + num.value else n;
      forall i :: 0 <= i < n ==> (Covers(r.value, i) <==> Selects(Some(first), Some(stop), n, i))
  {
    if Truthy(last) then
      if last.value > n then Err(InvalidStrip(last.value, n))
      else Ok(SliceBounds(Some(first), Some(SubStripStop(first, last, None, n)), n))
    else if Truthy(num) then
      if first + num.value > n then Err(InvalidStrip(first + num.value, n))
      else Ok(SliceBounds(Some(first), Some(SubStripStop(first, None, num, n)), n))
    else
      Ok(SliceBounds(Some(first), Some(SubStripStop(first, None, None, n)), n))
  }

  class PixelStrip {
    /** The native controller, None once cleaned up. */
    var leds: Option<Controller>
    /** The native channel in use, None once cleaned up. */
    var channel: Option<Channel>
    /** The configured pixel count. */
    var size: nat
    /** `_view` and `_colors`: empty until `begin`, then the native LED array. */
    var view: View

    ghost predicate Valid()
      reads this
    {
      view.Valid() && view.first == 0 && view.len == view.buf.Length
      && (view.len == 0 || view.len == size)
      && leds.Some? == channel.Some?
      && (channel.Some? ==> channel.value.count == size)
    }

    /** `PixelStrip.__init__`: resolves gamma and strip type, fills the native records,
        and leaves the views empty, so the strip has length 0 until `begin`. */
    constructor(
      num: nat, pin: int, freqHz: int := 800000, dma: int := 10, invert: bool := false,
      brightness: int := 255, channelIndex: int := 0, stripType: PyValue := NoneValue,
      gamma: PyValue := NoneValue)
      ensures Valid()
      ensures var c := ResolveConfig(stripType, gamma);
        leds == Some(Controller(freqHz, dma))
        && channel == Some(Channel(channelIndex, c.gamma, num, pin, if invert then 1 else 0,
                                   brightness, c.stripType))
      ensures size == num && view.len == 0 && fresh(view.buf)
    {
      var c := ResolveConfig(stripType, gamma);
      leds := Some(Controller(freqHz, dma));
      channel := Some(Channel(channelIndex, c.gamma, num, pin, if invert then 1 else 0,
                              brightness, c.stripType));
      size := num;
      var empty := new u32[0];
      view := View(empty, 0, 0, Layout(false, false));
    }

    /** `_cleanup`: releases the native records the first time; later calls find
        `_leds` None and change nothing. */
    method Cleanup()
      requires Valid()
      modifies this
      ensures Valid()
      ensures leds == None && channel == None
      ensures size == old(size) && view == old(view)
      ensures old(leds) == None ==> unchanged(this)
    {
      if leds != None {
        leds := None;
        channel := None;
      }
    }

    /** `setGamma`: only a 256-entry list replaces the channel's table; any other
        argument is ignored. */
    method SetGamma(gamma: PyValue)
      requires Valid()
      requires IsGammaTable(gamma) ==> channel.Some?
      modifies this
      ensures Valid()
      ensures channel.Some? == old(channel).Some?
      ensures channel.Some? ==>
        channel.value == old(channel).value.(gamma := GammaAfterSet(old(channel).value.gamma, gamma))
      ensures !IsGammaTable(gamma) ==> unchanged(this)
      ensures leds == old(leds) && size == old(size) && view == old(view)
    {
      if IsGammaTable(gamma) {
        channel := Some(channel.value.(gamma := gamma));
      }
    }

    /** `getBrightness`: the channel's brightness. */
    function GetBrightness(): (b: int)
      requires channel.Some?
      reads this
      ensures b == channel.value.brightness
    {
      channel.value.brightness
    }

    /** `setBrightness`: the channel's brightness, read back by `getBrightness`. */
    method SetBrightness(brightness: int)
      requires Valid() && channel.Some?
      modifies this
      ensures Valid() && channel.Some?
      ensures GetBrightness() == brightness
      ensures channel.value == old(channel).value.(brightness := brightness)
      ensures leds == old(leds) && size == old(size) && view == old(view)
    {
      channel := Some(channel.value.(brightness := brightness));
    }

    /** `begin`: a nonzero status from the native init raises RuntimeError and changes
        nothing; otherwise the views become the native LED array of `size` slots, and
        the byte view's columns are reversed on little-endian storage. */
    method Begin(initStatus: int, order: ByteOrder, hostLittle: bool) returns (r: Outcome)
      requires Valid() && leds.Some?
      modifies this
      ensures Valid()
      ensures r == NativeStatus(initStatus)
      ensures leds == old(leds) && channel == old(channel) && size == old(size)
      ensures r.Fail? ==> view == old(view)
      ensures r.Pass? ==>
        fresh(view.buf) && view.len == size && view.layout == BeginLayout(order, hostLittle)
    {
      r := NativeStatus(initStatus);
      if r.Pass? {
        var leds := new u32[size];
        view := View(leds, 0, size, BeginLayout(order, hostLittle));
      }
    }

    /** `show`: renders through the native driver; a nonzero status raises. */
    method Show(renderStatus: int) returns (r: Outcome)
      requires leds.Some?
      ensures r.Pass? <==> renderStatus == 0
      ensures r.Fail? ==> r.error == RuntimeError(renderStatus)
    {
      r := NativeStatus(renderStatus);
    }

    /** `createPixelSubStrip`: checks the requested range against the strip's current
        length, then makes a sub-strip onto the strip's current array. */
    method CreatePixelSubStrip(first: int, last: Option<int> := None, num: Option<int> := None)
      returns (r: Result<PixelSubStrip>)
      requires Valid()
      ensures r.Err? <==> SubStripBounds(first, last, num, view.len).Err?
      ensures r.Err? ==> r.error == SubStripBounds(first, last, num, view.len).error
      ensures r.Ok? ==>
        var b := SubStripBounds(first, last, num, view.len).value;
        fresh(r.value) && r.value.strip == this
        && r.value.view == View(view.buf, b.start, b.len, view.layout)
    {
      if Truthy(last) {
        if last.value > view.len {
          return Err(InvalidStrip(last.value, view.len));
        }
        var s := new PixelSubStrip(this, Some(first), last := last);
        return Ok(s);
      }
      if Truthy(num) {
        if first + num.value > view.len {
          return Err(InvalidStrip(first + num.value, view.len));
        }
        var s := new PixelSubStrip(this, Some(first), num := num);
        return Ok(s);
      }
      var s := new PixelSubStrip(this, Some(first));
      return Ok(s);
    }
  }

  class PixelSubStrip {
    /** The strip whose pixels this one shows. */
    const strip: PixelStrip
    /** A slice of the parent's views at the time of creation. */
    const view: View

    /** `PixelSubStrip.__init__`: `first` defaults to 0 and the end to `first + num`
        or the end of the strip; the views are slices of the parent's. */
    constructor(strip: PixelStrip, first: Option<int>, last: Option<int> := None, num: Option<int> := None)
      requires strip.Valid()
      ensures this.strip == strip
      ensures var f := if first.Some? then first.value else 0;
        view == GetSlice(strip.view, Some(f), Some(SubStripStop(f, last, num, strip.view.len)))
    {
      this.strip := strip;
      var f := if first.Some? then first.value else 0;
      view := GetSlice(strip.view, Some(f), Some(SubStripStop(f, last, num, strip.view.len)));
    }

    /** `getBrightness` on a sub-strip: the brightness of the parent's channel. */
    function GetBrightness(): (b: int)
      requires strip.channel.Some?
      reads strip
      ensures b == strip.GetBrightness()
    {
      strip.GetBrightness()
    }

    /** `setBrightness` on a sub-strip: sets the parent's channel brightness, so it
        applies to every sub-strip of that parent. */
    method SetBrightness(brightness: int)
      requires strip.Valid() && strip.channel.Some?
      modifies strip
      ensures strip.Valid() && strip.channel.Some?
      ensures GetBrightness() == brightness
      ensures strip.channel.value == old(strip.channel).value.(brightness := brightness)
      ensures strip.leds == old(strip.leds) && strip.size == old(strip.size)
      ensures strip.view == old(strip.view)
    {
      strip.SetBrightness(brightness);
    }

    /** `show` on a sub-strip: the parent renders. */
    method Show(renderStatus: int) returns (r: Outcome)
      requires strip.leds.Some?
      ensures r.Pass? <==> renderStatus == 0
      ensures r.Fail? ==> r.error == RuntimeError(renderStatus)
    {
      r := strip.Show(renderStatus);
    }

    /** `__setitem__` on a sub-strip: index k of the sub-strip is index `first + k` of
        a parent that still has the array it had at creation, and no other pixel of
        the parent changes. */
    method SetItem(pos: int, value: u32) returns (r: Outcome)
      requires view.Valid() && strip.Valid()
      modifies view.buf
      ensures r.Pass? <==> 0 <= pos + view.len && pos < view.len
      ensures r.Fail? ==> r.error == IndexError && view.buf[..] == old(view.buf[..])
      ensures r.Pass? && strip.view.buf == view.buf ==>
        Pixels(strip.view) == old(Pixels(strip.view))[view.first + ResolveIndex(pos, view.len).value := value]
    {
      r := PixelView.SetItem(view, pos, value);
    }
  }

  /** The docstring's example: sub-strips of ten pixels each, and pixel 5 of the
      second is pixel 15 of the strip. */
  method SubStripExample()
  {
    var strip := new PixelStrip(30, 18);
    assert strip.view.len == 0;
    var started := strip.Begin(0, NativeOrder, true);
    assert strip.view.len == 30;
    var next10 := strip.CreatePixelSubStrip(10, num := Some(10));
    assert SubStripBounds(10, None, Some(10), 30) == Ok(Bounds(10, 10));
    var sub := next10.value;
    assert sub.view.first == 10 && sub.view.buf == strip.view.buf;
    var red: u32 := 0xff_0000;  // Color(255, 0, 0)
    var written := sub.SetItem(5, red);
    assert Pixels(strip.view)[15] == red;
  }

  /** A sub-strip reaching past the end of the strip is refused. */
  method SubStripTooLongExample()
  {
    var strip := new PixelStrip(30, 18);
    var started := strip.Begin(0, BigEndian, false);
    var tooMany := strip.CreatePixelSubStrip(25, num := Some(10));
    assert tooMany == Err(InvalidStrip(35, 30));
    var beyond := strip.CreatePixelSubStrip(0, last := Some(31));
    assert beyond == Err(InvalidStrip(31, 30));
  }

  /** `_cleanup` runs twice (explicitly and at exit): the second call is harmless. */
  method CleanupTwiceExample()
  {
    var strip := new PixelStrip(8, 18);
    var started := strip.Begin(0, LittleEndian, false);
    strip.Cleanup();
    strip.Cleanup();
    assert strip.leds == None && strip.channel == None && strip.size == 8;
  }
}
