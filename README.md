# rpi_ws281x Python wrapper: colour packing, strip configuration and pixel views

This project models the Python layer of the rpi_ws281x library: the object a program
uses to drive a WS281x/SK6812 LED strip through the native `_rpi_ws281x` driver. The
model covers what the wrapper itself decides:

- packing a colour into one integer (`RGBW`, `Color`) and reading its components back;
- how the `PixelStrip` constructor settles the gamma table and strip type (the
  back-compatibility rule that accepts a gamma table in the `strip_type` position),
  and how `setGamma` ignores anything but a 256-entry list;
- the life of a strip: empty views before `begin`, the native LED array after it, and
  `_cleanup` that releases the native records once;
- the pixel views: integer and slice reads and writes on the shared LED array, the byte
  view `getSubPixels` whose rows read [w, r, g, b] on either byte order, `off`, and
  sub-strips, whose pixel k is pixel `first + k` of the parent.

The native driver is outside the model. Its controller and channel records are plain
values, the status codes of its init and render calls are parameters, and the LED array
it allocates is a fresh Dafny array whose contents the model does not assume.

Modules: `Errors` (the exceptions, Option/Result), `Colors`, `Config`, `Indexing`
(Python's integer subscripts and step-1 slices), `PixelView` (the operations that
`PixelStrip` and `PixelSubStrip` inherit from `_PixelStripBase`, over a `View`: an
array, a window on it and a byte layout) and `Strip` (the two classes).

In two places the code reads an attribute its object does not have; the model follows
what the code evidently intends:

- `PixelSubStrip.__init__` slices `strip._values`, which no strip has; the model slices
  the parent's `_view` (library/rpi_ws281x/rpi_ws281x.py:265).
- `getBrightness`, `setBrightness` and `off` go through `self.strip`, which only a
  sub-strip sets; for a full strip the model takes the strip itself
  (library/rpi_ws281x/rpi_ws281x.py:79, 87, 124).

## Model

| member | source | states |
|---|---|---|
| `Errors.NativeStatus` | library/rpi_ws281x/rpi_ws281x.py:201-204 | a native status raises RuntimeError carrying that status exactly when it is nonzero |
| `Colors.Red` | library/rpi_ws281x/rpi_ws281x.py:18-20 | `.r` of any int, negative ones included, is in 0..255 |
| `Colors.Green` | library/rpi_ws281x/rpi_ws281x.py:22-24 | `.g` of any int is in 0..255 |
| `Colors.Blue` | library/rpi_ws281x/rpi_ws281x.py:26-28 | `.b` of any int is in 0..255 |
| `Colors.White` | library/rpi_ws281x/rpi_ws281x.py:30-32 | `.w` of any int is in 0..255 |
| `Colors.PackRoundTrip` | library/rpi_ws281x/rpi_ws281x.py:16-32 | packing four byte components and reading them back with the accessors gives each component back |
| `Colors.UnpackRoundTrip` | library/rpi_ws281x/rpi_ws281x.py:16-32 | every 32-bit slot value is the packing of its own four components, so packing and the accessors are inverse |
| `Colors.Rgbw` | library/rpi_ws281x/rpi_ws281x.py:10-16 | with one argument the value itself; with g and b the packed value, a 32-bit value whose accessors give r, g, b and w (0 when missing); with g or b missing but not all three, TypeError |
| `Colors.Color` | library/rpi_ws281x/rpi_ws281x.py:36-41 | the result's `.r`, `.g`, `.b`, `.w` are the four arguments |
| `Colors.ColorWithoutWhite` | library/rpi_ws281x/rpi_ws281x.py:36-41 | a colour given by red, green and blue has `.w == 0` and is their packing with white 0 |
| `Config.IdentityGamma` | library/rpi_ws281x/rpi_ws281x.py:148 | the default table has 256 entries and maps every level to itself |
| `Config.ResolveConfig` | library/rpi_ws281x/rpi_ws281x.py:141-151 | without gamma, a 256-entry list as strip_type becomes the gamma and the strip type GRB; any other missing gamma becomes the identity table; a given gamma is kept; a missing strip type becomes GRB and any other is kept |
| `Config.GammaAfterSet` | library/rpi_ws281x/rpi_ws281x.py:193-195 | the table becomes the argument exactly when it is a 256-entry list (or already equal); anything else leaves it unchanged |
| `Config.GammaStaysTable` | library/rpi_ws281x/rpi_ws281x.py:141-195 | a strip built without its own gamma (or with a 256-entry one) holds a 256-entry table after any series of `setGamma` calls |
| `Indexing.ResolveIndex` | library/rpi_ws281x/rpi_ws281x.py:48-52 | an integer index is accepted exactly in -n..n-1, negative ones counting from the end |
| `Indexing.SliceBounds` | library/rpi_ws281x/rpi_ws281x.py:265 | a slice stays inside the array and covers exactly the positions between its bounds read as Python reads them; in-range bounds give the run start..stop |
| `PixelView.SlotBytes` | library/rpi_ws281x/rpi_ws281x.py:208 | a slot stored least significant byte first reads b, g, r, w in memory |
| `PixelView.RowIsWrgb` | library/rpi_ws281x/rpi_ws281x.py:207-210 | for every dtype byte order and host byte order, the byte view `begin` sets up shows a slot as [w, r, g, b] |
| `PixelView.SubPixels` | library/rpi_ws281x/rpi_ws281x.py:95-96 | the byte view has one row per pixel of the view |
| `PixelView.SubPixelsAreWrgb` | library/rpi_ws281x/rpi_ws281x.py:95-96 | on a view laid out by `begin`, byte row i is [w, r, g, b] of pixel i, and packing the row gives pixel i back |
| `PixelView.Len` | library/rpi_ws281x/rpi_ws281x.py:61-62 | the length is the number of pixels the view shows |
| `PixelView.GetItem` | library/rpi_ws281x/rpi_ws281x.py:48-52 | an index in -len..len-1 reads the pixel it names (from the end when negative), any other raises IndexError |
| `PixelView.GetPixelColorRgbw` | library/rpi_ws281x/rpi_ws281x.py:116-117 | the one-argument RGBW of a pixel is the pixel value itself, with the same IndexError |
| `PixelView.GetSlice` | library/rpi_ws281x/rpi_ws281x.py:265-266 | a slice is a view onto the same array and byte layout, showing exactly the parent's pixels in the slice's bounds |
| `PixelView.SetItem` | library/rpi_ws281x/rpi_ws281x.py:54-59 | an index in range changes exactly the one slot of the shared array it names, which then reads back the value; any other raises IndexError and changes nothing |
| `PixelView.SetPixelColor` | library/rpi_ws281x/rpi_ws281x.py:64-69 | the same as an integer `__setitem__` |
| `PixelView.SetPixelColorRgb` | library/rpi_ws281x/rpi_ws281x.py:71-76 | stores `Color(red, green, blue, white)` in the one slot named, whose components then read back as given; an index out of range raises IndexError and changes nothing |
| `PixelView.SetSlice` | library/rpi_ws281x/rpi_ws281x.py:54-59 | one value fills the whole slice, as many values as the slice holds are stored in order, and any other count raises ValueError with nothing stored; slots outside the slice keep their values |
| `PixelView.Off` | library/rpi_ws281x/rpi_ws281x.py:122-124 | every pixel of the view becomes 0, every other slot of the shared array keeps its value, then the render status decides whether it raises |
| `Strip.SubStripBounds` | library/rpi_ws281x/rpi_ws281x.py:219-241 | InvalidStrip exactly when a truthy `last` exceeds the length, or (no truthy `last`) a truthy `num` with `first + num` does; otherwise a run inside the strip of length `last - first`, `num`, or to the end; an unchecked `first > last` gives an empty sub-strip; in every case the run covers exactly the positions between `first` and the end position read as Python slicing reads them, negative values included |
| `Strip.PixelStrip.constructor` | library/rpi_ws281x/rpi_ws281x.py:127-177 | the native records hold the resolved gamma and strip type and the given settings, and the strip has length 0 before `begin` |
| `Strip.PixelStrip.Cleanup` | library/rpi_ws281x/rpi_ws281x.py:185-191 | afterwards `_leds` and `_channel` are None; when they already were, nothing changes |
| `Strip.PixelStrip.SetGamma` | library/rpi_ws281x/rpi_ws281x.py:193-195 | the channel's table becomes the argument only when it is a 256-entry list; otherwise the strip is unchanged |
| `Strip.PixelStrip.GetBrightness` | library/rpi_ws281x/rpi_ws281x.py:78-79 | the channel's brightness |
| `Strip.PixelStrip.SetBrightness` | library/rpi_ws281x/rpi_ws281x.py:81-87 | the channel's brightness becomes the value, which `getBrightness` reads back; nothing else changes |
| `Strip.PixelStrip.Begin` | library/rpi_ws281x/rpi_ws281x.py:197-210 | a nonzero init status raises and changes nothing; otherwise the views become a new array of the configured length with the byte layout for the dtype and host byte order |
| `Strip.PixelStrip.Show` | library/rpi_ws281x/rpi_ws281x.py:212-217 | raises RuntimeError carrying the render status exactly when it is nonzero |
| `Strip.PixelStrip.CreatePixelSubStrip` | library/rpi_ws281x/rpi_ws281x.py:219-241 | raises exactly as `SubStripBounds` says; otherwise a new sub-strip of this strip whose view is that run of the strip's current array |
| `Strip.PixelSubStrip.constructor` | library/rpi_ws281x/rpi_ws281x.py:255-266 | `first` defaults to 0, the end to `first + num` or the end of the strip, and the view is that slice of the parent's |
| `Strip.PixelSubStrip.GetBrightness` | library/rpi_ws281x/rpi_ws281x.py:78-79 | a sub-strip reads the brightness of its parent's channel |
| `Strip.PixelSubStrip.SetBrightness` | library/rpi_ws281x/rpi_ws281x.py:81-87 | a sub-strip sets its parent's channel brightness, read back through the sub-strip, and nothing else of the parent changes |
| `Strip.PixelSubStrip.Show` | library/rpi_ws281x/rpi_ws281x.py:119-120 | a sub-strip renders through its parent, raising RuntimeError exactly when the render status is nonzero |
| `Strip.PixelSubStrip.SetItem` | library/rpi_ws281x/rpi_ws281x.py:246-265 | writing index k of a sub-strip changes exactly pixel `first + k` of a parent that still has its array, and no other pixel of the parent |

## Left out

- The native driver (`ws2811_init`, `ws2811_render`, `ws2811_fini`, the gamma, count, brightness and other setters, `ws2811_get_return_t_str`): it is foreign code. Its statuses are parameters, its records plain values, and the text of its error messages is not modelled.
- WS281x bit encoding, PWM and DMA frames and timing: none of it is in the wrapper.
- The `atexit` registration of `_cleanup`: process-exit plumbing; `Strip.CleanupTwiceExample` shows that a second call is harmless.
- The `Adafruit_NeoPixel` shim: an empty subclass.
- numpy advanced indexing, slice steps, reads and writes with arrays of indices, and multi-dimensional "matrix" sub-strips: only integer indices and step-1 slices are modelled.
- Colors.Rgbw: components outside 0..255 (whose shifted bits overlap, as nothing masks them) and non-int arguments are not modelled; `Colors.Pack` is the sum of the shifted fields, which equals the bitwise or only for byte components.
- PixelView.SetItem: a value that does not fit a 32-bit slot (numpy's overflow error or wrap-around) is not modelled; values are 32-bit by type.
- Writes through the byte view (`getSubPixels()[i][j] = x`) are not modelled; only reading it is.
- The pre-`begin` `_view` is numpy's float64 `zeros(0)`; the model uses an empty array of slots, which behaves the same for every modelled operation.
- The LED array's contents right after `begin` are set by the native driver and are not assumed.
- Strip.PixelStrip.Begin and Strip.PixelStrip.Show require the native records to be present: calling the native driver after `_cleanup` is not modelled, nor is the view that still points at the released array.
- Strip.PixelStrip.SetBrightness (and the sub-strip's SetBrightness and GetBrightness) require a channel: setting the brightness of a released native channel after `_cleanup` is not modelled.
- Strip.PixelStrip.SetGamma requires a channel when the table would be passed on: the native call with a released channel is not modelled.
- Config.ResolveConfig: a list argument is modelled as a list of ints (`ListValue`); a 256-entry list whose items are not ints passes the source's type-and-length test but is `OtherValue` here, so the model resolves it to the identity table instead of taking it as the gamma.
- Strip.PixelStrip.constructor: a negative pixel count (passed on to the native driver unchecked) is not modelled; `num` is a natural number.
- Strip.PixelStrip.CreatePixelSubStrip: `first=None` is not modelled (it is an int), though `PixelSubStrip`'s own constructor accepts it.
- On a full strip, the source's `getBrightness`, `setBrightness` and `off` raise AttributeError at `self.strip` (`off` after zeroing the pixels); the model uses the strip itself. A sub-strip's `getBrightness`, `setBrightness` and `show` go to its parent (`Strip.PixelSubStrip`). `PixelView.Off` takes the render status of whichever strip renders as a parameter and does not name that strip.
- `strip._values` in `PixelSubStrip.__init__` raises AttributeError in the source; the model slices the parent's `_view`.
- `getPixels` returns the view itself and `numPixels` is `__len__`: both are `PixelView.View` and `PixelView.Len`. `getPixelColorRGB` is the same code as `getPixelColorRGBW` and is modelled by `PixelView.GetPixelColorRgbw`.
