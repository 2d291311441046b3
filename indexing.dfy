/** Python's rules for integer subscripts and step-1 slices, as numpy applies them to
    the one-dimensional pixel array. */
module Indexing {
  import opened Errors

  /** An integer subscript of a sequence of length n: 0 to n-1 directly, -n to -1
      counted from the end, anything else an IndexError. */
  function ResolveIndex(pos: int, n: nat): (r: Option<nat>)
    ensures r.Some? <==> 0 <= pos + n && pos < n
    ensures r.Some? ==> r.value < n && r.value % n == pos % n
    ensures r.Some? && pos >= 0 ==> r.value == pos
  {
    if 0 <= pos < n then Some(pos)
    else if 0 <= pos + n && pos < 0 then Some(pos + n)
    else None
  }

  /** A contiguous run of positions: the first one and how many. */
  datatype Bounds = Bounds(start: nat, len: nat)

  predicate Covers(b: Bounds, i: int)
  {
    b.start <= i < b.start + b.len
  }

  /** A slice bound read the way Python reads it: a missing bound is `default`, a
      negative one counts from the end. */
  function BoundAt(x: Option<int>, default: int, n: nat): int
  {
    if x.None? then default else if x.value < 0 then x.value + n else x.value
  }

  /** Python's definition of what `s[start:stop]` holds: the positions i with
      start <= i < stop, bounds read by BoundAt. */
  predicate Selects(start: Option<int>, stop: Option<int>, n: nat, i: int)
  {
    BoundAt(start, 0, n) <= i < BoundAt(stop, n, n)
  }

  function Clamp(x: int, n: nat): (r: nat)
  {
    if x < 0 then 0 else if x > n then n else x
  }

  /** The run of positions `s[start:stop]` of a length-n sequence occupies, with the
      bounds clipped into 0..n as slicing does (slicing never raises). */
  function SliceBounds(start: Option<int>, stop: Option<int>, n: nat): (b: Bounds)
    ensures b.start + b.len <= n
    ensures forall i :: 0 <= i < n ==> (Covers(b, i) <==> Selects(start, stop, n, i))
    ensures 0 <= BoundAt(start, 0, n) <= BoundAt(stop, n, n) <= n ==>
      b == Bounds(BoundAt(start, 0, n), BoundAt(stop, n, n) - BoundAt(start, 0, n))
  {
    var lo := Clamp(BoundAt(start, 0, n), n);
    var hi := Clamp(BoundAt(stop, n, n), n);
    Bounds(lo, if hi > lo then hi - lo else 0)
  }
}
