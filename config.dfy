/** How `PixelStrip.__init__` and `setGamma` settle the gamma table and the strip type
    before handing them to the native channel. */
module Config {

  /** The dynamically typed arguments `strip_type` and `gamma`: None, an int (a strip
      type code), a list (of table entries), or anything else. */
  datatype PyValue = NoneValue | IntValue(i: int) | ListValue(items: seq<int>) | OtherValue

  /** The native library's `WS2811_STRIP_GRB` code: green, red, blue on the wire. */
  const WS2811_STRIP_GRB: int := 0x0008_1000

  /** `list(range(256))`, the table that leaves every level as it is. */
  function IdentityGamma(): (t: seq<int>)
    ensures |t| == 256
    ensures forall i :: 0 <= i < |t| ==> t[i] == i
  {
    seq(256, i => i)
  }

  /** `type(v) is list and len(v) == 256`: the only shape taken for a gamma table
      when one is recognised by its type. */
  predicate IsGammaTable(v: PyValue)
  {
    v.ListValue? && |v.items| == 256
  }

  /** The gamma table and strip type the constructor passes to the native channel. */
  datatype Resolved = Resolved(gamma: PyValue, stripType: PyValue)

  /** The back-compatibility rules of the constructor: without a gamma, a 256-entry
      list in the strip_type position is the gamma table and the strip type falls back
      to GRB; any other missing gamma becomes the identity table; a missing strip type
      is GRB. A given gamma is passed on as it is. */
  function ResolveConfig(stripType: PyValue, gamma: PyValue): (c: Resolved)
    ensures c.gamma != NoneValue && c.stripType != NoneValue
    ensures gamma == NoneValue && IsGammaTable(stripType) ==>
      c.gamma == stripType && c.stripType == IntValue(WS2811_STRIP_GRB)
    ensures gamma == NoneValue && !IsGammaTable(stripType) ==>
      c.gamma == ListValue(IdentityGamma())
    ensures gamma != NoneValue ==> c.gamma == gamma
    ensures stripType == NoneValue ==> c.stripType == IntValue(WS2811_STRIP_GRB)
    ensures stripType != NoneValue && !(gamma == NoneValue && IsGammaTable(stripType)) ==>
      c.stripType == stripType
    ensures IsGammaTable(c.gamma) || c.gamma == gamma
  {
    var (g, s) :=
      if gamma == NoneValue then
        if IsGammaTable(stripType) then (stripType, NoneValue)
        else (ListValue(IdentityGamma()), stripType)
      else (gamma, stripType);
    Resolved(g, if s == NoneValue then IntValue(WS2811_STRIP_GRB) else s)
  }

  /** `setGamma`'s test: the table is replaced only by a 256-entry list, and any
      other argument leaves it as it was. */
  function GammaAfterSet(current: PyValue, gamma: PyValue): (t: PyValue)
    ensures t == gamma <==> IsGammaTable(gamma) || gamma == current
    ensures !IsGammaTable(gamma) ==> t == current
  {
    if IsGammaTable(gamma) then gamma else current
  }

  /** After construction the channel holds a usable 256-entry table unless the caller
      passed a gamma of its own; `setGamma` never takes that property away. */
  lemma {:induction false} GammaStaysTable(stripType: PyValue, gamma: PyValue, updates: seq<PyValue>)
    requires gamma == NoneValue || IsGammaTable(gamma)
    ensures IsGammaTable(ApplyGammaUpdates(ResolveConfig(stripType, gamma).gamma, updates))
  {
    var start := ResolveConfig(stripType, gamma).gamma;
    assert IsGammaTable(start) by {
      if gamma == NoneValue && !IsGammaTable(stripType) {
        assert start == ListValue(IdentityGamma());
      }
    }
    UpdatesKeepTable(start, updates);
  }

  /** The table after a series of `setGamma` calls. */
  function ApplyGammaUpdates(current: PyValue, updates: seq<PyValue>): PyValue
    decreases |updates|
  {
    if updates == [] then current
    else ApplyGammaUpdates(GammaAfterSet(current, updates[0]), updates[1..])
  }

  lemma {:induction false} UpdatesKeepTable(current: PyValue, updates: seq<PyValue>)
    requires IsGammaTable(current)
    ensures IsGammaTable(ApplyGammaUpdates(current, updates))
    decreases |updates|
  {
    if updates != [] {
      UpdatesKeepTable(GammaAfterSet(current, updates[0]), updates[1..]);
    }
  }
}
