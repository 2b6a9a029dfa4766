/**
 * The multi-stop linear gradients of the border and of the XP bar: a colour
 * option becomes a list of at most twenty colours, and colour i of n is
 * placed at offset i/(n-1).
 */
module Gradient {
  import opened Canvas

  /** The most colours a border or bar gradient accepts. */
  const MAX_COLORS: nat := 20

  /** A colour option: absent, one colour string, or an array of colours. */
  datatype ColorSpec = Unset | Single(color: string) | Many(colors: seq<string>)

  /** The list built by pushing a string, or spreading an array. */
  function ColorList(spec: ColorSpec): seq<string> {
    match spec
    case Unset => []
    case Single(c) => [c]
    case Many(cs) => cs
  }

  /** The stops a gradient of `colors` receives, each colour passed through `hex`. */
  function Stops(colors: seq<string>, hex: string -> string): seq<Stop> {
    seq(|colors|, i requires 0 <= i < |colors| => Stop(i, |colors| - 1, hex(colors[i])))
  }

  /** The `addColorStop` loop: one stop per colour, in order. */
  method AddColorStops(colors: seq<string>, hex: string -> string) returns (stops: seq<Stop>)
    ensures stops == Stops(colors, hex)
  {
    stops := [];
    var i := 0;
    while i < |colors|
      invariant 0 <= i <= |colors|
      invariant |stops| == i
      invariant forall k :: 0 <= k < i ==> stops[k] == Stop(k, |colors| - 1, hex(colors[k]))
    {
      var stop := Stop(i, |colors| - 1, hex(colors[i]));
      stops := stops + [stop];
      i := i + 1;
    }
  }

  /**
   * With at least two colours the stops span the whole gradient: the first
   * is at 0, the last at 1, and the offsets strictly increase in between.
   */
  lemma StopsSpanGradient(colors: seq<string>, hex: string -> string)
    requires |colors| >= 2
    ensures |Stops(colors, hex)| == |colors|
    ensures forall i :: 0 <= i < |colors| ==> Stops(colors, hex)[i].last > 0
    ensures Stops(colors, hex)[0].Offset() == 0.0
    ensures Stops(colors, hex)[|colors| - 1].Offset() == 1.0
    ensures forall i, j :: 0 <= i < j < |colors| ==>
      Stops(colors, hex)[i].Offset() < Stops(colors, hex)[j].Offset()
  {
    var s := Stops(colors, hex);
    var n := |colors| - 1;
    assert s[0] == Stop(0, n, hex(colors[0]));
    assert s[n] == Stop(n, n, hex(colors[n]));
    WholeFraction(n);
    forall i, j | 0 <= i < j < |colors|
      ensures s[i].Offset() < s[j].Offset()
    {
      assert s[i] == Stop(i, n, hex(colors[i]));
      assert s[j] == Stop(j, n, hex(colors[j]));
      FractionIncreasing(i, j, n);
    }
  }

  /** Proof helper: the last stop's offset n/n is 1. */
  lemma WholeFraction(n: nat)
    requires n > 0
    ensures n as real / n as real == 1.0
  {
  }

  /** Proof helper: offsets over one denominator increase with the index. */
  lemma FractionIncreasing(i: nat, j: nat, n: nat)
    requires i < j && n > 0
    ensures i as real / n as real < j as real / n as real
  {
  }
}
