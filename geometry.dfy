/**
  The arithmetic of the colour bar's layout: the domain of the colour map,
  the rescaling of its stops onto [0,1], the default tick values, the pixel
  row of a tick and the rectangle of the backing mask.  All of it is exact
  real arithmetic; the floating point of the Python code is not modelled.
 */
module Geometry {

  /** Least element of a non-empty sequence (numpy's `min`). */
  function Min(s: seq<real>): (m: real)
    requires |s| > 0
    ensures m in s
    ensures forall i :: 0 <= i < |s| ==> m <= s[i]
  {
    if |s| == 1 then s[0]
    else
      var rest := Min(s[1..]);
      if s[0] <= rest then s[0] else rest
  }

  /** Greatest element of a non-empty sequence (numpy's `max`). */
  function Max(s: seq<real>): (m: real)
    requires |s| > 0
    ensures m in s
    ensures forall i :: 0 <= i < |s| ==> s[i] <= m
  {
    if |s| == 1 then s[0]
    else
      var rest := Max(s[1..]);
      if s[0] >= rest then s[0] else rest
  }

  /** Peak-to-peak extent of a non-empty sequence (numpy's `ptp`). */
  function Ptp(s: seq<real>): (p: real)
    requires |s| > 0
    ensures p >= 0.0
    ensures p == 0.0 <==> forall i :: 0 <= i < |s| ==> s[i] == s[0]
  {
    Max(s) - Min(s)
  }

  /** The affine map that takes the domain `[smn, smn + spp]` onto [0,1]. */
  function Rescale(x: real, smn: real, spp: real): real
    requires spp > 0.0
  {
    (x - smn) / spp
  }

  /** Rescaling is undone by scaling by the span and shifting by the minimum. */
  lemma RescaleInverse(x: real, smn: real, spp: real, q: real)
    requires spp > 0.0
    requires q == Rescale(x, smn, spp)
    ensures smn + spp * q == x
  {
  }

  /** Rescaling keeps the order of its arguments, strictly and not strictly. */
  lemma RescaleMonotone(x: real, y: real, smn: real, spp: real)
    requires spp > 0.0
    ensures x <= y <==> Rescale(x, smn, spp) <= Rescale(y, smn, spp)
    ensures x < y <==> Rescale(x, smn, spp) < Rescale(y, smn, spp)
  {
  }

  /** The domain goes onto [0,1], its minimum onto 0 and its maximum onto 1, and nothing else onto either end. */
  lemma RescaleDomain(x: real, smn: real, spp: real)
    requires spp > 0.0
    ensures smn <= x <= smn + spp <==> 0.0 <= Rescale(x, smn, spp) <= 1.0
    ensures Rescale(x, smn, spp) == 0.0 <==> x == smn
    ensures Rescale(x, smn, spp) == 1.0 <==> x == smn + spp
  {
    assert Rescale(smn, smn, spp) == 0.0;
    assert Rescale(smn + spp, smn, spp) == 1.0;
    RescaleInverse(x, smn, spp, Rescale(x, smn, spp));
    RescaleMonotone(smn, x, smn, spp);
    RescaleMonotone(x, smn + spp, smn, spp);
  }

  /** Every element of `s` rescaled by the same minimum and span. */
  function RescaleAll(s: seq<real>, smn: real, spp: real): (r: seq<real>)
    requires spp > 0.0
    ensures |r| == |s|
    ensures forall i :: 0 <= i < |s| ==> r[i] == Rescale(s[i], smn, spp)
  {
    seq(|s|, i requires 0 <= i < |s| => Rescale(s[i], smn, spp))
  }

  /** The stops of a colour map rescaled affinely onto [0,1] (`(stops - stops.min()) / stops.ptp()`). */
  function Normalize(s: seq<real>): (r: seq<real>)
    requires |s| > 0 && Ptp(s) > 0.0
    ensures |r| == |s|
    ensures forall i :: 0 <= i < |s| ==> 0.0 <= r[i] <= 1.0
    ensures forall i :: 0 <= i < |s| ==> (r[i] == 0.0 <==> s[i] == Min(s))
    ensures forall i :: 0 <= i < |s| ==> (r[i] == 1.0 <==> s[i] == Max(s))
  {
    var smn, spp := Min(s), Ptp(s);
    var r := RescaleAll(s, smn, spp);
    forall i | 0 <= i < |s|
      ensures 0.0 <= r[i] <= 1.0 && (r[i] == 0.0 <==> s[i] == smn) && (r[i] == 1.0 <==> s[i] == smn + spp)
    {
      RescaleDomain(s[i], smn, spp);
    }
    r
  }

  /** Every element of `r` scaled by `spp` and shifted by `smn`: the inverse of `RescaleAll`. */
  function UnscaleAll(r: seq<real>, smn: real, spp: real): (s: seq<real>)
    ensures |s| == |r|
  {
    seq(|r|, i requires 0 <= i < |r| => smn + spp * r[i])
  }

  /** Rescaling every element and then unscaling it gives back the sequence. */
  lemma RescaleAllInverse(s: seq<real>, smn: real, spp: real)
    requires spp > 0.0
    ensures UnscaleAll(RescaleAll(s, smn, spp), smn, spp) == s
  {
    var r := RescaleAll(s, smn, spp);
    forall i | 0 <= i < |s|
      ensures UnscaleAll(r, smn, spp)[i] == s[i]
    {
      RescaleInverse(s[i], smn, spp, r[i]);
    }
  }

  /** Scaling the normalised stops by the span and shifting them by the minimum gives back the raw stops. */
  lemma NormalizeInverse(s: seq<real>)
    requires |s| > 0 && Ptp(s) > 0.0
    ensures UnscaleAll(Normalize(s), Min(s), Ptp(s)) == s
  {
    RescaleAllInverse(s, Min(s), Ptp(s));
  }

  /** Normalisation keeps the order of the stops, strictly and not strictly. */
  lemma NormalizeMonotone(s: seq<real>, i: nat, j: nat)
    requires |s| > 0 && Ptp(s) > 0.0
    requires i < |s| && j < |s|
    ensures s[i] <= s[j] <==> Normalize(s)[i] <= Normalize(s)[j]
    ensures s[i] < s[j] <==> Normalize(s)[i] < Normalize(s)[j]
  {
    RescaleMonotone(s[i], s[j], Min(s), Ptp(s));
  }

  /** numpy's `linspace(start, stop, num)`: num points, both ends included, equally spaced. */
  function LinSpace(start: real, stop: real, num: nat): (r: seq<real>)
    requires num >= 2
    ensures |r| == num
  {
    var step := (stop - start) / ((num - 1) as real);
    seq(num, i => start + (i as real) * step)
  }

  /** The ends of a linspace are its bounds, and consecutive points are one step apart. */
  lemma LinSpaceShape(start: real, stop: real, num: nat, i: nat)
    requires num >= 2
    requires i < num - 1
    ensures LinSpace(start, stop, num)[0] == start
    ensures LinSpace(start, stop, num)[num - 1] == stop
    ensures LinSpace(start, stop, num)[i + 1] - LinSpace(start, stop, num)[i]
            == (stop - start) / ((num - 1) as real)
  {
  }

  /**
    The fractions of the domain at which default ticks are placed:
    `np.r_[0.0:1.0:5j, 1.0]`, that is five equally spaced points from 0 to 1
    followed by a second 1.0.
   */
  function DefaultFractions(): (f: seq<real>)
    ensures |f| == 6
  {
    LinSpace(0.0, 1.0, 5) + [1.0]
  }

  /** The default fractions are 0, 1/4, 1/2, 3/4, 1 and 1 again. */
  lemma DefaultFractionsValues()
    ensures DefaultFractions() == [0.0, 0.25, 0.5, 0.75, 1.0, 1.0]
  {
  }

  /** The ticks drawn when the caller gives none: each default fraction scaled by the span and shifted by the minimum. */
  function DefaultTicks(smn: real, spp: real): (t: seq<real>)
  {
    var f := DefaultFractions();
    seq(|f|, i requires 0 <= i < |f| => f[i] * spp + smn)
  }

  /**
    There are exactly six default ticks, `smn + spp * [0, 1/4, 1/2, 3/4, 1, 1]`;
    for a non-negative span they lie in the domain, they do not decrease,
    and the last two coincide.
   */
  lemma DefaultTicksValues(smn: real, spp: real)
    ensures DefaultTicks(smn, spp)
            == [smn, smn + spp * 0.25, smn + spp * 0.5, smn + spp * 0.75, smn + spp, smn + spp]
    ensures spp >= 0.0 ==> forall i :: 0 <= i < 6 ==> smn <= DefaultTicks(smn, spp)[i] <= smn + spp
    ensures spp >= 0.0 ==> forall i, j :: 0 <= i <= j < 6 ==> DefaultTicks(smn, spp)[i] <= DefaultTicks(smn, spp)[j]
    ensures DefaultTicks(smn, spp)[4] == DefaultTicks(smn, spp)[5]
  {
    DefaultFractionsValues();
    var t := DefaultTicks(smn, spp);
    assert t[0] == smn && t[1] == smn + spp * 0.25 && t[2] == smn + spp * 0.5;
    assert t[3] == smn + spp * 0.75 && t[4] == smn + spp && t[5] == smn + spp;
  }

  /**
    The pixel row of a tick of value `t` on a bar of height `h`: the axis is
    inverted, so the maximum of the domain is at row 0 and the minimum at row `h`.
   */
  function TickY(t: real, smn: real, spp: real, h: real): real
    requires spp > 0.0
  {
    (1.0 - Rescale(t, smn, spp)) * h
  }

  /** The minimum of the domain lands on the bottom row and the maximum on the top row. */
  lemma TickYEndpoints(smn: real, spp: real, h: real)
    requires spp > 0.0
    ensures TickY(smn, smn, spp, h) == h
    ensures TickY(smn + spp, smn, spp, h) == 0.0
  {
  }

  /** For a positive height, a larger tick value gives a strictly smaller row, and conversely. */
  lemma TickYStrictlyDecreasing(t1: real, t2: real, smn: real, spp: real, h: real)
    requires spp > 0.0 && h > 0.0
    ensures t1 < t2 <==> TickY(t1, smn, spp, h) > TickY(t2, smn, spp, h)
  {
  }

  /** For a positive height, a tick lands inside the bar exactly when its value lies in the domain. */
  lemma TickYInBar(t: real, smn: real, spp: real, h: real)
    requires spp > 0.0 && h > 0.0
    ensures smn <= t <= smn + spp <==> 0.0 <= TickY(t, smn, spp, h) <= h
  {
  }

  /** A value placed at fraction `f` of the domain rescales back to `f`. */
  lemma RescaleFraction(f: real, smn: real, spp: real)
    requires spp > 0.0
    ensures Rescale(f * spp + smn, smn, spp) == f
  {
  }

  /**
    The six default ticks land on the rows h, 3h/4, h/2, h/4, 0 and 0: evenly
    spaced from the bottom of the bar to its top, the top row drawn twice.
   */
  lemma DefaultTickRows(smn: real, spp: real, h: real)
    requires spp > 0.0
    ensures forall k :: 0 <= k < 6 ==> TickY(DefaultTicks(smn, spp)[k], smn, spp, h) == (1.0 - DefaultFractions()[k]) * h
    ensures seq(6, k requires 0 <= k < 6 => TickY(DefaultTicks(smn, spp)[k], smn, spp, h))
            == [h, 0.75 * h, 0.5 * h, 0.25 * h, 0.0, 0.0]
  {
    var t, f := DefaultTicks(smn, spp), DefaultFractions();
    forall k | 0 <= k < 6
      ensures TickY(t[k], smn, spp, h) == (1.0 - f[k]) * h
    {
      RescaleFraction(f[k], smn, spp);
    }
    DefaultFractionsValues();
  }

  /** A text box as the host's font metrics report it: left edge, width and height. */
  datatype Box = Box(x: real, width: real, height: real)

  /** A rectangle given by its top-left corner, its width and its height. */
  datatype Rect = Rect(x: real, y: real, w: real, h: real)

  /**
    The backing mask: from 12 pixels left of the leftmost label box and 15
    pixels above the bar, as wide as the title box plus the labels' overhang,
    and as tall as the bar plus the title box plus 30 pixels.
   */
  function MaskZone(mintx: real, title: Box, h: real): Rect
  {
    Rect(mintx - 12.0, -15.0, title.width - mintx, h + title.height + 30.0)
  }

  /**
    Where the mask's edges fall: its left edge is 12 pixels left of the
    leftmost label extent, its top is 15 pixels above the bar, its right edge
    is the title width less 12 and its bottom is the title box's height plus
    15 pixels below the bar's bottom.  Its width is at least the title's
    exactly when the leftmost extent is not right of 0; its height exceeds
    the bar's exactly when the title height exceeds -30.
   */
  lemma MaskZoneEdges(mintx: real, title: Box, h: real)
    ensures MaskZone(mintx, title, h).x == mintx - 12.0
    ensures MaskZone(mintx, title, h).y == -15.0
    ensures MaskZone(mintx, title, h).x + MaskZone(mintx, title, h).w == title.width - 12.0
    ensures MaskZone(mintx, title, h).y + MaskZone(mintx, title, h).h == h + title.height + 15.0
    ensures MaskZone(mintx, title, h).w >= title.width <==> mintx <= 0.0
    ensures MaskZone(mintx, title, h).h > h <==> title.height > -30.0
  {
  }
}
