/**
  The colour bar legend: what its constructor records into the cached
  picture (bar, ticks, labels, title), the backing mask rectangle it derives,
  and the order in which painting replays them.  Text metrics and number
  formatting belong to the host toolkit and come in as functions.
 */
module Legend {
  import opened Wrappers
  import opened Geometry

  /** An RGBA colour as the colour map reports it; it is passed to the gradient unchanged. */
  datatype Color = Color(r: real, g: real, b: real, a: real)

  /** The stops of a colour map: positions in domain units and their colours, in the map's order. */
  datatype ColorMap = ColorMap(stops: seq<real>, colors: seq<Color>)

  /** One colour set on the gradient at a fraction of its length. */
  datatype GradientStop = GradientStop(pos: real, color: Color)

  /** A linear gradient from (x1, y1) to (x2, y2) through its stops. */
  datatype Gradient = Gradient(x1: real, y1: real, x2: real, y2: real, stops: seq<GradientStop>)

  /** The drawing primitives the legend issues to a painter. */
  datatype DrawCmd =
    | FillRect(x: real, y: real, w: real, h: real, brush: Gradient)
    | Line(x1: real, y1: real, x2: real, y2: real)
    | Text(x: real, y: real, text: string)
    | RoundedRect(x: real, y: real, w: real, h: real, rx: real, ry: real)

  /** The number of pairs `zip(a, b)` produces: the shorter length. */
  function ZipLen<A, B>(a: seq<A>, b: seq<B>): (n: nat)
    ensures n <= |a| && n <= |b|
    ensures n == |a| || n == |b|
  {
    if |a| <= |b| then |a| else |b|
  }

  // ---------------------------------------------------------------- gradient

  /** The gradient's stops: each normalised stop `s` at fraction `1 - s`, with its colour, paired as `zip` pairs. */
  function GradientOf(norm: seq<real>, colors: seq<Color>): seq<GradientStop>
  {
    var n := ZipLen(norm, colors);
    seq(n, i requires 0 <= i < n => GradientStop(1.0 - norm[i], colors[i]))
  }

  /** The loop that sets one gradient colour per (stop, colour) pair, in the map's order. */
  method GradientStops(norm: seq<real>, colors: seq<Color>) returns (g: seq<GradientStop>)
    ensures |g| == ZipLen(norm, colors)
    ensures forall i :: 0 <= i < |g| ==> g[i] == GradientStop(1.0 - norm[i], colors[i])
    ensures g == GradientOf(norm, colors)
  {
    var n := ZipLen(norm, colors);
    g := [];
    var i := 0;
    while i < n
      invariant 0 <= i <= n
      invariant |g| == i
      invariant forall k :: 0 <= k < i ==> g[k] == GradientStop(1.0 - norm[k], colors[k])
    {
      g := g + [GradientStop(1.0 - norm[i], colors[i])];
      i := i + 1;
    }
  }

  /**
    On the gradient of a colour map with a positive span every stop sits in
    [0,1]; the maximum stop sits at fraction 0 (the top), the minimum at
    fraction 1 (the bottom), and a larger stop sits strictly higher.  Colours
    keep their stops' order.
   */
  lemma GradientOrientation(cmap: ColorMap, i: nat, j: nat)
    requires |cmap.stops| > 0 && Ptp(cmap.stops) > 0.0
    requires i < ZipLen(cmap.stops, cmap.colors) && j < ZipLen(cmap.stops, cmap.colors)
    ensures |GradientOf(Normalize(cmap.stops), cmap.colors)| == ZipLen(cmap.stops, cmap.colors)
    ensures 0.0 <= GradientOf(Normalize(cmap.stops), cmap.colors)[i].pos <= 1.0
    ensures GradientOf(Normalize(cmap.stops), cmap.colors)[i].pos == 0.0 <==> cmap.stops[i] == Max(cmap.stops)
    ensures GradientOf(Normalize(cmap.stops), cmap.colors)[i].pos == 1.0 <==> cmap.stops[i] == Min(cmap.stops)
    ensures GradientOf(Normalize(cmap.stops), cmap.colors)[i].color == cmap.colors[i]
    ensures cmap.stops[i] < cmap.stops[j]
            <==> GradientOf(Normalize(cmap.stops), cmap.colors)[i].pos > GradientOf(Normalize(cmap.stops), cmap.colors)[j].pos
  {
    var norm := Normalize(cmap.stops);
    var g := GradientOf(norm, cmap.colors);
    assert g[i] == GradientStop(1.0 - norm[i], cmap.colors[i]);
    assert g[j] == GradientStop(1.0 - norm[j], cmap.colors[j]);
    NormalizeMonotone(cmap.stops, i, j);
  }

  // ---------------------------------------------------------------- ticks and labels

  /** The tick values: the caller's when given, else the six defaults over the domain. */
  function TickValues(ticks: Option<seq<real>>, smn: real, spp: real): seq<real>
  {
    match ticks
    case None => DefaultTicks(smn, spp)
    case Some(t) => t
  }

  /** Whether the caller's labels count as missing: absent or empty. */
  predicate NoLabels(labels: Option<seq<string>>)
  {
    labels.None? || labels.value == []
  }

  /** The tick labels: the caller's unless missing, else one formatted value per tick. */
  function TickLabels(labels: Option<seq<string>>, ticks: seq<real>, format: real -> string): seq<string>
  {
    if NoLabels(labels) then seq(|ticks|, i requires 0 <= i < |ticks| => format(ticks[i]))
    else labels.value
  }

  /** The title, the empty string when absent. */
  function TitleText(caption: Option<string>): string
  {
    match caption
    case None => ""
    case Some(s) => s
  }

  /**
    Labels are synthesised only when the caller's are missing, then one per
    tick and each the formatted tick value, so every tick is drawn; otherwise
    the caller's labels are used as given and `zip` draws as many ticks as the
    shorter of the two sequences.
   */
  lemma DrawnTicks(labels: Option<seq<string>>, ticks: seq<real>, format: real -> string)
    ensures NoLabels(labels) ==> ZipLen(ticks, TickLabels(labels, ticks, format)) == |ticks|
    ensures NoLabels(labels) ==> forall k :: 0 <= k < |ticks| ==> TickLabels(labels, ticks, format)[k] == format(ticks[k])
    ensures !NoLabels(labels) ==> TickLabels(labels, ticks, format) == labels.value
    ensures !NoLabels(labels) ==> ZipLen(ticks, TickLabels(labels, ticks, format))
                                  == if |ticks| <= |labels.value| then |ticks| else |labels.value|
  {
  }

  /** The two commands of one tick: its mark from the bar's left edge 5 pixels outward, then its label left of the mark. */
  function TickPair(tick: real, text: string, smn: real, spp: real, h: real, measure: string -> Box): seq<DrawCmd>
    requires spp > 0.0
  {
    var y := TickY(tick, smn, spp, h);
    var br := measure(text);
    [Line(0.0, y, -5.0, y), Text(br.x - 10.0, y + br.height / 4.0, text)]
  }

  /** The commands for all ticks drawn, in tick order, over the pairs `zip(ticks, labels)` produces. */
  function TickCommands(ticks: seq<real>, labels: seq<string>, smn: real, spp: real, h: real, measure: string -> Box): seq<DrawCmd>
    requires spp > 0.0
    decreases |ticks|
  {
    var n := ZipLen(ticks, labels);
    if n == 0 then []
    else
      TickCommands(ticks[..n - 1], labels[..n - 1], smn, spp, h, measure)
      + TickPair(ticks[n - 1], labels[n - 1], smn, spp, h, measure)
  }

  /** Two commands per drawn tick. */
  lemma {:induction false} TickCommandsLength(ticks: seq<real>, labels: seq<string>, smn: real, spp: real, h: real, measure: string -> Box)
    requires spp > 0.0
    ensures |TickCommands(ticks, labels, smn, spp, h, measure)| == 2 * ZipLen(ticks, labels)
    decreases |ticks|
  {
    var n := ZipLen(ticks, labels);
    if n > 0 {
      TickCommandsLength(ticks[..n - 1], labels[..n - 1], smn, spp, h, measure);
    }
  }

  /**
    The k-th drawn tick contributes, at positions 2k and 2k+1, a line from
    (0, y) to (-5, y) and then its label at (br.x - 10, y + br.height / 4),
    where y is the tick's row and br the label's text box.
   */
  lemma {:induction false} TickCommandsAt(ticks: seq<real>, labels: seq<string>, smn: real, spp: real, h: real, measure: string -> Box, k: nat)
    requires spp > 0.0
    requires k < ZipLen(ticks, labels)
    ensures |TickCommands(ticks, labels, smn, spp, h, measure)| == 2 * ZipLen(ticks, labels)
    ensures TickCommands(ticks, labels, smn, spp, h, measure)[2 * k]
            == Line(0.0, TickY(ticks[k], smn, spp, h), -5.0, TickY(ticks[k], smn, spp, h))
    ensures TickCommands(ticks, labels, smn, spp, h, measure)[2 * k + 1]
            == Text(measure(labels[k]).x - 10.0, TickY(ticks[k], smn, spp, h) + measure(labels[k]).height / 4.0, labels[k])
    decreases |ticks|
  {
    var n := ZipLen(ticks, labels);
    TickCommandsLength(ticks, labels, smn, spp, h, measure);
    TickCommandsLength(ticks[..n - 1], labels[..n - 1], smn, spp, h, measure);
    var prefix := TickCommands(ticks[..n - 1], labels[..n - 1], smn, spp, h, measure);
    assert TickCommands(ticks, labels, smn, spp, h, measure)
           == prefix + TickPair(ticks[n - 1], labels[n - 1], smn, spp, h, measure);
    if k < n - 1 {
      TickCommandsAt(ticks[..n - 1], labels[..n - 1], smn, spp, h, measure, k);
    }
  }

  /**
    The leftmost extent of the label boxes, starting from 0 and lowered to any
    box whose left edge is further left, in label order.
   */
  function LeftExtent(labels: seq<string>, measure: string -> Box): (m: real)
    ensures m <= 0.0
    ensures forall i :: 0 <= i < |labels| ==> m <= measure(labels[i]).x
    ensures m == 0.0 || exists i :: 0 <= i < |labels| && m == measure(labels[i]).x
    decreases |labels|
  {
    if |labels| == 0 then 0.0
    else
      var m := LeftExtent(labels[..|labels| - 1], measure);
      var x := measure(labels[|labels| - 1]).x;
      if x < m then x else m
  }

  /** The bounds of `LeftExtent` on a prefix, stated over the labels of the whole sequence. */
  lemma LeftExtentPrefix(labels: seq<string>, measure: string -> Box, n: nat)
    requires n <= |labels|
    ensures forall i :: 0 <= i < n ==> LeftExtent(labels[..n], measure) <= measure(labels[i]).x
    ensures LeftExtent(labels[..n], measure) == 0.0
            || exists i :: 0 <= i < n && LeftExtent(labels[..n], measure) == measure(labels[i]).x
  {
    var drawn := labels[..n];
    assert forall k :: 0 <= k < n ==> drawn[k] == labels[k];
  }

  /** Drawing the first i + 1 ticks is drawing the first i and then the pair of tick i. */
  lemma TickCommandsStep(ticks: seq<real>, labels: seq<string>, smn: real, spp: real, h: real, measure: string -> Box, i: nat)
    requires spp > 0.0
    requires i < ZipLen(ticks, labels)
    ensures TickCommands(ticks[..i + 1], labels[..i + 1], smn, spp, h, measure)
            == TickCommands(ticks[..i], labels[..i], smn, spp, h, measure) + TickPair(ticks[i], labels[i], smn, spp, h, measure)
  {
    assert ticks[..i + 1][..i] == ticks[..i];
    assert labels[..i + 1][..i] == labels[..i];
  }

  /** Only the pairs `zip` produces are drawn: the commands of the whole sequences are those of their common prefix. */
  lemma TickCommandsZip(ticks: seq<real>, labels: seq<string>, smn: real, spp: real, h: real, measure: string -> Box)
    requires spp > 0.0
    ensures TickCommands(ticks, labels, smn, spp, h, measure)
            == TickCommands(ticks[..ZipLen(ticks, labels)], labels[..ZipLen(ticks, labels)], smn, spp, h, measure)
  {
    var n := ZipLen(ticks, labels);
    if n > 0 {
      assert ticks[..n][..n - 1] == ticks[..n - 1];
      assert labels[..n][..n - 1] == labels[..n - 1];
    }
  }

  /** The leftmost extent of the first i + 1 labels is that of the first i, lowered to label i's box if it is further left. */
  lemma LeftExtentStep(labels: seq<string>, measure: string -> Box, i: nat)
    requires i < |labels|
    ensures LeftExtent(labels[..i + 1], measure)
            == if measure(labels[i]).x < LeftExtent(labels[..i], measure) then measure(labels[i]).x else LeftExtent(labels[..i], measure)
  {
    assert labels[..i + 1][..i] == labels[..i];
  }

  /**
    The tick loop of the constructor: per drawn tick its mark and its label,
    in order, while `mintx` follows the leftmost label box.
   */
  method LayoutTicks(ticks: seq<real>, labels: seq<string>, smn: real, spp: real, h: real, measure: string -> Box)
    returns (cmds: seq<DrawCmd>, mintx: real)
    requires spp > 0.0
    ensures cmds == TickCommands(ticks, labels, smn, spp, h, measure)
    ensures mintx == LeftExtent(labels[..ZipLen(ticks, labels)], measure)
    ensures mintx <= 0.0
    ensures forall i :: 0 <= i < ZipLen(ticks, labels) ==> mintx <= measure(labels[i]).x
    ensures mintx == 0.0 || exists i :: 0 <= i < ZipLen(ticks, labels) && mintx == measure(labels[i]).x
  {
    var n := ZipLen(ticks, labels);
    cmds, mintx := [], 0.0;
    var i := 0;
    while i < n
      invariant 0 <= i <= n
      invariant cmds == TickCommands(ticks[..i], labels[..i], smn, spp, h, measure)
      invariant mintx == LeftExtent(labels[..i], measure)
    {
      ghost var before := cmds;
      var y := TickY(ticks[i], smn, spp, h);
      cmds := cmds + [Line(0.0, y, -5.0, y)];
      var br := measure(labels[i]);
      if br.x < mintx {
        mintx := br.x;
      }
      cmds := cmds + [Text(br.x - 10.0, y + br.height / 4.0, labels[i])];
      assert cmds == before + TickPair(ticks[i], labels[i], smn, spp, h, measure);
      TickCommandsStep(ticks, labels, smn, spp, h, measure, i);
      LeftExtentStep(labels, measure, i);
      i := i + 1;
    }
    TickCommandsZip(ticks, labels, smn, spp, h, measure);
    LeftExtentPrefix(labels, measure, n);
  }

  // ---------------------------------------------------------------- the whole legend

  /** The bar: the rectangle (0, 0, w, h) filled with the gradient running down its middle. */
  function BarCommand(w: real, h: real, stops: seq<GradientStop>): DrawCmd
  {
    FillRect(0.0, 0.0, w, h, Gradient(w / 2.0, 0.0, w / 2.0, h, stops))
  }

  /** The title, centred under the bar, its baseline its box height plus 5 pixels below the bar. */
  function TitleCommand(title: string, br: Box, h: real): DrawCmd
  {
    Text(-br.width / 2.0, h + br.height + 5.0, title)
  }

  /** The rounded backing panel: the mask rectangle with corner radii 9 by 9. */
  function MaskCommand(zone: Rect): DrawCmd
  {
    RoundedRect(zone.x, zone.y, zone.w, zone.h, 9.0, 9.0)
  }

  /** What the constructor derives: the recorded picture and the mask rectangle. */
  datatype Layout = Layout(pic: seq<DrawCmd>, zone: Rect)

  /** The picture and the mask of a legend, as the constructor computes them. */
  function LegendLayout(cmap: ColorMap, w: real, h: real, ticks: Option<seq<real>>, tickLabels: Option<seq<string>>,
                        caption: Option<string>, measure: string -> Box, format: real -> string): Layout
    requires |cmap.stops| > 0 && Ptp(cmap.stops) > 0.0
  {
    var smn, spp := Min(cmap.stops), Ptp(cmap.stops);
    var t := TickValues(ticks, smn, spp);
    var l := TickLabels(tickLabels, t, format);
    var title := TitleText(caption);
    var br := measure(title);
    Layout(
      [BarCommand(w, h, GradientOf(Normalize(cmap.stops), cmap.colors))]
      + TickCommands(t, l, smn, spp, h, measure)
      + [TitleCommand(title, br, h)],
      MaskZone(LeftExtent(l[..ZipLen(t, l)], measure), br, h))
  }

  /** A picture framed by one command before and one after: its inner commands sit one place later. */
  lemma FramedPicture(pic: seq<DrawCmd>, first: DrawCmd, cmds: seq<DrawCmd>, last: DrawCmd)
    requires pic == [first] + cmds + [last]
    ensures |pic| == |cmds| + 2 && pic[0] == first && pic[|pic| - 1] == last
    ensures forall j :: 0 <= j < |cmds| ==> pic[j + 1] == cmds[j]
  {
  }

  /**
    The recorded picture is the bar, then a mark and a label per drawn tick in
    tick order, then the title: 2n + 2 commands for n drawn ticks.
   */
  lemma PictureShape(cmap: ColorMap, w: real, h: real, ticks: Option<seq<real>>, tickLabels: Option<seq<string>>,
                     caption: Option<string>, measure: string -> Box, format: real -> string, k: nat)
    requires |cmap.stops| > 0 && Ptp(cmap.stops) > 0.0
    ensures var smn, spp := Min(cmap.stops), Ptp(cmap.stops);
            var t := TickValues(ticks, smn, spp);
            var l := TickLabels(tickLabels, t, format);
            var pic := LegendLayout(cmap, w, h, ticks, tickLabels, caption, measure, format).pic;
            && |pic| == 2 * ZipLen(t, l) + 2
            && pic[0] == FillRect(0.0, 0.0, w, h, Gradient(w / 2.0, 0.0, w / 2.0, h, GradientOf(Normalize(cmap.stops), cmap.colors)))
            && pic[|pic| - 1] == Text(-measure(TitleText(caption)).width / 2.0,
                                      h + measure(TitleText(caption)).height + 5.0, TitleText(caption))
            && (k < ZipLen(t, l) ==>
                  && pic[2 * k + 1] == Line(0.0, TickY(t[k], smn, spp, h), -5.0, TickY(t[k], smn, spp, h))
                  && pic[2 * k + 2] == Text(measure(l[k]).x - 10.0, TickY(t[k], smn, spp, h) + measure(l[k]).height / 4.0, l[k]))
  {
    var smn, spp := Min(cmap.stops), Ptp(cmap.stops);
    var t := TickValues(ticks, smn, spp);
    var l := TickLabels(tickLabels, t, format);
    var title := TitleText(caption);
    var cmds := TickCommands(t, l, smn, spp, h, measure);
    var pic := LegendLayout(cmap, w, h, ticks, tickLabels, caption, measure, format).pic;
    FramedPicture(pic, BarCommand(w, h, GradientOf(Normalize(cmap.stops), cmap.colors)), cmds,
                  TitleCommand(title, measure(title), h));
    TickCommandsLength(t, l, smn, spp, h, measure);
    if k < ZipLen(t, l) {
      TickCommandsAt(t, l, smn, spp, h, measure, k);
    }
  }

  /**
    Where the mask lies relative to what the picture draws: its left edge is at
    least 12 pixels left of the bar and 2 pixels left of where every drawn
    label starts, its top is 15 pixels above the bar, its bottom 10 pixels below
    the title's baseline, and its right edge reaches the bar's right edge
    exactly when the title box is at least 12 pixels wider than the bar.
   */
  lemma MaskPlacement(cmap: ColorMap, w: real, h: real, ticks: Option<seq<real>>, tickLabels: Option<seq<string>>,
                      caption: Option<string>, measure: string -> Box, format: real -> string, k: nat)
    requires |cmap.stops| > 0 && Ptp(cmap.stops) > 0.0
    ensures var t := TickValues(ticks, Min(cmap.stops), Ptp(cmap.stops));
            var l := TickLabels(tickLabels, t, format);
            var br := measure(TitleText(caption));
            var zone := LegendLayout(cmap, w, h, ticks, tickLabels, caption, measure, format).zone;
            && zone.x <= -12.0
            && (k < ZipLen(t, l) ==> zone.x <= (measure(l[k]).x - 10.0) - 2.0)
            && zone.y == -15.0
            && zone.y + zone.h == (h + br.height + 5.0) + 10.0
            && zone.w >= br.width
            && (zone.x + zone.w >= w <==> br.width >= w + 12.0)
  {
    var t := TickValues(ticks, Min(cmap.stops), Ptp(cmap.stops));
    var l := TickLabels(tickLabels, t, format);
    var n := ZipLen(t, l);
    MaskZoneEdges(LeftExtent(l[..n], measure), measure(TitleText(caption)), h);
    if k < n {
      assert l[..n][k] == l[k];
    }
  }

  /** The colour-map stops of the module's own script. */
  const ScriptStops: seq<real> := [-1.0, -0.5, 0.5, 1.0]

  /** The script's map spans [-1, 1]: minimum -1, maximum 1, span 2. */
  lemma ScriptDomain()
    ensures Min(ScriptStops) == -1.0 && Max(ScriptStops) == 1.0 && Ptp(ScriptStops) == 2.0
  {
    var s := ScriptStops;
    assert Min(s[3..]) == 1.0;
    assert Min(s[2..]) == 0.5;
    assert Min(s[1..]) == -0.5;
    assert Max(s[3..]) == 1.0;
    assert Max(s[2..]) == 1.0;
    assert Max(s[1..]) == 1.0;
  }

  /**
    The legend the module's own script builds: stops -1, -0.5, 0.5 and 1, a
    bar 20 by 200, no ticks and no labels given.  Its domain is [-1, 1], its
    ticks are -1, -0.5, 0, 0.5, 1 and 1 again, all six are drawn, and their
    marks sit on the rows 200, 150, 100, 50, 0 and 0.
   */
  lemma ScriptLegend(colors: seq<Color>, caption: Option<string>, measure: string -> Box, format: real -> string, k: nat)
    requires k < 6
    ensures var cmap := ColorMap(ScriptStops, colors);
            && Min(cmap.stops) == -1.0 && Ptp(cmap.stops) == 2.0
            && var t := TickValues(None, Min(cmap.stops), Ptp(cmap.stops));
               var pic := LegendLayout(cmap, 20.0, 200.0, None, None, caption, measure, format).pic;
               && t == [-1.0, -0.5, 0.0, 0.5, 1.0, 1.0]
               && |pic| == 14
               && pic[2 * k + 1] == Line(0.0, [200.0, 150.0, 100.0, 50.0, 0.0, 0.0][k], -5.0, [200.0, 150.0, 100.0, 50.0, 0.0, 0.0][k])
  {
    var cmap := ColorMap(ScriptStops, colors);
    ScriptDomain();
    var smn, spp := Min(cmap.stops), Ptp(cmap.stops);
    DefaultTicksValues(smn, spp);
    var t := TickValues(None, smn, spp);
    assert t == [-1.0, -0.5, 0.0, 0.5, 1.0, 1.0];
    DrawnTicks(None, t, format);
    PictureShape(cmap, 20.0, 200.0, None, None, caption, measure, format, k);
    DefaultTickRows(smn, spp, 200.0);
  }

  /** A painter that records the commands issued to it, in order. */
  class Canvas {
    var log: seq<DrawCmd>

    constructor ()
      ensures log == []
    {
      log := [];
    }
  }

  /** The legend item: its picture and mask are computed once, at construction, and only read afterwards. */
  class ColorBar {
    const pic: seq<DrawCmd>
    const zone: Rect

    constructor (cmap: ColorMap, width: real, height: real, ticks: Option<seq<real>>, tickLabels: Option<seq<string>>,
                 caption: Option<string>, measure: string -> Box, format: real -> string)
      requires |cmap.stops| > 0 && Ptp(cmap.stops) > 0.0
      ensures pic == LegendLayout(cmap, width, height, ticks, tickLabels, caption, measure, format).pic
      ensures zone == LegendLayout(cmap, width, height, ticks, tickLabels, caption, measure, format).zone
    {
      var title := TitleText(caption);
      var w, h := width, height;
      var smn, spp := Min(cmap.stops), Ptp(cmap.stops);
      var stops := Normalize(cmap.stops);
      var t := TickValues(ticks, smn, spp);
      var l := TickLabels(tickLabels, t, format);
      var grad := GradientStops(stops, cmap.colors);
      var tickCmds, mintx := LayoutTicks(t, l, smn, spp, h, measure);
      var br := measure(title);
      pic := [BarCommand(w, h, grad)] + tickCmds + [TitleCommand(title, br, h)];
      zone := MaskZone(mintx, br, h);
    }

    /** Paints the rounded mask first and then replays the recorded picture over it. */
    method Paint(canvas: Canvas)
      modifies canvas
      ensures canvas.log == old(canvas.log) + [MaskCommand(zone)] + pic
    {
      canvas.log := canvas.log + [MaskCommand(zone)];
      canvas.log := canvas.log + pic;
    }
  }
}
