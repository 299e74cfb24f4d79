# ColorBar legend geometry, in Dafny

This project models the `ColorBar` graphics item of `res.py`: a vertical
colour legend drawn beside an image plot. Its constructor takes a colour map,
a bar width and height, optional tick values, optional tick labels and an
optional title. It does five things:

- it rescales the colour map's stop positions onto [0,1];
- it picks default tick values when none are given;
- it records a picture: the gradient bar, then a mark and a label for each tick, then the title;
- it tracks `mintx`, the leftmost edge of any tick label box;
- it derives `zone`, the rectangle of a rounded backing mask.

`paint` draws the mask and then replays the recorded picture. All arithmetic
is over Dafny's exact `real`.

Files and modules:

- `wrappers.dfy`, module `Wrappers`: `Option`, for the arguments that default to `None`.
- `geometry.dfy`, module `Geometry`: the pure arithmetic. This covers the
  domain (`Min`, `Max`, `Ptp`), the affine rescaling (`Rescale`, `Normalize`)
  and its inverse (`UnscaleAll`),
  numpy's `linspace` and the default ticks, the tick row `TickY` and the mask
  rectangle `MaskZone`.
- `legend.dfy`, module `Legend`: the rest of the item.
  - The draw commands (`DrawCmd`).
  - The constructor's two loops, as methods proved against specification
    functions: `GradientStops` for the `setColorAt` loop and `LayoutTicks` for
    the tick loop with its `mintx` accumulator.
  - The specification of the whole constructor, `LegendLayout`.
  - The class `ColorBar`, which stores `pic` and `zone`.
  - A recording `Canvas` that `Paint` draws on.

Choices the model makes:

- Text metrics are the function parameter `measure: string -> Box`. It gives
  the box that `p.boundingRect(0, 0, 0, 0, AlignRight, text)` would return,
  as its left edge, width and height.
- The `"%0.2g"` formatter is the parameter `format: real -> string`.
- `tick_labels or [...]` synthesises labels when the labels are `None` or
  empty (`NoLabels`).
- `label or ''` gives the empty title when the title is absent (`TitleText`).
- Both loops run over `zip`, so they stop at the shorter sequence (`ZipLen`).

Notes on what the code does:

- **Default ticks.** `np.r_[0.0:1.0:5j, 1.0]` gives the fractions 0, ¼, ½,
  ¾, 1 and then 1 again, not six evenly spaced values. For the script's map
  in `res.py:66` the ticks are −1, −0.5, 0, 0.5, 1, 1, so the top tick is
  drawn twice (`DefaultTicksValues`, `ScriptLegend`).
- **Orientation.** The minimum stop is normalised to 0 and the maximum to 1.
  Each colour is then set at `1 - s`, so the maximum is at the top of the
  gradient (`GradientOrientation`).
- **Degenerate domain.** There is no check for a map whose stops are all
  equal: numpy would divide by zero. The model therefore requires a
  positive span.
- **Mask coverage.** The mask does not use the bar width. Its right edge is
  at the title width minus 12, so it reaches the bar's right edge only when
  the title box is at least 12 pixels wider than the bar (`MaskPlacement`).
  With no title, Qt measures the empty string as an empty box, so the right
  edge is at −12, left of the bar. The model does not constrain `measure`,
  so this last step is Qt's behaviour rather than a proved fact.

## Model

| member | source | states |
|---|---|---|
| `Geometry.Min` | res.py:13 | `stops.min()`: the result is one of the stops and no stop is smaller |
| `Geometry.Max` | res.py:13 | the maximum used by `ptp`: the result is one of the stops and no stop is larger |
| `Geometry.Ptp` | res.py:13 | `spp = stops.ptp()` is non-negative, and zero exactly when all stops are equal |
| `Geometry.RescaleInverse` | res.py:13-14 | scaling a rescaled value by `spp` and adding `smn` gives back the value |
| `Geometry.RescaleMonotone` | res.py:14 | the rescaling `(x - smn)/spp` keeps order, both strict and non-strict, in both directions |
| `Geometry.RescaleDomain` | res.py:14 | a value lies in `[smn, smn+spp]` iff its rescaled value lies in [0,1]; only `smn` goes to 0 and only `smn+spp` goes to 1 |
| `Geometry.Normalize` | res.py:14 | every normalised stop is in [0,1]; a stop goes to 0 iff it is the minimum and to 1 iff it is the maximum; the length is kept |
| `Geometry.RescaleAllInverse` | res.py:14 | rescaling every element of a sequence and then scaling it back by `spp` and shifting it by `smn` gives back the sequence |
| `Geometry.NormalizeInverse` | res.py:13-14 | scaling the normalised stops by `stops.ptp()` and shifting them by `stops.min()` gives back the raw stops |
| `Geometry.NormalizeMonotone` | res.py:14 | normalisation keeps the order of any two stops, both strict and non-strict, in both directions |
| `Geometry.LinSpaceShape` | res.py:16 | `linspace(start, stop, num)` starts at `start`, ends at `stop`, and consecutive points are `(stop-start)/(num-1)` apart |
| `Geometry.DefaultFractionsValues` | res.py:16 | `np.r_[0.0:1.0:5j, 1.0]` is exactly `[0, 0.25, 0.5, 0.75, 1, 1]` |
| `Geometry.DefaultTicksValues` | res.py:15-16 | there are six default ticks, `smn + spp*[0, 1/4, 1/2, 3/4, 1, 1]`; with `spp >= 0` they lie in the domain and do not decrease; the last two are equal |
| `Geometry.TickYEndpoints` | res.py:34 | `t = smn` is drawn at row `h` and `t = smn + spp` at row 0 |
| `Geometry.TickYStrictlyDecreasing` | res.py:34 | for `h > 0`, `t1 < t2` iff the row of `t1` is strictly below (greater than) the row of `t2` |
| `Geometry.TickYInBar` | res.py:34 | for `h > 0`, a tick's row is in `[0, h]` iff its value is in `[smn, smn+spp]` |
| `Geometry.RescaleFraction` | res.py:16 | a tick placed at fraction `f` of the domain (`f*spp + smn`) rescales back to `f` |
| `Geometry.DefaultTickRows` | res.py:16-34 | the six default ticks are drawn at rows `h, 3h/4, h/2, h/4, 0, 0` |
| `Geometry.MaskZoneEdges` | res.py:46 | the zone's left, top, right and bottom edges; its width is at least the title's iff `mintx <= 0`; its height exceeds `h` iff the title height is above −30 |
| `Legend.GradientStops` | res.py:25-27 | the `setColorAt` loop gives one gradient stop per pair of `zip(stops, colors)`: stop `s` is placed at `1 - s` with its own colour, in map order |
| `Legend.GradientOrientation` | res.py:14-27 | on the normalised gradient every position is in [0,1]; the maximum stop is at 0 (top) and the minimum at 1 (bottom); a larger stop sits strictly higher; colours stay with their stops |
| `Legend.DrawnTicks` | res.py:17-33 | labels are synthesised only when they are missing or empty, one formatted value per tick, and then all ticks are drawn; otherwise the given labels are used and `min(len(ticks), len(labels))` ticks are drawn |
| `Legend.TickCommandsLength` | res.py:33-39 | the tick loop issues two commands per pair that `zip(ticks, tick_labels)` produces |
| `Legend.TickCommandsAt` | res.py:33-39 | the k-th drawn tick issues the line `(0,y)`–`(-5,y)` and then its label at `(br.x - 10, y + br.height/4)`, at positions 2k and 2k+1 |
| `Legend.LeftExtent` | res.py:32-38 | `mintx` is at most 0 and at most every drawn label box's left edge, and it equals 0 or one of those edges |
| `Legend.TickCommandsStep` | res.py:33-39 | drawing the first i + 1 pairs issues the commands of the first i and then the mark and label of pair i |
| `Legend.TickCommandsZip` | res.py:33 | the commands for the whole tick and label sequences are those of the prefixes `zip` pairs up |
| `Legend.LeftExtentStep` | res.py:37-38 | `mintx` after label i is the `mintx` before it, lowered to label i's box edge when that edge is further left |
| `Legend.LeftExtentPrefix` | res.py:32-38 | over the drawn labels, `mintx` is at most every box's left edge and equals 0 or one of those edges |
| `Legend.LayoutTicks` | res.py:32-39 | the tick loop's command list equals `TickCommands` and its final `mintx` equals `LeftExtent` of the drawn labels, which gives the bounds above |
| `Legend.PictureShape` | res.py:20-42 | the recorded picture has `2n + 2` commands: the gradient bar `(0,0,w,h)` with its gradient from `(w/2,0)` to `(w/2,h)`, then a mark and a label per drawn tick in tick order, then the title at `(-titleW/2, h + titleH + 5)` |
| `Legend.MaskPlacement` | res.py:36-46 | the zone starts at least 12 px left of the bar and 2 px left of every drawn label's text; its top is 15 px above the bar and its bottom 10 px below the title baseline; its width is at least the title's; it reaches the bar's right edge iff `titleW >= w + 12` |
| `Legend.ScriptDomain` | res.py:66 | the script's stops −1, −0.5, 0.5, 1 have minimum −1, maximum 1 and span 2 |
| `Legend.ScriptLegend` | res.py:66-76 | the script's legend (stops −1, −0.5, 0.5, 1; bar 20×200; no ticks or labels) has domain minimum −1 and span 2, and draws ticks −1, −0.5, 0, 0.5, 1, 1 as 14 commands, with marks on rows 200, 150, 100, 50, 0, 0 |
| `Legend.ColorBar.constructor` | res.py:6-46 | the stored `pic` and `zone` are those of `LegendLayout` for the same arguments |
| `Legend.ColorBar.Paint` | res.py:48-54 | the painter receives first the rounded rectangle `zone + (9, 9)`, then the recorded picture replayed in order, appended after what the painter already holds |

## Left out

- `Legend.TickPair`, `Legend.TitleCommand`, `Legend.MaskCommand`: the
  commands carry the exact coordinates the code computes. The QPainter calls
  at res.py:35, 39, 42 and 52 reach integer-only overloads
  (`drawLine(int, int, int, int)`, `drawText(int, int, QString)`,
  `drawRoundedRect(int, int, int, int, qreal, qreal)`). Older bindings
  truncate those floats toward zero, and newer ones refuse them. Neither the
  truncation nor the refusal is modelled.
- Qt painter state is not modelled: pens, brushes, the translucent mask
  colours and the invisible mask border (res.py:24, 28, 50-51). The commands
  carry only geometry, plus the gradient that fills the bar.
- The `255*c` colour scaling into `QColor` is left out (res.py:27). Colours
  pass through unchanged.
- How Qt stores gradient stops is left out. `QGradient::setColorAt` keeps its
  stops sorted and replaces a stop at an equal position. The model keeps the
  calls in the order they are made.
- Text metrics (`p.boundingRect`, res.py:36 and 41) come from the host font.
  They are the parameter `measure`.
- `"%0.2g"` formatting (res.py:17) is C-style float formatting. It is the
  parameter `format`.
- `ColorBar.boundingRect` (res.py:56-57) is left out. It depends only on
  Qt's bounds of the recorded picture.
- Floating point is not modelled. An empty stop array, where numpy's `min`
  raises, and equal stops, where numpy yields nan/inf, are outside the
  model: the constructor requires at least one stop and a positive span.
- Falsy values other than `None`, `""` and an empty list are not modelled,
  for example a numpy array given as `tick_labels`, whose truth value numpy
  refuses. Labels are a sequence; the title is an optional string.
- The module-level script (res.py:59-114) is left out: the application and
  window, random data, `gaussianFilter`, the lookup table, scene placement
  and the event loop. Only its colour-map stops and bar size appear, in
  `ScriptLegend`.
