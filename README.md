# Temperature gauge — a verified model

A desktop widget that draws an analog temperature gauge. A temperature in
[0, 100] °C is mapped linearly onto an angle θ from 180° to 360°. The ticks
and the needle are placed at `(cx + r·cos θ, cy + r·sin θ)`. The canvas y axis
points down, so they sweep the upper half of the dial circle, clockwise on the
screen from 9 o'clock to 3 o'clock. The gauge has labelled ticks every 20 °C
from 0 to 100 °C and a needle coloured cold, normal or hot. The outline arc is
drawn on the lower half (see "## Findings"). The user types a
temperature. The number is stored and the gauge redrawn only if it lies in
[0, 100]. Otherwise an error message replaces the gauge.

This project models the logic under the drawing code (`Temp_gauge.py`):

- the constants;
- the linear map from a temperature to a dial angle;
- the tick enumeration `range(MIN_VALUE, MAX_VALUE + 1, TICK_INTERVAL)` and its loop;
- the three-way needle colour rule;
- the proportional layout (centre, radius, needle reach);
- the validate-then-apply update of the one stored temperature.

Files:

- `wrappers.dfy` — `Option`, the result of parsing the entry box.
- `temp_gauge.dfy` — module `TempGauge`. It holds the pure functions and lemmas,
  the tick loop `DrawTicks`, and class `GaugeApp`. `GaugeApp` has the `value`
  field, the `DrawGauge` method and the `UpdateValue` method.

The canvas size comes from `winfo_width`/`winfo_height`; here it is a pair of
integer parameters. Parsing the text with `float(...)` becomes an
`Option<real>` input: `None` is a failed parse. Temperatures and angles are
`real`. What is drawn is described by a value: a `Scene` (layout, outline arc, ticks with
their angles, needle angle, needle colour) or an `Error` display (position,
text, colour).

## Model

| member | source | states |
|---|---|---|
| `TempGauge.Angle` | Temp_gauge.py:126 | MIN_VALUE maps to the sweep start 180° and MAX_VALUE to the sweep end 360°. A temperature lies in [0, 100] if and only if its angle lies in [180°, 360°] |
| `TempGauge.AngleStrictlyIncreasing` | Temp_gauge.py:142 | The needle angle strictly increases with the temperature |
| `TempGauge.AngleRoundTrip` | Temp_gauge.py:142 | The angle map is a bijection: reading the dial back gives the temperature, and mapping a read-back temperature gives the angle |
| `TempGauge.Range` | Temp_gauge.py:125 | Python's `range(start, stop, step)` for a positive step. Element i is `start + i*step` and lies below `stop`, and one more step would reach `stop`. Together these fix the sequence exactly |
| `TempGauge.RangeStep` | Temp_gauge.py:125 | A non-empty range is its start followed by the range one step further on |
| `TempGauge.TickValues` | Temp_gauge.py:125 | The tick values start at MIN_VALUE, go up in steps of TICK_INTERVAL and never exceed MAX_VALUE |
| `TempGauge.TickValuesExact` | Temp_gauge.py:125 | The tick values are exactly 0, 20, 40, 60, 80, 100: ascending, with both MIN_VALUE and MAX_VALUE included |
| `TempGauge.TickAt` | Temp_gauge.py:125-126 | A tick carries its own temperature as label. Its angle lies in [180°, 360°] if and only if the temperature lies in [0, 100] |
| `TempGauge.DrawTicks` | Temp_gauge.py:125-139 | The tick loop draws one tick per value of the range, in order, each at the angle of its value |
| `TempGauge.TicksExact` | Temp_gauge.py:125-126 | The ticks drawn are (0, 180°), (20, 216°), (40, 252°), (60, 288°), (80, 324°) and (100, 360°) |
| `TempGauge.Classify` | Temp_gauge.py:147-153 | The colour rule is a partition: cold iff v < 20, hot iff v > 30, normal iff 20 ≤ v ≤ 30 (both bounds normal) |
| `TempGauge.ClassifyMonotone` | Temp_gauge.py:147-153 | A warmer temperature never gets a colder colour class |
| `TempGauge.ColourCode` | Temp_gauge.py:46-48 | Each colour class has its own seven-character `#rrggbb` colour |
| `TempGauge.ColourCodesDistinct` | Temp_gauge.py:46-48 | The three needle colours are pairwise different |
| `TempGauge.GaugeLayout` | Temp_gauge.py:103-105 | Centre x is half the width and centre y is 0.65 of the height. Three radii equal the smaller canvas side. The needle reach, radius − 25 (lines 144-145), is 25 short of the radius |
| `TempGauge.Normalize` | Temp_gauge.py:117-122 | A direction is brought into [0°, 360°) by whole turns, as Tk reads the start of an arc |
| `TempGauge.OnArc` | Temp_gauge.py:117-122 | For an extent between −360° and 360°, a direction lies on an arc as Tk draws it iff its offset from `start`, taken modulo 360° in the arc's own sense of rotation (counter-clockwise for a positive extent, clockwise for a negative one), is at most the size of the extent. So an extent of ±360° covers every direction; offsets from 0 up to the extent are on the arc, and those past its end but short of a full turn are off it |
| `TempGauge.ClockwiseArcReversed` | Temp_gauge.py:117-122 | An arc with a negative extent covers the same directions as the arc of the same size drawn counter-clockwise from its far end |
| `TempGauge.ScreenDirection` | Temp_gauge.py:129-132 | The point at angle θ of the tick and needle formulas lies in Tk direction 360° − θ for θ in [180°, 360°]: the upper half, from 9 o'clock (180°) through 12 o'clock (90°) to 3 o'clock (0°) |
| `TempGauge.NeedleOffArcAsWritten` | Temp_gauge.py:117-145 | With the arc as written (start 180°, extent 180°), the needle of an in-range temperature lies on the arc if and only if the temperature is 0 or 100 |
| `TempGauge.HalfwayNeedleOffArcAsWritten` | Temp_gauge.py:142-145 | At 50 °C the needle points straight up (Tk direction 90°), which is off the arc as written |
| `TempGauge.SweepOnIntendedArc` | Temp_gauge.py:117-145 | Every angle of the sweep [180°, 360°] lies on the intended arc (start 0°, extent 180°), so every tick and the needle of every in-range temperature do |
| `TempGauge.TicksOffArcAsWritten` | Temp_gauge.py:117-139 | With the arc as written, of the six ticks only the first (0 °C) and the last (100 °C) lie on the arc |
| `TempGauge.TicksOnIntendedArc` | Temp_gauge.py:117-139 | With the intended arc, all six ticks lie on the arc |
| `TempGauge.GaugeFitsCanvas` | Temp_gauge.py:103-122 | In a canvas of positive size the whole dial circle lies strictly inside the canvas |
| `TempGauge.LayoutScales` | Temp_gauge.py:93-105 | Resizing the canvas by a factor k scales the centre and the radius by k. The needle angle and colour do not depend on the canvas size (see `DrawGauge`) |
| `TempGauge.MinScales` | Temp_gauge.py:105 | `min(k*w, k*h) = k*min(w, h)` for k ≥ 0 |
| `TempGauge.Validate` | Temp_gauge.py:172-174 | A parsed number is accepted if and only if 0 ≤ v ≤ 100, endpoints included. A failed parse is rejected. An accepted number is passed on unchanged |
| `TempGauge.NextValue` | Temp_gauge.py:172-175 | An accepted number becomes the stored temperature. On rejection the stored temperature stays as it was. A stored temperature in [0, 100] stays in [0, 100] |
| `TempGauge.UpdateExamples` | Temp_gauge.py:148-175 | "25" is stored, normal, at 225°. "100" is stored, hot, at 360°. "0" is stored. "-5" and a non-number leave the temperature unchanged |
| `TempGauge.ValueAfterStaysInRange` | Temp_gauge.py:55-175 | Starting in [0, 100] (the initial 25 °C, line 55), the stored temperature stays in [0, 100] after any sequence of updates, because only a number passing the range check (lines 173-175) is stored |
| `TempGauge.ValueAfterIsStartOrInput` | Temp_gauge.py:172-175 | After any sequence of updates, the stored temperature is the starting one or one of the accepted inputs |
| `TempGauge.GaugeApp.constructor` | Temp_gauge.py:55 | The app starts at 25 °C, inside the range |
| `TempGauge.GaugeApp.DrawGauge` | Temp_gauge.py:97-167 | The scene drawn has the layout of the canvas, the arc, and the six ticks. The needle is at the angle of the stored temperature and has its colour class. The arc is the one the source draws (start 180°, extent 180°). For an in-range temperature the needle lies on that arc iff the temperature is 0 or 100, and of the ticks only the first and the last lie on it (see "## Findings") |
| `TempGauge.GaugeApp.UpdateValue` | Temp_gauge.py:169-185 | The new temperature is `NextValue` of the old one, so the range invariant is kept. The gauge is redrawn iff the input is accepted. Otherwise the temperature is unchanged, and the display is the message "Enter a number between 0–100!" at the canvas centre, in the hot colour |

## Left out

- Window and widget construction, packing, fonts, the `<Configure>` binding and `mainloop` (Temp_gauge.py:52-91, 189-193). These are toolkit plumbing. `on_resize` only calls `draw_gauge`, so it has no member of its own. The initial draw in `__init__` is left out too.
- The canvas calls (`create_oval`, `create_arc`, `create_line`, `create_text`, `delete("all")`). They are foreign drawing calls. A drawn gauge is described by `Scene`, and the error screen by `Display.Error`. The shadow ring, pivot circle, stroke widths and fill colours are not modelled.
- Tick, label and needle coordinates (Temp_gauge.py:127-132, 143-145). These need floating-point `cos`, `sin` and `radians`. The model stops at the angle in degrees and the needle reach. `ScreenDirection` records, as a definition, that a point at `(cx + r·cos θ, cy + r·sin θ)` with y pointing down lies in Tk direction −θ; this is not derived from `cos` and `sin`.
- GaugeLayout: the needle reach `radius − 25` is negative when min(width, height) < 75. The source then draws the needle from the centre through the pivot in the opposite direction (Temp_gauge.py:144-145). The model does not describe this case.
- Parsing the entry text with `float(...)` (Temp_gauge.py:172). This is Python's float parser, replaced by an `Option<real>` input.
- IEEE floating point: rounding, `inf` and NaN. The model works over exact reals, and 0.65 is exact in the model. In the source it is the nearest double, so `center_y` is rounded. In the source `float("nan")` passes the range check at Temp_gauge.py:173, because every comparison with NaN is false, so NaN would be stored. The range invariant proved here holds only for real-valued parses.
- The readout text `f"{self.value:.1f} °C"` (Temp_gauge.py:166). This is float formatting. Its colour is the needle colour, which `Scene` carries.
- OnArc: extents beyond ±360°, which Tk reduces modulo 360°, are not modelled, and `OnArc` requires an extent within ±360°. The source draws only extent 180° (Temp_gauge.py:120).
- Range: only a positive step is modelled. That is the only kind the gauge uses; Python's `range` also accepts negative steps.

## Findings

| source | as written | input that shows it | evidently intended | confidence | as-written member | corrected member |
|---|---|---|---|---|---|---|
| Temp_gauge.py:117-122 | `create_arc(start=180, extent=180)` draws the outline counter-clockwise on the screen from 9 o'clock, so it covers the lower half of the circle. The ticks and the needle (lines 125-145) are placed on the upper half | 50 °C: the needle points straight up (Tk direction 90°), while the arc runs through 6 o'clock | The arc on the same half as the ticks and the needle: start 0, extent 180. The centre at 0.65 of the height and the readout 40 pixels below the centre leave the room above the centre for the dial | medium, not executed | `TempGauge.NeedleOffArcAsWritten` | `TempGauge.SweepOnIntendedArc` |

`GaugeApp.DrawGauge` draws the arc as written (`ArcAsWritten`), and its contract states which ticks and needle positions fall off it (`TicksOffArcAsWritten`, `NeedleOffArcAsWritten`). The corrected arc is `ArcIntended`; `SweepOnIntendedArc` and `TicksOnIntendedArc` prove that every tick and every in-range needle lies on it.
