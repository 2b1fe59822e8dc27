# tinyChart in Dafny

This project models the computational core of tinyChart's `Chart` class (tinyChart.js) and of the earlier version of that class in demo.js. tinyChart is a canvas line chart for time series. It maps `{time, value[]}` points to pixels, highlights the points near the pointer, zooms to a dragged band and resets. It also draws a grid, series paths, axis labels, a legend and an info box.

Every canvas and DOM effect becomes a pure value: a frame, a list of mapped points, segments, rectangles, path vertices and text anchors. The event handlers become functions from state to state.

## Modules

| file | module | what it holds |
|---|---|---|
| wrappers.dfy | `Wrappers` | `Option` |
| jsnumber.dfy | `JsNumber` | JavaScript's `~~` (ToInt32, section 7.1.6 of ECMA-262) on exact reals, and the guarded `~~(a * p / d)` every pixel mapping uses |
| decimal.dfy | `Decimal` | integer-to-decimal text, as JavaScript prints integers, with its parse-back |
| series.dfy | `Series` | raw points, the `delimiters` scaling, and the `minY`/`maxY` scan of `calcPoints` |
| mapping.dfy | `Mapping` | the frame (canvas size and margins), `calcPoints`, `calcY` and the hover flag |
| selection.dfy | `Selection` | `filterPoints` and the subsequence relation it preserves |
| chart.dfy | `Chart` | tinyChart's state, its handlers, `draw`, `resetPoints`, and the invariant of every reachable state |
| render.dfy | `Render` | grid, selector, series paths, zero line, highlights, markers, axis labels, legend, colour and label defaults |
| tooltip.dfy | `Tooltip` | the info box: rows sorted by value, its placement beside the pointer |
| dates.dfy | `Dates` | `formatDateTime` / `formatDate` on already-decomposed date fields |
| demo.dfy | `Demo` | the demo.js variant, and its data set as a worked example |

`~~x` is modelled exactly: truncation toward zero, then a 32-bit wrap. A division by zero gives NaN or ±Infinity in JavaScript, and `~~` sends those to 0. So `JsNumber.TruncDiv(n, 0.0)` is 0. This is why a single point, or a flat data set, collapses onto an edge instead of failing.

## Behaviour as coded

At these points the code does something a reader might not expect. The model follows the code:

- Only the bottom horizontal grid line and the leftmost vertical one are strong (width 1). All the others are faint (0.2).
- Hovering flags every point within 10 px of the pointer, so several points can be flagged at once. Each flagged point gets its own info box.
- Series colours are the user's colours, then the nine palette colours, then black. Nothing wraps around.
- When the time span or the value range is zero, every X or Y collapses onto the left inset or the bottom edge. Nothing fails.
- `minY` and `maxY` start from the raw, unscaled first value. With a delimiter on the first series, that raw value can widen the axis beyond every plotted value (`Series.RawStartWidensRange`).
- The zero line is drawn whenever zero maps above the bottom edge. This includes data that is entirely negative, where zero maps above the top of the plot.
- In tinyChart, a click without a drag does not turn zoom on. From an unzoomed chart it therefore shows all points again (`Chart.ClickKeepsFullView`). On a zoomed chart it narrows the view to the points in the clicked column, if there are any (`Chart.ClickNarrowsZoomedView`). In demo.js every mouse-up zooms.
- A canvas narrower than its margins and insets has a negative plot width. There X runs right to left: later points are drawn further left, down to the right inset (`Mapping.XNonincreasingOnNarrowPlot`, `Mapping.NarrowCanvasReversesX`). A height option under 95 px likewise turns the Y axis upside down (`Mapping.MappedYOnShortPlot`) and can draw a zero line for positive data (`Render.ZeroLineOnShortCanvas`).

## Model

| member | source | states |
|---|---|---|
| `JsNumber.Wrap32Range` | tinyChart.js:455 | `~~` results lie in [-2^31, 2^31), agree with the argument mod 2^32, and leave in-range integers alone |
| `JsNumber.TruncDivSmall` | tinyChart.js:455 | with a nonzero divisor and an in-range quotient, `~~(n / d)` is truncation toward zero |
| `JsNumber.ScaleBetween` | tinyChart.js:455 | `~~(a * p / d)` maps 0 <= a <= b <= d into 0 <= .. <= .. <= p, in order |
| `JsNumber.ScaleBetweenReversed` | tinyChart.js:455 | for a negative pixel span p, `~~(a * p / d)` maps 0 <= a <= b <= d into 0 >= .. >= .. >= p, in reverse order |
| `JsNumber.ScaleNegate` | tinyChart.js:455 | negating the pixel span negates the truncated share while the quotient fits in 32 bits |
| `JsNumber.ScaleFull` | tinyChart.js:494 | the whole interval maps to exactly the whole pixel span |
| `JsNumber.ScaleAtLeastOne` | tinyChart.js:244 | the mapped pixel offset is at least 1 exactly when a * p >= d |
| `Decimal.NatToString` | tinyChart.js:292 | the decimal text is nonempty, all digits, and one character exactly below 10 |
| `Decimal.NatToStringRoundTrip` | tinyChart.js:292 | reading the printed digits back gives the number |
| `Decimal.IntToStringRoundTrip` | tinyChart.js:292 | printing an integer with its sign and parsing it back gives the integer |
| `Series.Divisor` | tinyChart.js:464 | `delimiters[i] \|\| 1`: a missing or zero delimiter acts as 1, and the divisor is never 0 |
| `Series.AllScaledMembers` | tinyChart.js:453-474 | the scan visits exactly the scaled values of all points |
| `Series.Lowest` | tinyChart.js:467-469 | the running minimum is at most the start and every value, and is one of them |
| `Series.Highest` | tinyChart.js:470-472 | the running maximum is at least the start and every value, and is one of them |
| `Series.Extremes` | tinyChart.js:449-474 | `minY`/`maxY` are undefined exactly when the first point has no values; they bound the raw first value and every scaled value, and each is the raw first value or some scaled value |
| `Series.ExtremesAreMinMax` | tinyChart.js:449-474 | when the raw first value lies within the scaled values' span, the range is exactly their minimum and maximum |
| `Series.RawStartWidensRange` | tinyChart.js:449-450 | a raw first value of 80 with delimiter 2 gives the range [40, 80], and no plotted value is 80 |
| `Mapping.CalcPoints` | tinyChart.js:445-489 | every input point is kept in order with one Y per value, and it is flagged exactly when the pointer is within 10 px of its X |
| `Mapping.XWithinPlot` | tinyChart.js:455 | between the first and last times, X stays between the two 15 px insets and keeps time order |
| `Mapping.XEndpoints` | tinyChart.js:455 | the first time maps to the left inset and, for a nonzero span, the last time maps to the right inset |
| `Mapping.MappedXEndpoints` | tinyChart.js:445-461 | the first mapped point sits at `MARGIN_LEFT + 15`, and the last at `ctxWidth - MARGIN_RIGHT - 15` when the span is nonzero |
| `Mapping.XCollapsesOnZeroSpan` | tinyChart.js:447-455 | when all times are equal, every point sits at the left inset |
| `Mapping.XNondecreasing` | tinyChart.js:455 | for time-ordered points, X never decreases and stays between the insets |
| `Mapping.XReversedOnNarrowPlot` | tinyChart.js:455 | on a plot of negative width, X stays between the right and left insets and later times sit further left |
| `Mapping.XNonincreasingOnNarrowPlot` | tinyChart.js:445-461 | on a plot of negative width, time-ordered points get nonincreasing X between the right and left insets |
| `Mapping.NarrowCanvasReversesX` | tinyChart.js:455 | on a 50 px canvas with a 45 px left margin, points at 0 ms and 1000 ms are drawn at x = 60 and x = 25 |
| `Mapping.YWithinPlot` | tinyChart.js:491-495 | values inside the range map between the top and bottom plot edges, larger values higher |
| `Mapping.YEndpoints` | tinyChart.js:491-495 | `calcY(minY)` is the bottom edge and `calcY(maxY)` the top edge |
| `Mapping.YFlatWhenDegenerate` | tinyChart.js:491-495 | with no range, or a flat one, every Y is the bottom edge |
| `Mapping.MappedYInPlot` | tinyChart.js:476-486 | every mapped Y lies between the top and bottom plot edges |
| `Mapping.YReversedOnShortPlot` | tinyChart.js:491-495 | on a plot of negative height, Y stays between the bottom edge and the lower-lying top edge, and larger values sit lower |
| `Mapping.MappedYOnShortPlot` | tinyChart.js:476-486 | on a plot of negative height, every mapped Y lies between the bottom edge and the top edge below it |
| `Mapping.SeveralSelected` | tinyChart.js:459 | two points 8 px apart are both flagged by one pointer position |
| `Selection.SubseqTrans` | tinyChart.js:435-443 | the "kept in order" relation composes across successive filters |
| `Selection.Bounds` | tinyChart.js:436-437 | the band's ends are the two selector edges, smaller first |
| `Selection.KeepMembers` | tinyChart.js:439-440 | a point survives the inclusive band test exactly when it was present and lies in the band, and every in-band point survives as often as it occurred |
| `Selection.KeepSubseq` | tinyChart.js:439-440 | the survivors keep their original order |
| `Selection.FilterPointsSpec` | tinyChart.js:435-443 | a nonempty list stays nonempty and ordered; when some point lies in the band the result is exactly the in-band points, with their multiplicities; when none does the list is unchanged |
| `Selection.FilterPointsSymmetric` | tinyChart.js:436-437 | which edge came first does not matter |
| `Selection.FilterPointsIdempotent` | tinyChart.js:435-443 | filtering twice with one band is filtering once |
| `Chart.Draw` | tinyChart.js:137-142 | `draw` maps the displayed points when zoomed and the raw points otherwise, and changes only the frame and the points |
| `Chart.Init` | tinyChart.js:45-52 | the constructor starts unpressed and unzoomed with the pointer at 0, and shows every raw point |
| `Chart.InitLayout` | tinyChart.js:45-60 | with no height option the canvas is 300 px high and every value lies between the top and bottom plot edges; the first point sits at `symbols[0]`'s width + 45 + 15, and with an absent or zero width option, a nonzero time span and a plot width within ±2^31 px, of either sign, the last point sits 10 + 15 px before the client width |
| `Chart.ClampSpec` | tinyChart.js:87-93 | the clamped edge lies between the margins when they do not cross and leaves in-range positions alone; the right margin wins when they cross |
| `Chart.OnMouseDown` | tinyChart.js:85-95 | a press sets both selector edges to one position between the left and right margins, equal to `~~clientX - rect.left` when that is already inside, and changes nothing else |
| `Chart.Reset` | tinyChart.js:429-433 | reset turns zoom off and shows every raw point |
| `Chart.Run` | tinyChart.js:85-142 | any sequence of events keeps the invariant: nonempty, in-order subsequence of the raw points, all of them unless zoomed, positioned by the last frame and pointer; raw data and options never change |
| `Chart.StepKeepsInv` | tinyChart.js:85-135 | each handler, including the touch wrappers, keeps the invariant |
| `Chart.ResetRestoresAll` | tinyChart.js:429-433 | after any events, reset shows every raw point where an unzoomed draw at the same size puts it |
| `Chart.ViewStaysOrdered` | tinyChart.js:435-443 | for time-ordered data the displayed points stay time-ordered after any events |
| `Chart.ClickKeepsFullView` | tinyChart.js:97-101 | a press and release without a move leaves zoom off and every raw point shown |
| `Chart.ClickNarrowsZoomedView` | tinyChart.js:97-101 | on a zoomed chart a press and release keep zoom on and leave the displayed points filtered to the click's column, unchanged when none lies there |
| `Chart.DragZooms` | tinyChart.js:103-116 | press, move and release zoom the chart to the filtered points |
| `Chart.DragStaysInPlot` | tinyChart.js:108-115 | a move while pressed zooms and keeps the second edge between the margins |
| `Chart.HoverOnlyTracks` | tinyChart.js:103-123 | a move without a press records the pointer and re-flags points, and nothing else |
| `Render.SeriesColor` | tinyChart.js:10-22 | series take the user's colours, then the palette in order, then black, with no wrap-around; an empty user colour is black |
| `Render.PaletteDistinct` | tinyChart.js:13-21 | the nine palette colours are distinct and none is the fallback |
| `Render.DefaultLabelsDistinct` | tinyChart.js:328-330 | default labels `input <i+1>` carry the series number and are pairwise different |
| `Render.HorizontalGrid` | tinyChart.js:179-189 | horizontal lines run from the top to the bottom plot edge in equal steps, and only the bottom one is strong |
| `Render.VerticalGrid` | tinyChart.js:191-201 | vertical lines run from the left margin to the right margin in equal steps, and only the leftmost one is strong |
| `Render.SelectorMatchesFilterBand` | tinyChart.js:204-215 | the shaded rectangle spans exactly the band the filter uses, over the whole plot height |
| `Render.LinePath` | tinyChart.js:220-236 | a plain series is the polyline through its n points, ending at the last |
| `Render.StepPath` | tinyChart.js:228-231 | a stepped series has 2n-1 vertices, data vertices at even positions, and each step goes level to the next X and then vertical |
| `Render.ZeroLineNeedsRange` | tinyChart.js:244 | with no range or a flat one there is no zero line |
| `Render.ZeroLineHiddenWhenNonNegative` | tinyChart.js:244 | when every value is nonnegative and the zero offset stays above -2^31 px, the zero line is not drawn |
| `Render.ZeroLineShownIff` | tinyChart.js:244 | with a negative minimum the zero line is drawn exactly when zero maps at least one pixel above the bottom |
| `Render.ZeroLineAboveTop` | tinyChart.js:244-253 | with all values negative, and the zero offset and plot height below 2^31 px, the zero line is still drawn, at or above the top edge |
| `Render.ZeroLineWraps` | tinyChart.js:244 | on a 400×300 canvas, values from 4294967196 to 4294967401 draw a zero line at y = 120, where truncation without the wrap draws none |
| `Render.ZeroLineIntendedHidden` | tinyChart.js:244 | with `calcY(0)` truncated without the 32-bit wrap and a plot of nonnegative height, nonnegative data never draws a zero line, however large the values |
| `Render.ZeroLineAgreesInRange` | tinyChart.js:244 | while the zero offset lies strictly within ±2^31 px the code as written draws the intended zero line |
| `Render.ZeroLineHiddenOnShortPlot` | tinyChart.js:244 | on a plot of zero or negative height, data with a negative minimum gets no zero line |
| `Render.ZeroLineOnShortCanvas` | tinyChart.js:244 | on a canvas 80 px high (plot height -15), data from 1 to 2 draws a zero line at y = -15, both as written and as intended |
| `Render.HighlightsOfSelected` | tinyChart.js:256-267 | the highlight bars are exactly those of the flagged points |
| `Render.LargeMarkerOnHighlight` | tinyChart.js:256-281 | a marker is large (radius 6) exactly when its point is flagged, and exactly when its highlight bar is drawn |
| `Render.YLabelEnds` | tinyChart.js:289-298 | the Y labels run from `~~minY` to `~~maxY`, each on its own grid line |
| `Render.YLabelsNondecreasing` | tinyChart.js:289-292 | for `minY` and `maxY` strictly within ±2^31, label values never decrease up the axis |
| `Render.YLabelTextReads` | tinyChart.js:292 | a Y label starts with the decimal text of its value |
| `Render.XLabelWraps` | tinyChart.js:304-306 | a span of 2^31 ms makes the last date label wrap to 2^31 ms before the first point |
| `Render.XLabelEnds` | tinyChart.js:304-306 | the intended date labels start at the first point's time and end at the last point's |
| `Render.XLabelsNondecreasing` | tinyChart.js:304-306 | the intended date labels never go back in time |
| `Render.XLabelAgreesInRange` | tinyChart.js:306 | below 2^31 ms the code as written gives the intended labels |
| `Render.LegendLayout` | tinyChart.js:321-361 | the legend is centred, its last label ends at the box end, a label and the next swatch are 10 px apart, and each dot is centred on its swatch |
| `Render.LegendNamesSeries` | tinyChart.js:327-345 | legend entry i shows series i's label and colour, and two series without labels get different names |
| `Tooltip.InsertSpec` | tinyChart.js:402 | inserting a row into an ordered list keeps it ordered and adds exactly that row |
| `Tooltip.SortRows` | tinyChart.js:402 | the sorted rows are a permutation, largest value first, and rows with equal values keep series order |
| `Tooltip.SortedRows` | tinyChart.js:394-402 | an info box lists every series exactly once, in nonincreasing value order, with ties in series order |
| `Tooltip.TiesKeepSeriesOrder` | tinyChart.js:402 | for rows valued 5, 7, 5 the order is the 7, then the first 5, then the second 5 |
| `Tooltip.TipSide` | tinyChart.js:371-373 | the box opens right of the pointer unless it would pass the right margin, and then ends 5 px left of the pointer |
| `Tooltip.TipRowsInBox` | tinyChart.js:370-420 | there is one row per series, and every row lies inside the box, below the header |
| `Tooltip.TipsOfSelected` | tinyChart.js:364-426 | there is one info box per flagged point, in point order |
| `Dates.Pad2TwoDigits` | tinyChart.js:510-512 | a clock field from 0 to 99 prints as two digits that read back as the field |
| `Dates.TimeTextRoundTrip` | tinyChart.js:502-517 | a valid time prints as `hh:mm:ss`, and each group reads back as its field |
| `Dates.DateTextRoundTrip` | tinyChart.js:502-517 | the date prints as `year/month/day`, unpadded: the year text, a `/`, the month text, a `/`, the day text |
| `Dates.DateYearReadsBack` | tinyChart.js:502-517 | the text before the first `/` is an integer that reads back as the year |
| `Dates.DateMonthReadsBack` | tinyChart.js:502-517 | the text between the two `/` reads back as the zero-based month |
| `Dates.DateDayReadsBack` | tinyChart.js:502-517 | the text after the second `/` reads back as the day |
| `Dates.JanuaryShowsAsZero` | tinyChart.js:504 | 5 January 2020 at 09:05:03 prints as `2020/0/5` and `09:05:03` |
| `Demo.DemoSeriesColor` | demo.js:17 | with no option three series are coloured and the rest are black; an empty option makes every series black |
| `Demo.CalcPoints` | demo.js:264-302 | every point is kept in order with one Y per value, and none is flagged |
| `Demo.RawExtremes` | demo.js:268-288 | the range bounds every raw value |
| `Demo.SameAsChartWithoutDelimiters` | demo.js:264-302 | tinyChart's mapping without delimiters places every point where the demo does |
| `Demo.DemoXOrdered` | demo.js:275 | for time-ordered points X never decreases and stays between the insets |
| `Demo.DemoXReversedOnNarrowPlot` | demo.js:275 | on a plot of negative width the demo's time-ordered points get nonincreasing X between the right and left insets |
| `Demo.Draw` | demo.js:112-118 | `draw` maps the displayed points when zoomed and the raw points otherwise |
| `Demo.OnMouseDown` | demo.js:66-76 | a press sets both edges to one position between the margins, equal to `~~clientX - rect.left` when that is already inside |
| `Demo.Reset` | demo.js:248-252 | reset turns zoom off and shows every raw point |
| `Demo.Run` | demo.js:66-118 | any sequence of events keeps the same invariant as tinyChart's |
| `Demo.ResetRestoresAll` | demo.js:248-252 | after any events, reset shows every raw point where an unzoomed draw puts it |
| `Demo.ClickZooms` | demo.js:78-83 | a plain click zooms to the points under the click column, or keeps the list if there are none |
| `Demo.MoveWithoutPressIsIgnored` | demo.js:85-110 | mouse and touch moves without a press change nothing |
| `Demo.EmptyTouchStartPresses` | demo.js:101-104 | a touch start without touches still sets the press |
| `Demo.PathRepeatsFirst` | demo.js:195-204 | the demo path has n+1 vertices, the first one repeated, and is tinyChart's polyline after that |
| `Demo.TopLabelBelowMax` | demo.js:224-226 | dividing by `linesY` puts a value three quarters up the range on the top grid line |
| `Demo.DatasetTimesIncrease` | demo.js:330-341 | the demo timestamps strictly increase |
| `Demo.DatasetExtremes` | demo.js:330-341 | the demo data spans -5 to 17 |
| `Demo.DatasetSpansWidth` | demo.js:275 | on the demo data the first point is at x = 70 and the last at the width minus 25 |
| `Demo.DatasetSpansHeight` | demo.js:8-12 | on the default canvas the demo data's -5 is drawn at y = 190 and its 17 at y = 15 |
| `Demo.DemoYEnds` | demo.js:264-302 | a value equal to the data's minimum is drawn on the bottom plot edge and one equal to its maximum on the top edge |
| `Demo.DatasetLabels` | demo.js:224-228 | the demo Y labels read -5, 0, 6 and 11 °C |

## Left out

- Canvas and DOM work is not modelled: element creation, styles, listener registration, `devicePixelRatio`, `ctx.scale`, stroke and fill styles, fonts, shadows and dash patterns. Only the geometry handed to the canvas is.
- `measureText` is a host call. Text widths are parameters: `symbolWidth` in `Chart.Config`, `widths` in the legend, and `measure` in the info box. `MARGIN_LEFT` is the width of `symbols[0]` plus 45, a fractional pixel count. It is modelled as a whole number of pixels. When no symbols are given the source measures the text "undefined".
- The X position of a Y label is not modelled. It is right-aligned 3 px before the left margin using the label's measured width.
- The vertical description text and its rotation are not modelled.
- Turning a timestamp into local calendar fields depends on the host time zone. `Dates` takes the fields as input, and `Tooltip.Tip` records the timestamp its header shows.
- The value text of an info-box row, `${value} ${symbol}`, prints a JavaScript number. Number-to-text for non-integers is not modelled, so the row keeps the value and the symbol.
- IEEE-754 doubles become exact reals. `~~` is modelled with its 32-bit wrap.
- A point with fewer values than the first point draws `undefined` coordinates. Paths require every point to have the series (`Render.HasSeries`).
- `pointerY` is `undefined` until the first move in tinyChart. The model starts it at 0.
- An empty data set throws on its first draw. `Chart.Init` and `Demo.Init` require at least one point.
- A touch event without touches throws when it reads `touches[0]`. tinyChart's handlers read first, so the state is unchanged. demo.js sets the press first (`Demo.EmptyTouchStartPresses`).
- The demo's markers all have radius 5 (`Demo.MARKER_RADIUS`). The demo's `onMouseMove` also redraws the selector, which is `Render.SelectorRect`.
- Mapping.XWithinPlot: holds for plot widths from 0 to 2^31 px. Below 2^31 `~~` does not wrap. A negative plot width (a canvas narrower than its margins and insets) reverses X, as `Mapping.XReversedOnNarrowPlot` states.
- Mapping.XNondecreasing: needs a plot width from 0 to 2^31 px. For a negative width X runs right to left (`Mapping.XNonincreasingOnNarrowPlot`); beyond 2^31 `~~` wraps.
- Mapping.XEndpoints: the right-inset equation holds for plot widths below 2^31 px, where `~~` does not wrap.
- Mapping.YWithinPlot: holds for plot heights from 0 to 2^31 px. Below 2^31 `~~` does not wrap. A negative plot height (a height option under 95 px) puts larger values lower, as `Mapping.YReversedOnShortPlot` states.
- Mapping.MappedYInPlot: needs a plot height from 0 to 2^31 px. For a negative height every Y lies between the bottom edge and the top edge below it (`Mapping.MappedYOnShortPlot`); beyond 2^31 `~~` wraps.
- Demo.DemoXOrdered: needs a plot width from 0 to 2^31 px. For a negative width the demo's X runs right to left (`Demo.DemoXReversedOnNarrowPlot`).
- Chart.InitLayout: the last-point clause needs the plot width strictly within ±2^31 px, where `~~` does not wrap.
- Render.ZeroLineShownIff: needs a plot height of 0 or more and the zero offset below 2^31 px, where `~~` does not wrap. On a plot of zero or negative height a negative minimum never gets a zero line (`Render.ZeroLineHiddenOnShortPlot`).
- Render.YLabelEnds: needs `minY` and `maxY` inside the 32-bit range, where `~~` does not wrap.
- Render.YLabelsNondecreasing: needs `minY` and `maxY` strictly within ±2^31, where `~~` does not wrap; beyond that a label can wrap to a smaller value.
- Render.ZeroLineHiddenWhenNonNegative: needs a plot height of 0 or more and the zero offset above -2^31 px. On a plot of negative height positive data can get a zero line (`Render.ZeroLineOnShortCanvas`). With larger positive data `~~` wraps and the code draws a zero line (`Render.ZeroLineWraps`).
- Render.ZeroLineAboveTop: needs a plot height from 1 to 2^31 px and the zero offset below 2^31 px, where `~~` does not wrap. With a plot height of 0 or less, all-negative data gets no zero line (`Render.ZeroLineHiddenOnShortPlot`).
- Render.ZeroLineIntendedHidden: needs a plot height of 0 or more. On a shorter canvas nonnegative data gets a zero line even as intended (`Render.ZeroLineOnShortCanvas`).

## Findings

| source | as written | input that shows it | evidently intended | confidence | as-written member | corrected member |
|---|---|---|---|---|---|---|
| tinyChart.js:304-306 | the date label time is `points[0].time + ~~(stepXValue * i)`, and `~~` wraps at 2^31 | a visible span of 2^31 ms (about 24.9 days) from time 0: the last label shows -2^31, almost 50 days before the last point | the offset truncated without wrapping (`Math.trunc`), so the last label is the last point's time | not executed; high, the wrap is the defined behaviour of `~~` | `Render.XLabelWraps` | `Render.XLabelEnds` |
| tinyChart.js:244 | `zeroY = calcY(0)` (line 477), and `calcY` applies `~~`, which wraps at 2^32 | values from 4294967196 to 4294967401 on a 400×300 canvas with margins 55, 10, 15 and 80: `~~(-4294967196)` is 100, so the zero line is drawn at y = 120 inside the plot, though no value is near zero | truncation without the wrap, so nonnegative data never shows a zero line | not executed; medium, data this large is unusual for the chart | `Render.ZeroLineWraps` | `Render.ZeroLineIntendedHidden` |
| demo.js:224-226 | the Y label step is `(maxY - minY) / linesY`, while the grid lines it labels are `(ctxHeight - MARGIN_TOP - MARGIN_BOTTOM) / (linesY - 1)` apart | the demo data: the top grid line, where 17 is drawn, is labelled 11 | divide by `linesY - 1`, as tinyChart.js:289 does | not executed; medium, the later version changed it | `Demo.TopLabelBelowMax` | `Render.YLabelEnds` |
