# Filled contour plot: cache pipeline and render

This project models `ContourPolyPlot` from chaco, the plot that paints a
scalar grid as filled bands between consecutive contour levels. The model
covers the class's own logic, which is a small state machine of three caches:

- the **level cache** (`_levels`, `_level_cache_valid`), kept by the base class;
- the **polygon cache** (`_cached_polys`, `_poly_cache_valid`), a dictionary
  from band key `(levels[i], levels[i+1])` to the band's polygons;
- the **colour cache** (`_colors`, `_colors_cache_valid`), kept by the base class.

The render refreshes stale caches in a fixed order (levels, polygons, colours).
It then sets up the graphics context and draws each band in level order, each
polygon as one closed, filled and stroked path.

Files and modules:

- `geometry.dfy` (`Geometry`): points, polygons and the 2 x M traces the
  contour tracer returns; transpose, and the column reversal `[:, ::-1]`.
- `drawing.dfy` (`Drawing`): the drawing calls as a `Command` datatype, and a
  `GraphicsContext` class that records every call in order.
- `poly_cache.dfy` (`PolyCache`): the cache state as a value (`State`) and each
  update as a pure function of it: `LevelsUpdated`, `PolysUpdated`,
  `ColorsUpdated`, and `Refreshed` for the refresh at the start of a render.
  Lemmas here cover the flags, the band keys and the refresh order.
- `render_log.dfy` (`RenderLog`): the command sequence a render issues on a
  given state (`Rendered`), and lemmas about its layout and error outcomes.
- `contour_poly_plot.dfy` (`ContourPoly`): the class `ContourPolyPlot`. Its
  fields are the caches and flags. Its methods change them in place, with
  loops and invariants. Each method's `ensures` ties the new state
  (`Snapshot()`) and the new drawing log to the functions above.

Levels, coordinates, the clip rectangle and alpha are all floats in the source.
Here they share one type parameter `N`, and colours are a type parameter `K`.
No arithmetic is done on them.

The collaborators outside the file are the parameters in `PolyCache.Host`:

- `newLevels`: what the base class's level update assigns;
- `levelsKeepColors`: whether that update leaves the colour flag as it was
  (when false, it also marks the colours stale);
- `tracer`: the `Cntr` tracer for the current grid;
- `mapScreen`: the index mapper;
- `colorsFor`: what the base class's colour update assigns for a given `numcolors`.

Behaviour of the code worth knowing:

- The polygon cache can hold entries for keys that are not current bands. Line 82
  resets `_cached_contours`, not `_cached_polys`, so keys from earlier level
  sequences are never removed. The cache's key set is the old keys plus the
  current bands (`PolyCache.PolysUpdatedSpec`, `PolyCache.StaleKeySurvives`).
  The cache holds entries for exactly the current bands, `len(levels) - 1` of
  them, when it held no other key and the levels are distinct
  (`PolyCache.FirstFillOneEntryPerBand`).
- With fewer than two levels the band loop runs zero times, so the render
  cannot fail there. The colour update is then asked for `len(levels) - 1`
  colours, which is -1 for an empty level list.
- The render reads `self._colors[i]` without a check. If the colour cache is
  valid but shorter than the band count, the band loop raises. The model
  keeps this as the outcome `ColorIndexError`. Whether a level change can lead
  there depends on the base class. If its level update leaves a valid colour
  cache valid, one fails (`RenderLog.KeptColorsIndexError`). If it marks the
  colours stale, or the colours were stale already, a colour source that
  honours the requested count makes the render complete
  (`RenderLog.RefreshedRenderCompletes`).
- The dictionary lookup `self._cached_polys[key]` cannot fail: the
  `ContourPolyPlot.Valid()` invariant makes sure of that.

## Model

| member | source | states |
|---|---|---|
| Geometry.Transpose | chaco/contour_poly_plot.py:88 | a 2 x M trace transposes into M vertices, one per column |
| Geometry.TransposeRoundTrip | chaco/contour_poly_plot.py:88 | transposing a trace and transposing back gives the trace itself, so no coordinate is lost or reordered |
| Geometry.UntransposeRoundTrip | chaco/contour_poly_plot.py:88 | every M x 2 vertex array is the transpose of the trace obtained by transposing it back |
| Geometry.SwapColumns | chaco/contour_poly_plot.py:64 | reversing the columns keeps the number of vertices |
| Geometry.SwapColumnsInvolution | chaco/contour_poly_plot.py:64 | reversing the two columns twice restores the array |
| Geometry.SwapColumnsExchangesAxes | chaco/contour_poly_plot.py:64 | reversing the columns exchanges the X and Y rows: the result's first coordinates are the input's second ones and the other way round |
| Geometry.TransposeAll | chaco/contour_poly_plot.py:87-88 | a band's polygon list has one entry per trace |
| Geometry.TransposeAllSnoc | chaco/contour_poly_plot.py:87-88 | each `append` adds the transpose of the next trace at the end of the band's list |
| Drawing.GraphicsContext.Emit | chaco/contour_poly_plot.py:51-67 | a drawing call appends exactly its command to the context's log |
| PolyCache.NumBands | chaco/contour_poly_plot.py:56 | definition (the length of `range(len(levels) - 1)`); that the loops run this many times, once per band in order, is stated by `UpdatePolys` and `DrawBands` |
| PolyCache.BandKey | chaco/contour_poly_plot.py:59 | definition; that band `i`'s entry is stored and read under it is stated by `PolysUpdatedSpec`, `BandLayout` and `DrawBand` |
| PolyCache.Refill | chaco/contour_poly_plot.py:83-88 | definition of the cache after `n` band-loop iterations; its properties are stated by `RefillSpec` |
| PolyCache.LevelsUpdated | chaco/contour_poly_plot.py:91-94 | definition of the level update; its properties are stated by `LevelsUpdateInvalidatesPolys` and `RefreshOrder` |
| PolyCache.PolysUpdated | chaco/contour_poly_plot.py:82-89 | definition of the poly update; its properties are stated by `PolysUpdatedSpec`, `FirstFillOneEntryPerBand` and `StaleKeySurvives` |
| PolyCache.ColorsUpdated | chaco/contour_poly_plot.py:96-97 | definition of the colour update; its properties are stated by `FewLevelsNoBands`, `RefreshOrder` and `SingleBandScenario` |
| PolyCache.Refreshed | chaco/contour_poly_plot.py:43-48 | definition of the refresh; its properties are stated by `RefreshOrder`, `RefreshIdempotent`, `RefreshKeepsBandsCached` and `LevelRefreshRetraces` |
| PolyCache.Traced | chaco/contour_poly_plot.py:85-88 | a band's entry has exactly as many polygons as the tracer returned for its key, the `j`-th being the transpose of the `j`-th trace |
| PolyCache.RefillSpec | chaco/contour_poly_plot.py:83-88 | after `n` iterations of the band loop, the keys are the old keys plus the first `n` band keys; each band holds its traced polygons; every other key keeps its old entry |
| PolyCache.LevelsUpdateInvalidatesPolys | chaco/contour_poly_plot.py:91-94 | the level update always leaves the polygon cache invalid and the levels valid, whatever the flags were before; doing it twice equals doing it once |
| PolyCache.PolysUpdatedSpec | chaco/contour_poly_plot.py:82-89 | the poly update marks the cache valid and stores every band's traced polygons under its key; the key set becomes the old keys plus the bands, so stale keys survive with their entries; only `_cached_contours` is cleared |
| PolyCache.FewLevelsNoBands | chaco/contour_poly_plot.py:83-97 | with fewer than two levels there is no band, the poly update writes no entry, and the colour update asks for `len(levels) - 1` (at most zero) colours |
| PolyCache.BandSetSize | chaco/contour_poly_plot.py:83-85 | with distinct levels, the first `n` bands have `n` distinct keys |
| PolyCache.FirstFillOneEntryPerBand | chaco/contour_poly_plot.py:82-89 | when the cache held no key outside the current bands and the levels are distinct, the poly update leaves exactly `len(levels) - 1` entries, one per band |
| PolyCache.StaleKeySurvives | chaco/contour_poly_plot.py:82-85 | key `(0, 1)` from levels `[0, 1]` is still cached after a fill for levels `[2, 3]`; the key set is `{(0, 1), (2, 3)}` |
| PolyCache.RefreshOrder | chaco/contour_poly_plot.py:43-48 | levels refresh only when invalid. Polygons are re-traced exactly when levels or polygons were invalid, using the new levels. Colours refresh exactly when they were invalid or the level update marked them stale, for the new levels. All three flags end true |
| PolyCache.LevelRefreshRetraces | chaco/contour_poly_plot.py:43-46 | a render that refreshes the levels re-traces every new band in the same call |
| PolyCache.RefreshIdempotent | chaco/contour_poly_plot.py:43-48 | a second render without invalidation refreshes nothing, so the tracer is not consulted again |
| PolyCache.RefreshKeepsBandsCached | chaco/contour_poly_plot.py:43-48 | the refresh keeps the invariant that a valid polygon cache covers every current band, and leaves the polygon cache valid |
| PolyCache.SingleBandScenario | chaco/contour_poly_plot.py:43-48 | on a fresh plot with levels `[0, 1]`, the first refresh asks for one colour and caches exactly the band key `(0, 1)` |
| RenderLog.Screen | chaco/contour_poly_plot.py:61-64 | definition of a polygon in screen space; stated through `PolyCommandsLayout` and `DrawPolys`, with the axis swap by `SwapColumnsExchangesAxes` |
| RenderLog.SetupCommands | chaco/contour_poly_plot.py:51-54 | definition of the setup calls; stated by `SetupPrecedesBands` and `DrawSetup` |
| RenderLog.PolyCommands | chaco/contour_poly_plot.py:60-67 | definition of one band's polygon calls; stated by `PolyCommandsLayout`, `PolyCommandsNoSetup` and `DrawPolys` |
| RenderLog.BandCommands | chaco/contour_poly_plot.py:57-67 | definition of one band's calls; stated by `BandStep`, `BandLayout` and `DrawBand` |
| RenderLog.BandsLog | chaco/contour_poly_plot.py:56-67 | definition of the band loop's calls and outcome; stated by `BandsLogOutcome`, `AbortIsFinal`, `BandsLogPrefix`, `BandsLogNoSetup` and `DrawBands` |
| RenderLog.Rendered | chaco/contour_poly_plot.py:50-67 | definition of everything the drawing part issues; stated by `SetupPrecedesBands`, `BandLayout`, `FewLevelsOnlySetup`, `RefreshedRenderCompletes` and `Draw` |
| RenderLog.PolyCommandsLayout | chaco/contour_poly_plot.py:60-67 | each cached polygon yields exactly one `lines`, `close_path`, `draw_path` triple, in cache order; `lines` gets the screen-space polygon |
| RenderLog.PolyCommandsNoSetup | chaco/contour_poly_plot.py:60-67 | the polygon commands never set drawing state |
| RenderLog.BandsLogNoSetup | chaco/contour_poly_plot.py:56-67 | no command of the band loop sets antialias, clip, line width or alpha |
| RenderLog.SetupPrecedesBands | chaco/contour_poly_plot.py:50-56 | the log starts with antialias on, the clip to `(x, y, width, height)`, line width 0 and the plot's alpha; no later command sets antialias, clip, line width or alpha |
| RenderLog.AbortIsFinal | chaco/contour_poly_plot.py:56-57 | once the band loop has raised, later bands add nothing |
| RenderLog.BandsLogOutcome | chaco/contour_poly_plot.py:56-60 | the band loop completes exactly when every band has a colour and a cache entry; otherwise it fails at the first band lacking one, the colour being read first |
| RenderLog.BandStep | chaco/contour_poly_plot.py:56-67 | a band that has its colour and its entry appends exactly its fill colour, stroke colour and polygon commands |
| RenderLog.DrawnBeforeAbort | chaco/contour_poly_plot.py:56-60 | every band before the one the loop aborted at had its colour and its cache entry, and the loop had completed up to it |
| RenderLog.BandLayout | chaco/contour_poly_plot.py:56-67 | in a completed render, and in an aborted one for every band before the abort, band `i` follows band `i - 1` directly; it sets fill and then stroke colour to `colors[i]` before any of its polygons; its span is 2 + 3 times its polygon count |
| RenderLog.BandsLogPrefix | chaco/contour_poly_plot.py:56-67 | the commands of earlier bands are a prefix of those of later ones |
| RenderLog.FewLevelsOnlySetup | chaco/contour_poly_plot.py:56 | with fewer than two levels the render issues only the four setup commands and completes |
| RenderLog.RefreshedRenderCompletes | chaco/contour_poly_plot.py:43-60 | after the refresh the dictionary lookup never fails. If the colours were refreshed in the same call and the colour source honoured the count, the render completes |
| RenderLog.KeptColorsIndexError | chaco/contour_poly_plot.py:43-57 | when the base level update keeps a valid, empty colour cache valid, a refresh to levels `[0, 1, 2]` makes the render fail on `colors[0]` |
| ContourPoly.ContourPolyPlot.constructor | chaco/contour_poly_plot.py:28-31 | a new plot has every flag false and every cache empty |
| ContourPoly.ContourPolyPlot.UpdateLevels | chaco/contour_poly_plot.py:91-94 | assigns the base class's new levels, marks them valid, marks the colours stale unless the base keeps them, and marks the polygon cache invalid; nothing else changes |
| ContourPoly.ContourPolyPlot.UpdatePolys | chaco/contour_poly_plot.py:69-89 | the loop runs once per band, `len(levels) - 1` times, in level order. The new state is `PolysUpdated` of the old one: each band's traced polygons under its key, the old keys kept, the polygon cache valid, `_cached_contours` empty |
| ContourPoly.ContourPolyPlot.StoreBand | chaco/contour_poly_plot.py:85-88 | one band-loop iteration: the entry is reset, the band is traced, and the entry becomes the transposes of its traces in order; no other entry changes |
| ContourPoly.ContourPolyPlot.UpdateColors | chaco/contour_poly_plot.py:96-97 | assigns the colours the base class gives for `len(levels) - 1`, marks them valid, and keeps the invariant |
| ContourPoly.ContourPolyPlot.Render | chaco/contour_poly_plot.py:37-48 | the new state is `Refreshed` of the old one. The context's log grows by exactly `Rendered` of the new state. The outcome is never a key error, and the invariant is kept |
| ContourPoly.ContourPolyPlot.Draw | chaco/contour_poly_plot.py:50-67 | on a valid polygon cache, the log grows by the setup and the band commands of `Rendered`, with its outcome |
| ContourPoly.ContourPolyPlot.DrawSetup | chaco/contour_poly_plot.py:50-54 | issues the four setup commands in order |
| ContourPoly.ContourPolyPlot.DrawBands | chaco/contour_poly_plot.py:56-67 | the band loop runs over the `len(levels) - 1` bands in order, and its log and outcome are the same as `BandsLog` over all of them |
| ContourPoly.ContourPolyPlot.DrawBand | chaco/contour_poly_plot.py:57-60 | a band with a colour issues fill and stroke colour `colors[i]`, then the commands of the polygons under its key |
| ContourPoly.ContourPolyPlot.DrawPolys | chaco/contour_poly_plot.py:60-67 | the log grows by one screen-space triple per polygon, in order (mapped, with columns reversed unless the orientation is "h") |

## Left out

- Contour tracing by `Cntr` (lines 14, 79-81, 86) is a foreign C extension. It
  is the abstract `tracer` parameter, already built for the current grid. So
  the choice between `raw_value` and `raw_value.T` by orientation is not
  modelled.
- The sampling-grid construction with `linspace` and `meshgrid` (lines 73-77)
  is floating-point work whose only consumer is the tracer. Not modelled,
  including the quirk that each axis gets `len(data) - 1` samples.
- `index_mapper.map_screen` (lines 62, 64) is the abstract `mapScreen`
  function. The `[:, ::-1]` reversal is modelled as swapping each vertex's two
  coordinates.
- The base class `BaseContourPlot` is not part of this model. Its level update
  is modelled only as assigning `newLevels`, marking the levels valid, and
  marking the colours stale unless `levelsKeepColors`. Its colour update is
  modelled only as assigning `colorsFor(numcolors)` and marking the colours
  valid.
- The trait listeners that clear the flags when data, levels or colours
  change live outside this file and are not modelled. The flags change only
  through the methods here.
- The drawing context is reduced to a log of calls. The save and restore of
  its state by `with gc:` (line 50) is not modelled.
- Exceptions are modelled only where the visible code raises them: the
  `Outcome` of the band loop. Failures inside the tracer, the mapper or the
  base class are not modelled.
- Traits machinery (`Bool`, `Dict`, lines 28-31) is modelled only by the
  initial field values.
- Traces are modelled as 2 x M arrays. `numpy.transpose` of other shapes is not
  modelled.
- The plot attributes (`orientation`, `alpha`, `x`, `y`, `width`, `height`) are
  constant fields. Nothing in this class assigns them.
- The band loop of `_update_polys` and the drawing part of `_render` are split
  into helper methods (`StoreBand`, `DrawSetup`, `DrawBands`, `DrawBand`,
  `DrawPolys`) that run the same statements in the same order: the band's
  entry is reset before the band is traced (lines 85-86), and both colours
  are set before the key is built (lines 57-59).
