/**
 The filled contour plot: its cache fields, the three cache updates and the
 render, as methods that change those fields in place and draw on a
 graphics context.
 */
module ContourPoly {
  import opened Geometry
  import opened Drawing
  import opened PolyCache
  import opened RenderLog

  class ContourPolyPlot<N(==), K> {
    // The level and colour caches and their flags, kept by the base class.
    var levelCacheValid: bool
    var colorsCacheValid: bool
    var levels: seq<N>
    var colors: seq<K>

    // This plot's polygon cache and its flag.
    var polyCacheValid: bool
    var cachedPolys: Cache<N>

    // The attribute the poly update resets (it is not the polygon cache).
    var cachedContours: Cache<N>

    // Plot attributes the render reads; nothing in this class changes them.
    const orientation: string
    const alpha: N
    const x: N
    const y: N
    const width: N
    const height: N

    /** The cache state as a value. */
    function Snapshot(): State<N, K>
      reads this
    {
      State(levelCacheValid, polyCacheValid, colorsCacheValid, levels, colors, cachedPolys, cachedContours)
    }

    /** The attributes the render reads, as a value. */
    function Attributes(): Attrs<N>
    {
      Attrs(orientation, alpha, x, y, width, height)
    }

    /** The object invariant: a valid polygon cache covers every current band. */
    ghost predicate Valid()
      reads this
    {
      BandsCached(Snapshot())
    }

    /** A new plot: every cache empty and every flag false. */
    constructor (orientation: string, alpha: N, x: N, y: N, width: N, height: N)
      ensures Valid()
      ensures Snapshot() == Initial()
      ensures Attributes() == Attrs(orientation, alpha, x, y, width, height)
    {
      levelCacheValid, polyCacheValid, colorsCacheValid := false, false, false;
      levels, colors := [], [];
      cachedPolys, cachedContours := map[], map[];
      this.orientation, this.alpha := orientation, alpha;
      this.x, this.y, this.width, this.height := x, y, width, height;
    }

    /** The level update: the base class's step (assign the levels it
        computes, here `newLevels`, mark them valid, and mark the colours
        stale unless `keepColors`), then the invalidation of the polygon
        cache. */
    method UpdateLevels(newLevels: seq<N>, keepColors: bool)
      modifies this`levels, this`levelCacheValid, this`colorsCacheValid, this`polyCacheValid
      ensures Snapshot() == LevelsUpdated(old(Snapshot()), newLevels, keepColors)
      ensures levels == newLevels && levelCacheValid && !polyCacheValid
      ensures Valid()
    {
      levels := newLevels;
      levelCacheValid := true;
      if !keepColors {
        colorsCacheValid := false;
      }
      polyCacheValid := false;
    }

    /** The poly update: reset `_cached_contours`, then for every band store
        the transposes of its traces under its key, one `append` at a time,
        and mark the polygon cache valid. Keys of earlier bands stay. */
    method UpdatePolys(tracer: (N, N) -> seq<Trace<N>>)
      modifies this`cachedContours, this`cachedPolys, this`polyCacheValid
      ensures Snapshot() == PolysUpdated(old(Snapshot()), tracer)
      ensures polyCacheValid && Valid()
      ensures forall i :: 0 <= i < NumBands(levels) ==>
        BandKey(levels, i) in cachedPolys && cachedPolys[BandKey(levels, i)] == Traced(tracer, BandKey(levels, i))
      ensures cachedPolys.Keys == old(cachedPolys).Keys + BandSet(levels)
    {
      ghost var s0 := Snapshot();
      cachedContours := map[];
      var i := 0;
      while i < |levels| - 1
        invariant 0 <= i <= NumBands(levels)
        invariant cachedPolys == Refill(s0.polys, levels, tracer, i)
        modifies this`cachedPolys
      {
        var key := (levels[i], levels[i + 1]);
        assert key == BandKey(levels, i);
        StoreBand(key, tracer);
        i := i + 1;
      }
      polyCacheValid := true;
      assert i == NumBands(s0.levels);
      assert Snapshot() == PolysUpdated(s0, tracer);
      PolysUpdatedSpec(s0, tracer);
    }

    /** One iteration of the poly update's band loop: the band's entry is
        reset to the empty list, the band is traced, and the transpose of
        each trace is appended to the entry in order; no other entry and no
        other field changes. */
    method StoreBand(key: Key<N>, tracer: (N, N) -> seq<Trace<N>>)
      modifies this`cachedPolys
      ensures cachedPolys == old(cachedPolys)[key := Traced(tracer, key)]
    {
      cachedPolys := cachedPolys[key := []];
      var traces := tracer(key.0, key.1);
      var j := 0;
      while j < |traces|
        invariant 0 <= j <= |traces|
        invariant cachedPolys == old(cachedPolys)[key := TransposeAll(traces[..j])]
      {
        assert traces[..j + 1] == traces[..j] + [traces[j]];
        TransposeAllSnoc(traces[..j], traces[j]);
        cachedPolys := cachedPolys[key := cachedPolys[key] + [Transpose(traces[j])]];
        j := j + 1;
      }
      assert traces[..|traces|] == traces;
    }

    /** The colour update: ask the base class for `len(levels) - 1` colours. */
    method UpdateColors(colorsFor: int -> seq<K>)
      modifies this`colors, this`colorsCacheValid
      ensures Snapshot() == ColorsUpdated(old(Snapshot()), colorsFor)
      ensures colors == colorsFor(|levels| - 1) && colorsCacheValid
      ensures old(Valid()) ==> Valid()
    {
      colors := colorsFor(|levels| - 1);
      colorsCacheValid := true;
    }

    /** The render: refresh the stale caches in the order levels, polygons,
        colours, then draw. */
    method Render(gc: GraphicsContext<N, K>, host: Host<N, K>) returns (outcome: Outcome)
      requires Valid()
      modifies this, gc
      ensures Valid()
      ensures Snapshot() == Refreshed(old(Snapshot()), host)
      ensures gc.commands == old(gc.commands) + Rendered(Snapshot(), Attributes(), host.mapScreen).commands
      ensures outcome == Rendered(Snapshot(), Attributes(), host.mapScreen).outcome
      ensures !outcome.KeyError?
    {
      if !levelCacheValid {
        UpdateLevels(host.newLevels, host.levelsKeepColors);
      }
      if !polyCacheValid {
        UpdatePolys(host.tracer);
      }
      if !colorsCacheValid {
        UpdateColors(host.colorsFor);
      }
      outcome := Draw(gc, host.mapScreen);
    }

    /** The drawing part of the render, inside the drawing-context scope:
        the state setup, then every band in level order, each polygon as a
        closed, filled and stroked path in screen space. An index error on
        the colour list aborts the band loop; the dictionary lookup cannot
        fail on a valid polygon cache. */
    method Draw(gc: GraphicsContext<N, K>, mapScreen: Poly<N> -> Poly<N>) returns (outcome: Outcome)
      requires Valid() && polyCacheValid
      modifies gc
      ensures gc.commands == old(gc.commands) + Rendered(Snapshot(), Attributes(), mapScreen).commands
      ensures outcome == Rendered(Snapshot(), Attributes(), mapScreen).outcome
      ensures !outcome.KeyError?
    {
      DrawSetup(gc);
      outcome := DrawBands(gc, mapScreen);
    }

    /** The band loop: band `i`'s colour is read from the colour cache (an
        index error when there is none) and its polygons from the polygon
        cache under the key of levels `i` and `i + 1`. */
    method DrawBands(gc: GraphicsContext<N, K>, mapScreen: Poly<N> -> Poly<N>) returns (outcome: Outcome)
      requires Valid() && polyCacheValid
      modifies gc
      ensures gc.commands == old(gc.commands) + BandsLog(Snapshot(), orientation, mapScreen, NumBands(levels)).commands
      ensures outcome == BandsLog(Snapshot(), orientation, mapScreen, NumBands(levels)).outcome
      ensures !outcome.KeyError?
    {
      ghost var s := Snapshot();
      outcome := Completed;
      ghost var done: seq<Command<N, K>> := [];
      var i := 0;
      while i < |levels| - 1 && outcome.Completed?
        invariant 0 <= i <= NumBands(levels)
        invariant gc.commands == old(gc.commands) + done
        invariant BandsLog(s, orientation, mapScreen, i) == Drawn(done, outcome)
        invariant !outcome.KeyError?
      {
        if i >= |colors| {
          outcome := ColorIndexError(i);
        } else {
          BandStep(s, orientation, mapScreen, i);
          DrawBand(gc, i, mapScreen);
          done := done + BandCommands(colors[i], cachedPolys[BandKey(levels, i)], orientation, mapScreen);
        }
        i := i + 1;
      }
      if !outcome.Completed? {
        AbortIsFinal(s, orientation, mapScreen, i, NumBands(levels));
      }
    }

    /** The drawing state set on entering the drawing-context scope:
        antialiasing on, clipping to the plot's rectangle, hairline width
        and the plot's alpha. */
    method DrawSetup(gc: GraphicsContext<N, K>)
      modifies gc
      ensures gc.commands == old(gc.commands) + SetupCommands(Attributes())
    {
      gc.Emit(SetAntialias(true));
      gc.Emit(ClipToRect(x, y, width, height));
      gc.Emit(SetLineWidth(0));
      gc.Emit(SetAlpha(alpha));
    }

    /** One iteration of the band loop that finds its colour: the colour is
        set as fill and as stroke colour, the band's key is built from two
        consecutive levels and each of its cached polygons is drawn. */
    method DrawBand(gc: GraphicsContext<N, K>, i: nat, mapScreen: Poly<N> -> Poly<N>)
      requires i < NumBands(levels) && i < |colors| && BandKey(levels, i) in cachedPolys
      modifies gc
      ensures gc.commands == old(gc.commands)
        + BandCommands(colors[i], cachedPolys[BandKey(levels, i)], orientation, mapScreen)
    {
      gc.Emit(SetFillColor(colors[i]));
      gc.Emit(SetStrokeColor(colors[i]));
      var key := (levels[i], levels[i + 1]);
      DrawPolys(gc, cachedPolys[key], mapScreen);
    }

    /** The polygon loop of one band: each polygon mapped to screen space
        (for an orientation other than "h" with its columns reversed), then
        one `lines`, `close_path`, `draw_path` triple. */
    method DrawPolys(gc: GraphicsContext<N, K>, ps: seq<Poly<N>>, mapScreen: Poly<N> -> Poly<N>)
      modifies gc
      ensures gc.commands == old(gc.commands) + PolyCommands(ps, orientation, mapScreen)
    {
      var j := 0;
      while j < |ps|
        invariant 0 <= j <= |ps|
        invariant gc.commands == old(gc.commands) + PolyCommands(ps[..j], orientation, mapScreen)
      {
        var spoly: Poly<N>;
        if orientation == "h" {
          spoly := mapScreen(ps[j]);
        } else {
          spoly := SwapColumns(mapScreen(ps[j]));
        }
        assert ps[..j + 1][..j] == ps[..j];
        gc.Emit(Lines(spoly));
        gc.Emit(ClosePath);
        gc.Emit(DrawPath);
        j := j + 1;
      }
      assert ps[..|ps|] == ps;
    }
  }
}
