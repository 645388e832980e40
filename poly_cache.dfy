/**
 The three caches of the filled contour plot (levels, traced polygons,
 colours), their validity flags, and the refresh steps on them, as pure
 functions on a snapshot of the plot's state.
 */
module PolyCache {
  import opened Geometry

  /** A band key: the lower and upper level of one band. */
  type Key<N(==)> = (N, N)

  /** The polygon cache: band key to the band's polygons. */
  type Cache<N(==)> = map<Key<N>, seq<Poly<N>>>

  /** The collaborators outside this file, each reduced to its effect:
      - `newLevels`: the level sequence the base class's level update assigns;
      - `levelsKeepColors`: whether the base class's level update leaves the
        colour flag as it was (false: it also marks the colours stale);
      - `tracer`: the contour tracer built from the current grid, asked for
        the traces of one band `(lower, upper)`;
      - `mapScreen`: the index mapper's data-to-screen mapping of a polygon;
      - `colorsFor`: the colour sequence the base class's colour update
        assigns when asked for `numcolors` colours. */
  datatype Host<!N(==), K> = Host(
    newLevels: seq<N>,
    levelsKeepColors: bool,
    tracer: (N, N) -> seq<Trace<N>>,
    mapScreen: Poly<N> -> Poly<N>,
    colorsFor: int -> seq<K>)

  /** The number of iterations of `range(len(levels) - 1)`. */
  function NumBands<N(==)>(levels: seq<N>): nat
  {
    if |levels| == 0 then 0 else |levels| - 1
  }

  /** The key of band `i`: two consecutive levels. */
  function BandKey<N(==)>(levels: seq<N>, i: nat): Key<N>
    requires i < NumBands(levels)
  {
    (levels[i], levels[i + 1])
  }

  /** The keys of the first `n` bands. */
  function Bands<N(==)>(levels: seq<N>, n: nat): set<Key<N>>
  {
    set i | 0 <= i < n && i < NumBands(levels) :: BandKey(levels, i)
  }

  /** The keys of all current bands. */
  function BandSet<N(==)>(levels: seq<N>): set<Key<N>>
  {
    Bands(levels, NumBands(levels))
  }

  /** The cache entry the poly update stores for one band: one transposed
      polygon per trace, in the tracer's order. */
  function Traced<N(==)>(tracer: (N, N) -> seq<Trace<N>>, key: Key<N>): (ps: seq<Poly<N>>)
    ensures |ps| == |tracer(key.0, key.1)|
    ensures forall j :: 0 <= j < |ps| ==> ps[j] == Transpose(tracer(key.0, key.1)[j])
  {
    TransposeAll(tracer(key.0, key.1))
  }

  /** The cache after the first `n` iterations of the band loop of the poly
      update: each iteration overwrites (or adds) one band's entry and
      removes nothing. */
  function Refill<N(==)>(cache: Cache<N>, levels: seq<N>, tracer: (N, N) -> seq<Trace<N>>, n: nat): Cache<N>
    requires n <= NumBands(levels)
  {
    if n == 0 then cache
    else
      var key := BandKey(levels, n - 1);
      Refill(cache, levels, tracer, n - 1)[key := Traced(tracer, key)]
  }

  /** After `n` iterations the cache holds the old keys and the first `n`
      band keys; every such band maps to its traced polygons, and every other
      key keeps its old entry. */
  lemma {:induction false} RefillSpec<N>(cache: Cache<N>, levels: seq<N>, tracer: (N, N) -> seq<Trace<N>>, n: nat)
    requires n <= NumBands(levels)
    ensures Refill(cache, levels, tracer, n).Keys == cache.Keys + Bands(levels, n)
    ensures forall i :: 0 <= i < n ==>
      Refill(cache, levels, tracer, n)[BandKey(levels, i)] == Traced(tracer, BandKey(levels, i))
    ensures forall k :: k in cache && k !in Bands(levels, n) ==> Refill(cache, levels, tracer, n)[k] == cache[k]
  {
    if n > 0 {
      RefillSpec(cache, levels, tracer, n - 1);
      assert Bands(levels, n) == Bands(levels, n - 1) + {BandKey(levels, n - 1)};
    }
  }

  /** A snapshot of the plot's cache state: the three validity flags, the
      level and colour caches, the polygon cache, and the separate
      `_cached_contours` attribute that the poly update clears. */
  datatype State<N(==), K> = State(
    levelValid: bool,
    polyValid: bool,
    colorsValid: bool,
    levels: seq<N>,
    colors: seq<K>,
    polys: Cache<N>,
    contours: Cache<N>)

  /** A fresh plot: nothing cached, every flag false. */
  function Initial<N(==), K>(): State<N, K>
  {
    State(false, false, false, [], [], map[], map[])
  }

  /** The level update: the base class assigns the new levels, marks them
      valid and, unless `keepColors`, marks the colours stale; this plot
      then invalidates the polygon cache. */
  function LevelsUpdated<N(==), K>(s: State<N, K>, newLevels: seq<N>, keepColors: bool): State<N, K>
  {
    s.(levels := newLevels, levelValid := true, colorsValid := s.colorsValid && keepColors, polyValid := false)
  }

  /** The poly update: `_cached_contours` is reset, every current band is
      traced into the polygon cache, and the polygon cache is marked valid. */
  function PolysUpdated<N(==), K>(s: State<N, K>, tracer: (N, N) -> seq<Trace<N>>): State<N, K>
  {
    s.(contours := map[], polys := Refill(s.polys, s.levels, tracer, NumBands(s.levels)), polyValid := true)
  }

  /** The colour update: the base class is asked for `len(levels) - 1`
      colours, assigns them and marks the colours valid. */
  function ColorsUpdated<N(==), K>(s: State<N, K>, colorsFor: int -> seq<K>): State<N, K>
  {
    s.(colors := colorsFor(|s.levels| - 1), colorsValid := true)
  }

  /** The refresh steps at the start of a render, in their fixed order. */
  function Refreshed<N(==), K>(s: State<N, K>, h: Host<N, K>): State<N, K>
  {
    var s1 := if !s.levelValid then LevelsUpdated(s, h.newLevels, h.levelsKeepColors) else s;
    var s2 := if !s1.polyValid then PolysUpdated(s1, h.tracer) else s1;
    if !s2.colorsValid then ColorsUpdated(s2, h.colorsFor) else s2
  }

  /** The state invariant: a valid polygon cache has an entry for every
      current band, so the render loop's dictionary lookup cannot fail. */
  predicate BandsCached<N(==), K>(s: State<N, K>)
  {
    s.polyValid ==> forall i :: 0 <= i < NumBands(s.levels) ==> BandKey(s.levels, i) in s.polys
  }

  /** The level update always leaves the polygon cache invalid, whatever the
      flags were before, and doing it twice is doing it once. */
  lemma LevelsUpdateInvalidatesPolys<N, K>(s: State<N, K>, newLevels: seq<N>, keepColors: bool)
    ensures LevelsUpdated(s, newLevels, keepColors).levelValid && !LevelsUpdated(s, newLevels, keepColors).polyValid
    ensures LevelsUpdated(LevelsUpdated(s, newLevels, keepColors), newLevels, keepColors) == LevelsUpdated(s, newLevels, keepColors)
  {
  }

  /** The poly update marks the cache valid, stores each current band's
      traced polygons under the band's key, keeps every key it found (so
      stale keys of earlier level sequences survive with their old
      entries), adds no key that is not a current band, and clears only
      `_cached_contours`. */
  lemma PolysUpdatedSpec<N, K>(s: State<N, K>, tracer: (N, N) -> seq<Trace<N>>)
    ensures PolysUpdated(s, tracer).polyValid
    ensures forall i :: 0 <= i < NumBands(s.levels) ==>
      BandKey(s.levels, i) in PolysUpdated(s, tracer).polys &&
      PolysUpdated(s, tracer).polys[BandKey(s.levels, i)] == Traced(tracer, BandKey(s.levels, i))
    ensures PolysUpdated(s, tracer).polys.Keys == s.polys.Keys + BandSet(s.levels)
    ensures forall k :: k in s.polys && k !in BandSet(s.levels) ==> PolysUpdated(s, tracer).polys[k] == s.polys[k]
    ensures PolysUpdated(s, tracer).contours == map[]
    ensures BandsCached(PolysUpdated(s, tracer))
  {
    RefillSpec(s.polys, s.levels, tracer, NumBands(s.levels));
  }

  /** With fewer than two levels the band loop runs zero times: no polygon
      entry is written, and the colour update asks for at most zero
      colours (minus one when there are no levels at all). */
  lemma FewLevelsNoBands<N, K>(s: State<N, K>, tracer: (N, N) -> seq<Trace<N>>, colorsFor: int -> seq<K>)
    requires |s.levels| < 2
    ensures BandSet(s.levels) == {}
    ensures PolysUpdated(s, tracer).polys == s.polys
    ensures ColorsUpdated(s, colorsFor).colors == colorsFor(|s.levels| - 1) && |s.levels| - 1 <= 0
  {
  }

  /** Distinct levels give distinct band keys: the first `n` bands have `n`
      different keys. */
  lemma {:induction false} BandSetSize<N>(levels: seq<N>, n: nat)
    requires n <= NumBands(levels)
    requires forall i, j :: 0 <= i < j < |levels| ==> levels[i] != levels[j]
    ensures |Bands(levels, n)| == n
  {
    if n > 0 {
      BandSetSize(levels, n - 1);
      var key := BandKey(levels, n - 1);
      assert Bands(levels, n) == Bands(levels, n - 1) + {key};
      forall j | 0 <= j < n - 1 ensures BandKey(levels, j) != key {
        assert BandKey(levels, j).0 == levels[j] != levels[n - 1] == key.0;
      }
    }
  }

  /** When the cache held no key outside the current bands (a first fill,
      say), the poly update leaves exactly one entry per band; with distinct
      levels that is `len(levels) - 1` entries. */
  lemma FirstFillOneEntryPerBand<N, K>(s: State<N, K>, tracer: (N, N) -> seq<Trace<N>>)
    requires s.polys.Keys <= BandSet(s.levels)
    requires forall i, j :: 0 <= i < j < |s.levels| ==> s.levels[i] != s.levels[j]
    ensures PolysUpdated(s, tracer).polys.Keys == BandSet(s.levels)
    ensures |PolysUpdated(s, tracer).polys| == NumBands(s.levels)
  {
    var polys := Refill(s.polys, s.levels, tracer, NumBands(s.levels));
    RefillSpec(s.polys, s.levels, tracer, NumBands(s.levels));
    assert polys.Keys == BandSet(s.levels);
    BandSetSize(s.levels, NumBands(s.levels));
    assert |polys.Keys| == |polys|;
  }

  /** A key of an earlier level sequence is not removed by a later fill:
      after levels `[0, 1]` were traced and the levels became `[2, 3]`, the
      cache holds both band keys. */
  lemma StaleKeySurvives(tracer: (int, int) -> seq<Trace<int>>, colors: seq<int>)
    ensures var before := State(true, false, true, [2, 3], colors, map[(0, 1) := Traced(tracer, (0, 1))], map[]);
      PolysUpdated(before, tracer).polys.Keys == {(0, 1), (2, 3)}
  {
    var before := State(true, false, true, [2, 3], colors, map[(0, 1) := Traced(tracer, (0, 1))], map[]);
    PolysUpdatedSpec(before, tracer);
    assert BandSet(before.levels) == {(2, 3)} by {
      assert BandKey(before.levels, 0) == (2, 3);
    }
  }

  /** Whether a refresh recomputes the colours: they were stale already, or
      the level update it runs marks them stale. */
  predicate RefreshesColors<N(==), K>(s: State<N, K>, h: Host<N, K>)
  {
    !s.colorsValid || (!s.levelValid && !h.levelsKeepColors)
  }

  /** The refresh order: levels are refreshed only when invalid; polygons
      are re-traced exactly when the levels or the polygons were invalid,
      always against the refreshed levels; colours are refreshed exactly
      when they were invalid or the level update made them so, for the
      refreshed levels. Afterwards every flag is true. */
  lemma RefreshOrder<N, K>(s: State<N, K>, h: Host<N, K>)
    ensures var r := Refreshed(s, h);
      && r.levelValid && r.polyValid && r.colorsValid
      && r.levels == (if s.levelValid then s.levels else h.newLevels)
      && r.polys == (if s.levelValid && s.polyValid then s.polys
                     else Refill(s.polys, r.levels, h.tracer, NumBands(r.levels)))
      && r.contours == (if s.levelValid && s.polyValid then s.contours else map[])
      && r.colors == (if RefreshesColors(s, h) then h.colorsFor(|r.levels| - 1) else s.colors)
  {
  }

  /** A render that refreshes the levels re-traces every new band in the
      same call. */
  lemma LevelRefreshRetraces<N, K>(s: State<N, K>, h: Host<N, K>)
    requires !s.levelValid
    ensures Refreshed(s, h).levels == h.newLevels
    ensures forall i :: 0 <= i < NumBands(h.newLevels) ==>
      BandKey(h.newLevels, i) in Refreshed(s, h).polys &&
      Refreshed(s, h).polys[BandKey(h.newLevels, i)] == Traced(h.tracer, BandKey(h.newLevels, i))
  {
    PolysUpdatedSpec(LevelsUpdated(s, h.newLevels, h.levelsKeepColors), h.tracer);
  }

  /** Rendering again without an invalidation in between is a cache hit:
      nothing is refreshed and the tracer is not consulted. */
  lemma RefreshIdempotent<N, K>(s: State<N, K>, h: Host<N, K>, h2: Host<N, K>)
    ensures Refreshed(Refreshed(s, h), h2) == Refreshed(s, h)
  {
  }

  /** The refresh keeps the invariant that a valid polygon cache covers
      every current band; after it, that cache is valid. */
  lemma RefreshKeepsBandsCached<N, K>(s: State<N, K>, h: Host<N, K>)
    requires BandsCached(s)
    ensures BandsCached(Refreshed(s, h)) && Refreshed(s, h).polyValid
  {
    var s1 := if !s.levelValid then LevelsUpdated(s, h.newLevels, h.levelsKeepColors) else s;
    if !s1.polyValid {
      PolysUpdatedSpec(s1, h.tracer);
    }
  }

  /** A fresh plot whose levels come out as `[0, 1]`: its first refresh
      asks for one colour and leaves exactly one band key, `(0, 1)`. */
  lemma SingleBandScenario(h: Host<int, int>)
    requires h.newLevels == [0, 1]
    ensures Refreshed(Initial(), h).polys.Keys == {(0, 1)}
    ensures Refreshed(Initial(), h).colors == h.colorsFor(1)
  {
    PolysUpdatedSpec(LevelsUpdated(Initial<int, int>(), h.newLevels, h.levelsKeepColors), h.tracer);
    assert BandSet(h.newLevels) == {(0, 1)} by {
      assert BandKey(h.newLevels, 0) == (0, 1);
    }
  }
}
