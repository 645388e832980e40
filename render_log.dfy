/**
 The drawing commands a render issues, as a function of the refreshed cache
 state, and what that command sequence looks like.
 */
module RenderLog {
  import opened Geometry
  import opened Drawing
  import opened PolyCache

  /** The plot attributes the render reads: orientation, alpha and the
      screen rectangle `(x, y, width, height)`. */
  datatype Attrs<N> = Attrs(orientation: string, alpha: N, x: N, y: N, width: N, height: N)

  /** How the render ends: every band drawn, or aborted at band `band`,
      either because `colors[band]` does not exist (an index error) or
      because the band's key is missing from the polygon cache (a key error). */
  datatype Outcome = Completed | ColorIndexError(band: nat) | KeyError(band: nat)

  /** The commands issued, and how the render ended. */
  datatype Drawn<N, K> = Drawn(commands: seq<Command<N, K>>, outcome: Outcome)

  /** A cached polygon in screen space: mapped, and for any orientation other
      than "h" with its columns reversed. */
  function Screen<N>(orientation: string, mapScreen: Poly<N> -> Poly<N>, p: Poly<N>): Poly<N>
  {
    if orientation == "h" then mapScreen(p) else SwapColumns(mapScreen(p))
  }

  /** The state set once inside the drawing-context scope, before any band. */
  function SetupCommands<N, K>(a: Attrs<N>): seq<Command<N, K>>
  {
    [SetAntialias(true), ClipToRect(a.x, a.y, a.width, a.height), SetLineWidth(0), SetAlpha(a.alpha)]
  }

  /** One `lines`, `close_path`, `draw_path` triple per polygon, in order. */
  function PolyCommands<N, K>(ps: seq<Poly<N>>, orientation: string, mapScreen: Poly<N> -> Poly<N>): seq<Command<N, K>>
    decreases |ps|
  {
    if ps == [] then []
    else PolyCommands(ps[..|ps| - 1], orientation, mapScreen)
         + [Lines(Screen(orientation, mapScreen, ps[|ps| - 1])), ClosePath, DrawPath]
  }

  /** The commands of one band: its colour as fill and stroke colour, then
      its polygons. */
  function BandCommands<N, K>(color: K, ps: seq<Poly<N>>, orientation: string, mapScreen: Poly<N> -> Poly<N>): seq<Command<N, K>>
  {
    [SetFillColor(color), SetStrokeColor(color)] + PolyCommands(ps, orientation, mapScreen)
  }

  /** The first `n` iterations of the band loop. An index error on
      `colors[i]` aborts before anything of band `i` is issued; a key error
      aborts after its colours were set. */
  function BandsLog<N(==), K>(s: State<N, K>, orientation: string, mapScreen: Poly<N> -> Poly<N>, n: nat): Drawn<N, K>
    requires n <= NumBands(s.levels)
  {
    if n == 0 then Drawn([], Completed)
    else
      var d := BandsLog(s, orientation, mapScreen, n - 1);
      if !d.outcome.Completed? then d
      else if n - 1 >= |s.colors| then Drawn(d.commands, ColorIndexError(n - 1))
      else
        var key := BandKey(s.levels, n - 1);
        if key !in s.polys then
          Drawn(d.commands + [SetFillColor(s.colors[n - 1]), SetStrokeColor(s.colors[n - 1])], KeyError(n - 1))
        else
          Drawn(d.commands + BandCommands(s.colors[n - 1], s.polys[key], orientation, mapScreen), Completed)
  }

  /** Everything the drawing part of a render issues on the given state. */
  function Rendered<N(==), K>(s: State<N, K>, a: Attrs<N>, mapScreen: Poly<N> -> Poly<N>): Drawn<N, K>
  {
    var b := BandsLog(s, a.orientation, mapScreen, NumBands(s.levels));
    Drawn(SetupCommands(a) + b.commands, b.outcome)
  }

  /** Where band `i`'s commands start in the render log. */
  function BandStart<N(==), K>(s: State<N, K>, a: Attrs<N>, mapScreen: Poly<N> -> Poly<N>, i: nat): nat
    requires i <= NumBands(s.levels)
  {
    |SetupCommands<N, K>(a)| + |BandsLog(s, a.orientation, mapScreen, i).commands|
  }

  /** Each polygon yields exactly one `lines`, `close_path`, `draw_path`
      triple, the `k`-th triple drawing the `k`-th polygon in screen space. */
  lemma {:induction false} PolyCommandsLayout<N, K>(ps: seq<Poly<N>>, orientation: string, mapScreen: Poly<N> -> Poly<N>)
    ensures |PolyCommands<N, K>(ps, orientation, mapScreen)| == 3 * |ps|
    ensures forall k :: 0 <= k < |ps| ==>
      PolyCommands<N, K>(ps, orientation, mapScreen)[3 * k] == Lines(Screen(orientation, mapScreen, ps[k])) &&
      PolyCommands<N, K>(ps, orientation, mapScreen)[3 * k + 1] == ClosePath &&
      PolyCommands<N, K>(ps, orientation, mapScreen)[3 * k + 2] == DrawPath
    decreases |ps|
  {
    if ps != [] {
      var init := ps[..|ps| - 1];
      PolyCommandsLayout<N, K>(init, orientation, mapScreen);
      forall k | 0 <= k < |init| ensures ps[k] == init[k] { }
    }
  }

  /** No polygon command sets drawing state. */
  lemma {:induction false} PolyCommandsNoSetup<N, K>(ps: seq<Poly<N>>, orientation: string, mapScreen: Poly<N> -> Poly<N>)
    ensures forall j :: 0 <= j < |PolyCommands<N, K>(ps, orientation, mapScreen)| ==>
      !IsSetup(PolyCommands<N, K>(ps, orientation, mapScreen)[j])
    decreases |ps|
  {
    if ps != [] {
      PolyCommandsNoSetup<N, K>(ps[..|ps| - 1], orientation, mapScreen);
    }
  }

  /** No band command sets drawing state. */
  lemma {:induction false} BandsLogNoSetup<N, K>(s: State<N, K>, orientation: string, mapScreen: Poly<N> -> Poly<N>, n: nat)
    requires n <= NumBands(s.levels)
    ensures forall j :: 0 <= j < |BandsLog(s, orientation, mapScreen, n).commands| ==>
      !IsSetup(BandsLog(s, orientation, mapScreen, n).commands[j])
  {
    if n > 0 {
      BandsLogNoSetup(s, orientation, mapScreen, n - 1);
      var key := BandKey(s.levels, n - 1);
      if n - 1 < |s.colors| && key in s.polys {
        PolyCommandsNoSetup<N, K>(s.polys[key], orientation, mapScreen);
      }
    }
  }

  /** The antialias, clip, line-width and alpha commands come first, in that
      order, and every later command belongs to a band. */
  lemma SetupPrecedesBands<N, K>(s: State<N, K>, a: Attrs<N>, mapScreen: Poly<N> -> Poly<N>)
    ensures |Rendered(s, a, mapScreen).commands| >= 4
    ensures Rendered(s, a, mapScreen).commands[..4] ==
      [SetAntialias(true), ClipToRect(a.x, a.y, a.width, a.height), SetLineWidth(0), SetAlpha(a.alpha)]
    ensures forall j :: 4 <= j < |Rendered(s, a, mapScreen).commands| ==> !IsSetup(Rendered(s, a, mapScreen).commands[j])
  {
    var b := BandsLog(s, a.orientation, mapScreen, NumBands(s.levels));
    BandsLogNoSetup(s, a.orientation, mapScreen, NumBands(s.levels));
    var all := Rendered(s, a, mapScreen).commands;
    forall j | 4 <= j < |all| ensures !IsSetup(all[j]) {
      assert all[j] == b.commands[j - 4];
    }
  }

  /** An aborted loop stays aborted: later iterations add nothing. */
  lemma {:induction false} AbortIsFinal<N, K>(s: State<N, K>, orientation: string, mapScreen: Poly<N> -> Poly<N>, i: nat, n: nat)
    requires i <= n <= NumBands(s.levels)
    requires !BandsLog(s, orientation, mapScreen, i).outcome.Completed?
    ensures BandsLog(s, orientation, mapScreen, n) == BandsLog(s, orientation, mapScreen, i)
    decreases n
  {
    if n > i {
      AbortIsFinal(s, orientation, mapScreen, i, n - 1);
    }
  }

  /** The band loop completes exactly when every band has a colour and a
      cache entry; otherwise it aborts at the first band lacking either,
      an index error taking precedence because the colour is read first. */
  lemma {:induction false} BandsLogOutcome<N, K>(s: State<N, K>, orientation: string, mapScreen: Poly<N> -> Poly<N>, n: nat)
    requires n <= NumBands(s.levels)
    ensures BandsLog(s, orientation, mapScreen, n).outcome.Completed? <==>
      n <= |s.colors| && forall i :: 0 <= i < n ==> BandKey(s.levels, i) in s.polys
    ensures BandsLog(s, orientation, mapScreen, n).outcome.ColorIndexError? ==>
      var b := BandsLog(s, orientation, mapScreen, n).outcome.band;
      b == |s.colors| < n && forall i :: 0 <= i < b ==> BandKey(s.levels, i) in s.polys
    ensures BandsLog(s, orientation, mapScreen, n).outcome.KeyError? ==>
      var b := BandsLog(s, orientation, mapScreen, n).outcome.band;
      b < n && b < |s.colors| && BandKey(s.levels, b) !in s.polys &&
      forall i :: 0 <= i < b ==> BandKey(s.levels, i) in s.polys
  {
    if n > 0 {
      BandsLogOutcome(s, orientation, mapScreen, n - 1);
    }
  }

  /** One iteration of the band loop that finds its colour and its cache
      entry appends exactly that band's commands. */
  lemma BandStep<N, K>(s: State<N, K>, orientation: string, mapScreen: Poly<N> -> Poly<N>, i: nat)
    requires i < NumBands(s.levels) && i < |s.colors| && BandKey(s.levels, i) in s.polys
    requires BandsLog(s, orientation, mapScreen, i).outcome == Completed
    ensures BandsLog(s, orientation, mapScreen, i + 1) == Drawn(BandsLog(s, orientation, mapScreen, i).commands
      + BandCommands(s.colors[i], s.polys[BandKey(s.levels, i)], orientation, mapScreen), Completed)
  {
  }

  /** The window `[|pre| + |before|, |pre| + |before| + |band|)` of
      `pre + all` is `band` when `before + band` is a prefix of `all`. */
  lemma Window<T>(pre: seq<T>, before: seq<T>, band: seq<T>, all: seq<T>)
    requires before + band <= all
    ensures |pre| + |before| + |band| <= |pre + all|
    ensures (pre + all)[|pre| + |before| .. |pre| + |before| + |band|] == band
  {
    var log := pre + all;
    var start := |pre| + |before|;
    forall k | 0 <= k < |band| ensures log[start + k] == band[k] {
      assert log[start + k] == all[|before| + k] == (before + band)[|before| + k];
    }
  }

  /** A band before the one a loop aborted at was drawn: if the first `n`
      iterations complete or abort at a band after `i`, band `i` has its
      colour and its cache entry and the first `i` and `i + 1` iterations
      completed. */
  lemma DrawnBeforeAbort<N, K>(s: State<N, K>, orientation: string, mapScreen: Poly<N> -> Poly<N>, i: nat, n: nat)
    requires i < n <= NumBands(s.levels)
    requires var o := BandsLog(s, orientation, mapScreen, n).outcome; o.Completed? || i < o.band
    ensures i < |s.colors| && BandKey(s.levels, i) in s.polys
    ensures BandsLog(s, orientation, mapScreen, i).outcome == Completed
    ensures BandsLog(s, orientation, mapScreen, i + 1).outcome == Completed
  {
    BandsLogOutcome(s, orientation, mapScreen, n);
    BandsLogOutcome(s, orientation, mapScreen, i);
    BandsLogOutcome(s, orientation, mapScreen, i + 1);
  }

  /** Band `i`, once drawn, occupies the window of the whole band log (after
      any prefix `pre`) that starts where the first `i` bands end: its two
      colour commands and one triple per polygon. */
  lemma BandWindow<N, K>(s: State<N, K>, orientation: string, mapScreen: Poly<N> -> Poly<N>, pre: seq<Command<N, K>>, i: nat, n: nat)
    requires i < n <= NumBands(s.levels)
    requires i < |s.colors| && BandKey(s.levels, i) in s.polys
    requires BandsLog(s, orientation, mapScreen, i).outcome == Completed
    ensures var before := BandsLog(s, orientation, mapScreen, i).commands;
      var after := BandsLog(s, orientation, mapScreen, i + 1).commands;
      var ps := s.polys[BandKey(s.levels, i)];
      && |after| == |before| + 2 + 3 * |ps|
      && |pre| + |after| <= |pre + BandsLog(s, orientation, mapScreen, n).commands|
      && (pre + BandsLog(s, orientation, mapScreen, n).commands)[|pre| + |before| .. |pre| + |after|]
         == BandCommands(s.colors[i], ps, orientation, mapScreen)
  {
    var ps := s.polys[BandKey(s.levels, i)];
    var band := BandCommands(s.colors[i], ps, orientation, mapScreen);
    BandStep(s, orientation, mapScreen, i);
    PolyCommandsLayout<N, K>(ps, orientation, mapScreen);
    BandsLogPrefix(s, orientation, mapScreen, i + 1, n);
    Window(pre, BandsLog(s, orientation, mapScreen, i).commands, band, BandsLog(s, orientation, mapScreen, n).commands);
  }

  /** Bands are drawn in level order: in a completed render, and in an
      aborted one for every band before the abort, band `i`'s commands start
      right where band `i - 1`'s end, with its colour set first as fill and
      then as stroke colour, followed by one triple per cached polygon of
      its key, in cache order. */
  lemma BandLayout<N, K>(s: State<N, K>, a: Attrs<N>, mapScreen: Poly<N> -> Poly<N>, i: nat)
    requires i < NumBands(s.levels)
    requires Rendered(s, a, mapScreen).outcome.Completed? || i < Rendered(s, a, mapScreen).outcome.band
    ensures i < |s.colors| && BandKey(s.levels, i) in s.polys
    ensures BandStart(s, a, mapScreen, i + 1)
      == BandStart(s, a, mapScreen, i) + 2 + 3 * |s.polys[BandKey(s.levels, i)]|
    ensures BandStart(s, a, mapScreen, i + 1) <= |Rendered(s, a, mapScreen).commands|
    ensures Rendered(s, a, mapScreen).commands[BandStart(s, a, mapScreen, i) .. BandStart(s, a, mapScreen, i + 1)]
      == BandCommands(s.colors[i], s.polys[BandKey(s.levels, i)], a.orientation, mapScreen)
    ensures Rendered(s, a, mapScreen).commands[BandStart(s, a, mapScreen, i)] == SetFillColor(s.colors[i])
    ensures Rendered(s, a, mapScreen).commands[BandStart(s, a, mapScreen, i) + 1] == SetStrokeColor(s.colors[i])
  {
    var n := NumBands(s.levels);
    DrawnBeforeAbort(s, a.orientation, mapScreen, i, n);
    BandWindow(s, a.orientation, mapScreen, SetupCommands<N, K>(a), i, n);
    var band := BandCommands(s.colors[i], s.polys[BandKey(s.levels, i)], a.orientation, mapScreen);
    var window := Rendered(s, a, mapScreen).commands[BandStart(s, a, mapScreen, i) .. BandStart(s, a, mapScreen, i + 1)];
    assert window[0] == band[0] && window[1] == band[1];
  }

  /** The commands of the first `i` bands are a prefix of those of the first `n`. */
  lemma {:induction false} BandsLogPrefix<N, K>(s: State<N, K>, orientation: string, mapScreen: Poly<N> -> Poly<N>, i: nat, n: nat)
    requires i <= n <= NumBands(s.levels)
    ensures BandsLog(s, orientation, mapScreen, i).commands <= BandsLog(s, orientation, mapScreen, n).commands
    decreases n
  {
    if n > i {
      BandsLogPrefix(s, orientation, mapScreen, i, n - 1);
    }
  }

  /** With fewer than two levels no band command is issued: the render is
      exactly the setup. */
  lemma FewLevelsOnlySetup<N, K>(s: State<N, K>, a: Attrs<N>, mapScreen: Poly<N> -> Poly<N>)
    requires |s.levels| < 2
    ensures Rendered(s, a, mapScreen) == Drawn(SetupCommands(a), Completed)
  {
  }

  /** On a refreshed state that keeps the cache invariant the dictionary
      lookup never fails, and when the colours were refreshed in the same
      call from a colour source that honours the requested count, every band
      is drawn. */
  lemma RefreshedRenderCompletes<N, K>(s: State<N, K>, h: Host<N, K>, a: Attrs<N>)
    requires BandsCached(s)
    ensures !Rendered(Refreshed(s, h), a, h.mapScreen).outcome.KeyError?
    ensures RefreshesColors(s, h) && |h.colorsFor(|Refreshed(s, h).levels| - 1)| >= |Refreshed(s, h).levels| - 1 ==>
      Rendered(Refreshed(s, h), a, h.mapScreen).outcome == Completed
  {
    var r := Refreshed(s, h);
    RefreshKeepsBandsCached(s, h);
    BandsLogOutcome(r, a.orientation, h.mapScreen, NumBands(r.levels));
  }

  /** When the base class's level update leaves a valid colour cache valid,
      colours cached for earlier levels are drawn with the new ones: levels
      going from `[]` to `[0, 1, 2]` over an empty, valid colour cache make
      the render fail on `colors[0]`. */
  lemma KeptColorsIndexError(h: Host<int, int>, a: Attrs<int>)
    requires h.newLevels == [0, 1, 2] && h.levelsKeepColors
    ensures Rendered(Refreshed(State(false, false, true, [], [], map[], map[]), h), a, h.mapScreen).outcome
      == ColorIndexError(0)
  {
    var r := Refreshed(State(false, false, true, [], [], map[], map[]), h);
    assert r.colors == [] && r.levels == [0, 1, 2];
    assert BandsLog(r, a.orientation, h.mapScreen, 1).outcome == ColorIndexError(0);
    AbortIsFinal(r, a.orientation, h.mapScreen, 1, 2);
  }
}
