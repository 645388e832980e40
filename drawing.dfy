/**
 The graphics context as the contour plot uses it: every drawing call the
 plot makes is recorded, in order, as one command.
 */
module Drawing {
  import opened Geometry

  /** The drawing calls made by the plot; `N` is the numeric type of
      coordinates and alpha, `K` the colour type. */
  datatype Command<N, K> =
    | SetAntialias(on: bool)
    | ClipToRect(x: N, y: N, width: N, height: N)
    | SetLineWidth(lineWidth: int)
    | SetAlpha(alpha: N)
    | SetFillColor(fill: K)
    | SetStrokeColor(stroke: K)
    | Lines(points: Poly<N>)
    | ClosePath
    | DrawPath

  /** The state-setting commands issued once before any band is drawn. */
  predicate IsSetup<N, K>(c: Command<N, K>)
  {
    c.SetAntialias? || c.ClipToRect? || c.SetLineWidth? || c.SetAlpha?
  }

  /** A graphics context reduced to the log of calls made on it. */
  class GraphicsContext<N, K> {
    var commands: seq<Command<N, K>>

    constructor ()
      ensures commands == []
    {
      commands := [];
    }

    /** One drawing call: it is appended to the log and nothing else changes. */
    method Emit(c: Command<N, K>)
      modifies this
      ensures commands == old(commands) + [c]
    {
      commands := commands + [c];
    }
  }
}
