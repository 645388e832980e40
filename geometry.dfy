/**
 Polygons as the contour plot stores and draws them.

 Coordinates are of an arbitrary type `N`: the plot never computes with them,
 it only moves them between the tracer, the cache and the drawing calls.
 */
module Geometry {

  /** One vertex: a row of an M x 2 coordinate array. */
  type Point<N> = (N, N)

  /** A polygon as cached by the plot: its vertices in order. */
  type Poly<N> = seq<Point<N>>

  /** What the contour tracer returns for one polygon: a 2 x M array whose
      first row holds the first coordinates and whose second row holds the
      second coordinates. */
  datatype RawTrace<N> = RawTrace(first: seq<N>, second: seq<N>)

  /** A well-formed trace has its two rows of equal length. */
  type Trace<N> = t: RawTrace<N> | |t.first| == |t.second| witness RawTrace([], [])

  /** Matrix transpose of a 2 x M trace: the M x 2 array of its vertices. */
  function Transpose<N>(t: Trace<N>): (p: Poly<N>)
    ensures |p| == |t.first|
  {
    seq(|t.first|, k requires 0 <= k < |t.first| => (t.first[k], t.second[k]))
  }

  /** Matrix transpose the other way: an M x 2 array back to its two rows. */
  function Untranspose<N>(p: Poly<N>): (t: Trace<N>)
    ensures |t.first| == |p|
  {
    RawTrace(seq(|p|, k requires 0 <= k < |p| => p[k].0),
             seq(|p|, k requires 0 <= k < |p| => p[k].1))
  }

  /** Transposing a trace loses nothing: transposing back gives the trace. */
  lemma TransposeRoundTrip<N>(t: Trace<N>)
    ensures Untranspose(Transpose(t)) == t
  {
    var u := Untranspose(Transpose(t));
    assert u.first == t.first;
    assert u.second == t.second;
  }

  /** Every M x 2 array is the transpose of exactly one trace. */
  lemma UntransposeRoundTrip<N>(p: Poly<N>)
    ensures Transpose(Untranspose(p)) == p
  {
  }

  /** Reversal of the column order of an M x 2 array (`a[:, ::-1]`): each
      vertex has its two coordinates swapped. */
  function SwapColumns<N>(p: Poly<N>): (q: Poly<N>)
    ensures |q| == |p|
  {
    seq(|p|, k requires 0 <= k < |p| => (p[k].1, p[k].0))
  }

  /** Reversing the columns twice restores the array. */
  lemma SwapColumnsInvolution<N>(p: Poly<N>)
    ensures SwapColumns(SwapColumns(p)) == p
  {
  }

  /** Reversing the columns exchanges the two coordinate rows: the first
      coordinates of the result are the second ones of the input, and the
      other way round. */
  lemma SwapColumnsExchangesAxes<N>(p: Poly<N>)
    ensures Untranspose(SwapColumns(p)) == RawTrace(Untranspose(p).second, Untranspose(p).first)
  {
    var q := Untranspose(SwapColumns(p));
    assert q.first == Untranspose(p).second;
    assert q.second == Untranspose(p).first;
  }

  /** Every cached polygon of one band: the transposes of the tracer's
      output, one per trace and in the tracer's order. */
  function TransposeAll<N>(ts: seq<Trace<N>>): (ps: seq<Poly<N>>)
    ensures |ps| == |ts|
  {
    seq(|ts|, k requires 0 <= k < |ts| => Transpose(ts[k]))
  }

  /** Transposing one more trace appends its transpose, which is how the
      cache entry of a band grows one `append` at a time. */
  lemma TransposeAllSnoc<N>(ts: seq<Trace<N>>, t: Trace<N>)
    ensures TransposeAll(ts + [t]) == TransposeAll(ts) + [Transpose(t)]
  {
  }
}
