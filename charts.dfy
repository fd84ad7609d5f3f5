/** The date-window filter of the chart fetchers in `Hash_UTXO`: a chart
    response is a list of (timestamp, value) points, and only the points
    inside the requested window are kept, in their original order. */
module Charts {
  import opened Chain

  /** One chart point: `x` in seconds since the epoch, `y` the metric. */
  datatype Point = Point(x: int, y: real)

  /** The decoded JSON body; `values` is absent on an API error. */
  datatype ChartResponse = ChartResponse(values: Option<seq<Point>>)

  const MicrosPerSecond: int := 1000000

  /** Both window ends are inclusive. The bounds are instants in
      microseconds, the resolution of `datetime.now()`, while the points
      carry whole seconds. */
  predicate InWindow(p: Point, start: int, end: int)
  {
    start <= p.x * MicrosPerSecond <= end
  }

  /** The boolean mask `(timestamp >= start) & (timestamp <= end)`. */
  function Window(points: seq<Point>, start: int, end: int): (r: seq<Point>)
    ensures |r| <= |points|
    ensures forall p :: p in r <==> p in points && InWindow(p, start, end)
  {
    if points == [] then []
    else (if InWindow(points[0], start, end) then [points[0]] else []) + Window(points[1..], start, end)
  }

  /** Filtering is done point by point, so it keeps the original order:
      the window of a concatenation is the concatenation of the windows. */
  lemma {:induction false} WindowAppend(a: seq<Point>, b: seq<Point>, start: int, end: int)
    ensures Window(a + b, start, end) == Window(a, start, end) + Window(b, start, end)
  {
    if a == [] {
      assert a + b == b;
    } else {
      assert (a + b)[1..] == a[1..] + b;
      WindowAppend(a[1..], b, start, end);
    }
  }

  /** Filtering a filtered series again changes nothing. */
  lemma {:induction false} WindowIdempotent(points: seq<Point>, start: int, end: int)
    ensures Window(Window(points, start, end), start, end) == Window(points, start, end)
  {
    if points != [] {
      var head := if InWindow(points[0], start, end) then [points[0]] else [];
      var rest := Window(points[1..], start, end);
      WindowIdempotent(points[1..], start, end);
      WindowAppend(head, rest, start, end);
      if head != [] {
        assert head[1..] == [];
      }
    }
  }

  /** Filtering to a window and then to a narrower one is filtering to the
      narrower one. */
  lemma {:induction false} WindowNarrower(points: seq<Point>, start: int, end: int, start': int, end': int)
    requires start <= start' && end' <= end
    ensures Window(Window(points, start, end), start', end') == Window(points, start', end')
  {
    if points != [] {
      var head := if InWindow(points[0], start, end) then [points[0]] else [];
      var rest := Window(points[1..], start, end);
      WindowNarrower(points[1..], start, end, start', end');
      WindowAppend(head, rest, start', end');
      if head != [] {
        assert head[1..] == [];
      }
    }
  }

  /** `fetch_network_data` / `fetch_utxo_data` after the request: an
      empty frame when the body has no `values`, and otherwise the points
      inside the window. */
  function FetchSeries(response: ChartResponse, start: int, end: int): (r: seq<Point>)
    ensures response.values.None? ==> r == []
    ensures response.values.Some? ==> forall p :: p in r <==> p in response.values.value && InWindow(p, start, end)
  {
    match response.values
    case None => []
    case Some(points) => Window(points, start, end)
  }
}
