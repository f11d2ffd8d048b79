/**
 * The per-object track state of the main loop, as values: the `paths`
 * dictionary (one point appended per detection) and the `kalman_filters`
 * dictionary (the first sighting inserts a filter, later ones predict and
 * then correct it). The functions here say what one detection, and a run of
 * detections from one perspective, does to the two dictionaries.
 */
module Registry {
  import opened Wrappers
  import opened Perspective

  /** A point of a path: the box centre truncated to ints. */
  datatype Point = Point(x: int, y: int)

  /** A box centre in sub-view pixel coordinates. */
  datatype Centre = Centre(x: real, y: real)

  /** One box from the detector: corners, class id and confidence in hundredths. */
  datatype Detection = Detection(x1: real, y1: real, x2: real, y2: real, cls: int, confCentis: int)

  /** The path key `f"{perspective}_{cls}_{conf:.2f}"`. */
  datatype PathKey = PathKey(view: View, cls: int, confCentis: int)

  /** The filter key `(perspective, cls)`. */
  datatype FilterKey = FilterKey(view: View, cls: int)

  /**
   * A Kalman filter, known by what was done to it: created at `seed`, then
   * corrected with `fused`, each correction preceded by one predict.
   * OpenCV's numerics are a function of exactly this history.
   */
  datatype Filter = Filter(seed: Centre, fused: seq<Centre>)

  type Paths = map<PathKey, seq<Point>>

  type Filters = map<FilterKey, Filter>

  /** What `kalman.predict()` returns for a filter with a given history. */
  type Numerics = Filter -> Centre

  /** Python's `int(r)`: truncation toward zero. */
  function Trunc(r: real): (n: int)
    ensures 0.0 <= r ==> 0 <= n && n as real <= r < n as real + 1.0
    ensures r < 0.0 ==> n <= 0 && n as real - 1.0 < r <= n as real
  {
    if r >= 0.0 then r.Floor else -((-r).Floor)
  }

  function CentreOf(d: Detection): Centre {
    Centre((d.x1 + d.x2) / 2.0, (d.y1 + d.y2) / 2.0)
  }

  function PathPoint(d: Detection): Point {
    Point(Trunc(CentreOf(d).x), Trunc(CentreOf(d).y))
  }

  function PathKeyOf(v: View, d: Detection): PathKey {
    PathKey(v, d.cls, d.confCentis)
  }

  function FilterKeyOf(v: View, d: Detection): FilterKey {
    FilterKey(v, d.cls)
  }

  /** The path of a key, the empty list when the `defaultdict` has none yet. */
  function PathOf(paths: Paths, k: PathKey): seq<Point> {
    if k in paths then paths[k] else []
  }

  /** `paths[k].append(p)`: the key is created if absent; every other key is untouched. */
  function AppendPoint(paths: Paths, k: PathKey, p: Point): (r: Paths)
    ensures r.Keys == paths.Keys + {k}
    ensures r[k] == PathOf(paths, k) + [p]
    ensures forall k' | k' in paths && k' != k :: r[k'] == paths[k']
  {
    paths[k := PathOf(paths, k) + [p]]
  }

  /** The paths after the detections ds of perspective v, in order. */
  function PathsAfter(paths: Paths, v: View, ds: seq<Detection>): Paths
    decreases |ds|
  {
    if ds == [] then paths
    else
      var d := ds[|ds| - 1];
      AppendPoint(PathsAfter(paths, v, ds[..|ds| - 1]), PathKeyOf(v, d), PathPoint(d))
  }

  lemma PathsAfterStep(paths: Paths, v: View, ds: seq<Detection>, i: nat)
    requires i < |ds|
    ensures PathsAfter(paths, v, ds[..i + 1]) == AppendPoint(PathsAfter(paths, v, ds[..i]), PathKeyOf(v, ds[i]), PathPoint(ds[i]))
  {
    assert ds[..i + 1][..i] == ds[..i];
  }

  /** The points the detections ds of perspective v contribute to key k, in order. */
  function PointsFor(v: View, ds: seq<Detection>, k: PathKey): seq<Point>
    decreases |ds|
  {
    if ds == [] then []
    else
      var d := ds[|ds| - 1];
      PointsFor(v, ds[..|ds| - 1], k) + (if PathKeyOf(v, d) == k then [PathPoint(d)] else [])
  }

  /**
   * Path accumulation: each key's path grows by exactly the points of the
   * detections with that key, in detection order, and nothing earlier is
   * dropped or reordered; a key exists afterwards iff it existed or got a point.
   */
  lemma {:induction false} PathsAfterAppends(paths: Paths, v: View, ds: seq<Detection>, k: PathKey)
    ensures PathOf(PathsAfter(paths, v, ds), k) == PathOf(paths, k) + PointsFor(v, ds, k)
    ensures k in PathsAfter(paths, v, ds) <==> k in paths || PointsFor(v, ds, k) != []
    decreases |ds|
  {
    if ds != [] {
      PathsAfterAppends(paths, v, ds[..|ds| - 1], k);
    }
  }

  /** Detections of one perspective never touch the paths of another. */
  lemma {:induction false} PointsForOtherView(v: View, ds: seq<Detection>, k: PathKey)
    requires k.view != v
    ensures PointsFor(v, ds, k) == []
    decreases |ds|
  {
    if ds != [] {
      PointsForOtherView(v, ds[..|ds| - 1], k);
    }
  }

  /** `initialize_kalman_filter(x, y)`. */
  function InitFilter(c: Centre): Filter {
    Filter(c, [])
  }

  /** `kalman.correct(m)`, after the predict that always precedes it. */
  function Correct(f: Filter, m: Centre): Filter {
    f.(fused := f.fused + [m])
  }

  function Lookup(filters: Filters, k: FilterKey): Option<Filter> {
    if k in filters then Some(filters[k]) else None
  }

  /**
   * One detection at filter key k: a first sighting only inserts a filter
   * seeded at c; a later one corrects the existing filter with c.
   */
  function UpdateFilters(filters: Filters, k: FilterKey, c: Centre): (r: Filters)
    ensures r.Keys == filters.Keys + {k}
    ensures k !in filters ==> r[k] == Filter(c, [])
    ensures k in filters ==> r[k].seed == filters[k].seed && r[k].fused == filters[k].fused + [c]
    ensures forall k' | k' in filters && k' != k :: r[k'] == filters[k']
  {
    if k in filters then filters[k := Correct(filters[k], c)] else filters[k := InitFilter(c)]
  }

  /**
   * The predicted point of one detection at key k: none on a first sighting,
   * otherwise what predict gives on the filter before the new measurement.
   */
  function Prediction(filters: Filters, k: FilterKey, numerics: Numerics): Option<Centre> {
    if k in filters then Some(numerics(filters[k])) else None
  }

  /** The predicted points of the detections ds of perspective v, one per detection, in order. */
  function Predictions(filters: Filters, v: View, ds: seq<Detection>, numerics: Numerics): seq<Option<Centre>>
    decreases |ds|
  {
    if ds == [] then []
    else
      var init := ds[..|ds| - 1];
      Predictions(filters, v, init, numerics) + [Prediction(FiltersAfter(filters, v, init), FilterKeyOf(v, ds[|ds| - 1]), numerics)]
  }

  lemma PredictionsStep(filters: Filters, v: View, ds: seq<Detection>, i: nat, numerics: Numerics)
    requires i < |ds|
    ensures Predictions(filters, v, ds[..i + 1], numerics) ==
      Predictions(filters, v, ds[..i], numerics) + [Prediction(FiltersAfter(filters, v, ds[..i]), FilterKeyOf(v, ds[i]), numerics)]
  {
    assert ds[..i + 1][..i] == ds[..i];
  }

  /** One prediction per detection; the i-th is what predict gives on the filters left by the detections before it. */
  lemma {:induction false} PredictionsAt(filters: Filters, v: View, ds: seq<Detection>, numerics: Numerics, i: nat)
    requires i < |ds|
    ensures |Predictions(filters, v, ds, numerics)| == |ds|
    ensures Predictions(filters, v, ds, numerics)[i] == Prediction(FiltersAfter(filters, v, ds[..i]), FilterKeyOf(v, ds[i]), numerics)
    decreases |ds|
  {
    var init := ds[..|ds| - 1];
    if i < |ds| - 1 {
      PredictionsAt(filters, v, init, numerics, i);
      assert init[..i] == ds[..i];
    } else if init != [] {
      PredictionsAt(filters, v, init, numerics, 0);
    }
  }

  /** The filters after the detections ds of perspective v, in order. */
  function FiltersAfter(filters: Filters, v: View, ds: seq<Detection>): Filters
    decreases |ds|
  {
    if ds == [] then filters
    else
      var d := ds[|ds| - 1];
      UpdateFilters(FiltersAfter(filters, v, ds[..|ds| - 1]), FilterKeyOf(v, d), CentreOf(d))
  }

  lemma FiltersAfterStep(filters: Filters, v: View, ds: seq<Detection>, i: nat)
    requires i < |ds|
    ensures FiltersAfter(filters, v, ds[..i + 1]) == UpdateFilters(FiltersAfter(filters, v, ds[..i]), FilterKeyOf(v, ds[i]), CentreOf(ds[i]))
  {
    assert ds[..i + 1][..i] == ds[..i];
  }

  /** The centres the detections ds of perspective v feed to filter key k, in order. */
  function CentresFor(v: View, ds: seq<Detection>, k: FilterKey): seq<Centre>
    decreases |ds|
  {
    if ds == [] then []
    else
      var d := ds[|ds| - 1];
      CentresFor(v, ds[..|ds| - 1], k) + (if FilterKeyOf(v, d) == k then [CentreOf(d)] else [])
  }

  /** One key's filter after a run of measurements, starting from none or from an existing filter. */
  function FilterFold(f: Option<Filter>, cs: seq<Centre>): Option<Filter>
    decreases |cs|
  {
    if cs == [] then f
    else
      var c := cs[|cs| - 1];
      match FilterFold(f, cs[..|cs| - 1])
      case None => Some(InitFilter(c))
      case Some(g) => Some(Correct(g, c))
  }

  /**
   * Closed form of one key's history: an existing filter keeps its seed and
   * fuses every new measurement in order; a new one is seeded with the first
   * and fuses the rest; without measurements no filter appears.
   */
  lemma {:induction false} FilterFoldHistory(f: Option<Filter>, cs: seq<Centre>)
    ensures f.Some? ==> FilterFold(f, cs) == Some(Filter(f.value.seed, f.value.fused + cs))
    ensures f.None? ==> FilterFold(f, cs) == if cs == [] then None else Some(Filter(cs[0], cs[1..]))
    decreases |cs|
  {
    if cs != [] {
      var init, c := cs[..|cs| - 1], cs[|cs| - 1];
      assert cs == init + [c];
      FilterFoldHistory(f, init);
      if f.Some? {
        assert f.value.fused + init + [c] == f.value.fused + cs;
      } else if init == [] {
        assert cs[0] == c && cs[1..] == [];
      } else {
        assert init[0] == cs[0];
        assert init[1..] + [c] == cs[1..];
      }
    } else if f.Some? {
      assert f.value.fused + cs == f.value.fused;
    }
  }

  /** One more measurement at the end of a run: it seeds the filter if there is none yet, and corrects it otherwise. */
  lemma FilterFoldSnoc(f: Option<Filter>, cs: seq<Centre>, c: Centre)
    ensures FilterFold(f, cs + [c]) ==
      match FilterFold(f, cs)
      case None => Some(InitFilter(c))
      case Some(g) => Some(Correct(g, c))
  {
    assert (cs + [c])[..|cs|] == cs;
  }

  /** Each filter key evolves on its own, by the measurements of its own detections. */
  lemma {:induction false} FiltersAfterPerKey(filters: Filters, v: View, ds: seq<Detection>, k: FilterKey)
    ensures Lookup(FiltersAfter(filters, v, ds), k) == FilterFold(Lookup(filters, k), CentresFor(v, ds, k))
    decreases |ds|
  {
    if ds != [] {
      var init, d := ds[..|ds| - 1], ds[|ds| - 1];
      var cs := CentresFor(v, init, k);
      FiltersAfterPerKey(filters, v, init, k);
      if FilterKeyOf(v, d) == k {
        assert CentresFor(v, ds, k) == cs + [CentreOf(d)];
        FilterFoldSnoc(Lookup(filters, k), cs, CentreOf(d));
      } else {
        assert CentresFor(v, ds, k) == cs;
      }
    }
  }

  lemma {:induction false} CentresForOtherView(v: View, ds: seq<Detection>, k: FilterKey)
    requires k.view != v
    ensures CentresFor(v, ds, k) == []
    decreases |ds|
  {
    if ds != [] {
      CentresForOtherView(v, ds[..|ds| - 1], k);
    }
  }

  lemma {:induction false} CentresForEmpty(v: View, ds: seq<Detection>, k: FilterKey)
    ensures CentresFor(v, ds, k) == [] <==> forall j | 0 <= j < |ds| :: FilterKeyOf(v, ds[j]) != k
    decreases |ds|
  {
    if ds != [] {
      CentresForEmpty(v, ds[..|ds| - 1], k);
      assert forall j | 0 <= j < |ds| - 1 :: ds[..|ds| - 1][j] == ds[j];
    }
  }

  /**
   * Cold versus warm: the i-th detection of a run yields no prediction exactly
   * when its filter key had no filter before the run and no earlier detection
   * of the run had that key.
   */
  lemma FirstSightingIsCold(filters: Filters, v: View, ds: seq<Detection>, i: nat, numerics: Numerics)
    requires i < |ds|
    ensures var k := FilterKeyOf(v, ds[i]);
      Prediction(FiltersAfter(filters, v, ds[..i]), k, numerics).None? <==>
        k !in filters && forall j | 0 <= j < i :: FilterKeyOf(v, ds[j]) != k
  {
    var k := FilterKeyOf(v, ds[i]);
    FiltersAfterPerKey(filters, v, ds[..i], k);
    FilterFoldHistory(Lookup(filters, k), CentresFor(v, ds[..i], k));
    CentresForEmpty(v, ds[..i], k);
    assert forall j | 0 <= j < i :: ds[..i][j] == ds[j];
  }
}
