/**
 * The main loop of the tracker. A `Tracker` holds what the loop changes in
 * place: `paths`, `kalman_filters` and `previous_frames`. `Tick` handles one
 * frame: it visits the five perspectives in their fixed order, gates each on
 * saliency, feeds gated detections to the registries, and stores the frame
 * as every perspective's previous frame. The detector's boxes, the resize
 * routine and the Kalman numerics come in as parameters.
 */
module Pipeline {
  import opened Wrappers
  import opened Frames
  import opened Perspective
  import opened Saliency
  import opened Registry

  /** `cap.read` delivers BGR frames: three samples per pixel. */
  type Bgr = c: nat | c == 3 witness 3

  /** The run's constants: the capture's frame size, its channel count, and the threshold drawn at start-up. */
  datatype Run = Run(width: nat, height: nat, channels: Bgr, threshold: Threshold)

  /** `previous_frames`: one slot per perspective, None before the first frame. */
  type History = map<View, Option<Image>>

  ghost predicate FrameFits(run: Run, frame: Image) {
    && frame.Valid()
    && frame.height == run.height
    && frame.width == run.width
    && frame.channels == run.channels
  }

  /**
   * Every perspective has a slot, every slot holds the same thing (a tick
   * writes the same frame to all of them), and a stored frame has the run's shape.
   */
  ghost predicate HistoryFits(run: Run, previous: History) {
    && (forall v: View :: v in previous)
    && (forall v: View :: previous[v] == previous[Front])
    && (previous[Front].Some? ==> FrameFits(run, previous[Front].value))
  }

  /** Everything a tick reads besides the registries: the history as the tick found it, the frame, the resize routine and the detector's boxes per perspective. */
  datatype TickInput = TickInput(previous: History, frame: Image, resize: Resizer, detected: View -> seq<Detection>)

  ghost predicate Fits(run: Run, t: TickInput) {
    FrameFits(run, t.frame) && HistoryFits(run, t.previous) && KeepsShape(t.resize)
  }

  /** The saliency of perspective v in this tick: its sub-view against its own slot of the history. */
  function ViewSaliency(run: Run, t: TickInput, v: View): Result<real, SaliencyError>
    requires Fits(run, t)
  {
    DetectSaliency(Project(run.width, run.height, t.frame, v), t.previous[v], t.resize)
  }

  predicate Gated(run: Run, t: TickInput, v: View)
    requires Fits(run, t)
  {
    Gate(ViewSaliency(run, t, v), run.threshold)
  }

  /** One perspective's turn within a tick: the perspective and the detections it feeds to the registries. */
  type Step = (View, seq<Detection>)

  /** The gate decisions of the perspectives of vs, one after the other. */
  function GatesOf(run: Run, t: TickInput, vs: seq<View>): (motion: map<View, bool>)
    requires Fits(run, t)
    ensures forall v: View :: v in motion <==> v in vs
    decreases |vs|
  {
    if vs == [] then map[]
    else
      var v := vs[|vs| - 1];
      GatesOf(run, t, vs[..|vs| - 1])[v := Gated(run, t, v)]
  }

  /** The motion flags of a tick: the gate decision of every perspective. */
  function Gates(run: Run, t: TickInput): (motion: map<View, bool>)
    requires Fits(run, t)
    ensures motion.Keys == ViewSet
  {
    forall v: View ensures v in ViewSet && v in Views {
      ViewsComplete(v);
    }
    GatesOf(run, t, Views)
  }

  lemma {:induction false} GatesOfAt(run: Run, t: TickInput, vs: seq<View>, v: View)
    requires Fits(run, t) && v in vs
    ensures GatesOf(run, t, vs)[v] == Gated(run, t, v)
    decreases |vs|
  {
    if vs[|vs| - 1] != v {
      assert v in vs[..|vs| - 1];
      GatesOfAt(run, t, vs[..|vs| - 1], v);
    }
  }

  /** Every perspective's flag is its own gate decision. */
  lemma GatesAt(run: Run, t: TickInput, v: View)
    requires Fits(run, t)
    ensures v in Gates(run, t) && Gates(run, t)[v] == Gated(run, t, v)
  {
    ViewsComplete(v);
    GatesOfAt(run, t, Views, v);
  }

  /** The detections perspective v feeds to the registries: the detector's boxes when gated, none otherwise. */
  function Turn(motion: map<View, bool>, detected: View -> seq<Detection>, v: View): seq<Detection> {
    if v in motion && motion[v] then detected(v) else []
  }

  /** The five turns of a tick, in the fixed order. */
  function Turns(motion: map<View, bool>, detected: View -> seq<Detection>): (steps: seq<Step>)
    ensures |steps| == |Views|
    ensures forall i | 0 <= i < |Views| :: steps[i] == (Views[i], Turn(motion, detected, Views[i]))
  {
    seq(|Views|, i requires 0 <= i < |Views| => (Views[i], Turn(motion, detected, Views[i])))
  }

  /** The paths after the turns of steps, in order. */
  function PathsAcross(paths: Paths, steps: seq<Step>): Paths
    decreases |steps|
  {
    if steps == [] then paths
    else
      var st := steps[|steps| - 1];
      PathsAfter(PathsAcross(paths, steps[..|steps| - 1]), st.0, st.1)
  }

  /** The filters after the turns of steps, in order. */
  function FiltersAcross(filters: Filters, steps: seq<Step>): Filters
    decreases |steps|
  {
    if steps == [] then filters
    else
      var st := steps[|steps| - 1];
      FiltersAfter(FiltersAcross(filters, steps[..|steps| - 1]), st.0, st.1)
  }

  /**
   * The tick raises: a usable previous frame exists and the sub-views are
   * empty (a frame narrower or shorter than 8 pixels), so `cv2.resize` is
   * asked for an empty destination.
   */
  predicate Rejected(run: Run, previous: History)
    requires Front in previous
  {
    previous[Front].Some? && previous[Front].value.Size() > 0 && (run.width < 8 || run.height < 8)
  }

  /** Every perspective fails alike, so a tick that raises does so at its first perspective. */
  lemma RejectedAtEveryView(run: Run, t: TickInput, v: View)
    requires Fits(run, t)
    ensures ViewSaliency(run, t, v).Err? <==> Rejected(run, t.previous)
  {
    assert t.previous[v] == t.previous[Front];
    var sub := Project(run.width, run.height, t.frame, v);
    assert sub.height == 0 <==> run.height < 8;
    assert sub.width == 0 <==> run.width < 8;
  }

  /** No perspective takes two turns. */
  ghost predicate DistinctViews(steps: seq<Step>) {
    forall i, j | 0 <= i < j < |steps| :: steps[i].0 != steps[j].0
  }

  /** The detections of the turn of perspective v, none when v takes no turn. */
  function TurnOf(steps: seq<Step>, v: View): seq<Detection>
    decreases |steps|
  {
    if steps == [] then []
    else if steps[|steps| - 1].0 == v then steps[|steps| - 1].1
    else TurnOf(steps[..|steps| - 1], v)
  }

  /**
   * Over turns of distinct perspectives, a path key changes only in the turn
   * of its own perspective, and then by exactly that turn's points for it.
   */
  lemma {:induction false} PathsAcrossPerKey(paths: Paths, steps: seq<Step>, k: PathKey)
    requires DistinctViews(steps)
    ensures PathOf(PathsAcross(paths, steps), k) == PathOf(paths, k) + PointsFor(k.view, TurnOf(steps, k.view), k)
    ensures k in PathsAcross(paths, steps) <==> k in paths || PointsFor(k.view, TurnOf(steps, k.view), k) != []
    decreases |steps|
  {
    if steps == [] {
      assert PointsFor(k.view, [], k) == [];
    } else {
      var init, st := steps[..|steps| - 1], steps[|steps| - 1];
      assert DistinctViews(init);
      PathsAcrossPerKey(paths, init, k);
      PathsAfterAppends(PathsAcross(paths, init), st.0, st.1, k);
      if st.0 == k.view {
        TurnOfAbsent(init, k.view);
        assert PointsFor(k.view, [], k) == [];
      } else {
        PointsForOtherView(st.0, st.1, k);
      }
    }
  }

  lemma {:induction false} TurnOfAbsent(steps: seq<Step>, v: View)
    requires forall i | 0 <= i < |steps| :: steps[i].0 != v
    ensures TurnOf(steps, v) == []
    decreases |steps|
  {
    if steps != [] {
      TurnOfAbsent(steps[..|steps| - 1], v);
    }
  }

  /** Over turns of distinct perspectives, a filter key evolves only in the turn of its own perspective. */
  lemma {:induction false} FiltersAcrossPerKey(filters: Filters, steps: seq<Step>, k: FilterKey)
    requires DistinctViews(steps)
    ensures Lookup(FiltersAcross(filters, steps), k) == FilterFold(Lookup(filters, k), CentresFor(k.view, TurnOf(steps, k.view), k))
    decreases |steps|
  {
    if steps == [] {
      assert CentresFor(k.view, [], k) == [];
    } else {
      var init, st := steps[..|steps| - 1], steps[|steps| - 1];
      assert DistinctViews(init);
      FiltersAcrossPerKey(filters, init, k);
      FiltersAfterPerKey(FiltersAcross(filters, init), st.0, st.1, k);
      if st.0 == k.view {
        TurnOfAbsent(init, k.view);
        assert CentresFor(k.view, [], k) == [];
      } else {
        CentresForOtherView(st.0, st.1, k);
      }
    }
  }

  lemma {:induction false} TurnOfAt(steps: seq<Step>, i: nat)
    requires DistinctViews(steps) && i < |steps|
    ensures TurnOf(steps, steps[i].0) == steps[i].1
    decreases |steps|
  {
    if i < |steps| - 1 {
      var init := steps[..|steps| - 1];
      assert DistinctViews(init) && init[i] == steps[i];
      TurnOfAt(init, i);
    }
  }

  function IndexOf(v: View): (i: nat)
    ensures i < |Views| && Views[i] == v
  {
    match v
    case Front => 0
    case Left => 1
    case Right => 2
    case Leftmost => 3
    case Rightmost => 4
  }

  lemma TurnsWhole(motion: map<View, bool>, detected: View -> seq<Detection>)
    ensures Views[..|Views|] == Views
    ensures Turns(motion, detected)[..|Views|] == Turns(motion, detected)
  {
  }

  lemma TurnsStep(paths: Paths, filters: Filters, steps: seq<Step>, i: nat)
    requires i < |steps|
    ensures PathsAcross(paths, steps[..i + 1]) == PathsAfter(PathsAcross(paths, steps[..i]), steps[i].0, steps[i].1)
    ensures FiltersAcross(filters, steps[..i + 1]) == FiltersAfter(FiltersAcross(filters, steps[..i]), steps[i].0, steps[i].1)
  {
    assert steps[..i + 1][..i] == steps[..i];
  }

  /** The history after the slots of vs, one after the other, have been given the frame. */
  function Overwritten(h: History, frame: Image, vs: seq<View>): History
    decreases |vs|
  {
    if vs == [] then h
    else Overwritten(h, frame, vs[..|vs| - 1])[vs[|vs| - 1] := Some(frame)]
  }

  /** A slot named in vs holds the frame; any other slot is as it was. */
  lemma {:induction false} OverwrittenAt(h: History, frame: Image, vs: seq<View>, v: View)
    requires v in h
    ensures v in Overwritten(h, frame, vs)
    ensures Overwritten(h, frame, vs)[v] == if v in vs then Some(frame) else h[v]
    decreases |vs|
  {
    if vs != [] {
      var init := vs[..|vs| - 1];
      assert vs == init + [vs[|vs| - 1]];
      OverwrittenAt(h, frame, init, v);
    }
  }

  /** Visiting perspective Views[i] after the first i: its slot still holds what the tick found there. */
  lemma OverwrittenStep(h: History, frame: Image, i: nat)
    requires i < |Views| && Views[i] in h
    ensures Views[i] in Overwritten(h, frame, Views[..i])
    ensures Overwritten(h, frame, Views[..i])[Views[i]] == h[Views[i]]
    ensures Overwritten(h, frame, Views[..i + 1]) == Overwritten(h, frame, Views[..i])[Views[i] := Some(frame)]
  {
    OverwrittenAt(h, frame, Views[..i], Views[i]);
    assert Views[..i + 1][..i] == Views[..i];
  }

  /** Once all five perspectives are visited, every slot holds the frame. */
  lemma OverwrittenAll(run: Run, h: History, frame: Image)
    requires HistoryFits(run, h) && FrameFits(run, frame)
    ensures Overwritten(h, frame, Views) == map v | v in ViewSet :: Some(frame)
    ensures HistoryFits(run, Overwritten(h, frame, Views))
  {
    var r := Overwritten(h, frame, Views);
    forall v: View ensures v in ViewSet && v in r && r[v] == Some(frame) {
      ViewsComplete(v);
      OverwrittenAt(h, frame, Views, v);
    }
    assert r.Keys == ViewSet;
  }

  /**
   * The motion flags after the perspectives of vs, one after the other, have
   * been raised when gates marks them (and left alone otherwise).
   */
  function Flags(motion: map<View, bool>, gates: map<View, bool>, vs: seq<View>): map<View, bool>
    decreases |vs|
  {
    if vs == [] then motion
    else
      var v, m := vs[|vs| - 1], Flags(motion, gates, vs[..|vs| - 1]);
      if v in gates && gates[v] then m[v := true] else m
  }

  lemma {:induction false} FlagsAt(motion: map<View, bool>, gates: map<View, bool>, vs: seq<View>, v: View)
    requires v in motion
    ensures v in Flags(motion, gates, vs)
    ensures Flags(motion, gates, vs)[v] == (motion[v] || (v in vs && v in gates && gates[v]))
    decreases |vs|
  {
    if vs != [] {
      var init := vs[..|vs| - 1];
      assert vs == init + [vs[|vs| - 1]];
      FlagsAt(motion, gates, init, v);
    }
  }

  lemma FlagsStep(motion: map<View, bool>, gates: map<View, bool>, i: nat)
    requires i < |Views|
    ensures Flags(motion, gates, Views[..i + 1]) ==
      var m := Flags(motion, gates, Views[..i]);
      if Views[i] in gates && gates[Views[i]] then m[Views[i] := true] else m
  {
    assert Views[..i + 1][..i] == Views[..i];
  }

  /** Starting from all flags down, the flags after all five perspectives are the gate decisions. */
  lemma FlagsAll(gates: map<View, bool>)
    requires gates.Keys == ViewSet
    ensures Flags(map v | v in ViewSet :: false, gates, Views) == gates
  {
    var base := map v | v in ViewSet :: false;
    var r := Flags(base, gates, Views);
    forall v: View ensures v in ViewSet && v in r && r[v] == gates[v] {
      ViewsComplete(v);
      FlagsAt(base, gates, Views, v);
    }
    FlagsKeys(base, gates, Views);
    assert r.Keys == ViewSet;
  }

  lemma {:induction false} FlagsKeys(motion: map<View, bool>, gates: map<View, bool>, vs: seq<View>)
    ensures Flags(motion, gates, vs).Keys <= motion.Keys + gates.Keys
    decreases |vs|
  {
    if vs != [] {
      FlagsKeys(motion, gates, vs[..|vs| - 1]);
    }
  }

  /**
   * Perspective Views[i] takes its turn: the registries advance by its
   * detections when gated and stay put otherwise.
   */
  lemma TakeTurn(paths: Paths, filters: Filters, gates: map<View, bool>, detected: View -> seq<Detection>,
                 i: nat, gated: bool)
    requires i < |Views| && Views[i] in gates && gated == gates[Views[i]]
    ensures var steps, v := Turns(gates, detected), Views[i];
      && PathsAcross(paths, steps[..i + 1]) ==
         (if gated then PathsAfter(PathsAcross(paths, steps[..i]), v, detected(v)) else PathsAcross(paths, steps[..i]))
      && FiltersAcross(filters, steps[..i + 1]) ==
         (if gated then FiltersAfter(FiltersAcross(filters, steps[..i]), v, detected(v)) else FiltersAcross(filters, steps[..i]))
  {
    var steps := Turns(gates, detected);
    TurnsStep(paths, filters, steps, i);
    assert PathsAfter(PathsAcross(paths, steps[..i]), Views[i], []) == PathsAcross(paths, steps[..i]);
    assert FiltersAfter(FiltersAcross(filters, steps[..i]), Views[i], []) == FiltersAcross(filters, steps[..i]);
  }

  /** In a tick each perspective takes exactly one turn, with its own detections. */
  lemma TurnsOfView(motion: map<View, bool>, detected: View -> seq<Detection>, v: View)
    ensures DistinctViews(Turns(motion, detected))
    ensures TurnOf(Turns(motion, detected), v) == Turn(motion, detected, v)
  {
    var steps := Turns(motion, detected);
    assert forall i | 0 <= i < |steps| :: steps[i].0 == Views[i];
    TurnOfAt(steps, IndexOf(v));
  }

  /**
   * One whole tick, key by key: a path grows by the points of its own
   * perspective's gated detections, in order; a filter fuses the centres of
   * its own perspective's gated detections, in order, after its seed.
   */
  lemma TickPerKey(paths: Paths, filters: Filters, motion: map<View, bool>, detected: View -> seq<Detection>,
                   pk: PathKey, fk: FilterKey)
    ensures PathOf(PathsAcross(paths, Turns(motion, detected)), pk) ==
      PathOf(paths, pk) + PointsFor(pk.view, Turn(motion, detected, pk.view), pk)
    ensures var cs := CentresFor(fk.view, Turn(motion, detected, fk.view), fk);
      Lookup(FiltersAcross(filters, Turns(motion, detected)), fk) ==
        if fk in filters then Some(Filter(filters[fk].seed, filters[fk].fused + cs))
        else if cs == [] then None
        else Some(Filter(cs[0], cs[1..]))
  {
    TurnsOfView(motion, detected, pk.view);
    TurnsOfView(motion, detected, fk.view);
    PathsAcrossPerKey(paths, Turns(motion, detected), pk);
    FiltersAcrossPerKey(filters, Turns(motion, detected), fk);
    FilterFoldHistory(Lookup(filters, fk), CentresFor(fk.view, Turn(motion, detected, fk.view), fk));
  }

  lemma {:induction false} QuietTurns(paths: Paths, filters: Filters, steps: seq<Step>)
    requires forall i | 0 <= i < |steps| :: steps[i].1 == []
    ensures PathsAcross(paths, steps) == paths
    ensures FiltersAcross(filters, steps) == filters
    decreases |steps|
  {
    if steps != [] {
      QuietTurns(paths, filters, steps[..|steps| - 1]);
    }
  }

  /** On the first tick no slot holds a frame, so nothing is gated and the registries are left as they were. */
  lemma FirstTickIsQuiet(paths: Paths, filters: Filters, run: Run, t: TickInput)
    requires Fits(run, t) && t.previous[Front].None?
    ensures forall v | v in Gates(run, t) :: !Gates(run, t)[v]
    ensures PathsAcross(paths, Turns(Gates(run, t), t.detected)) == paths
    ensures FiltersAcross(filters, Turns(Gates(run, t), t.detected)) == filters
  {
    var motion := Gates(run, t);
    forall v | v in motion ensures !motion[v] {
      GatesAt(run, t, v);
      assert t.previous[v] == None;
    }
    QuietTurns(paths, filters, Turns(motion, t.detected));
  }

  class Tracker {
    const run: Run
    var paths: Paths
    var filters: Filters
    var previous: History

    ghost predicate Valid()
      reads this
    {
      HistoryFits(run, previous)
    }

    /** The state before the first frame: empty registries and an empty slot per perspective. */
    constructor (run: Run)
      ensures Valid() && this.run == run
      ensures paths == map[] && filters == map[]
      ensures previous == map v | v in ViewSet :: None
    {
      this.run := run;
      paths := map[];
      filters := map[];
      previous := map v | v in ViewSet :: None;
      forall v: View ensures v in ViewSet {
        ViewsComplete(v);
      }
    }

    /** `paths[key].append(point)`. */
    method RecordPath(k: PathKey, p: Point)
      modifies this
      ensures paths == AppendPoint(old(paths), k, p)
      ensures filters == old(filters) && previous == old(previous)
    {
      if k in paths {
        paths := paths[k := paths[k] + [p]];
      } else {
        assert PathOf(paths, k) + [p] == [p];
        paths := paths[k := [p]];
      }
    }

    /** The Kalman step of one detection: insert on a first sighting, otherwise predict then correct. */
    method UpdateFilter(k: FilterKey, c: Centre, numerics: Numerics) returns (predicted: Option<Centre>)
      modifies this
      ensures filters == UpdateFilters(old(filters), k, c)
      ensures predicted == Prediction(old(filters), k, numerics)
      ensures paths == old(paths) && previous == old(previous)
    {
      if k !in filters {
        filters := filters[k := InitFilter(c)];
        predicted := None;
      } else {
        var kalman := filters[k];
        predicted := Some(numerics(kalman));
        filters := filters[k := Correct(kalman, c)];
      }
    }

    /** The inner loop over the boxes of one gated perspective; returns each box's predicted point. */
    method ObserveView(v: View, ds: seq<Detection>, numerics: Numerics) returns (predicted: seq<Option<Centre>>)
      modifies this
      ensures paths == PathsAfter(old(paths), v, ds)
      ensures filters == FiltersAfter(old(filters), v, ds)
      ensures previous == old(previous)
      ensures predicted == Predictions(old(filters), v, ds, numerics)
    {
      predicted := [];
      for i := 0 to |ds|
        invariant paths == PathsAfter(old(paths), v, ds[..i])
        invariant filters == FiltersAfter(old(filters), v, ds[..i])
        invariant previous == old(previous)
        invariant predicted == Predictions(old(filters), v, ds[..i], numerics)
      {
        var d := ds[i];
        PathsAfterStep(old(paths), v, ds, i);
        FiltersAfterStep(old(filters), v, ds, i);
        PredictionsStep(old(filters), v, ds, i, numerics);
        RecordPath(PathKeyOf(v, d), PathPoint(d));
        var p := UpdateFilter(FilterKeyOf(v, d), CentreOf(d), numerics);
        predicted := predicted + [p];
      }
      assert ds[..|ds|] == ds;
    }

    /** `detect_saliency` on the sub-view of perspective v against its slot of the history, and its gate. */
    method Look(ghost t: TickInput, ghost gates: map<View, bool>, frame: Image, resize: Resizer, v: View)
      returns (s: Result<real, SaliencyError>)
      requires Fits(run, t) && t.frame == frame && t.resize == resize && gates == Gates(run, t)
      requires v in previous && previous[v] == t.previous[Front]
      ensures v in gates && Gate(s, run.threshold) == gates[v]
      ensures s.Err? <==> Rejected(run, t.previous)
    {
      assert t.previous[v] == t.previous[Front];
      s := DetectSaliency(Project(run.width, run.height, frame, v), previous[v], resize);
      RejectedAtEveryView(run, t, v);
      GatesAt(run, t, v);
    }

    /** `previous_frames[perspective] = frame.copy()`. */
    method Remember(v: View, frame: Image)
      modifies this
      ensures previous == old(previous)[v := Some(frame)]
      ensures paths == old(paths) && filters == old(filters)
    {
      previous := previous[v := Some(frame)];
    }

    /**
     * The body of the loop over the perspectives, for perspective Views[i]
     * after the first i have had their turn: it raises when the sub-view
     * cannot be compared, and otherwise raises the perspective's flag when
     * gated, feeds its detections to the registries when gated, and stores
     * the frame in its slot.
     */
    method Visit(ghost t: TickInput, ghost gates: map<View, bool>, ghost base: map<View, bool>,
                 ghost paths0: Paths, ghost filters0: Filters,
                 frame: Image, resize: Resizer, detected: View -> seq<Detection>, numerics: Numerics,
                 motion: map<View, bool>, i: nat)
      returns (next: map<View, bool>, err: Option<SaliencyError>)
      requires i < |Views| && Fits(run, t) && gates == Gates(run, t)
      requires t.frame == frame && t.resize == resize && t.detected == detected
      requires motion == Flags(base, gates, Views[..i])
      requires previous == Overwritten(t.previous, frame, Views[..i])
      requires paths == PathsAcross(paths0, Turns(gates, detected)[..i])
      requires filters == FiltersAcross(filters0, Turns(gates, detected)[..i])
      requires i > 0 ==> !Rejected(run, t.previous)
      modifies this
      ensures err.Some? <==> Rejected(run, t.previous)
      ensures err.Some? ==> i == 0 && paths == old(paths) && filters == old(filters) && previous == old(previous)
      ensures err.None? ==>
        && next == Flags(base, gates, Views[..i + 1])
        && previous == Overwritten(t.previous, frame, Views[..i + 1])
        && paths == PathsAcross(paths0, Turns(gates, detected)[..i + 1])
        && filters == FiltersAcross(filters0, Turns(gates, detected)[..i + 1])
    {
      var v := Views[i];
      OverwrittenStep(t.previous, frame, i);
      var s := Look(t, gates, frame, resize, v);
      if s.Err? {
        return motion, Some(s.error);
      }
      var gated := Gate(s, run.threshold);
      FlagsStep(base, gates, i);
      TakeTurn(paths0, filters0, gates, detected, i, gated);
      next := motion;
      if gated {
        next := next[v := true];
        var _ := ObserveView(v, detected(v), numerics);
      }
      Remember(v, frame);
      err := None;
    }

    /**
     * One iteration of the main loop on a frame of the run's shape. It raises
     * (and changes nothing) exactly when the run is rejected; otherwise every
     * registry is what the gated detections of the five perspectives, in
     * order, make of it, every slot of the history holds the frame, and the
     * motion flags are the gate decisions.
     */
    method Tick(frame: Image, resize: Resizer, detected: View -> seq<Detection>, numerics: Numerics)
      returns (outcome: Result<map<View, bool>, SaliencyError>)
      requires Valid() && FrameFits(run, frame) && KeepsShape(resize)
      modifies this
      ensures Valid()
      ensures outcome.Err? <==> Rejected(run, old(previous))
      ensures outcome.Err? ==> paths == old(paths) && filters == old(filters) && previous == old(previous)
      ensures outcome.Ok? ==>
        var t := TickInput(old(previous), frame, resize, detected);
        && outcome.value == Gates(run, t)
        && paths == PathsAcross(old(paths), Turns(outcome.value, detected))
        && filters == FiltersAcross(old(filters), Turns(outcome.value, detected))
        && previous == (map v | v in ViewSet :: Some(frame))
    {
      ghost var t := TickInput(previous, frame, resize, detected);
      ghost var gates := Gates(run, t);
      var motion := map v | v in ViewSet :: false;
      ghost var base := motion;
      for i := 0 to |Views|
        invariant motion == Flags(base, gates, Views[..i])
        invariant previous == Overwritten(t.previous, frame, Views[..i])
        invariant paths == PathsAcross(old(paths), Turns(gates, detected)[..i])
        invariant filters == FiltersAcross(old(filters), Turns(gates, detected)[..i])
        invariant i > 0 ==> !Rejected(run, t.previous)
      {
        var err;
        motion, err := Visit(t, gates, base, old(paths), old(filters), frame, resize, detected, numerics, motion, i);
        if err.Some? {
          assert Views[..i] == [] && Turns(gates, detected)[..i] == [];
          outcome := Err(err.value);
          return;
        }
      }
      FlagsAll(gates);
      OverwrittenAll(run, t.previous, frame);
      TurnsWhole(gates, detected);
      outcome := Ok(motion);
    }
  }
}
