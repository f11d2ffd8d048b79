/**
 * The five fixed perspectives of the wide frame and the crop window each one
 * cuts out of it (`transform_perspective`). All the arithmetic is Python's
 * integer floor division on non-negative frame sizes.
 */
module Perspective {
  import opened Wrappers
  import opened Frames

  datatype View = Front | Left | Right | Leftmost | Rightmost

  /** The order in which every tick visits the perspectives (the insertion order of the source's dictionary). */
  const Views: seq<View> := [Front, Left, Right, Leftmost, Rightmost]

  const ViewSet: set<View> := {Front, Left, Right, Leftmost, Rightmost}

  /** The only names `transform_perspective` accepts. */
  const Names: set<string> := {"front", "left", "right", "leftmost", "rightmost"}

  function Name(v: View): string {
    match v
    case Front => "front"
    case Left => "left"
    case Right => "right"
    case Leftmost => "leftmost"
    case Rightmost => "rightmost"
  }

  /** The `ValueError("Invalid perspective")` of the source. */
  datatype PerspectiveError = InvalidPerspective(name: string)

  /** The if/elif chain on the perspective name. */
  function Parse(name: string): (r: Result<View, PerspectiveError>)
    ensures r.Ok? <==> name in Names
    ensures r.Ok? ==> Name(r.value) == name
    ensures r.Err? ==> r.error == InvalidPerspective(name)
  {
    if name == "front" then Ok(Front)
    else if name == "left" then Ok(Left)
    else if name == "right" then Ok(Right)
    else if name == "leftmost" then Ok(Leftmost)
    else if name == "rightmost" then Ok(Rightmost)
    else Err(InvalidPerspective(name))
  }

  /** Every view is listed once in the visiting order, and its name parses back to it. */
  lemma ViewsComplete(v: View)
    ensures v in ViewSet && v in Views && Parse(Name(v)) == Ok(v)
  {
  }

  /** The field-of-view table: 90 degrees for every perspective. */
  function FovDegrees(v: View): nat {
    90
  }

  /** `int(n * degrees / 360)`: the exact quotient truncated (for n >= 0 that is floor division). */
  function FovExtent(n: nat, degrees: nat): nat {
    n * degrees / 360
  }

  /** A 90-degree field of view spans exactly a quarter of the frame, rounded down. */
  lemma FovExtentIsQuarter(n: nat)
    ensures FovExtent(n, 90) == n / 4
  {
    var q, r := n / 4, n % 4;
    assert n * 90 == 360 * q + 90 * r;
  }

  function CentreX(w: nat, v: View): nat {
    match v
    case Front => w / 2
    case Left => w / 4
    case Right => 3 * w / 4
    case Leftmost => w / 8
    case Rightmost => 7 * w / 8
  }

  function CentreY(h: nat): nat {
    h / 2
  }

  /** The slice `[y0:y1, x0:x1]` a perspective takes from the frame. */
  datatype Window = Window(y0: int, y1: int, x0: int, x1: int)

  /**
   * The window of perspective v on a w-by-h frame as the source computes it:
   * the perspective's centre, minus and plus half the field-of-view extent.
   */
  function FovWindow(w: nat, h: nat, v: View): Window {
    var fw, fh := FovExtent(w, FovDegrees(v)), FovExtent(h, FovDegrees(v));
    Window(CentreY(h) - fh / 2, CentreY(h) + fh / 2, CentreX(w, v) - fw / 2, CentreX(w, v) + fw / 2)
  }

  /**
   * The same window in closed form: a 90-degree extent is a quarter of the
   * frame, and half of it rounded down is an eighth, so the sides are even
   * and may be one pixel short of a quarter.
   */
  function WindowOf(w: nat, h: nat, v: View): (r: Window)
    ensures r.x1 - r.x0 == 2 * (w / 8) && r.y1 - r.y0 == 2 * (h / 8)
    ensures r.x0 + r.x1 == 2 * CentreX(w, v) && r.y0 + r.y1 == 2 * CentreY(h)
  {
    Window(CentreY(h) - h / 8, CentreY(h) + h / 8, CentreX(w, v) - w / 8, CentreX(w, v) + w / 8)
  }

  /** The closed form is the source's window, for every frame size and perspective. */
  lemma FovWindowIsWindowOf(w: nat, h: nat, v: View)
    ensures FovWindow(w, h, v) == WindowOf(w, h, v)
  {
    FovExtentIsQuarter(w);
    FovExtentIsQuarter(h);
    assert (w / 4) / 2 == w / 8;
    assert (h / 4) / 2 == h / 8;
  }

  /** Every perspective's centre is at least an eighth of the width away from either edge. */
  lemma CentreXInside(w: nat, v: View)
    ensures w / 8 <= CentreX(w, v) <= w - w / 8
  {
    var q, s := w / 8, w % 8;
    assert w == 8 * q + s && s < 8;
    match v
    case Front => assert w / 2 == 4 * q + s / 2;
    case Left => assert w / 4 == 2 * q + s / 4;
    case Right => assert 3 * w / 4 == 6 * q + 3 * s / 4;
    case Leftmost =>
    case Rightmost => assert 7 * w / 8 == 7 * q + 7 * s / 8;
  }

  /** Every window lies inside the frame, so Python's negative-index wrap never happens. */
  lemma WindowInsideFrame(w: nat, h: nat, v: View)
    ensures var r := WindowOf(w, h, v); 0 <= r.x0 <= r.x1 <= w && 0 <= r.y0 <= r.y1 <= h
  {
    CentreXInside(w, v);
    var q, s := h / 8, h % 8;
    assert h == 8 * q + s && s < 8;
    assert h / 2 == 4 * q + s / 2;
  }

  /** The leftmost window starts exactly at column 0. */
  lemma LeftmostStartsAtZero(w: nat, h: nat)
    ensures WindowOf(w, h, Leftmost).x0 == 0
  {
    assert (w / 4) / 2 == w / 8;
  }

  /** The rightmost window reaches the last column when 8 divides w, and stops one short otherwise. */
  lemma RightmostReach(w: nat, h: nat)
    ensures WindowOf(w, h, Rightmost).x1 == if w % 8 == 0 then w else w - 1
  {
    var q, s := w / 8, w % 8;
    assert w == 8 * q + s;
    assert 7 * w / 8 == 7 * q + 7 * s / 8;
  }

  /** A 1920x1080 frame: the front window is x in [720,1200), y in [405,675). */
  lemma FrontWindowFullHd()
    ensures WindowOf(1920, 1080, Front) == Window(405, 675, 720, 1200)
  {
  }

  /** Width 1924: a quarter is 481 columns, but the window is 480 wide. */
  lemma OddQuarterWidth()
    ensures var r := WindowOf(1924, 1080, Front); r.x1 - r.x0 == 480 && 1924 / 4 == 481
  {
  }

  /** Rows y0 to y0 + n of a frame, each cut to columns x0 to x1. */
  function Band(img: Image, y0: nat, n: nat, x0: nat, x1: nat): (r: seq<seq<Pixel>>)
    requires img.Valid() && y0 + n <= img.height && x0 <= x1 <= img.width
    ensures |r| == n && forall i | 0 <= i < n :: r[i] == img.rows[y0 + i][x0..x1]
    decreases n
  {
    if n == 0 then [] else Band(img, y0, n - 1, x0, x1) + [img.rows[y0 + n - 1][x0..x1]]
  }

  /** The sub-view of perspective v: the frame sliced to v's window, which lies inside it. */
  function Project(w: nat, h: nat, frame: Image, v: View): (r: Image)
    requires frame.Valid() && frame.height == h && frame.width == w
    ensures r.Valid() && r.channels == frame.channels
    ensures r.height == 2 * (h / 8) && r.width == 2 * (w / 8)
  {
    var win := WindowOf(w, h, v);
    WindowInsideFrame(w, h, v);
    Image(win.y1 - win.y0, win.x1 - win.x0, frame.channels, Band(frame, win.y0, win.y1 - win.y0, win.x0, win.x1))
  }

  /** Pixel (i, j) of the sub-view is pixel (y0 + i, x0 + j) of the frame, for v's window. */
  lemma ProjectPixels(w: nat, h: nat, frame: Image, v: View)
    requires frame.Valid() && frame.height == h && frame.width == w
    ensures var r, win := Project(w, h, frame, v), WindowOf(w, h, v);
      forall i, j | 0 <= i < r.height && 0 <= j < r.width :: r.rows[i][j] == frame.rows[win.y0 + i][win.x0 + j]
  {
    WindowInsideFrame(w, h, v);
  }

  /**
   * `transform_perspective(frame, perspective)` on a w-by-h video: the name
   * picks the centre, and the frame is sliced with Python's slice rules.
   */
  function TransformPerspective(w: nat, h: nat, frame: Image, name: string): (r: Result<Image, PerspectiveError>)
    ensures r.Err? <==> name !in Names
    ensures r.Err? ==> r.error == InvalidPerspective(name)
    ensures r.Ok? ==> r.value.channels == frame.channels
  {
    match Parse(name)
    case Err(e) => Err(e)
    case Ok(v) =>
      var win := FovWindow(w, h, v);
      Ok(Crop(frame, win.y0, win.y1, win.x0, win.x1))
  }

  /**
   * On a frame of the video's own size, every perspective's slice is the
   * in-range sub-view: Python's negative-index and clamping rules never come
   * into play.
   */
  lemma TransformIsProject(w: nat, h: nat, frame: Image, v: View)
    requires frame.Valid() && frame.height == h && frame.width == w
    ensures TransformPerspective(w, h, frame, Name(v)) == Ok(Project(w, h, frame, v))
  {
    ViewsComplete(v);
    FovWindowIsWindowOf(w, h, v);
    WindowInsideFrame(w, h, v);
    var win := WindowOf(w, h, v);
    var c, p := Crop(frame, win.y0, win.y1, win.x0, win.x1), Project(w, h, frame, v);
    CropValid(frame, win.y0, win.y1, win.x0, win.x1);
    assert c.height == p.height && c.width == p.width;
    assert |c.rows| == |p.rows|;
    forall i | 0 <= i < |c.rows| ensures c.rows[i] == p.rows[i] {
      assert |c.rows[i]| == |p.rows[i]|;
      forall j | 0 <= j < |c.rows[i]| ensures c.rows[i][j] == p.rows[i][j] {
      }
    }
    assert c.rows == p.rows;
  }
}
