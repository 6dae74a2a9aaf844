// The coordinate grid drawn over a camera's picture: its settings, the
// clamping of new settings, and where the grid lines and their labels go.

module Grid {
  import opened Common

  /** The settings passed to update_settings; an absent key is None. */
  datatype Settings = Settings(
    enabled: Option<bool>, spacingX: Option<int>, spacingY: Option<int>,
    alpha: Option<real>, showCoordinates: Option<bool>)

  /** What draw_grid does to a frame of the given size: nothing when the grid
      is disabled; the x positions of the vertical lines, the y positions of
      the horizontal lines and the positions that get a coordinate label;
      or it raises because a spacing is 0 (range() refuses a zero step). */
  datatype Drawing =
    | Unchanged
    | Drawn(vertical: seq<int>, horizontal: seq<int>, xLabels: seq<int>, yLabels: seq<int>)
    | ZeroStep

  function ClampInt(v: int, lo: int, hi: int): (r: int)
    requires lo <= hi
    ensures lo <= r <= hi
    ensures lo <= v <= hi ==> r == v
    ensures v < lo ==> r == lo
    ensures v > hi ==> r == hi
  {
    if v < lo then lo else if v > hi then hi else v
  }

  function ClampReal(v: real, lo: real, hi: real): (r: real)
    requires lo <= hi
    ensures lo <= r <= hi
    ensures lo <= v <= hi ==> r == v
    ensures v < lo ==> r == lo
    ensures v > hi ==> r == hi
  {
    if v < lo then lo else if v > hi then hi else v
  }

  /** `v` lies within the range `range(0, stop, step)` walks toward. */
  predicate Before(v: int, stop: int, step: int)
  {
    if step > 0 then v < stop else v > stop
  }

  /** The elements of xs that are positive, in order. */
  function Positive(xs: seq<int>): (r: seq<int>)
    ensures forall i :: 0 <= i < |r| ==> r[i] > 0
    ensures |r| <= |xs|
  {
    if xs == [] then []
    else if xs[0] > 0 then [xs[0]] + Positive(xs[1..])
    else Positive(xs[1..])
  }

  /** `range(0, stop, step)` for a non-zero step, with the positions that get
      a label when labels are shown (the positive ones). */
  method Axis(stop: int, step: int, show: bool) returns (lines: seq<int>, labels: seq<int>)
    requires step != 0
    ensures forall i :: 0 <= i < |lines| ==> lines[i] == i * step && Before(lines[i], stop, step)
    ensures !Before(|lines| * step, stop, step)
    ensures labels == if show then Positive(lines) else []
  {
    lines, labels := [], [];
    var v := 0;
    while Before(v, stop, step)
      invariant v == |lines| * step
      invariant forall i :: 0 <= i < |lines| ==> lines[i] == i * step && Before(lines[i], stop, step)
      invariant labels == if show then Positive(lines) else []
      decreases if step > 0 then stop - v else v - stop
    {
      PositiveSnoc(lines, v);
      MulSucc(|lines|, step);
      lines := lines + [v];
      if show && v > 0 {
        labels := labels + [v];
      }
      v := v + step;
    }
  }

  lemma MulSucc(n: nat, step: int)
    ensures (n + 1) * step == n * step + step
  {
  }

  lemma {:induction false} PositiveSnoc(xs: seq<int>, v: int)
    ensures Positive(xs + [v]) == Positive(xs) + (if v > 0 then [v] else [])
    decreases |xs|
  {
    if xs == [] {
      assert xs + [v] == [v];
    } else {
      assert (xs + [v])[1..] == xs[1..] + [v];
      PositiveSnoc(xs[1..], v);
    }
  }

  /** With labels shown and a positive spacing, every line except the one
      at 0 has a label. */
  lemma LabelsSkipOrigin(lines: seq<int>, step: int)
    requires step > 0 && forall i :: 0 <= i < |lines| ==> lines[i] == i * step
    ensures lines != [] ==> Positive(lines) == lines[1..]
  {
    if lines != [] {
      var rest := lines[1..];
      forall i | 0 <= i < |rest| ensures rest[i] > 0 {
        assert rest[i] == lines[i + 1];
        StepMultiple(i, step);
      }
      AllPositive(rest);
      assert lines[0] == 0 * step == 0;
      assert lines == [lines[0]] + rest;
    }
  }

  /** The (i + 1)-th multiple of a positive step is positive. */
  lemma StepMultiple(i: nat, step: int)
    requires step > 0
    ensures (i + 1) * step > 0
  {
    assert (i + 1) * step == i * step + step;
    assert i * step >= 0;
  }

  lemma {:induction false} AllPositive(xs: seq<int>)
    requires forall i :: 0 <= i < |xs| ==> xs[i] > 0
    ensures Positive(xs) == xs
    decreases |xs|
  {
    if xs != [] {
      AllPositive(xs[1..]);
    }
  }

  class GridOverlay {
    const cameraId: int
    var enabled: bool
    var alpha: real
    var spacingX: int
    var spacingY: int
    var showCoordinates: bool
    /** Line colour (BGR), thickness, label font scale and label colour (BGR). */
    const color: (int, int, int)
    const thickness: int
    const fontScale: real
    const coordinateColor: (int, int, int)

    /** A new overlay: enabled, yellow one-pixel lines 50 pixels apart at 30%
        opacity, with coordinates. */
    constructor(cameraId: int)
      ensures this.cameraId == cameraId
      ensures enabled && alpha == 0.3 && spacingX == 50 && spacingY == 50 && showCoordinates
      ensures color == (0, 255, 255) && thickness == 1 && fontScale == 0.4 && coordinateColor == (255, 255, 255)
    {
      this.cameraId := cameraId;
      enabled := true;
      color := (0, 255, 255);
      thickness := 1;
      alpha := 0.3;
      spacingX, spacingY := 50, 50;
      showCoordinates := true;
      fontScale := 0.4;
      coordinateColor := (255, 255, 255);
    }

    /** update_settings: each key present sets its field, the spacings
        clamped into [10, 200] and the opacity into [0.1, 0.5]; absent keys
        leave their field as it was; the answer is true. */
    method UpdateSettings(s: Settings) returns (ok: bool)
      modifies this
      ensures ok
      ensures enabled == (if s.enabled.Some? then s.enabled.value else old(enabled))
      ensures spacingX == (if s.spacingX.Some? then ClampInt(s.spacingX.value, 10, 200) else old(spacingX))
      ensures spacingY == (if s.spacingY.Some? then ClampInt(s.spacingY.value, 10, 200) else old(spacingY))
      ensures alpha == (if s.alpha.Some? then ClampReal(s.alpha.value, 0.1, 0.5) else old(alpha))
      ensures showCoordinates == (if s.showCoordinates.Some? then s.showCoordinates.value else old(showCoordinates))
    {
      if s.enabled.Some? {
        enabled := s.enabled.value;
      }
      if s.spacingX.Some? {
        spacingX := ClampInt(s.spacingX.value, 10, 200);
      }
      if s.spacingY.Some? {
        spacingY := ClampInt(s.spacingY.value, 10, 200);
      }
      if s.alpha.Some? {
        alpha := ClampReal(s.alpha.value, 0.1, 0.5);
      }
      if s.showCoordinates.Some? {
        showCoordinates := s.showCoordinates.value;
      }
      return true;
    }

    /** draw_grid on a frame w pixels wide and h high: vertical lines at
        x = 0, sx, 2sx, ... below w and horizontal ones at y = 0, sy, ...
        below h, labelled where the coordinate is positive. */
    method DrawGrid(w: int, h: int) returns (d: Drawing)
      ensures !enabled ==> d == Unchanged
      ensures enabled && spacingX == 0 ==> d == ZeroStep
      ensures enabled && spacingX != 0 && spacingY == 0 ==> d == ZeroStep
      ensures enabled && spacingX != 0 && spacingY != 0 ==>
        && d.Drawn?
        && (forall i :: 0 <= i < |d.vertical| ==> d.vertical[i] == i * spacingX && Before(d.vertical[i], w, spacingX))
        && !Before(|d.vertical| * spacingX, w, spacingX)
        && (forall i :: 0 <= i < |d.horizontal| ==> d.horizontal[i] == i * spacingY && Before(d.horizontal[i], h, spacingY))
        && !Before(|d.horizontal| * spacingY, h, spacingY)
        && d.xLabels == (if showCoordinates then Positive(d.vertical) else [])
        && d.yLabels == (if showCoordinates then Positive(d.horizontal) else [])
    {
      if !enabled {
        return Unchanged;
      }
      if spacingX == 0 {
        return ZeroStep;
      }
      var xs, xl := Axis(w, spacingX, showCoordinates);
      if spacingY == 0 {
        return ZeroStep;
      }
      var ys, yl := Axis(h, spacingY, showCoordinates);
      return Drawn(xs, ys, xl, yl);
    }
  }
}
