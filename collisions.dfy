/** Face classification of a collision between a moving rectangle and a static
    one (collisions/collisions.go). */
module Collisions {
  import opened Geometry

  /** The face of the static rectangle that the moving rectangle hit. The
      constructors are declared in the source's order. */
  datatype HitFace = FaceTop | FaceRight | FaceBottom | FaceLeft | NoFace

  /** The outcome of CheckRectanglesCollision: the source's (bool, HitFace) pair. */
  datatype Hit = Hit(hits: bool, face: HitFace)

  datatype Ray2D = Ray2D(origin: Vec2, direction: Vec2)

  /** The outcome of the ray test: entry time, hit flag and face. */
  datatype RayHit = RayHit(time: real, hits: bool, face: HitFace)

  /** The absolute value the source takes of every overlap depth. */
  function Abs(v: real): (r: real)
    ensures r >= 0.0 && (r == v || r == -v)
  {
    if v < 0.0 then -v else v
  }

  /** How far the moving rectangle's bottom edge is below the static top edge. */
  function TopOverlap(moving: Rect, still: Rect): real
  {
    Abs(moving.Bottom() - still.y)
  }

  /** How far the static bottom edge is below the moving rectangle's top edge. */
  function BottomOverlap(moving: Rect, still: Rect): real
  {
    Abs(still.Bottom() - moving.y)
  }

  /** How far the moving rectangle's right edge is past the static left edge. */
  function LeftOverlap(moving: Rect, still: Rect): real
  {
    Abs(moving.Right() - still.x)
  }

  /** How far the static right edge is past the moving rectangle's left edge. */
  function RightOverlap(moving: Rect, still: Rect): real
  {
    Abs(still.Right() - moving.x)
  }

  /** The overlap depth that belongs to each real face. */
  function Depth(f: HitFace, moving: Rect, still: Rect): real
    requires f != NoFace
  {
    match f
    case FaceTop => TopOverlap(moving, still)
    case FaceBottom => BottomOverlap(moving, still)
    case FaceLeft => LeftOverlap(moving, still)
    case FaceRight => RightOverlap(moving, still)
  }

  /** Position of each face in the tie-break order Top, Bottom, Left, Right. */
  function Rank(f: HitFace): nat
    requires f != NoFace
  {
    match f
    case FaceTop => 0
    case FaceBottom => 1
    case FaceLeft => 2
    case FaceRight => 3
  }

  predicate IsSide(f: HitFace)
  {
    f == FaceLeft || f == FaceRight
  }

  /** Reference definition of the candidate face: its depth is minimal, and it
      is strictly smaller than the depth of every face that comes earlier in
      the tie-break order. */
  ghost predicate IsFirstMinimum(f: HitFace, moving: Rect, still: Rect)
  {
    f != NoFace &&
    (forall g :: g != NoFace ==> Depth(f, moving, still) <= Depth(g, moving, still)) &&
    (forall g :: g != NoFace && Rank(g) < Rank(f) ==> Depth(f, moving, still) < Depth(g, moving, still))
  }

  /** The running minimum of the source: start with Top, then Bottom, Left and
      Right each take over only when strictly smaller. */
  function MinFace(top: real, bottom: real, left: real, right: real): HitFace
  {
    var (min1, face1) := if bottom < top then (bottom, FaceBottom) else (top, FaceTop);
    var (min2, face2) := if left < min1 then (left, FaceLeft) else (min1, face1);
    if right < min2 then FaceRight else face2
  }

  function CandidateFace(moving: Rect, still: Rect): HitFace
  {
    MinFace(TopOverlap(moving, still), BottomOverlap(moving, still),
            LeftOverlap(moving, still), RightOverlap(moving, still))
  }

  /** Classifies the collision of a moving rectangle against a static one. No
      strict overlap gives no hit; otherwise the face of least overlap depth is
      reported, except that a side face is dropped (the "ghost collision"
      correction) when the bottom overlap exceeds the top overlap. */
  function CheckRectanglesCollision(moving: Rect, still: Rect): (r: Hit)
    ensures !Overlaps(moving, still) ==> r == Hit(false, NoFace)
    ensures r.hits <==> r.face != NoFace
    ensures r.hits ==> Overlaps(moving, still) && IsFirstMinimum(r.face, moving, still)
    ensures r.hits && IsSide(r.face) ==>
              BottomOverlap(moving, still) <= TopOverlap(moving, still) &&
              Depth(r.face, moving, still) < TopOverlap(moving, still)
  {
    if !Overlaps(moving, still) then Hit(false, NoFace)
    else
      var face := CandidateFace(moving, still);
      var bottom := BottomOverlap(moving, still);
      if IsSide(face) && bottom > 0.0 && bottom > TopOverlap(moving, still) then Hit(false, NoFace)
      else Hit(true, face)
  }

  /** The ray sweep is a stub: it reports a hit at time 0 with no face, for
      every ray, target and size. */
  function CheckRay2DRectangleCollision(ray: Ray2D, targetRect: Rect, movingRecDimensions: Vec2): (r: RayHit)
    ensures r.time == 0.0 && r.hits && r.face == NoFace
  {
    RayHit(0.0, true, NoFace)
  }

  /** Under a strict overlap all four raw depths are positive, so taking their
      absolute value changes nothing and the positive-bottom guard of the
      ghost correction always holds. */
  lemma DepthsPositiveWhenOverlapping(moving: Rect, still: Rect)
    requires Overlaps(moving, still)
    ensures TopOverlap(moving, still) == moving.Bottom() - still.y > 0.0
    ensures BottomOverlap(moving, still) == still.Bottom() - moving.y > 0.0
    ensures LeftOverlap(moving, still) == moving.Right() - still.x > 0.0
    ensures RightOverlap(moving, still) == still.Right() - moving.x > 0.0
  {
  }

  /** The running minimum finds exactly the reference face. */
  lemma MinFaceIsFirstMinimum(moving: Rect, still: Rect)
    ensures IsFirstMinimum(CandidateFace(moving, still), moving, still)
  {
    var f := CandidateFace(moving, still);
    forall g | g != NoFace
      ensures Depth(f, moving, still) <= Depth(g, moving, still)
      ensures Rank(g) < Rank(f) ==> Depth(f, moving, still) < Depth(g, moving, still)
    {
    }
  }

  /** The reference definition picks at most one face. */
  lemma FirstMinimumUnique(f: HitFace, g: HitFace, moving: Rect, still: Rect)
    requires IsFirstMinimum(f, moving, still) && IsFirstMinimum(g, moving, still)
    ensures f == g
  {
    var df, dg := Depth(f, moving, still), Depth(g, moving, still);
    assert df <= dg && dg <= df;
    assert Rank(g) < Rank(f) ==> df < dg;
    assert Rank(f) < Rank(g) ==> dg < df;
  }

  /** Ghost-collision correction: when the least-depth face is a side face and
      the bottom overlap exceeds the top overlap, there is no hit at all. */
  lemma GhostSideHitDiscarded(moving: Rect, still: Rect, f: HitFace)
    requires Overlaps(moving, still) && IsFirstMinimum(f, moving, still)
    requires IsSide(f) && BottomOverlap(moving, still) > TopOverlap(moving, still)
    ensures CheckRectanglesCollision(moving, still) == Hit(false, NoFace)
  {
    MinFaceIsFirstMinimum(moving, still);
    FirstMinimumUnique(f, CandidateFace(moving, still), moving, still);
  }

  /** In every other overlapping case the reference face is reported as a hit. */
  lemma FirstMinimumReported(moving: Rect, still: Rect, f: HitFace)
    requires Overlaps(moving, still) && IsFirstMinimum(f, moving, still)
    requires !(IsSide(f) && BottomOverlap(moving, still) > TopOverlap(moving, still))
    ensures CheckRectanglesCollision(moving, still) == Hit(true, f)
  {
    MinFaceIsFirstMinimum(moving, still);
    FirstMinimumUnique(f, CandidateFace(moving, still), moving, still);
  }

  /** Ties go to the earliest face: equal top and bottom depths that are the
      least of the four give Top, and equal left and right depths that are the
      least give Left (or no hit, by the ghost correction). */
  lemma TiesGoToEarlierFace(moving: Rect, still: Rect)
    requires Overlaps(moving, still)
    ensures var t, b, l, r := TopOverlap(moving, still), BottomOverlap(moving, still),
                              LeftOverlap(moving, still), RightOverlap(moving, still);
            (t == b && t <= l && t <= r ==> CheckRectanglesCollision(moving, still) == Hit(true, FaceTop)) &&
            (l == r && l < t && l < b ==> CheckRectanglesCollision(moving, still).face != FaceRight)
  {
  }

  /** A body that sits with less than half of itself inside the static
      rectangle vertically (top overlap below bottom overlap) is never reported
      as hitting a side: this is what keeps a character walking over the seam
      between two ground tiles from being stopped sideways. */
  lemma GroundedBodyNeverHitsSide(moving: Rect, still: Rect)
    requires TopOverlap(moving, still) < BottomOverlap(moving, still)
    ensures !IsSide(CheckRectanglesCollision(moving, still).face)
  {
  }
}
