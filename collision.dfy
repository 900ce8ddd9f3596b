/** CollisionDetector: hit-box overlap, timing grade, the miss line and
    processHit, all relative to the player's hit box. */
module Collision {
  import opened Geometry
  import opened Input
  import opened Entities

  datatype Option<T> = None | Some(value: T)

  /** The timing grade of a note. */
  datatype Grade = Perfect | Good | Miss

  /** Timing windows in milliseconds. */
  const PerfectWindow: real := 50.0
  const GoodWindow: real := 100.0

  /** The miss line lies this far to the left of the player's hit box. */
  const MissColliderOffset: real := 20.0

  /** checkDirectionMatch. */
  predicate CheckDirectionMatch(n: NoteView, pressed: seq<Direction>) {
    n.direction in pressed
  }

  /** The timing offset in milliseconds of a note whose centre is `distance`
      pixels from the target, and the grade it earns. A zero speed makes the
      offset Infinity (or NaN when the distance is zero too), which no window
      accepts; a negative speed makes it negative, well inside the perfect
      window. */
  function GradeAt(distance: real, speed: real): Grade {
    if speed == 0.0 then Miss
    else
      var offset := distance / speed * 1000.0;
      if offset <= PerfectWindow then Perfect
      else if offset <= GoodWindow then Good
      else Miss
  }

  /** For a note moving left, the windows are bands of pixels around the
      target: half-widths of 0.05 and 0.1 seconds of travel. */
  lemma GradeAtInPixels(distance: real, speed: real)
    requires speed > 0.0
    ensures GradeAt(distance, speed) == Perfect <==> distance <= speed * 0.05
    ensures GradeAt(distance, speed) != Miss <==> distance <= speed * 0.1
  {
    var q := distance / speed;
    assert q * speed == distance;
    var offset := q * 1000.0;
    assert offset * speed == distance * 1000.0;
    ScaleByPositive(offset, PerfectWindow, speed);
    assert offset <= PerfectWindow <==> distance * 1000.0 <= PerfectWindow * speed;
    ScaleByPositive(offset, GoodWindow, speed);
    assert offset <= GoodWindow <==> distance * 1000.0 <= GoodWindow * speed;
  }

  /** Multiplying both sides by a positive factor keeps the order. */
  lemma ScaleByPositive(x: real, y: real, s: real)
    requires s > 0.0
    ensures x <= y <==> x * s <= y * s
  {
    if x <= y {
      assert (y - x) * s >= 0.0;
    } else {
      assert (x - y) * s > 0.0;
    }
  }

  /** A note closer to the target never earns a worse grade. */
  lemma GradeAtMonotone(d1: real, d2: real, speed: real)
    requires speed > 0.0 && d1 <= d2
    ensures GradeAt(d2, speed) == Perfect ==> GradeAt(d1, speed) == Perfect
    ensures GradeAt(d2, speed) != Miss ==> GradeAt(d1, speed) != Miss
  {
    GradeAtInPixels(d1, speed);
    GradeAtInPixels(d2, speed);
  }

  /** CollisionDetector: built on the player, whose hit box never changes. */
  datatype Detector = Detector(hitBox: Rect) {

    /** missColliderX. */
    function MissColliderX(): real {
      hitBox.x - MissColliderOffset
    }

    /** checkHitBoxCollision. */
    predicate CheckHitBoxCollision(n: NoteView) {
      Overlaps(n.Bounds(), hitBox)
    }

    /** getTimingWindow: graded by the horizontal distance between the
        centre of the player's hit box and the centre of the note. */
    function GetTimingWindow(n: NoteView): Grade {
      GradeAt(Abs(hitBox.CenterX() - n.Bounds().CenterX()), n.speed)
    }

    /** checkMissCollision: a hit note is never a miss; an unhit one is
        missed once its right edge has passed the miss line. */
    predicate CheckMissCollision(n: NoteView) {
      !n.hit && n.x + n.width < MissColliderX()
    }

    /** processHit, as a value: the grade it returns, None for null. The
        overlap is tested against the custom box when there is one, the
        timing always against the player's hit box. */
    function HitGrade(n: NoteView, pressed: seq<Direction>, custom: Option<Rect>): (r: Option<Grade>)
      ensures r.Some? ==> r.value != Miss && CheckDirectionMatch(n, pressed)
    {
      var box := if custom.Some? then custom.value else hitBox;
      if !Overlaps(n.Bounds(), box) then None
      else if !CheckDirectionMatch(n, pressed) then None
      else
        var timing := GetTimingWindow(n);
        if timing == Miss then None else Some(timing)
    }

    /** The same with the timing measured against the box actually used for
        the overlap (see the findings). */
    function HitGradeInBox(n: NoteView, pressed: seq<Direction>, custom: Option<Rect>): (r: Option<Grade>)
      ensures r.Some? ==> r.value != Miss && CheckDirectionMatch(n, pressed)
    {
      var box := if custom.Some? then custom.value else hitBox;
      if !Overlaps(n.Bounds(), box) then None
      else if !CheckDirectionMatch(n, pressed) then None
      else
        var timing := GradeAt(Abs(box.CenterX() - n.Bounds().CenterX()), n.speed);
        if timing == Miss then None else Some(timing)
    }
  }

  /** processHit accepts a note exactly when it overlaps the box, its
      direction is held and it lies within the good band of the player's
      hit box centre; it is perfect exactly within the perfect band. */
  lemma HitGradeSpec(det: Detector, n: NoteView, pressed: seq<Direction>, custom: Option<Rect>)
    requires n.speed > 0.0
    ensures var box := if custom.Some? then custom.value else det.hitBox;
            var distance := Abs(det.hitBox.CenterX() - n.Bounds().CenterX());
            && (det.HitGrade(n, pressed, custom).Some? <==>
                  Overlaps(n.Bounds(), box) && n.direction in pressed && distance <= n.speed * 0.1)
            && (det.HitGrade(n, pressed, custom) == Some(Perfect) <==>
                  Overlaps(n.Bounds(), box) && n.direction in pressed && distance <= n.speed * 0.05)
  {
    GradeAtInPixels(Abs(det.hitBox.CenterX() - n.Bounds().CenterX()), n.speed);
  }

  /** A note centred on the player's hit box is perfect whatever its speed,
      unless it does not move at all. */
  lemma CentredNoteIsPerfect(det: Detector, n: NoteView)
    requires n.Bounds().CenterX() == det.hitBox.CenterX() && n.speed != 0.0
    ensures det.GetTimingWindow(n) == Perfect
  {
  }

  /** A note past the miss line lies wholly to the left of the player's hit
      box, so it can no longer overlap it. */
  lemma MissedNoteLeftHitBox(det: Detector, n: NoteView)
    requires det.CheckMissCollision(n)
    ensures !det.CheckHitBoxCollision(n)
    ensures !n.hit
  {
  }

  /** processHit as written (with a custom box): a note centred in a custom
      box that lies 145 px to the right of the player's hit box, moving at
      the game's 600 px/s, is rejected although it sits in the middle of the
      box it was tested against. */
  lemma CustomBoxGradedAgainstPlayerBox()
    ensures var det := Detector(PlayerHitBox(20.0, 100.0, 150.0));
            var box := Rect(190.0, 0.0, 100.0, 80.0);
            var n := NoteView(0, Up, 221.0, 5.0, 38.0, 70.0, 600.0, false, 0);
            && Overlaps(n.Bounds(), box) && n.Bounds().CenterX() == box.CenterX()
            && det.HitGrade(n, [Up], Some(box)) == None
            && det.HitGradeInBox(n, [Up], Some(box)) == Some(Perfect)
  {
    var det := Detector(PlayerHitBox(20.0, 100.0, 150.0));
    assert det.hitBox.CenterX() == 95.0;
    var n := NoteView(0, Up, 221.0, 5.0, 38.0, 70.0, 600.0, false, 0);
    assert n.Bounds().CenterX() == 240.0;
    assert 145.0 / 600.0 * 1000.0 > 100.0;
  }

  /** With the timing measured in the box that was tested, a note centred
      in that box is always accepted as perfect when its direction is held. */
  lemma CentredInBoxIsPerfect(det: Detector, n: NoteView, pressed: seq<Direction>, box: Rect)
    requires n.Bounds().CenterX() == box.CenterX() && n.speed != 0.0
    requires Overlaps(n.Bounds(), box) && n.direction in pressed
    ensures det.HitGradeInBox(n, pressed, Some(box)) == Some(Perfect)
    ensures det.HitGradeInBox(n, pressed, None) == det.HitGrade(n, pressed, None)
  {
  }

  /** processHit on a note object: it marks the note exactly when it returns
      a grade. An already hit note is graded again like any other. */
  method ProcessHit(det: Detector, note: Note, pressed: seq<Direction>, custom: Option<Rect>)
    returns (grade: Option<Grade>)
    modifies note
    ensures grade == det.HitGrade(old(note.View()), pressed, custom)
    ensures note.View() == if grade.Some? then old(note.View()).(hit := true) else old(note.View())
  {
    var box := if custom.Some? then custom.value else det.hitBox;
    if !Overlaps(note.GetBounds(), box) {
      return None;
    }
    if !CheckDirectionMatch(note.View(), pressed) {
      return None;
    }
    var timing := det.GetTimingWindow(note.View());
    if timing == Perfect || timing == Good {
      note.MarkAsHit();
      return Some(timing);
    }
    return None;
  }
}
