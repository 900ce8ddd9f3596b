/** The moving sprites of the game: Note, Monster and Player, each with the
    value that the rest of the model reasons about. */
module Entities {
  import opened Geometry
  import opened Input

  /** The state of a Note at one instant. */
  datatype NoteView = NoteView(
    id: nat,
    direction: Direction,
    x: real,
    y: real,
    width: real,
    height: real,
    speed: real,
    hit: bool,
    createdAt: int)
  {
    /** getBounds. */
    function Bounds(): Rect {
      Rect(x, y, width, height)
    }

    /** isOffScreen: the note has left the canvas on the left. */
    predicate OffScreen() {
      x + width < 0.0
    }

    /** update: the note after a frame of `dt` seconds. */
    function Moved(dt: real): NoteView {
      this.(x := x - speed * dt)
    }
  }

  /** The note after a run of frames. */
  function MovedBy(n: NoteView, dts: seq<real>): NoteView
    decreases |dts|
  {
    if dts == [] then n else MovedBy(n.Moved(dts[0]), dts[1..])
  }

  /** Moving frame by frame covers speed times the total time, and keeps
      everything but the horizontal position. */
  lemma {:induction false} MovedBySpec(n: NoteView, dts: seq<real>)
    ensures MovedBy(n, dts) == n.(x := n.x - n.speed * Sum(dts))
    decreases |dts|
  {
    if dts != [] {
      MovedBySpec(n.Moved(dts[0]), dts[1..]);
      assert n.speed * Sum(dts) == n.speed * dts[0] + n.speed * Sum(dts[1..]);
    }
  }

  /** A note of positive speed that has travelled for longer than
      (x + width) / speed seconds is off screen. */
  lemma NoteLeavesScreen(n: NoteView, dts: seq<real>)
    requires n.speed > 0.0
    requires Sum(dts) * n.speed > n.x + n.width
    ensures MovedBy(n, dts).OffScreen()
  {
    MovedBySpec(n, dts);
  }

  class Note {
    const id: nat
    const direction: Direction
    const y: real
    const width: real
    const height: real
    const speed: real
    const createdAt: int
    var x: real
    var hit: bool

    function View(): NoteView
      reads this
    {
      NoteView(id, direction, x, y, width, height, speed, hit, createdAt)
    }

    /** A fresh note is not hit; it is stamped with the creation time `now`. */
    constructor (id: nat, x: real, y: real, direction: Direction, speed: real,
                 width: real, height: real, now: int)
      ensures View() == NoteView(id, direction, x, y, width, height, speed, false, now)
    {
      this.id := id;
      this.x := x;
      this.y := y;
      this.direction := direction;
      this.speed := speed;
      this.width := width;
      this.height := height;
      this.createdAt := now;
      this.hit := false;
    }

    method Update(dt: real)
      modifies this
      ensures View() == old(View()).Moved(dt)
    {
      x := x - speed * dt;
    }

    function IsOffScreen(canvasWidth: real): bool
      reads this
    {
      View().OffScreen()
    }

    function GetBounds(): Rect
      reads this
    {
      View().Bounds()
    }

    /** markAsHit: the flag only ever goes from false to true. */
    method MarkAsHit()
      modifies this
      ensures hit
      ensures View() == old(View()).(hit := true)
    {
      hit := true;
    }

    function IsHit(): bool
      reads this
    {
      hit
    }

    /** getTimeSinceCreation, at the instant `now`. */
    function TimeSinceCreation(now: int): int
      reads this
    {
      now - createdAt
    }

    function GetDirection(): Direction {
      direction
    }
  }

  /** Where a sprite at `x` moving left at `speed` is after `dt` seconds. */
  function Approached(x: real, speed: real, dt: real): real {
    x - speed * dt
  }

  /** The horizontal position of a sprite moving left at `speeds[i]` for
      `dts[i]` seconds, frame after frame. */
  function Travelled(x: real, speeds: seq<real>, dts: seq<real>): real
    requires |speeds| == |dts|
    decreases |dts|
  {
    if dts == [] then x else Travelled(Approached(x, speeds[0], dts[0]), speeds[1..], dts[1..])
  }

  /** However the monster's speed changes, as long as it never falls below
      `base` and time runs forward, it covers at least base times the total
      time. */
  lemma {:induction false} TravelledAtLeastBase(x: real, base: real, speeds: seq<real>, dts: seq<real>)
    requires |speeds| == |dts|
    requires forall i :: 0 <= i < |dts| ==> dts[i] >= 0.0 && speeds[i] >= base
    ensures Travelled(x, speeds, dts) <= x - base * Sum(dts)
    decreases |dts|
  {
    if dts != [] {
      assert (speeds[0] - base) * dts[0] >= 0.0;
      TravelledAtLeastBase(Approached(x, speeds[0], dts[0]), base, speeds[1..], dts[1..]);
      assert base * Sum(dts) == base * dts[0] + base * Sum(dts[1..]);
    }
  }

  class Monster {
    const baseSpeed: real
    const y: real
    const width: real
    const height: real
    var x: real
    var currentSpeed: real

    constructor (x: real, y: real, baseSpeed: real, width: real, height: real)
      ensures this.x == x && this.y == y && this.baseSpeed == baseSpeed
      ensures this.width == width && this.height == height
      ensures currentSpeed == baseSpeed
    {
      this.x := x;
      this.y := y;
      this.baseSpeed := baseSpeed;
      this.currentSpeed := baseSpeed;
      this.width := width;
      this.height := height;
    }

    method Update(dt: real)
      modifies this
      ensures x == Approached(old(x), old(currentSpeed), dt) && currentSpeed == old(currentSpeed)
    {
      MoveTowardPlayer(dt);
    }

    /** moveTowardPlayer: leftward by currentSpeed * dt. */
    method MoveTowardPlayer(dt: real)
      modifies this
      ensures x == Approached(old(x), old(currentSpeed), dt) && currentSpeed == old(currentSpeed)
    {
      x := x - currentSpeed * dt;
    }

    method IncreaseSpeed(increment: real)
      modifies this
      ensures currentSpeed == old(currentSpeed) + increment && x == old(x)
    {
      currentSpeed := currentSpeed + increment;
    }

    /** resetSpeed: back to exactly the base speed, whatever came before. */
    method ResetSpeed()
      modifies this
      ensures currentSpeed == baseSpeed && x == old(x)
    {
      currentSpeed := baseSpeed;
    }

    method SetSpeed(speed: real)
      modifies this
      ensures currentSpeed == speed && x == old(x)
    {
      currentSpeed := speed;
    }

    function GetSpeed(): real
      reads this
    {
      currentSpeed
    }

    /** hasReachedPlayer: the lose test. */
    function HasReachedPlayer(playerX: real): bool
      reads this
    {
      x <= playerX
    }
  }

  /** The hit animation of the player: whether it plays and how many
      milliseconds are left. */
  datatype Flash = Flash(playing: bool, timer: real)

  const HitAnimationDuration: real := 200.0

  /** Not playing means the timer is at zero; playing means time is left. */
  predicate FlashValid(f: Flash) {
    if f.playing then f.timer > 0.0 else f.timer == 0.0
  }

  /** playHitAnimation: restart the animation at full length. */
  function FlashStarted(): (f: Flash)
    ensures FlashValid(f) && f.playing
  {
    Flash(true, HitAnimationDuration)
  }

  /** Player.update: the timer runs down by dt in milliseconds and the
      animation stops once it reaches zero. */
  function FlashUpdated(f: Flash, dt: real): (r: Flash)
    ensures FlashValid(f) ==> FlashValid(r)
    ensures r.playing ==> f.playing
  {
    if !f.playing then f
    else if f.timer - dt * 1000.0 <= 0.0 then Flash(false, 0.0)
    else Flash(true, f.timer - dt * 1000.0)
  }

  function FlashUpdatedBy(f: Flash, dts: seq<real>): Flash
    decreases |dts|
  {
    if dts == [] then f else FlashUpdatedBy(FlashUpdated(f, dts[0]), dts[1..])
  }

  /** Over frames that move time forward, the animation lasts exactly as long
      as its timer: it still plays, with the timer reduced by the elapsed
      milliseconds, while these are fewer than the timer, and has stopped
      otherwise. */
  lemma {:induction false} FlashUpdatedBySpec(f: Flash, dts: seq<real>)
    requires FlashValid(f)
    requires forall i :: 0 <= i < |dts| ==> dts[i] >= 0.0
    ensures FlashUpdatedBy(f, dts) ==
              if f.playing && f.timer > Sum(dts) * 1000.0 then Flash(true, f.timer - Sum(dts) * 1000.0)
              else Flash(false, 0.0)
    decreases |dts|
  {
    if dts != [] {
      var rest := dts[1..];
      assert forall i :: 0 <= i < |rest| ==> rest[i] == dts[i + 1];
      SumNonNegative(rest);
      FlashUpdatedBySpec(FlashUpdated(f, dts[0]), rest);
    }
  }

  /** The animation of a hit stops once 0.2 seconds have passed. */
  lemma FlashEndsAfterDuration(dts: seq<real>)
    requires forall i :: 0 <= i < |dts| ==> dts[i] >= 0.0
    requires Sum(dts) >= 0.2
    ensures !FlashUpdatedBy(FlashStarted(), dts).playing
  {
    FlashUpdatedBySpec(FlashStarted(), dts);
  }

  /** The player's hit box, scaled with the sprite width relative to 80 px. */
  function PlayerHitBox(x: real, y: real, width: real): (box: Rect)
    ensures box.CenterX() == x + width / 2.0
    ensures width > 0.0 ==> x < box.x && box.x + box.width < x + width
    ensures width > 0.0 ==> box.y < y && box.height == 140.0 / 60.0 * box.width
  {
    var scale := width / 80.0;
    Rect(x + 10.0 * scale, y - 60.0 * scale, 60.0 * scale, 140.0 * scale)
  }

  class Player {
    const x: real
    const y: real
    const width: real
    const height: real
    const hitBoxX: real
    const hitBoxY: real
    const hitBoxWidth: real
    const hitBoxHeight: real
    const hitAnimationDuration: real
    var isPlayingHitAnimation: bool
    var hitAnimationTimer: real

    /** The hit animation state. */
    function Animation(): Flash
      reads this
    {
      Flash(isPlayingHitAnimation, hitAnimationTimer)
    }

    constructor (x: real, y: real, width: real, height: real)
      ensures this.x == x && this.y == y && this.width == width && this.height == height
      ensures GetHitBox() == PlayerHitBox(x, y, width)
      ensures hitAnimationDuration == HitAnimationDuration
      ensures Animation() == Flash(false, 0.0)
    {
      this.x := x;
      this.y := y;
      this.width := width;
      this.height := height;
      isPlayingHitAnimation := false;
      hitAnimationTimer := 0.0;
      hitAnimationDuration := HitAnimationDuration;
      var scale := width / 80.0;
      hitBoxX := x + 10.0 * scale;
      hitBoxY := y - 60.0 * scale;
      hitBoxWidth := 60.0 * scale;
      hitBoxHeight := 140.0 * scale;
    }

    method PlayHitAnimation()
      requires hitAnimationDuration == HitAnimationDuration
      modifies this
      ensures Animation() == FlashStarted()
    {
      isPlayingHitAnimation := true;
      hitAnimationTimer := hitAnimationDuration;
    }

    method Update(dt: real)
      modifies this
      ensures Animation() == FlashUpdated(old(Animation()), dt)
    {
      if isPlayingHitAnimation {
        hitAnimationTimer := hitAnimationTimer - dt * 1000.0;
        if hitAnimationTimer <= 0.0 {
          isPlayingHitAnimation := false;
          hitAnimationTimer := 0.0;
        }
      }
    }

    function GetHitBox(): Rect {
      Rect(hitBoxX, hitBoxY, hitBoxWidth, hitBoxHeight)
    }
  }
}
