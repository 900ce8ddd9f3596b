/** The GameManager session as a value: the configuration fixed when the
    sprites are set up, the state the game loop changes, and one function per
    phase of a frame. Wall-clock readings arrive as `now` (milliseconds) and
    every Math.random draw as an argument. */
module GameModel {
  import opened Geometry
  import opened Input
  import opened Progress
  import opened Entities
  import opened Collision
  import opened Effects
  import opened Sprites
  import opened Difficulty

  /** gameState. */
  datatype State = Initializing | Ready | Menu | Playing | Won | Lost

  /** Milliseconds after start before the monster moves and notes spawn. */
  const MonsterStartDelay: int := 3000
  /** Bounds of the randomized spawn interval, in milliseconds. */
  const MinSpawn: real := 300.0
  const MaxSpawn: real := 1000.0
  /** endGame pushes the last spawn time this far into the future. */
  const SpawnStopDelay: int := 999999

  const Padding: real := 20.0
  const PlayerX: real := 20.0
  const PlayerWidth: real := 150.0
  const PlayerHeight: real := 193.0
  /** The monster sprite is scaled 3x from 80 px. */
  const MonsterSize: real := 240.0
  /** The monster keeps only 20% of the configured base speed. */
  const MonsterBaseSpeed: real := 0.2 * DefaultMonsterBaseSpeed
  const NotePathHeight: real := 80.0

  /** The hit pass: centre distance below this is "perfect", else "good". */
  const PerfectDistance: real := 20.0
  const PerfectAward: real := 4.0
  const GoodAward: real := 2.0
  const MissPenalty: real := 5.0
  /** Effects appear at half the canvas width and this height. */
  const EffectY: real := 60.0

  /** Vertical notes are 38x70, horizontal ones 70x38. */
  function NoteWidth(d: Direction): real {
    if d == Up || d == Down then 38.0 else 70.0
  }

  function NoteHeight(d: Direction): real {
    if d == Up || d == Down then 70.0 else 38.0
  }

  /** The sprite asset a note of this direction is drawn with. */
  function NoteSpriteKey(d: Direction): string {
    match d
    case Up => "noteUp"
    case Down => "noteDown"
    case Left => "noteLeft"
    case Right => "noteRight"
  }

  /** The canvas size and the sprite assets that loaded: everything
      initializeSprites derives from them. */
  datatype Config = Config(width: real, height: real, loaded: set<string>) {

    function PlayerY(): real {
      height - PlayerHeight - Padding
    }

    function PlayerHitBox(): Rect {
      Entities.PlayerHitBox(PlayerX, PlayerY(), PlayerWidth)
    }

    /** The collision detector built on the player (the miss line). */
    function CollisionDetector(): Detector {
      Detector(PlayerHitBox())
    }

    /** Right side of the canvas, with padding. */
    function MonsterStartX(): real {
      width - MonsterSize - Padding
    }

    function MonsterY(): real {
      height - MonsterSize - Padding
    }

    /** The note path: moved up by 30% of the height and then down again. */
    function NotePathY(): real {
      height / 2.0 - height * 0.3 - 50.0 + 80.0
    }

    /** The game's own hit box: on the note path to the right of the player
        when the "hitBox" sprite loaded, the constructor's defaults otherwise. */
    function HitBox(): Rect {
      if "hitBox" in loaded then Rect(PlayerX + PlayerWidth + Padding, NotePathY(), 100.0, 80.0)
      else Rect(0.0, 0.0, 100.0, 100.0)
    }

    /** A note is centred vertically on the note path. */
    function NoteY(d: Direction): real {
      NotePathY() + NotePathHeight / 2.0 - NoteHeight(d) / 2.0
    }
  }

  /** Everything a frame reads or writes: the fields of GameManager and the
      state of the objects it owns. */
  datatype GameView = GameView(
    state: State,
    progress: real,
    monsterX: real,
    monsterSpeed: real,
    flash: Flash,
    keys: map<Key, bool>,
    notes: seq<NoteView>,
    effects: seq<Effect>,
    gameStartTime: int,
    monsterHasStarted: bool,
    lastNoteSpawnTime: int,
    nextSpawnInterval: real,
    lastFrameTime: int,
    nextNoteId: nat)

  /** The session once init and initializeSprites have run. */
  function Initial(cfg: Config): GameView {
    GameView(Ready, 0.0, cfg.MonsterStartX(), MonsterBaseSpeed, Flash(false, 0.0), Released,
             [], [], 0, false, 0, 0.0, 0, 0)
  }

  /** A note as spawnNote builds it, at the right edge of the canvas. */
  predicate Shaped(cfg: Config, n: NoteView) {
    n.width == NoteWidth(n.direction) && n.height == NoteHeight(n.direction) &&
    n.y == cfg.NoteY(n.direction) && n.speed == DefaultNoteSpeed
  }

  /** What every reachable session satisfies. */
  predicate Inv(cfg: Config, g: GameView) {
    && InRange(g.progress)
    && g.monsterSpeed >= MonsterBaseSpeed
    && WellFormed(g.keys)
    && FlashValid(g.flash)
    && IdsIncreasing(g.notes)
    && (forall i :: 0 <= i < |g.notes| ==>
          g.notes[i].id < g.nextNoteId && !g.notes[i].hit && Shaped(cfg, g.notes[i]))
    && (forall i :: 0 <= i < |g.effects| ==> g.effects[i].duration > 0.0)
    && (g.state == Playing ==> MinSpawn <= g.nextSpawnInterval < MaxSpawn)
    && (g.state == Playing && g.monsterHasStarted ==>
          g.lastNoteSpawnTime >= g.gameStartTime + MonsterStartDelay)
  }

  // ---------------------------------------------------------------- spawning

  /** getRandomSpawnInterval for the draw `r` of Math.random. */
  function SpawnInterval(r: real): (interval: real)
    requires 0.0 <= r < 1.0
    ensures MinSpawn <= interval < MaxSpawn
  {
    r * (MaxSpawn - MinSpawn) + MinSpawn
  }

  function NewNote(cfg: Config, id: nat, d: Direction, now: int): NoteView {
    NoteView(id, d, cfg.width, cfg.NoteY(d), NoteWidth(d), NoteHeight(d), DefaultNoteSpeed, false, now)
  }

  /** spawnNote: a note of direction `d` at the right edge, or nothing when
      its sprite did not load. */
  function SpawnNote(cfg: Config, g: GameView, now: int, d: Direction): GameView {
    if NoteSpriteKey(d) !in cfg.loaded then g
    else g.(notes := g.notes + [NewNote(cfg, g.nextNoteId, d, now)], nextNoteId := g.nextNoteId + 1)
  }

  /** updateNoteSpawning with the draws `r` (interval) and `d` (direction).
      At most one interval is drawn per frame. */
  function UpdateNoteSpawning(cfg: Config, g: GameView, now: int, r: real, d: Direction): GameView
    requires 0.0 <= r < 1.0
  {
    if !g.monsterHasStarted && now - g.gameStartTime < MonsterStartDelay then g
    else
      var g1 := if g.monsterHasStarted then g
                else g.(monsterHasStarted := true, lastNoteSpawnTime := now,
                        nextSpawnInterval := SpawnInterval(r));
      if (now - g1.lastNoteSpawnTime) as real >= g1.nextSpawnInterval then
        SpawnNote(cfg, g1, now, d).(lastNoteSpawnTime := now, nextSpawnInterval := SpawnInterval(r))
      else g1
  }

  /** resetNoteSpawning. */
  function ResetNoteSpawning(g: GameView, now: int, r: real): GameView
    requires 0.0 <= r < 1.0
  {
    g.(lastNoteSpawnTime := now, nextSpawnInterval := SpawnInterval(r))
  }

  // ---------------------------------------------------------------- sprites

  /** spriteManager.update(dt, monsterHasStarted). */
  function UpdateSprites(g: GameView, dt: real): GameView {
    g.(flash := FlashUpdated(g.flash, dt),
       monsterX := if g.monsterHasStarted then Approached(g.monsterX, g.monsterSpeed, dt) else g.monsterX,
       notes := MovedAll(g.notes, dt))
  }

  // ---------------------------------------------------------------- hits

  /** A note the hit pass takes: not hit, strictly overlapping the game's hit
      box, and of a held direction. */
  predicate Hittable(cfg: Config, active: seq<Direction>, n: NoteView) {
    !n.hit && Overlaps(n.Bounds(), cfg.HitBox()) && n.direction in active
  }

  function HittableBy(cfg: Config, active: seq<Direction>): NoteView -> bool {
    n => Hittable(cfg, active, n)
  }

  /** The grade of the hit pass: by centre distance, not by time. */
  function HitType(cfg: Config, n: NoteView): Grade {
    if Abs(cfg.HitBox().CenterX() - n.Bounds().CenterX()) < PerfectDistance then Perfect else Good
  }

  function Award(grade: Grade): real {
    if grade == Perfect then PerfectAward else GoodAward
  }

  function EffectOf(grade: Grade): EffectKind {
    match grade
    case Perfect => PerfectEffect
    case Good => GoodEffect
    case Miss => MissEffect
  }

  /** handleHit: the note goes, the award is added, the player flashes and
      the grade's effect appears. */
  function HandleHit(cfg: Config, g: GameView, n: NoteView, hitType: Grade, now: int): GameView {
    g.(notes := RemoveId(g.notes, n.id),
       progress := Added(g.progress, Award(hitType)),
       flash := FlashStarted(),
       effects := Create(g.effects, EffectOf(hitType), cfg.width / 2.0, EffectY, cfg.loaded, now,
                         DefaultEffectDuration))
  }

  /** The forEach of processInputAndHits over the notes as they were when
      the pass began. */
  function HitPass(cfg: Config, g: GameView, active: seq<Direction>, now: int, snapshot: seq<NoteView>): GameView
    decreases |snapshot|
  {
    if snapshot == [] then g
    else
      var n := snapshot[0];
      var g1 := if Hittable(cfg, active, n) then HandleHit(cfg, g, n, HitType(cfg, n), now) else g;
      HitPass(cfg, g1, active, now, snapshot[1..])
  }

  /** processInputAndHits. */
  function ProcessInputAndHits(cfg: Config, g: GameView, now: int): GameView {
    var active := ActiveDirections(g.keys);
    if |active| == 0 then g else HitPass(cfg, g, active, now, g.notes)
  }

  // ---------------------------------------------------------------- misses

  function MissedBy(cfg: Config): NoteView -> bool {
    n => cfg.CollisionDetector().CheckMissCollision(n)
  }

  /** handleMiss: the miss effect, 5 off the progress only while it is
      positive, and a faster monster. */
  function HandleMiss(cfg: Config, g: GameView, now: int): GameView {
    g.(effects := Create(g.effects, MissEffect, cfg.width / 2.0, EffectY, cfg.loaded, now,
                         DefaultEffectDuration),
       progress := Penalized(g.progress, MissPenalty),
       monsterSpeed := g.monsterSpeed + DefaultMonsterSpeedIncrement)
  }

  /** The forEach of checkMissedNotes: handleMiss for every missed note. */
  function MissPass(cfg: Config, g: GameView, now: int, snapshot: seq<NoteView>): GameView
    decreases |snapshot|
  {
    if snapshot == [] then g
    else
      var g1 := if cfg.CollisionDetector().CheckMissCollision(snapshot[0]) then HandleMiss(cfg, g, now) else g;
      MissPass(cfg, g1, now, snapshot[1..])
  }

  /** notesToRemove of checkMissedNotes, in order. */
  function MissedIds(cfg: Config, snapshot: seq<NoteView>): seq<nat>
    decreases |snapshot|
  {
    if snapshot == [] then []
    else (if cfg.CollisionDetector().CheckMissCollision(snapshot[0]) then [snapshot[0].id] else [])
         + MissedIds(cfg, snapshot[1..])
  }

  /** checkMissedNotes. */
  function CheckMissedNotes(cfg: Config, g: GameView, now: int): GameView {
    var g1 := MissPass(cfg, g, now, g.notes);
    g1.(notes := RemoveIds(g1.notes, MissedIds(cfg, g.notes)))
  }

  // ---------------------------------------------------------------- end

  /** endGame: any result but a win is a loss; spawning is pushed far away. */
  function EndGame(g: GameView, won: bool, now: int): GameView {
    g.(state := if won then Won else Lost, lastNoteSpawnTime := now + SpawnStopDelay)
  }

  /** checkGameConditions: the win test comes first. */
  function CheckGameConditions(cfg: Config, g: GameView, now: int): GameView {
    if Filled(g.progress) then EndGame(g, true, now)
    else if g.monsterX <= PlayerX then EndGame(g, false, now)
    else g
  }

  // ---------------------------------------------------------------- frame

  /** The first phases of a playing frame: spawning, motion and hits. */
  function Advance(cfg: Config, g: GameView, now: int, dt: real, r: real, d: Direction): GameView
    requires 0.0 <= r < 1.0
  {
    var g1 := UpdateNoteSpawning(cfg, g, now, r, d);
    var g2 := UpdateSprites(g1, dt);
    ProcessInputAndHits(cfg, g2, now)
  }

  /** The last phases of a playing frame: effects, clean-up, misses and the
      end of the game. */
  function Settle(cfg: Config, g: GameView, now: int): GameView {
    var g4 := g.(effects := Faded(g.effects, now));
    var g5 := g4.(notes := OnScreen(g4.notes));
    var g6 := CheckMissedNotes(cfg, g5, now);
    CheckGameConditions(cfg, g6, now)
  }

  /** The phases of a frame while playing, in gameLoop's order. */
  function Frame(cfg: Config, g: GameView, now: int, dt: real, r: real, d: Direction): GameView
    requires 0.0 <= r < 1.0
  {
    Settle(cfg, Advance(cfg, g, now, dt, r, d), now)
  }

  /** gameLoop: the frame time always advances; the rest only while playing. */
  function Tick(cfg: Config, g: GameView, now: int, r: real, d: Direction): GameView
    requires 0.0 <= r < 1.0
  {
    var dt := (now - g.lastFrameTime) as real / 1000.0;
    var g0 := g.(lastFrameTime := now);
    if g0.state != Playing then g0 else Frame(cfg, g0, now, dt, r, d)
  }

  /** start: refused unless ready or in the menu; otherwise the session is
      set up and the first frame runs at once. */
  function Start(cfg: Config, g: GameView, now: int, r: real, d: Direction): (GameView, bool)
    requires 0.0 <= r < 1.0
  {
    if g.state != Ready && g.state != Menu then (g, false)
    else (Tick(cfg, BeginSession(g, now, r), now, r, d), true)
  }

  /** What start sets up before its first frame. */
  function BeginSession(g: GameView, now: int, r: real): GameView
    requires 0.0 <= r < 1.0
  {
    ResetNoteSpawning(g.(state := Playing, gameStartTime := now, monsterHasStarted := false), now, r)
      .(lastFrameTime := now)
  }

  /** restartGame: everything reset, then start. */
  function Restart(cfg: Config, g: GameView, now: int, r: real, d: Direction): GameView
    requires 0.0 <= r < 1.0
  {
    Start(cfg, Cleared(cfg, g), now, r, d).0
  }

  /** What restartGame resets before it starts. */
  function Cleared(cfg: Config, g: GameView): GameView {
    g.(state := Ready, notes := [], progress := 0.0, effects := [], keys := Released,
       monsterX := cfg.MonsterStartX(), monsterSpeed := MonsterBaseSpeed)
  }

  /** showMainMenu, without its drawing and event wiring. */
  function ShowMainMenu(g: GameView): GameView {
    g.(state := Menu)
  }

  /** A key event, which the input handler takes in any state. */
  function PressKey(g: GameView, key: Key): GameView {
    g.(keys := KeyDown(g.keys, key))
  }

  function ReleaseKey(g: GameView, key: Key): GameView {
    g.(keys := KeyUp(g.keys, key))
  }
}
