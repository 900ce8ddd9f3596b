/** GameManager: the session object. It owns the input handler, the
    managers and the sprites, and runs the phases of each frame on them.
    Every method is proved against the function of GameModel for the same
    step, through View(), the state it and its objects hold. */
module Game {
  import opened Geometry
  import opened Input
  import opened Progress
  import opened Entities
  import opened Collision
  import opened Effects
  import opened Sprites
  import opened Difficulty
  import opened GameModel
  import opened GameLemmas

  class GameManager {
    const cfg: Config
    const inputHandler: InputHandler
    const effectManager: EffectManager
    const difficultyManager: DifficultyManager
    const spriteManager: SpriteManager
    const progressManager: ProgressManager
    const player: Player
    const monster: Monster
    const collisionDetector: Detector
    var gameState: State
    var gameStartTime: int
    var monsterHasStarted: bool
    var lastNoteSpawnTime: int
    var nextSpawnInterval: real
    var lastFrameTime: int
    var nextNoteId: nat

    /** What a frame reads and writes, as a value. */
    function View(): GameView
      reads this, inputHandler, effectManager, spriteManager, progressManager, player, monster, spriteManager.notes
    {
      GameView(gameState, progressManager.progress, monster.x, monster.currentSpeed, player.Animation(),
               inputHandler.keysPressed, Views(spriteManager.notes), effectManager.effects,
               gameStartTime, monsterHasStarted, lastNoteSpawnTime, nextSpawnInterval, lastFrameTime, nextNoteId)
    }

    /** The objects are linked as initializeSprites leaves them, and the
        settings nothing changes keep their values. */
    predicate Wired()
      reads inputHandler, effectManager, difficultyManager
    {
      && spriteManager.player == player && spriteManager.monster == monster
      && player.x == PlayerX && player.hitAnimationDuration == HitAnimationDuration
      && player.GetHitBox() == cfg.PlayerHitBox() && collisionDetector == Detector(player.GetHitBox())
      && monster.baseSpeed == MonsterBaseSpeed && monster.width == MonsterSize
      && effectManager.effectDuration == DefaultEffectDuration && effectManager.Valid()
      && difficultyManager.IsDefault()
      && inputHandler.Valid()
    }

    predicate Valid()
      reads this, inputHandler, effectManager, difficultyManager, spriteManager, progressManager, player, monster,
            spriteManager.notes
    {
      Wired() && NoteIdsIncreasing(spriteManager.notes) && Inv(cfg, View())
    }

    /** The constructor, init and initializeSprites, on a canvas of the
        given size with the given assets loaded. */
    constructor (cfg: Config)
      ensures Valid() && View() == Initial(cfg)
    {
      var difficulty := new DifficultyManager();
      var player := new Player(PlayerX, cfg.PlayerY(), PlayerWidth, PlayerHeight);
      var reducedSpeed := difficulty.GetMonsterBaseSpeed() * 0.2;
      var monster := new Monster(cfg.width - MonsterSize - Padding, cfg.height - MonsterSize - Padding,
                                 reducedSpeed, MonsterSize, MonsterSize);
      this.cfg := cfg;
      inputHandler := new InputHandler();
      effectManager := new EffectManager();
      difficultyManager := difficulty;
      spriteManager := new SpriteManager(player, monster);
      this.player := player;
      this.monster := monster;
      collisionDetector := Detector(player.GetHitBox());
      progressManager := new ProgressManager();
      gameState := Ready;
      gameStartTime := 0;
      monsterHasStarted := false;
      lastNoteSpawnTime := 0;
      nextSpawnInterval := 0.0;
      lastFrameTime := 0;
      nextNoteId := 0;
    }

    // -------------------------------------------------------------- spawning

    /** The note spawnNote builds: at the right edge, centred on the note
        path, sized by its direction, at the current note speed. */
    method NewNoteObject(now: int, d: Direction) returns (note: Note)
      requires Wired()
      ensures fresh(note) && note.View() == NewNote(cfg, nextNoteId, d, now)
    {
      var noteSpeed := difficultyManager.GetNoteSpeed();
      var noteWidth, noteHeight;
      if d == Up || d == Down {
        noteWidth, noteHeight := 38.0, 70.0;
      } else {
        noteWidth, noteHeight := 70.0, 38.0;
      }
      var centeredNoteY := cfg.NotePathY() + NotePathHeight / 2.0 - noteHeight / 2.0;
      note := new Note(nextNoteId, cfg.width, centeredNoteY, d, noteSpeed, noteWidth, noteHeight, now);
    }

    /** addNote, and the next id taken. */
    method AppendNote(note: Note)
      requires Wired() && NoteIdsIncreasing(spriteManager.notes) && NoteIdsBelow(spriteManager.notes, nextNoteId)
      requires note.id == nextNoteId
      modifies this, spriteManager
      ensures Wired() && NoteIdsIncreasing(spriteManager.notes) && NoteIdsBelow(spriteManager.notes, nextNoteId)
      ensures spriteManager.notes == old(spriteManager.notes) + [note]
      ensures View() == old(View()).(notes := old(View()).notes + [note.View()], nextNoteId := old(nextNoteId) + 1)
    {
      NoteIdsAppend(spriteManager.notes, note);
      spriteManager.AddNote(note);
      nextNoteId := nextNoteId + 1;
    }

    /** spawnNote: false, and no note, when the direction's sprite is missing. */
    method SpawnNote(now: int, d: Direction) returns (spawned: bool)
      requires Wired() && NoteIdsIncreasing(spriteManager.notes) && NoteIdsBelow(spriteManager.notes, nextNoteId)
      modifies this, spriteManager
      ensures Wired() && NoteIdsIncreasing(spriteManager.notes) && NoteIdsBelow(spriteManager.notes, nextNoteId)
      ensures spawned <==> NoteSpriteKey(d) in cfg.loaded
      ensures fresh(set n | n in spriteManager.notes && n !in old(spriteManager.notes))
      ensures View() == GameModel.SpawnNote(cfg, old(View()), now, d)
    {
      if NoteSpriteKey(d) !in cfg.loaded {
        return false;
      }
      var note := NewNoteObject(now, d);
      AppendNote(note);
      return true;
    }

    /** The branch of updateNoteSpawning taken once the interval has passed. */
    method SpawnAndReschedule(now: int, r: real, d: Direction)
      requires Wired() && NoteIdsIncreasing(spriteManager.notes) && NoteIdsBelow(spriteManager.notes, nextNoteId)
      requires 0.0 <= r < 1.0
      modifies this, spriteManager
      ensures Wired() && NoteIdsIncreasing(spriteManager.notes)
      ensures fresh(set n | n in spriteManager.notes && n !in old(spriteManager.notes))
      ensures View() == GameModel.SpawnNote(cfg, old(View()), now, d)
                          .(lastNoteSpawnTime := now, nextSpawnInterval := SpawnInterval(r))
    {
      var _ := SpawnNote(now, d);
      lastNoteSpawnTime := now;
      nextSpawnInterval := SpawnInterval(r);
    }

    method UpdateNoteSpawning(now: int, r: real, d: Direction)
      requires Wired() && NoteIdsIncreasing(spriteManager.notes) && NoteIdsBelow(spriteManager.notes, nextNoteId)
      requires 0.0 <= r < 1.0
      modifies this, spriteManager
      ensures Wired() && NoteIdsIncreasing(spriteManager.notes)
      ensures fresh(set n | n in spriteManager.notes && n !in old(spriteManager.notes))
      ensures View() == GameModel.UpdateNoteSpawning(cfg, old(View()), now, r, d)
    {
      if !monsterHasStarted {
        if now - gameStartTime >= MonsterStartDelay {
          monsterHasStarted := true;
          lastNoteSpawnTime := now;
          nextSpawnInterval := SpawnInterval(r);
        } else {
          return;
        }
      }
      if (now - lastNoteSpawnTime) as real >= nextSpawnInterval {
        SpawnAndReschedule(now, r, d);
      }
    }

    method ResetNoteSpawning(now: int, r: real)
      requires 0.0 <= r < 1.0
      modifies this
      ensures View() == GameModel.ResetNoteSpawning(old(View()), now, r)
    {
      lastNoteSpawnTime := now;
      nextSpawnInterval := SpawnInterval(r);
    }

    // -------------------------------------------------------------- hits

    /** markAsHit: only the note changes, and the notes that removeNote
        keeps do not hold it. */
    method MarkNote(note: Note)
      requires Wired()
      modifies note
      ensures Wired()
      ensures View() == old(View()).(notes := Views(spriteManager.notes))
      ensures Views(FilterId(spriteManager.notes, note.id)) == RemoveId(old(View()).notes, note.id)
    {
      ghost var kept := FilterId(spriteManager.notes, note.id);
      FilterIdViews(spriteManager.notes, note.id);
      assert note !in kept;
      note.MarkAsHit();
    }

    /** removeNote: every note with the id leaves the list. */
    method RemoveNoteFromList(id: nat)
      requires Wired()
      modifies spriteManager
      ensures Wired()
      ensures View() == old(View()).(notes := Views(FilterId(old(spriteManager.notes), id)))
    {
      spriteManager.RemoveNote(id);
    }

    /** The first half of handleHit: the note is marked as hit and every
        note with its id leaves the list. */
    method RemoveHitNote(note: Note)
      requires Wired()
      modifies note, spriteManager
      ensures Wired()
      ensures View() == old(View()).(notes := RemoveId(old(View()).notes, note.id))
    {
      ghost var g := View();
      MarkNote(note);
      ghost var kept := Views(FilterId(spriteManager.notes, note.id));
      assert kept == RemoveId(g.notes, note.id);
      RemoveNoteFromList(note.id);
      assert View() == g.(notes := kept);
    }

    /** handleHit: the note is marked and removed, the award added, the
        player flashes and the grade's effect appears. */
    method HandleHit(note: Note, hitType: Grade, now: int)
      requires Wired()
      modifies note, spriteManager, progressManager, player, effectManager
      ensures Wired()
      ensures View() == GameModel.HandleHit(cfg, old(View()), old(note.View()), hitType, now)
    {
      ghost var h := GameModel.HandleHit(cfg, View(), note.View(), hitType, now);
      RemoveHitNote(note);
      assert View() == h.(progress := View().progress, flash := View().flash, effects := View().effects);
      Reward(hitType, now);
    }

    /** The second half of handleHit: the award, the flash and the effect. */
    method Reward(hitType: Grade, now: int)
      requires Wired()
      modifies progressManager, player, effectManager
      ensures Wired()
      ensures View() == old(View()).(progress := Added(old(View()).progress, Award(hitType)),
                                     flash := FlashStarted(),
                                     effects := Create(old(View()).effects, EffectOf(hitType), cfg.width / 2.0,
                                                       EffectY, cfg.loaded, now, DefaultEffectDuration))
    {
      ghost var g := View();
      var progressAmount := if hitType == Perfect then PerfectAward else GoodAward;
      assert progressAmount == Award(hitType);
      progressManager.AddProgress(progressAmount);
      player.PlayHitAnimation();
      effectManager.CreateEffect(EffectOf(hitType), cfg.width / 2.0, EffectY, cfg.loaded, now);
      assert Views(spriteManager.notes) == g.notes;
    }

    /** The callback of processInputAndHits for one note: an unhit note
        overlapping the hit box whose direction is held is graded by its
        distance to the box centre and handled as a hit. */
    method CheckNoteHit(note: Note, activeDirections: seq<Direction>, now: int, ghost others: seq<Note>)
      requires Wired() && note !in others
      modifies note, spriteManager, progressManager, player, effectManager
      ensures Wired() && Views(others) == old(Views(others))
      ensures var n := old(note.View());
              View() == if Hittable(cfg, activeDirections, n)
                        then GameModel.HandleHit(cfg, old(View()), n, HitType(cfg, n), now)
                        else old(View())
    {
      if note.IsHit() {
        return;
      }
      var hitBox := cfg.HitBox();
      var bounds := note.GetBounds();
      if Overlaps(bounds, hitBox) && note.direction in activeDirections {
        var distance := Abs(hitBox.CenterX() - bounds.CenterX());
        var hitType := if distance < PerfectDistance then Perfect else Good;
        HandleHit(note, hitType, now);
      }
    }

    /** One turn of processInputAndHits's loop, with what the loop keeps. */
    method CheckNextNoteHit(notes: seq<Note>, i: nat, activeDirections: seq<Direction>, now: int,
                            ghost snapshot: seq<NoteView>, ghost g0: GameView)
      requires Wired() && NoteIdsIncreasing(notes) && i < |notes| && |snapshot| == |notes|
      requires Views(notes[i..]) == snapshot[i..]
      requires HitPass(cfg, View(), activeDirections, now, snapshot[i..])
            == HitPass(cfg, g0, activeDirections, now, snapshot)
      modifies notes[i], spriteManager, progressManager, player, effectManager
      ensures Wired() && Views(notes[i + 1..]) == snapshot[i + 1..]
      ensures HitPass(cfg, View(), activeDirections, now, snapshot[i + 1..])
           == HitPass(cfg, g0, activeDirections, now, snapshot)
    {
      ghost var before := View();
      ghost var rest := notes[i + 1..];
      assert notes[i..] == [notes[i]] + rest;
      assert notes[i] !in rest;
      CheckNoteHit(notes[i], activeDirections, now, rest);
      HitPassStep(cfg, before, View(), activeDirections, now, snapshot[i..]);
      assert snapshot[i..][1..] == snapshot[i + 1..];
    }

    /** processInputAndHits: nothing without a held key; otherwise the
        callback runs on every note of the list as it was at the start. */
    method ProcessInputAndHits(now: int)
      requires Wired() && NoteIdsIncreasing(spriteManager.notes)
      modifies spriteManager, spriteManager.notes, progressManager, player, effectManager
      ensures Wired()
      ensures View() == GameModel.ProcessInputAndHits(cfg, old(View()), now)
    {
      var activeDirections := inputHandler.GetActiveKeys();
      if |activeDirections| == 0 {
        return;
      }
      var notes := spriteManager.GetNotes();
      ghost var snapshot := Views(notes);
      ghost var g0 := View();
      assert NoteIdsIncreasing(notes);
      var i := 0;
      while i < |notes|
        invariant 0 <= i <= |notes|
        invariant Wired()
        invariant Views(notes[i..]) == snapshot[i..]
        invariant HitPass(cfg, View(), activeDirections, now, snapshot[i..])
               == HitPass(cfg, g0, activeDirections, now, snapshot)
      {
        CheckNextNoteHit(notes, i, activeDirections, now, snapshot, g0);
        i := i + 1;
      }
    }

    // -------------------------------------------------------------- misses

    /** handleMiss: the miss effect, 5 off the progress while it is
        positive, and a faster monster. */
    method HandleMiss(now: int)
      requires Wired()
      modifies progressManager, effectManager, monster
      ensures Wired()
      ensures View() == GameModel.HandleMiss(cfg, old(View()), now)
    {
      ghost var g := View();
      ghost var h := GameModel.HandleMiss(cfg, g, now);
      effectManager.CreateEffect(MissEffect, cfg.width / 2.0, EffectY, cfg.loaded, now);
      assert effectManager.effects == h.effects;
      if progressManager.GetProgress() > 0.0 {
        progressManager.SubtractProgress(MissPenalty);
      }
      assert progressManager.progress == h.progress;
      var speedIncrement := difficultyManager.GetMonsterSpeedIncrement();
      monster.IncreaseSpeed(speedIncrement);
      assert monster.currentSpeed == h.monsterSpeed;
      assert View() == h;
    }

    /** The callback of checkMissedNotes for one note: an unhit note past
        the miss line is handled as a miss. */
    method CheckNoteMissed(note: Note, now: int) returns (missed: bool)
      requires Wired()
      modifies progressManager, effectManager, monster
      ensures Wired()
      ensures missed == cfg.CollisionDetector().CheckMissCollision(note.View())
      ensures View() == if missed then GameModel.HandleMiss(cfg, old(View()), now) else old(View())
    {
      if note.IsHit() {
        return false;
      }
      missed := collisionDetector.CheckMissCollision(note.View());
      if missed {
        HandleMiss(now);
      }
    }

    /** The removals that end checkMissedNotes, in order. */
    method RemoveNotes(noteIds: seq<nat>)
      requires Wired()
      modifies spriteManager
      ensures Wired()
      ensures View() == old(View()).(notes := RemoveIds(old(View()).notes, noteIds))
    {
      ghost var g := View();
      var k := 0;
      while k < |noteIds|
        invariant 0 <= k <= |noteIds|
        invariant RemoveIds(Views(spriteManager.notes), noteIds[k..]) == RemoveIds(g.notes, noteIds)
      {
        RemoveNextNote(noteIds, k);
        k := k + 1;
      }
      assert noteIds[k..] == [];
    }

    /** One turn of the removal loop of checkMissedNotes. */
    method RemoveNextNote(noteIds: seq<nat>, k: nat)
      requires k < |noteIds|
      modifies spriteManager
      ensures Views(spriteManager.notes) == RemoveId(old(Views(spriteManager.notes)), noteIds[k])
      ensures RemoveIds(Views(spriteManager.notes), noteIds[k + 1..])
           == RemoveIds(old(Views(spriteManager.notes)), noteIds[k..])
    {
      assert noteIds[k..][1..] == noteIds[k + 1..];
      FilterIdViews(spriteManager.notes, noteIds[k]);
      spriteManager.RemoveNote(noteIds[k]);
    }

    /** One turn of checkMissedNotes's loop, with what the loop keeps. */
    method CheckNextNoteMissed(notes: seq<Note>, i: nat, now: int, notesToRemove: seq<nat>,
                               ghost snapshot: seq<NoteView>, ghost g0: GameView)
        returns (toRemove: seq<nat>)
      requires Wired() && i < |notes| && spriteManager.notes == notes && Views(notes) == snapshot
      requires notesToRemove + MissedIds(cfg, snapshot[i..]) == MissedIds(cfg, snapshot)
      requires MissPass(cfg, View(), now, snapshot[i..]) == MissPass(cfg, g0, now, snapshot)
      modifies progressManager, effectManager, monster
      ensures Wired() && spriteManager.notes == notes && Views(notes) == snapshot
      ensures toRemove + MissedIds(cfg, snapshot[i + 1..]) == MissedIds(cfg, snapshot)
      ensures MissPass(cfg, View(), now, snapshot[i + 1..]) == MissPass(cfg, g0, now, snapshot)
    {
      ghost var before := View();
      assert snapshot[i..][1..] == snapshot[i + 1..];
      assert notes[i].View() == snapshot[i];
      var missed := CheckNoteMissed(notes[i], now);
      MissPassStep(cfg, before, View(), now, snapshot[i..]);
      ghost var rest := MissedIds(cfg, snapshot[i + 1..]);
      toRemove := notesToRemove;
      if missed {
        toRemove := toRemove + [notes[i].id];
        assert toRemove + rest == notesToRemove + ([notes[i].id] + rest);
      } else {
        assert [] + rest == rest;
      }
    }

    /** checkMissedNotes: the callback on every note, then the removal of
        the missed ones by id. */
    method CheckMissedNotes(now: int)
      requires Wired()
      modifies spriteManager, progressManager, effectManager, monster
      ensures Wired()
      ensures View() == GameModel.CheckMissedNotes(cfg, old(View()), now)
    {
      var notes := spriteManager.GetNotes();
      ghost var snapshot := Views(notes);
      ghost var g0 := View();
      var notesToRemove: seq<nat> := [];
      var i := 0;
      while i < |notes|
        invariant 0 <= i <= |notes|
        invariant Wired()
        invariant spriteManager.notes == notes && Views(notes) == snapshot
        invariant notesToRemove + MissedIds(cfg, snapshot[i..]) == MissedIds(cfg, snapshot)
        invariant MissPass(cfg, View(), now, snapshot[i..]) == MissPass(cfg, g0, now, snapshot)
      {
        notesToRemove := CheckNextNoteMissed(notes, i, now, notesToRemove, snapshot, g0);
        i := i + 1;
      }
      assert snapshot[|notes|..] == [];
      assert notesToRemove == MissedIds(cfg, snapshot);
      assert View() == MissPass(cfg, g0, now, snapshot);
      RemoveNotes(notesToRemove);
    }

    // -------------------------------------------------------------- end

    /** endGame: true for a win; anything else is a loss. */
    method EndGame(won: bool, now: int)
      modifies this
      ensures View() == GameModel.EndGame(old(View()), won, now)
    {
      gameState := if won then Won else Lost;
      lastNoteSpawnTime := now + SpawnStopDelay;
    }

    method CheckGameConditions(now: int)
      requires Wired()
      modifies this
      ensures View() == GameModel.CheckGameConditions(cfg, old(View()), now)
    {
      if progressManager.IsFull() {
        EndGame(true, now);
        return;
      }
      if monster.HasReachedPlayer(player.x) {
        EndGame(false, now);
        return;
      }
    }

    // -------------------------------------------------------------- frame

    /** spriteManager.update: the player's flash, the monster and the notes move. */
    method MoveSprites(dt: real)
      requires Wired() && NoteIdsIncreasing(spriteManager.notes)
      modifies player, monster, spriteManager.notes
      ensures Wired()
      ensures View() == UpdateSprites(old(View()), dt)
    {
      ghost var g := View();
      spriteManager.Update(dt, monsterHasStarted);
      assert View() == UpdateSprites(g, dt);
    }

    /** effectManager.update. */
    method FadeEffects(now: int)
      requires Wired()
      modifies effectManager
      ensures Wired()
      ensures View() == old(View()).(effects := Faded(old(View()).effects, now))
    {
      effectManager.Update(now);
    }

    /** spriteManager.removeOffScreenNotes. */
    method RemoveOffScreenNotes()
      requires Wired()
      modifies spriteManager
      ensures Wired()
      ensures View() == old(View()).(notes := OnScreen(old(View()).notes))
    {
      ghost var kept := KeepOnScreen(spriteManager.notes);
      KeepOnScreenViews(spriteManager.notes);
      ghost var keptViews := Views(kept);
      spriteManager.RemoveOffScreenNotes(cfg.width);
      assert spriteManager.notes == kept;
      assert Views(kept) == keptViews;
    }

    /** The first phases of gameLoop while playing. */
    method AdvanceFrame(now: int, dt: real, r: real, d: Direction)
      requires Wired() && NoteIdsIncreasing(spriteManager.notes) && NoteIdsBelow(spriteManager.notes, nextNoteId)
      requires 0.0 <= r < 1.0
      modifies this, spriteManager, spriteManager.notes, progressManager, player, monster, effectManager
      ensures Wired()
      ensures View() == Advance(cfg, old(View()), now, dt, r, d)
    {
      UpdateNoteSpawning(now, r, d);
      MoveSprites(dt);
      ProcessInputAndHits(now);
    }

    /** The last phases of gameLoop while playing. */
    method SettleFrame(now: int)
      requires Wired()
      modifies this, spriteManager, progressManager, monster, effectManager
      ensures Wired()
      ensures View() == Settle(cfg, old(View()), now)
    {
      FadeEffects(now);
      RemoveOffScreenNotes();
      CheckMissedNotes(now);
      CheckGameConditions(now);
    }

    /** The phases of gameLoop while playing, in their order. */
    method PlayFrame(now: int, dt: real, r: real, d: Direction)
      requires Wired() && NoteIdsIncreasing(spriteManager.notes) && NoteIdsBelow(spriteManager.notes, nextNoteId)
      requires gameState == Playing && 0.0 <= r < 1.0
      modifies this, spriteManager, spriteManager.notes, progressManager, player, monster, effectManager
      ensures Wired()
      ensures View() == Frame(cfg, old(View()), now, dt, r, d)
    {
      AdvanceFrame(now, dt, r, d);
      SettleFrame(now);
    }

    /** gameLoop, one frame at the instant `now`, with `r` and `d` the draws
        of the spawn scheduler. */
    method GameLoop(now: int, r: real, d: Direction)
      requires Valid() && 0.0 <= r < 1.0
      modifies this, spriteManager, spriteManager.notes, progressManager, player, monster, effectManager
      ensures Valid()
      ensures View() == Tick(cfg, old(View()), now, r, d)
    {
      ghost var g := View();
      TickKeepsInv(cfg, g, now, r, d);
      var deltaTime := (now - lastFrameTime) as real / 1000.0;
      lastFrameTime := now;
      ghost var g0 := View();
      assert g0 == g.(lastFrameTime := now);
      assert deltaTime == (now - g.lastFrameTime) as real / 1000.0;
      TickUnfolds(cfg, g, g0, now, deltaTime, r, d);
      if gameState == Playing {
        assert g0.state == Playing;
        PlayFrame(now, deltaTime, r, d);
      }
      ghost var h := View();
      assert Inv(cfg, h);
      NoteIdsViews(spriteManager.notes);
    }

    /** The setup start does before its first frame. */
    method BeginSession(now: int, r: real)
      requires Valid() && 0.0 <= r < 1.0
      modifies this
      ensures Valid()
      ensures View() == GameModel.BeginSession(old(View()), now, r)
    {
      ghost var g := View();
      BeginSessionKeepsInv(cfg, g, now, r);
      gameState := Playing;
      gameStartTime := now;
      monsterHasStarted := false;
      assert View() == g.(state := Playing, gameStartTime := now, monsterHasStarted := false);
      ResetNoteSpawning(now, r);
      lastFrameTime := now;
    }

    /** The resets restartGame does before it starts. */
    method ResetSession()
      requires Valid()
      modifies this, spriteManager, progressManager, effectManager, difficultyManager, inputHandler, monster
      ensures Valid()
      ensures View() == Cleared(cfg, old(View()))
    {
      ghost var g := View();
      ClearedKeepsInv(cfg, g);
      gameState := Ready;
      ResetManagers();
      assert View() == Cleared(cfg, g);
    }

    /** The managers' resets of restartGame, and the monster put back. */
    method ResetManagers()
      requires Wired()
      modifies spriteManager, progressManager, effectManager, difficultyManager, inputHandler, monster
      ensures Wired() && spriteManager.notes == []
      ensures View() == old(View()).(notes := [], progress := 0.0, effects := [], keys := Released,
                                     monsterX := cfg.MonsterStartX(), monsterSpeed := MonsterBaseSpeed)
    {
      spriteManager.ClearNotes();
      progressManager.Reset();
      effectManager.ClearEffects();
      var _ := difficultyManager.Reset();
      inputHandler.ResetKeys();
      monster.x := cfg.width - monster.width - Padding;
      monster.ResetSpeed();
    }

    /** start: refused unless ready or in the menu; otherwise the session
        is set up and the first frame runs at once. */
    method Start(now: int, r: real, d: Direction) returns (ok: bool)
      requires Valid() && 0.0 <= r < 1.0
      modifies this, spriteManager, spriteManager.notes, progressManager, player, monster, effectManager
      ensures Valid()
      ensures (View(), ok) == GameModel.Start(cfg, old(View()), now, r, d)
    {
      if gameState != Ready && gameState != Menu {
        return false;
      }
      BeginSession(now, r);
      GameLoop(now, r, d);
      return true;
    }

    /** restartGame: back to ready, everything cleared and reset, then start. */
    method RestartGame(now: int, r: real, d: Direction)
      requires Valid() && 0.0 <= r < 1.0
      modifies this, spriteManager, spriteManager.notes, progressManager, player, monster, effectManager,
               difficultyManager, inputHandler
      ensures Valid()
      ensures View() == GameModel.Restart(cfg, old(View()), now, r, d)
    {
      ResetSession();
      var _ := Start(now, r, d);
    }

    /** showMainMenu, without its drawing and event wiring. */
    method ShowMainMenu()
      requires Valid()
      modifies this
      ensures Valid()
      ensures View() == GameModel.ShowMainMenu(old(View()))
    {
      gameState := Menu;
    }
  }
}
