# Rhythm-game core, modelled in Dafny

The game is a browser rhythm game. Arrow notes scroll from the right edge of
the canvas towards a hit box in front of the player. Pressing the arrow key
of a note while it overlaps the hit box scores a "perfect" (+4) or "good" (+2)
on a progress bar. A note that slips past the miss line costs 5 points and
makes a monster, walking in from the right, 10 px/s faster. A full bar (100)
wins; the monster reaching the player loses.

This project models the gameplay core of `main.js`:

- the entity classes Player, Monster and Note;
- InputHandler, CollisionDetector, SpriteManager, ProgressManager,
  EffectManager and DifficultyManager;
- the gameplay functions of GameManager: the spawn scheduler, the frame loop
  and its phases, hits, misses, the end of the game, start and restart.

The model has two layers.

- **Values** (`GameModel`, with the per-entity functions in each module). A
  `GameView` record holds everything a frame reads and writes. Each phase of
  a frame is a function on it: `UpdateNoteSpawning`, `UpdateSprites`,
  `ProcessInputAndHits`, `CheckMissedNotes`, `CheckGameConditions`, then
  `Frame` and `Tick` for one `gameLoop` call, and `Start` and `Restart`.
  The lemmas of `GameLemmas` state what each phase does without its loops.
  They also prove that every phase keeps the game invariant `Inv`.
- **Objects** (`Game.GameManager` and the classes of each module). These
  update their fields in place, as `main.js` does. Every method is proved to
  leave `View()` equal to the value-level step applied to the old view. The
  loops of `processInputAndHits`, `checkMissedNotes`, `getActiveKeys`,
  `resetKeys` and `SpriteManager.update` are `while` loops with invariants.

Time, randomness and the asset set are inputs:

- `now` is the millisecond clock that `Date.now()` would read. It is one
  instant per frame and one per `start()`. `gameLoop` computes
  `deltaTime = (now - lastFrameTime) / 1000` itself.
- `r` (0 ≤ r < 1) is the draw of `Math.random()` in
  `getRandomSpawnInterval`. `d` is the direction drawn by `spawnNote`.
- `Config` holds the canvas size and the names of the loaded sprites.
  `Config.HitBox` is the game's hit box: `initializeSprites` moves it beside
  the player only when the `hitBox` sprite is loaded.

Where the repository's own documentation or tests disagree with `main.js`,
the model follows `main.js`:

- The game's hit pass grades by pixel distance: under 20 px from the centre
  is perfect, anything else in the box is good. It does not use the
  50/100 ms windows of `CollisionDetector`. Those windows are modelled with
  the detector.
- Awards are 4 and 2, not 10 and 5.
- There are no difficulty presets: DifficultyManager only holds fixed
  values.
- The monster moves at 20% of the base speed of 50, which is 10 px/s.
- No note is spawned until 3 s after start, plus a first interval of
  300–1000 ms.
- A frame removes off-screen notes before it checks for misses, as
  gameLoop does, so a note that crosses both lines in one long frame is
  not counted as a miss.

## Model

| member | source | states |
|---|---|---|
| Geometry.OverlapsIffCommonPoint | main.js:1565-1573 | the strict AABB test of rectanglesOverlap holds exactly when some point lies inside both rectangles |
| Geometry.Overlaps | main.js:1565-1573 | rectanglesOverlap, the strict four-inequality test (also the inline test of processInputAndHits); characterised by `OverlapsIffCommonPoint` |
| Progress.Added | main.js:1793-1806 | addProgress: a negative amount leaves progress unchanged; otherwise the result is p + amount capped at 100, never below p, and stays in [0, 100] |
| Progress.Subtracted | main.js:1808-1821 | subtractProgress: a negative amount leaves progress unchanged; otherwise the result is p − amount floored at 0, never above p, and stays in [0, 100] |
| Progress.SetTo | main.js:1828-1838 | setProgress: a value in [0, 100] is taken as it is; any other value leaves progress unchanged; an in-range progress stays in range |
| Progress.Filled | main.js:1840-1843 | isFull: inside the range, full means exactly 100 |
| Progress.AddAllCapsOnce | main.js:1793-1806 | a run of non-negative addProgress calls from an in-range value gives min(p + total, 100): capping at every step is capping once |
| Progress.PenalizedTimesFloorsOnce | main.js:959-962 | k miss penalties of 5, each applied only while progress is positive, give max(p − 5k, 0) |
| Progress.ThreePerfectsThenMiss | main.js:889-892 | three perfect hits from an empty bar give 12, and a miss then leaves 7 |
| Progress.ProgressManager.AddProgress | main.js:1793-1806 | the new progress is `Added` of the old |
| Progress.ProgressManager.SubtractProgress | main.js:1808-1821 | the new progress is `Subtracted` of the old |
| Progress.ProgressManager.SetProgress | main.js:1828-1838 | the new progress is `SetTo` of the old |
| Progress.ProgressManager.Reset | main.js:1858-1862 | progress back to 0 |
| Difficulty.DifficultyManager.constructor | main.js:2006-2012 | the fixed settings 1500 ms, 600 px/s, 50 px/s and +10 px/s |
| Difficulty.DifficultyManager.Reset | main.js:2045-2051 | reset restores every setting and returns true |
| Entities.Note.constructor | main.js:1390-1402 | a fresh note is unhit and stamped with its creation time |
| Entities.Note.Update | main.js:1404-1407 | the note moves left by speed × dt, nothing else changes |
| Entities.Note.MarkAsHit | main.js:1436-1439 | markAsHit sets the flag and changes nothing else |
| Entities.Note.IsOffScreen | main.js:1416-1419 | isOffScreen: the right edge is left of 0, whatever the canvas width; used by `OnScreenSpec` and `NoteLeavesScreen` |
| Entities.MovedBySpec | main.js:1404-1407 | over any run of frames a note covers its speed times the total time |
| Entities.NoteLeavesScreen | main.js:1416-1419 | a note of positive speed that has travelled further than its right edge is off screen |
| Entities.Monster.constructor | main.js:1330-1339 | the monster starts at its base speed |
| Entities.Monster.MoveTowardPlayer | main.js:1346-1349 | moveTowardPlayer moves left by currentSpeed × dt and keeps the speed |
| Entities.Monster.Update | main.js:1341-1344 | update is one moveTowardPlayer |
| Entities.Monster.IncreaseSpeed | main.js:1351-1354 | the speed grows by the increment, the position stays |
| Entities.Monster.ResetSpeed | main.js:1356-1359 | the speed is back at the base speed |
| Entities.Monster.SetSpeed | main.js:1361-1364 | the speed is the given one |
| Entities.Monster.HasReachedPlayer | main.js:1383-1386 | hasReachedPlayer: x ≤ playerX, the lose test of `GameConditionsSpec` |
| Entities.TravelledAtLeastBase | main.js:1346-1354 | however often misses speed the monster up, it covers at least base speed × total time |
| Entities.FlashStarted | main.js:1287-1291 | playHitAnimation starts a playing animation with time left |
| Entities.FlashUpdated | main.js:1293-1302 | update keeps the animation consistent, and never restarts it |
| Entities.FlashUpdatedBySpec | main.js:1293-1302 | over frames moving time forward, the animation plays exactly while less time than the timer has passed, and then stops with the timer at 0 |
| Entities.FlashEndsAfterDuration | main.js:1287-1302 | a hit animation has stopped once 0.2 s have passed |
| Entities.PlayerHitBox | main.js:1274-1279 | the player's hit box is centred on the sprite, lies inside its width, and keeps the 60:140 proportions |
| Entities.Player.constructor | main.js:1259-1280 | a player is built with the scaled hit box and no animation playing |
| Entities.Player.PlayHitAnimation | main.js:1287-1291 | the animation state is `FlashStarted` |
| Entities.Player.Update | main.js:1293-1302 | the animation state is `FlashUpdated` of the old one |
| Input.KeyOf | main.js:1525-1531 | every direction has an arrow key, which maps back to it |
| Input.ActivePrefixSpec | main.js:1509-1518 | the directions collected from the first n keys are exactly the held ones among them, in key order and without repeats |
| Input.ActiveDirectionsSpec | main.js:1509-1518 | getActiveKeys lists exactly the held directions, in key order, once each, and is empty exactly when no arrow key is held |
| Input.KeyEventsSpec | main.js:1493-1507 | a key-down makes its direction held and a key-up releases it, leaving the other directions and the key set alone |
| Input.InputHandler.constructor | main.js:1458-1474 | every arrow key starts released |
| Input.InputHandler.OnKeyDown | main.js:1493-1499 | only a tracked key is set to held |
| Input.InputHandler.OnKeyUp | main.js:1501-1507 | only a tracked key is set to released |
| Input.InputHandler.GetActiveKeys | main.js:1509-1518 | the loop returns `ActiveDirections` of the key state |
| Input.InputHandler.ResetKeys | main.js:1533-1538 | every tracked key released and no key added |
| Input.InputHandler.IsKeyPressed | main.js:1519-1521 | isKeyPressed: an untracked key reads as released |
| Input.InputHandler.IsDirectionActive | main.js:1524-1530 | isDirectionActive: the state of the direction's arrow key (`KeyOf`), as `KeyEventsSpec` uses it |
| Collision.GradeAtInPixels | main.js:1575-1595 | for a note moving left, perfect means within speed × 0.05 px of the centre and good means within speed × 0.1 px |
| Collision.GradeAtMonotone | main.js:1575-1595 | a note closer to the centre never earns a worse grade |
| Collision.Detector.HitGrade | main.js:1615-1639 | a note that processHit accepts has a held direction and a grade other than miss |
| Collision.Detector.CheckHitBoxCollision | main.js:1556-1563 | checkHitBoxCollision: the note's bounds strictly overlap the player's hit box |
| Collision.Detector.GetTimingWindow | main.js:1575-1595 | getTimingWindow: `GradeAt` of the distance between the note's centre and the player's hit-box centre; its pixel bands are `GradeAtInPixels` |
| Collision.Detector.CheckMissCollision | main.js:1597-1607 | checkMissCollision: an unhit note whose right edge is left of the hit box minus 20 px; `MissedNoteLeftHitBox` shows it then no longer overlaps the box |
| Collision.HitGradeSpec | main.js:1615-1639 | processHit accepts a note exactly when it overlaps the box, its direction is held and it is within the good window of the player's box; it is perfect exactly within the perfect window |
| Collision.CentredNoteIsPerfect | main.js:1575-1595 | a note centred on the player's hit box is perfect at any non-zero speed |
| Collision.MissedNoteLeftHitBox | main.js:1597-1607 | a note past the miss line is unhit and no longer overlaps the player's hit box |
| Collision.CustomBoxGradedAgainstPlayerBox | main.js:1615-1639 | a note centred in a custom box is refused by processHit as written, though the corrected grading calls it perfect |
| Collision.Detector.HitGradeInBox | main.js:1615-1639 | corrected processHit: an accepted note has a held direction and a grade other than miss |
| Collision.CentredInBoxIsPerfect | main.js:1615-1639 | with the corrected grading a note centred in the box it overlaps is perfect; without a custom box nothing changes |
| Collision.ProcessHit | main.js:1615-1639 | processHit returns `HitGrade` and marks the note exactly when it returns a grade |
| Effects.Created | main.js:1917-1930 | an effect is centred on the given position, fully opaque and stamped with its creation time |
| Effects.Create | main.js:1882-1932 | createEffect appends one effect when the sprite is loaded and nothing otherwise |
| Effects.FadedSpec | main.js:1934-1947 | update keeps exactly the effects with less than their duration elapsed, with their opacity refreshed; every effect it returns is a surviving input effect, refreshed, and the list never grows |
| Effects.FadedInOrder | main.js:1934-1947 | update equals the reference "keep the survivors in their order, then refresh each": nothing is invented, duplicated or reordered |
| Effects.OpacitySpec | main.js:1934-1947 | the opacity is positive exactly while the effect survives |
| Effects.FadedAllGone | main.js:1934-1947 | once every duration has passed, update leaves no effect |
| Effects.EffectManager.constructor | main.js:1876-1879 | no effects and a 0.5 s duration |
| Effects.EffectManager.CreateEffect | main.js:1882-1932 | the effects become `Create` of the old ones at the current duration |
| Effects.EffectManager.Update | main.js:1934-1947 | the effects become `Faded` of the old ones at `now` |
| Effects.EffectManager.ClearEffects | main.js:1984-1987 | no effects are left and the duration is kept |
| Effects.EffectManager.SetEffectDuration | main.js:1989-1997 | a duration is taken exactly when it is positive, and the call reports whether it was |
| Sprites.FilterSpec | main.js:1703-1706 | filtering keeps exactly the notes that pass, in order, keeps ids increasing, and is empty exactly when no note passes |
| Sprites.WithoutIdsSpec | main.js:1703-1706 | removing by ids drops exactly the notes with those ids |
| Sprites.RemoveIdsSpec | main.js:937-940 | a sequence of removeNote calls removes exactly the listed ids |
| Sprites.WithoutFilteredIds | main.js:937-940 | with increasing ids, removing by id the notes that pass a test is filtering them out |
| Sprites.OnScreenSpec | main.js:1764-1767 | removeOffScreenNotes keeps exactly the notes still on screen |
| Sprites.OfDirectionSpec | main.js:1713-1716 | getNotesByDirection keeps exactly the notes of that direction |
| Sprites.MovedAllIds | main.js:1718-1734 | moving the notes keeps their ids |
| Sprites.SpriteManager.AddNote | main.js:1698-1701 | the note is appended |
| Sprites.SpriteManager.RemoveNote | main.js:1703-1706 | the list keeps, in order, exactly the notes with another id (with `FilterIdViews` relating it to `RemoveId`) |
| Sprites.SpriteManager.Update | main.js:1718-1734 | the player's animation runs down, the monster moves only once it has started, and every note moves by one frame |
| Sprites.SpriteManager.ClearNotes | main.js:1754-1757 | the note list is empty |
| Sprites.SpriteManager.RemoveOffScreenNotes | main.js:1764-1767 | the list keeps the on-screen notes |
| GameModel.SpawnInterval | main.js:534-537 | getRandomSpawnInterval lies in [300, 1000) |
| GameModel.SpawnNote | main.js:445-497 | spawnNote as a value step: `NewNote` appended and the id counter advanced, or nothing when the sprite is missing; described by `NewNoteSpec` and `SpawnScheduleSpec` |
| GameModel.UpdateNoteSpawning | main.js:499-532 | updateNoteSpawning as a value step; its behaviour is `SpawnScheduleSpec` and `SpawnNotBeforeDelay` |
| GameModel.ResetNoteSpawning | main.js:539-543 | resetNoteSpawning: timer at `now`, a fresh interval |
| GameModel.UpdateSprites | main.js:1718-1734 | spriteManager.update as a value step: flash, monster once started, every note |
| GameModel.HitPass | main.js:838-873 | the forEach of processInputAndHits over the notes as they were when the pass began; folded by `HitPassFold` |
| GameModel.ProcessInputAndHits | main.js:816-877 | processInputAndHits as a value step; its behaviour is `ProcessInputAndHitsSpec`, `HitPassNotes` and `HitPassOutcome` |
| GameModel.HandleHit | main.js:880-915 | handleHit as a value step: remove, award, flash, effect |
| GameModel.MissPass | main.js:923-934 | the forEach of checkMissedNotes calling handleMiss; folded by `MissPassFold` |
| GameModel.MissedIds | main.js:923-934 | the notesToRemove it collects; described by `MissedIdsSpec` |
| GameModel.CheckMissedNotes | main.js:918-944 | checkMissedNotes as a value step; its behaviour is `CheckMissedNotesSpec`, `MissPassNotes` and `MissPassOutcome` |
| GameModel.HandleMiss | main.js:947-976 | handleMiss as a value step: miss effect, guarded −5, +10 px/s |
| GameModel.CheckGameConditions | main.js:979-999 | checkGameConditions as a value step; its behaviour is `GameConditionsSpec` |
| GameModel.EndGame | main.js:1001-1025 | endGame as a value step: won or lost, spawning pushed 999999 ms ahead |
| GameModel.Advance | main.js:787-793 | the first phases of a playing frame: spawning, sprites, hits |
| GameModel.Settle | main.js:796-805 | the last phases: effects, off-screen removal, misses, end test, in that order (see `OffScreenNoteIsNoMiss`) |
| GameModel.Frame | main.js:785-806 | a playing frame; its invariant is `FrameKeepsInv` and its fields `FrameFields` |
| GameModel.Tick | main.js:777-813 | one gameLoop call; described by `TickKeepsInv`, `TickSpawnsNotBeforeDelay` and `FinishedGameIsFrozen` |
| GameModel.BeginSession | main.js:762-766 | what start sets before its first frame |
| GameModel.Start | main.js:756-775 | start as a value step; described by `StartSpec` and `StartKeepsInv` |
| GameModel.Cleared | main.js:1087-1105 | what restartGame resets before it calls start |
| GameModel.Restart | main.js:1075-1116 | restartGame as a value step; described by `RestartSpec` and `RestartKeepsInv` |
| GameLemmas.NewNoteSpec | main.js:445-497 | a spawned note starts at the right edge, centred on the note path, unhit, tall for up and down and wide for left and right |
| GameLemmas.SpawnScheduleSpec | main.js:499-532 | nothing before the 3 s delay; the first frame after it starts the monster and draws an interval without spawning; then a note is spawned exactly when the interval has passed and its sprite is loaded, and the timer is renewed whether or not one was |
| GameLemmas.SpawnNotBeforeDelay | main.js:499-537 | no note is spawned earlier than 3.3 s after start |
| GameLemmas.TickSpawnsNotBeforeDelay | main.js:777-813 | the same for a whole frame of gameLoop |
| GameLemmas.ProcessInputAndHitsSpec | main.js:816-878 | without a held key nothing changes; otherwise exactly the hittable notes leave the list, progress grows by their awards, the flash restarts if any were taken and their effects are appended |
| GameLemmas.HitPassNotes | main.js:816-878 | a note stays exactly when it is already hit, does not overlap the hit box, or its direction is not held |
| GameLemmas.HitPassOutcome | main.js:816-916 | progress grows by 4 per perfect and 2 per good hit, capped once at 100; the monster, the keys and the state are left alone |
| GameLemmas.MissPassFold | main.js:918-977 | the handleMiss calls of a pass are k penalties, k speed increments and k miss effects |
| GameLemmas.MissedIdsSpec | main.js:918-940 | notesToRemove holds exactly the ids of the missed notes |
| GameLemmas.CheckMissedNotesSpec | main.js:918-977 | exactly the missed notes leave the list, each costing a penalty, a speed increment and an effect |
| GameLemmas.MissPassNotes | main.js:918-945 | a note leaves exactly when it is unhit and its right edge is past the miss line |
| GameLemmas.MissPassOutcome | main.js:918-977 | progress drops by 5 per miss, floored once at 0, and the monster gains 10 px/s per miss |
| GameLemmas.GameConditionsSpec | main.js:979-1025 | a full bar wins even when the monster has arrived; otherwise reaching the player loses; ending moves the spawn timer far ahead; nothing else changes |
| GameLemmas.FinishedGameIsFrozen | main.js:756-813 | after a win or a loss a frame only records its time, and start refuses |
| GameLemmas.OffScreenNoteIsNoMiss | main.js:799-802 | off-screen notes are dropped before the miss check, so a note past both the miss line and the canvas edge at once, which would be a miss, costs no progress, no speed-up and no miss effect |
| GameLemmas.InitialInv | main.js:3-50 | the freshly set-up game is ready and satisfies the invariant |
| GameLemmas.SpawningKeepsInv | main.js:499-537 | the scheduler keeps the invariant |
| GameLemmas.HitsKeepInv | main.js:816-916 | the hit pass keeps the invariant |
| GameLemmas.MissesKeepInv | main.js:918-977 | the miss pass keeps the invariant |
| GameLemmas.SpritesKeepInv | main.js:1718-1734 | moving the sprites keeps the invariant |
| GameLemmas.FadeKeepsInv | main.js:1934-1947 | fading the effects keeps the invariant |
| GameLemmas.OffScreenKeepsInv | main.js:1764-1767 | dropping off-screen notes keeps the invariant |
| GameLemmas.ConditionsKeepInv | main.js:979-1025 | ending the game keeps the invariant |
| GameLemmas.KeysKeepInv | main.js:1493-1507 | key events, in any state, and showing the menu keep the invariant |
| GameLemmas.FrameKeepsInv | main.js:777-813 | a playing frame keeps the invariant |
| GameLemmas.TickKeepsInv | main.js:777-813 | every gameLoop call keeps the invariant: progress in range, speed at least base, ids increasing and below the counter, no hit note in the list, a spawn interval in range while playing |
| GameLemmas.FrameFields | main.js:777-813 | the monster waits for the delay and then moves by speed × frame time; misses only make it faster; the schedule fields are the scheduler's; the state ends playing, won or lost |
| GameLemmas.StartSpec | main.js:756-775 | start succeeds exactly from ready or the menu; its first frame spawns and moves nothing and depends on no direction draw |
| GameLemmas.StartKeepsInv | main.js:756-775 | start keeps the invariant |
| GameLemmas.RestartSpec | main.js:1075-1116 | restartGame empties the notes, progress, effects and keys, puts the monster back at base speed and plays again, unless the canvas is so narrow that the monster starts at the player and the first frame loses |
| GameLemmas.RestartKeepsInv | main.js:1075-1116 | restartGame keeps the invariant |
| Game.GameManager.constructor | main.js:222-291 | the objects are wired as initializeSprites leaves them, and the view is the initial game |
| Game.GameManager.SpawnNote | main.js:445-497 | returns false and adds nothing when the direction's sprite is missing; otherwise appends `NewNote` |
| Game.GameManager.UpdateNoteSpawning | main.js:499-532 | the view becomes `UpdateNoteSpawning` of the old one |
| Game.GameManager.ResetNoteSpawning | main.js:539-543 | the spawn timer restarts at `now` with a fresh interval |
| Game.GameManager.HandleHit | main.js:880-916 | the note is marked and removed, the award added, the player flashes and the grade's effect appears |
| Game.GameManager.ProcessInputAndHits | main.js:816-878 | the loop over the note snapshot gives `ProcessInputAndHits` of the old view |
| Game.GameManager.HandleMiss | main.js:947-977 | the miss effect, 5 off while progress is positive, and a faster monster |
| Game.GameManager.CheckMissedNotes | main.js:918-945 | the callback loop and then the removal loop give `CheckMissedNotes` of the old view |
| Game.GameManager.EndGame | main.js:1001-1025 | won on true, lost otherwise, and the spawn timer pushed ahead |
| Game.GameManager.CheckGameConditions | main.js:979-999 | the view becomes `CheckGameConditions` of the old one |
| Game.GameManager.PlayFrame | main.js:785-806 | the phases of a playing frame, in order, give `Frame` |
| Game.GameManager.GameLoop | main.js:777-813 | one gameLoop call gives `Tick` and keeps the invariant |
| Game.GameManager.Start | main.js:756-775 | start gives `Start` of the old view and keeps the invariant |
| Game.GameManager.RestartGame | main.js:1075-1116 | restartGame gives `Restart` of the old view and keeps the invariant |
| Game.GameManager.ShowMainMenu | main.js:545-589 | the state becomes the menu |

## Left out

- Asset loading, canvas set-up, every `render*` function, drawing, the DOM
  progress bar (`updateUI`), menus and their clicks, the info text and the
  game-over screen: these are I/O. The model only records which sprites are
  loaded.
- AudioManager, the background and menu music, and the `audioManager.play`
  calls in handleHit and handleMiss: these are sound only.
- `requestAnimationFrame`: each `gameLoop` call is one `GameLoop(now, …)`.
  The next frame is the caller's next call.
- `Date.now()` is the parameter `now`. All reads within one frame, or within
  one `start()`, are taken as the same instant.
- `Math.random()`: the spawn interval draw is the parameter `r`, and the
  note direction is the parameter `d`. The random choice of monster sprite is
  left out, because it only changes the picture.
- Note ids are `Math.random()` numbers in main.js. The model numbers them
  with a counter. This makes every id unique, which main.js assumes when it
  removes notes by id.
- `try`/`catch` blocks and `console` logging: no modelled operation throws.
- Input validation that JavaScript types make possible (`typeof amount !==
  'number'`, a missing position, an unknown effect type) is covered by Dafny
  types. The model keeps only the numeric checks.
- `Note.getTimeSinceCreation`, `Note.getPosition`, `Player.getPosition` and
  the `get*` accessors of GameManager are plain reads. They appear only where
  the core uses them.
- `CollisionDetector.updateMissColliderPosition`,
  `getMissColliderBounds`, `getHitBoxBounds` and `checkHitBoxCollisionCustom`
  are not called by the gameplay core. `checkHitBoxCollisionCustom` appears
  inside `HitGrade`.
- Floating point: all geometry and timing is on exact reals. A zero note
  speed, which would make `getTimingWindow` divide by zero, is graded as a
  miss, which is the outcome Infinity and NaN give there.
- Entities.Player.PlayHitAnimation: requires the animation duration of 200 ms
  that every player in the game has, rather than modelling another duration.

## Findings

| source | as written | input that shows it | evidently intended | confidence | as-written member | corrected member |
|---|---|---|---|---|---|---|
| main.js:1615-1639 | processHit tests the overlap against the custom hit box but grades the timing by the distance to the centre of the player's hit box | player at x = 20 with width 150 (hit box centre at 95); custom box at x = 190, width 100 (centre 240); an up note of width 38 at x = 221 (centre 240), speed 600: centred in the box, yet graded as a miss, so processHit returns null | grade by the distance to the centre of the box that was tested | medium, not executed | Collision.CustomBoxGradedAgainstPlayerBox | Collision.CentredInBoxIsPerfect |
