/** What the frame phases of GameModel do, stated without their loops, and
    the invariant every phase keeps. */
module GameLemmas {
  import opened Geometry
  import opened Input
  import opened Progress
  import opened Entities
  import opened Collision
  import opened Effects
  import opened Sprites
  import opened Difficulty
  import opened GameModel

  // ---------------------------------------------------------------- spawning

  /** A spawned note starts at the right edge of the canvas, centred on the
      note path, unhit, with the fixed note speed. */
  lemma NewNoteSpec(cfg: Config, id: nat, d: Direction, now: int)
    ensures var n := NewNote(cfg, id, d, now);
            && n.x == cfg.width && n.y + n.height / 2.0 == cfg.NotePathY() + NotePathHeight / 2.0
            && !n.hit && n.id == id && n.direction == d && n.createdAt == now && Shaped(cfg, n)
            && (d == Up || d == Down <==> n.height > n.width)
  {
  }

  /** The spawn scheduler. Before the delay nothing happens; the first frame
      after it starts the monster, restarts the spawn timer and draws an
      interval but spawns nothing; after that a note is spawned exactly when
      the interval has elapsed and its sprite loaded, and the timer and the
      interval are renewed whenever the interval has elapsed, spawn or not. */
  lemma SpawnScheduleSpec(cfg: Config, g: GameView, now: int, r: real, d: Direction)
    requires 0.0 <= r < 1.0
    ensures var h := UpdateNoteSpawning(cfg, g, now, r, d);
            var elapsed := (now - g.lastNoteSpawnTime) as real;
            && (!g.monsterHasStarted && now - g.gameStartTime < MonsterStartDelay ==> h == g)
            && (!g.monsterHasStarted && now - g.gameStartTime >= MonsterStartDelay ==>
                  h == g.(monsterHasStarted := true, lastNoteSpawnTime := now,
                          nextSpawnInterval := SpawnInterval(r)))
            && (g.monsterHasStarted && elapsed < g.nextSpawnInterval ==> h == g)
            && (g.monsterHasStarted && elapsed >= g.nextSpawnInterval ==>
                  h.lastNoteSpawnTime == now && h.nextSpawnInterval == SpawnInterval(r) &&
                  h.notes == g.notes + (if NoteSpriteKey(d) in cfg.loaded then [NewNote(cfg, g.nextNoteId, d, now)] else []))
            && (h.nextNoteId != g.nextNoteId <==>
                  g.monsterHasStarted && elapsed >= g.nextSpawnInterval && NoteSpriteKey(d) in cfg.loaded)
  {
    if !g.monsterHasStarted && now - g.gameStartTime >= MonsterStartDelay {
      assert (now - now) as real < SpawnInterval(r);
    }
  }

  /** No note appears in the first 3.3 seconds of a game: the monster waits
      3 seconds and the first interval is at least 0.3 seconds. */
  lemma {:induction false} SpawnNotBeforeDelay(cfg: Config, g: GameView, now: int, r: real, d: Direction)
    requires Inv(cfg, g) && g.state == Playing && 0.0 <= r < 1.0
    requires UpdateNoteSpawning(cfg, g, now, r, d).nextNoteId != g.nextNoteId
    ensures now >= g.gameStartTime + MonsterStartDelay + MinSpawn as int
    ensures (now - g.lastNoteSpawnTime) as real >= MinSpawn
  {
    SpawnScheduleSpec(cfg, g, now, r, d);
  }

  // ---------------------------------------------------------------- hits

  /** The notes the hit pass takes from `vs`. */
  function Hits(cfg: Config, active: seq<Direction>, vs: seq<NoteView>): seq<NoteView> {
    Filter(vs, HittableBy(cfg, active))
  }

  /** The awards of those notes, in order. */
  function Awards(cfg: Config, hits: seq<NoteView>): (awards: seq<real>)
    ensures |awards| == |hits|
    ensures forall i :: 0 <= i < |hits| ==> awards[i] == Award(HitType(cfg, hits[i])) && awards[i] >= 0.0
    decreases |hits|
  {
    if hits == [] then [] else [Award(HitType(cfg, hits[0]))] + Awards(cfg, hits[1..])
  }

  /** The effects of those hits, in order. */
  function HitEffects(cfg: Config, hits: seq<NoteView>, now: int): seq<Effect>
    decreases |hits|
  {
    if hits == [] then []
    else Create([], EffectOf(HitType(cfg, hits[0])), cfg.width / 2.0, EffectY, cfg.loaded, now,
                DefaultEffectDuration) + HitEffects(cfg, hits[1..], now)
  }

  lemma {:induction false} HitEffectsDurations(cfg: Config, hits: seq<NoteView>, now: int)
    ensures forall i :: 0 <= i < |HitEffects(cfg, hits, now)| ==> HitEffects(cfg, hits, now)[i].duration > 0.0
    decreases |hits|
  {
    if hits != [] {
      HitEffectsDurations(cfg, hits[1..], now);
    }
  }

  /** The hit pass over any snapshot, from a list that already lacks the ids
      `removed`: the ids of the taken notes are removed, their awards added
      one by one, the flash restarted if anything was taken, and their
      effects appended. */
  lemma {:induction false} HitPassFold(cfg: Config, g: GameView, active: seq<Direction>, now: int,
                                       snapshot: seq<NoteView>, all: seq<NoteView>, removed: set<nat>)
    requires g.notes == WithoutIds(all, removed)
    ensures var hits := Hits(cfg, active, snapshot);
            HitPass(cfg, g, active, now, snapshot) ==
              g.(notes := WithoutIds(all, removed + IdSet(hits)),
                 progress := AddAll(g.progress, Awards(cfg, hits)),
                 flash := if hits == [] then g.flash else FlashStarted(),
                 effects := g.effects + HitEffects(cfg, hits, now))
    decreases |snapshot|
  {
    if snapshot == [] {
      assert removed + {} == removed;
      assert g.effects + [] == g.effects;
    } else {
      var n := snapshot[0];
      var rest := snapshot[1..];
      var hitsRest := Hits(cfg, active, rest);
      assert HittableBy(cfg, active)(n) == Hittable(cfg, active, n);
      if Hittable(cfg, active, n) {
        var g1 := HandleHit(cfg, g, n, HitType(cfg, n), now);
        RemoveIdSpec(all, removed, n.id);
        HitPassFold(cfg, g1, active, now, rest, all, removed + {n.id});
        var hits := [n] + hitsRest;
        assert Hits(cfg, active, snapshot) == hits;
        HitsConsFields(cfg, g, n, hitsRest, now, removed);
      } else {
        HitPassFold(cfg, g, active, now, rest, all, removed);
        assert Hits(cfg, active, snapshot) == hitsRest;
      }
    }
  }

  /** What taking one more note in front of `hitsRest` adds to each field
      of the hit pass's outcome. */
  lemma HitsConsFields(cfg: Config, g: GameView, n: NoteView, hitsRest: seq<NoteView>, now: int,
                       removed: set<nat>)
    ensures var hits := [n] + hitsRest;
            var g1 := HandleHit(cfg, g, n, HitType(cfg, n), now);
            && removed + {n.id} + IdSet(hitsRest) == removed + IdSet(hits)
            && AddAll(g1.progress, Awards(cfg, hitsRest)) == AddAll(g.progress, Awards(cfg, hits))
            && g1.effects + HitEffects(cfg, hitsRest, now) == g.effects + HitEffects(cfg, hits, now)
            && FlashStarted() == (if hits == [] then g.flash else FlashStarted())
  {
    HitsConsIds(n, hitsRest, removed);
    HitsConsAwards(cfg, g.progress, n, hitsRest);
    HitsConsEffects(cfg, g.effects, n, hitsRest, now);
  }

  lemma HitsConsIds(n: NoteView, hitsRest: seq<NoteView>, removed: set<nat>)
    ensures removed + {n.id} + IdSet(hitsRest) == removed + IdSet([n] + hitsRest)
  {
    Split(n, hitsRest);
    assert IdSet([n] + hitsRest) == {n.id} + IdSet(hitsRest);
  }

  lemma HitsConsAwards(cfg: Config, p: real, n: NoteView, hitsRest: seq<NoteView>)
    ensures AddAll(Added(p, Award(HitType(cfg, n))), Awards(cfg, hitsRest)) == AddAll(p, Awards(cfg, [n] + hitsRest))
  {
    Split(n, hitsRest);
    var awards := Awards(cfg, [n] + hitsRest);
    assert awards == [Award(HitType(cfg, n))] + Awards(cfg, hitsRest);
    assert awards[1..] == Awards(cfg, hitsRest);
  }

  lemma HitsConsEffects(cfg: Config, effects: seq<Effect>, n: NoteView, hitsRest: seq<NoteView>, now: int)
    ensures Create(effects, EffectOf(HitType(cfg, n)), cfg.width / 2.0, EffectY, cfg.loaded, now,
                   DefaultEffectDuration) + HitEffects(cfg, hitsRest, now)
         == effects + HitEffects(cfg, [n] + hitsRest, now)
  {
    Split(n, hitsRest);
    var e := Create([], EffectOf(HitType(cfg, n)), cfg.width / 2.0, EffectY, cfg.loaded, now, DefaultEffectDuration);
    assert HitEffects(cfg, [n] + hitsRest, now) == e + HitEffects(cfg, hitsRest, now);
    assert Create(effects, EffectOf(HitType(cfg, n)), cfg.width / 2.0, EffectY, cfg.loaded, now,
                  DefaultEffectDuration) == effects + e;
  }

  /** One step of the hit pass. */
  lemma HitPassStep(cfg: Config, g: GameView, g1: GameView, active: seq<Direction>, now: int,
                    snapshot: seq<NoteView>)
    requires snapshot != []
    requires g1 == if Hittable(cfg, active, snapshot[0])
                   then HandleHit(cfg, g, snapshot[0], HitType(cfg, snapshot[0]), now) else g
    ensures HitPass(cfg, g, active, now, snapshot) == HitPass(cfg, g1, active, now, snapshot[1..])
  {
  }

  /** One step of the miss pass, and of the ids it collects. */
  lemma MissPassStep(cfg: Config, g: GameView, g1: GameView, now: int, snapshot: seq<NoteView>)
    requires snapshot != []
    requires g1 == if cfg.CollisionDetector().CheckMissCollision(snapshot[0])
                   then HandleMiss(cfg, g, now) else g
    ensures MissPass(cfg, g, now, snapshot) == MissPass(cfg, g1, now, snapshot[1..])
    ensures MissedIds(cfg, snapshot)
         == (if cfg.CollisionDetector().CheckMissCollision(snapshot[0]) then [snapshot[0].id] else [])
            + MissedIds(cfg, snapshot[1..])
  {
  }

  /** processInputAndHits without its loop. With no key held nothing
      changes; otherwise exactly the hittable notes leave the list (the
      others stay, in order), progress grows by their awards, and so on. */
  lemma ProcessInputAndHitsSpec(cfg: Config, g: GameView, now: int)
    requires IdsIncreasing(g.notes)
    ensures var active := ActiveDirections(g.keys);
            var hits := Hits(cfg, active, g.notes);
            ProcessInputAndHits(cfg, g, now) ==
              if |active| == 0 then g
              else g.(notes := Filter(g.notes, Not(HittableBy(cfg, active))),
                      progress := AddAll(g.progress, Awards(cfg, hits)),
                      flash := if hits == [] then g.flash else FlashStarted(),
                      effects := g.effects + HitEffects(cfg, hits, now))
  {
    var active := ActiveDirections(g.keys);
    if |active| != 0 {
      WithoutNoIds(g.notes);
      HitPassFold(cfg, g, active, now, g.notes, g.notes, {});
      assert {} + IdSet(Hits(cfg, active, g.notes)) == IdSet(Hits(cfg, active, g.notes));
      WithoutFilteredIds(g.notes, HittableBy(cfg, active));
    }
  }

  /** With no key held the hit pass changes nothing. */
  lemma NoKeyNoHit(cfg: Config, g: GameView, now: int)
    requires forall d :: !DirectionHeld(g.keys, d)
    ensures ProcessInputAndHits(cfg, g, now) == g
  {
    ActiveDirectionsSpec(g.keys);
  }

  /** The notes of the hit pass in the game's terms: a note stays exactly
      when it is hit already, does not strictly overlap the hit box, or its
      direction is not held. */
  lemma HitPassNotes(cfg: Config, g: GameView, now: int)
    requires IdsIncreasing(g.notes)
    ensures var h := ProcessInputAndHits(cfg, g, now);
            && (forall v :: v in h.notes <==>
                  v in g.notes && (v.hit || !Overlaps(v.Bounds(), cfg.HitBox()) || !DirectionHeld(g.keys, v.direction)))
            && IdsIncreasing(h.notes)
  {
    var active := ActiveDirections(g.keys);
    ActiveDirectionsSpec(g.keys);
    ProcessInputAndHitsSpec(cfg, g, now);
    if |active| == 0 {
      forall dir ensures !DirectionHeld(g.keys, dir) {
        assert dir !in active;
      }
    } else {
      var keep := Not(HittableBy(cfg, active));
      FilterSpec(g.notes, keep);
      forall v ensures keep(v) <==> !Hittable(cfg, active, v) {
      }
    }
  }

  /** With no key held nothing is taken. */
  lemma NoKeyNoHits(cfg: Config, g: GameView)
    requires |ActiveDirections(g.keys)| == 0
    ensures Hits(cfg, ActiveDirections(g.keys), g.notes) == []
  {
    var active := ActiveDirections(g.keys);
    var hits := Hits(cfg, active, g.notes);
    FilterSpec(g.notes, HittableBy(cfg, active));
  }

  /** The score of the hit pass: every taken note scores 4 if its centre is
      within 20 px of the hit box centre and 2 otherwise, and the sum is
      capped once at 100. The monster, the keys and the state are left
      alone. */
  lemma HitPassOutcome(cfg: Config, g: GameView, now: int)
    requires IdsIncreasing(g.notes) && InRange(g.progress)
    ensures var h := ProcessInputAndHits(cfg, g, now);
            && h.progress == Min(g.progress + Sum(Awards(cfg, Hits(cfg, ActiveDirections(g.keys), g.notes))), Full)
            && h.state == g.state && h.monsterX == g.monsterX && h.monsterSpeed == g.monsterSpeed
            && h.nextNoteId == g.nextNoteId && h.keys == g.keys
  {
    var active := ActiveDirections(g.keys);
    ProcessInputAndHitsSpec(cfg, g, now);
    AddAllCapsOnce(g.progress, Awards(cfg, Hits(cfg, active, g.notes)));
    if |active| == 0 {
      NoKeyNoHits(cfg, g);
    }
  }

  // ---------------------------------------------------------------- misses

  /** The notes the miss pass takes from `vs`. */
  function Misses(cfg: Config, vs: seq<NoteView>): seq<NoteView> {
    Filter(vs, MissedBy(cfg))
  }

  function Repeat(e: Effect, k: nat): (es: seq<Effect>)
    ensures |es| == k && forall i :: 0 <= i < k ==> es[i] == e
    decreases k
  {
    if k == 0 then [] else [e] + Repeat(e, k - 1)
  }

  /** The effects of k misses. */
  function MissEffects(cfg: Config, k: nat, now: int): seq<Effect> {
    if SpriteKey(MissEffect) in cfg.loaded
    then Repeat(Created(MissEffect, cfg.width / 2.0, EffectY, now, DefaultEffectDuration), k)
    else []
  }

  /** The handleMiss calls of a pass: k penalties, k speed increments and k
      miss effects, where k is the number of missed notes. */
  lemma {:induction false} MissPassFold(cfg: Config, g: GameView, now: int, snapshot: seq<NoteView>)
    ensures var k := |Misses(cfg, snapshot)|;
            MissPass(cfg, g, now, snapshot) ==
              g.(progress := PenalizedTimes(g.progress, MissPenalty, k),
                 monsterSpeed := g.monsterSpeed + k as real * DefaultMonsterSpeedIncrement,
                 effects := g.effects + MissEffects(cfg, k, now))
    decreases |snapshot|
  {
    if snapshot == [] {
      assert g.effects + [] == g.effects;
    } else {
      var n := snapshot[0];
      var rest := snapshot[1..];
      var k := |Misses(cfg, rest)|;
      assert MissedBy(cfg)(n) == cfg.CollisionDetector().CheckMissCollision(n);
      if cfg.CollisionDetector().CheckMissCollision(n) {
        var g1 := HandleMiss(cfg, g, now);
        MissPassFold(cfg, g1, now, rest);
        assert Misses(cfg, snapshot) == [n] + Misses(cfg, rest);
        assert PenalizedTimes(g.progress, MissPenalty, k + 1)
            == PenalizedTimes(Penalized(g.progress, MissPenalty), MissPenalty, k);
        assert Repeat(Created(MissEffect, cfg.width / 2.0, EffectY, now, DefaultEffectDuration), k + 1)
            == [Created(MissEffect, cfg.width / 2.0, EffectY, now, DefaultEffectDuration)]
               + Repeat(Created(MissEffect, cfg.width / 2.0, EffectY, now, DefaultEffectDuration), k);
      } else {
        MissPassFold(cfg, g, now, rest);
        assert Misses(cfg, snapshot) == Misses(cfg, rest);
      }
    }
  }

  /** notesToRemove holds the ids of the missed notes. */
  lemma {:induction false} MissedIdsSpec(cfg: Config, snapshot: seq<NoteView>)
    ensures (set i | i in MissedIds(cfg, snapshot)) == IdSet(Misses(cfg, snapshot))
    decreases |snapshot|
  {
    if snapshot != [] {
      var n := snapshot[0];
      MissedIdsSpec(cfg, snapshot[1..]);
      assert MissedBy(cfg)(n) == cfg.CollisionDetector().CheckMissCollision(n);
      var rest := MissedIds(cfg, snapshot[1..]);
      if cfg.CollisionDetector().CheckMissCollision(n) {
        assert MissedIds(cfg, snapshot) == [n.id] + rest;
        assert (set i | i in [n.id] + rest) == {n.id} + set i | i in rest;
        assert Misses(cfg, snapshot) == [n] + Misses(cfg, snapshot[1..]);
        Split(n, Misses(cfg, snapshot[1..]));
      } else {
        assert MissedIds(cfg, snapshot) == rest;
        assert Misses(cfg, snapshot) == Misses(cfg, snapshot[1..]);
      }
    }
  }

  /** checkMissedNotes without its loops: exactly the missed notes leave the
      list, and each one costs a penalty, a speed increment and an effect. */
  lemma CheckMissedNotesSpec(cfg: Config, g: GameView, now: int)
    requires IdsIncreasing(g.notes)
    ensures var k := |Misses(cfg, g.notes)|;
            CheckMissedNotes(cfg, g, now) ==
              g.(notes := Filter(g.notes, Not(MissedBy(cfg))),
                 progress := PenalizedTimes(g.progress, MissPenalty, k),
                 monsterSpeed := g.monsterSpeed + k as real * DefaultMonsterSpeedIncrement,
                 effects := g.effects + MissEffects(cfg, k, now))
  {
    var ids := MissedIds(cfg, g.notes);
    var g1 := MissPass(cfg, g, now, g.notes);
    MissPassFold(cfg, g, now, g.notes);
    assert g1.notes == g.notes;
    MissedIdsSpec(cfg, g.notes);
    WithoutNoIds(g.notes);
    RemoveIdsSpec(g.notes, {}, ids);
    WithoutFilteredIds(g.notes, MissedBy(cfg));
    var none: set<nat> := {};
    var idSet: set<nat> := none + set i | i in ids;
    assert idSet == IdSet(Filter(g.notes, MissedBy(cfg)));
    calc {
      RemoveIds(g1.notes, ids);
      RemoveIds(WithoutIds(g.notes, none), ids);
      WithoutIds(g.notes, idSet);
      Filter(g.notes, Not(MissedBy(cfg)));
    }
  }

  /** The notes of the miss pass in the game's terms: a note leaves exactly
      when it is unhit and its right edge is left of the miss line, so a
      hit note is never a miss. */
  lemma MissPassNotes(cfg: Config, g: GameView, now: int)
    requires IdsIncreasing(g.notes)
    ensures var h := CheckMissedNotes(cfg, g, now);
            && (forall v :: v in h.notes <==>
                  v in g.notes && (v.hit || v.x + v.width >= cfg.PlayerHitBox().x - MissColliderOffset))
            && (forall v :: v in Misses(cfg, g.notes) ==> !v.hit)
            && IdsIncreasing(h.notes)
  {
    CheckMissedNotesSpec(cfg, g, now);
    var keep := Not(MissedBy(cfg));
    FilterSpec(g.notes, keep);
    FilterSpec(g.notes, MissedBy(cfg));
    forall v ensures keep(v) <==> v.hit || v.x + v.width >= cfg.PlayerHitBox().x - MissColliderOffset {
    }
  }

  /** The score of the miss pass: progress drops by 5 per miss floored once
      at 0, and the monster gains 10 px/s per miss. */
  lemma MissPassOutcome(cfg: Config, g: GameView, now: int)
    requires IdsIncreasing(g.notes) && InRange(g.progress)
    ensures var h := CheckMissedNotes(cfg, g, now);
            var k := |Misses(cfg, g.notes)|;
            && h.progress == Max(g.progress - k as real * MissPenalty, 0.0)
            && h.monsterSpeed == g.monsterSpeed + k as real * DefaultMonsterSpeedIncrement
            && h.state == g.state && h.monsterX == g.monsterX && h.nextNoteId == g.nextNoteId
            && h.flash == g.flash && h.keys == g.keys
  {
    CheckMissedNotesSpec(cfg, g, now);
    PenalizedTimesFloorsOnce(g.progress, MissPenalty, |Misses(cfg, g.notes)|);
  }

  // ---------------------------------------------------------------- end

      /** removeOffScreenNotes empties a list of off-screen notes. */
  lemma {:induction false} AllOffScreen(vs: seq<NoteView>)
    requires forall i :: 0 <= i < |vs| ==> vs[i].OffScreen()
    ensures OnScreen(vs) == []
    decreases |vs|
  {
    if vs != [] {
      AllOffScreen(vs[1..]);
    }
  }

/** gameLoop drops the off-screen notes before it looks for misses. A
      note whose right edge passes both the miss line and the left edge of
      the canvas within one frame (at 600 px/s, a frame longer than about
      31 ms can do that) would be a miss, yet leaves with no penalty, no
      speed-up and no miss effect. */
  lemma OffScreenNoteIsNoMiss(cfg: Config, g: GameView, now: int)
    requires forall i :: 0 <= i < |g.notes| ==> g.notes[i].OffScreen()
    ensures forall i :: 0 <= i < |g.notes| ==>
              g.notes[i].hit || cfg.CollisionDetector().CheckMissCollision(g.notes[i])
    ensures var h := Settle(cfg, g, now);
            && h.notes == [] && h.progress == g.progress && h.monsterSpeed == g.monsterSpeed
            && h.effects == Faded(g.effects, now)
  {
    AllOffScreen(g.notes);
    var g5 := g.(effects := Faded(g.effects, now), notes := []);
    assert CheckMissedNotes(cfg, g5, now) == g5;
    GameConditionsSpec(cfg, g5, now);
  }

/** The win test comes first: a full bar wins even when the monster has
      reached the player; otherwise reaching the player loses. Ending the
      game pushes the spawn timer far into the future. */
  lemma GameConditionsSpec(cfg: Config, g: GameView, now: int)
    ensures var h := CheckGameConditions(cfg, g, now);
            && (Filled(g.progress) ==> h.state == Won)
            && (!Filled(g.progress) && g.monsterX <= PlayerX ==> h.state == Lost)
            && (!Filled(g.progress) && g.monsterX > PlayerX ==> h == g)
            && (h != g ==> h.lastNoteSpawnTime == now + SpawnStopDelay)
            && h == g.(state := h.state, lastNoteSpawnTime := h.lastNoteSpawnTime)
  {
  }

  /** Outside of play a frame only records its time: a finished game stays
      finished, and start refuses to run it again. */
  lemma FinishedGameIsFrozen(cfg: Config, g: GameView, now: int, r: real, d: Direction)
    requires g.state == Won || g.state == Lost
    requires 0.0 <= r < 1.0
    ensures Tick(cfg, g, now, r, d) == g.(lastFrameTime := now)
    ensures Start(cfg, g, now, r, d) == (g, false)
  {
  }

  // ---------------------------------------------------------------- invariant

  lemma InitialInv(cfg: Config)
    ensures Inv(cfg, Initial(cfg))
    ensures Initial(cfg).state == Ready
  {
  }

  /** The scheduler keeps the invariant and never touches progress, the
      monster, the keys or the effects. */
  lemma SpawningKeepsInv(cfg: Config, g: GameView, now: int, r: real, d: Direction)
    requires Inv(cfg, g) && g.state == Playing && 0.0 <= r < 1.0
    ensures var h := UpdateNoteSpawning(cfg, g, now, r, d);
            Inv(cfg, h) && h.state == Playing && h.nextNoteId >= g.nextNoteId
  {
    var h := UpdateNoteSpawning(cfg, g, now, r, d);
    SpawnScheduleSpec(cfg, g, now, r, d);
    if h.notes != g.notes {
      var n := NewNote(cfg, g.nextNoteId, d, now);
      assert h.notes == g.notes + [n];
      assert forall i :: 0 <= i < |g.notes| ==> h.notes[i] == g.notes[i];
    }
  }

  lemma SpritesKeepInv(cfg: Config, g: GameView, dt: real)
    requires Inv(cfg, g)
    ensures Inv(cfg, UpdateSprites(g, dt))
  {
  }

  lemma HitsKeepInv(cfg: Config, g: GameView, now: int)
    requires Inv(cfg, g)
    ensures var h := ProcessInputAndHits(cfg, g, now);
            Inv(cfg, h) && h.state == g.state && h.monsterX == g.monsterX && h.nextNoteId == g.nextNoteId
            && h.gameStartTime == g.gameStartTime && h.monsterHasStarted == g.monsterHasStarted
            && h.lastNoteSpawnTime == g.lastNoteSpawnTime && h.nextSpawnInterval == g.nextSpawnInterval
  {
    var active := ActiveDirections(g.keys);
    var h := ProcessInputAndHits(cfg, g, now);
    HitPassNotes(cfg, g, now);
    HitPassOutcome(cfg, g, now);
    ProcessInputAndHitsSpec(cfg, g, now);
    var hits := Hits(cfg, active, g.notes);
    SumNonNegative(Awards(cfg, hits));
    HitEffectsDurations(cfg, hits, now);
    forall i | 0 <= i < |h.notes|
      ensures h.notes[i].id < h.nextNoteId && !h.notes[i].hit && Shaped(cfg, h.notes[i])
    {
      assert h.notes[i] in h.notes;
    }
  }

  lemma FadeKeepsInv(cfg: Config, g: GameView, now: int)
    requires Inv(cfg, g)
    ensures Inv(cfg, g.(effects := Faded(g.effects, now)))
  {
    FadedDurations(g.effects, now);
  }

  lemma OffScreenKeepsInv(cfg: Config, g: GameView)
    requires Inv(cfg, g)
    ensures Inv(cfg, g.(notes := OnScreen(g.notes)))
  {
    var ns := OnScreen(g.notes);
    OnScreenSpec(g.notes);
    forall i | 0 <= i < |ns| ensures ns[i].id < g.nextNoteId && !ns[i].hit && Shaped(cfg, ns[i]) {
      assert ns[i] in ns;
    }
  }

  lemma MissesKeepInv(cfg: Config, g: GameView, now: int)
    requires Inv(cfg, g)
    ensures var h := CheckMissedNotes(cfg, g, now);
            Inv(cfg, h) && h.state == g.state && h.monsterX == g.monsterX && h.nextNoteId == g.nextNoteId
            && h.monsterSpeed >= g.monsterSpeed
  {
    var h := CheckMissedNotes(cfg, g, now);
    MissPassNotes(cfg, g, now);
    MissPassOutcome(cfg, g, now);
    CheckMissedNotesSpec(cfg, g, now);
    forall i | 0 <= i < |h.notes| ensures h.notes[i].id < h.nextNoteId && !h.notes[i].hit && Shaped(cfg, h.notes[i]) {
      assert h.notes[i] in h.notes;
    }
    var e := Created(MissEffect, cfg.width / 2.0, EffectY, now, DefaultEffectDuration);
    assert e.duration > 0.0;
  }

  lemma ConditionsKeepInv(cfg: Config, g: GameView, now: int)
    requires Inv(cfg, g)
    ensures Inv(cfg, CheckGameConditions(cfg, g, now))
  {
  }

  /** The phases of a playing frame, shown one by one to keep the invariant. */
  lemma FrameKeepsInv(cfg: Config, g: GameView, now: int, dt: real, r: real, d: Direction)
    requires Inv(cfg, g) && g.state == Playing && 0.0 <= r < 1.0
    ensures Inv(cfg, Frame(cfg, g, now, dt, r, d))
  {
    var g1 := UpdateNoteSpawning(cfg, g, now, r, d);
    SpawningKeepsInv(cfg, g, now, r, d);
    var g2 := UpdateSprites(g1, dt);
    SpritesKeepInv(cfg, g1, dt);
    var g3 := ProcessInputAndHits(cfg, g2, now);
    HitsKeepInv(cfg, g2, now);
    var g4 := g3.(effects := Faded(g3.effects, now));
    FadeKeepsInv(cfg, g3, now);
    var g5 := g4.(notes := OnScreen(g4.notes));
    OffScreenKeepsInv(cfg, g4);
    var g6 := CheckMissedNotes(cfg, g5, now);
    MissesKeepInv(cfg, g5, now);
    ConditionsKeepInv(cfg, g6, now);
    assert Frame(cfg, g, now, dt, r, d) == CheckGameConditions(cfg, g6, now);
  }

  /** A frame is the frame time set, then the phases when playing. */
  lemma TickUnfolds(cfg: Config, g: GameView, g0: GameView, now: int, dt: real, r: real, d: Direction)
    requires 0.0 <= r < 1.0 && g0 == g.(lastFrameTime := now)
    requires dt == (now - g.lastFrameTime) as real / 1000.0
    ensures Tick(cfg, g, now, r, d) == if g0.state == Playing then Frame(cfg, g0, now, dt, r, d) else g0
  {
  }

  /** Every frame keeps the invariant. */
  lemma TickKeepsInv(cfg: Config, g: GameView, now: int, r: real, d: Direction)
    requires Inv(cfg, g) && 0.0 <= r < 1.0
    ensures Inv(cfg, Tick(cfg, g, now, r, d))
  {
    var g0 := g.(lastFrameTime := now);
    var dt := (now - g.lastFrameTime) as real / 1000.0;
    TickUnfolds(cfg, g, g0, now, dt, r, d);
    if g.state == Playing {
      FrameKeepsInv(cfg, g0, now, dt, r, d);
    }
  }

  lemma BeginSessionKeepsInv(cfg: Config, g: GameView, now: int, r: real)
    requires Inv(cfg, g) && 0.0 <= r < 1.0
    ensures Inv(cfg, BeginSession(g, now, r))
  {
  }

  lemma ClearedKeepsInv(cfg: Config, g: GameView)
    requires Inv(cfg, g)
    ensures Inv(cfg, Cleared(cfg, g))
  {
  }

  lemma StartKeepsInv(cfg: Config, g: GameView, now: int, r: real, d: Direction)
    requires Inv(cfg, g) && 0.0 <= r < 1.0
    ensures Inv(cfg, Start(cfg, g, now, r, d).0)
  {
    if g.state == Ready || g.state == Menu {
      var g1 := ResetNoteSpawning(g.(state := Playing, gameStartTime := now, monsterHasStarted := false), now, r)
                  .(lastFrameTime := now);
      TickKeepsInv(cfg, g1, now, r, d);
    }
  }

  lemma RestartKeepsInv(cfg: Config, g: GameView, now: int, r: real, d: Direction)
    requires Inv(cfg, g) && 0.0 <= r < 1.0
    ensures Inv(cfg, Restart(cfg, g, now, r, d))
  {
    var g1 := g.(state := Ready, notes := [], progress := 0.0, effects := [], keys := Released,
                 monsterX := cfg.MonsterStartX(), monsterSpeed := MonsterBaseSpeed);
    StartKeepsInv(cfg, g1, now, r, d);
  }

  lemma KeysKeepInv(cfg: Config, g: GameView, key: Key)
    requires Inv(cfg, g)
    ensures Inv(cfg, PressKey(g, key)) && Inv(cfg, ReleaseKey(g, key)) && Inv(cfg, ShowMainMenu(g))
  {
  }

  // ---------------------------------------------------------------- a whole frame

  /** The hit pass writes the notes, the progress, the flash and the
      effects, and nothing else. */
  lemma {:induction false} HitPassTouches(cfg: Config, g: GameView, active: seq<Direction>, now: int,
                                          snapshot: seq<NoteView>)
    ensures var h := HitPass(cfg, g, active, now, snapshot);
            h == g.(notes := h.notes, progress := h.progress, flash := h.flash, effects := h.effects)
    decreases |snapshot|
  {
    if snapshot != [] {
      var n := snapshot[0];
      var g1 := if Hittable(cfg, active, n) then HandleHit(cfg, g, n, HitType(cfg, n), now) else g;
      HitPassTouches(cfg, g1, active, now, snapshot[1..]);
    }
  }

  /** The schedule fields a phase of a frame may leave alone. */
  predicate SameSchedule(a: GameView, b: GameView) {
    && a.nextNoteId == b.nextNoteId && a.gameStartTime == b.gameStartTime
    && a.lastFrameTime == b.lastFrameTime && a.monsterHasStarted == b.monsterHasStarted
    && a.nextSpawnInterval == b.nextSpawnInterval
  }

  /** The scheduler leaves the monster, the state and the clocks alone. */
  lemma SpawningFields(cfg: Config, g: GameView, now: int, r: real, d: Direction)
    requires 0.0 <= r < 1.0
    ensures var h := UpdateNoteSpawning(cfg, g, now, r, d);
            && h.monsterX == g.monsterX && h.monsterSpeed == g.monsterSpeed && h.state == g.state
            && h.gameStartTime == g.gameStartTime && h.lastFrameTime == g.lastFrameTime
  {
  }

  /** The hit pass leaves the monster, the state and the schedule alone. */
  lemma HitsFields(cfg: Config, g: GameView, now: int)
    ensures var h := ProcessInputAndHits(cfg, g, now);
            SameSchedule(h, g) && h.monsterX == g.monsterX && h.monsterSpeed == g.monsterSpeed
            && h.state == g.state
  {
    if |ActiveDirections(g.keys)| != 0 {
      HitPassTouches(cfg, g, ActiveDirections(g.keys), now, g.notes);
    }
  }

  /** The miss pass leaves the monster's place, the state and the schedule
      alone, and can only make the monster faster. */
  lemma MissesFields(cfg: Config, g: GameView, now: int)
    ensures var h := CheckMissedNotes(cfg, g, now);
            SameSchedule(h, g) && h.monsterX == g.monsterX && h.monsterSpeed >= g.monsterSpeed
            && h.state == g.state
  {
    MissPassFold(cfg, g, now, g.notes);
  }

  /** What a playing frame does to the fields outside the note list: the
      monster waits until the start delay has passed and from the frame in
      which it starts moves left by its speed times the frame time; misses
      only make it faster; the spawn bookkeeping is the scheduler's. */
  lemma FrameFields(cfg: Config, g: GameView, now: int, dt: real, r: real, d: Direction)
    requires g.state == Playing && 0.0 <= r < 1.0
    ensures var g1 := UpdateNoteSpawning(cfg, g, now, r, d);
            var h := Frame(cfg, g, now, dt, r, d);
            && h.monsterX == (if g.monsterHasStarted || now - g.gameStartTime >= MonsterStartDelay
                              then Approached(g.monsterX, g.monsterSpeed, dt) else g.monsterX)
            && h.monsterSpeed >= g.monsterSpeed
            && h.nextNoteId == g1.nextNoteId
            && h.gameStartTime == g.gameStartTime && h.lastFrameTime == g.lastFrameTime
            && h.monsterHasStarted == g1.monsterHasStarted
            && h.nextSpawnInterval == g1.nextSpawnInterval
            && h.state in {Playing, Won, Lost}
  {
    var g1 := UpdateNoteSpawning(cfg, g, now, r, d);
    SpawningFields(cfg, g, now, r, d);
    SpawningStartsMonster(cfg, g, now, r, d);
    var g2 := UpdateSprites(g1, dt);
    assert SameSchedule(g2, g1) && g2.monsterSpeed == g.monsterSpeed && g2.state == Playing;
    assert g2.monsterX == if g1.monsterHasStarted then Approached(g.monsterX, g.monsterSpeed, dt) else g.monsterX;
    var g3 := ProcessInputAndHits(cfg, g2, now);
    HitsFields(cfg, g2, now);
    var g4 := g3.(effects := Faded(g3.effects, now));
    var g5 := g4.(notes := OnScreen(g4.notes));
    var g6 := CheckMissedNotes(cfg, g5, now);
    MissesFields(cfg, g5, now);
    var h := CheckGameConditions(cfg, g6, now);
    GameConditionsSpec(cfg, g6, now);
    assert SameSchedule(h, g1) && h.monsterX == g2.monsterX && h.monsterSpeed >= g.monsterSpeed;
    assert Frame(cfg, g, now, dt, r, d) == h;
  }

  /** The scheduler starts the monster once the delay has passed. */
  lemma SpawningStartsMonster(cfg: Config, g: GameView, now: int, r: real, d: Direction)
    requires 0.0 <= r < 1.0
    ensures UpdateNoteSpawning(cfg, g, now, r, d).monsterHasStarted
         == (g.monsterHasStarted || now - g.gameStartTime >= MonsterStartDelay)
  {
  }

  /** No note is spawned in the first 3.3 seconds after start, however the
      frames fall. */
  lemma TickSpawnsNotBeforeDelay(cfg: Config, g: GameView, now: int, r: real, d: Direction)
    requires Inv(cfg, g) && g.state == Playing && 0.0 <= r < 1.0
    requires Tick(cfg, g, now, r, d).nextNoteId != g.nextNoteId
    ensures now >= g.gameStartTime + MonsterStartDelay + MinSpawn as int
  {
    var g0 := g.(lastFrameTime := now);
    var dt := (now - g.lastFrameTime) as real / 1000.0;
    TickUnfolds(cfg, g, g0, now, dt, r, d);
    FrameFields(cfg, g0, now, dt, r, d);
    SpawnNotBeforeDelay(cfg, g0, now, r, d);
  }

  // ---------------------------------------------------------------- start and restart

  /** start succeeds exactly from ready or the menu. Its first frame runs
      with no elapsed time before the monster's delay, so it spawns nothing,
      moves nothing and draws no direction. */
  lemma StartSpec(cfg: Config, g: GameView, now: int, r: real, d: Direction, d2: Direction)
    requires 0.0 <= r < 1.0
    ensures Start(cfg, g, now, r, d).1 <==> g.state == Ready || g.state == Menu
    ensures Start(cfg, g, now, r, d) == Start(cfg, g, now, r, d2)
    ensures var h := Start(cfg, g, now, r, d).0;
            Start(cfg, g, now, r, d).1 ==>
              && h.state in {Playing, Won, Lost}
              && h.gameStartTime == now && !h.monsterHasStarted && h.lastFrameTime == now
              && h.monsterX == g.monsterX && h.nextNoteId == g.nextNoteId
              && h.nextSpawnInterval == SpawnInterval(r)
  {
    if g.state == Ready || g.state == Menu {
      var g1 := ResetNoteSpawning(g.(state := Playing, gameStartTime := now, monsterHasStarted := false), now, r)
                  .(lastFrameTime := now);
      assert g1.(lastFrameTime := now) == g1;
      SpawnScheduleSpec(cfg, g1, now, r, d);
      SpawnScheduleSpec(cfg, g1, now, r, d2);
      FrameFields(cfg, g1, now, 0.0, r, d);
      assert Tick(cfg, g1, now, r, d) == Frame(cfg, g1, now, 0.0, r, d);
      assert Tick(cfg, g1, now, r, d2) == Frame(cfg, g1, now, 0.0, r, d2);
      assert Frame(cfg, g1, now, 0.0, r, d) == Frame(cfg, g1, now, 0.0, r, d2);
    }
  }

  lemma NothingHeldWhenReleased()
    ensures ActiveDirections(Released) == []
  {
    assert ActivePrefix(Released, 1) == [];
    assert ActivePrefix(Released, 2) == [];
    assert ActivePrefix(Released, 3) == [];
  }

  /** restartGame: an empty note list, no progress, no effects, no held
      keys, the monster back at its start and at base speed, the delay
      running again, and the game playing, unless the canvas is so narrow
      that the monster starts at or left of the player and the first frame
      loses at once. */
  lemma RestartSpec(cfg: Config, g: GameView, now: int, r: real, d: Direction)
    requires 0.0 <= r < 1.0
    ensures var h := Restart(cfg, g, now, r, d);
            var lost := cfg.MonsterStartX() <= PlayerX;
            && h.notes == [] && h.progress == 0.0 && h.effects == [] && h.keys == Released
            && h.monsterX == cfg.MonsterStartX() && h.monsterSpeed == MonsterBaseSpeed
            && !h.monsterHasStarted && h.gameStartTime == now && h.lastFrameTime == now
            && h.nextSpawnInterval == SpawnInterval(r) && h.nextNoteId == g.nextNoteId
            && h.state == (if lost then Lost else Playing)
            && h.lastNoteSpawnTime == (if lost then now + SpawnStopDelay else now)
  {
    NothingHeldWhenReleased();
    var g1 := g.(state := Ready, notes := [], progress := 0.0, effects := [], keys := Released,
                 monsterX := cfg.MonsterStartX(), monsterSpeed := MonsterBaseSpeed);
    var g2 := ResetNoteSpawning(g1.(state := Playing, gameStartTime := now, monsterHasStarted := false), now, r)
                .(lastFrameTime := now);
    assert UpdateNoteSpawning(cfg, g2, now, r, d) == g2;
    var g3 := UpdateSprites(g2, 0.0);
    assert g3.notes == [] && g3.monsterX == g2.monsterX;
    assert ProcessInputAndHits(cfg, g3, now) == g3;
    assert Faded([], now) == [];
    assert OnScreen([]) == [];
    assert MissPass(cfg, g3, now, []) == g3;
    assert MissedIds(cfg, []) == [];
  }
}
