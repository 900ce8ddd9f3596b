/** DifficultyManager: the fixed game settings. There are no presets. */
module Difficulty {

  const DefaultNoteSpawnInterval: real := 1500.0
  const DefaultNoteSpeed: real := 600.0
  const DefaultMonsterBaseSpeed: real := 50.0
  const DefaultMonsterSpeedIncrement: real := 10.0

  class DifficultyManager {
    var noteSpawnInterval: real
    var noteSpeed: real
    var monsterBaseSpeed: real
    var monsterSpeedIncrement: real

    /** Every setting at its fixed value. */
    predicate IsDefault()
      reads this
    {
      noteSpawnInterval == DefaultNoteSpawnInterval && noteSpeed == DefaultNoteSpeed &&
      monsterBaseSpeed == DefaultMonsterBaseSpeed && monsterSpeedIncrement == DefaultMonsterSpeedIncrement
    }

    constructor ()
      ensures IsDefault()
    {
      noteSpawnInterval := DefaultNoteSpawnInterval;
      noteSpeed := DefaultNoteSpeed;
      monsterBaseSpeed := DefaultMonsterBaseSpeed;
      monsterSpeedIncrement := DefaultMonsterSpeedIncrement;
    }

    function GetNoteSpawnInterval(): real
      reads this
    {
      noteSpawnInterval
    }

    function GetNoteSpeed(): real
      reads this
    {
      noteSpeed
    }

    function GetMonsterBaseSpeed(): real
      reads this
    {
      monsterBaseSpeed
    }

    function GetMonsterSpeedIncrement(): real
      reads this
    {
      monsterSpeedIncrement
    }

    /** reset: restores every setting and reports success. */
    method Reset() returns (ok: bool)
      modifies this
      ensures ok && IsDefault()
    {
      noteSpawnInterval := DefaultNoteSpawnInterval;
      noteSpeed := DefaultNoteSpeed;
      monsterBaseSpeed := DefaultMonsterBaseSpeed;
      monsterSpeedIncrement := DefaultMonsterSpeedIncrement;
      return true;
    }
  }
}
