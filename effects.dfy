/** EffectManager: the "perfect", "good" and "miss" banners that appear on a
    hit or a miss and fade out over their duration. */
module Effects {
  import opened Geometry

  /** The three effect types createEffect accepts. */
  datatype EffectKind = PerfectEffect | GoodEffect | MissEffect

  /** The sprite asset an effect of this kind is drawn with. */
  function SpriteKey(kind: EffectKind): string {
    match kind
    case PerfectEffect => "perfect"
    case GoodEffect => "good"
    case MissEffect => "miss"
  }

  /** Half of the original sprite sizes 644x160, 468x160 and 376x160. */
  function EffectWidth(kind: EffectKind): real {
    match kind
    case PerfectEffect => 322.0
    case GoodEffect => 234.0
    case MissEffect => 188.0
  }

  const EffectHeight: real := 80.0

  /** The initial effectDuration, in seconds. */
  const DefaultEffectDuration: real := 0.5

  datatype Effect = Effect(
    kind: EffectKind,
    x: real,
    y: real,
    width: real,
    height: real,
    createdAt: int,
    duration: real,
    opacity: real)
  {
    function CenterY(): real {
      y + height / 2.0
    }
  }

  /** The effect createEffect builds: centred on (px, py), fully opaque, its
      duration the current effectDuration in milliseconds. */
  function Created(kind: EffectKind, px: real, py: real, now: int, durationSeconds: real): (e: Effect)
    ensures Rect(e.x, e.y, e.width, e.height).CenterX() == px && e.CenterY() == py
    ensures e.opacity == 1.0 && e.createdAt == now && e.kind == kind
  {
    Effect(kind, px - EffectWidth(kind) / 2.0, py - EffectHeight / 2.0,
           EffectWidth(kind), EffectHeight, now, durationSeconds * 1000.0, 1.0)
  }

  /** createEffect: nothing is added when the sprite of that kind is not
      among the loaded assets. */
  function Create(effects: seq<Effect>, kind: EffectKind, px: real, py: real,
                  loaded: set<string>, now: int, durationSeconds: real): (r: seq<Effect>)
    ensures SpriteKey(kind) in loaded ==> r == effects + [Created(kind, px, py, now, durationSeconds)]
    ensures SpriteKey(kind) !in loaded ==> r == effects
  {
    if SpriteKey(kind) !in loaded then effects
    else effects + [Created(kind, px, py, now, durationSeconds)]
  }

  /** The opacity an effect has at `now`: it falls linearly from 1 to 0 over
      the duration. An effect without a positive duration (which
      setEffectDuration never lets through) counts as faded. */
  function Opacity(e: Effect, now: int): real {
    if e.duration <= 0.0 then 0.0
    else Max(0.0, 1.0 - (now - e.createdAt) as real / e.duration)
  }

  /** update: recompute every opacity and drop the effects that have faded
      out completely, keeping the order of the rest. */
  function Faded(effects: seq<Effect>, now: int): seq<Effect>
    decreases |effects|
  {
    if effects == [] then []
    else
      var e := effects[0];
      (if Opacity(e, now) > 0.0 then [e.(opacity := Opacity(e, now))] else [])
        + Faded(effects[1..], now)
  }

  /** Less than the duration has elapsed since the effect was created. */
  predicate Survives(e: Effect, now: int) {
    (now - e.createdAt) as real < e.duration
  }

  /** The effect with its opacity set to the remaining fraction of its duration. */
  function Refreshed(e: Effect, now: int): Effect
    requires e.duration > 0.0
  {
    e.(opacity := 1.0 - (now - e.createdAt) as real / e.duration)
  }

  /** An effect survives update exactly while less than its duration has
      elapsed, and its opacity is then the remaining fraction of the
      duration; update adds nothing: every effect it returns is a surviving
      input effect, refreshed. */
  lemma FadedSpec(effects: seq<Effect>, now: int)
    requires forall i :: 0 <= i < |effects| ==> effects[i].duration > 0.0
    ensures forall e :: e in effects && Survives(e, now) ==> Refreshed(e, now) in Faded(effects, now)
    ensures forall f :: f in Faded(effects, now) ==>
              f.duration > 0.0 && Survives(f, now) && f == Refreshed(f, now)
    ensures forall f :: f in Faded(effects, now) ==>
              exists e :: e in effects && Survives(e, now) && f == Refreshed(e, now)
    ensures |Faded(effects, now)| <= |effects|
  {
    FadedKeepsSurvivors(effects, now);
    FadedOnlySurvivors(effects, now);
    FadedInOrder(effects, now);
    var kept := Survivors(effects, now);
    forall f | f in Faded(effects, now)
      ensures exists e :: e in effects && Survives(e, now) && f == Refreshed(e, now)
    {
      var i :| 0 <= i < |kept| && RefreshedAll(kept, now)[i] == f;
      assert kept[i] in effects && Survives(kept[i], now);
    }
  }

  /** The effects of the list that survive at `now`, in their order. */
  function Survivors(effects: seq<Effect>, now: int): (kept: seq<Effect>)
    ensures forall i :: 0 <= i < |kept| ==> kept[i] in effects && Survives(kept[i], now)
    decreases |effects|
  {
    if effects == [] then []
    else (if Survives(effects[0], now) then [effects[0]] else []) + Survivors(effects[1..], now)
  }

  /** Every effect of the list with its opacity refreshed, in order. */
  function RefreshedAll(es: seq<Effect>, now: int): (rs: seq<Effect>)
    requires forall i :: 0 <= i < |es| ==> es[i].duration > 0.0
    ensures |rs| == |es| && forall i :: 0 <= i < |es| ==> rs[i] == Refreshed(es[i], now)
    decreases |es|
  {
    if es == [] then [] else [Refreshed(es[0], now)] + RefreshedAll(es[1..], now)
  }

  /** update is "keep the survivors in their order and refresh each": it
      invents, drops, duplicates and reorders nothing else. */
  lemma {:induction false} FadedInOrder(effects: seq<Effect>, now: int)
    requires forall i :: 0 <= i < |effects| ==> effects[i].duration > 0.0
    ensures forall i :: 0 <= i < |Survivors(effects, now)| ==> Survivors(effects, now)[i].duration > 0.0
    ensures Faded(effects, now) == RefreshedAll(Survivors(effects, now), now)
    decreases |effects|
  {
    if effects != [] {
      var e := effects[0];
      var rest := effects[1..];
      assert forall i :: 0 <= i < |rest| ==> rest[i] == effects[i + 1];
      FadedInOrder(rest, now);
      OpacitySpec(e, now);
      var kept := Survivors(rest, now);
      if Survives(e, now) {
        assert Survivors(effects, now) == [e] + kept;
        assert RefreshedAll([e] + kept, now) == [Refreshed(e, now)] + RefreshedAll(kept, now);
      } else {
        assert Survivors(effects, now) == kept;
      }
    }
  }

  lemma {:induction false} FadedKeepsSurvivors(effects: seq<Effect>, now: int)
    requires forall i :: 0 <= i < |effects| ==> effects[i].duration > 0.0
    ensures forall e :: e in effects && Survives(e, now) ==> Refreshed(e, now) in Faded(effects, now)
    decreases |effects|
  {
    if effects != [] {
      var e := effects[0];
      var rest := effects[1..];
      FadedKeepsSurvivors(rest, now);
      OpacitySpec(e, now);
      assert Faded(effects, now) ==
        (if Opacity(e, now) > 0.0 then [e.(opacity := Opacity(e, now))] else []) + Faded(rest, now);
      forall x | x in effects && Survives(x, now) ensures Refreshed(x, now) in Faded(effects, now) {
        if x != e {
          var i :| 0 <= i < |effects| && effects[i] == x;
          assert rest[i - 1] == x;
        }
      }
    }
  }

  lemma {:induction false} FadedOnlySurvivors(effects: seq<Effect>, now: int)
    requires forall i :: 0 <= i < |effects| ==> effects[i].duration > 0.0
    ensures forall f :: f in Faded(effects, now) ==>
              f.duration > 0.0 && Survives(f, now) && f == Refreshed(f, now)
    ensures |Faded(effects, now)| <= |effects|
    decreases |effects|
  {
    if effects != [] {
      var e := effects[0];
      var rest := effects[1..];
      FadedOnlySurvivors(rest, now);
      OpacitySpec(e, now);
      assert Faded(effects, now) ==
        (if Opacity(e, now) > 0.0 then [e.(opacity := Opacity(e, now))] else []) + Faded(rest, now);
    }
  }

  lemma OpacitySpec(e: Effect, now: int)
    requires e.duration > 0.0
    ensures Opacity(e, now) > 0.0 <==> Survives(e, now)
    ensures Opacity(e, now) > 0.0 ==> e.(opacity := Opacity(e, now)) == Refreshed(e, now)
  {
    var elapsed := (now - e.createdAt) as real;
    if elapsed < e.duration {
      assert elapsed / e.duration < 1.0;
    } else {
      assert elapsed / e.duration >= 1.0;
    }
  }

  /** Once at least its duration has passed for every effect, update leaves
      nothing. */
  lemma {:induction false} FadedAllGone(effects: seq<Effect>, now: int)
    requires forall i :: 0 <= i < |effects| ==> effects[i].duration > 0.0
    requires forall i :: 0 <= i < |effects| ==> !Survives(effects[i], now)
    ensures Faded(effects, now) == []
    decreases |effects|
  {
    if effects != [] {
      OpacitySpec(effects[0], now);
      FadedAllGone(effects[1..], now);
    }
  }

  class EffectManager {
    var effects: seq<Effect>
    var effectDuration: real

    /** Every effect has a positive duration, as has the setting. */
    predicate Valid()
      reads this
    {
      effectDuration > 0.0 && forall i :: 0 <= i < |effects| ==> effects[i].duration > 0.0
    }

    constructor ()
      ensures effects == [] && effectDuration == DefaultEffectDuration && Valid()
    {
      effects := [];
      effectDuration := DefaultEffectDuration;
    }

    method CreateEffect(kind: EffectKind, px: real, py: real, loaded: set<string>, now: int)
      requires Valid()
      modifies this
      ensures effects == Create(old(effects), kind, px, py, loaded, now, effectDuration)
      ensures effectDuration == old(effectDuration) && Valid()
    {
      if SpriteKey(kind) !in loaded {
        return;
      }
      var effect := Created(kind, px, py, now, effectDuration);
      effects := effects + [effect];
    }

    method Update(now: int)
      requires Valid()
      modifies this
      ensures effects == Faded(old(effects), now)
      ensures effectDuration == old(effectDuration) && Valid()
    {
      FadedDurations(effects, now);
      effects := Faded(effects, now);
    }

    function GetEffects(): seq<Effect>
      reads this
    {
      effects
    }

    function GetEffectCount(): nat
      reads this
    {
      |effects|
    }

    method ClearEffects()
      modifies this
      ensures effects == [] && effectDuration == old(effectDuration)
    {
      effects := [];
    }

    /** setEffectDuration: a duration that is not positive is refused. */
    method SetEffectDuration(duration: real) returns (ok: bool)
      modifies this
      ensures ok <==> duration > 0.0
      ensures effectDuration == if ok then duration else old(effectDuration)
      ensures effects == old(effects)
    {
      if duration <= 0.0 {
        return false;
      }
      effectDuration := duration;
      return true;
    }

    function GetEffectDuration(): real
      reads this
    {
      effectDuration
    }
  }

  /** update keeps only effects that were there, so durations stay positive. */
  lemma {:induction false} FadedDurations(effects: seq<Effect>, now: int)
    requires forall i :: 0 <= i < |effects| ==> effects[i].duration > 0.0
    ensures forall i :: 0 <= i < |Faded(effects, now)| ==> Faded(effects, now)[i].duration > 0.0
    decreases |effects|
  {
    if effects != [] {
      FadedDurations(effects[1..], now);
    }
  }
}
