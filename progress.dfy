/** ProgressManager: the win meter, a percentage kept in [0, 100]. */
module Progress {
  import opened Geometry

  const Full: real := 100.0

  predicate InRange(p: real) {
    0.0 <= p <= Full
  }

  /** addProgress: a negative amount is rejected (no change); otherwise the sum is capped at 100. */
  function Added(p: real, amount: real): (r: real)
    ensures InRange(p) ==> InRange(r) && p <= r
    ensures amount < 0.0 ==> r == p
    ensures amount >= 0.0 ==> r <= p + amount && r <= Full && (r == p + amount || r == Full)
  {
    if amount < 0.0 then p else Min(p + amount, Full)
  }

  /** subtractProgress: a negative amount is rejected; otherwise the difference is floored at 0. */
  function Subtracted(p: real, amount: real): (r: real)
    ensures InRange(p) ==> InRange(r) && r <= p
    ensures amount < 0.0 ==> r == p
    ensures amount >= 0.0 ==> r >= p - amount && r >= 0.0 && (r == p - amount || r == 0.0)
  {
    if amount < 0.0 then p else Max(p - amount, 0.0)
  }

  /** setProgress: a value outside [0, 100] is rejected. */
  function SetTo(p: real, value: real): (r: real)
    ensures InRange(p) ==> InRange(r)
    ensures InRange(value) ==> r == value
    ensures !InRange(value) ==> r == p
  {
    if value < 0.0 || value > Full then p else value
  }

  /** isFull: inside the range, "full" means exactly 100. */
  function Filled(p: real): (full: bool)
    ensures InRange(p) ==> (full <==> p == Full)
  {
    p >= Full
  }

  /** Successive addProgress calls, in order. */
  function AddAll(p: real, amounts: seq<real>): real
    decreases |amounts|
  {
    if amounts == [] then p else AddAll(Added(p, amounts[0]), amounts[1..])
  }

  /** Capping after every step is the same as capping once: a run of
      non-negative awards from an in-range value gives min(p + total, 100). */
  lemma {:induction false} AddAllCapsOnce(p: real, amounts: seq<real>)
    requires InRange(p)
    requires forall i :: 0 <= i < |amounts| ==> amounts[i] >= 0.0
    ensures AddAll(p, amounts) == Min(p + Sum(amounts), Full)
    decreases |amounts|
  {
    if amounts != [] {
      AddAllCapsOnce(Added(p, amounts[0]), amounts[1..]);
      assert forall i :: 0 <= i < |amounts[1..]| ==> amounts[1..][i] == amounts[i + 1];
      SumNonNegative(amounts[1..]);
    }
  }

  /** The miss penalty of handleMiss: subtract only when progress is positive. */
  function Penalized(p: real, penalty: real): real {
    if p > 0.0 then Subtracted(p, penalty) else p
  }

  /** `count` successive penalties. */
  function PenalizedTimes(p: real, penalty: real, count: nat): real
    decreases count
  {
    if count == 0 then p else PenalizedTimes(Penalized(p, penalty), penalty, count - 1)
  }

  /** The guard "only if progress > 0" never changes the outcome inside the
      range, and k penalties of d floor once: max(p - k * d, 0). */
  lemma PenalizedTimesFloorsOnce(p: real, penalty: real, count: nat)
    requires InRange(p) && penalty >= 0.0
    ensures PenalizedTimes(p, penalty, count) == Max(p - count as real * penalty, 0.0)
  {
    PenalizedTimesFloorsAtTotal(p, penalty, count);
    TimesIsProduct(penalty, count);
  }

  /** `count` copies of `amount`, added up. */
  function Times(amount: real, count: nat): (total: real)
    ensures amount >= 0.0 ==> total >= 0.0
    decreases count
  {
    if count == 0 then 0.0 else amount + Times(amount, count - 1)
  }

  lemma {:induction false} TimesIsProduct(amount: real, count: nat)
    ensures Times(amount, count) == count as real * amount
    decreases count
  {
    if count > 0 {
      TimesIsProduct(amount, count - 1);
      assert count as real * amount == amount + (count - 1) as real * amount;
    }
  }

  /** The same floor, with the penalties added up one by one. */
  lemma {:induction false} PenalizedTimesFloorsAtTotal(p: real, penalty: real, count: nat)
    requires InRange(p) && penalty >= 0.0
    ensures PenalizedTimes(p, penalty, count) == Max(p - Times(penalty, count), 0.0)
    decreases count
  {
    if count > 0 {
      var q := Penalized(p, penalty);
      PenalizedTimesFloorsAtTotal(q, penalty, count - 1);
    }
  }

  /** From an empty bar, three perfect hits (4 each) give 12, and a miss
      then takes 5 off, leaving 7. */
  lemma ThreePerfectsThenMiss()
    ensures AddAll(0.0, [4.0, 4.0, 4.0]) == 12.0
    ensures Penalized(AddAll(0.0, [4.0, 4.0, 4.0]), 5.0) == 7.0
  {
    AddAllCapsOnce(0.0, [4.0, 4.0, 4.0]);
    assert Sum([4.0, 4.0, 4.0]) == 12.0 by {
      assert [4.0, 4.0, 4.0][1..] == [4.0, 4.0];
      assert [4.0, 4.0][1..] == [4.0];
      assert [4.0][1..] == [];
    }
  }

  class ProgressManager {
    var progress: real

    predicate Valid()
      reads this
    {
      InRange(progress)
    }

    constructor ()
      ensures progress == 0.0 && Valid()
    {
      progress := 0.0;
    }

    method AddProgress(amount: real)
      modifies this
      ensures progress == Added(old(progress), amount)
    {
      if amount < 0.0 {
        return;
      }
      progress := Min(progress + amount, Full);
    }

    method SubtractProgress(amount: real)
      modifies this
      ensures progress == Subtracted(old(progress), amount)
    {
      if amount < 0.0 {
        return;
      }
      progress := Max(progress - amount, 0.0);
    }

    function GetProgress(): real
      reads this
    {
      progress
    }

    method SetProgress(value: real)
      modifies this
      ensures progress == SetTo(old(progress), value)
    {
      if value < 0.0 || value > Full {
        return;
      }
      progress := value;
    }

    function IsFull(): bool
      reads this
    {
      Filled(progress)
    }

    method Reset()
      modifies this
      ensures progress == 0.0 && Valid()
    {
      progress := 0.0;
    }
  }
}
