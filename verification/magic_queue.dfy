/**
 * The player's two-slot magic queue: the current category, fired next, and
 * a preview of the one after it. Each slot is drawn uniformly from the four
 * categories; with avoidImmediateRepeat the preview is redrawn until it
 * differs from the current one.
 *
 * A random stream is a sequence of fractions in [0, 1); each draw consumes
 * one. A resampling loop needs a stream holding an acceptable draw, which a
 * uniform source yields with probability one.
 */
module MagicQueue {
  import opened Types

  /** RandomType: Random.Range(0, 4) cast to a category. */
  function RandomType(u: real): (t: WasteType)
    requires IsIndexFraction(u)
    ensures Index(t) == IndexDraw(4, u)
  {
    FromIndex(IndexDraw(4, u))
  }

  /** Every category is drawn by some fraction. */
  lemma RandomTypeOnto(t: WasteType)
    ensures RandomType(Index(t) as real / 4.0) == t
  {
    var u := Index(t) as real / 4.0;
    assert u * 4.0 == Index(t) as real;
    assert IndexDraw(4, u) == Index(t);
    FromIndexOnto(t);
  }

  predicate IsStream(draws: seq<real>)
  {
    forall i :: 0 <= i < |draws| ==> IsIndexFraction(draws[i])
  }

  /** The do-while condition fails (the loop stops) on t. */
  predicate Acceptable(avoidRepeat: bool, current: WasteType, t: WasteType)
  {
    !(avoidRepeat && t == current)
  }

  predicate CanDraw(draws: seq<real>, avoidRepeat: bool, current: WasteType)
  {
    IsStream(draws) &&
    exists i :: 0 <= i < |draws| && Acceptable(avoidRepeat, current, RandomType(draws[i]))
  }

  /** The category the resampling loop settles on: the first acceptable draw. */
  function FirstAcceptable(draws: seq<real>, avoidRepeat: bool, current: WasteType): (t: WasteType)
    requires CanDraw(draws, avoidRepeat, current)
    ensures Acceptable(avoidRepeat, current, t)
    ensures exists i :: 0 <= i < |draws| && RandomType(draws[i]) == t &&
              forall j :: 0 <= j < i ==> !Acceptable(avoidRepeat, current, RandomType(draws[j]))
    decreases |draws|
  {
    if Acceptable(avoidRepeat, current, RandomType(draws[0])) then RandomType(draws[0])
    else
      assert CanDraw(draws[1..], avoidRepeat, current) by {
        var i :| 0 <= i < |draws| && Acceptable(avoidRepeat, current, RandomType(draws[i]));
        assert draws[1..][i - 1] == draws[i];
      }
      var t := FirstAcceptable(draws[1..], avoidRepeat, current);
      ghost var i :| 0 <= i < |draws[1..]| && RandomType(draws[1..][i]) == t &&
        forall j :: 0 <= j < i ==> !Acceptable(avoidRepeat, current, RandomType(draws[1..][j]));
      assert draws[i + 1] == draws[1..][i];
      assert forall j :: 1 <= j < i + 1 ==> draws[j] == draws[1..][j - 1];
      t
  }

  /** Without the no-repeat rule the loop body runs once: the first draw is taken. */
  lemma NoAvoidTakesFirstDraw(draws: seq<real>, current: WasteType)
    requires IsStream(draws) && |draws| > 0
    ensures CanDraw(draws, false, current)
    ensures FirstAcceptable(draws, false, current) == RandomType(draws[0])
  {
    assert Acceptable(false, current, RandomType(draws[0]));
  }

  /** Without the no-repeat rule the preview may repeat the current category. */
  lemma RepeatPossibleWithoutAvoid()
    ensures CanDraw([0.0], false, Glass)
    ensures FirstAcceptable([0.0], false, Glass) == Glass
  {
    NoAvoidTakesFirstDraw([0.0], Glass);
    assert IndexDraw(4, 0.0) == 0;
  }

  /** The (current, next) pair carried by OnChanged. */
  datatype Changed = Changed(current: WasteType, next: WasteType)

  class PlayerMagicQueue {
    const avoidImmediateRepeat: bool
    var current: WasteType
    var next: WasteType

    /** The serialized defaults: Glass then Plastic. */
    constructor (avoidImmediateRepeat: bool)
      ensures this.avoidImmediateRepeat == avoidImmediateRepeat
      ensures current == Glass && next == Plastic
    {
      this.avoidImmediateRepeat := avoidImmediateRepeat;
      current, next := Glass, Plastic;
    }

    /**
     * The do-while loop: draw, and draw again while the no-repeat rule
     * rejects the draw. Returns the accepted category.
     */
    method Resample(draws: seq<real>, against: WasteType) returns (t: WasteType)
      requires CanDraw(draws, avoidImmediateRepeat, against)
      ensures t == FirstAcceptable(draws, avoidImmediateRepeat, against)
    {
      var i := 0;
      t := RandomType(draws[0]);
      while !Acceptable(avoidImmediateRepeat, against, t)
        invariant 0 <= i < |draws| && t == RandomType(draws[i])
        invariant CanDraw(draws[i..], avoidImmediateRepeat, against)
        invariant FirstAcceptable(draws[i..], avoidImmediateRepeat, against) == FirstAcceptable(draws, avoidImmediateRepeat, against)
        decreases |draws| - i
      {
        assert draws[i..][0] == draws[i];
        assert draws[i..][1..] == draws[i + 1..];
        i := i + 1;
        t := RandomType(draws[i]);
      }
      assert draws[i..][0] == draws[i];
    }

    /** Draws the current slot from `first`, then the preview from `rest`. */
    method Start(first: real, rest: seq<real>) returns (changed: Changed)
      requires IsIndexFraction(first)
      requires CanDraw(rest, avoidImmediateRepeat, RandomType(first))
      modifies this
      ensures current == RandomType(first)
      ensures next == FirstAcceptable(rest, avoidImmediateRepeat, current)
      ensures avoidImmediateRepeat ==> next != current
      ensures changed == Changed(current, next)
    {
      current := RandomType(first);
      next := Resample(rest, current);
      changed := RaiseChanged();
    }

    /** The current slot is consumed: the preview moves up and a new preview is drawn. */
    method ConsumeAndAdvance(draws: seq<real>) returns (changed: Changed)
      requires CanDraw(draws, avoidImmediateRepeat, next)
      modifies this
      ensures current == old(next)
      ensures next == FirstAcceptable(draws, avoidImmediateRepeat, current)
      ensures avoidImmediateRepeat ==> next != current
      ensures changed == Changed(current, next)
    {
      current := next;
      var newNext := Resample(draws, current);
      next := newNext;
      changed := RaiseChanged();
    }

    method RaiseChanged() returns (changed: Changed)
      ensures changed.current == current && changed.next == next
    {
      changed := Changed(current, next);
    }
  }
}
