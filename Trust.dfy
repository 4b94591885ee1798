/**
 * The trust level of an account (src/account/trust.js): a private point
 * count moved by single steps and by a punishment of five, with no bound.
 * Points are integers here; the JavaScript number's rounding is not modelled.
 */
module TrustLevel {
  import opened Wrappers

  /** The point of a new trust level when none is given (line 11). */
  const DEFAULT_POINT: int := 50

  /** Lines 5-50. */
  class Trust {
    var point: int

    /**
     * Lines 11-17: `point = 50` is a default parameter, so it applies only
     * when the argument is absent (`None`); a given 0 stays 0.
     */
    constructor (initial: Option<int>)
      ensures point == (if initial.None? then DEFAULT_POINT else initial.value)
    {
      point := if initial.None? then DEFAULT_POINT else initial.value;
    }

    /** Lines 23-25: the getter reads the field and, being a function, changes nothing. */
    function Point(): (p: int)
      reads this
      ensures p == point
    {
      point
    }

    /** Lines 31-33. */
    method Increase()
      modifies this
      ensures point == old(point) + 1
    {
      point := point + 1;
    }

    /** Lines 39-41. */
    method Decrease()
      modifies this
      ensures point == old(point) - 1
    {
      point := point - 1;
    }

    /** Lines 47-49. */
    method Punishment()
      modifies this
      ensures point == old(point) - 5
    {
      point := point - 5;
    }
  }

  /** `increase` followed by `decrease` gives back the integer point it started from. */
  method IncreaseThenDecrease(initial: Option<int>) returns (before: int, after: int)
    ensures before == after
    ensures before == (if initial.None? then DEFAULT_POINT else initial.value)
  {
    var t := new Trust(initial);
    before := t.Point();
    t.Increase();
    t.Decrease();
    after := t.Point();
  }

  /** The point has no lower bound: a trust level at 0 goes to -5 on one punishment. */
  method PunishedBelowZero() returns (p: int)
    ensures p == -5
  {
    var t := new Trust(Some(0));
    t.Punishment();
    p := t.Point();
  }
}
