/**
 * The react-to-damage mutation effect: on apply it adds to the entity's
 * destructible component one damage threshold at every multiple of the
 * step below the limit, each triggering the effect's behaviour.
 *
 * The step and the running damage are 32-bit integers and the limit is a
 * single-precision number; the model keeps the limit as a real number and
 * requires that the running damage cannot overflow.
 */
module ReactToDamage {

  const Int32Max: int := 0x7fff_ffff

  /** A threshold behaviour, identified by the object the effect holds. */
  type Behavior = nat

  /** A damage trigger at the given damage with its behaviours. */
  datatype DamageThreshold = DamageThreshold(damage: int, behaviors: seq<Behavior>)

  class DestructibleComponent {
    var thresholds: seq<DamageThreshold>

    constructor(thresholds: seq<DamageThreshold>)
      ensures this.thresholds == thresholds
    {
      this.thresholds := thresholds;
    }
  }

  /** The least integer not below x. */
  function Ceiling(x: real): (c: int)
    ensures c as real >= x && (c - 1) as real < x
  {
    -((-x).Floor)
  }

  /** An integer damage is below the limit exactly when it is below the limit's ceiling. */
  lemma BelowCeiling(damage: int, limit: real)
    ensures damage as real < limit <==> damage < Ceiling(limit)
  {
  }

  /** The number of positive multiples of the step that lie strictly below the bound. */
  function Rungs(step: int, bound: int): (n: nat)
    requires step > 0
    ensures n == 0 <==> bound <= step
    ensures n * step < bound || n == 0
    ensures bound <= (n + 1) * step
    decreases bound
  {
    if bound <= step then 0 else 1 + Rungs(step, bound - step)
  }

  /** The thresholds Apply adds: damage step, 2·step, ..., n·step, each with the one behaviour. */
  function Ladder(step: int, behavior: Behavior, n: nat): (ladder: seq<DamageThreshold>)
    ensures |ladder| == n
    ensures forall i :: 0 <= i < n ==> ladder[i] == DamageThreshold((i + 1) * step, [behavior])
  {
    if n == 0 then [] else Ladder(step, behavior, n - 1) + [DamageThreshold(n * step, [behavior])]
  }

  /** Every added threshold lies below the bound, the next multiple does not, and the damages increase strictly. */
  lemma LadderBelowBound(step: int, bound: int, behavior: Behavior)
    requires step > 0
    ensures var ladder := Ladder(step, behavior, Rungs(step, bound));
      && (forall i :: 0 <= i < |ladder| ==> ladder[i].damage < bound && ladder[i].behaviors == [behavior])
      && bound <= (|ladder| + 1) * step
      && (forall i, j :: 0 <= i < j < |ladder| ==> ladder[i].damage < ladder[j].damage)
  {
    var n := Rungs(step, bound);
    var ladder := Ladder(step, behavior, n);
    forall i | 0 <= i < n ensures ladder[i].damage < bound {
      MultipleMonotone(step, i + 1, n);
    }
    forall i, j | 0 <= i < j < n ensures ladder[i].damage < ladder[j].damage {
      MultipleMonotone(step, i + 1, j);
    }
  }

  lemma MultipleMonotone(step: int, a: int, b: int)
    requires step > 0 && a <= b
    ensures a * step <= b * step
    ensures a < b ==> a * step < b * step
  {
    assert b * step - a * step == (b - a) * step;
  }

  class ReactToDamageMutationEffect {
    const behavior: Behavior
    const threshold: int
    const limit: real

    constructor(behavior: Behavior, threshold: int, limit: real)
      ensures this.behavior == behavior && this.threshold == threshold && this.limit == limit
    {
      this.behavior := behavior;
      this.threshold := threshold;
      this.limit := limit;
    }

    /** The loop ends (a positive step, or a first damage already at the limit) and the damage never passes the 32-bit range. */
    predicate Terminates() {
      threshold as real >= limit || (threshold > 0 && limit + threshold as real <= Int32Max as real + 1.0)
    }

    /**
     * On an entity with a destructible component, appends the thresholds
     * at every multiple of the step below the limit, in increasing order,
     * after the existing ones; otherwise does nothing.
     */
    method Apply(destructible: DestructibleComponent?)
      requires Terminates() && -Int32Max - 1 <= threshold <= Int32Max
      modifies destructible
      ensures destructible != null ==>
        destructible.thresholds == old(destructible.thresholds) +
          (if threshold as real >= limit then [] else Ladder(threshold, behavior, Rungs(threshold, Ceiling(limit))))
    {
      if destructible == null {
        return;
      }
      var num := threshold;
      ghost var added: nat := 0;
      while num as real < limit
        invariant num == (added + 1) * threshold
        invariant added > 0 ==> threshold > 0 && added * threshold < Ceiling(limit)
        invariant destructible.thresholds == old(destructible.thresholds) + Ladder(threshold, behavior, added)
        invariant num <= Int32Max
        decreases Int32Max - num
      {
        BelowCeiling(num, limit);
        assert threshold > 0 by {
          if added == 0 {
            assert threshold as real < limit;
          }
        }
        var behaviors := [behavior];
        var damage := DamageThreshold(num, behaviors);
        destructible.thresholds := destructible.thresholds + [damage];
        assert num + threshold <= Int32Max;
        num := num + threshold;
        added := added + 1;
      }
      BelowCeiling(num, limit);
      BelowCeiling(threshold, limit);
      if added > 0 {
        RungsUnique(threshold, Ceiling(limit), added);
      }
    }
  }

  /** A count whose last multiple is below the bound and whose next one is not is the number of rungs. */
  lemma RungsUnique(step: int, bound: int, n: nat)
    requires step > 0 && n > 0
    requires n * step < bound <= (n + 1) * step
    ensures n == Rungs(step, bound)
  {
    var m := Rungs(step, bound);
    if m < n {
      MultipleMonotone(step, m + 1, n);
    } else if n < m {
      MultipleMonotone(step, n + 1, m);
    }
  }
}
