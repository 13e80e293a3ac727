/**
 * Mutation effects that keep per-source entries on an entity's mutations
 * component (low-pressure resistance and damage resistance), and the
 * low-pressure handler that folds the resistances into one multiplier.
 *
 * A source is the identifier of the mutation that applied the effect: an
 * entity benefits from one entry per source, so applying again overwrites
 * and removing deletes that source's entry only.
 */
module Mutations {

  /** A damage modifier set as the effect builds it: one coefficient per damage type. */
  datatype ModifierSet = ModifierSet(coefficients: map<string, real>)

  class MutationsComponent {
    var damageModifiers: map<string, ModifierSet>
    var lowPressureResistances: map<string, real>

    constructor()
      ensures damageModifiers == map[] && lowPressureResistances == map[]
    {
      damageModifiers := map[];
      lowPressureResistances := map[];
    }
  }

  /** An entity, as far as these effects see it: it may or may not have a mutations component. */
  class Entity {
    var mutations: MutationsComponent?

    constructor(mutations: MutationsComponent?)
      ensures this.mutations == mutations
    {
      this.mutations := mutations;
    }
  }

  class LowPressureResistMutationEffect {
    const lowPressureMultiplier: int

    constructor(lowPressureMultiplier: int)
      ensures this.lowPressureMultiplier == lowPressureMultiplier
    {
      this.lowPressureMultiplier := lowPressureMultiplier;
    }

    /** Stores the multiplier under the source; every other source keeps its entry. */
    method DoApply(source: string, mutations: MutationsComponent)
      modifies mutations
      ensures mutations.lowPressureResistances == old(mutations.lowPressureResistances)[source := lowPressureMultiplier as real]
      ensures mutations.damageModifiers == old(mutations.damageModifiers)
    {
      mutations.lowPressureResistances := mutations.lowPressureResistances[source := lowPressureMultiplier as real];
    }

    /** Deletes the source's entry, if any, and nothing else. */
    method DoRemove(source: string, mutations: MutationsComponent)
      modifies mutations
      ensures mutations.lowPressureResistances == old(mutations.lowPressureResistances) - {source}
      ensures mutations.damageModifiers == old(mutations.damageModifiers)
    {
      mutations.lowPressureResistances := mutations.lowPressureResistances - {source};
    }
  }

  class DamageResistanceMutationEffect {
    const damageTypeName: string
    const coefficient: real

    constructor(damageTypeName: string, coefficient: real)
      ensures this.damageTypeName == damageTypeName && this.coefficient == coefficient
    {
      this.damageTypeName := damageTypeName;
      this.coefficient := coefficient;
    }

    /**
     * Gives the entity a mutations component if it has none, then stores
     * under the source a modifier set with the one coefficient, replacing
     * any earlier entry of that source.
     */
    method Apply(entity: Entity, source: string)
      modifies entity, entity.mutations
      ensures entity.mutations != null
      ensures old(entity.mutations) != null ==> entity.mutations == old(entity.mutations)
      ensures old(entity.mutations) != null ==>
        && entity.mutations.damageModifiers == old(entity.mutations.damageModifiers)[source := ModifierSet(map[damageTypeName := coefficient])]
        && entity.mutations.lowPressureResistances == old(entity.mutations.lowPressureResistances)
      ensures old(entity.mutations) == null ==>
        && fresh(entity.mutations)
        && entity.mutations.damageModifiers == map[source := ModifierSet(map[damageTypeName := coefficient])]
        && entity.mutations.lowPressureResistances == map[]
    {
      if entity.mutations == null {
        entity.mutations := new MutationsComponent();
      }
      var newSet := ModifierSet(map[damageTypeName := coefficient]);
      entity.mutations.damageModifiers := entity.mutations.damageModifiers[source := newSet];
    }

    /** Deletes the source's entry when the entity has a mutations component; otherwise nothing changes. */
    method Remove(entity: Entity, source: string)
      modifies entity.mutations
      ensures entity.mutations == old(entity.mutations)
      ensures entity.mutations != null ==>
        && entity.mutations.damageModifiers == old(entity.mutations.damageModifiers) - {source}
        && entity.mutations.lowPressureResistances == old(entity.mutations.lowPressureResistances)
    {
      if entity.mutations != null {
        entity.mutations.damageModifiers := entity.mutations.damageModifiers - {source};
      }
    }
  }

  /** Applying an entry twice is applying it once. */
  lemma ApplyIdempotent<V>(entries: map<string, V>, source: string, value: V)
    ensures entries[source := value][source := value] == entries[source := value]
  {
  }

  /** Removing after applying leaves no entry for the source and every other entry as it was. */
  lemma ApplyThenRemove<V>(entries: map<string, V>, source: string, value: V)
    ensures source !in entries[source := value] - {source}
    ensures entries[source := value] - {source} == entries - {source}
  {
  }

  /** Removing an absent source changes nothing. */
  lemma RemoveAbsent<V>(entries: map<string, V>, source: string)
    requires source !in entries
    ensures entries - {source} == entries
  {
  }

  // ---------------------------------------------------------------------
  // Low pressure
  // ---------------------------------------------------------------------

  /** x is the highest of 1 and the stored resistances: at least each of them, and equal to 1 or to one of them. */
  ghost predicate IsLowPressureFactor(resistances: map<string, real>, x: real) {
    && x >= 1.0
    && (forall source :: source in resistances ==> resistances[source] <= x)
    && (x == 1.0 || exists source :: source in resistances && resistances[source] == x)
  }

  /** The factor does not depend on the order in which the resistances are visited: there is only one. */
  lemma LowPressureFactorUnique(resistances: map<string, real>, x: real, y: real)
    requires IsLowPressureFactor(resistances, x) && IsLowPressureFactor(resistances, y)
    ensures x == y
  {
  }

  class LowPressureEvent {
    var multiplier: real

    constructor(multiplier: real)
      ensures this.multiplier == multiplier
    {
      this.multiplier := multiplier;
    }
  }

  /** The loop of OnLowPressureModify: the running maximum, starting from 1, over the stored resistances in any order. */
  method HighestResistance(resistances: map<string, real>) returns (multiplier: real)
    ensures IsLowPressureFactor(resistances, multiplier)
    ensures resistances == map[] ==> multiplier == 1.0
  {
    multiplier := 1.0;
    var remaining := resistances.Keys;
    while remaining != {}
      invariant remaining <= resistances.Keys
      invariant multiplier >= 1.0
      invariant forall source :: source in resistances && source !in remaining ==> resistances[source] <= multiplier
      invariant multiplier == 1.0 || exists source :: source in resistances && resistances[source] == multiplier
      decreases remaining
    {
      var source :| source in remaining;
      var value := resistances[source];
      multiplier := if value > multiplier then value else multiplier;
      remaining := remaining - {source};
    }
  }

  /** Multiplies the event's multiplier by the highest of 1 and the entity's low-pressure resistances. */
  method OnLowPressureModify(mutations: MutationsComponent, ev: LowPressureEvent)
    modifies ev
    ensures exists factor :: IsLowPressureFactor(mutations.lowPressureResistances, factor) && ev.multiplier == old(ev.multiplier) * factor
    ensures mutations.lowPressureResistances == map[] ==> ev.multiplier == old(ev.multiplier)
  {
    var multiplier := HighestResistance(mutations.lowPressureResistances);
    ev.multiplier := ev.multiplier * multiplier;
  }
}
