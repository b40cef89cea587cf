/** src/core/abilities.rs: a creature's six ability scores, one slot per
    ability, read and written by ability. */
module AbilityBlock {
  import opened AbilityEnum
  import opened AbilityScores

  class Abilities {
    var strength: AbilityScore
    var dexterity: AbilityScore
    var constitution: AbilityScore
    var intelligence: AbilityScore
    var wisdom: AbilityScore
    var charisma: AbilityScore

    /** `with_uniform`: every slot holds `value`. */
    constructor WithUniform(value: AbilityScore)
      ensures forall a: Ability :: Index(a) == value
    {
      strength, dexterity, constitution := value, value, value;
      intelligence, wisdom, charisma := value, value, value;
    }

    /** `new` and `Default::default`: `with_uniform(DEFAULT)`, so every slot
        holds 10. */
    static method New() returns (r: Abilities)
      ensures fresh(r)
      ensures forall a: Ability :: r.Index(a) == DEFAULT && r.Index(a).Value() == 10
    {
      r := new Abilities.WithUniform(DEFAULT);
    }

    /** `Index::index`: the slot named for `a`. */
    function Index(a: Ability): (r: AbilityScore)
      reads this
      ensures a == Strength ==> r == strength
      ensures a == Dexterity ==> r == dexterity
      ensures a == Constitution ==> r == constitution
      ensures a == Intelligence ==> r == intelligence
      ensures a == Wisdom ==> r == wisdom
      ensures a == Charisma ==> r == charisma
    {
      match a
      case Strength => strength
      case Dexterity => dexterity
      case Constitution => constitution
      case Intelligence => intelligence
      case Wisdom => wisdom
      case Charisma => charisma
    }

    /** `IndexMut::index_mut` followed by an assignment through the returned
        reference: slot `a` now holds `value` and no other slot changes. */
    method SetIndex(a: Ability, value: AbilityScore)
      modifies this
      ensures Index(a) == value
      ensures forall b: Ability :: b != a ==> Index(b) == old(Index(b))
    {
      match a
      case Strength => strength := value;
      case Dexterity => dexterity := value;
      case Constitution => constitution := value;
      case Intelligence => intelligence := value;
      case Wisdom => wisdom := value;
      case Charisma => charisma := value;
    }

    /** `iter`: six pairs, each ability once with its score, in the order of
        `Ability::all`. */
    function Iter(): (r: seq<(Ability, AbilityScore)>)
      reads this
      ensures |r| == |Ability.All()|
      ensures forall i :: 0 <= i < |r| ==> r[i].0 == Ability.All()[i]
      ensures forall a: Ability :: r[a.Ordinal()] == (a, Index(a))
    {
      [(Strength, strength), (Dexterity, dexterity), (Constitution, constitution),
       (Intelligence, intelligence), (Wisdom, wisdom), (Charisma, charisma)]
    }
  }

  /** Writing slots one after another leaves each with the last score
      written to it and the others at their defaults. */
  method IndexMutScenario()
  {
    var abilities := Abilities.New();
    abilities.SetIndex(Strength, NewClamped(18));
    assert abilities.strength.Value() == 18;
    abilities.SetIndex(Dexterity, NewClamped(16));
    assert abilities.dexterity.Value() == 16 && abilities.strength.Value() == 18;
    abilities.SetIndex(Charisma, NewClamped(8));
    assert abilities.Iter() == [(Strength, 18 as AbilityScore), (Dexterity, 16 as AbilityScore),
      (Constitution, DEFAULT), (Intelligence, DEFAULT), (Wisdom, DEFAULT), (Charisma, 8 as AbilityScore)];
  }
}
