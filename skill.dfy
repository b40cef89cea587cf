/** src/core/skill.rs: the eighteen skills, each tied to one ability, with
    exact-match parsing, and the ability-to-skills table the crate's tests
    consult as `Ability::skills`. */
module SkillEnum {
  import opened Wrappers
  import opened Ascii
  import AbilityEnum

  /** The source declares a struct with one named constant per skill; the
      constants form a closed set, so they are the variants here and the
      per-skill data is given by `Name` and `Ability`. */
  datatype Skill =
    | Acrobatics | AnimalHandling | Arcana | Athletics | Deception | History
    | Insight | Intimidation | Investigation | Medicine | Nature | Perception
    | Performance | Persuasion | Religion | SleightOfHand | Stealth | Survival
  {
    /** `all`: every skill exactly once, in declaration order. */
    static function All(): (r: seq<Skill>)
      ensures |r| == 18 && r[0] == Acrobatics && r[17] == Survival
      ensures forall k: Skill :: r[k.Ordinal()] == k
      ensures forall i :: 0 <= i < |r| ==> r[i].Ordinal() == i
    {
      [Acrobatics, AnimalHandling, Arcana, Athletics, Deception, History,
       Insight, Intimidation, Investigation, Medicine, Nature, Perception,
       Performance, Persuasion, Religion, SleightOfHand, Stealth, Survival]
    }

    /** Position in declaration order. */
    function Ordinal(): nat
    {
      match this
      case Acrobatics => 0
      case AnimalHandling => 1
      case Arcana => 2
      case Athletics => 3
      case Deception => 4
      case History => 5
      case Insight => 6
      case Intimidation => 7
      case Investigation => 8
      case Medicine => 9
      case Nature => 10
      case Perception => 11
      case Performance => 12
      case Persuasion => 13
      case Religion => 14
      case SleightOfHand => 15
      case Stealth => 16
      case Survival => 17
    }

    /** `name`: the display name; also what `Display` and `AsRef<str>`
        produce. */
    function Name(): (r: string)
      ensures |r| > 0 && IsUpperChar(r[0])
    {
      match this
      case Acrobatics => "Acrobatics"
      case AnimalHandling => "Animal Handling"
      case Arcana => "Arcana"
      case Athletics => "Athletics"
      case Deception => "Deception"
      case History => "History"
      case Insight => "Insight"
      case Intimidation => "Intimidation"
      case Investigation => "Investigation"
      case Medicine => "Medicine"
      case Nature => "Nature"
      case Perception => "Perception"
      case Performance => "Performance"
      case Persuasion => "Persuasion"
      case Religion => "Religion"
      case SleightOfHand => "Sleight of Hand"
      case Stealth => "Stealth"
      case Survival => "Survival"
    }

    /** `ability`: the ability every check with this skill uses. */
    function Ability(): (r: AbilityEnum.Ability)
      ensures r != AbilityEnum.Constitution
    {
      match this
      case Acrobatics => AbilityEnum.Dexterity
      case AnimalHandling => AbilityEnum.Wisdom
      case Arcana => AbilityEnum.Intelligence
      case Athletics => AbilityEnum.Strength
      case Deception => AbilityEnum.Charisma
      case History => AbilityEnum.Intelligence
      case Insight => AbilityEnum.Wisdom
      case Intimidation => AbilityEnum.Charisma
      case Investigation => AbilityEnum.Intelligence
      case Medicine => AbilityEnum.Wisdom
      case Nature => AbilityEnum.Intelligence
      case Perception => AbilityEnum.Wisdom
      case Performance => AbilityEnum.Charisma
      case Persuasion => AbilityEnum.Charisma
      case Religion => AbilityEnum.Intelligence
      case SleightOfHand => AbilityEnum.Dexterity
      case Stealth => AbilityEnum.Dexterity
      case Survival => AbilityEnum.Wisdom
    }

    /** `FromStr::from_str`: the first skill of `all` whose name equals the
        input exactly, or an error. */
    static function FromStr(s: string): (r: Result<Skill>)
      ensures r.Ok? ==> r.value.Name() == s
      ensures r.Err? ==> r.error == "Unknown skill"
      ensures r.Err? ==> forall k: Skill :: k.Name() != s
    {
      match Find(All(), s)
      case Some(k) => Ok(k)
      case None => UnknownName(s); Err("Unknown skill")
    }
  }

  /** Searching the whole table in vain means no skill has that name. */
  lemma UnknownName(s: string)
    requires Find(Skill.All(), s).None?
    ensures forall k: Skill :: k.Name() != s
  {
    forall k: Skill ensures k.Name() != s {
      assert Skill.All()[k.Ordinal()] == k;
    }
  }

  /** `all` lists every skill. */
  lemma EverySkillListed()
    ensures forall k: Skill :: k in Skill.All()
  {
    forall k: Skill ensures k in Skill.All() {
      assert Skill.All()[k.Ordinal()] == k;
    }
  }

  /** The first element of `ks` whose name is `s`, as `Iterator::find` returns
      it. */
  function Find(ks: seq<Skill>, s: string): (r: Option<Skill>)
    ensures r.None? <==> forall i :: 0 <= i < |ks| ==> ks[i].Name() != s
    ensures r.Some? ==> exists i :: 0 <= i < |ks| && ks[i] == r.value && ks[i].Name() == s
                                    && forall j :: 0 <= j < i ==> ks[j].Name() != s
  {
    if ks == [] then None
    else if ks[0].Name() == s then Some(ks[0])
    else
      var r := Find(ks[1..], s);
      assert forall i :: 1 <= i < |ks| ==> ks[i] == ks[1..][i - 1];
      r
  }

  /** `Ability::skills`: the skills each ability governs, as a constant
      table in declaration order. */
  function SkillsOf(a: AbilityEnum.Ability): (r: seq<Skill>)
    ensures forall i, j :: 0 <= i < j < |r| ==> r[i].Ordinal() < r[j].Ordinal()
  {
    match a
    case Strength => [Athletics]
    case Dexterity => [Acrobatics, SleightOfHand, Stealth]
    case Constitution => []
    case Intelligence => [Arcana, History, Investigation, Nature, Religion]
    case Wisdom => [AnimalHandling, Insight, Medicine, Perception, Survival]
    case Charisma => [Deception, Intimidation, Performance, Persuasion]
  }

  /** No two skills share a name. */
  lemma NamesDistinct(k: Skill, l: Skill)
    ensures k.Name() == l.Name() ==> k == l
  {
  }

  /** Every skill parses back from its own name. */
  lemma FromStrRoundTrip(k: Skill)
    ensures Skill.FromStr(k.Name()) == Ok(k)
  {
    var r := Skill.FromStr(k.Name());
    assert Skill.All()[k.Ordinal()] == k;
    NamesDistinct(k, r.value);
  }

  /** Parsing succeeds exactly on the eighteen names, with the skill of that
      name, and is case-sensitive. */
  lemma FromStrAccepts(s: string, k: Skill)
    ensures Skill.FromStr(s) == Ok(k) <==> k.Name() == s
  {
    if k.Name() == s {
      FromStrRoundTrip(k);
    }
  }

  /** The two tables agree: a skill is listed under an ability exactly when
      that is the skill's ability. */
  lemma SkillsOfAgrees(k: Skill, a: AbilityEnum.Ability)
    ensures k in SkillsOf(a) <==> k.Ability() == a
  {
  }

  /** Every skill is listed under its own ability; Constitution lists none. */
  lemma SkillListedUnderItsAbility(k: Skill)
    ensures k in SkillsOf(k.Ability())
    ensures SkillsOf(AbilityEnum.Constitution) == []
  {
    SkillsOfAgrees(k, k.Ability());
  }

  /** "Sleight of Hand" parses. */
  lemma FromStrExample()
    ensures Skill.FromStr("Sleight of Hand") == Ok(SleightOfHand)
  {
    FromStrAccepts("Sleight of Hand", SleightOfHand);
  }

  /** Matching is case-sensitive: no name starts with a lower-case letter, so
      "sleight of hand" is refused. */
  lemma FromStrCaseSensitive()
    ensures Skill.FromStr("sleight of hand") == Err("Unknown skill")
  {
  }
}
