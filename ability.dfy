/** src/core/ability.rs: the six abilities, their names, abbreviations and
    case-insensitive parsing. */
module AbilityEnum {
  import opened Wrappers
  import opened Ascii

  datatype Ability = Strength | Dexterity | Constitution | Intelligence | Wisdom | Charisma {

    /** `all`: every ability exactly once, in declaration order. */
    static function All(): (r: seq<Ability>)
      ensures |r| == 6 && r[0] == Strength && r[5] == Charisma
      ensures forall a: Ability :: r[a.Ordinal()] == a
      ensures forall i, j :: 0 <= i < j < |r| ==> r[i] != r[j]
      ensures forall i :: 0 <= i < |r| ==> r[i].Ordinal() == i
    {
      [Strength, Dexterity, Constitution, Intelligence, Wisdom, Charisma]
    }

    /** Position in declaration order. */
    function Ordinal(): nat
    {
      match this
      case Strength => 0
      case Dexterity => 1
      case Constitution => 2
      case Intelligence => 3
      case Wisdom => 4
      case Charisma => 5
    }

    /** `name`: the full name in title case; also what `Display` and
        `AsRef<str>` produce. */
    function Name(): (r: string)
      ensures IsTitleCase(r)
    {
      match this
      case Strength => "Strength"
      case Dexterity => "Dexterity"
      case Constitution => "Constitution"
      case Intelligence => "Intelligence"
      case Wisdom => "Wisdom"
      case Charisma => "Charisma"
    }

    /** `abbr`: the three-letter code, which is the first three letters of
        the name in upper case. */
    function Abbr(): (r: string)
      ensures |r| == 3 && forall i :: 0 <= i < 3 ==> IsUpperChar(r[i])
      ensures r == ToUpper(Name()[..3])
    {
      match this
      case Strength => "STR"
      case Dexterity => "DEX"
      case Constitution => "CON"
      case Intelligence => "INT"
      case Wisdom => "WIS"
      case Charisma => "CHA"
    }

    /** `FromStr::from_str`: the input is lower-cased, then compared with each
        ability's lower-case name and lower-case abbreviation. */
    static function FromStr(s: string): (r: Result<Ability>)
      ensures r.Ok? ==> ToLower(s) == ToLower(r.value.Name()) || ToLower(s) == ToLower(r.value.Abbr())
      ensures r.Err? ==> r.error == "Invalid ability name"
    {
      var lower := ToLower(s);
      if lower == "strength" || lower == "str" then Folded(Strength); Ok(Strength)
      else if lower == "dexterity" || lower == "dex" then Folded(Dexterity); Ok(Dexterity)
      else if lower == "constitution" || lower == "con" then Folded(Constitution); Ok(Constitution)
      else if lower == "intelligence" || lower == "int" then Folded(Intelligence); Ok(Intelligence)
      else if lower == "wisdom" || lower == "wis" then Folded(Wisdom); Ok(Wisdom)
      else if lower == "charisma" || lower == "cha" then Folded(Charisma); Ok(Charisma)
      else Err("Invalid ability name")
    }
  }

  /** The lower-case spellings of each ability's name and abbreviation. */
  lemma Folded(a: Ability)
    ensures ToLower(a.Name()) == match a
      case Strength => "strength"
      case Dexterity => "dexterity"
      case Constitution => "constitution"
      case Intelligence => "intelligence"
      case Wisdom => "wisdom"
      case Charisma => "charisma"
    ensures ToLower(a.Abbr()) == match a
      case Strength => "str"
      case Dexterity => "dex"
      case Constitution => "con"
      case Intelligence => "int"
      case Wisdom => "wis"
      case Charisma => "cha"
  {
    match a
    case Strength =>
      assert ToLower("Strength") == "strength";
    case Dexterity =>
      assert ToLower("Dexterity") == "dexterity";
    case Constitution =>
      assert ToLower("Constitution") == "constitution";
    case Intelligence =>
      assert ToLower("Intelligence") == "intelligence";
    case Wisdom =>
      assert ToLower("Wisdom") == "wisdom";
    case Charisma =>
      assert ToLower("Charisma") == "charisma";
  }

  /** An upper-case letter followed by lower-case letters only. */
  predicate IsTitleCase(s: string)
  {
    |s| > 0 && IsUpperChar(s[0]) && forall i :: 1 <= i < |s| ==> IsLowerChar(s[i])
  }

  /** Parsing accepts a string exactly when its lower-case form is the
      lower-case name or abbreviation of some ability, and then returns that
      ability. */
  lemma FromStrAccepts(s: string, a: Ability)
    ensures Ability.FromStr(s) == Ok(a) <==> ToLower(s) == ToLower(a.Name()) || ToLower(s) == ToLower(a.Abbr())
  {
    Folded(a);
  }

  /** Any other string is refused with the fixed message. */
  lemma FromStrRefuses(s: string)
    ensures Ability.FromStr(s).Err? <==> forall a: Ability :: ToLower(s) != ToLower(a.Name()) && ToLower(s) != ToLower(a.Abbr())
  {
    forall a: Ability | Ability.FromStr(s).Err?
      ensures ToLower(s) != ToLower(a.Name()) && ToLower(s) != ToLower(a.Abbr())
    {
      Folded(a);
    }
  }

  /** Every ability parses back from its name and from its abbreviation. */
  lemma FromStrRoundTrip(a: Ability)
    ensures Ability.FromStr(a.Name()) == Ok(a)
    ensures Ability.FromStr(a.Abbr()) == Ok(a)
  {
    FromStrAccepts(a.Name(), a);
    FromStrAccepts(a.Abbr(), a);
  }

  /** Parsing ignores ASCII case: folding the input first, or upper-casing it,
      gives the same answer. */
  lemma FromStrIgnoresCase(s: string)
    ensures Ability.FromStr(ToLower(s)) == Ability.FromStr(s)
    ensures Ability.FromStr(ToUpper(s)) == Ability.FromStr(s)
  {
    ToLowerIdempotent(s);
    ToLowerOfToUpper(s);
  }

  /** Rust lower-cases with full Unicode folding. Its only mapping from
      outside ASCII into a single ASCII letter sends the Kelvin sign to `k`,
      and no accepted spelling contains `k`; so parsing accepts exactly the
      same strings when that mapping is added to the folding. */
  lemma FromStrAgreesWithKelvinFolding(s: string, a: Ability)
    ensures Ability.FromStr(s) == Ok(a) <==>
      ToLowerKelvin(s) == ToLower(a.Name()) || ToLowerKelvin(s) == ToLower(a.Abbr())
  {
    FromStrAccepts(s, a);
    Folded(a);
    KelvinFoldingAgrees(s, ToLower(a.Name()));
    KelvinFoldingAgrees(s, ToLower(a.Abbr()));
  }

  /** "STR" and "Strength" name the same ability; "invalid" names none. */
  lemma FromStrExamples()
    ensures Ability.FromStr("STR") == Ability.FromStr("Strength") == Ok(Strength)
    ensures Ability.FromStr("invalid") == Err("Invalid ability name")
  {
  }
}
