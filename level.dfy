/** src/core/level.rs: a player character's level, an unsigned byte kept
    within 1..20, and the proficiency bonus it grants. */
module Levels {
  import opened Ints
  import opened Wrappers
  import ProficiencyBonuses

  /** The range is part of the type, as the Rust field is private. */
  newtype Level = x: uint8 | 1 <= x <= 20 witness 1 {

    /** The underlying `u8`; also Rust's `From<Level> for u8`. */
    function Value(): (r: uint8)
      ensures 1 <= r <= 20
    {
      this as uint8
    }
  }

  const MIN: Level := 1
  const MAX: Level := 20

  /** `Default::default` is the lowest level. */
  function Default(): (r: Level)
    ensures r == MIN && r.Value() == 1
  {
    MIN
  }

  /** `new_clamped`: the nearest level to `value`; never fails. */
  function NewClamped(value: uint8): (r: Level)
    ensures MIN.Value() <= value <= MAX.Value() ==> r.Value() == value
    ensures value < MIN.Value() ==> r == MIN
    ensures value > MAX.Value() ==> r == MAX
  {
    if value < MIN.Value() then MIN
    else if value > MAX.Value() then MAX
    else value as Level
  }

  /** `try_new`: `value` itself when it is in range, otherwise an error naming
      the bound it crosses. */
  function TryNew(value: uint8): (r: Result<Level>)
    ensures r.Ok? <==> MIN.Value() <= value <= MAX.Value()
    ensures r.Ok? ==> r.value.Value() == value
    ensures value < MIN.Value() ==> r == Err("Level cannot be less than 1")
    ensures value > MAX.Value() ==> r == Err("Level cannot be greater than 20")
  {
    if value < MIN.Value() then Err("Level cannot be less than 1")
    else if value > MAX.Value() then Err("Level cannot be greater than 20")
    else Ok(value as Level)
  }

  /** `TryFrom<u8>` delegates to `try_new`. */
  function TryFrom(value: uint8): (r: Result<Level>)
    ensures r == TryNew(value)
    ensures r.Ok? <==> MIN.Value() <= value <= MAX.Value()
  {
    TryNew(value)
  }

  /** The step table matched in `proficiency_bonus`. Its arms cover 1..30
      (levels past 20 for expanded level caps); the remaining `unreachable!()`
      arm is this precondition, which every `Level` meets. The result is one
      more bonus point for every four levels. */
  function BonusTable(level: uint8): (r: uint8)
    requires 1 <= level <= 30
    ensures r as int == (level as int - 1) / 4 + 2
  {
    if level <= 4 then 2
    else if level <= 8 then 3
    else if level <= 12 then 4
    else if level <= 16 then 5
    else if level <= 20 then 6
    else if level <= 24 then 7
    else if level <= 28 then 8
    else 9
  }

  /** `proficiency_bonus`: the table entry, passed through the bonus's
      clamping constructor. For levels 1..20 it is 2..6. */
  function ProficiencyBonus(level: Level): (r: ProficiencyBonuses.ProficiencyBonus)
    ensures r.Value() as int == (level.Value() as int - 1) / 4 + 2
    ensures 2 <= r.Value() <= 6
  {
    ProficiencyBonuses.NewClamped(BonusTable(level.Value()))
  }

  /** `From<Level> for ProficiencyBonus` is `level.proficiency_bonus()`. It
      lives here because the bonus module cannot import this one back. */
  function ProficiencyBonusFrom(level: Level): (r: ProficiencyBonuses.ProficiencyBonus)
    ensures r == ProficiencyBonus(level)
    ensures r.Value() as int == (level.Value() as int - 1) / 4 + 2
  {
    ProficiencyBonus(level)
  }

  /** The level-to-bonus table the source's tests spell out. */
  lemma ProficiencyBonusTable(level: Level)
    ensures 1 <= level <= 4 ==> ProficiencyBonus(level).Value() == 2
    ensures 5 <= level <= 8 ==> ProficiencyBonus(level).Value() == 3
    ensures 9 <= level <= 12 ==> ProficiencyBonus(level).Value() == 4
    ensures 13 <= level <= 16 ==> ProficiencyBonus(level).Value() == 5
    ensures 17 <= level <= 20 ==> ProficiencyBonus(level).Value() == 6
  {
  }

  /** The clamp in `proficiency_bonus` never changes the table entry. */
  lemma BonusNeverClamped(level: Level)
    ensures ProficiencyBonus(level).Value() == BonusTable(level.Value())
  {
  }

  /** Gaining levels never lowers the bonus. */
  lemma ProficiencyBonusMonotone(a: Level, b: Level)
    requires a <= b
    ensures ProficiencyBonus(a).Value() <= ProficiencyBonus(b).Value()
  {
  }

  /** No level in range is closer to `value` than the clamped one. */
  lemma ClampedIsNearest(value: uint8, l: Level)
    ensures Distance(NewClamped(value).Value() as int, value as int) <= Distance(l.Value() as int, value as int)
  {
  }

  /** `try_new` succeeds exactly when clamping leaves the input alone, and
      then both constructors give the same level. */
  lemma TryNewAgreesWithClamped(value: uint8)
    ensures TryNew(value).Ok? <==> NewClamped(value).Value() == value
    ensures TryNew(value).Ok? ==> TryNew(value).value == NewClamped(value)
  {
  }

  /** Rebuilding a level from its own value gives it back. */
  lemma ClampedRoundTrip(l: Level)
    ensures NewClamped(l.Value()) == l
    ensures TryNew(l.Value()) == Ok(l)
  {
  }
}
