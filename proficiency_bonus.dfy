/** src/core/proficiency_bonus.rs: the bonus added to proficient checks, an
    unsigned byte kept within 2..9. */
module ProficiencyBonuses {
  import opened Ints
  import opened Wrappers

  /** The range is part of the type, as the Rust field is private. */
  newtype ProficiencyBonus = x: uint8 | 2 <= x <= 9 witness 2 {

    /** The underlying `u8`; also Rust's `From<ProficiencyBonus> for u8`. */
    function Value(): (r: uint8)
      ensures 2 <= r <= 9
    {
      this as uint8
    }
  }

  const MIN: ProficiencyBonus := 2
  const MAX: ProficiencyBonus := 9

  /** `new`: trusted callers pass an in-range value (a debug assertion in the
      source, a precondition here); the result is then `new_clamped(value)`,
      which is `value` itself. */
  function New(value: uint8): (r: ProficiencyBonus)
    requires MIN.Value() <= value <= MAX.Value()
    ensures r.Value() == value
    ensures r == NewClamped(value)
  {
    NewClamped(value)
  }

  /** `new_clamped`: the nearest bonus to `value`; never fails. */
  function NewClamped(value: uint8): (r: ProficiencyBonus)
    ensures MIN.Value() <= value <= MAX.Value() ==> r.Value() == value
    ensures value < MIN.Value() ==> r == MIN
    ensures value > MAX.Value() ==> r == MAX
  {
    if value < MIN.Value() then MIN
    else if value > MAX.Value() then MAX
    else value as ProficiencyBonus
  }

  /** `try_new`: `value` itself when it is in range, otherwise an error naming
      the bound it crosses. */
  function TryNew(value: uint8): (r: Result<ProficiencyBonus>)
    ensures r.Ok? <==> MIN.Value() <= value <= MAX.Value()
    ensures r.Ok? ==> r.value.Value() == value
    ensures value < MIN.Value() ==> r == Err("Proficiency bonus cannot be less than 2")
    ensures value > MAX.Value() ==> r == Err("Proficiency bonus cannot be greater than 9")
  {
    if value < MIN.Value() then Err("Proficiency bonus cannot be less than 2")
    else if value > MAX.Value() then Err("Proficiency bonus cannot be greater than 9")
    else Ok(value as ProficiencyBonus)
  }

  /** `TryFrom<u8>` delegates to `try_new`. */
  function TryFrom(value: uint8): (r: Result<ProficiencyBonus>)
    ensures r == TryNew(value)
    ensures r.Ok? <==> MIN.Value() <= value <= MAX.Value()
  {
    TryNew(value)
  }

  /** No bonus in range is closer to `value` than the clamped one. */
  lemma ClampedIsNearest(value: uint8, b: ProficiencyBonus)
    ensures Distance(NewClamped(value).Value() as int, value as int) <= Distance(b.Value() as int, value as int)
  {
  }

  /** `try_new` succeeds exactly when clamping leaves the input alone, and
      then both constructors give the same bonus. */
  lemma TryNewAgreesWithClamped(value: uint8)
    ensures TryNew(value).Ok? <==> NewClamped(value).Value() == value
    ensures TryNew(value).Ok? ==> TryNew(value).value == NewClamped(value)
  {
  }

  /** Rebuilding a bonus from its own value gives it back. */
  lemma ClampedRoundTrip(b: ProficiencyBonus)
    ensures NewClamped(b.Value()) == b
    ensures TryNew(b.Value()) == Ok(b)
  {
  }
}
