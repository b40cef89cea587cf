/** src/core/ability_modifier.rs: a modifier to a d20 test, a signed byte
    kept within -5..10. */
module AbilityModifiers {
  import opened Ints
  import opened Wrappers

  /** The range is part of the type: no value outside -5..10 can be built,
      just as the Rust field is private to the constructors below. */
  newtype AbilityModifier = x: int8 | -5 <= x <= 10 witness 0 {

    /** The underlying `i8`; also Rust's `From<AbilityModifier> for i8`. */
    function Value(): (r: int8)
      ensures -5 <= r <= 10
    {
      this as int8
    }
  }

  const MIN: AbilityModifier := -5
  const MAX: AbilityModifier := 10

  /** `new_clamped`: the nearest modifier to `value`; never fails. */
  function NewClamped(value: int8): (r: AbilityModifier)
    ensures MIN.Value() <= value <= MAX.Value() ==> r.Value() == value
    ensures value < MIN.Value() ==> r == MIN
    ensures value > MAX.Value() ==> r == MAX
  {
    if value < MIN.Value() then MIN
    else if value > MAX.Value() then MAX
    else value as AbilityModifier
  }

  /** `try_new`: `value` itself when it is in range, otherwise an error naming
      the bound it crosses. */
  function TryNew(value: int8): (r: Result<AbilityModifier>)
    ensures r.Ok? <==> MIN.Value() <= value <= MAX.Value()
    ensures r.Ok? ==> r.value.Value() == value
    ensures value < MIN.Value() ==> r == Err("Ability modifier cannot be less than -5")
    ensures value > MAX.Value() ==> r == Err("Ability modifier cannot be greater than 10")
  {
    if value < MIN.Value() then Err("Ability modifier cannot be less than -5")
    else if value > MAX.Value() then Err("Ability modifier cannot be greater than 10")
    else Ok(value as AbilityModifier)
  }

  /** `TryFrom<i8>` delegates to `try_new`. */
  function TryFrom(value: int8): (r: Result<AbilityModifier>)
    ensures r == TryNew(value)
    ensures r.Ok? <==> MIN.Value() <= value <= MAX.Value()
  {
    TryNew(value)
  }

  /** No modifier in range is closer to `value` than the clamped one. */
  lemma ClampedIsNearest(value: int8, m: AbilityModifier)
    ensures Distance(NewClamped(value).Value() as int, value as int) <= Distance(m.Value() as int, value as int)
  {
  }

  /** The two constructors agree: `try_new` succeeds exactly when clamping
      leaves the input alone, and then both give the same modifier. */
  lemma TryNewAgreesWithClamped(value: int8)
    ensures TryNew(value).Ok? <==> NewClamped(value).Value() == value
    ensures TryNew(value).Ok? ==> TryNew(value).value == NewClamped(value)
  {
  }

  /** Clamping a modifier's own value gives it back. */
  lemma ClampedRoundTrip(m: AbilityModifier)
    ensures NewClamped(m.Value()) == m
    ensures TryNew(m.Value()) == Ok(m)
  {
  }
}
