/** src/core/ability_score.rs: the magnitude of an ability, an unsigned byte
    kept within 1..30, and its derived modifier. */
module AbilityScores {
  import opened Ints
  import opened Wrappers
  import AbilityModifiers

  /** The range is part of the type, as the Rust field is private. */
  newtype AbilityScore = x: uint8 | 1 <= x <= 30 witness 10 {

    /** The underlying `u8`; also Rust's `From<AbilityScore> for u8`. */
    function Value(): (r: uint8)
      ensures 1 <= r <= 30
    {
      this as uint8
    }
  }

  const MIN: AbilityScore := 1
  const MAX: AbilityScore := 30
  const DEFAULT: AbilityScore := 10

  /** `Default::default` returns `DEFAULT`. */
  function Default(): (r: AbilityScore)
    ensures r.Value() == 10
  {
    DEFAULT
  }

  /** `new_clamped`: the nearest score to `value`; never fails. */
  function NewClamped(value: uint8): (r: AbilityScore)
    ensures MIN.Value() <= value <= MAX.Value() ==> r.Value() == value
    ensures value < MIN.Value() ==> r == MIN
    ensures value > MAX.Value() ==> r == MAX
  {
    if value < MIN.Value() then MIN
    else if value > MAX.Value() then MAX
    else value as AbilityScore
  }

  /** `try_new`: `value` itself when it is in range, otherwise an error naming
      the bound it crosses. */
  function TryNew(value: uint8): (r: Result<AbilityScore>)
    ensures r.Ok? <==> MIN.Value() <= value <= MAX.Value()
    ensures r.Ok? ==> r.value.Value() == value
    ensures value < MIN.Value() ==> r == Err("Ability score cannot be less than 1")
    ensures value > MAX.Value() ==> r == Err("Ability score cannot be greater than 30")
  {
    if value < MIN.Value() then Err("Ability score cannot be less than 1")
    else if value > MAX.Value() then Err("Ability score cannot be greater than 30")
    else Ok(value as AbilityScore)
  }

  /** `TryFrom<u8>` delegates to `try_new`. */
  function TryFrom(value: uint8): (r: Result<AbilityScore>)
    ensures r == TryNew(value)
    ensures r.Ok? <==> MIN.Value() <= value <= MAX.Value()
  {
    TryNew(value)
  }

  /** The expression inside `modifier` before clamping, with Rust's operators
      written out: `(score as i8 - 10) >> 1`. The conversion of the difference
      back to `int8` is checked, so verifying this function shows that the
      subtraction cannot overflow for any score. */
  function RawModifier(score: AbilityScore): (r: int8)
    ensures 2 * r as int <= score.Value() as int - 10 <= 2 * r as int + 1
  {
    ShiftRight1((WrapToInt8(score.Value()) as int - 10) as int8)
  }

  /** `modifier`: floor((score - 10) / 2), passed through the modifier's
      clamping constructor. */
  function Modifier(score: AbilityScore): (r: AbilityModifiers.AbilityModifier)
    ensures 2 * r.Value() as int <= score.Value() as int - 10 <= 2 * r.Value() as int + 1
  {
    RawModifierInRange(score);
    AbilityModifiers.NewClamped(RawModifier(score))
  }

  /** `From<AbilityScore> for AbilityModifier` is `score.modifier()`. It lives
      here because the modifier module cannot import this one back. */
  function ModifierFrom(score: AbilityScore): (r: AbilityModifiers.AbilityModifier)
    ensures r == Modifier(score)
    ensures 2 * r.Value() as int <= score.Value() as int - 10 <= 2 * r.Value() as int + 1
  {
    Modifier(score)
  }

  /** For every valid score the `as i8` cast keeps the value and the shifted
      difference already lies in -5..10, so the clamp in `modifier` never
      changes it. */
  lemma RawModifierInRange(score: AbilityScore)
    ensures WrapToInt8(score.Value()) as int == score.Value() as int
    ensures AbilityModifiers.MIN.Value() <= RawModifier(score) <= AbilityModifiers.MAX.Value()
    ensures AbilityModifiers.NewClamped(RawModifier(score)).Value() == RawModifier(score)
  {
  }

  /** A higher score never gives a lower modifier. */
  lemma ModifierMonotone(a: AbilityScore, b: AbilityScore)
    requires a <= b
    ensures Modifier(a).Value() <= Modifier(b).Value()
  {
  }

  /** The score-to-modifier table every score must reproduce, in three parts. */
  lemma ModifierTableLow()
    ensures Modifier(1).Value() == -5 && Modifier(2).Value() == -4
    ensures Modifier(3).Value() == -4 && Modifier(4).Value() == -3
    ensures Modifier(5).Value() == -3 && Modifier(6).Value() == -2
    ensures Modifier(7).Value() == -2 && Modifier(8).Value() == -1
    ensures Modifier(9).Value() == -1 && Modifier(10).Value() == 0
  {
  }

  lemma ModifierTableMiddle()
    ensures Modifier(11).Value() == 0 && Modifier(12).Value() == 1
    ensures Modifier(13).Value() == 1 && Modifier(14).Value() == 2
    ensures Modifier(15).Value() == 2 && Modifier(16).Value() == 3
    ensures Modifier(17).Value() == 3 && Modifier(18).Value() == 4
    ensures Modifier(19).Value() == 4 && Modifier(20).Value() == 5
  {
  }

  lemma ModifierTableHigh()
    ensures Modifier(21).Value() == 5 && Modifier(22).Value() == 6
    ensures Modifier(23).Value() == 6 && Modifier(24).Value() == 7
    ensures Modifier(25).Value() == 7 && Modifier(26).Value() == 8
    ensures Modifier(27).Value() == 8 && Modifier(28).Value() == 9
    ensures Modifier(29).Value() == 9 && Modifier(30).Value() == 10
  {
  }

  /** No score in range is closer to `value` than the clamped one. */
  lemma ClampedIsNearest(value: uint8, s: AbilityScore)
    ensures Distance(NewClamped(value).Value() as int, value as int) <= Distance(s.Value() as int, value as int)
  {
  }

  /** `try_new` succeeds exactly when clamping leaves the input alone, and
      then both constructors give the same score. */
  lemma TryNewAgreesWithClamped(value: uint8)
    ensures TryNew(value).Ok? <==> NewClamped(value).Value() == value
    ensures TryNew(value).Ok? ==> TryNew(value).value == NewClamped(value)
  {
  }

  /** Rebuilding a score from its own value gives it back. */
  lemma ClampedRoundTrip(s: AbilityScore)
    ensures NewClamped(s.Value()) == s
    ensures TryNew(s.Value()) == Ok(s)
  {
  }
}
