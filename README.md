# dnd core value types in Dafny

This project models the value-type core of the `dnd` Rust crate. That crate is
a rules-data library for a tabletop role-playing game. The model covers:

- the bounded numbers `AbilityScore` (1-30), `AbilityModifier` (-5..10),
  `Level` (1-20) and `ProficiencyBonus` (2-9), each with clamping
  construction, checked construction and their exact error messages;
- how a modifier follows from a score, and a proficiency bonus from a level;
- the closed enumerations `Ability` (six variants) and `Skill` (eighteen
  variants): their names, abbreviations, owning ability, and parsing from
  text;
- the `Abilities` record of six scores, indexed by `Ability`;
- the `SkillProficiencies` set. It holds two membership sets of skills,
  proficient and expertise, and keeps them disjoint.

Layout, one Dafny module per source file:

| file | module | source |
|---|---|---|
| `ints.dfy` | `Ints` | Rust `u8`/`i8`, the `as i8` cast and `>>` |
| `wrappers.dfy` | `Wrappers` | Rust `Option` and `Result<_, &'static str>` |
| `ascii.dfy` | `Ascii` | case folding used by `Ability::from_str` |
| `ability_modifier.dfy` | `AbilityModifiers` | `src/core/ability_modifier.rs` |
| `ability_score.dfy` | `AbilityScores` | `src/core/ability_score.rs` |
| `proficiency_bonus.dfy` | `ProficiencyBonuses` | `src/core/proficiency_bonus.rs` |
| `level.dfy` | `Levels` | `src/core/level.rs` |
| `ability.dfy` | `AbilityEnum` | `src/core/ability.rs` |
| `skill.dfy` | `SkillEnum` | `src/core/skill.rs` |
| `abilities.dfy` | `AbilityBlock` | `src/core/abilities.rs` |
| `skill_proficiencies.dfy` | `Proficiencies` | `src/core/skill_proficiencies.rs` |

Modelling decisions:

- **Newtypes.** Each Rust tuple newtype becomes a Dafny `newtype` whose
  constraint is the valid range. "Every value is in range" is therefore part
  of the type. `u8` and `i8` are the newtypes `uint8` and `int8`.
- **Modifier arithmetic.** `AbilityScore::modifier` computes
  `(value as i8 - 10) >> 1`. The model writes out each step:
  - `Ints.WrapToInt8` is the two's-complement `u8 as i8` cast.
  - The subtraction is checked not to overflow `i8`.
  - `Ints.ShiftRight1` is the arithmetic shift, which rounds toward negative
    infinity.
- **Placement of conversions.** Rust's `From<AbilityScore> for
  AbilityModifier` lives in `AbilityScores.ModifierFrom`, and `From<Level> for
  ProficiencyBonus` in `Levels.ProficiencyBonusFrom`. The modifier and bonus
  modules do not depend on the score and level modules, and Dafny modules
  may not import each other in a cycle.
- **The `unreachable!()` arm.** `Level::proficiency_bonus` matches on the
  raw `u8` over 1..=30, and its last arm is `unreachable!()`. That match is
  `Levels.BonusTable`, whose precondition `1 <= level <= 30` takes the place
  of the panic.
- **Skill as an enum.** In Rust, `Skill` is a private struct of
  (name, ability) with eighteen associated constants. Its equality is
  field-wise and the names are distinct (`SkillEnum.NamesDistinct`). It is
  modelled as an eighteen-variant datatype.
- **`Ability::skills`.** The test in `src/core/skill.rs:175-180` calls
  `Ability::skills`, but `src/core/ability.rs` does not define it. The model
  supplies it as the constant table `SkillEnum.SkillsOf` and proves that it
  agrees with `Skill::ability`.
- **Ability parsing ignores case.** `Ability::from_str` lowercases its input
  before matching (`src/core/ability.rs:115`), and its tests parse "str" and
  "strength". `AbilityEnum.FromStrIgnoresCase` proves the insensitivity.
  Skill parsing compares names exactly and is case-sensitive.
- **Stateful types as classes.** `Abilities` (mutated through `IndexMut`)
  and `SkillProficiencies` (mutated through `&mut self` builders) are
  classes. Their mutators carry `modifies this` and state the whole new
  state. `SkillProficiencies.Valid()` is the disjointness invariant. A
  sequence of updates is specified by `Proficiencies.LastLevel`: the level
  of the last pair naming the skill, or the level it had before.

## Model

| member | source | states |
|---|---|---|
| Ints.WrapToInt8 | src/core/ability_score.rs:57-62 | the `u8 as i8` cast keeps the value modulo 256: unchanged below 128, negative from 128 up |
| Ints.ShiftRight1 | src/core/ability_score.rs:57-62 | `x >> 1` on `i8` is floor division by two: `2r <= x <= 2r + 1` |
| AbilityModifiers.AbilityModifier.Value | src/core/ability_modifier.rs:48-52 | the underlying `i8` always lies in -5..10 |
| AbilityModifiers.NewClamped | src/core/ability_modifier.rs:20-31 | values in -5..10 are kept; smaller values give MIN, larger give MAX |
| AbilityModifiers.TryNew | src/core/ability_modifier.rs:33-46 | Ok exactly when the value is in -5..10, holding that value; otherwise Err with the "less than -5" or "greater than 10" message |
| AbilityModifiers.TryFrom | src/core/ability_modifier.rs:55-61 | the same result as `try_new`: Ok exactly on -5..10 |
| AbilityModifiers.ClampedIsNearest | src/core/ability_modifier.rs:20-31 | the clamped modifier is at least as close to the input as any other valid modifier |
| AbilityModifiers.TryNewAgreesWithClamped | src/core/ability_modifier.rs:20-46 | `try_new` succeeds exactly when clamping leaves the value unchanged, and then both give the same modifier |
| AbilityModifiers.ClampedRoundTrip | src/core/ability_modifier.rs:20-52 | rebuilding a modifier from its value, by clamping or by `try_new`, gives the same modifier |
| AbilityScores.AbilityScore.Value | src/core/ability_score.rs:51-55 | the underlying `u8` always lies in 1..30 |
| AbilityScores.Default | src/core/ability_score.rs:65-69 | the default score has value 10 |
| AbilityScores.NewClamped | src/core/ability_score.rs:23-34 | values in 1..30 are kept; 0 gives MIN and values above 30 give MAX |
| AbilityScores.TryNew | src/core/ability_score.rs:36-49 | Ok exactly when the value is in 1..30, holding that value; otherwise Err with the "less than 1" or "greater than 30" message |
| AbilityScores.TryFrom | src/core/ability_score.rs:71-77 | the same result as `try_new`: Ok exactly on 1..30 |
| AbilityScores.RawModifier | src/core/ability_score.rs:61 | `(value as i8 - 10) >> 1`, written out step by step, is the floor of (score - 10) / 2, and the `i8` subtraction never overflows |
| AbilityScores.Modifier | src/core/ability_score.rs:57-62 | the modifier is the floor of (score - 10) / 2: `2m <= score - 10 <= 2m + 1` |
| AbilityScores.ModifierFrom | src/core/ability_modifier.rs:75-79 | the conversion equals `modifier()` and is the floor of (score - 10) / 2 |
| AbilityScores.RawModifierInRange | src/core/ability_score.rs:57-62 | for every valid score the `as i8` cast keeps the value, the shifted result already lies in -5..10, and the final clamp changes nothing |
| AbilityScores.ModifierMonotone | src/core/ability_score.rs:57-62 | a higher score never gives a lower modifier |
| AbilityScores.ModifierTableLow | src/core/ability_score.rs:142-183 | scores 1-10 give modifiers -5, -4, -4, -3, -3, -2, -2, -1, -1, 0 |
| AbilityScores.ModifierTableMiddle | src/core/ability_score.rs:142-183 | scores 11-20 give modifiers 0, 1, 1, 2, 2, 3, 3, 4, 4, 5 |
| AbilityScores.ModifierTableHigh | src/core/ability_score.rs:142-183 | scores 21-30 give modifiers 5, 6, 6, 7, 7, 8, 8, 9, 9, 10 |
| AbilityScores.ClampedIsNearest | src/core/ability_score.rs:23-34 | the clamped score is at least as close to the input as any other valid score |
| AbilityScores.TryNewAgreesWithClamped | src/core/ability_score.rs:23-49 | `try_new` succeeds exactly when clamping leaves the value unchanged, and then both give the same score |
| AbilityScores.ClampedRoundTrip | src/core/ability_score.rs:23-55 | rebuilding a score from its value, by clamping or by `try_new`, gives the same score |
| ProficiencyBonuses.ProficiencyBonus.Value | src/core/proficiency_bonus.rs:70-74 | the underlying `u8` always lies in 2..9 |
| ProficiencyBonuses.New | src/core/proficiency_bonus.rs:27-40 | for an in-range value, which is what the debug assertion demands, the bonus holds that value and equals the clamped one |
| ProficiencyBonuses.NewClamped | src/core/proficiency_bonus.rs:42-53 | values in 2..9 are kept; smaller values give MIN, larger give MAX |
| ProficiencyBonuses.TryNew | src/core/proficiency_bonus.rs:55-68 | Ok exactly when the value is in 2..9, holding that value; otherwise Err with the "less than 2" or "greater than 9" message |
| ProficiencyBonuses.TryFrom | src/core/proficiency_bonus.rs:77-83 | the same result as `try_new`: Ok exactly on 2..9 |
| ProficiencyBonuses.ClampedIsNearest | src/core/proficiency_bonus.rs:42-53 | the clamped bonus is at least as close to the input as any other valid bonus |
| ProficiencyBonuses.TryNewAgreesWithClamped | src/core/proficiency_bonus.rs:42-68 | `try_new` succeeds exactly when clamping leaves the value unchanged, and then both give the same bonus |
| ProficiencyBonuses.ClampedRoundTrip | src/core/proficiency_bonus.rs:42-74 | rebuilding a bonus from its value, by clamping or by `try_new`, gives the same bonus |
| Levels.Level.Value | src/core/level.rs:44-48 | the underlying `u8` always lies in 1..20 |
| Levels.Default | src/core/level.rs:67-71 | the default level is MIN, with value 1 |
| Levels.NewClamped | src/core/level.rs:16-27 | values in 1..20 are kept; 0 gives MIN and values above 20 give MAX |
| Levels.TryNew | src/core/level.rs:29-42 | Ok exactly when the value is in 1..20, holding that value; otherwise Err with the "less than 1" or "greater than 20" message |
| Levels.TryFrom | src/core/level.rs:73-79 | the same result as `try_new`: Ok exactly on 1..20 |
| Levels.BonusTable | src/core/level.rs:52-64 | the step table over 1..30 equals (level - 1) / 4 + 2 |
| Levels.ProficiencyBonus | src/core/level.rs:50-65 | a level's proficiency bonus is (level - 1) / 4 + 2, which lies in 2..6 for levels 1-20 |
| Levels.ProficiencyBonusFrom | src/core/proficiency_bonus.rs:91-95 | the conversion equals `proficiency_bonus()` and is (level - 1) / 4 + 2 |
| Levels.ProficiencyBonusTable | src/core/level.rs:134-154 | levels 1-4, 5-8, 9-12, 13-16 and 17-20 give bonuses 2, 3, 4, 5 and 6 |
| Levels.BonusNeverClamped | src/core/level.rs:52-64 | the clamp around the table never changes a bonus for a valid level |
| Levels.ProficiencyBonusMonotone | src/core/level.rs:52-64 | a higher level never gives a lower bonus |
| Levels.ClampedIsNearest | src/core/level.rs:16-27 | the clamped level is at least as close to the input as any other valid level |
| Levels.TryNewAgreesWithClamped | src/core/level.rs:16-42 | `try_new` succeeds exactly when clamping leaves the value unchanged, and then both give the same level |
| Levels.ClampedRoundTrip | src/core/level.rs:16-48 | rebuilding a level from its value, by clamping or by `try_new`, gives the same level |
| Ascii.LowerChar | src/core/ability.rs:114-115 | upper-case ASCII letters map to their lower-case letter; every other character is unchanged |
| AbilityEnum.Ability.All | src/core/ability.rs:28-52 | six abilities, Strength first and Charisma last, each exactly once, at the position of its declaration order |
| AbilityEnum.Ability.Name | src/core/ability.rs:54-74 | every full name is in title case |
| AbilityEnum.Ability.Abbr | src/core/ability.rs:76-96 | every abbreviation is three upper-case letters: the first three letters of the name, upper-cased |
| AbilityEnum.Ability.FromStr | src/core/ability.rs:111-125 | a successful parse returns an ability whose name or abbreviation equals the input after lowercasing; a failure carries "Invalid ability name" |
| AbilityEnum.FromStrAccepts | src/core/ability.rs:111-125 | parsing gives ability `a` exactly when the lowercased input equals the lowercased name or abbreviation of `a` |
| AbilityEnum.FromStrRefuses | src/core/ability.rs:111-125 | parsing fails exactly when the lowercased input matches no ability's name or abbreviation |
| AbilityEnum.FromStrRoundTrip | src/core/ability.rs:54-125 | every ability parses back from its name and from its abbreviation |
| AbilityEnum.FromStrIgnoresCase | src/core/ability.rs:114-115 | lowercasing or upper-casing the input never changes the parse result |
| Ascii.KelvinFoldingAgrees | src/core/ability.rs:114-115 | adding Unicode's Kelvin-sign-to-`k` mapping to ASCII folding changes no match against a target that contains neither `k` nor the Kelvin sign |
| AbilityEnum.FromStrAgreesWithKelvinFolding | src/core/ability.rs:114-123 | parsing gives ability `a` exactly when the input, folded with the Kelvin sign mapped to `k` as Rust's `to_lowercase` does, is `a`'s lower-case name or abbreviation |
| AbilityEnum.FromStrExamples | src/core/ability.rs:192-215 | "STR" and "Strength" both parse to Strength, and "invalid" is refused with the error message |
| SkillEnum.Skill.All | src/core/skill.rs:41-64 | eighteen skills, Acrobatics first and Survival last, each at the position of its declaration order |
| SkillEnum.Skill.Name | src/core/skill.rs:126-129 | every name is non-empty and starts with an upper-case letter |
| SkillEnum.Skill.Ability | src/core/skill.rs:132-135 | no skill belongs to Constitution |
| SkillEnum.Skill.FromStr | src/core/skill.rs:150-160 | a successful parse returns the skill with exactly that name; a failure carries "Unknown skill", and then no skill has that name |
| SkillEnum.UnknownName | src/core/skill.rs:150-160 | when the search of `all()` finds nothing, no skill has the given name |
| SkillEnum.EverySkillListed | src/core/skill.rs:41-64 | every skill appears in `all()` |
| SkillEnum.Find | src/core/skill.rs:153-159 | the search finds nothing exactly when no listed skill has the name; otherwise it returns a listed skill with that name |
| SkillEnum.SkillsOf | src/core/skill.rs:175-180 | each ability's skill list is in declaration order, with no repeats |
| SkillEnum.NamesDistinct | src/core/skill.rs:66-119 | no two skills share a name |
| SkillEnum.FromStrRoundTrip | src/core/skill.rs:182-187 | every skill parses back from its own name |
| SkillEnum.FromStrAccepts | src/core/skill.rs:150-160 | parsing gives skill `k` exactly when the input is `k`'s name |
| SkillEnum.SkillsOfAgrees | src/core/skill.rs:175-180 | a skill is listed under an ability exactly when that is the skill's ability |
| SkillEnum.SkillListedUnderItsAbility | src/core/skill.rs:175-180 | every skill is listed under its own ability, and Constitution lists none |
| SkillEnum.FromStrExample | src/core/skill.rs:150-160 | "Sleight of Hand" parses to Sleight of Hand |
| SkillEnum.FromStrCaseSensitive | src/core/skill.rs:150-160 | "sleight of hand" is refused: matching is case-sensitive |
| AbilityBlock.Abilities.Index | src/core/abilities.rs:62-76 | each ability reads the field of its own name |
| AbilityBlock.Abilities.WithUniform | src/core/abilities.rs:35-46 | every ability holds the given score |
| AbilityBlock.Abilities.New | src/core/abilities.rs:29-33 | a fresh record with every ability at the default score of 10 |
| AbilityBlock.Abilities.SetIndex | src/core/abilities.rs:78-89 | writing through the index changes exactly that ability's score and leaves the other five as they were |
| AbilityBlock.Abilities.Iter | src/core/abilities.rs:48-53 | six pairs in `Ability::all()` order, each pairing an ability with its own score |
| Proficiencies.LastLevel | src/core/skill_proficiencies.rs:110-119 | after a list of updates a skill has the level of the last pair naming it, or its old level when none does |
| Proficiencies.LastLevelAppend | src/core/skill_proficiencies.rs:110-119 | applying `xs ++ ys` equals applying `xs` and then `ys` |
| Proficiencies.SetProficiencyIdempotent | src/core/skill_proficiencies.rs:95-108 | setting the same skill to the same level twice is the same as setting it once |
| Proficiencies.HeadIsLeast | src/core/skill_proficiencies.rs:149-160 | in an ordered listing the first skill comes before every other listed skill |
| Proficiencies.OrderedListingUnique | src/core/skill_proficiencies.rs:149-160 | two ordered listings with the same entries are equal |
| Proficiencies.SkillProficiencies.constructor | src/core/skill_proficiencies.rs:50-57 | both sets are empty, so every skill is at None and the listing is empty |
| Proficiencies.SkillProficiencies.WithProficiencies | src/core/skill_proficiencies.rs:59-65 | a fresh, disjoint set where each skill has the level of the last pair naming it, or None |
| Proficiencies.SkillProficiencies.IsProficient | src/core/skill_proficiencies.rs:67-73 | it is false for a skill that has expertise |
| Proficiencies.SkillProficiencies.HasExpertise | src/core/skill_proficiencies.rs:75-79 | it is false for a skill that is merely proficient |
| Proficiencies.SkillProficiencies.GetProficiency | src/core/skill_proficiencies.rs:81-93 | Expertise exactly when the skill has expertise; Proficient exactly when it is proficient without expertise; None exactly when it is in neither set |
| Proficiencies.SkillProficiencies.SetProficiency | src/core/skill_proficiencies.rs:95-108 | the skill joins the chosen set and leaves the other, its level becomes the chosen one, the sets stay disjoint, and every other skill keeps its level |
| Proficiencies.SkillProficiencies.SetProficiencies | src/core/skill_proficiencies.rs:110-119 | the sets stay disjoint, and each skill ends with the level of the last pair naming it, or the level it had before |
| Proficiencies.SkillProficiencies.SetProficient | src/core/skill_proficiencies.rs:121-126 | the skill becomes proficient and loses any expertise; other skills keep their levels |
| Proficiencies.SkillProficiencies.SetExpertise | src/core/skill_proficiencies.rs:128-133 | the skill gains expertise and loses any plain proficiency; other skills keep their levels |
| Proficiencies.SkillProficiencies.ClearProficiency | src/core/skill_proficiencies.rs:135-140 | the skill leaves both sets and its level becomes None; other skills keep their levels |
| Proficiencies.SkillProficiencies.ClearAll | src/core/skill_proficiencies.rs:142-147 | both sets become empty, every skill is at None, and the listing is empty |
| Proficiencies.SkillProficiencies.Iter | src/core/skill_proficiencies.rs:149-160 | the listing holds exactly the pairs (skill, level) with a level that is not None, in `Skill::all()` order; it is empty exactly when no skill has a level |
| Proficiencies.SkillProficiencies.Listed | src/core/skill_proficiencies.rs:150-159 | filtering an ordered list of skills keeps exactly those with a level, paired with that level and in list order |
| Proficiencies.QueriesAgree | src/core/skill_proficiencies.rs:67-93 | for a disjoint set, `is_proficient` and `has_expertise` agree with `get_proficiency`, and never both hold |

## Left out

- AbilityEnum.Ability.FromStr: folds only ASCII letters to lower case, while Rust's `str::to_lowercase` is full Unicode. This changes no parse result. The only Unicode mapping from a non-ASCII character to a single ASCII letter sends the Kelvin sign (U+212A) to `k`. No accepted spelling contains `k`, and `AbilityEnum.FromStrAgreesWithKelvinFolding` proves that adding this mapping accepts the same strings. The other Unicode mappings are not modelled.
- ProficiencyBonuses.New: the debug-build panic is modelled as a precondition. In release builds Rust clamps out-of-range input instead; that behaviour is `ProficiencyBonuses.NewClamped`.
- Serde serialization and deserialization, under the `serde` feature, are not modelled. They are derived wiring with no logic of the crate's own.
- `Display` and `AsRef<str>` are not modelled. They only forward to `value()` or `name()`.
- `From<X> for u8` and `From<X> for i8` are not modelled separately. They are `Value()` on each newtype.
- The derived `Clone`, `Copy`, `PartialEq`, `Eq` and `Debug` impls of the newtypes, `Ability`, `Skill` and `SkillLevel` are not modelled separately. Dafny newtypes and datatypes are values with structural equality, which has the same meaning.
- `Abilities` and `SkillProficiencies` are classes, so Dafny `==` on them means the same object. Rust derives field-by-field `PartialEq` and `Clone` for both. The model states equal contents through `Index` and `GetProficiency` and does not model cloning.
- The derived `Default` of `SkillProficiencies` is the empty set, which is the constructor. The hand-written `Default` of `Abilities` (`src/core/abilities.rs:56-60`) calls `new`, which is `AbilityBlock.Abilities.New`.
- The `BitFlags<Skill>` bit layout is not modelled. The model uses `set<Skill>`, which has the same membership semantics.
- The builder methods return `&mut Self` for chaining. The model's methods return nothing, and chaining is a sequence of calls.
- The lazy iterators returned by `iter()` are modelled as complete sequences.
- `src/lib.rs` and `src/core.rs` only re-export modules. They are not part of this model.
- `Abilities` field access through `pub` fields is modelled through the `Index` function and the `SetIndex` method only.
