/** ASCII case folding, the part of Rust's `str::to_lowercase` that the names
    of this crate exercise. */
module Ascii {

  predicate IsUpperChar(c: char) { 'A' <= c <= 'Z' }

  predicate IsLowerChar(c: char) { 'a' <= c <= 'z' }

  function LowerChar(c: char): (r: char)
    ensures IsUpperChar(c) ==> IsLowerChar(r) && r as int == c as int + 32
    ensures !IsUpperChar(c) ==> r == c
  {
    if IsUpperChar(c) then (c as int + 32) as char else c
  }

  function UpperChar(c: char): (r: char)
    ensures IsLowerChar(c) ==> IsUpperChar(r) && r as int == c as int - 32
    ensures !IsLowerChar(c) ==> r == c
  {
    if IsLowerChar(c) then (c as int - 32) as char else c
  }

  /** Lower-cases every ASCII letter and leaves every other character alone. */
  function ToLower(s: string): (r: string)
    ensures |r| == |s|
  {
    seq(|s|, i requires 0 <= i < |s| => LowerChar(s[i]))
  }

  /** The Kelvin sign U+212A: the one character outside ASCII whose Unicode
      lower case is a single ASCII letter. */
  const KELVIN: char := '\U{212A}'

  /** `LowerChar` widened by that one Unicode mapping: the Kelvin sign
      lowers to `k`, as Rust's `char::to_lowercase` has it. */
  function LowerCharKelvin(c: char): (r: char)
    ensures c == KELVIN ==> r == 'k'
    ensures c != KELVIN ==> r == LowerChar(c)
  {
    if c == KELVIN then 'k' else LowerChar(c)
  }

  /** `ToLower` with the Kelvin sign folded to `k` as well. */
  function ToLowerKelvin(s: string): (r: string)
    ensures |r| == |s|
  {
    seq(|s|, i requires 0 <= i < |s| => LowerCharKelvin(s[i]))
  }

  /** Against a target that contains neither `k` nor the Kelvin sign, the
      two foldings match exactly the same strings: a Kelvin sign in `s`
      would put a `k` or a Kelvin sign where the target has neither. */
  lemma KelvinFoldingAgrees(s: string, t: string)
    requires forall i :: 0 <= i < |t| ==> t[i] != 'k' && t[i] != KELVIN
    ensures ToLowerKelvin(s) == t <==> ToLower(s) == t
  {
    if ToLowerKelvin(s) == t || ToLower(s) == t {
      forall i | 0 <= i < |s| ensures s[i] != KELVIN {
        assert ToLowerKelvin(s)[i] == LowerCharKelvin(s[i]);
        assert ToLower(s)[i] == LowerChar(s[i]);
      }
      assert forall i :: 0 <= i < |s| ==> ToLowerKelvin(s)[i] == ToLower(s)[i];
    }
  }

  /** Upper-cases every ASCII letter and leaves every other character alone. */
  function ToUpper(s: string): (r: string)
    ensures |r| == |s|
  {
    seq(|s|, i requires 0 <= i < |s| => UpperChar(s[i]))
  }

  /** Folding a string that is already folded changes nothing. */
  lemma ToLowerIdempotent(s: string)
    ensures ToLower(ToLower(s)) == ToLower(s)
  {
  }

  /** Upper-casing first does not change the folded form. */
  lemma ToLowerOfToUpper(s: string)
    ensures ToLower(ToUpper(s)) == ToLower(s)
  {
  }
}
