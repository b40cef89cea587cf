/** src/core/skill_proficiencies.rs: which skills a creature is proficient
    in, kept as two disjoint sets of skills. */
module Proficiencies {
  import opened Wrappers
  import opened SkillEnum

  /** `SkillLevel`: the two proficiency tiers. */
  datatype SkillLevel = Proficient | Expertise

  type Entry = (Skill, SkillLevel)

  /** Entries listed in strictly increasing skill order, so no skill twice. */
  predicate StrictlyOrdered(r: seq<Entry>)
  {
    forall i, j :: 0 <= i < j < |r| ==> r[i].0.Ordinal() < r[j].0.Ordinal()
  }

  /** The level the last pair for `k` in `pairs` sets, or `initial` when no
      pair names `k`: the effect of applying `pairs` one after another. */
  function LastLevel(pairs: seq<Entry>, k: Skill, initial: Option<SkillLevel>): (r: Option<SkillLevel>)
    ensures (forall i :: 0 <= i < |pairs| ==> pairs[i].0 != k) ==> r == initial
    ensures (exists i :: 0 <= i < |pairs| && pairs[i].0 == k) ==>
      r.Some? && (exists i :: 0 <= i < |pairs| && pairs[i] == (k, r.value) &&
                    forall j :: i < j < |pairs| ==> pairs[j].0 != k)
  {
    if pairs == [] then initial
    else if pairs[|pairs| - 1].0 == k then Some(pairs[|pairs| - 1].1)
    else
      var r := LastLevel(pairs[..|pairs| - 1], k, initial);
      assert forall i :: 0 <= i < |pairs| - 1 ==> pairs[..|pairs| - 1][i] == pairs[i];
      r
  }

  /** Applying `xs` and then `ys` is applying `xs + ys`. */
  lemma {:induction false} LastLevelAppend(xs: seq<Entry>, ys: seq<Entry>, k: Skill, initial: Option<SkillLevel>)
    ensures LastLevel(xs + ys, k, initial) == LastLevel(ys, k, LastLevel(xs, k, initial))
  {
    if ys != [] {
      assert (xs + ys)[..|xs + ys| - 1] == xs + ys[..|ys| - 1];
      LastLevelAppend(xs, ys[..|ys| - 1], k, initial);
    } else {
      assert xs + ys == xs;
    }
  }

  /** Setting the same level twice has the effect of setting it once. */
  lemma SetProficiencyIdempotent(pairs: seq<Entry>, p: Entry, k: Skill, initial: Option<SkillLevel>)
    ensures LastLevel(pairs + [p, p], k, initial) == LastLevel(pairs + [p], k, initial)
  {
    assert (pairs + [p, p])[..|pairs| + 1] == pairs + [p];
  }

  /** In a strictly ordered listing the first entry has the smallest skill. */
  lemma HeadIsLeast(r: seq<Entry>, p: Entry)
    requires StrictlyOrdered(r) && p in r && p != r[0]
    ensures r[0].0.Ordinal() < p.0.Ordinal()
  {
  }

  /** Two strictly ordered listings with the same entries are the same list. */
  lemma {:induction false} OrderedListingUnique(r1: seq<Entry>, r2: seq<Entry>)
    requires StrictlyOrdered(r1) && StrictlyOrdered(r2)
    requires forall p :: p in r1 <==> p in r2
    ensures r1 == r2
  {
    assert r1 != [] ==> r1[0] in r2;
    assert r2 != [] ==> r2[0] in r1;
    if r1 != [] {
      assert r1[0] in r2 && r2[0] in r1;
      if r1[0] != r2[0] {
        HeadIsLeast(r1, r2[0]);
        HeadIsLeast(r2, r1[0]);
      }
      forall p ensures p in r1[1..] <==> p in r2[1..] {
        assert p in r1[1..] <==> p in r1 && p != r1[0];
        assert p in r2[1..] <==> p in r2 && p != r2[0];
      }
      OrderedListingUnique(r1[1..], r2[1..]);
      assert r1 == [r1[0]] + r1[1..] && r2 == [r2[0]] + r2[1..];
    }
  }

  class SkillProficiencies {
    var proficient: set<Skill>
    var expertise: set<Skill>

    /** No skill is both proficient and expert. */
    ghost predicate Valid()
      reads this
    {
      proficient !! expertise
    }

    /** `new` and `Default::default`: no proficiencies. */
    constructor ()
      ensures Valid()
      ensures proficient == {} && expertise == {}
      ensures forall k: Skill :: GetProficiency(k) == None
      ensures Iter() == []
    {
      proficient, expertise := {}, {};
    }

    /** `with_proficiencies`: start empty and apply each pair in turn, so the
        last pair naming a skill decides its level. */
    static method WithProficiencies(pairs: seq<Entry>) returns (r: SkillProficiencies)
      ensures fresh(r) && r.Valid()
      ensures forall k: Skill :: r.GetProficiency(k) == LastLevel(pairs, k, None)
    {
      r := new SkillProficiencies();
      r.SetProficiencies(pairs);
    }

    /** `is_proficient`: membership in the proficient set, which is false
        for a skill with expertise. */
    function IsProficient(k: Skill): (r: bool)
      reads this
      ensures Valid() && k in expertise ==> !r
    {
      k in proficient
    }

    /** `has_expertise`: membership in the expertise set, which is false for
        a skill with plain proficiency. */
    function HasExpertise(k: Skill): (r: bool)
      reads this
      ensures Valid() && k in proficient ==> !r
    {
      k in expertise
    }

    /** `get_proficiency`: expertise takes priority, then proficiency, else
        none. */
    function GetProficiency(k: Skill): (r: Option<SkillLevel>)
      reads this
      ensures r == Some(Expertise) <==> HasExpertise(k)
      ensures r == Some(Proficient) <==> IsProficient(k) && !HasExpertise(k)
      ensures r == None <==> !IsProficient(k) && !HasExpertise(k)
    {
      if HasExpertise(k) then Some(Expertise)
      else if IsProficient(k) then Some(Proficient)
      else None
    }

    /** `set_proficiency`: `k` moves into the set of `level` and out of the
        other; no other skill changes. */
    method SetProficiency(k: Skill, level: SkillLevel)
      requires Valid()
      modifies this
      ensures Valid()
      ensures level == Proficient ==> proficient == old(proficient) + {k} && expertise == old(expertise) - {k}
      ensures level == Expertise ==> expertise == old(expertise) + {k} && proficient == old(proficient) - {k}
      ensures GetProficiency(k) == Some(level)
      ensures forall j: Skill :: j != k ==> GetProficiency(j) == old(GetProficiency(j))
    {
      match level
      case Proficient =>
        proficient := proficient + {k};
        expertise := expertise - {k};
      case Expertise =>
        expertise := expertise + {k};
        proficient := proficient - {k};
    }

    /** `set_proficiencies`: applies `set_proficiency` to each pair in turn. */
    method SetProficiencies(pairs: seq<Entry>)
      requires Valid()
      modifies this
      ensures Valid()
      ensures forall k: Skill :: GetProficiency(k) == LastLevel(pairs, k, old(GetProficiency(k)))
    {
      for n := 0 to |pairs|
        invariant Valid()
        invariant forall k: Skill :: GetProficiency(k) == LastLevel(pairs[..n], k, old(GetProficiency(k)))
      {
        SetProficiency(pairs[n].0, pairs[n].1);
        assert pairs[..n + 1][..n] == pairs[..n];
      }
      assert pairs[..|pairs|] == pairs;
    }

    /** `set_proficient`: `k` becomes proficient, losing any expertise. */
    method SetProficient(k: Skill)
      requires Valid()
      modifies this
      ensures Valid()
      ensures IsProficient(k) && !HasExpertise(k) && GetProficiency(k) == Some(Proficient)
      ensures proficient == old(proficient) + {k} && expertise == old(expertise) - {k}
      ensures forall j: Skill :: j != k ==> GetProficiency(j) == old(GetProficiency(j))
    {
      SetProficiency(k, Proficient);
    }

    /** `set_expertise`: `k` gains expertise, losing plain proficiency. */
    method SetExpertise(k: Skill)
      requires Valid()
      modifies this
      ensures Valid()
      ensures HasExpertise(k) && !IsProficient(k) && GetProficiency(k) == Some(Expertise)
      ensures expertise == old(expertise) + {k} && proficient == old(proficient) - {k}
      ensures forall j: Skill :: j != k ==> GetProficiency(j) == old(GetProficiency(j))
    {
      SetProficiency(k, Expertise);
    }

    /** `clear_proficiency`: `k` leaves both sets; no other skill changes. */
    method ClearProficiency(k: Skill)
      requires Valid()
      modifies this
      ensures Valid()
      ensures proficient == old(proficient) - {k} && expertise == old(expertise) - {k}
      ensures GetProficiency(k) == None
      ensures forall j: Skill :: j != k ==> GetProficiency(j) == old(GetProficiency(j))
    {
      proficient := proficient - {k};
      expertise := expertise - {k};
    }

    /** `clear_all`: every skill back to no proficiency. */
    method ClearAll()
      modifies this
      ensures Valid()
      ensures proficient == {} && expertise == {}
      ensures forall k: Skill :: GetProficiency(k) == None
      ensures Iter() == []
    {
      proficient, expertise := {}, {};
    }

    /** `iter`: every skill with a level, paired with that level, in the order
        of `Skill::all`. */
    function Iter(): (r: seq<Entry>)
      reads this
      ensures forall k: Skill, l: SkillLevel :: (k, l) in r <==> GetProficiency(k) == Some(l)
      ensures StrictlyOrdered(r)
      ensures r == [] <==> forall k: Skill :: GetProficiency(k) == None
    {
      EverySkillListed();
      Listed(Skill.All())
    }

    /** The `filter_map` behind `iter`, over any list of skills in
        declaration order. */
    function Listed(ks: seq<Skill>): (r: seq<Entry>)
      reads this
      requires forall i, j :: 0 <= i < j < |ks| ==> ks[i].Ordinal() < ks[j].Ordinal()
      ensures forall k: Skill, l: SkillLevel :: (k, l) in r <==> k in ks && GetProficiency(k) == Some(l)
      ensures StrictlyOrdered(r)
      ensures r == [] <==> forall k :: k in ks ==> GetProficiency(k) == None
    {
      if ks == [] then []
      else
        var rest := Listed(ks[1..]);
        match GetProficiency(ks[0])
        case Some(l) => [(ks[0], l)] + rest
        case None => rest
    }
  }

  /** The queries agree with each other on every valid state: proficiency
      and expertise exclude each other. */
  lemma QueriesAgree(p: SkillProficiencies, k: Skill)
    requires p.Valid()
    ensures p.IsProficient(k) <==> p.GetProficiency(k) == Some(Proficient)
    ensures p.HasExpertise(k) <==> p.GetProficiency(k) == Some(Expertise)
    ensures !(p.IsProficient(k) && p.HasExpertise(k))
  {
  }

  /** Proficient in Acrobatics, expert in Stealth, in that order. */
  method IterScenario()
  {
    var profs := new SkillProficiencies();
    profs.SetProficient(Acrobatics);
    profs.SetExpertise(Stealth);
    assert profs.proficient == {Acrobatics} && profs.expertise == {Stealth};
    var expected := [(Acrobatics, Proficient), (Stealth, Expertise)];
    forall p | p in profs.Iter() ensures p in expected {
      assert profs.GetProficiency(p.0) == Some(p.1);
      assert p.0 == Acrobatics || p.0 == Stealth;
    }
    OrderedListingUnique(profs.Iter(), expected);
  }

  /** Expertise evicts plain proficiency for the same skill. */
  method ExpertiseEvictsProficiency(k: Skill)
  {
    var profs := new SkillProficiencies();
    profs.SetProficient(k);
    profs.SetExpertise(k);
    assert !profs.IsProficient(k) && profs.HasExpertise(k);
  }
}
