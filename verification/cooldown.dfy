/**
 * The cooldown bookkeeping of a skill (the Skill class of skill.py) and the
 * dummy skill that fills empty slots.
 */
module Cooldown {
  import opened Wrappers
  import opened State

  /** A skill as constructed: its cooldown starts at zero. */
  function NewSkill(fn: SkillFn, maxCd: int, area: Option<Area>): (s: Skill)
    ensures s.cd == 0 && s.maxCd == maxCd && !s.dummy
    ensures IsReady(s) <==> maxCd <= 0
  {
    Skill(0, maxCd, fn, area, false)
  }

  /** DummySkill: cooldown 1 of 1, so always ready, and never doing anything. */
  function Dummy(): (s: Skill)
    ensures s.dummy && IsReady(s)
  {
    Skill(1, 1, NullFn, None, true)
  }

  predicate IsReady(s: Skill)
  {
    s.cd >= s.maxCd
  }

  /** change_cd: shift the cooldown by delta and clamp it into [0, max_cd]; a dummy ignores it. */
  function ChangeCd(s: Skill, delta: int): (r: Skill)
    ensures r == s.(cd := r.cd)
    ensures s.dummy ==> r == s
    ensures !s.dummy && s.maxCd >= 0 ==> 0 <= r.cd <= s.maxCd
    ensures !s.dummy && 0 <= s.cd + delta <= s.maxCd ==> r.cd == s.cd + delta
    ensures !s.dummy && s.cd + delta < 0 ==> r.cd == 0
    ensures !s.dummy && 0 <= s.maxCd < s.cd + delta ==> r.cd == s.maxCd
  {
    if s.dummy then s
    else
      var c := s.cd + delta;
      s.(cd := if c < 0 then 0 else if c > s.maxCd then s.maxCd else c)
  }

  /** Skill.update: one turn of recovery, never past max_cd. */
  function Tick(s: Skill): (r: Skill)
    ensures r == s.(cd := r.cd)
    ensures s.dummy || s.cd >= s.maxCd ==> r == s
    ensures !s.dummy && s.cd < s.maxCd ==> r.cd == s.cd + 1
  {
    if s.dummy || s.cd >= s.maxCd then s else s.(cd := s.cd + 1)
  }

  function ResetCd(s: Skill): (r: Skill)
    ensures s.dummy ==> r == s
    ensures !s.dummy ==> r == s.(cd := 0)
  {
    if s.dummy then s else s.(cd := 0)
  }

  function Ticks(s: Skill, n: nat): Skill
    decreases n
  {
    if n == 0 then s else Ticks(Tick(s), n - 1)
  }

  /** From a fresh reset, a skill is ready after exactly max_cd turns and not one turn earlier. */
  lemma {:induction false} ReadyAfterMaxCd(s: Skill, n: nat)
    requires !s.dummy && 0 <= s.cd <= s.maxCd
    ensures Ticks(s, n).cd == if s.cd + n < s.maxCd then s.cd + n else s.maxCd
    ensures IsReady(Ticks(s, n)) <==> n >= s.maxCd - s.cd
    ensures Ticks(s, n) == s.(cd := Ticks(s, n).cd)
    decreases n
  {
    if n > 0 {
      ReadyAfterMaxCd(Tick(s), n - 1);
    }
  }

  /** Every cooldown operation leaves a dummy skill as it was. */
  lemma DummyInert(s: Skill, delta: int, n: nat)
    requires s.dummy
    ensures ChangeCd(s, delta) == s && ResetCd(s) == s && Ticks(s, n) == s
    decreases n
  {
    if n > 0 {
      DummyInert(Tick(s), delta, n - 1);
    }
  }

  /** ChangeCd applied to every skill of a list. */
  function ChangeAllCd(skills: seq<Skill>, delta: int): (r: seq<Skill>)
    ensures |r| == |skills|
    ensures forall i :: 0 <= i < |skills| ==> r[i] == ChangeCd(skills[i], delta)
  {
    seq(|skills|, i requires 0 <= i < |skills| => ChangeCd(skills[i], delta))
  }

  function TickAll(skills: seq<Skill>): (r: seq<Skill>)
    ensures |r| == |skills|
    ensures forall i :: 0 <= i < |skills| ==> r[i] == Tick(skills[i])
  {
    seq(|skills|, i requires 0 <= i < |skills| => Tick(skills[i]))
  }
}
