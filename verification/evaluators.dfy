/**
 * The AI's battlefield evaluators (ai/evaluators_optimized.py) that reduce
 * to comparisons: tactical urgency, the tactic advice, the heal target,
 * the skill priority and the skill validation.  Floating-point ratios are
 * exact `real`s here.  The random target searches (find_best_aoe_target,
 * find_strategic_move_target) are not modelled: their outcomes are
 * parameters of the members that consume them.
 */
module Evaluators {
  import opened Wrappers
  import opened Grid
  import opened Text
  import opened Seqs

  /** The keyword lists that classify a skill by its (lower-cased) description. */
  const DamageWords: seq<string> := ["damage", "deals", "area", "explosion", "burst", "nova"]
  const HealWords: seq<string> := ["heal", "restore", "regenerate", "mend"]
  const BuffWords: seq<string> := ["grants", "shield", "buff", "enhance", "armor", "resist"]
  const MoveWords: seq<string> := ["teleport", "blink", "move", "dash", "rush"]

  /** A general's health bar. */
  datatype Health = Health(hp: int, maxHp: int)

  /** hp / max_hp, read as 1.0 when max_hp is not positive (the original's default). */
  function HealthRatio(h: Health): (r: real)
    ensures h.maxHp > 0 ==> r * h.maxHp as real == h.hp as real
    ensures h.maxHp <= 0 ==> r == 1.0
  {
    if h.maxHp > 0 then h.hp as real / h.maxHp as real else 1.0
  }

  /** What the evaluators count around a general: both health bars, the living minions of each side and the Manhattan distance between the generals. */
  datatype View = View(own: Health, enemy: Health, ourMinions: nat, enemyMinions: nat, distance: int)

  function Manhattan(a: Pos, b: Pos): (d: int)
    ensures d >= 0
  {
    (if a.0 >= b.0 then a.0 - b.0 else b.0 - a.0) + (if a.1 >= b.1 then a.1 - b.1 else b.1 - a.1)
  }

  // ---------------------------------------------------------------- urgency

  /** 40 below 30% health, 20 below 60%, otherwise nothing. */
  function HealthTerm(v: View): (t: int)
    ensures t == 40 <==> HealthRatio(v.own) < 0.3
    ensures t == 20 <==> 0.3 <= HealthRatio(v.own) < 0.6
    ensures t == 0 <==> HealthRatio(v.own) >= 0.6
  {
    if HealthRatio(v.own) < 0.3 then 40 else if HealthRatio(v.own) < 0.6 then 20 else 0
  }

  /** 30 when the enemy has over one and a half times our minions, 15 when it merely has more. */
  function OutnumberedTerm(v: View): (t: int)
    ensures t == 30 <==> 2 * v.enemyMinions > 3 * v.ourMinions
    ensures t == 15 <==> v.ourMinions < v.enemyMinions && 2 * v.enemyMinions <= 3 * v.ourMinions
    ensures t == 0 <==> v.enemyMinions <= v.ourMinions
  {
    if v.enemyMinions as real > v.ourMinions as real * 1.5 then 30
    else if v.enemyMinions > v.ourMinions then 15
    else 0
  }

  /** 25 when the enemy general is closer than 8 tiles. */
  function ProximityTerm(v: View): (t: int)
    ensures t == 25 <==> v.distance < 8
    ensures t == 0 <==> v.distance >= 8
  {
    if v.distance < 8 then 25 else 0
  }

  /** 15 when the enemy general is below half health. */
  function EnemyHealthTerm(v: View): (t: int)
    ensures t == 15 <==> HealthRatio(v.enemy) < 0.5
    ensures t == 0 <==> HealthRatio(v.enemy) >= 0.5
  {
    if HealthRatio(v.enemy) < 0.5 then 15 else 0
  }

  /** evaluate_tactical_urgency: the four terms added up and capped at 100. */
  function Urgency(v: View): (u: int)
    ensures 0 <= u <= 100
    ensures var sum := HealthTerm(v) + OutnumberedTerm(v) + ProximityTerm(v) + EnemyHealthTerm(v);
            u == if sum < 100 then sum else 100
  {
    var sum := HealthTerm(v) + OutnumberedTerm(v) + ProximityTerm(v) + EnemyHealthTerm(v);
    if sum < 100 then sum else 100
  }

  /** Losing health never makes the situation less urgent. */
  lemma UrgencyMonotone(v: View, hp: int)
    requires hp <= v.own.hp
    ensures Urgency(v.(own := v.own.(hp := hp))) >= Urgency(v)
  {
    var w := v.(own := v.own.(hp := hp));
    if v.own.maxHp > 0 {
      var m := v.own.maxHp as real;
      assert HealthRatio(w.own) * m <= HealthRatio(v.own) * m;
      assert HealthRatio(w.own) <= HealthRatio(v.own);
    }
  }

  // ---------------------------------------------------------------- tactic advice

  /**
   * should_use_tactical_command: nothing with fewer than three minions;
   * otherwise attack_general (5) when urgency is above 50, forward (1) when
   * we have over 1.2 times the enemy's minions within 15 tiles of its
   * general, defend_general (6) below 60% health; the first that applies wins.
   */
  function ShouldCommand(v: View): (r: (bool, int))
    ensures r.0 <==> r.1 != -1
    ensures r.0 ==> v.ourMinions >= 3 && r.1 in {5, 1, 6}
    ensures r.1 == 5 <==> v.ourMinions >= 3 && Urgency(v) > 50
    ensures r.1 == 1 <==> v.ourMinions >= 3 && Urgency(v) <= 50 && 5 * v.ourMinions > 6 * v.enemyMinions && v.distance < 15
    ensures r.1 == 6 <==> v.ourMinions >= 3 && Urgency(v) <= 50 && !(5 * v.ourMinions > 6 * v.enemyMinions && v.distance < 15) && 5 * v.own.hp < 3 * v.own.maxHp
  {
    if v.ourMinions < 3 then (false, -1)
    else if Urgency(v) > 50 then (true, 5)
    else if v.ourMinions as real > v.enemyMinions as real * 1.2 && v.distance < 15 then (true, 1)
    else if v.own.hp as real < v.own.maxHp as real * 0.6 then (true, 6)
    else (false, -1)
  }

  // ---------------------------------------------------------------- heal target

  /** A minion as the heal search sees it. */
  datatype Patient = Patient(ally: bool, hp: int, maxHp: int, at: Pos)

  function Damage(p: Patient): int
  {
    p.maxHp - p.hp
  }

  predicate Hurt(p: Patient)
  {
    p.ally && p.hp < p.maxHp
  }

  /** The allied minions missing health, in roster order. */
  function Damaged(ms: seq<Patient>): (d: seq<Patient>)
    ensures forall x :: x in d <==> x in ms && Hurt(x)
  {
    Filter(ms, Hurt)
  }

  /** One step of a stable sort by damage, most damaged first: x goes before the first element it is not below. */
  function Insert(x: Patient, s: seq<Patient>): (r: seq<Patient>)
    ensures |r| == |s| + 1
    ensures forall y :: y in r <==> y == x || y in s
  {
    if s == [] || Damage(s[0]) <= Damage(x) then [x] + s
    else [s[0]] + Insert(x, s[1..])
  }

  /** `sort(key=damage, reverse=True)`: stable, so equally damaged minions keep their order. */
  function SortByDamage(s: seq<Patient>): (r: seq<Patient>)
    ensures |r| == |s|
    ensures forall y :: y in r <==> y in s
  {
    if s == [] then [] else Insert(s[0], SortByDamage(s[1..]))
  }

  /** The head of the sort is the first of the most damaged. */
  lemma {:induction false} SortHead(s: seq<Patient>) returns (i: nat)
    requires s != []
    ensures i < |s| && SortByDamage(s)[0] == s[i]
    ensures forall j :: 0 <= j < |s| ==> Damage(s[j]) <= Damage(s[i])
    ensures forall j :: 0 <= j < i ==> Damage(s[j]) < Damage(s[i])
    decreases |s|
  {
    var t := s[1..];
    if t == [] {
      i := 0;
    } else {
      var k := SortHead(t);
      var st := SortByDamage(t);
      assert forall j :: 1 <= j < |s| ==> s[j] == t[j - 1];
      if Damage(st[0]) <= Damage(s[0]) {
        i := 0;
      } else {
        i := k + 1;
      }
    }
  }

  /** The scan over the candidates: a minion takes over only with strictly more damage. */
  function Pick(best: Option<Pos>, most: int, cands: seq<Patient>): (r: (Option<Pos>, int))
    ensures r.1 >= most
    decreases |cands|
  {
    if cands == [] then (best, most)
    else if Damage(cands[0]) > most then Pick(Some(cands[0].at), Damage(cands[0]), cands[1..])
    else Pick(best, most, cands[1..])
  }

  /** Over candidates none of which is more damaged than the first, only the first can take over. */
  lemma {:induction false} PickFirst(best: Option<Pos>, most: int, cands: seq<Patient>)
    requires cands != []
    requires forall k :: 0 <= k < |cands| ==> Damage(cands[k]) <= Damage(cands[0])
    ensures Pick(best, most, cands) ==
              if Damage(cands[0]) > most then (Some(cands[0].at), Damage(cands[0])) else (best, most)
  {
    var m := if Damage(cands[0]) > most then Damage(cands[0]) else most;
    var b := if Damage(cands[0]) > most then Some(cands[0].at) else best;
    PickNone(b, m, cands[1..]);
  }

  lemma {:induction false} PickNone(best: Option<Pos>, most: int, cands: seq<Patient>)
    requires forall k :: 0 <= k < |cands| ==> Damage(cands[k]) <= most
    ensures Pick(best, most, cands) == (best, most)
    decreases |cands|
  {
    if cands != [] {
      PickNone(best, most, cands[1..]);
    }
  }

  /**
   * find_best_heal_target: the general first, when hurt; then the five most
   * damaged allied minions, each taking over only with strictly more damage.
   */
  function HealTarget(own: Health, at: Pos, ms: seq<Patient>): (r: (Option<Pos>, int))
  {
    var (best, most) := if own.hp < own.maxHp then (Some(at), own.maxHp - own.hp) else (None, 0);
    var sorted := SortByDamage(Damaged(ms));
    Pick(best, most, if |sorted| <= 5 then sorted else sorted[..5])
  }

  /**
   * The heal target is the general when it is hurt at least as badly as
   * every damaged minion, otherwise the first of the most damaged minions;
   * nothing (with 0) when nobody is hurt.  The cut to five never matters.
   */
  lemma HealTargetIsWorst(own: Health, at: Pos, ms: seq<Patient>)
    ensures var r := HealTarget(own, at, ms);
            var d := Damaged(ms);
            var gd := if own.hp < own.maxHp then own.maxHp - own.hp else 0;
            && (r.0 == None <==> own.hp >= own.maxHp && d == [])
            && (r.0 == None ==> r.1 == 0)
            && (forall j :: 0 <= j < |d| ==> Damage(d[j]) <= r.1)
            && r.1 >= gd
            && (r.1 == gd ==> r.0 == if own.hp < own.maxHp then Some(at) else None)
            && (r.1 > gd ==>
                  exists i :: 0 <= i < |d| && r == (Some(d[i].at), Damage(d[i])) && Damage(d[i]) > gd &&
                              forall j :: 0 <= j < i ==> Damage(d[j]) < Damage(d[i]))
  {
    var d := Damaged(ms);
    var r := HealTarget(own, at, ms);
    var gd := if own.hp < own.maxHp then own.maxHp - own.hp else 0;
    var best := if own.hp < own.maxHp then Some(at) else None;
    if d == [] {
      assert r == (best, gd);
    } else {
      var i := HealTargetPicked(own, at, ms);
      assert Hurt(d[i]);
    }
  }

  /** With someone damaged, only the first of the most damaged can take over from the general. */
  lemma HealTargetPicked(own: Health, at: Pos, ms: seq<Patient>) returns (i: nat)
    requires Damaged(ms) != []
    ensures var d := Damaged(ms);
            && i < |d|
            && (forall j :: 0 <= j < |d| ==> Damage(d[j]) <= Damage(d[i]))
            && (forall j :: 0 <= j < i ==> Damage(d[j]) < Damage(d[i]))
            && var gd := if own.hp < own.maxHp then own.maxHp - own.hp else 0;
               HealTarget(own, at, ms) ==
                 if Damage(d[i]) > gd then (Some(d[i].at), Damage(d[i]))
                 else (if own.hp < own.maxHp then Some(at) else None, gd)
  {
    var d := Damaged(ms);
    var (best, most) := if own.hp < own.maxHp then (Some(at), own.maxHp - own.hp) else (None, 0);
    var sorted := SortByDamage(d);
    var cands := if |sorted| <= 5 then sorted else sorted[..5];
    i := SortHead(d);
    assert forall k :: 0 <= k < |cands| ==> cands[k] in sorted && cands[k] in d;
    assert forall k :: 0 <= k < |cands| ==> Damage(cands[k]) <= Damage(cands[0]) by {
      forall k | 0 <= k < |cands|
        ensures Damage(cands[k]) <= Damage(cands[0])
      {
        var j :| 0 <= j < |d| && d[j] == cands[k];
      }
    }
    PickFirst(best, most, cands);
    assert cands[0] == d[i];
  }

  // ---------------------------------------------------------------- skill priority

  /**
   * evaluate_skill_priority_with_cooldowns.  `aoe` is what the random AoE
   * search returned (its target and score) and `goal` what the random
   * movement search returned; both are used only by the branches that call
   * those searches.  A skill is classified by the first keyword list its
   * description matches: damage, heal, buff, movement, else unknown.
   */
  function SkillPriority(ready: bool, desc: string, v: View, at: Pos,
                         aoe: (Option<Pos>, real), goal: Pos): (r: (real, bool))
    ensures !ready ==> r == (0.0, false)
    ensures r.1 ==> r.0 >= 16.0
    ensures ready && !AnyIn(DamageWords, desc) && AnyIn(HealWords, desc) ==>
              (r.1 <==> HealthRatio(v.own) < 0.8) &&
              (r.1 ==> 46.0 < r.0 && (v.own.hp >= 0 ==> r.0 <= 70.0)) &&
              (!r.1 ==> r.0 == 0.0)
    ensures (ready && !AnyIn(DamageWords, desc) && !AnyIn(HealWords, desc) &&
             !AnyIn(BuffWords, desc) && !AnyIn(MoveWords, desc)) ==> r == (16.0, true)
    ensures ready && AnyIn(DamageWords, desc) ==> (r.1 <==> aoe.0.Some? && aoe.1 > 1.0)
  {
    if !ready then (0.0, false)
    else
      var urgency := Urgency(v);
      if AnyIn(DamageWords, desc) then
        var priority := 40.0 + urgency as real * 0.2;
        if aoe.0.Some? && aoe.1 > 1.0 then (priority + aoe.1, true) else (0.0, false)
      else if AnyIn(HealWords, desc) then
        if v.own.maxHp > 0 then
          var ratio := v.own.hp as real / v.own.maxHp as real;
          if ratio < 0.8 then (40.0 + (1.0 - ratio) * 30.0, true) else (0.0, false)
        else (0.0, false)
      else if AnyIn(BuffWords, desc) then
        var priority := 40.0 + urgency as real * 0.15;
        if urgency > 20 then (priority, true) else (priority * 0.7, false)
      else if AnyIn(MoveWords, desc) then
        var distance := Manhattan(goal, at);
        if distance > 5 then (40.0 + distance as real * 3.0, true) else (0.0, false)
      else (40.0 * 0.4, true)
  }

  // ---------------------------------------------------------------- validation

  /**
   * validate_skill_effectiveness.  `area` is the skill's area tiles at the
   * target (None when it has no area), each given as the occupant's
   * allegiance: None for an empty tile, Some(true) for an ally of the
   * general, Some(false) otherwise.
   */
  function Validate(ready: bool, inside: bool, area: Option<seq<Option<bool>>>, desc: string): (r: (bool, int))
    ensures !ready ==> r == (false, 0)
    ensures ready && !inside ==> r == (false, 0)
    ensures ready && inside && (area.None? || area.value == []) ==> r == (false, 0)
    ensures ready && inside && area.Some? && area.value != [] ==>
              if AnyIn(DamageWords, desc) then
                (r.0 <==> Some(false) in area.value) && (r.0 ==> r.1 == Count(area.value, Some(false)) && r.1 >= 1)
              else r.0
  {
    if !ready then (false, 0)
    else if !inside then (false, 0)
    else if area.None? || area.value == [] then (false, 0)
    else if AnyIn(DamageWords, desc) then
      var enemies := Enemies(area.value);
      if enemies > 0 then (true, enemies) else (false, 0)
    else if AnyIn(HealWords, desc) then (true, 30)
    else (true, 20)
  }

  /** The occupied tiles holding a non-ally, counted one by one as the original's generator does. */
  function Enemies(tiles: seq<Option<bool>>): (n: nat)
    ensures n == Count(tiles, Some(false))
  {
    if tiles == [] then 0 else (if tiles[0].Some? && !tiles[0].value then 1 else 0) + Enemies(tiles[1..])
  }
}
