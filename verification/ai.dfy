/**
 * The rule-based AI's bookkeeping (ai/ai_controller_optimized.py): the
 * phase and strategy tables, the spam filter with its bounded histories,
 * the tactic-persistence window, the skill cooldown, the tactic/skill
 * synergy table, the emergency move and the fallback chain of
 * decide_action.  The stages that sample at random or reason with
 * centroids (skill targeting, strategic movement) are parameters: what
 * they return, and what they leave in the AI's memory.
 */
module Ai {
  import opened Wrappers
  import opened Grid
  import opened Text
  import opened Seqs
  import opened Evaluators
  import Battle

  const MaxActionHistory: nat := 15
  const MaxFlagHistory: nat := 15
  const MinTacticDuration: int := 15
  const MaxTacticDuration: int := 45
  const SkillCooldownMin: int := 2
  /** What `last_skill_use.get(i, -999)` reads for a skill never used. */
  const NeverUsed: int := -999
  const TacticalThreshold: int := 30

  /** An order the AI writes; Blank is the empty (falsy) action. */
  datatype Command = Blank | FlagCmd(x: int, y: int) | SkillCmd(i: nat, x: int, y: int) | TacticCmd(i: nat)

  /** The line the AI sends for a command. */
  function Render(c: Command): string
  {
    match c
    case Blank => ""
    case FlagCmd(x, y) => Battle.AiFlagText(x, y)
    case SkillCmd(i, x, y) => Battle.AiSkillText(i, x, y)
    case TacticCmd(i) => Battle.TacticText(i)
  }

  /** Of everything the AI sends, the battle hears only its tactic orders: flag and skill lines do not match the battle's patterns. */
  lemma OnlyTacticsHeard(c: Command)
    requires c.TacticCmd? ==> c.i < 10
    ensures c.FlagCmd? || c.SkillCmd? ==> Battle.Parse(Render(c)) == Ok(Battle.Ignored)
    ensures c.TacticCmd? ==> Battle.Parse(Render(c)) == Ok(Battle.Choose(c.i))
  {
    match c
    case Blank =>
    case FlagCmd(x, y) => Battle.AiFlagIgnored(x, y);
    case SkillCmd(i, x, y) => Battle.AiSkillIgnored(i, x, y);
    case TacticCmd(i) => Battle.TacticRoundTrip(i);
  }

  /** The lines the AI evidently means to send: the battle's own flag and skill syntax. */
  function RenderFixed(c: Command): string
  {
    match c
    case Blank => ""
    case FlagCmd(x, y) => Battle.FlagText(x, y)
    case SkillCmd(i, x, y) => Battle.SkillText(i, x, y)
    case TacticCmd(i) => Battle.TacticText(i)
  }

  /** The order a command stands for; the empty action stands for none. */
  function Meant(c: Command): Battle.Order
  {
    match c
    case Blank => Battle.Ignored
    case FlagCmd(x, y) => Battle.Flag(x, y)
    case SkillCmd(i, x, y) => Battle.Cast(i, x, y)
    case TacticCmd(i) => Battle.Choose(i)
  }

  /** Written in the battle's syntax, every command (with a one-digit index) reaches the battle as the order it stands for. */
  lemma EveryCommandHeard(c: Command)
    requires c.SkillCmd? ==> c.i < 10
    requires c.TacticCmd? ==> c.i < 10
    ensures Battle.Parse(RenderFixed(c)) == Ok(Meant(c))
  {
    match c
    case Blank => Battle.ParseIgnored("");
    case FlagCmd(x, y) => Battle.FlagRoundTrip(x, y);
    case SkillCmd(i, x, y) => Battle.SkillRoundTrip(i, x, y);
    case TacticCmd(i) => Battle.TacticRoundTrip(i);
  }

  /**
   * How turns are counted.  The original uses `len(last_actions)`, which
   * stops growing once the history is full (Capped); Counted is the number
   * of actions ever recorded.
   */
  datatype Clocking = Capped | Counted

  /**
   * The controller's memory: last_actions, last_flag_positions,
   * last_skill_use, current_tactic with tactic_start_turn, and
   * last_flag_position with consecutive_same_flag_count; `recorded` counts
   * every action recorded so far.
   */
  datatype Memory = Memory(
    actions: seq<Command>,
    flags: seq<Pos>,
    skillUse: map<nat, int>,
    tactic: Option<int>,
    tacticStart: int,
    lastFlag: Option<Pos>,
    sameFlag: int,
    recorded: nat)

  const Fresh: Memory := Memory([], [], map[], None, 0, None, 0, 0)

  function Now(m: Memory, k: Clocking): int
  {
    match k
    case Capped => |m.actions|
    case Counted => m.recorded
  }

  /** The bounds the controller keeps. */
  predicate Sane(m: Memory)
  {
    && |m.actions| <= MaxActionHistory
    && |m.actions| <= m.recorded
    && (m.tactic.Some? ==> 1 <= m.tacticStart <= m.recorded)
    && (forall i :: i in m.skillUse ==> m.skillUse[i] <= m.recorded)
  }

  // ---------------------------------------------------------------- phases and strategies

  datatype GamePhase = EarlyGame | PositioningPhase | CombatPhase | EndGame

  /** What the strategy tables read: the turn, the evaluators' view and whether our minions are spread over 1.2 times as wide as the enemy's. */
  datatype Situation = Situation(turn: int, view: View, spreadOut: bool)

  /** The battle phase, decided in this order: turn, either general's health, distance. */
  function PhaseOf(st: Situation): (p: GamePhase)
    ensures p == EarlyGame <==> st.turn < 50
    ensures p == EndGame <==> st.turn >= 50 && (HealthRatio(st.view.own) < 0.3 || HealthRatio(st.view.enemy) < 0.3)
    ensures p == CombatPhase ==> st.view.distance < 15
    ensures p == PositioningPhase ==> st.view.distance >= 15
  {
    if st.turn < 50 then EarlyGame
    else if HealthRatio(st.view.own) < 0.3 || HealthRatio(st.view.enemy) < 0.3 then EndGame
    else if st.view.distance < 15 then CombatPhase
    else PositioningPhase
  }

  datatype Kind = Tactical | SkillAction | Move

  datatype Plan =
    | AggressiveDeployment | Positioning | Advance | Consolidate | Flank
    | Aggressive | Defensive | BalancedCombat | FinishHim | Survive

  datatype Strategy = Strategy(plan: Plan, priority: seq<Kind>)

  /** The three kinds of action, each once. */
  predicate Ordering(p: seq<Kind>)
  {
    |p| == 3 && multiset(p) == multiset{Tactical, SkillAction, Move}
  }

  /** _determine_optimal_strategy with the four phase tables. */
  function StrategyOf(st: Situation): (s: Strategy)
    ensures Ordering(s.priority)
    ensures PhaseOf(st) == EarlyGame && st.view.ourMinions < 5 ==>
              s.plan == AggressiveDeployment && s.priority[0] == Tactical
    ensures s.plan in {Aggressive, FinishHim, Survive, BalancedCombat} <==> s.priority[0] == SkillAction
  {
    var v := st.view;
    match PhaseOf(st)
    case EarlyGame =>
      if v.ourMinions < 5 then Strategy(AggressiveDeployment, [Tactical, Move, SkillAction])
      else Strategy(Positioning, [Move, Tactical, SkillAction])
    case PositioningPhase =>
      if v.distance > 20 then Strategy(Advance, [Move, Tactical, SkillAction])
      else if st.spreadOut then Strategy(Consolidate, [Tactical, Move, SkillAction])
      else Strategy(Flank, [Move, Tactical, SkillAction])
    case CombatPhase =>
      if Urgency(v) > 60 then Strategy(Aggressive, [SkillAction, Tactical, Move])
      else if HealthRatio(v.own) < HealthRatio(v.enemy) then Strategy(Defensive, [Tactical, SkillAction, Move])
      else Strategy(BalancedCombat, [SkillAction, Tactical, Move])
    case EndGame =>
      if HealthRatio(v.own) > HealthRatio(v.enemy) then Strategy(FinishHim, [SkillAction, Move, Tactical])
      else Strategy(Survive, [SkillAction, Tactical, Move])
  }

  // ---------------------------------------------------------------- spam filter

  /** The first word of the command line, as `action.strip().split()[0]` reads it. */
  function ActionType(c: Command): string
  {
    match c
    case Blank => ""
    case FlagCmd(_, _) => "flag"
    case SkillCmd(i, _, _) => "skill" + Show(i)
    case TacticCmd(i) => "tactic" + Show(i)
  }

  predicate Near(a: Pos, b: Pos)
  {
    -2 <= a.0 - b.0 <= 2 && -2 <= a.1 - b.1 <= 2
  }

  /** The flag was placed at exactly p among the last five. */
  predicate Repeated(flags: seq<Pos>, p: Pos)
  {
    p in LastN(flags, 5)
  }

  /** One of the last eight flags is within two tiles of p on both axes. */
  predicate Crowded(flags: seq<Pos>, p: Pos)
  {
    exists q :: q in LastN(flags, 8) && Near(q, p)
  }

  /** Appending to a bounded history: the oldest entry goes once there are more than fifteen. */
  function Remember(flags: seq<Pos>, p: Pos): (r: seq<Pos>)
    ensures |flags| <= MaxFlagHistory ==> |r| <= MaxFlagHistory
    ensures |r| >= 1 && r[|r| - 1] == p
    ensures p in LastN(r, 8)
  {
    var f := flags + [p];
    if |f| > MaxFlagHistory then f[1..] else f
  }

  function FlagCount(s: seq<Command>): (n: nat)
    ensures n <= |s|
  {
    if s == [] then 0 else (if s[0].FlagCmd? then 1 else 0) + FlagCount(s[1..])
  }

  /** How often the very same command appears among the last ten actions. */
  function Frequency(m: Memory, c: Command): nat
  {
    Count(LastN(m.actions, 10), c)
  }

  /**
   * The flag part of _is_action_spam: a flag near a recent one is rejected
   * with the memory unchanged; otherwise it is remembered, and then
   * rejected anyway when two of the last fifteen actions were flags.
   */
  function FlagGate(m: Memory, p: Pos): (r: (bool, Memory))
    ensures Repeated(m.flags, p) || Crowded(m.flags, p) ==> r == (true, m)
    ensures !Repeated(m.flags, p) && !Crowded(m.flags, p) ==>
              r.1 == m.(flags := Remember(m.flags, p)) && (r.0 <==> FlagCount(LastN(m.actions, 15)) >= 2)
  {
    if Repeated(m.flags, p) || Crowded(m.flags, p) then (true, m)
    else (FlagCount(LastN(m.actions, 15)) >= 2, m.(flags := Remember(m.flags, p)))
  }

  /**
   * _is_action_spam as written: the frequency rules compare the first word
   * with "skill" and "tactic", but that word carries the index
   * ("tactic5"), so only the flag rule can ever fire.
   */
  function SpamAsWritten(m: Memory, c: Command): (r: (bool, Memory))
    ensures c.TacticCmd? || c.SkillCmd? ==> r == (false, m)
  {
    if c.Blank? then (true, m)
    else
      var (flagged, m') := if c.FlagCmd? then FlagGate(m, (c.x, c.y)) else (false, m);
      if flagged then (true, m')
      else
        var t := ActionType(c);
        var f := Frequency(m, c);
        ((t == "flag" && f >= 6) || (t == "skill" && f >= 4) || (t == "tactic" && f >= 3), m')
  }

  /** Three identical tactic orders in the last ten actions do not stop a fourth. */
  lemma RepeatedTacticPasses(i: nat)
    ensures var m := Fresh.(actions := [TacticCmd(i), TacticCmd(i), TacticCmd(i)]);
            Frequency(m, TacticCmd(i)) == 3 && !SpamAsWritten(m, TacticCmd(i)).0
  {
    var s := [TacticCmd(i), TacticCmd(i), TacticCmd(i)];
    assert LastN(s, 10) == s;
    assert s[1..] == [TacticCmd(i), TacticCmd(i)] && s[1..][1..] == [TacticCmd(i)] && s[1..][1..][1..] == [];
    assert Count(s, TacticCmd(i)) == 3;
  }

  /**
   * _is_action_spam with the frequency rules keyed on the kind of command:
   * an empty action is spam; a flag goes through FlagGate (and is spam at
   * six repeats); the same skill order is spam at four repeats in the last
   * ten actions, the same tactic order at three.  Only flags touch the
   * memory.
   */
  function IsSpam(m: Memory, c: Command): (r: (bool, Memory))
    ensures r.1.actions == m.actions
    ensures c.Blank? ==> r == (true, m)
    ensures c.TacticCmd? ==> r == (Frequency(m, c) >= 3, m)
    ensures c.SkillCmd? ==> r == (Frequency(m, c) >= 4, m)
    ensures c.FlagCmd? ==>
              var g := FlagGate(m, (c.x, c.y));
              r == (g.0 || Frequency(m, c) >= 6, g.1)
  {
    if c.Blank? then (true, m)
    else
      var (flagged, m') := if c.FlagCmd? then FlagGate(m, (c.x, c.y)) else (false, m);
      if flagged then (true, m')
      else
        var f := Frequency(m, c);
        ((c.FlagCmd? && f >= 6) || (c.SkillCmd? && f >= 4) || (c.TacticCmd? && f >= 3), m')
  }

  /**
   * On flags the two rule sets agree: the flag rules read the word "flag",
   * which the command's first word is.  They differ only on skill and
   * tactic orders, which as written are never spam.
   */
  lemma FlagSpamAgrees(m: Memory, x: int, y: int)
    ensures SpamAsWritten(m, FlagCmd(x, y)) == IsSpam(m, FlagCmd(x, y))
  {
    assert ActionType(FlagCmd(x, y)) == "flag";
  }

  // ---------------------------------------------------------------- recording

  /**
   * The debugging counter of identical consecutive flags.  Its `else`
   * belongs to the `>= 5` test, so a repeated flag sets the count to 2 and
   * straight back to 1: the history-clearing branch is never reached.
   */
  function SameFlagStep(m: Memory, p: Pos): (r: Memory)
    ensures m.sameFlag <= 1 ==> r == m.(sameFlag := 1, lastFlag := Some(p))
  {
    var count := if m.lastFlag == Some(p) then m.sameFlag + 1 else m.sameFlag;
    if count >= 5 then m.(flags := [], sameFlag := 0)
    else m.(sameFlag := 1, lastFlag := Some(p))
  }

  /**
   * _record_action: append the action, update the flag counter, start the
   * persistence window when a different tactic is ordered (at the clock
   * read after the append), then drop the oldest action beyond fifteen.
   */
  function Record(m: Memory, c: Command, k: Clocking): (r: Memory)
    ensures r.recorded == m.recorded + 1
    ensures |m.actions| <= MaxActionHistory ==>
              |r.actions| == (if |m.actions| < MaxActionHistory then |m.actions| + 1 else MaxActionHistory)
    ensures |r.actions| >= 1 && r.actions[|r.actions| - 1] == c
    ensures r.skillUse == m.skillUse
    ensures !c.TacticCmd? ==> r.tactic == m.tactic && r.tacticStart == m.tacticStart
    ensures c.TacticCmd? ==> r.tactic == Some(c.i)
  {
    var m1 := m.(actions := m.actions + [c], recorded := m.recorded + 1);
    var m2 := if c.FlagCmd? then SameFlagStep(m1, (c.x, c.y)) else m1;
    var m3 := if c.TacticCmd? && m2.tactic != Some(c.i) then m2.(tactic := Some(c.i), tacticStart := Now(m2, k)) else m2;
    if |m3.actions| > MaxActionHistory then m3.(actions := m3.actions[1..]) else m3
  }

  /** Recording keeps the controller's bounds, whichever clock it reads. */
  lemma RecordSane(m: Memory, c: Command, k: Clocking)
    requires Sane(m)
    ensures Sane(Record(m, c, k))
  {
  }

  /** The counter of identical flags never gets past one. */
  lemma SameFlagStuck(m: Memory, c: Command, k: Clocking)
    requires m.sameFlag <= 1
    ensures Record(m, c, k).sameFlag <= 1
    ensures Record(m, c, k).flags == m.flags
  {
  }

  /** Recording several actions in turn. */
  function RecordAll(m: Memory, cs: seq<Command>, k: Clocking): (r: Memory)
    decreases |cs|
  {
    if cs == [] then m else RecordAll(Record(m, cs[0], k), cs[1..], k)
  }

  predicate NoTactic(cs: seq<Command>)
  {
    forall j :: 0 <= j < |cs| ==> !cs[j].TacticCmd?
  }

  /** What recording leaves alone, and the bounds it keeps. */
  lemma {:induction false} RecordAllKeeps(m: Memory, cs: seq<Command>, k: Clocking)
    requires Sane(m)
    ensures var r := RecordAll(m, cs, k);
            && Sane(r)
            && r.recorded == m.recorded + |cs|
            && r.skillUse == m.skillUse
            && (|m.actions| == MaxActionHistory ==> |r.actions| == MaxActionHistory)
            && (NoTactic(cs) ==> r.tactic == m.tactic && r.tacticStart == m.tacticStart)
            && (m.tactic.Some? ==> r.tactic.Some?)
    decreases |cs|
  {
    if cs != [] {
      RecordSane(m, cs[0], k);
      assert NoTactic(cs) ==> NoTactic(cs[1..]) by {
        assert forall j :: 1 <= j < |cs| ==> cs[1..][j - 1] == cs[j];
      }
      RecordAllKeeps(Record(m, cs[0], k), cs[1..], k);
    }
  }

  // ---------------------------------------------------------------- cooldown and persistence

  /** _check_skill_cooldown: at least two turns since the skill was last used (-999 when never). */
  function CooldownOver(m: Memory, i: nat, k: Clocking): (ok: bool)
    ensures i !in m.skillUse ==> ok
  {
    Now(m, k) - (if i in m.skillUse then m.skillUse[i] else NeverUsed) >= SkillCooldownMin
  }

  /** _mark_skill_used. */
  function MarkUsed(m: Memory, i: nat, k: Clocking): (r: Memory)
    ensures !CooldownOver(r, i, k)
    ensures forall j :: j != i ==> (CooldownOver(r, j, k) <==> CooldownOver(m, j, k))
  {
    m.(skillUse := m.skillUse[i := Now(m, k)])
  }

  /**
   * The cooldown as written: a skill used once the history is full is
   * never allowed again, however many actions follow, because the clock no
   * longer moves.
   */
  lemma CooldownNeverEnds(m: Memory, i: nat, cs: seq<Command>)
    requires Sane(m) && |m.actions| == MaxActionHistory
    ensures !CooldownOver(RecordAll(MarkUsed(m, i, Capped), cs, Capped), i, Capped)
  {
    RecordAllKeeps(MarkUsed(m, i, Capped), cs, Capped);
  }

  /** With the counted clock the same skill is allowed again two actions later. */
  lemma CooldownEnds(m: Memory, i: nat, cs: seq<Command>)
    requires Sane(m) && |cs| >= 2
    ensures CooldownOver(RecordAll(MarkUsed(m, i, Counted), cs, Counted), i, Counted)
  {
    RecordAllKeeps(MarkUsed(m, i, Counted), cs, Counted);
  }

  /** The persistence window: an active tactic younger than fifteen turns may not change. */
  predicate Persisting(m: Memory, k: Clocking)
  {
    m.tactic.Some? && Now(m, k) - m.tacticStart < MinTacticDuration
  }

  /** As written, once a tactic is chosen the window never closes: the age is at most fourteen. */
  lemma PersistenceNeverEnds(m: Memory, cs: seq<Command>)
    requires Sane(m) && m.tactic.Some?
    ensures Persisting(RecordAll(m, cs, Capped), Capped)
  {
    RecordAllKeeps(m, cs, Capped);
  }

  /** With the counted clock the window closes after fifteen actions that order no tactic. */
  lemma PersistenceEnds(m: Memory, cs: seq<Command>)
    requires Sane(m) && NoTactic(cs) && |cs| >= MinTacticDuration
    ensures !Persisting(RecordAll(m, cs, Counted), Counted)
  {
    RecordAllKeeps(m, cs, Counted);
  }

  /**
   * _try_tactical_action: nothing while the window is open; otherwise the
   * plan's own tactic (when the general has it and it is not the active one
   * unless 45 turns have passed), then the evaluators' advice when urgency
   * reaches the threshold; each only if it is not spam.  The spam test is
   * the intended IsSpam: as written (SpamAsWritten) no tactic order is
   * ever spam, so the program as written can repeat a tactic this stage
   * holds back.
   */
  function TryTactical(m: Memory, k: Clocking, plan: Plan, st: Situation, numTactics: nat): (r: Option<Command>)
    ensures Persisting(m, k) ==> r == None
    ensures r.Some? ==> r.value.TacticCmd? && !IsSpam(m, r.value).0
    ensures r.Some? && m.tactic == Some(r.value.i) ==> Now(m, k) - m.tacticStart >= MaxTacticDuration
  {
    var age := Now(m, k) - m.tacticStart;
    if m.tactic.Some? && age < MinTacticDuration then None
    else
      var force := m.tactic.Some? && age >= MaxTacticDuration;
      var v := st.view;
      var wanted: Option<nat> :=
        match plan
        case Aggressive => if v.distance < 12 && numTactics > 5 then Some(5) else None
        case FinishHim => if v.distance < 12 && numTactics > 5 then Some(5) else None
        case Defensive => if HealthRatio(v.own) < 0.7 && numTactics > 6 then Some(6) else None
        case Consolidate => if numTactics > 4 then Some(4) else None
        case AggressiveDeployment => if numTactics > 3 then Some(3) else None
        case _ => None;
      if wanted.Some? && (force || m.tactic != Some(wanted.value)) && !IsSpam(m, TacticCmd(wanted.value)).0 then
        Some(TacticCmd(wanted.value))
      else
        var (go, index) := ShouldCommand(v);
        if go && Urgency(v) >= TacticalThreshold && (force || m.tactic != Some(index)) && !IsSpam(m, TacticCmd(index as nat)).0 then
          Some(TacticCmd(index as nat))
        else None
  }

  /** As written, the AI's main tactical stage falls silent for good once it has ordered any tactic. */
  lemma TacticalStageFrozen(m: Memory, cs: seq<Command>, plan: Plan, st: Situation, numTactics: nat)
    requires Sane(m) && m.tactic.Some?
    ensures TryTactical(RecordAll(m, cs, Capped), Capped, plan, st, numTactics) == None
  {
    PersistenceNeverEnds(m, cs);
  }

  /**
   * _get_smart_tactical_action: go_sides early with three minions, attack
   * in combat within 20 tiles, forward when positioning beyond 15 tiles
   * after turn 60; each only if not among the last 10, 15 or 20 actions.
   * As in TryTactical, the spam test is the intended IsSpam; as written it
   * never rejects a tactic order.
   */
  function SmartTactic(m: Memory, st: Situation, numTactics: nat): (r: Option<Command>)
    ensures r.Some? ==> r.value in {TacticCmd(3), TacticCmd(5), TacticCmd(1)} && r.value.i < numTactics
    ensures r == Some(TacticCmd(3)) ==> PhaseOf(st) == EarlyGame && TacticCmd(3) !in LastN(m.actions, 10)
    ensures r == Some(TacticCmd(5)) ==> PhaseOf(st) == CombatPhase && TacticCmd(5) !in LastN(m.actions, 15)
    ensures r == Some(TacticCmd(1)) ==> PhaseOf(st) == PositioningPhase && TacticCmd(1) !in LastN(m.actions, 20)
  {
    var v := st.view;
    match PhaseOf(st)
    case EarlyGame =>
      if st.turn < 30 && v.ourMinions >= 3 && numTactics > 3 && TacticCmd(3) !in LastN(m.actions, 10)
         && !IsSpam(m, TacticCmd(3)).0
      then Some(TacticCmd(3)) else None
    case CombatPhase =>
      if v.distance < 20 && numTactics > 5 && TacticCmd(5) !in LastN(m.actions, 15) && !IsSpam(m, TacticCmd(5)).0
      then Some(TacticCmd(5)) else None
    case PositioningPhase =>
      if st.turn > 60 && v.distance > 15 && numTactics > 1 && TacticCmd(1) !in LastN(m.actions, 20)
         && !IsSpam(m, TacticCmd(1)).0
      then Some(TacticCmd(1)) else None
    case EndGame => None
  }

  // ---------------------------------------------------------------- synergy

  /** The tactic/skill synergy table, one row per tactic index, keywords in table order; multipliers are exact. */
  const SynergyTable: seq<seq<(string, real)>> := [
    [("damage", 1.0), ("explosion", 1.0), ("area", 1.0), ("burst", 1.0), ("heal", 1.2), ("shield", 1.2), ("armor", 1.2)],
    [("damage", 1.3), ("explosion", 1.2), ("burst", 1.3), ("teleport", 1.2), ("blink", 1.2), ("move", 1.2)],
    [("heal", 1.4), ("shield", 1.4), ("armor", 1.4), ("teleport", 1.3), ("blink", 1.3)],
    [("area", 1.5), ("explosion", 1.5), ("damage", 1.3), ("burst", 1.4), ("heal", 1.1)],
    [("damage", 1.4), ("burst", 1.4), ("explosion", 1.2), ("heal", 1.3), ("shield", 1.3)],
    [("damage", 1.5), ("burst", 1.5), ("explosion", 1.4), ("teleport", 1.2), ("blink", 1.2)],
    [("heal", 1.5), ("shield", 1.5), ("armor", 1.5), ("damage", 1.2), ("burst", 1.2)]
  ]

  /** The multiplier of the first keyword of a row that the description contains, else 1.0. */
  function FirstMatch(row: seq<(string, real)>, desc: string): (r: real)
    ensures r == 1.0 || exists j :: 0 <= j < |row| && r == row[j].1
    decreases |row|
  {
    if row == [] then 1.0
    else if Contains(desc, row[0].0) then row[0].1
    else FirstMatch(row[1..], desc)
  }

  /** FirstMatch reads the first matching keyword, and 1.0 when there is none. */
  lemma {:induction false} FirstMatchIsFirst(row: seq<(string, real)>, desc: string) returns (i: int)
    ensures -1 <= i < |row|
    ensures i == -1 <==> forall j :: 0 <= j < |row| ==> !Contains(desc, row[j].0)
    ensures i == -1 ==> FirstMatch(row, desc) == 1.0
    ensures i >= 0 ==> Contains(desc, row[i].0) && FirstMatch(row, desc) == row[i].1 &&
                       forall j :: 0 <= j < i ==> !Contains(desc, row[j].0)
    decreases |row|
  {
    if row == [] {
      i := -1;
    } else if Contains(desc, row[0].0) {
      i := 0;
    } else {
      var k := FirstMatchIsFirst(row[1..], desc);
      assert forall j :: 1 <= j < |row| ==> row[1..][j - 1] == row[j];
      i := if k == -1 then -1 else k + 1;
    }
  }

  /** _get_tactic_skill_synergy: 1.0 without an active tactic or outside the table. */
  function Synergy(tactic: Option<int>, desc: string): (r: real)
    ensures tactic.None? ==> r == 1.0
    ensures 1.0 <= r <= 1.5
  {
    if tactic.None? || !(0 <= tactic.value < |SynergyTable|) then 1.0
    else
      FirstMatch(SynergyTable[tactic.value], desc)
  }

  // ---------------------------------------------------------------- emergency move

  const Directions: seq<Pos> := [(-1, 0), (1, 0), (0, -1), (0, 1), (-1, -1), (-1, 1), (1, -1), (1, 1)]

  /** `max(1, min(hi, v))`. */
  function Clamp(v: int, hi: int): (c: int)
    ensures hi >= 1 ==> 1 <= c <= hi
    ensures 1 <= v <= hi ==> c == v
  {
    if v > hi then (if hi < 1 then 1 else hi) else if v < 1 then 1 else v
  }

  /** One step from g kept one tile inside the border of a w by h battleground. */
  function StepInside(g: Pos, d: Pos, w: int, h: int): Pos
  {
    (Clamp(g.0 + d.0, w - 2), Clamp(g.1 + d.1, h - 2))
  }

  /**
   * The first loop of _emergency_action: the steps the spam filter lets
   * through, and the memory it leaves.  Only flags are tested, on which
   * IsSpam and the rules as written agree (FlagSpamAgrees).
   */
  function Survivors(m: Memory, g: Pos, w: int, h: int, ds: seq<Pos>): (r: (seq<Pos>, Memory))
    ensures forall p :: p in r.0 ==> exists d :: d in ds && p == StepInside(g, d, w, h)
    ensures r.1.actions == m.actions
    decreases |ds|
  {
    if ds == [] then ([], m)
    else
      var p := StepInside(g, ds[0], w, h);
      var spam := IsSpam(m, FlagCmd(p.0, p.1));
      var rest := Survivors(spam.1, g, w, h, ds[1..]);
      StepsFromTail(g, w, h, ds, rest.0);
      (if spam.0 then rest.0 else [p] + rest.0, rest.1)
  }

  /** A step taken from the tail of ds is a step taken from ds. */
  lemma StepsFromTail(g: Pos, w: int, h: int, ds: seq<Pos>, ps: seq<Pos>)
    requires ds != []
    requires forall p :: p in ps ==> exists d :: d in ds[1..] && p == StepInside(g, d, w, h)
    ensures forall p :: p in [StepInside(g, ds[0], w, h)] + ps ==> exists d :: d in ds && p == StepInside(g, d, w, h)
  {
    assert ds[0] in ds;
    forall p | p in ps ensures exists d :: d in ds && p == StepInside(g, d, w, h) {
      var d :| d in ds[1..] && p == StepInside(g, d, w, h);
      assert d in ds;
    }
  }

  /** The candidate closest to e (Manhattan), the first one on ties. */
  function Closest(ps: seq<Pos>, e: Pos): (p: Pos)
    requires ps != []
    ensures p in ps
    decreases |ps|
  {
    if |ps| == 1 then ps[0]
    else
      var rest := Closest(ps[1..], e);
      if Manhattan(ps[0], e) <= Manhattan(rest, e) then ps[0] else rest
  }

  /** The first step, ignoring spam, that actually moves. */
  function FirstMoved(g: Pos, w: int, h: int, ds: seq<Pos>): (r: Option<Pos>)
    ensures r.None? ==> forall d :: d in ds ==> StepInside(g, d, w, h) == g
    ensures r.Some? ==> r.value != g && exists d :: d in ds && r.value == StepInside(g, d, w, h)
    decreases |ds|
  {
    if ds == [] then None
    else if StepInside(g, ds[0], w, h) != g then Some(StepInside(g, ds[0], w, h))
    else FirstMoved(g, w, h, ds[1..])
  }

  /**
   * _emergency_action: the surviving step closest to the enemy general;
   * failing that the first step that moves at all; failing that one tile
   * right.  It is always a flag, and on any battleground at least three
   * tiles wide and high it lies inside the border.
   */
  function Emergency(m: Memory, g: Pos, e: Pos, w: int, h: int): (r: (Command, Memory))
    ensures r.0.FlagCmd?
    ensures r.1.actions == m.actions
    ensures w >= 3 && h >= 3 ==> 1 <= r.0.x <= w - 2 && 1 <= r.0.y <= h - 2
  {
    EmergencyAmong(m, g, e, w, h, Directions)
  }

  /** The emergency move over any list of steps that starts with one tile left. */
  function EmergencyAmong(m: Memory, g: Pos, e: Pos, w: int, h: int, ds: seq<Pos>): (r: (Command, Memory))
    requires ds != [] && ds[0] == (-1, 0)
    ensures r.0.FlagCmd?
    ensures r.1.actions == m.actions
    ensures w >= 3 && h >= 3 ==> 1 <= r.0.x <= w - 2 && 1 <= r.0.y <= h - 2
  {
    var (ps, m1) := Survivors(m, g, w, h, ds);
    if ps != [] then
      var b := Closest(ps, e);
      (FlagCmd(b.0, b.1), m1)
    else
      match FirstMoved(g, w, h, ds)
      case Some(p) => (FlagCmd(p.0, p.1), m1)
      case None =>
        assert StepInside(g, ds[0], w, h) == g;
        (FlagCmd(if w - 2 < g.0 + 1 then w - 2 else g.0 + 1, g.1), m1)
  }

  predicate UnitStep(d: Pos)
  {
    -1 <= d.0 <= 1 && -1 <= d.1 <= 1
  }

  /** Clamping never pulls two values further apart. */
  lemma ClampClose(a: int, b: int, hi: int)
    requires -2 <= a - b <= 2
    ensures -2 <= Clamp(a, hi) - Clamp(b, hi) <= 2
  {
  }

  lemma StepsNear(g: Pos, d1: Pos, d2: Pos, w: int, h: int)
    requires UnitStep(d1) && UnitStep(d2)
    ensures Near(StepInside(g, d1, w, h), StepInside(g, d2, w, h))
  {
    ClampClose(g.0 + d1.0, g.0 + d2.0, w - 2);
    ClampClose(g.1 + d1.1, g.1 + d2.1, h - 2);
  }

  /** Once the last flag is near every remaining step, none of them survives and the memory stays as it is. */
  lemma {:induction false} NoneSurvive(m: Memory, g: Pos, w: int, h: int, ds: seq<Pos>)
    requires |m.flags| >= 1
    requires forall d :: d in ds ==> Near(m.flags[|m.flags| - 1], StepInside(g, d, w, h))
    ensures Survivors(m, g, w, h, ds) == ([], m)
    decreases |ds|
  {
    if ds != [] {
      var p := StepInside(g, ds[0], w, h);
      var q := m.flags[|m.flags| - 1];
      assert q in LastN(m.flags, 8) by {
        var l := LastN(m.flags, 8);
        assert l[|l| - 1] == q;
      }
      assert Near(q, p);
      assert Crowded(m.flags, p);
      NoneSurvive(m, g, w, h, ds[1..]);
    }
  }

  /**
   * At most one step survives the first loop: the spam filter remembers the
   * first accepted flag, and every other step lies within two tiles of it.
   */
  lemma {:induction false} AtMostOneSurvives(m: Memory, g: Pos, w: int, h: int, ds: seq<Pos>)
    requires forall d :: d in ds ==> UnitStep(d)
    ensures |Survivors(m, g, w, h, ds).0| <= 1
    decreases |ds|
  {
    if ds != [] {
      var p := StepInside(g, ds[0], w, h);
      var (spam, m1) := IsSpam(m, FlagCmd(p.0, p.1));
      if Repeated(m.flags, p) || Crowded(m.flags, p) {
        AtMostOneSurvives(m, g, w, h, ds[1..]);
      } else {
        assert m1.flags == Remember(m.flags, p);
        forall d | d in ds[1..]
          ensures Near(m1.flags[|m1.flags| - 1], StepInside(g, d, w, h))
        {
          StepsNear(g, ds[0], d, w, h);
        }
        NoneSurvive(m1, g, w, h, ds[1..]);
      }
    }
  }

  /** Hence the emergency flag is the single surviving step when there is one. */
  lemma EmergencyTakesSurvivor(m: Memory, g: Pos, e: Pos, w: int, h: int)
    ensures var ps := Survivors(m, g, w, h, Directions).0;
            |ps| <= 1 && (ps != [] ==> Emergency(m, g, e, w, h).0 == FlagCmd(ps[0].0, ps[0].1))
  {
    assert forall d :: d in Directions ==> UnitStep(d);
    AmongTakesSurvivor(m, g, e, w, h, Directions);
  }

  lemma AmongTakesSurvivor(m: Memory, g: Pos, e: Pos, w: int, h: int, ds: seq<Pos>)
    requires ds != [] && ds[0] == (-1, 0)
    requires forall d :: d in ds ==> UnitStep(d)
    ensures var ps := Survivors(m, g, w, h, ds).0;
            |ps| <= 1 && (ps != [] ==> EmergencyAmong(m, g, e, w, h, ds).0 == FlagCmd(ps[0].0, ps[0].1))
  {
    var ps := Survivors(m, g, w, h, ds).0;
    AtMostOneSurvives(m, g, w, h, ds);
    if ps != [] {
      assert |ps| == 1;
      assert Closest(ps, e) == ps[0];
    }
  }

  // ---------------------------------------------------------------- decide_action

  /**
   * What a stage the model does not compute returned, and the flag
   * history and skill-use table it left (the only memory such a stage
   * writes).
   */
  datatype Outcome = Outcome(action: Option<Command>, flags: seq<Pos>, skillUse: map<nat, int>)

  function After(m: Memory, o: Outcome): (r: Memory)
    ensures r.actions == m.actions
  {
    m.(flags := o.flags, skillUse := o.skillUse)
  }

  /** `if action:`: something non-empty was returned. */
  predicate Acts(o: Outcome)
  {
    o.action.Some? && !o.action.value.Blank?
  }

  /** Where the generals stand and how big the battleground is. */
  datatype Field = Field(own: Pos, enemy: Pos, width: int, height: int)

  /**
   * _get_guaranteed_action: a valuable skill, a smart tactic, a strategic
   * move, and finally the emergency move.
   */
  function Guaranteed(m: Memory, st: Situation, numTactics: nat, f: Field,
                      valuable: Memory -> Outcome, movement: Memory -> Outcome): (r: (Command, Memory))
    ensures !r.0.Blank?
    ensures r.1.actions == m.actions
  {
    var o1 := valuable(m);
    var m1 := After(m, o1);
    if Acts(o1) then (o1.action.value, m1)
    else
      match SmartTactic(m1, st, numTactics)
      case Some(t) => (t, m1)
      case None =>
        var o2 := movement(m1);
        var m2 := After(m1, o2);
        if Acts(o2) then (o2.action.value, m2)
        else Emergency(m2, f.own, f.enemy, f.width, f.height)
  }

  /**
   * decide_action: the strategy's action, else the guaranteed chain; the
   * chosen action is recorded.  The strategy, valuable-skill and movement
   * stages are parameters.  The original goes on to a second emergency
   * move and finally `return None`, but the guaranteed chain always ends in
   * an action (Guaranteed's contract), so neither is ever reached.
   */
  function DecideAction(m: Memory, k: Clocking, st: Situation, numTactics: nat, f: Field,
                        strategy: Memory -> Outcome, valuable: Memory -> Outcome,
                        movement: Memory -> Outcome): (r: (Option<Command>, Memory))
    ensures r.0.Some? && !r.0.value.Blank?
    ensures |r.1.actions| >= 1 && r.1.actions[|r.1.actions| - 1] == r.0.value
    ensures Acts(strategy(m)) ==> r.0 == strategy(m).action
    ensures |m.actions| <= MaxActionHistory ==> |r.1.actions| <= MaxActionHistory
  {
    var o := strategy(m);
    if Acts(o) then (o.action, Record(After(m, o), o.action.value, k))
    else
      var (c, m1) := Guaranteed(After(m, o), st, numTactics, f, valuable, movement);
      (Some(c), Record(m1, c, k))
  }
}
