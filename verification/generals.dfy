/**
 * The General class of general.py: using a skill, the per-turn update with
 * its march towards the flag, swapping with a reserve general, and the
 * skill sets each kind of general starts a battle with.  Conway and the
 * Emperor follow in variants.dfy.
 */
module Generals {
  import opened Wrappers
  import opened Grid
  import opened State
  import opened Seqs
  import opened Movement
  import opened Combat
  import opened Cooldown
  import opened Minions
  import opened Roster
  import opened Skills

  // ---------------------------------------------------------------- use_skill

  /** A skill whose function and area the general can run: what the original's constructors always provide. */
  predicate Wieldable(w: World, gid: Id, s: Skill)
  {
    && Usable(w, gid, s.fn)
    && (s.area.Some? && s.area.value.general.Some? ==> s.area.value.general.value in w.units)
  }

  /** A general every one of whose skills can run. */
  predicate Equipped(w: World, gid: Id)
  {
    && Armed(w, gid) && gid < w.nextId
    && forall k :: 0 <= k < |w.units[gid].role.g.skills| ==> Wieldable(w, gid, w.units[gid].role.g.skills[k])
  }

  /** The cooldowns after a use of skill k: five turns off every skill, clamped at zero, and the used one back to zero. */
  function Spent(skills: seq<Skill>, k: nat): (r: seq<Skill>)
    ensures |r| == |skills|
    ensures forall j :: 0 <= j < |skills| && j != k ==> r[j] == ChangeCd(skills[j], -5)
    ensures k < |skills| ==> r[k] == ResetCd(ChangeCd(skills[k], -5))
  {
    var c := ChangeAllCd(skills, -5);
    if k < |c| then c[k := ResetCd(c[k])] else c
  }

  /**
   * use_skill(i, x, y): skill i (Python indexing) is used only when it is
   * ready, and counts as used only when its use is truthy; then every
   * skill loses five turns of cooldown, the used one restarts, and the
   * general remembers i.  The general's record is read back after the
   * skill has run, since the skill may have changed it.
   */
  function UseSkill(w: World, gid: Id, i: int, x: int, y: int): (r: Result<(World, bool)>)
    requires Equipped(w, gid)
    ensures var ss := w.units[gid].role.g.skills;
            PyIndex(|ss|, i).None? ==> r == Crash("IndexError")
    ensures var ss := w.units[gid].role.g.skills;
            PyIndex(|ss|, i).Some? && !IsReady(ss[PyIndex(|ss|, i).value]) ==> r == Ok((w, false))
    ensures r.Ok? && r.value.1 ==>
              var ss := w.units[gid].role.g.skills;
              var k := PyIndex(|ss|, i).value;
              var u := Use(w, gid, ss[k], x, y);
              && IsReady(ss[k]) && u.Ok? && u.value.1
              && (IsGeneral(u.value.0, gid) ==>
                    var g1 := u.value.0.units[gid].role.g;
                    r.value.0 == SetData(u.value.0, gid, g1.(skills := Spent(g1.skills, k), lastSkillUsed := i)))
    ensures r.Ok? && !r.value.1 ==>
              var ss := w.units[gid].role.g.skills;
              var k := PyIndex(|ss|, i).value;
              r.value.0 == w || Use(w, gid, ss[k], x, y) == Ok((r.value.0, false))
    ensures r.Ok? ==> Grows(w, r.value.0)
  {
    var g := w.units[gid].role.g;
    match PyIndex(|g.skills|, i)
    case None => Crash("IndexError")
    case Some(k) =>
      var s := g.skills[k];
      if !IsReady(s) then Ok((w, false))
      else
        assert Wieldable(w, gid, g.skills[k]);
        match Use(w, gid, s, x, y)
        case Crash(e) => Crash(e)
        case Ok((w1, used)) =>
          if !used || !IsGeneral(w1, gid) then Ok((w1, used))
          else
            var g1 := w1.units[gid].role.g;
            Ok((SetData(w1, gid, g1.(skills := Spent(g1.skills, k), lastSkillUsed := i)), true))
  }

  /**
   * The skill just used is not ready again for exactly max_cd turns of
   * recovery, and every other skill has lost five turns, never going below zero.
   */
  lemma SpentRestarts(skills: seq<Skill>, k: nat, n: nat)
    requires k < |skills| && !skills[k].dummy && skills[k].maxCd >= 0
    ensures Spent(skills, k)[k].cd == 0
    ensures IsReady(Ticks(Spent(skills, k)[k], n)) <==> n >= skills[k].maxCd
    ensures forall j :: 0 <= j < |skills| && j != k && !skills[j].dummy && 0 <= skills[j].cd <= skills[j].maxCd ==>
              Spent(skills, k)[j].cd == if skills[j].cd >= 5 then skills[j].cd - 5 else 0
  {
    ReadyAfterMaxCd(Spent(skills, k)[k], n);
  }

  /** A dummy skill is never used: whatever the target, nothing changes. */
  lemma DummyNeverUsed(w: World, gid: Id, i: int, x: int, y: int)
    requires Equipped(w, gid)
    requires var ss := w.units[gid].role.g.skills;
             PyIndex(|ss|, i).Some? && ss[PyIndex(|ss|, i).value].dummy
    ensures UseSkill(w, gid, i, x, y) == Ok((w, false))
  {
  }

  // ---------------------------------------------------------------- update

  /** The bookkeeping half of General.update: every skill recovers a turn and the swap cooldown climbs towards its maximum. */
  function Tock(w: World, gid: Id): (w': World)
    requires IsGeneral(w, gid)
    ensures IsGeneral(w', gid) && w'.units[gid] == w.units[gid].(role := w'.units[gid].role)
    ensures var g := w.units[gid].role.g;
            var g' := w'.units[gid].role.g;
            && g' == g.(skills := TickAll(g.skills), swapCd := g'.swapCd)
            && g'.swapCd <= g.swapMaxCd
            && (g.swapCd < g.swapMaxCd ==> g'.swapCd == g.swapCd + 1)
    ensures w' == w.(units := w'.units) && w'.units.Keys == w.units.Keys
    ensures forall k :: k in w.units && k != gid ==> w'.units[k] == w.units[k]
  {
    var g := w.units[gid].role.g;
    SetData(w, gid, g.(skills := TickAll(g.skills), swapCd := if g.swapCd + 1 < g.swapMaxCd then g.swapCd + 1 else g.swapMaxCd))
  }

  /** int(copysign(1, v)) for v != 0, and 0 for v == 0: the general's step along one axis. */
  function Toward(v: int): (s: int)
    ensures s == 0 <==> v == 0
    ensures s == 1 <==> v > 0
    ensures s == -1 <==> v < 0
  {
    if v > 0 then 1 else if v < 0 then -1 else 0
  }

  /** The step from p towards f. */
  function StepTo(p: Pos, f: Pos): Pos
  {
    (Toward(f.0 - p.0), Toward(f.1 - p.1))
  }

  function Dist1(v: int): nat
  {
    if v < 0 then -v else v
  }

  /** Chebyshev distance: the number of king steps between two cells. */
  function Chebyshev(p: Pos, q: Pos): nat
  {
    var a := Dist1(p.0 - q.0);
    var b := Dist1(p.1 - q.1);
    if a < b then b else a
  }

  /** Each step towards the flag brings the general one king step closer. */
  lemma StepCloser(p: Pos, f: Pos)
    requires p != f
    ensures Chebyshev(Shift(p, StepTo(p, f)), f) == Chebyshev(p, f) - 1
  {
  }

  /**
   * The march towards the flag at f: one step by the sign of each axis
   * difference; when the step is refused, or lands on the flag, the flag is
   * taken down.
   */
  function March(w: World, gid: Id, f: Pos): (r: Result<World>)
    requires IsGeneral(w, gid) && Inside(w.board, f) && w.units[gid].role.g.flag == Some(f)
    ensures r.Ok? ==> IsGeneral(r.value, gid) && r.value.units.Keys == w.units.Keys
    ensures r.Ok? ==>
              var p := PosOf(w.units[gid]);
              var p' := PosOf(r.value.units[gid]);
              && (p' == p || p' == Shift(p, StepTo(p, f)))
              && r.value.units[gid].role.g.flag == (if p' == p || p' == f then None else Some(f))
              && r.value.units[gid].role.g == w.units[gid].role.g.(flag := r.value.units[gid].role.g.flag)
  {
    var u := w.units[gid];
    var d := StepTo(PosOf(u), f);
    assert Move(w, gid, d) == MoveSmall(w, gid, d);
    var (w1, moved) :- Move(w, gid, d);
    assert w1.units[gid].role == u.role;
    if !moved || PosOf(w1.units[gid]) == f then Ok(PlaceFlag(w1, gid, Sentinel)) else Ok(w1)
  }

  /** With no flag to follow the general strikes like a minion, and with nobody in reach it waits: next_action becomes -1. */
  function Charge(w: World, gid: Id): (r: Result<World>)
    requires gid in w.units
    ensures EnemyReachable(w, gid, false).None? ==> r == Ok(SetUnit(w, gid, w.units[gid].(nextAction := -1)))
    ensures EnemyReachable(w, gid, false).Some? ==>
              && r.Ok? == TryAttack(w, gid).Ok?
              && (r.Ok? ==> r.value == TryAttack(w, gid).value.0 && Steady(w, r.value))
    ensures r.Ok? ==> r.value.units.Keys == w.units.Keys
  {
    var (w1, hit) :- TryAttack(w, gid);
    if hit then Ok(w1) else Ok(SetUnit(w1, gid, w1.units[gid].(nextAction := -1)))
  }

  /** The action a general takes when its counter runs out: march to a flag inside the grid, or else strike. */
  function Command(w: World, gid: Id): (r: Result<World>)
    requires IsGeneral(w, gid)
    ensures r.Ok? ==> r.value.units.Keys == w.units.Keys
  {
    var g := w.units[gid].role.g;
    if g.flag.Some? && Inside(w.board, g.flag.value) then March(w, gid, g.flag.value) else Charge(w, gid)
  }

  /** The General half of General.update, after the Minion half has run. */
  function Drill(w: World, gid: Id): (r: Result<World>)
    requires gid in w.units
    ensures !IsGeneral(w, gid) ==> r == Ok(w)
    ensures r.Ok? ==> r.value.units.Keys == w.units.Keys
  {
    if !IsGeneral(w, gid) then Ok(w)
    else
      var w1 := Tock(w, gid);
      var u := w1.units[gid];
      if u.nextAction <= 0 then Command(Reload(w1, gid), gid)
      else Ok(SetUnit(w1, gid, u.(nextAction := u.nextAction - 1)))
  }

  /**
   * General.update: a dead general does nothing.  Otherwise the inherited
   * Minion.update runs first (statuses, then its own countdown and strike),
   * then the general's skills and swap cooldown recover, and then its own
   * counter is checked a second time.
   */
  function GeneralUpdate(w: World, gid: Id): (r: Result<World>)
    requires gid in w.units
    ensures !w.units[gid].alive ==> r == Ok(w)
    ensures r.Ok? ==> r.value.units.Keys == w.units.Keys
  {
    if !w.units[gid].alive then Ok(w)
    else
      var w1 :- MinionUpdate(w, gid);
      Drill(w1, gid)
  }

  /**
   * A general whose counter is at least 2 only counts down, twice a turn
   * (once in the inherited minion update and once in its own), while its
   * skills and swap cooldown recover.
   */
  lemma IdleGeneralCountsDown(w: World, gid: Id)
    requires IsGeneral(w, gid) && w.units[gid].alive && w.units[gid].statuses == []
    requires w.units[gid].nextAction >= 2
    ensures var t := Tock(w, gid);
            GeneralUpdate(w, gid) == Ok(SetUnit(t, gid, t.units[gid].(nextAction := w.units[gid].nextAction - 2)))
  {
    var n := w.units[gid].nextAction;
    UpdateThenDrill(w, gid, n);
    DrillAfterCount(w, gid, n);
  }

  /** With nothing to do in the inherited update, the general's update is its drill after one count. */
  lemma UpdateThenDrill(w: World, gid: Id, n: int)
    requires IsGeneral(w, gid) && w.units[gid].alive && w.units[gid].statuses == []
    requires n == w.units[gid].nextAction && n >= 2
    ensures GeneralUpdate(w, gid) == Drill(SetUnit(w, gid, w.units[gid].(nextAction := n - 1)), gid)
  {
    CountingDown(w, gid);
  }

  /** A general that is not due yet only counts down after the tock. */
  lemma DrillCounts(w: World, gid: Id, m: int)
    requires IsGeneral(w, gid) && w.units[gid].nextAction > 0 && m == w.units[gid].nextAction - 1
    ensures var t := Tock(w, gid); Drill(w, gid) == Ok(SetUnit(t, gid, t.units[gid].(nextAction := m)))
  {
  }

  /** A general counted down once (from n) and not yet due counts down once more after the tock. */
  lemma DrillAfterCount(w: World, gid: Id, n: int)
    requires IsGeneral(w, gid) && n == w.units[gid].nextAction && n >= 2
    ensures var t := Tock(w, gid);
            Drill(SetUnit(w, gid, w.units[gid].(nextAction := n - 1)), gid) == Ok(SetUnit(t, gid, t.units[gid].(nextAction := n - 2)))
  {
    var w1 := SetUnit(w, gid, w.units[gid].(nextAction := n - 1));
    assert IsGeneral(w1, gid) && w1.units[gid].nextAction == n - 1;
    DrillCounts(w1, gid, n - 2);
    TockAfterCount(w, gid, n - 1, n - 2);
  }

  /** Tocking commutes with setting the counter. */
  lemma TockAfterCount(w: World, gid: Id, n: int, m: int)
    requires IsGeneral(w, gid)
    ensures var t1 := Tock(SetUnit(w, gid, w.units[gid].(nextAction := n)), gid);
            var t := Tock(w, gid);
            SetUnit(t1, gid, t1.units[gid].(nextAction := m)) == SetUnit(t, gid, t.units[gid].(nextAction := m))
  {
    var t1 := Tock(SetUnit(w, gid, w.units[gid].(nextAction := n)), gid);
    var t := Tock(w, gid);
    var v := t.units[gid].(nextAction := m);
    assert t1.units[gid].(nextAction := m) == v;
    assert t1.units[gid := v] == t.units[gid := v];
  }

  /** A general whose counter is at 1 acts this turn: its counter is reset and it marches or strikes. */
  lemma GeneralActsAtOne(w: World, gid: Id)
    requires IsGeneral(w, gid) && w.units[gid].alive && w.units[gid].statuses == []
    requires w.units[gid].nextAction == 1
    ensures var w1 := SetUnit(w, gid, w.units[gid].(nextAction := 0));
            GeneralUpdate(w, gid) == Command(Reload(Tock(w1, gid), gid), gid)
  {
    CountingDown(w, gid);
  }

  /** With no flag inside the grid and no enemy in reach, the general's action is to wait with its counter at -1. */
  lemma NoFlagNoEnemyWaits(w: World, gid: Id)
    requires IsGeneral(w, gid)
    requires var f := w.units[gid].role.g.flag; f.None? || !Inside(w.board, f.value)
    requires EnemyReachable(w, gid, false).None?
    ensures Command(w, gid) == Ok(SetUnit(w, gid, w.units[gid].(nextAction := -1)))
  {
  }

  /**
   * Following the flag: while the flag stays up the general is one king
   * step closer to it; once it comes down the general has either arrived
   * or been blocked where it stood.
   */
  lemma MarchApproaches(w: World, gid: Id)
    requires IsGeneral(w, gid)
    requires var f := w.units[gid].role.g.flag; f.Some? && Inside(w.board, f.value)
    requires Command(w, gid).Ok?
    ensures var f := w.units[gid].role.g.flag.value;
            var p := PosOf(w.units[gid]);
            var w' := Command(w, gid).value;
            var p' := PosOf(w'.units[gid]);
            && IsGeneral(w', gid)
            && (w'.units[gid].role.g.flag.Some? ==> w'.units[gid].role.g.flag == Some(f) && Chebyshev(p', f) == Chebyshev(p, f) - 1)
            && (w'.units[gid].role.g.flag.None? ==> p' == f || p' == p)
  {
    var f := w.units[gid].role.g.flag.value;
    var p := PosOf(w.units[gid]);
    if p != f {
      StepCloser(p, f);
    }
  }

  // ---------------------------------------------------------------- swap

  /** Every reserve slot of every side holds a general. */
  predicate Enlisted(w: World)
  {
    forall s, k :: 0 <= s < |w.reserves| && 0 <= k < |w.reserves[s]| ==> IsGeneral(w, w.reserves[s][k])
  }

  /** A reserve list with slot k handed to gid. */
  function Enrol(rs: seq<Id>, k: nat, gid: Id): (rs': seq<Id>)
    requires k < |rs|
    ensures |rs'| == |rs| && rs'[k] == gid && forall j :: 0 <= j < |rs| && j != k ==> rs'[j] == rs[j]
  {
    rs[k := gid]
  }

  /** What a successful swap of gid for the reserve nid (slot k of reserve list s, generals entry gs) leaves behind. */
  ghost predicate Handover(w: World, w': World, gid: Id, nid: Id, s: nat, k: nat, gs: nat)
    requires IsGeneral(w, gid) && IsGeneral(w, nid) && s < |w.reserves| && k < |w.reserves[s]| && gs < |w.generals|
  {
    var u := w.units[gid];
    var n := w.units[nid];
    && w'.generals == w.generals[gs := nid]
    && w'.reserves == w.reserves[s := Enrol(w.reserves[s], k, gid)]
    && w'.units.Keys == w.units.Keys
    && Occupant(w', PosOf(u)) == Some(nid)
    && IsGeneral(w', nid) && IsGeneral(w', gid)
    && (nid != gid ==>
          && PosOf(w'.units[nid]) == PosOf(u)
          && w'.units[nid].nextAction == n.role.g.swapSickness
          && w'.units[nid].role.g.swapCd == 0
          && w'.units[nid].role.g.swapMaxCd == n.role.g.swapMaxCd
          && w'.units[nid].role.g.flag == Inherited(w.board, u.role.g.flag, n.role.g.flag)
          && w'.units[gid] == u.(role := Commander(u.role.g.(flag := None))))
    && forall j :: j in w.units && j != gid && j != nid ==> w'.units[j] == w.units[j]
  }

  /** The flag the incoming general ends up with: the outgoing one's, re-planted through place_flag. */
  function Inherited(b: Board, outgoing: Option<Pos>, incoming: Option<Pos>): Option<Pos>
  {
    match outgoing
    case None => incoming
    case Some(f) => if Inside(b, f) || incoming == Some(f) then Some(f) else None
  }

  /**
   * swap(i): allowed once the swap cooldown is full and the side has more
   * than i reserves.  The reserve takes the generals slot, the tile and the
   * position, starts with an empty swap cooldown and swap_sickness turns of
   * delay, and inherits the flag; the outgoing general fills its reserve
   * slot, keeping its own coordinates.
   */
  function Swap(w: World, gid: Id, i: int): (r: Result<(World, bool)>)
    requires IsGeneral(w, gid) && Enlisted(w)
    ensures PyIndex(|w.reserves|, w.units[gid].side).None? ==> r == Crash("IndexError")
    ensures var u := w.units[gid];
            PyIndex(|w.reserves|, u.side).Some? ==>
              var rs := w.reserves[PyIndex(|w.reserves|, u.side).value];
              && (!(u.role.g.swapCd >= u.role.g.swapMaxCd && |rs| > i) ==> r == Ok((w, false)))
              && (u.role.g.swapCd >= u.role.g.swapMaxCd && |rs| > i ==>
                    (r.Crash? <==> PyIndex(|rs|, i).None? || PyIndex(|w.generals|, u.side).None? || PosOf(u) !in w.board.tiles))
    ensures r.Ok? && !r.value.1 ==> r.value.0 == w
    ensures r.Ok? && r.value.1 ==>
              var u := w.units[gid];
              var s := PyIndex(|w.reserves|, u.side).value;
              var k := PyIndex(|w.reserves[s]|, i).value;
              && u.role.g.swapCd >= u.role.g.swapMaxCd
              && Handover(w, r.value.0, gid, w.reserves[s][k], s, k, PyIndex(|w.generals|, u.side).value)
  {
    var u := w.units[gid];
    var g := u.role.g;
    match PyIndex(|w.reserves|, u.side)
    case None => Crash("IndexError")
    case Some(s) =>
      var rs := w.reserves[s];
      if !(g.swapCd >= g.swapMaxCd && |rs| > i) then Ok((w, false))
      else
        match PyIndex(|rs|, i)
        case None => Crash("IndexError")
        case Some(k) =>
          match PyIndex(|w.generals|, u.side)
          case None => Crash("IndexError")
          case Some(gs) =>
            if PosOf(u) !in w.board.tiles then Crash("KeyError")
            else Ok((Relieve(w, gid, rs[k], s, k, gs), true))
  }

  /** The incoming general takes the cell p: empty swap cooldown, swap_sickness turns of delay. */
  function Install(w: World, nid: Id, p: Pos): (w': World)
    requires IsGeneral(w, nid)
    ensures IsGeneral(w', nid)
    ensures var n := w.units[nid];
            w'.units == w.units[nid := n.(x := p.0, y := p.1, nextAction := n.role.g.swapSickness,
                                          role := Commander(n.role.g.(swapCd := 0)))]
    ensures w'.board == SetOccupant(w.board, p, Some(nid))
    ensures w' == w.(units := w'.units, board := w'.board)
  {
    var n := w.units[nid];
    var w1 := SetUnit(w, nid, n.(x := p.0, y := p.1, nextAction := n.role.g.swapSickness,
                                 role := Commander(n.role.g.(swapCd := 0))));
    SetTileOccupant(w1, p, Some(nid))
  }

  /** The outgoing general's flag is planted for the incoming one and taken from the outgoing one. */
  function PassFlag(w: World, gid: Id, nid: Id): (w': World)
    requires IsGeneral(w, gid) && IsGeneral(w, nid)
    ensures IsGeneral(w', gid) && IsGeneral(w', nid)
    ensures w' == w.(units := w'.units) && w'.units.Keys == w.units.Keys
    ensures w.units[gid].role.g.flag.None? ==> w' == w
    ensures nid != gid ==>
              && w'.units[gid] == w.units[gid].(role := Commander(w.units[gid].role.g.(flag := None)))
              && w'.units[nid] == w.units[nid].(role := Commander(w.units[nid].role.g.(
                                    flag := Inherited(w.board, w.units[gid].role.g.flag, w.units[nid].role.g.flag))))
    ensures forall j :: j in w.units && j != gid && j != nid ==> w'.units[j] == w.units[j]
  {
    var flag := w.units[gid].role.g.flag;
    if flag.None? then w
    else
      var w1 := PlaceFlag(w, nid, flag.value);
      SetData(w1, gid, w1.units[gid].role.g.(flag := None))
  }

  /** The body of a swap that goes ahead. */
  function Relieve(w: World, gid: Id, nid: Id, s: nat, k: nat, gs: nat): (w': World)
    requires IsGeneral(w, gid) && IsGeneral(w, nid) && s < |w.reserves| && k < |w.reserves[s]| && gs < |w.generals|
    requires PosOf(w.units[gid]) in w.board.tiles
    ensures Handover(w, w', gid, nid, s, k, gs)
  {
    var u := w.units[gid];
    var w1 := Install(w.(generals := w.generals[gs := nid]), nid, PosOf(u));
    assert w1.units[gid] == u || nid == gid;
    var w2 := PassFlag(w1, gid, nid);
    assert Occupant(w2, PosOf(u)) == Some(nid);
    w2.(reserves := w.reserves[s := Enrol(w.reserves[s], k, gid)])
  }

  /** A swap exchanges the side's general with one of its reserves: the side's roster is the same multiset. */
  lemma SwapPermutesRoster(w: World, gid: Id, i: int)
    requires IsGeneral(w, gid) && Enlisted(w)
    requires Swap(w, gid, i).Ok? && Swap(w, gid, i).value.1
    ensures var u := w.units[gid];
            var s := PyIndex(|w.reserves|, u.side).value;
            var gs := PyIndex(|w.generals|, u.side).value;
            var w' := Swap(w, gid, i).value.0;
            && |w'.reserves| == |w.reserves| && |w'.generals| == |w.generals|
            && w'.generals[gs] == w.reserves[s][PyIndex(|w.reserves[s]|, i).value]
            && multiset(w'.reserves[s]) + multiset{w'.generals[gs]} == multiset(w.reserves[s]) + multiset{gid}
  {
    var u := w.units[gid];
    var s := PyIndex(|w.reserves|, u.side).value;
    var k := PyIndex(|w.reserves[s]|, i).value;
    var rs := w.reserves[s];
    var rs' := Enrol(rs, k, gid);
    assert rs == rs[..k] + [rs[k]] + rs[k + 1..];
    assert rs' == rs[..k] + [gid] + rs[k + 1..];
  }

  /** After a swap every reserve slot still holds a general. */
  lemma HandoverEnlisted(w: World, w': World, gid: Id, nid: Id, s: nat, k: nat, gs: nat)
    requires IsGeneral(w, gid) && IsGeneral(w, nid) && s < |w.reserves| && k < |w.reserves[s]| && gs < |w.generals|
    requires Enlisted(w) && Handover(w, w', gid, nid, s, k, gs)
    ensures Enlisted(w')
  {
    forall s', k' | 0 <= s' < |w'.reserves| && 0 <= k' < |w'.reserves[s']|
      ensures IsGeneral(w', w'.reserves[s'][k'])
    {
      if s' == s && k' == k {
        assert w'.reserves[s'][k'] == gid;
      } else {
        var m := w.reserves[s'][k'];
        assert w'.reserves[s'][k'] == m && IsGeneral(w, m);
        if m != gid && m != nid {
          assert w'.units[m] == w.units[m];
        }
      }
    }
  }

  /** The general that has just come in cannot swap out again at once: its swap cooldown starts empty. */
  lemma NoSwapBackAtOnce(w: World, gid: Id, i: int, j: int)
    requires IsGeneral(w, gid) && Enlisted(w)
    requires Swap(w, gid, i).Ok? && Swap(w, gid, i).value.1
    requires var u := w.units[gid];
             var s := PyIndex(|w.reserves|, u.side).value;
             var nid := w.reserves[s][PyIndex(|w.reserves[s]|, i).value];
             nid != gid && w.units[nid].role.g.swapMaxCd > 0
    ensures var u := w.units[gid];
            var s := PyIndex(|w.reserves|, u.side).value;
            var nid := w.reserves[s][PyIndex(|w.reserves[s]|, i).value];
            var w' := Swap(w, gid, i).value.0;
            && IsGeneral(w', nid) && Enlisted(w')
            && !(Swap(w', nid, j).Ok? && Swap(w', nid, j).value.1)
  {
    var u := w.units[gid];
    var s := PyIndex(|w.reserves|, u.side).value;
    var k := PyIndex(|w.reserves[s]|, i).value;
    var nid := w.reserves[s][k];
    var w' := Swap(w, gid, i).value.0;
    assert IsGeneral(w, nid);
    HandoverEnlisted(w, w', gid, nid, s, k, PyIndex(|w.generals|, u.side).value);
    assert w'.units[nid].role.g.swapCd < w'.units[nid].role.g.swapMaxCd;
  }

  // ---------------------------------------------------------------- start_battle

  function Aimed(shape: Shape, sieve: Option<SieveFn>, general: Option<Id>): Option<Area>
  {
    Some(Area(shape, sieve, general, None, false))
  }

  /** General.initialize_skills; the mine a general places is the prototype `mine`. */
  function StandardSkills(gid: Id, mine: Id): (ss: seq<Skill>)
    ensures |ss| == 5
  {
    [ NewSkill(Heal(100), 50, Aimed(SingleTarget, Some(IsAllyMinion), Some(gid))),
      NewSkill(Heal(20), 50, Aimed(AllBattleground, Some(IsMinion), Some(gid))),
      NewSkill(PlaceEntity(mine), 50, Aimed(SingleTarget, Some(IsEmpty), None)),
      NewSkill(SonicWaves(10, 3), 50, None),
      NewSkill(WaterPusher, 50, Aimed(SingleTarget, None, None)) ]
  }

  /**
   * Conway's poison prototype as general.py:278 writes it.  The call
   * passes its numbers positionally from the owner slot on, so 5 becomes
   * the owner (overwritten when the skill casts it), 19 the power, 4 the
   * turns between hits, and the hit count keeps its default of 9999.
   */
  function ConwayPoisonAsWritten(): (s: Status)
    ensures s.name == "Poison" && s.kind == Poison(19, 4, 9999, 0)
    ensures s.duration == 49995
  {
    Statuses.MakePoison(None, 19, 4, 9999, "Poison")
  }

  /** The poison the call evidently means: power 5, a hit every 20 turns, 4 hits. */
  function ConwayPoison(): (s: Status)
    ensures s.name == "Poison" && s.kind == Poison(5, 19, 4, 0)
    ensures s.duration == 80
  {
    Statuses.MakePoison(None, 5, 19, 4, "Poison")
  }

  /**
   * The corrected poison strikes exactly four times, the first on its
   * first update, over its 80 updates; the one as written strikes 9999
   * times over 49995 updates, far beyond any battle.
   */
  lemma PoisonHitCounts()
    ensures Statuses.PoisonHits(ConwayPoison().duration, 0, ConwayPoison().kind.tbt) == 4
    ensures Statuses.PoisonHits(ConwayPoisonAsWritten().duration, 0, ConwayPoisonAsWritten().kind.tbt) == 9999
  {
    Statuses.PoisonCadence(4, 19);
    Statuses.PoisonCadence(9999, 4);
  }

  /**
   * The Emperor's curse prototype as general.py:337 writes it: the 15 lands
   * in the owner slot and the duration keeps its default of 9999.
   */
  function FreezeCurseAsWritten(): (s: Status)
    ensures s.kind.FreezeCooldowns? && s.name == "Freeze cooldowns" && s.duration == 9999
  {
    Status("Freeze cooldowns", 9999, None, FreezeCooldowns)
  }

  /** The curse the call evidently means: 15 turns of frozen cooldowns. */
  function FreezeCurse(): (s: Status)
    ensures s.kind.FreezeCooldowns? && s.name == "Freeze cooldowns" && s.duration == 15
  {
    Status("Freeze cooldowns", 15, None, FreezeCooldowns)
  }

  /** Conway.initialize_skills, with the poison prototype given. */
  function ConwaySkills(gid: Id, poison: Status): (ss: seq<Skill>)
    ensures |ss| == 4
  {
    [ NewSkill(MinionGlider(false), 50, Aimed(SingleTarget, Some(IsEmpty), None)),
      NewSkill(MinionGlider(true), 50, Aimed(SingleTarget, Some(IsEmpty), None)),
      NewSkill(MinionLwss, 50, Aimed(SingleTarget, Some(IsEmpty), None)),
      NewSkill(ApplyStatus(poison, false), 50, Aimed(SingleTarget, Some(IsEnemy), Some(gid))) ]
  }

  /** The skill the Emperor's death and transformation go through. */
  const TransformIndex: nat := 3

  /** Emperor.initialize_skills, with the curse prototype given; skill 3 is the null skill. */
  function EmperorSkills(gid: Id, curse: Status): (ss: seq<Skill>)
    ensures |ss| == 4 && ss[TransformIndex].fn.NullFn? && ss[TransformIndex].area.None?
  {
    [ NewSkill(RestockMinions(21), 25, None),
      NewSkill(ApplyStatus(curse, false), 50, Aimed(AllBattleground, Some(IsEnemyGeneral), Some(gid))),
      NewSkill(WaterPusher, 50, Aimed(SingleTarget, None, None)),
      NewSkill(NullFn, 200, None) ]
  }

  /** The Nightspirit's skills, which replace the Emperor's when it transforms. */
  function NightspiritSkills(gid: Id): (ss: seq<Skill>)
    ensures |ss| == 4
  {
    [ NewSkill(SonicWaves(10, 3), 50, None),
      NewSkill(Darkness(20), 50, Aimed(AllBattleground, None, None)),
      NewSkill(Consume(1, 1), 50, Aimed(AllBattleground, Some(IsAllyMinion), Some(gid))),
      NewSkill(SonicWaves(50, 50), 250, None) ]
  }

  /**
   * The skills each kind of general starts a battle with.  Conway's poison
   * and the Emperor's curse are the prototypes as general.py:278 and 337
   * build them (see StartingStatuses).
   */
  function InitialSkills(v: Variant, gid: Id, mine: Id): (ss: seq<Skill>)
    ensures forall k :: 0 <= k < |ss| ==> ss[k].cd == 0 && !ss[k].dummy && ss[k].maxCd > 0
    ensures forall k :: 0 <= k < |ss| ==> Tethered(ss[k], gid, mine)
  {
    match v
    case Standard => StandardSkills(gid, mine)
    case Conway => ConwaySkills(gid, ConwayPoisonAsWritten())
    case Emperor(_) => EmperorSkills(gid, FreezeCurseAsWritten())
  }

  /** Conway starts with the poison as written and the Emperor with the curse as written. */
  lemma StartingStatuses(v: Variant, gid: Id, mine: Id)
    ensures var ss := InitialSkills(v, gid, mine);
            && (v.Conway? ==> |ss| == 4 && ss[3].fn.ApplyStatus? && ss[3].fn.status.kind == Poison(19, 4, 9999, 0))
            && (v.Emperor? ==> |ss| == 4 && ss[1].fn.ApplyStatus? && ss[1].fn.status.duration == 9999)
  {
  }

  /** A skill that clones only the given prototype, applies only well-formed statuses and centres its area on no general but its own. */
  predicate Tethered(s: Skill, gid: Id, mine: Id)
  {
    && (s.fn.PlaceEntity? ==> s.fn.template == mine)
    && (s.fn.ApplyStatus? ==> Statuses.WellFormed(s.fn.status))
    && (s.area.Some? && s.area.value.general.Some? ==> s.area.value.general.value == gid)
  }

  /** The tactics an ordinary general can command, in key order. */
  const GeneralTactics: seq<Tactic> := [Stop, Forward, Backward, GoSides, GoCenter, AttackGeneral, DefendGeneral]

  /** Conway's two tactics: stand still, or live the game of life. */
  const ConwayTactics: seq<Tactic> := [Stop, Null]

  /**
   * start_battle: the general's skills are built afresh, its first tactic
   * is commanded to its minions and the swap cooldown is set to 200; the
   * Emperor also starts with no minions counted.
   */
  function StartBattle(w: World, gid: Id, mine: Id): (r: Result<World>)
    requires IsGeneral(w, gid)
    ensures r.Crash? <==> w.units[gid].role.g.tactics == []
    ensures r.Ok? ==> IsGeneral(r.value, gid) && r.value == w.(units := r.value.units) && r.value.units.Keys == w.units.Keys
    ensures r.Ok? ==> forall k :: k in w.units && k != gid ==> r.value.units[k] == w.units[k].(tactic := r.value.units[k].tactic)
    ensures r.Ok? ==>
              var g := w.units[gid].role.g;
              var g' := r.value.units[gid].role.g;
              && g'.skills == InitialSkills(g.variant, gid, mine)
              && (forall k :: 0 <= k < |g'.skills| ==> !IsReady(g'.skills[k]))
              && g'.selected == g.tactics[0] && g'.swapCd == 200
              && g'.minionsAlive == (if g.variant.Emperor? then 0 else g.minionsAlive)
              && g' == g.(skills := g'.skills, selected := g'.selected, swapCd := 200, minionsAlive := g'.minionsAlive)
              && (forall k :: k in w.units && Commanded(w, k, w.units[gid].side) ==> r.value.units[k].tactic == g.tactics[0])
  {
    var g := w.units[gid].role.g;
    var w1 := SetData(w, gid, g.(skills := InitialSkills(g.variant, gid, mine)));
    assert forall k :: Commanded(w1, k, w1.units[gid].side) <==> Commanded(w, k, w.units[gid].side);
    match CommandTactic(w1, gid, 0)
    case Crash(e) => Crash(e)
    case Ok(w2) =>
      var g2 := w2.units[gid].role.g;
      var g3 := g2.(swapCd := 200, minionsAlive := if g.variant.Emperor? then 0 else g2.minionsAlive);
      var w3 := SetData(w2, gid, g3);
      CommandThenSet(w1, gid, w2, g3);
      Ok(w3)
  }

  /** Resetting the general's own data after a command leaves every commanded minion on the first tactic. */
  lemma CommandThenSet(w: World, gid: Id, w': World, g': GeneralData)
    requires IsGeneral(w, gid) && CommandTactic(w, gid, 0) == Ok(w')
    ensures IsGeneral(w', gid)
    ensures forall k :: k in w.units && Commanded(w, k, w.units[gid].side) ==> SetData(w', gid, g').units[k].tactic == w.units[gid].role.g.tactics[0]
  {
  }

  /** The skills a battle starts with are ones the general can run, given a general that can clone and a mine prototype. */
  lemma StartedEquipped(w: World, gid: Id, mine: Id)
    requires Armed(w, gid) && gid < w.nextId && mine in w.units && Clonable(w.units[mine])
    requires StartBattle(w, gid, mine).Ok?
    ensures Equipped(StartBattle(w, gid, mine).value, gid)
  {
    var w' := StartBattle(w, gid, mine).value;
    var ss := w'.units[gid].role.g.skills;
    assert ss == InitialSkills(w.units[gid].role.g.variant, gid, mine);
    assert Clonable(w'.units[mine]) by {
      if mine != gid {
        assert w'.units[mine] == w.units[mine].(tactic := w'.units[mine].tactic);
      }
    }
    assert Armed(w', gid) by {
      var t := w.units[gid].role.g.template;
      assert w'.units[gid].role.g.template == t;
      if t.Some? && t.value != gid {
        assert w'.units[t.value] == w.units[t.value].(tactic := w'.units[t.value].tactic);
      }
    }
    forall k | 0 <= k < |ss|
      ensures Wieldable(w', gid, ss[k])
    {
      assert Tethered(ss[k], gid, mine);
    }
  }
}
