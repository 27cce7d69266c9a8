/**
 * The two special generals of general.py.  Conway, under its `null`
 * tactic, plays the game of life with its own side's units: a census of
 * the whole grid is taken first, then every birth is cloned and every
 * death is carried out.  The Emperor turns into the Nightspirit when its
 * fourth skill is used in human form; since that skill does nothing, it
 * never does, and in human form it cannot die either.
 */
module Variants {
  import opened Wrappers
  import opened Grid
  import opened State
  import opened Seqs
  import opened Combat
  import opened Minions
  import opened Roster
  import opened Formation
  import opened Skills
  import opened Generals

  // ---------------------------------------------------------------- live_life

  /** The eight cells around a cell, in the order live_life visits them. */
  const Around: seq<Pos> := [(-1, -1), (-1, 0), (-1, 1), (0, -1), (0, 1), (1, -1), (1, 0), (1, 1)]

  function Plus(c: Pos, d: Pos): Pos
  {
    (c.0 + d.0, c.1 + d.1)
  }

  /** A cell inside the grid whose resident is on the given side. */
  predicate AllyAt(w: World, side: int, p: Pos)
  {
    Inside(w.board, p) && Resident(w, p).Some? && w.units[Resident(w, p).value].side == side
  }

  function CountAllies(w: World, side: int, c: Pos, ds: seq<Pos>): (n: nat)
    ensures n <= |ds|
  {
    if ds == [] then 0 else (if AllyAt(w, side, Plus(c, ds[0])) then 1 else 0) + CountAllies(w, side, c, ds[1..])
  }

  /** Counting along a list of distinct offsets is counting the set of offsets that hold an ally. */
  lemma {:induction false} CountIsCard(w: World, side: int, c: Pos, ds: seq<Pos>)
    requires NoDup(ds)
    ensures CountAllies(w, side, c, ds) == |set d | d in ds && AllyAt(w, side, Plus(c, d))|
  {
    if ds != [] {
      var t := ds[1..];
      assert NoDup(t) by {
        forall i, j | 0 <= i < j < |t| ensures t[i] != t[j] {
          assert t[i] == ds[i + 1] && t[j] == ds[j + 1];
        }
      }
      CountIsCard(w, side, c, t);
      var S := set d | d in ds && AllyAt(w, side, Plus(c, d));
      var T := set d | d in t && AllyAt(w, side, Plus(c, d));
      assert ds[0] !in t by {
        forall j | 0 <= j < |t| ensures t[j] != ds[0] {
          assert t[j] == ds[j + 1];
        }
      }
      assert forall d :: d in ds <==> d == ds[0] || d in t;
      if AllyAt(w, side, Plus(c, ds[0])) {
        assert S == T + {ds[0]};
      } else {
        assert S == T;
      }
    }
  }

  /** How many of the eight cells around c hold an ally of the side: the set of such cells, counted. */
  function AllyNeighbours(w: World, side: int, c: Pos): (n: nat)
    ensures n <= 8
    ensures n == |set d | d in Around && AllyAt(w, side, Plus(c, d))|
  {
    assert NoDup(Around);
    CountIsCard(w, side, c, Around);
    CountAllies(w, side, c, Around)
  }

  /** An empty passable cell with exactly three allied neighbours comes to life. */
  predicate Born(w: World, side: int, p: Pos)
  {
    Occupant(w, p).None? && At(w.board, p).passable && AllyNeighbours(w, side, p) == 3
  }

  /** An ally other than the general itself with fewer than two or more than three allied neighbours dies. */
  predicate Doomed(w: World, gid: Id, side: int, p: Pos)
  {
    && Resident(w, p).Some? && Resident(w, p).value != gid && w.units[Resident(w, p).value].side == side
    && (AllyNeighbours(w, side, p) < 2 || AllyNeighbours(w, side, p) > 3)
  }

  /**
   * The census live_life takes over every tile, in the dictionary's order,
   * before anything is born or dies: the cells to fill and the cells to clear.
   */
  function Census(w: World, gid: Id): (r: (seq<Pos>, seq<Pos>))
    requires gid in w.units
    ensures var side := w.units[gid].side;
            && (forall p :: p in r.0 <==> p in w.board.order && Born(w, side, p))
            && (forall p :: p in r.1 <==> p in w.board.order && Doomed(w, gid, side, p))
    ensures forall p :: p in r.0 ==> p !in r.1
    ensures forall p :: p in r.1 ==> Resident(w, p) != Some(gid)
  {
    var side := w.units[gid].side;
    (Filter(w.board.order, p => Born(w, side, p)), Filter(w.board.order, p => Doomed(w, gid, side, p)))
  }

  /** The deaths of the census: whoever stands on each cell when its turn comes dies. */
  function Reap(w: World, cells: seq<Pos>): (r: Result<World>)
    ensures r.Ok? ==> Steady(w, r.value)
    ensures (forall i :: 0 <= i < |cells| ==> Resident(w, cells[i]).None?) ==> r == Ok(w)
    decreases |cells|
  {
    if cells == [] then Ok(w)
    else
      match Resident(w, cells[0])
      case None => Reap(w, cells[1..])
      case Some(m) =>
        match Die(w, m)
        case Crash(e) => Crash(e)
        case Ok(w1) =>
          match Reap(w1, cells[1..])
          case Crash(e) => Crash(e)
          case Ok(w2) =>
            SteadyTrans(w, w1, w2);
            Ok(w2)
  }

  /**
   * Conway.live_life over the whole grid, then the births (clones of the
   * general's minion template, appended to the battle's minions), then the
   * deaths, then the recount.
   */
  function LiveLife(w: World, gid: Id): (r: Result<World>)
    requires Armed(w, gid)
    ensures r.Ok? ==> r.value.units.Keys >= w.units.Keys && r.value.generals == w.generals
    ensures r.Ok? ==>
              && |w.minions| <= |r.value.minions| <= |w.minions| + |Census(w, gid).0|
              && r.value.minions[..|w.minions|] == w.minions
    ensures r.Ok? && w.units[gid].role.g.template.None? ==> r.value.minions == w.minions && r.value.nextId == w.nextId
    ensures r.Ok? && IsGeneral(r.value, gid) ==>
              r.value.units[gid].role.g.minionsAlive == LiveCount(r.value, r.value.minions, r.value.units[gid].side)
  {
    var (births, deaths) := Census(w, gid);
    var t := w.units[gid].role.g.template;
    var w1 := if t.Some? then PlaceAlong(w, w.units[t.value], births, |births|).0 else w;
    match Reap(w1, deaths)
    case Crash(e) => Crash(e)
    case Ok(w2) =>
      assert w2.minions[..|w.minions|] == w.minions;
      if IsGeneral(w2, gid) then Ok(Recount(w2, gid)) else Ok(w2)
  }

  /**
   * Conway.update: under the `null` tactic the general's own counter runs
   * the game of life (resetting when it fires), and then the ordinary
   * general update follows under every tactic.
   */
  function ConwayUpdate(w: World, gid: Id): (r: Result<World>)
    requires Armed(w, gid)
    ensures !w.units[gid].alive ==> r == Ok(w)
    ensures w.units[gid].role.g.selected != Null ==> r == GeneralUpdate(w, gid)
    ensures r.Ok? ==> r.value.units.Keys >= w.units.Keys
  {
    var u := w.units[gid];
    if !u.alive then Ok(w)
    else if u.role.g.selected != Null then GeneralUpdate(w, gid)
    else if u.nextAction <= 0 then
      match LiveLife(Reload(w, gid), gid)
      case Crash(e) => Crash(e)
      case Ok(w1) => GeneralUpdate(w1, gid)
    else GeneralUpdate(SetUnit(w, gid, u.(nextAction := u.nextAction - 1)), gid)
  }

  /**
   * Under `null`, a Conway general whose counter is at least 3 only counts
   * down, three times a turn: once in its own update, once in the inherited
   * minion update and once in the general's.
   */
  lemma ConwayCountsDownThrice(w: World, gid: Id, w1: World)
    requires Armed(w, gid) && w.units[gid].alive && w.units[gid].statuses == []
    requires w.units[gid].role.g.selected == Null && w.units[gid].nextAction >= 3
    requires w1 == SetUnit(w, gid, w.units[gid].(nextAction := w.units[gid].nextAction - 1))
    ensures var t := Tock(w1, gid);
            ConwayUpdate(w, gid) == Ok(SetUnit(t, gid, t.units[gid].(nextAction := w.units[gid].nextAction - 3)))
  {
    var t := Tock(w1, gid);
    var r := Ok(SetUnit(t, gid, t.units[gid].(nextAction := w.units[gid].nextAction - 3)));
    assert GeneralUpdate(w1, gid) == r by {
      IdleGeneralCountsDown(w1, gid);
    }
    ConwayWaits(w, gid);
  }

  /** Under `null` with the counter still running, Conway's own update only counts down before the general's. */
  lemma ConwayWaits(w: World, gid: Id)
    requires Armed(w, gid) && w.units[gid].alive
    requires w.units[gid].role.g.selected == Null && w.units[gid].nextAction > 0
    ensures ConwayUpdate(w, gid) == GeneralUpdate(SetUnit(w, gid, w.units[gid].(nextAction := w.units[gid].nextAction - 1)), gid)
  {
  }

  /** A cell at the edge of life: an ally with no allied neighbour is among the census's deaths. */
  lemma LonelyAllyDies(w: World, gid: Id, p: Pos)
    requires gid in w.units && p in w.board.order
    requires Resident(w, p).Some? && Resident(w, p).value != gid && w.units[Resident(w, p).value].side == w.units[gid].side
    requires forall d :: d in Around ==> !AllyAt(w, w.units[gid].side, Plus(p, d))
    ensures p in Census(w, gid).1
  {
    var side := w.units[gid].side;
    assert (set d | d in Around && AllyAt(w, side, Plus(p, d))) == {};
  }

  // ---------------------------------------------------------------- Emperor

  /**
   * Emperor.transform: in human form the Emperor becomes the Nightspirit,
   * healed to its maximum and with the Nightspirit's four skills; in that
   * form it only changes its name, which the model does not keep.
   */
  function Transform(w: World, gid: Id): (w': World)
    requires IsGeneral(w, gid)
    ensures !HumanEmperor(w.units[gid]) ==> w' == w
    ensures HumanEmperor(w.units[gid]) ==>
              var u := w.units[gid];
              && IsGeneral(w', gid) && !HumanEmperor(w'.units[gid])
              && w'.units[gid] == u.(hp := u.maxHp, role := Commander(u.role.g.(variant := Emperor(false), skills := NightspiritSkills(gid))))
              && w' == w.(units := w'.units) && w'.units.Keys == w.units.Keys
              && forall k :: k in w.units && k != gid ==> w'.units[k] == w.units[k]
  {
    var u := w.units[gid];
    if !HumanEmperor(u) then w
    else SetUnit(w, gid, u.(hp := u.maxHp, role := Commander(u.role.g.(variant := Emperor(false), skills := NightspiritSkills(gid)))))
  }

  /** The transformation happens once: a second one changes nothing. */
  lemma TransformOnce(w: World, gid: Id)
    requires IsGeneral(w, gid)
    ensures Transform(Transform(w, gid), gid) == Transform(w, gid)
  {
  }

  /** Emperor.use_skill: the ordinary use, then the transformation when skill 3 was used in human form. */
  function EmperorUseSkill(w: World, gid: Id, i: int, x: int, y: int): (r: Result<(World, bool)>)
    requires Equipped(w, gid)
    ensures UseSkill(w, gid, i, x, y).Crash? <==> r.Crash?
    ensures r.Ok? ==>
              var (w1, used) := UseSkill(w, gid, i, x, y).value;
              && r.value.1 == used
              && (used && i == TransformIndex && IsGeneral(w1, gid) && HumanEmperor(w1.units[gid]) ==> r.value.0 == Transform(w1, gid))
              && (!(used && i == TransformIndex && IsGeneral(w1, gid)) ==> r.value.0 == w1)
  {
    match UseSkill(w, gid, i, x, y)
    case Crash(e) => Crash(e)
    case Ok((w1, used)) =>
      if used && i == TransformIndex && IsGeneral(w1, gid) then Ok((Transform(w1, gid), true)) else Ok((w1, used))
  }

  /**
   * The human Emperor's skill 3 is the null skill: using it, ready or not,
   * changes nothing and does not count, so the transformation never comes,
   * and dying (which only uses that skill) leaves the Emperor as it was.
   */
  lemma HumanFormNeverEnds(w: World, gid: Id, x: int, y: int)
    requires Equipped(w, gid) && HumanEmperor(w.units[gid])
    requires var ss := w.units[gid].role.g.skills;
             |ss| > TransformIndex && ss[TransformIndex].fn.NullFn? && ss[TransformIndex].area.None?
    ensures EmperorUseSkill(w, gid, TransformIndex, x, y) == Ok((w, false))
    ensures Die(w, gid) == Ok(w)
  {
  }

  /** An Emperor that starts a battle in human form can no longer die. */
  lemma EmperorImmortal(w: World, gid: Id, mine: Id, x: int, y: int)
    requires Armed(w, gid) && gid < w.nextId && mine in w.units && Clonable(w.units[mine])
    requires HumanEmperor(w.units[gid]) && StartBattle(w, gid, mine).Ok?
    ensures var w' := StartBattle(w, gid, mine).value;
            && HumanEmperor(w'.units[gid]) && Die(w', gid) == Ok(w')
            && Equipped(w', gid) && EmperorUseSkill(w', gid, TransformIndex, x, y) == Ok((w', false))
  {
    var w' := StartBattle(w, gid, mine).value;
    StartedEquipped(w, gid, mine);
    assert HumanEmperor(w'.units[gid]) && var ss := w'.units[gid].role.g.skills;
           |ss| > TransformIndex && ss[TransformIndex].fn.NullFn? && ss[TransformIndex].area.None? by {
      assert w'.units[gid].role.g.skills == EmperorSkills(gid, FreezeCurseAsWritten());
    }
    HumanFormNeverEnds(w', gid, x, y);
  }
}
