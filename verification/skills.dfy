/**
 * Skill.use and the skill functions of skill.py.  A skill with an area
 * applies its function to every cell the area yields, in order, against
 * the world as the earlier cells left it, and adds up how many of those
 * applications were truthy; a skill without an area calls its function
 * once, with no cell.
 */
module Skills {
  import opened Wrappers
  import opened Grid
  import opened State
  import opened Seqs
  import opened Movement
  import opened Combat
  import opened Statuses
  import opened Effects
  import opened Cooldown
  import opened Areas
  import opened Formation
  import opened Roster

  /** The functions called without a cell: with an area they get one argument too many. */
  predicate AreaLess(fn: SkillFn)
  {
    fn.NullFn? || fn.CreateMinions? || fn.SonicWaves? || fn.RestockMinions?
  }

  /** The unit standing on p, when the tile names a known one. */
  function Resident(w: World, p: Pos): (o: Option<Id>)
    ensures o.Some? ==> o.value in w.units && Occupant(w, p) == o
    ensures o.None? ==> Occupant(w, p).None? || Occupant(w, p).value !in w.units
  {
    var o := Occupant(w, p);
    if o.Some? && o.value in w.units then o else None
  }

  /** What every step of a skill keeps: units and tiles are only ever added, and ids keep growing. */
  ghost predicate Grows(w: World, w': World)
  {
    && w'.units.Keys >= w.units.Keys && w'.board.tiles.Keys == w.board.tiles.Keys
    && w'.nextId >= w.nextId
  }

  // ---------------------------------------------------------------- heal

  /** heal: only a unit with hit points below its maximum is healed, and the call says whether one was. */
  function HealOn(w: World, p: Pos, amount: int): (r: (World, bool))
    ensures r.1 <==> Resident(w, p).Some? && HasHp(w.units[Resident(w, p).value])
                     && w.units[Resident(w, p).value].hp != w.units[Resident(w, p).value].maxHp
    ensures !r.1 ==> r.0 == w
    ensures r.1 ==> var o := Resident(w, p).value;
                    r.0 == SetUnit(w, o, HealUnit(w.units[o], amount))
  {
    match Resident(w, p)
    case None => (w, false)
    case Some(o) =>
      var u := w.units[o];
      if !HasHp(u) || u.hp == u.maxHp then (w, false) else (SetUnit(w, o, HealUnit(u, amount)), true)
  }

  /** A heal never lifts a unit above its maximum, and never lowers one that was at most full. */
  lemma HealNeverOverfills(w: World, p: Pos, amount: int)
    requires HealOn(w, p, amount).1 && amount >= 0
    ensures var o := Resident(w, p).value;
            var hp := HealOn(w, p, amount).0.units[o].hp;
            && hp <= w.units[o].maxHp
            && (w.units[o].hp <= w.units[o].maxHp ==> hp >= w.units[o].hp)
  {
  }

  // ---------------------------------------------------------------- place_entity

  /**
   * place_entity: clone the template at the cell and make the general its
   * owner.  The owner is set before anyone looks at the clone, so a clone
   * that does not fit raises.
   */
  function PlaceOn(w: World, gid: Id, tmpl: Unit, p: Pos): (r: Result<(World, bool)>)
    requires Clonable(tmpl)
    ensures r.Crash? <==> !CanPlace(w, tmpl, p)
    ensures r.Ok? ==> r.value.1 && Grows(w, r.value.0)
    ensures r.Ok? ==> w.nextId in r.value.0.units && r.value.0.units[w.nextId] == Fresh(tmpl, p).(owner := Some(gid))
    ensures r.Ok? ==> forall k :: k in w.units && k != w.nextId ==> r.value.0.units[k] == w.units[k]
  {
    var (w1, o) := CloneUnit(w, tmpl, p);
    match o
    case None => Crash("AttributeError")
    case Some(id) => Ok((SetUnit(w1, id, w1.units[id].(owner := Some(gid))), true))
  }

  // ---------------------------------------------------------------- water_pusher

  /** The offsets water_pusher visits: the x offset in the outer loop, the y offset in the inner one. */
  const PushOrder: seq<Pos> := [(-1, -1), (-1, 0), (-1, 1), (0, -1), (0, 0), (0, 1), (1, -1), (1, 0), (1, 1)]

  /** One offset of water_pusher: the unit beside the centre is pushed away from it when it can be. */
  function PushOne(w: World, c: Pos, d: Pos): (r: (World, bool))
    ensures SameFrame(w, r.0)
    ensures !r.1 ==> r.0 == w
    ensures r.1 <==> d != (0, 0) && Inside(w.board, Shift(c, d)) && Resident(w, Shift(c, d)).Some?
                     && CanBePushed(w, Resident(w, Shift(c, d)).value, d)
    ensures r.1 ==> r.0 == Push(w, Resident(w, Shift(c, d)).value, d)
  {
    var q := Shift(c, d);
    if !Inside(w.board, q) then (w, false)
    else match Resident(w, q)
      case None => (w, false)
      case Some(o) => if d != (0, 0) && CanBePushed(w, o, d) then (Push(w, o, d), true) else (w, false)
  }

  /** water_pusher around c over the offsets ds in turn; each offset sees the world the earlier ones left. */
  function PushAround(w: World, c: Pos, ds: seq<Pos>): (r: (World, bool))
    ensures SameFrame(w, r.0)
    ensures !r.1 ==> r.0 == w
    decreases |ds|
  {
    if ds == [] then (w, false)
    else
      var (w1, b1) := PushOne(w, c, ds[0]);
      var (w2, b2) := PushAround(w1, c, ds[1..]);
      (w2, b1 || b2)
  }

  /**
   * In a world whose tiles name only units standing on them, the unit on
   * the centre cell is never moved by water_pusher: every push starts at a
   * neighbour and runs outwards, away from the centre.
   */
  lemma {:induction false} PushSparesCentre(w: World, c: Pos, ds: seq<Pos>, id: Id)
    requires Tracked(w) && id in w.units && PosOf(w.units[id]) == c
    ensures PushAround(w, c, ds).0.units[id] == w.units[id]
    decreases |ds|
  {
    if ds != [] {
      var d := ds[0];
      var w1 := PushOne(w, c, d).0;
      PushOneSparesCentre(w, c, d, id);
      PushSparesCentre(w1, c, ds[1..], id);
      assert PushAround(w, c, ds).0 == PushAround(w1, c, ds[1..]).0;
    }
  }

  /** One water_pusher offset: the push starts beyond the centre, so the centre unit stays and the tiles stay tracked. */
  lemma PushOneSparesCentre(w: World, c: Pos, d: Pos, id: Id)
    requires Tracked(w) && id in w.units && PosOf(w.units[id]) == c
    ensures var w1 := PushOne(w, c, d).0;
            Tracked(w1) && id in w1.units && w1.units[id] == w.units[id]
  {
    if PushOne(w, c, d).1 {
      var t := Shift(c, d);
      var o := Resident(w, t).value;
      assert InFootprint(w.units[o], t);
      assert PosOf(w.units[o]) == t;
      AheadShrinks(w.board, c, d);
      assert Dot(PosOf(w.units[id]), d) < Dot(PosOf(w.units[o]), d);
      PushKeepsTracked(w, o, d);
    }
  }

  // ---------------------------------------------------------------- consume

  /** Shift every cooldown of a general; a unit without skills is left alone. */
  function ShiftCds(u: Unit, delta: int): (v: Unit)
    ensures u.role.Commander? ==> v == u.(role := Commander(u.role.g.(skills := ChangeAllCd(u.role.g.skills, delta))))
    ensures !u.role.Commander? ==> v == u
  {
    if u.role.Commander? then u.(role := Commander(u.role.g.(skills := ChangeAllCd(u.role.g.skills, delta)))) else u
  }

  /**
   * consume: the unit on the cell dies, then the general heals by hp_gain
   * and every one of its cooldowns moves by delta_cd.  Always truthy.
   */
  function ConsumeOn(w: World, gid: Id, p: Pos, hpGain: int, deltaCd: int): (r: Result<(World, bool)>)
    requires gid in w.units
    ensures Resident(w, p).None? ==>
              r == Ok((SetUnit(w, gid, ShiftCds(HealUnit(w.units[gid], hpGain), deltaCd)), true))
    ensures Resident(w, p).Some? ==> (r.Crash? <==> Die(w, Resident(w, p).value).Crash?)
    ensures r.Ok? ==> r.value.1 && Grows(w, r.value.0)
  {
    var w1 :- if Resident(w, p).Some? then Die(w, Resident(w, p).value) else Ok(w);
    Ok((SetUnit(w1, gid, ShiftCds(HealUnit(w1.units[gid], hpGain), deltaCd)), true))
  }

  /**
   * Consuming a unit kills it (unless it is an emperor in human form) and
   * moves each cooldown of the general, as the death left it, by delta,
   * clamped to the skill's range.
   */
  lemma ConsumeShiftsCds(w: World, gid: Id, p: Pos, hpGain: int, deltaCd: int)
    requires gid in w.units && ConsumeOn(w, gid, p, hpGain, deltaCd).Ok?
    requires Resident(w, p).Some? && Resident(w, p).value != gid && !HumanEmperor(w.units[Resident(w, p).value])
    ensures var m := Resident(w, p).value;
            var w1 := Die(w, m).value;
            var w' := ConsumeOn(w, gid, p, hpGain, deltaCd).value.0;
            && !w'.units[m].alive
            && (w1.units[gid].role.Commander? ==>
                  && w'.units[gid].role.Commander?
                  && w'.units[gid].role.g.skills == ChangeAllCd(w1.units[gid].role.g.skills, deltaCd))
  {
    var m := Resident(w, p).value;
    var w1 := Die(w, m).value;
    assert ConsumeOn(w, gid, p, hpGain, deltaCd).value.0 == SetUnit(w1, gid, ShiftCds(HealUnit(w1.units[gid], hpGain), deltaCd));
  }

  // ---------------------------------------------------------------- nuke

  /** nuke: the unit on the cell, if any, is attacked with the given power and damage type; always truthy. */
  function NukeOn(w: World, gid: Id, p: Pos, power: int, kind: string): (r: Result<(World, bool)>)
    requires gid in w.units
    ensures Resident(w, p).None? ==> r == Ok((w, true))
    ensures Resident(w, p).Some? ==>
              (r.Ok? <==> GetAttacked(w, Resident(w, p).value, ByUnit(gid), Some((power, kind))).Ok?)
    ensures Resident(w, p).Some? && r.Ok? ==>
              r.value.0 == GetAttacked(w, Resident(w, p).value, ByUnit(gid), Some((power, kind))).value
    ensures r.Ok? ==> r.value.1 && Grows(w, r.value.0)
  {
    match Resident(w, p)
    case None => Ok((w, true))
    case Some(o) =>
      var w1 :- GetAttacked(w, o, ByUnit(gid), Some((power, kind)));
      Ok((w1, true))
  }

  // ---------------------------------------------------------------- apply_status

  /**
   * apply_status: a fresh copy of the status goes on the unit of the cell,
   * or on the general itself when self-cast, with the general as its
   * owner; an empty cell only builds a status nobody carries.  Always
   * truthy, unless the status cannot be copied.
   */
  function StatusOn(w: World, gid: Id, p: Pos, s: Status, selfcast: bool): (r: Result<(World, bool)>)
    requires gid in w.units && WellFormed(s)
    ensures s.kind.Vanished? ==> r.Crash?
    ensures !selfcast && Resident(w, p).None? && !s.kind.Vanished? ==> r == Ok((w, true))
    ensures r.Ok? ==> r.value.1 && Grows(w, r.value.0)
    ensures r.Ok? ==> var t := if selfcast then Some(gid) else Resident(w, p);
              forall k :: k in w.units && Some(k) != t ==> r.value.0.units[k] == w.units[k]
  {
    var c :- CloneStatus(s);
    match if selfcast then Some(gid) else Resident(w, p)
    case None => Ok((w, true))
    case Some(t) =>
      var w1 :- Attach(w, t, c.(owner := Some(gid)));
      Ok((w1, true))
  }

  // ---------------------------------------------------------------- create_minions

  /** The general's minion count moves by delta; a unit that holds no general data is left alone. */
  function AddAlive(w: World, gid: Id, delta: int): (w': World)
    requires gid in w.units
    ensures IsGeneral(w, gid) ==> w' == SetData(w, gid, w.units[gid].role.g.(minionsAlive := w.units[gid].role.g.minionsAlive + delta))
    ensures !IsGeneral(w, gid) ==> w' == w
  {
    if IsGeneral(w, gid) then SetData(w, gid, w.units[gid].role.g.(minionsAlive := w.units[gid].role.g.minionsAlive + delta)) else w
  }

  /**
   * create_minions: clone the general's minion template at every listed
   * cell, appending each clone that stands to the battle's minions and
   * counting it in the general's minion count; truthy when any stood.
   */
  function CreateAt(w: World, gid: Id, tmpl: Option<Unit>, cells: seq<Pos>): (r: (World, bool))
    requires gid in w.units && gid < w.nextId && (tmpl.Some? ==> Clonable(tmpl.value))
    ensures tmpl.None? ==> r == (w, false)
    ensures tmpl.Some? ==>
              var (w1, ids) := PlaceAlong(w, tmpl.value, cells, |cells|);
              && r.0 == AddAlive(w1, gid, |ids|)
              && (r.1 <==> ids != [])
    ensures Grows(w, r.0)
  {
    match tmpl
    case None => (w, false)
    case Some(t) =>
      var (w1, ids) := PlaceAlong(w, t, cells, |cells|);
      (AddAlive(w1, gid, |ids|), ids != [])
  }

  /**
   * create_minions never stops early: every cell where the clone fits gets
   * one, and the count rises by exactly the number of clones that stood.
   */
  lemma CreateCounts(w: World, gid: Id, tmpl: Unit, cells: seq<Pos>)
    requires IsGeneral(w, gid) && gid < w.nextId && Clonable(tmpl)
    ensures var (w1, ids) := PlaceAlong(w, tmpl, cells, |cells|);
            var r := CreateAt(w, gid, Some(tmpl), cells);
            && IsGeneral(r.0, gid)
            && r.0.units[gid].role.g.minionsAlive == w.units[gid].role.g.minionsAlive + |ids|
            && r.0.minions == w.minions + ids
            && (r.1 <==> |ids| > 0)
            && (cells != [] && CanPlace(w, tmpl, cells[0]) ==> r.1)
  {
    if cells != [] && CanPlace(w, tmpl, cells[0]) {
      FirstCellFilled(w, tmpl, cells, |cells|);
    }
  }

  /** The glider's five cells around (x, y): it heads down when go_bottom, and towards the enemy's half. */
  function GliderCells(c: Pos, side: int, goBottom: bool): (cs: seq<Pos>)
    ensures |cs| == 5 && c in cs
  {
    var (x, y) := c;
    var j := if goBottom then 1 else -1;
    var i := if side == 0 then 1 else -1;
    [(x - i, y - j), (x, y - j), (x, y), (x + i, y), (x - i, y + j)]
  }

  /** The lightweight spaceship's nine cells around (x, y), facing the enemy's half. */
  function LwssCells(c: Pos, side: int): (cs: seq<Pos>)
    ensures |cs| == 9 && c !in cs
  {
    var (x, y) := c;
    var j := if side == 0 then 1 else -1;
    [(x - j, y - 1), (x, y - 1), (x + j, y - 1), (x + 2 * j, y - 1), (x - 2 * j, y),
     (x + 2 * j, y), (x + 2 * j, y + 1), (x - 2 * j, y + 2), (x + j, y + 2)]
  }

  /** Cell c lies r cells or more from every edge of the grid. */
  predicate Margin(b: Board, c: Pos, r: int)
  {
    Inside(b, (c.0 - r, c.1 - r)) && Inside(b, (c.0 + r, c.1 + r))
  }

  /** minion_glider: nothing next to the edge; otherwise the glider's cells go to create_minions. */
  function GliderOn(w: World, gid: Id, tmpl: Option<Unit>, c: Pos, goBottom: bool): (r: (World, bool))
    requires gid in w.units && gid < w.nextId && (tmpl.Some? ==> Clonable(tmpl.value))
    ensures !Margin(w.board, c, 1) ==> r == (w, false)
    ensures Margin(w.board, c, 1) ==> r == CreateAt(w, gid, tmpl, GliderCells(c, w.units[gid].side, goBottom))
    ensures Grows(w, r.0)
  {
    if !Margin(w.board, c, 1) then (w, false)
    else CreateAt(w, gid, tmpl, GliderCells(c, w.units[gid].side, goBottom))
  }

  /** Every glider cell lies within one step of the centre, so the margin test keeps the glider on the grid. */
  lemma GliderInside(b: Board, c: Pos, side: int, goBottom: bool)
    requires Margin(b, c, 1)
    ensures forall p :: p in GliderCells(c, side, goBottom) ==> Inside(b, p)
  {
  }

  /** minion_lwss: nothing within two cells of the edge; otherwise the ship's cells go to create_minions. */
  function LwssOn(w: World, gid: Id, tmpl: Option<Unit>, c: Pos): (r: (World, bool))
    requires gid in w.units && gid < w.nextId && (tmpl.Some? ==> Clonable(tmpl.value))
    ensures !Margin(w.board, c, 2) ==> r == (w, false)
    ensures Margin(w.board, c, 2) ==> r == CreateAt(w, gid, tmpl, LwssCells(c, w.units[gid].side))
    ensures Grows(w, r.0)
  {
    if !Margin(w.board, c, 2) then (w, false)
    else CreateAt(w, gid, tmpl, LwssCells(c, w.units[gid].side))
  }

  /** Every cell of the ship lies within two steps of the centre. */
  lemma LwssInside(b: Board, c: Pos, side: int)
    requires Margin(b, c, 2)
    ensures forall p :: p in LwssCells(c, side) ==> Inside(b, p)
  {
  }

  // ---------------------------------------------------------------- darkness

  /** The temporary dark patch darkness leaves on a cell. */
  function Dark(p: Pos, duration: int): (e: Effect)
    ensures PosOfFx(e) == p && e.kind == Temp(duration) && e.side == NeutralSide && e.alive
  {
    Effect(NeutralSide, p.0, p.1, true, 0, 0, [], Temp(duration))
  }

  /** darkness: a passable cell gets a temporary effect of the given duration; the call says whether it did. */
  function DarknessOn(w: World, p: Pos, duration: int): (r: (World, bool))
    ensures r.1 <==> At(w.board, p).passable
    ensures !r.1 ==> r.0 == w
    ensures r.1 ==> NewEffect(w, Dark(p, duration)) == Ok((r.0, w.nextId))
    ensures Grows(w, r.0) && r.0.units == w.units
  {
    if !At(w.board, p).passable then (w, false)
    else
      var (w1, _) := NewEffect(w, Dark(p, duration)).value;
      (w1, true)
  }

  // ---------------------------------------------------------------- sonic_waves

  /**
   * The cell of the i-th wave: int() of a half-integer in the original,
   * written here on doubled values.  The waves fan out behind the general
   * in pairs, the even ones above its row and the odd ones below.
   */
  function WaveCell(g: Pos, side: int, i: nat): Pos
  {
    var x := if side == 0 then TruncDiv(2 * g.0 + 1 - i, 2) else TruncDiv(2 * g.0 + i - 1, 2);
    var y := if i % 2 == 0 then TruncDiv(2 * g.1 - i - 1, 2) else TruncDiv(2 * g.1 + i + 1, 2);
    (x, y)
  }

  /**
   * Away from the grid's edge the i-th wave of side 0 is i/2 columns behind
   * the general and i/2 + 1 rows above it (even i) or (i + 1)/2 rows below
   * it (odd i): waves 0 and 1 flank the general, 2 and 3 a column back, and so on.
   */
  lemma WaveShape(g: Pos, i: nat)
    requires g.0 >= i && g.1 >= i + 1
    ensures WaveCell(g, 0, i) == (g.0 - i / 2, if i % 2 == 0 then g.1 - i / 2 - 1 else g.1 + (i + 1) / 2)
  {
    assert TruncDiv(2 * g.0 + 1 - i, 2) == (2 * g.0 + 1 - i) / 2;
    if i % 2 == 0 {
      assert TruncDiv(2 * g.1 - i - 1, 2) == (2 * g.1 - i - 1) / 2;
    } else {
      assert TruncDiv(2 * g.1 + i + 1, 2) == (2 * g.1 + i + 1) / 2;
    }
  }

  /** A wave of the given side and power on cell c, with nobody struck yet. */
  function WaveAt(side: int, c: Pos, power: int): (e: Effect)
    ensures PosOfFx(e) == c && e.kind == WaveFx([]) && e.power == power && e.side == side
  {
    Effect(side, c.0, c.1, true, power, 0, [], WaveFx([]))
  }

  /** How many of the waves from the i-th on fall inside the grid. */
  function Launched(b: Board, g: Pos, side: int, i: nat, waves: int): (n: nat)
    decreases waves - i
  {
    if i >= waves then 0 else (if Inside(b, WaveCell(g, side, i)) then 1 else 0) + Launched(b, g, side, i + 1, waves)
  }

  /** Only the grid's dimensions decide which waves fall inside it. */
  lemma {:induction false} LaunchedDims(b: Board, b': Board, g: Pos, side: int, i: nat, waves: int)
    requires b'.width == b.width && b'.height == b.height
    ensures Launched(b', g, side, i, waves) == Launched(b, g, side, i, waves)
    decreases waves - i
  {
    if i < waves {
      LaunchedDims(b, b', g, side, i + 1, waves);
    }
  }

  /**
   * The waves from the i-th on.  A wave whose cell is inside the grid is
   * built (its constructor lists it among the battle's effects and strikes
   * its cell) and then listed a second time; the others are skipped.
   */
  function Waves(w: World, g: Pos, side: int, power: int, i: nat, waves: int): (r: Result<World>)
    ensures r.Ok? ==> Grows(w, r.value)
    ensures r.Ok? ==> |r.value.effects| == |w.effects| + 2 * Launched(w.board, g, side, i, waves)
    decreases waves - i
  {
    if i >= waves then Ok(w)
    else
      var c := WaveCell(g, side, i);
      if !Inside(w.board, c) then Waves(w, g, side, power, i + 1, waves)
      else
        var (w1, f) :- NewEffect(w, WaveAt(side, c, power));
        var w2 :- WaveHit(w1, f);
        LaunchedDims(w.board, w2.board, g, side, i + 1, waves);
        Waves(w2.(effects := w2.effects + [f]), g, side, power, i + 1, waves)
  }

  /** sonic_waves: the waves go out from the general's cell; the call is truthy whenever any wave was asked for. */
  function SonicOn(w: World, gid: Id, power: int, waves: int): (r: Result<(World, bool)>)
    requires gid in w.units
    ensures r.Ok? ==> (r.value.1 <==> waves > 0) && Grows(w, r.value.0)
    ensures r.Ok? ==> |r.value.0.effects| == |w.effects| + 2 * Launched(w.board, PosOf(w.units[gid]), w.units[gid].side, 0, waves)
  {
    var w1 :- Waves(w, PosOf(w.units[gid]), w.units[gid].side, power, 0, waves);
    Ok((w1, waves > 0))
  }

  // ---------------------------------------------------------------- restock_minions

  /** The general's minion template, when it has one, may be cloned. */
  predicate Armed(w: World, gid: Id)
  {
    && IsGeneral(w, gid)
    && (w.units[gid].role.g.template.Some? ==>
          w.units[gid].role.g.template.value in w.units && Clonable(w.units[w.units[gid].role.g.template.value]))
  }

  /**
   * restock_minions(number): place a formation of `number` minions while
   * keeping the old count aside, re-command the selected tactic (whose
   * index is looked up among the general's tactics) and recount.
   */
  function RestockOn(w: World, gid: Id, number: int): (r: Result<(World, bool)>)
    requires Armed(w, gid) && gid < w.nextId
    ensures var g := w.units[gid].role.g;
            r.Crash? <==> g.selected !in g.tactics
    ensures r.Ok? ==> r.value.1 && IsGeneral(r.value.0, gid) && Grows(w, r.value.0)
    ensures r.Ok? ==> var w' := r.value.0;
              w'.units[gid].role.g.minionsAlive == LiveCount(w', w'.minions, w.units[gid].side)
    ensures r.Ok? ==> var g := w.units[gid].role.g;
              var g' := r.value.0.units[gid].role.g;
              g'.selected == g.selected && g'.tactics == g.tactics && g'.skills == g.skills
    ensures r.Ok? ==> |r.value.0.minions| >= |w.minions|
  {
    var g := w.units[gid].role.g;
    var w3 := Replenish(w, gid, number);
    match IndexOf(g.tactics, g.selected)
    case None => Crash("IndexError")
    case Some(k) =>
      match CommandTactic(w3, gid, k)
      case Crash(e) => Crash(e)
      case Ok(w4) => Ok((Recount(w4, gid), true))
  }

  /** The placing half of restock_minions: a formation of `number` minions, the general's data left as it was. */
  function Replenish(w: World, gid: Id, number: int): (w': World)
    requires Armed(w, gid) && gid < w.nextId
    ensures IsGeneral(w', gid) && w'.units[gid] == w.units[gid] && w'.units[gid].role.g == w.units[gid].role.g
    ensures Grows(w, w') && |w'.minions| >= |w.minions|
  {
    var g := w.units[gid].role.g;
    var w1 := SetData(w, gid, g.(minionsAlive := number));
    var (w2, _) := Place(w1, gid);
    assert w2.units[gid] == w1.units[gid];
    SetData(w2, gid, g)
  }

  // ---------------------------------------------------------------- Skill.use

  /** What a skill function needs that the original always supplies: a clonable template, a well-formed status. */
  predicate Fits(fn: SkillFn, tmpl: Option<Unit>)
  {
    && (tmpl.Some? ==> Clonable(tmpl.value))
    && (fn.PlaceEntity? ==> tmpl.Some?)
    && (fn.ApplyStatus? ==> WellFormed(fn.status))
  }

  /** A skill function applied to one cell of its area. */
  function OnTile(w: World, gid: Id, fn: SkillFn, tmpl: Option<Unit>, p: Pos): (r: Result<(World, bool)>)
    requires gid in w.units && gid < w.nextId && Fits(fn, tmpl)
    ensures AreaLess(fn) ==> r.Crash?
    ensures r.Ok? ==> Grows(w, r.value.0)
  {
    match fn
    case PlaceEntity(_) => PlaceOn(w, gid, tmpl.value, p)
    case Consume(hp, cd) => ConsumeOn(w, gid, p, hp, cd)
    case Nuke(power, kind) => NukeOn(w, gid, p, power, kind)
    case ApplyStatus(s, selfcast) => StatusOn(w, gid, p, s, selfcast)
    case NullFn | CreateMinions(_) | SonicWaves(_, _) | RestockMinions(_) => Crash("TypeError")
    case _ => Ok(Safely(w, gid, fn, tmpl, p))
  }

  /** The skill functions that cannot raise, on one cell. */
  function Safely(w: World, gid: Id, fn: SkillFn, tmpl: Option<Unit>, p: Pos): (r: (World, bool))
    requires gid in w.units && gid < w.nextId && (tmpl.Some? ==> Clonable(tmpl.value))
    ensures Grows(w, r.0)
  {
    match fn
    case Heal(a) => HealOn(w, p, a)
    case WaterPusher => PushAround(w, p, PushOrder)
    case MinionGlider(goBottom) => GliderOn(w, gid, tmpl, p, goBottom)
    case MinionLwss => LwssOn(w, gid, tmpl, p)
    case Darkness(d) => DarknessOn(w, p, d)
    case _ => (w, false)
  }

  /**
   * apply_function: the function on every cell in turn, counting the
   * truthy applications (`did_anything += ...` adds booleans as integers).
   */
  function ApplyAll(w: World, gid: Id, fn: SkillFn, tmpl: Option<Unit>, cells: seq<Pos>): (r: Result<(World, nat)>)
    requires gid in w.units && gid < w.nextId && Fits(fn, tmpl)
    ensures cells == [] ==> r == Ok((w, 0))
    ensures AreaLess(fn) && cells != [] ==> r.Crash?
    ensures r.Ok? ==> r.value.1 <= |cells| && Grows(w, r.value.0)
    decreases |cells|
  {
    if cells == [] then Ok((w, 0))
    else
      var (w1, b) :- OnTile(w, gid, fn, tmpl, cells[0]);
      var (w2, n) :- ApplyAll(w1, gid, fn, tmpl, cells[1..]);
      Ok((w2, n + if b then 1 else 0))
  }

  /** A nuke is truthy on every cell, whoever stands there: the count is the number of cells. */
  lemma {:induction false} NukeCountsEveryCell(w: World, gid: Id, power: int, kind: string, cells: seq<Pos>)
    requires gid in w.units && gid < w.nextId
    requires ApplyAll(w, gid, Nuke(power, kind), None, cells).Ok?
    ensures ApplyAll(w, gid, Nuke(power, kind), None, cells).value.1 == |cells|
    decreases |cells|
  {
    if cells != [] {
      var w1 := OnTile(w, gid, Nuke(power, kind), None, cells[0]).value.0;
      NukeCountsEveryCell(w1, gid, power, kind, cells[1..]);
    }
  }

  /** Darkness is truthy exactly on the passable cells; casting it creates no unit and moves none. */
  lemma {:induction false} DarknessCountsPassable(w: World, gid: Id, d: int, cells: seq<Pos>)
    requires gid in w.units && gid < w.nextId
    ensures var r := ApplyAll(w, gid, Darkness(d), None, cells);
            && r.Ok? && r.value.0.units == w.units
            && r.value.1 == |Filter(cells, p => At(w.board, p).passable)|
    decreases |cells|
  {
    if cells != [] {
      var w1 := DarknessOn(w, cells[0], d).0;
      assert forall p :: At(w1.board, p).passable == At(w.board, p).passable by {
        if At(w.board, cells[0]).passable {
          assert NewEffect(w, Dark(cells[0], d)).value.0 == w1;
        }
      }
      DarknessCountsPassable(w1, gid, d, cells[1..]);
      FilterSame(cells[1..], p => At(w1.board, p).passable, p => At(w.board, p).passable);
    }
  }

  lemma {:induction false} FilterSame<T(!new)>(s: seq<T>, f: T -> bool, g: T -> bool)
    requires forall x :: f(x) == g(x)
    ensures Filter(s, f) == Filter(s, g)
    decreases |s|
  {
    if s != [] {
      FilterSame(s[1..], f, g);
    }
  }

  /** What the original's objects always provide: a general with a clonable template, the template a skill places, a well-formed status. */
  predicate Usable(w: World, gid: Id, fn: SkillFn)
  {
    && Armed(w, gid) && gid < w.nextId
    && (fn.PlaceEntity? ==> fn.template in w.units && Clonable(w.units[fn.template]))
    && (fn.ApplyStatus? ==> WellFormed(fn.status))
  }

  /** The template a skill function clones: place_entity's own, or the general's minion template. */
  function TemplateFor(w: World, gid: Id, fn: SkillFn): (t: Option<Unit>)
    requires Usable(w, gid, fn)
    ensures Fits(fn, t)
  {
    match fn
    case PlaceEntity(e) => Some(w.units[e])
    case _ => if w.units[gid].role.g.template.Some? then Some(w.units[w.units[gid].role.g.template.value]) else None
  }

  /**
   * Skill.use at (x, y).  A dummy skill does nothing.  Without an area
   * the function is called with no cell, which only the area-less ones
   * accept; with one, the cells are gathered first and the use is truthy
   * when any cell's application was.
   */
  function Use(w: World, gid: Id, s: Skill, x: int, y: int): (r: Result<(World, bool)>)
    requires Usable(w, gid, s.fn)
    requires s.area.Some? && s.area.value.general.Some? ==> s.area.value.general.value in w.units
    ensures s.dummy ==> r == Ok((w, false))
    ensures !s.dummy && s.area.None? && !AreaLess(s.fn) ==> r.Crash?
    ensures !s.dummy && s.area.None? && s.fn.NullFn? ==> r == Ok((w, false))
    ensures !s.dummy && s.area.Some? ==>
              var cells := GetTiles(w, s.area.value, x, y);
              && (cells.Crash? ==> r == Crash(cells.reason))
              && (cells == Ok([]) ==> r == Ok((w, false)))
              && (AreaLess(s.fn) && cells.Ok? && cells.value != [] ==> r.Crash?)
              && (r.Ok? ==> cells.Ok? &&
                             var a := ApplyAll(w, gid, s.fn, TemplateFor(w, gid, s.fn), cells.value);
                             a.Ok? && r.value == (a.value.0, a.value.1 > 0))
    ensures r.Ok? ==> Grows(w, r.value.0)
  {
    if s.dummy then Ok((w, false))
    else match s.area
      case None =>
        (match s.fn
         case NullFn => Ok((w, false))
         case CreateMinions(cells) => Ok(CreateAt(w, gid, TemplateFor(w, gid, s.fn), cells))
         case SonicWaves(power, waves) => SonicOn(w, gid, power, waves)
         case RestockMinions(n) => RestockOn(w, gid, n)
         case _ => Crash("TypeError"))
      case Some(a) =>
        var cells :- GetTiles(w, a, x, y);
        var (w1, n) :- ApplyAll(w, gid, s.fn, TemplateFor(w, gid, s.fn), cells);
        Ok((w1, n > 0))
  }
}
