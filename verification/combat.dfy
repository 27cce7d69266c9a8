/**
 * Damage, healing, death and cloning: Minion.get_attacked, get_healed, die,
 * enemy_reachable, try_attack and clone, with the overrides of BigMinion,
 * Mine, Fortress and the Emperor.
 */
module Combat {
  import opened Wrappers
  import opened Grid
  import opened State
  import opened Seqs
  import opened Movement

  /** Who strikes: a unit, an effect, or a status (poison) acting for its owner. */
  datatype Attacker = ByUnit(id: Id) | ByEffect(fx: Id) | ByStatus(owner: Option<Id>, power: int)

  predicate Known(w: World, a: Attacker)
  {
    match a
    case ByUnit(id) => id in w.units
    case ByEffect(e) => e in w.fx
    case ByStatus(_, _) => true
  }

  /** Plain entities and fortresses have no power; the original reads their None as 0. */
  predicate HasPower(u: Unit)
  {
    !u.role.Prop? && !u.role.Fort?
  }

  function PowerOf(u: Unit): int
  {
    if HasPower(u) then u.power else 0
  }

  /** An attacker's own power and attack type (statuses strike with magic). */
  function Strike(w: World, a: Attacker): (int, string)
    requires Known(w, a)
  {
    match a
    case ByUnit(id) => (PowerOf(w.units[id]), "physical")
    case ByEffect(e) => (w.fx[e].power, "physical")
    case ByStatus(_, p) => (p, "magical")
  }

  /** The hit points one strike removes: power beyond the armor for its type, never negative. */
  function Damage(power: int, armor: int): (d: nat)
    ensures d == 0 <==> power <= armor
    ensures d > 0 ==> d == power - armor
  {
    if power > armor then power - armor else 0
  }

  lemma DamageMonotone(power: int, a1: int, a2: int)
    requires a1 <= a2
    ensures Damage(power, a2) <= Damage(power, a1)
  {
  }

  // ---------------------------------------------------------------- kills and deaths

  /** register_kill of whoever struck: a unit and its owner, an effect, or a status's owner. */
  function Credit(w: World, a: Attacker): (w': World)
    requires Known(w, a)
    ensures Steady(w, w') && w'.board == w.board && FxAsBefore(w, w')
    ensures a.ByUnit? ==> w'.units[a.id].kills > w.units[a.id].kills
    ensures forall k :: k in w.units ==> w'.units[k] == w.units[k].(kills := w'.units[k].kills)
  {
    match a
    case ByUnit(id) => RegisterKill(w, id)
    case ByEffect(e) => SetFx(w, e, w.fx[e].(kills := w.fx[e].kills + 1))
    case ByStatus(owner, _) =>
      if owner.Some? && owner.value in w.units
      then SetUnit(w, owner.value, w.units[owner.value].(kills := w.units[owner.value].kills + 1))
      else w
  }

  /** Add delta to minions_alive of the general at index `side` of the generals list. */
  function AdjustAlive(w: World, side: int, delta: int): (r: Result<World>)
    ensures r.Crash? <==> PyIndex(|w.generals|, side).None?
    ensures r.Ok? ==> Steady(w, r.value) && r.value.board == w.board && r.value.fx == w.fx
    ensures r.Ok? ==> forall k :: k in w.units ==>
              r.value.units[k] == w.units[k].(role := r.value.units[k].role)
  {
    match PyIndex(|w.generals|, side)
    case None => Crash("IndexError")
    case Some(k) =>
      var g := w.generals[k];
      if g in w.units && w.units[g].role.Commander? then
        var u := w.units[g];
        Ok(SetUnit(w, g, u.(role := Commander(u.role.g.(minionsAlive := u.role.g.minionsAlive + delta)))))
      else Ok(w)
  }

  /** An Emperor in human form: dying only tries its null skill. */
  predicate HumanEmperor(u: Unit)
  {
    u.role.Commander? && u.role.g.variant.Emperor? && u.role.g.variant.humanForm
  }

  /**
   * die, dispatched on the kind of unit: Entity.die for plain entities and
   * mines, BigEntity.die for giants and fortresses, Minion.die (which also
   * lowers the side's minion count for rostered minions) for the rest, and
   * Emperor.die, which in human form only uses skill 3.
   */
  function Die(w: World, id: Id): (r: Result<World>)
    requires id in w.units
    ensures r.Ok? ==> Steady(w, r.value) && r.value.fx == w.fx
    ensures r.Ok? ==> forall k :: k in w.units ==> r.value.units[k].kills == w.units[k].kills && r.value.units[k].hp == w.units[k].hp
    ensures HumanEmperor(w.units[id]) ==> r == (if |w.units[id].role.g.skills| <= 3 then Crash("IndexError") else Ok(w))
    ensures !HumanEmperor(w.units[id]) && r.Ok? ==>
              && !r.value.units[id].alive
              && forall q :: q in w.board.tiles && InFootprint(w.units[id], q) ==> r.value.board.tiles[q].occupant.None?
    ensures r.Crash? ==> HumanEmperor(w.units[id]) || id in w.minions
  {
    var u := w.units[id];
    if HumanEmperor(u) then (if |u.role.g.skills| <= 3 then Crash("IndexError") else Ok(w))
    else if u.role.Grunt? || u.role.Archer? || u.role.Commander? then MinionDie(w, id)
    else Ok(Vacate(w, id))
  }

  function MinionDie(w: World, id: Id): (r: Result<World>)
    requires id in w.units
    ensures r.Ok? ==> Steady(w, r.value) && !r.value.units[id].alive && r.value.fx == w.fx
    ensures r.Ok? ==> forall k :: k in w.units ==> r.value.units[k].kills == w.units[k].kills && r.value.units[k].hp == w.units[k].hp
    ensures r.Ok? ==> forall q :: q in w.board.tiles && InFootprint(w.units[id], q) ==> r.value.board.tiles[q].occupant.None?
    ensures r.Crash? ==> id in w.minions
  {
    var w1 := Vacate(w, id);
    if id in w.minions then AdjustAlive(w1, w.units[id].side, -1) else Ok(w1)
  }

  /** A rostered minion's death lowers its general's count by exactly one. */
  lemma MinionDeathCounted(w: World, id: Id)
    requires id in w.units && (w.units[id].role.Grunt? || w.units[id].role.Archer?)
    requires id in w.minions && 0 <= w.units[id].side < |w.generals|
    requires var g := w.generals[w.units[id].side]; g in w.units && g != id && w.units[g].role.Commander?
    ensures Die(w, id).Ok?
    ensures var g := w.generals[w.units[id].side];
            Die(w, id).value.units[g].role.g.minionsAlive == w.units[g].role.g.minionsAlive - 1
  {
  }

  // ---------------------------------------------------------------- being attacked

  /** Minion.get_attacked with the strike's power and type settled. */
  function Wound(w: World, t: Id, a: Attacker, power: int, kind: string): (r: Result<World>)
    requires t in w.units && Known(w, a)
    ensures r.Ok? ==> Steady(w, r.value) && FxAsBefore(w, r.value)
    ensures r.Ok? ==> var hp := w.units[t].hp - Damage(power, ArmorOf(w.units[t], kind));
                      r.value.units[t].hp == (if hp > 0 then hp else 0)
    ensures w.units[t].hp - Damage(power, ArmorOf(w.units[t], kind)) > 0 ==>
              r == Ok(SetUnit(w, t, w.units[t].(hp := w.units[t].hp - Damage(power, ArmorOf(w.units[t], kind)))))
  {
    var u := w.units[t];
    var hp := u.hp - Damage(power, ArmorOf(u, kind));
    if hp > 0 then Ok(SetUnit(w, t, u.(hp := hp))) else Slay(w, t, a)
  }

  /** The lethal branch of get_attacked: hit points to zero, die, credit the attacker. */
  function Slay(w: World, t: Id, a: Attacker): (r: Result<World>)
    requires t in w.units && Known(w, a)
    ensures r.Ok? ==> Steady(w, r.value) && r.value.units[t].hp == 0 && FxAsBefore(w, r.value)
    ensures r.Ok? && !HumanEmperor(w.units[t]) ==> !r.value.units[t].alive
    ensures r.Ok? && a.ByUnit? ==> r.value.units[a.id].kills > w.units[a.id].kills
  {
    var w1 := SetUnit(w, t, w.units[t].(hp := 0));
    assert Steady(w, w1) && HumanEmperor(w1.units[t]) == HumanEmperor(w.units[t]);
    match Die(w1, t)
    case Crash(e) => Crash(e)
    case Ok(w2) =>
      var w3 := Credit(w2, a);
      SteadyTrans(w, w1, w2);
      SteadyTrans(w, w2, w3);
      Ok(w3)
  }

  /** A killing blow: the target is dead (unless it is a human-form Emperor) and the attacker credited. */
  lemma KillCredited(w: World, t: Id, id: Id, power: int, kind: string)
    requires t in w.units && id in w.units && !HumanEmperor(w.units[t])
    requires w.units[t].hp - Damage(power, ArmorOf(w.units[t], kind)) <= 0
    requires Wound(w, t, ByUnit(id), power, kind).Ok?
    ensures var w' := Wound(w, t, ByUnit(id), power, kind).value;
            !w'.units[t].alive && w'.units[t].hp == 0 && w'.units[id].kills > w.units[id].kills
  {
  }

  /**
   * Mine.get_attacked: an attackable attacker takes the mine's blast, then
   * the mine is gone.  Two mines striking each other recurse without end; a
   * status has no can_be_attacked and raises.
   */
  function MineStruck(w: World, m: Id, a: Attacker): (r: Result<World>)
    requires m in w.units && Known(w, a)
    ensures r.Ok? ==> Steady(w, r.value) && !r.value.units[m].alive && FxAsBefore(w, r.value)
    ensures a.ByStatus? ==> r.Crash?
    ensures a.ByEffect? ==> r == Ok(Vacate(w, m))
  {
    match a
    case ByUnit(id) =>
      var au := w.units[id];
      if au.role.MineRole? then Crash("RecursionError")
      else if HasHp(au) then
        var w1 :- Wound(w, id, ByUnit(m), PowerOf(w.units[m]), "physical");
        VacateSteady(w1, m);
        SteadyTrans(w, w1, Vacate(w1, m));
        Ok(Vacate(w1, m))
      else VacateSteady(w, m); Ok(Vacate(w, m))
    case ByEffect(_) => VacateSteady(w, m); Ok(Vacate(w, m))
    case ByStatus(_, _) => Crash("AttributeError")
  }

  /** Taking a unit off the board keeps the frame, the statuses and the effects. */
  lemma VacateSteady(w: World, m: Id)
    requires m in w.units
    ensures Steady(w, Vacate(w, m)) && w.fx == Vacate(w, m).fx && !Vacate(w, m).units[m].alive
  {
  }

  /**
   * get_attacked on any unit.  `explicit` carries the power and type a nuke
   * passes; one-argument calls leave it None.  Plain entities and fortresses
   * ignore attacks; a mine cannot take the nuke's extra arguments.
   */
  function GetAttacked(w: World, t: Id, a: Attacker, explicit: Option<(int, string)>): (r: Result<World>)
    requires t in w.units && Known(w, a)
    ensures r.Ok? ==> Steady(w, r.value) && FxAsBefore(w, r.value)
    ensures w.units[t].role.Prop? || w.units[t].role.Fort? ==> r == Ok(w)
    ensures w.units[t].role.MineRole? && explicit.Some? ==> r.Crash?
    ensures HasHp(w.units[t]) && r.Ok? ==>
              var (p, k) := if explicit.Some? then explicit.value else Strike(w, a);
              var hp := w.units[t].hp - Damage(p, ArmorOf(w.units[t], k));
              r.value.units[t].hp == (if hp > 0 then hp else 0)
  {
    var u := w.units[t];
    if u.role.Prop? || u.role.Fort? then Ok(w)
    else if u.role.MineRole? then (if explicit.Some? then Crash("TypeError") else MineStruck(w, t, a))
    else
      var (p, k) := if explicit.Some? then explicit.value else Strike(w, a);
      Wound(w, t, a, p, k)
  }

  /** Minion.get_healed: hit points rise by the amount, capped at max_hp. */
  function HealUnit(u: Unit, amount: int): (v: Unit)
    ensures v == u.(hp := v.hp)
    ensures HasHp(u) ==> v.hp <= u.maxHp && (v.hp == u.hp + amount || v.hp == u.maxHp)
    ensures HasHp(u) && amount >= 0 && u.hp <= u.maxHp ==> v.hp >= u.hp
    ensures !HasHp(u) ==> v == u
  {
    if !HasHp(u) then u
    else if u.hp + amount > u.maxHp then u.(hp := u.maxHp) else u.(hp := u.hp + amount)
  }

  // ---------------------------------------------------------------- finding enemies

  /** A cell holding a unit of another side that can be attacked. */
  predicate HostileAt(w: World, side: int, p: Pos)
  {
    var o := Occupant(w, p);
    o.Some? && o.value in w.units && w.units[o.value].side != side && CanBeAttacked(w.units[o.value])
  }

  /** The position of the first hostile cell, scanning in order. */
  function FirstHostile(w: World, side: int, cells: seq<Pos>): (r: Option<nat>)
    ensures r.Some? ==> r.value < |cells| && HostileAt(w, side, cells[r.value])
    ensures r.Some? ==> forall j :: 0 <= j < r.value ==> !HostileAt(w, side, cells[j])
    ensures r.None? ==> forall j :: 0 <= j < |cells| ==> !HostileAt(w, side, cells[j])
  {
    if cells == [] then None
    else if HostileAt(w, side, cells[0]) then Some(0)
    else match FirstHostile(w, side, cells[1..])
      case None => None
      case Some(k) => Some(k + 1)
  }

  /** Minion.enemy_reachable: the four orthogonal neighbours, then the diagonals on request; x mirrored for side != 0. */
  function SmallProbes(u: Unit, diagonals: bool): (s: seq<Pos>)
    ensures |s| == if diagonals then 8 else 4
  {
    var order := [(1, 0), (-1, 0), (0, -1), (0, 1)] + (if diagonals then [(1, -1), (1, 1), (-1, -1), (-1, 1)] else []);
    seq(|order|, i requires 0 <= i < |order| =>
      (u.x + (if u.side != 0 then -order[i].0 else order[i].0), u.y + order[i].1))
  }

  /** BigMinion.enemy_reachable: the body shifted forward, forward again, down and up. */
  function BigProbes(u: Unit): seq<Pos>
  {
    var f := if u.side == 0 then 1 else -1;
    ShiftAll(Cells(u), (f, 0)) + ShiftAll(Cells(u), (f, 0)) + ShiftAll(Cells(u), (0, 1)) + ShiftAll(Cells(u), (0, -1))
  }

  function Probes(u: Unit, diagonals: bool): seq<Pos>
  {
    if u.role.Giant? then BigProbes(u) else SmallProbes(u, diagonals)
  }

  function EnemyReachable(w: World, id: Id, diagonals: bool): (r: Option<Id>)
    requires id in w.units
    ensures r.Some? ==> exists i :: 0 <= i < |Probes(w.units[id], diagonals)|
                          && Occupant(w, Probes(w.units[id], diagonals)[i]) == r
                          && HostileAt(w, w.units[id].side, Probes(w.units[id], diagonals)[i])
    ensures r.None? ==> forall p :: p in Probes(w.units[id], diagonals) ==> !HostileAt(w, w.units[id].side, p)
  {
    var u := w.units[id];
    var cells := Probes(u, diagonals);
    match FirstHostile(w, u.side, cells)
    case None => None
    case Some(i) => Occupant(w, cells[i])
  }

  /** Without diagonals a small unit only probes its four orthogonal neighbours. */
  lemma SmallProbesOrthogonal(u: Unit, p: Pos)
    requires p in SmallProbes(u, false)
    ensures (p.0 == u.x && (p.1 == u.y - 1 || p.1 == u.y + 1)) || (p.1 == u.y && (p.0 == u.x - 1 || p.0 == u.x + 1))
  {
  }

  /** A side-0 giant probes its forward direction twice and never looks behind itself. */
  lemma BigProbesNeverBehind(u: Unit, p: Pos)
    requires u.side == 0 && p in BigProbes(u)
    ensures p.0 >= u.x
  {
    var f := (1, 0);
    var cs := Cells(u);
    assert forall c :: c in cs ==> c.0 >= u.x;
  }

  /** Minion.try_attack: strike the first reachable enemy, reporting whether there was one. */
  function TryAttack(w: World, id: Id): (r: Result<(World, bool)>)
    requires id in w.units
    ensures r.Ok? ==> (r.value.1 <==> EnemyReachable(w, id, false).Some?)
    ensures EnemyReachable(w, id, false).None? ==> r == Ok((w, false))
    ensures r.Ok? ==> Steady(w, r.value.0) && FxAsBefore(w, r.value.0)
  {
    match EnemyReachable(w, id, false)
    case None => Ok((w, false))
    case Some(e) =>
      var w' :- GetAttacked(w, e, ByUnit(id), None);
      Ok((w', true))
  }

  // ---------------------------------------------------------------- cloning

  /** Templates are minions and mines; generals and fortresses are never cloned. */
  predicate Clonable(u: Unit)
  {
    !u.role.Commander? && !u.role.Fort?
  }

  /** What a clone is built from: the class constructor's own defaults, never the template's state. */
  function Fresh(u: Unit, p: Pos): (v: Unit)
    requires Clonable(u)
    ensures v.x == p.0 && v.y == p.1 && v.alive && v.statuses == [] && v.kills == 0 && v.owner.None?
    ensures v.role.Giant? ==> v.maxHp == 30 * v.role.length && v.hp == v.maxHp
  {
    match u.role
    case Grunt => NewUnit(u.side, p, Grunt, 30, 5, 5)
    case Archer(_) => NewUnit(u.side, p, Archer(4), 10, 1, 10)
    case Giant(l) => NewUnit(u.side, p, Giant(l), 30 * l, 5, 5)
    case MineRole => NewUnit(NeutralSide, p, MineRole, 0, u.power, 5)
    case Prop => NewUnit(u.side, p, Prop, 0, 0, 5)
  }

  /**
   * The clone checks: every cell of the body inside the grid and empty, and
   * the anchor passable for the template's side (BigMinion checks only the
   * anchor's passability, for every cell of its body).
   */
  predicate CanPlace(w: World, u: Unit, p: Pos)
  {
    && (forall c :: c in ShiftAll(DefaultOrder(Length(u), Length(u)), p) ==> Inside(w.board, c) && Occupant(w, c).None?)
    && PassableFor(w, p, u.side)
  }

  /** clone: a fresh unit at p when the cells allow it; nothing changes otherwise. */
  function CloneUnit(w: World, tmpl: Unit, p: Pos): (r: (World, Option<Id>))
    requires Clonable(tmpl)
    ensures r.1.Some? <==> CanPlace(w, tmpl, p)
    ensures r.1.None? ==> r.0 == w
    ensures r.1.Some? ==> r.1.value == w.nextId && r.1.value in r.0.units && r.0.units[r.1.value] == Fresh(tmpl, p)
    ensures r.1.Some? ==> Occupant(r.0, p) == r.1
    ensures r.1.Some? ==> r.0.units.Keys == w.units.Keys + {w.nextId} && r.0.nextId == w.nextId + 1
    ensures r.1.Some? ==> forall k :: k in w.units && k != w.nextId ==> r.0.units[k] == w.units[k]
    ensures r.0.minions == w.minions && r.0.effects == w.effects && r.0.generals == w.generals && r.0.fx == w.fx
    ensures r.0.board.tiles.Keys == w.board.tiles.Keys && r.0.board.order == w.board.order
  {
    if CanPlace(w, tmpl, p) then
      var v := Fresh(tmpl, p);
      assert Length(v) == Length(tmpl);
      assert p in w.board.tiles by {
        var n := Length(tmpl);
        if n == 0 {
          assert PassableFor(w, p, tmpl.side);
        } else {
          DefaultOrderCells(n, n);
          assert (0, 0) in DefaultOrder(n, n);
          var k :| 0 <= k < |DefaultOrder(n, n)| && DefaultOrder(n, n)[k] == (0, 0);
          assert ShiftAll(DefaultOrder(n, n), p)[k] == p;
        }
      }
      assert InFootprint(v, p) || Length(v) == 0;
      var (w', id) := Spawn(w, v);
      (w', Some(id))
    else (w, None)
  }
}
