/**
 * Minion.update and RangedMinion.follow_tactic: a minion first runs its
 * statuses, then either counts its action counter down or, when it reaches
 * zero, resets it and strikes a reachable enemy or follows its tactic.
 */
module Minions {
  import opened Wrappers
  import opened Grid
  import opened State
  import opened Seqs
  import opened Movement
  import opened Combat
  import opened Statuses
  import opened Effects
  import opened Tactics

  /** The cell in front of a unit, in its side's heading. */
  function AheadOf(u: Unit): Pos
  {
    (u.x + Heading(u.side), u.y)
  }

  /** The arrow an archer looses into the cell ahead. */
  function ArrowFrom(u: Unit): (e: Effect)
    requires u.role.Archer?
    ensures e.kind.ArrowFx? && e.alive && e.side == u.side && e.power == u.role.rangedPower
    ensures PosOfFx(e) == AheadOf(u)
  {
    Effect(u.side, u.x + Heading(u.side), u.y, true, u.role.rangedPower, 0, [], ArrowFx)
  }

  /** An archer under `stop` whose forward cell holds nobody shoots instead of stepping. */
  predicate Volley(w: World, id: Id)
    requires id in w.units
  {
    var u := w.units[id];
    u.role.Archer? && u.tactic == Stop && Occupant(w, AheadOf(u)).None?
  }

  /**
   * RangedMinion.follow_tactic.  The arrow's own constructor registers it in
   * the battle's effect list and strikes the cell; the caller then appends it
   * a second time.  Every other minion steps by its tactic.
   */
  function FollowTactic(w: World, id: Id): (r: Result<World>)
    requires id in w.units
    ensures Volley(w, id) ==> (r.Crash? <==> AheadOf(w.units[id]) !in w.board.tiles)
    ensures Volley(w, id) && r.Ok? ==>
              && r.value.units == w.units
              && w.nextId in r.value.fx && r.value.fx[w.nextId] == ArrowFrom(w.units[id])
              && r.value.nextId == w.nextId + 1
              && r.value.effects == w.effects + (if AheadOf(w.units[id]).0 != -1 then [w.nextId] else []) + [w.nextId]
    ensures !Volley(w, id) ==> r == Follow(w, id)
    ensures r.Ok? ==> r.value.units.Keys == w.units.Keys
  {
    var u := w.units[id];
    if Volley(w, id) then
      var (w1, f) :- NewEffect(w, ArrowFrom(u));
      var w2 := Loose(w1, f);
      Ok(w2.(effects := w2.effects + [f]))
    else Follow(w, id)
  }

  /** The arrow's constructor strike, on a cell the archer saw empty: nothing happens. */
  function Loose(w: World, f: Id): (w': World)
    requires f in w.fx && PosOfFx(w.fx[f]) in w.board.tiles && Occupant(w, PosOfFx(w.fx[f])).None?
    ensures DoAttack(w, f, false) == Ok(w')
    ensures w' == w
  {
    assert Below(w, f) == Ok(None);
    w
  }

  /** The action half of Minion.update, once the statuses have run. */
  function Act(w: World, id: Id): (r: Result<World>)
    requires id in w.units
    ensures w.units[id].nextAction > 0 ==>
              r == Ok(SetUnit(w, id, w.units[id].(nextAction := w.units[id].nextAction - 1)))
    ensures w.units[id].nextAction <= 0 ==> r == Engage(w, id)
    ensures r.Ok? ==> r.value.units.Keys == w.units.Keys
  {
    var u := w.units[id];
    if u.nextAction > 0 then Ok(SetUnit(w, id, u.(nextAction := u.nextAction - 1))) else Engage(w, id)
  }

  /** A reset counter: the minion strikes a reachable enemy, or else follows its tactic. */
  function Engage(w: World, id: Id): (r: Result<World>)
    requires id in w.units
    ensures EnemyReachable(w, id, false).Some? ==>
              && TryAttack(Reload(w, id), id).Ok? == r.Ok?
              && (r.Ok? ==> r.value == TryAttack(Reload(w, id), id).value.0 && Steady(w, r.value))
    ensures EnemyReachable(w, id, false).None? ==> r == FollowTactic(Reload(w, id), id)
    ensures r.Ok? ==> r.value.units.Keys == w.units.Keys
  {
    var w1 := Reload(w, id);
    ReloadKeepsReach(w, id);
    var (w2, hit) :- TryAttack(w1, id);
    if hit then
      SteadyTrans(w, w1, w2);
      Ok(w2)
    else FollowTactic(w2, id)
  }

  /** reset_action. */
  function Reload(w: World, id: Id): (w': World)
    requires id in w.units
    ensures w' == SetUnit(w, id, w.units[id].(nextAction := w.units[id].defaultNextAction))
    ensures Steady(w, w')
  {
    SetUnit(w, id, w.units[id].(nextAction := w.units[id].defaultNextAction))
  }

  /** The action counter plays no part in finding an enemy. */
  lemma ReloadKeepsReach(w: World, id: Id)
    requires id in w.units
    ensures EnemyReachable(Reload(w, id), id, false) == EnemyReachable(w, id, false)
  {
    var w1 := Reload(w, id);
    assert Probes(w1.units[id], false) == Probes(w.units[id], false);
    assert forall p :: HostileAt(w1, w.units[id].side, p) == HostileAt(w, w.units[id].side, p);
  }

  /** Minion.update: a dead minion does nothing; otherwise its statuses run, then it acts. */
  function MinionUpdate(w: World, id: Id): (r: Result<World>)
    requires id in w.units
    ensures !w.units[id].alive ==> r == Ok(w)
    ensures r.Ok? ==> r.value.units.Keys == w.units.Keys
  {
    if !w.units[id].alive then Ok(w)
    else
      var w1 :- RunStatuses(w, id, 0);
      Act(w1, id)
  }

  // ---------------------------------------------------------------- properties

  /** An archer that shoots stays where it is and keeps its counter. */
  lemma VolleyKeepsArcher(w: World, id: Id)
    requires id in w.units && Volley(w, id) && FollowTactic(w, id).Ok?
    ensures FollowTactic(w, id).value.units[id] == w.units[id]
  {
  }

  /** An archer that shoots from inside the grid leaves its arrow in the effect list twice, so it updates twice a turn. */
  lemma {:induction false} ArrowListedTwice(w: World, id: Id)
    requires id in w.units && Volley(w, id) && FollowTactic(w, id).Ok?
    requires w.nextId !in w.effects && AheadOf(w.units[id]).0 != -1
    ensures Count(FollowTactic(w, id).value.effects, w.nextId) == 2
  {
    CountAppend(w.effects, [w.nextId, w.nextId], w.nextId);
    assert Count(w.effects, w.nextId) == 0;
    assert Count([w.nextId, w.nextId], w.nextId) == 2 by {
      assert [w.nextId, w.nextId][1..] == [w.nextId];
      assert [w.nextId][1..] == [];
    }
    assert w.effects + [w.nextId] + [w.nextId] == w.effects + [w.nextId, w.nextId];
  }

  lemma {:induction false} CountAppend<T>(a: seq<T>, b: seq<T>, x: T)
    ensures Count(a + b, x) == Count(a, x) + Count(b, x)
  {
    if a == [] {
      assert a + b == b;
    } else {
      assert (a + b)[1..] == a[1..] + b;
      CountAppend(a[1..], b, x);
    }
  }

  /** A minion whose counter is still running only counts down, even with an enemy in reach. */
  lemma CountingDown(w: World, id: Id)
    requires id in w.units && w.units[id].alive && w.units[id].statuses == []
    requires w.units[id].nextAction > 0
    ensures MinionUpdate(w, id) == Ok(SetUnit(w, id, w.units[id].(nextAction := w.units[id].nextAction - 1)))
  {
    assert RunStatuses(w, id, 0) == Ok(w);
  }

  /** A minion with an enemy in reach strikes it instead of following its tactic: no unit or effect is created and no status changes. */
  lemma StrikeBeforeTactic(w: World, id: Id)
    requires id in w.units && w.units[id].alive && w.units[id].statuses == []
    requires w.units[id].nextAction <= 0 && EnemyReachable(w, id, false).Some?
    requires MinionUpdate(w, id).Ok?
    ensures Steady(w, MinionUpdate(w, id).value)
  {
    assert RunStatuses(w, id, 0) == Ok(w);
  }
}
