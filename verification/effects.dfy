/**
 * Effects (effect.py): short-lived markers, blasts, waves, boulders and
 * arrows.  An effect never occupies a tile: it sits in the tile's effect list
 * and, when created on the grid, in the battle's effect list.
 */
module Effects {
  import opened Wrappers
  import opened Grid
  import opened State
  import opened Combat

  function PosOfFx(e: Effect): Pos
  {
    (e.x, e.y)
  }

  /** The tiles' occupants are exactly as they were. */
  ghost predicate OccupantsKept(w: World, w': World)
  {
    forall q :: q in w.board.tiles && q in w'.board.tiles ==> w'.board.tiles[q].occupant == w.board.tiles[q].occupant
  }

  /**
   * Effect.__init__: the entity constructor would claim the tile, but the
   * saved occupant is put back; the effect joins the tile's effect list, and
   * the battle's list when it is not a template parked at x = -1.
   */
  function NewEffect(w: World, e: Effect): (r: Result<(World, Id)>)
    ensures r.Crash? <==> PosOfFx(e) !in w.board.tiles
    ensures r.Ok? ==> var (w', id) := r.value;
              && id == w.nextId && w'.nextId == w.nextId + 1
              && w'.fx == w.fx[id := e] && w'.units == w.units
              && w'.board.tiles.Keys == w.board.tiles.Keys && w'.board.order == w.board.order
              && w'.board.width == w.board.width && w'.board.height == w.board.height
              && OccupantsKept(w, w')
              && w'.board.tiles[PosOfFx(e)].effects == w.board.tiles[PosOfFx(e)].effects + [id]
              && (forall q :: q in w.board.tiles && q != PosOfFx(e) ==> w'.board.tiles[q] == w.board.tiles[q])
              && w'.effects == (if e.x != -1 then w.effects + [id] else w.effects)
              && w'.minions == w.minions && w'.generals == w.generals && w'.reserves == w.reserves
  {
    var p := PosOfFx(e);
    if p !in w.board.tiles then Crash("KeyError")
    else
      var id := w.nextId;
      var b := SetEffects(w.board, p, w.board.tiles[p].effects + [id]);
      var w1 := w.(board := b, fx := w.fx[id := e], nextId := id + 1);
      Ok((if e.x != -1 then w1.(effects := w.effects + [id]) else w1, id))
  }

  /** Take an effect off the effect list of the tile it stands on. */
  function Lift(w: World, f: Id): (r: Result<World>)
    requires f in w.fx
    ensures r.Crash? <==> PosOfFx(w.fx[f]) !in w.board.tiles || f !in w.board.tiles[PosOfFx(w.fx[f])].effects
    ensures r.Ok? ==> var p := PosOfFx(w.fx[f]);
              && r.value == w.(board := r.value.board)
              && r.value.board.tiles.Keys == w.board.tiles.Keys && r.value.board.order == w.board.order
              && r.value.board.width == w.board.width && r.value.board.height == w.board.height
              && r.value.board.tiles[p] == w.board.tiles[p].(effects := RemoveFirst(w.board.tiles[p].effects, f))
              && (forall q :: q in w.board.tiles && q != p ==> r.value.board.tiles[q] == w.board.tiles[q])
  {
    var p := PosOfFx(w.fx[f]);
    if p !in w.board.tiles then Crash("KeyError")
    else if f !in w.board.tiles[p].effects then Crash("ValueError")
    else Ok(w.(board := SetEffects(w.board, p, RemoveFirst(w.board.tiles[p].effects, f))))
  }

  /** Put an effect on the effect list of cell p and move it there. */
  function Drop(w: World, f: Id, p: Pos): (r: Result<World>)
    requires f in w.fx
    ensures r.Crash? <==> p !in w.board.tiles
    ensures r.Ok? ==>
              && r.value == w.(board := r.value.board, fx := w.fx[f := w.fx[f].(x := p.0, y := p.1)])
              && r.value.board.tiles.Keys == w.board.tiles.Keys && r.value.board.order == w.board.order
              && r.value.board.width == w.board.width && r.value.board.height == w.board.height
              && r.value.board.tiles[p] == w.board.tiles[p].(effects := w.board.tiles[p].effects + [f])
              && (forall q :: q in w.board.tiles && q != p ==> r.value.board.tiles[q] == w.board.tiles[q])
  {
    if p !in w.board.tiles then Crash("KeyError")
    else Ok(w.(board := SetEffects(w.board, p, w.board.tiles[p].effects + [f]), fx := w.fx[f := w.fx[f].(x := p.0, y := p.1)]))
  }

  /** dissapear: leave the tile's effect list and stop being alive; a second call finds nothing to remove. */
  function Dissapear(w: World, f: Id): (r: Result<World>)
    requires f in w.fx
    ensures r.Crash? <==> PosOfFx(w.fx[f]) !in w.board.tiles || f !in w.board.tiles[PosOfFx(w.fx[f])].effects
    ensures r.Ok? ==> Framed(w, r.value) && r.value.units == w.units && OccupantsKept(w, r.value)
    ensures r.Ok? ==> r.value.fx == w.fx[f := w.fx[f].(alive := false)]
    ensures r.Ok? ==> var p := PosOfFx(w.fx[f]);
              multiset(r.value.board.tiles[p].effects) == multiset(w.board.tiles[p].effects) - multiset{f}
  {
    var w1 :- Lift(w, f);
    Ok(w1.(fx := w.fx[f := w.fx[f].(alive := false)]))
  }

  /** teleport of an effect: it changes effect lists only, never an occupant; it always reports success. */
  function TeleportFx(w: World, f: Id, p: Pos): (r: Result<World>)
    requires f in w.fx
    ensures r.Ok? ==> Framed(w, r.value) && r.value.units == w.units && OccupantsKept(w, r.value)
    ensures r.Ok? ==> r.value.fx == w.fx[f := w.fx[f].(x := p.0, y := p.1)]
    ensures r.Ok? ==> p in r.value.board.tiles && f in r.value.board.tiles[p].effects
  {
    var w1 :- Lift(w, f);
    Drop(w1, f, p)
  }

  /** move of an effect: a teleport by the offset d. */
  function MoveFx(w: World, f: Id, d: Pos): (r: Result<World>)
    requires f in w.fx
    ensures r.Ok? ==> Framed(w, r.value) && r.value.units == w.units && OccupantsKept(w, r.value)
    ensures r.Ok? ==> r.value.fx == w.fx[f := w.fx[f].(x := w.fx[f].x + d.0, y := w.fx[f].y + d.1)]
  {
    TeleportFx(w, f, (w.fx[f].x + d.0, w.fx[f].y + d.1))
  }

  /** The unit an effect's cell holds, read through the dictionary (a missing cell raises). */
  function Below(w: World, f: Id): (r: Result<Option<Id>>)
    requires f in w.fx
    ensures r.Crash? <==> PosOfFx(w.fx[f]) !in w.board.tiles
    ensures r.Ok? ==> r.value == Occupant(w, PosOfFx(w.fx[f]))
  {
    var p := PosOfFx(w.fx[f]);
    if p !in w.board.tiles then Crash("KeyError") else Ok(w.board.tiles[p].occupant)
  }

  /** An occupant that can be struck: a known unit other than a plain entity. */
  predicate Target(w: World, o: Option<Id>)
  {
    o.Some? && o.value in w.units && CanBeAttacked(w.units[o.value])
  }

  /**
   * do_attack: strike an attackable occupant of another side and, when asked
   * to, disappear whenever an attackable occupant is there, ally or not.
   */
  function DoAttack(w: World, f: Id, vanish: bool): (r: Result<World>)
    requires f in w.fx
    ensures r.Ok? ==> Framed(w, r.value) && f in r.value.fx
    ensures r.Ok? && !vanish ==> Steady(w, r.value) && FxAsBefore(w, r.value)
    ensures Below(w, f).Ok? && !Target(w, Below(w, f).value) ==> r == Ok(w)
    ensures Below(w, f).Ok? && Target(w, Below(w, f).value) && w.units[Below(w, f).value.value].side == w.fx[f].side ==>
              r == (if vanish then Dissapear(w, f) else Ok(w))
    ensures r.Ok? && vanish && Below(w, f).Ok? && Target(w, Below(w, f).value) ==> !r.value.fx[f].alive
  {
    var o :- Below(w, f);
    if !Target(w, o) then Ok(w)
    else
      var w1 :- if w.units[o.value].side != w.fx[f].side then GetAttacked(w, o.value, ByEffect(f), None) else Ok(w);
      if vanish then Dissapear(w1, f) else Ok(w1)
  }

  /** Wave.do_attack: every attackable occupant, allies included, but each one only once. */
  function WaveHit(w: World, f: Id): (r: Result<World>)
    requires f in w.fx && w.fx[f].kind.WaveFx?
    ensures r.Ok? ==> Framed(w, r.value) && f in r.value.fx && r.value.fx[f].kind.WaveFx?
    ensures Below(w, f).Ok? && (!Target(w, Below(w, f).value) || Below(w, f).value.value in w.fx[f].kind.hit) ==> r == Ok(w)
    ensures Below(w, f).Ok? && Target(w, Below(w, f).value) && Below(w, f).value.value !in w.fx[f].kind.hit ==>
              r == WaveStrike(w, f, Below(w, f).value.value)
  {
    var o :- Below(w, f);
    if !Target(w, o) || o.value in w.fx[f].kind.hit then Ok(w) else WaveStrike(w, f, o.value)
  }

  /** A wave striking a unit it has not struck yet, and remembering it. */
  function WaveStrike(w: World, f: Id, t: Id): (r: Result<World>)
    requires f in w.fx && w.fx[f].kind.WaveFx? && t in w.units
    ensures r.Ok? ==> Framed(w, r.value) && f in r.value.fx && r.value.fx[f].kind.WaveFx?
    ensures r.Ok? ==> r.value.fx[f].kind.hit == w.fx[f].kind.hit + [t]
    ensures r.Ok? ==> var hp := w.units[t].hp - Damage(w.fx[f].power, ArmorOf(w.units[t], "physical"));
                      HasHp(w.units[t]) ==> r.value.units[t].hp == (if hp > 0 then hp else 0)
  {
    var w1 :- GetAttacked(w, t, ByEffect(f), None);
    var e := w1.fx[f];
    Ok(w1.(fx := w1.fx[f := e.(kind := WaveFx(e.kind.hit + [t]))]))
  }

  // ---------------------------------------------------------------- updates

  /** update() of one effect; a dead effect does nothing. */
  function UpdateFx(w: World, f: Id): (r: Result<World>)
    requires f in w.fx
    ensures !w.fx[f].alive ==> r == Ok(w)
    ensures r.Ok? ==> Framed(w, r.value)
  {
    var e := w.fx[f];
    if !e.alive then Ok(w)
    else match e.kind
      case Marker => Ok(w)
      case Temp(d) => TempUpdate(w, f)
      case Blast(_) => BlastUpdate(w, f)
      case WaveFx(_) => WaveUpdate(w, f)
      case BoulderFx(_, _) => BoulderUpdate(w, f)
      case LoopFx(_, _, _) => LoopUpdate(w, f)
      case ArrowFx => ArrowUpdate(w, f)
  }

  /** TempEffect.update: count the duration down and disappear once it is below zero. */
  function TempUpdate(w: World, f: Id): (r: Result<World>)
    requires f in w.fx && w.fx[f].kind.Temp?
    ensures r.Ok? ==> Framed(w, r.value) && r.value.units == w.units && f in r.value.fx
    ensures var d := w.fx[f].kind.duration;
            d - 1 >= 0 ==> r == Ok(w.(fx := w.fx[f := w.fx[f].(kind := Temp(d - 1))]))
    ensures w.fx[f].kind.duration - 1 < 0 && r.Ok? ==> !r.value.fx[f].alive
  {
    var e := w.fx[f];
    var d := e.kind.duration - 1;
    var w1 := w.(fx := w.fx[f := e.(kind := Temp(d))]);
    if d < 0 then Dissapear(w1, f) else Ok(w1)
  }

  /** Explosion.update: yellow turns orange, orange turns red, red strikes the cell and disappears. */
  function BlastUpdate(w: World, f: Id): (r: Result<World>)
    requires f in w.fx && w.fx[f].kind.Blast?
    ensures r.Ok? ==> Framed(w, r.value)
    ensures w.fx[f].kind.phase.Yellow? ==> r == Ok(w.(fx := w.fx[f := w.fx[f].(kind := Blast(Orange))]))
    ensures w.fx[f].kind.phase.Orange? ==> r == Ok(w.(fx := w.fx[f := w.fx[f].(kind := Blast(Red))]))
    ensures w.fx[f].kind.phase.Red? && r.Ok? ==> !r.value.fx[f].alive
  {
    var e := w.fx[f];
    match e.kind.phase
    case Yellow => Ok(w.(fx := w.fx[f := e.(kind := Blast(Orange))]))
    case Orange => Ok(w.(fx := w.fx[f := e.(kind := Blast(Red))]))
    case Red =>
      var w1 :- DoAttack(w, f, false);
      Dissapear(w1, f)
  }

  /** Wave.update: vanish at the edge; otherwise hit, advance one cell, hit again. */
  function WaveUpdate(w: World, f: Id): (r: Result<World>)
    requires f in w.fx && w.fx[f].kind.WaveFx?
    ensures r.Ok? ==> Framed(w, r.value)
    ensures !Inside(w.board, (w.fx[f].x + Heading(w.fx[f].side), w.fx[f].y)) ==> r == Dissapear(w, f)
  {
    var e := w.fx[f];
    if !Inside(w.board, (e.x + Heading(e.side), e.y)) then Dissapear(w, f)
    else
      var w1 :- WaveHit(w, f);
      var w2 :- MoveFx(w1, f, (Heading(e.side), 0));
      WaveHit(w2, f)
  }

  /**
   * Boulder.update: follow the path one step; while delayed only count the
   * delay down; afterwards strike, change power by delta_power and disappear
   * when the path is spent or the power is exactly zero.
   */
  function BoulderUpdate(w: World, f: Id): (r: Result<World>)
    requires f in w.fx && w.fx[f].kind.BoulderFx?
    ensures r.Ok? ==> Framed(w, r.value)
  {
    var w1 :- PathStep(w, f);
    var e := w1.fx[f];
    if e.kind.delay > 0 then Ok(w1.(fx := w1.fx[f := e.(kind := e.kind.(delay := e.kind.delay - 1))]))
    else Strike(w1, f)
  }

  /** The undelayed half of Boulder.update. */
  function Strike(w: World, f: Id): (r: Result<World>)
    requires f in w.fx && w.fx[f].kind.BoulderFx?
    ensures r.Ok? ==> Framed(w, r.value) && f in r.value.fx
    ensures r.Ok? ==> r.value.fx[f].power == w.fx[f].power + w.fx[f].kind.deltaPower
    ensures r.Ok? ==> (!r.value.fx[f].alive <==> !w.fx[f].alive || w.fx[f].path == [] || w.fx[f].power + w.fx[f].kind.deltaPower == 0)
  {
    var w1 :- DoAttack(w, f, false);
    var e := w1.fx[f];
    var p := e.power + e.kind.deltaPower;
    var w2 := w1.(fx := w1.fx[f := e.(power := p)]);
    if e.path == [] || p == 0 then Dissapear(w2, f) else Ok(w2)
  }

  /** Entity.move_path for an effect, whose moves always succeed. */
  function PathStep(w: World, f: Id): (r: Result<World>)
    requires f in w.fx
    ensures r.Ok? ==> Framed(w, r.value) && f in r.value.fx
    ensures r.Ok? ==> r.value.fx[f] == w.fx[f].(x := r.value.fx[f].x, y := r.value.fx[f].y, path := r.value.fx[f].path)
    ensures r.Ok? && w.fx[f].path != [] ==> r.value.fx[f].path == w.fx[f].path[1..] && PosOfFx(r.value.fx[f]) == w.fx[f].path[0]
    ensures w.fx[f].path == [] ==> r == Ok(w)
  {
    var e := w.fx[f];
    if e.path == [] then Ok(w)
    else
      var w1 := w.(fx := w.fx[f := e.(path := e.path[1..])]);
      TeleportFx(w1, f, e.path[0])
  }

  /** EffectLoop.update: show the next frame, count down, disappear below zero. */
  function LoopUpdate(w: World, f: Id): (r: Result<World>)
    requires f in w.fx && w.fx[f].kind.LoopFx?
    ensures w.fx[f].kind.index >= w.fx[f].kind.frames ==> r.Crash?
    ensures r.Ok? ==> Framed(w, r.value) && f in r.value.fx
    ensures r.Ok? ==> r.value.fx[f].kind.LoopFx? && r.value.fx[f].kind.index < r.value.fx[f].kind.frames
  {
    var e := w.fx[f];
    var k := e.kind;
    if k.index >= k.frames then Crash("IndexError")
    else
      var e' := e.(kind := LoopFx(k.frames, (k.index + 1) % k.frames, k.duration - 1));
      var w1 := w.(fx := w.fx[f := e']);
      if k.duration - 1 < 0 then Dissapear(w1, f) else Ok(w1)
  }

  /**
   * Arrow.update: at the edge it disappears but does not stop there; it then
   * strikes the cell (disappearing on an attackable occupant, which fails
   * when it is already gone), and if still alive advances and strikes again.
   */
  function ArrowUpdate(w: World, f: Id): (r: Result<World>)
    requires f in w.fx && w.fx[f].kind.ArrowFx?
    ensures r.Ok? ==> Framed(w, r.value)
  {
    var e := w.fx[f];
    var w1 :- if !Inside(w.board, (e.x + Heading(e.side), e.y)) then Dissapear(w, f) else Ok(w);
    var w2 :- DoAttack(w1, f, true);
    if f !in w2.fx || !w2.fx[f].alive then Ok(w2)
    else
      var w3 :- MoveFx(w2, f, (Heading(e.side), 0));
      DoAttack(w3, f, true)
  }

  // ---------------------------------------------------------------- lifetimes

  /** n successive updates of one effect. */
  function Updates(w: World, f: Id, n: nat): (r: Result<World>)
    requires f in w.fx
    ensures r.Ok? ==> Framed(w, r.value)
    decreases n
  {
    if n == 0 then Ok(w)
    else
      var w1 :- UpdateFx(w, f);
      var w2 :- Updates(w1, f, n - 1);
      FramedTrans(w, w1, w2);
      Ok(w2)
  }

  /** A TempEffect of duration d is still there after d updates and gone after the next one. */
  lemma {:induction false} TempLifetime(w: World, f: Id, d: nat)
    requires f in w.fx && w.fx[f].alive && w.fx[f].kind == Temp(d)
    requires PosOfFx(w.fx[f]) in w.board.tiles && f in w.board.tiles[PosOfFx(w.fx[f])].effects
    ensures Updates(w, f, d) == Ok(w.(fx := w.fx[f := w.fx[f].(kind := Temp(0))]))
    ensures Updates(w, f, d + 1).Ok? && !Updates(w, f, d + 1).value.fx[f].alive
    decreases d
  {
    var w1 := w.(fx := w.fx[f := w.fx[f].(kind := Temp(d - 1))]);
    assert UpdateFx(w, f) == TempUpdate(w, f);
    if d == 0 {
      assert w.(fx := w.fx[f := w.fx[f].(kind := Temp(0))]) == w;
      var w2 := Dissapear(w1, f).value;
      assert Updates(w, f, 1) == Updates(w2, f, 0);
    } else {
      assert UpdateFx(w, f) == Ok(w1);
      TempLifetime(w1, f, d - 1);
      assert w1.(fx := w1.fx[f := w1.fx[f].(kind := Temp(0))]) == w.(fx := w.fx[f := w.fx[f].(kind := Temp(0))]);
    }
  }

  /** An explosion created yellow turns orange, then red, and strikes and disappears on its third update. */
  lemma ExplosionThirdUpdate(w: World, f: Id)
    requires f in w.fx && w.fx[f].alive && w.fx[f].kind == Blast(Yellow)
    ensures Updates(w, f, 2) == Ok(w.(fx := w.fx[f := w.fx[f].(kind := Blast(Red))]))
    ensures Updates(w, f, 3).Ok? ==> !Updates(w, f, 3).value.fx[f].alive
  {
    var w1 := w.(fx := w.fx[f := w.fx[f].(kind := Blast(Orange))]);
    var w2 := w.(fx := w.fx[f := w.fx[f].(kind := Blast(Red))]);
    assert UpdateFx(w, f) == Ok(w1);
    assert w1.(fx := w1.fx[f := w1.fx[f].(kind := Blast(Red))]) == w2;
    assert UpdateFx(w1, f) == Ok(w2);
    assert Updates(w, f, 2) == Updates(w1, f, 1);
    assert Updates(w1, f, 1) == Updates(w2, f, 0);
    if Updates(w, f, 3).Ok? {
      assert Updates(w, f, 3) == Updates(w1, f, 2);
      assert Updates(w1, f, 2) == Updates(w2, f, 1);
      var w3 := UpdateFx(w2, f).value;
      assert Updates(w2, f, 1) == Updates(w3, f, 0);
    }
  }
}
