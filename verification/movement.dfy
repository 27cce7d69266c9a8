/**
 * Entity placement and movement (entity.py): the recursive push test, the
 * push chain it licenses, multi-cell moves, teleport, death, kill credit and
 * fortress hosting.
 *
 * A zero step of a pushable unit recurses without end in the original (the
 * unit's own cell holds the unit, whose push test looks at the same cell
 * again); here that outcome is the crash `RecursionError`.
 */
module Movement {
  import opened Wrappers
  import opened Grid
  import opened State

  function Shift(p: Pos, d: Pos): Pos
  {
    (p.0 + d.0, p.1 + d.1)
  }

  /** A nonzero step always lands somewhere else. */
  lemma ShiftMoves(p: Pos, d: Pos)
    ensures Shift(p, d) == p <==> d == (0, 0)
  {
  }

  function PosOf(u: Unit): Pos
  {
    (u.x, u.y)
  }

  function Dot(p: Pos, d: Pos): int
  {
    p.0 * d.0 + p.1 * d.1
  }

  /** Cells of the dictionary strictly ahead of p in direction d: the push chain's measure. */
  function Ahead(b: Board, p: Pos, d: Pos): set<Pos>
  {
    set q | q in b.tiles && Dot(q, d) > Dot(p, d)
  }

  lemma AheadShrinks(b: Board, p: Pos, d: Pos)
    requires d != (0, 0) && Shift(p, d) in b.tiles
    ensures Dot(Shift(p, d), d) > Dot(p, d)
    ensures |Ahead(b, Shift(p, d), d)| < |Ahead(b, p, d)|
  {
    var t := Shift(p, d);
    assert Dot(t, d) == Dot(p, d) + (d.0 * d.0 + d.1 * d.1);
    if d.0 != 0 {
      assert d.0 * d.0 > 0;
    } else {
      assert d.1 * d.1 > 0;
    }
    ProperSubsetCard(Ahead(b, t, d), Ahead(b, p, d), t);
  }

  lemma {:induction false} SubsetCard<T>(a: set<T>, b: set<T>)
    requires a <= b
    ensures |a| <= |b|
    decreases b
  {
    if a != {} {
      var x :| x in a;
      SubsetCard(a - {x}, b - {x});
    }
  }

  lemma ProperSubsetCard<T>(a: set<T>, b: set<T>, x: T)
    requires a <= b && x in b && x !in a
    ensures |a| < |b|
  {
    SubsetCard(a, b - {x});
  }

  // ---------------------------------------------------------------- push test

  /**
   * Entity.can_be_pushed: a pushable unit whose next cell is passable for it
   * and is empty or holds a unit that can itself be pushed.  The check that
   * the occupant stands on that cell always holds in a Tracked world, where
   * a pushable unit covers exactly its own cell.
   */
  predicate CanBePushed(w: World, id: Id, d: Pos)
    requires id in w.units && d != (0, 0)
    decreases |Ahead(w.board, PosOf(w.units[id]), d)|
  {
    var u := w.units[id];
    var t := Shift(PosOf(u), d);
    && Pushable(u)
    && PassableFor(w, t, u.side)
    && (match Occupant(w, t)
        case None => true
        case Some(o) =>
          && o in w.units
          && PosOf(w.units[o]) == t
          && (AheadShrinks(w.board, PosOf(u), d); CanBePushed(w, o, d)))
  }

  /** The push test on an occupant; a zero step on a pushable one never returns. */
  function PushTest(w: World, o: Id, d: Pos): (r: Result<bool>)
    requires o in w.units
    ensures r == Ok(true) <==> d != (0, 0) && CanBePushed(w, o, d)
    ensures r.Crash? <==> d == (0, 0) && Pushable(w.units[o])
  {
    if !Pushable(w.units[o]) then Ok(false)
    else if d == (0, 0) then Crash("RecursionError")
    else Ok(CanBePushed(w, o, d))
  }

  /** The units a successful push of `id` moves, nearest first, `id` included. */
  function Chain(w: World, id: Id, d: Pos): (c: seq<Id>)
    requires id in w.units && d != (0, 0) && CanBePushed(w, id, d)
    ensures |c| >= 1 && c[0] == id
    ensures forall k :: k in c ==> k in w.units && Dot(PosOf(w.units[k]), d) >= Dot(PosOf(w.units[id]), d)
    ensures forall k :: k in c ==> Pushable(w.units[k])
    decreases |Ahead(w.board, PosOf(w.units[id]), d)|
  {
    var t := Shift(PosOf(w.units[id]), d);
    match Occupant(w, t)
    case None => [id]
    case Some(o) => AheadShrinks(w.board, PosOf(w.units[id]), d); [id] + Chain(w, o, d)
  }

  /** Everything but unit records and tile contents is the same, and no key appears or disappears. */
  predicate SameFrame(w: World, w': World)
  {
    && w'.units.Keys == w.units.Keys && w'.board.tiles.Keys == w.board.tiles.Keys
    && w'.board.width == w.board.width && w'.board.height == w.board.height && w'.board.order == w.board.order
    && w'.fx == w.fx && w'.minions == w.minions && w'.effects == w.effects && w'.generals == w.generals
    && w'.reserves == w.reserves && w'.fortresses == w.fortresses && w'.nextId == w.nextId
  }

  /** The common tail of every single-cell step: vacate `from`, occupy `to`, relocate the unit. */
  function StepUnit(w: World, id: Id, from: Pos, to: Pos, pushed: bool): (w': World)
    requires id in w.units
    ensures w'.units == w.units[id := w.units[id].(x := to.0, y := to.1, pushed := pushed)]
    ensures SameFrame(w, w')
    ensures forall q :: q in w.board.tiles && q != from && q != to ==> w'.board.tiles[q] == w.board.tiles[q]
    ensures At(w'.board, to).occupant == (if to in w.board.tiles then Some(id) else None)
    ensures from != to ==> At(w'.board, from).occupant.None?
  {
    var w2 := SetTileOccupant(w, from, None);
    var w3 := SetTileOccupant(w2, to, Some(id));
    SetUnit(w3, id, w.units[id].(x := to.0, y := to.1, pushed := pushed))
  }

  /** Every unit of w lying strictly behind p along d has the same record in w'. */
  predicate SparedBehindPoint(w: World, w': World, p: Pos, d: Pos)
  {
    forall k :: k in w.units && Dot(PosOf(w.units[k]), d) < Dot(p, d) ==> k in w'.units && w'.units[k] == w.units[k]
  }

  /** One unit behind a spared point keeps its record. */
  lemma SparedAt(w: World, w': World, t: Pos, d: Pos, k: Id)
    requires SparedBehindPoint(w, w', t, d) && k in w.units && Dot(PosOf(w.units[k]), d) < Dot(t, d)
    ensures k in w'.units && w'.units[k] == w.units[k]
  { }

  /** Units spared behind a point are also spared behind any point further back. */
  lemma SparedBehind(w: World, w': World, t: Pos, p: Pos, d: Pos)
    requires Dot(p, d) < Dot(t, d) && SparedBehindPoint(w, w', t, d)
    ensures SparedBehindPoint(w, w', p, d)
  { }

  /** A unit one step further along d, flagged as pushed. */
  function Nudged(u: Unit, d: Pos): Unit
  {
    u.(x := u.x + d.0, y := u.y + d.1, pushed := true)
  }

  /**
   * Entity.get_pushed on a unit whose push test passed: everything ahead moves
   * first, then the unit steps by d and is left flagged as pushed.
   */
  function Push(w: World, id: Id, d: Pos): (w': World)
    requires id in w.units && d != (0, 0) && CanBePushed(w, id, d)
    ensures SameFrame(w, w')
    ensures SparedBehindPoint(w, w', PosOf(w.units[id]), d)
    ensures w'.units[id] == Nudged(w.units[id], d)
    decreases |Ahead(w.board, PosOf(w.units[id]), d)|
  {
    var u := w.units[id];
    var p := PosOf(u);
    var t := Shift(p, d);
    AheadShrinks(w.board, p, d);
    var w1 := if Occupant(w, t).None? then w else
      var o := Occupant(w, t).value;
      assert o in w.units && PosOf(w.units[o]) == t && CanBePushed(w, o, d);
      var w2 := Push(w, o, d);
      assert SparedBehindPoint(w, w2, p, d) by { SparedBehind(w, w2, t, p, d); }
      assert w2.units[id] == u by { SparedAt(w, w2, t, d, id); }
      w2;
    assert w1.units[id] == u && SparedBehindPoint(w, w1, p, d) && SameFrame(w, w1);
    var w' := StepUnit(w1, id, p, t, true);
    assert SparedBehindPoint(w, w', p, d) by {
      assert forall k :: k in w.units && Dot(PosOf(w.units[k]), d) < Dot(p, d) ==> k != id;
    }
    w'
  }

  /** A push moves exactly its chain: each member one step along d and flagged as pushed. */
  lemma {:induction false} PushMovesChain(w: World, id: Id, d: Pos)
    requires id in w.units && d != (0, 0) && CanBePushed(w, id, d)
    ensures forall k :: k in Chain(w, id, d) ==>
              Push(w, id, d).units[k] == Nudged(w.units[k], d)
    decreases |Ahead(w.board, PosOf(w.units[id]), d)|
  {
    var p := PosOf(w.units[id]);
    var t := Shift(p, d);
    AheadShrinks(w.board, p, d);
    if Occupant(w, t).Some? {
      var o := Occupant(w, t).value;
      assert o in w.units && PosOf(w.units[o]) == t && CanBePushed(w, o, d);
      var w1 := Push(w, o, d);
      var w' := Push(w, id, d);
      assert w' == StepUnit(w1, id, p, t, true);
      PushMovesChain(w, o, d);
      var c := Chain(w, o, d);
      assert Chain(w, id, d) == [id] + c;
      forall k | k in Chain(w, id, d) ensures w'.units[k] == Nudged(w.units[k], d) {
        if k != id { assert k in c; }
      }
    } else {
      assert Chain(w, id, d) == [id];
    }
  }

  /** A push leaves every unit outside its chain untouched. */
  lemma {:induction false} PushSparesOthers(w: World, id: Id, d: Pos)
    requires id in w.units && d != (0, 0) && CanBePushed(w, id, d)
    ensures forall k :: k in w.units && k !in Chain(w, id, d) ==> Push(w, id, d).units[k] == w.units[k]
    decreases |Ahead(w.board, PosOf(w.units[id]), d)|
  {
    var p := PosOf(w.units[id]);
    var t := Shift(p, d);
    AheadShrinks(w.board, p, d);
    if Occupant(w, t).Some? {
      var o := Occupant(w, t).value;
      assert o in w.units && PosOf(w.units[o]) == t && CanBePushed(w, o, d);
      var w1 := Push(w, o, d);
      var w' := Push(w, id, d);
      assert w' == StepUnit(w1, id, p, t, true);
      PushSparesOthers(w, o, d);
      assert Chain(w, id, d) == [id] + Chain(w, o, d);
    } else {
      assert Chain(w, id, d) == [id];
    }
  }

  lemma PushSparesUnpushable(w: World, o: Id, d: Pos, id: Id)
    requires o in w.units && d != (0, 0) && CanBePushed(w, o, d)
    requires id in w.units && !Pushable(w.units[id])
    ensures Push(w, o, d).units[id] == w.units[id]
  {
    PushSparesOthers(w, o, d);
    assert id !in Chain(w, o, d);
  }

  /** A push rewrites only cells from the pushed unit's own onwards: it vacates that cell and occupies the next. */
  lemma {:induction false} PushTiles(w: World, id: Id, d: Pos)
    requires id in w.units && d != (0, 0) && CanBePushed(w, id, d)
    ensures forall q :: q in w.board.tiles && Dot(q, d) < Dot(PosOf(w.units[id]), d) ==>
              Push(w, id, d).board.tiles[q] == w.board.tiles[q]
    ensures At(Push(w, id, d).board, Shift(PosOf(w.units[id]), d)).occupant == Some(id)
    ensures At(Push(w, id, d).board, PosOf(w.units[id])).occupant.None?
    decreases |Ahead(w.board, PosOf(w.units[id]), d)|
  {
    var p := PosOf(w.units[id]);
    var t := Shift(p, d);
    AheadShrinks(w.board, p, d);
    assert t in w.board.tiles;
    if Occupant(w, t).Some? {
      var o := Occupant(w, t).value;
      assert o in w.units && PosOf(w.units[o]) == t && CanBePushed(w, o, d);
      var w1 := Push(w, o, d);
      var w' := Push(w, id, d);
      assert w' == StepUnit(w1, id, p, t, true);
      PushTiles(w, o, d);
      forall q | q in w.board.tiles && Dot(q, d) < Dot(p, d) ensures w'.board.tiles[q] == w.board.tiles[q] {
        assert q != p && q != t && Dot(q, d) < Dot(t, d);
      }
    } else {
      assert Push(w, id, d) == StepUnit(w, id, p, t, true);
    }
  }

  /** A single-cell unit stepping from its own cell keeps every tile's occupant standing on it. */
  lemma StepKeepsTracked(w: World, id: Id, to: Pos)
    requires Tracked(w) && id in w.units && Length(w.units[id]) == 1
    ensures Tracked(StepUnit(w, id, PosOf(w.units[id]), to, true))
  {
    var w' := StepUnit(w, id, PosOf(w.units[id]), to, true);
    forall p | p in w'.board.tiles && w'.board.tiles[p].occupant.Some?
      ensures w'.board.tiles[p].occupant.value in w'.units
      ensures InFootprint(w'.units[w'.board.tiles[p].occupant.value], p)
    {
      if p != to && p != PosOf(w.units[id]) {
        assert w'.board.tiles[p] == w.board.tiles[p];
      }
    }
  }

  /** A push keeps every tile's occupant standing on it. */
  lemma {:induction false} PushKeepsTracked(w: World, id: Id, d: Pos)
    requires Tracked(w) && id in w.units && d != (0, 0) && CanBePushed(w, id, d)
    ensures Tracked(Push(w, id, d))
    decreases |Ahead(w.board, PosOf(w.units[id]), d)|
  {
    var p := PosOf(w.units[id]);
    var t := Shift(p, d);
    AheadShrinks(w.board, p, d);
    if Occupant(w, t).Some? {
      var o := Occupant(w, t).value;
      assert o in w.units && PosOf(w.units[o]) == t && CanBePushed(w, o, d);
      var w1 := Push(w, o, d);
      PushKeepsTracked(w, o, d);
      assert w1.units[id] == w.units[id];
      StepKeepsTracked(w1, id, t);
      assert Push(w, id, d) == StepUnit(w1, id, p, t, true);
    } else {
      StepKeepsTracked(w, id, t);
      assert Push(w, id, d) == StepUnit(w, id, p, t, true);
    }
  }

  // ---------------------------------------------------------------- single-cell move

  /** The cell a unit would step into. */
  function Next(w: World, id: Id, d: Pos): Pos
    requires id in w.units
  {
    Shift(PosOf(w.units[id]), d)
  }

  /** Entity.can_move: the next cell is passable, and empty or held by a pushable ally. */
  function CanMove(w: World, id: Id, d: Pos): (r: Result<bool>)
    requires id in w.units
    ensures r == Ok(true) <==>
              && PassableFor(w, Next(w, id, d), w.units[id].side)
              && (Occupant(w, Next(w, id, d)).Some? ==>
                    d != (0, 0) && CanBePushed(w, Occupant(w, Next(w, id, d)).value, d))
    ensures r.Crash? <==>
              && PassableFor(w, Next(w, id, d), w.units[id].side)
              && Occupant(w, Next(w, id, d)).Some? && d == (0, 0)
              && Pushable(w.units[Occupant(w, Next(w, id, d)).value])
  {
    var u := w.units[id];
    var t := Shift(PosOf(u), d);
    if !PassableFor(w, t, u.side) then Ok(false)
    else match Occupant(w, t)
      case None => Ok(true)
      case Some(o) => if w.units[o].side != u.side then Ok(false) else PushTest(w, o, d)
  }

  /** Entity.move: a pushed unit only loses its flag; otherwise the push chain runs and the unit steps. */
  function MoveSmall(w: World, id: Id, d: Pos): (r: Result<(World, bool)>)
    requires id in w.units
    ensures r.Ok? ==> r.value.0.units.Keys == w.units.Keys && r.value.0.board.tiles.Keys == w.board.tiles.Keys
    ensures r.Ok? && !r.value.1 ==>
              && r.value.0.board == w.board
              && r.value.0.units == w.units[id := w.units[id].(pushed := false)]
    ensures w.units[id].pushed ==> r.Ok? && !r.value.1
    ensures r.Ok? ==> SameButPlace(w.units[id], r.value.0.units[id])
    ensures r.Ok? && r.value.1 ==>
              && PosOf(r.value.0.units[id]) == Shift(PosOf(w.units[id]), d)
              && At(r.value.0.board, Shift(PosOf(w.units[id]), d)).occupant == Some(id)
              && (d != (0, 0) ==> At(r.value.0.board, PosOf(w.units[id])).occupant.None?)
  {
    var u := w.units[id];
    if u.pushed then Ok((SetUnit(w, id, u.(pushed := false)), false))
    else
      var ok :- CanMove(w, id, d);
      if !ok then Ok((w, false))
      else
        var p := PosOf(u);
        var t := Shift(p, d);
        var w1 := if Occupant(w, t).None? then w else Push(w, Occupant(w, t).value, d);
        assert SameButPlace(u, w1.units[id]) by {
          if Occupant(w, t).Some? {
            PushedOrSpared(w, Occupant(w, t).value, d, id);
          }
        }
        ShiftMoves(p, d);
        Ok((StepUnit(w1, id, p, t, w1.units[id].pushed), true))
  }

  /** A push moves any unit at most by a step: whatever it does to a unit keeps all but its place. */
  lemma PushedOrSpared(w: World, o: Id, d: Pos, id: Id)
    requires o in w.units && d != (0, 0) && CanBePushed(w, o, d) && id in w.units
    ensures id in Push(w, o, d).units && SameButPlace(w.units[id], Push(w, o, d).units[id])
  {
    PushMovesChain(w, o, d);
    PushSparesOthers(w, o, d);
  }

  // ---------------------------------------------------------------- multi-cell units

  /** The cells a unit covers, in the original's loop order: x offset outer, y offset inner. */
  function Cells(u: Unit): (cs: seq<Pos>)
    ensures |cs| == Length(u) * Length(u)
    ensures forall c :: c in cs <==> InFootprint(u, c)
  {
    var n := Length(u);
    DefaultOrderCells(n, n);
    var cs := ShiftAll(DefaultOrder(n, n), PosOf(u));
    assert forall c :: InFootprint(u, c) ==> c in cs by {
      forall c | InFootprint(u, c) ensures c in cs {
        var k :| 0 <= k < |DefaultOrder(n, n)| && DefaultOrder(n, n)[k] == (c.0 - u.x, c.1 - u.y);
        assert cs[k] == c;
      }
    }
    cs
  }

  function ShiftAll(cs: seq<Pos>, d: Pos): (r: seq<Pos>)
    ensures |r| == |cs| && forall i :: 0 <= i < |cs| ==> r[i] == Shift(cs[i], d)
  {
    seq(|cs|, i requires 0 <= i < |cs| => Shift(cs[i], d))
  }

  /**
   * BigEntity.can_move, cell by cell in order: an impassable cell refuses, an
   * empty or self-held cell passes, any other occupant must be pushable.
   */
  function ScanCells(w: World, id: Id, cells: seq<Pos>, d: Pos): (r: Result<bool>)
    requires id in w.units
    ensures r == Ok(true) <==> forall c :: c in cells ==>
              && PassableFor(w, c, w.units[id].side)
              && (Occupant(w, c).Some? && Occupant(w, c).value != id ==>
                    d != (0, 0) && CanBePushed(w, Occupant(w, c).value, d))
  {
    if cells == [] then Ok(true)
    else
      var c := cells[0];
      if !PassableFor(w, c, w.units[id].side) then Ok(false)
      else
        var step :- match Occupant(w, c)
          case None => Ok(true)
          case Some(o) => if o == id then Ok(true) else PushTest(w, o, d);
        if !step then Ok(false) else ScanCells(w, id, cells[1..], d)
  }

  function ClearBody(w: World, id: Id): (w': World)
    requires id in w.units
    ensures w'.units == w.units && w'.board.tiles.Keys == w.board.tiles.Keys
    ensures forall q :: q in w.board.tiles ==>
              w'.board.tiles[q] == (if InFootprint(w.units[id], q) then w.board.tiles[q].(occupant := None) else w.board.tiles[q])
  {
    var u := w.units[id];
    var tiles := map q | q in w.board.tiles ::
      if InFootprint(u, q) then w.board.tiles[q].(occupant := None) else w.board.tiles[q];
    w.(board := w.board.(tiles := tiles))
  }

  function UpdateBody(w: World, id: Id): (w': World)
    requires id in w.units
    ensures w'.units == w.units && w'.board.tiles.Keys == w.board.tiles.Keys
    ensures forall q :: q in w.board.tiles ==>
              w'.board.tiles[q] == (if InFootprint(w.units[id], q) then w.board.tiles[q].(occupant := Some(id)) else w.board.tiles[q])
  {
    var u := w.units[id];
    var tiles := map q | q in w.board.tiles ::
      if InFootprint(u, q) then w.board.tiles[q].(occupant := Some(id)) else w.board.tiles[q];
    w.(board := w.board.(tiles := tiles))
  }

  /** The tail of BigEntity.move: clear the body, take the anchor, relocate, lay the body down again. */
  function Relay(w: World, id: Id, anchor: Pos): (w': World)
    requires id in w.units
    ensures w'.units == w.units[id := w.units[id].(x := anchor.0, y := anchor.1)]
    ensures w'.board.tiles.Keys == w.board.tiles.Keys
    ensures forall q :: q in w.board.tiles && InFootprint(w'.units[id], q) ==> w'.board.tiles[q].occupant == Some(id)
    ensures forall q :: q in w.board.tiles && InFootprint(w.units[id], q) && !InFootprint(w'.units[id], q) && q != anchor ==>
              w'.board.tiles[q].occupant.None?
  {
    var w2 := ClearBody(w, id);
    var w3 := SetTileOccupant(w2, anchor, Some(id));
    var w4 := SetUnit(w3, id, w.units[id].(x := anchor.0, y := anchor.1));
    UpdateBody(w4, id)
  }

  /** A unit record that differs from `u` at most in position and pushed flag. */
  predicate SameButPlace(u: Unit, v: Unit)
  {
    v == u.(x := v.x, y := v.y, pushed := v.pushed)
  }

  /** The anchor cell a multi-cell step would push from: empty, the unit itself, or pushable along d. */
  predicate AnchorClear(w: World, id: Id, d: Pos)
    requires id in w.units
  {
    var o := Occupant(w, Next(w, id, d));
    o.None? || o.value == id || (o.value in w.units && d != (0, 0) && CanBePushed(w, o.value, d))
  }

  /** BigEntity.can_move on the cells the body would cover after the step. */
  function ScanBody(w: World, id: Id, d: Pos): (r: Result<bool>)
    requires id in w.units && Length(w.units[id]) >= 1
    ensures r == Ok(true) ==> AnchorClear(w, id, d)
  {
    var r := ScanCells(w, id, ShiftAll(Cells(w.units[id]), d), d);
    if r == Ok(true) then ScanClearsAnchor(w, id, d); r else r
  }

  lemma ScanClearsAnchor(w: World, id: Id, d: Pos)
    requires id in w.units && Length(w.units[id]) >= 1
    requires ScanCells(w, id, ShiftAll(Cells(w.units[id]), d), d) == Ok(true)
    ensures AnchorClear(w, id, d)
  {
    var u := w.units[id];
    assert InFootprint(u, PosOf(u));
    assert PosOf(u) in Cells(u);
    var k :| 0 <= k < |Cells(u)| && Cells(u)[k] == PosOf(u);
    assert ShiftAll(Cells(u), d)[k] == Next(w, id, d);
  }

  /** Push whatever holds the anchor cell out of the way, unless the unit holds it itself. */
  function ClearAnchor(w: World, id: Id, d: Pos): (w': World)
    requires id in w.units && !Pushable(w.units[id]) && AnchorClear(w, id, d)
    ensures SameFrame(w, w')
    ensures w'.units[id] == w.units[id]
  {
    var o := Occupant(w, Next(w, id, d));
    if o.None? || o.value == id then w
    else
      PushSparesUnpushable(w, o.value, d, id);
      Push(w, o.value, d)
  }

  /** A multi-cell step whose anchor is clear: push the anchor's occupant, then relay the body. */
  function BigStep(w: World, id: Id, d: Pos): (w': World)
    requires id in w.units && !Pushable(w.units[id]) && AnchorClear(w, id, d)
    ensures w'.units.Keys == w.units.Keys && w'.board.tiles.Keys == w.board.tiles.Keys
    ensures w'.units[id] == w.units[id].(x := w.units[id].x + d.0, y := w.units[id].y + d.1)
    ensures forall q :: q in w.board.tiles && InFootprint(w'.units[id], q) ==> w'.board.tiles[q].occupant == Some(id)
  {
    Relay(ClearAnchor(w, id, d), id, Next(w, id, d))
  }

  /**
   * BigEntity.move: only the occupant of the destination anchor is pushed; the
   * body is cleared, then laid down again at the new position.  The original
   * returns None, which its callers read as a failed move.
   */
  function MoveBig(w: World, id: Id, d: Pos): (r: Result<World>)
    requires id in w.units && Length(w.units[id]) >= 1 && !Pushable(w.units[id])
    ensures r.Ok? ==> r.value.units.Keys == w.units.Keys && r.value.board.tiles.Keys == w.board.tiles.Keys
    ensures r.Ok? ==> SameButPlace(w.units[id], r.value.units[id])
    ensures w.units[id].pushed ==> r == Ok(SetUnit(w, id, w.units[id].(pushed := false)))
    ensures r.Ok? && !w.units[id].pushed && PosOf(r.value.units[id]) == PosOf(w.units[id]) && d != (0, 0) ==>
              r.value == w
    ensures r.Ok? && PosOf(r.value.units[id]) != PosOf(w.units[id]) ==>
              && PosOf(r.value.units[id]) == Shift(PosOf(w.units[id]), d)
              && forall q :: q in w.board.tiles && InFootprint(r.value.units[id], q) ==>
                   r.value.board.tiles[q].occupant == Some(id)
  {
    var u := w.units[id];
    if u.pushed then Ok(SetUnit(w, id, u.(pushed := false))) else BigAttempt(w, id, d)
  }

  /** The scan-then-step part of BigEntity.move, for a unit not flagged as pushed. */
  function BigAttempt(w: World, id: Id, d: Pos): (r: Result<World>)
    requires id in w.units && Length(w.units[id]) >= 1 && !Pushable(w.units[id])
    ensures r.Ok? ==> r.value.units.Keys == w.units.Keys && r.value.board.tiles.Keys == w.board.tiles.Keys
    ensures r.Ok? ==> SameButPlace(w.units[id], r.value.units[id])
    ensures r.Ok? && PosOf(r.value.units[id]) == PosOf(w.units[id]) && d != (0, 0) ==> r.value == w
    ensures r.Ok? && PosOf(r.value.units[id]) != PosOf(w.units[id]) ==>
              && PosOf(r.value.units[id]) == Shift(PosOf(w.units[id]), d)
              && forall q :: q in w.board.tiles && InFootprint(r.value.units[id], q) ==>
                   r.value.board.tiles[q].occupant == Some(id)
  {
    var ok :- ScanBody(w, id, d);
    if !ok then Ok(w)
    else
      BigStepShifts(w, id, d);
      Ok(BigStep(w, id, d))
  }

  /** A multi-cell step moves the unit's anchor by d, and only its place changes. */
  lemma BigStepShifts(w: World, id: Id, d: Pos)
    requires id in w.units && !Pushable(w.units[id]) && AnchorClear(w, id, d)
    ensures var u' := BigStep(w, id, d).units[id];
            && PosOf(u') == Shift(PosOf(w.units[id]), d) && SameButPlace(w.units[id], u')
            && (PosOf(u') == PosOf(w.units[id]) <==> d == (0, 0))
  {
    var u := w.units[id];
    assert PosOf(BigStep(w, id, d).units[id]) == Shift(PosOf(u), d);
    ShiftMoves(PosOf(u), d);
  }

  /**
   * The move of any unit, as its class dispatches it.  The Boolean is the
   * truth value the original returns (multi-cell moves return None).  A
   * giant built without body cells does not move.
   */
  function Move(w: World, id: Id, d: Pos): (r: Result<(World, bool)>)
    requires id in w.units
    ensures r.Ok? ==> r.value.0.units.Keys == w.units.Keys && r.value.0.board.tiles.Keys == w.board.tiles.Keys
    ensures r.Ok? ==> SameButPlace(w.units[id], r.value.0.units[id])
    ensures r.Ok? && r.value.1 ==> PosOf(r.value.0.units[id]) == Shift(PosOf(w.units[id]), d)
    ensures r.Ok? ==> PosOf(r.value.0.units[id]) == PosOf(w.units[id]) || PosOf(r.value.0.units[id]) == Shift(PosOf(w.units[id]), d)
  {
    var u := w.units[id];
    match u.role
    case Fort(_, _, _, _) =>
      Ok((if u.pushed then SetUnit(w, id, u.(pushed := false)) else w, false))
    case Giant(l) =>
      var w' :- if l == 0 then Ok(w) else MoveBig(w, id, d);
      Ok((w', false))
    case _ => MoveSmall(w, id, d)
  }

  // ---------------------------------------------------------------- other entity operations

  /** Entity.teleport: onto an empty cell passable for the unit only; the new cell is written first. */
  function Teleport(w: World, id: Id, p: Pos): (r: (World, bool))
    requires id in w.units
    ensures r.0.units.Keys == w.units.Keys
    ensures r.1 <==> Occupant(w, p).None? && PassableFor(w, p, w.units[id].side)
    ensures !r.1 ==> r.0 == w
    ensures r.1 ==> PosOf(r.0.units[id]) == p
    ensures r.1 && p != PosOf(w.units[id]) ==>
              At(r.0.board, p).occupant == Some(id) && At(r.0.board, PosOf(w.units[id])).occupant.None?
    ensures forall k :: k in w.units && k != id ==> r.0.units[k] == w.units[k]
    ensures r.1 ==> r.0.units[id] == w.units[id].(x := p.0, y := p.1)
    ensures SameFrame(w, r.0)
  {
    var u := w.units[id];
    if Occupant(w, p).None? && PassableFor(w, p, u.side) then
      var w1 := SetTileOccupant(w, p, Some(id));
      var w2 := SetTileOccupant(w1, PosOf(u), None);
      (SetUnit(w2, id, u.(x := p.0, y := p.1)), true)
    else (w, false)
  }

  /** Entity.die and BigEntity.die: the body's cells are vacated and the unit is marked dead. */
  function Vacate(w: World, id: Id): (w': World)
    requires id in w.units
    ensures w'.units.Keys == w.units.Keys && w'.board.tiles.Keys == w.board.tiles.Keys
    ensures w'.units[id] == w.units[id].(alive := false)
    ensures forall k :: k in w.units && k != id ==> w'.units[k] == w.units[k]
    ensures SameFrame(w, w')
    ensures forall q :: q in w.board.tiles && InFootprint(w.units[id], q) ==> w'.board.tiles[q].occupant.None?
    ensures forall q :: q in w.board.tiles && !InFootprint(w.units[id], q) ==> w'.board.tiles[q] == w.board.tiles[q]
  {
    var u := w.units[id];
    var w1 := if Length(u) == 1 then SetTileOccupant(w, PosOf(u), None) else ClearBody(w, id);
    SetUnit(w1, id, u.(alive := false))
  }

  /** Entity.register_kill: the killer and, when it has one, its owner are each credited one kill. */
  function RegisterKill(w: World, id: Id): (w': World)
    requires id in w.units
    ensures w'.units.Keys == w.units.Keys && w'.board == w.board && SameFrame(w, w')
    ensures forall k :: k in w.units ==> w'.units[k] == w.units[k].(kills := w'.units[k].kills)
    ensures w'.units[id].kills == w.units[id].kills + 1 + (if w.units[id].owner == Some(id) then 1 else 0)
    ensures w.units[id].owner.Some? && w.units[id].owner.value in w.units && w.units[id].owner.value != id ==>
              w'.units[w.units[id].owner.value].kills == w.units[w.units[id].owner.value].kills + 1
    ensures forall k :: k in w.units && k != id && Some(k) != w.units[id].owner ==> w'.units[k] == w.units[k]
  {
    var u := w.units[id];
    var w1 := SetUnit(w, id, u.(kills := u.kills + 1));
    match u.owner
    case Some(o) =>
      if o in w1.units then SetUnit(w1, o, w1.units[o].(kills := w1.units[o].kills + 1)) else w1
    case None => w1
  }

  /** Entity.move_path: step towards the head of the path; a refused step puts the head back. */
  function MovePath(w: World, id: Id): (r: Result<(World, bool)>)
    requires id in w.units
    ensures w.units[id].path == [] ==> r == Ok((w, false))
    ensures r.Ok? ==> r.value.0.units.Keys == w.units.Keys
    ensures r.Ok? && r.value.1 ==>
              && r.value.0.units[id].path == w.units[id].path[1..]
              && PosOf(r.value.0.units[id]) == w.units[id].path[0]
    ensures r.Ok? && !r.value.1 ==> r.value.0.units[id].path == w.units[id].path
  {
    var u := w.units[id];
    if u.path == [] then Ok((w, false))
    else
      var head := u.path[0];
      var w1 := SetUnit(w, id, u.(path := u.path[1..]));
      assert PosOf(w1.units[id]) == PosOf(u);
      assert Shift(PosOf(u), (head.0 - u.x, head.1 - u.y)) == head;
      var m :- Move(w1, id, (head.0 - u.x, head.1 - u.y));
      Ok(Requeue(m.0, id, head, m.1))
  }

  /** After a refused path step, the head goes back to the front of the path. */
  function Requeue(w: World, id: Id, head: Pos, moved: bool): (r: (World, bool))
    requires id in w.units
    ensures r.1 == moved && r.0.units.Keys == w.units.Keys
    ensures moved ==> r.0 == w
    ensures !moved ==> r.0.units[id] == w.units[id].(path := [head] + w.units[id].path)
  {
    if moved then (w, true)
    else
      var v := w.units[id];
      (SetUnit(w, id, v.(path := [head] + v.path)), false)
  }

  // ---------------------------------------------------------------- fortresses

  predicate CanHost(f: Unit, g: Unit)
  {
    f.side == g.side || f.side == NeutralSide
  }

  predicate IsFort(w: World, fid: Id)
  {
    fid in w.units && w.units[fid].role.Fort?
  }

  /**
   * Fortress.host: refused for an incompatible side or a full fortress; the
   * first guest claims the fortress, and every guest leaves its cell and the
   * roster of generals.
   */
  function Host(w: World, fid: Id, gid: Id): (r: Result<World>)
    requires IsFort(w, fid) && gid in w.units && gid != fid
    ensures var f := w.units[fid];
            !CanHost(f, w.units[gid]) || |f.role.guests| >= f.role.capacity ==> r == Ok(w)
    ensures var f := w.units[fid];
            CanHost(f, w.units[gid]) && |f.role.guests| < f.role.capacity ==>
              (r.Ok? <==> gid in w.generals)
    ensures r.Ok? ==> r.value.units.Keys == w.units.Keys
    ensures var f := w.units[fid];
            CanHost(f, w.units[gid]) && |f.role.guests| < f.role.capacity && r.Ok? ==>
              && r.value != w
              && IsFort(r.value, fid)
              && r.value.units[fid].role.guests == w.units[fid].role.guests + [gid]
              && multiset(r.value.generals) == multiset(w.generals) - multiset{gid}
              && PosOf(r.value.units[gid]) == PosOf(w.units[fid])
              && (w.units[fid].role.guests == [] ==> r.value.units[fid].side == w.units[gid].side)
              && (w.units[fid].role.guests != [] ==> r.value.units[fid].side == w.units[fid].side)
  {
    var f := w.units[fid];
    var g := w.units[gid];
    if !CanHost(f, g) || |f.role.guests| >= f.role.capacity then Ok(w)
    else if gid !in w.generals then Crash("ValueError")
    else
      var side := if f.role.guests == [] then g.side else f.side;
      var w1 := SetTileOccupant(w, PosOf(g), None);
      var w2 := SetUnit(w1, gid, g.(x := f.x, y := f.y));
      var w3 := w2.(generals := RemoveFirst(w2.generals, gid));
      var f' := f.(side := side, role := f.role.(guests := f.role.guests + [gid]));
      var w4 := SetUnit(w3, fid, f');
      var w5 := UpdateBody(w4, fid);
      assert w5 != w by { assert w5.units[fid].role.guests != w.units[fid].role.guests; }
      Ok(w5)
  }

  /** Fortress.unhost: the guest rejoins the generals; an emptied fortress turns neutral. */
  function Unhost(w: World, fid: Id, gid: Id): (r: Result<World>)
    requires IsFort(w, fid)
    ensures r.Ok? <==> gid in w.units[fid].role.guests
    ensures r.Ok? ==>
              && IsFort(r.value, fid)
              && r.value.generals == w.generals + [gid]
              && r.value.units[fid].role.guests == RemoveFirst(w.units[fid].role.guests, gid)
              && (r.value.units[fid].role.guests == [] ==> r.value.units[fid].side == NeutralSide)
              && (r.value.units[fid].role.guests != [] ==> r.value.units[fid].side == w.units[fid].side)
  {
    var f := w.units[fid];
    if gid !in f.role.guests then Crash("ValueError")
    else
      var guests := RemoveFirst(f.role.guests, gid);
      var side := if guests == [] then NeutralSide else f.side;
      Ok(SetUnit(w, fid, f.(side := side, role := f.role.(guests := guests))).(generals := w.generals + [gid]))
  }

  /** Hosting a general that is not yet a guest and then releasing it restores guests and roster contents. */
  lemma {:induction false} HostThenUnhost(w: World, fid: Id, gid: Id)
    requires IsFort(w, fid) && gid in w.units && gid != fid
    requires gid !in w.units[fid].role.guests
    requires CanHost(w.units[fid], w.units[gid]) && |w.units[fid].role.guests| < w.units[fid].role.capacity
    requires gid in w.generals
    ensures Unhost(Host(w, fid, gid).value, fid, gid).Ok?
    ensures var w2 := Unhost(Host(w, fid, gid).value, fid, gid).value;
            && w2.units[fid].role.guests == w.units[fid].role.guests
            && multiset(w2.generals) == multiset(w.generals)
  {
    var w1 := Host(w, fid, gid).value;
    var gs := w.units[fid].role.guests;
    RemoveFirstAppended(gs, gid);
    var w2 := Unhost(w1, fid, gid).value;
    var before := multiset(w.generals);
    assert gid in before;
    assert w2.generals == w1.generals + [gid];
    assert multiset(w2.generals) == multiset(w1.generals) + multiset{gid};
    assert multiset(w1.generals) == before - multiset{gid};
    assert before - multiset{gid} + multiset{gid} == before;
  }

  lemma {:induction false} RemoveFirstAppended<T>(s: seq<T>, x: T)
    requires x !in s
    ensures RemoveFirst(s + [x], x) == s
  {
    if s != [] {
      assert (s + [x])[1..] == s[1..] + [x];
      RemoveFirstAppended(s[1..], x);
    }
  }

  // ---------------------------------------------------------------- construction

  /** Constructing an entity: it gets a fresh id and its cell (every cell, for a big one) names it. */
  function Spawn(w: World, u: Unit): (r: (World, Id))
    ensures r.1 == w.nextId && r.0.nextId == w.nextId + 1
    ensures r.0.units.Keys == w.units.Keys + {r.1} && r.0.units[r.1] == u
    ensures r.0.board.tiles.Keys == w.board.tiles.Keys
    ensures forall k :: k in w.units && k != r.1 ==> r.0.units[k] == w.units[k]
    ensures forall q :: q in w.board.tiles && InFootprint(u, q) ==> r.0.board.tiles[q].occupant == Some(r.1)
  {
    var id := w.nextId;
    var w1 := SetUnit(w, id, u).(nextId := id + 1);
    var w2 := SetTileOccupant(w1, PosOf(u), Some(id));
    (if Length(u) == 1 then w2 else UpdateBody(w2, id), id)
  }
}
