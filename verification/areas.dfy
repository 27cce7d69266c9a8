/**
 * Targeting: the tile filters of sieve.py and the area shapes of area.py.
 * An area's tiles are represented by their cells; a tile's identity in the
 * original is its coordinate pair.
 */
module Areas {
  import opened Wrappers
  import opened Grid
  import opened State
  import opened Seqs

  function Abs(n: int): nat
  {
    if n < 0 then -n else n
  }

  // ---------------------------------------------------------------- sieves

  /** The occupant of p belongs to `side` (Entity.is_ally). */
  predicate AllyOf(w: World, o: Id, side: int)
  {
    o in w.units && w.units[o].side == side
  }

  /**
   * A sieve function judged for a general that exists.  Every filter but
   * is_adjacent, is_empty and is_inrange looks at the tile's entity, and
   * rejects an empty tile.  For is_enemy_general this is the value when the
   * generals list has the opponent's entry; without it the original raises
   * (SieveRaises).
   */
  predicate GeneralSieve(w: World, g: Id, f: SieveFn, p: Pos)
    requires g in w.units
    ensures GeneralSieve(w, g, f, p) && !f.IsAdjacent? && !f.IsEmpty? && !f.IsInRange? ==> Occupant(w, p).Some?
    ensures GeneralSieve(w, g, f, p) && f.IsEnemyGeneral? ==> Occupant(w, p).value in w.generals
  {
    var gen := w.units[g];
    var occ := Occupant(w, p);
    match f
    case IsAdjacent => Abs(p.0 - gen.x) <= 1 && Abs(p.1 - gen.y) <= 1
    case IsAlly => occ.Some? && AllyOf(w, occ.value, gen.side)
    case IsAllyGeneral => occ == Some(g)
    case IsAllyMinion => occ.Some? && occ.value in w.minions && AllyOf(w, occ.value, gen.side)
    case IsEmpty => occ.None?
    case IsEnemy => occ.Some? && !AllyOf(w, occ.value, gen.side)
    case IsEnemyGeneral =>
      occ.Some? && Opponent(gen.side) < |w.generals| && occ.value == w.generals[Opponent(gen.side)]
    case IsInRange(r) => p in CircleCells(w.board, (gen.x, gen.y), r)
    case IsMinion => occ.Some? && occ.value in w.minions
    case IsUnit => occ.Some? && (occ.value in w.minions || occ.value in w.generals)
  }

  /** Sieve.apply: every filter but is_empty rejects all tiles when the general is missing. */
  predicate SieveHolds(w: World, g: Option<Id>, f: SieveFn, p: Pos)
    requires g.Some? ==> g.value in w.units
  {
    if f.IsEmpty? then Occupant(w, p).None? else g.Some? && GeneralSieve(w, g.value, f, p)
  }

  /**
   * is_enemy_general reads `generals[(side + 1) % 2]` on an occupied tile:
   * with that entry missing (a fortress took the general off the list) the
   * original raises IndexError.
   */
  predicate SieveRaises(w: World, g: Option<Id>, f: SieveFn, p: Pos)
    requires g.Some? ==> g.value in w.units
  {
    f.IsEnemyGeneral? && g.Some? && Occupant(w, p).Some? && Opponent(w.units[g.value].side) >= |w.generals|
  }

  /** Sieve.apply on one tile: the filter's verdict, or the IndexError of is_enemy_general. */
  function SieveApply(w: World, g: Option<Id>, f: SieveFn, p: Pos): (r: Result<bool>)
    requires g.Some? ==> g.value in w.units
    ensures r.Crash? <==> f.IsEnemyGeneral? && g.Some? && Occupant(w, p).Some?
                          && Opponent(w.units[g.value].side) >= |w.generals|
    ensures r.Crash? ==> r.reason == "IndexError"
    ensures r.Ok? ==> (r.value <==> SieveHolds(w, g, f, p))
    ensures r == Ok(true) && f.IsEnemyGeneral? ==> Occupant(w, p).Some? && Occupant(w, p).value in w.generals
  {
    if SieveRaises(w, g, f, p) then Crash("IndexError") else Ok(SieveHolds(w, g, f, p))
  }

  /** is_inrange: the tiles of a circle of the given radius around the general. */
  lemma InRangeIsCircle(w: World, g: Id, r: int, p: Pos)
    requires g in w.units
    ensures SieveHolds(w, Some(g), IsInRange(r), p) <==>
              r >= 0 && Inside(w.board, p) && Dist2(p, (w.units[g].x, w.units[g].y)) <= r * r
  {
    CircleMembers(w.board, (w.units[g].x, w.units[g].y), r);
  }

  /**
   * How the filters relate.  Without a general only is_empty can hold.
   * With one, a tile holding a known unit or nothing is exactly one of
   * empty, ally and enemy; the general's own tile is an ally tile; an ally
   * minion is an ally that is a minion; a minion is a unit; and a tile a
   * unit of the general's side may step on (Tile.is_passable) is a passable
   * one that is empty or allied.
   */
  lemma SieveRelations(w: World, g: Option<Id>, p: Pos)
    requires g.Some? ==> g.value in w.units
    ensures g.None? ==> forall f: SieveFn :: SieveHolds(w, g, f, p) <==> f.IsEmpty? && Occupant(w, p).None?
    ensures g.Some? && (Occupant(w, p).Some? ==> Occupant(w, p).value in w.units) ==>
              && (SieveHolds(w, g, IsEmpty, p) || SieveHolds(w, g, IsAlly, p) || SieveHolds(w, g, IsEnemy, p))
              && !(SieveHolds(w, g, IsEmpty, p) && SieveHolds(w, g, IsAlly, p))
              && !(SieveHolds(w, g, IsEmpty, p) && SieveHolds(w, g, IsEnemy, p))
              && !(SieveHolds(w, g, IsAlly, p) && SieveHolds(w, g, IsEnemy, p))
    ensures g.Some? ==> (SieveHolds(w, g, IsAllyGeneral, p) ==> SieveHolds(w, g, IsAlly, p))
    ensures g.Some? ==>
              (SieveHolds(w, g, IsAllyMinion, p) <==> SieveHolds(w, g, IsAlly, p) && SieveHolds(w, g, IsMinion, p))
    ensures SieveHolds(w, g, IsMinion, p) ==> SieveHolds(w, g, IsUnit, p)
    ensures g.Some? ==>
              (PassableFor(w, p, w.units[g.value].side) <==>
                 At(w.board, p).passable && (SieveHolds(w, g, IsEmpty, p) || SieveHolds(w, g, IsAlly, p)))
  {
  }

  // ---------------------------------------------------------------- circle

  function Dist2(p: Pos, c: Pos): int
  {
    (p.0 - c.0) * (p.0 - c.0) + (p.1 - c.1) * (p.1 - c.1)
  }

  predicate InCircle(b: Board, c: Pos, r: int, p: Pos)
  {
    Inside(b, p) && Dist2(p, c) <= r * r
  }

  /** One column a of the bounding square, from row y down to the square's last row. */
  function CircleColumn(b: Board, c: Pos, r: int, a: int, y: int): (s: seq<Pos>)
    ensures forall p :: p in s <==> p.0 == a && y <= p.1 <= c.1 + r && InCircle(b, c, r, p)
    ensures forall i, j :: 0 <= i < j < |s| ==> s[i].1 < s[j].1
    decreases c.1 + r + 1 - y
  {
    if y > c.1 + r then []
    else (if InCircle(b, c, r, (a, y)) then [(a, y)] else []) + CircleColumn(b, c, r, a, y + 1)
  }

  /** Columns a .. c.0 + r of the bounding square, x outer and y inner as in the original. */
  function CircleColumns(b: Board, c: Pos, r: int, a: int): (s: seq<Pos>)
    ensures forall p :: p in s <==> a <= p.0 <= c.0 + r && c.1 - r <= p.1 <= c.1 + r && InCircle(b, c, r, p)
    ensures forall i, j :: 0 <= i < j < |s| ==> s[i].0 < s[j].0 || (s[i].0 == s[j].0 && s[i].1 < s[j].1)
    decreases c.0 + r + 1 - a
  {
    if a > c.0 + r then []
    else
      var col := CircleColumn(b, c, r, a, c.1 - r);
      var rest := CircleColumns(b, c, r, a + 1);
      assert forall i :: 0 <= i < |col| ==> col[i] in col;
      assert forall j :: 0 <= j < |rest| ==> rest[j] in rest;
      col + rest
  }

  /** Circle.get_all_tiles: the in-board cells of the bounding square within the radius. */
  function CircleCells(b: Board, c: Pos, r: int): seq<Pos>
  {
    CircleColumns(b, c, r, c.0 - r)
  }

  /** A square no larger than r*r has a side no longer than r. */
  lemma SquareBound(d: int, r: int)
    requires r >= 0 && d * d <= r * r
    ensures -r <= d <= r
  {
  }

  lemma CircleMembers(b: Board, c: Pos, r: int)
    ensures forall p :: p in CircleCells(b, c, r) <==> r >= 0 && InCircle(b, c, r, p)
    ensures NoDup(CircleCells(b, c, r))
  {
    forall p | r >= 0 && InCircle(b, c, r, p)
      ensures c.0 - r <= p.0 <= c.0 + r && c.1 - r <= p.1 <= c.1 + r
    {
      assert (p.0 - c.0) * (p.0 - c.0) <= r * r by {
        assert (p.1 - c.1) * (p.1 - c.1) >= 0;
      }
      assert (p.1 - c.1) * (p.1 - c.1) <= r * r by {
        assert (p.0 - c.0) * (p.0 - c.0) >= 0;
      }
      SquareBound(p.0 - c.0, r);
      SquareBound(p.1 - c.1, r);
    }
  }

  // ---------------------------------------------------------------- line

  /** The row and error term the walk carries to its next column: the error loses dy, and a negative error moves one row and regains dx. */
  function WalkNext(y: int, err: int, dx: int, dy: int, ystep: int): (int, int)
  {
    if err - dy < 0 then (y + ystep, err - dy + dx) else (y, err - dy)
  }

  /** The Bresenham walk from column x to xEnd, starting on row y with the given error term. */
  function Walk(x: int, xEnd: int, y: int, err: int, dx: int, dy: int, ystep: int): (s: seq<Pos>)
    ensures |s| == if x <= xEnd then xEnd - x + 1 else 0
    ensures forall i :: 0 <= i < |s| ==> s[i].0 == x + i
    ensures |s| > 0 ==> s[0] == (x, y)
    ensures forall i :: 0 <= i < |s| - 1 ==> s[i + 1].1 == s[i].1 || s[i + 1].1 == s[i].1 + ystep
    decreases xEnd - x + 1
  {
    if x > xEnd then []
    else
      var next := WalkNext(y, err, dx, dy, ystep);
      [(x, y)] + Walk(x + 1, xEnd, next.0, next.1, dx, dy, ystep)
  }

  lemma MulAtLeast(q: int, d: int)
    requires d > 0
    ensures q >= 1 ==> q * d >= d
    ensures q <= -1 ==> q * d <= -d
  {
  }

  /**
   * The row the walk ends on: after k = xEnd - x steps the error term has lost
   * k*dy and regained q*dx for the q carries taken, and it stays in [0, dx).
   */
  lemma {:induction false} WalkEnd(x: int, xEnd: int, y: int, err: int, dx: int, dy: int, ystep: int, q: int)
    requires x <= xEnd && dx > 0 && 0 <= dy <= dx && 0 <= err < dx
    requires 0 <= err - (xEnd - x) * dy + q * dx < dx
    ensures Walk(x, xEnd, y, err, dx, dy, ystep)[xEnd - x].1 == y + ystep * q
    decreases xEnd - x
  {
    var k := xEnd - x;
    if k == 0 {
      MulAtLeast(q, dx);
      assert q == 0;
    } else {
      WalkUnfold(x, xEnd, y, err, dx, dy, ystep);
      var e := err - dy;
      ErrorStep(err, dx, dy, k, q);
      if e < 0 {
        assert Walk(x, xEnd, y, err, dx, dy, ystep)[k] == Walk(x + 1, xEnd, y + ystep, e + dx, dx, dy, ystep)[k - 1];
        WalkEnd(x + 1, xEnd, y + ystep, e + dx, dx, dy, ystep, q - 1);
        MulPred'(ystep, q);
      } else {
        assert Walk(x, xEnd, y, err, dx, dy, ystep)[k] == Walk(x + 1, xEnd, y, e, dx, dy, ystep)[k - 1];
        WalkEnd(x + 1, xEnd, y, e, dx, dy, ystep, q);
      }
    }
  }

  /** One column further, the error bound holds for the remaining k - 1 steps, with one carry fewer when the error went negative. */
  lemma ErrorStep(err: int, dx: int, dy: int, k: int, q: int)
    requires dx > 0 && 0 <= dy <= dx && 0 <= err < dx && k >= 1
    requires 0 <= err - k * dy + q * dx < dx
    ensures err - dy < 0 ==> 0 <= err - dy + dx < dx && 0 <= (err - dy + dx) - (k - 1) * dy + (q - 1) * dx < dx
    ensures err - dy >= 0 ==> 0 <= err - dy - (k - 1) * dy + q * dx < dx
  {
    MulPred(k, dy);
    MulPred(q, dx);
  }

  lemma MulPred(a: int, b: int)
    ensures (a - 1) * b == a * b - b
  {
  }

  lemma MulPred'(a: int, b: int)
    ensures a * (b - 1) == a * b - a
  {
  }

  /** The points of the walk with coordinates swapped back when the line is steep. */
  function Orient(s: seq<Pos>, steep: bool): (r: seq<Pos>)
    ensures |r| == |s|
    ensures forall i :: 0 <= i < |s| ==> r[i] == if steep then (s[i].1, s[i].0) else s[i]
  {
    if steep then seq(|s|, i requires 0 <= i < |s| => (s[i].1, s[i].0)) else s
  }

  /** The walk's parameters after the steepness swap and the left-to-right swap. */
  datatype Plan = Plan(steep: bool, rev: bool, x1: int, y1: int, x2: int, y2: int)

  function LinePlan(o: Pos, t: Pos): (p: Plan)
    ensures p.x1 <= p.x2 && Abs(p.y2 - p.y1) <= p.x2 - p.x1
    ensures p.x2 - p.x1 == if Abs(t.1 - o.1) > Abs(t.0 - o.0) then Abs(t.1 - o.1) else Abs(t.0 - o.0)
  {
    var steep := Abs(t.1 - o.1) > Abs(t.0 - o.0);
    var (a1, b1, a2, b2) := if steep then (o.1, o.0, t.1, t.0) else (o.0, o.1, t.0, t.1);
    if a1 > a2 then Plan(steep, true, a2, b2, a1, b1) else Plan(steep, false, a1, b1, a2, b2)
  }

  function PlanWalk(p: Plan): (s: seq<Pos>)
    requires p.x1 <= p.x2
    ensures |s| == p.x2 - p.x1 + 1
  {
    Walk(p.x1, p.x2, p.y1, (p.x2 - p.x1) / 2, p.x2 - p.x1, Abs(p.y2 - p.y1), if p.y1 < p.y2 then 1 else -1)
  }

  /** Every point of the line from o to t, whether on the board or not. */
  function FullLine(o: Pos, t: Pos): seq<Pos>
  {
    var p := LinePlan(o, t);
    var pts := Orient(PlanWalk(p), p.steep);
    if p.rev then Reverse(pts) else pts
  }

  /**
   * What one point q of the line (already swapped back) contributes in
   * area.py's loop: q itself when it is on the board; for a steep line whose
   * q is off the board, the `elif` tests the unswapped walk point instead
   * and takes that tile when it is on the board.
   */
  function Pick(b: Board, q: Pos, steep: bool): seq<Pos>
  {
    if Inside(b, q) then [q] else if steep && Inside(b, (q.1, q.0)) then [(q.1, q.0)] else []
  }

  /** The loop's picks over a run of points: their on-board points and, for a steep line, the transposes of the off-board ones that land on the board. */
  function Picks(b: Board, s: seq<Pos>, steep: bool): (r: seq<Pos>)
    ensures |r| <= |s|
    ensures forall p :: p in r ==> Inside(b, p)
    ensures forall p :: p in r <==> (p in s && Inside(b, p)) || (steep && Inside(b, p) && (p.1, p.0) in s && !Inside(b, (p.1, p.0)))
  {
    if s == [] then [] else Pick(b, s[0], steep) + Picks(b, s[1..], steep)
  }

  /** For a line that is not steep the picks are the on-board points. */
  lemma {:induction false} PicksShallow(b: Board, s: seq<Pos>)
    ensures Picks(b, s, false) == Filter(s, q => Inside(b, q))
  {
    if s != [] {
      PicksShallow(b, s[1..]);
    }
  }

  /**
   * Line.get_all_tiles as written: the walk's picks (area.py:260-263), then
   * the left-to-right swap undone.
   */
  function LineCells(b: Board, o: Pos, t: Pos): seq<Pos>
  {
    var p := LinePlan(o, t);
    var pts := Picks(b, Orient(PlanWalk(p), p.steep), p.steep);
    if p.rev then Reverse(pts) else pts
  }

  /** The line's tiles the loop evidently means: the walk's on-board points only, in walking order. */
  function LineCellsIntended(b: Board, o: Pos, t: Pos): seq<Pos>
  {
    var p := LinePlan(o, t);
    var pts := Filter(Orient(PlanWalk(p), p.steep), q => Inside(b, q));
    if p.rev then Reverse(pts) else pts
  }

  predicate KingStep(a: Pos, b: Pos)
  {
    a != b && Abs(a.0 - b.0) <= 1 && Abs(a.1 - b.1) <= 1
  }

  /** The walk ends on (x2, y2): its carries add up to the row difference. */
  lemma WalkLast(p: Plan)
    requires p.x1 <= p.x2 && Abs(p.y2 - p.y1) <= p.x2 - p.x1
    ensures PlanWalk(p)[p.x2 - p.x1] == (p.x2, p.y2)
  {
    var dx := p.x2 - p.x1;
    var dy := Abs(p.y2 - p.y1);
    var ystep := if p.y1 < p.y2 then 1 else -1;
    var s := Walk(p.x1, p.x2, p.y1, dx / 2, dx, dy, ystep);
    assert s == PlanWalk(p);
    assert s[dx].0 == p.x2;
    if dx > 0 {
      var e := dx / 2;
      assert 0 <= e - (p.x2 - p.x1) * dy + dy * dx < dx by {
        assert (p.x2 - p.x1) * dy == dy * dx;
      }
      WalkEnd(p.x1, p.x2, p.y1, e, dx, dy, ystep, dy);
      assert ystep * dy == p.y2 - p.y1;
    } else {
      assert p.y2 == p.y1;
    }
  }

  lemma WalkSteps(p: Plan)
    requires p.x1 <= p.x2
    ensures forall i :: 0 <= i < p.x2 - p.x1 ==> KingStep(PlanWalk(p)[i], PlanWalk(p)[i + 1])
  {
    var s := PlanWalk(p);
    var ystep := if p.y1 < p.y2 then 1 else -1;
    assert forall i :: 0 <= i < |s| - 1 ==> s[i + 1].1 == s[i].1 || s[i + 1].1 == s[i].1 + ystep;
    forall i | 0 <= i < p.x2 - p.x1
      ensures KingStep(s[i], s[i + 1])
    {
      assert s[i + 1].0 == s[i].0 + 1;
    }
  }

  /** The walk runs from (x1, y1) to (x2, y2) in unit steps. */
  lemma WalkShape(p: Plan)
    requires p.x1 <= p.x2 && Abs(p.y2 - p.y1) <= p.x2 - p.x1
    ensures PlanWalk(p)[0] == (p.x1, p.y1)
    ensures PlanWalk(p)[p.x2 - p.x1] == (p.x2, p.y2)
    ensures forall i :: 0 <= i < p.x2 - p.x1 ==> KingStep(PlanWalk(p)[i], PlanWalk(p)[i + 1])
  {
    WalkLast(p);
    WalkSteps(p);
  }

  /** Consecutive points of s are a king step apart. */
  predicate KingPath(s: seq<Pos>)
  {
    forall i :: 0 <= i < |s| - 1 ==> KingStep(s[i], s[i + 1])
  }

  /** Before the final reversal, the oriented walk joins the two ends in king steps. */
  lemma OrientedWalk(o: Pos, t: Pos)
    ensures var p := LinePlan(o, t);
            var pts := Orient(PlanWalk(p), p.steep);
            && pts[0] == (if p.rev then t else o)
            && pts[|pts| - 1] == (if p.rev then o else t)
            && KingPath(pts)
  {
    var p := LinePlan(o, t);
    var w := PlanWalk(p);
    WalkShape(p);
    PlanEnds(o, t);
    var pts := Orient(w, p.steep);
    assert pts[0] == (if p.steep then (p.y1, p.x1) else (p.x1, p.y1));
    assert pts[|pts| - 1] == (if p.steep then (p.y2, p.x2) else (p.x2, p.y2));
    forall i | 0 <= i < |pts| - 1
      ensures KingStep(pts[i], pts[i + 1])
    {
      assert KingStep(w[i], w[i + 1]);
    }
  }

  /** The plan's ends, swapped back when steep, are the line's two ends in walking order. */
  lemma PlanEnds(o: Pos, t: Pos)
    ensures var p := LinePlan(o, t);
            && (if p.steep then (p.y1, p.x1) else (p.x1, p.y1)) == (if p.rev then t else o)
            && (if p.steep then (p.y2, p.x2) else (p.x2, p.y2)) == (if p.rev then o else t)
  {
  }

  lemma ReversePath(s: seq<Pos>)
    requires KingPath(s)
    ensures KingPath(Reverse(s))
  {
    var r := Reverse(s);
    var n := |s| - 1;
    forall i | 0 <= i < |r| - 1
      ensures KingStep(r[i], r[i + 1])
    {
      assert r[i] == s[n - i] && r[i + 1] == s[n - i - 1];
      assert KingStep(s[n - i - 1], s[n - i]);
    }
  }

  /**
   * The unfiltered line starts at the origin, ends at the target, has one
   * point per step of the longer axis plus one, and moves in king steps.
   */
  lemma LineShape(o: Pos, t: Pos)
    ensures |FullLine(o, t)| == 1 + (if Abs(t.1 - o.1) > Abs(t.0 - o.0) then Abs(t.1 - o.1) else Abs(t.0 - o.0))
    ensures FullLine(o, t)[0] == o
    ensures FullLine(o, t)[|FullLine(o, t)| - 1] == t
    ensures KingPath(FullLine(o, t))
  {
    var p := LinePlan(o, t);
    var pts := Orient(PlanWalk(p), p.steep);
    OrientedWalk(o, t);
    if p.rev {
      ReversePath(pts);
    }
  }

  /** The intended filter-then-reverse keeps exactly the in-board points of the full line, in order. */
  lemma LineCellsFiltered(b: Board, o: Pos, t: Pos)
    ensures LineCellsIntended(b, o, t) == Filter(FullLine(o, t), q => Inside(b, q))
  {
    var p := LinePlan(o, t);
    if p.rev {
      FilterReverse(Orient(PlanWalk(p), p.steep), q => Inside(b, q));
    }
  }

  /**
   * The line as written is the picks over the full line, in order: its
   * on-board points, plus, for a steep line, the transposed tile of each
   * off-board point whose transpose is on the board.
   */
  lemma LinePicked(b: Board, o: Pos, t: Pos)
    ensures LineCells(b, o, t) == Picks(b, FullLine(o, t), LinePlan(o, t).steep)
  {
    var p := LinePlan(o, t);
    if p.rev {
      PicksReverse(b, Orient(PlanWalk(p), p.steep), p.steep);
    }
  }

  /** A line that is not steep, or whose points all lie on the board, is the same as written and as intended. */
  lemma LineAgrees(b: Board, o: Pos, t: Pos)
    requires !LinePlan(o, t).steep || forall q :: q in FullLine(o, t) ==> Inside(b, q)
    ensures LineCells(b, o, t) == LineCellsIntended(b, o, t)
  {
    var steep := LinePlan(o, t).steep;
    var full := FullLine(o, t);
    LinePicked(b, o, t);
    LineCellsFiltered(b, o, t);
    if steep {
      PicksAllInside(b, full, steep);
      FilterAll(full, q => Inside(b, q));
    } else {
      PicksShallow(b, full);
    }
  }

  lemma {:induction false} PicksAllInside(b: Board, s: seq<Pos>, steep: bool)
    requires forall q :: q in s ==> Inside(b, q)
    ensures Picks(b, s, steep) == s
  {
    if s != [] {
      assert s[1..] + [] == s[1..];
      PicksAllInside(b, s[1..], steep);
    }
  }

  lemma {:induction false} PicksConcat(b: Board, s: seq<Pos>, u: seq<Pos>, steep: bool)
    ensures Picks(b, s + u, steep) == Picks(b, s, steep) + Picks(b, u, steep)
  {
    if s == [] {
      assert s + u == u;
    } else {
      assert (s + u)[0] == s[0] && (s + u)[1..] == s[1..] + u;
      assert Picks(b, s + u, steep) == Pick(b, s[0], steep) + Picks(b, s[1..] + u, steep);
      PicksConcat(b, s[1..], u, steep);
    }
  }

  lemma {:induction false} PicksReverse(b: Board, s: seq<Pos>, steep: bool)
    ensures Picks(b, Reverse(s), steep) == Reverse(Picks(b, s, steep))
  {
    if s != [] {
      PicksReverse(b, s[1..], steep);
      var head := Pick(b, s[0], steep);
      assert Picks(b, [s[0]], steep) == head;
      PicksConcat(b, Reverse(s[1..]), [s[0]], steep);
      ReverseConcat(head, Picks(b, s[1..], steep));
      assert Reverse(head) == head;
    }
  }

  /**
   * On a 20 x 10 board the steep line from (0, 0) to (1, 12) leaves the
   * board at (1, 10); the loop as written then takes the transposed tile
   * (10, 1), which is not on the line at all.
   */
  lemma LineTransposedExample(b: Board, o: Pos, t: Pos)
    requires b.width == 20 && b.height == 10 && o == (0, 0) && t == (1, 12)
    ensures (10, 1) in LineCells(b, o, t)
    ensures (10, 1) !in LineCellsIntended(b, o, t)
  {
    var p := LinePlan(o, t);
    assert p.steep && !p.rev && p.x1 == 0 && p.y1 == 0 && p.x2 == 12 && p.y2 == 1;
    ExampleLine(b, o, t);
  }

  lemma ExampleLine(b: Board, o: Pos, t: Pos)
    requires b.width == 20 && b.height == 10
    requires var p := LinePlan(o, t); p.steep && !p.rev && p.x1 == 0 && p.y1 == 0 && p.x2 == 12 && p.y2 == 1
    ensures (10, 1) in LineCells(b, o, t)
    ensures (10, 1) !in LineCellsIntended(b, o, t)
  {
    var p := LinePlan(o, t);
    ExamplePoints(b, p);
    ExampleCells(b, o, t, Orient(PlanWalk(p), true));
  }

  /** The example's walk, oriented back, is picked at (10, 1) but not filtered to it. */
  lemma ExamplePoints(b: Board, p: Plan)
    requires b.width == 20 && b.height == 10
    requires p.x1 == 0 && p.y1 == 0 && p.x2 == 12 && p.y2 == 1
    ensures var pts := Orient(PlanWalk(p), true);
      (10, 1) in Picks(b, pts, true) && (10, 1) !in Filter(pts, q => Inside(b, q))
  {
    ExampleWalk(p);
    ExamplePicks(b, Orient(PlanWalk(p), true));
  }

  /** What holds of a steep forward plan's points holds of the line's cells. */
  lemma ExampleCells(b: Board, o: Pos, t: Pos, pts: seq<Pos>)
    requires LinePlan(o, t).steep && !LinePlan(o, t).rev && pts == Orient(PlanWalk(LinePlan(o, t)), true)
    requires (10, 1) in Picks(b, pts, true) && (10, 1) !in Filter(pts, q => Inside(b, q))
    ensures (10, 1) in LineCells(b, o, t)
    ensures (10, 1) !in LineCellsIntended(b, o, t)
  {
  }

  /** The picks of the example's points take (10, 1), which the intended filter does not. */
  lemma ExamplePicks(b: Board, pts: seq<Pos>)
    requires b.width == 20 && b.height == 10
    requires |pts| > 10 && pts[10] == (1, 10) && pts[1] == (0, 1)
    requires forall i :: 0 <= i < |pts| ==> pts[i].1 == i
    ensures (10, 1) in Picks(b, pts, true)
    ensures (10, 1) !in Filter(pts, q => Inside(b, q))
  {
    assert (1, 10) in pts;
    NotOnLine(pts);
  }

  /** A steep line's swapped-back points carry the walk's column as their row. */
  lemma RowIsIndex(s: seq<Pos>, x: int)
    requires forall i :: 0 <= i < |s| ==> s[i].0 == x + i
    ensures forall i :: 0 <= i < |s| ==> Orient(s, true)[i].1 == x + i
  {
  }

  /** (10, 1) would have to be the point at index 1, which is (0, 1). */
  lemma NotOnLine(pts: seq<Pos>)
    requires forall i :: 0 <= i < |pts| ==> pts[i].1 == i
    requires |pts| > 1 && pts[1] == (0, 1)
    ensures (10, 1) !in pts
  {
    forall i | 0 <= i < |pts|
      ensures pts[i] != (10, 1)
    {
      if i == 1 {
        assert pts[1] == (0, 1);
      }
    }
  }

  /** The walk of that line: one carry, between columns 6 and 7. */
  lemma ExampleWalk(p: Plan)
    requires p.x2 == p.x1 + 12 && p.y2 == p.y1 + 1
    ensures var pts := Orient(PlanWalk(p), true);
            && |pts| == 13 && pts[1] == (p.y1, p.x1 + 1) && pts[10] == (p.y1 + 1, p.x1 + 10)
            && forall i :: 0 <= i < |pts| ==> pts[i].1 == p.x1 + i
  {
    var (x, xEnd, y) := (p.x1, p.x2, p.y1);
    var w := Walk(x, xEnd, y, 6, 12, 1, 1);
    assert PlanWalk(p) == w;
    assert w[1].1 == y by {
      WalkPrefix(x, xEnd, x + 1, y, 6, 12, 1, 1);
      WalkEnd(x, x + 1, y, 6, 12, 1, 1, 0);
    }
    assert w[10].1 == y + 1 by {
      WalkPrefix(x, xEnd, x + 10, y, 6, 12, 1, 1);
      WalkEnd(x, x + 10, y, 6, 12, 1, 1, 1);
    }
    RowIsIndex(w, x);
  }

  /** The walk's first points do not depend on where it stops. */
  lemma {:induction false} WalkPrefix(x: int, xEnd: int, xStop: int, y: int, err: int, dx: int, dy: int, ystep: int)
    requires x <= xStop <= xEnd
    ensures Walk(x, xEnd, y, err, dx, dy, ystep)[xStop - x] == Walk(x, xStop, y, err, dx, dy, ystep)[xStop - x]
    decreases xStop - x
  {
    if x < xStop {
      var y' := WalkNext(y, err, dx, dy, ystep).0;
      var err' := WalkNext(y, err, dx, dy, ystep).1;
      WalkUnfold(x, xEnd, y, err, dx, dy, ystep);
      WalkUnfold(x, xStop, y, err, dx, dy, ystep);
      WalkPrefix(x + 1, xEnd, xStop, y', err', dx, dy, ystep);
    }
  }

  lemma WalkUnfold(x: int, xEnd: int, y: int, err: int, dx: int, dy: int, ystep: int)
    requires x <= xEnd
    ensures Walk(x, xEnd, y, err, dx, dy, ystep) == [(x, y)] + Walk(x + 1, xEnd, WalkNext(y, err, dx, dy, ystep).0, WalkNext(y, err, dx, dy, ystep).1, dx, dy, ystep)
  {
  }


  lemma {:induction false} ReverseConcat<T>(a: seq<T>, b: seq<T>)
    ensures Reverse(a + b) == Reverse(b) + Reverse(a)
  {
  }

  lemma {:induction false} FilterReverse<T(!new)>(s: seq<T>, keep: T -> bool)
    ensures Filter(Reverse(s), keep) == Reverse(Filter(s, keep))
  {
    if s != [] {
      FilterReverse(s[1..], keep);
      FilterConcat(Reverse(s[1..]), [s[0]], keep);
      var head := if keep(s[0]) then [s[0]] else [];
      assert Filter([s[0]], keep) == head;
      assert Filter(s, keep) == head + Filter(s[1..], keep);
      ReverseConcat(head, Filter(s[1..], keep));
      assert Reverse(head) == head;
    }
  }

  // ---------------------------------------------------------------- areas

  /** The cell an area is aimed at: the general's own cell for self-centred areas. */
  function Centre(w: World, a: Area, x: int, y: int): Pos
    requires a.general.Some? ==> a.general.value in w.units
  {
    if a.selfCentered && a.general.Some? then (w.units[a.general.value].x, w.units[a.general.value].y) else (x, y)
  }

  /** get_all_tiles of each shape, before any filter. */
  function ShapeCells(w: World, s: Shape, c: Pos): seq<Pos>
  {
    match s
    case SingleTarget => if Inside(w.board, c) then [c] else []
    case Circle(r) => CircleCells(w.board, c, r)
    case Line(o) => LineCells(w.board, o, c)
    case AllBattleground => w.board.order
    case Custom(cells) => cells
  }

  /** The reach test raises on an in-board centre. */
  predicate ReachRaises(w: World, a: Area, c: Pos)
    requires a.general.Some? ==> a.general.value in w.units
  {
    a.reach.Some? && Inside(w.board, c) && SieveRaises(w, a.general, a.reach.value, c)
  }

  /** The reach test fails on an in-board centre: the area yields nothing. */
  predicate Vetoed(w: World, a: Area, c: Pos)
    requires a.general.Some? ==> a.general.value in w.units
  {
    a.reach.Some? && Inside(w.board, c) && !SieveHolds(w, a.general, a.reach.value, c)
  }

  /** `list(filter(sieve.apply, cells))`: the passing cells in order, or the first tile's IndexError. */
  function Sift(w: World, g: Option<Id>, f: SieveFn, cells: seq<Pos>): (r: Result<seq<Pos>>)
    requires g.Some? ==> g.value in w.units
    ensures r.Crash? <==> exists p :: p in cells && SieveRaises(w, g, f, p)
    ensures r.Crash? ==> r.reason == "IndexError"
    ensures r.Ok? ==> r.value == Filter(cells, p => SieveHolds(w, g, f, p))
  {
    if cells == [] then Ok([])
    else
      var keep :- SieveApply(w, g, f, cells[0]);
      var rest :- Sift(w, g, f, cells[1..]);
      Ok((if keep then [cells[0]] else []) + rest)
  }

  /**
   * Area.get_tiles.  A reach test or filter that raises (is_enemy_general
   * with the opponent's entry missing from the generals list) makes the
   * whole call raise.
   */
  function GetTiles(w: World, a: Area, x: int, y: int): (r: Result<seq<Pos>>)
    requires a.general.Some? ==> a.general.value in w.units
    ensures ReachRaises(w, a, Centre(w, a, x, y)) ==> r == Crash("IndexError")
    ensures !ReachRaises(w, a, Centre(w, a, x, y)) && Vetoed(w, a, Centre(w, a, x, y)) ==> r == Ok([])
    ensures !ReachRaises(w, a, Centre(w, a, x, y)) && !Vetoed(w, a, Centre(w, a, x, y)) ==>
              (r.Crash? <==> a.sieve.Some? &&
                             exists p :: p in ShapeCells(w, a.shape, Centre(w, a, x, y)) && SieveRaises(w, a.general, a.sieve.value, p))
    ensures r.Crash? ==> r.reason == "IndexError"
    ensures r.Ok? && !Vetoed(w, a, Centre(w, a, x, y)) ==>
              forall p :: p in r.value <==> (p in ShapeCells(w, a.shape, Centre(w, a, x, y))
                                            && (a.sieve.Some? ==> SieveHolds(w, a.general, a.sieve.value, p)))
    ensures r.Ok? ==> |r.value| <= |ShapeCells(w, a.shape, Centre(w, a, x, y))|
  {
    var c := Centre(w, a, x, y);
    if ReachRaises(w, a, c) then Crash("IndexError")
    else if Vetoed(w, a, c) then Ok([])
    else if a.sieve.None? then Ok(ShapeCells(w, a.shape, c))
    else Sift(w, a.general, a.sieve.value, ShapeCells(w, a.shape, c))
  }

  /**
   * The Emperor's curse area (every tile, filtered by is_enemy_general) once
   * the opponent's entry is gone from the generals list, as after
   * Fortress.host: on a board with any occupied tile, gathering it raises.
   */
  lemma EnemyGeneralGone(w: World, g: Id, x: int, y: int, p: Pos)
    requires g in w.units && Opponent(w.units[g].side) >= |w.generals|
    requires p in w.board.order && Occupant(w, p).Some?
    ensures GetTiles(w, Area(AllBattleground, Some(IsEnemyGeneral), Some(g), None, false), x, y) == Crash("IndexError")
  {
    var a := Area(AllBattleground, Some(IsEnemyGeneral), Some(g), None, false);
    assert p in ShapeCells(w, a.shape, Centre(w, a, x, y)) && SieveRaises(w, a.general, a.sieve.value, p);
  }

  /** The shape a clone starts from: the constructor defaults for radius and origin. */
  function ClonedShape(s: Shape): Shape
  {
    match s
    case Circle(_) => Circle(5)
    case Line(_) => Line((0, 0))
    case _ => s
  }

  /**
   * Area.clone rebuilds the area through its class constructor, so shape
   * parameters fall back to their defaults; a custom area's constructor does
   * not take the arguments clone passes and raises.
   */
  function CloneArea(a: Area, g: Id): (r: Result<Area>)
    ensures r.Ok? <==> !a.shape.Custom?
    ensures r.Ok? ==> r.value.general == Some(g) && r.value.sieve == a.sieve && r.value.reach == a.reach
                      && r.value.selfCentered == a.selfCentered
    ensures r.Ok? && a.shape.Circle? ==> r.value.shape == Circle(5)
    ensures r.Ok? && a.shape.Line? ==> r.value.shape == Line((0, 0))
    ensures r.Ok? && (a.shape.SingleTarget? || a.shape.AllBattleground?) ==> r.value.shape == a.shape
  {
    if a.shape.Custom? then Crash("TypeError") else Ok(Area(ClonedShape(a.shape), a.sieve, Some(g), a.reach, a.selfCentered))
  }
}
