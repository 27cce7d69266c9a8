/**
 * The tactic step rules of tactic.py.  A tactic decides an order for its
 * minion (one step, a new action counter, or nothing); `Follow` carries the
 * order out with the minion's move.
 */
module Tactics {
  import opened Wrappers
  import opened Grid
  import opened State
  import opened Seqs
  import opened Movement

  /** int(copysign(1, v)) on an integer: zero counts as positive. */
  function Sign(v: int): (s: int)
    ensures s == 1 || s == -1
    ensures s == 1 <==> v >= 0
  {
    if v >= 0 then 1 else -1
  }

  /** What a tactic asks of its minion. */
  datatype Order = Step(d: Pos) | Wait(nextAction: int) | Idle

  /** `bg.generals[i]` with Python's indexing; an entry without a unit reads as missing too. */
  function GeneralAt(w: World, i: int): (r: Result<Pos>)
    ensures r.Crash? <==> PyIndex(|w.generals|, i).None? || w.generals[PyIndex(|w.generals|, i).value] !in w.units
    ensures r.Ok? ==> r.value == PosOf(w.units[w.generals[PyIndex(|w.generals|, i).value]])
  {
    match PyIndex(|w.generals|, i)
    case None => Crash("IndexError")
    case Some(k) => if w.generals[k] in w.units then Ok(PosOf(w.units[w.generals[k]])) else Crash("IndexError")
  }

  /** The diagonal step of attack_general and defend_general towards g. */
  function Chase(u: Unit, g: Pos): Pos
  {
    (Sign(g.0 - u.x), Sign(g.1 - u.y))
  }

  // ---------------------------------------------------------------- disperse

  /** The radius of the square disperse inspects. */
  const Reach: int := 5

  /** The sign quadrants in the order the original's dictionary lists them. */
  const Quadrants: seq<Pos> := [(1, 1), (-1, 1), (-1, -1), (1, -1)]

  /** The side of the square disperse inspects. */
  const Side: int := 2 * Reach + 1

  /** The cells of the square around c, x offset outer and y offset inner as the original loops. */
  function Square(c: Pos): (s: seq<Pos>)
    ensures |s| == Side * Side
    ensures forall p :: p in s <==> -Reach <= p.0 - c.0 <= Reach && -Reach <= p.1 - c.1 <= Reach
  {
    var s := seq(Side * Side, k requires 0 <= k < Side * Side => (c.0 + k / Side - Reach, c.1 + k % Side - Reach));
    forall p: Pos | -Reach <= p.0 - c.0 <= Reach && -Reach <= p.1 - c.1 <= Reach
      ensures p in s
    {
      var k := (p.0 - c.0 + Reach) * Side + (p.1 - c.1 + Reach);
      assert s[k] == p;
    }
    s
  }

  /** The quadrant of p seen from c; a zero offset counts as positive. */
  function QuadrantOf(c: Pos, p: Pos): Pos
  {
    (Sign(p.0 - c.0), Sign(p.1 - c.1))
  }

  /** Cell p lies inside the grid and holds some entity other than id. */
  predicate Crowded(w: World, id: Id, p: Pos)
  {
    Inside(w.board, p) && Occupant(w, p).Some? && Occupant(w, p) != Some(id)
  }

  /** The crowded cells of the minion's square that fall in quadrant q. */
  function CrowdIn(w: World, id: Id, q: Pos): (s: seq<Pos>)
    requires id in w.units
    ensures forall p :: p in s <==> p in Square(PosOf(w.units[id])) && Crowded(w, id, p) && QuadrantOf(PosOf(w.units[id]), p) == q
  {
    var c := PosOf(w.units[id]);
    Filter(Square(c), p => Crowded(w, id, p) && QuadrantOf(c, p) == q)
  }

  /** How many other entities disperse counts in quadrant q. */
  function Crowd(w: World, id: Id, q: Pos): nat
    requires id in w.units
  {
    |CrowdIn(w, id, q)|
  }

  function Crowds(w: World, id: Id): (cs: seq<nat>)
    requires id in w.units
    ensures |cs| == |Quadrants|
    ensures forall k :: 0 <= k < |Quadrants| ==> cs[k] == Crowd(w, id, Quadrants[k])
  {
    seq(|Quadrants|, k requires 0 <= k < |Quadrants| => Crowd(w, id, Quadrants[k]))
  }

  /** Python's `min` over keys: the first index holding the least value. */
  function FirstMin(cs: seq<nat>): (k: nat)
    requires |cs| >= 1
    ensures k < |cs|
    ensures forall j :: 0 <= j < |cs| ==> cs[k] <= cs[j]
    ensures forall j :: 0 <= j < k ==> cs[j] > cs[k]
  {
    if |cs| == 1 then 0
    else
      var k := FirstMin(cs[..|cs| - 1]);
      assert forall j :: 0 <= j < |cs| - 1 ==> cs[..|cs| - 1][j] == cs[j];
      if cs[|cs| - 1] < cs[k] then |cs| - 1 else k
  }

  /**
   * disperse: a diagonal step into the quadrant holding the fewest other
   * entities, the first in dictionary order on a tie.
   */
  function Scatter(w: World, id: Id): (k: nat)
    requires id in w.units
    ensures k < |Quadrants|
    ensures forall j :: 0 <= j < |Quadrants| ==> Crowd(w, id, Quadrants[k]) <= Crowd(w, id, Quadrants[j])
    ensures forall j :: 0 <= j < k ==> Crowd(w, id, Quadrants[j]) > Crowd(w, id, Quadrants[k])
  {
    FirstMin(Crowds(w, id))
  }

  // ---------------------------------------------------------------- orders

  /** The order tactic t gives the minion id. */
  function Plan(w: World, id: Id, t: Tactic): (r: Result<Order>)
    requires id in w.units
    ensures r.Crash? ==> t == AttackGeneral || t == DefendGeneral
    ensures r.Ok? && r.value.Step? ==>
              && -1 <= r.value.d.0 <= 1 && -1 <= r.value.d.1 <= 1 && r.value.d != (0, 0)
    ensures r == Ok(Idle) <==> t == Null
    ensures r.Ok? && r.value.Wait? <==> t == Stop
  {
    var u := w.units[id];
    match t
    case Stop => Ok(Wait(1))
    case Null => Ok(Idle)
    case Forward => Ok(Step((Heading(u.side), 0)))
    case Backward => Ok(Step((-Heading(u.side), 0)))
    case GoCenter => Ok(Step((0, if 2 * u.y >= w.board.height then -1 else 1)))
    case GoSides => Ok(Step((0, if 2 * u.y >= w.board.height then 1 else -1)))
    case GoTop => Ok(Step((0, -1)))
    case GoBottom => Ok(Step((0, 1)))
    case AttackGeneral =>
      var g :- GeneralAt(w, Opponent(u.side));
      Ok(Step(Chase(u, g)))
    case DefendGeneral =>
      var g :- GeneralAt(w, u.side);
      Ok(Step(Chase(u, g)))
    case Disperse => Ok(Step(Quadrants[Scatter(w, id)]))
  }

  /** Minion.follow_tactic: carry out the order of the minion's own tactic. */
  function Follow(w: World, id: Id): (r: Result<World>)
    requires id in w.units
    ensures r.Ok? ==> r.value.units.Keys == w.units.Keys
    ensures r.Ok? ==> -1 <= r.value.units[id].x - w.units[id].x <= 1 && -1 <= r.value.units[id].y - w.units[id].y <= 1
  {
    var o :- Plan(w, id, w.units[id].tactic);
    match o
    case Step(d) =>
      var m :- Move(w, id, d);
      Ok(m.0)
    case Wait(n) => Ok(SetUnit(w, id, w.units[id].(nextAction := n)))
    case Idle => Ok(w)
  }

  // ---------------------------------------------------------------- properties

  /** forward heads towards the enemy half (+x for side 0) and backward is its exact opposite. */
  lemma ForwardBackwardOpposite(w: World, id: Id)
    requires id in w.units
    ensures Plan(w, id, Forward).Ok? && Plan(w, id, Backward).Ok?
    ensures Plan(w, id, Forward).value.d.1 == 0 && Plan(w, id, Backward).value.d.1 == 0
    ensures Plan(w, id, Forward).value.d.0 == -Plan(w, id, Backward).value.d.0
    ensures Plan(w, id, Forward).value.d.0 == 1 <==> w.units[id].side == 0
  {
  }

  /** go_center steps up exactly in the lower half (y at least height/2), and go_sides does the reverse. */
  lemma CenterSidesOpposite(w: World, id: Id)
    requires id in w.units
    ensures Plan(w, id, GoCenter).Ok? && Plan(w, id, GoSides).Ok?
    ensures Plan(w, id, GoCenter).value.d == (0, -Plan(w, id, GoSides).value.d.1)
    ensures Plan(w, id, GoCenter).value.d.1 == -1 <==> 2 * w.units[id].y >= w.board.height
  {
  }

  /** The chasing tactics never leave an axis still: an aligned axis steps +1. */
  lemma ChaseNeverStill(w: World, id: Id, t: Tactic)
    requires id in w.units && (t == AttackGeneral || t == DefendGeneral)
    requires Plan(w, id, t).Ok?
    ensures var d := Plan(w, id, t).value.d;
            && (d.0 == 1 || d.0 == -1) && (d.1 == 1 || d.1 == -1)
    ensures var g := GeneralAt(w, if t == AttackGeneral then Opponent(w.units[id].side) else w.units[id].side);
            && g.Ok?
            && (Plan(w, id, t).value.d.0 == 1 <==> g.value.0 >= w.units[id].x)
            && (Plan(w, id, t).value.d.1 == 1 <==> g.value.1 >= w.units[id].y)
  {
  }

  /** The chasing tactics crash exactly when the generals list has no entry for the side they look up. */
  lemma ChaseNeedsGeneral(w: World, id: Id)
    requires id in w.units && |w.generals| == 0
    ensures Plan(w, id, AttackGeneral).Crash? && Plan(w, id, DefendGeneral).Crash?
  {
  }

  /** stop leaves the minion where it is with its action counter at 1; null changes nothing. */
  lemma StopAndNull(w: World, id: Id)
    requires id in w.units
    ensures w.units[id].tactic == Stop ==>
              Follow(w, id) == Ok(SetUnit(w, id, w.units[id].(nextAction := 1)))
    ensures w.units[id].tactic == Null ==> Follow(w, id) == Ok(w)
  {
  }
}
