/**
 * Deployment formations (formation.py): each formation lists, in the order
 * the original's nested loops visit them, the cells where the general's
 * minion template is cloned, and placement walks that list until the
 * general's minion count is used up.  Cells are chosen for side 0 and
 * mirrored through the grid's centre for every other side.
 */
module Formation {
  import opened Wrappers
  import opened Grid
  import opened State
  import opened Seqs
  import opened Movement
  import opened Combat

  /** Formation.mirror: side 0 keeps the cell; any other side reflects it through the grid's centre. */
  function Mirror(b: Board, side: int, p: Pos): (q: Pos)
    ensures side == 0 ==> q == p
    ensures side != 0 ==> q.0 + p.0 == b.width - 1 && q.1 + p.1 == b.height - 1
  {
    if side != 0 then (b.width - p.0 - 1, b.height - p.1 - 1) else p
  }

  /** Mirroring twice gives the cell back, and a cell is inside the grid exactly when its mirror image is. */
  lemma MirrorInvolution(b: Board, side: int, p: Pos)
    ensures Mirror(b, side, Mirror(b, side, p)) == p
    ensures Inside(b, Mirror(b, side, p)) <==> Inside(b, p)
  {
  }

  function Abs(v: int): (a: nat)
    ensures a == v || a == -v
  {
    if v < 0 then -v else v
  }

  // ---------------------------------------------------------------- Rows

  /**
   * The y offsets one column of Rows visits: `r` counts down from `rows`,
   * and after each cell the offset moves away from the general's row, to
   * the other side of it only when `r` is even and `rows` is odd.
   */
  function RowRun(rows: int, r: int, off: int): (s: seq<int>)
    ensures |s| == if r > 0 then r else 0
    decreases r
  {
    if r <= 0 then []
    else [off] + RowRun(rows, r - 1, if r % 2 == 1 || rows % 2 == 0 then Abs(off) + 1 else -off)
  }

  function ColumnOffsets(rows: int): (s: seq<int>)
    ensures |s| == if rows > 0 then rows else 0
  {
    RowRun(rows, rows, 0)
  }

  /**
   * The k-th offset of a column, in closed form: 0, 1, 2, ... for an even
   * number of rows and 0, 1, -1, 2, -2, ... for an odd one.
   */
  function Zigzag(rows: int, k: nat): int
  {
    if rows % 2 == 0 then k else if k % 2 == 1 then (k + 1) / 2 else -(k / 2)
  }

  lemma {:induction false} RowRunZigzag(rows: int, m: nat, k: nat)
    requires m + k < rows
    ensures RowRun(rows, rows - m, Zigzag(rows, m))[k] == Zigzag(rows, m + k)
    decreases k
  {
    RowRunHead(rows, m);
    if k > 0 {
      RowRunZigzag(rows, m + 1, k - 1);
    }
  }

  /** One step of RowRun moves the zigzag on by one. */
  lemma RowRunHead(rows: int, m: nat)
    requires m < rows
    ensures RowRun(rows, rows - m, Zigzag(rows, m)) == [Zigzag(rows, m)] + RowRun(rows, rows - (m + 1), Zigzag(rows, m + 1))
  {
    ZigzagStep(rows, m);
  }

  lemma ZigzagStep(rows: int, m: nat)
    ensures (if (rows - m) % 2 == 1 || rows % 2 == 0 then Abs(Zigzag(rows, m)) + 1 else -Zigzag(rows, m))
            == Zigzag(rows, m + 1)
  {
    if rows % 2 != 0 {
      var q := m / 2;
      if m % 2 == 0 {
        assert m == 2 * q && m + 1 == 2 * q + 1;
        assert (rows - m) % 2 == 1;
        assert Zigzag(rows, m) == -q;
        assert Zigzag(rows, m + 1) == q + 1;
      } else {
        assert m == 2 * q + 1 && m + 1 == 2 * (q + 1);
        assert (rows - m) % 2 == 0;
        assert Zigzag(rows, m) == q + 1;
        assert Zigzag(rows, m + 1) == -(q + 1);
      }
    }
  }

  /** The offsets of a Rows column follow the zigzag, so no cell of a column is visited twice. */
  lemma ColumnOffsetsDistinct(rows: int)
    ensures forall k :: 0 <= k < |ColumnOffsets(rows)| ==> ColumnOffsets(rows)[k] == Zigzag(rows, k)
    ensures NoDup(ColumnOffsets(rows))
  {
    forall k | 0 <= k < |ColumnOffsets(rows)|
      ensures ColumnOffsets(rows)[k] == Zigzag(rows, k)
    {
      RowRunZigzag(rows, 0, k);
    }
  }

  /** The columns a side-0 Rows army stands in. */
  const FirstColumn: int := 5
  const LastColumn: int := 14

  /** range(lo, hi + 1): lo up to hi. */
  function Up(lo: int, hi: int): (xs: seq<int>)
    ensures forall x :: x in xs <==> lo <= x <= hi
    decreases hi - lo
  {
    if hi < lo then [] else [lo] + Up(lo + 1, hi)
  }

  /** range(hi, lo - 1, -1): hi down to lo. */
  function Down(hi: int, lo: int): (xs: seq<int>)
    ensures forall x :: x in xs <==> lo <= x <= hi
    decreases hi - lo
  {
    if hi < lo then [] else [hi] + Down(hi - 1, lo)
  }

  /** Every cell of cs, mirrored back to side 0's view, lies between columns lo and hi. */
  ghost predicate InColumns(b: Board, side: int, cs: seq<Pos>, lo: int, hi: int)
  {
    forall p :: p in cs ==> lo <= Mirror(b, side, p).0 <= hi
  }

  /** One Rows column: the cell at each of the column's offsets from the general's row. */
  function Column(b: Board, side: int, gy: int, x: int, offs: seq<int>): (cs: seq<Pos>)
    ensures |cs| == |offs|
    ensures forall k :: 0 <= k < |offs| ==> Mirror(b, side, cs[k]) == (x, gy + offs[k])
  {
    var cs := seq(|offs|, k requires 0 <= k < |offs| => Mirror(b, side, (x, gy + offs[k])));
    forall k | 0 <= k < |offs|
      ensures Mirror(b, side, cs[k]) == (x, gy + offs[k])
    {
      MirrorInvolution(b, side, (x, gy + offs[k]));
    }
    cs
  }

  /** The columns xs in turn, each visiting the same offsets. */
  function ColumnsOf(b: Board, side: int, gy: int, xs: seq<int>, offs: seq<int>): (cs: seq<Pos>)
    ensures forall p :: p in cs ==> Mirror(b, side, p).0 in xs
  {
    if xs == [] then []
    else
      var c := Column(b, side, gy, xs[0], offs);
      var rest := ColumnsOf(b, side, gy, xs[1..], offs);
      assert forall p :: p in rest ==> Mirror(b, side, p).0 in xs;
      c + rest
  }

  /** Rows.place_minions visits columns 5 to 14, each from the general's row outwards. */
  function RowsCells(b: Board, side: int, gy: int, rows: int): (cs: seq<Pos>)
    ensures InColumns(b, side, cs, FirstColumn, LastColumn)
  {
    ColumnsOf(b, side, gy, Up(FirstColumn, LastColumn), ColumnOffsets(rows))
  }

  // ---------------------------------------------------------------- wedges

  /** The columns a wedge army stands in. */
  const WedgeNear: int := 4
  const WedgeFar: int := 14

  /**
   * One wedge line over the columns xs: every column visits period =
   * increment + 1 cells, and the offset is not reset between the columns
   * of a line.  After the j-th cell of a column the offset moves away from
   * the general's row for odd j and flips sides for even j.
   */
  function WedgeWalk(b: Board, side: int, gy: int, xs: seq<int>, period: nat, j: nat, off: int): (cs: seq<Pos>)
    requires j < period
    ensures forall p :: p in cs ==> Mirror(b, side, p).0 in xs
    decreases |xs|, period - j
  {
    if xs == [] then []
    else
      var next := if j % 2 == 1 then Abs(off) + 1 else -off;
      var here := Mirror(b, side, (xs[0], gy + off));
      MirrorInvolution(b, side, (xs[0], gy + off));
      var rest := if j + 1 < period then WedgeWalk(b, side, gy, xs, period, j + 1, next)
                  else WedgeWalk(b, side, gy, xs[1..], period, 0, next);
      assert forall p :: p in rest ==> Mirror(b, side, p).0 in xs;
      [here] + rest
  }

  function WedgeLine(b: Board, side: int, gy: int, increment: int, xs: seq<int>): (cs: seq<Pos>)
    ensures increment < 0 ==> cs == []
    ensures forall p :: p in cs ==> Mirror(b, side, p).0 in xs
  {
    if increment < 0 then [] else WedgeWalk(b, side, gy, xs, increment + 1, 0, 0)
  }

  /** FlyingWedge: lines starting at columns 14 down to 4, each running back to column 4. */
  function FlyingCells(b: Board, side: int, gy: int, increment: int, i: int): (cs: seq<Pos>)
    requires i <= WedgeFar
    ensures InColumns(b, side, cs, WedgeNear, WedgeFar)
    decreases i
  {
    if i < WedgeNear then []
    else WedgeLine(b, side, gy, increment, Down(i, WedgeNear)) + FlyingCells(b, side, gy, increment, i - 1)
  }

  /** InvertedWedge: lines starting at columns 4 up to 14, each running on to column 14. */
  function InvertedCells(b: Board, side: int, gy: int, increment: int, i: int): (cs: seq<Pos>)
    requires i >= WedgeNear
    ensures InColumns(b, side, cs, WedgeNear, WedgeFar)
    decreases WedgeFar - i
  {
    if i > WedgeFar then []
    else WedgeLine(b, side, gy, increment, Up(i, WedgeFar)) + InvertedCells(b, side, gy, increment, i + 1)
  }

  /** The cells a formation tries, in the order its place_minions visits them. */
  function Slots(b: Board, side: int, gy: int, f: FormationKind): (cs: seq<Pos>)
    ensures InColumns(b, side, cs, if f.Rows? then FirstColumn else WedgeNear, LastColumn)
  {
    match f
    case Rows(rows) => RowsCells(b, side, gy, rows)
    case FlyingWedge(inc) => FlyingCells(b, side, gy, inc, WedgeFar)
    case InvertedWedge(inc) => InvertedCells(b, side, gy, inc, WedgeNear)
  }

  // ---------------------------------------------------------------- placing

  /** The units that one placement run leaves in place: clones of tmpl standing on cells it tried. */
  ghost predicate ClonedAlong(w: World, tmpl: Unit, cells: seq<Pos>, ids: seq<Id>)
    requires Clonable(tmpl)
  {
    forall i :: 0 <= i < |ids| ==>
      && ids[i] in w.units
      && PosOf(w.units[ids[i]]) in cells
      && w.units[ids[i]] == Fresh(tmpl, PosOf(w.units[ids[i]]))
  }

  /** One step of the loop: clone the template at p and, when the clone stands, append it to the minions. */
  function PlaceOne(w: World, tmpl: Unit, p: Pos): (r: (World, Option<Id>))
    requires Clonable(tmpl)
    ensures r.1.None? <==> !CanPlace(w, tmpl, p)
    ensures r.1.None? ==> r.0 == w
    ensures r.1.Some? ==>
              && r.1.value == w.nextId && r.0.nextId == w.nextId + 1
              && r.0.minions == w.minions + [r.1.value]
              && r.0.units.Keys == w.units.Keys + {w.nextId}
              && r.0.units[w.nextId] == Fresh(tmpl, p)
    ensures forall k :: k in w.units && k < w.nextId ==> r.0.units[k] == w.units[k]
    ensures r.0.effects == w.effects && r.0.generals == w.generals && r.0.fx == w.fx
    ensures r.0.board.tiles.Keys == w.board.tiles.Keys && r.0.board.order == w.board.order
  {
    var (w1, o) := CloneUnit(w, tmpl, p);
    if o.Some? then (w1.(minions := w1.minions + [o.value]), o) else (w1, o)
  }

  /**
   * The loop every place_minions shares: while the count n is positive,
   * try the next cell, and count a clone only when it stands.  Returns the
   * world and the placed minions in order.
   */
  function PlaceAlong(w: World, tmpl: Unit, cells: seq<Pos>, n: int): (r: (World, seq<Id>))
    requires Clonable(tmpl)
    ensures n <= 0 || cells == [] ==> r == (w, [])
    ensures |r.1| <= |cells| && (n >= 0 ==> |r.1| <= n)
    ensures r.0.minions == w.minions + r.1
    ensures r.0.nextId == w.nextId + |r.1|
    ensures forall i :: 0 <= i < |r.1| ==> r.1[i] == w.nextId + i
    ensures r.0.units.Keys >= w.units.Keys
    ensures forall k :: k in w.units && k < w.nextId ==> r.0.units[k] == w.units[k]
    ensures ClonedAlong(r.0, tmpl, cells, r.1)
    ensures r.0.effects == w.effects && r.0.generals == w.generals && r.0.fx == w.fx
    ensures r.0.board.tiles.Keys == w.board.tiles.Keys && r.0.board.order == w.board.order
    decreases |cells|
  {
    if n <= 0 || cells == [] then (w, [])
    else
      var (w1, o) := PlaceOne(w, tmpl, cells[0]);
      var r1 := PlaceAlong(w1, tmpl, cells[1..], if o.Some? then n - 1 else n);
      if o.Some? then Prepend(w, w1, r1, tmpl, cells, o.value) else r1
  }

  /** Placing at the head of the cells and then along the rest adds up to a placement along all of them. */
  function Prepend(w: World, w1: World, r1: (World, seq<Id>), tmpl: Unit, cells: seq<Pos>, id: Id): (r: (World, seq<Id>))
    requires Clonable(tmpl) && cells != []
    requires id == w.nextId && w1.nextId == w.nextId + 1 && w1.units.Keys == w.units.Keys + {id}
    requires w1.units[id] == Fresh(tmpl, cells[0])
    requires forall k :: k in w.units && k < w.nextId ==> w1.units[k] == w.units[k]
    requires r1.0.units.Keys >= w1.units.Keys
    requires forall k :: k in w1.units && k < w1.nextId ==> r1.0.units[k] == w1.units[k]
    requires ClonedAlong(r1.0, tmpl, cells[1..], r1.1)
    requires w1.minions == w.minions + [id] && r1.0.minions == w1.minions + r1.1
    requires forall i :: 0 <= i < |r1.1| ==> r1.1[i] == w1.nextId + i
    ensures r == (r1.0, [id] + r1.1)
    ensures ClonedAlong(r.0, tmpl, cells, r.1)
    ensures forall k :: k in w.units && k < w.nextId ==> r.0.units[k] == w.units[k]
    ensures r.0.minions == w.minions + r.1
    ensures forall i :: 0 <= i < |r.1| ==> r.1[i] == w.nextId + i
  {
    assert r1.0.units[id] == Fresh(tmpl, cells[0]);
    assert forall p :: p in cells[1..] ==> p in cells;
    var ids := [id] + r1.1;
    assert forall i :: 1 <= i < |ids| ==> ids[i] == r1.1[i - 1];
    assert w.minions + [id] + r1.1 == w.minions + ids;
    (r1.0, ids)
  }

  /** A clone that fits uses up one unit of the count, so the first cell is filled whenever it can be. */
  lemma FirstCellFilled(w: World, tmpl: Unit, cells: seq<Pos>, n: int)
    requires Clonable(tmpl) && n >= 1 && cells != [] && CanPlace(w, tmpl, cells[0])
    ensures var r := PlaceAlong(w, tmpl, cells, n);
            && |r.1| >= 1 && r.1[0] == w.nextId
            && r.0.units[w.nextId] == Fresh(tmpl, cells[0])
  {
  }

  /** A cell where the clone does not fit costs nothing from the count. */
  lemma BlockedCellFree(w: World, tmpl: Unit, cells: seq<Pos>, n: int)
    requires Clonable(tmpl) && cells != [] && !CanPlace(w, tmpl, cells[0])
    ensures PlaceAlong(w, tmpl, cells, n) == PlaceAlong(w, tmpl, cells[1..], n)
  {
  }

  /**
   * place_minions for the general gid: its template, its formation, its
   * row and its minion count.  A general without a template places nothing.
   */
  function Place(w: World, gid: Id): (r: (World, seq<Id>))
    requires gid in w.units && w.units[gid].role.Commander?
    requires var t := w.units[gid].role.g.template; t.Some? ==> t.value in w.units && Clonable(w.units[t.value])
    ensures var g := w.units[gid].role.g;
            && r.0.minions == w.minions + r.1
            && (g.minionsAlive >= 0 ==> |r.1| <= g.minionsAlive)
            && (g.template.None? || g.minionsAlive <= 0 ==> r == (w, []))
    ensures r.0.units.Keys >= w.units.Keys && r.0.nextId == w.nextId + |r.1|
    ensures forall k :: k in w.units && k < w.nextId ==> r.0.units[k] == w.units[k]
    ensures w.units[gid].role.g.template.Some? ==>
              ClonedAlong(r.0, w.units[w.units[gid].role.g.template.value],
                          Slots(w.board, w.units[gid].side, w.units[gid].y, w.units[gid].role.g.formation), r.1)
    ensures r.0.effects == w.effects && r.0.generals == w.generals && r.0.fx == w.fx
    ensures r.0.board.tiles.Keys == w.board.tiles.Keys && r.0.board.order == w.board.order
  {
    var u := w.units[gid];
    var g := u.role.g;
    match g.template
    case None => (w, [])
    case Some(t) => PlaceAlong(w, w.units[t], Slots(w.board, u.side, u.y, g.formation), g.minionsAlive)
  }

  /**
   * A side-0 army stands in columns 5 to 14 in Rows and 4 to 14 in a
   * wedge; any other side's stands in the mirror image of those columns.
   */
  lemma PlacedInColumns(w: World, gid: Id)
    requires gid in w.units && w.units[gid].role.Commander?
    requires var t := w.units[gid].role.g.template; t.Some? && t.value in w.units && Clonable(w.units[t.value])
    ensures var u := w.units[gid];
            var r := Place(w, gid);
            forall i :: 0 <= i < |r.1| ==>
              var p := Mirror(w.board, u.side, PosOf(r.0.units[r.1[i]]));
              (if u.role.g.formation.Rows? then FirstColumn else WedgeNear) <= p.0 <= LastColumn
  {
    var u := w.units[gid];
    var cs := Slots(w.board, u.side, u.y, u.role.g.formation);
    var r := Place(w, gid);
    forall i | 0 <= i < |r.1|
      ensures (if u.role.g.formation.Rows? then FirstColumn else WedgeNear)
              <= Mirror(w.board, u.side, PosOf(r.0.units[r.1[i]])).0 <= LastColumn
    {
      assert PosOf(r.0.units[r.1[i]]) in cs;
    }
  }
}
