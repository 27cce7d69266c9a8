/**
 * The battlefield grid: a dictionary from cell coordinates to tiles, built
 * either as a walled rectangle or from the lines of a map file, plus the
 * off-board scratch cell (-1, -1) every arena carries.
 */
module Grid {
  import opened Wrappers

  /** Identity of an entity or effect (the original compares objects by identity). */
  type Id = nat
  type Pos = (int, int)

  datatype Tile = Tile(ch: char, passable: bool, occupant: Option<Id>, effects: seq<Id>)

  /**
   * `tiles` is the coordinate dictionary; `order` lists its keys in insertion
   * order, which is the order in which the original iterates `tiles.values()`.
   */
  datatype Board = Board(width: int, height: int, tiles: map<Pos, Tile>, order: seq<Pos>)

  /** The off-board scratch cell where templates and vanished units are parked. */
  const Sentinel: Pos := (-1, -1)

  /** What a lookup of a cell missing from the dictionary reads as. */
  const Void: Tile := Tile(' ', false, None, [])

  predicate NoDup<T(==)>(s: seq<T>)
  {
    forall i, j :: 0 <= i < j < |s| ==> s[i] != s[j]
  }

  /** The dictionary's keys, listed once each in insertion order. */
  ghost predicate Ordered(b: Board)
  {
    NoDup(b.order) && (forall p :: p in b.order <==> p in b.tiles)
  }

  predicate Inside(b: Board, p: Pos)
  {
    0 <= p.0 < b.width && 0 <= p.1 < b.height
  }

  function At(b: Board, p: Pos): (t: Tile)
    ensures p in b.tiles ==> t == b.tiles[p]
    ensures p !in b.tiles ==> !t.passable && t.occupant.None?
  {
    if p in b.tiles then b.tiles[p] else Void
  }

  /** Replace the occupant of an existing cell; a missing cell is left alone. */
  function SetOccupant(b: Board, p: Pos, o: Option<Id>): (b': Board)
    ensures b'.width == b.width && b'.height == b.height && b'.order == b.order
    ensures b'.tiles.Keys == b.tiles.Keys
    ensures p in b.tiles ==> b'.tiles[p] == b.tiles[p].(occupant := o)
    ensures forall q :: q in b.tiles && q != p ==> b'.tiles[q] == b.tiles[q]
  {
    if p in b.tiles then b.(tiles := b.tiles[p := b.tiles[p].(occupant := o)]) else b
  }

  /** Replace the effect list of an existing cell; a missing cell is left alone. */
  function SetEffects(b: Board, p: Pos, e: seq<Id>): (b': Board)
    ensures b'.width == b.width && b'.height == b.height && b'.order == b.order
    ensures b'.tiles.Keys == b.tiles.Keys
    ensures p in b.tiles ==> b'.tiles[p] == b.tiles[p].(effects := e)
    ensures forall q :: q in b.tiles && q != p ==> b'.tiles[q] == b.tiles[q]
  {
    if p in b.tiles then b.(tiles := b.tiles[p := b.tiles[p].(effects := e)]) else b
  }

  // ---------------------------------------------------------------- default arena

  predicate OnBorder(w: int, h: int, p: Pos)
  {
    p.0 == 0 || p.0 == w - 1 || p.1 == 0 || p.1 == h - 1
  }

  function DefaultTile(w: int, h: int, p: Pos): Tile
  {
    if OnBorder(w, h, p) then Tile('#', false, None, []) else Tile('.', true, None, [])
  }

  /** Column-major cell listing: x outer, y inner. */
  function DefaultOrder(w: nat, h: nat): (s: seq<Pos>)
    ensures |s| == w * h
  {
    if w == 0 then [] else DefaultOrder(w - 1, h) + seq(h, i => (w - 1, i))
  }

  lemma {:induction false} DefaultOrderCells(w: nat, h: nat)
    ensures NoDup(DefaultOrder(w, h))
    ensures forall p :: p in DefaultOrder(w, h) <==> 0 <= p.0 < w && 0 <= p.1 < h
  {
    if w > 0 {
      DefaultOrderCells(w - 1, h);
      var a := DefaultOrder(w - 1, h);
      var c := seq(h, i => (w - 1, i));
      forall p: Pos | 0 <= p.0 < w && 0 <= p.1 < h
        ensures p in a + c
      {
        if p.0 == w - 1 {
          assert c[p.1] == p;
        }
      }
      forall i, j | 0 <= i < j < |a + c|
        ensures (a + c)[i] != (a + c)[j]
      {
        if j >= |a| && i < |a| {
          assert (a + c)[i] in a;
        }
      }
    }
  }

  function DefaultTiles(w: nat, h: nat): (b: Board)
    ensures b.width == w && b.height == h
    ensures forall p :: p in b.tiles <==> Inside(b, p)
    ensures forall p :: p in b.tiles ==> b.tiles[p].occupant.None? && b.tiles[p].effects == []
    ensures forall p :: p in b.tiles ==> (b.tiles[p].passable <==> !OnBorder(w, h, p))
    ensures forall p :: p in b.tiles ==> b.tiles[p].ch == (if OnBorder(w, h, p) then '#' else '.')
    ensures Ordered(b)
  {
    DefaultOrderCells(w, h);
    var cells := set x, y | 0 <= x < w && 0 <= y < h :: (x, y);
    Board(w, h, map p | p in cells :: DefaultTile(w, h, p), DefaultOrder(w, h))
  }

  /** Every passable cell of a default arena has all eight neighbours in the dictionary. */
  lemma DefaultArenaClosed(w: nat, h: nat, p: Pos, d: Pos)
    requires p in DefaultTiles(w, h).tiles && DefaultTiles(w, h).tiles[p].passable
    requires -1 <= d.0 <= 1 && -1 <= d.1 <= 1
    ensures (p.0 + d.0, p.1 + d.1) in DefaultTiles(w, h).tiles
  {
  }

  // ---------------------------------------------------------------- loaded arena

  /** The cells of one map line read at row y, in reading order. */
  function RowCells(line: string, y: int): seq<Pos>
  {
    seq(|line|, i => (i, y))
  }

  /** The cells read from rows y0 .. min(h, |lines|) - 1, row after row. */
  function LoadOrder(lines: seq<string>, h: int, y0: nat): (s: seq<Pos>)
    decreases |lines| - y0
  {
    if y0 >= |lines| || y0 >= h then [] else RowCells(lines[y0], y0) + LoadOrder(lines, h, y0 + 1)
  }

  /** A cell read from the map file: row y of the first h lines, column x of that line. */
  predicate Loaded(lines: seq<string>, h: int, p: Pos)
  {
    0 <= p.1 < h && p.1 < |lines| && 0 <= p.0 < |lines[p.1]|
  }

  lemma {:induction false} LoadOrderCells(lines: seq<string>, h: int, y0: nat)
    ensures NoDup(LoadOrder(lines, h, y0))
    ensures forall p :: p in LoadOrder(lines, h, y0) <==> Loaded(lines, h, p) && p.1 >= y0
    decreases |lines| - y0
  {
    if y0 < |lines| && y0 < h {
      LoadOrderCells(lines, h, y0 + 1);
      var r := RowCells(lines[y0], y0);
      var rest := LoadOrder(lines, h, y0 + 1);
      forall p: Pos | Loaded(lines, h, p) && p.1 >= y0
        ensures p in r + rest
      {
        if p.1 == y0 {
          assert r[p.0] == p;
        }
      }
      forall i, j | 0 <= i < j < |r + rest|
        ensures (r + rest)[i] != (r + rest)[j]
      {
        if i < |r| && j >= |r| {
          assert (r + rest)[j] in rest;
        }
      }
    }
  }

  /** The fortress anchors of the map: every ':' cell, in reading order. */
  function Anchors(lines: seq<string>, cells: seq<Pos>): (a: seq<Pos>)
    requires forall p :: p in cells ==> 0 <= p.1 < |lines| && 0 <= p.0 < |lines[p.1]|
    ensures forall p :: p in a <==> p in cells && lines[p.1][p.0] == ':'
  {
    if cells == [] then []
    else
      var p := cells[0];
      (if lines[p.1][p.0] == ':' then [p] else []) + Anchors(lines, cells[1..])
  }

  /**
   * The tiles read from a map file (each line as returned by `readline`,
   * including its line break) and the fortress anchors to build on them.
   */
  function LoadTiles(lines: seq<string>, w: int, h: int): (r: (Board, seq<Pos>))
    ensures r.0.width == w && r.0.height == h && Ordered(r.0)
    ensures forall p :: p in r.0.tiles <==> Loaded(lines, h, p)
    ensures forall p :: p in r.0.tiles ==>
              && Loaded(lines, h, p)
              && r.0.tiles[p].ch == lines[p.1][p.0]
              && (r.0.tiles[p].passable <==> lines[p.1][p.0] == '.')
              && r.0.tiles[p].occupant.None? && r.0.tiles[p].effects == []
    ensures forall p :: p in r.1 <==> Loaded(lines, h, p) && lines[p.1][p.0] == ':'
    ensures NoDup(r.1)
  {
    LoadOrderCells(lines, h, 0);
    var order := LoadOrder(lines, h, 0);
    var cells := set p | p in order;
    var tiles := map p | p in cells :: Tile(lines[p.1][p.0], lines[p.1][p.0] == '.', None, []);
    var anchors := Anchors(lines, order);
    AnchorsNoDup(lines, order);
    (Board(w, h, tiles, order), anchors)
  }

  lemma {:induction false} AnchorsNoDup(lines: seq<string>, cells: seq<Pos>)
    requires forall p :: p in cells ==> 0 <= p.1 < |lines| && 0 <= p.0 < |lines[p.1]|
    requires NoDup(cells)
    ensures NoDup(Anchors(lines, cells))
  {
    if cells != [] {
      AnchorsNoDup(lines, cells[1..]);
      var head := if lines[cells[0].1][cells[0].0] == ':' then [cells[0]] else [];
      var rest := Anchors(lines, cells[1..]);
      assert cells[0] !in cells[1..];
      forall i, j | 0 <= i < j < |head + rest|
        ensures (head + rest)[i] != (head + rest)[j]
      {
        if i < |head| {
          assert (head + rest)[j] in rest;
        }
      }
    }
  }

  /** Add the scratch cell after the arena's own tiles, as the constructor does. */
  function WithSentinel(b: Board): (b': Board)
    requires Ordered(b)
    requires Sentinel !in b.tiles
    ensures Ordered(b') && Sentinel in b'.tiles && !Inside(b', Sentinel)
    ensures b'.tiles[Sentinel] == Tile('.', true, None, [])
    ensures forall p :: p != Sentinel ==> (p in b'.tiles <==> p in b.tiles)
    ensures forall p :: p in b.tiles ==> b'.tiles[p] == b.tiles[p]
    ensures b'.order == b.order + [Sentinel]
  {
    b.(tiles := b.tiles[Sentinel := Tile('.', true, None, [])], order := b.order + [Sentinel])
  }
}
