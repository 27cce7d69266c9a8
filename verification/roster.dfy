/**
 * The General methods that act on the general's own army and markers
 * (general.py): command_tactic, recount_minions_alive and place_flag.  They
 * come before the skills because restock_minions calls the first two.
 */
module Roster {
  import opened Wrappers
  import opened Grid
  import opened State
  import opened Seqs

  predicate IsGeneral(w: World, gid: Id)
  {
    gid in w.units && w.units[gid].role.Commander?
  }

  /** Replace the general data of gid, leaving every other field of every unit as it was. */
  function SetData(w: World, gid: Id, g: GeneralData): (w': World)
    requires IsGeneral(w, gid)
    ensures IsGeneral(w', gid) && w'.units[gid].role.g == g
    ensures w'.units[gid] == w.units[gid].(role := Commander(g))
    ensures w' == w.(units := w'.units) && w'.units.Keys == w.units.Keys
    ensures forall k :: k in w.units && k != gid ==> w'.units[k] == w.units[k]
  {
    SetUnit(w, gid, w.units[gid].(role := Commander(g)))
  }

  // ---------------------------------------------------------------- command_tactic

  /** The minions command_tactic reaches: listed in the battle's minions and on the general's side. */
  predicate Commanded(w: World, k: Id, side: int)
  {
    k in w.minions && k in w.units && w.units[k].side == side
  }

  /** Every listed minion of the side takes tactic t; nothing else changes. */
  function Enlist(w: World, side: int, t: Tactic): (w': World)
    ensures w' == w.(units := w'.units) && w'.units.Keys == w.units.Keys
    ensures forall k :: k in w.units ==>
              w'.units[k] == w.units[k].(tactic := if Commanded(w, k, side) then t else w.units[k].tactic)
  {
    w.(units := map m | m in w.units :: if Commanded(w, m, side) then w.units[m].(tactic := t) else w.units[m])
  }

  /**
   * command_tactic(i): the general selects `tactics[i]` (Python indexing,
   * so a negative i counts from the end and anything else out of range
   * raises) and every listed minion of its side takes that tactic.
   */
  function CommandTactic(w: World, gid: Id, i: int): (r: Result<World>)
    requires IsGeneral(w, gid)
    ensures var ts := w.units[gid].role.g.tactics;
            r.Crash? <==> PyIndex(|ts|, i).None?
    ensures r.Ok? ==>
              var g := w.units[gid].role.g;
              var t := g.tactics[PyIndex(|g.tactics|, i).value];
              && r.value == w.(units := r.value.units) && r.value.units.Keys == w.units.Keys
              && IsGeneral(r.value, gid) && r.value.units[gid].role.g == g.(selected := t)
              && (forall k :: k in w.units ==> r.value.units[k].tactic == if Commanded(w, k, w.units[gid].side) then t else w.units[k].tactic)
              && (forall k :: k in w.units && k != gid ==> r.value.units[k] == w.units[k].(tactic := r.value.units[k].tactic))
  {
    var u := w.units[gid];
    var g := u.role.g;
    match PyIndex(|g.tactics|, i)
    case None => Crash("IndexError")
    case Some(k) =>
      var t := g.tactics[k];
      var w1 := Enlist(w, u.side, t);
      Ok(SetData(w1, gid, g.(selected := t)))
  }

  /** Commanding the same tactic twice is the same as commanding it once. */
  lemma CommandIdempotent(w: World, gid: Id, i: int)
    requires IsGeneral(w, gid) && CommandTactic(w, gid, i).Ok?
    ensures CommandTactic(CommandTactic(w, gid, i).value, gid, i) == CommandTactic(w, gid, i)
  {
    LastCommandWins(w, gid, i, i);
  }

  /** A later command overrides an earlier one: only the last tactic chosen survives. */
  lemma LastCommandWins(w: World, gid: Id, i: int, j: int)
    requires IsGeneral(w, gid) && CommandTactic(w, gid, i).Ok?
    ensures CommandTactic(CommandTactic(w, gid, i).value, gid, j) == CommandTactic(w, gid, j)
  {
    var w1 := CommandTactic(w, gid, i).value;
    if CommandTactic(w, gid, j).Ok? {
      var a := CommandTactic(w1, gid, j).value;
      var b := CommandTactic(w, gid, j).value;
      assert a.units.Keys == b.units.Keys;
      forall k | k in a.units
        ensures a.units[k] == b.units[k]
      {
        CommandAgain(w, gid, i, j, k);
      }
      SameMaps(a.units, b.units);
    }
  }

  /** Two maps with the same keys and the same value at every key are equal. */
  lemma SameMaps<K, V>(m: map<K, V>, n: map<K, V>)
    requires m.Keys == n.Keys && forall k :: k in m ==> m[k] == n[k]
    ensures m == n
  {
  }

  /** One unit after two commands in a row is as after the second alone. */
  lemma CommandAgain(w: World, gid: Id, i: int, j: int, k: Id)
    requires IsGeneral(w, gid) && CommandTactic(w, gid, i).Ok? && CommandTactic(w, gid, j).Ok? && k in w.units
    ensures var w1 := CommandTactic(w, gid, i).value;
            CommandTactic(w1, gid, j).Ok? && CommandTactic(w1, gid, j).value.units[k] == CommandTactic(w, gid, j).value.units[k]
  {
    var w1 := CommandTactic(w, gid, i).value;
    var side := w.units[gid].side;
    assert w1.units[gid].role.g.tactics == w.units[gid].role.g.tactics && w1.units[gid].side == side;
    if Commanded(w, k, side) {
      assert Commanded(w1, k, side);
    } else {
      assert !Commanded(w1, k, side) && w1.units[k].tactic == w.units[k].tactic;
    }
    if k == gid {
      CommandedGeneral(w, gid, i);
      CommandedGeneral(w1, gid, j);
      CommandedGeneral(w, gid, j);
    } else {
      assert w1.units[k] == w.units[k].(tactic := w1.units[k].tactic);
    }
  }

  /** Of the general's own unit a command changes only the selected tactic and, when it is listed, its tactic. */
  lemma CommandedGeneral(w: World, gid: Id, i: int)
    requires IsGeneral(w, gid) && CommandTactic(w, gid, i).Ok?
    ensures var u := w.units[gid];
            var u' := CommandTactic(w, gid, i).value.units[gid];
            u' == u.(tactic := u'.tactic, role := Commander(u.role.g.(selected := u'.role.g.selected)))
  {
  }

  // ---------------------------------------------------------------- recount_minions_alive

  /** A listed minion that is alive and on the given side. */
  predicate LiveAlly(w: World, m: Id, side: int)
  {
    m in w.units && w.units[m].alive && w.units[m].side == side
  }

  /** How many entries of ms are live allies of the side; a minion listed twice counts twice. */
  function LiveCount(w: World, ms: seq<Id>, side: int): (n: nat)
    ensures n <= |ms|
  {
    if ms == [] then 0 else (if LiveAlly(w, ms[0], side) then 1 else 0) + LiveCount(w, ms[1..], side)
  }

  /** recount_minions_alive: the general's count becomes the number of its live listed minions. */
  function Recount(w: World, gid: Id): (w': World)
    requires IsGeneral(w, gid)
    ensures w' == SetData(w, gid, w.units[gid].role.g.(minionsAlive := LiveCount(w, w.minions, w.units[gid].side)))
    ensures w'.units[gid].role.g.minionsAlive == LiveCount(w', w'.minions, w.units[gid].side) <= |w.minions|
  {
    var w' := SetData(w, gid, w.units[gid].role.g.(minionsAlive := LiveCount(w, w.minions, w.units[gid].side)));
    SameLives(w, w', w.minions, w.units[gid].side);
    w'
  }

  /** The count looks only at who is alive and on which side. */
  lemma {:induction false} SameLives(w: World, w': World, ms: seq<Id>, side: int)
    requires forall m :: m in ms ==> (LiveAlly(w, m, side) <==> LiveAlly(w', m, side))
    ensures LiveCount(w, ms, side) == LiveCount(w', ms, side)
  {
    if ms != [] {
      SameLives(w, w', ms[1..], side);
    }
  }

  lemma {:induction false} LiveCountAppend(w: World, a: seq<Id>, b: seq<Id>, side: int)
    ensures LiveCount(w, a + b, side) == LiveCount(w, a, side) + LiveCount(w, b, side)
  {
    if a == [] {
      assert a + b == b;
    } else {
      assert (a + b)[1..] == a[1..] + b;
      LiveCountAppend(w, a[1..], b, side);
    }
  }

  /**
   * Killing one live minion listed once lowers the recount by exactly one,
   * which is what the minion's own death does to the general's count.
   */
  lemma {:induction false} DeathLowersCount(w: World, ms: seq<Id>, m: Id, side: int)
    requires LiveAlly(w, m, side) && Count(ms, m) == 1
    ensures LiveCount(SetUnit(w, m, w.units[m].(alive := false)), ms, side) == LiveCount(w, ms, side) - 1
  {
    var w' := SetUnit(w, m, w.units[m].(alive := false));
    if ms[0] == m {
      assert Count(ms[1..], m) == 0;
      Unlisted(w, ms[1..], m, side);
    } else {
      assert LiveAlly(w', ms[0], side) == LiveAlly(w, ms[0], side);
      DeathLowersCount(w, ms[1..], m, side);
    }
  }

  /** Changing a unit that is not listed leaves the count alone. */
  lemma {:induction false} Unlisted(w: World, ms: seq<Id>, m: Id, side: int)
    requires m in w.units && m !in ms
    ensures LiveCount(SetUnit(w, m, w.units[m].(alive := false)), ms, side) == LiveCount(w, ms, side)
  {
    if ms != [] {
      Unlisted(w, ms[1..], m, side);
    }
  }

  // ---------------------------------------------------------------- place_flag

  /**
   * place_flag(x, y): nothing happens when the flag already stands there;
   * otherwise the flag moves to the cell when it is inside the grid and is
   * taken down when it is not.
   */
  function PlaceFlag(w: World, gid: Id, p: Pos): (w': World)
    requires IsGeneral(w, gid)
    ensures w.units[gid].role.g.flag == Some(p) ==> w' == w
    ensures w.units[gid].role.g.flag != Some(p) ==>
              w' == SetData(w, gid, w.units[gid].role.g.(flag := if Inside(w.board, p) then Some(p) else None))
    ensures IsGeneral(w', gid) && (w'.units[gid].role.g.flag == Some(p) <==> Inside(w.board, p) || w.units[gid].role.g.flag == Some(p))
  {
    var g := w.units[gid].role.g;
    if g.flag == Some(p) then w
    else SetData(w, gid, g.(flag := if Inside(w.board, p) then Some(p) else None))
  }

  /** Planting a flag at a cell twice is planting it once. */
  lemma PlaceFlagIdempotent(w: World, gid: Id, p: Pos)
    requires IsGeneral(w, gid)
    ensures PlaceFlag(PlaceFlag(w, gid, p), gid, p) == PlaceFlag(w, gid, p)
  {
    var g := w.units[gid].role.g;
    if g.flag != Some(p) && !Inside(w.board, p) {
      var w1 := PlaceFlag(w, gid, p);
      assert w1.units[gid].role.g == g.(flag := None);
    }
  }

  /** place_flag(-1, -1), the stop command's order, always leaves the general without a flag. */
  lemma StopClearsFlag(w: World, gid: Id)
    requires IsGeneral(w, gid)
    ensures PlaceFlag(w, gid, Sentinel).units[gid].role.g.flag.None? || w.units[gid].role.g.flag == Some(Sentinel)
  {
  }
}
