/**
 * BattleWindow (battle.py): the command language both sides speak, the
 * dispatch of a parsed command to the side's general, the winner check,
 * the periodic clean-up of dead effects and minions, and the keyboard
 * input that produces commands, including the space-bar tactic toggle.
 */
module Battle {
  import opened Wrappers
  import opened Grid
  import opened State
  import opened Seqs
  import opened Text
  import opened Combat
  import opened Roster
  import opened Skills
  import opened Generals
  import opened Variants

  /** The reason given when the world breaks an assumption the model makes of every reachable state. */
  const OutsideModel: string := "outside the model"

  // ---------------------------------------------------------------- parsing

  /** What a command line asks of the general. */
  datatype Order =
    | Halt                                  // stop
    | Choose(tactic: nat)                   // tactic<d>
    | Relief(reserve: nat)                  // swap<d>
    | Flag(x: int, y: int)                  // flag (x,y)
    | Cast(skill: nat, x: int, y: int)      // skill<d> (x,y)
    | Ignored                               // anything else

  /** `(-?\d+),(-?\d+)\)` at the front of s. */
  function Pair(s: string): Option<(int, int)>
  {
    match Signed(s)
    case None => None
    case Some((x, r1)) =>
      if |r1| == 0 || r1[0] != ',' then None
      else
        match Signed(r1[1..])
        case None => None
        case Some((y, r2)) => if |r2| == 0 || r2[0] != ')' then None else Some((x, y))
  }

  /** FLAG_PATTERN.match: `flag \((-?\d+),(-?\d+)\)` anchored at the start, anything may follow. */
  function FlagPattern(m: string): (r: Option<(int, int)>)
    ensures r.Some? ==> StartsWith(m, "flag (")
  {
    if !StartsWith(m, "flag (") then None else Pair(m[6..])
  }

  /** SKILL_PATTERN.match: `skill(\d) \((-?\d+),(-?\d+)\)` anchored at the start. */
  function SkillPattern(m: string): (r: Option<(nat, int, int)>)
    ensures r.Some? ==> StartsWith(m, "skill") && |m| > 7 && IsDigit(m[5]) && r.value.0 == DigitValue(m[5]) && m[6] == ' ' && m[7] == '('
  {
    if !StartsWith(m, "skill") || |m| < 8 || !IsDigit(m[5]) || m[6] != ' ' || m[7] != '(' then None
    else
      match Pair(m[8..])
      case None => None
      case Some((x, y)) => Some((DigitValue(m[5]), x, y))
  }

  /**
   * The parsing half of process_messages: the prefixes stop, tactic and
   * swap are tried first, in that order, and then the two patterns; the
   * index of a tactic or swap is the single character after the word, read
   * with int(), which raises on a missing or non-digit character.
   */
  function Parse(m: string): (r: Result<Order>)
    ensures StartsWith(m, "stop") ==> r == Ok(Halt)
    ensures !StartsWith(m, "stop") && StartsWith(m, "tactic") ==>
              match DigitAt(m, 6) { case Ok(d) => r == Ok(Choose(d)) case Crash(e) => r == Crash(e) }
    ensures !StartsWith(m, "stop") && !StartsWith(m, "tactic") && StartsWith(m, "swap") ==>
              match DigitAt(m, 4) { case Ok(d) => r == Ok(Relief(d)) case Crash(e) => r == Crash(e) }
    ensures r.Crash? ==> StartsWith(m, "tactic") || StartsWith(m, "swap")
    ensures r == Ok(Ignored) <==>
              !StartsWith(m, "stop") && !StartsWith(m, "tactic") && !StartsWith(m, "swap")
              && FlagPattern(m).None? && SkillPattern(m).None?
  {
    if StartsWith(m, "stop") then Ok(Halt)
    else if StartsWith(m, "tactic") then
      match DigitAt(m, 6)
      case Ok(d) => Ok(Choose(d))
      case Crash(e) => Crash(e)
    else if StartsWith(m, "swap") then
      match DigitAt(m, 4)
      case Ok(d) => Ok(Relief(d))
      case Crash(e) => Crash(e)
    else
      match FlagPattern(m)
      case Some((x, y)) => Ok(Flag(x, y))
      case None =>
        match SkillPattern(m)
        case Some((i, x, y)) => Ok(Cast(i, x, y))
        case None => Ok(Ignored)
  }

  // ---------------------------------------------------------------- the command texts

  /** `x,y)`: the coordinates as the mouse and skill commands write them. */
  function Coords(x: int, y: int): string { Show(x) + ("," + (Show(y) + ")")) }

  /** The commands the keyboard and mouse produce. */
  function FlagText(x: int, y: int): string { "flag (" + (Coords(x, y) + "\n") }
  function SkillText(i: nat, x: int, y: int): string { "skill" + (Show(i) + (" (" + (Coords(x, y) + "\n"))) }
  function TacticText(n: nat): string { "tactic" + Show(n) + "\n" }
  function SwapText(i: nat): string { "swap" + Show(i) + "\n" }
  const StopText: string := "stop\n"

  /** The movement and skill orders the AI produces: coordinates separated by spaces. */
  function AiFlagText(x: int, y: int): string { "flag " + (Show(x) + " " + Show(y) + "\n") }
  function AiSkillText(i: nat, x: int, y: int): string { "skill" + Show(i) + (" " + Show(x) + " " + Show(y) + "\n") }

  lemma PairOfCoords(x: int, y: int, tail: string)
    ensures Pair(Coords(x, y) + tail) == Some((x, y))
  {
    var r2 := ")" + tail;
    var r1 := "," + (Show(y) + r2);
    assert Coords(x, y) + tail == Show(x) + r1;
    ShowThenSigned(x, r1);
    assert r1[1..] == Show(y) + r2;
    ShowThenSigned(y, r2);
  }

  /** A line that matches the flag pattern is read as that flag. */
  lemma ParseFlag(m: string, x: int, y: int)
    requires FlagPattern(m) == Some((x, y))
    ensures Parse(m) == Ok(Flag(x, y))
  {
    assert m[0] == m[..6][0] == 'f';
    DiffersAt(m, "stop", 0);
    DiffersAt(m, "tactic", 0);
    DiffersAt(m, "swap", 0);
  }

  /** A line that matches the skill pattern is read as that skill: the earlier prefixes cannot match it. */
  lemma ParseSkill(m: string, i: nat, x: int, y: int)
    requires SkillPattern(m) == Some((i, x, y))
    ensures Parse(m) == Ok(Cast(i, x, y))
  {
    assert m[0] == m[..5][0] == 's' && m[1] == m[..5][1] == 'k';
    DiffersAt(m, "stop", 1);
    DiffersAt(m, "tactic", 0);
    DiffersAt(m, "swap", 1);
    DiffersAt(m, "flag (", 0);
  }

  /** Every flag the mouse places is read back as that flag. */
  lemma FlagRoundTrip(x: int, y: int)
    ensures Parse(FlagText(x, y)) == Ok(Flag(x, y))
  {
    var m := FlagText(x, y);
    var c := Coords(x, y) + "\n";
    assert m[..6] == "flag (" && m[6..] == c;
    PairOfCoords(x, y, "\n");
    assert FlagPattern(m) == Pair(c);
    ParseFlag(m, x, y);
  }

  /** Every skill key (at most ten of them) is read back as that skill at that cell. */
  lemma SkillRoundTrip(i: nat, x: int, y: int)
    requires i < 10
    ensures Parse(SkillText(i, x, y)) == Ok(Cast(i, x, y))
  {
    SkillTextMatches(i, x, y);
    ParseSkill(SkillText(i, x, y), i, x, y);
  }

  lemma SkillTextMatches(i: nat, x: int, y: int)
    requires i < 10
    ensures SkillPattern(SkillText(i, x, y)) == Some((i, x, y))
  {
    var c := Coords(x, y) + "\n";
    var t := " (" + c;
    var r := Show(i) + t;
    var m := "skill" + r;
    assert Show(i) == [DigitChar(i)];
    PrefixThenRest("skill", r);
    PrefixThenRest(" (", c);
    assert m[5] == r[0] == DigitChar(i) && m[6] == t[0] == ' ' && m[7] == t[1] == '(';
    assert m[8..] == c by {
      assert |m| == 8 + |c|;
      forall k | 0 <= k < |c| ensures m[8..][k] == c[k] {
        assert m[8 + k] == r[3 + k] == t[2 + k];
      }
    }
    PairOfCoords(x, y, "\n");
  }

  /** A tactic command with a one-digit index is read back as that index. */
  lemma TacticRoundTrip(n: nat)
    requires n < 10
    ensures Parse(TacticText(n)) == Ok(Choose(n))
  {
    var m := TacticText(n);
    assert Show(n) == [DigitChar(n)];
    assert m == "tactic" + [DigitChar(n)] + "\n";
    assert m[..6] == "tactic" && m[6] == DigitChar(n);
    assert m[0] == 't' && m[1] == 'a';
  }

  /** A swap command with a one-digit index is read back as that index. */
  lemma SwapRoundTrip(i: nat)
    requires i < 10
    ensures Parse(SwapText(i)) == Ok(Relief(i))
  {
    var m := SwapText(i);
    assert Show(i) == [DigitChar(i)];
    assert m == "swap" + [DigitChar(i)] + "\n";
    assert m[..4] == "swap" && m[4] == DigitChar(i);
    assert m[1] == 'w';
  }

  lemma StopRoundTrip()
    ensures Parse(StopText) == Ok(Halt)
  {
    assert StopText[..4] == "stop";
  }

  /** A line that none of the prefixes or patterns matches is ignored. */
  lemma ParseIgnored(m: string)
    requires !StartsWith(m, "stop") && !StartsWith(m, "tactic") && !StartsWith(m, "swap")
    requires FlagPattern(m).None? && SkillPattern(m).None?
    ensures Parse(m) == Ok(Ignored)
  {
  }

  /**
   * The AI's flag orders never match the flag pattern, which wants the
   * coordinates in parentheses: the battle ignores them.
   */
  lemma AiFlagIgnored(x: int, y: int)
    ensures Parse(AiFlagText(x, y)) == Ok(Ignored)
  {
    var f := AiFlagText(x, y);
    assert f[..5] == "flag " && f[5..] == Show(x) + " " + Show(y) + "\n";
    assert f[5] == Show(x)[0];
    assert f[0] == 'f' && f[..6] != "flag (";
    ParseIgnored(f);
  }

  /** Nor do the AI's skill orders match the skill pattern. */
  lemma AiSkillIgnored(i: nat, x: int, y: int)
    ensures Parse(AiSkillText(i, x, y)) == Ok(Ignored)
  {
    AiSkillUnmatched(i, x, y);
    ParseIgnored(AiSkillText(i, x, y));
  }

  /** After the skill digit the AI writes a space and a number, never the pattern's ` (`. */
  lemma AiSkillUnmatched(i: nat, x: int, y: int)
    ensures var s := AiSkillText(i, x, y);
            && !StartsWith(s, "stop") && !StartsWith(s, "tactic") && !StartsWith(s, "swap")
            && FlagPattern(s).None? && SkillPattern(s).None?
  {
    var h := "skill" + Show(i);
    var t := " " + Show(x) + " " + Show(y) + "\n";
    var s := h + t;
    assert s[0] == 's' && s[1] == 'k';
    DiffersAt(s, "stop", 1);
    DiffersAt(s, "tactic", 0);
    DiffersAt(s, "swap", 1);
    DiffersAt(s, "flag (", 0);
    if i < 10 {
      assert Show(i) == [DigitChar(i)];
      assert |h| == 6 && s[6] == t[0] && s[7] == t[1] == Show(x)[0];
    } else {
      assert Show(i) == Digits(i / 10) + [DigitChar(i % 10)];
      assert s[6] == h[6] == Show(i)[1];
    }
  }

  // ---------------------------------------------------------------- dispatch

  /** The use_skill of the general's own class: the Emperor's transforms, the others' do not. */
  function CastBy(w: World, gid: Id, i: int, x: int, y: int): (r: Result<(World, bool)>)
    requires Equipped(w, gid)
    ensures w.units[gid].role.g.variant.Emperor? ==> r == EmperorUseSkill(w, gid, i, x, y)
    ensures !w.units[gid].role.g.variant.Emperor? ==> r == UseSkill(w, gid, i, x, y)
  {
    if w.units[gid].role.g.variant.Emperor? then EmperorUseSkill(w, gid, i, x, y) else UseSkill(w, gid, i, x, y)
  }

  /**
   * The dispatching half of process_messages: each order goes to the side's
   * general.  What the original needs of that general (that it is one, that
   * its skills can run, that its reserves are generals) is checked here and
   * a world that breaks it is reported as outside the model.
   */
  function Dispatch(w: World, side: nat, o: Order): (r: Result<World>)
    ensures o == Ignored ==> r == Ok(w)
    ensures side >= |w.generals| && o != Ignored ==> r == Crash("IndexError")
    ensures side < |w.generals| && IsGeneral(w, w.generals[side]) ==>
              var gid := w.generals[side];
              && (o == Halt ==> r == Ok(PlaceFlag(w, gid, Sentinel)))
              && (o.Flag? ==> r == Ok(PlaceFlag(w, gid, (o.x, o.y))))
              && (o.Choose? ==> r == CommandTactic(w, gid, o.tactic))
              && (o.Relief? && Enlisted(w) ==> r.Ok? == Swap(w, gid, o.reserve).Ok? && (r.Ok? ==> r.value == Swap(w, gid, o.reserve).value.0))
              && (o.Cast? && Equipped(w, gid) ==> r.Ok? == CastBy(w, gid, o.skill, o.x, o.y).Ok? && (r.Ok? ==> r.value == CastBy(w, gid, o.skill, o.x, o.y).value.0))
  {
    if o == Ignored then Ok(w)
    else if side >= |w.generals| then Crash("IndexError")
    else
      var gid := w.generals[side];
      if !IsGeneral(w, gid) then Crash(OutsideModel)
      else
        match o
        case Halt => Ok(PlaceFlag(w, gid, Sentinel))
        case Flag(x, y) => Ok(PlaceFlag(w, gid, (x, y)))
        case Choose(n) => CommandTactic(w, gid, n)
        case Relief(k) =>
          if !Enlisted(w) then Crash(OutsideModel)
          else (match Swap(w, gid, k) case Ok((w1, _)) => Ok(w1) case Crash(e) => Crash(e))
        case Cast(i, x, y) =>
          if !Equipped(w, gid) then Crash(OutsideModel)
          else (match CastBy(w, gid, i, x, y) case Ok((w1, _)) => Ok(w1) case Crash(e) => Crash(e))
  }

  /** The two sides' command books: turn number to command line. */
  datatype Mail = Mail(side0: map<int, string>, side1: map<int, string>)
  {
    function Of(side: nat): map<int, string>
    {
      if side == 0 then side0 else side1
    }

    function Post(side: nat, turn: int, m: string): (r: Mail)
      ensures r.Of(side) == Of(side)[turn := m]
      ensures forall s: nat :: s != side && s <= 1 && side <= 1 ==> r.Of(s) == Of(s)
    {
      if side == 0 then this.(side0 := side0[turn := m]) else this.(side1 := side1[turn := m])
    }
  }

  /** One side's command for the turn, if it sent one: parsed and dispatched. */
  function Obey(w: World, mail: Mail, side: nat, turn: int): (r: Result<World>)
    ensures turn !in mail.Of(side) ==> r == Ok(w)
    ensures turn in mail.Of(side) ==>
              match Parse(mail.Of(side)[turn]) { case Crash(e) => r == Crash(e) case Ok(o) => r == Dispatch(w, side, o) }
  {
    if turn !in mail.Of(side) then Ok(w)
    else
      match Parse(mail.Of(side)[turn])
      case Crash(e) => Crash(e)
      case Ok(o) => Dispatch(w, side, o)
  }

  /** process_messages(turn): side 0's command for the turn, then side 1's. */
  function ProcessMessages(w: World, mail: Mail, turn: int): (r: Result<World>)
    ensures turn !in mail.side0 && turn !in mail.side1 ==> r == Ok(w)
    ensures r.Ok? ==> Obey(w, mail, 0, turn).Ok? && r == Obey(Obey(w, mail, 0, turn).value, mail, 1, turn)
  {
    match Obey(w, mail, 0, turn)
    case Crash(e) => Crash(e)
    case Ok(w1) => Obey(w1, mail, 1, turn)
  }

  /** Two sets of command books that hold the same commands for turn t. */
  predicate SameAt(a: Mail, b: Mail, t: int)
  {
    && (t in a.side0 <==> t in b.side0) && (t in a.side0 ==> a.side0[t] == b.side0[t])
    && (t in a.side1 <==> t in b.side1) && (t in a.side1 ==> a.side1[t] == b.side1[t])
  }

  /** Processing a turn reads nothing but the commands filed for it. */
  lemma SameAtSameOrders(w: World, a: Mail, b: Mail, turn: int)
    requires SameAt(a, b, turn)
    ensures ProcessMessages(w, a, turn) == ProcessMessages(w, b, turn)
  {
    assert a.Of(0) == a.side0 && b.Of(0) == b.side0 && a.Of(1) == a.side1 && b.Of(1) == b.side1;
    assert Obey(w, a, 0, turn) == Obey(w, b, 0, turn);
    if Obey(w, a, 0, turn).Ok? {
      assert Obey(Obey(w, a, 0, turn).value, a, 1, turn) == Obey(Obey(w, a, 0, turn).value, b, 1, turn);
    }
  }

  /** Filing a command under another turn leaves this turn's commands as they were. */
  lemma PostElsewhere(mail: Mail, side: nat, t: int, m: string, turn: int)
    requires t != turn
    ensures SameAt(mail.Post(side, t, m), mail, turn)
  {
  }

  /** Only the commands filed under the turn being processed matter. */
  lemma OtherTurnsIgnored(w: World, mail: Mail, turn: int, side: nat, t: int, m: string)
    requires t != turn
    ensures ProcessMessages(w, mail.Post(side, t, m), turn) == ProcessMessages(w, mail, turn)
  {
    PostElsewhere(mail, side, t, m, turn);
    SameAtSameOrders(w, mail.Post(side, t, m), mail, turn);
  }

  // ---------------------------------------------------------------- check_winner

  /**
   * check_winner: side 0's general is looked at first, then side 1's; the
   * first one found dead ends the game and the other side's general wins.
   */
  function CheckWinner(w: World): (r: Result<Option<Id>>)
    requires forall k :: 0 <= k < |w.generals| ==> w.generals[k] in w.units
    ensures |w.generals| < 2 ==> r.Crash?
    ensures |w.generals| >= 2 ==>
              var d0 := !w.units[w.generals[0]].alive;
              var d1 := !w.units[w.generals[1]].alive;
              && r.Ok?
              && (d0 ==> r.value == Some(w.generals[1]))
              && (!d0 && d1 ==> r.value == Some(w.generals[0]))
              && (!d0 && !d1 ==> r.value == None)
  {
    if |w.generals| == 0 then Crash("IndexError")
    else if !w.units[w.generals[0]].alive then
      (if |w.generals| > 1 then Ok(Some(w.generals[1])) else Crash("IndexError"))
    else if |w.generals| == 1 then Crash("IndexError")
    else if !w.units[w.generals[1]].alive then Ok(Some(w.generals[0]))
    else Ok(None)
  }

  /** When both generals lie dead, side 1 is declared the winner. */
  lemma BothDeadSideOneWins(w: World)
    requires |w.generals| >= 2 && forall k :: 0 <= k < |w.generals| ==> w.generals[k] in w.units
    requires !w.units[w.generals[0]].alive && !w.units[w.generals[1]].alive
    ensures CheckWinner(w) == Ok(Some(w.generals[1]))
  {
  }

  // ---------------------------------------------------------------- clean_all

  predicate FxAlive(w: World, e: Id) { e !in w.fx || w.fx[e].alive }
  predicate UnitAlive(w: World, m: Id) { m !in w.units || w.units[m].alive }

  /** The tests clean_all applies to the two lists. */
  function FxKeep(w: World): Id -> bool { (e: Id) => FxAlive(w, e) }
  function UnitKeep(w: World): Id -> bool { (m: Id) => UnitAlive(w, m) }

  /** clean_all: the dead effects and minions leave their lists, and the rest keep their order. */
  function CleanAll(w: World): (w': World)
    ensures w' == w.(effects := w'.effects, minions := w'.minions)
    ensures forall e :: e in w'.effects <==> e in w.effects && FxAlive(w, e)
    ensures forall m :: m in w'.minions <==> m in w.minions && UnitAlive(w, m)
  {
    w.(effects := Filter(w.effects, FxKeep(w)), minions := Filter(w.minions, UnitKeep(w)))
  }

  /** Removing x from a list whose head part does not hold it removes the x right after that part. */
  lemma {:induction false} RemoveAfter(f: seq<Id>, t: seq<Id>, x: Id)
    requires x !in f && |t| > 0 && t[0] == x
    ensures RemoveFirst(f + t, x) == f + t[1..]
    decreases |f|
  {
    if f == [] {
      assert f + t == t;
    } else {
      assert (f + t)[1..] == f[1..] + t;
      RemoveAfter(f[1..], t, x);
    }
  }

  /** Filtering one more entry of s appends it when it passes and nothing otherwise. */
  lemma FilterNext(s: seq<Id>, i: nat, keep: Id -> bool)
    requires i < |s|
    ensures Filter(s[..i + 1], keep) == Filter(s[..i], keep) + (if keep(s[i]) then [s[i]] else [])
  {
    FilterConcat(s[..i], [s[i]], keep);
    assert s[..i + 1] == s[..i] + [s[i]];
    assert [s[i]][1..] == [];
  }

  /** One pass of the loop: a dead entry is removed where it stands, a live one stays. */
  lemma SweepStep(s: seq<Id>, i: nat, keep: Id -> bool)
    requires i < |s|
    ensures var r := Filter(s[..i], keep) + s[i..];
            && (!keep(s[i]) ==> s[i] in r && RemoveFirst(r, s[i]) == Filter(s[..i + 1], keep) + s[i + 1..])
            && (keep(s[i]) ==> r == Filter(s[..i + 1], keep) + s[i + 1..])
  {
    var f := Filter(s[..i], keep);
    var t := s[i..];
    FilterNext(s, i, keep);
    assert t[0] == s[i] && t[1..] == s[i + 1..];
    if !keep(s[i]) {
      assert Filter(s[..i + 1], keep) == f + [] == f;
      assert s[i] !in f;
      RemoveAfter(f, t, s[i]);
      assert (f + t)[|f|] == s[i];
    } else {
      assert t == [s[i]] + s[i + 1..];
      assert f + t == (f + [s[i]]) + s[i + 1..];
    }
  }

  /**
   * The loop clean_all runs over a copy of each list: every dead entry of
   * the copy is removed from the live list, first occurrence first.  It
   * leaves exactly the filtered list.
   */
  method Sweep(s: seq<Id>, keep: Id -> bool) returns (r: seq<Id>)
    ensures r == Filter(s, keep)
  {
    r := s;
    var i := 0;
    while i < |s|
      invariant 0 <= i <= |s|
      invariant r == Filter(s[..i], keep) + s[i..]
    {
      SweepStep(s, i, keep);
      if !keep(s[i]) {
        r := RemoveFirst(r, s[i]);
      }
      i := i + 1;
    }
    assert s[..|s|] == s;
  }

  /** clean_all as the original writes it, two sweeps over copies of the lists. */
  method CleanAllAsWritten(w: World) returns (w': World)
    ensures w' == CleanAll(w)
  {
    var effects := Sweep(w.effects, FxKeep(w));
    var minions := Sweep(w.minions, UnitKeep(w));
    w' := w.(effects := effects, minions := minions);
  }

  // ---------------------------------------------------------------- keyboard input

  /** The space bar: from the first tactic go back to the remembered one; from any other, remember it and go to the first. */
  function Toggle(g: GeneralData): (r: Result<(GeneralData, nat)>)
    ensures r.Crash? <==> g.selected !in g.tactics || (g.tactics[0] == g.selected && g.previous !in g.tactics)
    ensures r.Crash? ==> r == Crash("ValueError")
    ensures r.Ok? ==> r.value.1 < |g.tactics|
    ensures r.Ok? && g.tactics[0] == g.selected ==>
              r.value.0 == g && g.previous in g.tactics && g.tactics[r.value.1] == g.previous
    ensures g.selected in g.tactics && g.tactics[0] != g.selected ==> r == Ok((g.(previous := g.selected), 0))
  {
    match IndexOf(g.tactics, g.selected)
    case None => Crash("ValueError")
    case Some(k) =>
      if k == 0 then
        match IndexOf(g.tactics, g.previous)
        case None => Crash("ValueError")
        case Some(n) => Ok((g, n))
      else Ok((g.(previous := g.selected), 0))
  }

  /**
   * Pressing space twice, with each resulting command carried out, comes
   * back to the tactic the general started with, provided its tactics are
   * distinct and both the selected and the remembered one are among them.
   */
  lemma ToggleTwiceRestores(g: GeneralData)
    requires NoDup(g.tactics) && g.selected in g.tactics && g.previous in g.tactics
    ensures Toggle(g).Ok?
    ensures var (g1, n1) := Toggle(g).value;
            var h := g1.(selected := g1.tactics[n1]);
            Toggle(h).Ok? && h.tactics[Toggle(h).value.1] == g.selected
  {
    var (g1, n1) := Toggle(g).value;
    var h := g1.(selected := g1.tactics[n1]);
    if g.tactics[0] == g.selected {
      assert h.selected == g.previous;
    } else {
      assert h.selected == g.tactics[0] && h.previous == g.selected;
    }
  }

  /** A tactic key: the remembered tactic is overwritten only when the current one is not the first. */
  function SelectKey(g: GeneralData): (r: Result<GeneralData>)
    ensures g.selected !in g.tactics <==> r.Crash?
    ensures r.Ok? && g.tactics[0] == g.selected ==> r.value == g
    ensures r.Ok? && g.tactics[0] != g.selected ==> r.value == g.(previous := g.selected)
  {
    match IndexOf(g.tactics, g.selected)
    case None => Crash("ValueError")
    case Some(k) => if k != 0 then Ok(g.(previous := g.selected)) else Ok(g)
  }

  /** The keys and buttons down during one poll: swap keys 1-9, skill keys Q-P, tactic keys Z-M. */
  datatype Keys = Keys(rightButton: bool, stop: bool, swap: seq<bool>, skill: seq<bool>, shift: bool, space: bool, tactic: seq<bool>)

  /** The first of the first n keys that is down. */
  function FirstDown(ks: seq<bool>, n: nat): (r: Option<nat>)
    ensures r.Some? ==> r.value < n && r.value < |ks| && ks[r.value]
    ensures r.None? ==> forall i :: 0 <= i < n && i < |ks| ==> !ks[i]
  {
    if n == 0 || ks == [] then None
    else if ks[0] then Some(0)
    else match FirstDown(ks[1..], n - 1)
      case None => None
      case Some(i) => Some(i + 1)
  }

  function Min(a: nat, b: nat): nat { if a < b then a else b }

  /**
   * How many swap, skill and tactic keys are live: fixed when the window
   * opens, from the side's general and reserves at that moment, and capped
   * by the nine, ten and seven keys there are.
   */
  datatype Keymap = Keymap(swaps: nat, skills: nat, tactics: nat)

  function OpenKeymap(w: World, side: nat): (km: Keymap)
    requires side < |w.generals| && IsGeneral(w, w.generals[side])
    ensures km.swaps <= 9 && km.skills <= 10 && km.tactics <= 7
  {
    var g := w.units[w.generals[side]].role.g;
    Keymap(Min(if side < |w.reserves| then |w.reserves[side]| else 0, 9), Min(|g.skills|, 10), Min(|g.tactics|, 7))
  }

  /**
   * check_input: the right button, then stop, the swap keys, the skill keys
   * (with shift held a skill key only previews the area and sends
   * nothing), the space bar and the tactic keys, in that order of
   * precedence.  The general may change its remembered tactic on the way.
   */
  function CheckInput(k: Keys, km: Keymap, g: GeneralData, x: int, y: int): (r: Result<(Option<string>, GeneralData)>)
    ensures k.rightButton ==> r == Ok((Some(FlagText(x, y)), g))
    ensures !k.rightButton && k.stop ==> r == Ok((Some(StopText), g))
    ensures r.Ok? && r.value.1 != g ==> r.value.1 == g.(previous := g.selected)
    ensures r.Crash? ==> g.selected !in g.tactics || g.previous !in g.tactics
  {
    if k.rightButton then Ok((Some(FlagText(x, y)), g))
    else if k.stop then Ok((Some(StopText), g))
    else match FirstDown(k.swap, km.swaps)
      case Some(i) => Ok((Some(SwapText(i)), g))
      case None =>
        match FirstDown(k.skill, km.skills)
        case Some(i) => Ok((if k.shift then None else Some(SkillText(i, x, y)), g))
        case None =>
          if k.space then
            match Toggle(g)
            case Crash(e) => Crash(e)
            case Ok((g1, n)) => Ok((Some(TacticText(n)), g1))
          else
            match FirstDown(k.tactic, km.tactics)
            case None => Ok((None, g))
            case Some(i) =>
              match SelectKey(g)
              case Crash(e) => Crash(e)
              case Ok(g1) => Ok((Some(TacticText(i)), g1))
  }

  /**
   * Whatever the keyboard sends the battle reads back as a real order:
   * never ignored and never a parse error, as long as the general has at
   * most ten tactics; a right click always becomes the flag at the cursor.
   */
  lemma InputUnderstood(k: Keys, km: Keymap, g: GeneralData, x: int, y: int)
    requires km.swaps <= 10 && km.skills <= 10 && km.tactics <= 10 && |g.tactics| <= 10
    requires CheckInput(k, km, g, x, y).Ok? && CheckInput(k, km, g, x, y).value.0.Some?
    ensures var m := CheckInput(k, km, g, x, y).value.0.value;
            Parse(m).Ok? && Parse(m).value != Ignored
    ensures k.rightButton ==> Parse(CheckInput(k, km, g, x, y).value.0.value) == Ok(Flag(x, y))
  {
    if k.rightButton {
      FlagRoundTrip(x, y);
    } else if k.stop {
      StopRoundTrip();
    } else if FirstDown(k.swap, km.swaps).Some? {
      SwapRoundTrip(FirstDown(k.swap, km.swaps).value);
    } else if FirstDown(k.skill, km.skills).Some? {
      SkillRoundTrip(FirstDown(k.skill, km.skills).value, x, y);
    } else if k.space {
      TacticRoundTrip(Toggle(g).value.1);
    } else {
      TacticRoundTrip(FirstDown(k.tactic, km.tactics).value);
    }
  }
}
