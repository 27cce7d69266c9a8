/**
 * Statuses (status.py): attaching with refresh-by-name, the per-turn
 * update, ending and reverting, and the effect of each kind on its host.
 * A status lives in its host's `statuses` list and is identified by its
 * position there.
 */
module Statuses {
  import opened Wrappers
  import opened Grid
  import opened State
  import opened Movement
  import opened Combat
  import opened Cooldown

  /** Python's int() of a quotient: the magnitude is floored, the sign is the dividend's. */
  function TruncDiv(a: int, d: int): (q: int)
    requires d > 0
    ensures (if q >= 0 then q else -q) == (if a >= 0 then a else -a) / d
    ensures q > 0 ==> a > 0
    ensures q < 0 ==> a < 0
  {
    if a >= 0 then DivSign(a, d); a / d else DivSign(-a, d); -((-a) / d)
  }

  lemma DivSign(n: int, d: int)
    requires n >= 0 && d > 0
    ensures n / d >= 0 && (n / d > 0 ==> n > 0)
  {
    var q, r := n / d, n % d;
    assert n == d * q + r && 0 <= r < d;
    if q < 0 {
      MulAtLeastOne(d, -q);
    }
    if q > 0 {
      MulAtLeastOne(d, q);
    }
  }

  lemma {:induction false} MulAtLeastOne(d: int, k: int)
    requires d > 0 && k >= 1
    ensures d * k >= d
    decreases k
  {
    if k > 1 {
      MulAtLeastOne(d, k - 1);
      assert d * k == d * (k - 1) + d;
    }
  }

  /** An Empower ratio is a fraction with a positive denominator. */
  predicate WellFormed(s: Status)
  {
    s.kind.Empower? ==> s.kind.den > 0
  }

  /** Poison(entity, owner, power, tbt, ticks): it lasts ticks * (tbt + 1) updates. */
  function MakePoison(owner: Option<Id>, power: int, tbt: int, ticks: int, name: string): (s: Status)
    ensures s.duration == ticks * (tbt + 1) && s.kind == Poison(power, tbt, ticks, 0)
  {
    Status(name, ticks * (tbt + 1), owner, Poison(power, tbt, ticks, 0))
  }

  /**
   * clone: a new object of the same class built from the prototype's
   * constructor arguments, so per-host state starts afresh.  Vanished's
   * constructor cannot take the base class's four arguments.
   */
  function CloneStatus(s: Status): (r: Result<Status>)
    ensures r.Crash? <==> s.kind.Vanished?
    ensures r.Ok? ==> r.value.name == s.name && WellFormed(r.value) == WellFormed(s)
    ensures r.Ok? && !s.kind.Poison? ==> r.value.duration == s.duration
    ensures r.Ok? && s.kind.Poison? ==> r.value == MakePoison(s.owner, s.kind.power, s.kind.tbt, s.kind.ticks, s.name)
  {
    match s.kind
    case Vanished(_) => Crash("TypeError")
    case Poison(p, tbt, ticks, _) => Ok(MakePoison(s.owner, p, tbt, ticks, s.name))
    case Haste(_) => Ok(s.(owner := None))
    case Shield(_, _) => Ok(s.(owner := None))
    case Blind(_) => Ok(s.(kind := Blind(0)))
    case Empower(n, d, _) => Ok(s.(kind := Empower(n, d, 0)))
    case _ => Ok(s)
  }

  /** The first status carrying a given name. */
  function FirstNamed(ss: seq<Status>, name: string): (r: Option<nat>)
    ensures r.Some? ==> r.value < |ss| && ss[r.value].name == name
    ensures r.Some? ==> forall j :: 0 <= j < r.value ==> ss[j].name != name
    ensures r.None? ==> forall j :: 0 <= j < |ss| ==> ss[j].name != name
  {
    if ss == [] then None
    else if ss[0].name == name then Some(0)
    else match FirstNamed(ss[1..], name)
      case None => None
      case Some(k) => Some(k + 1)
  }

  function Drop(ss: seq<Status>, i: nat): (r: seq<Status>)
    requires i < |ss|
    ensures |r| == |ss| - 1
    ensures forall j :: 0 <= j < i ==> r[j] == ss[j]
    ensures forall j :: i <= j < |r| ==> r[j] == ss[j + 1]
  {
    ss[..i] + ss[i + 1..]
  }

  function WithStatuses(w: World, id: Id, ss: seq<Status>): (w': World)
    requires id in w.units
    ensures w'.units == w.units[id := w.units[id].(statuses := ss)]
    ensures Framed(w, w') && w'.board == w.board && w'.fx == w.fx
  {
    SetUnit(w, id, w.units[id].(statuses := ss))
  }

  // ---------------------------------------------------------------- attaching

  /**
   * Status.__init__ on a host: a status whose name the host already carries
   * is not added, the carried one keeps the longer duration; otherwise it is
   * appended.  The subclass constructor then runs in both cases.
   */
  function Attach(w: World, id: Id, s: Status): (r: Result<World>)
    requires id in w.units && WellFormed(s)
    ensures r.Ok? ==> Framed(w, r.value) && r.value.fx == w.fx
    ensures r.Ok? ==> forall k :: k in w.units && k != id ==> r.value.units[k] == w.units[k]
    ensures var ss := w.units[id].statuses;
            r.Ok? && FirstNamed(ss, s.name).Some? ==>
              var j := FirstNamed(ss, s.name).value;
              r.value.units[id].statuses == ss[j := ss[j].(duration := if ss[j].duration > s.duration then ss[j].duration else s.duration)]
    ensures var ss := w.units[id].statuses;
            r.Ok? && FirstNamed(ss, s.name).None? && !(s.kind.FreezeCooldowns? && id !in w.generals) ==>
              && |r.value.units[id].statuses| == |ss| + 1
              && r.value.units[id].statuses[..|ss|] == ss
              && r.value.units[id].statuses[|ss|].name == s.name
              && r.value.units[id].statuses[|ss|].duration == s.duration
              && r.value.units[id].statuses[|ss|].owner == s.owner
  {
    var u := w.units[id];
    match FirstNamed(u.statuses, s.name)
    case Some(j) =>
      var d := if u.statuses[j].duration > s.duration then u.statuses[j].duration else s.duration;
      Construct(WithStatuses(w, id, u.statuses[j := u.statuses[j].(duration := d)]), id, s, true)
    case None =>
      Construct(WithStatuses(w, id, u.statuses + [s]), id, s, false)
  }

  /**
   * The subclass constructors' side effects on the host.  When the status was
   * appended (not `dup`) it is the host's last status, and the state it keeps
   * (saved power, bonus, home cell) is stored there.
   */
  function Construct(w: World, id: Id, s: Status, dup: bool): (r: Result<World>)
    requires id in w.units && WellFormed(s)
    requires !dup ==> |w.units[id].statuses| > 0
    ensures r.Ok? ==> Framed(w, r.value) && r.value.fx == w.fx
    ensures r.Ok? ==> forall k :: k in w.units && k != id ==> r.value.units[k] == w.units[k]
    ensures r.Ok? && !(s.kind.FreezeCooldowns? && id !in w.generals) ==>
              var ss := w.units[id].statuses;
              var ss' := r.value.units[id].statuses;
              && |ss'| == |ss|
              && (dup ==> ss' == ss)
              && (!dup ==> ss'[..|ss| - 1] == ss[..|ss| - 1] && ss'[|ss| - 1] == ss[|ss| - 1].(kind := ss'[|ss| - 1].kind))
    ensures r.Ok? && s.kind.FreezeCooldowns? && id !in w.generals ==>
              !dup && r.value.units[id].statuses == w.units[id].statuses[..|w.units[id].statuses| - 1]
    ensures r.Crash? ==> (s.kind.Shield? && !dup && !HasHp(w.units[id])) || (s.kind.FreezeCooldowns? && dup && id !in w.generals)
  {
    var u := w.units[id];
    var last := |u.statuses| - 1;
    match s.kind
    case Shield(a, t) =>
      if dup then Ok(w)
      else if !HasHp(u) then Crash("AttributeError")
      else Ok(SetUnit(w, id, u.(armor := u.armor[t := ArmorOf(u, t) + a])))
    case Blind(_) =>
      if !HasPower(u) then Ok(w)
      else
        var ss := if dup then u.statuses else u.statuses[last := u.statuses[last].(kind := Blind(u.power))];
        Ok(SetUnit(w, id, u.(power := 0, statuses := ss)))
    case Empower(n, d, _) =>
      var bonus := if HasPower(u) then TruncDiv(u.power * n, d) else 0;
      var ss := if dup then u.statuses else u.statuses[last := u.statuses[last].(kind := Empower(n, d, bonus))];
      Ok(SetUnit(w, id, u.(power := if HasPower(u) then u.power + bonus else u.power, statuses := ss)))
    case FreezeCooldowns =>
      if id in w.generals then Ok(w)
      else if dup then Crash("ValueError")
      else Ok(WithStatuses(w, id, u.statuses[..last]))
    case Vanished(_) =>
      var home := PosOf(u);
      var ss := if dup then u.statuses else u.statuses[last := u.statuses[last].(kind := Vanished(home))];
      var w1 := SetTileOccupant(w, home, None);
      Ok(SetUnit(w1, id, u.(x := -1, y := -1, nextAction := 100, statuses := ss)))
    case _ => Ok(w)
  }

  // ---------------------------------------------------------------- ending

  /**
   * end(): detach the status at index i, then undo what its constructor did
   * (Blind, Empower, Shield) or bring a vanished host back to its cell,
   * killing it when that cell is taken.
   */
  function End(w: World, id: Id, i: nat): (r: Result<World>)
    requires id in w.units && i < |w.units[id].statuses|
    ensures r.Ok? ==> Framed(w, r.value)
    ensures r.Ok? ==> r.value.units[id].statuses == Drop(w.units[id].statuses, i)
    ensures r.Ok? ==> forall k :: k in w.units && k != id ==> r.value.units[k].statuses == w.units[k].statuses
    ensures !w.units[id].statuses[i].kind.Vanished? && r.Ok? ==>
              forall k :: k in w.units && k != id ==> r.value.units[k] == w.units[k]
    ensures r.Crash? ==> w.units[id].statuses[i].kind.Vanished? || (w.units[id].statuses[i].kind.Shield? && !HasHp(w.units[id]))
  {
    var u := w.units[id];
    var u1 := u.(statuses := Drop(u.statuses, i));
    match u.statuses[i].kind
    case Blind(saved) => Ok(SetUnit(w, id, if HasPower(u) then u1.(power := saved) else u1))
    case Empower(_, _, b) => Ok(SetUnit(w, id, if HasPower(u) then u1.(power := u.power - b) else u1))
    case Shield(a, t) =>
      if HasHp(u) then Ok(SetUnit(w, id, u1.(armor := u.armor[t := ArmorOf(u, t) - a]))) else Crash("AttributeError")
    case Vanished(home) => Return(SetUnit(w, id, u1), id, home)
    case _ => Ok(SetUnit(w, id, u1))
  }

  /** Vanished.end after detaching: teleport home and reset the action counter, or die. */
  function Return(w: World, id: Id, home: Pos): (r: Result<World>)
    requires id in w.units
    ensures r.Ok? ==> Steady(w, r.value)
    ensures Occupant(w, home).None? && PassableFor(w, home, w.units[id].side) ==>
              && r.Ok?
              && r.value.units[id] == w.units[id].(x := home.0, y := home.1, nextAction := w.units[id].defaultNextAction)
              && forall k :: k in w.units && k != id ==> r.value.units[k] == w.units[k]
    ensures !(Occupant(w, home).None? && PassableFor(w, home, w.units[id].side)) ==> r == Die(w, id)
  {
    var (w1, ok) := Teleport(w, id, home);
    if ok then Ok(SetUnit(w1, id, w1.units[id].(nextAction := w1.units[id].defaultNextAction)))
    else Die(w, id)
  }

  // ---------------------------------------------------------------- updating

  /** The poison timer's step: count down, and strike when it drops below zero, rearming to tbt. */
  function PoisonTimer(timer: int, tbt: int): (int, bool)
  {
    if timer - 1 < 0 then (tbt, true) else (timer - 1, false)
  }

  /** tick() of the status at index i, whose duration has already been lowered. */
  function Tick(w: World, id: Id, i: nat): (r: Result<World>)
    requires id in w.units && i < |w.units[id].statuses|
    ensures r.Ok? ==> Framed(w, r.value)
    ensures r.Ok? ==> forall k :: k in w.units && k != id ==> r.value.units[k].statuses == w.units[k].statuses
    ensures r.Ok? ==> var ss := w.units[id].statuses; var ss' := r.value.units[id].statuses;
                      |ss'| == |ss| && (forall j :: 0 <= j < |ss| && j != i ==> ss'[j] == ss[j])
                      && ss'[i] == ss[i].(kind := ss'[i].kind)
    ensures r.Ok? && ss0(w, id, i).kind.Poison? ==>
              var k := ss0(w, id, i).kind;
              r.value.units[id].statuses[i].kind == k.(timer := PoisonTimer(k.timer, k.tbt).0)
    ensures r.Ok? && !ss0(w, id, i).kind.Poison? ==> r.value.units[id].statuses == w.units[id].statuses
    ensures r.Crash? ==> ss0(w, id, i).kind.Poison?
  {
    var u := w.units[id];
    var s := u.statuses[i];
    match s.kind
    case Haste(sp) => Ok(SetUnit(w, id, u.(nextAction := u.nextAction - sp)))
    case Stunned => Ok(SetUnit(w, id, u.(nextAction := u.defaultNextAction)))
    case FreezeCooldowns =>
      if u.role.Commander? then Ok(SetUnit(w, id, u.(role := Commander(u.role.g.(skills := ChangeAllCd(u.role.g.skills, -1))))))
      else Ok(w)
    case Poison(p, tbt, ticks, timer) =>
      var (t', strike) := PoisonTimer(timer, tbt);
      var w1 := WithStatuses(w, id, u.statuses[i := s.(kind := Poison(p, tbt, ticks, t'))]);
      if strike then
        var w2 :- GetAttacked(w1, id, ByStatus(s.owner, p), None);
        assert Framed(w1, w2);
        FramedTrans(w, w1, w2);
        Ok(w2)
      else Ok(w1)
    case _ => Ok(w)
  }

  function ss0(w: World, id: Id, i: nat): Status
    requires id in w.units && i < |w.units[id].statuses|
  {
    w.units[id].statuses[i]
  }

  /**
   * update() of the status at index i: when its duration is positive, lower
   * it, tick, and end the status once the duration reaches zero.  Vanished
   * pins its host's action counter at 100 afterwards, even once it has ended.
   */
  function UpdateAt(w: World, id: Id, i: nat): (r: Result<World>)
    requires id in w.units && i < |w.units[id].statuses|
    ensures r.Ok? ==> Framed(w, r.value)
    ensures r.Ok? ==> forall k :: k in w.units && k != id ==> r.value.units[k].statuses == w.units[k].statuses
    ensures r.Ok? ==> var ss := w.units[id].statuses; var ss' := r.value.units[id].statuses;
                      && (ss[i].duration == 1 ==> ss' == Drop(ss, i))
                      && (ss[i].duration != 1 ==> |ss'| == |ss| && ss'[..i] == ss[..i] && ss'[i + 1..] == ss[i + 1..])
    ensures r.Ok? && ss0(w, id, i).duration > 1 ==>
              var s := ss0(w, id, i);
              r.value.units[id].statuses[i] == s.(duration := s.duration - 1, kind := r.value.units[id].statuses[i].kind)
    ensures r.Ok? && ss0(w, id, i).duration <= 0 ==> r.value.units[id].statuses == w.units[id].statuses
  {
    var u := w.units[id];
    var s := u.statuses[i];
    var w3 :- if s.duration <= 0 then Ok(w) else Decay(w, id, i);
    if s.kind.Vanished? then Ok(SetUnit(w3, id, w3.units[id].(nextAction := 100))) else Ok(w3)
  }

  /** The active half of update(): lower the duration, tick, and end at zero. */
  function Decay(w: World, id: Id, i: nat): (r: Result<World>)
    requires id in w.units && i < |w.units[id].statuses| && w.units[id].statuses[i].duration > 0
    ensures r.Ok? ==> Framed(w, r.value)
    ensures r.Ok? ==> forall k :: k in w.units && k != id ==> r.value.units[k].statuses == w.units[k].statuses
    ensures r.Ok? ==> var ss := w.units[id].statuses; var ss' := r.value.units[id].statuses;
                      && (ss[i].duration == 1 ==> ss' == Drop(ss, i))
                      && (ss[i].duration != 1 ==>
                            && |ss'| == |ss| && ss'[..i] == ss[..i] && ss'[i + 1..] == ss[i + 1..]
                            && ss'[i] == ss[i].(duration := ss[i].duration - 1, kind := ss'[i].kind))
  {
    var u := w.units[id];
    var s := u.statuses[i];
    var w1 := WithStatuses(w, id, u.statuses[i := s.(duration := s.duration - 1)]);
    var w2 :- Tick(w1, id, i);
    FramedTrans(w, w1, w2);
    if s.duration - 1 <= 0 then
      var w3 :- End(w2, id, i);
      FramedTrans(w, w2, w3);
      assert w2.units[id].statuses == w.units[id].statuses[i := w2.units[id].statuses[i]];
      Ok(w3)
    else Ok(w2)
  }

  /**
   * The status loop of Entity.update: the list is walked by position while
   * ending statuses remove themselves from it, so the status right after one
   * that ends is not updated on that turn.
   */
  function RunStatuses(w: World, id: Id, i: nat): (r: Result<World>)
    requires id in w.units
    ensures r.Ok? ==> Framed(w, r.value)
    ensures r.Ok? ==> forall k :: k in w.units && k != id ==> r.value.units[k].statuses == w.units[k].statuses
    ensures r.Ok? ==> |r.value.units[id].statuses| <= |w.units[id].statuses|
    decreases |w.units[id].statuses| - i
  {
    if i >= |w.units[id].statuses| then Ok(w)
    else
      var w1 :- UpdateAt(w, id, i);
      var w2 :- RunStatuses(w1, id, i + 1);
      FramedTrans(w, w1, w2);
      Ok(w2)
  }

  // ---------------------------------------------------------------- properties

  /** Hits a poison with `d` updates left and timer `timer` deals over the rest of its life. */
  function PoisonHits(d: int, timer: int, tbt: int): nat
    decreases d
  {
    if d <= 0 then 0
    else
      var (t', strike) := PoisonTimer(timer, tbt);
      (if strike then 1 else 0) + PoisonHits(d - 1, t', tbt)
  }

  /** While the timer is positive the poison only counts down. */
  lemma {:induction false} PoisonCountdown(d: int, t: int, tbt: int)
    requires 0 <= t <= d
    ensures PoisonHits(d, t, tbt) == PoisonHits(d - t, 0, tbt)
    decreases t
  {
    if t > 0 {
      PoisonCountdown(d - 1, t - 1, tbt);
    }
  }

  /**
   * A poison built for `ticks` hits every tbt + 1 updates lasts ticks * (tbt + 1)
   * updates and strikes exactly `ticks` times, the first on its first update.
   */
  lemma {:induction false} PoisonCadence(ticks: nat, tbt: nat)
    ensures PoisonHits(ticks * (tbt + 1), 0, tbt) == ticks
    decreases ticks
  {
    if ticks > 0 {
      var d := ticks * (tbt + 1);
      assert d == (ticks - 1) * (tbt + 1) + tbt + 1;
      assert PoisonHits(d, 0, tbt) == 1 + PoisonHits(d - 1, tbt, tbt);
      PoisonCountdown(d - 1, tbt, tbt);
      PoisonCadence(ticks - 1, tbt);
    }
  }

  /** One update of a poison that is not yet ending moves its timer exactly as PoisonHits counts. */
  lemma PoisonUpdateStep(w: World, id: Id, i: nat)
    requires id in w.units && i < |w.units[id].statuses|
    requires w.units[id].statuses[i].kind.Poison? && w.units[id].statuses[i].duration > 1
    requires UpdateAt(w, id, i).Ok?
    ensures var s := w.units[id].statuses[i];
            var s' := UpdateAt(w, id, i).value.units[id].statuses[i];
            s' == s.(duration := s.duration - 1, kind := s.kind.(timer := PoisonTimer(s.kind.timer, s.kind.tbt).0))
  {
    var s := w.units[id].statuses[i];
    var w1 := WithStatuses(w, id, w.units[id].statuses[i := s.(duration := s.duration - 1)]);
    assert ss0(w1, id, i).kind == s.kind;
  }

  /**
   * The status following one that ends is skipped on that turn: with two
   * plain statuses of which the first expires, the second keeps its duration.
   */
  lemma SkipAfterEnd(w: World, id: Id, a: Status, b: Status)
    requires id in w.units && w.units[id].statuses == [a, b]
    requires a.kind.Generic? && a.duration == 1 && b.kind.Generic? && b.duration > 0
    ensures RunStatuses(w, id, 0).Ok?
    ensures RunStatuses(w, id, 0).value.units[id].statuses == [b]
  {
    PlainExpires(w, id, 0);
    var w1 := UpdateAt(w, id, 0).value;
    assert w1.units[id].statuses == [b] by {
      assert Drop([a, b], 0) == [b];
    }
    assert RunStatuses(w1, id, 1) == Ok(w1);
    assert RunStatuses(w, id, 0) == RunStatuses(w1, id, 1);
  }

  /** A plain status with one update left ends without failing. */
  lemma PlainExpires(w: World, id: Id, i: nat)
    requires id in w.units && i < |w.units[id].statuses|
    requires w.units[id].statuses[i].kind.Generic? && w.units[id].statuses[i].duration == 1
    ensures UpdateAt(w, id, i).Ok?
  {
  }

  /** Without an ending status, a plain status is lowered by one on every update. */
  lemma PlainDecrements(w: World, id: Id, i: nat)
    requires id in w.units && i < |w.units[id].statuses|
    requires w.units[id].statuses[i].kind.Generic? && w.units[id].statuses[i].duration > 1
    ensures UpdateAt(w, id, i).Ok?
    ensures UpdateAt(w, id, i).value.units[id].statuses ==
              w.units[id].statuses[i := w.units[id].statuses[i].(duration := w.units[id].statuses[i].duration - 1)]
  {
    var ss := w.units[id].statuses;
    var ss' := UpdateAt(w, id, i).value.units[id].statuses;
    assert ss' == ss'[..i] + [ss'[i]] + ss'[i + 1..];
    assert ss == ss[..i] + [ss[i]] + ss[i + 1..];
  }

  /**
   * The action-clock ticks: Haste brings its host's next action nearer by
   * its speedup, Stunned puts the counter back to its default (so a second
   * stun tick changes nothing more); neither touches anything else.
   */
  lemma ActionTicks(w: World, id: Id, i: nat)
    requires id in w.units && i < |w.units[id].statuses|
    requires w.units[id].statuses[i].kind.Haste? || w.units[id].statuses[i].kind.Stunned?
    ensures Tick(w, id, i).Ok?
    ensures var u := w.units[id];
            var w' := Tick(w, id, i).value;
            && w'.units.Keys == w.units.Keys
            && (forall k :: k in w.units && k != id ==> w'.units[k] == w.units[k])
            && w'.units[id] == u.(nextAction := w'.units[id].nextAction)
            && (u.statuses[i].kind.Haste? ==> w'.units[id].nextAction == u.nextAction - u.statuses[i].kind.speedup)
            && (u.statuses[i].kind.Stunned? ==> w'.units[id].nextAction == u.defaultNextAction)
    ensures w.units[id].statuses[i].kind.Stunned? ==> Tick(Tick(w, id, i).value, id, i) == Tick(w, id, i)
  {
    var u := w.units[id];
    if u.statuses[i].kind.Stunned? {
      var w1 := Tick(w, id, i).value;
      assert w1 == SetUnit(w, id, u.(nextAction := u.defaultNextAction));
      assert w1.units[id].statuses == u.statuses;
      var w2 := Tick(w1, id, i).value;
      assert w2 == SetUnit(w1, id, w1.units[id].(nextAction := u.defaultNextAction));
      assert w1.units[id].(nextAction := u.defaultNextAction) == w1.units[id];
      assert w1.units[id := w1.units[id]] == w1.units;
    }
  }

  /** A shield attached and then ended leaves the host's armor as it found it. */
  lemma ShieldReverts(w: World, id: Id, s: Status)
    requires id in w.units && s.kind.Shield? && HasHp(w.units[id])
    requires FirstNamed(w.units[id].statuses, s.name).None?
    ensures Attach(w, id, s).Ok?
    ensures var w1 := Attach(w, id, s).value;
            && ArmorOf(w1.units[id], s.kind.armorType) == ArmorOf(w.units[id], s.kind.armorType) + s.kind.armor
            && |w1.units[id].statuses| == |w.units[id].statuses| + 1
            && End(w1, id, |w.units[id].statuses|).Ok?
            && var w2 := End(w1, id, |w.units[id].statuses|).value;
               && ArmorOf(w2.units[id], s.kind.armorType) == ArmorOf(w.units[id], s.kind.armorType)
               && w2.units[id].statuses == w.units[id].statuses
  {
    var ss := w.units[id].statuses;
    var w1 := Attach(w, id, s).value;
    assert w1.units[id].statuses[..|ss|] == ss;
    assert Drop(w1.units[id].statuses, |ss|) == w1.units[id].statuses[..|ss|];
  }

  /** Blindness takes all power away, and its end hands the saved power back. */
  lemma BlindReverts(w: World, id: Id, s: Status)
    requires id in w.units && s.kind.Blind? && HasPower(w.units[id])
    requires FirstNamed(w.units[id].statuses, s.name).None?
    ensures Attach(w, id, s).Ok?
    ensures var w1 := Attach(w, id, s).value;
            && w1.units[id].power == 0
            && End(w1, id, |w.units[id].statuses|).Ok?
            && var w2 := End(w1, id, |w.units[id].statuses|).value;
               w2.units[id].power == w.units[id].power && w2.units[id].statuses == w.units[id].statuses
  {
    var ss := w.units[id].statuses;
    var w1 := Attach(w, id, s).value;
    assert w1.units[id].statuses[..|ss|] == ss;
    assert Drop(w1.units[id].statuses, |ss|) == w1.units[id].statuses[..|ss|];
  }

  /** A fresh Empower adds int(power * ratio) and its end takes exactly that back. */
  lemma EmpowerReverts(w: World, id: Id, s: Status)
    requires id in w.units && s.kind.Empower? && s.kind.den > 0 && HasPower(w.units[id])
    requires FirstNamed(w.units[id].statuses, s.name).None?
    ensures Attach(w, id, s).Ok?
    ensures var w1 := Attach(w, id, s).value;
            && w1.units[id].power == w.units[id].power + TruncDiv(w.units[id].power * s.kind.num, s.kind.den)
            && End(w1, id, |w.units[id].statuses|).Ok?
            && var w2 := End(w1, id, |w.units[id].statuses|).value;
               w2.units[id].power == w.units[id].power && w2.units[id].statuses == w.units[id].statuses
  {
    var ss := w.units[id].statuses;
    var w1 := Attach(w, id, s).value;
    assert w1.units[id].statuses[..|ss|] == ss;
    assert Drop(w1.units[id].statuses, |ss|) == w1.units[id].statuses[..|ss|];
  }

  /**
   * Empower stacks: a second Empower of the same name is not attached, yet
   * its bonus is added, and ending the one attached status only removes the
   * first bonus.  Ten power at ratio one half goes to 15, then 22, and ends
   * at 17 instead of 10.
   */
  lemma EmpowerStacks(w: World, id: Id, s: Status)
    requires id in w.units && s.kind.Empower? && s.kind.den > 0 && HasPower(w.units[id])
    requires FirstNamed(w.units[id].statuses, s.name).None?
    ensures Attach(w, id, s).Ok? && Attach(Attach(w, id, s).value, id, s).Ok?
    ensures var p := w.units[id].power;
            var b0 := TruncDiv(p * s.kind.num, s.kind.den);
            var b1 := TruncDiv((p + b0) * s.kind.num, s.kind.den);
            var w2 := Attach(Attach(w, id, s).value, id, s).value;
            && |w2.units[id].statuses| == |w.units[id].statuses| + 1
            && w2.units[id].power == p + b0 + b1
            && End(w2, id, |w.units[id].statuses|).Ok?
            && End(w2, id, |w.units[id].statuses|).value.units[id].power == p + b1
  {
    var ss := w.units[id].statuses;
    var w1 := Attach(w, id, s).value;
    assert w1.units[id].statuses[|ss|].name == s.name;
    assert FirstNamed(w1.units[id].statuses, s.name) == Some(|ss|) by {
      assert w1.units[id].statuses[..|ss|] == ss;
      assert forall j :: 0 <= j < |ss| ==> w1.units[id].statuses[j].name != s.name;
      FirstNamedAt(w1.units[id].statuses, s.name, |ss|);
    }
  }

  lemma FirstNamedAt(ss: seq<Status>, name: string, k: nat)
    requires k < |ss| && ss[k].name == name
    requires forall j :: 0 <= j < k ==> ss[j].name != name
    ensures FirstNamed(ss, name) == Some(k)
  {
  }

  /** FreezeCooldowns on a unit outside the generals list ends at once and leaves no trace. */
  lemma FreezeSkipsNonGenerals(w: World, id: Id, s: Status)
    requires id in w.units && s.kind.FreezeCooldowns? && id !in w.generals
    requires FirstNamed(w.units[id].statuses, s.name).None?
    ensures Attach(w, id, s) == Ok(w)
  {
    var ss := w.units[id].statuses;
    var w1 := WithStatuses(w, id, ss + [s]);
    assert Attach(w, id, s) == Construct(w1, id, s, false);
    assert Construct(w1, id, s, false) == Ok(WithStatuses(w1, id, ss)) by {
      assert (ss + [s])[..|ss|] == ss;
    }
    assert WithStatuses(w1, id, ss) == w by {
      assert WithStatuses(w1, id, ss).units == w.units;
    }
  }

  /**
   * Vanished parks its host off the grid; its end brings the host back to the
   * cell it left when nothing took that cell meanwhile.
   */
  lemma VanishedReturns(w: World, id: Id, s: Status)
    requires id in w.units && s.kind.Vanished? && PosOf(w.units[id]) in w.board.tiles
    requires At(w.board, PosOf(w.units[id])).passable
    requires FirstNamed(w.units[id].statuses, s.name).None?
    ensures Attach(w, id, s).Ok?
    ensures var w1 := Attach(w, id, s).value;
            && PosOf(w1.units[id]) == (-1, -1)
            && Occupant(w1, PosOf(w.units[id])).None?
            && End(w1, id, |w.units[id].statuses|).Ok?
            && var u2 := End(w1, id, |w.units[id].statuses|).value.units[id];
               PosOf(u2) == PosOf(w.units[id]) && u2.alive == w.units[id].alive && u2.nextAction == u2.defaultNextAction
  {
    VanishedParks(w, id, s);
    var w1 := Attach(w, id, s).value;
    VanishedHome(w1, id, |w.units[id].statuses|);
  }

  /** Ending a Vanished status whose cell is free and passable puts its host back there. */
  lemma VanishedHome(w: World, id: Id, i: nat)
    requires id in w.units && i < |w.units[id].statuses| && w.units[id].statuses[i].kind.Vanished?
    requires var home := w.units[id].statuses[i].kind.home;
             home in w.board.tiles && Occupant(w, home).None? && At(w.board, home).passable
    ensures End(w, id, i).Ok?
    ensures var u2 := End(w, id, i).value.units[id];
            PosOf(u2) == w.units[id].statuses[i].kind.home && u2.alive == w.units[id].alive && u2.nextAction == u2.defaultNextAction
  {
  }

  /** Attaching Vanished parks the host at (-1, -1) and records its cell in the new last status. */
  lemma VanishedParks(w: World, id: Id, s: Status)
    requires id in w.units && s.kind.Vanished? && PosOf(w.units[id]) in w.board.tiles
    requires FirstNamed(w.units[id].statuses, s.name).None?
    ensures Attach(w, id, s).Ok?
    ensures var w1 := Attach(w, id, s).value;
            var u1 := w1.units[id];
            && PosOf(u1) == (-1, -1) && u1.alive == w.units[id].alive
            && Occupant(w1, PosOf(w.units[id])).None?
            && w1.board.tiles.Keys == w.board.tiles.Keys && At(w1.board, PosOf(w.units[id])) == At(w.board, PosOf(w.units[id])).(occupant := None)
            && |u1.statuses| == |w.units[id].statuses| + 1
            && u1.statuses[|w.units[id].statuses|].kind == Vanished(PosOf(w.units[id]))
  {
    var ss := w.units[id].statuses;
    var w1 := Attach(w, id, s).value;
    assert w1.units[id].statuses[|ss|].kind == Vanished(PosOf(w.units[id]));
  }

  /** A vanished host whose cell was taken dies when the status ends. */
  lemma VanishedBlocked(w: World, id: Id, i: nat)
    requires id in w.units && i < |w.units[id].statuses| && w.units[id].statuses[i].kind.Vanished?
    requires Occupant(w, w.units[id].statuses[i].kind.home).Some? && !HumanEmperor(w.units[id])
    requires End(w, id, i).Ok?
    ensures !End(w, id, i).value.units[id].alive
  {
  }
}
