/**
 * Window (window.py): the turn loop both sides run in lockstep.  Each turn
 * the opponent's command for the turn arrives, the local player's input
 * for the turn is recorded, the commands filed one turn earlier are
 * carried out, every general, effect and minion is updated, the winner is
 * checked, and every hundredth turn the dead are swept from the lists.
 * Also the message log and the "turn#command" wire format.
 */
module Window {
  import opened Wrappers
  import opened Grid
  import opened State
  import opened Seqs
  import opened Text
  import opened Effects
  import opened Minions
  import opened Roster
  import opened Skills
  import opened Generals
  import opened Variants
  import opened Battle

  /** Commands are carried out this many turns after the turn they are filed under. */
  const TurnLag: nat := 1

  /** Lines the message log holds. */
  const MsgHeight: nat := 6

  /** A dead sweep runs on turns divisible by this. */
  const CleanEvery: nat := 100

  // ---------------------------------------------------------------- the message log

  /**
   * message: each line is appended, and when the log is full its oldest
   * line is dropped first.  (The wrapping of a message into lines is
   * done before and not modelled: the lines arrive already wrapped.)
   */
  function Message<T>(log: seq<T>, lines: seq<T>): (r: seq<T>)
    ensures |log| <= MsgHeight ==> |r| <= MsgHeight
    decreases |lines|
  {
    if lines == [] then log
    else Message((if |log| == MsgHeight then log[1..] else log) + [lines[0]], lines[1..])
  }

  /** Starting from a log that is not overfull, the log always holds the last six lines written. */
  lemma {:induction false} MessageKeepsLast<T>(log: seq<T>, lines: seq<T>)
    requires |log| <= MsgHeight
    ensures Message(log, lines) == LastN(log + lines, MsgHeight)
    decreases |lines|
  {
    if lines != [] {
      var log1 := (if |log| == MsgHeight then log[1..] else log) + [lines[0]];
      MessageKeepsLast(log1, lines[1..]);
      assert log1 + lines[1..] == (if |log| == MsgHeight then log[1..] else log) + lines;
      var s := log + lines;
      var s1 := log1 + lines[1..];
      assert LastN(s1, MsgHeight) == LastN(s, MsgHeight) by {
        if |log| == MsgHeight {
          assert s1 == s[1..];
          assert |s| > MsgHeight;
        } else {
          assert s1 == s;
        }
      }
    } else {
      assert log + lines == log;
    }
  }

  // ---------------------------------------------------------------- the wire format

  /**
   * The exchange of one turn: "<turn>#<command>" when there is a command
   * and "D" otherwise.  The receiver splits on '#' and files the command
   * only when there are exactly two parts, reading the first with int().
   */
  function Decode(received: string): (r: Result<Option<(int, string)>>)
    ensures '#' !in received ==> r == Ok(None)
    ensures r.Ok? && r.value.Some? ==>
              && '#' !in r.value.value.1
              && exists k :: 0 <= k < |received| && received[k] == '#' && received[k + 1..] == r.value.value.1
                   && ParseInt(received[..k]) == Ok(r.value.value.0)
  {
    match IndexOf(received, '#')
    case None => Ok(None)
    case Some(k) =>
      if '#' in received[k + 1..] then Ok(None)
      else
        match ParseInt(received[..k])
        case Crash(e) => Crash(e)
        case Ok(n) => Ok(Some((n, received[k + 1..])))
  }

  /** What a side sends for a turn. */
  function Outgoing(mail: Mail, side: nat, turn: nat): string
  {
    if turn in mail.Of(side) then Show(turn) + "#" + mail.Of(side)[turn] else "D"
  }

  /** The AI's answer as the loop wraps it when playing locally. */
  function AiReceived(turn: nat, ai: Option<string>): string
  {
    if ai.Some? && ai.value != "" then Show(turn) + "#" + ai.value else "D"
  }

  lemma NoHashInShow(n: nat)
    ensures '#' !in Show(n)
  {
    var s := Show(n);
    assert forall k :: 0 <= k < |s| ==> IsDigit(s[k]);
  }

  /** What is sent for a turn is read back as that turn and that command. */
  lemma {:induction false} WireRoundTrip(turn: nat, m: string)
    requires '#' !in m
    ensures Decode(Show(turn) + "#" + m) == Ok(Some((turn as int, m)))
  {
    var t := Show(turn);
    var s := t + "#" + m;
    NoHashInShow(turn);
    assert s[|t|] == '#';
    assert IndexOf(s, '#') == Some(|t|) by {
      assert s[..|t|] == t;
    }
    assert s[..|t|] == t && s[|t| + 1..] == m;
    ParseShow(turn);
  }

  /** "D" and any other line without exactly one '#' is dropped. */
  lemma DrawIsDropped()
    ensures Decode("D") == Ok(None)
  {
  }

  /** Filing a received line: its command goes into the sender's book under the turn it names. */
  function Receive(mail: Mail, from: nat, received: string): (r: Result<Mail>)
    requires from <= 1
    ensures Decode(received) == Ok(None) ==> r == Ok(mail)
    ensures Decode(received).Ok? && Decode(received).value.Some? ==>
              r == Ok(mail.Post(from, Decode(received).value.value.0, Decode(received).value.value.1))
    ensures r.Crash? <==> Decode(received).Crash?
  {
    match Decode(received)
    case Crash(e) => Crash(e)
    case Ok(None) => Ok(mail)
    case Ok(Some((t, m))) => Ok(mail.Post(from, t, m))
  }

  /** What one side sends for a turn lands in the other's copy of its book under the same turn. */
  lemma ExchangeDelivers(mine: Mail, theirs: Mail, side: nat, turn: nat)
    requires side <= 1
    requires turn in mine.Of(side) ==> '#' !in mine.Of(side)[turn]
    ensures Receive(theirs, side, Outgoing(mine, side, turn)).Ok?
    ensures turn in mine.Of(side) ==>
              Receive(theirs, side, Outgoing(mine, side, turn)).value == theirs.Post(side, turn, mine.Of(side)[turn])
    ensures turn !in mine.Of(side) ==> Receive(theirs, side, Outgoing(mine, side, turn)).value == theirs
  {
    if turn in mine.Of(side) {
      WireRoundTrip(turn, mine.Of(side)[turn]);
    } else {
      DrawIsDropped();
    }
  }

  // ---------------------------------------------------------------- local input

  /** The local input polled during a turn: every poll that produced a command overwrites the last. */
  function Type(mail: Mail, side: nat, turn: int, polls: seq<Option<string>>): Mail
    decreases |polls|
  {
    if polls == [] then mail
    else Type(if polls[0].Some? then mail.Post(side, turn, polls[0].value) else mail, side, turn, polls[1..])
  }

  /** The last command among the polls, if any. */
  function LastSaid(polls: seq<Option<string>>): (r: Option<string>)
    ensures r.None? <==> forall i :: 0 <= i < |polls| ==> polls[i].None?
    ensures r.Some? ==> r in polls
  {
    if polls == [] then None
    else if polls[|polls| - 1].Some? then polls[|polls| - 1]
    else
      var front := polls[..|polls| - 1];
      assert forall i :: 0 <= i < |front| ==> front[i] == polls[i];
      assert polls == front + [polls[|polls| - 1]];
      LastSaid(front)
  }

  /** Typing during a turn files commands under that turn only. */
  lemma {:induction false} TypeElsewhere(mail: Mail, side: nat, turn: int, polls: seq<Option<string>>, t: int)
    requires t != turn
    ensures SameAt(Type(mail, side, turn, polls), mail, t)
    decreases |polls|
  {
    if polls != [] {
      var mail1 := if polls[0].Some? then mail.Post(side, turn, polls[0].value) else mail;
      TypeElsewhere(mail1, side, turn, polls[1..], t);
    }
  }

  /** Posting twice under the same turn keeps only the second. */
  lemma PostTwice(mail: Mail, side: nat, turn: int, a: string, b: string)
    ensures mail.Post(side, turn, a).Post(side, turn, b) == mail.Post(side, turn, b)
  {
  }

  /** Of all the polls of a turn, only the last command counts. */
  lemma {:induction false} LastInputWins(mail: Mail, side: nat, turn: int, polls: seq<Option<string>>)
    ensures Type(mail, side, turn, polls) == (match LastSaid(polls) case None => mail case Some(m) => mail.Post(side, turn, m))
    decreases |polls|
  {
    if polls != [] {
      var n := |polls| - 1;
      TypeSplit(mail, side, turn, polls[..n], polls[n]);
      assert polls == polls[..n] + [polls[n]];
      LastInputWins(mail, side, turn, polls[..n]);
      if polls[n].Some? {
        match LastSaid(polls[..n])
        case None =>
        case Some(m) => PostTwice(mail, side, turn, m, polls[n].value);
      }
    }
  }

  lemma {:induction false} TypeSplit(mail: Mail, side: nat, turn: int, polls: seq<Option<string>>, p: Option<string>)
    ensures Type(mail, side, turn, polls + [p]) ==
            (var m := Type(mail, side, turn, polls); if p.Some? then m.Post(side, turn, p.value) else m)
    decreases |polls|
  {
    if polls == [] {
      assert polls + [p] == [p];
    } else {
      assert (polls + [p])[1..] == polls[1..] + [p];
      TypeSplit(if polls[0].Some? then mail.Post(side, turn, polls[0].value) else mail, side, turn, polls[1..], p);
    }
  }

  // ---------------------------------------------------------------- update_all

  /** The three lists update_all walks, in its order. */
  datatype Pass = GeneralPass | EffectPass | MinionPass

  function Listed(w: World, pass: Pass): seq<Id>
  {
    match pass
    case GeneralPass => w.generals
    case EffectPass => w.effects
    case MinionPass => w.minions
  }

  /** The update of one listed thing: Conway's own update for Conway, the general's for the others. */
  function UpdateOne(w: World, pass: Pass, id: Id): (r: Result<World>)
    ensures pass == MinionPass && id in w.units ==> r == MinionUpdate(w, id)
    ensures pass == EffectPass && id in w.fx ==> r == UpdateFx(w, id)
    ensures pass == GeneralPass && IsGeneral(w, id) && !w.units[id].role.g.variant.Conway? ==> r == GeneralUpdate(w, id)
    ensures pass == GeneralPass && Armed(w, id) && w.units[id].role.g.variant.Conway? ==> r == ConwayUpdate(w, id)
  {
    match pass
    case GeneralPass =>
      if !IsGeneral(w, id) then Crash(OutsideModel)
      else if !w.units[id].role.g.variant.Conway? then GeneralUpdate(w, id)
      else if Armed(w, id) then ConwayUpdate(w, id)
      else Crash(OutsideModel)
    case EffectPass => if id in w.fx then UpdateFx(w, id) else Crash(OutsideModel)
    case MinionPass => if id in w.units then MinionUpdate(w, id) else Crash(OutsideModel)
  }

  /**
   * A Python for loop over a list that the loop body may change: the
   * position advances by one and the list is read afresh each time.  A
   * list that grows while it is walked is outside the model.
   */
  function Walk(w: World, pass: Pass, i: nat): (r: Result<World>)
    ensures i >= |Listed(w, pass)| ==> r == Ok(w)
    decreases |Listed(w, pass)| - i
  {
    if i >= |Listed(w, pass)| then Ok(w)
    else
      match UpdateOne(w, pass, Listed(w, pass)[i])
      case Crash(e) => Crash(e)
      case Ok(w1) =>
        if |Listed(w1, pass)| > |Listed(w, pass)| then Crash(OutsideModel)
        else Walk(w1, pass, i + 1)
  }

  /** update_all: the generals, then the effects, then the minions. */
  function UpdateAll(w: World): (r: Result<World>)
    ensures r.Ok? ==> Walk(w, GeneralPass, 0).Ok?
    ensures r.Ok? ==> Walk(Walk(w, GeneralPass, 0).value, EffectPass, 0).Ok?
    ensures r.Ok? ==> r == Walk(Walk(Walk(w, GeneralPass, 0).value, EffectPass, 0).value, MinionPass, 0)
  {
    match Walk(w, GeneralPass, 0)
    case Crash(e) => Crash(e)
    case Ok(w1) =>
      match Walk(w1, EffectPass, 0)
      case Crash(e) => Crash(e)
      case Ok(w2) => Walk(w2, MinionPass, 0)
  }

  /** Things that are all dead are passed over untouched. */
  lemma {:induction false} DeadAreSkipped(w: World, pass: Pass, i: nat)
    requires pass != GeneralPass
    requires forall k :: i <= k < |Listed(w, pass)| ==>
               (pass == EffectPass ==> Listed(w, pass)[k] in w.fx && !w.fx[Listed(w, pass)[k]].alive)
               && (pass == MinionPass ==> Listed(w, pass)[k] in w.units && !w.units[Listed(w, pass)[k]].alive)
    ensures Walk(w, pass, i) == Ok(w)
    decreases |Listed(w, pass)| - i
  {
    if i < |Listed(w, pass)| {
      DeadAreSkipped(w, pass, i + 1);
    }
  }

  // ---------------------------------------------------------------- the loop

  /** The state the loop carries from turn to turn. */
  datatype Session = Session(w: World, mail: Mail, turn: nat, side: nat, winner: Option<Id>)

  /** check_winner, for a world whose generals are all on the field. */
  function Winner(w: World): (r: Result<Option<Id>>)
    ensures (forall k :: 0 <= k < |w.generals| ==> w.generals[k] in w.units) ==> r == CheckWinner(w)
  {
    if forall k :: 0 <= k < |w.generals| ==> w.generals[k] in w.units then CheckWinner(w) else Crash(OutsideModel)
  }

  /** Everything after the commands: update_all, check_winner and the periodic clean_all. */
  function Advance(w: World, turn: nat): (r: Result<(World, Option<Id>)>)
    ensures turn % CleanEvery != 0 && r.Ok? ==> UpdateAll(w).Ok? && r.value.0 == UpdateAll(w).value
    ensures turn % CleanEvery == 0 && r.Ok? ==> UpdateAll(w).Ok? && r.value.0 == CleanAll(UpdateAll(w).value)
  {
    match UpdateAll(w)
    case Crash(e) => Crash(e)
    case Ok(w1) =>
      match Winner(w1)
      case Crash(e) => Crash(e)
      case Ok(v) => Ok((if turn % CleanEvery == 0 then CleanAll(w1) else w1, v))
  }

  /** The rest of a turn once the books are complete: the lagged commands, then Advance. */
  function Finish(s: Session, mail: Mail): (r: Result<Session>)
    ensures r.Ok? ==> r.value.turn == s.turn + 1 && r.value.side == s.side && r.value.mail == mail
    ensures r.Ok? ==> ProcessMessages(s.w, mail, s.turn - TurnLag).Ok?
  {
    match ProcessMessages(s.w, mail, s.turn - TurnLag)
    case Crash(e) => Crash(e)
    case Ok(w1) =>
      match Advance(w1, s.turn)
      case Crash(e) => Crash(e)
      case Ok((w2, v)) => Ok(Session(w2, mail, s.turn + 1, s.side, v))
  }

  /** The opponent's line filed, from turn 1 on. */
  function Heard(s: Session, received: string): (r: Result<Mail>)
    requires s.side <= 1
    ensures s.turn == 0 ==> r == Ok(s.mail)
    ensures s.turn > 0 ==> r == Receive(s.mail, 1 - s.side, received)
  {
    if s.turn > 0 then Receive(s.mail, 1 - s.side, received) else Ok(s.mail)
  }

  /** The books once the turn's input is in: the opponent's line, then the local polls. */
  function Books(s: Session, received: string, polls: seq<Option<string>>): (r: Result<Mail>)
    requires s.side <= 1
    ensures r.Ok? <==> Heard(s, received).Ok?
    ensures r.Ok? ==> r.value == Type(Heard(s, received).value, s.side, s.turn, polls)
  {
    match Heard(s, received)
    case Crash(e) => Crash(e)
    case Ok(mail1) => Ok(Type(mail1, s.side, s.turn, polls))
  }

  /**
   * One pass of the loop for the given side: the opponent's line for the
   * turn (from the network or the local AI, and only after turn 0), the
   * local polls, the commands filed TurnLag turns ago, and the rest.
   */
  function Step(s: Session, received: string, polls: seq<Option<string>>): (r: Result<Session>)
    requires s.side <= 1
    ensures r.Ok? ==> r.value.turn == s.turn + 1 && r.value.side == s.side
    ensures r.Ok? ==> Books(s, received, polls).Ok? && r.value.mail == Books(s, received, polls).value
  {
    match Books(s, received, polls)
    case Crash(e) => Crash(e)
    case Ok(mail) => Finish(s, mail)
  }

  /**
   * The turn lag: whatever the local player types during a turn is filed
   * under that turn, so the commands the turn carries out are the same as
   * if nothing had been typed; it acts on the next turn only.
   */
  lemma TypingActsNextTurn(s: Session, received: string, polls: seq<Option<string>>)
    requires s.side <= 1
    ensures Books(s, received, polls).Ok? == Books(s, received, []).Ok?
    ensures Books(s, received, polls).Ok? ==>
              SameAt(Books(s, received, polls).value, Books(s, received, []).value, s.turn - TurnLag)
  {
    match Heard(s, received)
    case Crash(_) =>
    case Ok(mail1) =>
      TypeElsewhere(mail1, s.side, s.turn, polls, s.turn - TurnLag);
  }

  /**
   * The same for the opponent: the AI's answer for this turn is filed
   * under this turn, so the turn carries out the same commands as if the
   * AI had answered nothing.
   */
  lemma AiActsNextTurn(s: Session, ai: string, polls: seq<Option<string>>)
    requires s.side <= 1 && s.turn > 0 && ai != "" && '#' !in ai
    ensures Books(s, AiReceived(s.turn, Some(ai)), polls).Ok? && Books(s, "D", polls).Ok?
    ensures SameAt(Books(s, AiReceived(s.turn, Some(ai)), polls).value, Books(s, "D", polls).value, s.turn - TurnLag)
  {
    var t := s.turn - TurnLag;
    var mail1 := s.mail.Post(1 - s.side, s.turn, ai);
    var a := Type(mail1, s.side, s.turn, polls);
    var b := Type(s.mail, s.side, s.turn, polls);
    AiLineHeard(s, ai);
    assert Books(s, "D", polls) == Ok(b) by {
      DrawIsDropped();
      assert Heard(s, "D") == Ok(s.mail);
    }
    TypeElsewhere(mail1, s.side, s.turn, polls, t);
    TypeElsewhere(s.mail, s.side, s.turn, polls, t);
    PostElsewhere(s.mail, 1 - s.side, s.turn, ai, t);
    SameAtChain(a, mail1, s.mail, b, t);
  }

  /** The AI's answer, once received, is filed in the opponent's book under the turn it was given. */
  lemma AiLineHeard(s: Session, ai: string)
    requires s.side <= 1 && s.turn > 0 && ai != "" && '#' !in ai
    ensures Heard(s, AiReceived(s.turn, Some(ai))) == Ok(s.mail.Post(1 - s.side, s.turn, ai))
  {
    var line := Show(s.turn) + "#" + ai;
    assert AiReceived(s.turn, Some(ai)) == line;
    WireRoundTrip(s.turn, ai);
    assert Receive(s.mail, 1 - s.side, line) == Ok(s.mail.Post(1 - s.side, s.turn, ai));
  }

  /** SameAt chains: a matches b through two intermediate books. */
  lemma SameAtChain(a: Mail, m1: Mail, m2: Mail, b: Mail, t: int)
    requires SameAt(a, m1, t) && SameAt(m1, m2, t) && SameAt(b, m2, t)
    ensures SameAt(a, b, t)
  {
  }

  /** The loop: steps while nobody has won, one input per turn; it stops early when a general falls. */
  function Run(s: Session, inputs: seq<(string, seq<Option<string>>)>): (r: Result<Session>)
    requires s.side <= 1
    ensures r.Ok? ==> r.value.side == s.side && s.turn <= r.value.turn <= s.turn + |inputs|
    ensures r.Ok? && r.value.turn < s.turn + |inputs| ==> r.value.winner.Some?
    ensures s.winner.Some? ==> r == Ok(s)
    decreases |inputs|
  {
    if s.winner.Some? || inputs == [] then Ok(s)
    else
      match Step(s, inputs[0].0, inputs[0].1)
      case Crash(e) => Crash(e)
      case Ok(s1) => Run(s1, inputs[1..])
  }
}
