/**
 * The sprite animator (sprite_animator.py): a four-state machine that
 * plays each state's four-frame ping-pong sequence (base, frame 0,
 * frame 1, frame 0), one frame every few ticks.  Idle and walking loop;
 * attacking and flinching play once.  Flinching interrupts anything and
 * remembers what it interrupted; nothing else interrupts a one-shot
 * animation.
 *
 * When a one-shot animation runs off its last frame, the original asks to
 * go back to the remembered state, but that request is itself refused by
 * the "do not interrupt a one-shot animation" guard, so the frame index
 * runs past the sequence.  `AsWritten` keeps that behaviour; `Corrected`
 * hands the one-shot animation over to the remembered state.
 */
module Animator {
  import opened Wrappers

  datatype AnimState = Idle | Walking | Attacking | Flinch

  /** Ticks each frame of a state is shown for. */
  function Duration(s: AnimState): (d: nat)
    ensures d >= 2
  {
    match s
    case Idle => 8
    case Walking => 4
    case Attacking => 3
    case Flinch => 2
  }

  predicate Looping(s: AnimState)
  {
    s.Idle? || s.Walking?
  }

  /** A frame of a sequence: the base sprite, or frame `idx` of the strip named `anim`. */
  datatype FrameKey = Base | Frame(anim: string, idx: nat)

  /** The sprite-sheet strip each state draws on. */
  function StripName(s: AnimState): string
  {
    match s
    case Idle => "breathe"
    case Walking => "walk"
    case Attacking => "attack"
    case Flinch => "flinch"
  }

  const SequenceLength: nat := 4

  /** The ping-pong sequence of a state: base, frame 0, frame 1, frame 0. */
  function Sequence(s: AnimState): (q: seq<FrameKey>)
    ensures |q| == SequenceLength
    ensures q[0] == Base && q[1] == q[3] && q[1] != q[2]
    ensures forall i :: 1 <= i < |q| ==> q[i].Frame? && q[i].anim == StripName(s) && q[i].idx < 2
  {
    var n := StripName(s);
    [Base, Frame(n, 0), Frame(n, 1), Frame(n, 0)]
  }

  /** An image handle; what the images are does not matter to the animator. */
  type Image = nat

  /** A sprite-sheet entry: a single image (the base) or a strip of frames. */
  datatype Entry = Single(image: Image) | Strip(images: seq<Image>)

  /** The animator's state.  The unused ping-pong direction flag is not kept. */
  datatype SpriteAnimator = SpriteAnimator(sheet: map<string, Entry>, current: AnimState, previous: AnimState,
                               timer: nat, index: nat)

  /** The two readings of what happens when a one-shot animation ends. */
  datatype Version = AsWritten | Corrected

  /** A fresh animator: idle, at the first frame, having interrupted nothing. */
  function New(sheet: map<string, Entry>): (a: SpriteAnimator)
    ensures a.current == Idle && a.previous == Idle && a.timer == 0 && a.index == 0
    ensures Good(a)
  {
    SpriteAnimator(sheet, Idle, Idle, 0, 0)
  }

  /** The index names a frame of the current sequence and the timer is short of that state's duration. */
  predicate Good(a: SpriteAnimator)
  {
    a.index < SequenceLength && a.timer < Duration(a.current)
  }

  /**
   * transition_to: asking for the current state changes nothing; flinching
   * always starts over and remembers the interrupted state; any other
   * request is refused while a one-shot animation plays, and otherwise
   * starts the new state from its first frame.
   */
  function TransitionTo(a: SpriteAnimator, s: AnimState): (r: SpriteAnimator)
    ensures s == a.current ==> r == a
    ensures s != a.current && s.Flinch? ==> r == a.(current := Flinch, previous := a.current, index := 0, timer := 0)
    ensures s != a.current && !s.Flinch? && !Looping(a.current) ==> r == a
    ensures s != a.current && !s.Flinch? && Looping(a.current) ==> r == a.(current := s, index := 0, timer := 0)
    ensures r.previous != a.previous ==> s.Flinch?
    ensures r.sheet == a.sheet
    ensures Good(a) ==> Good(r)
  {
    if s == a.current then a
    else if !s.Flinch? && !Looping(a.current) then a
    else
      var prev := if s.Flinch? then a.current else a.previous;
      a.(current := s, previous := prev, index := 0, timer := 0)
  }

  /** Asking twice for the same state is the same as asking once. */
  lemma TransitionIdempotent(a: SpriteAnimator, s: AnimState)
    ensures TransitionTo(TransitionTo(a, s), s) == TransitionTo(a, s)
  {
  }

  /** A one-shot animation that has not run out ignores every request except flinching. */
  lemma OneShotHoldsUnlessFlinch(a: SpriteAnimator, s: AnimState)
    requires !Looping(a.current)
    ensures TransitionTo(a, s) != a ==> s.Flinch? && !a.current.Flinch?
  {
  }

  /**
   * _advance_frame: the next frame of the sequence; off the end a looping
   * state wraps to the first frame, and a one-shot state asks to go back
   * to the state it interrupted.  As written that request goes through
   * `TransitionTo` and is refused unless it is a flinch; corrected, the
   * animation hands over to the interrupted state, which it stops
   * remembering.
   */
  function AdvanceFrame(a: SpriteAnimator, v: Version): (r: SpriteAnimator)
    ensures r.sheet == a.sheet
    ensures a.index + 1 < SequenceLength ==> r == a.(index := a.index + 1)
    ensures Looping(a.current) && a.index < SequenceLength ==>
              r.current == a.current && r.index == (a.index + 1) % SequenceLength
    ensures v.Corrected? && !Looping(a.current) && a.index + 1 >= SequenceLength ==>
              r.current == a.previous && r.index == 0 && r.timer == 0
  {
    var next := a.index + 1;
    if next < SequenceLength then a.(index := next)
    else if Looping(a.current) then a.(index := 0)
    else
      match v
      case AsWritten => TransitionTo(a.(index := next), a.previous)
      case Corrected => a.(current := a.previous, previous := Idle, index := 0, timer := 0)
  }

  /** update: one tick; once the tick count reaches the state's duration the timer restarts and exactly one frame passes. */
  function Update(a: SpriteAnimator, v: Version): (r: SpriteAnimator)
    ensures r.sheet == a.sheet
    ensures a.timer + 1 < Duration(a.current) ==> r == a.(timer := a.timer + 1)
    ensures a.timer + 1 >= Duration(a.current) ==> r == AdvanceFrame(a.(timer := 0), v)
  {
    var t := a.timer + 1;
    if t >= Duration(a.current) then AdvanceFrame(a.(timer := 0), v) else a.(timer := t)
  }

  /** n ticks in a row. */
  function UpdateN(a: SpriteAnimator, n: nat, v: Version): (r: SpriteAnimator)
    ensures r.sheet == a.sheet
    decreases n
  {
    if n == 0 then a else Update(UpdateN(a, n - 1, v), v)
  }

  /**
   * get_current_sprite: nothing without a sprite sheet; otherwise the
   * sheet's base image, or the named frame of the named strip.  Every
   * lookup the original does can fail: the frame index past the
   * sequence, a missing key, a frame past the strip, or indexing a
   * single image.
   */
  function CurrentSprite(a: SpriteAnimator): (r: Result<Option<Entry>>)
    ensures |a.sheet| == 0 ==> r == Ok(None)
    ensures |a.sheet| > 0 && a.index >= SequenceLength ==> r == Crash("IndexError")
    ensures r.Ok? && r.value.Some? && a.index != 0 ==>
              var k := Sequence(a.current)[a.index];
              k.anim in a.sheet && a.sheet[k.anim].Strip? && k.idx < |a.sheet[k.anim].images| &&
              r.value.value == Single(a.sheet[k.anim].images[k.idx])
  {
    if |a.sheet| == 0 then Ok(None)
    else if a.index >= SequenceLength then Crash("IndexError")
    else
      match Sequence(a.current)[a.index]
      case Base =>
        if "base" in a.sheet then Ok(Some(a.sheet["base"])) else Crash("KeyError")
      case Frame(n, k) =>
        if n !in a.sheet then Crash("KeyError")
        else
          match a.sheet[n]
          case Single(_) => Crash("TypeError")
          case Strip(images) => if k < |images| then Ok(Some(Single(images[k]))) else Crash("IndexError")
  }

  /** A sheet holding everything the four sequences look up: a base image and two-frame strips. */
  predicate Complete(sheet: map<string, Entry>)
  {
    && "base" in sheet && sheet["base"].Single?
    && forall s: AnimState :: StripName(s) in sheet && sheet[StripName(s)].Strip? && |sheet[StripName(s)].images| >= 2
  }

  /** With a complete sheet, a good animator always has a sprite to show. */
  lemma SpriteAvailable(a: SpriteAnimator)
    requires Complete(a.sheet) && Good(a)
    ensures CurrentSprite(a).Ok? && CurrentSprite(a).value.Some?
    ensures CurrentSprite(a).value.value.Single?
  {
    assert StripName(a.current) in a.sheet;
  }

  /** Corrected, every tick keeps the animator good, whatever state it is in. */
  lemma UpdateKeepsGood(a: SpriteAnimator)
    requires Good(a)
    ensures Good(Update(a, Corrected))
  {
  }

  /** As written, a tick keeps a looping animator good. */
  lemma LoopingUpdateKeepsGood(a: SpriteAnimator, v: Version)
    requires Good(a) && Looping(a.current)
    ensures Good(Update(a, v)) && Update(a, v).current == a.current
  {
  }

  /** Corrected, the animator stays good for any number of ticks. */
  lemma {:induction false} AlwaysGood(a: SpriteAnimator, n: nat)
    requires Good(a)
    ensures Good(UpdateN(a, n, Corrected))
    decreases n
  {
    if n > 0 {
      AlwaysGood(a, n - 1);
      UpdateKeepsGood(UpdateN(a, n - 1, Corrected));
    }
  }

  /** Ticks short of the duration only count. */
  lemma {:induction false} Ticks(a: SpriteAnimator, j: nat, v: Version)
    requires a.timer == 0 && j < Duration(a.current)
    ensures UpdateN(a, j, v) == a.(timer := j)
    decreases j
  {
    if j > 0 {
      Ticks(a, j - 1, v);
    }
  }

  /** From a fresh timer, a state's duration in ticks advances exactly one frame. */
  lemma OneFrame(a: SpriteAnimator, v: Version)
    requires a.timer == 0
    ensures UpdateN(a, Duration(a.current), v) == AdvanceFrame(a, v)
  {
    Ticks(a, Duration(a.current) - 1, v);
    assert a.(timer := Duration(a.current) - 1).(timer := 0) == a;
  }

  /** Running n ticks and then m ticks is running n + m ticks. */
  lemma {:induction false} UpdateNAdd(a: SpriteAnimator, n: nat, m: nat, v: Version)
    ensures UpdateN(UpdateN(a, n, v), m, v) == UpdateN(a, n + m, v)
    decreases m
  {
    if m > 0 {
      UpdateNAdd(a, n, m - 1, v);
    }
  }

  /** A looping state at a frame boundary comes back to where it was after four frames. */
  lemma LoopPeriod(a: SpriteAnimator, v: Version)
    requires Good(a) && Looping(a.current) && a.timer == 0
    ensures UpdateN(a, SequenceLength * Duration(a.current), v) == a
  {
    var d := Duration(a.current);
    var a1 := UpdateN(a, d, v);
    OneFrame(a, v);
    var a2 := UpdateN(a1, d, v);
    OneFrame(a1, v);
    var a3 := UpdateN(a2, d, v);
    OneFrame(a2, v);
    var a4 := UpdateN(a3, d, v);
    OneFrame(a3, v);
    UpdateNAdd(a, d, d, v);
    UpdateNAdd(a, 2 * d, d, v);
    UpdateNAdd(a, 3 * d, d, v);
  }

  /**
   * As written, a one-shot animation at its last frame that did not
   * interrupt a flinch keeps its state when the frame runs out, and the
   * index leaves the sequence: the next sprite lookup fails.
   */
  lemma OneShotOverruns(a: SpriteAnimator)
    requires Good(a) && !Looping(a.current) && !a.previous.Flinch?
    requires a.index == SequenceLength - 1 && a.timer == 0
    ensures var b := UpdateN(a, Duration(a.current), AsWritten);
            b.current == a.current && b.index == SequenceLength && !Good(b)
    ensures |a.sheet| > 0 ==> CurrentSprite(UpdateN(a, Duration(a.current), AsWritten)) == Crash("IndexError")
  {
    OneFrame(a, AsWritten);
  }

  /** Corrected, the same animation hands over to the state it interrupted, at its first frame. */
  lemma OneShotReturns(a: SpriteAnimator)
    requires Good(a) && !Looping(a.current)
    requires a.index == SequenceLength - 1 && a.timer == 0
    ensures var b := UpdateN(a, Duration(a.current), Corrected);
            b.current == a.previous && b.index == 0 && Good(b)
  {
    OneFrame(a, Corrected);
  }

  /** The plainest case: an attack started from a fresh animator overruns after its twelve ticks. */
  lemma AttackFromFreshOverruns(sheet: map<string, Entry>)
    requires |sheet| > 0
    ensures var a := TransitionTo(New(sheet), Attacking);
            CurrentSprite(UpdateN(a, 12, AsWritten)) == Crash("IndexError")
  {
    var a := TransitionTo(New(sheet), Attacking);
    var a1 := UpdateN(a, 3, AsWritten);
    OneFrame(a, AsWritten);
    var a2 := UpdateN(a1, 3, AsWritten);
    OneFrame(a1, AsWritten);
    var a3 := UpdateN(a2, 3, AsWritten);
    OneFrame(a2, AsWritten);
    OneShotOverruns(a3);
    UpdateNAdd(a, 3, 3, AsWritten);
    UpdateNAdd(a, 6, 3, AsWritten);
    UpdateNAdd(a, 9, 3, AsWritten);
  }
}
