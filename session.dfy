/** A session: the game loop's passes interleaved with touches, as one sequence
    of events applied in order. */
module Session {
  import opened Game
  import GameProperties

  /** One pass of the loop, with the milliseconds it took, or one touch. */
  datatype Event = Tick(elapsed: int) | Touch(action: TouchAction, touchX: real)

  /** An unpaused pass divides by the measured frame rate, which must then be positive. */
  predicate Ready(g: GameState, e: Event)
  {
    e.Tick? ==> g.paused || g.fps > 0
  }

  /** One event: a pass of the loop or a touch. */
  function Apply(g: GameState, e: Event): (r: GameState)
    requires Ready(g, e)
    ensures r.screenX == g.screenX && r.screenY == g.screenY
    ensures e.Tick? ==> r.fps == FpsStep(g.fps, e.elapsed)
    ensures e.Touch? ==> r.fps == g.fps && r.score == g.score && r.lives == g.lives
  {
    match e
    case Tick(elapsed) => Ticked(g, elapsed)
    case Touch(action, touchX) => Touched(g, action, touchX)
  }

  /** Every pass of the session finds a usable frame rate. */
  ghost predicate Playable(g: GameState, events: seq<Event>)
    decreases |events|
  {
    |events| == 0 || (Ready(g, events[0]) && Playable(Apply(g, events[0]), events[1..]))
  }

  /** The events applied in order; the screen never changes. */
  ghost function Play(g: GameState, events: seq<Event>): (r: GameState)
    requires Playable(g, events)
    ensures |events| == 0 ==> r == g
    ensures r.screenX == g.screenX && r.screenY == g.screenY
    decreases |events|
  {
    if |events| == 0 then g else Play(Apply(g, events[0]), events[1..])
  }

  /** One event keeps the round invariant and moves the score by at most one
      point up, or back to zero. */
  lemma ApplyKeepsRound(g: GameState, e: Event)
    requires Ready(g, e)
    ensures InRound(g) ==> InRound(Apply(g, e))
    ensures Apply(g, e).score == 0 || Apply(g, e).score == g.score || Apply(g, e).score == g.score + 1
  {
    match e
    case Tick(elapsed) =>
    case Touch(action, touchX) =>
      assert Touched(g, action, touchX).(paused := g.paused, bat := g.bat) == g;
  }

  /** Over a whole session the player always has between one and three lives and
      a non-negative score. */
  lemma {:induction false} PlayKeepsRound(g: GameState, events: seq<Event>)
    requires Playable(g, events) && InRound(g)
    ensures InRound(Play(g, events))
    decreases |events|
  {
    if |events| > 0 {
      ApplyKeepsRound(g, events[0]);
      PlayKeepsRound(Apply(g, events[0]), events[1..]);
    }
  }

  /** The score never grows by more than one point per event. */
  lemma {:induction false} ScoreAtMostOnePerEvent(g: GameState, events: seq<Event>)
    requires Playable(g, events) && g.score >= 0
    ensures 0 <= Play(g, events).score <= g.score + |events|
    decreases |events|
  {
    if |events| > 0 {
      ApplyKeepsRound(g, events[0]);
      ScoreAtMostOnePerEvent(Apply(g, events[0]), events[1..]);
    }
  }

  /** A pass of at most one second, or a touch, keeps a positive frame rate positive. */
  lemma ApplyKeepsFpsPositive(g: GameState, e: Event)
    requires g.fps > 0 && (e.Tick? ==> e.elapsed <= MillisInSecond)
    ensures Ready(g, e) && Apply(g, e).fps > 0
  {
    match e
    case Tick(elapsed) =>
      GameProperties.FpsStaysPositive(g.fps, elapsed);
    case Touch(action, touchX) =>
      assert Touched(g, action, touchX).(paused := g.paused, bat := g.bat) == g;
  }

  /** Every pass of at most one second keeps a positive frame rate positive, so a
      session that starts with one and has no slower pass never divides by zero. */
  lemma {:induction false} ShortFramesArePlayable(g: GameState, events: seq<Event>)
    requires g.fps > 0
    requires forall i :: 0 <= i < |events| && events[i].Tick? ==> events[i].elapsed <= MillisInSecond
    ensures Playable(g, events)
    decreases |events|
  {
    if |events| > 0 {
      ApplyKeepsFpsPositive(g, events[0]);
      var rest := events[1..];
      forall i | 0 <= i < |rest| && rest[i].Tick?
        ensures rest[i].elapsed <= MillisInSecond
      {
        assert rest[i] == events[i + 1];
      }
      ShortFramesArePlayable(Apply(g, events[0]), rest);
    }
  }

  /** A pass slower than one second while paused, then a press, then any pass:
      the last pass would divide by a frame rate of zero. */
  lemma SlowPassThenPressStalls(g: GameState, touchX: real, elapsed: int)
    requires g.paused
    ensures !Playable(g, [Tick(2000), Touch(ActionDown, touchX), Tick(elapsed)])
  {
    var events := [Tick(2000), Touch(ActionDown, touchX), Tick(elapsed)];
    GameProperties.SlowFrameGivesZeroFps(g.fps, 2000);
    var g1 := Apply(g, events[0]);
    assert g1.fps == 0 && g1.paused;
    var g2 := Apply(g1, events[1]);
    assert g2.fps == 0 && !g2.paused;
    assert !Playable(g2, [Tick(elapsed)]);
    assert events[1..][1..] == [Tick(elapsed)];
    assert !Playable(g1, events[1..]);
  }

  /** A freshly constructed game has measured no frame rate yet; a press before any
      pass of 1 to 1000 ms leaves it at 0, so the next pass cannot run. */
  lemma PressBeforeFirstFrameStalls(x: int, y: int, count: int, touchX: real, elapsed: int)
    ensures NewGame(Built(x, y, count)).fps == 0
    ensures !Playable(NewGame(Built(x, y, count)), [Touch(ActionDown, touchX), Tick(elapsed)])
  {
    var g := NewGame(Built(x, y, count));
    var events := [Touch(ActionDown, touchX), Tick(elapsed)];
    var g1 := Apply(g, events[0]);
    assert g1.fps == 0 && !g1.paused;
    assert events[1..] == [Tick(elapsed)];
    assert !Ready(g1, Tick(elapsed));
  }
}
