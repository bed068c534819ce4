/**
  The blinds as things that move.  A timer that expires is one step here and a cancellation is always in
  time; in exchange every timer has a time left and every blind a height, driven at unit rate by its two
  relays between 0 (down) and its travel time, which is at most FAHRZEIT.  A timer never expires early
  but may expire late.
*/
module BlindMotion {
  import opened Blinds
  import opened BlindSafety

  datatype World = World(s: State, left: map<nat, int>, height: seq<int>, travel: seq<int>)

  /** The controller moves to `s`: threads that are new start with their full time. */
  function Timed(w: World, s: State): World {
    w.(s := s, left := map id | id in s.timers :: if id in w.left then w.left[id] else s.timers[id].time)
  }

  function Min(a: int, b: int): int { if a < b then a else b }

  function Max(a: int, b: int): int { if a < b then b else a }

  predicate Sized(w: World) {
    Shape(w.s) && |w.height| == |w.travel| == 4
  }

  /** Where blind `j` is after `dt` microseconds with its relays as they are. */
  function Moved(w: World, j: nat, dt: nat): int
    requires Sized(w) && j < 4
  {
    var down, up := w.s.relay[2 * j], w.s.relay[2 * j + 1];
    if up && !down then Min(w.travel[j], w.height[j] + dt)
    else if down && !up then Max(0, w.height[j] - dt)
    else w.height[j]
  }

  // ---------------------------------------------------------------- steps

  datatype Event = CommandEvent(c: Command, j: nat, ok: bool) | PassEvent(dt: nat) | ExpireEvent(id: nat, ok: bool) | ResetEvent

  predicate Enabled(w: World, e: Event)
    requires Sized(w)
  {
    match e
    case CommandEvent(c, j, _) => j < 4 && GoodCommand(c)
    case PassEvent(dt) => true
    case ExpireEvent(id, _) => id in w.s.timers && id in w.left && w.left[id] <= 0 && w.s.timers[id].blind < 4
    case ResetEvent => true
  }

  function Step(w: World, e: Event): (v: World)
    requires Sized(w) && Enabled(w, e)
    ensures Sized(v)
  {
    match e
    case CommandEvent(c, j, ok) => Timed(w, Do(w.s, c, j, Env(true, ok, 0)))
    case PassEvent(dt) =>
      w.(left := map id | id in w.left :: w.left[id] - dt,
         height := [Moved(w, 0, dt), Moved(w, 1, dt), Moved(w, 2, dt), Moved(w, 3, dt)])
    case ExpireEvent(id, ok) => Timed(w, Finish(Wake(w.s, id), id, Env(true, ok, 0)))
    case ResetEvent => Timed(w, Reset(w.s))
  }

  predicate IsRun(w: World, es: seq<Event>)
    requires Sized(w)
    decreases |es|
  {
    es == [] || (Enabled(w, es[0]) && IsRun(Step(w, es[0]), es[1..]))
  }

  function Run(w: World, es: seq<Event>): (v: World)
    requires Sized(w) && IsRun(w, es)
    ensures Sized(v)
    decreases |es|
  {
    if es == [] then w else Run(Step(w, es[0]), es[1..])
  }

  // ---------------------------------------------------------------- the invariant

  predicate BlindFits(w: World, j: nat)
    requires Sized(w) && j < 4
  {
    && 0 < w.travel[j] <= FAHRZEIT && 0 <= w.height[j] <= w.travel[j]
    && (w.s.position[j] != UNDEF ==> w.s.drvstate[j] == STOP)
    && (w.s.position[j] == Auf ==> w.height[j] == w.travel[j])
    && (w.s.position[j] == Ab ==> w.height[j] == 0)
  }

  /** A timer that runs is the recorded one of its blind, and its blind has come as far as the time says. */
  predicate TimerFits(w: World, id: nat)
    requires Sized(w)
  {
    id in w.s.timers ==>
      var t := w.s.timers[id];
      && !t.awake && t.blind < 4 && id in w.left && w.left[id] <= t.time
      && w.s.thr[t.blind] == id && w.s.drvstate[t.blind] == t.direction
      && (t.sun ==> t.direction == Ab && FAHRZEIT <= t.time <= FAHRZEIT + 2400000)
      && (t.direction == Auf ==> w.height[t.blind] >= Min(w.travel[t.blind], t.time - w.left[id]))
      && (t.direction == Ab ==> w.height[t.blind] <= Max(0, w.travel[t.blind] - (t.time - w.left[id])))
  }

  ghost predicate Motion(w: World) {
    && Sized(w) && Inv(w.s)
    && w.left.Keys == w.s.timers.Keys
    && (forall j: nat :: j < 4 ==> BlindFits(w, j))
    && (forall id :: TimerFits(w, id))
  }

  // ---------------------------------------------------------------- commands keep it

  /** Two moves of the controller in a row: threads that survive keep their time. */
  lemma TimedTwice(w: World, a: State, b: State)
    requires forall id :: id in b.timers && id in w.left ==> id in a.timers
    requires forall id :: id in b.timers && id in a.timers ==> a.timers[id].time == b.timers[id].time
    ensures Timed(Timed(w, a), b) == Timed(w, b)
  {
  }

  lemma TimedSame(w: World)
    requires w.left.Keys == w.s.timers.Keys
    ensures Timed(w, w.s) == w
  {
    assert Timed(w, w.s).left == w.left;
  }

  lemma StopFits(w: World, j: nat, env: Env)
    requires Motion(w) && j < 4 && env.hit
    ensures Motion(Timed(w, PStop(w.s, j, env)))
    ensures forall id :: id in PStop(w.s, j, env).timers ==> id in w.s.timers && PStop(w.s, j, env).timers[id] == w.s.timers[id] && w.s.timers[id].blind != j
  {
    var t := PStop(w.s, j, env);
    var v := Timed(w, t);
    StopKeeps(w.s, j, env);
    assert BlindOk(w.s, j);
    forall id
      ensures TimerFits(v, id)
      ensures id in t.timers ==> w.s.timers[id].blind != j
    {
      assert TimerFits(w, id);
      assert TimerOk(w.s, id);
    }
    forall k: nat | k < 4
      ensures BlindFits(v, k)
    {
      assert BlindFits(w, k);
    }
    assert v.left.Keys == t.timers.Keys;
  }

  lemma DrvFits(w: World, j: nat, direction: Course, time: int, sun: bool, env: Env)
    requires Motion(w) && j < 4 && direction != STOP && w.s.drvstate[j] == STOP && time >= 0
    requires sun ==> direction == Ab && FAHRZEIT <= time <= FAHRZEIT + 2400000
    ensures Motion(Timed(w, Drv(w.s, j, direction, time, sun, env)))
  {
    var t := Drv(w.s, j, direction, time, sun, env);
    var v := Timed(w, t);
    DrvKeeps(w.s, j, direction, time, sun, env);
    assert TimerOk(w.s, w.s.next);
    forall id
      ensures TimerFits(v, id)
    {
      assert TimerFits(w, id);
      assert TimerOk(w.s, id);
      assert BlindFits(w, j);
    }
    forall k: nat | k < 4
      ensures BlindFits(v, k)
    {
      assert BlindFits(w, k);
    }
    assert v.left.Keys == t.timers.Keys;
  }

  lemma OffsetFits(w: World)
    requires Motion(w)
    ensures Motion(Timed(w, NextOffset(w.s)))
  {
    var v := Timed(w, NextOffset(w.s));
    OffsetKeeps(w.s);
    TimedSame(w);
    assert forall k: nat :: k < 4 && BlindFits(w, k) ==> BlindFits(v, k);
    assert forall id :: TimerFits(w, id) ==> TimerFits(v, id);
  }

  lemma PDriveFits(w: World, j: nat, direction: Course, time: int, env: Env)
    requires Motion(w) && j < 4 && direction != STOP && time >= 0 && env.hit
    ensures Motion(Timed(w, PDrive(w.s, j, direction, time, env)))
  {
    if w.s.drvstate[j] == direction {
      TimedSame(w);
    } else {
      var t := PStop(w.s, j, env);
      StopFits(w, j, env);
      StopKeeps(w.s, j, env);
      if t.position[j] != direction {
        DrvFits(Timed(w, t), j, direction, time, false, env);
        DrvTimes(w, t, j, direction, time, false, env);
      }
    }
  }

  lemma DrvTimes(w: World, t: State, j: nat, direction: Course, time: int, sun: bool, env: Env)
    requires Motion(w) && Shape(t) && j < 4 && direction != STOP && t.next == w.s.next
    requires forall id :: id in t.timers ==> id in w.s.timers
    ensures Timed(Timed(w, t), Drv(t, j, direction, time, sun, env)) == Timed(w, Drv(t, j, direction, time, sun, env))
  {
    assert TimerOk(w.s, w.s.next);
    forall id | id in t.timers
      ensures id < t.next
    {
      assert TimerOk(w.s, id);
    }
    TimedTwice(w, t, Drv(t, j, direction, time, sun, env));
  }

  lemma SonneFits(w: World, j: nat, env: Env)
    requires Motion(w) && j < 4 && env.hit
    ensures Motion(Timed(w, DrvSonne(w.s, j, env)))
  {
    var t := PStop(w.s, j, env);
    StopFits(w, j, env);
    StopKeeps(w.s, j, env);
    var v := Timed(w, t);
    if t.position[j] == Ab {
      DrvFits(v, j, Auf, SONNENZEIT, false, env);
      DrvTimes(w, t, j, Auf, SONNENZEIT, false, env);
    } else {
      var u := NextOffset(t);
      OffsetFits(v);
      TimedTwice(w, t, u);
      DrvFits(Timed(w, u), j, Ab, FullTime(u), true, env);
      DrvTimes(w, u, j, Ab, FullTime(u), true, env);
    }
  }

  lemma CommandFits(w: World, c: Command, j: nat, ok: bool)
    requires Motion(w) && j < 4 && GoodCommand(c)
    ensures Motion(Timed(w, Do(w.s, c, j, Env(true, ok, 0))))
  {
    var env := Env(true, ok, 0);
    match c
    case DriveCmd(d) => FullDriveFits(w, j, d, env);
    case ImpulseCmd(d, time) => PDriveFits(w, j, d, time, env);
    case ToggleCmd(d) =>
      FullDriveFits(w, j, d, env);
      StopFits(w, j, env);
    case SunCmd => SonneFits(w, j, env);
    case StopCmd => StopFits(w, j, env);
  }

  lemma FullDriveFits(w: World, j: nat, d: Course, env: Env)
    requires Motion(w) && j < 4 && d != STOP && env.hit
    ensures Motion(Timed(w, Drive(w.s, j, d, env)))
  {
    var t := NextOffset(w.s);
    OffsetFits(w);
    PDriveFits(Timed(w, t), j, d, FullTime(t), env);
    TimedSame(w);
    assert Timed(Timed(w, t), Drive(w.s, j, d, env)) == Timed(w, Drive(w.s, j, d, env));
  }

  // ---------------------------------------------------------------- time and timers keep it

  lemma PassFits(w: World, dt: nat)
    requires Motion(w) && Enabled(w, PassEvent(dt))
    ensures Motion(Step(w, PassEvent(dt)))
  {
    var v := Step(w, PassEvent(dt));
    forall k: nat | k < 4
      ensures BlindFits(v, k) && v.height[k] == Moved(w, k, dt)
    {
      assert BlindFits(w, k) && BlindOk(w.s, k);
    }
    forall id
      ensures TimerFits(v, id)
    {
      assert TimerFits(w, id);
      if id in w.s.timers {
        var j := w.s.timers[id].blind;
        assert BlindFits(w, j) && BlindOk(w.s, j);
        assert v.height[j] == Moved(w, j, dt);
      }
    }
    assert v.left.Keys == w.left.Keys;
  }

  function Ended(s: State, id: nat): State {
    s.(timers := s.timers - {id})
  }

  /** The world in the middle of an expiry: the drive is over, its thread gone, its position claimed. */
  function Arrived(s: State, id: nat, env: Env): (t: State)
    requires Shape(s) && id in s.timers && s.timers[id].blind < 4
    ensures Shape(t)
  {
    Ended(PStop(Wake(s, id), s.timers[id].blind, env), id)
  }

  lemma DrvThenEnd(s: State, j: nat, direction: Course, time: int, sun: bool, env: Env, id: nat)
    requires Shape(s) && j < 4 && direction != STOP && id < s.next
    ensures Ended(Drv(s, j, direction, time, sun, env), id) == Drv(Ended(s, id), j, direction, time, sun, env)
  {
    var x := Timer(j, time, direction, sun, false);
    assert s.timers[s.next := x] - {id} == (s.timers - {id})[s.next := x];
  }

  /** A thread that ends after calling back in might as well have ended before. */
  lemma FinishIsArrival(s: State, id: nat, env: Env)
    requires Inv(s) && id in s.timers && s.timers[id].blind < 4 && s.thr[s.timers[id].blind] == id && s.drvstate[s.timers[id].blind] != STOP
    ensures var t := s.timers[id];
      Finish(Wake(s, id), id, env) == if t.sun then DrvSonne(Arrived(s, id, env), t.blind, env) else Arrived(s, id, env)
  {
    hide Drv, SetRelay;
    assert TimerOk(s, id);
    var j := s.timers[id].blind;
    var a := PStop(Wake(s, id), j, env);
    assert a.drvstate[j] == STOP && a.next == s.next && id < a.next by { StopIsOff(Wake(s, id), j, env); }
    assert PStop(a, j, env) == a && Arrived(s, id, env) == Ended(a, id);
    if s.timers[id].sun {
      DrvThenEnd(a, j, Auf, SONNENZEIT, false, env, id);
      DrvThenEnd(NextOffset(a), j, Ab, FullTime(NextOffset(a)), true, env, id);
    }
  }

  lemma StopIsOff(s: State, j: nat, env: Env)
    requires Shape(s) && j < 4
    ensures PStop(s, j, env).drvstate[j] == STOP && PStop(s, j, env).next == s.next
  {
  }

  lemma ArrivalState(w: World, id: nat, env: Env)
    requires Motion(w) && Enabled(w, ExpireEvent(id, env.ok)) && env.hit
    ensures var t, b := w.s.timers[id], Arrived(w.s, id, env);
      && b.drvstate == w.s.drvstate[t.blind := STOP]
      && b.position == (if t.time >= FAHRZEIT then w.s.position[t.blind := t.direction] else w.s.position)
      && b.next == w.s.next && b.thr == w.s.thr && b.timers == w.s.timers - {id} && Inv(b)
  {
    var j := w.s.timers[id].blind;
    var s := w.s;
    assert TimerFits(w, id) && BlindOk(s, j);
    WakeKeeps(s, id);
    var a := PStop(Wake(s, id), j, env);
    StopKeeps(Wake(s, id), j, env);
    var b := Arrived(s, id, env);
    assert a.timers == Wake(s, id).timers;
    assert b.timers == s.timers - {id};
    forall k: nat | k < 4
      ensures BlindOk(b, k)
    {
      assert BlindOk(a, k) && BlindOk(s, k);
    }
    forall i
      ensures TimerOk(b, i)
    {
      assert TimerOk(s, i);
    }
  }

  lemma ArrivalFits(w: World, id: nat, env: Env)
    requires Motion(w) && Enabled(w, ExpireEvent(id, env.ok)) && env.hit
    ensures Motion(Timed(w, Arrived(w.s, id, env)))
  {
    hide Arrived, BlindOk;
    var j := w.s.timers[id].blind;
    assert TimerFits(w, id);
    ArrivalState(w, id, env);
    var b := Arrived(w.s, id, env);
    var v := Timed(w, b);
    forall k: nat | k < 4
      ensures BlindFits(v, k)
    {
      assert BlindFits(w, k) && BlindFits(w, j);
    }
    forall i
      ensures TimerFits(v, i)
    {
      assert TimerFits(w, i);
    }
    assert v.left.Keys == b.timers.Keys;
  }

  lemma ExpireFits(w: World, id: nat, ok: bool)
    requires Motion(w) && Enabled(w, ExpireEvent(id, ok))
    ensures Motion(Step(w, ExpireEvent(id, ok)))
  {
    var env := Env(true, ok, 0);
    var j := w.s.timers[id].blind;
    assert TimerFits(w, id);
    assert BlindOk(w.s, j) && TimerOk(w.s, id);
    FinishIsArrival(w.s, id, env);
    ArrivalState(w, id, env);
    ArrivalFits(w, id, env);
    if w.s.timers[id].sun {
      SonneFits(Timed(w, Arrived(w.s, id, env)), j, env);
      SonneTimes(w, Arrived(w.s, id, env), j, env);
    }
  }

  lemma SonneTimes(w: World, b: State, j: nat, env: Env)
    requires Motion(w) && Inv(b) && j < 4 && b.drvstate[j] == STOP && b.next == w.s.next
    requires forall id :: id in b.timers ==> id in w.s.timers
    ensures Timed(Timed(w, b), DrvSonne(b, j, env)) == Timed(w, DrvSonne(b, j, env))
  {
    if b.position[j] == Ab {
      DrvTimes(w, b, j, Auf, SONNENZEIT, false, env);
    } else {
      var u := NextOffset(b);
      DrvTimes(w, u, j, Ab, FullTime(u), true, env);
      assert Timed(w, u).left == Timed(w, b).left;
      assert Timed(Timed(w, b), Drv(u, j, Ab, FullTime(u), true, env)) == Timed(Timed(w, u), Drv(u, j, Ab, FullTime(u), true, env));
    }
  }

  lemma ResetFits(w: World)
    requires Motion(w)
    ensures Motion(Timed(w, Reset(w.s)))
  {
    var v := Timed(w, Reset(w.s));
    ResetKeeps(w.s);
    TimedSame(w);
    assert forall k: nat :: k < 4 && BlindFits(w, k) ==> BlindFits(v, k);
    assert forall id :: TimerFits(w, id) ==> TimerFits(v, id);
  }

  lemma StepFits(w: World, e: Event)
    requires Motion(w) && Enabled(w, e)
    ensures Motion(Step(w, e))
  {
    match e
    case CommandEvent(c, j, ok) => CommandFits(w, c, j, ok);
    case PassEvent(dt) => PassFits(w, dt);
    case ExpireEvent(id, ok) => ExpireFits(w, id, ok);
    case ResetEvent => ResetFits(w);
  }

  lemma {:induction false} RunFits(w: World, es: seq<Event>)
    requires Motion(w) && IsRun(w, es)
    ensures Motion(Run(w, es))
    decreases |es|
  {
    if es != [] {
      StepFits(w, es[0]);
      RunFits(Step(w, es[0]), es[1..]);
    }
  }

  // ---------------------------------------------------------------- position claims are sound

  predicate Start(w: World) {
    && Sized(w) && w.s == Initial() && w.left == map[]
    && forall j: nat :: j < 4 ==> 0 < w.travel[j] <= FAHRZEIT && 0 <= w.height[j] <= w.travel[j]
  }

  /**
    Whatever mix of full drives, impulses, reversals, stops and sun drives the blinds went through,
    starting at unknown heights: a blind that is said to be open is at the top, one that is said to be
    closed is at the bottom, and neither moves.
  */
  lemma PositionClaimsAreSound(w: World, es: seq<Event>, j: nat)
    requires Start(w) && IsRun(w, es) && j < 4
    ensures var v := Run(w, es);
      && (v.s.position[j] == Auf ==> v.height[j] == v.travel[j] && v.s.drvstate[j] == STOP)
      && (v.s.position[j] == Ab ==> v.height[j] == 0 && v.s.drvstate[j] == STOP)
  {
    StartFits(w);
    RunFits(w, es);
    assert BlindFits(Run(w, es), j);
  }

  lemma StartFits(w: World)
    requires Start(w)
    ensures Motion(w)
  {
    InitialOk();
  }

  lemma RunOne(s: State, e: Blinds.Event)
    requires Shape(s) && Blinds.Enabled(s, e)
    ensures Blinds.IsRun(s, [e]) && Blinds.Run(s, [e]) == Blinds.Step(s, e)
  {
    assert [e][1..] == [];
  }

  /** Every step here is a run of the finer model: an expiry is waking up and finishing without interruption. */
  lemma StepIsFineRun(w: World, e: Event) returns (es: seq<Blinds.Event>)
    requires Motion(w) && Enabled(w, e)
    ensures Blinds.IsRun(w.s, es) && Blinds.Run(w.s, es) == Step(w, e).s
  {
    match e
    case CommandEvent(c, j, ok) =>
      es := [Blinds.CommandEvent(c, j, Env(true, ok, 0))];
      RunOne(w.s, es[0]);
    case PassEvent(_) => es := [];
    case ExpireEvent(id, ok) =>
      assert TimerFits(w, id);
      var finish := Blinds.FinishEvent(id, Env(true, ok, 0));
      es := [Blinds.WakeEvent(id), finish];
      assert es[1..] == [finish] && [finish][1..] == [];
      RunOne(Wake(w.s, id), finish);
    case ResetEvent =>
      es := [Blinds.ResetEvent];
      RunOne(w.s, es[0]);
  }
}
