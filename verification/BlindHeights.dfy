/**
  The claims of the blinds against their heights, with every interleaving of the threads: the steps of
  Blinds.dfy, and time that passes between them.  A thread wakes up when its time is over or later, a
  cancellation may come too late, and a command may come between waking up and finishing.
*/
module BlindHeights {
  import opened Blinds
  import opened BlindSafety
  import opened BlindClaims
  import opened BlindMotion

  datatype Event = Control(c: Blinds.Event) | Pass(dt: nat)

  predicate Enabled(w: World, e: Event)
    requires Sized(w)
  {
    match e
    case Control(c) => Blinds.Enabled(w.s, c) && (c.WakeEvent? ==> c.id in w.left && w.left[c.id] <= 0)
    case Pass(_) => true
  }

  function Step(w: World, e: Event): (v: World)
    requires Sized(w) && Enabled(w, e)
    ensures Sized(v)
  {
    match e
    case Control(c) => Timed(w, Blinds.Step(w.s, c))
    case Pass(dt) => BlindMotion.Step(w, PassEvent(dt))
  }

  predicate IsRun(w: World, es: seq<Event>)
    requires Sized(w)
    decreases |es|
  {
    es == [] || (Enabled(w, es[0]) && IsRun(Step(w, es[0]), es[1..]))
  }

  function Run(w: World, es: seq<Event>): (v: World)
    requires Sized(w) && IsRun(w, es)
    ensures Sized(v)
    decreases |es|
  {
    if es == [] then w else Run(Step(w, es[0]), es[1..])
  }

  predicate Punctual(es: seq<Event>) {
    forall i :: 0 <= i < |es| && es[i].Control? ==> InTime(es[i].c)
  }

  /** What is said of blind `j` is so. */
  predicate AtEnd(w: World, j: nat)
    requires Sized(w) && j < 4
  {
    && (w.s.position[j] == Auf ==> w.height[j] == w.travel[j])
    && (w.s.position[j] == Ab ==> w.height[j] == 0)
  }

  // ---------------------------------------------------------------- what holds even with late cancellations

  predicate Bounded(w: World, j: nat)
    requires Sized(w) && j < 4
  {
    0 < w.travel[j] <= FAHRZEIT && 0 <= w.height[j] <= w.travel[j]
  }

  /** While a drive goes on its blind has come as far as the time says. */
  predicate Driven(w: World, id: nat)
    requires Sized(w)
  {
    id in w.left && Live(w.s, id) && !w.s.timers[id].awake ==>
      var t := w.s.timers[id];
      && w.left[id] <= t.time
      && (t.direction == Auf ==> w.height[t.blind] >= Min(w.travel[t.blind], t.time - w.left[id]))
      && (t.direction == Ab ==> w.height[t.blind] <= Max(0, w.travel[t.blind] - (t.time - w.left[id])))
  }

  ghost predicate Phys(w: World) {
    && Sized(w) && Inv(w.s)
    && w.left.Keys == w.s.timers.Keys
    && (forall j: nat :: j < 4 ==> Bounded(w, j))
    && (forall id :: Driven(w, id))
  }

  /** A move of the controller that claims nothing: threads end or are new, and none comes to life again. */
  ghost predicate Onward(s: State, t: State) {
    && Shape(s) && Shape(t) && s.next <= t.next
    && (forall k :: 0 <= k < 4 ==> t.position[k] == s.position[k] || t.position[k] == UNDEF)
    && (forall id :: id in t.timers ==>
          if id in s.timers then t.timers[id] == s.timers[id] && (Live(t, id) ==> Live(s, id)) else id >= s.next)
  }

  lemma OnwardTwice(s: State, t: State, u: State)
    requires Onward(s, t) && Onward(t, u) && forall id :: TimerOk(s, id)
    ensures Onward(s, u)
  {
    forall id | id in u.timers
      ensures if id in s.timers then u.timers[id] == s.timers[id] && (Live(u, id) ==> Live(s, id)) else id >= s.next
    {
      assert TimerOk(s, id);
    }
  }

  lemma StopOnward(s: State, j: nat, env: Env)
    requires Inv(s) && j < 4
    ensures Onward(s, PStop(s, j, env))
  {
    assert forall id :: id in s.timers ==> TimerOk(s, id);
  }

  lemma DrvOnward(s: State, j: nat, direction: Course, time: int, sun: bool, env: Env)
    requires Inv(s) && j < 4 && direction != STOP && s.drvstate[j] == STOP
    ensures Onward(s, Drv(s, j, direction, time, sun, env))
  {
    assert forall id :: id in s.timers ==> TimerOk(s, id);
  }

  lemma OffsetOnward(s: State)
    requires Shape(s)
    ensures Onward(s, NextOffset(s))
  {
  }

  lemma PDriveOnward(s: State, j: nat, direction: Course, time: int, env: Env)
    requires Inv(s) && j < 4 && direction != STOP
    ensures Onward(s, PDrive(s, j, direction, time, env))
  {
    assert Shape(s);
    hide Drv, PStop, Onward;
    Itself(s);
    if s.drvstate[j] != direction {
      var t := PStop(s, j, env);
      StopOnward(s, j, env);
      StopKeeps(s, j, env);
      if t.position[j] != direction {
        DrvOnward(t, j, direction, time, false, env);
        OnwardTwice(s, t, Drv(t, j, direction, time, false, env));
      }
    }
  }

  lemma Itself(s: State)
    requires Shape(s)
    ensures Onward(s, s)
  {
  }

  lemma SonneOnward(s: State, j: nat, env: Env)
    requires Inv(s) && j < 4
    ensures Onward(s, DrvSonne(s, j, env))
  {
    assert Shape(s);
    hide Drv, PStop, Onward;
    var t := PStop(s, j, env);
    StopOnward(s, j, env);
    StopKeeps(s, j, env);
    if t.position[j] == Ab {
      DrvOnward(t, j, Auf, SONNENZEIT, false, env);
      OnwardTwice(s, t, Drv(t, j, Auf, SONNENZEIT, false, env));
    } else {
      var u := NextOffset(t);
      OffsetOnward(t);
      OffsetKeeps(t);
      OnwardTwice(s, t, u);
      DrvOnward(u, j, Ab, FullTime(u), true, env);
      OnwardTwice(s, u, Drv(u, j, Ab, FullTime(u), true, env));
    }
  }

  lemma DriveOnward(s: State, j: nat, d: Course, env: Env)
    requires Inv(s) && j < 4 && d != STOP
    ensures Onward(s, Drive(s, j, d, env))
  {
    assert Shape(s);
    hide PDrive, Onward;
    var t := NextOffset(s);
    OffsetOnward(s);
    OffsetKeeps(s);
    PDriveOnward(t, j, d, FullTime(t), env);
    OnwardTwice(s, t, PDrive(t, j, d, FullTime(t), env));
  }

  lemma FinishOnward(s: State, id: nat, env: Env)
    requires Inv(s) && Blinds.Enabled(s, FinishEvent(id, env))
    ensures Onward(s, Finish(s, id, env))
  {
    assert Shape(s);
    hide DrvSonne, PStop;
    var j := s.timers[id].blind;
    StopOnward(s, j, env);
    SonneOnward(s, j, env);
  }

  lemma StepOnward(s: State, c: Blinds.Event)
    requires Inv(s) && Blinds.Enabled(s, c) && !c.WakeEvent?
    ensures Onward(s, Blinds.Step(s, c))
  {
    assert Shape(s);
    hide PStop, PDrive, DrvSonne, Finish, Reset, Onward, NextOffset;
    match c
    case CommandEvent(DriveCmd(d), j, env) => DriveOnward(s, j, d, env);
    case CommandEvent(ImpulseCmd(d, time), j, env) => PDriveOnward(s, j, d, time, env);
    case CommandEvent(ToggleCmd(d), j, env) =>
      DriveOnward(s, j, d, env);
      StopOnward(s, j, env);
    case CommandEvent(SunCmd, j, env) => SonneOnward(s, j, env);
    case CommandEvent(StopCmd, j, env) => StopOnward(s, j, env);
    case FinishEvent(id, env) => FinishOnward(s, id, env);
    case ResetEvent => ResetOnward(s);
  }

  lemma ResetOnward(s: State)
    requires Inv(s)
    ensures Onward(s, Reset(s))
  {
    ResetKeeps(s);
  }

  lemma OnwardPhys(w: World, t: State)
    requires Phys(w) && Onward(w.s, t) && Inv(t)
    ensures Phys(Timed(w, t))
    ensures forall j: nat :: j < 4 && AtEnd(w, j) ==> AtEnd(Timed(w, t), j)
  {
    var v := Timed(w, t);
    forall j: nat | j < 4
      ensures Bounded(v, j)
    {
      assert Bounded(w, j);
    }
    forall id
      ensures Driven(v, id)
    {
      assert Driven(w, id);
      if id in t.timers && id !in w.s.timers && t.timers[id].blind < 4 {
        assert Bounded(w, t.timers[id].blind);
      }
    }
    assert v.left.Keys == t.timers.Keys;
  }

  lemma WakePhys(w: World, id: nat)
    requires Phys(w) && Enabled(w, Control(WakeEvent(id)))
    ensures var v := Timed(w, Wake(w.s, id));
      && Phys(v)
      && (!Stale(w.s, id) ==> forall j: nat :: j < 4 && AtEnd(w, j) ==> AtEnd(v, j))
  {
    var v := Timed(w, Wake(w.s, id));
    var d := w.s.timers[id].blind;
    WakeKeeps(w.s, id);
    assert Driven(w, id) && Bounded(w, d) && TimerOk(w.s, id);
    forall j: nat | j < 4
      ensures Bounded(v, j)
    {
      assert Bounded(w, j);
    }
    forall i
      ensures Driven(v, i)
    {
      assert Driven(w, i);
    }
    assert v.left.Keys == v.s.timers.Keys;
  }

  lemma PassPhys(w: World, dt: nat)
    requires Phys(w)
    ensures var v := Step(w, Pass(dt));
      Phys(v) && forall j: nat :: j < 4 && AtEnd(w, j) && Claims(w.s, j) ==> AtEnd(v, j)
  {
    var v := Step(w, Pass(dt));
    forall j: nat | j < 4
      ensures Bounded(v, j) && v.height[j] == Moved(w, j, dt)
      ensures AtEnd(w, j) && Claims(w.s, j) ==> AtEnd(v, j)
    {
      assert Bounded(w, j) && BlindOk(w.s, j);
    }
    forall id
      ensures Driven(v, id)
    {
      assert Driven(w, id);
      if Live(w.s, id) {
        var j := w.s.timers[id].blind;
        assert Bounded(w, j) && BlindOk(w.s, j);
        assert v.height[j] == Moved(w, j, dt);
      }
    }
    assert v.left.Keys == w.left.Keys;
  }

  lemma StepPhys(w: World, e: Event)
    requires Phys(w) && Enabled(w, e)
    ensures Phys(Step(w, e))
    ensures Sound(w.s) && (e.Control? ==> InTime(e.c)) ==>
      Sound(Step(w, e).s) && forall j: nat :: j < 4 && AtEnd(w, j) ==> AtEnd(Step(w, e), j)
  {
    assert Sized(w);
    hide Phys, Blinds.Step, AtEnd, Wake, BlindMotion.Step;
    match e
    case Control(c) =>
      PhysIsInv(w);
      StepKeeps(w.s, c);
      if c.WakeEvent? {
        assert Blinds.Step(w.s, c) == Wake(w.s, c.id) by { WakeStep(w.s, c); }
        WakePhys(w, c.id);
      } else {
        StepOnward(w.s, c);
        OnwardPhys(w, Blinds.Step(w.s, c));
      }
      if Sound(w.s) && InTime(c) {
        StepSound(w.s, c);
      }
    case Pass(dt) =>
      PassPhys(w, dt);
      assert BlindMotion.Step(w, PassEvent(dt)).s == w.s by { PassKeepsState(w, dt); }
  }

  lemma PhysIsInv(w: World)
    requires Phys(w)
    ensures Inv(w.s)
  {
  }

  lemma WakeStep(s: State, c: Blinds.Event)
    requires Shape(s) && c.WakeEvent? && Blinds.Enabled(s, c)
    ensures Blinds.Step(s, c) == Wake(s, c.id)
  {
  }

  lemma PassKeepsState(w: World, dt: nat)
    requires Sized(w)
    ensures BlindMotion.Step(w, PassEvent(dt)).s == w.s
  {
  }

  lemma {:induction false} RunPhys(w: World, es: seq<Event>)
    requires Phys(w) && IsRun(w, es)
    ensures Phys(Run(w, es))
    ensures Sound(w.s) && Punctual(es) && (forall j: nat :: j < 4 ==> AtEnd(w, j)) ==>
      Sound(Run(w, es).s) && forall j: nat :: j < 4 ==> AtEnd(Run(w, es), j)
    decreases |es|
  {
    if es != [] {
      hide Phys, Sound, AtEnd, Step, Enabled;
      assert Punctual(es) ==> Punctual(es[1..]) && (es[0].Control? ==> InTime(es[0].c));
      StepPhys(w, es[0]);
      RunPhys(Step(w, es[0]), es[1..]);
    }
  }

  // ---------------------------------------------------------------- exactly when the heights agree

  /** What is said of the blinds is so in every continuation in which no cancellation is late. */
  ghost predicate StaysTrue(w: World)
    requires Sized(w)
  {
    forall es: seq<Event>, j: nat :: IsRun(w, es) && Punctual(es) && j < 4 ==> AtEnd(Run(w, es), j)
  }

  lemma RunMore(w: World, e: Event, es: seq<Event>)
    requires Sized(w) && Enabled(w, e) && IsRun(Step(w, e), es)
    ensures IsRun(w, [e] + es) && Run(w, [e] + es) == Run(Step(w, e), es)
  {
    assert ([e] + es)[1..] == es;
  }

  /** A blind that is said to be at an end and drives away from it is not there a moment later. */
  lemma DrivesAway(w: World, j: nat)
    requires Phys(w) && j < 4 && !Claims(w.s, j)
    ensures !StaysTrue(w)
  {
    var e := Pass(1);
    var v := Step(w, e);
    assert Bounded(w, j) && BlindOk(w.s, j);
    assert v.height[j] == Moved(w, j, 1);
    assert IsRun(v, []) && Run(v, []) == v;
    RunMore(w, e, []);
    assert Punctual([e] + []);
    assert !AtEnd(v, j);
  }

  lemma OneMove(w: World, e: Event)
    requires Sized(w) && Enabled(w, e) && (e.Control? ==> InTime(e.c)) && !StaysTrue(Step(w, e))
    ensures !StaysTrue(w)
  {
    hide Step, Enabled, AtEnd;
    var v := Step(w, e);
    var es: seq<Event>, j: nat :| IsRun(v, es) && Punctual(es) && j < 4 && !AtEnd(Run(v, es), j);
    RunMore(w, e, es);
    assert Punctual([e] + es);
  }

  /** The stale thread sleeps on while its blind is driven the other way, and then claims the end it left. */
  lemma StaleIsFalse(w: World, id: nat)
    requires Phys(w) && Stale(w.s, id)
    ensures !StaysTrue(w)
  {
    hide Phys, Claims, PDrive, StaysTrue, Inv, BlindMotion.Step, Timed;
    assert Sized(w) && Inv(w.s) by { PhysParts(w); }
    var j, d, env := w.s.timers[id].blind, w.s.timers[id].direction, Env(true, true, 0);
    if !Claims(w.s, j) {
      DrivesAway(w, j);
    } else {
      TurnRound(w.s, id, 0);
      var e1, e2 := Control(Blinds.CommandEvent(ImpulseCmd(d, 0), j, env)), Control(Blinds.CommandEvent(ImpulseCmd(Opposite(d), 0), j, env));
      var w1 := Step(w, e1);
      TimedState(w, PDrive(w.s, j, d, 0, env));
      var w2 := Step(w1, e2);
      TimedState(w1, PDrive(w1.s, j, Opposite(d), 0, env));
      StepPhys(w, e1);
      StepPhys(w1, e2);
      LateWake(w2, id);
      OneMove(w1, e2);
      OneMove(w, e1);
    }
  }

  lemma PhysParts(w: World)
    requires Phys(w)
    ensures Sized(w) && Inv(w.s)
  {
  }

  lemma TimedState(w: World, s: State)
    requires Sized(w) && Shape(s)
    ensures Timed(w, s).s == s
  {
  }

  lemma LateWake(w: World, id: nat)
    requires Phys(w) && Stale(w.s, id) && w.s.timers[id].direction != STOP
    requires w.s.drvstate[w.s.timers[id].blind] == Opposite(w.s.timers[id].direction)
    ensures !StaysTrue(w)
  {
    hide StaysTrue, AtEnd, Phys;
    assert Sized(w) && id in w.left by { PhysLeft(w, id); }
    var dt := Max(0, w.left[id]);
    var v := Step(w, Pass(dt));
    PassPhys(w, dt);
    PassKeepsState(w, dt);
    var u := Step(v, Control(WakeEvent(id)));
    WakePhys(v, id);
    WrongClaim(v.s, id);
    DrivesAway(u, w.s.timers[id].blind);
    OneMove(v, Control(WakeEvent(id)));
    OneMove(w, Pass(dt));
  }

  lemma PhysLeft(w: World, id: nat)
    requires Phys(w) && id in w.s.timers
    ensures Sized(w) && id in w.left
  {
  }

  /**
    In every world the blinds can get into, late cancellations included: what is said of them stays so in all
    continuations without a late cancellation exactly if it is so now, no blind drives away from the end it
    is said to be at, and no thread sleeps through a full drive that is over.
  */
  lemma HeightsAgreeExactly(start: World, es: seq<Event>)
    requires Start(start) && IsRun(start, es)
    ensures var w := Run(start, es);
      StaysTrue(w) <==> (forall j: nat :: j < 4 ==> AtEnd(w, j) && Claims(w.s, j)) && (forall id :: !Stale(w.s, id))
  {
    hide Claims, Stale, AtEnd;
    assert Phys(start) by { StartPhys(start); }
    RunPhys(start, es);
    var w := Run(start, es);
    if (forall j: nat :: j < 4 ==> AtEnd(w, j) && Claims(w.s, j)) && (forall id :: !Stale(w.s, id)) {
      forall more: seq<Event>, j: nat | IsRun(w, more) && Punctual(more) && j < 4
        ensures AtEnd(Run(w, more), j)
      {
        RunPhys(w, more);
      }
    } else if id :| Stale(w.s, id) {
      StaleIsFalse(w, id);
    } else {
      var j: nat :| j < 4 && !(AtEnd(w, j) && Claims(w.s, j));
      if AtEnd(w, j) {
        DrivesAway(w, j);
      } else {
        assert IsRun(w, []) && Punctual([]) && Run(w, []) == w;
      }
    }
  }

  lemma StartPhys(w: World)
    requires Start(w)
    ensures Phys(w) && Sound(w.s) && forall j: nat :: j < 4 ==> AtEnd(w, j)
  {
    InitialOk();
  }

  /**
    So effective cancellation alone makes every claim true, at every moment of every interleaving: a blind
    that is said to be at an end is there, and rests or still pushes against it.
  */
  lemma HeightsAgree(start: World, es: seq<Event>, j: nat)
    requires Start(start) && IsRun(start, es) && Punctual(es) && j < 4
    ensures var w := Run(start, es);
      && (w.s.position[j] == Auf ==> w.height[j] == w.travel[j] && w.s.drvstate[j] != Ab)
      && (w.s.position[j] == Ab ==> w.height[j] == 0 && w.s.drvstate[j] != Auf)
  {
    StartPhys(start);
    RunPhys(start, es);
    assert Claims(Run(start, es).s, j) && AtEnd(Run(start, es), j);
  }
}
