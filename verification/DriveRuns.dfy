/**
  How long a drive of a blind lasts.  A thread that was awake when a command came, or whose cancellation came
  too late, still finishes: it stops the new drive of its blind, or starts a sun drive in its place.
*/
module DriveRuns {
  import opened Blinds
  import opened BlindSafety
  import opened BlindClaims
  import opened BlindMotion
  import opened BlindHeights

  // ---------------------------------------------------------------- other blinds

  /** Nothing about the drive and the threads of blind `j` differs. */
  ghost predicate Apart(s: State, t: State, j: nat)
    requires Shape(s) && Shape(t) && j < 4
  {
    && t.drvstate[j] == s.drvstate[j] && t.thr[j] == s.thr[j]
    && (forall id :: id in t.timers && t.timers[id].blind == j ==> id in s.timers && t.timers[id] == s.timers[id])
    && (forall id :: id in s.timers && s.timers[id].blind == j ==> id in t.timers && t.timers[id] == s.timers[id])
  }

  lemma StopApart(s: State, k: nat, j: nat, env: Env)
    requires Inv(s) && j < 4 && k < 4 && k != j
    ensures Apart(s, PStop(s, k, env), j)
  {
    assert BlindOk(s, k);
  }

  lemma DrvApart(s: State, k: nat, j: nat, direction: Course, time: int, sun: bool, env: Env)
    requires Inv(s) && j < 4 && k < 4 && k != j && direction != STOP
    ensures Apart(s, Drv(s, k, direction, time, sun, env), j)
  {
    assert TimerOk(s, s.next);
  }

  lemma SonneApart(s: State, k: nat, j: nat, env: Env)
    requires Inv(s) && j < 4 && k < 4 && k != j
    ensures Apart(s, DrvSonne(s, k, env), j)
  {
    assert Shape(s);
    hide Drv, PStop;
    var a := PStop(s, k, env);
    StopKeeps(s, k, env);
    StopApart(s, k, j, env);
    OffsetKeeps(a);
    DrvApart(a, k, j, Auf, SONNENZEIT, false, env);
    DrvApart(NextOffset(a), k, j, Ab, FullTime(NextOffset(a)), true, env);
  }

  lemma FinishApart(s: State, id: nat, j: nat, env: Env)
    requires Inv(s) && Blinds.Enabled(s, FinishEvent(id, env)) && j < 4 && s.timers[id].blind != j
    ensures Apart(s, Finish(s, id, env), j)
  {
    assert Shape(s);
    hide DrvSonne, PStop;
    StopApart(s, s.timers[id].blind, j, env);
    SonneApart(s, s.timers[id].blind, j, env);
  }

  // ---------------------------------------------------------------- a drive that goes on

  predicate NoCommands(es: seq<BlindHeights.Event>) {
    forall i :: 0 <= i < |es| ==> !(es[i].Control? && es[i].c.CommandEvent?)
  }

  function Elapsed(es: seq<BlindHeights.Event>): nat {
    if es == [] then 0 else (if es[0].Pass? then es[0].dt else 0) + Elapsed(es[1..])
  }

  /** In every continuation without commands the drive of this thread goes on for at least `time` microseconds. */
  ghost predicate LastsFor(w: World, id: nat, time: int)
    requires Sized(w)
  {
    forall es: seq<BlindHeights.Event> ::
      BlindHeights.IsRun(w, es) && NoCommands(es) && Elapsed(es) < time ==> Live(BlindHeights.Run(w, es).s, id)
  }

  /** No thread of blind `j` is awake, and none wakes up before `rest` microseconds are over. */
  ghost predicate AllSleep(w: World, j: nat, rest: int)
    requires Sized(w)
  {
    forall k :: k in w.s.timers && k in w.left && w.s.timers[k].blind == j ==> !w.s.timers[k].awake && w.left[k] >= rest
  }

  ghost predicate GoesOn(w: World, id: nat, j: nat, rest: int) {
    Phys(w) && j < 4 && Live(w.s, id) && w.s.timers[id].blind == j && AllSleep(w, j, rest)
  }

  lemma ApartGoesOn(w: World, t: State, id: nat, j: nat, rest: int)
    requires GoesOn(w, id, j, rest) && Shape(t) && Apart(w.s, t, j) && Phys(Timed(w, t))
    ensures GoesOn(Timed(w, t), id, j, rest)
  {
    assert w.left.Keys == w.s.timers.Keys;
  }

  lemma StepGoesOn(w: World, e: BlindHeights.Event, id: nat, j: nat, rest: int)
    requires GoesOn(w, id, j, rest) && rest > 0 && BlindHeights.Enabled(w, e) && !(e.Control? && e.c.CommandEvent?)
    ensures GoesOn(BlindHeights.Step(w, e), id, j, rest - if e.Pass? then e.dt else 0)
  {
    assert Sized(w) && w.left.Keys == w.s.timers.Keys;
    StepPhys(w, e);
    match e
    case Pass(dt) => PassGoesOn(w, dt, id, j, rest);
    case Control(WakeEvent(k)) => WakeGoesOn(w, k, id, j, rest);
    case Control(FinishEvent(k, env)) =>
      hide Finish, Phys;
      FinishApart(w.s, k, j, env) by { assert Phys(w); PhysParts(w); }
      ApartGoesOn(w, Finish(w.s, k, env), id, j, rest);
    case Control(ResetEvent) =>
      hide Reset, Phys;
      ResetApart(w, j);
      ApartGoesOn(w, Reset(w.s), id, j, rest);
  }

  lemma PassGoesOn(w: World, dt: nat, id: nat, j: nat, rest: int)
    requires GoesOn(w, id, j, rest) && Phys(BlindHeights.Step(w, Pass(dt)))
    ensures GoesOn(BlindHeights.Step(w, Pass(dt)), id, j, rest - dt)
  {
    assert Sized(w);
    hide Phys;
    PassKeepsState(w, dt);
  }

  lemma WakeGoesOn(w: World, k: nat, id: nat, j: nat, rest: int)
    requires GoesOn(w, id, j, rest) && rest > 0 && BlindHeights.Enabled(w, Control(WakeEvent(k)))
    requires Phys(Timed(w, Wake(w.s, k)))
    ensures GoesOn(Timed(w, Wake(w.s, k)), id, j, rest)
  {
    assert w.s.timers[k].blind != j;
    assert w.left.Keys == w.s.timers.Keys;
  }

  lemma ResetApart(w: World, j: nat)
    requires Phys(w) && j < 4
    ensures Apart(w.s, Reset(w.s), j)
  {
    ResetKeeps(w.s);
  }

  lemma {:induction false} RunGoesOn(w: World, es: seq<BlindHeights.Event>, id: nat, j: nat, rest: int)
    requires GoesOn(w, id, j, rest) && BlindHeights.IsRun(w, es) && NoCommands(es) && Elapsed(es) < rest
    ensures Live(BlindHeights.Run(w, es).s, id)
    decreases |es|
  {
    if es != [] {
      hide GoesOn, BlindHeights.Step, BlindHeights.Enabled, Live;
      assert !(es[0].Control? && es[0].c.CommandEvent?);
      assert NoCommands(es[1..]);
      StepGoesOn(w, es[0], id, j, rest);
      RunGoesOn(BlindHeights.Step(w, es[0]), es[1..], id, j, rest - if es[0].Pass? then es[0].dt else 0);
    }
  }

  // ---------------------------------------------------------------- a thread that ends it

  /** A thread that finishes ends the drive of every other thread of its blind. */
  lemma FinishEnds(s: State, k: nat, id: nat, env: Env)
    requires Inv(s) && Blinds.Enabled(s, FinishEvent(k, env)) && env.ok
    requires Live(s, id) && s.timers[id].blind == s.timers[k].blind
    ensures !Live(Finish(s, k, env), id)
  {
    hide Drv;
    var j := s.timers[k].blind;
    assert TimerOk(s, id);
    StopKeeps(s, j, env);
    var t := PStop(s, j, env);
    if s.timers[k].sun {
      NewThread(t, j, Auf, SONNENZEIT, false, env);
      NewThread(NextOffset(t), j, Ab, FullTime(NextOffset(t)), true, env);
    } else {
      assert Finish(s, k, env).drvstate[j] == STOP;
      assert id in t.timers ==> t.timers[id] == s.timers[id];
    }
  }

  lemma NewThread(s: State, j: nat, direction: Course, time: int, sun: bool, env: Env)
    requires Shape(s) && j < 4 && direction != STOP && env.ok
    ensures var t := Drv(s, j, direction, time, sun, env);
      t.thr[j] == s.next && forall id :: id in t.timers && id != s.next ==> id in s.timers && t.timers[id] == s.timers[id]
  {
  }

  lemma EndsNow(w: World, k: nat, id: nat, time: int)
    requires Phys(w) && time > 0 && k in w.s.timers && w.s.timers[k].awake && w.s.timers[k].blind < 4
    requires Live(w.s, id) && w.s.timers[id].blind == w.s.timers[k].blind
    ensures !LastsFor(w, id, time)
  {
    hide Finish, Live, Phys;
    assert Sized(w) && Inv(w.s) by { PhysParts(w); }
    var env := Env(true, true, 0);
    var e := Control(FinishEvent(k, env));
    FinishEnds(w.s, k, id, env);
    var v := BlindHeights.Step(w, e);
    assert v.s == Finish(w.s, k, env) by { TimedState(w, Finish(w.s, k, env)); }
    assert BlindHeights.IsRun(v, []) && BlindHeights.Run(v, []) == v;
    RunMore(w, e, []);
    assert NoCommands([e] + []) && Elapsed([e] + []) == 0;
  }

  lemma OneStep(w: World, e: BlindHeights.Event, id: nat, time: int)
    requires Sized(w) && BlindHeights.Enabled(w, e) && !(e.Control? && e.c.CommandEvent?)
    requires !LastsFor(BlindHeights.Step(w, e), id, time - if e.Pass? then e.dt else 0)
    ensures !LastsFor(w, id, time)
  {
    hide BlindHeights.Step, BlindHeights.Enabled, Live;
    var v := BlindHeights.Step(w, e);
    var rest := time - if e.Pass? then e.dt else 0;
    var es: seq<BlindHeights.Event> :|
      BlindHeights.IsRun(v, es) && NoCommands(es) && Elapsed(es) < rest && !Live(BlindHeights.Run(v, es).s, id);
    RunMore(w, e, es);
    assert ([e] + es)[1..] == es && NoCommands([e] + es);
  }

  /** A thread that wakes up in time ends the drive. */
  lemma EndsInTime(w: World, k: nat, id: nat, time: int)
    requires Phys(w) && time > 0 && k in w.s.timers && !w.s.timers[k].awake && w.s.timers[k].blind < 4 && k != id
    requires k in w.left && w.left[k] < time && Live(w.s, id) && w.s.timers[id].blind == w.s.timers[k].blind
    ensures !LastsFor(w, id, time)
  {
    hide Phys, LastsFor;
    assert Sized(w) && Inv(w.s) by { PhysParts(w); }
    var dt := Max(0, w.left[k]);
    var v := BlindHeights.Step(w, Pass(dt));
    PassPhys(w, dt);
    PassKeepsState(w, dt);
    assert v.left[k] == w.left[k] - dt;
    var e := Control(WakeEvent(k));
    var u := BlindHeights.Step(v, e);
    WakePhys(v, k);
    assert Live(u.s, id) && u.s.timers[id].blind == u.s.timers[k].blind && u.s.timers[k].awake;
    EndsNow(u, k, id, time - dt);
    OneStep(v, e, id, time - dt);
    OneStep(w, Pass(dt), id, time);
  }

  /**
    In every reachable world, late cancellations included: a drive whose thread still sleeps lasts its time in
    all continuations without commands exactly if no other thread of its blind is awake or wakes up before.
  */
  lemma DriveLastsExactly(start: World, before: seq<BlindHeights.Event>, id: nat)
    requires Start(start) && BlindHeights.IsRun(start, before)
    requires var w := BlindHeights.Run(start, before);
      Live(w.s, id) && !w.s.timers[id].awake && id in w.left && w.left[id] > 0
    ensures var w := BlindHeights.Run(start, before);
      LastsFor(w, id, w.left[id]) <==>
        forall k :: k in w.s.timers && k in w.left && k != id && w.s.timers[k].blind == w.s.timers[id].blind ==>
          !w.s.timers[k].awake && w.left[k] >= w.left[id]
  {
    hide LastsFor;
    assert Phys(start) by { StartPhys(start); }
    RunPhys(start, before);
    var w := BlindHeights.Run(start, before);
    hide Phys;
    var j := w.s.timers[id].blind;
    if AllSleep(w, j, w.left[id]) {
      GoingOnLasts(w, id, j, w.left[id]);
    } else {
      var k :| k in w.s.timers && k in w.left && w.s.timers[k].blind == j && !(!w.s.timers[k].awake && w.left[k] >= w.left[id]);
      if w.s.timers[k].awake {
        EndsNow(w, k, id, w.left[id]);
      } else {
        EndsInTime(w, k, id, w.left[id]);
      }
    }
  }

  lemma GoingOnLasts(w: World, id: nat, j: nat, time: int)
    requires GoesOn(w, id, j, time)
    ensures LastsFor(w, id, time)
  {
    forall es: seq<BlindHeights.Event> | BlindHeights.IsRun(w, es) && NoCommands(es) && Elapsed(es) < time
      ensures Live(BlindHeights.Run(w, es).s, id)
    {
      RunGoesOn(w, es, id, j, time);
    }
  }
}
