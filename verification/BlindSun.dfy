/**
  What happens when nobody gives a command: every blind comes to rest in time, and a sun drive ends with
  the blind a fixed short way above the bottom.
*/
module BlindSun {
  import opened Blinds
  import opened BlindSafety
  import opened BlindMotion

  /** Time passes only until the next timer is due, and due timers expire. */
  predicate Prompt(w: World, e: BlindMotion.Event) {
    match e
    case PassEvent(dt) => forall id :: id in w.left ==> dt <= w.left[id]
    case ExpireEvent(_, _) => true
    case _ => false
  }

  predicate QuietRun(w: World, es: seq<BlindMotion.Event>)
    requires Sized(w)
    decreases |es|
  {
    es == [] || (BlindMotion.Enabled(w, es[0]) && Prompt(w, es[0]) && QuietRun(BlindMotion.Step(w, es[0]), es[1..]))
  }

  lemma QuietIsRun(w: World, es: seq<BlindMotion.Event>)
    requires Sized(w) && QuietRun(w, es)
    ensures BlindMotion.IsRun(w, es)
    decreases |es|
  {
    if es != [] {
      QuietIsRun(BlindMotion.Step(w, es[0]), es[1..]);
    }
  }

  function Duration(e: BlindMotion.Event): nat {
    if e.PassEvent? then e.dt else 0
  }

  function Elapsed(es: seq<BlindMotion.Event>): nat {
    if es == [] then 0 else Duration(es[0]) + Elapsed(es[1..])
  }

  predicate ExpiryOf(w: World, e: BlindMotion.Event, j: nat) {
    e.ExpireEvent? && e.id in w.s.timers && w.s.timers[e.id].blind == j
  }

  function Expiries(w: World, es: seq<BlindMotion.Event>, j: nat): nat
    requires Sized(w) && QuietRun(w, es)
    decreases |es|
  {
    if es == [] then 0
    else (if ExpiryOf(w, es[0], j) then 1 else 0) + Expiries(BlindMotion.Step(w, es[0]), es[1..], j)
  }

  predicate OnTime(w: World) {
    forall id :: id in w.left ==> w.left[id] >= 0
  }

  /** The time blind `j` still moves, and the timer expiries it still waits for. */
  function Rest(w: World, j: nat): int
    requires Sized(w) && j < 4
  {
    if w.s.drvstate[j] == STOP || w.s.thr[j] !in w.s.timers || w.s.thr[j] !in w.left then 0
    else w.left[w.s.thr[j]] + if w.s.timers[w.s.thr[j]].sun then SONNENZEIT else 0
  }

  function Turns(w: World, j: nat): nat
    requires Sized(w) && j < 4
  {
    if w.s.drvstate[j] == STOP || w.s.thr[j] !in w.s.timers then 0
    else if w.s.timers[w.s.thr[j]].sun then 2 else 1
  }

  /** Nothing about blind `j` differs between two worlds but the time its timer has left. */
  predicate SameBlind(w: World, v: World, j: nat)
    requires Sized(w) && Sized(v) && j < 4
  {
    && v.s.position[j] == w.s.position[j] && v.s.drvstate[j] == w.s.drvstate[j] && v.s.thr[j] == w.s.thr[j]
    && (w.s.drvstate[j] != STOP ==> w.s.thr[j] in v.s.timers && w.s.thr[j] in w.s.timers && v.s.timers[w.s.thr[j]] == w.s.timers[w.s.thr[j]])
  }

  lemma PassKeepsBlind(w: World, dt: nat, j: nat)
    requires Motion(w) && j < 4
    ensures var v := BlindMotion.Step(w, PassEvent(dt));
      && SameBlind(w, v, j) && v.height[j] == Moved(w, j, dt)
      && (w.s.drvstate[j] != STOP ==> v.left[w.s.thr[j]] == w.left[w.s.thr[j]] - dt)
  {
    assert BlindOk(w.s, j);
  }

  /** A timer of another blind does not touch this one. */
  lemma OtherExpiry(w: World, id: nat, ok: bool, j: nat)
    requires Motion(w) && j < 4 && BlindMotion.Enabled(w, ExpireEvent(id, ok)) && w.s.timers[id].blind != j
    ensures var v := BlindMotion.Step(w, ExpireEvent(id, ok));
      && SameBlind(w, v, j) && v.height[j] == w.height[j]
      && (w.s.drvstate[j] != STOP ==> v.left[w.s.thr[j]] == w.left[w.s.thr[j]])
  {
    var env := Env(true, ok, 0);
    var k := w.s.timers[id].blind;
    assert TimerFits(w, id) && BlindOk(w.s, j) && BlindOk(w.s, k) && TimerOk(w.s, w.s.thr[j]) && TimerOk(w.s, id);
    FinishIsArrival(w.s, id, env);
    ArrivalState(w, id, env);
    var b := Arrived(w.s, id, env);
    if w.s.timers[id].sun {
      assert PStop(b, k, env) == b;
    }
  }

  /** The timer of a blind stops it, or, in a sun drive, turns it round for SONNENZEIT. */
  lemma OwnExpiry(w: World, id: nat, ok: bool)
    requires Motion(w) && BlindMotion.Enabled(w, ExpireEvent(id, ok))
    ensures var j, sun := w.s.timers[id].blind, w.s.timers[id].sun;
      var v := BlindMotion.Step(w, ExpireEvent(id, ok));
      && v.height == w.height
      && if sun && ok then
           && v.s.drvstate[j] == Auf && v.s.position[j] == UNDEF && v.s.thr[j] in v.s.timers
           && v.s.timers[v.s.thr[j]] == Timer(j, SONNENZEIT, Auf, false, false) && v.left[v.s.thr[j]] == SONNENZEIT
         else
           && v.s.drvstate[j] == STOP
           && (w.s.timers[id].time < FAHRZEIT ==> v.s.position[j] == w.s.position[j])
           && (w.s.timers[id].time >= FAHRZEIT && !sun ==> v.s.position[j] == w.s.timers[id].direction)
           && (sun ==> v.s.position[j] == UNDEF)
  {
    var env := Env(true, ok, 0);
    var j := w.s.timers[id].blind;
    assert TimerFits(w, id) && BlindOk(w.s, j) && TimerOk(w.s, w.s.next) && TimerOk(w.s, id);
    FinishIsArrival(w.s, id, env);
    ArrivalState(w, id, env);
    var b := Arrived(w.s, id, env);
    assert PStop(b, j, env) == b;
  }

  lemma StepOnTime(w: World, e: BlindMotion.Event)
    requires Motion(w) && OnTime(w) && BlindMotion.Enabled(w, e) && Prompt(w, e)
    ensures OnTime(BlindMotion.Step(w, e))
  {
    var v := BlindMotion.Step(w, e);
    StepFits(w, e);
    if e.ExpireEvent? {
      var env := Env(true, e.ok, 0);
      assert TimerFits(w, e.id) && TimerOk(w.s, e.id) && BlindOk(w.s, w.s.timers[e.id].blind);
      FinishIsArrival(w.s, e.id, env);
      ArrivalState(w, e.id, env);
      var b := Arrived(w.s, e.id, env);
      assert PStop(b, w.s.timers[e.id].blind, env) == b;
    }
  }

  lemma StepRest(w: World, e: BlindMotion.Event, j: nat)
    requires Motion(w) && OnTime(w) && BlindMotion.Enabled(w, e) && Prompt(w, e) && j < 4
    ensures var v := BlindMotion.Step(w, e);
      && (v.s.drvstate[j] != STOP ==> w.s.drvstate[j] != STOP && Rest(v, j) + Duration(e) == Rest(w, j))
      && Turns(v, j) + (if ExpiryOf(w, e, j) then 1 else 0) <= Turns(w, j)
  {
    match e
    case PassEvent(dt) => PassKeepsBlind(w, dt, j);
    case ExpireEvent(id, ok) =>
      assert TimerFits(w, id) && TimerOk(w.s, id);
      if w.s.timers[id].blind == j {
        OwnExpiry(w, id, ok);
      } else {
        OtherExpiry(w, id, ok, j);
      }
  }

  /**
    Without commands a blind that still moves has used up exactly the time that it no longer has to rest,
    so it stops within its rest time, after at most two expiries (one unless it is a sun drive).
  */
  lemma {:induction false} ComesToRest(w: World, es: seq<BlindMotion.Event>, j: nat)
    requires Motion(w) && OnTime(w) && QuietRun(w, es) && j < 4
    ensures BlindMotion.IsRun(w, es)
    ensures var v := BlindMotion.Run(w, es);
      && OnTime(v)
      && (v.s.drvstate[j] != STOP ==> w.s.drvstate[j] != STOP && Elapsed(es) + Rest(v, j) == Rest(w, j))
      && Expiries(w, es, j) + Turns(v, j) <= Turns(w, j) <= 2
    decreases |es|
  {
    QuietIsRun(w, es);
    if es != [] {
      var v := BlindMotion.Step(w, es[0]);
      StepFits(w, es[0]);
      StepOnTime(w, es[0]);
      StepRest(w, es[0], j);
      ComesToRest(v, es[1..], j);
    }
  }

  /** The rest time of a sun drive: closing with the longest offset, then the short way up. */
  lemma SunRestIsBounded(w: World, j: nat)
    requires Motion(w) && OnTime(w) && j < 4 && w.s.drvstate[j] != STOP
    requires w.s.thr[j] in w.s.timers && w.s.timers[w.s.thr[j]].sun
    ensures 0 <= Rest(w, j) <= FAHRZEIT + 2400000 + SONNENZEIT
  {
    assert TimerFits(w, w.s.thr[j]);
  }

  /** Such a run never gets stuck: a timer is due, or a microsecond can pass. */
  lemma NeverStuck(w: World) returns (e: BlindMotion.Event)
    requires Motion(w) && OnTime(w)
    ensures BlindMotion.Enabled(w, e) && Prompt(w, e)
    ensures e.ExpireEvent? || Duration(e) > 0
  {
    if id :| id in w.left && w.left[id] == 0 {
      assert TimerFits(w, id);
      e := ExpireEvent(id, true);
    } else {
      e := PassEvent(1);
    }
  }

  // ---------------------------------------------------------------- the sun drive

  /** Closing, then opening from the bottom, then done. */
  predicate SunPhase(w: World, j: nat)
    requires Sized(w) && j < 4
  {
    && w.s.position[j] == UNDEF
    && if w.s.drvstate[j] == STOP then w.height[j] == Min(w.travel[j], SONNENZEIT)
       else
         && w.s.thr[j] in w.s.timers && w.s.thr[j] in w.left
         && var t := w.s.timers[w.s.thr[j]];
            t.sun || (t.direction == Auf && t.time == SONNENZEIT && w.s.drvstate[j] == Auf
                      && w.height[j] == Min(w.travel[j], SONNENZEIT - w.left[w.s.thr[j]]))
  }

  predicate AllCreated(es: seq<BlindMotion.Event>) {
    forall e :: e in es && e.ExpireEvent? ==> e.ok
  }

  lemma SunStep(w: World, e: BlindMotion.Event, j: nat)
    requires Motion(w) && OnTime(w) && j < 4 && SunPhase(w, j)
    requires BlindMotion.Enabled(w, e) && Prompt(w, e) && (e.ExpireEvent? ==> e.ok)
    ensures SunPhase(BlindMotion.Step(w, e), j)
  {
    assert BlindFits(w, j) && BlindOk(w.s, j);
    match e
    case PassEvent(dt) => PassKeepsBlind(w, dt, j);
    case ExpireEvent(id, ok) =>
      assert TimerFits(w, id);
      if w.s.timers[id].blind == j {
        OwnExpiry(w, id, ok);
        if w.s.timers[id].sun {
          SunExpiry(w, id, ok);
        }
      } else {
        OtherExpiry(w, id, ok, j);
      }
  }

  /** A sun drive that turns round does so at the bottom. */
  lemma SunExpiry(w: World, id: nat, ok: bool)
    requires Motion(w) && BlindMotion.Enabled(w, ExpireEvent(id, ok)) && w.s.timers[id].sun
    ensures w.height[w.s.timers[id].blind] == 0
  {
    assert TimerFits(w, id) && BlindFits(w, w.s.timers[id].blind);
  }

  lemma SunStarts(w: World, j: nat)
    requires Motion(w) && j < 4
    ensures SunPhase(BlindMotion.Step(w, BlindMotion.CommandEvent(SunCmd, j, true)), j)
    ensures BlindMotion.Step(w, BlindMotion.CommandEvent(SunCmd, j, true)).s.drvstate[j] != STOP
  {
    assert BlindFits(w, j) && TimerOk(w.s, w.s.next);
    StopKeeps(w.s, j, Env(true, true, 0));
    StopFits(w, j, Env(true, true, 0));
    assert TimerOk(PStop(w.s, j, Env(true, true, 0)), w.s.next);
  }

  lemma {:induction false} SunGoesOn(w: World, es: seq<BlindMotion.Event>, j: nat)
    requires Motion(w) && OnTime(w) && QuietRun(w, es) && AllCreated(es) && j < 4 && SunPhase(w, j)
    ensures BlindMotion.IsRun(w, es) && SunPhase(BlindMotion.Run(w, es), j)
    decreases |es|
  {
    QuietIsRun(w, es);
    if es != [] {
      StepFits(w, es[0]);
      StepOnTime(w, es[0]);
      SunStep(w, es[0], j);
      SunGoesOn(BlindMotion.Step(w, es[0]), es[1..], j);
    }
  }

  /**
    A sun drive, from wherever the blind is: once time has passed its bound the blind rests, its position
    is undefined, and it stands exactly SONNENZEIT above the bottom (or at the top, if that is nearer).
  */
  lemma SunDriveEndsInTheGap(w: World, es: seq<BlindMotion.Event>, j: nat)
    requires Motion(w) && OnTime(w) && j < 4
    requires var v := BlindMotion.Step(w, BlindMotion.CommandEvent(SunCmd, j, true));
      QuietRun(v, es) && AllCreated(es)
    requires Elapsed(es) > FAHRZEIT + 2400000 + SONNENZEIT
    ensures var v := BlindMotion.Step(w, BlindMotion.CommandEvent(SunCmd, j, true));
      && BlindMotion.IsRun(v, es)
      && var u := BlindMotion.Run(v, es);
         u.s.drvstate[j] == STOP && u.s.position[j] == UNDEF && u.height[j] == Min(w.travel[j], SONNENZEIT)
  {
    var e := BlindMotion.CommandEvent(SunCmd, j, true);
    var v := BlindMotion.Step(w, e);
    StepFits(w, e);
    SunStarts(w, j);
    CommandOnTime(w, j);
    SunGoesOn(v, es, j);
    ComesToRest(v, es, j);
    assert TimerFits(v, v.s.thr[j]);
    TravelStays(v, es);
  }

  lemma CommandOnTime(w: World, j: nat)
    requires Motion(w) && OnTime(w) && j < 4
    ensures OnTime(BlindMotion.Step(w, BlindMotion.CommandEvent(SunCmd, j, true)))
  {
    var v := BlindMotion.Step(w, BlindMotion.CommandEvent(SunCmd, j, true));
    StepFits(w, BlindMotion.CommandEvent(SunCmd, j, true));
    forall id | id in v.left
      ensures v.left[id] >= 0
    {
      assert TimerFits(w, id) && TimerFits(v, id);
    }
  }

  // ---------------------------------------------------------------- a full drive

  /** Driving to an end, then there. */
  predicate FullPhase(w: World, j: nat, d: Course)
    requires Sized(w) && j < 4
  {
    if w.s.drvstate[j] == STOP then w.s.position[j] == d
    else
      && w.s.thr[j] in w.s.timers && w.s.thr[j] in w.left
      && var t := w.s.timers[w.s.thr[j]];
         !t.sun && t.direction == d && t.time >= FAHRZEIT && w.left[w.s.thr[j]] <= FAHRZEIT + 2400000
  }

  function FullDrive(w: World, j: nat, d: Course): (v: World)
    requires Sized(w) && j < 4 && d != STOP
    ensures Sized(v)
  {
    BlindMotion.Step(w, BlindMotion.CommandEvent(DriveCmd(d), j, true))
  }

  /** From rest or from a drive the other way. */
  lemma FullStarts(w: World, j: nat, d: Course)
    requires Motion(w) && j < 4 && d != STOP && w.s.drvstate[j] != d
    ensures FullPhase(FullDrive(w, j, d), j, d)
  {
    var env := Env(true, true, 0);
    StopKeeps(NextOffset(w.s), j, env) by { OffsetKeeps(w.s); }
    assert TimerOk(w.s, w.s.next);
  }

  lemma FullOnTime(w: World, j: nat, d: Course)
    requires Motion(w) && OnTime(w) && j < 4 && d != STOP
    ensures Motion(FullDrive(w, j, d)) && OnTime(FullDrive(w, j, d))
  {
    var e := BlindMotion.CommandEvent(DriveCmd(d), j, true);
    var v := BlindMotion.Step(w, e);
    StepFits(w, e);
    forall id | id in v.left
      ensures v.left[id] >= 0
    {
      assert TimerFits(w, id) && TimerFits(v, id);
    }
  }

  lemma FullStep(w: World, e: BlindMotion.Event, j: nat, d: Course)
    requires Motion(w) && OnTime(w) && j < 4 && FullPhase(w, j, d)
    requires BlindMotion.Enabled(w, e) && Prompt(w, e)
    ensures FullPhase(BlindMotion.Step(w, e), j, d)
  {
    assert BlindOk(w.s, j);
    match e
    case PassEvent(dt) => PassKeepsBlind(w, dt, j);
    case ExpireEvent(id, ok) =>
      assert TimerFits(w, id) && TimerOk(w.s, id);
      if w.s.timers[id].blind == j {
        OwnExpiry(w, id, ok);
      } else {
        StepFits(w, e);
        assert BlindOk(BlindMotion.Step(w, e).s, j);
        OtherExpiry(w, id, ok, j);
      }
  }

  lemma {:induction false} FullGoesOn(w: World, es: seq<BlindMotion.Event>, j: nat, d: Course)
    requires Motion(w) && OnTime(w) && QuietRun(w, es) && j < 4 && FullPhase(w, j, d)
    ensures BlindMotion.IsRun(w, es) && FullPhase(BlindMotion.Run(w, es), j, d)
    decreases |es|
  {
    QuietIsRun(w, es);
    if es != [] {
      StepFits(w, es[0]);
      StepOnTime(w, es[0]);
      FullStep(w, es[0], j, d);
      FullGoesOn(BlindMotion.Step(w, es[0]), es[1..], j, d);
    }
  }

  /** A blind in its full drive is at the end once the longest one is over. */
  lemma FullPhaseArrives(w: World, es: seq<BlindMotion.Event>, j: nat, d: Course)
    requires Motion(w) && OnTime(w) && j < 4 && d != STOP && FullPhase(w, j, d) && QuietRun(w, es)
    requires Elapsed(es) > FAHRZEIT + 2400000
    ensures BlindMotion.IsRun(w, es)
    ensures var u := BlindMotion.Run(w, es);
      u.s.drvstate[j] == STOP && u.s.position[j] == d && u.height[j] == if d == Auf then w.travel[j] else 0
  {
    hide QuietRun;
    FullGoesOn(w, es, j, d);
    ComesToRest(w, es, j);
    RunFits(w, es);
    TravelStays(w, es);
    assert BlindFits(BlindMotion.Run(w, es), j);
  }

  /**
    A full drive arrives: whatever the blind did before, unless it already drove that way, once the longest
    full drive is over it rests at the end, and the controller knows it.
  */
  lemma FullDriveArrives(w: World, es: seq<BlindMotion.Event>, j: nat, d: Course)
    requires Motion(w) && OnTime(w) && j < 4 && d != STOP && w.s.drvstate[j] != d
    requires QuietRun(FullDrive(w, j, d), es) && Elapsed(es) > FAHRZEIT + 2400000
    ensures BlindMotion.IsRun(FullDrive(w, j, d), es)
    ensures var u := BlindMotion.Run(FullDrive(w, j, d), es);
      u.s.drvstate[j] == STOP && u.s.position[j] == d && u.height[j] == if d == Auf then w.travel[j] else 0
  {
    hide QuietRun, FullPhase;
    FullStarts(w, j, d);
    FullOnTime(w, j, d);
    FullPhaseArrives(FullDrive(w, j, d), es, j, d);
  }

  /** A toggle from rest is a full drive; one of a moving blind stops it where it is, with both relays off. */
  lemma ToggleDrivesOrStops(w: World, j: nat, d: Course)
    requires Motion(w) && j < 4 && d != STOP
    ensures var v := BlindMotion.Step(w, BlindMotion.CommandEvent(ToggleCmd(d), j, true));
      if w.s.drvstate[j] == STOP then v == FullDrive(w, j, d)
      else
        && v.s.drvstate == w.s.drvstate[j := STOP] && !v.s.relay[2 * j] && !v.s.relay[2 * j + 1]
        && v.height == w.height && v.s.position == w.s.position && w.s.thr[j] !in v.s.timers
  {
    var env := Env(true, true, 0);
    StopKeeps(w.s, j, env);
    assert BlindOk(w.s, j) && BlindOk(PStop(w.s, j, env), j);
    if w.s.drvstate[j] != STOP {
      assert TimerFits(w, w.s.thr[j]);
    }
  }

  /** A stop does the same, and leaves a blind at rest alone. */
  lemma StopStops(w: World, j: nat)
    requires Motion(w) && j < 4
    ensures var v := BlindMotion.Step(w, BlindMotion.CommandEvent(StopCmd, j, true));
      && v.s.drvstate == w.s.drvstate[j := STOP] && !v.s.relay[2 * j] && !v.s.relay[2 * j + 1]
      && v.height == w.height && v.s.position == w.s.position && (w.s.drvstate[j] == STOP ==> v.s == w.s)
  {
    var env := Env(true, true, 0);
    StopKeeps(w.s, j, env);
    assert BlindOk(PStop(w.s, j, env), j);
  }

  /** The times of full drives: a blind that is driven sleeps FAHRZEIT and the offset that is next in turn. */
  lemma FullDriveTime(w: World, j: nat, d: Course)
    requires Motion(w) && j < 4 && d != STOP && w.s.drvstate[j] != d && w.s.position[j] != d
    ensures var v := FullDrive(w, j, d);
      && v.s.offset == (w.s.offset + 1) % 4
      && v.s.drvstate[j] == d && v.s.thr[j] in v.s.timers && v.s.timers[v.s.thr[j]].time == FAHRZEIT + v.s.offset * 800000
      && v.left[v.s.thr[j]] == v.s.timers[v.s.thr[j]].time
  {
    var env := Env(true, true, 0);
    StopKeeps(NextOffset(w.s), j, env) by { OffsetKeeps(w.s); }
    assert TimerOk(w.s, w.s.next);
  }

  /** A blind that is at the end, or already on its way there, is not driven again. */
  lemma DriveIsNotRepeated(w: World, j: nat, d: Course)
    requires Motion(w) && j < 4 && d != STOP && (w.s.drvstate[j] == d || (w.s.drvstate[j] == STOP && w.s.position[j] == d))
    ensures FullDrive(w, j, d).s == NextOffset(w.s) && FullDrive(w, j, d).left == w.left
  {
    TimedSame(w);
  }

  // ---------------------------------------------------------------- an impulse

  /** Where a blind is that has been driven for `t` microseconds. */
  function Gone(w: World, j: nat, d: Course, from: int, t: int): int
    requires Sized(w) && j < 4
  {
    if d == Auf then Min(w.travel[j], from + t) else Max(0, from - t)
  }

  predicate ImpulsePhase(w: World, j: nat, d: Course, time: nat, from: int)
    requires Sized(w) && j < 4
  {
    if w.s.drvstate[j] == STOP then
      w.height[j] == Gone(w, j, d, from, time) && w.s.position[j] == if time >= FAHRZEIT then d else UNDEF
    else
      && w.s.drvstate[j] == d && w.s.position[j] == UNDEF
      && w.s.thr[j] in w.s.timers && w.s.thr[j] in w.left && w.left[w.s.thr[j]] <= time
      && w.s.timers[w.s.thr[j]] == Timer(j, time, d, false, false)
      && w.height[j] == Gone(w, j, d, from, time - w.left[w.s.thr[j]])
  }

  function Impulse(w: World, j: nat, d: Course, time: nat): (v: World)
    requires Sized(w) && j < 4 && d != STOP
    ensures Sized(v)
  {
    BlindMotion.Step(w, BlindMotion.CommandEvent(ImpulseCmd(d, time), j, true))
  }

  lemma ImpulseStarts(w: World, j: nat, d: Course, time: nat)
    requires Motion(w) && OnTime(w) && j < 4 && d != STOP && w.s.drvstate[j] != d && w.s.position[j] != d
    ensures var v := Impulse(w, j, d, time);
      && Motion(v) && OnTime(v) && v.s.drvstate[j] == d && ImpulsePhase(v, j, d, time, w.height[j])
      && v.left[v.s.thr[j]] == time
  {
    var e := BlindMotion.CommandEvent(ImpulseCmd(d, time), j, true);
    var v := BlindMotion.Step(w, e);
    StepFits(w, e);
    StopKeeps(w.s, j, Env(true, true, 0));
    assert BlindFits(w, j) && TimerOk(w.s, w.s.next);
    forall id | id in v.left
      ensures v.left[id] >= 0
    {
      assert TimerFits(w, id) && TimerFits(v, id);
    }
  }

  lemma ImpulseStep(w: World, e: BlindMotion.Event, j: nat, d: Course, time: nat, from: int)
    requires Motion(w) && OnTime(w) && j < 4 && d != STOP && ImpulsePhase(w, j, d, time, from)
    requires BlindMotion.Enabled(w, e) && Prompt(w, e)
    ensures ImpulsePhase(BlindMotion.Step(w, e), j, d, time, from)
  {
    assert BlindFits(w, j) && BlindOk(w.s, j);
    match e
    case PassEvent(dt) => PassKeepsBlind(w, dt, j);
    case ExpireEvent(id, ok) =>
      assert TimerFits(w, id) && TimerOk(w.s, id);
      if w.s.timers[id].blind == j {
        OwnExpiry(w, id, ok);
      } else {
        StepFits(w, e);
        assert BlindOk(BlindMotion.Step(w, e).s, j);
        OtherExpiry(w, id, ok, j);
      }
  }

  lemma {:induction false} ImpulseGoesOn(w: World, es: seq<BlindMotion.Event>, j: nat, d: Course, time: nat, from: int)
    requires Motion(w) && OnTime(w) && QuietRun(w, es) && j < 4 && d != STOP && ImpulsePhase(w, j, d, time, from)
    ensures BlindMotion.IsRun(w, es) && ImpulsePhase(BlindMotion.Run(w, es), j, d, time, from)
    decreases |es|
  {
    QuietIsRun(w, es);
    if es != [] {
      StepFits(w, es[0]);
      StepOnTime(w, es[0]);
      ImpulseStep(w, es[0], j, d, time, from);
      ImpulseGoesOn(BlindMotion.Step(w, es[0]), es[1..], j, d, time, from);
    }
  }

  /**
    An impulse moves the blind for its own time, up or down, also out of a drive the other way, and then it
    rests; its position is known only if the impulse was as long as a full drive.
  */
  lemma ImpulseMoves(w: World, es: seq<BlindMotion.Event>, j: nat, d: Course, time: nat)
    requires Motion(w) && OnTime(w) && j < 4 && d != STOP && w.s.drvstate[j] != d && w.s.position[j] != d
    requires QuietRun(Impulse(w, j, d, time), es) && Elapsed(es) > time
    ensures BlindMotion.IsRun(Impulse(w, j, d, time), es)
    ensures var u := BlindMotion.Run(Impulse(w, j, d, time), es);
      && u.s.drvstate[j] == STOP && u.height[j] == Gone(w, j, d, w.height[j], time)
      && u.s.position[j] == if time >= FAHRZEIT then d else UNDEF
  {
    hide QuietRun, Impulse;
    var v := Impulse(w, j, d, time);
    ImpulseStarts(w, j, d, time);
    ImpulseGoesOn(v, es, j, d, time, w.height[j]);
    ComesToRest(v, es, j);
    TravelStays(v, es);
    assert v.travel == w.travel by { ImpulseTravel(w, j, d, time); }
  }

  lemma ImpulseTravel(w: World, j: nat, d: Course, time: nat)
    requires Sized(w) && j < 4 && d != STOP
    ensures Impulse(w, j, d, time).travel == w.travel
  {
  }

  /** The sun position from the bottom: only the short way up. */
  lemma SunFromTheBottom(w: World, j: nat)
    requires Motion(w) && j < 4 && w.s.drvstate[j] == STOP && w.s.position[j] == Ab
    ensures var v := BlindMotion.Step(w, BlindMotion.CommandEvent(SunCmd, j, true));
      && v.s.drvstate[j] == Auf && v.s.thr[j] in v.s.timers && v.s.timers[v.s.thr[j]] == Timer(j, SONNENZEIT, Auf, false, false)
      && v.s.offset == w.s.offset
  {
  }

  // ---------------------------------------------------------------- a blind at rest

  /** Without commands a blind at rest stays where it is. */
  lemma {:induction false} RestStays(w: World, es: seq<BlindMotion.Event>, j: nat)
    requires Motion(w) && OnTime(w) && QuietRun(w, es) && j < 4 && w.s.drvstate[j] == STOP
    ensures BlindMotion.IsRun(w, es)
    ensures var u := BlindMotion.Run(w, es);
      u.s.drvstate[j] == STOP && u.s.position[j] == w.s.position[j] && u.height[j] == w.height[j]
    decreases |es|
  {
    QuietIsRun(w, es);
    if es != [] {
      StepFits(w, es[0]);
      StepOnTime(w, es[0]);
      RestStep(w, es[0], j);
      RestStays(BlindMotion.Step(w, es[0]), es[1..], j);
    }
  }

  lemma RestStep(w: World, e: BlindMotion.Event, j: nat)
    requires Motion(w) && j < 4 && w.s.drvstate[j] == STOP && BlindMotion.Enabled(w, e) && Prompt(w, e)
    ensures var v := BlindMotion.Step(w, e);
      v.s.drvstate[j] == STOP && v.s.position[j] == w.s.position[j] && v.height[j] == w.height[j]
  {
    assert BlindOk(w.s, j);
    match e
    case PassEvent(dt) => PassKeepsBlind(w, dt, j);
    case ExpireEvent(id, ok) =>
      assert TimerFits(w, id) && TimerOk(w.s, id);
      OtherExpiry(w, id, ok, j);
  }

  lemma TravelStays(w: World, es: seq<BlindMotion.Event>)
    requires Sized(w) && BlindMotion.IsRun(w, es)
    ensures BlindMotion.Run(w, es).travel == w.travel
    decreases |es|
  {
    if es != [] {
      TravelStays(BlindMotion.Step(w, es[0]), es[1..]);
    }
  }
}
