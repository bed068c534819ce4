/**
  The class JALOUSIE in place.  The relay driver and the threads of the process are fields: `relays` is
  what was last sent to the MAX7311, `threads` the timer threads that have not ended.  Every method does
  to the state what its function in Blinds.dfy says.
*/
module Jalousie {
  import opened Blinds

  class Jalousie {
    const position: array<Course>
    const drvstate: array<Course>
    const thr_id: array<nat>
    var offset_count: nat
    var relays: seq<bool>
    var threads: map<nat, Timer>
    var nextThread: nat
    ghost var clash: bool
    ghost var stray: bool

    ghost predicate Valid()
      reads this
    {
      && position.Length == drvstate.Length == thr_id.Length == 4
      && position != drvstate && thr_id as object != position && thr_id as object != drvstate
      && |relays| == 16 && offset_count < 4
    }

    /** The state as Blinds.dfy sees it. */
    ghost function Now(): (s: State)
      requires Valid()
      reads this, position, drvstate, thr_id
      ensures Shape(s)
    {
      State(position[..], drvstate[..], thr_id[..], offset_count, relays, clash, threads, nextThread, stray)
    }

    constructor ()
      ensures Valid() && fresh(position) && fresh(drvstate) && fresh(thr_id)
      ensures Now() == Initial()
    {
      position := new Course[4](_ => UNDEF);
      drvstate := new Course[4](_ => STOP);
      thr_id := new nat[4](_ => 0);
      offset_count := 0;
      relays := seq(16, _ => false);
      threads, nextThread := map[], 0;
      clash, stray := false, false;
      new;
      assert position[..] == [UNDEF, UNDEF, UNDEF, UNDEF];
      assert drvstate[..] == [STOP, STOP, STOP, STOP];
      assert thr_id[..] == [0, 0, 0, 0];
      StoppedFrom(Initial(), 0);
      Init();
    }

    /** max->set: one relay command. */
    method SetRelayTo(port: nat, on: bool)
      requires Valid() && port < 16
      modifies this
      ensures Valid() && Now() == SetRelay(old(Now()), port, on)
    {
      relays := relays[port := on];
      clash := clash || BothOn(relays);
    }

    method PthreadCancel(id: nat, hit: bool)
      requires Valid()
      modifies this
      ensures Valid() && Now() == Blinds.Cancel(old(Now()), id, hit)
    {
      if id !in threads {
        stray := true;
      } else if hit && !threads[id].awake {
        threads := threads - {id};
      }
    }

    method Init()
      requires Valid()
      modifies this
      ensures Valid() && Now() == InitFrom(old(Now()), 0)
    {
      var j := 0;
      while j < 4
        invariant j <= 4 && Valid()
        invariant InitFrom(Now(), j) == InitFrom(old(Now()), 0)
        decreases 4 - j
      {
        InitBlind(j);
        j := j + 1;
      }
    }

    method InitBlind(j: nat)
      requires Valid() && j < 4
      modifies this
      ensures Valid()
      ensures var s := old(Now());
        Now() == SetRelay(SetRelay(s, 2 * j, s.drvstate[j] == Ab), 2 * j + 1, s.drvstate[j] == Auf)
    {
      match drvstate[j]
      case Auf =>
        SetRelayTo(2 * j, false);
        SetRelayTo(2 * j + 1, true);
      case Ab =>
        SetRelayTo(2 * j, true);
        SetRelayTo(2 * j + 1, false);
      case Off =>
        SetRelayTo(2 * j, false);
        SetRelayTo(2 * j + 1, false);
    }

    method DrvAufwaertsFor(j: nat, imptime: int, env: Env)
      requires Valid() && j < 4
      modifies this, position, drvstate, thr_id
      ensures Valid() && Now() == DriveFor(old(Now()), j, Auf, imptime, env)
    {
      PDrvAufwaerts(j, imptime, env);
    }

    method DrvAufwaerts(j: nat, env: Env)
      requires Valid() && j < 4
      modifies this, position, drvstate, thr_id
      ensures Valid() && Now() == Drive(old(Now()), j, Auf, env)
    {
      var off := Offset();
      PDrvAufwaerts(j, FAHRZEIT + off, env);
    }

    method ToggleAufwaerts(j: nat, env: Env)
      requires Valid() && j < 4
      modifies this, position, drvstate, thr_id
      ensures Valid() && Now() == Toggle(old(Now()), j, Auf, env)
    {
      if drvstate[j] == STOP {
        var off := Offset();
        PDrvAufwaerts(j, FAHRZEIT + off, env);
      } else {
        PStopNow(j, env);
      }
    }

    method DrvAbwaertsFor(j: nat, imptime: int, env: Env)
      requires Valid() && j < 4
      modifies this, position, drvstate, thr_id
      ensures Valid() && Now() == DriveFor(old(Now()), j, Ab, imptime, env)
    {
      PDrvAbwaerts(j, imptime, env);
    }

    method DrvAbwaerts(j: nat, env: Env)
      requires Valid() && j < 4
      modifies this, position, drvstate, thr_id
      ensures Valid() && Now() == Drive(old(Now()), j, Ab, env)
    {
      var off := Offset();
      PDrvAbwaerts(j, FAHRZEIT + off, env);
    }

    method ToggleAbwaerts(j: nat, env: Env)
      requires Valid() && j < 4
      modifies this, position, drvstate, thr_id
      ensures Valid() && Now() == Toggle(old(Now()), j, Ab, env)
    {
      if drvstate[j] == STOP {
        var off := Offset();
        PDrvAbwaerts(j, FAHRZEIT + off, env);
      } else {
        PStopNow(j, env);
      }
    }

    method DrvSonneNow(j: nat, env: Env)
      requires Valid() && j < 4
      modifies this, position, drvstate, thr_id
      ensures Valid() && Now() == DrvSonne(old(Now()), j, env)
    {
      if drvstate[j] != STOP {
        PStopNow(j, env);
      }
      if position[j] == Ab {
        var _ := DrvNow(j, Auf, SONNENZEIT, false, env);
      } else {
        var off := Offset();
        var _ := DrvNow(j, Ab, FAHRZEIT + off, true, env);
      }
    }

    method Stop(j: nat, env: Env)
      requires Valid() && j < 4
      modifies this, position, drvstate, thr_id
      ensures Valid() && Now() == PStop(old(Now()), j, env)
    {
      PStopNow(j, env);
    }

    method PDrvAufwaerts(j: nat, imptime: int, env: Env)
      requires Valid() && j < 4
      modifies this, position, drvstate, thr_id
      ensures Valid() && Now() == PDrive(old(Now()), j, Auf, imptime, env)
    {
      if drvstate[j] == Auf {
        return;
      }
      if drvstate[j] == Ab {
        PStopNow(j, env);
      }
      if position[j] == Auf {
        return;
      }
      var _ := DrvNow(j, Auf, imptime, false, env);
    }

    method PDrvAbwaerts(j: nat, imptime: int, env: Env)
      requires Valid() && j < 4
      modifies this, position, drvstate, thr_id
      ensures Valid() && Now() == PDrive(old(Now()), j, Ab, imptime, env)
    {
      if drvstate[j] == Ab {
        return;
      }
      if drvstate[j] == Auf {
        PStopNow(j, env);
      }
      if position[j] == Ab {
        return;
      }
      var _ := DrvNow(j, Ab, imptime, false, env);
    }

    method PStopNow(j: nat, env: Env)
      requires Valid() && j < 4
      modifies this, position, drvstate, thr_id
      ensures Valid() && Now() == PStop(old(Now()), j, env)
    {
      if drvstate[j] != STOP {
        drvstate[j] := STOP;
        SetRelayTo(2 * j, false);
        SetRelayTo(2 * j + 1, false);
        PthreadCancel(thr_id[j], env.hit);
      }
    }

    method DrvNow(j: nat, direction: Course, fahrZeit: int, sonne: bool, env: Env) returns (r: int)
      requires Valid() && j < 4 && direction != STOP
      modifies this, position, drvstate, thr_id
      ensures Valid() && Now() == Drv(old(Now()), j, direction, fahrZeit, sonne, env)
      ensures r == if env.ok then 0 else -1
    {
      position[j] := UNDEF;
      if !env.ok {
        thr_id[j] := env.junk;
        return -1;
      }
      threads := threads[nextThread := Timer(j, fahrZeit, direction, sonne, false)];
      thr_id[j] := nextThread;
      nextThread := nextThread + 1;
      drvstate[j] := direction;
      if direction == Auf {
        SetRelayTo(2 * j + 1, true);
      } else {
        SetRelayTo(2 * j, true);
      }
      r := 0;
    }

    method Offset() returns (micros: int)
      requires Valid()
      modifies this
      ensures Valid() && Now() == NextOffset(old(Now()))
      ensures FAHRZEIT + micros == FullTime(Now())
    {
      offset_count := offset_count + 1;
      if offset_count == 4 {
        offset_count := 0;
      }
      return offset_count * 800000;
    }

    /** jalTimer up to the unlocked setPosition. */
    method TimerWakes(id: nat)
      requires Valid() && id in threads && threads[id].blind < 4
      modifies this, position
      ensures Valid() && Now() == Wake(old(Now()), id)
    {
      var timer := threads[id];
      threads := threads[id := timer.(awake := true)];
      if timer.time >= FAHRZEIT {
        position[timer.blind] := timer.direction;
      }
    }

    /** jalTimer from the locked call to its end. */
    method TimerFinishes(id: nat, env: Env)
      requires Valid() && id in threads && threads[id].blind < 4
      modifies this, position, drvstate, thr_id
      ensures Valid() && Now() == Finish(old(Now()), id, env)
    {
      var timer := threads[id];
      if timer.sun {
        DrvSonneNow(timer.blind, env);
      } else {
        Stop(timer.blind, env);
      }
      threads := threads - {id};
    }
  }

  /** With every blind stopped and every relay off, init() changes nothing. */
  lemma StoppedFrom(s: State, j: nat)
    requires Shape(s) && j <= 4 && s.relay == Initial().relay && s.drvstate == Initial().drvstate && !s.clash
    ensures InitFrom(s, j) == s
    decreases 4 - j
  {
    if j < 4 {
      assert s.relay[2 * j := false] == s.relay;
      assert s.relay[2 * j + 1 := false] == s.relay;
      StoppedFrom(s, j + 1);
    }
  }
}
