/**
  Safety of the blind controller over every interleaving of commands and timer threads: the relay
  interlock, and that a moving blind always has a live timer which will stop it.
*/
module BlindSafety {
  import opened Blinds

  /** Blind `j` between two steps: its relays are its drive state, and a drive has its thread. */
  predicate BlindOk(s: State, j: nat)
    requires Shape(s) && j < 4
  {
    && s.relay[2 * j] == (s.drvstate[j] == Ab)
    && s.relay[2 * j + 1] == (s.drvstate[j] == Auf)
    && (s.drvstate[j] != STOP ==>
          && s.thr[j] in s.timers
          && s.timers[s.thr[j]].blind == j
          && s.timers[s.thr[j]].direction == s.drvstate[j])
  }

  predicate TimerOk(s: State, id: nat) {
    id in s.timers ==> id < s.next && s.timers[id].blind < 4 && s.timers[id].direction != STOP
  }

  ghost predicate Inv(s: State) {
    && Shape(s)
    && !s.clash && !s.stray
    && (forall j: nat :: j < 4 ==> BlindOk(s, j))
    && (forall id :: TimerOk(s, id))
  }

  lemma TurnOff(relay: seq<bool>, p: nat)
    requires |relay| == 16 && p < 16 && !BothOn(relay)
    ensures !BothOn(relay[p := false])
  {
    assert forall k: nat :: k < 4 && relay[p := false][2 * k] && relay[p := false][2 * k + 1] ==> relay[2 * k] && relay[2 * k + 1];
  }

  lemma TurnOn(relay: seq<bool>, j: nat, p: nat)
    requires |relay| == 16 && j < 4 && (p == 2 * j || p == 2 * j + 1)
    requires !BothOn(relay) && !relay[2 * j] && !relay[2 * j + 1]
    ensures !BothOn(relay[p := true])
  {
    forall k: nat | k < 4
      ensures !(relay[p := true][2 * k] && relay[p := true][2 * k + 1])
    {
      assert !(relay[2 * k] && relay[2 * k + 1]);
    }
  }

  lemma NoneBoth(s: State)
    requires Inv(s)
    ensures !BothOn(s.relay)
  {
    forall k: nat | k < 4
      ensures !(s.relay[2 * k] && s.relay[2 * k + 1])
    {
      assert BlindOk(s, k);
    }
  }

  lemma StopKeeps(s: State, j: nat, env: Env)
    requires Inv(s) && j < 4
    ensures Inv(PStop(s, j, env)) && PStop(s, j, env).drvstate == s.drvstate[j := STOP]
    ensures PStop(s, j, env).position == s.position && PStop(s, j, env).next == s.next
    ensures forall id :: id in s.timers && s.timers[id].awake ==> id in PStop(s, j, env).timers && PStop(s, j, env).timers[id] == s.timers[id]
  {
    var t := PStop(s, j, env);
    NoneBoth(s);
    TurnOff(s.relay, 2 * j);
    TurnOff(s.relay[2 * j := false], 2 * j + 1);
    forall k: nat | k < 4
      ensures BlindOk(t, k)
    {
      assert BlindOk(s, k) && BlindOk(s, j);
    }
    forall id
      ensures TimerOk(t, id)
    {
      assert TimerOk(s, id);
    }
    assert BlindOk(s, j);
    assert s.drvstate[j := STOP] == t.drvstate;
  }

  lemma DrvKeeps(s: State, j: nat, direction: Course, time: int, sun: bool, env: Env)
    requires Inv(s) && j < 4 && direction != STOP && s.drvstate[j] == STOP
    ensures Inv(Drv(s, j, direction, time, sun, env))
    ensures forall id :: id in s.timers ==> id in Drv(s, j, direction, time, sun, env).timers && Drv(s, j, direction, time, sun, env).timers[id] == s.timers[id]
    ensures forall id :: id in s.timers ==> env.ok ==> id != Drv(s, j, direction, time, sun, env).thr[j]
  {
    var t := Drv(s, j, direction, time, sun, env);
    assert TimerOk(s, s.next);
    assert BlindOk(s, j);
    NoneBoth(s);
    TurnOn(s.relay, j, if direction == Auf then 2 * j + 1 else 2 * j);
    forall k: nat | k < 4
      ensures BlindOk(t, k)
    {
      assert BlindOk(s, k);
      assert TimerOk(s, s.thr[k]);
    }
    forall id
      ensures TimerOk(t, id)
      ensures id in s.timers && env.ok ==> id != t.thr[j]
    {
      assert TimerOk(s, id);
    }
  }

  lemma PDriveKeeps(s: State, j: nat, direction: Course, time: int, env: Env)
    requires Inv(s) && j < 4 && direction != STOP
    ensures Inv(PDrive(s, j, direction, time, env))
  {
    if s.drvstate[j] != direction {
      StopKeeps(s, j, env);
      var t := PStop(s, j, env);
      if t.position[j] != direction {
        DrvKeeps(t, j, direction, time, false, env);
      }
    }
  }

  lemma OffsetKeeps(s: State)
    requires Inv(s)
    ensures Inv(NextOffset(s))
  {
    assert forall j: nat :: j < 4 ==> BlindOk(s, j) ==> BlindOk(NextOffset(s), j);
    assert forall id :: TimerOk(s, id) ==> TimerOk(NextOffset(s), id);
  }

  lemma SonneKeeps(s: State, j: nat, env: Env)
    requires Inv(s) && j < 4
    ensures Inv(DrvSonne(s, j, env))
    ensures forall id :: id in s.timers && s.timers[id].awake ==> id in DrvSonne(s, j, env).timers && DrvSonne(s, j, env).timers[id] == s.timers[id]
    ensures forall id :: id in s.timers && s.timers[id].awake && DrvSonne(s, j, env).drvstate[j] != STOP ==> id != DrvSonne(s, j, env).thr[j]
  {
    StopKeeps(s, j, env);
    var t := PStop(s, j, env);
    if t.position[j] == Ab {
      DrvKeeps(t, j, Auf, SONNENZEIT, false, env);
    } else {
      OffsetKeeps(t);
      DrvKeeps(NextOffset(t), j, Ab, FullTime(NextOffset(t)), true, env);
    }
  }

  lemma CommandKeeps(s: State, c: Command, j: nat, env: Env)
    requires Inv(s) && j < 4 && GoodCommand(c)
    ensures Inv(Do(s, c, j, env))
  {
    match c
    case DriveCmd(d) =>
      OffsetKeeps(s);
      PDriveKeeps(NextOffset(s), j, d, FullTime(NextOffset(s)), env);
    case ImpulseCmd(d, time) => PDriveKeeps(s, j, d, time, env);
    case ToggleCmd(d) =>
      OffsetKeeps(s);
      PDriveKeeps(NextOffset(s), j, d, FullTime(NextOffset(s)), env);
      StopKeeps(s, j, env);
    case SunCmd => SonneKeeps(s, j, env);
    case StopCmd => StopKeeps(s, j, env);
  }

  lemma WakeKeeps(s: State, id: nat)
    requires Inv(s) && Enabled(s, WakeEvent(id))
    ensures Inv(Wake(s, id))
  {
    var t := Wake(s, id);
    forall k: nat | k < 4
      ensures BlindOk(t, k)
    {
      assert BlindOk(s, k);
    }
    forall i
      ensures TimerOk(t, i)
    {
      assert TimerOk(s, i);
    }
  }

  /** The thread that ends is no longer the recorded one of a moving blind. */
  lemma FinishKeeps(s: State, id: nat, env: Env)
    requires Inv(s) && Enabled(s, FinishEvent(id, env))
    ensures Inv(Finish(s, id, env))
    ensures !s.timers[id].sun ==> Finish(s, id, env).drvstate[s.timers[id].blind] == STOP
  {
    var j := s.timers[id].blind;
    var t := if s.timers[id].sun then DrvSonne(s, j, env) else PStop(s, j, env);
    StopKeeps(s, j, env);
    SonneKeeps(s, j, env);
    var u := Finish(s, id, env);
    forall k: nat | k < 4
      ensures BlindOk(u, k)
    {
      assert BlindOk(t, k);
    }
    forall i
      ensures TimerOk(u, i)
    {
      assert TimerOk(t, i);
    }
  }

  lemma ResetKeeps(s: State)
    requires Inv(s)
    ensures Inv(Reset(s)) && Reset(s) == s.(relay := Reset(s).relay)
  {
    var a := InitOut(s);
    InitKeeps(s, a, 0);
    var t := Reset(s);
    forall k: nat | k < 4
      ensures BlindOk(t, k)
    {
      assert BlindOk(s, k);
    }
    forall id
      ensures TimerOk(t, id)
    {
      assert TimerOk(s, id);
    }
  }

  /** init() works its way through the blinds; those behind it are still off. */
  lemma {:induction false} InitKeeps(s: State, a: State, j: nat)
    requires Inv(s) && Shape(a) && j <= 4 && a == s.(relay := a.relay)
    requires forall k: nat :: k < j ==> a.relay[2 * k] == (s.drvstate[k] == Ab) && a.relay[2 * k + 1] == (s.drvstate[k] == Auf)
    requires forall p :: 2 * j <= p < 8 ==> !a.relay[p]
    ensures InitFrom(a, j) == s.(relay := InitFrom(a, j).relay)
    ensures var b := InitFrom(a, j);
      forall k: nat :: k < 4 ==> b.relay[2 * k] == (s.drvstate[k] == Ab) && b.relay[2 * k + 1] == (s.drvstate[k] == Auf)
    decreases 4 - j
  {
    if j < 4 {
      var b := SetRelay(a, 2 * j, s.drvstate[j] == Ab);
      assert !BothOn(b.relay);
      var c := SetRelay(b, 2 * j + 1, s.drvstate[j] == Auf);
      assert !BothOn(c.relay);
      InitKeeps(s, c, j + 1);
    }
  }

  lemma StepKeeps(s: State, e: Event)
    requires Inv(s) && Enabled(s, e)
    ensures Inv(Step(s, e))
  {
    match e
    case CommandEvent(c, j, env) => CommandKeeps(s, c, j, env);
    case WakeEvent(id) => WakeKeeps(s, id);
    case FinishEvent(id, env) => FinishKeeps(s, id, env);
    case ResetEvent => ResetKeeps(s);
  }

  lemma {:induction false} RunKeeps(s: State, es: seq<Event>)
    requires Inv(s) && IsRun(s, es)
    ensures Inv(Run(s, es))
    decreases |es|
  {
    if es != [] {
      StepKeeps(s, es[0]);
      RunKeeps(Step(s, es[0]), es[1..]);
    }
  }

  /**
    Relay interlock: over every run, with stale threads, failed thread creation and device resets, no
    single relay command ever leaves both relays of a blind on, and between steps the pair is exactly
    the drive state.
  */
  lemma RelayInterlock(es: seq<Event>, j: nat)
    requires IsRun(Initial(), es) && j < 4
    ensures var s := Run(Initial(), es);
      && !s.clash && !(s.relay[2 * j] && s.relay[2 * j + 1])
      && s.drvstate[j] == (if s.relay[2 * j] then Ab else if s.relay[2 * j + 1] then Auf else STOP)
  {
    InitialOk();
    RunKeeps(Initial(), es);
    assert BlindOk(Run(Initial(), es), j);
  }

  /**
    No runaway: a blind that moves has its recorded thread alive, no cancellation ever hits a thread that
    has ended, and the recorded thread stops the blind or, in a sun drive, hands it to a new live thread.
  */
  lemma NoRunaway(es: seq<Event>, j: nat, env: Env)
    requires IsRun(Initial(), es) && j < 4 && Run(Initial(), es).drvstate[j] != STOP
    ensures var s := Run(Initial(), es);
      && !s.stray
      && s.thr[j] in s.timers && s.timers[s.thr[j]].blind == j && s.timers[s.thr[j]].direction == s.drvstate[j]
      && var w := if s.timers[s.thr[j]].awake then s else Wake(s, s.thr[j]);
         var t := Finish(w, s.thr[j], env);
         && s.thr[j] !in t.timers
         && (t.drvstate[j] == STOP || (s.timers[s.thr[j]].sun && t.thr[j] in t.timers && t.thr[j] != s.thr[j]))
  {
    InitialOk();
    RunKeeps(Initial(), es);
    var s := Run(Initial(), es);
    assert BlindOk(s, j);
    var id := s.thr[j];
    var w := if s.timers[id].awake then s else Wake(s, id);
    if !s.timers[id].awake {
      WakeKeeps(s, id);
    }
    FinishKeeps(w, id, env);
    assert BlindOk(Finish(w, id, env), j);
  }

  lemma InitialOk()
    ensures Inv(Initial())
  {
  }

  /** A device reset puts the relays back to what the controller believes. */
  lemma ResetRestoresRelays(s: State, relay: seq<bool>)
    requires Inv(s) && |relay| == 16
    ensures Reset(s.(relay := relay)) == s.(relay := Reset(s).relay)
    ensures forall j: nat :: j < 4 ==> BlindOk(Reset(s.(relay := relay)), j)
  {
    ResetKeeps(s);
    assert InitOut(s.(relay := relay)) == InitOut(s);
  }

  /** If no thread can be created, a blind that is driven stands still with both relays off, and its position is unknown. */
  lemma FailedCreation(s: State, j: nat, d: Course, env: Env)
    requires Inv(s) && j < 4 && d != STOP && !env.ok && s.drvstate[j] != d && s.position[j] != d
    ensures var t := Do(s, DriveCmd(d), j, env);
      && t.drvstate == s.drvstate[j := STOP] && t.position == s.position[j := UNDEF]
      && !t.relay[2 * j] && !t.relay[2 * j + 1] && t.timers.Keys <= s.timers.Keys
  {
    var a := NextOffset(s);
    OffsetKeeps(s);
    StopKeeps(a, j, env);
    assert BlindOk(PStop(a, j, env), j);
  }
}
