/**
  When the claimed position of a blind can be trusted.  A claim is made by a thread that slept through a
  full drive; it is wrong if that drive is over by then.  Exactly the threads that outlived their drive
  asleep can make a wrong one.
*/
module BlindClaims {
  import opened Blinds
  import opened BlindSafety

  /** A blind that is said to be at an end rests there or still drives towards it. */
  predicate Claims(s: State, j: nat)
    requires Shape(s) && j < 4
  {
    s.position[j] != UNDEF ==> s.drvstate[j] == STOP || s.drvstate[j] == s.position[j]
  }

  /** The thread of a drive that still goes on. */
  predicate Live(s: State, id: nat)
    requires Shape(s)
  {
    id in s.timers && s.timers[id].blind < 4 && s.thr[s.timers[id].blind] == id && s.drvstate[s.timers[id].blind] == s.timers[id].direction
  }

  predicate Sleeps(s: State, id: nat) {
    id in s.timers && s.timers[id].blind < 4 && !s.timers[id].awake && s.timers[id].time >= FAHRZEIT
  }

  /** A thread that sleeps through a full drive which is over. */
  predicate Stale(s: State, id: nat)
    requires Shape(s)
  {
    Sleeps(s, id) && !Live(s, id)
  }

  ghost predicate Sound(s: State) {
    && Inv(s)
    && (forall j: nat :: j < 4 ==> Claims(s, j))
    && (forall id :: !Stale(s, id))
  }

  /** No cancellation in this step comes too late. */
  predicate InTime(e: Event) {
    match e
    case CommandEvent(_, _, env) => env.hit
    case WakeEvent(_) => true
    case FinishEvent(_, env) => env.hit
    case ResetEvent => true
  }

  predicate AllInTime(es: seq<Event>) {
    forall i :: 0 <= i < |es| ==> InTime(es[i])
  }

  // ---------------------------------------------------------------- cancellations in time

  lemma StopSound(s: State, j: nat, env: Env)
    requires Sound(s) && j < 4 && env.hit
    ensures Sound(PStop(s, j, env))
  {
    var t := PStop(s, j, env);
    StopKeeps(s, j, env);
    assert BlindOk(s, j);
    forall k: nat | k < 4
      ensures Claims(t, k)
    {
      assert Claims(s, k);
    }
    forall id
      ensures !Stale(t, id)
    {
      assert !Stale(s, id) && TimerOk(s, id);
    }
  }

  lemma DrvSound(s: State, j: nat, direction: Course, time: int, sun: bool, env: Env)
    requires Sound(s) && j < 4 && direction != STOP && s.drvstate[j] == STOP
    ensures Sound(Drv(s, j, direction, time, sun, env))
  {
    var t := Drv(s, j, direction, time, sun, env);
    DrvKeeps(s, j, direction, time, sun, env);
    forall k: nat | k < 4
      ensures Claims(t, k)
    {
      assert Claims(s, k);
    }
    forall id
      ensures !Stale(t, id)
    {
      assert !Stale(s, id) && TimerOk(s, id);
    }
  }

  lemma OffsetSound(s: State)
    requires Sound(s)
    ensures Sound(NextOffset(s))
  {
    var t := NextOffset(s);
    OffsetKeeps(s);
    assert forall k: nat :: k < 4 && Claims(s, k) ==> Claims(t, k);
    assert forall id :: !Stale(s, id) ==> !Stale(t, id);
  }

  lemma PDriveSound(s: State, j: nat, direction: Course, time: int, env: Env)
    requires Sound(s) && j < 4 && direction != STOP && env.hit
    ensures Sound(PDrive(s, j, direction, time, env))
  {
    assert Shape(s);
    hide Sound, Drv;
    if s.drvstate[j] != direction {
      var t := PStop(s, j, env);
      StopSound(s, j, env);
      assert t.drvstate[j] == STOP;
      if t.position[j] != direction {
        DrvSound(t, j, direction, time, false, env);
      }
    }
  }

  lemma SonneSound(s: State, j: nat, env: Env)
    requires Sound(s) && j < 4 && env.hit
    ensures Sound(DrvSonne(s, j, env))
  {
    assert Shape(s);
    hide Sound, Drv;
    var t := PStop(s, j, env);
    StopSound(s, j, env);
    assert t.drvstate[j] == STOP;
    if t.position[j] == Ab {
      DrvSound(t, j, Auf, SONNENZEIT, false, env);
    } else {
      OffsetSound(t);
      DrvSound(NextOffset(t), j, Ab, FullTime(NextOffset(t)), true, env);
    }
  }

  lemma CommandSound(s: State, c: Command, j: nat, env: Env)
    requires Sound(s) && j < 4 && GoodCommand(c) && env.hit
    ensures Sound(Do(s, c, j, env))
  {
    assert Shape(s);
    hide Sound, PDrive, DrvSonne;
    OffsetSound(s);
    match c
    case DriveCmd(d) => PDriveSound(NextOffset(s), j, d, FullTime(NextOffset(s)), env);
    case ImpulseCmd(d, time) => PDriveSound(s, j, d, time, env);
    case ToggleCmd(d) =>
      PDriveSound(NextOffset(s), j, d, FullTime(NextOffset(s)), env);
      StopSound(s, j, env);
    case SunCmd => SonneSound(s, j, env);
    case StopCmd => StopSound(s, j, env);
  }

  lemma WakeSound(s: State, id: nat)
    requires Sound(s) && Enabled(s, WakeEvent(id))
    ensures Sound(Wake(s, id))
  {
    var t := Wake(s, id);
    WakeKeeps(s, id);
    forall k: nat | k < 4
      ensures Claims(t, k)
    {
      assert Claims(s, k) && !Stale(s, id);
    }
    forall i
      ensures !Stale(t, i)
    {
      assert !Stale(s, i);
    }
  }

  lemma FinishSound(s: State, id: nat, env: Env)
    requires Sound(s) && Enabled(s, FinishEvent(id, env)) && env.hit
    ensures Sound(Finish(s, id, env))
  {
    var j := s.timers[id].blind;
    var t := if s.timers[id].sun then DrvSonne(s, j, env) else PStop(s, j, env);
    var u := Finish(s, id, env);
    assert Sound(t) && u == t.(timers := t.timers - {id}) by {
      StopSound(s, j, env);
      SonneSound(s, j, env);
    }
    FinishKeeps(s, id, env);
    forall k: nat | k < 4
      ensures Claims(u, k)
    {
      assert Claims(t, k);
    }
    forall i
      ensures !Stale(u, i)
    {
      assert !Stale(t, i);
    }
  }

  lemma ResetSound(s: State)
    requires Sound(s)
    ensures Sound(Reset(s))
  {
    var t := Reset(s);
    ResetKeeps(s);
    assert forall k: nat :: k < 4 && Claims(s, k) ==> Claims(t, k);
    assert forall id :: !Stale(s, id) ==> !Stale(t, id);
  }

  lemma StepSound(s: State, e: Event)
    requires Sound(s) && Enabled(s, e) && InTime(e)
    ensures Sound(Step(s, e))
  {
    match e
    case CommandEvent(c, j, env) => CommandSound(s, c, j, env);
    case WakeEvent(id) => WakeSound(s, id);
    case FinishEvent(id, env) => FinishSound(s, id, env);
    case ResetEvent => ResetSound(s);
  }

  lemma {:induction false} RunSound(s: State, es: seq<Event>)
    requires Sound(s) && IsRun(s, es) && AllInTime(es)
    ensures Sound(Run(s, es))
    decreases |es|
  {
    if es != [] {
      StepSound(s, es[0]);
      RunSound(Step(s, es[0]), es[1..]);
    }
  }

  // ---------------------------------------------------------------- a stale thread

  function Opposite(d: Course): Course {
    if d == Auf then Ab else Auf
  }

  /** A stale thread is not the one that a stop cancels, so it stays, and stays stale. */
  lemma StopKeepsStale(s: State, j: nat, env: Env, id: nat)
    requires Inv(s) && j < 4 && Stale(s, id)
    ensures Stale(PStop(s, j, env), id) && PStop(s, j, env).timers[id] == s.timers[id]
  {
    assert BlindOk(s, j) && TimerOk(s, id);
  }

  lemma DrvKeepsStale(s: State, j: nat, direction: Course, time: int, env: Env, id: nat)
    requires Inv(s) && j < 4 && direction != STOP && Stale(s, id) && env.ok
    ensures var t := Drv(s, j, direction, time, false, env);
      Stale(t, id) && t.timers[id] == s.timers[id] && t.drvstate[j] == direction && t.position[j] == UNDEF
  {
    assert TimerOk(s, id);
  }

  lemma PDriveKeepsStale(s: State, j: nat, direction: Course, time: int, env: Env, id: nat)
    requires Inv(s) && j < 4 && direction != STOP && Stale(s, id) && env.ok
    ensures var t := PDrive(s, j, direction, time, env);
      && Stale(t, id) && t.timers[id] == s.timers[id]
      && (s.drvstate[j] != direction ==> (t.drvstate[j] == STOP && t.position[j] == direction == s.position[j]) ||
                                         (t.drvstate[j] == direction && t.position[j] == UNDEF))
  {
    assert Shape(s);
    hide Drv, Inv;
    if s.drvstate[j] != direction {
      StopKeeps(s, j, env);
      StopKeepsStale(s, j, env, id);
      var t := PStop(s, j, env);
      assert t.position == s.position && t.drvstate[j] == STOP;
      if t.position[j] != direction {
        DrvKeepsStale(t, j, direction, time, env, id);
      }
    }
  }

  /** Two impulses bring the blind of a stale thread to drive the other way, while the thread sleeps on. */
  lemma TurnRound(s: State, id: nat, time: nat)
    requires Inv(s) && Stale(s, id) && Claims(s, s.timers[id].blind)
    ensures s.timers[id].blind < 4 && s.timers[id].direction != STOP
    ensures var j, d, env := s.timers[id].blind, s.timers[id].direction, Env(true, true, 0);
      var t := PDrive(PDrive(s, j, d, time, env), j, Opposite(d), time, env);
      Inv(t) && Stale(t, id) && t.timers[id] == s.timers[id] && t.drvstate[j] == Opposite(d) && t.position[j] == UNDEF
  {
    hide PDrive;
    assert TimerOk(s, id);
    var j, d, env := s.timers[id].blind, s.timers[id].direction, Env(true, true, 0);
    var a := PDrive(s, j, d, time, env);
    assert a == s || s.drvstate[j] != d by { Already(s, j, d, time, env); }
    PDriveKeeps(s, j, d, time, env);
    PDriveKeepsStale(s, j, d, time, env, id);
    PDriveKeeps(a, j, Opposite(d), time, env);
    PDriveKeepsStale(a, j, Opposite(d), time, env, id);
  }

  lemma Already(s: State, j: nat, d: Course, time: int, env: Env)
    requires Shape(s) && j < 4 && d != STOP
    ensures s.drvstate[j] == d ==> PDrive(s, j, d, time, env) == s
  {
  }

  lemma RunTwo(s: State, e: Event, es: seq<Event>)
    requires Shape(s) && Enabled(s, e) && IsRun(Step(s, e), es)
    ensures IsRun(s, [e] + es) && Run(s, [e] + es) == Run(Step(s, e), es)
  {
    assert ([e] + es)[1..] == es;
  }

  /** Every claim in every continuation in which no cancellation is late is right. */
  ghost predicate StaysSound(s: State)
    requires Shape(s)
  {
    forall es: seq<Event>, j: nat :: IsRun(s, es) && AllInTime(es) && j < 4 ==> Claims(Run(s, es), j)
  }

  /** Even if from now on every cancellation is in time, a stale thread can make a wrong claim. */
  lemma StaleFalsifies(s: State, id: nat)
    requires Inv(s) && Stale(s, id)
    ensures !StaysSound(s)
  {
    hide PDrive, Wake, Claims;
    assert TimerOk(s, id);
    var j, d, env := s.timers[id].blind, s.timers[id].direction, Env(true, true, 0);
    if !Claims(s, j) {
      assert IsRun(s, []) && AllInTime([]) && Run(s, []) == s;
    } else {
      TurnRound(s, id, 0);
      var e1, e2, e3 := CommandEvent(ImpulseCmd(d, 0), j, env), CommandEvent(ImpulseCmd(Opposite(d), 0), j, env), WakeEvent(id);
      var s1 := Step(s, e1);
      var s2 := Step(s1, e2);
      var s3 := Step(s2, e3);
      assert IsRun(s3, []) && Run(s3, []) == s3;
      RunTwo(s2, e3, []);
      RunTwo(s1, e2, [e3] + []);
      RunTwo(s, e1, [e2] + ([e3] + []));
      var es := [e1] + ([e2] + ([e3] + []));
      assert IsRun(s, es) && AllInTime(es) && Run(s, es) == s3;
      assert !Claims(s3, j) by { WrongClaim(s2, id); }
    }
  }

  lemma WrongClaim(s: State, id: nat)
    requires Inv(s) && Sleeps(s, id) && s.timers[id].blind < 4 && s.timers[id].direction != STOP
    requires s.drvstate[s.timers[id].blind] == Opposite(s.timers[id].direction)
    ensures Wake(s, id).position[s.timers[id].blind] == s.timers[id].direction
    ensures !Claims(Wake(s, id), s.timers[id].blind)
  {
  }

  /**
    In every reachable state: the claims stay right in all continuations without a late cancellation exactly
    if they are right now and no thread sleeps through a full drive that is over.
  */
  lemma ClaimsStayRightExactly(es: seq<Event>)
    requires IsRun(Initial(), es)
    ensures var s := Run(Initial(), es);
      StaysSound(s) <==> (forall j: nat :: j < 4 ==> Claims(s, j)) && (forall id :: !Stale(s, id))
  {
    hide Claims, Stale;
    InitialOk();
    RunKeeps(Initial(), es);
    var s := Run(Initial(), es);
    if (forall j: nat :: j < 4 ==> Claims(s, j)) && (forall id :: !Stale(s, id)) {
      forall more: seq<Event>, j: nat | IsRun(s, more) && AllInTime(more) && j < 4
        ensures Claims(Run(s, more), j)
      {
        RunSound(s, more);
      }
    } else if id :| Stale(s, id) {
      StaleFalsifies(s, id);
    } else {
      assert IsRun(s, []) && AllInTime([]) && Run(s, []) == s;
    }
  }

  /** Without a late cancellation every claim is right, however the threads are interleaved. */
  lemma ClaimsAreRight(es: seq<Event>, j: nat)
    requires IsRun(Initial(), es) && AllInTime(es) && j < 4
    ensures Claims(Run(Initial(), es), j)
  {
    InitialOk();
    RunSound(Initial(), es);
  }

  /** And one late cancellation of a thread that sleeps through a full drive is enough to lose that. */
  lemma OneLateCancellation(s: State, j: nat, ok: bool, junk: nat)
    requires Inv(s) && j < 4 && s.drvstate[j] != STOP && Sleeps(s, s.thr[j])
    ensures !StaysSound(PStop(s, j, Env(false, ok, junk)))
  {
    var env := Env(false, ok, junk);
    assert BlindOk(s, j);
    StopKeeps(s, j, env);
    StaleFalsifies(PStop(s, j, env), s.thr[j]);
  }

  /**
    For example: a drive down is reversed, the cancellation of its thread comes too late, and the thread
    claims AB while the blind moves up.
  */
  lemma StaleClaim(env: Env) returns (es: seq<Event>)
    requires env == Env(false, true, 0)
    ensures IsRun(Initial(), es)
    ensures Run(Initial(), es).position[0] == Ab && Run(Initial(), es).drvstate[0] == Auf
  {
    var down := CommandEvent(DriveCmd(Ab), 0, env);
    var up := CommandEvent(DriveCmd(Auf), 0, env);
    var s1 := Step(Initial(), down);
    var s2 := Step(s1, up);
    var s3 := Wake(s2, 0);
    assert s3.position[0] == Ab && s3.drvstate[0] == Auf by { Reversed(env); }
    assert IsRun(s3, []) && Run(s3, []) == s3;
    RunTwo(s2, WakeEvent(0), []);
    RunTwo(s1, up, [WakeEvent(0)] + []);
    RunTwo(Initial(), down, [up] + ([WakeEvent(0)] + []));
    es := [down] + ([up] + ([WakeEvent(0)] + []));
  }

  lemma Reversed(env: Env)
    requires env == Env(false, true, 0)
    ensures var s2 := Drive(Drive(Initial(), 0, Ab, env), 0, Auf, env);
      && 0 in s2.timers && !s2.timers[0].awake && s2.timers[0].blind == 0
      && Wake(s2, 0).position[0] == Ab && Wake(s2, 0).drvstate[0] == Auf
  {
    var s1 := Drive(Initial(), 0, Ab, env);
    assert s1.timers == map[0 := Timer(0, FullTime(s1), Ab, false, false)];
    assert s1.drvstate[0] == Ab && s1.position[0] == UNDEF && s1.next == 1;
    var a := PStop(NextOffset(s1), 0, env);
    assert a.timers == s1.timers && a.drvstate[0] == STOP && a.position[0] == UNDEF && a.next == 1;
  }
}
