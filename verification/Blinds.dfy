/**
  The blind controller of jalousie.cpp as functions on its state: four motors, two relays each, and a
  detached timer thread per drive.  Jalousie.dfy implements them in place.

  A public method holds the lock, so it is one step.  A timer thread is asleep, then awake (it has
  disabled its cancellation and, after a full drive, called setPosition without the lock), then done
  (the locked drvSonne or stop).  Cancelling a thread that sleeps may end it or come too late; cancelling
  one that is awake has no effect.
*/
module Blinds {
  /** STOP and UNDEF are both 0, AUF is 1, AB is 2. */
  datatype Course = Off | Auf | Ab

  const STOP := Off
  const UNDEF := Off

  const FAHRZEIT: int := 70000000
  const SONNENZEIT: int := 350000

  datatype Timer = Timer(blind: nat, time: int, direction: Course, sun: bool, awake: bool)

  /**
    `relay` is the last commanded image of the MAX7311.  `clash` remembers whether any single relay
    command left both relays of a blind on, `stray` whether a thread was cancelled that had ended.
  */
  datatype State = State(
    position: seq<Course>,
    drvstate: seq<Course>,
    thr: seq<nat>,
    offset: nat,
    relay: seq<bool>,
    clash: bool,
    timers: map<nat, Timer>,
    next: nat,
    stray: bool)

  /** What the system decides: whether a cancellation comes in time, whether a thread can be created, and what a failed creation leaves in thr_id. */
  datatype Env = Env(hit: bool, ok: bool, junk: nat)

  predicate Shape(s: State) {
    |s.position| == |s.drvstate| == |s.thr| == 4 && |s.relay| == 16 && s.offset < 4
  }

  predicate BothOn(relay: seq<bool>)
    requires |relay| == 16
  {
    exists j: nat :: j < 4 && relay[2 * j] && relay[2 * j + 1]
  }

  function SetRelay(s: State, port: nat, on: bool): (t: State)
    requires Shape(s) && port < 16
    ensures Shape(t)
  {
    var relay := s.relay[port := on];
    s.(relay := relay, clash := s.clash || BothOn(relay))
  }

  function Cancel(s: State, id: nat, hit: bool): State {
    if id !in s.timers then s.(stray := true)
    else if hit && !s.timers[id].awake then s.(timers := s.timers - {id})
    else s
  }

  function PStop(s: State, j: nat, env: Env): (t: State)
    requires Shape(s) && j < 4
    ensures Shape(t)
  {
    if s.drvstate[j] == STOP then s
    else
      var t := s.(drvstate := s.drvstate[j := STOP]);
      Cancel(SetRelay(SetRelay(t, 2 * j, false), 2 * j + 1, false), s.thr[j], env.hit)
  }

  function Drv(s: State, j: nat, direction: Course, time: int, sun: bool, env: Env): (t: State)
    requires Shape(s) && j < 4 && direction != STOP
    ensures Shape(t)
  {
    var t := s.(position := s.position[j := UNDEF]);
    if !env.ok then t.(thr := t.thr[j := env.junk])
    else
      var u := t.(
        timers := t.timers[t.next := Timer(j, time, direction, sun, false)],
        thr := t.thr[j := t.next],
        next := t.next + 1,
        drvstate := t.drvstate[j := direction]);
      SetRelay(u, if direction == Auf then 2 * j + 1 else 2 * j, true)
  }

  /** pdrvAufwaerts and pdrvAbwaerts: nothing to do, or stop the opposite drive and start this one. */
  function PDrive(s: State, j: nat, direction: Course, time: int, env: Env): (t: State)
    requires Shape(s) && j < 4 && direction != STOP
    ensures Shape(t)
  {
    if s.drvstate[j] == direction then s
    else
      var t := PStop(s, j, env);
      if t.position[j] == direction then t else Drv(t, j, direction, time, false, env)
  }

  /** offset(): 0, 800, 1600 or 2400 ms, in turn. */
  function NextOffset(s: State): (t: State)
    requires Shape(s)
    ensures Shape(t)
  {
    s.(offset := if s.offset + 1 == 4 then 0 else s.offset + 1)
  }

  function FullTime(s: State): int {
    FAHRZEIT + s.offset * 800000
  }

  function DriveFor(s: State, j: nat, direction: Course, imptime: int, env: Env): (t: State)
    requires Shape(s) && j < 4 && direction != STOP
    ensures Shape(t)
  {
    PDrive(s, j, direction, imptime, env)
  }

  function Drive(s: State, j: nat, direction: Course, env: Env): (t: State)
    requires Shape(s) && j < 4 && direction != STOP
    ensures Shape(t)
  {
    var t := NextOffset(s);
    PDrive(t, j, direction, FullTime(t), env)
  }

  function Toggle(s: State, j: nat, direction: Course, env: Env): (t: State)
    requires Shape(s) && j < 4 && direction != STOP
    ensures Shape(t)
  {
    if s.drvstate[j] == STOP then Drive(s, j, direction, env) else PStop(s, j, env)
  }

  /** Closed already: only a short way up.  Otherwise: close first, with a timer that comes back here. */
  function DrvSonne(s: State, j: nat, env: Env): (t: State)
    requires Shape(s) && j < 4
    ensures Shape(t)
  {
    var t := PStop(s, j, env);
    if t.position[j] == Ab then Drv(t, j, Auf, SONNENZEIT, false, env)
    else Drv(NextOffset(t), j, Ab, FullTime(NextOffset(t)), true, env)
  }

  /** The timer wakes up: after a full drive it claims the end position. */
  function Wake(s: State, id: nat): (t: State)
    requires Shape(s) && id in s.timers && s.timers[id].blind < 4
    ensures Shape(t)
  {
    var timer := s.timers[id];
    var t := s.(timers := s.timers[id := timer.(awake := true)]);
    if timer.time >= FAHRZEIT then t.(position := t.position[timer.blind := timer.direction]) else t
  }

  /** The locked end of the timer thread. */
  function Finish(s: State, id: nat, env: Env): (t: State)
    requires Shape(s) && id in s.timers && s.timers[id].blind < 4
    ensures Shape(t)
  {
    var timer := s.timers[id];
    var t := if timer.sun then DrvSonne(s, timer.blind, env) else PStop(s, timer.blind, env);
    t.(timers := t.timers - {id})
  }

  /** init(): the relays of blind `j` and above are set from drvstate. */
  function InitFrom(s: State, j: nat): (t: State)
    requires Shape(s) && j <= 4
    ensures Shape(t)
    decreases 4 - j
  {
    if j == 4 then s
    else InitFrom(SetRelay(SetRelay(s, 2 * j, s.drvstate[j] == Ab), 2 * j + 1, s.drvstate[j] == Auf), j + 1)
  }

  /** initOut(): one command for all sixteen ports. */
  function InitOut(s: State): (t: State)
    requires Shape(s)
    ensures Shape(t)
  {
    s.(relay := seq(16, _ => false))
  }

  /** The E6 device came back: initOut, then init. */
  function Reset(s: State): (t: State)
    requires Shape(s)
    ensures Shape(t)
  {
    InitFrom(InitOut(s), 0)
  }

  function Initial(): (s: State)
    ensures Shape(s)
  {
    State([UNDEF, UNDEF, UNDEF, UNDEF], [STOP, STOP, STOP, STOP], [0, 0, 0, 0], 0, seq(16, _ => false), false, map[], 0, false)
  }

  // ---------------------------------------------------------------- steps

  datatype Command = DriveCmd(direction: Course) | ImpulseCmd(direction: Course, imptime: nat) | ToggleCmd(direction: Course) | SunCmd | StopCmd

  predicate GoodCommand(c: Command) {
    (c.DriveCmd? || c.ImpulseCmd? || c.ToggleCmd?) ==> c.direction != STOP
  }

  function Do(s: State, c: Command, j: nat, env: Env): (t: State)
    requires Shape(s) && j < 4 && GoodCommand(c)
    ensures Shape(t)
  {
    match c
    case DriveCmd(d) => Drive(s, j, d, env)
    case ImpulseCmd(d, time) => DriveFor(s, j, d, time, env)
    case ToggleCmd(d) => Toggle(s, j, d, env)
    case SunCmd => DrvSonne(s, j, env)
    case StopCmd => PStop(s, j, env)
  }

  datatype Event = CommandEvent(c: Command, j: nat, env: Env) | WakeEvent(id: nat) | FinishEvent(id: nat, env: Env) | ResetEvent

  predicate Enabled(s: State, e: Event) {
    match e
    case CommandEvent(c, j, _) => j < 4 && GoodCommand(c)
    case WakeEvent(id) => id in s.timers && !s.timers[id].awake && s.timers[id].blind < 4
    case FinishEvent(id, _) => id in s.timers && s.timers[id].awake && s.timers[id].blind < 4
    case ResetEvent => true
  }

  function Step(s: State, e: Event): (t: State)
    requires Shape(s) && Enabled(s, e)
    ensures Shape(t)
  {
    match e
    case CommandEvent(c, j, env) => Do(s, c, j, env)
    case WakeEvent(id) => Wake(s, id)
    case FinishEvent(id, env) => Finish(s, id, env)
    case ResetEvent => Reset(s)
  }

  predicate IsRun(s: State, es: seq<Event>)
    requires Shape(s)
    decreases |es|
  {
    es == [] || (Enabled(s, es[0]) && IsRun(Step(s, es[0]), es[1..]))
  }

  function Run(s: State, es: seq<Event>): (t: State)
    requires Shape(s) && IsRun(s, es)
    ensures Shape(t)
    decreases |es|
  {
    if es == [] then s else Run(Step(s, es[0]), es[1..])
  }
}
