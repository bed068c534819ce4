/**
  The terrace (class Terrasse): two irrigation valves that are opened by hand or for a number of minutes,
  and a socket.  Methods are single steps; a cancellation may come too late.
*/
module Garden {
  import opened Lists
  import opened Pcf8574

  /** AUS, AN and TIMER_AN. */
  datatype Valve = Aus | An | TimerAn

  datatype ValveTimer = ValveTimer(valve: nat, time: int)

  /** `stray` remembers whether a thread was cancelled that had ended. */
  datatype State = State(
    board: Board, valve: seq<Valve>, socket: bool,
    thr: seq<nat>, timers: map<nat, ValveTimer>, next: nat, stray: bool)

  predicate Shape(s: State) {
    |s.valve| == |s.thr| == 2
  }

  function PortOf(n: nat): Port {
    if n == 0 then VENTIL_1 else VENTIL_2
  }

  /** `hit` says whether the cancellation comes in time. */
  function Cancel(s: State, id: nat, hit: bool): State {
    if id !in s.timers then s.(stray := true) else if hit then s.(timers := s.timers - {id}) else s
  }

  /** setVentil_1 and setVentil_2 */
  function SetVentil(s: State, n: nat, v: Valve, hit: bool): (t: State)
    requires Shape(s) && n < 2
    ensures Shape(t)
  {
    if v == An && s.valve[n] == TimerAn then s
    else if s.valve[n] == v then s
    else
      var t := if v == Aus && s.valve[n] == TimerAn then Cancel(s, s.thr[n], hit) else s;
      t.(board := Put(t.board, PortOf(n), v != Aus), valve := t.valve[n := v])
  }

  /** startVentilTimer(index, dauer): `ok` and `junk` are what pthread_create makes of it. */
  function StartTimer(s: State, n: nat, dauer: int, ok: bool, junk: nat): (t: State)
    requires Shape(s) && n < 2
    ensures Shape(t)
  {
    if dauer < 1 || s.valve[n] != Aus then s
    else if !ok then s.(thr := s.thr[n := junk])
    else SetVentil(s.(timers := s.timers[s.next := ValveTimer(n, dauer * 60)], thr := s.thr[n := s.next], next := s.next + 1), n, TimerAn, true)
  }

  function SetSocket(s: State, on: bool): (t: State)
    requires Shape(s)
    ensures Shape(t)
  {
    if s.socket != on then s.(socket := on, board := Put(s.board, STECKDOSE, on)) else s
  }

  /** ventilTimer after its sleep. */
  function Expire(s: State, id: nat, hit: bool): (t: State)
    requires Shape(s) && id in s.timers && s.timers[id].valve < 2
    ensures Shape(t)
  {
    var t := SetVentil(s, s.timers[id].valve, Aus, hit);
    t.(timers := t.timers - {id})
  }

  /** init(): every output is written again. */
  function Refreshed(s: State): (t: State)
    requires Shape(s)
    ensures Shape(t)
  {
    s.(board := Put(Put(Put(s.board, VENTIL_1, s.valve[0] != Aus), VENTIL_2, s.valve[1] != Aus), STECKDOSE, s.socket))
  }

  function Initial(): (s: State)
    ensures Shape(s)
  {
    Refreshed(State(Sent(Board(255, 0)), [Aus, Aus], false, [0, 0], map[], 0, false))
  }

  class Terrasse {
    const pcf: Pcf8574
    var stateVentil_1: Valve
    var stateVentil_2: Valve
    var stateSteckdose: bool
    var thr_id: seq<nat>
    var threads: map<nat, ValveTimer>
    var nextThread: nat
    ghost var stray: bool

    ghost function Now(): (s: State)
      requires |thr_id| == 2
      reads this, pcf
      ensures Shape(s)
    {
      State(pcf.Now(), [stateVentil_1, stateVentil_2], stateSteckdose, thr_id, threads, nextThread, stray)
    }

    constructor (io: Pcf8574)
      modifies io
      ensures pcf == io && |thr_id| == 2
      ensures Now() == Refreshed(State(old(io.Now()), [Aus, Aus], false, [0, 0], map[], 0, false))
    {
      pcf := io;
      stateVentil_1, stateVentil_2, stateSteckdose := Aus, Aus, false;
      thr_id, threads, nextThread, stray := [0, 0], map[], 0, false;
      new;
      Init();
    }

    method Init()
      requires |thr_id| == 2
      modifies pcf
      ensures Now() == Refreshed(old(Now()))
    {
      if stateVentil_1 == Aus {
        pcf.Set(VENTIL_1, false);
      } else {
        pcf.Set(VENTIL_1, true);
      }
      if stateVentil_2 == Aus {
        pcf.Set(VENTIL_2, false);
      } else {
        pcf.Set(VENTIL_2, true);
      }
      if !stateSteckdose {
        pcf.Set(STECKDOSE, false);
      } else {
        pcf.Set(STECKDOSE, true);
      }
    }

    method PthreadCancel(id: nat, hit: bool)
      requires |thr_id| == 2
      modifies this
      ensures |thr_id| == 2 && Now() == Cancel(old(Now()), id, hit)
    {
      if id !in threads {
        stray := true;
      } else if hit {
        threads := threads - {id};
      }
    }

    method SetVentilTo(number: nat, state: Valve, hit: bool)
      requires |thr_id| == 2 && number < 2
      modifies this, pcf
      ensures |thr_id| == 2 && Now() == SetVentil(old(Now()), number, state, hit)
    {
      if number == 0 {
        SetVentil_1(state, hit);
      }
      if number == 1 {
        SetVentil_2(state, hit);
      }
    }

    method SetVentil_1(state: Valve, hit: bool)
      requires |thr_id| == 2
      modifies this, pcf
      ensures |thr_id| == 2 && Now() == SetVentil(old(Now()), 0, state, hit)
    {
      if state == An && stateVentil_1 == TimerAn {
        return;
      }
      if stateVentil_1 != state {
        if state == Aus {
          if stateVentil_1 == TimerAn {
            PthreadCancel(thr_id[0], hit);
          }
          pcf.Set(VENTIL_1, false);
        } else {
          pcf.Set(VENTIL_1, true);
        }
        stateVentil_1 := state;
      }
    }

    method SetVentil_2(state: Valve, hit: bool)
      requires |thr_id| == 2
      modifies this, pcf
      ensures |thr_id| == 2 && Now() == SetVentil(old(Now()), 1, state, hit)
    {
      if state == An && stateVentil_2 == TimerAn {
        return;
      }
      if stateVentil_2 != state {
        if state == Aus {
          if stateVentil_2 == TimerAn {
            PthreadCancel(thr_id[1], hit);
          }
          pcf.Set(VENTIL_2, false);
        } else {
          pcf.Set(VENTIL_2, true);
        }
        stateVentil_2 := state;
      }
    }

    method SetSteckdose(state: bool)
      requires |thr_id| == 2
      modifies this, pcf
      ensures |thr_id| == 2 && Now() == SetSocket(old(Now()), state)
    {
      if stateSteckdose != state {
        stateSteckdose := state;
        if !state {
          pcf.Set(STECKDOSE, false);
        } else {
          pcf.Set(STECKDOSE, true);
        }
      }
    }

    method StartVentilTimer(index: nat, dauer: int, ok: bool, junk: nat)
      requires |thr_id| == 2 && index < 2
      modifies this, pcf
      ensures |thr_id| == 2 && Now() == StartTimer(old(Now()), index, dauer, ok, junk)
    {
      if dauer < 1 {
        return;
      }
      if index == 0 && stateVentil_1 != Aus {
        return;
      }
      if index == 1 && stateVentil_2 != Aus {
        return;
      }
      if !ok {
        thr_id := thr_id[index := junk];
        return;
      }
      threads := threads[nextThread := ValveTimer(index, dauer * 60)];
      thr_id := thr_id[index := nextThread];
      nextThread := nextThread + 1;
      SetVentilTo(index, TimerAn, true);
    }

    method TimerExpires(id: nat, hit: bool)
      requires |thr_id| == 2 && id in threads && threads[id].valve < 2
      modifies this, pcf
      ensures |thr_id| == 2 && Now() == Expire(old(Now()), id, hit)
    {
      SetVentilTo(threads[id].valve, Aus, hit);
      threads := threads - {id};
    }
  }

  // ---------------------------------------------------------------- runs in time

  /** `left`: seconds every timer still sleeps; `ran`: seconds since the valve was last opened by a timer. */
  datatype World = World(s: State, left: map<nat, int>, ran: seq<int>)

  datatype Event =
    | ValveEvent(n: nat, open: bool, hit: bool) | TimerEvent(n: nat, dauer: int, ok: bool, junk: nat) | SocketEvent(on: bool)
    | ExpireEvent(id: nat, hit: bool) | PassEvent(dt: nat) | RestartEvent(lost: bv8)

  predicate Sized(w: World) {
    Shape(w.s) && |w.ran| == 2
  }

  predicate Enabled(w: World, e: Event) {
    match e
    case ValveEvent(n, _, _) => n < 2
    case TimerEvent(n, _, _, _) => n < 2
    case ExpireEvent(id, _) => id in w.s.timers && id in w.left && w.left[id] == 0 && w.s.timers[id].valve < 2
    case PassEvent(dt) => forall id :: id in w.left ==> dt <= w.left[id]
    case _ => true
  }

  function Moved(w: World, s: State): (v: World)
    requires Sized(w) && Shape(s)
    ensures Sized(v)
  {
    World(s,
          map id | id in s.timers :: if id in w.left then w.left[id] else s.timers[id].time,
          [if w.s.valve[0] != TimerAn then 0 else w.ran[0], if w.s.valve[1] != TimerAn then 0 else w.ran[1]])
  }

  function Step(w: World, e: Event): (v: World)
    requires Sized(w) && Enabled(w, e)
    ensures Sized(v)
  {
    match e
    case ValveEvent(n, open, hit) => Moved(w, SetVentil(w.s, n, if open then An else Aus, hit))
    case TimerEvent(n, dauer, ok, junk) => Moved(w, StartTimer(w.s, n, dauer, ok, junk))
    case SocketEvent(on) => Moved(w, SetSocket(w.s, on))
    case ExpireEvent(id, hit) => Moved(w, Expire(w.s, id, hit))
    case PassEvent(dt) =>
      w.(left := map id | id in w.left :: w.left[id] - dt,
         ran := [w.ran[0] + dt, w.ran[1] + dt])
    case RestartEvent(lost) => Moved(w, Refreshed(w.s.(board := Sent(w.s.board.(wire := lost)))))
  }

  predicate IsRun(w: World, es: seq<Event>)
    requires Sized(w)
    decreases |es|
  {
    es == [] || (Enabled(w, es[0]) && IsRun(Step(w, es[0]), es[1..]))
  }

  function Run(w: World, es: seq<Event>): (v: World)
    requires Sized(w) && IsRun(w, es)
    ensures Sized(v)
    decreases |es|
  {
    if es == [] then w else Run(Step(w, es[0]), es[1..])
  }

  /** No cancellation comes too late. */
  predicate InTime(es: seq<Event>) {
    forall i :: 0 <= i < |es| ==> (es[i].ValveEvent? || es[i].ExpireEvent? ==> es[i].hit)
  }

  predicate OutputsOk(s: State)
    requires Shape(s)
  {
    && IsOn(s.board.data, VENTIL_1) == (s.valve[0] != Aus)
    && IsOn(s.board.data, VENTIL_2) == (s.valve[1] != Aus)
    && IsOn(s.board.data, STECKDOSE) == s.socket
    && s.board.wire == s.board.data
  }

  /** A valve that is open for a time has its thread. */
  predicate ValveOk(s: State, n: nat)
    requires Shape(s) && n < 2
  {
    s.valve[n] == TimerAn ==> s.thr[n] in s.timers && s.timers[s.thr[n]].valve == n
  }

  /** A thread is the recorded one of a valve that is open for a time, and the two clocks add up. */
  predicate TimerOk(w: World, id: nat)
    requires Sized(w)
  {
    id in w.s.timers ==>
      var t := w.s.timers[id];
      && id < w.s.next && t.valve < 2 && w.s.thr[t.valve] == id && w.s.valve[t.valve] == TimerAn
      && id in w.left && 0 <= w.left[id] && w.ran[t.valve] + w.left[id] == t.time
  }

  ghost predicate Good(w: World) {
    && Sized(w) && OutputsOk(w.s) && !w.s.stray
    && w.left.Keys == w.s.timers.Keys
    && ValveOk(w.s, 0) && ValveOk(w.s, 1)
    && (forall id :: TimerOk(w, id))
  }

  lemma PutOutputs(s: State, n: nat, v: Valve)
    requires Shape(s) && n < 2 && OutputsOk(s)
    ensures OutputsOk(s.(board := Put(s.board, PortOf(n), v != Aus), valve := s.valve[n := v]))
  {
    hide IsOn;
    PutChangesOneOutput(s.board, PortOf(n), v != Aus, VENTIL_1);
    PutChangesOneOutput(s.board, PortOf(n), v != Aus, VENTIL_2);
    PutChangesOneOutput(s.board, PortOf(n), v != Aus, STECKDOSE);
  }

  lemma SocketOutputs(s: State, on: bool)
    requires Shape(s) && OutputsOk(s)
    ensures OutputsOk(SetSocket(s, on))
  {
    hide IsOn;
    PutChangesOneOutput(s.board, STECKDOSE, on, VENTIL_1);
    PutChangesOneOutput(s.board, STECKDOSE, on, VENTIL_2);
    PutChangesOneOutput(s.board, STECKDOSE, on, STECKDOSE);
  }

  /** Whatever was on the port, init() makes it agree with the states. */
  lemma InitOutputs(s: State)
    requires Shape(s)
    ensures OutputsOk(Refreshed(s))
  {
    hide IsOn;
    var a := Put(s.board, VENTIL_1, s.valve[0] != Aus);
    var b := Put(a, VENTIL_2, s.valve[1] != Aus);
    PutChangesOneOutput(s.board, VENTIL_1, s.valve[0] != Aus, VENTIL_1);
    PutChangesOneOutput(a, VENTIL_2, s.valve[1] != Aus, VENTIL_1);
    PutChangesOneOutput(a, VENTIL_2, s.valve[1] != Aus, VENTIL_2);
    PutChangesOneOutput(b, STECKDOSE, s.socket, VENTIL_1);
    PutChangesOneOutput(b, STECKDOSE, s.socket, VENTIL_2);
    PutChangesOneOutput(b, STECKDOSE, s.socket, STECKDOSE);
  }

  lemma VentilGood(w: World, n: nat, v: Valve)
    requires Good(w) && n < 2 && v != TimerAn
    ensures Good(Moved(w, SetVentil(w.s, n, v, true)))
  {
    hide IsOn, Put;
    var t := SetVentil(w.s, n, v, true);
    PutOutputs(w.s, n, v);
    assert OutputsOk(t);
    forall id
      ensures TimerOk(Moved(w, t), id)
    {
      assert TimerOk(w, id);
    }
    assert Moved(w, t).left.Keys == t.timers.Keys;
  }

  lemma StartGood(w: World, n: nat, dauer: int, ok: bool, junk: nat)
    requires Good(w) && n < 2
    ensures Good(Moved(w, StartTimer(w.s, n, dauer, ok, junk)))
  {
    hide IsOn, Put;
    var t := StartTimer(w.s, n, dauer, ok, junk);
    PutOutputs(w.s, n, TimerAn);
    assert OutputsOk(t);
    assert TimerOk(w, w.s.next);
    forall id
      ensures TimerOk(Moved(w, t), id)
    {
      assert TimerOk(w, id);
    }
    assert Moved(w, t).left.Keys == t.timers.Keys;
  }

  lemma ExpireGood(w: World, id: nat)
    requires Good(w) && Enabled(w, ExpireEvent(id, true))
    ensures Good(Moved(w, Expire(w.s, id, true)))
    ensures Expire(w.s, id, true).valve[w.s.timers[id].valve] == Aus
  {
    hide IsOn, Put;
    assert TimerOk(w, id);
    var n := w.s.timers[id].valve;
    VentilGood(w, n, Aus);
    assert Expire(w.s, id, true) == SetVentil(w.s, n, Aus, true);
  }

  lemma StepGood(w: World, e: Event)
    requires Good(w) && Enabled(w, e) && (e.ValveEvent? || e.ExpireEvent? ==> e.hit)
    ensures Good(Step(w, e))
  {
    hide IsOn, Put;
    var v := Step(w, e);
    match e
    case ValveEvent(n, open, _) => VentilGood(w, n, if open then An else Aus);
    case TimerEvent(n, dauer, ok, junk) => StartGood(w, n, dauer, ok, junk);
    case SocketEvent(on) =>
      SocketOutputs(w.s, on);
      SameTimers(w, v);
    case ExpireEvent(id, _) => ExpireGood(w, id);
    case PassEvent(dt) =>
      forall id
        ensures TimerOk(v, id)
      {
        assert TimerOk(w, id);
      }
      assert v.left.Keys == w.left.Keys;
    case RestartEvent(lost) =>
      InitOutputs(w.s.(board := Sent(w.s.board.(wire := lost))));
      SameTimers(w, v);
  }

  lemma SameTimers(w: World, v: World)
    requires Good(w) && Sized(v) && v == Moved(w, v.s) && v.s == w.s.(board := v.s.board, socket := v.s.socket) && OutputsOk(v.s)
    ensures Good(v)
  {
    forall id
      ensures TimerOk(v, id)
    {
      assert TimerOk(w, id);
    }
    assert v.left.Keys == v.s.timers.Keys;
  }

  lemma {:induction false} RunGood(w: World, es: seq<Event>)
    requires Good(w) && IsRun(w, es) && InTime(es)
    ensures Good(Run(w, es))
    decreases |es|
  {
    if es != [] {
      assert InTime(es[1..]);
      StepGood(w, es[0]);
      RunGood(Step(w, es[0]), es[1..]);
    }
  }

  function Begin(): (w: World)
    ensures Sized(w)
  {
    World(Initial(), map[], [0, 0])
  }

  lemma BeginGood()
    ensures Good(Begin())
  {
    hide IsOn, Put;
    InitOutputs(State(Sent(Board(255, 0)), [Aus, Aus], false, [0, 0], map[], 0, false));
  }

  /**
    Over every run without a late cancellation: a valve is TIMER_AN exactly when a thread for it is live, and then it is exactly one; its
    output is on exactly when it is not AUS; and a timed run is never longer than the minutes it was
    started with.
  */
  lemma ValveTimers(es: seq<Event>, n: nat)
    requires IsRun(Begin(), es) && InTime(es) && n < 2
    ensures var w := Run(Begin(), es);
      && (w.s.valve[n] == TimerAn <==> exists id :: id in w.s.timers && w.s.timers[id].valve == n)
      && (forall i, k :: i in w.s.timers && k in w.s.timers && w.s.timers[i].valve == w.s.timers[k].valve == n ==> i == k)
      && IsOn(w.s.board.wire, PortOf(n)) == (w.s.valve[n] != Aus)
      && (w.s.valve[n] == TimerAn ==> w.s.thr[n] in w.s.timers && w.ran[n] <= w.s.timers[w.s.thr[n]].time)
      && !w.s.stray
  {
    hide IsOn, Put;
    BeginGood();
    RunGood(Begin(), es);
    var w := Run(Begin(), es);
    assert TimerOk(w, w.s.thr[n]);
    forall i, k | i in w.s.timers && k in w.s.timers && w.s.timers[i].valve == w.s.timers[k].valve == n
      ensures i == k && w.s.valve[n] == TimerAn
    {
      assert TimerOk(w, i) && TimerOk(w, k);
    }
    forall id | id in w.s.timers && w.s.timers[id].valve == n
      ensures w.s.valve[n] == TimerAn
    {
      assert TimerOk(w, id);
    }
  }

  // ---------------------------------------------------------------- late cancellations

  predicate ThreadOk(w: World, id: nat)
    requires Sized(w)
  {
    id in w.s.timers ==> id < w.s.next && w.s.timers[id].valve < 2 && id in w.left && 0 <= w.left[id]
  }

  /** What holds even if cancellations come too late: threads may be left over, but no other bookkeeping is lost. */
  ghost predicate Fair(w: World) {
    && Sized(w) && OutputsOk(w.s) && !w.s.stray
    && w.left.Keys == w.s.timers.Keys
    && ValveOk(w.s, 0) && ValveOk(w.s, 1)
    && (forall id :: ThreadOk(w, id))
  }

  lemma VentilFair(w: World, n: nat, v: Valve, hit: bool)
    requires Fair(w) && n < 2 && v != TimerAn
    ensures Fair(Moved(w, SetVentil(w.s, n, v, hit)))
    ensures SetVentil(w.s, n, v, hit).next == w.s.next
  {
    hide IsOn, Put;
    var t := SetVentil(w.s, n, v, hit);
    PutOutputs(w.s, n, v);
    assert OutputsOk(t);
    forall id
      ensures ThreadOk(Moved(w, t), id)
    {
      assert ThreadOk(w, id);
    }
    assert Moved(w, t).left.Keys == t.timers.Keys;
  }

  lemma StartFair(w: World, n: nat, dauer: int, ok: bool, junk: nat)
    requires Fair(w) && n < 2
    ensures Fair(Moved(w, StartTimer(w.s, n, dauer, ok, junk)))
  {
    hide IsOn, Put;
    var t := StartTimer(w.s, n, dauer, ok, junk);
    PutOutputs(w.s, n, TimerAn);
    assert OutputsOk(t);
    assert ThreadOk(w, w.s.next);
    forall id
      ensures ThreadOk(Moved(w, t), id)
    {
      assert ThreadOk(w, id);
    }
    assert Moved(w, t).left.Keys == t.timers.Keys;
  }

  lemma ExpireFair(w: World, id: nat, hit: bool)
    requires Fair(w) && Enabled(w, ExpireEvent(id, hit))
    ensures Fair(Moved(w, Expire(w.s, id, hit)))
  {
    hide IsOn, Put;
    var n := w.s.timers[id].valve;
    var a, t := SetVentil(w.s, n, Aus, hit), Expire(w.s, id, hit);
    VentilFair(w, n, Aus, hit);
    assert t == a.(timers := t.timers) && OutputsOk(t) && t.valve[n] == Aus;
    forall m: nat | m < 2
      ensures ValveOk(t, m)
    {
      assert ValveOk(a, m) && ValveOk(w.s, m);
    }
    forall k
      ensures ThreadOk(Moved(w, t), k)
    {
      assert ThreadOk(w, k);
    }
    assert Moved(w, t).left.Keys == t.timers.Keys;
  }

  lemma StepFair(w: World, e: Event)
    requires Fair(w) && Enabled(w, e)
    ensures Fair(Step(w, e))
  {
    hide IsOn, Put;
    var v := Step(w, e);
    assert forall id :: id in w.left ==> ThreadOk(w, id);
    match e
    case ValveEvent(n, open, hit) => VentilFair(w, n, if open then An else Aus, hit);
    case TimerEvent(n, dauer, ok, junk) => StartFair(w, n, dauer, ok, junk);
    case ExpireEvent(id, hit) => ExpireFair(w, id, hit);
    case SocketEvent(on) =>
      SocketOutputs(w.s, on);
      SameThreads(w, v);
    case PassEvent(_) =>
      SameThreads(w, v);
    case RestartEvent(lost) =>
      InitOutputs(w.s.(board := Sent(w.s.board.(wire := lost))));
      SameThreads(w, v);
  }

  lemma SameThreads(w: World, v: World)
    requires Fair(w) && Sized(v) && v.s == w.s.(board := v.s.board, socket := v.s.socket) && OutputsOk(v.s)
    requires v.left.Keys == w.left.Keys && forall id :: id in v.left ==> v.left[id] >= 0
    ensures Fair(v)
  {
    forall id
      ensures ThreadOk(v, id)
    {
      assert ThreadOk(w, id);
    }
  }

  lemma {:induction false} RunFair(w: World, es: seq<Event>)
    requires Fair(w) && IsRun(w, es)
    ensures Fair(Run(w, es))
    decreases |es|
  {
    if es != [] {
      StepFair(w, es[0]);
      RunFair(Step(w, es[0]), es[1..]);
    }
  }

  lemma BeginFair()
    ensures Fair(Begin())
  {
    hide IsOn, Put;
    InitOutputs(State(Sent(Board(255, 0)), [Aus, Aus], false, [0, 0], map[], 0, false));
  }

  /** A START never turns a timed run into an untimed one: it does nothing at all. */
  lemma StartKeepsTimedRun(w: World, n: nat, hit: bool)
    requires Fair(w) && n < 2 && w.s.valve[n] == TimerAn
    ensures Step(w, ValveEvent(n, true, hit)).s == w.s && Step(w, ValveEvent(n, true, hit)).left == w.left
  {
    assert Moved(w, w.s).left == w.left;
  }

  /** A timer is started with the minutes it is given, and only on a closed valve. */
  lemma TimedRunStarts(w: World, n: nat, dauer: int, junk: nat)
    requires Fair(w) && n < 2
    ensures var v := Step(w, TimerEvent(n, dauer, true, junk));
      if dauer >= 1 && w.s.valve[n] == Aus
      then v.s.valve[n] == TimerAn && v.s.thr[n] in v.s.timers && v.s.timers[v.s.thr[n]] == ValveTimer(n, dauer * 60) && v.ran[n] == 0
      else v.s == w.s
  {
  }

  /** If no thread can be created the valve stays closed. */
  lemma FailedStart(w: World, n: nat, dauer: int, junk: nat)
    requires Fair(w) && n < 2
    ensures var v := Step(w, TimerEvent(n, dauer, false, junk));
      v.s.valve == w.s.valve && v.s.board == w.s.board && v.s.timers == w.s.timers
  {
  }

  // ---------------------------------------------------------------- how long a valve stays open

  predicate Commands(e: Event, n: nat) {
    (e.ValveEvent? || e.TimerEvent?) && e.n == n
  }

  predicate LeftAlone(es: seq<Event>, n: nat) {
    forall i :: 0 <= i < |es| ==> !Commands(es[i], n)
  }

  function Elapsed(es: seq<Event>): nat {
    if es == [] then 0 else (if es[0].PassEvent? then es[0].dt else 0) + Elapsed(es[1..])
  }

  /** In every continuation that gives this valve no command it stays as it is for at least `time` seconds. */
  ghost predicate StaysFor(w: World, n: nat, time: nat)
    requires Sized(w) && n < 2
  {
    forall es: seq<Event> :: IsRun(w, es) && LeftAlone(es, n) && Elapsed(es) < time ==> Run(w, es).s.valve[n] == w.s.valve[n]
  }

  /** No thread of the valve is due before `rest` seconds are over. */
  ghost predicate NoneDue(w: World, n: nat, rest: int)
    requires Sized(w)
  {
    forall id :: id in w.s.timers && id in w.left && w.s.timers[id].valve == n ==> w.left[id] >= rest
  }

  lemma StepNoneDue(w: World, e: Event, n: nat, rest: int)
    requires Fair(w) && Enabled(w, e) && n < 2 && !Commands(e, n) && NoneDue(w, n, rest) && rest > 0
    ensures NoneDue(Step(w, e), n, rest - if e.PassEvent? then e.dt else 0)
    ensures Step(w, e).s.valve[n] == w.s.valve[n]
  {
    hide IsOn, Put;
    forall id
      ensures ThreadOk(w, id)
    {
    }
  }

  lemma {:induction false} RunNoneDue(w: World, es: seq<Event>, n: nat, rest: int)
    requires Fair(w) && IsRun(w, es) && n < 2 && LeftAlone(es, n) && NoneDue(w, n, rest) && Elapsed(es) < rest
    ensures Run(w, es).s.valve[n] == w.s.valve[n]
    decreases |es|
  {
    if es != [] {
      hide Step, Enabled, NoneDue, Fair;
      StepFair(w, es[0]);
      assert !Commands(es[0], n);
      StepNoneDue(w, es[0], n, rest);
      RunNoneDue(Step(w, es[0]), es[1..], n, rest - if es[0].PassEvent? then es[0].dt else 0);
    }
  }

  lemma RunMore(w: World, e: Event, es: seq<Event>)
    requires Sized(w) && Enabled(w, e) && IsRun(Step(w, e), es)
    ensures IsRun(w, [e] + es) && Run(w, [e] + es) == Run(Step(w, e), es)
    ensures Elapsed([e] + es) == (if e.PassEvent? then e.dt else 0) + Elapsed(es)
  {
    assert ([e] + es)[1..] == es;
  }

  /** If some thread is due at once, or another valve's thread is due before this one's, let it expire first. */
  lemma {:induction false} DueThreadCloses(w: World, n: nat, id: nat, time: nat)
    requires Fair(w) && n < 2 && w.s.valve[n] != Aus && id in w.left && w.s.timers[id].valve == n && w.left[id] < time
    ensures !StaysFor(w, n, time)
    decreases |w.left|
  {
    hide IsOn, Put, OutputsOk;
    var first := DueFirst(w.left);
    assert ThreadOk(w, id) && ThreadOk(w, first);
    var pass, expire := PassEvent(w.left[first]), ExpireEvent(first, true);
    var v := Step(w, pass);
    var u := Step(v, expire);
    assert expire.ExpireEvent? && v.s == w.s && v.left[first] == 0;
    StepFair(w, pass);
    StepFair(v, expire);
    if w.s.timers[first].valve == n {
      assert u.s.valve[n] == Aus;
      assert IsRun(u, []) && Run(u, []) == u && LeftAlone([], n);
      Continue(w, n, pass, expire, [], time);
    } else {
      OtherExpires(v, first, n, id);
      assert u.left[id] == w.left[id] - w.left[first];
      DueThreadCloses(u, n, id, time - w.left[first]);
      var es: seq<Event> :| IsRun(u, es) && LeftAlone(es, n) && Elapsed(es) < time - w.left[first] && Run(u, es).s.valve[n] != u.s.valve[n];
      Continue(w, n, pass, expire, es, time);
    }
  }

  lemma Continue(w: World, n: nat, pass: Event, expire: Event, es: seq<Event>, time: nat)
    requires Sized(w) && n < 2 && pass.PassEvent? && expire.ExpireEvent? && Enabled(w, pass) && Enabled(Step(w, pass), expire)
    requires IsRun(Step(Step(w, pass), expire), es) && LeftAlone(es, n) && pass.dt + Elapsed(es) < time
    requires Run(Step(Step(w, pass), expire), es).s.valve[n] != w.s.valve[n]
    ensures !StaysFor(w, n, time)
  {
    hide Step, Enabled;
    RunMore(Step(w, pass), expire, es);
    RunMore(w, pass, [expire] + es);
    var all := [pass] + ([expire] + es);
    assert LeftAlone(all, n);
    assert IsRun(w, all) && Elapsed(all) < time && Run(w, all).s.valve[n] != w.s.valve[n];
  }

  lemma OtherExpires(w: World, first: nat, n: nat, id: nat)
    requires Fair(w) && Enabled(w, ExpireEvent(first, true)) && n < 2 && w.s.timers[first].valve != n
    requires id in w.left && w.s.timers[id].valve == n
    ensures var u := Step(w, ExpireEvent(first, true));
      && u.s.valve[n] == w.s.valve[n] && id in u.left && u.left[id] == w.left[id] && u.s.timers[id] == w.s.timers[id]
      && u.left.Keys < w.left.Keys && |u.left| < |w.left|
  {
    hide IsOn, Put;
    var m := w.s.timers[first].valve;
    assert ThreadOk(w, first) && ValveOk(w.s, m);
    var u := Step(w, ExpireEvent(first, true));
    assert first !in u.left && forall k :: k in u.left ==> k in w.left;
    Fewer(u.left, w.left, first);
  }

  lemma Fewer(a: map<nat, int>, b: map<nat, int>, k: nat)
    requires (forall x :: x in a ==> x in b) && k in b && k !in a
    ensures a.Keys < b.Keys && |a| < |b|
  {
    SubsetSize(a.Keys, b.Keys - {k});
  }

  lemma SubsetSize(a: set<nat>, b: set<nat>)
    requires a <= b
    ensures |a| <= |b|
  {
    if a != {} {
      var x :| x in a;
      SubsetSize(a - {x}, b - {x});
    }
  }

  /**
    In every reachable state, late cancellations included: an open valve stays open for `time` seconds in all
    continuations that leave it alone exactly if no thread of it, left over or its own, is due before.
  */
  lemma OpenValveStaysExactly(before: seq<Event>, n: nat, time: nat)
    requires IsRun(Begin(), before) && n < 2 && Run(Begin(), before).s.valve[n] != Aus
    ensures var w := Run(Begin(), before);
      StaysFor(w, n, time) <==> NoneDue(w, n, time)
  {
    hide IsOn, Put, OutputsOk, StaysFor;
    BeginFair();
    RunFair(Begin(), before);
    var w := Run(Begin(), before);
    if NoneDue(w, n, time) {
      NoneDueStays(w, n, time);
    } else {
      var id :| id in w.s.timers && id in w.left && w.s.timers[id].valve == n && w.left[id] < time;
      DueThreadCloses(w, n, id, time);
    }
  }

  lemma NoneDueStays(w: World, n: nat, time: nat)
    requires Fair(w) && n < 2 && NoneDue(w, n, time)
    ensures StaysFor(w, n, time)
  {
    forall es: seq<Event> | IsRun(w, es) && LeftAlone(es, n) && Elapsed(es) < time
      ensures Run(w, es).s.valve[n] == w.s.valve[n]
    {
      RunNoneDue(w, es, n, time);
    }
  }

  /** A thread whose cancellation came too late outlives its run, and the next opening finds it pending. */
  lemma LateCancellationIsLeftOver(w: World, n: nat, hit: bool)
    requires Fair(w) && n < 2 && w.s.valve[n] == TimerAn
    ensures var v := Step(w, ValveEvent(n, false, false));
      var u := Step(v, ValveEvent(n, true, hit));
      && v.s.valve[n] == Aus && u.s.valve[n] == An
      && w.s.thr[n] in u.left && u.left == w.left && u.s.timers[w.s.thr[n]].valve == n
  {
    hide IsOn, Put;
    assert ValveOk(w.s, n);
    assert Step(w, ValveEvent(n, false, false)).left == w.left;
  }

  // ---------------------------------------------------------------- commands are obeyed

  /** What the outputs show on the wire. */
  lemma OutputShows(w: World, n: nat)
    requires Fair(w) && n < 2
    ensures IsOn(w.s.board.wire, PortOf(n)) == (w.s.valve[n] != Aus) && IsOn(w.s.board.wire, STECKDOSE) == w.s.socket
  {
    hide IsOn;
  }

  /**
    After any run: a valve that is told to close is closed, one that is told to open is open, for its time if it
    was already open for a time, and the other valve and the socket stay; the wire shows it.
  */
  lemma ValveFollows(before: seq<Event>, n: nat, open: bool, hit: bool)
    requires IsRun(Begin(), before) && n < 2
    ensures var w := Run(Begin(), before);
      var v := Step(w, ValveEvent(n, open, hit));
      && v.s.valve[n] == (if !open then Aus else if w.s.valve[n] == TimerAn then TimerAn else An)
      && v.s.valve[1 - n] == w.s.valve[1 - n] && v.s.socket == w.s.socket
      && IsOn(v.s.board.wire, PortOf(n)) == open && IsOn(v.s.board.wire, PortOf(1 - n)) == (w.s.valve[1 - n] != Aus)
  {
    hide IsOn, Put;
    BeginFair();
    RunFair(Begin(), before);
    var w := Run(Begin(), before);
    StepFair(w, ValveEvent(n, open, hit));
    OutputShows(Step(w, ValveEvent(n, open, hit)), n);
    OutputShows(Step(w, ValveEvent(n, open, hit)), 1 - n);
  }

  /** The socket becomes what it is told, and the valves stay. */
  lemma SocketFollows(before: seq<Event>, on: bool)
    requires IsRun(Begin(), before)
    ensures var w := Run(Begin(), before);
      var v := Step(w, SocketEvent(on));
      && v.s.socket == on && v.s.valve == w.s.valve && v.left == w.left && IsOn(v.s.board.wire, STECKDOSE) == on
  {
    hide IsOn, Put;
    BeginFair();
    RunFair(Begin(), before);
    var w := Run(Begin(), before);
    StepFair(w, SocketEvent(on));
    OutputShows(Step(w, SocketEvent(on)), 0);
    assert forall id :: id in w.left ==> ThreadOk(w, id);
    assert Step(w, SocketEvent(on)).left == w.left;
  }

  /** A thread that expires closes its valve, however it was opened, and the other one stays. */
  lemma ExpiryCloses(before: seq<Event>, id: nat, hit: bool)
    requires IsRun(Begin(), before) && Enabled(Run(Begin(), before), ExpireEvent(id, hit))
    ensures var w := Run(Begin(), before);
      var v, n := Step(w, ExpireEvent(id, hit)), w.s.timers[id].valve;
      && v.s.valve[n] == Aus && !IsOn(v.s.board.wire, PortOf(n)) && id !in v.left
      && v.s.valve[1 - n] == w.s.valve[1 - n]
  {
    hide IsOn, Put;
    BeginFair();
    RunFair(Begin(), before);
    var w := Run(Begin(), before);
    StepFair(w, ExpireEvent(id, hit));
    OutputShows(Step(w, ExpireEvent(id, hit)), w.s.timers[id].valve);
  }

  /** The very bytes: everything closed, the first valve open, the socket on. */
  lemma Bytes()
    ensures Initial().board.wire == 0xFF
    ensures SetVentil(Initial(), 0, An, true).board.wire == 0xFE && SetVentil(Initial(), 1, An, true).board.wire == 0xFD
    ensures SetSocket(Initial(), true).board.wire == 0xF7
  {
  }
}
