/**
  The three devices on the main port expander: the ventilation (Abluft), the orientation light (Orient)
  and the display (HsGui).  They share one shadow byte and never learn of each other.
*/
module MainPort {
  import opened Pcf8574

  datatype Air = Aus | Low | High

  /**
    The ventilation: `thr` is the thread it started last, `timers` the threads that have not expired, each
    with the seconds it was told to sleep, and `next` the thread that will be created next.
  */
  datatype Vent = Vent(board: Board, air: Air, thr: nat, timers: map<nat, nat>, next: nat)

  /** What sleep() makes of a duration: it takes an unsigned int. */
  function Seconds(zeit: int): nat {
    zeit % 0x1_0000_0000
  }

  /** The three devices; `low` is the setting a/c:low. */
  datatype Main = Main(vent: Vent, orient: bool, low: bool)

  // ---------------------------------------------------------------- Abluft

  function AirTo(v: Vent, air: Air): Vent {
    var first := Put(v.board, ABLUFT_0, air != Low);
    v.(air := air, board := Put(first, ABLUFT_1, air == High))
  }

  function AirAus(v: Vent): Vent {
    if v.air != Aus then AirTo(v, Aus) else v
  }

  function AirLow(v: Vent): Vent {
    if v.air != Low then AirTo(v, Low) else v
  }

  /** high(): only if the timer thread could be created; `junk` is what a failed creation leaves in thr_id. */
  function AirHigh(v: Vent, zeit: int, ok: bool, junk: nat): Vent {
    if ok then AirTo(Started(v, zeit), High) else v.(thr := junk)
  }

  function Started(v: Vent, zeit: int): Vent {
    v.(thr := v.next, timers := v.timers[v.next := Seconds(zeit)], next := v.next + 1)
  }

  /** The normal level, as the setting has it. */
  function AirNormal(v: Vent, low: bool): Vent {
    if low then AirLow(v) else AirAus(v)
  }

  /** init(): the state is first set to the other level, so that the outputs are written. */
  function AirInit(v: Vent, low: bool): Vent {
    if low then AirLow(v.(air := Aus)) else AirAus(v.(air := Low))
  }

  /** setLow and updateLow leave a ventilation that runs high alone. */
  function AirUpdate(v: Vent, low: bool): Vent {
    if v.air != High then AirNormal(v, low) else v
  }

  /** setHigh(): a ventilation that runs high is not triggered again. */
  function AirTrigger(v: Vent, zeit: int, ok: bool, junk: nat): Vent {
    if v.air != High then AirHigh(v, zeit, ok, junk) else v
  }

  /** Whichever thread expires, the ventilation goes back to the normal level. */
  function AirTimer(v: Vent, id: nat, low: bool): Vent
    requires id in v.timers
  {
    AirNormal(v.(timers := v.timers - {id}), low)
  }

  class Abluft {
    const pcf: Pcf8574
    var state: Air
    var thr_id: nat
    var threads: map<nat, nat>
    var nextThread: nat

    ghost function Now(): Vent
      reads this, pcf
    {
      Vent(pcf.Now(), state, thr_id, threads, nextThread)
    }

    constructor (io: Pcf8574, low: bool)
      modifies io
      ensures pcf == io && Now() == AirInit(Vent(old(io.Now()), Air.Aus, 0, map[], 0), low)
    {
      pcf := io;
      state := Air.Aus;
      thr_id := 0;
      threads := map[];
      nextThread := 0;
      new;
      Init(low);
    }

    method Init(low: bool)
      modifies this, pcf
      ensures Now() == AirInit(old(Now()), low)
    {
      if low {
        state := Air.Aus;
        SwitchLow();
      } else {
        state := Air.Low;
        SwitchAus();
      }
    }

    method SetLow(low: bool)
      modifies this, pcf
      ensures Now() == AirUpdate(old(Now()), low)
    {
      if low {
        if state != Air.High {
          SwitchLow();
        }
      } else {
        if state != Air.High {
          SwitchAus();
        }
      }
    }

    method UpdateLow(low: bool)
      modifies this, pcf
      ensures Now() == AirUpdate(old(Now()), low)
    {
      if state != Air.High {
        if low {
          SwitchLow();
        } else {
          SwitchAus();
        }
      }
    }

    method SetHigh(zeit: int, ok: bool, junk: nat)
      modifies this, pcf
      ensures Now() == AirTrigger(old(Now()), zeit, ok, junk)
    {
      if state != Air.High {
        SwitchHigh(zeit, ok, junk);
      }
    }

    method SwitchAus()
      modifies this, pcf
      ensures Now() == AirAus(old(Now()))
    {
      if state != Air.Aus {
        state := Air.Aus;
        pcf.Set(ABLUFT_0, true);
        pcf.Set(ABLUFT_1, false);
      }
    }

    method SwitchLow()
      modifies this, pcf
      ensures Now() == AirLow(old(Now()))
    {
      if state != Air.Low {
        state := Air.Low;
        pcf.Set(ABLUFT_0, false);
        pcf.Set(ABLUFT_1, false);
      }
    }

    /** `zeit` is the setting a/c:high_time. */
    method SwitchHigh(zeit: int, ok: bool, junk: nat)
      modifies this, pcf
      ensures Now() == AirHigh(old(Now()), zeit, ok, junk)
    {
      if !ok {
        thr_id := junk;
        return;
      }
      thr_id := nextThread;
      threads := threads[nextThread := Seconds(zeit)];
      nextThread := nextThread + 1;
      state := Air.High;
      pcf.Set(ABLUFT_0, true);
      pcf.Set(ABLUFT_1, true);
    }

    /** abluftTimer after its sleep. */
    method TimerExpires(id: nat, low: bool)
      requires id in threads
      modifies this, pcf
      ensures Now() == AirTimer(old(Now()), id, low)
    {
      threads := threads - {id};
      if low {
        SwitchLow();
      } else {
        SwitchAus();
      }
    }
  }

  // ---------------------------------------------------------------- Orient, HsGui, reset

  function WithBoard(m: Main, b: Board): Main {
    m.(vent := m.vent.(board := b))
  }

  function Light(m: Main, on: bool): Main {
    WithBoard(m, Put(m.vent.board, ORIENT, on)).(orient := on)
  }

  function Display(m: Main, power: bool, on: bool): Main {
    WithBoard(m, Put(m.vent.board, if power then HSGUI_POWER else HSGUI_RESET, on))
  }

  function DisplayInit(m: Main): Main {
    Display(Display(m, true, false), false, false)
  }

  class Orient {
    const pcf: Pcf8574
    var state: bool

    constructor (io: Pcf8574)
      modifies io
      ensures pcf == io && !state && io.Now() == Put(old(io.Now()), ORIENT, false)
    {
      pcf := io;
      state := false;
      new;
      Init();
    }

    method Init()
      modifies this, pcf
      ensures state == old(state) && pcf.Now() == Put(old(pcf.Now()), ORIENT, state)
    {
      if !state {
        Aus();
      } else {
        An();
      }
    }

    method An()
      modifies this, pcf
      ensures state && pcf.Now() == Put(old(pcf.Now()), ORIENT, true)
    {
      state := true;
      pcf.Set(ORIENT, true);
    }

    method Aus()
      modifies this, pcf
      ensures !state && pcf.Now() == Put(old(pcf.Now()), ORIENT, false)
    {
      state := false;
      pcf.Set(ORIENT, false);
    }
  }

  /** The device lost its outputs; init_E6TCPClient sends the byte and re-initialises every device. */
  function Restart(m: Main, lost: bv8): Main {
    var sent := WithBoard(m, Sent(m.vent.board.(wire := lost)));
    DisplayInit(Light(sent.(vent := AirInit(sent.vent, m.low)), m.orient))
  }

  function Initial(low: bool): Main {
    DisplayInit(Light(Main(AirInit(Vent(Sent(Board(255, 0)), Aus, 0, map[], 0), low), false, low), false))
  }

  // ---------------------------------------------------------------- runs

  datatype Event =
    | LowEvent(low: bool) | UpdateEvent | HighEvent(zeit: int, ok: bool, junk: nat) | TimerEvent(id: nat)
    | LightEvent(on: bool) | DisplayEvent(power: bool, on: bool)
    | ConfigEvent(low: bool) | RestartEvent(lost: bv8)

  predicate Enabled(m: Main, e: Event) {
    e.TimerEvent? ==> e.id in m.vent.timers
  }

  function Step(m: Main, e: Event): Main
    requires Enabled(m, e)
  {
    match e
    case LowEvent(low) => m.(vent := AirUpdate(m.vent, low), low := low)
    case UpdateEvent => m.(vent := AirUpdate(m.vent, m.low))
    case HighEvent(zeit, ok, junk) => m.(vent := AirTrigger(m.vent, zeit, ok, junk))
    case TimerEvent(id) => m.(vent := AirTimer(m.vent, id, m.low))
    case LightEvent(on) => Light(m, on)
    case DisplayEvent(power, on) => Display(m, power, on)
    case ConfigEvent(low) => m.(low := low)
    case RestartEvent(lost) => Restart(m, lost)
  }

  predicate IsRun(m: Main, es: seq<Event>)
    decreases |es|
  {
    es == [] || (Enabled(m, es[0]) && IsRun(Step(m, es[0]), es[1..]))
  }

  function Run(m: Main, es: seq<Event>): Main
    requires IsRun(m, es)
    decreases |es|
  {
    if es == [] then m else Run(Step(m, es[0]), es[1..])
  }

  /** The byte says what the devices believe, it is on the wire, and HIGH has its own timer pending. */
  predicate Agrees(m: Main) {
    && AirAgrees(m.vent)
    && IsOn(m.vent.board.data, ORIENT) == m.orient
    && m.vent.board.wire == m.vent.board.data
    && (m.vent.air == High ==> m.vent.thr in m.vent.timers)
  }

  predicate AirAgrees(v: Vent) {
    IsOn(v.board.data, ABLUFT_0) == (v.air != Low) && IsOn(v.board.data, ABLUFT_1) == (v.air == High)
  }

  lemma PutSends(b: Board, port: Port, on: bool)
    ensures Put(b, port, on).wire == Put(b, port, on).data
  {
  }

  lemma AirToAgrees(v: Vent, air: Air)
    ensures AirAgrees(AirTo(v, air)) && AirTo(v, air).board.wire == AirTo(v, air).board.data
    ensures IsOn(AirTo(v, air).board.data, ORIENT) == IsOn(v.board.data, ORIENT)
  {
    hide IsOn, Put;
    var first := Put(v.board, ABLUFT_0, air != Low);
    PutSends(first, ABLUFT_1, air == High);
    PutChangesOneOutput(v.board, ABLUFT_0, air != Low, ABLUFT_0);
    PutChangesOneOutput(v.board, ABLUFT_0, air != Low, ORIENT);
    PutChangesOneOutput(first, ABLUFT_1, air == High, ABLUFT_0);
    PutChangesOneOutput(first, ABLUFT_1, air == High, ABLUFT_1);
    PutChangesOneOutput(first, ABLUFT_1, air == High, ORIENT);
  }

  lemma LightAgrees(m: Main, on: bool)
    requires AirAgrees(m.vent)
    ensures AirAgrees(Light(m, on).vent) && IsOn(Light(m, on).vent.board.data, ORIENT) == on
    ensures Light(m, on).vent.board.wire == Light(m, on).vent.board.data
  {
    hide IsOn, Put;
    var b := m.vent.board;
    PutSends(b, ORIENT, on);
    PutChangesOneOutput(b, ORIENT, on, ORIENT);
    PutChangesOneOutput(b, ORIENT, on, ABLUFT_0);
    PutChangesOneOutput(b, ORIENT, on, ABLUFT_1);
  }

  lemma DisplayAgrees(m: Main, power: bool, on: bool)
    requires AirAgrees(m.vent)
    ensures AirAgrees(Display(m, power, on).vent)
    ensures Display(m, power, on).vent.board.wire == Display(m, power, on).vent.board.data
    ensures IsOn(Display(m, power, on).vent.board.data, ORIENT) == IsOn(m.vent.board.data, ORIENT)
  {
    hide IsOn, Put;
    var b, port := m.vent.board, if power then HSGUI_POWER else HSGUI_RESET;
    PutSends(b, port, on);
    PutChangesOneOutput(b, port, on, ABLUFT_0);
    PutChangesOneOutput(b, port, on, ABLUFT_1);
    PutChangesOneOutput(b, port, on, ORIENT);
  }

  /** Re-initialising makes the port agree with the devices, whatever was on it. */
  lemma InitAgrees(m: Main, on: bool)
    ensures var n := DisplayInit(Light(m.(vent := AirInit(m.vent, m.low)), on));
      Agrees(n) && n.vent.air == (if m.low then Low else Aus) && n.orient == on
  {
    hide IsOn, Put;
    AirToAgrees(m.vent.(air := Aus), Low);
    AirToAgrees(m.vent.(air := Low), Aus);
    var a := m.(vent := AirInit(m.vent, m.low));
    var l := Light(a, on);
    LightAgrees(a, on);
    DisplayAgrees(l, true, false);
    DisplayAgrees(Display(l, true, false), false, false);
  }

  lemma StepAgrees(m: Main, e: Event)
    requires Agrees(m) && Enabled(m, e)
    ensures Agrees(Step(m, e))
  {
    hide IsOn, Put;
    var v := m.vent;
    match e
    case LowEvent(_) =>
      AirToAgrees(v, Low);
      AirToAgrees(v, Aus);
    case UpdateEvent =>
      AirToAgrees(v, Low);
      AirToAgrees(v, Aus);
    case HighEvent(zeit, _, _) => AirToAgrees(Started(v, zeit), High);
    case TimerEvent(id) =>
      AirToAgrees(v.(timers := v.timers - {id}), Low);
      AirToAgrees(v.(timers := v.timers - {id}), Aus);
    case LightEvent(on) => LightAgrees(m, on);
    case DisplayEvent(power, on) => DisplayAgrees(m, power, on);
    case ConfigEvent(_) =>
    case RestartEvent(lost) => InitAgrees(WithBoard(m, Sent(v.board.(wire := lost))), m.orient);
  }

  lemma {:induction false} RunAgrees(m: Main, es: seq<Event>)
    requires Agrees(m) && IsRun(m, es)
    ensures Agrees(Run(m, es))
    decreases |es|
  {
    if es != [] {
      StepAgrees(m, es[0]);
      RunAgrees(Step(m, es[0]), es[1..]);
    }
  }

  /**
    Over every interleaving of the devices, their timers, settings and device restarts, the byte on the
    wire is the shadow byte, its bits decode to every device's state, and a ventilation that runs high
    has the timer of this run pending.
  */
  lemma PortAgreement(low: bool, es: seq<Event>)
    requires IsRun(Initial(low), es)
    ensures Agrees(Run(Initial(low), es))
  {
    InitAgrees(Main(Vent(Sent(Board(255, 0)), Aus, 0, map[], 0), false, low), false);
    RunAgrees(Initial(low), es);
  }

  /** An expired timer always ends high, at the level the setting asks for. */
  lemma TimerEndsHigh(v: Vent, id: nat, low: bool)
    requires id in v.timers && AirAgrees(v)
    ensures AirTimer(v, id, low).air == if low then Low else Aus
    ensures AirAgrees(AirTimer(v, id, low)) && AirTimer(v, id, low).timers == v.timers - {id}
  {
    hide IsOn, Put;
    AirToAgrees(v.(timers := v.timers - {id}), Low);
    AirToAgrees(v.(timers := v.timers - {id}), Aus);
  }

  // ---------------------------------------------------------------- commands are obeyed

  /** What the two outputs of the ventilation show on the wire. */
  predicate Shows(m: Main, air: Air) {
    && m.vent.air == air
    && IsOn(m.vent.board.wire, ABLUFT_0) == (air != Low) && IsOn(m.vent.board.wire, ABLUFT_1) == (air == High)
  }

  lemma AgreesShows(m: Main)
    requires Agrees(m)
    ensures Shows(m, m.vent.air)
  {
    hide IsOn;
  }

  /**
    In every reachable state: the level follows the command and the setting, on the wire too, unless the
    ventilation runs high; then only the setting changes.
  */
  lemma LevelFollows(start: bool, es: seq<Event>, low: bool)
    requires IsRun(Initial(start), es)
    ensures var m := Run(Initial(start), es);
      var n, u := Step(m, LowEvent(low)), Step(m, UpdateEvent);
      if m.vent.air == High then n == m.(low := low) && u == m
      else
        && n.low == low && Shows(n, if low then Low else Aus)
        && u.low == m.low && Shows(u, if m.low then Low else Aus)
  {
    hide IsOn, Put;
    PortAgreement(start, es);
    var m := Run(Initial(start), es);
    StepAgrees(m, LowEvent(low));
    StepAgrees(m, UpdateEvent);
    AgreesShows(Step(m, LowEvent(low)));
    AgreesShows(Step(m, UpdateEvent));
  }

  /** HIGH is shown on the wire as soon as its timer could be created; otherwise nothing changes. */
  lemma HighFollows(start: bool, es: seq<Event>, zeit: int, ok: bool, junk: nat)
    requires IsRun(Initial(start), es) && Run(Initial(start), es).vent.air != High
    ensures var m := Run(Initial(start), es);
      var n := Step(m, HighEvent(zeit, ok, junk));
      if ok then Shows(n, High) && n.vent.timers == m.vent.timers[m.vent.next := Seconds(zeit)]
      else n == m.(vent := m.vent.(thr := junk))
  {
    hide IsOn, Put;
    PortAgreement(start, es);
    var m := Run(Initial(start), es);
    StepAgrees(m, HighEvent(zeit, ok, junk));
    if ok {
      AgreesShows(Step(m, HighEvent(zeit, ok, junk)));
    }
  }

  /** The light and the display's two outputs become what they are told, at once, and no other device notices. */
  lemma LightAndDisplayFollow(start: bool, es: seq<Event>, power: bool, on: bool)
    requires IsRun(Initial(start), es)
    ensures var m := Run(Initial(start), es);
      var n, d := Step(m, LightEvent(on)), Step(m, DisplayEvent(power, on));
      var port, other := if power then HSGUI_POWER else HSGUI_RESET, if power then HSGUI_RESET else HSGUI_POWER;
      && n.orient == on && IsOn(n.vent.board.wire, ORIENT) == on && Shows(n, m.vent.air)
      && IsOn(d.vent.board.wire, port) == on && IsOn(d.vent.board.wire, other) == IsOn(m.vent.board.data, other)
      && d.orient == m.orient && Shows(d, m.vent.air)
  {
    hide IsOn, Put;
    PortAgreement(start, es);
    var m := Run(Initial(start), es);
    var port, other := if power then HSGUI_POWER else HSGUI_RESET, if power then HSGUI_RESET else HSGUI_POWER;
    StepAgrees(m, LightEvent(on));
    StepAgrees(m, DisplayEvent(power, on));
    AgreesShows(Step(m, LightEvent(on)));
    AgreesShows(Step(m, DisplayEvent(power, on)));
    PutChangesOneOutput(m.vent.board, port, on, port);
    PutChangesOneOutput(m.vent.board, port, on, other);
    PutSends(m.vent.board, port, on);
  }

  /** A restart ends HIGH, keeps the light, switches the display's outputs off, and shows it all on the wire. */
  lemma RestartShows(start: bool, es: seq<Event>, lost: bv8)
    requires IsRun(Initial(start), es)
    ensures var m := Run(Initial(start), es);
      var n := Step(m, RestartEvent(lost));
      && Shows(n, if m.low then Low else Aus) && n.orient == m.orient && IsOn(n.vent.board.wire, ORIENT) == m.orient
      && !IsOn(n.vent.board.wire, HSGUI_POWER) && !IsOn(n.vent.board.wire, HSGUI_RESET)
      && n.vent.timers == m.vent.timers && n.low == m.low
  {
    hide IsOn, Put;
    var m := Run(Initial(start), es);
    var w := WithBoard(m, Sent(m.vent.board.(wire := lost)));
    InitAgrees(w, m.orient);
    AgreesShows(Step(m, RestartEvent(lost)));
    var a := Light(w.(vent := AirInit(w.vent, w.low)), m.orient);
    var b := Display(a, true, false);
    PutChangesOneOutput(a.vent.board, HSGUI_POWER, false, HSGUI_POWER);
    PutChangesOneOutput(b.vent.board, HSGUI_RESET, false, HSGUI_POWER);
    PutChangesOneOutput(b.vent.board, HSGUI_RESET, false, HSGUI_RESET);
    PutSends(b.vent.board, HSGUI_RESET, false);
  }

  /** The very bytes: outputs are active low, and AUS is the first one on. */
  lemma Bytes()
    ensures Initial(false).vent.board.wire == 0xFE && Initial(true).vent.board.wire == 0xFF
    ensures Light(Initial(true), true).vent.board.wire == 0xEF
    ensures AirHigh(Initial(true).vent, 0, true, 0).board.wire == 0xFC
  {
  }

  lemma SecondsIs(zeit: int)
    requires -0x8000_0000 <= zeit < 0x8000_0000
    ensures zeit >= 0 ==> Seconds(zeit) == zeit
    ensures zeit < 0 ==> Seconds(zeit) > 0x7FFF_FFFF
  {
  }
}
