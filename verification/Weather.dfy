/**
  Wetter::WetterSteuerung: once a minute the weather opens or closes all blinds.  `Decide` is one tick;
  the class does it in place.  One tick reads the clock when it tests the waiting time (`now`) and again
  when it records a drive (`done`).
*/
module Weather {
  import opened Blinds
  import opened Jalousie

  /** The settings of the section `blinds`; `second` is jal_2_open. */
  datatype Config = Config(
    weather: bool, wind: bool, rain: bool, second: bool, closeToSun: bool,
    hystTime: int, hellOpen: int, hellClose: int, windLimit: int, tempLimit: int)

  datatype Readings = Readings(hell: real, wind: real, temp: real, regen: bool)

  /** drvTimer, drvTimeStamp and closeOnWetter. */
  datatype Memory = Memory(timer: bool, stamp: int, closed: bool)

  datatype Drive = NoDrive | OpenAll | Close(sun: bool, second: bool)

  datatype Tick = Tick(conf: Config, read: Readings, position: seq<Course>, moving: bool, now: int, done: int)

  predicate Shaped(t: Tick) {
    |t.position| == 4 && t.now <= t.done
  }

  predicate AllOpen(t: Tick)
    requires Shaped(t)
  {
    forall j :: 0 <= j < 4 ==> t.position[j] == Auf
  }

  /** Blind 1 counts only if the weather also closes it. */
  predicate AllClosed(t: Tick)
    requires Shaped(t)
  {
    t.position[0] == Ab && t.position[2] == Ab && t.position[3] == Ab && (t.conf.second || t.position[1] == Ab)
  }

  predicate Protection(t: Tick) {
    (t.conf.wind && t.read.wind > t.conf.windLimit as real) || (t.conf.rain && t.read.regen)
  }

  predicate Waited(m: Memory, t: Tick) {
    !m.timer || t.now - m.stamp >= t.conf.hystTime * 60
  }

  predicate SunGone(t: Tick) {
    t.conf.weather && (t.read.hell < t.conf.hellOpen as real || t.read.regen)
  }

  predicate SunIn(t: Tick) {
    && t.conf.weather
    && t.read.hell > t.conf.hellClose as real && t.read.temp > t.conf.tempLimit as real
    && t.read.wind < t.conf.windLimit as real && !t.read.regen
  }

  function Decide(m: Memory, t: Tick): (r: (Memory, Drive))
    requires Shaped(t)
  {
    if t.moving then (m, NoDrive)
    else
      var n := if AllClosed(t) then m else m.(closed := false);
      if !AllOpen(t) then
        if Protection(t) || (SunGone(t) && Waited(n, t) && n.closed) then (Memory(true, t.done, false), OpenAll)
        else (n, NoDrive)
      else if Waited(n, t) && SunIn(t) then (Memory(true, t.done, true), Close(t.conf.closeToSun, !t.conf.second))
      else (n, NoDrive)
  }

  // ---------------------------------------------------------------- one tick, in raw readings and settings

  /**
    A tick opens exactly if the blinds rest, not all of them are open, and: the enabled wind limit is exceeded,
    or it rains and that is enabled, or the automation finds too little light or rain, its waiting time is
    over, and the counted blinds stand closed since it closed them itself.
  */
  lemma OpensExactly(m: Memory, t: Tick)
    requires Shaped(t)
    ensures Decide(m, t).1 == OpenAll <==>
      && !t.moving
      && !(t.position[0] == Auf && t.position[1] == Auf && t.position[2] == Auf && t.position[3] == Auf)
      && (|| (t.conf.wind && t.read.wind > t.conf.windLimit as real)
          || (t.conf.rain && t.read.regen)
          || (&& t.conf.weather && (t.read.hell < t.conf.hellOpen as real || t.read.regen)
              && (m.timer ==> t.now - m.stamp >= t.conf.hystTime * 60)
              && m.closed && t.position[0] == Ab && t.position[2] == Ab && t.position[3] == Ab
              && (!t.conf.second ==> t.position[1] == Ab)))
  {
  }

  /**
    A tick closes exactly if the blinds rest and are all open, the automation is on, its waiting time is over,
    it is bright and warm enough, the wind is below its limit and it does not rain; and it closes the way and
    the blinds that the settings say.
  */
  lemma ClosesExactly(m: Memory, t: Tick)
    requires Shaped(t)
    ensures Decide(m, t).1.Close? <==>
      && !t.moving
      && t.position[0] == Auf && t.position[1] == Auf && t.position[2] == Auf && t.position[3] == Auf
      && t.conf.weather && (m.timer ==> t.now - m.stamp >= t.conf.hystTime * 60)
      && t.read.hell > t.conf.hellClose as real && t.read.temp > t.conf.tempLimit as real
      && t.read.wind < t.conf.windLimit as real && !t.read.regen
    ensures Decide(m, t).1.Close? ==> Decide(m, t).1.sun == t.conf.closeToSun && Decide(m, t).1.second == !t.conf.second
  {
  }

  /** What is remembered: the time of a drive and whether it closed; without a drive a close is forgotten unless the counted blinds stand closed. */
  lemma RemembersExactly(m: Memory, t: Tick)
    requires Shaped(t)
    ensures Decide(m, t).1 != NoDrive ==> Decide(m, t).0 == Memory(true, t.done, Decide(m, t).1.Close?)
    ensures Decide(m, t).1 == NoDrive ==>
      Decide(m, t).0 == m.(closed := m.closed && (t.moving || (t.position[0] == Ab && t.position[2] == Ab && t.position[3] == Ab
        && (!t.conf.second ==> t.position[1] == Ab))))
  {
  }

  // ---------------------------------------------------------------- whole runs

  predicate Ticks(ts: seq<Tick>) {
    && (forall i :: 0 <= i < |ts| ==> Shaped(ts[i]))
    && (forall i, j :: 0 <= i < j < |ts| ==> ts[i].done <= ts[j].now)
  }

  /** What is remembered before tick `i`, when the program starts with `m`. */
  function Before(m: Memory, ts: seq<Tick>, i: nat): Memory
    requires Ticks(ts) && i <= |ts|
  {
    if i == 0 then m else Decide(Before(m, ts, i - 1), ts[i - 1]).0
  }

  function DriveAt(m: Memory, ts: seq<Tick>, i: nat): Drive
    requires Ticks(ts) && i < |ts|
  {
    Decide(Before(m, ts, i), ts[i]).1
  }

  /** While nothing is driven, the memory keeps exactly the time of the drive before. */
  lemma {:induction false} StampIsExact(m: Memory, ts: seq<Tick>, i: nat, j: nat)
    requires Ticks(ts) && i < j <= |ts| && DriveAt(m, ts, i) != NoDrive && forall k :: i < k < j ==> DriveAt(m, ts, k) == NoDrive
    ensures Before(m, ts, j).timer && Before(m, ts, j).stamp == ts[i].done
  {
    if j > i + 1 {
      StampIsExact(m, ts, i, j - 1);
      assert DriveAt(m, ts, j - 1) == NoDrive;
    }
  }

  /** The memory keeps the time of the latest drive. */
  lemma {:induction false} StampIsLatest(m: Memory, ts: seq<Tick>, i: nat, j: nat)
    requires Ticks(ts) && i < j <= |ts| && DriveAt(m, ts, i) != NoDrive
    ensures Before(m, ts, j).timer && Before(m, ts, j).stamp >= ts[i].done
  {
    if j > i + 1 {
      StampIsLatest(m, ts, i, j - 1);
    }
  }

  /**
    Two drives of the weather closer together than the waiting time of the later one: the later one opens,
    and it does so because enabled wind or rain protection is triggered.
  */
  lemma Hysteresis(m: Memory, ts: seq<Tick>, i: nat, j: nat)
    requires Ticks(ts) && i < j < |ts| && DriveAt(m, ts, i) != NoDrive && DriveAt(m, ts, j) != NoDrive
    requires ts[j].now - ts[i].done < ts[j].conf.hystTime * 60
    ensures DriveAt(m, ts, j) == OpenAll && Protection(ts[j])
  {
    StampIsLatest(m, ts, i, j);
  }

  /** With constant readings and settings, and thresholds in order, the weather never both opens and closes. */
  lemma NoChatter(m: Memory, ts: seq<Tick>, i: nat, j: nat)
    requires Ticks(ts) && i < |ts| && j < |ts|
    requires ts[i].conf == ts[j].conf && ts[i].read == ts[j].read && ts[i].conf.hellOpen <= ts[i].conf.hellClose
    ensures !(DriveAt(m, ts, i) == OpenAll && DriveAt(m, ts, j).Close?)
  {
    if DriveAt(m, ts, j).Close? {
      assert SunIn(ts[j]) && !Protection(ts[j]) && !SunGone(ts[j]);
    }
  }

  /** `closed` remembers an uninterrupted weather close. */
  lemma {:induction false} ClosedByWeather(m: Memory, ts: seq<Tick>, j: nat) returns (i: nat)
    requires Ticks(ts) && j <= |ts| && !m.closed && Before(m, ts, j).closed
    ensures i < j && DriveAt(m, ts, i).Close?
    ensures forall k :: i < k < j ==> DriveAt(m, ts, k) == NoDrive && (ts[k].moving || AllClosed(ts[k]))
  {
    if DriveAt(m, ts, j - 1).Close? {
      i := j - 1;
    } else {
      i := ClosedByWeather(m, ts, j - 1);
    }
  }

  /**
    Without protection the weather opens only what it closed itself: the counted blinds are all closed now,
    the last drive of the weather was a close, and they were closed at every tick since that saw them at rest.
  */
  lemma OpensOnlyItsOwnClose(m: Memory, ts: seq<Tick>, j: nat)
    requires Ticks(ts) && j < |ts| && !m.closed
    requires DriveAt(m, ts, j) == OpenAll && !Protection(ts[j])
    ensures AllClosed(ts[j]) && SunGone(ts[j]) && Waited(Before(m, ts, j), ts[j])
    ensures exists i: nat ::
      && i < j && DriveAt(m, ts, i).Close?
      && (forall k :: i < k < j ==> DriveAt(m, ts, k) == NoDrive && (ts[k].moving || AllClosed(ts[k])))
  {
    var i := ClosedByWeather(m, ts, j);
  }

  // ---------------------------------------------------------------- in place

  /** The commands of a decision, one environment per blind. */
  function Issue(s: State, d: Drive, env: seq<Env>): (t: State)
    requires Shape(s) && |env| == 4
    ensures Shape(t)
  {
    match d
    case NoDrive => s
    case OpenAll => OpenFrom(s, 0, env)
    case Close(true, second) =>
      var a := DrvSonne(s, 0, env[0]);
      var b := if second then DrvSonne(a, 1, env[1]) else a;
      DrvSonne(DrvSonne(b, 2, env[2]), 3, env[3])
    case Close(false, second) =>
      var a := Blinds.Drive(s, 0, Ab, env[0]);
      var b := if second then Blinds.Drive(a, 1, Ab, env[1]) else a;
      Blinds.Drive(Blinds.Drive(b, 2, Ab, env[2]), 3, Ab, env[3])
  }

  function OpenFrom(s: State, j: nat, env: seq<Env>): (t: State)
    requires Shape(s) && j <= 4 && |env| == 4
    ensures Shape(t)
    decreases 4 - j
  {
    if j == 4 then s else OpenFrom(Blinds.Drive(s, j, Auf, env[j]), j + 1, env)
  }

  /** What a tick sees of the controller. */
  function See(s: State, conf: Config, read: Readings, now: int, done: int): (t: Tick)
    requires Shape(s) && now <= done
    ensures Shaped(t)
  {
    Tick(conf, read, s.position, exists j :: 0 <= j < 4 && s.drvstate[j] != STOP, now, done)
  }

  lemma Nothing(s: State, env: seq<Env>)
    requires Shape(s) && |env| == 4
    ensures Issue(s, NoDrive, env) == s
  {
  }

  class Wetter {
    var lastWind: real
    var lastTemp: real
    var lastHell: real
    var regen: bool
    var drvTimeStamp: int
    var drvTimer: bool
    var closeOnWetter: bool

    ghost function Remembered(): Memory
      reads this
    {
      Memory(drvTimer, drvTimeStamp, closeOnWetter)
    }

    ghost function Last(): Readings
      reads this
    {
      Readings(lastHell, lastWind, lastTemp, regen)
    }

    method WetterSteuerung(jal: Jalousie, conf: Config, now: int, done: int, env: seq<Env>)
      requires jal.Valid() && |env| == 4 && now <= done
      modifies this, jal, jal.position, jal.drvstate, jal.thr_id
      ensures jal.Valid() && Last() == old(Last())
      ensures var r := Decide(old(Remembered()), See(old(jal.Now()), conf, old(Last()), now, done));
        Remembered() == r.0 && jal.Now() == Issue(old(jal.Now()), r.1, env)
    {
      hide Issue, Protection, SunGone, SunIn, Waited;
      ghost var s := jal.Now();
      ghost var t := See(s, conf, Last(), now, done);
      Nothing(s, env);
      if jal.drvstate[0] != STOP || jal.drvstate[1] != STOP || jal.drvstate[2] != STOP || jal.drvstate[3] != STOP {
        return;
      }
      assert !t.moving;
      var fahren := false;
      var jal2 := !conf.second;
      var jalauf := jal.position[0] == Auf && jal.position[1] == Auf && jal.position[2] == Auf && jal.position[3] == Auf;
      var jalzu := jal.position[0] == Ab && jal.position[2] == Ab && jal.position[3] == Ab;
      if jal2 {
        jalzu := jalzu && jal.position[1] == Ab;
      }
      assert jalauf == AllOpen(t) && jalzu == AllClosed(t);
      if !jalzu {
        closeOnWetter := false;
      }
      if !jalauf {
        fahren := MustOpen(conf, now, t);
        if fahren {
          OpenBlinds(jal, env);
          drvTimeStamp := done;
          drvTimer := true;
          closeOnWetter := false;
        }
      }
      if jalauf {
        fahren := MayClose(conf, now, t);
        if fahren {
          CloseBlinds(jal, conf, env);
          drvTimeStamp := done;
          drvTimer := true;
          closeOnWetter := true;
        }
      }
    }

    /** Wind, rain, or no sun any more. */
    method MustOpen(conf: Config, now: int, ghost t: Tick) returns (fahren: bool)
      requires t.conf == conf && t.read == Last() && t.now == now
      ensures fahren == (Protection(t) || (SunGone(t) && Waited(Remembered(), t) && closeOnWetter))
    {
      fahren := false;
      if conf.wind && lastWind > conf.windLimit as real {
        fahren := true;
      }
      if conf.rain && regen {
        fahren := true;
      }
      if conf.weather && (lastHell < conf.hellOpen as real || regen) {
        if !drvTimer || now - drvTimeStamp >= conf.hystTime * 60 {
          if closeOnWetter {
            fahren := true;
          }
        }
      }
    }

    method MayClose(conf: Config, now: int, ghost t: Tick) returns (fahren: bool)
      requires t.conf == conf && t.read == Last() && t.now == now
      ensures fahren == (Waited(Remembered(), t) && SunIn(t))
    {
      fahren := false;
      if (conf.weather && !drvTimer) || (conf.weather && now - drvTimeStamp >= conf.hystTime * 60) {
        if lastHell > conf.hellClose as real && lastTemp > conf.tempLimit as real && lastWind < conf.windLimit as real && !regen {
          fahren := true;
        }
      }
    }

    method CloseBlinds(jal: Jalousie, conf: Config, env: seq<Env>)
      requires jal.Valid() && |env| == 4
      modifies jal, jal.position, jal.drvstate, jal.thr_id
      ensures jal.Valid() && jal.Now() == Issue(old(jal.Now()), Close(conf.closeToSun, !conf.second), env)
    {
      hide DrvSonne, Blinds.Drive;
      var jal2 := !conf.second;
      if conf.closeToSun {
        jal.DrvSonneNow(0, env[0]);
        if jal2 {
          jal.DrvSonneNow(1, env[1]);
        }
        jal.DrvSonneNow(2, env[2]);
        jal.DrvSonneNow(3, env[3]);
      } else {
        jal.DrvAbwaerts(0, env[0]);
        if jal2 {
          jal.DrvAbwaerts(1, env[1]);
        }
        jal.DrvAbwaerts(2, env[2]);
        jal.DrvAbwaerts(3, env[3]);
      }
    }

    /** A full upward drive for each blind in turn. */
    method OpenBlinds(jal: Jalousie, env: seq<Env>)
      requires jal.Valid() && |env| == 4
      modifies jal, jal.position, jal.drvstate, jal.thr_id
      ensures jal.Valid() && jal.Now() == Issue(old(jal.Now()), OpenAll, env)
    {
      var i := 0;
      while i < 4
        invariant i <= 4 && jal.Valid()
        invariant OpenFrom(jal.Now(), i, env) == OpenFrom(old(jal.Now()), 0, env)
        decreases 4 - i
      {
        jal.DrvAufwaerts(i, env[i]);
        i := i + 1;
      }
    }
  }
}
