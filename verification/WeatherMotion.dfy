/**
  Weather and blinds together: what the weather closes by full drives it reopens when the sun has gone; what
  it closes to the sun position it does not, since a sun drive leaves the blind in an undefined position.
*/
module WeatherMotion {
  import opened Blinds
  import opened BlindSafety
  import opened BlindMotion
  import opened BlindSun
  import opened Weather

  function SunDrive(w: World, j: nat): (v: World)
    requires Sized(w) && j < 4
    ensures Sized(v)
  {
    BlindMotion.Step(w, BlindMotion.CommandEvent(SunCmd, j, true))
  }

  function PlainDrive(w: World, j: nat): (v: World)
    requires Sized(w) && j < 4
    ensures Sized(v)
  {
    BlindMotion.Step(w, BlindMotion.CommandEvent(DriveCmd(Ab), j, true))
  }

  /** The weather's closing commands: to the sun position, or a full drive down. */
  function SunDrives(w: World, second: bool): (v: World)
    requires Sized(w)
    ensures Sized(v)
  {
    var a := SunDrive(w, 0);
    var b := if second then SunDrive(a, 1) else a;
    SunDrive(SunDrive(b, 2), 3)
  }

  function PlainDrives(w: World, second: bool): (v: World)
    requires Sized(w)
    ensures Sized(v)
  {
    var a := PlainDrive(w, 0);
    var b := if second then PlainDrive(a, 1) else a;
    PlainDrive(PlainDrive(b, 2), 3)
  }

  function Closing(w: World, d: Drive): (v: World)
    requires Sized(w) && d.Close?
    ensures Sized(v)
  {
    if d.sun then SunDrives(w, d.second) else PlainDrives(w, d.second)
  }

  /** They are what the class issues. */
  lemma ClosingIsIssued(w: World, d: Drive)
    requires Sized(w) && d.Close?
    ensures var env := Env(true, true, 0);
      Closing(w, d).s == Issue(w.s, d, [env, env, env, env])
  {
    hide DrvSonne, Blinds.Drive, SunDrive, PlainDrive;
    var second := d.second;
    if d.sun {
      var a := SunDrive(w, 0);
      var b := if second then SunDrive(a, 1) else a;
      OneDrive(w, 0);
      OneDrive(a, 1);
      OneDrive(b, 2);
      OneDrive(SunDrive(b, 2), 3);
    } else {
      var a := PlainDrive(w, 0);
      var b := if second then PlainDrive(a, 1) else a;
      OneDrive(w, 0);
      OneDrive(a, 1);
      OneDrive(b, 2);
      OneDrive(PlainDrive(b, 2), 3);
    }
  }

  lemma OneDrive(w: World, j: nat)
    requires Sized(w) && j < 4
    ensures SunDrive(w, j).s == DrvSonne(w.s, j, Env(true, true, 0))
    ensures PlainDrive(w, j).s == Blinds.Drive(w.s, j, Ab, Env(true, true, 0))
  {
  }

  lemma SunDriveKeeps(w: World, j: nat)
    requires Motion(w) && OnTime(w) && j < 4
    ensures Motion(SunDrive(w, j)) && OnTime(SunDrive(w, j))
  {
    StepFits(w, BlindMotion.CommandEvent(SunCmd, j, true));
    CommandOnTime(w, j);
  }

  predicate Untouched(s: State, t: State, j: nat)
    requires Shape(s) && Shape(t) && j < 4
  {
    && t.position[j] == s.position[j] && t.drvstate[j] == s.drvstate[j] && t.thr[j] == s.thr[j]
    && (s.thr[j] in s.timers && s.timers[s.thr[j]].blind == j ==> s.thr[j] in t.timers && t.timers[s.thr[j]] == s.timers[s.thr[j]])
  }

  lemma StopElsewhere(s: State, k: nat, j: nat, env: Env)
    requires Inv(s) && j < 4 && k < 4 && k != j
    ensures Untouched(s, PStop(s, k, env), j)
  {
    assert BlindOk(s, k);
  }

  lemma DrvElsewhere(s: State, k: nat, j: nat, direction: Course, time: int, sun: bool, env: Env)
    requires Inv(s) && j < 4 && k < 4 && k != j && direction != STOP
    ensures Untouched(s, Drv(s, k, direction, time, sun, env), j)
  {
    assert TimerOk(s, s.thr[j]);
  }

  lemma SonneElsewhere(s: State, k: nat, j: nat, env: Env)
    requires Inv(s) && j < 4 && k < 4 && k != j
    ensures Untouched(s, DrvSonne(s, k, env), j)
  {
    hide Drv, PStop;
    var a := PStop(s, k, env);
    StopKeeps(s, k, env);
    StopElsewhere(s, k, j, env);
    OffsetKeeps(a);
    DrvElsewhere(a, k, j, Auf, SONNENZEIT, false, env);
    DrvElsewhere(NextOffset(a), k, j, Ab, FullTime(NextOffset(a)), true, env);
  }

  /** A command to one blind does not disturb the sun drive of another. */
  lemma OtherSunDrive(w: World, k: nat, j: nat)
    requires Motion(w) && j < 4 && k < 4 && k != j && SunPhase(w, j)
    ensures SunPhase(SunDrive(w, k), j)
  {
    hide DrvSonne;
    assert BlindOk(w.s, j);
    SonneElsewhere(w.s, k, j, Env(true, true, 0));
  }

  lemma SunDrivesStart(w: World, second: bool)
    requires Motion(w) && OnTime(w)
    ensures var v := SunDrives(w, second);
      && Motion(v) && OnTime(v)
      && SunPhase(v, 0) && SunPhase(v, 2) && SunPhase(v, 3) && (second ==> SunPhase(v, 1))
  {
    assert Sized(w);
    hide SunPhase, SunDrive, Motion, OnTime;
    var a := SunDrive(w, 0);
    SunStarts0(w, 0);
    SunDriveKeeps(w, 0);
    if second {
      SunStarts0(a, 1);
      OtherSunDrive(a, 1, 0);
      SunDriveKeeps(a, 1);
    }
    var b := if second then SunDrive(a, 1) else a;
    SunStarts0(b, 2);
    OtherSunDrive(b, 2, 0);
    SunDriveKeeps(b, 2);
    var c := SunDrive(b, 2);
    SunStarts0(c, 3);
    OtherSunDrive(c, 3, 0);
    OtherSunDrive(c, 3, 2);
    SunDriveKeeps(c, 3);
    if second {
      OtherSunDrive(b, 2, 1);
      OtherSunDrive(c, 3, 1);
    }
  }

  lemma SunStarts0(w: World, j: nat)
    requires Motion(w) && j < 4
    ensures SunPhase(SunDrive(w, j), j)
  {
    SunStarts(w, j);
  }

  // ---------------------------------------------------------------- a full drive down

  lemma PlainDriveKeeps(w: World, j: nat)
    requires Motion(w) && OnTime(w) && j < 4
    ensures Motion(PlainDrive(w, j)) && OnTime(PlainDrive(w, j))
  {
    StepFits(w, BlindMotion.CommandEvent(DriveCmd(Ab), j, true));
    FullOnTime(w, j, Ab);
  }

  lemma DriveElsewhere(s: State, k: nat, j: nat, d: Course, env: Env)
    requires Inv(s) && j < 4 && k < 4 && k != j && d != STOP
    ensures Untouched(s, Blinds.Drive(s, k, d, env), j)
  {
    hide Drv, PStop;
    var a := NextOffset(s);
    var b := PStop(a, k, env);
    OffsetKeeps(s);
    StopKeeps(a, k, env);
    StopElsewhere(a, k, j, env);
    DrvElsewhere(b, k, j, d, FullTime(a), false, env);
  }

  /** A command to one blind neither disturbs the closing of another nor moves one at rest. */
  lemma OtherPlainDrive(w: World, k: nat, j: nat)
    requires Motion(w) && j < 4 && k < 4 && k != j
    ensures FullPhase(w, j, Ab) ==> FullPhase(PlainDrive(w, k), j, Ab)
    ensures w.s.drvstate[j] == STOP ==> PlainDrive(w, k).s.drvstate[j] == STOP
  {
    hide Blinds.Drive;
    assert BlindOk(w.s, j);
    DriveElsewhere(w.s, k, j, Ab, Env(true, true, 0));
  }

  predicate AtRest(w: World)
    requires Sized(w)
  {
    forall j :: 0 <= j < 4 ==> w.s.drvstate[j] == STOP
  }

  lemma PlainDrivesStart(w: World, second: bool)
    requires Motion(w) && OnTime(w) && AtRest(w)
    ensures var v := PlainDrives(w, second);
      && Motion(v) && OnTime(v)
      && FullPhase(v, 0, Ab) && FullPhase(v, 2, Ab) && FullPhase(v, 3, Ab) && (second ==> FullPhase(v, 1, Ab))
  {
    assert Sized(w);
    hide FullPhase, PlainDrive, Motion, OnTime;
    var a := PlainDrive(w, 0);
    PlainDriveKeeps(w, 0);
    CloseStarts0(w, 0);
    OtherPlainDrive(w, 0, 1);
    OtherPlainDrive(w, 0, 2);
    OtherPlainDrive(w, 0, 3);
    var b := if second then PlainDrive(a, 1) else a;
    if second {
      PlainDriveKeeps(a, 1);
      CloseStarts0(a, 1);
      OtherPlainDrive(a, 1, 0);
      OtherPlainDrive(a, 1, 2);
      OtherPlainDrive(a, 1, 3);
    }
    var c := PlainDrive(b, 2);
    PlainDriveKeeps(b, 2);
    CloseStarts0(b, 2);
    OtherPlainDrive(b, 2, 0);
    OtherPlainDrive(b, 2, 1);
    OtherPlainDrive(b, 2, 3);
    PlainDriveKeeps(c, 3);
    CloseStarts0(c, 3);
    OtherPlainDrive(c, 3, 0);
    OtherPlainDrive(c, 3, 1);
    OtherPlainDrive(c, 3, 2);
  }

  lemma CloseStarts0(w: World, j: nat)
    requires Motion(w) && j < 4 && w.s.drvstate[j] == STOP
    ensures FullPhase(PlainDrive(w, j), j, Ab)
  {
    FullStarts(w, j, Ab);
  }

  // ---------------------------------------------------------------- what the memory makes of it

  /** Once forgotten, a close stays forgotten until the weather closes again. */
  lemma {:induction false} ForgottenUntilClose(m: Memory, ts: seq<Tick>, i: nat, k: nat)
    requires Ticks(ts) && i <= k <= |ts| && !Before(m, ts, i).closed
    requires forall h :: i <= h < k ==> !DriveAt(m, ts, h).Close?
    ensures !Before(m, ts, k).closed
  {
    if k > i {
      ForgottenUntilClose(m, ts, i, k - 1);
      assert !DriveAt(m, ts, k - 1).Close?;
    }
  }

  /** While the blinds are left where they are, a close is remembered until the weather opens. */
  lemma {:induction false} RememberedUntilDrive(m: Memory, ts: seq<Tick>, i: nat, k: nat)
    requires Ticks(ts) && i <= k <= |ts| && Before(m, ts, i).closed
    requires forall h :: i <= h < k ==> DriveAt(m, ts, h) == NoDrive && (ts[h].moving || AllClosed(ts[h]))
    ensures Before(m, ts, k).closed
  {
    if k > i {
      RememberedUntilDrive(m, ts, i, k - 1);
      assert DriveAt(m, ts, k - 1) == NoDrive;
    }
  }

  function QuietEnd(v: World, es: seq<BlindMotion.Event>): (u: World)
    requires Sized(v) && QuietRun(v, es)
    ensures Sized(u)
  {
    QuietIsRun(v, es);
    BlindMotion.Run(v, es)
  }

  /**
    A weather close and how it ends: at tick `c` the weather closes the blinds, nobody gives a command, the
    timers do what they are there for, and tick `i` is the first that finds the blinds at rest.
  */
  ghost predicate ClosedThenSeen(w: World, es: seq<BlindMotion.Event>, m: Memory, ts: seq<Tick>, c: nat, i: nat) {
    && Motion(w) && OnTime(w) && AtRest(w)
    && Ticks(ts) && c < i < |ts| && DriveAt(m, ts, c).Close?
    && QuietRun(Closing(w, DriveAt(m, ts, c)), es) && AllCreated(es)
    && (forall h :: c < h < i ==> ts[h].moving)
    && !ts[i].moving
    && ts[i] == See(QuietEnd(Closing(w, DriveAt(m, ts, c)), es).s, ts[i].conf, ts[i].read, ts[i].now, ts[i].done)
  }

  lemma ClosingParts(w: World, es: seq<BlindMotion.Event>, m: Memory, ts: seq<Tick>, c: nat, i: nat)
    requires ClosedThenSeen(w, es, m, ts, c, i)
    ensures Ticks(ts) && c < i < |ts| && DriveAt(m, ts, c).Close? && !ts[i].moving
    ensures forall h :: c < h < i ==> ts[h].moving
  {
  }

  /** Until the blinds rest the memory is that of the close. */
  lemma {:induction false} NothingWhileMoving(m: Memory, ts: seq<Tick>, c: nat, i: nat)
    requires Ticks(ts) && c < i <= |ts| && DriveAt(m, ts, c).Close? && forall h :: c < h < i ==> ts[h].moving
    ensures Before(m, ts, i).closed && Before(m, ts, i) == Before(m, ts, c + 1)
  {
    if i > c + 1 {
      NothingWhileMoving(m, ts, c, i - 1);
    }
  }

  /** What the first tick at rest sees: undefined after a sun close, closed after a full drive down. */
  lemma SeenAfterClosing(w: World, es: seq<BlindMotion.Event>, m: Memory, ts: seq<Tick>, c: nat, i: nat)
    requires ClosedThenSeen(w, es, m, ts, c, i)
    ensures ts[c].conf.closeToSun ==> ts[i].position[0] == UNDEF
    ensures !ts[c].conf.closeToSun && ts[i].conf.second == ts[c].conf.second ==> AllClosed(ts[i])
  {
    assert Sized(w);
    hide Motion, OnTime, SunDrives, PlainDrives, QuietRun, BlindMotion.Run, Before, SunPhase;
    var d := DriveAt(m, ts, c);
    var v := Closing(w, d);
    assert d == Close(ts[c].conf.closeToSun, !ts[c].conf.second) by { CloseIs(m, ts, c); }
    if d.sun {
      SunDrivesStart(w, d.second);
      SunGoesOn(v, es, 0);
      SunIsUndefined(QuietEnd(v, es));
    } else {
      PlainDrivesStart(w, d.second);
      FullGoesOn(v, es, 0, Ab);
      FullGoesOn(v, es, 2, Ab);
      FullGoesOn(v, es, 3, Ab);
      if d.second {
        FullGoesOn(v, es, 1, Ab);
      }
      ClosedAtRest(QuietEnd(v, es), ts[i], d.second);
    }
  }

  lemma CloseIs(m: Memory, ts: seq<Tick>, c: nat)
    requires Ticks(ts) && c < |ts| && DriveAt(m, ts, c).Close?
    ensures DriveAt(m, ts, c) == Close(ts[c].conf.closeToSun, !ts[c].conf.second)
  {
  }

  lemma SunIsUndefined(u: World)
    requires Sized(u) && SunPhase(u, 0)
    ensures u.s.position[0] == UNDEF
  {
  }

  lemma ClosedAtRest(u: World, t: Tick, second: bool)
    requires Sized(u) && Shaped(t) && !t.moving && t == See(u.s, t.conf, t.read, t.now, t.done)
    requires FullPhase(u, 0, Ab) && FullPhase(u, 2, Ab) && FullPhase(u, 3, Ab) && (second ==> FullPhase(u, 1, Ab))
    ensures t.conf.second == !second ==> AllClosed(t)
  {
    assert forall j :: 0 <= j < 4 ==> u.s.drvstate[j] == STOP;
  }

  /**
    A close to the sun position is forgotten by the first tick that finds the blinds at rest: from then on,
    and until the weather closes again, only wind or rain protection opens them.
  */
  lemma SunCloseIsForgotten(w: World, es: seq<BlindMotion.Event>, m: Memory, ts: seq<Tick>, c: nat, i: nat, k: nat)
    requires ClosedThenSeen(w, es, m, ts, c, i) && ts[c].conf.closeToSun
    requires i <= k < |ts| && forall h :: i <= h < k ==> !DriveAt(m, ts, h).Close?
    ensures DriveAt(m, ts, k) == OpenAll ==> Protection(ts[k])
  {
    hide ClosedThenSeen, DriveAt, Before, Protection, Ticks;
    ClosingParts(w, es, m, ts, c, i);
    SeenAfterClosing(w, es, m, ts, c, i);
    ForgottenFrom(m, ts, i, k);
  }

  lemma ForgottenFrom(m: Memory, ts: seq<Tick>, i: nat, k: nat)
    requires Ticks(ts) && i <= k < |ts| && !ts[i].moving && ts[i].position[0] == UNDEF
    requires forall h :: i <= h < k ==> !DriveAt(m, ts, h).Close?
    ensures DriveAt(m, ts, k) == OpenAll ==> Protection(ts[k])
  {
    hide DriveAt, Before, Protection;
    UndefinedForgets(m, ts, i);
    if k > i {
      ForgottenUntilClose(m, ts, i + 1, k);
      OpensOnlyRemembered(m, ts, k);
    }
  }

  lemma UndefinedForgets(m: Memory, ts: seq<Tick>, i: nat)
    requires Ticks(ts) && i < |ts| && !ts[i].moving && ts[i].position[0] == UNDEF
    ensures !Before(m, ts, i + 1).closed && (DriveAt(m, ts, i) == OpenAll ==> Protection(ts[i]))
  {
  }

  lemma OpensOnlyRemembered(m: Memory, ts: seq<Tick>, k: nat)
    requires Ticks(ts) && k < |ts| && !Before(m, ts, k).closed
    ensures DriveAt(m, ts, k) == OpenAll ==> Protection(ts[k])
  {
  }

  /**
    A close by full drives is remembered as long as the counted blinds stay closed, and the weather opens them
    again once the sun is gone and the waiting time over.
  */
  lemma PlainCloseIsReopened(w: World, es: seq<BlindMotion.Event>, m: Memory, ts: seq<Tick>, c: nat, i: nat, k: nat)
    requires ClosedThenSeen(w, es, m, ts, c, i) && !ts[c].conf.closeToSun && ts[i].conf.second == ts[c].conf.second
    requires i <= k < |ts| && forall h :: i <= h < k ==> DriveAt(m, ts, h) == NoDrive
    requires forall h :: i < h <= k ==> ts[h].moving || AllClosed(ts[h])
    ensures AllClosed(ts[i]) && Before(m, ts, k).closed
    ensures !ts[k].moving && SunGone(ts[k]) && Waited(Before(m, ts, k), ts[k]) ==> DriveAt(m, ts, k) == OpenAll
  {
    hide ClosedThenSeen, DriveAt, Before, AllClosed, SunGone, Waited, Ticks;
    ClosingParts(w, es, m, ts, c, i);
    SeenAfterClosing(w, es, m, ts, c, i);
    NothingWhileMoving(m, ts, c, i);
    ReopensFrom(m, ts, i, k);
  }

  lemma ReopensFrom(m: Memory, ts: seq<Tick>, i: nat, k: nat)
    requires Ticks(ts) && i <= k < |ts| && Before(m, ts, i).closed
    requires forall h :: i <= h < k ==> DriveAt(m, ts, h) == NoDrive
    requires forall h :: i <= h <= k ==> ts[h].moving || AllClosed(ts[h])
    ensures Before(m, ts, k).closed
    ensures !ts[k].moving && SunGone(ts[k]) && Waited(Before(m, ts, k), ts[k]) ==> DriveAt(m, ts, k) == OpenAll
  {
    hide DriveAt, Before, AllClosed, SunGone, Waited;
    RememberedUntilDrive(m, ts, i, k);
    if !ts[k].moving {
      ClosedOpens(m, ts, k);
    }
  }

  lemma ClosedOpens(m: Memory, ts: seq<Tick>, k: nat)
    requires Ticks(ts) && k < |ts| && Before(m, ts, k).closed && !ts[k].moving && AllClosed(ts[k])
    ensures SunGone(ts[k]) && Waited(Before(m, ts, k), ts[k]) ==> DriveAt(m, ts, k) == OpenAll
  {
  }

  /**
    So whether the sun's going reopens what the weather closed depends on one setting: while the blinds are
    left where the close brought them, a tick without protection reopens them, given that the sun is gone and
    the waiting time over, exactly if they were not closed to the sun position.
  */
  lemma ReopensExactly(w: World, es: seq<BlindMotion.Event>, m: Memory, ts: seq<Tick>, c: nat, i: nat, k: nat)
    requires ClosedThenSeen(w, es, m, ts, c, i) && i <= k < |ts|
    requires forall h :: i <= h < k ==> DriveAt(m, ts, h) == NoDrive
    requires forall h :: i <= h <= k ==> ts[h].position == ts[i].position && ts[h].conf.second == ts[c].conf.second
    requires !ts[k].moving && SunGone(ts[k]) && Waited(Before(m, ts, k), ts[k]) && !Protection(ts[k])
    ensures DriveAt(m, ts, k) == OpenAll <==> !ts[c].conf.closeToSun
  {
    hide ClosedThenSeen, DriveAt, Before, SunGone, Waited, Protection;
    ClosingParts(w, es, m, ts, c, i);
    if ts[c].conf.closeToSun {
      SunCloseIsForgotten(w, es, m, ts, c, i, k);
    } else {
      SeenAfterClosing(w, es, m, ts, c, i);
      assert forall h :: i <= h <= k ==> AllClosed(ts[h]);
      PlainCloseIsReopened(w, es, m, ts, c, i, k);
    }
  }

  /** The first tick at rest comes: past the bound of the longest drive nothing moves. */
  lemma ClosingEnds(w: World, es: seq<BlindMotion.Event>, d: Drive, j: nat)
    requires Motion(w) && OnTime(w) && AtRest(w) && d.Close? && j < 4
    requires QuietRun(Closing(w, d), es) && Elapsed(es) > FAHRZEIT + 2400000 + SONNENZEIT
    ensures QuietEnd(Closing(w, d), es).s.drvstate[j] == STOP
  {
    assert Sized(w);
    hide Motion, OnTime, Closing, QuietRun, BlindMotion.Run;
    var v := Closing(w, d);
    ClosingKeeps(w, d);
    RestIsNoTimer(w);
    ClosingIsShort(w, d);
    ComesToRest(v, es, j);
    assert Rest(QuietEnd(v, es), j) >= 0;
  }

  lemma ClosingKeeps(w: World, d: Drive)
    requires Motion(w) && OnTime(w) && AtRest(w) && d.Close?
    ensures Motion(Closing(w, d)) && OnTime(Closing(w, d))
  {
    if d.sun {
      SunDrivesStart(w, d.second);
    } else {
      PlainDrivesStart(w, d.second);
    }
  }

  /** No timer has longer to go than a full drive with the longest offset. */
  predicate Short(w: World) {
    && (forall id :: id in w.s.timers ==> id in w.left)
    && (forall id :: id in w.left ==> w.left[id] <= FAHRZEIT + 2400000)
  }

  lemma SunDriveIsShort(w: World, j: nat)
    requires Sized(w) && Short(w) && j < 4
    ensures Short(SunDrive(w, j))
  {
    ShortTimers(w, DrvSonne(w.s, j, Env(true, true, 0)));
  }

  lemma PlainDriveIsShort(w: World, j: nat)
    requires Sized(w) && Short(w) && j < 4
    ensures Short(PlainDrive(w, j))
  {
    ShortTimers(w, Blinds.Drive(w.s, j, Ab, Env(true, true, 0)));
  }

  lemma ShortTimers(w: World, t: State)
    requires forall id :: id in w.left ==> w.left[id] <= FAHRZEIT + 2400000
    requires forall id :: id in t.timers && id !in w.left ==> t.timers[id].time <= FAHRZEIT + 2400000
    ensures Short(Timed(w, t))
  {
  }

  lemma ClosingIsShort(w: World, d: Drive)
    requires Sized(w) && Short(w) && d.Close?
    ensures Short(Closing(w, d))
  {
    hide Short, SunDrive, PlainDrive;
    var second := d.second;
    if d.sun {
      SunDriveIsShort(w, 0);
      var a := SunDrive(w, 0);
      SunDriveIsShort(a, 1);
      var b := if second then SunDrive(a, 1) else a;
      SunDriveIsShort(b, 2);
      SunDriveIsShort(SunDrive(b, 2), 3);
    } else {
      PlainDriveIsShort(w, 0);
      var a := PlainDrive(w, 0);
      PlainDriveIsShort(a, 1);
      var b := if second then PlainDrive(a, 1) else a;
      PlainDriveIsShort(b, 2);
      PlainDriveIsShort(PlainDrive(b, 2), 3);
    }
  }

  lemma RestIsNoTimer(w: World)
    requires Motion(w) && AtRest(w)
    ensures Short(w)
  {
    assert forall id :: id in w.s.timers ==> TimerFits(w, id) && TimerOk(w.s, id);
  }

  // ---------------------------------------------------------------- where the blinds end

  /**
    A weather close, once the longest drive is over: every counted blind stands at the bottom, or one short
    pulse above it in an undefined position, and one that is not counted has not moved.
  */
  lemma ClosingArrives(w: World, d: Drive, es: seq<BlindMotion.Event>, j: nat)
    requires Motion(w) && OnTime(w) && AtRest(w) && d.Close? && j < 4
    requires QuietRun(Closing(w, d), es) && AllCreated(es) && Elapsed(es) > FAHRZEIT + 2400000 + SONNENZEIT
    ensures var u := QuietEnd(Closing(w, d), es);
      && u.s.drvstate[j] == STOP
      && if j == 1 && !d.second then u.s.position[j] == w.s.position[j] && u.height[j] == w.height[j]
         else if d.sun then u.s.position[j] == UNDEF && u.height[j] == Min(w.travel[j], SONNENZEIT)
         else u.s.position[j] == Ab && u.height[j] == 0
  {
    assert Sized(w);
    hide Motion, OnTime, QuietRun, BlindMotion.Run, SunPhase, FullPhase, SunDrives, PlainDrives;
    var v := Closing(w, d);
    ClosingEnds(w, es, d, j);
    ClosingKeeps(w, d);
    ClosingTravel(w, d);
    if j == 1 && !d.second {
      UncountedRests(w, d);
      RestStays(v, es, 1);
    } else if d.sun {
      SunDrivesEnd(w, d.second, es, j);
    } else {
      PlainDrivesEnd(w, d.second, es, j);
    }
  }

  lemma SunDrivesEnd(w: World, second: bool, es: seq<BlindMotion.Event>, j: nat)
    requires Motion(w) && OnTime(w) && j < 4 && (j == 1 ==> second)
    requires QuietRun(SunDrives(w, second), es) && AllCreated(es)
    requires QuietEnd(SunDrives(w, second), es).s.drvstate[j] == STOP
    ensures var u := QuietEnd(SunDrives(w, second), es);
      u.s.position[j] == UNDEF && u.height[j] == Min(SunDrives(w, second).travel[j], SONNENZEIT)
  {
    assert Sized(w);
    hide Motion, OnTime, QuietRun, BlindMotion.IsRun, BlindMotion.Run, SunPhase, SunDrives, AllCreated;
    var v := SunDrives(w, second);
    SunPhaseOf(w, second, j);
    SunRunEnd(v, es, j);
  }

  lemma PlainDrivesEnd(w: World, second: bool, es: seq<BlindMotion.Event>, j: nat)
    requires Motion(w) && OnTime(w) && AtRest(w) && j < 4 && (j == 1 ==> second)
    requires QuietRun(PlainDrives(w, second), es) && Elapsed(es) > FAHRZEIT + 2400000
    ensures var u := QuietEnd(PlainDrives(w, second), es);
      u.s.position[j] == Ab && u.height[j] == 0
  {
    assert Sized(w);
    hide Motion, OnTime, QuietRun, BlindMotion.IsRun, BlindMotion.Run, FullPhase, PlainDrives;
    FullPhaseOf(w, second, j);
    FullPhaseArrives(PlainDrives(w, second), es, j, Ab);
  }

  lemma SunPhaseOf(w: World, second: bool, j: nat)
    requires Motion(w) && OnTime(w) && j < 4 && (j == 1 ==> second)
    ensures var v := SunDrives(w, second);
      Motion(v) && OnTime(v) && SunPhase(v, j)
  {
    assert Sized(w);
    hide Motion, OnTime, SunPhase, SunDrives;
    SunDrivesStart(w, second);
    assert j == 0 || j == 1 || j == 2 || j == 3;
  }

  lemma FullPhaseOf(w: World, second: bool, j: nat)
    requires Motion(w) && OnTime(w) && AtRest(w) && j < 4 && (j == 1 ==> second)
    ensures var v := PlainDrives(w, second);
      Motion(v) && OnTime(v) && FullPhase(v, j, Ab)
  {
    assert Sized(w);
    hide Motion, OnTime, FullPhase, PlainDrives;
    PlainDrivesStart(w, second);
    assert j == 0 || j == 1 || j == 2 || j == 3;
  }

  lemma SunRunEnd(v: World, es: seq<BlindMotion.Event>, j: nat)
    requires Motion(v) && OnTime(v) && j < 4 && SunPhase(v, j) && QuietRun(v, es) && AllCreated(es)
    requires QuietEnd(v, es).s.drvstate[j] == STOP
    ensures QuietEnd(v, es).s.position[j] == UNDEF && QuietEnd(v, es).height[j] == Min(v.travel[j], SONNENZEIT)
  {
    assert Sized(v);
    hide Motion, OnTime, QuietRun, BlindMotion.IsRun, BlindMotion.Run, SunPhase, AllCreated;
    SunGoesOn(v, es, j);
    TravelKept(v, es);
    SunEnd(QuietEnd(v, es), j);
  }

  lemma SunEnd(u: World, j: nat)
    requires Sized(u) && j < 4 && SunPhase(u, j) && u.s.drvstate[j] == STOP
    ensures u.s.position[j] == UNDEF && u.height[j] == Min(u.travel[j], SONNENZEIT)
  {
  }

  lemma TravelKept(v: World, es: seq<BlindMotion.Event>)
    requires Sized(v) && QuietRun(v, es)
    ensures QuietEnd(v, es).travel == v.travel
  {
    QuietIsRun(v, es);
    TravelStays(v, es);
  }

  lemma ClosingTravel(w: World, d: Drive)
    requires Sized(w) && d.Close?
    ensures Closing(w, d).travel == w.travel && Closing(w, d).height == w.height
  {
  }

  /** A blind that is not counted gets no command. */
  lemma UncountedRests(w: World, d: Drive)
    requires Motion(w) && OnTime(w) && AtRest(w) && d.Close? && !d.second
    ensures Closing(w, d).s.drvstate[1] == STOP && Closing(w, d).s.position[1] == w.s.position[1]
  {
    assert Sized(w);
    hide SunDrive, PlainDrive, Motion, OnTime;
    if d.sun {
      var a := SunDrive(w, 0);
      SunDriveKeeps(w, 0);
      Elsewhere(w, 0, 1);
      SunDriveKeeps(a, 2);
      Elsewhere(a, 2, 1);
      Elsewhere(SunDrive(a, 2), 3, 1);
    } else {
      var a := PlainDrive(w, 0);
      PlainDriveKeeps(w, 0);
      Elsewhere(w, 0, 1);
      PlainDriveKeeps(a, 2);
      Elsewhere(a, 2, 1);
      Elsewhere(PlainDrive(a, 2), 3, 1);
    }
  }

  lemma Elsewhere(w: World, k: nat, j: nat)
    requires Motion(w) && j < 4 && k < 4 && k != j
    ensures SunDrive(w, k).s.drvstate[j] == w.s.drvstate[j] && SunDrive(w, k).s.position[j] == w.s.position[j]
    ensures PlainDrive(w, k).s.drvstate[j] == w.s.drvstate[j] && PlainDrive(w, k).s.position[j] == w.s.position[j]
  {
    hide DrvSonne, Blinds.Drive;
    SonneElsewhere(w.s, k, j, Env(true, true, 0));
    DriveElsewhere(w.s, k, j, Ab, Env(true, true, 0));
  }

  // ---------------------------------------------------------------- opening

  /** The weather's opening commands. */
  function Opening(w: World): (v: World)
    requires Sized(w)
    ensures Sized(v)
  {
    FullDrive(FullDrive(FullDrive(FullDrive(w, 0, Auf), 1, Auf), 2, Auf), 3, Auf)
  }

  lemma OpeningIsIssued(w: World)
    requires Sized(w)
    ensures var env := Env(true, true, 0);
      Opening(w).s == Issue(w.s, OpenAll, [env, env, env, env])
  {
    hide Blinds.Drive, FullDrive;
    var a := FullDrive(w, 0, Auf);
    var b := FullDrive(a, 1, Auf);
    var c := FullDrive(b, 2, Auf);
    OneFullDrive(w, 0);
    OneFullDrive(a, 1);
    OneFullDrive(b, 2);
    OneFullDrive(c, 3);
    var env := Env(true, true, 0);
    var es := [env, env, env, env];
    assert OpenFrom(w.s, 0, es) == OpenFrom(a.s, 1, es) == OpenFrom(b.s, 2, es);
    assert OpenFrom(b.s, 2, es) == OpenFrom(c.s, 3, es) == OpenFrom(Opening(w).s, 4, es);
  }

  lemma OneFullDrive(w: World, j: nat)
    requires Sized(w) && j < 4
    ensures FullDrive(w, j, Auf).s == Blinds.Drive(w.s, j, Auf, Env(true, true, 0))
  {
  }

  lemma OtherFullDrive(w: World, k: nat, j: nat)
    requires Motion(w) && j < 4 && k < 4 && k != j
    ensures FullPhase(w, j, Auf) ==> FullPhase(FullDrive(w, k, Auf), j, Auf)
    ensures w.s.drvstate[j] == STOP ==> FullDrive(w, k, Auf).s.drvstate[j] == STOP
  {
    hide Blinds.Drive;
    assert BlindOk(w.s, j);
    DriveElsewhere(w.s, k, j, Auf, Env(true, true, 0));
  }

  /** The first `k` blinds drive up or are there, the others still rest. */
  ghost predicate OpenedUpTo(w: World, k: nat) {
    && Motion(w) && OnTime(w) && k <= 4
    && (forall j: nat :: j < k ==> FullPhase(w, j, Auf))
    && (forall j: nat :: k <= j < 4 ==> w.s.drvstate[j] == STOP)
  }

  lemma OpenOne(w: World, k: nat)
    requires OpenedUpTo(w, k) && k < 4
    ensures OpenedUpTo(FullDrive(w, k, Auf), k + 1)
  {
    assert Sized(w);
    hide FullPhase, FullDrive, Motion, OnTime;
    FullOnTime(w, k, Auf);
    FullStarts(w, k, Auf);
    forall j: nat | j < 4 && j != k
      ensures FullPhase(w, j, Auf) ==> FullPhase(FullDrive(w, k, Auf), j, Auf)
      ensures w.s.drvstate[j] == STOP ==> FullDrive(w, k, Auf).s.drvstate[j] == STOP
    {
      OtherFullDrive(w, k, j);
    }
  }

  lemma OpeningStarts(w: World)
    requires Motion(w) && OnTime(w) && AtRest(w)
    ensures OpenedUpTo(Opening(w), 4)
  {
    assert Sized(w) && OpenedUpTo(w, 0);
    hide OpenedUpTo, FullDrive, Motion, OnTime;
    OpenOne(w, 0);
    OpenOne(FullDrive(w, 0, Auf), 1);
    OpenOne(FullDrive(FullDrive(w, 0, Auf), 1, Auf), 2);
    OpenOne(FullDrive(FullDrive(FullDrive(w, 0, Auf), 1, Auf), 2, Auf), 3);
  }

  /**
    A storm opens the blinds: at any tick that finds them at rest and not all open, wherever they stand and
    whoever put them there, an enabled and exceeded wind limit or enabled rain gives the opening commands, and
    once the longest drive is over every blind is at the top, at rest, and known to be open.
  */
  lemma StormOpensAll(w: World, es: seq<BlindMotion.Event>, m: Memory, t: Tick, j: nat)
    requires Motion(w) && OnTime(w) && AtRest(w) && Shaped(t) && t == See(w.s, t.conf, t.read, t.now, t.done) && j < 4
    requires exists k :: 0 <= k < 4 && w.s.position[k] != Auf
    requires (t.conf.wind && t.read.wind > t.conf.windLimit as real) || (t.conf.rain && t.read.regen)
    requires QuietRun(Opening(w), es) && Elapsed(es) > FAHRZEIT + 2400000
    ensures Decide(m, t) == (Memory(true, t.done, false), OpenAll)
    ensures var u := QuietEnd(Opening(w), es);
      u.s.drvstate[j] == STOP && u.s.position[j] == Auf && u.height[j] == w.travel[j]
  {
    assert Sized(w);
    OpensExactly(m, t);
    RemembersExactly(m, t);
    hide Motion, OnTime, QuietRun, BlindMotion.Run, FullPhase, Opening, Decide;
    OpeningStarts(w);
    OpeningTravel(w);
    FullPhaseArrives(Opening(w), es, j, Auf);
  }

  lemma OpeningTravel(w: World)
    requires Sized(w)
    ensures Opening(w).travel == w.travel
  {
  }
}
