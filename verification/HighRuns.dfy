/**
  The ventilation in time: how long it runs high.  Every pending timer has seconds left; time passes until
  the next one is due, and due timers expire.
*/
module HighRuns {
  import opened Lists
  import opened Pcf8574
  import opened MainPort

  datatype World = World(m: Main, left: map<nat, int>)

  datatype Event = Device(e: MainPort.Event) | Pass(dt: nat)

  predicate Enabled(w: World, e: Event) {
    match e
    case Device(d) => MainPort.Enabled(w.m, d) && (d.TimerEvent? ==> d.id in w.left && w.left[d.id] == 0)
    case Pass(dt) => forall id :: id in w.left ==> dt <= w.left[id]
  }

  /** Threads that are new start with their full time. */
  function Moved(w: World, m: Main): World {
    World(m, map id | id in m.vent.timers :: if id in w.left then w.left[id] else m.vent.timers[id])
  }

  function Step(w: World, e: Event): World
    requires Enabled(w, e)
  {
    match e
    case Device(d) => Moved(w, MainPort.Step(w.m, d))
    case Pass(dt) => w.(left := map id | id in w.left :: w.left[id] - dt)
  }

  predicate IsRun(w: World, es: seq<Event>)
    decreases |es|
  {
    es == [] || (Enabled(w, es[0]) && IsRun(Step(w, es[0]), es[1..]))
  }

  function Run(w: World, es: seq<Event>): World
    requires IsRun(w, es)
    decreases |es|
  {
    if es == [] then w else Run(Step(w, es[0]), es[1..])
  }

  function Begin(low: bool): World {
    World(MainPort.Initial(low), map[])
  }

  function Elapsed(es: seq<Event>): nat {
    if es == [] then 0 else (if es[0].Pass? then es[0].dt else 0) + Elapsed(es[1..])
  }

  predicate NoRestart(es: seq<Event>) {
    forall i :: 0 <= i < |es| ==> !(es[i].Device? && es[i].e.RestartEvent?)
  }

  function Trigger(zeit: int, junk: nat): Event {
    Device(HighEvent(zeit, true, junk))
  }

  function Restarted(lost: bv8): Event {
    Device(RestartEvent(lost))
  }

  // ---------------------------------------------------------------- what always holds

  ghost predicate Good(w: World) {
    && w.left.Keys == w.m.vent.timers.Keys
    && (forall id :: id in w.left ==> id < w.m.vent.next && w.left[id] >= 0)
    && (w.m.vent.air == High ==> w.m.vent.thr in w.left)
  }

  /** What the devices do to the timers and the level: nothing about the outputs matters here. */
  lemma DeviceStep(m: Main, e: MainPort.Event)
    requires MainPort.Enabled(m, e)
    ensures var n := MainPort.Step(m, e);
      match e
      case HighEvent(zeit, true, _) =>
        (m.vent.air == High ==> n == m) &&
        (m.vent.air != High ==> n.vent.air == High && n.vent.thr == m.vent.next && n.vent.next == m.vent.next + 1
                                && n.vent.timers == m.vent.timers[m.vent.next := Seconds(zeit)])
      case TimerEvent(id) =>
        n.vent.air != High && n.vent.timers == m.vent.timers - {id} && n.vent.next == m.vent.next
      case RestartEvent(_) =>
        n.vent.air != High && n.vent.timers == m.vent.timers && n.vent.next == m.vent.next && n.vent.thr == m.vent.thr
      case _ =>
        (n.vent.air == High <==> m.vent.air == High) && n.vent.timers == m.vent.timers && n.vent.next == m.vent.next
        && (m.vent.air == High ==> n.vent.thr == m.vent.thr)
  {
    hide Put;
  }

  lemma StepGood(w: World, e: Event)
    requires Good(w) && Enabled(w, e)
    ensures Good(Step(w, e))
  {
    if e.Device? {
      hide MainPort.Step;
      DeviceStep(w.m, e.e);
    }
    assert Step(w, e).left.Keys == Step(w, e).m.vent.timers.Keys;
  }

  lemma {:induction false} RunGood(w: World, es: seq<Event>)
    requires Good(w) && IsRun(w, es)
    ensures Good(Run(w, es))
    decreases |es|
  {
    hide Good, Step, Enabled;
    if es != [] {
      StepGood(w, es[0]);
      RunGood(Step(w, es[0]), es[1..]);
    }
  }

  lemma BeginGood(low: bool)
    ensures Good(Begin(low)) && Begin(low).left == map[] && Begin(low).m.vent.air != High
  {
    hide Put;
  }

  // ---------------------------------------------------------------- how long a high run lasts

  /** Running high, and no timer is due before `rest` seconds are over. */
  ghost predicate LastsFor(w: World, rest: int) {
    Good(w) && w.m.vent.air == High && forall id :: id in w.left ==> w.left[id] >= rest
  }

  lemma StepLasts(w: World, e: Event, rest: int)
    requires LastsFor(w, rest) && rest > 0 && Enabled(w, e) && !(e.Device? && e.e.RestartEvent?)
    ensures LastsFor(Step(w, e), rest - if e.Pass? then e.dt else 0)
  {
    StepGood(w, e);
    if e.Device? {
      hide MainPort.Step;
      DeviceStep(w.m, e.e);
    }
  }

  lemma {:induction false} RunLasts(w: World, es: seq<Event>, rest: int)
    requires LastsFor(w, rest) && IsRun(w, es) && NoRestart(es) && Elapsed(es) < rest
    ensures Run(w, es).m.vent.air == High
    decreases |es|
  {
    if es != [] {
      hide LastsFor, Step, Enabled;
      assert !(es[0].Device? && es[0].e.RestartEvent?);
      StepLasts(w, es[0], rest);
      RunLasts(Step(w, es[0]), es[1..], rest - if es[0].Pass? then es[0].dt else 0);
    } else {
      assert LastsFor(w, rest);
    }
  }

  /** In every continuation without a restart the ventilation is high for at least `time` seconds. */
  ghost predicate HighFor(w: World, time: nat) {
    forall es: seq<Event> :: IsRun(w, es) && NoRestart(es) && Elapsed(es) < time ==> Run(w, es).m.vent.air == High
  }

  lemma RunMore(w: World, e: Event, es: seq<Event>)
    requires Enabled(w, e) && IsRun(Step(w, e), es)
    ensures IsRun(w, [e] + es) && Run(w, [e] + es) == Run(Step(w, e), es)
    ensures Elapsed([e] + es) == (if e.Pass? then e.dt else 0) + Elapsed(es)
  {
    assert ([e] + es)[1..] == es;
  }

  /** Let the time pass until the first timer is due, and it ends the run. */
  lemma FirstTimerEnds(w: World, time: nat, id: nat)
    requires Good(w) && id in w.left && w.left[id] < time && forall k :: k in w.left ==> w.left[id] <= w.left[k]
    ensures !HighFor(w, time)
  {
    hide MainPort.Step;
    var pass, expire := Pass(w.left[id]), Device(TimerEvent(id));
    var v := Step(w, pass);
    DeviceStep(v.m, TimerEvent(id));
    var u := Step(v, expire);
    assert IsRun(u, []) && Run(u, []) == u;
    RunMore(v, expire, []);
    RunMore(w, pass, [expire] + []);
    var es := [pass] + ([expire] + []);
    assert Elapsed(es) == w.left[id] && NoRestart(es);
    assert IsRun(w, es) && Run(w, es) == u && u.m.vent.air != High;
  }

  /**
    A high run that is triggered with a duration lasts at least that long, whatever the other devices do and
    as long as the board does not restart, exactly if no older timer is due before.
  */
  lemma HighRunLastsExactly(low: bool, before: seq<Event>, zeit: int, junk: nat)
    requires IsRun(Begin(low), before) && Run(Begin(low), before).m.vent.air != High
    ensures var w := Run(Begin(low), before);
      HighFor(Step(w, Trigger(zeit, junk)), Seconds(zeit)) <==> forall id :: id in w.left ==> w.left[id] >= Seconds(zeit)
  {
    hide MainPort.Step, Seconds, HighFor;
    BeginGood(low);
    RunGood(Begin(low), before);
    var w := Run(Begin(low), before);
    var v := Step(w, Trigger(zeit, junk));
    Triggered(w, zeit, junk);
    if forall id :: id in w.left ==> w.left[id] >= Seconds(zeit) {
      LongEnough(v, Seconds(zeit));
    } else {
      var id := DueFirst(w.left);
      FirstTimerEnds(v, Seconds(zeit), id);
    }
  }

  lemma LongEnough(w: World, time: nat)
    requires LastsFor(w, time)
    ensures HighFor(w, time)
  {
    forall es: seq<Event> | IsRun(w, es) && NoRestart(es) && Elapsed(es) < time
      ensures Run(w, es).m.vent.air == High
    {
      RunLasts(w, es, time);
    }
  }

  lemma Triggered(w: World, zeit: int, junk: nat)
    requires Good(w) && w.m.vent.air != High
    ensures var v := Step(w, Trigger(zeit, junk));
      && Good(v) && v.m.vent.air == High && v.m.vent.thr == w.m.vent.next
      && v.left == w.left[w.m.vent.next := Seconds(zeit)]
  {
    hide MainPort.Step;
    StepGood(w, Trigger(zeit, junk));
    DeviceStep(w.m, HighEvent(zeit, true, junk));
  }

  // ---------------------------------------------------------------- runs of their own length

  /** The only pending timer, if any, is that of the high run that goes on. */
  ghost predicate OneTimer(w: World) {
    Good(w) && w.left.Keys == if w.m.vent.air == High then {w.m.vent.thr} else {}
  }

  lemma StepOneTimer(w: World, e: Event)
    requires OneTimer(w) && Enabled(w, e) && !(e.Device? && e.e.RestartEvent?)
    ensures OneTimer(Step(w, e))
  {
    StepGood(w, e);
    if e.Device? {
      hide MainPort.Step;
      DeviceStep(w.m, e.e);
    }
  }

  lemma {:induction false} RunOneTimer(w: World, es: seq<Event>)
    requires OneTimer(w) && IsRun(w, es) && NoRestart(es)
    ensures OneTimer(Run(w, es))
    decreases |es|
  {
    if es != [] {
      hide OneTimer, Step, Enabled;
      assert !(es[0].Device? && es[0].e.RestartEvent?);
      StepOneTimer(w, es[0]);
      RunOneTimer(Step(w, es[0]), es[1..]);
    }
  }

  /** The time a timer has left runs with the clock. */
  lemma {:induction false} TimerRuns(w: World, es: seq<Event>, id: nat)
    requires Good(w) && IsRun(w, es) && id < w.m.vent.next
    ensures id in Run(w, es).left ==> id in w.left && Run(w, es).left[id] == w.left[id] - Elapsed(es)
    decreases |es|
  {
    if es != [] {
      var v := Step(w, es[0]);
      StepGood(w, es[0]);
      if es[0].Device? {
        hide MainPort.Step;
        DeviceStep(w.m, es[0].e);
      }
      TimerRuns(v, es[1..], id);
    }
  }

  /**
    As long as the board does not restart every high run has exactly its own length: while its timer is
    pending the ventilation is high and no other timer is, the timer is pending until its time is over, and
    not longer.
  */
  lemma HighRunsLastTheirTime(low: bool, before: seq<Event>, zeit: int, junk: nat, es: seq<Event>)
    requires IsRun(Begin(low), before) && NoRestart(before) && Run(Begin(low), before).m.vent.air != High
    requires IsRun(Step(Run(Begin(low), before), Trigger(zeit, junk)), es) && NoRestart(es)
    ensures var w := Run(Begin(low), before);
      var own, u := w.m.vent.next, Run(Step(w, Trigger(zeit, junk)), es);
      && (own in u.left ==> u.left.Keys == {own} && u.m.vent.air == High && u.m.vent.thr == own && Elapsed(es) <= Seconds(zeit))
      && (Elapsed(es) < Seconds(zeit) ==> own in u.left)
  {
    hide MainPort.Step, Seconds;
    BeginGood(low);
    RunOneTimer(Begin(low), before);
    var w := Run(Begin(low), before);
    var v := Step(w, Trigger(zeit, junk));
    var own := w.m.vent.next;
    Triggered(w, zeit, junk);
    assert OneTimer(v);
    RunOneTimer(v, es);
    TimerRuns(v, es, own);
    if Elapsed(es) < Seconds(zeit) {
      OwnStays(v, es, own);
    }
  }

  /** The only timer cannot expire before its time. */
  lemma {:induction false} OwnStays(w: World, es: seq<Event>, id: nat)
    requires OneTimer(w) && w.m.vent.air == High && w.m.vent.thr == id && IsRun(w, es) && NoRestart(es)
    requires Elapsed(es) < w.left[id]
    ensures id in Run(w, es).left
    decreases |es|
  {
    if es != [] {
      assert !(es[0].Device? && es[0].e.RestartEvent?);
      StepOneTimer(w, es[0]);
      var v := Step(w, es[0]);
      if es[0].Device? {
        hide MainPort.Step;
        DeviceStep(w.m, es[0].e);
      }
      OwnStays(v, es[1..], id);
    }
  }

  // ---------------------------------------------------------------- after a restart

  /**
    A restart while the ventilation runs high ends the run but not its timer: the next high run has two
    timers pending, and it is cut short exactly if it was triggered for longer than any of the old ones
    still had to go.
  */
  lemma OldTimerEndsNewRun(low: bool, before: seq<Event>, lost: bv8, zeit: int, junk: nat)
    requires IsRun(Begin(low), before) && Run(Begin(low), before).m.vent.air == High
    ensures var w := Run(Begin(low), before);
      var v := Step(w, Restarted(lost));
      var u := Step(v, Trigger(zeit, junk));
      && v.m.vent.air != High && v.left == w.left
      && u.m.vent.air == High && w.m.vent.thr in u.left && w.m.vent.next in u.left && w.m.vent.thr != w.m.vent.next
      && u.left == w.left[w.m.vent.next := Seconds(zeit)]
      && (HighFor(u, Seconds(zeit)) <==> forall id :: id in w.left ==> w.left[id] >= Seconds(zeit))
  {
    hide MainPort.Step, Seconds, HighFor, Trigger;
    BeginGood(low);
    RunGood(Begin(low), before);
    var w := Run(Begin(low), before);
    DeviceStep(w.m, RestartEvent(lost));
    var v := Step(w, Restarted(lost));
    StepGood(w, Restarted(lost));
    assert v.left == w.left;
    RunLast(Begin(low), before, Restarted(lost));
    HighRunLastsExactly(low, before + [Restarted(lost)], zeit, junk);
    Triggered(v, zeit, junk);
  }

  lemma {:induction false} RunLast(w: World, es: seq<Event>, e: Event)
    requires IsRun(w, es) && Enabled(Run(w, es), e)
    ensures IsRun(w, es + [e]) && Run(w, es + [e]) == Step(Run(w, es), e)
    decreases |es|
  {
    if es == [] {
      assert [e][1..] == [];
    } else {
      assert (es + [e])[1..] == es[1..] + [e];
      RunLast(Step(w, es[0]), es[1..], e);
    }
  }
}
