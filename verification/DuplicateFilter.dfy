/**
  The duplicate filter of e6udpserver.cpp: every E6 device numbers its packets and sends each one several
  times; per device a ring of five counts keeps the copies out.
*/
module DuplicateFilter {
  datatype Client = Client(ip: int, buf: seq<int>, pointer: nat, rebootEnabled: bool)

  const RING: nat := 5
  const CLIENTS: nat := 3

  function Cleared(c: Client): Client {
    c.(pointer := 0, buf := [-1, -1, -1, -1, -1])
  }

  /** resetPacketCounter(): all clients, not only the one that restarted. */
  function Reset(cs: seq<Client>): (ds: seq<Client>)
    ensures |ds| == |cs| && forall i :: 0 <= i < |cs| ==> ds[i] == Cleared(cs[i])
  {
    seq(|cs|, i requires 0 <= i < |cs| => Cleared(cs[i]))
  }

  /** The first client with the address, or |cs|. */
  function Known(cs: seq<Client>, ip: int): (i: nat)
    ensures i <= |cs|
    ensures i < |cs| ==> cs[i].ip == ip
    ensures forall k :: 0 <= k < i ==> cs[k].ip != ip
  {
    if cs == [] || cs[0].ip == ip then 0 else 1 + Known(cs[1..], ip)
  }

  predicate Shaped(cs: seq<Client>) {
    |cs| == CLIENTS && forall i :: 0 <= i < CLIENTS ==> |cs[i].buf| == RING && cs[i].pointer < RING
  }

  function Noted(c: Client, count: int): Client
    requires c.pointer < |c.buf|
  {
    c.(buf := c.buf[c.pointer := count], pointer := if c.pointer + 1 > 4 then 0 else c.pointer + 1)
  }

  /** One packet: the new state, and whether it is passed on.  `up` says that it contains "E6 UP". */
  function Receive(cs: seq<Client>, ip: int, count: int, up: bool): (r: (seq<Client>, bool))
    requires Shaped(cs)
    ensures Shaped(r.0)
  {
    var i := Known(cs, ip);
    if i == |cs| then (cs, false)
    else if cs[i].rebootEnabled && up then
      var ds := Reset(cs);
      (ds[i := Noted(ds[i], count).(rebootEnabled := false)], true)
    else if count in cs[i].buf then (cs, false)
    else (cs[i := Noted(cs[i], count)], true)
  }

  function Enable(cs: seq<Client>, i: nat): (ds: seq<Client>)
    requires Shaped(cs)
    ensures Shaped(ds)
  {
    if i < |cs| then cs[i := cs[i].(rebootEnabled := true)] else cs
  }

  class E6UdpServer {
    const client: array<Client>

    ghost predicate Valid()
      reads this, client
    {
      Shaped(client[..])
    }

    constructor (ips: seq<int>)
      requires |ips| == CLIENTS
      ensures fresh(client) && Valid()
      ensures client[..] == Started(ips)
    {
      client := new Client[CLIENTS](i requires 0 <= i < CLIENTS && |ips| == CLIENTS => Client(ips[i], [0, 0, 0, 0, 0], 0, false));
      new;
      var i := 0;
      while i < CLIENTS
        invariant i <= CLIENTS
        invariant forall k :: 0 <= k < CLIENTS ==> client[k] == Client(ips[k], [0, 0, 0, 0, 0], 0, k < i)
      {
        client[i] := client[i].(rebootEnabled := true);
        i := i + 1;
      }
      ResetPacketCounter();
    }

    method ResetPacketCounter()
      requires client.Length == CLIENTS
      requires forall k :: 0 <= k < CLIENTS ==> |client[k].buf| == RING
      modifies client
      ensures client[..] == Reset(old(client[..]))
    {
      var i := 0;
      while i < CLIENTS
        invariant i <= CLIENTS
        invariant forall k :: 0 <= k < CLIENTS ==> client[k] == if k < i then Cleared(old(client[k])) else old(client[k])
      {
        client[i] := client[i].(pointer := 0);
        var j := 0;
        while j < RING
          invariant j <= RING
          invariant client[i] == old(client[i]).(pointer := 0, buf := client[i].buf) && |client[i].buf| == RING
          invariant forall k :: 0 <= k < j ==> client[i].buf[k] == -1
          invariant forall k :: 0 <= k < CLIENTS && k != i ==> client[k] == if k < i then Cleared(old(client[k])) else old(client[k])
        {
          client[i] := client[i].(buf := client[i].buf[j := -1]);
          j := j + 1;
        }
        assert client[i].buf == [-1, -1, -1, -1, -1];
        i := i + 1;
      }
    }

    method EnableReboot(ip: int)
      requires Valid()
      modifies client
      ensures Valid() && client[..] == Enable(old(client[..]), Known(old(client[..]), ip))
    {
      ghost var cs := client[..];
      var i := 0;
      while i < CLIENTS
        invariant i <= Known(cs, ip) && client[..] == cs
      {
        if client[i].ip == ip {
          client[i] := client[i].(rebootEnabled := true);
          return;
        }
        i := i + 1;
      }
    }

    /** rebootTimer after its minute. */
    method RebootTimer(i: nat)
      requires Valid() && i < CLIENTS
      modifies client
      ensures Valid() && client[..] == Enable(old(client[..]), i)
    {
      client[i] := client[i].(rebootEnabled := true);
    }

    /** The search loop over the ring. */
    method IsCopy(i: nat, count: int) returns (copy: bool)
      requires Valid() && i < CLIENTS
      ensures copy == (count in client[i].buf)
    {
      var j := 0;
      while j < RING
        invariant j <= RING
        invariant count !in client[i].buf[..j]
      {
        if count == client[i].buf[j] {
          return true;
        }
        j := j + 1;
      }
      assert client[i].buf[..j] == client[i].buf;
      return false;
    }

    /** recvIfFdIsset once a packet is there. */
    method Recv(ip: int, count: int, up: bool) returns (accepted: bool)
      requires Valid()
      modifies client
      ensures Valid() && (client[..], accepted) == Receive(old(client[..]), ip, count, up)
    {
      ghost var cs := client[..];
      var i := 0;
      while i < CLIENTS
        invariant i <= Known(cs, ip) && client[..] == cs
      {
        if ip == client[i].ip {
          if client[i].rebootEnabled && up {
            client[i] := client[i].(rebootEnabled := false);
            ResetPacketCounter();
            client[i] := client[i].(buf := client[i].buf[client[i].pointer := count]);
            client[i] := client[i].(pointer := client[i].pointer + 1);
            ghost var ds := Reset(cs);
            assert client[..] == ds[i := Noted(ds[i], count).(rebootEnabled := false)];
            return true;
          }
          var copy := IsCopy(i, count);
          if copy {
            return false;
          }
          client[i] := client[i].(buf := client[i].buf[client[i].pointer := count]);
          client[i] := client[i].(pointer := client[i].pointer + 1);
          if client[i].pointer > 4 {
            client[i] := client[i].(pointer := 0);
          }
          assert client[..] == cs[i := Noted(cs[i], count)];
          return true;
        }
        i := i + 1;
      }
      return false;
    }
  }

  function Started(ips: seq<int>): (cs: seq<Client>)
    requires |ips| == CLIENTS
    ensures Shaped(cs)
  {
    seq(CLIENTS, i requires 0 <= i < CLIENTS && |ips| == CLIENTS => Client(ips[i], [-1, -1, -1, -1, -1], 0, true))
  }

  // ---------------------------------------------------------------- the history

  datatype Event = Packet(ip: int, count: int, up: bool) | Timer(i: nat) | EnableEvent(ip: int)

  /** The clients together with the counts each one had accepted since the last reset. */
  datatype Book = Book(cs: seq<Client>, hist: seq<seq<int>>)

  function Step(b: Book, e: Event): (c: Book)
    requires Shaped(b.cs) && |b.hist| == CLIENTS
    ensures Shaped(c.cs) && |c.hist| == CLIENTS
  {
    match e
    case Packet(ip, count, up) =>
      var r := Receive(b.cs, ip, count, up);
      var i := Known(b.cs, ip);
      var hist :=
        if !r.1 then b.hist
        else if b.cs[i].rebootEnabled && up then [[], [], []][i := [count]]
        else b.hist[i := b.hist[i] + [count]];
      Book(r.0, hist)
    case Timer(i) => b.(cs := Enable(b.cs, i))
    case EnableEvent(ip) => b.(cs := Enable(b.cs, Known(b.cs, ip)))
  }

  function Run(b: Book, es: seq<Event>): (c: Book)
    requires Shaped(b.cs) && |b.hist| == CLIENTS
    ensures Shaped(c.cs) && |c.hist| == CLIENTS
    decreases |es|
  {
    if es == [] then b else Run(Step(b, es[0]), es[1..])
  }

  function Begin(ips: seq<int>): (b: Book)
    requires |ips| == CLIENTS
    ensures Shaped(b.cs) && |b.hist| == CLIENTS
  {
    Book(Started(ips), [[], [], []])
  }

  /** Is the count among the last five of the history? */
  predicate Recent(h: seq<int>, count: int) {
    exists k :: 0 <= k < |h| && |h| - RING <= k && h[k] == count
  }

  /** The ring holds the end of the history; slots that were never used hold -1. */
  predicate Ring(c: Client, h: seq<int>) {
    && |c.buf| == RING && c.pointer == |h| % RING
    && (forall k :: 0 <= k < |h| && |h| - RING <= k ==> c.buf[k % RING] == h[k])
    && (forall i :: |h| <= i < RING ==> c.buf[i] == -1)
  }

  /** Six accepted counts in a row are pairwise distinct. */
  predicate Spread(h: seq<int>) {
    forall a, b :: 0 <= a < b < |h| && b - a <= RING ==> h[a] != h[b]
  }

  ghost predicate Inv(b: Book) {
    && Shaped(b.cs) && |b.hist| == CLIENTS
    && forall i :: 0 <= i < CLIENTS ==> Ring(b.cs[i], b.hist[i]) && Spread(b.hist[i])
  }

  /** What is in the ring: the recent counts, and -1 until it is full. */
  lemma RingHolds(c: Client, h: seq<int>, count: int)
    requires Ring(c, h)
    ensures count in c.buf <==> Recent(h, count) || (count == -1 && |h| < RING)
  {
    if count in c.buf {
      var i :| 0 <= i < RING && c.buf[i] == count;
      if |h| > i {
        var k := Latest(|h|, i);
        assert c.buf[k % RING] == h[k];
      }
    }
    if count == -1 && |h| < RING {
      assert c.buf[|h|] == -1;
    }
    if Recent(h, count) {
      var k :| 0 <= k < |h| && |h| - RING <= k && h[k] == count;
      assert c.buf[k % RING] == count;
    }
  }

  /** The latest position below `n` that falls into ring slot `i`. */
  function Latest(n: nat, i: nat): (k: nat)
    requires i < RING && i < n
    ensures k < n && n - RING <= k && k % RING == i
  {
    if n - RING <= i then i
    else
      var k := Latest(n - RING, i);
      k + RING
  }

  lemma NoteKeepsRing(c: Client, h: seq<int>, count: int)
    requires Ring(c, h) && Spread(h) && !Recent(h, count)
    ensures Ring(Noted(c, count), h + [count]) && Spread(h + [count])
  {
    var n := |h|;
    var g := h + [count];
    var d := Noted(c, count);
    forall k | 0 <= k < |g| && |g| - RING <= k
      ensures d.buf[k % RING] == g[k]
    {
      if k < n {
        assert k % RING != n % RING;
        assert c.buf[k % RING] == h[k];
      }
    }
    forall a, b | 0 <= a < b < |g| && b - a <= RING
      ensures g[a] != g[b]
    {
      if b == n {
        assert h[a] == g[a];
      }
    }
  }

  lemma StepKeeps(b: Book, e: Event)
    requires Inv(b)
    ensures Inv(Step(b, e))
  {
    var c := Step(b, e);
    if e.Packet? && Known(b.cs, e.ip) < CLIENTS {
      var i := Known(b.cs, e.ip);
      if b.cs[i].rebootEnabled && e.up {
        RestartKeeps(b, i, e.count);
      } else {
        RingHolds(b.cs[i], b.hist[i], e.count);
        if e.count !in b.cs[i].buf {
          NoteKeepsRing(b.cs[i], b.hist[i], e.count);
        }
      }
    }
  }

  lemma RestartKeeps(b: Book, i: nat, count: int)
    requires Inv(b) && i < CLIENTS
    ensures var ds := Reset(b.cs);
      Inv(Book(ds[i := Noted(ds[i], count).(rebootEnabled := false)], [[], [], []][i := [count]]))
  {
    NoteKeepsRing(Reset(b.cs)[i], [], count);
    assert [] + [count] == [count];
  }

  lemma {:induction false} RunKeeps(b: Book, es: seq<Event>)
    requires Inv(b)
    ensures Inv(Run(b, es))
    decreases |es|
  {
    if es != [] {
      StepKeeps(b, es[0]);
      RunKeeps(Step(b, es[0]), es[1..]);
    }
  }

  /**
    Over every run, outside the restart branch, a packet of a known client is passed on exactly when its
    count is not among the client's last five accepted counts since the last reset.  The count -1 is
    special: until five counts have been accepted it is always taken for a copy.
  */
  lemma FilterEqualsHistory(ips: seq<int>, es: seq<Event>, ip: int, count: int, up: bool)
    requires |ips| == CLIENTS
    ensures var b := Run(Begin(ips), es);
      var i := Known(b.cs, ip);
      i < CLIENTS && !(b.cs[i].rebootEnabled && up) ==>
        (Receive(b.cs, ip, count, up).1 <==> !Recent(b.hist[i], count) && (count != -1 || |b.hist[i]| >= RING))
  {
    var b := Run(Begin(ips), es);
    RunKeeps(Begin(ips), es);
    var i := Known(b.cs, ip);
    if i < CLIENTS {
      RingHolds(b.cs[i], b.hist[i], count);
    }
  }

  /** Any six consecutive accepted counts between resets are pairwise distinct, and the pointer stays in the ring. */
  lemma AcceptedCountsSpread(ips: seq<int>, es: seq<Event>, i: nat, a: nat, b: nat)
    requires |ips| == CLIENTS && i < CLIENTS
    requires a < b < |Run(Begin(ips), es).hist[i]| && b - a <= RING
    ensures Run(Begin(ips), es).hist[i][a] != Run(Begin(ips), es).hist[i][b]
    ensures Run(Begin(ips), es).cs[i].pointer < RING
  {
    RunKeeps(Begin(ips), es);
    assert Spread(Run(Begin(ips), es).hist[i]);
  }

  /**
    The restart of one device clears the rings of all: after any run in which a client takes the restart
    branch, the next packet of every other known client, outside its own restart branch, is passed on
    whatever was accepted before, unless its count is -1.
  */
  lemma RestartReadmitsAll(ips: seq<int>, es: seq<Event>, restarted: int, first: int, ip: int, count: int, up: bool)
    requires |ips| == CLIENTS
    ensures var b := Run(Begin(ips), es);
      var i, k := Known(b.cs, restarted), Known(b.cs, ip);
      i < CLIENTS && k < CLIENTS && i != k && b.cs[i].rebootEnabled ==>
        var c := Step(b, Packet(restarted, first, true));
        && Known(c.cs, ip) == k && c.hist[k] == [] && c.cs[k].rebootEnabled == b.cs[k].rebootEnabled
        && (!(c.cs[k].rebootEnabled && up) ==> (Receive(c.cs, ip, count, up).1 <==> count != -1))
  {
    hide Noted;
    var b := Run(Begin(ips), es);
    var i, k := Known(b.cs, restarted), Known(b.cs, ip);
    if i < CLIENTS && k < CLIENTS && i != k && b.cs[i].rebootEnabled {
      var c := Step(b, Packet(restarted, first, true));
      SameAddresses(b, restarted, first, i);
      KnownIs(c.cs, ip, k);
      assert c.cs[k] == Cleared(b.cs[k]);
    }
  }

  lemma SameAddresses(b: Book, restarted: int, first: int, i: nat)
    requires Shaped(b.cs) && |b.hist| == CLIENTS && Known(b.cs, restarted) == i < CLIENTS && b.cs[i].rebootEnabled
    ensures var c := Step(b, Packet(restarted, first, true));
      && (forall k :: 0 <= k < CLIENTS ==> c.cs[k].ip == b.cs[k].ip)
      && (forall k :: 0 <= k < CLIENTS && k != i ==> c.cs[k] == Cleared(b.cs[k]) && c.hist[k] == [])
  {
  }

  /** For example a copy that was just turned away. */
  lemma RestartReadmitsCopies(ips: seq<int>, count: int)
    requires |ips| == CLIENTS && ips[0] != ips[1] && count != -1
    ensures var b1 := Step(Begin(ips), Packet(ips[1], count, false));
      var b2 := Step(b1, Packet(ips[0], 0, true));
      && Receive(b1.cs, ips[1], count, false).1 == false
      && Receive(b2.cs, ips[1], count, false).1 == true
  {
    var b := Begin(ips);
    assert b.cs[0].ip == ips[0] && b.cs[1].ip == ips[1];
    KnownIs(b.cs, ips[1], 1);
    var e := Packet(ips[1], count, false);
    var b1 := Step(b, e);
    assert b1.cs[1].buf[0] == count;
    KnownIs(b1.cs, ips[0], 0);
    KnownIs(b1.cs, ips[1], 1);
    assert [e][1..] == [] && Run(b, [e]) == Run(b1, []);
    RestartReadmitsAll(ips, [e], ips[0], 0, ips[1], count, false);
  }

  lemma KnownIs(cs: seq<Client>, ip: int, i: nat)
    requires i < |cs| && cs[i].ip == ip && forall k :: 0 <= k < i ==> cs[k].ip != ip
    ensures Known(cs, ip) == i
  {
  }

  // ---------------------------------------------------------------- one restart at a time

  predicate Enables(b: Book, e: Event, i: nat)
    requires Shaped(b.cs)
  {
    match e
    case Packet(_, _, _) => false
    case Timer(k) => k == i
    case EnableEvent(ip) => Known(b.cs, ip) == i
  }

  /** No event enables the restart branch of client `i`. */
  predicate NoneEnables(b: Book, es: seq<Event>, i: nat)
    requires Shaped(b.cs) && |b.hist| == CLIENTS
    decreases |es|
  {
    es == [] || (!Enables(b, es[0], i) && NoneEnables(Step(b, es[0]), es[1..], i))
  }

  /** The restart branch is taken by a packet that says "E6 UP", from a client for which it is enabled. */
  predicate Restarts(b: Book, e: Event, i: nat)
    requires Shaped(b.cs)
  {
    e.Packet? && e.up && Known(b.cs, e.ip) == i < CLIENTS && b.cs[i].rebootEnabled
  }

  /** Addresses never change, and only the flag of the client that is meant is set. */
  lemma StepFlags(b: Book, e: Event, i: nat)
    requires Shaped(b.cs) && |b.hist| == CLIENTS && i < CLIENTS
    ensures Step(b, e).cs[i].ip == b.cs[i].ip
    ensures Step(b, e).cs[i].rebootEnabled == (Enables(b, e, i) || (b.cs[i].rebootEnabled && !Restarts(b, e, i)))
  {
  }

  lemma {:induction false} StaysDisarmed(b: Book, es: seq<Event>, i: nat)
    requires Shaped(b.cs) && |b.hist| == CLIENTS && i < CLIENTS && !b.cs[i].rebootEnabled && NoneEnables(b, es, i)
    ensures !Run(b, es).cs[i].rebootEnabled
    decreases |es|
  {
    if es != [] {
      StepFlags(b, es[0], i);
      StaysDisarmed(Step(b, es[0]), es[1..], i);
    }
  }

  /**
    After any run: a client that has taken the restart branch does not take it again until its timer has run
    out or it is enabled; and a copy of its restart packet that follows directly is turned away.
  */
  lemma OneRestartAtATime(ips: seq<int>, before: seq<Event>, e: Event, i: nat, es: seq<Event>, next: Event)
    requires |ips| == CLIENTS && Restarts(Run(Begin(ips), before), e, i)
    requires NoneEnables(Step(Run(Begin(ips), before), e), es, i)
    ensures var c := Step(Run(Begin(ips), before), e);
      && !Restarts(Run(c, es), next, i)
      && !Receive(c.cs, e.ip, e.count, e.up).1 && Receive(c.cs, e.ip, e.count, e.up).0 == c.cs
  {
    var b := Run(Begin(ips), before);
    var c := Step(b, e);
    StepFlags(b, e, i);
    StaysDisarmed(c, es, i);
    SameAddresses(b, e.ip, e.count, i);
    KnownIs(c.cs, e.ip, i);
    assert c.cs[i] == Noted(Cleared(b.cs[i]), e.count).(rebootEnabled := false);
    assert c.cs[i].buf[0] == e.count;
  }

  /** A restart packet is passed on, whatever its count, and is the only one the client is known to have sent. */
  lemma RestartIsAccepted(ips: seq<int>, before: seq<Event>, e: Event, i: nat)
    requires |ips| == CLIENTS && Restarts(Run(Begin(ips), before), e, i)
    ensures var b := Run(Begin(ips), before);
      Receive(b.cs, e.ip, e.count, e.up).1 && Step(b, e).hist[i] == [e.count]
  {
  }

  /** The timer and enableReboot change the flag of one client and nothing else; unknown addresses change nothing. */
  lemma EnableChangesOneFlag(b: Book, i: nat, k: nat, ip: int)
    requires Shaped(b.cs) && |b.hist| == CLIENTS && k < CLIENTS
    ensures Step(b, Timer(i)).cs[k] == if i == k then b.cs[k].(rebootEnabled := true) else b.cs[k]
    ensures Step(b, EnableEvent(ip)).cs[k] == if Known(b.cs, ip) == k then b.cs[k].(rebootEnabled := true) else b.cs[k]
    ensures Step(b, Timer(i)).hist == b.hist && Step(b, EnableEvent(ip)).hist == b.hist
  {
  }

  /** Packets of unknown senders, and copies, are turned away without a trace. */
  lemma TurnedAwayWithoutTrace(cs: seq<Client>, ip: int, count: int, up: bool)
    requires Shaped(cs)
    ensures (forall k :: 0 <= k < CLIENTS ==> cs[k].ip != ip) ==> !Receive(cs, ip, count, up).1
    ensures !Receive(cs, ip, count, up).1 ==> Receive(cs, ip, count, up).0 == cs
  {
  }
}
