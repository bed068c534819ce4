/** Lists put together piece by piece, as the printing loops put their output together. */
module Lists {
  /** The pieces of all elements, in order. */
  function Collect<T, U>(s: seq<T>, piece: T -> seq<U>): seq<U> {
    if s == [] then [] else Collect(s[..|s| - 1], piece) + piece(s[|s| - 1])
  }

  lemma CollectOne<T, U>(x: T, piece: T -> seq<U>)
    ensures Collect([x], piece) == piece(x)
  {
    assert Collect([x][..0], piece) + piece([x][0]) == piece(x);
  }

  lemma CollectJoin<T, U>(a: seq<T>, b: seq<T>, piece: T -> seq<U>)
    ensures Collect(a + b, piece) == Collect(a, piece) + Collect(b, piece)
  {
    if b == [] {
      assert a + b == a;
    } else {
      assert (a + b)[..|a + b| - 1] == a + b[..|b| - 1];
      CollectJoin(a, b[..|b| - 1], piece);
    }
  }

  lemma CollectNext<T, U>(s: seq<T>, i: nat, piece: T -> seq<U>)
    requires i < |s|
    ensures Collect(s[..i + 1], piece) == Collect(s[..i], piece) + piece(s[i])
  {
    assert s[..i + 1][..i] == s[..i];
  }

  lemma CollectSplit<T, U>(s: seq<T>, i: nat, piece: T -> seq<U>)
    requires i < |s|
    ensures Collect(s, piece) == Collect(s[..i], piece) + piece(s[i]) + Collect(s[i + 1..], piece)
  {
    assert s == s[..i + 1] + s[i + 1..];
    CollectJoin(s[..i + 1], s[i + 1..], piece);
    CollectNext(s, i, piece);
  }

  lemma {:induction false} CollectIn<T, U>(s: seq<T>, piece: T -> seq<U>, x: U)
    ensures x in Collect(s, piece) <==> exists i :: 0 <= i < |s| && x in piece(s[i])
  {
    if s != [] {
      var n := |s| - 1;
      var before := s[..n];
      CollectIn(before, piece, x);
      assert forall i :: 0 <= i < n ==> before[i] == s[i];
      if x in Collect(before, piece) {
        var i :| 0 <= i < |before| && x in piece(before[i]);
        assert x in piece(s[i]);
      }
    }
  }

  lemma CollectNone<T, U>(s: seq<T>, piece: T -> seq<U>)
    requires forall i :: 0 <= i < |s| ==> piece(s[i]) == []
    ensures Collect(s, piece) == []
  {
  }

  /** Pieces that agree on the elements of the list give the same result. */
  lemma CollectSame<T, U>(s: seq<T>, f: T -> seq<U>, g: T -> seq<U>)
    requires forall i :: 0 <= i < |s| ==> f(s[i]) == g(s[i])
    ensures Collect(s, f) == Collect(s, g)
  {
  }

  function Then<T, U, V>(f: T -> seq<U>, g: U -> seq<V>): T -> seq<V> {
    (x: T) => Collect(f(x), g)
  }

  lemma CollectTwice<T, U, V>(s: seq<T>, f: T -> seq<U>, g: U -> seq<V>)
    ensures Collect(Collect(s, f), g) == Collect(s, Then(f, g))
  {
    if s != [] {
      var before, last := s[..|s| - 1], s[|s| - 1];
      CollectTwice(before, f, g);
      CollectJoin(Collect(before, f), f(last), g);
    }
  }

  lemma {:induction false} CollectIdentity<T>(s: seq<T>, f: T -> seq<T>)
    requires forall i :: 0 <= i < |s| ==> f(s[i]) == [s[i]]
    ensures Collect(s, f) == s
  {
    if s != [] {
      CollectIdentity(s[..|s| - 1], f);
    }
  }

  /** When only one element has a piece, that piece is the result. */
  lemma {:induction false} CollectSingle<T, U>(s: seq<T>, i: nat, f: T -> seq<U>)
    requires i < |s| && forall j :: 0 <= j < |s| && j != i ==> f(s[j]) == []
    ensures Collect(s, f) == f(s[i])
  {
    hide Collect;
    CollectSplit(s, i, f);
    CollectNone(s[..i], f);
    CollectNone(s[i + 1..], f);
    assert [] + f(s[i]) + [] == f(s[i]);
  }

  /** Among finitely many timers, each with the time it has left, one is due first. */
  lemma {:induction false} DueFirst(left: map<nat, int>) returns (id: nat)
    requires left != map[]
    ensures id in left && forall k :: k in left ==> left[id] <= left[k]
    decreases |left|
  {
    id :| id in left;
    var rest := left - {id};
    assert forall i :: i in left ==> i == id || (i in rest && rest[i] == left[i]);
    if rest == map[] {
      assert forall i :: i in left ==> i == id;
    } else {
      var k := DueFirst(rest);
      if rest[k] < left[id] {
        id := k;
      }
    }
  }
}
