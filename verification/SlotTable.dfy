/**
  The value of a dictionary: its slots in order, holes included.  The class in Dictionary.dfy
  implements these functions in place; the lemmas here say that they are a map.
*/
module SlotTable {
  import opened Wrappers

  /** The smallest table, and the one that dictionary_new(0) allocates. */
  const DICTMINSZ: nat := 128

  /** An entry; a section is an entry whose value is NULL. */
  datatype Entry = Entry(key: string, val: Option<string>)

  type Slots = seq<Option<Entry>>

  predicate Holds(s: Slots, i: nat, k: string) {
    i < |s| && s[i].Some? && s[i].value.key == k
  }

  ghost predicate Distinct(s: Slots) {
    forall i: nat, j: nat, k :: Holds(s, i, k) && Holds(s, j, k) ==> i == j
  }

  /** The first slot that holds `k`, or |s|. */
  function Find(s: Slots, k: string): (i: nat)
    ensures i <= |s|
    ensures i < |s| ==> Holds(s, i, k)
    ensures forall j: nat :: j < i ==> !Holds(s, j, k)
  {
    if s == [] || Holds(s, 0, k) then 0
    else
      var n := Find(s[1..], k);
      assert forall j: nat :: 1 <= j < |s| ==> Holds(s, j, k) == Holds(s[1..], j - 1, k);
      1 + n
  }

  /** The first empty slot, or |s|. */
  function FirstFree(s: Slots): (i: nat)
    ensures i <= |s|
    ensures i < |s| ==> s[i].None?
    ensures forall j :: 0 <= j < i ==> s[j].Some?
  {
    if s == [] || s[0].None? then 0 else 1 + FirstFree(s[1..])
  }

  function Count(s: Slots): (n: nat)
    ensures n <= |s|
    ensures n == |s| <==> FirstFree(s) == |s|
  {
    if s == [] then 0 else (if s[0].Some? then 1 else 0) + Count(s[1..])
  }

  function Empty(n: nat): (s: Slots)
    ensures |s| == n && forall i :: 0 <= i < n ==> s[i] == None
  {
    seq(n, _ => None)
  }

  /** A full table doubles before it takes a new key. */
  function Grown(s: Slots): (g: Slots)
    ensures s <= g && |g| >= |s|
    ensures forall i :: |s| <= i < |g| ==> g[i].None?
    ensures |s| > 0 ==> FirstFree(g) < |g|
  {
    var g := if FirstFree(s) == |s| then s + Empty(|s|) else s;
    assert |s| > 0 && FirstFree(s) == |s| ==> g[|s|].None?;
    g
  }

  function Put(s: Slots, k: string, v: Option<string>): (t: Slots)
    requires |s| > 0
    ensures |t| >= |s|
  {
    var i := Find(s, k);
    if i < |s| then s[i := Some(Entry(k, v))]
    else Grown(s)[FirstFree(Grown(s)) := Some(Entry(k, v))]
  }

  function Drop(s: Slots, k: string): (t: Slots)
    ensures |t| == |s|
  {
    var i := Find(s, k);
    if i < |s| then s[i := None] else s
  }

  ghost function Keys(s: Slots): (ks: set<string>)
    ensures forall k :: k in ks <==> Find(s, k) < |s|
  {
    if s == [] then {} else (if s[0].Some? then {s[0].value.key} else {}) + Keys(s[1..])
  }

  /** What the table means: every key with the value a search would return. */
  ghost function ToMap(s: Slots): map<string, Option<string>> {
    map k | k in Keys(s) :: s[Find(s, k)].value.val
  }

  lemma GrownDistinct(s: Slots, n: nat)
    requires Distinct(s)
    ensures Distinct(s + Empty(n))
  {
    var g := s + Empty(n);
    forall i: nat, j: nat, k | Holds(g, i, k) && Holds(g, j, k)
      ensures i == j
    {
      assert Holds(s, i, k) && Holds(s, j, k);
    }
  }

  lemma FindIs(s: Slots, i: nat, k: string)
    requires Distinct(s) && Holds(s, i, k)
    ensures Find(s, k) == i
  {
  }

  /** Where `Put` writes. */
  function Target(s: Slots, k: string): (at: nat)
    requires |s| > 0
    ensures at < |Put(s, k, None)|
  {
    if Find(s, k) < |s| then Find(s, k) else FirstFree(Grown(s))
  }

  lemma PutHolds(s: Slots, k: string, v: Option<string>, i: nat, q: string)
    requires Distinct(s) && |s| > 0
    ensures Holds(Put(s, k, v), i, q) <==> if q == k then i == Target(s, k) else Holds(s, i, q)
  {
    if i < |s| {
      assert Grown(s)[i] == s[i];
    }
    if Holds(s, i, k) {
      FindIs(s, i, k);
    }
  }

  lemma PutDistinct(s: Slots, k: string, v: Option<string>)
    requires Distinct(s) && |s| > 0
    ensures Distinct(Put(s, k, v))
  {
    var t := Put(s, k, v);
    forall i: nat, j: nat, q | Holds(t, i, q) && Holds(t, j, q)
      ensures i == j
    {
      PutHolds(s, k, v, i, q);
      PutHolds(s, k, v, j, q);
    }
  }

  /** Setting a key is map update, whether the key is known, goes into a hole, or makes the table grow. */
  lemma PutIsUpdate(s: Slots, k: string, v: Option<string>)
    requires Distinct(s) && |s| > 0
    ensures Distinct(Put(s, k, v))
    ensures ToMap(Put(s, k, v)) == ToMap(s)[k := v]
  {
    var t := Put(s, k, v);
    PutDistinct(s, k, v);
    forall q
      ensures q in ToMap(t) <==> q in ToMap(s)[k := v]
      ensures q in ToMap(t) ==> ToMap(t)[q] == ToMap(s)[k := v][q]
    {
      PutLookup(s, k, v, q);
    }
  }

  lemma PutLookup(s: Slots, k: string, v: Option<string>, q: string)
    requires Distinct(s) && |s| > 0 && Distinct(Put(s, k, v))
    ensures q in ToMap(Put(s, k, v)) <==> q in ToMap(s)[k := v]
    ensures q in ToMap(Put(s, k, v)) ==> ToMap(Put(s, k, v))[q] == ToMap(s)[k := v][q]
  {
    var t := Put(s, k, v);
    if q == k {
      PutHolds(s, k, v, Target(s, k), k);
      FindIs(t, Target(s, k), k);
    } else if Find(s, q) < |s| {
      PutHolds(s, k, v, Find(s, q), q);
      FindIs(t, Find(s, q), q);
    } else if Find(t, q) < |t| {
      PutHolds(s, k, v, Find(t, q), q);
      assert false;
    }
  }

  lemma DropHolds(s: Slots, k: string, i: nat, q: string)
    requires Distinct(s)
    ensures Holds(Drop(s, k), i, q) <==> q != k && Holds(s, i, q)
  {
    if Holds(s, i, k) {
      FindIs(s, i, k);
    }
  }

  lemma DropDistinct(s: Slots, k: string)
    requires Distinct(s)
    ensures Distinct(Drop(s, k))
  {
    var t := Drop(s, k);
    forall i: nat, j: nat, q | Holds(t, i, q) && Holds(t, j, q)
      ensures i == j
    {
      DropHolds(s, k, i, q);
      DropHolds(s, k, j, q);
    }
  }

  lemma DropIsRemoval(s: Slots, k: string)
    requires Distinct(s)
    ensures Distinct(Drop(s, k))
    ensures ToMap(Drop(s, k)) == ToMap(s) - {k}
  {
    var t := Drop(s, k);
    DropDistinct(s, k);
    forall q
      ensures q in ToMap(t) <==> q in ToMap(s) - {k}
      ensures q in ToMap(t) ==> ToMap(t)[q] == (ToMap(s) - {k})[q]
    {
      DropLookup(s, k, q);
    }
  }

  lemma DropLookup(s: Slots, k: string, q: string)
    requires Distinct(s) && Distinct(Drop(s, k))
    ensures q in ToMap(Drop(s, k)) <==> q in ToMap(s) - {k}
    ensures q in ToMap(Drop(s, k)) ==> ToMap(Drop(s, k))[q] == (ToMap(s) - {k})[q]
  {
    var t := Drop(s, k);
    if Find(t, q) < |t| {
      DropHolds(s, k, Find(t, q), q);
      FindIs(s, Find(t, q), q);
    } else if Find(s, q) < |s| {
      DropHolds(s, k, Find(s, q), q);
    }
  }

  lemma CountPut(s: Slots, i: nat, e: Option<Entry>)
    requires i < |s|
    ensures Count(s[i := e]) == Count(s) + (if e.Some? then 1 else 0) - (if s[i].Some? then 1 else 0)
  {
    if i > 0 {
      CountPut(s[1..], i - 1, e);
      assert s[i := e][1..] == s[1..][i - 1 := e];
    } else {
      assert s[i := e][1..] == s[1..];
    }
  }

  lemma CountEmpty(s: Slots)
    requires forall i :: 0 <= i < |s| ==> s[i].None?
    ensures Count(s) == 0
  {
  }

  ghost function Full(s: Slots): (i: nat)
    requires Count(s) > 0
    ensures i < |s| && s[i].Some?
  {
    if s[0].Some? then 0 else 1 + Full(s[1..])
  }

  lemma CountGrown(s: Slots, n: nat)
    ensures Count(s + Empty(n)) == Count(s)
  {
    if s == [] {
      CountEmpty(s + Empty(n));
    } else {
      assert (s + Empty(n))[1..] == s[1..] + Empty(n);
      CountGrown(s[1..], n);
    }
  }

  lemma NoneFull(s: Slots)
    requires Count(s) == 0
    ensures ToMap(s) == map[]
  {
    forall k
      ensures Find(s, k) == |s|
    {
      NotFound(s, k);
    }
    assert Keys(s) == {};
  }

  lemma NotFound(s: Slots, k: string)
    requires Count(s) == 0
    ensures Find(s, k) == |s|
  {
    if s != [] {
      NotFound(s[1..], k);
    }
  }

  /** `n` counts the entries of the map. */
  lemma {:induction false} CountIsSize(s: Slots)
    requires Distinct(s)
    ensures Count(s) == |ToMap(s)|
    decreases Count(s)
  {
    if Count(s) == 0 {
      NoneFull(s);
    } else {
      var i := Full(s);
      var k := s[i].value.key;
      assert Holds(s, i, k);
      FindIs(s, i, k);
      CountPut(s, i, None);
      DropIsRemoval(s, k);
      CountIsSize(Drop(s, k));
      MapSizeMinus(ToMap(s), k);
    }
  }

  lemma MapSizeMinus(m: map<string, Option<string>>, k: string)
    requires k in m
    ensures |m - {k}| == |m| - 1
  {
    assert (m - {k}).Keys == m.Keys - {k};
    assert |m.Keys - {k}| == |m.Keys| - 1;
  }

  /** One call that changes the table. */
  datatype Update = SetKey(key: string, val: Option<string>) | UnsetKey(key: string)

  function Apply(s: Slots, us: seq<Update>): (t: Slots)
    requires |s| > 0
    ensures |t| >= |s|
    decreases |us|
  {
    if us == [] then s
    else match us[0]
      case SetKey(k, v) => Apply(Put(s, k, v), us[1..])
      case UnsetKey(k) => Apply(Drop(s, k), us[1..])
  }

  function ApplyMap(m: map<string, Option<string>>, us: seq<Update>): map<string, Option<string>>
    decreases |us|
  {
    if us == [] then m
    else match us[0]
      case SetKey(k, v) => ApplyMap(m[k := v], us[1..])
      case UnsetKey(k) => ApplyMap(m - {k}, us[1..])
  }

  /**
    Over every sequence of sets and unsets the table is the map: keys stay distinct, growing
    loses nothing, holes are reused without trace, and `n` is the size of the map.
  */
  lemma {:induction false} TableRefinesMap(s: Slots, us: seq<Update>)
    requires |s| > 0 && Distinct(s)
    ensures Distinct(Apply(s, us))
    ensures ToMap(Apply(s, us)) == ApplyMap(ToMap(s), us)
    ensures Count(Apply(s, us)) == |ApplyMap(ToMap(s), us)|
    decreases |us|
  {
    if us != [] {
      match us[0]
      case SetKey(k, v) =>
        PutIsUpdate(s, k, v);
        TableRefinesMap(Put(s, k, v), us[1..]);
      case UnsetKey(k) =>
        DropIsRemoval(s, k);
        TableRefinesMap(Drop(s, k), us[1..]);
    }
    CountIsSize(Apply(s, us));
  }
}
