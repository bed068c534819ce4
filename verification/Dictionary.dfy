/**
  The slot table of dictionary.cpp, in place: parallel arrays for keys, values and stored
  hashes, with NULL keys as holes, that double when every slot is taken.
*/
module Dictionary {
  import opened Wrappers
  import opened SlotTable

  /** A `char` as the signed byte it is, widened to unsigned. */
  function Widen(c: char): bv32 {
    var b := c as int % 256;
    if b < 128 then b as bv32 else 0xFFFF_FF00 + b as bv32
  }

  /** One character of the hash loop. */
  function Stir(h: bv32, c: char): bv32 {
    var a := h + Widen(c);
    var b := a + (a << 10);
    b ^ (b >> 6)
  }

  function Finish(h: bv32): bv32 {
    var a := h + (h << 3);
    var b := a ^ (a >> 11);
    b + (b << 15)
  }

  function StirAll(key: string): bv32 {
    if key == "" then 0 else Stir(StirAll(key[..|key| - 1]), key[|key| - 1])
  }

  function Hash(key: string): bv32 {
    Finish(StirAll(key))
  }

  /** The published value of this hash for one letter. */
  lemma HashOfA()
    ensures Hash("a") == 0xCA2E_9442
  {
    assert "a"[..0] == "";
    assert Widen('a') == 97;
    assert StirAll("a") == Stir(0, 'a');
  }

  lemma StirA()
    ensures StirAll("a") == 0x0001_8270
  {
    assert "a"[..0] == "";
    assert Widen('a') == 97;
    assert StirAll("a") == Stir(0, 'a');
  }

  lemma StirB()
    ensures Stir(0x0001_8270, 'b') == 0x0614_F9F9
  {
    assert Widen('b') == 98;
  }

  lemma FinishAB()
    ensures Finish(0x0614_F9F9) == 0x45E6_1E58
  {
  }

  lemma HashOfAB()
    ensures Hash("ab") == 0x45E6_1E58
  {
    hide Stir, Finish, Widen;
    assert "ab"[..1] == "a";
    StirA();
    StirB();
    FinishAB();
  }

  /** A letter beyond ASCII has its sign extended. */
  lemma HashOfUmlaut()
    ensures Hash("\U{E4}") == 0x9C39_0033
  {
    assert "\U{E4}"[..0] == "";
    assert Widen('\U{E4}') == 0xFFFF_FFE4;
    assert StirAll("\U{E4}") == Stir(0, '\U{E4}');
  }

  method DictionaryHash(key: string) returns (hash: bv32)
    ensures hash == Hash(key)
  {
    hide Stir, Finish;
    hash := 0;
    var i := 0;
    while i < |key|
      invariant i <= |key|
      invariant hash == StirAll(key[..i])
    {
      hash := Stir(hash, key[i]);
      i := i + 1;
      assert key[..i][..i - 1] == key[..i - 1];
    }
    assert key[..i] == key;
    hash := Finish(hash);
  }

  /** What a search does: a stored value (perhaps NULL), the caller's default, or strcmp with NULL. */
  datatype Lookup = Stored(val: Option<string>) | Default | ComparesNull

  /**
    The lookup of a key.  A hole holds hash 0, so only a key that hashes to 0 is ever compared
    with the NULL key of a hole, and only if the hole comes before the key.
  */
  function Search(s: Slots, key: string): Lookup {
    if Hash(key) == 0 && FirstFree(s) < Find(s, key) then ComparesNull
    else if Find(s, key) < |s| then Stored(s[Find(s, key)].value.val)
    else Default
  }

  /** A key with a non-zero hash is looked up in the map, whatever the collisions. */
  lemma SearchIsMapLookup(s: Slots, key: string)
    requires Hash(key) != 0
    ensures Search(s, key) == if key in ToMap(s) then Stored(ToMap(s)[key]) else Default
  {
  }

  /**
    A key that hashes to 0, such as the empty one, is compared with NULL exactly if a hole stands in front
    of it, or anywhere if it is not in the table; otherwise it is looked up like any other.
  */
  lemma ZeroHashIsUnsafe(s: Slots, key: string)
    requires Hash(key) == 0
    ensures Search(s, key) == ComparesNull <==>
      exists i :: 0 <= i < |s| && s[i].None? && (key in ToMap(s) ==> i < Find(s, key))
    ensures Search(s, key) != ComparesNull ==> Search(s, key) == if key in ToMap(s) then Stored(ToMap(s)[key]) else Default
  {
    if FirstFree(s) < Find(s, key) {
      assert s[FirstFree(s)].None?;
    }
  }

  lemma EmptyKeyHashesToZero()
    ensures Hash("") == 0
  {
    assert StirAll("") == 0 && Finish(0) == 0;
  }

  /** mem_double: twice the room, the old contents in front, zeroes behind. */
  method Doubled<T>(a: array<T>, zero: T) returns (b: array<T>)
    ensures fresh(b) && b.Length == 2 * a.Length
    ensures b[..a.Length] == a[..]
    ensures forall i :: a.Length <= i < b.Length ==> b[i] == zero
  {
    b := new T[2 * a.Length](_ => zero);
    var i := 0;
    while i < a.Length
      invariant i <= a.Length
      invariant b[..i] == a[..i]
      invariant forall k :: a.Length <= k < b.Length ==> b[k] == zero
    {
      b[i] := a[i];
      i := i + 1;
    }
  }

  /** A used slot stores its key's hash; a hole stores hash 0 and no value. */
  ghost predicate SlotOk(k: Option<string>, v: Option<string>, h: bv32) {
    if k.Some? then h == Hash(k.value) else h == 0 && v.None?
  }

  class Dictionary {
    var n: nat
    var size: nat
    var val: array<Option<string>>
    var key: array<Option<string>>
    var hash: array<bv32>

    ghost predicate Valid()
      reads this, val, key, hash
    {
      && val != key && hash as object != val && hash as object != key
      && val.Length == key.Length == hash.Length == size > 0
      && (forall i :: 0 <= i < size ==> SlotOk(key[i], val[i], hash[i]))
      && Distinct(Slots())
      && n == Count(Slots())
    }

    ghost function Slots(): (s: Slots)
      requires val.Length == key.Length
      reads this, val, key
      ensures |s| == key.Length
      ensures forall i :: 0 <= i < |s| ==> s[i] == if key[i].Some? then Some(Entry(key[i].value, val[i])) else None
    {
      seq(key.Length, i requires 0 <= i < key.Length && val.Length == key.Length reads this, val, key =>
        if key[i].Some? then Some(Entry(key[i].value, val[i])) else None)
    }

    constructor (wanted: nat)
      ensures Valid() && fresh(val) && fresh(key) && fresh(hash)
      ensures Slots() == Empty(if wanted < DICTMINSZ then DICTMINSZ else wanted)
    {
      var room := if wanted < DICTMINSZ then DICTMINSZ else wanted;
      n := 0;
      size := room;
      val := new Option<string>[room](_ => None);
      key := new Option<string>[room](_ => None);
      hash := new bv32[room](_ => 0);
      new;
      CountEmpty(Slots());
    }

    /** Overwrites one slot of the three arrays. */
    method Store(i: nat, k: Option<string>, v: Option<string>, h: bv32)
      requires i < size == val.Length == key.Length == hash.Length
      requires val != key && hash as object != val && hash as object != key && (k.None? ==> v.None?)
      modifies val, key, hash
      ensures Slots() == old(Slots())[i := if k.Some? then Some(Entry(k.value, v)) else None]
      ensures key[i] == k && val[i] == v && hash[i] == h
      ensures forall j :: 0 <= j < size && j != i ==> key[j] == old(key[j]) && val[j] == old(val[j]) && hash[j] == old(hash[j])
    {
      key[i] := k;
      val[i] := v;
      hash[i] := h;
    }

    method Get(k: string) returns (r: Lookup)
      requires Valid()
      ensures r == Search(Slots(), k)
    {
      hide Hash;
      var h := DictionaryHash(k);
      var i := 0;
      while i < size
        invariant i <= size
        invariant i <= Find(Slots(), k)
        invariant h == 0 ==> i <= FirstFree(Slots())
      {
        if h == hash[i] {
          if key[i].None? {
            return ComparesNull;
          }
          if k == key[i].value {
            assert Holds(Slots(), i, k);
            return Stored(val[i]);
          }
        }
        i := i + 1;
      }
      r := Default;
    }

    /** The search loop of dictionary_set and dictionary_unset, which skips the holes. */
    method IndexOf(k: string, h: bv32) returns (i: nat)
      requires Valid() && h == Hash(k)
      ensures i == Find(Slots(), k)
    {
      hide Hash, Count, Find;
      i := 0;
      while i < size
        invariant i <= Find(Slots(), k)
      {
        if key[i].Some? && h == hash[i] && k == key[i].value {
          assert Holds(Slots(), i, k);
          return;
        }
        assert SlotOk(key[i], val[i], hash[i]);
        assert !Holds(Slots(), i, k);
        i := i + 1;
      }
    }

    method Set(k: string, v: Option<string>)
      requires Valid()
      modifies this, val, key, hash
      ensures Valid()
      ensures Slots() == Put(old(Slots()), k, v)
      ensures val == old(val) || fresh(val)
      ensures key == old(key) || fresh(key)
      ensures hash == old(hash) || fresh(hash)
    {
      hide Hash, Count, Find, FirstFree, Distinct;
      ghost var s := Slots();
      PutDistinct(s, k, v);
      var h := DictionaryHash(k);
      if n > 0 {
        var i := IndexOf(k, h);
        if i < size {
          CountPut(s, i, Some(Entry(k, v)));
          Store(i, key[i], v, h);
          return;
        }
      } else {
        NotFound(s, k);
      }
      Insert(k, v, h);
    }

    /** Doubles the three arrays. */
    method Grow()
      requires Valid()
      modifies this
      ensures Valid() && fresh(val) && fresh(key) && fresh(hash)
      ensures Slots() == old(Slots()) + Empty(|old(Slots())|)
    {
      hide Hash, Count, Find, FirstFree, Distinct;
      ghost var s := Slots();
      val := Doubled(val, None);
      key := Doubled(key, None);
      hash := Doubled(hash, 0);
      size := size * 2;
      CountGrown(s, |s|);
      GrownDistinct(s, |s|);
      assert forall i :: 0 <= i < |s| ==> Slots()[i] == s[i];
      assert Slots() == s + Empty(|s|);
    }

    /** The second half of dictionary_set: a key that is not in the table yet. */
    method Insert(k: string, v: Option<string>, h: bv32)
      requires Valid() && Find(Slots(), k) == size && h == Hash(k)
      modifies this, val, key, hash
      ensures Valid()
      ensures Slots() == Put(old(Slots()), k, v)
      ensures val == old(val) || fresh(val)
      ensures key == old(key) || fresh(key)
      ensures hash == old(hash) || fresh(hash)
    {
      hide Hash, Count, Find, FirstFree, Distinct;
      ghost var s := Slots();
      PutDistinct(s, k, v);
      if n == size {
        Grow();
      }
      ghost var g := Slots();
      assert g == Grown(s);
      var i := 0;
      while i < size
        invariant i <= FirstFree(g)
      {
        if key[i].None? {
          break;
        }
        i := i + 1;
      }
      assert i == FirstFree(g);
      CountPut(g, i, Some(Entry(k, v)));
      Store(i, Some(k), v, h);
      n := n + 1;
      assert Slots() == Put(s, k, v);
    }

    method Unset(k: string)
      requires Valid()
      modifies this, val, key, hash
      ensures Valid() && val == old(val) && key == old(key) && hash == old(hash)
      ensures Slots() == Drop(old(Slots()), k)
    {
      hide Hash, Count, Find, FirstFree;
      ghost var s := Slots();
      DropDistinct(s, k);
      var h := DictionaryHash(k);
      var i := IndexOf(k, h);
      if i >= size {
        return;
      }
      CountPut(s, i, None);
      Store(i, None, None, 0);
      n := n - 1;
      assert Slots() == Drop(s, k);
    }
  }
}
