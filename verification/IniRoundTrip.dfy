/**
  The law the configuration store lives on: reading undoes printing.  The daemon changes a setting
  by load, set, dump, so this is what keeps every other setting alive.
*/
module IniRoundTrip {
  import opened Wrappers
  import opened CStrings
  import opened Lists
  import opened SlotTable
  import opened IniText
  import opened IniLine

  // ---------------------------------------------------------------- what can be printed

  /** The section of a key `section:name`. */
  function Head(key: string): string {
    key[..Until(key, {':'})]
  }

  function Tail(key: string): string
    requires !IsSection(key)
  {
    assert Until(key, {':'}) < |key|;
    key[Until(key, {':'}) + 1..]
  }

  predicate EntryOk(e: Entry) {
    if IsSection(e.key) then e.val.None? && SectionOk(e.key)
    else e.val.Some? && NameOk(Tail(e.key)) && ValueOk(e.val.value)
  }

  predicate Closed(es: seq<Entry>) {
    forall e :: e in es && !IsSection(e.key) ==> Head(e.key) in SectionNames(es)
  }

  /** What can be saved: either nothing, or sections with the entries under them. */
  predicate Printable(es: seq<Entry>) {
    && (es != [] ==> SectionNames(es) != [])
    && Closed(es)
    && forall e :: e in es ==> EntryOk(e)
  }

  /** Every key and value stays within one line, and every printed line within the line buffer. */
  predicate LineSized(es: seq<Entry>) {
    && (forall e :: e in es ==> OneLine(e.key) && OneLine(ValueText(e)))
    && (forall l :: l in DumpLines(es) ==> |l| < ASCIILINESZ)
  }

  // ---------------------------------------------------------------- lines

  predicate WholeLine(l: string) {
    0 < |l| < ASCIILINESZ && l[|l| - 1] == '\n' && '\n' !in l[..|l| - 1]
  }

  lemma FirstLine(l: string, rest: string)
    requires WholeLine(l)
    ensures FgetsLength(l + rest) == |l|
    ensures (l + rest)[..|l|] == l && (l + rest)[|l|..] == rest
  {
    hide Until;
    var text := l + rest;
    var n := |l| - 1;
    assert forall i :: 0 <= i < n ==> text[i] == l[..n][i] && l[..n][i] in l[..n];
    assert text[n] == l[n];
    UntilIs(text, {'\n'}, n);
  }

  /** fgets finds the lines that were written. */
  lemma {:induction false} LinesOfText(lines: seq<string>)
    requires forall l :: l in lines ==> WholeLine(l)
    ensures Lines(Flatten(lines)) == lines
  {
    hide FgetsLength;
    if lines != [] {
      var l, rest := lines[0], lines[1..];
      assert lines == [l] + rest;
      FlattenJoin([l], rest);
      CollectOne(l, (l: string) => l);
      FirstLine(l, Flatten(rest));
      LinesOfText(rest);
    }
  }

  // ---------------------------------------------------------------- the calls that loading makes

  function SectionAfter(lines: seq<string>, sec: string): string {
    if lines == [] then sec
    else SectionAfter(lines[1..], if ParseLine(lines[0]).Section? then ParseLine(lines[0]).name else sec)
  }

  lemma {:induction false} EffectsJoin(a: seq<string>, b: seq<string>, sec: string)
    ensures Effects(a + b, sec) == Effects(a, sec) + Effects(b, SectionAfter(a, sec))
    ensures SectionAfter(a + b, sec) == SectionAfter(b, SectionAfter(a, sec))
    decreases |a|
  {
    hide ParseLine;
    if a == [] {
      assert a + b == b;
    } else {
      assert (a + b)[1..] == a[1..] + b;
      EffectsJoin(a[1..], b, if ParseLine(a[0]).Section? then ParseLine(a[0]).name else sec);
    }
  }

  function Member(sec: string): Entry -> seq<Entry> {
    (e: Entry) => if Belongs(e.key, sec) then [e] else []
  }

  function Block(es: seq<Entry>): string -> seq<Entry> {
    (sec: string) => [Entry(sec, None)] + Collect(es, Member(sec))
  }

  /** The entries in the order in which they are printed. */
  function Listing(es: seq<Entry>): seq<Entry> {
    Collect(SectionNames(es), Block(es))
  }

  lemma NameIsEntry(es: seq<Entry>, n: string)
    ensures n in SectionNames(es) <==> IsSection(n) && exists e :: e in es && e.key == n
  {
    CollectIn(es, SectionName, n);
    if IsSection(n) {
      if e :| e in es && e.key == n {
        var i :| 0 <= i < |es| && es[i] == e;
        assert n in SectionName(es[i]);
      }
    }
  }

  /** A section without a colon owns exactly the keys whose head it is. */
  lemma BelongsIsHead(key: string, sec: string)
    requires IsSection(sec)
    ensures Belongs(key, sec) <==> !IsSection(key) && Head(key) == sec
    ensures Belongs(key, sec) ==> NameIn(key, sec) == Tail(key) && key == sec + ":" + Tail(key)
  {
    if Belongs(key, sec) {
      assert key[|sec|] == ':' && forall i :: 0 <= i < |sec| ==> key[i] == sec[i];
      UntilIs(key, {':'}, |sec|);
    }
  }

  lemma OneLineEffects(l: string, current: string)
    ensures SectionAfter([l], current) == if ParseLine(l).Section? then ParseLine(l).name else current
    ensures Effects([l], current) == match ParseLine(l)
      case Ignore => []
      case Section(name) => [Entry(name, None)]
      case Assign(key, val) => [Entry(current + ":" + key, Some(val))]
  {
    hide ParseLine;
    assert [l][1..] == [];
  }

  lemma {:induction false} MemberEffects(es: seq<Entry>, sec: string)
    requires IsSection(sec) && forall e :: e in es ==> EntryOk(e) && OneLine(e.key) && OneLine(ValueText(e))
    ensures Effects(Collect(es, MemberLine(sec)), sec) == Collect(es, Member(sec))
    ensures SectionAfter(Collect(es, MemberLine(sec)), sec) == sec
  {
    if es != [] {
      var e := es[|es| - 1];
      var before := es[..|es| - 1];
      MemberEffects(before, sec);
      EffectsJoin(Collect(before, MemberLine(sec)), MemberLine(sec)(e), sec);
      BelongsIsHead(e.key, sec);
      if Belongs(e.key, sec) {
        EntryReadBack(e, sec);
      }
    }
  }

  lemma EntryReadBack(e: Entry, sec: string)
    requires IsSection(sec) && Belongs(e.key, sec) && EntryOk(e) && OneLine(e.key) && OneLine(ValueText(e))
    ensures Effects(MemberLine(sec)(e), sec) == [e] && SectionAfter(MemberLine(sec)(e), sec) == sec
  {
    hide ParseLine, EntryLine, NameOk, ValueOk, Effects, SectionAfter, ReadBack;
    BelongsIsHead(e.key, sec);
    var k, v := Tail(e.key), e.val.value;
    OneLineTail(e.key);
    EntryLineParses(k, v);
    ValueComesBack(v);
    OneLineEffects(EntryLine(k, v), sec);
  }

  lemma OneLineTail(key: string)
    requires OneLine(key) && !IsSection(key)
    ensures OneLine(Tail(key))
  {
    assert forall c :: c in Tail(key) ==> c in key;
  }

  lemma EmptyLine()
    ensures ParseLine("\n") == Ignore
  {
    CStringOf("\n");
    SkipIs("\n", 1);
  }

  lemma HeaderEffects(sec: string, current: string)
    requires SectionOk(sec) && OneLine(sec)
    ensures Effects(["\n", "[" + sec + "]\n"], current) == [Entry(sec, None)]
    ensures SectionAfter(["\n", "[" + sec + "]\n"], current) == sec
  {
    hide ParseLine;
    var l := "[" + sec + "]\n";
    EmptyLine();
    SectionComesBack(sec);
    OneLineEffects("\n", current);
    OneLineEffects(l, current);
    EffectsJoin(["\n"], [l], current);
    assert ["\n", l] == ["\n"] + [l];
  }

  lemma {:induction false} SectionEffects(es: seq<Entry>, sec: string, current: string)
    requires IsSection(sec) && SectionOk(sec) && OneLine(sec)
    requires forall e :: e in es ==> EntryOk(e) && OneLine(e.key) && OneLine(ValueText(e))
    ensures Effects(SectionLines(es)(sec), current) == Block(es)(sec)
    ensures SectionAfter(SectionLines(es)(sec), current) == sec
  {
    HeaderEffects(sec, current);
    EffectsJoin(["\n", "[" + sec + "]\n"], Collect(es, MemberLine(sec)), current);
    MemberEffects(es, sec);
  }

  lemma {:induction false} BodyEffects(es: seq<Entry>, names: seq<string>, current: string)
    requires forall n :: n in names ==> IsSection(n) && SectionOk(n) && OneLine(n)
    requires forall e :: e in es ==> EntryOk(e) && OneLine(e.key) && OneLine(ValueText(e))
    ensures Effects(Collect(names, SectionLines(es)), current) == Collect(names, Block(es))
  {
    if names != [] {
      var n := names[|names| - 1];
      var before := names[..|names| - 1];
      BodyEffects(es, before, current);
      EffectsJoin(Collect(before, SectionLines(es)), SectionLines(es)(n), current);
      SectionEffects(es, n, SectionAfter(Collect(before, SectionLines(es)), current));
    }
  }

  /** Loading a printed file sets exactly the printed entries, in the order of the listing. */
  lemma {:induction false} PrintedFileEffects(es: seq<Entry>)
    requires Printable(es) && LineSized(es)
    ensures Effects(DumpLines(es), "") == Listing(es)
  {
    if es == [] {
      assert DumpLines(es) == [];
    } else {
      var names := SectionNames(es);
      forall n | n in names
        ensures IsSection(n) && SectionOk(n) && OneLine(n)
      {
        NameIsEntry(es, n);
      }
      BodyEffects(es, names, "");
      EffectsJoin(Collect(names, SectionLines(es)), ["\n"], "");
      EmptyLine();
      var last := SectionAfter(Collect(names, SectionLines(es)), "");
      OneLineEffects("\n", last);
    }
  }

  // ---------------------------------------------------------------- every line is whole

  lemma EndsWhole(body: string)
    requires '\n' !in body && |body| + 1 < ASCIILINESZ
    ensures WholeLine(body + "\n")
  {
    assert (body + "\n")[..|body|] == body;
  }

  lemma EntryLineIsWhole(k: string, v: string)
    requires '\n' !in k && '\n' !in v && |EntryLine(k, v)| < ASCIILINESZ
    ensures WholeLine(EntryLine(k, v))
  {
    var body := Padded(k) + " = " + if '=' in v then "\"" + v + "\"" else v;
    assert EntryLine(k, v) == body + "\n";
    assert forall c :: c in Padded(k) ==> c in k || c == ' ';
    EndsWhole(body);
  }

  /** Every line that is written is one line to fgets. */
  lemma DumpedLinesAreWhole(es: seq<Entry>)
    requires LineSized(es)
    ensures forall l :: l in DumpLines(es) ==> WholeLine(l)
  {
    hide WholeLine, OneLine;
    forall l | l in DumpLines(es)
      ensures WholeLine(l)
    {
      var names := SectionNames(es);
      if names == [] {
        CollectIn(es, PlainLine, l);
        var i :| 0 <= i < |es| && l in PlainLine(es[i]);
        PlainLineIsWhole(es[i]);
      } else if l == "\n" {
        NewlineIsWhole();
      } else {
        CollectIn(names, SectionLines(es), l);
        var i :| 0 <= i < |names| && l in SectionLines(es)(names[i]);
        SectionLineIsWhole(es, names[i], l);
      }
    }
  }

  lemma NewlineIsWhole()
    ensures WholeLine("\n")
  {
  }

  lemma PlainLineIsWhole(e: Entry)
    requires OneLine(e.key) && OneLine(ValueText(e)) && |PlainLine(e)[0]| < ASCIILINESZ
    ensures WholeLine(PlainLine(e)[0])
  {
    var body := e.key + " = " + ValueText(e);
    assert PlainLine(e)[0] == body + "\n";
    EndsWhole(body);
  }

  lemma HeaderIsWhole(n: string)
    requires OneLine(n) && |"[" + n + "]\n"| < ASCIILINESZ
    ensures WholeLine("[" + n + "]\n")
  {
    var body := "[" + n + "]";
    assert "[" + n + "]\n" == body + "\n";
    EndsWhole(body);
  }

  lemma MemberLineIsWhole(e: Entry, n: string)
    requires Belongs(e.key, n) && OneLine(e.key) && OneLine(ValueText(e))
    requires |EntryLine(NameIn(e.key, n), ValueText(e))| < ASCIILINESZ
    ensures WholeLine(EntryLine(NameIn(e.key, n), ValueText(e)))
  {
    assert forall c :: c in NameIn(e.key, n) ==> c in e.key;
    EntryLineIsWhole(NameIn(e.key, n), ValueText(e));
  }

  lemma SectionLineIsWhole(es: seq<Entry>, n: string, l: string)
    requires l in SectionLines(es)(n) && n in SectionNames(es) && |l| < ASCIILINESZ
    requires forall e :: e in es ==> OneLine(e.key) && OneLine(ValueText(e))
    ensures WholeLine(l)
  {
    hide WholeLine, OneLine, EntryLine, Collect;
    NameIsEntry(es, n);
    var header := "[" + n + "]\n";
    if l == header {
      HeaderIsWhole(n);
    } else if l == "\n" {
      NewlineIsWhole();
    } else {
      assert l in Collect(es, MemberLine(n));
      CollectIn(es, MemberLine(n), l);
      var i :| 0 <= i < |es| && l in MemberLine(n)(es[i]);
      MemberLineIsWhole(es[i], n);
    }
  }

  // ---------------------------------------------------------------- printing is a partition

  ghost predicate Unique(es: seq<Entry>) {
    forall i, j :: 0 <= i < j < |es| ==> es[i].key != es[j].key
  }

  ghost predicate NoRepeat(names: seq<string>) {
    forall i, j :: 0 <= i < j < |names| ==> names[i] != names[j]
  }

  lemma {:induction false} NamesDoNotRepeat(es: seq<Entry>)
    requires Unique(es)
    ensures NoRepeat(SectionNames(es))
  {
    if es != [] {
      var before := es[..|es| - 1];
      NamesDoNotRepeat(before);
      NameIsEntry(before, es[|es| - 1].key);
      assert es[|es| - 1].key !in SectionNames(before);
    }
  }

  /** The section under which an entry is printed. */
  function Home(e: Entry): string {
    if IsSection(e.key) then e.key else Head(e.key)
  }

  lemma {:induction false} MembersCount(es: seq<Entry>, sec: string, e: Entry)
    requires IsSection(sec)
    ensures multiset(Collect(es, Member(sec)))[e] == if !IsSection(e.key) && Head(e.key) == sec then multiset(es)[e] else 0
  {
    hide Head, Belongs, IsSection;
    if es != [] {
      var before, last := es[..|es| - 1], es[|es| - 1];
      MembersCount(before, sec, e);
      assert es == before + [last];
      BelongsIsHead(last.key, sec);
      assert multiset(Member(sec)(last))[e] == if Belongs(last.key, sec) && e == last then 1 else 0;
    }
  }

  lemma UniqueCount(es: seq<Entry>, e: Entry)
    requires Unique(es) && e in es
    ensures multiset(es)[e] == 1
  {
    var i :| 0 <= i < |es| && es[i] == e;
    assert es == es[..i] + [es[i]] + es[i + 1..];
    assert e !in es[..i] && e !in es[i + 1..];
  }

  /** Sections are NULL, and every other entry has its section. */
  predicate Shelved(es: seq<Entry>) {
    Closed(es) && forall e :: e in es && IsSection(e.key) ==> e.val.None?
  }

  lemma BlockCount(es: seq<Entry>, sec: string, e: Entry)
    requires Unique(es) && Shelved(es) && sec in SectionNames(es)
    ensures multiset(Block(es)(sec))[e] == if Home(e) == sec then multiset(es)[e] else 0
  {
    NameIsEntry(es, sec);
    MembersCount(es, sec, e);
    var header := Entry(sec, None);
    assert header in es by {
      var s :| s in es && s.key == sec;
    }
    UniqueCount(es, header);
    if IsSection(e.key) && Home(e) == sec && e != header {
      assert e !in es;
    }
  }

  lemma {:induction false} BlocksCount(es: seq<Entry>, names: seq<string>, e: Entry)
    requires Unique(es) && Shelved(es) && NoRepeat(names) && forall n :: n in names ==> n in SectionNames(es)
    ensures multiset(Collect(names, Block(es)))[e] == if Home(e) in names then multiset(es)[e] else 0
  {
    if names != [] {
      var n := names[|names| - 1];
      BlocksCount(es, names[..|names| - 1], e);
      BlockCount(es, n, e);
      assert forall i :: 0 <= i < |names| - 1 ==> names[i] != n;
    }
  }

  /** Every entry is printed exactly once: the listing is a rearrangement of the dictionary. */
  lemma {:induction false} PrintingIsAPartition(es: seq<Entry>)
    requires Unique(es) && Shelved(es)
    ensures multiset(Listing(es)) == multiset(es)
    ensures NoRepeat(SectionNames(es))
  {
    NamesDoNotRepeat(es);
    forall e
      ensures multiset(Listing(es))[e] == multiset(es)[e]
    {
      BlocksCount(es, SectionNames(es), e);
      if e in es {
        NameIsEntry(es, Home(e));
      }
    }
  }

  lemma RepeatCount(b: seq<Entry>, i: nat, j: nat)
    requires i < j < |b| && b[i] == b[j]
    ensures multiset(b)[b[i]] >= 2
  {
    assert b == b[..i] + [b[i]] + b[i + 1..j] + [b[j]] + b[j + 1..];
  }

  lemma UniqueListing(a: seq<Entry>, b: seq<Entry>)
    requires Unique(a) && multiset(a) == multiset(b)
    ensures Unique(b)
    ensures forall e :: e in b <==> e in a
  {
    forall e
      ensures e in b <==> e in a
    {
      assert e in b <==> e in multiset(b);
      assert e in a <==> e in multiset(a);
    }
    forall i, j | 0 <= i < j < |b|
      ensures b[i].key != b[j].key
    {
      assert b[i] in a && b[j] in a;
      if b[i].key == b[j].key {
        UniqueCount(a, b[i]);
        RepeatCount(b, i, j);
      }
    }
  }

  // ---------------------------------------------------------------- filling a table

  /** A table without holes: the entries in front, empty slots behind. */
  ghost predicate Packed(s: Slots, es: seq<Entry>) {
    && |es| <= |s|
    && (forall i :: 0 <= i < |es| ==> s[i] == Some(es[i]))
    && (forall i :: |es| <= i < |s| ==> s[i] == None)
  }

  lemma PackedPut(s: Slots, es: seq<Entry>, e: Entry)
    requires |s| > 0 && Packed(s, es) && forall x :: x in es ==> x.key != e.key
    ensures Packed(Put(s, e.key, e.val), es + [e])
  {
    assert Find(s, e.key) == |s| by {
      assert forall i :: 0 <= i < |es| ==> es[i] in es;
    }
    var g := Grown(s);
    assert forall i :: 0 <= i < |es| ==> g[i] == s[i];
    assert |es| < |g| && g[|es|].None?;
    assert FirstFree(g) == |es|;
  }

  lemma {:induction false} PackedPutAll(s: Slots, es: seq<Entry>, more: seq<Entry>)
    requires |s| > 0 && Packed(s, es) && Unique(es + more)
    ensures Packed(PutAll(s, more), es + more)
    decreases |more|
  {
    hide Packed, Put;
    if more == [] {
      assert es + more == es;
    } else {
      var e, rest := more[0], more[1..];
      forall x | x in es
        ensures x.key != e.key
      {
        var i :| 0 <= i < |es| && es[i] == x;
        assert (es + more)[i] == x && (es + more)[|es|] == e;
      }
      PackedPut(s, es, e);
      assert es + [e] + rest == es + more;
      PackedPutAll(Put(s, e.key, e.val), es + [e], rest);
    }
  }

  lemma {:induction false} PackedOccupied(s: Slots, es: seq<Entry>)
    requires Packed(s, es)
    ensures Occupied(s) == es
  {
    if s != [] {
      var before := s[..|s| - 1];
      if s[|s| - 1].Some? {
        PackedOccupied(before, es[..|es| - 1]);
      } else {
        PackedOccupied(before, es);
      }
    }
  }

  lemma {:induction false} OccupiedIsUnique(s: Slots)
    requires Distinct(s)
    ensures Unique(Occupied(s))
  {
    if s != [] {
      var before := s[..|s| - 1];
      forall i: nat, j: nat, k | Holds(before, i, k) && Holds(before, j, k)
        ensures i == j
      {
        assert Holds(s, i, k) && Holds(s, j, k);
      }
      OccupiedIsUnique(before);
      if s[|s| - 1].Some? {
        var e := s[|s| - 1].value;
        forall i | 0 <= i < |Occupied(before)|
          ensures Occupied(before)[i].key != e.key
        {
          OccupiedIn(before, Occupied(before)[i]);
          var j :| 0 <= j < |before| && before[j] == Some(Occupied(before)[i]);
          if before[j].value.key == e.key {
            assert Holds(s, j, e.key) && Holds(s, |s| - 1, e.key);
          }
        }
      }
    }
  }

  /** A table means its entries. */
  lemma MapByEntries(s: Slots, k: string)
    requires Distinct(s)
    ensures k in ToMap(s) <==> exists e :: e in Occupied(s) && e.key == k
    ensures forall e :: e in Occupied(s) && e.key == k ==> k in ToMap(s) && ToMap(s)[k] == e.val
  {
    forall e | e in Occupied(s) && e.key == k
      ensures k in ToMap(s) && ToMap(s)[k] == e.val
    {
      OccupiedIn(s, e);
      var i :| 0 <= i < |s| && s[i] == Some(e);
      FindIs(s, i, k);
    }
    if k in ToMap(s) {
      OccupiedIn(s, s[Find(s, k)].value);
    }
  }

  lemma SameEntriesSameMap(s: Slots, t: Slots)
    requires Distinct(s) && Distinct(t) && forall e :: e in Occupied(s) <==> e in Occupied(t)
    ensures ToMap(s) == ToMap(t)
  {
    forall k
      ensures k in ToMap(s) <==> k in ToMap(t)
      ensures k in ToMap(s) ==> ToMap(s)[k] == ToMap(t)[k]
    {
      MapByEntries(s, k);
      MapByEntries(t, k);
    }
  }

  lemma {:induction false} PutAllDistinct(s: Slots, es: seq<Entry>)
    requires |s| > 0 && Distinct(s)
    ensures Distinct(PutAll(s, es))
    decreases |es|
  {
    if es != [] {
      PutDistinct(s, es[0].key, es[0].val);
      PutAllDistinct(Put(s, es[0].key, es[0].val), es[1..]);
    }
  }

  // ---------------------------------------------------------------- the round trip

  lemma PrintedFileLoads(es: seq<Entry>)
    requires Printable(es) && LineSized(es)
    ensures LoadSlots(DumpText(es)) == PutAll(Empty(DICTMINSZ), Listing(es))
  {
    DumpedLinesAreWhole(es);
    LinesOfText(DumpLines(es));
    PrintedFileEffects(es);
  }

  lemma PrintableIsDumpable(es: seq<Entry>)
    requires Printable(es)
    ensures Dumpable(es)
  {
    forall e, n | e in es && n in SectionNames(es) && Belongs(e.key, n)
      ensures e.val.Some?
    {
      NameIsEntry(es, n);
      BelongsIsHead(e.key, n);
    }
  }

  lemma PrintableIsShelved(es: seq<Entry>)
    requires Printable(es)
    ensures Shelved(es)
  {
  }

  lemma ListingIsUnique(s: Slots)
    requires Distinct(s) && Shelved(Occupied(s))
    ensures multiset(Listing(Occupied(s))) == multiset(Occupied(s)) && Unique(Listing(Occupied(s)))
    ensures forall e :: e in Listing(Occupied(s)) <==> e in Occupied(s)
  {
    OccupiedIsUnique(s);
    PrintingIsAPartition(Occupied(s));
    UniqueListing(Occupied(s), Listing(Occupied(s)));
  }

  lemma FilledTable(ls: seq<Entry>)
    requires Unique(ls)
    ensures Distinct(PutAll(Empty(DICTMINSZ), ls)) && Occupied(PutAll(Empty(DICTMINSZ), ls)) == ls
  {
    assert [] + ls == ls;
    PackedPutAll(Empty(DICTMINSZ), [], ls);
    PackedOccupied(PutAll(Empty(DICTMINSZ), ls), ls);
    PutAllDistinct(Empty(DICTMINSZ), ls);
  }

  /** What the dumped file holds once it is loaded: the entries in the order of the listing, without a hole. */
  lemma LoadedListing(s: Slots)
    requires Distinct(s) && Printable(Occupied(s)) && LineSized(Occupied(s))
    ensures Distinct(LoadSlots(DumpText(Occupied(s))))
    ensures Occupied(LoadSlots(DumpText(Occupied(s)))) == Listing(Occupied(s))
  {
    PrintedFileLoads(Occupied(s));
    ListingIsUnique(s);
    FilledTable(Listing(Occupied(s)));
  }

  /** Reading undoes printing, whatever holes the table has. */
  lemma ReadingUndoesPrinting(s: Slots)
    requires Distinct(s) && Printable(Occupied(s)) && LineSized(Occupied(s))
    ensures Dumpable(Occupied(s))
    ensures ToMap(LoadSlots(DumpText(Occupied(s)))) == ToMap(s)
  {
    hide Printable, LineSized, Listing, DumpText, LoadSlots, Occupied;
    PrintableIsDumpable(Occupied(s));
    PrintableIsShelved(Occupied(s));
    LoadedListing(s);
    ListingIsUnique(s);
    SameEntriesSameMap(s, LoadSlots(DumpText(Occupied(s))));
  }

  // ---------------------------------------------------------------- the printed text is a fixed point

  lemma BlockNames(es: seq<Entry>, n: string)
    requires IsSection(n)
    ensures Then(Block(es), SectionName)(n) == [n]
  {
    var members := Collect(es, Member(n));
    forall i | 0 <= i < |members|
      ensures SectionName(members[i]) == []
    {
      CollectIn(es, Member(n), members[i]);
      BelongsIsHead(members[i].key, n);
    }
    CollectNone(members, SectionName);
    CollectJoin([Entry(n, None)], members, SectionName);
    CollectOne(Entry(n, None), SectionName);
  }

  lemma MemberPiece(e: Entry, n: string, m: string)
    requires IsSection(n) && IsSection(m)
    ensures Then(Member(n), MemberLine(m))(e) == if n == m then MemberLine(m)(e) else []
  {
    BelongsIsHead(e.key, n);
    BelongsIsHead(e.key, m);
    if Belongs(e.key, n) {
      assert Member(n)(e) == [e];
      CollectOne(e, MemberLine(m));
      assert n != m ==> !Belongs(e.key, m);
    } else {
      var nothing: seq<Entry> := [];
      assert Member(n)(e) == nothing;
      assert Collect(nothing, MemberLine(m)) == [];
    }
  }

  lemma BlockLines(es: seq<Entry>, n: string, m: string)
    requires IsSection(n) && IsSection(m)
    ensures Then(Block(es), MemberLine(m))(n) == if n == m then Collect(es, MemberLine(m)) else []
  {
    hide Collect;
    var members := Collect(es, Member(n));
    CollectJoin([Entry(n, None)], members, MemberLine(m));
    CollectOne(Entry(n, None), MemberLine(m));
    assert MemberLine(m)(Entry(n, None)) == [] by { BelongsIsHead(n, m); }
    CollectTwice(es, Member(n), MemberLine(m));
    var f := Then(Member(n), MemberLine(m));
    forall i | 0 <= i < |es|
      ensures f(es[i]) == if n == m then MemberLine(m)(es[i]) else []
    {
      MemberPiece(es[i], n, m);
    }
    if n == m {
      CollectSame(es, f, MemberLine(m));
    } else {
      CollectNone(es, f);
    }
  }

  /** Printing the listing prints the same lines: section order and the order within a section survive. */
  lemma ListingPrintsTheSame(es: seq<Entry>)
    requires Unique(es) && (es != [] ==> SectionNames(es) != [])
    ensures DumpLines(Listing(es)) == DumpLines(es)
  {
    var names := SectionNames(es);
    forall n | n in names
      ensures IsSection(n)
    {
      NameIsEntry(es, n);
    }
    CollectTwice(names, Block(es), SectionName);
    forall i | 0 <= i < |names|
      ensures Then(Block(es), SectionName)(names[i]) == [names[i]]
    {
      BlockNames(es, names[i]);
    }
    CollectIdentity(names, Then(Block(es), SectionName));
    assert SectionNames(Listing(es)) == names;
    NamesDoNotRepeat(es);
    forall i | 0 <= i < |names|
      ensures SectionLines(Listing(es))(names[i]) == SectionLines(es)(names[i])
    {
      SectionPrintsTheSame(es, i);
    }
    CollectSame(names, SectionLines(Listing(es)), SectionLines(es));
  }

  lemma SectionPrintsTheSame(es: seq<Entry>, i: nat)
    requires NoRepeat(SectionNames(es)) && i < |SectionNames(es)| && forall n :: n in SectionNames(es) ==> IsSection(n)
    ensures SectionLines(Listing(es))(SectionNames(es)[i]) == SectionLines(es)(SectionNames(es)[i])
  {
    var names := SectionNames(es);
    var m := names[i];
    CollectTwice(names, Block(es), MemberLine(m));
    forall j | 0 <= j < |names|
      ensures Then(Block(es), MemberLine(m))(names[j]) == if j == i then Collect(es, MemberLine(m)) else []
    {
      BlockLines(es, names[j], m);
    }
    CollectSingle(names, i, Then(Block(es), MemberLine(m)));
  }

  /** dump(load(dump(d))) is dump(d), character for character, whatever holes d has. */
  lemma PrintedTextIsStable(s: Slots)
    requires Distinct(s) && Printable(Occupied(s)) && LineSized(Occupied(s))
    ensures DumpText(Occupied(LoadSlots(DumpText(Occupied(s))))) == DumpText(Occupied(s))
  {
    LoadedListing(s);
    OccupiedIsUnique(s);
    ListingPrintsTheSame(Occupied(s));
  }
}
