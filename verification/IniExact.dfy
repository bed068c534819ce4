/**
  Exactly when reading undoes printing.  IniRoundTrip.dfy proves that a printable dictionary comes
  back; here, that nothing else does.
*/
module IniExact {
  import opened Wrappers
  import opened CStrings
  import opened Lists
  import opened SlotTable
  import opened IniText
  import opened IniLine
  import opened IniRoundTrip

  ghost predicate RoundTrips(s: Slots) {
    Dumpable(Occupied(s)) && ToMap(LoadSlots(DumpText(Occupied(s)))) == ToMap(s)
  }

  /** A line that starts with this name is read as a section header. */
  predicate LooksLikeHeader(name: string) {
    var w := Skip(name);
    w != "" && w[0] == '[' && (|w| > 1 ==> w[1] != ']')
  }

  // ---------------------------------------------------------------- what loading any text can produce

  /** Every key a load stores was set by one of its calls, with that value. */
  lemma {:induction false} StoredWasSet(s: Slots, es: seq<Entry>, k: string)
    requires |s| > 0 && Distinct(s) && k in ToMap(PutAll(s, es))
    ensures (k in ToMap(s) && ToMap(s)[k] == ToMap(PutAll(s, es))[k]) || Entry(k, ToMap(PutAll(s, es))[k]) in es
    decreases |es|
  {
    if es != [] {
      var e := es[0];
      PutIsUpdate(s, e.key, e.val);
      StoredWasSet(Put(s, e.key, e.val), es[1..], k);
    }
  }

  lemma EmptyMeansNothing(n: nat)
    ensures Distinct(Empty(n)) && ToMap(Empty(n)) == map[]
  {
    CountEmpty(Empty(n));
    NoneFull(Empty(n));
  }

  lemma LoadedWasSet(text: string, k: string)
    requires k in ToMap(LoadSlots(text))
    ensures Entry(k, ToMap(LoadSlots(text))[k]) in Effects(Lines(text), "")
  {
    EmptyMeansNothing(DICTMINSZ);
    StoredWasSet(Empty(DICTMINSZ), Effects(Lines(text), ""), k);
  }

  /** Some line makes `cur` the current section. */
  ghost predicate Made(lines: seq<string>, cur: string) {
    exists l :: l in lines && ParseLine(l) == Section(cur)
  }

  /** Line `l` makes the call `x`, in a text that starts in section `sec`. */
  ghost predicate SetBy(lines: seq<string>, sec: string, l: string, x: Entry) {
    match ParseLine(l)
    case Ignore => false
    case Section(name) => x == Entry(name, None)
    case Assign(key, val) => exists cur: string :: (cur == sec || Made(lines, cur)) && x == Entry(cur + ":" + key, Some(val))
  }

  /** Every call of a load names a section, or a name behind a section that some line made current. */
  lemma {:induction false} CallsAreNamed(lines: seq<string>, sec: string, x: Entry) returns (l: string)
    requires x in Effects(lines, sec)
    ensures l in lines && SetBy(lines, sec, l, x)
  {
    hide ParseLine;
    var rest := lines[1..];
    l := lines[0];
    match ParseLine(l)
    case Ignore =>
      l := CallsAreNamed(rest, sec, x);
    case Section(name) =>
      if x != Entry(name, None) {
        l := CallsAreNamed(rest, name, x);
      }
    case Assign(key, val) =>
      if x != Entry(sec + ":" + key, Some(val)) {
        l := CallsAreNamed(rest, sec, x);
      }
    assert forall cur :: Made(rest, cur) ==> Made(lines, cur);
  }

  /** Every section that a line makes current becomes a key. */
  lemma {:induction false} MadeIsCalled(lines: seq<string>, sec: string, cur: string)
    requires Made(lines, cur)
    ensures Entry(cur, None) in Effects(lines, sec)
  {
    hide ParseLine;
    if ParseLine(lines[0]) != Section(cur) {
      var l :| l in lines && ParseLine(l) == Section(cur);
      assert l in lines[1..];
      MadeIsCalled(lines[1..], if ParseLine(lines[0]).Section? then ParseLine(lines[0]).name else sec, cur);
    }
  }

  lemma {:induction false} CalledIsStored(s: Slots, es: seq<Entry>, k: string)
    requires |s| > 0 && Distinct(s) && (k in ToMap(s) || exists x :: x in es && x.key == k)
    ensures k in ToMap(PutAll(s, es))
    decreases |es|
  {
    if es != [] {
      var e := es[0];
      PutIsUpdate(s, e.key, e.val);
      assert forall x :: x in es ==> x == e || x in es[1..];
      CalledIsStored(Put(s, e.key, e.val), es[1..], k);
    }
  }

  // ---------------------------------------------------------------- line breaks never come back

  predicate BreaksAtEnd(s: string) {
    forall i :: 0 <= i < |s| - 1 ==> s[i] != '\n'
  }

  lemma {:induction false} LinesBreakAtEnd(text: string, l: string)
    requires l in Lines(text)
    ensures |l| < ASCIILINESZ && BreaksAtEnd(l)
    decreases |text|
  {
    hide Until;
    var n := FgetsLength(text);
    if l != text[..n] {
      LinesBreakAtEnd(text[n..], l);
    }
  }

  lemma PartBreaksAtEnd(s: string, a: nat, b: nat)
    requires BreaksAtEnd(s) && a <= b <= |s|
    ensures BreaksAtEnd(s[a..b])
  {
  }

  lemma CleanHasNoBreak(x: string)
    requires BreaksAtEnd(x)
    ensures '\n' !in CleanValue(x)
  {
    var c := Crop(x);
    if CropLength(x) == |x| && x != "" {
      assert !IsSpace(x[|x| - 1]);
    }
    assert forall i :: 0 <= i < |c| ==> c[i] == x[i] && c[i] != '\n';
  }

  lemma ScannedBreaksAtEnd(rest: string)
    requires BreaksAtEnd(rest) && ScanValue(rest).Some?
    ensures BreaksAtEnd(ScanValue(rest).value)
  {
    hide Until, Blanks;
    var r := Skip(rest);
    PartBreaksAtEnd(rest, Blanks(rest), |rest|);
    assert rest[Blanks(rest)..|rest|] == r;
    var x := ScanValue(rest).value;
    if r != "" {
      PartBreaksAtEnd(r, 1, |r|);
      assert r[1..|r|] == r[1..];
    }
  }

  /** A value that was read stays within its line. */
  lemma ReadValueHasNoBreak(line: string)
    requires BreaksAtEnd(line) && ParseLine(line).Assign?
    ensures '\n' !in ParseLine(line).val
  {
    hide Until, Blanks, ScanValue, CleanValue, Lower, Crop;
    var c := CString(line);
    PartBreaksAtEnd(line, 0, Until(line, {'\0'}));
    assert line[0..Until(line, {'\0'})] == c;
    var w := Skip(c);
    PartBreaksAtEnd(c, Blanks(c), |c|);
    assert c[Blanks(c)..|c|] == w;
    var n := Until(w, {'='});
    PartBreaksAtEnd(w, n + 1, |w|);
    assert w[n + 1..|w|] == w[n + 1..];
    ScannedBreaksAtEnd(w[n + 1..]);
    CleanHasNoBreak(ScanValue(w[n + 1..]).value);
  }

  lemma LoadedValueHasNoBreak(text: string, k: string)
    requires k in ToMap(LoadSlots(text)) && ToMap(LoadSlots(text))[k].Some?
    ensures '\n' !in ToMap(LoadSlots(text))[k].value
  {
    hide ParseLine;
    LoadedWasSet(text, k);
    var x := Entry(k, ToMap(LoadSlots(text))[k]);
    var l := CallsAreNamed(Lines(text), "", x);
    LinesBreakAtEnd(text, l);
    ReadValueHasNoBreak(l);
  }

  /** A dictionary with a line break in a value never comes back. */
  lemma LineBreakIsLost(s: Slots, k: string)
    requires k in ToMap(s) && ToMap(s)[k].Some? && '\n' in ToMap(s)[k].value
    ensures !RoundTrips(s)
  {
    if RoundTrips(s) {
      LoadedValueHasNoBreak(DumpText(Occupied(s)), k);
    }
  }

  // ---------------------------------------------------------------- what loading a printed text can produce

  lemma NotAHeader(w: string, name: string, rest: string)
    requires w == name + rest && !LooksLikeHeader(name) && '\0' !in w
    requires Blanks(rest) < |rest| && rest[Blanks(rest)] == '='
    ensures !ParseLine(w).Section?
  {
    hide Until, Lower, Crop, ScanEntry, CleanValue;
    CStringOf(w);
    NameThenRest(w, name, rest);
  }

  lemma NameThenRest(w: string, name: string, rest: string)
    requires w == name + rest && !LooksLikeHeader(name)
    requires Blanks(rest) < |rest| && rest[Blanks(rest)] == '='
    ensures Skip(w) != "" && (Skip(w)[0] != '[' || (|Skip(w)| > 1 && Skip(w)[1] == ']'))
  {
    hide Blanks;
    var b := Blanks(name);
    if b < |name| {
      SkipIs(w, b);
    } else {
      SkipIs(w, b + Blanks(rest));
    }
  }

  lemma EntryIsNoHeader(name: string, v: string)
    requires OneLine(name) && OneLine(v) && !LooksLikeHeader(name)
    ensures !ParseLine(EntryLine(name, v)).Section?
  {
    hide ParseLine, LooksLikeHeader, Blanks, ScanSection, ScanEntry;
    var pad := Padded(name)[|name|..];
    var rest := pad + " = " + Rendered(v);
    assert EntryLine(name, v) == name + rest;
    assert rest[|pad|] == ' ' && rest[|pad| + 1] == '=';
    BlanksIs(rest, |pad| + 1);
    RenderedHasNoNul(v);
    assert forall c :: c in Rendered(v) ==> c in " " + Rendered(v);
    NotAHeader(EntryLine(name, v), name, rest);
  }

  ghost predicate MemberCall(es: seq<Entry>, n: string, x: Entry) {
    exists e :: e in es && CalledBy(e, n, x)
  }

  /** The line of `e` under section `n` is the call that sets `x`. */
  ghost predicate CalledBy(e: Entry, n: string, x: Entry) {
    Belongs(e.key, n) &&
    var ev := ParseLine(EntryLine(NameIn(e.key, n), ValueText(e)));
    ev.Assign? && x == Entry(n + ":" + ev.key, Some(ev.val))
  }

  predicate OneLiners(es: seq<Entry>) {
    forall e :: e in es ==> OneLine(e.key) && OneLine(ValueText(e))
  }

  lemma SizedIsOneLine(es: seq<Entry>)
    requires LineSized(es)
    ensures OneLiners(es)
  {
  }

  /** No line that is printed under section `n` is read as a header. */
  predicate Tame(es: seq<Entry>, n: string) {
    OneLiners(es) && forall e :: e in es && Belongs(e.key, n) ==> !LooksLikeHeader(NameIn(e.key, n))
  }

  lemma TameParts(es: seq<Entry>, n: string)
    requires Tame(es, n) && es != []
    ensures Tame(es[..|es| - 1], n) && Tame([es[|es| - 1]], n)
  {
    assert forall e :: e in es[..|es| - 1] || e in [es[|es| - 1]] ==> e in es;
  }

  lemma {:induction false} MemberCalls(es: seq<Entry>, n: string)
    requires Tame(es, n) && IsSection(n)
    ensures SectionAfter(Collect(es, MemberLine(n)), n) == n
    ensures forall x :: x in Effects(Collect(es, MemberLine(n)), n) ==> MemberCall(es, n, x)
  {
    hide ParseLine, EntryLine, Belongs, CalledBy, Tame, Effects, SectionAfter;
    if es == [] {
      NoCalls(n);
    } else {
      var before, e := es[..|es| - 1], es[|es| - 1];
      TameParts(es, n);
      MemberCalls(before, n);
      EffectsJoin(Collect(before, MemberLine(n)), MemberLine(n)(e), n);
      if Belongs(e.key, n) {
        OneMemberCall(e, n);
      } else {
        NoCalls(n);
      }
      assert forall x :: CalledBy(e, n, x) ==> MemberCall(es, n, x);
      assert forall x :: MemberCall(before, n, x) ==> MemberCall(es, n, x);
    }
  }

  lemma NoCalls(n: string)
    ensures Effects([], n) == [] && SectionAfter([], n) == n
  {
  }

  lemma OneMemberCall(e: Entry, n: string)
    requires Belongs(e.key, n) && IsSection(n) && Tame([e], n)
    ensures SectionAfter(MemberLine(n)(e), n) == n
    ensures forall x :: x in Effects(MemberLine(n)(e), n) ==> CalledBy(e, n, x)
  {
    hide ParseLine, EntryLine, LooksLikeHeader;
    assert e in [e];
    BelongsIsHead(e.key, n);
    OneLineTail(e.key);
    EntryIsNoHeader(NameIn(e.key, n), ValueText(e));
    OneLineEffects(EntryLine(NameIn(e.key, n), ValueText(e)), n);
  }

  ghost predicate FileCall(es: seq<Entry>, names: seq<string>, x: Entry) {
    exists n :: n in names && (x == Entry(n, None) || MemberCall(es, n, x))
  }

  lemma SectionCalls(es: seq<Entry>, n: string, current: string)
    requires Tame(es, n) && IsSection(n) && SectionOk(n) && OneLine(n)
    ensures forall x :: x in Effects(SectionLines(es)(n), current) ==> x == Entry(n, None) || MemberCall(es, n, x)
  {
    HeaderEffects(n, current);
    EffectsJoin(["\n", "[" + n + "]\n"], Collect(es, MemberLine(n)), current);
    MemberCalls(es, n);
  }

  lemma {:induction false} BodyCalls(es: seq<Entry>, names: seq<string>, current: string)
    requires forall n :: n in names ==> Tame(es, n) && IsSection(n) && SectionOk(n) && OneLine(n)
    ensures forall x :: x in Effects(Collect(names, SectionLines(es)), current) ==> FileCall(es, names, x)
  {
    if names != [] {
      var n := names[|names| - 1];
      var before := names[..|names| - 1];
      BodyCalls(es, before, current);
      EffectsJoin(Collect(before, SectionLines(es)), SectionLines(es)(n), current);
      SectionCalls(es, n, SectionAfter(Collect(before, SectionLines(es)), current));
      assert forall x :: FileCall(es, before, x) ==> FileCall(es, names, x);
    }
  }

  // ---------------------------------------------------------------- necessity

  /** A section that comes back has a name fit for its header and a NULL value. */
  lemma SectionsThatComeBack(s: Slots, n: string)
    requires Distinct(s) && RoundTrips(s) && n in ToMap(s) && IsSection(n)
    ensures SectionOk(n) && ToMap(s)[n] == None
  {
    hide ParseLine;
    var text := DumpText(Occupied(s));
    LoadedWasSet(text, n);
    var x := Entry(n, ToMap(s)[n]);
    var l := CallsAreNamed(Lines(text), "", x);
    assert forall cur: string, key: string :: ':' in cur + ":" + key;
    SectionsAreOk(l);
  }

  /** What stands in front of a colon in a header-like name is header-like. */
  lemma HeaderPrefix(u: string, v: string, key: string)
    requires u == v + ":" + key && LooksLikeHeader(u)
    ensures LooksLikeHeader(v)
  {
    hide Blanks;
    var b := Blanks(u);
    assert u[|v|] == ':';
    assert forall i :: 0 <= i < |v| ==> v[i] == u[i];
    BlanksIs(v, b);
  }

  /** How an entry with a value was set: behind no section at all, or behind one that is an entry itself. */
  lemma ValueWasAssigned(s: Slots, e: Entry) returns (cur: string, key: string)
    requires Distinct(s) && RoundTrips(s) && LineSized(Occupied(s)) && e in Occupied(s) && e.val.Some?
    ensures e.key == cur + ":" + key && NameOk(key)
    ensures cur == "" || exists e' :: e' in Occupied(s) && e'.key == cur
  {
    hide ParseLine, NameOk, Dumpable, LineSized, Occupied, DumpText, Effects, LoadSlots;
    var text := DumpText(Occupied(s));
    EntryWasSet(s, e);
    var l := CallsAreNamed(Lines(text), "", e);
    LinesBreakAtEnd(text, l);
    AssignedNamesAreOk(l);
    key := ParseLine(l).key;
    cur :| (cur == "" || Made(Lines(text), cur)) && e.key == cur + ":" + key;
    if cur != "" {
      MadeIsCalled(Lines(text), "", cur);
      MadeIsStored(text, cur);
      MapByEntries(s, cur);
    }
  }

  lemma MadeIsStored(text: string, cur: string)
    requires Entry(cur, None) in Effects(Lines(text), "")
    ensures cur in ToMap(LoadSlots(text))
  {
    EmptyMeansNothing(DICTMINSZ);
    CalledIsStored(Empty(DICTMINSZ), Effects(Lines(text), ""), cur);
  }

  /**
    A name that looks like a header is lost: it could only be read behind a section with a colon, which
    only the line of a shorter such name can make current.
  */
  lemma {:induction false} HeaderLikeIsLost(s: Slots, n: string, u: string, e: Entry)
    requires Distinct(s) && RoundTrips(s) && LineSized(Occupied(s)) && n in SectionNames(Occupied(s))
    requires e in Occupied(s) && e.key == n + ":" + u
    ensures !LooksLikeHeader(u)
    decreases |u|
  {
    hide LooksLikeHeader, LineSized, Occupied, SectionNames, RoundTrips, DumpText, LoadSlots;
    NameIsEntry(Occupied(s), n);
    MapByEntries(s, n);
    SectionsThatComeBack(s, n);
    if LooksLikeHeader(u) {
      assert e.val.Some? by { ValueIsPrinted(s, n, e); }
      var cur, key := ValueWasAssigned(s, e);
      SplitBehind(n, u, cur, key);
      if cur == n {
        NameIsNoHeader(u);
      } else {
        var v := cur[|n| + 1..];
        HeaderPrefix(u, v, key);
        var e' :| e' in Occupied(s) && e'.key == cur;
        HeaderLikeIsLost(s, n, v, e');
      }
    }
  }

  lemma ValueIsPrinted(s: Slots, n: string, e: Entry)
    requires RoundTrips(s) && n in SectionNames(Occupied(s)) && e in Occupied(s) && Belongs(e.key, n)
    ensures e.val.Some?
  {
  }

  lemma NameIsNoHeader(u: string)
    requires NameOk(u)
    ensures !LooksLikeHeader(u)
  {
    BlanksIs(u, 0);
  }

  /** Two ways to split a key: the section without a colon is the shorter one. */
  lemma SplitBehind(n: string, u: string, cur: string, key: string)
    requires IsSection(n) && n != "" && n + ":" + u == cur + ":" + key
    ensures cur == n ==> u == key
    ensures cur != n ==> cur != "" && n + ":" <= cur && u == cur[|n| + 1..] + ":" + key
  {
    var k := n + ":" + u;
    assert k[|cur|] == ':' && k[|n|] == ':';
    assert forall i :: 0 <= i < |n| ==> k[i] == n[i] && n[i] in n;
    assert k[..|cur|] == cur && k[|cur| + 1..] == key && k[..|n|] == n && k[|n| + 1..] == u;
    if cur != n {
      assert |cur| > |n|;
      assert cur[..|n| + 1] == n + ":";
      assert cur == n + ":" + cur[|n| + 1..];
    }
  }

  lemma SectionIsTame(s: Slots, n: string)
    requires Distinct(s) && RoundTrips(s) && LineSized(Occupied(s)) && n in SectionNames(Occupied(s))
    ensures Tame(Occupied(s), n)
  {
    hide LooksLikeHeader, Occupied, SectionNames, RoundTrips, LineSized, OneLiners;
    var es := Occupied(s);
    SizedIsOneLine(es);
    forall e | e in es && Belongs(e.key, n)
      ensures !LooksLikeHeader(NameIn(e.key, n))
    {
      HeaderLikeIsLost(s, n, NameIn(e.key, n), e);
    }
  }

  /** The same in a file without sections, where nothing can be read in front of the first colon. */
  lemma {:induction false} PlainHeaderIsLost(s: Slots, e: Entry)
    requires Distinct(s) && RoundTrips(s) && LineSized(Occupied(s)) && SectionNames(Occupied(s)) == [] && e in Occupied(s)
    ensures !LooksLikeHeader(e.key)
    decreases |e.key|
  {
    hide LineSized, Occupied, SectionNames, DumpText, LoadSlots;
    if LooksLikeHeader(e.key) {
      var cur, key := ValueWasAssigned(s, e);
      HeaderPrefix(e.key, cur, key);
      assert cur != "";
      var e' :| e' in Occupied(s) && e'.key == cur;
      PlainHeaderIsLost(s, e');
    }
  }

  /** What is known of a dictionary that comes back: its names are fit and its file is made of FileCalls. */
  lemma FileCalls(s: Slots)
    requires Distinct(s) && RoundTrips(s) && LineSized(Occupied(s)) && SectionNames(Occupied(s)) != []
    ensures forall x :: x in Effects(Lines(DumpText(Occupied(s))), "") ==> FileCall(Occupied(s), SectionNames(Occupied(s)), x)
  {
    hide ParseLine, SectionOk, WholeLine, FileCall;
    var es := Occupied(s);
    var names := SectionNames(es);
    forall n | n in names
      ensures Tame(es, n) && IsSection(n) && SectionOk(n) && OneLine(n)
    {
      NameIsEntry(es, n);
      MapByEntries(s, n);
      SectionsThatComeBack(s, n);
      SectionIsTame(s, n);
    }
    DumpedLinesAreWhole(es);
    LinesOfText(DumpLines(es));
    BodyCalls(es, names, "");
    var body := Collect(names, SectionLines(es));
    EffectsJoin(body, ["\n"], "");
    EmptyLine();
    OneLineEffects("\n", SectionAfter(body, ""));
  }

  /** Every entry of a dictionary that comes back was set by a line of the file. */
  lemma EntryWasSet(s: Slots, e: Entry)
    requires Distinct(s) && RoundTrips(s) && e in Occupied(s)
    ensures e in Effects(Lines(DumpText(Occupied(s))), "")
  {
    hide Effects, Lines, DumpText, Dumpable, Occupied;
    MapByEntries(s, e.key);
    LoadedWasSet(DumpText(Occupied(s)), e.key);
  }

  /** Where an entry that comes back was set: under its own section, by the line of some entry of the file. */
  lemma SetByALine(s: Slots, e: Entry) returns (e': Entry)
    requires Distinct(s) && RoundTrips(s) && LineSized(Occupied(s)) && SectionNames(Occupied(s)) != []
    requires e in Occupied(s) && !IsSection(e.key)
    ensures Head(e.key) in SectionNames(Occupied(s)) && IsSection(Head(e.key)) && NameOk(Tail(e.key))
    ensures e' in Occupied(s) && CalledBy(e', Head(e.key), e)
  {
    hide ParseLine, EntryLine, NameOk, RoundTrips, LineSized, SectionNames, Effects;
    var es := Occupied(s);
    var names := SectionNames(es);
    EntryWasSet(s, e);
    FileCalls(s);
    assert FileCall(es, names, e);
    var n :| n in names && (e == Entry(n, None) || MemberCall(es, n, e));
    NameIsEntry(es, n);
    e' :| e' in es && CalledBy(e', n, e);
    OwnSection(e.key, n, ParseLine(EntryLine(NameIn(e'.key, n), ValueText(e'))).key);
    LineOfMember(es, e', n);
    AssignedNamesAreOk(EntryLine(NameIn(e'.key, n), ValueText(e')));
  }

  lemma OwnSection(key: string, n: string, name: string)
    requires IsSection(n) && key == n + ":" + name
    ensures !IsSection(key) && Head(key) == n && Tail(key) == name
  {
    assert n + ":" <= key;
    BelongsIsHead(key, n);
  }

  lemma LineOfMember(es: seq<Entry>, e: Entry, n: string)
    requires LineSized(es) && e in es && n in SectionNames(es) && Belongs(e.key, n)
    ensures |EntryLine(NameIn(e.key, n), ValueText(e))| < ASCIILINESZ
  {
    hide EntryLine;
    var names := SectionNames(es);
    var l := EntryLine(NameIn(e.key, n), ValueText(e));
    var i :| 0 <= i < |es| && es[i] == e;
    assert l in MemberLine(n)(es[i]);
    CollectIn(es, MemberLine(n), l);
    var j :| 0 <= j < |names| && names[j] == n;
    assert l in SectionLines(es)(names[j]);
    CollectIn(names, SectionLines(es), l);
    assert l in DumpLines(es);
  }

  /** An entry that comes back has a name and a value fit for its line. */
  lemma EntriesThatComeBack(s: Slots, e: Entry)
    requires Distinct(s) && RoundTrips(s) && LineSized(Occupied(s)) && SectionNames(Occupied(s)) != []
    requires e in Occupied(s) && !IsSection(e.key)
    ensures Head(e.key) in SectionNames(Occupied(s)) && EntryOk(e)
  {
    hide ParseLine, EntryLine, NameOk, ValueOk, RoundTrips, LineSized;
    SizedIsOneLine(Occupied(s));
    var n := Head(e.key);
    var e' := SetByALine(s, e);
    BelongsIsHead(e'.key, n);
    var _ := SetByALine(s, e');
    OneLineTail(e'.key);
    EntryLineParses(Tail(e'.key), ValueText(e'));
    BelongsIsHead(e.key, n);
    assert e'.key == e.key;
    OccupiedIsUnique(s);
    assert e' == e;
    ValueComesBack(ValueText(e));
  }

  // Without a section nothing is put under one, so every load adds a colon to every key.

  lemma PlainIsNoHeader(e: Entry)
    requires OneLine(e.key) && OneLine(ValueText(e)) && !LooksLikeHeader(e.key)
    ensures !ParseLine(PlainLine(e)[0]).Section?
  {
    hide ParseLine;
    var rest := " = " + ValueText(e) + "\n";
    assert PlainLine(e)[0] == e.key + rest;
    BlanksIs(rest, 1);
    NotAHeader(PlainLine(e)[0], e.key, rest);
  }

  ghost predicate PlainCall(e: Entry, x: Entry) {
    var ev := ParseLine(PlainLine(e)[0]);
    ev.Assign? && x.key == ":" + ev.key
  }

  predicate PlainTame(es: seq<Entry>) {
    OneLiners(es) && forall e :: e in es ==> !LooksLikeHeader(e.key)
  }

  lemma OnePlainCall(e: Entry)
    requires PlainTame([e])
    ensures SectionAfter(PlainLine(e), "") == ""
    ensures forall x :: x in Effects(PlainLine(e), "") ==> PlainCall(e, x)
  {
    hide ParseLine, LooksLikeHeader;
    assert e in [e];
    PlainIsNoHeader(e);
    OneLineEffects(PlainLine(e)[0], "");
    assert forall k: string :: "" + ":" + k == ":" + k;
  }

  ghost predicate PlainCallIn(es: seq<Entry>, x: Entry) {
    exists e :: e in es && PlainCall(e, x)
  }

  lemma {:induction false} PlainCalls(es: seq<Entry>)
    requires PlainTame(es)
    ensures SectionAfter(Collect(es, PlainLine), "") == ""
    ensures forall x :: x in Effects(Collect(es, PlainLine), "") ==> PlainCallIn(es, x)
  {
    hide PlainCall, Effects, SectionAfter;
    if es == [] {
      NoCalls("");
    } else {
      var before, e := es[..|es| - 1], es[|es| - 1];
      assert forall x :: x in before || x in [e] ==> x in es;
      PlainCalls(before);
      EffectsJoin(Collect(before, PlainLine), PlainLine(e), "");
      OnePlainCall(e);
      assert forall x :: PlainCall(e, x) ==> PlainCallIn(es, x);
      assert forall x :: PlainCallIn(before, x) ==> PlainCallIn(es, x);
    }
  }

  lemma PlainLineFits(es: seq<Entry>, e: Entry)
    requires LineSized(es) && SectionNames(es) == [] && e in es
    ensures |PlainLine(e)[0]| < ASCIILINESZ
  {
    var i :| 0 <= i < |es| && es[i] == e;
    var l := PlainLine(e)[0];
    assert l in PlainLine(es[i]);
    CollectIn(es, PlainLine, l);
    assert l in DumpLines(es);
  }

  /** Without a section, every key that comes back is another key of the file with a colon in front. */
  lemma SetByAPlainLine(s: Slots, e: Entry) returns (e': Entry)
    requires Distinct(s) && RoundTrips(s) && LineSized(Occupied(s)) && SectionNames(Occupied(s)) == []
    requires e in Occupied(s)
    ensures e' in Occupied(s) && PlainCall(e', e) && NameOk(ParseLine(PlainLine(e')[0]).key)
  {
    hide ParseLine, NameOk, RoundTrips, Effects, PlainTame, LineSized, Occupied;
    var es := Occupied(s);
    EntryWasSet(s, e);
    DumpedLinesAreWhole(es);
    LinesOfText(DumpLines(es));
    PlainFileIsTame(s);
    PlainCalls(es);
    assert PlainCallIn(es, e);
    e' :| e' in es && PlainCall(e', e);
    PlainLineFits(es, e');
    AssignedNamesAreOk(PlainLine(e')[0]);
  }

  lemma PlainFileIsTame(s: Slots)
    requires Distinct(s) && RoundTrips(s) && LineSized(Occupied(s)) && SectionNames(Occupied(s)) == []
    ensures PlainTame(Occupied(s))
  {
    hide LooksLikeHeader, LineSized, RoundTrips, Occupied, OneLiners;
    SizedIsOneLine(Occupied(s));
    forall e | e in Occupied(s)
      ensures !LooksLikeHeader(e.key)
    {
      PlainHeaderIsLost(s, e);
    }
  }

  /** A fit name in front of " = " is read as itself. */
  lemma PlainLineName(e: Entry)
    requires NameOk(e.key) && OneLine(e.key) && OneLine(ValueText(e)) && ParseLine(PlainLine(e)[0]).Assign?
    ensures ParseLine(PlainLine(e)[0]).key == e.key
  {
    hide Lower, Crop, ParseLine, ScanValue, CleanValue;
    var p := e.key + " ";
    var rest := " " + ValueText(e) + "\n";
    assert PlainLine(e)[0] == p + "=" + rest;
    assert p[0] == e.key[0] && (|e.key| > 1 ==> p[1] == e.key[1]);
    PairParses(p, rest);
    NameBlank(e.key);
  }

  /** So the key that sets an entry is one shorter than the entry's own. */
  lemma SetByAShorterKey(s: Slots, e: Entry) returns (e': Entry)
    requires Distinct(s) && RoundTrips(s) && LineSized(Occupied(s)) && SectionNames(Occupied(s)) == []
    requires e in Occupied(s)
    ensures e' in Occupied(s) && |e'.key| < |e.key|
  {
    hide ParseLine, RoundTrips, LooksLikeHeader, NameOk;
    e' := SetByAPlainLine(s, e);
    var e2 := SetByAPlainLine(s, e');
    PlainLineFits(Occupied(s), e');
    ColonName(ParseLine(PlainLine(e2)[0]).key);
    PlainLineName(e');
  }

  /** And so on for ever. */
  lemma {:induction false} NoPlainEntry(s: Slots, e: Entry)
    requires Distinct(s) && RoundTrips(s) && LineSized(Occupied(s)) && SectionNames(Occupied(s)) == []
    ensures e !in Occupied(s)
    decreases |e.key|
  {
    if e in Occupied(s) {
      var e' := SetByAShorterKey(s, e);
      NoPlainEntry(s, e');
    }
  }

  lemma ColonName(k: string)
    requires NameOk(k) && |k| < ASCIILINESZ
    ensures NameOk(":" + k)
  {
    assert Lower(":" + k) == ":" + k by {
      assert forall i :: 0 <= i < |k| ==> Lower(k)[i] == ToLower(k[i]);
    }
  }

  // ---------------------------------------------------------------- exactness

  /**
    Among the dictionaries whose keys, values and printed lines stay within their lines, exactly the
    printable ones come back.
  */
  lemma RoundTripExactly(s: Slots)
    requires Distinct(s) && LineSized(Occupied(s))
    ensures RoundTrips(s) <==> Printable(Occupied(s))
  {
    hide LineSized;
    var es := Occupied(s);
    if Printable(es) {
      ReadingUndoesPrinting(s);
    } else if RoundTrips(s) {
      if SectionNames(es) == [] {
        NoPlainEntry(s, es[0]);
      } else {
        forall e | e in es
          ensures EntryOk(e) && (!IsSection(e.key) ==> Head(e.key) in SectionNames(es))
        {
          if IsSection(e.key) {
            MapByEntries(s, e.key);
            SectionsThatComeBack(s, e.key);
          } else {
            EntriesThatComeBack(s, e);
          }
        }
      }
    }
  }

  // ---------------------------------------------------------------- what a file leaves in a table

  /** No header of the file has a colon in its name. */
  predicate PlainHeaders(text: string) {
    forall l :: l in Lines(text) && ParseLine(l).Section? ==> IsSection(ParseLine(l).name)
  }

  /** The first call is that of a header. */
  predicate HeaderFirst(text: string) {
    var calls := Effects(Lines(text), "");
    calls == [] || calls[0].val.None?
  }

  /** Behind a header every assignment stands behind a section that some line made current. */
  lemma {:induction false} BehindAHeader(lines: seq<string>, x: Entry) returns (l: string, cur: string)
    requires Effects(lines, "") != [] && Effects(lines, "")[0].val.None? && x in Effects(lines, "") && x.val.Some?
    ensures l in lines && ParseLine(l).Assign? && Made(lines, cur) && x.key == cur + ":" + ParseLine(l).key
  {
    hide ParseLine;
    var rest := lines[1..];
    match ParseLine(lines[0])
    case Ignore =>
      l, cur := BehindAHeader(rest, x);
    case Section(name) =>
      l := CallsAreNamed(rest, name, x);
      cur :| (cur == name || Made(rest, cur)) && x == Entry(cur + ":" + ParseLine(l).key, Some(ParseLine(l).val));
    assert forall c :: Made(rest, c) ==> Made(lines, c);
  }

  /** What a stored entry is, when no header has a colon. */
  lemma StoredEntry(text: string, e: Entry)
    requires PlainHeaders(text) && e in Occupied(LoadSlots(text))
    ensures e.val.None? ==> IsSection(e.key) && SectionOk(e.key)
    ensures e.val.Some? ==> !IsSection(e.key) && NameOk(Tail(e.key))
    ensures e.val.Some? && HeaderFirst(text) ==> Head(e.key) in SectionNames(Occupied(LoadSlots(text)))
  {
    hide ParseLine, NameOk, LoadSlots, Effects, Head, Tail, SectionOk, Occupied, SectionNames;
    LoadIsDistinct(text);
    MapByEntries(LoadSlots(text), e.key);
    LoadedWasSet(text, e.key);
    var l := CallsAreNamed(Lines(text), "", e);
    if e.val.None? {
      SectionsAreOk(l);
    } else {
      LinesBreakAtEnd(text, l);
      AssignedNamesAreOk(l);
      var cur :| (cur == "" || Made(Lines(text), cur)) && e.key == cur + ":" + ParseLine(l).key;
      OwnSection(e.key, cur, ParseLine(l).key);
      if HeaderFirst(text) {
        var l', cur' := BehindAHeader(Lines(text), e);
        OwnSection(e.key, cur', ParseLine(l').key);
        MadeIsCalled(Lines(text), "", cur');
        MadeIsStored(text, cur');
        MapByEntries(LoadSlots(text), cur');
        NameIsEntry(Occupied(LoadSlots(text)), cur');
      }
    }
  }

  lemma LoadIsDistinct(text: string)
    ensures Distinct(LoadSlots(text))
  {
    EmptyMeansNothing(DICTMINSZ);
    PutAllDistinct(Empty(DICTMINSZ), Effects(Lines(text), ""));
  }

  /** An assignment in front of every header is stored behind a bare colon, which no section owns. */
  lemma OrphanIsStored(text: string) returns (e: Entry)
    requires PlainHeaders(text) && !HeaderFirst(text)
    ensures e in Occupied(LoadSlots(text)) && !IsSection(e.key) && Head(e.key) !in SectionNames(Occupied(LoadSlots(text)))
  {
    hide ParseLine, LoadSlots, Lines, Head, Occupied, SectionNames;
    var calls := Effects(Lines(text), "");
    var key := FirstCall(Lines(text));
    EmptyMeansNothing(DICTMINSZ);
    assert calls[0] in calls;
    CalledIsStored(Empty(DICTMINSZ), calls, calls[0].key);
    LoadIsDistinct(text);
    assert LoadSlots(text) == PutAll(Empty(DICTMINSZ), calls) by { LoadIsPutAll(text); }
    MapByEntries(LoadSlots(text), calls[0].key);
    e :| e in Occupied(LoadSlots(text)) && e.key == calls[0].key;
    OwnSection(e.key, "", key);
    NameIsEntry(Occupied(LoadSlots(text)), "");
    if "" in SectionNames(Occupied(LoadSlots(text))) {
      var x :| x in Occupied(LoadSlots(text)) && x.key == "";
      StoredEntry(text, x);
      assert false;
    }
  }

  lemma LoadIsPutAll(text: string)
    ensures LoadSlots(text) == PutAll(Empty(DICTMINSZ), Effects(Lines(text), ""))
  {
  }

  lemma {:induction false} FirstCall(lines: seq<string>) returns (key: string)
    requires Effects(lines, "") != [] && Effects(lines, "")[0].val.Some?
    ensures Effects(lines, "")[0].key == "" + ":" + key
  {
    hide ParseLine;
    if ParseLine(lines[0]).Assign? {
      key := ParseLine(lines[0]).key;
    } else {
      key := FirstCall(lines[1..]);
    }
  }

  /**
    What a load makes of a file whose headers have no colon is printable exactly if every stored value is
    fit and no entry stands in front of the first header.  IniSurvival.dfy says when it survives its save.
  */
  lemma LoadedIsPrintable(text: string)
    requires PlainHeaders(text)
    ensures Printable(Occupied(LoadSlots(text))) <==>
      HeaderFirst(text) && forall e :: e in Occupied(LoadSlots(text)) && e.val.Some? ==> ValueOk(e.val.value)
  {
    hide PlainHeaders, HeaderFirst, LoadSlots, Occupied, SectionNames, Head, Tail, ValueOk, NameOk, SectionOk;
    var es := Occupied(LoadSlots(text));
    if !HeaderFirst(text) {
      var e := OrphanIsStored(text);
    } else {
      forall e | e in es
        ensures EntryOk(e) <==> e.val.Some? ==> ValueOk(e.val.value)
        ensures !IsSection(e.key) ==> Head(e.key) in SectionNames(es)
      {
        StoredEntry(text, e);
      }
      if es != [] && SectionNames(es) == [] {
        NameIsEntry(es, es[0].key);
      }
    }
  }

  // ---------------------------------------------------------------- an example

  /** One section with one setting, and a hole between them. */
  function OneSetting(v: string): Slots {
    [Some(Entry("sec", None)), None, Some(Entry("sec:key", Some(v)))]
  }

  lemma OneSettingExactly(v: string)
    requires OneLine(v) && |v| <= 900
    ensures RoundTrips(OneSetting(v)) <==> ValueOk(v)
  {
    hide RoundTrips, ValueOk, LineSized, Printable;
    OneSettingParts(v);
    RoundTripExactly(OneSetting(v));
  }

  lemma OneSettingEntries(v: string)
    ensures var s, h := Entry("sec", None), Entry("sec:key", Some(v));
      Occupied(OneSetting(v)) == [s, h] && SectionNames([s, h]) == ["sec"]
  {
    var t := OneSetting(v);
    var es := [t[0].value, t[2].value];
    CollectNext(t, 0, Cell);
    CollectNext(t, 1, Cell);
    CollectNext(t, 2, Cell);
    assert t[..3] == t;
    CollectNext(es, 0, SectionName);
    CollectNext(es, 1, SectionName);
    assert es[..2] == es;
    assert "sec:key"[3] == ':';
  }

  lemma OneSettingParts(v: string)
    requires OneLine(v) && |v| <= 900
    ensures Distinct(OneSetting(v)) && LineSized(Occupied(OneSetting(v)))
    ensures Printable(Occupied(OneSetting(v))) <==> ValueOk(v)
  {
    hide ValueOk, NameOk, SectionOk, Occupied, LineSized, SectionNames, Head, Tail;
    OneSettingEntries(v);
    OneSettingLines(v);
    assert Printable(Occupied(OneSetting(v))) <==> ValueOk(v) by {
      var s, h := Entry("sec", None), Entry("sec:key", Some(v));
      OwnSection("sec:key", "sec", "key");
      OneSettingNames();
      assert EntryOk(s) && (EntryOk(h) <==> ValueOk(v)) && Closed([s, h]);
      assert s in [s, h] && h in [s, h];
    }
  }

  lemma OneSettingNames()
    ensures NameOk("key") && SectionOk("sec") && IsSection("sec")
  {
    assert Lower("sec") == "sec" && Lower("key") == "key";
  }

  lemma OneSettingLines(v: string)
    requires OneLine(v) && |v| <= 900
    ensures LineSized([Entry("sec", None), Entry("sec:key", Some(v))])
  {
    hide EntryLine, SectionNames, Occupied, SectionLines, Belongs;
    var s, h := Entry("sec", None), Entry("sec:key", Some(v));
    OneSettingEntries(v);
    forall l | l in DumpLines([s, h])
      ensures |l| < ASCIILINESZ
    {
      CollectIn(["sec"], SectionLines([s, h]), l);
      if l in SectionLines([s, h])("sec") {
        OneSettingLine(v, l);
      }
    }
  }

  lemma OneSettingLine(v: string, l: string)
    requires l in SectionLines([Entry("sec", None), Entry("sec:key", Some(v))])("sec")
    ensures |l| <= 36 + |v|
  {
    hide EntryLine;
    var s, h := Entry("sec", None), Entry("sec:key", Some(v));
    CollectIn([s, h], MemberLine("sec"), l);
    assert !Belongs(s.key, "sec");
    if l == EntryLine("key", v) {
      EntryWidth("key", v);
    } else {
      assert NameIn(h.key, "sec") == "key" && ValueText(h) == v;
      assert l == "\n" || l == "[" + "sec" + "]\n";
    }
  }

  lemma EntryWidth(k: string, v: string)
    requires |k| <= 30
    ensures |EntryLine(k, v)| <= 36 + |v|
  {
  }

  /** It comes back exactly if its value is fit: with "a=b" it does, with the empty value it does not. */
  lemma OneSettingComesBack(v: string)
    requires OneLine(v) && |v| <= 900
    ensures RoundTrips(OneSetting(v)) <==> ValueOk(v)
    ensures RoundTrips(OneSetting("a=b")) && !RoundTrips(OneSetting(""))
  {
    hide RoundTrips, OneSetting;
    OneSettingExactly(v);
    OneSettingExactly("a=b");
    OneSettingExactly("");
  }

  /** The very text of a saved file: a blank line and a header, the name in 30 columns, quotes around a '='. */
  lemma OneSettingText(v: string)
    ensures DumpText(Occupied(OneSetting(v))) == "\n" + "[sec]\n" +
      ("key                           " + " = " + if '=' in v then "\"" + v + "\"\n" else v + "\n") + "\n"
  {
    hide DumpText, Occupied, Padded, SectionNames;
    OneSettingLineList(v);
    var es := Occupied(OneSetting(v));
    FourLines("\n", "[sec]\n", EntryLine("key", v), "\n");
    assert DumpText(es) == Flatten(DumpLines(es)) by { TextIsFlat(es); }
    KeyColumns();
  }

  lemma TextIsFlat(es: seq<Entry>)
    ensures DumpText(es) == Flatten(DumpLines(es))
  {
  }

  lemma KeyColumns()
    ensures Padded("key") == "key                           "
  {
  }

  lemma FourLines(a: string, b: string, c: string, d: string)
    ensures Flatten([a, b, c, d]) == a + b + c + d
  {
    hide Flatten;
    assert Flatten([]) == "" by { NoText(); }
    FlattenLast([], a);
    FlattenLast([a], b);
    FlattenLast([a, b], c);
    FlattenLast([a, b, c], d);
    assert [] + [a] == [a] && [a] + [b] == [a, b] && [a, b] + [c] == [a, b, c] && [a, b, c] + [d] == [a, b, c, d];
  }

  lemma NoText()
    ensures Flatten([]) == ""
  {
  }

  lemma OneSettingLineList(v: string)
    ensures DumpLines(Occupied(OneSetting(v))) == ["\n", "[sec]\n", EntryLine("key", v), "\n"]
  {
    hide EntryLine, SectionNames, Occupied;
    var s, h := Entry("sec", None), Entry("sec:key", Some(v));
    var es := [s, h];
    OneSettingEntries(v);
    CollectOne("sec", SectionLines(es));
    OneSettingMembers(v);
    assert "[" + "sec" + "]\n" == "[sec]\n";
  }

  lemma OneSettingMembers(v: string)
    ensures Collect([Entry("sec", None), Entry("sec:key", Some(v))], MemberLine("sec")) == [EntryLine("key", v)]
  {
    hide EntryLine;
    var es := [Entry("sec", None), Entry("sec:key", Some(v))];
    CollectNext(es, 0, MemberLine("sec"));
    CollectNext(es, 1, MemberLine("sec"));
    assert es[..2] == es && !Belongs("sec", "sec") && NameIn("sec:key", "sec") == "key";
  }
}
