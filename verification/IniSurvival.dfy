/**
  Which files survive their first save.  A line that is longer than the line buffer is read in chunks, so
  here a printed file is read chunk by chunk, whatever the length of its lines.
*/
module IniSurvival {
  import opened Wrappers
  import opened CStrings
  import opened Lists
  import opened SlotTable
  import opened IniText
  import opened IniLine
  import opened IniRoundTrip
  import opened IniExact

  // ---------------------------------------------------------------- chunks

  predicate Ended(a: string) {
    a == "" || a[|a| - 1] == '\n'
  }

  /** A line break ends a chunk, so the chunks of two texts are those of the one and those of the other. */
  lemma {:induction false} LinesJoin(a: string, b: string)
    requires Ended(a)
    ensures Lines(a + b) == Lines(a) + Lines(b)
    decreases |a|
  {
    hide Lines, FgetsLength;
    if a == "" {
      assert a + b == b;
      NoChunks();
    } else {
      var n := FgetsLength(a);
      FirstChunk(a, b);
      ChunkByChunk(a);
      ChunkByChunk(a + b);
      assert (a + b)[..n] == a[..n] && (a + b)[n..] == a[n..] + b;
      LinesJoin(a[n..], b);
    }
  }

  lemma ChunkByChunk(t: string)
    requires t != ""
    ensures Lines(t) == [t[..FgetsLength(t)]] + Lines(t[FgetsLength(t)..])
  {
    hide FgetsLength;
  }

  lemma FirstChunk(a: string, b: string)
    requires a != "" && Ended(a)
    ensures FgetsLength(a + b) == FgetsLength(a)
  {
    hide Until;
    var eol := Until(a, {'\n'});
    assert eol < |a|;
    assert forall i :: 0 <= i < |a| ==> (a + b)[i] == a[i];
    UntilIs(a + b, {'\n'}, eol);
  }

  lemma {:induction false} LinesOfChunks(lines: seq<string>)
    requires forall l :: l in lines ==> Ended(l)
    ensures Lines(Flatten(lines)) == Collect(lines, Lines) && Ended(Flatten(lines))
  {
    hide Lines, Flatten;
    if lines == [] {
      NoChunks();
    } else {
      var before, last := lines[..|lines| - 1], lines[|lines| - 1];
      assert lines == before + [last];
      LinesOfChunks(before);
      FlattenLast(before, last);
      LinesJoin(Flatten(before), last);
      assert last in lines;
    }
  }

  lemma NoChunks()
    ensures Flatten([]) == "" && Lines("") == []
  {
  }

  /** The chunk that fgets takes from a line first, and what it leaves. */
  function View(line: string): string {
    if line == "" then "" else line[..FgetsLength(line)]
  }

  function Left(line: string): string {
    line[|View(line)|..]
  }

  lemma ViewAndLeft(line: string, cur: string)
    requires line != ""
    ensures View(line) != ""
    ensures line == View(line) + Left(line) && Lines(line) == [View(line)] + Lines(Left(line))
    ensures Effects(Lines(line), cur) == Effects([View(line)], cur) + Effects(Lines(Left(line)), SectionAfter([View(line)], cur))
    ensures SectionAfter(Lines(line), cur) == SectionAfter(Lines(Left(line)), SectionAfter([View(line)], cur))
  {
    hide Effects, SectionAfter, FgetsLength;
    EffectsJoin([View(line)], Lines(Left(line)), cur);
  }

  // ---------------------------------------------------------------- weight

  /** Blanks, double quotes and closing brackets weigh nothing: printing adds them. */
  predicate Light(c: char) {
    IsSpace(c) || c == '"' || c == ']'
  }

  function Weight(s: string): nat {
    if s == "" then 0 else Weight(s[..|s| - 1]) + if Light(s[|s| - 1]) then 0 else 1
  }

  lemma {:induction false} WeightJoin(a: string, b: string)
    ensures Weight(a + b) == Weight(a) + Weight(b)
    decreases |b|
  {
    if b == "" {
      assert a + b == a;
    } else {
      assert (a + b)[..|a + b| - 1] == a + b[..|b| - 1];
      WeightJoin(a, b[..|b| - 1]);
    }
  }

  lemma WeightPart(s: string, i: nat, j: nat)
    requires i <= j <= |s|
    ensures Weight(s[i..j]) <= Weight(s)
  {
    assert s == s[..i] + s[i..j] + s[j..];
    WeightJoin(s[..i] + s[i..j], s[j..]);
    WeightJoin(s[..i], s[i..j]);
  }

  lemma {:induction false} NoWeight(s: string)
    ensures Weight(s) == 0 <==> forall i :: 0 <= i < |s| ==> Light(s[i])
  {
    if s != "" {
      NoWeight(s[..|s| - 1]);
    }
  }

  /** The characters of the values. */
  function Mass(es: seq<Entry>): nat {
    if es == [] then 0 else Mass(es[..|es| - 1]) + Weight(ValueText(es[|es| - 1]))
  }

  lemma {:induction false} MassJoin(a: seq<Entry>, b: seq<Entry>)
    ensures Mass(a + b) == Mass(a) + Mass(b)
    decreases |b|
  {
    if b == [] {
      assert a + b == a;
    } else {
      assert (a + b)[..|a + b| - 1] == a + b[..|b| - 1];
      MassJoin(a, b[..|b| - 1]);
    }
  }

  lemma MassOne(e: Entry)
    ensures Mass([e]) == Weight(ValueText(e))
  {
    assert [e][..0] == [];
  }

  lemma {:induction false} MassSub(a: seq<Entry>, b: seq<Entry>)
    requires multiset(a) <= multiset(b)
    ensures Mass(a) <= Mass(b)
    decreases |a|
  {
    if a != [] {
      hide Mass, Weight;
      var x, before := a[|a| - 1], a[..|a| - 1];
      assert a == before + [x];
      assert x in multiset(b);
      var i :| 0 <= i < |b| && b[i] == x;
      var rest := b[..i] + b[i + 1..];
      WithoutOne(b, i);
      assert multiset(a) == multiset(before) + multiset{x};
      forall y
        ensures multiset(before)[y] <= multiset(rest)[y]
      {
        assert multiset(a)[y] <= multiset(b)[y];
      }
      MassSub(before, rest);
      MassJoin(before, [x]);
      MassOne(x);
    }
  }

  lemma WithoutOne(b: seq<Entry>, i: nat)
    requires i < |b|
    ensures multiset(b) == multiset(b[..i] + b[i + 1..]) + multiset{b[i]}
    ensures Mass(b) == Mass(b[..i] + b[i + 1..]) + Weight(ValueText(b[i]))
  {
    hide Mass, Weight;
    assert b == b[..i] + [b[i]] + b[i + 1..];
    MassJoin(b[..i] + [b[i]], b[i + 1..]);
    MassJoin(b[..i], [b[i]]);
    MassJoin(b[..i], b[i + 1..]);
    MassOne(b[i]);
  }

  /** A scanned value is a part of the text it is scanned from. */
  lemma ScannedWeight(rest: string)
    requires ScanValue(rest).Some?
    ensures Weight(CleanValue(ScanValue(rest).value)) <= Weight(rest)
  {
    hide Until, Blanks, CropLength;
    var r, x := Skip(rest), ScanValue(rest).value;
    WeightPart(rest, Blanks(rest), |rest|);
    assert rest[Blanks(rest)..|rest|] == r;
    if x == r[..|x|] {
      WeightPart(r, 0, |x|);
      assert r[0..|x|] == x;
    } else {
      assert x == r[1..1 + |x|];
      WeightPart(r, 1, 1 + |x|);
    }
    CleanWeight(x);
  }

  lemma CleanWeight(x: string)
    ensures Weight(CleanValue(x)) <= Weight(x)
  {
    hide CropLength;
    WeightPart(x, 0, CropLength(x));
    assert x[0..CropLength(x)] == Crop(x);
  }

  /** An assignment loses its '='. */
  lemma ParsedWeight(l: string)
    requires ParseLine(l).Assign?
    ensures Weight(ParseLine(l).val) < Weight(l)
  {
    hide Until, Blanks, ScanValue, CleanValue, Lower, Crop, Weight;
    var c := CString(l);
    var w := Skip(c);
    var n := Until(w, {'='});
    var rest := w[n + 1..];
    ScannedWeight(rest);
    WeightPart(l, 0, |c|);
    assert l[0..|c|] == c;
    WeightPart(c, Blanks(c), |c|);
    assert c[Blanks(c)..|c|] == w;
    assert w == w[..n] + ("=" + rest);
    WeightJoin(w[..n], "=" + rest);
    WeightJoin("=", rest);
    assert Weight("=") == 1 by { EqualsWeighs(); }
  }

  lemma EqualsWeighs()
    ensures Weight("=") == 1
  {
    assert "="[..0] == "";
  }

  lemma ChunkMass(l: string, cur: string)
    ensures Mass(Effects([l], cur)) <= Weight(l) && (Weight(l) > 0 ==> Mass(Effects([l], cur)) < Weight(l))
  {
    hide ParseLine, Effects, Weight;
    OneLineEffects(l, cur);
    match ParseLine(l)
    case Ignore =>
    case Section(name) => assert Mass([Entry(name, None)]) == 0 by { MassOne(Entry(name, None)); EmptyWeight(); }
    case Assign(key, val) =>
      ParsedWeight(l);
      MassOne(Entry(cur + ":" + key, Some(val)));
  }

  lemma EmptyWeight()
    ensures Weight("") == 0
  {
  }

  /** However a text is cut into chunks, the values that are read weigh less than the text. */
  lemma {:induction false} ChunksMass(t: string, cur: string)
    ensures Mass(Effects(Lines(t), cur)) <= Weight(t) && (Weight(t) > 0 ==> Mass(Effects(Lines(t), cur)) < Weight(t))
    decreases |t|
  {
    if t != "" {
      hide Effects, FgetsLength, Weight, Mass;
      ViewAndLeft(t, cur);
      WeightJoin(View(t), Left(t));
      ChunkMass(View(t), cur);
      ChunksMass(Left(t), SectionAfter([View(t)], cur));
      MassJoin(Effects([View(t)], cur), Effects(Lines(Left(t)), SectionAfter([View(t)], cur)));
    }
  }

  /** A text without weight is ignored. */
  lemma {:induction false} ChunksIgnored(t: string, cur: string)
    requires Weight(t) == 0
    ensures Effects(Lines(t), cur) == [] && SectionAfter(Lines(t), cur) == cur
    decreases |t|
  {
    if t != "" {
      hide Effects, SectionAfter, FgetsLength, Weight, ParseLine;
      ViewAndLeft(t, cur);
      WeightJoin(View(t), Left(t));
      ChunkIgnored(View(t));
      OneLineEffects(View(t), cur);
      ChunksIgnored(Left(t), cur);
    }
  }

  lemma ChunkIgnored(l: string)
    requires Weight(l) == 0
    ensures ParseLine(l) == Ignore
  {
    hide Until, Blanks, Weight, ScanValue;
    NoWeight(l);
    var w := Skip(CString(l));
    assert forall i :: 0 <= i < |w| ==> w[i] in l && Light(w[i]);
    if w != "" {
      assert !IsSpace(w[0]) && (w[0] == '"' || w[0] == ']');
      assert Until(w, {'='}) == |w|;
    }
  }

  // ---------------------------------------------------------------- the line of an entry

  /** A name and a value as they stand in a line of a file. */
  predicate Fetched(k: string, v: string) {
    NameOk(k) && OneLine(k) && OneLine(v) && |k| <= 1021 && |k| + 1 + |v| < ASCIILINESZ
  }

  /** What stands behind the '=' in the first chunk of the printed line. */
  function Behind(k: string, v: string): (y: string)
    ensures y <= " " + Rendered(v)
  {
    var x := " " + Rendered(v);
    x[..if |Padded(k)| + 2 + |x| < ASCIILINESZ then |x| else if |Padded(k)| <= 1021 then 1021 - |Padded(k)| else 0]
  }

  lemma ViewOfEntry(k: string, v: string)
    requires Fetched(k, v)
    ensures View(EntryLine(k, v)) == Padded(k) + " " + "=" + Behind(k, v)
    ensures Behind(k, v) + Left(EntryLine(k, v)) == " " + Rendered(v)
  {
    hide Until, NameOk, FgetsLength, Padded, Rendered;
    var d, p, x, y := EntryLine(k, v), Padded(k) + " ", " " + Rendered(v), Behind(k, v);
    NoBreakInside(k, v);
    assert d == (p + "=") + x;
    OneBreak(d);
    ViewSplits(p + "=", x, y, FgetsLength(d));
  }

  lemma ViewSplits(p: string, x: string, y: string, n: nat)
    requires y <= x && n == |p| + |y|
    ensures (p + x)[..n] == p + y && y + (p + x)[n..] == x
  {
    assert x == y + x[|y|..];
    assert p + x == (p + y) + x[|y|..];
  }

  /** The length of the first chunk of a line. */
  lemma OneBreak(d: string)
    requires d != "" && d[|d| - 1] == '\n' && forall i :: 0 <= i < |d| - 1 ==> d[i] != '\n'
    ensures FgetsLength(d) == if |d| < ASCIILINESZ then |d| else ASCIILINESZ - 1
  {
    UntilIs(d, {'\n'}, |d| - 1);
  }

  lemma NoBreakInside(k: string, v: string)
    requires OneLine(k) && OneLine(v)
    ensures var d := EntryLine(k, v);
      d != "" && d[|d| - 1] == '\n' && forall i :: 0 <= i < |d| - 1 ==> d[i] != '\n'
  {
    var d, p, r := EntryLine(k, v), Padded(k), Rendered(v);
    assert forall i :: 0 <= i < |p| ==> p[i] != '\n';
    assert forall i :: 0 <= i < |r| - 1 ==> r[i] != '\n';
    assert d == (p + " = ") + r;
    assert forall i :: |p| + 3 <= i < |d| ==> d[i] == r[i - |p| - 3];
  }

  lemma ViewParses(k: string, v: string)
    requires Fetched(k, v)
    ensures var y := Behind(k, v);
      ParseLine(View(EntryLine(k, v))) == if ScanValue(y).Some? then Assign(k, CleanValue(ScanValue(y).value)) else Ignore
  {
    hide Lower, Crop, ParseLine, ScanValue, CleanValue, Behind, View, Left, EntryLine;
    var p, y := Padded(k) + " ", Behind(k, v);
    ViewOfEntry(k, v);
    PaddedName(k);
    assert p[0] == k[0] && (|k| > 1 ==> p[1] == k[1]);
    RenderedHasNoNul(v);
    assert forall c :: c in y ==> c in " " + Rendered(v);
    PairParses(p, y);
  }

  /** Reading the line of an entry, chunk by chunk: what is left may only be blanks and quotes, or the value loses weight. */
  lemma EntryMass(k: string, v: string, cur: string)
    requires Fetched(k, v)
    ensures Mass(Effects(Lines(EntryLine(k, v)), cur)) <= Weight(v)
    ensures Weight(Left(EntryLine(k, v))) > 0 ==> Mass(Effects(Lines(EntryLine(k, v)), cur)) < Weight(v)
  {
    hide Effects, SectionAfter, ParseLine, View, Left, Weight, Behind, EntryLine, ScanValue, CleanValue, Lines;
    var d, y := EntryLine(k, v), Behind(k, v);
    assert d != "" by { LineNotEmpty(k, v); }
    ViewOfEntry(k, v);
    ViewAndLeft(d, cur);
    ViewParses(k, v);
    OneLineEffects(View(d), cur);
    ChunksMass(Left(d), SectionAfter([View(d)], cur));
    MassJoin(Effects([View(d)], cur), Effects(Lines(Left(d)), SectionAfter([View(d)], cur)));
    WeightJoin(y, Left(d));
    RenderedWeight(v);
    if ScanValue(y).Some? {
      ScannedWeight(y);
      MassOne(Entry(cur + ":" + k, Some(CleanValue(ScanValue(y).value))));
    }
  }

  lemma LineNotEmpty(k: string, v: string)
    ensures EntryLine(k, v) != ""
  {
  }

  lemma RenderedWeight(v: string)
    ensures Weight(" " + Rendered(v)) == Weight(v)
  {
    hide Weight;
    LightOne();
    WeightJoin([' '], Rendered(v));
    if '=' in v {
      assert Rendered(v) == ['"'] + v + (['"'] + ['\n']);
      WeightJoin(['"'] + v, ['"'] + ['\n']);
      WeightJoin(['"'], v);
      WeightJoin(['"'], ['\n']);
    } else {
      WeightJoin(v, ['\n']);
    }
  }

  lemma LightOne()
    ensures forall c: char :: Light(c) ==> Weight([c]) == 0
  {
    assert forall c: char :: [c][..0] == "";
  }

  // ---------------------------------------------------------------- exactly when an entry survives

  /** A value that is fit when the line break behind it is cut off. */
  predicate EndOk(v: string) {
    && v != ""
    && !IsSpace(v[0]) && !IsSpace(v[|v| - 1])
    && ';' !in v && '#' !in v
    && (v[0] == '"' || v[0] == '\'' ==> |v| == 1 || (v[1] == v[0] && |v| > 2))
  }

  /** The printed line is not cut inside the value, and the value is fit for what is left of the line. */
  predicate Survives(k: string, v: string) {
    var n := |Padded(k)| + 3 + |v|;
    if '=' in v then ValueOk(v) && n + 1 < ASCIILINESZ
    else if n + 1 < ASCIILINESZ then ValueOk(v)
    else EndOk(v) && n < ASCIILINESZ
  }

  lemma ViewReadsBack(k: string, v: string)
    requires Fetched(k, v)
    ensures ParseLine(View(EntryLine(k, v))) == Assign(k, v) <==> Survives(k, v)
  {
    hide ParseLine, View, EntryLine, ScanValue, CleanValue, NameOk, ValueOk, EndOk;
    var x, y := " " + Rendered(v), Behind(k, v);
    ViewParses(k, v);
    ValueComesBack(v);
    if y == x {
    } else if '=' in v {
      QuotedPart(v, y);
    } else {
      assert x == " " + v + "\n";
      assert |y| <= |v| + 1;
      if |y| == |v| + 1 {
        assert y == " " + v;
        BareEnd(v);
      } else {
        ShortScan(y);
      }
    }
  }

  /** A value is no longer than what it is scanned from, without the blank in front. */
  lemma ShortScan(y: string)
    requires y != "" ==> y[0] == ' '
    ensures ScanValue(y).Some? ==> |CleanValue(ScanValue(y).value)| < |y|
  {
    hide Until, Blanks, CropLength, CleanValue;
    if ScanValue(y).Some? {
      CleanLength(ScanValue(y).value);
      assert y != "" && Blanks(y) > 0 by { Indented(y); }
    }
  }

  lemma Indented(y: string)
    requires (y != "" ==> y[0] == ' ') && ScanValue(y).Some?
    ensures y != "" && Blanks(y) > 0
  {
  }

  /** A bare value at the end of a chunk. */
  lemma BareEnd(v: string)
    requires '=' !in v && OneLine(v)
    ensures ScanValue(" " + v).Some? && CleanValue(ScanValue(" " + v).value) == v <==> EndOk(v)
  {
    hide Until, Blanks, CropLength, CleanValue, Crop;
    var b := Blanks(v);
    if b == |v| {
      SkipIs(" " + v, |v| + 1);
      assert v != "" ==> IsSpace(v[0]);
    } else {
      SkipIs(" " + v, 1 + b);
      assert (" " + v)[1 + b..] == v[b..];
      if b > 0 {
        assert IsSpace(v[0]);
        if ScanValue(" " + v).Some? {
          CleanLength(ScanValue(" " + v).value);
        }
      } else {
        assert v[0..] == v && Skip(" " + v) == v;
        BareAtEnd(v);
      }
    }
  }

  lemma BareAtEnd(v: string)
    requires v != "" && !IsSpace(v[0]) && Skip(" " + v) == v
    ensures ScanValue(" " + v).Some? && CleanValue(ScanValue(" " + v).value) == v <==> EndOk(v)
  {
    hide Until, Blanks, CropLength, Crop, Skip;
    assert |v| > 1 ==> v[1..][0] == v[1];
    if Quoted(v, '"').Some? {
      CleanLength(Quoted(v, '"').value);
    } else if Quoted(v, '\'').Some? {
      CleanLength(Quoted(v, '\'').value);
    } else {
      var m := Until(v, {';', '#'});
      assert ScanValue(" " + v) == Bare(v);
      if m < |v| {
        assert v[m] in v;
        CleanLength(v[..m]);
      } else {
        assert v[..m] == v;
        CropWhole(v);
        assert forall c :: c in v ==> c != ';' && c != '#' by { NoneOfThese(v); }
      }
    }
  }

  lemma NoneOfThese(v: string)
    requires Until(v, {';', '#'}) == |v|
    ensures forall c :: c in v ==> c != ';' && c != '#'
  {
  }

  /** A quoted value whose closing quote may be cut off: it is read exactly if it is fit and whole. */
  lemma QuotedPart(v: string, y: string)
    requires '=' in v && OneLine(v) && y <= " " + Rendered(v)
    ensures ScanValue(y).Some? && CleanValue(ScanValue(y).value) == v <==> ValueOk(v) && |y| >= |v| + 2
  {
    hide Until, Blanks, CropLength, Crop, CleanValue;
    var full := "\"" + v + "\"\n";
    assert " " + Rendered(v) == " " + full;
    if |y| <= 1 {
      ShortScan(y);
    } else {
      var r := full[..|y| - 1];
      assert y == " " + r && r[0] == '"';
      SkipIs(y, 1);
      assert y[1..] == r;
      QuotedRun(v, r);
    }
  }

  lemma QuotedRun(v: string, r: string)
    requires '=' in v && r != "" && r <= "\"" + v + "\"\n"
    ensures var x := if Quoted(r, '"').Some? then Quoted(r, '"') else Bare(r);
      x.Some? && CleanValue(x.value) == v <==> ValueOk(v) && |r| >= |v| + 1
  {
    hide Until, CropLength, Crop, CleanValue, Quoted, Bare;
    var full := "\"" + v + "\"\n";
    assert forall i :: 0 <= i < |v| ==> full[i + 1] == v[i];
    var t := r[1..];
    assert forall i :: 0 <= i < |t| && i < |v| ==> t[i] == v[i];
    assert |t| > |v| ==> t[|v|] == '"';
    if Quoted(r, '"').Some? {
      RunIsWhole(v, r, t);
    } else {
      NotQuoted(v, r, t);
      if Bare(r).Some? {
        var x := Bare(r).value;
        assert x <= full by { BareIsPart(r); }
        var c := |CleanValue(x)|;
        CleanLength(x);
        if c > 0 {
          assert CleanValue(x) == full[..c] by { CropPrefix(x, full); }
          ShiftedPrefix(v, full, c);
        }
      }
    }
  }

  lemma RunIsWhole(v: string, r: string, t: string)
    requires '=' in v && r != "" && t == r[1..] && Quoted(r, '"').Some?
    requires (forall i :: 0 <= i < |t| && i < |v| ==> t[i] == v[i]) && (|t| > |v| ==> t[|v|] == '"')
    ensures CleanValue(Quoted(r, '"').value) == v <==> ValueOk(v) && |t| >= |v|
  {
    hide Until, CropLength, Crop;
    var m := Until(t, {'"'});
    assert r[1..1 + m] == t[..m];
    CleanLength(t[..m]);
    if m < |v| {
      assert m < |t| ==> v[m] in v;
    } else {
      assert m == |v| && t[..m] == v;
      CropWhole(v);
      assert '"' !in v by { assert forall i :: 0 <= i < m ==> t[i] != '"'; }
    }
  }

  lemma NotQuoted(v: string, r: string, t: string)
    requires '=' in v && r != "" && r[0] == '"' && t == r[1..] && Quoted(r, '"').None?
    requires forall i :: 0 <= i < |t| && i < |v| ==> t[i] == v[i]
    ensures ValueOk(v) ==> |t| < |v|
  {
    hide Until;
    assert t != "" ==> t[0] == '"';
  }

  lemma BareIsPart(r: string)
    requires Bare(r).Some?
    ensures Bare(r).value <= r
  {
  }

  lemma CropPrefix(x: string, full: string)
    requires x <= full && CleanValue(x) != ""
    ensures CleanValue(x) == full[..|CleanValue(x)|]
  {
  }

  // ---------------------------------------------------------------- a printed file, chunk by chunk

  /** What a file can leave in a table. */
  predicate Loadable(e: Entry) {
    if IsSection(e.key) then
      e.val.None? && SectionOk(e.key) && '\0' !in e.key && BreaksAtEnd(e.key) && |e.key| <= 1022
    else
      e.val.Some? && Fetched(Tail(e.key), e.val.value)
  }

  /** The first chunk of an entry's line is all that is read of it. */
  predicate Quiet(e: Entry) {
    IsSection(e.key) || Weight(Left(EntryLine(Tail(e.key), ValueText(e)))) == 0
  }

  lemma HeaderChunks(n: string, cur: string)
    requires Loadable(Entry(n, None)) && IsSection(n)
    ensures Effects(Lines("[" + n + "]\n"), cur) == [Entry(n, None)] && SectionAfter(Lines("[" + n + "]\n"), cur) == n
  {
    hide Effects, SectionAfter, ParseLine, SectionOk, FgetsLength, Weight;
    var d := "[" + n + "]\n";
    HeaderLength(n);
    ViewAndLeft(d, cur);
    var t := View(d)[|n| + 1..];
    assert View(d) == "[" + n + t && t <= "]\n";
    HeaderView(n, t);
    OneLineEffects(View(d), cur);
    assert Weight(Left(d)) == 0 by {
      assert forall i :: 0 <= i < |Left(d)| ==> Light(Left(d)[i]) by {
        assert forall i :: 0 <= i < |Left(d)| ==> Left(d)[i] == d[|View(d)| + i];
      }
      NoWeight(Left(d));
    }
    ChunksIgnored(Left(d), n);
  }

  lemma HeaderLength(n: string)
    requires BreaksAtEnd(n) && |n| <= 1022
    ensures FgetsLength("[" + n + "]\n") >= |n| + 1
  {
    hide Until;
    var d := "[" + n + "]\n";
    var eol := Until(d, {'\n'});
    assert forall i :: 0 < i < |n| ==> d[i] == n[i - 1] && d[i] != '\n';
    assert eol < |d| ==> d[eol] == '\n';
  }

  /** A header is read whether its bracket or its line break was cut off or not. */
  lemma HeaderView(n: string, t: string)
    requires SectionOk(n) && '\0' !in n && t <= "]\n"
    ensures ParseLine("[" + n + t) == Section(n)
  {
    hide Until, Blanks, Lower, ScanEntry, ScanSection, CString, Skip;
    var w := "[" + n + t;
    CStringOf(w);
    SkipIs(w, 0);
    assert w[0..] == w && w[0] == '[';
    HeaderScan(n, t);
  }

  lemma HeaderScan(n: string, t: string)
    requires n != "" && ']' !in n && t <= "]\n"
    ensures ScanSection("[" + n + t) == Some(n)
  {
    hide Until;
    var w := "[" + n + t;
    assert w[1..] == n + t;
    assert forall i :: 0 <= i < |n| ==> (n + t)[i] == n[i] && n[i] in n;
    assert t != "" ==> (n + t)[|n|] == ']';
    UntilIs(n + t, {']'}, |n|);
    assert w[1..1 + |n|] == n;
  }

  function MemberChunks(es: seq<Entry>, n: string): seq<string> {
    Collect(Collect(es, MemberLine(n)), Lines)
  }

  /** What is read of an entry's line under section `n`. */
  function Reading(n: string): Entry -> seq<Entry> {
    (e: Entry) => if Belongs(e.key, n) then Effects([View(EntryLine(NameIn(e.key, n), ValueText(e)))], n) else []
  }

  function ReadBlock(es: seq<Entry>): string -> seq<Entry> {
    (n: string) => [Entry(n, None)] + Collect(es, Reading(n))
  }

  lemma LastMember(es: seq<Entry>, n: string)
    requires es != []
    ensures var before, e := es[..|es| - 1], es[|es| - 1];
      MemberChunks(es, n) == MemberChunks(before, n) +
        if Belongs(e.key, n) then Lines(EntryLine(NameIn(e.key, n), ValueText(e))) else []
  {
    hide Lines, EntryLine, Belongs, NameIn;
    var before, e := es[..|es| - 1], es[|es| - 1];
    CollectJoin(Collect(before, MemberLine(n)), MemberLine(n)(e), Lines);
    if Belongs(e.key, n) {
      CollectOne(EntryLine(NameIn(e.key, n), ValueText(e)), Lines);
    }
  }

  lemma OneReading(e: Entry, n: string)
    requires IsSection(n) && Belongs(e.key, n) && Loadable(e) && Quiet(e)
    ensures var d := EntryLine(NameIn(e.key, n), ValueText(e));
      Effects(Lines(d), n) == Effects([View(d)], n) && SectionAfter(Lines(d), n) == n
  {
    hide Effects, SectionAfter, ParseLine, View, Weight, Behind, EntryLine, ScanValue, CleanValue, Lines, NameOk, Left;
    BelongsIsHead(e.key, n);
    var k, v := Tail(e.key), e.val.value;
    var d := EntryLine(k, v);
    assert d != "" by { LineNotEmpty(k, v); }
    ViewAndLeft(d, n);
    ViewParses(k, v);
    OneLineEffects(View(d), n);
    ChunksIgnored(Left(d), n);
  }

  lemma {:induction false} MemberReads(es: seq<Entry>, n: string)
    requires IsSection(n) && forall e :: e in es && Belongs(e.key, n) ==> Loadable(e) && Quiet(e)
    ensures Effects(MemberChunks(es, n), n) == Collect(es, Reading(n)) && SectionAfter(MemberChunks(es, n), n) == n
  {
    hide Belongs, Loadable, Quiet, View, EntryLine, NameIn, Effects, SectionAfter, Lines, MemberChunks;
    if es == [] {
      NoMembers(n);
    } else {
      var before, e := es[..|es| - 1], es[|es| - 1];
      MemberReads(before, n);
      LastMember(es, n);
      if Belongs(e.key, n) {
        OneReading(e, n);
        EffectsJoin(MemberChunks(before, n), Lines(EntryLine(NameIn(e.key, n), ValueText(e))), n);
      } else {
        assert MemberChunks(before, n) + [] == MemberChunks(before, n);
      }
    }
  }

  lemma NoMembers(n: string)
    ensures MemberChunks([], n) == [] && Effects([], n) == [] && SectionAfter([], n) == n
  {
  }

  /** Reading the entries of a section gives no more than they weigh, and less if a line is cut inside its value. */
  lemma {:induction false} MemberMass(es: seq<Entry>, n: string, cur: string)
    requires IsSection(n) && forall e :: e in es && Belongs(e.key, n) ==> Loadable(e)
    ensures Mass(Effects(MemberChunks(es, n), cur)) <= Mass(Collect(es, Member(n)))
    ensures (exists e :: e in es && Belongs(e.key, n) && !Quiet(e)) ==> Mass(Effects(MemberChunks(es, n), cur)) < Mass(Collect(es, Member(n)))
  {
    hide Belongs, Loadable, Quiet, EntryLine, NameIn, Effects, SectionAfter, Lines, MemberChunks, Mass, Weight;
    if es == [] {
      NoMembers(cur);
      assert MemberChunks([], n) == [] by { NoMembers(n); }
      assert Effects([], cur) == [];
    } else {
      var before, e := es[..|es| - 1], es[|es| - 1];
      MemberMass(before, n, cur);
      LastMember(es, n);
      assert forall x :: x in es ==> x in before || x == e;
      MassJoin(Collect(before, Member(n)), Member(n)(e));
      if Belongs(e.key, n) {
        var d := EntryLine(NameIn(e.key, n), ValueText(e));
        var after := SectionAfter(MemberChunks(before, n), cur);
        EffectsJoin(MemberChunks(before, n), Lines(d), cur);
        MassJoin(Effects(MemberChunks(before, n), cur), Effects(Lines(d), after));
        OneMass(e, n, after);
        MassOne(e);
      } else {
        assert MemberChunks(before, n) + [] == MemberChunks(before, n);
        assert Collect(before, Member(n)) + [] == Collect(before, Member(n));
      }
    }
  }

  lemma OneMass(e: Entry, n: string, cur: string)
    requires IsSection(n) && Belongs(e.key, n) && Loadable(e)
    ensures var d := EntryLine(NameIn(e.key, n), ValueText(e));
      Mass(Effects(Lines(d), cur)) <= Weight(ValueText(e)) && (!Quiet(e) ==> Mass(Effects(Lines(d), cur)) < Weight(ValueText(e)))
  {
    hide Effects, Lines, Weight, EntryLine, Fetched;
    BelongsIsHead(e.key, n);
    EntryMass(Tail(e.key), e.val.value, cur);
  }

  /** The two lines of a header. */
  lemma SectionStart(es: seq<Entry>, n: string, cur: string)
    requires Loadable(Entry(n, None)) && IsSection(n)
    ensures var ds := Collect(SectionLines(es)(n), Lines);
      && Effects(ds, cur) == [Entry(n, None)] + Effects(MemberChunks(es, n), n)
      && SectionAfter(ds, cur) == SectionAfter(MemberChunks(es, n), n)
  {
    hide Effects, SectionAfter, Lines, Loadable;
    var blank, header := "\n", "[" + n + "]\n";
    var members := Collect(es, MemberLine(n));
    CollectJoin([blank, header], members, Lines);
    assert [blank, header] == [blank] + [header];
    CollectJoin([blank], [header], Lines);
    CollectOne(blank, Lines);
    CollectOne(header, Lines);
    assert Weight(blank) == 0 by { NoWeight(blank); }
    ChunksIgnored(blank, cur);
    HeaderChunks(n, cur);
    EffectsJoin(Lines(blank), Lines(header), cur);
    EffectsJoin(Lines(blank) + Lines(header), MemberChunks(es, n), cur);
  }

  lemma {:induction false} BodyReads(es: seq<Entry>, names: seq<string>, cur: string)
    requires forall n :: n in names ==> IsSection(n) && Loadable(Entry(n, None))
    requires forall e :: e in es ==> Loadable(e) && Quiet(e)
    ensures Effects(Collect(Collect(names, SectionLines(es)), Lines), cur) == Collect(names, ReadBlock(es))
  {
    hide Loadable, Quiet, Effects, SectionAfter, Lines, SectionLines, MemberChunks, Reading;
    if names == [] {
      NoMembers(cur);
    } else {
      var n, before := names[|names| - 1], names[..|names| - 1];
      BodyReads(es, before, cur);
      CollectJoin(Collect(before, SectionLines(es)), SectionLines(es)(n), Lines);
      var after := SectionAfter(Collect(Collect(before, SectionLines(es)), Lines), cur);
      EffectsJoin(Collect(Collect(before, SectionLines(es)), Lines), Collect(SectionLines(es)(n), Lines), cur);
      SectionStart(es, n, after);
      MemberReads(es, n);
    }
  }

  lemma {:induction false} BodyMass(es: seq<Entry>, names: seq<string>, cur: string)
    requires forall n :: n in names ==> IsSection(n) && Loadable(Entry(n, None))
    requires forall e :: e in es ==> Loadable(e)
    ensures var read := Effects(Collect(Collect(names, SectionLines(es)), Lines), cur);
      && Mass(read) <= Mass(Collect(names, Block(es)))
      && ((exists n, e :: n in names && e in es && Belongs(e.key, n) && !Quiet(e)) ==> Mass(read) < Mass(Collect(names, Block(es))))
  {
    hide Loadable, Quiet, Effects, SectionAfter, Lines, SectionLines, MemberChunks, Mass, Weight, Belongs;
    if names == [] {
      NoMembers(cur);
    } else {
      var n, before := names[|names| - 1], names[..|names| - 1];
      BodyMass(es, before, cur);
      CollectJoin(Collect(before, SectionLines(es)), SectionLines(es)(n), Lines);
      var after := SectionAfter(Collect(Collect(before, SectionLines(es)), Lines), cur);
      EffectsJoin(Collect(Collect(before, SectionLines(es)), Lines), Collect(SectionLines(es)(n), Lines), cur);
      SectionStart(es, n, after);
      MemberMass(es, n, n);
      MassJoin(Effects(Collect(Collect(before, SectionLines(es)), Lines), cur), Effects(Collect(SectionLines(es)(n), Lines), after));
      MassJoin([Entry(n, None)], Effects(MemberChunks(es, n), n));
      MassJoin(Collect(before, Block(es)), Block(es)(n));
      MassJoin([Entry(n, None)], Collect(es, Member(n)));
      assert forall x :: x in names ==> x in before || x == n;
    }
  }

  // ---------------------------------------------------------------- what a file leaves in a table

  lemma SectionSizes(l: string)
    requires |l| < ASCIILINESZ && BreaksAtEnd(l) && ParseLine(l).Section?
    ensures var n := ParseLine(l).name;
      '\0' !in n && BreaksAtEnd(n) && |n| <= 1022
  {
    hide Until, Blanks;
    var c := CString(l);
    var w := Skip(c);
    var x := ScanSection(w).value;
    assert forall i :: 0 <= i < |w| ==> w[i] == l[Blanks(c) + i] && w[i] != '\0';
    assert forall i :: 0 <= i < |x| ==> x[i] == w[i + 1];
  }

  lemma AssignSizes(l: string)
    requires |l| < ASCIILINESZ && BreaksAtEnd(l) && ParseLine(l).Assign?
    ensures Fetched(ParseLine(l).key, ParseLine(l).val)
  {
    hide Until, Blanks, ScanValue, CleanValue, NameOk, Lower, Crop, ParseLine;
    AssignedNamesAreOk(l);
    ReadValueHasNoBreak(l);
    var w, n := AssignParts(l);
    ScannedPart(w[n + 1..]);
    CroppedName(w[..n]);
    assert forall i :: 0 <= i < n ==> w[..n][i] == w[i] && w[i] != '\n';
  }

  lemma AssignParts(l: string) returns (w: string, n: nat)
    requires |l| < ASCIILINESZ && BreaksAtEnd(l) && ParseLine(l).Assign?
    ensures |w| <= |l| && 0 < n < |w| && '\0' !in w && BreaksAtEnd(w) && ScanValue(w[n + 1..]).Some?
    ensures ParseLine(l) == Assign(Lower(Crop(w[..n])), CleanValue(ScanValue(w[n + 1..]).value))
  {
    hide Until, Blanks, ScanValue, CleanValue, Lower, Crop;
    var c := CString(l);
    w := Skip(c);
    n := Until(w, {'='});
    assert forall i :: 0 <= i < |w| ==> w[i] == l[Blanks(c) + i] && w[i] != '\0';
  }

  lemma ScannedPart(rest: string)
    requires ScanValue(rest).Some?
    ensures var v := CleanValue(ScanValue(rest).value);
      rest != "" && |v| <= |rest| && forall c :: c in v ==> c in rest
  {
    hide Until, Blanks, CropLength, CleanValue;
    CleanLength(ScanValue(rest).value);
    var r := Skip(rest);
    assert forall i :: 0 <= i < |r| ==> r[i] in rest;
    assert forall c :: c in ScanValue(rest).value ==> c in r;
  }

  lemma CroppedName(p: string)
    ensures var k := Lower(Crop(p));
      |k| <= |p| && ('\n' !in p ==> '\n' !in k) && ('\0' !in p ==> '\0' !in k)
  {
    hide CropLength;
    var k := Lower(Crop(p));
    assert forall i :: 0 <= i < |k| ==> k[i] == ToLower(p[i]) && p[i] in p;
  }

  lemma LoadedIsLoadable(text: string, e: Entry)
    requires PlainHeaders(text) && e in Occupied(LoadSlots(text))
    ensures Loadable(e)
  {
    hide ParseLine, LoadSlots, Effects, Head, Tail, Occupied, Fetched, SectionOk;
    StoredEntry(text, e);
    LoadIsDistinct(text);
    MapByEntries(LoadSlots(text), e.key);
    LoadedWasSet(text, e.key);
    var l := CallsAreNamed(Lines(text), "", e);
    LinesBreakAtEnd(text, l);
    if e.val.None? {
      SectionSizes(l);
    } else {
      AssignSizes(l);
      var cur :| (cur == "" || Made(Lines(text), cur)) && e.key == cur + ":" + ParseLine(l).key;
      assert IsSection(cur) by { MadeIsPlain(text, cur); }
      OwnSection(e.key, cur, ParseLine(l).key);
    }
  }

  lemma MadeIsPlain(text: string, cur: string)
    requires PlainHeaders(text) && (cur == "" || Made(Lines(text), cur))
    ensures IsSection(cur)
  {
  }

  // ---------------------------------------------------------------- the printed file as a whole

  lemma DumpLinesEnd(es: seq<Entry>, d: string)
    requires d in DumpLines(es)
    ensures d != "" && Ended(d)
  {
    hide Padded, SectionNames, EntryLine;
    var names := SectionNames(es);
    if names == [] {
      CollectIn(es, PlainLine, d);
    } else if d != "\n" {
      CollectIn(names, SectionLines(es), d);
      var i :| 0 <= i < |names| && d in SectionLines(es)(names[i]);
      SectionLineEnds(es, names[i], d);
    }
  }

  lemma SectionLineEnds(es: seq<Entry>, n: string, d: string)
    requires d in SectionLines(es)(n)
    ensures d != "" && Ended(d)
  {
    hide EntryLine, NameIn;
    CollectIn(es, MemberLine(n), d);
    if d in Collect(es, MemberLine(n)) {
      var i :| 0 <= i < |es| && d in MemberLine(n)(es[i]);
      EntryLineEnds(NameIn(es[i].key, n), ValueText(es[i]));
    }
  }

  lemma EntryLineEnds(k: string, v: string)
    ensures EntryLine(k, v) != "" && Ended(EntryLine(k, v))
  {
  }

  lemma FileEffects(es: seq<Entry>)
    requires SectionNames(es) != []
    ensures Effects(Lines(DumpText(es)), "") == Effects(Collect(Collect(SectionNames(es), SectionLines(es)), Lines), "")
  {
    hide Effects, SectionAfter, Lines, SectionLines, Weight;
    var body := Collect(SectionNames(es), SectionLines(es));
    assert DumpLines(es) == body + ["\n"];
    forall d | d in DumpLines(es)
      ensures Ended(d)
    {
      DumpLinesEnd(es, d);
    }
    LinesOfChunks(DumpLines(es));
    CollectJoin(body, ["\n"], Lines);
    CollectOne("\n", Lines);
    EffectsJoin(Collect(body, Lines), Lines("\n"), "");
    assert Weight("\n") == 0 by { NoWeight("\n"); }
    ChunksIgnored("\n", SectionAfter(Collect(body, Lines), ""));
  }

  lemma StartsWithHeader(es: seq<Entry>)
    requires SectionNames(es) != [] && forall n :: n in SectionNames(es) ==> IsSection(n) && Loadable(Entry(n, None))
    ensures Effects(Lines(DumpText(es)), "") != [] && Effects(Lines(DumpText(es)), "")[0].val.None?
  {
    hide Effects, SectionAfter, Lines, SectionLines, SectionNames, Loadable;
    var names := SectionNames(es);
    var n, rest := names[0], names[1..];
    assert names == [n] + rest;
    FileEffects(es);
    CollectJoin([n], rest, SectionLines(es));
    CollectOne(n, SectionLines(es));
    CollectJoin(SectionLines(es)(n), Collect(rest, SectionLines(es)), Lines);
    EffectsJoin(Collect(SectionLines(es)(n), Lines), Collect(Collect(rest, SectionLines(es)), Lines), "");
    SectionStart(es, n, "");
  }

  /** The sections of a loaded file can be printed and read again. */
  lemma LoadedSections(text: string, n: string)
    requires PlainHeaders(text) && n in SectionNames(Occupied(LoadSlots(text)))
    ensures IsSection(n) && Loadable(Entry(n, None)) && Entry(n, None) in Occupied(LoadSlots(text))
  {
    hide LoadSlots, Occupied, SectionNames, Loadable;
    var es := Occupied(LoadSlots(text));
    NameIsEntry(es, n);
    var e :| e in es && e.key == n;
    LoadedIsLoadable(text, e);
    StoredEntry(text, e);
  }

  // ---------------------------------------------------------------- necessity

  /** An entry that precedes every header is lost in a file with a header. */
  lemma {:induction false} OrphanIsLost(text: string, e: Entry)
    requires PlainHeaders(text) && RoundTrips(LoadSlots(text)) && SectionNames(Occupied(LoadSlots(text))) != []
    requires e in Occupied(LoadSlots(text))
    ensures e.key == "" || e.key[0] != ':'
    decreases |e.key|
  {
    if e.key != "" && e.key[0] == ':' {
      hide ParseLine, LoadSlots, Effects, Occupied, SectionNames, DumpText, RoundTrips, Loadable;
      var s, dump := LoadSlots(text), DumpText(Occupied(LoadSlots(text)));
      assert e.val.Some? by { assert ':' in e.key; StoredEntry(text, e); }
      LoadIsDistinct(text);
      EntryWasSet(s, e);
      forall n | n in SectionNames(Occupied(s))
        ensures IsSection(n) && Loadable(Entry(n, None))
      {
        LoadedSections(text, n);
      }
      StartsWithHeader(Occupied(s));
      var l, cur := BehindAHeader(Lines(dump), e);
      assert cur != "" by { MadeIsNamed(Lines(dump), cur); }
      MadeIsCalled(Lines(dump), "", cur);
      MadeIsStored(dump, cur);
      MadeIsEntry(s, cur);
      var e' :| e' in Occupied(s) && e'.key == cur;
      OrphanIsLost(text, e');
    }
  }

  lemma MadeIsNamed(lines: seq<string>, cur: string)
    requires Made(lines, cur)
    ensures cur != ""
  {
    hide ParseLine;
    var l :| l in lines && ParseLine(l) == Section(cur);
    SectionsAreOk(l);
  }

  lemma MadeIsEntry(s: Slots, cur: string)
    requires Distinct(s) && RoundTrips(s) && cur in ToMap(LoadSlots(DumpText(Occupied(s))))
    ensures exists e :: e in Occupied(s) && e.key == cur
  {
    hide Occupied, LoadSlots, DumpText, Dumpable;
    MapByEntries(s, cur);
  }

  /** If a file comes back, no line of it is cut inside its value: what is read would weigh less than what is stored. */
  lemma AllQuiet(s: Slots, e: Entry)
    requires Distinct(s) && RoundTrips(s) && Shelved(Occupied(s)) && SectionNames(Occupied(s)) != []
    requires (forall x :: x in Occupied(s) ==> Loadable(x)) && e in Occupied(s)
    requires forall n :: n in SectionNames(Occupied(s)) ==> IsSection(n) && Loadable(Entry(n, None))
    ensures Quiet(e)
  {
    hide Effects, Lines, DumpText, Occupied, Loadable, Mass, RoundTrips, LoadSlots;
    var es := Occupied(s);
    var calls := Effects(Lines(DumpText(es)), "");
    OccupiedIsUnique(s);
    forall x | x in es
      ensures multiset(es)[x] <= multiset(calls)[x]
    {
      EntryWasSet(s, x);
      UniqueCount(es, x);
    }
    assert multiset(es) <= multiset(calls);
    MassSub(es, calls);
    FileEffects(es);
    BodyMass(es, SectionNames(es), "");
    ListingIsUnique(s);
    MassSub(Listing(es), es);
    if !Quiet(e) {
      BelongsIsHead(e.key, Head(e.key));
      HeadIsPlain(e.key);
    }
  }

  lemma HeadIsPlain(key: string)
    requires !IsSection(key)
    ensures IsSection(Head(key)) && Belongs(key, Head(key))
  {
    hide Until;
    var n := Head(key);
    assert key[..|n| + 1] == n + ":";
  }

  /** And then every entry is read from its own line. */
  lemma OwnLineReadsBack(s: Slots, e: Entry)
    requires Distinct(s) && RoundTrips(s) && Shelved(Occupied(s)) && SectionNames(Occupied(s)) != []
    requires (forall x :: x in Occupied(s) ==> Loadable(x)) && e in Occupied(s) && !IsSection(e.key)
    requires forall n :: n in SectionNames(Occupied(s)) ==> IsSection(n) && Loadable(Entry(n, None))
    ensures Loadable(e) && ParseLine(View(EntryLine(Tail(e.key), ValueText(e)))) == Assign(Tail(e.key), ValueText(e))
  {
    hide Effects, Lines, DumpText, Occupied, Mass, RoundTrips, LoadSlots, ParseLine, View, EntryLine, SectionNames, Fetched, Quiet, ReadBlock;
    var es := Occupied(s);
    var names := SectionNames(es);
    forall x | x in es
      ensures Quiet(x)
    {
      AllQuiet(s, x);
    }
    FileEffects(es);
    BodyReads(es, names, "");
    EntryWasSet(s, e);
    CollectIn(names, ReadBlock(es), e);
    var i :| 0 <= i < |names| && e in ReadBlock(es)(names[i]);
    var n := names[i];
    var e' := ReadIn(es, n, e);
    ReadFrom(e', n, e);
    OccupiedIsUnique(s);
  }

  lemma ReadIn(es: seq<Entry>, n: string, e: Entry) returns (e': Entry)
    requires e in ReadBlock(es)(n) && e.val.Some?
    ensures e' in es && Belongs(e'.key, n) && e in Effects([View(EntryLine(NameIn(e'.key, n), ValueText(e')))], n)
  {
    hide Effects, Belongs, EntryLine, View;
    CollectIn(es, Reading(n), e);
    var i :| 0 <= i < |es| && e in Reading(n)(es[i]);
    e' := es[i];
  }

  lemma ReadFrom(e': Entry, n: string, e: Entry)
    requires IsSection(n) && Belongs(e'.key, n) && Loadable(e') && !IsSection(e.key)
    requires e in Effects([View(EntryLine(NameIn(e'.key, n), ValueText(e')))], n)
    ensures e'.key == e.key && ParseLine(View(EntryLine(Tail(e'.key), ValueText(e')))) == Assign(Tail(e'.key), ValueText(e))
  {
    hide Effects, ParseLine, View, EntryLine, Fetched, ScanValue, CleanValue, Behind;
    BelongsIsHead(e'.key, n);
    var k, v := Tail(e'.key), ValueText(e');
    ViewParses(k, v);
    OneLineEffects(View(EntryLine(k, v)), n);
    assert e.key == n + ":" + k;
  }

  // ---------------------------------------------------------------- a file without a header

  lemma {:induction false} ChunkWeight(t: string, l: string)
    requires l in Lines(t)
    ensures Weight(l) <= Weight(t)
    decreases |t|
  {
    hide FgetsLength, Weight;
    ViewAndLeft(t, "");
    WeightJoin(View(t), Left(t));
    if l != View(t) {
      ChunkWeight(Left(t), l);
    }
  }

  lemma AssignNeedsEquals(l: string)
    requires '=' !in l || l[0] == '='
    ensures !ParseLine(l).Assign?
  {
    hide CString, Skip, ScanEntry, ScanSection, Lower, Crop;
    var w := Skip(CString(l));
    if '=' !in l {
      WordPart(l);
    } else {
      WordFront(l);
    }
    EntryNeedsEquals(w);
  }

  lemma WordPart(l: string)
    ensures forall c :: c in Skip(CString(l)) ==> c in l
  {
    hide Until, Blanks;
    var c := CString(l);
    var w := Skip(c);
    assert forall i :: 0 <= i < |w| ==> w[i] == c[Blanks(c) + i];
  }

  lemma WordFront(l: string)
    requires l != "" && l[0] == '='
    ensures Skip(CString(l)) != "" && Skip(CString(l))[0] == '='
  {
    var c := CString(l);
    assert c != "" && c[0] == '=';
    BlanksIs(c, 0);
  }

  lemma EntryNeedsEquals(w: string)
    requires '=' !in w || w[0] == '='
    ensures ScanEntry(w).None?
  {
    hide Until, ScanValue;
    var n := Until(w, {'='});
    assert n < |w| ==> w[n] in w;
  }

  /** Where an assignment in a file without sections comes from: the own line of a shorter key, or the rest of a heavier value. */
  lemma PlainChunk(k: string, v: string, l: string)
    requires Fetched(k, v) && l in Lines(":" + k + " = " + v + "\n") && ParseLine(l).Assign?
    ensures Weight(ParseLine(l).val) < Weight(v) || (ParseLine(l).key == ":" + k && Weight(ParseLine(l).val) <= Weight(v))
  {
    hide ParseLine, Weight, Fetched, View, Left, Lines;
    var d := ":" + k + " = " + v + "\n";
    ViewAndLeft(d, "");
    if l == View(d) {
      if |k| <= 1020 {
        PlainViewParses(k, v);
      } else {
        LongNameAlone(k, v);
      }
    } else if |k| <= 1020 {
      PlainView(k, v);
      ChunkWeight(Left(d), l);
      ParsedWeight(l);
    } else {
      LongNameAlone(k, v);
    }
  }

  /** Of the longest name the first chunk holds nothing else, and what is left starts with the '='. */
  lemma LongNameAlone(k: string, v: string)
    requires Fetched(k, v) && |k| > 1020
    ensures var d := ":" + k + " = " + v + "\n";
      !ParseLine(View(d)).Assign? && Lines(Left(d)) == [Left(d)] && !ParseLine(Left(d)).Assign?
  {
    hide ParseLine, View, Left, NameOk, Lines;
    var d := ":" + k + " = " + v + "\n";
    PlainView(k, v);
    NameWithoutEquals(k);
    AssignNeedsEquals(View(d));
    OneChunk(Left(d));
    AssignNeedsEquals(Left(d));
  }

  lemma NameWithoutEquals(k: string)
    requires NameOk(k)
    ensures '=' !in ":" + k + " "
  {
  }

  lemma OneChunk(t: string)
    requires t != "" && t[|t| - 1] == '\n' && (forall i :: 0 <= i < |t| - 1 ==> t[i] != '\n') && |t| < ASCIILINESZ
    ensures Lines(t) == [t]
  {
    OneBreak(t);
    assert t[..|t|] == t && t[|t|..] == "";
  }

  /** The first chunk of such a line, and what is left. */
  lemma PlainView(k: string, v: string)
    requires Fetched(k, v)
    ensures var d := ":" + k + " = " + v + "\n";
      if |k| <= 1020 then
        exists y :: y <= " " + v + "\n" && View(d) == ":" + k + " " + "=" + y && Weight(y) <= Weight(v) && Weight(Left(d)) <= Weight(v)
      else
        View(d) == ":" + k + " " && Left(d) == "= " + v + "\n" && |Left(d)| < 5
  {
    hide FgetsLength, Weight, NameOk;
    var p, x := ":" + k + " ", " " + v + "\n";
    var d := ":" + k + " = " + v + "\n";
    assert d == (p + "=") + x;
    PlainLineBreak(k, v);
    OneBreak(d);
    var m := FgetsLength(d);
    if |k| <= 1020 {
      var y := x[..m - |p| - 1];
      ViewSplits(p + "=", x, y, m);
      BlankAround(v);
      WeightJoin(y, Left(d));
    } else {
      assert d == p + ("=" + x);
      assert d[..m] == p && d[m..] == "=" + x;
    }
  }

  lemma PlainLineBreak(k: string, v: string)
    requires OneLine(k) && OneLine(v)
    ensures var d := ":" + k + " = " + v + "\n";
      d[|d| - 1] == '\n' && forall i :: 0 <= i < |d| - 1 ==> d[i] != '\n'
  {
  }

  lemma BlankAround(v: string)
    ensures Weight(" " + v + "\n") == Weight(v)
  {
    hide Weight;
    LightOne();
    assert Weight([' ']) == 0 && Weight(['\n']) == 0;
    WeightJoin([' '] + v, ['\n']);
    WeightJoin([' '], v);
  }

  lemma PlainViewParses(k: string, v: string)
    requires Fetched(k, v) && |k| <= 1020
    ensures var l := View(":" + k + " = " + v + "\n");
      ParseLine(l).Assign? ==> ParseLine(l).key == ":" + k && Weight(ParseLine(l).val) <= Weight(v)
  {
    hide ParseLine, View, Left, Weight, Lower, Crop, ScanValue, CleanValue;
    PlainView(k, v);
    var d := ":" + k + " = " + v + "\n";
    var y :| y <= " " + v + "\n" && View(d) == ":" + k + " " + "=" + y && Weight(y) <= Weight(v);
    ColonName(k);
    NameBlank(":" + k);
    assert forall c :: c in y ==> c in " " + v + "\n";
    PairParses(":" + k + " ", y);
    if ScanValue(y).Some? {
      ScannedWeight(y);
    }
  }

  lemma PlainKey(text: string, e: Entry)
    requires PlainHeaders(text) && SectionNames(Occupied(LoadSlots(text))) == [] && e in Occupied(LoadSlots(text))
    ensures e.val.Some? && !IsSection(e.key) && e.key == ":" + Tail(e.key) && Fetched(Tail(e.key), e.val.value)
  {
    hide ParseLine, LoadSlots, Effects, Occupied, SectionNames, Fetched, NameOk, SectionOk;
    LoadedIsLoadable(text, e);
    StoredEntry(text, e);
    NameIsEntry(Occupied(LoadSlots(text)), e.key);
    LoadIsDistinct(text);
    MapByEntries(LoadSlots(text), e.key);
    LoadedWasSet(text, e.key);
    var l := CallsAreNamed(Lines(text), "", e);
    var cur :| (cur == "" || Made(Lines(text), cur)) && e.key == cur + ":" + ParseLine(l).key;
    MadeIsPlain(text, cur);
    OwnSection(e.key, cur, ParseLine(l).key);
    if cur != "" {
      MadeIsCalled(Lines(text), "", cur);
      MadeIsStored(text, cur);
      MapByEntries(LoadSlots(text), cur);
      NameIsEntry(Occupied(LoadSlots(text)), cur);
    }
  }

  lemma {:induction false} PlainIsLost(text: string, e: Entry)
    requires PlainHeaders(text) && RoundTrips(LoadSlots(text)) && SectionNames(Occupied(LoadSlots(text))) == []
    ensures e !in Occupied(LoadSlots(text))
    decreases ASCIILINESZ - Weight(ValueText(e)), |e.key|
  {
    if e in Occupied(LoadSlots(text)) {
      hide ParseLine, LoadSlots, Effects, Occupied, SectionNames, RoundTrips, NameOk, Weight, DumpLines;
      var s := LoadSlots(text);
      var es := Occupied(s);
      LoadIsDistinct(text);
      PlainKey(text, e);
      EntryWasSet(s, e);
      var l := CallsAreNamed(Lines(DumpText(es)), "", e);
      forall d | d in DumpLines(es)
        ensures Ended(d)
      {
        DumpLinesEnd(es, d);
      }
      LinesOfChunks(DumpLines(es));
      var e' := PlainSource(es, l);
      PlainKey(text, e');
      WeightBound(e'.val.value);
      PlainChunk(Tail(e'.key), e'.val.value, l);
      PlainIsLost(text, e');
    }
  }

  lemma PlainSource(es: seq<Entry>, l: string) returns (e: Entry)
    requires SectionNames(es) == [] && l in Collect(DumpLines(es), Lines)
    ensures e in es && l in Lines(PlainLine(e)[0])
  {
    hide Lines, SectionNames, PlainLine;
    var ds := DumpLines(es);
    CollectIn(ds, Lines, l);
    var i :| 0 <= i < |ds| && l in Lines(ds[i]);
    CollectIn(es, PlainLine, ds[i]);
    var j :| 0 <= j < |es| && ds[i] in PlainLine(es[j]);
    e := es[j];
    OnePlainLine(e, ds[i]);
  }

  lemma OnePlainLine(e: Entry, d: string)
    requires d in PlainLine(e)
    ensures d == PlainLine(e)[0]
  {
  }

  lemma {:induction false} WeightBound(s: string)
    ensures Weight(s) <= |s|
  {
    if s != "" {
      WeightBound(s[..|s| - 1]);
    }
  }

  // ---------------------------------------------------------------- the first save

  lemma LoadedIsShelved(text: string)
    requires PlainHeaders(text) && HeaderFirst(text)
    ensures Shelved(Occupied(LoadSlots(text)))
  {
    hide LoadSlots, Occupied, SectionNames, HeaderFirst, PlainHeaders, Head;
    forall e | e in Occupied(LoadSlots(text))
      ensures IsSection(e.key) ==> e.val.None?
      ensures !IsSection(e.key) ==> Head(e.key) in SectionNames(Occupied(LoadSlots(text)))
    {
      StoredEntry(text, e);
    }
  }

  lemma LoadedFits(text: string)
    requires PlainHeaders(text)
    ensures forall e :: e in Occupied(LoadSlots(text)) ==> Loadable(e)
    ensures forall n :: n in SectionNames(Occupied(LoadSlots(text))) ==> IsSection(n) && Loadable(Entry(n, None))
  {
    hide LoadSlots, Occupied, SectionNames, PlainHeaders, Loadable;
    forall e | e in Occupied(LoadSlots(text))
      ensures Loadable(e)
    {
      LoadedIsLoadable(text, e);
    }
    forall n | n in SectionNames(Occupied(LoadSlots(text)))
      ensures IsSection(n) && Loadable(Entry(n, None))
    {
      LoadedSections(text, n);
    }
  }

  /** A line that survives leaves only blanks and a quote. */
  lemma SurvivorIsQuiet(k: string, v: string)
    requires Fetched(k, v) && Survives(k, v)
    ensures Weight(Left(EntryLine(k, v))) == 0
  {
    hide Weight, View, Left, EntryLine, NameOk, ValueOk, EndOk;
    ViewOfEntry(k, v);
    var left, x, y := Left(EntryLine(k, v)), " " + Rendered(v), Behind(k, v);
    assert left == x[|y|..];
    assert forall i :: 0 <= i < |left| ==> left[i] == x[|y| + i] && Light(left[i]);
    NoWeight(left);
  }

  lemma SurvivorReads(e: Entry, n: string)
    requires IsSection(n) && Loadable(e) && (!IsSection(e.key) ==> Survives(Tail(e.key), ValueText(e)))
    ensures Quiet(e) && Reading(n)(e) == Member(n)(e)
  {
    hide Effects, ParseLine, View, Left, EntryLine, Fetched, Survives, Weight;
    BelongsIsHead(e.key, n);
    if !IsSection(e.key) {
      var k, v := Tail(e.key), ValueText(e);
      SurvivorIsQuiet(k, v);
      ViewReadsBack(k, v);
      OneLineEffects(View(EntryLine(k, v)), n);
    }
  }

  lemma SurvivorsComeBack(s: Slots)
    requires Distinct(s) && Shelved(Occupied(s)) && SectionNames(Occupied(s)) != []
    requires forall e :: e in Occupied(s) ==> Loadable(e) && (!IsSection(e.key) ==> Survives(Tail(e.key), ValueText(e)))
    requires forall n :: n in SectionNames(Occupied(s)) ==> IsSection(n) && Loadable(Entry(n, None))
    ensures RoundTrips(s)
  {
    hide Effects, Lines, DumpText, Occupied, Survives, SectionNames, Fetched, Quiet, Shelved, Reading, Member, Loadable;
    var es := Occupied(s);
    var names := SectionNames(es);
    forall e | e in es
      ensures Quiet(e)
    {
      SurvivorReads(e, "");
    }
    forall i | 0 <= i < |names|
      ensures ReadBlock(es)(names[i]) == Block(es)(names[i])
    {
      assert names[i] in names;
      forall j | 0 <= j < |es|
        ensures Reading(names[i])(es[j]) == Member(names[i])(es[j])
      {
        assert es[j] in es;
        SurvivorReads(es[j], names[i]);
      }
      CollectSame(es, Reading(names[i]), Member(names[i]));
    }
    FileEffects(es);
    BodyReads(es, names, "");
    CollectSame(names, ReadBlock(es), Block(es));
    ListingIsUnique(s);
    FilledTable(Listing(es));
    SameEntriesSameMap(s, LoadSlots(DumpText(es)));
    LoadableIsDumpable(es);
  }

  lemma LoadableIsDumpable(es: seq<Entry>)
    requires SectionNames(es) != [] && forall e :: e in es ==> Loadable(e)
    ensures Dumpable(es)
  {
    hide Fetched, SectionNames;
    forall e, n | e in es && n in SectionNames(es) && Belongs(e.key, n)
      ensures e.val.Some?
    {
      NameIsEntry(es, n);
      BelongsIsHead(e.key, n);
    }
  }

  /**
    A file whose headers have no colon survives its first save exactly if no entry precedes the first header
    and every stored entry survives: its value is fit, and its line, with the name padded to 30 columns, is
    not cut inside the value.
  */
  lemma FirstSaveExactly(text: string)
    requires PlainHeaders(text)
    ensures RoundTrips(LoadSlots(text)) <==>
      HeaderFirst(text) && forall e :: e in Occupied(LoadSlots(text)) && !IsSection(e.key) ==> Survives(Tail(e.key), ValueText(e))
  {
    hide PlainHeaders, HeaderFirst, LoadSlots, Occupied, SectionNames, RoundTrips, Survives, Shelved, Loadable, Tail, Head;
    var s := LoadSlots(text);
    var es := Occupied(s);
    LoadIsDistinct(text);
    LoadedFits(text);
    if !HeaderFirst(text) {
      var e := OrphanIsStored(text);
      if RoundTrips(s) {
        if SectionNames(es) == [] {
          PlainIsLost(text, e);
        } else {
          OrphanStarts(text, e);
          OrphanIsLost(text, e);
        }
      }
    } else {
      LoadedIsShelved(text);
      if SectionNames(es) == [] {
        if es != [] {
          EntryHasSection(es, es[0]);
        }
        NothingComesBack(s);
      } else if RoundTrips(s) {
        forall e | e in es && !IsSection(e.key)
          ensures Survives(Tail(e.key), ValueText(e))
        {
          OwnLineReadsBack(s, e);
          LoadableParts(e);
          ViewReadsBack(Tail(e.key), ValueText(e));
        }
      } else if forall e :: e in es && !IsSection(e.key) ==> Survives(Tail(e.key), ValueText(e)) {
        SurvivorsComeBack(s);
      }
    }
  }

  lemma OrphanStarts(text: string, e: Entry)
    requires PlainHeaders(text) && e in Occupied(LoadSlots(text)) && !IsSection(e.key)
    requires Head(e.key) !in SectionNames(Occupied(LoadSlots(text)))
    ensures e.key != "" && e.key[0] == ':'
  {
    hide ParseLine, LoadSlots, Occupied, SectionNames, Head, Tail, Fetched, NameOk, SectionOk;
    LoadIsDistinct(text);
    StoredEntry(text, e);
    MapByEntries(LoadSlots(text), e.key);
    LoadedWasSet(text, e.key);
    var l := CallsAreNamed(Lines(text), "", e);
    var cur :| (cur == "" || Made(Lines(text), cur)) && e.key == cur + ":" + ParseLine(l).key;
    MadeIsPlain(text, cur);
    OwnSection(e.key, cur, ParseLine(l).key);
    if cur != "" {
      MadeIsCalled(Lines(text), "", cur);
      MadeIsStored(text, cur);
      MapByEntries(LoadSlots(text), cur);
      NameIsEntry(Occupied(LoadSlots(text)), cur);
    }
  }

  lemma LoadableParts(e: Entry)
    requires Loadable(e) && !IsSection(e.key)
    ensures Fetched(Tail(e.key), ValueText(e))
  {
  }

  lemma EntryHasSection(es: seq<Entry>, e: Entry)
    requires Shelved(es) && e in es
    ensures SectionNames(es) != []
  {
    NameIsEntry(es, e.key);
  }

  lemma NothingComesBack(s: Slots)
    requires Distinct(s) && Occupied(s) == []
    ensures RoundTrips(s)
  {
    hide Distinct, Occupied, LoadSlots;
    assert Printable([]) && LineSized([]);
    ReadingUndoesPrinting(s);
  }

  // ---------------------------------------------------------------- an example

  /** A file of one section and one long setting. */
  function LongFile(v: string): string {
    "[s]\n" + ("k=" + v + "\n")
  }

  /** What is read as a line of 1022 characters is printed as a longer one: 990 characters are the most that survive. */
  lemma LongValues(v: string)
    requires ValueOk(v) && OneLine(v) && '=' !in v && v[0] != '"' && v[0] != '\'' && |v| <= 1020
    ensures RoundTrips(LoadSlots(LongFile(v))) <==> |v| <= 990
  {
    hide RoundTrips, LoadSlots, Occupied, Survives, PlainHeaders, HeaderFirst, ValueOk;
    LongFileLoads(v);
    FirstSaveExactly(LongFile(v));
    var e := Entry("s:k", Some(v));
    OwnSection("s:k", "s", "k");
    assert Survives("k", v) <==> |v| <= 990 by { LongSurvives(v); }
  }

  lemma LongSurvives(v: string)
    requires ValueOk(v) && '=' !in v && v[0] != '"' && v[0] != '\''
    ensures Survives("k", v) <==> |v| <= 990
  {
  }

  lemma LongLines(v: string)
    requires ValueOk(v) && OneLine(v) && '=' !in v && v[0] != '"' && v[0] != '\'' && |v| <= 1020
    ensures Lines(LongFile(v)) == ["[s]\n", "k=" + v + "\n"]
    ensures ParseLine("[s]\n") == Section("s") && ParseLine("k=" + v + "\n") == Assign("k", v)
  {
    hide ParseLine, Lines, Lower, ScanValue, CleanValue;
    var a, b := "[s]\n", "k=" + v + "\n";
    LinesJoin(a, b);
    OneChunk(a);
    assert forall i :: 0 <= i < |b| - 1 ==> b[i] != '\n';
    OneChunk(b);
    assert Lower("s") == "s" && Lower("k") == "k";
    SectionComesBack("s");
    assert a == "[" + "s" + "]\n";
    assert b == "k" + "=" + (v + "\n");
    PairParses("k", v + "\n");
    CropWhole("k");
    LongScan(v);
  }

  lemma LongScan(v: string)
    requires ValueOk(v) && OneLine(v) && '=' !in v && v[0] != '"' && v[0] != '\''
    ensures ScanValue(v + "\n").Some? && CleanValue(ScanValue(v + "\n").value) == v
  {
    hide Until, Blanks, CropLength;
    ValueComesBack(v);
    SkipIs(" " + Rendered(v), 1);
    SkipIs(v + "\n", 0);
    assert (" " + Rendered(v))[1..] == v + "\n" && (v + "\n")[0..] == v + "\n";
  }

  lemma LongFileLoads(v: string)
    requires ValueOk(v) && OneLine(v) && '=' !in v && v[0] != '"' && v[0] != '\'' && |v| <= 1020
    ensures PlainHeaders(LongFile(v)) && HeaderFirst(LongFile(v))
    ensures forall e :: e in Occupied(LoadSlots(LongFile(v))) <==> e == Entry("s", None) || e == Entry("s:k", Some(v))
  {
    hide ParseLine, Lines, LoadSlots, Occupied, ValueOk;
    var text, a, b := LongFile(v), "[s]\n", "k=" + v + "\n";
    var calls := Effects(Lines(text), "");
    LongLines(v);
    assert [a, b] == [a] + [b];
    OneLineEffects(a, "");
    OneLineEffects(b, "s");
    EffectsJoin([a], [b], "");
    assert calls == [Entry("s", None), Entry("s" + ":" + "k", Some(v))];
    assert "s" + ":" + "k" == "s:k";
    LoadIsDistinct(text);
    forall e
      ensures e in Occupied(LoadSlots(text)) <==> e in calls
    {
      MapByEntries(LoadSlots(text), e.key);
      if e in calls {
        EmptyMeansNothing(DICTMINSZ);
        CalledIsStored(Empty(DICTMINSZ), calls, e.key);
        assert LoadSlots(text) == PutAll(Empty(DICTMINSZ), calls) by { LoadIsPutAll(text); }
        LoadedWasSet(text, e.key);
      } else if e in Occupied(LoadSlots(text)) {
        LoadedWasSet(text, e.key);
      }
    }
  }
}
