/**
  What the lines of a hand-written file mean, shape by shape: headers, comments, bare values with a comment
  behind them, and quoted values.  Blanks may stand around everything.
*/
module IniShapes {
  import opened Wrappers
  import opened CStrings
  import opened IniText
  import opened IniLine

  predicate Blank(s: string) {
    forall i :: 0 <= i < |s| ==> IsSpace(s[i])
  }

  /** A name as it may stand in front of '='. */
  predicate NameText(k: string) {
    && k != "" && '=' !in k
    && !IsSpace(k[0]) && k[0] != ';' && k[0] != '#' && !IsSpace(k[|k| - 1])
    && (k[0] == '[' ==> |k| > 1 && k[1] == ']')
  }

  /** A value that needs no quotes. */
  predicate BareText(v: string) {
    && v != "" && !IsSpace(v[0]) && !IsSpace(v[|v| - 1])
    && ';' !in v && '#' !in v
    && (v[0] == '"' || v[0] == '\'' ==> |v| > 2 && v[1] == v[0])
  }

  /** What may follow a bare value and its blanks: the end of the line or a comment. */
  predicate Comment(c: string) {
    c != "" ==> c[0] == ';' || c[0] == '#'
  }

  // ---------------------------------------------------------------- pieces

  lemma BlanksInFront(a: string, w: string)
    requires Blank(a) && '\0' !in a && '\0' !in w && w != "" && !IsSpace(w[0])
    ensures Skip(CString(a + w)) == w
  {
    hide Until, Blanks;
    CStringOf(a + w);
    SkipIs(a + w, |a|);
    assert (a + w)[|a|..] == w;
  }

  /** Blanks in front of a line change nothing. */
  lemma Outdented(a: string, w: string)
    requires Blank(a) && '\0' !in a && '\0' !in w && w != "" && !IsSpace(w[0])
    ensures ParseLine(a + w) == ParseLine(w)
  {
    hide Skip, CString, ScanSection, ScanEntry, Lower, Crop, CleanValue;
    BlanksInFront(a, w);
    BlanksInFront("", w);
    assert "" + w == w;
  }

  lemma CroppedBlanks(k: string, b: string)
    requires Blank(b) && k != "" && !IsSpace(k[|k| - 1])
    ensures Crop(k + b) == k
  {
    CropIs(k + b, |k|);
    assert (k + b)[..|k|] == k;
  }

  /** A line with a name: its value is what is scanned behind the '='. */
  lemma NamedLine(a: string, k: string, b: string, rest: string)
    requires Blank(a) && NameText(k) && Blank(b) && '\0' !in a + k + b + rest
    ensures ParseLine(a + (k + b + "=" + rest)) ==
      if ScanValue(rest).Some? then Assign(Lower(k), CleanValue(ScanValue(rest).value)) else Ignore
  {
    hide ParseLine, Lower, Crop, ScanValue, CleanValue;
    var p := k + b;
    var w := p + "=" + rest;
    NoNulParts(a, k, b, rest);
    BlankNames(k, b);
    Outdented(a, w);
    PairParses(p, rest);
    CroppedBlanks(k, b);
  }

  lemma NoNulParts(a: string, k: string, b: string, rest: string)
    requires '\0' !in a + k + b + rest
    ensures '\0' !in a && '\0' !in k + b && '\0' !in rest && '\0' !in k + b + "=" + rest
  {
    var t := a + k + b + rest;
    assert forall i :: 0 <= i < |a| ==> a[i] == t[i];
    assert forall i :: 0 <= i < |k + b| ==> (k + b)[i] == t[|a| + i];
    assert forall i :: 0 <= i < |rest| ==> rest[i] == t[|a + k + b| + i];
  }

  lemma BlankNames(k: string, b: string)
    requires NameText(k) && Blank(b)
    ensures var p := k + b;
      p != "" && '=' !in p && p[0] == k[0] && (p[0] == '[' ==> |p| > 1 && p[1] == ']')
  {
  }

  lemma Unindented(b: string, r: string)
    requires Blank(b) && r != "" && !IsSpace(r[0])
    ensures Skip(b + r) == r
  {
    SkipIs(b + r, |b|);
    assert (b + r)[|b|..] == r;
  }

  // ---------------------------------------------------------------- the shapes

  /** A comment, or nothing but blanks. */
  lemma CommentLine(a: string, c: string)
    requires Blank(a) && Comment(c) && '\0' !in a && '\0' !in c
    ensures ParseLine(a + c) == Ignore
  {
    hide Until, Blanks;
    if c == "" {
      CStringOf(a);
      SkipIs(a, |a|);
      assert a + c == a;
    } else {
      BlanksInFront(a, c);
    }
  }

  /** A header, whatever follows its bracket, in upper or lower case. */
  lemma HeaderLine(a: string, n: string, rest: string)
    requires Blank(a) && n != "" && ']' !in n && (rest != "" ==> rest[0] == ']')
    requires '\0' !in a && '\0' !in "[" + n + rest
    ensures ParseLine(a + ("[" + n + rest)) == Section(Lower(n))
  {
    hide Until, Blanks, Lower, ScanEntry;
    var w := "[" + n + rest;
    BlanksInFront(a, w);
    var t := n + rest;
    assert w[1..] == t;
    assert forall i :: 0 <= i < |n| ==> t[i] == n[i] && n[i] in n;
    UntilIs(t, {']'}, |n|);
    assert w[1..1 + |n|] == n;
  }

  /** `name = value ; comment`: the whole value, without the blanks around it. */
  lemma BareLine(a: string, k: string, b: string, b': string, v: string, b'': string, c: string)
    requires Blank(a) && NameText(k) && Blank(b) && Blank(b') && BareText(v) && Blank(b'') && Comment(c)
    requires '\0' !in a + k + b + (b' + (v + b'' + c))
    ensures ParseLine(a + (k + b + "=" + (b' + (v + b'' + c)))) == Assign(Lower(k), v)
  {
    hide ParseLine, Lower, ScanValue, CleanValue;
    NamedLine(a, k, b, b' + (v + b'' + c));
    BareScan(b', v, b'', c);
  }

  lemma BareScan(b: string, v: string, b': string, c: string)
    requires Blank(b) && BareText(v) && Blank(b') && Comment(c)
    ensures var rest := b + (v + b' + c);
      ScanValue(rest).Some? && CleanValue(ScanValue(rest).value) == v
  {
    hide Until, Crop, Skip;
    var r := v + b' + c;
    Unindented(b, r);
    SecondQuote(v, b' + c);
    assert r == v + (b' + c);
    assert r[0] == '"' || r[0] == '\'' ==> r[1..][0] == r[0];
    var x := v + b';
    assert r == x + c;
    assert forall i :: 0 <= i < |x| ==> x[i] != ';' && x[i] != '#';
    UntilIs(r, {';', '#'}, |x|);
    assert r[..|x|] == x;
    CroppedBlanks(v, b');
    assert x != "\"\"" && x != "''" by { NotTwoQuotes(v, b'); }
  }

  lemma SecondQuote(v: string, t: string)
    requires BareText(v)
    ensures v + t != "" && ((v + t)[0] == '"' || (v + t)[0] == '\'' ==> |v + t| > 1 && (v + t)[1] == (v + t)[0])
  {
  }

  lemma NotTwoQuotes(v: string, b: string)
    requires BareText(v)
    ensures v + b != "\"\"" && v + b != "''"
  {
    assert (v + b)[0] == v[0];
  }

  /** `name = "value" anything`, in double or single quotes: the blanks behind it and two quotes inside it are lost. */
  lemma QuotedLine(a: string, k: string, b: string, b': string, q: char, v: string, rest: string)
    requires Blank(a) && NameText(k) && Blank(b) && Blank(b') && (q == '"' || q == '\'')
    requires v != "" && q !in v && (rest != "" ==> rest[0] == q)
    requires '\0' !in a + k + b + (b' + ([q] + v + rest))
    ensures ParseLine(a + (k + b + "=" + (b' + ([q] + v + rest)))) ==
      Assign(Lower(k), if v == "\"\"" || v == "''" then "" else Crop(v))
  {
    hide ParseLine, Lower, ScanValue, Crop;
    NamedLine(a, k, b, b' + ([q] + v + rest));
    QuotedScan(b', q, v, rest);
  }

  lemma QuotedScan(b: string, q: char, v: string, rest: string)
    requires Blank(b) && (q == '"' || q == '\'') && v != "" && q !in v && (rest != "" ==> rest[0] == q)
    ensures ScanValue(b + ([q] + v + rest)) == Some(v)
  {
    hide Until, Skip;
    var r := [q] + v + rest;
    Unindented(b, r);
    var t := v + rest;
    assert r[1..] == t;
    assert forall i :: 0 <= i < |v| ==> t[i] == v[i] && v[i] in v;
    UntilIs(t, {q}, |v|);
    assert r[1..1 + |v|] == v;
  }

  /** A name without a value is ignored. */
  lemma NoValue(a: string, k: string, b: string, b': string, c: string)
    requires Blank(a) && NameText(k) && Blank(b) && Blank(b') && Comment(c) && '\0' !in a + k + b + (b' + c)
    ensures ParseLine(a + (k + b + "=" + (b' + c))) == Ignore
  {
    hide ParseLine, Lower, Crop, ScanValue;
    NamedLine(a, k, b, b' + c);
    assert ScanValue(b' + c).None? by { NothingToScan(b', c); }
  }

  lemma NothingToScan(b: string, c: string)
    requires Blank(b) && Comment(c)
    ensures ScanValue(b + c).None?
  {
    hide Blanks;
    SkipIs(b + c, |b|);
    assert (b + c)[|b|..] == c;
  }

  /** And every line that assigns has one of these shapes: its value is a quoted run, or all up to a comment. */
  lemma EntryHasShape(line: string) returns (q: string, v: string, rest: string)
    requires ParseLine(line).Assign?
    ensures BehindEquals(line) == Some(q + v + rest) && v != ""
    ensures ParseLine(line).val == if v == "\"\"" || v == "''" then "" else Crop(v)
    ensures ((q == "\"" || q == "'") && q[0] !in v && (rest != "" ==> rest[0] == q[0]))
         || (q == "" && ';' !in v && '#' !in v && Comment(rest))
  {
    hide Until, Skip, ScanValue, CleanValue, Lower, Crop, ScanSection, CString;
    var w := Skip(CString(line));
    var t := w[Until(w, {'='}) + 1..];
    Scanned(t);
    q, v, rest := ValueShape(Skip(t));
    CleanShape(v);
  }

  lemma Scanned(t: string)
    ensures var r := Skip(t);
      ScanValue(t) == if Quoted(r, '"').Some? then Quoted(r, '"') else if Quoted(r, '\'').Some? then Quoted(r, '\'') else Bare(r)
  {
  }

  lemma CleanShape(v: string)
    ensures CleanValue(v) == if v == "\"\"" || v == "''" then "" else Crop(v)
  {
  }

  lemma ValueShape(r: string) returns (q: string, v: string, rest: string)
    requires Quoted(r, '"').Some? || Quoted(r, '\'').Some? || Bare(r).Some?
    ensures r == q + v + rest && v != ""
    ensures Some(v) == if Quoted(r, '"').Some? then Quoted(r, '"') else if Quoted(r, '\'').Some? then Quoted(r, '\'') else Bare(r)
    ensures ((q == "\"" || q == "'") && q[0] !in v && (rest != "" ==> rest[0] == q[0]))
         || (q == "" && ';' !in v && '#' !in v && Comment(rest))
  {
    if Quoted(r, '"').Some? {
      q, v := "\"", Quoted(r, '"').value;
      rest := RunShape(r, '"');
    } else if Quoted(r, '\'').Some? {
      q, v := "'", Quoted(r, '\'').value;
      rest := RunShape(r, '\'');
    } else {
      q, v := "", Bare(r).value;
      rest := r[|v|..];
      assert r == v + rest;
    }
  }

  lemma RunShape(r: string, q: char) returns (rest: string)
    requires Quoted(r, q).Some?
    ensures r == [q] + Quoted(r, q).value + rest && q !in Quoted(r, q).value && (rest != "" ==> rest[0] == q)
  {
    hide Until;
    var m := Until(r[1..], {q});
    rest := r[1 + m..];
    assert r == [r[0]] + r[1..1 + m] + r[1 + m..];
  }

  // ---------------------------------------------------------------- an example

  lemma ExampleBare()
    ensures ParseLine("  Essen\t= 10 ; hell\n") == Assign("essen", "10")
  {
    hide ParseLine, Lower;
    var line := "  Essen\t= 10 ; hell\n";
    assert line == "  " + ("Essen" + "\t" + "=" + (" " + ("10" + " " + "; hell\n")));
    BareLine("  ", "Essen", "\t", " ", "10", " ", "; hell\n");
    assert Lower("Essen") == "essen" by { LowerEssen(); }
  }

  lemma LowerEssen()
    ensures Lower("Essen") == "essen"
  {
  }

  lemma ExampleQuoted()
    ensures ParseLine("K = 'a;b ' ; c\n") == Assign("k", "a;b")
  {
    hide ParseLine, Crop;
    assert "K = 'a;b ' ; c\n" == "" + ("K" + " " + "=" + (" " + (['\''] + "a;b " + "' ; c\n")));
    QuotedLine("", "K", " ", " ", '\'', "a;b ", "' ; c\n");
    assert "a;b " == "a;b" + " ";
    CroppedBlanks("a;b", " ");
    assert Lower("K") == "k";
  }

  lemma ExampleHeader()
    ensures ParseLine("[Licht] ; x\n") == Section("licht")
  {
    hide ParseLine;
    assert "[Licht] ; x\n" == "" + ("[" + "Licht" + "] ; x\n");
    HeaderLine("", "Licht", "] ; x\n");
    assert Lower("Licht") == "licht";
  }
}
