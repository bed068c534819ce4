/**
  One line of an ini file: exactly which names and values survive being printed and read again.
*/
module IniLine {
  import opened Wrappers
  import opened CStrings
  import opened IniText

  /** A string that stays within one line of a text file. */
  predicate OneLine(s: string) {
    '\n' !in s && '\0' !in s
  }

  predicate NameOk(k: string) {
    && k != ""
    && '=' !in k
    && !IsSpace(k[0]) && k[0] != ';' && k[0] != '#'
    && (k[0] == '[' ==> |k| > 1 && k[1] == ']')
    && !IsSpace(k[|k| - 1])
    && Lower(k) == k
  }

  /** A value with '=' is printed in quotes, any other one bare. */
  predicate ValueOk(v: string) {
    if '=' in v then '"' !in v && !IsSpace(v[|v| - 1])
    else
      && v != ""
      && !IsSpace(v[0]) && !IsSpace(v[|v| - 1])
      && ';' !in v && '#' !in v
      && (v[0] == '"' || v[0] == '\'' ==> |v| > 1 && v[1] == v[0])
  }

  predicate SectionOk(s: string) {
    s != "" && ']' !in s && Lower(s) == s
  }

  /** The value that is read from its printed form. */
  function ReadBack(v: string): Option<string> {
    var x := ScanValue(" " + Rendered(v));
    if x.None? then None else Some(CleanValue(x.value))
  }

  lemma SkipIs(s: string, n: nat)
    requires n <= |s| && (forall i :: 0 <= i < n ==> IsSpace(s[i])) && (n < |s| ==> !IsSpace(s[n]))
    ensures Skip(s) == s[n..]
  {
    BlanksIs(s, n);
  }

  lemma CleanLength(x: string)
    ensures |CleanValue(x)| <= |x|
    ensures forall c :: c in CleanValue(x) ==> c in x
  {
  }

  /** A quoted run does not contain its quote. */
  lemma QuotedLacks(r: string, q: char)
    requires Quoted(r, q).Some?
    ensures q !in CleanValue(Quoted(r, q).value)
  {
    hide Until, Blanks, CropLength;
    var x := Quoted(r, q).value;
    CleanLength(x);
    assert forall i :: 0 <= i < |x| ==> x[i] == r[1..][i];
  }

  lemma ShiftedIsConstant(v: string, i: nat)
    requires i < |v|
    requires forall j :: 1 <= j < |v| ==> v[j] == v[j - 1]
    ensures v[i] == v[0]
  {
    if i > 0 {
      ShiftedIsConstant(v, i - 1);
    }
  }

  lemma QuotedValue(v: string)
    requires '=' in v
    ensures ReadBack(v) == Some(v) <==> ValueOk(v)
  {
    hide Until, Blanks, CropLength;
    var r := "\"" + v + "\"\n";
    assert Rendered(v) == r;
    SkipIs(" " + r, 1);
    assert Skip(" " + r) == r;
    var tail := v + "\"\n";
    assert r[1..] == tail;
    if '"' !in v {
      QuotedWhole(v, r, tail);
    } else {
      QuotedCut(v, r, tail);
    }
  }

  lemma QuotedWhole(v: string, r: string, tail: string)
    requires '=' in v && '"' !in v
    requires tail == v + "\"\n" && r == "\"" + tail && Skip(" " + Rendered(v)) == r
    ensures ReadBack(v) == Some(v) <==> ValueOk(v)
  {
    hide Until, Blanks, CropLength;
    UntilIs(tail, {'"'}, |v|);
    assert r[1..] == tail && r[1..1 + |v|] == v;
    assert v != "\"\"" && v != "''";
    assert ReadBack(v) == Some(Crop(v));
    CropWhole(v);
  }

  /** Cropping is the only thing that happens to a value which is not just two quotes. */
  lemma CropWhole(v: string)
    requires v != ""
    ensures Crop(v) == v <==> !IsSpace(v[|v| - 1])
  {
    if !IsSpace(v[|v| - 1]) {
      CropIs(v, |v|);
      assert v[..|v|] == v;
    }
  }

  lemma ShiftedPrefix(v: string, r: string, c: nat)
    requires '=' in v && c <= |r| && |v| < |r|
    requires r[0] == '"' && forall i :: 0 <= i < |v| ==> r[i + 1] == v[i]
    ensures r[..c] != v
  {
    if r[..c] == v {
      assert forall j :: 1 <= j < |v| ==> v[j] == r[..c][j] && r[j] == v[j - 1];
      var e :| 0 <= e < |v| && v[e] == '=';
      ShiftedIsConstant(v, e);
    }
  }

  lemma QuotedCut(v: string, r: string, tail: string)
    requires '=' in v && '"' in v
    requires tail == v + "\"\n" && r == "\"" + tail && Skip(" " + Rendered(v)) == r
    ensures ReadBack(v) != Some(v)
  {
    hide Until, Blanks, CropLength, Skip, Rendered;
    assert r[1..] == tail;
    var m := Until(tail, {'"'});
    assert m < |v| by {
      var i :| 0 <= i < |v| && v[i] == '"';
      assert tail[i] == '"';
    }
    if m > 0 {
      CleanLength(r[1..1 + m]);
    } else {
      var x := ScanValue(" " + Rendered(v));
      assert x == Bare(r);
      if x.Some? {
        var n := |x.value|;
        assert x.value == r[..n];
        ShiftedPrefix(v, r, CropLength(x.value));
        assert Crop(x.value) == r[..CropLength(x.value)];
      }
    }
  }

  lemma BareValue(v: string)
    requires '=' !in v && '\n' !in v
    ensures ReadBack(v) == Some(v) <==> ValueOk(v)
  {
    hide Until, Blanks, CropLength, CleanValue;
    var b := Blanks(v);
    var rest := " " + v + "\n";
    assert rest == " " + Rendered(v);
    if b == |v| {
      SkipIs(rest, |rest|);
    } else {
      SkipIs(rest, 1 + b);
      var r := v[b..] + "\n";
      assert Skip(rest) == r && r[0] == v[b];
      if b == 0 && Quoted(r, '"').None? && Quoted(r, '\'').None? {
        assert r == v + "\n";
        BareUnquoted(v);
      } else {
        BareStripped(v, r, b);
      }
    }
  }

  /** A leading blank or an opening quote does not come back. */
  lemma BareStripped(v: string, r: string, b: nat)
    requires '=' !in v && '\n' !in v && b < |v| && !IsSpace(v[b]) && forall i :: 0 <= i < b ==> IsSpace(v[i])
    requires r == v[b..] + "\n" && Skip(" " + Rendered(v)) == r
    requires b > 0 || Quoted(r, '"').Some? || Quoted(r, '\'').Some?
    ensures ReadBack(v) != Some(v) && !ValueOk(v)
  {
    hide Until, Blanks, CropLength, Skip, Rendered;
    assert r[0] == v[b] && v[b] in v;
    assert |v| > b + 1 ==> r[1..][0] == v[b + 1];
    if Quoted(r, '"').Some? {
      QuotedLacks(r, '"');
    } else if Quoted(r, '\'').Some? {
      QuotedLacks(r, '\'');
    } else {
      assert IsSpace(v[0]);
      assert Bare(r).Some? ==> CleanValue(Bare(r).value) == "" || CleanValue(Bare(r).value)[0] == r[0];
    }
  }

  lemma BareUnquoted(v: string)
    requires '=' !in v && '\n' !in v && v != "" && !IsSpace(v[0])
    requires Skip(" " + Rendered(v)) == v + "\n"
    requires Quoted(v + "\n", '"').None? && Quoted(v + "\n", '\'').None?
    ensures ReadBack(v) == Some(v) <==> ValueOk(v)
  {
    hide Until, Blanks, CropLength, Skip, Rendered;
    var r := v + "\n";
    var m := Until(r, {';', '#'});
    assert r[1..] == v[1..] + "\n";
    assert ScanValue(" " + Rendered(v)) == Bare(r);
    if m < |v| {
      CleanLength(r[..m]);
      assert v[m] in v;
    } else {
      assert forall i :: 0 <= i < |v| ==> r[i] == v[i];
      UntilIs(r, {';', '#'}, |r|);
      assert r[..|r|] == r && r[|v|] == '\n';
      CropIs(r, CropLength(v));
      assert r[..CropLength(v)] == v[..CropLength(v)];
      assert Bare(r) == Some(r) && r != "\"\"" && r != "''";
      assert ReadBack(v) == Some(Crop(v));
      CropWhole(v);
    }
  }

  /** A value comes back from its line exactly when it is ValueOk. */
  lemma ValueComesBack(v: string)
    requires OneLine(v)
    ensures ReadBack(v) == Some(v) <==> ValueOk(v)
  {
    if '=' in v {
      QuotedValue(v);
    } else {
      BareValue(v);
    }
  }

  lemma CStringOf(s: string)
    requires '\0' !in s
    ensures CString(s) == s
  {
    UntilIs(s, {'\0'}, |s|);
  }

  /** How a line with a name in front of its first '=' is read. */
  lemma PairParses(p: string, rest: string)
    requires p != "" && '=' !in p && !IsSpace(p[0]) && p[0] != ';' && p[0] != '#'
    requires p[0] == '[' ==> |p| > 1 && p[1] == ']'
    requires '\0' !in p && '\0' !in rest
    ensures ParseLine(p + "=" + rest) ==
      if ScanValue(rest).Some? then Assign(Lower(Crop(p)), CleanValue(ScanValue(rest).value)) else Ignore
  {
    hide Until, Blanks, Crop, Lower, ScanValue, CleanValue;
    var w := p + "=" + rest;
    CStringOf(w);
    SkipIs(w, 0);
    assert w[0] == p[0];
    if p[0] == '[' {
      assert w[1..][0] == w[1] == p[1];
    }
    assert ScanSection(w).None?;
    assert forall i :: 0 <= i < |p| ==> w[i] == p[i] && p[i] in p;
    UntilIs(w, {'='}, |p|);
    assert w[..|p|] == p && w[|p| + 1..] == rest;
  }

  /** The padding of %-30s does not change what the name is. */
  lemma PaddedName(k: string)
    requires NameOk(k)
    ensures Lower(Crop(Padded(k) + " ")) == k
    ensures forall c :: c in Padded(k) + " " ==> c in k || c == ' '
  {
    var p := Padded(k) + " ";
    assert forall i :: |k| <= i < |p| ==> p[i] == ' ';
    assert p[..|k|] == k && p[|k| - 1] == k[|k| - 1];
    CropIs(p, |k|);
  }

  /** Printed under its section, an entry whose name is NameOk is read as that name with whatever is read for the value. */
  lemma EntryLineParses(k: string, v: string)
    requires OneLine(k) && OneLine(v) && NameOk(k)
    ensures ParseLine(EntryLine(k, v)) == if ReadBack(v).Some? then Assign(k, ReadBack(v).value) else Ignore
  {
    hide Lower, Crop, ParseLine, ScanValue, CleanValue;
    var p := Padded(k) + " ";
    PaddedName(k);
    assert EntryLine(k, v) == p + "=" + (" " + Rendered(v));
    assert p[0] == k[0] && (|k| > 1 ==> p[1] == k[1]);
    RenderedHasNoNul(v);
    PairParses(p, " " + Rendered(v));
  }

  lemma RenderedHasNoNul(v: string)
    requires '\0' !in v
    ensures '\0' !in " " + Rendered(v)
  {
  }

  /** The part of a line in front of '=' becomes a name. */
  lemma NamesAreOk(w: string, k: string)
    requires |k| <= ASCIILINESZ && k != "" && k <= w && '=' !in k && !IsSpace(w[0]) && w[0] != ';' && w[0] != '#'
    requires w[0] == '[' ==> |k| > 1 && k[1] == ']'
    ensures NameOk(Lower(Crop(k)))
  {
    hide Until, Blanks, CropLength;
    var c := Crop(k);
    assert c != "";
    assert w[0] == '[' ==> |c| > 1;
    assert forall i :: 0 <= i < |c| ==> c[i] == k[i] && c[i] in k;
    assert !IsSpace(c[|c| - 1]) && Lower(c)[|c| - 1] == ToLower(c[|c| - 1]);
    LowerTwice(c);
  }

  /** Whatever a line of the file assigns to, it is a NameOk name. */
  lemma AssignedNamesAreOk(line: string)
    requires |line| < ASCIILINESZ && ParseLine(line).Assign?
    ensures NameOk(ParseLine(line).key)
  {
    hide Until, Blanks, ScanValue, CleanValue, NameOk, Lower, Crop;
    var w := Skip(CString(line));
    var n := Until(w, {'='});
    if w[0] == '[' {
      assert ScanSection(w).None?;
      assert w[1..][0] == w[1];
      assert w[1] == ']';
    }
    NamesAreOk(w, w[..n]);
  }

  /** A printed entry is read back exactly when its name and its value are both fit for it. */
  lemma {:induction false} EntryComesBack(k: string, v: string)
    requires OneLine(k) && OneLine(v) && |EntryLine(k, v)| < ASCIILINESZ
    ensures ParseLine(EntryLine(k, v)) == Assign(k, v) <==> NameOk(k) && ValueOk(v)
  {
    ValueComesBack(v);
    if NameOk(k) {
      EntryLineParses(k, v);
    } else if ParseLine(EntryLine(k, v)) == Assign(k, v) {
      AssignedNamesAreOk(EntryLine(k, v));
    }
  }

  /** A printed section header is read back exactly when the name is fit for it. */
  lemma SectionComesBack(s: string)
    requires OneLine(s)
    ensures ParseLine("[" + s + "]\n") == Section(s) <==> SectionOk(s)
  {
    hide Until, Blanks, Lower, ScanEntry;
    var w := "[" + s + "]\n";
    CStringOf(w);
    SkipIs(w, 0);
    var tail := s + "]\n";
    assert w[1..] == tail;
    var n := Until(tail, {']'});
    if ']' !in s {
      assert forall i :: 0 <= i < |s| ==> tail[i] == s[i] && s[i] in s;
      UntilIs(tail, {']'}, |s|);
      assert w[1..1 + |s|] == s;
    } else {
      var i :| 0 <= i < |s| && s[i] == ']';
      assert tail[i] == ']';
      assert n < |s|;
    }
  }

  /** Whatever a line makes the current section, the name is lower case, non-empty and without ']'. */
  lemma SectionsAreOk(line: string)
    requires ParseLine(line).Section?
    ensures SectionOk(ParseLine(line).name)
  {
    var w := Skip(CString(line));
    var s := ScanSection(w).value;
    assert forall i :: 0 <= i < |s| ==> s[i] == w[1..][i] && s[i] != ']';
    LowerTwice(s);
  }

  // ---------------------------------------------------------------- the empty value

  /** What stands behind the '=' of an entry line and the blanks that follow it. */
  function BehindEquals(line: string): Option<string> {
    var w := Skip(CString(line));
    var n := Until(w, {'='});
    if w == [] || w[0] == ';' || w[0] == '#' || ScanSection(w).Some? || n == 0 || n == |w| then None
    else Some(Skip(w[n + 1..]))
  }

  /** Nothing but blanks, or two quotes. */
  predicate Hollow(x: string) {
    (forall i :: 0 <= i < |x| ==> IsSpace(x[i])) || x == "\"\"" || x == "''"
  }

  /** Two quotes that are followed at once by a comment or by the end of the text. */
  predicate BareQuotes(r: string) {
    && |r| >= 2 && r[0] == r[1] && (r[0] == '"' || r[0] == '\'')
    && (|r| > 2 ==> r[2] == ';' || r[2] == '#')
  }

  /** A hollow quoted run, or bare quotes and no quoted run. */
  predicate ReadsEmpty(r: string) {
    if Quoted(r, '"').Some? then Hollow(Quoted(r, '"').value)
    else if Quoted(r, '\'').Some? then Hollow(Quoted(r, '\'').value)
    else BareQuotes(r)
  }

  /**
    The source promises that "" and '' are read as the empty value.  Exactly these lines are: an entry line
    whose value is a hollow quoted run, or two quotes with a comment or the end of the text right behind
    them.  A line break behind the quotes is neither.
  */
  lemma EmptyValueExactly(line: string)
    ensures ParseLine(line).Assign? && ParseLine(line).val == "" <==>
      BehindEquals(line).Some? && ReadsEmpty(BehindEquals(line).value)
  {
    hide Until, Blanks, Lower, Crop, ScanSection, ReadsEmpty, ScanValue, CleanValue;
    var w := Skip(CString(line));
    var n := Until(w, {'='});
    if n < |w| {
      EmptyScan(w[n + 1..]);
    }
  }

  lemma EmptyScan(rest: string)
    ensures ScanValue(rest).Some? && CleanValue(ScanValue(rest).value) == "" <==> ReadsEmpty(Skip(rest))
  {
    hide Quoted, Bare, CleanValue, Hollow, BareQuotes;
    var r := Skip(rest);
    assert r != "" ==> !IsSpace(r[0]) by { hide *; }
    if Quoted(r, '"').Some? {
      HollowIsEmpty(Quoted(r, '"').value);
    } else if Quoted(r, '\'').Some? {
      HollowIsEmpty(Quoted(r, '\'').value);
    } else {
      BareIsEmpty(r);
    }
  }

  lemma HollowIsEmpty(x: string)
    ensures CleanValue(x) == "" <==> Hollow(x)
  {
    hide CropLength;
    if CropLength(x) > 0 {
      assert !IsSpace(x[CropLength(x) - 1]);
    }
  }

  lemma BareIsEmpty(r: string)
    requires r != "" ==> !IsSpace(r[0])
    ensures Bare(r).Some? && CleanValue(Bare(r).value) == "" <==> BareQuotes(r)
  {
    hide Until, CropLength;
    var m := Until(r, {';', '#'});
    if m > 0 {
      HollowIsEmpty(r[..m]);
      assert r[..m][0] == r[0];
    }
    if BareQuotes(r) {
      assert r[0] !in {';', '#'} && r[1] !in {';', '#'};
      assert m == 2;
      assert r[..2] == [r[0], r[0]];
    }
  }

  /**
    So two quotes are the empty value at the end of an unterminated last line and in front of a comment, and
    a quoted run of blanks or quotes is; but on an ordinary line two quotes are the value themselves.
  */
  lemma EmptyQuotes(k: string, q: char, c: char, rest: string)
    requires NameOk(k) && OneLine(k) && (q == '"' || q == '\'')
    requires (c == ';' || c == '#') && OneLine(rest)
    ensures ParseLine(k + " = " + [q, q]) == Assign(k, "")
    ensures ParseLine(k + " = " + ([q, q, c] + rest + "\n")) == Assign(k, "")
    ensures ParseLine(k + " = " + "'\"\"'\n") == ParseLine(k + " = " + "\" \"\n") == Assign(k, "")
    ensures ParseLine(k + " = " + ([q, q] + "\n")) == Assign(k, [q, q])
  {
    hide ParseLine, ReadsEmpty, NameOk;
    QuotesAlone(q);
    ReadsAsEmpty(k, [q, q]);
    QuotesComment(q, c, rest);
    ReadsAsEmpty(k, [q, q, c] + rest + "\n");
    QuotesQuoted();
    ReadsAsEmpty(k, "'\"\"'\n");
    ReadsAsEmpty(k, "\" \"\n");
    EntryReads(k, [q, q] + "\n");
    TwoQuotes(q);
  }

  lemma QuotesAlone(q: char)
    requires q == '"' || q == '\''
    ensures ReadsEmpty([q, q])
  {
    assert [q, q][1..] == [q];
  }

  lemma QuotesComment(q: char, c: char, rest: string)
    requires (q == '"' || q == '\'') && (c == ';' || c == '#')
    ensures ReadsEmpty([q, q, c] + rest + "\n")
  {
    var r := [q, q, c] + rest + "\n";
    assert r[1..][0] == q;
  }

  lemma QuotesQuoted()
    ensures ReadsEmpty("'\"\"'\n") && ReadsEmpty("\" \"\n")
  {
    var a, b := "'\"\"'\n", "\" \"\n";
    UntilIs(a[1..], {'\''}, 2);
    UntilIs(b[1..], {'"'}, 1);
    assert a[1..3] == "\"\"" && b[1..2] == " ";
  }

  /** The line of an entry with any text behind the '='. */
  lemma EntryReads(k: string, v: string)
    requires NameOk(k) && OneLine(k) && '\0' !in v
    ensures ParseLine(k + " = " + v) ==
      if ScanValue(" " + v).Some? then Assign(k, CleanValue(ScanValue(" " + v).value)) else Ignore
  {
    hide Lower, Crop, CleanValue, ParseLine, ScanValue;
    var p := k + " ";
    NameBlank(k);
    assert p[0] == k[0] && (|k| > 1 ==> p[1] == k[1]);
    assert k + " = " + v == p + "=" + (" " + v);
    PairParses(p, " " + v);
  }

  lemma ReadsAsEmpty(k: string, v: string)
    requires NameOk(k) && OneLine(k) && '\0' !in v && v != "" && !IsSpace(v[0]) && ReadsEmpty(v)
    ensures ParseLine(k + " = " + v) == Assign(k, "")
  {
    hide ParseLine, ReadsEmpty, NameOk, ScanValue, CleanValue;
    EntryReads(k, v);
    SkipIs(" " + v, 1);
    assert (" " + v)[1..] == v;
    EmptyScan(" " + v);
  }

  lemma NameBlank(k: string)
    requires NameOk(k)
    ensures Lower(Crop(k + " ")) == k
  {
    CropIs(k + " ", |k|);
    assert (k + " ")[..|k|] == k;
  }

  lemma TwoQuotes(q: char)
    requires q == '"' || q == '\''
    ensures ScanValue(" " + ([q, q] + "\n")) == Some([q, q] + "\n") && CleanValue([q, q] + "\n") == [q, q]
  {
    var a, b := [q, q], [q, q] + "\n";
    SkipIs(" " + b, 1);
    assert (" " + b)[1..] == b && b[1..] == [q, '\n'];
    UntilIs(b, {';', '#'}, 3);
    assert b[..3] == b;
    CropIs(b, 2);
    assert b[..2] == a;
  }
}
