/**
  iniparser.cpp in place: the loops that print a dictionary to a file and fill a dictionary
  from a file, each against its function in IniText.dfy.
*/
module IniParser {
  import opened Wrappers
  import opened CStrings
  import opened SlotTable
  import opened Lists
  import opened IniText
  import opened Dictionary

  method GetNSec(d: Dictionary) returns (nsec: nat)
    requires d.Valid()
    ensures nsec == |SectionNames(Occupied(d.Slots()))|
  {
    hide Find, Count, Distinct, Hash, Collect, Occupied;
    ghost var s := d.Slots();
    nsec := 0;
    var i := 0;
    assert s[..0] == [] && SectionNames(Occupied([])) == [] by { Nothing(SectionName); }
    while i < d.size
      invariant i <= d.size
      invariant nsec == |SectionNames(Occupied(s[..i]))|
    {
      NextSlot(s, i, SectionName);
      if d.key[i].Some? && IsSection(d.key[i].value) {
        nsec := nsec + 1;
      }
      i := i + 1;
    }
    assert s[..i] == s;
  }

  method GetSecName(d: Dictionary, n: int) returns (r: Option<string>)
    requires d.Valid()
    ensures var names := SectionNames(Occupied(d.Slots()));
      r == if 0 <= n < |names| then Some(names[n]) else None
  {
    hide Find, Count, Distinct, Hash, Collect, Occupied;
    if n < 0 {
      return None;
    }
    ghost var s := d.Slots();
    var foundsec := 0;
    var i := 0;
    assert s[..0] == [] && SectionNames(Occupied([])) == [] by { Nothing(SectionName); }
    while i < d.size
      invariant i <= d.size
      invariant foundsec == |SectionNames(Occupied(s[..i]))| <= n
    {
      NextSlot(s, i, SectionName);
      if d.key[i].Some? && IsSection(d.key[i].value) {
        foundsec := foundsec + 1;
        if foundsec > n {
          PrefixOfAll(s, i + 1, SectionName);
          return d.key[i];
        }
      }
      i := i + 1;
    }
    assert s[..i] == s;
    r := None;
  }

  lemma Nothing<U>(piece: Entry -> seq<U>)
    ensures Collect(Occupied([]), piece) == []
  {
  }

  /** One round of the printing loop: appends the lines of section `sec`; None when a value is NULL. */
  method DumpSection(d: Dictionary, sec: string, f: string) returns (r: Option<string>)
    requires d.Valid()
    ensures r.None? <==> exists e :: e in Occupied(d.Slots()) && Belongs(e.key, sec) && e.val.None?
    ensures r.Some? ==> r.value == f + Flatten(SectionLines(Occupied(d.Slots()))(sec))
  {
    hide Find, Count, Distinct, Hash, Collect, Occupied, Flatten, MemberLine, EntryLine, Padded, NameIn, ValueText;
    ghost var s := d.Slots();
    ghost var head := ["\n", "[" + sec + "]\n"];
    var out := f + ("\n" + ("[" + sec + "]\n"));
    assert out == f + Flatten(head + Collect(Occupied(s[..0]), MemberLine(sec))) by {
      HeadText(sec);
      Nothing(MemberLine(sec));
      assert s[..0] == [] && head + [] == head;
    }
    var j := 0;
    while j < d.size
      invariant j <= d.size
      invariant out == f + Flatten(head + Collect(Occupied(s[..j]), MemberLine(sec)))
      invariant forall i :: 0 <= i < j && s[i].Some? && Belongs(s[i].value.key, sec) ==> s[i].value.val.Some?
    {
      if d.key[j].Some? && Belongs(d.key[j].value, sec) {
        if d.val[j].None? {
          OccupiedIn(s, s[j].value);
          return None;
        }
        var name := d.key[j].value[|sec| + 1..];
        EntryText(s[j].value, sec);
        if '=' in d.val[j].value {
          out := out + (Padded(name) + " = " + ("\"" + d.val[j].value + "\"\n"));
        } else {
          out := out + (Padded(name) + " = " + (d.val[j].value + "\n"));
        }
      }
      LineAdded(f, head, s, j, sec);
      j := j + 1;
    }
    assert s[..j] == s;
    NoneIn(s, sec);
    r := Some(out);
  }

  lemma EntryText(e: Entry, sec: string)
    requires Belongs(e.key, sec) && e.val.Some?
    ensures EntryLine(NameIn(e.key, sec), ValueText(e)) == Padded(e.key[|sec| + 1..]) + " = " +
      if '=' in e.val.value then "\"" + e.val.value + "\"\n" else e.val.value + "\n"
  {
  }

  /** What one slot adds to the text of a section. */
  lemma LineAdded(f: string, head: seq<string>, s: Slots, j: nat, sec: string)
    requires j < |s|
    ensures f + Flatten(head + Collect(Occupied(s[..j + 1]), MemberLine(sec))) ==
      f + Flatten(head + Collect(Occupied(s[..j]), MemberLine(sec)))
      + if s[j].Some? && Belongs(s[j].value.key, sec) then EntryLine(NameIn(s[j].value.key, sec), ValueText(s[j].value)) else ""
  {
    hide Flatten, Collect, Occupied, EntryLine;
    var before := Collect(Occupied(s[..j]), MemberLine(sec));
    NextSlot(s, j, MemberLine(sec));
    if s[j].Some? && Belongs(s[j].value.key, sec) {
      var line := EntryLine(NameIn(s[j].value.key, sec), ValueText(s[j].value));
      FlattenLast(head + before, line);
      assert head + (before + [line]) == head + before + [line];
    } else {
      assert before + [] == before;
    }
  }

  lemma HeadText(sec: string)
    ensures Flatten(["\n", "[" + sec + "]\n"]) == "\n" + ("[" + sec + "]\n")
  {
    var l := "[" + sec + "]\n";
    assert ["\n", l] == ["\n"] + [l];
    FlattenLast(["\n"], l);
    CollectOne("\n", (l: string) => l);
  }

  lemma NoneIn(s: Slots, sec: string)
    requires forall i :: 0 <= i < |s| && s[i].Some? && Belongs(s[i].value.key, sec) ==> s[i].value.val.Some?
    ensures forall e :: e in Occupied(s) && Belongs(e.key, sec) ==> e.val.Some?
  {
    forall e | e in Occupied(s) && Belongs(e.key, sec)
      ensures e.val.Some?
    {
      OccupiedIn(s, e);
    }
  }

  method DumpPlain(d: Dictionary) returns (r: Option<string>)
    requires d.Valid()
    ensures r.None? <==> exists e :: e in Occupied(d.Slots()) && e.val.None?
    ensures r.Some? ==> r.value == Flatten(Collect(Occupied(d.Slots()), PlainLine))
  {
    hide Find, Count, Distinct, Hash, Collect, Occupied, Flatten;
    ghost var s := d.Slots();
    var out := "";
    var i := 0;
    assert out == Flatten(Collect(Occupied(s[..0]), PlainLine)) by {
      Nothing(PlainLine);
      assert s[..0] == [];
      NoLines();
    }
    while i < d.size
      invariant i <= d.size
      invariant out == Flatten(Collect(Occupied(s[..i]), PlainLine))
      invariant forall k :: 0 <= k < i && s[k].Some? ==> s[k].value.val.Some?
    {
      ghost var before := Collect(Occupied(s[..i]), PlainLine);
      NextSlot(s, i, PlainLine);
      assert before + [] == before;
      if d.key[i].Some? {
        if d.val[i].None? {
          OccupiedIn(s, s[i].value);
          return None;
        }
        FlattenLast(before, d.key[i].value + " = " + d.val[i].value + "\n");
        out := out + (d.key[i].value + " = " + d.val[i].value + "\n");
      }
      i := i + 1;
    }
    assert s[..i] == s;
    forall e | e in Occupied(s)
      ensures e.val.Some?
    {
      OccupiedIn(s, e);
    }
    r := Some(out);
  }

  lemma NoLines()
    ensures Flatten([]) == ""
  {
  }

  /** iniparser_dump_ini: the text it writes, or None if it needs the characters of a NULL value. */
  method DumpIni(d: Dictionary) returns (r: Option<string>)
    requires d.Valid()
    ensures r == if Dumpable(Occupied(d.Slots())) then Some(DumpText(Occupied(d.Slots()))) else None
  {
    hide Find, Count, Distinct, Hash, Collect, Occupied, Flatten, Belongs, SectionNames;
    ghost var es := Occupied(d.Slots());
    ghost var names := SectionNames(es);
    var nsec := GetNSec(d);
    if nsec < 1 {
      r := DumpPlain(d);
      return;
    }
    var out := "";
    var i := 0;
    assert out == Flatten(Collect(names[..0], SectionLines(es))) by {
      NoSections(names[..0], SectionLines(es));
    }
    while i < nsec
      invariant i <= nsec
      invariant out == Flatten(Collect(names[..i], SectionLines(es)))
      invariant forall k, e :: 0 <= k < i && e in es && Belongs(e.key, names[k]) ==> e.val.Some?
    {
      var secname := GetSecName(d, i);
      r := DumpSection(d, secname.value, out);
      if r.None? {
        assert names[i] in names;
        assert !Dumpable(es);
        return;
      }
      CollectNext(names, i, SectionLines(es));
      FlattenJoin(Collect(names[..i], SectionLines(es)), SectionLines(es)(names[i]));
      out := r.value;
      i := i + 1;
    }
    assert names[..i] == names;
    FlattenLast(Collect(names, SectionLines(es)), "\n");
    r := Some(out + "\n");
  }

  lemma NoSections(names: seq<string>, piece: string -> seq<string>)
    requires names == []
    ensures Flatten(Collect(names, piece)) == ""
  {
  }

  /** fgets: the next line and what is left of the file. */
  method Fgets(text: string) returns (lin: string, rest: string)
    requires text != []
    ensures lin == text[..FgetsLength(text)] && rest == text[FgetsLength(text)..]
  {
    var n := 0;
    while n < ASCIILINESZ - 1 && n < |text| && text[n] != '\n'
      invariant n < ASCIILINESZ && n <= Until(text, {'\n'})
    {
      n := n + 1;
    }
    if n < ASCIILINESZ - 1 && n < |text| {
      n := n + 1;
    }
    lin, rest := text[..n], text[n..];
  }

  /** One round of the reading loop: at most one dictionary_set, and the section it leaves current. */
  method LoadLine(d: Dictionary, sec: string, lin: string) returns (sec': string)
    requires d.Valid()
    modifies d, d.val, d.key, d.hash
    ensures d.Valid()
    ensures match ParseLine(lin)
      case Ignore => d.Slots() == old(d.Slots()) && sec' == sec
      case Section(name) => d.Slots() == Put(old(d.Slots()), name, None) && sec' == name
      case Assign(key, val) => d.Slots() == Put(old(d.Slots()), sec + ":" + key, Some(val)) && sec' == sec
    ensures d.val == old(d.val) || fresh(d.val)
    ensures d.key == old(d.key) || fresh(d.key)
    ensures d.hash == old(d.hash) || fresh(d.hash)
  {
    hide Find, Count, Distinct, Hash, Put, ScanSection, ScanEntry, Skip, Crop, CString;
    sec' := sec;
    var where := StrSkp(CString(lin));
    if where == [] || where[0] == ';' || where[0] == '#' {
      return;
    }
    var name := ScanSection(where);
    if name.Some? {
      sec' := StrLwc(name.value);
      d.Set(sec', None);
    } else {
      var pair := ScanEntry(where);
      if pair.Some? {
        var key := StrCrop(pair.value.0);
        key := StrLwc(key);
        var val := "";
        if pair.value.1 != "\"\"" && pair.value.1 != "''" {
          val := StrCrop(pair.value.1);
        }
        d.Set(sec + ":" + key, Some(val));
      }
    }
  }

  /** iniparser_load: NULL if the file cannot be opened. */
  method LoadIni(file: Option<string>) returns (r: Dictionary?)
    ensures r == null <==> file.None?
    ensures r != null ==> fresh(r) && fresh(r.val) && fresh(r.key) && fresh(r.hash) && r.Valid()
    ensures r != null ==> r.Slots() == LoadSlots(file.value)
  {
    if file.None? {
      return null;
    }
    r := LoadText(file.value);
  }

  /** The reading loop. */
  method LoadText(text: string) returns (d: Dictionary)
    ensures fresh(d) && fresh(d.val) && fresh(d.key) && fresh(d.hash) && d.Valid()
    ensures d.Slots() == LoadSlots(text)
  {
    hide Find, Count, Distinct, Hash, Put, ParseLine, FgetsLength;
    d := new Dictionary(0);
    var sec, ini := "", text;
    while ini != []
      invariant fresh(d) && fresh(d.val) && fresh(d.key) && fresh(d.hash) && d.Valid()
      invariant PutAll(d.Slots(), Effects(Lines(ini), sec)) == LoadSlots(text)
      decreases |ini|
    {
      LinesStep(ini, sec);
      var lin;
      lin, ini := Fgets(ini);
      ghost var e := ParseLine(lin);
      if e.Section? {
        PutAllStep(d.Slots(), Entry(e.name, None), Effects(Lines(ini), e.name));
      } else if e.Assign? {
        PutAllStep(d.Slots(), Entry(sec + ":" + e.key, Some(e.val)), Effects(Lines(ini), sec));
      }
      sec := LoadLine(d, sec, lin);
    }
  }

  lemma LinesStep(text: string, sec: string)
    requires text != []
    ensures var lin, rest := text[..FgetsLength(text)], text[FgetsLength(text)..];
      Effects(Lines(text), sec) == match ParseLine(lin)
        case Ignore => Effects(Lines(rest), sec)
        case Section(name) => [Entry(name, None)] + Effects(Lines(rest), name)
        case Assign(key, val) => [Entry(sec + ":" + key, Some(val))] + Effects(Lines(rest), sec)
  {
    assert Lines(text)[1..] == Lines(text[FgetsLength(text)..]);
  }

  lemma PutAllStep(s: Slots, e: Entry, es: seq<Entry>)
    requires |s| > 0
    ensures PutAll(s, [e] + es) == PutAll(Put(s, e.key, e.val), es)
  {
    assert ([e] + es)[1..] == es;
  }

  /** iniparser_setstr */
  method SetStr(d: Dictionary, entry: string, val: Option<string>)
    requires d.Valid()
    modifies d, d.val, d.key, d.hash
    ensures d.Valid() && d.Slots() == Put(old(d.Slots()), Lower(entry), val)
  {
    var key := StrLwc(entry);
    d.Set(key, val);
  }

  /** iniparser_getstring */
  method GetString(d: Dictionary, entry: string) returns (r: Lookup)
    requires d.Valid()
    ensures r == Search(d.Slots(), Lower(entry))
  {
    var key := StrLwc(entry);
    r := d.Get(key);
  }
}
