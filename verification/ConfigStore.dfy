/**
  The configuration transaction of haussteuerung.cpp (CMD_SET_CONFIG) and of Abluft::setLow: under the
  configuration semaphore, load the file, set one key, write everything back.  The semaphore makes it
  one atomic step on the text of the file.
*/
module ConfigStore {
  import opened Wrappers
  import opened CStrings
  import opened Lists
  import opened SlotTable
  import opened Dictionary
  import opened IniText
  import opened IniLine
  import opened IniRoundTrip
  import opened IniExact
  import opened IniParser

  /** The table in the moment it is written. */
  function Changed(file: string, key: string, val: string): Slots {
    Put(LoadSlots(file), Lower(key), Some(val))
  }

  /**
    The new text of the file, or None if the printer meets a NULL value.  A file that cannot be read gives
    the NULL dictionary, which nothing is set in and nothing printed from: the new file is empty.
  */
  method SetConfig(file: Option<string>, key: string, val: string) returns (file': Option<string>)
    ensures file' == if file.None? then Some("")
      else if Dumpable(Occupied(Changed(file.value, key, val))) then Some(DumpText(Occupied(Changed(file.value, key, val))))
      else None
  {
    hide Find, Count, Distinct, Hash, Dumpable, DumpText;
    var conf := LoadIni(file);
    if conf == null {
      return Some("");
    }
    SetStr(conf, key, Some(val));
    file' := DumpIni(conf);
  }

  /**
    The transaction updates one setting and leaves every other one intact: what the file means
    afterwards is the old meaning with the one key changed.
  */
  lemma TransactionUpdatesOneKey(file: string, key: string, val: string)
    requires Printable(Occupied(Changed(file, key, val))) && LineSized(Occupied(Changed(file, key, val)))
    ensures Dumpable(Occupied(Changed(file, key, val)))
    ensures ToMap(LoadSlots(DumpText(Occupied(Changed(file, key, val))))) == ToMap(LoadSlots(file))[Lower(key) := Some(val)]
  {
    LoadIsDistinct(file);
    PutIsUpdate(LoadSlots(file), Lower(key), Some(val));
    ReadingUndoesPrinting(Changed(file, key, val));
  }

  lemma ChangedEntries(s: Slots, k: string, v: string, e: Entry)
    requires Distinct(s) && |s| > 0
    ensures e in Occupied(Put(s, k, Some(v))) <==> e == Entry(k, Some(v)) || (e in Occupied(s) && e.key != k)
  {
    PutDistinct(s, k, Some(v));
    PutIsUpdate(s, k, Some(v));
    MapByEntries(Put(s, k, Some(v)), e.key);
    MapByEntries(s, e.key);
  }

  /** A new value that a caller can check against its own line: fit name, fit value, existing section. */
  predicate GoodSetting(es: seq<Entry>, sec: string, name: string, val: string) {
    && sec in SectionNames(es) && IsSection(sec)
    && NameOk(name) && OneLine(name)
    && ValueOk(val) && OneLine(val)
    && |EntryLine(name, val)| < ASCIILINESZ
  }

  lemma ChangedNames(s: Slots, sec: string, name: string, val: string)
    requires Distinct(s) && |s| > 0 && GoodSetting(Occupied(s), sec, name, val)
    ensures forall n :: n in SectionNames(Occupied(Put(s, sec + ":" + name, Some(val)))) <==> n in SectionNames(Occupied(s))
  {
    hide NameOk, ValueOk, EntryLine, Put, Distinct, Occupied, SectionNames;
    var k := sec + ":" + name;
    var es, es' := Occupied(s), Occupied(Put(s, k, Some(val)));
    OwnSection(k, sec, name);
    forall n
      ensures n in SectionNames(es') <==> n in SectionNames(es)
    {
      NameIsEntry(es, n);
      NameIsEntry(es', n);
      forall e
        ensures e in es' <==> e == Entry(k, Some(val)) || (e in es && e.key != k)
      {
        ChangedEntries(s, k, val, e);
      }
    }
  }

  /** Setting a good value under an existing section keeps the dictionary printable. */
  lemma GoodSettingStaysPrintable(s: Slots, sec: string, name: string, val: string)
    requires Distinct(s) && |s| > 0 && Printable(Occupied(s)) && GoodSetting(Occupied(s), sec, name, val)
    ensures Printable(Occupied(Put(s, sec + ":" + name, Some(val))))
  {
    hide NameOk, ValueOk, EntryLine, Put, Distinct, Occupied, SectionNames;
    var k := sec + ":" + name;
    var es, es' := Occupied(s), Occupied(Put(s, k, Some(val)));
    ChangedNames(s, sec, name, val);
    OwnSection(k, sec, name);
    forall e | e in es'
      ensures EntryOk(e) && (!IsSection(e.key) ==> Head(e.key) in SectionNames(es'))
    {
      ChangedEntries(s, k, val, e);
    }
    assert SectionNames(es') != [] by { assert sec in SectionNames(es'); }
  }

  lemma GoodSettingStaysSized(s: Slots, sec: string, name: string, val: string)
    requires Distinct(s) && |s| > 0 && LineSized(Occupied(s)) && GoodSetting(Occupied(s), sec, name, val) && OneLine(sec)
    ensures LineSized(Occupied(Put(s, sec + ":" + name, Some(val))))
  {
    hide NameOk, ValueOk, EntryLine, Put, Distinct, Occupied, SectionNames;
    var k := sec + ":" + name;
    var es, es' := Occupied(s), Occupied(Put(s, k, Some(val)));
    ChangedNames(s, sec, name, val);
    forall e | e in es'
      ensures OneLine(e.key) && OneLine(ValueText(e))
    {
      ChangedEntries(s, k, val, e);
      assert forall c :: c in k ==> c in sec || c == ':' || c in name;
    }
    forall l | l in DumpLines(es')
      ensures |l| < ASCIILINESZ
    {
      ChangedLine(s, sec, name, val, l);
    }
  }

  lemma ChangedLine(s: Slots, sec: string, name: string, val: string, l: string)
    requires Distinct(s) && |s| > 0 && LineSized(Occupied(s)) && GoodSetting(Occupied(s), sec, name, val)
    requires l in DumpLines(Occupied(Put(s, sec + ":" + name, Some(val))))
    ensures |l| < ASCIILINESZ
  {
    hide NameOk, ValueOk, EntryLine, Put, Distinct, Occupied, SectionNames;
    var k := sec + ":" + name;
    var es, es' := Occupied(s), Occupied(Put(s, k, Some(val)));
    ChangedNames(s, sec, name, val);
    var names' := SectionNames(es');
    assert names' != [] by { assert sec in names'; }
    CollectIn(names', SectionLines(es'), l);
    if l != "\n" {
      var i :| 0 <= i < |names'| && l in SectionLines(es')(names'[i]);
      var n := names'[i];
      assert n in SectionNames(es);
      if l == "[" + n + "]\n" {
        HeaderOf(es, n);
      } else {
        CollectIn(es', MemberLine(n), l);
        var j :| 0 <= j < |es'| && l in MemberLine(n)(es'[j]);
        var e := es'[j];
        ChangedEntries(s, k, val, e);
        NameIsEntry(es, n);
        if e == Entry(k, Some(val)) {
          OwnSection(k, sec, name);
          BelongsIsHead(k, n);
        } else {
          LineOfMember(es, e, n);
        }
      }
    }
  }

  lemma HeaderOf(es: seq<Entry>, n: string)
    requires LineSized(es) && n in SectionNames(es)
    ensures |"[" + n + "]\n"| < ASCIILINESZ
  {
    var names := SectionNames(es);
    var i :| 0 <= i < |names| && names[i] == n;
    var l := "[" + n + "]\n";
    assert l in SectionLines(es)(names[i]);
    CollectIn(names, SectionLines(es), l);
    assert l in DumpLines(es);
  }

  /**
    The transaction as a caller can use it: in a file that can be saved, a good value under an existing
    section is stored, nothing else changes, and the new file can be saved again.
  */
  lemma GoodSettingIsStored(file: string, key: string, sec: string, name: string, val: string)
    requires Printable(Occupied(LoadSlots(file))) && LineSized(Occupied(LoadSlots(file)))
    requires Lower(key) == sec + ":" + name && OneLine(sec)
    requires GoodSetting(Occupied(LoadSlots(file)), sec, name, val)
    ensures var file' := DumpText(Occupied(Changed(file, key, val)));
      && ToMap(LoadSlots(file')) == ToMap(LoadSlots(file))[sec + ":" + name := Some(val)]
      && Printable(Occupied(LoadSlots(file'))) && LineSized(Occupied(LoadSlots(file')))
      && DumpText(Occupied(LoadSlots(file'))) == file'
    ensures Dumpable(Occupied(Changed(file, key, val)))
    ensures forall n :: n in SectionNames(Occupied(Changed(file, key, val))) <==> n in SectionNames(Occupied(LoadSlots(file)))
  {
    hide Printable, LineSized, GoodSetting, Put, Distinct, Occupied, LoadSlots, DumpText, Dumpable;
    var s, t := LoadSlots(file), Changed(file, key, val);
    LoadIsDistinct(file);
    GoodSettingStaysPrintable(s, sec, name, val);
    GoodSettingStaysSized(s, sec, name, val);
    TransactionUpdatesOneKey(file, key, val);
    PutDistinct(s, Lower(key), Some(val));
    PrintedTextIsStable(t);
    LoadedStaysPrintable(t);
    LoadedStaysSized(t);
    ChangedNames(s, sec, name, val);
  }

  /**
    And exactly the good values are stored: if the changed table is line-sized, the file that is written means
    the old settings with the one key changed if and only if the key names an entry of an existing section and
    name and value are fit.
  */
  lemma SettingIsStoredExactly(file: string, key: string, val: string)
    requires Printable(Occupied(LoadSlots(file))) && LineSized(Occupied(Changed(file, key, val)))
    ensures var es, t, k := Occupied(LoadSlots(file)), Changed(file, key, val), Lower(key);
      Dumpable(Occupied(t)) && ToMap(LoadSlots(DumpText(Occupied(t)))) == ToMap(LoadSlots(file))[k := Some(val)] <==>
        !IsSection(k) && Head(k) in SectionNames(es) && NameOk(Tail(k)) && ValueOk(val)
  {
    hide Lower, Occupied, LoadSlots, DumpText, Dumpable, LineSized, Distinct, Put, SectionNames, NameOk, ValueOk, SectionOk, Head, Tail;
    var s, t, k := LoadSlots(file), Changed(file, key, val), Lower(key);
    var es, es' := Occupied(s), Occupied(t);
    LoadIsDistinct(file);
    PutIsUpdate(s, k, Some(val));
    RoundTripExactly(t);
    forall e
      ensures e in es' <==> e == Entry(k, Some(val)) || (e in es && e.key != k)
    {
      ChangedEntries(s, k, val, e);
    }
    if !IsSection(k) {
      forall n
        ensures n in SectionNames(es') <==> n in SectionNames(es)
      {
        NameIsEntry(es, n);
        NameIsEntry(es', n);
      }
      if Head(k) in SectionNames(es) && NameOk(Tail(k)) && ValueOk(val) {
        assert SectionNames(es') != [] by { assert Head(k) in SectionNames(es'); }
        assert forall e :: e in es' ==> EntryOk(e);
      }
    }
    assert Entry(k, Some(val)) in es';
  }

  lemma LoadedStaysSized(t: Slots)
    requires Distinct(t) && Printable(Occupied(t)) && LineSized(Occupied(t))
    ensures LineSized(Occupied(LoadSlots(DumpText(Occupied(t)))))
  {
    hide Occupied, LoadSlots, DumpText, Distinct, DumpLines, SectionNames, EntryOk;
    LoadedListing(t);
    PrintableIsShelved(Occupied(t));
    ListingIsUnique(t);
    OccupiedIsUnique(t);
    ListingPrintsTheSame(Occupied(t));
  }

  lemma LoadedStaysPrintable(t: Slots)
    requires Distinct(t) && Printable(Occupied(t)) && LineSized(Occupied(t))
    ensures Printable(Occupied(LoadSlots(DumpText(Occupied(t)))))
  {
    hide LineSized, EntryOk, Occupied, LoadSlots, DumpText, Distinct;
    LoadedListing(t);
    PrintableIsShelved(Occupied(t));
    ListingIsUnique(t);
    forall n
      ensures n in SectionNames(Listing(Occupied(t))) <==> n in SectionNames(Occupied(t))
    {
      NameIsEntry(Listing(Occupied(t)), n);
      NameIsEntry(Occupied(t), n);
    }
    var names := SectionNames(Occupied(t));
    assert names != [] ==> names[0] in names;
  }

  // ---------------------------------------------------------------- message after message

  /** One CMD_SET_CONFIG message. */
  datatype Message = Message(key: string, val: string)

  predicate GoodMessage(es: seq<Entry>, m: Message) {
    var k := Lower(m.key);
    !IsSection(k) && GoodSetting(es, Head(k), Tail(k), m.val)
  }

  /** The file after a row of transactions; None once the printer meets a NULL value. */
  function FileAfter(file: string, ms: seq<Message>): Option<string>
    decreases |ms|
  {
    if ms == [] then Some(file)
    else
      var es := Occupied(Changed(file, ms[0].key, ms[0].val));
      if Dumpable(es) then FileAfter(DumpText(es), ms[1..]) else None
  }

  /** The settings after the same row of updates. */
  function SettingsAfter(m: map<string, Option<string>>, ms: seq<Message>): map<string, Option<string>>
    decreases |ms|
  {
    if ms == [] then m else SettingsAfter(m[Lower(ms[0].key) := Some(ms[0].val)], ms[1..])
  }

  /**
    Over any row of good messages no transaction meets a NULL value, the file means the fold of the updates,
    and it can be saved again.
  */
  lemma {:induction false} MessagesAreStored(file: string, ms: seq<Message>)
    requires Printable(Occupied(LoadSlots(file))) && LineSized(Occupied(LoadSlots(file)))
    requires forall m :: m in ms ==> GoodMessage(Occupied(LoadSlots(file)), m)
    ensures FileAfter(file, ms).Some?
    ensures var last := LoadSlots(FileAfter(file, ms).value);
      && ToMap(last) == SettingsAfter(ToMap(LoadSlots(file)), ms)
      && Printable(Occupied(last)) && LineSized(Occupied(last))
    decreases |ms|
  {
    if ms != [] {
      hide Printable, LineSized, Changed, Occupied, LoadSlots, DumpText, Dumpable, GoodMessage;
      var file' := DumpText(Occupied(Changed(file, ms[0].key, ms[0].val)));
      assert ms[0] in ms;
      GoodMessageIsStored(file, ms[0]);
      forall m | m in ms[1..]
        ensures GoodMessage(Occupied(LoadSlots(file')), m)
      {
        assert m in ms;
        StaysGood(file, ms[0], m);
      }
      MessagesAreStored(file', ms[1..]);
    }
  }

  lemma GoodMessageIsStored(file: string, m: Message)
    requires Printable(Occupied(LoadSlots(file))) && LineSized(Occupied(LoadSlots(file)))
    requires GoodMessage(Occupied(LoadSlots(file)), m)
    ensures var file' := DumpText(Occupied(Changed(file, m.key, m.val)));
      && ToMap(LoadSlots(file')) == ToMap(LoadSlots(file))[Lower(m.key) := Some(m.val)]
      && Printable(Occupied(LoadSlots(file'))) && LineSized(Occupied(LoadSlots(file')))
    ensures Dumpable(Occupied(Changed(file, m.key, m.val)))
    ensures forall n :: n in SectionNames(Occupied(Changed(file, m.key, m.val))) <==> n in SectionNames(Occupied(LoadSlots(file)))
  {
    hide Printable, Lower, Changed, Occupied, LoadSlots, DumpText, Dumpable, DumpLines, NameOk, ValueOk, SectionNames;
    var k := Lower(m.key);
    HeadAndTail(k);
    NameIsEntry(Occupied(LoadSlots(file)), Head(k));
    GoodSettingIsStored(file, m.key, Head(k), Tail(k), m.val);
  }

  lemma HeadAndTail(k: string)
    requires !IsSection(k)
    ensures k == Head(k) + ":" + Tail(k)
  {
    hide Until;
  }

  /** A message stays good while others are stored: no transaction removes a section. */
  lemma StaysGood(file: string, first: Message, m: Message)
    requires Printable(Occupied(LoadSlots(file))) && LineSized(Occupied(LoadSlots(file)))
    requires GoodMessage(Occupied(LoadSlots(file)), first) && GoodMessage(Occupied(LoadSlots(file)), m)
    ensures GoodMessage(Occupied(LoadSlots(DumpText(Occupied(Changed(file, first.key, first.val))))), m)
  {
    hide Printable, LineSized, Lower, Occupied, LoadSlots, DumpText, NameOk, ValueOk, SectionNames, Head, Tail, Put, Distinct;
    var s, t := LoadSlots(file), Changed(file, first.key, first.val);
    var s' := LoadSlots(DumpText(Occupied(t)));
    var n := Head(Lower(m.key));
    GoodMessageIsStored(file, first);
    LoadIsDistinct(file);
    LoadIsDistinct(DumpText(Occupied(t)));
    NameIsEntry(Occupied(s), n);
    MapByEntries(s, n);
    MapByEntries(s', n);
    NameIsEntry(Occupied(s'), n);
  }

  // ---------------------------------------------------------------- reading a flag back

  /** iniparser_getboolean(conf, key, 0): None where it would use the characters of a NULL value. */
  function GetBoolean(s: Slots, key: string): Option<bool> {
    match Search(s, Lower(key))
    case ComparesNull => None
    case Default => Some(false)
    case Stored(None) => None
    case Stored(Some(c)) => Some(c != "" && c[0] in {'y', 'Y', '1', 't', 'T'})
  }

  /** A table that was loaded has no hole in front of a key. */
  lemma LoadedLookup(file: string, key: string)
    requires Lower(key) in ToMap(LoadSlots(file))
    ensures Search(LoadSlots(file), Lower(key)) == Stored(ToMap(LoadSlots(file))[Lower(key)])
  {
    hide Hash, Find, FirstFree, LoadSlots;
    var s := LoadSlots(file);
    LoadedInFront(file);
    FrontIsFull(s, Find(s, Lower(key)));
  }

  lemma LoadedInFront(file: string)
    ensures InFront(LoadSlots(file))
  {
    FilledInFront(Empty(DICTMINSZ), Effects(Lines(file), ""));
  }

  lemma FrontIsFull(s: Slots, i: nat)
    requires InFront(s) && i < |s| && s[i].Some?
    ensures i < FirstFree(s)
  {
  }

  ghost predicate InFront(s: Slots) {
    forall i, j :: 0 <= i < j < |s| && s[j].Some? ==> s[i].Some?
  }

  lemma {:induction false} FilledInFront(s: Slots, es: seq<Entry>)
    requires |s| > 0 && InFront(s)
    ensures InFront(PutAll(s, es))
    decreases |es|
  {
    if es != [] {
      FilledInFront(Put(s, es[0].key, es[0].val), es[1..]);
    }
  }

  /** Abluft::setLow stores the flag that Abluft::init, updateLow and the timer will read. */
  lemma SetLowIsReadBack(file: string, low: bool)
    requires Printable(Occupied(LoadSlots(file))) && LineSized(Occupied(LoadSlots(file)))
    requires "a/c" in SectionNames(Occupied(LoadSlots(file)))
    ensures var val := if low then "true" else "false";
      GetBoolean(LoadSlots(DumpText(Occupied(Changed(file, "a/c:low", val)))), "a/c:low") == Some(low)
  {
    hide Printable, LineSized, Occupied, LoadSlots, DumpText, Distinct, Put, Search, GoodSetting;
    var val := if low then "true" else "false";
    LowIsGood(Occupied(LoadSlots(file)), val);
    GoodSettingIsStored(file, "a/c:low", "a/c", "low", val);
    LoadedLookup(DumpText(Occupied(Changed(file, "a/c:low", val))), "a/c:low");
  }

  /** A flag is on exactly if its stored value starts like yes, true or 1; a flag that is missing is off. */
  lemma FlagIsRead(file: string, key: string)
    requires Hash(Lower(key)) != 0
    ensures var s, k := LoadSlots(file), Lower(key);
      GetBoolean(s, key) ==
        if k !in ToMap(s) then Some(false)
        else if ToMap(s)[k].None? then None
        else Some(|ToMap(s)[k].value| > 0 && exists i :: 0 <= i < 5 && ToMap(s)[k].value[0] == "yY1tT"[i])
  {
    hide Lower, Hash, LoadSlots;
    SearchIsMapLookup(LoadSlots(file), Lower(key));
    assert "yY1tT"[0] == 'y' && "yY1tT"[1] == 'Y' && "yY1tT"[2] == '1' && "yY1tT"[3] == 't' && "yY1tT"[4] == 'T';
  }

  lemma LowIsGood(es: seq<Entry>, val: string)
    requires "a/c" in SectionNames(es) && val in {"true", "false"}
    ensures Lower("a/c:low") == "a/c" + ":" + "low" && OneLine("a/c")
    ensures GoodSetting(es, "a/c", "low", val)
  {
    hide Padded, SectionNames;
    assert "a/c:low" == "a/c" + ":" + "low";
    assert Lower("low") == "low";
    assert ValueOk(val) && OneLine(val) && |Rendered(val)| == |val| + 1 by {
      hide Lower;
    }
    assert |EntryLine("low", val)| == 33 + |Rendered(val)|;
  }
}
