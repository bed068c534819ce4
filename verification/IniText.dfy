/**
  iniparser.cpp as functions: writing the entries of a dictionary as an ini file and reading an
  ini file as a list of dictionary_set calls.  A file is its text.  IniParser.dfy does the same
  in place.
*/
module IniText {
  import opened Wrappers
  import opened CStrings
  import opened SlotTable
  import opened Lists

  /** The entries of a table in slot order, without the holes. */
  function Occupied(s: Slots): seq<Entry> {
    Collect(s, Cell)
  }

  function Cell(e: Option<Entry>): seq<Entry> {
    if e.Some? then [e.value] else []
  }

  // ---------------------------------------------------------------- writing

  predicate IsSection(key: string) {
    ':' !in key
  }

  /** strncmp(key, "sec:", seclen + 1) == 0 */
  predicate Belongs(key: string, sec: string) {
    sec + ":" <= key
  }

  /** The part of the key that is printed under its section. */
  function NameIn(key: string, sec: string): string
    requires Belongs(key, sec)
  {
    key[|sec| + 1..]
  }

  /** The keys without a colon, in slot order. */
  function SectionNames(es: seq<Entry>): seq<string> {
    Collect(es, SectionName)
  }

  function SectionName(e: Entry): seq<string> {
    if IsSection(e.key) then [e.key] else []
  }

  /** The conversion %-30s. */
  function Padded(k: string): (p: string)
    ensures |p| == if |k| < 30 then 30 else |k|
    ensures k <= p && forall i :: |k| <= i < |p| ==> p[i] == ' '
  {
    if |k| < 30 then k + seq(30 - |k|, _ => ' ') else k
  }

  /** A value as it is printed: in quotes if it contains '='. */
  function Rendered(val: string): string {
    if '=' in val then "\"" + val + "\"\n" else val + "\n"
  }

  function EntryLine(name: string, val: string): string {
    Padded(name) + " = " + Rendered(val)
  }

  /** The text of a value; a NULL value has none, and the printer must not meet one. */
  function ValueText(e: Entry): string {
    if e.val.Some? then e.val.value else ""
  }

  function MemberLine(sec: string): Entry -> seq<string> {
    (e: Entry) => if Belongs(e.key, sec) then [EntryLine(NameIn(e.key, sec), ValueText(e))] else []
  }

  function SectionLines(es: seq<Entry>): string -> seq<string> {
    (sec: string) => ["\n", "[" + sec + "]\n"] + Collect(es, MemberLine(sec))
  }

  function PlainLine(e: Entry): seq<string> {
    [e.key + " = " + ValueText(e) + "\n"]
  }

  /** The lines of the file: section by section, or, without a section, every entry as it is. */
  function DumpLines(es: seq<Entry>): seq<string> {
    if SectionNames(es) == [] then Collect(es, PlainLine)
    else Collect(SectionNames(es), SectionLines(es)) + ["\n"]
  }

  function Flatten(lines: seq<string>): string {
    Collect(lines, (l: string) => l)
  }

  function DumpText(es: seq<Entry>): string {
    Flatten(DumpLines(es))
  }

  /** The printer never meets a NULL value where it needs a string. */
  predicate Dumpable(es: seq<Entry>) {
    if SectionNames(es) == [] then forall e :: e in es ==> e.val.Some?
    else forall e, n :: e in es && n in SectionNames(es) && Belongs(e.key, n) ==> e.val.Some?
  }

  // ---------------------------------------------------------------- reading

  /** What fgets(lin, ASCIILINESZ, ini) takes from a non-empty text. */
  function FgetsLength(text: string): (n: nat)
    requires text != []
    ensures 0 < n <= |text| && n < ASCIILINESZ
  {
    var eol := Until(text, {'\n'});
    if eol + 1 < ASCIILINESZ && eol < |text| then eol + 1
    else if |text| < ASCIILINESZ then |text| else ASCIILINESZ - 1
  }

  function Lines(text: string): seq<string> {
    if text == [] then [] else [text[..FgetsLength(text)]] + Lines(text[FgetsLength(text)..])
  }

  /** A line with an embedded NUL ends there. */
  function CString(s: string): string {
    s[..Until(s, {'\0'})]
  }

  /** sscanf(where, "[%[^]]", sec) == 1 */
  function ScanSection(w: string): Option<string> {
    if w == [] || w[0] != '[' then None
    else
      var n := Until(w[1..], {']'});
      if n == 0 then None else Some(w[1..1 + n])
  }

  /** The conversion "%[^q]" between quotes q, after the blanks that follow '='. */
  function Quoted(r: string, q: char): Option<string> {
    if r == [] || r[0] != q then None
    else
      var m := Until(r[1..], {q});
      if m == 0 then None else Some(r[1..1 + m])
  }

  /** The conversion "%[^;#]". */
  function Bare(r: string): Option<string> {
    var m := Until(r, {';', '#'});
    if m == 0 then None else Some(r[..m])
  }

  /** What the three patterns make of the text behind '='. */
  function ScanValue(rest: string): Option<string> {
    var r := Skip(rest);
    if Quoted(r, '"').Some? then Quoted(r, '"')
    else if Quoted(r, '\'').Some? then Quoted(r, '\'')
    else Bare(r)
  }

  /**
    The three calls sscanf(where, "%[^=] = V", key, val) == 2, with V one of \"%[^\"]\", '%[^']' and
    %[^;#]: they agree on the key and try the value in turn.
  */
  function ScanEntry(w: string): Option<(string, string)> {
    var n := Until(w, {'='});
    if n == 0 || n == |w| then None
    else
      var val := ScanValue(w[n + 1..]);
      if val.None? then None else Some((w[..n], val.value))
  }

  /** Two adjacent quotes are the empty value; anything else loses its trailing blanks. */
  function CleanValue(val: string): string {
    if val == "\"\"" || val == "''" then "" else Crop(val)
  }

  datatype Event = Ignore | Section(name: string) | Assign(key: string, val: string)

  function ParseLine(line: string): Event {
    var w := Skip(CString(line));
    if w == [] || w[0] == ';' || w[0] == '#' then Ignore
    else if ScanSection(w).Some? then Section(Lower(ScanSection(w).value))
    else if ScanEntry(w).Some? then
      Assign(Lower(Crop(ScanEntry(w).value.0)), CleanValue(ScanEntry(w).value.1))
    else Ignore
  }

  /** The calls of dictionary_set that a list of lines makes, when `sec` is the current section. */
  function Effects(lines: seq<string>, sec: string): seq<Entry> {
    if lines == [] then []
    else match ParseLine(lines[0])
      case Ignore => Effects(lines[1..], sec)
      case Section(name) => [Entry(name, None)] + Effects(lines[1..], name)
      case Assign(key, val) => [Entry(sec + ":" + key, Some(val))] + Effects(lines[1..], sec)
  }

  function PutAll(s: Slots, es: seq<Entry>): (t: Slots)
    requires |s| > 0
    ensures |t| >= |s|
    decreases |es|
  {
    if es == [] then s else PutAll(Put(s, es[0].key, es[0].val), es[1..])
  }

  function LoadSlots(text: string): (s: Slots)
    ensures |s| > 0
  {
    PutAll(Empty(DICTMINSZ), Effects(Lines(text), ""))
  }

  // ---------------------------------------------------------------- slot by slot

  /** What the next slot adds to anything that is collected from the entries. */
  lemma NextSlot<U>(s: Slots, i: nat, piece: Entry -> seq<U>)
    requires i < |s|
    ensures Collect(Occupied(s[..i + 1]), piece)
         == Collect(Occupied(s[..i]), piece) + if s[i].Some? then piece(s[i].value) else []
  {
    CollectNext(s, i, Cell);
    CollectJoin(Occupied(s[..i]), Cell(s[i]), piece);
    if s[i].Some? {
      CollectOne(s[i].value, piece);
    }
  }

  lemma PrefixOfAll<U>(s: Slots, i: nat, piece: Entry -> seq<U>)
    requires i <= |s|
    ensures Collect(Occupied(s[..i]), piece) <= Collect(Occupied(s), piece)
  {
    assert s == s[..i] + s[i..];
    CollectJoin(s[..i], s[i..], Cell);
    CollectJoin(Occupied(s[..i]), Occupied(s[i..]), piece);
  }

  lemma OccupiedIn(s: Slots, e: Entry)
    ensures e in Occupied(s) <==> exists i :: 0 <= i < |s| && s[i] == Some(e)
  {
    CollectIn(s, Cell, e);
  }

  lemma FlattenLast(lines: seq<string>, l: string)
    ensures Flatten(lines + [l]) == Flatten(lines) + l
  {
    CollectJoin(lines, [l], (l: string) => l);
    CollectOne(l, (l: string) => l);
  }

  lemma FlattenJoin(a: seq<string>, b: seq<string>)
    ensures Flatten(a + b) == Flatten(a) + Flatten(b)
  {
    CollectJoin(a, b, (l: string) => l);
  }
}
