/**
  The status document: one flat XML string in shared memory whose fields every device rewrites with
  sharedMem::updateHelper, a find and replace.
*/
module StatusDocument {
  import opened Wrappers
  import opened Lists
  import opened CStrings

  const MEM_MAX_SIZE: nat := 1024

  /** Shared memory comes in whole pages, so the terminating NUL has room behind a text of MEM_MAX_SIZE. */
  const SEGMENT: nat := 4096

  // ---------------------------------------------------------------- the string operation

  /** string::find: the first position of `pat`. */
  function Find(s: string, pat: string): (r: Option<nat>)
    ensures r.Some? ==> r.value + |pat| <= |s| && s[r.value..r.value + |pat|] == pat
    ensures r.Some? ==> forall i :: 0 <= i < r.value ==> !(pat <= s[i..])
  {
    if pat <= s then Some(0)
    else if s == "" then None
    else
      var r := Find(s[1..], pat);
      if r.None? then None
      else
        assert forall i :: 1 <= i < r.value + 1 ==> s[i..] == s[1..][i - 1..];
        Some(r.value + 1)
  }

  /** strEndTag.insert(1, "/") */
  function EndTag(startTag: string): string
    requires startTag != ""
  {
    startTag[..1] + "/" + startTag[1..]
  }

  /** `Throws` is the std::out_of_range of string::replace. */
  datatype Outcome = Stored(text: string) | Throws

  /**
    updateHelper.  A start tag that is not found gives the position npos + length, which wraps round to
    length - 1; an end tag that is not found, or that stands before the start, makes the replaced part
    reach to the end.  At most MEM_MAX_SIZE characters are copied back.
  */
  function UpdateHelper(shm: string, startTag: string, value: string): Outcome
    requires startTag != ""
  {
    var first := Find(shm, startTag);
    var last := Find(shm, EndTag(startTag));
    var posStart := if first.Some? then first.value + |startTag| else |startTag| - 1;
    if posStart > |shm| then Throws
    else
      var posEnd := if last.Some? && posStart <= last.value then last.value else |shm|;
      Stored(Cut(shm[..posStart] + value + shm[posEnd..]))
  }

  /** string::copy to the segment. */
  function Cut(text: string): (r: string)
    ensures |r| <= MEM_MAX_SIZE && r <= text
  {
    if |text| <= MEM_MAX_SIZE then text else text[..MEM_MAX_SIZE]
  }

  predicate Fits(text: string) {
    |text| < MEM_MAX_SIZE
  }

  /** The shared segment, rewritten in place; its text ends at the first NUL. */
  class SharedMem {
    const strSHM: array<char>

    ghost predicate Valid()
      reads this, strSHM
    {
      strSHM.Length == SEGMENT && Until(strSHM[..], {'\0'}) <= MEM_MAX_SIZE
    }

    ghost function Text(): string
      reads this, strSHM
    {
      strSHM[..Until(strSHM[..], {'\0'})]
    }

    constructor (text: string)
      requires |text| <= MEM_MAX_SIZE && '\0' !in text
      ensures Valid() && fresh(strSHM) && Text() == text
    {
      strSHM := new char[SEGMENT](_ => '\0');
      new;
      CopyBack(text);
    }

    /**
      Under the semaphore: copy out, find, replace, copy back, terminate.  Not ok is the exception of
      string::replace, which leaves the segment as it was.
    */
    method Update(startTag: string, value: string) returns (ok: bool)
      requires Valid() && startTag != "" && '\0' !in value
      modifies strSHM
      ensures Valid()
      ensures ok <==> UpdateHelper(old(Text()), startTag, value).Stored?
      ensures Text() == if ok then UpdateHelper(old(Text()), startTag, value).text else old(Text())
    {
      hide Find, Until, Cut;
      var text := CopyOut();
      var endTag := EndTag(startTag);
      var first := Find(text, startTag);
      var last := Find(text, endTag);
      var posStart := if first.Some? then first.value + |startTag| else |startTag| - 1;
      if posStart > |text| {
        return false;
      }
      var posEnd := if last.Some? && posStart <= last.value then last.value else |text|;
      var result := text[..posStart] + value + text[posEnd..];
      NoNul(text, posStart, value, posEnd);
      CopyBack(result);
      ok := true;
    }

    /** string strSHMTemp(strSHM) */
    method CopyOut() returns (text: string)
      requires Valid()
      ensures text == Text() && '\0' !in text
    {
      var n := 0;
      while strSHM[n] != '\0'
        invariant n <= Until(strSHM[..], {'\0'})
        decreases SEGMENT - n
      {
        n := n + 1;
      }
      text := strSHM[..n];
    }

    /** At most MEM_MAX_SIZE characters and the terminating NUL. */
    method CopyBack(result: string)
      requires strSHM.Length == SEGMENT && '\0' !in result
      modifies strSHM
      ensures Valid() && Text() == Cut(result)
    {
      var i := 0;
      while i < |result| && i < MEM_MAX_SIZE
        invariant i <= |result| && i <= MEM_MAX_SIZE
        invariant strSHM[..i] == result[..i]
      {
        strSHM[i] := result[i];
        i := i + 1;
      }
      strSHM[i] := '\0';
      assert strSHM[..i] == result[..i] == Cut(result);
      assert forall k :: 0 <= k < i ==> strSHM[..][k] == result[k];
      UntilIs(strSHM[..], {'\0'}, i);
    }
  }

  lemma NoNul(text: string, i: nat, value: string, k: nat)
    requires i <= |text| && k <= |text| && '\0' !in text && '\0' !in value
    ensures '\0' !in text[..i] + value + text[k..]
  {
  }

  // ---------------------------------------------------------------- the document

  /** A tag and the text up to the next tag. */
  datatype Piece = Piece(name: string, text: string)

  function PieceText(p: Piece): string {
    "<" + p.name + ">" + p.text
  }

  function Render(ps: seq<Piece>): string {
    Collect(ps, PieceText)
  }

  predicate CleanPiece(p: Piece) {
    '<' !in p.name && '>' !in p.name && '<' !in p.text
  }

  /** A document: clean pieces with pairwise different tags. */
  predicate Document(ps: seq<Piece>) {
    && (forall i :: 0 <= i < |ps| ==> CleanPiece(ps[i]))
    && (forall i, j :: 0 <= i < j < |ps| ==> ps[i].name != ps[j].name)
  }

  /** The tag a text starts with and what follows up to the next tag. */
  function FirstPiece(s: string): (r: Option<Piece>)
    ensures r.Some? ==> |PieceText(r.value)| <= |s|
  {
    if s == "" || s[0] != '<' then None
    else
      var n := Until(s[1..], {'>'});
      if n == |s| - 1 then None
      else
        var rest := s[n + 2..];
        Some(Piece(s[1..n + 1], rest[..Until(rest, {'<'})]))
  }

  /** The document a text stands for. */
  function Parse(s: string): seq<Piece>
    decreases |s|
  {
    var p := FirstPiece(s);
    if p.None? then [] else [p.value] + Parse(s[|PieceText(p.value)|..])
  }

  lemma RenderSplit(ps: seq<Piece>)
    requires ps != []
    ensures Render(ps) == PieceText(ps[0]) + Render(ps[1..])
  {
    assert ps == [ps[0]] + ps[1..];
    CollectJoin([ps[0]], ps[1..], PieceText);
    CollectOne(ps[0], PieceText);
  }

  lemma RenderStart(ps: seq<Piece>)
    ensures ps != [] ==> Render(ps) != "" && Render(ps)[0] == '<'
    ensures ps == [] ==> Render(ps) == ""
  {
    if ps != [] {
      RenderSplit(ps);
    }
  }

  lemma UntilFirst(a: string, c: char, rest: string)
    requires c !in a && (rest != "" ==> rest[0] == c)
    ensures Until(a + rest, {c}) == |a|
  {
    assert forall i :: 0 <= i < |a| ==> (a + rest)[i] == a[i] && a[i] in a;
    UntilIs(a + rest, {c}, |a|);
  }

  /** The first piece of a text that goes on with another tag, or ends. */
  lemma ParsePiece(p: Piece, rest: string)
    requires CleanPiece(p) && (rest != "" ==> rest[0] == '<')
    ensures Parse(PieceText(p) + rest) == [p] + Parse(rest)
  {
    hide Until, Parse, FirstPiece, PieceText;
    var s := PieceText(p) + rest;
    FirstPieceIs(p, rest);
    ParseNext(s, p);
    assert s[|PieceText(p)|..] == rest;
  }

  lemma FirstPieceIs(p: Piece, rest: string)
    requires CleanPiece(p) && (rest != "" ==> rest[0] == '<')
    ensures FirstPiece(PieceText(p) + rest) == Some(p)
  {
    hide Until;
    var s := PieceText(p) + rest;
    var n := |p.name|;
    var tail := p.text + rest;
    Pieces(p, rest);
    UntilFirst(p.name, '>', ">" + tail);
    UntilFirst(p.text, '<', rest);
    assert tail[..|p.text|] == p.text;
  }

  lemma Pieces(p: Piece, rest: string)
    ensures var s, n, tail := PieceText(p) + rest, |p.name|, p.text + rest;
      |s| == n + 2 + |tail| && s[0] == '<' && s[1..] == p.name + (">" + tail) && s[1..n + 1] == p.name && s[n + 2..] == tail
  {
    var s, n, tail := PieceText(p) + rest, |p.name|, p.text + rest;
    assert s == "<" + (p.name + (">" + tail));
    assert s == ("<" + p.name + ">") + tail;
  }

  lemma ParseNext(s: string, p: Piece)
    requires FirstPiece(s) == Some(p)
    ensures Parse(s) == [p] + Parse(s[|PieceText(p)|..])
  {
    hide FirstPiece, PieceText, Until;
  }

  /** Parsing undoes rendering. */
  lemma {:induction false} ParseRender(ps: seq<Piece>)
    requires forall i :: 0 <= i < |ps| ==> CleanPiece(ps[i])
    ensures Parse(Render(ps)) == ps
    decreases |ps|
  {
    hide Render, PieceText, CleanPiece, Until;
    RenderStart(ps);
    if ps != [] {
      hide Parse;
      RenderSplit(ps);
      RenderStart(ps[1..]);
      ParsePiece(ps[0], Render(ps[1..]));
      ParseRender(ps[1..]);
    }
  }

  /** The tag in front of a text is the name of its first piece. */
  lemma TagInFront(p: Piece, rest: string, tag: string)
    requires '>' !in p.name && '>' !in tag && "<" + tag + ">" <= PieceText(p) + rest
    ensures tag == p.name
  {
    var s := PieceText(p) + rest;
    var pat := "<" + tag + ">";
    assert forall k :: 0 <= k < |pat| ==> pat[k] == s[k];
    assert forall k :: 0 <= k < |tag| ==> tag[k] == pat[1 + k];
    assert forall k :: 0 <= k < |p.name| ==> p.name[k] == s[1 + k];
    assert pat[1 + |tag|] == '>' && s[1 + |p.name|] == '>';
    assert |tag| == |p.name|;
  }

  lemma NoTagInside(p: Piece, rest: string, i: nat)
    requires CleanPiece(p) && 0 < i < |PieceText(p)|
    ensures (PieceText(p) + rest)[i] != '<'
  {
    var s := PieceText(p);
    assert s == "<" + p.name + ">" + p.text;
    if i < 1 + |p.name| {
      assert s[i] == p.name[i - 1] && p.name[i - 1] in p.name;
    } else if i > 1 + |p.name| {
      assert s[i] == p.text[i - 2 - |p.name|] && p.text[i - 2 - |p.name|] in p.text;
    }
  }

  /** A tag is not found inside a piece with another name. */
  lemma NotInPiece(p: Piece, rest: string, tag: string, i: nat)
    requires CleanPiece(p) && '>' !in tag && tag != p.name && i < |PieceText(p)|
    ensures !("<" + tag + ">" <= (PieceText(p) + rest)[i..])
  {
    var s := PieceText(p) + rest;
    var pat := "<" + tag + ">";
    assert pat[0] == '<';
    if i == 0 {
      assert s[0..] == s;
      if pat <= s {
        TagInFront(p, rest, tag);
      }
    } else {
      NoTagInside(p, rest, i);
      assert s[i..][0] == s[i];
    }
  }

  lemma FindIs(s: string, pat: string, n: nat)
    requires n + |pat| <= |s| && pat <= s[n..]
    requires forall i :: 0 <= i < n ==> !(pat <= s[i..])
    ensures Find(s, pat) == Some(n)
    decreases n
  {
    if n > 0 {
      assert !(pat <= s[0..]) && s[0..] == s;
      assert s[1..][n - 1..] == s[n..];
      assert forall i :: 0 <= i < n - 1 ==> s[1..][i..] == s[i + 1..];
      FindIs(s[1..], pat, n - 1);
    }
  }

  /** A tag of a document is found at its own piece. */
  lemma {:induction false} TagIsFound(ps: seq<Piece>, i: nat)
    requires Document(ps) && i < |ps|
    ensures Find(Render(ps), "<" + ps[i].name + ">") == Some(|Render(ps[..i])|)
    decreases i
  {
    hide Find, Collect;
    var rest := ps[1..];
    RenderSplit(ps);
    if i == 0 {
      RenderStart(ps[..0]);
      FoundInFront(ps[0], Render(rest));
    } else {
      assert Document(rest) && rest[i - 1] == ps[i];
      TagIsFound(rest, i - 1);
      RenderSplit(ps[..i]);
      assert ps[..i][1..] == rest[..i - 1];
      FoundBehind(ps[0], Render(rest), ps[i].name, |Render(rest[..i - 1])|);
    }
  }

  lemma FoundInFront(p: Piece, rest: string)
    ensures Find(PieceText(p) + rest, "<" + p.name + ">") == Some(0)
  {
    hide Find;
    var s := PieceText(p) + rest;
    assert s == "<" + p.name + ">" + (p.text + rest);
    assert s[0..] == s;
    FindIs(s, "<" + p.name + ">", 0);
  }

  lemma FoundBehind(p: Piece, rest: string, tag: string, n: nat)
    requires CleanPiece(p) && '>' !in tag && tag != p.name
    requires Find(rest, "<" + tag + ">") == Some(n)
    ensures Find(PieceText(p) + rest, "<" + tag + ">") == Some(|PieceText(p)| + n)
  {
    hide Find, PieceText, CleanPiece;
    var a, pat := PieceText(p), "<" + tag + ">";
    forall i | 0 <= i < |a|
      ensures !(pat <= (a + rest)[i..])
    {
      NotInPiece(p, rest, tag, i);
    }
    ShiftFind(a, rest, pat, n);
  }

  /** Text in front in which nothing matches moves the first match. */
  lemma ShiftFind(a: string, rest: string, pat: string, n: nat)
    requires Find(rest, pat) == Some(n)
    requires forall i :: 0 <= i < |a| ==> !(pat <= (a + rest)[i..])
    ensures Find(a + rest, pat) == Some(|a| + n)
  {
    hide Find;
    var s := a + rest;
    forall i | 0 <= i < |a| + n
      ensures !(pat <= s[i..])
    {
      if i >= |a| {
        assert s[i..] == rest[i - |a|..];
      }
    }
    assert s[|a| + n..] == rest[n..];
    assert pat <= rest[n..] by {
      assert rest[n..n + |pat|] == pat;
    }
    FindIs(s, pat, |a| + n);
  }

  /** A field: an opening tag directly followed by its closing tag. */
  predicate IsField(ps: seq<Piece>, i: nat) {
    i + 1 < |ps| && ps[i + 1].name == "/" + ps[i].name
  }

  function SetText(ps: seq<Piece>, i: nat, value: string): seq<Piece>
    requires i < |ps|
  {
    ps[i := ps[i].(text := value)]
  }

  lemma SetTextIs(ps: seq<Piece>, i: nat, value: string)
    requires i < |ps|
    ensures SetText(ps, i, value) == ps[i := ps[i].(text := value)]
  {
  }

  lemma SetKeepsDocument(ps: seq<Piece>, i: nat, value: string)
    requires Document(ps) && IsField(ps, i) && '<' !in value
    ensures Document(SetText(ps, i, value)) && IsField(SetText(ps, i, value), i)
  {
  }

  lemma EndTagIs(tag: string)
    ensures EndTag("<" + tag + ">") == "<" + ("/" + tag) + ">"
  {
  }

  /** The find and replace on the flat string is the update of one field of the document. */
  lemma UpdateIsFieldUpdate(ps: seq<Piece>, i: nat, value: string)
    requires Document(ps) && IsField(ps, i) && '<' !in value
    requires |Render(SetText(ps, i, value))| <= MEM_MAX_SIZE
    ensures UpdateHelper(Render(ps), "<" + ps[i].name + ">", value) == Stored(Render(SetText(ps, i, value)))
  {
    hide Collect, Find, PieceText, SetText, UpdateHelper, EndTag;
    var p := ps[i];
    var a, b := Render(ps[..i]), Render(ps[i + 1..]);
    TagIsFound(ps, i);
    TagIsFound(ps, i + 1);
    EndTagIs(p.name);
    CollectSplit(ps, i, PieceText);
    var qs := ps[i := p.(text := value)];
    assert qs == SetText(ps, i, value) by { SetTextIs(ps, i, value); }
    CollectSplit(qs, i, PieceText);
    assert qs[..i] == ps[..i] && qs[i + 1..] == ps[i + 1..];
    CollectNext(ps, i, PieceText);
    SpliceText(a, p, b, value);
    ReplaceBetween(Render(ps), "<" + p.name + ">", value);
  }

  /** Both tags are found, in order: the text between them is replaced. */
  lemma ReplaceBetween(shm: string, tag: string, value: string)
    requires tag != "" && Find(shm, tag).Some? && Find(shm, EndTag(tag)).Some?
    requires Find(shm, tag).value + |tag| <= Find(shm, EndTag(tag)).value
    ensures UpdateHelper(shm, tag, value) ==
      Stored(Cut(shm[..Find(shm, tag).value + |tag|] + value + shm[Find(shm, EndTag(tag)).value..]))
  {
    hide Find, EndTag, Cut;
  }

  lemma SpliceText(a: string, p: Piece, b: string, value: string)
    ensures var s := a + PieceText(p) + b;
      var start := |a| + |"<" + p.name + ">"|;
      && |a + PieceText(p)| == start + |p.text|
      && s[..start] + value + s[|a + PieceText(p)|..] == a + PieceText(p.(text := value)) + b
  {
    var tag := "<" + p.name + ">";
    assert a + PieceText(p) + b == a + tag + (p.text + b);
    assert (a + PieceText(p) + b)[..|a| + |tag|] == a + tag;
    assert PieceText(p.(text := value)) == tag + value;
  }

  // ---------------------------------------------------------------- the update laws

  /** The text of a tag in a document. */
  function TextOf(ps: seq<Piece>, tag: string): Option<string> {
    if ps == [] then None else if ps[0].name == tag then Some(ps[0].text) else TextOf(ps[1..], tag)
  }

  /** The text of a tag in the flat string. */
  function Lookup(s: string, tag: string): Option<string> {
    TextOf(Parse(s), tag)
  }

  lemma {:induction false} TextOfPiece(ps: seq<Piece>, i: nat)
    requires Document(ps) && i < |ps|
    ensures TextOf(ps, ps[i].name) == Some(ps[i].text)
    decreases i
  {
    if i > 0 {
      var rest := ps[1..];
      assert Document(rest) && rest[i - 1] == ps[i];
      TextOfPiece(rest, i - 1);
    }
  }

  lemma {:induction false} TextOfOther(ps: seq<Piece>, i: nat, value: string, tag: string)
    requires i < |ps| && ps[i].name != tag
    ensures TextOf(SetText(ps, i, value), tag) == TextOf(ps, tag)
    decreases i
  {
    var qs := SetText(ps, i, value);
    if i == 0 {
      assert qs[1..] == ps[1..];
    } else {
      assert qs[1..] == SetText(ps[1..], i - 1, value);
      TextOfOther(ps[1..], i - 1, value, tag);
    }
  }

  /** Put-get, and every other field is as it was. */
  lemma PutGet(ps: seq<Piece>, i: nat, value: string, tag: string)
    requires Document(ps) && IsField(ps, i) && '<' !in value && |Render(SetText(ps, i, value))| <= MEM_MAX_SIZE
    ensures UpdateHelper(Render(ps), "<" + ps[i].name + ">", value).Stored?
    ensures Lookup(UpdateHelper(Render(ps), "<" + ps[i].name + ">", value).text, tag)
         == if tag == ps[i].name then Some(value) else Lookup(Render(ps), tag)
  {
    hide Render, UpdateHelper, Parse;
    var qs := SetText(ps, i, value);
    UpdateIsFieldUpdate(ps, i, value);
    SetKeepsDocument(ps, i, value);
    ParseRender(ps);
    ParseRender(qs);
    if tag == ps[i].name {
      TextOfPiece(qs, i);
    } else {
      TextOfOther(ps, i, value, tag);
    }
  }

  /** Get-put: writing back what a field holds changes nothing. */
  lemma GetPut(ps: seq<Piece>, i: nat)
    requires Document(ps) && IsField(ps, i) && |Render(ps)| <= MEM_MAX_SIZE
    ensures Lookup(Render(ps), ps[i].name) == Some(ps[i].text)
    ensures UpdateHelper(Render(ps), "<" + ps[i].name + ">", ps[i].text) == Stored(Render(ps))
  {
    hide Render, UpdateHelper, Parse;
    assert SetText(ps, i, ps[i].text) == ps;
    assert CleanPiece(ps[i]);
    UpdateIsFieldUpdate(ps, i, ps[i].text);
    ParseRender(ps);
    TextOfPiece(ps, i);
  }

  /** Put-put: the last of two writes to a field counts. */
  lemma PutPut(ps: seq<Piece>, i: nat, first: string, second: string)
    requires Document(ps) && IsField(ps, i) && '<' !in first && '<' !in second
    requires |Render(SetText(ps, i, first))| <= MEM_MAX_SIZE && |Render(SetText(ps, i, second))| <= MEM_MAX_SIZE
    ensures var tag := "<" + ps[i].name + ">";
      && UpdateHelper(Render(ps), tag, first).Stored?
      && UpdateHelper(UpdateHelper(Render(ps), tag, first).text, tag, second) == UpdateHelper(Render(ps), tag, second)
  {
    hide Render, UpdateHelper;
    var qs := SetText(ps, i, first);
    UpdateIsFieldUpdate(ps, i, first);
    UpdateIsFieldUpdate(ps, i, second);
    SetKeepsDocument(ps, i, first);
    assert SetText(qs, i, second) == SetText(ps, i, second);
    UpdateIsFieldUpdate(qs, i, second);
  }

  // ---------------------------------------------------------------- when an update is one

  /**
    A tag that is not found: the update throws if the text is shorter than the tag, and otherwise destroys
    the text from position length - 1 on, up to the closing tag if that stands behind it.
  */
  lemma UnknownTagDestroys(shm: string, tag: string, value: string)
    requires Find(shm, "<" + tag + ">").None?
    ensures var last := Find(shm, "<" + ("/" + tag) + ">");
      UpdateHelper(shm, "<" + tag + ">", value) ==
        if |shm| < |tag| + 1 then Throws
        else if last.Some? && |tag| + 1 <= last.value then Stored(Cut(shm[..|tag| + 1] + value + shm[last.value..]))
        else Stored(Cut(shm[..|tag| + 1] + value))
  {
    hide Find, Cut;
    EndTagIs(tag);
    if |tag| + 1 <= |shm| {
      assert shm[..|tag| + 1] + value + shm[|shm|..] == shm[..|tag| + 1] + value;
    }
  }

  /** Where the name stands from position `i` on, or the end. */
  function NameAt(ps: seq<Piece>, i: nat, name: string): (k: nat)
    requires i <= |ps|
    ensures i <= k <= |ps|
    ensures k < |ps| ==> ps[k].name == name
    ensures forall h :: i <= h < k ==> ps[h].name != name
    decreases |ps| - i
  {
    if i == |ps| || ps[i].name == name then i else NameAt(ps, i + 1, name)
  }

  function ClosesAt(ps: seq<Piece>, i: nat): (k: nat)
    requires i < |ps|
    ensures i < k <= |ps|
  {
    NameAt(ps, i + 1, "/" + ps[i].name)
  }

  /** What an update of the tag of piece `i` leaves: everything up to the closing tag behind it is lost. */
  function Updated(ps: seq<Piece>, i: nat, value: string): seq<Piece>
    requires i < |ps|
  {
    ps[..i] + [ps[i].(text := value)] + ps[ClosesAt(ps, i)..]
  }

  /** The opening tag has its closing tag right behind it, or nothing. */
  predicate OwnsText(ps: seq<Piece>, i: nat) {
    i < |ps| && (i + 1 == |ps| || IsField(ps, i))
  }

  /** The update law: the tag has the new value and every other tag its old text. */
  ghost predicate Obeys(ps: seq<Piece>, tag: string, value: string) {
    var r := UpdateHelper(Render(ps), "<" + tag + ">", value);
    r.Stored? && forall t :: Lookup(r.text, t) == if t == tag then Some(value) else Lookup(Render(ps), t)
  }

  lemma {:induction false} TagIsNotFound(ps: seq<Piece>, tag: string)
    requires (forall i :: 0 <= i < |ps| ==> CleanPiece(ps[i]) && ps[i].name != tag) && '>' !in tag
    ensures Find(Render(ps), "<" + tag + ">") == None
    decreases |ps|
  {
    hide Find, CleanPiece, PieceText, Collect;
    if ps == [] {
      RenderStart(ps);
      NoFind("", "<" + tag + ">");
    } else {
      var s, rest, pat := Render(ps), Render(ps[1..]), "<" + tag + ">";
      RenderSplit(ps);
      TagIsNotFound(ps[1..], tag);
      forall i | 0 <= i <= |s|
        ensures !(pat <= s[i..])
      {
        if i < |PieceText(ps[0])| {
          NotInPiece(ps[0], rest, tag, i);
        } else if pat <= s[i..] {
          assert s[i..] == rest[i - |PieceText(ps[0])|..];
          FoundSomewhere(rest, pat, i - |PieceText(ps[0])|);
        }
      }
      NoFind(s, pat);
    }
  }

  lemma {:induction false} FoundSomewhere(s: string, pat: string, i: nat)
    requires i <= |s| && pat <= s[i..]
    ensures Find(s, pat).Some?
    decreases i
  {
    if i > 0 {
      assert s[1..][i - 1..] == s[i..];
      FoundSomewhere(s[1..], pat, i - 1);
    }
  }

  lemma NoFind(s: string, pat: string)
    requires forall i :: 0 <= i <= |s| ==> !(pat <= s[i..])
    ensures Find(s, pat) == None
  {
    hide Find;
    if Find(s, pat).Some? {
      FoundIsThere(s, pat);
    }
  }

  lemma FoundIsThere(s: string, pat: string)
    requires Find(s, pat).Some?
    ensures pat <= s[Find(s, pat).value..]
  {
    hide Find;
    var n := Find(s, pat).value;
    assert s[n..][..|pat|] == s[n..n + |pat|];
  }

  lemma KnownTag(ps: seq<Piece>, i: nat, value: string)
    requires Document(ps) && i < |ps|
    ensures UpdateHelper(Render(ps), "<" + ps[i].name + ">", value) == Stored(Cut(Render(Updated(ps, i, value))))
  {
    hide Find, Render, PieceText, UpdateHelper, EndTag, Document, ClosesAt;
    var k := ClosesAt(ps, i);
    TagIsFound(ps, i);
    EndTagIs(ps[i].name);
    ClosingTag(ps, i);
    RenderSplits(ps, k);
    RenderSplits(ps[..i + 1], i);
    assert ps[..i + 1][..i] == ps[..i] && ps[..i + 1][i..] == [ps[i]];
    RenderOne(ps[i]);
    PrefixGrows(ps, i + 1, k);
    RenderUpdated(ps, i, value, k);
    UpdatedText(ps, i, value, k);
  }

  lemma RenderSplits(ps: seq<Piece>, k: nat)
    requires k <= |ps|
    ensures Render(ps) == Render(ps[..k]) + Render(ps[k..])
  {
    assert ps == ps[..k] + ps[k..];
    CollectJoin(ps[..k], ps[k..], PieceText);
  }

  lemma RenderOne(p: Piece)
    ensures Render([p]) == PieceText(p)
  {
    CollectOne(p, PieceText);
  }

  /** Where the closing tag of piece `i` is found, if it is found behind it. */
  lemma ClosingTag(ps: seq<Piece>, i: nat)
    requires Document(ps) && i < |ps|
    ensures var k, last := ClosesAt(ps, i), Find(Render(ps), "<" + ("/" + ps[i].name) + ">");
      if k < |ps| then last == Some(|Render(ps[..k])|) else last.Some? ==> last.value <= |Render(ps[..i])|
  {
    hide Find, Render, Document;
    var name := "/" + ps[i].name;
    if ClosesAt(ps, i) < |ps| {
      TagIsFound(ps, ClosesAt(ps, i));
    } else if k :| 0 <= k < i && ps[k].name == name {
      TagIsFound(ps, k);
      PrefixGrows(ps, k, i);
    } else {
      assert ps[i].name != name by { assert |name| == |ps[i].name| + 1; }
      NowhereFound(ps, i, name);
    }
  }

  lemma NowhereFound(ps: seq<Piece>, i: nat, name: string)
    requires Document(ps) && i < |ps| && name == "/" + ps[i].name && forall k :: 0 <= k < |ps| ==> ps[k].name != name
    ensures Find(Render(ps), "<" + name + ">") == None
  {
    hide Find, Render;
    assert CleanPiece(ps[i]);
    TagIsNotFound(ps, name);
  }

  lemma PrefixGrows(ps: seq<Piece>, i: nat, k: nat)
    requires i <= k <= |ps|
    ensures Render(ps[..i]) <= Render(ps[..k])
  {
    assert ps[..k][..i] == ps[..i];
    RenderSplits(ps[..k], i);
  }

  lemma RenderUpdated(ps: seq<Piece>, i: nat, value: string, k: nat)
    requires i < |ps| && k <= |ps|
    ensures Render(ps[..i] + [ps[i].(text := value)] + ps[k..]) ==
      Render(ps[..i]) + PieceText(ps[i].(text := value)) + Render(ps[k..])
  {
    var q := ps[i].(text := value);
    CollectJoin(ps[..i] + [q], ps[k..], PieceText);
    CollectJoin(ps[..i], [q], PieceText);
    CollectOne(q, PieceText);
  }

  lemma UpdatedText(ps: seq<Piece>, i: nat, value: string, k: nat)
    requires i < k <= |ps|
    requires Render(ps) == Render(ps[..k]) + Render(ps[k..])
    requires Render(ps[..i]) + PieceText(ps[i]) == Render(ps[..i + 1]) <= Render(ps[..k])
    requires Find(Render(ps), "<" + ps[i].name + ">") == Some(|Render(ps[..i])|)
    requires var last := Find(Render(ps), EndTag("<" + ps[i].name + ">"));
      if k < |ps| then last == Some(|Render(ps[..k])|) else last.Some? ==> last.value <= |Render(ps[..i])|
    ensures UpdateHelper(Render(ps), "<" + ps[i].name + ">", value) ==
      Stored(Cut(Render(ps[..i]) + PieceText(ps[i].(text := value)) + Render(ps[k..])))
  {
    hide Find, Render, EndTag, UpdateHelper, Cut;
    var shm, tag := Render(ps), "<" + ps[i].name + ">";
    var a, head, tail := Render(ps[..i]), Render(ps[..k]), Render(ps[k..]);
    Spliced(a, tag, ps[i].text, head, tail, value);
    if k < |ps| {
      ReplaceBetween(shm, tag, value);
    } else {
      assert tail == "" by { RenderStart(ps[k..]); }
      ReplaceToEnd(shm, tag, value);
    }
  }

  lemma Spliced(a: string, tag: string, text: string, head: string, tail: string, value: string)
    requires a + (tag + text) <= head
    ensures (head + tail)[..|a| + |tag|] + value + (head + tail)[|head|..] == a + (tag + value) + tail
  {
    assert (head + tail)[..|a| + |tag|] == (a + (tag + text))[..|a| + |tag|] == a + tag;
    assert (head + tail)[|head|..] == tail;
  }

  /** The closing tag is missing or in front: everything behind the opening tag is replaced. */
  lemma ReplaceToEnd(shm: string, tag: string, value: string)
    requires tag != "" && Find(shm, tag).Some?
    requires Find(shm, EndTag(tag)).Some? ==> Find(shm, EndTag(tag)).value < Find(shm, tag).value + |tag|
    ensures UpdateHelper(shm, tag, value) == Stored(Cut(shm[..Find(shm, tag).value + |tag|] + value + shm[|shm|..]))
  {
    hide Find, EndTag, Cut;
  }

  /** Only a piece can be looked up. */
  lemma {:induction false} LookedUpIsThere(s: string, tag: string)
    requires Lookup(s, tag).Some?
    ensures Find(s, "<" + tag + ">").Some?
    decreases |s|
  {
    hide Find, FirstPiece;
    var p := FirstPiece(s);
    assert p.Some?;
    FirstPieceIsThere(s);
    if p.value.name == tag {
      FoundSomewhere(s, "<" + tag + ">", 0);
    } else {
      var n := |PieceText(p.value)|;
      ParseNext(s, p.value);
      LookedUpIsThere(s[n..], tag);
      var i := Find(s[n..], "<" + tag + ">").value;
      assert s[n + i..] == s[n..][i..];
      assert s[n..][i..][..|tag| + 2] == "<" + tag + ">";
      FoundSomewhere(s, "<" + tag + ">", n + i);
    }
  }

  lemma FirstPieceIsThere(s: string)
    requires FirstPiece(s).Some?
    ensures PieceText(FirstPiece(s).value) <= s && "<" + FirstPiece(s).value.name + ">" <= s
  {
    hide Until;
    var n := Until(s[1..], {'>'});
    assert s[1..][n] == '>' && s == "<" + s[1..n + 1] + ">" + s[n + 2..];
  }

  /** What an update of an unknown tag writes does not hold that tag either. */
  lemma StaysUnknown(a: string, value: string, b: string, tag: string)
    requires '<' !in tag && '<' !in value && '>' !in value && |a| < |"<" + tag + ">"|
    requires b != "" ==> b[0] == '<' && Find(b, "<" + tag + ">").None?
    ensures Find(a + value + b, "<" + tag + ">").None?
  {
    hide Find;
    var s, pat := a + value + b, "<" + tag + ">";
    forall i | 0 <= i <= |s|
      ensures !(pat <= s[i..])
    {
      if pat <= s[i..] {
        if i >= |a| + |value| {
          assert s[i..] == b[i - |a| - |value|..];
          FoundSomewhere(b, pat, i - |a| - |value|);
        } else {
          NotAcross(a, value, b, tag, i);
        }
      }
    }
    NoFind(s, pat);
  }

  /** The value has neither bracket, so no tag can begin before it ends and reach behind `a`. */
  lemma NotAcross(a: string, value: string, b: string, tag: string, i: nat)
    requires '<' !in tag && '<' !in value && '>' !in value && |a| < |"<" + tag + ">"|
    requires (b != "" ==> b[0] == '<') && i < |a| + |value|
    ensures !("<" + tag + ">" <= (a + value + b)[i..])
  {
    var s, pat, m := a + value + b, "<" + tag + ">", |a| + |value|;
    var e := i + |pat| - 1;
    if e < |s| {
      assert forall k :: |a| <= k < m ==> s[k] == value[k - |a|] && s[k] in value;
      if i >= |a| {
        Mismatch(s, i, pat, 0);
      } else if e < m {
        Mismatch(s, i, pat, |pat| - 1);
      } else {
        assert s[m] == b[0];
        assert m - i < |pat| - 1 ==> pat[m - i] == tag[m - i - 1] && pat[m - i] in tag;
        Mismatch(s, i, pat, m - i);
      }
    }
  }

  lemma Mismatch(s: string, i: nat, pat: string, j: nat)
    requires i + |pat| <= |s| && j < |pat| && s[i + j] != pat[j]
    ensures !(pat <= s[i..])
  {
    assert s[i..][j] == s[i + j];
  }

  /** What is found in the part that is copied back is found there in the whole. */
  lemma FoundInCut(s: string, pat: string)
    requires Find(Cut(s), pat).Some?
    ensures Find(s, pat).Some? && Find(s, pat).value <= Find(Cut(s), pat).value
  {
    hide Find, Cut;
    var n := Find(Cut(s), pat).value;
    FoundIsThere(Cut(s), pat);
    assert s[n..n + |pat|] == Cut(s)[n..n + |pat|] == pat;
    assert pat <= s[n..];
    FoundSomewhere(s, pat, n);
  }

  lemma UnknownFails(ps: seq<Piece>, tag: string, value: string)
    requires Document(ps) && '<' !in tag && '>' !in tag && '<' !in value && '>' !in value
    requires forall i :: 0 <= i < |ps| ==> ps[i].name != tag
    ensures !Obeys(ps, tag, value)
  {
    hide Find, Collect, UpdateHelper, Parse, Cut;
    var shm, pat := Render(ps), "<" + tag + ">";
    TagIsNotFound(ps, tag);
    UnknownTagDestroys(shm, tag, value);
    if |shm| >= |tag| + 1 {
      var last := Find(shm, "<" + ("/" + tag) + ">");
      var b := if last.Some? && |tag| + 1 <= last.value then shm[last.value..] else "";
      if b != "" {
        assert shm[last.value..last.value + |tag| + 3][0] == '<';
        if Find(b, pat).Some? {
          var i := Find(b, pat).value;
          assert shm[last.value + i..] == b[i..] && b[i..][..|pat|] == pat;
          FoundSomewhere(shm, pat, last.value + i);
        }
      }
      StaysUnknown(shm[..|tag| + 1], value, b, tag);
      var text := shm[..|tag| + 1] + value + b;
      assert b == "" ==> text == shm[..|tag| + 1] + value;
      assert UpdateHelper(shm, pat, value) == Stored(Cut(text));
      if Lookup(Cut(text), tag).Some? {
        LookedUpIsThere(Cut(text), tag);
        FoundInCut(text, pat);
      }
    }
  }

  lemma WithoutMiddle(ps: seq<Piece>, i: nat, value: string, n: nat)
    requires Document(ps) && i < n <= |ps| && '<' !in value
    ensures var qs := ps[..i] + [ps[i].(text := value)] + ps[n..];
      Document(qs) && forall k, q :: i < k < n && q in qs ==> q.name != ps[k].name
  {
    hide CleanPiece;
    var p := ps[i].(text := value);
    assert CleanPiece(p) by { CleanText(ps[i], value); }
    var qs := ps[..i] + [p] + ps[n..];
    forall k | 0 <= k < |qs|
      ensures CleanPiece(qs[k])
      ensures qs[k].name == ps[if k <= i then k else n + k - i - 1].name
    {
    }
  }

  lemma CleanText(p: Piece, value: string)
    requires CleanPiece(p) && '<' !in value
    ensures CleanPiece(p.(text := value))
  {
  }

  /** The tag is there, but other pieces stand between it and its closing tag: they are lost. */
  lemma OverwritingFails(ps: seq<Piece>, i: nat, value: string)
    requires Document(ps) && i + 1 < |ps| && !IsField(ps, i) && '<' !in value
    ensures !Obeys(ps, ps[i].name, value)
  {
    hide Find, Render, UpdateHelper, Parse, CleanPiece, Cut;
    var qs, lost := Updated(ps, i, value), ps[i + 1].name;
    KnownTag(ps, i, value);
    WithoutMiddle(ps, i, value, ClosesAt(ps, i));
    assert ClosesAt(ps, i) > i + 1;
    ParseRender(ps);
    TextOfPiece(ps, i + 1);
    assert Lookup(Render(ps), lost).Some?;
    if Lookup(Cut(Render(qs)), lost).Some? {
      LookedUpIsThere(Cut(Render(qs)), lost);
      FoundInCut(Render(qs), "<" + lost + ">");
      assert '>' !in lost by { TagIsClean(ps, i + 1); }
      TagIsNotFound(qs, lost);
    }
  }

  lemma TagIsClean(ps: seq<Piece>, i: nat)
    requires Document(ps) && i < |ps|
    ensures '>' !in ps[i].name && '<' !in ps[i].text
  {
    assert CleanPiece(ps[i]);
  }

  /** The tag owns its text: the update is that of the document, as far as it is copied back. */
  lemma OwnTextUpdate(ps: seq<Piece>, i: nat, value: string)
    requires Document(ps) && OwnsText(ps, i) && '<' !in value
    ensures var qs := SetText(ps, i, value);
      && Document(qs) && |qs| == |ps| && UpdateHelper(Render(ps), "<" + ps[i].name + ">", value) == Stored(Cut(Render(qs)))
      && forall t :: TextOf(qs, t) == if t == ps[i].name then Some(value) else Lookup(Render(ps), t)
  {
    hide Find, Render, UpdateHelper, Parse, CleanPiece, SetText, Updated, TextOf, Cut;
    var qs := SetText(ps, i, value);
    KnownTag(ps, i, value);
    SetTextIs(ps, i, value);
    WithoutMiddle(ps, i, value, i + 1);
    assert Updated(ps, i, value) == qs by { OwnTextIsSet(ps, i, value); }
    assert Document(qs) by { assert qs == ps[..i] + [ps[i].(text := value)] + ps[i + 1..]; }
    ParseRender(ps);
    TextOfPiece(qs, i);
    forall t | t != ps[i].name
      ensures TextOf(qs, t) == TextOf(ps, t)
    {
      TextOfOther(ps, i, value, t);
    }
  }

  /** A document that is cut has lost its last text, or its last tag. */
  lemma CutLoses(qs: seq<Piece>)
    requires Document(qs) && qs != [] && |Render(qs)| > MEM_MAX_SIZE
    ensures Lookup(Cut(Render(qs)), qs[|qs| - 1].name) != Some(qs[|qs| - 1].text)
  {
    hide Find, Render, Parse, Document, CleanPiece;
    var n := |qs| - 1;
    var front, last := qs[..n], qs[n];
    var a, tag, text := Render(front), "<" + last.name + ">", Cut(Render(qs));
    RenderSplits(qs, n);
    assert qs[n..] == [last];
    RenderOne(last);
    assert Render(qs) == a + (tag + last.text);
    if |text| < |a + tag| {
      if Lookup(text, last.name).Some? {
        LookedUpIsThere(text, last.name);
        FoundInCut(Render(qs), tag);
        TagIsFound(qs, n);
      }
    } else {
      var part := text[|a + tag|..];
      assert |part| < |last.text| && part == last.text[..|part|];
      CutDocument(qs, part);
      var cut := front + [Piece(last.name, part)];
      assert Render(cut) == text by { CutRender(qs, part); }
      ParseDocument(cut);
      TextOfPiece(cut, n);
    }
  }

  lemma CutRender(qs: seq<Piece>, part: string)
    requires qs != []
    ensures var n := |qs| - 1;
      Render(qs[..n] + [Piece(qs[n].name, part)]) == Render(qs[..n]) + ("<" + qs[n].name + ">") + part
  {
    var n := |qs| - 1;
    var cut := qs[..n] + [Piece(qs[n].name, part)];
    RenderSplits(cut, n);
    assert cut[..n] == qs[..n] && cut[n..] == [Piece(qs[n].name, part)];
    RenderOne(Piece(qs[n].name, part));
  }

  lemma CutDocument(qs: seq<Piece>, part: string)
    requires Document(qs) && qs != [] && part <= qs[|qs| - 1].text
    ensures Document(qs[..|qs| - 1] + [Piece(qs[|qs| - 1].name, part)])
  {
    var n := |qs| - 1;
    assert CleanPiece(qs[n]);
    assert forall c :: c in part ==> c in qs[n].text;
  }

  lemma OwnTextIsSet(ps: seq<Piece>, i: nat, value: string)
    requires OwnsText(ps, i)
    ensures Updated(ps, i, value) == SetText(ps, i, value)
  {
    assert ClosesAt(ps, i) == i + 1;
  }

  lemma OwnTextObeys(ps: seq<Piece>, i: nat, value: string)
    requires Document(ps) && OwnsText(ps, i) && '<' !in value
    ensures Obeys(ps, ps[i].name, value) <==> |Render(SetText(ps, i, value))| <= MEM_MAX_SIZE
  {
    hide Find, Render, UpdateHelper, Parse, Document, SetText, TextOf;
    var qs := SetText(ps, i, value);
    OwnTextUpdate(ps, i, value);
    if |Render(qs)| <= MEM_MAX_SIZE {
      assert Parse(Render(qs)) == qs by { ParseDocument(qs); }
    } else {
      CutLoses(qs);
      TextOfPiece(qs, |qs| - 1);
    }
  }

  lemma ParseDocument(qs: seq<Piece>)
    requires Document(qs)
    ensures Parse(Render(qs)) == qs
  {
    ParseRender(qs);
  }

  /**
    An update of a document obeys the law exactly if the tag is there, owns its text, and the result fits:
    every unknown tag, every tag with other tags inside and every value that is too long loses something.
  */
  lemma UpdateIsExact(ps: seq<Piece>, tag: string, value: string)
    requires Document(ps) && '<' !in tag && '>' !in tag && '<' !in value && '>' !in value
    ensures Obeys(ps, tag, value) <==>
      exists i :: 0 <= i < |ps| && ps[i].name == tag && OwnsText(ps, i) && |Render(SetText(ps, i, value))| <= MEM_MAX_SIZE
  {
    hide Document, Obeys, Render, SetText;
    if i :| 0 <= i < |ps| && ps[i].name == tag {
      OnlyOne(ps, i);
      if OwnsText(ps, i) {
        OwnTextObeys(ps, i, value);
      } else {
        OverwritingFails(ps, i, value);
      }
    } else {
      UnknownFails(ps, tag, value);
    }
  }

  lemma OnlyOne(ps: seq<Piece>, i: nat)
    requires Document(ps) && i < |ps|
    ensures forall k :: 0 <= k < |ps| && ps[k].name == ps[i].name ==> k == i
  {
  }
}
