/**
  The status document of this program: the template that main() writes, and the buffers in which the
  devices format their values.  Together they never outgrow the shared segment.
*/
module StatusTemplate {
  import opened Lists
  import opened StatusDocument

  /** A field of the template: its tag, the room of the buffer its value is formatted in, and the text behind it. */
  datatype Slot = Slot(tag: string, room: nat, gap: string)

  const FIELDS: nat := 28

  /** The fields in the order of the template. */
  function SlotAt(k: nat): Slot
    requires k < FIELDS
  {
    if k == 0 then Slot("TempInnen", 19, " ")
    else if k == 1 then Slot("posJal_0", 15, " ")
    else if k == 2 then Slot("TempHWR", 19, " ")
    else if k == 3 then Slot("TempAussen", 15, " ")
    else if k == 4 then Slot("Feuchte", 15, " ")
    else if k == 5 then Slot("Wind", 15, " ")
    else if k == 6 then Slot("Regen_1h", 15, " ")
    else if k == 7 then Slot("Regen_24h", 15, " ")
    else if k == 8 then Slot("Regen_7d", 15, " ")
    else if k == 9 then Slot("Symbol", 9, " ")
    else if k == 10 then Slot("posJal_1", 15, " ")
    else if k == 11 then Slot("posJal_2", 15, " ")
    else if k == 12 then Slot("posJal_3", 15, " ")
    else if k == 13 then Slot("drvJal_0", 15, " ")
    else if k == 14 then Slot("drvJal_1", 15, " ")
    else if k == 15 then Slot("drvJal_2", 15, " ")
    else if k == 16 then Slot("drvJal_3", 15, " ")
    else if k == 17 then Slot("Orient", 3, " ")
    else if k == 18 then Slot("HWR", 3, " ")
    else if k == 19 then Slot("Abluft", 7, " ")
    else if k == 20 then Slot("EmpfangWetter", 29, " ")
    else if k == 21 then Slot("EmpfangHell", 29, " ")
    else if k == 22 then Slot("SA", 5, " ")
    else if k == 23 then Slot("SU", 5, " ")
    else if k == 24 then Slot("TCPConnected", 3, " ")
    else if k == 25 then Slot("Ventil_1", 7, " ")
    else if k == 26 then Slot("Ventil_2", 7, "  ")
    else Slot("Steckdose", 7, "")
  }

  const XML: string := "?xml version=\"1.0\" encoding=\"UTF-8\"?"

  function Tag(k: nat): string
    requires k < FIELDS
  {
    SlotAt(k).tag
  }

  predicate GoodTag(t: string) {
    t != "" && t[0] != '/' && t[0] != '?' && '<' !in t && '>' !in t && t != "hsinfo"
  }

  lemma TagsAreGood(k: nat)
    requires k < FIELDS
    ensures GoodTag(Tag(k)) && '<' !in SlotAt(k).gap
  {
    if k < 7 {
      GoodBelow7(k);
    } else if k < 14 {
      GoodBelow14(k);
    } else if k < 21 {
      GoodBelow21(k);
    } else {
      GoodBelow28(k);
    }
  }

  lemma GoodBelow7(k: nat)
    requires k < 7
    ensures GoodTag(Tag(k)) && '<' !in SlotAt(k).gap
  {
  }

  lemma GoodBelow14(k: nat)
    requires 7 <= k < 14
    ensures GoodTag(Tag(k)) && '<' !in SlotAt(k).gap
  {
  }

  lemma GoodBelow21(k: nat)
    requires 14 <= k < 21
    ensures GoodTag(Tag(k)) && '<' !in SlotAt(k).gap
  {
  }

  lemma GoodBelow28(k: nat)
    requires 21 <= k < 28
    ensures GoodTag(Tag(k)) && '<' !in SlotAt(k).gap
  {
  }

  lemma TagsDiffer(i: nat, j: nat)
    requires i < j < FIELDS
    ensures Tag(i) != Tag(j)
  {
    if i < 4 {
    } else if i < 9 {
    } else if i < 14 {
    } else if i < 20 {
    } else {
    }
  }

  // ---------------------------------------------------------------- the document

  /** The values of the fields. */
  predicate Values(vs: seq<string>) {
    |vs| == FIELDS && forall k :: 0 <= k < FIELDS ==> '<' !in vs[k] && |vs[k]| <= SlotAt(k).room
  }

  /** The pieces of the first `k` fields. */
  function Body(vs: seq<string>, k: nat): seq<Piece>
    requires |vs| == FIELDS && k <= FIELDS
  {
    if k == 0 then []
    else Body(vs, k - 1) + [Piece(Tag(k - 1), vs[k - 1]), Piece("/" + Tag(k - 1), SlotAt(k - 1).gap)]
  }

  function Doc(vs: seq<string>): seq<Piece>
    requires |vs| == FIELDS
  {
    [Piece(XML, ""), Piece("hsinfo", " ")] + Body(vs, FIELDS) + [Piece("/hsinfo", "")]
  }

  lemma {:induction false} BodyPieces(vs: seq<string>, k: nat, i: nat)
    requires |vs| == FIELDS && i < k <= FIELDS
    ensures |Body(vs, k)| == 2 * k
    ensures Body(vs, k)[2 * i] == Piece(Tag(i), vs[i]) && Body(vs, k)[2 * i + 1] == Piece("/" + Tag(i), SlotAt(i).gap)
  {
    hide SlotAt;
    BodySize(vs, k - 1);
    if i < k - 1 {
      BodyPieces(vs, k - 1, i);
    }
  }

  lemma BodySize(vs: seq<string>, k: nat)
    requires |vs| == FIELDS && k <= FIELDS
    ensures |Body(vs, k)| == 2 * k
  {
    hide SlotAt;
  }

  /** What stands at a position of the document. */
  function PieceAt(vs: seq<string>, p: nat): Piece
    requires |vs| == FIELDS && p < 2 * FIELDS + 3
  {
    if p == 0 then Piece(XML, "") else if p == 1 then Piece("hsinfo", " ")
    else if p == 2 * FIELDS + 2 then Piece("/hsinfo", "")
    else if p % 2 == 0 then Piece(Tag(p / 2 - 1), vs[p / 2 - 1])
    else Piece("/" + Tag(p / 2 - 1), SlotAt(p / 2 - 1).gap)
  }

  lemma DocIs(vs: seq<string>, p: nat)
    requires |vs| == FIELDS && p < 2 * FIELDS + 3
    ensures |Doc(vs)| == 2 * FIELDS + 3 && Doc(vs)[p] == PieceAt(vs, p)
  {
    hide SlotAt, Body;
    BodySize(vs, FIELDS);
    if 2 <= p < 2 * FIELDS + 2 {
      BodyPieces(vs, FIELDS, p / 2 - 1);
      assert Doc(vs)[p] == Body(vs, FIELDS)[p - 2];
    }
  }

  lemma TagAgainstOthers(t: string)
    requires GoodTag(t)
    ensures t !in {XML, "hsinfo", "/hsinfo"} && "/" + t !in {XML, "hsinfo", "/hsinfo"}
  {
    assert XML[0] == '?' && ("hsinfo")[0] == 'h' && ("/hsinfo")[0] == '/' && ("/" + t)[0] == '/';
    assert ("/hsinfo")[1..] == "hsinfo" && ("/" + t)[1..] == t;
  }

  lemma TagAgainstTag(t: string, u: string)
    requires GoodTag(t) && GoodTag(u)
    ensures t != "/" + u && (t != u ==> "/" + t != "/" + u)
  {
    assert ("/" + u)[0] == '/';
    assert ("/" + t)[1..] == t && ("/" + u)[1..] == u;
  }

  lemma NamesDiffer(vs: seq<string>, p: nat, q: nat)
    requires |vs| == FIELDS && p < q < 2 * FIELDS + 3
    ensures PieceAt(vs, p).name != PieceAt(vs, q).name
  {
    hide SlotAt, GoodTag;
    if 2 <= p < 2 * FIELDS + 2 {
      TagsAreGood(p / 2 - 1);
      TagAgainstOthers(Tag(p / 2 - 1));
    }
    if 2 <= q < 2 * FIELDS + 2 {
      TagsAreGood(q / 2 - 1);
      TagAgainstOthers(Tag(q / 2 - 1));
    }
    if 2 <= p && q < 2 * FIELDS + 2 {
      var i, j := p / 2 - 1, q / 2 - 1;
      TagAgainstTag(Tag(i), Tag(j));
      TagAgainstTag(Tag(j), Tag(i));
      if i < j {
        TagsDiffer(i, j);
      }
    } else if p == 0 {
      assert XML[0] == '?';
    }
  }

  lemma XmlIsClean()
    ensures '<' !in XML && '>' !in XML
  {
  }

  lemma RootIsClean()
    ensures CleanPiece(Piece("hsinfo", " ")) && CleanPiece(Piece("/hsinfo", ""))
  {
  }

  lemma PieceAtIsClean(vs: seq<string>, p: nat)
    requires Values(vs) && p < 2 * FIELDS + 3
    ensures CleanPiece(PieceAt(vs, p))
  {
    hide SlotAt;
    XmlIsClean();
    RootIsClean();
    if 2 <= p < 2 * FIELDS + 2 {
      TagsAreGood(p / 2 - 1);
    }
  }

  /** The template is a document, whatever clean values its fields hold. */
  lemma DocIsDocument(vs: seq<string>)
    requires Values(vs)
    ensures Document(Doc(vs))
  {
    hide SlotAt, Body, CleanPiece, Doc;
    DocIs(vs, 0);
    var ps := Doc(vs);
    forall p | 0 <= p < |ps|
      ensures CleanPiece(ps[p])
    {
      DocIs(vs, p);
      PieceAtIsClean(vs, p);
    }
    forall p, q | 0 <= p < q < |ps|
      ensures ps[p].name != ps[q].name
    {
      DocIs(vs, p);
      DocIs(vs, q);
      NamesDiffer(vs, p, q);
    }
  }

  /** Field `k` of the template, and what updating it does to the values. */
  lemma FieldOfDoc(vs: seq<string>, k: nat, value: string)
    requires |vs| == FIELDS && k < FIELDS
    ensures |Doc(vs)| == 2 * FIELDS + 3 && IsField(Doc(vs), 2 * k + 2) && Doc(vs)[2 * k + 2].name == Tag(k)
    ensures SetText(Doc(vs), 2 * k + 2, value) == Doc(vs[k := value])
  {
    hide SlotAt, Body, Doc;
    var ws := vs[k := value];
    DocIs(vs, 2 * k + 2);
    DocIs(vs, 2 * k + 3);
    DocIs(ws, 0);
    forall p: nat | p < 2 * FIELDS + 3
      ensures SetText(Doc(vs), 2 * k + 2, value)[p] == Doc(ws)[p]
    {
      DocIs(vs, p);
      DocIs(ws, p);
    }
  }

  // ---------------------------------------------------------------- its length

  /** The most characters the first `k` fields can take. */
  function Room(k: nat): nat
    requires k <= FIELDS
  {
    if k == 0 then 0 else Room(k - 1) + Width(k - 1)
  }

  /** Both tags of a field, its value at its longest, and the text behind it. */
  function Width(k: nat): nat
    requires k < FIELDS
  {
    2 * |Tag(k)| + 5 + |SlotAt(k).gap| + SlotAt(k).room
  }

  lemma {:induction false} BodyLength(vs: seq<string>, k: nat)
    requires Values(vs) && k <= FIELDS
    ensures |Render(Body(vs, k))| <= Room(k)
  {
    hide SlotAt, Tag;
    if k > 0 {
      BodyLength(vs, k - 1);
      var a, b := Piece(Tag(k - 1), vs[k - 1]), Piece("/" + Tag(k - 1), SlotAt(k - 1).gap);
      CollectJoin(Body(vs, k - 1), [a, b], PieceText);
      assert [a, b] == [a] + [b];
      CollectJoin([a], [b], PieceText);
      CollectOne(a, PieceText);
      CollectOne(b, PieceText);
    }
  }

  lemma Widths1()
    ensures Width(0) == 43 && Width(1) == 37 && Width(2) == 39 && Width(3) == 41 && Width(4) == 35 && Width(5) == 29 && Width(6) == 37
  {
  }

  lemma Widths2()
    ensures Width(7) == 39 && Width(8) == 37 && Width(9) == 27 && Width(10) == 37 && Width(11) == 37 && Width(12) == 37 && Width(13) == 37
  {
  }

  lemma Widths3()
    ensures Width(14) == 37 && Width(15) == 37 && Width(16) == 37 && Width(17) == 21 && Width(18) == 15 && Width(19) == 25 && Width(20) == 61
  {
  }

  lemma Widths4()
    ensures Width(21) == 57 && Width(22) == 15 && Width(23) == 15 && Width(24) == 33 && Width(25) == 29 && Width(26) == 30 && Width(27) == 30
  {
  }

  lemma RoomIs()
    ensures Room(FIELDS) == 954
  {
    hide Width;
    Widths1();
    Widths2();
    Widths3();
    Widths4();
    assert Room(1) == 43 && Room(2) == 80;
    assert Room(3) == 119 && Room(4) == 160;
    assert Room(5) == 195 && Room(6) == 224;
    assert Room(7) == 261 && Room(8) == 300;
    assert Room(9) == 337 && Room(10) == 364;
    assert Room(11) == 401 && Room(12) == 438;
    assert Room(13) == 475 && Room(14) == 512;
    assert Room(15) == 549 && Room(16) == 586;
    assert Room(17) == 623 && Room(18) == 644;
    assert Room(19) == 659 && Room(20) == 684;
    assert Room(21) == 745 && Room(22) == 802;
    assert Room(23) == 817 && Room(24) == 832;
    assert Room(25) == 865 && Room(26) == 894;
    assert Room(27) == 924 && Room(28) == 954;
  }

  /**
    The document never outgrows the segment: the template and the buffers in which the values are
    formatted leave room for the terminating NUL.
  */
  lemma DocFits(vs: seq<string>)
    requires Values(vs)
    ensures |Render(Doc(vs))| <= 1010 && Fits(Render(Doc(vs)))
  {
    hide SlotAt, Body, Room;
    var head, tail := [Piece(XML, ""), Piece("hsinfo", " ")], [Piece("/hsinfo", "")];
    var body := Body(vs, FIELDS);
    CollectJoin(head + body, tail, PieceText);
    CollectJoin(head, body, PieceText);
    HeadLength();
    CollectOne(tail[0], PieceText);
    BodyLength(vs, FIELDS);
    RoomIs();
  }

  lemma HeadLength()
    ensures |Collect([Piece(XML, ""), Piece("hsinfo", " ")], PieceText)| == 47
  {
    var a, b := Piece(XML, ""), Piece("hsinfo", " ");
    assert [a, b] == [a] + [b];
    CollectJoin([a], [b], PieceText);
    CollectOne(a, PieceText);
    CollectOne(b, PieceText);
  }

  // ---------------------------------------------------------------- runs

  /** One call of updateHelper by a device: the field and its new value. */
  datatype Write = Write(field: nat, value: string)

  predicate GoodWrite(w: Write) {
    w.field < FIELDS && '<' !in w.value && |w.value| <= SlotAt(w.field).room
  }

  function After(text: string, ws: seq<Write>): Outcome
    requires forall w :: w in ws ==> w.field < FIELDS
    decreases |ws|
  {
    if ws == [] then Stored(text)
    else
      var r := UpdateHelper(text, "<" + Tag(ws[0].field) + ">", ws[0].value);
      if r.Throws? then r else After(r.text, ws[1..])
  }

  /** The values after the writes: in every field the last one written. */
  function Final(vs: seq<string>, ws: seq<Write>): (us: seq<string>)
    requires |vs| == FIELDS && forall w :: w in ws ==> w.field < FIELDS
    ensures |us| == FIELDS
    decreases |ws|
  {
    if ws == [] then vs else Final(vs[ws[0].field := ws[0].value], ws[1..])
  }

  lemma OneWrite(vs: seq<string>, w: Write)
    requires Values(vs) && GoodWrite(w)
    ensures Values(vs[w.field := w.value])
    ensures UpdateHelper(Render(Doc(vs)), "<" + Tag(w.field) + ">", w.value) == Stored(Render(Doc(vs[w.field := w.value])))
  {
    var us := vs[w.field := w.value];
    assert Values(us);
    hide SlotAt, Doc, Values, Render, UpdateHelper;
    FieldOfDoc(vs, w.field, w.value);
    DocIsDocument(vs);
    DocFits(us);
    UpdateIsFieldUpdate(Doc(vs), 2 * w.field + 2, w.value);
  }

  /**
    Whatever the devices write, in whatever order: the shared text is the template with the last value of
    every field, no update fails, and the text always fits.
  */
  lemma {:induction false} DocumentHoldsLastValues(vs: seq<string>, ws: seq<Write>)
    requires Values(vs) && forall w :: w in ws ==> w.field < FIELDS && GoodWrite(w)
    ensures After(Render(Doc(vs)), ws) == Stored(Render(Doc(Final(vs, ws))))
    ensures Values(Final(vs, ws)) && Fits(Render(Doc(Final(vs, ws))))
    decreases |ws|
  {
    assert |vs| == FIELDS;
    hide SlotAt, Doc, Values, Render, UpdateHelper;
    if ws == [] {
      DocFits(vs);
    } else {
      assert ws[0] in ws;
      OneWrite(vs, ws[0]);
      DocumentHoldsLastValues(vs[ws[0].field := ws[0].value], ws[1..]);
    }
  }
}
