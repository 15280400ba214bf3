// The ESC/POS document builder and a decoder for what it emits.
module Builder {
  import opened Domain
  import opened Wrap
  import Money

  // ---- text to bytes ----

  // A code page: the byte of each rune it has.
  type Page = char -> Option<Byte>

  // Code pages put no printable rune on a control byte.
  ghost predicate PageOk(page: Page) {
    forall c: char | !Money.IsControl(c) && page(c).Some? :: page(c).value >= 32
  }

  const QuestionMark: Byte := 63

  function EncodeRune(page: Page, c: char): Byte {
    if Money.IsControl(c) || page(c).None? then QuestionMark else page(c).value
  }

  function EncodeText(page: Page, s: string): seq<Byte> {
    seq(|s|, i requires 0 <= i < |s| => EncodeRune(page, s[i]))
  }

  // The byte of a rune: its code, or a question mark for a control character and for a rune
  // the page does not have.
  predicate IsCodeOf(page: Page, c: char, b: Byte) {
    if c as int < 32 || 0x7F <= c as int <= 0x9F || page(c) == None then b == 63 else page(c) == Some(b)
  }

  predicate Printable(bytes: seq<Byte>) {
    forall i | 0 <= i < |bytes| :: bytes[i] >= 32
  }

  // encodeText: one byte for each rune and never a control byte.
  method Encode(page: Page, s: string) returns (out: seq<Byte>)
    requires PageOk(page)
    ensures out == EncodeText(page, s) && Printable(out)
    ensures |out| == |s| && forall i | 0 <= i < |s| :: IsCodeOf(page, s[i], out[i])
  {
    out := [];
    for i := 0 to |s|
      invariant |out| == i && forall j | 0 <= j < i :: out[j] == EncodeRune(page, s[j]) && out[j] >= 32
    {
      if Money.IsControl(s[i]) {
        out := out + [QuestionMark];
      } else {
        var b := page(s[i]);
        out := out + [if b.None? then QuestionMark else b.value];
      }
    }
  }

  // ---- commands ----

  datatype Item =
    | Initialize
    | SelectPage(n: Byte)
    | Align(a: Byte)
    | Emphasize(v: Byte)
    | Size(v: Byte)
    | Line(bytes: seq<Byte>)
    | Feed(n: Byte)
    | Cut
    | Pulse

  const ESC: Byte := 0x1B
  const GS: Byte := 0x1D
  const LF: Byte := 0x0A

  function BytesOf(item: Item): (b: seq<Byte>)
    ensures |b| > 0
  {
    match item
    case Initialize => [ESC, 0x40]
    case SelectPage(n) => [ESC, 0x74, n]
    case Align(a) => [ESC, 0x61, a]
    case Emphasize(v) => [ESC, 0x45, v]
    case Size(v) => [GS, 0x21, v]
    case Line(bytes) => bytes + [LF]
    case Feed(n) => [ESC, 0x64, n]
    case Cut => [GS, 0x56, 66, 3]
    case Pulse => [ESC, 0x70, 0, 60, 120]
  }

  function Stream(items: seq<Item>): seq<Byte> {
    if items == [] then [] else BytesOf(items[0]) + Stream(items[1..])
  }

  ghost predicate Issued(items: seq<Item>) {
    forall i | 0 <= i < |items| :: items[i].Line? ==> Printable(items[i].bytes)
  }

  // ---- decoding ----

  // The first command of a stream and its length, as the printer reads it.
  function First(b: seq<Byte>): (r: Option<(Item, nat)>)
    ensures r.Some? ==> 0 < r.value.1 <= |b|
  {
    if |b| == 0 then None
    else if b[0] == ESC then
      if |b| < 2 then None
      else if b[1] == 0x40 then Some((Initialize, 2))
      else if b[1] == 0x70 then
        if |b| >= 5 && b[2] == 0 && b[3] == 60 && b[4] == 120 then Some((Pulse, 5)) else None
      else if |b| < 3 then None
      else if b[1] == 0x74 then Some((SelectPage(b[2]), 3))
      else if b[1] == 0x61 then Some((Align(b[2]), 3))
      else if b[1] == 0x45 then Some((Emphasize(b[2]), 3))
      else if b[1] == 0x64 then Some((Feed(b[2]), 3))
      else None
    else if b[0] == GS then
      if |b| >= 3 && b[1] == 0x21 then Some((Size(b[2]), 3))
      else if |b| >= 4 && b[1] == 0x56 && b[2] == 66 && b[3] == 3 then Some((Cut, 4))
      else None
    else
      var n := PrintableLength(b);
      if n < |b| && b[n] == LF then Some((Line(b[..n]), n + 1)) else None
  }

  function PrintableLength(b: seq<Byte>): (n: nat)
    ensures n <= |b| && (n < |b| ==> b[n] < 32) && forall i | 0 <= i < n :: b[i] >= 32
  {
    if b == [] || b[0] < 32 then 0 else 1 + PrintableLength(b[1..])
  }

  function Decode(b: seq<Byte>): Option<seq<Item>>
    decreases |b|
  {
    if b == [] then Some([])
    else match First(b)
      case None => None
      case Some((item, n)) =>
        match Decode(b[n..])
        case None => None
        case Some(rest) => Some([item] + rest)
  }

  lemma {:induction false} PrintableUpTo(text: seq<Byte>, rest: seq<Byte>)
    requires Printable(text) && rest != [] && rest[0] < 32
    ensures PrintableLength(text + rest) == |text|
  {
    if text == [] {
      assert text + rest == rest;
    } else {
      PrintableUpTo(text[1..], rest);
      assert (text + rest)[1..] == text[1..] + rest;
    }
  }

  lemma FirstLine(text: seq<Byte>, rest: seq<Byte>)
    requires Printable(text)
    ensures First(text + [LF] + rest) == Some((Line(text), |text| + 1))
  {
    var b := text + ([LF] + rest);
    assert text + [LF] + rest == b;
    PrintableUpTo(text, [LF] + rest);
    assert b[|text|] == LF && b[..|text|] == text;
    assert b[0] == if text == [] then LF else text[0];
  }

  lemma FirstOfStream(item: Item, rest: seq<Byte>)
    requires item.Line? ==> Printable(item.bytes)
    ensures First(BytesOf(item) + rest) == Some((item, |BytesOf(item)|))
  {
    if item.Line? {
      FirstLine(item.bytes, rest);
    }
  }

  // The stream decodes to exactly the commands and text lines that were issued, for every
  // content of the lines.
  lemma {:induction false} StreamDecodes(items: seq<Item>)
    requires Issued(items)
    ensures Decode(Stream(items)) == Some(items)
  {
    if items != [] {
      var item, rest := items[0], Stream(items[1..]);
      FirstOfStream(item, rest);
      StreamDecodes(items[1..]);
      hide First, BytesOf;
      assert (BytesOf(item) + rest)[|BytesOf(item)|..] == rest;
      assert items == [item] + items[1..];
    }
  }

  // So two different sequences of commands never give the same stream.
  lemma StreamsDiffer(a: seq<Item>, b: seq<Item>)
    requires Issued(a) && Issued(b) && Stream(a) == Stream(b)
    ensures a == b
  {
    StreamDecodes(a);
    StreamDecodes(b);
    hide Decode, Stream;
  }

  lemma StreamFirst(item: Item, rest: seq<Item>)
    ensures Stream([item] + rest) == BytesOf(item) + Stream(rest) && Stream([]) == []
  {
    hide BytesOf;
    assert ([item] + rest)[1..] == rest;
  }

  lemma {:induction false} StreamConcat(a: seq<Item>, b: seq<Item>)
    ensures Stream(a + b) == Stream(a) + Stream(b)
  {
    hide Stream, BytesOf;
    StreamFirst(Cut, []);
    if a == [] {
      assert a + b == b;
    } else {
      var item, rest := a[0], a[1..];
      StreamConcat(rest, b);
      StreamFirst(item, rest);
      StreamFirst(item, rest + b);
      assert a == [item] + rest && a + b == [item] + (rest + b);
      Regroup(BytesOf(item), Stream(rest), Stream(b));
    }
  }

  // ---- what each call issues ----

  function LineItems(page: Page, lines: seq<string>): seq<Item> {
    if lines == [] then [] else [Line(EncodeText(page, lines[0]))] + LineItems(page, lines[1..])
  }

  function TextItems(page: Page, s: string, width: int): seq<Item> {
    LineItems(page, WrapLines(s, width))
  }

  function TextWidth(width: nat, double: bool): (w: nat)
    requires width >= 1
    ensures w >= 1
  {
    if !double then width else if width / 2 >= 1 then width / 2 else 1
  }

  function Spaces(n: nat): (s: string)
    ensures |s| == n && forall i | 0 <= i < n :: s[i] == ' '
  {
    seq(n, i => ' ')
  }

  // The last line of two columns: the rest of the left one, spaces, the right one.
  function LastRow(line: string, right: string, width: nat): string
    requires |line| + |right| <= width
  {
    line + Spaces(width - |line| - |right|) + right
  }

  predicate Wide(right: string, width: nat) {
    width - |right| - 1 >= 4
  }

  // A right column that leaves less than four characters goes on lines of its own, to the right.
  lemma NarrowColumns(page: Page, left: string, right: string, width: nat)
    requires width >= 1
    ensures var narrow := LineItems(page, WrapLines(left, width)) + [Align(2)]
                          + LineItems(page, WrapLines(right, width)) + [Align(0)];
            width < |right| + 5 ==> TwoColumnItems(page, left, right, width) == narrow
  {
  }

  // The padding of a row is never negative.
  ghost predicate RowsFit(lines: seq<string>, right: string, width: nat) {
    forall i | 0 <= i < |lines| :: |lines[i]| + 1 + |right| <= width
  }

  lemma WideRowsFit(left: string, right: string, width: nat)
    requires Wide(right, width)
    ensures RowsFit(WrapLines(left, width - |right| - 1), right, width)
    ensures |WrapLines(left, width - |right| - 1)| >= 1
  {
    var lines := WrapLines(left, width - |right| - 1);
    LinesFit(left, width - |right| - 1);
    assert forall i | 0 <= i < |lines| :: lines[i] in lines;
  }

  function TwoColumnItems(page: Page, left: string, right: string, width: nat): seq<Item>
    requires width >= 1
  {
    if !Wide(right, width)
    then TextItems(page, left, width) + [Align(2)] + TextItems(page, right, width) + [Align(0)]
    else
      WideRowsFit(left, right, width);
      RowItems(page, WrapLines(left, width - |right| - 1), right, width)
  }

  function RowItems(page: Page, lines: seq<string>, right: string, width: nat): seq<Item>
    requires RowsFit(lines, right, width)
  {
    if lines == [] then []
    else if |lines| == 1 then TextItems(page, LastRow(lines[0], right, width), width)
    else TextItems(page, lines[0], width) + RowItems(page, lines[1..], right, width)
  }

  lemma RowIsFull(line: string, right: string, width: nat)
    requires |line| + 1 + |right| <= width
    ensures var row := LastRow(line, right, width);
            |row| == width && row[width - |right|..] == right && row[..|line|] == line && row[|line|] == ' '
  {
  }

  // When the right column has no line break, the wide form prints the wrapped left column and
  // ends in one row of exactly the full width that ends in the right column, with at least one
  // space before it.
  lemma TwoColumnsExact(page: Page, left: string, right: string, width: nat)
    requires width >= |right| + 5 && '\n' !in right
    ensures var lines := WrapLines(left, width - |right| - 1);
            var n := |lines| - 1;
            && n >= 0 && |lines[n]| + 1 + |right| <= width
            && TwoColumnItems(page, left, right, width)
               == LineItems(page, lines[..n]) + [Line(EncodeText(page, LastRow(lines[n], right, width)))]
            && var row := LastRow(lines[n], right, width);
               |row| == width && row[width - |right|..] == right && row[..|lines[n]|] == lines[n] && row[|lines[n]|] == ' '
  {
    hide WrapLines, LastRow;
    var lines := WrapLines(left, width - |right| - 1);
    WideRowsFit(left, right, width);
    LinesHaveNoBreak(left, width - |right| - 1);
    assert forall i | 0 <= i < |lines| :: lines[i] in lines;
    RowsExact(page, lines, right, width);
    RowIsFull(lines[|lines| - 1], right, width);
  }

  lemma {:induction false} RowsExact(page: Page, lines: seq<string>, right: string, width: nat)
    requires lines != [] && '\n' !in right && width >= 1 && RowsFit(lines, right, width)
    requires forall i | 0 <= i < |lines| :: '\n' !in lines[i]
    ensures var n := |lines| - 1;
            RowItems(page, lines, right, width)
            == LineItems(page, lines[..n]) + [Line(EncodeText(page, LastRow(lines[n], right, width)))]
  {
    hide LineItems, EncodeText, LastRow, WrapLines;
    if |lines| == 1 {
      var row := LastRow(lines[0], right, width);
      assert lines[..0] == [];
      NoLineItems(page);
      RowIsFull(lines[0], right, width);
      RowHasNoBreak(lines[0], right, width);
      OneLineItem(page, row, width);
    } else {
      var n := |lines| - 1;
      var rest := lines[1..];
      RowsExact(page, rest, right, width);
      OneLineItem(page, lines[0], width);
      assert lines[..n] == [lines[0]] + rest[..n - 1] && rest[n - 1] == lines[n];
      LineItemsCons(page, lines[0], rest[..n - 1]);
      Regroup([Line(EncodeText(page, lines[0]))], LineItems(page, rest[..n - 1]),
              [Line(EncodeText(page, LastRow(lines[n], right, width)))]);
    }
  }

  lemma RowHasNoBreak(line: string, right: string, width: nat)
    requires |line| + |right| <= width && '\n' !in line && '\n' !in right
    ensures '\n' !in LastRow(line, right, width)
  {
  }

  lemma NoLineItems(page: Page)
    ensures LineItems(page, []) == []
  {
  }

  lemma LineItemsCons(page: Page, l: string, rest: seq<string>)
    ensures LineItems(page, [l] + rest) == [Line(EncodeText(page, l))] + LineItems(page, rest)
  {
    assert ([l] + rest)[1..] == rest;
  }

  lemma OneLineItem(page: Page, s: string, width: nat)
    requires |s| <= width && width >= 1 && '\n' !in s
    ensures TextItems(page, s, width) == [Line(EncodeText(page, s))]
  {
    OneLine(s, width);
    LineItemsCons(page, s, []);
    assert [s] + [] == [s];
  }

  // The builder calls that make up the body of a template.
  datatype Call =
    | SetAlign(a: Byte)
    | SetBold(on: bool)
    | SetDouble(on: bool)
    | PutText(s: string)
    | PutTextDouble(s: string)
    | PutTwoColumns(left: string, right: string)
    | PutSeparator
    | PutPulse

  function Flag(on: bool, v: Byte): Byte { if on then v else 0 }

  function CallItems(page: Page, width: nat, double: bool, call: Call): seq<Item>
    requires width >= 1
  {
    match call
    case SetAlign(a) => [Align(a)]
    case SetBold(on) => [Emphasize(Flag(on, 1))]
    case SetDouble(on) => [Size(Flag(on, 0x30))]
    case PutText(s) => TextItems(page, s, TextWidth(width, double))
    case PutTextDouble(s) => TextItems(page, s, width / 2)
    case PutTwoColumns(left, right) => TwoColumnItems(page, left, right, TextWidth(width, double))
    case PutSeparator => TextItems(page, seq(width, i => '-'), TextWidth(width, double))
    case PutPulse => [Pulse]
  }

  function CallsItems(page: Page, width: nat, double: bool, calls: seq<Call>): seq<Item>
    requires width >= 1
    decreases |calls|
  {
    if calls == [] then []
    else
      CallItems(page, width, double, calls[0])
      + CallsItems(page, width, if calls[0].SetDouble? then calls[0].on else double, calls[1..])
  }

  class Builder {
    const page: Page
    const pageNumber: Byte
    const width: nat
    var buf: seq<Byte>
    var double: bool
    ghost var issued: seq<Item>

    ghost predicate Valid()
      reads this
    {
      width >= 1 && PageOk(page) && buf == Stream(issued) && Issued(issued)
    }

    constructor (page: Page, pageNumber: Byte, width: int)
      requires PageOk(page)
      ensures Valid() && issued == [] && !double
      ensures this.page == page && this.pageNumber == pageNumber && this.width == EffectiveWidth(width)
    {
      this.page, this.pageNumber := page, pageNumber;
      this.width := if width <= 0 then DefaultWidth else width;
      buf, double, issued := [], false, [];
    }

    // Appends one command.
    method Put(item: Item)
      requires Valid() && (item.Line? ==> Printable(item.bytes))
      modifies this`buf, this`issued
      ensures Valid() && issued == old(issued) + [item]
    {
      hide PageOk, BytesOf;
      StreamConcat(issued, [item]);
      assert Stream([item]) == BytesOf(item) + Stream([]);
      buf := buf + BytesOf(item);
      issued := issued + [item];
    }

    method Init()
      requires Valid()
      modifies this`buf, this`issued
      ensures Valid() && issued == old(issued) + [Initialize, SelectPage(pageNumber)]
    {
      Put(Initialize);
      Put(SelectPage(pageNumber));
    }

    method Bold(on: bool)
      requires Valid()
      modifies this`buf, this`issued
      ensures Valid() && issued == old(issued) + [Emphasize(Flag(on, 1))]
    {
      Put(Emphasize(Flag(on, 1)));
    }

    method DoubleSize(on: bool)
      requires Valid()
      modifies this
      ensures Valid() && issued == old(issued) + [Size(Flag(on, 0x30))] && double == on
    {
      double := on;
      Put(Size(Flag(on, 0x30)));
    }

    // Wraps the text and writes each line with its line feed.
    method Wrapped(s: string, w: int)
      requires Valid()
      modifies this`buf, this`issued
      ensures Valid() && issued == old(issued) + TextItems(page, s, w)
    {
      hide Stream, Issued, WrapLines;
      var lines := WrapText(s, w);
      assert lines[0..] == lines;
      for i := 0 to |lines|
        invariant Valid() && issued + LineItems(page, lines[i..]) == old(issued) + LineItems(page, lines)
      {
        var bytes := Encode(page, lines[i]);
        Put(Line(bytes));
        LineItemsStep(page, lines, i);
      }
      assert lines[|lines|..] == [];
    }

    method Text(s: string)
      requires Valid()
      modifies this`buf, this`issued
      ensures Valid() && issued == old(issued) + TextItems(page, s, TextWidth(width, double))
    {
      Wrapped(s, TextWidth(width, double));
    }

    method TextDouble(s: string)
      requires Valid()
      modifies this`buf, this`issued
      ensures Valid() && issued == old(issued) + TextItems(page, s, width / 2)
    {
      Wrapped(s, width / 2);
    }

    method TwoColumns(left: string, right: string)
      requires Valid()
      modifies this`buf, this`issued
      ensures Valid() && issued == old(issued) + TwoColumnItems(page, left, right, TextWidth(width, double))
    {
      hide Stream, Issued, WrapLines, TextItems, PageOk;
      var w := TextWidth(width, double);
      var available := w - |right| - 1;
      if available < 4 {
        Text(left);
        Put(Align(2));
        Text(right);
        Put(Align(0));
        return;
      }
      var lines := WrapText(left, available);
      WideRowsFit(left, right, w);
      Rows(lines, right, w);
    }

    // The loop over the wrapped left column.
    method Rows(lines: seq<string>, right: string, w: nat)
      requires Valid() && w == TextWidth(width, double) && RowsFit(lines, right, w)
      modifies this`buf, this`issued
      ensures Valid() && issued == old(issued) + RowItems(page, lines, right, w)
    {
      hide Stream, Issued, WrapLines, TextItems, PageOk, LastRow;
      assert lines[0..] == lines;
      for i := 0 to |lines|
        invariant Valid() && RowsFit(lines[i..], right, w)
        invariant issued + RowItems(page, lines[i..], right, w) == old(issued) + RowItems(page, lines, right, w)
      {
        var line := lines[i];
        assert lines[i..][1..] == lines[i + 1..] && lines[i..][0] == line;
        ghost var before := issued;
        if i == |lines| - 1 {
          Text(LastRow(line, right, w));
        } else {
          Text(line);
        }
        Regroup(before, issued[|before|..], RowItems(page, lines[i + 1..], right, w));
      }
      assert lines[|lines|..] == [];
    }

    method Separator()
      requires Valid()
      modifies this`buf, this`issued
      ensures Valid() && issued == old(issued) + TextItems(page, seq(width, i => '-'), TextWidth(width, double))
    {
      Text(seq(width, i => '-'));
    }

    method CutPaper()
      requires Valid()
      modifies this`buf, this`issued
      ensures Valid() && issued == old(issued) + [Cut]
    {
      Put(Cut);
    }

    // What a template does: one builder call after another.
    method Perform(call: Call)
      requires Valid()
      modifies this
      ensures Valid() && issued == old(issued) + CallItems(page, width, old(double), call)
      ensures double == if call.SetDouble? then call.on else old(double)
    {
      hide Stream, Issued, TextItems, TwoColumnItems, PageOk;
      match call
      case SetAlign(a) => Put(Align(a));
      case SetBold(on) => Bold(on);
      case SetDouble(on) => DoubleSize(on);
      case PutText(s) => Text(s);
      case PutTextDouble(s) => TextDouble(s);
      case PutTwoColumns(left, right) => TwoColumns(left, right);
      case PutSeparator => Separator();
      case PutPulse => Put(Pulse);
    }

    // The finished document decodes to what was issued.
    method Bytes() returns (document: seq<Byte>)
      requires Valid()
      ensures document == buf && Decode(document) == Some(issued)
    {
      StreamDecodes(issued);
      return buf;
    }
  }

  lemma LineItemsStep(page: Page, lines: seq<string>, i: nat)
    requires i < |lines|
    ensures LineItems(page, lines[i..]) == [Line(EncodeText(page, lines[i]))] + LineItems(page, lines[i + 1..])
  {
    assert lines[i..][1..] == lines[i + 1..];
  }

  // ---- whole documents ----

  function Marker(runNumber: nat): string {
    if runNumber > 0 then "*** REPRINT - RUN " + Money.Decimal(runNumber) + " ***" else "*** REPRINT ***"
  }

  function MarkerCalls(runNumber: nat): seq<Call> {
    [SetAlign(1), SetBold(true), PutText(Marker(runNumber)), SetBold(false), SetAlign(0)]
  }

  const FeedLines: Byte := 4

  // What Render issues for a body; None is a normal document, a number that of a reprint run.
  function DocumentItems(page: Page, pageNumber: Byte, width: nat, body: seq<Call>, reprint: Option<nat>): seq<Item>
    requires width >= 1
  {
    [Initialize, SelectPage(pageNumber)]
    + (if reprint.Some? then CallsItems(page, width, false, MarkerCalls(reprint.value)) else [])
    + CallsItems(page, width, false, body)
    + [Feed(FeedLines), Cut]
  }

  method RunCalls(b: Builder, calls: seq<Call>)
    requires b.Valid()
    modifies b
    ensures b.Valid() && b.issued == old(b.issued) + CallsItems(b.page, b.width, old(b.double), calls)
    ensures (forall i | 0 <= i < |calls| :: !calls[i].SetDouble?) ==> b.double == old(b.double)
  {
    assert calls[0..] == calls;
    for i := 0 to |calls|
      invariant b.Valid()
      invariant b.issued + CallsItems(b.page, b.width, b.double, calls[i..])
             == old(b.issued) + CallsItems(b.page, b.width, old(b.double), calls)
      invariant (forall j | 0 <= j < |calls| :: !calls[j].SetDouble?) ==> b.double == old(b.double)
    {
      hide Stream, Issued, PageOk, CallItems;
      ghost var before, double := b.issued, b.double;
      assert calls[i..][1..] == calls[i + 1..] && calls[i..][0] == calls[i];
      b.Perform(calls[i]);
      Regroup(before, CallItems(b.page, b.width, double, calls[i]), CallsItems(b.page, b.width, b.double, calls[i + 1..]));
    }
    assert calls[|calls|..] == [];
  }

  // Render: initialize, the marker of a reprint, the template's body, feed and cut.
  method Render(page: Page, pageNumber: Byte, width: int, body: seq<Call>, reprint: Option<nat>)
    returns (document: seq<Byte>)
    requires PageOk(page)
    ensures document == Stream(DocumentItems(page, pageNumber, EffectiveWidth(width), body, reprint))
    ensures Decode(document) == Some(DocumentItems(page, pageNumber, EffectiveWidth(width), body, reprint))
  {
    hide PageOk, CallsItems, Issued, Stream;
    var b := new Builder(page, pageNumber, width);
    b.Init();
    if reprint.Some? {
      RunCalls(b, MarkerCalls(reprint.value));
    }
    RunCalls(b, body);
    b.Put(Feed(FeedLines));
    b.CutPaper();
    document := b.Bytes();
    assert b.issued == DocumentItems(b.page, b.pageNumber, b.width, body, reprint);
  }

  // ---- what the calls mean ----

  // One line item for each wrapped line, with the code of each of its runes.
  lemma {:induction false} LineItemsExactly(page: Page, lines: seq<string>)
    ensures var items := LineItems(page, lines);
            && |items| == |lines|
            && forall i | 0 <= i < |lines| ::
                 && items[i].Line? && |items[i].bytes| == |lines[i]|
                 && forall j | 0 <= j < |lines[i]| :: IsCodeOf(page, lines[i][j], items[i].bytes[j])
  {
    if lines != [] {
      LineItemsExactly(page, lines[1..]);
    }
  }

  // The last switch of the size, if any, was to double size.
  ghost predicate Doubled(calls: seq<Call>) {
    exists i :: 0 <= i < |calls| && calls[i] == SetDouble(true) && forall j | i < j < |calls| :: !calls[j].SetDouble?
  }

  // The width of text: half of it, but at least one, in double size.
  ghost predicate IsTextWidth(w: nat, width: nat, double: bool) {
    w == if double && width >= 2 then width / 2 else if double then 1 else width
  }

  lemma DoubledAfter(calls: seq<Call>, c: Call)
    ensures Doubled(calls + [c]) <==> if c.SetDouble? then c.on else Doubled(calls)
  {
    var all := calls + [c];
    assert all[|calls|] == c && all[..|calls|] == calls;
    if Doubled(calls) {
      var i :| 0 <= i < |calls| && calls[i] == SetDouble(true) && forall j | i < j < |calls| :: !calls[j].SetDouble?;
      assert all[i] == SetDouble(true);
    }
    if Doubled(all) {
      var i :| 0 <= i < |all| && all[i] == SetDouble(true) && forall j | i < j < |all| :: !all[j].SetDouble?;
      assert i < |calls| ==> calls[i] == SetDouble(true) && forall j | i < j < |calls| :: !all[j].SetDouble?;
    }
  }

  lemma {:induction false} CallsItemsAppend(page: Page, width: nat, double: bool, calls: seq<Call>, c: Call)
    requires width >= 1
    ensures CallsItems(page, width, double, calls + [c])
         == CallsItems(page, width, double, calls) + CallItems(page, width, SizeAfter(double, calls), c)
    decreases |calls|
  {
    hide CallItems;
    if calls == [] {
      assert ([] + [c])[1..] == [] && CallsItems(page, width, if c.SetDouble? then c.on else double, []) == [];
      assert [] + [c] == [c];
    } else {
      var next := if calls[0].SetDouble? then calls[0].on else double;
      CallsItemsAppend(page, width, next, calls[1..], c);
      assert (calls + [c])[1..] == calls[1..] + [c] && (calls + [c])[0] == calls[0];
      Regroup(CallItems(page, width, double, calls[0]), CallsItems(page, width, next, calls[1..]),
              CallItems(page, width, SizeAfter(next, calls[1..]), c));
    }
  }

  function SizeAfter(double: bool, calls: seq<Call>): bool
    decreases |calls|
  {
    if calls == [] then double
    else SizeAfter(if calls[0].SetDouble? then calls[0].on else double, calls[1..])
  }

  lemma {:induction false} SizeAfterAppend(double: bool, calls: seq<Call>, c: Call)
    ensures SizeAfter(double, calls + [c]) == if c.SetDouble? then c.on else SizeAfter(double, calls)
    decreases |calls|
  {
    if calls == [] {
      assert [] + [c] == [c];
    } else {
      SizeAfterAppend(if calls[0].SetDouble? then calls[0].on else double, calls[1..], c);
      assert (calls + [c])[1..] == calls[1..] + [c] && (calls + [c])[0] == calls[0];
    }
  }

  lemma {:induction false} SizeIs(calls: seq<Call>)
    ensures SizeAfter(false, calls) == Doubled(calls)
  {
    if calls != [] {
      var n := |calls| - 1;
      SizeIs(calls[..n]);
      SizeAfterAppend(false, calls[..n], calls[n]);
      DoubledAfter(calls[..n], calls[n]);
      assert calls == calls[..n] + [calls[n]];
    }
  }

  // What one more call appends to a template's body, in bytes: its command, or its text wrapped to
  // the width that the last switch of the size left in force.
  lemma CallExactly(page: Page, width: nat, calls: seq<Call>, c: Call, w: nat)
    requires width >= 1 && IsTextWidth(w, width, Doubled(calls))
    ensures w >= 1
    ensures var before := Stream(CallsItems(page, width, false, calls));
            var after := Stream(CallsItems(page, width, false, calls + [c]));
            && (c.SetAlign? ==> after == before + [0x1B, 0x61, c.a])
            && (c.SetBold? ==> after == before + [0x1B, 0x45, if c.on then 1 else 0])
            && (c.SetDouble? ==> after == before + [0x1D, 0x21, if c.on then 0x30 else 0])
            && (c.PutText? ==> after == before + Stream(LineItems(page, WrapLines(c.s, w))))
            && (c.PutTextDouble? ==> after == before + Stream(LineItems(page, WrapLines(c.s, width / 2))))
            && (c.PutTwoColumns? ==> after == before + Stream(TwoColumnItems(page, c.left, c.right, w)))
            && (c.PutSeparator? ==> after == before + Stream(LineItems(page, WrapLines(seq(width, i => '-'), w))))
            && (c.PutPulse? ==> after == before + [0x1B, 0x70, 0, 60, 120])
  {
    hide Stream, WrapLines, CallsItems, TwoColumnItems, LineItems;
    SizeIs(calls);
    hide Doubled, SizeAfter;
    CallsItemsAppend(page, width, false, calls, c);
    var item := CallItems(page, width, Doubled(calls), c);
    StreamConcat(CallsItems(page, width, false, calls), item);
    if |item| == 1 {
      StreamOfOne(item[0]);
      assert item == [item[0]];
    }
  }

  lemma StreamOfOne(item: Item)
    ensures Stream([item]) == BytesOf(item)
  {
    hide BytesOf;
    assert Stream([item]) == BytesOf(item) + Stream([]);
  }

  // Text lines in bytes: each one followed by a line feed.
  lemma {:induction false} LinesExactly(page: Page, lines: seq<string>)
    ensures var all := Stream(LineItems(page, lines));
            if lines == [] then all == []
            else all == EncodeText(page, lines[0]) + [10] + Stream(LineItems(page, lines[1..]))
  {
    if lines != [] {
      var item := Line(EncodeText(page, lines[0]));
      StreamOfOne(item);
      hide Stream;
      StreamConcat([item], LineItems(page, lines[1..]));
    }
  }

  // A document in bytes: reset and code page, the marker centred and in bold if it is a reprint,
  // the body, four lines of feed and the cut.
  lemma DocumentExactly(page: Page, pageNumber: Byte, width: nat, body: seq<Call>, reprint: Option<nat>)
    requires width >= 1
    ensures var inside := Stream(CallsItems(page, width, false, body));
            var end := [0x1B, 0x64, 4, 0x1D, 0x56, 66, 3];
            var marker := if reprint == Some(0) || reprint == None then "*** REPRINT ***"
                          else "*** REPRINT - RUN " + Money.Decimal(reprint.value) + " ***";
            var marking := [0x1B, 0x61, 1, 0x1B, 0x45, 1] + Stream(LineItems(page, WrapLines(marker, width)))
                           + [0x1B, 0x45, 0, 0x1B, 0x61, 0];
            Stream(DocumentItems(page, pageNumber, width, body, reprint))
            == [0x1B, 0x40, 0x1B, 0x74, pageNumber] + (if reprint == None then [] else marking) + inside + end
  {
    hide Stream, CallsItems, WrapLines, LineItems, BytesOf;
    var start := [Initialize, SelectPage(pageNumber)];
    var bodyItems := CallsItems(page, width, false, body);
    var ending := [Feed(FeedLines), Cut];
    var inside, end: seq<Byte> := Stream(bodyItems), [0x1B, 0x64, 4, 0x1D, 0x56, 66, 3];
    StartIs(pageNumber);
    EndIs();
    match reprint {
      case None =>
        assert start + [] == start;
        StreamConcat(start + bodyItems, ending);
        StreamConcat(start, bodyItems);
        Regroup(Stream(start), inside, end);
      case Some(n) =>
        var marker := CallsItems(page, width, false, MarkerCalls(n));
        StreamConcat(start + marker + bodyItems, ending);
        StreamConcat(start + marker, bodyItems);
        StreamConcat(start, marker);
        MarkerIs(page, width, n);
        var bytes := Stream(marker);
        Regroup(Stream(start), bytes, inside);
        Regroup(Stream(start), bytes + inside, end);
    }
  }

  lemma EndIs()
    ensures Stream([Feed(FeedLines), Cut]) == [0x1B, 0x64, 4, 0x1D, 0x56, 66, 3]
  {
    assert [Feed(FeedLines), Cut] == [Feed(FeedLines)] + [Cut];
    StreamOfOne(Feed(FeedLines));
    StreamOfOne(Cut);
    hide Stream;
    StreamConcat([Feed(FeedLines)], [Cut]);
  }

  lemma MarkerIs(page: Page, width: nat, n: nat)
    requires width >= 1
    ensures var marker := if n == 0 then "*** REPRINT ***" else "*** REPRINT - RUN " + Money.Decimal(n) + " ***";
            Stream(CallsItems(page, width, false, MarkerCalls(n)))
            == [0x1B, 0x61, 1, 0x1B, 0x45, 1] + Stream(LineItems(page, WrapLines(marker, width)))
             + [0x1B, 0x45, 0, 0x1B, 0x61, 0]
  {
    hide Stream, WrapLines, LineItems;
    var text := LineItems(page, WrapLines(Marker(n), width));
    var before, after := [Align(1), Emphasize(1)], [Emphasize(0), Align(0)];
    CallsOneByOne(page, width, MarkerCalls(n));
    assert CallsItems(page, width, false, MarkerCalls(n)) == before + text + after;
    StreamConcat(before + text, after);
    StreamConcat(before, text);
    StreamOfTwo(before[0], before[1]);
    StreamOfTwo(after[0], after[1]);
  }

  lemma StreamOfTwo(a: Item, b: Item)
    ensures Stream([a, b]) == BytesOf(a) + BytesOf(b)
  {
    hide BytesOf;
    assert [a, b] == [a] + [b];
    StreamOfOne(a);
    StreamOfOne(b);
    hide Stream;
    StreamConcat([a], [b]);
  }

  lemma CallsCons(page: Page, width: nat, calls: seq<Call>)
    requires width >= 1 && calls != [] && !calls[0].SetDouble?
    ensures CallsItems(page, width, false, calls)
         == CallItems(page, width, false, calls[0]) + CallsItems(page, width, false, calls[1..])
    ensures CallsItems(page, width, false, []) == []
  {
  }

  lemma CallsOneByOne(page: Page, width: nat, calls: seq<Call>)
    requires width >= 1 && |calls| == 5 && forall i | 0 <= i < 5 :: !calls[i].SetDouble?
    ensures CallsItems(page, width, false, calls)
         == CallItems(page, width, false, calls[0]) + CallItems(page, width, false, calls[1])
          + CallItems(page, width, false, calls[2]) + CallItems(page, width, false, calls[3])
          + CallItems(page, width, false, calls[4])
  {
    hide CallItems, CallsItems;
    assert calls[1..] == [calls[1]] + calls[2..] && calls[2..] == [calls[2]] + calls[3..];
    assert calls[3..] == [calls[3]] + calls[4..] && calls[4..] == [calls[4]] + [];
    CallsCons(page, width, calls);
    CallsCons(page, width, calls[1..]);
    CallsCons(page, width, calls[2..]);
    CallsCons(page, width, calls[3..]);
    CallsCons(page, width, calls[4..]);
  }

  // A reprint is the normal document with the marker lines inserted after the initialization and
  // not a byte changed elsewhere.
  lemma ReprintIsMarkedNormal(page: Page, pageNumber: Byte, width: nat, body: seq<Call>, runNumber: nat)
    requires width >= 1
    ensures var normal := Stream(DocumentItems(page, pageNumber, width, body, None));
            var marked := Stream(DocumentItems(page, pageNumber, width, body, Some(runNumber)));
            var marker := Stream(CallsItems(page, width, false, MarkerCalls(runNumber)));
            && |marker| > 0 && |normal| >= 5 && marked == normal[..5] + marker + normal[5..]
  {
    hide Stream, CallsItems;
    var start := [Initialize, SelectPage(pageNumber)];
    var marker := CallsItems(page, width, false, MarkerCalls(runNumber));
    var rest := CallsItems(page, width, false, body) + [Feed(FeedLines), Cut];
    MarkerStarts(page, width, runNumber);
    StartIs(pageNumber);
    Inserted(start, marker, rest);
    assert DocumentItems(page, pageNumber, width, body, None) == start + rest by {
      assert start + [] == start;
      Regroup(start, CallsItems(page, width, false, body), [Feed(FeedLines), Cut]);
    }
    assert DocumentItems(page, pageNumber, width, body, Some(runNumber)) == start + (marker + rest) by {
      Regroup(start + marker, CallsItems(page, width, false, body), [Feed(FeedLines), Cut]);
      Regroup(start, marker, rest);
    }
  }

  lemma Inserted(start: seq<Item>, marker: seq<Item>, rest: seq<Item>)
    ensures var whole := Stream(start + rest);
            var n := |Stream(start)|;
            n <= |whole| && Stream(start + (marker + rest)) == whole[..n] + Stream(marker) + whole[n..]
  {
    hide Stream;
    StreamConcat(start, rest);
    StreamConcat(start, marker + rest);
    StreamConcat(marker, rest);
    Regroup(Stream(start), Stream(marker), Stream(rest));
    Split(Stream(start), Stream(rest));
  }

  lemma Split(a: seq<Byte>, b: seq<Byte>)
    ensures (a + b)[..|a|] == a && (a + b)[|a|..] == b
  {
  }

  lemma StartIs(pageNumber: Byte)
    ensures Stream([Initialize, SelectPage(pageNumber)]) == [ESC, 0x40, ESC, 0x74, pageNumber]
  {
    assert [Initialize, SelectPage(pageNumber)][1..] == [SelectPage(pageNumber)];
    assert Stream([SelectPage(pageNumber)]) == BytesOf(SelectPage(pageNumber)) + Stream([]);
  }

  lemma MarkerStarts(page: Page, width: nat, runNumber: nat)
    requires width >= 1
    ensures |Stream(CallsItems(page, width, false, MarkerCalls(runNumber)))| > 0
  {
    var items := CallsItems(page, width, false, MarkerCalls(runNumber));
    assert items[0] == Align(1);
  }
}
