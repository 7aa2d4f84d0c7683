/** The text that the coordinator sends, and that the client reads back exactly the events that
    were sent, in order, under any chunking and with keep-alives anywhere between them. */
module SsePrinter {
  import opened Prelude
  import opened Decimal
  import opened SseBlocks
  import opened Sse
  import opened SseParser

  datatype Item = Message(seqNo: nat, name: string, payload: string) | KeepAlive

  /** JSON text and event names have no line ends. */
  predicate IsOneLine(text: string) {
    forall i | 0 <= i < |text| :: text[i] != '\n' && text[i] != '\r'
  }

  predicate IsPrintable(item: Item) {
    item.Message? ==> IsOneLine(item.name) && IsOneLine(item.payload)
  }

  function Line(field: string, value: string): string {
    field + ": " + value
  }

  function Block(item: Item): string {
    match item
    case KeepAlive => ": keep-alive"
    case Message(seqNo, name, payload) =>
      Line("id", Print(seqNo)) + "\n" + (Line("event", name) + "\n" + Line("data", payload))
  }

  function PrintItem(item: Item): string {
    Block(item) + "\n\n"
  }

  function PrintStream(items: seq<Item>): string {
    if items == [] then "" else PrintItem(items[0]) + PrintStream(items[1..])
  }

  function EventOfItem(item: Item): seq<SseEvent> {
    match item
    case KeepAlive => []
    case Message(seqNo, name, payload) => [SseEvent(name, payload, Some(Print(seqNo)), None)]
  }

  function SentEvents(items: seq<Item>): seq<SseEvent> {
    if items == [] then [] else EventOfItem(items[0]) + SentEvents(items[1..])
  }

  // ---- Where a printed block ends ----

  /** No carriage return, no empty line, and no line end at either end. */
  ghost predicate IsCalm(text: string) {
    && text != "" && text[0] != '\n' && text[|text| - 1] != '\n'
    && (forall i | 0 <= i < |text| :: text[i] != '\r')
    && (forall i, j | 0 <= i < j < |text| && j == i + 1 :: !(text[i] == '\n' && text[j] == '\n'))
  }

  lemma CalmLine(text: string)
    requires IsOneLine(text) && text != ""
    ensures IsCalm(text)
  {
  }

  lemma CalmJoin(a: string, b: string)
    requires IsCalm(a) && IsCalm(b)
    ensures IsCalm(a + "\n" + b)
  {
    var text := a + "\n" + b;
    assert text == a + ("\n" + b);
    forall i, j | 0 <= i < j < |text| && j == i + 1 ensures !(text[i] == '\n' && text[j] == '\n') {
      if j < |a| {
        assert text[i] == a[i] && text[j] == a[j];
      } else if i > |a| {
        assert text[i] == b[i - |a| - 1] && text[j] == b[j - |a| - 1];
      }
    }
  }

  lemma {:induction false} SkipsTo(text: string, from: nat, to: nat)
    requires from <= to < |text| && BoundaryAt(text, to) > 0
    requires forall i | from <= i < to :: BoundaryAt(text, i) == 0
    ensures Find(text, from) == Some(to)
    decreases |text| - from
  {
    if from < to {
      SkipsTo(text, from + 1, to);
    }
  }

  lemma CalmBlockEndsAtBoundary(block: string, more: string)
    requires IsCalm(block)
    ensures Find(block + "\n\n" + more, 0) == Some(|block|)
    ensures AfterBoundary(block + "\n\n" + more, |block|) == more
    ensures (block + "\n\n" + more)[..|block|] == block
  {
    var text := block + "\n\n" + more;
    assert text[|block|] == '\n' && text[|block| + 1] == '\n';
    forall i | 0 <= i < |block| ensures BoundaryAt(text, i) == 0 {
      assert text[i] == block[i];
      assert i + 1 < |block| ==> text[i + 1] == block[i + 1];
    }
    SkipsTo(text, 0, |block|);
  }

  lemma OneLineJoin(a: string, b: string)
    requires IsOneLine(a) && IsOneLine(b)
    ensures IsOneLine(a + b)
  {
  }

  lemma DigitsAreOneLine(text: string)
    requires AllDigits(text)
    ensures IsOneLine(text) && '\0' !in text && ':' !in text
  {
  }

  lemma BlockIsCalm(item: Item)
    requires IsPrintable(item)
    ensures IsCalm(Block(item))
  {
    match item
    case KeepAlive => CalmLine(Block(item));
    case Message(seqNo, name, payload) =>
      DigitsAreOneLine(Print(seqNo));
      OneLineJoin("id: ", Print(seqNo));
      OneLineJoin("event: ", name);
      OneLineJoin("data: ", payload);
      assert Line("id", Print(seqNo)) == "id: " + Print(seqNo);
      assert Line("event", name) == "event: " + name;
      assert Line("data", payload) == "data: " + payload;
      CalmJoin(Line("event", name), Line("data", payload));
      CalmJoin(Line("id", Print(seqNo)), Line("event", name) + "\n" + Line("data", payload));
  }

  // ---- Reading a printed block ----

  lemma NothingToReplace(text: string)
    requires forall i | 0 <= i < |text| :: text[i] != '\r'
    ensures Normalize(text) == text
  {
    CrLfAbsent(text);
    CrAbsent(text);
  }

  lemma {:induction false} CrLfAbsent(text: string)
    requires forall i | 0 <= i < |text| :: text[i] != '\r'
    ensures ReplaceCrLf(text) == text
  {
    if text != "" {
      CrLfAbsent(text[1..]);
    }
  }

  lemma {:induction false} CrAbsent(text: string)
    requires forall i | 0 <= i < |text| :: text[i] != '\r'
    ensures ReplaceCr(text) == text
  {
    if text != "" {
      CrAbsent(text[1..]);
    }
  }

  lemma IndexAfter(before: string, c: char, after: string)
    requires c !in before
    ensures IndexOf(before + [c] + after, c) == |before|
  {
    var text := before + [c] + after;
    var n := IndexOf(text, c);
    assert text[|before|] == c;
    assert forall i | 0 <= i < |before| :: text[i] == before[i] != c;
  }

  lemma IndexNowhere(text: string, c: char)
    requires c !in text
    ensures IndexOf(text, c) == |text|
  {
  }

  lemma LinesOfJoin(line: string, rest: string)
    requires '\n' !in line
    ensures Lines(line + "\n" + rest) == [line] + Lines(rest)
  {
    var text := line + "\n" + rest;
    assert text == line + ['\n'] + rest;
    IndexAfter(line, '\n', rest);
    assert text[..|line|] == line && text[|line| + 1..] == rest;
  }

  lemma LinesOfLine(line: string)
    requires '\n' !in line
    ensures Lines(line) == [line]
  {
    IndexNowhere(line, '\n');
  }

  lemma LineParts(field: string, value: string)
    requires ':' !in field
    ensures LineField(Line(field, value)) == field && LineValue(Line(field, value)) == value
  {
    var line := Line(field, value);
    assert line == field + [':'] + (" " + value);
    IndexAfter(field, ':', " " + value);
    assert line[..|field|] == field;
    assert line[|field| + 1] == ' ' && line[|field| + 2..] == value;
  }

  lemma MessageLines(seqNo: nat, name: string, payload: string)
    requires IsOneLine(name) && IsOneLine(payload)
    ensures Lines(Block(Message(seqNo, name, payload)))
         == [Line("id", Print(seqNo)), Line("event", name), Line("data", payload)]
  {
    var a, b, c := Line("id", Print(seqNo)), Line("event", name), Line("data", payload);
    DigitsAreOneLine(Print(seqNo));
    assert '\n' !in a && '\n' !in b && '\n' !in c;
    LinesOfJoin(a, b + "\n" + c);
    LinesOfJoin(b, c);
    LinesOfLine(c);
    assert [a] + ([b] + [c]) == [a, b, c];
  }

  lemma MessageFields(seqNo: nat, name: string, payload: string)
    ensures FieldsOf([Line("id", Print(seqNo)), Line("event", name), Line("data", payload)])
         == Fields(name, Some(Print(seqNo)), None, [payload])
  {
    var a, b, c := Line("id", Print(seqNo)), Line("event", name), Line("data", payload);
    DigitsAreOneLine(Print(seqNo));
    LineParts("id", Print(seqNo));
    LineParts("event", name);
    LineParts("data", payload);
    assert [a, b, c][..2] == [a, b] && [a, b][..1] == [a] && [a][..0] == [];
    assert FieldsOf([]) == NoFields;
    assert FieldsOf([a]) == NoFields.(id := Some(Print(seqNo)));
    assert FieldsOf([a, b]) == FieldsOf([a]).(event := name);
    assert [] + [payload] == [payload];
  }

  lemma CommentIsNothing(line: string)
    requires line != "" && line[0] == ':' && '\n' !in line
    ensures BlockEvent(line) == None
  {
    LinesOfLine(line);
    assert [line][..0] == [] && FieldsOf([]) == NoFields;
    assert WithLine(NoFields, line) == NoFields;
    assert FieldsOf([line]) == NoFields;
  }

  lemma BlockReadsBack(item: Item)
    requires IsPrintable(item)
    ensures ReadBlock(Block(item)) == EventOfItem(item)
  {
    BlockIsCalm(item);
    NothingToReplace(Block(item));
    match item
    case KeepAlive => CommentIsNothing(Block(item));
    case Message(seqNo, name, payload) =>
      MessageLines(seqNo, name, payload);
      MessageFields(seqNo, name, payload);
  }

  // ---- Reading a printed stream ----

  function Blocks(items: seq<Item>): seq<string> {
    if items == [] then [] else [Block(items[0])] + Blocks(items[1..])
  }

  lemma {:induction false} StreamSplits(items: seq<Item>)
    requires forall item | item in items :: IsPrintable(item)
    ensures SplitBlocks(PrintStream(items)) == Split(Blocks(items), "")
  {
    if items != [] {
      var block, more := Block(items[0]), PrintStream(items[1..]);
      BlockIsCalm(items[0]);
      CalmBlockEndsAtBoundary(block, more);
      SplitAtFirst(block + "\n\n" + more, |block|);
      StreamSplits(items[1..]);
    }
  }

  lemma {:induction false} BlocksReadBack(items: seq<Item>)
    requires forall item | item in items :: IsPrintable(item)
    ensures ReadAll(Blocks(items), ReadBlock) == SentEvents(items)
  {
    if items != [] {
      BlocksReadBack(items[1..]);
      BlockReadsBack(items[0]);
      ReadFirst(Block(items[0]), Blocks(items[1..]), ReadBlock);
    }
  }

  /** For every list of events with keep-alives among them and every way of cutting the text into
      pieces, the parser yields exactly the id, event and data that were printed. */
  lemma StreamRoundTrip(items: seq<Item>, pieces: seq<string>)
    requires forall item | item in items :: IsPrintable(item)
    requires pieces != [] && Concat(pieces) == PrintStream(items)
    ensures EventsIn(Heard(pieces)) == SentEvents(items)
  {
    StreamSplits(items);
    BlocksReadBack(items);
    if items != [] {
      BlockIsCalm(items[0]);
      FirstChar(items);
    }
    OneMarkNeverMatters(pieces);
    assert ReadAll(Blocks(items), ReadBlock) + [] == ReadAll(Blocks(items), ReadBlock);
  }

  lemma FirstChar(items: seq<Item>)
    requires items != []
    ensures PrintStream(items) != "" && PrintStream(items)[0] != Bom
  {
    var block := Block(items[0]);
    match items[0]
    case KeepAlive => assert block[0] == ':';
    case Message(seqNo, name, payload) => assert Line("id", Print(seqNo))[0] == 'i';
  }

  // ---- Two byte order marks ----

  lemma OneBlock(block: string)
    requires IsCalm(block)
    ensures EventsIn(block + "\n\n") == AsSeq(BlockEvent(block))
  {
    CalmBlockEndsAtBoundary(block, "");
    assert block + "\n\n" + "" == block + "\n\n";
    SplitAtFirst(block + "\n\n", |block|);
    assert SplitBlocks("") == Split([], "");
    ReadFirst(block, [], ReadBlock);
    NothingToReplace(block);
  }

  lemma DataLine(value: string)
    requires IsOneLine(value)
    ensures BlockEvent(Line("data", value)) == Some(SseEvent("message", value, None, None))
  {
    var line := Line("data", value);
    LineParts("data", value);
    OneLineJoin("data: ", value);
    assert line == "data: " + value;
    LinesOfLine(line);
    assert [line][..0] == [] && FieldsOf([]) == NoFields;
    assert FieldsOf([line]) == WithLine(NoFields, line);
    assert [] + [value] == [value];
  }

  lemma MarkedLine(value: string)
    requires IsOneLine(value)
    ensures BlockEvent([Bom] + Line("data", value)) == None
  {
    var field := [Bom] + "data";
    var line := [Bom] + Line("data", value);
    assert line == Line(field, value) == (field + ": ") + value;
    LineParts(field, value);
    OneLineJoin(field + ": ", value);
    LinesOfLine(line);
    assert field[0] == Bom;
    assert [line][..0] == [] && FieldsOf([]) == NoFields;
    assert WithLine(NoFields, line) == NoFields;
    assert FieldsOf([line]) == NoFields;
  }

  lemma HeardWhole(text: string)
    requires BeginsWithBom(text) && BeginsWithBom(text[1..])
    ensures Heard([text]) == text[2..]
  {
    assert [text][..0] == [];
    assert Concat([text]) == text;
    OnlyTheTextMatters([text]);
    assert text[1..][1..] == text[2..];
    assert StripBom(text) == text[1..] && StripBom(text[1..]) == text[2..];
  }

  lemma HeardCut(text: string)
    requires BeginsWithBom(text) && BeginsWithBom(text[1..])
    ensures Heard(["", text]) == text[1..]
  {
    DecodedIsTheText(["", text]);
    FirstDecoded(["", text]);
    PiecesMatterOnlyIfFirstIsEmpty(Decoded(["", text]));
    assert ["", text][..1] == [""] && [""][..0] == [];
    assert Concat(["", text]) == text;
  }

  /** The same bytes, delivered at once or cut behind the first one, EF | BB BF EF BB BF and so on:
      cut, the event behind two byte order marks is lost. */
  lemma TwoMarksCanHideAnEvent(value: string)
    requires IsOneLine(value)
    ensures var text := [Bom, Bom] + Line("data", value) + "\n\n";
            && EventsIn(Heard([text])) == [SseEvent("message", value, None, None)]
            && EventsIn(Heard(["", text])) == []
  {
    var line := Line("data", value);
    var marked := [Bom] + line;
    var text := [Bom, Bom] + line + "\n\n";
    assert text[1..] == marked + "\n\n" && text[2..] == line + "\n\n";
    HeardWhole(text);
    HeardCut(text);
    OneLineJoin("data: ", value);
    assert line == "data: " + value;
    CalmLine(line);
    CalmLine(marked);
    OneBlock(line);
    OneBlock(marked);
    DataLine(value);
    MarkedLine(value);
  }
}
