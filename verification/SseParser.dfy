/** The client's parser as it runs, on text that arrives in pieces. */
module SseParser {
  import opened Prelude
  import opened Decimal
  import opened SseBlocks
  import opened Sse

  // ---- Decoding ----

  /** The decoder of a stream takes a byte order mark off its beginning, in whichever chunk that
      is. A chunk is the text that its bytes complete, so it may be empty. */
  class TextDecoder {
    var begun: bool

    constructor ()
      ensures !begun
    {
      begun := false;
    }

    method Decode(chunk: string) returns (piece: string)
      modifies this
      ensures begun <==> old(begun) || chunk != ""
      ensures piece == if old(begun) then chunk else StripBom(chunk)
    {
      piece := if begun then chunk else StripBom(chunk);
      begun := begun || chunk != "";
    }
  }

  /** The pieces that the decoder makes of the chunks. */
  function Decoded(chunks: seq<string>): (pieces: seq<string>)
    ensures |pieces| == |chunks|
  {
    if chunks == [] then []
    else
      var before, last := chunks[..|chunks| - 1], chunks[|chunks| - 1];
      Decoded(before) + [if Concat(before) == "" then StripBom(last) else last]
  }

  /** The text the parser works on: a byte order mark goes if the first piece begins with it. */
  function Received(pieces: seq<string>): string {
    if pieces == [] then ""
    else if |pieces| == 1 then StripBom(pieces[0])
    else Received(pieces[..|pieces| - 1]) + pieces[|pieces| - 1]
  }

  /** What the parser reads in the chunks of a stream. */
  function Heard(chunks: seq<string>): string {
    Received(Decoded(chunks))
  }

  /** Reads the chunks until the last, which comes with the end of the stream, and yields the
      events of the whole text, wherever it was cut. */
  method ParseSse(chunks: seq<string>) returns (events: seq<SseEvent>)
    requires chunks != []
    ensures events == EventsIn(Heard(chunks))
  {
    var decoder := new TextDecoder();
    ghost var text := "";
    var buffer := "";
    var firstChunk := true;
    events := [];
    NothingIsRead();
    for i := 0 to |chunks|
      invariant firstChunk <==> i == 0
      invariant text == Heard(chunks[..i]) && (decoder.begun <==> Concat(chunks[..i]) != "")
      invariant IsRead(text, events, buffer) && (firstChunk ==> text == buffer == "")
    {
      var piece := decoder.Decode(chunks[i]);
      OneChunkMore(chunks, i, piece);
      ghost var before := buffer;
      buffer := buffer + piece;
      if firstChunk {
        buffer := StripBom(buffer);
      }
      ghost var added := if firstChunk then StripBom(piece) else piece;
      assert buffer == before + added;
      firstChunk := false;
      ReadOn(text, added, events, before);
      text := text + added;
      var more, rest := YieldBlocks(buffer);
      events := events + more;
      buffer := rest;
    }
    assert chunks[..|chunks|] == chunks;
    if !IsBlank(buffer) {
      var last := ReadOne(buffer);
      events := events + last;
    }
  }

  /** The events of the complete blocks of the text were yielded and the rest is in the buffer. */
  predicate IsRead(text: string, events: seq<SseEvent>, buffer: string) {
    buffer == SplitBlocks(text).rest && events == ReadAll(SplitBlocks(text).blocks, ReadBlock)
  }

  lemma NothingIsRead()
    ensures IsRead("", [], "")
  {
  }

  lemma OneChunkMore(chunks: seq<string>, i: nat, piece: string)
    requires i < |chunks|
    requires piece == if Concat(chunks[..i]) == "" then StripBom(chunks[i]) else chunks[i]
    ensures Heard(chunks[..i + 1]) == if i == 0 then StripBom(piece) else Heard(chunks[..i]) + piece
    ensures Concat(chunks[..i + 1]) == Concat(chunks[..i]) + chunks[i]
  {
    assert chunks[..i + 1] == chunks[..i] + [chunks[i]];
    ConcatOneMore(chunks[..i], chunks[i]);
    assert (chunks[..i] + [chunks[i]])[..i] == chunks[..i];
    assert Decoded(chunks[..i + 1]) == Decoded(chunks[..i]) + [piece];
    OnePieceMore(Decoded(chunks[..i]), piece);
  }

  lemma OnePieceMore(pieces: seq<string>, piece: string)
    ensures Received(pieces + [piece]) == if pieces == [] then StripBom(piece) else Received(pieces) + piece
  {
    assert (pieces + [piece])[..|pieces|] == pieces;
  }

  lemma ReadOn(text: string, piece: string, events: seq<SseEvent>, buffer: string)
    requires IsRead(text, events, buffer)
    ensures var rest := SplitBlocks(buffer + piece);
            IsRead(text + piece, events + ReadAll(rest.blocks, ReadBlock), rest.rest)
  {
    SplitInPieces(text, piece);
    ReadBoth(SplitBlocks(text).blocks, SplitBlocks(buffer + piece).blocks, ReadBlock);
  }

  /** Takes complete blocks off the buffer. */
  method YieldBlocks(text: string) returns (events: seq<SseEvent>, buffer: string)
    ensures events == ReadAll(SplitBlocks(text).blocks, ReadBlock) && buffer == SplitBlocks(text).rest
  {
    events, buffer := [], text;
    ghost var whole := SplitBlocks(text);
    ghost var taken := [];
    var boundary := Find(buffer, 0);
    while boundary.Some?
      invariant boundary == Find(buffer, 0)
      invariant events == ReadAll(taken, ReadBlock)
      invariant Continues(whole, Split(taken, ""), SplitBlocks(buffer))
      decreases |buffer|
    {
      var index := boundary.value;
      TakeOne(whole, taken, buffer, index);
      ReadOneMore(taken, buffer[..index], ReadBlock);
      taken := taken + [buffer[..index]];
      var event := ReadOne(buffer[..index]);
      events := events + event;
      buffer := AfterBoundary(buffer, index);
      boundary := Find(buffer, 0);
    }
    assert SplitBlocks(buffer) == Split([], buffer);
    assert whole.blocks == taken;
  }

  method ReadOne(block: string) returns (events: seq<SseEvent>)
    ensures events == ReadBlock(block)
  {
    var event := ParseSseBlock(Normalize(block));
    events := AsSeq(event);
  }

  /** Reads the lines of a block into the four fields of an event. */
  method ParseSseBlock(block: string) returns (result: Option<SseEvent>)
    ensures result == BlockEvent(block)
  {
    var event := "message";
    var id: Option<string> := None;
    var retry: Option<nat> := None;
    var data: seq<string> := [];
    var lines := Lines(block);
    for i := 0 to |lines|
      invariant Fields(event, id, retry, data) == FieldsOf(lines[..i])
    {
      var line := lines[i];
      assert lines[..i + 1][..i] == lines[..i];
      if line == "" || line[0] == ':' {
        continue;
      }
      var field, value := LineField(line), LineValue(line);
      if field == "event" {
        event := value;
      } else if field == "data" {
        data := data + [value];
      } else if field == "id" && '\0' !in value {
        id := Some(value);
      } else if field == "retry" && value != "" && AllDigits(value) {
        retry := Some(Parse(value));
      }
    }
    assert lines[..|lines|] == lines;
    result := if data == [] then None else Some(SseEvent(event, Join(data), id, retry));
  }

  // ---- Cutting makes no difference ----

  lemma {:induction false} ReceivedIsTheText(pieces: seq<string>)
    requires pieces != []
    ensures Received(pieces) == StripBom(pieces[0]) + Concat(pieces[1..])
    ensures Concat(pieces) == pieces[0] + Concat(pieces[1..])
  {
    if |pieces| == 1 {
      assert pieces[..0] == [] && pieces[1..] == [];
    } else {
      var last := |pieces| - 1;
      var front, tail := pieces[..last], pieces[1..];
      ReceivedIsTheText(front);
      assert tail[..last - 1] == front[1..] && tail[last - 1] == pieces[last];
      assert Concat(tail) == Concat(front[1..]) + pieces[last];
      assert Concat(pieces) == Concat(front) + pieces[last];
      assert Received(pieces) == Received(front) + pieces[last];
    }
  }

  predicate BeginsWithBom(text: string) {
    text != "" && text[0] == Bom
  }

  /** The parser's own removal of a mark depends on the first piece being there. */
  lemma PiecesMatterOnlyIfFirstIsEmpty(pieces: seq<string>)
    requires pieces != []
    ensures Received(pieces) == StripBom(Concat(pieces)) <==> !(pieces[0] == "" && BeginsWithBom(Concat(pieces)))
    ensures pieces[0] == "" ==> Received(pieces) == Concat(pieces)
  {
    ReceivedIsTheText(pieces);
    BomAtTheFront(pieces[0], Concat(pieces[1..]));
  }

  lemma ConcatOneMore(pieces: seq<string>, piece: string)
    ensures Concat(pieces + [piece]) == Concat(pieces) + piece
  {
    assert (pieces + [piece])[..|pieces|] == pieces;
  }

  lemma {:induction false} DecodedIsTheText(chunks: seq<string>)
    ensures Concat(Decoded(chunks)) == StripBom(Concat(chunks))
    decreases |chunks|
  {
    if chunks != [] {
      var before, last := chunks[..|chunks| - 1], chunks[|chunks| - 1];
      DecodedIsTheText(before);
      ConcatOneMore(Decoded(before), if Concat(before) == "" then StripBom(last) else last);
      BomAtTheFront(Concat(before), last);
    }
  }

  lemma {:induction false} FirstDecoded(chunks: seq<string>)
    requires chunks != []
    ensures Decoded(chunks)[0] == StripBom(chunks[0])
    decreases |chunks|
  {
    if |chunks| > 1 {
      FirstDecoded(chunks[..|chunks| - 1]);
    } else {
      assert Concat(chunks[..0]) == "";
    }
  }

  /** A text that begins with at most one byte order mark is heard without it, however it is cut. */
  lemma OneMarkNeverMatters(chunks: seq<string>)
    requires chunks != [] && !BeginsWithBom(StripBom(Concat(chunks)))
    ensures Heard(chunks) == StripBom(Concat(chunks))
  {
    DecodedIsTheText(chunks);
    FirstDecoded(chunks);
    PiecesMatterOnlyIfFirstIsEmpty(Decoded(chunks));
  }

  /** The events depend on the chunks only through the text they add up to, with one exception: of
      two byte order marks at the beginning the decoder takes off the first, and the parser takes
      off the second exactly if the first decoded piece is not empty. */
  lemma OnlyTheTextMatters(chunks: seq<string>)
    requires chunks != []
    ensures Heard(chunks) == StripBom(StripBom(Concat(chunks)))
       <==> !(StripBom(chunks[0]) == "" && BeginsWithBom(StripBom(Concat(chunks))))
  {
    DecodedIsTheText(chunks);
    FirstDecoded(chunks);
    PiecesMatterOnlyIfFirstIsEmpty(Decoded(chunks));
  }

  lemma BomAtTheFront(first: string, rest: string)
    ensures StripBom(first) + rest == StripBom(first + rest)
       <==> !(first == "" && rest != "" && rest[0] == Bom)
  {
    if first != "" {
      assert (first + rest)[1..] == first[1..] + rest;
    } else if rest != "" && rest[0] == Bom {
      assert |rest[1..]| != |first + rest|;
    } else {
      assert first + rest == rest;
    }
  }
}
