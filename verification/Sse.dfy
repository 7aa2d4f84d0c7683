/** Event streams in the format of section 9.2.5 of the WHATWG HTML standard: how the client cuts
    a text into blocks, and that this does not depend on how the text arrives. */
module SseBlocks {
  import opened Prelude

  function Concat(pieces: seq<string>): string {
    if pieces == [] then "" else Concat(pieces[..|pieces| - 1]) + pieces[|pieces| - 1]
  }

  /** The length of a block boundary that begins at `i`, or 0. */
  function BoundaryAt(text: string, i: nat): nat {
    if i + 2 > |text| then 0
    else if text[i] == '\r' && text[i + 1] == '\n'
    then if i + 4 <= |text| && text[i + 2] == '\r' && text[i + 3] == '\n' then 4 else 0
    else if text[i] == text[i + 1] && (text[i] == '\n' || text[i] == '\r') then 2
    else 0
  }

  /** The first boundary at `from` or later. */
  function Find(text: string, from: nat): (index: Option<nat>)
    requires from <= |text|
    ensures index.Some? ==>
              && from <= index.value < |text| && BoundaryAt(text, index.value) > 0
              && index.value + BoundaryAt(text, index.value) <= |text|
    decreases |text| - from
  {
    if from == |text| then None
    else if BoundaryAt(text, from) > 0 then Some(from)
    else Find(text, from + 1)
  }

  function AfterBoundary(text: string, i: nat): string
    requires i + BoundaryAt(text, i) <= |text|
  {
    text[i + BoundaryAt(text, i)..]
  }

  datatype Split = Split(blocks: seq<string>, rest: string)

  /** The complete blocks of a text and what follows the last boundary. */
  function SplitBlocks(text: string): Split
    decreases |text|
  {
    var index := Find(text, 0);
    if index.None? then Split([], text)
    else
      var later := SplitBlocks(AfterBoundary(text, index.value));
      Split([text[..index.value]] + later.blocks, later.rest)
  }

  /** What reading each block gives. */
  function ReadAll<E>(blocks: seq<string>, read: string -> seq<E>): seq<E> {
    if blocks == [] then []
    else ReadAll(blocks[..|blocks| - 1], read) + read(blocks[|blocks| - 1])
  }

  // ---- A boundary that was found stays where it is ----

  /** No boundary before `i` can come up when a text grows that has a boundary at `i`. */
  lemma NoEarlierBoundary(a: string, b: string, j: nat, i: nat)
    requires j < i && BoundaryAt(a, i) > 0 && BoundaryAt(a, j) == 0
    ensures BoundaryAt(a + b, j) == 0
  {
  }

  lemma {:induction false} FindStays(a: string, b: string, from: nat)
    requires from <= |a| && Find(a, from).Some?
    ensures Find(a + b, from) == Find(a, from)
    decreases |a| - from
  {
    if BoundaryAt(a, from) == 0 {
      NoEarlierBoundary(a, b, from, Find(a, from + 1).value);
      FindStays(a, b, from + 1);
    }
  }

  lemma SplitAtFirst(text: string, i: nat)
    requires Find(text, 0) == Some(i)
    ensures var later := SplitBlocks(AfterBoundary(text, i));
            SplitBlocks(text) == Split([text[..i]] + later.blocks, later.rest)
  {
  }

  lemma FirstStays(a: string, b: string, i: nat)
    requires Find(a, 0) == Some(i)
    ensures Find(a + b, 0) == Some(i)
    ensures (a + b)[..i] == a[..i] && AfterBoundary(a + b, i) == AfterBoundary(a, i) + b
  {
    FindStays(a, b, 0);
    assert BoundaryAt(a + b, i) == BoundaryAt(a, i);
  }

  /** `whole` is split into what `first` and then `second` are split into. */
  predicate Continues(whole: Split, first: Split, second: Split) {
    whole.blocks == first.blocks + second.blocks && whole.rest == second.rest
  }

  lemma OneMoreBlock(block: string, whole: Split, first: Split, second: Split)
    requires Continues(whole, first, second)
    ensures Continues(Split([block] + whole.blocks, whole.rest), Split([block] + first.blocks, first.rest), second)
  {
  }

  /** Splitting what has arrived and then the rest together with what comes next is splitting
      the whole: the blocks of a text do not depend on how it is cut. */
  lemma {:induction false} SplitInPieces(a: string, b: string)
    ensures Continues(SplitBlocks(a + b), SplitBlocks(a), SplitBlocks(SplitBlocks(a).rest + b))
    decreases |a|
  {
    var index := Find(a, 0);
    if index.None? {
      assert SplitBlocks(a) == Split([], a);
    } else {
      var i := index.value;
      var later := AfterBoundary(a, i);
      FirstStays(a, b, i);
      SplitInPieces(later, b);
      var first, whole := SplitBlocks(later), SplitBlocks(later + b);
      OneMoreBlock(a[..i], whole, first, SplitBlocks(first.rest + b));
      SplitAtFirst(a, i);
      SplitAtFirst(a + b, i);
    }
  }

  lemma ReadOneMore<E>(blocks: seq<string>, block: string, read: string -> seq<E>)
    ensures ReadAll(blocks + [block], read) == ReadAll(blocks, read) + read(block)
  {
    assert (blocks + [block])[..|blocks|] == blocks;
  }

  /** Taking the first block off the rest of a text. */
  lemma TakeOne(whole: Split, taken: seq<string>, rest: string, i: nat)
    requires Continues(whole, Split(taken, ""), SplitBlocks(rest)) && Find(rest, 0) == Some(i)
    ensures Continues(whole, Split(taken + [rest[..i]], ""), SplitBlocks(AfterBoundary(rest, i)))
  {
    SplitAtFirst(rest, i);
    var later := SplitBlocks(AfterBoundary(rest, i));
    assert taken + ([rest[..i]] + later.blocks) == (taken + [rest[..i]]) + later.blocks;
  }

  lemma {:induction false} ReadBoth<E>(a: seq<string>, b: seq<string>, read: string -> seq<E>)
    ensures ReadAll(a + b, read) == ReadAll(a, read) + ReadAll(b, read)
  {
    if b == [] {
      assert a + b == a;
    } else {
      ReadBoth(a, b[..|b| - 1], read);
      assert (a + b)[..|a + b| - 1] == a + b[..|b| - 1];
    }
  }

  lemma ReadFirst<E>(block: string, rest: seq<string>, read: string -> seq<E>)
    ensures ReadAll([block] + rest, read) == read(block) + ReadAll(rest, read)
  {
    ReadBoth([block], rest, read);
    assert [block][..0] == [];
  }
}

/** How the client reads a block, line by line, and with it a whole text. */
module Sse {
  import opened Prelude
  import opened Decimal
  import opened SseBlocks

  datatype SseEvent = SseEvent(event: string, data: string, id: Option<string>, retry: Option<nat>)

  const Bom: char := '\U{FEFF}'

  // ---- Line ends ----

  function ReplaceCrLf(text: string): string {
    if text == "" then ""
    else if |text| >= 2 && text[0] == '\r' && text[1] == '\n' then "\n" + ReplaceCrLf(text[2..])
    else [text[0]] + ReplaceCrLf(text[1..])
  }

  function ReplaceCr(text: string): string {
    if text == "" then ""
    else [if text[0] == '\r' then '\n' else text[0]] + ReplaceCr(text[1..])
  }

  function Normalize(text: string): string {
    ReplaceCr(ReplaceCrLf(text))
  }

  // ---- Reading a block ----

  /** The index of the first `c`, or the length. */
  function IndexOf(text: string, c: char): (n: nat)
    ensures n <= |text| && (n < |text| ==> text[n] == c)
    ensures forall i | 0 <= i < n :: text[i] != c
  {
    if text == "" || text[0] == c then 0
    else
      var n := IndexOf(text[1..], c);
      assert forall i | 1 <= i < n + 1 :: text[i] == text[1..][i - 1];
      n + 1
  }

  function Lines(text: string): (lines: seq<string>)
    ensures lines != []
    decreases |text|
  {
    var n := IndexOf(text, '\n');
    if n == |text| then [text] else [text[..n]] + Lines(text[n + 1..])
  }

  function Join(lines: seq<string>): string {
    if lines == [] then ""
    else if |lines| == 1 then lines[0]
    else Join(lines[..|lines| - 1]) + "\n" + lines[|lines| - 1]
  }

  datatype Fields = Fields(event: string, id: Option<string>, retry: Option<nat>, data: seq<string>)

  const NoFields := Fields("message", None, None, [])

  function LineField(line: string): string {
    line[..IndexOf(line, ':')]
  }

  /** What follows the colon, without one leading space. */
  function LineValue(line: string): string {
    var colon := IndexOf(line, ':');
    if colon == |line| then ""
    else if colon + 1 < |line| && line[colon + 1] == ' ' then line[colon + 2..]
    else line[colon + 1..]
  }

  function WithLine(fields: Fields, line: string): Fields {
    if line == "" || line[0] == ':' then fields
    else
      var value := LineValue(line);
      match LineField(line)
      case "event" => fields.(event := value)
      case "data" => fields.(data := fields.data + [value])
      case "id" => if '\0' in value then fields else fields.(id := Some(value))
      case "retry" => if value != "" && AllDigits(value) then fields.(retry := Some(Parse(value))) else fields
      case _ => fields
  }

  function FieldsOf(lines: seq<string>): Fields {
    if lines == [] then NoFields else WithLine(FieldsOf(lines[..|lines| - 1]), lines[|lines| - 1])
  }

  function EventOf(fields: Fields): Option<SseEvent> {
    if fields.data == [] then None else Some(SseEvent(fields.event, Join(fields.data), fields.id, fields.retry))
  }

  function BlockEvent(block: string): Option<SseEvent> {
    EventOf(FieldsOf(Lines(block)))
  }

  // ---- Reading a text ----

  function AsSeq(event: Option<SseEvent>): seq<SseEvent> {
    if event.Some? then [event.value] else []
  }

  function ReadBlock(block: string): seq<SseEvent> {
    AsSeq(BlockEvent(Normalize(block)))
  }

  predicate IsSpace(c: char) {
    c == ' ' || '\t' <= c <= '\r' || c == '\U{A0}' || c == '\U{1680}' || '\U{2000}' <= c <= '\U{200A}'
    || c == '\U{2028}' || c == '\U{2029}' || c == '\U{202F}' || c == '\U{205F}' || c == '\U{3000}' || c == Bom
  }

  predicate IsBlank(text: string) {
    forall i | 0 <= i < |text| :: IsSpace(text[i])
  }

  /** What is left at the end of the stream is read as a block, too. */
  function Trailing(rest: string): seq<SseEvent> {
    if IsBlank(rest) then [] else ReadBlock(rest)
  }

  function EventsIn(text: string): seq<SseEvent> {
    var split := SplitBlocks(text);
    ReadAll(split.blocks, ReadBlock) + Trailing(split.rest)
  }

  function StripBom(text: string): string {
    if text != "" && text[0] == Bom then text[1..] else text
  }
}
