/** What the client's parser makes of texts that this coordinator never sends: all line ends, all
    boundaries, fields in any order and more than once, data of many lines. */
module SseLaws {
  import opened Prelude
  import opened Decimal
  import opened SseBlocks
  import opened Sse
  import opened SsePrinter

  // ---- Boundaries ----

  predicate HasAt(text: string, i: nat, word: string) {
    i + |word| <= |text| && text[i..i + |word|] == word
  }

  /** A boundary is one of three texts. */
  lemma BoundariesAreExact(text: string, i: nat)
    ensures BoundaryAt(text, i)
         == if HasAt(text, i, "\r\n\r\n") then 4 else if HasAt(text, i, "\n\n") || HasAt(text, i, "\r\r") then 2 else 0
  {
    if i + 4 <= |text| {
      assert text[i..i + 4] == "\r\n\r\n" <==> text[i] == '\r' && text[i + 1] == '\n' && text[i + 2] == '\r' && text[i + 3] == '\n';
    }
    if i + 2 <= |text| {
      assert text[i..i + 2] == "\n\n" <==> text[i] == '\n' && text[i + 1] == '\n';
      assert text[i..i + 2] == "\r\r" <==> text[i] == '\r' && text[i + 1] == '\r';
    }
  }

  /** The first of them is found, if there is one. */
  lemma {:induction false} FindIsFirst(text: string, from: nat)
    requires from <= |text|
    ensures match Find(text, from)
            case None => forall i | from <= i < |text| :: BoundaryAt(text, i) == 0
            case Some(n) => from <= n < |text| && BoundaryAt(text, n) > 0 && forall i | from <= i < n :: BoundaryAt(text, i) == 0
    decreases |text| - from
  {
    if from < |text| && BoundaryAt(text, from) == 0 {
      FindIsFirst(text, from + 1);
    }
  }

  // ---- Line ends ----

  predicate IsLineEnd(end: string) {
    end == "\n" || end == "\r" || end == "\r\n"
  }

  /** Lines with any ends between them. */
  function Ended(lines: seq<string>, ends: seq<string>): string
    requires |ends| + 1 == |lines|
  {
    if |lines| == 1 then lines[0] else lines[0] + ends[0] + Ended(lines[1..], ends[1..])
  }

  predicate AreLines(lines: seq<string>) {
    forall i | 0 <= i < |lines| :: lines[i] != "" && IsOneLine(lines[i])
  }

  lemma {:induction false} NormalizeGoesOn(line: string, rest: string)
    requires IsOneLine(line)
    ensures Normalize(line + rest) == line + Normalize(rest)
  {
    if line == "" {
      assert line + rest == rest;
    } else {
      NormalizeGoesOn(line[1..], rest);
      assert (line + rest)[1..] == line[1..] + rest;
      assert (line + rest)[0] == line[0];
    }
  }

  lemma NormalizeEnds(end: string, rest: string)
    requires IsLineEnd(end) && (rest != "" ==> rest[0] != '\n')
    ensures Normalize(end + rest) == "\n" + Normalize(rest)
  {
    if end == "\r\n" {
      assert (end + rest)[2..] == rest;
    } else {
      assert (end + rest)[1..] == rest;
    }
  }

  lemma OneLineMore(first: string, end: string, rest: string)
    requires IsOneLine(first) && IsLineEnd(end) && (rest != "" ==> rest[0] != '\n')
    ensures Lines(Normalize(first + end + rest)) == [first] + Lines(Normalize(rest))
  {
    Regroup(first, end, rest);
    NormalizeGoesOn(first, end + rest);
    NormalizeEnds(end, rest);
    Regroup(first, "\n", Normalize(rest));
    LinesOfJoin(first, Normalize(rest));
  }

  lemma Regroup(a: string, b: string, c: string)
    ensures (a + b) + c == a + (b + c)
  {
  }

  lemma LastLine(line: string)
    requires IsOneLine(line)
    ensures Lines(Normalize(line)) == [line]
  {
    NormalizeGoesOn(line, "");
    assert line + "" == line && Normalize("") == "";
    LinesOfLine(line);
  }

  lemma EndedBegins(lines: seq<string>, ends: seq<string>)
    requires |ends| + 1 == |lines| && AreLines(lines)
    ensures Ended(lines, ends) != "" && Ended(lines, ends)[0] == lines[0][0] != '\n'
  {
  }

  /** Which of the three ends the lines have makes no difference. */
  lemma {:induction false} LineEndsAreAlike(lines: seq<string>, ends: seq<string>)
    requires |ends| + 1 == |lines| && AreLines(lines) && forall i | 0 <= i < |ends| :: IsLineEnd(ends[i])
    ensures Lines(Normalize(Ended(lines, ends))) == lines
  {
    if |lines| == 1 {
      LastLine(lines[0]);
    } else {
      LineEndsAreAlike(lines[1..], ends[1..]);
      EndedBegins(lines[1..], ends[1..]);
      OneLineMore(lines[0], ends[0], Ended(lines[1..], ends[1..]));
    }
  }

  /** Data of many lines is put together as it was. */
  lemma {:induction false} JoinedLinesAreSplit(lines: seq<string>)
    requires lines != [] && forall i | 0 <= i < |lines| :: IsOneLine(lines[i])
    ensures Lines(Join(lines)) == lines
  {
    if |lines| == 1 {
      LinesOfLine(lines[0]);
    } else {
      JoinFromTheFront(lines);
      JoinedLinesAreSplit(lines[1..]);
      LinesOfJoin(lines[0], Join(lines[1..]));
    }
  }

  lemma {:induction false} JoinFromTheFront(lines: seq<string>)
    requires |lines| > 1
    ensures Join(lines) == lines[0] + "\n" + Join(lines[1..])
  {
    if |lines| > 2 {
      JoinFromTheFront(lines[..|lines| - 1]);
      assert lines[..|lines| - 1][1..] == lines[1..][..|lines| - 2];
      assert lines[1..][|lines| - 2] == lines[|lines| - 1];
    } else {
      assert lines[..1] == [lines[0]] && lines[1..] == [lines[1]];
    }
  }

  // ---- Fields ----

  /** A line is split at its first colon, and one space after it is dropped. */
  lemma LinesAreSplitAtTheColon(field: string, value: string)
    requires forall i | 0 <= i < |field| :: field[i] != ':'
    ensures LineField(field + ":" + value) == field
    ensures LineValue(field + ":" + value) == if value != "" && value[0] == ' ' then value[1..] else value
    ensures LineField(field) == field && LineValue(field) == ""
  {
    var line := field + ":" + value;
    assert line == field + [':'] + value;
    IndexAfter(field, ':', value);
    IndexNowhere(field, ':');
    assert line[..|field|] == field && line[|field| + 1..] == value;
    if value != "" {
      assert line[|field| + 1] == value[0] && line[|field| + 2..] == value[1..];
    }
  }

  predicate IsField(line: string, field: string) {
    line != "" && line[0] != ':' && LineField(line) == field
  }

  predicate SetsId(line: string) {
    IsField(line, "id") && '\0' !in LineValue(line)
  }

  predicate SetsRetry(line: string) {
    IsField(line, "retry") && LineValue(line) != "" && AllDigits(LineValue(line))
  }

  function DataOf(lines: seq<string>): seq<string> {
    if lines == [] then []
    else
      var last := lines[|lines| - 1];
      DataOf(lines[..|lines| - 1]) + if IsField(last, "data") then [LineValue(last)] else []
  }

  /** What the last line says that sets something. */
  function LastSet(lines: seq<string>, sets: string -> bool): Option<string> {
    if lines == [] then None
    else
      var last := lines[|lines| - 1];
      if sets(last) then Some(LineValue(last)) else LastSet(lines[..|lines| - 1], sets)
  }

  function NumberIn(text: Option<string>): Option<nat> {
    if text.Some? && AllDigits(text.value) then Some(Parse(text.value)) else None
  }

  lemma OneFieldMore(fields: Fields, line: string)
    ensures var later := WithLine(fields, line); var value := LineValue(line);
            later == Fields(if IsField(line, "event") then value else fields.event,
                            if SetsId(line) then Some(value) else fields.id,
                            if SetsRetry(line) then NumberIn(Some(value)) else fields.retry,
                            fields.data + if IsField(line, "data") then [value] else [])
  {
  }

  /** Data lines add up; of every other field the last line that is well formed counts, and any other
      line counts for nothing. */
  lemma {:induction false} FieldsAreExact(lines: seq<string>)
    ensures var event := LastSet(lines, line => IsField(line, "event"));
            FieldsOf(lines) == Fields(if event.Some? then event.value else "message",
                                      LastSet(lines, SetsId), NumberIn(LastSet(lines, SetsRetry)), DataOf(lines))
  {
    if lines != [] {
      FieldsAreExact(lines[..|lines| - 1]);
      OneFieldMore(FieldsOf(lines[..|lines| - 1]), lines[|lines| - 1]);
    }
  }

  /** A block is an event exactly if it has data. */
  lemma EventsHaveData(block: string)
    ensures BlockEvent(block).Some? <==> DataOf(Lines(block)) != []
    ensures BlockEvent(block).Some? ==> BlockEvent(block).value.data == Join(DataOf(Lines(block)))
  {
    FieldsAreExact(Lines(block));
  }

  // ---- The end of a stream ----

  /** The last block of a stream needs no boundary behind it. */
  lemma TheLastBlockNeedsNoEnd(block: string)
    requires IsCalm(block) && !IsBlank(block)
    ensures EventsIn(block) == EventsIn(block + "\n\n")
  {
    OneBlock(block);
    CalmHasNoBoundary(block);
    OnlyTheRest(block);
    NothingToReplace(block);
  }

  lemma CalmHasNoBoundary(block: string)
    requires IsCalm(block)
    ensures Find(block, 0).None?
  {
    FindIsFirst(block, 0);
    assert forall i | 0 <= i < |block| :: BoundaryAt(block, i) == 0;
  }

  lemma OnlyTheRest(text: string)
    requires Find(text, 0).None? && !IsBlank(text)
    ensures EventsIn(text) == ReadBlock(text)
  {
    assert SplitBlocks(text) == Split([], text);
    assert ReadAll([], ReadBlock) == [];
  }

  /** And white space at the end is none. */
  lemma BlankEndsAreDropped(text: string)
    requires IsBlank(text) && Find(text, 0).None?
    ensures EventsIn(text) == []
  {
  }
}
