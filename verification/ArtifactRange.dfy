/** Byte ranges of an artifact: the Range header a client prints, its parser, and what the
    source serves for it. Section 14.1.2 of RFC 9110. */
module ArtifactRange {
  import opened Prelude
  import opened Artifacts
  import opened Decimal

  const MaxSafeInteger: int := 9007199254740991

  datatype Range = Range(start: nat, end: nat)

  datatype RangeError = InvalidHeader | OutsideArtifact

  const Prefix := "bytes="

  /** The header a client sends to resume at an offset. */
  function ResumeHeader(resumedAt: nat): Option<string> {
    if resumedAt == 0 then None else Some(Prefix + Print(resumedAt) + "-")
  }

  // ---- Parsing ----

  /** The length of the longest prefix of digits. */
  function DigitRun(text: string): (n: nat)
    ensures n <= |text| && AllDigits(text[..n])
    ensures n < |text| ==> !IsDigit(text[n])
  {
    if text == "" || !IsDigit(text[0]) then 0
    else
      var n := DigitRun(text[1..]);
      assert text[..n + 1] == [text[0]] + text[1..][..n];
      n + 1
  }

  /** The two digit groups of a header. */
  function Match(header: string): (groups: Option<(string, string)>)
    ensures groups.Some? ==> groups.value.0 != "" && AllDigits(groups.value.0) && AllDigits(groups.value.1)
  {
    if |header| < |Prefix| || header[..|Prefix|] != Prefix then None
    else
      var rest := header[|Prefix|..];
      var n := DigitRun(rest);
      if n == 0 || n == |rest| || rest[n] != '-' || !AllDigits(rest[n + 1..]) then None
      else Some((rest[..n], rest[n + 1..]))
  }

  function Min(a: int, b: int): int {
    if a <= b then a else b
  }

  function Within(start: nat, requestedEnd: int, size: nat): Result<Option<Range>, RangeError> {
    if start > MaxSafeInteger || requestedEnd > MaxSafeInteger || start >= size || requestedEnd < start
    then Err(OutsideArtifact)
    else Ok(Some(Range(start, Min(requestedEnd, size - 1))))
  }

  /** A range that is parsed lies inside the artifact. */
  function ParseRangeHeader(header: Option<string>, size: nat): (r: Result<Option<Range>, RangeError>)
    ensures r.Ok? && r.value.Some? ==> r.value.value.start <= r.value.value.end < size
  {
    if header.None? then Ok(None)
    else
      var groups := Match(header.value);
      if groups.None? then Err(InvalidHeader)
      else
        var (first, last) := groups.value;
        Within(Parse(first), if last == "" then size - 1 else Parse(last), size)
  }

  /** The parser finds the two groups of exactly the headers that have them. */
  lemma MatchIsExact(header: string, first: string, last: string)
    ensures Match(header) == Some((first, last))
       <==> header == Prefix + first + "-" + last && first != "" && AllDigits(first) && AllDigits(last)
  {
    if header == Prefix + first + "-" + last && first != "" && AllDigits(first) && AllDigits(last) {
      var rest := header[|Prefix|..];
      assert header[..|Prefix|] == Prefix;
      assert rest == first + "-" + last;
      RunEndsAtDash(first, last);
      assert rest[..|first|] == first && rest[|first| + 1..] == last;
    }
    if Match(header) == Some((first, last)) {
      var rest := header[|Prefix|..];
      assert header == header[..|Prefix|] + rest;
      assert rest == rest[..DigitRun(rest)] + [rest[DigitRun(rest)]] + rest[DigitRun(rest) + 1..];
    }
  }

  lemma {:induction false} RunEndsAtDash(first: string, last: string)
    requires AllDigits(first)
    ensures DigitRun(first + "-" + last) == |first|
  {
    if first != "" {
      assert (first + "-" + last)[1..] == first[1..] + "-" + last;
      RunEndsAtDash(first[1..], last);
    }
  }

  /** What a client prints to resume is parsed as the rest of the artifact, for every offset
      inside it and for no other; and a bounded range is cut to the artifact. */
  lemma ResumeHeaderRoundTrip(resumedAt: nat, size: nat)
    requires 0 < resumedAt && size <= MaxSafeInteger
    ensures ParseRangeHeader(ResumeHeader(resumedAt), size)
         == if resumedAt < size then Ok(Some(Range(resumedAt, size - 1))) else Err(OutsideArtifact)
  {
    var digits := Print(resumedAt);
    assert Prefix + digits + "-" == Prefix + digits + "-" + "";
    MatchIsExact(Prefix + digits + "-", digits, "");
    ParseInvertsPrint(resumedAt);
  }

  lemma BoundedHeaderRoundTrip(start: nat, end: nat, size: nat)
    requires size <= MaxSafeInteger && end <= MaxSafeInteger
    ensures ParseRangeHeader(Some(Prefix + Print(start) + "-" + Print(end)), size)
         == if start <= end && start < size then Ok(Some(Range(start, Min(end, size - 1)))) else Err(OutsideArtifact)
  {
    MatchIsExact(Prefix + Print(start) + "-" + Print(end), Print(start), Print(end));
    ParseInvertsPrint(start);
    ParseInvertsPrint(end);
  }

  // ---- Serving ----

  datatype Served = Served(status: nat, contentLength: int, sha256: Digest, content: Bytes)

  datatype ServeError = ArtifactChanged | BadRange

  /** What the source answers for the file it has on disk. */
  function OpenArtifactRange(onDisk: Bytes, descriptor: Descriptor, header: Option<string>)
    : Result<Served, ServeError>
  {
    if |onDisk| != descriptor.size then Err(ArtifactChanged)
    else
      match ParseRangeHeader(header, |onDisk|)
      case Err(_) => Err(BadRange)
      case Ok(None) => Ok(Served(200, |onDisk|, descriptor.sha256, onDisk))
      case Ok(Some(range)) =>
        Ok(Served(206, range.end - range.start + 1, descriptor.sha256, onDisk[range.start..range.end + 1]))
  }

  /** A bounded range is served with its bytes, cut to the artifact; the length that is announced is the
      length of what is sent; and a file that changed its size is not served at all. */
  lemma RangesAreServedExactly(onDisk: Bytes, descriptor: Descriptor, start: nat, end: nat)
    requires |onDisk| <= MaxSafeInteger && end <= MaxSafeInteger
    ensures var header := Some(Prefix + Print(start) + "-" + Print(end));
            OpenArtifactRange(onDisk, descriptor, header)
              == if |onDisk| != descriptor.size then Err(ArtifactChanged)
                 else if start > end || start >= |onDisk| then Err(BadRange)
                 else
                   var stop := if end < |onDisk| then end + 1 else |onDisk|;
                   Ok(Served(206, stop - start, descriptor.sha256, onDisk[start..stop]))
  {
    BoundedHeaderRoundTrip(start, end, |onDisk|);
    ServedAsParsed(onDisk, descriptor, Some(Prefix + Print(start) + "-" + Print(end)), start, end);
  }

  lemma ServedAsParsed(onDisk: Bytes, descriptor: Descriptor, header: Option<string>, start: nat, end: nat)
    requires ParseRangeHeader(header, |onDisk|)
          == if start <= end && start < |onDisk| then Ok(Some(Range(start, Min(end, |onDisk| - 1)))) else Err(OutsideArtifact)
    ensures OpenArtifactRange(onDisk, descriptor, header)
         == if |onDisk| != descriptor.size then Err(ArtifactChanged)
            else if start > end || start >= |onDisk| then Err(BadRange)
            else
              var stop := if end < |onDisk| then end + 1 else |onDisk|;
              Ok(Served(206, stop - start, descriptor.sha256, onDisk[start..stop]))
  {
  }

  lemma LengthsAreAnnounced(onDisk: Bytes, descriptor: Descriptor, header: Option<string>)
    ensures match OpenArtifactRange(onDisk, descriptor, header)
            case Ok(served) =>
              && served.contentLength == |served.content| && served.sha256 == descriptor.sha256
              && (served.status == 200 <==> header.None?) && (served.status == 206 <==> header.Some?)
            case Err(ArtifactChanged) => |onDisk| != descriptor.size
            case Err(BadRange) => |onDisk| == descriptor.size && header.Some?
  {
  }

  /** Resuming is served with exactly the bytes that are missing, in the status that the client
      requires for it. */
  lemma ResumeIsServedTheRest(content: Bytes, resumedAt: nat)
    requires resumedAt < |content| <= MaxSafeInteger
    ensures OpenArtifactRange(content, Describe(content), ResumeHeader(resumedAt))
         == Ok(Served(if resumedAt == 0 then 200 else 206, |content| - resumedAt, Sha256(content), content[resumedAt..]))
  {
    if resumedAt > 0 {
      ResumeHeaderRoundTrip(resumedAt, |content|);
    }
    assert content[resumedAt..|content|] == content[resumedAt..];
    assert content[0..] == content;
  }
}
