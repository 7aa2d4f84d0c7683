/** The client's watch loop: it reads one connection after another, each resumed after the last
    event it saw, until the migration ended or it falls back to polling. */
module Watch {
  import opened Prelude
  import opened Decimal
  import opened Phases
  import opened Coordinator
  import opened SseBlocks
  import S = Sse
  import P = SseParser
  import SP = SsePrinter
  import ES = EventStream
  import opened WatchReading

  /** The progress that event `i` of the log stands for. */
  function ProgressOf(event: Event, payload: Event -> string): Progress {
    Progress(Some(Print(event.seqNo)), payload(event))
  }

  ghost predicate YieldsPrefix(yielded: seq<Progress>, log: seq<Event>, payload: Event -> string) {
    |yielded| <= |log| && forall i | 0 <= i < |yielded| :: yielded[i] == ProgressOf(log[i], payload)
  }

  /** What arrives on a connection asked for with this header: any cut, at an event boundary, of
      what the coordinator sends for it, in any pieces. */
  ghost predicate IsServed(pieces: seq<string>, log: seq<Event>, header: Option<string>, payload: Event -> string) {
    exists t, items: seq<SP.Item> ::
      && ES.InOrder(t, log) && ES.IsSent(items, ES.Serve(log, t, ES.ParseEventId(header)), payload)
      && pieces != [] && Concat(pieces) == SP.PrintStream(items)
  }

  /** `transport(n, header)` is what connection `n` delivers, if it is an event stream at all. */
  ghost predicate Serves(transport: (nat, Option<string>) -> Option<seq<string>>, log: seq<Event>,
                         payload: Event -> string) {
    forall n, header | transport(n, header).Some? :: IsServed(transport(n, header).value, log, header, payload)
  }

  /** The payload is one line and says the phase. */
  ghost predicate TellsPhase(payload: Event -> string, phaseOf: string -> Phase) {
    forall event :: SP.IsOneLine(payload(event)) && phaseOf(payload(event)) == event.phase
  }

  function HeaderAfter(n: nat): Option<string> {
    if n == 0 then None else Some(Print(n))
  }

  /** What one connection yields, whichever way it is cut, are the next events of the log. */
  lemma ConnectionContinues(pieces: seq<string>, log: seq<Event>, n: nat, payload: Event -> string)
    requires ES.IsDurable(log) && n <= |log|
    requires forall event :: SP.IsOneLine(payload(event))
    requires IsServed(pieces, log, HeaderAfter(n), payload)
    ensures ES.ArePrefix(S.EventsIn(P.Heard(pieces)), log[n..], payload)
  {
    var t, items: seq<SP.Item> :|
      && ES.InOrder(t, log) && ES.IsSent(items, ES.Serve(log, t, ES.ParseEventId(HeaderAfter(n))), payload)
      && pieces != [] && Concat(pieces) == SP.PrintStream(items);
    ES.EventIdRoundTrip(n);
    ES.ServeIsTheRest(log, t, n);
    ES.SentIsReadBack(items, log[n..], payload);
    SP.StreamRoundTrip(items, pieces);
  }

  /** What a connection delivers, to its end. */
  function Delivers(transport: (nat, Option<string>) -> Option<seq<string>>): Connect {
    (n: nat, header: Option<string>) =>
      var stream := transport(n, header);
      if stream.None? then None else Some(S.EventsIn(P.Heard(stream.value)))
  }

  /** Across any number of connections, each cut anywhere between events, what is yielded is a
      prefix of the durable log, each event once and in order; watching ends by itself exactly with
      the last event of a log that is complete; and it falls back only if a connection is refused, or
      if all that may be made were read to their ends without such an event. */
  method Watch(transport: (nat, Option<string>) -> Option<seq<string>>, maxReconnects: nat,
               phaseOf: string -> Phase, ghost log: seq<Event>, ghost payload: Event -> string)
    returns (yielded: seq<Progress>, ending: Ending, ghost connections: nat)
    requires ES.IsDurable(log) && TellsPhase(payload, phaseOf) && Serves(transport, log, payload)
    ensures YieldsPrefix(yielded, log, payload)
    ensures !ending.FellBack? ==> Stopped(ending, yielded, log)
    ensures ending.FellBack? && yielded != [] ==> !Terminal(log[|yielded| - 1].phase)
    ensures ReadThem(Delivers(transport), maxReconnects, yielded, ending.FellBack?, connections)
    ensures IsDelivered(Delivers(transport), maxReconnects, log) ==> |yielded| == |log| && !ending.FellBack?
  {
    StreamsAreRead(transport, log, phaseOf, payload);
    WatchingIsRight(Delivers(transport), phaseOf, maxReconnects, log, payload);
    yielded, ending, connections := WatchLoop(transport, maxReconnects, phaseOf);
    if IsDelivered(Delivers(transport), maxReconnects, log) {
      DeliveredIsYielded(Delivers(transport), maxReconnects, log, yielded, ending.FellBack?, connections);
    }
  }

  method WatchLoop(transport: (nat, Option<string>) -> Option<seq<string>>, maxReconnects: nat, phaseOf: string -> Phase)
    returns (yielded: seq<Progress>, ending: Ending, ghost connections: nat)
    requires NeverEmpty(transport)
    ensures Watched(yielded, ending, connections) == WatchFrom(Delivers(transport), phaseOf, maxReconnects, 0, [], None)
  {
    ghost var connect := Delivers(transport);
    yielded := [];
    var lastEventId: Option<string> := None;
    var reconnects := 0;
    while reconnects <= maxReconnects
      invariant WatchFrom(connect, phaseOf, maxReconnects, reconnects, yielded, lastEventId)
             == WatchFrom(connect, phaseOf, maxReconnects, 0, [], None)
    {
      var stream := transport(reconnects, lastEventId);
      if stream.None? {
        break;
      }
      var events := P.ParseSse(stream.value);
      assert connect(reconnects, lastEventId) == Some(events);
      var stop;
      yielded, lastEventId, stop := YieldEvents(events, yielded, lastEventId, phaseOf);
      reconnects := reconnects + 1;
      if stop.Some? {
        return yielded, stop.value, reconnects;
      }
    }
    ending, connections := FellBack, reconnects;
  }

  /** A stream ends with a chunk of its own. */
  ghost predicate NeverEmpty(transport: (nat, Option<string>) -> Option<seq<string>>) {
    forall n, header | transport(n, header).Some? :: transport(n, header).value != []
  }

  /** The loop over the events of one connection, up to one that ends the watch. */
  method YieldEvents(events: seq<S.SseEvent>, before: seq<Progress>, header: Option<string>, phaseOf: string -> Phase)
    returns (yielded: seq<Progress>, lastEventId: Option<string>, stop: Option<Ending>)
    ensures Consumed(yielded, lastEventId, stop) == Consume(events, before, header, phaseOf)
  {
    yielded, lastEventId := before, header;
    for i := 0 to |events|
      invariant Consume(events[i..], yielded, lastEventId, phaseOf) == Consume(events, before, header, phaseOf)
    {
      var event := events[i];
      lastEventId := if event.id.Some? then event.id else lastEventId;
      var progress := Progress(event.id, event.data);
      yielded := yielded + [progress];
      var phase := phaseOf(progress.data);
      stop := if event.event == "error" || IsFailure(phase) then Some(Threw)
              else if event.event == "done" || Terminal(phase) then Some(Finished)
              else None;
      assert events[i..][0] == event && events[i..][1..] == events[i + 1..];
      if stop.Some? {
        return;
      }
    }
    stop := None;
  }

  // ---- What the loop does with a served log ----

  /** Every connection asked for after event `n` delivers the next events of the log. */
  ghost predicate ReadsNext(connect: Connect, log: seq<Event>, phaseOf: string -> Phase, payload: Event -> string) {
    forall c: nat, n: nat :: Continues(connect(c, HeaderAfter(n)), log, n, phaseOf, payload)
  }

  ghost predicate Continues(delivered: Option<seq<S.SseEvent>>, log: seq<Event>, n: nat, phaseOf: string -> Phase,
                            payload: Event -> string) {
    n <= |log| && delivered.Some? ==> AllTell(delivered.value, log, n, phaseOf, payload)
  }

  ghost predicate AllTell(events: seq<S.SseEvent>, log: seq<Event>, n: nat, phaseOf: string -> Phase,
                          payload: Event -> string) {
    forall i | 0 <= i < |events| :: Tells(events[i], log, n + i, phaseOf, payload)
  }

  lemma StreamsAreRead(transport: (nat, Option<string>) -> Option<seq<string>>, log: seq<Event>,
                       phaseOf: string -> Phase, payload: Event -> string)
    requires ES.IsDurable(log) && TellsPhase(payload, phaseOf) && Serves(transport, log, payload)
    ensures ReadsNext(Delivers(transport), log, phaseOf, payload) && NeverEmpty(transport)
  {
    forall c: nat, n: nat ensures Continues(Delivers(transport)(c, HeaderAfter(n)), log, n, phaseOf, payload) {
      if n <= |log| && transport(c, HeaderAfter(n)).Some? {
        var pieces := transport(c, HeaderAfter(n)).value;
        ConnectionContinues(pieces, log, n, payload);
        EventsTell(S.EventsIn(P.Heard(pieces)), log, n, phaseOf, payload);
      }
    }
  }

  /** What one connection leaves: the log is yielded further, to the end of the connection, and the
      watch stops only with the end of the log. */
  ghost predicate Follows(read: Consumed, seen: seq<Progress>, events: seq<S.SseEvent>, log: seq<Event>,
                          payload: Event -> string) {
    && YieldsPrefix(read.yielded, log, payload) && |read.yielded| == |seen| + |events|
    && read.lastEventId == HeaderAfter(|read.yielded|)
    && match read.stop
       case Some(ending) => Stopped(ending, read.yielded, log)
       case None => GoesOn(read.yielded, log)
  }

  predicate GoesOn(yielded: seq<Progress>, log: seq<Event>) {
    0 < |yielded| <= |log| ==> !Terminal(log[|yielded| - 1].phase)
  }

  lemma {:induction false} ConsumingFollows(events: seq<S.SseEvent>, seen: seq<Progress>, log: seq<Event>,
                                            phaseOf: string -> Phase, payload: Event -> string)
    requires YieldsPrefix(seen, log, payload) && GoesOn(seen, log)
    requires AllTell(events, log, |seen|, phaseOf, payload)
    ensures Follows(Consume(events, seen, HeaderAfter(|seen|), phaseOf), seen, events, log, payload)
  {
    if events != [] {
      var event := events[0];
      assert Tells(event, log, |seen| + 0, phaseOf, payload);
      var later := seen + [Progress(event.id, event.data)];
      OneMore(seen, Progress(event.id, event.data), log, payload);
      if StopAt(event, phaseOf).Some? {
        NoMoreThanTheLog(events, log, |seen|, phaseOf, payload);
      } else {
        RestTells(events, log, |seen|, phaseOf, payload);
        ConsumingFollows(events[1..], later, log, phaseOf, payload);
      }
    }
  }

  lemma RestTells(events: seq<S.SseEvent>, log: seq<Event>, n: nat, phaseOf: string -> Phase, payload: Event -> string)
    requires events != [] && AllTell(events, log, n, phaseOf, payload)
    ensures AllTell(events[1..], log, n + 1, phaseOf, payload)
  {
    forall i | 0 <= i < |events[1..]| ensures Tells(events[1..][i], log, n + 1 + i, phaseOf, payload) {
      assert Tells(events[i + 1], log, n + (i + 1), phaseOf, payload);
    }
  }

  lemma NoMoreThanTheLog(events: seq<S.SseEvent>, log: seq<Event>, n: nat, phaseOf: string -> Phase, payload: Event -> string)
    requires events != [] && AllTell(events, log, n, phaseOf, payload)
    ensures n + |events| <= |log|
  {
    assert Tells(events[|events| - 1], log, n + (|events| - 1), phaseOf, payload);
  }

  /** What is yielded of the log is what the connection delivered. */
  lemma YieldedIsRead(yielded: seq<Progress>, before: seq<Progress>, events: seq<S.SseEvent>, log: seq<Event>,
                      phaseOf: string -> Phase, payload: Event -> string)
    requires YieldsPrefix(before, log, payload) && YieldsPrefix(yielded, log, payload)
    requires AllTell(events, log, |before|, phaseOf, payload) && |yielded| == |before| + |events|
    ensures yielded == before + ProgressIn(events)
  {
    OneForEachEvent(events);
    forall i | 0 <= i < |events| ensures yielded[|before| + i] == ProgressIn(events)[i] {
      assert Tells(events[i], log, |before| + i, phaseOf, payload);
    }
  }

  lemma HeaderIsTheNumber(yielded: seq<Progress>, log: seq<Event>, payload: Event -> string)
    requires ES.IsDurable(log) && YieldsPrefix(yielded, log, payload)
    ensures HeaderOf(yielded) == HeaderAfter(|yielded|)
  {
    if yielded != [] {
      NumberOf(log, |yielded| - 1);
    }
  }

  ghost predicate IsRight(watched: Watched, connect: Connect, maxReconnects: nat, log: seq<Event>, payload: Event -> string) {
    && YieldsPrefix(watched.yielded, log, payload)
    && (if watched.ending.FellBack? then GoesOn(watched.yielded, log) else Stopped(watched.ending, watched.yielded, log))
    && ReadThem(connect, maxReconnects, watched.yielded, watched.ending.FellBack?, watched.connections)
  }

  ghost predicate StandsRight(connect: Connect, maxReconnects: nat, log: seq<Event>, payload: Event -> string,
                              n: nat, seen: seq<Progress>, header: Option<string>) {
    && n <= maxReconnects + 1 && AllOpen(connect, n) && seen == ReadOn(connect, n)
    && YieldsPrefix(seen, log, payload) && GoesOn(seen, log) && header == HeaderAfter(|seen|)
  }

  lemma WatchingIsRight(connect: Connect, phaseOf: string -> Phase, maxReconnects: nat, log: seq<Event>, payload: Event -> string)
    requires ES.IsDurable(log) && ReadsNext(connect, log, phaseOf, payload)
    ensures IsRight(WatchFrom(connect, phaseOf, maxReconnects, 0, [], None), connect, maxReconnects, log, payload)
  {
    ghost var stands: Standing :=
      (n: nat, seen, header) => StandsRight(connect, maxReconnects, log, payload, n, seen, header);
    ghost var ends: Conclusion := watched => IsRight(watched, connect, maxReconnects, log, payload);
    forall n: nat, seen, header | stands(n, seen, header)
      ensures TurnsWell(connect, phaseOf, maxReconnects, stands, ends, n, seen, header)
    {
      TurnIsRight(connect, phaseOf, maxReconnects, stands, ends, n, seen, header, log, payload);
    }
    WatchingEndsWell(connect, phaseOf, maxReconnects, stands, ends, 0, [], None);
  }

  lemma TurnIsRight(connect: Connect, phaseOf: string -> Phase, maxReconnects: nat, stands: Standing, ends: Conclusion, n: nat,
                    seen: seq<Progress>, header: Option<string>, log: seq<Event>, payload: Event -> string)
    requires ES.IsDurable(log) && ReadsNext(connect, log, phaseOf, payload)
    requires StandsRight(connect, maxReconnects, log, payload, n, seen, header)
    requires forall k: nat, s, h :: StandsRight(connect, maxReconnects, log, payload, k, s, h) ==> stands(k, s, h)
    requires forall watched :: IsRight(watched, connect, maxReconnects, log, payload) ==> ends(watched)
    ensures TurnsWell(connect, phaseOf, maxReconnects, stands, ends, n, seen, header)
  {
    HeaderIsTheNumber(seen, log, payload);
    if n <= maxReconnects && connect(n, header).Some? {
      ConnectionIsRight(connect, phaseOf, n, seen, log, payload);
      var events := connect(n, header).value;
      var read := Consume(events, seen, header, phaseOf);
      if read.stop.Some? {
        StoppingIsRight(connect, maxReconnects, n, seen, events, read, log, payload);
      }
    } else {
      FallingBackIsRight(connect, maxReconnects, n, seen, log, payload);
    }
  }

  lemma StoppingIsRight(connect: Connect, maxReconnects: nat, n: nat, seen: seq<Progress>, events: seq<S.SseEvent>,
                        read: Consumed, log: seq<Event>, payload: Event -> string)
    requires n <= maxReconnects && Follows(read, seen, events, log, payload) && read.stop.Some?
    requires AllOpen(connect, n + 1) && read.yielded == ReadOn(connect, n + 1)
    ensures IsRight(Watched(read.yielded, read.stop.value, n + 1), connect, maxReconnects, log, payload)
  {
  }

  lemma FallingBackIsRight(connect: Connect, maxReconnects: nat, n: nat, seen: seq<Progress>, log: seq<Event>,
                           payload: Event -> string)
    requires n <= maxReconnects + 1 && AllOpen(connect, n) && seen == ReadOn(connect, n)
    requires YieldsPrefix(seen, log, payload) && GoesOn(seen, log)
    requires n == maxReconnects + 1 || connect(n, HeaderOf(seen)).None?
    ensures IsRight(Watched(seen, FellBack, n), connect, maxReconnects, log, payload)
  {
  }

  lemma ConnectionIsRight(connect: Connect, phaseOf: string -> Phase, n: nat, seen: seq<Progress>, log: seq<Event>,
                          payload: Event -> string)
    requires ES.IsDurable(log) && ReadsNext(connect, log, phaseOf, payload)
    requires AllOpen(connect, n) && seen == ReadOn(connect, n) && connect(n, HeaderAfter(|seen|)).Some?
    requires YieldsPrefix(seen, log, payload) && GoesOn(seen, log)
    ensures var events := connect(n, HeaderAfter(|seen|)).value;
            var read := Consume(events, seen, HeaderAfter(|seen|), phaseOf);
            && Follows(read, seen, events, log, payload)
            && AllOpen(connect, n + 1) && read.yielded == ReadOn(connect, n + 1)
  {
    HeaderIsTheNumber(seen, log, payload);
    var header := HeaderAfter(|seen|);
    var events := connect(n, header).value;
    assert Continues(connect(n, header), log, |seen|, phaseOf, payload);
    ConsumingFollows(events, seen, log, phaseOf, payload);
    YieldedIsRead(Consume(events, seen, header, phaseOf).yielded, seen, events, log, phaseOf, payload);
    OneConnectionMore(connect, n);
  }

  /** A watch stops by itself with the last event of a complete log, and says how it ended. */
  predicate Stopped(ending: Ending, yielded: seq<Progress>, log: seq<Event>) {
    && |yielded| == |log| > 0
    && match ending
       case Threw => IsFailure(log[|log| - 1].phase)
       case Finished => log[|log| - 1].phase.Done?
       case FellBack => false
  }

  lemma OneMore(yielded: seq<Progress>, progress: Progress, log: seq<Event>, payload: Event -> string)
    requires YieldsPrefix(yielded, log, payload) && |yielded| < |log|
    requires progress == ProgressOf(log[|yielded|], payload)
    ensures YieldsPrefix(yielded + [progress], log, payload)
  {
  }

  /** The event read is event `k` of the log and tells its phase. */
  ghost predicate Tells(event: S.SseEvent, log: seq<Event>, k: nat, phaseOf: string -> Phase, payload: Event -> string) {
    && k < |log|
    && Progress(event.id, event.data) == ProgressOf(log[k], payload)
    && event.id == HeaderAfter(k + 1)
    && phaseOf(event.data) == log[k].phase
    && (event.event == "error" <==> IsFailure(log[k].phase))
    && (event.event == "done" <==> log[k].phase.Done?)
    && (Terminal(log[k].phase) ==> k == |log| - 1)
  }

  lemma EventsTell(events: seq<S.SseEvent>, log: seq<Event>, n: nat, phaseOf: string -> Phase, payload: Event -> string)
    requires ES.IsDurable(log) && n <= |log| && TellsPhase(payload, phaseOf)
    requires ES.ArePrefix(events, log[n..], payload)
    ensures AllTell(events, log, n, phaseOf, payload)
  {
    forall i | 0 <= i < |events| ensures Tells(events[i], log, n + i, phaseOf, payload) {
      assert log[n..][i] == log[n + i];
      NumberOf(log, n + i);
      EndsOnlyAtTheEnd(log, n + i);
    }
  }

  lemma NumberOf(log: seq<Event>, i: nat)
    requires ES.IsDurable(log) && i < |log|
    ensures log[i].seqNo == i + 1
  {
  }

  lemma EndsOnlyAtTheEnd(log: seq<Event>, i: nat)
    requires ES.IsDurable(log) && i < |log|
    ensures Terminal(log[i].phase) ==> i == |log| - 1
    ensures ES.EventName(log[i].phase) == "error" <==> IsFailure(log[i].phase)
    ensures ES.EventName(log[i].phase) == "done" <==> log[i].phase.Done?
  {
    if i + 1 < |log| {
      ES.OnlyTheLastIsTerminal(log, i);
    }
    assert "error" != "done" && "error" != "progress" && "done" != "progress" by {
      assert "error"[0] == 'e' && "done"[0] == 'd' && "progress"[0] == 'p';
    }
  }
}
