/** What a client that reconnects has to read: said of what each connection delivers, and not of the
    loop that reads it. */
module WatchReading {
  import opened Prelude
  import opened Phases
  import opened Coordinator
  import S = Sse

  datatype Ending = Finished | Threw | FellBack

  datatype Progress = Progress(id: Option<string>, data: string)

  /** `connect(n, header)` is what connection `n` delivers to its end when it is asked for with this
      header, unless it is refused. */
  type Connect = (nat, Option<string>) -> Option<seq<S.SseEvent>>

  predicate IsFailure(phase: Phase) {
    phase.Failed? || phase.RolledBack? || phase.OrphanedAmbiguous?
  }

  // ---- The loop as a function ----

  /** Whether an event ends the watch, and how. */
  function StopAt(event: S.SseEvent, phaseOf: string -> Phase): Option<Ending> {
    var phase := phaseOf(event.data);
    if event.event == "error" || IsFailure(phase) then Some(Threw)
    else if event.event == "done" || Terminal(phase) then Some(Finished)
    else None
  }

  datatype Consumed = Consumed(yielded: seq<Progress>, lastEventId: Option<string>, stop: Option<Ending>)

  /** The events of one connection are yielded, up to one that ends the watch. */
  function Consume(events: seq<S.SseEvent>, seen: seq<Progress>, header: Option<string>, phaseOf: string -> Phase): Consumed {
    if events == [] then Consumed(seen, header, None)
    else
      var event := events[0];
      var yielded := seen + [Progress(event.id, event.data)];
      var lastEventId := if event.id.Some? then event.id else header;
      if StopAt(event, phaseOf).Some? then Consumed(yielded, lastEventId, StopAt(event, phaseOf))
      else Consume(events[1..], yielded, lastEventId, phaseOf)
  }

  datatype Watched = Watched(yielded: seq<Progress>, ending: Ending, connections: nat)

  /** Connections are read from number `n` on. */
  function WatchFrom(connect: Connect, phaseOf: string -> Phase, maxReconnects: nat, n: nat, seen: seq<Progress>,
                     header: Option<string>): Watched
    decreases maxReconnects + 1 - n
  {
    if n > maxReconnects || connect(n, header).None? then Watched(seen, FellBack, n)
    else
      var read := Consume(connect(n, header).value, seen, header, phaseOf);
      if read.stop.Some? then Watched(read.yielded, read.stop.value, n + 1)
      else WatchFrom(connect, phaseOf, maxReconnects, n + 1, read.yielded, read.lastEventId)
  }

  /** Where the loop stands before connection `n`, and what it may end with. */
  type Standing = (nat, seq<Progress>, Option<string>) -> bool
  type Conclusion = Watched -> bool

  /** From where the loop stands, one more turn ends it well or leaves it standing well. */
  predicate TurnsWell(connect: Connect, phaseOf: string -> Phase, maxReconnects: nat, stands: Standing, ends: Conclusion,
                      n: nat, seen: seq<Progress>, header: Option<string>) {
    if n > maxReconnects || connect(n, header).None? then ends(Watched(seen, FellBack, n))
    else
      var read := Consume(connect(n, header).value, seen, header, phaseOf);
      if read.stop.Some? then ends(Watched(read.yielded, read.stop.value, n + 1))
      else stands(n + 1, read.yielded, read.lastEventId)
  }

  /** The rule for the loop. */
  lemma {:induction false} WatchingEndsWell(connect: Connect, phaseOf: string -> Phase, maxReconnects: nat, stands: Standing,
                                            ends: Conclusion, n: nat, seen: seq<Progress>, header: Option<string>)
    requires stands(n, seen, header)
    requires forall k: nat, s, h | stands(k, s, h) :: TurnsWell(connect, phaseOf, maxReconnects, stands, ends, k, s, h)
    ensures ends(WatchFrom(connect, phaseOf, maxReconnects, n, seen, header))
    decreases maxReconnects + 1 - n
  {
    assert TurnsWell(connect, phaseOf, maxReconnects, stands, ends, n, seen, header);
    if n <= maxReconnects && connect(n, header).Some? {
      var read := Consume(connect(n, header).value, seen, header, phaseOf);
      if read.stop.None? {
        WatchingEndsWell(connect, phaseOf, maxReconnects, stands, ends, n + 1, read.yielded, read.lastEventId);
      }
    }
  }

  // ---- What there is to read ----

  /** What the events of one connection stand for, whatever they say. */
  function ProgressIn(events: seq<S.SseEvent>): seq<Progress> {
    if events == [] then []
    else
      var last := events[|events| - 1];
      ProgressIn(events[..|events| - 1]) + [Progress(last.id, last.data)]
  }

  function HeaderOf(seen: seq<Progress>): Option<string> {
    if seen == [] then None else seen[|seen| - 1].id
  }

  /** All that the connections before number `n` deliver, each asked for after the last event of
      those before it. */
  function ReadOn(connect: Connect, n: nat): seq<Progress> {
    if n == 0 then []
    else
      var before := ReadOn(connect, n - 1);
      var next := connect(n - 1, HeaderOf(before));
      if next.None? then before else before + ProgressIn(next.value)
  }

  predicate Opens(connect: Connect, n: nat) {
    connect(n, HeaderOf(ReadOn(connect, n))).Some?
  }

  predicate AllOpen(connect: Connect, n: nat) {
    forall i | 0 <= i < n :: Opens(connect, i)
  }

  /** So many connections were read, each to its end, and no others; reading stopped only because one
      was refused or no more may be made, unless it ended by itself. */
  predicate ReadThem(connect: Connect, maxReconnects: nat, yielded: seq<Progress>, fellBack: bool, connections: nat) {
    && connections <= maxReconnects + 1 && AllOpen(connect, connections)
    && yielded == ReadOn(connect, connections)
    && (fellBack ==> connections == maxReconnects + 1 || !Opens(connect, connections))
  }

  lemma OneConnectionMore(connect: Connect, n: nat)
    requires AllOpen(connect, n) && Opens(connect, n)
    ensures AllOpen(connect, n + 1)
    ensures ReadOn(connect, n + 1) == ReadOn(connect, n) + ProgressIn(connect(n, HeaderOf(ReadOn(connect, n))).value)
  {
  }

  /** The connections that may be made deliver a whole log that ends in a terminal phase, before one of
      them is refused. */
  ghost predicate IsDelivered(connect: Connect, maxReconnects: nat, log: seq<Event>) {
    && log != [] && Terminal(log[|log| - 1].phase)
    && exists n: nat :: DeliveredAfter(connect, maxReconnects, log, n)
  }

  predicate DeliveredAfter(connect: Connect, maxReconnects: nat, log: seq<Event>, n: nat) {
    n <= maxReconnects + 1 && AllOpen(connect, n) && |ReadOn(connect, n)| == |log|
  }

  lemma DeliveredIsYielded(connect: Connect, maxReconnects: nat, log: seq<Event>, yielded: seq<Progress>, fellBack: bool,
                           connections: nat)
    requires ReadThem(connect, maxReconnects, yielded, fellBack, connections) && |yielded| <= |log|
    requires !fellBack ==> |yielded| == |log|
    requires fellBack && yielded != [] ==> !Terminal(log[|yielded| - 1].phase)
    requires IsDelivered(connect, maxReconnects, log)
    ensures |yielded| == |log| && !fellBack
  {
    var n: nat :| DeliveredAfter(connect, maxReconnects, log, n);
    if fellBack {
      assert n <= connections;
      ReadingOnIsMonotone(connect, n, connections);
    }
  }

  lemma {:induction false} ReadingOnIsMonotone(connect: Connect, i: nat, j: nat)
    requires i <= j
    ensures |ReadOn(connect, i)| <= |ReadOn(connect, j)|
  {
    if i < j {
      ReadingOnIsMonotone(connect, i, j - 1);
    }
  }

  /** One connection suffices, however few may be made. */
  lemma OneConnectionSuffices(connect: Connect, maxReconnects: nat, log: seq<Event>)
    requires connect(0, None).Some? && |connect(0, None).value| == |log|
    requires log != [] && Terminal(log[|log| - 1].phase)
    ensures IsDelivered(connect, maxReconnects, log)
  {
    assert ReadOn(connect, 0) == [];
    assert Opens(connect, 0);
    OneForEachEvent(connect(0, None).value);
    assert DeliveredAfter(connect, maxReconnects, log, 1);
  }

  lemma {:induction false} OneForEachEvent(events: seq<S.SseEvent>)
    ensures |ProgressIn(events)| == |events|
    ensures forall i | 0 <= i < |events| :: ProgressIn(events)[i] == Progress(events[i].id, events[i].data)
  {
    if events != [] {
      OneForEachEvent(events[..|events| - 1]);
    }
  }
}
