/** One connection to the event stream of a migration: the backlog that the coordinator reads from
    the durable log and the broadcasts that it forwards after it. */
module EventStream {
  import opened Prelude
  import opened Decimal
  import opened Phases
  import opened Coordinator
  import CI = CoordinatorInvariants
  import SP = SsePrinter
  import S = Sse

  // ---- The last event id ----

  /** Integer.parse with nothing left over, and zero for everything else. */
  function ParseEventId(header: Option<string>): nat {
    if header.None? || header.value == "" then 0
    else
      var text := header.value;
      var signed := text[0] == '+' || text[0] == '-';
      var digits := if signed then text[1..] else text;
      if digits == "" || !AllDigits(digits) || text[0] == '-' then 0 else Parse(digits)
  }

  lemma EventIdRoundTrip(n: nat)
    ensures ParseEventId(Some(Print(n))) == n
  {
    ParseInvertsPrint(n);
    assert IsDigit(Print(n)[0]);
  }

  /** A header names the number its digits make, with or without a plus sign; anything else names none. */
  lemma EventIdIsExact(text: string)
    ensures ParseEventId(None) == 0
    ensures AllDigits(text) && text != "" ==> ParseEventId(Some(text)) == ParseEventId(Some("+" + text)) == Parse(text)
    ensures ParseEventId(Some(text)) > 0 ==>
              text != "" && AllDigits(text[1..]) && (IsDigit(text[0]) || (text[0] == '+' && |text| > 1))
  {
    assert ("+" + text)[1..] == text;
    if AllDigits(text) && text != "" {
      assert IsDigit(text[0]);
    }
  }

  // ---- The coordinator's side ----

  /** Events of the log with a number above `sequence`. */
  function EventsAfter(log: seq<Event>, sequence: nat): seq<Event> {
    if log == [] then []
    else
      EventsAfter(log[..|log| - 1], sequence)
      + (if log[|log| - 1].seqNo > sequence then [log[|log| - 1]] else [])
  }

  /** The loop that forwards broadcasts and drops what the backlog already sent. */
  function StreamEvents(mailbox: seq<Event>, sequence: nat): seq<Event> {
    if mailbox == [] then []
    else if mailbox[0].seqNo <= sequence then StreamEvents(mailbox[1..], sequence)
    else
      [mailbox[0]]
      + (if Terminal(mailbox[0].phase) then [] else StreamEvents(mailbox[1..], mailbox[0].seqNo))
  }

  /** How far the log was when the row was read, when the mailbox was subscribed, and when the
      backlog was read. */
  datatype Moments = Moments(row: nat, subscribed: nat, queried: nat)

  predicate InOrder(t: Moments, log: seq<Event>) {
    1 <= t.row <= t.queried <= |log| && t.subscribed <= t.queried
  }

  /** Everything one connection would send if it were never cut. */
  function Serve(log: seq<Event>, t: Moments, after: nat): seq<Event>
    requires InOrder(t, log)
  {
    var backlog := EventsAfter(log[..t.queried], after);
    var phase := if backlog == [] then log[t.row - 1].phase else backlog[|backlog| - 1].phase;
    var sequence := if backlog == [] then after else backlog[|backlog| - 1].seqNo;
    backlog + if Terminal(phase) then [] else StreamEvents(log[t.subscribed..], sequence)
  }

  ghost predicate IsDurable(log: seq<Event>) {
    exists row :: CI.GoodLog(log, row)
  }

  lemma OnlyTheLastIsTerminal(log: seq<Event>, i: nat)
    requires IsDurable(log) && i + 1 < |log|
    ensures !Terminal(log[i].phase)
  {
    var row :| CI.GoodLog(log, row);
    assert CanMove(CI.PhasesOf(log)[i], CI.PhasesOf(log)[i + 1]);
  }

  predicate Numbered(log: seq<Event>, from: nat) {
    forall i | 0 <= i < |log| :: log[i].seqNo == from + i + 1
  }

  lemma {:induction false} BacklogIsTheRest(log: seq<Event>, after: nat)
    requires Numbered(log, 0)
    ensures EventsAfter(log, after) == if after <= |log| then log[after..] else []
  {
    if log != [] {
      BacklogIsTheRest(log[..|log| - 1], after);
      if after < |log| {
        assert log[..|log| - 1][after..] + [log[|log| - 1]] == log[after..];
      }
    }
  }

  lemma {:induction false} BroadcastsAreTheRest(mailbox: seq<Event>, from: nat, sequence: nat)
    requires Numbered(mailbox, from) && from <= sequence <= from + |mailbox|
    requires forall i | 0 <= i < |mailbox| - 1 :: !Terminal(mailbox[i].phase)
    ensures StreamEvents(mailbox, sequence) == mailbox[sequence - from..]
  {
    if mailbox != [] {
      assert mailbox[0].seqNo == from + 1;
      var rest := mailbox[1..];
      assert Numbered(rest, from + 1);
      if sequence == from {
        if !Terminal(mailbox[0].phase) {
          BroadcastsAreTheRest(rest, from + 1, from + 1);
        }
        assert mailbox == [mailbox[0]] + rest;
      } else {
        BroadcastsAreTheRest(rest, from + 1, sequence);
        assert rest[sequence - (from + 1)..] == mailbox[sequence - from..];
      }
    }
  }

  lemma ForwardedAreTheRest(log: seq<Event>, subscribed: nat, sequence: nat)
    requires IsDurable(log) && subscribed <= sequence <= |log|
    ensures StreamEvents(log[subscribed..], sequence) == log[sequence..]
  {
    var row :| CI.GoodLog(log, row);
    var mailbox := log[subscribed..];
    forall i | 0 <= i < |mailbox| - 1 ensures !Terminal(mailbox[i].phase) {
      OnlyTheLastIsTerminal(log, subscribed + i);
    }
    BroadcastsAreTheRest(mailbox, subscribed, sequence);
    assert mailbox[sequence - subscribed..] == log[sequence..];
  }

  /** A client that names an event which the log does not have yet is sent nothing. */
  lemma NothingIsServedBeyondTheLog(log: seq<Event>, t: Moments, after: nat)
    requires IsDurable(log) && InOrder(t, log) && after > |log|
    ensures Serve(log, t, after) == []
  {
    var row :| CI.GoodLog(log, row);
    BacklogIsTheRest(log[..t.queried], after);
    OldIsDropped(log[t.subscribed..], after);
  }

  lemma {:induction false} OldIsDropped(mailbox: seq<Event>, sequence: nat)
    requires forall i | 0 <= i < |mailbox| :: mailbox[i].seqNo <= sequence
    ensures StreamEvents(mailbox, sequence) == []
  {
    if mailbox != [] {
      OldIsDropped(mailbox[1..], sequence);
    }
  }

  /** Wherever the log was when the row, the subscription and the backlog were made, a connection
      sends exactly the events after the one that the client names, each once and in order. */
  lemma ServeIsTheRest(log: seq<Event>, t: Moments, after: nat)
    requires IsDurable(log) && InOrder(t, log) && after <= |log|
    ensures Serve(log, t, after) == log[after..]
  {
    var row :| CI.GoodLog(log, row);
    BacklogIsTheRest(log[..t.queried], after);
    if after < t.queried {
      BacklogThenBroadcasts(log, t, after);
    } else {
      assert EventsAfter(log[..t.queried], after) == [];
      if Terminal(log[t.row - 1].phase) {
        if t.row < |log| {
          OnlyTheLastIsTerminal(log, t.row - 1);
        }
      } else {
        ForwardedAreTheRest(log, t.subscribed, after);
      }
    }
  }

  lemma BacklogThenBroadcasts(log: seq<Event>, t: Moments, after: nat)
    requires IsDurable(log) && InOrder(t, log) && after < t.queried
    requires EventsAfter(log[..t.queried], after) == log[..t.queried][after..]
    ensures Serve(log, t, after) == log[after..]
  {
    var row :| CI.GoodLog(log, row);
    var n := t.queried;
    var backlog := EventsAfter(log[..n], after);
    assert backlog == log[after..n] && backlog[|backlog| - 1] == log[n - 1];
    assert log[after..n] + log[n..] == log[after..];
    if Terminal(log[n - 1].phase) {
      if n < |log| {
        OnlyTheLastIsTerminal(log, n - 1);
      }
      assert log[n..] == [];
    } else {
      ForwardedAreTheRest(log, t.subscribed, n);
    }
  }

  // ---- The text of a connection ----

  function EventName(phase: Phase): string {
    if phase.Done? then "done"
    else if phase.Failed? || phase.RolledBack? || phase.OrphanedAmbiguous? then "error"
    else "progress"
  }

  function ItemOf(event: Event, payload: Event -> string): SP.Item {
    SP.Message(event.seqNo, EventName(event.phase), payload(event))
  }

  /** Some of the first events in order, with keep-alives anywhere. */
  predicate IsSent(items: seq<SP.Item>, events: seq<Event>, payload: Event -> string) {
    items == []
    || (items[0].KeepAlive? && IsSent(items[1..], events, payload))
    || (events != [] && items[0] == ItemOf(events[0], payload) && IsSent(items[1..], events[1..], payload))
  }

  function ReadBack(event: Event, payload: Event -> string): S.SseEvent {
    S.SseEvent(EventName(event.phase), payload(event), Some(Print(event.seqNo)), None)
  }

  /** The client reads a prefix of the events. */
  ghost predicate ArePrefix(read: seq<S.SseEvent>, events: seq<Event>, payload: Event -> string) {
    |read| <= |events| && forall i | 0 <= i < |read| :: read[i] == ReadBack(events[i], payload)
  }

  lemma {:induction false} SentIsReadBack(items: seq<SP.Item>, events: seq<Event>, payload: Event -> string)
    requires IsSent(items, events, payload)
    requires forall event :: SP.IsOneLine(payload(event))
    ensures ArePrefix(SP.SentEvents(items), events, payload)
    ensures forall item | item in items :: SP.IsPrintable(item)
  {
    if items != [] {
      if items[0].KeepAlive? && IsSent(items[1..], events, payload) {
        SentIsReadBack(items[1..], events, payload);
        assert SP.SentEvents(items) == SP.SentEvents(items[1..]);
      } else {
        SentIsReadBack(items[1..], events[1..], payload);
        var rest := SP.SentEvents(items[1..]);
        assert SP.SentEvents(items) == [ReadBack(events[0], payload)] + rest;
      }
    }
  }
}
