/**
 The account payment stream with cursor-based reconnection. Horizon is an append-only log whose paging
 tokens increase. A connection delivers the log in order from just after its cursor, breaks at most
 once, and is silent once closed.
 */
module HorizonStream {
  import opened Option

  datatype Event = Event(pagingToken: nat, transactionHash: string)

  /**
   `closed`, `last` and `timer` are variables of `streamAccountPayments`, and an open stream is the
   index of the log entry it delivers next. `delivered` is what `onEvent` received so far. A cursor
   that is the empty string counts as none.
   */
  datatype World = World(
    log: seq<Event>, closed: bool, last: Option<nat>, stream: Option<nat>, timer: bool, delivered: seq<Event>)

  datatype Step =
    | Publish(event: Event)            // a new payment lands on the ledger
    | Deliver                          // onmessage
    | Break(closeInHandler: bool)      // onerror; its onError callback may close the handle
    | Fire(from: nat)                  // the reconnect timer; `from` is where a connection without cursor starts
    | Close

  predicate Increasing(log: seq<Event>) {
    forall i, j :: 0 <= i < j < |log| ==> log[i].pagingToken < log[j].pagingToken
  }

  /** Where Horizon resumes: at the first entry whose token exceeds the cursor. */
  function After(log: seq<Event>, cursor: nat): (n: nat)
    ensures n <= |log|
    ensures n < |log| ==> cursor < log[n].pagingToken
    ensures forall i :: 0 <= i < n ==> log[i].pagingToken <= cursor
  {
    if log == [] || cursor < log[0].pagingToken then 0 else 1 + After(log[1..], cursor)
  }

  function Connect(w: World, from: nat): World {
    if w.closed then w
    else if w.last.Some? then w.(stream := Some(After(w.log, w.last.value)))
    else w.(stream := Some(if from <= |w.log| then from else |w.log|))
  }

  /** New entries come after everything in the log and after every cursor a client can hold. */
  predicate Fresh(w: World, e: Event) {
    && (forall i :: 0 <= i < |w.log| ==> w.log[i].pagingToken < e.pagingToken)
    && (w.last.Some? ==> w.last.value < e.pagingToken)
  }

  function Next(w: World, s: Step): World {
    match s
    case Publish(e) => if Fresh(w, e) then w.(log := w.log + [e]) else w
    case Deliver =>
      if w.stream.Some? && w.stream.value < |w.log| then
        var n := w.stream.value;
        w.(last := Some(w.log[n].pagingToken), delivered := w.delivered + [w.log[n]], stream := Some(n + 1))
      else w
    case Break(closeInHandler) =>
      if w.stream.None? then w
      else
        var closed := w.closed || closeInHandler;
        w.(closed := closed, stream := None, timer := !closed)
    case Fire(from) => if w.timer then Connect(w.(timer := false), from) else w
    case Close => w.(closed := true, stream := None, timer := false)
  }

  function Play(w: World, steps: seq<Step>): World
    decreases |steps|
  {
    if steps == [] then w else Play(Next(w, steps[0]), steps[1..])
  }

  /** The state in which `streamAccountPayments` returns its handle. */
  function Opened(log: seq<Event>, cursor: Option<nat>, from: nat): World {
    Connect(World(log, false, cursor, None, false, []), from)
  }

  /** The delivered events are the log entries from `first` on, without gap or repetition. */
  ghost predicate Segment(log: seq<Event>, first: nat, delivered: seq<Event>) {
    first + |delivered| <= |log| && forall i :: 0 <= i < |delivered| ==> delivered[i] == log[first + i]
  }

  /** A segment of the log, just after the cursor if there is one. */
  ghost predicate Contiguous(log: seq<Event>, delivered: seq<Event>, cursor: Option<nat>) {
    exists first: nat :: Segment(log, first, delivered) && (cursor.Some? ==> first == After(log, cursor.value))
  }

  /** `first` is the log index of the first event delivered, or where delivery will start. */
  ghost predicate Recorded(log: seq<Event>, delivered: seq<Event>, last: Option<nat>, cursor: Option<nat>, first: nat) {
    && Increasing(log)
    && Segment(log, first, delivered)
    && (delivered == [] ==> last == cursor)
    && (delivered != [] ==> last == Some(log[first + |delivered| - 1].pagingToken))
    && (cursor.Some? ==> first == After(log, cursor.value))
    && (cursor.Some? && last.Some? ==> cursor.value <= last.value)
  }

  /** An open stream delivers next what follows the last delivered event, or the cursor. */
  ghost predicate Positioned(w: World, cursor: Option<nat>, first: nat) {
    w.stream.Some? ==>
      && w.stream.value <= |w.log|
      && (w.delivered != [] || cursor.Some? ==> w.stream.value == first + |w.delivered|)
  }

  ghost predicate Inv(w: World, cursor: Option<nat>, first: nat) {
    && Recorded(w.log, w.delivered, w.last, cursor, first)
    && (if w.closed then w.stream.None? && !w.timer else w.stream.Some? <==> !w.timer)
    && Positioned(w, cursor, first)
  }

  /** Resuming after an entry of the log means resuming at the next one. */
  lemma {:induction false} AfterEntry(log: seq<Event>, i: nat)
    requires Increasing(log) && i < |log|
    ensures After(log, log[i].pagingToken) == i + 1
  {
    if i > 0 {
      assert log[1..][i - 1] == log[i];
      AfterEntry(log[1..], i - 1);
    }
  }

  /** New entries do not move the place where a cursor resumes. */
  lemma {:induction false} AfterStable(log: seq<Event>, e: Event, cursor: nat)
    requires cursor < e.pagingToken
    ensures After(log + [e], cursor) == After(log, cursor)
  {
    if log != [] && log[0].pagingToken <= cursor {
      assert (log + [e])[1..] == log[1..] + [e];
      AfterStable(log[1..], e, cursor);
    }
  }

  lemma ConnectResumes(w: World, cursor: Option<nat>, first: nat, from: nat)
    requires Inv(w, cursor, first) && w.stream.None? && w.timer
    ensures Inv(Connect(w.(timer := false), from), cursor, first)
  {
    if w.delivered != [] || cursor.Some? {
      ResumesInPlace(w.log, w.delivered, w.last, cursor, first);
    }
  }

  /** The cursor kept by the handle resumes exactly where delivery stopped. */
  lemma ResumesInPlace(log: seq<Event>, delivered: seq<Event>, last: Option<nat>, cursor: Option<nat>, first: nat)
    requires Recorded(log, delivered, last, cursor, first) && (delivered != [] || cursor.Some?)
    ensures last.Some? && After(log, last.value) == first + |delivered|
  {
    if delivered != [] {
      AfterEntry(log, first + |delivered| - 1);
    }
  }

  lemma PublishKeeps(w: World, cursor: Option<nat>, first: nat, e: Event)
    requires Inv(w, cursor, first)
    ensures Inv(Next(w, Publish(e)), cursor, first)
  {
    if cursor.Some? && Fresh(w, e) {
      AfterStable(w.log, e, cursor.value);
    }
  }

  lemma SegmentGrows(log: seq<Event>, first: nat, delivered: seq<Event>)
    requires Segment(log, first, delivered) && first + |delivered| < |log|
    ensures Segment(log, first, delivered + [log[first + |delivered|]])
  {
  }

  lemma RecordedGrows(log: seq<Event>, delivered: seq<Event>, last: Option<nat>, cursor: Option<nat>, first: nat)
    requires Recorded(log, delivered, last, cursor, first) && first + |delivered| < |log|
    ensures var next := log[first + |delivered|];
            Recorded(log, delivered + [next], Some(next.pagingToken), cursor, first)
  {
    SegmentGrows(log, first, delivered);
  }

  lemma DeliverKeeps(w: World, cursor: Option<nat>, first: nat)
    requires Inv(w, cursor, first)
    ensures Inv(Next(w, Deliver), cursor, if w.delivered == [] && w.stream.Some? then w.stream.value else first)
  {
    if w.stream.Some? && w.stream.value < |w.log| {
      var start := if w.delivered == [] then w.stream.value else first;
      assert w.stream.value == start + |w.delivered|;
      RecordedGrows(w.log, w.delivered, w.last, cursor, start);
    }
  }

  /** The first event may fix `first`; from then on it stays. */
  lemma NextKeeps(w: World, cursor: Option<nat>, first: nat, s: Step) returns (first': nat)
    requires Inv(w, cursor, first)
    ensures Inv(Next(w, s), cursor, first')
    ensures w.delivered != [] || cursor.Some? ==> first' == first
  {
    first' := first;
    match s {
      case Publish(e) => PublishKeeps(w, cursor, first, e);
      case Deliver =>
        DeliverKeeps(w, cursor, first);
        if w.delivered == [] && w.stream.Some? {
          first' := w.stream.value;
        }
      case Fire(from) =>
        if w.timer {
          ConnectResumes(w, cursor, first, from);
        }
      case _ =>
    }
  }

  lemma {:induction false} PlayKeeps(w: World, cursor: Option<nat>, first: nat, steps: seq<Step>) returns (first': nat)
    requires Inv(w, cursor, first)
    ensures Inv(Play(w, steps), cursor, first')
    ensures w.delivered != [] || cursor.Some? ==> first' == first
    decreases |steps|
  {
    if steps == [] {
      first' := first;
    } else {
      var next := NextKeeps(w, cursor, first, steps[0]);
      first' := PlayKeeps(Next(w, steps[0]), cursor, next, steps[1..]);
    }
  }

  /**
   Over any run of deliveries, errors, reconnects and publications, `onEvent` has received a
   contiguous, duplicate-free segment of the log, starting just after the initial cursor if there is
   one. Until the handle is closed there is exactly one open stream or one pending timer, and
   afterwards neither.
   */
  lemma GapFree(log: seq<Event>, cursor: Option<nat>, from: nat, steps: seq<Step>)
    requires Increasing(log)
    ensures var w := Play(Opened(log, cursor, from), steps);
            && Contiguous(w.log, w.delivered, cursor)
            && (forall i, j :: 0 <= i < j < |w.delivered| ==> w.delivered[i].pagingToken < w.delivered[j].pagingToken)
            && (if w.closed then w.stream.None? && !w.timer else w.stream.Some? <==> !w.timer)
  {
    var w0 := Opened(log, cursor, from);
    var first := PlayKeeps(w0, cursor, if cursor.Some? then After(log, cursor.value) else 0, steps);
    var w := Play(w0, steps);
    assert Segment(w.log, first, w.delivered);
  }

  /** Once closed, a handle delivers nothing more and opens nothing more. */
  lemma {:induction false} ClosedIsFinal(w: World, steps: seq<Step>)
    requires w.closed && w.stream.None? && !w.timer
    ensures var w' := Play(w, steps);
            w'.closed && w'.stream.None? && !w'.timer && w'.delivered == w.delivered
    decreases |steps|
  {
    if steps != [] {
      ClosedIsFinal(Next(w, steps[0]), steps[1..]);
    }
  }

  function Deliveries(k: nat): seq<Step> { if k == 0 then [] else [Deliver] + Deliveries(k - 1) }

  lemma {:induction false} CatchesUp(w: World, cursor: Option<nat>, first: nat, k: nat)
    requires Inv(w, cursor, first) && w.stream.Some? && w.stream.value == first + |w.delivered| && k <= |w.log| - w.stream.value
    ensures var w' := Play(w, Deliveries(k));
            w'.log == w.log && |w'.delivered| == |w.delivered| + k && Segment(w.log, first, w'.delivered)
    decreases k
  {
    if k > 0 {
      assert Deliveries(k)[1..] == Deliveries(k - 1);
      DeliverKeeps(w, cursor, first);
      CatchesUp(Next(w, Deliver), cursor, first, k - 1);
    }
  }

  /** Everything in the log from `first` on has been delivered. */
  ghost predicate HandedOn(log: seq<Event>, first: nat, delivered: seq<Event>) {
    Segment(log, first, delivered) && first + |delivered| == |log|
  }

  /** An open handle has a stream, at once or after its timer, and it is at the place where delivery stopped. */
  lemma FireResumes(w: World, cursor: Option<nat>, first: nat, at: nat) returns (w1: World, start: nat)
    requires Inv(w, cursor, first) && !w.closed
    ensures w1 == if w.timer then Next(w, Fire(at)) else w
    ensures Inv(w1, cursor, start) && w1.log == w.log && w1.delivered == w.delivered
    ensures w1.stream == Some(start + |w.delivered|)
    ensures w.delivered != [] || cursor.Some? ==> start == first
  {
    w1 := w;
    if w.timer {
      w1 := Next(w, Fire(at));
      ConnectResumes(w, cursor, first, at);
    }
    start := if w.delivered == [] && cursor.None? then w1.stream.value else first;
  }

  lemma MissingArrive(w: World, cursor: Option<nat>, first: nat, missing: nat)
    requires Inv(w, cursor, first) && w.stream == Some(first + |w.delivered|)
    requires first + |w.delivered| + missing == |w.log|
    ensures HandedOn(w.log, first, Play(w, Deliveries(missing)).delivered)
  {
    CatchesUp(w, cursor, first, missing);
  }

  lemma AllArrive(w: World, cursor: Option<nat>, first: nat, at: nat) returns (start: nat)
    requires Inv(w, cursor, first) && !w.closed
    ensures var w1 := if w.timer then Next(w, Fire(at)) else w;
            && w1.stream == Some(start + |w.delivered|) && start + |w.delivered| <= |w.log|
            && HandedOn(w.log, start, Play(w1, Deliveries(|w.log| - start - |w.delivered|)).delivered)
    ensures w.delivered != [] || cursor.Some? ==> start == first
  {
    var w1;
    w1, start := FireResumes(w, cursor, first, at);
    MissingArrive(w1, cursor, start, |w.log| - start - |w.delivered|);
  }

  /** Where the segment of a reachable state starts. */
  lemma SegmentStart(w: World, cursor: Option<nat>, first: nat)
    requires Inv(w, cursor, first)
    ensures cursor.Some? ==> first == After(w.log, cursor.value)
    ensures w.delivered != [] ==> first < |w.log| && w.log[first] == w.delivered[0]
  {
  }

  /**
   No event is lost to a gap. From any reachable open state the pending reconnect, if there is one,
   and one delivery for every entry from the stream's position on hand on the whole log from `start`.
   That is just after the cursor if there was one, the first event delivered if there was any, and
   otherwise, with nothing to resume from, wherever Horizon starts the connection.
   */
  lemma NothingIsLost(log: seq<Event>, cursor: Option<nat>, from: nat, steps: seq<Step>, at: nat) returns (start: nat)
    requires Increasing(log) && !Play(Opened(log, cursor, from), steps).closed
    ensures var w := Play(Opened(log, cursor, from), steps);
            var w1 := if w.timer then Next(w, Fire(at)) else w;
            && w1.stream.Some? && w1.stream.value <= |w.log|
            && HandedOn(w.log, start, Play(w1, Deliveries(|w.log| - w1.stream.value)).delivered)
            && (cursor.Some? ==> start == After(w.log, cursor.value))
            && (w.delivered != [] ==> start < |w.log| && w.log[start] == w.delivered[0])
            && (cursor.None? && w.delivered == [] ==> start == w1.stream.value)
  {
    var w0 := Opened(log, cursor, from);
    var first := PlayKeeps(w0, cursor, if cursor.Some? then After(log, cursor.value) else 0, steps);
    var w := Play(w0, steps);
    start := AllArrive(w, cursor, first, at);
    SegmentStart(w, cursor, first);
  }

  /**
   The last case does lose events: if a handle without cursor loses its connection before anything
   arrived and reconnects at the end of the log, what was published in between never arrives.
   */
  lemma ColdReconnectSkips(log: seq<Event>, e: Event, from: nat)
    requires Increasing(log) && forall i :: 0 <= i < |log| ==> log[i].pagingToken < e.pagingToken
    ensures var w := Play(Opened(log, None, from), [Break(false)] + ([Publish(e)] + ([Fire(|log| + 1)] + [])));
            w.log == log + [e] && w.stream == Some(|log| + 1) && w.delivered == []
  {
    var w0 := Opened(log, None, from);
    var w1 := Next(w0, Break(false));
    var w2 := Next(w1, Publish(e));
    PlayOne(w2, Fire(|log| + 1), []);
    PlayOne(w1, Publish(e), [Fire(|log| + 1)] + []);
    PlayOne(w0, Break(false), [Publish(e)] + ([Fire(|log| + 1)] + []));
  }

  lemma PlayOne(w: World, s: Step, rest: seq<Step>)
    ensures Play(w, [s] + rest) == Play(Next(w, s), rest)
  {
    assert ([s] + rest)[1..] == rest;
  }

  // ---------- the handle in the source's own form ----------

  /** The closure variables of `streamAccountPayments`, updated by its callbacks. */
  class PaymentStream {
    var log: seq<Event>
    var closed: bool
    var lastPagingToken: Option<nat>
    var stream: Option<nat>
    var reconnectTimer: bool
    var delivered: seq<Event>

    ghost function Abs(): World
      reads this
    {
      World(log, closed, lastPagingToken, stream, reconnectTimer, delivered)
    }

    constructor (log: seq<Event>, cursor: Option<nat>, from: nat)
      ensures Abs() == Opened(log, cursor, from)
    {
      this.log, closed, lastPagingToken, stream, reconnectTimer, delivered := log, false, cursor, None, false, [];
      new;
      ConnectNow(from);
    }

    method ConnectNow(from: nat)
      modifies this`stream
      ensures Abs() == Connect(old(Abs()), from)
    {
      if closed {
        return;
      }
      var start := if from <= |log| then from else |log|;
      if lastPagingToken.Some? {
        start := After(log, lastPagingToken.value);
      }
      stream := Some(start);
    }

    method CloseCurrentStream()
      modifies this`stream
      ensures stream == None
    {
      stream := None;
    }

    method OnMessage()
      modifies this
      ensures Abs() == Next(old(Abs()), Deliver)
    {
      if stream.Some? && stream.value < |log| {
        var event := log[stream.value];
        stream := Some(stream.value + 1);
        lastPagingToken := Some(event.pagingToken);
        delivered := delivered + [event];
      }
    }

    method OnError(closeInHandler: bool)
      modifies this
      ensures Abs() == Next(old(Abs()), Break(closeInHandler))
    {
      if stream.None? {
        return;
      }
      if closeInHandler {
        CloseHandle();
      }
      CloseCurrentStream();
      if !closed {
        reconnectTimer := true;
      } else {
        reconnectTimer := false;
      }
    }

    method TimerFires(from: nat)
      modifies this
      ensures Abs() == Next(old(Abs()), Fire(from))
    {
      if reconnectTimer {
        reconnectTimer := false;
        ConnectNow(from);
      }
    }

    method CloseHandle()
      modifies this
      ensures Abs() == Next(old(Abs()), Close)
    {
      closed := true;
      if reconnectTimer {
        reconnectTimer := false;
      }
      CloseCurrentStream();
    }
  }
}
