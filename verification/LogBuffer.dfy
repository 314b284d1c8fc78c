/**
 The buffered log handler: emitters enqueue under the handler's lock, one
 writer thread takes lines off the queue and writes them, and a shutdown drops
 what is still queued at its deadline.
 */
module LogBuffer {
  const MAX_LINE_BYTES: nat := 16_384

  // What formatting a record gives; `bytes` is the length of the text in UTF-8.
  datatype Formatted = Unformattable | Line(text: string, bytes: nat)

  // A queued line with the number of the emit call it came from.
  datatype Entry = Entry(number: nat, text: string)

  datatype Writer =
    | NeverStarted
    | Checking                            // at the loop's condition
    | Polling                             // waiting for a line
    | Writing(entry: Entry)
    | Recording(entry: Entry, failed: bool) // about to count the result under the lock
    | Stopped

  /** `emitted` counts emit calls and `output` lists the calls whose lines were counted as written. */
  datatype Handler = Handler(
    capacity: nat,
    queue: seq<Entry>,
    stopping: bool,
    draining: bool, // shutdown holds the lock and empties the queue
    drained: bool,
    writer: Writer,
    written: nat,
    dropped: nat,
    writeFailures: nat,
    formatFailures: nat,
    emitted: nat,
    output: seq<nat>
  )

  function Started(capacity: nat, threadStarts: bool): Handler {
    Handler(capacity, [], !threadStarts, false, false, if threadStarts then Checking else NeverStarted,
            0, 0, if threadStarts then 0 else 1, 0, 0, [])
  }

  function AfterEmit(h: Handler, record: Formatted): (h': Handler)
    ensures h'.emitted == h.emitted + 1
  {
    var counted := h.(emitted := h.emitted + 1);
    if h.stopping then counted.(dropped := h.dropped + 1)
    else if record.Unformattable? then counted.(formatFailures := h.formatFailures + 1)
    else if record.bytes > MAX_LINE_BYTES || |h.queue| >= h.capacity then counted.(dropped := h.dropped + 1)
    else counted.(queue := h.queue + [Entry(h.emitted, record.text)])
  }

  function AfterCheck(h: Handler): Handler {
    h.(writer := if h.stopping && h.queue == [] then Stopped else Polling)
  }

  function AfterPoll(h: Handler): (h': Handler)
    ensures h'.emitted == h.emitted
  {
    if h.queue == [] then h.(writer := Checking) else h.(queue := h.queue[1..], writer := Writing(h.queue[0]))
  }

  function AfterRecord(h: Handler): (h': Handler)
    requires h.writer.Recording?
    ensures h'.emitted == h.emitted
  {
    if h.writer.failed then h.(writer := Checking, writeFailures := h.writeFailures + 1)
    else h.(writer := Checking, written := h.written + 1, output := h.output + [h.writer.entry.number])
  }

  function AfterDrainOne(h: Handler): (h': Handler)
    ensures h'.emitted == h.emitted
  {
    if h.queue == [] then h.(draining := false, drained := true)
    else h.(queue := h.queue[1..], dropped := h.dropped + 1)
  }

  // ----- the handler's own state, changed in place -----

  class BufferedLogHandler {
    const capacity: nat
    var queue: seq<Entry>
    var stopping: bool
    var draining: bool
    var drained: bool
    var writer: Writer
    var written: nat
    var dropped: nat
    var writeFailures: nat
    var formatFailures: nat
    var emitted: nat
    var output: seq<nat>

    function Contents(): Handler
      reads this
    {
      Handler(capacity, queue, stopping, draining, drained, writer, written, dropped, writeFailures, formatFailures, emitted,
              output)
    }

    constructor (size: nat, threadStarts: bool)
      requires 1 <= size <= 10_000
      ensures Contents() == Started(size, threadStarts)
    {
      capacity, queue, stopping, draining, drained := size, [], false, false, false;
      written, dropped, writeFailures, formatFailures, emitted, output := 0, 0, 0, 0, 0, [];
      writer := Checking;
      new;
      if !threadStarts {
        writeFailures := writeFailures + 1;
        stopping := true;
        writer := NeverStarted;
      }
    }

    method Emit(record: Formatted)
      modifies this
      ensures Contents() == AfterEmit(old(Contents()), record)
      ensures var fits := record.Line? && record.bytes <= MAX_LINE_BYTES && |old(queue)| < capacity;
              && queue == (if !old(stopping) && fits then old(queue) + [Entry(old(emitted), record.text)] else old(queue))
              && formatFailures == old(formatFailures) + (if !old(stopping) && record.Unformattable? then 1 else 0)
              && dropped == old(dropped) + (if old(stopping) || (record.Line? && !fits) then 1 else 0)
      ensures emitted == old(emitted) + 1 && unchanged(`stopping, `draining, `drained, `writer, `written, `writeFailures, `output)
    {
      var number := emitted;
      emitted := emitted + 1;
      if stopping {
        dropped := dropped + 1;
        return;
      }
      match record {
        case Unformattable =>
          formatFailures := formatFailures + 1;
        case Line(text, bytes) =>
          if bytes > MAX_LINE_BYTES {
            dropped := dropped + 1;
            return;
          }
          if |queue| >= capacity {
            dropped := dropped + 1;
          } else {
            queue := queue + [Entry(number, text)];
          }
      }
    }

    /** The body of the write loop when a line is queued: it is taken, written and counted. */
    method WriteOne(sinkFails: bool)
      requires writer == Checking && queue != [] && !draining
      modifies this
      ensures Contents() == Pass(old(Contents()), sinkFails)
      ensures queue == old(queue)[1..] && writer == Checking && stopping == old(stopping) && draining == old(draining)
    {
      var entry := queue[0];
      queue := queue[1..];
      if sinkFails {
        writeFailures := writeFailures + 1;
      } else {
        written := written + 1;
        output := output + [entry.number];
      }
      writer := Checking;
    }

    /**
     The write loop once the handler is closed and nobody drains it: every line
     still queued is handed to the sink in order, and then the thread stops.
     `sinkFails` says of each of them whether its write raises.
     */
    method WriteLoop(sinkFails: seq<bool>)
      requires writer == Checking && stopping && !draining && |sinkFails| == |queue|
      modifies this
      ensures Contents() == AfterCheck(Passes(old(Contents()), sinkFails))
      ensures queue == [] && writer == Stopped
    {
      hide Pass, Passes;
      ghost var start := Contents();
      var k := 0;
      NoPass(start, sinkFails);
      while queue != []
        invariant k + |queue| == |sinkFails| && writer == Checking && stopping && !draining
        invariant Contents() == Passes(start, sinkFails[..k])
        decreases |queue|
      {
        NextPass(start, sinkFails, k);
        WriteOne(sinkFails[k]);
        k := k + 1;
      }
      assert sinkFails[..k] == sinkFails;
      writer := Stopped;
    }

    /** The writer thread taking a line, if it is waiting for one. */
    method Poll()
      modifies this
      ensures Contents() == Step(old(Contents()), Event.Poll)
    {
      if writer == Polling {
        if queue == [] {
          writer := Checking;
        } else {
          writer := Writing(queue[0]);
          queue := queue[1..];
        }
      }
    }

    /**
     The drop loop at the end of a shutdown.  Before each line it takes, the
     writer thread may take one itself, as `steals` says; whatever the writer
     leaves is counted as dropped, and none of it is written.
     */
    method Drain(steals: seq<bool>) returns (rounds: nat)
      requires stopping && draining
      modifies this
      ensures Contents() == Run(old(Contents()), DrainEvents(steals, rounds))
      ensures queue == [] && drained && !draining
      ensures dropped - old(dropped) + |InFlight(Contents())| == |old(queue)| + |InFlight(old(Contents()))|
    {
      hide Run, DrainEvents, InFlight, Step;
      ghost var start := Contents();
      rounds := 0;
      NoRounds(start, steals);
      while draining
        invariant stopping && Contents() == Run(start, DrainEvents(steals, rounds))
        invariant dropped - start.dropped + |queue| + |InFlight(Contents())| == |start.queue| + |InFlight(start)|
        invariant !draining ==> queue == [] && drained
        decreases draining, |queue|
      {
        RoundStep(start, steals, rounds);
        DrainRound(rounds < |steals| && steals[rounds]);
        rounds := rounds + 1;
      }
    }

    /** One round: the writer may take a line, then the drain takes one or finds the queue empty and ends. */
    method DrainRound(steal: bool)
      requires stopping && draining
      modifies this
      ensures var h := old(Contents()); Contents() == Step(if steal then Step(h, Event.Poll) else h, DrainOne)
      ensures stopping && (if draining then |queue| < |old(queue)| else queue == [] && drained)
      ensures dropped - old(dropped) + |queue| + |InFlight(Contents())| == |old(queue)| + |InFlight(old(Contents()))|
    {
      if steal {
        Poll();
      }
      if queue == [] {
        draining, drained := false, true;
      } else {
        queue := queue[1..];
        dropped := dropped + 1;
      }
    }
  }

  // ----- all interleavings -----

  datatype Event =
    | Emit(record: Formatted)
    | Check
    | Poll
    | Sink(failed: bool)
    | Record
    | Close
    | StartDrain // a shutdown's deadline, or the end of the writer
    | DrainOne

  function Step(h: Handler, e: Event): Handler {
    match e
    case Emit(record) => if h.draining then h else AfterEmit(h, record) // an emitter waits for the lock
    case Check => if h.writer.Checking? then AfterCheck(h) else h
    case Poll => if h.writer.Polling? then AfterPoll(h) else h
    case Sink(failed) => if h.writer.Writing? then h.(writer := Recording(h.writer.entry, failed)) else h
    case Record => if h.writer.Recording? && !h.draining then AfterRecord(h) else h
    case Close => if h.draining then h else h.(stopping := true)
    case StartDrain => if h.stopping then h.(draining := true) else h
    case DrainOne => if h.draining then AfterDrainOne(h) else h
  }

  function Run(h: Handler, events: seq<Event>): Handler
    decreases |events|
  {
    if events == [] then h else Run(Step(h, events[0]), events[1..])
  }

  lemma {:induction false} RunInParts(h: Handler, first: seq<Event>, second: seq<Event>)
    ensures Run(h, first + second) == Run(Run(h, first), second)
    decreases |first|
  {
    if first == [] {
      assert first + second == second;
    } else {
      assert (first + second)[1..] == first[1..] + second;
      RunInParts(Step(h, first[0]), first[1..], second);
    }
  }

  /** One turn of the write loop's body around a queued line. */
  function Pass(h: Handler, sinkFails: bool): Handler {
    Step(Step(Step(Step(h, Check), Poll), Sink(sinkFails)), Record)
  }

  function Passes(h: Handler, sinkFails: seq<bool>): Handler {
    if sinkFails == [] then h else Pass(Passes(h, sinkFails[..|sinkFails| - 1]), sinkFails[|sinkFails| - 1])
  }

  lemma NoPass(h: Handler, sinkFails: seq<bool>)
    ensures Passes(h, sinkFails[..0]) == h
  {
  }

  lemma NextPass(h: Handler, sinkFails: seq<bool>, k: nat)
    requires k < |sinkFails|
    ensures Passes(h, sinkFails[..k + 1]) == Pass(Passes(h, sinkFails[..k]), sinkFails[k])
  {
    var longer := sinkFails[..k + 1];
    assert longer[..|longer| - 1] == sinkFails[..k] && longer[|longer| - 1] == sinkFails[k];
  }

  /** An undisturbed writer with a working sink delivers every queued line, in order, and drops none. */
  lemma {:induction false} PassesDeliver(h: Handler, sinkFails: seq<bool>)
    requires h.writer.Checking? && !h.draining && |sinkFails| <= |h.queue|
    requires forall k :: 0 <= k < |sinkFails| ==> !sinkFails[k]
    ensures var done := Passes(h, sinkFails);
            && done.output == h.output + Numbers(h.queue)[..|sinkFails|] && done.queue == h.queue[|sinkFails|..]
            && done.writer.Checking? && !done.draining && done.dropped == h.dropped && done.writeFailures == h.writeFailures
            && done.written == h.written + |sinkFails|
  {
    if sinkFails == [] {
      assert h.output + [] == h.output && h.queue[0..] == h.queue;
    } else {
      var last := |sinkFails| - 1;
      PassesDeliver(h, sinkFails[..last]);
      PassDelivers(Passes(h, sinkFails[..last]));
      hide Pass, Numbers;
      assert h.queue[last..][1..] == h.queue[last + 1..];
      assert Numbers(h.queue)[..last] + [Numbers(h.queue)[last]] == Numbers(h.queue)[..last + 1];
    }
  }

  lemma PassDelivers(h: Handler)
    requires h.writer.Checking? && !h.draining && h.queue != []
    ensures Pass(h, false) == h.(queue := h.queue[1..], output := h.output + [h.queue[0].number], written := h.written + 1)
  {
  }

  /** The steps of a drain: in each round the writer may take a line first, then the drain takes one. */
  function DrainEvents(steals: seq<bool>, rounds: nat): seq<Event> {
    if rounds == 0 then []
    else DrainEvents(steals, rounds - 1) + (if rounds <= |steals| && steals[rounds - 1] then [Poll] else []) + [DrainOne]
  }

  lemma NoRounds(start: Handler, steals: seq<bool>)
    ensures Run(start, DrainEvents(steals, 0)) == start
  {
  }

  lemma RoundStep(start: Handler, steals: seq<bool>, rounds: nat)
    ensures var before := Run(start, DrainEvents(steals, rounds));
            Run(start, DrainEvents(steals, rounds + 1))
            == Step(if rounds < |steals| && steals[rounds] then Step(before, Poll) else before, DrainOne)
  {
    var own := if rounds < |steals| && steals[rounds] then [Poll] else [];
    hide Step;
    assert DrainEvents(steals, rounds + 1) == DrainEvents(steals, rounds) + (own + [DrainOne]);
    RunInParts(start, DrainEvents(steals, rounds), own + [DrainOne]);
    var before := Run(start, DrainEvents(steals, rounds));
    if rounds < |steals| && steals[rounds] {
      assert own + [DrainOne] == [Poll, DrainOne] && [Poll, DrainOne][1..] == [DrainOne] && [DrainOne][1..] == [];
      assert Run(Step(before, Poll), [DrainOne]) == Step(Step(before, Poll), DrainOne);
    } else {
      assert own + [DrainOne] == [DrainOne] && [DrainOne][1..] == [];
    }
  }

  function InFlight(h: Handler): seq<nat> {
    if h.writer.Writing? || h.writer.Recording? then [h.writer.entry.number] else []
  }

  function Numbers(entries: seq<Entry>): (numbers: seq<nat>)
    ensures |numbers| == |entries| && forall i :: 0 <= i < |entries| ==> numbers[i] == entries[i].number
  {
    seq(|entries|, i requires 0 <= i < |entries| => entries[i].number)
  }

  /** Every line that was or may still be written, in the order the writer takes them. */
  function Flow(h: Handler): seq<nat> {
    h.output + InFlight(h) + Numbers(h.queue)
  }

  ghost predicate InOrder(s: seq<nat>, below: nat) {
    && (forall i, j :: 0 <= i < j < |s| ==> s[i] < s[j])
    && (forall i :: 0 <= i < |s| ==> s[i] < below)
  }

  ghost predicate Conserved(h: Handler) {
    var startFailures := if h.writer.NeverStarted? then 1 else 0;
    h.emitted + startFailures
    == h.written + h.dropped + h.formatFailures + h.writeFailures + |h.queue| + |InFlight(h)|
  }

  ghost predicate Sound(h: Handler) {
    && Conserved(h) && InOrder(Flow(h), h.emitted) && |h.output| == h.written && |h.queue| <= h.capacity
    && (h.draining || h.drained || h.writer.NeverStarted? ==> h.stopping)
    && (h.writer.NeverStarted? || h.drained ==> h.queue == [])
  }

  lemma OrderKept(s: seq<nat>, s': seq<nat>, below: nat, gone: nat)
    requires InOrder(s, below) && gone < |s| && s' == s[..gone] + s[gone + 1..]
    ensures InOrder(s', below)
  {
  }

  lemma EmitFlow(h: Handler, record: Formatted)
    requires InOrder(Flow(h), h.emitted)
    ensures InOrder(Flow(AfterEmit(h, record)), h.emitted + 1)
  {
    var h' := AfterEmit(h, record);
    if h'.queue != h.queue {
      assert Numbers(h'.queue) == Numbers(h.queue) + [h.emitted];
      assert Flow(h') == Flow(h) + [h.emitted];
    }
  }

  lemma PollFlow(h: Handler)
    requires h.writer.Polling?
    ensures Flow(AfterPoll(h)) == Flow(h)
  {
    if h.queue != [] {
      NumbersSplit(h.queue);
    }
    hide Numbers;
  }

  lemma NumbersSplit(entries: seq<Entry>)
    requires entries != []
    ensures Numbers(entries) == [entries[0].number] + Numbers(entries[1..])
  {
  }

  lemma RecordFlow(h: Handler)
    requires InOrder(Flow(h), h.emitted) && h.writer.Recording?
    ensures InOrder(Flow(AfterRecord(h)), h.emitted)
  {
    if h.writer.failed {
      OrderKept(Flow(h), Flow(AfterRecord(h)), h.emitted, |h.output|);
    } else {
      assert Flow(AfterRecord(h)) == Flow(h);
    }
  }

  lemma DrainDropsHead(h: Handler)
    requires h.queue != []
    ensures var k := |h.output| + |InFlight(h)|;
            k < |Flow(h)| && Flow(AfterDrainOne(h)) == Flow(h)[..k] + Flow(h)[k + 1..]
  {
    var ahead := h.output + InFlight(h);
    assert Numbers(h.queue) == [h.queue[0].number] + Numbers(h.queue[1..]);
    assert InFlight(AfterDrainOne(h)) == InFlight(h);
    hide InFlight, Numbers;
    assert Flow(h) == ahead + [h.queue[0].number] + Numbers(h.queue[1..]);
  }

  lemma DrainFlow(h: Handler)
    requires InOrder(Flow(h), h.emitted)
    ensures InOrder(Flow(AfterDrainOne(h)), h.emitted)
  {
    hide Flow, InOrder, InFlight;
    if h.queue != [] {
      DrainDropsHead(h);
      OrderKept(Flow(h), Flow(AfterDrainOne(h)), h.emitted, |h.output| + |InFlight(h)|);
    } else {
      DrainEndKeepsFlow(h);
    }
  }

  lemma DrainEndKeepsFlow(h: Handler)
    requires h.queue == []
    ensures Flow(AfterDrainOne(h)) == Flow(h)
  {
  }

  lemma StepFlow(h: Handler, e: Event)
    requires Sound(h)
    ensures InOrder(Flow(Step(h, e)), Step(h, e).emitted)
  {
    hide InOrder, Numbers, AfterEmit, AfterPoll, AfterRecord, AfterDrainOne;
    match e {
      case Emit(record) =>
        EmitFlow(h, record);
      case Poll =>
        if h.writer.Polling? {
          PollFlow(h);
        }
      case Record =>
        if h.writer.Recording? {
          RecordFlow(h);
        }
      case DrainOne =>
        DrainFlow(h);
      case Check =>
      case Sink(_) =>
      case Close =>
      case StartDrain =>
    }
  }

  lemma StepSound(h: Handler, e: Event)
    requires Sound(h)
    ensures Sound(Step(h, e))
  {
    StepFlow(h, e);
    hide InOrder, Flow;
  }

  lemma {:induction false} RunSound(h: Handler, events: seq<Event>)
    requires Sound(h)
    ensures Sound(Run(h, events))
    decreases |events|
  {
    if events != [] {
      StepSound(h, events[0]);
      hide Sound, Step;
      RunSound(Step(h, events[0]), events[1..]);
    }
  }

  /** No record is lost uncounted or counted twice, at any step of any interleaving. */
  lemma LogConserved(capacity: nat, threadStarts: bool, events: seq<Event>)
    ensures var h := Run(Started(capacity, threadStarts), events);
            h.emitted + (if threadStarts then 0 else 1)
            == h.written + h.dropped + h.formatFailures + h.writeFailures + |h.queue| + |InFlight(h)|
  {
    RunSound(Started(capacity, threadStarts), events);
    WriterStarts(Started(capacity, threadStarts), events);
  }

  lemma {:induction false} WriterStarts(h: Handler, events: seq<Event>)
    ensures Run(h, events).writer.NeverStarted? == h.writer.NeverStarted?
    decreases |events|
  {
    if events != [] {
      WriterStarts(Step(h, events[0]), events[1..]);
    }
  }

  /** Written lines appear once each and in the order of their emit calls, and the queue never outgrows its capacity. */
  lemma OutputInOrder(capacity: nat, threadStarts: bool, events: seq<Event>)
    ensures var h := Run(Started(capacity, threadStarts), events);
            && |h.output| == h.written && |h.queue| <= capacity
            && forall i, j :: 0 <= i < j < |h.output| ==> h.output[i] < h.output[j]
  {
    RunSound(Started(capacity, threadStarts), events);
    var h := Run(Started(capacity, threadStarts), events);
    SameCapacity(Started(capacity, threadStarts), events);
    hide Run;
    assert h.output <= Flow(h);
    assert forall i :: 0 <= i < |h.output| ==> h.output[i] == Flow(h)[i];
  }

  lemma {:induction false} SameCapacity(h: Handler, events: seq<Event>)
    ensures Run(h, events).capacity == h.capacity
    decreases |events|
  {
    if events != [] {
      SameCapacity(Step(h, events[0]), events[1..]);
    }
  }

  /** Once a shutdown has drained the queue it stays empty, and at most the line in flight is still written. */
  lemma {:induction false} AfterShutdown(h: Handler, events: seq<Event>)
    requires Sound(h) && h.drained
    ensures var end := Run(h, events);
            end.queue == [] && end.written + |InFlight(end)| <= h.written + |InFlight(h)| && h.output <= end.output
    decreases |events|
  {
    if events != [] {
      StepSound(h, events[0]);
      var next := Step(h, events[0]);
      assert next.drained && h.output <= next.output;
      assert next.written + |InFlight(next)| <= h.written + |InFlight(h)|;
      hide Sound, Step, InFlight;
      AfterShutdown(next, events[1..]);
    }
  }

  // ----- a healthy run -----

  /** A record that formats to a line short enough for the queue. */
  predicate Queueable(record: Formatted) {
    record.Line? && record.bytes <= MAX_LINE_BYTES
  }

  /** Nobody closes the handler, every write works, and no emit finds the queue full. */
  ghost predicate Healthy(h: Handler, events: seq<Event>)
    decreases |events|
  {
    events == []
    || (&& !events[0].Close? && !events[0].StartDrain? && (events[0].Sink? ==> !events[0].failed)
        && (events[0].Emit? ==> |h.queue| < h.capacity)
        && Healthy(Step(h, events[0]), events[1..]))
  }

  /** The numbers of the emit calls whose lines deserve to be written, in order; `next` is the number of the first. */
  function Deserving(next: nat, events: seq<Event>): seq<nat>
    decreases |events|
  {
    if events == [] then []
    else if events[0].Emit? then
      (if Queueable(events[0].record) then [next] else []) + Deserving(next + 1, events[1..])
    else Deserving(next, events[1..])
  }

  /** No write is about to be counted as failed. */
  predicate Sane(h: Handler) {
    !h.stopping && !h.draining && !h.writer.NeverStarted? && !h.writer.Stopped? && (h.writer.Recording? ==> !h.writer.failed)
  }

  lemma HealthyStep(h: Handler, e: Event)
    requires Sane(h) && !e.Close? && !e.StartDrain? && (e.Sink? ==> !e.failed) && (e.Emit? ==> |h.queue| < h.capacity)
    ensures var h' := Step(h, e);
            && Sane(h') && h'.emitted == h.emitted + (if e.Emit? then 1 else 0)
            && Flow(h') == Flow(h) + (if e.Emit? && Queueable(e.record) then [h.emitted] else [])
  {
    var h' := Step(h, e);
    assert Flow(h) + [] == Flow(h);
    match e
    case Emit(record) =>
      if Queueable(record) {
        assert Numbers(h'.queue) == Numbers(h.queue) + [h.emitted];
      }
    case Poll =>
      if h.writer.Polling? {
        PollFlow(h);
      }
    case Record =>
      if h.writer.Recording? {
        assert Flow(h') == Flow(h);
      }
    case _ =>
  }

  lemma {:induction false} HealthyFlow(h: Handler, events: seq<Event>)
    requires Sane(h) && Healthy(h, events)
    ensures Sane(Run(h, events)) && Flow(Run(h, events)) == Flow(h) + Deserving(h.emitted, events)
    decreases |events|
  {
    if events == [] {
      assert Flow(h) + [] == Flow(h);
    } else {
      HealthyStep(h, events[0]);
      var next := Step(h, events[0]);
      hide Step, Flow, Sane, Deserving;
      HealthyFlow(next, events[1..]);
      DeservingFirst(Flow(h), h.emitted, next.emitted, events);
    }
  }

  lemma DeservingFirst(flow: seq<nat>, number: nat, next: nat, events: seq<Event>)
    requires events != [] && next == number + (if events[0].Emit? then 1 else 0)
    ensures flow + (if events[0].Emit? && Queueable(events[0].record) then [number] else []) + Deserving(next, events[1..])
         == flow + Deserving(number, events)
  {
  }

  /**
   In a healthy run the output is at every moment the earliest of the lines
   that deserve to be written, in order and without a gap, and all of them
   once nothing is queued or in flight.
   */
  lemma HealthyOutput(capacity: nat, events: seq<Event>)
    requires Healthy(Started(capacity, true), events)
    ensures var h := Run(Started(capacity, true), events);
            && h.output <= Deserving(0, events)
            && Deserving(0, events) == h.output + InFlight(h) + Numbers(h.queue)
            && (h.queue == [] && InFlight(h) == [] ==> h.output == Deserving(0, events))
  {
    var start := Started(capacity, true);
    HealthyFlow(start, events);
    assert Flow(start) == [];
    hide Run, Healthy, Deserving;
    assert [] + Deserving(0, events) == Deserving(0, events);
  }
}
