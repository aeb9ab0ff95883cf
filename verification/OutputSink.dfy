/**
 The log of a run: one producer, one writer thread, and `finish` and `mark_partial` from the host,
 interleaved atomic step by atomic step (crates/idk/src/run.rs:57-184).
 */
module OutputSink {
  import ControlStripper
  import opened RunLog

  type Byte = ControlStripper.Byte

  const QUEUE_LIMIT := 32
  const CHUNK := 8192

  /** Where the producer is in `push`. */
  datatype Producer =
    | Idle
    | Counted(bytes: seq<Byte>)   // added to `observed`
    | Admitted(bytes: seq<Byte>)  // seen not stopped
    | Sending(rest: seq<Byte>)    // these bytes are still to be sent
    | Refused                     // a send failed
    | Flagged                     // and `limited` is set

  /** Where the writer thread is in its loop. */
  datatype Writer =
    | Waiting
    | TimedOut
    | Holding(chunk: seq<Byte>)
    | Planned(chunk: seq<Byte>, count: nat)
    | Written(chunk: seq<Byte>, count: nat, ok: bool)
    | Closing
    | Exited

  /** The producer's side. `stream`, `sent` and `dropped` are history that the program does not keep. */
  datatype Feed = Feed(
    producer: Producer, observed: nat, stopped: bool, limited: bool, stream: seq<Byte>, sent: seq<Byte>, dropped: bool)

  /** The writer's side; `taken` is what it has received so far. */
  datatype Log = Log(
    writer: Writer, limit: nat, state: LogState, bytes: nat, file: seq<Byte>, open: bool, taken: seq<Byte>)

  datatype Sink = Sink(feed: Feed, log: Log, queue: seq<seq<Byte>>, partial: bool, finished: bool)

  function Fresh(limit: nat, disabled: bool): Sink {
    Sink(Feed(Idle, 0, false, false, [], [], false),
         Log(Waiting, limit, if disabled then Disabled else Recording, 0, [], !disabled, []),
         [], false, false)
  }

  function Min(a: nat, b: nat): nat { if a < b then a else b }

  predicate Writable(state: LogState) { state.Recording? || state.Limited? }

  // ---------------------------------------------------------------- the producer

  datatype Produce = Push(bytes: seq<Byte>) | CheckStopped | CheckState | Send | FlagLimited | FlagStopped

  predicate CanProduce(f: Feed, step: Produce) {
    match step
    case Push(_) => f.producer.Idle?
    case CheckStopped => f.producer.Counted?
    case CheckState => f.producer.Admitted?
    case Send => f.producer.Sending?
    case FlagLimited => f.producer.Refused?
    case FlagStopped => f.producer.Flagged?
  }

  /** The chunk that a send hands over, or nothing: at the end, on a full queue, or when the writer is gone. */
  function Emitted(f: Feed, room: bool): seq<seq<Byte>>
    requires f.producer.Sending?
  {
    if f.producer.rest == [] || !room then [] else [f.producer.rest[..Min(CHUNK, |f.producer.rest|)]]
  }

  function Sent(f: Feed, room: bool): Feed
    requires f.producer.Sending?
  {
    var rest := f.producer.rest;
    if rest == [] then f.(producer := Idle)
    else if !room then f.(producer := Refused, dropped := true)
    else f.(sent := f.sent + rest[..Min(CHUNK, |rest|)], producer := Sending(rest[Min(CHUNK, |rest|)..]))
  }

  function Produced(f: Feed, step: Produce, disabled: bool, room: bool): Feed
    requires CanProduce(f, step)
  {
    match step
    case Push(bytes) => f.(observed := f.observed + |bytes|, stream := f.stream + bytes, producer := Counted(bytes))
    case CheckStopped =>
      if f.stopped then f.(producer := Idle, dropped := f.dropped || f.producer.bytes != [])
      else f.(producer := Admitted(f.producer.bytes))
    case CheckState =>
      if disabled then f.(producer := Idle, dropped := f.dropped || f.producer.bytes != [])
      else f.(producer := Sending(f.producer.bytes))
    case Send => Sent(f, room)
    case FlagLimited => f.(limited := true, producer := Flagged)
    case FlagStopped => f.(stopped := true, producer := Idle)
  }

  // ---------------------------------------------------------------- the writer

  datatype Consume =
    | Receive | Timeout | CheckDone | Disconnect | Plan | Write(stored: nat, ok: bool) | Record | Close(synced: bool)

  predicate CanConsume(l: Log, step: Consume, queue: seq<seq<Byte>>, idle: bool) {
    match step
    case Receive => l.writer.Waiting? && queue != []
    case Timeout => l.writer.Waiting? && queue == []
    case CheckDone => l.writer.TimedOut?
    case Disconnect => l.writer.Waiting? && queue == [] && idle
    case Plan => l.writer.Holding?
    case Write(stored, ok) =>
      l.writer.Planned? && stored <= l.writer.count <= |l.writer.chunk| && (ok ==> stored == l.writer.count)
    case Record => l.writer.Written?
    case Close(synced) => l.writer.Closing? && (!l.open ==> synced)
  }

  function Planning(l: Log): Log
    requires l.writer.Holding?
  {
    if !Writable(l.state) then l.(writer := Waiting)
    else l.(writer := Planned(l.writer.chunk, Min(if l.limit >= l.bytes then l.limit - l.bytes else 0, |l.writer.chunk|)))
  }

  function Recorded(l: Log): Log
    requires l.writer.Written?
  {
    var w := l.writer;
    if !w.ok then l.(state := WriteFailed, open := false, writer := Waiting)
    else l.(bytes := l.bytes + w.count, state := if w.count < |w.chunk| then Limited else l.state, writer := Waiting)
  }

  function Consumed(l: Log, step: Consume, queue: seq<seq<Byte>>, idle: bool, finished: bool): Log
    requires CanConsume(l, step, queue, idle)
  {
    match step
    case Receive => l.(writer := Holding(queue[0]), taken := l.taken + queue[0])
    case Timeout => l.(writer := TimedOut)
    case CheckDone => l.(writer := if finished then Closing else Waiting)
    case Disconnect => l.(writer := Closing)
    case Plan => Planning(l)
    case Write(stored, ok) =>
      l.(file := l.file + l.writer.chunk[..stored], writer := Written(l.writer.chunk, l.writer.count, ok))
    case Record => Recorded(l)
    case Close(synced) =>
      l.(writer := Exited, state := if !synced then WriteFailed else if l.state.Recording? then Complete else l.state)
  }

  // ---------------------------------------------------------------- the whole sink

  datatype Step = Producing(p: Produce) | Consuming(c: Consume) | FinishStop | FinishDone | MarkPartial

  predicate Room(s: Sink) { |s.queue| < QUEUE_LIMIT && !s.log.writer.Exited? }

  /** `finish` stores `stopped` before `finished`. */
  predicate Enabled(s: Sink, step: Step) {
    match step
    case Producing(p) => CanProduce(s.feed, p)
    case Consuming(c) => CanConsume(s.log, c, s.queue, s.feed.producer.Idle?)
    case FinishStop => true
    case FinishDone => s.feed.stopped
    case MarkPartial => true
  }

  function Next(s: Sink, step: Step): Sink
    requires Enabled(s, step)
  {
    match step
    case Producing(p) =>
      s.(feed := Produced(s.feed, p, s.log.state.Disabled?, Room(s)),
         queue := s.queue + if p.Send? then Emitted(s.feed, Room(s)) else [])
    case Consuming(c) =>
      s.(log := Consumed(s.log, c, s.queue, s.feed.producer.Idle?, s.finished),
         queue := if c.Receive? then s.queue[1..] else s.queue)
    case FinishStop => s.(feed := s.feed.(stopped := true))
    case FinishDone => s.(finished := true)
    case MarkPartial => s.(partial := true)
  }

  /** The descriptor that readers see. */
  function Descriptor(s: Sink, run: nat, generation: nat): LogDescriptor {
    var state := if s.feed.limited && (s.log.state.Recording? || s.log.state.Complete?) then Limited else s.log.state;
    var shown := if s.partial && (state.Recording? || state.Complete?) then Partial else state;
    LogDescriptor(run, generation, shown, s.log.bytes, s.feed.observed)
  }

  // ---------------------------------------------------------------- invariant

  function Flatten(chunks: seq<seq<Byte>>): seq<Byte> {
    if chunks == [] then [] else chunks[0] + Flatten(chunks[1..])
  }

  lemma {:induction false} FlattenSnoc(chunks: seq<seq<Byte>>, last: seq<Byte>)
    ensures Flatten(chunks + [last]) == Flatten(chunks) + last
  {
    if chunks == [] {
      assert chunks + [last] == [last];
      assert Flatten([last]) == last + Flatten([]);
    } else {
      assert (chunks + [last])[1..] == chunks[1..] + [last];
      FlattenSnoc(chunks[1..], last);
    }
  }

  function Rest(p: Producer): seq<Byte> {
    match p
    case Counted(bytes) => bytes
    case Admitted(bytes) => bytes
    case Sending(rest) => rest
    case _ => []
  }

  /** Until the first loss everything observed is sent or about to be; a loss ends sending for good. */
  predicate FeedInv(f: Feed, disabled: bool) {
    && f.observed == |f.stream|
    && f.sent <= f.stream
    && (!f.dropped ==> f.sent + Rest(f.producer) == f.stream)
    && (f.dropped ==> f.stopped || disabled || f.producer.Refused? || f.producer.Flagged?)
    && (f.producer.Admitted? && f.dropped ==> disabled)
    && (f.producer.Sending? ==> !f.dropped && !disabled)
    && (f.producer.Refused? || f.producer.Flagged? ==> f.dropped)
    && (f.producer.Flagged? ==> f.limited)
  }

  predicate QueueInv(sent: seq<Byte>, taken: seq<Byte>, queue: seq<seq<Byte>>) {
    sent == taken + Flatten(queue) && |queue| <= QUEUE_LIMIT
  }

  /** What of the bytes taken from the queue is in the file, at each point of the loop. */
  predicate LogInv(l: Log) {
    && l.bytes <= l.limit && l.bytes <= |l.file| && l.file <= l.taken
    && !l.state.Partial? && !l.state.Expired?
    && (Writable(l.state) ==> l.open)
    && (l.state.Disabled? ==> !l.open && l.file == [] && l.bytes == 0)
    && (l.state.Limited? && !l.writer.Written? ==> l.bytes == |l.file| == l.limit)
    && (l.state.Complete? ==> l.writer.Exited? && l.bytes == |l.file| && l.file == l.taken)
    && (match l.writer
        case Holding(chunk) => l.state.Recording? ==> l.taken == l.file + chunk && l.bytes == |l.file|
        case Planned(chunk, count) =>
          && Writable(l.state)
          && count == Min(l.limit - l.bytes, |chunk|)
          && (l.state.Recording? ==> l.taken == l.file + chunk && l.bytes == |l.file|)
        case Written(chunk, count, ok) =>
          && Writable(l.state)
          && count == Min(l.limit - l.bytes, |chunk|)
          && (l.state.Limited? ==> l.bytes == l.limit == |l.file|)
          && (l.state.Recording? && ok ==> |l.file| == l.bytes + count && l.taken == l.file + chunk[count..])
        case _ => l.state.Recording? ==> l.taken == l.file && l.bytes == |l.file|)
  }

  predicate Inv(s: Sink) {
    FeedInv(s.feed, s.log.state.Disabled?) && QueueInv(s.feed.sent, s.log.taken, s.queue) && LogInv(s.log)
  }

  lemma SendKeeps(f: Feed, disabled: bool, room: bool)
    requires FeedInv(f, disabled) && f.producer.Sending?
    ensures FeedInv(Sent(f, room), disabled)
    ensures Sent(f, room).sent == f.sent + Flatten(Emitted(f, room))
  {
    var rest := f.producer.rest;
    var n := Min(CHUNK, |rest|);
    assert rest == rest[..n] + rest[n..];
    assert f.sent + rest == (f.sent + rest[..n]) + rest[n..];
    assert Flatten([rest[..n]]) == rest[..n] + Flatten([]);
  }

  lemma ProducedKeeps(f: Feed, step: Produce, disabled: bool, room: bool)
    requires FeedInv(f, disabled) && CanProduce(f, step)
    ensures FeedInv(Produced(f, step, disabled, room), disabled)
    ensures !step.Send? ==> Produced(f, step, disabled, room).sent == f.sent
  {
    if step.Push? {
      assert f.sent <= f.stream + step.bytes;
      assert !f.dropped ==> f.sent == f.stream;
    } else if step.Send? {
      SendKeeps(f, disabled, room);
    }
  }

  lemma QueueGrows(f: Feed, taken: seq<Byte>, queue: seq<seq<Byte>>, exited: bool, disabled: bool)
    requires FeedInv(f, disabled) && f.producer.Sending? && QueueInv(f.sent, taken, queue)
    ensures var room := |queue| < QUEUE_LIMIT && !exited; QueueInv(Sent(f, room).sent, taken, queue + Emitted(f, room))
  {
    var room := |queue| < QUEUE_LIMIT && !exited;
    SendKeeps(f, disabled, room);
    if Emitted(f, room) != [] {
      FlattenSnoc(queue, Emitted(f, room)[0]);
      assert Flatten(Emitted(f, room)) == Emitted(f, room)[0] + Flatten([]);
    } else {
      assert queue + [] == queue;
    }
  }

  lemma WriteKeeps(l: Log, stored: nat, ok: bool)
    requires LogInv(l) && l.writer.Planned? && stored <= l.writer.count <= |l.writer.chunk| && (ok ==> stored == l.writer.count)
    ensures LogInv(l.(file := l.file + l.writer.chunk[..stored], writer := Written(l.writer.chunk, l.writer.count, ok)))
  {
    var chunk := l.writer.chunk;
    assert chunk == chunk[..stored] + chunk[stored..];
    if l.state.Recording? {
      assert l.file + chunk == (l.file + chunk[..stored]) + chunk[stored..];
    } else {
      assert stored == 0 && l.file + chunk[..stored] == l.file;
    }
  }

  lemma RecordKeeps(l: Log)
    requires LogInv(l) && l.writer.Written?
    ensures LogInv(Recorded(l))
  {
    if l.writer.count == |l.writer.chunk| {
      assert l.writer.chunk[l.writer.count..] == [];
      assert l.file + [] == l.file;
    }
  }

  lemma ConsumedKeeps(l: Log, step: Consume, queue: seq<seq<Byte>>, idle: bool, finished: bool)
    requires LogInv(l) && CanConsume(l, step, queue, idle)
    ensures LogInv(Consumed(l, step, queue, idle, finished))
    ensures Consumed(l, step, queue, idle, finished).state.Disabled? <==> l.state.Disabled?
    ensures Consumed(l, step, queue, idle, finished).taken == if step.Receive? then l.taken + queue[0] else l.taken
  {
    match step
    case Write(stored, ok) => WriteKeeps(l, stored, ok);
    case Record => RecordKeeps(l);
    case Receive => assert l.file <= l.taken + queue[0];
    case _ =>
  }

  /** Every step of every thread keeps the invariant. */
  lemma StepKeeps(s: Sink, step: Step)
    requires Inv(s) && Enabled(s, step)
    ensures Inv(Next(s, step))
  {
    match step
    case Producing(p) =>
      ProducedKeeps(s.feed, p, s.log.state.Disabled?, Room(s));
      if p.Send? {
        QueueGrows(s.feed, s.log.taken, s.queue, s.log.writer.Exited?, s.log.state.Disabled?);
      } else {
        assert s.queue + [] == s.queue;
      }
    case Consuming(c) =>
      ConsumedKeeps(s.log, c, s.queue, s.feed.producer.Idle?, s.finished);
      if c.Receive? {
        assert s.log.taken + Flatten(s.queue) == (s.log.taken + s.queue[0]) + Flatten(s.queue[1..]);
      }
    case _ =>
  }

  // ---------------------------------------------------------------- runs

  /** A step that is not enabled is not taken. */
  function Advance(s: Sink, step: Step): Sink {
    if Enabled(s, step) then Next(s, step) else s
  }

  /** The state after an interleaving. */
  function Run(s: Sink, steps: seq<Step>): Sink
    decreases |steps|
  {
    if steps == [] then s else Run(Advance(s, steps[0]), steps[1..])
  }

  lemma AdvanceKeeps(s: Sink, step: Step)
    requires Inv(s)
    ensures Inv(Advance(s, step))
    ensures Advance(s, step).log.limit == s.log.limit
    ensures s.log.file <= Advance(s, step).log.file
  {
    if Enabled(s, step) {
      StepKeeps(s, step);
    }
  }

  lemma {:induction false} RunKeeps(s: Sink, steps: seq<Step>)
    requires Inv(s)
    ensures Inv(Run(s, steps))
    ensures Run(s, steps).log.limit == s.log.limit
    ensures s.log.file <= Run(s, steps).log.file
    decreases |steps|
  {
    if steps != [] {
      AdvanceKeeps(s, steps[0]);
      RunKeeps(Advance(s, steps[0]), steps[1..]);
    }
  }

  /** In every interleaving the file is a prefix of the observed stream, and the recorded size keeps to the limit. */
  lemma FileIsPrefix(limit: nat, disabled: bool, steps: seq<Step>)
    ensures var s := Run(Fresh(limit, disabled), steps);
      && s.log.file <= s.feed.stream && s.feed.observed == |s.feed.stream|
      && s.log.bytes <= limit && s.log.bytes <= |s.log.file| && |s.queue| <= QUEUE_LIMIT
  {
    RunKeeps(Fresh(limit, disabled), steps);
  }

  lemma LossEndsSending(s: Sink, step: Step)
    requires Inv(s) && s.feed.dropped
    ensures Advance(s, step).feed.dropped && Advance(s, step).feed.sent == s.feed.sent
  {
  }

  /** After the first dropped bytes nothing more is sent, so nothing observed later is ever stored. */
  lemma {:induction false} NothingAfterALoss(s: Sink, steps: seq<Step>)
    requires Inv(s) && s.feed.dropped
    ensures Run(s, steps).feed.dropped && Run(s, steps).feed.sent == s.feed.sent
    ensures Run(s, steps).log.file <= s.feed.sent
    decreases |steps|
  {
    if steps == [] {
      assert s.log.file <= s.log.taken <= s.feed.sent;
    } else {
      AdvanceKeeps(s, steps[0]);
      LossEndsSending(s, steps[0]);
      NothingAfterALoss(Advance(s, steps[0]), steps[1..]);
    }
  }

  /**
   Loss is always visible: a reader that got `parsed` bytes of the file at one moment and the descriptor at a
   later one, and that reports neither a partial read nor a limited log, has the whole stream observed by then.
   */
  lemma LossIsVisible(limit: nat, disabled: bool, before: seq<Step>, after: seq<Step>, parsed: nat, run: nat, generation: nat)
    requires parsed <= |Run(Fresh(limit, disabled), before).log.file|
    ensures var early := Run(Fresh(limit, disabled), before);
      var late := Run(early, after);
      var d := Descriptor(late, run, generation);
      !IncompleteRead(parsed, d) && !LimitedLog(d) ==> early.log.file[..parsed] == late.feed.stream
  {
    var early := Run(Fresh(limit, disabled), before);
    var late := Run(early, after);
    RunKeeps(Fresh(limit, disabled), before);
    RunKeeps(early, after);
    assert late.log.file <= late.log.taken <= late.feed.sent <= late.feed.stream;
  }

  /** A log shown as complete holds every byte that the writer took, and lost none to a full queue. */
  lemma CompleteHoldsTaken(limit: nat, disabled: bool, steps: seq<Step>, run: nat, generation: nat)
    ensures var s := Run(Fresh(limit, disabled), steps);
      Descriptor(s, run, generation).state.Complete? ==>
        s.log.file == s.log.taken && s.log.bytes == |s.log.file| && !s.feed.limited && !s.partial
  {
    RunKeeps(Fresh(limit, disabled), steps);
  }

  /**
   Exactly when a log shown as complete is whole: if and only if its two byte counts agree, which any reader can
   check, and if and only if nothing remains in the queue and everything was sent.
   */
  lemma CompleteIsWholeIff(limit: nat, disabled: bool, steps: seq<Step>, run: nat, generation: nat)
    ensures var s := Run(Fresh(limit, disabled), steps);
      var d := Descriptor(s, run, generation);
      d.state.Complete? ==>
        && (s.log.file == s.feed.stream <==> d.observed == d.bytes)
        && (s.log.file == s.feed.stream <==> Flatten(s.queue) == [] && s.feed.sent == s.feed.stream)
  {
    RunKeeps(Fresh(limit, disabled), steps);
    var s := Run(Fresh(limit, disabled), steps);
    assert s.log.file <= s.log.taken <= s.feed.sent <= s.feed.stream;
    if Descriptor(s, run, generation).state.Complete? {
      assert s.feed.sent == s.log.file + Flatten(s.queue);
    }
  }

  /**
   It does not mean that everything was stored: the queue can be found empty just before the last chunk arrives,
   and `finish` be seen just after. The byte counts still show the loss.
   */
  lemma CompleteCanMissAChunk() returns (steps: seq<Step>)
    ensures var s := Run(Fresh(100, false), steps);
      var d := Descriptor(s, 0, 1);
      d.state.Complete? && s.log.file == [] && s.feed.stream == [65] && LimitedLog(d)
  {
    var first := [Consuming(Timeout), Producing(Push([65])), Producing(CheckStopped), Producing(CheckState)];
    var second := [Producing(Send), Producing(Send), FinishStop, FinishDone];
    var third := [Consuming(CheckDone), Consuming(Close(true))];
    AfterAdmission(first);
    AfterSending(second);
    AfterClosing(third);
    ThreeParts(Fresh(100, false), first, second, third);
    steps := first + second + third;
    ClosedEarlyShows(steps);
  }

  lemma ClosedEarlyShows(steps: seq<Step>)
    requires Run(Fresh(100, false), steps) == ClosedEarly()
    ensures var s := Run(Fresh(100, false), steps);
      var d := Descriptor(s, 0, 1);
      d.state.Complete? && s.log.file == [] && s.feed.stream == [65] && LimitedLog(d)
  {
  }

  lemma ThreeParts(s: Sink, first: seq<Step>, second: seq<Step>, third: seq<Step>)
    ensures Run(s, first + second + third) == Run(Run(Run(s, first), second), third)
  {
    OneByOne(s, first, second);
    OneByOne(s, first + second, third);
  }

  const TIMED_OUT: Log := Log(TimedOut, 100, Recording, 0, [], true, [])

  function SendingOne(): Sink {
    Sink(Feed(Sending([65]), 1, false, false, [65], [], false), TIMED_OUT, [], false, false)
  }

  function SentOne(): Sink {
    Sink(Feed(Idle, 1, true, false, [65], [65], false), TIMED_OUT, [[65]], false, true)
  }

  function ClosedEarly(): Sink {
    Sink(Feed(Idle, 1, true, false, [65], [65], false), TIMED_OUT.(writer := Exited, state := Complete), [[65]], false, true)
  }

  lemma AfterAdmission(steps: seq<Step>)
    requires steps == [Consuming(Timeout), Producing(Push([65])), Producing(CheckStopped), Producing(CheckState)]
    ensures Run(Fresh(100, false), steps) == SendingOne()
  {
    FourSteps(Fresh(100, false), steps);
  }

  lemma AfterSending(steps: seq<Step>)
    requires steps == [Producing(Send), Producing(Send), FinishStop, FinishDone]
    ensures Run(SendingOne(), steps) == SentOne()
  {
    FourSteps(SendingOne(), steps);
    var rest: seq<Byte> := [65];
    assert rest[..1] == [65] && rest[1..] == [];
    assert Emitted(SendingOne().feed, true) == [[65]];
    assert Advance(SendingOne(), steps[0]).feed.producer == Sending([]);
  }

  lemma AfterClosing(steps: seq<Step>)
    requires steps == [Consuming(CheckDone), Consuming(Close(true))]
    ensures Run(SentOne(), steps) == ClosedEarly()
  {
    TwoSteps(SentOne(), steps);
  }

  lemma TwoSteps(s: Sink, steps: seq<Step>)
    requires |steps| == 2
    ensures Run(s, steps) == Advance(Advance(s, steps[0]), steps[1])
  {
    var rest := steps[1..];
    assert Run(s, steps) == Run(Advance(s, steps[0]), rest);
    assert rest[1..] == [];
    assert Run(Advance(s, steps[0]), rest) == Run(Advance(Advance(s, steps[0]), rest[0]), []);
  }

  lemma FourSteps(s: Sink, steps: seq<Step>)
    requires |steps| == 4
    ensures Run(s, steps) == Advance(Advance(Advance(Advance(s, steps[0]), steps[1]), steps[2]), steps[3])
  {
    OneByOne(s, steps[..2], steps[2..]);
    assert steps == steps[..2] + steps[2..];
    TwoSteps(s, steps[..2]);
    TwoSteps(Run(s, steps[..2]), steps[2..]);
  }

  lemma {:induction false} OneByOne(s: Sink, first: seq<Step>, second: seq<Step>)
    ensures Run(s, first + second) == Run(Run(s, first), second)
    decreases |first|
  {
    if first == [] {
      assert first + second == second;
    } else {
      assert (first + second)[1..] == first[1..] + second;
      OneByOne(Advance(s, first[0]), first[1..], second);
    }
  }
}
