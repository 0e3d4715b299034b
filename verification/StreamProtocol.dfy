/** The goroutines behind one streamed Chat: the SSE parser on its unbuffered
    channel, the Chat loop, the drain goroutine an early exit leaves behind, and
    the consumer (Stream) that may break off at any event and then drains too. */
module StreamProtocol {
  const BUFFER := 32

  /** What handling one payload ends in. */
  datatype Verdict = Continue | Abort | Fail

  /** A payload: how many events Chat emits for it before the verdict. */
  datatype Frame = Frame(events: nat, verdict: Verdict)

  datatype Parser = Scanning | Parked(frame: Frame) | Closed
  datatype Chat = Receiving(started: bool) | Emitting(left: nat, verdict: Verdict) | Tail(left: nat) | Exited
  datatype Drain = NotStarted | Draining | Drained
  datatype Consumer = Reading | Discarding | Finished

  datatype State = State(
    lines: seq<Frame>,     // the part of the body not yet scanned
    hangs: bool,           // the server goes silent after them instead of ending
    stallArmed: bool,      // StallTimeout > 0
    parser: Parser,
    chat: Chat,
    drain: Drain,
    bodyClosed: bool,
    buffered: nat,         // events in the buffered event channel
    consumer: Consumer,
    cancelled: bool)       // the request context

  datatype Step =
    | Scan                 // the parser reads the next payload and parks on its send
    | ScanEnd              // end of body, [DONE], or a read that fails once the body is closed
    | ScanFails            // the connection breaks
    | Deliver              // the Chat loop receives the parked payload
    | Discard              // the drain goroutine receives it instead
    | DrainEnds
    | SeeClosed(tail: nat) // the Chat loop sees the parser's channel closed
    | Stall(tail: nat)     // the stall timer fires
    | Emit
    | Decide(tail: nat)    // a payload is handled; the tail events follow an early exit
    | Return               // Chat's deferred closes
    | Take(breakOff: bool) // the consumer takes an event, and may break out of its loop
    | ConsumerEnds

  predicate Enabled(s: State, step: Step) {
    match step
    case Scan => s.parser.Scanning? && s.lines != []
    case ScanEnd => s.parser.Scanning? && s.lines == [] && (!s.hangs || s.bodyClosed || s.cancelled)
    case ScanFails => s.parser.Scanning?
    case Deliver => s.parser.Parked? && s.chat.Receiving?
    case Discard => s.parser.Parked? && s.drain.Draining?
    case DrainEnds => s.parser.Closed? && s.drain.Draining?
    case SeeClosed(tail) => s.parser.Closed? && s.chat.Receiving? && 1 <= tail <= 3
    case Stall(tail) => s.stallArmed && s.chat == Receiving(true) && 1 <= tail <= 2
    case Emit => s.buffered < BUFFER && ((s.chat.Emitting? && s.chat.left > 0) || (s.chat.Tail? && s.chat.left > 0))
    case Decide(tail) => s.chat.Emitting? && s.chat.left == 0 && 1 <= tail <= 2
    case Return => s.chat == Tail(0)
    case Take(_) => s.buffered > 0 && !s.consumer.Finished?
    case ConsumerEnds => s.buffered == 0 && s.chat.Exited? && !s.consumer.Finished?
  }

  function Next(s: State, step: Step): State
    requires Enabled(s, step)
  {
    match step
    case Scan => s.(parser := Parked(s.lines[0]), lines := s.lines[1..])
    case ScanEnd => s.(parser := Closed)
    case ScanFails => s.(parser := Closed)
    case Deliver => s.(parser := Scanning, chat := Emitting(s.parser.frame.events, s.parser.frame.verdict))
    case Discard => s.(parser := Scanning)
    case DrainEnds => s.(drain := Drained)
    case SeeClosed(tail) => s.(chat := Tail(tail))
    case Stall(tail) => s.(chat := Tail(tail), bodyClosed := true, drain := Draining)
    case Emit =>
      s.(buffered := s.buffered + 1,
         chat := if s.chat.Emitting? then s.chat.(left := s.chat.left - 1) else Tail(s.chat.left - 1))
    case Decide(tail) => (
      match s.chat.verdict
      case Continue => s.(chat := Receiving(true))
      case Abort => s.(chat := Tail(tail), bodyClosed := true, drain := Draining)
      case Fail => s.(chat := Tail(1), drain := Draining))
    case Return => s.(chat := Exited, bodyClosed := true)
    case Take(breakOff) =>
      var t := s.(buffered := s.buffered - 1);
      if breakOff && s.consumer.Reading? then t.(consumer := Discarding, cancelled := true) else t
    case ConsumerEnds => s.(consumer := Finished, cancelled := true)
  }

  function Init(body: seq<Frame>, hangs: bool, stallArmed: bool): State {
    State(body, hangs, stallArmed, Scanning, Receiving(false), NotStarted, false, 0, Reading, false)
  }

  ghost predicate Legal(s: State, steps: seq<Step>)
    decreases |steps|
  {
    steps == [] || (Enabled(s, steps[0]) && Legal(Next(s, steps[0]), steps[1..]))
  }

  ghost function Exec(s: State, steps: seq<Step>): State
    requires Legal(s, steps)
    decreases |steps|
  {
    if steps == [] then s else Exec(Next(s, steps[0]), steps[1..])
  }

  /** A parser parked on its send has a receiver: the Chat loop, or a live drainer. */
  predicate NotStranded(s: State) {
    s.parser.Parked? ==> s.chat.Receiving? || s.chat.Emitting? || s.drain.Draining?
  }

  predicate Inv(s: State) {
    && NotStranded(s)
    && (s.chat.Tail? || s.chat.Exited? ==> s.drain.Draining? || s.parser.Closed?)
    && (s.drain.Draining? ==> s.chat.Tail? || s.chat.Exited?)
    && (s.drain.Drained? ==> s.parser.Closed?)
    && (s.chat.Exited? ==> s.bodyClosed)
    && (s.consumer.Finished? ==> s.chat.Exited? && s.buffered == 0)
    && s.buffered <= BUFFER
  }

  predicate AllOver(s: State) {
    s.parser.Closed? && s.chat.Exited? && !s.drain.Draining? && s.consumer.Finished?
  }

  /** Nobody can move: the server is silent, nothing was received that would arm the
      watchdog (or there is none), and nobody has cancelled. */
  predicate WaitsForServer(s: State) {
    && s.hangs && s.lines == [] && s.parser.Scanning? && s.chat.Receiving?
    && !(s.stallArmed && s.chat.started) && !s.bodyClosed && !s.cancelled && s.buffered == 0
  }

  lemma NextInv(s: State, step: Step)
    requires Inv(s) && Enabled(s, step)
    ensures Inv(Next(s, step))
  {
    if step.Decide? {
      DecideInv(s, step.tail);
    } else if step.SeeClosed? || step.Stall? || step.Emit? || step.Return? {
      LoopInv(s, step);
    } else if step.Take? || step.ConsumerEnds? {
      ConsumerInv(s, step);
    } else {
      ParserInv(s, step);
    }
  }

  lemma ParserInv(s: State, step: Step)
    requires Inv(s) && Enabled(s, step)
    requires step.Scan? || step.ScanEnd? || step.ScanFails? || step.Deliver? || step.Discard? || step.DrainEnds?
    ensures Inv(Next(s, step))
  {
  }

  lemma LoopInv(s: State, step: Step)
    requires Inv(s) && Enabled(s, step)
    requires step.SeeClosed? || step.Stall? || step.Emit? || step.Return?
    ensures Inv(Next(s, step))
  {
  }

  lemma DecideInv(s: State, tail: nat)
    requires Inv(s) && Enabled(s, Decide(tail))
    ensures Inv(Next(s, Decide(tail)))
  {
  }

  lemma ConsumerInv(s: State, step: Step)
    requires Inv(s) && Enabled(s, step) && (step.Take? || step.ConsumerEnds?)
    ensures Inv(Next(s, step))
  {
  }

  lemma {:induction false} ReachableInv(s: State, steps: seq<Step>)
    requires Inv(s) && Legal(s, steps)
    ensures Inv(Exec(s, steps))
    decreases |steps|
  {
    if steps != [] {
      NextInv(s, steps[0]);
      ReachableInv(Next(s, steps[0]), steps[1..]);
    }
  }

  /** Something can always move until everything is over, short of a silent server that
      no watchdog covers; a broken connection is never needed. */
  lemma Progress(s: State) returns (step: Step)
    requires Inv(s) && !AllOver(s) && !WaitsForServer(s)
    ensures Enabled(s, step) && !step.ScanFails?
  {
    if s.buffered > 0 {
      step := Take(false);
    } else if (s.chat.Emitting? || s.chat.Tail?) && s.chat.left > 0 {
      step := Emit;
    } else if s.chat.Emitting? {
      step := Decide(1);
    } else if s.chat.Tail? {
      step := Return;
    } else if s.parser.Parked? {
      step := if s.chat.Receiving? then Deliver else Discard;
    } else if s.parser.Scanning? && s.lines != [] {
      step := Scan;
    } else if s.parser.Scanning? {
      step := if !s.hangs || s.bodyClosed || s.cancelled then ScanEnd else Stall(1);
    } else if s.chat.Receiving? {
      step := SeeClosed(1);
    } else if s.drain.Draining? {
      step := DrainEnds;
    } else {
      step := ConsumerEnds;
    }
  }

  // ---- Every run is finite --------------------------------------------------------

  function FrameWork(f: Frame): nat { 2 * f.events + 4 }

  function LinesWork(lines: seq<Frame>): nat {
    if lines == [] then 0 else FrameWork(lines[0]) + LinesWork(lines[1..])
  }

  function ParserWork(p: Parser): nat {
    match p case Scanning => 1 case Parked(f) => FrameWork(f) case Closed => 0
  }

  function ChatWork(c: Chat): nat {
    match c case Receiving(_) => 10 case Emitting(n, _) => 2 * n + 11 case Tail(n) => 2 * n + 1 case Exited => 0
  }

  function ConsumerWork(c: Consumer): nat {
    match c case Reading => 2 case Discarding => 1 case Finished => 0
  }

  /** A bound on the steps left, whoever takes them and in whatever order. */
  function Work(s: State): nat {
    LinesWork(s.lines) + ParserWork(s.parser) + ChatWork(s.chat) + (if s.drain.Draining? then 1 else 0)
    + s.buffered + ConsumerWork(s.consumer)
  }

  lemma NextWork(s: State, step: Step)
    requires Enabled(s, step)
    ensures Work(Next(s, step)) < Work(s)
  {
    if step.Decide? {
      DecideWork(s, step.tail);
    } else if step.SeeClosed? || step.Stall? || step.Emit? || step.Return? {
      LoopWork(s, step);
    } else if step.Take? || step.ConsumerEnds? {
      TakeWork(s, step);
    } else {
      ParseWork(s, step);
    }
  }

  lemma ParseWork(s: State, step: Step)
    requires Enabled(s, step)
    requires step.Scan? || step.ScanEnd? || step.ScanFails? || step.Deliver? || step.Discard? || step.DrainEnds?
    ensures Work(Next(s, step)) < Work(s)
  {
  }

  lemma LoopWork(s: State, step: Step)
    requires Enabled(s, step)
    requires step.SeeClosed? || step.Stall? || step.Emit? || step.Return?
    ensures Work(Next(s, step)) < Work(s)
  {
    var t := Next(s, step);
    assert t.lines == s.lines && t.parser == s.parser && t.consumer == s.consumer;
  }

  lemma DecideWork(s: State, tail: nat)
    requires Enabled(s, Decide(tail))
    ensures Work(Next(s, Decide(tail))) < Work(s)
  {
    var t := Next(s, Decide(tail));
    assert t.lines == s.lines && t.parser == s.parser && t.consumer == s.consumer;
    assert ChatWork(s.chat) == 11 && (t.chat.Tail? ==> ChatWork(t.chat) <= 5);
  }

  lemma TakeWork(s: State, step: Step)
    requires Enabled(s, step) && (step.Take? || step.ConsumerEnds?)
    ensures Work(Next(s, step)) < Work(s)
  {
    var t := Next(s, step);
    assert t.lines == s.lines && t.parser == s.parser && t.chat == s.chat && t.drain == s.drain;
  }

  lemma {:induction false} RunsEnd(s: State, steps: seq<Step>)
    requires Inv(s) && Legal(s, steps)
    ensures |steps| + Work(Exec(s, steps)) <= Work(s)
    decreases |steps|
  {
    if steps != [] {
      NextInv(s, steps[0]);
      NextWork(s, steps[0]);
      RunsEnd(Next(s, steps[0]), steps[1..]);
    }
  }

  /** For every body, every schedule, every abort, decode failure, stall and early break:
      the parser is never stranded, the run is finite, and one that cannot be continued
      has closed the parser's channel, the event channel and every goroutine, unless it
      waits on a silent server before the first chunk or without a stall timeout. */
  lemma NeverStranded(body: seq<Frame>, hangs: bool, stallArmed: bool, steps: seq<Step>)
    requires Legal(Init(body, hangs, stallArmed), steps)
    ensures var s := Exec(Init(body, hangs, stallArmed), steps);
      && NotStranded(s)
      && |steps| <= LinesWork(body) + 13
      && ((forall step :: Enabled(s, step) ==> step.ScanFails?) ==> AllOver(s) || WaitsForServer(s))
      && (!hangs ==> !WaitsForServer(s))
  {
    var s0 := Init(body, hangs, stallArmed);
    ReachableInv(s0, steps);
    RunsEnd(s0, steps);
    HangsFixed(s0, steps);
    var s := Exec(s0, steps);
    if !AllOver(s) && !WaitsForServer(s) {
      var step := Progress(s);
    }
  }

  lemma {:induction false} HangsFixed(s: State, steps: seq<Step>)
    requires Legal(s, steps)
    ensures Exec(s, steps).hangs == s.hangs
    decreases |steps|
  {
    if steps != [] {
      HangsFixed(Next(s, steps[0]), steps[1..]);
    }
  }

  // ---- Every payload and every event gets through ---------------------------------------------------

  function InHand(p: Parser): seq<Frame> { if p.Parked? then [p.frame] else [] }

  /** The payloads somebody took from the parser, in order. */
  ghost function Received(s: State, steps: seq<Step>): seq<Frame>
    requires Legal(s, steps)
    decreases |steps|
  {
    if steps == [] then [] else
      TakenBy(s, steps[0]) + Received(Next(s, steps[0]), steps[1..])
  }

  /** The payloads the Chat loop took. */
  ghost function Delivered(s: State, steps: seq<Step>): seq<Frame>
    requires Legal(s, steps)
    decreases |steps|
  {
    if steps == [] then [] else
      (if steps[0].Deliver? then InHand(s.parser) else []) + Delivered(Next(s, steps[0]), steps[1..])
  }

  /** The connection holds. */
  predicate Unbroken(steps: seq<Step>) { steps == [] || (!steps[0].ScanFails? && Unbroken(steps[1..])) }

  predicate NoStall(steps: seq<Step>) { steps == [] || (!steps[0].Stall? && NoStall(steps[1..])) }

  function TakenBy(s: State, step: Step): seq<Frame> {
    if step.Deliver? || step.Discard? then InHand(s.parser) else []
  }

  /** What the parser holds and what is still to be scanned. */
  function Ahead(s: State): seq<Frame> { InHand(s.parser) + s.lines }

  lemma StepKeepsBody(s: State, step: Step)
    requires Enabled(s, step) && !step.ScanFails?
    ensures TakenBy(s, step) + Ahead(Next(s, step)) == Ahead(s)
  {
    if step.Scan? {
      ScanKeepsBody(s);
    } else if step.Deliver? || step.Discard? {
      TakeKeepsBody(s, step);
    } else {
      QuietKeepsBody(s, step);
    }
  }

  lemma ScanKeepsBody(s: State)
    requires Enabled(s, Scan)
    ensures [] + Ahead(Next(s, Scan)) == Ahead(s)
  {
    assert Ahead(s) == s.lines;
    assert Ahead(Next(s, Scan)) == [s.lines[0]] + s.lines[1..];
  }

  lemma TakeKeepsBody(s: State, step: Step)
    requires Enabled(s, step) && (step.Deliver? || step.Discard?)
    ensures InHand(s.parser) + Ahead(Next(s, step)) == Ahead(s)
  {
    assert Ahead(Next(s, step)) == [] + s.lines == s.lines;
  }

  lemma QuietKeepsBody(s: State, step: Step)
    requires Enabled(s, step) && !step.Scan? && !step.Deliver? && !step.Discard? && !step.ScanFails?
    ensures [] + Ahead(Next(s, step)) == Ahead(s)
  {
    var t := Next(s, step);
    assert t.lines == s.lines && InHand(t.parser) == InHand(s.parser);
  }

  /** No payload is skipped, repeated or reordered: what was taken, what the parser holds and
      what is still to be scanned make up the body. */
  lemma {:induction false} BodyAccounted(s: State, steps: seq<Step>)
    requires Legal(s, steps) && Unbroken(steps)
    ensures Received(s, steps) + Ahead(Exec(s, steps)) == Ahead(s)
    decreases |steps|
  {
    if steps != [] {
      var next := Next(s, steps[0]);
      StepKeepsBody(s, steps[0]);
      BodyAccounted(next, steps[1..]);
      Assoc(TakenBy(s, steps[0]), Received(next, steps[1..]), Ahead(Exec(s, steps)));
    }
  }

  lemma Assoc<T>(a: seq<T>, b: seq<T>, c: seq<T>)
    ensures (a + b) + c == a + (b + c)
  {
  }

  function EventsOf(frames: seq<Frame>): nat {
    if frames == [] then 0 else frames[0].events + EventsOf(frames[1..])
  }

  /** Events Chat still has to put in the channel. */
  function Left(c: Chat): nat {
    match c case Emitting(n, _) => n case Tail(n) => n case Receiving(_) => 0 case Exited => 0
  }

  function TailOf(s: State, step: Step): nat {
    match step
    case SeeClosed(n) => n
    case Stall(n) => n
    case Decide(n) => if s.chat.Emitting? && s.chat.verdict.Abort? then n else if s.chat.Emitting? && s.chat.verdict.Fail? then 1 else 0
    case _ => 0
  }

  /** The events that follow the payloads': an error, or the usage, the calls and Done. */
  ghost function Tails(s: State, steps: seq<Step>): nat
    requires Legal(s, steps)
    decreases |steps|
  {
    if steps == [] then 0 else TailOf(s, steps[0]) + Tails(Next(s, steps[0]), steps[1..])
  }

  function Takes(steps: seq<Step>): nat {
    if steps == [] then 0 else (if steps[0].Take? then 1 else 0) + Takes(steps[1..])
  }

  /** What the step adds to and takes from the events under way. */
  ghost predicate EventsKept(s: State, step: Step)
    requires Enabled(s, step)
  {
    var t := Next(s, step);
    (if step.Take? then 1 else 0) + t.buffered + Left(t.chat)
      == s.buffered + Left(s.chat) + (if step.Deliver? then s.parser.frame.events else 0) + TailOf(s, step)
  }

  lemma StepKeepsEvents(s: State, step: Step)
    requires Enabled(s, step)
    ensures EventsKept(s, step)
  {
    if step.Decide? {
      DecideKeepsEvents(s, step.tail);
    } else if step.SeeClosed? || step.Stall? || step.Emit? || step.Return? {
      LoopKeepsEvents(s, step);
    } else {
      OthersKeepEvents(s, step);
    }
  }

  lemma DecideKeepsEvents(s: State, tail: nat)
    requires Enabled(s, Decide(tail))
    ensures EventsKept(s, Decide(tail))
  {
    assert Next(s, Decide(tail)).buffered == s.buffered && Left(s.chat) == 0;
  }

  lemma LoopKeepsEvents(s: State, step: Step)
    requires Enabled(s, step) && (step.SeeClosed? || step.Stall? || step.Emit? || step.Return?)
    ensures EventsKept(s, step)
  {
  }

  lemma OthersKeepEvents(s: State, step: Step)
    requires Enabled(s, step) && !step.Decide? && !step.SeeClosed? && !step.Stall? && !step.Emit? && !step.Return?
    ensures EventsKept(s, step)
  {
  }

  lemma OneMoreFrame(f: Frame, frames: seq<Frame>)
    ensures EventsOf([f] + frames) == f.events + EventsOf(frames) && [] + frames == frames
  {
    assert ([f] + frames)[1..] == frames;
  }

  /** No event is lost or invented between the Chat loop and the consumer. */
  lemma {:induction false} EventsAccounted(s: State, steps: seq<Step>)
    requires Legal(s, steps)
    ensures var t := Exec(s, steps);
      Takes(steps) + t.buffered + Left(t.chat) == s.buffered + Left(s.chat) + EventsOf(Delivered(s, steps)) + Tails(s, steps)
    decreases |steps|
  {
    if steps != [] {
      var next := Next(s, steps[0]);
      StepKeepsEvents(s, steps[0]);
      EventsAccounted(next, steps[1..]);
      OneMoreFrame(if s.parser.Parked? then s.parser.frame else Frame(0, Continue), Delivered(next, steps[1..]));
    }
  }

  predicate HasLeft(s: State) { s.chat.Tail? || s.chat.Exited? }

  lemma StepLeaves(s: State, step: Step)
    requires Enabled(s, step)
    ensures HasLeft(s) ==> HasLeft(Next(s, step)) && TailOf(s, step) == 0
    ensures !HasLeft(s) ==> if HasLeft(Next(s, step)) then 1 <= TailOf(s, step) <= 3 else TailOf(s, step) == 0
  {
  }

  /** The loop leaves once, with one to three closing events. */
  lemma {:induction false} LeavesOnce(s: State, steps: seq<Step>)
    requires Legal(s, steps)
    ensures HasLeft(s) ==> HasLeft(Exec(s, steps)) && Tails(s, steps) == 0
    ensures !HasLeft(s) ==> if HasLeft(Exec(s, steps)) then 1 <= Tails(s, steps) <= 3 else Tails(s, steps) == 0
    decreases |steps|
  {
    if steps != [] {
      StepLeaves(s, steps[0]);
      LeavesOnce(Next(s, steps[0]), steps[1..]);
    }
  }

  predicate AllContinue(frames: seq<Frame>) { frames == [] || (frames[0].verdict.Continue? && AllContinue(frames[1..])) }

  /** Nothing has made the loop leave early, and nothing in the rest of the body will. */
  predicate Calm(s: State) {
    && s.drain.NotStarted?
    && (s.parser.Parked? ==> s.parser.frame.verdict.Continue?)
    && (s.chat.Emitting? ==> s.chat.verdict.Continue?)
    && AllContinue(s.lines)
  }

  lemma StaysCalm(s: State, step: Step)
    requires Calm(s) && Enabled(s, step) && !step.Stall?
    ensures Calm(Next(s, step)) && !step.Discard?
  {
  }

  lemma {:induction false} CalmDelivers(s: State, steps: seq<Step>)
    requires Calm(s) && Legal(s, steps) && NoStall(steps)
    ensures Delivered(s, steps) == Received(s, steps)
    decreases |steps|
  {
    if steps != [] {
      StaysCalm(s, steps[0]);
      CalmDelivers(Next(s, steps[0]), steps[1..]);
    }
  }

  lemma {:induction false} EndsEmpty(s: State, steps: seq<Step>)
    requires Legal(s, steps) && Unbroken(steps) && (s.parser.Closed? ==> s.lines == [])
    ensures Exec(s, steps).parser.Closed? ==> Exec(s, steps).lines == []
    decreases |steps|
  {
    if steps != [] { EndsEmpty(Next(s, steps[0]), steps[1..]); }
  }

  /** Over an unbroken connection a run that is over has received or drained the whole body,
      in order. Without an early exit the Chat loop heard all of it, and the consumer took
      every event of every payload and then the closing ones. */
  lemma WholeBodyHeard(body: seq<Frame>, hangs: bool, stallArmed: bool, steps: seq<Step>)
    requires Legal(Init(body, hangs, stallArmed), steps) && Unbroken(steps)
    requires AllOver(Exec(Init(body, hangs, stallArmed), steps))
    ensures var s := Init(body, hangs, stallArmed);
      && Received(s, steps) == body
      && 1 <= Tails(s, steps) <= 3
      && Takes(steps) == EventsOf(Delivered(s, steps)) + Tails(s, steps)
      && (AllContinue(body) && NoStall(steps) ==> Delivered(s, steps) == body && Takes(steps) == EventsOf(body) + Tails(s, steps))
  {
    var s := Init(body, hangs, stallArmed);
    BodyAccounted(s, steps);
    EventsAccounted(s, steps);
    LeavesOnce(s, steps);
    ReachableInv(s, steps);
    EndsEmpty(s, steps);
    assert [] + body == body && Received(s, steps) + ([] + []) == Received(s, steps);
    if AllContinue(body) && NoStall(steps) { CalmDelivers(s, steps); }
  }

  /** The watchdog never fires before the first payload, nor when there is none. */
  lemma {:induction false} StallNeedsPayload(s: State, steps: seq<Step>)
    requires Legal(s, steps) && (s.chat == Receiving(false) || !s.stallArmed)
    ensures Delivered(s, steps) == [] || !s.stallArmed ==> NoStall(steps)
    decreases |steps|
  {
    if steps != [] {
      var next := Next(s, steps[0]);
      if next.chat == Receiving(false) || !next.stallArmed {
        StallNeedsPayload(next, steps[1..]);
      } else if !steps[0].Deliver? {
        LeftNeverStalls(next, steps[1..]);
      }
    }
  }

  lemma {:induction false} LeftNeverStalls(s: State, steps: seq<Step>)
    requires Legal(s, steps) && HasLeft(s)
    ensures NoStall(steps)
    decreases |steps|
  {
    if steps != [] { LeftNeverStalls(Next(s, steps[0]), steps[1..]); }
  }

  lemma {:induction false} CancelStays(s: State, steps: seq<Step>)
    requires Legal(s, steps) && s.cancelled
    ensures Exec(s, steps).cancelled
    decreases |steps|
  {
    if steps != [] { CancelStays(Next(s, steps[0]), steps[1..]); }
  }

  /** A consumer that breaks off never leaves anybody waiting for a silent server. */
  lemma BreakEndsWait(s: State, steps: seq<Step>)
    requires Legal(s, steps) && steps != [] && steps[0] == Take(true) && s.consumer.Reading?
    ensures !WaitsForServer(Exec(s, steps))
  {
    CancelStays(Next(s, steps[0]), steps[1..]);
  }
}
