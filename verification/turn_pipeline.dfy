/** One chat turn as a transition system: the bridge goroutine, the engine goroutine and
    the Send loop, joined by two bounded channels, with a context that can be cancelled
    between any two steps.  A schedule is any sequence of enabled actions, so a statement
    about all schedules is a statement about all interleavings. */
module TurnPipeline {
  import opened Basics
  import opened RuntimeEvents

  const CAPACITY := 16

  /** What the provider does with the turn, and which path of the engine runs it. */
  datatype Plan =
    | Tools(events: seq<AgentEvent>)      // agentic loop; the adapter emits these events
    | ToolsRefused(message: string)       // the tool stream could not be opened
    | Text(chunks: seq<string>)           // text-only path
    | TextRefused(message: string)        // the text stream could not be opened

  datatype Bridge = Pulling | Holding(ev: StreamEvent) | BridgeStopped

  /** Everything upstream of the engine. */
  datatype Feed = Feed(
    source: seq<AgentEvent>,        // not yet taken by the bridge
    chunks: seq<string>,            // not yet taken by the text-only engine
    bridge: Bridge,
    c1: seq<StreamEvent>)           // bridge -> engine

  /** Program points of the engine goroutine. */
  datatype Point =
    | Receiving                     // at the head of the loop over the tool stream
    | Checking(ev: StreamEvent)     // received ev, about to look at the context
    | Emitting(event: Event)        // in emit, inside the loop
    | Failing(message: string)      // in emit of the error event
    | FailingDone                   // in emit of the error Done
    | Draining                      // output closed, discarding the rest of the stream
    | Deciding                      // stream closed, about to choose the finish reason
    | Finishing(reason: FinishReason)  // in emit of the terminal Done
    | TextReceiving                 // text-only path, same program points
    | TextChecking(chunk: string)
    | TextEmitting(chunk: string)
    | TextFinishing(partial: bool)  // blocking send of the terminal Done
    | Stopped                       // output closed

  datatype Engine = Engine(
    at: Point,
    usage: Usage,                   // last token usage the engine saw
    consumed: seq<StreamEvent>,     // history: tool events acted on
    consumedChunks: seq<string>)    // history: text chunks acted on

  datatype Phase = Ranging | Sending(ev: AssistantEvent) | Discarding | Returned(ok: bool)

  /** The Send loop and what it produced. */
  datatype Client = Client(
    phase: Phase,
    text: string,                   // the assistant buffer
    wire: seq<AssistantEvent>,      // sent to the client
    received: seq<Event>)           // history: taken from c2 before any failure

  datatype State = State(
    plan: Plan,
    turnId: string,
    feed: Feed,
    engine: Engine,
    c2: seq<Event>,                 // engine -> Send loop
    emitted: seq<Event>,            // history: everything put on c2
    client: Client,
    cancelled: bool,                // the turn's context is done
    interrupted: bool)              // history: it was, before the turn's own end

  datatype Action =
    | Bridging(b: BridgeAction)     // the bridge goroutine
    | Driving(e: EngineAction)      // the engine goroutine, either path
    | Looping(l: LoopAction)        // the Send loop
    | SourceAbandon                 // the provider gives up its stream: only when cancelled
    | CancelTurn                    // CancelTurn, or the client's stream going away

  datatype BridgeAction = Pull | Close | Put | Drop
  datatype EngineAction = Receive | SeeClosed | Check | Emit | SkipEmit | Decide | Discard | EndDiscard
                        | TakeChunk | SeeEnd | CheckChunk
  datatype LoopAction = Take | Deliver | FailDelivery | DiscardOne | EndFailed | EndTurn

  function Init(plan: Plan, turnId: string): State {
    var refused := if plan.TextRefused? then [LlmError(plan.message), ERROR_DONE] else [];
    State(plan, turnId,
          Feed(if plan.Tools? then plan.events else [], if plan.Text? then plan.chunks else [],
               if plan.Tools? then Pulling else BridgeStopped, []),
          Engine(match plan {
                   case Tools(_) => Receiving
                   case ToolsRefused(m) => Failing(m)
                   case Text(_) => TextReceiving
                   case TextRefused(_) => Stopped
                 },
                 Usage(0, 0), [], []),
          refused, refused, Client(Ranging, "", [], []), false, false)
  }

  /** The event the engine is trying to put on c2. */
  function Offered(e: Engine): Option<Event> {
    match e.at
    case Emitting(ev) => Some(ev)
    case Failing(m) => Some(LlmError(m))
    case FailingDone => Some(ERROR_DONE)
    case Finishing(r) => Some(LoopDone(r, e.usage))
    case TextEmitting(c) => Some(TextDelta(c))
    case TextFinishing(p) => Some(TextDone(p))
    case _ => None
  }

  /** The program point after the event went out. */
  function AfterEmit(p: Point): Point {
    match p
    case Emitting(_) => Receiving
    case Failing(_) => FailingDone
    case FailingDone => Draining
    case TextEmitting(_) => TextReceiving
    case _ => Stopped
  }

  /** The program point after the select took its cancellation arm. */
  function AfterSkip(p: Point): Point {
    if p.TextEmitting? then TextFinishing(true) else AfterEmit(p)
  }

  predicate OutputClosed(e: Engine) {
    e.at.Stopped? || e.at.Draining?
  }

  predicate BridgeEnabled(a: BridgeAction, s: State) {
    match a
    case Pull => s.feed.bridge.Pulling? && s.feed.source != []
    case Close => s.feed.bridge.Pulling? && s.feed.source == []
    case Put => s.feed.bridge.Holding? && |s.feed.c1| < CAPACITY
    case Drop => s.feed.bridge.Holding? && s.cancelled
  }

  function BridgeStep(a: BridgeAction, f: Feed): Feed
    requires a.Pull? ==> f.source != []
    requires a.Put? ==> f.bridge.Holding?
  {
    match a
    case Pull => f.(bridge := Holding(Mirror(f.source[0])), source := f.source[1..])
    case Close => f.(bridge := BridgeStopped)
    case Put => f.(bridge := Pulling, c1 := f.c1 + [f.bridge.ev])
    case Drop => f.(bridge := BridgeStopped)
  }

  predicate EngineEnabled(a: EngineAction, s: State) {
    match a
    case Receive => s.engine.at.Receiving? && s.feed.c1 != []
    case SeeClosed => s.engine.at.Receiving? && s.feed.c1 == [] && s.feed.bridge.BridgeStopped?
    case Check => s.engine.at.Checking?
    case Emit => Offered(s.engine).Some? && |s.c2| < CAPACITY
    case SkipEmit => Offered(s.engine).Some? && s.cancelled && !s.engine.at.TextFinishing?
    case Decide => s.engine.at.Deciding?
    case Discard => s.engine.at.Draining? && s.feed.c1 != []
    case EndDiscard => s.engine.at.Draining? && s.feed.c1 == [] && s.feed.bridge.BridgeStopped?
    case TakeChunk => s.engine.at.TextReceiving? && s.feed.chunks != []
    case SeeEnd => s.engine.at.TextReceiving? && s.feed.chunks == []
    case CheckChunk => s.engine.at.TextChecking?
  }

  function EngineStep(a: EngineAction, s: State): State
    requires EngineEnabled(a, s)
  {
    match a
    case Receive => s.(engine := s.engine.(at := Checking(s.feed.c1[0])), feed := s.feed.(c1 := s.feed.c1[1..]))
    case SeeClosed => s.(engine := s.engine.(at := Deciding))
    case Check => s.(engine := if s.cancelled then s.engine.(at := Finishing(Cancel)) else Act(s.engine))
    case Emit =>
      var e := Offered(s.engine).value;
      s.(engine := s.engine.(at := AfterEmit(s.engine.at)), c2 := s.c2 + [e], emitted := s.emitted + [e])
    case SkipEmit => s.(engine := s.engine.(at := AfterSkip(s.engine.at)))
    case Decide => s.(engine := s.engine.(at := Finishing(if s.cancelled then Cancel else Stop)))
    case Discard => s.(feed := s.feed.(c1 := s.feed.c1[1..]))
    case EndDiscard => s.(engine := s.engine.(at := Stopped))
    case TakeChunk =>
      s.(engine := s.engine.(at := TextChecking(s.feed.chunks[0])), feed := s.feed.(chunks := s.feed.chunks[1..]))
    case SeeEnd => s.(engine := s.engine.(at := TextFinishing(false)))
    case CheckChunk => s.(engine := if s.cancelled then s.engine.(at := TextFinishing(true)) else ActOnChunk(s.engine))
  }

  /** The body of the tool path's loop, up to its emit. */
  function Act(e: Engine): Engine
    requires e.at.Checking?
  {
    var ev := e.at.ev;
    Engine(match Translate(ev) {
             case Fails(m) => Failing(m)
             case Forwards(out) => Emitting(out)
             case Skips => Receiving
           },
           if ev.usage.Some? then ev.usage.value else e.usage,
           e.consumed + [ev], e.consumedChunks)
  }

  /** The body of the text-only path's loop, up to its select. */
  function ActOnChunk(e: Engine): Engine
    requires e.at.TextChecking?
  {
    e.(at := TextEmitting(e.at.chunk), consumedChunks := e.consumedChunks + [e.at.chunk])
  }

  predicate LoopEnabled(a: LoopAction, s: State) {
    match a
    case Take => s.client.phase.Ranging? && s.c2 != []
    case Deliver => s.client.phase.Sending?
    case FailDelivery => s.client.phase.Sending?
    case DiscardOne => s.client.phase.Discarding? && s.c2 != []
    case EndFailed => s.client.phase.Discarding? && s.c2 == [] && OutputClosed(s.engine)
    case EndTurn => s.client.phase.Ranging? && s.c2 == [] && OutputClosed(s.engine)
  }

  function LoopStep(a: LoopAction, s: State): State
    requires LoopEnabled(a, s)
  {
    match a
    case Take => s.(c2 := s.c2[1..], client := Accept(s.client, s.turnId, s.c2[0]))
    case Deliver => s.(client := s.client.(phase := Ranging, wire := s.client.wire + [s.client.phase.ev]))
    case FailDelivery => s.(client := s.client.(phase := Discarding), cancelled := true, interrupted := true)
    case DiscardOne => s.(c2 := s.c2[1..])
    case EndFailed => s.(client := s.client.(phase := Returned(false)))
    case EndTurn => s.(client := s.client.(phase := Returned(true)), cancelled := true)
  }

  /** The Send loop takes one event: buffer its text, then map it for the wire. */
  function Accept(c: Client, turnId: string, ev: Event): Client {
    Client(match MapRouterEvent(turnId, ev) {
             case Some(m) => Sending(m)
             case None => Ranging
           },
           c.text + TextPart(ev), c.wire, c.received + [ev])
  }

  predicate Enabled(a: Action, s: State) {
    match a
    case Bridging(b) => BridgeEnabled(b, s)
    case Driving(e) => EngineEnabled(e, s)
    case Looping(l) => LoopEnabled(l, s)
    case SourceAbandon => s.cancelled && (s.feed.source != [] || s.feed.chunks != [])
    case CancelTurn => !s.cancelled
  }

  function Apply(a: Action, s: State): State
    requires Enabled(a, s)
  {
    match a
    case Bridging(b) => s.(feed := BridgeStep(b, s.feed))
    case Driving(e) => EngineStep(e, s)
    case Looping(l) => LoopStep(l, s)
    case SourceAbandon => s.(feed := s.feed.(source := [], chunks := []))
    case CancelTurn => s.(cancelled := true, interrupted := true)
  }

  /** The state a schedule leads to; None when it takes a disabled action. */
  function Run(s: State, schedule: seq<Action>): Option<State> {
    if schedule == [] then Some(s)
    else
      var front := Run(s, schedule[..|schedule| - 1]);
      var last := schedule[|schedule| - 1];
      if front.Some? && Enabled(last, front.value) then Some(Apply(last, front.value)) else None
  }

  /** Every goroutine has ended. */
  predicate Terminal(s: State) {
    s.feed.bridge.BridgeStopped? && s.engine.at.Stopped? && s.client.phase.Returned?
  }

  // ------------------------------------------------------------------ what a turn may put out

  function ChunkEvents(chunks: seq<string>): (r: seq<Event>)
    ensures |r| == |chunks|
  {
    seq(|chunks|, i requires 0 <= i < |chunks| => TextDelta(chunks[i]))
  }

  /** The whole output of a turn that nobody interrupts. */
  function Script(plan: Plan): seq<Event> {
    match plan
    case Tools(evs) => ToolScript(MirrorAll(evs))
    case ToolsRefused(m) => [LlmError(m), ERROR_DONE]
    case Text(chunks) => ChunkEvents(chunks) + [TextDone(false)]
    case TextRefused(m) => [LlmError(m), ERROR_DONE]
  }

  function ToolScript(evs: seq<StreamEvent>): seq<Event> {
    var n := FirstError(evs);
    if n < |evs| then Translation(evs[..n]) + [LlmError(evs[n].err.value), ERROR_DONE]
    else Translation(evs) + [LoopDone(Stop, LastUsage(evs))]
  }

  /** The index of the first event that carries an error; |evs| when there is none. */
  function FirstError(evs: seq<StreamEvent>): (n: nat)
    ensures n <= |evs| && ErrorFree(evs, n)
    ensures n < |evs| ==> evs[n].err.Some?
  {
    if evs == [] then 0
    else
      var n := FirstError(evs[..|evs| - 1]);
      if n < |evs| - 1 || evs[|evs| - 1].err.Some? then n else |evs|
  }

  lemma FirstErrorIs(evs: seq<StreamEvent>, n: nat)
    requires n <= |evs| && ErrorFree(evs, n) && (n < |evs| ==> evs[n].err.Some?)
    ensures FirstError(evs) == n
  {
  }

  /** out is an in-order translation of the first n tool events, at most followed by the
      terminal events.  A Done that says stop follows the complete translation. */
  ghost predicate ToolOutput(evs: seq<StreamEvent>, n: nat, out: seq<Event>) {
    n <= |evs| && ErrorFree(evs, n) &&
    var body := Translation(evs[..n]);
    || out == body
    || (n == |evs| && out == body + [LoopDone(Stop, LastUsage(evs))])
    || CancelOutput(evs, n, out)
    || (n < |evs| && evs[n].err.Some? && FailureOutput(body, evs[n].err.value, out))
  }

  /** A cancelled turn reports the usage of the events it acted on: those it translated, and
      perhaps one more that was lost or had no translation. */
  ghost predicate CancelOutput(evs: seq<StreamEvent>, n: nat, out: seq<Event>)
    requires n <= |evs|
  {
    var body := Translation(evs[..n]);
    || out == body + [LoopDone(Cancel, LastUsage(evs[..n]))]
    || (n < |evs| && evs[n].err.None? && out == body + [LoopDone(Cancel, LastUsage(evs[..n + 1]))])
  }

  ghost predicate FailureOutput(body: seq<Event>, message: string, out: seq<Event>) {
    || out == body + [LlmError(message)]
    || out == body + [LlmError(message), ERROR_DONE]
    || out == body + [ERROR_DONE]
  }

  /** The text-only path never asks the context once the stream has closed, so here a Done
      that says stop may follow any prefix. */
  ghost predicate TextOutput(chunks: seq<string>, n: nat, out: seq<Event>) {
    n <= |chunks| &&
    var body := ChunkEvents(chunks[..n]);
    out == body || out == body + [TextDone(false)] || out == body + [TextDone(true)]
  }

  /** Everything the engine may have put out for this plan. */
  ghost predicate PlanOutput(plan: Plan, out: seq<Event>) {
    match plan
    case Tools(evs) => exists n: nat :: ToolOutput(MirrorAll(evs), n, out)
    case ToolsRefused(m) => out == [] || FailureOutput([], m, out)
    case Text(chunks) => exists n: nat :: TextOutput(chunks, n, out)
    case TextRefused(m) => out == [LlmError(m), ERROR_DONE]
  }
}
