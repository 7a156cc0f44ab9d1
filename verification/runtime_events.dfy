/** Values that travel through one chat turn: what the provider adapter emits, what the
    bridge hands to the engine, what the engine hands to the Send loop, and what reaches
    the client.  A string is a sequence of bytes: one char per byte. */
module RuntimeEvents {
  import opened Basics

  datatype Usage = Usage(input: int, output: int)

  datatype ToolPhase = Calling | Succeeded | Failed | OtherPhase

  datatype ToolEvent = ToolEvent(phase: ToolPhase, callId: string, toolName: string,
                                 args: string, result: string, error: string)

  datatype RenderBlock = RenderBlock(renderType: string, data: string, summary: string)

  /** One event of the adapter's agentic loop. */
  datatype AgentEvent = AgentEvent(textToken: string, toolEvent: Option<ToolEvent>, renderBlock: Option<RenderBlock>,
                                   done: bool, err: Option<string>, tokenUsage: Option<Usage>)

  /** The runtime's mirror of AgentEvent, as the bridge sends it to the engine. */
  datatype StreamEvent = StreamEvent(text: string, tool: Option<ToolEvent>, render: Option<RenderBlock>,
                                     done: bool, err: Option<string>, usage: Option<Usage>)

  /** The error codes "llm_error", "budget_exceeded" and "router_error". */
  datatype Code = LlmCode | BudgetExceeded | RouterCode

  datatype FinishReason = Stop | Cancel | Error

  /** The engine's canonical events.  Unmapped stands for ActionPending, PlanProposed and
      Citation, which the llm engine never emits and the server does not forward. */
  datatype Event =
    | TextDelta(text: string)
    | ToolStart(callId: string, toolName: string, preview: string)
    | ToolEnd(callId: string, toolName: string, ok: bool, preview: string)
    | Render(block: RenderBlock)
    | ErrorEvent(code: Code, message: string)
    | Done(partial: bool, cancelled: bool, reason: FinishReason, promptTokens: int, completionTokens: int)
    | Unmapped

  /** The body of a client-visible event; budget refusals have their own finish reason. */
  datatype WireReason = Finished(reason: FinishReason) | Budget

  datatype Body =
    | WireText(text: string)
    | WireToolStart(callId: string, toolName: string, preview: string)
    | WireToolEnd(callId: string, ok: bool, preview: string)
    | WireRender(block: RenderBlock)
    | WireError(code: Code, message: string)
    | WireDone(partial: bool, cancelled: bool, reason: WireReason, promptTokens: int, completionTokens: int)

  datatype AssistantEvent = AssistantEvent(turnId: string, body: Body)

  // The UTF-8 bytes of the one-character ellipsis.
  const ELLIPSIS: string := "\U{E2}\U{80}\U{A6}"

  const PREVIEW_LIMIT := 512

  function Truncate(s: string, n: nat): string {
    if |s| <= n then s else s[..n] + ELLIPSIS
  }

  /** Go's int32(x): keep the low 32 bits, read as two's complement. */
  function ToInt32(x: int): int {
    var low := x % 0x1_0000_0000;
    if low < 0x8000_0000 then low else low - 0x1_0000_0000
  }

  /** The bridge copies every event field by field. */
  function Mirror(ev: AgentEvent): StreamEvent {
    StreamEvent(ev.textToken, ev.toolEvent, ev.renderBlock, ev.done, ev.err, ev.tokenUsage)
  }

  function MirrorAll(evs: seq<AgentEvent>): (r: seq<StreamEvent>)
    ensures |r| == |evs|
    ensures forall i :: 0 <= i < |evs| ==> r[i] == Mirror(evs[i])
  {
    seq(|evs|, i requires 0 <= i < |evs| => Mirror(evs[i]))
  }

  /** What the engine does with one event: fail the turn, forward one event, or nothing. */
  datatype Verdict = Fails(message: string) | Forwards(event: Event) | Skips

  function Translate(ev: StreamEvent): Verdict {
    if ev.err.Some? then Fails(ev.err.value)
    else if ev.done then Skips
    else if ev.tool.Some? then TranslateTool(ev.tool.value)
    else if ev.render.Some? then Forwards(Render(ev.render.value))
    else if ev.text != "" then Forwards(TextDelta(ev.text))
    else Skips
  }

  function TranslateTool(t: ToolEvent): Verdict {
    match t.phase
    case Calling => Forwards(ToolStart(t.callId, t.toolName, Truncate(t.args, PREVIEW_LIMIT)))
    case Succeeded => Forwards(ToolEnd(t.callId, t.toolName, true, Truncate(t.result, PREVIEW_LIMIT)))
    case Failed => Forwards(ToolEnd(t.callId, t.toolName, false, Truncate(t.error, PREVIEW_LIMIT)))
    case OtherPhase => Skips
  }

  /** The in-order translation of a whole stream (the events that are forwarded). */
  function Translation(evs: seq<StreamEvent>): seq<Event> {
    if evs == [] then []
    else Translation(evs[..|evs| - 1]) + Forwarded(evs[|evs| - 1])
  }

  function Forwarded(ev: StreamEvent): seq<Event> {
    match Translate(ev)
    case Forwards(e) => [e]
    case _ => []
  }

  /** The last token usage reported in a stream; zero when there is none. */
  function LastUsage(evs: seq<StreamEvent>): Usage {
    if evs == [] then Usage(0, 0)
    else if evs[|evs| - 1].usage.Some? then evs[|evs| - 1].usage.value
    else LastUsage(evs[..|evs| - 1])
  }

  /** None of the first n events carries an error. */
  predicate ErrorFree(evs: seq<StreamEvent>, n: nat)
    requires n <= |evs|
  {
    forall i :: 0 <= i < n ==> evs[i].err.None?
  }

  function LlmError(message: string): Event {
    ErrorEvent(LlmCode, message)
  }

  const ERROR_DONE := Done(true, false, Error, 0, 0)

  /** The terminal Done of the tool path, after the loop over the source. */
  function LoopDone(reason: FinishReason, usage: Usage): Event {
    Done(reason != Stop, reason == Cancel, reason, ToInt32(usage.input), ToInt32(usage.output))
  }

  function TextDone(partial: bool): Event {
    Done(partial, partial, if partial then Cancel else Stop, 0, 0)
  }

  function MapBody(ev: Event): Option<Body> {
    match ev
    case TextDelta(t) => Some(WireText(t))
    case ErrorEvent(c, m) => Some(WireError(c, m))
    case Done(p, c, r, i, o) => Some(WireDone(p, c, Finished(r), i, o))
    case ToolStart(id, n, p) => Some(WireToolStart(id, n, p))
    case ToolEnd(id, _, ok, p) => Some(WireToolEnd(id, ok, p))
    case Render(b) => Some(WireRender(b))
    case Unmapped => None
  }

  function MapRouterEvent(turnId: string, ev: Event): Option<AssistantEvent> {
    match MapBody(ev)
    case Some(b) => Some(AssistantEvent(turnId, b))
    case None => None
  }

  function Mapped(turnId: string, ev: Event): seq<AssistantEvent> {
    match MapRouterEvent(turnId, ev)
    case Some(a) => [a]
    case None => []
  }

  function MapAll(turnId: string, evs: seq<Event>): seq<AssistantEvent> {
    if evs == [] then []
    else MapAll(turnId, evs[..|evs| - 1]) + Mapped(turnId, evs[|evs| - 1])
  }

  /** The concatenated text of the TextDelta events. */
  function TextOf(evs: seq<Event>): string {
    if evs == [] then ""
    else TextOf(evs[..|evs| - 1]) + TextPart(evs[|evs| - 1])
  }

  function TextPart(ev: Event): string {
    if ev.TextDelta? then ev.text else ""
  }

  /** The concatenated text the client received. */
  function WireTextOf(evs: seq<AssistantEvent>): string {
    if evs == [] then ""
    else WireTextOf(evs[..|evs| - 1]) + (if evs[|evs| - 1].body.WireText? then evs[|evs| - 1].body.text else "")
  }

  lemma {:induction false} WireTextSnoc(evs: seq<AssistantEvent>, e: AssistantEvent)
    ensures WireTextOf(evs + [e]) == WireTextOf(evs) + (if e.body.WireText? then e.body.text else "")
  {
    assert (evs + [e])[..|evs|] == evs;
  }

  /** Mapping to the wire neither loses nor invents assistant text. */
  lemma {:induction false} MappingKeepsText(turnId: string, evs: seq<Event>)
    ensures WireTextOf(MapAll(turnId, evs)) == TextOf(evs)
  {
    if evs != [] {
      var front, last := evs[..|evs| - 1], evs[|evs| - 1];
      MappingKeepsText(turnId, front);
      MappedText(turnId, MapAll(turnId, front), last);
    }
  }

  lemma MappedText(turnId: string, wire: seq<AssistantEvent>, ev: Event)
    ensures WireTextOf(wire + Mapped(turnId, ev)) == WireTextOf(wire) + TextPart(ev)
  {
    match MapRouterEvent(turnId, ev)
    case Some(a) => WireTextSnoc(wire, a);
    case None => assert wire + [] == wire;
  }

  lemma TranslationSnoc(evs: seq<StreamEvent>, ev: StreamEvent)
    ensures Translation(evs + [ev]) == Translation(evs) + Forwarded(ev)
  {
    assert (evs + [ev])[..|evs|] == evs;
  }

  lemma LastUsageSnoc(evs: seq<StreamEvent>, ev: StreamEvent)
    ensures LastUsage(evs + [ev]) == if ev.usage.Some? then ev.usage.value else LastUsage(evs)
  {
    assert (evs + [ev])[..|evs|] == evs;
  }

  lemma MapAllSnoc(turnId: string, evs: seq<Event>, ev: Event)
    ensures MapAll(turnId, evs + [ev]) == MapAll(turnId, evs) + Mapped(turnId, ev)
  {
    assert (evs + [ev])[..|evs|] == evs;
  }

  lemma TextOfSnoc(evs: seq<Event>, ev: Event)
    ensures TextOf(evs + [ev]) == TextOf(evs) + TextPart(ev)
  {
    assert (evs + [ev])[..|evs|] == evs;
  }
}
