/** What the client of a turn sees, told from the provider's events alone. */
module TurnLaws {
  import opened Basics
  import opened RuntimeEvents
  import opened TurnPipeline
  import opened TurnTheorems
  import LlmAdapter

  // ------------------------------------------------------------------ source and wire

  /** The event has something for the client. */
  predicate HasContent(ev: AgentEvent) {
    !ev.done &&
    match ev.toolEvent
    case Some(t) => t.phase != OtherPhase
    case None => ev.renderBlock.Some? || ev.textToken != ""
  }

  function Visible(evs: seq<AgentEvent>): seq<AgentEvent> {
    if evs == [] then []
    else
      var last := evs[|evs| - 1];
      Visible(evs[..|evs| - 1]) + (if HasContent(last) then [last] else [])
  }

  /** All of a short text; the first 512 bytes of a long one and an ellipsis. */
  predicate Previews(p: string, s: string) {
    if |s| <= 512 then p == s else p == s[..512] + "\U{E2}\U{80}\U{A6}"
  }

  /** The body a client receives for an event. */
  predicate Depicts(b: Body, ev: AgentEvent) {
    match ev.toolEvent
    case Some(t) =>
      if t.phase == Calling then
        b.WireToolStart? && b.callId == t.callId && b.toolName == t.toolName && Previews(b.preview, t.args)
      else
        && b.WireToolEnd? && b.callId == t.callId
        && (b.ok <==> t.phase == Succeeded)
        && Previews(b.preview, if t.phase == Succeeded then t.result else t.error)
    case None =>
      if ev.renderBlock.Some? then b == WireRender(ev.renderBlock.value) else b == WireText(ev.textToken)
  }

  /** One body for each event, in order. */
  predicate DepictsAll(bodies: seq<Body>, evs: seq<AgentEvent>) {
    |bodies| == |evs| && forall i :: 0 <= i < |evs| ==> Depicts(bodies[i], evs[i])
  }

  function Bodies(wire: seq<AssistantEvent>): (r: seq<Body>)
    ensures |r| == |wire|
  {
    seq(|wire|, i requires 0 <= i < |wire| => wire[i].body)
  }

  /** The bodies of events that have a wire form. */
  function BodiesOf(events: seq<Event>): seq<Body> {
    if events == [] then []
    else
      var last := MapBody(events[|events| - 1]);
      BodiesOf(events[..|events| - 1]) + (if last.Some? then [last.value] else [])
  }

  lemma {:induction false} BodiesOfMapped(turnId: string, events: seq<Event>)
    ensures Bodies(MapAll(turnId, events)) == BodiesOf(events)
  {
    if events != [] {
      BodiesOfMapped(turnId, events[..|events| - 1]);
    }
  }

  lemma {:induction false} BodiesSnoc(events: seq<Event>, e: Event)
    ensures BodiesOf(events + [e]) == BodiesOf(events) + (if MapBody(e).Some? then [MapBody(e).value] else [])
  {
    assert (events + [e])[..|events|] == events;
  }

  /** What the assistant says in these events. */
  function PlainText(evs: seq<AgentEvent>): string {
    if evs == [] then ""
    else
      var last := evs[|evs| - 1];
      PlainText(evs[..|evs| - 1])
      + (if !last.done && last.toolEvent.None? && last.renderBlock.None? then last.textToken else "")
  }

  /** r is x in 32 bits, two's complement. */
  predicate WrapsTo32(x: int, r: int) {
    -0x8000_0000 <= r < 0x8000_0000 && (x - r) % 0x1_0000_0000 == 0
  }

  /** The last usage reported, or none at all. */
  ghost predicate ReportsUsage(evs: seq<AgentEvent>, prompt: int, completion: int) {
    if forall i :: 0 <= i < |evs| ==> evs[i].tokenUsage.None? then prompt == 0 && completion == 0
    else exists k :: LastReport(evs, k) && WrapsTo32(evs[k].tokenUsage.value.input, prompt)
                     && WrapsTo32(evs[k].tokenUsage.value.output, completion)
  }

  predicate LastReport(evs: seq<AgentEvent>, k: int) {
    0 <= k < |evs| && evs[k].tokenUsage.Some? && forall i :: k < i < |evs| ==> evs[i].tokenUsage.None?
  }

  // ------------------------------------------------------------------ the translation, event by event

  /** One event: forwarded exactly if it has content, and as what it is. */
  predicate ForwardsContent(ev: AgentEvent, out: seq<Event>) {
    if HasContent(ev) then |out| == 1 && MapBody(out[0]).Some? && Depicts(MapBody(out[0]).value, ev) else out == []
  }

  lemma {:induction false} ForwardedDepicts(ev: AgentEvent)
    requires ev.err.None?
    ensures ForwardsContent(ev, Forwarded(Mirror(ev)))
  {
  }

  lemma {:induction false} ForwardedText(ev: AgentEvent)
    requires ev.err.None?
    ensures TextOf(Forwarded(Mirror(ev)))
         == if !ev.done && ev.toolEvent.None? && ev.renderBlock.None? then ev.textToken else ""
  {
    if Forwarded(Mirror(ev)) != [] {
      TextOfOne(Forwarded(Mirror(ev))[0]);
    }
  }

  predicate NoErrors(evs: seq<AgentEvent>) {
    forall i :: 0 <= i < |evs| ==> evs[i].err.None?
  }

  lemma {:induction false} TranslationLast(evs: seq<AgentEvent>)
    requires evs != []
    ensures Translation(MirrorAll(evs))
         == Translation(MirrorAll(evs[..|evs| - 1])) + Forwarded(Mirror(evs[|evs| - 1]))
  {
    var front, last := evs[..|evs| - 1], evs[|evs| - 1];
    assert MirrorAll(evs) == MirrorAll(front) + [Mirror(last)];
    TranslationSnoc(MirrorAll(front), Mirror(last));
  }

  lemma {:induction false} TranslationDepicts(evs: seq<AgentEvent>)
    requires NoErrors(evs)
    ensures DepictsAll(BodiesOf(Translation(MirrorAll(evs))), Visible(evs))
  {
    if evs != [] {
      var front, last := evs[..|evs| - 1], evs[|evs| - 1];
      TranslationDepicts(front);
      TranslationLast(evs);
      ForwardedDepicts(last);
      DepictsMore(Translation(MirrorAll(front)), Visible(front), last, Forwarded(Mirror(last)));
    }
  }

  lemma {:induction false} DepictsMore(out: seq<Event>, shown: seq<AgentEvent>, ev: AgentEvent, more: seq<Event>)
    requires DepictsAll(BodiesOf(out), shown) && ForwardsContent(ev, more)
    ensures DepictsAll(BodiesOf(out + more), shown + (if HasContent(ev) then [ev] else []))
  {
    if HasContent(ev) {
      assert more == [more[0]];
      BodiesSnoc(out, more[0]);
    } else {
      assert out + more == out;
    }
  }

  lemma {:induction false} TranslationText(evs: seq<AgentEvent>)
    requires NoErrors(evs)
    ensures TextOf(Translation(MirrorAll(evs))) == PlainText(evs)
  {
    if evs != [] {
      var front, last := evs[..|evs| - 1], evs[|evs| - 1];
      TranslationText(front);
      TranslationLast(evs);
      ForwardedDepicts(last);
      ForwardedText(last);
      TextMore(Translation(MirrorAll(front)), Forwarded(Mirror(last)));
    }
  }

  lemma {:induction false} TextMore(out: seq<Event>, more: seq<Event>)
    requires |more| <= 1
    ensures TextOf(out + more) == TextOf(out) + TextOf(more)
  {
    if |more| == 0 {
      assert out + more == out;
    } else {
      var e := more[0];
      assert more == [e];
      TextOfSnoc(out, e);
      TextOfOne(e);
    }
  }

  lemma {:induction false} TextOfOne(e: Event)
    ensures TextOf([e]) == TextPart(e)
  {
    assert [e][..0] == [];
  }

  lemma {:induction false} WrapsUniquely(x: int)
    ensures WrapsTo32(x, ToInt32(x))
  {
  }

  lemma {:induction false} UsageIsLast(evs: seq<AgentEvent>)
    ensures IsLastUsage(evs, LastUsage(MirrorAll(evs)))
  {
    if evs != [] {
      var front, last := evs[..|evs| - 1], evs[|evs| - 1];
      UsageIsLast(front);
      assert MirrorAll(evs) == MirrorAll(front) + [Mirror(last)];
      LastUsageSnoc(MirrorAll(front), Mirror(last));
      assert evs == front + [last];
      UsageStep(front, last, LastUsage(MirrorAll(front)));
    }
  }

  lemma {:induction false} UsageStep(front: seq<AgentEvent>, last: AgentEvent, u: Usage)
    requires IsLastUsage(front, u)
    ensures IsLastUsage(front + [last], if last.tokenUsage.Some? then last.tokenUsage.value else u)
  {
    var evs := front + [last];
    if last.tokenUsage.Some? {
      assert LastReport(evs, |front|);
    } else if !(forall i :: 0 <= i < |front| ==> front[i].tokenUsage.None?) {
      var k :| LastReport(front, k) && front[k].tokenUsage == Some(u);
      assert LastReport(evs, k) && evs[k] == front[k];
    } else {
      assert forall i :: 0 <= i < |front| ==> evs[i] == front[i];
    }
  }

  ghost predicate IsLastUsage(evs: seq<AgentEvent>, u: Usage) {
    if forall i :: 0 <= i < |evs| ==> evs[i].tokenUsage.None? then u == Usage(0, 0)
    else exists k :: LastReport(evs, k) && evs[k].tokenUsage == Some(u)
  }

  // ------------------------------------------------------------------ uninterrupted turns

  /** The events before the first error, n of them, each with content shown once; then the
      error and its Done, or a Done that says stop with the last usage. */
  ghost predicate ShowsTurn(evs: seq<AgentEvent>, n: nat, b: seq<Body>) {
    n <= |evs| && NoErrors(evs[..n]) &&
    if n < |evs| then
      && evs[n].err.Some? && |b| >= 2
      && DepictsAll(b[..|b| - 2], Visible(evs[..n]))
      && b[|b| - 2] == WireError(LlmCode, evs[n].err.value)
      && b[|b| - 1] == WireDone(true, false, Finished(Error), 0, 0)
    else
      |b| >= 1 && DepictsAll(b[..|b| - 1], Visible(evs)) && EndsWell(evs, b[|b| - 1])
  }

  ghost predicate EndsWell(evs: seq<AgentEvent>, d: Body) {
    && d.WireDone? && !d.partial && !d.cancelled && d.reason == Finished(Stop)
    && ReportsUsage(evs, d.promptTokens, d.completionTokens)
  }

  lemma {:induction false} CleanTurnShows(evs: seq<AgentEvent>)
    requires NoErrors(evs)
    ensures var out := Translation(MirrorAll(evs)) + [LoopDone(Stop, LastUsage(MirrorAll(evs)))];
      ShowsTurn(evs, |evs|, BodiesOf(out)) && TextOf(out) == PlainText(evs)
  {
    assert evs[..|evs|] == evs;
    TranslationDepicts(evs);
    TranslationText(evs);
    OneMore(Translation(MirrorAll(evs)), LoopDone(Stop, LastUsage(MirrorAll(evs))));
    DoneEndsWell(evs);
  }

  lemma {:induction false} DoneEndsWell(evs: seq<AgentEvent>)
    ensures EndsWell(evs, MapBody(LoopDone(Stop, LastUsage(MirrorAll(evs)))).value)
  {
    var u := LastUsage(MirrorAll(evs));
    UsageIsLast(evs);
    WrapsUniquely(u.input);
    WrapsUniquely(u.output);
  }

  lemma {:induction false} OneMore(body: seq<Event>, done: Event)
    requires done.Done?
    ensures var b := BodiesOf(body + [done]);
      b == BodiesOf(body) + [MapBody(done).value] && b[..|b| - 1] == BodiesOf(body)
    ensures TextOf(body + [done]) == TextOf(body)
  {
    BodiesSnoc(body, done);
    TextOfSnoc(body, done);
  }

  lemma {:induction false} TwoMore(body: seq<Event>, m: string)
    ensures var out := body + [LlmError(m), ERROR_DONE];
      && BodiesOf(out) == BodiesOf(body) + [WireError(LlmCode, m), WireDone(true, false, Finished(Error), 0, 0)]
      && TextOf(out) == TextOf(body)
  {
    assert body + [LlmError(m), ERROR_DONE] == body + [LlmError(m)] + [ERROR_DONE];
    BodiesSnoc(body, LlmError(m));
    TextOfSnoc(body, LlmError(m));
    OneMore(body + [LlmError(m)], ERROR_DONE);
  }

  lemma {:induction false} FailedTurnShows(evs: seq<AgentEvent>, n: nat)
    requires n < |evs| && NoErrors(evs[..n]) && evs[n].err.Some?
    ensures var out := Translation(MirrorAll(evs[..n])) + [LlmError(evs[n].err.value), ERROR_DONE];
      ShowsTurn(evs, n, BodiesOf(out)) && TextOf(out) == PlainText(evs[..n])
  {
    var body := Translation(MirrorAll(evs[..n]));
    TranslationDepicts(evs[..n]);
    TranslationText(evs[..n]);
    TwoMore(body, evs[n].err.value);
    var b := BodiesOf(body + [LlmError(evs[n].err.value), ERROR_DONE]);
    assert b[..|b| - 2] == BodiesOf(body);
  }

  lemma {:induction false} ScriptShows(evs: seq<AgentEvent>) returns (n: nat)
    ensures ShowsTurn(evs, n, BodiesOf(Script(Tools(evs)))) && TextOf(Script(Tools(evs))) == PlainText(evs[..n])
  {
    n := FirstError(MirrorAll(evs));
    assert MirrorAll(evs)[..n] == MirrorAll(evs[..n]);
    forall i | 0 <= i < n ensures evs[i].err.None? {
      assert MirrorAll(evs)[i].err.None?;
    }
    if n < |evs| {
      FailedTurnShows(evs, n);
    } else {
      assert evs[..n] == evs;
      CleanTurnShows(evs);
    }
  }

  /** A tool turn nobody interrupts shows the client every event that has something to show,
      once and in order, up to the first error; its text is the text of those events. */
  lemma {:induction false} ToolTurnShows(evs: seq<AgentEvent>, turnId: string, s: State)
    requires Reachable(Tools(evs), turnId, s) && s.client.phase.Returned? && !s.interrupted
    ensures exists n: nat ::
              ShowsTurn(evs, n, Bodies(s.client.wire)) && WireTextOf(s.client.wire) == PlainText(evs[..n])
  {
    UninterruptedIsComplete(Tools(evs), turnId, s);
    MappingKeepsText(turnId, Script(Tools(evs)));
    BodiesOfMapped(turnId, Script(Tools(evs)));
    var n := ScriptShows(evs);
  }

  /** Without an error, the client's text is the text of all events that are text. */
  lemma {:induction false} ToolTurnText(evs: seq<AgentEvent>, turnId: string, s: State)
    requires Reachable(Tools(evs), turnId, s) && s.client.phase.Returned? && !s.interrupted && NoErrors(evs)
    ensures WireTextOf(s.client.wire) == PlainText(evs)
    ensures (forall i :: 0 <= i < |evs| ==> !evs[i].done && evs[i].toolEvent.None? && evs[i].renderBlock.None?) ==>
              WireTextOf(s.client.wire) == LlmAdapter.SourceText(evs)
  {
    ToolTurnShows(evs, turnId, s);
    assert evs[..|evs|] == evs;
    PureText(evs);
  }

  lemma {:induction false} PureText(evs: seq<AgentEvent>)
    ensures (forall i :: 0 <= i < |evs| ==> !evs[i].done && evs[i].toolEvent.None? && evs[i].renderBlock.None?) ==>
              PlainText(evs) == LlmAdapter.SourceText(evs)
  {
    if evs != [] {
      var front := evs[..|evs| - 1];
      PureText(front);
      assert forall i :: 0 <= i < |front| ==> front[i] == evs[i];
    }
  }

  function Spoken(chunks: seq<string>): seq<Body> {
    seq(|chunks|, i requires 0 <= i < |chunks| => WireText(chunks[i]))
  }

  /** A text turn nobody interrupts shows its chunks and a Done. */
  lemma {:induction false} TextTurnShows(chunks: seq<string>, turnId: string, s: State)
    requires Reachable(Text(chunks), turnId, s) && s.client.phase.Returned? && !s.interrupted
    ensures Bodies(s.client.wire) == Spoken(chunks) + [WireDone(false, false, Finished(Stop), 0, 0)]
  {
    UninterruptedIsComplete(Text(chunks), turnId, s);
    BodiesOfMapped(turnId, Script(Text(chunks)));
    TextScriptShows(chunks);
  }

  lemma {:induction false} TextScriptShows(chunks: seq<string>)
    ensures BodiesOf(Script(Text(chunks))) == Spoken(chunks) + [WireDone(false, false, Finished(Stop), 0, 0)]
  {
    ChunksShow(chunks);
    BodiesSnoc(ChunkEvents(chunks), TextDone(false));
  }

  lemma {:induction false} ChunksShow(chunks: seq<string>)
    ensures BodiesOf(ChunkEvents(chunks)) == Spoken(chunks)
  {
    if chunks != [] {
      var front, last := chunks[..|chunks| - 1], chunks[|chunks| - 1];
      ChunksShow(front);
      assert ChunkEvents(chunks) == ChunkEvents(front) + [TextDelta(last)];
      BodiesSnoc(ChunkEvents(front), TextDelta(last));
    }
  }

  /** A refused stream shows its error. */
  lemma {:induction false} RefusedTurnShows(plan: Plan, m: string, turnId: string, s: State)
    requires plan == ToolsRefused(m) || plan == TextRefused(m)
    requires Reachable(plan, turnId, s) && s.client.phase.Returned? && !s.interrupted
    ensures Bodies(s.client.wire) == [WireError(LlmCode, m), WireDone(true, false, Finished(Error), 0, 0)]
  {
    UninterruptedIsComplete(plan, turnId, s);
    TwoMore([], m);
    assert [] + [LlmError(m), ERROR_DONE] == Script(plan);
    BodiesOfMapped(turnId, Script(plan));
  }

  // ------------------------------------------------------------------ every turn

  /** The bodies depict a prefix of the source, but for at most two that end the turn. */
  predicate ShowsPrefix(evs: seq<AgentEvent>, n: nat, b: seq<Body>, k: nat) {
    && n <= |evs| && k <= 2 && k <= |b|
    && DepictsAll(b[..|b| - k], Visible(evs[..n]))
    && forall i :: |b| - k <= i < |b| ==> b[i].WireError? || b[i].WireDone?
  }

  /** The output has the body and at most two terminal events. */
  predicate Extends(body: seq<Event>, out: seq<Event>) {
    || out == body
    || (|out| == |body| + 1 && out == body + [out[|body|]] && Terminates(out[|body|]))
    || (|out| == |body| + 2 && out == body + [out[|body|]] + [out[|body| + 1]] && Terminates(out[|body|])
        && Terminates(out[|body| + 1]))
  }

  predicate Terminates(e: Event) {
    e.ErrorEvent? || e.Done?
  }

  lemma {:induction false} ToolOutputExtends(all: seq<StreamEvent>, n: nat, out: seq<Event>)
    requires ToolOutput(all, n, out)
    ensures Extends(Translation(all[..n]), out)
  {
  }

  lemma {:induction false} ExtendsShows(body: seq<Event>, out: seq<Event>)
    requires Extends(body, out)
    ensures var b, k := BodiesOf(out), |out| - |body|;
      && 0 <= k <= 2 && |b| == |BodiesOf(body)| + k && b[..|b| - k] == BodiesOf(body)
      && forall i :: |b| - k <= i < |b| ==> b[i].WireError? || b[i].WireDone?
  {
    if |out| >= |body| + 1 {
      BodiesSnoc(body, out[|body|]);
    }
    if |out| == |body| + 2 {
      BodiesSnoc(body + [out[|body|]], out[|body| + 1]);
    }
  }

  lemma {:induction false} OutputShows(evs: seq<AgentEvent>, n: nat, out: seq<Event>)
    requires ToolOutput(MirrorAll(evs), n, out)
    ensures exists k: nat :: ShowsPrefix(evs, n, BodiesOf(out), k)
  {
    assert MirrorAll(evs)[..n] == MirrorAll(evs[..n]);
    forall i | 0 <= i < n ensures evs[i].err.None? {
      assert MirrorAll(evs)[i].err.None?;
    }
    var body := Translation(MirrorAll(evs[..n]));
    TranslationDepicts(evs[..n]);
    ToolOutputExtends(MirrorAll(evs), n, out);
    ExtendsShows(body, out);
    assert ShowsPrefix(evs, n, BodiesOf(out), |out| - |body|);
  }

  /** Cancelled or not: what came over the wire before any Error or Done depicts the events
      of a prefix of the source. */
  lemma {:induction false} EveryWireDepicts(evs: seq<AgentEvent>, turnId: string, s: State)
    requires Reachable(Tools(evs), turnId, s) && s.client.phase == Returned(true)
    ensures exists n: nat, k: nat :: ShowsPrefix(evs, n, Bodies(s.client.wire), k)
  {
    EveryInterleaving(Tools(evs), turnId, s);
    BufferIsWireText(Tools(evs), turnId, s);
    BodiesOfMapped(turnId, s.emitted);
    var n: nat :| ToolOutput(MirrorAll(evs), n, s.emitted);
    OutputShows(evs, n, s.emitted);
    var k: nat :| ShowsPrefix(evs, n, BodiesOf(s.emitted), k);
  }

  /** A Done is partial unless it says stop, and cancelled exactly when it says cancel. */
  predicate Consistent(e: Event) {
    e.Done? ==> (e.partial <==> e.reason != Stop) && (e.cancelled <==> e.reason == Cancel)
  }

  lemma {:induction false} ToolOutputConsistent(all: seq<StreamEvent>, n: nat, out: seq<Event>)
    requires ToolOutput(all, n, out)
    ensures forall i :: 0 <= i < |out| ==> Consistent(out[i])
  {
    TranslationHasNoDone(all[..n]);
  }

  lemma {:induction false} DonesAreConsistent(plan: Plan, turnId: string, s: State)
    requires Reachable(plan, turnId, s)
    ensures forall i :: 0 <= i < |s.emitted| ==> Consistent(s.emitted[i])
  {
    EveryInterleaving(plan, turnId, s);
    match plan
    case Tools(evs) =>
      var n: nat :| ToolOutput(MirrorAll(evs), n, s.emitted);
      ToolOutputConsistent(MirrorAll(evs), n, s.emitted);
    case Text(chunks) =>
      var n: nat :| TextOutput(chunks, n, s.emitted);
      TextOutputConsistent(chunks, n, s.emitted);
    case _ =>
  }

  lemma {:induction false} TextOutputConsistent(chunks: seq<string>, n: nat, out: seq<Event>)
    requires TextOutput(chunks, n, out)
    ensures forall i :: 0 <= i < |out| ==> Consistent(out[i])
  {
  }

  /** The engine's errors are all of one code. */
  lemma {:induction false} EngineErrors(plan: Plan, turnId: string, s: State)
    requires Reachable(plan, turnId, s)
    ensures forall i :: 0 <= i < |s.emitted| && s.emitted[i].ErrorEvent? ==> s.emitted[i].code == LlmCode
  {
    EveryInterleaving(plan, turnId, s);
    if plan.Tools? {
      var n: nat :| ToolOutput(MirrorAll(plan.events), n, s.emitted);
      ToolOutputErrors(MirrorAll(plan.events), n, s.emitted);
    }
  }

  lemma {:induction false} ToolOutputErrors(all: seq<StreamEvent>, n: nat, out: seq<Event>)
    requires ToolOutput(all, n, out)
    ensures forall i :: 0 <= i < |out| && out[i].ErrorEvent? ==> out[i].code == LlmCode
  {
    TranslationHasNoError(all[..n]);
  }

  lemma {:induction false} TranslationHasNoError(evs: seq<StreamEvent>)
    ensures forall i :: 0 <= i < |Translation(evs)| ==> !Translation(evs)[i].ErrorEvent?
  {
    if evs != [] {
      TranslationHasNoError(evs[..|evs| - 1]);
    }
  }

  // ------------------------------------------------------------------ cancelling takes effect

  /** How many events the engine may still put out once its context is done. */
  function Parting(p: Point): nat {
    match p
    case Emitting(_) => 2
    case Failing(_) => 2
    case TextEmitting(_) => 2
    case Draining => 0
    case Stopped => 0
    case _ => 1
  }

  lemma {:induction false} PartingStep(a: Action, s: State)
    requires s.cancelled && Enabled(a, s)
    ensures var t := Apply(a, s);
      t.cancelled && |t.emitted| + Parting(t.engine.at) <= |s.emitted| + Parting(s.engine.at)
  {
    match a
    case Driving(e) => PartingDrive(e, s);
    case _ =>
  }

  lemma {:induction false} PartingDrive(a: EngineAction, s: State)
    requires s.cancelled && EngineEnabled(a, s)
    ensures var t := EngineStep(a, s);
      t.cancelled && |t.emitted| + Parting(t.engine.at) <= |s.emitted| + Parting(s.engine.at)
  {
  }

  /** Whatever happens after a turn is cancelled, its engine puts out at most two more events. */
  lemma {:induction false} CancelIsPrompt(s: State, schedule: seq<Action>)
    requires s.cancelled
    ensures var r := Run(s, schedule);
      r.Some? ==>
        && r.value.cancelled
        && |r.value.emitted| + Parting(r.value.engine.at) <= |s.emitted| + Parting(s.engine.at)
    ensures Run(s, schedule).Some? ==> |Run(s, schedule).value.emitted| <= |s.emitted| + 2
  {
    if schedule != [] {
      var front, last := schedule[..|schedule| - 1], schedule[|schedule| - 1];
      CancelIsPrompt(s, front);
      var r := Run(s, front);
      if r.Some? && Enabled(last, r.value) {
        PartingStep(last, r.value);
      }
    }
  }

  /** Once a delivery has failed, or the turn has returned, nothing more goes to the client. */
  predicate NoMoreSending(p: Phase) {
    p.Discarding? || p.Returned?
  }

  lemma {:induction false} FailureIsFinal(s: State, schedule: seq<Action>)
    requires NoMoreSending(s.client.phase)
    ensures var r := Run(s, schedule);
      r.Some? ==> r.value.client.wire == s.client.wire && NoMoreSending(r.value.client.phase)
  {
    if schedule != [] {
      var front, last := schedule[..|schedule| - 1], schedule[|schedule| - 1];
      FailureIsFinal(s, front);
      var r := Run(s, front);
      if r.Some? && Enabled(last, r.value) {
        FailureStays(last, r.value);
      }
    }
  }

  lemma {:induction false} FailureStays(a: Action, s: State)
    requires NoMoreSending(s.client.phase) && Enabled(a, s)
    ensures Apply(a, s).client.wire == s.client.wire && NoMoreSending(Apply(a, s).client.phase)
  {
  }
}
