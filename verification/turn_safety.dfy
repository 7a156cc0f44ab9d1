/** Safety of one chat turn over every interleaving of TurnPipeline. */
module TurnSafety {
  import opened Basics
  import opened RuntimeEvents
  import opened TurnPipeline

  // ------------------------------------------------------------------ first-in first-out

  /** part is what all holds from position at on. */
  ghost predicate Segment<T>(part: seq<T>, all: seq<T>, at: nat) {
    at + |part| <= |all| && part == all[at..at + |part|]
  }

  lemma SegmentGrow<T>(part: seq<T>, all: seq<T>, at: nat, x: T)
    requires Segment(part, all, at) && at + |part| < |all| && all[at + |part|] == x
    ensures Segment(part + [x], all, at)
  {
  }

  lemma SegmentShrink<T>(part: seq<T>, all: seq<T>, at: nat)
    requires Segment(part, all, at) && part != []
    ensures all[at] == part[0] && Segment(part[1..], all, at + 1)
  {
  }

  /** The engine still reads the tool stream. */
  predicate Reading(p: Point) {
    p.Receiving? || p.Checking? || p.Emitting? || p.Failing? || p.FailingDone? || p.Deciding?
  }

  /** Positions in the mirrored source: of the first event in c1, and of the one after the
      bridge's hand. */
  function ChannelAt(e: Engine): nat {
    |e.consumed| + (if e.at.Checking? then 1 else 0)
  }

  function SourceAt(e: Engine, f: Feed): nat {
    ChannelAt(e) + |f.c1| + (if f.bridge.Holding? then 1 else 0)
  }

  /** The engine's hand, the channel and the bridge's hand follow each other in the source
      without a gap. */
  ghost predicate Aligned(all: seq<StreamEvent>, e: Engine, f: Feed) {
    && Segment(f.c1, all, ChannelAt(e))
    && (e.at.Checking? ==> e.at.ev == all[|e.consumed|])
    && (f.bridge.Holding? ==> SourceAt(e, f) <= |all| && f.bridge.ev == all[SourceAt(e, f) - 1])
  }

  /** The source is the rest of the events. */
  ghost predicate Complete(all: seq<StreamEvent>, e: Engine, f: Feed) {
    SourceAt(e, f) + |f.source| == |all| &&
    forall i :: 0 <= i < |f.source| ==> all[SourceAt(e, f) + i] == Mirror(f.source[i])
  }

  /** What the engine has acted on is a prefix of the mirrored source; while it still reads,
      what is in flight comes next, and nothing is missing unless the context is done. */
  ghost predicate Flow(all: seq<StreamEvent>, e: Engine, f: Feed, cancelled: bool) {
    && Segment(e.consumed, all, 0)
    && (Reading(e.at) ==> Aligned(all, e, f))
    && (Reading(e.at) && (!cancelled || (f.source != [] && !f.bridge.BridgeStopped?)) ==> Complete(all, e, f))
    && (f.bridge.BridgeStopped? && !cancelled ==> f.source == [])
    && (e.at.Deciding? ==> f.c1 == [] && f.bridge.BridgeStopped?)
  }

  lemma FlowBridge(a: BridgeAction, all: seq<StreamEvent>, s: State)
    requires Flow(all, s.engine, s.feed, s.cancelled) && BridgeEnabled(a, s)
    ensures Flow(all, s.engine, BridgeStep(a, s.feed), s.cancelled)
  {
    if a.Put? && Reading(s.engine.at) {
      SegmentGrow(s.feed.c1, all, ChannelAt(s.engine), s.feed.bridge.ev);
    }
  }

  lemma FlowReceive(all: seq<StreamEvent>, s: State)
    requires Flow(all, s.engine, s.feed, s.cancelled) && EngineEnabled(Receive, s)
    ensures Flow(all, EngineStep(Receive, s).engine, EngineStep(Receive, s).feed, s.cancelled)
  {
    SegmentShrink(s.feed.c1, all, ChannelAt(s.engine));
  }

  lemma FlowAct(all: seq<StreamEvent>, e: Engine, f: Feed, cancelled: bool)
    requires Flow(all, e, f, cancelled) && e.at.Checking?
    ensures Flow(all, Act(e), f, cancelled)
  {
    SegmentGrow(e.consumed, all, 0, e.at.ev);
    assert ChannelAt(Act(e)) == ChannelAt(e);
  }

  lemma FlowEngine(a: EngineAction, all: seq<StreamEvent>, s: State)
    requires Flow(all, s.engine, s.feed, s.cancelled) && EngineEnabled(a, s)
    ensures Flow(all, EngineStep(a, s).engine, EngineStep(a, s).feed, s.cancelled)
  {
    if a.Receive? {
      FlowReceive(all, s);
    } else if a.Check? && !s.cancelled {
      FlowAct(all, s.engine, s.feed, s.cancelled);
    } else if a.Discard? || a.TakeChunk? {
    } else {
      assert EngineStep(a, s).feed == s.feed && EngineStep(a, s).engine.consumed == s.engine.consumed;
      assert Reading(EngineStep(a, s).engine.at) ==>
        Reading(s.engine.at) && ChannelAt(EngineStep(a, s).engine) == ChannelAt(s.engine);
    }
  }

  // ------------------------------------------------------------------ what the engine put out

  /** The invariant of the tool path's output.  cut says that the context may be done. */
  ghost predicate ToolInv(all: seq<StreamEvent>, e: Engine, out: seq<Event>, cut: bool) {
    && Segment(e.consumed, all, 0)
    && e.usage == LastUsage(e.consumed)
    && match e.at {
         case Receiving => Clean(e) && Caught(e, out, cut)
         case Checking(_) => Clean(e) && Caught(e, out, cut)
         case Deciding => Clean(e) && Caught(e, out, cut)
         case Emitting(ev) => Clean(e) && Translation(e.consumed) == out + [ev] && out == Translation(Front(e.consumed))
         case Failing(m) => Broken(e, m) && out == Translation(e.consumed)
         case FailingDone => exists m :: Broken(e, m) && FailedOutput(e, m, out, cut)
         case Finishing(r) => Clean(e) &&
           (if r == Stop then e.consumed == all && out == Translation(all)
            else r == Cancel && cut && Caught(e, out, cut))
         case Draining => Ended(all, out, cut)
         case Stopped => Ended(all, out, cut)
         case _ => false
       }
  }

  function Front<T>(s: seq<T>): seq<T> {
    if s == [] then s else s[..|s| - 1]
  }

  /** No error has been consumed. */
  ghost predicate Clean(e: Engine) {
    ErrorFree(e.consumed, |e.consumed|)
  }

  /** The last consumed event carries the error m, and no earlier one does. */
  ghost predicate Broken(e: Engine, m: string) {
    e.consumed != [] && ErrorFree(e.consumed, |e.consumed| - 1) && e.consumed[|e.consumed| - 1].err == Some(m)
  }

  /** Everything consumed has been put out, except one event at most once the context is done. */
  ghost predicate Caught(e: Engine, out: seq<Event>, cut: bool) {
    out == Translation(e.consumed) || (cut && e.consumed != [] && out == Translation(Front(e.consumed)))
  }

  ghost predicate FailedOutput(e: Engine, m: string, out: seq<Event>, cut: bool) {
    out == Translation(e.consumed) + [LlmError(m)] || (cut && out == Translation(e.consumed))
  }

  ghost predicate Ended(all: seq<StreamEvent>, out: seq<Event>, cut: bool) {
    (exists n: nat :: ToolOutput(all, n, out)) && (!cut ==> out == ToolScript(all))
  }

  lemma ToolAct(all: seq<StreamEvent>, e: Engine, out: seq<Event>)
    requires ToolInv(all, e, out, false) && e.at.Checking?
    requires |e.consumed| < |all| && e.at.ev == all[|e.consumed|]
    ensures ToolInv(all, Act(e), out, false)
  {
    var ev := e.at.ev;
    SegmentGrow(e.consumed, all, 0, ev);
    TranslationSnoc(e.consumed, ev);
    LastUsageSnoc(e.consumed, ev);
    assert Front(e.consumed + [ev]) == e.consumed;
    if ev.err.Some? {
      assert Broken(Act(e), ev.err.value);
    }
  }

  /** Caught-up output is a translation of a prefix. */
  lemma CaughtPrefix(all: seq<StreamEvent>, e: Engine, out: seq<Event>, cut: bool) returns (n: nat)
    requires Segment(e.consumed, all, 0) && Clean(e) && Caught(e, out, cut)
    ensures n <= |all| && ErrorFree(all, n) && out == Translation(all[..n])
    ensures CancelOutput(all, n, out + [LoopDone(Cancel, LastUsage(e.consumed))])
  {
    var k := |e.consumed|;
    assert all[..k] == e.consumed;
    n := if out == Translation(e.consumed) then k else k - 1;
    assert all[..n] == e.consumed[..n];
  }

  /** The terminal Done ends the output, whether it goes out or is dropped. */
  lemma EndFinished(all: seq<StreamEvent>, e: Engine, r: FinishReason, out: seq<Event>, cut: bool)
    requires ToolInv(all, e, out, cut) && e.at == Finishing(r)
    ensures Ended(all, out + [LoopDone(r, e.usage)], cut)
    ensures cut ==> Ended(all, out, cut)
  {
    var n := |all|;
    assert all[..|all|] == all;
    if r == Stop {
      FirstErrorIs(all, |all|);
    } else {
      n := CaughtPrefix(all, e, out, cut);
    }
    assert ToolOutput(all, n, out + [LoopDone(r, e.usage)]);
    assert ToolOutput(all, n, out);
  }

  /** The same for the error and its Done. */
  lemma EndFailed(all: seq<StreamEvent>, e: Engine, out: seq<Event>, cut: bool)
    requires ToolInv(all, e, out, cut) && e.at.FailingDone?
    ensures Ended(all, out + [ERROR_DONE], cut)
    ensures cut ==> Ended(all, out, cut)
  {
    var m :| Broken(e, m) && FailedOutput(e, m, out, cut);
    var n := BrokenAt(all, e, m);
    FirstErrorIs(all, n);
    if out == Translation(e.consumed) + [LlmError(m)] {
      assert out + [ERROR_DONE] == Translation(all[..n]) + [LlmError(m), ERROR_DONE];
    }
    assert ToolOutput(all, n, out + [ERROR_DONE]);
    assert ToolOutput(all, n, out);
  }

  /** An error forwards nothing itself: the output is the translation of what came before. */
  lemma BrokenAt(all: seq<StreamEvent>, e: Engine, m: string) returns (n: nat)
    requires Segment(e.consumed, all, 0) && Broken(e, m)
    ensures n < |all| && ErrorFree(all, n) && all[n].err == Some(m) && Translation(all[..n]) == Translation(e.consumed)
  {
    n := |e.consumed| - 1;
    assert all[..n] == Front(e.consumed) && all[n] == e.consumed[n];
    TranslationSnoc(Front(e.consumed), e.consumed[n]);
    assert Front(e.consumed) + [e.consumed[n]] == e.consumed;
  }

  lemma ToolEmit(all: seq<StreamEvent>, s: State, cut: bool)
    requires ToolInv(all, s.engine, s.emitted, cut) && EngineEnabled(Emit, s)
    ensures ToolInv(all, EngineStep(Emit, s).engine, EngineStep(Emit, s).emitted, cut)
  {
    match s.engine.at
    case Finishing(r) => EndFinished(all, s.engine, r, s.emitted, cut);
    case FailingDone => EndFailed(all, s.engine, s.emitted, cut);
    case Failing(m) =>
      var e := EngineStep(Emit, s).engine;
      assert Broken(e, m) && FailedOutput(e, m, s.emitted + [LlmError(m)], cut);
    case _ =>
  }

  lemma ToolSkip(all: seq<StreamEvent>, s: State)
    requires ToolInv(all, s.engine, s.emitted, true) && EngineEnabled(SkipEmit, s)
    ensures ToolInv(all, EngineStep(SkipEmit, s).engine, s.emitted, true)
  {
    match s.engine.at
    case Finishing(r) => EndFinished(all, s.engine, r, s.emitted, true);
    case FailingDone => EndFailed(all, s.engine, s.emitted, true);
    case Failing(m) =>
      var e := EngineStep(SkipEmit, s).engine;
      assert Broken(e, m) && FailedOutput(e, m, s.emitted, true);
    case _ =>
  }

  lemma ToolDecide(all: seq<StreamEvent>, s: State)
    requires ToolInv(all, s.engine, s.emitted, s.cancelled) && Flow(all, s.engine, s.feed, s.cancelled)
    requires s.engine.at.Deciding?
    ensures ToolInv(all, EngineStep(Decide, s).engine, s.emitted, s.cancelled)
  {
    if !s.cancelled {
      assert SourceAt(s.engine, s.feed) == |all|;
      assert s.engine.consumed == all;
    }
  }

  lemma ToolMonotone(all: seq<StreamEvent>, e: Engine, out: seq<Event>, cut: bool)
    requires ToolInv(all, e, out, cut)
    ensures ToolInv(all, e, out, true)
  {
    if e.at.FailingDone? {
      var m :| Broken(e, m) && FailedOutput(e, m, out, cut);
      assert FailedOutput(e, m, out, true);
    }
  }

  /** While the engine runs, the context is done only because somebody interrupted the turn. */
  ghost predicate Context(s: State) {
    && (s.interrupted ==> s.cancelled)
    && (s.cancelled && !s.interrupted ==> s.client.phase == Returned(true))
    && (s.client.phase.Returned? ==> OutputClosed(s.engine) && s.c2 == [])
  }

  lemma ToolStep(a: EngineAction, all: seq<StreamEvent>, s: State)
    requires ToolInv(all, s.engine, s.emitted, s.interrupted) && Flow(all, s.engine, s.feed, s.cancelled)
    requires Context(s) && EngineEnabled(a, s)
    ensures ToolInv(all, EngineStep(a, s).engine, EngineStep(a, s).emitted, s.interrupted)
  {
    if a.Emit? {
      ToolEmit(all, s, s.interrupted);
    } else if OutputClosed(s.engine) {
    } else {
      assert s.interrupted == s.cancelled;
      if a.SkipEmit? {
        ToolSkip(all, s);
      } else if a.Decide? {
        ToolDecide(all, s);
      } else if a.Check? && !s.cancelled {
        ToolAct(all, s.engine, s.emitted);
      }
    }
  }

  // ------------------------------------------------------------------ the other plans

  ghost predicate RefusedInv(m: string, e: Engine, out: seq<Event>, cut: bool) {
    match e.at
    case Failing(msg) => msg == m && out == []
    case FailingDone => out == [LlmError(m)] || (cut && out == [])
    case Draining => RefusedEnd(m, out, cut)
    case Stopped => RefusedEnd(m, out, cut)
    case _ => false
  }

  ghost predicate RefusedEnd(m: string, out: seq<Event>, cut: bool) {
    if cut then out == [] || FailureOutput([], m, out) else out == [LlmError(m), ERROR_DONE]
  }

  lemma RefusedStep(a: EngineAction, m: string, s: State)
    requires RefusedInv(m, s.engine, s.emitted, s.interrupted) && Context(s) && EngineEnabled(a, s)
    ensures RefusedInv(m, EngineStep(a, s).engine, EngineStep(a, s).emitted, s.interrupted)
  {
  }

  /** The chunks still to come continue the ones acted on, unless the provider gave up. */
  ghost predicate Rest(chunks: seq<string>, at: nat, left: seq<string>, cut: bool) {
    Segment(left, chunks, at) && (!cut || left != [] ==> at + |left| == |chunks|)
  }

  ghost predicate TextInv(chunks: seq<string>, e: Engine, left: seq<string>, out: seq<Event>, cut: bool) {
    && Segment(e.consumedChunks, chunks, 0)
    && match e.at {
         case TextReceiving => out == ChunkEvents(e.consumedChunks) && Rest(chunks, |e.consumedChunks|, left, cut)
         case TextChecking(c) => out == ChunkEvents(e.consumedChunks) && |e.consumedChunks| < |chunks|
                                 && c == chunks[|e.consumedChunks|] && Rest(chunks, |e.consumedChunks| + 1, left, cut)
         case TextEmitting(c) => ChunkEvents(e.consumedChunks) == out + [TextDelta(c)]
                                 && Rest(chunks, |e.consumedChunks|, left, cut)
         case TextFinishing(p) => (p ==> cut) && (cut || out == ChunkEvents(chunks))
                                  && exists n: nat :: n <= |chunks| && out == ChunkEvents(chunks[..n])
         case Stopped => TextEnded(chunks, out, cut)
         case _ => false
       }
  }

  /** The text-only path always ends in a Done; uninterrupted it is the whole script. */
  ghost predicate TextEnded(chunks: seq<string>, out: seq<Event>, cut: bool) {
    && (exists n: nat, p :: n <= |chunks| && out == ChunkEvents(chunks[..n]) + [TextDone(p)] && (p ==> cut))
    && (!cut ==> out == Script(Text(chunks)))
  }

  lemma TextEmitStep(chunks: seq<string>, s: State)
    requires TextInv(chunks, s.engine, s.feed.chunks, s.emitted, s.interrupted) && EngineEnabled(Emit, s)
    ensures TextInv(chunks, EngineStep(Emit, s).engine, s.feed.chunks, EngineStep(Emit, s).emitted, s.interrupted)
  {
    if s.engine.at.TextFinishing? {
      var n: nat :| n <= |chunks| && s.emitted == ChunkEvents(chunks[..n]);
      assert s.emitted + [TextDone(s.engine.at.partial)] == ChunkEvents(chunks[..n]) + [TextDone(s.engine.at.partial)];
    }
  }

  lemma TextActStep(chunks: seq<string>, e: Engine, left: seq<string>, out: seq<Event>, cut: bool)
    requires TextInv(chunks, e, left, out, cut) && e.at.TextChecking?
    ensures TextInv(chunks, ActOnChunk(e), left, out, cut)
  {
    SegmentGrow(e.consumedChunks, chunks, 0, e.at.chunk);
    assert ChunkEvents(e.consumedChunks + [e.at.chunk]) == ChunkEvents(e.consumedChunks) + [TextDelta(e.at.chunk)];
  }

  /** The output so far, at any point before the terminal Done, translates a prefix. */
  lemma TextPrefix(chunks: seq<string>, e: Engine, left: seq<string>, out: seq<Event>, cut: bool) returns (n: nat)
    requires TextInv(chunks, e, left, out, cut)
    requires e.at.TextReceiving? || e.at.TextChecking? || e.at.TextEmitting?
    ensures n <= |chunks| && out == ChunkEvents(chunks[..n])
  {
    var k := |e.consumedChunks|;
    assert e.consumedChunks == chunks[..k];
    if e.at.TextEmitting? {
      n := k - 1;
      assert out == ChunkEvents(chunks[..k])[..n];
    } else {
      n := k;
    }
  }

  lemma TextStep(a: EngineAction, chunks: seq<string>, s: State)
    requires TextInv(chunks, s.engine, s.feed.chunks, s.emitted, s.interrupted) && Context(s) && EngineEnabled(a, s)
    ensures var t := EngineStep(a, s); TextInv(chunks, t.engine, t.feed.chunks, t.emitted, s.interrupted)
  {
    if a.Emit? {
      TextEmitStep(chunks, s);
    } else if a.TakeChunk? {
      SegmentShrink(s.feed.chunks, chunks, |s.engine.consumedChunks|);
    } else if a.CheckChunk? && !s.cancelled {
      TextActStep(chunks, s.engine, s.feed.chunks, s.emitted, s.interrupted);
    } else if a.CheckChunk? || a.SkipEmit? {
      var n := TextPrefix(chunks, s.engine, s.feed.chunks, s.emitted, s.interrupted);
    } else if a.SeeEnd? {
      var n := TextPrefix(chunks, s.engine, s.feed.chunks, s.emitted, s.interrupted);
      if !s.interrupted {
        assert s.engine.consumedChunks == chunks;
      }
    }
  }

  // ------------------------------------------------------------------ the Send loop

  ghost predicate ClientInv(turnId: string, c2: seq<Event>, emitted: seq<Event>, c: Client) {
    && Segment(c.received, emitted, 0)
    && (c.phase.Ranging? || c.phase.Sending? || c.phase == Returned(true) ==> c2 == emitted[|c.received|..])
    && c.text == TextOf(c.received)
    && match c.phase {
         case Sending(ev) => MapAll(turnId, c.received) == c.wire + [ev]
         case Ranging => c.wire == MapAll(turnId, c.received)
         case Returned(true) => c.wire == MapAll(turnId, c.received)
         case _ => exists ev :: MapAll(turnId, c.received) == c.wire + [ev]
       }
  }

  lemma ClientTake(s: State)
    requires ClientInv(s.turnId, s.c2, s.emitted, s.client) && LoopEnabled(Take, s)
    ensures ClientInv(s.turnId, s.c2[1..], s.emitted, Accept(s.client, s.turnId, s.c2[0]))
  {
    var ev := s.c2[0];
    SegmentGrow(s.client.received, s.emitted, 0, ev);
    MapAllSnoc(s.turnId, s.client.received, ev);
    TextOfSnoc(s.client.received, ev);
  }

  lemma ClientSends(a: LoopAction, s: State)
    requires ClientInv(s.turnId, s.c2, s.emitted, s.client) && LoopEnabled(a, s) && !a.Take?
    ensures var t := LoopStep(a, s); ClientInv(t.turnId, t.c2, t.emitted, t.client)
  {
  }

  // ------------------------------------------------------------------ all of it together

  /** A goroutine that has nothing to wait for cannot be left waiting. */
  ghost predicate NoLeak(s: State) {
    && (s.engine.at.Stopped? || s.engine.at == Finishing(Stop) ==> s.feed.bridge.BridgeStopped? || s.cancelled)
    && (s.engine.at.Finishing? ==> s.engine.at == Finishing(Stop) || s.cancelled)
    && (s.engine.at.Deciding? ==> s.feed.bridge.BridgeStopped?)
    && (if s.plan.Tools? then !TextPoint(s.engine.at) else s.feed.bridge.BridgeStopped?)
  }

  predicate TextPoint(p: Point) {
    p.TextReceiving? || p.TextChecking? || p.TextEmitting? || p.TextFinishing?
  }

  ghost predicate ProviderInv(s: State) {
    match s.plan
    case Tools(evs) =>
      ToolInv(MirrorAll(evs), s.engine, s.emitted, s.interrupted) && Flow(MirrorAll(evs), s.engine, s.feed, s.cancelled)
    case ToolsRefused(m) => RefusedInv(m, s.engine, s.emitted, s.interrupted)
    case Text(chunks) => TextInv(chunks, s.engine, s.feed.chunks, s.emitted, s.interrupted)
    case TextRefused(m) => s.engine.at.Stopped? && s.emitted == [LlmError(m), ERROR_DONE]
  }

  ghost predicate Inv(s: State) {
    && ProviderInv(s)
    && Context(s)
    && NoLeak(s)
    && ClientInv(s.turnId, s.c2, s.emitted, s.client)
  }

  lemma InitInv(plan: Plan, turnId: string)
    ensures Inv(Init(plan, turnId))
  {
    if plan.Tools? {
      assert Segment([], MirrorAll(plan.events), 0);
    }
    if plan.Text? {
      assert Segment([], plan.chunks, 0);
    }
  }

  lemma ProviderStep(a: Action, s: State)
    requires Inv(s) && Enabled(a, s)
    ensures ProviderInv(Apply(a, s))
  {
    match a
    case Bridging(b) => ProviderBridge(b, s);
    case Driving(e) => ProviderDrive(e, s);
    case Looping(l) => ProviderCut(s, LoopStep(l, s));
    case SourceAbandon => ProviderAbandon(s);
    case CancelTurn => ProviderCut(s, s.(cancelled := true, interrupted := true));
  }

  lemma ProviderBridge(a: BridgeAction, s: State)
    requires Inv(s) && BridgeEnabled(a, s)
    ensures ProviderInv(s.(feed := BridgeStep(a, s.feed)))
  {
    if s.plan.Tools? {
      FlowBridge(a, MirrorAll(s.plan.events), s);
    }
  }

  lemma ProviderAbandon(s: State)
    requires Inv(s) && Enabled(SourceAbandon, s)
    ensures ProviderInv(s.(feed := s.feed.(source := [], chunks := [])))
  {
    match s.plan
    case Tools(evs) => FlowAbandon(MirrorAll(evs), s.engine, s.feed);
    case Text(chunks) => TextAbandon(chunks, s.engine, s.feed.chunks, s.emitted);
    case _ =>
  }

  lemma FlowAbandon(all: seq<StreamEvent>, e: Engine, f: Feed)
    requires Flow(all, e, f, true)
    ensures Flow(all, e, f.(source := [], chunks := []), true)
  {
  }

  lemma TextAbandon(chunks: seq<string>, e: Engine, left: seq<string>, out: seq<Event>)
    requires TextInv(chunks, e, left, out, true)
    ensures TextInv(chunks, e, [], out, true)
  {
  }

  lemma ProviderDrive(a: EngineAction, s: State)
    requires Inv(s) && EngineEnabled(a, s)
    ensures ProviderInv(EngineStep(a, s))
  {
    match s.plan
    case Tools(evs) =>
      ToolStep(a, MirrorAll(evs), s);
      FlowEngine(a, MirrorAll(evs), s);
    case ToolsRefused(m) => RefusedStep(a, m, s);
    case Text(chunks) => TextStep(a, chunks, s);
    case TextRefused(_) =>
  }

  /** Cancelling, from wherever, keeps the provider side's invariant. */
  lemma ProviderCut(s: State, t: State)
    requires Inv(s)
    requires t.plan == s.plan && t.engine == s.engine && t.feed == s.feed && t.emitted == s.emitted
    requires (s.interrupted ==> t.interrupted) && (s.cancelled ==> t.cancelled)
    ensures ProviderInv(t)
  {
    if s.plan.Tools? && t.interrupted {
      ToolMonotone(MirrorAll(s.plan.events), s.engine, s.emitted, s.interrupted);
    }
  }

  lemma StepContext(a: Action, s: State)
    requires Context(s) && NoLeak(s) && Enabled(a, s)
    ensures Context(Apply(a, s)) && NoLeak(Apply(a, s))
  {
    match a
    case Driving(e) => DriveContext(e, s);
    case _ =>
  }

  lemma DriveContext(a: EngineAction, s: State)
    requires Context(s) && NoLeak(s) && EngineEnabled(a, s)
    ensures Context(EngineStep(a, s)) && NoLeak(EngineStep(a, s))
  {
  }

  lemma ClientEmit(turnId: string, c2: seq<Event>, emitted: seq<Event>, c: Client, e: Event)
    requires ClientInv(turnId, c2, emitted, c) && !c.phase.Returned?
    ensures ClientInv(turnId, c2 + [e], emitted + [e], c)
  {
    assert (emitted + [e])[..|emitted|] == emitted;
    assert (emitted + [e])[|c.received|..] == emitted[|c.received|..] + [e];
  }

  lemma StepClient(a: Action, s: State)
    requires ClientInv(s.turnId, s.c2, s.emitted, s.client) && Context(s) && Enabled(a, s)
    ensures var t := Apply(a, s); ClientInv(t.turnId, t.c2, t.emitted, t.client)
  {
    match a
    case Looping(l) =>
      if l.Take? {
        ClientTake(s);
      } else {
        ClientSends(l, s);
      }
    case Driving(e) =>
      if e.Emit? {
        ClientEmit(s.turnId, s.c2, s.emitted, s.client, Offered(s.engine).value);
      }
    case _ => assert Apply(a, s).client == s.client;
  }

  lemma StepInv(a: Action, s: State)
    requires Inv(s) && Enabled(a, s)
    ensures Inv(Apply(a, s))
  {
    ProviderStep(a, s);
    StepContext(a, s);
    StepClient(a, s);
  }

  /** Every state a schedule can reach satisfies the invariant. */
  lemma {:induction false} RunInv(plan: Plan, turnId: string, schedule: seq<Action>)
    ensures var r := Run(Init(plan, turnId), schedule); r.Some? ==> Inv(r.value)
  {
    if schedule == [] {
      InitInv(plan, turnId);
    } else {
      var front := schedule[..|schedule| - 1];
      RunInv(plan, turnId, front);
      var r := Run(Init(plan, turnId), front);
      if r.Some? && Enabled(schedule[|schedule| - 1], r.value) {
        StepInv(schedule[|schedule| - 1], r.value);
      }
    }
  }
}
