/** What holds of a chat turn under every schedule of its goroutines. */
module TurnTheorems {
  import opened Basics
  import opened RuntimeEvents
  import opened TurnPipeline
  import opened TurnSafety

  /** The state is reached from the start of the turn by some schedule. */
  ghost predicate Reachable(plan: Plan, turnId: string, s: State) {
    exists schedule :: Run(Init(plan, turnId), schedule) == Some(s)
  }

  lemma ReachableInv(plan: Plan, turnId: string, s: State)
    requires Reachable(plan, turnId, s)
    ensures Inv(s) && s.plan == plan && s.turnId == turnId
  {
    var schedule :| Run(Init(plan, turnId), schedule) == Some(s);
    RunInv(plan, turnId, schedule);
    RunKeepsPlan(plan, turnId, schedule);
  }

  lemma ApplyKeepsPlan(a: Action, s: State)
    requires Enabled(a, s)
    ensures Apply(a, s).plan == s.plan && Apply(a, s).turnId == s.turnId
  {
  }

  lemma {:induction false} RunKeepsPlan(plan: Plan, turnId: string, schedule: seq<Action>)
    ensures var r := Run(Init(plan, turnId), schedule);
            r.Some? ==> r.value.plan == plan && r.value.turnId == turnId
  {
    if schedule != [] {
      var front, last := schedule[..|schedule| - 1], schedule[|schedule| - 1];
      RunKeepsPlan(plan, turnId, front);
      var r := Run(Init(plan, turnId), front);
      if r.Some? && Enabled(last, r.value) {
        ApplyKeepsPlan(last, r.value);
      }
    }
  }

  // ------------------------------------------------------------------ output of the engine

  /** At every moment the engine's output is an in-order translation of a prefix of the
      source, at most followed by the turn's terminal events. */
  lemma EveryInterleaving(plan: Plan, turnId: string, s: State)
    requires Reachable(plan, turnId, s)
    ensures PlanOutput(plan, s.emitted)
  {
    ReachableInv(plan, turnId, s);
    match plan
    case Tools(evs) => ToolOutputNow(MirrorAll(evs), s.engine, s.emitted, s.interrupted);
    case ToolsRefused(m) =>
    case Text(chunks) => TextOutputNow(chunks, s.engine, s.feed.chunks, s.emitted, s.interrupted);
    case TextRefused(m) =>
  }

  lemma ToolOutputNow(all: seq<StreamEvent>, e: Engine, out: seq<Event>, cut: bool)
    requires ToolInv(all, e, out, cut)
    ensures exists n: nat :: ToolOutput(all, n, out)
  {
    match e.at
    case Emitting(_) =>
      var n := |e.consumed| - 1;
      assert all[..n] == Front(e.consumed) && ErrorFree(all, n);
      assert ToolOutput(all, n, out);
    case Failing(m) =>
      var n := BrokenAt(all, e, m);
      assert ToolOutput(all, n, out);
    case FailingDone =>
      var m :| Broken(e, m) && FailedOutput(e, m, out, cut);
      var n := BrokenAt(all, e, m);
      assert ToolOutput(all, n, out);
    case Finishing(r) => FinishingOutput(all, e, r, out, cut);
    case Receiving => var n := CaughtPrefix(all, e, out, cut); assert ToolOutput(all, n, out);
    case Checking(_) => var n := CaughtPrefix(all, e, out, cut); assert ToolOutput(all, n, out);
    case Deciding => var n := CaughtPrefix(all, e, out, cut); assert ToolOutput(all, n, out);
    case Draining =>
    case Stopped =>
  }

  lemma FinishingOutput(all: seq<StreamEvent>, e: Engine, r: FinishReason, out: seq<Event>, cut: bool)
    requires ToolInv(all, e, out, cut) && e.at == Finishing(r)
    ensures exists n: nat :: ToolOutput(all, n, out)
  {
    var n := |all|;
    if r == Stop {
      assert all[..|all|] == all;
    } else {
      n := CaughtPrefix(all, e, out, cut);
    }
    assert ToolOutput(all, n, out);
  }

  lemma TextOutputNow(chunks: seq<string>, e: Engine, left: seq<string>, out: seq<Event>, cut: bool)
    requires TextInv(chunks, e, left, out, cut)
    ensures exists n: nat :: TextOutput(chunks, n, out)
  {
    match e.at
    case TextFinishing(_) =>
      var n: nat :| n <= |chunks| && out == ChunkEvents(chunks[..n]);
      assert TextOutput(chunks, n, out);
    case Stopped =>
      var n: nat, p :| n <= |chunks| && out == ChunkEvents(chunks[..n]) + [TextDone(p)] && (p ==> cut);
      assert TextOutput(chunks, n, out);
    case TextReceiving => var n := TextPrefix(chunks, e, left, out, cut); assert TextOutput(chunks, n, out);
    case TextChecking(_) => var n := TextPrefix(chunks, e, left, out, cut); assert TextOutput(chunks, n, out);
    case TextEmitting(_) => var n := TextPrefix(chunks, e, left, out, cut); assert TextOutput(chunks, n, out);
  }

  /** While the engine reads its stream, the events it acted on, the one in its hand, those
      in the channel and the one in the bridge's hand are, in this order, a prefix of the source. */
  lemma InFlightInOrder(evs: seq<AgentEvent>, turnId: string, s: State)
    requires Reachable(Tools(evs), turnId, s) && Reading(s.engine.at)
    ensures s.engine.consumed + InEngine(s) + s.feed.c1 + InBridge(s) <= MirrorAll(evs)
  {
    ReachableInv(Tools(evs), turnId, s);
    FlightJoins(MirrorAll(evs), s);
  }

  lemma FlightJoins(all: seq<StreamEvent>, s: State)
    requires Segment(s.engine.consumed, all, 0) && Aligned(all, s.engine, s.feed)
    ensures s.engine.consumed + InEngine(s) + s.feed.c1 + InBridge(s) <= all
  {
    SegmentJoin(all, s.engine.consumed, InEngine(s));
    SegmentJoin(all, s.engine.consumed + InEngine(s), s.feed.c1);
    SegmentJoin(all, s.engine.consumed + InEngine(s) + s.feed.c1, InBridge(s));
  }

  lemma SegmentJoin<T>(all: seq<T>, front: seq<T>, part: seq<T>)
    requires Segment(front, all, 0) && Segment(part, all, |front|)
    ensures Segment(front + part, all, 0)
  {
  }

  function InEngine(s: State): seq<StreamEvent> {
    if s.engine.at.Checking? then [s.engine.at.ev] else []
  }

  function InBridge(s: State): seq<StreamEvent> {
    if s.feed.bridge.Holding? then [s.feed.bridge.ev] else []
  }

  // ------------------------------------------------------------------ the terminal Done

  predicate DoneOnlyLast(out: seq<Event>) {
    forall i :: 0 <= i < |out| && out[i].Done? ==> i == |out| - 1
  }

  lemma {:induction false} TranslationHasNoDone(evs: seq<StreamEvent>)
    ensures forall i :: 0 <= i < |Translation(evs)| ==> !Translation(evs)[i].Done?
  {
    if evs != [] {
      TranslationHasNoDone(evs[..|evs| - 1]);
    }
  }

  lemma ToolOutputDone(all: seq<StreamEvent>, n: nat, out: seq<Event>)
    requires ToolOutput(all, n, out)
    ensures DoneOnlyLast(out)
  {
    TranslationHasNoDone(all[..n]);
  }

  lemma ToolOutputStop(all: seq<StreamEvent>, n: nat, out: seq<Event>)
    requires ToolOutput(all, n, out)
    ensures StoppedOutput(out) ==> ErrorFree(all, |all|) && out == Translation(all) + [LoopDone(Stop, LastUsage(all))]
  {
    var body := Translation(all[..n]);
    if out == body {
      TranslationHasNoDone(all[..n]);
    } else if n == |all| {
      assert all[..n] == all;
    } else if all[n].err.Some? && FailureOutput(body, all[n].err.value, out) {
      FailureDoesNotStop(body, all[n].err.value, out);
    }
  }

  lemma FailureDoesNotStop(body: seq<Event>, m: string, out: seq<Event>)
    requires FailureOutput(body, m, out)
    ensures !StoppedOutput(out)
  {
  }

  /** The output ends in a Done that says stop. */
  predicate StoppedOutput(out: seq<Event>) {
    out != [] && out[|out| - 1].Done? && out[|out| - 1].reason == Stop
  }

  /** There is at most one Done, and nothing follows it. */
  lemma AtMostOneDone(plan: Plan, turnId: string, s: State)
    requires Reachable(plan, turnId, s)
    ensures DoneOnlyLast(s.emitted)
  {
    EveryInterleaving(plan, turnId, s);
    if plan.Tools? {
      var n: nat :| ToolOutput(MirrorAll(plan.events), n, s.emitted);
      ToolOutputDone(MirrorAll(plan.events), n, s.emitted);
    }
  }

  /** On the tool path a Done that says stop is the truth: no event carried an error, every
      event was forwarded, and the token counts are the last ones reported. */
  lemma StopIsTruthful(evs: seq<AgentEvent>, turnId: string, s: State)
    requires Reachable(Tools(evs), turnId, s)
    requires StoppedOutput(s.emitted)
    ensures var all := MirrorAll(evs);
            ErrorFree(all, |all|) && s.emitted == Translation(all) + [LoopDone(Stop, LastUsage(all))]
  {
    EveryInterleaving(Tools(evs), turnId, s);
    var n: nat :| ToolOutput(MirrorAll(evs), n, s.emitted);
    ToolOutputStop(MirrorAll(evs), n, s.emitted);
  }

  /** On the text-only path the output never stays without its Done. */
  lemma TextAlwaysEndsInDone(chunks: seq<string>, turnId: string, s: State)
    requires Reachable(Text(chunks), turnId, s) && s.engine.at.Stopped?
    ensures s.emitted != [] && s.emitted[|s.emitted| - 1].Done?
  {
    ReachableInv(Text(chunks), turnId, s);
  }

  // ------------------------------------------------------------------ uninterrupted turns

  /** If nobody interrupts the turn, the client receives the whole script and nothing else:
      the translation up to the first error or the end of the source, then exactly one Done. */
  lemma UninterruptedIsComplete(plan: Plan, turnId: string, s: State)
    requires Reachable(plan, turnId, s) && s.client.phase.Returned? && !s.interrupted
    ensures s.client.phase == Returned(true)
    ensures s.emitted == Script(plan)
    ensures s.client.wire == MapAll(turnId, Script(plan))
  {
    ReachableInv(plan, turnId, s);
    var schedule :| Run(Init(plan, turnId), schedule) == Some(s);
    FailureInterrupts(plan, turnId, schedule);
    ClosedIsScript(s);
    assert s.client.received == s.emitted;
  }

  lemma ClosedIsScript(s: State)
    requires Inv(s) && OutputClosed(s.engine) && !s.interrupted
    ensures s.emitted == Script(s.plan)
  {
  }

  /** A failed delivery counts as an interruption. */
  predicate FailedOnlyIfInterrupted(s: State) {
    s.client.phase == Returned(false) || s.client.phase == Discarding ==> s.interrupted
  }

  lemma FailureStep(a: Action, s: State)
    requires FailedOnlyIfInterrupted(s) && Enabled(a, s)
    ensures FailedOnlyIfInterrupted(Apply(a, s))
  {
  }

  lemma {:induction false} FailureInterrupts(plan: Plan, turnId: string, schedule: seq<Action>)
    ensures var r := Run(Init(plan, turnId), schedule); r.Some? ==> FailedOnlyIfInterrupted(r.value)
  {
    if schedule != [] {
      var front, last := schedule[..|schedule| - 1], schedule[|schedule| - 1];
      FailureInterrupts(plan, turnId, front);
      var r := Run(Init(plan, turnId), front);
      if r.Some? && Enabled(last, r.value) {
        FailureStep(last, r.value);
      }
    }
  }

  /** The script of every plan holds exactly one Done, at its end. */
  lemma ScriptEndsInDone(plan: Plan)
    ensures Script(plan) != [] && Script(plan)[|Script(plan)| - 1].Done? && DoneOnlyLast(Script(plan))
  {
    if plan.Tools? {
      var all := MirrorAll(plan.events);
      TranslationHasNoDone(all);
      TranslationHasNoDone(all[..FirstError(all)]);
    }
  }

  lemma {:induction false} TranslationIsMapped(evs: seq<StreamEvent>)
    ensures forall i :: 0 <= i < |Translation(evs)| ==> !Translation(evs)[i].Unmapped?
  {
    if evs != [] {
      TranslationIsMapped(evs[..|evs| - 1]);
    }
  }

  /** The engine emits nothing the client would not be sent. */
  lemma ScriptIsMapped(plan: Plan)
    ensures forall i :: 0 <= i < |Script(plan)| ==> !Script(plan)[i].Unmapped?
  {
    if plan.Tools? {
      var all := MirrorAll(plan.events);
      TranslationIsMapped(all);
      TranslationIsMapped(all[..FirstError(all)]);
    }
  }

  lemma ToolOutputIsMapped(all: seq<StreamEvent>, n: nat, out: seq<Event>)
    requires ToolOutput(all, n, out)
    ensures forall i :: 0 <= i < |out| ==> !out[i].Unmapped?
  {
    TranslationIsMapped(all[..n]);
  }

  /** Under any schedule. */
  lemma OutputIsMapped(plan: Plan, turnId: string, s: State)
    requires Reachable(plan, turnId, s)
    ensures forall i :: 0 <= i < |s.emitted| ==> !s.emitted[i].Unmapped?
  {
    EveryInterleaving(plan, turnId, s);
    if plan.Tools? {
      var n: nat :| ToolOutput(MirrorAll(plan.events), n, s.emitted);
      ToolOutputIsMapped(MirrorAll(plan.events), n, s.emitted);
    }
  }

  // ------------------------------------------------------------------ what the client sees

  /** The assistant buffer of a turn that ended normally, cancelled or not, is exactly the
      text the client received; every event on the wire carries the turn's id. */
  lemma BufferIsWireText(plan: Plan, turnId: string, s: State)
    requires Reachable(plan, turnId, s) && s.client.phase == Returned(true)
    ensures s.client.text == WireTextOf(s.client.wire)
    ensures s.client.wire == MapAll(turnId, s.emitted)
  {
    ReachableInv(plan, turnId, s);
    assert s.client.received == s.emitted;
    MappingKeepsText(turnId, s.client.received);
  }

  // ------------------------------------------------------------------ progress

  /** Steps the goroutines take by themselves, without anybody cancelling or failing. */
  predicate OwnStep(a: Action) {
    !a.CancelTurn? && !a.SourceAbandon? && a != Looping(FailDelivery)
  }

  /** No reachable state is stuck: until every goroutine has ended, some goroutine can move. */
  lemma NeverStuck(plan: Plan, turnId: string, s: State)
    requires Reachable(plan, turnId, s) && !Terminal(s)
    ensures exists a :: OwnStep(a) && Enabled(a, s)
  {
    ReachableInv(plan, turnId, s);
    CanMove(s);
  }

  /** Steps that need the provider to deliver something or to close its stream. */
  predicate AsksProvider(a: Action) {
    a == Bridging(Pull) || a == Bridging(Close) || a == Driving(TakeChunk) || a == Driving(SeeEnd)
  }

  /** With a provider that does neither, no step is left. */
  ghost predicate Silenced(s: State) {
    forall a :: OwnStep(a) && Enabled(a, s) ==> AsksProvider(a)
  }

  predicate WaitsForProvider(s: State) {
    s.feed.bridge.Pulling? || s.engine.at.TextReceiving?
  }

  /** A provider that falls silent is the only thing a turn can hang on, and cancelling the
      turn does not help: nobody but the provider looks at the context while waiting for it. */
  lemma SilenceOutlastsCancel(plan: Plan, turnId: string, s: State)
    requires Reachable(plan, turnId, s) && !Terminal(s) && Silenced(s)
    ensures WaitsForProvider(s)
    ensures Enabled(CancelTurn, s) ==> Silenced(Apply(CancelTurn, s))
  {
    ReachableInv(plan, turnId, s);
    SilencedIsIdle(s);
    CancelEnablesLittle(s);
  }

  lemma CancelEnablesLittle(s: State)
    requires Silenced(s) && !s.feed.bridge.Holding? && Offered(s.engine).None?
    ensures Enabled(CancelTurn, s) ==> Silenced(Apply(CancelTurn, s))
  {
    if Enabled(CancelTurn, s) {
      forall b | OwnStep(b) && Enabled(b, Apply(CancelTurn, s)) ensures AsksProvider(b) {
        assert b == Bridging(Drop) || b == Driving(SkipEmit) || Enabled(b, s);
      }
    }
  }

  /** While a silent provider is waited for, nothing is in flight and the engine offers nothing. */
  lemma SilencedIsIdle(s: State)
    requires Inv(s) && !Terminal(s) && Silenced(s)
    ensures WaitsForProvider(s) && !s.feed.bridge.Holding? && Offered(s.engine).None?
  {
    CanMove(s);
    SilencedClientIsIdle(s);
    assert !Enabled(Driving(Emit), s);
  }

  lemma SilencedClientIsIdle(s: State)
    requires Context(s) && Silenced(s)
    ensures s.c2 == []
  {
    assert !Enabled(Looping(Deliver), s) && !Enabled(Looping(Take), s) && !Enabled(Looping(DiscardOne), s);
  }

  lemma CanMove(s: State)
    requires Inv(s) && !Terminal(s)
    ensures exists a :: OwnStep(a) && Enabled(a, s)
  {
    if s.client.phase.Sending? {
      assert Enabled(Looping(Deliver), s);
    } else if s.c2 != [] {
      assert Enabled(Looping(if s.client.phase.Ranging? then Take else DiscardOne), s);
    } else if OutputClosed(s.engine) && !s.client.phase.Returned? {
      assert Enabled(Looping(if s.client.phase.Ranging? then EndTurn else EndFailed), s);
    } else if s.feed.bridge.Pulling? {
      assert Enabled(Bridging(if s.feed.source == [] then Close else Pull), s);
    } else if Offered(s.engine).Some? {
      assert Enabled(Driving(Emit), s);
    } else {
      EngineCanMove(s);
    }
  }

  lemma EngineCanMove(s: State)
    requires Inv(s) && !Terminal(s) && Offered(s.engine).None? && !s.feed.bridge.Pulling?
    requires OutputClosed(s.engine) ==> s.client.phase.Returned?
    ensures exists a :: OwnStep(a) && Enabled(a, s)
  {
    if s.feed.c1 != [] && s.engine.at.Receiving? {
      assert Enabled(Driving(Receive), s);
    } else if s.feed.c1 != [] && s.engine.at.Draining? {
      assert Enabled(Driving(Discard), s);
    } else if s.feed.bridge.Holding? {
      assert Enabled(if s.engine.at.Stopped? then Bridging(Drop)
                     else if |s.feed.c1| < CAPACITY then Bridging(Put)
                     else Driving(Check), s);
    } else {
      assert Enabled(Driving(match s.engine.at {
                               case Receiving => SeeClosed
                               case Checking(_) => Check
                               case Draining => EndDiscard
                               case Deciding => Decide
                               case TextReceiving => if s.feed.chunks == [] then SeeEnd else TakeChunk
                               case _ => CheckChunk
                             }), s);
    }
  }

  /** A bound on the number of steps left; every step of every schedule lowers it. */
  function StepsLeft(s: State): nat {
    FeedWeight(s.feed) + PointWeight(s.engine.at) + 5 * |s.c2| + PhaseWeight(s.client.phase)
    + (if s.cancelled then 0 else 1)
  }

  function FeedWeight(f: Feed): nat {
    12 * |f.source| + 12 * |f.chunks| + 10 * |f.c1| +
    match f.bridge
    case Pulling => 2
    case Holding(_) => 13
    case BridgeStopped => 0
  }

  function PointWeight(p: Point): nat {
    match p
    case Receiving => 40
    case Checking(_) => 49
    case Emitting(_) => 47
    case Deciding => 30
    case Failing(_) => 30
    case FailingDone => 20
    case Finishing(_) => 10
    case Draining => 5
    case TextReceiving => 40
    case TextChecking(_) => 49
    case TextEmitting(_) => 47
    case TextFinishing(_) => 10
    case Stopped => 0
  }

  function PhaseWeight(p: Phase): nat {
    match p
    case Ranging => 20
    case Sending(_) => 23
    case Discarding => 10
    case Returned(_) => 0
  }

  lemma StepsLower(a: Action, s: State)
    requires Enabled(a, s)
    ensures StepsLeft(Apply(a, s)) < StepsLeft(s)
  {
    match a
    case Bridging(b) =>
    case Driving(e) => EngineLowers(e, s);
    case Looping(l) =>
    case _ =>
  }

  lemma EngineLowers(a: EngineAction, s: State)
    requires EngineEnabled(a, s)
    ensures StepsLeft(EngineStep(a, s)) < StepsLeft(s)
  {
  }

  /** Every turn ends: no schedule is longer than a bound fixed by the plan, whatever is
      cancelled and whenever; and a schedule that cannot be continued has ended every goroutine. */
  lemma {:induction false} EveryTurnEnds(plan: Plan, turnId: string, schedule: seq<Action>)
    ensures var r := Run(Init(plan, turnId), schedule);
            r.Some? ==> |schedule| + StepsLeft(r.value) <= StepsLeft(Init(plan, turnId))
  {
    if schedule != [] {
      var front, last := schedule[..|schedule| - 1], schedule[|schedule| - 1];
      EveryTurnEnds(plan, turnId, front);
      var r := Run(Init(plan, turnId), front);
      if r.Some? && Enabled(last, r.value) {
        StepsLower(last, r.value);
      }
    }
  }
}
