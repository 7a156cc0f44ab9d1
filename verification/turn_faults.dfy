/** What cancelling a turn can cost: exactly when the terminal Done is lost, and exactly when
    a Done that says stop is not the truth. */
module TurnFaults {
  import opened Basics
  import opened RuntimeEvents
  import opened TurnPipeline
  import opened TurnSafety
  import opened TurnTheorems

  // ------------------------------------------------------------------ the lost Done

  predicate NoDone(out: seq<Event>) {
    forall i :: 0 <= i < |out| ==> !out[i].Done?
  }

  /** The select around the terminal Done takes its cancellation arm. */
  predicate DropsDone(a: Action, s: State) {
    a == Driving(SkipEmit) && (s.engine.at.Finishing? || s.engine.at.FailingDone?)
  }

  /** Some step of the schedule did. */
  predicate Dropped(s0: State, schedule: seq<Action>) {
    schedule != [] &&
    var front, last := schedule[..|schedule| - 1], schedule[|schedule| - 1];
    var r := Run(s0, front);
    Dropped(s0, front) || (r.Some? && DropsDone(last, r.value))
  }

  predicate DoneInv(s: State, dropped: bool) {
    && (s.engine.at.Emitting? ==> !s.engine.at.event.Done?)
    && (if OutputClosed(s.engine) then NoDone(s.emitted) <==> dropped else NoDone(s.emitted) && !dropped)
  }

  lemma DoneDrive(a: EngineAction, s: State, dropped: bool)
    requires DoneInv(s, dropped) && EngineEnabled(a, s)
    ensures DoneInv(EngineStep(a, s), dropped || DropsDone(Driving(a), s))
  {
    if a.Emit? {
      var e := Offered(s.engine).value;
      assert (s.emitted + [e])[|s.emitted|] == e;
    }
  }

  lemma DoneStep(a: Action, s: State, dropped: bool)
    requires DoneInv(s, dropped) && Enabled(a, s)
    ensures DoneInv(Apply(a, s), dropped || DropsDone(a, s))
  {
    match a
    case Driving(e) => DoneDrive(e, s, dropped);
    case _ => assert Apply(a, s).engine == s.engine && Apply(a, s).emitted == s.emitted;
  }

  lemma {:induction false} DoneRun(plan: Plan, turnId: string, schedule: seq<Action>)
    ensures var s0 := Init(plan, turnId);
            Run(s0, schedule).Some? ==> DoneInv(Run(s0, schedule).value, Dropped(s0, schedule))
  {
    var s0 := Init(plan, turnId);
    if schedule == [] {
      assert plan.TextRefused? ==> s0.emitted[1].Done?;
    } else {
      var front, last := schedule[..|schedule| - 1], schedule[|schedule| - 1];
      DoneRun(plan, turnId, front);
      if Run(s0, front).Some? && Enabled(last, Run(s0, front).value) {
        DoneStep(last, Run(s0, front).value, Dropped(s0, front));
      }
    }
  }

  /** A run whose engine has closed its output has put out no Done exactly when the select
      around the terminal Done took its cancellation arm.  That takes an interruption. */
  lemma DoneLostExactly(plan: Plan, turnId: string, schedule: seq<Action>, s: State)
    requires Run(Init(plan, turnId), schedule) == Some(s) && OutputClosed(s.engine)
    ensures NoDone(s.emitted) <==> Dropped(Init(plan, turnId), schedule)
    ensures NoDone(s.emitted) ==> s.interrupted
  {
    DoneRun(plan, turnId, schedule);
    ReachableInv(plan, turnId, s);
    if !s.interrupted {
      ClosedIsScript(s);
      ScriptEndsInDone(plan);
    }
  }

  /** Only the two kinds of tool turns can lose their Done, and each of them can. */
  lemma DoneCanBeLost(plan: Plan, turnId: string)
    ensures (exists s :: Reachable(plan, turnId, s) && Terminal(s) && NoDone(s.emitted))
            <==> plan.Tools? || plan.ToolsRefused?
  {
    if plan.Tools? || plan.ToolsRefused? {
      ToolPathCanLoseDone(plan, turnId);
    } else {
      forall s | Reachable(plan, turnId, s) && Terminal(s) ensures !NoDone(s.emitted) {
        TextPathKeepsDone(plan, turnId, s);
      }
    }
  }

  lemma TextPathKeepsDone(plan: Plan, turnId: string, s: State)
    requires (plan.Text? || plan.TextRefused?) && Reachable(plan, turnId, s) && s.engine.at.Stopped?
    ensures !NoDone(s.emitted)
  {
    ReachableInv(plan, turnId, s);
    if plan.Text? {
      TextAlwaysEndsInDone(plan.chunks, turnId, s);
    } else {
      assert s.emitted[1].Done?;
    }
  }

  /** Extends a schedule by one step. */
  lemma Follow(s0: State, schedule: seq<Action>, s: State, a: Action) returns (t: State)
    requires Run(s0, schedule) == Some(s) && Enabled(a, s)
    ensures t == Apply(a, s) && Run(s0, schedule + [a]) == Some(t)
  {
    t := Apply(a, s);
    assert (schedule + [a])[..|schedule|] == schedule;
  }

  /** A turn cancelled at once, whose provider gives up. */
  lemma CancelledStart(plan: Plan, turnId: string) returns (schedule: seq<Action>, s: State)
    ensures Run(Init(plan, turnId), schedule) == Some(s)
    ensures s == Init(plan, turnId).(cancelled := true, interrupted := true,
                                     feed := Init(plan, turnId).feed.(source := [], chunks := []))
  {
    s := Follow(Init(plan, turnId), [], Init(plan, turnId), CancelTurn);
    schedule := [CancelTurn];
    if s.feed.source != [] || s.feed.chunks != [] {
      s := Follow(Init(plan, turnId), schedule, s, SourceAbandon);
      schedule := schedule + [SourceAbandon];
    }
  }

  /** On the tool path a cancelled turn may end with nothing at all on the wire, whatever the
      source holds and also when the stream was refused. */
  lemma ToolPathCanLoseDone(plan: Plan, turnId: string)
    requires plan.Tools? || plan.ToolsRefused?
    ensures exists s :: Reachable(plan, turnId, s) && Terminal(s) && NoDone(s.emitted)
                        && s.client.phase == Returned(true) && s.client.wire == []
  {
    var s0 := Init(plan, turnId);
    var schedule, s := CancelledStart(plan, turnId);
    if plan.Tools? {
      s := Follow(s0, schedule, s, Bridging(Close));
      schedule := schedule + [Bridging(Close)];
      s := Follow(s0, schedule, s, Driving(SeeClosed));
      schedule := schedule + [Driving(SeeClosed)];
      s := Follow(s0, schedule, s, Driving(Decide));
      schedule := schedule + [Driving(Decide)];
      s := Follow(s0, schedule, s, Driving(SkipEmit));
      EndQuietly(s0, schedule + [Driving(SkipEmit)], s);
    } else {
      s := Follow(s0, schedule, s, Driving(SkipEmit));
      schedule := schedule + [Driving(SkipEmit)];
      s := Follow(s0, schedule, s, Driving(SkipEmit));
      s := Follow(s0, schedule + [Driving(SkipEmit)], s, Driving(EndDiscard));
      EndQuietly(s0, schedule + [Driving(SkipEmit)] + [Driving(EndDiscard)], s);
    }
  }

  lemma EndQuietly(s0: State, schedule: seq<Action>, s: State)
    requires Run(s0, schedule) == Some(s) && s.engine.at.Stopped? && s.feed.bridge.BridgeStopped?
    requires s.client.phase.Ranging? && s.c2 == []
    ensures exists more, t :: Run(s0, more) == Some(t) && Terminal(t) && t.emitted == s.emitted
                              && t.client.phase == Returned(true) && t.client.wire == s.client.wire
  {
    var t := Follow(s0, schedule, s, Looping(EndTurn));
  }

  // ------------------------------------------------------------------ the untrue stop

  /** What is still to come after n chunks were taken; gone says that the provider gave up
      with chunks left. */
  predicate Remains(chunks: seq<string>, n: nat, left: seq<string>, gone: bool) {
    if gone then left == [] && n < |chunks| else n <= |chunks| && left == chunks[n..]
  }

  /** The output of an engine that saw its stream end: a prefix, short exactly when the
      provider gave up. */
  ghost predicate SawEnd(chunks: seq<string>, body: seq<Event>, left: seq<string>, gone: bool) {
    left == [] && exists n: nat :: n <= |chunks| && body == ChunkEvents(chunks[..n]) && (gone <==> n < |chunks|)
  }

  ghost predicate EndedText(chunks: seq<string>, left: seq<string>, out: seq<Event>, gone: bool, ended: bool) {
    out != [] && out[|out| - 1] == TextDone(!ended) && (ended ==> SawEnd(chunks, out[..|out| - 1], left, gone))
  }

  /** The text-only path with its history: whether the provider gave up, and whether the
      engine saw its stream end. */
  ghost predicate TextRun(chunks: seq<string>, e: Engine, left: seq<string>, out: seq<Event>, gone: bool, ended: bool) {
    var done := e.consumedChunks;
    && done <= chunks
    && (ended ==> e.at == TextFinishing(false) || e.at.Stopped?)
    && match e.at {
         case TextReceiving => out == ChunkEvents(done) && Remains(chunks, |done|, left, gone)
         case TextChecking(c) =>
           out == ChunkEvents(done) && done + [c] <= chunks && Remains(chunks, |done| + 1, left, gone)
         case TextEmitting(c) => ChunkEvents(done) == out + [TextDelta(c)] && Remains(chunks, |done|, left, gone)
         case TextFinishing(p) => ended == !p && (ended ==> SawEnd(chunks, out, left, gone))
         case Stopped => EndedText(chunks, left, out, gone, ended)
         case _ => false
       }
  }

  ghost predicate TextState(chunks: seq<string>, s: State, gone: bool, ended: bool) {
    && s.feed.source == [] && s.feed.bridge.BridgeStopped?
    && TextRun(chunks, s.engine, s.feed.chunks, s.emitted, gone, ended)
  }

  lemma TextRunStep(a: EngineAction, chunks: seq<string>, s: State, gone: bool, ended: bool)
    requires TextState(chunks, s, gone, ended) && EngineEnabled(a, s)
    ensures TextState(chunks, EngineStep(a, s), gone, ended || a.SeeEnd?)
  {
    var done := s.engine.consumedChunks;
    match a {
      case SeeEnd =>
        assert chunks[..|done|] == done;
        assert SawEnd(chunks, s.emitted, [], gone);
      case Emit =>
        assert s.engine.at.TextFinishing? ==> (s.emitted + [TextDone(!ended)])[..|s.emitted|] == s.emitted;
      case TakeChunk =>
        assert done + [s.feed.chunks[0]] == chunks[..|done| + 1];
      case CheckChunk =>
        assert ChunkEvents(done + [s.engine.at.chunk]) == ChunkEvents(done) + [TextDelta(s.engine.at.chunk)];
      case _ =>
    }
  }

  lemma TextGivesUp(chunks: seq<string>, s: State, gone: bool, ended: bool)
    requires TextState(chunks, s, gone, ended) && Enabled(SourceAbandon, s)
    ensures TextState(chunks, Apply(SourceAbandon, s), true, ended)
  {
  }

  lemma TextStateStep(a: Action, chunks: seq<string>, s: State, gone: bool, ended: bool)
    requires TextState(chunks, s, gone, ended) && Enabled(a, s)
    ensures TextState(chunks, Apply(a, s), gone || a == SourceAbandon, ended || a == Driving(SeeEnd))
  {
    match a
    case Driving(e) => TextRunStep(e, chunks, s, gone, ended);
    case SourceAbandon => TextGivesUp(chunks, s, gone, ended);
    case _ =>
  }

  lemma {:induction false} TextRunInv(chunks: seq<string>, turnId: string, schedule: seq<Action>)
    ensures var r := Run(Init(Text(chunks), turnId), schedule);
            r.Some? ==> TextState(chunks, r.value, SourceAbandon in schedule, Driving(SeeEnd) in schedule)
  {
    if schedule == [] {
      assert chunks[0..] == chunks;
    } else {
      var front, last := schedule[..|schedule| - 1], schedule[|schedule| - 1];
      TextRunInv(chunks, turnId, front);
      var r := Run(Init(Text(chunks), turnId), front);
      assert schedule == front + [last];
      if r.Some? && Enabled(last, r.value) {
        TextStateStep(last, chunks, r.value, SourceAbandon in front, Driving(SeeEnd) in front);
      }
    }
  }

  /** A Done that says stop although the script is not complete. */
  ghost predicate Lies(s: State) {
    s.engine.at.Stopped? && StoppedOutput(s.emitted) && s.emitted != Script(s.plan)
  }

  /** On the text-only path the Done says stop exactly when the engine saw its stream end,
      cancelled or not.  It is the truth exactly when the provider had not given up before,
      which it can do only while it has chunks left. */
  lemma TextStopExactly(chunks: seq<string>, turnId: string, schedule: seq<Action>, s: State)
    requires Run(Init(Text(chunks), turnId), schedule) == Some(s) && s.engine.at.Stopped?
    ensures StoppedOutput(s.emitted) <==> Driving(SeeEnd) in schedule
    ensures s.emitted == Script(Text(chunks)) <==> Driving(SeeEnd) in schedule && SourceAbandon !in schedule
    ensures Lies(s) <==> Driving(SeeEnd) in schedule && SourceAbandon in schedule
  {
    TextRunInv(chunks, turnId, schedule);
    RunKeepsPlan(Text(chunks), turnId, schedule);
    EndedTextMeans(chunks, s.feed.chunks, s.emitted, SourceAbandon in schedule, Driving(SeeEnd) in schedule);
  }

  lemma EndedTextMeans(chunks: seq<string>, left: seq<string>, out: seq<Event>, gone: bool, ended: bool)
    requires EndedText(chunks, left, out, gone, ended)
    ensures StoppedOutput(out) <==> ended
    ensures out == ChunkEvents(chunks) + [TextDone(false)] <==> ended && !gone
  {
    assert out == out[..|out| - 1] + [TextDone(!ended)];
    if ended {
      var n: nat :| n <= |chunks| && out[..|out| - 1] == ChunkEvents(chunks[..n]) && (gone <==> n < |chunks|);
      assert chunks[..|chunks|] == chunks;
    }
  }

  /** Only a text turn with something to say can end in an untrue stop, and each of them can. */
  lemma StopCanLie(plan: Plan, turnId: string)
    ensures (exists s :: Reachable(plan, turnId, s) && Lies(s)) <==> plan.Text? && plan.chunks != []
  {
    if plan.Text? && plan.chunks != [] {
      TextStopCanLie(plan.chunks, turnId);
    } else {
      forall s | Reachable(plan, turnId, s) ensures !Lies(s) {
        NeverLies(plan, turnId, s);
      }
    }
  }

  lemma NeverLies(plan: Plan, turnId: string, s: State)
    requires Reachable(plan, turnId, s) && (plan.Text? ==> plan.chunks == [])
    ensures !Lies(s)
  {
    ReachableInv(plan, turnId, s);
    EveryInterleaving(plan, turnId, s);
    match plan
    case Tools(evs) =>
      if StoppedOutput(s.emitted) {
        StopIsTruthful(evs, turnId, s);
        FirstErrorIs(MirrorAll(evs), |evs|);
      }
    case Text(_) => assert StoppedOutput(s.emitted) ==> s.emitted == [TextDone(false)];
    case _ =>
  }

  /** A turn cancelled at once whose provider closes its stream reports stop, although all its
      text is missing. */
  lemma TextStopCanLie(chunks: seq<string>, turnId: string)
    requires chunks != []
    ensures exists s :: Reachable(Text(chunks), turnId, s) && Lies(s) && s.emitted == [TextDone(false)]
  {
    var s0 := Init(Text(chunks), turnId);
    var schedule, s := CancelledStart(Text(chunks), turnId);
    s := Follow(s0, schedule, s, Driving(SeeEnd));
    s := Follow(s0, schedule + [Driving(SeeEnd)], s, Driving(Emit));
    ReachableInv(Text(chunks), turnId, s);
  }
}
