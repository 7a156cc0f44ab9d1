/** What a stream of user messages leaves on the wire, in the store and in the sessions. */
module ChatTheorems {
  import opened Basics
  import opened RuntimeEvents
  import opened ChatServer
  import TurnTheorems
  import TurnLaws

  /** The messages from i to n name existing sessions. */
  ghost predicate AllKnown(ids: set<string>, turns: seq<Turn>, i: nat, n: nat)
    requires n <= |turns|
  {
    forall k :: i <= k < n ==> turns[k].msg.sessionId != "" && turns[k].msg.sessionId in ids
  }

  /** The blocks of the turns from i to n, one after the other. */
  function Blocks(turns: seq<Turn>, i: nat, n: nat): seq<AssistantEvent>
    requires i <= n <= |turns|
    decreases n - i
  {
    if i == n then [] else Block(turns[i]) + Blocks(turns, i + 1, n)
  }

  /** What the turns from i to n leave in the history of one session; sent says that the
      last block was delivered. */
  function Transcript(id: string, turns: seq<Turn>, i: nat, n: nat, sent: bool): seq<Message>
    requires i <= n <= |turns|
    decreases n - i
  {
    if i == n then []
    else (if turns[i].msg.sessionId == id then Saved(turns[i], i + 1 < n || sent) else [])
         + Transcript(id, turns, i + 1, n, sent)
  }

  function TurnsOf(id: string, turns: seq<Turn>, i: nat, n: nat): nat
    requires i <= n <= |turns|
    decreases n - i
  {
    if i == n then 0 else (if turns[i].msg.sessionId == id then 1 else 0) + TurnsOf(id, turns, i + 1, n)
  }

  /** Message i names an existing session. */
  predicate Known(w: World, turns: seq<Turn>, i: nat)
    requires i < |turns|
  {
    turns[i].msg.sessionId != "" && turns[i].msg.sessionId in w.sessions
  }

  /** Induction over the Send loop: p holds of every run if it holds of the runs that accept
      nothing, of those that fail in their first block, and of a run whose rest it holds of. */
  lemma {:induction false} ServeInduction(w: World, turns: seq<Turn>, i: nat, end: RecvEnd,
                                          p: (World, nat, Outcome) -> bool)
    requires i <= |turns|
    requires forall v: World, j: nat ::
               j <= |turns| && (j < |turns| ==> !Known(v, turns, j)) ==> p(v, j, Serve(v, turns, j, end))
    requires forall v: World, j: nat :: j < |turns| && Known(v, turns, j) && !Fits(v, turns[j]) ==>
               p(v, j, Outcome(Play(v, turns[j]), SendFailed, j + 1))
    requires forall v: World, j: nat, o: Outcome ::
               (j < |turns| && Known(v, turns, j) && Fits(v, turns[j]) && p(Play(v, turns[j]), j + 1, o)) ==> p(v, j, o)
    ensures p(w, i, Serve(w, turns, i, end))
    decreases |turns| - i
  {
    if i < |turns| && Known(w, turns, i) && Fits(w, turns[i]) {
      ServeInduction(Play(w, turns[i]), turns, i + 1, end, p);
    }
  }

  /** How far the loop gets, and why it stops. */
  ghost predicate Stops(w: World, turns: seq<Turn>, i: nat, end: RecvEnd, o: Outcome) {
    && i <= o.accepted <= |turns|
    && AllKnown(w.sessions.Keys, turns, i, o.accepted)
    && (o.status == Ok || o.status == RecvFailed <==> o.status != SendFailed && o.accepted == |turns|)
    && (o.status == RecvFailed ==> end.RecvError?) && (o.status == Ok ==> end.EndOfStream?)
    && (o.status == InvalidArgument ==> turns[o.accepted].msg.sessionId == "")
    && (o.status == NotFound ==>
          turns[o.accepted].msg.sessionId != "" && turns[o.accepted].msg.sessionId !in w.sessions)
    && (o.status == SendFailed ==> i < o.accepted)
  }

  lemma StopsStep(w: World, turns: seq<Turn>, i: nat, end: RecvEnd, o: Outcome)
    requires i < |turns| && Known(w, turns, i) && Stops(Play(w, turns[i]), turns, i + 1, end, o)
    ensures Stops(w, turns, i, end, o)
  {
    assert Play(w, turns[i]).sessions.Keys == w.sessions.Keys;
  }

  lemma StopsAtOnce(w: World, turns: seq<Turn>, i: nat, end: RecvEnd)
    requires i <= |turns|
    ensures (i < |turns| ==> !Known(w, turns, i)) ==> Stops(w, turns, i, end, Serve(w, turns, i, end))
    ensures i < |turns| && Known(w, turns, i) ==> Stops(w, turns, i, end, Outcome(Play(w, turns[i]), SendFailed, i + 1))
  {
  }

  lemma ServeStops(w: World, turns: seq<Turn>, i: nat, end: RecvEnd)
    requires i <= |turns|
    ensures Stops(w, turns, i, end, Serve(w, turns, i, end))
  {
    forall v: World, j: nat | j <= |turns|
      ensures (j < |turns| ==> !Known(v, turns, j)) ==> Stops(v, turns, j, end, Serve(v, turns, j, end))
      ensures j < |turns| && Known(v, turns, j) ==>
                Stops(v, turns, j, end, Outcome(Play(v, turns[j]), SendFailed, j + 1))
    {
      StopsAtOnce(v, turns, j, end);
    }
    forall v: World, j: nat, o: Outcome | j < |turns| && Known(v, turns, j) && Fits(v, turns[j])
                                          && Stops(Play(v, turns[j]), turns, j + 1, end, o)
      ensures Stops(v, turns, j, end, o)
    {
      StopsStep(v, turns, j, end, o);
    }
    ServeInduction(w, turns, i, end, (v: World, j: nat, o: Outcome) => Stops(v, turns, j, end, o));
  }

  /** From one world to another, exactly these events were given to the connection. */
  predicate Delivers(from: World, to: World, evs: seq<AssistantEvent>) {
    to.wire == from.wire + SentPart(evs, from.room) && to.room == RoomAfter(evs, from.room)
  }

  lemma DeliversMore(from: World, mid: World, to: World, evs: seq<AssistantEvent>, more: seq<AssistantEvent>)
    requires |evs| <= from.room && Delivers(from, mid, evs) && Delivers(mid, to, more)
    ensures Delivers(from, to, evs + more)
  {
    assert from.wire + evs + SentPart(more, mid.room) == from.wire + (evs + SentPart(more, mid.room));
    if from.room < |evs + more| {
      assert (evs + more)[..from.room] == evs + more[..mid.room];
    }
  }

  /** The wire is the accepted turns' blocks, one after the other; when the connection fails
      it is as much of them as it had room for, and only the last block is cut. */
  ghost predicate WireOfBlocks(w: World, turns: seq<Turn>, i: nat, o: Outcome) {
    && i <= o.accepted <= |turns|
    && Delivers(w, o.world, Blocks(turns, i, o.accepted))
    && (o.status == SendFailed <==> w.room < |Blocks(turns, i, o.accepted)|)
    && (o.status == SendFailed ==>
         i < o.accepted && |Blocks(turns, i, o.accepted)| - |Block(turns[o.accepted - 1])| <= w.room)
  }

  lemma WireStep(w: World, turns: seq<Turn>, i: nat, o: Outcome)
    requires i < |turns| && Fits(w, turns[i]) && WireOfBlocks(Play(w, turns[i]), turns, i + 1, o)
    ensures WireOfBlocks(w, turns, i, o)
  {
    DeliversMore(w, Play(w, turns[i]), o.world, Block(turns[i]), Blocks(turns, i + 1, o.accepted));
  }

  lemma WireLast(w: World, turns: seq<Turn>, i: nat)
    requires i < |turns| && !Fits(w, turns[i])
    ensures WireOfBlocks(w, turns, i, Outcome(Play(w, turns[i]), SendFailed, i + 1))
  {
    OneBlock(turns, i);
  }

  lemma OneBlock(turns: seq<Turn>, i: nat)
    requires i < |turns|
    ensures Blocks(turns, i, i + 1) == Block(turns[i])
  {
    assert Blocks(turns, i + 1, i + 1) == [];
  }

  lemma WireIsBlocks(w: World, turns: seq<Turn>, i: nat, end: RecvEnd)
    requires i <= |turns|
    ensures WireOfBlocks(w, turns, i, Serve(w, turns, i, end))
  {
    forall v: World, j: nat | j < |turns| && Known(v, turns, j) && !Fits(v, turns[j])
      ensures WireOfBlocks(v, turns, j, Outcome(Play(v, turns[j]), SendFailed, j + 1))
    {
      WireLast(v, turns, j);
    }
    forall v: World, j: nat, o: Outcome | j < |turns| && Known(v, turns, j) && Fits(v, turns[j])
                                          && WireOfBlocks(Play(v, turns[j]), turns, j + 1, o)
      ensures WireOfBlocks(v, turns, j, o)
    {
      WireStep(v, turns, j, o);
    }
    ServeInduction(w, turns, i, end, (v: World, j: nat, o: Outcome) => WireOfBlocks(v, turns, j, o));
  }

  /** Each session's stored history grows by its own turns only, in order: the user's text,
      then at most one assistant message. */
  ghost predicate HistoryOfTurns(w: World, turns: seq<Turn>, i: nat, o: Outcome, id: string) {
    && i <= o.accepted <= |turns|
    && (o.status == SendFailed ==> i < o.accepted)
    && HistoryOf(o.world.history, id)
       == HistoryOf(w.history, id) + Transcript(id, turns, i, o.accepted, o.status != SendFailed)
  }

  lemma HistoryStep(w: World, turns: seq<Turn>, i: nat, o: Outcome, id: string)
    requires i < |turns| && Fits(w, turns[i]) && HistoryOfTurns(Play(w, turns[i]), turns, i + 1, o, id)
    ensures HistoryOfTurns(w, turns, i, o, id)
  {
    AppendedHistory(w.history, turns[i].msg.sessionId, Saved(turns[i], true), id);
    var mine := if turns[i].msg.sessionId == id then Saved(turns[i], true) else [];
    assert i + 1 < o.accepted || o.status != SendFailed;
    Associates(HistoryOf(w.history, id), mine, Transcript(id, turns, i + 1, o.accepted, o.status != SendFailed));
  }

  lemma Associates(a: seq<Message>, b: seq<Message>, c: seq<Message>)
    ensures a + b + c == a + (b + c)
  {
  }

  lemma HistoryLast(w: World, turns: seq<Turn>, i: nat, id: string)
    requires i < |turns| && !Fits(w, turns[i])
    ensures HistoryOfTurns(w, turns, i, Outcome(Play(w, turns[i]), SendFailed, i + 1), id)
  {
    AppendedHistory(w.history, turns[i].msg.sessionId, Saved(turns[i], false), id);
    var mine := if turns[i].msg.sessionId == id then Saved(turns[i], false) else [];
    assert Transcript(id, turns, i, i + 1, false) == mine + [];
  }

  lemma HistoryIsTranscript(w: World, turns: seq<Turn>, i: nat, end: RecvEnd, id: string)
    requires i <= |turns|
    ensures HistoryOfTurns(w, turns, i, Serve(w, turns, i, end), id)
  {
    forall v: World, j: nat | j < |turns| && Known(v, turns, j) && !Fits(v, turns[j])
      ensures HistoryOfTurns(v, turns, j, Outcome(Play(v, turns[j]), SendFailed, j + 1), id)
    {
      HistoryLast(v, turns, j, id);
    }
    forall v: World, j: nat, o: Outcome | j < |turns| && Known(v, turns, j) && Fits(v, turns[j])
                                          && HistoryOfTurns(Play(v, turns[j]), turns, j + 1, o, id)
      ensures HistoryOfTurns(v, turns, j, o, id)
    {
      HistoryStep(v, turns, j, o, id);
    }
    ServeInduction(w, turns, i, end, (v: World, j: nat, o: Outcome) => HistoryOfTurns(v, turns, j, o, id));
  }

  lemma AppendedHistory(h: History, to: string, messages: seq<Message>, id: string)
    ensures HistoryOf(Appended(h, to, messages), id) == HistoryOf(h, id) + (if to == id then messages else [])
  {
  }

  /** Every accepted message is counted once in its session, and leaves no turn to cancel. */
  ghost predicate Counted(w: World, turns: seq<Turn>, i: nat, o: Outcome, id: string) {
    id in w.sessions ==>
      && i <= o.accepted <= |turns| && id in o.world.sessions
      && o.world.sessions[id].turnCount == w.sessions[id].turnCount + TurnsOf(id, turns, i, o.accepted)
      && o.world.sessions[id].cancelTurn
         == if TurnsOf(id, turns, i, o.accepted) > 0 then None else w.sessions[id].cancelTurn
  }

  lemma TurnsAreCounted(w: World, turns: seq<Turn>, i: nat, end: RecvEnd, id: string)
    requires i <= |turns|
    ensures Counted(w, turns, i, Serve(w, turns, i, end), id)
  {
    forall v: World, j: nat | j < |turns| && Known(v, turns, j) && !Fits(v, turns[j])
      ensures Counted(v, turns, j, Outcome(Play(v, turns[j]), SendFailed, j + 1), id)
    {
      assert TurnsOf(id, turns, j + 1, j + 1) == 0;
    }
    forall v: World, j: nat, o: Outcome | j < |turns| && Known(v, turns, j) && Fits(v, turns[j])
                                          && Counted(Play(v, turns[j]), turns, j + 1, o, id)
      ensures Counted(v, turns, j, o, id)
    {
    }
    ServeInduction(w, turns, i, end, (v: World, j: nat, o: Outcome) => Counted(v, turns, j, o, id));
  }

  /** The assistant message of a delivered turn is exactly the text its block showed. */
  lemma ReplyIsWireText(t: Turn, sent: bool)
    ensures ReplyPart(t, sent) != [] ==> ReplyPart(t, sent) == [Message(Assistant, WireTextOf(Block(t)))]
    ensures sent && t.answer.Served? && t.assistantSaved && WireTextOf(Block(t)) != "" ==> ReplyPart(t, sent) != []
  {
    if t.answer.Served? {
      MappingKeepsText(t.msg.turnId, t.answer.events);
    }
  }

  // ------------------------------------------------------------------ blocks of whole turns

  /** A block that belongs to one turn and ends in its only Done. */
  predicate WholeBlock(turnId: string, block: seq<AssistantEvent>) {
    && block != []
    && (forall i :: 0 <= i < |block| ==> block[i].turnId == turnId)
    && (forall i :: 0 <= i < |block| ==> (block[i].body.WireDone? <==> i == |block| - 1))
  }

  /** The events are those of a turn that ran to its end without interruption, on either
      path of the engine and under any schedule. */
  ghost predicate RanToEnd(turnId: string, events: seq<Event>) {
    exists plan, s :: TurnTheorems.Reachable(plan, turnId, s) && s.client.phase.Returned? && !s.interrupted
                      && s.emitted == events
  }

  /** Whatever happens to a message, its block ends in its only Done. */
  lemma EveryBlockIsWhole(t: Turn)
    requires t.answer.Served? ==> RanToEnd(t.msg.turnId, t.answer.events)
    ensures WholeBlock(t.msg.turnId, Block(t))
  {
    if t.answer.Served? {
      ServedBlockIsWhole(t.msg.turnId, t.answer.events);
    }
  }

  lemma ServedBlockIsWhole(turnId: string, events: seq<Event>)
    requires RanToEnd(turnId, events)
    ensures WholeBlock(turnId, MapAll(turnId, events))
  {
    var plan, s :| TurnTheorems.Reachable(plan, turnId, s) && s.client.phase.Returned? && !s.interrupted
                   && s.emitted == events;
    TurnTheorems.UninterruptedIsComplete(plan, turnId, s);
    TurnTheorems.ScriptEndsInDone(plan);
    TurnTheorems.ScriptIsMapped(plan);
    MapAllKeepsPlaces(turnId, events);
  }

  /** The events are those of a turn that returned, cancelled or not. */
  ghost predicate RanSomehow(turnId: string, events: seq<Event>) {
    exists plan, s :: TurnTheorems.Reachable(plan, turnId, s) && s.client.phase.Returned? && s.emitted == events
  }

  /** A block in which nothing follows a Done. */
  predicate CleanBlock(turnId: string, block: seq<AssistantEvent>) {
    forall i :: 0 <= i < |block| ==> block[i].turnId == turnId && (block[i].body.WireDone? ==> i == |block| - 1)
  }

  /** Whenever a turn is cancelled, nothing of it follows its Done, and it has at most one. */
  lemma EveryBlockIsClean(t: Turn)
    requires t.answer.Served? ==> RanSomehow(t.msg.turnId, t.answer.events)
    ensures CleanBlock(t.msg.turnId, Block(t)) && Dones(Block(t)) <= 1
  {
    if t.answer.Served? {
      var plan, s :| TurnTheorems.Reachable(plan, t.msg.turnId, s) && s.client.phase.Returned?
                     && s.emitted == t.answer.events;
      TurnTheorems.AtMostOneDone(plan, t.msg.turnId, s);
      TurnTheorems.OutputIsMapped(plan, t.msg.turnId, s);
      MapAllKeepsPlaces(t.msg.turnId, t.answer.events);
    }
    CleanBlockHasOneDone(t.msg.turnId, Block(t));
  }

  lemma {:induction false} CleanBlockHasOneDone(turnId: string, block: seq<AssistantEvent>)
    requires CleanBlock(turnId, block)
    ensures Dones(block) <= 1
  {
    if |block| > 1 {
      assert !block[0].body.WireDone?;
      CleanBlockHasOneDone(turnId, block[1..]);
    } else if block != [] {
      assert block[1..] == [];
    }
  }

  /** Events that all have a wire form keep their places on the wire. */
  lemma {:induction false} MapAllKeepsPlaces(turnId: string, events: seq<Event>)
    requires forall i :: 0 <= i < |events| ==> !events[i].Unmapped?
    ensures var m := MapAll(turnId, events);
      && |m| == |events|
      && forall i :: 0 <= i < |events| ==> m[i].turnId == turnId && (m[i].body.WireDone? <==> events[i].Done?)
  {
    if events != [] {
      var front, last := events[..|events| - 1], events[|events| - 1];
      MapAllKeepsPlaces(turnId, front);
      assert Mapped(turnId, last) == [AssistantEvent(turnId, MapBody(last).value)];
      assert forall i :: 0 <= i < |front| ==> events[i] == front[i];
    }
  }

  function Dones(wire: seq<AssistantEvent>): nat {
    if wire == [] then 0 else (if wire[0].body.WireDone? then 1 else 0) + Dones(wire[1..])
  }

  lemma {:induction false} DonesConcat(a: seq<AssistantEvent>, b: seq<AssistantEvent>)
    ensures Dones(a + b) == Dones(a) + Dones(b)
  {
    if a == [] {
      assert a + b == b;
    } else {
      assert (a + b)[1..] == a[1..] + b;
      DonesConcat(a[1..], b);
    }
  }

  lemma {:induction false} WholeBlockHasOneDone(turnId: string, block: seq<AssistantEvent>)
    requires WholeBlock(turnId, block)
    ensures Dones(block) == 1
  {
    if |block| > 1 {
      assert !block[0].body.WireDone?;
      assert WholeBlock(turnId, block[1..]);
      WholeBlockHasOneDone(turnId, block[1..]);
    } else {
      assert block[1..] == [];
    }
  }

  /** On a connection that does not fail, with no turn interrupted, the wire gains exactly one
      Done for every accepted message, each closing that message's own block. */
  lemma OneDonePerMessage(w: World, turns: seq<Turn>, end: RecvEnd)
    requires forall k :: 0 <= k < |turns| && turns[k].answer.Served? ==>
               RanToEnd(turns[k].msg.turnId, turns[k].answer.events)
    requires Serve(w, turns, 0, end).status != SendFailed
    ensures var o := Serve(w, turns, 0, end);
      && o.accepted <= |turns|
      && o.world.wire == w.wire + Blocks(turns, 0, o.accepted)
      && (forall k :: 0 <= k < o.accepted ==> WholeBlock(turns[k].msg.turnId, Block(turns[k])))
      && Dones(o.world.wire) == Dones(w.wire) + o.accepted
  {
    WireIsBlocks(w, turns, 0, end);
    var n := Serve(w, turns, 0, end).accepted;
    forall k | 0 <= k < n
      ensures WholeBlock(turns[k].msg.turnId, Block(turns[k])) && Dones(Block(turns[k])) == 1
    {
      EveryBlockIsWhole(turns[k]);
      WholeBlockHasOneDone(turns[k].msg.turnId, Block(turns[k]));
    }
    DonesOfBlocks(turns, 0, n);
    DonesConcat(w.wire, Blocks(turns, 0, n));
  }

  lemma {:induction false} DonesOfBlocks(turns: seq<Turn>, i: nat, n: nat)
    requires i <= n <= |turns|
    requires forall k :: i <= k < n ==> Dones(Block(turns[k])) == 1
    ensures Dones(Blocks(turns, i, n)) == n - i
    decreases n - i
  {
    if i < n {
      DonesConcat(Block(turns[i]), Blocks(turns, i + 1, n));
      DonesOfBlocks(turns, i + 1, n);
    }
  }

  // ------------------------------------------------------------------ what is stored and sent

  /** A turn stores the user's text as the user's, then at most one message of the assistant. */
  lemma SavedMeans(t: Turn, sent: bool)
    ensures var s := Saved(t, sent);
      && |s| == (if t.userSaved then 1 else 0) + |ReplyPart(t, sent)| && |ReplyPart(t, sent)| <= 1
      && (t.userSaved ==> s[0].role == User && s[0].content == t.msg.text)
      && (ReplyPart(t, sent) != [] ==> s[|s| - 1].role == Assistant && s[|s| - 1].content == WireTextOf(Block(t)))
      && (ReplyPart(t, sent) != [] ==> sent && t.answer.Served? && WireTextOf(Block(t)) != "")
  {
    ReplyIsWireText(t, sent);
    if t.answer.Served? {
      MappingKeepsText(t.msg.turnId, t.answer.events);
    }
  }

  /** The block contains an error with this code. */
  predicate HasError(block: seq<AssistantEvent>, code: Code) {
    exists i :: 0 <= i < |block| && block[i].body.WireError? && block[i].body.code == code
  }

  predicate HasDone(block: seq<AssistantEvent>, reason: WireReason) {
    exists i :: 0 <= i < |block| && block[i].body.WireDone? && block[i].body.reason == reason
  }

  /** The error code tells the client why it has no answer: a spent budget, no engine, or a
      provider that failed; and only a spent budget ends a turn for that reason. */
  lemma CodesTellCauses(t: Turn)
    requires t.answer.Served? ==> RanSomehow(t.msg.turnId, t.answer.events)
    ensures HasError(Block(t), BudgetExceeded) <==> t.answer.OverBudget?
    ensures HasError(Block(t), RouterCode) <==> t.answer.NoEngine?
    ensures HasDone(Block(t), Budget) <==> t.answer.OverBudget?
    ensures t.answer.OverBudget? ==> Block(t)[0].body == WireError(BudgetExceeded, t.answer.message)
    ensures t.answer.NoEngine? ==> Block(t)[0].body == WireError(RouterCode, t.answer.message)
  {
    match t.answer
    case Served(events) => ServedCodes(t.msg.turnId, events);
    case OverBudget(m) => assert Block(t)[0].body.WireError? && Block(t)[1].body.WireDone?;
    case NoEngine(m) => assert Block(t)[0].body.WireError?;
  }

  lemma ServedCodes(turnId: string, events: seq<Event>)
    requires RanSomehow(turnId, events)
    ensures forall i :: 0 <= i < |MapAll(turnId, events)| ==> EngineBody(MapAll(turnId, events)[i].body)
  {
    var plan, s :| TurnTheorems.Reachable(plan, turnId, s) && s.client.phase.Returned? && s.emitted == events;
    TurnLaws.EngineErrors(plan, turnId, s);
    MapAllOfEngine(turnId, events);
  }

  /** Bodies the engine may be behind. */
  predicate EngineBody(b: Body) {
    (b.WireError? ==> b.code == LlmCode) && (b.WireDone? ==> b.reason.Finished?)
  }

  lemma {:induction false} MapAllOfEngine(turnId: string, events: seq<Event>)
    requires forall i :: 0 <= i < |events| && events[i].ErrorEvent? ==> events[i].code == LlmCode
    ensures forall i :: 0 <= i < |MapAll(turnId, events)| ==> EngineBody(MapAll(turnId, events)[i].body)
  {
    if events != [] {
      var front := events[..|events| - 1];
      assert forall i :: 0 <= i < |front| ==> front[i] == events[i];
      MapAllOfEngine(turnId, front);
    }
  }

  /** What a connection delivers: the first events, as many as it has room for. */
  lemma SentPartMeans(evs: seq<AssistantEvent>, room: nat)
    ensures SentPart(evs, room) <= evs
    ensures |SentPart(evs, room)| + RoomAfter(evs, room) == room
    ensures |SentPart(evs, room)| == if |evs| < room then |evs| else room
  {
  }
}
