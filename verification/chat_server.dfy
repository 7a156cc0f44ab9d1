/** The chat service: sessions, and the Send loop over a stream of user messages.  The
    gate, the dispatcher, the store and the connection are the environment. */
module ChatServer {
  import opened Basics
  import opened RuntimeEvents

  datatype Role = User | Assistant

  datatype Message = Message(role: Role, content: string)

  datatype UserMessage = UserMessage(sessionId: string, turnId: string, text: string)

  /** What becomes of an accepted message: the budget gate refuses it, the dispatcher fails,
      or an engine serves it and these events arrive until its channel closes. */
  datatype Answer = OverBudget(message: string) | NoEngine(message: string) | Served(events: seq<Event>)

  datatype Turn = Turn(msg: UserMessage, answer: Answer, userSaved: bool, assistantSaved: bool)

  /** How the client's side of the stream ends. */
  datatype RecvEnd = EndOfStream | RecvError

  datatype Status = Ok | RecvFailed | InvalidArgument | NotFound | SendFailed

  // ------------------------------------------------------------------ specification

  /** The events a turn sends: its block on the wire. */
  function Block(t: Turn): seq<AssistantEvent> {
    match t.answer
    case OverBudget(m) => Refusal(t.msg.turnId, BudgetExceeded, m, Budget)
    case NoEngine(m) => Refusal(t.msg.turnId, RouterCode, m, Finished(Error))
    case Served(events) => MapAll(t.msg.turnId, events)
  }

  function Refusal(turnId: string, code: Code, message: string, reason: WireReason): seq<AssistantEvent> {
    [AssistantEvent(turnId, WireError(code, message)), AssistantEvent(turnId, WireDone(true, false, reason, 0, 0))]
  }

  /** What a turn leaves in the store; sent says that its whole block was delivered. */
  function Saved(t: Turn, sent: bool): seq<Message> {
    UserPart(t) + ReplyPart(t, sent)
  }

  function UserPart(t: Turn): seq<Message> {
    if t.userSaved then [Message(User, t.msg.text)] else []
  }

  function ReplyPart(t: Turn, sent: bool): seq<Message> {
    if sent && t.answer.Served? && t.assistantSaved && TextOf(t.answer.events) != ""
    then [Message(Assistant, TextOf(t.answer.events))] else []
  }

  type History = map<string, seq<Message>>

  /** A session without an entry has no messages. */
  function HistoryOf(h: History, id: string): seq<Message> {
    if id in h then h[id] else []
  }

  function Appended(h: History, id: string, messages: seq<Message>): History {
    if messages == [] then h else h[id := HistoryOf(h, id) + messages]
  }

  datatype Session = Session(focusClusterId: string, title: string, turnCount: nat, cancelTurn: Option<string>)

  /** The turn was counted, and it is not left to cancel. */
  function CountedOne(sessions: map<string, Session>, id: string): map<string, Session> {
    if id in sessions then
      sessions[id := sessions[id].(turnCount := sessions[id].turnCount + 1, cancelTurn := None)]
    else sessions
  }

  /** The state the service keeps, together with the client's connection, which delivers
      room more events and then fails for good. */
  datatype World = World(sessions: map<string, Session>, history: History, wire: seq<AssistantEvent>, room: nat)

  /** The connection delivers the whole block. */
  predicate Fits(w: World, t: Turn) {
    |Block(t)| <= w.room
  }

  /** What one accepted message does. */
  function Play(w: World, t: Turn): World {
    World(CountedOne(w.sessions, t.msg.sessionId),
          Appended(w.history, t.msg.sessionId, Saved(t, Fits(w, t))),
          w.wire + SentPart(Block(t), w.room),
          RoomAfter(Block(t), w.room))
  }

  /** The events that go out are the first ones, all of them if there is room. */
  function SentPart(evs: seq<AssistantEvent>, room: nat): seq<AssistantEvent> {
    if |evs| <= room then evs else evs[..room]
  }

  function RoomAfter(evs: seq<AssistantEvent>, room: nat): nat {
    if |evs| <= room then room - |evs| else 0
  }

  datatype Outcome = Outcome(world: World, status: Status, accepted: nat)

  /** The Send loop from message i on. */
  function Serve(w: World, turns: seq<Turn>, i: nat, end: RecvEnd): Outcome
    requires i <= |turns|
    decreases |turns| - i
  {
    if i == |turns| then Outcome(w, if end.EndOfStream? then Ok else RecvFailed, i)
    else if turns[i].msg.sessionId == "" then Outcome(w, InvalidArgument, i)
    else if turns[i].msg.sessionId !in w.sessions then Outcome(w, NotFound, i)
    else if Fits(w, turns[i]) then Serve(Play(w, turns[i]), turns, i + 1, end)
    else Outcome(Play(w, turns[i]), SendFailed, i + 1)
  }

  lemma AppendedTwice(h: History, id: string, a: seq<Message>, b: seq<Message>)
    ensures Appended(Appended(h, id, a), id, b) == Appended(h, id, a + b)
  {
    if a == [] {
      assert a + b == b;
    } else if b == [] {
      assert a + b == a;
    } else {
      assert HistoryOf(h, id) + a + b == HistoryOf(h, id) + (a + b);
    }
  }

  // ------------------------------------------------------------------ the service

  class Connection {
    var wire: seq<AssistantEvent>
    var room: nat

    constructor (room: nat)
      ensures wire == [] && this.room == room
    {
      wire, this.room := [], room;
    }

    method Send(ev: AssistantEvent) returns (ok: bool)
      modifies this
      ensures ok == (0 < old(room))
      ensures wire == old(wire) + SentPart([ev], old(room)) && room == RoomAfter([ev], old(room))
    {
      ok := 0 < room;
      if ok {
        wire, room := wire + [ev], room - 1;
      } else {
        assert [ev][..0] == [];
      }
    }
  }

  /** The persistent message store; a session without an entry has no messages. */
  class SessionStore {
    var history: map<string, seq<Message>>

    constructor ()
      ensures history == map[]
    {
      history := map[];
    }

    method Append(id: string, m: Message, works: bool)
      modifies this
      ensures history == if works then Appended(old(history), id, [m]) else old(history)
    {
      if works {
        history := history[id := HistoryOf(history, id) + [m]];
      }
    }
  }

  class Server {
    var sessions: map<string, Session>
    const store: SessionStore

    constructor (store: SessionStore)
      ensures sessions == map[] && this.store == store
    {
      sessions := map[];
      this.store := store;
    }

    method CreateSession(id: string, focus: string, title: string) returns (status: Status)
      modifies this
      ensures status == if focus == "" then InvalidArgument else Ok
      ensures sessions == if focus == "" then old(sessions) else old(sessions)[id := Session(focus, title, 0, None)]
    {
      if focus == "" {
        return InvalidArgument;
      }
      sessions := sessions[id := Session(focus, title, 0, None)];
      status := Ok;
    }

    /** Cancels the running turn of a session, if there is one. */
    method CancelTurn(id: string) returns (status: Status, cancelled: Option<string>)
      ensures status == if id == "" then InvalidArgument else if id in sessions then Ok else NotFound
      ensures cancelled == if id != "" && id in sessions then sessions[id].cancelTurn else None
    {
      cancelled := None;
      if id == "" {
        return InvalidArgument, None;
      }
      if id in sessions {
        cancelled := sessions[id].cancelTurn;
      }
      status := if id in sessions then Ok else NotFound;
    }

    ghost function Now(conn: Connection): World
      reads this, conn, store
    {
      World(sessions, store.history, conn.wire, conn.room)
    }

    /** Sends the error and the Done of a turn that never reached an engine. */
    method Refuse(conn: Connection, turnId: string, code: Code, message: string, reason: WireReason) returns (ok: bool)
      modifies conn
      ensures ok == (2 <= old(conn.room))
      ensures conn.wire == old(conn.wire) + SentPart(Refusal(turnId, code, message, reason), old(conn.room))
      ensures conn.room == RoomAfter(Refusal(turnId, code, message, reason), old(conn.room))
    {
      ok := conn.Send(AssistantEvent(turnId, WireError(code, message)));
      if !ok {
        return;
      }
      ok := conn.Send(AssistantEvent(turnId, WireDone(true, false, reason, 0, 0)));
    }

    /** Forwards an engine's events and buffers their text. */
    method Forward(conn: Connection, turnId: string, events: seq<Event>) returns (ok: bool, text: string)
      modifies conn
      ensures ok == (|MapAll(turnId, events)| <= old(conn.room))
      ensures conn.wire == old(conn.wire) + SentPart(MapAll(turnId, events), old(conn.room))
      ensures conn.room == RoomAfter(MapAll(turnId, events), old(conn.room))
      ensures ok ==> text == TextOf(events)
    {
      text := "";
      var i := 0;
      while i < |events|
        invariant i <= |events|
        invariant text == TextOf(events[..i])
        invariant |MapAll(turnId, events[..i])| <= old(conn.room)
        invariant conn.wire == old(conn.wire) + MapAll(turnId, events[..i])
        invariant conn.room == old(conn.room) - |MapAll(turnId, events[..i])|
      {
        var ev := events[i];
        assert events[..i + 1][..i] == events[..i];
        if ev.TextDelta? {
          text := text + ev.text;
        }
        var mapped := MapRouterEvent(turnId, ev);
        if mapped.Some? {
          ok := conn.Send(mapped.value);
          if !ok {
            CutShort(turnId, events, i);
            return;
          }
        }
        i := i + 1;
      }
      assert events[..i] == events;
      ok := true;
    }

    method SetCancel(id: string, turn: Option<string>)
      requires id in sessions
      modifies this
      ensures sessions == old(sessions)[id := old(sessions)[id].(cancelTurn := turn)]
    {
      sessions := sessions[id := sessions[id].(cancelTurn := turn)];
    }

    /** Answers an accepted message over the connection and stores the reply. */
    method Reply(conn: Connection, t: Turn) returns (ok: bool)
      requires t.msg.sessionId in sessions
      modifies this, conn, store
      ensures ok == Fits(old(Now(conn)), t)
      ensures sessions == old(sessions)[t.msg.sessionId := old(sessions)[t.msg.sessionId].(cancelTurn := None)]
      ensures store.history == Appended(old(store.history), t.msg.sessionId, ReplyPart(t, ok))
      ensures conn.wire == old(conn.wire) + SentPart(Block(t), old(conn.room))
      ensures conn.room == RoomAfter(Block(t), old(conn.room))
    {
      match t.answer {
        case OverBudget(m) =>
          SetCancel(t.msg.sessionId, None);
          ok := Refuse(conn, t.msg.turnId, BudgetExceeded, m, Budget);
        case NoEngine(m) =>
          SetCancel(t.msg.sessionId, None);
          ok := Refuse(conn, t.msg.turnId, RouterCode, m, Finished(Error));
        case Served(events) =>
          var text;
          ok, text := Forward(conn, t.msg.turnId, events);
          if ok && text != "" {
            store.Append(t.msg.sessionId, Message(Assistant, text), t.assistantSaved);
          }
          SetCancel(t.msg.sessionId, None);
      }
    }

    /** One accepted message, from its arrival to the end of its turn. */
    method RunTurn(conn: Connection, t: Turn) returns (ok: bool)
      requires t.msg.sessionId in sessions
      modifies this, conn, store
      ensures ok == Fits(old(Now(conn)), t)
      ensures Now(conn) == Play(old(Now(conn)), t) && sessions.Keys == old(sessions.Keys)
    {
      var id := t.msg.sessionId;
      SetCancel(id, Some(t.msg.turnId));
      sessions := sessions[id := sessions[id].(turnCount := sessions[id].turnCount + 1)];
      store.Append(id, Message(User, t.msg.text), t.userSaved);
      ok := Reply(conn, t);
      AppendedTwice(old(store.history), id, UserPart(t), ReplyPart(t, ok));
    }

    /** The bidirectional chat stream.  accepted counts the messages that started a turn. */
    method Send(conn: Connection, turns: seq<Turn>, end: RecvEnd) returns (status: Status, accepted: nat)
      modifies this, conn, store
      ensures Outcome(Now(conn), status, accepted) == Serve(old(Now(conn)), turns, 0, end)
    {
      accepted := 0;
      while accepted < |turns|
        invariant accepted <= |turns|
        invariant Serve(Now(conn), turns, accepted, end) == Serve(old(Now(conn)), turns, 0, end)
      {
        if turns[accepted].msg.sessionId == "" {
          return InvalidArgument, accepted;
        }
        if turns[accepted].msg.sessionId !in sessions {
          return NotFound, accepted;
        }
        var ok := RunTurn(conn, turns[accepted]);
        accepted := accepted + 1;
        if !ok {
          return SendFailed, accepted;
        }
      }
      status := if end.EndOfStream? then Ok else RecvFailed;
    }
  }

  lemma {:induction false} MapAllExtends(turnId: string, events: seq<Event>, i: nat)
    requires i <= |events|
    ensures MapAll(turnId, events[..i]) <= MapAll(turnId, events)
    decreases |events|
  {
    if i == |events| {
      assert events[..i] == events;
    } else {
      var front := events[..|events| - 1];
      MapAllExtends(turnId, front, i);
      assert front[..i] == events[..i];
    }
  }

  /** A connection with no room left at event i has delivered what it had room for. */
  lemma CutShort(turnId: string, events: seq<Event>, i: nat)
    requires i < |events| && Mapped(turnId, events[i]) != []
    ensures |MapAll(turnId, events[..i])| < |MapAll(turnId, events)|
    ensures SentPart(MapAll(turnId, events), |MapAll(turnId, events[..i])|) == MapAll(turnId, events[..i])
  {
    MapAllExtends(turnId, events, i + 1);
    assert events[..i + 1][..i] == events[..i];
  }
}
