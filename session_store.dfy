/**
 * The interactive session store (`AutoSessionManager` in
 * backend/auto_session_manager.py): a table from chat to session, updated in
 * place. A chat is ABSENT, or ACTIVE until it is closed or found timed out by
 * a liveness probe. The clock is the `now` argument, in microseconds (the
 * resolution of Python's `datetime`).
 */
module SessionStore {

  import opened Wrappers

  type ChatId = int

  const MicrosPerMinute: int := 60 * 1000 * 1000
  const DefaultTimeoutMinutes: int := 10
  const DefaultMaxTurns: int := 10

  datatype Message = Message(role: string, content: string)

  datatype Session = Session(startTime: int, lastMsgTime: int, buffer: seq<Message>, turns: int)

  /** Python truthiness of an optional string argument. */
  predicate Given(s: Option<string>)
  {
    s.Some? && s.value != ""
  }

  /** The transcript a new session starts with. */
  function Seed(initialUserMsg: Option<string>, initialReply: Option<string>): seq<Message>
  {
    (if Given(initialUserMsg) then [Message("user", initialUserMsg.value)] else [])
    + (if Given(initialReply) then [Message("agent", initialReply.value)] else [])
  }

  /** Number of agent messages in a transcript. */
  function AgentCount(buffer: seq<Message>): nat
  {
    if buffer == [] then 0
    else AgentCount(buffer[..|buffer| - 1]) + (if buffer[|buffer| - 1].role == "agent" then 1 else 0)
  }

  /** Turns count the agent messages added after the start; only the seeded
      reply, if any, is not counted. */
  predicate TurnsAccounted(s: Session)
  {
    0 <= s.turns <= AgentCount(s.buffer) <= s.turns + 1
  }

  /** Strictly more than the timeout has passed since the last message. */
  predicate TimedOut(s: Session, now: int, timeoutMinutes: int)
  {
    now - s.lastMsgTime > timeoutMinutes * MicrosPerMinute
  }

  /** The answer of a liveness probe. */
  predicate Live(sessions: map<ChatId, Session>, chatId: ChatId, now: int, timeoutMinutes: int)
  {
    chatId in sessions && !TimedOut(sessions[chatId], now, timeoutMinutes)
  }

  /** The table after a liveness probe: a timed-out session is evicted. */
  function Probed(sessions: map<ChatId, Session>, chatId: ChatId, now: int, timeoutMinutes: int): map<ChatId, Session>
  {
    if chatId in sessions && TimedOut(sessions[chatId], now, timeoutMinutes) then sessions - {chatId}
    else sessions
  }

  /** A session after one more message. */
  function Appended(s: Session, role: string, content: string, now: int): Session
  {
    s.(buffer := s.buffer + [Message(role, content)],
       lastMsgTime := now,
       turns := if role == "agent" then s.turns + 1 else s.turns)
  }

  /** The table after `add_message`. */
  function AfterAdd(sessions: map<ChatId, Session>, chatId: ChatId, role: string, content: string,
                    now: int, timeoutMinutes: int): map<ChatId, Session>
  {
    if Live(sessions, chatId, now, timeoutMinutes) then
      sessions[chatId := Appended(sessions[chatId], role, content, now)]
    else Probed(sessions, chatId, now, timeoutMinutes)
  }

  /** One rendered line of a transcript. */
  function Line(m: Message): string
  {
    (if m.role == "agent" then "Me (Agent)" else "User") + ": " + m.content + "\n"
  }

  /** The rendered transcript, in buffer order. */
  function Transcript(buffer: seq<Message>): string
  {
    if buffer == [] then "" else Transcript(buffer[..|buffer| - 1]) + Line(buffer[|buffer| - 1])
  }

  class AutoSessionManager {
    var sessions: map<ChatId, Session>
    const timeoutMinutes: int
    const maxTurns: int

    ghost predicate Valid()
      reads this
    {
      forall id :: id in sessions ==> TurnsAccounted(sessions[id])
    }

    constructor (timeoutMinutes: int := DefaultTimeoutMinutes, maxTurns: int := DefaultMaxTurns)
      ensures Valid()
      ensures sessions == map[]
      ensures this.timeoutMinutes == timeoutMinutes && this.maxTurns == maxTurns
    {
      sessions := map[];
      this.timeoutMinutes := timeoutMinutes;
      this.maxTurns := maxTurns;
    }

    /** `start_session`: (re)creates the entry with no turns and the seeded transcript. */
    method StartSession(chatId: ChatId, initialUserMsg: Option<string>, initialReply: Option<string>, now: int)
      requires Valid()
      modifies this
      ensures Valid()
      ensures sessions == old(sessions)[chatId := Session(now, now, Seed(initialUserMsg, initialReply), 0)]
    {
      var buffer: seq<Message> := [];
      if Given(initialUserMsg) {
        buffer := buffer + [Message("user", initialUserMsg.value)];
      }
      if Given(initialReply) {
        buffer := buffer + [Message("agent", initialReply.value)];
      }
      assert buffer == Seed(initialUserMsg, initialReply);
      sessions := sessions[chatId := Session(now, now, buffer, 0)];
      SeedAccounted(initialUserMsg, initialReply);
    }

    /** `is_active`: false for an absent chat; a chat silent for strictly longer
        than the timeout is evicted and reported inactive; reaching the turn
        limit leaves the session open. */
    method IsActive(chatId: ChatId, now: int) returns (active: bool)
      requires Valid()
      modifies this
      ensures Valid()
      ensures active == Live(old(sessions), chatId, now, timeoutMinutes)
      ensures sessions == Probed(old(sessions), chatId, now, timeoutMinutes)
    {
      if chatId !in sessions {
        return false;
      }
      var session := sessions[chatId];
      if now - session.lastMsgTime > timeoutMinutes * MicrosPerMinute {
        CloseSession(chatId);
        return false;
      }
      if session.turns >= maxTurns {
        // the caller decides whether to summarise and close
        return true;
      }
      return true;
    }

    /** `add_message`: appends to an active session, refreshes its clock and
        counts a turn for an agent message; otherwise only the probe's
        eviction happens. */
    method AddMessage(chatId: ChatId, role: string, content: string, now: int)
      requires Valid()
      modifies this
      ensures Valid()
      ensures sessions == AfterAdd(old(sessions), chatId, role, content, now, timeoutMinutes)
    {
      var active := IsActive(chatId, now);
      if !active {
        return;
      }
      var s := sessions[chatId];
      sessions := sessions[chatId := s.(buffer := s.buffer + [Message(role, content)])];
      s := sessions[chatId];
      sessions := sessions[chatId := s.(lastMsgTime := now)];
      if role == "agent" {
        s := sessions[chatId];
        sessions := sessions[chatId := s.(turns := s.turns + 1)];
      }
      AppendedAccounted(old(sessions)[chatId], role, content, now);
    }

    /** `get_history`: the rendered transcript, or "" for an absent chat. */
    method GetHistory(chatId: ChatId) returns (text: string)
      ensures chatId !in sessions ==> text == ""
      ensures chatId in sessions ==> text == Transcript(sessions[chatId].buffer)
    {
      if chatId !in sessions {
        return "";
      }
      var buffer := sessions[chatId].buffer;
      text := "";
      for i := 0 to |buffer|
        invariant text == Transcript(buffer[..i])
      {
        var role := if buffer[i].role == "agent" then "Me (Agent)" else "User";
        text := text + role + ": " + buffer[i].content + "\n";
        assert buffer[..i + 1][..i] == buffer[..i];
      }
      assert buffer[..|buffer|] == buffer;
    }

    /** `close_session`: removes the chat, if present, and nothing else. */
    method CloseSession(chatId: ChatId)
      requires Valid()
      modifies this
      ensures Valid()
      ensures sessions == old(sessions) - {chatId}
    {
      if chatId in sessions {
        sessions := sessions - {chatId};
      }
    }

    /** `get_buffer`: the transcript entries, or none for an absent chat. */
    method GetBuffer(chatId: ChatId) returns (buffer: seq<Message>)
      ensures chatId !in sessions ==> buffer == []
      ensures chatId in sessions ==> buffer == sessions[chatId].buffer
    {
      if chatId in sessions {
        return sessions[chatId].buffer;
      }
      return [];
    }
  }

  // ---------------------------------------------------------------------------
  // Properties
  // ---------------------------------------------------------------------------

  lemma SeedAccounted(initialUserMsg: Option<string>, initialReply: Option<string>)
    ensures AgentCount(Seed(initialUserMsg, initialReply)) == (if Given(initialReply) then 1 else 0)
  {
    var seed := Seed(initialUserMsg, initialReply);
    if Given(initialUserMsg) && Given(initialReply) {
      assert seed == [Message("user", initialUserMsg.value), Message("agent", initialReply.value)];
      assert seed[..1] == [Message("user", initialUserMsg.value)];
      assert seed[..1][..0] == [];
      assert AgentCount(seed[..1]) == 0;
      assert AgentCount(seed) == AgentCount(seed[..1]) + 1;
    } else if Given(initialUserMsg) || Given(initialReply) {
      assert |seed| == 1 && seed[..0] == [];
    }
  }

  lemma AppendedAccounted(s: Session, role: string, content: string, now: int)
    requires TurnsAccounted(s)
    ensures TurnsAccounted(Appended(s, role, content, now))
  {
    assert Appended(s, role, content, now).buffer[..|s.buffer|] == s.buffer;
  }

  /** The seeded transcript is the user message, then the reply, each only if given. */
  lemma SeedShape(initialUserMsg: Option<string>, initialReply: Option<string>)
    ensures |Seed(initialUserMsg, initialReply)| == (if Given(initialUserMsg) then 1 else 0) + (if Given(initialReply) then 1 else 0)
    ensures Given(initialUserMsg) ==> Seed(initialUserMsg, initialReply)[0] == Message("user", initialUserMsg.value)
    ensures Given(initialReply) ==> Seed(initialUserMsg, initialReply)[|Seed(initialUserMsg, initialReply)| - 1] == Message("agent", initialReply.value)
  {
  }

  /** Exactly at the timeout the session is still live; one microsecond later
      the probe reports it gone and evicts it. */
  lemma {:induction false} TimeoutBoundary(sessions: map<ChatId, Session>, chatId: ChatId, timeoutMinutes: int)
    requires chatId in sessions
    ensures var t := sessions[chatId].lastMsgTime + timeoutMinutes * MicrosPerMinute;
            Live(sessions, chatId, t, timeoutMinutes) && Probed(sessions, chatId, t, timeoutMinutes) == sessions
    ensures var t := sessions[chatId].lastMsgTime + timeoutMinutes * MicrosPerMinute + 1;
            !Live(sessions, chatId, t, timeoutMinutes) && Probed(sessions, chatId, t, timeoutMinutes) == sessions - {chatId}
  {
  }

  /** A probe never reports a session live past its timeout, never touches
      other chats, and leaves an absent chat's table unchanged. */
  lemma ProbeFacts(sessions: map<ChatId, Session>, chatId: ChatId, now: int, timeoutMinutes: int)
    ensures Live(sessions, chatId, now, timeoutMinutes) ==> now <= sessions[chatId].lastMsgTime + timeoutMinutes * MicrosPerMinute
    ensures chatId !in sessions ==> !Live(sessions, chatId, now, timeoutMinutes) && Probed(sessions, chatId, now, timeoutMinutes) == sessions
    ensures forall other :: other != chatId ==>
              (other in Probed(sessions, chatId, now, timeoutMinutes) <==> other in sessions)
    ensures Live(sessions, chatId, now, timeoutMinutes) <==> chatId in Probed(sessions, chatId, now, timeoutMinutes)
  {
  }

  /** Reaching the turn limit does not close a session that has not timed out. */
  lemma MaxTurnsKeepsSession(sessions: map<ChatId, Session>, chatId: ChatId, now: int, timeoutMinutes: int, maxTurns: int)
    requires chatId in sessions && sessions[chatId].turns >= maxTurns
    requires !TimedOut(sessions[chatId], now, timeoutMinutes)
    ensures Live(sessions, chatId, now, timeoutMinutes)
    ensures Probed(sessions, chatId, now, timeoutMinutes) == sessions
  {
  }

  /** A second probe at the same instant changes nothing and answers the same. */
  lemma ProbeIdempotent(sessions: map<ChatId, Session>, chatId: ChatId, now: int, timeoutMinutes: int)
    ensures var p := Probed(sessions, chatId, now, timeoutMinutes);
            Probed(p, chatId, now, timeoutMinutes) == p && Live(p, chatId, now, timeoutMinutes) == Live(sessions, chatId, now, timeoutMinutes)
  {
  }

  /** `add_message` on a live chat appends exactly one entry, refreshes its
      clock, counts a turn iff the role is "agent", and leaves other chats alone. */
  lemma AddOnLiveChat(sessions: map<ChatId, Session>, chatId: ChatId, role: string, content: string, now: int, timeoutMinutes: int)
    requires Live(sessions, chatId, now, timeoutMinutes)
    ensures var after := AfterAdd(sessions, chatId, role, content, now, timeoutMinutes);
            after.Keys == sessions.Keys
            && after[chatId].buffer == sessions[chatId].buffer + [Message(role, content)]
            && after[chatId].lastMsgTime == now
            && after[chatId].startTime == sessions[chatId].startTime
            && (after[chatId].turns == sessions[chatId].turns + 1 <==> role == "agent")
            && (role != "agent" ==> after[chatId].turns == sessions[chatId].turns)
            && forall other :: other in sessions && other != chatId ==> after[other] == sessions[other]
  {
  }

  /** `add_message` on a chat that is not live adds nothing anywhere. */
  lemma AddOnDeadChat(sessions: map<ChatId, Session>, chatId: ChatId, role: string, content: string, now: int, timeoutMinutes: int)
    requires !Live(sessions, chatId, now, timeoutMinutes)
    ensures AfterAdd(sessions, chatId, role, content, now, timeoutMinutes) == Probed(sessions, chatId, now, timeoutMinutes)
    ensures AfterAdd(sessions, chatId, role, content, now, timeoutMinutes) == sessions - {chatId}
  {
  }

  /** Rendering distributes over concatenation of transcripts. */
  lemma {:induction false} TranscriptConcat(a: seq<Message>, b: seq<Message>)
    ensures Transcript(a + b) == Transcript(a) + Transcript(b)
    decreases |b|
  {
    if b == [] {
      assert a + b == a;
    } else {
      var b' := b[..|b| - 1];
      var ab := a + b;
      assert ab[..|ab| - 1] == a + b';
      assert ab[|ab| - 1] == b[|b| - 1];
      assert Transcript(ab) == Transcript(a + b') + Line(b[|b| - 1]);
      TranscriptConcat(a, b');
      assert Transcript(b) == Transcript(b') + Line(b[|b| - 1]);
    }
  }

  /** Message k of the buffer is rendered right after the first k messages. */
  lemma TranscriptOrder(buffer: seq<Message>, k: nat)
    requires k < |buffer|
    ensures var pre := |Transcript(buffer[..k])|;
            pre + |Line(buffer[k])| <= |Transcript(buffer)|
            && Transcript(buffer)[pre..pre + |Line(buffer[k])|] == Line(buffer[k])
  {
    assert buffer == buffer[..k] + [buffer[k]] + buffer[k + 1..];
    TranscriptConcat(buffer[..k] + [buffer[k]], buffer[k + 1..]);
    TranscriptConcat(buffer[..k], [buffer[k]]);
    assert [buffer[k]][..0] == [];
  }

  /** After `add_message` on a live chat the history grows by exactly the new line. */
  lemma HistoryAfterAdd(sessions: map<ChatId, Session>, chatId: ChatId, role: string, content: string, now: int, timeoutMinutes: int)
    requires Live(sessions, chatId, now, timeoutMinutes)
    ensures var after := AfterAdd(sessions, chatId, role, content, now, timeoutMinutes);
            chatId in after
            && Transcript(after[chatId].buffer) == Transcript(sessions[chatId].buffer) + Line(Message(role, content))
  {
    var b := sessions[chatId].buffer + [Message(role, content)];
    assert b[..|b| - 1] == sessions[chatId].buffer;
  }

  /** Closing is idempotent and touches only the given chat. */
  lemma CloseIdempotent(sessions: map<ChatId, Session>, chatId: ChatId)
    ensures (sessions - {chatId}) - {chatId} == sessions - {chatId}
    ensures forall other :: other in sessions && other != chatId ==> other in sessions - {chatId} && (sessions - {chatId})[other] == sessions[other]
  {
  }
}
