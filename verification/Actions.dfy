/** The display, its operations one display-lock section at a time, and what they write through to `chat.db`. */
module Actions {
  import opened Wrappers
  import opened Persistence

  datatype CoreError = NotInit | NotFound | HistoryOnly | Store

  /** What consumers are told. `own` marks a conversation this installation opened. */
  datatype Event =
    | ConversationCreated(chatId: string, own: bool, peerLabel: string, kind: ConversationKind, name: string, description: string)
    | ConversationUpdated(chatId: string)
    | ConversationDeleted(chatId: string)
    | MessageSent(chatId: string, content: string, timestampMs: i64)
    | MessageReceived(chatId: string, content: string, timestampMs: i64, account: string)
    | MembersChanged(chatId: string)

  /** An event raised by what peers did, not by a local call. */
  predicate Inbound(event: Event) {
    event.MessageReceived? || event.MembersChanged? || (event.ConversationCreated? && !event.own)
  }

  /** The display with the database behind it. `open` is whether the display has
      its connection: from the moment init seeds it until shutdown resets it. */
  datatype Snapshot = Snapshot(state: AppState, open: bool, db: Db, emitted: seq<Event>)

  const PREVIEW_MAX_CHARS: nat := 160

  datatype Conversation = Conversation(
    convoId: string,
    nickname: Option<string>,
    messageCount: nat,
    lastActivityMs: i64,
    kind: ConversationKind,
    name: Option<string>,
    description: Option<string>,
    preview: Option<string>,
    historyOnly: bool)

  function NonEmpty(s: string): Option<string> {
    if s == "" then None else Some(s)
  }

  function OrEmpty(s: Option<string>): string {
    if s.Some? then s.value else ""
  }

  function ShortLabel(chatId: string): string {
    if |chatId| <= 8 then chatId else chatId[..8]
  }

  function NewDirect(chatId: string, peer: string): ChatSession {
    ChatSession(chatId, None, Direct, None, None, Some(peer), [], 0, false)
  }

  function NewGroup(chatId: string, name: string, description: string): ChatSession {
    ChatSession(chatId, None, Group, NonEmpty(name), NonEmpty(description), None, [], 0, false)
  }

  function Joined(chatId: string, kind: ConversationKind, name: Option<string>, description: Option<string>): ChatSession {
    ChatSession(chatId, None, kind, name, description, None, [], 0, false)
  }

  function SentMessage(chatId: string, content: string, now: u64): Message {
    Message(chatId, chatId, Sent, None, None, AsI64(now), content)
  }

  function InboundMessage(chatId: string, content: string, account: string, installation: string, now: u64): Message {
    Message(chatId, chatId, Received, Some(account), Some(installation), AsI64(now), content)
  }

  // ── The operations on values ───────────────────────────────────────────────

  function Put(s: Snapshot, session: ChatSession): Snapshot {
    s.(state := s.state.(chats := s.state.chats[session.chatId := session]))
  }

  function Emit(s: Snapshot, event: Event): Snapshot {
    s.(emitted := s.emitted + [event])
  }

  /** Write the chat's row, when there is a connection and it accepts the write. */
  function Persisted(s: Snapshot, session: ChatSession, ok: bool): Snapshot {
    if s.open && ok then s.(db := SavedChat(s.db, session)) else s
  }

  function AfterCreate(s: Snapshot, session: ChatSession, ok: bool): Snapshot {
    var s' := Persisted(Put(s, session), session, ok);
    if s.open && ok
    then Emit(s', ConversationCreated(session.chatId, true, ShortLabel(session.chatId), session.kind,
                                      OrEmpty(session.name), OrEmpty(session.description)))
    else s'
  }

  function AfterRecord(s: Snapshot, message: Message, chatChanged: bool, ok: bool): Snapshot {
    var id := message.chatId;
    if id !in s.state.chats || !s.open then s else
    var session := s.state.chats[id];
    var db := if ok then Recorded(s.db, if chatChanged then Some(session) else None, message) else s.db;
    Put(s, session.(chatId := id, messages := session.messages + [Shown(message)])).(db := db)
  }

  /** `record_message` answers with success for a chat that is gone. */
  function RecordOutcome(s: Snapshot, id: string, ok: bool): Result<(), CoreError> {
    if id !in s.state.chats then Ok(()) else if !s.open then Err(NotInit) else if ok then Ok(()) else Err(Store)
  }

  function AfterSend(s: Snapshot, message: Message, ok: bool): Snapshot {
    var s' := AfterRecord(s, message, false, ok);
    if RecordOutcome(s, message.chatId, ok).Ok?
    then Emit(s', Event.MessageSent(message.chatId, message.content, message.timestampMs))
    else s'
  }

  function AfterNickname(s: Snapshot, id: string, nickname: string, ok: bool): Snapshot {
    if id !in s.state.chats then s else
    var session := s.state.chats[id].(chatId := id, nickname := NonEmpty(nickname));
    var s' := Persisted(Put(s, session), session, ok);
    if s.open && ok then Emit(s', ConversationUpdated(id)) else s'
  }

  function AfterDelete(s: Snapshot, id: string, ok: bool): Snapshot {
    if id !in s.state.chats || !s.open || !ok then s else
    Emit(Snapshot(AppState(s.state.chats - {id}, s.state.installationName, s.state.deleted + {id}),
                  true, DeletedChat(s.db, id), s.emitted),
         ConversationDeleted(id))
  }

  function AfterRename(s: Snapshot, name: string, ok: bool): Snapshot {
    if !s.open || !ok then s else
    s.(state := s.state.(installationName := NonEmpty(name)), db := s.db.(installationName := NonEmpty(name)))
  }

  function AfterStarted(s: Snapshot, session: ChatSession, ok: bool): Snapshot {
    var id := session.chatId;
    if id in s.state.deleted then s
    else if id in s.state.chats then
      var known := s.state.chats[id];
      if known.historyOnly then Emit(Put(s, known.(chatId := id, historyOnly := false)), ConversationUpdated(id)) else s
    else
      Persisted(Emit(Put(s, session),
                     ConversationCreated(id, false, ShortLabel(id), session.kind,
                                         OrEmpty(session.name), OrEmpty(session.description))),
                session, ok)
  }

  /** The session a received message lands in: a direct one is made up for an id not
      shown, and a direct one without a peer takes the sender. */
  function Receiving(s: Snapshot, id: string, account: string): ChatSession {
    var session := if id in s.state.chats then s.state.chats[id].(chatId := id) else Joined(id, Direct, None, None);
    if session.kind == Direct && session.peer.None? then session.(peer := Some(account)) else session
  }

  function AfterMessage(s: Snapshot, message: Message, account: string, ok: bool): Snapshot {
    var id := message.chatId;
    if id in s.state.deleted then s else
    var session := Receiving(s, id, account);
    var chatChanged := id !in s.state.chats || session != s.state.chats[id];
    Emit(AfterRecord(Put(s, session), message, chatChanged, ok),
         Event.MessageReceived(id, message.content, message.timestampMs, account))
  }

  function AfterMembersChanged(s: Snapshot, id: string): Snapshot {
    if id in s.state.deleted || id !in s.state.chats then s else Emit(s, MembersChanged(id))
  }

  function AfterSeed(s: Snapshot, loaded: AppState): Snapshot {
    s.(state := loaded, open := true)
  }

  function AfterReset(s: Snapshot): Snapshot {
    s.(state := EMPTY_STATE, open := false)
  }

  // ── The read methods ───────────────────────────────────────────────────────

  function ConversationOf(session: ChatSession): Conversation {
    var last := if session.messages == [] then None else Some(session.messages[|session.messages| - 1]);
    Conversation(
      session.chatId,
      session.nickname,
      session.olderMessages + |session.messages|,
      if last.Some? then AsI64(last.value.timestampMs) else 0,
      session.kind,
      session.name,
      session.description,
      if last.Some? then Some(Preview(last.value.content)) else None,
      session.historyOnly)
  }

  function Preview(content: string): string {
    if |content| <= PREVIEW_MAX_CHARS then content else content[..PREVIEW_MAX_CHARS]
  }

  function ListConversations(state: AppState): map<string, Conversation> {
    map id | id in state.chats :: ConversationOf(state.chats[id])
  }

  function GetMessages(state: AppState, id: string): seq<DisplayMessage> {
    if id in state.chats then state.chats[id].messages else []
  }

  // ── What the operations promise, in plain terms ────────────────────────────

  /** The empty string stands for no value. */
  ghost predicate Unset(value: Option<string>, given: string) {
    if given == "" then value == None else value == Some(given)
  }

  /** A chat's row holds its five fields. */
  ghost predicate RowHolds(row: Row, kind: ConversationKind, nickname: Option<string>, name: Option<string>,
                           description: Option<string>, peer: Option<string>) {
    row.kind == kind && row.nickname == nickname && row.name == name && row.description == description && row.peer == peer
  }

  /** The first eight characters of an id, or all of it. */
  ghost predicate Shortens(short: string, id: string) {
    short <= id && |short| == if |id| < 8 then |id| else 8
  }

  /** The announcement of an opened conversation. */
  ghost predicate Announces(event: Event, id: string, own: bool, kind: ConversationKind, name: Option<string>,
                            description: Option<string>) {
    && event.ConversationCreated? && event.chatId == id && event.own == own && event.kind == kind
    && Shortens(event.peerLabel, id)
    && event.name == (match name case None => "" case Some(n) => n)
    && event.description == (match description case None => "" case Some(d) => d)
  }

  /** Who a chat is with once `account` has written in it. */
  ghost predicate PeerAfter(peer: Option<string>, kind: ConversationKind, before: Option<string>, account: string) {
    peer == if kind == Direct && before == None then Some(account) else before
  }

  /** The process's display. `chatDb` is the file; `connected` is whether the
      display holds a connection to it. */
  class Display {
    const chatDb: ChatDb
    var chats: map<string, ChatSession>
    var installationName: Option<string>
    var deleted: set<string>
    var connected: bool
    var emitted: seq<Event>

    function State(): AppState
      reads this
    {
      AppState(chats, installationName, deleted)
    }

    function View(): Snapshot
      reads this, chatDb
    {
      Snapshot(State(), connected, chatDb.Contents(), emitted)
    }

    /** Every session carries the id it is filed under. */
    ghost predicate Valid()
      reads this
    {
      forall id :: id in chats ==> chats[id].chatId == id
    }

    constructor (file: ChatDb)
      ensures Valid() && chatDb == file
      ensures View() == Snapshot(EMPTY_STATE, false, file.Contents(), [])
    {
      chatDb := file;
      chats, installationName, deleted := map[], None, {};
      connected, emitted := false, [];
    }

    static method MarkHistory(loaded: map<string, ChatSession>, live: set<string>) returns (sessions: map<string, ChatSession>)
      ensures sessions == map id | id in loaded :: Marked(loaded[id], live)
    {
      sessions := loaded;
      var pending := loaded.Keys;
      while pending != {}
        invariant pending <= loaded.Keys == sessions.Keys
        invariant forall id :: id in pending ==> sessions[id] == loaded[id]
        invariant forall id :: id in loaded && id !in pending ==> sessions[id] == Marked(loaded[id], live)
        decreases |pending|
      {
        var id :| id in pending;
        sessions := sessions[id := Marked(sessions[id], live)];
        pending := pending - {id};
      }
    }

    /** What `initialize` reads back before any worker runs, each chat live exactly
        when the new client holds it. */
    method Load(live: set<string>) returns (state: AppState)
      ensures state == Seeded(chatDb.Contents(), live)
    {
      state := chatDb.LoadState();
      var sessions := MarkHistory(state.chats, live);
      state := state.(chats := sessions);
    }

    /** The section that shows what was loaded, whatever the display held. */
    method Seed(loaded: AppState)
      requires forall id :: id in loaded.chats ==> loaded.chats[id].chatId == id
      modifies this
      ensures Valid()
      ensures View() == AfterSeed(old(View()), loaded)
    {
      chats, installationName, deleted := loaded.chats, loaded.installationName, loaded.deleted;
      connected := true;
    }

    method Reset()
      modifies this
      ensures Valid()
      ensures View() == AfterReset(old(View()))
    {
      chats, installationName, deleted := map[], None, {};
      connected := false;
    }

    method PersistChat(id: string, ok: bool) returns (r: Result<(), CoreError>)
      requires Valid()
      modifies chatDb
      ensures r == if !connected then Err(NotInit) else if id !in chats then Err(NotFound)
                   else if ok then Ok(()) else Err(Store)
      ensures View() == if id in chats then Persisted(old(View()), chats[id], ok) else old(View())
    {
      if !connected {
        return Err(NotInit);
      }
      if id !in chats {
        return Err(NotFound);
      }
      var written := chatDb.SaveChat(chats[id], ok);
      r := if written then Ok(()) else Err(Store);
    }

    /** The recording half of `create_conversation` and `create_group_conversation`. */
    method Create(session: ChatSession, ok: bool) returns (r: Result<string, CoreError>)
      requires Valid()
      modifies this, chatDb
      ensures Valid()
      ensures r == if !old(connected) then Err(NotInit) else if ok then Ok(session.chatId) else Err(Store)
      ensures View() == AfterCreate(old(View()), session, ok)
    {
      chats := chats[session.chatId := session];
      var persisted := PersistChat(session.chatId, ok);
      if persisted.Err? {
        return Err(persisted.error);
      }
      emitted := emitted + [ConversationCreated(session.chatId, true, ShortLabel(session.chatId), session.kind,
                                                OrEmpty(session.name), OrEmpty(session.description))];
      return Ok(session.chatId);
    }

    /** What `create_conversation` records for the id the client returned. */
    method CreateConversation(id: string, peer: string, ok: bool) returns (r: Result<string, CoreError>)
      requires Valid()
      modifies this, chatDb
      ensures Valid()
      ensures r == if !old(connected) then Err(NotInit) else if ok then Ok(id) else Err(Store)
      ensures View() == AfterCreate(old(View()), NewDirect(id, peer), ok)
      ensures id in chats && chats[id] == ChatSession(id, None, Direct, None, None, Some(peer), [], 0, false)
      ensures r.Ok? ==> |emitted| > 0 && Announces(emitted[|emitted| - 1], id, true, Direct, None, None)
    {
      r := Create(NewDirect(id, peer), ok);
    }

    method CreateGroupConversation(id: string, name: string, description: string, ok: bool)
      returns (r: Result<string, CoreError>)
      requires Valid()
      modifies this, chatDb
      ensures Valid()
      ensures r == if !old(connected) then Err(NotInit) else if ok then Ok(id) else Err(Store)
      ensures View() == AfterCreate(old(View()), NewGroup(id, name, description), ok)
      ensures r.Ok? ==> emitted == old(emitted) + [ConversationCreated(id, true, ShortLabel(id), Group, name, description)]
    {
      r := Create(NewGroup(id, name, description), ok);
    }

    method CheckLive(id: string) returns (r: Result<(), CoreError>)
      ensures r.Ok? <==> id in chats && !chats[id].historyOnly
      ensures r == Err(NotFound) <==> id !in chats
      ensures r == Err(HistoryOnly) <==> id in chats && chats[id].historyOnly
    {
      if id !in chats {
        return Err(NotFound);
      }
      r := if chats[id].historyOnly then Err(HistoryOnly) else Ok(());
    }

    /** The list takes the message even when the write fails. */
    method RecordMessage(message: Message, chatChanged: bool, ok: bool) returns (r: Result<(), CoreError>)
      requires Valid()
      modifies this, chatDb
      ensures Valid()
      ensures emitted == old(emitted)
      ensures r == RecordOutcome(old(View()), message.chatId, ok)
      ensures View() == AfterRecord(old(View()), message, chatChanged, ok)
    {
      if message.chatId !in chats {
        return Ok(());
      }
      var session := chats[message.chatId];
      if !connected {
        return Err(NotInit);
      }
      var written := chatDb.RecordMessage(if chatChanged then Some(session) else None, message, ok);
      chats := chats[message.chatId := session.(messages := session.messages + [Shown(message)])];
      r := if written then Ok(()) else Err(Store);
    }

    /** The last of `send_message`'s three sections: the message is on the wire. */
    method RecordSent(id: string, content: string, now: u64, ok: bool) returns (r: Result<(), CoreError>)
      requires Valid()
      modifies this, chatDb
      ensures Valid()
      ensures r == RecordOutcome(old(View()), id, ok)
      ensures View() == AfterSend(old(View()), SentMessage(id, content, now), ok)
    {
      var message := SentMessage(id, content, now);
      r := RecordMessage(message, false, ok);
      if r.Ok? {
        emitted := emitted + [Event.MessageSent(id, content, AsI64(now))];
      }
    }

    method SetNickname(id: string, nickname: string, ok: bool) returns (r: Result<(), CoreError>)
      requires Valid()
      modifies this, chatDb
      ensures Valid()
      ensures r == if id !in old(chats) then Err(NotFound) else if !old(connected) then Err(NotInit)
                   else if ok then Ok(()) else Err(Store)
      ensures View() == AfterNickname(old(View()), id, nickname, ok)
      ensures id in old(chats) ==>
                && id in chats && Unset(chats[id].nickname, nickname)
                && chats == old(chats)[id := old(chats)[id].(nickname := chats[id].nickname)]
      ensures r.Ok? ==> id in chatDb.rows && Unset(chatDb.rows[id].nickname, nickname)
    {
      if id !in chats {
        return Err(NotFound);
      }
      chats := chats[id := chats[id].(nickname := NonEmpty(nickname))];
      r := PersistChat(id, ok);
      if r.Ok? {
        emitted := emitted + [ConversationUpdated(id)];
      }
    }

    /** The rows go before the memory: a refused write leaves the chat in place. */
    method DeleteConversation(id: string, ok: bool) returns (r: Result<(), CoreError>)
      requires Valid()
      modifies this, chatDb
      ensures Valid()
      ensures r == if id !in old(chats) then Err(NotFound) else if !old(connected) then Err(NotInit)
                   else if ok then Ok(()) else Err(Store)
      ensures View() == AfterDelete(old(View()), id, ok)
    {
      if id !in chats {
        return Err(NotFound);
      }
      if !connected {
        return Err(NotInit);
      }
      var written := chatDb.DeleteChat(id, ok);
      if !written {
        return Err(Store);
      }
      chats := chats - {id};
      deleted := deleted + {id};
      emitted := emitted + [ConversationDeleted(id)];
      return Ok(());
    }

    method SetInstallationName(name: string, ok: bool) returns (r: Result<(), CoreError>)
      requires Valid()
      modifies this, chatDb
      ensures Valid()
      ensures r == if !old(connected) then Err(NotInit) else if ok then Ok(()) else Err(Store)
      ensures View() == AfterRename(old(View()), name, ok)
      ensures r.Ok? ==> Unset(installationName, name) && Unset(chatDb.installationName, name)
    {
      if !connected {
        return Err(NotInit);
      }
      var written := chatDb.SaveInstallationName(NonEmpty(name), ok);
      if !written {
        return Err(Store);
      }
      installationName := NonEmpty(name);
      return Ok(());
    }

    /** The display section of a `ConversationStarted` event. */
    method RecordConversationStarted(id: string, kind: ConversationKind, name: Option<string>,
                                     description: Option<string>, ok: bool)
      requires Valid()
      modifies this, chatDb
      ensures Valid()
      ensures View() == AfterStarted(old(View()), Joined(id, kind, name, description), ok)
      ensures id !in old(deleted) && id !in old(chats) ==>
                && chats == old(chats)[id := ChatSession(id, None, kind, name, description, None, [], 0, false)]
                && |emitted| == |old(emitted)| + 1 && old(emitted) <= emitted
                && Announces(emitted[|old(emitted)|], id, false, kind, name, description)
                && (connected && ok ==> id in chatDb.rows && RowHolds(chatDb.rows[id], kind, None, name, description, None))
    {
      if id in deleted {
        return;
      }
      if id in chats {
        var session := chats[id];
        if session.historyOnly {
          chats := chats[id := session.(historyOnly := false)];
          emitted := emitted + [ConversationUpdated(id)];
        }
        return;
      }
      chats := chats[id := Joined(id, kind, name, description)];
      emitted := emitted + [ConversationCreated(id, false, ShortLabel(id), kind, OrEmpty(name), OrEmpty(description))];
      var _ := PersistChat(id, ok);
    }

    /** A `MessageReceived` event: nobody to answer to, so a failed write is dropped. */
    method RecordMessageReceived(id: string, content: string, account: string, installation: string, now: u64, ok: bool)
      requires Valid()
      modifies this, chatDb
      ensures Valid()
      ensures View() == AfterMessage(old(View()), InboundMessage(id, content, account, installation, now), account, ok)
      ensures id !in old(deleted) ==>
                var before := if id in old(chats) then old(chats)[id]
                              else ChatSession(id, None, Direct, None, None, None, [], 0, false);
                && id in chats && PeerAfter(chats[id].peer, before.kind, before.peer, account)
                && chats[id] == before.(peer := chats[id].peer, messages := chats[id].messages)
                && (connected && ok && (id !in old(chats) || (before.kind == Direct && before.peer == None)) ==>
                      && id in chatDb.rows
                      && RowHolds(chatDb.rows[id], before.kind, before.nickname, before.name, before.description, chats[id].peer))
    {
      if id in deleted {
        return;
      }
      var chatChanged := id !in chats;
      var session := if chatChanged then Joined(id, Direct, None, None) else chats[id];
      if session.kind == Direct && session.peer.None? {
        session := session.(peer := Some(account));
        chatChanged := true;
      }
      chats := chats[id := session];
      assert View() == Put(old(View()), Receiving(old(View()), id, account));
      var _ := RecordMessage(InboundMessage(id, content, account, installation, now), chatChanged, ok);
      emitted := emitted + [Event.MessageReceived(id, content, AsI64(now), account)];
    }

    method RecordMembersChanged(id: string)
      requires Valid()
      modifies this
      ensures Valid()
      ensures View() == AfterMembersChanged(old(View()), id)
    {
      if id in deleted || id !in chats {
        return;
      }
      emitted := emitted + [MembersChanged(id)];
    }
  }
}
