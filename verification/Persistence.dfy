/** `chat.db`: the rows, tombstones, settings and message log behind the display. */
module Persistence {
  import opened Sequences
  import opened Wrappers

  /** The most messages init loads for one chat. */
  const LOADED_PER_CHAT: nat := 500

  const TWO_TO_THE_63: int := 0x8000_0000_0000_0000
  const TWO_TO_THE_64: int := 0x1_0000_0000_0000_0000

  newtype u64 = x: int | 0 <= x < 0x1_0000_0000_0000_0000
  newtype i64 = x: int | -0x8000_0000_0000_0000 <= x < 0x8000_0000_0000_0000

  /** The two's-complement reinterpretation of an unsigned timestamp. */
  function AsI64(u: u64): i64 {
    var n := u as int;
    if n < TWO_TO_THE_63 then n as i64 else (n - TWO_TO_THE_64) as i64
  }

  /** The way back, as the display reads a stored timestamp. */
  function AsU64(i: i64): u64 {
    var n := i as int;
    if n >= 0 then n as u64 else (n + TWO_TO_THE_64) as u64
  }

  datatype ConversationKind = Direct | Group

  datatype Direction = Sent | Received

  /** A message as the message store keeps it. */
  datatype Message = Message(
    chatId: string,
    convoId: string,
    direction: Direction,
    senderAccount: Option<string>,
    senderInstallation: Option<string>,
    timestampMs: i64,
    content: string)

  /** A message as `get_messages` shows it. */
  datatype DisplayMessage = DisplayMessage(fromSelf: bool, content: string, timestampMs: u64, sender: Option<string>)

  datatype ChatSession = ChatSession(
    chatId: string,
    nickname: Option<string>,
    kind: ConversationKind,
    name: Option<string>,
    description: Option<string>,
    peer: Option<string>,
    messages: seq<DisplayMessage>,
    olderMessages: nat,
    historyOnly: bool)

  datatype AppState = AppState(chats: map<string, ChatSession>, installationName: Option<string>, deleted: set<string>)

  /** A row of the `chats` table, keyed by its `chat_id`. */
  datatype Row = Row(
    kind: ConversationKind,
    nickname: Option<string>,
    name: Option<string>,
    description: Option<string>,
    peer: Option<string>)

  /** What `chat.db` holds. The message log keeps each chat's messages oldest first. */
  datatype Db = Db(rows: map<string, Row>, deleted: set<string>, installationName: Option<string>, log: map<string, seq<Message>>)
  {
    function Stored(chatId: string): seq<Message> {
      if chatId in log then log[chatId] else []
    }
  }

  const EMPTY_DB := Db(map[], {}, None, map[])
  const EMPTY_STATE := AppState(map[], None, {})

  function RowOf(session: ChatSession): Row {
    Row(session.kind, session.nickname, session.name, session.description, session.peer)
  }

  function Shown(message: Message): DisplayMessage {
    DisplayMessage(message.direction == Sent, message.content, AsU64(message.timestampMs), message.senderAccount)
  }

  function AllShown(messages: seq<Message>): (shown: seq<DisplayMessage>)
    ensures |shown| == |messages|
  {
    seq(|messages|, i requires 0 <= i < |messages| => Shown(messages[i]))
  }

  // ── Transactions on values ─────────────────────────────────────────────────

  function SavedChat(db: Db, session: ChatSession): Db {
    db.(rows := db.rows[session.chatId := RowOf(session)])
  }

  function Recorded(db: Db, session: Option<ChatSession>, message: Message): Db {
    var db' := if session.Some? then SavedChat(db, session.value) else db;
    db'.(log := db'.log[message.chatId := db'.Stored(message.chatId) + [message]])
  }

  function DeletedChat(db: Db, chatId: string): Db {
    Db(db.rows - {chatId}, db.deleted + {chatId}, db.installationName, db.log - {chatId})
  }

  function Loaded(db: Db, chatId: string): ChatSession
    requires chatId in db.rows
  {
    var row := db.rows[chatId];
    var messages := AllShown(Last(db.Stored(chatId), LOADED_PER_CHAT));
    ChatSession(chatId, row.nickname, row.kind, row.name, row.description, row.peer,
                messages, |db.Stored(chatId)| - |messages|, false)
  }

  function LoadedState(db: Db): AppState {
    AppState(map chatId | chatId in db.rows :: Loaded(db, chatId), db.installationName, db.deleted)
  }

  function Marked(session: ChatSession, live: set<string>): ChatSession {
    session.(historyOnly := session.chatId !in live)
  }

  /** The loaded state with each chat live exactly when the new client holds it. */
  function Seeded(db: Db, live: set<string>): AppState {
    AppState(map chatId | chatId in db.rows :: Marked(Loaded(db, chatId), live), db.installationName, db.deleted)
  }

  /** The connection. A write takes `ok`, whether the database accepts it; a
      refused transaction leaves every table as it was. */
  class ChatDb {
    var rows: map<string, Row>
    var deleted: set<string>
    var installationName: Option<string>
    var log: map<string, seq<Message>>

    function Contents(): Db
      reads this
    {
      Db(rows, deleted, installationName, log)
    }

    constructor ()
      ensures Contents() == EMPTY_DB
    {
      rows, deleted, installationName, log := map[], {}, None, map[];
    }

    method SaveChat(session: ChatSession, ok: bool) returns (written: bool)
      modifies this
      ensures written == ok
      ensures Contents() == if ok then SavedChat(old(Contents()), session) else old(Contents())
    {
      if ok {
        rows := rows[session.chatId := RowOf(session)];
      }
      return ok;
    }

    /** Stores the message and, if `session` is there, that row as well: both or neither. */
    method RecordMessage(session: Option<ChatSession>, message: Message, ok: bool) returns (written: bool)
      modifies this
      ensures written == ok
      ensures Contents() == if ok then Recorded(old(Contents()), session, message) else old(Contents())
    {
      if !ok {
        return false;
      }
      if session.Some? {
        written := SaveChat(session.value, true);
      }
      log := log[message.chatId := Contents().Stored(message.chatId) + [message]];
      return true;
    }

    method DeleteChat(chatId: string, ok: bool) returns (written: bool)
      modifies this
      ensures written == ok
      ensures Contents() == if ok then DeletedChat(old(Contents()), chatId) else old(Contents())
    {
      if ok {
        log := log - {chatId};
        rows := rows - {chatId};
        deleted := deleted + {chatId};
      }
      return ok;
    }

    method SaveInstallationName(name: Option<string>, ok: bool) returns (written: bool)
      modifies this
      ensures written == ok
      ensures Contents() == if ok then old(Contents()).(installationName := name) else old(Contents())
    {
      if ok {
        installationName := name;
      }
      return ok;
    }

    /** What init shows of the tables: chats cut to their most recent messages. */
    method LoadState() returns (state: AppState)
      ensures state == LoadedState(Contents())
    {
      var chats: map<string, ChatSession> := map[];
      var pending := rows.Keys;
      while pending != {}
        invariant pending <= rows.Keys
        invariant chats.Keys == rows.Keys - pending
        invariant forall chatId :: chatId in chats ==> chats[chatId] == Loaded(Contents(), chatId)
        decreases |pending|
      {
        var chatId :| chatId in pending;
        var row := rows[chatId];
        var stored := Contents().Stored(chatId);
        var messages := AllShown(Last(stored, LOADED_PER_CHAT));
        var session := ChatSession(chatId, row.nickname, row.kind, row.name, row.description, row.peer, messages, 0, false);
        session := session.(olderMessages := |stored| - |session.messages|);
        chats := chats[chatId := session];
        pending := pending - {chatId};
      }
      state := AppState(chats, installationName, deleted);
    }
  }

  /** A display timestamp survives the signed column it is stored in, which holds the
      same 64 bits. */
  lemma TimestampsSurviveTheStore(u: u64)
    ensures AsU64(AsI64(u)) == u
    ensures AsI64(u) as int == u as int || AsI64(u) as int == u as int - 0x1_0000_0000_0000_0000
  {
  }
}
