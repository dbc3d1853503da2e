/** What each operation on the display does, field by field, whether or not its write
    succeeds. */
module ActionLaws {
  import opened Wrappers
  import opened Persistence
  import opened Actions

  /** Nothing is different but this chat's session. */
  ghost predicate OnlyChat(s: Snapshot, s': Snapshot, id: string) {
    && s'.open == s.open
    && s'.state.deleted == s.state.deleted && s'.state.installationName == s.state.installationName
    && (forall other :: other != id ==>
          && (other in s'.state.chats <==> other in s.state.chats)
          && (other in s.state.chats && other in s'.state.chats ==> s'.state.chats[other] == s.state.chats[other]))
  }

  /** Nothing in the store is different but this chat's row. */
  ghost predicate OnlyRow(db: Db, db': Db, id: string) {
    && db'.deleted == db.deleted && db'.installationName == db.installationName && db'.log == db.log
    && (forall other :: other != id ==>
          && (other in db'.rows <==> other in db.rows)
          && (other in db.rows && other in db'.rows ==> db'.rows[other] == db.rows[other]))
  }

  lemma CreateShows(s: Snapshot, session: ChatSession, ok: bool)
    ensures var id, s' := session.chatId, AfterCreate(s, session, ok);
            && OnlyChat(s, s', id) && OnlyRow(s.db, s'.db, id)
            && id in s'.state.chats && s'.state.chats[id] == session
            && (if s.open && ok
                then
                  && id in s'.db.rows
                  && RowHolds(s'.db.rows[id], session.kind, session.nickname, session.name, session.description, session.peer)
                  && |s'.emitted| == |s.emitted| + 1 && s.emitted <= s'.emitted
                else s'.db == s.db && s'.emitted == s.emitted)
  {
  }

  lemma CreateAnnounces(s: Snapshot, session: ChatSession)
    requires s.open
    ensures var s' := AfterCreate(s, session, true);
            |s'.emitted| > |s.emitted|
            && Announces(s'.emitted[|s.emitted|], session.chatId, true, session.kind, session.name, session.description)
  {
  }

  lemma NewChatsAreAsAsked(id: string, peer: string, name: string, description: string)
    ensures var direct := NewDirect(id, peer);
            && direct.chatId == id && direct.kind == Direct && direct.peer == Some(peer)
            && direct.nickname == direct.name == direct.description == None
            && direct.messages == [] && direct.olderMessages == 0 && !direct.historyOnly
    ensures var group := NewGroup(id, name, description);
            && group.chatId == id && group.kind == Group && Unset(group.name, name) && Unset(group.description, description)
            && group.nickname == group.peer == None
            && group.messages == [] && group.olderMessages == 0 && !group.historyOnly
  {
  }

  /** The label is what was given, in memory and, once written, in the row. */
  lemma NicknameSets(s: Snapshot, id: string, nickname: string, ok: bool)
    requires id in s.state.chats && s.state.chats[id].chatId == id
    ensures var s' := AfterNickname(s, id, nickname, ok);
            && OnlyChat(s, s', id) && OnlyRow(s.db, s'.db, id)
            && id in s'.state.chats
            && var before, after := s.state.chats[id], s'.state.chats[id];
               && Unset(after.nickname, nickname) && after == before.(nickname := after.nickname)
               && (if s.open && ok
                   then
                     && id in s'.db.rows
                     && RowHolds(s'.db.rows[id], before.kind, after.nickname, before.name, before.description, before.peer)
                     && s'.emitted == s.emitted + [ConversationUpdated(id)]
                   else s'.db == s.db && s'.emitted == s.emitted)
  {
  }

  /** A chat that is not shown is not labelled. */
  lemma NobodyIsLabelled(s: Snapshot, id: string, nickname: string, ok: bool)
    requires id !in s.state.chats
    ensures AfterNickname(s, id, nickname, ok) == s
  {
  }

  lemma RenameSets(s: Snapshot, name: string, ok: bool)
    ensures var s' := AfterRename(s, name, ok);
            && s'.state.chats == s.state.chats && s'.state.deleted == s.state.deleted && s'.open == s.open
            && s'.db.rows == s.db.rows && s'.db.deleted == s.db.deleted && s'.db.log == s.db.log
            && s'.emitted == s.emitted
            && (if s.open && ok
                then Unset(s'.state.installationName, name) && Unset(s'.db.installationName, name)
                else s' == s)
  {
  }

  lemma DeleteBuries(s: Snapshot, id: string, ok: bool)
    ensures var s' := AfterDelete(s, id, ok);
            if id in s.state.chats && s.open && ok
            then
              && s'.state.deleted == s.state.deleted + {id} && s'.db.deleted == s.db.deleted + {id}
              && s'.state.chats == s.state.chats - {id} && s'.db.rows == s.db.rows - {id} && s'.db.log == s.db.log - {id}
              && s'.state.installationName == s.state.installationName && s'.db.installationName == s.db.installationName
              && s'.open && s'.emitted == s.emitted + [ConversationDeleted(id)]
            else s' == s
  {
  }

  /** A sent message and what is told of it. */
  lemma SendRecords(s: Snapshot, id: string, content: string, now: u64, ok: bool)
    requires id in s.state.chats ==> s.state.chats[id].chatId == id
    ensures var s' := AfterSend(s, SentMessage(id, content, now), ok);
            && OnlyChat(s, s', id) && s'.db.rows == s.db.rows && s'.db.deleted == s.db.deleted
            && s'.db.installationName == s.db.installationName
            && (id in s'.state.chats <==> id in s.state.chats)
            && (id in s.state.chats ==>
                  s'.state.chats[id] ==
                    (if s.open
                     then s.state.chats[id].(messages := s.state.chats[id].messages + [DisplayMessage(true, content, now, None)])
                     else s.state.chats[id]))
            && s'.emitted == (if id !in s.state.chats || (s.open && ok)
                              then s.emitted + [Event.MessageSent(id, content, AsI64(now))] else s.emitted)
            && s'.db.log == (if id in s.state.chats && s.open && ok
                             then s.db.log[id := s.db.Stored(id) + [Message(id, id, Sent, None, None, AsI64(now), content)]]
                             else s.db.log)
  {
    TimestampsSurviveTheStore(now);
  }

  /** An invite: nothing under a tombstone, life for a chat kept for its history,
      nothing for a live one, and otherwise a chat with what was given and no more. */
  lemma StartedShows(s: Snapshot, id: string, kind: ConversationKind, name: Option<string>, description: Option<string>,
                     ok: bool)
    requires id in s.state.chats ==> s.state.chats[id].chatId == id
    ensures var s' := AfterStarted(s, Joined(id, kind, name, description), ok);
            if id in s.state.deleted || (id in s.state.chats && !s.state.chats[id].historyOnly) then s' == s
            else if id in s.state.chats then
              && OnlyChat(s, s', id) && s'.db == s.db && id in s'.state.chats
              && s'.state.chats[id] == s.state.chats[id].(historyOnly := false)
              && s'.emitted == s.emitted + [ConversationUpdated(id)]
            else
              && OnlyChat(s, s', id) && OnlyRow(s.db, s'.db, id) && id in s'.state.chats
              && s'.state.chats[id] == ChatSession(id, None, kind, name, description, None, [], 0, false)
              && |s'.emitted| == |s.emitted| + 1 && s.emitted <= s'.emitted
              && Announces(s'.emitted[|s.emitted|], id, false, kind, name, description)
              && (if s.open && ok then id in s'.db.rows && RowHolds(s'.db.rows[id], kind, None, name, description, None)
                  else s'.db == s.db)
  {
  }

  /** A received message: nothing under a tombstone; otherwise its chat is shown, made
      up as a direct one if it was not, with its sender for peer if it had none; the
      list takes the message, and the row is written when the chat has changed. */
  lemma MessageShows(s: Snapshot, id: string, content: string, account: string, installation: string, now: u64, ok: bool)
    requires id in s.state.chats ==> s.state.chats[id].chatId == id
    ensures var s' := AfterMessage(s, InboundMessage(id, content, account, installation, now), account, ok);
            if id in s.state.deleted then s' == s
            else
              && OnlyChat(s, s', id) && id in s'.state.chats
              && var before := if id in s.state.chats then s.state.chats[id]
                               else ChatSession(id, None, Direct, None, None, None, [], 0, false);
                 var after := s'.state.chats[id];
                 && PeerAfter(after.peer, before.kind, before.peer, account)
                 && after == before.(peer := after.peer,
                                     messages := before.messages
                                                 + if s.open then [DisplayMessage(false, content, now, Some(account))] else [])
                 && s'.emitted == s.emitted + [Event.MessageReceived(id, content, AsI64(now), account)]
                 && (if s.open && ok then
                       && s'.db.deleted == s.db.deleted && s'.db.installationName == s.db.installationName
                       && s'.db.log == s.db.log[id := s.db.Stored(id) +
                            [Message(id, id, Received, Some(account), Some(installation), AsI64(now), content)]]
                       && (if id !in s.state.chats || (before.kind == Direct && before.peer == None)
                           then
                             && OnlyRow(s.db, s'.db.(log := s.db.log), id) && id in s'.db.rows
                             && RowHolds(s'.db.rows[id], before.kind, before.nickname, before.name, before.description, after.peer)
                           else s'.db.rows == s.db.rows)
                     else s'.db == s.db)
  {
    TimestampsSurviveTheStore(now);
  }

  lemma MembersTell(s: Snapshot, id: string)
    ensures AfterMembersChanged(s, id) ==
              if id in s.state.chats && id !in s.state.deleted
              then Snapshot(s.state, s.open, s.db, s.emitted + [MembersChanged(id)]) else s
  {
  }

  /** What a list entry shows of its chat. */
  lemma EntryShowsTheChat(state: AppState, id: string)
    requires id in state.chats
    ensures var session, entry := state.chats[id], ListConversations(state)[id];
            && entry.convoId == session.chatId && entry.kind == session.kind
            && entry.nickname == session.nickname && entry.name == session.name && entry.description == session.description
            && entry.historyOnly == session.historyOnly
            && entry.messageCount == session.olderMessages + |session.messages|
            && (session.messages == [] ==> entry.preview == None && entry.lastActivityMs == 0)
            && (session.messages != [] ==>
                  var last := session.messages[|session.messages| - 1];
                  && entry.lastActivityMs == AsI64(last.timestampMs)
                  && entry.preview.Some? && entry.preview.value <= last.content
                  && |entry.preview.value| == if |last.content| < 160 then |last.content| else 160)
  {
  }
}
