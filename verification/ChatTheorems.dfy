/** What every run of the display over `chat.db` keeps. */
module ChatTheorems {
  import opened Wrappers
  import opened Persistence
  import opened Actions
  import opened Sequences
  import opened ChatRuns

  lemma {:induction false} StrongAlong(w: World, steps: seq<Step>)
    requires Strong(w) && Admissible(w, steps) && WritesSucceed(steps)
    ensures Strong(Exec(w, steps))
    decreases |steps|
  {
    if steps != [] {
      assert WriteSucceeds(steps[0]);
      StrongIsKept(w, steps[0]);
      StrongAlong(Apply(w, steps[0]), steps[1..]);
    }
  }

  /** Write-through: with writes succeeding, whatever the interleaving, an open
      display is `chat.db` with the older part of each list left unread. */
  lemma WriteThrough(steps: seq<Step>)
    requires Admissible(INITIAL, steps) && WritesSucceed(steps)
    requires Exec(INITIAL, steps).phase.Open?
    ensures var s := Exec(INITIAL, steps).snap;
            && s.state.chats.Keys == s.db.rows.Keys
            && s.db.log.Keys <= s.db.rows.Keys
            && s.state.deleted == s.db.deleted
            && s.state.deleted !! s.state.chats.Keys
            && s.state.installationName == s.db.installationName
            && forall id :: id in s.state.chats ==>
                 && RowOf(s.state.chats[id]) == s.db.rows[id]
                 && ListsNewest(s.state.chats[id], s.db.Stored(id))
  {
    StrongAlong(INITIAL, steps);
    var s := Exec(INITIAL, steps).snap;
    assert forall id :: AgreesAt(s, id);
    assert forall id :: id in s.state.chats <==> AgreesAt(s, id) && id in s.db.rows;
    assert s.state.chats.Keys == s.db.rows.Keys;
  }

  /** Whichever writes fail: the store invents, repeats and reorders nothing, no
      row outlives its session, and tombstones and the name still agree. */
  lemma AnyWriteMayFail(steps: seq<Step>)
    requires Admissible(INITIAL, steps)
    ensures var w := Exec(INITIAL, steps);
            var s := w.snap;
            && (forall id :: Subsequence(s.db.Stored(id), w.History(id)))
            && (forall id :: id in s.db.deleted ==> id !in s.db.rows && s.db.Stored(id) == [])
            && (w.phase.Open? ==>
                  && s.db.rows.Keys <= s.state.chats.Keys
                  && s.state.deleted == s.db.deleted
                  && s.state.deleted !! s.state.chats.Keys
                  && s.state.installationName == s.db.installationName)
  {
    WeakAlong(INITIAL, steps);
  }

  // ── Nothing is lost ────────────────────────────────────────────────────────

  /** A message for `id` handled between the workers starting and the seeding. */
  predicate EarlyMessage(w: World, step: Step, id: string) {
    w.phase.Opening? && step.Received? && step.id == id
  }

  predicate NoEarlyMessage(w: World, steps: seq<Step>, id: string)
    decreases |steps|
  {
    steps == [] || (!EarlyMessage(w, steps[0], id) && NoEarlyMessage(Apply(w, steps[0]), steps[1..], id))
  }

  ghost predicate KeptAt(w: World, id: string) {
    && (id in w.checked ==> id in w.snap.db.rows || id in w.snap.db.deleted)
    && (id in w.snap.db.deleted || w.snap.db.Stored(id) == w.History(id))
  }

  /** A row leaves only for a tombstone, and a tombstone never leaves. */
  lemma RowsLeaveOnlyForTombstones(w: World, step: Step, id: string)
    ensures id in w.snap.db.deleted ==> id in Apply(w, step).snap.db.deleted
    ensures id in w.snap.db.rows ==> id in Apply(w, step).snap.db.rows || id in Apply(w, step).snap.db.deleted
  {
  }

  lemma SendStores(s: Snapshot, message: Message)
    requires s.open && message.chatId in s.state.chats
    ensures AfterSend(s, message, true).db.Stored(message.chatId) == s.db.Stored(message.chatId) + [message]
  {
  }

  lemma MessageStores(s: Snapshot, message: Message, account: string)
    requires s.open && message.chatId !in s.state.deleted
    ensures AfterMessage(s, message, account, true).db.Stored(message.chatId) == s.db.Stored(message.chatId) + [message]
  {
  }

  lemma StepKeepsAt(w: World, step: Step, id: string)
    requires Strong(w) && Enabled(w, step) && Fresh(w, step) && WriteSucceeds(step)
    requires KeptAt(w, id) && !EarlyMessage(w, step, id)
    ensures KeptAt(Apply(w, step), id)
  {
    RowsLeaveOnlyForTombstones(w, step, id);
    if w.phase.Open? {
      assert AgreesAt(w.snap, id);
    }
    if id !in Apply(w, step).snap.db.deleted {
      if step.Send? && step.id == id {
        SendStores(w.snap, SentBy(step));
      } else if step.Received? && step.id == id {
        MessageStores(w.snap, ReceivedBy(step), step.account);
      } else {
        StepAppends(w, step, id);
      }
    }
  }

  /** A message is missing from the chat's log for good. */
  ghost predicate LostAt(w: World, id: string) {
    id in w.snap.db.deleted || |w.snap.db.Stored(id)| < |w.History(id)|
  }

  lemma EarlyMessageIsLost(w: World, step: Step, id: string)
    requires Weak(w) && KeptAt(w, id) && EarlyMessage(w, step, id)
    ensures LostAt(Apply(w, step), id)
  {
    StepAppends(w, step, id);
    assert !w.snap.open;
    EarlyMessageIsNotStored(w.snap, ReceivedBy(step), step.account, step.ok);
  }

  lemma EarlyMessageIsNotStored(s: Snapshot, message: Message, account: string, ok: bool)
    requires !s.open
    ensures AfterMessage(s, message, account, ok).db == s.db
  {
  }

  lemma {:induction false} LostAlong(w: World, steps: seq<Step>, id: string)
    requires LostAt(w, id)
    ensures LostAt(Exec(w, steps), id)
    decreases |steps|
  {
    if steps != [] {
      StepAppends(w, steps[0], id);
      RowsLeaveOnlyForTombstones(w, steps[0], id);
      LostAlong(Apply(w, steps[0]), steps[1..], id);
    }
  }

  lemma {:induction false} KeptAlong(w: World, steps: seq<Step>, id: string)
    requires Strong(w) && KeptAt(w, id)
    requires Admissible(w, steps) && WritesSucceed(steps)
    ensures if NoEarlyMessage(w, steps, id) then KeptAt(Exec(w, steps), id) else LostAt(Exec(w, steps), id)
    decreases |steps|
  {
    if steps != [] {
      assert WriteSucceeds(steps[0]);
      if EarlyMessage(w, steps[0], id) {
        EarlyMessageIsLost(w, steps[0], id);
        LostAlong(Apply(w, steps[0]), steps[1..], id);
      } else {
        StepKeepsAt(w, steps[0], id);
        StrongIsKept(w, steps[0]);
        KeptAlong(Apply(w, steps[0]), steps[1..], id);
      }
    }
  }

  /** With writes succeeding, `chat.db` holds every message ever sent or received for
      a chat that was not deleted, across any number of restarts, exactly when none
      of its messages was handled before an init had seeded the display. */
  lemma EveryMessageIsKept(steps: seq<Step>, id: string)
    requires Admissible(INITIAL, steps) && WritesSucceed(steps)
    requires id !in Exec(INITIAL, steps).snap.db.deleted
    ensures Exec(INITIAL, steps).snap.db.Stored(id) == Exec(INITIAL, steps).History(id)
            <==> NoEarlyMessage(INITIAL, steps, id)
  {
    KeptAlong(INITIAL, steps, id);
  }

  /** What one step said in a chat, as its list should show it. */
  function Said(step: Step): DisplayMessage
    requires step.Send? || step.Received?
  {
    if step.Send? then DisplayMessage(true, step.content, step.now, None)
    else DisplayMessage(false, step.content, step.now, Some(step.account))
  }

  /** All that was said in a chat over a run, sent or received. */
  function Conversation(steps: seq<Step>, id: string): seq<DisplayMessage> {
    if steps == [] then []
    else (if Handles(steps[0], id) then [Said(steps[0])] else []) + Conversation(steps[1..], id)
  }

  /** A message shows as it was said, its time back from the signed column. */
  lemma HandledIsShown(step: Step)
    requires step.Send? || step.Received?
    ensures Shown(HandledBy(step)) == Said(step)
  {
    TimestampsSurviveTheStore(step.now);
  }

  lemma ShownMore(messages: seq<Message>, message: Message)
    ensures AllShown(messages + [message]) == AllShown(messages) + [Shown(message)]
  {
  }

  lemma {:induction false} HistoryIsTheConversation(w: World, steps: seq<Step>, id: string)
    ensures AllShown(Exec(w, steps).History(id)) == AllShown(w.History(id)) + Conversation(steps, id)
    decreases |steps|
  {
    if steps != [] {
      var w1 := Apply(w, steps[0]);
      StepAppends(w, steps[0], id);
      HistoryIsTheConversation(w1, steps[1..], id);
      if Handles(steps[0], id) {
        HandledIsShown(steps[0]);
        ShownMore(w.History(id), HandledBy(steps[0]));
        Regroup(AllShown(w.History(id)), [Said(steps[0])], Conversation(steps[1..], id));
      }
    }
  }

  /** With writes succeeding, an open chat's list is the newest part of everything
      said in it over all sessions, word for word with sender and time, and the count
      of older messages is the rest: exactly when nothing of it came before a seeding. */
  lemma TheListIsTheConversation(steps: seq<Step>, id: string)
    requires Admissible(INITIAL, steps) && WritesSucceed(steps)
    requires Exec(INITIAL, steps).phase.Open? && id in Exec(INITIAL, steps).snap.state.chats
    ensures var state := Exec(INITIAL, steps).snap.state;
            var listed, older, said := GetMessages(state, id), state.chats[id].olderMessages, Conversation(steps, id);
            (older + |listed| == |said| && listed == said[older..] && (|said| > 500 ==> |listed| >= 500))
            <==> NoEarlyMessage(INITIAL, steps, id)
  {
    WriteThrough(steps);
    KeptAlong(INITIAL, steps, id);
    HistoryIsTheConversation(INITIAL, steps, id);
  }

  // ── Restarts ───────────────────────────────────────────────────────────────

  predicate AllInbound(steps: seq<Step>) {
    forall i :: 0 <= i < |steps| ==> IsInbound(steps[i])
  }

  /** Events handled before the display is seeded reach neither the store nor
      what will be shown. */
  lemma {:induction false} EarlyInboundIsDropped(w: World, early: seq<Step>)
    requires w.phase.Opening? && !w.snap.open
    requires Admissible(w, early) && AllInbound(early)
    ensures Exec(w, early).phase == w.phase
    ensures Exec(w, early).snap.db == w.snap.db
    ensures !Exec(w, early).snap.open
    decreases |early|
  {
    if early != [] {
      assert IsInbound(early[0]);
      EarlyInboundIsDropped(Apply(w, early[0]), early[1..]);
    }
  }

  /** Shutdown (or a crash), then init, with any events handled before the display
      is seeded. */
  function Restarted(w: World, stop: Step, live: set<string>, early: seq<Step>): World {
    Apply(Exec(Apply(Apply(w, stop), Load(live)), early), Seed)
  }

  lemma LastOfNewest(session: ChatSession, db: Db, id: string, live: set<string>)
    requires id in db.rows && ListsNewest(session, db.Stored(id))
    ensures Marked(Loaded(db, id), live).messages == Last(session.messages, LOADED_PER_CHAT)
  {
    LoadedListsNewest(db, id, live);
    var shown := AllShown(db.Stored(id));
    var older := |shown| - |Last(shown, LOADED_PER_CHAT)|;
    assert Marked(Loaded(db, id), live).messages == shown[older..];
    assert shown[session.olderMessages..][older - session.olderMessages..] == shown[older..];
  }

  lemma NewestEndsTheSame(session: ChatSession, stored: seq<Message>)
    requires ListsNewest(session, stored)
    ensures session.messages == [] <==> stored == []
    ensures stored != [] ==> session.messages[|session.messages| - 1] == AllShown(stored)[|stored| - 1]
  {
  }

  /** What a list entry shows depends on the row and the stored messages alone. */
  lemma SameEntry(a: ChatSession, b: ChatSession, stored: seq<Message>)
    requires RowOf(a) == RowOf(b) && a.chatId == b.chatId
    requires ListsNewest(a, stored) && ListsNewest(b, stored)
    ensures ConversationOf(b) == ConversationOf(a).(historyOnly := b.historyOnly)
  {
    NewestEndsTheSame(a, stored);
    NewestEndsTheSame(b, stored);
  }

  lemma RestartAt(s: Snapshot, id: string, live: set<string>)
    requires AgreesAt(s, id) && KeysMatch(s.state)
    ensures var after := Seeded(s.db, live);
            && (id in s.state.chats <==> id in after.chats)
            && GetMessages(after, id) == Last(GetMessages(s.state, id), LOADED_PER_CHAT)
            && (id in s.state.chats ==>
                  ConversationOf(after.chats[id]) == ConversationOf(s.state.chats[id]).(historyOnly := id !in live))
  {
    if id in s.state.chats {
      var session, loaded := s.state.chats[id], Marked(Loaded(s.db, id), live);
      assert Seeded(s.db, live).chats[id] == loaded;
      LastOfNewest(session, s.db, id, live);
      LoadedListsNewest(s.db, id, live);
      SameEntry(session, loaded, s.db.Stored(id));
    }
  }

  lemma ListsAfterRestart(s: Snapshot, live: set<string>)
    requires Agrees(s) && KeysMatch(s.state)
    ensures ListConversations(Seeded(s.db, live)) ==
              (map id | id in ListConversations(s.state) :: ListConversations(s.state)[id].(historyOnly := id !in live))
  {
    var after := ListConversations(Seeded(s.db, live));
    var before := ListConversations(s.state);
    forall id ensures id in after <==> id in before
              ensures id in before ==> after[id] == before[id].(historyOnly := id !in live) {
      assert AgreesAt(s, id);
      RestartAt(s, id, live);
    }
  }

  /** A restart shows the same conversations with the same labels, counts, previews
      and last activity; each message list is the newest 500 of the one before; and
      a conversation is history only exactly when the new client does not hold it. */
  lemma RestartSimulates(steps: seq<Step>, stop: Step, live: set<string>, early: seq<Step>)
    requires Admissible(INITIAL, steps) && WritesSucceed(steps) && Exec(INITIAL, steps).phase.Open?
    requires stop.Reset? || stop.Crash?
    requires Admissible(Apply(Apply(Exec(INITIAL, steps), stop), Load(live)), early) && AllInbound(early)
    ensures var before := Exec(INITIAL, steps).snap.state;
            var after := Restarted(Exec(INITIAL, steps), stop, live, early).snap.state;
            && ListConversations(after) ==
                 (map id | id in ListConversations(before) :: ListConversations(before)[id].(historyOnly := id !in live))
            && (forall id :: GetMessages(after, id) == Last(GetMessages(before, id), 500))
            && after.deleted == before.deleted
            && after.installationName == before.installationName
  {
    var w := Exec(INITIAL, steps);
    StrongAlong(INITIAL, steps);
    var w1 := Apply(Apply(w, stop), Load(live));
    EarlyInboundIsDropped(w1, early);
    assert Restarted(w, stop, live, early).snap.state == Seeded(w.snap.db, live);
    forall id
      ensures AgreesAt(w.snap, id)
      ensures id in w.snap.state.chats <==> id in Seeded(w.snap.db, live).chats
    {
      assert AgreesAt(w.snap, id);
      RestartAt(w.snap, id, live);
    }
    forall id ensures GetMessages(Seeded(w.snap.db, live), id) == Last(GetMessages(w.snap.state, id), LOADED_PER_CHAT) {
      RestartAt(w.snap, id, live);
    }
    ListsAfterRestart(w.snap, live);
  }

  /** While the display is open, a conversation kept for its history goes live by
      being started again and by nothing else, and no live one goes back. */
  lemma HistoryEndsWithAnInvite(w: World, step: Step, id: string)
    requires Weak(w) && w.phase.Open? && Enabled(w, step) && Fresh(w, step) && !step.Reset? && !step.Crash?
    requires id in w.snap.state.chats && id in Apply(w, step).snap.state.chats
    ensures Apply(w, step).snap.state.chats[id].historyOnly <==>
              w.snap.state.chats[id].historyOnly && !(step.Started? && step.id == id)
  {
    match step
    case Send(_, _, _, ok) => RecordKeepsHistory(w.snap, SentBy(step), false, ok, id);
    case Received(_, _, account, _, _, ok) =>
      if step.id !in w.snap.state.deleted {
        var session := Receiving(w.snap, step.id, account);
        var chatChanged := step.id !in w.snap.state.chats || session != w.snap.state.chats[step.id];
        RecordKeepsHistory(Put(w.snap, session), ReceivedBy(step), chatChanged, ok, id);
      }
    case _ =>
  }

  lemma RecordKeepsHistory(s: Snapshot, message: Message, chatChanged: bool, ok: bool, id: string)
    requires id in s.state.chats
    ensures var s' := AfterRecord(s, message, chatChanged, ok);
            id in s'.state.chats && s'.state.chats[id].historyOnly == s.state.chats[id].historyOnly
  {
  }

  // ── Tombstones ─────────────────────────────────────────────────────────────

  /** Something a peer did was announced for `id` since `w`. */
  ghost predicate Announced(w: World, w': World, id: string) {
    exists i :: |w.snap.emitted| <= i < |w'.snap.emitted|
      && Inbound(w'.snap.emitted[i]) && w'.snap.emitted[i].chatId == id
  }

  /** The step handles a start or a message of `id` on a display not yet seeded. */
  predicate Exhumes(w: World, step: Step, id: string) {
    w.phase.Opening? && (step.Started? || step.Received?) && step.id == id
  }

  predicate NeverExhumed(w: World, steps: seq<Step>, id: string)
    decreases |steps|
  {
    steps == [] || (!Exhumes(w, steps[0], id) && NeverExhumed(Apply(w, steps[0]), steps[1..], id))
  }

  lemma EmittedGrowsByOne(w: World, step: Step)
    ensures var e, e' := w.snap.emitted, Apply(w, step).snap.emitted;
            e' == e || (|e'| == |e| + 1 && e'[..|e|] == e && (!IsInbound(step) ==> !Inbound(e'[|e|])))
  {
  }

  lemma MessageEmits(s: Snapshot, message: Message, account: string, ok: bool)
    ensures AfterMessage(s, message, account, ok).emitted ==
              if message.chatId in s.state.deleted then s.emitted
              else s.emitted + [Event.MessageReceived(message.chatId, message.content, message.timestampMs, account)]
  {
  }

  lemma {:induction false} EmittedOnlyGrows(w: World, steps: seq<Step>)
    ensures w.snap.emitted <= Exec(w, steps).snap.emitted
    decreases |steps|
  {
    if steps != [] {
      EmittedGrowsByOne(w, steps[0]);
      EmittedOnlyGrows(Apply(w, steps[0]), steps[1..]);
    }
  }

  /** A call of this installation never announces what peers did, and shows no
      chat under a tombstone. */
  lemma LocalStepUnderTombstone(w: World, step: Step, id: string)
    requires Weak(w) && Enabled(w, step) && Fresh(w, step) && !IsInbound(step)
    requires id in w.snap.db.deleted && id !in w.snap.state.chats
    ensures !Announced(w, Apply(w, step), id)
    ensures id !in Apply(w, step).snap.state.chats
  {
    EmittedGrowsByOne(w, step);
  }

  lemma MessageUnderTombstone(s: Snapshot, message: Message, account: string, ok: bool, id: string)
    requires id !in s.state.chats
    ensures id in AfterMessage(s, message, account, ok).state.chats <==>
              message.chatId == id && id !in s.state.deleted
  {
    MessageEmits(s, message, account, ok);
  }

  lemma EventUnderTombstone(w: World, step: Step, id: string)
    requires Weak(w) && Enabled(w, step) && IsInbound(step)
    requires id in w.snap.db.deleted && id !in w.snap.state.chats
    ensures Announced(w, Apply(w, step), id) <==> Exhumes(w, step, id)
    ensures !Exhumes(w, step, id) ==> id !in Apply(w, step).snap.state.chats
  {
    var e, e' := w.snap.emitted, Apply(w, step).snap.emitted;
    assert w.phase.Opening? <==> id !in w.snap.state.deleted;
    if step.Received? {
      MessageEmits(w.snap, ReceivedBy(step), step.account, step.ok);
      MessageUnderTombstone(w.snap, ReceivedBy(step), step.account, step.ok, id);
    }
    EmittedGrowsByOne(w, step);
    if Exhumes(w, step, id) {
      assert Inbound(e'[|e|]) && e'[|e|].chatId == id;
    }
  }

  /** One step under a tombstone announces it exactly when it exhumes it. */
  lemma StepUnderTombstone(w: World, step: Step, id: string)
    requires Weak(w) && Enabled(w, step) && Fresh(w, step)
    requires id in w.snap.db.deleted && id !in w.snap.state.chats
    ensures Announced(w, Apply(w, step), id) <==> Exhumes(w, step, id)
    ensures id in Apply(w, step).snap.db.deleted
    ensures !Exhumes(w, step, id) ==> id !in Apply(w, step).snap.state.chats
  {
    RowsLeaveOnlyForTombstones(w, step, id);
    if IsInbound(step) {
      EventUnderTombstone(w, step, id);
    } else {
      LocalStepUnderTombstone(w, step, id);
    }
  }

  lemma {:induction false} AnnouncedWhenExhumed(w: World, steps: seq<Step>, id: string)
    requires Weak(w) && Admissible(w, steps)
    requires id in w.snap.db.deleted && id !in w.snap.state.chats
    ensures Announced(w, Exec(w, steps), id) <==> !NeverExhumed(w, steps, id)
    ensures id in Exec(w, steps).snap.db.deleted
    decreases |steps|
  {
    if steps != [] {
      var w1, last := Apply(w, steps[0]), Exec(w, steps);
      StepUnderTombstone(w, steps[0], id);
      WeakIsKept(w, steps[0]);
      TombstonesStay(w1, steps[1..], id);
      EmittedGrowsByOne(w, steps[0]);
      EmittedOnlyGrows(w1, steps[1..]);
      if !Exhumes(w, steps[0], id) {
        AnnouncedWhenExhumed(w1, steps[1..], id);
        assert Announced(w, last, id) <==> Announced(w1, last, id) by {
          AnnouncementsSplit(w, w1, last, id);
        }
      } else {
        AnnouncementsSplit(w, w1, last, id);
      }
    }
  }

  lemma AnnouncementsSplit(w: World, w1: World, w2: World, id: string)
    requires w.snap.emitted <= w1.snap.emitted <= w2.snap.emitted
    ensures Announced(w, w2, id) <==> Announced(w, w1, id) || Announced(w1, w2, id)
  {
    if Announced(w, w1, id) {
      var i :| |w.snap.emitted| <= i < |w1.snap.emitted|
        && Inbound(w1.snap.emitted[i]) && w1.snap.emitted[i].chatId == id;
      assert w2.snap.emitted[i] == w1.snap.emitted[i];
    }
    if Announced(w, w2, id) && !Announced(w1, w2, id) {
      var i :| |w.snap.emitted| <= i < |w2.snap.emitted|
        && Inbound(w2.snap.emitted[i]) && w2.snap.emitted[i].chatId == id;
      assert i < |w1.snap.emitted|;
      assert w2.snap.emitted[i] == w1.snap.emitted[i];
    }
  }

  lemma {:induction false} TombstonesStay(w: World, steps: seq<Step>, id: string)
    requires id in w.snap.db.deleted
    ensures id in Exec(w, steps).snap.db.deleted
    decreases |steps|
  {
    if steps != [] {
      RowsLeaveOnlyForTombstones(w, steps[0], id);
      TombstonesStay(Apply(w, steps[0]), steps[1..], id);
    }
  }

  /** The display is emptied, refilled or given up. */
  predicate Clears(step: Step) {
    step.Load? || step.Seed? || step.Reset? || step.Crash?
  }

  predicate NeverCleared(steps: seq<Step>) {
    forall j :: 0 <= j < |steps| ==> !Clears(steps[j])
  }

  /** Step `k` exhumes the chat, and the display it put it on still stands. */
  predicate ExhumedAt(w: World, steps: seq<Step>, id: string, k: nat) {
    k < |steps| && Exhumes(Exec(w, steps[..k]), steps[k], id) && NeverCleared(steps[k..])
  }

  lemma ShownUnderTombstone(w: World, step: Step, id: string)
    requires Weak(w) && Enabled(w, step) && Fresh(w, step) && id in w.snap.db.deleted
    ensures id in Apply(w, step).snap.state.chats <==>
              Exhumes(w, step, id) || (id in w.snap.state.chats && !Clears(step))
  {
    if id !in w.snap.state.chats {
      StepUnderTombstone(w, step, id);
      if Exhumes(w, step, id) && step.Received? {
        MessageUnderTombstone(w.snap, ReceivedBy(step), step.account, step.ok, id);
      }
    } else {
      assert w.phase.Opening?;
      StaysOnDisplay(w, step, id);
    }
  }

  /** Before the seeding, only clearing the display takes a chat off it. */
  lemma StaysOnDisplay(w: World, step: Step, id: string)
    requires Weak(w) && w.phase.Opening? && Enabled(w, step)
    requires id in w.snap.db.deleted && id in w.snap.state.chats
    ensures id in Apply(w, step).snap.state.chats <==> !Clears(step)
  {
  }

  lemma ExhumedLater(w: World, steps: seq<Step>, id: string, k: nat)
    requires steps != []
    ensures ExhumedAt(w, steps, id, k + 1) <==> ExhumedAt(Apply(w, steps[0]), steps[1..], id, k)
  {
    if k + 1 < |steps| {
      assert steps[..k + 1][0] == steps[0] && steps[..k + 1][1..] == steps[1..][..k];
      assert steps[k + 1..] == steps[1..][k..];
    }
  }

  lemma NeverClearedMore(steps: seq<Step>)
    requires steps != []
    ensures NeverCleared(steps) <==> !Clears(steps[0]) && NeverCleared(steps[1..])
  {
    assert forall j :: 1 <= j < |steps| ==> steps[j] == steps[1..][j - 1];
  }

  lemma ExhumedNowOrLater(w: World, steps: seq<Step>, id: string)
    requires steps != []
    ensures (exists k: nat :: ExhumedAt(w, steps, id, k)) <==>
              || (Exhumes(w, steps[0], id) && NeverCleared(steps[1..]))
              || exists k: nat :: ExhumedAt(Apply(w, steps[0]), steps[1..], id, k)
  {
    var w1, later := Apply(w, steps[0]), steps[1..];
    assert steps[..0] == [] && steps[0..] == steps;
    NeverClearedMore(steps);
    assert ExhumedAt(w, steps, id, 0) <==> Exhumes(w, steps[0], id) && NeverCleared(later);
    if k: nat :| ExhumedAt(w1, later, id, k) {
      ExhumedLater(w, steps, id, k);
    }
    if k: nat :| ExhumedAt(w, steps, id, k) {
      if k > 0 {
        ExhumedLater(w, steps, id, k - 1);
      }
    }
  }

  /** A buried chat is on the display exactly when it was put there by an event of
      it, or was there to begin with, and the display has not been cleared since. */
  lemma {:induction false} ShownAlong(w: World, steps: seq<Step>, id: string)
    requires Weak(w) && Admissible(w, steps) && id in w.snap.db.deleted
    ensures id in Exec(w, steps).snap.state.chats <==>
              (exists k: nat :: ExhumedAt(w, steps, id, k)) || (id in w.snap.state.chats && NeverCleared(steps))
    decreases |steps|
  {
    if steps != [] {
      ShownUnderTombstone(w, steps[0], id);
      WeakIsKept(w, steps[0]);
      RowsLeaveOnlyForTombstones(w, steps[0], id);
      ShownAlong(Apply(w, steps[0]), steps[1..], id);
      NeverClearedMore(steps);
      ExhumedNowOrLater(w, steps, id);
    }
  }

  /** Once a deletion succeeds, restarts, failed writes and sends in flight included:
      no later state has a row or a stored message for that id, an open display does
      not show it, one that is not open shows it exactly when an event of it was
      handled on that same display before its seeding, and what peers do is
      announced for it exactly when that ever happened. */
  lemma TombstonesArePermanent(steps: seq<Step>, id: string, later: seq<Step>)
    requires Admissible(INITIAL, steps) && Exec(INITIAL, steps).phase.Open?
    requires id in Exec(INITIAL, steps).snap.state.chats
    requires Admissible(Apply(Exec(INITIAL, steps), Delete(id, true)), later)
    ensures var w := Apply(Exec(INITIAL, steps), Delete(id, true));
            var w' := Exec(w, later);
            && id in w'.snap.db.deleted && id !in w'.snap.db.rows && w'.snap.db.Stored(id) == []
            && (w'.phase.Open? ==> id in w'.snap.state.deleted && id !in w'.snap.state.chats)
            && (id in w'.snap.state.chats <==> exists k: nat :: ExhumedAt(w, later, id, k))
            && (Announced(w, w', id) <==> !NeverExhumed(w, later, id))
  {
    var w0 := Exec(INITIAL, steps);
    WeakAlong(INITIAL, steps);
    var w := Apply(w0, Delete(id, true));
    WeakIsKept(w0, Delete(id, true));
    WeakAlong(w, later);
    AnnouncedWhenExhumed(w, later, id);
    ShownAlong(w, later, id);
  }

  lemma ThreeSteps(w: World, steps: seq<Step>)
    requires |steps| == 3
    ensures Exec(w, steps) == Apply(Apply(Apply(w, steps[0]), steps[1]), steps[2])
    ensures var w1 := Apply(w, steps[0]);
            var w2 := Apply(w1, steps[1]);
            Admissible(w, steps) <==>
              && Enabled(w, steps[0]) && Fresh(w, steps[0])
              && Enabled(w1, steps[1]) && Fresh(w1, steps[1])
              && Enabled(w2, steps[2]) && Fresh(w2, steps[2])
  {
    assert steps[1..][0] == steps[1] && steps[1..][1..] == steps[2..];
    assert steps[2..][0] == steps[2] && steps[2..][1..] == [];
    var w1 := Apply(w, steps[0]);
    var w2 := Apply(w1, steps[1]);
    var w3 := Apply(w2, steps[2]);
    assert Exec(w, steps) == Exec(w1, steps[1..]) == Exec(w2, steps[2..]) == Exec(w3, []);
    assert Admissible(w3, []);
    assert Admissible(w2, steps[2..]) <==> Enabled(w2, steps[2]) && Fresh(w2, steps[2]);
    assert Admissible(w1, steps[1..]) <==> Enabled(w1, steps[1]) && Fresh(w1, steps[1]) && Admissible(w2, steps[2..]);
  }

  lemma FourSteps(w: World, steps: seq<Step>)
    requires |steps| == 4
    ensures var w1 := Apply(w, steps[0]);
            var w2 := Apply(w1, steps[1]);
            var w3 := Apply(w2, steps[2]);
            && Exec(w, steps) == Apply(w3, steps[3])
            && (Admissible(w, steps) <==>
                  && Enabled(w, steps[0]) && Fresh(w, steps[0])
                  && Enabled(w1, steps[1]) && Fresh(w1, steps[1])
                  && Enabled(w2, steps[2]) && Fresh(w2, steps[2])
                  && Enabled(w3, steps[3]) && Fresh(w3, steps[3]))
  {
    ThreeSteps(Apply(w, steps[0]), steps[1..]);
  }

  /** One run in which a deleted chat is announced and shown again: a peer's
      invitation back into it is waiting when init starts its workers. */
  const CREATED: seq<Step> := [Load({}), Seed, Create(NewDirect("d", "raya"), true)]
  const REOPENED: seq<Step> := [Reset, Load({}), Started("d", Direct, None, None, true)]

  lemma AnEarlyInviteExhumes()
    ensures Admissible(INITIAL, CREATED) && "d" in Exec(INITIAL, CREATED).snap.state.chats
    ensures var w := Apply(Exec(INITIAL, CREATED), Delete("d", true));
            && Admissible(w, REOPENED) && Announced(w, Exec(w, REOPENED), "d")
            && "d" in Exec(w, REOPENED).snap.state.chats && "d" in Exec(w, REOPENED).snap.db.deleted
  {
    var w1 := Apply(INITIAL, CREATED[0]);
    var w2 := Apply(w1, CREATED[1]);
    var w3 := Apply(w2, CREATED[2]);
    ThreeSteps(INITIAL, CREATED);
    var w := Apply(w3, Delete("d", true));
    assert w.snap.db.deleted == {"d"};
    var w4 := Apply(w, REOPENED[0]);
    var w5 := Apply(w4, REOPENED[1]);
    var w6 := Apply(w5, REOPENED[2]);
    ThreeSteps(w, REOPENED);
    var event := w6.snap.emitted[|w.snap.emitted|];
    assert Inbound(event) && event.chatId == "d";
  }

  /** A run that announces a message and keeps it nowhere: a peer has opened a direct
      conversation and written in it, and both are waiting when init starts its
      workers. */
  const WAITING: seq<Step> :=
    [Load({}), Started("d", Direct, None, None, true), Step.Received("d", "hi", "raya", "device", 1, true), Seed]

  lemma ReceivedThenSeeded(w: World, step: Step)
    requires w.phase.Opening? && !w.snap.open && step.Received? && step.id !in w.snap.state.deleted
    ensures var w' := Apply(Apply(w, step), Seed);
            && w'.phase.Open? && w'.snap.db == w.snap.db && w'.snap.state == w.phase.loaded
            && w'.History(step.id) == w.History(step.id) + [ReceivedBy(step)]
            && w'.snap.emitted == w.snap.emitted + [Event.MessageReceived(step.id, step.content, AsI64(step.now), step.account)]
  {
    MessageEmits(w.snap, ReceivedBy(step), step.account, step.ok);
    EarlyMessageIsNotStored(w.snap, ReceivedBy(step), step.account, step.ok);
  }

  lemma StartedEarly(w: World, step: Step)
    requires w.phase.Opening? && !w.snap.open && step.Started?
    ensures var w' := Apply(w, step);
            && w'.phase == w.phase && w'.history == w.history && !w'.snap.open
            && w'.snap.db == w.snap.db && w'.snap.state.deleted == w.snap.state.deleted
            && |w'.snap.emitted| >= |w.snap.emitted|
  {
    EmittedGrowsByOne(w, step);
  }

  lemma FirstLoad()
    ensures var w := Apply(INITIAL, Load({}));
            && w.phase == Opening({}, Seeded(EMPTY_DB, {})) && Seeded(EMPTY_DB, {}).chats == map[]
            && w.snap == INITIAL.snap && w.history == map[]
  {
    assert Seeded(EMPTY_DB, {}).chats == map[];
  }

  lemma AnnouncedLast(w: World, w': World, event: Event)
    requires Inbound(event) && w'.snap.emitted == w.snap.emitted + [event]
    ensures event in w'.snap.emitted && Announced(INITIAL, w', event.chatId)
  {
    var i := |w.snap.emitted|;
    assert w'.snap.emitted[i] == event;
  }

  /** A first session in which someone writes before the display is seeded. */
  lemma WrittenTooEarly(steps: seq<Step>, id: string)
    requires |steps| == 4 && steps[0] == Load({}) && steps[3] == Seed
    requires steps[1].Started? && steps[1].kind == Direct && steps[2].Received? && steps[2].id == id
    ensures Admissible(INITIAL, steps)
    ensures var w := Exec(INITIAL, steps);
            && w.phase.Open? && w.snap.db == EMPTY_DB && w.snap.state.chats == map[]
            && w.History(id) == [ReceivedBy(steps[2])]
            && Announced(INITIAL, w, id)
  {
    FourSteps(INITIAL, steps);
    FirstLoad();
    var w1 := Apply(INITIAL, steps[0]);
    var w2 := Apply(w1, steps[1]);
    StartedEarly(w1, steps[1]);
    ReceivedThenSeeded(w2, steps[2]);
    AnnouncedLast(w2, Exec(INITIAL, steps),
                  Event.MessageReceived(id, steps[2].content, AsI64(steps[2].now), steps[2].account));
  }

  lemma AnEarlyMessageIsLost()
    ensures Admissible(INITIAL, WAITING) && WritesSucceed(WAITING)
    ensures var w := Exec(INITIAL, WAITING);
            && Announced(INITIAL, w, "d")
            && w.phase.Open? && "d" !in w.snap.db.deleted && "d" !in w.snap.state.chats
            && |w.History("d")| == 1 && w.snap.db.Stored("d") == []
  {
    WrittenTooEarly(WAITING, "d");
  }

  // ── Fresh ids ──────────────────────────────────────────────────────────────

  /** Inserting a new chat keeps display and store in agreement exactly when its
      id is neither buried nor already has stored messages. */
  lemma CreateAgreesIffUnused(s: Snapshot, session: ChatSession)
    requires s.open && Sound(s) && Agrees(s)
    requires session.messages == [] && session.olderMessages == 0
    ensures var s' := AfterCreate(s, session, true);
            Sound(s') && Agrees(s') <==> session.chatId !in s.state.deleted && s.db.Stored(session.chatId) == []
  {
    var id := session.chatId;
    var s' := AfterCreate(s, session, true);
    assert AgreesAt(s, id);
    if id !in s.state.deleted && s.db.Stored(id) == [] {
      forall other ensures AgreesAt(s', other) {
        assert AgreesAt(s, other);
      }
    } else if id !in s.state.deleted {
      assert !AgreesAt(s', id);
    }
  }
}
