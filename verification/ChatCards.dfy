/** What a chat is, told from what was done to it alone: no display, no store, no
    restarts. Over every run with writes succeeding the module shows and keeps that. */
module ChatCards {
  import opened Wrappers
  import opened Sequences
  import opened Persistence
  import opened ActionLaws
  import opened Actions
  import opened ChatRuns
  import opened ChatTheorems

  datatype Card = Card(
    kind: ConversationKind,
    nickname: Option<string>,
    name: Option<string>,
    description: Option<string>,
    peer: Option<string>)

  datatype Fate = Unheard | Known(card: Card) | Gone

  /** Whether events are taken in: between a seeding and the end of its session. */
  function Listens(listening: bool, step: Step): bool {
    match step
    case Seed => true
    case Reset => false
    case Crash => false
    case _ => listening
  }

  /** What one step makes of the chat `id`. */
  function Dealt(fate: Fate, listening: bool, step: Step, id: string): Fate {
    match step
    case Create(session, _) =>
      if session.chatId != id then fate
      else Known(Card(session.kind, session.nickname, session.name, session.description, session.peer))
    case Nickname(i, nickname, _) =>
      if i != id || !fate.Known? then fate
      else Known(fate.card.(nickname := if nickname == "" then None else Some(nickname)))
    case Delete(i, _) => if i == id && fate.Known? then Gone else fate
    case Started(i, kind, name, description, _) =>
      if i != id || !listening || !fate.Unheard? then fate else Known(Card(kind, None, name, description, None))
    case Received(i, _, account, _, _, _) =>
      if i != id || !listening || fate.Gone? then fate
      else if fate.Unheard? then Known(Card(Direct, None, None, None, Some(account)))
      else if fate.card.kind == Direct && fate.card.peer == None then Known(fate.card.(peer := Some(account)))
      else fate
    case _ => fate
  }

  function Fated(fate: Fate, listening: bool, steps: seq<Step>, id: string): Fate
    decreases |steps|
  {
    if steps == [] then fate
    else Fated(Dealt(fate, listening, steps[0], id), Listens(listening, steps[0]), steps[1..], id)
  }

  /** The store holds the card, and so does the display while it is open. */
  ghost predicate HoldsCard(s: Snapshot, id: string, fate: Fate) {
    && (fate.Gone? <==> id in s.db.deleted)
    && (fate.Known? <==> id in s.db.rows)
    && (fate.Known? && id in s.db.rows ==> CardIn(s.db.rows[id], fate.card))
  }

  ghost predicate CardIn(row: Row, card: Card) {
    && row.kind == card.kind && row.nickname == card.nickname && row.name == card.name
    && row.description == card.description && row.peer == card.peer
  }

  ghost predicate ShowsCard(s: Snapshot, id: string, fate: Fate) {
    && (fate.Known? <==> id in s.state.chats)
    && (fate.Known? && id in s.state.chats ==>
          var session, card := s.state.chats[id], fate.card;
          && session.kind == card.kind && session.nickname == card.nickname && session.name == card.name
          && session.description == card.description && session.peer == card.peer)
  }

  /** The chat a step is about, if it is about one. */
  predicate About(step: Step, id: string) {
    match step
    case Create(session, _) => session.chatId == id
    case Nickname(i, _, _) => i == id
    case Delete(i, _) => i == id
    case Started(i, _, _, _, _) => i == id
    case Received(i, _, _, _, _, _) => i == id
    case _ => false
  }

  lemma OtherRowsStay(w: World, step: Step, id: string)
    requires w.phase.Open? && !About(step, id) && Valid(w.snap.state)
    ensures var db, db' := w.snap.db, Apply(w, step).snap.db;
            && (id in db'.deleted <==> id in db.deleted) && (id in db'.rows <==> id in db.rows)
            && (id in db.rows && id in db'.rows ==> db'.rows[id] == db.rows[id])
  {
    match step
    case Create(session, ok) => CreateShows(w.snap, session, ok);
    case Nickname(i, nickname, ok) =>
      if i in w.snap.state.chats {
        NicknameSets(w.snap, i, nickname, ok);
      }
    case Delete(i, ok) => DeleteBuries(w.snap, i, ok);
    case Send(i, content, now, ok) => SendRecords(w.snap, i, content, now, ok);
    case Started(i, kind, name, description, ok) => StartedShows(w.snap, i, kind, name, description, ok);
    case Received(i, content, account, installation, now, ok) =>
      MessageShows(w.snap, i, content, account, installation, now, ok);
    case _ =>
  }

  ghost predicate Valid(state: AppState) {
    forall id :: id in state.chats ==> state.chats[id].chatId == id
  }

  lemma LocalStepDeals(w: World, step: Step, id: string, fate: Fate)
    requires Strong(w) && w.phase.Open? && Enabled(w, step) && Fresh(w, step) && WriteSucceeds(step)
    requires HoldsCard(w.snap, id, fate) && About(step, id) && (step.Create? || step.Nickname? || step.Delete?)
    ensures HoldsCard(Apply(w, step).snap, id, Dealt(fate, true, step, id))
  {
    assert AgreesAt(w.snap, id);
  }

  lemma InviteDeals(w: World, step: Step, id: string, fate: Fate)
    requires Strong(w) && w.phase.Open? && WriteSucceeds(step)
    requires HoldsCard(w.snap, id, fate) && About(step, id) && step.Started?
    ensures HoldsCard(Apply(w, step).snap, id, Dealt(fate, true, step, id))
  {
    assert AgreesAt(w.snap, id);
    StartedShows(w.snap, id, step.kind, step.name, step.description, true);
  }

  /** The row of a chat that a message has come for, against the session it came to. */
  lemma MessageRow(s: Snapshot, step: Step, id: string)
    requires s.open && step.Received? && step.id == id && step.ok && Valid(s.state)
    requires AgreesAt(s, id) && id !in s.state.deleted
    ensures var db' := AfterMessage(s, ReceivedBy(step), step.account, true).db;
            && db'.deleted == s.db.deleted && id in db'.rows
            && (id in s.db.rows ==>
                  && PeerAfter(db'.rows[id].peer, s.db.rows[id].kind, s.db.rows[id].peer, step.account)
                  && db'.rows[id] == s.db.rows[id].(peer := db'.rows[id].peer))
            && (id !in s.db.rows ==> RowHolds(db'.rows[id], Direct, None, None, None, Some(step.account)))
  {
    MessageShows(s, id, step.content, step.account, step.installation, step.now, true);
  }

  lemma MessageDeals(w: World, step: Step, id: string, fate: Fate)
    requires Strong(w) && w.phase.Open? && WriteSucceeds(step)
    requires HoldsCard(w.snap, id, fate) && About(step, id) && step.Received?
    ensures HoldsCard(Apply(w, step).snap, id, Dealt(fate, true, step, id))
  {
    if id !in w.snap.state.deleted {
      assert AgreesAt(w.snap, id);
      MessageRow(w.snap, step, id);
    }
  }

  lemma OpenStepDeals(w: World, step: Step, id: string, fate: Fate)
    requires Strong(w) && w.phase.Open? && Enabled(w, step) && Fresh(w, step) && WriteSucceeds(step)
    requires HoldsCard(w.snap, id, fate)
    ensures HoldsCard(Apply(w, step).snap, id, Dealt(fate, true, step, id))
  {
    if !About(step, id) {
      OtherRowsStay(w, step, id);
    } else if step.Received? {
      MessageDeals(w, step, id, fate);
    } else if step.Started? {
      InviteDeals(w, step, id, fate);
    } else {
      LocalStepDeals(w, step, id, fate);
    }
  }

  /** Outside an open display nothing reaches the store. */
  lemma ClosedStepDeals(w: World, step: Step, id: string, fate: Fate)
    requires Weak(w) && !w.phase.Open? && Enabled(w, step)
    requires HoldsCard(w.snap, id, fate)
    ensures HoldsCard(Apply(w, step).snap, id, Dealt(fate, false, step, id))
  {
    if step.Received? {
      EarlyMessageIsNotStored(w.snap, ReceivedBy(step), step.account, step.ok);
    }
  }

  lemma StepDeals(w: World, step: Step, id: string, fate: Fate)
    requires Strong(w) && Enabled(w, step) && Fresh(w, step) && WriteSucceeds(step)
    requires HoldsCard(w.snap, id, fate)
    ensures HoldsCard(Apply(w, step).snap, id, Dealt(fate, w.phase.Open?, step, id))
    ensures Apply(w, step).phase.Open? == Listens(w.phase.Open?, step)
  {
    if !w.phase.Open? {
      ClosedStepDeals(w, step, id, fate);
    } else {
      OpenStepDeals(w, step, id, fate);
    }
  }

  lemma {:induction false} FatedAlong(w: World, steps: seq<Step>, id: string, fate: Fate)
    requires Strong(w) && Admissible(w, steps) && WritesSucceed(steps)
    requires HoldsCard(w.snap, id, fate)
    ensures HoldsCard(Exec(w, steps).snap, id, Fated(fate, w.phase.Open?, steps, id))
    decreases |steps|
  {
    if steps != [] {
      assert WriteSucceeds(steps[0]);
      StepDeals(w, steps[0], id, fate);
      StrongIsKept(w, steps[0]);
      FatedAlong(Apply(w, steps[0]), steps[1..], id, Dealt(fate, w.phase.Open?, steps[0], id));
    }
  }

  /** Over every run with writes succeeding, across restarts: the store has a row for
      exactly the chats heard of and not deleted, and it holds the kind, the label
      last set, the name and description given, and the peer given or first heard
      from; an open display shows the same. */
  lemma CardsAreKept(steps: seq<Step>, id: string)
    requires Admissible(INITIAL, steps) && WritesSucceed(steps)
    ensures var w, fate := Exec(INITIAL, steps), Fated(Unheard, false, steps, id);
            && HoldsCard(w.snap, id, fate)
            && (w.phase.Open? ==> ShowsCard(w.snap, id, fate))
  {
    FatedAlong(INITIAL, steps, id, Unheard);
    StrongAlong(INITIAL, steps);
    if Exec(INITIAL, steps).phase.Open? {
      assert AgreesAt(Exec(INITIAL, steps).snap, id);
    }
  }

  // ── The installation's name ────────────────────────────────────────────────

  /** The name last set over `steps`, if it was not set to nothing; `name` if none was. */
  function LastName(name: Option<string>, steps: seq<Step>): Option<string>
    decreases |steps|
  {
    if steps == [] then name
    else LastName(match steps[0] case Rename(n, _) => if n == "" then None else Some(n) case _ => name, steps[1..])
  }

  lemma StepNames(w: World, step: Step)
    requires Weak(w) && Enabled(w, step) && WriteSucceeds(step)
    ensures Apply(w, step).snap.db.installationName ==
              match step case Rename(n, _) => (if n == "" then None else Some(n)) case _ => w.snap.db.installationName
  {
  }

  lemma {:induction false} NamedAlong(w: World, steps: seq<Step>)
    requires Weak(w) && Admissible(w, steps) && WritesSucceed(steps)
    ensures Exec(w, steps).snap.db.installationName == LastName(w.snap.db.installationName, steps)
    decreases |steps|
  {
    if steps != [] {
      assert WriteSucceeds(steps[0]);
      StepNames(w, steps[0]);
      WeakIsKept(w, steps[0]);
      NamedAlong(Apply(w, steps[0]), steps[1..]);
    }
  }

  /** The name kept, and shown by an open display, is the one last set. */
  lemma TheLastNameIsKept(steps: seq<Step>)
    requires Admissible(INITIAL, steps) && WritesSucceed(steps)
    ensures var w := Exec(INITIAL, steps);
            && w.snap.db.installationName == LastName(None, steps)
            && (w.phase.Open? ==> w.snap.state.installationName == LastName(None, steps))
  {
    NamedAlong(INITIAL, steps);
    WeakAlong(INITIAL, steps);
  }

  // ── List entries ───────────────────────────────────────────────────────────

  /** What an entry shows, given its chat's card and what was said in it. */
  ghost predicate EntryShows(entry: Actions.Conversation, id: string, card: Card, said: seq<DisplayMessage>) {
    && entry.convoId == id && entry.kind == card.kind && entry.nickname == card.nickname
    && entry.name == card.name && entry.description == card.description
    && entry.messageCount == |said|
    && (said == [] ==> entry.preview == None && entry.lastActivityMs == 0)
    && (said != [] ==>
          var last := said[|said| - 1];
          && entry.lastActivityMs == AsI64(last.timestampMs)
          && entry.preview.Some? && entry.preview.value <= last.content
          && |entry.preview.value| == if |last.content| < 160 then |last.content| else 160)
  }

  lemma EntryOfTheList(s: Snapshot, id: string, fate: Fate, said: seq<DisplayMessage>)
    requires id in s.state.chats && s.state.chats[id].chatId == id && fate.Known? && ShowsCard(s, id, fate)
    requires var session := s.state.chats[id];
             && session.olderMessages + |session.messages| == |said| && session.messages == said[session.olderMessages..]
             && (said != [] ==> session.messages != [])
    ensures EntryShows(ListConversations(s.state)[id], id, fate.card, said)
  {
    EntryShowsTheChat(s.state, id);
  }

  /** An entry of the list is its chat's card, and counts and previews everything said
      in it, unless something was said before a seeding. */
  lemma EntriesShowTheConversation(steps: seq<Step>, id: string)
    requires Admissible(INITIAL, steps) && WritesSucceed(steps) && NoEarlyMessage(INITIAL, steps, id)
    requires Exec(INITIAL, steps).phase.Open? && id in Exec(INITIAL, steps).snap.state.chats
    ensures var fate := Fated(Unheard, false, steps, id);
            && fate.Known?
            && EntryShows(ListConversations(Exec(INITIAL, steps).snap.state)[id], id, fate.card, ChatTheorems.Conversation(steps, id))
  {
    var s := Exec(INITIAL, steps).snap;
    CardsAreKept(steps, id);
    TheListIsTheConversation(steps, id);
    WriteThrough(steps);
    assert ListsNewest(s.state.chats[id], s.db.Stored(id));
    WeakAlong(INITIAL, steps);
    EntryOfTheList(s, id, Fated(Unheard, false, steps, id), ChatTheorems.Conversation(steps, id));
  }

  // ── Sending ────────────────────────────────────────────────────────────────

  /** A message can be sent in a chat nobody has checked before exactly when the display
      shows it and not for its history alone; it is then the last of the chat's list. */
  lemma SendingIff(w: World, id: string, content: string, now: u64)
    requires Weak(w) && w.phase.Open? && id !in w.checked
    ensures Admissible(w, [CheckLive(id), Send(id, content, now, true)])
            <==> id in w.snap.state.chats && !w.snap.state.chats[id].historyOnly
    ensures id in w.snap.state.chats && !w.snap.state.chats[id].historyOnly ==>
              var after := Exec(w, [CheckLive(id), Send(id, content, now, true)]);
              && GetMessages(after.snap.state, id) == GetMessages(w.snap.state, id) + [DisplayMessage(true, content, now, None)]
              && after.snap.emitted == w.snap.emitted + [Event.MessageSent(id, content, AsI64(now))]
  {
    var send := Send(id, content, now, true);
    var checked := Apply(w, CheckLive(id));
    assert [CheckLive(id), send][1..] == [send] && [send][1..] == [];
    assert Admissible(checked, [send]) <==> Enabled(checked, send);
    assert Exec(checked, [send]) == Apply(checked, send);
    if id in w.snap.state.chats {
      SendRecords(checked.snap, id, content, now, true);
    }
  }

  /** A change of members is told of a chat that is shown and not deleted. */
  lemma MembersAreTold(w: World, id: string)
    ensures var told := id in w.snap.state.chats && id !in w.snap.state.deleted;
            Apply(w, Members(id)).snap.emitted == if told then w.snap.emitted + [MembersChanged(id)] else w.snap.emitted
  {
    MembersTell(w.snap, id);
  }
}
