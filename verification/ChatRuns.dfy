/** Runs of the module: API calls, inbound events, shutdowns, crashes and
    re-inits, interleaved one display-lock section at a time. */
module ChatRuns {
  import opened Wrappers
  import opened Persistence
  import opened Actions
  import opened Sequences

  /** `Opening` lies between init reading `chat.db` and init seeding the display:
      the workers run, the display is still the default one. */
  datatype Phase = Closed | Opening(live: set<string>, loaded: AppState) | Open

  datatype Step =
    | Load(live: set<string>)
    | Seed
    | Reset
    | Crash
    | CheckLive(id: string)
    | Create(session: ChatSession, ok: bool)
    | Send(id: string, content: string, now: u64, ok: bool)
    | Nickname(id: string, nickname: string, ok: bool)
    | Delete(id: string, ok: bool)
    | Rename(override: string, ok: bool)
    | Started(id: string, kind: ConversationKind, name: Option<string>, description: Option<string>, ok: bool)
    | Received(id: string, content: string, account: string, installation: string, now: u64, ok: bool)
    | Members(id: string)

  /** `history` is every message sent for a chat or received for it, recorded or
      not; `checked` is the chats some send has found live. */
  datatype World = World(phase: Phase, snap: Snapshot, history: map<string, seq<Message>>, checked: set<string>)
  {
    function History(id: string): seq<Message> {
      if id in history then history[id] else []
    }

    function Handled(message: Message): map<string, seq<Message>> {
      history[message.chatId := History(message.chatId) + [message]]
    }
  }

  const INITIAL := World(Closed, Snapshot(EMPTY_STATE, false, EMPTY_DB, []), map[], {})

  function SentBy(step: Step): Message
    requires step.Send?
  {
    SentMessage(step.id, step.content, step.now)
  }

  function ReceivedBy(step: Step): Message
    requires step.Received?
  {
    InboundMessage(step.id, step.content, step.account, step.installation, step.now)
  }

  predicate IsInbound(step: Step) {
    step.Started? || step.Received? || step.Members?
  }

  /** API calls are serialised, so none but init and shutdown runs outside `Open`.
      Reading a group's metadata waits for the module lock, which init holds. */
  predicate Enabled(w: World, step: Step) {
    match step
    case Load(_) => w.phase.Closed?
    case Seed => w.phase.Opening?
    case Crash => true
    case Started(_, kind, _, _, _) => w.phase.Open? || (w.phase.Opening? && kind == Direct)
    case Received(_, _, _, _, _, _) => !w.phase.Closed?
    case Members(_) => !w.phase.Closed?
    case Send(id, _, _, _) => w.phase.Open? && id in w.checked
    case Create(session, _) =>
      w.phase.Open? && session.messages == [] && session.olderMessages == 0 && !session.historyOnly
    case _ => w.phase.Open?
  }

  function Apply(w: World, step: Step): World {
    match step
    case Load(live) => w.(phase := Opening(live, Seeded(w.snap.db, live)))
    case Seed =>
      if w.phase.Opening? then w.(phase := Open, snap := AfterSeed(w.snap, w.phase.loaded)) else w
    case Reset => w.(phase := Closed, snap := AfterReset(w.snap))
    case Crash => w.(phase := Closed, snap := AfterReset(w.snap))
    case CheckLive(id) =>
      if id in w.snap.state.chats && !w.snap.state.chats[id].historyOnly then w.(checked := w.checked + {id}) else w
    case Create(session, ok) => w.(snap := AfterCreate(w.snap, session, ok))
    case Send(_, _, _, ok) => w.(snap := AfterSend(w.snap, SentBy(step), ok), history := w.Handled(SentBy(step)))
    case Nickname(id, nickname, ok) => w.(snap := AfterNickname(w.snap, id, nickname, ok))
    case Delete(id, ok) => w.(snap := AfterDelete(w.snap, id, ok))
    case Rename(name, ok) => w.(snap := AfterRename(w.snap, name, ok))
    case Started(id, kind, name, description, ok) =>
      w.(snap := AfterStarted(w.snap, Joined(id, kind, name, description), ok))
    case Received(_, _, account, _, _, ok) =>
      w.(snap := AfterMessage(w.snap, ReceivedBy(step), account, ok), history := w.Handled(ReceivedBy(step)))
    case Members(id) => w.(snap := AfterMembersChanged(w.snap, id))
  }

  /** The client returned an id the display has neither shown nor buried. */
  predicate Fresh(w: World, step: Step) {
    step.Create? ==> step.session.chatId !in w.snap.state.chats && step.session.chatId !in w.snap.state.deleted
  }

  predicate WriteSucceeds(step: Step) {
    match step
    case Create(_, ok) => ok
    case Send(_, _, _, ok) => ok
    case Nickname(_, _, ok) => ok
    case Delete(_, ok) => ok
    case Rename(_, ok) => ok
    case Started(_, _, _, _, ok) => ok
    case Received(_, _, _, _, _, ok) => ok
    case _ => true
  }

  function Exec(w: World, steps: seq<Step>): World
    decreases |steps|
  {
    if steps == [] then w else Exec(Apply(w, steps[0]), steps[1..])
  }

  /** Every step is enabled and every created id fresh when its turn comes. */
  predicate Admissible(w: World, steps: seq<Step>)
    decreases |steps|
  {
    steps == [] ||
    (Enabled(w, steps[0]) && Fresh(w, steps[0]) && Admissible(Apply(w, steps[0]), steps[1..]))
  }

  predicate WritesSucceed(steps: seq<Step>) {
    forall i :: 0 <= i < |steps| ==> WriteSucceeds(steps[i])
  }

  // ── What holds whichever writes fail ───────────────────────────────────────

  /** The display's part of the invariant while it has its connection. */
  ghost predicate Shadows(s: Snapshot) {
    && s.db.rows.Keys <= s.state.chats.Keys
    && s.state.deleted == s.db.deleted
    && s.state.installationName == s.db.installationName
    && s.state.deleted !! s.state.chats.Keys
  }

  ghost predicate KeysMatch(state: AppState) {
    forall id :: id in state.chats ==> state.chats[id].chatId == id
  }

  /** A tombstone leaves no row and no message. */
  ghost predicate Buried(db: Db) {
    forall id :: id in db.deleted ==> id !in db.rows && id !in db.log
  }

  ghost predicate StoredFromHistory(w: World) {
    forall id :: Subsequence(w.snap.db.Stored(id), w.History(id))
  }

  ghost predicate Sound(s: Snapshot) {
    && KeysMatch(s.state)
    && Buried(s.db)
    && (if s.open then Shadows(s) else s.state.deleted == {})
  }

  ghost predicate Weak(w: World) {
    && w.snap.open == w.phase.Open?
    && Sound(w.snap)
    && StoredFromHistory(w)
    && (w.phase.Closed? ==> w.snap.state == EMPTY_STATE)
    && (w.phase.Opening? ==> w.phase.loaded == Seeded(w.snap.db, w.phase.live))
  }

  /** Recording touches one chat's log, by one message or not at all. */
  lemma RecordAppends(s: Snapshot, message: Message, chatChanged: bool, ok: bool, id: string)
    ensures var stored, stored' := s.db.Stored(id), AfterRecord(s, message, chatChanged, ok).db.Stored(id);
            stored' == stored || (id == message.chatId && stored' == stored + [message])
  {
  }

  lemma MessageAppends(s: Snapshot, message: Message, account: string, ok: bool, id: string)
    ensures var stored, stored' := s.db.Stored(id), AfterMessage(s, message, account, ok).db.Stored(id);
            stored' == stored || (id == message.chatId && stored' == stored + [message])
  {
    var session := Receiving(s, message.chatId, account);
    var chatChanged := message.chatId !in s.state.chats || session != s.state.chats[message.chatId];
    RecordAppends(Put(s, session), message, chatChanged, ok, id);
  }

  lemma LocalStepAppends(w: World, step: Step, id: string)
    requires !step.Send? && !step.Received?
    ensures var w' := Apply(w, step);
            var stored, stored' := w.snap.db.Stored(id), w'.snap.db.Stored(id);
            && w'.history == w.history
            && (stored' == stored || (stored' == [] && id in w'.snap.db.deleted))
  {
  }

  predicate Handles(step: Step, id: string) {
    (step.Send? && step.id == id) || (step.Received? && step.id == id)
  }

  function HandledBy(step: Step): Message
    requires step.Send? || step.Received?
  {
    if step.Send? then SentBy(step) else ReceivedBy(step)
  }

  /** A step leaves a chat's stored messages alone, buries them, or appends the
      message it handled for that chat; the history gets that message either way. */
  lemma StepAppends(w: World, step: Step, id: string)
    ensures var w' := Apply(w, step);
            var stored, stored' := w.snap.db.Stored(id), w'.snap.db.Stored(id);
            && w'.History(id) == (if Handles(step, id) then w.History(id) + [HandledBy(step)] else w.History(id))
            && (|| stored' == stored
                || (stored' == [] && id in w'.snap.db.deleted)
                || (Handles(step, id) && stored' == stored + [HandledBy(step)]))
  {
    match step
    case Send(_, _, _, ok) => RecordAppends(w.snap, SentBy(step), false, ok, id);
    case Received(_, _, account, _, _, ok) => MessageAppends(w.snap, ReceivedBy(step), account, ok, id);
    case _ => LocalStepAppends(w, step, id);
  }

  lemma StoredStaysFromHistory(w: World, step: Step)
    requires StoredFromHistory(w)
    ensures StoredFromHistory(Apply(w, step))
  {
    var w' := Apply(w, step);
    forall id ensures Subsequence(w'.snap.db.Stored(id), w'.History(id)) {
      StepAppends(w, step, id);
      if Handles(step, id) {
        SubsequenceExtends(w.snap.db.Stored(id), w.History(id), HandledBy(step));
      }
    }
  }

  lemma RecordKeepsSound(s: Snapshot, message: Message, chatChanged: bool, ok: bool)
    requires Sound(s)
    ensures Sound(AfterRecord(s, message, chatChanged, ok))
  {
  }

  lemma MessageKeepsSound(s: Snapshot, message: Message, account: string, ok: bool)
    requires Sound(s)
    ensures Sound(AfterMessage(s, message, account, ok))
  {
    var id := message.chatId;
    if id !in s.state.deleted {
      var session := Receiving(s, id, account);
      assert Sound(Put(s, session));
      RecordKeepsSound(Put(s, session), message, id !in s.state.chats || session != s.state.chats[id], ok);
    }
  }

  lemma LocalStepKeepsSound(w: World, step: Step)
    requires Weak(w) && Enabled(w, step) && Fresh(w, step)
    requires step.Create? || step.Nickname? || step.Delete? || step.Rename?
    ensures Sound(Apply(w, step).snap)
  {
  }

  lemma StartedKeepsSound(s: Snapshot, session: ChatSession, ok: bool)
    requires Sound(s)
    ensures Sound(AfterStarted(s, session, ok))
  {
  }

  lemma WeakIsKept(w: World, step: Step)
    requires Weak(w) && Enabled(w, step) && Fresh(w, step)
    ensures Weak(Apply(w, step))
  {
    StoredStaysFromHistory(w, step);
    match step
    case Send(_, _, _, ok) => RecordKeepsSound(w.snap, SentBy(step), false, ok);
    case Received(_, _, account, _, _, ok) => MessageKeepsSound(w.snap, ReceivedBy(step), account, ok);
    case Create(_, _) => LocalStepKeepsSound(w, step);
    case Nickname(_, _, _) => LocalStepKeepsSound(w, step);
    case Delete(_, _) => LocalStepKeepsSound(w, step);
    case Rename(_, _) => LocalStepKeepsSound(w, step);
    case Started(id, kind, name, description, ok) => StartedKeepsSound(w.snap, Joined(id, kind, name, description), ok);
    case _ =>
  }

  lemma {:induction false} WeakAlong(w: World, steps: seq<Step>)
    requires Weak(w) && Admissible(w, steps)
    ensures Weak(Exec(w, steps))
    decreases |steps|
  {
    if steps != [] {
      WeakIsKept(w, steps[0]);
      WeakAlong(Apply(w, steps[0]), steps[1..]);
    }
  }

  // ── What holds while writes succeed ────────────────────────────────────────

  /** The chat's list is the newest part of its stored messages, all of them or
      at least as many as init loads, and the rest is counted. */
  ghost predicate ListsNewest(session: ChatSession, stored: seq<Message>) {
    && session.olderMessages + |session.messages| == |stored|
    && session.messages == AllShown(stored)[session.olderMessages..]
    && (|stored| <= LOADED_PER_CHAT ==> session.olderMessages == 0)
    && (|stored| > LOADED_PER_CHAT ==> |session.messages| >= LOADED_PER_CHAT)
  }

  ghost predicate AgreesAt(s: Snapshot, id: string) {
    && (id in s.state.chats <==> id in s.db.rows)
    && (id in s.db.log ==> id in s.db.rows)
    && (id in s.state.chats && id in s.db.rows ==>
          s.db.rows[id] == RowOf(s.state.chats[id]) && ListsNewest(s.state.chats[id], s.db.Stored(id)))
  }

  ghost predicate NoOrphans(db: Db) {
    db.log.Keys <= db.rows.Keys
  }

  /** The display and `chat.db` hold the same chats, rows and messages. */
  ghost predicate Agrees(s: Snapshot) {
    forall id :: AgreesAt(s, id)
  }

  ghost predicate Strong(w: World) {
    && Weak(w)
    && NoOrphans(w.snap.db)
    && (w.phase.Open? ==> Agrees(w.snap))
  }

  lemma AppendKeepsNewest(session: ChatSession, stored: seq<Message>, message: Message)
    requires ListsNewest(session, stored)
    ensures ListsNewest(session.(messages := session.messages + [Shown(message)]), stored + [message])
  {
    assert AllShown(stored + [message]) == AllShown(stored) + [Shown(message)];
  }

  lemma LoadedListsNewest(db: Db, id: string, live: set<string>)
    requires id in db.rows
    ensures ListsNewest(Marked(Loaded(db, id), live), db.Stored(id))
    ensures RowOf(Marked(Loaded(db, id), live)) == db.rows[id]
  {
    var stored := db.Stored(id);
    var older := |stored| - |Last(stored, LOADED_PER_CHAT)|;
    assert AllShown(Last(stored, LOADED_PER_CHAT)) == AllShown(stored)[older..];
  }

  lemma SeedAgrees(s: Snapshot, live: set<string>)
    requires NoOrphans(s.db)
    ensures Agrees(AfterSeed(s, Seeded(s.db, live)))
  {
    forall id ensures AgreesAt(AfterSeed(s, Seeded(s.db, live)), id) {
      if id in s.db.rows {
        LoadedListsNewest(s.db, id, live);
      }
    }
  }

  /** The chat recorded into may lack its row, if the recording brings it. */
  ghost predicate ReadyToRecord(s: Snapshot, id: string, chatChanged: bool) {
    && s.open && KeysMatch(s.state)
    && id in s.state.chats
    && ListsNewest(s.state.chats[id], s.db.Stored(id))
    && (chatChanged || (id in s.db.rows && s.db.rows[id] == RowOf(s.state.chats[id])))
  }

  lemma RecordAgrees(s: Snapshot, message: Message, chatChanged: bool)
    requires ReadyToRecord(s, message.chatId, chatChanged)
    requires forall id :: id != message.chatId ==> AgreesAt(s, id)
    ensures Agrees(AfterRecord(s, message, chatChanged, true))
  {
    var s' := AfterRecord(s, message, chatChanged, true);
    forall id ensures AgreesAt(s', id) {
      if id == message.chatId {
        AppendKeepsNewest(s.state.chats[id], s.db.Stored(id), message);
      } else {
        assert AgreesAt(s, id);
      }
    }
  }

  lemma SendAgrees(s: Snapshot, message: Message)
    requires Sound(s) && s.open && Agrees(s)
    ensures Agrees(AfterSend(s, message, true))
  {
    var id := message.chatId;
    assert AgreesAt(s, id);
    var s' := AfterSend(s, message, true);
    if id in s.state.chats {
      RecordAgrees(s, message, false);
      var r := AfterRecord(s, message, false, true);
      forall other ensures AgreesAt(s', other) {
        assert AgreesAt(r, other);
      }
    } else {
      forall other ensures AgreesAt(s', other) {
        assert AgreesAt(s, other);
      }
    }
  }

  lemma MessageAgrees(s: Snapshot, message: Message, account: string)
    requires Sound(s) && s.open && Agrees(s)
    ensures Agrees(AfterMessage(s, message, account, true))
  {
    var id := message.chatId;
    if id !in s.state.deleted {
      var session := Receiving(s, id, account);
      var chatChanged := id !in s.state.chats || session != s.state.chats[id];
      var s0 := Put(s, session);
      assert AgreesAt(s, id);
      forall other | other != id ensures AgreesAt(s0, other) {
        assert AgreesAt(s, other);
      }
      RecordAgrees(s0, message, chatChanged);
      var s1 := AfterRecord(s0, message, chatChanged, true);
      forall other ensures AgreesAt(AfterMessage(s, message, account, true), other) {
        assert AgreesAt(s1, other);
      }
    }
  }

  lemma LocalStepAgrees(w: World, step: Step)
    requires Strong(w) && w.phase.Open? && Enabled(w, step) && Fresh(w, step) && WriteSucceeds(step)
    requires step.Create? || step.Nickname? || step.Delete? || step.Rename? || step.Members?
    ensures Agrees(Apply(w, step).snap)
  {
    forall id ensures AgreesAt(Apply(w, step).snap, id) {
      assert AgreesAt(w.snap, id);
    }
  }

  lemma StartedAgrees(s: Snapshot, session: ChatSession)
    requires Sound(s) && s.open && Agrees(s)
    requires session.messages == [] && session.olderMessages == 0
    ensures Agrees(AfterStarted(s, session, true))
  {
    forall id ensures AgreesAt(AfterStarted(s, session, true), id) {
      assert AgreesAt(s, id);
    }
  }

  lemma StrongIsKept(w: World, step: Step)
    requires Strong(w) && Enabled(w, step) && Fresh(w, step) && WriteSucceeds(step)
    ensures Strong(Apply(w, step))
  {
    WeakIsKept(w, step);
    var w' := Apply(w, step);
    if w.phase.Open? {
      match step {
        case Send(_, _, _, _) => SendAgrees(w.snap, SentBy(step));
        case Received(_, _, account, _, _, _) => MessageAgrees(w.snap, ReceivedBy(step), account);
        case Started(id, kind, name, description, _) => StartedAgrees(w.snap, Joined(id, kind, name, description));
        case CheckLive(_) =>
        case Reset =>
        case Crash =>
        case _ => LocalStepAgrees(w, step);
      }
      if step.Reset? || step.Crash? || step.CheckLive? {
        assert w'.snap.db == w.snap.db;
      } else {
        forall id | id in w'.snap.db.log ensures id in w'.snap.db.rows {
          assert AgreesAt(w'.snap, id);
        }
      }
    } else if step.Seed? {
      SeedAgrees(w.snap, w.phase.live);
    } else {
      assert w'.snap.db == w.snap.db;
    }
  }
}
