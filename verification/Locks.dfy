/** Who takes which lock and who waits for whom: the module's threads as a
    transition system, and why none of its reachable states is a deadlock. */
module Locks {
  import opened Wrappers

  /** The module lock guards the client, the display lock the display, the preset
      lock this process's own node preset, the log lock the run's log file. */
  datatype Lock = ModuleLock | DisplayLock | PresetLock | LogLock

  /** Any number of callers and of delivery callbacks; a bridge and an event
      consumer for each init, numbered by generation. */
  datatype Thread = Caller(n: nat) | Callback(n: nat) | Bridge(gen: nat) | Events(gen: nat)

  /** What a thread still has to do. The two decisions are taken under the module
      lock, on what it holds: `Decide` is init's, `TakeOut` shutdown's. */
  datatype Act =
    | Acquire(l: Lock)
    | Release(l: Lock)
    | Decide(succeeds: bool)
    | TakeOut
    | Spawn(gen: nat)
    | Install(gen: nat)
    | StopBridge(gen: nat)
    | DropClient(gen: nat)
    | Join(worker: Thread)

  /** A section is an acquisition and its release, with nothing awaited between. */
  function Section(l: Lock): seq<Act> {
    [Acquire(l), Release(l)]
  }

  const READ := Section(DisplayLock)
  const INIT: seq<Act> := [Acquire(ModuleLock), Decide(true)]
  const FAILED_INIT: seq<Act> := [Acquire(ModuleLock), Decide(false)]
  const SHUTDOWN: seq<Act> := [Acquire(ModuleLock), TakeOut]
  const CREATE := Section(ModuleLock) + Section(DisplayLock)
  const ADD_MEMBER := Section(DisplayLock) + Section(ModuleLock)
  const SEND := Section(DisplayLock) + Section(ModuleLock) + Section(DisplayLock)
  const NODE_CREATED := Section(PresetLock) + Section(DisplayLock)
  const NODE_JOINED := Section(PresetLock) + Section(DisplayLock) + Section(DisplayLock)
  const GROUP_STARTED := Section(ModuleLock) + Section(DisplayLock)

  /** init once it knows whether a state is installed: set up, seed the display and
      install, or look whether to retry. */
  function InitBranch(installed: Option<nat>, succeeds: bool, gen: nat): seq<Act> {
    if installed.Some? then [Release(ModuleLock)] + Section(DisplayLock)
    else if !succeeds then [Release(ModuleLock)]
    else [Spawn(gen)] + Section(DisplayLock) + [Install(gen), Release(ModuleLock)]
  }

  /** shutdown once it has taken the state out: the lock goes first, then the
      bridge, the client, the event consumer and the display. */
  function ShutdownBranch(installed: Option<nat>): seq<Act> {
    if installed.None? then [Release(ModuleLock)] else
    var gen := installed.value;
    [Release(ModuleLock), StopBridge(gen), Join(Bridge(gen)), DropClient(gen), Join(Events(gen))] + Section(DisplayLock)
  }

  /** `todo` has an entry for each thread that has not finished. */
  datatype State = State(
    todo: map<Thread, seq<Act>>,
    holder: map<Lock, Thread>,
    installed: Option<nat>,
    stopped: set<nat>,
    dropped: set<nat>,
    nextGen: nat)

  const INITIAL := State(map[], map[], None, {}, {}, 0)

  /** `Trace`: whatever it is in the middle of, a thread has a line to log. */
  datatype Step = Begin(t: Thread, script: seq<Act>) | Advance(t: Thread) | Trace(t: Thread) | Finish(t: Thread)

  predicate Worker(t: Thread) {
    t.Bridge? || t.Events?
  }

  /** What each kind of thread runs. An operation that fails midway runs a prefix
      that ends after a section, itself one of these or nothing. */
  predicate MayRun(t: Thread, script: seq<Act>) {
    match t
    case Caller(_) => script in {READ, INIT, FAILED_INIT, SHUTDOWN, CREATE, Section(ModuleLock), ADD_MEMBER, SEND}
    case Callback(_) => script in {READ, NODE_CREATED, NODE_JOINED}
    case Bridge(_) => script == READ
    case Events(_) => script == READ || script == GROUP_STARTED
  }

  predicate CanRun(s: State, act: Act) {
    match act
    case Acquire(l) => l !in s.holder
    case Join(worker) => worker !in s.todo
    case _ => true
  }

  /** A bridge ends once told to stop, an event consumer once its client is gone. A
      line may be logged anywhere but inside the logging of one. */
  predicate Enabled(s: State, step: Step) {
    match step
    case Begin(t, script) =>
      MayRun(t, script) && (if Worker(t) then t in s.todo && s.todo[t] == [] else t !in s.todo)
    case Advance(t) => t in s.todo && s.todo[t] != [] && CanRun(s, s.todo[t][0])
    case Trace(t) => t in s.todo && (LogLock in s.holder ==> s.holder[LogLock] != t)
    case Finish(t) =>
      t in s.todo && s.todo[t] == [] &&
      (match t case Bridge(gen) => gen in s.stopped case Events(gen) => gen in s.dropped case _ => true)
  }

  function Run(s: State, t: Thread, act: Act, rest: seq<Act>): State {
    var s' := s.(todo := s.todo[t := rest]);
    match act
    case Acquire(l) => s'.(holder := s.holder[l := t])
    case Release(l) => s'.(holder := s.holder - {l})
    case Decide(succeeds) =>
      s'.(todo := s.todo[t := InitBranch(s.installed, succeeds, s.nextGen) + rest], nextGen := s.nextGen + 1)
    case TakeOut => s'.(todo := s.todo[t := ShutdownBranch(s.installed) + rest], installed := None)
    case Spawn(gen) =>
      var spawned := map w | w in {Bridge(gen), Events(gen)} && w !in s.todo :: [];
      s'.(todo := s'.todo + spawned)
    case Install(gen) => s'.(installed := Some(gen))
    case StopBridge(gen) => s'.(stopped := s.stopped + {gen})
    case DropClient(gen) => s'.(dropped := s.dropped + {gen})
    case Join(_) => s'
  }

  function Apply(s: State, step: Step): State
    requires Enabled(s, step)
  {
    match step
    case Begin(t, script) => s.(todo := s.todo[t := script])
    case Advance(t) => Run(s, t, s.todo[t][0], s.todo[t][1..])
    case Trace(t) => s.(todo := s.todo[t := Section(LogLock) + s.todo[t]])
    case Finish(t) => s.(todo := s.todo - {t})
  }

  // ── The discipline ─────────────────────────────────────────────────────────

  /** The display and preset locks come after the module lock and never together, the
      log lock after all. */
  function Rank(l: Lock): nat {
    match l
    case ModuleLock => 0
    case LogLock => 2
    case _ => 1
  }

  /** From `held` on: locks are taken in rank order and given back, decisions are
      last and made under the module lock alone, nothing is joined under a lock,
      and a worker is joined only once told to end. */
  ghost predicate Disciplined(held: set<Lock>, todo: seq<Act>, stopped: set<nat>, dropped: set<nat>)
    decreases |todo|
  {
    if todo == [] then held == {} else
    var rest := todo[1..];
    match todo[0]
    case Acquire(l) =>
      (forall h :: h in held ==> Rank(h) < Rank(l)) && Disciplined(held + {l}, rest, stopped, dropped)
    case Release(l) => l in held && Disciplined(held - {l}, rest, stopped, dropped)
    case Decide(_) => held == {ModuleLock} && rest == []
    case TakeOut => held == {ModuleLock} && rest == []
    case StopBridge(gen) => Disciplined(held, rest, stopped + {gen}, dropped)
    case DropClient(gen) => Disciplined(held, rest, stopped, dropped + {gen})
    case Join(worker) =>
      && held == {}
      && (match worker case Bridge(gen) => gen in stopped case Events(gen) => gen in dropped case _ => false)
      && Disciplined(held, rest, stopped, dropped)
    case _ => Disciplined(held, rest, stopped, dropped)
  }

  /** Workers wait for locks only. */
  predicate LocksOnly(todo: seq<Act>) {
    forall i :: 0 <= i < |todo| ==> todo[i].Acquire? || todo[i].Release?
  }

  ghost function Held(s: State, t: Thread): set<Lock> {
    set l | l in s.holder && s.holder[l] == t
  }

  ghost predicate GoodThread(s: State, t: Thread)
    requires t in s.todo
  {
    Disciplined(Held(s, t), s.todo[t], s.stopped, s.dropped) && (Worker(t) ==> LocksOnly(s.todo[t]))
  }

  ghost predicate Good(s: State) {
    && (forall l :: l in s.holder ==> s.holder[l] in s.todo)
    && (forall t :: t in s.todo ==> GoodThread(s, t))
  }

  lemma {:induction false} MoreEndingsKeepDiscipline(held: set<Lock>, todo: seq<Act>, stopped: set<nat>, dropped: set<nat>,
                                                     stopped': set<nat>, dropped': set<nat>)
    requires Disciplined(held, todo, stopped, dropped) && stopped <= stopped' && dropped <= dropped'
    ensures Disciplined(held, todo, stopped', dropped')
    decreases |todo|
  {
    if todo != [] {
      var rest := todo[1..];
      match todo[0]
      case Acquire(l) => MoreEndingsKeepDiscipline(held + {l}, rest, stopped, dropped, stopped', dropped');
      case Release(l) => MoreEndingsKeepDiscipline(held - {l}, rest, stopped, dropped, stopped', dropped');
      case Decide(_) =>
      case TakeOut =>
      case StopBridge(gen) =>
        MoreEndingsKeepDiscipline(held, rest, stopped + {gen}, dropped, stopped' + {gen}, dropped');
      case DropClient(gen) =>
        MoreEndingsKeepDiscipline(held, rest, stopped, dropped + {gen}, stopped', dropped' + {gen});
      case _ => MoreEndingsKeepDiscipline(held, rest, stopped, dropped, stopped', dropped');
    }
  }

  /** A section under locks of lower rank leaves the discipline to what follows. */
  lemma SectionFirst(held: set<Lock>, l: Lock, rest: seq<Act>, stopped: set<nat>, dropped: set<nat>)
    requires forall h :: h in held ==> Rank(h) < Rank(l)
    requires Disciplined(held, rest, stopped, dropped)
    ensures Disciplined(held, Section(l) + rest, stopped, dropped)
  {
    var todo := Section(l) + rest;
    assert todo[1..][1..] == rest;
    assert held + {l} - {l} == held;
    assert Disciplined(held + {l}, todo[1..], stopped, dropped);
  }

  lemma SectionAlone(l: Lock)
    ensures Disciplined({}, Section(l), {}, {})
  {
    SectionFirst({}, l, [], {}, {});
    assert Section(l) + [] == Section(l);
  }

  lemma TwoSections(a: Lock, b: Lock)
    ensures Disciplined({}, Section(a) + Section(b), {}, {})
  {
    SectionAlone(b);
    SectionFirst({}, a, Section(b), {}, {});
  }

  lemma ThreeSections(a: Lock, b: Lock, c: Lock)
    ensures Disciplined({}, Section(a) + Section(b) + Section(c), {}, {})
  {
    TwoSections(b, c);
    SectionFirst({}, a, Section(b) + Section(c), {}, {});
    assert Section(a) + Section(b) + Section(c) == Section(a) + (Section(b) + Section(c));
  }

  lemma DecisionScript(decision: Act)
    requires decision.Decide? || decision.TakeOut?
    ensures Disciplined({}, [Acquire(ModuleLock), decision], {}, {})
  {
    var todo := [Acquire(ModuleLock), decision];
    assert todo[1..] == [decision] && todo[1..][1..] == [];
    assert {} + {ModuleLock} == {ModuleLock};
    assert Disciplined({ModuleLock}, todo[1..], {}, {});
  }

  lemma CallersAreDisciplined(n: nat, script: seq<Act>)
    requires MayRun(Caller(n), script)
    ensures Disciplined({}, script, {}, {})
  {
    SectionAlone(DisplayLock);
    SectionAlone(ModuleLock);
    TwoSections(ModuleLock, DisplayLock);
    TwoSections(DisplayLock, ModuleLock);
    ThreeSections(DisplayLock, ModuleLock, DisplayLock);
    DecisionScript(Decide(true));
    DecisionScript(Decide(false));
    DecisionScript(TakeOut);
  }

  lemma CallbacksAreDisciplined(n: nat, script: seq<Act>)
    requires MayRun(Callback(n), script)
    ensures Disciplined({}, script, {}, {})
  {
    SectionAlone(DisplayLock);
    TwoSections(PresetLock, DisplayLock);
    ThreeSections(PresetLock, DisplayLock, DisplayLock);
  }

  lemma WorkersAreDisciplined(t: Thread, script: seq<Act>)
    requires MayRun(t, script) && Worker(t)
    ensures Disciplined({}, script, {}, {}) && LocksOnly(script)
  {
    SectionAlone(DisplayLock);
    TwoSections(ModuleLock, DisplayLock);
  }

  /** Everything any thread runs is disciplined. */
  lemma ScriptsAreDisciplined(t: Thread, script: seq<Act>)
    requires MayRun(t, script)
    ensures Disciplined({}, script, {}, {})
    ensures Worker(t) ==> LocksOnly(script)
  {
    match t
    case Caller(n) => CallersAreDisciplined(n, script);
    case Callback(n) => CallbacksAreDisciplined(n, script);
    case _ => WorkersAreDisciplined(t, script);
  }

  lemma Step1(act: Act, rest: seq<Act>)
    ensures ([act] + rest)[0] == act && ([act] + rest)[1..] == rest
  {
  }

  lemma ReleaseFirst(rest: seq<Act>, stopped: set<nat>, dropped: set<nat>)
    requires Disciplined({}, rest, stopped, dropped)
    ensures Disciplined({ModuleLock}, [Release(ModuleLock)] + rest, stopped, dropped)
  {
    Step1(Release(ModuleLock), rest);
    assert {ModuleLock} - {ModuleLock} == {};
  }

  lemma InitBranchIsDisciplined(installed: Option<nat>, succeeds: bool, gen: nat, stopped: set<nat>, dropped: set<nat>)
    ensures Disciplined({ModuleLock}, InitBranch(installed, succeeds, gen), stopped, dropped)
  {
    ReleaseFirst([], stopped, dropped);
    assert [Release(ModuleLock)] + [] == [Release(ModuleLock)];
    SectionAlone(DisplayLock);
    MoreEndingsKeepDiscipline({}, Section(DisplayLock), {}, {}, stopped, dropped);
    ReleaseFirst(Section(DisplayLock), stopped, dropped);
    var close := [Install(gen), Release(ModuleLock)];
    assert close == [Install(gen)] + [Release(ModuleLock)];
    Step1(Install(gen), [Release(ModuleLock)]);
    SectionFirst({ModuleLock}, DisplayLock, close, stopped, dropped);
    Step1(Spawn(gen), Section(DisplayLock) + close);
    assert [Spawn(gen)] + Section(DisplayLock) + close == [Spawn(gen)] + (Section(DisplayLock) + close);
  }

  lemma ShutdownBranchIsDisciplined(installed: Option<nat>, stopped: set<nat>, dropped: set<nat>)
    ensures Disciplined({ModuleLock}, ShutdownBranch(installed), stopped, dropped)
  {
    if installed.None? {
      ReleaseFirst([], stopped, dropped);
      assert [Release(ModuleLock)] + [] == [Release(ModuleLock)];
    } else {
      var gen := installed.value;
      var stopped', dropped' := stopped + {gen}, dropped + {gen};
      SectionAlone(DisplayLock);
      MoreEndingsKeepDiscipline({}, Section(DisplayLock), {}, {}, stopped', dropped');
      var r0 := Section(DisplayLock);
      var r1 := [Join(Events(gen))] + r0;
      Step1(Join(Events(gen)), r0);
      assert Disciplined({}, r1, stopped', dropped');
      var r2 := [DropClient(gen)] + r1;
      Step1(DropClient(gen), r1);
      assert Disciplined({}, r2, stopped', dropped);
      var r3 := [Join(Bridge(gen))] + r2;
      Step1(Join(Bridge(gen)), r2);
      assert Disciplined({}, r3, stopped', dropped);
      var r4 := [StopBridge(gen)] + r3;
      Step1(StopBridge(gen), r3);
      assert Disciplined({}, r4, stopped, dropped);
      ReleaseFirst(r4, stopped, dropped);
      assert ShutdownBranch(installed) == [Release(ModuleLock)] + r4;
    }
  }

  // ── Every reachable state is good ──────────────────────────────────────────

  lemma OthersStayGood(s: State, t: Thread, s': State)
    requires Good(s) && t in s.todo && t in s'.todo
    requires s.stopped <= s'.stopped && s.dropped <= s'.dropped
    requires forall u :: u in s.todo ==> u in s'.todo && (u != t ==> s'.todo[u] == s.todo[u])
    requires forall u :: u in s'.todo && u !in s.todo ==> s'.todo[u] == []
    requires forall l :: l in s.holder && s.holder[l] != t ==> l in s'.holder && s'.holder[l] == s.holder[l]
    requires forall l :: l in s'.holder && s'.holder[l] != t ==> l in s.holder && s'.holder[l] == s.holder[l]
    requires GoodThread(s', t)
    ensures Good(s')
  {
    forall u | u in s'.todo && u != t ensures GoodThread(s', u) {
      assert Held(s', u) == Held(s, u);
      if u in s.todo {
        assert GoodThread(s, u);
        MoreEndingsKeepDiscipline(Held(s, u), s.todo[u], s.stopped, s.dropped, s'.stopped, s'.dropped);
      } else {
        assert Held(s, u) == {};
      }
    }
  }

  lemma AdvanceKeepsGood(s: State, t: Thread)
    requires Good(s) && Enabled(s, Advance(t))
    ensures Good(Apply(s, Advance(t)))
  {
    var s' := Apply(s, Advance(t));
    var act, rest := s.todo[t][0], s.todo[t][1..];
    assert GoodThread(s, t);
    match act {
      case Acquire(l) =>
        assert Held(s', t) == Held(s, t) + {l};
      case Release(l) =>
        assert Held(s', t) == Held(s, t) - {l};
      case Decide(succeeds) =>
        assert Held(s', t) == Held(s, t);
        InitBranchIsDisciplined(s.installed, succeeds, s.nextGen, s.stopped, s.dropped);
        assert s'.todo[t] == InitBranch(s.installed, succeeds, s.nextGen);
      case TakeOut =>
        assert Held(s', t) == Held(s, t);
        ShutdownBranchIsDisciplined(s.installed, s.stopped, s.dropped);
        assert s'.todo[t] == ShutdownBranch(s.installed);
      case Spawn(_) =>
        assert Held(s', t) == Held(s, t);
        assert s'.todo[t] == rest;
      case _ =>
        assert Held(s', t) == Held(s, t);
    }
    OthersStayGood(s, t, s');
  }

  lemma TraceKeepsGood(s: State, t: Thread)
    requires Good(s) && Enabled(s, Trace(t))
    ensures Good(Apply(s, Trace(t)))
  {
    var s' := Apply(s, Trace(t));
    assert GoodThread(s, t);
    assert Held(s', t) == Held(s, t);
    SectionFirst(Held(s, t), LogLock, s.todo[t], s.stopped, s.dropped);
    assert s'.todo[t] == Section(LogLock) + s.todo[t];
    OthersStayGood(s, t, s');
  }

  lemma GoodIsKept(s: State, step: Step)
    requires Good(s) && Enabled(s, step)
    ensures Good(Apply(s, step))
  {
    var s' := Apply(s, step);
    match step
    case Advance(t) => AdvanceKeepsGood(s, t);
    case Trace(t) => TraceKeepsGood(s, t);
    case Begin(t, script) =>
      ScriptsAreDisciplined(t, script);
      MoreEndingsKeepDiscipline({}, script, {}, {}, s.stopped, s.dropped);
      assert t in s.todo ==> GoodThread(s, t);
      assert Held(s', t) == Held(s, t) == {};
      forall u | u in s'.todo && u != t ensures GoodThread(s', u) {
        assert GoodThread(s, u) && Held(s', u) == Held(s, u);
      }
    case Finish(t) =>
      assert GoodThread(s, t);
      assert Held(s, t) == {};
      forall l | l in s'.holder ensures s'.holder[l] in s'.todo {
        assert l !in Held(s, t);
      }
      forall u | u in s'.todo ensures GoodThread(s', u) {
        assert GoodThread(s, u) && Held(s', u) == Held(s, u);
      }
  }

  predicate Admissible(s: State, steps: seq<Step>)
    decreases |steps|
  {
    steps == [] || (Enabled(s, steps[0]) && Admissible(Apply(s, steps[0]), steps[1..]))
  }

  function Exec(s: State, steps: seq<Step>): State
    requires Admissible(s, steps)
    decreases |steps|
  {
    if steps == [] then s else Exec(Apply(s, steps[0]), steps[1..])
  }

  lemma {:induction false} GoodAlong(s: State, steps: seq<Step>)
    requires Good(s) && Admissible(s, steps)
    ensures Good(Exec(s, steps))
    decreases |steps|
  {
    if steps != [] {
      GoodIsKept(s, steps[0]);
      GoodAlong(Apply(s, steps[0]), steps[1..]);
    }
  }

  // ── No deadlock ────────────────────────────────────────────────────────────

  /** A thread in the middle of something. */
  predicate Busy(s: State, t: Thread) {
    t in s.todo && s.todo[t] != []
  }

  /** The one thread a thread waits for: the holder of the lock it wants, or the
      worker it joins. */
  ghost predicate WaitsFor(s: State, t: Thread, u: Thread) {
    Busy(s, t) &&
    match s.todo[t][0]
    case Acquire(l) => l in s.holder && s.holder[l] == u
    case Join(worker) => worker in s.todo && worker == u
    case _ => false
  }

  /** A thread that can go on with what it is doing, or a worker that can end. */
  predicate Moves(s: State, t: Thread) {
    Enabled(s, Advance(t)) || (Worker(t) && Enabled(s, Finish(t)))
  }

  /** Each thread waits for the next, and the last one moves. */
  ghost predicate WaitChain(s: State, chain: seq<Thread>) {
    && chain != []
    && (forall i :: 0 <= i < |chain| - 1 ==> WaitsFor(s, chain[i], chain[i + 1]))
    && Moves(s, chain[|chain| - 1])
  }

  lemma ChainFrom(s: State, t: Thread, chain: seq<Thread>)
    requires WaitChain(s, chain) && WaitsFor(s, t, chain[0])
    ensures WaitChain(s, [t] + chain)
  {
  }

  /** Each thread but the last waits for a lock of higher rank than the one before. */
  ghost predicate Climbs(s: State, chain: seq<Thread>, rank: nat) {
    forall i :: 0 <= i < |chain| - 1 ==>
      Busy(s, chain[i]) && s.todo[chain[i]][0].Acquire? && Rank(s.todo[chain[i]][0].l) > rank + i
  }

  /** The holder of a lock moves, or waits for a lock of higher rank whose holder
      moves or waits in the same way: the log lock's holder always moves, and so on
      down. */
  lemma {:induction false} HolderMoves(s: State, l: Lock) returns (chain: seq<Thread>)
    requires Good(s) && l in s.holder
    ensures WaitChain(s, chain) && chain[0] == s.holder[l] && |chain| <= 3 - Rank(l)
    ensures Climbs(s, chain, Rank(l)) && Enabled(s, Advance(chain[|chain| - 1]))
    decreases 2 - Rank(l)
  {
    var t := s.holder[l];
    assert GoodThread(s, t) && l in Held(s, t);
    var act := s.todo[t][0];
    chain := [t];
    if act.Acquire? && act.l in s.holder {
      var more := HolderMoves(s, act.l);
      ChainFrom(s, t, more);
      chain := [t] + more;
    }
  }

  /** A thread whose next act is no join. */
  lemma LockChain(s: State, t: Thread) returns (chain: seq<Thread>)
    requires Good(s) && Busy(s, t) && !s.todo[t][0].Join?
    ensures WaitChain(s, chain) && chain[0] == t && |chain| <= 4
  {
    chain := [t];
    var act := s.todo[t][0];
    if act.Acquire? && act.l in s.holder {
      var more := HolderMoves(s, act.l);
      ChainFrom(s, t, more);
      chain := [t] + more;
    }
  }

  /** A worker waits for locks only, and one that is joined has been told to end. */
  lemma JoinedChain(s: State, t: Thread) returns (chain: seq<Thread>)
    requires Good(s) && Busy(s, t) && s.todo[t][0].Join? && s.todo[t][0].worker in s.todo
    ensures WaitChain(s, chain) && chain[0] == s.todo[t][0].worker && |chain| <= 4
  {
    var worker := s.todo[t][0].worker;
    assert GoodThread(s, t) && GoodThread(s, worker);
    if s.todo[worker] == [] {
      chain := [worker];
    } else {
      chain := LockChain(s, worker);
    }
  }

  lemma Unblocked(s: State, t: Thread) returns (chain: seq<Thread>)
    requires Good(s) && Busy(s, t)
    ensures WaitChain(s, chain) && chain[0] == t && |chain| <= 5
  {
    var act := s.todo[t][0];
    if act.Join? && act.worker in s.todo {
      var more := JoinedChain(s, t);
      ChainFrom(s, t, more);
      chain := [t] + more;
    } else if act.Join? {
      chain := [t];
    } else {
      chain := LockChain(s, t);
    }
  }

  /** Whatever a thread in the middle of something waits for, and whatever that waits
      for in turn: after four waits at most comes a thread that can go on, or a
      worker told to end that can end. */
  lemma NoDeadlock(steps: seq<Step>, t: Thread)
    requires Admissible(INITIAL, steps) && Busy(Exec(INITIAL, steps), t)
    ensures exists chain: seq<Thread> :: WaitChain(Exec(INITIAL, steps), chain) && chain[0] == t && |chain| <= 5
  {
    GoodAlong(INITIAL, steps);
    var chain := Unblocked(Exec(INITIAL, steps), t);
  }

  /** In every reachable state: who holds the log lock waits for nothing, who holds
      the display or the preset lock for no more than the log lock, and who waits for
      a worker or the module lock holds none. */
  lemma WaitingIsOrdered(steps: seq<Step>, t: Thread)
    requires Admissible(INITIAL, steps) && Busy(Exec(INITIAL, steps), t)
    ensures var s := Exec(INITIAL, steps);
            var act := s.todo[t][0];
            && (LogLock in Held(s, t) ==> !act.Acquire? && !act.Join?)
            && (DisplayLock in Held(s, t) || PresetLock in Held(s, t) ==>
                  !act.Join? && (act.Acquire? ==> act.l == LogLock))
            && (act.Acquire? && act.l == ModuleLock ==> Held(s, t) == {})
            && (act.Join? ==> Held(s, t) == {})
  {
    GoodAlong(INITIAL, steps);
    var s := Exec(INITIAL, steps);
    assert GoodThread(s, t);
    if s.todo[t][0].Acquire? && s.todo[t][0].l == ModuleLock {
      forall h ensures h !in Held(s, t) {
      }
    }
  }
}
