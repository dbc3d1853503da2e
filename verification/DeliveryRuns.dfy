/** Runs of the delivery lifecycle: bootstrap chains, the bridge, retries,
    shutdowns and callbacks that come late. */
module DeliveryRuns {
  import opened Wrappers
  import opened Delivery

  /** delivery_module's node: whether this process created it, and with what preset. */
  datatype Node = Node(own: bool, preset: string)

  /** A bootstrap before its start is dispatched, by the call it last sent or the
      answer on its way back. `Joining` has read this process's own preset and not
      yet told the display. */
  datatype Chain =
    | CreateSent(preset: string)
    | CreateDone(preset: string, ok: bool)
    | InfoSent(preset: string)
    | InfoDone(preset: string, ok: bool)
    | Joining(preset: string, adopted: bool)
    | Ready(preset: string)

  /** `Opening`: init has spawned the bridge and not yet seeded the display. */
  datatype Phase = Closed | Opening | Open

  /** One init's bridge: the topics the core asked for, those waiting and those
      handed on, whether it is inside its forwarding loop, and whether it has
      recorded a successful `nodeStarted`. */
  datatype Bridge = Bridge(
    requested: seq<string>, queued: seq<string>, forwarded: seq<string>, forwarding: bool, recorded: bool)

  /** Since the display was seeded: bootstraps begun, transitions into `Error`
      before the start, starts dispatched and `nodeStarted`s consumed. */
  datatype Tally = Tally(bootstraps: nat, errors: nat, dispatched: nat, consumed: nat)

  /** `starts` counts start calls not answered. */
  datatype World = World(
    phase: Phase,
    d: DeliveryState,
    node: Option<Node>,
    ownPreset: Option<string>,
    chains: multiset<Chain>,
    starts: nat,
    bridge: Bridge,
    tally: Tally)

  const NO_BRIDGE := Bridge([], [], [], false, false)
  const NO_TALLY := Tally(0, 0, 0, 0)
  const INITIAL := World(Closed, STOPPED, None, None, multiset{}, 0, NO_BRIDGE, NO_TALLY)

  /** What delivery_module does with a chain's call, what its answer's callback
      does, and the dispatch of its start. */
  datatype ChainMove =
    | CreateHandled(preset: string, created: bool)
    | CreateAnswered(preset: string, ok: bool)
    | InfoHandled(preset: string, ok: bool)
    | InfoAnswered(preset: string, ok: bool, reason: string)
    | JoinRecorded(preset: string, adopted: bool)
    | StartDispatched(preset: string)

  datatype BridgeMove = Subscribed(topic: string) | ForwardingBegins | Forwarded | ForwardingEnds

  datatype Step =
    | SpawnBridge(topics: seq<string>)
    | Seed
    | Bootstrap(preset: string)
    | Retry(preset: string)
    | OnChain(chain: ChainMove)
    | OnBridge(act: BridgeMove)
    | StartAnswered(ok: bool, reason: string)
    | NodeEvent(event: NodeStarted)
    | ConnectionEvent(status: Status)
    | OtherCreates(preset: string)
    | Shutdown
    | ProcessRestarts

  /** createNode succeeds only while no node exists, and getNodeInfo only once one does. */
  predicate ChainEnabled(chains: multiset<Chain>, node: Option<Node>, move: ChainMove) {
    match move
    case CreateHandled(preset, created) => CreateSent(preset) in chains && (created ==> node.None?)
    case CreateAnswered(preset, ok) => CreateDone(preset, ok) in chains
    case InfoHandled(preset, ok) => InfoSent(preset) in chains && (ok ==> node.Some?)
    case InfoAnswered(preset, ok, _) => InfoDone(preset, ok) in chains
    case JoinRecorded(preset, adopted) => Joining(preset, adopted) in chains
    case StartDispatched(preset) => Ready(preset) in chains
  }

  predicate BridgeEnabled(w: World, act: BridgeMove) {
    match act
    case Subscribed(_) => !w.phase.Closed?
    case ForwardingBegins => !w.phase.Closed? && w.d.state == Online
    case Forwarded => w.bridge.forwarding && w.bridge.queued != []
    case ForwardingEnds => w.bridge.forwarding
  }

  /** The node never goes away while delivery_module runs. Inits and shutdowns are serialised. */
  predicate Enabled(w: World, step: Step) {
    match step
    case SpawnBridge(_) => w.phase.Closed?
    case Seed => w.phase.Opening?
    case Bootstrap(_) => w.phase.Open? && w.tally.bootstraps == 0
    case Retry(_) => w.phase.Open? && w.tally.bootstraps > 0 && Retryable(w.d)
    case OnChain(move) => ChainEnabled(w.chains, w.node, move)
    case OnBridge(act) => BridgeEnabled(w, act)
    case StartAnswered(_, _) => w.starts > 0
    case NodeEvent(_) => !w.phase.Closed?
    case ConnectionEvent(_) => !w.phase.Closed?
    case OtherCreates(_) => w.node.None?
    case Shutdown => w.phase.Open?
    case ProcessRestarts => true
  }

  function Moved(w: World, from: Chain, to: Chain): multiset<Chain> {
    w.chains - multiset{from} + multiset{to}
  }

  /** The world with delivery state `d`, a transition into `Error` before the start counted. */
  function Reporting(w: World, d: DeliveryState): World {
    var errors := if d.state == Error && w.d.state != Error && !w.d.started then w.tally.errors + 1 else w.tally.errors;
    w.(d := d, tally := w.tally.(errors := errors))
  }

  function Begun(w: World, preset: string): World {
    w.(chains := w.chains + multiset{CreateSent(preset)}, tally := w.tally.(bootstraps := w.tally.bootstraps + 1))
  }

  /** What delivery_module and its answers do to the bootstrap chains. */
  function AfterChainMove(w: World, move: ChainMove): World {
    match move
    case CreateHandled(preset, created) =>
      w.(chains := Moved(w, CreateSent(preset), CreateDone(preset, created)),
         node := if created then Some(Node(true, preset)) else w.node)
    case CreateAnswered(preset, ok) =>
      if ok
      then w.(chains := Moved(w, CreateDone(preset, ok), Ready(preset)), ownPreset := Some(preset))
      else w.(chains := Moved(w, CreateDone(preset, ok), InfoSent(preset)))
    case InfoHandled(preset, ok) => w.(chains := Moved(w, InfoSent(preset), InfoDone(preset, ok)))
    case InfoAnswered(preset, ok, reason) =>
      if ok
      then w.(chains := Moved(w, InfoDone(preset, ok), Joining(preset, Adopts(w.ownPreset, preset))))
      else Reporting(w, AfterCreateFailed(w.d, reason)).(chains := w.chains - multiset{InfoDone(preset, ok)})
    case JoinRecorded(preset, adopted) =>
      w.(chains := Moved(w, Joining(preset, adopted), Ready(preset)), d := AfterJoining(w.d, adopted))
    case StartDispatched(preset) =>
      w.(chains := w.chains - multiset{Ready(preset)}, d := AfterDispatch(w.d),
         starts := w.starts + 1, tally := w.tally.(dispatched := w.tally.dispatched + 1))
  }

  function AfterBridgeMove(bridge: Bridge, act: BridgeMove): Bridge {
    match act
    case Subscribed(topic) => bridge.(requested := bridge.requested + [topic], queued := bridge.queued + [topic])
    case ForwardingBegins => bridge.(forwarding := true)
    case Forwarded =>
      if bridge.queued == [] then bridge
      else bridge.(forwarded := bridge.forwarded + [bridge.queued[0]], queued := bridge.queued[1..])
    case ForwardingEnds => bridge.(forwarding := false)
  }

  function AfterEvent(w: World, event: NodeStarted): World {
    if !w.d.starting then w else
    var w' := Reporting(w, AfterNodeStarted(w.d, event));
    w'.(tally := w'.tally.(consumed := w.tally.consumed + 1),
        bridge := w.bridge.(recorded := w.bridge.recorded || event.success))
  }

  function AfterStartAnswered(w: World, ok: bool, reason: string): World {
    var w' := if ok then w else Reporting(w, AfterStartFailed(w.d, reason));
    w'.(starts := if w.starts == 0 then 0 else w.starts - 1)
  }

  function Apply(w: World, step: Step): World {
    match step
    case SpawnBridge(topics) => w.(phase := Opening, bridge := Bridge(topics, topics, [], false, false))
    case Seed => w.(phase := Open, d := INITIALISING, tally := NO_TALLY)
    case Bootstrap(preset) => Begun(w, preset)
    case Retry(preset) => Begun(w.(d := AfterClaim(w.d)), preset)
    case OnChain(move) => AfterChainMove(w, move)
    case OnBridge(act) => w.(bridge := AfterBridgeMove(w.bridge, act))
    case StartAnswered(ok, reason) => AfterStartAnswered(w, ok, reason)
    case NodeEvent(event) => AfterEvent(w, event)
    case ConnectionEvent(status) => Reporting(w, AfterConnection(w.d, status))
    case OtherCreates(preset) => w.(node := Some(Node(false, preset)))
    case Shutdown => w.(phase := Closed, d := STOPPED, bridge := w.bridge.(forwarding := false))
    case ProcessRestarts => INITIAL.(node := if w.node.Some? then Some(w.node.value.(own := false)) else None)
  }

  function Exec(w: World, steps: seq<Step>): World
    decreases |steps|
  {
    if steps == [] then w else Exec(Apply(w, steps[0]), steps[1..])
  }

  /** Every step is enabled when its turn comes. */
  predicate Admissible(w: World, steps: seq<Step>)
    decreases |steps|
  {
    steps == [] || (Enabled(w, steps[0]) && Admissible(Apply(w, steps[0]), steps[1..]))
  }

  /** One more step at the end of a run. */
  lemma {:induction false} OneMore(w: World, steps: seq<Step>, step: Step)
    requires Admissible(w, steps) && Enabled(Exec(w, steps), step)
    ensures Admissible(w, steps + [step]) && Exec(w, steps + [step]) == Apply(Exec(w, steps), step)
    decreases |steps|
  {
    if steps == [] {
      assert [step][1..] == [];
    } else {
      assert (steps + [step])[1..] == steps[1..] + [step];
      OneMore(Apply(w, steps[0]), steps[1..], step);
    }
  }

  // ── Readiness ──────────────────────────────────────────────────────────────

  ghost predicate Readiness(w: World) {
    && (w.d.state == Online ==> w.d.started)
    && (w.d.started ==> w.d.state == Online || w.d.state == Error)
    && (w.d.started ==> w.bridge.recorded && !w.phase.Closed?)
    && (w.bridge.forwarding || w.bridge.forwarded != [] ==> w.bridge.recorded)
    && w.bridge.forwarded + w.bridge.queued == w.bridge.requested
  }

  lemma BridgeKeepsReadiness(w: World, act: BridgeMove)
    requires Readiness(w) && BridgeEnabled(w, act)
    ensures Readiness(w.(bridge := AfterBridgeMove(w.bridge, act)))
  {
  }

  lemma ChainKeepsReadiness(w: World, move: ChainMove)
    requires Readiness(w)
    ensures Readiness(AfterChainMove(w, move))
  {
  }

  lemma ReadinessIsKept(w: World, step: Step)
    requires Readiness(w) && Enabled(w, step)
    ensures Readiness(Apply(w, step))
  {
    match step
    case OnBridge(act) => BridgeKeepsReadiness(w, act);
    case OnChain(move) => ChainKeepsReadiness(w, move);
    case _ =>
  }

  lemma {:induction false} ReadinessAlong(w: World, steps: seq<Step>)
    requires Readiness(w) && Admissible(w, steps)
    ensures Readiness(Exec(w, steps))
    decreases |steps|
  {
    if steps != [] {
      ReadinessIsKept(w, steps[0]);
      ReadinessAlong(Apply(w, steps[0]), steps[1..]);
    }
  }
}
