/** What every run of the delivery lifecycle keeps. */
module DeliveryTheorems {
  import opened Wrappers
  import opened Delivery
  import opened DeliveryRuns

  // ── Readiness ──────────────────────────────────────────────────────────────

  /** Late callbacks and any order of events included: online means started, and
      started means online or in error. */
  lemma OnlineMeansStarted(steps: seq<Step>)
    requires Admissible(INITIAL, steps)
    ensures var d := Exec(INITIAL, steps).d;
            && (d.state == Online ==> d.started)
            && (d.started ==> d.state == Online || d.state == Error)
            && (Exec(INITIAL, steps).phase.Closed? ==> !d.started)
  {
    ReadinessAlong(INITIAL, steps);
  }

  /** A success recorded under an awaited start makes delivery online, and the bridge
      can begin to forward. */
  lemma ASuccessBringsOnline(w: World, message: string)
    requires Enabled(w, NodeEvent(NodeStarted(true, message))) && w.d.starting
    ensures var w' := Apply(w, NodeEvent(NodeStarted(true, message)));
            && w'.d.state == Online && w'.d.detail == NoDetail && w'.d.started && !w'.d.starting && w'.bridge.recorded
            && Enabled(w', OnBridge(ForwardingBegins))
  {
    NodeStartedReports(w.d, NodeStarted(true, message));
  }

  /** What can take delivery off line again. */
  predicate Unsettles(step: Step) {
    || Ends(step) || step.Seed? || (step.ConnectionEvent? && step.status.Other?)
    || (step.StartAnswered? && !step.ok) || (step.NodeEvent? && !step.event.success)
    || (step.OnChain? && step.chain.InfoAnswered? && !step.chain.ok)
  }

  lemma StepStaysOnline(w: World, step: Step)
    requires Enabled(w, step) && w.phase.Open? && w.d.state == Online && w.d.started && !Unsettles(step)
    ensures Apply(w, step).phase.Open? && Apply(w, step).d.state == Online && Apply(w, step).d.started
  {
  }

  lemma {:induction false} StaysOnline(w: World, steps: seq<Step>)
    requires w.phase.Open? && w.d.state == Online && w.d.started && Admissible(w, steps)
    requires forall i :: 0 <= i < |steps| ==> !Unsettles(steps[i])
    ensures Exec(w, steps).phase.Open? && Exec(w, steps).d.state == Online && Exec(w, steps).d.started
    decreases |steps|
  {
    if steps != [] {
      StepStaysOnline(w, steps[0]);
      StaysOnline(Apply(w, steps[0]), steps[1..]);
    }
  }

  /** A success recorded on a seeded display: delivery is online from then on, until
      connectivity says otherwise, a call fails late, or the session ends. */
  lemma OnlineFromTheStartOn(w: World, message: string, later: seq<Step>)
    requires w.phase.Open? && w.d.starting
    requires Admissible(Apply(w, NodeEvent(NodeStarted(true, message))), later)
    requires forall i :: 0 <= i < |later| ==> !Unsettles(later[i])
    ensures var w' := Exec(Apply(w, NodeEvent(NodeStarted(true, message))), later);
            w'.d.state == Online && w'.d.started && Enabled(w', OnBridge(ForwardingBegins))
  {
    ASuccessBringsOnline(w, message);
    StaysOnline(Apply(w, NodeEvent(NodeStarted(true, message))), later);
  }

  predicate Ends(step: Step) {
    step.Shutdown? || step.ProcessRestarts?
  }

  /** A started delivery is unmade by the end of its init, or by the seeding of
      one whose bridge recorded the start too early, and by nothing else. */
  lemma StartedIsLostBy(w: World, step: Step)
    requires Enabled(w, step) && w.d.started
    ensures !Apply(w, step).d.started <==> Ends(step) || step.Seed?
  {
  }

  /** From the seeding on, `started` stays until shutdown, and nothing is retried. */
  lemma {:induction false} StartedStays(w: World, steps: seq<Step>)
    requires w.phase.Open? && w.d.started && Admissible(w, steps)
    requires forall i :: 0 <= i < |steps| ==> !Ends(steps[i])
    ensures Exec(w, steps).phase.Open? && Exec(w, steps).d.started
    ensures forall i :: 0 <= i < |steps| ==> !steps[i].Retry?
    decreases |steps|
  {
    if steps != [] {
      StartedIsLostBy(w, steps[0]);
      StartedStays(Apply(w, steps[0]), steps[1..]);
      forall i | 0 <= i < |steps| ensures !steps[i].Retry? {
        assert i > 0 ==> steps[i] == steps[1..][i - 1];
      }
    }
  }

  // ── Subscriptions ──────────────────────────────────────────────────────────

  /** Step `i` recorded a successful `nodeStarted` for the bridge that is running
      at the end of the run. */
  ghost predicate RecordedAt(w: World, steps: seq<Step>, i: nat) {
    && i < |steps|
    && steps[i].NodeEvent? && steps[i].event.success && Exec(w, steps[..i]).d.starting
    && forall j :: i <= j < |steps| ==> !steps[j].SpawnBridge?
  }

  lemma RecordedBy(w: World, step: Step)
    requires Enabled(w, step) && Apply(w, step).bridge.recorded
    ensures !step.SpawnBridge?
    ensures w.bridge.recorded || (step.NodeEvent? && step.event.success && w.d.starting)
  {
  }

  lemma RecordedLater(w: World, steps: seq<Step>, i: nat)
    requires steps != [] && RecordedAt(Apply(w, steps[0]), steps[1..], i)
    ensures RecordedAt(w, steps, i + 1)
  {
    assert steps[..i + 1][1..] == steps[1..][..i];
    forall j | i + 1 <= j < |steps| ensures !steps[j].SpawnBridge? {
      assert steps[j] == steps[1..][j - 1];
    }
  }

  /** What a bridge has recorded it recorded during its own life. */
  lemma {:induction false} RecordedSomewhere(w: World, steps: seq<Step>) returns (i: nat)
    requires Admissible(w, steps) && Exec(w, steps).bridge.recorded
    ensures RecordedAt(w, steps, i) || (w.bridge.recorded && forall j :: 0 <= j < |steps| ==> !steps[j].SpawnBridge?)
    decreases |steps|
  {
    i := 0;
    if steps != [] {
      var w1 := Apply(w, steps[0]);
      i := RecordedSomewhere(w1, steps[1..]);
      if RecordedAt(w1, steps[1..], i) {
        RecordedLater(w, steps, i);
        i := i + 1;
      } else {
        RecordedBy(w, steps[0]);
        forall j | 0 <= j < |steps| ensures !steps[j].SpawnBridge? {
          assert j > 0 ==> steps[j] == steps[1..][j - 1];
        }
        i := 0;
      }
    }
  }

  /** The topics asked of the bridge that is running, told from the steps alone. */
  function Asked(asked: seq<string>, steps: seq<Step>): seq<string>
    decreases |steps|
  {
    if steps == [] then asked
    else Asked(match steps[0]
               case SpawnBridge(topics) => topics
               case OnBridge(act) => if act.Subscribed? then asked + [act.topic] else asked
               case ProcessRestarts => []
               case _ => asked, steps[1..])
  }

  lemma {:induction false} AskedAlong(w: World, steps: seq<Step>)
    ensures Exec(w, steps).bridge.requested == Asked(w.bridge.requested, steps)
    decreases |steps|
  {
    if steps != [] {
      AskedAlong(Apply(w, steps[0]), steps[1..]);
    }
  }

  /** Topics are handed on in the order they were asked for, none lost and none
      twice, and only after this bridge recorded a successful `nodeStarted`. */
  lemma SubscriptionsAreGated(steps: seq<Step>)
    requires Admissible(INITIAL, steps)
    ensures var bridge := Exec(INITIAL, steps).bridge;
            && bridge.forwarded + bridge.queued == Asked([], steps)
            && (bridge.forwarded != [] || bridge.forwarding ==> exists i :: RecordedAt(INITIAL, steps, i))
  {
    AskedAlong(INITIAL, steps);
    ReadinessAlong(INITIAL, steps);
    if Exec(INITIAL, steps).bridge.recorded {
      var i := RecordedSomewhere(INITIAL, steps);
    }
  }

  /** One turn of the bridge's forwarding loop, from inside it. */
  function Drain(n: nat): seq<Step> {
    if n == 0 then [OnBridge(ForwardingEnds)] else [OnBridge(Forwarded)] + Drain(n - 1)
  }

  lemma {:induction false} DrainForwards(w: World)
    requires w.bridge.forwarding
    ensures Admissible(w, Drain(|w.bridge.queued|))
    ensures var bridge := Exec(w, Drain(|w.bridge.queued|)).bridge;
            bridge.queued == [] && bridge.forwarded == w.bridge.forwarded + w.bridge.queued && !bridge.forwarding
    decreases |w.bridge.queued|
  {
    var n := |w.bridge.queued|;
    if n == 0 {
      assert Drain(0)[1..] == [];
      assert w.bridge.forwarded + [] == w.bridge.forwarded;
    } else {
      var step := OnBridge(Forwarded);
      assert Drain(n)[0] == step && Drain(n)[1..] == Drain(n - 1);
      DrainForwards(Apply(w, step));
      assert w.bridge.forwarded + [w.bridge.queued[0]] + w.bridge.queued[1..] == w.bridge.forwarded + w.bridge.queued;
    }
  }

  /** Online, the bridge can hand on all that was asked of it, and be through. */
  lemma EveryTopicCanBeForwarded(steps: seq<Step>)
    requires Admissible(INITIAL, steps) && Exec(INITIAL, steps).d.state == Online
    ensures var w := Exec(INITIAL, steps);
            var more := [OnBridge(ForwardingBegins)] + Drain(|w.bridge.queued|);
            Admissible(w, more) && Exec(w, more).bridge.forwarded == Asked([], steps) && Exec(w, more).bridge.queued == []
  {
    var w := Exec(INITIAL, steps);
    SubscriptionsAreGated(steps);
    OnlineMeansStarted(steps);
    var more := [OnBridge(ForwardingBegins)] + Drain(|w.bridge.queued|);
    assert more[1..] == Drain(|w.bridge.queued|);
    DrainForwards(Apply(w, more[0]));
  }

  // ── What one step does ─────────────────────────────────────────────────────

  /** What each step leaves of the delivery state, the node and the starts under way. */
  lemma StepsReport(w: World, step: Step)
    requires Enabled(w, step)
    ensures var w' := Apply(w, step);
            match step
            case Seed => w'.phase.Open? && w'.d == DeliveryState(Initialising, NoDetail, false, false, false) && w'.node == w.node
            case Shutdown => w'.phase.Closed? && w'.d == DeliveryState(Stopped, NoDetail, false, false, false)
                             && !w'.bridge.forwarding && w'.node == w.node && w'.chains == w.chains && w'.starts == w.starts
            case ProcessRestarts =>
              && w'.phase.Closed? && w'.d.state == Stopped && w'.chains == multiset{} && w'.starts == 0 && w'.ownPreset == None
              && (w'.node.Some? <==> w.node.Some?)
              && (w.node.Some? ==> w'.node == Some(Node(false, w.node.value.preset)))
            case OtherCreates(preset) => w' == w.(node := Some(Node(false, preset)))
            case StartAnswered(ok, reason) =>
              && w'.starts == w.starts - 1
              && (if ok then w'.d == w.d else Reports(w.d, w'.d, Error, Detail.StartFailed(reason), false, w.d.started))
            case OnChain(StartDispatched(_)) =>
              w'.starts == w.starts + 1 && Reports(w.d, w'.d, w.d.state, w.d.detail, true, w.d.started)
            case OnChain(InfoAnswered(_, false, reason)) =>
              Reports(w.d, w'.d, Error, Detail.CreateFailed(reason), w.d.starting, w.d.started)
            case Retry(preset) =>
              CreateSent(preset) in w'.chains && w'.d.state == Initialising && w'.d.detail == NoDetail && !w'.d.started
            case Bootstrap(preset) => CreateSent(preset) in w'.chains && w'.d == w.d
            case NodeEvent(event) =>
              if !w.d.starting then w' == w
              else if event.success then Reports(w.d, w'.d, Online, NoDetail, false, true) && w'.bridge.recorded
              else Reports(w.d, w'.d, Error, Detail.StartFailed(event.message), false, w.d.started)
            case ConnectionEvent(status) =>
              if !w.d.started then w'.d == w.d
              else Reports(w.d, w'.d, if status.Other? then Error else Online, NoDetail, w.d.starting, true)
            case _ => w'.starts == w.starts
  {
    NodeStartedReports(w.d, if step.NodeEvent? then step.event else NodeStarted(true, ""));
    ConnectionReports(w.d, if step.ConnectionEvent? then step.status else Connected);
  }

  // ── Retries ────────────────────────────────────────────────────────────────

  ghost predicate Bounded(w: World) {
    && w.tally.bootstraps + (if Retryable(w.d) then 1 else 0) <= 1 + w.tally.errors
    && (Retryable(w.d) ==> w.tally.errors > 0)
    && w.tally.consumed + (if w.d.starting then 1 else 0) <= w.tally.dispatched
  }

  lemma ChainMoveIsBounded(w: World, move: ChainMove)
    requires Bounded(w)
    ensures Bounded(AfterChainMove(w, move))
  {
  }

  lemma EventIsBounded(w: World, event: NodeStarted)
    requires Bounded(w)
    ensures Bounded(AfterEvent(w, event))
  {
  }

  lemma AnswerIsBounded(w: World, ok: bool, reason: string)
    requires Bounded(w)
    ensures Bounded(AfterStartAnswered(w, ok, reason))
  {
  }

  lemma BoundedIsKept(w: World, step: Step)
    requires Enabled(w, step) && w.phase.Open? && Bounded(w)
    ensures Apply(w, step).phase.Open? ==> Bounded(Apply(w, step))
  {
    match step
    case OnChain(move) => ChainMoveIsBounded(w, move);
    case NodeEvent(event) => EventIsBounded(w, event);
    case StartAnswered(ok, reason) => AnswerIsBounded(w, ok, reason);
    case _ =>
  }

  lemma SeedIsBounded(w: World, step: Step)
    requires Enabled(w, step) && !w.phase.Open? && Apply(w, step).phase.Open?
    ensures Bounded(Apply(w, step))
  {
  }

  lemma {:induction false} BoundedAlong(w: World, steps: seq<Step>)
    requires Admissible(w, steps) && (w.phase.Open? ==> Bounded(w))
    ensures Exec(w, steps).phase.Open? ==> Bounded(Exec(w, steps))
    decreases |steps|
  {
    if steps != [] {
      if w.phase.Open? {
        BoundedIsKept(w, steps[0]);
      } else if Apply(w, steps[0]).phase.Open? {
        SeedIsBounded(w, steps[0]);
      }
      BoundedAlong(Apply(w, steps[0]), steps[1..]);
    }
  }

  /** How many steps since the last seeding are of a kind, told from the run alone. */
  function Since(w: World, steps: seq<Step>, kind: (World, Step) -> bool, n: nat): nat
    decreases |steps|
  {
    if steps == [] then n
    else Since(Apply(w, steps[0]), steps[1..], kind,
               if steps[0].Seed? then 0 else if kind(w, steps[0]) then n + 1 else n)
  }

  function Tries(): (World, Step) -> bool {
    (w: World, step: Step) => step.Bootstrap? || step.Retry?
  }

  /** Delivery goes into error before a start. */
  function Fails(): (World, Step) -> bool {
    (w: World, step: Step) => !w.d.started && w.d.state != Error && Apply(w, step).d.state == Error
  }

  function Starts(): (World, Step) -> bool {
    (w: World, step: Step) => step.OnChain? && step.chain.StartDispatched?
  }

  /** A `nodeStarted` that counts. */
  function Hears(): (World, Step) -> bool {
    (w: World, step: Step) => step.NodeEvent? && w.d.starting
  }

  lemma StepTallies(w: World, step: Step)
    requires Enabled(w, step) && Apply(w, step).phase.Open? && !step.Seed?
    ensures w.phase.Open?
    ensures var t, t' := w.tally, Apply(w, step).tally;
            && t'.bootstraps == t.bootstraps + (if Tries()(w, step) then 1 else 0)
            && t'.errors == t.errors + (if Fails()(w, step) then 1 else 0)
            && t'.dispatched == t.dispatched + (if Starts()(w, step) then 1 else 0)
            && t'.consumed == t.consumed + (if Hears()(w, step) then 1 else 0)
  {
  }

  function Bootstraps(t: Tally): nat { t.bootstraps }

  function Errors(t: Tally): nat { t.errors }

  function Dispatched(t: Tally): nat { t.dispatched }

  function Consumed(t: Tally): nat { t.consumed }

  /** `of` is the entry of the tally for steps of that kind. */
  ghost predicate Counts(kind: (World, Step) -> bool, of: Tally -> nat) {
    && of(NO_TALLY) == 0
    && forall w, step :: Enabled(w, step) && Apply(w, step).phase.Open? && !step.Seed? ==>
         w.phase.Open? && of(Apply(w, step).tally) == of(w.tally) + (if kind(w, step) then 1 else 0)
  }

  lemma {:induction false} TallyCounts(w: World, steps: seq<Step>, kind: (World, Step) -> bool, of: Tally -> nat, n: nat)
    requires Counts(kind, of) && Admissible(w, steps) && (w.phase.Open? ==> of(w.tally) == n) && Exec(w, steps).phase.Open?
    ensures of(Exec(w, steps).tally) == Since(w, steps, kind, n)
    decreases |steps|
  {
    if steps != [] {
      var w' := Apply(w, steps[0]);
      TallyCounts(w', steps[1..], kind, of, if steps[0].Seed? then 0 else if kind(w, steps[0]) then n + 1 else n);
    }
  }

  lemma EachIsCounted()
    ensures Counts(Tries(), Bootstraps) && Counts(Fails(), Errors)
    ensures Counts(Starts(), Dispatched) && Counts(Hears(), Consumed)
  {
    forall w, step | Enabled(w, step) && Apply(w, step).phase.Open? && !step.Seed?
      ensures w.phase.Open?
      ensures var t, t' := w.tally, Apply(w, step).tally;
              && t'.bootstraps == t.bootstraps + (if Tries()(w, step) then 1 else 0)
              && t'.errors == t.errors + (if Fails()(w, step) then 1 else 0)
              && t'.dispatched == t.dispatched + (if Starts()(w, step) then 1 else 0)
              && t'.consumed == t.consumed + (if Hears()(w, step) then 1 else 0)
    {
      StepTallies(w, step);
    }
  }

  /** Within one init, every bootstrap but the first answers its own transition
      into `Error`, and each dispatched start is reported at most once. */
  lemma RetriesAreBounded(steps: seq<Step>)
    requires Admissible(INITIAL, steps) && Exec(INITIAL, steps).phase.Open?
    ensures Since(INITIAL, steps, Tries(), 0) <= 1 + Since(INITIAL, steps, Fails(), 0)
    ensures Since(INITIAL, steps, Hears(), 0) <= Since(INITIAL, steps, Starts(), 0)
  {
    BoundedAlong(INITIAL, steps);
    EachIsCounted();
    TallyCounts(INITIAL, steps, Tries(), Bootstraps, 0);
    TallyCounts(INITIAL, steps, Fails(), Errors, 0);
    TallyCounts(INITIAL, steps, Starts(), Dispatched, 0);
    TallyCounts(INITIAL, steps, Hears(), Consumed, 0);
  }

  // ── Adoption ───────────────────────────────────────────────────────────────

  /** The node that exists is one this process created with `preset`. */
  predicate Ours(w: World, preset: string) {
    w.node == Some(Node(true, preset))
  }

  /** What the process remembers of its own node, against what it did: a creation
      is either remembered or its answer is still on the way, never both. */
  ghost predicate RemembersAt(w: World, preset: string) {
    && w.chains[CreateDone(preset, true)] == (if Ours(w, preset) && w.ownPreset.None? then 1 else 0)
    && (InfoDone(preset, true) in w.chains || Joining(preset, true) in w.chains || Ready(preset) in w.chains ==> w.node.Some?)
    && (Joining(preset, false) in w.chains ==> Ours(w, preset))
  }

  ghost predicate Remembers(w: World) {
    && (w.ownPreset.Some? ==> Ours(w, w.ownPreset.value))
    && forall preset :: RemembersAt(w, preset)
  }

  function Before(move: ChainMove): Chain {
    match move
    case CreateHandled(preset, _) => CreateSent(preset)
    case CreateAnswered(preset, ok) => CreateDone(preset, ok)
    case InfoHandled(preset, _) => InfoSent(preset)
    case InfoAnswered(preset, ok, _) => InfoDone(preset, ok)
    case JoinRecorded(preset, adopted) => Joining(preset, adopted)
    case StartDispatched(preset) => Ready(preset)
  }

  /** Where the move takes its chain, unless it dispatches the start or fails. */
  function Next(move: ChainMove, ownPreset: Option<string>): Option<Chain> {
    match move
    case CreateHandled(preset, created) => Some(CreateDone(preset, created))
    case CreateAnswered(preset, ok) => Some(if ok then Ready(preset) else InfoSent(preset))
    case InfoHandled(preset, ok) => Some(InfoDone(preset, ok))
    case InfoAnswered(preset, ok, _) => if ok then Some(Joining(preset, Adopts(ownPreset, preset))) else None
    case JoinRecorded(preset, _) => Some(Ready(preset))
    case StartDispatched(_) => None
  }

  lemma MoveCounts(w: World, move: ChainMove, chain: Chain)
    requires ChainEnabled(w.chains, w.node, move)
    ensures AfterChainMove(w, move).chains[chain] ==
              w.chains[chain] - (if chain == Before(move) then 1 else 0) + (if Next(move, w.ownPreset) == Some(chain) then 1 else 0)
  {
    assert w.chains[Before(move)] > 0;
    var rest := w.chains - multiset{Before(move)};
    assert AfterChainMove(w, move).chains ==
             if Next(move, w.ownPreset).Some? then rest + multiset{Next(move, w.ownPreset).value} else rest;
  }

  lemma ChainMoveRemembersAt(w: World, move: ChainMove, preset: string)
    requires ChainEnabled(w.chains, w.node, move)
    requires w.ownPreset.Some? ==> Ours(w, w.ownPreset.value)
    requires RemembersAt(w, preset) && RemembersAt(w, move.preset)
    ensures RemembersAt(AfterChainMove(w, move), preset)
  {
    MoveCounts(w, move, CreateDone(preset, true));
    MoveCounts(w, move, InfoDone(preset, true));
    MoveCounts(w, move, Joining(preset, true));
    MoveCounts(w, move, Joining(preset, false));
    MoveCounts(w, move, Ready(preset));
  }

  lemma ChainMoveRemembers(w: World, move: ChainMove)
    requires ChainEnabled(w.chains, w.node, move) && Remembers(w)
    ensures Remembers(AfterChainMove(w, move))
  {
    assert RemembersAt(w, move.preset);
    forall preset ensures RemembersAt(AfterChainMove(w, move), preset) {
      assert RemembersAt(w, preset);
      ChainMoveRemembersAt(w, move, preset);
    }
  }

  /** Nothing but chains, creations and a process restart touches what is remembered. */
  lemma OthersRemember(w: World, step: Step, preset: string)
    requires Enabled(w, step) && !step.OnChain?
    requires w.ownPreset.Some? ==> Ours(w, w.ownPreset.value)
    requires RemembersAt(w, preset)
    ensures RemembersAt(Apply(w, step), preset)
  {
  }

  lemma RemembersIsKept(w: World, step: Step)
    requires Remembers(w) && Enabled(w, step)
    ensures Remembers(Apply(w, step))
  {
    match step
    case OnChain(move) => ChainMoveRemembers(w, move);
    case _ =>
      forall preset ensures RemembersAt(Apply(w, step), preset) {
        assert RemembersAt(w, preset);
        OthersRemember(w, step, preset);
      }
  }

  lemma {:induction false} RemembersAlong(w: World, steps: seq<Step>)
    requires Remembers(w) && Admissible(w, steps)
    ensures Remembers(Exec(w, steps))
    decreases |steps|
  {
    if steps != [] {
      RemembersIsKept(w, steps[0]);
      RemembersAlong(Apply(w, steps[0]), steps[1..]);
    }
  }

  /** A node that exists stays what it is until delivery_module's process ends. */
  lemma {:induction false} NodeStays(w: World, steps: seq<Step>)
    requires w.node.Some? && Admissible(w, steps)
    requires forall i :: 0 <= i < |steps| ==> !steps[i].ProcessRestarts?
    ensures Exec(w, steps).node == w.node
    decreases |steps|
  {
    if steps != [] {
      NodeStaysFor(w, steps[0]);
      NodeStays(Apply(w, steps[0]), steps[1..]);
    }
  }

  lemma NodeStaysFor(w: World, step: Step)
    requires w.node.Some? && Enabled(w, step) && !step.ProcessRestarts?
    ensures Apply(w, step).node == w.node
  {
  }

  /** In every run, late answers and overlapping chains included: whatever happens
      between reading this process's own preset and telling the display, joining a
      node reports it correctly exactly when, as the preset was read, no answer to
      this process's own creation with it was still on the way. */
  lemma JoiningReportsIff(steps: seq<Step>, preset: string, reason: string, between: seq<Step>)
    requires Admissible(INITIAL, steps) && InfoDone(preset, true) in Exec(INITIAL, steps).chains
    requires Admissible(AfterChainMove(Exec(INITIAL, steps), InfoAnswered(preset, true, reason)), between)
    requires forall i :: 0 <= i < |between| ==> !between[i].ProcessRestarts?
    ensures var w := Exec(INITIAL, steps);
            var adopted := Adopts(w.ownPreset, preset);
            var w' := Exec(AfterChainMove(w, InfoAnswered(preset, true, reason)), between);
            AfterChainMove(w', JoinRecorded(preset, adopted)).d.adopted == !Ours(w', preset)
            <==> CreateDone(preset, true) !in w.chains
  {
    RemembersAlong(INITIAL, steps);
    var w := Exec(INITIAL, steps);
    assert RemembersAt(w, preset);
    NodeStays(AfterChainMove(w, InfoAnswered(preset, true, reason)), between);
  }

  /** No bootstrap outlives its init, and none is retried while an answer to an
      earlier start is outstanding. */
  predicate Orderly(w: World, step: Step) {
    && (step.Shutdown? ==> w.chains == multiset{} && w.starts == 0)
    && (step.Retry? ==> w.starts == 0)
  }

  predicate OrderlyRun(w: World, steps: seq<Step>)
    decreases |steps|
  {
    steps == [] || (Orderly(w, steps[0]) && OrderlyRun(Apply(w, steps[0]), steps[1..]))
  }

  /** One chain at a time, and it is the only thing delivery is doing. */
  ghost predicate OneChain(w: World) {
    && |w.chains| <= 1
    && (w.chains != multiset{} ==>
          && w.phase.Open? && w.tally.bootstraps > 0 && w.starts == 0
          && w.d.state == Initialising && !w.d.starting && !w.d.started)
    && (w.phase.Open? && w.tally.bootstraps == 0 ==> w.d == INITIALISING && w.chains == multiset{} && w.starts == 0)
    && (!w.phase.Open? ==> w.d == STOPPED && w.starts == 0)
    && (Retryable(w.d) ==> !w.d.starting)
  }

  ghost predicate ReportsTruly(w: World) {
    && (w.d.adopted ==> w.node.Some?)
    && (forall preset :: CreateDone(preset, true) in w.chains ==> !w.d.adopted)
    && (forall preset, adopted :: Joining(preset, adopted) in w.chains ==> adopted == !Ours(w, preset))
    && (forall preset :: Ready(preset) in w.chains ==> w.d.adopted == !Ours(w, preset))
  }

  lemma TheOnlyChain(chains: multiset<Chain>, chain: Chain)
    requires |chains| <= 1 && chain in chains
    ensures chains == multiset{chain}
  {
    assert |chains - multiset{chain}| == 0;
    assert chains == chains - multiset{chain} + multiset{chain};
  }

  lemma OneChainMoves(w: World, move: ChainMove)
    requires OneChain(w) && ChainEnabled(w.chains, w.node, move)
    ensures OneChain(AfterChainMove(w, move))
  {
    TheOnlyChain(w.chains, Before(move));
  }

  lemma OneChainIsKept(w: World, step: Step)
    requires OneChain(w) && Orderly(w, step) && Enabled(w, step)
    ensures OneChain(Apply(w, step))
  {
    match step
    case OnChain(move) => OneChainMoves(w, move);
    case _ =>
  }

  lemma TheNextChain(w: World, move: ChainMove)
    requires OneChain(w) && ChainEnabled(w.chains, w.node, move)
    ensures w.chains == multiset{Before(move)}
    ensures AfterChainMove(w, move).chains ==
              match Next(move, w.ownPreset) case None => multiset{} case Some(next) => multiset{next}
  {
    TheOnlyChain(w.chains, Before(move));
    assert multiset{Before(move)} - multiset{Before(move)} == multiset{};
  }

  /** The only chain being what it is, the reports are true of it. */
  ghost predicate TrueOf(w: World, chain: Option<Chain>) {
    match chain
    case Some(CreateDone(_, true)) => !w.d.adopted
    case Some(Joining(preset, adopted)) => adopted == !Ours(w, preset)
    case Some(Ready(preset)) => w.d.adopted == !Ours(w, preset)
    case _ => true
  }

  lemma TrueOfTheOnlyChain(w: World, chain: Option<Chain>)
    requires w.chains == match chain case None => multiset{} case Some(c) => multiset{c}
    ensures ReportsTruly(w) <==> (w.d.adopted ==> w.node.Some?) && TrueOf(w, chain)
  {
  }

  lemma TrueOfTheNext(w: World, move: ChainMove)
    requires w.chains == multiset{Before(move)} && ChainEnabled(w.chains, w.node, move)
    requires RemembersAt(w, move.preset) && (w.ownPreset.Some? ==> Ours(w, w.ownPreset.value))
    requires (w.d.adopted ==> w.node.Some?) && TrueOf(w, Some(Before(move)))
    ensures var w' := AfterChainMove(w, move);
            (w'.d.adopted ==> w'.node.Some?) && TrueOf(w', Next(move, w.ownPreset))
  {
  }

  lemma TrueReportsMove(w: World, move: ChainMove)
    requires OneChain(w) && Remembers(w) && ReportsTruly(w) && ChainEnabled(w.chains, w.node, move)
    ensures ReportsTruly(AfterChainMove(w, move))
  {
    assert RemembersAt(w, move.preset);
    TheNextChain(w, move);
    TrueOfTheOnlyChain(w, Some(Before(move)));
    TrueOfTheNext(w, move);
    TrueOfTheOnlyChain(AfterChainMove(w, move), Next(move, w.ownPreset));
  }

  lemma ReportsTrulyIsKept(w: World, step: Step)
    requires OneChain(w) && Remembers(w) && ReportsTruly(w) && Orderly(w, step) && Enabled(w, step)
    ensures ReportsTruly(Apply(w, step))
  {
    match step
    case OnChain(move) => TrueReportsMove(w, move);
    case _ =>
  }

  lemma {:induction false} OrderlyRunsReportTruly(w: World, steps: seq<Step>)
    requires OneChain(w) && Remembers(w) && ReportsTruly(w)
    requires Admissible(w, steps) && OrderlyRun(w, steps)
    ensures OneChain(Exec(w, steps)) && ReportsTruly(Exec(w, steps))
    decreases |steps|
  {
    if steps != [] {
      RemembersIsKept(w, steps[0]);
      OneChainIsKept(w, steps[0]);
      ReportsTrulyIsKept(w, steps[0]);
      OrderlyRunsReportTruly(Apply(w, steps[0]), steps[1..]);
    }
  }

  /** Over any number of inits and retries with changing presets: when a start is
      dispatched for a preset, `adopted` says exactly that this process did not
      create the node with it. */
  lemma AdoptionIsReportedCorrectly(steps: seq<Step>, preset: string)
    requires Admissible(INITIAL, steps) && OrderlyRun(INITIAL, steps)
    requires Ready(preset) in Exec(INITIAL, steps).chains
    ensures Exec(INITIAL, steps).d.adopted <==> !Ours(Exec(INITIAL, steps), preset)
  {
    OrderlyRunsReportTruly(INITIAL, steps);
  }

  // ── Runs in which it goes wrong ────────────────────────────────────────────

  predicate NeverRetries(steps: seq<Step>) {
    forall i :: 0 <= i < |steps| ==> !steps[i].Retry?
  }

  predicate NeverShutsDown(steps: seq<Step>) {
    forall i :: 0 <= i < |steps| ==> !steps[i].Shutdown?
  }

  lemma Take(steps: seq<Step>, step: Step) returns (more: seq<Step>)
    requires Admissible(INITIAL, steps) && Enabled(Exec(INITIAL, steps), step)
    ensures Admissible(INITIAL, more) && Exec(INITIAL, more) == Apply(Exec(INITIAL, steps), step)
    ensures NeverRetries(steps) && !step.Retry? ==> NeverRetries(more)
    ensures NeverShutsDown(steps) && !step.Shutdown? ==> NeverShutsDown(more)
  {
    OneMore(INITIAL, steps, step);
    more := steps + [step];
  }

  /** A bootstrap whose creation has succeeded and not been answered. */
  lemma Creation() returns (steps: seq<Step>)
    ensures Admissible(INITIAL, steps) && NeverRetries(steps) && NeverShutsDown(steps)
    ensures Exec(INITIAL, steps) == INITIAL.(phase := Open, d := INITIALISING, chains := multiset{CreateDone("p", true)},
                                            node := Some(Node(true, "p")), tally := Tally(1, 0, 0, 0))
  {
    steps := Take([], SpawnBridge([]));
    steps := Take(steps, Seed);
    steps := Take(steps, Bootstrap("p"));
    steps := Take(steps, OnChain(CreateHandled("p", true)));
    assert Exec(INITIAL, steps).chains == multiset{CreateDone("p", true)};
  }

  /** A shutdown before the answer to a createNode that succeeded. */
  lemma LeftoverCreation() returns (steps: seq<Step>)
    ensures Admissible(INITIAL, steps) && NeverRetries(steps)
    ensures Exec(INITIAL, steps) == INITIAL.(chains := multiset{CreateDone("p", true)}, node := Some(Node(true, "p")),
                                            tally := Tally(1, 0, 0, 0))
  {
    steps := Creation();
    steps := Take(steps, Shutdown);
  }

  /** The other way to lose a start: one left over from before a shutdown is
      reported to the next bridge before its display is seeded. */
  lemma AnEarlyStartIsUnmade()
    ensures exists steps :: Admissible(INITIAL, steps) && Exec(INITIAL, steps).d.started
                         && Enabled(Exec(INITIAL, steps), Seed) && !Apply(Exec(INITIAL, steps), Seed).d.started
  {
    var s := LeftoverCreation();
    s := Take(s, OnChain(CreateAnswered("p", true)));
    s := Take(s, OnChain(StartDispatched("p")));
    s := Take(s, SpawnBridge([]));
    s := Take(s, NodeEvent(NodeStarted(true, "")));
  }

  /** The next init's bootstrap is refused by the node its own process created. */
  lemma RefusedByItsOwnNode() returns (steps: seq<Step>)
    ensures Admissible(INITIAL, steps) && NeverRetries(steps)
    ensures Exec(INITIAL, steps).chains == multiset{CreateDone("p", true), CreateDone("p", false)}
    ensures Ours(Exec(INITIAL, steps), "p") && Exec(INITIAL, steps).ownPreset == None
  {
    steps := LeftoverCreation();
    steps := Take(steps, SpawnBridge([]));
    steps := Take(steps, Seed);
    steps := Take(steps, Bootstrap("p"));
    steps := Take(steps, OnChain(CreateHandled("p", false)));
    assert Exec(INITIAL, steps).chains == multiset{CreateDone("p", true), CreateDone("p", false)};
  }

  /** A start about to be dispatched for the process's own node, reported adopted. */
  ghost predicate Misreports(w: World, preset: string) {
    Enabled(w, OnChain(StartDispatched(preset))) && w.d.adopted && Ours(w, preset)
  }

  /** Without the first half of that order it can be wrong, nothing being retried: a
      shutdown leaves a creation's answer on the way, and the next init takes the
      process's own node for another's. */
  lemma ALeftoverChainMisreports()
    ensures exists steps :: Admissible(INITIAL, steps) && NeverRetries(steps) && Misreports(Exec(INITIAL, steps), "p")
  {
    var s := RefusedByItsOwnNode();
    var answer := multiset{CreateDone("p", true)};
    s := TakeMove(s, CreateAnswered("p", false), answer);
    s := JoinedUnremembered(s, answer, "p");
  }

  /** A start that failed before its answer came, and the retry it led to. */
  lemma RetriedTooEarly() returns (steps: seq<Step>)
    ensures Admissible(INITIAL, steps) && NeverShutsDown(steps)
    ensures var w := Exec(INITIAL, steps);
            && w.chains == multiset{CreateSent("p")} && w.starts == 1 && w.phase.Open? && !w.d.started
            && w.tally.bootstraps > 0 && Ours(w, "p") && w.ownPreset == Some("p")
  {
    steps := Creation();
    steps := Take(steps, OnChain(CreateAnswered("p", true)));
    steps := Take(steps, OnChain(StartDispatched("p")));
    steps := Take(steps, NodeEvent(NodeStarted(false, "")));
    steps := Take(steps, Retry("p"));
    assert Exec(INITIAL, steps).chains == multiset{CreateSent("p")};
  }

  /** A bootstrap that finds the node there and joins it. */
  lemma Joins(steps: seq<Step>, others: multiset<Chain>, preset: string) returns (more: seq<Step>)
    requires Admissible(INITIAL, steps) && NeverShutsDown(steps)
    requires Exec(INITIAL, steps).chains == others + multiset{CreateSent(preset)} && Exec(INITIAL, steps).node.Some?
    ensures Admissible(INITIAL, more) && NeverShutsDown(more)
    ensures var w, w' := Exec(INITIAL, steps), Exec(INITIAL, more);
            && w'.chains == others + multiset{Ready(preset)} && w'.node == w.node && w'.ownPreset == w.ownPreset
            && w'.d.adopted == (w.ownPreset != Some(preset))
  {
    more := TakeMove(steps, CreateHandled(preset, false), others);
    more := TakeMove(more, CreateAnswered(preset, false), others);
    more := TakeMove(more, InfoHandled(preset, true), others);
    more := TakeMove(more, InfoAnswered(preset, true, ""), others);
    more := TakeMove(more, JoinRecorded(preset, Adopts(Exec(INITIAL, steps).ownPreset, preset)), others);
  }

  /** Nor without the second half, nothing being shut down: the late failure of the
      first start lets a retry overtake a retry, and the chain that joins last
      decides what both report. */
  lemma AnEarlyRetryMisreports()
    ensures exists steps :: Admissible(INITIAL, steps) && NeverShutsDown(steps) && Misreports(Exec(INITIAL, steps), "p")
  {
    var s := RetriedTooEarly();
    s := Take(s, StartAnswered(false, ""));
    s := Take(s, Retry("q"));
    assert Exec(INITIAL, s).chains == multiset{CreateSent("q")} + multiset{CreateSent("p")};
    s := Joins(s, multiset{CreateSent("q")}, "p");
    assert Exec(INITIAL, s).chains == multiset{Ready("p")} + multiset{CreateSent("q")};
    s := Joins(s, multiset{Ready("p")}, "q");
  }

  /** Joining a node with no own preset on record reports it adopted. */
  lemma JoinedUnremembered(steps: seq<Step>, others: multiset<Chain>, preset: string) returns (more: seq<Step>)
    requires Admissible(INITIAL, steps) && Exec(INITIAL, steps).chains == others + multiset{InfoSent(preset)}
    requires Exec(INITIAL, steps).node.Some? && Exec(INITIAL, steps).ownPreset.None?
    ensures Admissible(INITIAL, more) && (NeverRetries(steps) ==> NeverRetries(more))
    ensures Exec(INITIAL, more).chains == others + multiset{Ready(preset)}
    ensures Exec(INITIAL, more).node == Exec(INITIAL, steps).node && Exec(INITIAL, more).d.adopted
  {
    more := TakeMove(steps, InfoHandled(preset, true), others);
    more := TakeMove(more, InfoAnswered(preset, true, ""), others);
    more := TakeMove(more, JoinRecorded(preset, true), others);
  }

  lemma TakeMove(steps: seq<Step>, move: ChainMove, others: multiset<Chain>) returns (more: seq<Step>)
    requires Admissible(INITIAL, steps) && Exec(INITIAL, steps).chains == others + multiset{Before(move)}
    requires ChainEnabled(Exec(INITIAL, steps).chains, Exec(INITIAL, steps).node, move)
    ensures Admissible(INITIAL, more) && Exec(INITIAL, more) == AfterChainMove(Exec(INITIAL, steps), move)
    ensures NeverRetries(steps) ==> NeverRetries(more)
    ensures NeverShutsDown(steps) ==> NeverShutsDown(more)
    ensures var next := Next(move, Exec(INITIAL, steps).ownPreset);
            next.Some? ==> Exec(INITIAL, more).chains == others + multiset{next.value}
  {
    more := Take(steps, OnChain(move));
    assert others + multiset{Before(move)} - multiset{Before(move)} == others;
  }
}
