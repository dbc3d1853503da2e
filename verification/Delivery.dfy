/** The delivery state the display reports, and what each callback and event does to it. */
module Delivery {
  import opened Sequences
  import opened Wrappers

  datatype Kind = Initialising | Online | Error | Stopped

  /** The reason shown beside a state: none, or the failed call with what it answered. */
  datatype Detail = NoDetail | StartFailed(reason: string) | CreateFailed(reason: string)

  /** An upstream connectivity status, as delivery_module names it. */
  datatype Status = Connected | PartiallyConnected | Other(name: string)

  /** `starting`: a start was dispatched and its `nodeStarted` is awaited.
      `started`: that event reported success, and connectivity moves the state from
      then on. */
  datatype DeliveryState = DeliveryState(state: Kind, detail: Detail, starting: bool, started: bool, adopted: bool)

  datatype Change = Change(state: Kind, detail: Detail, adopted: bool)

  datatype NodeStarted = NodeStarted(success: bool, message: string)

  const INITIALISING := DeliveryState(Initialising, NoDetail, false, false, false)
  const STOPPED := DeliveryState(Stopped, NoDetail, false, false, false)

  function Set(d: DeliveryState, state: Kind, detail: Detail): DeliveryState {
    d.(state := state, detail := detail)
  }

  /** What consumers hear when the state moves from `d` to `d'`. */
  function Told(d: DeliveryState, d': DeliveryState): seq<Change> {
    if d.state == d'.state && d.detail == d'.detail then [] else [Change(d'.state, d'.detail, d'.adopted)]
  }

  /** `nodeStarted` counts only while a dispatched start waits for it. */
  function AfterNodeStarted(d: DeliveryState, event: NodeStarted): DeliveryState {
    if !d.starting then d
    else if event.success then Set(d.(starting := false, started := true), Online, NoDetail)
    else Set(d.(starting := false), Error, Detail.StartFailed(event.message))
  }

  function AllNodeStarted(d: DeliveryState, events: seq<NodeStarted>): DeliveryState
    decreases |events|
  {
    if events == [] then d
    else AfterNodeStarted(AllNodeStarted(d, events[..|events| - 1]), events[|events| - 1])
  }

  /** What consumers hear of a row of events. */
  function AllTold(d: DeliveryState, events: seq<NodeStarted>): seq<Change>
    decreases |events|
  {
    if events == [] then []
    else
      var before := AllNodeStarted(d, events[..|events| - 1]);
      AllTold(d, events[..|events| - 1]) + Told(before, AfterNodeStarted(before, events[|events| - 1]))
  }

  /** However many are pending, only the first counts, and only if a start waits. */
  lemma {:induction false} OnlyTheFirstCounts(d: DeliveryState, events: seq<NodeStarted>)
    ensures d.starting && events != [] ==>
              AllNodeStarted(d, events) == AfterNodeStarted(d, events[0])
              && AllTold(d, events) == Told(d, AfterNodeStarted(d, events[0]))
    ensures !d.starting || events == [] ==> AllNodeStarted(d, events) == d && AllTold(d, events) == []
    decreases |events|
  {
    if events != [] {
      var before := events[..|events| - 1];
      OnlyTheFirstCounts(d, before);
      if before == [] {
        assert events[|events| - 1] == events[0];
      } else {
        assert before[0] == events[0];
      }
    }
  }

  /** An unknown status is an error, not health. */
  function MapConnectionStatus(status: Status): Kind {
    if status.Other? then Error else Online
  }

  function AfterConnection(d: DeliveryState, status: Status): DeliveryState {
    if d.started then Set(d, MapConnectionStatus(status), NoDetail) else d
  }

  predicate Retryable(d: DeliveryState) {
    d.state == Error && !d.started
  }

  function AfterClaim(d: DeliveryState): DeliveryState {
    if Retryable(d) then Set(d, Initialising, NoDetail) else d
  }

  /** The node that exists is joined as adopted unless this process made it with `preset`. */
  predicate Adopts(ownPreset: Option<string>, preset: string) {
    ownPreset != Some(preset)
  }

  function AfterJoining(d: DeliveryState, adopted: bool): DeliveryState {
    d.(adopted := adopted)
  }

  function AfterDispatch(d: DeliveryState): DeliveryState {
    d.(starting := true)
  }

  function AfterStartFailed(d: DeliveryState, reason: string): DeliveryState {
    Set(d.(starting := false), Error, Detail.StartFailed(reason))
  }

  function AfterCreateFailed(d: DeliveryState, reason: string): DeliveryState {
    Set(d, Error, Detail.CreateFailed(reason))
  }

  // ── What each report comes to, in plain terms ──────────────────────────────

  /** State and detail are these, and nothing else has changed but what is listed. */
  predicate Reports(d: DeliveryState, d': DeliveryState, state: Kind, detail: Detail, starting: bool, started: bool) {
    && d'.state == state && d'.detail == detail && d'.starting == starting && d'.started == started
    && d'.adopted == d.adopted
  }

  /** `nodeStarted` answers a start that is awaited: online without a detail, or an
      error with its message. */
  lemma NodeStartedReports(d: DeliveryState, event: NodeStarted)
    ensures d.starting && event.success ==> Reports(d, AfterNodeStarted(d, event), Online, NoDetail, false, true)
    ensures d.starting && !event.success ==>
              Reports(d, AfterNodeStarted(d, event), Error, Detail.StartFailed(event.message), false, d.started)
    ensures !d.starting ==> AfterNodeStarted(d, event) == d
  {
  }

  /** Connectivity counts from the start on: either degree of it is online, and a
      status of any other name an error. */
  lemma ConnectionReports(d: DeliveryState, status: Status)
    ensures d.started && (status == Connected || status == PartiallyConnected) ==>
              Reports(d, AfterConnection(d, status), Online, NoDetail, d.starting, true)
    ensures d.started && status.Other? ==> Reports(d, AfterConnection(d, status), Error, NoDetail, d.starting, true)
    ensures !d.started ==> AfterConnection(d, status) == d
  {
  }

  lemma ClaimReports(d: DeliveryState)
    ensures d.state == Error && !d.started ==>
              Retryable(d) && Reports(d, AfterClaim(d), Initialising, NoDetail, d.starting, false)
    ensures d.state != Error || d.started ==> !Retryable(d) && AfterClaim(d) == d
  {
  }

  lemma FailuresReport(d: DeliveryState, reason: string)
    ensures Reports(d, AfterStartFailed(d, reason), Error, Detail.StartFailed(reason), false, d.started)
    ensures Reports(d, AfterCreateFailed(d, reason), Error, Detail.CreateFailed(reason), d.starting, d.started)
  {
  }

  lemma BootstrapReports(d: DeliveryState, adopted: bool, own: Option<string>, preset: string)
    ensures AfterDispatch(d) == DeliveryState(d.state, d.detail, true, d.started, d.adopted)
    ensures AfterJoining(d, adopted) == DeliveryState(d.state, d.detail, d.starting, d.started, adopted)
    ensures Adopts(own, preset) <==> own.None? || own.value != preset
    ensures INITIALISING == DeliveryState(Initialising, NoDetail, false, false, false)
    ensures STOPPED == DeliveryState(Stopped, NoDetail, false, false, false)
  {
  }

  /** Consumers hear once of a state or detail that is new, and of nothing else. */
  lemma ChangesAreTold(d: DeliveryState, d': DeliveryState)
    ensures Told(d, d') == [] <==> d.state == d'.state && d.detail == d'.detail
    ensures Told(d, d') != [] ==>
              |Told(d, d')| == 1 && Told(d, d')[0].state == d'.state && Told(d, d')[0].detail == d'.detail
              && Told(d, d')[0].adopted == d'.adopted
  {
  }

  /** The delivery half of the display, and the preset of the node this process
      remembers creating, if any. `changes` is what consumers were told. */
  class DeliveryDisplay {
    var state: Kind
    var detail: Detail
    var starting: bool
    var started: bool
    var adopted: bool
    var ownPreset: Option<string>
    var changes: seq<Change>

    function View(): DeliveryState
      reads this
    {
      DeliveryState(state, detail, starting, started, adopted)
    }

    constructor ()
      ensures View() == STOPPED && ownPreset == None && changes == []
    {
      state, detail, starting, started, adopted := Stopped, NoDetail, false, false, false;
      ownPreset, changes := None, [];
    }

    /** Consumers hear of a state once, however often it is set. */
    method SetDeliveryState(state: Kind, detail: Detail)
      modifies this`state, this`detail, this`changes
      ensures View() == Set(old(View()), state, detail)
      ensures changes == old(changes) + Told(old(View()), View())
    {
      if this.state == state && this.detail == detail {
        return;
      }
      this.state := state;
      this.detail := detail;
      changes := changes + [Change(state, detail, adopted)];
    }

    method RecordNodeStarted(event: NodeStarted)
      modifies this`state, this`detail, this`changes, this`starting, this`started
      ensures View() == AfterNodeStarted(old(View()), event)
      ensures old(starting) && event.success ==> state == Online && detail == NoDetail && started && !starting
      ensures old(starting) && !event.success ==>
                state == Error && detail == Detail.StartFailed(event.message) && started == old(started) && !starting
      ensures !old(starting) ==> View() == old(View()) && changes == old(changes)
      ensures changes == old(changes) + Told(old(View()), View())
    {
      if !starting {
        return;
      }
      starting := false;
      if event.success {
        started := true;
        SetDeliveryState(Online, NoDetail);
      } else {
        SetDeliveryState(Error, Detail.StartFailed(event.message));
      }
    }

    /** The bridge hands over every pending `nodeStarted`, oldest first, while it has
        its subscription, and gives up one whose other end is gone. */
    method DrainNodeStarted(subscribed: bool, pending: seq<NodeStarted>, disconnected: bool) returns (stays: bool)
      modifies this`state, this`detail, this`changes, this`starting, this`started
      ensures stays == (subscribed && !disconnected)
      ensures View() == if subscribed then AllNodeStarted(old(View()), pending) else old(View())
      ensures changes == old(changes) + if subscribed then AllTold(old(View()), pending) else []
    {
      if !subscribed {
        return false;
      }
      var i := 0;
      while i < |pending|
        invariant i <= |pending|
        invariant View() == AllNodeStarted(old(View()), pending[..i])
        invariant changes == old(changes) + AllTold(old(View()), pending[..i])
      {
        RecordNodeStarted(pending[i]);
        assert pending[..i + 1][..i] == pending[..i];
        i := i + 1;
      }
      assert pending[..i] == pending;
      return !disconnected;
    }

    method HandleConnectionState(status: Status)
      modifies this`state, this`detail, this`changes
      ensures View() == AfterConnection(old(View()), status)
      ensures changes == old(changes) + Told(old(View()), View())
    {
      if started {
        SetDeliveryState(MapConnectionStatus(status), NoDetail);
      }
    }

    method ClaimDeliveryRetry() returns (claimed: bool)
      modifies this`state, this`detail, this`changes
      ensures claimed == Retryable(old(View()))
      ensures View() == AfterClaim(old(View()))
      ensures changes == old(changes) + Told(old(View()), View())
    {
      if state != Error || started {
        return false;
      }
      SetDeliveryState(Initialising, NoDetail);
      return true;
    }

    method OwnNode(preset: string)
      modifies this`ownPreset
      ensures ownPreset == Some(preset)
    {
      ownPreset := Some(preset);
    }

    method JoinNode(adopted: bool)
      modifies this`adopted
      ensures View() == AfterJoining(old(View()), adopted)
    {
      this.adopted := adopted;
    }

    method StartNode()
      modifies this`starting
      ensures View() == AfterDispatch(old(View()))
    {
      starting := true;
    }

    /** createNode answered: a created node is this process's and is started, a
        refused one is looked for. */
    method NodeCreated(preset: string, ok: bool) returns (looksForOne: bool)
      modifies this`ownPreset, this`starting
      ensures looksForOne == !ok
      ensures if ok then ownPreset == Some(preset) && !Adopts(ownPreset, preset) else ownPreset == old(ownPreset)
      ensures View() == if ok then AfterDispatch(old(View())) else old(View())
    {
      if ok {
        OwnNode(preset);
        StartNode();
      }
      return !ok;
    }

    /** getNodeInfo answered after a refused createNode: join and start the node that
        exists, or fail with createNode's reason. */
    method NodeLookedFor(preset: string, found: bool, reason: string)
      modifies this`state, this`detail, this`changes, this`starting, this`adopted
      ensures View() == if found then AfterDispatch(AfterJoining(old(View()), Adopts(ownPreset, preset)))
                        else AfterCreateFailed(old(View()), reason)
      ensures changes == old(changes) + if found then [] else Told(old(View()), View())
    {
      if found {
        var adopted := ownPreset != Some(preset);
        JoinNode(adopted);
        StartNode();
      } else {
        CreateFailed(reason);
      }
    }

    method StartFailed(reason: string)
      modifies this`state, this`detail, this`changes, this`starting
      ensures View() == AfterStartFailed(old(View()), reason)
      ensures changes == old(changes) + Told(old(View()), View())
    {
      starting := false;
      SetDeliveryState(Error, Detail.StartFailed(reason));
    }

    method CreateFailed(reason: string)
      modifies this`state, this`detail, this`changes
      ensures View() == AfterCreateFailed(old(View()), reason)
      ensures changes == old(changes) + Told(old(View()), View())
    {
      SetDeliveryState(Error, Detail.CreateFailed(reason));
    }

    /** The seeding of init. */
    method Initialise()
      modifies this
      ensures View() == INITIALISING && ownPreset == old(ownPreset) && changes == old(changes)
    {
      state, detail, starting, started, adopted := Initialising, NoDetail, false, false, false;
    }

    method Reset()
      modifies this
      ensures View() == STOPPED && ownPreset == old(ownPreset) && changes == old(changes)
    {
      state, detail, starting, started, adopted := Stopped, NoDetail, false, false, false;
    }
  }

  /** The topics the core wants, waiting and handed on. */
  class Subscriptions {
    var queued: seq<string>
    var forwarded: seq<string>
    /** Every request that was accepted, in order. */
    ghost var requested: seq<string>

    ghost predicate Valid()
      reads this
    {
      forwarded + queued == requested
    }

    constructor ()
      ensures Valid() && queued == forwarded == requested == []
    {
      queued, forwarded, requested := [], [], [];
    }

    /** A request is refused only when the bridge that would forward it is gone; an
        accepted one waits behind all before it. */
    method Subscribe(topic: string, bridged: bool) returns (accepted: bool)
      requires Valid()
      modifies this
      ensures Valid() && accepted == bridged && forwarded == old(forwarded)
      ensures requested == if accepted then old(requested) + [topic] else old(requested)
    {
      if bridged {
        Regroup(forwarded, queued, [topic]);
        queued := queued + [topic];
        requested := requested + [topic];
      }
      return bridged;
    }

    /** Forward every queued topic, oldest first, if the node is online. */
    method Forward(state: Kind)
      requires Valid()
      modifies this
      ensures Valid() && requested == old(requested)
      ensures forwarded + queued == old(forwarded + queued)
      ensures if state == Online then queued == [] else forwarded == old(forwarded)
    {
      if state != Online {
        return;
      }
      while queued != []
        invariant Valid() && requested == old(requested)
        decreases |queued|
      {
        Regroup(forwarded, [queued[0]], queued[1..]);
        assert [queued[0]] + queued[1..] == queued;
        forwarded := forwarded + [queued[0]];
        queued := queued[1..];
      }
    }
  }
}
