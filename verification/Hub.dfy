/** Ownership of upstream registrations in the realtime hub. Streams, replica
    owners and legacy registrations are numbered in creation order; each function
    is one critical section or one atomic operation. */
module Hub {
  import opened Options

  type Id = string

  datatype StreamOwner = StreamOwner(retired: bool, terminal: bool)

  /** The registering call: waiting for the stream, acknowledged with an
      identifier, failed validation and about to release and clean up, about to
      clean up, failed before any acknowledgement, or back with its outcome. */
  datatype Call =
    | Subscribing
    | Acknowledged(id: Option<Id>)
    | Rejecting(id: Option<Id>)
    | Cleaning(id: Option<Id>)
    | Failing
    | ReturnedError(cleaned: bool)
    | ReturnedOwner

  /** The one thread that won the active flag: claimed, detached from the maps
      with the identifier it read, notified, finished. */
  datatype Release =
    | NotReleased
    | Claimed(invalidates: bool)
    | Detached(invalidates: bool, id: Option<Id>)
    | Notified(id: Option<Id>)
    | Finished

  /** How an initiated cleanup ended: a worker unsubscribes upstream, the stream
      is retired or terminal, or the hub is shutting down. */
  datatype Cleanup = Started | StreamGone | ShuttingDown

  datatype Owner = Owner(
    stream: nat, active: bool, id: Option<Id>, call: Call, release: Release, notified: nat, cleanups: seq<Cleanup>)

  /** A collected delivery still to be offered to an owner. */
  datatype Delivery = Delivery(stream: nat, owner: nat)

  /** A legacy registration: waiting for the stream, acknowledged, rejected and
      about to be cleaned up, held by its client, released and about to be cleaned
      up, over. */
  datatype LegacyPhase =
    | LegacySubscribing
    | LegacyAcknowledged
    | LegacyRejected
    | LegacyHeld
    | LegacyReleasing
    | LegacyOver

  datatype Legacy = Legacy(stream: nat, id: Id, phase: LegacyPhase, cleanups: seq<Cleanup>)

  /** The stream that queued a legacy delivery and that of a registration it reached. */
  datatype LegacyDelivery = LegacyDelivery(queued: nat, reached: nat)

  datatype State = State(
    streams: seq<StreamOwner>, current: Option<nat>, closed: bool,
    owners: seq<Owner>, registered: set<nat>, subscriptions: map<Id, nat>,
    sweeping: set<nat>, doomed: set<nat>,
    pending: seq<Delivery>, delivered: seq<Delivery>,
    registrations: seq<Legacy>, legacy: map<Id, nat>, legacyQueue: seq<nat>, legacyDelivered: seq<LegacyDelivery>)

  // ---------- sections ----------

  /** Validation of an acknowledged registration. `healthy` is the stream's own
      status and the caller's deadline. */
  predicate Valid(owner: Owner, streams: seq<StreamOwner>, current: Option<nat>, closed: bool, healthy: bool) {
    && owner.call.Acknowledged? && owner.call.id.Some? && owner.active && healthy
    && owner.stream < |streams| && !streams[owner.stream].retired && current == Some(owner.stream) && !closed
  }

  function Accepted(owner: Owner): (o: Owner)
    requires owner.call.Acknowledged?
  {
    owner.(id := owner.call.id, call := ReturnedOwner)
  }

  function Claim(owner: Owner, invalidates: bool): (o: Owner) {
    if owner.active then owner.(active := false, release := Claimed(invalidates)) else owner
  }

  function Detach(owner: Owner): (o: Owner)
    requires owner.release.Claimed?
  {
    owner.(release := Detached(owner.release.invalidates, owner.id))
  }

  function Unmapped(subscriptions: map<Id, nat>, id: Option<Id>, k: nat): (m: map<Id, nat>) {
    if id.Some? && id.value in subscriptions && subscriptions[id.value] == k then subscriptions - {id.value}
    else subscriptions
  }

  function Notify(owner: Owner): (o: Owner)
    requires owner.release.Detached?
  {
    owner.(release := Notified(owner.release.id),
           notified := owner.notified + if owner.release.invalidates then 1 else 0)
  }

  /** Owners of a stream among the registered ones. */
  function OwnersOf(owners: seq<Owner>, registered: set<nat>, s: nat): (r: set<nat>)
    ensures forall k :: k in r <==> k in registered && k < |owners| && owners[k].stream == s
  {
    set k | k in registered && k < |owners| && owners[k].stream == s
  }

  /** Owners a delivery is for: mapped by one of its identifiers, on its stream. */
  function Addressed(owners: seq<Owner>, subscriptions: map<Id, nat>, s: nat, ids: seq<Id>): (r: seq<Delivery>)
    ensures forall d :: d in r ==> d.stream == s && d.owner < |owners| && owners[d.owner].stream == s
  {
    if ids == [] then []
    else
      var id, rest := ids[0], Addressed(owners, subscriptions, s, ids[1..]);
      if id in subscriptions && subscriptions[id] < |owners| && owners[subscriptions[id]].stream == s
      then [Delivery(s, subscriptions[id])] + rest else rest
  }

  // ---------- steps ----------

  datatype Step =
    | SetStream(present: bool)
    | Retire(stream: nat)
    | Terminate(stream: nat)
    | ClearLegacy(stream: nat)               // follows the end of a stream, however late
    | Shutdown
    | Sweep(stream: nat)                     // collect the owners of a stream to invalidate
    | SweepSome(stream: nat, chosen: set<nat>) // a generation change invalidates some of them
    | InvalidateDoomed(owner: nat)
    | Begin
    | SubscribeFailed(owner: nat)
    | SubscribeAcknowledged(owner: nat, id: Option<Id>)
    | Validate(owner: nat, healthy: bool)
    | ReleaseRejected(owner: nat)
    | CleanRejected(owner: nat, outcome: Cleanup)
    | ReleaseFailed(owner: nat)
    | CallerRelease(owner: nat)
    | DetachOwner(owner: nat)
    | NotifyOwner(owner: nat)
    | CleanReleased(owner: nat, outcome: Cleanup)
    | Collect(stream: nat, ids: seq<Id>)     // a delivery; its stream may be replaced by now
    | Offer
    | LegacyBegin
    | LegacyFailed(registration: nat)
    | LegacyAcknowledge(registration: nat, legacyId: Id)
    | LegacyValidate(registration: nat, healthy: bool)
    | LegacyRegister(registration: nat, healthy: bool)
    | LegacyRelease(registration: nat)       // may be called any number of times
    | LegacyClean(registration: nat, outcome: Cleanup)
    | LegacyBroadcast(stream: nat)
    | LegacyDeliver(ids: seq<Id>)

  predicate Live(s: State, k: nat) {
    k < |s.owners| && s.owners[k].stream < |s.streams|
  }

  predicate LiveLegacy(s: State, k: nat) {
    k < |s.registrations| && s.registrations[k].stream < |s.streams|
  }

  predicate Released(l: Legacy) {
    l.phase.LegacyReleasing? || l.phase.LegacyOver?
  }

  /** Whether a legacy registration may still be used: its stream is the current,
      unretired one and reports itself healthy. */
  predicate Usable(s: State, l: Legacy, healthy: bool)
    requires l.stream < |s.streams|
  {
    !s.closed && s.current == Some(l.stream) && !s.streams[l.stream].retired && healthy
  }

  function PutLegacy(s: State, k: nat, l: Legacy): (t: State)
    requires k < |s.registrations|
  {
    s.(registrations := s.registrations[k := l])
  }

  /** The first release takes the registration out of the map and leads to a
      cleanup; later ones do nothing. */
  function ReleaseLegacy(s: State, k: nat): (t: State)
    requires k < |s.registrations|
  {
    var l := s.registrations[k];
    if !l.phase.LegacyHeld? then s
    else PutLegacy(s, k, l.(phase := LegacyReleasing)).(legacy := Unmapped(s.legacy, Some(l.id), k))
  }

  function CleanLegacy(s: State, k: nat, l: Legacy, outcome: Cleanup): (t: State)
    requires k < |s.registrations| && l.stream < |s.streams|
  {
    if s.streams[l.stream].retired || s.streams[l.stream].terminal then
      PutLegacy(s, k, l.(cleanups := l.cleanups + [StreamGone]))
    else if outcome.StreamGone? then RetireStream(PutLegacy(s, k, l.(cleanups := l.cleanups + [StreamGone])), l.stream)
    else PutLegacy(s, k, l.(cleanups := l.cleanups + [outcome]))
  }

  /** What a cleanup attempt may come to. A worker that cannot be admitted, or
      whose unsubscribe fails, retires the stream instead. */
  predicate CanEnd(s: State, stream: nat, outcome: Cleanup)
    requires stream < |s.streams|
  {
    match outcome
    case Started => true
    case StreamGone => true
    case ShuttingDown => s.closed
  }

  predicate Enabled(s: State, step: Step) {
    match step
    case SetStream(_) => true
    case Retire(stream) => stream < |s.streams|
    case Terminate(stream) => stream < |s.streams|
    case ClearLegacy(stream) => stream < |s.streams| && s.streams[stream].terminal
    case Shutdown => true
    case Sweep(stream) => stream in s.sweeping
    case SweepSome(stream, chosen) => chosen <= OwnersOf(s.owners, s.registered, stream)
    case InvalidateDoomed(k) => k in s.doomed && Live(s, k)
    case Begin => s.current.Some? && s.current.value < |s.streams| && !s.closed
    case SubscribeFailed(k) => Live(s, k) && s.owners[k].call.Subscribing?
    case SubscribeAcknowledged(k, _) => Live(s, k) && s.owners[k].call.Subscribing?
    case Validate(k, _) => Live(s, k) && s.owners[k].call.Acknowledged?
    case ReleaseRejected(k) => Live(s, k) && s.owners[k].call.Rejecting?
    case CleanRejected(k, outcome) => Live(s, k) && s.owners[k].call.Cleaning? && CanEnd(s, s.owners[k].stream, outcome)
    case ReleaseFailed(k) => Live(s, k) && s.owners[k].call.Failing?
    case CallerRelease(k) => Live(s, k) && s.owners[k].call.ReturnedOwner?
    case DetachOwner(k) => Live(s, k) && s.owners[k].release.Claimed?
    case NotifyOwner(k) => Live(s, k) && s.owners[k].release.Detached?
    case CleanReleased(k, outcome) =>
      Live(s, k) && s.owners[k].release.Notified? && CanEnd(s, s.owners[k].stream, outcome)
    case Collect(stream, _) => stream < |s.streams|
    case Offer => s.pending != [] && s.pending[0].owner < |s.owners|
    case LegacyBegin => s.current.Some? && s.current.value < |s.streams|
    case LegacyFailed(k) => LiveLegacy(s, k) && s.registrations[k].phase.LegacySubscribing?
    case LegacyAcknowledge(k, _) => LiveLegacy(s, k) && s.registrations[k].phase.LegacySubscribing?
    case LegacyValidate(k, _) => LiveLegacy(s, k) && s.registrations[k].phase.LegacyAcknowledged?
    case LegacyRegister(k, _) => LiveLegacy(s, k) && s.registrations[k].phase.LegacyHeld?
    case LegacyRelease(k) => LiveLegacy(s, k) && (s.registrations[k].phase.LegacyHeld? || Released(s.registrations[k]))
    case LegacyClean(k, outcome) =>
      LiveLegacy(s, k) && (s.registrations[k].phase.LegacyRejected? || s.registrations[k].phase.LegacyReleasing?) &&
      CanEnd(s, s.registrations[k].stream, outcome)
    case LegacyBroadcast(stream) => stream < |s.streams|
    case LegacyDeliver(_) => s.legacyQueue != []
  }

  function Put(s: State, k: nat, o: Owner): (t: State)
    requires k < |s.owners|
  {
    s.(owners := s.owners[k := o])
  }

  function RetireStream(s: State, stream: nat): (t: State)
    requires stream < |s.streams|
  {
    if s.streams[stream].retired then s
    else s.(streams := s.streams[stream := s.streams[stream].(retired := true)], sweeping := s.sweeping + {stream})
  }

  /** A cleanup attempt: skipped for a retired or terminal stream, otherwise ended
      one way or another; an identifier that never existed needs none. */
  function Clean(s: State, k: nat, o: Owner, id: Option<Id>, outcome: Cleanup): (t: State)
    requires k < |s.owners| && o.stream < |s.streams|
  {
    if id.None? then Put(s, k, o)
    else if s.streams[o.stream].retired || s.streams[o.stream].terminal then
      Put(s, k, o.(cleanups := o.cleanups + [StreamGone]))
    else if outcome.StreamGone? then RetireStream(Put(s, k, o.(cleanups := o.cleanups + [StreamGone])), o.stream)
    else Put(s, k, o.(cleanups := o.cleanups + [outcome]))
  }

  /** What a queued delivery reaches. */
  function Addressees(registrations: seq<Legacy>, legacy: map<Id, nat>, queued: nat,
                      ids: seq<Id>): (r: seq<LegacyDelivery>)
  {
    if ids == [] then []
    else
      var rest := Addressees(registrations, legacy, queued, ids[1..]);
      if ids[0] in legacy && legacy[ids[0]] < |registrations| then
        [LegacyDelivery(queued, registrations[legacy[ids[0]]].stream)] + rest
      else rest
  }

  function Apply(s: State, step: Step): (t: State)
    requires Enabled(s, step)
  {
    match step
    case SetStream(present) =>
      var previous := if s.current.Some? then {s.current.value} else {};
      var legacy := if s.current.Some? then map[] else s.legacy;
      if present then
        s.(streams := s.streams + [StreamOwner(false, false)], current := Some(|s.streams|),
           sweeping := s.sweeping + previous, legacy := legacy)
      else s.(current := None, sweeping := s.sweeping + previous, legacy := legacy)
    case Retire(stream) => RetireStream(s, stream)
    case Terminate(stream) => s.(streams := s.streams[stream := s.streams[stream].(terminal := true)])
    case ClearLegacy(_) => s.(legacy := map[])
    case Shutdown => s.(closed := true)
    case Sweep(stream) =>
      s.(sweeping := s.sweeping - {stream}, doomed := s.doomed + OwnersOf(s.owners, s.registered, stream))
    case SweepSome(_, chosen) => s.(doomed := s.doomed + chosen)
    case InvalidateDoomed(k) => Put(s, k, Claim(s.owners[k], true)).(doomed := s.doomed - {k})
    case Begin =>
      s.(owners := s.owners + [Owner(s.current.value, true, None, Subscribing, NotReleased, 0, [])],
         registered := s.registered + {|s.owners|})
    case SubscribeFailed(k) => Put(s, k, s.owners[k].(call := Failing))
    case SubscribeAcknowledged(k, id) => Put(s, k, s.owners[k].(call := Acknowledged(id)))
    case Validate(k, healthy) =>
      var o := s.owners[k];
      if Valid(o, s.streams, s.current, s.closed, healthy) then
        Put(s, k, Accepted(o)).(subscriptions := s.subscriptions[o.call.id.value := k])
      else Put(s, k, o.(call := Rejecting(o.call.id)))
    case ReleaseRejected(k) => Put(s, k, Claim(s.owners[k], false).(call := Cleaning(s.owners[k].call.id)))
    case CleanRejected(k, outcome) =>
      var o := s.owners[k];
      Clean(s, k, o.(call := ReturnedError(o.call.id.Some?)), o.call.id, outcome)
    case ReleaseFailed(k) => Put(s, k, Claim(s.owners[k], false).(call := ReturnedError(false)))
    case CallerRelease(k) => Put(s, k, Claim(s.owners[k], false))
    case DetachOwner(k) =>
      Put(s, k, Detach(s.owners[k])).(registered := s.registered - {k},
                                      subscriptions := Unmapped(s.subscriptions, s.owners[k].id, k))
    case NotifyOwner(k) => Put(s, k, Notify(s.owners[k]))
    case CleanReleased(k, outcome) =>
      var o := s.owners[k];
      Clean(s, k, o.(release := Finished), o.release.id, outcome)
    case Collect(stream, ids) => s.(pending := s.pending + Addressed(s.owners, s.subscriptions, stream, ids))
    case Offer =>
      var d := s.pending[0];
      s.(pending := s.pending[1..], delivered := if s.owners[d.owner].active then s.delivered + [d] else s.delivered)
    case LegacyBegin => s.(registrations := s.registrations + [Legacy(s.current.value, "", LegacySubscribing, [])])
    case LegacyFailed(k) => PutLegacy(s, k, s.registrations[k].(phase := LegacyOver))
    case LegacyAcknowledge(k, id) => PutLegacy(s, k, s.registrations[k].(id := id, phase := LegacyAcknowledged))
    case LegacyValidate(k, healthy) =>
      var l := s.registrations[k];
      if Usable(s, l, healthy) && l.id != "" then PutLegacy(s, k, l.(phase := LegacyHeld))
      else PutLegacy(s, k, l.(phase := if l.id == "" then LegacyOver else LegacyRejected))
    case LegacyRegister(k, healthy) =>
      var l := s.registrations[k];
      if Usable(s, l, healthy) then s.(legacy := s.legacy[l.id := k]) else ReleaseLegacy(s, k)
    case LegacyRelease(k) => ReleaseLegacy(s, k)
    case LegacyClean(k, outcome) => CleanLegacy(s, k, s.registrations[k].(phase := LegacyOver), outcome)
    case LegacyBroadcast(stream) => s.(legacyQueue := s.legacyQueue + [stream])
    case LegacyDeliver(ids) =>
      var queued := s.legacyQueue[0];
      s.(legacyQueue := s.legacyQueue[1..],
         legacyDelivered := if s.current != Some(queued) then s.legacyDelivered
                            else s.legacyDelivered + Addressees(s.registrations, s.legacy, queued, ids))
  }

  function Run(s: State, steps: seq<Step>): (r: Option<State>)
    decreases |steps|
  {
    if steps == [] then Some(s)
    else if !Enabled(s, steps[0]) then None
    else Run(Apply(s, steps[0]), steps[1..])
  }

  function Initial(): (s: State) {
    State([], None, false, [], {}, map[], {}, {}, [], [], [], map[], [], [])
  }
}
