/** Each acknowledged registration is owned or cleaned up exactly once. */
module HubSafety {
  import opened Options
  import opened Hub

  // ---------- invariant ----------

  /** One owner's call and release, in step with its flag and its cleanups. */
  predicate OwnerOk(o: Owner) {
    && (o.active <==> o.release.NotReleased?)
    && (o.id.Some? <==> o.call.ReturnedOwner?)
    && (o.call.Subscribing? || o.call.Acknowledged? || o.call.Rejecting? || o.call.Cleaning? || o.call.Failing? ==>
          o.cleanups == [])
    && (o.call.Cleaning? || o.call.ReturnedError? ==> !o.active)
    && (o.call.ReturnedError? ==> |o.cleanups| == if o.call.cleaned then 1 else 0)
    && (o.call.ReturnedOwner? ==> |o.cleanups| == if o.release.Finished? then 1 else 0)
    && (o.release.Detached? || o.release.Notified? ==> o.release.id == o.id)
    && o.notified <= 1
    && (o.release.NotReleased? || o.release.Claimed? || o.release.Detached? ==> o.notified == 0)
  }

  /** A cleanup that found its stream gone, or the hub closing, found it so for good. */
  predicate OutcomeOk(streams: seq<StreamOwner>, closed: bool, o: Owner) {
    && o.stream < |streams|
    && (StreamGone in o.cleanups ==> streams[o.stream].retired || streams[o.stream].terminal)
    && (ShuttingDown in o.cleanups ==> closed)
  }

  ghost predicate OwnersOk(owners: seq<Owner>) {
    forall k {:trigger OwnerOk(owners[k])} :: 0 <= k < |owners| ==> OwnerOk(owners[k])
  }

  ghost predicate OutcomesOk(streams: seq<StreamOwner>, closed: bool, owners: seq<Owner>) {
    forall k {:trigger OutcomeOk(streams, closed, owners[k])} :: 0 <= k < |owners| ==>
      OutcomeOk(streams, closed, owners[k])
  }

  predicate MapsOk(owners: seq<Owner>, registered: set<nat>, subscriptions: map<Id, nat>) {
    && (forall k :: 0 <= k < |owners| && owners[k].active ==> k in registered)
    && (forall id :: id in subscriptions ==> subscriptions[id] < |owners| && owners[subscriptions[id]].id == Some(id))
  }

  /** An owner in force on a replaced or retired stream has an invalidation coming. */
  predicate Watched(streams: seq<StreamOwner>, current: Option<nat>, sweeping: set<nat>, doomed: set<nat>, o: Owner,
                    k: nat)
  {
    o.active && o.stream < |streams| ==>
      && (current != Some(o.stream) ==> o.stream in sweeping || k in doomed)
      && (o.id.Some? && streams[o.stream].retired ==> o.stream in sweeping || k in doomed)
  }

  ghost predicate AllWatched(streams: seq<StreamOwner>, current: Option<nat>, sweeping: set<nat>, doomed: set<nat>,
                             owners: seq<Owner>)
  {
    forall k {:trigger Watched(streams, current, sweeping, doomed, owners[k], k)} ::
      0 <= k < |owners| ==> Watched(streams, current, sweeping, doomed, owners[k], k)
  }

  predicate StreamsOk(streams: seq<StreamOwner>, current: Option<nat>, sweeping: set<nat>) {
    (current.Some? ==> current.value < |streams|) && forall x :: x in sweeping ==> x < |streams|
  }

  predicate DeliveryOk(owners: seq<Owner>, d: Delivery) {
    d.owner < |owners| && owners[d.owner].stream == d.stream
  }

  predicate DeliveriesOk(owners: seq<Owner>, pending: seq<Delivery>, delivered: seq<Delivery>) {
    && (forall i :: 0 <= i < |pending| ==> DeliveryOk(owners, pending[i]))
    && (forall i :: 0 <= i < |delivered| ==> DeliveryOk(owners, delivered[i]))
  }

  predicate AllMatch(delivered: seq<LegacyDelivery>) {
    forall d :: d in delivered ==> d.queued == d.reached
  }

  /** Legacy registrations in the map are held ones of the current stream. */
  predicate LegacyOk(current: Option<nat>, registrations: seq<Legacy>, legacy: map<Id, nat>,
                     delivered: seq<LegacyDelivery>)
  {
    && (forall id :: id in legacy ==> legacy[id] < |registrations| && current == Some(registrations[legacy[id]].stream))
    && AllMatch(delivered)
  }

  /** A legacy registration is cleaned up once it is over, if it ever existed. */
  predicate RegistrationOk(streams: seq<StreamOwner>, closed: bool, l: Legacy) {
    && l.stream < |streams|
    && (l.phase.LegacySubscribing? ==> l.id == "")
    && (l.phase.LegacyRejected? || l.phase.LegacyHeld? || l.phase.LegacyReleasing? ==> l.id != "")
    && |l.cleanups| == (if l.phase.LegacyOver? && l.id != "" then 1 else 0)
    && (StreamGone in l.cleanups ==> streams[l.stream].retired || streams[l.stream].terminal)
    && (ShuttingDown in l.cleanups ==> closed)
  }

  ghost predicate RegistrationsOk(streams: seq<StreamOwner>, closed: bool, registrations: seq<Legacy>) {
    forall k {:trigger RegistrationOk(streams, closed, registrations[k])} ::
      0 <= k < |registrations| ==> RegistrationOk(streams, closed, registrations[k])
  }

  ghost predicate Inv(s: State) {
    && OwnersOk(s.owners)
    && OutcomesOk(s.streams, s.closed, s.owners)
    && MapsOk(s.owners, s.registered, s.subscriptions)
    && AllWatched(s.streams, s.current, s.sweeping, s.doomed, s.owners)
    && StreamsOk(s.streams, s.current, s.sweeping)
    && DeliveriesOk(s.owners, s.pending, s.delivered)
    && LegacyOk(s.current, s.registrations, s.legacy, s.legacyDelivered)
    && RegistrationsOk(s.streams, s.closed, s.registrations)
  }

  // ---------- one owner changes ----------

  /** An owner changes without gaining the flag or an identifier. */
  lemma OwnerMoves(s: State, k: nat, o: Owner)
    requires Inv(s) && k < |s.owners| && OwnerOk(o) && o.stream == s.owners[k].stream && o.id == s.owners[k].id
    requires o.active ==> s.owners[k].active
    requires OutcomeOk(s.streams, s.closed, o)
    ensures Inv(Put(s, k, o))
  {
    var t := Put(s, k, o);
    forall j | 0 <= j < |t.owners| ensures OwnerOk(t.owners[j]) {
      assert OwnerOk(s.owners[j]);
    }
    forall j | 0 <= j < |t.owners| ensures OutcomeOk(t.streams, t.closed, t.owners[j]) {
      assert OutcomeOk(s.streams, s.closed, s.owners[j]);
    }
    forall j | 0 <= j < |t.owners| ensures Watched(t.streams, t.current, t.sweeping, t.doomed, t.owners[j], j) {
      assert Watched(s.streams, s.current, s.sweeping, s.doomed, s.owners[j], j);
    }
    DeliveriesKept(s.owners, k, o, s.pending, s.delivered);
  }

  lemma DeliveriesKept(owners: seq<Owner>, k: nat, o: Owner, pending: seq<Delivery>, delivered: seq<Delivery>)
    requires DeliveriesOk(owners, pending, delivered) && k < |owners| && o.stream == owners[k].stream
    ensures DeliveriesOk(owners[k := o], pending, delivered)
  {
    forall i | 0 <= i < |pending| ensures DeliveryOk(owners[k := o], pending[i]) {
      assert DeliveryOk(owners, pending[i]);
    }
    forall i | 0 <= i < |delivered| ensures DeliveryOk(owners[k := o], delivered[i]) {
      assert DeliveryOk(owners, delivered[i]);
    }
  }

  lemma OwnerFacts(s: State, k: nat)
    requires Inv(s) && k < |s.owners|
    ensures OwnerOk(s.owners[k]) && OutcomeOk(s.streams, s.closed, s.owners[k])
    ensures Watched(s.streams, s.current, s.sweeping, s.doomed, s.owners[k], k)
  {
  }

  /** Streams only become retired or terminal, and the hub only closes. */
  predicate Aged(streams: seq<StreamOwner>, closed: bool, later: seq<StreamOwner>, laterClosed: bool) {
    && |streams| <= |later| && (closed ==> laterClosed)
    && forall i :: 0 <= i < |streams| ==>
         (streams[i].retired ==> later[i].retired) && (streams[i].terminal ==> later[i].terminal)
  }

  lemma RegistrationsAge(streams: seq<StreamOwner>, closed: bool, later: seq<StreamOwner>, laterClosed: bool,
                         registrations: seq<Legacy>)
    requires RegistrationsOk(streams, closed, registrations) && Aged(streams, closed, later, laterClosed)
    ensures RegistrationsOk(later, laterClosed, registrations)
  {
    forall k | 0 <= k < |registrations| ensures RegistrationOk(later, laterClosed, registrations[k]) {
      assert RegistrationOk(streams, closed, registrations[k]);
    }
  }

  /** Retiring a stream schedules the invalidation of all its owners. */
  lemma RetireInv(s: State, stream: nat)
    requires Inv(s) && stream < |s.streams|
    ensures Inv(RetireStream(s, stream))
  {
    var t := RetireStream(s, stream);
    forall k | 0 <= k < |t.owners| ensures OutcomeOk(t.streams, t.closed, t.owners[k]) {
      assert OutcomeOk(s.streams, s.closed, s.owners[k]);
    }
    forall k | 0 <= k < |t.owners| ensures Watched(t.streams, t.current, t.sweeping, t.doomed, t.owners[k], k) {
      assert Watched(s.streams, s.current, s.sweeping, s.doomed, s.owners[k], k);
      assert OutcomeOk(s.streams, s.closed, s.owners[k]);
    }
    RegistrationsAge(s.streams, s.closed, t.streams, t.closed, s.registrations);
  }

  /** A cleanup attempt for an owner that had none. */
  lemma CleanInv(s: State, k: nat, o: Owner, id: Option<Id>, outcome: Cleanup)
    requires Inv(s) && k < |s.owners| && o.stream == s.owners[k].stream < |s.streams| && o.id == s.owners[k].id
    requires o.cleanups == s.owners[k].cleanups == [] && (o.active ==> s.owners[k].active)
    requires CanEnd(s, o.stream, outcome)
    requires id.None? ==> OwnerOk(o)
    requires id.Some? ==> forall c :: OwnerOk(o.(cleanups := [c]))
    ensures Inv(Clean(s, k, o, id, outcome))
  {
    if id.None? {
      OwnerMoves(s, k, o);
    } else {
      assert o.cleanups + [StreamGone] == [StreamGone] && o.cleanups + [outcome] == [outcome];
      var gone := s.streams[o.stream].retired || s.streams[o.stream].terminal;
      if gone {
        OwnerMoves(s, k, o.(cleanups := [StreamGone]));
      } else if outcome.StreamGone? {
        RetireInv(s, o.stream);
        var t := RetireStream(s, o.stream);
        OwnerMoves(t, k, o.(cleanups := [StreamGone]));
      } else {
        OwnerMoves(s, k, o.(cleanups := [outcome]));
      }
    }
  }

  // ---------- steps of a registering call ----------

  lemma AcceptInv(s: State, k: nat, healthy: bool)
    requires Inv(s) && k < |s.owners| && Valid(s.owners[k], s.streams, s.current, s.closed, healthy)
    ensures Inv(Put(s, k, Accepted(s.owners[k])).(subscriptions := s.subscriptions[s.owners[k].call.id.value := k]))
  {
    var o := s.owners[k];
    var t := Put(s, k, Accepted(o)).(subscriptions := s.subscriptions[o.call.id.value := k]);
    forall j | 0 <= j < |t.owners| ensures OwnerOk(t.owners[j]) {
      assert OwnerOk(s.owners[j]);
    }
    forall j | 0 <= j < |t.owners| ensures OutcomeOk(t.streams, t.closed, t.owners[j]) {
      assert OutcomeOk(s.streams, s.closed, s.owners[j]);
    }
    forall j | 0 <= j < |t.owners| ensures Watched(t.streams, t.current, t.sweeping, t.doomed, t.owners[j], j) {
      assert Watched(s.streams, s.current, s.sweeping, s.doomed, s.owners[j], j);
    }
    assert OwnerOk(o);
    DeliveriesKept(s.owners, k, Accepted(o), s.pending, s.delivered);
  }

  predicate OfCall(step: Step) {
    step.SubscribeFailed? || step.SubscribeAcknowledged? || step.Validate? || step.ReleaseRejected? ||
    step.CleanRejected? ||
    step.ReleaseFailed? || step.CallerRelease?
  }

  lemma CallStepInv(s: State, step: Step)
    requires Inv(s) && Enabled(s, step) && OfCall(step)
    ensures Inv(Apply(s, step))
  {
    var k := step.owner;
    OwnerFacts(s, k);
    var o := s.owners[k];
    match step
    case SubscribeFailed(_) => OwnerMoves(s, k, o.(call := Failing));
    case SubscribeAcknowledged(_, id) => OwnerMoves(s, k, o.(call := Acknowledged(id)));
    case Validate(_, healthy) =>
      if Valid(o, s.streams, s.current, s.closed, healthy) {
        AcceptInv(s, k, healthy);
      } else {
        OwnerMoves(s, k, o.(call := Rejecting(o.call.id)));
      }
    case ReleaseRejected(_) => OwnerMoves(s, k, Claim(o, false).(call := Cleaning(o.call.id)));
    case CleanRejected(_, outcome) => CleanInv(s, k, o.(call := ReturnedError(o.call.id.Some?)), o.call.id, outcome);
    case ReleaseFailed(_) => OwnerMoves(s, k, Claim(o, false).(call := ReturnedError(false)));
    case CallerRelease(_) => OwnerMoves(s, k, Claim(o, false));
  }

  // ---------- steps of a release ----------

  lemma DetachInv(s: State, k: nat)
    requires Inv(s) && k < |s.owners| && s.owners[k].release.Claimed?
    ensures Inv(Put(s, k, Detach(s.owners[k])).(registered := s.registered - {k},
                                                subscriptions := Unmapped(s.subscriptions, s.owners[k].id, k)))
  {
    OwnerFacts(s, k);
    OwnerMoves(s, k, Detach(s.owners[k]));
  }

  lemma DoomedInv(s: State, k: nat)
    requires Inv(s) && k < |s.owners|
    ensures Inv(Put(s, k, Claim(s.owners[k], true)).(doomed := s.doomed - {k}))
  {
    OwnerFacts(s, k);
    OwnerMoves(s, k, Claim(s.owners[k], true));
    var t := Put(s, k, Claim(s.owners[k], true));
    forall j | 0 <= j < |t.owners| ensures Watched(t.streams, t.current, t.sweeping, t.doomed - {k}, t.owners[j], j) {
      assert Watched(t.streams, t.current, t.sweeping, t.doomed, t.owners[j], j);
    }
  }

  predicate OfRelease(step: Step) {
    step.InvalidateDoomed? || step.DetachOwner? || step.NotifyOwner? || step.CleanReleased?
  }

  lemma ReleaseStepInv(s: State, step: Step)
    requires Inv(s) && Enabled(s, step) && OfRelease(step)
    ensures Inv(Apply(s, step))
  {
    var k := step.owner;
    OwnerFacts(s, k);
    var o := s.owners[k];
    match step
    case InvalidateDoomed(_) => DoomedInv(s, k);
    case DetachOwner(_) => DetachInv(s, k);
    case NotifyOwner(_) => OwnerMoves(s, k, Notify(o));
    case CleanReleased(_, outcome) =>
      if o.release.id.None? {
        OwnerMoves(s, k, o.(release := Finished));
      } else {
        CleanInv(s, k, o.(release := Finished), o.release.id, outcome);
      }
  }

  // ---------- steps of streams ----------

  lemma SetStreamInv(s: State, present: bool)
    requires Inv(s)
    ensures Inv(Apply(s, SetStream(present)))
  {
    var t := Apply(s, SetStream(present));
    forall k | 0 <= k < |t.owners| ensures OutcomeOk(t.streams, t.closed, t.owners[k]) {
      assert OutcomeOk(s.streams, s.closed, s.owners[k]);
    }
    forall k | 0 <= k < |t.owners| ensures Watched(t.streams, t.current, t.sweeping, t.doomed, t.owners[k], k) {
      assert Watched(s.streams, s.current, s.sweeping, s.doomed, s.owners[k], k);
      assert OutcomeOk(s.streams, s.closed, s.owners[k]);
    }
    RegistrationsAge(s.streams, s.closed, t.streams, t.closed, s.registrations);
  }

  lemma TerminateInv(s: State, stream: nat)
    requires Inv(s) && stream < |s.streams|
    ensures Inv(Apply(s, Terminate(stream)))
  {
    var t := Apply(s, Terminate(stream));
    forall k | 0 <= k < |t.owners| ensures OutcomeOk(t.streams, t.closed, t.owners[k]) {
      assert OutcomeOk(s.streams, s.closed, s.owners[k]);
    }
    forall k | 0 <= k < |t.owners| ensures Watched(t.streams, t.current, t.sweeping, t.doomed, t.owners[k], k) {
      assert Watched(s.streams, s.current, s.sweeping, s.doomed, s.owners[k], k);
    }
    RegistrationsAge(s.streams, s.closed, t.streams, t.closed, s.registrations);
  }

  lemma ShutdownInv(s: State)
    requires Inv(s)
    ensures Inv(s.(closed := true))
  {
    forall k | 0 <= k < |s.owners| ensures OutcomeOk(s.streams, true, s.owners[k]) {
      assert OutcomeOk(s.streams, s.closed, s.owners[k]);
    }
    RegistrationsAge(s.streams, s.closed, s.streams, true, s.registrations);
  }

  /** Sweeping a stream dooms every owner in force on it. */
  lemma SweepInv(s: State, stream: nat)
    requires Inv(s)
    ensures Inv(s.(sweeping := s.sweeping - {stream}, doomed := s.doomed + OwnersOf(s.owners, s.registered, stream)))
  {
    var t := s.(sweeping := s.sweeping - {stream}, doomed := s.doomed + OwnersOf(s.owners, s.registered, stream));
    forall k | 0 <= k < |t.owners| ensures Watched(t.streams, t.current, t.sweeping, t.doomed, t.owners[k], k) {
      assert Watched(s.streams, s.current, s.sweeping, s.doomed, s.owners[k], k);
    }
  }

  lemma SweepSomeInv(s: State, chosen: set<nat>)
    requires Inv(s)
    ensures Inv(s.(doomed := s.doomed + chosen))
  {
    forall k | 0 <= k < |s.owners|
      ensures Watched(s.streams, s.current, s.sweeping, s.doomed + chosen, s.owners[k], k)
    {
      assert Watched(s.streams, s.current, s.sweeping, s.doomed, s.owners[k], k);
    }
  }

  lemma BeginInv(s: State)
    requires Inv(s) && Enabled(s, Begin)
    ensures Inv(Apply(s, Begin))
  {
    var t := Apply(s, Begin);
    forall k | 0 <= k < |t.owners| ensures OwnerOk(t.owners[k]) {
      assert k < |s.owners| ==> OwnerOk(s.owners[k]);
    }
    forall k | 0 <= k < |t.owners| ensures OutcomeOk(t.streams, t.closed, t.owners[k]) {
      assert k < |s.owners| ==> OutcomeOk(s.streams, s.closed, s.owners[k]);
    }
    forall k | 0 <= k < |t.owners| ensures Watched(t.streams, t.current, t.sweeping, t.doomed, t.owners[k], k) {
      assert k < |s.owners| ==> Watched(s.streams, s.current, s.sweeping, s.doomed, s.owners[k], k);
    }
    forall i | 0 <= i < |t.pending| ensures DeliveryOk(t.owners, t.pending[i]) {
      assert DeliveryOk(s.owners, s.pending[i]);
    }
    forall i | 0 <= i < |t.delivered| ensures DeliveryOk(t.owners, t.delivered[i]) {
      assert DeliveryOk(s.owners, s.delivered[i]);
    }
  }

  predicate OfStream(step: Step) {
    step.SetStream? || step.Retire? || step.Terminate? || step.Shutdown? || step.Sweep? || step.SweepSome? ||
    step.Begin?
  }

  lemma StreamStepInv(s: State, step: Step)
    requires Inv(s) && Enabled(s, step) && OfStream(step)
    ensures Inv(Apply(s, step))
  {
    match step
    case SetStream(present) => SetStreamInv(s, present);
    case Retire(stream) => RetireInv(s, stream);
    case Terminate(stream) => TerminateInv(s, stream);
    case Shutdown => ShutdownInv(s);
    case Sweep(stream) => SweepInv(s, stream);
    case SweepSome(_, chosen) => SweepSomeInv(s, chosen);
    case Begin => BeginInv(s);
  }

  // ---------- deliveries ----------

  lemma CollectInv(s: State, stream: nat, ids: seq<Id>)
    requires Inv(s) && stream < |s.streams|
    ensures Inv(Apply(s, Collect(stream, ids)))
  {
    var more := Addressed(s.owners, s.subscriptions, stream, ids);
    var t := Apply(s, Collect(stream, ids));
    forall i | 0 <= i < |t.pending| ensures DeliveryOk(t.owners, t.pending[i]) {
      if i < |s.pending| {
        assert DeliveryOk(s.owners, s.pending[i]);
      } else {
        assert t.pending[i] == more[i - |s.pending|] && more[i - |s.pending|] in more;
      }
    }
  }

  lemma OfferInv(s: State)
    requires Inv(s) && Enabled(s, Offer)
    ensures Inv(Apply(s, Offer))
  {
    var t := Apply(s, Offer);
    assert DeliveryOk(s.owners, s.pending[0]);
    forall i | 0 <= i < |t.pending| ensures DeliveryOk(t.owners, t.pending[i]) {
      assert DeliveryOk(s.owners, s.pending[i + 1]);
    }
    forall i | 0 <= i < |t.delivered| ensures DeliveryOk(t.owners, t.delivered[i]) {
      assert i < |s.delivered| ==> DeliveryOk(s.owners, s.delivered[i]);
    }
  }

  lemma {:induction false} AddresseesMatch(current: nat, registrations: seq<Legacy>, legacy: map<Id, nat>, ids: seq<Id>)
    requires forall id :: id in legacy ==> legacy[id] < |registrations| && registrations[legacy[id]].stream == current
    ensures AllMatch(Addressees(registrations, legacy, current, ids))
  {
    if ids != [] {
      AddresseesMatch(current, registrations, legacy, ids[1..]);
    }
  }

  lemma LegacyDeliverInv(s: State, ids: seq<Id>)
    requires Inv(s) && s.legacyQueue != []
    ensures Inv(Apply(s, LegacyDeliver(ids)))
  {
    if s.current == Some(s.legacyQueue[0]) {
      AddresseesMatch(s.legacyQueue[0], s.registrations, s.legacy, ids);
    }
  }

  // ---------- legacy registrations ----------

  /** A legacy registration changes on the same stream. */
  lemma LegacyMoves(s: State, k: nat, l: Legacy)
    requires Inv(s) && k < |s.registrations| && l.stream == s.registrations[k].stream &&
             RegistrationOk(s.streams, s.closed, l)
    ensures Inv(PutLegacy(s, k, l))
  {
    var t := PutLegacy(s, k, l);
    forall j | 0 <= j < |t.registrations| ensures RegistrationOk(t.streams, t.closed, t.registrations[j]) {
      assert j != k ==> RegistrationOk(s.streams, s.closed, s.registrations[j]);
    }
    LegacyMapKept(s.current, s.registrations, s.legacy, s.legacyDelivered, k, l);
  }

  lemma LegacyMapKept(current: Option<nat>, registrations: seq<Legacy>, legacy: map<Id, nat>,
                      delivered: seq<LegacyDelivery>, k: nat, l: Legacy)
    requires LegacyOk(current, registrations, legacy, delivered) && k < |registrations| &&
             l.stream == registrations[k].stream
    ensures LegacyOk(current, registrations[k := l], legacy, delivered)
  {
  }

  lemma LegacyCleanInv(s: State, k: nat, l: Legacy, outcome: Cleanup)
    requires Inv(s) && k < |s.registrations| && l.stream == s.registrations[k].stream < |s.streams|
    requires l.phase.LegacyOver? && l.id != "" && l.cleanups == [] && CanEnd(s, l.stream, outcome)
    ensures Inv(CleanLegacy(s, k, l, outcome))
  {
    assert l.cleanups + [StreamGone] == [StreamGone] && l.cleanups + [outcome] == [outcome];
    if s.streams[l.stream].retired || s.streams[l.stream].terminal {
      LegacyMoves(s, k, l.(cleanups := [StreamGone]));
    } else if outcome.StreamGone? {
      RetireInv(s, l.stream);
      LegacyMoves(RetireStream(s, l.stream), k, l.(cleanups := [StreamGone]));
    } else {
      LegacyMoves(s, k, l.(cleanups := [outcome]));
    }
  }

  lemma LegacyReleaseInv(s: State, k: nat)
    requires Inv(s) && k < |s.registrations|
    ensures Inv(ReleaseLegacy(s, k))
  {
    var l := s.registrations[k];
    if l.phase.LegacyHeld? {
      assert RegistrationOk(s.streams, s.closed, l);
      LegacyMoves(s, k, l.(phase := LegacyReleasing));
    }
  }

  predicate OfLegacy(step: Step) {
    step.LegacyFailed? || step.LegacyAcknowledge? || step.LegacyValidate? || step.LegacyRegister? ||
    step.LegacyRelease? || step.LegacyClean?
  }

  lemma LegacyStepInv(s: State, step: Step)
    requires Inv(s) && Enabled(s, step) && OfLegacy(step)
    ensures Inv(Apply(s, step))
  {
    var k := step.registration;
    var l := s.registrations[k];
    assert RegistrationOk(s.streams, s.closed, l);
    match step
    case LegacyFailed(_) => LegacyMoves(s, k, l.(phase := LegacyOver));
    case LegacyAcknowledge(_, id) => LegacyMoves(s, k, l.(id := id, phase := LegacyAcknowledged));
    case LegacyValidate(_, healthy) =>
      LegacyMoves(s, k,
                  l.(phase := if Usable(s, l, healthy) && l.id != "" then LegacyHeld
                              else if l.id == "" then LegacyOver else LegacyRejected));
    case LegacyRegister(_, healthy) => LegacyReleaseInv(s, k);
    case LegacyRelease(_) => LegacyReleaseInv(s, k);
    case LegacyClean(_, outcome) => LegacyCleanInv(s, k, l.(phase := LegacyOver), outcome);
  }

  lemma LegacyBeginInv(s: State)
    requires Inv(s) && Enabled(s, LegacyBegin)
    ensures Inv(Apply(s, LegacyBegin))
  {
    var t := Apply(s, LegacyBegin);
    forall j | 0 <= j < |t.registrations| ensures RegistrationOk(t.streams, t.closed, t.registrations[j]) {
      assert j < |s.registrations| ==> RegistrationOk(s.streams, s.closed, s.registrations[j]);
    }
  }

  lemma DeliveryStepInv(s: State, step: Step)
    requires Inv(s) && Enabled(s, step) && !OfCall(step) && !OfRelease(step) && !OfStream(step) && !OfLegacy(step)
    ensures Inv(Apply(s, step))
  {
    match step
    case Collect(stream, ids) => CollectInv(s, stream, ids);
    case ClearLegacy(_) =>
    case Offer => OfferInv(s);
    case LegacyBegin => LegacyBeginInv(s);
    case LegacyBroadcast(_) =>
    case LegacyDeliver(ids) => LegacyDeliverInv(s, ids);
  }

  // ---------- every run ----------

  lemma StepInv(s: State, step: Step)
    requires Inv(s) && Enabled(s, step)
    ensures Inv(Apply(s, step))
  {
    if OfCall(step) {
      CallStepInv(s, step);
    } else if OfRelease(step) {
      ReleaseStepInv(s, step);
    } else if OfStream(step) {
      StreamStepInv(s, step);
    } else if OfLegacy(step) {
      LegacyStepInv(s, step);
    } else {
      DeliveryStepInv(s, step);
    }
  }

  lemma {:induction false} RunInv(s: State, steps: seq<Step>)
    requires Inv(s) && Run(s, steps).Some?
    ensures Inv(Run(s, steps).value)
    decreases |steps|
  {
    if steps != [] {
      StepInv(s, steps[0]);
      RunInv(Apply(s, steps[0]), steps[1..]);
    }
  }

  // ---------- theorems ----------

  /** An acknowledged registration with a real identifier. */
  predicate Registered(o: Owner) {
    ((o.call.Acknowledged? || o.call.Rejecting? || o.call.Cleaning?) && o.call.id.Some?) || o.call.ReturnedOwner? ||
    (o.call.ReturnedError? && o.call.cleaned)
  }

  /** The call that received the acknowledgement has not decided yet or still has
      its own cleanup to start. */
  predicate InCall(o: Owner) {
    o.call.Acknowledged? || o.call.Rejecting? || o.call.Cleaning?
  }

  predicate HeldByOwner(o: Owner) {
    o.active && o.id.Some?
  }

  /** The one thread that took the owner down is on its way to the cleanup. */
  predicate BeingReleased(o: Owner) {
    o.id.Some? && (o.release.Claimed? || o.release.Detached? || o.release.Notified?)
  }

  function Truth(b: bool): (n: nat) {
    if b then 1 else 0
  }

  /** At every moment an acknowledged registration is in exactly one of four
      places: its call, its active owner, the thread releasing that owner, or one
      initiated cleanup. The cleanup runs upstream unless the stream is retired or
      terminal or the hub is shutting down. */
  lemma ExactlyOnce(steps: seq<Step>, k: nat)
    requires Run(Initial(), steps).Some? && k < |Run(Initial(), steps).value.owners|
    ensures var s := Run(Initial(), steps).value; var o := s.owners[k];
            Registered(o) ==>
              && Truth(InCall(o)) + Truth(HeldByOwner(o)) + Truth(BeingReleased(o)) + |o.cleanups| == 1
              && o.stream < |s.streams|
              && (o.cleanups == [StreamGone] ==> s.streams[o.stream].retired || s.streams[o.stream].terminal)
              && (o.cleanups == [ShuttingDown] ==> s.closed)
    ensures var o := Run(Initial(), steps).value.owners[k];
            !Registered(o) ==> o.cleanups == []
  {
    RunInv(Initial(), steps);
    OwnerFacts(Run(Initial(), steps).value, k);
  }

  /** A legacy registration that was acknowledged is being validated, held by its
      client, on its way to its one cleanup, or has had exactly one cleanup
      initiated, however often it is released. */
  lemma LegacyExactlyOnce(steps: seq<Step>, k: nat)
    requires Run(Initial(), steps).Some? && k < |Run(Initial(), steps).value.registrations|
    ensures var s := Run(Initial(), steps).value; var l := s.registrations[k];
            l.id != "" ==>
              && Truth(l.phase.LegacyAcknowledged?) + Truth(l.phase.LegacyHeld?) +
                 Truth(l.phase.LegacyRejected? || l.phase.LegacyReleasing?) + |l.cleanups| == 1
              && l.stream < |s.streams|
              && (l.cleanups == [StreamGone] ==> s.streams[l.stream].retired || s.streams[l.stream].terminal)
              && (l.cleanups == [ShuttingDown] ==> s.closed)
  {
    RunInv(Initial(), steps);
    var s := Run(Initial(), steps).value;
    assert RegistrationOk(s.streams, s.closed, s.registrations[k]);
  }

  /** An owner is told of its invalidation at most once, and never before it lost
      its active flag. */
  lemma InvalidatedOnce(steps: seq<Step>, k: nat)
    requires Run(Initial(), steps).Some? && k < |Run(Initial(), steps).value.owners|
    ensures var o := Run(Initial(), steps).value.owners[k];
            o.notified <= 1 && (o.notified == 1 ==> !o.active)
  {
    RunInv(Initial(), steps);
    OwnerFacts(Run(Initial(), steps).value, k);
  }

  /** Deliveries reach only owners of the delivering stream; queued legacy
      deliveries reach only registrations of the stream that queued them. */
  lemma DeliveredToOwnStream(steps: seq<Step>)
    requires Run(Initial(), steps).Some?
    ensures var s := Run(Initial(), steps).value;
            && (forall i :: 0 <= i < |s.delivered| ==>
                  s.delivered[i].owner < |s.owners| && s.owners[s.delivered[i].owner].stream == s.delivered[i].stream)
            && (forall d :: d in s.legacyDelivered ==> d.queued == d.reached)
  {
    RunInv(Initial(), steps);
    var s := Run(Initial(), steps).value;
    forall i | 0 <= i < |s.delivered| ensures DeliveryOk(s.owners, s.delivered[i]) {
    }
  }

  /** No owner outlives its stream: one that holds a registration on a stream that
      was replaced or retired has an invalidation under way. */
  lemma ReplacedStreamsAreInvalidated(steps: seq<Step>, k: nat)
    requires Run(Initial(), steps).Some? && k < |Run(Initial(), steps).value.owners|
    ensures var s := Run(Initial(), steps).value; var o := s.owners[k];
            HeldByOwner(o) && o.stream < |s.streams| && (s.current != Some(o.stream) || s.streams[o.stream].retired) ==>
              o.stream in s.sweeping || k in s.doomed
  {
    RunInv(Initial(), steps);
    OwnerFacts(Run(Initial(), steps).value, k);
  }
}
