/** The lock-protected registry of a reconnecting subscription stream: which
    subscriptions are active, which registrations are still charged, which
    transport attempt is current and under which generation. Every function is
    one critical section; the class performs the same sections on its fields. */
module StreamRegistry {
  import opened Options

  type Id = nat

  datatype Request = Request(database: string, collection: string, filters: seq<string>)

  datatype ConnectionState = Disconnected | Connected | Reconnecting

  const REGISTRATION_LIMIT: nat := 256
  const ACTIVE_LIMIT: nat := 4096

  /** `pending` maps an identifier to the register call that owns its entry. */
  datatype Registry = Registry(
    state: ConnectionState,
    generation: nat,
    terminal: bool,
    attempt: Option<nat>,
    active: map<Id, Request>,
    pending: map<Id, nat>)

  datatype Admission = Unavailable | OverCapacity | AlreadyWithdrawn | Admitted

  datatype Completion = Acknowledged | Refused | Gone | Stale

  /** Only the current attempt can be retired; its generation is then closed. */
  function Retired(r: Registry, a: nat): (r': Registry) {
    if r.attempt != Some(a) then r
    else r.(attempt := None, generation := r.generation + 1, state := Reconnecting, terminal := false)
  }

  function Attached(r: Registry, a: nat): (r': Registry) {
    r.(attempt := Some(a))
  }

  function Restored(r: Registry, a: nat, dead: bool, closing: bool): (r': Registry) {
    if !dead && r.attempt == Some(a) && !closing then r.(state := Connected, terminal := false) else r
  }

  function Terminated(r: Registry): (r': Registry) {
    r.(attempt := None, state := Disconnected, terminal := true)
  }

  function AdmissionOf(r: Registry, a: nat, dead: bool, id: Id, restoring: bool): (v: Admission) {
    if r.attempt != Some(a) || dead || r.terminal then Unavailable
    else if |r.pending| >= REGISTRATION_LIMIT || (!restoring && |r.active| + |r.pending| >= ACTIVE_LIMIT) then
      OverCapacity
    else if restoring && id !in r.active then AlreadyWithdrawn
    else Admitted
  }

  function Admit(r: Registry, a: nat, dead: bool, id: Id, restoring: bool, call: nat): (r': Registry) {
    if AdmissionOf(r, a, dead, id, restoring).Admitted? then r.(pending := r.pending[id := call]) else r
  }

  /** `dead` is the attempt's own context, `expired` the caller's. */
  function CompletionOf(r: Registry, a: nat, dead: bool, expired: bool, id: Id, restoring: bool, call: nat,
                        success: bool): (v: Completion)
  {
    if restoring && id !in r.active then Gone
    else if r.attempt == Some(a) && !dead && !r.terminal && !expired && id in r.pending && r.pending[id] == call then
      if success then Acknowledged else Refused
    else Stale
  }

  function Complete(r: Registry, v: Completion, id: Id, request: Request): (r': Registry) {
    match v
    case Acknowledged => r.(active := r.active[id := request], pending := r.pending - {id})
    case Refused => r.(pending := r.pending - {id})
    case _ => r
  }

  predicate Owns(r: Registry, id: Id, call: nat) {
    id in r.pending && r.pending[id] == call
  }

  /** Whether an abandoned entry still needs an unsubscribe on the wire. */
  predicate MustCleanUp(r: Registry, a: nat, dead: bool, id: Id, call: nat) {
    Owns(r, id, call) && r.attempt == Some(a) && !dead
  }

  function Abandon(r: Registry, a: nat, dead: bool, id: Id, call: nat): (r': Registry) {
    if Owns(r, id, call) && !MustCleanUp(r, a, dead, id, call) then r.(pending := r.pending - {id}) else r
  }

  function Withdraw(r: Registry, id: Id): (r': Registry) {
    r.(active := r.active - {id})
  }

  /** The writer drops an abandoned entry once its unsubscribe is on the wire. */
  function Discharge(r: Registry, id: Id, ownedHere: bool): (r': Registry) {
    if ownedHere then r.(pending := r.pending - {id}) else r
  }

  function DropAttempt(r: Registry, ids: set<Id>): (r': Registry) {
    r.(pending := r.pending - ids)
  }

  class RemoteStream {
    var state: ConnectionState
    var generation: nat
    var terminal: bool
    var attempt: Option<nat>
    var active: map<Id, Request>
    var pending: map<Id, nat>

    function View(): (r: Registry)
      reads this
    {
      Registry(state, generation, terminal, attempt, active, pending)
    }

    constructor ()
      ensures View() == Registry(Connected, 1, false, Some(0), map[], map[])
    {
      state, generation, terminal, attempt := Connected, 1, false, Some(0);
      active, pending := map[], map[];
    }

    method ChangeLocked(newState: ConnectionState, isTerminal: bool)
      modifies this`state, this`terminal
      ensures View() == old(View()).(state := newState, terminal := isTerminal)
    {
      state := newState;
      terminal := isTerminal;
    }

    method RetireLocked(a: nat)
      modifies this
      ensures View() == Retired(old(View()), a)
    {
      if attempt != Some(a) {
        return;
      }
      attempt := None;
      generation := generation + 1;
      ChangeLocked(Reconnecting, false);
    }

    method AttachAttempt(a: nat) returns (adopted: nat)
      modifies this`attempt
      ensures View() == Attached(old(View()), a)
      ensures adopted == generation
    {
      adopted := generation;
      attempt := Some(a);
    }

    method FinishRestore(a: nat, dead: bool, closing: bool) returns (ready: bool)
      modifies this
      ensures View() == Restored(old(View()), a, dead, closing)
      ensures ready <==> !dead && old(attempt) == Some(a) && !closing
      ensures ready ==> state == Connected
    {
      ready := false;
      if !dead && attempt == Some(a) && !closing {
        ChangeLocked(Connected, false);
        ready := true;
      }
    }

    method Terminate()
      modifies this
      ensures View() == Terminated(old(View()))
    {
      attempt := None;
      ChangeLocked(Disconnected, true);
    }

    method RegisterPending(a: nat, dead: bool, id: Id, restoring: bool, call: nat) returns (verdict: Admission)
      modifies this`pending
      ensures verdict == AdmissionOf(old(View()), a, dead, id, restoring)
      ensures View() == Admit(old(View()), a, dead, id, restoring, call)
      ensures old(|pending|) <= REGISTRATION_LIMIT ==> |pending| <= REGISTRATION_LIMIT
    {
      if attempt != Some(a) || dead || terminal {
        return Unavailable;
      }
      if |pending| >= REGISTRATION_LIMIT || (!restoring && |active| + |pending| >= ACTIVE_LIMIT) {
        return OverCapacity;
      }
      if restoring && id !in active {
        return AlreadyWithdrawn;
      }
      pending := pending[id := call];
      return Admitted;
    }

    method TakeResponse(a: nat, dead: bool, expired: bool, id: Id, request: Request, restoring: bool, call: nat,
                        success: bool)
      returns (verdict: Completion)
      modifies this`active, this`pending
      ensures verdict == CompletionOf(old(View()), a, dead, expired, id, restoring, call, success)
      ensures View() == Complete(old(View()), verdict, id, request)
    {
      if restoring && id !in active {
        return Gone;
      }
      var current := attempt == Some(a) && !dead && !terminal && !expired && id in pending && pending[id] == call;
      if current && success && (!restoring || id in active) {
        active := active[id := request];
        pending := pending - {id};
        return Acknowledged;
      }
      if current && !success {
        pending := pending - {id};
        return Refused;
      }
      return Stale;
    }

    method AbandonLocked(a: nat, dead: bool, id: Id, call: nat) returns (cleanUp: bool)
      modifies this`pending
      ensures cleanUp == MustCleanUp(old(View()), a, dead, id, call)
      ensures View() == Abandon(old(View()), a, dead, id, call)
    {
      if id !in pending || pending[id] != call {
        return false;
      }
      if attempt != Some(a) || dead {
        pending := pending - {id};
        return false;
      }
      return true;
    }

    method UnsubscribeLocked(id: Id, closing: bool) returns (a: Option<nat>, refused: bool)
      modifies this`active
      ensures refused <==> old(terminal) || closing
      ensures refused ==> View() == old(View())
      ensures !refused ==> View() == Withdraw(old(View()), id) && a == attempt
    {
      if terminal || closing {
        return None, true;
      }
      active := active - {id};
      return attempt, false;
    }

    method WriterDischarge(id: Id, ownedHere: bool)
      modifies this`pending
      ensures View() == Discharge(old(View()), id, ownedHere)
    {
      if ownedHere {
        pending := pending - {id};
      }
    }

    /** Removes, one by one, the pending entries that belong to a finished attempt. */
    method DropAttemptEntries(mine: set<Id>)
      requires mine <= pending.Keys
      modifies this`pending
      ensures View() == DropAttempt(old(View()), mine)
    {
      var rest := mine;
      while rest != {}
        invariant rest <= mine
        invariant pending == old(pending) - (mine - rest)
        decreases rest
      {
        var id :| id in rest;
        pending := pending - {id};
        rest := rest - {id};
      }
      assert mine - rest == mine;
    }
  }
}
